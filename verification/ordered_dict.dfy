/** A plain JavaScript object used as a dictionary (`obj[key] = value`,
    `Object.keys`, `Object.entries`): its entries in insertion order. Setting
    an existing key overwrites its value in place; a new key goes last. */
module OrderedDict {
  import opened Js

  type Dict<V> = seq<(string, V)>

  function Keys<V>(d: Dict<V>): (ks: seq<string>)
    ensures |ks| == |d|
    ensures forall i :: 0 <= i < |d| ==> ks[i] == d[i].0
  {
    if d == [] then [] else [d[0].0] + Keys(d[1..])
  }

  predicate DistinctKeys<V>(d: Dict<V>) {
    forall i, j :: 0 <= i < j < |d| ==> d[i].0 != d[j].0
  }

  /** `obj[k]` */
  function Get<V>(d: Dict<V>, k: string): Option<V> {
    if d == [] then None
    else if d[0].0 == k then Some(d[0].1)
    else Get(d[1..], k)
  }

  /** `obj[k] = v` */
  function Put<V>(d: Dict<V>, k: string, v: V): (r: Dict<V>)
    ensures |r| == (if k in Keys(d) then |d| else |d| + 1)
  {
    if d == [] then [(k, v)]
    else if d[0].0 == k then [(k, v)] + d[1..]
    else [d[0]] + Put(d[1..], k, v)
  }

  lemma {:induction false} GetAbsent<V>(d: Dict<V>, k: string)
    requires k !in Keys(d)
    ensures Get(d, k) == None
  {
    if d != [] {
      assert Keys(d)[0] == d[0].0;
      assert Keys(d[1..]) == Keys(d)[1..];
      GetAbsent(d[1..], k);
    }
  }

  /** Setting a key keeps the key order: an existing key stays where it is,
      a new one is appended; the keys stay distinct. */
  lemma {:induction false} PutKeys<V>(d: Dict<V>, k: string, v: V)
    requires DistinctKeys(d)
    ensures Keys(Put(d, k, v)) == if k in Keys(d) then Keys(d) else Keys(d) + [k]
    ensures DistinctKeys(Put(d, k, v))
  {
    if d == [] {
    } else if d[0].0 == k {
      assert Keys(Put(d, k, v)) == Keys(d);
    } else {
      var tail := d[1..];
      assert DistinctKeys(tail) by {
        forall i, j | 0 <= i < j < |tail| ensures tail[i].0 != tail[j].0 {
          assert tail[i] == d[i + 1] && tail[j] == d[j + 1];
        }
      }
      PutKeys(tail, k, v);
      assert Keys(d) == [d[0].0] + Keys(tail);
      assert k in Keys(d) <==> k in Keys(tail);
      var r := Put(d, k, v);
      assert r == [d[0]] + Put(tail, k, v);
      assert Keys(r) == [d[0].0] + Keys(Put(tail, k, v));
      forall j | 0 < j < |r| ensures r[0].0 != r[j].0 {
        assert r[j].0 == Keys(Put(tail, k, v))[j - 1];
        assert r[j].0 in Keys(Put(tail, k, v));
        assert r[j].0 == k || r[j].0 in Keys(tail);
        if r[j].0 in Keys(tail) {
          var m :| 0 <= m < |tail| && Keys(tail)[m] == r[j].0;
          assert d[m + 1].0 == r[j].0;
        }
      }
      forall i, j | 0 < i < j < |r| ensures r[i].0 != r[j].0 {
        assert r[i] == Put(tail, k, v)[i - 1] && r[j] == Put(tail, k, v)[j - 1];
      }
    }
  }

  /** After `obj[k] = v`, reading `obj[k]` gives `v` and every other key
      reads as before. */
  lemma {:induction false} GetPut<V>(d: Dict<V>, k: string, v: V, k': string)
    ensures Get(Put(d, k, v), k') == if k' == k then Some(v) else Get(d, k')
  {
    if d != [] && d[0].0 != k {
      GetPut(d[1..], k, v, k');
    }
  }

  /** The dictionary a sequence of assignments `obj[k] = v` builds, starting
      from `{}`, in order. */
  function FromPairs<V>(ps: seq<(string, V)>): Dict<V>
    decreases |ps|
  {
    if ps == [] then [] else Put(FromPairs(ps[..|ps| - 1]), ps[|ps| - 1].0, ps[|ps| - 1].1)
  }

  /** One more assignment is one more `Put` on the dictionary built so far. */
  lemma FromPairsSnoc<V>(ps: seq<(string, V)>, k: string, v: V)
    ensures FromPairs(ps + [(k, v)]) == Put(FromPairs(ps), k, v)
  {
    assert (ps + [(k, v)])[..|ps|] == ps;
  }

  /** The value the last assignment to `k` stores, if any. */
  function LastFor<V>(ps: seq<(string, V)>, k: string): Option<V>
    decreases |ps|
  {
    if ps == [] then None
    else if ps[|ps| - 1].0 == k then Some(ps[|ps| - 1].1)
    else LastFor(ps[..|ps| - 1], k)
  }

  /** The keys of `ps` in order of first appearance. */
  function FirstOccurrences<V>(ps: seq<(string, V)>): seq<string>
    decreases |ps|
  {
    if ps == [] then []
    else
      var prev := FirstOccurrences(ps[..|ps| - 1]);
      if ps[|ps| - 1].0 in prev then prev else prev + [ps[|ps| - 1].0]
  }

  /** Building a dictionary by assignments: keys are distinct, ordered by
      first assignment, one per distinct key assigned, and each key holds
      the value of its last assignment. */
  lemma {:induction false} FromPairsSpec<V>(ps: seq<(string, V)>)
    ensures DistinctKeys(FromPairs(ps))
    ensures Keys(FromPairs(ps)) == FirstOccurrences(ps)
    ensures forall k :: Get(FromPairs(ps), k) == LastFor(ps, k)
    decreases |ps|
  {
    if ps != [] {
      var init := ps[..|ps| - 1];
      var (k, v) := ps[|ps| - 1];
      FromPairsSpec(init);
      PutKeys(FromPairs(init), k, v);
      forall k' ensures Get(FromPairs(ps), k') == LastFor(ps, k') {
        GetPut(FromPairs(init), k, v, k');
      }
    }
  }

  lemma {:induction false} FirstOccurrencesMembers<V>(ps: seq<(string, V)>, k: string)
    ensures k in FirstOccurrences(ps) <==> exists i :: 0 <= i < |ps| && ps[i].0 == k
    decreases |ps|
  {
    if ps != [] {
      var init := ps[..|ps| - 1];
      FirstOccurrencesMembers(init, k);
      if k in FirstOccurrences(ps) && k !in FirstOccurrences(init) {
        assert ps[|ps| - 1].0 == k;
      }
      if exists i :: 0 <= i < |ps| && ps[i].0 == k {
        var i :| 0 <= i < |ps| && ps[i].0 == k;
        if i < |ps| - 1 {
          assert init[i].0 == k;
        }
      }
    }
  }

  lemma {:induction false} LastForSpec<V>(ps: seq<(string, V)>, k: string)
    ensures LastFor(ps, k).None? <==> forall i :: 0 <= i < |ps| ==> ps[i].0 != k
    ensures LastFor(ps, k).Some? ==>
      exists i :: (0 <= i < |ps| && ps[i] == (k, LastFor(ps, k).value)
                   && forall j :: i < j < |ps| ==> ps[j].0 != k)
    decreases |ps|
  {
    if ps != [] && ps[|ps| - 1].0 != k {
      var init := ps[..|ps| - 1];
      LastForSpec(init, k);
      if LastFor(ps, k).Some? {
        var i :| 0 <= i < |init| && init[i] == (k, LastFor(init, k).value)
                 && forall j :: i < j < |init| ==> init[j].0 != k;
        assert ps[i] == init[i];
      }
    }
  }

  /** An assignment that no later assignment to the same key follows gives
      that key its value. */
  lemma {:induction false} LastForAt<V>(ps: seq<(string, V)>, i: nat)
    requires i < |ps|
    requires forall j :: i < j < |ps| ==> ps[j].0 != ps[i].0
    ensures LastFor(ps, ps[i].0) == Some(ps[i].1)
    decreases |ps|
  {
    if i < |ps| - 1 {
      var init := ps[..|ps| - 1];
      assert init[i] == ps[i];
      LastForAt(init, i);
    }
  }

  /** With distinct keys, reading the key of an entry gives that entry's value. */
  lemma {:induction false} GetAt<V>(d: Dict<V>, k: nat)
    requires DistinctKeys(d) && k < |d|
    ensures Get(d, d[k].0) == Some(d[k].1)
  {
    if k > 0 {
      var tail := d[1..];
      assert DistinctKeys(tail) by {
        forall i, j | 0 <= i < j < |tail| ensures tail[i].0 != tail[j].0 {
          assert tail[i] == d[i + 1] && tail[j] == d[j + 1];
        }
      }
      assert tail[k - 1] == d[k];
      GetAt(tail, k - 1);
    }
  }
}

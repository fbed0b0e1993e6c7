/** The rewrite the bid adapter applies to the IAB TCF consent string before
    putting it into `user.ext.consent`:
    `s.replace(/\+/g, '-').replace(/\//g, '_').replace(/=+$/, '')`,
    i.e. standard base64 (section 4 of RFC 4648) turned into the URL- and
    filename-safe alphabet (section 5 of RFC 4648) with the padding dropped
    (which section 3.2 of RFC 4648 allows when the length is known). */
module Consent {

  /** `s.replace(/x/g, y)` for a one-character pattern `x`. */
  function ReplaceAll(s: string, from: char, to: char): (r: string)
    ensures |r| == |s|
    ensures forall i :: 0 <= i < |s| ==> r[i] == (if s[i] == from then to else s[i])
  {
    if s == [] then [] else [if s[0] == from then to else s[0]] + ReplaceAll(s[1..], from, to)
  }

  /** `s.replace(/=+$/, '')`: drops the trailing run of '='. */
  function StripPadding(s: string): (r: string)
    ensures |r| <= |s| && r == s[..|r|]
    ensures r == [] || r[|r| - 1] != '='
    ensures forall i :: |r| <= i < |s| ==> s[i] == '='
    decreases |s|
  {
    if |s| > 0 && s[|s| - 1] == '=' then StripPadding(s[..|s| - 1]) else s
  }

  /** The effect of both replacements on one character. */
  function UrlSafeChar(c: char): char {
    if c == '+' then '-' else if c == '/' then '_' else c
  }

  /** The consent string as sent (modules/rtbhouseBidAdapter.js:75). */
  function RewriteConsent(s: string): (r: string)
    ensures |r| <= |s|
    ensures forall i :: 0 <= i < |r| ==> r[i] == UrlSafeChar(s[i])
    ensures forall i :: |r| <= i < |s| ==> s[i] == '='
    ensures forall i :: 0 <= i < |r| ==> r[i] != '+' && r[i] != '/'
    ensures r == [] || r[|r| - 1] != '='
  {
    StripPadding(ReplaceAll(ReplaceAll(s, '+', '-'), '/', '_'))
  }

  /** The inverse alphabet change, from section 5 back to section 4 of RFC 4648. */
  function FromUrlSafe(s: string): string {
    ReplaceAll(ReplaceAll(s, '-', '+'), '_', '/')
  }

  function Padding(n: nat): (p: string)
    ensures |p| == n && forall i :: 0 <= i < n ==> p[i] == '='
  {
    if n == 0 then [] else Padding(n - 1) + "="
  }

  /** A string over the standard base64 alphabet (it has no '-' or '_'). */
  predicate StandardAlphabet(s: string) {
    forall i :: 0 <= i < |s| ==> s[i] != '-' && s[i] != '_'
  }

  /** Round trip: undoing the alphabet change and putting back as many '='
      as were dropped gives the original consent string. */
  lemma RewriteRoundTrip(s: string)
    requires StandardAlphabet(s)
    ensures FromUrlSafe(RewriteConsent(s)) + Padding(|s| - |RewriteConsent(s)|) == s
  {
    var r := RewriteConsent(s);
    var back := FromUrlSafe(r) + Padding(|s| - |r|);
    assert |back| == |s|;
    forall i | 0 <= i < |s| ensures back[i] == s[i] {
      if i < |r| {
        assert r[i] == UrlSafeChar(s[i]);
      }
    }
  }

  /** Rewriting an already rewritten consent string changes nothing. */
  lemma RewriteIdempotent(s: string)
    ensures RewriteConsent(RewriteConsent(s)) == RewriteConsent(s)
  {
    var r := RewriteConsent(s);
    var rr := RewriteConsent(r);
    assert |rr| == |r|;
  }
}

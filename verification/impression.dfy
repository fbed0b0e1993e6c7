/** One OpenRTB 2.5 Imp object per bid request (section 3.2.4):
    `mapImpression` and the floor it carries, `applyFloor`
    (modules/rtbhouseBidAdapter.js:275-320). */
module Impression {
  import opened Js
  import opened BidRequest
  import opened NativeRequest

  /** The media types the adapter supports (`SUPPORTED_MEDIA_TYPES`). */
  predicate Supported(mediaType: string) {
    mediaType == "banner" || mediaType == "native"
  }

  /** `Math.max(...floors)` over a non-empty list of floors, None standing
      for NaN: NaN as soon as one floor is NaN, otherwise the largest. */
  function MaxOf(xs: seq<Option<real>>): (m: Option<real>)
    requires |xs| > 0
    ensures m.None? <==> exists i :: 0 <= i < |xs| && xs[i].None?
    ensures m.Some? ==> m in xs && forall i :: 0 <= i < |xs| ==> xs[i].Some? && xs[i].value <= m.value
  {
    if |xs| == 1 then xs[0]
    else
      var rest := MaxOf(xs[1..]);
      if xs[0].None? || rest.None? then None
      else if xs[0].value >= rest.value then xs[0] else rest
  }

  /** The floor `applyFloor` must return (None stands for NaN). With a
      `getFloor` callback and at least one supported media type among
      `mediaTypes`' keys, it is NaN when one of the quotes for those types
      is NaN and otherwise the largest of them; in every other case it is
      `params.bidfloor`. */
  predicate IsFloorOf(slot: Slot, f: Option<real>)
    requires slot.getFloor.Some? ==> slot.mediaTypes.Some?
  {
    if slot.getFloor.Some? && exists k :: 0 <= k < |slot.mediaTypes.value.keys| && Supported(slot.mediaTypes.value.keys[k]) then
      var keys := slot.mediaTypes.value.keys;
      var quote := slot.getFloor.value;
      if exists k :: 0 <= k < |keys| && Supported(keys[k]) && quote(keys[k]).None? then
        f.None?
      else
        && f.Some?
        && (forall k :: 0 <= k < |keys| && Supported(keys[k]) ==> quote(keys[k]).value <= f.value)
        && (exists k :: 0 <= k < |keys| && Supported(keys[k]) && quote(keys[k]) == f)
    else
      f == slot.params.bidfloor
  }

  /** At most one floor satisfies IsFloorOf: the result is determined. */
  lemma FloorIsUnique(slot: Slot, f: Option<real>, g: Option<real>)
    requires slot.getFloor.Some? ==> slot.mediaTypes.Some?
    requires IsFloorOf(slot, f) && IsFloorOf(slot, g)
    ensures f == g
  {
    if slot.getFloor.Some? && exists k :: 0 <= k < |slot.mediaTypes.value.keys| && Supported(slot.mediaTypes.value.keys[k]) {
      var keys := slot.mediaTypes.value.keys;
      var quote := slot.getFloor.value;
      if !exists k :: 0 <= k < |keys| && Supported(keys[k]) && quote(keys[k]).None? {
        var i :| 0 <= i < |keys| && Supported(keys[i]) && quote(keys[i]) == f;
        var j :| 0 <= j < |keys| && Supported(keys[j]) && quote(keys[j]) == g;
        assert quote(keys[i]).value <= g.value && quote(keys[j]).value <= f.value;
      }
    }
  }

  /** `applyFloor`: collects one quote per supported media type in key order,
      then takes their `Math.max`, falling back to
      `parseFloat(params.bidfloor)` when there is none. */
  method ApplyFloor(slot: Slot) returns (f: Option<real>)
    requires slot.getFloor.Some? ==> slot.mediaTypes.Some?
    ensures IsFloorOf(slot, f)
  {
    var floors: seq<Option<real>> := [];
    if slot.getFloor.Some? {
      var keys := slot.mediaTypes.value.keys;
      var quote := slot.getFloor.value;
      var i := 0;
      while i < |keys|
        invariant 0 <= i <= |keys|
        invariant |floors| > 0 <==> exists k :: 0 <= k < i && Supported(keys[k])
        invariant forall k :: 0 <= k < i && Supported(keys[k]) ==> quote(keys[k]) in floors
        invariant forall x :: x in floors ==> exists k :: 0 <= k < i && Supported(keys[k]) && quote(keys[k]) == x
      {
        if Supported(keys[i]) {
          floors := floors + [quote(keys[i])];
        }
        i := i + 1;
      }
    }
    if |floors| > 0 {
      f := MaxOf(floors);
      if f.None? {
        var j :| 0 <= j < |floors| && floors[j].None?;
        assert floors[j] in floors;
      } else {
        forall x | x in floors ensures x.Some? && x.value <= f.value {
          var j :| 0 <= j < |floors| && floors[j] == x;
        }
      }
    } else {
      f := slot.params.bidfloor;
    }
  }

  /** `imp.ext`: `ae` is None when the property is not set. */
  datatype ImpExt = ImpExt(ae: Option<JsValue>, tid: Option<JsValue>)

  /** OpenRTB 2.5 Imp object. */
  datatype Imp = Imp(
    id: string,
    banner: Option<Banner>,
    native: Option<NativeRequestObject>,
    tagid: string,
    bidfloor: Option<real>,
    ext: Option<ImpExt>)

  /** The native part of an Imp, for a native bid only. */
  predicate NativePartOf(n: Option<NativeRequestObject>, slot: Slot)
    requires MappableSlot(slot)
  {
    && (n.Some? <==> IsNativeBid(slot))
    && (n.Some? ==> n.value.ver == "1.1" && n.value.assets == NativeAssets(NativeParamsOf(slot).value))
  }

  /** What `mapImpression` promises about the Imp it builds for `slot`. */
  predicate IsImpressionOf(imp: Imp, slot: Slot, fledgeEnabled: bool)
    requires MappableSlot(slot)
  {
    && imp.id == slot.bidId
    && imp.tagid == slot.adUnitCode
    && imp.banner == MapBanner(slot)
    && NativePartOf(imp.native, slot)
    // `bidfloor` is set only to a truthy floor: not NaN and not 0
    && (imp.bidfloor.Some? ==> IsFloorOf(slot, imp.bidfloor) && imp.bidfloor.value != 0.0)
    && (imp.bidfloor.None? ==> IsFloorOf(slot, None) || IsFloorOf(slot, Some(0.0)))
    // `ext` exists when FLEDGE is on (carrying `ae`) or when there is a truthy `tid`
    && (imp.ext.Some? <==> fledgeEnabled || Truthy(slot.impTid))
    && (imp.ext.Some? ==>
          && (imp.ext.value.ae == if fledgeEnabled then Some(slot.impAe) else None)
          && (imp.ext.value.tid == if Truthy(slot.impTid) then Some(slot.impTid) else None))
  }

  /** `mapNative` */
  method MapNative(slot: Slot) returns (n: Option<NativeRequestObject>)
    requires MappableSlot(slot)
    ensures NativePartOf(n, slot)
  {
    if IsNativeBid(slot) {
      var assets := MapNativeAssets(NativeParamsOf(slot).value);
      n := Some(NativeRequestObject(assets, "1.1"));
    } else {
      n := None;
    }
  }

  /** `mapImpression` (modules/rtbhouseBidAdapter.js:291-320). The branch
      that deletes `imp.ext.ae` when FLEDGE is off never fires, since the
      freshly built Imp has no `ext` yet; it is not modelled. */
  method MapImpression(slot: Slot, fledgeEnabled: bool) returns (imp: Imp)
    requires MappableSlot(slot)
    ensures IsImpressionOf(imp, slot, fledgeEnabled)
  {
    var native := MapNative(slot);
    imp := Imp(slot.bidId, MapBanner(slot), native, slot.adUnitCode, None, None);
    var bidfloor := ApplyFloor(slot);
    if bidfloor.Some? && bidfloor.value != 0.0 {
      imp := imp.(bidfloor := bidfloor);
    }
    if fledgeEnabled {
      imp := imp.(ext := Some(ImpExt(Some(slot.impAe), None)));
    }
    if Truthy(slot.impTid) {
      var ext := if imp.ext.Some? then imp.ext.value else ImpExt(None, None);
      imp := imp.(ext := Some(ext.(tid := Some(slot.impTid))));
    }
  }
}

/** The native part of an Imp: a request under OpenRTB Dynamic Native Ads
    API 1.1 (section 4), built from Prebid's native parameters
    (modules/rtbhouseBidAdapter.js:428-521). */
module NativeRequest {
  import opened Js
  import opened BidRequest

  // Asset ids (section 4.2), image types (section 7.4) and data asset
  // types (section 7.3) as the adapter uses them.
  const ASSET_TITLE := 1
  const ASSET_IMAGE := 2
  const ASSET_ICON := 3
  const ASSET_BODY := 4
  const ASSET_SPONSORED := 5
  const ASSET_CTA := 6
  const IMAGE_ICON := 1
  const IMAGE_MAIN := 3
  const DATA_SPONSORED := 1
  const DATA_DESC := 2
  const DATA_CTA_TEXT := 12

  /** A JavaScript number that may have overflowed to Infinity or NaN. */
  datatype Number = Finite(x: real) | NonFinite

  /** Image object (section 4.4); None is a property that is not set (or
      holds undefined, which JSON drops). */
  datatype NativeImage = NativeImage(imgType: int, wmin: Option<int>, hmin: Option<Number>, w: Option<int>, h: Option<int>)

  datatype AssetBody = TitleBody(len: JsValue) | ImgBody(img: NativeImage) | DataBody(dataType: int, len: JsValue)

  /** Asset object (section 4.2). */
  datatype Asset = Asset(id: int, required: int, body: AssetBody)

  /** Request object (section 4.1) wrapped as `{request: {assets}, ver: '1.1'}`. */
  datatype NativeRequestObject = NativeRequestObject(assets: seq<Asset>, ver: string)

  function Flag(v: JsValue): int {
    if Truthy(v) then 1 else 0
  }

  /** `mapNativeImage`: minimum sizes from the first aspect ratio (width 100
      when `min_width` is missing), exact sizes from the first size. */
  function MapNativeImage(image: ImageParams, imgType: int): (img: NativeImage)
    requires image.aspectRatios.Some? ==> |image.aspectRatios.value| > 0
    ensures img.imgType == imgType
    ensures img.wmin.Some? <==> image.aspectRatios.Some?
    ensures img.wmin.Some? ==> img.wmin.value == (if image.aspectRatios.value[0].minWidth != 0
                                                  then image.aspectRatios.value[0].minWidth else 100)
    ensures img.hmin.Some? <==> image.aspectRatios.Some?
    ensures img.hmin.Some? && image.aspectRatios.value[0].ratioWidth != 0 ==>
      img.hmin.value.Finite? && img.hmin.value.x * (image.aspectRatios.value[0].ratioWidth as real)
        == (img.wmin.value as real) * (image.aspectRatios.value[0].ratioHeight as real)
    ensures image.sizes.None? ==> img.w.None? && img.h.None?
    ensures image.sizes.Some? && image.sizes.value.SinglePair? ==>
      img.w == Some(image.sizes.value.w) && img.h == Some(image.sizes.value.h)
    ensures image.sizes.Some? && image.sizes.value.PairList? && |image.sizes.value.pairs| > 0 ==>
      img.w == Some(image.sizes.value.pairs[0].w) && img.h == Some(image.sizes.value.pairs[0].h)
    ensures image.sizes.Some? && image.sizes.value.PairList? && |image.sizes.value.pairs| == 0 ==>
      img.w.None? && img.h.None?
  {
    var aspect: (Option<int>, Option<Number>) :=
      if image.aspectRatios.Some? then
        var ratio := image.aspectRatios.value[0];
        var minWidth := if ratio.minWidth != 0 then ratio.minWidth else 100;
        var hmin := if ratio.ratioWidth == 0 then NonFinite
                    else Finite((minWidth as real) / (ratio.ratioWidth as real) * (ratio.ratioHeight as real));
        (Some(minWidth), Some(hmin))
      else (None, None);
    var size: (Option<int>, Option<int>) :=
      match image.sizes
      case None => (None, None)
      case Some(SinglePair(w, h)) => (Some(w), Some(h))
      case Some(PairList(pairs)) => if |pairs| > 0 then (Some(pairs[0].w), Some(pairs[0].h)) else (None, None);
    NativeImage(imgType, aspect.0, aspect.1, size.0, size.1)
  }

  function TitleAsset(t: TitleParams): Asset {
    Asset(ASSET_TITLE, Flag(t.required), TitleBody(Or(t.len, Num(25))))
  }

  function ImageAsset(id: int, image: ImageParams, imgType: int): Asset
    requires image.aspectRatios.Some? ==> |image.aspectRatios.value| > 0
  {
    Asset(id, Flag(image.required), ImgBody(MapNativeImage(image, imgType)))
  }

  /** A data asset; `required` is the flag the source reads for it. */
  function DataAsset(id: int, required: JsValue, dataType: int, d: DataParams): Asset {
    Asset(id, Flag(required), DataBody(dataType, d.len))
  }

  /** Asset ids in the order `mapNativeAssets` tries them: title, image,
      icon, sponsoredBy, body, cta. */
  const EMISSION_ORDER: seq<int> := [ASSET_TITLE, ASSET_IMAGE, ASSET_ICON, ASSET_SPONSORED, ASSET_BODY, ASSET_CTA]

  /** The k-th candidate asset, present when its parameter is. The body
      asset's `required` is read from `params.body.request`. */
  function Candidate(p: NativeParams, k: nat): (a: Option<Asset>)
    requires ImageReady(p.image) && ImageReady(p.icon)
    requires k < 6
    ensures a.Some? ==> a.value.id == EMISSION_ORDER[k]
  {
    if k == 0 then (if p.title.Some? then Some(TitleAsset(p.title.value)) else None)
    else if k == 1 then (if p.image.Some? then Some(ImageAsset(ASSET_IMAGE, p.image.value, IMAGE_MAIN)) else None)
    else if k == 2 then (if p.icon.Some? then Some(ImageAsset(ASSET_ICON, p.icon.value, IMAGE_ICON)) else None)
    else if k == 3 then (if p.sponsoredBy.Some? then Some(DataAsset(ASSET_SPONSORED, p.sponsoredBy.value.required, DATA_SPONSORED, p.sponsoredBy.value)) else None)
    else if k == 4 then (if p.body.Some? then Some(DataAsset(ASSET_BODY, p.body.value.request, DATA_DESC, p.body.value)) else None)
    else (if p.cta.Some? then Some(DataAsset(ASSET_CTA, p.cta.value.required, DATA_CTA_TEXT, p.cta.value)) else None)
  }

  /** The assets emitted after trying the first k candidates. */
  function EmittedUpTo(p: NativeParams, k: nat): seq<Asset>
    requires ImageReady(p.image) && ImageReady(p.icon)
    requires k <= 6
  {
    if k == 0 then []
    else EmittedUpTo(p, k - 1) + (if Candidate(p, k - 1).Some? then [Candidate(p, k - 1).value] else [])
  }

  /** The assets `mapNativeAssets` emits. */
  function NativeAssets(p: NativeParams): seq<Asset>
    requires ImageReady(p.image) && ImageReady(p.icon)
  {
    EmittedUpTo(p, 6)
  }

  /** `mapNativeAssets` (modules/rtbhouseBidAdapter.js:443-500): pushes one
      asset per parameter present. */
  method MapNativeAssets(p: NativeParams) returns (assets: seq<Asset>)
    requires ImageReady(p.image) && ImageReady(p.icon)
    ensures assets == NativeAssets(p)
  {
    assets := [];
    if p.title.Some? {
      assets := assets + [Asset(ASSET_TITLE, Flag(p.title.value.required), TitleBody(Or(p.title.value.len, Num(25))))];
    }
    assert assets == EmittedUpTo(p, 1);
    if p.image.Some? {
      assets := assets + [Asset(ASSET_IMAGE, Flag(p.image.value.required), ImgBody(MapNativeImage(p.image.value, IMAGE_MAIN)))];
    }
    assert assets == EmittedUpTo(p, 2);
    if p.icon.Some? {
      assets := assets + [Asset(ASSET_ICON, Flag(p.icon.value.required), ImgBody(MapNativeImage(p.icon.value, IMAGE_ICON)))];
    }
    assert assets == EmittedUpTo(p, 3);
    if p.sponsoredBy.Some? {
      assets := assets + [Asset(ASSET_SPONSORED, Flag(p.sponsoredBy.value.required), DataBody(DATA_SPONSORED, p.sponsoredBy.value.len))];
    }
    assert assets == EmittedUpTo(p, 4);
    if p.body.Some? {
      assets := assets + [Asset(ASSET_BODY, Flag(p.body.value.request), DataBody(DATA_DESC, p.body.value.len))];
    }
    assert assets == EmittedUpTo(p, 5);
    if p.cta.Some? {
      assets := assets + [Asset(ASSET_CTA, Flag(p.cta.value.required), DataBody(DATA_CTA_TEXT, p.cta.value.len))];
    }
  }

  /** Position of an asset id in the emission order 1, 2, 3, 5, 4, 6. */
  function EmissionRank(id: int): int {
    if id == ASSET_TITLE then 0
    else if id == ASSET_IMAGE then 1
    else if id == ASSET_ICON then 2
    else if id == ASSET_SPONSORED then 3
    else if id == ASSET_BODY then 4
    else if id == ASSET_CTA then 5
    else 6
  }

  predicate HasAsset(assets: seq<Asset>, id: int) {
    exists i :: 0 <= i < |assets| && assets[i].id == id
  }

  lemma {:induction false} EmittedUpToSorted(p: NativeParams, k: nat)
    requires ImageReady(p.image) && ImageReady(p.icon)
    requires k <= 6
    ensures forall i :: 0 <= i < |EmittedUpTo(p, k)| ==> EmissionRank(EmittedUpTo(p, k)[i].id) < k
    ensures forall i, j :: 0 <= i < j < |EmittedUpTo(p, k)| ==>
      EmissionRank(EmittedUpTo(p, k)[i].id) < EmissionRank(EmittedUpTo(p, k)[j].id)
  {
    if k > 0 {
      EmittedUpToSorted(p, k - 1);
      var prev := EmittedUpTo(p, k - 1);
      var a := EmittedUpTo(p, k);
      var c := Candidate(p, k - 1);
      assert a == prev + (if c.Some? then [c.value] else []);
      assert c.Some? ==> EmissionRank(c.value.id) == k - 1;
      forall i | 0 <= i < |a| ensures EmissionRank(a[i].id) < k {
        if i < |prev| {
          assert a[i] == prev[i];
          assert EmissionRank(prev[i].id) < k - 1;
        } else {
          assert a[i] == c.value;
          assert EmissionRank(c.value.id) == k - 1;
        }
      }
      forall i, j | 0 <= i < j < |a| ensures EmissionRank(a[i].id) < EmissionRank(a[j].id) {
        assert a[i] == prev[i];
        if j < |prev| {
          assert a[j] == prev[j];
        } else {
          assert a[j] == c.value;
        }
      }
    }
  }

  lemma {:induction false} EmittedUpToHas(p: NativeParams, k: nat, m: nat)
    requires ImageReady(p.image) && ImageReady(p.icon)
    requires k <= 6 && m < 6
    ensures HasAsset(EmittedUpTo(p, k), EMISSION_ORDER[m]) <==> m < k && Candidate(p, m).Some?
  {
    if k > 0 {
      EmittedUpToHas(p, k - 1, m);
      var prev := EmittedUpTo(p, k - 1);
      var a := EmittedUpTo(p, k);
      var c := Candidate(p, k - 1);
      assert a == prev + (if c.Some? then [c.value] else []);
      if HasAsset(a, EMISSION_ORDER[m]) {
        var i :| 0 <= i < |a| && a[i].id == EMISSION_ORDER[m];
        if i < |prev| {
          assert prev[i] == a[i];
        } else {
          assert c.Some? && c.value.id == EMISSION_ORDER[k - 1];
        }
      }
      if m < k - 1 && Candidate(p, m).Some? {
        var i :| 0 <= i < |prev| && prev[i].id == EMISSION_ORDER[m];
        assert a[i] == prev[i];
      }
      if m == k - 1 && c.Some? {
        assert a[|a| - 1].id == EMISSION_ORDER[m];
      }
    }
  }

  /** The emitted ids follow the fixed order title(1), image(2), icon(3),
      sponsoredBy(5), body(4), cta(6), and an id is emitted exactly when its
      parameter is present. */
  lemma NativeAssetOrder(p: NativeParams)
    requires ImageReady(p.image) && ImageReady(p.icon)
    ensures var a := NativeAssets(p);
      && (forall i, j :: 0 <= i < j < |a| ==> EmissionRank(a[i].id) < EmissionRank(a[j].id))
      && (HasAsset(a, ASSET_TITLE) <==> p.title.Some?)
      && (HasAsset(a, ASSET_IMAGE) <==> p.image.Some?)
      && (HasAsset(a, ASSET_ICON) <==> p.icon.Some?)
      && (HasAsset(a, ASSET_SPONSORED) <==> p.sponsoredBy.Some?)
      && (HasAsset(a, ASSET_BODY) <==> p.body.Some?)
      && (HasAsset(a, ASSET_CTA) <==> p.cta.Some?)
  {
    EmittedUpToSorted(p, 6);
    EmittedUpToHas(p, 6, 0);
    EmittedUpToHas(p, 6, 1);
    EmittedUpToHas(p, 6, 2);
    EmittedUpToHas(p, 6, 3);
    EmittedUpToHas(p, 6, 4);
    EmittedUpToHas(p, 6, 5);
  }

  /** The title asset comes first, and its `len` falls back to 25, so it is
      always set. */
  lemma TitleLenDefault(p: NativeParams)
    requires ImageReady(p.image) && ImageReady(p.icon)
    requires p.title.Some?
    ensures |NativeAssets(p)| > 0
    ensures NativeAssets(p)[0] == Asset(ASSET_TITLE, Flag(p.title.value.required),
                                        TitleBody(if Truthy(p.title.value.len) then p.title.value.len else Num(25)))
    ensures Truthy(NativeAssets(p)[0].body.len)
  {
    assert EmittedUpTo(p, 1) == [TitleAsset(p.title.value)];
    EmittedUpToPrefix(p, 1, 6);
  }

  lemma {:induction false} EmittedUpToPrefix(p: NativeParams, k: nat, n: nat)
    requires ImageReady(p.image) && ImageReady(p.icon)
    requires k <= n <= 6
    ensures |EmittedUpTo(p, k)| <= |EmittedUpTo(p, n)|
    ensures EmittedUpTo(p, k) == EmittedUpTo(p, n)[..|EmittedUpTo(p, k)|]
    decreases n - k
  {
    if k < n {
      EmittedUpToPrefix(p, k + 1, n);
    }
  }

  /** The body asset's `required` follows `params.body.request`; its own
      `required` flag is never read. */
  lemma BodyRequiredReadsRequest(p: NativeParams, otherRequired: JsValue)
    requires ImageReady(p.image) && ImageReady(p.icon)
    requires p.body.Some?
    ensures var q := p.(body := Some(p.body.value.(required := otherRequired)));
      NativeAssets(q) == NativeAssets(p)
    ensures exists i :: (0 <= i < |NativeAssets(p)| && NativeAssets(p)[i] ==
      Asset(ASSET_BODY, if Truthy(p.body.value.request) then 1 else 0, DataBody(DATA_DESC, p.body.value.len)))
  {
    var q := p.(body := Some(p.body.value.(required := otherRequired)));
    assert EmittedUpTo(q, 1) == EmittedUpTo(p, 1);
    assert EmittedUpTo(q, 2) == EmittedUpTo(p, 2);
    assert EmittedUpTo(q, 3) == EmittedUpTo(p, 3);
    assert EmittedUpTo(q, 4) == EmittedUpTo(p, 4);
    assert EmittedUpTo(q, 5) == EmittedUpTo(p, 5);
    assert EmittedUpTo(q, 6) == EmittedUpTo(p, 6);
    var pre := EmittedUpTo(p, 4);
    assert EmittedUpTo(p, 5) == pre + [DataAsset(ASSET_BODY, p.body.value.request, DATA_DESC, p.body.value)];
    EmittedUpToPrefix(p, 5, 6);
    assert NativeAssets(p)[|pre|] == EmittedUpTo(p, 5)[|pre|];
  }
}

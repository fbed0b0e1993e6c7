/** Reading a native creative: `interpretNativeAd`
    (modules/rtbhouseBidAdapter.js:571-608) turns the OpenRTB Dynamic Native
    Ads 1.1 response (section 5) held in a bid's `adm` into Prebid's
    `bid.native` object. */
module NativeResponse {
  import opened Js
  import opened NativeRequest

  /** The result of `encodeURI(raw)`; the percent-escaping itself is not
      modelled, only which string was escaped. */
  datatype EncodedUri = EncodedUri(raw: string)

  /** Image response object (section 5.4). */
  datatype ResponseImg = ResponseImg(url: string, w: JsValue, h: JsValue)

  /** What a response asset carries next to its id: `title`, `img` or `data`
      (section 5.3). */
  datatype ResponsePayload =
    | TitlePayload(text: JsValue)
    | ImgPayload(img: ResponseImg)
    | DataPayload(value: JsValue)
    | NoPayload

  datatype ResponseAsset = ResponseAsset(id: int, payload: ResponsePayload)

  /** The `native` member of the parsed `adm` (section 5.1). */
  datatype NativeAd = NativeAd(linkUrl: string, imptrackers: JsValue, assets: seq<ResponseAsset>)

  datatype ImageResult = ImageResult(url: EncodedUri, width: JsValue, height: JsValue)

  /** Prebid's `bid.native`; None is a property that is never set. */
  datatype NativeResult = NativeResult(
    clickUrl: EncodedUri,
    impressionTrackers: JsValue,
    title: Option<JsValue>,
    image: Option<ImageResult>,
    icon: Option<ImageResult>,
    body: Option<JsValue>,
    sponsoredBy: Option<JsValue>,
    cta: Option<JsValue>)

  /** An asset whose id the adapter reads carries the member it reads;
      otherwise `asset.title.text` and the like throw a TypeError. Assets
      with other ids may carry anything. */
  predicate Readable(a: ResponseAsset) {
    && (a.id == ASSET_TITLE ==> a.payload.TitlePayload?)
    && (a.id == ASSET_IMAGE || a.id == ASSET_ICON ==> a.payload.ImgPayload?)
    && (a.id == ASSET_BODY || a.id == ASSET_SPONSORED || a.id == ASSET_CTA ==> a.payload.DataPayload?)
  }

  predicate AllReadable(assets: seq<ResponseAsset>) {
    forall a :: a in assets ==> Readable(a)
  }

  /** The last asset with the given id, if any. */
  function LastWithId(assets: seq<ResponseAsset>, id: int): (r: Option<ResponseAsset>)
    ensures r.Some? ==> r.value in assets && r.value.id == id
    decreases |assets|
  {
    if assets == [] then None
    else if assets[|assets| - 1].id == id then Some(assets[|assets| - 1])
    else LastWithId(assets[..|assets| - 1], id)
  }

  function TitleOf(a: Option<ResponseAsset>): Option<JsValue>
    requires a.Some? ==> a.value.payload.TitlePayload?
  {
    if a.Some? then Some(a.value.payload.text) else None
  }

  function ImageOf(a: Option<ResponseAsset>): Option<ImageResult>
    requires a.Some? ==> a.value.payload.ImgPayload?
  {
    if a.Some? then
      var img := a.value.payload.img;
      Some(ImageResult(EncodedUri(img.url), img.w, img.h))
    else None
  }

  function DataOf(a: Option<ResponseAsset>): Option<JsValue>
    requires a.Some? ==> a.value.payload.DataPayload?
  {
    if a.Some? then Some(a.value.payload.value) else None
  }

  /** What `bid.native` must be: the click URL and trackers, and for each
      known asset id the content of the LAST asset with that id. */
  function ExpectedNative(linkUrl: string, imptrackers: JsValue, assets: seq<ResponseAsset>): NativeResult
    requires AllReadable(assets)
  {
    NativeResult(
      EncodedUri(linkUrl),
      imptrackers,
      TitleOf(LastWithId(assets, ASSET_TITLE)),
      ImageOf(LastWithId(assets, ASSET_IMAGE)),
      ImageOf(LastWithId(assets, ASSET_ICON)),
      DataOf(LastWithId(assets, ASSET_BODY)),
      DataOf(LastWithId(assets, ASSET_SPONSORED)),
      DataOf(LastWithId(assets, ASSET_CTA)))
  }

  /** `interpretNativeAd`, from the already parsed `native` member: a switch
      on each asset's id, in order, where a later asset overwrites an earlier
      one and an unknown id is skipped. */
  method InterpretNativeAd(ad: NativeAd) returns (r: NativeResult)
    requires AllReadable(ad.assets)
    ensures r == ExpectedNative(ad.linkUrl, ad.imptrackers, ad.assets)
  {
    r := NativeResult(EncodedUri(ad.linkUrl), ad.imptrackers, None, None, None, None, None, None);
    var i := 0;
    while i < |ad.assets|
      invariant 0 <= i <= |ad.assets|
      invariant r == ExpectedNative(ad.linkUrl, ad.imptrackers, ad.assets[..i])
    {
      var asset := ad.assets[i];
      assert asset in ad.assets;
      assert ad.assets[..i + 1][..i] == ad.assets[..i];
      assert ad.assets[..i + 1][i] == asset;
      if asset.id == ASSET_TITLE {
        r := r.(title := Some(asset.payload.text));
      } else if asset.id == ASSET_IMAGE {
        r := r.(image := Some(ImageResult(EncodedUri(asset.payload.img.url), asset.payload.img.w, asset.payload.img.h)));
      } else if asset.id == ASSET_ICON {
        r := r.(icon := Some(ImageResult(EncodedUri(asset.payload.img.url), asset.payload.img.w, asset.payload.img.h)));
      } else if asset.id == ASSET_BODY {
        r := r.(body := Some(asset.payload.value));
      } else if asset.id == ASSET_SPONSORED {
        r := r.(sponsoredBy := Some(asset.payload.value));
      } else if asset.id == ASSET_CTA {
        r := r.(cta := Some(asset.payload.value));
      }
      i := i + 1;
    }
    assert ad.assets[..|ad.assets|] == ad.assets;
  }

  /** LastWithId finds nothing exactly when no asset has the id, and
      otherwise an asset with that id that no later asset with the id
      follows. */
  lemma {:induction false} LastWithIdSpec(assets: seq<ResponseAsset>, id: int)
    ensures LastWithId(assets, id).None? <==> forall i :: 0 <= i < |assets| ==> assets[i].id != id
    ensures LastWithId(assets, id).Some? ==>
      exists i :: (0 <= i < |assets| && assets[i] == LastWithId(assets, id).value
                   && forall j :: i < j < |assets| ==> assets[j].id != id)
    decreases |assets|
  {
    if assets != [] && assets[|assets| - 1].id != id {
      var init := assets[..|assets| - 1];
      LastWithIdSpec(init, id);
      if LastWithId(assets, id).Some? {
        var i :| 0 <= i < |init| && init[i] == LastWithId(init, id).value
                 && forall j :: i < j < |init| ==> init[j].id != id;
        assert assets[i] == init[i];
      }
    }
  }

  /** Removing an asset never changes what is found for another id. */
  lemma {:induction false} LastWithIdSkips(xs: seq<ResponseAsset>, a: ResponseAsset, ys: seq<ResponseAsset>, id: int)
    requires a.id != id
    ensures LastWithId(xs + [a] + ys, id) == LastWithId(xs + ys, id)
    decreases |ys|
  {
    if ys == [] {
      assert (xs + [a] + ys)[..|xs + [a] + ys| - 1] == xs;
      assert xs + ys == xs;
    } else {
      var init := ys[..|ys| - 1];
      assert (xs + [a] + ys)[..|xs + [a] + ys| - 1] == xs + [a] + init;
      assert (xs + ys)[..|xs + ys| - 1] == xs + init;
      LastWithIdSkips(xs, a, init, id);
    }
  }

  /** An asset whose id the adapter does not know leaves `bid.native` as it
      would be without it, wherever it stands. */
  lemma UnknownAssetIgnored(linkUrl: string, imptrackers: JsValue,
                            xs: seq<ResponseAsset>, a: ResponseAsset, ys: seq<ResponseAsset>)
    requires !(1 <= a.id <= 6)
    requires AllReadable(xs + [a] + ys)
    ensures AllReadable(xs + ys)
    ensures ExpectedNative(linkUrl, imptrackers, xs + [a] + ys) == ExpectedNative(linkUrl, imptrackers, xs + ys)
  {
    forall id | 1 <= id <= 6 {
      LastWithIdSkips(xs, a, ys, id);
    }
  }
}

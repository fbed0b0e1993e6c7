/** The bid requests ("slots") the host hands to the RTB House bid adapter,
    the adapter's validator and the banner part of an OpenRTB 2.5 Imp
    (modules/rtbhouseBidAdapter.js). */
module BidRequest {
  import opened Js
  import opened Schain

  const BIDDER_CODE := "rtbhouse"
  const REGIONS: seq<string> := ["prebid-eu", "prebid-us", "prebid-asia"]

  datatype Size = Size(w: int, h: int)

  datatype BannerSpec = BannerSpec(sizes: Option<seq<Size>>)

  datatype TitleParams = TitleParams(required: JsValue, len: JsValue)

  /** `min_width` is 0 when it is missing (both are falsy). */
  datatype AspectRatio = AspectRatio(minWidth: int, ratioWidth: int, ratioHeight: int)

  /** `image.sizes` is either one `[w, h]` pair or a list of pairs. */
  datatype ImageSizes = SinglePair(w: int, h: int) | PairList(pairs: seq<Size>)

  datatype ImageParams = ImageParams(required: JsValue, aspectRatios: Option<seq<AspectRatio>>, sizes: Option<ImageSizes>)

  datatype DataParams = DataParams(required: JsValue, request: JsValue, len: JsValue)

  /** Prebid's legacy native parameters; a missing asset is None. */
  datatype NativeParams = NativeParams(
    title: Option<TitleParams>,
    image: Option<ImageParams>,
    icon: Option<ImageParams>,
    sponsoredBy: Option<DataParams>,
    body: Option<DataParams>,
    cta: Option<DataParams>)

  /** `slot.mediaTypes`: its own keys in insertion order, and the values of
      the two keys the adapter reads (None when missing or falsy). */
  datatype MediaTypes = MediaTypes(keys: seq<string>, banner: Option<BannerSpec>, native: Option<NativeParams>)

  /** `params.bidfloor` is what `parseFloat` reads from it; None stands for NaN. */
  datatype BidParams = BidParams(
    region: JsValue,
    publisherId: JsValue,
    channel: JsValue,
    bidfloor: Option<real>,
    test: JsValue)

  /** A bid request. `getFloor` is the host's price-floor callback, reduced to
      the `floor` member of the object it returns per media type (currency
      and sizes are fixed per slot), None when that member is missing or
      is not a number, so that it reads as NaN; `impAe` and `impTid` are `ortb2Imp.ext.ae` and `ortb2Imp.ext.tid`. */
  datatype Slot = Slot(
    bidId: string,
    adUnitCode: string,
    auctionId: JsValue,
    params: BidParams,
    mediaType: Option<string>,
    mediaTypes: Option<MediaTypes>,
    sizes: Option<seq<Size>>,
    nativeParams: Option<NativeParams>,
    getFloor: Option<string -> Option<real>>,
    impAe: JsValue,
    impTid: JsValue,
    schain: Option<SupplyChain>,
    userIdAsEids: JsValue)

  /** `spec.isBidRequestValid` (modules/rtbhouseBidAdapter.js:185-187). */
  function IsBidRequestValid(bid: Slot): (valid: bool)
    ensures valid <==>
      (bid.params.region == Str("prebid-eu") || bid.params.region == Str("prebid-us")
       || bid.params.region == Str("prebid-asia"))
      && Truthy(bid.params.publisherId)
  {
    (bid.params.region.Str? && bid.params.region.s in REGIONS) && Truthy(bid.params.publisherId)
  }

  predicate MediaTypeMissing(slot: Slot) {
    slot.mediaType.None? || slot.mediaType.value == ""
  }

  /** `isBannerBid`: banner is also assumed when neither `mediaType` nor
      `mediaTypes` is given. */
  predicate IsBannerBid(slot: Slot) {
    slot.mediaType == Some("banner")
    || (slot.mediaTypes.Some? && slot.mediaTypes.value.banner.Some?)
    || (MediaTypeMissing(slot) && slot.mediaTypes.None?)
  }

  /** `isNativeBid` */
  predicate IsNativeBid(slot: Slot) {
    slot.mediaType == Some("native")
    || (slot.mediaTypes.Some? && slot.mediaTypes.value.native.Some?)
  }

  /** How the two tests read a slot. Without `mediaTypes`, `mediaType`
      alone decides, and a slot that names no media type at all is a
      banner and not native; with `mediaTypes`, either source of a media
      type suffices, so a slot can be both. */
  lemma MediaTypeTests(slot: Slot)
    ensures slot.mediaTypes.None? ==>
      && (IsBannerBid(slot) <==> slot.mediaType.None? || slot.mediaType == Some("") || slot.mediaType == Some("banner"))
      && (IsNativeBid(slot) <==> slot.mediaType == Some("native"))
    ensures slot.mediaTypes.Some? ==>
      && (IsBannerBid(slot) <==> slot.mediaType == Some("banner") || slot.mediaTypes.value.banner.Some?)
      && (IsNativeBid(slot) <==> slot.mediaType == Some("native") || slot.mediaTypes.value.native.Some?)
  {
  }

  /** `slot.sizes || slot.mediaTypes.banner.sizes`; None where that is
      undefined or would throw. A `sizes` array, even an empty one, wins. */
  function BannerSizes(slot: Slot): Option<seq<Size>> {
    if slot.sizes.Some? then slot.sizes
    else if slot.mediaTypes.Some? && slot.mediaTypes.value.banner.Some? then slot.mediaTypes.value.banner.value.sizes
    else None
  }

  /** `slot.nativeParams || deepAccess(slot, 'mediaTypes.native')` */
  function NativeParamsOf(slot: Slot): Option<NativeParams> {
    if slot.nativeParams.Some? then slot.nativeParams
    else if slot.mediaTypes.Some? then slot.mediaTypes.value.native
    else None
  }

  predicate ImageReady(img: Option<ImageParams>) {
    img.Some? && img.value.aspectRatios.Some? ==> |img.value.aspectRatios.value| > 0
  }

  /** The shape of a bid request on which building the Imp does not throw a
      TypeError; the host only hands over bid requests of this shape. */
  predicate MappableSlot(slot: Slot) {
    && (IsBannerBid(slot) ==> BannerSizes(slot).Some? && |BannerSizes(slot).value| > 0)
    && (IsNativeBid(slot) ==> NativeParamsOf(slot).Some?
                              && ImageReady(NativeParamsOf(slot).value.image)
                              && ImageReady(NativeParamsOf(slot).value.icon))
    && (slot.getFloor.Some? ==> slot.mediaTypes.Some?)
  }

  datatype Format = Format(w: int, h: int)

  /** OpenRTB 2.5 Banner object (section 3.2.6). */
  datatype Banner = Banner(w: int, h: int, format: seq<Format>)

  /** `mapBanner` (modules/rtbhouseBidAdapter.js:340-353): a banner only for a
      banner bid; its size is the first size and `format` lists every size
      in order. */
  function MapBanner(slot: Slot): (b: Option<Banner>)
    requires MappableSlot(slot)
    ensures b.Some? <==> IsBannerBid(slot)
    ensures b.Some? ==>
      var sizes := BannerSizes(slot).value;
      && b.value.w == sizes[0].w && b.value.h == sizes[0].h
      && |b.value.format| == |sizes|
      && forall i :: 0 <= i < |sizes| ==> b.value.format[i] == Format(sizes[i].w, sizes[i].h)
  {
    if IsBannerBid(slot) then
      var sizes := BannerSizes(slot).value;
      Some(Banner(sizes[0].w, sizes[0].h, seq(|sizes|, i requires 0 <= i < |sizes| => Format(sizes[i].w, sizes[i].h))))
    else None
  }
}

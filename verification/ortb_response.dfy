/** Reading the bidder's answer: `interpretOrtbResponse` turns an OpenRTB 2.5
    list of Bid objects (section 4.2.3) into Prebid bids, and
    `interpretResponse` additionally builds the FLEDGE (Protected Audience)
    auction configurations when the answer carries interest-group bids
    (modules/rtbhouseBidAdapter.js:189-265, 527-565). */
module OrtbResponse {
  import opened Js
  import opened OrderedDict
  import opened NativeResponse

  const TTL := 55
  const CURRENCY := "USD"

  /** A Bid object of the response. `price` is None when the property is
      missing; `native` is the parsed `adm` when that starts with '{'. */
  datatype ServerBid = ServerBid(
    impid: JsValue,
    price: Option<real>,
    adid: JsValue,
    adm: string,
    w: JsValue,
    h: JsValue,
    adomain: JsValue,
    ext: JsValue,
    native: Option<NativeAd>)

  /** A Prebid bid object; `ad`, `native` and `ext` are None when not set. */
  datatype PrebidBid = PrebidBid(
    requestId: JsValue,
    mediaType: string,
    cpm: real,
    creativeId: JsValue,
    ad: Option<string>,
    width: JsValue,
    height: JsValue,
    ttl: int,
    advertiserDomains: JsValue,
    netRevenue: bool,
    currency: string,
    native: Option<NativeResult>,
    ext: Option<JsValue>)

  /** `serverBid.price` is truthy: present and not 0. */
  predicate Priced(sb: ServerBid) {
    sb.price.Some? && sb.price.value != 0.0
  }

  /** `adm.indexOf('{') === 0` */
  predicate IsNativeAdm(adm: string) {
    |adm| > 0 && adm[0] == '{'
  }

  /** A priced bid with a native `adm` carries a parsable native creative
      whose known assets have the members that are read. */
  predicate Interpretable(sb: ServerBid) {
    Priced(sb) && IsNativeAdm(sb.adm) ==> sb.native.Some? && AllReadable(sb.native.value.assets)
  }

  predicate AllInterpretable(bids: seq<ServerBid>) {
    forall sb :: sb in bids ==> Interpretable(sb)
  }

  /** `interpretBannerBid` / `interpretNativeBid`, chosen by the first
      character of `adm`, then `ext` copied when truthy. */
  function InterpretBid(sb: ServerBid): (b: PrebidBid)
    requires Priced(sb) && Interpretable(sb)
    ensures b.requestId == sb.impid && b.cpm == sb.price.value && b.cpm != 0.0
    ensures b.creativeId == sb.adid && b.advertiserDomains == sb.adomain
    ensures b.ttl == TTL && b.netRevenue && b.currency == CURRENCY
    ensures b.mediaType == "native" <==> IsNativeAdm(sb.adm)
    ensures b.mediaType == "native" || b.mediaType == "banner"
    ensures b.mediaType == "banner" ==>
      b.ad == Some(sb.adm) && b.width == sb.w && b.height == sb.h && b.native.None?
    ensures b.mediaType == "native" ==>
      && b.ad.None? && b.width == Num(1) && b.height == Num(1)
      && b.native == Some(ExpectedNative(sb.native.value.linkUrl, sb.native.value.imptrackers, sb.native.value.assets))
    ensures b.ext.Some? <==> Truthy(sb.ext)
    ensures b.ext.Some? ==> b.ext.value == sb.ext
  {
    var bid :=
      if IsNativeAdm(sb.adm) then
        var ad := sb.native.value;
        PrebidBid(sb.impid, "native", sb.price.value, sb.adid, None, Num(1), Num(1), TTL, sb.adomain, true, CURRENCY,
                  Some(ExpectedNative(ad.linkUrl, ad.imptrackers, ad.assets)), None)
      else
        PrebidBid(sb.impid, "banner", sb.price.value, sb.adid, Some(sb.adm), sb.w, sb.h, TTL, sb.adomain, true, CURRENCY,
                  None, None);
    if Truthy(sb.ext) then bid.(ext := Some(sb.ext)) else bid
  }

  /** The bids `interpretOrtbResponse` returns for a list of server bids:
      one per priced server bid, in order. */
  function InterpretBids(bids: seq<ServerBid>): (r: seq<PrebidBid>)
    requires AllInterpretable(bids)
    ensures |r| <= |bids|
    ensures forall j :: 0 <= j < |r| ==> r[j].cpm != 0.0
    decreases |bids|
  {
    if bids == [] then []
    else
      var last := bids[|bids| - 1];
      assert last in bids;
      InterpretBids(bids[..|bids| - 1]) + (if Priced(last) then [InterpretBid(last)] else [])
  }

  /** The response body: a list of bids, an object (which may be a FLEDGE
      envelope), null or undefined, or any other value (a string, a number,
      a boolean). */
  datatype ResponseBody =
    | BidArray(bids: seq<ServerBid>)
    | Envelope(bidid: JsValue, seatbid: seq<SeatBid>, ext: Option<ResponseExt>)
    | NullBody
    | OtherValue

  /** A seat's `bid` member; None when it is missing or not an array, which
      `interpretOrtbResponse` reads as no bids. */
  datatype SeatBid = SeatBid(bid: Option<seq<ServerBid>>)

  datatype IgBuyer = IgBuyer(igdomain: string, buyersignal: JsValue)

  /** Interest-group bids for one impression. */
  datatype IgBid = IgBid(impid: string, igbuyer: seq<IgBuyer>)

  /** The envelope's `ext`; `sellerTimeout` is None when the key is absent and
      `igbid` is None when it is not an array. */
  datatype ResponseExt = ResponseExt(
    seller: JsValue,
    decisionLogicUrl: JsValue,
    sellerTimeout: Option<JsValue>,
    igbid: Option<seq<IgBid>>)

  /** What `interpretResponse` can read without a TypeError: not null or
      undefined (it reads `body.bidid`), and bids that can be interpreted. */
  predicate BodyInterpretable(body: ResponseBody) {
    && !body.NullBody?
    && (body.BidArray? ==> AllInterpretable(body.bids))
    && (body.Envelope? && |body.seatbid| > 0 && body.seatbid[0].bid.Some? ==> AllInterpretable(body.seatbid[0].bid.value))
  }

  /** `interpretOrtbResponse`: a body that is not an array yields no bids. */
  method InterpretOrtbResponse(body: ResponseBody) returns (bids: seq<PrebidBid>)
    requires body.BidArray? ==> AllInterpretable(body.bids)
    ensures bids == if body.BidArray? then InterpretBids(body.bids) else []
  {
    bids := [];
    if body.BidArray? {
      var serverBids := body.bids;
      var i := 0;
      while i < |serverBids|
        invariant 0 <= i <= |serverBids|
        invariant bids == InterpretBids(serverBids[..i])
      {
        var sb := serverBids[i];
        assert serverBids[..i + 1][..i] == serverBids[..i];
        assert sb in serverBids;
        if Priced(sb) {
          var interpreted: PrebidBid;
          if IsNativeAdm(sb.adm) {
            var native := InterpretNativeAd(sb.native.value);
            interpreted := PrebidBid(sb.impid, "native", sb.price.value, sb.adid, None, Num(1), Num(1), TTL,
                                     sb.adomain, true, CURRENCY, Some(native), None);
          } else {
            interpreted := PrebidBid(sb.impid, "banner", sb.price.value, sb.adid, Some(sb.adm), sb.w, sb.h, TTL,
                                     sb.adomain, true, CURRENCY, None, None);
          }
          if Truthy(sb.ext) {
            interpreted := interpreted.(ext := Some(sb.ext));
          }
          bids := bids + [interpreted];
        }
        i := i + 1;
      }
      assert serverBids[..|serverBids|] == serverBids;
    }
  }

  /** Interpreting a list piece by piece gives the same bids, in order. */
  lemma {:induction false} InterpretBidsAppend(xs: seq<ServerBid>, ys: seq<ServerBid>)
    requires AllInterpretable(xs) && AllInterpretable(ys)
    ensures AllInterpretable(xs + ys)
    ensures InterpretBids(xs + ys) == InterpretBids(xs) + InterpretBids(ys)
    decreases |ys|
  {
    if ys == [] {
      assert xs + ys == xs;
    } else {
      var init := ys[..|ys| - 1];
      assert (xs + ys)[..|xs + ys| - 1] == xs + init;
      assert (xs + ys)[|xs + ys| - 1] == ys[|ys| - 1];
      InterpretBidsAppend(xs, init);
    }
  }

  /** Every priced server bid yields a bid, and every bid comes from a
      priced server bid. */
  lemma {:induction false} InterpretBidsMembers(bids: seq<ServerBid>)
    requires AllInterpretable(bids)
    ensures forall sb :: sb in bids && Priced(sb) ==> InterpretBid(sb) in InterpretBids(bids)
    ensures forall b :: b in InterpretBids(bids) ==> exists sb :: sb in bids && Priced(sb) && b == InterpretBid(sb)
    decreases |bids|
  {
    if bids != [] {
      var init := bids[..|bids| - 1];
      var last := bids[|bids| - 1];
      assert forall sb :: sb in bids <==> sb in init || sb == last;
      InterpretBidsMembers(init);
    }
  }

  /** `perBuyerSignals`: `igdomain -> buyersignal`, assigned in order. */
  function SignalPairs(buyers: seq<IgBuyer>): seq<(string, JsValue)>
  {
    seq(|buyers|, i requires 0 <= i < |buyers| => (buyers[i].igdomain, buyers[i].buyersignal))
  }

  /** One more buyer assigns one more pair, after the earlier ones. */
  lemma SignalPairsSnoc(buyers: seq<IgBuyer>, j: nat)
    requires j < |buyers|
    ensures SignalPairs(buyers[..j + 1]) == SignalPairs(buyers[..j]) + [(buyers[j].igdomain, buyers[j].buyersignal)]
  {
  }

  function PerBuyerSignals(buyers: seq<IgBuyer>): Dict<JsValue> {
    FromPairs(SignalPairs(buyers))
  }

  /** One FLEDGE auction configuration; `auctionSignals` is always `{}`. */
  datatype AuctionConfig = AuctionConfig(
    auctionSignals: JsValue,
    seller: JsValue,
    decisionLogicUrl: JsValue,
    interestGroupBuyers: seq<string>,
    perBuyerSignals: Dict<JsValue>,
    sellerTimeout: Option<JsValue>)

  datatype FledgeAuctionConfig = FledgeAuctionConfig(bidId: string, config: AuctionConfig)

  /** What `interpretResponse` returns: the bids alone, or the bids with the
      auction configurations. */
  datatype InterpretedResponse =
    | PlainBids(bids: seq<PrebidBid>)
    | BidsWithFledge(bids: seq<PrebidBid>, fledgeAuctionConfigs: seq<FledgeAuctionConfig>)

  function ConfigFor(ext: ResponseExt, ig: IgBid): AuctionConfig {
    var signals := PerBuyerSignals(ig.igbuyer);
    AuctionConfig(Obj([]), ext.seller, ext.decisionLogicUrl, Keys(signals), signals, ext.sellerTimeout)
  }

  /** `configs[igbid.impid] = ...`, one assignment per interest-group bid. */
  function ConfigPairs(ext: ResponseExt, igbids: seq<IgBid>): seq<(string, AuctionConfig)>
  {
    seq(|igbids|, i requires 0 <= i < |igbids| => (igbids[i].impid, ConfigFor(ext, igbids[i])))
  }

  /** One more interest-group bid assigns one more pair, after the earlier
      ones. */
  lemma ConfigPairsSnoc(ext: ResponseExt, igbids: seq<IgBid>, i: nat)
    requires i < |igbids|
    ensures ConfigPairs(ext, igbids[..i + 1]) == ConfigPairs(ext, igbids[..i]) + [(igbids[i].impid, ConfigFor(ext, igbids[i]))]
  {
  }

  /** `Object.entries(configs).map(([bidId, cfg]) => ({bidId, config}))` */
  function Entries(d: Dict<AuctionConfig>): seq<FledgeAuctionConfig>
  {
    seq(|d|, i requires 0 <= i < |d| => FledgeAuctionConfig(d[i].0, d[i].1))
  }

  /** The FLEDGE branch is taken: a truthy `bidid` and an `ext.igbid` array. */
  predicate IsFledgeEnvelope(body: ResponseBody) {
    body.Envelope? && Truthy(body.bidid) && body.ext.Some? && body.ext.value.igbid.Some?
  }

  /** The bids of the first seat, as `interpretOrtbResponse` reads them. A
      missing seat or `bid` member is `undefined`, hence `NullBody`; a `bid`
      that is not an array is passed on as `NullBody` too, since the only
      thing `interpretOrtbResponse` asks of it is `isArray`, which both fail. */
  function FirstSeatBids(body: ResponseBody): ResponseBody
    requires body.Envelope?
  {
    if |body.seatbid| > 0 && body.seatbid[0].bid.Some? then BidArray(body.seatbid[0].bid.value) else NullBody
  }

  /** What `interpretResponse` must return. */
  function ExpectedResponse(body: ResponseBody): InterpretedResponse
    requires BodyInterpretable(body)
  {
    if IsFledgeEnvelope(body) then
      var bids := if FirstSeatBids(body).BidArray? then InterpretBids(FirstSeatBids(body).bids) else [];
      var ext := body.ext.value;
      if |ext.igbid.value| == 0 then PlainBids(bids)
      else BidsWithFledge(bids, Entries(FromPairs(ConfigPairs(ext, ext.igbid.value))))
    else
      PlainBids(if body.BidArray? then InterpretBids(body.bids) else [])
  }

  /** The inner `forEach` building `perBuyerSignals`. */
  method CollectBuyerSignals(buyers: seq<IgBuyer>) returns (signals: Dict<JsValue>)
    ensures signals == PerBuyerSignals(buyers)
  {
    signals := [];
    var j := 0;
    while j < |buyers|
      invariant 0 <= j <= |buyers|
      invariant signals == FromPairs(SignalPairs(buyers[..j]))
    {
      SignalPairsSnoc(buyers, j);
      FromPairsSnoc(SignalPairs(buyers[..j]), buyers[j].igdomain, buyers[j].buyersignal);
      signals := Put(signals, buyers[j].igdomain, buyers[j].buyersignal);
      j := j + 1;
    }
    assert buyers[..|buyers|] == buyers;
  }

  /** The outer `forEach` over `ext.igbid`: the configurations object is
      created on the first interest-group bid, so it stays null for an empty
      list. */
  method CollectConfigs(ext: ResponseExt, igbids: seq<IgBid>) returns (configs: Option<Dict<AuctionConfig>>)
    ensures configs.None? <==> |igbids| == 0
    ensures configs.Some? ==> configs.value == FromPairs(ConfigPairs(ext, igbids))
  {
    configs := None;
    var i := 0;
    while i < |igbids|
      invariant 0 <= i <= |igbids|
      invariant configs.None? <==> i == 0
      invariant configs.Some? ==> configs.value == FromPairs(ConfigPairs(ext, igbids[..i]))
    {
      var ig := igbids[i];
      var signals := CollectBuyerSignals(ig.igbuyer);
      var cfg := AuctionConfig(Obj([]), ext.seller, ext.decisionLogicUrl, Keys(signals), signals, ext.sellerTimeout);
      var current := if configs.Some? then configs.value else [];
      ConfigPairsSnoc(ext, igbids, i);
      FromPairsSnoc(ConfigPairs(ext, igbids[..i]), ig.impid, cfg);
      configs := Some(Put(current, ig.impid, cfg));
      i := i + 1;
    }
    assert igbids[..|igbids|] == igbids;
  }

  /** `interpretResponse` (modules/rtbhouseBidAdapter.js:215-265). */
  method InterpretResponse(body: ResponseBody) returns (r: InterpretedResponse)
    requires BodyInterpretable(body)
    ensures r == ExpectedResponse(body)
  {
    if IsFledgeEnvelope(body) {
      var bids := InterpretOrtbResponse(FirstSeatBids(body));
      var configs := CollectConfigs(body.ext.value, body.ext.value.igbid.value);
      if configs.Some? {
        r := BidsWithFledge(bids, Entries(configs.value));
      } else {
        r := PlainBids(bids);
      }
    } else {
      var bids := InterpretOrtbResponse(body);
      r := PlainBids(bids);
    }
  }

  /** Auction configurations come back exactly for a FLEDGE envelope with at
      least one interest-group bid; the bids are the same either way. */
  lemma FledgeIff(body: ResponseBody)
    requires BodyInterpretable(body)
    ensures ExpectedResponse(body).BidsWithFledge? <==>
      IsFledgeEnvelope(body) && |body.ext.value.igbid.value| > 0
    ensures !IsFledgeEnvelope(body) ==>
      ExpectedResponse(body).bids == if body.BidArray? then InterpretBids(body.bids) else []
  {
  }

  /** `perBuyerSignals` has one entry per distinct `igdomain`, holding the
      signal of the last buyer with that domain, and `interestGroupBuyers`
      lists exactly those domains, each once, in order of first appearance. */
  lemma PerBuyerSignalsSpec(buyers: seq<IgBuyer>)
    ensures DistinctKeys(PerBuyerSignals(buyers))
    ensures forall d :: d in Keys(PerBuyerSignals(buyers)) <==> exists i :: 0 <= i < |buyers| && buyers[i].igdomain == d
    ensures forall i :: (0 <= i < |buyers| && (forall j :: i < j < |buyers| ==> buyers[j].igdomain != buyers[i].igdomain)
                         ==> Get(PerBuyerSignals(buyers), buyers[i].igdomain) == Some(buyers[i].buyersignal))
  {
    var ps := SignalPairs(buyers);
    FromPairsSpec(ps);
    forall d ensures d in Keys(PerBuyerSignals(buyers)) <==> exists i :: 0 <= i < |buyers| && buyers[i].igdomain == d {
      FirstOccurrencesMembers(ps, d);
      if exists i :: 0 <= i < |ps| && ps[i].0 == d {
        var i :| 0 <= i < |ps| && ps[i].0 == d;
        assert buyers[i].igdomain == d;
      }
      if exists i :: 0 <= i < |buyers| && buyers[i].igdomain == d {
        var i :| 0 <= i < |buyers| && buyers[i].igdomain == d;
        assert ps[i].0 == d;
      }
    }
    forall i | 0 <= i < |buyers| && (forall j :: i < j < |buyers| ==> buyers[j].igdomain != buyers[i].igdomain)
      ensures Get(PerBuyerSignals(buyers), buyers[i].igdomain) == Some(buyers[i].buyersignal)
    {
      LastForAt(ps, i);
    }
  }

  /** The configurations have one entry per distinct impression id, each
      naming an impression some interest-group bid was for. */
  lemma FledgeConfigIds(ext: ResponseExt, igbids: seq<IgBid>)
    ensures var es := Entries(FromPairs(ConfigPairs(ext, igbids)));
      forall a, b :: 0 <= a < b < |es| ==> es[a].bidId != es[b].bidId
    ensures forall e :: (e in Entries(FromPairs(ConfigPairs(ext, igbids)))
                         ==> exists i :: 0 <= i < |igbids| && igbids[i].impid == e.bidId)
  {
    var ps := ConfigPairs(ext, igbids);
    var d := FromPairs(ps);
    FromPairsSpec(ps);
    forall e | e in Entries(d) ensures exists i :: 0 <= i < |igbids| && igbids[i].impid == e.bidId {
      var k :| 0 <= k < |d| && Entries(d)[k] == e;
      assert Keys(d)[k] == e.bidId;
      FirstOccurrencesMembers(ps, e.bidId);
      var i :| 0 <= i < |ps| && ps[i].0 == e.bidId;
      assert igbids[i].impid == e.bidId;
    }
  }

  /** Every impression with interest-group bids gets the configuration built
      from its LAST interest-group bid. */
  lemma FledgeConfigForLast(ext: ResponseExt, igbids: seq<IgBid>, i: nat)
    requires i < |igbids|
    requires forall j :: i < j < |igbids| ==> igbids[j].impid != igbids[i].impid
    ensures FledgeAuctionConfig(igbids[i].impid, ConfigFor(ext, igbids[i])) in Entries(FromPairs(ConfigPairs(ext, igbids)))
  {
    var ps := ConfigPairs(ext, igbids);
    var d := FromPairs(ps);
    var id := igbids[i].impid;
    FromPairsSpec(ps);
    LastForAt(ps, i);
    FirstOccurrencesMembers(ps, id);
    assert ps[i].0 == id;
    assert id in Keys(d);
    var k :| 0 <= k < |d| && Keys(d)[k] == id;
    GetAt(d, k);
    assert Entries(d)[k] == FledgeAuctionConfig(id, ConfigFor(ext, igbids[i]));
  }
}

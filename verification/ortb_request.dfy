/** `buildRequests`: the OpenRTB 2.5 bid request the adapter POSTs to the
    region's endpoint (modules/rtbhouseBidAdapter.js:46-118), with the Site
    and Source objects it holds (lines 360-393). */
module OrtbRequest {
  import opened Js
  import opened Schain
  import opened Consent
  import opened BidRequest
  import opened Impression

  const ENDPOINT_URL := "creativecdn.com/bidder/prebid/bids"
  const FLEDGE_ENDPOINT_URL := "creativecdn.com/bidder/prebidfledge/bids"
  const FLEDGE_SELLER_URL := "https://fledge-ssp.creativecdn.com"
  const FLEDGE_DECISION_LOGIC_URL := "https://fledge-ssp.creativecdn.com/component-seller-prebid.js"
  const DEFAULT_CURRENCY := "USD"
  const MAX_CHANNEL_LENGTH := 50

  /** `bidderRequest.gdprConsent`; a missing consent string is None. */
  datatype GdprConsent = GdprConsent(gdprApplies: JsValue, consentString: Option<string>)

  /** The parts of the host's bidder request the adapter reads. */
  datatype BidderRequest = BidderRequest(
    bidderRequestId: string,
    auctionId: JsValue,
    gdprConsent: Option<GdprConsent>,
    refererPage: JsValue,
    fledgeEnabled: bool)

  /** OpenRTB 2.5 Site object (section 3.2.13). */
  datatype Site = Site(publisherId: string, page: JsValue, name: string, channel: Option<string>)

  /** OpenRTB 2.5 Source object (section 3.2.2). */
  datatype Source = Source(tid: JsValue)

  /** The request body; each optional part is None when it is not set. */
  datatype Request = Request(
    id: string,
    imp: seq<Imp>,
    site: Site,
    cur: seq<string>,
    test: JsValue,
    source: Source,
    regsExtGdpr: Option<int>,
    userExtConsent: Option<string>,
    userExtEids: Option<JsValue>,
    extSchain: Option<SupplyChain>,
    extFledgeConfig: Option<JsValue>)

  /** What `buildRequests` returns; the body is sent as JSON. */
  datatype ServerRequest = ServerRequest(httpMethod: string, url: string, data: Request)

  function Truncate(s: string, n: nat): (r: string)
    ensures |r| <= n && |r| <= |s| && r == s[..|r|]
    ensures |s| <= n ==> r == s
  {
    if |s| <= n then s else s[..n]
  }

  /** `mapSite`: publisher id from the first bid request ('unknown' without
      one); `channel` is its `params.channel` as a string cut to 50
      characters, set only when that is not empty. */
  function MapSite(slots: seq<Slot>, br: BidderRequest, origin: string): (site: Site)
    requires |slots| > 0 ==> !slots[0].params.publisherId.Undefined? && !slots[0].params.publisherId.Null?
    ensures site.publisherId == if |slots| == 0 then "unknown" else ToString(slots[0].params.publisherId)
    ensures site.page == br.refererPage && site.name == origin
    ensures site.channel.Some? <==>
      |slots| > 0 && Truthy(slots[0].params.channel) && ToString(slots[0].params.channel) != ""
    ensures site.channel.Some? ==>
      var full := ToString(slots[0].params.channel);
      && 0 < |site.channel.value| <= MAX_CHANNEL_LENGTH
      && |site.channel.value| <= |full|
      && site.channel.value == full[..|site.channel.value|]
      && (|full| <= MAX_CHANNEL_LENGTH ==> site.channel.value == full)
  {
    var pubId := if |slots| > 0 then ToString(slots[0].params.publisherId) else "unknown";
    var channel := if |slots| > 0 && Truthy(slots[0].params.channel)
                   then Truncate(ToString(slots[0].params.channel), MAX_CHANNEL_LENGTH) else "";
    Site(pubId, br.refererPage, origin, if channel != "" then Some(channel) else None)
  }

  /** `mapSource`. It declares one parameter, so at its only call site,
      `mapSource(validBidRequests[0], bidderRequest)`, it reads the first
      bid request and the bidder request is ignored: `tid` is the first bid
      request's `auctionId`, or '' when that is falsy. */
  function MapSource(first: Slot): (source: Source)
    ensures Truthy(first.auctionId) ==> source.tid == first.auctionId
    ensures !Truthy(first.auctionId) ==> source.tid == Str("")
  {
    Source(Or(first.auctionId, Str("")))
  }

  /** `user.ext.consent`: the rewritten consent string, '' when there is none. */
  function ConsentFor(gc: GdprConsent): (consent: string)
    ensures gc.consentString.None? ==> consent == ""
    ensures gc.consentString.Some? ==> consent == RewriteConsent(gc.consentString.value)
  {
    if gc.consentString.Some? && gc.consentString.value != "" then RewriteConsent(gc.consentString.value) else ""
  }

  /** The consent string sent is the one the CMP gave, in the URL-safe
      alphabet of RFC 4648 section 5: restoring the alphabet and the dropped
      padding gives it back. */
  lemma ConsentRoundTrip(gc: GdprConsent)
    requires gc.consentString.Some? && StandardAlphabet(gc.consentString.value)
    ensures FromUrlSafe(ConsentFor(gc)) + Padding(|gc.consentString.value| - |ConsentFor(gc)|) == gc.consentString.value
  {
    RewriteRoundTrip(gc.consentString.value);
  }

  /** `regs.ext.gdpr` and `user.ext.consent`, set only when GDPR applies. */
  function GdprPart(consent: Option<GdprConsent>): (part: (Option<int>, Option<string>))
    ensures part.0.Some? <==> consent.Some? && Truthy(consent.value.gdprApplies)
    ensures part.0.Some? ==> part.0 == Some(1)
    ensures part.1.Some? <==> part.0.Some?
    ensures part.1.Some? ==> part.1.value == ConsentFor(consent.value)
  {
    if consent.Some? && Truthy(consent.value.gdprApplies) then
      (Some(if Truthy(consent.value.gdprApplies) then 1 else 0), Some(ConsentFor(consent.value)))
    else (None, None)
  }

  /** `validBidRequests.map(slot => mapImpression(slot, bidderRequest))` */
  method MapImpressions(slots: seq<Slot>, fledgeEnabled: bool) returns (imps: seq<Imp>)
    requires forall i {:trigger slots[i]} :: 0 <= i < |slots| ==> MappableSlot(slots[i])
    ensures |imps| == |slots|
    ensures forall i :: 0 <= i < |slots| ==> IsImpressionOf(imps[i], slots[i], fledgeEnabled)
  {
    imps := [];
    var i := 0;
    while i < |slots|
      invariant 0 <= i <= |slots|
      invariant |imps| == i
      invariant forall k :: 0 <= k < i ==> IsImpressionOf(imps[k], slots[k], fledgeEnabled)
    {
      var imp := MapImpression(slots[i], fledgeEnabled);
      imps := imps + [imp];
      i := i + 1;
    }
  }

  /** The URL the request is POSTed to. */
  function EndpointUrl(region: string, fledgeEnabled: bool): string {
    "https://" + region + "." + (if fledgeEnabled then FLEDGE_ENDPOINT_URL else ENDPOINT_URL)
  }

  /** Reads the region back from an endpoint URL. */
  function RegionOfUrl(url: string, fledgeEnabled: bool): string
    requires |url| >= 9 + |if fledgeEnabled then FLEDGE_ENDPOINT_URL else ENDPOINT_URL|
  {
    url[8..|url| - 1 - |if fledgeEnabled then FLEDGE_ENDPOINT_URL else ENDPOINT_URL|]
  }

  /** The endpoint URL names the region it was built from, and the FLEDGE
      and plain endpoints never coincide. */
  lemma EndpointUrlRoundTrip(region: string, fledgeEnabled: bool)
    ensures |EndpointUrl(region, fledgeEnabled)| >= 9 + |if fledgeEnabled then FLEDGE_ENDPOINT_URL else ENDPOINT_URL|
    ensures RegionOfUrl(EndpointUrl(region, fledgeEnabled), fledgeEnabled) == region
    ensures EndpointUrl(region, true) != EndpointUrl(region, false)
  {
    var url := EndpointUrl(region, fledgeEnabled);
    assert url == "https://" + region + "." + (if fledgeEnabled then FLEDGE_ENDPOINT_URL else ENDPOINT_URL);
    assert url[8..8 + |region|] == region;
    assert |EndpointUrl(region, true)| != |EndpointUrl(region, false)|;
  }

  /** The default `ext.fledge_config` when the host config has none. */
  const DEFAULT_FLEDGE_CONFIG: JsValue :=
    Obj([("seller", Str(FLEDGE_SELLER_URL)),
         ("decisionLogicUrl", Str(FLEDGE_DECISION_LOGIC_URL)),
         ("sellerTimeout", Num(500))])

  /** `buildRequests` (modules/rtbhouseBidAdapter.js:46-118). `origin` is what
      `getOrigin()` returns and `fledgeConfig` what
      `config.getConfig('fledgeConfig')` returns. */
  method BuildRequests(slots: seq<Slot>, br: BidderRequest, origin: string, fledgeConfig: JsValue)
    returns (sr: ServerRequest)
    requires |slots| > 0
    requires forall i {:trigger slots[i]} :: 0 <= i < |slots| ==> IsBidRequestValid(slots[i]) && MappableSlot(slots[i])
    ensures sr.httpMethod == "POST"
    ensures sr.url == EndpointUrl(ToString(slots[0].params.region), br.fledgeEnabled)
    ensures sr.data.id == br.bidderRequestId
    ensures |sr.data.imp| == |slots|
    ensures forall i :: 0 <= i < |slots| ==> IsImpressionOf(sr.data.imp[i], slots[i], br.fledgeEnabled)
    ensures IsBidRequestValid(slots[0])
    ensures sr.data.site == MapSite(slots, br, origin)
    ensures sr.data.cur == [DEFAULT_CURRENCY]
    ensures sr.data.test == Or(slots[0].params.test, Num(0))
    ensures sr.data.source == MapSource(slots[0])
    // GDPR: only when it applies, and then `regs.ext.gdpr` is 1
    ensures (sr.data.regsExtGdpr, sr.data.userExtConsent) == GdprPart(br.gdprConsent)
    // supply chain: only a valid one is passed on
    ensures sr.data.extSchain == MapSchain(slots[0].schain)
    ensures sr.data.userExtEids == if Truthy(slots[0].userIdAsEids) then Some(slots[0].userIdAsEids) else None
    // FLEDGE: the configured object, or the default seller with a 500 ms timeout
    ensures sr.data.extFledgeConfig.Some? <==> br.fledgeEnabled
    ensures br.fledgeEnabled ==>
      sr.data.extFledgeConfig.value == if Truthy(fledgeConfig) then fledgeConfig else DEFAULT_FLEDGE_CONFIG
  {
    var imps := MapImpressions(slots, br.fledgeEnabled);
    var gdpr := GdprPart(br.gdprConsent);
    var request := Request(
      br.bidderRequestId, imps, MapSite(slots, br, origin), [DEFAULT_CURRENCY],
      Or(slots[0].params.test, Num(0)), MapSource(slots[0]),
      gdpr.0, gdpr.1, None, None, None);
    if slots[0].schain.Some? {
      var schain := MapSchain(slots[0].schain);
      if schain.Some? {
        request := request.(extSchain := schain);
      }
    }
    if Truthy(slots[0].userIdAsEids) {
      request := request.(userExtEids := Some(slots[0].userIdAsEids));
    }

    var computedEndpointUrl := ENDPOINT_URL;
    if br.fledgeEnabled {
      var config := if Truthy(fledgeConfig) then fledgeConfig else DEFAULT_FLEDGE_CONFIG;
      request := request.(extFledgeConfig := Some(config));
      computedEndpointUrl := FLEDGE_ENDPOINT_URL;
    }
    sr := ServerRequest("POST", "https://" + ToString(slots[0].params.region) + "." + computedEndpointUrl, request);
  }
}

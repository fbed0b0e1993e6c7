/** The RTB House analytics adapter's events: which host events become
    batch elements and with what payload (`track`, `onError`, `onAdRender`),
    and how consent data is removed from an element before it is sent
    (`processSingleBatchElement`), modules/rtbhouseAnalyticsAdapter.js. */
module AnalyticsEvents {
  import opened Js

  const BIDDER_CODE := "rtbhouse"

  /** The host's event names, as far as `track` tells them apart.
      `OtherEvent` stands only for names other than the four before it,
      whose string values the host defines; a routed event is never
      written as an `OtherEvent`. */
  datatype EventType =
    | PaapiError
    | BidderError
    | AdRenderFailed
    | AdRenderSucceeded
    | OtherEvent(name: string)

  /** A `user.ext` object: its `consent` member (None when absent) and all
      other members. */
  datatype UserExt = UserExt(consent: Option<JsValue>, rest: JsValue)

  /** A bid inside event arguments; `ortb2UserExt` is its `ortb2.user.ext`,
      None when that is missing or falsy. */
  datatype BidInfo = BidInfo(ortb2UserExt: Option<UserExt>, rest: JsValue)

  /** A bidder request inside event arguments; `bids` is None when falsy. */
  datatype BidderRequestInfo = BidderRequestInfo(
    bidderCode: JsValue,
    gdprConsent: Option<JsValue>,
    bids: Option<seq<BidInfo>>,
    rest: JsValue)

  /** An event's `args` object, with the members the adapter reads or
      deletes (None when absent or falsy) and everything else in `rest`.
      `bidBidderCode` is `args.bid.bidderCode`. */
  datatype EventArgs = EventArgs(
    gdprConsent: Option<JsValue>,
    ortb2UserExt: Option<UserExt>,
    bids: Option<seq<BidInfo>>,
    bidderRequests: Option<seq<BidderRequestInfo>>,
    bidderRequest: JsValue,
    error: JsValue,
    reason: JsValue,
    message: JsValue,
    bidBidderCode: JsValue,
    rest: JsValue)

  /** `bidderRequests` of an error report: the bidder's own requests, or the
      single `bidderRequest` of the event. */
  datatype ErrorRequests = OwnRequests(requests: seq<BidderRequestInfo>) | SingleRequest(request: JsValue)

  /** One element of the batch. `Tracked` is `{eventType, args, id,
      elapsedTime}` (args None when falsy); `ErrorReport` and `RenderReport`
      are what `onError` and `onAdRender` build. */
  datatype Element =
    | Tracked(eventType: EventType, args: Option<EventArgs>, id: JsValue, elapsedTime: JsValue)
    | ErrorReport(eventType: EventType, elapsedTime: JsValue, error: JsValue, bidderRequests: Option<ErrorRequests>)
    | RenderReport(eventType: EventType, renderData: EventArgs, elapsedTime: JsValue)

  predicate IsErrorEvent(t: EventType) {
    t.PaapiError? || t.BidderError? || t.AdRenderFailed?
  }

  /** `requests.filter(request => request.bidderCode === 'rtbhouse')` */
  function OwnBidderRequests(requests: seq<BidderRequestInfo>): (r: seq<BidderRequestInfo>)
    ensures |r| <= |requests|
    ensures forall rq :: rq in r ==> rq in requests && rq.bidderCode == Str(BIDDER_CODE)
    ensures forall rq :: rq in requests && rq.bidderCode == Str(BIDDER_CODE) ==> rq in r
  {
    if requests == [] then []
    else
      var rest := OwnBidderRequests(requests[1..]);
      if requests[0].bidderCode == Str(BIDDER_CODE) then [requests[0]] + rest else rest
  }

  /** `filter` keeps order and multiplicity: filtering a concatenation
      is concatenating the filtered parts, and a single request is kept
      exactly when it is this bidder's. */
  lemma {:induction false} OwnBidderRequestsAppend(a: seq<BidderRequestInfo>, b: seq<BidderRequestInfo>)
    ensures OwnBidderRequests(a + b) == OwnBidderRequests(a) + OwnBidderRequests(b)
    decreases |a|
  {
    if a != [] {
      assert (a + b)[1..] == a[1..] + b;
      OwnBidderRequestsAppend(a[1..], b);
    } else {
      assert a + b == b;
    }
  }

  lemma OwnBidderRequestsSingle(rq: BidderRequestInfo)
    ensures OwnBidderRequests([rq]) == if rq.bidderCode == Str(BIDDER_CODE) then [rq] else []
  {
  }

  /** `onError`: an ad-render failure reports `reason` and `message` on two
      lines; any other error reports `error` and the bidder's own requests,
      or the event's single request when it lists none. */
  function ErrorPayload(eventType: EventType, data: EventArgs, elapsedTime: JsValue): (e: Element)
    ensures e.ErrorReport? && e.eventType == eventType && e.elapsedTime == elapsedTime
    ensures eventType.AdRenderFailed? ==>
      e.error == Str(ToString(data.reason) + "\n" + ToString(data.message)) && e.bidderRequests.None?
    ensures !eventType.AdRenderFailed? ==> e.error == data.error && e.bidderRequests.Some?
    ensures !eventType.AdRenderFailed? && data.bidderRequests.Some? && |data.bidderRequests.value| > 0 ==>
      e.bidderRequests == Some(OwnRequests(OwnBidderRequests(data.bidderRequests.value)))
    ensures !eventType.AdRenderFailed? && (data.bidderRequests.None? || |data.bidderRequests.value| == 0) ==>
      e.bidderRequests == Some(SingleRequest(data.bidderRequest))
  {
    if eventType.AdRenderFailed? then
      ErrorReport(eventType, elapsedTime, Str(ToString(data.reason) + "\n" + ToString(data.message)), None)
    else
      var requests :=
        if data.bidderRequests.Some? && |data.bidderRequests.value| > 0
        then OwnRequests(OwnBidderRequests(data.bidderRequests.value))
        else SingleRequest(data.bidderRequest);
      ErrorReport(eventType, elapsedTime, data.error, Some(requests))
  }

  /** `track`: what an event adds to the batch, if anything. Error events
      go through `onError`, a render success through `onAdRender` (only for
      this bidder's bids), and every other event as it is. */
  function RouteOf(eventType: EventType, args: Option<EventArgs>, id: JsValue, elapsedTime: JsValue): (e: Option<Element>)
    requires IsErrorEvent(eventType) ==> args.Some?
    ensures IsErrorEvent(eventType) ==> e == Some(ErrorPayload(eventType, args.value, elapsedTime))
    ensures eventType.AdRenderSucceeded? ==>
      (e.Some? <==> args.Some? && args.value.bidBidderCode == Str(BIDDER_CODE))
    ensures eventType.AdRenderSucceeded? && e.Some? ==> e.value == RenderReport(eventType, args.value, elapsedTime)
    ensures eventType.OtherEvent? ==> e == Some(Tracked(eventType, args, id, elapsedTime))
  {
    match eventType
    case PaapiError => Some(ErrorPayload(eventType, args.value, elapsedTime))
    case BidderError => Some(ErrorPayload(eventType, args.value, elapsedTime))
    case AdRenderFailed => Some(ErrorPayload(eventType, args.value, elapsedTime))
    case AdRenderSucceeded =>
      if args.Some? && args.value.bidBidderCode == Str(BIDDER_CODE)
      then Some(RenderReport(eventType, args.value, elapsedTime)) else None
    case OtherEvent(_) => Some(Tracked(eventType, args, id, elapsedTime))
  }

  // ---------------------------------------------------------------------
  // Consent redaction

  function RedactUserExt(u: Option<UserExt>): Option<UserExt> {
    if u.Some? then Some(u.value.(consent := None)) else None
  }

  function RedactBid(b: BidInfo): BidInfo {
    b.(ortb2UserExt := RedactUserExt(b.ortb2UserExt))
  }

  /** `bids.forEach(removeConsentFromBid)`: every bid ends up without
      consent, a bid that had none is left as it was, and nothing but the
      consent changes. */
  function RedactBids(bids: seq<BidInfo>): (r: seq<BidInfo>)
    ensures |r| == |bids|
    ensures forall i :: 0 <= i < |r| ==> BidConsentFree(r[i])
    ensures forall i :: 0 <= i < |r| && BidConsentFree(bids[i]) ==> r[i] == bids[i]
    ensures forall i :: 0 <= i < |r| ==> BidSameButConsent(bids[i], r[i])
  {
    seq(|bids|, i requires 0 <= i < |bids| => RedactBid(bids[i]))
  }

  /** One request of that `forEach`: its `gdprConsent` and the consent in
      its bids are removed, and nothing else changes. */
  function RedactRequest(rq: BidderRequestInfo): (r: BidderRequestInfo)
    ensures RequestConsentFree(r)
    ensures RequestSameButConsent(rq, r)
    ensures RequestConsentFree(rq) ==> r == rq
  {
    if rq.bids.Some? then
      var bids := RedactBids(rq.bids.value);
      assert RequestConsentFree(rq) ==> bids == rq.bids.value;
      rq.(gdprConsent := None, bids := Some(bids))
    else rq.(gdprConsent := None)
  }

  /** The `forEach` over `bidderRequests`: every request ends up without
      `gdprConsent` and without consent in its bids, a request that had
      none is left as it was, and everything else in each request, its
      bids included, is kept. */
  function RedactRequests(rqs: seq<BidderRequestInfo>): (r: seq<BidderRequestInfo>)
    ensures |r| == |rqs|
    ensures forall i :: 0 <= i < |r| ==> RequestConsentFree(r[i])
    ensures forall i :: 0 <= i < |r| && RequestConsentFree(rqs[i]) ==> r[i] == rqs[i]
    ensures forall i :: 0 <= i < |r| ==> RequestSameButConsent(rqs[i], r[i])
  {
    seq(|rqs|, i requires 0 <= i < |rqs| => RedactRequest(rqs[i]))
  }

  function RedactArgs(a: EventArgs): EventArgs {
    a.(gdprConsent := None,
       ortb2UserExt := RedactUserExt(a.ortb2UserExt),
       bids := if a.bids.Some? then Some(RedactBids(a.bids.value)) else None,
       bidderRequests := if a.bidderRequests.Some? then Some(RedactRequests(a.bidderRequests.value)) else None)
  }

  /** An element after `processSingleBatchElement`: no consent is left in
      it, an element without arguments (every error and render report) is
      left as it was, a tracked event stays the same event, and nothing but
      consent is removed from its arguments. */
  function Redacted(e: Element): (r: Element)
    ensures ConsentFree(r)
    ensures SameButConsent(e, r)
    ensures !e.Tracked? || e.args.None? ==> r == e
    ensures e.Tracked? ==>
      (r.Tracked? && r.eventType == e.eventType && r.id == e.id
       && r.elapsedTime == e.elapsedTime && (r.args.Some? <==> e.args.Some?))
  {
    if e.Tracked? && e.args.Some? then e.(args := Some(RedactArgs(e.args.value))) else e
  }

  // What "no consent left" means, level by level.

  predicate UserExtConsentFree(u: Option<UserExt>) {
    u.Some? ==> u.value.consent.None?
  }

  predicate BidConsentFree(b: BidInfo) {
    UserExtConsentFree(b.ortb2UserExt)
  }

  predicate BidsConsentFree(bids: Option<seq<BidInfo>>) {
    bids.Some? ==> forall i :: 0 <= i < |bids.value| ==> BidConsentFree(bids.value[i])
  }

  predicate RequestConsentFree(rq: BidderRequestInfo) {
    rq.gdprConsent.None? && BidsConsentFree(rq.bids)
  }

  predicate ArgsConsentFree(a: EventArgs) {
    && a.gdprConsent.None?
    && UserExtConsentFree(a.ortb2UserExt)
    && BidsConsentFree(a.bids)
    && (a.bidderRequests.Some? ==>
          forall i :: 0 <= i < |a.bidderRequests.value| ==> RequestConsentFree(a.bidderRequests.value[i]))
  }

  /** The five places redaction empties, for a tracked event's arguments. */
  predicate ConsentFree(e: Element) {
    e.Tracked? && e.args.Some? ==> ArgsConsentFree(e.args.value)
  }

  // What "nothing but consent changed" means, level by level: the second
  // value agrees with the first everywhere except in the five consent
  // places.

  predicate UserExtSameButConsent(u: Option<UserExt>, v: Option<UserExt>) {
    && (u.Some? <==> v.Some?)
    && (u.Some? && v.Some? ==> u.value.rest == v.value.rest)
  }

  predicate BidSameButConsent(b: BidInfo, c: BidInfo) {
    b.rest == c.rest && UserExtSameButConsent(b.ortb2UserExt, c.ortb2UserExt)
  }

  predicate BidsSameButConsent(xs: Option<seq<BidInfo>>, ys: Option<seq<BidInfo>>) {
    && (xs.Some? <==> ys.Some?)
    && (xs.Some? && ys.Some? ==>
          && |xs.value| == |ys.value|
          && forall i :: 0 <= i < |xs.value| ==> BidSameButConsent(xs.value[i], ys.value[i]))
  }

  predicate RequestSameButConsent(p: BidderRequestInfo, q: BidderRequestInfo) {
    p.bidderCode == q.bidderCode && p.rest == q.rest && BidsSameButConsent(p.bids, q.bids)
  }

  predicate ArgsSameButConsent(a: EventArgs, b: EventArgs) {
    && UserExtSameButConsent(a.ortb2UserExt, b.ortb2UserExt)
    && BidsSameButConsent(a.bids, b.bids)
    && (a.bidderRequests.Some? <==> b.bidderRequests.Some?)
    && (a.bidderRequests.Some? && b.bidderRequests.Some? ==>
          && |a.bidderRequests.value| == |b.bidderRequests.value|
          && forall i :: 0 <= i < |a.bidderRequests.value| ==>
               RequestSameButConsent(a.bidderRequests.value[i], b.bidderRequests.value[i]))
    && a.bidderRequest == b.bidderRequest && a.error == b.error
    && a.reason == b.reason && a.message == b.message
    && a.bidBidderCode == b.bidBidderCode && a.rest == b.rest
  }

  /** `r` is `e` with at most its consent removed. */
  predicate SameButConsent(e: Element, r: Element) {
    if e.Tracked? && e.args.Some? then
      && r.Tracked? && r.eventType == e.eventType && r.id == e.id && r.elapsedTime == e.elapsedTime
      && r.args.Some? && ArgsSameButConsent(e.args.value, r.args.value)
    else r == e
  }

  /** Redaction is the only way to remove the consent and nothing else:
      a consent-free element that differs from `e` only in consent is
      `Redacted(e)`. */
  lemma {:induction false} RedactedUnique(e: Element, r: Element)
    requires ConsentFree(r) && SameButConsent(e, r)
    ensures r == Redacted(e)
  {
    if e.Tracked? && e.args.Some? {
      var a, b := e.args.value, r.args.value;
      if a.bids.Some? {
        BidsUnique(a.bids.value, b.bids.value);
      }
      if a.bidderRequests.Some? {
        var ps, qs := a.bidderRequests.value, b.bidderRequests.value;
        forall i | 0 <= i < |ps| ensures qs[i] == RedactRequest(ps[i]) {
          if ps[i].bids.Some? {
            BidsUnique(ps[i].bids.value, qs[i].bids.value);
          }
        }
        assert qs == RedactRequests(ps);
      }
      assert b == RedactArgs(a);
    }
  }

  lemma BidsUnique(xs: seq<BidInfo>, ys: seq<BidInfo>)
    requires BidsConsentFree(Some(ys)) && BidsSameButConsent(Some(xs), Some(ys))
    ensures ys == RedactBids(xs)
  {
    forall i | 0 <= i < |xs| ensures ys[i] == RedactBid(xs[i]) {
      assert BidConsentFree(ys[i]) && BidSameButConsent(xs[i], ys[i]);
    }
  }

  /** Redaction removes nothing else: on an element with no consent in
      those places it changes nothing, so redacting twice is redacting
      once. */
  lemma {:induction false} RedactedFixesConsentFree(e: Element)
    requires ConsentFree(e)
    ensures Redacted(e) == e
  {
    if e.Tracked? && e.args.Some? {
      var a := e.args.value;
      if a.bids.Some? {
        assert RedactBids(a.bids.value) == a.bids.value;
      }
      if a.bidderRequests.Some? {
        var rqs := a.bidderRequests.value;
        forall i | 0 <= i < |rqs| ensures RedactRequest(rqs[i]) == rqs[i] {
          if rqs[i].bids.Some? {
            assert RedactBids(rqs[i].bids.value) == rqs[i].bids.value;
          }
        }
        assert RedactRequests(rqs) == rqs;
      }
      assert RedactArgs(a) == a;
    }
  }

  lemma RedactIdempotent(e: Element)
    ensures Redacted(Redacted(e)) == Redacted(e)
  {
    RedactedFixesConsentFree(Redacted(e));
  }

  // The in-place deletions, one `forEach` at a time.

  /** `bids.forEach(removeConsentFromBid)` */
  method RemoveConsentFromBids(bids: seq<BidInfo>) returns (r: seq<BidInfo>)
    ensures r == RedactBids(bids)
  {
    r := bids;
    var i := 0;
    while i < |bids|
      invariant 0 <= i <= |bids|
      invariant |r| == |bids|
      invariant forall k :: 0 <= k < i ==> r[k] == RedactBid(bids[k])
      invariant forall k :: i <= k < |bids| ==> r[k] == bids[k]
    {
      if r[i].ortb2UserExt.Some? {
        r := r[i := r[i].(ortb2UserExt := Some(r[i].ortb2UserExt.value.(consent := None)))];
      }
      i := i + 1;
    }
  }

  /** `argsBidderRequests.forEach(rq => ...)` */
  method RemoveConsentFromRequests(rqs: seq<BidderRequestInfo>) returns (r: seq<BidderRequestInfo>)
    ensures r == RedactRequests(rqs)
  {
    r := rqs;
    var i := 0;
    while i < |rqs|
      invariant 0 <= i <= |rqs|
      invariant |r| == |rqs|
      invariant forall k :: 0 <= k < i ==> r[k] == RedactRequest(rqs[k])
      invariant forall k :: i <= k < |rqs| ==> r[k] == rqs[k]
    {
      var rq := r[i].(gdprConsent := None);
      if rq.bids.Some? {
        var bids := RemoveConsentFromBids(rq.bids.value);
        rq := rq.(bids := Some(bids));
      }
      r := r[i := rq];
      i := i + 1;
    }
  }

  /** `processSingleBatchElement` (modules/rtbhouseAnalyticsAdapter.js:120-139). */
  method ProcessSingleBatchElement(e: Element) returns (r: Element)
    ensures r == Redacted(e)
  {
    r := e;
    if e.Tracked? && e.args.Some? {
      var args := e.args.value.(gdprConsent := None);
      if args.ortb2UserExt.Some? {
        args := args.(ortb2UserExt := Some(args.ortb2UserExt.value.(consent := None)));
      }
      if args.bids.Some? {
        var bids := RemoveConsentFromBids(args.bids.value);
        args := args.(bids := Some(bids));
      }
      if args.bidderRequests.Some? {
        var rqs := RemoveConsentFromRequests(args.bidderRequests.value);
        args := args.(bidderRequests := Some(rqs));
      }
      r := e.(args := Some(args));
    }
  }
}

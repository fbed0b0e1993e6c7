/** The RTB House analytics adapter's batching: elements wait in `batch`
    until `batchSize` of them are there or `batchDelay` passes without a
    new one, and are then sent, with consent data removed, by beacon or by
    a POST request (modules/rtbhouseAnalyticsAdapter.js:32-179).

    Timers and the network are not modelled as such: a pending timer is a
    flag (with the delay it was armed with), a send is a recorded
    `Transmission`, and whether the browser accepted a beacon is a
    parameter. */
module Analytics {
  import opened Js
  import opened AnalyticsEvents

  const TRACKER_URL := "https://tracker.creativecdn.com/prebid-analytics"
  const DEFAULT_BATCH_DELAY := 100
  const DEFAULT_BATCH_SIZE := 5

  /** `config.options`; a None member is undefined, so its default applies. */
  datatype AnalyticsOptions = AnalyticsOptions(
    url: Option<string>,
    useBeacon: JsValue,
    customHeaders: JsValue,
    batchSize: Option<int>,
    batchDelay: Option<int>)

  /** `{}`: every option at its default. */
  const NO_OPTIONS := AnalyticsOptions(None, Undefined, Undefined, None, None)

  function BatchSize(o: AnalyticsOptions): int {
    o.batchSize.GetOr(DEFAULT_BATCH_SIZE)
  }

  function BatchDelay(o: AnalyticsOptions): int {
    o.batchDelay.GetOr(DEFAULT_BATCH_DELAY)
  }

  function Url(o: AnalyticsOptions): string {
    o.url.GetOr(TRACKER_URL)
  }

  /** How a payload left: by `sendBeacon`, or by `ajax` with the configured
      custom headers. */
  datatype Transport = Beacon | Ajax(customHeaders: JsValue)

  datatype Transmission = Transmission(url: string, payload: seq<Element>, transport: Transport)

  /** The adapter's state: the waiting batch, the pending timer and every
      payload sent so far. */
  datatype State = State(batch: seq<Element>, timerPending: bool, timerDelay: int, sent: seq<Transmission>)

  /** The payload `_sendDataToServer` serialises: one element per batched
      element, in order, none carrying consent, and the error and render
      reports exactly as they were batched. */
  function RedactAll(data: seq<Element>): (r: seq<Element>)
    ensures |r| == |data|
    ensures forall i :: 0 <= i < |r| ==> ConsentFree(r[i])
    ensures forall i :: 0 <= i < |r| && (!data[i].Tracked? || data[i].args.None?) ==> r[i] == data[i]
    ensures forall i :: 0 <= i < |r| && data[i].Tracked? ==>
      r[i].Tracked? && r[i].eventType == data[i].eventType && r[i].id == data[i].id
    ensures forall i :: 0 <= i < |r| ==> SameButConsent(data[i], r[i])
  {
    seq(|data|, i requires 0 <= i < |data| => Redacted(data[i]))
  }

  /** `useBeacon && sendBeacon(...)`, else `ajax(...)`. */
  function TransportFor(o: AnalyticsOptions, beaconAccepted: bool): (t: Transport)
    ensures t.Ajax? <==> !(Truthy(o.useBeacon) && beaconAccepted)
    ensures t.Ajax? ==> t.customHeaders == o.customHeaders
  {
    if Truthy(o.useBeacon) && beaconAccepted then Beacon else Ajax(o.customHeaders)
  }

  /** The record `_sendDataToServer(data)` leaves. */
  function TransmissionOf(o: AnalyticsOptions, data: seq<Element>, beaconAccepted: bool): Transmission {
    Transmission(Url(o), RedactAll(data), TransportFor(o, beaconAccepted))
  }

  /** `processBatch`: the whole batch is sent and the batch emptied. */
  function Flush(s: State, o: AnalyticsOptions, beaconAccepted: bool): (t: State)
    ensures t.batch == [] && t.timerPending == s.timerPending && t.timerDelay == s.timerDelay
    ensures t.sent == s.sent + [TransmissionOf(o, s.batch, beaconAccepted)]
  {
    s.(batch := [], sent := s.sent + [TransmissionOf(o, s.batch, beaconAccepted)])
  }

  /** `sendDataToServer(data)`: null or undefined is ignored; otherwise the
      element is appended, the pending timer cancelled, and the batch sent
      at once when it has reached `batchSize`, else the timer re-armed. */
  function Enqueue(s: State, o: AnalyticsOptions, data: Option<Element>, beaconAccepted: bool): (t: State)
    ensures data.None? ==> t == s
    ensures data.Some? && |s.batch| + 1 >= BatchSize(o) ==>
      && t.batch == [] && !t.timerPending && t.timerDelay == s.timerDelay
      && t.sent == s.sent + [TransmissionOf(o, s.batch + [data.value], beaconAccepted)]
    ensures data.Some? && |s.batch| + 1 < BatchSize(o) ==>
      t == State(s.batch + [data.value], true, BatchDelay(o), s.sent)
  {
    if data.None? then s
    else
      var pushed := s.(batch := s.batch + [data.value], timerPending := false);
      if |pushed.batch| >= BatchSize(o) then Flush(pushed, o, beaconAccepted)
      else pushed.(timerPending := true, timerDelay := BatchDelay(o))
  }

  /** The pending timer fires: `processBatch`. */
  function Fire(s: State, o: AnalyticsOptions, beaconAccepted: bool): (t: State)
    requires s.timerPending
    ensures t == Flush(s.(timerPending := false), o, beaconAccepted)
  {
    Flush(s.(timerPending := false), o, beaconAccepted)
  }

  /** A timer is pending exactly while elements wait, and fewer than
      `batchSize` of them wait. */
  predicate Inv(s: State, o: AnalyticsOptions) {
    && (s.timerPending <==> |s.batch| > 0)
    && (|s.batch| > 0 ==> |s.batch| < BatchSize(o))
  }

  /** Accepting an element establishes the invariant, whatever the state
      before; ignoring null keeps it; a timer firing keeps it. */
  lemma EnqueueKeepsInv(s: State, o: AnalyticsOptions, data: Option<Element>, beaconAccepted: bool)
    requires data.None? ==> Inv(s, o)
    ensures Inv(Enqueue(s, o, data, beaconAccepted), o)
  {
  }

  lemma FireKeepsInv(s: State, o: AnalyticsOptions, beaconAccepted: bool)
    requires s.timerPending && Inv(s, o)
    ensures Inv(Fire(s, o, beaconAccepted), o)
    ensures Fire(s, o, beaconAccepted).batch == [] && !Fire(s, o, beaconAccepted).timerPending
  {
  }

  /** Everything sent so far, in order of sending. */
  function Payloads(sent: seq<Transmission>): seq<Element>
    decreases |sent|
  {
    if sent == [] then [] else Payloads(sent[..|sent| - 1]) + sent[|sent| - 1].payload
  }

  /** What has been sent followed by what waits, as it will be sent. */
  function Delivered(s: State): seq<Element> {
    Payloads(s.sent) + RedactAll(s.batch)
  }

  lemma RedactAllAppend(xs: seq<Element>, ys: seq<Element>)
    ensures RedactAll(xs + ys) == RedactAll(xs) + RedactAll(ys)
  {
    assert forall i :: 0 <= i < |xs + ys| ==> RedactAll(xs + ys)[i] == (RedactAll(xs) + RedactAll(ys))[i];
  }

  lemma PayloadsAppendOne(sent: seq<Transmission>, t: Transmission)
    ensures Payloads(sent + [t]) == Payloads(sent) + t.payload
  {
    assert (sent + [t])[..|sent + [t]| - 1] == sent;
  }

  /** No element is lost, duplicated or reordered: accepting an element
      adds exactly that element, redacted, at the end of what is delivered,
      and a flush only moves elements from waiting to sent. */
  lemma EnqueueDelivers(s: State, o: AnalyticsOptions, e: Element, beaconAccepted: bool)
    ensures Delivered(Enqueue(s, o, Some(e), beaconAccepted)) == Delivered(s) + [Redacted(e)]
  {
    var t := Enqueue(s, o, Some(e), beaconAccepted);
    RedactAllAppend(s.batch, [e]);
    if |s.batch| + 1 >= BatchSize(o) {
      PayloadsAppendOne(s.sent, TransmissionOf(o, s.batch + [e], beaconAccepted));
      assert RedactAll(t.batch) == [];
    }
  }

  lemma FireDelivers(s: State, o: AnalyticsOptions, beaconAccepted: bool)
    requires s.timerPending
    ensures Delivered(Fire(s, o, beaconAccepted)) == Delivered(s)
  {
    PayloadsAppendOne(s.sent, TransmissionOf(o, s.batch, beaconAccepted));
    assert RedactAll([]) == [];
  }

  /** Every payload ever sent carries no consent data in the places
      redaction empties. */
  predicate SentConsentFree(s: State) {
    forall t :: t in s.sent ==> forall e :: e in t.payload ==> ConsentFree(e)
  }

  lemma EnqueueSendsConsentFree(s: State, o: AnalyticsOptions, data: Option<Element>, beaconAccepted: bool)
    requires SentConsentFree(s)
    ensures SentConsentFree(Enqueue(s, o, data, beaconAccepted))
  {
  }

  lemma FireSendsConsentFree(s: State, o: AnalyticsOptions, beaconAccepted: bool)
    requires s.timerPending && SentConsentFree(s)
    ensures SentConsentFree(Fire(s, o, beaconAccepted))
  {
  }

  /** `data.forEach((elem) => processSingleBatchElement(elem))` */
  method RedactBatch(data: seq<Element>) returns (payload: seq<Element>)
    ensures payload == RedactAll(data)
  {
    payload := [];
    var i := 0;
    while i < |data|
      invariant 0 <= i <= |data|
      invariant payload == RedactAll(data[..i])
    {
      var elem := ProcessSingleBatchElement(data[i]);
      payload := payload + [elem];
      i := i + 1;
    }
    assert data[..|data|] == data;
  }

  /** The module-level state of the adapter (`initOptions`, `batch`,
      `timer`) and the sends it has made. */
  class RtbhouseAnalytics {
    var initOptions: Option<AnalyticsOptions>
    var batch: seq<Element>
    var timerPending: bool
    var timerDelay: int
    var sent: seq<Transmission>

    function Snapshot(): State
      reads this
    {
      State(batch, timerPending, timerDelay, sent)
    }

    /** The state at module load: not enabled, nothing waiting. */
    constructor ()
      ensures initOptions.None? && Snapshot() == State([], false, 0, [])
    {
      initOptions := None;
      batch := [];
      timerPending := false;
      timerDelay := 0;
      sent := [];
    }

    /** `enableAnalytics`: `initOptions = config.options || {}`. */
    method EnableAnalytics(options: Option<AnalyticsOptions>)
      modifies this
      ensures initOptions == Some(options.GetOr(NO_OPTIONS))
      ensures Snapshot() == old(Snapshot())
    {
      initOptions := Some(options.GetOr(NO_OPTIONS));
    }

    /** `_sendDataToServer(data)` (modules/rtbhouseAnalyticsAdapter.js:141-158). */
    method SendBatch(data: seq<Element>, beaconAccepted: bool)
      requires initOptions.Some?
      modifies this
      ensures sent == old(sent) + [TransmissionOf(old(initOptions).value, data, beaconAccepted)]
      ensures initOptions == old(initOptions) && batch == old(batch)
      ensures timerPending == old(timerPending) && timerDelay == old(timerDelay)
    {
      var payload := RedactBatch(data);
      var o := initOptions.value;
      var transport := if Truthy(o.useBeacon) && beaconAccepted then Beacon else Ajax(o.customHeaders);
      sent := sent + [Transmission(o.url.GetOr(TRACKER_URL), payload, transport)];
    }

    /** `processBatch` */
    method ProcessBatch(beaconAccepted: bool)
      requires initOptions.Some?
      modifies this
      ensures Snapshot() == Flush(old(Snapshot()), old(initOptions).value, beaconAccepted)
      ensures initOptions == old(initOptions)
    {
      SendBatch(batch, beaconAccepted);
      batch := [];
    }

    /** `sendDataToServer` (modules/rtbhouseAnalyticsAdapter.js:165-179). */
    method SendDataToServer(data: Option<Element>, beaconAccepted: bool)
      requires initOptions.Some?
      modifies this
      ensures Snapshot() == Enqueue(old(Snapshot()), old(initOptions).value, data, beaconAccepted)
      ensures initOptions == old(initOptions)
    {
      var o := initOptions.value;
      if data.Some? {
        batch := batch + [data.value];
        if timerPending {
          timerPending := false;
        }
        if |batch| >= o.batchSize.GetOr(DEFAULT_BATCH_SIZE) {
          ProcessBatch(beaconAccepted);
        } else {
          timerPending := true;
          timerDelay := o.batchDelay.GetOr(DEFAULT_BATCH_DELAY);
        }
      }
    }

    /** The armed timer fires. */
    method TimerFires(beaconAccepted: bool)
      requires initOptions.Some? && timerPending
      modifies this
      ensures Snapshot() == Fire(old(Snapshot()), old(initOptions).value, beaconAccepted)
      ensures initOptions == old(initOptions)
    {
      timerPending := false;
      ProcessBatch(beaconAccepted);
    }

    /** `onError` */
    method OnError(eventType: EventType, data: EventArgs, elapsedTime: JsValue, beaconAccepted: bool)
      requires initOptions.Some?
      modifies this
      ensures Snapshot() == Enqueue(old(Snapshot()), old(initOptions).value,
                                    Some(ErrorPayload(eventType, data, elapsedTime)), beaconAccepted)
      ensures initOptions == old(initOptions)
    {
      SendDataToServer(Some(ErrorPayload(eventType, data, elapsedTime)), beaconAccepted);
    }

    /** `onAdRender`: only this bidder's rendered bids are reported. */
    method OnAdRender(eventType: EventType, data: Option<EventArgs>, elapsedTime: JsValue, beaconAccepted: bool)
      requires initOptions.Some?
      modifies this
      ensures data.Some? && data.value.bidBidderCode == Str(BIDDER_CODE) ==>
        Snapshot() == Enqueue(old(Snapshot()), old(initOptions).value,
                              Some(RenderReport(eventType, data.value, elapsedTime)), beaconAccepted)
      ensures !(data.Some? && data.value.bidBidderCode == Str(BIDDER_CODE)) ==> Snapshot() == old(Snapshot())
      ensures initOptions == old(initOptions)
    {
      if data.Some? && data.value.bidBidderCode == Str(BIDDER_CODE) {
        SendDataToServer(Some(RenderReport(eventType, data.value, elapsedTime)), beaconAccepted);
      }
    }

    /** `track` (modules/rtbhouseAnalyticsAdapter.js:52-100). */
    method Track(eventType: EventType, args: Option<EventArgs>, id: JsValue, elapsedTime: JsValue, beaconAccepted: bool)
      requires initOptions.Some?
      requires IsErrorEvent(eventType) ==> args.Some?
      modifies this
      ensures Snapshot() == Enqueue(old(Snapshot()), old(initOptions).value, RouteOf(eventType, args, id, elapsedTime), beaconAccepted)
      ensures initOptions == old(initOptions)
    {
      match eventType
      case PaapiError => OnError(eventType, args.value, elapsedTime, beaconAccepted);
      case BidderError => OnError(eventType, args.value, elapsedTime, beaconAccepted);
      case AdRenderFailed => OnError(eventType, args.value, elapsedTime, beaconAccepted);
      case AdRenderSucceeded => OnAdRender(eventType, args, elapsedTime, beaconAccepted);
      case OtherEvent(_) => SendDataToServer(Some(Tracked(eventType, args, id, elapsedTime)), beaconAccepted);
    }
  }
}

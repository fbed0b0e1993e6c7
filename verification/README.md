# RTB House Prebid.js plugins — a Dafny model

This project models the three RTB House plugins for Prebid.js and proves properties of the model:

- **The bid adapter** (`modules/rtbhouseBidAdapter.js`).
  - It checks ad-unit slots.
  - It turns them into one OpenRTB 2.5 request POSTed to a regional endpoint. The request carries impressions, floors, site, source, GDPR consent, supply chain, user ids and the FLEDGE configuration.
  - It reads the server's answer back into Prebid bids. Banner and native answers are handled, and so are the FLEDGE auction configurations.
- **The analytics adapter** (`modules/rtbhouseAnalyticsAdapter.js`).
  - It routes Prebid events and batches them, flushing on size or on a timer.
  - Before sending, it removes GDPR consent strings from every batched event.
  - It sends each batch by beacon or by ajax.
- **The `rtbhPA` real-time-data submodule** (`modules/rtbhPARtdProvider.js`).
  - It validates its parameters.
  - It queues an `init` and a `placebo` record on `window.rtbhEvents`.
  - It loads the RTB House tag script.

## Modules

| module | contents |
|---|---|
| `Js` | JavaScript values, truthiness, `\|\|` and `String()` |
| `OrderedDict` | JavaScript objects as insertion-ordered key/value lists |
| `Consent` | the consent-string rewrite |
| `Schain` | the supply-chain check |
| `BidRequest` | slots and the banner/native tests |
| `NativeRequest` | the native request assets |
| `Impression` | floors and impressions |
| `OrtbRequest` | `buildRequests` |
| `NativeResponse` | the native creative |
| `OrtbResponse` | `interpretOrtbResponse` and `interpretResponse` |
| `AnalyticsEvents` | event routing and consent removal |
| `Analytics` | the batching adapter |
| `RtdProvider` | the RTD submodule |

### Modelling choices

- **The analytics adapter's module state** is a class, `Analytics.RtbhouseAnalytics`.
  - Its fields are `initOptions`, `batch`, the pending timer and the transmissions sent so far.
  - `ProcessBatch`, `SendDataToServer`, `TimerFires`, `OnError`, `OnAdRender` and `Track` are each proved equal to a pure transition (`Flush`, `Enqueue` or `Fire`). `EnableAnalytics` and `SendBatch` state their whole new state directly.
  - The invariants and delivery properties are proved about those transitions.
- **The page the RTD submodule writes to** is a class, `RtdProvider.Page`.
- **Request building and response reading** are pure, except for their loops. Those are methods proved against specification functions:
  - impressions;
  - native assets;
  - the native response switch;
  - FLEDGE configurations.

## Model

| member | source | states |
|---|---|---|
| `BidRequest.IsBidRequestValid` | modules/rtbhouseBidAdapter.js:185-187 | a slot is valid exactly when its region is one of prebid-eu, prebid-us, prebid-asia and its publisherId is truthy |
| `BidRequest.MediaTypeTests` | modules/rtbhouseBidAdapter.js:322-330 | without mediaTypes, mediaType alone decides and a slot naming no media type is a banner and not native; with mediaTypes, either source suffices, so a slot can be both |
| `BidRequest.MapBanner` | modules/rtbhouseBidAdapter.js:340-353 | a banner object exists exactly for banner slots; its w/h are the first size and its format lists every size in order |
| `Schain.EveryNodeComplete` | modules/rtbhouseBidAdapter.js:419-421 | true exactly when every node has truthy asi, sid and hp |
| `Schain.ValidateSchain` | modules/rtbhouseBidAdapter.js:414-422 | a supply chain is valid exactly when it has nodes and every node is complete |
| `Schain.MapSchain` | modules/rtbhouseBidAdapter.js:399-408 | the chain is passed through unchanged exactly when it is present and valid, otherwise dropped |
| `Consent.ReplaceAll` | modules/rtbhouseBidAdapter.js:75 | every occurrence of one character is replaced and nothing else changes |
| `Consent.StripPadding` | modules/rtbhouseBidAdapter.js:75 | the result is the longest prefix not ending in '=', and only '=' characters were removed |
| `Consent.RewriteConsent` | modules/rtbhouseBidAdapter.js:74-75 | the url-safe rewrite maps '+' to '-' and '/' to '_', character by character; it drops only trailing '=' and leaves no '+', '/' or trailing '=' |
| `Consent.Padding` | modules/rtbhouseBidAdapter.js:75 | n '=' characters |
| `Consent.RewriteRoundTrip` | modules/rtbhouseBidAdapter.js:74-75 | for a standard base64 string, undoing the rewrite and re-padding gives the original string back |
| `Consent.RewriteIdempotent` | modules/rtbhouseBidAdapter.js:74-75 | rewriting an already rewritten string changes nothing |
| `NativeRequest.MapNativeImage` | modules/rtbhouseBidAdapter.js:507-521 | the image type is kept; wmin/hmin are present exactly with aspect ratios; wmin is min_width or 100; hmin is wmin/ratio_width*ratio_height; w/h are the single pair, or the first pair of a list, and absent without sizes or with an empty list |
| `NativeRequest.Candidate` | modules/rtbhouseBidAdapter.js:446-498 | the k-th candidate asset, if emitted, has the k-th id of the emission order title, image, icon, sponsored, body, cta |
| `NativeRequest.MapNativeAssets` | modules/rtbhouseBidAdapter.js:443-500 | the assets pushed equal the specification `NativeAssets` of the native parameters |
| `NativeRequest.EmittedUpToSorted` | modules/rtbhouseBidAdapter.js:443-500 | the assets follow the fixed emission order, and no id appears twice |
| `NativeRequest.EmittedUpToHas` | modules/rtbhouseBidAdapter.js:446-498 | an asset id is emitted exactly when its parameter is truthy |
| `NativeRequest.NativeAssetOrder` | modules/rtbhouseBidAdapter.js:443-500 | the asset list is strictly ordered by emission rank, with one asset per present parameter |
| `NativeRequest.TitleLenDefault` | modules/rtbhouseBidAdapter.js:446-454 | with a title, the first asset is the title; its len defaults to 25 and is always truthy |
| `NativeRequest.EmittedUpToPrefix` | modules/rtbhouseBidAdapter.js:443-500 | assets emitted by an earlier step are a prefix of those emitted by a later one |
| `NativeRequest.BodyRequiredReadsRequest` | modules/rtbhouseBidAdapter.js:479-488 | the body asset's `required` flag comes from `params.body.request`; changing `params.body.required` does not change the assets |
| `Impression.MaxOf` | modules/rtbhouseBidAdapter.js:284 | Math.max is NaN exactly when one floor is NaN; otherwise it is one of the floors and at least every floor |
| `Impression.FloorIsUnique` | modules/rtbhouseBidAdapter.js:275-285 | the floor specification determines at most one floor |
| `Impression.ApplyFloor` | modules/rtbhouseBidAdapter.js:275-285 | with getFloor and a supported media type present, the floor is NaN when a quote for those types is NaN and otherwise their maximum; otherwise it is parseFloat(bidfloor) |
| `Impression.MapNative` | modules/rtbhouseBidAdapter.js:428-437 | a native request (version 1.1, the mapped assets) exists exactly for native slots |
| `Impression.MapImpression` | modules/rtbhouseBidAdapter.js:291-320 | the impression has the bid id, banner, native and tagid; bidfloor only when truthy; ext.ae exactly when FLEDGE is enabled; ext.tid exactly when tid is truthy |
| `OrtbRequest.Truncate` | modules/rtbhouseBidAdapter.js:365-368 | the result is the prefix of at most n characters |
| `OrtbRequest.MapSite` | modules/rtbhouseBidAdapter.js:360-381 | publisher id is String(publisherId), or "unknown" without slots; page and name are set; the channel is present exactly for a truthy non-empty channel and is its prefix of at most 50 characters |
| `OrtbRequest.MapSource` | modules/rtbhouseBidAdapter.js:387-393 | tid is the auction id when it is truthy, otherwise the empty string |
| `OrtbRequest.ConsentFor` | modules/rtbhouseBidAdapter.js:74-75 | without a consent string the consent is empty, otherwise it is the url-safe rewrite |
| `OrtbRequest.ConsentRoundTrip` | modules/rtbhouseBidAdapter.js:74-75 | the consent sent can be turned back into the publisher's consent string |
| `OrtbRequest.GdprPart` | modules/rtbhouseBidAdapter.js:73-81 | regs.ext.gdpr = 1 and user.ext.consent are set exactly when GDPR consent is given and gdprApplies is truthy |
| `OrtbRequest.MapImpressions` | modules/rtbhouseBidAdapter.js:58 | one impression per slot, in order, each an impression of its slot |
| `OrtbRequest.EndpointUrlRoundTrip` | modules/rtbhouseBidAdapter.js:101-116 | `EndpointUrl` (the endpoint chosen by fledgeEnabled, prefixed with the region) names its region, which can be read back, and the FLEDGE and plain endpoints never coincide |
| `OrtbRequest.BuildRequests` | modules/rtbhouseBidAdapter.js:46-118 | a POST to the region's endpoint carrying id, impressions, site, USD, test, source, GDPR part, supply chain, eids exactly when truthy, and fledge_config exactly when FLEDGE is enabled (configured or default) |
| `NativeResponse.LastWithId` | modules/rtbhouseBidAdapter.js:577-605 | a found asset is one of the assets and has the id asked for |
| `NativeResponse.LastWithIdSpec` | modules/rtbhouseBidAdapter.js:577-605 | nothing is found exactly when no asset has the id; otherwise the last asset with the id is found |
| `NativeResponse.LastWithIdSkips` | modules/rtbhouseBidAdapter.js:577-605 | an asset with another id never changes what is found |
| `NativeResponse.InterpretNativeAd` | modules/rtbhouseBidAdapter.js:571-608 | bid.native holds the click URL, the trackers and, for each known asset id, the content of the last asset with that id |
| `NativeResponse.UnknownAssetIgnored` | modules/rtbhouseBidAdapter.js:580-604 | an asset with an id outside 1..6 does not change bid.native, wherever it stands |
| `OrtbResponse.InterpretBid` | modules/rtbhouseBidAdapter.js:204-209 | request id, cpm, creative id, domains, ttl 55, net revenue and USD are carried over; it is native exactly when adm starts with '{'; banner keeps ad/w/h; native has 1x1 and the expected native object; ext is present exactly when truthy |
| `OrtbResponse.InterpretBids` | modules/rtbhouseBidAdapter.js:195-213 | at most one bid per server bid, and no bid has a zero price |
| `OrtbResponse.InterpretOrtbResponse` | modules/rtbhouseBidAdapter.js:189-214 | an array body gives the interpreted bids, anything else gives none |
| `OrtbResponse.InterpretBidsAppend` | modules/rtbhouseBidAdapter.js:196-212 | interpreting a concatenation gives the concatenated results, so order is kept |
| `OrtbResponse.InterpretBidsMembers` | modules/rtbhouseBidAdapter.js:196-212 | a bid is produced exactly for each priced server bid |
| `OrtbResponse.SignalPairsSnoc` | modules/rtbhouseBidAdapter.js:231-233 | each buyer adds one (igdomain, buyersignal) assignment after those of the buyers before it |
| `OrtbResponse.ConfigPairsSnoc` | modules/rtbhouseBidAdapter.js:229-244 | each interest-group bid adds one (impid, config) assignment after those of the bids before it |
| `OrtbResponse.CollectBuyerSignals` | modules/rtbhouseBidAdapter.js:230-233 | the per-buyer signals object is built from the buyers in order |
| `OrtbResponse.CollectConfigs` | modules/rtbhouseBidAdapter.js:229-244 | the configurations are absent exactly when there are no interest-group bids; otherwise they are the object built from them |
| `OrtbResponse.InterpretResponse` | modules/rtbhouseBidAdapter.js:215-265 | the result is the expected response: bids of the first seat for a FLEDGE envelope, plus its auction configurations; otherwise the plain interpretation |
| `OrtbResponse.FledgeIff` | modules/rtbhouseBidAdapter.js:221-264 | auction configurations are returned exactly for a FLEDGE envelope with at least one interest-group bid |
| `OrtbResponse.PerBuyerSignalsSpec` | modules/rtbhouseBidAdapter.js:230-239 | one signal per distinct igdomain, the last one wins, and interestGroupBuyers lists exactly those domains |
| `OrtbResponse.FledgeConfigIds` | modules/rtbhouseBidAdapter.js:234-257 | configurations have distinct bid ids, each the impid of some interest-group bid |
| `OrtbResponse.FledgeConfigForLast` | modules/rtbhouseBidAdapter.js:234-257 | each impression id gets the configuration of its last interest-group bid |
| `OrderedDict.Keys` | modules/rtbhouseBidAdapter.js:239 | the keys of an object are its entries' keys, in order |
| `OrderedDict.Put` | modules/rtbhouseBidAdapter.js:232 | assignment adds an entry exactly when the key is new |
| `OrderedDict.PutKeys` | modules/rtbhouseBidAdapter.js:232 | assignment keeps the key order and appends a new key at the end; keys stay distinct |
| `OrderedDict.GetPut` | modules/rtbhouseBidAdapter.js:232 | reading after an assignment gives the assigned value for that key and the old value for others |
| `OrderedDict.GetAbsent` | modules/rtbhouseBidAdapter.js:232 | a key never assigned reads as absent |
| `OrderedDict.FromPairsSnoc` | modules/rtbhouseBidAdapter.js:232 | one more assignment is one more Put on the object built so far |
| `OrderedDict.FromPairsSpec` | modules/rtbhouseBidAdapter.js:229-235 | assigning pairs in order gives distinct keys in order of first occurrence, each holding its last value |
| `OrderedDict.FirstOccurrencesMembers` | modules/rtbhouseBidAdapter.js:229-235 | a key appears exactly when some pair has it |
| `OrderedDict.LastForSpec` | modules/rtbhouseBidAdapter.js:229-235 | the last value for a key is absent exactly when no pair has the key; otherwise it is the last such pair's value |
| `OrderedDict.LastForAt` | modules/rtbhouseBidAdapter.js:229-235 | a pair that no later pair with the same key follows is the one that counts |
| `OrderedDict.GetAt` | modules/rtbhouseBidAdapter.js:250 | with distinct keys, each entry's key reads as that entry's value |
| `Js.ToString` | modules/rtbhouseBidAdapter.js:365-368 | String() of a string is the string itself, and only '' and arrays print as the empty string (so a truthy scalar channel is never dropped) |
| `AnalyticsEvents.OwnBidderRequests` | modules/rtbhouseAnalyticsAdapter.js:231 | exactly the bidder requests whose bidderCode is "rtbhouse" are kept |
| `AnalyticsEvents.OwnBidderRequestsAppend` | modules/rtbhouseAnalyticsAdapter.js:231 | filtering keeps order and multiplicity: the filter of a concatenation is the concatenation of the filters |
| `AnalyticsEvents.OwnBidderRequestsSingle` | modules/rtbhouseAnalyticsAdapter.js:231 | a single request is kept exactly when its bidderCode is "rtbhouse" |
| `AnalyticsEvents.ErrorPayload` | modules/rtbhouseAnalyticsAdapter.js:222-236 | an error report with reason and message for a failed render; otherwise the error and either the own bidder requests or [bidderRequest] |
| `AnalyticsEvents.RouteOf` | modules/rtbhouseAnalyticsAdapter.js:52-100 | error events become error reports; successful renders are reported only for rtbhouse bids; every other event is tracked with its args, id and elapsed time |
| `AnalyticsEvents.RedactBids` | modules/rtbhouseAnalyticsAdapter.js:115-118 | one bid per bid, none left with ortb2.user.ext.consent; a bid without consent is unchanged; every other member is kept (`BidSameButConsent`) |
| `AnalyticsEvents.RedactRequest` | modules/rtbhouseAnalyticsAdapter.js:133-137 | the request is left without gdprConsent and without consent in its bids; every other member, each bid's included, is kept; a request with no consent in it is unchanged |
| `AnalyticsEvents.RedactRequests` | modules/rtbhouseAnalyticsAdapter.js:133-137 | one request per request, none left with gdprConsent or consent in its bids; a request without consent is unchanged; bidder code, other members and every bid's non-consent members are kept (`RequestSameButConsent`) |
| `AnalyticsEvents.RemoveConsentFromBids` | modules/rtbhouseAnalyticsAdapter.js:115-118 | the loop over bids equals RedactBids |
| `AnalyticsEvents.RemoveConsentFromRequests` | modules/rtbhouseAnalyticsAdapter.js:133-137 | the loop over bidder requests equals RedactRequests |
| `AnalyticsEvents.Redacted` | modules/rtbhouseAnalyticsAdapter.js:120-139 | no consent is left in args, args.ortb2.user.ext, args.bids or args.bidderRequests; an element without args (every error and render report) is unchanged; a tracked event keeps its type, id and elapsed time, and every member of its args other than the consent ones is kept, down to the bids of each bidder request (`SameButConsent`) |
| `AnalyticsEvents.RedactedUnique` | modules/rtbhouseAnalyticsAdapter.js:120-139 | a consent-free element that differs from the original only in consent is the processed element, so the contract of `Redacted` determines it |
| `AnalyticsEvents.ProcessSingleBatchElement` | modules/rtbhouseAnalyticsAdapter.js:120-139 | the processed element equals Redacted of the element |
| `AnalyticsEvents.RedactedFixesConsentFree` | modules/rtbhouseAnalyticsAdapter.js:120-139 | an element already free of consent is left unchanged |
| `AnalyticsEvents.RedactIdempotent` | modules/rtbhouseAnalyticsAdapter.js:120-139 | processing twice is the same as processing once |
| `Analytics.RedactAll` | modules/rtbhouseAnalyticsAdapter.js:144-147 | the serialised payload has one element per batched element, none carrying consent; error and render reports are exactly as batched; tracked events keep their type and id; each element differs from the batched one only in consent |
| `Analytics.TransportFor` | modules/rtbhouseAnalyticsAdapter.js:148-157 | ajax with the custom headers is used exactly when useBeacon is falsy or the beacon is refused |
| `Analytics.Flush` | modules/rtbhouseAnalyticsAdapter.js:160-163 | the batch is sent as one transmission and emptied, and the timer is untouched |
| `Analytics.Enqueue` | modules/rtbhouseAnalyticsAdapter.js:165-179 | null data changes nothing; otherwise the data is appended and the timer cleared; a full batch is flushed, otherwise a timer of batchDelay is started |
| `Analytics.Fire` | modules/rtbhouseAnalyticsAdapter.js:176 | a firing timer flushes the batch and is no longer pending |
| `Analytics.EnqueueKeepsInv` | modules/rtbhouseAnalyticsAdapter.js:165-179 | after any data, the batch is below batchSize and a timer is pending exactly when the batch is not empty |
| `Analytics.FireKeepsInv` | modules/rtbhouseAnalyticsAdapter.js:160-163 | a firing timer keeps that invariant and leaves an empty batch with no timer |
| `Analytics.RedactAllAppend` | modules/rtbhouseAnalyticsAdapter.js:145 | processing distributes over concatenation of batches |
| `Analytics.PayloadsAppendOne` | modules/rtbhouseAnalyticsAdapter.js:141-158 | a new transmission adds exactly its payload to what was sent |
| `Analytics.EnqueueDelivers` | modules/rtbhouseAnalyticsAdapter.js:165-179 | enqueued data is eventually sent, processed, in order, after everything before it; nothing is lost or duplicated |
| `Analytics.FireDelivers` | modules/rtbhouseAnalyticsAdapter.js:160-163 | a firing timer neither loses nor adds data |
| `Analytics.EnqueueSendsConsentFree` | modules/rtbhouseAnalyticsAdapter.js:141-179 | once everything sent is consent-free, it stays so after any data |
| `Analytics.FireSendsConsentFree` | modules/rtbhouseAnalyticsAdapter.js:141-163 | a firing timer sends only consent-free elements |
| `Analytics.RedactBatch` | modules/rtbhouseAnalyticsAdapter.js:144-145 | the loop over the batch equals RedactAll |
| `Analytics.RtbhouseAnalytics.constructor` | modules/rtbhouseAnalyticsAdapter.js:41-43 | no options, empty batch, no timer, nothing sent |
| `Analytics.RtbhouseAnalytics.EnableAnalytics` | modules/rtbhouseAnalyticsAdapter.js:105-108 | initOptions becomes config.options or {}; the batch state is unchanged |
| `Analytics.RtbhouseAnalytics.SendBatch` | modules/rtbhouseAnalyticsAdapter.js:141-158 | exactly one transmission of the processed data is recorded, to the configured URL by the chosen transport |
| `Analytics.RtbhouseAnalytics.ProcessBatch` | modules/rtbhouseAnalyticsAdapter.js:160-163 | the state moves as Flush |
| `Analytics.RtbhouseAnalytics.SendDataToServer` | modules/rtbhouseAnalyticsAdapter.js:165-179 | the state moves as Enqueue |
| `Analytics.RtbhouseAnalytics.TimerFires` | modules/rtbhouseAnalyticsAdapter.js:176 | the state moves as Fire |
| `Analytics.RtbhouseAnalytics.OnError` | modules/rtbhouseAnalyticsAdapter.js:222-236 | the state moves as Enqueue of the error payload |
| `Analytics.RtbhouseAnalytics.OnAdRender` | modules/rtbhouseAnalyticsAdapter.js:238-242 | a render report is enqueued exactly for a bid whose bidderCode is "rtbhouse"; otherwise nothing changes |
| `Analytics.RtbhouseAnalytics.Track` | modules/rtbhouseAnalyticsAdapter.js:52-100 | the state moves as Enqueue of the routed event |
| `RtdProvider.ValidParams` | modules/rtbhPARtdProvider.js:26-31 | parameters are accepted exactly when present with a non-empty string tagId and a region that is undefined or a string |
| `RtdProvider.ValidParamsExamples` | test/spec/modules/rtbhPA_spec.js:20-49 | the accepted and rejected configurations of the module's tests |
| `RtdProvider.ScriptUrl` | modules/rtbhPARtdProvider.js:15 | the script URL is the tag domain, the tag id and ".js" |
| `RtdProvider.ScriptUrlRoundTrip` | modules/rtbhPARtdProvider.js:15 | the tag id can be read back from the script URL |
| `RtdProvider.ScriptUrlInjective` | modules/rtbhPARtdProvider.js:15 | different tags load different scripts |
| `RtdProvider.Page.constructor` | modules/rtbhPARtdProvider.js:9 | a page with the given event list and no scripts loaded |
| `RtdProvider.Page.LoadModule` | modules/rtbhPARtdProvider.js:9 | window.rtbhEvents becomes the existing list or [] |
| `RtdProvider.Page.ExecutePubvertiserTag` | modules/rtbhPARtdProvider.js:11-23 | an init record with the tag id and region, then a placebo record, is appended; the tag script is loaded once |
| `RtdProvider.Page.Init` | modules/rtbhPARtdProvider.js:25-35 | returns whether the parameters are valid; if valid, the records are appended and the script loaded; otherwise the page is unchanged |

## Left out

### Bid adapter
- **The `CONVERTER` object** (modules/rtbhouseBidAdapter.js:120-178) is a wrapper over Prebid's ORTB converter, which is host code. `buildRequests` calls it at modules/rtbhouseBidAdapter.js:53 and only logs its result. The model assumes that the host converter does not run the imp hook (lines 131-177), or that an exception from it does not reach `buildRequests`. If it does run the hook, `mapBanner(imp)` reads `imp.mediaTypes.banner` on an ORTB imp that has no `mediaTypes` (a TypeError), and `applyFloor(slot)` names a variable that is not in scope (a ReferenceError); either would make `buildRequests` throw at line 53, before any request is built.
- **The `ortb2` merge** of site, user, device, bcat and badv (modules/rtbhouseBidAdapter.js:93-99). `mergeDeep` is host code, so the model sends the request before that merge.
- **`convertOrtbRequestToProprietaryNative`, `getOrigin` and `config.getConfig`** are host code. Their results are parameters: the slots as given, `origin` and `fledgeConfig`.
- **`JSON.stringify` of the request and `JSON.parse` of a native `adm`.** The request is a datatype, and a native `adm` is taken as already parsed. An unparsable `adm` (a SyntaxError) is not modelled.
- **`encodeURI`** is kept symbolic (`NativeResponse.EncodedUri`). Percent-escaping is not modelled.
- **Floating point.**
  - Prices and floors are reals; NaN from `parseFloat` is `None`.
  - `hmin` is real division, and a zero `ratio_width` gives an unspecified non-finite value.
  - `JsValue` numbers are integers only.
- **`Impression.ApplyFloor`: the currency and size arguments of `getFloor`** are not modelled. `getFloor` is a function from media type to the `floor` member of its answer, None when that member is missing or not a number (NaN). A NaN quote makes `Math.max` NaN, so no `bidfloor` is sent (modules/rtbhouseBidAdapter.js:284, 300-301), as modelled.
- **Object key order.** Integer-like keys (which JavaScript enumerates first) and `__proto__` keys are not modelled. Objects keep plain insertion order.
- **Response shapes that throw a TypeError.**
  - A null or undefined body in `interpretResponse` (it reads `body.bidid`, modules/rtbhouseBidAdapter.js:221) is excluded by `BodyInterpretable`. `interpretOrtbResponse` on such a body returns no bids, as modelled.
  - A native asset missing the member its id calls for is excluded by `AllReadable`.
  - A priced bid without `adm` and a FLEDGE envelope without a `seatbid` array cannot be written in the model: `adm` is a string and `seatbid` a list.
- **Request shapes that throw a TypeError**, which the host never hands over; the preconditions exclude them:
  - `BidRequest.MappableSlot` excludes a banner slot with no sizes or an empty sizes list (`sizes[0][0]`, modules/rtbhouseBidAdapter.js:345), a native slot without native parameters (line 444), an empty `aspect_ratios` (line 511), and a `getFloor` without `mediaTypes` (line 278).
  - `OrtbRequest.MapSite` requires a `publisherId` that is neither undefined nor null (`pubId.toString()`, line 372).
  - `OrtbRequest.BuildRequests` requires at least one bid request (`validBidRequests[0].params`, line 115).
- **`OrtbRequest.Truncate` and `OrtbRequest.MapSite` count characters as Unicode scalar values.** `slice(0, 50)` at modules/rtbhouseBidAdapter.js:365-368 counts UTF-16 code units. For a channel with characters outside the Basic Multilingual Plane, the source keeps fewer characters than the model and can cut a surrogate pair in half, which a Dafny string cannot hold. The two agree on channels made of BMP characters only.
- **The `delete imp.ext.ae` branch** (modules/rtbhouseBidAdapter.js:308-310) is unreachable, because `imp.ext` is never set at that point. It is not modelled.
- **`isVideoBid`** (modules/rtbhouseBidAdapter.js:332-334) is never called.
- **Registration with the host** (`registerBidder`), logging and `deepClone`.
- **`MediaTypes` keys and values are independent in the model.** A key that is present but holds `undefined` stays in `keys`, so `ApplyFloor` quotes it as `Object.keys` does, while `banner`/`native` read it as absent. The model also admits a `banner` or `native` value without its key, which no JavaScript object has.

### Analytics adapter
- **The analytics adapter's network I/O and timers.**
  - `sendBeacon` acceptance is a parameter (`beaconAccepted`).
  - Ajax and beacon sends are recorded as transmissions.
  - `setTimeout`/`clearTimeout` are a pending flag plus a delay, and `TimerFires` is the timer's callback.
- **Aliasing of the analytics payloads.**
  - The source deletes consent fields in place in objects shared with the host.
  - The model computes the redacted copy, so side effects on other holders of those objects are not modelled.
  - In particular, when an error report's bidder request is the same object as one in a batched tracked event's `args.bidderRequests`, processing that event deletes its `gdprConsent` before the batch is serialised; the model does not capture this.
- **`_sendDataToServer`'s wrapping of non-array data** (modules/rtbhouseAnalyticsAdapter.js:144) never happens, because it is always called with the batch array.
- **`auctionHandler`, `bidHandler` and `rtbhParams`** (modules/rtbhouseAnalyticsAdapter.js:181-220) are reachable only from commented-out cases.
- **Host adapter code.** `originEnableAnalytics`, `disableAnalytics`, `registerAnalyticsAdapter` and the ajax callback's log line are host code.
- **Error and render reports carry no `args`,** so consent removal does not touch them. `AnalyticsEvents.Redacted` states this: apart from the aliasing above, the `gdprConsent` of a bidder request inside an error report is sent as it is.
- **Calls that throw a TypeError**, which the host never makes; the preconditions exclude them:
  - `AnalyticsEvents.RouteOf` and `Analytics.RtbhouseAnalytics.Track` require `args` for the three error events (`data.reason` / `data.error`, modules/rtbhouseAnalyticsAdapter.js:223).
  - The analytics methods require `initOptions` to be set: sending before `enableAnalytics` destructures undefined (lines 148 and 166).
- **Event names.** The host's event constants are not part of this model. `AnalyticsEvents.EventType.OtherEvent` stands for every name other than the four routed ones; the model does not stop a caller from writing a routed event's name there.

### RTD submodule
- **`window`, `document` and `loadExternalScript`** are the `Page` class. A loaded script is recorded as a (URL, module name) pair.
- **`submodule` registration** is host code.

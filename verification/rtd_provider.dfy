/** The `rtbhPA` real-time-data submodule: on `init` it checks its
    parameters, queues an `init` and a `placebo` record on the page's
    `window.rtbhEvents` list and loads the RTB House tag script
    (modules/rtbhPARtdProvider.js). The page is a class whose fields are
    the global list and the scripts loaded so far. */
module RtdProvider {
  import opened Js

  const MODULE_NAME := "rtbhPA"
  const TAG_DOMAIN := "tags.creativecdn.com"
  const SCRIPT_PREFIX := "https://" + TAG_DOMAIN + "/"
  const SCRIPT_SUFFIX := ".js"

  /** A record on `window.rtbhEvents`: `{eventType: 'init', value, dc}` or
      `{eventType: 'placebo'}`. */
  datatype RtbhEvent = InitEvent(value: string, dc: string) | Placebo

  /** `rtdConfig.params`; a member that is not given is Undefined. */
  datatype RtdParams = RtdParams(tagId: JsValue, region: JsValue)

  /** `region = ''`: the default applies only to an undefined region. */
  function RegionOf(p: RtdParams): JsValue {
    if p.region.Undefined? then Str("") else p.region
  }

  /** The check in `init`; `params` is None when the config or its `params`
      is missing or falsy. */
  function ValidParams(params: Option<RtdParams>): (ok: bool)
    ensures ok <==>
      && params.Some?
      && params.value.tagId.Str? && params.value.tagId.s != ""
      && (params.value.region.Undefined? || params.value.region.Str?)
  {
    var p := params.GetOr(RtdParams(Undefined, Undefined));
    Truthy(p.tagId) && IsStr(p.tagId) && IsStr(RegionOf(p))
  }

  /** The cases the module's own tests check. */
  lemma ValidParamsExamples()
    ensures !ValidParams(None)
    ensures !ValidParams(Some(RtdParams(Undefined, Undefined)))
    ensures !ValidParams(Some(RtdParams(Num(123), Undefined)))
    ensures !ValidParams(Some(RtdParams(Str(""), Undefined)))
    ensures !ValidParams(Some(RtdParams(Str("x"), Num(12345))))
    ensures ValidParams(Some(RtdParams(Str("x"), Undefined)))
    ensures ValidParams(Some(RtdParams(Str("x"), Str(""))))
    ensures ValidParams(Some(RtdParams(Str("publisher_id"), Str("region"))))
  {
  }

  /** The tag script's URL. */
  function ScriptUrl(tagId: string): (url: string)
    ensures |url| == |SCRIPT_PREFIX| + |tagId| + |SCRIPT_SUFFIX|
  {
    SCRIPT_PREFIX + tagId + SCRIPT_SUFFIX
  }

  /** Reads the tag id back from a script URL. */
  function TagIdOfScript(url: string): string
    requires |url| >= |SCRIPT_PREFIX| + |SCRIPT_SUFFIX|
  {
    url[|SCRIPT_PREFIX|..|url| - |SCRIPT_SUFFIX|]
  }

  /** The script URL names the tag it was built from, so different tags
      load different scripts. */
  lemma ScriptUrlRoundTrip(tagId: string)
    ensures TagIdOfScript(ScriptUrl(tagId)) == tagId
  {
    assert ScriptUrl(tagId)[|SCRIPT_PREFIX|..|SCRIPT_PREFIX| + |tagId|] == tagId;
  }

  lemma ScriptUrlInjective(a: string, b: string)
    requires ScriptUrl(a) == ScriptUrl(b)
    ensures a == b
  {
    ScriptUrlRoundTrip(a);
    ScriptUrlRoundTrip(b);
  }

  /** The browser page as this module sees it: `window.rtbhEvents` (None
      when missing or falsy) and the scripts loaded through
      `loadExternalScript`, as (URL, module name) pairs. */
  class Page {
    var rtbhEvents: Option<seq<RtbhEvent>>
    var loadedScripts: seq<(string, string)>

    constructor (existing: Option<seq<RtbhEvent>>)
      ensures rtbhEvents == existing && loadedScripts == []
    {
      rtbhEvents := existing;
      loadedScripts := [];
    }

    /** Module load: `window.rtbhEvents = window.rtbhEvents || []`, keeping
      whatever a tag queued before. */
    method LoadModule()
      modifies this
      ensures rtbhEvents == Some(old(rtbhEvents).GetOr([]))
      ensures loadedScripts == old(loadedScripts)
    {
      if rtbhEvents.None? {
        rtbhEvents := Some([]);
      }
    }

    /** `executePubvertiserTag` (modules/rtbhPARtdProvider.js:11-23). */
    method ExecutePubvertiserTag(tagId: string, region: string)
      modifies this
      ensures rtbhEvents == Some(old(rtbhEvents).GetOr([]) + [InitEvent(tagId, region), Placebo])
      ensures loadedScripts == old(loadedScripts) + [(ScriptUrl(tagId), MODULE_NAME)]
    {
      var events := if rtbhEvents.Some? then rtbhEvents.value else [];
      events := events + [InitEvent(tagId, region)];
      rtbhEvents := Some(events);
      loadedScripts := loadedScripts + [("https://" + TAG_DOMAIN + "/" + tagId + ".js", MODULE_NAME)];
      rtbhEvents := Some(rtbhEvents.value + [Placebo]);
      assert events + [Placebo] == old(rtbhEvents).GetOr([]) + [InitEvent(tagId, region), Placebo];
    }

    /** `init` (modules/rtbhPARtdProvider.js:25-35): with valid parameters,
      exactly an `init` record and a `placebo` record are appended, in
      that order, and the tag's script is loaded once; otherwise the page
      is left as it was. */
    method Init(params: Option<RtdParams>) returns (ok: bool)
      modifies this
      ensures ok == ValidParams(params)
      ensures ok ==>
        && rtbhEvents == Some(old(rtbhEvents).GetOr([])
                              + [InitEvent(params.value.tagId.s, RegionOf(params.value).s), Placebo])
        && loadedScripts == old(loadedScripts) + [(ScriptUrl(params.value.tagId.s), MODULE_NAME)]
      ensures !ok ==> rtbhEvents == old(rtbhEvents) && loadedScripts == old(loadedScripts)
    {
      var p := if params.Some? then params.value else RtdParams(Undefined, Undefined);
      var region := if p.region.Undefined? then Str("") else p.region;
      if !Truthy(p.tagId) || !IsStr(p.tagId) || !IsStr(region) {
        return false;
      }
      ExecutePubvertiserTag(p.tagId.s, region.s);
      return true;
    }
  }
}

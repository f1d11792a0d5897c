/** The template context processors `debug`, `static`, `media` and
    `request`. The first three are decorated with `uses_settings`, so a call
    with the request alone reads the rest from the settings.
 */
module ContextProcessors {
  import opened Values
  import opened Unsetting
  import UnsettingFacts

  // ---------------------------------------------------------------------
  // debug

  const DebugSignature := Signature(["request", "debug", "internal_ips"], Some([VBool(false), VSeq([])]))
  const DebugConfig := ByDict([("DEBUG", VStr("debug")), ("INTERNAL_IPS", VStr("internal_ips"))])

  /** `debug` after decoration: `debug` fed by DEBUG, `internal_ips` by INTERNAL_IPS. */
  const DebugFunction := Decorated(None, DebugSignature.names, DebugSignature.defaults,
    map[VStr("debug") := SettingDetails("DEBUG", VStr("debug"), Some(1), OverwriteSentinel),
        VStr("internal_ips") := SettingDetails("INTERNAL_IPS", VStr("internal_ips"), Some(2), OverwriteSentinel)])

  /** The body of `debug`. It adds the debugging variables only when `debug`
      is truthy and the client address (None when the request has none) is
      among the internal addresses; `sql_queries` is the database
      connection's query log, passed in. */
  function DebugContext(request: Value, debug: Value, internalIps: Value, queries: Value): (r: Result<map<string, Value>>)
    ensures !Truthy(debug) ==> r == Success(map[])
    ensures r.Success? && r.value != map[] <==>
              && Truthy(debug)
              && RemoteAddr(request).Success?
              && Contains(internalIps, RemoteAddr(request).value) == Success(true)
    ensures r.Success? && r.value != map[] ==>
              r.value.Keys == {"debug", "sql_queries"} && r.value["debug"] == VBool(true) && r.value["sql_queries"] == queries
    ensures r.Failure? ==> Truthy(debug)
    ensures Truthy(debug) && RemoteAddr(request).Success? && Contains(internalIps, RemoteAddr(request).value) == Success(false)
            ==> r == Success(map[])
    ensures Truthy(debug) && RemoteAddr(request).Failure? ==> r == Failure(RemoteAddr(request).error)
    ensures Truthy(debug) && RemoteAddr(request).Success? && Contains(internalIps, RemoteAddr(request).value).Failure?
            ==> r == Failure(Contains(internalIps, RemoteAddr(request).value).error)
  {
    if !Truthy(debug) then Success(map[])
    else
      var addr :- RemoteAddr(request);
      var inside :- Contains(internalIps, addr);
      if inside then
        var extras := map["debug" := VBool(true), "sql_queries" := queries];
        assert "debug" in extras;
        Success(extras)
      else Success(map[])
  }

  /** Calling the decorated `debug`; `lookup` selects how the binder finds
      the default of a parameter nobody supplied. */
  function Debug(lookup: DefaultLookup, settings: map<string, Value>, call: Call, queries: Value): Result<map<string, Value>> {
    var forwarded :- Wrapper(DebugFunction, lookup, settings, call);
    var params :- Receive(DebugSignature, false, forwarded);
    assert "request" == DebugSignature.names[0] && "debug" == DebugSignature.names[1]
      && "internal_ips" == DebugSignature.names[2];
    DebugContext(params["request"], params["debug"], params["internal_ips"], queries)
  }

  /** Decorating `debug` builds exactly this table. */
  lemma DebugDecoration()
    ensures Decorate(DebugConfig, DebugSignature, false) == Success(DebugFunction)
  {
  }

  /** A successful `_wrapper` call of `debug` reaches its body with every
      parameter bound to its resolved value. */
  lemma DebugCallReceived(lookup: DefaultLookup, settings: map<string, Value>, call: Call)
    requires forall k :: k in call.keywords ==> k in DebugSignature.names
    requires Wrapper(DebugFunction, lookup, settings, call).Success?
    ensures var params := Receive(DebugSignature, false, Wrapper(DebugFunction, lookup, settings, call).value);
            && params.Success?
            && forall j :: 0 <= j < 3 ==>
                 && DebugSignature.names[j] in params.value
                 && Resolve(DebugFunction, lookup, settings, CallArgs(DebugFunction, call), call.keywords, j).Success?
                 && params.value[DebugSignature.names[j]]
                    == Resolve(DebugFunction, lookup, settings, CallArgs(DebugFunction, call), call.keywords, j).value
  {
    assert DebugFunction.WellFormed() && DebugSignature.Valid();
    assert [] + DebugFunction.argNames == DebugSignature.names;
    UnsettingFacts.WrapperThenReceive(DebugFunction, lookup, settings, DebugSignature, false, call);
  }

  /** `debug(request)` reads `debug` and `internal_ips` from the current DEBUG
      and INTERNAL_IPS settings, and raises AttributeError for the first of
      them that is not defined. */
  lemma DebugReadsSettings(lookup: DefaultLookup, settings: map<string, Value>, request: Value, queries: Value)
    ensures Debug(lookup, settings, Call([request], map[]), queries)
            == if "DEBUG" !in settings then Failure(AttributeError("DEBUG"))
               else if "INTERNAL_IPS" !in settings then Failure(AttributeError("INTERNAL_IPS"))
               else DebugContext(request, settings["DEBUG"], settings["INTERNAL_IPS"], queries)
  {
    var call := Call([request], map[]);
    assert Resolve(DebugFunction, lookup, settings, [request], map[], 0) == Success(request);
    assert Resolve(DebugFunction, lookup, settings, [request], map[], 1) == ReadSetting(settings, "DEBUG");
    assert Resolve(DebugFunction, lookup, settings, [request], map[], 2) == ReadSetting(settings, "INTERNAL_IPS");
    UnsettingFacts.WrapperOutcome(DebugFunction, lookup, settings, call);
    if Wrapper(DebugFunction, lookup, settings, call).Success? {
      DebugCallReceived(lookup, settings, call);
    }
  }

  /** An explicit `debug` keyword other than the fallback trigger overrides
      the DEBUG setting. */
  lemma DebugKeywordOverridesSetting(lookup: DefaultLookup, settings: map<string, Value>, request: Value, debug: Value, queries: Value)
    requires debug != OverwriteSentinel && "INTERNAL_IPS" in settings
    ensures Debug(lookup, settings, Call([request], map["debug" := debug]), queries)
            == DebugContext(request, debug, settings["INTERNAL_IPS"], queries)
  {
    var call := Call([request], map["debug" := debug]);
    assert Resolve(DebugFunction, lookup, settings, [request], call.keywords, 0) == Success(request);
    assert Resolve(DebugFunction, lookup, settings, [request], call.keywords, 1) == Success(debug);
    assert Resolve(DebugFunction, lookup, settings, [request], call.keywords, 2) == Success(settings["INTERNAL_IPS"]);
    UnsettingFacts.WrapperOutcome(DebugFunction, lookup, settings, call);
    DebugCallReceived(lookup, settings, call);
  }

  /** `debug()` called without a request: as written, the binder hands
      `request` the first default, False, and the body runs on it; with the
      corrected lookup the missing request makes the call fail. */
  lemma DebugWithoutRequest(settings: map<string, Value>, queries: Value)
    requires "DEBUG" in settings && "INTERNAL_IPS" in settings
    ensures Debug(AsWritten, settings, Call([], map[]), queries)
            == DebugContext(VBool(false), settings["DEBUG"], settings["INTERNAL_IPS"], queries)
    ensures Debug(Aligned, settings, Call([], map[]), queries).Failure?
  {
    var call := Call([], map[]);
    assert Resolve(DebugFunction, AsWritten, settings, [], map[], 0) == Success(VBool(false));
    assert Resolve(DebugFunction, AsWritten, settings, [], map[], 1) == ReadSetting(settings, "DEBUG");
    assert Resolve(DebugFunction, AsWritten, settings, [], map[], 2) == ReadSetting(settings, "INTERNAL_IPS");
    UnsettingFacts.WrapperOutcome(DebugFunction, AsWritten, settings, call);
    DebugCallReceived(AsWritten, settings, call);
    assert Resolve(DebugFunction, Aligned, settings, [], map[], 0).Failure?;
    UnsettingFacts.WrapperOutcome(DebugFunction, Aligned, settings, call);
  }

  // ---------------------------------------------------------------------
  // static and media

  const StaticSignature := Signature(["request", "static_url"], Some([VNone]))
  const StaticConfig := ByDict([("STATIC_URL", VStr("static_url"))])
  const StaticFunction := Decorated(None, StaticSignature.names, StaticSignature.defaults,
    map[VStr("static_url") := SettingDetails("STATIC_URL", VStr("static_url"), Some(1), OverwriteSentinel)])

  /** The body of `static`: the single variable STATIC_URL. */
  function StaticContext(staticUrl: Value): (r: map<string, Value>)
    ensures r.Keys == {"STATIC_URL"} && r["STATIC_URL"] == staticUrl
  {
    map["STATIC_URL" := staticUrl]
  }

  /** Calling the decorated `static`. */
  function Static(lookup: DefaultLookup, settings: map<string, Value>, call: Call): Result<map<string, Value>> {
    var forwarded :- Wrapper(StaticFunction, lookup, settings, call);
    var params :- Receive(StaticSignature, false, forwarded);
    assert "static_url" == StaticSignature.names[1];
    Success(StaticContext(params["static_url"]))
  }

  lemma StaticDecoration()
    ensures Decorate(StaticConfig, StaticSignature, false) == Success(StaticFunction)
  {
  }

  /** A successful `_wrapper` call of `static` reaches its body with every
      parameter bound to its resolved value. */
  lemma StaticCallReceived(lookup: DefaultLookup, settings: map<string, Value>, call: Call)
    requires forall k :: k in call.keywords ==> k in StaticSignature.names
    requires Wrapper(StaticFunction, lookup, settings, call).Success?
    ensures var params := Receive(StaticSignature, false, Wrapper(StaticFunction, lookup, settings, call).value);
            && params.Success?
            && forall j :: 0 <= j < 2 ==>
                 && StaticSignature.names[j] in params.value
                 && Resolve(StaticFunction, lookup, settings, CallArgs(StaticFunction, call), call.keywords, j).Success?
                 && params.value[StaticSignature.names[j]]
                    == Resolve(StaticFunction, lookup, settings, CallArgs(StaticFunction, call), call.keywords, j).value
  {
    assert StaticFunction.WellFormed() && StaticSignature.Valid();
    assert [] + StaticFunction.argNames == StaticSignature.names;
    UnsettingFacts.WrapperThenReceive(StaticFunction, lookup, settings, StaticSignature, false, call);
  }

  /** `static(request)` is `{'STATIC_URL': settings.STATIC_URL}`. */
  lemma StaticReadsSetting(lookup: DefaultLookup, settings: map<string, Value>, request: Value)
    ensures Static(lookup, settings, Call([request], map[]))
            == if "STATIC_URL" in settings then Success(map["STATIC_URL" := settings["STATIC_URL"]])
               else Failure(AttributeError("STATIC_URL"))
  {
    var call := Call([request], map[]);
    assert Resolve(StaticFunction, lookup, settings, [request], map[], 0) == Success(request);
    assert Resolve(StaticFunction, lookup, settings, [request], map[], 1) == ReadSetting(settings, "STATIC_URL");
    UnsettingFacts.WrapperOutcome(StaticFunction, lookup, settings, call);
    if Wrapper(StaticFunction, lookup, settings, call).Success? {
      StaticCallReceived(lookup, settings, call);
    }
  }

  const MediaSignature := Signature(["request", "media_url"], Some([VStr("")]))
  const MediaConfig := ByDict([("MEDIA_URL", VStr("media_url"))])
  const MediaFunction := Decorated(None, MediaSignature.names, MediaSignature.defaults,
    map[VStr("media_url") := SettingDetails("MEDIA_URL", VStr("media_url"), Some(1), OverwriteSentinel)])

  /** The body of `media`: the single variable MEDIA_URL. */
  function MediaContext(mediaUrl: Value): (r: map<string, Value>)
    ensures r.Keys == {"MEDIA_URL"} && r["MEDIA_URL"] == mediaUrl
  {
    map["MEDIA_URL" := mediaUrl]
  }

  /** Calling the decorated `media`. */
  function Media(lookup: DefaultLookup, settings: map<string, Value>, call: Call): Result<map<string, Value>> {
    var forwarded :- Wrapper(MediaFunction, lookup, settings, call);
    var params :- Receive(MediaSignature, false, forwarded);
    assert "media_url" == MediaSignature.names[1];
    Success(MediaContext(params["media_url"]))
  }

  lemma MediaDecoration()
    ensures Decorate(MediaConfig, MediaSignature, false) == Success(MediaFunction)
  {
  }

  /** A successful `_wrapper` call of `media` reaches its body with every
      parameter bound to its resolved value. */
  lemma MediaCallReceived(lookup: DefaultLookup, settings: map<string, Value>, call: Call)
    requires forall k :: k in call.keywords ==> k in MediaSignature.names
    requires Wrapper(MediaFunction, lookup, settings, call).Success?
    ensures var params := Receive(MediaSignature, false, Wrapper(MediaFunction, lookup, settings, call).value);
            && params.Success?
            && forall j :: 0 <= j < 2 ==>
                 && MediaSignature.names[j] in params.value
                 && Resolve(MediaFunction, lookup, settings, CallArgs(MediaFunction, call), call.keywords, j).Success?
                 && params.value[MediaSignature.names[j]]
                    == Resolve(MediaFunction, lookup, settings, CallArgs(MediaFunction, call), call.keywords, j).value
  {
    assert MediaFunction.WellFormed() && MediaSignature.Valid();
    assert [] + MediaFunction.argNames == MediaSignature.names;
    UnsettingFacts.WrapperThenReceive(MediaFunction, lookup, settings, MediaSignature, false, call);
  }

  /** `media(request)` is `{'MEDIA_URL': settings.MEDIA_URL}`. */
  lemma MediaReadsSetting(lookup: DefaultLookup, settings: map<string, Value>, request: Value)
    ensures Media(lookup, settings, Call([request], map[]))
            == if "MEDIA_URL" in settings then Success(map["MEDIA_URL" := settings["MEDIA_URL"]])
               else Failure(AttributeError("MEDIA_URL"))
  {
    var call := Call([request], map[]);
    assert Resolve(MediaFunction, lookup, settings, [request], map[], 0) == Success(request);
    assert Resolve(MediaFunction, lookup, settings, [request], map[], 1) == ReadSetting(settings, "MEDIA_URL");
    UnsettingFacts.WrapperOutcome(MediaFunction, lookup, settings, call);
    if Wrapper(MediaFunction, lookup, settings, call).Success? {
      MediaCallReceived(lookup, settings, call);
    }
  }

  /** A `media_url` passed positionally, other than the fallback trigger, is
      used as given whatever MEDIA_URL says. */
  lemma MediaPositionalOverridesSetting(lookup: DefaultLookup, settings: map<string, Value>, request: Value, mediaUrl: Value)
    requires mediaUrl != OverwriteSentinel
    ensures Media(lookup, settings, Call([request, mediaUrl], map[])) == Success(map["MEDIA_URL" := mediaUrl])
  {
    var call := Call([request, mediaUrl], map[]);
    assert Resolve(MediaFunction, lookup, settings, call.positional, map[], 0) == Success(request);
    assert Resolve(MediaFunction, lookup, settings, call.positional, map[], 1) == Success(mediaUrl);
    UnsettingFacts.WrapperOutcome(MediaFunction, lookup, settings, call);
    MediaCallReceived(lookup, settings, call);
  }

  // ---------------------------------------------------------------------
  // request

  /** The `request` processor: the request itself, under `request`. */
  function RequestContext(request: Value): (r: map<string, Value>)
    ensures r.Keys == {"request"} && r["request"] == request
  {
    map["request" := request]
  }
}

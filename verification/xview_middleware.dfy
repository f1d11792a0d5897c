/** `XViewMiddleware.process_view`: answers an internal HEAD request with an
    `X-View` header naming the view function, for the documentation tools.
    It is a method decorated with `uses_settings`, so `internal_ips` comes
    from the INTERNAL_IPS setting unless passed, and the receiver `self` is
    bound through the method path of the binder.
 */
module XView {
  import opened Values
  import opened Unsetting
  import UnsettingFacts

  /** An HTTP response, seen only through its headers. */
  datatype Response = Response(headers: map<string, string>)

  const ProcessViewSignature :=
    Signature(["self", "request", "view_func", "view_args", "view_kwargs", "internal_ips"], Some([VSeq([])]))
  const ProcessViewConfig := ByDict([("INTERNAL_IPS", VStr("internal_ips"))])

  /** `process_view` after decoration inside the class body. */
  const ProcessViewFunction :=
    Decorated(Some("self"), ["request", "view_func", "view_args", "view_kwargs", "internal_ips"], ProcessViewSignature.defaults,
              map[VStr("internal_ips") := SettingDetails("INTERNAL_IPS", VStr("internal_ips"), Some(4), OverwriteSentinel)])

  /** `hasattr(request, 'user')`: only a request that went through the
      authentication middleware has a user. */
  predicate HasUser(request: Value) {
    request.VObj? && request.obj.Request? && request.obj.user.Some?
  }

  /** `"%s.%s" % (view_func.__module__, view_func.__name__)`. */
  function ViewName(viewFunc: Value): (r: Result<string>)
    ensures r.Success? <==> viewFunc.VObj? && viewFunc.obj.ViewFunction?
    ensures r.Success? ==> r.value == viewFunc.obj.moduleName + "." + viewFunc.obj.name
  {
    if viewFunc.VObj? && viewFunc.obj.ViewFunction? then Success(viewFunc.obj.moduleName + "." + viewFunc.obj.name)
    else Failure(AttributeError("__module__"))
  }

  /** The body of `process_view`. Without a user the assertion fails; a
      request that is not HEAD gets None; a HEAD request gets a response
      carrying the `X-View` header when its address is internal or, failing
      that, when its user is an active staff member, and None otherwise. */
  function ProcessViewBody(request: Value, viewFunc: Value, internalIps: Value): (r: Result<Option<Response>>)
    ensures !HasUser(request) ==> r.Failure? && r.error.AssertionError?
    ensures HasUser(request) && request.obj.verb != "HEAD" ==> r == Success(None)
    ensures HasUser(request) && request.obj.verb == "HEAD" && Contains(internalIps, RemoteAddr(request).value) == Success(true)
            ==> r == (match ViewName(viewFunc)
                      case Success(name) => Success(Some(Response(map["X-View" := name])))
                      case Failure(e) => Failure(e))
    ensures HasUser(request) && request.obj.verb == "HEAD" && Contains(internalIps, RemoteAddr(request).value) == Success(false)
            ==> r == (if request.obj.user.value.isActive && request.obj.user.value.isStaff then
                        match ViewName(viewFunc)
                        case Success(name) => Success(Some(Response(map["X-View" := name])))
                        case Failure(e) => Failure(e)
                      else Success(None))
    ensures HasUser(request) && request.obj.verb == "HEAD" && Contains(internalIps, RemoteAddr(request).value).Failure?
            ==> r == Failure(Contains(internalIps, RemoteAddr(request).value).error)
    ensures r.Success? && r.value.Some? ==>
              && HasUser(request) && request.obj.verb == "HEAD"
              && r.value.value.headers.Keys == {"X-View"}
              && ViewName(viewFunc) == Success(r.value.value.headers["X-View"])
  {
    if !HasUser(request) then
      Failure(AssertionError("The XView middleware requires authentication middleware to be installed."))
    else if request.obj.verb != "HEAD" then Success(None)
    else
      var addr := RemoteAddr(request).value;
      var internal :- Contains(internalIps, addr);
      var user := request.obj.user.value;
      if internal || (user.isActive && user.isStaff) then
        var name :- ViewName(viewFunc);
        Success(Some(Response(map["X-View" := name])))
      else Success(None)
  }

  /** Calling the decorated `process_view` as a method: the first positional
      argument is the middleware instance; `lookup` selects how the binder
      finds the default of a parameter nobody supplied. */
  function ProcessView(lookup: DefaultLookup, settings: map<string, Value>, call: Call): Result<Option<Response>> {
    var forwarded :- Wrapper(ProcessViewFunction, lookup, settings, call);
    var params :- Receive(ProcessViewSignature, false, forwarded);
    assert "request" == ProcessViewSignature.names[1] && "view_func" == ProcessViewSignature.names[2]
      && "internal_ips" == ProcessViewSignature.names[5];
    ProcessViewBody(params["request"], params["view_func"], params["internal_ips"])
  }

  /** Decorating `process_view` inside the class body builds exactly this
      table and pops `self` as the receiver. */
  lemma ProcessViewDecoration()
    ensures Decorate(ProcessViewConfig, ProcessViewSignature, true) == Success(ProcessViewFunction)
  {
    assert ProcessViewSignature.names[1..] == ProcessViewFunction.argNames;
  }

  /** A successful `_wrapper` call of `process_view` reaches its body with
      the instance bound to `self` and every other parameter bound to its
      resolved value. */
  lemma ProcessViewCallReceived(lookup: DefaultLookup, settings: map<string, Value>, call: Call)
    requires forall k :: k in call.keywords ==> k in ProcessViewSignature.names
    requires Wrapper(ProcessViewFunction, lookup, settings, call).Success?
    ensures var params := Receive(ProcessViewSignature, false, Wrapper(ProcessViewFunction, lookup, settings, call).value);
            && params.Success?
            && "self" in params.value && params.value["self"] == call.positional[0]
            && forall j :: 0 <= j < 5 ==>
                 && ProcessViewSignature.names[j + 1] in params.value
                 && Resolve(ProcessViewFunction, lookup, settings, CallArgs(ProcessViewFunction, call), call.keywords, j).Success?
                 && params.value[ProcessViewSignature.names[j + 1]]
                    == Resolve(ProcessViewFunction, lookup, settings, CallArgs(ProcessViewFunction, call), call.keywords, j).value
  {
    assert ProcessViewFunction.WellFormed() && ProcessViewSignature.Valid();
    assert ["self"] + ProcessViewFunction.argNames == ProcessViewSignature.names;
    UnsettingFacts.WrapperThenReceive(ProcessViewFunction, lookup, settings, ProcessViewSignature, false, call);
  }

  /** Called with the instance, the request, the view and the view
      arguments only, `process_view` decides with the current INTERNAL_IPS
      setting, and raises AttributeError when it is not defined. */
  lemma ProcessViewReadsSetting(lookup: DefaultLookup, settings: map<string, Value>, self: Value, request: Value, viewFunc: Value,
                                viewArgs: Value, viewKwargs: Value)
    ensures ProcessView(lookup, settings, Call([self, request, viewFunc, viewArgs, viewKwargs], map[]))
            == if "INTERNAL_IPS" in settings then ProcessViewBody(request, viewFunc, settings["INTERNAL_IPS"])
               else Failure(AttributeError("INTERNAL_IPS"))
  {
    var call := Call([self, request, viewFunc, viewArgs, viewKwargs], map[]);
    var args := [request, viewFunc, viewArgs, viewKwargs];
    assert CallArgs(ProcessViewFunction, call) == args;
    assert Resolve(ProcessViewFunction, lookup, settings, args, map[], 0) == Success(request);
    assert Resolve(ProcessViewFunction, lookup, settings, args, map[], 1) == Success(viewFunc);
    assert Resolve(ProcessViewFunction, lookup, settings, args, map[], 2) == Success(viewArgs);
    assert Resolve(ProcessViewFunction, lookup, settings, args, map[], 3) == Success(viewKwargs);
    assert Resolve(ProcessViewFunction, lookup, settings, args, map[], 4) == ReadSetting(settings, "INTERNAL_IPS");
    UnsettingFacts.WrapperOutcome(ProcessViewFunction, lookup, settings, call);
    if Wrapper(ProcessViewFunction, lookup, settings, call).Success? {
      ProcessViewCallReceived(lookup, settings, call);
    }
  }

  /** A process_view call without positional arguments has no receiver to
      pop and raises IndexError before anything else. */
  lemma ProcessViewNeedsReceiver(lookup: DefaultLookup, settings: map<string, Value>, keywords: map<string, Value>)
    ensures ProcessView(lookup, settings, Call([], keywords)) == Failure(IndexError("pop from empty list"))
  {
  }
}

/** The SMTP email backend. Its constructor is decorated with
    `uses_settings`, so the server, credentials and security options come
    from the EMAIL_* settings unless passed. The network is a parameter: a
    `Server` says which steps of opening a connection the server refuses, a
    sequence of booleans says which messages it accepts, and a
    `QuitOutcome` says how it answers QUIT.
 */
module Smtp {
  import opened Values
  import opened Unsetting
  import UnsettingFacts

  // ---------------------------------------------------------------------
  // Construction

  /** The parameters of `__init__` after `self`, in declaration order. */
  const InitArgNames := ["host", "port", "username", "password", "use_tls", "fail_silently", "use_ssl",
                         "email_host", "email_port", "email_host_user", "email_host_password",
                         "email_use_tls", "email_use_ssl"]

  /** The declared defaults of `__init__`, one per parameter after `self`. */
  const InitDefaults := [VNone, VNone, VNone, VNone, VNone, VBool(false), VNone,
                         VStr("localhost"), VInt(25), VStr(""), VStr(""), VBool(false), VBool(false)]

  const InitSignature := Signature(["self"] + InitArgNames, Some(InitDefaults))

  const InitConfig := ByDict([("EMAIL_HOST", VStr("email_host")), ("EMAIL_PORT", VStr("email_port")),
                              ("EMAIL_HOST_USER", VStr("email_host_user")),
                              ("EMAIL_HOST_PASSWORD", VStr("email_host_password")),
                              ("EMAIL_USE_TLS", VStr("email_use_tls")), ("EMAIL_USE_SSL", VStr("email_use_ssl"))])

  /** `__init__` after decoration inside the class body. */
  const InitFunction := Decorated(Some("self"), InitArgNames, Some(InitDefaults),
    map[VStr("email_host") := SettingDetails("EMAIL_HOST", VStr("email_host"), Some(7), OverwriteSentinel),
        VStr("email_port") := SettingDetails("EMAIL_PORT", VStr("email_port"), Some(8), OverwriteSentinel),
        VStr("email_host_user") := SettingDetails("EMAIL_HOST_USER", VStr("email_host_user"), Some(9), OverwriteSentinel),
        VStr("email_host_password") :=
          SettingDetails("EMAIL_HOST_PASSWORD", VStr("email_host_password"), Some(10), OverwriteSentinel),
        VStr("email_use_tls") := SettingDetails("EMAIL_USE_TLS", VStr("email_use_tls"), Some(11), OverwriteSentinel),
        VStr("email_use_ssl") := SettingDetails("EMAIL_USE_SSL", VStr("email_use_ssl"), Some(12), OverwriteSentinel)])

  /** An open SMTP connection: whether it was opened over SSL, whether
      STARTTLS succeeded on it, and whether LOGIN succeeded on it. */
  datatype Connection = Connection(ssl: bool, tls: bool, authenticated: bool)

  /** The state of an `EmailBackend` instance. */
  datatype Backend = Backend(host: Value, port: Value, username: Value, password: Value,
                             useTls: Value, useSsl: Value, failSilently: Value,
                             connection: Option<Connection>)

  /** Python's `a or b`. */
  function Or(a: Value, b: Value): Value {
    if Truthy(a) then a else b
  }

  /** `fallback if v is None else v`. */
  function IfNone(v: Value, fallback: Value): Value {
    if v == VNone then fallback else v
  }

  /** The body of `__init__`: `host` and `port` fall back to the setting
      when falsy, the other four when None; SSL and TLS together raise
      ValueError; a new backend has no connection. */
  function InitBody(host: Value, port: Value, username: Value, password: Value, useTls: Value,
                    failSilently: Value, useSsl: Value, emailHost: Value, emailPort: Value,
                    emailHostUser: Value, emailHostPassword: Value, emailUseTls: Value, emailUseSsl: Value)
    : (r: Result<Backend>)
    ensures r.Failure? <==> Truthy(IfNone(useSsl, emailUseSsl)) && Truthy(IfNone(useTls, emailUseTls))
    ensures r.Failure? ==> r.error.ValueError?
    ensures r.Success? ==>
              && r.value.connection == None
              && r.value.failSilently == failSilently
              && (Truthy(host) ==> r.value.host == host) && (!Truthy(host) ==> r.value.host == emailHost)
              && (Truthy(port) ==> r.value.port == port) && (!Truthy(port) ==> r.value.port == emailPort)
              && (username != VNone ==> r.value.username == username)
              && (username == VNone ==> r.value.username == emailHostUser)
              && (password != VNone ==> r.value.password == password)
              && (password == VNone ==> r.value.password == emailHostPassword)
              && (useTls != VNone ==> r.value.useTls == useTls) && (useTls == VNone ==> r.value.useTls == emailUseTls)
              && (useSsl != VNone ==> r.value.useSsl == useSsl) && (useSsl == VNone ==> r.value.useSsl == emailUseSsl)
              && !(Truthy(r.value.useSsl) && Truthy(r.value.useTls))
  {
    var b := Backend(Or(host, emailHost), Or(port, emailPort), IfNone(username, emailHostUser),
                     IfNone(password, emailHostPassword), IfNone(useTls, emailUseTls), IfNone(useSsl, emailUseSsl),
                     failSilently, None);
    if Truthy(b.useSsl) && Truthy(b.useTls) then
      Failure(ValueError("EMAIL_USE_TLS/EMAIL_USE_SSL are mutually exclusive, so only set one of those settings to True."))
    else Success(b)
  }

  /** `EmailBackend(...)`: the first positional argument is the new
      instance; `__init__` takes `**kwargs`, so unknown keywords are
      accepted. The binder reads defaults as `lookup` says. */
  function Construct(lookup: DefaultLookup, settings: map<string, Value>, call: Call): Result<Backend> {
    var forwarded :- Wrapper(InitFunction, lookup, settings, call);
    var p :- Receive(InitSignature, true, forwarded);
    assert |InitSignature.names| == 14;
    assert forall j :: 0 <= j < 13 ==> InitSignature.names[j + 1] == InitArgNames[j];
    assert forall j :: 0 <= j < 13 ==> InitArgNames[j] in p;
    var a := InitArgNames;
    InitBody(p[a[0]], p[a[1]], p[a[2]], p[a[3]], p[a[4]], p[a[5]], p[a[6]],
             p[a[7]], p[a[8]], p[a[9]], p[a[10]], p[a[11]], p[a[12]])
  }

  // Where each configurable parameter of `__init__` sits among the
  // argument names, one lemma each to keep every proof small.

  lemma EmailHostIndex()
    ensures IndexOf(InitArgNames, VStr("email_host")) == Some(7)
  {
    UnsettingFacts.IndexOfIs(InitArgNames, VStr("email_host"), 7);
  }

  lemma EmailPortIndex()
    ensures IndexOf(InitArgNames, VStr("email_port")) == Some(8)
  {
    UnsettingFacts.IndexOfIs(InitArgNames, VStr("email_port"), 8);
  }

  lemma EmailHostUserIndex()
    ensures IndexOf(InitArgNames, VStr("email_host_user")) == Some(9)
  {
    UnsettingFacts.IndexOfIs(InitArgNames, VStr("email_host_user"), 9);
  }

  lemma EmailHostPasswordIndex()
    ensures IndexOf(InitArgNames, VStr("email_host_password")) == Some(10)
  {
    UnsettingFacts.IndexOfIs(InitArgNames, VStr("email_host_password"), 10);
  }

  lemma EmailUseTlsIndex()
    ensures IndexOf(InitArgNames, VStr("email_use_tls")) == Some(11)
  {
    UnsettingFacts.IndexOfIs(InitArgNames, VStr("email_use_tls"), 11);
  }

  lemma EmailUseSslIndex()
    ensures IndexOf(InitArgNames, VStr("email_use_ssl")) == Some(12)
  {
    UnsettingFacts.IndexOfIs(InitArgNames, VStr("email_use_ssl"), 12);
  }

  /** Decorating `__init__` inside the class body builds exactly this table
      and pops `self` as the receiver. */
  lemma InitDecoration()
    ensures Decorate(InitConfig, InitSignature, true) == Success(InitFunction)
  {
    assert InitSignature.names[1..] == InitArgNames;
    InitTable();
  }

  /** The six entries of the settings dict give one row each. */
  lemma InitTable()
    ensures BuildTable(InitConfig.entries, InitArgNames, map[]) == Success(InitFunction.table)
  {
    EmailHostIndex();
    EmailPortIndex();
    EmailHostUserIndex();
    EmailHostPasswordIndex();
    EmailUseTlsIndex();
    EmailUseSslIndex();
  }

  /** For `EmailBackend()` the seven plain parameters resolve to their
      declared defaults. */
  lemma InitResolvesDefaults(settings: map<string, Value>, self: Value)
    ensures forall j :: 0 <= j < 7 ==> Resolve(InitFunction, Aligned, settings, [], map[], j) == Success(InitDefaults[j])
  {
    forall j | 0 <= j < 7 ensures Resolve(InitFunction, Aligned, settings, [], map[], j) == Success(InitDefaults[j]) {
      assert VStr(InitArgNames[j]) !in InitFunction.table;
    }
  }

  /** Every setting `__init__` reads is defined. */
  predicate HasEmailSettings(settings: map<string, Value>) {
    && "EMAIL_HOST" in settings && "EMAIL_PORT" in settings && "EMAIL_HOST_USER" in settings
    && "EMAIL_HOST_PASSWORD" in settings && "EMAIL_USE_TLS" in settings && "EMAIL_USE_SSL" in settings
  }

  /** For `EmailBackend()` the first three `email_*` parameters resolve to
      their settings (a setting whose value is the fallback trigger is read
      again and gives the same value). */
  lemma InitResolvesServerSettings(lookup: DefaultLookup, settings: map<string, Value>)
    ensures Resolve(InitFunction, lookup, settings, [], map[], 7) == ReadSetting(settings, "EMAIL_HOST")
    ensures Resolve(InitFunction, lookup, settings, [], map[], 8) == ReadSetting(settings, "EMAIL_PORT")
    ensures Resolve(InitFunction, lookup, settings, [], map[], 9) == ReadSetting(settings, "EMAIL_HOST_USER")
  {
  }

  /** For `EmailBackend()` the last three `email_*` parameters resolve to
      their settings. */
  lemma InitResolvesSecuritySettings(lookup: DefaultLookup, settings: map<string, Value>)
    ensures Resolve(InitFunction, lookup, settings, [], map[], 10) == ReadSetting(settings, "EMAIL_HOST_PASSWORD")
    ensures Resolve(InitFunction, lookup, settings, [], map[], 11) == ReadSetting(settings, "EMAIL_USE_TLS")
    ensures Resolve(InitFunction, lookup, settings, [], map[], 12) == ReadSetting(settings, "EMAIL_USE_SSL")
  {
  }

  /** A successful `_wrapper` call of `__init__` reaches its body with
      every parameter bound to its resolved value. */
  lemma InitCallReceived(lookup: DefaultLookup, settings: map<string, Value>, call: Call)
    requires CallArgs(InitFunction, call) == [] || |call.positional| > 1
    requires Wrapper(InitFunction, lookup, settings, call).Success?
    ensures var params := Receive(InitSignature, true, Wrapper(InitFunction, lookup, settings, call).value);
            && params.Success?
            && forall j :: 0 <= j < 13 ==>
                 && InitArgNames[j] in params.value
                 && Resolve(InitFunction, lookup, settings, CallArgs(InitFunction, call), call.keywords, j).Success?
                 && params.value[InitArgNames[j]]
                    == Resolve(InitFunction, lookup, settings, CallArgs(InitFunction, call), call.keywords, j).value
  {
    assert InitFunction.WellFormed() && InitSignature.Valid();
    UnsettingFacts.WrapperThenReceive(InitFunction, lookup, settings, InitSignature, true, call);
  }

  /** `EmailBackend()` with no arguments hands `__init__` the declared
      defaults for the seven plain parameters and the current settings for
      the six `email_*` ones. */
  lemma ConstructOmittedArguments(settings: map<string, Value>, self: Value)
    requires HasEmailSettings(settings)
    ensures Construct(Aligned, settings, Call([self], map[]))
            == InitBody(VNone, VNone, VNone, VNone, VNone, VBool(false), VNone,
                        settings["EMAIL_HOST"], settings["EMAIL_PORT"], settings["EMAIL_HOST_USER"],
                        settings["EMAIL_HOST_PASSWORD"], settings["EMAIL_USE_TLS"], settings["EMAIL_USE_SSL"])
  {
    var call := Call([self], map[]);
    assert CallArgs(InitFunction, call) == [];
    InitResolvesDefaults(settings, self);
    InitResolvesServerSettings(Aligned, settings);
    InitResolvesSecuritySettings(Aligned, settings);
    UnsettingFacts.WrapperOutcome(InitFunction, Aligned, settings, call);
    InitCallReceived(Aligned, settings, call);
  }

  /** `EmailBackend()` with no arguments and a missing setting raises
      AttributeError naming the first missing one in declaration order. */
  lemma ConstructMissingSetting(settings: map<string, Value>, self: Value)
    ensures !HasEmailSettings(settings) ==>
              Construct(Aligned, settings, Call([self], map[])).Failure?
              && Construct(Aligned, settings, Call([self], map[])).error.AttributeError?
    ensures "EMAIL_HOST" !in settings ==> Construct(Aligned, settings, Call([self], map[])) == Failure(AttributeError("EMAIL_HOST"))
  {
    var call := Call([self], map[]);
    assert CallArgs(InitFunction, call) == [];
    InitResolvesDefaults(settings, self);
    InitResolvesServerSettings(Aligned, settings);
    InitResolvesSecuritySettings(Aligned, settings);
    UnsettingFacts.WrapperOutcome(InitFunction, Aligned, settings, call);
  }

  /** `EmailBackend()` with every setting defined: each option comes from
      its EMAIL_* setting, `fail_silently` is False, there is no connection
      yet, and SSL together with TLS raises ValueError. */
  lemma ConstructReadsSettings(settings: map<string, Value>, self: Value)
    requires HasEmailSettings(settings)
    ensures Construct(Aligned, settings, Call([self], map[])).Success?
            <==> !(Truthy(settings["EMAIL_USE_SSL"]) && Truthy(settings["EMAIL_USE_TLS"]))
    ensures Construct(Aligned, settings, Call([self], map[])).Success? ==>
              Construct(Aligned, settings, Call([self], map[])).value
              == Backend(settings["EMAIL_HOST"], settings["EMAIL_PORT"], settings["EMAIL_HOST_USER"],
                         settings["EMAIL_HOST_PASSWORD"], settings["EMAIL_USE_TLS"], settings["EMAIL_USE_SSL"],
                         VBool(false), None)
  {
    ConstructOmittedArguments(settings, self);
  }

  /** As written, the binder gives the seven plain parameters of
      `EmailBackend()` the defaults read backwards from the end of the
      tuple: `host` gets None, and `port` to `use_ssl` get the defaults
      declared for `email_use_ssl` back to `email_host`. */
  lemma InitResolvesDefaultsAsWritten(settings: map<string, Value>)
    ensures Resolve(InitFunction, AsWritten, settings, [], map[], 0) == Success(InitDefaults[0])
    ensures forall j :: 1 <= j < 7 ==> Resolve(InitFunction, AsWritten, settings, [], map[], j) == Success(InitDefaults[13 - j])
  {
    assert VStr(InitArgNames[0]) !in InitFunction.table;
    forall j | 1 <= j < 7 ensures Resolve(InitFunction, AsWritten, settings, [], map[], j) == Success(InitDefaults[13 - j]) {
      assert VStr(InitArgNames[j]) !in InitFunction.table;
    }
  }

  /** The consequence of the misaligned default lookup for `EmailBackend()`
      with every setting defined: the username becomes False, the password
      and `use_tls` the empty string, `use_ssl` the string 'localhost' and
      `fail_silently` the number 25, so the EMAIL_HOST_USER,
      EMAIL_HOST_PASSWORD, EMAIL_USE_TLS and EMAIL_USE_SSL settings are
      ignored, every connection is opened over SSL and every error is
      swallowed. */
  lemma AsWrittenConstructIgnoresSettings(settings: map<string, Value>, self: Value)
    requires HasEmailSettings(settings)
    ensures Construct(AsWritten, settings, Call([self], map[]))
            == Success(Backend(settings["EMAIL_HOST"], settings["EMAIL_PORT"], VBool(false), VStr(""), VStr(""),
                               VStr("localhost"), VInt(25), None))
  {
    AsWrittenOmittedArguments(settings, self);
  }

  /** As written, `EmailBackend()` hands `__init__` the misread defaults
      for the seven plain parameters and the current settings for the six
      `email_*` ones. */
  lemma AsWrittenOmittedArguments(settings: map<string, Value>, self: Value)
    requires HasEmailSettings(settings)
    ensures Construct(AsWritten, settings, Call([self], map[]))
            == InitBody(VNone, VBool(false), VBool(false), VStr(""), VStr(""), VInt(25), VStr("localhost"),
                        settings["EMAIL_HOST"], settings["EMAIL_PORT"], settings["EMAIL_HOST_USER"],
                        settings["EMAIL_HOST_PASSWORD"], settings["EMAIL_USE_TLS"], settings["EMAIL_USE_SSL"])
  {
    var call := Call([self], map[]);
    assert CallArgs(InitFunction, call) == [];
    InitResolvesDefaultsAsWritten(settings);
    InitResolvesServerSettings(AsWritten, settings);
    InitResolvesSecuritySettings(AsWritten, settings);
    UnsettingFacts.WrapperOutcome(InitFunction, AsWritten, settings, call);
    InitCallReceived(AsWritten, settings, call);
  }

  // ---------------------------------------------------------------------
  // The connection

  /** What the server does when a connection is opened: refuse the TCP or
      SSL connection, refuse the EHLO/STARTTLS exchange, refuse LOGIN. */
  datatype Server = Server(refusesConnection: bool, refusesStartTls: bool, refusesLogin: bool)

  /** How the server answers QUIT: normally, with an SSL error or a
      disconnection (after which the socket is just closed), or with any
      other error. */
  datatype QuitOutcome = QuitOk | QuitDisconnected | QuitFault

  /** What a method call left in the backend, and what it returned or
      raised. */
  datatype Step<T> = Step(backend: Backend, result: Result<T>)

  /** The `except:` clause of `open`: re-raise unless failing silently, in
      which case `open` returns None with whatever connection was made. */
  function OpenFailed(b: Backend, stage: string): Step<Value> {
    if Truthy(b.failSilently) then Step(b, Success(VNone)) else Step(b, Failure(SmtpError(stage)))
  }

  /** The connection `open` makes when the server refuses nothing: SSL when
      `use_ssl`, otherwise STARTTLS when `use_tls`, and LOGIN when both
      the username and the password are non-empty. */
  function Negotiated(b: Backend): Connection {
    var ssl := Truthy(b.useSsl);
    Connection(ssl, !ssl && Truthy(b.useTls), Truthy(b.username) && Truthy(b.password))
  }

  /** The server refuses one of the steps `open` takes for this backend:
      the connection itself, STARTTLS when it is attempted, or LOGIN when
      there are credentials. */
  predicate Refuses(b: Backend, server: Server) {
    || server.refusesConnection
    || (Negotiated(b).tls && server.refusesStartTls)
    || (Negotiated(b).authenticated && server.refusesLogin)
  }

  /** `open`: nothing to do (False) when a connection exists; otherwise
      connect, secure and log in, returning True. A refused step raises, or
      returns None when failing silently; the connection object already
      made by then stays in place. */
  function Open(b: Backend, server: Server): (r: Step<Value>)
    ensures b.connection.Some? ==> r == Step(b, Success(VBool(false)))
    ensures r.backend.(connection := b.connection) == b
    ensures r.result == Success(VBool(true)) ==> b.connection.None? && r.backend.connection == Some(Negotiated(b))
    ensures r.result == Success(VBool(true)) <==> b.connection.None? && !Refuses(b, server)
    ensures b.connection.None? && Refuses(b, server) ==>
              && (r.result == Success(VNone) <==> Truthy(b.failSilently))
              && (r.result.Failure? <==> !Truthy(b.failSilently))
    ensures r.result.Failure? ==> !Truthy(b.failSilently) && r.result.error.SmtpError?
    ensures r.result == Success(VNone) ==> Truthy(b.failSilently)
    ensures b.connection.None? && server.refusesConnection ==> r.backend == b
    ensures b.connection.None? && !server.refusesConnection && Negotiated(b).tls && server.refusesStartTls
            ==> r.backend.connection == Some(Connection(false, false, false))
    ensures b.connection.None? && !server.refusesConnection && !(Negotiated(b).tls && server.refusesStartTls)
            && Negotiated(b).authenticated && server.refusesLogin
            ==> r.backend.connection == Some(Negotiated(b).(authenticated := false))
    ensures b.connection.None? && r.result != Success(VBool(true)) ==>
              r.backend.connection.None? || !r.backend.connection.value.authenticated
  {
    if b.connection.Some? then Step(b, Success(VBool(false)))
    else if server.refusesConnection then OpenFailed(b, "connect")
    else
      var target := Negotiated(b);
      if target.tls && server.refusesStartTls then
        OpenFailed(b.(connection := Some(Connection(target.ssl, false, false))), "starttls")
      else if target.authenticated && server.refusesLogin then
        OpenFailed(b.(connection := Some(Connection(target.ssl, target.tls, false))), "login")
      else Step(b.(connection := Some(target)), Success(VBool(true)))
  }

  /** `close`: quit the connection (a disconnection or SSL error during QUIT
      just closes the socket), re-raise any other error unless failing
      silently, and in every case forget the connection. */
  function Close(b: Backend, quit: QuitOutcome): (r: Step<Value>)
    ensures r.backend == b.(connection := None)
    ensures r.result.Failure? <==> b.connection.Some? && quit == QuitFault && !Truthy(b.failSilently)
    ensures r.result.Success? ==> r.result.value == VNone
  {
    var closed := b.(connection := None);
    if b.connection.None? then Step(b, Success(VNone))
    else match quit
      case QuitFault =>
        if Truthy(b.failSilently) then Step(closed, Success(VNone)) else Step(closed, Failure(SmtpError("quit")))
      case _ => Step(closed, Success(VNone))
  }

  /** Opening a connection twice does nothing the second time. */
  lemma OpenIdempotent(b: Backend, server: Server, again: Server)
    ensures Open(b, server).backend.connection.Some? ==>
              Open(Open(b, server).backend, again) == Step(Open(b, server).backend, Success(VBool(false)))
  {
  }

  /** Opening a fresh connection and closing it again, whatever the server
      does, leaves the backend as it was. */
  lemma OpenCloseRoundTrip(b: Backend, server: Server, quit: QuitOutcome)
    requires b.connection.None?
    ensures Close(Open(b, server).backend, quit).backend == b
  {
  }

  /** When the server refuses STARTTLS and the backend fails silently,
      `open` returns None and leaves a plain, unauthenticated connection in
      place, over which `send_messages` then sends. */
  lemma StartTlsFailureLeavesPlainConnection(b: Backend, server: Server)
    requires b.connection.None? && !server.refusesConnection && server.refusesStartTls
    requires !Truthy(b.useSsl) && Truthy(b.useTls) && Truthy(b.failSilently)
    ensures Open(b, server) == Step(b.(connection := Some(Connection(false, false, false))), Success(VNone))
  {
  }

  // ---------------------------------------------------------------------
  // Sending

  /** An email message, seen only through its recipients (to, cc and bcc
      together). */
  datatype Message = Message(recipients: seq<string>)

  /** A message with recipients that the server accepted. */
  predicate Delivered(m: Message, accepted: bool) {
    m.recipients != [] && accepted
  }

  /** A message with recipients that the server refused. */
  predicate Refused(m: Message, accepted: bool) {
    m.recipients != [] && !accepted
  }

  /** `_send`: False for a message without recipients; True once the server
      accepted it; a refusal raises unless failing silently, when it is
      False. */
  function Send(b: Backend, m: Message, accepted: bool): (r: Result<bool>)
    ensures r == Success(true) <==> Delivered(m, accepted)
    ensures r.Failure? <==> Refused(m, accepted) && !Truthy(b.failSilently)
    ensures r.Failure? ==> r.error == SmtpError("sendmail")
  {
    if m.recipients == [] then Success(false)
    else if !accepted then
      if Truthy(b.failSilently) then Success(false) else Failure(SmtpError("sendmail"))
    else Success(true)
  }

  /** The number of messages delivered, counted from the front. */
  function SentCount(msgs: seq<Message>, accepted: seq<bool>): (n: nat)
    requires |accepted| == |msgs|
    ensures n <= |msgs|
    ensures n == |msgs| <==> forall i :: 0 <= i < |msgs| ==> Delivered(msgs[i], accepted[i])
    decreases |msgs|
  {
    if msgs == [] then 0
    else SentCount(msgs[..|msgs| - 1], accepted[..|msgs| - 1]) + (if Delivered(msgs[|msgs| - 1], accepted[|msgs| - 1]) then 1 else 0)
  }

  /** Some message is refused and the backend does not fail silently, so
      the loop of `send_messages` raises. */
  predicate LoopRaises(b: Backend, msgs: seq<Message>, accepted: seq<bool>)
    requires |accepted| == |msgs|
  {
    !Truthy(b.failSilently) && exists i :: 0 <= i < |msgs| && Refused(msgs[i], accepted[i])
  }

  /** The loop of `send_messages`: `_send` each message in turn, counting
      the ones sent; the first refusal that is not silenced ends the loop
      with its exception. */
  method SendAll(b: Backend, msgs: seq<Message>, accepted: seq<bool>) returns (r: Result<nat>)
    requires |accepted| == |msgs|
    ensures r.Failure? <==> LoopRaises(b, msgs, accepted)
    ensures r.Failure? ==> r.error == SmtpError("sendmail")
    ensures r.Success? ==> r.value == SentCount(msgs, accepted)
  {
    var num := 0;
    var i := 0;
    while i < |msgs|
      invariant 0 <= i <= |msgs|
      invariant num == SentCount(msgs[..i], accepted[..i])
      invariant !Truthy(b.failSilently) ==> forall j :: 0 <= j < i ==> !Refused(msgs[j], accepted[j])
    {
      var sent := Send(b, msgs[i], accepted[i]);
      if sent.Failure? {
        return Failure(sent.error);
      }
      assert msgs[..i + 1][..i] == msgs[..i] && accepted[..i + 1][..i] == accepted[..i];
      if sent.value {
        num := num + 1;
      }
      i := i + 1;
    }
    assert msgs[..i] == msgs && accepted[..i] == accepted;
    return Success(num);
  }

  /** `send_messages`: None for an empty list or when `open` failed
      silently without a connection; otherwise the number of messages
      delivered. A connection opened here is closed afterwards; one that
      existed before is kept. An exception from `_send` leaves the
      connection open. */
  method SendMessages(b: Backend, msgs: seq<Message>, server: Server, accepted: seq<bool>, quit: QuitOutcome)
    returns (r: Step<Option<nat>>)
    requires |accepted| == |msgs|
    ensures msgs == [] ==> r == Step(b, Success(None))
    ensures msgs != [] && Open(b, server).result.Failure? ==> r == Step(Open(b, server).backend, Failure(Open(b, server).result.error))
    ensures msgs != [] && Open(b, server).result.Success? && Open(b, server).backend.connection.None?
            ==> r == Step(Open(b, server).backend, Success(None))
    ensures r.result.Success? && r.result.value.Some? ==> r.result.value.value == SentCount(msgs, accepted)
    ensures r.result.Failure? ==> !Truthy(b.failSilently)
    ensures b.connection.Some? ==> r.backend == b
    ensures b.connection.None? && Open(b, server).result == Success(VBool(true)) && r.result.Success? ==> r.backend.connection.None?
    ensures Open(b, server).result == Success(VNone) && Open(b, server).backend.connection.Some? && msgs != []
            ==> r == Step(Open(b, server).backend, Success(Some(SentCount(msgs, accepted))))
    ensures msgs != [] && Open(b, server).result.Success? && Open(b, server).backend.connection.Some? ==>
              if LoopRaises(b, msgs, accepted) then
                r == Step(Open(b, server).backend, Failure(SmtpError("sendmail")))
              else if Open(b, server).result == Success(VBool(true)) then
                r == Step(b, if quit == QuitFault && !Truthy(b.failSilently) then Failure(SmtpError("quit"))
                             else Success(Some(SentCount(msgs, accepted))))
              else
                r == Step(Open(b, server).backend, Success(Some(SentCount(msgs, accepted))))
  {
    if msgs == [] {
      return Step(b, Success(None));
    }
    var start := Open(b, server);
    if start.result.Failure? {
      return Step(start.backend, Failure(start.result.error));
    }
    if start.backend.connection.None? {
      return Step(start.backend, Success(None));
    }
    var sent := SendAll(start.backend, msgs, accepted);
    if sent.Failure? {
      return Step(start.backend, Failure(sent.error));
    }
    if start.result == Success(VBool(true)) {
      var closed := Close(start.backend, quit);
      if closed.result.Failure? {
        return Step(closed.backend, Failure(closed.result.error));
      }
      return Step(closed.backend, Success(Some(sent.value)));
    }
    return Step(start.backend, Success(Some(sent.value)));
  }
}

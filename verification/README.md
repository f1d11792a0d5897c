# A Dafny model of `uses_settings` and its first consumers

This project models the settings-decoupling decorator `uses_settings` from
`django/utils/unsetting.py`, together with three consumers:

- the template context processors `debug`, `static`, `media` and `request`;
- `XViewMiddleware.process_view`;
- the SMTP `EmailBackend`, whose constructor takes its server, credentials
  and security options from the EMAIL_* settings.

The decorator lets a function receive a setting as a parameter. An explicit
argument wins over the setting, and the setting wins over the declared
default. A value equal to the parameter's *fallback trigger* means "read the
setting anyway".

Modules:

- `Values` is the slice of Python the code observes: values, truthiness,
  subscription with negative positions, the `in` operator, and exceptions
  as a `Result`.
- `Unsetting` holds the decorator.
  - `SettingDetails` becomes `MakeDetails`.
  - Decoration becomes `Decorate`. It builds the binding table, and for a
    method it pops the receiver name.
  - `_wrapper` becomes `Wrapper`. It is a fold, `BindFrom`, over the
    argument names. Each name takes its positional slot, else the caller's
    keyword, else its setting, else its declared default, and then the
    fallback-trigger re-read applies.
  - `Receive` is how Python binds the forwarded call to the undecorated
    function.
- `UnsettingFacts` holds the lemmas about the decorator:
  - precedence, one lemma per source of a value;
  - the receiver of a method;
  - which keywords reach the function;
  - which positional arguments are forwarded;
  - a keyword round trip;
  - the end-to-end `WrapperThenReceive`.
- `ContextProcessors`, `XView` and `Smtp` decorate their functions through
  `Decorate`. Each proves that its function's table is the one the source
  builds, and that a call without the configurable arguments reads the
  current settings.

The settings object is a `map<string, Value>`. A missing setting is
Python's AttributeError. The network side of the SMTP backend is a set of
parameters:

- a `Server` says which step of opening a connection it refuses;
- a sequence of booleans says which messages it accepts;
- a `QuitOutcome` says how it answers QUIT.

The source's default lookup is wrong (see Findings). `DefaultLookup`
therefore selects between `AsWritten`, the code as it stands, and
`Aligned`, the evidently intended lookup. The decorated consumers take
the lookup as a parameter. Their lemmas hold for both lookups, except
those about defaults the decorator supplies:

- `ContextProcessors.DebugWithoutRequest` shows `debug()` under both
  lookups;
- the `Smtp` lemmas about `EmailBackend()` with its arguments omitted
  are stated for the corrected lookup;
- `Smtp.AsWrittenConstructIgnoresSettings` shows what `EmailBackend()`
  does with the code as written.

## Model

| member | source | states |
|---|---|---|
| Values.PyIndex | django/utils/unsetting.py:93-94 | a subscription succeeds exactly for positions from -len to len-1; a negative position counts from the end; anything else raises IndexError |
| Values.Contains | django/core/context_processors.py:40 | `x in c` is list membership for a list or tuple and substring search for two strings; any other container raises TypeError |
| Values.RemoteAddr | django/core/context_processors.py:40 | `request.META.get('REMOTE_ADDR')` is the stored address, or None when there is none; a value without META raises AttributeError |
| Unsetting.MakeDetails | django/utils/unsetting.py:14-27 | a list or tuple of details gives the parameter first and the fallback trigger second, defaulting to the sentinel; a bare value is the parameter alone; an empty list raises IndexError; the index is the parameter's position among the argument names |
| Unsetting.Decorate | django/utils/unsetting.py:44-70 | a method without parameters raises IndexError; the single-setting form raises TypeError without kw_arg and succeeds with one; a method's first parameter becomes the receiver and the rest the argument names; the single-setting form has exactly one row, for kw_arg |
| Unsetting.ReadSetting | django/utils/unsetting.py:90-91 | reading a setting succeeds exactly when it is defined, giving its value; otherwise it raises AttributeError naming the setting |
| Unsetting.IndexOf | django/utils/unsetting.py:24-27 | `arg_names.index(arg)`, with the ValueError of a missing name turned into None; its contract is carried by UnsettingFacts.IndexOfFirst and UnsettingFacts.IndexOfIs |
| Unsetting.BuildTable | django/utils/unsetting.py:61-64 | the dict form of the table, one `SettingDetails` per entry keyed by its parameter; see UnsettingFacts.BuildTableRows, BuildTableKeys, BuildTableLastEntry and DecorateDictRow |
| Unsetting.DeclaredDefault | django/utils/unsetting.py:92-94 | the default a parameter nobody supplied takes, either as written (`kw_defaults[len(args) - counter]`) or aligned to the trailing parameters; see UnsettingFacts.DefaultAsWritten, AsWrittenDefaultMisaligned, AsWrittenDefaultsReversed and AlignedDefaultIsDeclared |
| Unsetting.Supplied | django/utils/unsetting.py:84-94 | one parameter's value before the trigger test: its positional slot, else the caller's keyword, else its setting, else its default; see UnsettingFacts.PositionalSlotWins, KeywordUsed, SettingFillsOmitted and DefaultAsWritten |
| Unsetting.Resolve | django/utils/unsetting.py:84-98 | one parameter's final value, with a value equal to the fallback trigger replaced by the setting; see UnsettingFacts.TriggerRereadsSetting |
| Unsetting.BindFrom | django/utils/unsetting.py:82-98 | the loop over the argument names as a fold; see UnsettingFacts.BindFromOutcome, BindFromBinds, BindFromKeeps and BindFromMaxArgsIndex |
| Unsetting.Wrapper | django/utils/unsetting.py:72-102 | `_wrapper`: pop the receiver, bind every argument name, forward the call; see UnsettingFacts.WrapperOutcome, WrapperBindsNames, WrapperKeywords, WrapperForwardsPositional, MethodReceiver, KeywordRoundTrip and WrapperThenReceive |
| Unsetting.Receive | django/utils/unsetting.py:102 | when the undecorated function is entered, every one of its parameters has a value |
| Unsetting.ReceiveFrom | django/utils/unsetting.py:102 | binding the forwarded call parameter by parameter keeps every earlier binding with its value unless a later parameter has the same name; it adds no key except the remaining parameters; on success every remaining parameter has a value |
| UnsettingFacts.IndexOfFirst | django/utils/unsetting.py:24-27 | `arg_names.index(arg)` is the first position holding arg, and None exactly when arg is not an argument name |
| UnsettingFacts.IndexOfIs | django/utils/unsetting.py:24-27 | the first position holding arg is the index recorded for it |
| UnsettingFacts.BuildTableRows | django/utils/unsetting.py:61-64 | the dict form succeeds exactly when no entry is an empty list, and then every row is keyed by its own parameter with that parameter's index |
| UnsettingFacts.BuildTableKeys | django/utils/unsetting.py:61-64 | the rows are keyed by exactly the entries' parameters, besides rows already present; a present row that no entry names is kept |
| UnsettingFacts.BuildTableLastEntry | django/utils/unsetting.py:61-64 | the row for a parameter is the one made by the last entry naming it, so the iteration order decides between two settings that name one parameter |
| UnsettingFacts.DecorateDictRow | django/utils/unsetting.py:44-64 | decorating with a settings dict succeeds when the function has a receiver to pop (if it needs one) and no entry is an empty list; a parameter named by an entry, and by no later one, is fed from that entry's setting with that entry's trigger |
| UnsettingFacts.DecorateWellFormed | django/utils/unsetting.py:46-58 | with distinct parameter names, the argument names are distinct and never include the receiver |
| UnsettingFacts.BindFromOutcome | django/utils/unsetting.py:82-98 | the loop succeeds exactly when every argument name resolves; otherwise it raises the exception of the first name that does not |
| UnsettingFacts.BindFromBinds | django/utils/unsetting.py:82-98 | after the loop, every argument name from the current one on is bound to its resolved value |
| UnsettingFacts.BindFromKeeps | django/utils/unsetting.py:73-98 | the loop leaves every keyword that is not an argument name unchanged, and adds no key except argument names |
| UnsettingFacts.BindFromMaxArgsIndex | django/utils/unsetting.py:81-86 | `max_args_index` ends as the smallest filled positional slot, or stays at its start value when no slot was filled |
| UnsettingFacts.WrapperOutcome | django/utils/unsetting.py:72-102 | `_wrapper` succeeds exactly when a method got a receiver and every argument name resolves; on failure it raises the first failing name's exception |
| UnsettingFacts.WrapperBindsNames | django/utils/unsetting.py:82-98 | a successful call binds every argument name to its resolved value |
| UnsettingFacts.WrapperKeywords | django/utils/unsetting.py:73-79 | the receiver is bound to the first positional argument; the caller's other keywords pass through unchanged; the result's keys are the caller's keys plus the argument names and the receiver |
| UnsettingFacts.WrapperForwardsPositional | django/utils/unsetting.py:81-102 | when any positional slot was filled no positional argument is forwarded; otherwise the first thousand are |
| UnsettingFacts.MethodReceiver | django/utils/unsetting.py:77-79 | a method called without positional arguments raises IndexError; otherwise the receiver gets the first positional argument and the slots start after it |
| UnsettingFacts.PositionalSlotWins | django/utils/unsetting.py:84-98 | a parameter with a positional argument gets it, unless it is the fallback trigger, in which case it gets the setting |
| UnsettingFacts.KeywordUsed | django/utils/unsetting.py:88-98 | a parameter passed by keyword and not positionally keeps the keyword's value, unless it is the fallback trigger, in which case it gets the setting |
| UnsettingFacts.SettingFillsOmitted | django/utils/unsetting.py:88-91 | a configurable parameter supplied neither way gets its setting, and a missing setting makes the call fail |
| UnsettingFacts.TriggerRereadsSetting | django/utils/unsetting.py:96-98 | whatever its source, a value equal to the fallback trigger is replaced by the setting, and a missing setting makes the call fail |
| UnsettingFacts.DefaultAsWritten | django/utils/unsetting.py:92-94 | as written, an unsupplied plain parameter gets `kw_defaults[len(args) - counter]`; no tuple, or a position before its start, makes the call fail |
| UnsettingFacts.AsWrittenDefaultMisaligned | django/utils/unsetting.py:93-94 | for `f(a, b=1, c=2)` called as `f(x, y)`, c gets 1 although its declared default is 2 |
| UnsettingFacts.AsWrittenDefaultsReversed | django/utils/unsetting.py:93-94 | for `f(a, b=1, c=2, d=3)` called as `f(x)`, b gets its default 1 but c gets 3 and d gets 2: after slot `len(args)` the tuple is read backwards from its end |
| UnsettingFacts.AlignedDefaultIsDeclared | django/utils/unsetting.py:93-94 | with the corrected lookup, an unsupplied plain parameter gets exactly its declared default, and one without a default makes the call fail |
| UnsettingFacts.KeywordRoundTrip | django/utils/unsetting.py:72-102 | passing every argument name by keyword, none of them a fallback trigger, forwards exactly those keywords, plus the receiver, and no positional argument |
| UnsettingFacts.ReceiveFromKeywords | django/utils/unsetting.py:102 | binding a keyword-only call gives each remaining parameter the caller's keyword and keeps the earlier ones |
| UnsettingFacts.ReceiveKeywords | django/utils/unsetting.py:102 | a keyword-only call naming every parameter, and no others unless the function takes `**kwargs`, enters the function with exactly those values |
| UnsettingFacts.ForwardedMatchesSignature | django/utils/unsetting.py:72-102 | the forwarded call has no positional argument, a keyword for every parameter, and no undeclared keyword beyond what the caller passed |
| UnsettingFacts.WrapperThenReceive | django/utils/unsetting.py:72-102 | the undecorated function is entered with every argument name bound to its resolved value and the receiver to the first positional argument |
| ContextProcessors.DebugContext | django/core/context_processors.py:37-44 | with a falsy debug the extras are empty; with a truthy debug they hold exactly `debug` (True) and `sql_queries` when the client address is internal, are empty when it is not, and the call raises the error of reading the address or of the `in` test when either fails |
| ContextProcessors.DebugDecoration | django/core/context_processors.py:36-37 | decorating `debug` feeds `debug` from DEBUG and `internal_ips` from INTERNAL_IPS, at positions 1 and 2 |
| ContextProcessors.Debug | django/core/context_processors.py:36-44 | the decorated `debug` called through the binder under a given default lookup; see DebugReadsSettings, DebugKeywordOverridesSetting and DebugWithoutRequest |
| ContextProcessors.DebugCallReceived | django/core/context_processors.py:36-44 | a successful decorated call enters the body with every parameter bound to its resolved value |
| ContextProcessors.DebugReadsSettings | django/core/context_processors.py:36-44 | under either default lookup, `debug(request)` is the body applied to the current DEBUG and INTERNAL_IPS; a missing one raises AttributeError, DEBUG first |
| ContextProcessors.DebugKeywordOverridesSetting | django/core/context_processors.py:36-44 | an explicit `debug` keyword other than the fallback trigger overrides DEBUG |
| ContextProcessors.DebugWithoutRequest | django/utils/unsetting.py:93-94 | as written, `debug()` without a request runs the body with `request` set to False, the first default; with the corrected lookup the call fails |
| ContextProcessors.StaticContext | django/core/context_processors.py:68 | the context holds STATIC_URL only |
| ContextProcessors.StaticDecoration | django/core/context_processors.py:62-63 | decorating `static` feeds `static_url` from STATIC_URL |
| ContextProcessors.Static | django/core/context_processors.py:62-68 | the decorated `static` called through the binder; see StaticReadsSetting |
| ContextProcessors.StaticCallReceived | django/core/context_processors.py:62-68 | a successful decorated call enters the body with every parameter bound to its resolved value |
| ContextProcessors.StaticReadsSetting | django/core/context_processors.py:62-68 | under either default lookup, `static(request)` is `{'STATIC_URL': settings.STATIC_URL}`, and it raises AttributeError when the setting is missing |
| ContextProcessors.MediaContext | django/core/context_processors.py:76 | the context holds MEDIA_URL only |
| ContextProcessors.MediaDecoration | django/core/context_processors.py:70-71 | decorating `media` feeds `media_url` from MEDIA_URL |
| ContextProcessors.Media | django/core/context_processors.py:70-76 | the decorated `media` called through the binder; see MediaReadsSetting and MediaPositionalOverridesSetting |
| ContextProcessors.MediaCallReceived | django/core/context_processors.py:70-76 | a successful decorated call enters the body with every parameter bound to its resolved value |
| ContextProcessors.MediaReadsSetting | django/core/context_processors.py:70-76 | under either default lookup, `media(request)` is `{'MEDIA_URL': settings.MEDIA_URL}`, and it raises AttributeError when the setting is missing |
| ContextProcessors.MediaPositionalOverridesSetting | django/core/context_processors.py:70-76 | a positional `media_url` other than the fallback trigger is used whatever MEDIA_URL says |
| ContextProcessors.RequestContext | django/core/context_processors.py:78-79 | the context holds the request under `request` only |
| XView.ViewName | django/contrib/admindocs/middleware.py:23 | the header value is `module.name` of the view function; anything else raises AttributeError |
| XView.ProcessViewBody | django/contrib/admindocs/middleware.py:16-24 | without a user the assertion fails; a non-HEAD request gets None; for a HEAD request a failing `in` test raises its error, and otherwise the request gets a response whose modelled headers are only `X-View` when its address is internal or its user is active staff, and None when neither holds |
| XView.ProcessViewDecoration | django/contrib/admindocs/middleware.py:8-9 | decorating `process_view` in the class body pops `self` and feeds `internal_ips` from INTERNAL_IPS |
| XView.ProcessView | django/contrib/admindocs/middleware.py:8-24 | the decorated `process_view` called as a method through the binder; see ProcessViewReadsSetting and ProcessViewNeedsReceiver |
| XView.ProcessViewCallReceived | django/contrib/admindocs/middleware.py:8-9 | a successful decorated call enters the body with `self` bound to the instance and every other parameter to its resolved value |
| XView.ProcessViewReadsSetting | django/contrib/admindocs/middleware.py:8-24 | under either default lookup, `process_view(request, view, args, kwargs)` decides with the current INTERNAL_IPS, and raises AttributeError when it is missing |
| XView.ProcessViewNeedsReceiver | django/contrib/admindocs/middleware.py:8-9 | a call without positional arguments raises IndexError before anything else |
| Smtp.InitBody | django/core/mail/backends/smtp.py:18-31 | host and port fall back to the settings when falsy; username, password, use_tls and use_ssl fall back when None; SSL together with TLS raises ValueError; the backend starts without a connection |
| Smtp.InitDecoration | django/core/mail/backends/smtp.py:17-19 | decorating `__init__` in the class body pops `self` and feeds the six `email_*` parameters from their EMAIL_* settings |
| Smtp.InitTable | django/core/mail/backends/smtp.py:17 | the settings dict gives exactly the six rows, one per `email_*` parameter |
| Smtp.EmailHostIndex | django/core/mail/backends/smtp.py:19 | `email_host` is at position 7 of the argument names |
| Smtp.EmailPortIndex | django/core/mail/backends/smtp.py:19 | `email_port` is at position 8 |
| Smtp.EmailHostUserIndex | django/core/mail/backends/smtp.py:19 | `email_host_user` is at position 9 |
| Smtp.EmailHostPasswordIndex | django/core/mail/backends/smtp.py:19 | `email_host_password` is at position 10 |
| Smtp.EmailUseTlsIndex | django/core/mail/backends/smtp.py:19 | `email_use_tls` is at position 11 |
| Smtp.EmailUseSslIndex | django/core/mail/backends/smtp.py:19 | `email_use_ssl` is at position 12 |
| Smtp.InitResolvesDefaults | django/core/mail/backends/smtp.py:18-19 | with the corrected default lookup, for `EmailBackend()` the seven plain parameters get their declared defaults |
| Smtp.InitResolvesServerSettings | django/core/mail/backends/smtp.py:17 | for `EmailBackend()`, `email_host`, `email_port` and `email_host_user` read their settings |
| Smtp.InitResolvesSecuritySettings | django/core/mail/backends/smtp.py:17 | for `EmailBackend()`, `email_host_password`, `email_use_tls` and `email_use_ssl` read their settings |
| Smtp.InitCallReceived | django/core/mail/backends/smtp.py:17-19 | a successful decorated call enters `__init__` with every parameter bound to its resolved value |
| Smtp.Construct | django/core/mail/backends/smtp.py:17-31 | `EmailBackend(...)`: the decorated `__init__` called through the binder; see ConstructOmittedArguments, ConstructMissingSetting, ConstructReadsSettings and AsWrittenConstructIgnoresSettings |
| Smtp.ConstructOmittedArguments | django/core/mail/backends/smtp.py:17-31 | with the corrected default lookup, `EmailBackend()` runs the body on the declared defaults and the current settings |
| Smtp.ConstructMissingSetting | django/core/mail/backends/smtp.py:17-19 | with the corrected default lookup and a setting missing, `EmailBackend()` raises AttributeError, for EMAIL_HOST when that one is missing |
| Smtp.ConstructReadsSettings | django/core/mail/backends/smtp.py:17-31 | with the corrected default lookup, `EmailBackend()` takes every option from its setting, does not fail silently, has no connection, and raises exactly when both SSL and TLS are set |
| Smtp.InitResolvesDefaultsAsWritten | django/core/mail/backends/smtp.py:18-19 | as written, `host` gets None and `port` to `use_ssl` get the defaults read backwards from the end of the tuple |
| Smtp.AsWrittenOmittedArguments | django/core/mail/backends/smtp.py:17-31 | as written, `EmailBackend()` runs the body on the misread defaults and the current settings |
| Smtp.AsWrittenConstructIgnoresSettings | django/core/mail/backends/smtp.py:17-31 | as written, `EmailBackend()` ignores the user, password, TLS and SSL settings, always uses SSL, and fails silently |
| Smtp.Open | django/core/mail/backends/smtp.py:34-62 | an existing connection gives False and changes nothing; otherwise True exactly when the server refuses no step this backend takes, and then the negotiated connection is in place; after a refusal it raises unless failing silently, when it gives None; a refused connect leaves no connection, a refused STARTTLS leaves a plain one, and a refused LOGIN leaves the negotiated one unauthenticated; only the connection changes |
| Smtp.Close | django/core/mail/backends/smtp.py:64-81 | the connection is always dropped and nothing else changes; it raises exactly when QUIT fails with another error and the backend does not fail silently |
| Smtp.OpenIdempotent | django/core/mail/backends/smtp.py:39-41 | opening again over an existing connection returns False and changes nothing |
| Smtp.OpenCloseRoundTrip | django/core/mail/backends/smtp.py:34-81 | opening a fresh connection and closing it leaves the backend as it was, whatever the server does |
| Smtp.StartTlsFailureLeavesPlainConnection | django/core/mail/backends/smtp.py:49-62 | a refused STARTTLS with fail_silently returns None and leaves a plain, unauthenticated connection in place |
| Smtp.Send | django/core/mail/backends/smtp.py:105-121 | True exactly for a message with recipients that the server accepted; a refusal raises exactly when not failing silently |
| Smtp.SentCount | django/core/mail/backends/smtp.py:96-100 | the count is at most the number of messages, and equals it exactly when every message was delivered |
| Smtp.SendAll | django/core/mail/backends/smtp.py:96-100 | the loop raises `sendmail`'s error exactly when some message is refused and not silenced; otherwise it returns the number delivered |
| Smtp.SendMessages | django/core/mail/backends/smtp.py:83-103 | an empty list, or a silent open failure without a connection, gives None; an open failure re-raises; once a connection exists: a refusal that is not silenced raises and leaves the connection open; otherwise a connection opened here is closed, which restores the backend and raises only on a QUIT fault that is not silenced; a connection that existed before is kept; in every other case the result is the number delivered; after a silent STARTTLS failure the messages go over the plain connection, which stays open |

## Left out

- Detecting whether the function is defined in a class body by reading the
  caller's source through `inspect.stack()`: this is the `definedInClass`
  parameter of `Decorate`.
- `inspect.getargspec`: the parameter names and the defaults tuple are
  given as a `Signature`.
- The process-wide settings object: it is a map passed to each call,
  because reading it is the only thing the code does with it.
- Python's loose `==` across types (`1 == True`) in the fallback-trigger
  test: values compare structurally.
- `update_wrapper` and the hashability of table keys are left out.
- Python 2's hash order, which is the settings dict's iteration order, is
  not modelled. The dict is a sequence of entries whose order is an
  arbitrary stand-in for it. That order matters when two settings name the same parameter:
  the row comes from the later entry (`UnsettingFacts.BuildTableLastEntry`).
- Unsetting.Receive: Python's own binding of the forwarded call is
  simplified. There is no `*args` and there are no keyword-only
  parameters. Exception messages are approximate.
- The `i18n`, `csrf` and `tz` context processors are outside this model.
  `connection.queries` is a parameter of `debug`.
- `http.HttpResponse` is only a map of the headers `process_view` sets. The
  Content-Type header the real response object adds is not modelled.
- The membership test of INTERNAL_IPS covers lists, tuples and strings.
  A set, or a custom container with its own `__contains__`, is not a
  modelled value. For any other value, `Values.Contains` raises TypeError.
- The decorated consumers are stated for either default lookup. The
  `Smtp` lemmas that rely on the decorator supplying declared defaults
  assume the corrected lookup (see Findings). They are
  `InitResolvesDefaults`, `ConstructOmittedArguments`,
  `ConstructMissingSetting` and `ConstructReadsSettings`. Their as-written
  counterparts are `InitResolvesDefaultsAsWritten`,
  `AsWrittenOmittedArguments` and `AsWrittenConstructIgnoresSettings`.
- The SMTP backend's I/O is left out. That covers `smtplib`, `ssl`, the
  cached `DNS_NAME`, `sanitize_address`, the message's charset,
  `as_string` and `force_bytes`. The server's behaviour is the `Server`,
  accepted-flag and `QuitOutcome` parameters. A failure of the second
  EHLO after a successful STARTTLS is treated like a refused STARTTLS.
- The SMTP backend's `threading.RLock` is left out, because the model has
  no concurrency.
- `connection.close()` raising inside `close` is left out.
- `BaseEmailBackend.__init__`, which only stores `fail_silently`, is left
  out.
- `Smtp.Send` is only ever called with a connection, so the case of
  `_send` without one is not modelled.
- A message is only its list of recipients.

## Findings

| source | as written | input that shows it | evidently intended | confidence | as-written member | corrected member |
|---|---|---|---|---|---|---|
| django/utils/unsetting.py:93-94 | an unsupplied plain parameter takes `kw_defaults[len(args) - counter]` | `f(a, b=1, c=2)` called as `f(x, y)` binds `c` to 1; `EmailBackend()` binds `username` to False, `use_tls` to '', `use_ssl` to 'localhost' and `fail_silently` to 25 | the default declared for that parameter, found by counting `counter - len(arg_names)` from the end of the defaults tuple | not executed | UnsettingFacts.AsWrittenDefaultMisaligned | UnsettingFacts.AlignedDefaultIsDeclared |

The lookup gives its own declared default only to the parameter in slot
`len(args)`. The parameters after it read the tuple backwards from its end
(`UnsettingFacts.AsWrittenDefaultsReversed`). The result is right only by
coincidence, for instance with at most two defaults and exactly the
parameters without defaults passed. The decorator is described as transparent for the
parameters it does not feed, so that omitting one gives its declared
default, as it would without the decorator. The code does not do that.
`UnsettingFacts.DefaultAsWritten` models the code as it stands. The
decorated consumers take the lookup as a parameter, and
`ContextProcessors.DebugWithoutRequest` shows the consequence for
`debug()`. Only the `Smtp` lemmas named under "Left out" fix the
corrected lookup.
`Smtp.AsWrittenConstructIgnoresSettings` shows the consequence for the
mail backend.

/** The `uses_settings` decorator: a table, built once when a function is
    decorated, from parameter names to the settings that feed them, and the
    call-time binder that turns `(*args, **kwargs)` into a complete keyword
    set before calling the undecorated function.

    The settings object is a map from setting name to value passed to every
    call; the decorated function's parameter names, its defaults tuple and
    whether it is defined in a class body are explicit inputs.
 */
module Unsetting {
  import opened Values

  /** The fallback trigger a configurable parameter gets when none is given. */
  const OverwriteSentinel: Value := VStr("FAKE_VALUE")

  /** The `max_args_index` the binder starts from before any positional slot matches. */
  const MaxArgsIndex: nat := 1000

  /** One row of the binding table (`SettingDetails`): the setting that feeds
      the parameter `arg`, the parameter's position in the argument names (or
      None when it is not one of them), and the value that, once resolved,
      makes the binder read the setting anyway. */
  datatype SettingDetails = SettingDetails(setting: string, arg: Value, index: Option<nat>, fallbackTrigger: Value)

  /** `arg_names.index(arg)` with ValueError turned into None: the first
      position of `arg` among `names`. */
  function IndexOf(names: seq<string>, arg: Value): Option<nat> {
    if names == [] then None
    else if VStr(names[0]) == arg then Some(0)
    else match IndexOf(names[1..], arg)
      case None => None
      case Some(i) => Some(i + 1)
  }

  /** `SettingDetails.__init__`: a list or tuple of details gives the
      parameter name first and, optionally, the fallback trigger second; any
      other value is the parameter name alone. An empty list has no first
      element and raises IndexError. */
  function MakeDetails(setting: string, details: Value, argNames: seq<string>): (r: Result<SettingDetails>)
    ensures r.Failure? <==> details == VSeq([])
    ensures r.Failure? ==> r.error.IndexError?
    ensures !details.VSeq? ==> r.Success? && r.value.arg == details && r.value.fallbackTrigger == OverwriteSentinel
    ensures details.VSeq? && |details.items| == 1 ==>
              r.Success? && r.value.arg == details.items[0] && r.value.fallbackTrigger == OverwriteSentinel
    ensures details.VSeq? && |details.items| >= 2 ==>
              r.Success? && r.value.arg == details.items[0] && r.value.fallbackTrigger == details.items[1]
    ensures r.Success? ==> r.value.setting == setting && r.value.index == IndexOf(argNames, r.value.arg)
  {
    var list := if details.VSeq? then details.items else [details];
    if list == [] then Failure(IndexError("list index out of range"))
    else
      var trigger := if |list| > 1 then list[1] else OverwriteSentinel;
      Success(SettingDetails(setting, list[0], IndexOf(argNames, list[0]), trigger))
  }

  /** The decorator's first argument: a dict from setting name to details
      (in the dict's iteration order), or a single setting name together
      with the `kw_arg` and `fallback_trigger_value` arguments. */
  datatype Configuration =
    | ByDict(entries: seq<(string, Value)>)
    | ByName(setting: string, kwArg: Value, fallbackTrigger: Value)

  /** What `inspect.getargspec` reports: the parameter names in order and the
      defaults tuple (None when no parameter has a default), which belongs
      to the trailing parameters. */
  datatype Signature = Signature(names: seq<string>, defaults: Option<seq<Value>>) {
    /** Python refuses a function with two parameters of the same name. */
    predicate Valid() {
      Distinct(names)
    }
  }

  /** The decorated function as `_wrapper` sees it: the receiver name popped
      off for a method, the remaining argument names, the defaults tuple and
      the binding table. */
  datatype Decorated = Decorated(receiver: Option<string>, argNames: seq<string>,
                                 defaults: Option<seq<Value>>, table: map<Value, SettingDetails>) {
    predicate WellFormed() {
      && Distinct(argNames)
      && (receiver.Some? ==> receiver.value !in argNames)
    }
  }

  /** The dict form of the table: one row per entry, keyed by its parameter
      name, a later entry for the same parameter replacing an earlier one. */
  function BuildTable(entries: seq<(string, Value)>, argNames: seq<string>, acc: map<Value, SettingDetails>)
    : (r: Result<map<Value, SettingDetails>>)
    decreases |entries|
  {
    if entries == [] then Success(acc)
    else
      var details :- MakeDetails(entries[0].0, entries[0].1, argNames);
      BuildTable(entries[1..], argNames, acc[details.arg := details])
  }

  /** Applying `uses_settings(...)` to a function. Both failures happen here,
      before the function can be called: a method without parameters cannot
      pop its receiver, and the single-setting form needs `kw_arg`. */
  function Decorate(config: Configuration, sig: Signature, definedInClass: bool): (r: Result<Decorated>)
    ensures definedInClass && sig.names == [] ==> r.Failure? && r.error.IndexError?
    ensures config.ByName? && config.kwArg == VNone && !(definedInClass && sig.names == []) ==>
              r == Failure(TypeError("required kw_arg argument"))
    ensures config.ByName? && config.kwArg != VNone && !(definedInClass && sig.names == []) ==> r.Success?
    ensures r.Success? ==> r.value.receiver.Some? == definedInClass && r.value.defaults == sig.defaults
    ensures r.Success? && definedInClass ==> [r.value.receiver.value] + r.value.argNames == sig.names
    ensures r.Success? && !definedInClass ==> r.value.argNames == sig.names
    ensures r.Success? && config.ByName? ==>
              && r.value.table.Keys == {config.kwArg}
              && r.value.table[config.kwArg]
                 == SettingDetails(config.setting, config.kwArg, IndexOf(r.value.argNames, config.kwArg), config.fallbackTrigger)
  {
    if definedInClass && sig.names == [] then Failure(IndexError("pop from empty list"))
    else
      var receiver := if definedInClass then Some(sig.names[0]) else None;
      var argNames := if definedInClass then sig.names[1..] else sig.names;
      var table :-
        match config
        case ByDict(entries) => BuildTable(entries, argNames, map[])
        case ByName(setting, kwArg, trigger) =>
          if kwArg == VNone then Failure(TypeError("required kw_arg argument"))
          else
            // a two-element details list always yields a row
            Success(map[kwArg := MakeDetails(setting, VSeq([kwArg, trigger]), argNames).value]);
      Success(Decorated(receiver, argNames, sig.defaults, table))
  }

  /** A call: positional arguments and keyword arguments. */
  datatype Call = Call(positional: seq<Value>, keywords: map<string, Value>)

  /** How a parameter that nobody supplied finds its declared default.
      `AsWritten` is the source's `kw_defaults[len(args) - counter]`;
      `Aligned` counts from the end of the parameter list, which is where
      the defaults tuple belongs. */
  datatype DefaultLookup = AsWritten | Aligned

  /** `getattr(settings, name)`. */
  function ReadSetting(settings: map<string, Value>, name: string): (r: Result<Value>)
    ensures r.Success? <==> name in settings
    ensures r.Success? ==> r.value == settings[name]
    ensures r.Failure? ==> r.error == AttributeError(name)
  {
    if name in settings then Success(settings[name]) else Failure(AttributeError(name))
  }

  /** The default for the argument name at `counter` when `supplied`
      positional arguments were passed to a function of `argCount` argument
      names. Subscripting a missing defaults tuple raises TypeError. */
  function DeclaredDefault(lookup: DefaultLookup, defaults: Option<seq<Value>>, argCount: nat, supplied: nat, counter: nat)
    : Result<Value>
  {
    var position: int := match lookup
      case AsWritten => supplied - counter
      case Aligned => counter - argCount;
    match defaults
    case None => Failure(TypeError("'NoneType' object has no attribute '__getitem__'"))
    case Some(ds) => PyIndex(ds, position)
  }

  /** The binding-table row for a parameter name, if it is configurable. */
  function Row(d: Decorated, name: string): Option<SettingDetails> {
    if VStr(name) in d.table then Some(d.table[VStr(name)]) else None
  }

  /** The value the argument name at `counter` gets before the fallback
      trigger is consulted: its positional slot, else the caller's keyword,
      else its setting, else its declared default. */
  function Supplied(d: Decorated, lookup: DefaultLookup, settings: map<string, Value>,
                    args: seq<Value>, kwargs: map<string, Value>, counter: nat): Result<Value>
    requires counter < |d.argNames|
  {
    var name := d.argNames[counter];
    if counter < |args| then Success(args[counter])
    else if name in kwargs then Success(kwargs[name])
    else if Row(d, name).Some? then ReadSetting(settings, Row(d, name).value.setting)
    else DeclaredDefault(lookup, d.defaults, |d.argNames|, |args|, counter)
  }

  /** The final value of the argument name at `counter`: a configurable
      parameter whose value equals its fallback trigger is read from its
      setting instead. */
  function Resolve(d: Decorated, lookup: DefaultLookup, settings: map<string, Value>,
                   args: seq<Value>, kwargs: map<string, Value>, counter: nat): Result<Value>
    requires counter < |d.argNames|
  {
    var v :- Supplied(d, lookup, settings, args, kwargs, counter);
    var row := Row(d, d.argNames[counter]);
    if row.Some? && v == row.value.fallbackTrigger then ReadSetting(settings, row.value.setting)
    else Success(v)
  }

  /** The state of `_wrapper`'s loop: the keyword set built so far and the
      smallest positional slot matched so far. */
  datatype Bound = Bound(keywords: map<string, Value>, maxArgsIndex: nat)

  /** `_wrapper`'s loop over the argument names from `counter` on. The first
      parameter that cannot be resolved ends the call with its exception. */
  function BindFrom(d: Decorated, lookup: DefaultLookup, settings: map<string, Value>,
                    args: seq<Value>, kwargs: map<string, Value>, counter: nat, acc: Bound): Result<Bound>
    requires counter <= |d.argNames|
    decreases |d.argNames| - counter
  {
    if counter == |d.argNames| then Success(acc)
    else
      var v :- Resolve(d, lookup, settings, args, kwargs, counter);
      var maxArgsIndex := if counter < |args| then Min(acc.maxArgsIndex, counter) else acc.maxArgsIndex;
      BindFrom(d, lookup, settings, args, kwargs, counter + 1,
               Bound(acc.keywords[d.argNames[counter] := v], maxArgsIndex))
  }

  /** The positional arguments left after a method's receiver is popped. */
  function CallArgs(d: Decorated, call: Call): seq<Value> {
    if d.receiver.Some? && call.positional != [] then call.positional[1..] else call.positional
  }

  /** `_wrapper`: the call the undecorated function receives. A method's
      first positional argument is bound by keyword to the receiver name
      (IndexError when there is none); every argument name is bound; all
      positional arguments are dropped once one slot matched, and otherwise
      the first thousand are passed on. */
  function Wrapper(d: Decorated, lookup: DefaultLookup, settings: map<string, Value>, call: Call): Result<Call> {
    if d.receiver.Some? && call.positional == [] then Failure(IndexError("pop from empty list"))
    else
      var args := CallArgs(d, call);
      var start := if d.receiver.Some? then call.keywords[d.receiver.value := call.positional[0]] else call.keywords;
      var bound :- BindFrom(d, lookup, settings, args, call.keywords, 0, Bound(start, MaxArgsIndex));
      Success(Call(args[..Min(bound.maxArgsIndex, |args|)], bound.keywords))
  }

  /** How Python binds a call to the undecorated function: positional
      arguments fill the first parameters, keywords the rest, declared
      defaults what is left. More positional arguments than parameters, a
      parameter given twice, an unknown keyword (unless the function takes
      `**kwargs`) or a parameter left without a value raise TypeError. The
      result holds the named parameters only. */
  function Receive(sig: Signature, extraKeywords: bool, call: Call): (r: Result<map<string, Value>>)
    ensures r.Success? ==> forall i :: 0 <= i < |sig.names| ==> sig.names[i] in r.value
  {
    if |call.positional| > |sig.names| then Failure(TypeError("too many positional arguments"))
    else if exists i :: 0 <= i < |call.positional| && sig.names[i] in call.keywords then
      Failure(TypeError("multiple values for an argument"))
    else if !extraKeywords && exists k :: k in call.keywords && k !in sig.names then
      Failure(TypeError("unexpected keyword argument"))
    else
      ReceiveFrom(sig, call, 0, map[])
  }

  /** Binding the parameters from the `i`-th on, each from its positional
      argument, else its keyword, else its declared default; `acc` holds
      the parameters bound so far. */
  function ReceiveFrom(sig: Signature, call: Call, i: nat, acc: map<string, Value>): (r: Result<map<string, Value>>)
    requires i <= |sig.names|
    decreases |sig.names| - i
    ensures r.Success? ==> forall k :: k in acc ==> k in r.value
    ensures r.Success? ==> forall k :: k in acc && k !in sig.names[i..] ==> r.value[k] == acc[k]
    ensures r.Success? ==> forall k :: k in r.value ==> k in acc || k in sig.names[i..]
    ensures r.Success? ==> forall j :: i <= j < |sig.names| ==> sig.names[j] in r.value
  {
    if i == |sig.names| then Success(acc)
    else
      var name := sig.names[i];
      var v :-
        if i < |call.positional| then Success(call.positional[i])
        else if name in call.keywords then Success(call.keywords[name])
        else match DeclaredDefault(Aligned, sig.defaults, |sig.names|, 0, i)
          case Success(v) => Success(v)
          case Failure(_) => Failure(TypeError("missing argument " + name));
      ReceiveFrom(sig, call, i + 1, acc[name := v])
  }
}

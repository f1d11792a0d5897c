/** What `uses_settings` promises about every call: the precedence between
    positional slot, keyword, setting and declared default, the fallback
    trigger, the receiver of a method, which keywords reach the undecorated
    function and which positional arguments are forwarded.
 */
module UnsettingFacts {
  import opened Values
  import opened Unsetting

  /** The keyword names the binder adds on top of the caller's keywords. */
  function BoundNames(d: Decorated): set<string> {
    (set k | k in d.argNames)
      + (if d.receiver.Some? then {d.receiver.value} else {})
  }

  /** The default `inspect.getargspec` pairs with the parameter at position
      `p` of the signature: the defaults tuple covers the trailing
      parameters. */
  function DefaultOf(sig: Signature, p: nat): Option<Value> {
    match sig.defaults
    case None => None
    case Some(ds) =>
      if p < |sig.names| && |sig.names| - |ds| <= p then Some(ds[p - (|sig.names| - |ds|)]) else None
  }

  // ---------------------------------------------------------------------
  // The binding table

  /** The row that the settings-dict entry `(setting, details)` makes. */
  function EntryRow(entry: (string, Value), argNames: seq<string>): SettingDetails
    requires entry.1 != VSeq([])
  {
    MakeDetails(entry.0, entry.1, argNames).value
  }

  /** The parameters the settings-dict entries name. */
  function EntryParams(entries: seq<(string, Value)>, argNames: seq<string>): set<Value>
    requires forall i :: 0 <= i < |entries| ==> entries[i].1 != VSeq([])
  {
    set i | 0 <= i < |entries| :: EntryRow(entries[i], argNames).arg
  }

  /** The dict form succeeds exactly when no entry's details are an empty
      list, and then every row is keyed by its own parameter with that
      parameter's index. */
  lemma {:induction false} BuildTableRows(entries: seq<(string, Value)>, argNames: seq<string>, acc: map<Value, SettingDetails>)
    requires forall k :: k in acc ==> acc[k].arg == k && acc[k].index == IndexOf(argNames, k)
    ensures BuildTable(entries, argNames, acc).Success? <==> forall i :: 0 <= i < |entries| ==> entries[i].1 != VSeq([])
    ensures BuildTable(entries, argNames, acc).Success? ==>
              var table := BuildTable(entries, argNames, acc).value;
              forall k :: k in table ==> table[k].arg == k && table[k].index == IndexOf(argNames, k)
    decreases |entries|
  {
    if entries != [] {
      var r := MakeDetails(entries[0].0, entries[0].1, argNames);
      if r.Success? {
        var acc' := acc[r.value.arg := r.value];
        BuildTableRows(entries[1..], argNames, acc');
        assert BuildTable(entries, argNames, acc) == BuildTable(entries[1..], argNames, acc');
        assert forall i :: 1 <= i < |entries| ==> entries[i] == entries[1..][i - 1];
      } else {
        assert entries[0].1 == VSeq([]);
      }
    }
  }

  /** The rows of the dict form are keyed by the entries' parameters and
      by nothing else, and a row already present that no entry names is
      kept. */
  lemma {:induction false} BuildTableKeys(entries: seq<(string, Value)>, argNames: seq<string>, acc: map<Value, SettingDetails>)
    requires forall i :: 0 <= i < |entries| ==> entries[i].1 != VSeq([])
    ensures BuildTable(entries, argNames, acc).Success?
    ensures var table := BuildTable(entries, argNames, acc).value;
            && table.Keys == acc.Keys + EntryParams(entries, argNames)
            && forall k :: k in acc && k !in EntryParams(entries, argNames) ==> table[k] == acc[k]
    decreases |entries|
  {
    if entries != [] {
      var row := EntryRow(entries[0], argNames);
      var rest := entries[1..];
      assert forall i :: 0 <= i < |rest| ==> rest[i] == entries[i + 1];
      BuildTableKeys(rest, argNames, acc[row.arg := row]);
      assert BuildTable(entries, argNames, acc) == BuildTable(rest, argNames, acc[row.arg := row]);
      EntryParamsCons(entries, argNames);
    }
  }

  /** The row the dict form holds for a parameter is the one made by the
      last entry naming it, so the dict's iteration order decides between
      two settings that name one parameter. */
  lemma {:induction false} BuildTableLastEntry(entries: seq<(string, Value)>, argNames: seq<string>, acc: map<Value, SettingDetails>, i: nat)
    requires forall j :: 0 <= j < |entries| ==> entries[j].1 != VSeq([])
    requires i < |entries| && EntryRow(entries[i], argNames).arg !in EntryParams(entries[i + 1..], argNames)
    ensures BuildTable(entries, argNames, acc).Success?
    ensures EntryRow(entries[i], argNames).arg in BuildTable(entries, argNames, acc).value
    ensures BuildTable(entries, argNames, acc).value[EntryRow(entries[i], argNames).arg] == EntryRow(entries[i], argNames)
    decreases |entries|
  {
    BuildTableKeys(entries, argNames, acc);
    assert EntryRow(entries[i], argNames).arg in EntryParams(entries, argNames);
    var row := EntryRow(entries[0], argNames);
    var rest := entries[1..];
    assert forall j :: 0 <= j < |rest| ==> rest[j] == entries[j + 1];
    assert BuildTable(entries, argNames, acc) == BuildTable(rest, argNames, acc[row.arg := row]);
    if i == 0 {
      assert entries[1..] == rest;
      BuildTableKeys(rest, argNames, acc[row.arg := row]);
    } else {
      assert entries[i + 1..] == rest[i..];
      BuildTableLastEntry(rest, argNames, acc[row.arg := row], i - 1);
    }
  }

  /** Decorating with a settings dict: when the function has parameters
      to pop and no entry's details are an empty list, the decoration
      succeeds, and the parameter an entry names (no later entry naming it
      too) is fed from that entry's setting with that entry's trigger. */
  lemma DecorateDictRow(entries: seq<(string, Value)>, sig: Signature, definedInClass: bool, i: nat)
    requires !(definedInClass && sig.names == [])
    requires forall j :: 0 <= j < |entries| ==> entries[j].1 != VSeq([])
    requires i < |entries| && EntryRow(entries[i], sig.names).arg !in EntryParams(entries[i + 1..], sig.names)
    ensures Decorate(ByDict(entries), sig, definedInClass).Success?
    ensures var d := Decorate(ByDict(entries), sig, definedInClass).value;
            var row := EntryRow(entries[i], d.argNames);
            && row.arg in d.table
            && d.table[row.arg] == row
            && row.setting == entries[i].0
            && row.arg == EntryRow(entries[i], sig.names).arg
  {
    var argNames := if definedInClass then sig.names[1..] else sig.names;
    assert forall j :: 0 <= j < |entries| ==> EntryRow(entries[j], argNames).arg == EntryRow(entries[j], sig.names).arg;
    assert EntryParams(entries[i + 1..], argNames) == EntryParams(entries[i + 1..], sig.names);
    BuildTableLastEntry(entries, argNames, map[], i);
  }

  /** The parameters of a nonempty entry list are the first entry's
      parameter and those of the rest. */
  lemma EntryParamsCons(entries: seq<(string, Value)>, argNames: seq<string>)
    requires entries != [] && forall i :: 0 <= i < |entries| ==> entries[i].1 != VSeq([])
    ensures EntryParams(entries, argNames) == {EntryRow(entries[0], argNames).arg} + EntryParams(entries[1..], argNames)
  {
    var rest := entries[1..];
    forall k | k in EntryParams(entries, argNames)
      ensures k in {EntryRow(entries[0], argNames).arg} + EntryParams(rest, argNames)
    {
      var i :| 0 <= i < |entries| && EntryRow(entries[i], argNames).arg == k;
      if i > 0 {
        assert rest[i - 1] == entries[i];
      }
    }
    forall k | k in EntryParams(rest, argNames) ensures k in EntryParams(entries, argNames) {
      var i :| 0 <= i < |rest| && EntryRow(rest[i], argNames).arg == k;
      assert entries[i + 1] == rest[i];
    }
  }

  /** `arg_names.index(arg)` finds the first occurrence of `arg`, and
      None exactly when `arg` is not among the names. */
  lemma {:induction false} IndexOfFirst(names: seq<string>, arg: Value)
    ensures var r := IndexOf(names, arg);
            && (r.Some? ==> r.value < |names| && VStr(names[r.value]) == arg)
            && (r.Some? ==> forall j :: 0 <= j < r.value ==> VStr(names[j]) != arg)
            && (r.None? <==> forall j :: 0 <= j < |names| ==> VStr(names[j]) != arg)
    decreases |names|
  {
    if names != [] && VStr(names[0]) != arg {
      IndexOfFirst(names[1..], arg);
      var r := IndexOf(names[1..], arg);
      if r.None? {
        forall j | 0 <= j < |names| ensures VStr(names[j]) != arg {
          if j > 0 {
            assert names[j] == names[1..][j - 1];
          }
        }
      } else {
        forall j | 0 <= j < r.value + 1 ensures VStr(names[j]) != arg {
          if j > 0 {
            assert names[j] == names[1..][j - 1];
          }
        }
      }
    }
  }

  /** The position of a parameter name is its first occurrence. */
  lemma IndexOfIs(names: seq<string>, arg: Value, k: nat)
    requires k < |names| && VStr(names[k]) == arg
    requires forall j :: 0 <= j < k ==> VStr(names[j]) != arg
    ensures IndexOf(names, arg) == Some(k)
  {
    IndexOfFirst(names, arg);
  }

  /** A decorated function built from a valid signature has distinct
      argument names and a receiver that is none of them. */
  lemma DecorateWellFormed(config: Configuration, sig: Signature, definedInClass: bool)
    requires sig.Valid()
    requires Decorate(config, sig, definedInClass).Success?
    ensures Decorate(config, sig, definedInClass).value.WellFormed()
  {
    var d := Decorate(config, sig, definedInClass).value;
    if definedInClass {
      assert d.argNames == sig.names[1..];
      forall i | 0 <= i < |d.argNames| ensures d.argNames[i] != d.receiver.value {
        assert d.argNames[i] == sig.names[i + 1];
      }
    }
  }

  // ---------------------------------------------------------------------
  // The call-time loop

  /** The loop from `counter` on succeeds exactly when every remaining
      parameter resolves, and otherwise raises the exception of the first
      parameter that fails. */
  lemma {:induction false} BindFromOutcome(d: Decorated, lookup: DefaultLookup, settings: map<string, Value>,
                                           args: seq<Value>, kwargs: map<string, Value>, counter: nat, acc: Bound)
    requires counter <= |d.argNames|
    ensures BindFrom(d, lookup, settings, args, kwargs, counter, acc).Success? <==>
              forall j :: counter <= j < |d.argNames| ==> Resolve(d, lookup, settings, args, kwargs, j).Success?
    ensures BindFrom(d, lookup, settings, args, kwargs, counter, acc).Failure? ==>
              exists j :: counter <= j < |d.argNames|
                && (forall i :: counter <= i < j ==> Resolve(d, lookup, settings, args, kwargs, i).Success?)
                && Resolve(d, lookup, settings, args, kwargs, j).Failure?
                && BindFrom(d, lookup, settings, args, kwargs, counter, acc).error
                   == Resolve(d, lookup, settings, args, kwargs, j).error
    decreases |d.argNames| - counter
  {
    if counter < |d.argNames| {
      var v := Resolve(d, lookup, settings, args, kwargs, counter);
      if v.Success? {
        var m := if counter < |args| then Min(acc.maxArgsIndex, counter) else acc.maxArgsIndex;
        BindFromOutcome(d, lookup, settings, args, kwargs, counter + 1, Bound(acc.keywords[d.argNames[counter] := v.value], m));
      }
    }
  }

  /** When the loop from `counter` on succeeds, it binds each remaining
      argument name to its resolved value. */
  lemma {:induction false} BindFromBinds(d: Decorated, lookup: DefaultLookup, settings: map<string, Value>,
                                         args: seq<Value>, kwargs: map<string, Value>, counter: nat, acc: Bound)
    requires d.WellFormed()
    requires counter <= |d.argNames|
    requires BindFrom(d, lookup, settings, args, kwargs, counter, acc).Success?
    ensures forall j :: counter <= j < |d.argNames| ==>
              && Resolve(d, lookup, settings, args, kwargs, j).Success?
              && d.argNames[j] in BindFrom(d, lookup, settings, args, kwargs, counter, acc).value.keywords
              && BindFrom(d, lookup, settings, args, kwargs, counter, acc).value.keywords[d.argNames[j]]
                 == Resolve(d, lookup, settings, args, kwargs, j).value
    decreases |d.argNames| - counter
  {
    if counter < |d.argNames| {
      var name := d.argNames[counter];
      var v := Resolve(d, lookup, settings, args, kwargs, counter);
      var m := if counter < |args| then Min(acc.maxArgsIndex, counter) else acc.maxArgsIndex;
      var acc' := Bound(acc.keywords[name := v.value], m);
      assert BindFrom(d, lookup, settings, args, kwargs, counter, acc)
             == BindFrom(d, lookup, settings, args, kwargs, counter + 1, acc');
      BindFromBinds(d, lookup, settings, args, kwargs, counter + 1, acc');
      BindFromKeeps(d, lookup, settings, args, kwargs, counter + 1, acc');
      assert name !in d.argNames[counter + 1..];
    }
  }

  /** When the loop from `counter` on succeeds, every keyword that is not
      one of the remaining argument names keeps its value, and nothing but
      those names is added. */
  lemma {:induction false} BindFromKeeps(d: Decorated, lookup: DefaultLookup, settings: map<string, Value>,
                                         args: seq<Value>, kwargs: map<string, Value>, counter: nat, acc: Bound)
    requires counter <= |d.argNames|
    requires BindFrom(d, lookup, settings, args, kwargs, counter, acc).Success?
    ensures forall k :: k in acc.keywords && k !in d.argNames[counter..] ==>
              k in BindFrom(d, lookup, settings, args, kwargs, counter, acc).value.keywords
              && BindFrom(d, lookup, settings, args, kwargs, counter, acc).value.keywords[k] == acc.keywords[k]
    ensures forall k :: k in BindFrom(d, lookup, settings, args, kwargs, counter, acc).value.keywords ==>
              k in acc.keywords || k in d.argNames[counter..]
    decreases |d.argNames| - counter
  {
    if counter < |d.argNames| {
      var name := d.argNames[counter];
      var v := Resolve(d, lookup, settings, args, kwargs, counter);
      var m := if counter < |args| then Min(acc.maxArgsIndex, counter) else acc.maxArgsIndex;
      var acc' := Bound(acc.keywords[name := v.value], m);
      assert BindFrom(d, lookup, settings, args, kwargs, counter, acc)
             == BindFrom(d, lookup, settings, args, kwargs, counter + 1, acc');
      BindFromKeeps(d, lookup, settings, args, kwargs, counter + 1, acc');
      assert d.argNames[counter..] == [name] + d.argNames[counter + 1..];
    }
  }

  /** The loop's `max_args_index` is the smallest slot that matched, or its
      starting value when none did. */
  lemma {:induction false} BindFromMaxArgsIndex(d: Decorated, lookup: DefaultLookup, settings: map<string, Value>,
                                                args: seq<Value>, kwargs: map<string, Value>, counter: nat, acc: Bound)
    requires counter <= |d.argNames|
    requires BindFrom(d, lookup, settings, args, kwargs, counter, acc).Success?
    ensures BindFrom(d, lookup, settings, args, kwargs, counter, acc).value.maxArgsIndex
            == if counter < |args| && counter < |d.argNames| then Min(acc.maxArgsIndex, counter) else acc.maxArgsIndex
    decreases |d.argNames| - counter
  {
    if counter < |d.argNames| {
      var v := Resolve(d, lookup, settings, args, kwargs, counter);
      var m := if counter < |args| then Min(acc.maxArgsIndex, counter) else acc.maxArgsIndex;
      BindFromMaxArgsIndex(d, lookup, settings, args, kwargs, counter + 1, Bound(acc.keywords[d.argNames[counter] := v.value], m));
    }
  }

  /** `_wrapper` fails exactly when a method gets no positional argument or
      some parameter does not resolve, and then with the exception of the
      first parameter that does not. */
  lemma WrapperOutcome(d: Decorated, lookup: DefaultLookup, settings: map<string, Value>, call: Call)
    ensures var args := CallArgs(d, call);
            Wrapper(d, lookup, settings, call).Success? <==>
              && (d.receiver.Some? ==> call.positional != [])
              && forall j :: 0 <= j < |d.argNames| ==> Resolve(d, lookup, settings, args, call.keywords, j).Success?
    ensures Wrapper(d, lookup, settings, call).Failure? && (d.receiver.Some? ==> call.positional != []) ==>
              var args := CallArgs(d, call);
              exists j :: 0 <= j < |d.argNames|
                && (forall i :: 0 <= i < j ==> Resolve(d, lookup, settings, args, call.keywords, i).Success?)
                && Resolve(d, lookup, settings, args, call.keywords, j).Failure?
                && Wrapper(d, lookup, settings, call).error == Resolve(d, lookup, settings, args, call.keywords, j).error
  {
    if !(d.receiver.Some? && call.positional == []) {
      var start := if d.receiver.Some? then call.keywords[d.receiver.value := call.positional[0]] else call.keywords;
      BindFromOutcome(d, lookup, settings, CallArgs(d, call), call.keywords, 0, Bound(start, MaxArgsIndex));
    }
  }

  /** When `_wrapper` succeeds, every argument name is bound to its resolved
      value. */
  lemma WrapperBindsNames(d: Decorated, lookup: DefaultLookup, settings: map<string, Value>, call: Call)
    requires d.WellFormed()
    requires Wrapper(d, lookup, settings, call).Success?
    ensures forall j :: 0 <= j < |d.argNames| ==>
              && Resolve(d, lookup, settings, CallArgs(d, call), call.keywords, j).Success?
              && d.argNames[j] in Wrapper(d, lookup, settings, call).value.keywords
              && Wrapper(d, lookup, settings, call).value.keywords[d.argNames[j]]
                 == Resolve(d, lookup, settings, CallArgs(d, call), call.keywords, j).value
  {
    var start := if d.receiver.Some? then call.keywords[d.receiver.value := call.positional[0]] else call.keywords;
    BindFromBinds(d, lookup, settings, CallArgs(d, call), call.keywords, 0, Bound(start, MaxArgsIndex));
  }

  /** When `_wrapper` succeeds, a method's receiver is bound to the first
      positional argument, every other keyword of the caller passes through
      unchanged, and nothing but the argument names and the receiver is
      added. */
  lemma WrapperKeywords(d: Decorated, lookup: DefaultLookup, settings: map<string, Value>, call: Call)
    requires d.WellFormed()
    requires Wrapper(d, lookup, settings, call).Success?
    ensures var out := Wrapper(d, lookup, settings, call).value;
            && (d.receiver.Some? ==> d.receiver.value in out.keywords && out.keywords[d.receiver.value] == call.positional[0])
            && (forall k :: k in call.keywords && k !in BoundNames(d) ==> k in out.keywords && out.keywords[k] == call.keywords[k])
            && out.keywords.Keys == call.keywords.Keys + BoundNames(d)
  {
    var args := CallArgs(d, call);
    var start := if d.receiver.Some? then call.keywords[d.receiver.value := call.positional[0]] else call.keywords;
    BindFromBinds(d, lookup, settings, args, call.keywords, 0, Bound(start, MaxArgsIndex));
    BindFromKeeps(d, lookup, settings, args, call.keywords, 0, Bound(start, MaxArgsIndex));
    assert d.argNames[0..] == d.argNames;
    var out := Wrapper(d, lookup, settings, call).value.keywords;
    forall k | k in call.keywords.Keys + BoundNames(d) ensures k in out {
      if k !in call.keywords && k !in d.argNames {
        assert k in start;
      }
    }
  }

  /** When `_wrapper` succeeds, the positional arguments are all dropped once
      one slot matched, and otherwise forwarded up to the thousandth. */
  lemma WrapperForwardsPositional(d: Decorated, lookup: DefaultLookup, settings: map<string, Value>, call: Call)
    requires Wrapper(d, lookup, settings, call).Success?
    ensures var args := CallArgs(d, call);
            Wrapper(d, lookup, settings, call).value.positional
            == if args != [] && d.argNames != [] then [] else args[..Min(MaxArgsIndex, |args|)]
  {
    var start := if d.receiver.Some? then call.keywords[d.receiver.value := call.positional[0]] else call.keywords;
    BindFromMaxArgsIndex(d, lookup, settings, CallArgs(d, call), call.keywords, 0, Bound(start, MaxArgsIndex));
  }

  // ---------------------------------------------------------------------
  // Precedence, one parameter at a time

  /** A method's receiver is the first positional argument, bound by
      keyword; a method called without positional arguments raises
      IndexError, and the slots of the remaining parameters start after
      the receiver. */
  lemma MethodReceiver(d: Decorated, lookup: DefaultLookup, settings: map<string, Value>, call: Call)
    requires d.WellFormed() && d.receiver.Some?
    ensures call.positional == [] ==> Wrapper(d, lookup, settings, call) == Failure(IndexError("pop from empty list"))
    ensures Wrapper(d, lookup, settings, call).Success? ==>
              && d.receiver.value in Wrapper(d, lookup, settings, call).value.keywords
              && Wrapper(d, lookup, settings, call).value.keywords[d.receiver.value] == call.positional[0]
              && CallArgs(d, call) == call.positional[1..]
  {
    WrapperOutcome(d, lookup, settings, call);
    if Wrapper(d, lookup, settings, call).Success? {
      WrapperBindsNames(d, lookup, settings, call);
      WrapperKeywords(d, lookup, settings, call);
      WrapperForwardsPositional(d, lookup, settings, call);
    }
  }

  /** A parameter whose positional slot is filled takes that value, whatever
      the caller also passed by keyword, unless it is configurable and the
      value is its fallback trigger. */
  lemma PositionalSlotWins(d: Decorated, lookup: DefaultLookup, settings: map<string, Value>, call: Call, i: nat)
    requires d.WellFormed()
    requires i < |d.argNames| && i < |CallArgs(d, call)|
    requires Wrapper(d, lookup, settings, call).Success?
    ensures d.argNames[i] in Wrapper(d, lookup, settings, call).value.keywords
    ensures var v := CallArgs(d, call)[i];
            var row := Row(d, d.argNames[i]);
            row.Some? && v == row.value.fallbackTrigger ==> row.value.setting in settings
    ensures var v := CallArgs(d, call)[i];
            var row := Row(d, d.argNames[i]);
            Wrapper(d, lookup, settings, call).value.keywords[d.argNames[i]]
              == if row.Some? && v == row.value.fallbackTrigger then settings[row.value.setting] else v
  {
    WrapperOutcome(d, lookup, settings, call);
    if Wrapper(d, lookup, settings, call).Success? {
      WrapperBindsNames(d, lookup, settings, call);
    }
  }

  /** A parameter without a positional value that the caller passed by
      keyword keeps the keyword's value, unless it is configurable and the
      value is its fallback trigger. */
  lemma KeywordUsed(d: Decorated, lookup: DefaultLookup, settings: map<string, Value>, call: Call, i: nat)
    requires d.WellFormed()
    requires i < |d.argNames| && |CallArgs(d, call)| <= i && d.argNames[i] in call.keywords
    requires Wrapper(d, lookup, settings, call).Success?
    ensures d.argNames[i] in Wrapper(d, lookup, settings, call).value.keywords
    ensures var v := call.keywords[d.argNames[i]];
            var row := Row(d, d.argNames[i]);
            row.Some? && v == row.value.fallbackTrigger ==> row.value.setting in settings
    ensures var v := call.keywords[d.argNames[i]];
            var row := Row(d, d.argNames[i]);
            Wrapper(d, lookup, settings, call).value.keywords[d.argNames[i]]
              == if row.Some? && v == row.value.fallbackTrigger then settings[row.value.setting] else v
  {
    WrapperOutcome(d, lookup, settings, call);
    if Wrapper(d, lookup, settings, call).Success? {
      WrapperBindsNames(d, lookup, settings, call);
    }
  }

  /** A configurable parameter the caller supplied neither way takes the
      current value of its setting; when that setting is not defined the
      call raises AttributeError. */
  lemma SettingFillsOmitted(d: Decorated, lookup: DefaultLookup, settings: map<string, Value>, call: Call, i: nat)
    requires d.WellFormed()
    requires i < |d.argNames| && |CallArgs(d, call)| <= i && d.argNames[i] !in call.keywords
    requires Row(d, d.argNames[i]).Some?
    ensures Row(d, d.argNames[i]).value.setting !in settings ==> Wrapper(d, lookup, settings, call).Failure?
    ensures Wrapper(d, lookup, settings, call).Success? ==>
              && d.argNames[i] in Wrapper(d, lookup, settings, call).value.keywords
              && Row(d, d.argNames[i]).value.setting in settings
              && Wrapper(d, lookup, settings, call).value.keywords[d.argNames[i]] == settings[Row(d, d.argNames[i]).value.setting]
  {
    WrapperOutcome(d, lookup, settings, call);
    if Wrapper(d, lookup, settings, call).Success? {
      WrapperBindsNames(d, lookup, settings, call);
    }
  }

  /** Whatever the source of its value, a configurable parameter whose value
      is its fallback trigger is bound to its setting instead, and a missing
      setting then raises. */
  lemma TriggerRereadsSetting(d: Decorated, lookup: DefaultLookup, settings: map<string, Value>, call: Call, i: nat)
    requires d.WellFormed()
    requires i < |d.argNames| && Row(d, d.argNames[i]).Some?
    requires Supplied(d, lookup, settings, CallArgs(d, call), call.keywords, i)
             == Success(Row(d, d.argNames[i]).value.fallbackTrigger)
    ensures Row(d, d.argNames[i]).value.setting !in settings ==> Wrapper(d, lookup, settings, call).Failure?
    ensures Wrapper(d, lookup, settings, call).Success? ==>
              && d.argNames[i] in Wrapper(d, lookup, settings, call).value.keywords
              && Row(d, d.argNames[i]).value.setting in settings
              && Wrapper(d, lookup, settings, call).value.keywords[d.argNames[i]] == settings[Row(d, d.argNames[i]).value.setting]
  {
    WrapperOutcome(d, lookup, settings, call);
    if Wrapper(d, lookup, settings, call).Success? {
      WrapperBindsNames(d, lookup, settings, call);
    }
  }

  /** As written, a non-configurable parameter nobody supplied takes
      `kw_defaults[len(args) - counter]`, a position at most zero read from
      the end of the tuple; no defaults tuple, or a position before its
      start, raises. */
  lemma DefaultAsWritten(d: Decorated, settings: map<string, Value>, call: Call, i: nat)
    requires d.WellFormed()
    requires i < |d.argNames| && |CallArgs(d, call)| <= i && d.argNames[i] !in call.keywords
    requires Row(d, d.argNames[i]).None?
    ensures var position := |CallArgs(d, call)| - i;
            (d.defaults.None? || position < -|d.defaults.value|) ==> Wrapper(d, AsWritten, settings, call).Failure?
    ensures Wrapper(d, AsWritten, settings, call).Success? ==>
              var position := |CallArgs(d, call)| - i;
              && d.defaults.Some?
              && PyIndex(d.defaults.value, position).Success?
              && d.argNames[i] in Wrapper(d, AsWritten, settings, call).value.keywords
              && Wrapper(d, AsWritten, settings, call).value.keywords[d.argNames[i]]
                 == PyIndex(d.defaults.value, position).value
  {
    WrapperOutcome(d, AsWritten, settings, call);
    if Wrapper(d, AsWritten, settings, call).Success? {
      WrapperBindsNames(d, AsWritten, settings, call);
    }
  }

  /** The counterexample: for `f(a, b=1, c=2)` called as `f(x, y)`, the
      source binds `c` to 1, the default declared for `b`, although the
      signature declares 2 for `c`. */
  lemma AsWrittenDefaultMisaligned()
    ensures var sig := Signature(["a", "b", "c"], Some([VInt(1), VInt(2)]));
            var d := Decorated(None, sig.names, sig.defaults, map[]);
            var call := Call([VStr("x"), VStr("y")], map[]);
            && DefaultOf(sig, 2) == Some(VInt(2))
            && Wrapper(d, AsWritten, map[], call).Success?
            && Wrapper(d, AsWritten, map[], call).value.keywords["c"] == VInt(1)
  {
    var sig := Signature(["a", "b", "c"], Some([VInt(1), VInt(2)]));
    var d := Decorated(None, sig.names, sig.defaults, map[]);
    var call := Call([VStr("x"), VStr("y")], map[]);
    WrapperOutcome(d, AsWritten, map[], call);
    if Wrapper(d, AsWritten, map[], call).Success? {
      WrapperBindsNames(d, AsWritten, map[], call);
    }
    assert Resolve(d, AsWritten, map[], call.positional, call.keywords, 2) == Success(VInt(1));
  }

  /** Passing exactly the parameters without defaults is not enough: only
      the parameter in slot `len(args)` reads its own default, and the ones
      after it read the tuple backwards from its end. For `f(a, b=1, c=2,
      d=3)` called as `f(x)`, b gets 1 but c gets 3 and d gets 2. */
  lemma AsWrittenDefaultsReversed()
    ensures var sig := Signature(["a", "b", "c", "d"], Some([VInt(1), VInt(2), VInt(3)]));
            var d := Decorated(None, sig.names, sig.defaults, map[]);
            var call := Call([VStr("x")], map[]);
            && DefaultOf(sig, 1) == Some(VInt(1)) && DefaultOf(sig, 2) == Some(VInt(2)) && DefaultOf(sig, 3) == Some(VInt(3))
            && Wrapper(d, AsWritten, map[], call).Success?
            && Wrapper(d, AsWritten, map[], call).value.keywords["b"] == VInt(1)
            && Wrapper(d, AsWritten, map[], call).value.keywords["c"] == VInt(3)
            && Wrapper(d, AsWritten, map[], call).value.keywords["d"] == VInt(2)
  {
    var sig := Signature(["a", "b", "c", "d"], Some([VInt(1), VInt(2), VInt(3)]));
    var d := Decorated(None, sig.names, sig.defaults, map[]);
    var call := Call([VStr("x")], map[]);
    assert Resolve(d, AsWritten, map[], call.positional, call.keywords, 0) == Success(VStr("x"));
    assert Resolve(d, AsWritten, map[], call.positional, call.keywords, 1) == Success(VInt(1));
    assert Resolve(d, AsWritten, map[], call.positional, call.keywords, 2) == Success(VInt(3));
    assert Resolve(d, AsWritten, map[], call.positional, call.keywords, 3) == Success(VInt(2));
    WrapperOutcome(d, AsWritten, map[], call);
    WrapperBindsNames(d, AsWritten, map[], call);
  }

  /** With the defaults tuple aligned to the trailing parameters, a
      non-configurable parameter nobody supplied takes exactly the default
      its signature declares, and one without a declared default makes the
      call fail. */
  lemma AlignedDefaultIsDeclared(config: Configuration, sig: Signature, definedInClass: bool,
                                 settings: map<string, Value>, call: Call, i: nat)
    requires sig.Valid() && Decorate(config, sig, definedInClass).Success?
    requires var d := Decorate(config, sig, definedInClass).value;
             && i < |d.argNames| && |CallArgs(d, call)| <= i && d.argNames[i] !in call.keywords
             && Row(d, d.argNames[i]).None?
    ensures var d := Decorate(config, sig, definedInClass).value;
            var p := if definedInClass then i + 1 else i;
            && (DefaultOf(sig, p).None? ==> Wrapper(d, Aligned, settings, call).Failure?)
            && (Wrapper(d, Aligned, settings, call).Success? ==>
                  d.argNames[i] in Wrapper(d, Aligned, settings, call).value.keywords &&
                  DefaultOf(sig, p) == Some(Wrapper(d, Aligned, settings, call).value.keywords[d.argNames[i]]))
  {
    var d := Decorate(config, sig, definedInClass).value;
    DecorateWellFormed(config, sig, definedInClass);
    WrapperOutcome(d, Aligned, settings, call);
    if Wrapper(d, Aligned, settings, call).Success? {
      WrapperBindsNames(d, Aligned, settings, call);
    }
  }

  /** Calling with every argument name passed by keyword (none of them a
      fallback trigger) and no positional argument besides a method's
      receiver hands the undecorated function exactly those keywords. */
  lemma KeywordRoundTrip(d: Decorated, lookup: DefaultLookup, settings: map<string, Value>, call: Call)
    requires d.WellFormed()
    requires |call.positional| == (if d.receiver.Some? then 1 else 0)
    requires forall j :: 0 <= j < |d.argNames| ==> d.argNames[j] in call.keywords
    requires forall j :: 0 <= j < |d.argNames| && Row(d, d.argNames[j]).Some? ==>
               call.keywords[d.argNames[j]] != Row(d, d.argNames[j]).value.fallbackTrigger
    ensures Wrapper(d, lookup, settings, call)
            == Success(Call([], if d.receiver.Some? then call.keywords[d.receiver.value := call.positional[0]]
                                else call.keywords))
  {
    var args := CallArgs(d, call);
    assert args == [];
    forall j | 0 <= j < |d.argNames|
      ensures Resolve(d, lookup, settings, args, call.keywords, j) == Success(call.keywords[d.argNames[j]])
    {
    }
    WrapperOutcome(d, lookup, settings, call);
    if Wrapper(d, lookup, settings, call).Success? {
      WrapperBindsNames(d, lookup, settings, call);
      WrapperKeywords(d, lookup, settings, call);
      WrapperForwardsPositional(d, lookup, settings, call);
    }
    var expected := if d.receiver.Some? then call.keywords[d.receiver.value := call.positional[0]] else call.keywords;
    assert Wrapper(d, lookup, settings, call).Success?;
    var out := Wrapper(d, lookup, settings, call).value;
    assert out.positional == [];
    assert out.keywords.Keys == expected.Keys;
    forall k | k in expected ensures out.keywords[k] == expected[k] {
      if k in d.argNames {
        var j :| 0 <= j < |d.argNames| && d.argNames[j] == k;
      }
    }
    assert out.keywords == expected;
  }

  // ---------------------------------------------------------------------
  // The undecorated function receiving the forwarded call

  /** Binding a keyword-only call that names every remaining parameter gives
      each parameter the caller's keyword and leaves the earlier ones. */
  lemma {:induction false} ReceiveFromKeywords(sig: Signature, call: Call, i: nat, acc: map<string, Value>)
    requires sig.Valid() && i <= |sig.names| && call.positional == []
    requires forall j :: i <= j < |sig.names| ==> sig.names[j] in call.keywords
    ensures ReceiveFrom(sig, call, i, acc).Success?
    ensures forall j :: i <= j < |sig.names| ==>
              ReceiveFrom(sig, call, i, acc).value[sig.names[j]] == call.keywords[sig.names[j]]
    ensures forall k :: k in acc && k !in sig.names[i..] ==> ReceiveFrom(sig, call, i, acc).value[k] == acc[k]
    decreases |sig.names| - i
  {
    if i < |sig.names| {
      var name := sig.names[i];
      var acc' := acc[name := call.keywords[name]];
      ReceiveFromKeywords(sig, call, i + 1, acc');
      assert sig.names[i..] == [name] + sig.names[i + 1..];
      assert name !in sig.names[i + 1..];
    }
  }

  /** A forwarded call without positional arguments whose keywords name
      every parameter (and nothing else, unless the function takes
      `**kwargs`) reaches the function with exactly those values. */
  lemma ReceiveKeywords(sig: Signature, extraKeywords: bool, call: Call)
    requires sig.Valid() && call.positional == []
    requires forall j :: 0 <= j < |sig.names| ==> sig.names[j] in call.keywords
    requires !extraKeywords ==> forall k :: k in call.keywords ==> k in sig.names
    ensures Receive(sig, extraKeywords, call).Success?
    ensures forall j :: 0 <= j < |sig.names| ==>
              Receive(sig, extraKeywords, call).value[sig.names[j]] == call.keywords[sig.names[j]]
  {
    ReceiveFromKeywords(sig, call, 0, map[]);
  }

  /** The call `_wrapper` forwards to a function whose parameter list is its
      receiver followed by its argument names carries no positional
      argument and a keyword for every parameter, and (unless the function
      takes `**kwargs`) no keyword the function does not declare. */
  lemma ForwardedMatchesSignature(d: Decorated, lookup: DefaultLookup, settings: map<string, Value>,
                                  sig: Signature, extraKeywords: bool, call: Call)
    requires d.WellFormed()
    requires sig.names == (if d.receiver.Some? then [d.receiver.value] else []) + d.argNames
    requires !extraKeywords ==> forall k :: k in call.keywords ==> k in sig.names
    requires CallArgs(d, call) == [] || d.argNames != []
    requires Wrapper(d, lookup, settings, call).Success?
    ensures var out := Wrapper(d, lookup, settings, call).value;
            && out.positional == []
            && (forall j :: 0 <= j < |sig.names| ==> sig.names[j] in out.keywords)
            && (!extraKeywords ==> forall k :: k in out.keywords ==> k in sig.names)
  {
    var out := Wrapper(d, lookup, settings, call).value;
    WrapperKeywords(d, lookup, settings, call);
    WrapperForwardsPositional(d, lookup, settings, call);
    var offset := if d.receiver.Some? then 1 else 0;
    forall j | 0 <= j < |sig.names| ensures sig.names[j] in out.keywords {
      if j >= offset {
        assert sig.names[j] == d.argNames[j - offset];
      }
    }
    forall k | !extraKeywords && k in out.keywords ensures k in sig.names {
      if k !in call.keywords {
        assert k in BoundNames(d);
        if k !in d.argNames {
          assert sig.names[0] == k;
        } else {
          var i :| 0 <= i < |d.argNames| && d.argNames[i] == k;
          assert sig.names[i + offset] == k;
        }
      }
    }
  }

  /** The whole decorated call: when `_wrapper` succeeds for a function
      whose parameter list is its receiver followed by its argument names,
      and the caller passed no keyword the function does not declare (or it
      takes `**kwargs`), the undecorated function is entered with every
      argument name bound to its resolved value and the receiver to the
      first positional argument. */
  lemma WrapperThenReceive(d: Decorated, lookup: DefaultLookup, settings: map<string, Value>,
                           sig: Signature, extraKeywords: bool, call: Call)
    requires d.WellFormed() && sig.Valid()
    requires sig.names == (if d.receiver.Some? then [d.receiver.value] else []) + d.argNames
    requires !extraKeywords ==> forall k :: k in call.keywords ==> k in sig.names
    requires CallArgs(d, call) == [] || d.argNames != []
    requires Wrapper(d, lookup, settings, call).Success?
    ensures Receive(sig, extraKeywords, Wrapper(d, lookup, settings, call).value).Success?
    ensures var params := Receive(sig, extraKeywords, Wrapper(d, lookup, settings, call).value).value;
            && (forall j :: 0 <= j < |d.argNames| ==>
                  && d.argNames[j] in params
                  && Resolve(d, lookup, settings, CallArgs(d, call), call.keywords, j).Success?
                  && params[d.argNames[j]] == Resolve(d, lookup, settings, CallArgs(d, call), call.keywords, j).value)
            && (d.receiver.Some? ==> d.receiver.value in params && params[d.receiver.value] == call.positional[0])
  {
    var out := Wrapper(d, lookup, settings, call).value;
    ForwardedMatchesSignature(d, lookup, settings, sig, extraKeywords, call);
    ReceiveKeywords(sig, extraKeywords, out);
    WrapperBindsNames(d, lookup, settings, call);
    var offset := if d.receiver.Some? then 1 else 0;
    forall j | 0 <= j < |d.argNames| ensures d.argNames[j] == sig.names[j + offset] { }
    if d.receiver.Some? {
      WrapperKeywords(d, lookup, settings, call);
      assert sig.names[0] == d.receiver.value;
    }
  }
}

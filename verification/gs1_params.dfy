/** What a user call leaves in its parameter variables. Classic GS1 has no local scope: the
    call binds the parameters as ordinary variables, and puts the remembered values back
    first to last. */
module Gs1Params {
  import opened Gs1Ast
  import opened Gs1Runtime
  import opened Gs1Exec

  function Slots(params: seq<string>): seq<Slot> {
    if params == [] then [] else [ParameterSlot(params[0])] + Slots(params[1..])
  }

  function FirstArg(args: seq<Value>): Value { if args == [] then NumV(0.0) else args[0] }

  function LaterArgs(args: seq<Value>): seq<Value> { if args == [] then [] else args[1..] }

  /** What `slot` held just before its last parameter was bound: the caller's value if the
      parameter names the slot once, otherwise the argument of the previous one. */
  function Held(vars: map<Slot, Value>, params: seq<string>, args: seq<Value>, slot: Slot): Option<Value>
    requires slot in Slots(params)
    decreases |params|
  {
    var here := ParameterSlot(params[0]);
    if slot in Slots(params[1..]) then Held(vars[here := FirstArg(args)], params[1..], LaterArgs(args), slot)
    else Lookup(vars, slot)
  }

  /** Whatever the body did to the store, restoring gives each parameter's slot exactly
      `Held` and touches nothing else. */
  lemma {:induction false} RestoreGivesHeld(
    vars: map<Slot, Value>, params: seq<string>, args: seq<Value>, after: map<Slot, Value>, slot: Slot)
    ensures Lookup(Restore(after, Bind(vars, params, args).1), slot) ==
            if slot in Slots(params) then Held(vars, params, args, slot) else Lookup(after, slot)
    decreases |params|
  {
    if params != [] {
      var here := ParameterSlot(params[0]);
      var was := Lookup(vars, here);
      var after1 := if was.Some? then after[here := was.value] else after - {here};
      var (bound, saved) := Bind(vars[here := FirstArg(args)], params[1..], LaterArgs(args));
      assert Bind(vars, params, args).1 == [Saved(here, was)] + saved;
      assert ([Saved(here, was)] + saved)[1..] == saved;
      RestoreGivesHeld(vars[here := FirstArg(args)], params[1..], LaterArgs(args), after1, slot);
    }
  }

  lemma {:induction false} OnceIsHeld(vars: map<Slot, Value>, params: seq<string>, args: seq<Value>, i: nat)
    requires i < |params|
    requires forall j :: 0 <= j < |params| && j != i ==> ParameterSlot(params[j]) != ParameterSlot(params[i])
    ensures ParameterSlot(params[i]) in Slots(params)
    ensures Held(vars, params, args, ParameterSlot(params[i])) == Lookup(vars, ParameterSlot(params[i]))
    decreases |params|
  {
    SlotsAt(params);
    SlotsAt(params[1..]);
    if i > 0 {
      OnceIsHeld(vars[ParameterSlot(params[0]) := FirstArg(args)], params[1..], LaterArgs(args), i - 1);
    }
  }

  lemma {:induction false} SlotsAt(params: seq<string>)
    ensures |Slots(params)| == |params|
    ensures forall i :: 0 <= i < |params| ==> Slots(params)[i] == ParameterSlot(params[i])
    decreases |params|
  {
    if params != [] { SlotsAt(params[1..]); }
  }

  /** A call that got as far as its body. */
  predicate Enters(st: St, name: string) {
    FindFunc(st.core.functions, name).Some? && st.core.depth < MAX_CALL_DEPTH
  }

  /** Exactly when a user call leaves a parameter's variable as it found it, bound or unset,
      whatever the body did and however it exited: when the slot held the caller's value at
      the moment its last parameter was bound. */
  lemma {:induction false} ParameterRestoredIff(
    c: Cfg, name: string, args: seq<Value>, st: St, slot: Slot)
    requires Enters(st, name)
    requires slot in Slots(FindFunc(st.core.functions, name).value.params)
    ensures var params := FindFunc(st.core.functions, name).value.params;
            Lookup(CallUser(c, name, args, st).1.core.vars, slot) == Lookup(st.core.vars, slot)
            <==> Held(st.core.vars, params, args, slot) == Lookup(st.core.vars, slot)
  {
    var f := FindFunc(st.core.functions, name).value;
    var (bound, saved) := Bind(st.core.vars, f.params, args);
    var st1 := ExecBlock(c, f.body, WithCore(st, st.core.(vars := bound, depth := st.core.depth + 1))).1;
    RestoreGivesHeld(st.core.vars, f.params, args, st1.core.vars, slot);
  }

  /** Parameters that name distinct variables are always restored. */
  lemma {:induction false} DistinctParametersRestored(c: Cfg, name: string, args: seq<Value>, st: St, i: nat)
    requires Enters(st, name)
    requires var params := FindFunc(st.core.functions, name).value.params;
             i < |params| && forall j :: 0 <= j < |params| && j != i ==>
               ParameterSlot(params[j]) != ParameterSlot(params[i])
    ensures var slot := ParameterSlot(FindFunc(st.core.functions, name).value.params[i]);
            Lookup(CallUser(c, name, args, st).1.core.vars, slot) == Lookup(st.core.vars, slot)
  {
    var params := FindFunc(st.core.functions, name).value.params;
    OnceIsHeld(st.core.vars, params, args, i);
    ParameterRestoredIff(c, name, args, st, ParameterSlot(params[i]));
  }

  function AliasedNames(): seq<string> { ["client.a", "clientr.a"] }

  lemma AliasedSlots()
    ensures var slot := (Client, "a");
            && |Slots(AliasedNames())| == 2
            && Slots(AliasedNames())[0] == slot && Slots(AliasedNames()[1..]) == [slot]
            && ParameterSlot(AliasedNames()[0]) == slot && ParameterSlot(AliasedNames()[1]) == slot
  {
    hide ParameterSlot;
    Dotted("client", "a");
    Dotted("clientr", "a");
    assert "client" + "." + "a" == AliasedNames()[0] && "clientr" + "." + "a" == AliasedNames()[1];
    SlotsAt(AliasedNames());
    SlotsAt(AliasedNames()[1..]);
  }

  lemma AliasedIsHeld(vars: map<Slot, Value>, x: Value, y: Value)
    requires (Client, "a") !in vars
    ensures (Client, "a") in Slots(AliasedNames())
    ensures Held(vars, AliasedNames(), [x, y], (Client, "a")) == Some(x)
  {
    hide ParameterSlot, Slots;
    var slot, params := (Client, "a"), AliasedNames();
    AliasedSlots();
    assert slot == Slots(params)[0] && slot in Slots(params[1..]);
    var bound := vars[slot := x];
    assert [x, y][1..] == [y];
    NothingLater(params[1..], bound, [y], slot);
  }

  lemma NothingLater(params: seq<string>, vars: map<Slot, Value>, args: seq<Value>, slot: Slot)
    requires |params| == 1 && slot in Slots(params)
    ensures Held(vars, params, args, slot) == Lookup(vars, slot)
  {
    hide ParameterSlot;
    assert params[1..] == [] && Slots([]) == [];
  }

  /** `client` and `clientr` are one scope, so a function of `client.a` and `clientr.a`
      called on an unset variable leaves its first argument behind. */
  lemma AliasedParametersLeak(c: Cfg, st: St)
    requires st.core.depth < MAX_CALL_DEPTH
    requires st.core.functions == [Func("f", AliasedNames(), [])]
    requires (Client, "a") !in st.core.vars
    ensures var after := CallUser(c, "f", [NumV(1.0), NumV(2.0)], st).1.core.vars;
            Lookup(after, (Client, "a")) == Some(NumV(1.0))
  {
    hide Held, Slots, ParameterSlot, Restore, Bind, AliasedNames;
    var args := [NumV(1.0), NumV(2.0)];
    AliasedIsHeld(st.core.vars, args[0], args[1]);
    var (bound, saved) := Bind(st.core.vars, AliasedNames(), args);
    RestoreGivesHeld(st.core.vars, AliasedNames(), args, bound, (Client, "a"));
  }

  lemma {:induction false} FindCharAt(s: string, c: char, i: nat)
    requires i < |s| && s[i] == c && forall j :: 0 <= j < i ==> s[j] != c
    ensures FindChar(s, c) == Some(i)
    decreases i
  {
    if i > 0 { FindCharAt(s[1..], c, i - 1); }
  }

  lemma Dotted(scope: string, key: string)
    requires scope in Namespaces() && '.' !in scope
    ensures ParameterSlot(scope + "." + key) == (Namespaces()[scope], key)
  {
    var name := scope + "." + key;
    FindCharAt(name, '.', |scope|);
    assert name[..|scope|] == scope && name[|scope| + 1..] == key;
  }
}

/** What a user call binds: in the store its body starts in, and as that body sees it. */
module Gs1Binding {
  import opened Gs1Ast
  import opened Gs1Runtime
  import opened Gs1Exec
  import opened Gs1Params

  predicate Names(params: seq<string>, slot: Slot) {
    exists i :: 0 <= i < |params| && ParameterSlot(params[i]) == slot
  }

  /** `i` is the last parameter that names `slot`. */
  predicate LastToName(params: seq<string>, i: nat, slot: Slot) {
    && i < |params| && ParameterSlot(params[i]) == slot
    && forall j :: i < j < |params| ==> ParameterSlot(params[j]) != slot
  }

  lemma {:induction false} BindHolds(vars: map<Slot, Value>, params: seq<string>, args: seq<Value>, i: nat, slot: Slot)
    requires LastToName(params, i, slot)
    ensures Lookup(Bind(vars, params, args).0, slot) == Some(if i < |args| then args[i] else NumV(0.0))
    decreases |params|
  {
    hide ParameterSlot;
    var bound := vars[ParameterSlot(params[0]) := if args == [] then NumV(0.0) else args[0]];
    var later := if args == [] then [] else args[1..];
    if i == 0 {
      assert forall j :: 0 <= j < |params[1..]| ==> params[1..][j] == params[j + 1];
      BindLeaves(bound, params[1..], later, slot);
    } else {
      assert forall j :: 0 <= j < |params[1..]| ==> params[1..][j] == params[j + 1];
      BindHolds(bound, params[1..], later, i - 1, slot);
    }
  }

  lemma {:induction false} BindLeaves(vars: map<Slot, Value>, params: seq<string>, args: seq<Value>, slot: Slot)
    requires !Names(params, slot)
    ensures Lookup(Bind(vars, params, args).0, slot) == Lookup(vars, slot)
    decreases |params|
  {
    hide ParameterSlot;
    if params != [] {
      var later := if args == [] then [] else args[1..];
      assert forall j :: 0 <= j < |params[1..]| ==> params[1..][j] == params[j + 1];
      BindLeaves(vars[ParameterSlot(params[0]) := if args == [] then NumV(0.0) else args[0]],
                 params[1..], later, slot);
    }
  }

  /** The store a body starts in. A variable that parameters name holds the argument of the last
      of them, or 0 where the arguments have run out; every other variable is as the caller left
      it; and but for the store only the call depth has changed, by one. */
  lemma BodyStartsWithArguments(core: Core, f: Func, args: seq<Value>, slot: Slot)
    requires FindFunc(core.functions, f.name) == Some(f) && core.depth < 100
    ensures var entry := EnterCall(core, f.name, args);
            && entry.Entered? && entry.body == f.body
            && entry.core == core.(vars := entry.core.vars, depth := core.depth + 1)
            && (forall i: nat :: LastToName(f.params, i, slot) ==>
                  Lookup(entry.core.vars, slot) == Some(if i < |args| then args[i] else NumV(0.0)))
            && (!Names(f.params, slot) ==> Lookup(entry.core.vars, slot) == Lookup(core.vars, slot))
  {
    hide ParameterSlot, Bind;
    forall i: nat | LastToName(f.params, i, slot)
      ensures Lookup(EnterCall(core, f.name, args).core.vars, slot)
              == Some(if i < |args| then args[i] else NumV(0.0))
    {
      BindHolds(core.vars, f.params, args, i, slot);
    }
    if !Names(f.params, slot) { BindLeaves(core.vars, f.params, args, slot); }
  }

  lemma {:induction false} NoChar(s: string, c: char)
    requires c !in s
    ensures FindChar(s, c) == None
  {
    if s != "" {
      assert s[0] in s;
      assert forall x :: x in s[1..] ==> x in s;
      NoChar(s[1..], c);
    }
  }

  /** A parameter's name and the reference a body writes for it mean one variable. */
  lemma ParameterIsItsReference(scope: string, key: string)
    requires '.' !in scope && '.' !in key
    ensures scope in Namespaces() ==>
              ParameterSlot(scope + "." + key) == SlotOf(Ref([PathPart(scope, []), PathPart(key, [])]))
              == (Namespaces()[scope], key)
    ensures ParameterSlot(key) == SlotOf(Ref([PathPart(key, [])])) == (Bare, key)
  {
    hide Namespaces;
    NoChar(key, '.');
    OneName(PathPart(key, []));
    if scope in Namespaces() {
      Dotted(scope, key);
      var parts := [PathPart(scope, []), PathPart(key, [])];
      assert parts[1..] == [PathPart(key, [])];
      assert PartNames(parts) == [scope, key] && [scope, key][1..] == [key];
    }
  }

  lemma OneName(part: PathPart)
    ensures PartNames([part]) == [part.name] && JoinDots([part.name]) == part.name
  {
    assert PartNames([]) == [];
  }

  // ------------------------------------------------------------- reading and writing

  predicate Unindexed(parts: seq<PathPart>) { forall p :: p in parts ==> p.index == [] }

  /** Nothing stands between the store and a read of `slot`: no reserved constant, no event of
      that name, and no property the host supplies. */
  predicate ReadsStore(env: Env, core: Core, slot: Slot) {
    slot.0.Bare? ==>
      && slot.1 !in {"pi", "allstats", "allfeatures"} && (slot.1 == "" || slot.1 != core.activeEvent)
      && env.answer(core.log, HostCall(GetBuiltin, slot.1, [], [], core.thisObj, core.heap)).None?
  }

  /** Nor between the store and an assignment to it. */
  predicate WritesStore(env: Env, core: Core, slot: Slot, v: Value) {
    slot.0.Bare? ==>
      && slot.1 !in {"pi", "allstats", "allfeatures"}
      && env.answer(core.log, HostCall(SetBuiltin, slot.1, [v], [], core.thisObj, core.heap)).None?
  }

  lemma {:induction false} NoIndices(c: Cfg, parts: seq<PathPart>, st: St)
    requires Unindexed(parts)
    ensures EvalIndices(c, parts, st) == (Ints([]), st)
    decreases |parts|
  {
    if parts != [] {
      var none: seq<int> := [];
      assert parts[0].index == [] && EvalAll(c, parts[0].index, st) == (Vals([]), st);
      assert ToInts(c.env, st.core.heap, []) == none;
      NoIndices(c, parts[1..], st);
      assert none + none == none;
    }
  }

  /** A variable reads as what the store holds for it, 0 if nothing; only the host's history
      may have grown. */
  lemma ReadGives(c: Cfg, ref: Ref, st: St)
    requires Unindexed(ref.parts) && ReadsStore(c.env, st.core, SlotOf(ref))
    ensures var (r, st1) := Eval(c, VarRef(ref), st);
            var held := Lookup(st.core.vars, SlotOf(ref));
            r == Val(if held.Some? then held.value else NumV(0.0))
            && st1 == WithCore(st, st.core.(log := st1.core.log))
  {
    hide SlotOf, EvalIndices;
    NoIndices(c, ref.parts, st);
    var (held, core) := ReadRef(c.env, st.core, SlotOf(ref), []);
    assert Fetch(c, ref, st) == (Found(held), WithCore(st, core));
    assert EvalVar(c, ref, st) == (Val(OrZero(held)), WithCore(st, core));
  }

  /** A stored variable holds what was stored; no other variable, list or count changes. */
  lemma StorePuts(c: Cfg, ref: Ref, v: Value, st: St)
    requires Unindexed(ref.parts) && WritesStore(c.env, st.core, SlotOf(ref), v)
    ensures var (x, st1) := Store(c, ref, v, st);
            x == None && st1 == WithCore(st, st.core.(vars := st.core.vars[SlotOf(ref) := v], log := st1.core.log))
  {
    hide SlotOf, EvalIndices;
    NoIndices(c, ref.parts, st);
  }

  /** `dst = src`: what the source variable holds arrives, text turned into its number. */
  function Arrives(env: Env, obj: Value, v: Value): Value {
    if v.StrV? && !(obj.HostObject? && obj.withMembers) then NumV(env.parseNum(v.s)) else v
  }

  predicate Plain(v: Value) { v.NumV? || v.BoolV? || v.ListV? || v.StrV? }

  lemma CopyMoves(c: Cfg, dst: Ref, src: Ref, st: St)
    requires Unindexed(src.parts) && Unindexed(dst.parts)
    requires SlotOf(src).0 != Bare && SlotOf(dst).0 != Bare
    requires SlotOf(src) in st.core.vars && Plain(st.core.vars[SlotOf(src)])
    ensures var (x, st1) := EvalAssign(c, Assignment(dst, SetTo, VarRef(src)), st);
            var v := Arrives(c.env, st.core.thisObj, st.core.vars[SlotOf(src)]);
            x == None && st1.core.vars == st.core.vars[SlotOf(dst) := v]
  {
    hide SlotOf, Eval, Store, IsBareTimeout, CoerceAssigned, Arrives;
    ReadGives(c, src, st);
    var (r, st1) := Eval(c, VarRef(src), st);
    var st2 := NoteTimer(st1, SetTo, dst);
    CoercedArrives(c.env, st2.core, src, r.v);
    StorePuts(c, dst, Arrives(c.env, st.core.thisObj, r.v), st2);
  }

  lemma CoercedArrives(env: Env, core: Core, src: Ref, v: Value)
    requires Plain(v)
    ensures CoerceAssigned(env, core, SetTo, VarRef(src), v) == Arrives(env, core.thisObj, v)
  {
  }

  /** `f(args)` where `f` copies its parameter `i` into a variable of its own: argument `i` is
      found there afterwards, 0 if there was none. */
  lemma CalleeSeesArgument(c: Cfg, f: Func, args: seq<Value>, i: nat, src: Ref, dst: Ref, st: St)
    requires FindFunc(st.core.functions, f.name) == Some(f) && st.core.depth < 100
    requires f.body == [Assign(Assignment(dst, SetTo, VarRef(src)))] && Tick(c, st).Some?
    requires Unindexed(src.parts) && Unindexed(dst.parts)
    requires i < |f.params| && ParameterSlot(f.params[i]) == SlotOf(src) && SlotOf(src).0 != Bare
    requires forall j :: 0 <= j < |f.params| && j != i ==> ParameterSlot(f.params[j]) != SlotOf(src)
    requires SlotOf(dst).0 != Bare && !Names(f.params, SlotOf(dst))
    requires i < |args| ==> Plain(args[i])
    ensures var (o, st1) := CallUser(c, f.name, args, st);
            o == Normal
            && Lookup(st1.core.vars, SlotOf(dst)) ==
                 Some(Arrives(c.env, st.core.thisObj, if i < |args| then args[i] else NumV(0.0)))
  {
    hide ParameterSlot, SlotOf, Bind, Restore, EvalAssign, ExecBlock, Arrives, Names, Plain, EnterCall, Tick;
    BodyStartsWithArguments(st.core, f, args, SlotOf(src));
    var entry := EnterCall(st.core, f.name, args);
    assert LastToName(f.params, i, SlotOf(src));
    var st0 := WithCore(st, entry.core);
    TickLeaves(c, st, st0);
    BodyRuns(c, f.body, st0);
    var st1 := Tick(c, st0).value;
    NumbersArrive(c.env, st.core.thisObj);
    CopyMoves(c, dst, src, st1);
    RestoreLeaves(st.core.vars, f.params, args, ExecBlock(c, f.body, st0).1.core.vars, SlotOf(dst));
    CallRuns(c, f, args, st);
  }

  lemma CallRuns(c: Cfg, f: Func, args: seq<Value>, st: St)
    requires FindFunc(st.core.functions, f.name) == Some(f) && st.core.depth < 100
    ensures var (o, st1) := ExecBlock(c, f.body, WithCore(st, EnterCall(st.core, f.name, args).core));
            CallUser(c, f.name, args, st) ==
              (AfterCall(o), WithCore(st1, LeaveCall(st1.core, Bind(st.core.vars, f.params, args).1)))
  {
    hide Bind, ExecBlock, LeaveCall;
  }

  lemma TickLeaves(c: Cfg, st: St, st0: St)
    requires st0.steps == st.steps && Tick(c, st).Some?
    ensures Tick(c, st0).Some? && Tick(c, st0).value.core == st0.core
  {
  }

  lemma NumbersArrive(env: Env, obj: Value)
    ensures Plain(NumV(0.0)) && Arrives(env, obj, NumV(0.0)) == NumV(0.0)
  {
  }

  lemma BodyRuns(c: Cfg, body: seq<Stmt>, st: St)
    requires |body| == 1 && body[0].Assign? && Tick(c, st).Some?
    ensures var (x, st1) := EvalAssign(c, body[0].assignment, Tick(c, st).value);
            ExecBlock(c, body, st) == (Signalled(x), st1)
  {
    hide EvalAssign;
    var st1 := Tick(c, st).value;
    var (x, st2) := EvalAssign(c, body[0].assignment, st1);
    assert ExecLeaf(c, body[0], st1) == (Signalled(x), st2);
    assert ExecBody(c, body[0], st1) == (Signalled(x), st2);
    assert Exec(c, body[0], st) == (Signalled(x), st2);
    assert ExecBlock(c, body[1..], st2) == (Normal, st2);
  }

  lemma RestoreLeaves(
    vars: map<Slot, Value>, params: seq<string>, args: seq<Value>, after: map<Slot, Value>, slot: Slot)
    requires !Names(params, slot)
    ensures Lookup(Restore(after, Bind(vars, params, args).1), slot) == Lookup(after, slot)
  {
    hide ParameterSlot, Bind, Restore, Held;
    SlotsAt(params);
    RestoreGivesHeld(vars, params, args, after, slot);
  }
}

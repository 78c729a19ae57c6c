/** The GS2 virtual machine (reborn_protocol/gs2/vm.py): the instruction handlers that work
    on a frame's stack, its variables, its `with` scopes and its registers. Conversions,
    arithmetic, the host and the remaining opcodes are parameters. */
module Gs2Vm {
  import opened Bytes
  import opened Gs2Disasm

  /** Script values and the references that stand for them on a stack. */
  datatype Value =
    | Num(n: real) | Flag(b: bool) | Text(s: string) | Null | Unset
    | Obj(id: nat) | Cells(items: seq<Value>)
    | Marker
    | VarRef(name: string) | Slot(base: Value, key: string)

  /** Objects' members, the globals, and what has been asked of the host. */
  datatype Store = Store(heap: map<nat, map<string, Value>>, globals: map<string, Value>, next: nat, asked: nat)

  datatype HostAnswer = Answer(value: Value, store: Store) | Wait(value: Value, store: Store) | Refusal(store: Store)

  datatype Env = Env(
    fold: string -> string,
    truthy: Value -> bool,
    num: Value -> real,
    str: Value -> string,
    literal: bytes -> real,
    unary: (byte, Value) -> Value,
    binary: (byte, Value, Value) -> Value,
    named: string -> Option<nat>,
    keys: map<string, Value> -> seq<string>,
    host: (Store, Value, seq<Value>) -> HostAnswer,
    other: (Instruction, Frame, Store) -> (seq<Value>, Store, bool))

  /** One loaded script. */
  datatype Script = Script(
    code: seq<Instruction>,
    strings: seq<string>,
    functions: map<string, int>,
    joined: seq<nat>,
    owner: nat,
    maxOps: nat,
    maxErrors: nat)

  /** `chain` lists the scripts, outermost first, that a call through joined classes went
      through before it reached the one that runs the frame. */
  datatype Frame = Frame(
    script: nat,
    chain: seq<nat>,
    ip: int,
    stack: seq<Value>,
    temps: nat,
    args: seq<Value>,
    withs: seq<nat>,
    registers: map<int, Value>)

  // ------------------------------------------------------------- stacks

  /** `stack.pop() if stack else None` */
  function Top(stack: seq<Value>): Value { if stack == [] then Unset else stack[|stack| - 1] }

  function Rest(stack: seq<Value>): seq<Value> { if stack == [] then [] else stack[..|stack| - 1] }

  function Denull(v: Value): Value { if v.Null? then Unset else v }

  /** What `_pop_args` takes: everything above the topmost marker, topmost first. */
  function ArgsOf(stack: seq<Value>): seq<Value> {
    if stack == [] || Top(stack).Marker? then [] else [Denull(Top(stack))] + ArgsOf(Rest(stack))
  }

  /** What it leaves: the stack below that marker. */
  function BelowMarker(stack: seq<Value>): (r: seq<Value>)
    ensures r <= stack
  {
    if stack == [] then [] else if Top(stack).Marker? then Rest(stack) else BelowMarker(Rest(stack))
  }

  function Reversed(vs: seq<Value>): (r: seq<Value>)
    ensures |r| == |vs|
  {
    if vs == [] then [] else Reversed(vs[1..]) + [vs[0]]
  }

  predicate NoMarker(vs: seq<Value>) { forall k :: 0 <= k < |vs| ==> !vs[k].Marker? }

  function DenullAll(vs: seq<Value>): (r: seq<Value>)
    ensures |r| == |vs| && forall k :: 0 <= k < |vs| ==> r[k] == Denull(vs[k])
  {
    seq(|vs|, k requires 0 <= k < |vs| => Denull(vs[k]))
  }

  /** Values pushed in reverse above a marker are popped in source order, and nothing below
      the marker is touched. */
  lemma {:induction false} ReversePushedArgs(below: seq<Value>, vs: seq<Value>)
    requires NoMarker(vs)
    ensures ArgsOf(below + [Marker] + Reversed(vs)) == DenullAll(vs)
    ensures BelowMarker(below + [Marker] + Reversed(vs)) == below
    decreases |vs|
  {
    var stack := below + [Marker] + Reversed(vs);
    if vs == [] {
      assert Rest(stack) == below;
    } else {
      assert Rest(stack) == below + [Marker] + Reversed(vs[1..]) && Top(stack) == vs[0];
      ReversePushedArgs(below, vs[1..]);
      assert DenullAll(vs) == [Denull(vs[0])] + DenullAll(vs[1..]);
    }
  }

  // ------------------------------------------------------------- variables

  predicate Has(e: Env, s: Store, id: nat, key: string) { id in s.heap && e.fold(key) in s.heap[id] }

  function Get(e: Env, s: Store, id: nat, key: string): Value {
    if Has(e, s, id, key) then s.heap[id][e.fold(key)] else Unset
  }

  function Set(e: Env, s: Store, id: nat, key: string, v: Value): Store {
    var members := if id in s.heap then s.heap[id] else map[];
    s.(heap := s.heap[id := members[e.fold(key) := v]])
  }

  /** The innermost `with` target that has the member. */
  function WithHolder(e: Env, s: Store, withs: seq<nat>, key: string): Option<nat> {
    if withs == [] then None
    else if Has(e, s, withs[|withs| - 1], key) then Some(withs[|withs| - 1])
    else WithHolder(e, s, withs[..|withs| - 1], key)
  }

  /** `_lookup`: with-scopes, temps, this, globals, the parameter array, named objects. */
  function Lookup(e: Env, x: Script, s: Store, f: Frame, name: string): Value {
    var holder := WithHolder(e, s, f.withs, name);
    if holder.Some? then Get(e, s, holder.value, name)
    else if Has(e, s, f.temps, name) then Get(e, s, f.temps, name)
    else if Has(e, s, x.owner, name) then Get(e, s, x.owner, name)
    else if e.fold(name) in s.globals then s.globals[e.fold(name)]
    else if e.fold(name) == "params" then Cells(f.args)
    else
      var found := e.named(e.fold(name));
      if found.Some? then Obj(found.value) else Unset
  }

  function Deref(e: Env, x: Script, s: Store, f: Frame, v: Value): Value {
    match v
    case VarRef(name) => Lookup(e, x, s, f, name)
    case Slot(base, key) => if base.Obj? then Get(e, s, base.id, key) else Unset
    case _ => v
  }

  function DerefAll(e: Env, x: Script, s: Store, f: Frame, vs: seq<Value>): (r: seq<Value>)
    ensures |r| == |vs|
    ensures forall k :: 0 <= k < |vs| ==> r[k] == Deref(e, x, s, f, vs[k])
  {
    seq(|vs|, k requires 0 <= k < |vs| => Deref(e, x, s, f, vs[k]))
  }

  /** `_assign_name`: where the name is, else a global. */
  function AssignName(e: Env, x: Script, s: Store, f: Frame, name: string, v: Value): Store {
    var holder := WithHolder(e, s, f.withs, name);
    if holder.Some? then Set(e, s, holder.value, name, v)
    else if Has(e, s, f.temps, name) then Set(e, s, f.temps, name, v)
    else if Has(e, s, x.owner, name) then Set(e, s, x.owner, name, v)
    else s.(globals := s.globals[e.fold(name) := v])
  }

  function WriteRef(e: Env, x: Script, s: Store, f: Frame, target: Value, v: Value): Store {
    match target
    case Slot(base, key) => if base.Obj? then Set(e, s, base.id, key, Denull(v)) else s
    case VarRef(name) => AssignName(e, x, s, f, name, Denull(v))
    case _ => s
  }

  // ------------------------------------------------------------- parameters

  /** The member of the frame's own scope that a parameter reference names; references to
      another object write there instead. */
  function BindOne(e: Env, s: Store, f: Frame, target: Value, v: Value): Store {
    if target.Slot? && !target.base.Unset? then
      if target.base.Obj? then Set(e, s, target.base.id, target.key, v) else s
    else Set(e, s, f.temps, if target.VarRef? then target.name else e.str(target), v)
  }

  /** The loop of `_op_func_params_end`, from parameter `k` on. */
  function BindFrom(e: Env, s: Store, f: Frame, names: seq<Value>, k: nat): Store
    decreases |names| - k
  {
    if k >= |names| then s
    else BindFrom(e, BindOne(e, s, f, names[k], if k < |f.args| then f.args[k] else Unset), f, names, k + 1)
  }

  /** A parameter reference in either prologue style. */
  predicate ParamRef(f: Frame, ref: Value) {
    ref.VarRef? || (ref.Slot? && ref.base == Obj(f.temps))
  }

  function ParamName(ref: Value): string
    requires ref.VarRef? || ref.Slot?
  {
    if ref.VarRef? then ref.name else ref.key
  }

  predicate ParamRefs(f: Frame, refs: seq<Value>) {
    forall k :: 0 <= k < |refs| ==> ParamRef(f, refs[k])
  }

  function ParamKey(e: Env, ref: Value): string
    requires ref.VarRef? || ref.Slot?
  {
    e.fold(ParamName(ref))
  }

  predicate DistinctParams(e: Env, f: Frame, refs: seq<Value>)
    requires ParamRefs(f, refs)
  {
    forall j, k :: 0 <= j < k < |refs| ==> ParamKey(e, refs[j]) != ParamKey(e, refs[k])
  }

  function ArgAt(f: Frame, k: nat): Value { if k < |f.args| then f.args[k] else Unset }

  /** The members of the frame's scope once the parameters from `k` on are bound. */
  function Bound(e: Env, f: Frame, refs: seq<Value>, k: nat, members: map<string, Value>): map<string, Value>
    requires ParamRefs(f, refs) && k <= |refs|
    decreases |refs| - k
  {
    if k == |refs| then members
    else Bound(e, f, refs, k + 1, members[ParamKey(e, refs[k]) := ArgAt(f, k)])
  }

  lemma {:induction false} BindingIsBound(e: Env, s: Store, f: Frame, refs: seq<Value>, k: nat)
    requires ParamRefs(f, refs) && k <= |refs| && f.temps in s.heap
    ensures BindFrom(e, s, f, refs, k) ==
              s.(heap := s.heap[f.temps := Bound(e, f, refs, k, s.heap[f.temps])])
    decreases |refs| - k
  {
    if k < |refs| {
      assert ParamRef(f, refs[k]);
      var next := BindOne(e, s, f, refs[k], ArgAt(f, k));
      assert next == Set(e, s, f.temps, ParamName(refs[k]), ArgAt(f, k));
      BindingIsBound(e, next, f, refs, k + 1);
    } else {
      assert s.heap[f.temps := s.heap[f.temps]] == s.heap;
    }
  }

  lemma {:induction false} BoundKeeps(
    e: Env, f: Frame, refs: seq<Value>, k: nat, members: map<string, Value>, key: string)
    requires ParamRefs(f, refs) && k <= |refs|
    requires forall j :: k <= j < |refs| ==> key != ParamKey(e, refs[j])
    ensures var after := Bound(e, f, refs, k, members);
            (key in after <==> key in members) && (key in members ==> after[key] == members[key])
    decreases |refs| - k
  {
    if k < |refs| {
      assert key != ParamKey(e, refs[k]);
      BoundKeeps(e, f, refs, k + 1, members[ParamKey(e, refs[k]) := ArgAt(f, k)], key);
    }
  }

  lemma {:induction false} BoundHolds(
    e: Env, f: Frame, refs: seq<Value>, k: nat, members: map<string, Value>, j: nat)
    requires ParamRefs(f, refs) && DistinctParams(e, f, refs) && k <= j < |refs|
    ensures var after := Bound(e, f, refs, k, members);
            ParamKey(e, refs[j]) in after && after[ParamKey(e, refs[j])] == ArgAt(f, j)
    decreases |refs| - k
  {
    var next := members[ParamKey(e, refs[k]) := ArgAt(f, k)];
    if k == j {
      forall m | k + 1 <= m < |refs| ensures ParamKey(e, refs[j]) != ParamKey(e, refs[m]) {}
      BoundKeeps(e, f, refs, k + 1, next, ParamKey(e, refs[j]));
    } else {
      BoundHolds(e, f, refs, k + 1, next, j);
    }
  }

  /** In either prologue style, distinct parameters end up with the argument in their place,
      or unset; nothing else in the frame's scope and nothing outside it changes. */
  lemma ParametersBindInOrder(e: Env, s: Store, f: Frame, refs: seq<Value>)
    requires ParamRefs(f, refs) && DistinctParams(e, f, refs) && f.temps in s.heap
    ensures var after := BindFrom(e, s, f, refs, 0);
            && f.temps in after.heap && after == s.(heap := s.heap[f.temps := after.heap[f.temps]])
            && (forall k :: 0 <= k < |refs| ==>
                  Get(e, after, f.temps, ParamName(refs[k])) == if k < |f.args| then f.args[k] else Unset)
            && (forall key: string :: (forall k :: 0 <= k < |refs| ==> key != ParamKey(e, refs[k])) ==>
                  (key in after.heap[f.temps] <==> key in s.heap[f.temps])
                  && (key in s.heap[f.temps] ==> after.heap[f.temps][key] == s.heap[f.temps][key]))
  {
    hide Bound, DistinctParams, ParamRefs;
    BindingIsBound(e, s, f, refs, 0);
    var after := BindFrom(e, s, f, refs, 0);
    var members := s.heap[f.temps];
    ParamRefsAre(f, refs);
    forall k | 0 <= k < |refs|
      ensures Get(e, after, f.temps, ParamName(refs[k])) == if k < |f.args| then f.args[k] else Unset
    {
      BoundHolds(e, f, refs, 0, members, k);
    }
    forall key: string | forall k :: 0 <= k < |refs| ==> key != ParamKey(e, refs[k])
      ensures (key in after.heap[f.temps] <==> key in members)
              && (key in members ==> after.heap[f.temps][key] == members[key])
    {
      BoundKeeps(e, f, refs, 0, members, key);
    }
  }

  lemma ParamRefsAre(f: Frame, refs: seq<Value>)
    requires ParamRefs(f, refs)
    ensures forall k :: 0 <= k < |refs| ==> refs[k].VarRef? || refs[k].Slot?
  {
    forall k | 0 <= k < |refs| ensures refs[k].VarRef? || refs[k].Slot? { assert ParamRef(f, refs[k]); }
  }

  // ------------------------------------------------------------- handlers

  /** What a handler does to its frame. */
  datatype Effect =
    | Next(f: Frame, s: Store)
    | Jump(f: Frame, s: Store, target: int)
    | Return(value: Value)
    | Raise(f: Frame, s: Store)

  function Trunc(r: real): int { if r >= 0.0 then r.Floor else -((-r).Floor) }

  /** The operand as a number; an instruction without one raises. */
  function OperandReal(e: Env, i: Instruction): Option<real> {
    if i.operand.None? then None
    else match i.operand.value.value
         case Number(n) => Some(n as real)
         case Text(t) => Some(e.literal(t))
  }

  function JumpTo(e: Env, i: Instruction, f: Frame, s: Store): Effect {
    var to := OperandReal(e, i);
    if to.None? then Raise(f, s) else Jump(f, s, Trunc(to.value))
  }

  /** A string-table entry; an index out of the table gives the empty string, one that is no
      whole number raises. */
  function TableEntry(e: Env, x: Script, i: Instruction): Option<string> {
    if i.operand.None? then None
    else
      match i.operand.value.value
      case Number(k) => Some(if 0 <= k < |x.strings| then x.strings[k] else "")
      case Text(t) => if 0.0 <= e.literal(t) < |x.strings| as real then None else Some("")
  }

  function Register(e: Env, i: Instruction): int {
    var n := OperandReal(e, i);
    if n.Some? then Trunc(n.value) else 0
  }

  /** `_current_this`: the innermost `with` target that is not the player. */
  function CurrentThis(x: Script, withs: seq<nat>, player: Option<nat>): Value {
    if withs == [] then Obj(x.owner)
    else if player != Some(withs[|withs| - 1]) then Obj(withs[|withs| - 1])
    else CurrentThis(x, withs[..|withs| - 1], player)
  }

  function Push(f: Frame, v: Value): Frame { f.(stack := f.stack + [v]) }

  predicate UnaryOp(op: byte) { op in {33, 34, 44, 68, 69, 86, 88, 89, 90, 91} }

  predicate BinaryOp(op: byte) {
    60 <= op <= 67 || 70 <= op <= 78 || op in {81, 92, 93, 94, 95, 96, 101, 102, 104, 121}
  }

  /** A jump that pops its condition: `set_index_true` and `if` just jump, `or` and `and`
      leave the value that decided them. */
  function Branch(e: Env, x: Script, s: Store, f: Frame, i: Instruction): Effect {
    var holds := e.truthy(Deref(e, x, s, f, Top(f.stack)));
    var popped := f.(stack := Rest(f.stack));
    if i.opnum == 2 then if holds then JumpTo(e, i, popped, s) else Next(popped, s)
    else if i.opnum == 4 then if holds then Next(popped, s) else JumpTo(e, i, popped, s)
    else if i.opnum == 3 then if holds then JumpTo(e, i, Push(popped, Flag(true)), s) else Next(popped, s)
    else if holds then Next(popped, s) else JumpTo(e, i, Push(popped, Flag(false)), s)
  }

  /** `_op_member_access` */
  function Member(e: Env, x: Script, s: Store, f: Frame): Frame {
    var namev, under := Top(f.stack), Rest(f.stack);
    var entry, below := Top(under), Rest(under);
    var name := if namev.VarRef? then namev.name else e.str(Deref(e, x, s, f, namev));
    var base := if entry.VarRef? || entry.Slot? then Deref(e, x, s, f, entry) else entry;
    var held := if base.Obj? || base.Cells? || entry.Text? then base else Unset;
    f.(stack := below + [Slot(held, name)])
  }

  /** `_op_with`: an object becomes the innermost scope, anything else skips the block. */
  function EnterWith(e: Env, x: Script, s: Store, f: Frame, i: Instruction): Effect {
    var target := Deref(e, x, s, f, Top(f.stack));
    var popped := f.(stack := Rest(f.stack));
    if target.Obj? then Next(popped.(withs := popped.withs + [target.id]), s) else JumpTo(e, i, popped, s)
  }

  /** `_op_foreach` on [variable, collection, index]. */
  function Foreach(e: Env, x: Script, s: Store, f: Frame, i: Instruction): Effect {
    if |f.stack| < 3 then JumpTo(e, i, f, s)
    else
      var n := |f.stack| - 3;
      var target, entry, popped := f.stack[n], f.stack[n + 1], f.(stack := f.stack[..n]);
      var k := Trunc(e.num(Deref(e, x, s, f, f.stack[n + 2])));
      var over := Deref(e, x, s, f, entry);
      var items := if over.Obj? && over.id in s.heap then Names(e.keys(s.heap[over.id]))
                   else if over.Cells? then over.items else [];
      if k >= |items| then JumpTo(e, i, Push(popped, target), s)
      else if k < -|items| then Raise(popped, s)
      else
        var item := items[if k < 0 then k + |items| else k];
        Next(Push(Push(Push(popped, target), entry), Num(k as real)), WriteRef(e, x, s, popped, target, item))
  }

  function Names(keys: seq<string>): seq<Value> { seq(|keys|, k requires 0 <= k < |keys| => Value.Text(keys[k])) }

  /** `_op_inc` and `_op_dec` */
  function Count(e: Env, x: Script, s: Store, f: Frame, delta: real): Effect {
    var target, popped := Top(f.stack), f.(stack := Rest(f.stack));
    var v := Num(e.num(Deref(e, x, s, f, target)) + delta);
    if target.VarRef? || target.Slot? then Next(Push(popped, target), WriteRef(e, x, s, popped, target, v))
    else Next(Push(popped, v), s)
  }

  /** The handler of every opcode but OP_CALL, and OP_SLEEP outside coroutines. */
  function Handle(e: Env, x: Script, s: Store, f: Frame, i: Instruction): Effect {
    var op := i.opnum;
    var top, popped := Top(f.stack), f.(stack := Rest(f.stack));
    if op in {0, 9, 10, 40} then Next(f, s)
    else if op == 1 then JumpTo(e, i, f, s)
    else if op in {2, 3, 4, 5} then Branch(e, x, s, f, i)
    else if op == 7 then Return(Deref(e, x, s, f, top))
    else if op == 8 then Next(popped, s)
    else if op == 11 then Next(Push(f.(stack := Rest(Rest(Rest(f.stack)))), Num(0.0)), s)
    else if op == 20 then
      if i.operand.None? then Raise(f, s) else Next(Push(f, Num(OperandReal(e, i).value)), s)
    else if op == 21 then
      var text := TableEntry(e, x, i);
      if text.None? then Raise(f, s) else Next(Push(f, Value.Text(text.value)), s)
    else if op == 22 then
      var text := TableEntry(e, x, i);
      if text.None? then Raise(f, s) else Next(Push(f, VarRef(text.value)), s)
    else if op == 23 then Next(Push(f, Marker), s)
    else if op == 24 then Next(Push(f, Flag(true)), s)
    else if op == 25 then Next(Push(f, Flag(false)), s)
    else if op == 26 then Next(Push(f, Null), s)
    else if op == 30 then Next(if f.stack == [] then f else Push(f, top), s)
    else if op == 31 then
      if |f.stack| < 2 then Next(f, s)
      else Next(f.(stack := Rest(Rest(f.stack)) + [top, Top(Rest(f.stack))]), s)
    else if op == 32 then Next(popped, s)
    else if op == 35 then Next(Member(e, x, s, f), s)
    else if op == 37 then
      Next(f.(stack := BelowMarker(f.stack) + [Cells(DerefAll(e, x, s, f, ArgsOf(f.stack)))]), s)
    else if op == 41 then Next(Push(popped, VarRef(e.str(Deref(e, x, s, f, top)))), s)
    else if op == 45 then
      var n := Register(e, i);
      Next(if f.stack != [] && 0 <= n <= 0x3FF then f.(registers := f.registers[n := top]) else f, s)
    else if op == 46 then
      var n := Register(e, i);
      Next(Push(f, if n in f.registers then f.registers[n] else Unset), s)
    else if op == 47 then
      Next(if top.Text? then Push(popped, VarRef(top.s)) else f, s)
    else if op == 50 then
      var target := Top(Rest(f.stack));
      Next(f.(stack := Rest(Rest(f.stack))), WriteRef(e, x, s, f, target, Deref(e, x, s, f, top)))
    else if op == 51 then
      Next(f.(stack := BelowMarker(f.stack)), BindFrom(e, s, f, ArgsOf(f.stack), 0))
    else if op == 52 then Count(e, x, s, f, 1.0)
    else if op == 53 then Count(e, x, s, f, -1.0)
    else if UnaryOp(op) then Next(Push(popped, e.unary(op, Deref(e, x, s, f, top))), s)
    else if BinaryOp(op) then
      var under := Rest(f.stack);
      Next(f.(stack := Rest(under) + [e.binary(op, Deref(e, x, s, f, Top(under)), Deref(e, x, s, f, top))]), s)
    else if op == 150 then EnterWith(e, x, s, f, i)
    else if op == 151 then Next(f.(withs := if f.withs == [] then [] else f.withs[..|f.withs| - 1]), s)
    else if op == 163 then Foreach(e, x, s, f, i)
    else if op == 180 then Next(Push(f, CurrentThis(x, f.withs, e.named("player"))), s)
    else if op == 181 then Next(Push(f, Obj(x.owner)), s)
    else if op == 189 then Next(Push(f, Obj(f.temps)), s)
    else if op == 190 then Next(Push(f, Cells(f.args)), s)
    else
      var (stack, store, raised) := e.other(i, f, s);
      if raised then Raise(f.(stack := stack), store) else Next(f.(stack := stack), store)
  }
}

/** What the instructions of the GS2 machine do to a frame's stack, to variables and to the
    caller: laws of whole steps (the handlers of reborn_protocol/gs2/vm.py). */
module Gs2Laws {
  import opened Bytes
  import Gs2Disasm
  import opened Gs2Vm
  import opened Gs2Machine
  import opened Gs2Calls
  import opened Gs2Jumps

  function Code(w: World, m: Machine): Script
    requires m.frames != [] && TopFrame(m).script < |w.scripts|
  {
    w.scripts[TopFrame(m).script]
  }

  /** The top frame is at an instruction `op` it has budget for, with this stack. */
  predicate At(w: World, m: Machine, op: byte, stack: seq<Value>) {
    Acyclic(w) && m.frames != [] && Ready(w, m, TopFrame(m).ip, 1) && OpAt(Code(w, m), TopFrame(m).ip, op)
    && TopFrame(m).stack == stack
  }

  /** What the frame's next instruction reads through a reference. */
  function Read(w: World, m: Machine, v: Value): Value
    requires m.frames != [] && TopFrame(m).script < |w.scripts|
  {
    Deref(w.env, Code(w, m), m.store, TopFrame(m), v)
  }

  lemma DerefIgnoresPlace(e: Env, x: Script, s: Store, f: Frame, g: Frame, v: Value)
    requires f.withs == g.withs && f.temps == g.temps && f.args == g.args
    ensures Deref(e, x, s, f, v) == Deref(e, x, s, g, v)
  {
  }

  lemma Does(w: World, m: Machine, op: byte, stack: seq<Value>, f: Frame, s: Store)
    requires At(w, m, op, stack) && op != 6 && op != 8
    requires Handle(w.env, Code(w, m), m.store, Advanced(m), Current(w, m)) == Next(f, s)
    ensures f.script == TopFrame(m).script
    ensures Run(w, m, 1) == Moved(m, f, s, Used(m, f.script) + 1)
  {
    hide Handle;
    OpSteps(w, m, f, s);
    OneStep(w, m);
  }

  // ------------------------------------------------------------- the stack

  /** Instructions that push one value. */
  lemma Pushes(w: World, m: Machine, op: byte, stack: seq<Value>, v: Value)
    requires At(w, m, op, stack) && op in {24, 25, 26, 181, 189, 190}
    requires v == if op == 24 then Flag(true) else if op == 25 then Flag(false) else if op == 26 then Null
                  else if op == 181 then Obj(Code(w, m).owner) else if op == 189 then Obj(TopFrame(m).temps)
                  else Cells(TopFrame(m).args)
    ensures Run(w, m, 1) == Pushed(m, 1, stack + [v])
  {
    Does(w, m, op, stack, Push(Advanced(m), v), m.store);
  }

  /** A number or a string of the table, by its operand. */
  lemma PushesOperand(w: World, m: Machine, op: byte, stack: seq<Value>, n: int)
    requires At(w, m, op, stack) && op in {20, 21, 22} && TargetAt(Code(w, m), TopFrame(m).ip, op, n)
    ensures var text := if 0 <= n < |Code(w, m).strings| then Code(w, m).strings[n] else "";
            Run(w, m, 1) ==
              Pushed(m, 1, stack + [if op == 20 then Num(n as real) else if op == 21 then Text(text) else VarRef(text)])
  {
    var text := if 0 <= n < |Code(w, m).strings| then Code(w, m).strings[n] else "";
    var v := if op == 20 then Num(n as real) else if op == 21 then Text(text) else VarRef(text);
    Does(w, m, op, stack, Push(Advanced(m), v), m.store);
  }

  /** A name or string whose number is written as text: a number within the table, being no
      whole one to the machine, raises; any other gives the empty string. */
  lemma TextIsNoIndex(w: World, m: Machine, op: byte, stack: seq<Value>, text: bytes)
    requires At(w, m, op, stack) && op in {21, 22}
    requires var operand := Current(w, m).operand; operand.Some? && operand.value.value == Gs2Disasm.Text(text)
    ensures var n := w.env.literal(text);
            Run(w, m, 1) ==
              if 0.0 <= n < |Code(w, m).strings| as real then Failed(w, Pushed(m, 1, stack))
              else Pushed(m, 1, stack + [if op == 21 then Text("") else VarRef("")])
  {
    hide Handle, Failed, Run;
    var n, v := w.env.literal(text), if op == 21 then Text("") else VarRef("");
    TextHandled(w.env, Code(w, m), m.store, Advanced(m), Current(w, m), text);
    if 0.0 <= n < |Code(w, m).strings| as real {
      Raises(w, m, Advanced(m));
    } else {
      Does(w, m, op, stack, Push(Advanced(m), v), m.store);
    }
  }

  lemma TextHandled(e: Env, x: Script, s: Store, f: Frame, i: Gs2Disasm.Instruction, text: bytes)
    requires i.opnum in {21, 22} && i.operand.Some? && i.operand.value.value == Gs2Disasm.Text(text)
    ensures Handle(e, x, s, f, i) ==
              if 0.0 <= e.literal(text) < |x.strings| as real then Raise(f, s)
              else Next(Push(f, if i.opnum == 21 then Text("") else VarRef("")), s)
  {
  }

  /** A handler that raises before it has changed anything but its frame. */
  lemma Raises(w: World, m: Machine, f: Frame)
    requires Acyclic(w) && Executes(w, m) && Current(w, m).opnum != 6 && Current(w, m).opnum != 8
    requires Handle(w.env, Code(w, m), m.store, Advanced(m), Current(w, m)) == Raise(f, m.store)
    ensures f.script == TopFrame(m).script
    ensures Run(w, m, 1) == Failed(w, Moved(m, f, m.store, Used(m, f.script) + 1))
  {
    hide Handle, Failed;
    HandleKeeps(w.env, Code(w, m), m.store, Advanced(m), Current(w, m));
    OneStep(w, m);
  }

  /** Copy, exchange and drop. */
  lemma StackMoves(w: World, m: Machine, op: byte, under: seq<Value>, a: Value, b: Value)
    requires At(w, m, op, under + [a, b]) && op in {30, 31, 32}
    ensures Run(w, m, 1) ==
              Pushed(m, 1, if op == 30 then under + [a, b, b] else if op == 31 then under + [b, a] else under + [a])
  {
    var stack := under + [a, b];
    assert Top(stack) == b && Rest(stack) == under + [a] && Rest(under + [a]) == under && Top(under + [a]) == a;
    assert stack + [b] == under + [a, b, b];
    var left := if op == 30 then under + [a, b, b] else if op == 31 then under + [b, a] else under + [a];
    Does(w, m, op, stack, Advanced(m).(stack := left), m.store);
  }

  lemma UnaryHandled(e: Env, x: Script, s: Store, f: Frame, i: Gs2Disasm.Instruction)
    requires i.opnum in {33, 34, 44, 68, 69, 86, 88, 89, 90, 91}
    ensures Handle(e, x, s, f, i) ==
              Next(f.(stack := Rest(f.stack) + [e.unary(i.opnum, Deref(e, x, s, f, Top(f.stack)))]), s)
  {
    hide Deref, BinaryOp;
  }

  lemma BinaryHandled(e: Env, x: Script, s: Store, f: Frame, i: Gs2Disasm.Instruction)
    requires var op := i.opnum;
             60 <= op <= 67 || 70 <= op <= 78 || op in {81, 92, 93, 94, 95, 96, 101, 102, 104, 121}
    ensures var under := Rest(f.stack);
            var a, b := Deref(e, x, s, f, Top(under)), Deref(e, x, s, f, Top(f.stack));
            Handle(e, x, s, f, i) == Next(f.(stack := Rest(under) + [e.binary(i.opnum, a, b)]), s)
  {
    hide Deref;
  }

  lemma TopTwo(under: seq<Value>, a: Value, b: Value)
    ensures var stack := under + [a, b];
            Top(stack) == b && Rest(stack) == under + [a] && Rest(Rest(stack)) == under && Top(Rest(stack)) == a
  {
    assert (under + [a, b])[..|under| + 1] == under + [a] && (under + [a])[..|under|] == under;
  }

  /** Operators take their operands off, the lower one first, and leave one value. */
  lemma UnaryCombines(w: World, m: Machine, op: byte, under: seq<Value>, v: Value)
    requires At(w, m, op, under + [v]) && op in {33, 34, 44, 68, 69, 86, 88, 89, 90, 91}
    ensures Run(w, m, 1) == Pushed(m, 1, under + [w.env.unary(op, Read(w, m, v))])
  {
    hide Deref, Handle;
    assert Top(under + [v]) == v && Rest(under + [v]) == under;
    DerefIgnoresPlace(w.env, Code(w, m), m.store, Advanced(m), TopFrame(m), v);
    UnaryHandled(w.env, Code(w, m), m.store, Advanced(m), Current(w, m));
    Does(w, m, op, under + [v], Advanced(m).(stack := under + [w.env.unary(op, Read(w, m, v))]), m.store);
  }

  lemma BinaryCombines(w: World, m: Machine, op: byte, under: seq<Value>, a: Value, b: Value)
    requires At(w, m, op, under + [a, b])
    requires 60 <= op <= 67 || 70 <= op <= 78 || op in {81, 92, 93, 94, 95, 96, 101, 102, 104, 121}
    ensures Run(w, m, 1) == Pushed(m, 1, under + [w.env.binary(op, Read(w, m, a), Read(w, m, b))])
  {
    hide Deref, Handle;
    TopTwo(under, a, b);
    DerefIgnoresPlace(w.env, Code(w, m), m.store, Advanced(m), TopFrame(m), a);
    DerefIgnoresPlace(w.env, Code(w, m), m.store, Advanced(m), TopFrame(m), b);
    BinaryHandled(w.env, Code(w, m), m.store, Advanced(m), Current(w, m));
    Does(w, m, op, under + [a, b],
         Advanced(m).(stack := under + [w.env.binary(op, Read(w, m, a), Read(w, m, b))]), m.store);
  }

  /** The values of arguments popped above a marker, in source order. */
  lemma ArgumentsRead(w: World, m: Machine, vs: seq<Value>) returns (values: seq<Value>)
    requires m.frames != [] && TopFrame(m).script < |w.scripts|
    ensures values == DerefAll(w.env, Code(w, m), m.store, Advanced(m), DenullAll(vs))
    ensures |values| == |vs| && forall k :: 0 <= k < |vs| ==> values[k] == Read(w, m, Denull(vs[k]))
  {
    hide Deref;
    values := DerefAll(w.env, Code(w, m), m.store, Advanced(m), DenullAll(vs));
    forall k | 0 <= k < |vs| ensures values[k] == Read(w, m, Denull(vs[k])) {
      DerefIgnoresPlace(w.env, Code(w, m), m.store, Advanced(m), TopFrame(m), Denull(vs[k]));
    }
  }

  lemma ArrayHandled(e: Env, x: Script, s: Store, f: Frame, i: Gs2Disasm.Instruction)
    requires i.opnum == 37
    ensures Handle(e, x, s, f, i) ==
              Next(f.(stack := BelowMarker(f.stack) + [Cells(DerefAll(e, x, s, f, ArgsOf(f.stack)))]), s)
  {
    hide DerefAll, ArgsOf, BelowMarker;
  }

  /** Values pushed in reverse above a marker become one array, in source order. */
  lemma ArrayCollects(w: World, m: Machine, under: seq<Value>, vs: seq<Value>) returns (cells: seq<Value>)
    requires At(w, m, 37, under + [Marker] + Reversed(vs)) && NoMarker(vs)
    ensures |cells| == |vs| && forall k :: 0 <= k < |vs| ==> cells[k] == Read(w, m, Denull(vs[k]))
    ensures Run(w, m, 1) == Pushed(m, 1, under + [Cells(cells)])
  {
    hide Deref, Handle, DerefAll, DenullAll, Read;
    ReversePushedArgs(under, vs);
    cells := ArgumentsRead(w, m, vs);
    ArrayHandled(w.env, Code(w, m), m.store, Advanced(m), Current(w, m));
    Does(w, m, 37, under + [Marker] + Reversed(vs), Advanced(m).(stack := under + [Cells(cells)]), m.store);
  }

  /** `this`: the innermost `with` target that is not the player, and outside them, or where all
      are the player, the script's own object. */
  lemma ThisIsInnermost(w: World, m: Machine, stack: seq<Value>, outer: seq<nat>, o: nat, players: seq<nat>)
    requires At(w, m, 180, stack)
    requires forall k :: 0 <= k < |players| ==> w.env.named("player") == Some(players[k])
    requires TopFrame(m).withs == (if w.env.named("player") == Some(o) then [] else outer + [o]) + players
    ensures Run(w, m, 1) ==
              Pushed(m, 1, stack + [if w.env.named("player") == Some(o) then Obj(Code(w, m).owner) else Obj(o)])
  {
    hide Handle, Run, CurrentThis;
    var player, withs := w.env.named("player"), TopFrame(m).withs;
    PlayersPassed(Code(w, m), if player == Some(o) then [] else outer + [o], players, player);
    LastOfWiths(Code(w, m), outer, o, player);
    ThisHandled(w.env, Code(w, m), m.store, Advanced(m), Current(w, m));
    Does(w, m, 180, stack, Push(Advanced(m), CurrentThis(Code(w, m), withs, player)), m.store);
  }

  lemma ThisHandled(e: Env, x: Script, s: Store, f: Frame, i: Gs2Disasm.Instruction)
    requires i.opnum == 180
    ensures Handle(e, x, s, f, i) == Next(Push(f, CurrentThis(x, f.withs, e.named("player"))), s)
  {
    hide CurrentThis;
  }

  lemma LastOfWiths(x: Script, outer: seq<nat>, o: nat, player: Option<nat>)
    ensures CurrentThis(x, [], player) == Obj(x.owner)
    ensures player != Some(o) ==> CurrentThis(x, outer + [o], player) == Obj(o)
  {
    assert (outer + [o])[|outer|] == o;
  }

  lemma {:induction false} PlayersPassed(x: Script, withs: seq<nat>, players: seq<nat>, player: Option<nat>)
    requires forall k :: 0 <= k < |players| ==> player == Some(players[k])
    ensures CurrentThis(x, withs + players, player) == CurrentThis(x, withs, player)
    decreases |players|
  {
    if players == [] {
      assert withs + players == withs;
    } else {
      var n := |players| - 1;
      assert (withs + players)[..|withs + players| - 1] == withs + players[..n];
      assert (withs + players)[|withs + players| - 1] == players[n];
      PlayersPassed(x, withs, players[..n], player);
    }
  }

  /** The object of a member access may itself be a reference, which is read first. */
  lemma MemberOfReference(w: World, m: Machine, under: seq<Value>, v: Value, id: nat, name: string)
    requires At(w, m, 35, under + [v, VarRef(name)]) && (v.VarRef? || v.Slot?) && Read(w, m, v) == Obj(id)
    ensures Run(w, m, 1) == Pushed(m, 1, under + [Slot(Obj(id), name)])
  {
    hide Lookup;
    var stack := under + [v, VarRef(name)];
    assert Top(stack) == VarRef(name) && Rest(stack) == under + [v];
    assert Rest(under + [v]) == under && Top(under + [v]) == v;
    DerefIgnoresPlace(w.env, Code(w, m), m.store, Advanced(m), TopFrame(m), v);
    Does(w, m, 35, stack, Advanced(m).(stack := under + [Slot(Obj(id), name)]), m.store);
  }

  /** `object.name`: a reference to the member. */
  lemma MemberRefers(w: World, m: Machine, under: seq<Value>, id: nat, name: string)
    requires At(w, m, 35, under + [Obj(id), VarRef(name)])
    ensures Run(w, m, 1) == Pushed(m, 1, under + [Slot(Obj(id), name)])
    ensures Read(w, m, Slot(Obj(id), name)) ==
              if id in m.store.heap && w.env.fold(name) in m.store.heap[id] then m.store.heap[id][w.env.fold(name)]
              else Unset
  {
    var stack := under + [Obj(id), VarRef(name)];
    assert Top(stack) == VarRef(name) && Rest(stack) == under + [Obj(id)];
    assert Rest(under + [Obj(id)]) == under && Top(under + [Obj(id)]) == Obj(id);
    Does(w, m, 35, stack, Advanced(m).(stack := under + [Slot(Obj(id), name)]), m.store);
  }

  // ------------------------------------------------------------- variables

  /** Something an assignment can write to. */
  predicate Writable(v: Value) { v.VarRef? || (v.Slot? && v.base.Obj?) }

  lemma SetGets(e: Env, s: Store, id: nat, key: string, v: Value, other: nat, name: string)
    ensures Get(e, Set(e, s, id, key, v), other, name) ==
              if other == id && e.fold(name) == e.fold(key) then v else Get(e, s, other, name)
    ensures Has(e, Set(e, s, id, key, v), other, name) <==>
              (other == id && e.fold(name) == e.fold(key)) || Has(e, s, other, name)
  {
  }

  lemma {:induction false} HolderKeeps(e: Env, s: Store, withs: seq<nat>, id: nat, key: string, v: Value, name: string)
    requires e.fold(name) == e.fold(key) ==> WithHolder(e, s, withs, name) == Some(id)
    ensures WithHolder(e, Set(e, s, id, key, v), withs, name) == WithHolder(e, s, withs, name)
    decreases |withs|
  {
    hide Set, Has;
    if withs != [] {
      SetGets(e, s, id, key, v, withs[|withs| - 1], name);
      if !Has(e, s, withs[|withs| - 1], name) {
        HolderKeeps(e, s, withs[..|withs| - 1], id, key, v, name);
      }
    }
  }

  lemma {:induction false} NoHolderKeeps(
    e: Env, s: Store, withs: seq<nat>, id: nat, key: string, v: Value, name: string)
    requires WithHolder(e, s, withs, name).None? && (e.fold(name) == e.fold(key) ==> id !in withs)
    ensures WithHolder(e, Set(e, s, id, key, v), withs, name).None?
    decreases |withs|
  {
    hide Set, Has;
    if withs != [] {
      SetGets(e, s, id, key, v, withs[|withs| - 1], name);
      NoHolderKeeps(e, s, withs[..|withs| - 1], id, key, v, name);
    }
  }

  lemma {:induction false} HolderHas(e: Env, s: Store, withs: seq<nat>, name: string)
    ensures var h := WithHolder(e, s, withs, name);
            if h.Some? then h.value in withs && Has(e, s, h.value, name)
            else forall k :: 0 <= k < |withs| ==> !Has(e, s, withs[k], name)
    decreases |withs|
  {
    hide Has;
    if withs != [] { HolderHas(e, s, withs[..|withs| - 1], name); }
  }

  /** A name written is the name read, in whichever scope it lives. */
  lemma NameReadsBack(e: Env, x: Script, s: Store, f: Frame, name: string, v: Value)
    ensures Lookup(e, x, AssignName(e, x, s, f, name, v), f, name) == v
  {
    hide Set, Has, WithHolder, Get;
    HolderHas(e, s, f.withs, name);
    var holder := WithHolder(e, s, f.withs, name);
    if holder.Some? {
      HolderKeeps(e, s, f.withs, holder.value, name, v, name);
      SetGets(e, s, holder.value, name, v, holder.value, name);
    } else if Has(e, s, f.temps, name) {
      NoHolderKeeps(e, s, f.withs, f.temps, name, v, name);
      SetGets(e, s, f.temps, name, v, f.temps, name);
    } else if Has(e, s, x.owner, name) {
      NoHolderKeeps(e, s, f.withs, x.owner, name, v, name);
      SetGets(e, s, x.owner, name, v, x.owner, name);
      SetGets(e, s, x.owner, name, v, f.temps, name);
    } else {
      SameScopes(e, s, s.(globals := s.globals[e.fold(name) := v]), f.withs, f.temps, name);
      SameScopes(e, s, s.(globals := s.globals[e.fold(name) := v]), f.withs, x.owner, name);
    }
  }

  lemma {:induction false} SameScopes(e: Env, s: Store, t: Store, withs: seq<nat>, id: nat, name: string)
    requires t.heap == s.heap
    ensures WithHolder(e, t, withs, name) == WithHolder(e, s, withs, name) && Has(e, t, id, name) == Has(e, s, id, name)
    ensures Get(e, t, id, name) == Get(e, s, id, name)
    decreases |withs|
  {
    if withs != [] { SameScopes(e, s, t, withs[..|withs| - 1], id, name); }
  }

  /** No other name reads differently for it. */
  lemma OtherNamesStay(e: Env, x: Script, s: Store, f: Frame, name: string, v: Value, other: string)
    requires e.fold(other) != e.fold(name)
    ensures Lookup(e, x, AssignName(e, x, s, f, name, v), f, other) == Lookup(e, x, s, f, other)
  {
    hide Set, Has, WithHolder, Get;
    var t := AssignName(e, x, s, f, name, v);
    var holder := WithHolder(e, s, f.withs, name);
    if holder.Some? || Has(e, s, f.temps, name) || Has(e, s, x.owner, name) {
      var id := if holder.Some? then holder.value else if Has(e, s, f.temps, name) then f.temps else x.owner;
      assert t == Set(e, s, id, name, v);
      HolderKeeps(e, s, f.withs, id, name, v, other);
      SetGets(e, s, id, name, v, f.temps, other);
      SetGets(e, s, id, name, v, x.owner, other);
      if WithHolder(e, s, f.withs, other).Some? {
        SetGets(e, s, id, name, v, WithHolder(e, s, f.withs, other).value, other);
      }
      SetKeepsGlobals(e, s, id, name, v);
    } else {
      SameScopes(e, s, t, f.withs, f.temps, other);
      SameScopes(e, s, t, f.withs, x.owner, other);
      if WithHolder(e, s, f.withs, other).Some? {
        SameScopes(e, s, t, f.withs, WithHolder(e, s, f.withs, other).value, other);
      }
    }
  }

  lemma SetKeepsGlobals(e: Env, s: Store, id: nat, key: string, v: Value)
    ensures Set(e, s, id, key, v).globals == s.globals
  {
  }

  lemma WrittenReads(e: Env, x: Script, s: Store, f: Frame, target: Value, v: Value)
    requires Writable(target)
    ensures Deref(e, x, WriteRef(e, x, s, f, target, v), f, target) == Denull(v)
  {
    hide Lookup, AssignName, Set, Get;
    if target.VarRef? {
      NameReadsBack(e, x, s, f, target.name, Denull(v));
    } else {
      SetGets(e, s, target.base.id, target.key, Denull(v), target.base.id, target.key);
    }
  }

  /** `target = value`: the machine goes on with both off the stack, and the target reads as the
      value, nothing where it was `null`. */
  lemma AssignmentReadsBack(w: World, m: Machine, under: seq<Value>, target: Value, v: Value)
    requires At(w, m, 50, under + [target, v]) && Writable(target)
    ensures var r := Run(w, m, 1);
            && r == Moved(m, Advanced(m).(stack := under), r.store, Used(m, TopFrame(m).script) + 1)
            && Read(w, r, target) == Denull(Read(w, m, v))
  {
    hide Lookup, AssignName, Run, Set, Get;
    var stack := under + [target, v];
    assert Top(stack) == v && Rest(stack) == under + [target] && Rest(under + [target]) == under
           && Top(under + [target]) == target;
    var f, x := Advanced(m), Code(w, m);
    DerefIgnoresPlace(w.env, x, m.store, f, TopFrame(m), v);
    var s := WriteRef(w.env, x, m.store, f, target, Read(w, m, v));
    Does(w, m, 50, stack, f.(stack := under), s);
    WrittenReads(w.env, x, m.store, f, target, Read(w, m, v));
    DerefIgnoresPlace(w.env, x, s, f, TopFrame(Run(w, m, 1)), target);
  }

  /** `++` and `--` leave the variable on the stack, one more or less than it was. */
  lemma CountsByOne(w: World, m: Machine, op: byte, under: seq<Value>, target: Value)
    requires At(w, m, op, under + [target]) && op in {52, 53} && Writable(target)
    ensures var r := Run(w, m, 1);
            && r == Moved(m, Advanced(m), r.store, Used(m, TopFrame(m).script) + 1)
            && Read(w, r, target) == Num(w.env.num(Read(w, m, target)) + if op == 52 then 1.0 else -1.0)
  {
    hide Lookup, AssignName, Run, Set, Get;
    var stack := under + [target];
    assert Top(stack) == target && Rest(stack) == under;
    var f, x := Advanced(m), Code(w, m);
    DerefIgnoresPlace(w.env, x, m.store, f, TopFrame(m), target);
    var value := Num(w.env.num(Read(w, m, target)) + if op == 52 then 1.0 else -1.0);
    var popped := f.(stack := under);
    var s := WriteRef(w.env, x, m.store, popped, target, value);
    Does(w, m, op, stack, f, s);
    WrittenReads(w.env, x, m.store, popped, target, value);
    DerefIgnoresPlace(w.env, x, s, popped, TopFrame(Run(w, m, 1)), target);
  }

  lemma RegisterHandled(e: Env, x: Script, s: Store, f: Frame, i: Gs2Disasm.Instruction, n: int)
    requires (i.operand.None? && n == 0) || (i.operand.Some? && i.operand.value.value == Gs2Disasm.Number(n))
    requires 0 <= n <= 1023
    ensures i.opnum == 45 && f.stack != [] ==>
              Handle(e, x, s, f, i) == Next(f.(registers := f.registers[n := Top(f.stack)]), s)
    ensures i.opnum == 46 ==>
              Handle(e, x, s, f, i) == Next(Push(f, if n in f.registers then f.registers[n] else Unset), s)
  {
    if i.operand.Some? { WholeOperand(e, i, n); }
  }

  /** The instruction at `at` names register `n`; without an operand it is the first. */
  predicate RegisterAt(x: Script, at: int, op: byte, n: int) {
    OpAt(x, at, op) && (TargetAt(x, at, op, n) || (x.code[at].operand.None? && n == 0))
  }

  /** A register gives back what was last stored in it. */
  lemma RegisterGivesBack(w: World, m: Machine, under: seq<Value>, v: Value, n: int)
    requires At(w, m, 45, under + [v]) && RegisterAt(Code(w, m), TopFrame(m).ip, 45, n) && 0 <= n <= 1023
    requires RegisterAt(Code(w, m), TopFrame(m).ip + 1, 46, n) && Ready(w, m, TopFrame(m).ip, 2)
    ensures var f := TopFrame(m);
            Run(w, m, 2) == Moved(m, f.(ip := f.ip + 2, stack := under + [v, v], registers := f.registers[n := v]),
                                  m.store, Used(m, f.script) + 2)
  {
    hide Run, Handle;
    assert Top(under + [v]) == v && under + [v] + [v] == under + [v, v];
    RegisterHandled(w.env, Code(w, m), m.store, Advanced(m), Current(w, m), n);
    Does(w, m, 45, under + [v], Advanced(m).(registers := TopFrame(m).registers[n := v]), m.store);
    var m1 := Run(w, m, 1);
    RegisterHandled(w.env, Code(w, m), m1.store, Advanced(m1), Current(w, m1), n);
    Does(w, m1, 46, under + [v], Push(Advanced(m1), v), m.store);
    RunSplits(w, m, 1, 1);
  }

  lemma WholeOperand(e: Env, i: Gs2Disasm.Instruction, n: int)
    requires i.operand.Some? && i.operand.value.value == Gs2Disasm.Number(n) && n >= 0
    ensures Register(e, i) == n
  {
    var r := n as real;
    assert r >= 0.0 && r.Floor == n;
  }

  // ------------------------------------------------------------- with

  /** `with (object)`: inside, names are the object's members first, and leaving takes the scope
      off again. For anything but an object the block is skipped. */
  lemma WithEnters(w: World, m: Machine, under: seq<Value>, v: Value, end: int)
    requires At(w, m, 150, under + [v]) && TargetAt(Code(w, m), TopFrame(m).ip, 150, end)
    ensures var target, f := Read(w, m, v), TopFrame(m);
            Run(w, m, 1) ==
              if target.Obj? then
                Moved(m, Advanced(m).(stack := under, withs := f.withs + [target.id]), m.store, Used(m, f.script) + 1)
              else Moved(m, f.(ip := end, stack := under), m.store, Used(m, f.script) + 1)
  {
    hide Run, Deref;
    assert Top(under + [v]) == v && Rest(under + [v]) == under;
    var f := Advanced(m);
    DerefIgnoresPlace(w.env, Code(w, m), m.store, f, TopFrame(m), v);
    var target := Read(w, m, v);
    if target.Obj? {
      Does(w, m, 150, under + [v], f.(stack := under, withs := f.withs + [target.id]), m.store);
    } else {
      WholeTarget(w.env, Current(w, m), f.(stack := under), m.store, end);
      Jumps(w, m, f.(stack := under), end);
    }
  }

  lemma WithLeaves(w: World, m: Machine, stack: seq<Value>, withs: seq<nat>, id: nat)
    requires At(w, m, 151, stack) && TopFrame(m).withs == withs + [id]
    ensures Run(w, m, 1) == Moved(m, Advanced(m).(withs := withs), m.store, Used(m, TopFrame(m).script) + 1)
  {
    assert (withs + [id])[..|withs|] == withs;
    Does(w, m, 151, stack, Advanced(m).(withs := withs), m.store);
  }

  lemma InnermostWithFirst(e: Env, x: Script, s: Store, f: Frame, withs: seq<nat>, id: nat, name: string)
    requires f.withs == withs + [id]
    ensures Lookup(e, x, s, f, name) ==
              if id in s.heap && e.fold(name) in s.heap[id] then s.heap[id][e.fold(name)]
              else Lookup(e, x, s, f.(withs := withs), name)
  {
    assert (withs + [id])[..|withs|] == withs && f.withs[|withs|] == id;
  }

  /** Outside every `with`: temporaries, the script's own object, globals, the parameter array,
      and objects the host names. */
  lemma ScopesInOrder(e: Env, x: Script, s: Store, f: Frame, name: string)
    requires f.withs == []
    ensures var key := e.fold(name);
            Lookup(e, x, s, f, name) ==
              if f.temps in s.heap && key in s.heap[f.temps] then s.heap[f.temps][key]
              else if x.owner in s.heap && key in s.heap[x.owner] then s.heap[x.owner][key]
              else if key in s.globals then s.globals[key]
              else if key == "params" then Cells(f.args)
              else if e.named(key).Some? then Obj(e.named(key).value) else Unset
  {
  }

  // ------------------------------------------------------------- foreach

  /** What a collection goes through: an array's cells, or the names of an object's members. */
  predicate Lists(w: World, m: Machine, over: Value, items: seq<Value>) {
    if over.Cells? then items == over.items
    else
      && over.Obj? && over.id in m.store.heap
      && var keys := w.env.keys(m.store.heap[over.id]);
         |items| == |keys| && forall j :: 0 <= j < |keys| ==> items[j] == Text(keys[j])
  }

  lemma ForeachHandled(e: Env, x: Script, s: Store, f: Frame, i: Gs2Disasm.Instruction, under: seq<Value>,
                       target: Value, over: Value, idx: Value, items: seq<Value>, k: int)
    requires i.opnum == 163 && f.stack == under + [target, over, idx] && WholePart(e.num(Deref(e, x, s, f, idx)), k)
    requires var c := Deref(e, x, s, f, over);
             if c.Cells? then items == c.items else c.Obj? && c.id in s.heap && items == Names(e.keys(s.heap[c.id]))
    ensures var popped := f.(stack := under);
            Handle(e, x, s, f, i) ==
              if k >= |items| then JumpTo(e, i, f.(stack := under + [target]), s)
              else if k < -|items| then Raise(popped, s)
              else Next(f.(stack := under + [target, over, Num(k as real)]),
                        WriteRef(e, x, s, popped, target, items[if k < 0 then k + |items| else k]))
  {
    hide Deref, WriteRef, JumpTo;
    var stack, n := f.stack, |under|;
    assert stack[n] == target && stack[n + 1] == over && stack[n + 2] == idx && stack[..n] == under;
    CutDown(e.num(Deref(e, x, s, f, idx)), k);
    assert under + [target] + [over] + [Num(k as real)] == under + [target, over, Num(k as real)];
    assert Foreach(e, x, s, f, i) == Handle(e, x, s, f, i);
  }

  lemma CutDown(r: real, k: int)
    requires WholePart(r, k)
    ensures Trunc(r) == k
  {
    if r < 0.0 { assert -(k as real) == (-k) as real; }
  }

  /** One round of `foreach`: with an index within the collection, counted from behind when it is
      negative, the variable becomes that item and the three values stay for the next round, the
      index as a whole number; behind the end the loop is left with only the variable on the
      stack. */
  lemma ForeachVisits(w: World, m: Machine, under: seq<Value>, target: Value, over: Value, idx: Value,
                      items: seq<Value>, k: int, end: int)
    requires At(w, m, 163, under + [target, over, idx]) && Writable(target) && k >= -|items|
    requires Lists(w, m, Read(w, m, over), items)
    requires TargetAt(Code(w, m), TopFrame(m).ip, 163, end) && WholePart(w.env.num(Read(w, m, idx)), k)
    ensures var r, f := Run(w, m, 1), TopFrame(m);
            if k < |items| then
              && r == Moved(m, Advanced(m).(stack := under + [target, over, Num(k as real)]), r.store,
                            Used(m, f.script) + 1)
              && Read(w, r, target) == Denull(items[if k < 0 then k + |items| else k])
            else r == Moved(m, f.(ip := end, stack := under + [target]), m.store, Used(m, f.script) + 1)
  {
    hide Run, Handle, Lookup, AssignName, Set, Get;
    var f, x := Advanced(m), Code(w, m);
    DerefIgnoresPlace(w.env, x, m.store, f, TopFrame(m), over);
    DerefIgnoresPlace(w.env, x, m.store, f, TopFrame(m), idx);
    if Read(w, m, over).Obj? { assert Names(w.env.keys(m.store.heap[Read(w, m, over).id])) == items; }
    ForeachHandled(w.env, x, m.store, f, Current(w, m), under, target, over, idx, items, k);
    var popped := f.(stack := under);
    if k < |items| {
      var item := items[if k < 0 then k + |items| else k];
      var s := WriteRef(w.env, x, m.store, popped, target, item);
      Does(w, m, 163, f.stack, f.(stack := under + [target, over, Num(k as real)]), s);
      WrittenReads(w.env, x, m.store, popped, target, item);
      DerefIgnoresPlace(w.env, x, s, popped, TopFrame(Run(w, m, 1)), target);
    } else {
      WholeTarget(w.env, Current(w, m), popped.(stack := under + [target]), m.store, end);
      Jumps(w, m, f.(stack := under + [target]), end);
    }
  }

  // ------------------------------------------------------------- leaving a frame

  /** `return v` hands the caller the value `v` reads as. */
  lemma ReturnHandsValue(w: World, m: Machine, under: seq<Value>, v: Value, caller: Frame, below: seq<Frame>)
    requires At(w, m, 7, under + [v]) && m.frames == below + [caller] + [TopFrame(m)]
    ensures var r := Run(w, m, 1);
            r.status.Running? && r.frames == below + [caller.(stack := caller.stack + [Read(w, m, v)])]
            && r.store == m.store && r.errors == m.errors
  {
    hide Deref;
    assert Top(under + [v]) == v;
    DerefIgnoresPlace(w.env, Code(w, m), m.store, Advanced(m), TopFrame(m), v);
    Leaves(w, m, Read(w, m, v), caller, below);
  }

  lemma Leaves(w: World, m: Machine, v: Value, caller: Frame, below: seq<Frame>)
    requires Acyclic(w) && Executes(w, m) && Current(w, m).opnum !in {6, 8}
    requires m.frames == below + [caller] + [TopFrame(m)]
    requires Handle(w.env, Code(w, m), m.store, Advanced(m), Current(w, m)) == Return(v)
    ensures var r := Run(w, m, 1);
            r.status.Running? && r.frames == below + [caller.(stack := caller.stack + [v])]
            && r.store == m.store && r.errors == m.errors
  {
    hide Handle, Counted;
    OneStep(w, m);
    assert m.frames[..|m.frames| - 1] == below + [caller] && (below + [caller])[..|below|] == below;
  }

  /** The outermost frame's return ends the execution with its value; running off the end of the
      code, or out of budget, returns nothing. */
  lemma LastReturnFinishes(w: World, m: Machine, under: seq<Value>, v: Value)
    requires At(w, m, 7, under + [v]) && |m.frames| == 1
    ensures Run(w, m, 1).status == Finished(Read(w, m, v)) && Run(w, m, 1).frames == []
  {
    hide Deref, Counted;
    assert Top(under + [v]) == v;
    DerefIgnoresPlace(w.env, Code(w, m), m.store, Advanced(m), TopFrame(m), v);
    OneStep(w, m);
  }

  lemma EndOfCodeReturnsNothing(w: World, m: Machine, caller: Frame, below: seq<Frame>)
    requires Acyclic(w) && m.status.Running? && m.frames != [] && !Executes(w, m)
    requires m.frames == below + [caller] + [TopFrame(m)]
    ensures var r := Run(w, m, 1);
            r.status.Running? && r.frames == below + [caller.(stack := caller.stack + [Unset])] && r.store == m.store
  {
    hide Counted;
    OneStep(w, m);
    assert m.frames[..|m.frames| - 1] == below + [caller] && (below + [caller])[..|below|] == below;
  }

  // ------------------------------------------------------------- sleeping and the host

  /** `sleep` suspends a coroutine for the seconds its argument reads as, and does nothing when
      they are not positive; awake, the script has its whole budget again. */
  lemma SleepSuspends(w: World, m: Machine, under: seq<Value>, v: Value)
    requires At(w, m, 8, under + [v]) && w.coro
    ensures var r, seconds := Run(w, m, 1), w.env.num(Read(w, m, v));
            && r == Pushed(m, 1, under).(status := r.status)
            && r.status == (if seconds > 0.0 then Asleep(seconds) else Running)
            && (seconds > 0.0 ==> Wake(r) == r.(status := Running, used := r.used[TopFrame(m).script := 0]))
  {
    hide Deref;
    assert Top(under + [v]) == v && Rest(under + [v]) == under;
    DerefIgnoresPlace(w.env, Code(w, m), m.store, Advanced(m), TopFrame(m), v);
    OneStep(w, m);
  }

  /** A call of no script function goes to the host, with the arguments in source order. Its
      answer is pushed, at once or, where a coroutine has to wait for it, when it is resumed. */
  lemma HostAnswers(w: World, m: Machine, under: seq<Value>, vs: seq<Value>, target: Value)
    returns (args: seq<Value>)
    requires At(w, m, 6, under + [Marker] + Reversed(vs) + [target]) && NoMarker(vs)
    requires ScriptTarget(w, TopFrame(m).script, target).None?
    ensures |args| == |vs| && forall k :: 0 <= k < |vs| ==> args[k] == Read(w, m, Denull(vs[k]))
    ensures var r, answer := Run(w, m, 1), w.env.host(m.store, target, args);
            !answer.Refusal? ==>
              var given := Moved(m, Advanced(m).(stack := under + [answer.value]), answer.store,
                                 Used(m, TopFrame(m).script) + 1);
              if answer.Wait? && w.coro then r.status == Waiting(answer.value) && Run(w, r, 1) == given else r == given
  {
    hide Deref, ScriptTarget, Failed, DerefAll, DenullAll, Read;
    var f := Advanced(m);
    var stack := under + [Marker] + Reversed(vs);
    assert Top(stack + [target]) == target && Rest(stack + [target]) == stack;
    ReversePushedArgs(under, vs);
    args := ArgumentsRead(w, m, vs);
    OneStep(w, m);
    Asks(w, m, under, vs, target, args);
    if Run(w, m, 1).status.Waiting? { OneStep(w, Run(w, m, 1)); }
  }

  lemma Asks(w: World, m: Machine, under: seq<Value>, vs: seq<Value>, target: Value, args: seq<Value>)
    requires Acyclic(w) && Executes(w, m) && Current(w, m).opnum == 6
    requires Top(TopFrame(m).stack) == target && BelowMarker(Rest(TopFrame(m).stack)) == under
    requires DerefAll(w.env, Code(w, m), m.store, Advanced(m), ArgsOf(Rest(TopFrame(m).stack))) == args
    requires ScriptTarget(w, TopFrame(m).script, target).None?
    ensures var r, answer := Step(w, m), w.env.host(m.store, target, args);
            !answer.Refusal? ==>
              var n := Used(m, TopFrame(m).script) + 1;
              if answer.Wait? && w.coro then
                r == Moved(m, Advanced(m).(stack := under), answer.store, n).(status := Waiting(answer.value))
              else r == Moved(m, Advanced(m).(stack := under + [answer.value]), answer.store, n)
  {
    hide DerefAll, ArgsOf, BelowMarker, ScriptTarget, Failed;
  }

  /** A handler that raises costs its script one error. Up to the allowed number the frame goes
      on behind the instruction; one more and it returns nothing. */
  lemma ErrorsAreCounted(w: World, m: Machine)
    requires m.frames != [] && TopFrame(m).script < |w.scripts|
    ensures var v := TopFrame(m).script;
            var n := CountOf(m.errors, v) + 1;
            Failed(w, m) == if n <= w.scripts[v].maxErrors then m.(errors := m.errors[v := n])
                            else Leave(m.(errors := m.errors[v := n]), Unset)
  {
    hide Leave;
  }

  /** After `k` errors in a row. */
  function AfterErrors(w: World, m: Machine, k: nat): Machine {
    if k == 0 then m
    else
      var before := AfterErrors(w, m, k - 1);
      if before.frames == [] || TopFrame(before).script >= |w.scripts| then before else Failed(w, before)
  }

  /** None of its errors is counted. */
  predicate Unerring(m: Machine, v: nat) { v in m.errors ==> m.errors[v] == 0 }

  lemma OneMoreError(w: World, m: Machine, k: nat)
    requires m.frames != [] && TopFrame(m).script < |w.scripts| && Unerring(m, TopFrame(m).script)
    ensures var v := TopFrame(m).script;
            var before := if k == 0 then m else m.(errors := m.errors[v := k]);
            Failed(w, before) == if k + 1 <= w.scripts[v].maxErrors then m.(errors := m.errors[v := k + 1])
                                 else Leave(m.(errors := m.errors[v := k + 1]), Unset)
  {
    hide Leave, Failed;
    var v := TopFrame(m).script;
    var before := if k == 0 then m else m.(errors := m.errors[v := k]);
    ErrorsAreCounted(w, before);
    assert m.errors[v := k][v := k + 1] == m.errors[v := k + 1];
  }

  /** A script with none counted yet goes on after each of the allowed ones; the next one ends its
      frame with nothing. */
  lemma {:induction false} ErrorsRunOut(w: World, m: Machine, k: nat)
    requires m.frames != [] && TopFrame(m).script < |w.scripts| && Unerring(m, TopFrame(m).script)
    requires k <= w.scripts[TopFrame(m).script].maxErrors
    ensures var v := TopFrame(m).script;
            && AfterErrors(w, m, k) == (if k == 0 then m else m.(errors := m.errors[v := k]))
            && (k == w.scripts[v].maxErrors ==>
                  AfterErrors(w, m, k + 1) == Leave(m.(errors := m.errors[v := k + 1]), Unset))
    decreases k
  {
    hide Leave, Failed;
    var v := TopFrame(m).script;
    if k > 0 {
      ErrorsRunOut(w, m, k - 1);
      OneMoreError(w, m, k - 1);
    }
    OneMoreError(w, m, k);
  }

  /** An event starts with none counted, whatever happened in earlier ones. */
  lemma EventsStartUnerring(w: World, store: Store, used: map<nat, nat>, errors: map<nat, nat>, v: nat, entry: int,
                            args: seq<Value>, k: nat)
    requires v < |w.scripts| && k <= w.scripts[v].maxErrors
    ensures var m := Launch(store, used, errors, v, entry, args);
            m.status.Running? && AfterErrors(w, m, k) == (if k == 0 then m else m.(errors := m.errors[v := k]))
  {
    ErrorsRunOut(w, Launch(store, used, errors, v, entry, args), k);
  }

  // ------------------------------------------------------------- whose function

  /** A script's own function comes before those of the classes it joins. */
  lemma OwnFunctionFirst(w: World, v: nat, name: string)
    requires Acyclic(w) && v < |w.scripts| && name in w.scripts[v].functions
    ensures Find(w, v, name) == Some(Found([], v, w.scripts[v].functions[name]))
  {
  }

  /** A script function is called by its name or as a method of the script's own object, in any
      case of letters; a method of anything else is the host's. */
  lemma OwnMethodsAreFunctions(w: World, v: nat, name: string, base: Value)
    requires Acyclic(w) && v < |w.scripts|
    ensures var x, key := w.scripts[v], w.env.fold(name);
            && (key in x.functions ==>
                  ScriptTarget(w, v, VarRef(name)) == Some(Found([], v, x.functions[key]))
                  && ScriptTarget(w, v, Slot(Obj(x.owner), name)) == Some(Found([], v, x.functions[key])))
            && (base != Obj(x.owner) ==> ScriptTarget(w, v, Slot(base, name)) == None)
  {
    hide Find;
    var x, key := w.scripts[v], w.env.fold(name);
    if key in x.functions { OwnFunctionFirst(w, v, key); }
  }

  /** Of the joined classes the first that has it, itself or through classes of its own. */
  lemma {:induction false} FirstJoinedClass(w: World, v: nat, k: nat, name: string)
    requires Acyclic(w) && v < |w.scripts| && k <= |w.scripts[v].joined|
    ensures var joined := w.scripts[v].joined;
            var r := FindJoined(w, v, k, name);
            if r.None? then forall j :: k <= j < |joined| ==> Find(w, joined[j], name).None?
            else exists j :: k <= j < |joined| && Find(w, joined[j], name).Some?
                   && r == Some(Find(w, joined[j], name).value.(chain := [v] + Find(w, joined[j], name).value.chain))
                   && forall i :: k <= i < j ==> Find(w, joined[i], name).None?
    decreases |w.scripts[v].joined| - k
  {
    hide Find;
    var joined := w.scripts[v].joined;
    if k < |joined| && Find(w, joined[k], name).None? {
      FirstJoinedClass(w, v, k + 1, name);
    }
  }
}

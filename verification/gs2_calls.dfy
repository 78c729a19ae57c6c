/** The GS2 call protocol: what the caller pushes, what the callee's prologue binds, and what
    the caller gets back. */
module Gs2Calls {
  import opened Bytes
  import Gs2Disasm
  import opened Gs2Vm
  import opened Gs2Machine

  /** The instruction the top frame is at. */
  function Current(w: World, m: Machine): Gs2Disasm.Instruction
    requires Executes(w, m)
  {
    w.scripts[TopFrame(m).script].code[TopFrame(m).ip]
  }

  function Advanced(m: Machine): Frame
    requires m.frames != []
  {
    TopFrame(m).(ip := TopFrame(m).ip + 1)
  }

  function OneMore(m: Machine): map<nat, nat>
    requires m.frames != []
  {
    m.used[TopFrame(m).script := Used(m, TopFrame(m).script) + 1]
  }

  // ------------------------------------------------------------- calling

  /** A call of a script function takes its arguments, pushed in reverse above a marker, in
      source order; the caller keeps what was below the marker and steps aside. */
  lemma CallEnters(w: World, m: Machine, below: seq<Value>, vs: seq<Value>, target: Value)
    requires Acyclic(w) && Executes(w, m) && Current(w, m).opnum == 6
    requires TopFrame(m).stack == below + [Marker] + Reversed(vs) + [target] && NoMarker(vs)
    requires ScriptTarget(w, TopFrame(m).script, target).Some?
    ensures var r, n := Step(w, m), |m.frames|;
            var to := ScriptTarget(w, TopFrame(m).script, target).value;
            var caller := Advanced(m).(stack := below);
            var x := w.scripts[caller.script];
            && r.status.Running? && |r.frames| == n + 1
            && r.frames[..n - 1] == m.frames[..n - 1] && r.frames[n - 1] == caller
            && r.frames[n] == Frame(to.script, to.chain, to.entry, [], m.store.next,
                                    DerefAll(w.env, x, m.store, Advanced(m), DenullAll(vs)), [], map[])
            && r.store == m.store.(heap := m.store.heap[m.store.next := map[]], next := m.store.next + 1)
            && Used(r, to.script) == Used(m, caller.script) + 1
  {
    hide ScriptTarget, DerefAll, Handle;
    var f := Advanced(m);
    var under := below + [Marker] + Reversed(vs);
    assert Top(f.stack) == target && Rest(f.stack) == under;
    ReversePushedArgs(below, vs);
    var to := ScriptTarget(w, f.script, target).value;
    var counted := WithTop(m.(used := OneMore(m)), f);
    assert Step(w, m) == CallOp(w, counted, f);
    if to.chain != [] {
      CountedAt(counted.used, to.chain[1..] + [to.script], Used(counted, f.script), to.script);
    }
  }

  // ------------------------------------------------------------- the prologue

  /** A declared parameter, written bare or as `temp.name`. */
  datatype Param = Param(name: string, scoped: bool)

  function RefOf(f: Frame, p: Param): Value { if p.scoped then Slot(Obj(f.temps), p.name) else VarRef(p.name) }

  function Refs(f: Frame, ps: seq<Param>): (r: seq<Value>)
    ensures |r| == |ps| && forall k :: 0 <= k < |ps| ==> r[k] == RefOf(f, ps[k])
  {
    seq(|ps|, k requires 0 <= k < |ps| => RefOf(f, ps[k]))
  }

  function Width(p: Param): nat { if p.scoped then 3 else 1 }

  function Widths(ps: seq<Param>): nat { if ps == [] then 0 else Widths(ps[1..]) + Width(ps[0]) }

  predicate OpAt(x: Script, at: int, op: byte) { 0 <= at < |x.code| && x.code[at].opnum == op }

  predicate NameAt(e: Env, x: Script, at: int, name: string) {
    OpAt(x, at, 22) && TableEntry(e, x, x.code[at]) == Some(name)
  }

  predicate ParamAt(e: Env, x: Script, at: int, p: Param) {
    if p.scoped then OpAt(x, at, 189) && NameAt(e, x, at + 1, p.name) && OpAt(x, at + 2, 35)
    else NameAt(e, x, at, p.name)
  }

  /** The code from `at` pushes the parameters' references, the last parameter first. */
  predicate PushesAt(e: Env, x: Script, at: int, ps: seq<Param>) {
    ps == [] || (PushesAt(e, x, at, ps[1..]) && ParamAt(e, x, at + Widths(ps[1..]), ps[0]))
  }

  predicate PrologueAt(e: Env, x: Script, at: int, ps: seq<Param>) {
    OpAt(x, at, 23) && PushesAt(e, x, at + 1, ps) && OpAt(x, at + 1 + Widths(ps), 51)
  }

  /** The machine with a different top frame, store and count. */
  function Moved(m: Machine, f: Frame, s: Store, n: nat): Machine
    requires m.frames != []
  {
    WithTop(m, f).(store := s, used := m.used[f.script := n])
  }

  lemma OpSteps(w: World, m: Machine, f: Frame, s: Store)
    requires Acyclic(w) && Executes(w, m) && Current(w, m).opnum != 6 && Current(w, m).opnum != 8
    requires Handle(w.env, w.scripts[TopFrame(m).script], m.store, Advanced(m), Current(w, m)) == Next(f, s)
    ensures f.script == TopFrame(m).script
    ensures Step(w, m) == Moved(m, f, s, Used(m, f.script) + 1)
  {
    hide Handle;
    HandleKeeps(w.env, w.scripts[TopFrame(m).script], m.store, Advanced(m), Current(w, m));
  }

  lemma {:induction false} RunSplits(w: World, m: Machine, a: nat, b: nat)
    requires Acyclic(w)
    ensures Run(w, m, a + b) == Run(w, Run(w, m, a), b)
    decreases a
  {
    hide Step;
    if a > 0 { RunSplits(w, Step(w, m), a - 1, b); }
  }

  /** The top frame stands at `at` with `n` instructions of budget to go. */
  predicate Ready(w: World, m: Machine, at: int, n: nat) {
    m.status.Running? && m.frames != [] &&
    var f := TopFrame(m);
    f.script < |w.scripts| && f.ip == at && Used(m, f.script) + n <= w.scripts[f.script].maxOps
  }

  /** `n` instructions further, with this stack and nothing else changed. */
  function Pushed(m: Machine, n: nat, stack: seq<Value>): Machine
    requires m.frames != []
  {
    var f := TopFrame(m);
    Moved(m, f.(ip := f.ip + n, stack := stack), m.store, Used(m, f.script) + n)
  }

  lemma PushOne(w: World, m: Machine, at: int, op: byte, v: Value)
    requires Acyclic(w) && Ready(w, m, at, 1) && OpAt(w.scripts[TopFrame(m).script], at, op)
    requires (op == 23 && v == Marker) || (op == 189 && v == Obj(TopFrame(m).temps))
             || (op == 22 && v.VarRef? && NameAt(w.env, w.scripts[TopFrame(m).script], at, v.name))
    ensures Run(w, m, 1) == Pushed(m, 1, TopFrame(m).stack + [v])
  {
    OpSteps(w, m, Push(Advanced(m), v), m.store);
    assert Run(w, m, 1) == Run(w, Step(w, m), 0);
  }

  lemma MakeSlot(w: World, m: Machine, at: int, stack: seq<Value>, name: string)
    requires Acyclic(w) && Ready(w, m, at, 1) && OpAt(w.scripts[TopFrame(m).script], at, 35)
    requires TopFrame(m).stack == stack + [Obj(TopFrame(m).temps)] + [VarRef(name)]
    ensures Run(w, m, 1) == Pushed(m, 1, stack + [Slot(Obj(TopFrame(m).temps), name)])
  {
    var f := Advanced(m);
    assert Rest(f.stack) == stack + [Obj(f.temps)] && Rest(Rest(f.stack)) == stack;
    OpSteps(w, m, f.(stack := stack + [Slot(Obj(f.temps), name)]), m.store);
    assert Run(w, m, 1) == Run(w, Step(w, m), 0);
  }

  lemma PushParam(w: World, m: Machine, at: int, p: Param)
    requires Acyclic(w) && Ready(w, m, at, Width(p)) && ParamAt(w.env, w.scripts[TopFrame(m).script], at, p)
    ensures Run(w, m, Width(p)) == Pushed(m, Width(p), TopFrame(m).stack + [RefOf(TopFrame(m), p)])
  {
    hide Run, Step, TableEntry;
    var f := TopFrame(m);
    if p.scoped {
      PushOne(w, m, at, 189, Obj(f.temps));
      var m1 := Pushed(m, 1, f.stack + [Obj(f.temps)]);
      PushOne(w, m1, at + 1, 22, VarRef(p.name));
      var m2 := Pushed(m1, 1, f.stack + [Obj(f.temps)] + [VarRef(p.name)]);
      MakeSlot(w, m2, at + 2, f.stack, p.name);
      RunSplits(w, m, 1, 1);
      RunSplits(w, m, 2, 1);
      assert Pushed(m2, 1, f.stack + [RefOf(f, p)]) == Pushed(m, 3, f.stack + [RefOf(f, p)]);
    } else {
      PushOne(w, m, at, 22, VarRef(p.name));
    }
  }

  lemma {:induction false} PushParams(w: World, m: Machine, at: int, ps: seq<Param>)
    requires Acyclic(w) && Ready(w, m, at, Widths(ps))
    requires TopFrame(m).script in m.used && PushesAt(w.env, w.scripts[TopFrame(m).script], at, ps)
    ensures Run(w, m, Widths(ps)) == Pushed(m, Widths(ps), TopFrame(m).stack + Reversed(Refs(TopFrame(m), ps)))
    decreases |ps|
  {
    hide Step, ParamAt, Width;
    var f := TopFrame(m);
    if ps == [] {
      assert f.stack + [] == f.stack;
      Unmoved(m);
    } else {
      hide Run;
      var a := Widths(ps[1..]);
      PushParams(w, m, at, ps[1..]);
      var m1 := Pushed(m, a, f.stack + Reversed(Refs(f, ps[1..])));
      PushParam(w, m1, at + a, ps[0]);
      RunSplits(w, m, a, Width(ps[0]));
      assert Refs(f, ps)[1..] == Refs(f, ps[1..]);
      assert f.stack + Reversed(Refs(f, ps[1..])) + [RefOf(f, ps[0])] == f.stack + Reversed(Refs(f, ps));
      PushedTwice(m, a, Width(ps[0]), f.stack + Reversed(Refs(f, ps[1..])), f.stack + Reversed(Refs(f, ps)));
    }
  }

  lemma Unmoved(m: Machine)
    requires m.frames != [] && TopFrame(m).script in m.used
    ensures Pushed(m, 0, TopFrame(m).stack) == m
  {
    var f := TopFrame(m);
    assert m.frames[..|m.frames| - 1] + [f] == m.frames;
    assert m.used[f.script := Used(m, f.script)] == m.used;
  }

  lemma PushedTwice(m: Machine, a: nat, b: nat, mid: seq<Value>, stack: seq<Value>)
    requires m.frames != []
    ensures Pushed(Pushed(m, a, mid), b, stack) == Pushed(m, a + b, stack)
  {
  }

  /** The bindings a call must leave: parameter `k` holds argument `k`, or nothing. */
  ghost predicate Holds(e: Env, s: Store, scope: nat, ps: seq<Param>, args: seq<Value>) {
    forall k :: 0 <= k < |ps| ==> Get(e, s, scope, ps[k].name) == if k < |args| then args[k] else Unset
  }

  predicate DistinctNames(e: Env, ps: seq<Param>) {
    forall j, k :: 0 <= j < k < |ps| ==> e.fold(ps[j].name) != e.fold(ps[k].name)
  }

  lemma RefsAreParams(e: Env, f: Frame, ps: seq<Param>)
    requires DistinctNames(e, ps)
    ensures var refs := Refs(f, ps);
            && ParamRefs(f, refs) && DistinctParams(e, f, refs) && NoMarker(refs) && DenullAll(refs) == refs
            && forall k :: 0 <= k < |ps| ==>
                 (refs[k].VarRef? || refs[k].Slot?) && ParamName(refs[k]) == ps[k].name
  {
    var refs := Refs(f, ps);
    forall k | 0 <= k < |refs| ensures ParamRef(f, refs[k]) && ParamName(refs[k]) == ps[k].name {
      assert refs[k] == RefOf(f, ps[k]);
    }
    forall j, k | 0 <= j < k < |refs| ensures ParamKey(e, refs[j]) != ParamKey(e, refs[k]) {
      assert ParamRef(f, refs[j]) && ParamRef(f, refs[k]);
    }
    forall k | 0 <= k < |refs| ensures DenullAll(refs)[k] == refs[k] {
      assert refs[k] == RefOf(f, ps[k]);
    }
  }

  lemma BindStep(w: World, m: Machine, at: int, stack: seq<Value>, refs: seq<Value>)
    requires Acyclic(w) && Ready(w, m, at, 1) && OpAt(w.scripts[TopFrame(m).script], at, 51)
    requires TopFrame(m).stack == stack + [Marker] + Reversed(refs) && NoMarker(refs) && DenullAll(refs) == refs
    ensures Step(w, m) == Moved(m, Advanced(m).(stack := stack),
                                BindFrom(w.env, m.store, Advanced(m), refs, 0), Used(m, TopFrame(m).script) + 1)
  {
    hide BindFrom;
    var f := Advanced(m);
    ReversePushedArgs(stack, refs);
    OpSteps(w, m, f.(stack := stack), BindFrom(w.env, m.store, f, refs, 0));
  }

  lemma BindParams(w: World, m: Machine, at: int, stack: seq<Value>, ps: seq<Param>)
    requires Acyclic(w) && Ready(w, m, at, 1) && OpAt(w.scripts[TopFrame(m).script], at, 51)
    requires TopFrame(m).stack == stack + [Marker] + Reversed(Refs(TopFrame(m), ps))
    requires DistinctNames(w.env, ps) && TopFrame(m).temps in m.store.heap
    ensures var f, r := TopFrame(m), Step(w, m);
            && r == Moved(m, f.(ip := at + 1, stack := stack), r.store, Used(m, f.script) + 1)
            && f.temps in r.store.heap && Holds(w.env, r.store, f.temps, ps, f.args)
            && r.store == m.store.(heap := m.store.heap[f.temps := r.store.heap[f.temps]])
  {
    hide BindFrom, Get, Step, DistinctNames, NoMarker, ParamRefs, DistinctParams;
    var f := Advanced(m);
    var refs := Refs(f, ps);
    assert refs == Refs(TopFrame(m), ps);
    RefsAreParams(w.env, f, ps);
    BindStep(w, m, at, stack, refs);
    ParametersBindInOrder(w.env, m.store, f, refs);
  }

  /** The prologue as far as its last instruction. */
  lemma PrologueRuns(w: World, m: Machine, at: int, ps: seq<Param>)
    requires Acyclic(w) && Ready(w, m, at, Widths(ps) + 2)
    requires PrologueAt(w.env, w.scripts[TopFrame(m).script], at, ps)
    ensures Run(w, m, 1 + Widths(ps)) ==
              Pushed(m, 1 + Widths(ps), TopFrame(m).stack + [Marker] + Reversed(Refs(TopFrame(m), ps)))
  {
    hide Run, Step, PushesAt, TableEntry;
    var f, a := TopFrame(m), Widths(ps);
    PushOne(w, m, at, 23, Marker);
    var m1 := Pushed(m, 1, f.stack + [Marker]);
    PushParams(w, m1, at + 1, ps);
    assert Refs(TopFrame(m1), ps) == Refs(f, ps);
    RunSplits(w, m, 1, a);
    PushedTwice(m, 1, a, f.stack + [Marker], f.stack + [Marker] + Reversed(Refs(f, ps)));
  }

  /** A prologue in either style, or a mixture, binds the parameters to the arguments and
      leaves the stack, the rest of the store and the frames below as they were. */
  lemma PrologueBinds(w: World, m: Machine, at: int, ps: seq<Param>)
    requires Acyclic(w) && Ready(w, m, at, Widths(ps) + 2)
    requires PrologueAt(w.env, w.scripts[TopFrame(m).script], at, ps)
    requires DistinctNames(w.env, ps) && TopFrame(m).temps in m.store.heap
    ensures var f, n, r := TopFrame(m), Widths(ps) + 2, Run(w, m, Widths(ps) + 2);
            && r == Moved(m, f.(ip := at + n), r.store, Used(m, f.script) + n)
            && f.temps in r.store.heap && Holds(w.env, r.store, f.temps, ps, f.args)
            && r.store == m.store.(heap := m.store.heap[f.temps := r.store.heap[f.temps]])
  {
    hide Run, Step, PushesAt, TableEntry, Holds, DistinctNames;
    var f, a := TopFrame(m), Widths(ps);
    var stack := f.stack + [Marker] + Reversed(Refs(f, ps));
    PrologueRuns(w, m, at, ps);
    var m2 := Pushed(m, 1 + a, stack);
    assert Refs(f, ps) == Refs(TopFrame(m2), ps);
    BindParams(w, m2, at + 1 + a, f.stack, ps);
    RunSplits(w, m, 1 + a, 1);
    OneStep(w, m2);
  }

  lemma OneStep(w: World, m: Machine)
    requires Acyclic(w)
    ensures Run(w, m, 1) == Step(w, m)
  {
    assert Run(w, m, 1) == Run(w, Step(w, m), 0);
  }

  /** The whole way in: from the call to the end of the prologue. The callee's parameters hold
      the caller's arguments in source order, `null` arriving as an unset value; the caller's
      stack is what was below the marker; no other frame and no other object has changed. */
  lemma CallBindsArguments(w: World, m: Machine, below: seq<Value>, vs: seq<Value>, target: Value,
                           to: Found, ps: seq<Param>) returns (args: seq<Value>, r: Machine)
    requires Acyclic(w) && Executes(w, m) && Current(w, m).opnum == 6
    requires TopFrame(m).stack == below + [Marker] + Reversed(vs) + [target] && NoMarker(vs)
    requires ScriptTarget(w, TopFrame(m).script, target) == Some(to)
    requires PrologueAt(w.env, w.scripts[to.script], to.entry, ps) && DistinctNames(w.env, ps)
    requires Used(m, TopFrame(m).script) + Widths(ps) + 3 <= w.scripts[to.script].maxOps
    ensures args == DerefAll(w.env, w.scripts[TopFrame(m).script], m.store, Advanced(m), DenullAll(vs))
    ensures r == Run(w, m, 1 + (Widths(ps) + 2)) && |r.frames| == |m.frames| + 1
    ensures r.frames[..|m.frames| - 1] == m.frames[..|m.frames| - 1]
    ensures r.frames[|m.frames| - 1] == Advanced(m).(stack := below)
    ensures TopFrame(r).temps == m.store.next && TopFrame(r).stack == [] && TopFrame(r).args == args
    ensures Holds(w.env, r.store, m.store.next, ps, args) && m.store.next in r.store.heap
    ensures r.store.heap == m.store.heap[m.store.next := r.store.heap[m.store.next]]
    ensures r.store.globals == m.store.globals
  {
    hide Run, Step, Holds, PrologueAt, ScriptTarget, DerefAll;
    CallEnters(w, m, below, vs, target);
    var m1 := Step(w, m);
    PrologueBinds(w, m1, to.entry, ps);
    RunSplits(w, m, 1, Widths(ps) + 2);
    OneStep(w, m);
    args := DerefAll(w.env, w.scripts[TopFrame(m).script], m.store, Advanced(m), DenullAll(vs));
    r := Run(w, m, 1 + (Widths(ps) + 2));
  }

  // ------------------------------------------------------------- returning

  /** One step, or the end of a sleep. */
  function Go(w: World, m: Machine): Machine
    requires Acyclic(w)
  {
    if m.status.Asleep? then Wake(m) else Step(w, m)
  }

  function GoOn(w: World, m: Machine, n: nat): Machine
    requires Acyclic(w)
    decreases n
  {
    if n == 0 then m else GoOn(w, Go(w, m), n - 1)
  }

  /** The first `k` frames are the same. */
  predicate SameBelow(m: Machine, r: Machine, k: nat) {
    k <= |m.frames| && k <= |r.frames| && m.frames[..k] == r.frames[..k]
  }

  /** The same frame with one value more on its stack. */
  predicate GivenOne(f: Frame, g: Frame) {
    |g.stack| == |f.stack| + 1 && g == Push(f, g.stack[|f.stack|])
  }

  /** What a step may do to the stack of frames: work on the top one, call from it, or take it
      away and hand one value to the frame below. */
  ghost predicate Legal(m: Machine, r: Machine)
    requires m.frames != []
  {
    var n := |m.frames|;
    || (|r.frames| in {n, n + 1} && SameBelow(m, r, n - 1))
    || (|r.frames| == n - 1 &&
        if n == 1 then r.status.Finished?
        else SameBelow(m, r, n - 2) && GivenOne(m.frames[n - 2], r.frames[n - 2]))
  }

  lemma LeaveIsLegal(m: Machine, v: Value)
    requires m.frames != []
    ensures Legal(m, Leave(m, v))
  {
    var r, n := Leave(m, v), |m.frames|;
    if n > 1 { assert r.frames[n - 2] == Push(m.frames[n - 2], v) && GivenOne(m.frames[n - 2], r.frames[n - 2]); }
  }

  lemma TopOnly(m: Machine, r: Machine, f: Frame)
    requires m.frames != [] && r.frames == m.frames[..|m.frames| - 1] + [f]
    ensures Legal(m, r)
  {
  }

  lemma LegalFrom(m: Machine, mid: Machine, r: Machine)
    requires m.frames != [] && |mid.frames| == |m.frames| && SameBelow(m, mid, |m.frames| - 1) && Legal(mid, r)
    ensures Legal(m, r)
  {
    var n := |m.frames|;
    if |r.frames| == n - 1 && n > 1 {
      assert m.frames[..n - 1][..n - 2] == m.frames[..n - 2] && mid.frames[..n - 1][..n - 2] == mid.frames[..n - 2];
      assert m.frames[..n - 1][n - 2] == mid.frames[..n - 1][n - 2];
    }
  }

  lemma FailedIsLegal(w: World, m: Machine)
    requires m.frames != [] && TopFrame(m).script < |w.scripts|
    ensures Legal(m, Failed(w, m))
  {
    hide Leave, Legal;
    var v := TopFrame(m).script;
    var noted := m.(errors := m.errors[v := CountOf(m.errors, v) + 1]);
    LeaveIsLegal(noted, Unset);
    LegalFrom(m, noted, Leave(noted, Unset));
    TopOnly(m, noted, TopFrame(m));
  }

  lemma CallIsLegal(w: World, m: Machine, f: Frame)
    requires Acyclic(w) && m.frames != [] && f.script < |w.scripts| && TopFrame(m) == f
    ensures Legal(m, CallOp(w, m, f))
  {
    hide ScriptTarget, DerefAll, ArgsOf, BelowMarker, Failed, Counted;
    var under := Rest(f.stack);
    var below := f.(stack := BelowMarker(under));
    var popped := WithTop(m, below);
    var args := DerefAll(w.env, w.scripts[f.script], m.store, f, ArgsOf(under));
    if ScriptTarget(w, f.script, Top(f.stack)).None? {
      var answer := w.env.host(m.store, Top(f.stack), args);
      if answer.Refusal? {
        var refused := popped.(store := answer.store);
        FailedIsLegal(w, refused);
        LegalFrom(m, refused, Failed(w, refused));
      }
    }
  }

  lemma OtherIsLegal(w: World, m: Machine, f: Frame, i: Gs2Disasm.Instruction)
    requires m.frames != [] && f.script < |w.scripts| && TopFrame(m) == f
    ensures Legal(m, OtherOp(w, m, f, i))
  {
    hide Handle, Leave, Failed, Legal;
    HandleKeeps(w.env, w.scripts[f.script], m.store, f, i);
    var r := Handle(w.env, w.scripts[f.script], m.store, f, i);
    if r.Return? {
      LeaveIsLegal(m, r.value);
    } else if r.Jump? {
      TopOnly(m, OtherOp(w, m, f, i), r.f.(ip := r.target));
    } else {
      var next := WithTop(m, r.f).(store := r.s);
      TopOnly(m, next, r.f);
      if r.Raise? {
        FailedIsLegal(w, next);
        LegalFrom(m, next, Failed(w, next));
      }
    }
  }

  lemma GoIsLegal(w: World, m: Machine)
    requires Acyclic(w) && m.frames != []
    ensures Legal(m, Go(w, m))
  {
    hide CallOp, OtherOp, Leave, Legal;
    var f := TopFrame(m);
    if m.status.Running? && Executes(w, m) {
      var i := w.scripts[f.script].code[f.ip];
      var moved := f.(ip := f.ip + 1);
      var counted := WithTop(m.(used := m.used[f.script := Used(m, f.script) + 1]), moved);
      if i.opnum == 6 {
        CallIsLegal(w, counted, moved);
        LegalFrom(m, counted, CallOp(w, counted, moved));
      } else if i.opnum == 8 && w.coro {
        TopOnly(m, Step(w, m), moved.(stack := Rest(moved.stack)));
      } else {
        OtherIsLegal(w, counted, moved, i);
        LegalFrom(m, counted, OtherOp(w, counted, moved, i));
      }
    } else if m.status.Running? {
      LeaveIsLegal(m, Unset);
    } else if m.status.Waiting? {
      TopOnly(m, Go(w, m), Push(f, m.status.value));
    } else {
      TopOnly(m, Go(w, m), f);
    }
  }

  /** Through `n` steps there are always more than `k` frames. */
  predicate StaysAbove(w: World, m: Machine, k: nat, n: nat)
    requires Acyclic(w)
    decreases n
  {
    |m.frames| > k && (n > 0 ==> StaysAbove(w, Go(w, m), k, n - 1))
  }

  /** A frame that has called something is not touched until it is the top frame again. */
  lemma {:induction false} CallersStand(w: World, m: Machine, k: nat, n: nat)
    requires Acyclic(w) && StaysAbove(w, m, k, n)
    ensures SameBelow(m, GoOn(w, m, n), k) && |GoOn(w, m, n).frames| > k
    decreases n
  {
    hide Go, Legal;
    if n > 0 {
      var next := Go(w, m);
      GoIsLegal(w, m);
      StillBelow(m, next, k);
      CallersStand(w, next, k, n - 1);
    }
  }

  lemma StillBelow(m: Machine, r: Machine, k: nat)
    requires m.frames != [] && Legal(m, r) && k < |m.frames| && k < |r.frames|
    ensures SameBelow(m, r, k)
  {
    var n := |m.frames|;
    if |r.frames| >= n {
      assert m.frames[..n - 1][..k] == m.frames[..k] && r.frames[..n - 1][..k] == r.frames[..k];
    } else {
      assert m.frames[..n - 2][..k] == m.frames[..k] && r.frames[..n - 2][..k] == r.frames[..k];
    }
  }

  /** A call gives back exactly one value: when, after any number of steps, nested calls and
      sleeps, the callee at depth `k` is gone for the first time, the caller is as it was with
      one value more on its stack, and the frames below it are untouched. */
  lemma CallReturnsOneValue(w: World, m: Machine, k: nat, n: nat)
    requires Acyclic(w) && 1 <= k && |m.frames| == k + 1
    requires StaysAbove(w, m, k, n) && |GoOn(w, m, n + 1).frames| <= k
    ensures var r := GoOn(w, m, n + 1);
            && |r.frames| == k && SameBelow(m, r, k - 1)
            && GivenOne(m.frames[k - 1], r.frames[k - 1])
  {
    hide Go;
    var last, r := GoOn(w, m, n), GoOn(w, m, n + 1);
    GoesOn(w, m, n);
    CallersStand(w, m, k, n);
    GoIsLegal(w, last);
    assert last.frames[..k][..k - 1] == last.frames[..k - 1] && m.frames[..k][..k - 1] == m.frames[..k - 1];
    assert last.frames[..k][k - 1] == m.frames[..k][k - 1];
  }

  lemma {:induction false} GoesOn(w: World, m: Machine, n: nat)
    requires Acyclic(w)
    ensures GoOn(w, m, n + 1) == Go(w, GoOn(w, m, n))
    decreases n
  {
    hide Go;
    if n > 0 {
      GoesOn(w, Go(w, m), n - 1);
    } else {
      assert GoOn(w, m, 1) == GoOn(w, Go(w, m), 0);
    }
  }
}

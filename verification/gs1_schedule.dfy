/** What the scheduler is told: between them, the launch and the resumes of an event hand out
    the sleeps the direct interpreter records, one at a time and in order, and say which pauses
    are preemptions. */
module Gs1Schedule {
  import opened Gs1Ast
  import opened Gs1Runtime
  import opened Gs1Exec
  import opened Gs1Machine
  import opened Gs1Slicing
  import opened Gs1Simulation
  import opened Gs1Resumable
  import opened Gs1Driven

  /** A statement in hand has something to return to. */
  predicate Live(g: Config) { g.control.Done? || g.kont.Push? }

  /** The generator yielded for a sleep: one more is on record, with the context as it is. */
  predicate Slept(a: Config, b: Config) {
    && |b.st.sleeps| == |a.st.sleeps| + 1 && b.st.sleeps[..|a.st.sleeps|] == a.st.sleeps
    && b.st.sleeps[|a.st.sleeps|].1 == b.st.core && b.st.preempts == a.st.preempts
  }

  predicate WasPreempted(a: Config, b: Config) {
    b.st.sleeps == a.st.sleeps && b.st.preempts == a.st.preempts + 1
  }

  predicate Ran(a: Config, b: Config) { Silent(a.st, b.st) }

  /** What one step may do: run on, or yield for one reason with the execution unfinished. */
  predicate Moves(a: Config, b: Config) {
    Live(b) && (Ran(a, b) || ((Slept(a, b) || WasPreempted(a, b)) && !Final(b)))
  }

  /** As seen from the statement's own state. */
  predicate Dispatched(st: St, h: Config) {
    && Live(h)
    && (Silent(st, h.st)
        || (h.kont.Push? && |h.st.sleeps| == |st.sleeps| + 1 && h.st.sleeps[..|st.sleeps|] == st.sleeps
            && h.st.sleeps[|st.sleeps|].1 == h.st.core && h.st.preempts == st.preempts))
  }

  lemma {:induction false} SelectSilent(c: Cfg, arms: Arms, i: nat, v: Value, st: St)
    requires i <= |arms.cases|
    ensures Silent(st, Select(c, arms, i, v, st).1)
    decreases |arms.cases| - i
  {
    hide Eval;
    if i < |arms.cases| {
      var (r, st1) := Eval(c, arms.cases[i].guard, st);
      if r.Val? { SelectSilent(c, arms, i + 1, v, st1); }
    }
  }

  lemma SwitchSilent(c: Cfg, s: Stmt, k: Kont, st: St)
    requires s.Switch?
    ensures Live(EnterSwitch(c, s, k, st)) && Silent(st, EnterSwitch(c, s, k, st).st)
  {
    hide Eval, Select;
    var (r, st1) := Eval(c, s.value, st);
    if r.Val? { SelectSilent(c, s.arms, 0, r.v, st1); }
  }

  lemma IfSilent(c: Cfg, s: Stmt, k: Kont, st: St)
    requires s.If?
    ensures Live(EnterIf(c, s, k, st)) && Silent(st, EnterIf(c, s, k, st).st)
  {
    hide Eval;
  }

  lemma WithSilent(c: Cfg, s: Stmt, k: Kont, st: St)
    requires s.With?
    ensures Live(EnterWith(c, s, k, st)) && Silent(st, EnterWith(c, s, k, st).st)
  {
    hide Eval;
  }

  lemma ForSilent(c: Cfg, s: Stmt, k: Kont, st: St)
    requires s.For?
    ensures Live(EnterFor(c, s, k, st)) && Silent(st, EnterFor(c, s, k, st).st)
  {
    hide ExecHook;
  }

  lemma BeginSilent(name: string, args: seq<Value>, k: Kont, st: St)
    ensures Live(BeginCall(name, args, k, st)) && Silent(st, BeginCall(name, args, k, st).st)
  {
    hide EnterCall;
  }

  lemma UserCallSilent(c: Cfg, s: Stmt, k: Kont, st: St)
    requires s.UserCall?
    ensures Live(EnterUserCall(c, s, k, st)) && Silent(st, EnterUserCall(c, s, k, st).st)
  {
    hide EvalAll, EvalCall, BeginCall;
    if FindFunc(st.core.functions, s.callee).Some? {
      var (r, st1) := EvalAll(c, s.args, st);
      if r.Vals? { BeginSilent(s.callee, r.vs, k, st1); }
    }
  }

  lemma LeafYields(c: Cfg, s: Stmt, k: Kont, st: St)
    requires IsLeaf(s) && k.Push?
    ensures Dispatched(st, Finish(ExecLeaf(c, s, st), k))
  {
    hide EvalFirst, EvalAll, EvalAssign, Eval;
  }

  lemma DispatchYields(c: Cfg, s: Stmt, k: Kont, st: St)
    requires k.Push?
    ensures Dispatched(st, Dispatch(c, s, k, st))
  {
    hide EnterIf, EnterSwitch, EnterFor, EnterWith, EnterUserCall, ExecLeaf;
    match s
    case If(_, _, _) => IfSilent(c, s, k, st);
    case Block(_) =>
    case Switch(_, _) => SwitchSilent(c, s, k, st);
    case While(_, _) =>
    case For(_, _, _, _) => ForSilent(c, s, k, st);
    case With(_, _) => WithSilent(c, s, k, st);
    case UserCall(_, _) => UserCallSilent(c, s, k, st);
    case _ => LeafYields(c, s, k, st);
  }

  lemma WhileHeadSilent(c: Cfg, s: WhileStmt, it: nat, k: Kont, st: St)
    ensures Live(WhileHead(c, s, it, k, st)) && Silent(st, WhileHead(c, s, it, k, st).st)
  {
    hide Eval;
  }

  lemma ForHeadSilent(c: Cfg, s: ForStmt, it: nat, k: Kont, st: St)
    ensures Live(ForHead(c, s, it, k, st)) && Silent(st, ForHead(c, s, it, k, st).st)
  {
    hide EvalCheck;
  }

  lemma IterationSilent(c: Cfg, s: ForStmt, it: nat, k: Kont, st: St)
    ensures Live(NextIteration(c, s, it, k, st)) && Silent(st, NextIteration(c, s, it, k, st).st)
  {
    hide ExecHook, ForHead;
    ForHeadSilent(c, s, 0, k, st);
    ForHeadSilent(c, s, it, k, ExecHook(c, s.post, st).1);
  }

  lemma {:induction false} NextTopSilent(c: Cfg, program: seq<Stmt>, event: string, k: Kont, st: St)
    ensures Live(NextTop(c, program, event, k, st)) && Silent(st, NextTop(c, program, event, k, st).st)
    decreases |program|
  {
    hide EventCall, BeginCall;
    if program == [] {
      var (call, core) := EventCall(c, event, st.core);
      if call.Some? { BeginSilent(call.value.0, call.value.1, Push(InEvent, k), WithCore(st, core)); }
    } else if program[0].FuncDef? {
      NextTopSilent(c, program[1..], event, k, st);
    }
  }

  lemma ReturnSilent(c: Cfg, o: Outcome, f: Frame, k: Kont, st: St)
    ensures Live(Return(c, o, f, k, st)) && Silent(st, Return(c, o, f, k, st).st)
  {
    hide WhileHead, NextIteration, NextTop;
    match f
    case InWhile(s, it) => WhileHeadSilent(c, s, it, k, st);
    case InFor(s, it) => IterationSilent(c, s, it, k, st);
    case TopLevel(rest, event) => NextTopSilent(c, rest, event, k, st);
    case _ =>
  }

  lemma StepMoves(c: Cfg, g: Config)
    requires Live(g) && !Final(g)
    ensures Moves(g, Step(c, g))
  {
    hide Dispatch, Return;
    match g.control
    case Start(s) => DispatchYields(c, s, g.kont, Counted(g.st));
    case Wake(s) => DispatchYields(c, s, g.kont, g.st.(steps := 1));
    case Done(o) => ReturnSilent(c, o, g.kont.frame, g.kont.below, g.st);
  }

  // ------------------------------------------------------------- one advance

  /** What the scheduler has been handed by an execution that stopped here. */
  predicate Told(a: Config, y: Snap) {
    && Live(y.g)
    && if Final(y.g) then Silent(a.st, y.g.st)
       else
         && !y.done
         && (Slept(a, y.g) || WasPreempted(a, y.g))
         && (Slept(a, y.g) ==> y.pending == Some(SleepFor(y.g.st.sleeps[|y.g.st.sleeps| - 1].0)))
         && (WasPreempted(a, y.g) ==> y.pending == Some(Preempted))
  }

  lemma {:induction false} AdvanceTells(c: Cfg, x: Snap, n: nat)
    requires Final(Run(c, x.g, n)) && Live(x.g) && !x.done
    ensures Told(x.g, AdvanceN(c, x, n))
    decreases n
  {
    hide Step;
    if n > 0 && !Final(x.g) {
      var h := Step(c, x.g);
      StepMoves(c, x.g);
      if Ran(x.g, h) {
        AdvanceTells(c, x.(g := h), n - 1);
      }
    }
  }

  /** A pause says why: `Preempted` exactly when the advance ended in a preemption, and
      otherwise the seconds of the sleep it ended in, recorded with the context the scheduler
      now sees. Unless it pauses, the execution has ended and asked for nothing. */
  lemma PauseSaysWhy(c: Cfg, x: Snap)
    requires Live(x.g) && !x.done && !x.g.st.cancelled && !Final(x.g)
    ensures var y := Resumed(c, x);
            if Final(y.g) then y.g.st.sleeps == x.g.st.sleeps && y.g.st.preempts == x.g.st.preempts
            else
              && !y.done && y.pending.Some?
              && (y.pending == Some(Preempted) <==> y.g.st.preempts == x.g.st.preempts + 1)
              && (y.pending != Some(Preempted) ==>
                    y.g.st.sleeps == x.g.st.sleeps + [(y.pending.value.seconds, y.g.st.core)])
  {
    hide Step;
    AdvanceTells(c, x, StepsToEnd(c, x.g));
    var y := Resumed(c, x);
    if !Final(y.g) && Slept(x.g, y.g) {
      assert y.g.st.sleeps == x.g.st.sleeps + [y.g.st.sleeps[|x.g.st.sleeps|]];
    }
  }

  // ------------------------------------------------------------- a whole event

  function Seconds(sleeps: seq<(real, Core)>): (r: seq<real>)
    ensures |r| == |sleeps| && forall k :: 0 <= k < |sleeps| ==> r[k] == sleeps[k].0
  {
    seq(|sleeps|, k requires 0 <= k < |sleeps| => sleeps[k].0)
  }

  function HandedBy(x: Snap): seq<real> {
    if x.pending.Some? && x.pending.value.SleepFor? then [x.pending.value.seconds] else []
  }

  /** The seconds handed out at this stop and at the `n - 1` after it. */
  ghost function Handed(c: Cfg, x: Snap, n: nat): seq<real>
    decreases n
  {
    if n == 0 then [] else HandedBy(x) + Handed(c, Resumed(c, x), n - 1)
  }

  lemma ToldHands(a: Config, y: Snap)
    requires Told(a, y) && !Final(y.g)
    ensures Seconds(y.g.st.sleeps) == Seconds(a.st.sleeps) + HandedBy(y)
  {
    if Slept(a, y.g) {
      var n := |a.st.sleeps|;
      assert forall k :: 0 <= k < n ==> y.g.st.sleeps[k] == y.g.st.sleeps[..n][k];
    }
  }

  lemma {:induction false} DrivenHands(c: Cfg, a: Config, x: Snap, n: nat)
    requires Told(a, x) && (!Final(x.g) ==> !x.g.st.cancelled)
    requires Final(Driven(c, x, n).g) && forall i: nat | i < n :: !Final(Driven(c, x, i).g)
    ensures Seconds(a.st.sleeps) + Handed(c, x, n) == Seconds(Driven(c, x, n).g.st.sleeps)
    decreases n
  {
    hide Step, Told;
    assert Driven(c, x, 0) == x;
    if n == 0 {
      assert Told(a, x) && Final(x.g) ==> Silent(a.st, x.g.st) by { Finished(a, x); }
    } else {
      ToldHands(a, x);
      Unfinished(a, x);
      AdvanceTells(c, x, StepsToEnd(c, x.g));
      AdvanceClears(c, x, StepsToEnd(c, x.g));
      var y := Resumed(c, x);
      forall i: nat | i < n - 1 ensures !Final(Driven(c, y, i).g) {
        assert Driven(c, x, i + 1) == Driven(c, y, i);
      }
      DrivenHands(c, x.g, y, n - 1);
    }
  }

  lemma Finished(a: Config, x: Snap)
    requires Told(a, x) && Final(x.g)
    ensures Silent(a.st, x.g.st)
  {
  }

  lemma Unfinished(a: Config, x: Snap)
    requires Told(a, x) && !Final(x.g)
    ensures Live(x.g) && !x.done
  {
  }

  /** The scheduler wakes the script after the delays the script asked for: over a whole event,
      resumed until it is done, the seconds handed out at the launch and at each resume are, in
      order, those of the sleeps the direct interpreter records for the same event. */
  lemma SleepsHandedInOrder(c: Cfg, program: seq<Stmt>, event: string, st: St, n: nat)
    requires var x := Launched(c, program, event, st);
             Final(Driven(c, x, n).g) && forall i: nat | i < n :: !Final(Driven(c, x, i).g)
    requires RunEvent(c.(budget := 0), program, event, st).0 != Threw(STARVED)
    ensures Seconds(st.sleeps) + Handed(c, Launched(c, program, event, st), n)
            == Seconds(RunEvent(c.(budget := 0), program, event, st).1.sleeps)
  {
    hide Step, Told, RunEvent;
    var g0 := Initial(program, event, st);
    var x := Launched(c, program, event, st);
    AdvanceTells(c, Snap(g0, false, None), StepsToEnd(c, g0));
    AdvanceClears(c, Snap(g0, false, None), StepsToEnd(c, g0));
    DrivenHands(c, g0, x, n);
    ResumedToTheEnd(c, program, event, st, n);
  }
}

/** A scheduler that resumes a GS1 execution until it is done, with nothing else running on
    the context, ends exactly where the direct interpreter ends.

    Each suspension clears the cancellation flag, so the resumed run and the machine's
    uninterrupted run differ in that flag; no statement reads it. */
module Gs1Driven {
  import opened Gs1Ast
  import opened Gs1Runtime
  import opened Gs1Exec
  import opened Gs1Machine
  import opened Gs1Slicing
  import opened Gs1Simulation
  import opened Gs1Ends
  import opened Gs1Resumable

  /** Paired states under one configuration: equal but for the cancellation flag. */
  ghost predicate Twin(c: Cfg, a: St, b: St) { Paired(c, c, a, b) }

  lemma {:induction false} SelectSame(c: Cfg, arms: Arms, i: nat, v: Value, a: St, b: St)
    requires i <= |arms.cases| && Twin(c, a, b)
    ensures Select(c, arms, i, v, a).0 == Select(c, arms, i, v, b).0
    ensures Twin(c, Select(c, arms, i, v, a).1, Select(c, arms, i, v, b).1)
    decreases |arms.cases| - i
  {
    hide Eval;
    if i < |arms.cases| {
      var guard := arms.cases[i].guard;
      SliceEval(c, c, guard, a, b);
      var (r, b1) := Eval(c, guard, b);
      if r.Val? && !SwitchEq(c.env, b1.core.heap, v, r.v) {
        SelectSame(c, arms, i + 1, v, Eval(c, guard, a).1, b1);
      }
    }
  }

  lemma SwitchSame(c: Cfg, s: Stmt, k: Kont, a: St, b: St)
    requires s.Switch? && Twin(c, a, b)
    ensures Same(c, EnterSwitch(c, s, k, a), EnterSwitch(c, s, k, b))
  {
    hide Eval, Select;
    SliceEval(c, c, s.value, a, b);
    var (r, b1) := Eval(c, s.value, b);
    if r.Val? { SelectSame(c, s.arms, 0, r.v, Eval(c, s.value, a).1, b1); }
  }

  lemma IfSame(c: Cfg, s: Stmt, k: Kont, a: St, b: St)
    requires s.If? && Twin(c, a, b)
    ensures Same(c, EnterIf(c, s, k, a), EnterIf(c, s, k, b))
  {
    hide Eval;
    SliceEval(c, c, s.cond, a, b);
  }

  lemma ForSame(c: Cfg, s: Stmt, k: Kont, a: St, b: St)
    requires s.For? && Twin(c, a, b)
    ensures Same(c, EnterFor(c, s, k, a), EnterFor(c, s, k, b))
  {
    hide ExecHook;
    SliceHook(c, c, s.init, a, b);
  }

  lemma WithSame(c: Cfg, s: Stmt, k: Kont, a: St, b: St)
    requires s.With? && Twin(c, a, b)
    ensures Same(c, EnterWith(c, s, k, a), EnterWith(c, s, k, b))
  {
    hide Eval;
    SliceEval(c, c, s.subject, a, b);
  }

  lemma BeginSame(c: Cfg, name: string, args: seq<Value>, k: Kont, a: St, b: St)
    requires Twin(c, a, b)
    ensures Same(c, BeginCall(name, args, k, a), BeginCall(name, args, k, b))
  {
  }

  lemma UserCallSame(c: Cfg, s: Stmt, k: Kont, a: St, b: St)
    requires s.UserCall? && Twin(c, a, b)
    ensures Same(c, EnterUserCall(c, s, k, a), EnterUserCall(c, s, k, b))
  {
    hide EvalAll, EvalCall;
    if FindFunc(b.core.functions, s.callee).Some? {
      SliceAll(c, c, s.args, a, b);
      var (r, b1) := EvalAll(c, s.args, b);
      if r.Vals? { BeginSame(c, s.callee, r.vs, k, EvalAll(c, s.args, a).1, b1); }
    } else {
      SliceCall(c, c, s.callee, s.args, a, b);
    }
  }

  lemma DispatchSame(c: Cfg, s: Stmt, k: Kont, a: St, b: St)
    requires Twin(c, a, b)
    ensures Same(c, Dispatch(c, s, k, a), Dispatch(c, s, k, b))
  {
    hide EnterIf, EnterSwitch, EnterFor, EnterWith, EnterUserCall, ExecLeaf;
    match s
    case If(_, _, _) => IfSame(c, s, k, a, b);
    case Block(_) =>
    case Switch(_, _) => SwitchSame(c, s, k, a, b);
    case While(_, _) =>
    case For(_, _, _, _) => ForSame(c, s, k, a, b);
    case With(_, _) => WithSame(c, s, k, a, b);
    case UserCall(_, _) => UserCallSame(c, s, k, a, b);
    case _ => SliceLeaf(c, c, s, a, b);
  }

  lemma WhileHeadSame(c: Cfg, s: WhileStmt, it: nat, k: Kont, a: St, b: St)
    requires Twin(c, a, b)
    ensures Same(c, WhileHead(c, s, it, k, a), WhileHead(c, s, it, k, b))
  {
    hide Eval;
    if it < MAX_LOOP_ITERATIONS {
      SliceEval(c, c, s.test, a, b);
      var (r, b1) := Eval(c, s.test, b);
      if r.Exc? {
      } else if !Truthy(r.v) {
      } else if LoopTick(c, b1).Some? {
        assert LoopTick(c, Eval(c, s.test, a).1).Some?;
      }
    }
  }

  lemma ForHeadSame(c: Cfg, s: ForStmt, it: nat, k: Kont, a: St, b: St)
    requires Twin(c, a, b)
    ensures Same(c, ForHead(c, s, it, k, a), ForHead(c, s, it, k, b))
  {
    hide EvalCheck;
    if it < MAX_LOOP_ITERATIONS {
      SliceCheck(c, c, s.check, a, b);
      var (r, b1) := EvalCheck(c, s.check, b);
      if r.Exc? {
      } else if !Truthy(r.v) {
      } else if LoopTick(c, b1).Some? {
        assert LoopTick(c, EvalCheck(c, s.check, a).1).Some?;
      }
    }
  }

  lemma IterationSame(c: Cfg, s: ForStmt, it: nat, k: Kont, a: St, b: St)
    requires Twin(c, a, b)
    ensures Same(c, NextIteration(c, s, it, k, a), NextIteration(c, s, it, k, b))
  {
    hide ExecHook, ForHead;
    if it == 0 {
      ForHeadSame(c, s, 0, k, a, b);
    } else {
      SliceHook(c, c, s.post, a, b);
      ForHeadSame(c, s, it, k, ExecHook(c, s.post, a).1, ExecHook(c, s.post, b).1);
    }
  }

  lemma {:induction false} NextTopSame(c: Cfg, program: seq<Stmt>, event: string, k: Kont, a: St, b: St)
    requires Twin(c, a, b)
    ensures Same(c, NextTop(c, program, event, k, a), NextTop(c, program, event, k, b))
    decreases |program|
  {
    hide EventCall;
    if program == [] {
      var (call, core) := EventCall(c, event, b.core);
      if call.Some? {
        BeginSame(c, call.value.0, call.value.1, Push(InEvent, k), WithCore(a, core), WithCore(b, core));
      }
    } else if program[0].FuncDef? {
      NextTopSame(c, program[1..], event, k, a, b);
    }
  }

  lemma ReturnSame(c: Cfg, o: Outcome, f: Frame, k: Kont, a: St, b: St)
    requires Twin(c, a, b)
    ensures Same(c, Return(c, o, f, k, a), Return(c, o, f, k, b))
  {
    hide WhileHead, NextIteration, NextTop;
    match f
    case InWhile(s, it) => WhileHeadSame(c, s, it, k, a, b);
    case InFor(s, it) => IterationSame(c, s, it, k, a, b);
    case TopLevel(rest, event) => NextTopSame(c, rest, event, k, a, b);
    case _ =>
  }

  lemma StepSame(c: Cfg, g: Config, h: Config)
    requires Same(c, g, h) && !Final(g)
    ensures Same(c, Step(c, g), Step(c, h))
  {
    hide Dispatch, Return;
    match g.control
    case Start(s) => DispatchSame(c, s, g.kont, Counted(g.st), Counted(h.st));
    case Wake(s) => DispatchSame(c, s, g.kont, g.st.(steps := 1), h.st.(steps := 1));
    case Done(o) => ReturnSame(c, o, g.kont.frame, g.kont.below, g.st, h.st);
  }

  lemma {:induction false} RunSame(c: Cfg, g: Config, h: Config, n: nat)
    requires Same(c, g, h)
    ensures Same(c, Run(c, g, n), Run(c, h, n))
    decreases n
  {
    hide Step;
    if n > 0 && !Final(g) {
      StepSame(c, g, h);
      RunSame(c, Step(c, g), Step(c, h), n - 1);
    }
  }

  // ------------------------------------------------------------- the scheduler

  /** `n` calls of `resume`. */
  ghost function Driven(c: Cfg, x: Snap, n: nat): Snap
    decreases n
  {
    if n == 0 then x else Driven(c, Resumed(c, x), n - 1)
  }

  /** Wherever the scheduler has got to, the uninterrupted machine passes there too. */
  ghost predicate OnTrack(c: Cfg, g0: Config, x: Snap) {
    && (exists m: nat :: Same(c, Run(c, g0, m), x.g))
    && (x.g.st.cancelled ==> Final(x.g))
    && (x.done ==> Final(x.g))
  }

  lemma AdvancedOnTrack(c: Cfg, g0: Config, x: Snap)
    requires !x.done && exists m: nat :: Same(c, Run(c, g0, m), x.g)
    ensures OnTrack(c, g0, Advanced(c, x))
  {
    var m: nat :| Same(c, Run(c, g0, m), x.g);
    if !Final(x.g) {
      var n := StepsToEnd(c, x.g);
      var j := AdvanceMoves(c, x, n);
      AdvanceClears(c, x, n);
      RunSame(c, Run(c, g0, m), x.g, j);
      RunSplit(c, g0, m, j);
      assert Same(c, Run(c, g0, m + j), Advanced(c, x).g);
    }
  }

  lemma {:induction false} AdvanceClears(c: Cfg, x: Snap, n: nat)
    requires Final(Run(c, x.g, n)) && !x.done
    ensures AdvanceN(c, x, n).g.st.cancelled ==> Final(AdvanceN(c, x, n).g)
    ensures AdvanceN(c, x, n).done ==> Final(AdvanceN(c, x, n).g)
    decreases n
  {
    if n > 0 && !Final(x.g) && !Suspends(x.g, Step(c, x.g)) {
      AdvanceClears(c, x.(g := Step(c, x.g)), n - 1);
    }
  }

  lemma {:induction false} DrivenOnTrack(c: Cfg, g0: Config, x: Snap, n: nat)
    requires OnTrack(c, g0, x)
    requires forall i: nat | i < n :: !Final(Driven(c, x, i).g)
    ensures OnTrack(c, g0, Driven(c, x, n))
    decreases n
  {
    if n > 0 {
      assert Driven(c, x, 0) == x;
      AdvancedOnTrack(c, g0, x);
      forall i: nat | i < n - 1 ensures !Final(Driven(c, Resumed(c, x), i).g) {
        assert Driven(c, x, i + 1) == Driven(c, Resumed(c, x), i);
      }
      DrivenOnTrack(c, g0, Resumed(c, x), n - 1);
    }
  }

  /** Resume an event until its generator is exhausted, in slices of any size, with
      nothing else touching the context. It ends with the outcome, context, functions,
      host history and sleeps of the direct interpreter run with slicing off, provided
      that run stays within its step limit. */
  lemma {:induction false} ResumedToTheEnd(c: Cfg, program: seq<Stmt>, event: string, st: St, n: nat)
    requires var x := Launched(c, program, event, st);
             Final(Driven(c, x, n).g) && forall i: nat | i < n :: !Final(Driven(c, x, i).g)
    requires RunEvent(c.(budget := 0), program, event, st).0 != Threw(STARVED)
    ensures var y := Driven(c, Launched(c, program, event, st), n);
            var (o, whole) := RunEvent(c.(budget := 0), program, event, st);
            y.g.control.o == o && SameRun(y.g.st, whole)
  {
    var g0 := Initial(program, event, st);
    var x := Launched(c, program, event, st);
    assert Same(c, Run(c, g0, 0), g0);
    AdvancedOnTrack(c, g0, Snap(g0, false, None));
    DrivenOnTrack(c, g0, x, n);
    var m: nat :| Same(c, Run(c, g0, m), Driven(c, x, n).g);
    SlicingIsInvisible(c, program, event, st, m);
  }

  /** One resume of an unfinished, uncancelled execution uses up some of the steps it
      has left. */
  lemma ResumeProgress(c: Cfg, x: Snap, n: nat) returns (left: nat)
    requires Final(Run(c, x.g, n)) && !Final(x.g) && !x.done && !x.g.st.cancelled
    ensures left < n && Final(Run(c, Resumed(c, x).g, left))
  {
    hide Step;
    AdvanceEnough(c, x, StepsToEnd(c, x.g), n);
    var m := AdvanceMoves(c, x, n);
    RunSplit(c, x.g, m, n - m);
    RunSame(c, Run(c, x.g, m), Resumed(c, x).g, n - m);
    left := n - m;
  }

  /** The scheduler gets there: some number of resumes exhausts the generator. */
  lemma {:induction false} DrivingEnds(c: Cfg, x: Snap, n: nat)
    requires Final(Run(c, x.g, n)) && !x.done && (x.g.st.cancelled ==> Final(x.g))
    ensures exists i: nat :: Final(Driven(c, x, i).g)
    decreases n
  {
    if Final(x.g) {
      assert Final(Driven(c, x, 0).g);
    } else {
      AdvanceClears(c, x, StepsToEnd(c, x.g));
      var left := ResumeProgress(c, x, n);
      var y := Resumed(c, x);
      if y.done {
        assert Driven(c, y, 0) == y;
        assert Driven(c, x, 1) == Driven(c, y, 0);
      } else {
        DrivingEnds(c, y, left);
        var i: nat :| Final(Driven(c, y, i).g);
        assert Driven(c, x, i + 1) == Driven(c, y, i);
      }
    }
  }
}

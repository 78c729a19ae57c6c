/** What holds over every history of a suspended GS1 execution: other events run on its
    context, it is resumed, cancelled, finished. */
module Gs1Traces {
  import opened Gs1Ast
  import opened Gs1Runtime
  import opened Gs1Exec
  import opened Gs1Machine
  import opened Gs1Slicing
  import opened Gs1Simulation
  import opened Gs1Ends
  import opened Gs1Resumable
  import Gs1Binding

  // ------------------------------- the cancellation flag during an execution

  /** What is restored at the end of an execution: `_depth`, `_loop_depth`, `this_obj`. */
  type Frame3 = (int, int, Value)

  function Now(core: Core): Frame3 { (core.depth, core.loopDepth, core.thisObj) }

  function Pop(f: Frame, b: Frame3): Frame3 {
    match f
    case InWhile(_, _) => (b.0, b.1 - 1, b.2)
    case InFor(_, _) => (b.0, b.1 - 1, b.2)
    case InWith(prev) => (b.0, b.1, prev)
    case InCall(_) => (b.0 - 1, b.1, b.2)
    case _ => b
  }

  /** The values the interrupted constructs will leave behind. */
  function Base(k: Kont, b: Frame3): Frame3 {
    match k
    case Stop => b
    case Push(f, below) => Base(below, Pop(f, b))
  }

  lemma {:induction false} UnwindBase(k: Kont, core: Core)
    ensures Now(Unwind(k, core)) == Base(k, Now(core))
    ensures Unwind(k, core).timerWrites == core.timerWrites
    decreases k
  {
    match k
    case Stop =>
    case Push(InWhile(_, _), below) => UnwindBase(below, core.(loopDepth := core.loopDepth - 1));
    case Push(InFor(_, _), below) => UnwindBase(below, core.(loopDepth := core.loopDepth - 1));
    case Push(InWith(prev), below) => UnwindBase(below, core.(thisObj := prev));
    case Push(InCall(saved), below) => UnwindBase(below, LeaveCall(core, saved));
    case Push(_, below) => UnwindBase(below, core);
  }

  /** The flag is set exactly by plain timer assignments. */
  ghost predicate Flagged(a: St, b: St) {
    && b.core.timerWrites >= a.core.timerWrites
    && (b.cancelled <==> (a.cancelled || b.core.timerWrites > a.core.timerWrites))
  }

  ghost predicate Steady(g: Config, h: Config) {
    Base(h.kont, Now(h.st.core)) == Base(g.kont, Now(g.st.core)) && Flagged(g.st, h.st)
  }

  /** `h` comes from a stack `k` in state `st` with nothing restored in between. */
  ghost predicate SteadyFrom(k: Kont, st: St, h: Config) {
    Base(h.kont, Now(h.st.core)) == Base(k, Now(st.core)) && Flagged(st, h.st)
  }

  lemma EnterSteady(body: seq<Stmt>, f: Frame, k: Kont, st: St)
    ensures SteadyFrom(Push(f, k), st, Enter(body, Push(f, k), st))
  {
    assert Base(Push(Rest(body), Push(f, k)), Now(st.core)) == Base(Push(f, k), Now(st.core));
  }

  lemma IfSteady(c: Cfg, s: Stmt, k: Kont, st: St)
    requires s.If?
    ensures SteadyFrom(k, st, EnterIf(c, s, k, st))
  {
    hide Eval;
  }

  lemma SwitchSteady(c: Cfg, s: Stmt, k: Kont, st: St)
    requires s.Switch?
    ensures SteadyFrom(k, st, EnterSwitch(c, s, k, st))
  {
    hide Eval, Select, ExecCases;
    var (r, st1) := Eval(c, s.value, st);
    if r.Val? {
      SelectRuns(c, s.arms, 0, r.v, st1);
      var (sel, st2) := Select(c, s.arms, 0, r.v, st1);
      if sel.Chosen? { EnterSteady(sel.body, InSwitch, k, st2); }
    }
  }

  lemma ForSteady(c: Cfg, s: Stmt, k: Kont, st: St)
    requires s.For?
    ensures SteadyFrom(k, st, EnterFor(c, s, k, st))
  {
    hide ExecHook;
  }

  lemma WithSteady(c: Cfg, s: Stmt, k: Kont, st: St)
    requires s.With?
    ensures SteadyFrom(k, st, EnterWith(c, s, k, st))
  {
    hide Eval;
    var (r, st1) := Eval(c, s.subject, st);
    if r.Val? && IsObject(WithTarget(s.subject, r.v)) {
      EnterSteady(s.body, InWith(st1.core.thisObj), k, SetThis(st1, WithTarget(s.subject, r.v)));
    }
  }

  lemma BeginSteady(name: string, args: seq<Value>, k: Kont, st: St)
    ensures SteadyFrom(k, st, BeginCall(name, args, k, st))
  {
    match EnterCall(st.core, name, args)
    case Entered(body, saved, core) => EnterSteady(body, InCall(saved), k, WithCore(st, core));
    case _ =>
  }

  lemma UserCallSteady(c: Cfg, s: Stmt, k: Kont, st: St)
    requires s.UserCall?
    ensures SteadyFrom(k, st, EnterUserCall(c, s, k, st))
  {
    hide EvalAll, EvalCall;
    var (r, st1) := EvalAll(c, s.args, st);
    if r.Vals? { BeginSteady(s.callee, r.vs, k, st1); }
  }

  lemma DispatchSteady(c: Cfg, s: Stmt, k: Kont, st: St)
    ensures SteadyFrom(k, st, Dispatch(c, s, k, st))
  {
    hide EnterIf, EnterSwitch, EnterFor, EnterWith, EnterUserCall, ExecLeaf;
    match s
    case If(_, _, _) => IfSteady(c, s, k, st);
    case Switch(_, _) => SwitchSteady(c, s, k, st);
    case For(_, _, _, _) => ForSteady(c, s, k, st);
    case With(_, _) => WithSteady(c, s, k, st);
    case UserCall(_, _) => UserCallSteady(c, s, k, st);
    case _ =>
  }

  lemma WhileHeadSteady(c: Cfg, s: WhileStmt, it: nat, k: Kont, st: St)
    ensures SteadyFrom(Push(InWhile(s, it), k), st, WhileHead(c, s, it, k, st))
  {
    hide Eval;
    if it < MAX_LOOP_ITERATIONS {
      var (r, st1) := Eval(c, s.test, st);
      if LoopTick(c, st1).Some? { EnterSteady(s.body, InWhile(s, it + 1), k, LoopTick(c, st1).value); }
    }
  }

  lemma ForHeadSteady(c: Cfg, s: ForStmt, it: nat, k: Kont, st: St)
    ensures SteadyFrom(Push(InFor(s, it), k), st, ForHead(c, s, it, k, st))
  {
    hide EvalCheck;
    if it < MAX_LOOP_ITERATIONS {
      var (r, st1) := EvalCheck(c, s.check, st);
      if LoopTick(c, st1).Some? { EnterSteady(s.body, InFor(s, it + 1), k, LoopTick(c, st1).value); }
    }
  }

  lemma IterationSteady(c: Cfg, s: ForStmt, it: nat, k: Kont, st: St)
    ensures SteadyFrom(Push(InFor(s, it), k), st, NextIteration(c, s, it, k, st))
  {
    hide ExecHook, ForHead;
    if it == 0 {
      ForHeadSteady(c, s, 0, k, st);
    } else {
      ForHeadSteady(c, s, it, k, ExecHook(c, s.post, st).1);
    }
  }

  lemma {:induction false} NextTopSteady(c: Cfg, program: seq<Stmt>, event: string, k: Kont, st: St)
    ensures SteadyFrom(k, st, NextTop(c, program, event, k, st))
    decreases |program|
  {
    if program == [] {
      var (call, core) := EventCall(c, event, st.core);
      if call.Some? { BeginSteady(call.value.0, call.value.1, Push(InEvent, k), WithCore(st, core)); }
    } else if program[0].FuncDef? {
      NextTopSteady(c, program[1..], event, k, st);
    }
  }

  lemma ReturnSteady(c: Cfg, o: Outcome, f: Frame, k: Kont, st: St)
    ensures SteadyFrom(Push(f, k), st, Return(c, o, f, k, st))
  {
    hide WhileHead, NextIteration, NextTop;
    match f
    case InWhile(s, it) => WhileHeadSteady(c, s, it, k, st);
    case InFor(s, it) => IterationSteady(c, s, it, k, st);
    case TopLevel(rest, event) => NextTopSteady(c, rest, event, k, st);
    case _ =>
  }

  /** One move keeps what the execution will restore, wherever it is. */
  lemma StepSteady(c: Cfg, g: Config)
    requires !Final(g)
    ensures Steady(g, Step(c, g))
  {
    hide Dispatch, Return;
    match g.control
    case Start(s) => DispatchSteady(c, s, g.kont, Counted(g.st));
    case Wake(s) => DispatchSteady(c, s, g.kont, g.st.(steps := 1));
    case Done(o) => ReturnSteady(c, o, g.kont.frame, g.kont.below, g.st);
  }

  // ------------------------------------------------------ advancing, resuming

  function BaseOf(x: Snap): Frame3 { Base(x.g.kont, Now(x.g.st.core)) }

  function Writes(x: Snap): nat { x.g.st.core.timerWrites }

  /** Still suspended with something left to run. */
  predicate Pending(x: Snap) { !x.done && !Final(x.g) }

  lemma {:induction false} AdvanceSteady(c: Cfg, x: Snap, n: nat)
    requires Final(Run(c, x.g, n))
    ensures BaseOf(AdvanceN(c, x, n)) == BaseOf(x)
    ensures AdvanceN(c, x, n).done && !x.done ==> Final(AdvanceN(c, x, n).g)
    ensures Pending(AdvanceN(c, x, n)) ==> !AdvanceN(c, x, n).g.st.cancelled
    decreases n
  {
    hide Step;
    if n > 0 && !Final(x.g) {
      StepSteady(c, x.g);
      var h := Step(c, x.g);
      if !Suspends(x.g, h) { AdvanceSteady(c, x.(g := h), n - 1); }
    }
  }

  /** Whether it stops at a sleep, ends, fails or is closed, `resume` leaves intact what
      the execution is to restore, and an execution that is done has restored it. A
      suspension never leaves the cancellation flag set, whatever the script itself
      assigned on the way to it. */
  lemma {:induction false} ResumeSteady(c: Cfg, x: Snap)
    requires x.done ==> Final(x.g)
    ensures BaseOf(Resumed(c, x)) == BaseOf(x)
    ensures Resumed(c, x).done ==> Final(Resumed(c, x).g)
    ensures Pending(Resumed(c, x)) ==> !Resumed(c, x).g.st.cancelled
  {
    if !x.done {
      if x.g.st.cancelled {
        UnwindBase(x.g.kont, x.g.st.core);
      } else if !Final(x.g) {
        AdvanceSteady(c, x, StepsToEnd(c, x.g));
      }
    }
  }

  // ------------------------------------------------------------ other events

  /** Another event on the same context, with an interpreter of its own. */
  datatype Event = Event(c: Cfg, program: seq<Stmt>, name: string)

  function EventStart(x: Snap): St {
    St(x.g.st.core.(depth := 0, loopDepth := 0), x.g.st.steps, x.g.st.cancelled, [], 0)
  }

  function EventEnd(e: Event, x: Snap): St { RunEvent(e.c, e.program, e.name, EventStart(x)).1 }

  /** It never suspends, so it has run to its end before anything else happens. */
  predicate RunsThrough(e: Event, x: Snap) {
    EventEnd(e, x).sleeps == [] && EventEnd(e, x).preempts == 0
  }

  function Fired(e: Event, x: Snap): Snap {
    var st, was := EventEnd(e, x), x.g.st;
    x.(g := x.g.(st := was.(core := st.core.(depth := was.core.depth, loopDepth := was.core.loopDepth),
                            steps := st.steps, cancelled := st.cancelled)))
  }

  datatype Op = ResumeOp | EventOp(e: Event)

  /** A history, and beside it the number of plain timer assignments when the execution
      was last suspended. */
  ghost function Play(c: Cfg, ops: seq<Op>, x: Snap, mark: nat): (Snap, nat)
    decreases |ops|
  {
    if ops == [] then (x, mark)
    else match ops[0]
      case ResumeOp => Play(c, ops[1..], Resumed(c, x), Writes(Resumed(c, x)))
      case EventOp(e) => Play(c, ops[1..], Fired(e, x), mark)
  }

  ghost predicate Uninterrupted(c: Cfg, ops: seq<Op>, x: Snap)
    decreases |ops|
  {
    ops == [] ||
    match ops[0]
    case ResumeOp => Uninterrupted(c, ops[1..], Resumed(c, x))
    case EventOp(e) => RunsThrough(e, x) && Uninterrupted(c, ops[1..], Fired(e, x))
  }

  ghost predicate Tracked(x: Snap, mark: nat) {
    && (x.done ==> Final(x.g))
    && (Pending(x) ==> Writes(x) >= mark && (x.g.st.cancelled <==> Writes(x) > mark))
  }

  lemma {:induction false} PlayTracked(c: Cfg, ops: seq<Op>, x: Snap, mark: nat)
    requires Tracked(x, mark) && Uninterrupted(c, ops, x)
    ensures var (y, m) := Play(c, ops, x, mark); Tracked(y, m) && BaseOf(y) == BaseOf(x)
    decreases |ops|
  {
    if ops != [] {
      match ops[0]
      case ResumeOp =>
        ResumeSteady(c, x);
        PlayTracked(c, ops[1..], Resumed(c, x), Writes(Resumed(c, x)));
      case EventOp(e) =>
        assert Kept(EventStart(x), EventEnd(e, x));
        PlayTracked(c, ops[1..], Fired(e, x), mark);
    }
  }

  lemma {:induction false} LaunchTracked(c: Cfg, program: seq<Stmt>, event: string, st: St)
    ensures var x := Launched(c, program, event, st);
            Tracked(x, Writes(x)) && BaseOf(x) == Now(st.core)
  {
    var x := Snap(Initial(program, event, st), false, None);
    AdvanceSteady(c, x, StepsToEnd(c, x.g));
    var k := Push(TopLevel(program, event), Stop);
    assert Base(k, Now(st.core)) == Base(Stop, Pop(k.frame, Now(st.core))) == Now(st.core);
  }

  /** Over every history: a pending execution is closed by `resume`, without running
      anything, if a plain `timeout = x` happened since it was last suspended, and
      otherwise it runs on. */
  lemma {:induction false} CancelledIffTimerAssigned(
    c: Cfg, program: seq<Stmt>, event: string, st: St, ops: seq<Op>)
    requires Uninterrupted(c, ops, Launched(c, program, event, st))
    ensures var x := Launched(c, program, event, st);
            var (y, mark) := Play(c, ops, x, Writes(x));
            Pending(y) ==>
              Resumed(c, y) == if Writes(y) > mark then Closed(y) else Advanced(c, y)
  {
    LaunchTracked(c, program, event, st);
    var x := Launched(c, program, event, st);
    PlayTracked(c, ops, x, Writes(x));
  }

  /** Over every history: once the execution is done, by its end or by cancellation and
      through whatever nesting it was suspended in, call depth, loop depth and `this_obj`
      are those it started with. */
  lemma {:induction false} DoneRestoresContext(
    c: Cfg, program: seq<Stmt>, event: string, st: St, ops: seq<Op>)
    requires Uninterrupted(c, ops, Launched(c, program, event, st))
    ensures var x := Launched(c, program, event, st);
            var y := Play(c, ops, x, Writes(x)).0;
            y.done ==> Now(y.g.st.core) == Now(st.core)
  {
    LaunchTracked(c, program, event, st);
    var x := Launched(c, program, event, st);
    PlayTracked(c, ops, x, Writes(x));
  }

  /** `done` is absorbing, and an execution that is done runs nothing more. */
  lemma {:induction false} DoneIsAbsorbing(c: Cfg, ops: seq<Op>, x: Snap, mark: nat)
    requires x.done
    ensures var y := Play(c, ops, x, mark).0;
            y.done && y.pending == x.pending && y.g.control == x.g.control && y.g.kont == x.g.kont
    decreases |ops|
  {
    if ops != [] {
      match ops[0]
      case ResumeOp => DoneIsAbsorbing(c, ops[1..], x, Writes(x));
      case EventOp(e) => DoneIsAbsorbing(c, ops[1..], Fired(e, x), mark);
    }
  }

  /** Only a plain assignment to the bare name counts: `timeout += 1`, `this.timeout = 5`
      and `timeout[0] = 5` leave the flag to whatever their operands do. */
  lemma TimerCountsPlainBareWrites(c: Cfg, a: Assignment, st: St)
    requires a.value.Num? && forall p :: p in a.target.parts ==> p.index == []
    ensures var st1 := EvalAssign(c, a, st).1;
            st1.core.timerWrites == st.core.timerWrites
              + (if a.op.SetTo? && IsBareTimeout(a.target) then 1 else 0)
    ensures EvalAssign(c, a, st).1.cancelled <==>
              (st.cancelled || (a.op.SetTo? && IsBareTimeout(a.target)))
  {
    Gs1Binding.NoIndices(c, a.target.parts, st);
    if a.op.SetTo? {
      Gs1Binding.NoIndices(c, a.target.parts, NoteTimer(st, a.op, a.target));
    } else {
      Gs1Binding.NoIndices(c, a.target.parts, Fetch(c, a.target, st).1);
    }
  }
}

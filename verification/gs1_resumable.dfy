/** ResumableExecution (reborn_protocol/gs1/interp.py): one event that stops at its sleeps
    and preemptions and is resumed by the host, on a context other events also run on. */
module Gs1Resumable {
  import opened Gs1Ast
  import opened Gs1Runtime
  import opened Gs1Exec
  import opened Gs1Machine
  import opened Gs1Slicing
  import opened Gs1Simulation
  import opened Gs1Ends

  datatype Pause = SleepFor(seconds: real) | Preempted

  /** An execution and the context it runs on. `done` and `pending` are its attributes. */
  datatype Snap = Snap(g: Config, done: bool, pending: Option<Pause>)

  predicate Suspends(a: Config, b: Config) {
    |b.st.sleeps| != |a.st.sleeps| || b.st.preempts != a.st.preempts
  }

  /** What `next()` hands the scheduler. */
  function Reason(a: Config, b: Config): Option<Pause> {
    if b.st.preempts != a.st.preempts then Some(Preempted)
    else if |b.st.sleeps| > 0 then Some(SleepFor(b.st.sleeps[|b.st.sleeps| - 1].0))
    else None
  }

  /** `_advance` with at most `n` steps to go: to the next suspension, or to the end. A
      suspension clears the cancellation flag; an exception leaves the attributes alone. */
  ghost function AdvanceN(c: Cfg, x: Snap, n: nat): Snap
    decreases n
  {
    if n == 0 || Final(x.g) then
      if x.g.control.Done? && x.g.control.o.Threw? then x else Snap(x.g, true, None)
    else
      var h := Step(c, x.g);
      if Suspends(x.g, h) then Snap(h.(st := h.st.(cancelled := false)), x.done, Reason(x.g, h))
      else AdvanceN(c, x.(g := h), n - 1)
  }

  /** A number of steps within which `g` ends. */
  ghost function StepsToEnd(c: Cfg, g: Config): (n: nat)
    ensures Final(Run(c, g, n))
  {
    EveryExecutionEnds(c, g);
    var n: nat :| Final(Run(c, g, n));
    n
  }

  /** `_advance`: a finished generator raises StopIteration at once. */
  ghost function Advanced(c: Cfg, x: Snap): Snap {
    if Final(x.g) then Snap(x.g, true, None) else AdvanceN(c, x, StepsToEnd(c, x.g))
  }

  /** `generator.close()`: the `finally` clauses of the interrupted constructs. */
  function Unwind(k: Kont, core: Core): Core {
    match k
    case Stop => core
    case Push(f, below) =>
      Unwind(below,
             match f
             case InWhile(_, _) => core.(loopDepth := core.loopDepth - 1)
             case InFor(_, _) => core.(loopDepth := core.loopDepth - 1)
             case InWith(prev) => core.(thisObj := prev)
             case InCall(saved) => LeaveCall(core, saved)
             case _ => core)
  }

  function Closed(x: Snap): Snap {
    var st := x.g.st.(cancelled := false, core := Unwind(x.g.kont, x.g.st.core));
    Snap(Config(Done(Normal), Stop, st), true, None)
  }

  /** `resume` */
  ghost function Resumed(c: Cfg, x: Snap): Snap {
    if x.done then x
    else if x.g.st.cancelled then Closed(x)
    else Advanced(c, x)
  }

  /** `run_event_resumable`: the event at its first suspension, or ended. */
  ghost function Launched(c: Cfg, program: seq<Stmt>, event: string, st: St): Snap {
    Advanced(c, Snap(Initial(program, event, st), false, None))
  }

  // ------------------------------------------------- what an advance executes

  lemma {:induction false} AdvanceEnough(c: Cfg, x: Snap, m: nat, n: nat)
    requires Final(Run(c, x.g, m)) && Final(Run(c, x.g, n))
    ensures AdvanceN(c, x, m) == AdvanceN(c, x, n)
    decreases m
  {
    hide Step;
    if m > 0 && n > 0 && !Final(x.g) {
      AdvanceEnough(c, x.(g := Step(c, x.g)), m - 1, n - 1);
    }
  }

  /** The context as the next step sees it, the cancellation flag aside. */
  ghost predicate Same(c: Cfg, g: Config, h: Config) {
    g.control == h.control && g.kont == h.kont && Paired(c, c, g.st, h.st)
  }

  /** An unfinished execution always moves. */
  lemma {:induction false} AdvanceMoves(c: Cfg, x: Snap, n: nat) returns (m: nat)
    requires Final(Run(c, x.g, n)) && !Final(x.g)
    ensures 0 < m <= n && Same(c, Run(c, x.g, m), AdvanceN(c, x, n).g)
    decreases n
  {
    hide Step;
    var h := Step(c, x.g);
    if Suspends(x.g, h) || n == 1 {
      m := 1;
      assert Run(c, x.g, 1) == Run(c, h, 0);
    } else if Final(h) {
      m := 1;
      assert Run(c, x.g, 1) == Run(c, h, 0);
    } else {
      var m1 := AdvanceMoves(c, x.(g := h), n - 1);
      m := m1 + 1;
      assert Run(c, x.g, m) == Run(c, h, m1);
    }
  }
}

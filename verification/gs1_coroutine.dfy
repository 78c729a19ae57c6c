/** The objects a host holds: runtime.Context and interp.ResumableExecution, with the fields
    their methods assign, proved against the snapshots of Gs1Resumable. */
module Gs1Coroutine {
  import opened Gs1Ast
  import opened Gs1Runtime
  import opened Gs1Exec
  import opened Gs1Machine
  import opened Gs1Slicing
  import opened Gs1Simulation
  import opened Gs1Resumable
  import opened Gs1Traces

  /** The context every event on one NPC shares. */
  class Context {
    var core: Core
    var steps: nat
    var sleepCancelled: bool

    constructor (core: Core)
      ensures this.core == core && steps == 0 && !sleepCancelled
    {
      this.core, steps, sleepCancelled := core, 0, false;
    }

    /** The context as a fresh interpreter sees it. */
    function Fresh(): St
      reads this
    {
      St(core.(depth := 0, loopDepth := 0), steps, sleepCancelled, [], 0)
    }

    /** The generator has ended with this error, and the context is as it left it. */
    predicate Ended(g: Config, error: Option<Error>)
      reads this
    {
      && g.control.Done? && g.kont.Stop?
      && core == g.st.core && steps == g.st.steps && sleepCancelled == g.st.cancelled
      && error == (if g.control.o.Threw? && g.control.o.signal.RuntimeError? then Some(g.control.o.signal.error)
                   else None)
    }

    /** `Interpreter(ctx).run_event(...)`; the error is the exception it raises. The
        context is left where the event's generator, pumped until it ends, would leave it;
        no call or loop is left open, `this_obj` is the one before, and the cancellation
        flag has risen exactly if a timer was plainly assigned. */
    method RunEvent(cfg: Cfg, program: seq<Stmt>, event: string) returns (error: Option<Error>)
      modifies this
      ensures exists n: nat :: Ended(Run(cfg, Initial(program, event, old(Fresh())), n), error)
      ensures core.depth == 0 && core.loopDepth == 0 && core.thisObj == old(core.thisObj)
      ensures core.timerWrites >= old(core.timerWrites)
      ensures sleepCancelled <==> old(sleepCancelled) || core.timerWrites > old(core.timerWrites)
      ensures Unlimited(cfg) ==> error != Some(StepBudget)
    {
      MachineRunsEvent(cfg, program, event, Fresh());
      var (o, st) := Gs1Exec.RunEvent(cfg, program, event, Fresh());
      core, steps, sleepCancelled := st.core, st.steps, st.cancelled;
      error := if o.Threw? && o.signal.RuntimeError? then Some(o.signal.error) else None;
    }
  }

  /** One step of an advance that has not ended. */
  lemma AdvanceTakes(c: Cfg, x: Snap, n: nat)
    requires Final(Run(c, x.g, n)) && !Final(x.g)
    ensures n > 0
    ensures var h := Step(c, x.g);
            && Final(Run(c, h, n - 1))
            && AdvanceN(c, x, n) ==
                 if Suspends(x.g, h) then Snap(h.(st := h.st.(cancelled := false)), x.done, Reason(x.g, h))
                 else AdvanceN(c, x.(g := h), n - 1)
  {
    hide Step;
  }

  lemma AdvanceEnds(c: Cfg, x: Snap, n: nat)
    requires Final(x.g)
    ensures AdvanceN(c, x, n) == if x.g.control.Done? && x.g.control.o.Threw? then x else Snap(x.g, true, None)
  {
  }

  class ResumableExecution {
    const cfg: Cfg
    const ctx: Context
    var control: Control          // the generator: where it is ...
    var kont: Kont                // ... and what it has interrupted
    var depth: int                // `Interpreter._depth`
    var loopDepth: int            // `Interpreter._loop_depth`
    var sleeps: seq<(real, Core)>
    var preempts: nat
    var done: bool
    var pendingSleep: Option<Pause>

    function Generator(): Config
      reads this, ctx
    {
      Config(control, kont, St(ctx.core.(depth := depth, loopDepth := loopDepth), ctx.steps,
                               ctx.sleepCancelled, sleeps, preempts))
    }

    function Snapshot(): Snap
      reads this, ctx
    {
      Snap(Generator(), done, pendingSleep)
    }

    constructor (cfg: Cfg, ctx: Context, program: seq<Stmt>, event: string)
      modifies ctx
      ensures this.ctx == ctx && this.cfg == cfg
      ensures Snapshot() == Launched(cfg, program, event, old(ctx.Fresh()))
    {
      var g := Initial(program, event, ctx.Fresh());
      this.cfg, this.ctx := cfg, ctx;
      control, kont, depth, loopDepth := g.control, g.kont, 0, 0;
      sleeps, preempts, done, pendingSleep := [], 0, false, None;
      new;
      Put(g);
      Advance();
    }

    /** Write a configuration back to the generator and the shared context. */
    method Put(g: Config)
      modifies this, ctx
      ensures Generator() == g
      ensures done == old(done) && pendingSleep == old(pendingSleep)
    {
      control, kont, depth, loopDepth := g.control, g.kont, g.st.core.depth, g.st.core.loopDepth;
      sleeps, preempts := g.st.sleeps, g.st.preempts;
      ctx.core, ctx.steps, ctx.sleepCancelled := g.st.core, g.st.steps, g.st.cancelled;
    }

    /** `_advance`: run the generator to its next yield. */
    method Advance()
      modifies this, ctx
      ensures Snapshot() == Advanced(cfg, old(Snapshot()))
    {
      var g := Generator();
      if Final(g) {                          // StopIteration at once
        done, pendingSleep := true, None;
        return;
      }
      hide Step, Run, AdvanceN, StepsToEnd;
      ghost var x := Snapshot();
      ghost var left := StepsToEnd(cfg, g);
      while !Final(g)
        invariant Generator() == g && done == x.done && pendingSleep == x.pending
        invariant Final(Run(cfg, g, left))
        invariant AdvanceN(cfg, x, StepsToEnd(cfg, x.g)) == AdvanceN(cfg, x.(g := g), left)
        decreases left
      {
        AdvanceTakes(cfg, x.(g := g), left);
        var h := Step(cfg, g);
        left := left - 1;
        if Suspends(g, h) {
          pendingSleep := Reason(g, h);
          Put(h.(st := h.st.(cancelled := false)));
          return;
        }
        Put(h);
        g := h;
      }
      AdvanceEnds(cfg, x.(g := g), left);
      if !(g.control.Done? && g.control.o.Threw?) {   // else the exception propagates
        done, pendingSleep := true, None;
      }
    }

    /** `resume` */
    method Resume()
      modifies this, ctx
      ensures Snapshot() == Resumed(cfg, old(Snapshot()))
    {
      if done {
        return;
      }
      if ctx.sleepCancelled {
        ghost var x := Snapshot();
        var g := Generator();
        Put(Config(Done(Normal), Stop, g.st.(cancelled := false, core := Unwind(kont, g.st.core))));
        done, pendingSleep := true, None;
        return;
      }
      Advance();
    }
  }
}

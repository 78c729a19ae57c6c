/** The GS2 virtual machine as it runs: a frame whose stack the handlers push and pop, and
    the loop that drives an execution to its next stop. */
module Gs2Interpreter {
  import opened Bytes
  import Gs2Disasm
  import opened Gs2Vm
  import opened Gs2Machine
  import opened Gs2Calls

  /** `_Frame` */
  class CallFrame {
    var stack: seq<Value>
    var withs: seq<nat>
    const temps: nat
    const args: seq<Value>

    constructor (temps: nat, args: seq<Value>)
      ensures stack == [] && withs == [] && this.temps == temps && this.args == args
    {
      this.temps := temps;
      this.args := args;
      stack, withs := [], [];
    }

    /** The frame as the handlers see it. */
    function View(): Frame
      reads this
    {
      Frame(0, [], 0, stack, temps, args, withs, map[])
    }

    method Pop() returns (v: Value)
      modifies this`stack
      ensures v == Top(old(stack)) && stack == Rest(old(stack))
    {
      v := Top(stack);
      stack := Rest(stack);
    }

    /** `_pop_args` */
    method PopArgs() returns (taken: seq<Value>)
      modifies this`stack
      ensures taken == ArgsOf(old(stack)) && stack == BelowMarker(old(stack))
    {
      taken := [];
      while stack != []
        invariant taken + ArgsOf(stack) == ArgsOf(old(stack))
        invariant BelowMarker(stack) == BelowMarker(old(stack))
        decreases |stack|
      {
        var v := Pop();
        if v.Marker? {
          return;
        }
        taken := taken + [Denull(v)];
      }
    }

    /** `_op_func_params_end` */
    method FuncParamsEnd(e: Env, s: Store) returns (after: Store)
      modifies this`stack
      ensures after == BindFrom(e, s, old(View()), ArgsOf(old(stack)), 0)
      ensures stack == BelowMarker(old(stack))
    {
      ghost var f := View();
      var names := PopArgs();
      after := s;
      for k := 0 to |names|
        invariant stack == BelowMarker(old(stack))
        invariant BindFrom(e, after, f, names, k) == BindFrom(e, s, f, names, 0)
      {
        var ref := names[k];
        var value := if k < |args| then args[k] else Unset;
        if ref.Slot? && !ref.base.Unset? {
          if ref.base.Obj? {
            after := Set(e, after, ref.base.id, ref.key, value);
          }
        } else {
          after := Set(e, after, temps, if ref.VarRef? then ref.name else e.str(ref), value);
        }
      }
    }
  }

  /** A started execution. */
  class Execution {
    const w: World
    var m: Machine

    constructor (w: World, m: Machine)
      ensures this.w == w && this.m == m
    {
      this.w := w;
      this.m := m;
    }

    /** Runs to the next sleep or to the end, within the budget left. `steps` rounds of the
        loop ran `ran` instructions. */
    method RunSlice(budget: nat) returns (steps: nat, ran: nat)
      requires Acyclic(w) && Uniform(w, budget) && Good(w, budget, m)
      modifies this
      ensures m == Run(w, old(m), steps) && ran == Executed(w, old(m), steps)
      ensures Stopped(m) && Good(w, budget, m)
      ensures steps <= Measure(budget, old(m))
      ensures old(m.frames) != [] ==> ran <= budget - Used(old(m), TopFrame(old(m)).script)
    {
      hide Step, Run, Executed, Good, Executes;
      steps, ran := 0, 0;
      NothingRun(w, m);
      Ends(w, budget, m);
      while !Stopped(m)
        invariant m == Run(w, old(m), steps) && ran == Executed(w, old(m), steps)
        invariant Good(w, budget, m) && steps + Measure(budget, m) <= Measure(budget, old(m))
        invariant Measure(budget, m) >= 0
        decreases Measure(budget, m)
      {
        StepCounts(w, budget, m);
        StepAppends(w, old(m), steps);
        if Executes(w, m) {
          ran := ran + 1;
        }
        m := Step(w, m);
        steps := steps + 1;
        Ends(w, budget, m);
      }
      SliceStaysInBudget(w, budget, old(m), steps);
    }
  }

  lemma NothingRun(w: World, m: Machine)
    requires Acyclic(w)
    ensures Run(w, m, 0) == m && Executed(w, m, 0) == 0
  {
  }

  lemma Ends(w: World, budget: nat, m: Machine)
    requires Good(w, budget, m)
    ensures Measure(budget, m) >= 0
  {
  }

  lemma {:induction false} StepAppends(w: World, m: Machine, n: nat)
    requires Acyclic(w)
    ensures Run(w, m, n + 1) == Step(w, Run(w, m, n))
    ensures Executed(w, m, n + 1) == Executed(w, m, n) + if Executes(w, Run(w, m, n)) then 1 else 0
    decreases n
  {
    hide Step, Executes;
    if n == 0 {
      assert Run(w, m, 1) == Run(w, Step(w, m), 0) && Executed(w, Step(w, m), 0) == 0;
    } else {
      StepAppends(w, Step(w, m), n - 1);
    }
  }
}

/** The suspendable executor computes what the direct interpreter computes: from any
    stack, running a statement on the machine arrives at the interpreter's outcome and
    state with the stack unchanged. Together with Gs1Slicing: preemption is invisible. */
module Gs1Simulation {
  import opened Gs1Ast
  import opened Gs1Runtime
  import opened Gs1Exec
  import opened Gs1Machine
  import opened Gs1Slicing

  lemma {:induction false} SimExec(c: Cfg, s: Stmt, k: Kont, st: St)
    ensures Reaches(c, Config(Start(s), k, st), Finish(Exec(c, s, st), k))
    decreases 2 * Room(st) + 1, s, 3
  {
    var a := Config(Start(s), k, st);
    var b := Finish(Exec(c, s, st), k);
    match Tick(c, st)
    case None => OneStep(c, a);
    case Some(st1) =>
      SimBody(c, s, k, st1);
      if OverBudget(c, st.steps + 1) {
        var w := Step(c, a);
        assert Step(c, w) == Dispatch(c, s, k, st1);
        Stepping(c, w, b);
      }
      Stepping(c, a, b);
  }

  lemma {:induction false} SimBlock(c: Cfg, body: seq<Stmt>, k: Kont, st: St)
    ensures Reaches(c, Enter(body, k, st), Finish(ExecBlock(c, body, st), k))
    decreases 2 * Room(st) + 1, body, 0
  {
    var a := Enter(body, k, st);
    if body == [] {
      OneStep(c, a);
    } else {
      var k1 := Push(Rest(body[1..]), k);
      SimExec(c, body[0], k1, st);
      var r := Exec(c, body[0], st);
      Stepping(c, a, Finish(r, k1));
      if r.0.Threw? {
        OneStep(c, Finish(r, k1));
      } else {
        SimBlock(c, body[1..], k, r.1);
      }
      Then(c, a, Finish(r, k1), Finish(ExecBlock(c, body, st), k));
    }
  }

  lemma {:induction false} SimBody(c: Cfg, s: Stmt, k: Kont, st: St)
    ensures Reaches(c, Dispatch(c, s, k, st), Finish(ExecBody(c, s, st), k))
    decreases 2 * Room(st) + 1, s, 2
  {
    match s
    case If(_, _, _) => SimIf(c, s, k, st);
    case Block(body) => SimBlock(c, body, k, st);
    case Switch(_, _) => SimSwitch(c, s, k, st);
    case While(_, _) =>
      SimWhile(c, s, 0, k, EnterLoop(st));
      Stepping(c, Dispatch(c, s, k, st), Finish(ExecBody(c, s, st), k));
    case For(_, _, _, _) => SimForStmt(c, s, k, st);
    case With(_, _) => SimWith(c, s, k, st);
    case UserCall(_, _) => SimUserCall(c, s, k, st);
    case _ => Here(c, Finish(ExecBody(c, s, st), k));
  }

  lemma {:induction false} SimIf(c: Cfg, s: Stmt, k: Kont, st: St)
    requires s.If?
    ensures Reaches(c, EnterIf(c, s, k, st), Finish(ExecIf(c, s, st), k))
    decreases 2 * Room(st) + 1, s, 1
  {
    var (r, st1) := Eval(c, s.cond, st);
    if r.Exc? {
      Here(c, EnterIf(c, s, k, st));
    } else if Truthy(r.v) {
      SimBlock(c, s.thenB, k, st1);
    } else if s.elseB.Branch? {
      assert ExecBranch(c, s.elseB, st1) == ExecBlock(c, s.elseB.body, st1);
      SimBlock(c, s.elseB.body, k, st1);
    } else {
      assert ExecBranch(c, s.elseB, st1) == (Normal, st1);
      Here(c, EnterIf(c, s, k, st));
    }
  }

  lemma {:induction false} BlockJoin(c: Cfg, x: seq<Stmt>, y: seq<Stmt>, st: St)
    ensures ExecBlock(c, x + y, st) ==
            (var (o, st1) := ExecBlock(c, x, st); if o.Threw? then (o, st1) else ExecBlock(c, y, st1))
    decreases |x|
  {
    if x == [] {
      assert x + y == y;
    } else {
      assert (x + y)[1..] == x[1..] + y;
      var (o, st1) := Exec(c, x[0], st);
      if o.Normal? { BlockJoin(c, x[1..], y, st1); }
    }
  }

  /** Falling through cases is running their statements as one list. */
  lemma {:induction false} FallIsBlock(c: Cfg, arms: Arms, i: nat, st: St)
    requires i <= |arms.cases|
    ensures ExecFall(c, arms, i, st) == ExecBlock(c, Bodies(arms, i), st)
    decreases |arms.cases| - i
  {
    if i < |arms.cases| {
      BlockJoin(c, arms.cases[i].body, Bodies(arms, i + 1), st);
      var (o, st1) := ExecBlock(c, arms.cases[i].body, st);
      if o.Normal? { FallIsBlock(c, arms, i + 1, st1); }
    }
  }

  function OfSelection(c: Cfg, r: (Selection, St)): (Outcome, St) {
    match r.0
    case ExcSelect(x) => (Threw(x), r.1)
    case Nothing => (Normal, r.1)
    case Chosen(body) => var (o, st) := ExecBlock(c, body, r.1); (AfterSwitch(o), st)
  }

  lemma {:induction false} SelectRuns(c: Cfg, arms: Arms, i: nat, v: Value, st: St)
    requires i <= |arms.cases|
    ensures ExecCases(c, arms, i, v, st) == OfSelection(c, Select(c, arms, i, v, st))
    ensures Kept(st, Select(c, arms, i, v, st).1)
    decreases |arms.cases| - i
  {
    if i < |arms.cases| {
      var (r, st1) := Eval(c, arms.cases[i].guard, st);
      if r.Val? {
        if SwitchEq(c.env, st1.core.heap, v, r.v) {
          FallIsBlock(c, arms, i, st1);
        } else {
          SelectRuns(c, arms, i + 1, v, st1);
        }
      }
    }
  }

  lemma {:induction false} SimSwitch(c: Cfg, s: Stmt, k: Kont, st: St)
    requires s.Switch?
    ensures Reaches(c, EnterSwitch(c, s, k, st), Finish(ExecSwitch(c, s, st), k))
    decreases 2 * Room(st) + 1, s, 1
  {
    var a := EnterSwitch(c, s, k, st);
    var (r, st1) := Eval(c, s.value, st);
    if r.Exc? {
      Here(c, a);
    } else {
      SelectRuns(c, s.arms, 0, r.v, st1);
      var (sel, st2) := Select(c, s.arms, 0, r.v, st1);
      if sel.Chosen? {
        SimChosen(c, s.arms, 0, r.v, Push(InSwitch, k), st1);
        var m := Finish(ExecBlock(c, sel.body, st2), Push(InSwitch, k));
        OneStep(c, m);
        Then(c, a, m, Step(c, m));
      } else {
        Here(c, a);
      }
    }
  }

  /** The statements picked by a `switch` are not one of its parts, so this goes case by
      case instead of through SimBlock. */
  lemma {:induction false} SimChosen(c: Cfg, arms: Arms, i: nat, v: Value, k: Kont, st: St)
    requires i <= |arms.cases|
    requires Select(c, arms, i, v, st).0.Chosen?
    ensures var (sel, st1) := Select(c, arms, i, v, st);
            Reaches(c, Enter(sel.body, k, st1), Finish(ExecBlock(c, sel.body, st1), k))
    decreases 2 * Room(st) + 1, arms, 1, |arms.cases| - i
  {
    if i == |arms.cases| {
      SimBlock(c, arms.default.body, k, st);
    } else {
      var (r, st1) := Eval(c, arms.cases[i].guard, st);
      if SwitchEq(c.env, st1.core.heap, v, r.v) {
        SimBodies(c, arms, i, k, st1);
      } else {
        SimChosen(c, arms, i + 1, v, k, st1);
      }
    }
  }

  lemma {:induction false} SimBodies(c: Cfg, arms: Arms, i: nat, k: Kont, st: St)
    requires i <= |arms.cases|
    ensures Reaches(c, Enter(Bodies(arms, i), k, st), Finish(ExecBlock(c, Bodies(arms, i), st), k))
    decreases 2 * Room(st) + 1, arms, 0, |arms.cases| - i
  {
    if i == |arms.cases| {
      if arms.default.Branch? { SimBlock(c, arms.default.body, k, st); } else { OneStep(c, Enter([], k, st)); }
    } else {
      SimPrefix(c, arms, i, 0, k, st);
    }
  }

  /** The rest of case `i` from statement `j`, then the later cases. */
  lemma {:induction false} SimPrefix(c: Cfg, arms: Arms, i: nat, j: nat, k: Kont, st: St)
    requires i < |arms.cases| && j <= |arms.cases[i].body|
    ensures var body := arms.cases[i].body[j..] + Bodies(arms, i + 1);
            Reaches(c, Enter(body, k, st), Finish(ExecBlock(c, body, st), k))
    decreases 2 * Room(st) + 1, arms, 0, |arms.cases| - i, |arms.cases[i].body| - j
  {
    var own := arms.cases[i].body;
    var body := own[j..] + Bodies(arms, i + 1);
    if j == |own| {
      assert body == Bodies(arms, i + 1);
      SimBodies(c, arms, i + 1, k, st);
    } else {
      assert body[0] == own[j] && body[1..] == own[j + 1..] + Bodies(arms, i + 1);
      var a := Enter(body, k, st);
      var k1 := Push(Rest(body[1..]), k);
      InCase(arms, i, j);
      SimExec(c, own[j], k1, st);
      var r := Exec(c, own[j], st);
      Stepping(c, a, Finish(r, k1));
      if r.0.Threw? { OneStep(c, Finish(r, k1)); } else { SimPrefix(c, arms, i, j + 1, k, r.1); }
      Then(c, a, Finish(r, k1), Finish(ExecBlock(c, body, st), k));
    }
  }

  lemma InCase(arms: Arms, i: nat, j: nat)
    requires i < |arms.cases| && j < |arms.cases[i].body|
    ensures (arms decreases to arms.cases[i].body[j])
  {
    assert (arms decreases to arms.cases);
    assert (arms.cases decreases to arms.cases[i]);
    assert (arms.cases[i] decreases to arms.cases[i].body);
  }

  lemma {:induction false} SimWhile(c: Cfg, s: WhileStmt, it: nat, k: Kont, st: St)
    ensures var (o, st1) := ExecWhile(c, s, it, st);
            Reaches(c, WhileHead(c, s, it, k, st), Config(Done(o), k, LeaveLoop(st1)))
    decreases 2 * Room(st) + 1, s, 1, 2 * (MAX_LOOP_ITERATIONS - it) + 1
  {
    var a := WhileHead(c, s, it, k, st);
    if it < MAX_LOOP_ITERATIONS {
      var (r, st1) := Eval(c, s.test, st);
      if r.Val? && Truthy(r.v) && LoopTick(c, st1).Some? {
        SimWhileRound(c, s, it, k, LoopTick(c, st1).value);
      } else {
        Here(c, a);
      }
    } else {
      Here(c, a);
    }
  }

  lemma {:induction false} SimWhileRound(c: Cfg, s: WhileStmt, it: nat, k: Kont, st: St)
    requires it < MAX_LOOP_ITERATIONS
    ensures var (o, st1) := WhileRound(c, s, it, st);
            Reaches(c, Enter(s.body, Push(InWhile(s, it + 1), k), st), Config(Done(o), k, LeaveLoop(st1)))
    decreases 2 * Room(st) + 1, s, 1, 2 * (MAX_LOOP_ITERATIONS - it)
  {
    var k1 := Push(InWhile(s, it + 1), k);
    SimBlock(c, s.body, k1, st);
    var (o, st1) := ExecBlock(c, s.body, st);
    var m := Config(Done(o), k1, st1);
    var (o2, st2) := WhileRound(c, s, it, st);
    var b := Config(Done(o2), k, LeaveLoop(st2));
    if Continues(o) {
      SimWhile(c, s, it + 1, k, st1);
      Stepping(c, m, b);
    } else {
      OneStep(c, m);
    }
    Then(c, Enter(s.body, k1, st), m, b);
  }

  lemma {:induction false} SimForStmt(c: Cfg, s: Stmt, k: Kont, st: St)
    requires s.For?
    ensures Reaches(c, EnterFor(c, s, k, st), Finish(ExecForStmt(c, s, st), k))
    decreases 2 * Room(st) + 1, s, 1, 2 * MAX_LOOP_ITERATIONS + 2
  {
    var a := EnterFor(c, s, k, st);
    var (o, st1) := ExecHook(c, s.init, st);
    if o.Threw? {
      Here(c, a);
    } else {
      SimFor(c, s, 0, k, EnterLoop(st1));
      Stepping(c, a, Finish(ExecForStmt(c, s, st), k));
    }
  }

  lemma {:induction false} SimFor(c: Cfg, s: ForStmt, it: nat, k: Kont, st: St)
    ensures var (o, st1) := ExecFor(c, s, it, st);
            Reaches(c, ForHead(c, s, it, k, st), Config(Done(o), k, LeaveLoop(st1)))
    decreases 2 * Room(st) + 1, s, 1, 2 * (MAX_LOOP_ITERATIONS - it) + 1
  {
    var a := ForHead(c, s, it, k, st);
    if it < MAX_LOOP_ITERATIONS {
      var (r, st1) := EvalCheck(c, s.check, st);
      if r.Val? && Truthy(r.v) && LoopTick(c, st1).Some? {
        SimForRound(c, s, it, k, LoopTick(c, st1).value);
      } else {
        Here(c, a);
      }
    } else {
      Here(c, a);
    }
  }

  lemma {:induction false} SimForRound(c: Cfg, s: ForStmt, it: nat, k: Kont, st: St)
    requires it < MAX_LOOP_ITERATIONS
    ensures var (o, st1) := ForRound(c, s, it, st);
            Reaches(c, Enter(s.body, Push(InFor(s, it + 1), k), st), Config(Done(o), k, LeaveLoop(st1)))
    decreases 2 * Room(st) + 1, s, 1, 2 * (MAX_LOOP_ITERATIONS - it)
  {
    var k1 := Push(InFor(s, it + 1), k);
    SimBlock(c, s.body, k1, st);
    var (o, st1) := ExecBlock(c, s.body, st);
    var m := Config(Done(o), k1, st1);
    var (o2, st2) := ForRound(c, s, it, st);
    var b := Config(Done(o2), k, LeaveLoop(st2));
    var (hook, st3) := ExecHook(c, s.post, st1);
    if Continues(o) && hook.Normal? {
      SimFor(c, s, it + 1, k, st3);
      Stepping(c, m, b);
    } else {
      OneStep(c, m);
    }
    Then(c, Enter(s.body, k1, st), m, b);
  }

  lemma {:induction false} SimWith(c: Cfg, s: Stmt, k: Kont, st: St)
    requires s.With?
    ensures Reaches(c, EnterWith(c, s, k, st), Finish(ExecWith(c, s, st), k))
    decreases 2 * Room(st) + 1, s, 1
  {
    var a := EnterWith(c, s, k, st);
    var (r, st1) := Eval(c, s.subject, st);
    if r.Val? && IsObject(WithTarget(s.subject, r.v)) {
      var k1 := Push(InWith(st1.core.thisObj), k);
      var st2 := SetThis(st1, WithTarget(s.subject, r.v));
      SimBlock(c, s.body, k1, st2);
      var m := Finish(ExecBlock(c, s.body, st2), k1);
      OneStep(c, m);
      Then(c, a, m, Step(c, m));
    } else {
      Here(c, a);
    }
  }

  lemma {:induction false} SimUserCall(c: Cfg, s: Stmt, k: Kont, st: St)
    requires s.UserCall?
    ensures Reaches(c, EnterUserCall(c, s, k, st), Finish(ExecUserCall(c, s, st), k))
    decreases 2 * Room(st) + 1, s, 1
  {
    if FindFunc(st.core.functions, s.callee).Some? {
      var (r, st1) := EvalAll(c, s.args, st);
      if r.Vals? { SimCall(c, s.callee, r.vs, k, st1); } else { Here(c, EnterUserCall(c, s, k, st)); }
    } else {
      Here(c, EnterUserCall(c, s, k, st));
    }
  }

  lemma {:induction false} SimCall(c: Cfg, name: string, args: seq<Value>, k: Kont, st: St)
    ensures Reaches(c, BeginCall(name, args, k, st), Finish(CallUser(c, name, args, st), k))
    decreases 2 * Room(st)
  {
    var a := BeginCall(name, args, k, st);
    match EnterCall(st.core, name, args)
    case Entered(body, saved, core) =>
      SimBlock(c, body, Push(InCall(saved), k), WithCore(st, core));
      var m := Finish(ExecBlock(c, body, WithCore(st, core)), Push(InCall(saved), k));
      OneStep(c, m);
      Then(c, a, m, Step(c, m));
    case _ => Here(c, a);
  }

  lemma {:induction false} SimTop(c: Cfg, program: seq<Stmt>, event: string, k: Kont, st: St)
    ensures var (o, st1) := ExecTop(c, program, st);
            var r := if o.Threw? then (o, st1) else FireEvent(c, event, st1);
            Reaches(c, NextTop(c, program, event, k, st), Finish(r, k))
    decreases |program|
  {
    var a := NextTop(c, program, event, k, st);
    if program == [] {
      var (call, core) := EventCall(c, event, st.core);
      if call.None? {
        Here(c, a);
      } else {
        var k1 := Push(InEvent, k);
        SimCall(c, call.value.0, call.value.1, k1, WithCore(st, core));
        var m := Finish(CallUser(c, call.value.0, call.value.1, WithCore(st, core)), k1);
        OneStep(c, m);
        Then(c, a, m, Step(c, m));
      }
    } else if program[0].FuncDef? {
      SimTop(c, program[1..], event, k, st);
    } else {
      var k1 := Push(TopLevel(program[1..], event), k);
      SimExec(c, program[0], k1, st);
      var (o, st1) := Exec(c, program[0], st);
      var m := Config(Done(o), k1, st1);
      var (o2, st2) := ExecTop(c, program, st);
      var r := if o2.Threw? then (o2, st2) else FireEvent(c, event, st2);
      if Swallow(o).Threw? {
        OneStep(c, m);
      } else {
        SimTop(c, program[1..], event, k, st1);
        Stepping(c, m, Finish(r, k));
      }
      Then(c, a, m, Finish(r, k));
    }
  }

  /** Driving a suspended event to its end gives what the direct interpreter gives. */
  lemma {:induction false} MachineRunsEvent(c: Cfg, program: seq<Stmt>, event: string, st: St)
    ensures Reaches(c, Initial(program, event, st), Finish(RunEvent(c, program, event, st), Stop))
  {
    var g := Initial(program, event, st);
    SimTop(c, program, event, Stop, WithCore(st, Prologue(program, event, st.core)));
    Stepping(c, g, Finish(RunEvent(c, program, event, st), Stop));
  }

  /** However many steps it is given, an execution that has ended is at its one end. */
  lemma {:induction false} OneEnd(c: Cfg, g: Config, m: nat, n: nat)
    requires Final(Run(c, g, m)) && Final(Run(c, g, n))
    ensures Run(c, g, m) == Run(c, g, n)
    decreases m
  {
    hide Step;
    if m > 0 && n > 0 && !Final(g) { OneEnd(c, Step(c, g), m - 1, n - 1); }
  }

  /** Slicing is invisible. Cut an event into slices of any size and resume it until it
      ends: outcome, context (store, lists, host history, functions, `this_obj`) and the
      sleeps with the contexts they happened in are those of the direct interpreter with
      slicing off, whose step limit is not reached. */
  lemma {:induction false} SlicingIsInvisible(c: Cfg, program: seq<Stmt>, event: string, st: St, n: nat)
    requires Final(Run(c, Initial(program, event, st), n))
    requires RunEvent(c.(budget := 0), program, event, st).0 != Threw(STARVED)
    ensures var sliced := Run(c, Initial(program, event, st), n);
            var (o, whole) := RunEvent(c.(budget := 0), program, event, st);
            sliced.control.o == o && SameRun(sliced.st, whole)
  {
    Ended(c, program, event, st, n);
    SliceEvent(c, c.(budget := 0), program, event, st, st);
  }

  /** With slices no longer than the step limit the limit never bites at all: the sliced
      run is the direct interpreter's run without any limit. */
  lemma {:induction false} ShortSlicesNeverStarve(c: Cfg, program: seq<Stmt>, event: string, st: St, n: nat)
    requires Unlimited(c)
    requires Final(Run(c, Initial(program, event, st), n))
    ensures var sliced := Run(c, Initial(program, event, st), n);
            var (o, whole) := RunEvent(c.(budget := 0, maxSteps := None), program, event, st);
            sliced.control.o == o && o != Threw(STARVED) && SameRun(sliced.st, whole)
  {
    Ended(c, program, event, st, n);
    var c2 := c.(budget := 0, maxSteps := None);
    SliceEvent(c, c2, program, event, st, st);
  }

  lemma Ended(c: Cfg, program: seq<Stmt>, event: string, st: St, n: nat)
    requires Final(Run(c, Initial(program, event, st), n))
    ensures Run(c, Initial(program, event, st), n) == Finish(RunEvent(c, program, event, st), Stop)
  {
    MachineRunsEvent(c, program, event, st);
    var g := Initial(program, event, st);
    var m: nat :| Run(c, g, m) == Finish(RunEvent(c, program, event, st), Stop);
    OneEnd(c, g, m, n);
  }
}

/** The suspendable GS1 executor: the generator chain `iter_event` / `_gblock` / `_gx` /
    `_gcall_user` of reborn_protocol/gs1/interp.py with its frames made explicit.

    A configuration is a statement about to run or an outcome on its way up, the stack
    of interrupted constructs, and the state. `Step` runs one statement or hands one
    outcome to the innermost frame; a step that asks for a sleep or is preempted is
    where the generator yields. Expressions, and the init and post statements of `for`,
    run to their end inside a step, because the source drains them. */
module Gs1Machine {
  import opened Gs1Ast
  import opened Gs1Runtime
  import opened Gs1Exec

  type WhileStmt = s: Stmt | s.While? witness While(Num(0.0), [])
  type ForStmt = s: Stmt | s.For? witness For(None, None, None, [])

  datatype Frame =
    | Rest(body: seq<Stmt>)                // statements left in a block
    | InWhile(loop: WhileStmt, it: nat)    // `it` iterations begun
    | InFor(forLoop: ForStmt, it: nat)
    | InSwitch
    | InWith(prev: Value)                  // `ctx.this_obj` to put back
    | InCall(saved: seq<Saved>)            // parameters to put back
    | TopLevel(rest: seq<Stmt>, event: string)
    | InEvent

  datatype Kont = Stop | Push(frame: Frame, below: Kont)

  datatype Control =
    | Start(s: Stmt)      // `_gx(s)` entered
    | Wake(s: Stmt)       // preempted just before `s`
    | Done(o: Outcome)    // an outcome for the innermost frame

  datatype Config = Config(control: Control, kont: Kont, st: St)

  predicate Final(g: Config) { g.control.Done? && g.kont.Stop? }

  function Finish(r: (Outcome, St), k: Kont): Config { Config(Done(r.0), k, r.1) }

  /** Enter a statement list. */
  function Enter(body: seq<Stmt>, k: Kont, st: St): Config {
    Config(Done(Normal), Push(Rest(body), k), st)
  }

  function Bodies(arms: Arms, i: nat): seq<Stmt>
    requires i <= |arms.cases|
    decreases |arms.cases| - i
  {
    if i == |arms.cases| then (if arms.default.Branch? then arms.default.body else [])
    else arms.cases[i].body + Bodies(arms, i + 1)
  }

  datatype Selection = Chosen(body: seq<Stmt>) | Nothing | ExcSelect(signal: Signal)

  /** The statements a `switch` runs: those of the matching case and all later ones. */
  function Select(c: Cfg, arms: Arms, i: nat, v: Value, st: St): (Selection, St)
    requires i <= |arms.cases|
    decreases |arms.cases| - i
  {
    if i == |arms.cases| then
      (if arms.default.Branch? then Chosen(arms.default.body) else Nothing, st)
    else
      var (r, st1) := Eval(c, arms.cases[i].guard, st);
      if r.Exc? then (ExcSelect(r.signal), st1)
      else if SwitchEq(c.env, st1.core.heap, v, r.v) then (Chosen(Bodies(arms, i)), st1)
      else Select(c, arms, i + 1, v, st1)
  }

  function EnterIf(c: Cfg, s: Stmt, k: Kont, st: St): Config
    requires s.If?
  {
    var (r, st1) := Eval(c, s.cond, st);
    if r.Exc? then Config(Done(Threw(r.signal)), k, st1)
    else if Truthy(r.v) then Enter(s.thenB, k, st1)
    else if s.elseB.Branch? then Enter(s.elseB.body, k, st1)
    else Config(Done(Normal), k, st1)
  }

  function EnterSwitch(c: Cfg, s: Stmt, k: Kont, st: St): Config
    requires s.Switch?
  {
    var (r, st1) := Eval(c, s.value, st);
    if r.Exc? then Config(Done(Threw(r.signal)), k, st1) else
    var (sel, st2) := Select(c, s.arms, 0, r.v, st1);
    match sel
    case ExcSelect(x) => Config(Done(Threw(x)), k, st2)
    case Nothing => Config(Done(Normal), k, st2)
    case Chosen(body) => Enter(body, Push(InSwitch, k), st2)
  }

  function EnterFor(c: Cfg, s: Stmt, k: Kont, st: St): Config
    requires s.For?
  {
    var (o, st1) := ExecHook(c, s.init, st);
    if o.Threw? then Config(Done(o), k, st1)
    else Config(Done(Normal), Push(InFor(s, 0), k), EnterLoop(st1))
  }

  function EnterWith(c: Cfg, s: Stmt, k: Kont, st: St): Config
    requires s.With?
  {
    var (r, st1) := Eval(c, s.subject, st);
    if r.Exc? then Config(Done(Threw(r.signal)), k, st1)
    else if !IsObject(WithTarget(s.subject, r.v)) then Config(Done(Normal), k, st1)
    else Enter(s.body, Push(InWith(st1.core.thisObj), k), SetThis(st1, WithTarget(s.subject, r.v)))
  }

  /** `_gcall_user` up to the first statement of its body. */
  function BeginCall(name: string, args: seq<Value>, k: Kont, st: St): Config {
    match EnterCall(st.core, name, args)
    case NoSuchFunction => Config(Done(Normal), k, st)
    case TooDeep => Config(Done(Threw(RuntimeError(CallDepth))), k, st)
    case Entered(body, saved, core) => Enter(body, Push(InCall(saved), k), WithCore(st, core))
  }

  function EnterUserCall(c: Cfg, s: Stmt, k: Kont, st: St): Config
    requires s.UserCall?
  {
    if FindFunc(st.core.functions, s.callee).Some? then
      var (r, st1) := EvalAll(c, s.args, st);
      if r.ExcAll? then Config(Done(Threw(r.signal)), k, st1)
      else BeginCall(s.callee, r.vs, k, st1)
    else
      var (r, st1) := EvalCall(c, s.callee, s.args, st);
      Config(Done(OfResult(r)), k, st1)
  }

  /** `_gx` after its `_step()`: begin a construct, or run a leaf statement. */
  function Dispatch(c: Cfg, s: Stmt, k: Kont, st: St): Config {
    match s
    case If(_, _, _) => EnterIf(c, s, k, st)
    case Block(body) => Enter(body, k, st)
    case Switch(_, _) => EnterSwitch(c, s, k, st)
    case While(_, _) => Config(Done(Normal), Push(InWhile(s, 0), k), EnterLoop(st))
    case For(_, _, _, _) => EnterFor(c, s, k, st)
    case With(_, _) => EnterWith(c, s, k, st)
    case UserCall(_, _) => EnterUserCall(c, s, k, st)
    case _ => Finish(ExecLeaf(c, s, st), k)
  }

  /** The head of a `while` after `it` iterations. */
  function WhileHead(c: Cfg, s: WhileStmt, it: nat, k: Kont, st: St): Config {
    if it >= MAX_LOOP_ITERATIONS then Config(Done(Normal), k, LeaveLoop(st))
    else
      var (r, st1) := Eval(c, s.test, st);
      if r.Exc? then Config(Done(Threw(r.signal)), k, LeaveLoop(st1))
      else if !Truthy(r.v) then Config(Done(Normal), k, LeaveLoop(st1))
      else match LoopTick(c, st1)
        case None => Config(Done(Threw(RuntimeError(StepBudget))), k, LeaveLoop(Counted(st1)))
        case Some(st2) => Enter(s.body, Push(InWhile(s, it + 1), k), st2)
  }

  /** The head of a `for` after `it` iterations, `post` included. */
  function ForHead(c: Cfg, s: ForStmt, it: nat, k: Kont, st: St): Config {
    if it >= MAX_LOOP_ITERATIONS then Config(Done(Normal), k, LeaveLoop(st))
    else
      var (r, st1) := EvalCheck(c, s.check, st);
      if r.Exc? then Config(Done(Threw(r.signal)), k, LeaveLoop(st1))
      else if !Truthy(r.v) then Config(Done(Normal), k, LeaveLoop(st1))
      else match LoopTick(c, st1)
        case None => Config(Done(Threw(RuntimeError(StepBudget))), k, LeaveLoop(Counted(st1)))
        case Some(st2) => Enter(s.body, Push(InFor(s, it + 1), k), st2)
  }

  function NextIteration(c: Cfg, s: ForStmt, it: nat, k: Kont, st: St): Config {
    if it == 0 then ForHead(c, s, 0, k, st)
    else
      var (o, st1) := ExecHook(c, s.post, st);
      if o.Threw? then Config(Done(o), k, LeaveLoop(st1)) else ForHead(c, s, it, k, st1)
  }

  /** Top level: skip definitions, start the next statement, or fire the event function. */
  function NextTop(c: Cfg, program: seq<Stmt>, event: string, k: Kont, st: St): Config
    decreases |program|
  {
    if program == [] then
      var (call, core) := EventCall(c, event, st.core);
      if call.None? then Config(Done(Normal), k, WithCore(st, core))
      else BeginCall(call.value.0, call.value.1, Push(InEvent, k), WithCore(st, core))
    else if program[0].FuncDef? then NextTop(c, program[1..], event, k, st)
    else Config(Start(program[0]), Push(TopLevel(program[1..], event), k), st)
  }

  /** An outcome reaches the construct it interrupts or completes. */
  function Return(c: Cfg, o: Outcome, f: Frame, k: Kont, st: St): Config {
    match f
    case Rest(body) =>
      if o.Threw? || body == [] then Config(Done(o), k, st)
      else Config(Start(body[0]), Push(Rest(body[1..]), k), st)
    case InWhile(s, it) =>
      if o == Threw(BreakS) then Config(Done(Normal), k, LeaveLoop(st))
      else if Continues(o) then WhileHead(c, s, it, k, st)
      else Config(Done(o), k, LeaveLoop(st))
    case InFor(s, it) =>
      if o == Threw(BreakS) then Config(Done(Normal), k, LeaveLoop(st))
      else if Continues(o) then NextIteration(c, s, it, k, st)
      else Config(Done(o), k, LeaveLoop(st))
    case InSwitch => Config(Done(AfterSwitch(o)), k, st)
    case InWith(prev) => Config(Done(o), k, SetThis(st, prev))
    case InCall(saved) => Config(Done(AfterCall(o)), k, WithCore(st, LeaveCall(st.core, saved)))
    case TopLevel(rest, event) =>
      if Swallow(o).Threw? then Config(Done(o), k, st) else NextTop(c, rest, event, k, st)
    case InEvent => Config(Done(Swallow(o)), k, st)
  }

  /** One move of the generator. */
  function Step(c: Cfg, g: Config): Config
    requires !Final(g)
  {
    match g.control
    case Start(s) =>
      if OverBudget(c, g.st.steps + 1) then
        Config(Wake(s), g.kont, g.st.(steps := 0, preempts := g.st.preempts + 1))
      else if OverLimit(c, g.st.steps + 1) then
        Config(Done(Threw(RuntimeError(StepBudget))), g.kont, Counted(g.st))
      else Dispatch(c, s, g.kont, Counted(g.st))
    case Wake(s) => Dispatch(c, s, g.kont, g.st.(steps := 1))
    case Done(o) => Return(c, o, g.kont.frame, g.kont.below, g.st)
  }

  /** `iter_event` at its first `next()`. */
  function Initial(program: seq<Stmt>, event: string, st: St): Config {
    Config(Done(Normal), Push(TopLevel(program, event), Stop),
           WithCore(st, Prologue(program, event, st.core)))
  }

  /** `n` steps, or fewer if the execution ends. */
  ghost function Run(c: Cfg, g: Config, n: nat): Config
    decreases n
  {
    if n == 0 || Final(g) then g else Run(c, Step(c, g), n - 1)
  }

  ghost predicate Reaches(c: Cfg, a: Config, b: Config) {
    exists n: nat :: Run(c, a, n) == b
  }

  lemma RunOn(c: Cfg, g: Config, n: nat)
    requires n > 0 && !Final(g)
    ensures Run(c, g, n) == Run(c, Step(c, g), n - 1)
  {
    hide Step;
  }

  lemma {:induction false} RunSplit(c: Cfg, g: Config, m: nat, n: nat)
    ensures Run(c, g, m + n) == Run(c, Run(c, g, m), n)
    decreases m
  {
    hide Step;
    if m > 0 && !Final(g) {
      RunOn(c, g, m);
      RunOn(c, g, m + n);
      RunSplit(c, Step(c, g), m - 1, n);
    }
  }

  lemma Then(c: Cfg, a: Config, b: Config, d: Config)
    requires Reaches(c, a, b) && Reaches(c, b, d)
    ensures Reaches(c, a, d)
  {
    var m: nat :| Run(c, a, m) == b;
    var n: nat :| Run(c, b, n) == d;
    RunSplit(c, a, m, n);
  }

  lemma Stepping(c: Cfg, a: Config, b: Config)
    requires !Final(a) && Reaches(c, Step(c, a), b)
    ensures Reaches(c, a, b)
  {
    var n: nat :| Run(c, Step(c, a), n) == b;
    assert Run(c, a, n + 1) == b;
  }

  lemma Here(c: Cfg, a: Config)
    ensures Reaches(c, a, a)
  {
    assert Run(c, a, 0) == a;
  }

  lemma OneStep(c: Cfg, a: Config)
    requires !Final(a)
    ensures Reaches(c, a, Step(c, a))
  {
    Here(c, Step(c, a));
    Stepping(c, a, Step(c, a));
  }
}

/** The direct recursive GS1 interpreter: `Interpreter.eval`, `_gx`, `_gblock`,
    `_gcall_user` and `run_event`/`iter_event` of reborn_protocol/gs1/interp.py, read as
    one total function of the program and the state.

    The coroutine yields appear here only as records (`sleeps`, `preempts`): a sleep does
    not stop this interpreter. Gs1Machine runs the same program with real suspensions.

    That Dafny accepts these functions is the termination claim: for every program,
    function table and host the measure (calls still allowed, syntax node, iterations
    left) decreases. The step guard `maxSteps` takes no part in it, and may be absent. */
module Gs1Exec {
  import opened Gs1Ast
  import opened Gs1Runtime

  /** `coro` is `_coro`; `budget` is `statement_budget` (0 is off); `maxSteps` is
      `ctx.max_steps`. */
  datatype Cfg = Cfg(env: Env, coro: bool, budget: nat, maxSteps: Option<nat>)

  /** `cancelled` is `ctx.sleep_cancelled`, set by plain `timeout = x` and read by no
      statement. `sleeps` are the suspensions asked for so far, each with the context as it then
      was; `preempts` counts the cooperative ones. */
  datatype St = St(core: Core, steps: nat, cancelled: bool, sleeps: seq<(real, Core)>, preempts: nat)

  datatype Result = Val(v: Value) | Exc(signal: Signal)
  datatype Results = Vals(vs: seq<Value>) | ExcAll(signal: Signal)
  datatype Indices = Ints(ints: seq<int>) | ExcIx(signal: Signal)
  datatype Fetched = Found(found: Option<Value>) | ExcRef(signal: Signal)
  datatype Text = Text(s: string) | ExcText(signal: Signal)
  datatype Outcome = Normal | Threw(signal: Signal)

  /** What any evaluation or statement leaves as it found it, however it exits, and the
      only way the cancellation flag changes while a script runs. */
  ghost predicate Kept(a: St, b: St) {
    && b.core.depth == a.core.depth
    && b.core.loopDepth == a.core.loopDepth
    && b.core.thisObj == a.core.thisObj
    && b.core.timerWrites >= a.core.timerWrites
    && (b.cancelled <==> (a.cancelled || b.core.timerWrites > a.core.timerWrites))
  }

  /** No suspension asked for, nor lost to one: evaluating an expression never yields. */
  predicate Silent(a: St, b: St) { b.sleeps == a.sleeps && b.preempts == a.preempts }

  const STARVED: Signal := RuntimeError(StepBudget)

  /** No step limit, or slices too short to reach it. */
  predicate Unlimited(c: Cfg) {
    c.maxSteps.None? || (c.coro && 0 < c.budget <= c.maxSteps.value)
  }

  /** User calls still allowed. */
  function Room(st: St): nat {
    if st.core.depth < MAX_CALL_DEPTH then MAX_CALL_DEPTH - st.core.depth else 0
  }

  predicate OverBudget(c: Cfg, steps: nat) { c.coro && c.budget > 0 && steps > c.budget }

  predicate OverLimit(c: Cfg, steps: nat) { c.maxSteps.Some? && steps > c.maxSteps.value }

  /** `_step()` before a statement, with the reset and the `steps = 1` that follow a
      preemption; None is the step-budget exception. */
  function Tick(c: Cfg, st: St): Option<St> {
    if OverBudget(c, st.steps + 1) then Some(st.(steps := 1, preempts := st.preempts + 1))
    else if OverLimit(c, st.steps + 1) then None
    else Some(st.(steps := st.steps + 1))
  }

  /** `_step()` in a loop, whose result the loop ignores. */
  function LoopTick(c: Cfg, st: St): Option<St> {
    if OverBudget(c, st.steps + 1) then Some(st.(steps := 0))
    else if OverLimit(c, st.steps + 1) then None
    else Some(st.(steps := st.steps + 1))
  }

  function Counted(st: St): St { st.(steps := st.steps + 1) }

  /** `for _ in gen: pass`: what a drained generator yields is lost. */
  function Drained(before: St, after: St): St {
    after.(sleeps := before.sleeps, preempts := before.preempts)
  }

  function WithCore(st: St, core: Core): St { st.(core := core) }

  // -------------------------------------------------------------- expressions

  function ToInts(env: Env, heap: Heap, vs: seq<Value>): seq<int> {
    if vs == [] then [] else [ToInt(env, heap, vs[0])] + ToInts(env, heap, vs[1..])
  }

  /** `_assigns_string` */
  predicate AssignsString(e: Expr) {
    match e
    case Binary(op, _, _) => op.Concat?
    case Call(name, _) => name == "_" || name == "format"
    case Ternary(_, a, b) => AssignsString(a) || AssignsString(b)
    case _ => false
  }

  /** Plain assignment is numeric unless the text is explicit. */
  function CoerceAssigned(env: Env, core: Core, op: AssignOp, source: Expr, v: Value): Value {
    if op.SetTo? && !v.ListV? && !v.BoolV? && !AssignsString(source)
       && !(core.thisObj.HostObject? && core.thisObj.withMembers)
    then NumV(ToNum(env, core.heap, v)) else v
  }

  /** Plain `timeout = x` erases any sleep pending on this context. */
  function NoteTimer(st: St, op: AssignOp, ref: Ref): St {
    if op.SetTo? && IsBareTimeout(ref) then TimerWritten(st) else st
  }

  function TimerWritten(st: St): St {
    st.(cancelled := true, core := st.core.(timerWrites := st.core.timerWrites + 1))
  }

  function Eval(c: Cfg, e: Expr, st: St): (r: (Result, St))
    ensures Kept(st, r.1) && Silent(st, r.1)
    ensures Unlimited(c) ==> r.0 != Exc(STARVED)
    decreases 2 * Room(st) + 1, e, 2
  {
    match e
    case Num(n) => (Val(NumV(n)), st)
    case Bool(b) => (Val(BoolV(b)), st)
    case Str(s) => (Val(StrV(s)), st)
    case SpecialLit(s) => (Val(StrV(s)), st)
    case VarRef(ref) => EvalVar(c, ref, st)
    case ArrayLit(es) => EvalArray(c, es, st)
    case Unary(op, x) => EvalUnary(c, op, x, st)
    case Binary(op, x, y) => EvalBinary(c, op, x, y, st)
    case Ternary(x, a, b) => EvalTernary(c, x, a, b, st)
    case Postfix(op, x) => EvalPostfix(c, op, x, st)
    case InExpr(vs, range) => EvalIn(c, vs, range, st)
    case Call(name, args) => EvalCall(c, name, args, st)
    case MessageCode(code, args) => EvalCode(c, code, args, st)
    case StrConcat(pieces) => EvalConcat(c, pieces, st)
    case AssignExpr(a) => EvalChained(c, a, st)
  }

  function EvalVar(c: Cfg, ref: Ref, st: St): (r: (Result, St))
    ensures Kept(st, r.1) && Silent(st, r.1)
    ensures Unlimited(c) ==> r.0 != Exc(STARVED)
    decreases 2 * Room(st) + 1, ref, 1
  {
    var (r, st1) := Fetch(c, ref, st);
    if r.ExcRef? then (Exc(r.signal), st1) else (Val(OrZero(r.found)), st1)
  }

  function EvalArray(c: Cfg, es: seq<Expr>, st: St): (r: (Result, St))
    ensures Kept(st, r.1) && Silent(st, r.1)
    ensures Unlimited(c) ==> r.0 != Exc(STARVED)
    decreases 2 * Room(st) + 1, es, 1
  {
    var (r, st1) := EvalAll(c, es, st);
    if r.ExcAll? then (Exc(r.signal), st1) else
    var (l, core) := NewList(st1.core, r.vs);
    (Val(l), WithCore(st1, core))
  }

  function EvalUnary(c: Cfg, op: UnaryOp, x: Expr, st: St): (r: (Result, St))
    ensures Kept(st, r.1) && Silent(st, r.1)
    ensures Unlimited(c) ==> r.0 != Exc(STARVED)
    decreases 2 * Room(st) + 1, x, 3
  {
    var (r, st1) := Eval(c, x, st);
    if r.Exc? then (r, st1) else (Val(UnaryValue(st1.core.heap, op, r.v)), st1)
  }

  function EvalTernary(c: Cfg, x: Expr, a: Expr, b: Expr, st: St): (r: (Result, St))
    ensures Kept(st, r.1) && Silent(st, r.1)
    ensures Unlimited(c) ==> r.0 != Exc(STARVED)
    decreases 2 * Room(st) + 1, Ternary(x, a, b), 1
  {
    var (r, st1) := Eval(c, x, st);
    if r.Exc? then (r, st1) else if Truthy(r.v) then Eval(c, a, st1) else Eval(c, b, st1)
  }

  /** A message code the host expands. */
  function EvalCode(c: Cfg, code: string, args: seq<Expr>, st: St): (r: (Result, St))
    ensures Kept(st, r.1) && Silent(st, r.1)
    ensures Unlimited(c) ==> r.0 != Exc(STARVED)
    decreases 2 * Room(st) + 1, args, 1
  {
    var (r, st1) := EvalAll(c, args, st);
    if r.ExcAll? then (Exc(r.signal), st1) else
    var (text, core) := AskText(c.env, st1.core, code, r.vs);
    (Val(StrV(text)), WithCore(st1, core))
  }

  /** A compound string: joined, trimmed, then the `name=` idiom. */
  function EvalConcat(c: Cfg, pieces: seq<Expr>, st: St): (r: (Result, St))
    ensures Kept(st, r.1) && Silent(st, r.1)
    ensures Unlimited(c) ==> r.0 != Exc(STARVED)
    decreases 2 * Room(st) + 1, pieces, 1
  {
    var (r, st1) := EvalText(c, pieces, st);
    if r.ExcText? then (Exc(r.signal), st1)
    else (Val(StrV(ValueOf(c.env, st1.core, c.env.strip(r.s)))), st1)
  }

  /** An assignment in expression position hands back the stored value. */
  function EvalChained(c: Cfg, a: Assignment, st: St): (r: (Result, St))
    ensures Kept(st, r.1) && Silent(st, r.1)
    ensures Unlimited(c) ==> r.0 != Exc(STARVED)
    decreases 2 * Room(st) + 1, a, 1
  {
    var (x, st1) := EvalAssign(c, a, st);
    if x.Some? then (Exc(x.value), st1) else EvalVar(c, a.target, st1)
  }

  /** Whether the left operand already decides `&&` or `||`. */
  predicate ShortCircuits(op: BinOp, left: Value) {
    (op.LogicAnd? && !Truthy(left)) || (op.LogicOr? && Truthy(left))
  }

  function Combine(env: Env, heap: Heap, op: BinOp, left: Value, right: Value): Value {
    if op.LogicAnd? || op.LogicOr? then BoolV(Truthy(right))
    else StrictBinary(env, heap, op, left, right)
  }

  function EvalBinary(c: Cfg, op: BinOp, x: Expr, y: Expr, st: St): (r: (Result, St))
    ensures Kept(st, r.1) && Silent(st, r.1)
    ensures Unlimited(c) ==> r.0 != Exc(STARVED)
    decreases 2 * Room(st) + 1, Binary(op, x, y), 1
  {
    var (r, st1) := Eval(c, x, st);
    if r.Exc? then (r, st1) else EvalRight(c, op, r.v, y, st1)
  }

  function EvalRight(c: Cfg, op: BinOp, left: Value, y: Expr, st: St): (r: (Result, St))
    ensures Kept(st, r.1) && Silent(st, r.1)
    ensures Unlimited(c) ==> r.0 != Exc(STARVED)
    decreases 2 * Room(st) + 1, y, 3
  {
    if ShortCircuits(op, left) then (Val(BoolV(op.LogicOr?)), st) else
    var (r, st1) := Eval(c, y, st);
    if r.Exc? then (r, st1) else (Val(Combine(c.env, st1.core.heap, op, left, r.v)), st1)
  }

  /** `[self.eval(a) for a in es]` */
  function EvalAll(c: Cfg, es: seq<Expr>, st: St): (r: (Results, St))
    ensures Kept(st, r.1) && Silent(st, r.1)
    ensures Unlimited(c) ==> r.0 != ExcAll(STARVED)
    ensures r.0.Vals? ==> |r.0.vs| == |es|
    decreases 2 * Room(st) + 1, es, 0
  {
    if es == [] then (Vals([]), st)
    else
      var (r, st1) := Eval(c, es[0], st);
      if r.Exc? then (ExcAll(r.signal), st1) else
      var (rest, st2) := EvalAll(c, es[1..], st1);
      if rest.ExcAll? then (rest, st2) else (Vals([r.v] + rest.vs), st2)
  }

  /** The pieces of a compound string, each turned into text as it is reached. */
  function EvalText(c: Cfg, es: seq<Expr>, st: St): (r: (Text, St))
    ensures Kept(st, r.1) && Silent(st, r.1)
    ensures Unlimited(c) ==> r.0 != ExcText(STARVED)
    decreases 2 * Room(st) + 1, es, 0
  {
    if es == [] then (Text(""), st)
    else
      var (r, st1) := Eval(c, es[0], st);
      if r.Exc? then (ExcText(r.signal), st1) else
      var s := ToStr(c.env, st1.core.heap, r.v);
      var (rest, st2) := EvalText(c, es[1..], st1);
      if rest.ExcText? then (rest, st2) else (Text(s + rest.s), st2)
  }

  /** All indices of all path parts, in source order. */
  function EvalIndices(c: Cfg, parts: seq<PathPart>, st: St): (r: (Indices, St))
    ensures Kept(st, r.1) && Silent(st, r.1)
    ensures Unlimited(c) ==> r.0 != ExcIx(STARVED)
    decreases 2 * Room(st) + 1, parts, 0
  {
    if parts == [] then (Ints([]), st)
    else
      var (r, st1) := EvalAll(c, parts[0].index, st);
      if r.ExcAll? then (ExcIx(r.signal), st1) else
      var here := ToInts(c.env, st1.core.heap, r.vs);
      var (rest, st2) := EvalIndices(c, parts[1..], st1);
      if rest.ExcIx? then (rest, st2) else (Ints(here + rest.ints), st2)
  }

  /** get_ref */
  function Fetch(c: Cfg, ref: Ref, st: St): (r: (Fetched, St))
    ensures Kept(st, r.1) && Silent(st, r.1)
    ensures Unlimited(c) ==> r.0 != ExcRef(STARVED)
    decreases 2 * Room(st) + 1, ref, 0
  {
    var (ix, st1) := EvalIndices(c, ref.parts, st);
    if ix.ExcIx? then (ExcRef(ix.signal), st1) else
    var (v, core) := ReadRef(c.env, st1.core, SlotOf(ref), ix.ints);
    (Found(v), WithCore(st1, core))
  }

  /** set_ref; None is success. */
  function Store(c: Cfg, ref: Ref, v: Value, st: St): (r: (Option<Signal>, St))
    ensures Kept(st, r.1) && Silent(st, r.1)
    ensures Unlimited(c) ==> r.0 != Some(STARVED)
    decreases 2 * Room(st) + 1, ref, 0
  {
    var (ix, st1) := EvalIndices(c, ref.parts, st);
    if ix.ExcIx? then (Some(ix.signal), st1) else
    match WriteRef(c.env, st1.core, SlotOf(ref), ix.ints, v)
    case None => (Some(RuntimeError(Fault("assignment"))), st1)
    case Some(core) => (None, WithCore(st1, core))
  }

  /** `_st_Assign`; None is success. */
  function EvalAssign(c: Cfg, a: Assignment, st: St): (r: (Option<Signal>, St))
    ensures Kept(st, r.1) && Silent(st, r.1)
    ensures Unlimited(c) ==> r.0 != Some(STARVED)
    decreases 2 * Room(st) + 1, a, 0
  {
    var (r, st1) := Eval(c, a.value, st);
    if r.Exc? then (Some(r.signal), st1)
    else if a.op.SetTo? then
      var st2 := NoteTimer(st1, a.op, a.target);
      Store(c, a.target, CoerceAssigned(c.env, st2.core, a.op, a.value, r.v), st2)
    else
      var (cur, st2) := Fetch(c, a.target, st1);
      if cur.ExcRef? then (Some(cur.signal), st2) else
      Store(c, a.target, Compound(c.env, st2.core.heap, a.op, OrNone(cur.found), r.v), st2)
  }

  function Stepped(env: Env, op: PostfixOp, n: real): Value {
    NumV(env.arith(if op.Incr? then Add else Sub, n, 1.0))
  }

  function EvalPostfix(c: Cfg, op: PostfixOp, e: Expr, st: St): (r: (Result, St))
    ensures Kept(st, r.1) && Silent(st, r.1)
    ensures Unlimited(c) ==> r.0 != Exc(STARVED)
    decreases 2 * Room(st) + 1, e, 3
  {
    if !e.VarRef? then (Exc(RuntimeError(Fault("not a variable"))), st)
    else
      var (cur, st1) := Fetch(c, e.ref, st);
      if cur.ExcRef? then (Exc(cur.signal), st1) else
      var n := ArithNum(st1.core.heap, OrNone(cur.found));
      var (x, st2) := Store(c, e.ref, Stepped(c.env, op, n), st1);
      if x.Some? then (Exc(x.value), st2) else (Val(NumV(n)), st2)
  }

  function EvalIn(c: Cfg, vs: seq<Expr>, range: Range, st: St): (r: (Result, St))
    ensures Kept(st, r.1) && Silent(st, r.1)
    ensures Unlimited(c) ==> r.0 != Exc(STARVED)
    decreases 2 * Room(st) + 1, InExpr(vs, range), 1
  {
    var (r, st1) := EvalAll(c, vs, st);
    if r.ExcAll? then (Exc(r.signal), st1) else
    match range
    case Members(list) =>
      var (l, st2) := Eval(c, list, st1);
      if l.Exc? then (l, st2) else (Val(BoolV(AllMembers(st2.core.heap, r.vs, l.v))), st2)
    case Bounds(lo, hi, loIncl, hiIncl) =>
      var (x, st2) := Eval(c, lo, st1);
      if x.Exc? then (x, st2) else
      var (y, st3) := Eval(c, hi, st2);
      if y.Exc? then (y, st3) else
      var h := st3.core.heap;
      (Val(BoolV(AllInBounds(h, r.vs, ArithNum(h, x.v), ArithNum(h, y.v), loIncl, hiIncl))), st3)
  }

  const TIMEOUT_SLOT: Slot := (Bare, "timeout")

  /** `_ex_Call`: a user function, `settimer`, the pure table, then the host. */
  function EvalCall(c: Cfg, name: string, args: seq<Expr>, st: St): (r: (Result, St))
    ensures Kept(st, r.1) && Silent(st, r.1)
    ensures Unlimited(c) ==> r.0 != Exc(STARVED)
    decreases 2 * Room(st) + 1, args, 2
  {
    if FindFunc(st.core.functions, name).Some? then EvalUserCall(c, name, args, st)
    else if c.env.lower(name) == "settimer" then EvalSetTimer(c, args, st)
    else EvalLibraryCall(c, name, args, st)
  }

  /** A user function in an expression: its body is drained, its value is 0. */
  function EvalUserCall(c: Cfg, name: string, args: seq<Expr>, st: St): (r: (Result, St))
    ensures Kept(st, r.1) && Silent(st, r.1)
    ensures Unlimited(c) ==> r.0 != Exc(STARVED)
    decreases 2 * Room(st) + 1, args, 1
  {
    var (r, st1) := EvalAll(c, args, st);
    if r.ExcAll? then (Exc(r.signal), st1) else
    var (o, st2) := CallUser(c, name, r.vs, st1);
    (if o.Threw? then Exc(o.signal) else Val(NumV(0.0)), Drained(st1, st2))
  }

  function EvalSetTimer(c: Cfg, args: seq<Expr>, st: St): (r: (Result, St))
    ensures Kept(st, r.1) && Silent(st, r.1)
    ensures Unlimited(c) ==> r.0 != Exc(STARVED)
    decreases 2 * Room(st) + 1, args, 1
  {
    var (r, st1) := EvalFirst(c, args, st);
    if r.Exc? then (r, st1) else
    (Val(NumV(0.0)), SetTimer(c.env, st1, NumV(ToNum(c.env, st1.core.heap, r.v))))
  }

  function EvalLibraryCall(c: Cfg, name: string, args: seq<Expr>, st: St): (r: (Result, St))
    ensures Kept(st, r.1) && Silent(st, r.1)
    ensures Unlimited(c) ==> r.0 != Exc(STARVED)
    decreases 2 * Room(st) + 1, args, 1
  {
    var (r, st1) := EvalAll(c, args, st);
    if r.ExcAll? then (Exc(r.signal), st1) else
    var (v, core) := CallLibrary(c.env, st1.core, name, r.vs);
    (Val(v), WithCore(st1, core))
  }

  /** The first argument, or 0 if there is none. */
  function EvalFirst(c: Cfg, args: seq<Expr>, st: St): (r: (Result, St))
    ensures Kept(st, r.1) && Silent(st, r.1)
    ensures Unlimited(c) ==> r.0 != Exc(STARVED)
    decreases 2 * Room(st) + 1, args, 0
  {
    if args == [] then (Val(NumV(0.0)), st) else Eval(c, args[0], st)
  }

  /** `settimer(x)` is the plain assignment `timeout = x`. */
  function SetTimer(env: Env, st: St, v: Value): (r: St)
    ensures Kept(st, r) && Silent(st, r)
  {
    var st1 := TimerWritten(st);
    match WriteRef(env, st1.core, TIMEOUT_SLOT, [], v)
    case None => st1
    case Some(core) => WithCore(st1, core)
  }

  /** The pure table first, then the host. */
  function CallLibrary(env: Env, core: Core, name: string, args: seq<Value>): (r: (Value, Core))
    ensures r.1 == core.(log := r.1.log)
  {
    match env.pure(name, args, core.heap)
    case Some(v) => (v, core)
    case None => var (v, core1) := Ask(env, core, CallFunction, name, args, []); (OrZero(v), core1)
  }

  /** `_gcall_user`: Return stops here, Break and Continue pass through. */
  function CallUser(c: Cfg, name: string, args: seq<Value>, st: St): (r: (Outcome, St))
    ensures Kept(st, r.1)
    ensures Unlimited(c) ==> r.0 != Threw(STARVED)
    decreases 2 * Room(st)
  {
    match EnterCall(st.core, name, args)
    case NoSuchFunction => (Normal, st)
    case TooDeep => (Threw(RuntimeError(CallDepth)), st)
    case Entered(body, saved, core) =>
      var (o, st1) := ExecBlock(c, body, WithCore(st, core));
      (AfterCall(o), WithCore(st1, LeaveCall(st1.core, saved)))
  }

  function AfterCall(o: Outcome): Outcome {
    if o == Threw(ReturnS) then Normal else o
  }

  // --------------------------------------------------------------- statements

  /** `_gx` */
  function Exec(c: Cfg, s: Stmt, st: St): (r: (Outcome, St))
    ensures Kept(st, r.1)
    ensures Unlimited(c) ==> r.0 != Threw(STARVED)
    decreases 2 * Room(st) + 1, s, 3
  {
    match Tick(c, st)
    case None => (Threw(RuntimeError(StepBudget)), Counted(st))
    case Some(st1) => ExecBody(c, s, st1)
  }

  /** `_gblock` */
  function ExecBlock(c: Cfg, body: seq<Stmt>, st: St): (r: (Outcome, St))
    ensures Kept(st, r.1)
    ensures Unlimited(c) ==> r.0 != Threw(STARVED)
    decreases 2 * Room(st) + 1, body, 0
  {
    if body == [] then (Normal, st)
    else
      var (o, st1) := Exec(c, body[0], st);
      if o.Threw? then (o, st1) else ExecBlock(c, body[1..], st1)
  }

  function Signalled(x: Option<Signal>): Outcome {
    if x.Some? then Threw(x.value) else Normal
  }

  function OfResult(r: Result): Outcome {
    if r.Exc? then Threw(r.signal) else Normal
  }

  predicate IsObject(v: Value) { v.HostObject? || v.ThisScopeV? }

  predicate IsPlainThis(e: Expr) {
    e.VarRef? && |e.ref.parts| == 1 && e.ref.parts[0].name == "this"
  }

  function WithTarget(e: Expr, v: Value): Value { if IsPlainThis(e) then ThisScopeV else v }

  function EnterLoop(st: St): St { WithCore(st, st.core.(loopDepth := st.core.loopDepth + 1)) }

  function LeaveLoop(st: St): St { WithCore(st, st.core.(loopDepth := st.core.loopDepth - 1)) }

  function SetThis(st: St, v: Value): St { WithCore(st, st.core.(thisObj := v)) }

  function FlowSignal(k: FlowKind): Signal {
    match k
    case BreakFlow => BreakS
    case ContinueFlow => ContinueS
    case ReturnFlow => ReturnS
  }

  /** What `sleep` does once its argument is known. */
  function Suspend(c: Cfg, secs: real, st: St): (Outcome, St) {
    if c.coro then
      (Normal, if secs > 0.0 then st.(sleeps := st.sleeps + [(secs, st.core)]) else st)
    else if st.core.loopDepth > 0 then (Threw(BreakS), st)
    else (Normal, st)
  }

  /** `_gx` after its `_step()`. */
  function ExecBody(c: Cfg, s: Stmt, st: St): (r: (Outcome, St))
    ensures Kept(st, r.1)
    ensures Unlimited(c) ==> r.0 != Threw(STARVED)
    decreases 2 * Room(st) + 1, s, 2
  {
    match s
    case If(_, _, _) => ExecIf(c, s, st)
    case Block(body) => ExecBlock(c, body, st)
    case Switch(_, _) => ExecSwitch(c, s, st)
    case While(_, _) =>
      var (o, st1) := ExecWhile(c, s, 0, EnterLoop(st));
      (o, LeaveLoop(st1))
    case For(_, _, _, _) => ExecForStmt(c, s, st)
    case With(_, _) => ExecWith(c, s, st)
    case UserCall(_, _) => ExecUserCall(c, s, st)
    case _ => ExecLeaf(c, s, st)
  }

  predicate IsLeaf(s: Stmt) {
    s.Sleep? || s.Command? || s.Assign? || s.ExprStmt? || s.FuncDef? || s.Flow?
  }

  /** The statements without statements inside. */
  function ExecLeaf(c: Cfg, s: Stmt, st: St): (r: (Outcome, St))
    requires IsLeaf(s)
    ensures Kept(st, r.1)
    ensures Unlimited(c) ==> r.0 != Threw(STARVED)
    decreases 2 * Room(st) + 1, s, 1
  {
    match s
    case Sleep(args) =>
      var (r, st1) := EvalFirst(c, args, st);
      if r.Exc? then (Threw(r.signal), st1)
      else Suspend(c, ToNum(c.env, st1.core.heap, r.v), st1)
    case Command(name, args) =>
      var (r, st1) := EvalAll(c, args, st);
      if r.ExcAll? then (Threw(r.signal), st1)
      else (Normal, WithCore(st1, Ask(c.env, st1.core, CallCommand, name, r.vs, []).1))
    case Assign(a) =>
      var (x, st1) := EvalAssign(c, a, st);
      (Signalled(x), st1)
    case ExprStmt(e) =>
      if e.None? then (Normal, st) else
      var (r, st1) := Eval(c, e.value, st);
      (OfResult(r), st1)
    case FuncDef(_, _, _) => (Normal, WithCore(st, Define(st.core, s)))
    case Flow(kind) => (Threw(FlowSignal(kind)), st)
  }

  function ExecIf(c: Cfg, s: Stmt, st: St): (r: (Outcome, St))
    requires s.If?
    ensures Kept(st, r.1)
    ensures Unlimited(c) ==> r.0 != Threw(STARVED)
    decreases 2 * Room(st) + 1, s, 1
  {
    var (r, st1) := Eval(c, s.cond, st);
    if r.Exc? then (Threw(r.signal), st1)
    else if Truthy(r.v) then ExecBlock(c, s.thenB, st1)
    else ExecBranch(c, s.elseB, st1)
  }

  function ExecSwitch(c: Cfg, s: Stmt, st: St): (r: (Outcome, St))
    requires s.Switch?
    ensures Kept(st, r.1)
    ensures Unlimited(c) ==> r.0 != Threw(STARVED)
    decreases 2 * Room(st) + 1, s, 1
  {
    var (r, st1) := Eval(c, s.value, st);
    if r.Exc? then (Threw(r.signal), st1) else
    ExecCases(c, s.arms, 0, r.v, st1)
  }

  function ExecForStmt(c: Cfg, s: Stmt, st: St): (r: (Outcome, St))
    requires s.For?
    ensures Kept(st, r.1)
    ensures Unlimited(c) ==> r.0 != Threw(STARVED)
    decreases 2 * Room(st) + 1, s, 1, 2 * MAX_LOOP_ITERATIONS + 2
  {
    var (o, st1) := ExecHook(c, s.init, st);
    if o.Threw? then (o, st1) else
    var (o2, st2) := ExecFor(c, s, 0, EnterLoop(st1));
    (o2, LeaveLoop(st2))
  }

  function ExecWith(c: Cfg, s: Stmt, st: St): (r: (Outcome, St))
    requires s.With?
    ensures Kept(st, r.1)
    ensures Unlimited(c) ==> r.0 != Threw(STARVED)
    decreases 2 * Room(st) + 1, s, 1
  {
    var (r, st1) := Eval(c, s.subject, st);
    if r.Exc? then (Threw(r.signal), st1)
    else if !IsObject(WithTarget(s.subject, r.v)) then (Normal, st1)
    else
      var (o, st2) := ExecBlock(c, s.body, SetThis(st1, WithTarget(s.subject, r.v)));
      (o, SetThis(st2, st1.core.thisObj))
  }

  /** A call as a statement; a name that is no user function is an ordinary call. */
  function ExecUserCall(c: Cfg, s: Stmt, st: St): (r: (Outcome, St))
    requires s.UserCall?
    ensures Kept(st, r.1)
    ensures Unlimited(c) ==> r.0 != Threw(STARVED)
    decreases 2 * Room(st) + 1, s, 1
  {
    if FindFunc(st.core.functions, s.callee).Some? then
      var (r, st1) := EvalAll(c, s.args, st);
      if r.ExcAll? then (Threw(r.signal), st1) else CallUser(c, s.callee, r.vs, st1)
    else
      var (r, st1) := EvalCall(c, s.callee, s.args, st);
      (OfResult(r), st1)
  }

  function Define(core: Core, s: Stmt): Core
    requires s.FuncDef?
  {
    core.(functions := PutFunc(core.functions, Func(s.name, s.params, s.body)))
  }

  function AfterSwitch(o: Outcome): Outcome {
    if o == Threw(BreakS) then Normal else o
  }

  function ExecBranch(c: Cfg, branch: Branch, st: St): (r: (Outcome, St))
    ensures Kept(st, r.1)
    ensures Unlimited(c) ==> r.0 != Threw(STARVED)
    decreases 2 * Room(st) + 1, branch, 0
  {
    if branch.NoBranch? then (Normal, st) else ExecBlock(c, branch.body, st)
  }

  /** From case `i` on: the first case whose label equals `v` and everything after it,
      else `default`. Only the chosen statements are inside the `except BreakSignal`. */
  function ExecCases(c: Cfg, arms: Arms, i: nat, v: Value, st: St): (r: (Outcome, St))
    requires i <= |arms.cases|
    ensures Kept(st, r.1)
    ensures Unlimited(c) ==> r.0 != Threw(STARVED)
    decreases 2 * Room(st) + 1, arms, 1, |arms.cases| - i
  {
    if i == |arms.cases| then
      var (o, st1) := ExecBranch(c, arms.default, st);
      (AfterSwitch(o), st1)
    else
      var (r, st1) := Eval(c, arms.cases[i].guard, st);
      if r.Exc? then (Threw(r.signal), st1)
      else if SwitchEq(c.env, st1.core.heap, v, r.v) then
        var (o, st2) := ExecFall(c, arms, i, st1);
        (AfterSwitch(o), st2)
      else ExecCases(c, arms, i + 1, v, st1)
  }

  /** The bodies of the cases from `i` on, one after another, then `default`. */
  function ExecFall(c: Cfg, arms: Arms, i: nat, st: St): (r: (Outcome, St))
    requires i <= |arms.cases|
    ensures Kept(st, r.1)
    ensures Unlimited(c) ==> r.0 != Threw(STARVED)
    decreases 2 * Room(st) + 1, arms, 0, |arms.cases| - i
  {
    if i == |arms.cases| then ExecBranch(c, arms.default, st)
    else
      var (o, st1) := ExecBlock(c, arms.cases[i].body, st);
      if o.Threw? then (o, st1) else ExecFall(c, arms, i + 1, st1)
  }

  /** The loop of a `while`, after `it` iterations. */
  function ExecWhile(c: Cfg, s: Stmt, it: nat, st: St): (r: (Outcome, St))
    requires s.While?
    ensures Kept(st, r.1)
    ensures Unlimited(c) ==> r.0 != Threw(STARVED)
    decreases 2 * Room(st) + 1, s, 1, 2 * (MAX_LOOP_ITERATIONS - it) + 1
  {
    if it >= MAX_LOOP_ITERATIONS then (Normal, st)
    else
      var (r, st1) := Eval(c, s.test, st);
      if r.Exc? then (Threw(r.signal), st1)
      else if !Truthy(r.v) then (Normal, st1)
      else match LoopTick(c, st1)
        case None => (Threw(RuntimeError(StepBudget)), Counted(st1))
        case Some(st2) => WhileRound(c, s, it, st2)
  }

  function WhileRound(c: Cfg, s: Stmt, it: nat, st: St): (r: (Outcome, St))
    requires s.While? && it < MAX_LOOP_ITERATIONS
    ensures Kept(st, r.1)
    ensures Unlimited(c) ==> r.0 != Threw(STARVED)
    decreases 2 * Room(st) + 1, s, 1, 2 * (MAX_LOOP_ITERATIONS - it)
  {
    var (o, st1) := ExecBlock(c, s.body, st);
    if o == Threw(BreakS) then (Normal, st1)
    else if Continues(o) then ExecWhile(c, s, it + 1, st1)
    else (o, st1)
  }

  predicate Continues(o: Outcome) { o.Normal? || o == Threw(ContinueS) }

  /** `self.exec` of a `for` loop's init or post: drained. */
  function ExecHook(c: Cfg, hook: Option<Stmt>, st: St): (r: (Outcome, St))
    ensures Kept(st, r.1) && Silent(st, r.1)
    ensures Unlimited(c) ==> r.0 != Threw(STARVED)
    decreases 2 * Room(st) + 1, hook, 4
  {
    if hook.None? then (Normal, st)
    else
      var (o, st1) := Exec(c, hook.value, st);
      (o, Drained(st, st1))
  }

  /** The condition of a `for`, absent meaning true. */
  function EvalCheck(c: Cfg, check: Option<Expr>, st: St): (r: (Result, St))
    ensures Kept(st, r.1) && Silent(st, r.1)
    ensures Unlimited(c) ==> r.0 != Exc(STARVED)
    decreases 2 * Room(st) + 1, check, 4
  {
    if check.None? then (Val(BoolV(true)), st) else Eval(c, check.value, st)
  }

  /** The loop of a `for`, after `it` iterations and their `post` statements. */
  function ExecFor(c: Cfg, s: Stmt, it: nat, st: St): (r: (Outcome, St))
    requires s.For?
    ensures Kept(st, r.1)
    ensures Unlimited(c) ==> r.0 != Threw(STARVED)
    decreases 2 * Room(st) + 1, s, 1, 2 * (MAX_LOOP_ITERATIONS - it) + 1
  {
    if it >= MAX_LOOP_ITERATIONS then (Normal, st)
    else
      var (r, st1) := EvalCheck(c, s.check, st);
      if r.Exc? then (Threw(r.signal), st1)
      else if !Truthy(r.v) then (Normal, st1)
      else match LoopTick(c, st1)
        case None => (Threw(RuntimeError(StepBudget)), Counted(st1))
        case Some(st2) => ForRound(c, s, it, st2)
  }

  function ForRound(c: Cfg, s: Stmt, it: nat, st: St): (r: (Outcome, St))
    requires s.For? && it < MAX_LOOP_ITERATIONS
    ensures Kept(st, r.1)
    ensures Unlimited(c) ==> r.0 != Threw(STARVED)
    decreases 2 * Room(st) + 1, s, 1, 2 * (MAX_LOOP_ITERATIONS - it)
  {
    var (o, st1) := ExecBlock(c, s.body, st);
    if o == Threw(BreakS) then (Normal, st1)
    else if !Continues(o) then (o, st1)
    else
      var (o2, st2) := ExecHook(c, s.post, st1);
      if o2.Threw? then (o2, st2) else ExecFor(c, s, it + 1, st2)
  }

  // ------------------------------------------------------------------- events

  /** Function definitions of a program, hoisted in order. */
  function Hoist(core: Core, program: seq<Stmt>): (r: Core)
    ensures r == core.(functions := r.functions)
    decreases |program|
  {
    if program == [] then core
    else Hoist(if program[0].FuncDef? then Define(core, program[0]) else core, program[1..])
  }

  const TOKENS_COUNT: Slot := (Bare, "tokenscount")

  /** What an event sets up before its first statement. */
  function Prologue(program: seq<Stmt>, event: string, core: Core): Core {
    Hoist(UnsetVar(core.(activeEvent := event), TOKENS_COUNT), program)
  }

  /** Stray control flow at top level is a no-op; a runtime error is not. */
  function Swallow(o: Outcome): Outcome {
    if o.Threw? && o.signal.RuntimeError? then o else Normal
  }

  /** The top-level statements that are not function definitions. */
  function ExecTop(c: Cfg, program: seq<Stmt>, st: St): (r: (Outcome, St))
    ensures Kept(st, r.1)
    ensures Unlimited(c) ==> r.0 != Threw(STARVED)
    decreases |program|
  {
    if program == [] then (Normal, st)
    else if program[0].FuncDef? then ExecTop(c, program[1..], st)
    else
      var (o, st1) := Exec(c, program[0], st);
      if Swallow(o).Threw? then (Swallow(o), st1) else ExecTop(c, program[1..], st1)
  }

  /** The first function whose name, case aside, is `want`. */
  function FindHandler(env: Env, fs: seq<Func>, want: string): Option<Func> {
    if fs == [] then None
    else if env.lower(fs[0].name) == want then Some(fs[0])
    else FindHandler(env, fs[1..], want)
  }

  /** Parameters of an event function: `#p(i)`, `#p(i+1)`, ... */
  function EventArgs(env: Env, i: nat, n: nat, core: Core): (r: (seq<Value>, Core))
    ensures r.1 == core.(log := r.1.log)
    decreases n
  {
    if n == 0 then ([], core)
    else
      var (text, core1) := AskText(env, core, "#p", [NumV(i as real)]);
      var (rest, core2) := EventArgs(env, i + 1, n - 1, core1);
      ([StrV(text)] + rest, core2)
  }

  /** `_fire_event_function` up to the call: its name and arguments, if it exists. */
  function EventCall(c: Cfg, event: string, core: Core): (Option<(string, seq<Value>)>, Core) {
    if event == "" then (None, core)
    else match FindHandler(c.env, core.functions, c.env.lower("on" + event))
      case None => (None, core)
      case Some(f) =>
        var (args, core1) := EventArgs(c.env, 0, |f.params|, core);
        (Some((f.name, args)), core1)
  }

  function FireEvent(c: Cfg, event: string, st: St): (r: (Outcome, St))
    ensures Kept(st, r.1)
    ensures Unlimited(c) ==> r.0 != Threw(STARVED)
  {
    var (call, core) := EventCall(c, event, st.core);
    if call.None? then (Normal, WithCore(st, core))
    else
      var (o, st1) := CallUser(c, call.value.0, call.value.1, WithCore(st, core));
      (Swallow(o), st1)
  }

  /** A whole event: `run_event` when `coro` is off, `iter_event` driven to its end
      when it is on. */
  function RunEvent(c: Cfg, program: seq<Stmt>, event: string, st: St): (r: (Outcome, St))
    ensures Kept(st, r.1)
  {
    var (o, st1) := ExecTop(c, program, WithCore(st, Prologue(program, event, st.core)));
    if o.Threw? then (o, st1) else FireEvent(c, event, st1)
  }
}

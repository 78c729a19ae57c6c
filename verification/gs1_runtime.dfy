/** GS1 values, variable store, host interface and execution context
    (reborn_protocol/gs1/values.py, runtime.py and the leaf operations of interp.py).

    Nothing here evaluates syntax: these are the operations the executor performs on
    its context once operands are values. */
module Gs1Runtime {
  import opened Gs1Ast

  /** Lists are references into `Core.heap`: `VarStore.set` with an index updates
      a list in place, visibly to every variable that holds it. */
  datatype Value =
    | NoneV
    | NumV(n: real)
    | BoolV(b: bool)
    | StrV(s: string)
    | ListV(list: nat)
    | HostObject(id: nat, withMembers: bool)
    | ThisScopeV                             // the dictionary behind `this.`

  datatype Scope = Bare | ThisS | ThisO | Temp | Local | Client | Server | Level | Global

  type Slot = (Scope, string)
  type Heap = seq<seq<Value>>

  datatype Func = Func(name: string, params: seq<string>, body: seq<Stmt>)

  datatype HostOp = GetBuiltin | SetBuiltin | CallCommand | CallFunction | ExpandCode

  /** One interaction with the host, with everything the host may look at. */
  datatype HostCall = HostCall(op: HostOp, name: string, args: seq<Value>, indices: seq<int>,
                               thisObj: Value, heap: Heap)

  /** Everything outside the interpreter. `answer` is a deterministic host: its reply
      is a function of the calls made so far and the present one. `arith` is the double
      arithmetic of `+ - * / ^`, rounding included, and `fmod` math.fmod; the others are the library conversions
      of values.py and the `_PURE` table. */
  datatype Env = Env(
    answer: (seq<HostCall>, HostCall) -> Option<Value>,
    pure: (string, seq<Value>, Heap) -> Option<Value>,
    show: (Heap, Value) -> string,
    parseNum: string -> real,
    arith: (BinOp, real, real) -> real,
    fmod: (int, int) -> real,
    listEq: (Heap, nat, nat) -> bool,
    lower: string -> string,
    strip: string -> string)

  /** The mutable context of a run (runtime.Context) plus the interpreter's own
      `_depth` and `_loop_depth`. `timerWrites` counts plain `timeout = x`
      assignments; no statement reads it. The cancellation flag those set is part of
      Gs1Exec.St. */
  datatype Core = Core(
    vars: map<Slot, Value>,
    heap: Heap,
    log: seq<HostCall>,
    functions: seq<Func>,
    thisObj: Value,
    activeEvent: string,
    timerWrites: nat,
    depth: int,
    loopDepth: int)

  datatype Error = StepBudget | CallDepth | Fault(what: string)

  datatype Signal = BreakS | ContinueS | ReturnS | RuntimeError(error: Error)

  // ---------------------------------------------------------------- coercions

  function Trunc(r: real): int {
    if r >= 0.0 then r.Floor else -((-r).Floor)
  }

  function Length(heap: Heap, list: nat): nat {
    if list < |heap| then |heap[list]| else 0
  }

  function BoolNum(b: bool): real { if b then 1.0 else 0.0 }

  /** values.to_num */
  function ToNum(env: Env, heap: Heap, v: Value): real {
    match v
    case NumV(n) => n
    case BoolV(b) => BoolNum(b)
    case StrV(s) => env.parseNum(s)
    case ListV(l) => Length(heap, l) as real
    case _ => 0.0
  }

  /** values.to_str */
  function ToStr(env: Env, heap: Heap, v: Value): string {
    match v
    case NoneV => ""
    case BoolV(b) => if b then "1" else "0"
    case StrV(s) => s
    case _ => env.show(heap, v)
  }

  /** values.gs1_num: text never parses in arithmetic. */
  function ArithNum(heap: Heap, v: Value): real {
    match v
    case NumV(n) => n
    case BoolV(b) => BoolNum(b)
    case ListV(l) => Length(heap, l) as real
    case _ => 0.0
  }

  /** values.gs1_truthy: a number is never truthy. */
  predicate Truthy(v: Value) {
    match v
    case BoolV(b) => b
    case StrV(s) => s != ""
    case _ => false
  }

  function ToInt(env: Env, heap: Heap, v: Value): int { Trunc(ToNum(env, heap, v)) }

  function Abs(r: real): real { if r >= 0.0 then r else -r }

  predicate Close(a: real, b: real) { Abs(a - b) < 0.0001 }

  predicate NearZero(a: real) { Abs(a) < 0.0000000000000002220446049250313 }

  /** `_eq` */
  predicate ValueEq(env: Env, heap: Heap, a: Value, b: Value) {
    if a.ListV? && b.ListV? then env.listEq(heap, a.list, b.list)
    else Close(ArithNum(heap, a), ArithNum(heap, b))
  }

  /** `_switch_equal` */
  predicate SwitchEq(env: Env, heap: Heap, a: Value, b: Value) {
    if a.StrV? && b.StrV? then env.lower(a.s) == env.lower(b.s)
    else if a.StrV? || b.StrV? then Close(ToNum(env, heap, a), ToNum(env, heap, b))
    else ValueEq(env, heap, a, b)
  }

  /** `_mod`: both operands truncate first. */
  function ModNum(env: Env, a: real, b: real): real {
    if Trunc(b) == 0 then 0.0 else env.fmod(Trunc(a), Trunc(b))
  }

  /** The operators of `_ex_BinOp` that evaluate both operands. */
  function StrictBinary(env: Env, heap: Heap, op: BinOp, a: Value, b: Value): Value
    requires !op.LogicAnd? && !op.LogicOr?
  {
    var x, y := ArithNum(heap, a), ArithNum(heap, b);
    match op
    case Concat => StrV(ToStr(env, heap, a) + ToStr(env, heap, b))
    case Add | Sub | Mul | Pow => NumV(env.arith(op, x, y))
    case Div => NumV(if y == 0.0 then 0.0 else env.arith(Div, x, y))
    case Mod => NumV(ModNum(env, x, y))
    case Equal => BoolV(ValueEq(env, heap, a, b))
    case NotEqual => BoolV(!ValueEq(env, heap, a, b))
    case Less => BoolV(x < y)
    case Greater => BoolV(x > y)
    case LessEq => BoolV(x <= y)
    case GreaterEq => BoolV(x >= y)
  }

  function UnaryValue(heap: Heap, op: UnaryOp, v: Value): Value {
    match op
    case Neg => NumV(-ArithNum(heap, v))
    case Pos => NumV(ArithNum(heap, v))
    case Not => BoolV(NearZero(ArithNum(heap, v)))
  }

  /** `_compound`, for the operators other than plain `=`. */
  function Compound(env: Env, heap: Heap, op: AssignOp, cur: Value, v: Value): Value {
    var x, y := ArithNum(heap, cur), ArithNum(heap, v);
    match op
    case AddTo => NumV(env.arith(Add, x, y))
    case SubTo => NumV(env.arith(Sub, x, y))
    case MulTo => NumV(env.arith(Mul, x, y))
    case DivTo => NumV(if y == 0.0 then 0.0 else env.arith(Div, x, y))
    case ModTo => NumV(ModNum(env, x, y))
    case PowTo => NumV(env.arith(Pow, x, y))
    case SetTo => v
  }

  /** One operand of `in |lo,hi|`; the bounds may come in either order. */
  predicate InBounds(x: real, lo: real, hi: real, loIncl: bool, hiIncl: bool) {
    if lo < hi then
      (if loIncl then lo <= x else lo < x) && (if hiIncl then x <= hi else x < hi)
    else
      (if loIncl then lo >= x else lo > x) && (if hiIncl then x >= hi else x > hi)
  }

  predicate AllInBounds(heap: Heap, vs: seq<Value>, lo: real, hi: real, loIncl: bool, hiIncl: bool) {
    forall v :: v in vs ==> InBounds(ArithNum(heap, v), lo, hi, loIncl, hiIncl)
  }

  predicate AllMembers(heap: Heap, vs: seq<Value>, container: Value) {
    container.ListV? && container.list < |heap| &&
    forall v :: v in vs ==>
      exists x :: x in heap[container.list] && ArithNum(heap, x) == ArithNum(heap, v)
  }

  // ------------------------------------------------------ names and the store

  function Namespaces(): map<string, Scope> { map[
    "this" := ThisS, "thiso" := ThisO, "temp" := Temp, "local" := Local,
    "client" := Client, "clientr" := Client, "server" := Server, "serverr" := Server,
    "level" := Level, "global" := Global] }

  function Namespace(name: string): Option<Scope> {
    if name in Namespaces() then Some(Namespaces()[name]) else None
  }

  function JoinDots(names: seq<string>): string {
    if names == [] then "" else if |names| == 1 then names[0]
    else names[0] + "." + JoinDots(names[1..])
  }

  function PartNames(parts: seq<PathPart>): seq<string> {
    if parts == [] then [] else [parts[0].name] + PartNames(parts[1..])
  }

  /** `_resolve`, the (scope, key) half. */
  function SlotOf(ref: Ref): Slot {
    var names := PartNames(ref.parts);
    if |names| > 1 && Namespace(names[0]).Some? then
      (Namespace(names[0]).value, JoinDots(names[1..]))
    else (Bare, JoinDots(names))
  }

  function FindChar(s: string, c: char): Option<nat> {
    if s == "" then None
    else if s[0] == c then Some(0)
    else match FindChar(s[1..], c)
      case None => None
      case Some(i) => Some(i + 1)
  }

  lemma FindCharBound(s: string, c: char)
    ensures FindChar(s, c).Some? ==> FindChar(s, c).value < |s|
  {
  }

  /** `_parameter_ref` */
  function ParameterSlot(name: string): Slot {
    FindCharBound(name, '.');
    match FindChar(name, '.')
    case None => (Bare, name)
    case Some(dot) =>
      match Namespace(name[..dot])
      case Some(scope) => (scope, name[dot + 1..])
      case None => (Bare, name)
  }

  predicate IsBareTimeout(ref: Ref) {
    |ref.parts| == 1 && ref.parts[0].name == "timeout" && ref.parts[0].index == []
  }

  function Lookup(vars: map<Slot, Value>, slot: Slot): Option<Value> {
    if slot in vars then Some(vars[slot]) else None
  }

  /** VarStore.get: an indexed read never fails, and clamps past the end to 0. */
  function ReadVar(core: Core, slot: Slot, indices: seq<int>): Option<Value> {
    if indices == [] then Lookup(core.vars, slot)
    else
      var i := indices[0];
      match Lookup(core.vars, slot)
      case Some(ListV(l)) =>
        if i < 0 || l >= |core.heap| || core.heap[l] == [] then Some(NumV(0.0))
        else Some(core.heap[l][if i >= |core.heap[l]| then 0 else i])
      case _ => Some(NumV(0.0))
  }

  function PutCell(core: Core, l: nat, i: nat, v: Value): Core
    requires l < |core.heap| && i < |core.heap[l]|
  {
    core.(heap := core.heap[l := core.heap[l][i := v]])
  }

  /** VarStore.set: an indexed write changes an existing list in place or nothing. */
  function WriteVar(core: Core, slot: Slot, indices: seq<int>, v: Value): Core {
    if indices == [] then core.(vars := core.vars[slot := v])
    else
      var i := indices[0];
      match Lookup(core.vars, slot)
      case Some(ListV(l)) =>
        if i < 0 || l >= |core.heap| || core.heap[l] == [] then core
        else PutCell(core, l, if i >= |core.heap[l]| then 0 else i, v)
      case _ => core
  }

  function UnsetVar(core: Core, slot: Slot): Core {
    core.(vars := core.vars - {slot})
  }

  function NewList(core: Core, cells: seq<Value>): (Value, Core) {
    (ListV(|core.heap|), core.(heap := core.heap + [cells]))
  }

  function Ask(env: Env, core: Core, op: HostOp, name: string, args: seq<Value>, indices: seq<int>)
    : (Option<Value>, Core)
  {
    var call := HostCall(op, name, args, indices, core.thisObj, core.heap);
    (env.answer(core.log, call), core.(log := core.log + [call]))
  }

  /** A message code's text from the host. */
  function AskText(env: Env, core: Core, code: string, args: seq<Value>): (r: (string, Core))
    ensures r.1 == core.(log := r.1.log)
  {
    var (text, core1) := Ask(env, core, ExpandCode, code, args, []);
    (if text.Some? then ToStr(env, core1.heap, text.value) else "", core1)
  }

  function ReservedConstants(): map<string, real> { map[
    "pi" := 3.141592653589793, "allstats" := 65535.0, "allfeatures" := 65535.0] }

  function ReservedConstant(key: string): Option<Value> {
    if key in ReservedConstants() then Some(NumV(ReservedConstants()[key])) else None
  }

  /** get_ref, once the indices are evaluated; None is an unset variable. */
  function ReadRef(env: Env, core: Core, slot: Slot, indices: seq<int>): (r: (Option<Value>, Core))
    ensures r.1 == core.(log := r.1.log)
  {
    if !slot.0.Bare? then (ReadVar(core, slot, indices), core)
    else if ReservedConstant(slot.1).Some? then (ReservedConstant(slot.1), core)
    else if slot.1 != "" && slot.1 == core.activeEvent then (Some(BoolV(true)), core)
    else
      var (builtin, core') := Ask(env, core, GetBuiltin, slot.1, [], indices);
      if builtin.Some? then (builtin, core') else (ReadVar(core', slot, indices), core')
  }

  function OrZero(v: Option<Value>): Value { if v.Some? then v.value else NumV(0.0) }

  function OrNone(v: Option<Value>): Value { if v.Some? then v.value else NoneV }

  function ClampSave(i: int): real { if i < 0 then 0.0 else if i > 220 then 220.0 else i as real }

  const SAVE_SLOT: Slot := (ThisS, "save")

  /** `setdefault("save", [0.0] * 10)` */
  function EnsureSave(core: Core): Core {
    if SAVE_SLOT in core.vars then core else
      var (l, c) := NewList(core, seq(10, _ => NumV(0.0)));
      c.(vars := c.vars[SAVE_SLOT := l])
  }

  /** The ten `this.save[i]` slots. */
  function WriteSave(env: Env, core: Core, i: int, v: Value): (r: Option<Core>)
    ensures r.Some? ==> StoreOnly(core, r.value)
  {
    var core1 := EnsureSave(core);
    if !(0 <= i < 10) then Some(core1)
    else match core1.vars[SAVE_SLOT]
      case ListV(l) =>
        if l < |core1.heap| && i < |core1.heap[l]|
        then Some(PutCell(core1, l, i, NumV(ClampSave(ToInt(env, core1.heap, v)))))
        else None
      case _ => None
  }

  /** `b` differs from `a` at most in variables, lists and the host's history. */
  ghost predicate StoreOnly(a: Core, b: Core) {
    b == a.(vars := b.vars, heap := b.heap, log := b.log)
  }

  /** set_ref, once the indices are evaluated; None is an exception. */
  function WriteRef(env: Env, core: Core, slot: Slot, indices: seq<int>, v: Value): (r: Option<Core>)
    ensures r.Some? ==> StoreOnly(core, r.value)
  {
    if slot == SAVE_SLOT && indices != [] then WriteSave(env, core, indices[0], v)
    else if !slot.0.Bare? then Some(WriteVar(core, slot, indices, v))
    else if ReservedConstant(slot.1).Some? then Some(core)
    else
      var (handled, core') := Ask(env, core, SetBuiltin, slot.1, [v], indices);
      Some(if handled.Some? then core' else WriteVar(core', slot, indices, v))
  }

  /** `_value_of`: a namespaced, existing `name=` stands for the variable's text. */
  function ValueOf(env: Env, core: Core, s: string): string {
    if |s| < 3 || s[|s| - 1] != '=' || s[|s| - 2] == '=' then s
    else
      var name := s[..|s| - 1];
      FindCharBound(name, '.');
      match FindChar(name, '.')
      case None => s
      case Some(dot) =>
        var key := name[dot + 1..];
        if dot == 0 || Namespace(name[..dot]).None? || key == ""
           || exists c :: c in key && c in " \t.=" then s
        else match Lookup(core.vars, (Namespace(name[..dot]).value, key))
          case None => s
          case Some(v) => ToStr(env, core.heap, v)
  }

  // ------------------------------------------------------------ user functions

  const MAX_CALL_DEPTH: int := 100
  const MAX_LOOP_ITERATIONS: nat := 10000

  function FindFunc(fs: seq<Func>, name: string): Option<Func> {
    if fs == [] then None
    else if fs[0].name == name then Some(fs[0])
    else FindFunc(fs[1..], name)
  }

  /** Dictionary assignment: an existing name keeps its place. */
  function PutFunc(fs: seq<Func>, f: Func): seq<Func> {
    if fs == [] then [f]
    else if fs[0].name == f.name then [f] + fs[1..]
    else [fs[0]] + PutFunc(fs[1..], f)
  }

  datatype Saved = Saved(slot: Slot, was: Option<Value>)

  /** Bind the parameters in order, remembering what each slot held. */
  function Bind(vars: map<Slot, Value>, params: seq<string>, args: seq<Value>)
    : (map<Slot, Value>, seq<Saved>)
    decreases |params|
  {
    if params == [] then (vars, [])
    else
      var slot := ParameterSlot(params[0]);
      var v := if args == [] then NumV(0.0) else args[0];
      var (vars', saved) := Bind(vars[slot := v], params[1..], if args == [] then [] else args[1..]);
      (vars', [Saved(slot, Lookup(vars, slot))] + saved)
  }

  /** Put the remembered values back, first parameter first. */
  function Restore(vars: map<Slot, Value>, saved: seq<Saved>): map<Slot, Value>
    decreases |saved|
  {
    if saved == [] then vars
    else
      var s := saved[0];
      Restore(if s.was.Some? then vars[s.slot := s.was.value] else vars - {s.slot}, saved[1..])
  }

  datatype Entry =
    | NoSuchFunction
    | TooDeep
    | Entered(body: seq<Stmt>, saved: seq<Saved>, core: Core)

  /** `_gcall_user` up to the body. */
  function EnterCall(core: Core, name: string, args: seq<Value>): Entry {
    match FindFunc(core.functions, name)
    case None => NoSuchFunction
    case Some(f) =>
      if core.depth >= MAX_CALL_DEPTH then TooDeep
      else
        var (vars, saved) := Bind(core.vars, f.params, args);
        Entered(f.body, saved, core.(vars := vars, depth := core.depth + 1))
  }

  /** The `finally` of `_gcall_user`. */
  function LeaveCall(core: Core, saved: seq<Saved>): Core {
    core.(vars := Restore(core.vars, saved), depth := core.depth - 1)
  }
}

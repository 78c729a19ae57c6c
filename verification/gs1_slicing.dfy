/** The statement budget is invisible. A run cut into slices of any size and the same
    run with the budget off evaluate every expression and statement to the same result
    and the same context; only the step counter and the preemption count differ. */
module Gs1Slicing {
  import opened Gs1Ast
  import opened Gs1Runtime
  import opened Gs1Exec

  /** Same context and same sleeps asked for in the same contexts. */
  ghost predicate SameRun(a: St, b: St) {
    a.core == b.core && a.sleeps == b.sleeps
  }

  /** `c2` never slices, and its step limit cannot outlive that of `c1`: either the
      slices of `c1` are too short to reach its limit, or its limit is at least as high. */
  ghost predicate Covers(c1: Cfg, c2: Cfg) {
    && c1.env == c2.env && c1.coro == c2.coro && c2.budget == 0
    && (|| Unlimited(c1)
        || (c2.maxSteps.Some? && c2.maxSteps.value <= c1.maxSteps.value))
  }

  /** Two runs side by side: sliced against whole, or the same run twice. */
  ghost predicate Paired(c1: Cfg, c2: Cfg, a: St, b: St) {
    && SameRun(a, b)
    && if c1 == c2 then a.steps == b.steps && a.preempts == b.preempts
       else Covers(c1, c2) && a.steps <= b.steps
  }

  lemma {:induction false} SliceEval(c1: Cfg, c2: Cfg, e: Expr, a: St, b: St)
    requires Paired(c1, c2, a, b)
    requires c1 == c2 || Eval(c2, e, b).0 != Exc(STARVED)
    ensures Eval(c1, e, a).0 == Eval(c2, e, b).0
    ensures Paired(c1, c2, Eval(c1, e, a).1, Eval(c2, e, b).1)
    decreases 2 * Room(b) + 1, e, 2
  {
    hide EvalVar, EvalUnary, EvalBinary, EvalTernary, EvalPostfix, EvalIn, EvalCall, EvalChained;
    match e
    case VarRef(ref) => SliceVar(c1, c2, ref, a, b);
    case ArrayLit(es) => SliceAll(c1, c2, es, a, b);
    case Unary(op, x) => SliceUnary(c1, c2, op, x, a, b);
    case Binary(op, x, y) => SliceBinary(c1, c2, op, x, y, a, b);
    case Ternary(x, y, z) => SliceTernary(c1, c2, x, y, z, a, b);
    case Postfix(op, x) => SlicePostfix(c1, c2, op, x, a, b);
    case InExpr(vs, range) => SliceIn(c1, c2, vs, range, a, b);
    case Call(name, args) => SliceCall(c1, c2, name, args, a, b);
    case MessageCode(code, args) => SliceAll(c1, c2, args, a, b);
    case StrConcat(pieces) => SliceText(c1, c2, pieces, a, b);
    case AssignExpr(x) => SliceChained(c1, c2, x, a, b);
    case _ =>
  }

  lemma {:induction false} SliceVar(c1: Cfg, c2: Cfg, ref: Ref, a: St, b: St)
    requires Paired(c1, c2, a, b)
    requires c1 == c2 || EvalVar(c2, ref, b).0 != Exc(STARVED)
    ensures EvalVar(c1, ref, a).0 == EvalVar(c2, ref, b).0
    ensures Paired(c1, c2, EvalVar(c1, ref, a).1, EvalVar(c2, ref, b).1)
    decreases 2 * Room(b) + 1, ref, 1
  {
    hide Fetch;
    SliceFetch(c1, c2, ref, a, b);
  }

  lemma {:induction false} SliceUnary(c1: Cfg, c2: Cfg, op: UnaryOp, x: Expr, a: St, b: St)
    requires Paired(c1, c2, a, b)
    requires c1 == c2 || EvalUnary(c2, op, x, b).0 != Exc(STARVED)
    ensures EvalUnary(c1, op, x, a).0 == EvalUnary(c2, op, x, b).0
    ensures Paired(c1, c2, EvalUnary(c1, op, x, a).1, EvalUnary(c2, op, x, b).1)
    decreases 2 * Room(b) + 1, x, 3
  {
    hide Eval;
    SliceEval(c1, c2, x, a, b);
  }

  lemma {:induction false} SliceTernary(c1: Cfg, c2: Cfg, x: Expr, y: Expr, z: Expr, a: St, b: St)
    requires Paired(c1, c2, a, b)
    requires c1 == c2 || EvalTernary(c2, x, y, z, b).0 != Exc(STARVED)
    ensures EvalTernary(c1, x, y, z, a).0 == EvalTernary(c2, x, y, z, b).0
    ensures Paired(c1, c2, EvalTernary(c1, x, y, z, a).1, EvalTernary(c2, x, y, z, b).1)
    decreases 2 * Room(b) + 1, Ternary(x, y, z), 1
  {
    hide Eval;
    SliceEval(c1, c2, x, a, b);
    var (r, b1) := Eval(c2, x, b);
    if r.Val? { SliceEval(c1, c2, if Truthy(r.v) then y else z, Eval(c1, x, a).1, b1); }
  }

  lemma {:induction false} SliceChained(c1: Cfg, c2: Cfg, x: Assignment, a: St, b: St)
    requires Paired(c1, c2, a, b)
    requires c1 == c2 || EvalChained(c2, x, b).0 != Exc(STARVED)
    ensures EvalChained(c1, x, a).0 == EvalChained(c2, x, b).0
    ensures Paired(c1, c2, EvalChained(c1, x, a).1, EvalChained(c2, x, b).1)
    decreases 2 * Room(b) + 1, x, 1
  {
    hide EvalAssign, EvalVar;
    SliceAssign(c1, c2, x, a, b);
    var (o, b1) := EvalAssign(c2, x, b);
    if o.None? { SliceVar(c1, c2, x.target, EvalAssign(c1, x, a).1, b1); }
  }

  lemma {:induction false} SliceBinary(c1: Cfg, c2: Cfg, op: BinOp, x: Expr, y: Expr, a: St, b: St)
    requires Paired(c1, c2, a, b)
    requires c1 == c2 || EvalBinary(c2, op, x, y, b).0 != Exc(STARVED)
    ensures EvalBinary(c1, op, x, y, a).0 == EvalBinary(c2, op, x, y, b).0
    ensures Paired(c1, c2, EvalBinary(c1, op, x, y, a).1, EvalBinary(c2, op, x, y, b).1)
    decreases 2 * Room(b) + 1, Binary(op, x, y), 1
  {
    hide Eval, EvalBinary, EvalRight, Paired, Unlimited, Kept, Silent, Room;
    BinaryForm(c1, op, x, y, a);
    BinaryForm(c2, op, x, y, b);
    SliceEval(c1, c2, x, a, b);
    var (r, b1) := Eval(c2, x, b);
    SameRoom(b, b1);
    if r.Val? { SliceRight(c1, c2, op, r.v, y, Eval(c1, x, a).1, b1); }
  }

  lemma BinaryForm(c: Cfg, op: BinOp, x: Expr, y: Expr, st: St)
    ensures var (r, st1) := Eval(c, x, st);
            EvalBinary(c, op, x, y, st) == if r.Exc? then (r, st1) else EvalRight(c, op, r.v, y, st1)
  {
    hide Eval, EvalRight;
  }

  lemma SameRoom(a: St, b: St)
    requires Kept(a, b)
    ensures Room(a) == Room(b)
  {
  }

  lemma {:induction false} SliceRight(c1: Cfg, c2: Cfg, op: BinOp, left: Value, y: Expr, a: St, b: St)
    requires Paired(c1, c2, a, b)
    requires c1 == c2 || EvalRight(c2, op, left, y, b).0 != Exc(STARVED)
    ensures EvalRight(c1, op, left, y, a).0 == EvalRight(c2, op, left, y, b).0
    ensures Paired(c1, c2, EvalRight(c1, op, left, y, a).1, EvalRight(c2, op, left, y, b).1)
    decreases 2 * Room(b) + 1, y, 3
  {
    hide Eval, StrictBinary;
    if !ShortCircuits(op, left) { SliceEval(c1, c2, y, a, b); }
  }

  lemma {:induction false} SliceAll(c1: Cfg, c2: Cfg, es: seq<Expr>, a: St, b: St)
    requires Paired(c1, c2, a, b)
    requires c1 == c2 || EvalAll(c2, es, b).0 != ExcAll(STARVED)
    ensures EvalAll(c1, es, a).0 == EvalAll(c2, es, b).0
    ensures Paired(c1, c2, EvalAll(c1, es, a).1, EvalAll(c2, es, b).1)
    decreases 2 * Room(b) + 1, es, 0
  {
    hide Eval;
    if es != [] {
      SliceEval(c1, c2, es[0], a, b);
      var (r, b1) := Eval(c2, es[0], b);
      if r.Val? { SliceAll(c1, c2, es[1..], Eval(c1, es[0], a).1, b1); }
    }
  }

  lemma {:induction false} SliceText(c1: Cfg, c2: Cfg, es: seq<Expr>, a: St, b: St)
    requires Paired(c1, c2, a, b)
    requires c1 == c2 || EvalText(c2, es, b).0 != ExcText(STARVED)
    ensures EvalText(c1, es, a).0 == EvalText(c2, es, b).0
    ensures Paired(c1, c2, EvalText(c1, es, a).1, EvalText(c2, es, b).1)
    decreases 2 * Room(b) + 1, es, 0
  {
    hide Eval;
    if es != [] {
      SliceEval(c1, c2, es[0], a, b);
      var (r, b1) := Eval(c2, es[0], b);
      if r.Val? { SliceText(c1, c2, es[1..], Eval(c1, es[0], a).1, b1); }
    }
  }

  lemma {:induction false} SliceIndices(c1: Cfg, c2: Cfg, parts: seq<PathPart>, a: St, b: St)
    requires Paired(c1, c2, a, b)
    requires c1 == c2 || EvalIndices(c2, parts, b).0 != ExcIx(STARVED)
    ensures EvalIndices(c1, parts, a).0 == EvalIndices(c2, parts, b).0
    ensures Paired(c1, c2, EvalIndices(c1, parts, a).1, EvalIndices(c2, parts, b).1)
    decreases 2 * Room(b) + 1, parts, 0
  {
    hide EvalAll;
    if parts != [] {
      SliceAll(c1, c2, parts[0].index, a, b);
      var (r, b1) := EvalAll(c2, parts[0].index, b);
      if r.Vals? { SliceIndices(c1, c2, parts[1..], EvalAll(c1, parts[0].index, a).1, b1); }
    }
  }

  lemma {:induction false} SliceFetch(c1: Cfg, c2: Cfg, ref: Ref, a: St, b: St)
    requires Paired(c1, c2, a, b)
    requires c1 == c2 || Fetch(c2, ref, b).0 != ExcRef(STARVED)
    ensures Fetch(c1, ref, a).0 == Fetch(c2, ref, b).0
    ensures Paired(c1, c2, Fetch(c1, ref, a).1, Fetch(c2, ref, b).1)
    decreases 2 * Room(b) + 1, ref, 0
  {
    hide EvalIndices, ReadRef;
    SliceIndices(c1, c2, ref.parts, a, b);
  }

  lemma {:induction false} SliceStore(c1: Cfg, c2: Cfg, ref: Ref, v: Value, a: St, b: St)
    requires Paired(c1, c2, a, b)
    requires c1 == c2 || Store(c2, ref, v, b).0 != Some(STARVED)
    ensures Store(c1, ref, v, a).0 == Store(c2, ref, v, b).0
    ensures Paired(c1, c2, Store(c1, ref, v, a).1, Store(c2, ref, v, b).1)
    decreases 2 * Room(b) + 1, ref, 0
  {
    hide EvalIndices, WriteRef;
    SliceIndices(c1, c2, ref.parts, a, b);
  }

  lemma {:induction false} SliceAssign(c1: Cfg, c2: Cfg, x: Assignment, a: St, b: St)
    requires Paired(c1, c2, a, b)
    requires c1 == c2 || EvalAssign(c2, x, b).0 != Some(STARVED)
    ensures EvalAssign(c1, x, a).0 == EvalAssign(c2, x, b).0
    ensures Paired(c1, c2, EvalAssign(c1, x, a).1, EvalAssign(c2, x, b).1)
    decreases 2 * Room(b) + 1, x, 0
  {
    hide Eval, Fetch, Store;
    SliceEval(c1, c2, x.value, a, b);
    var a1 := Eval(c1, x.value, a).1;
    var (r, b1) := Eval(c2, x.value, b);
    if r.Val? {
      if x.op.SetTo? {
        var a2, b2 := NoteTimer(a1, x.op, x.target), NoteTimer(b1, x.op, x.target);
        SliceStore(c1, c2, x.target, CoerceAssigned(c2.env, b2.core, x.op, x.value, r.v), a2, b2);
      } else {
        SliceFetch(c1, c2, x.target, a1, b1);
        var (cur, b2) := Fetch(c2, x.target, b1);
        if cur.Found? {
          SliceStore(c1, c2, x.target, Compound(c2.env, b2.core.heap, x.op, OrNone(cur.found), r.v),
                     Fetch(c1, x.target, a1).1, b2);
        }
      }
    }
  }

  lemma {:induction false} SlicePostfix(c1: Cfg, c2: Cfg, op: PostfixOp, e: Expr, a: St, b: St)
    requires Paired(c1, c2, a, b)
    requires c1 == c2 || EvalPostfix(c2, op, e, b).0 != Exc(STARVED)
    ensures EvalPostfix(c1, op, e, a).0 == EvalPostfix(c2, op, e, b).0
    ensures Paired(c1, c2, EvalPostfix(c1, op, e, a).1, EvalPostfix(c2, op, e, b).1)
    decreases 2 * Room(b) + 1, e, 3
  {
    hide Fetch, Store;
    if e.VarRef? {
      SliceFetch(c1, c2, e.ref, a, b);
      var (cur, b1) := Fetch(c2, e.ref, b);
      if cur.Found? {
        var n := ArithNum(b1.core.heap, OrNone(cur.found));
        SliceStore(c1, c2, e.ref, Stepped(c2.env, op, n), Fetch(c1, e.ref, a).1, b1);
      }
    }
  }

  lemma {:induction false} SliceIn(c1: Cfg, c2: Cfg, vs: seq<Expr>, range: Range, a: St, b: St)
    requires Paired(c1, c2, a, b)
    requires c1 == c2 || EvalIn(c2, vs, range, b).0 != Exc(STARVED)
    ensures EvalIn(c1, vs, range, a).0 == EvalIn(c2, vs, range, b).0
    ensures Paired(c1, c2, EvalIn(c1, vs, range, a).1, EvalIn(c2, vs, range, b).1)
    decreases 2 * Room(b) + 1, InExpr(vs, range), 1
  {
    hide Eval, EvalAll;
    SliceAll(c1, c2, vs, a, b);
    var a1 := EvalAll(c1, vs, a).1;
    var (r, b1) := EvalAll(c2, vs, b);
    if r.Vals? {
      match range
      case Members(list) => SliceEval(c1, c2, list, a1, b1);
      case Bounds(lo, hi, _, _) =>
        SliceEval(c1, c2, lo, a1, b1);
        if Eval(c2, lo, b1).0.Val? {
          SliceEval(c1, c2, hi, Eval(c1, lo, a1).1, Eval(c2, lo, b1).1);
        }
    }
  }

  lemma {:induction false} SliceCall(c1: Cfg, c2: Cfg, name: string, args: seq<Expr>, a: St, b: St)
    requires Paired(c1, c2, a, b)
    requires c1 == c2 || EvalCall(c2, name, args, b).0 != Exc(STARVED)
    ensures EvalCall(c1, name, args, a).0 == EvalCall(c2, name, args, b).0
    ensures Paired(c1, c2, EvalCall(c1, name, args, a).1, EvalCall(c2, name, args, b).1)
    decreases 2 * Room(b) + 1, args, 2
  {
    hide EvalUserCall, EvalSetTimer, EvalLibraryCall;
    if FindFunc(b.core.functions, name).Some? {
      SliceUserExpr(c1, c2, name, args, a, b);
    } else if c2.env.lower(name) == "settimer" {
      SliceSetTimer(c1, c2, args, a, b);
    } else {
      SliceLibrary(c1, c2, name, args, a, b);
    }
  }

  lemma {:induction false} SliceUserExpr(c1: Cfg, c2: Cfg, name: string, args: seq<Expr>, a: St, b: St)
    requires Paired(c1, c2, a, b)
    requires c1 == c2 || EvalUserCall(c2, name, args, b).0 != Exc(STARVED)
    ensures EvalUserCall(c1, name, args, a).0 == EvalUserCall(c2, name, args, b).0
    ensures Paired(c1, c2, EvalUserCall(c1, name, args, a).1, EvalUserCall(c2, name, args, b).1)
    decreases 2 * Room(b) + 1, args, 1
  {
    hide EvalAll, CallUser;
    SliceAll(c1, c2, args, a, b);
    var (r, b1) := EvalAll(c2, args, b);
    if r.Vals? { SliceUser(c1, c2, name, r.vs, EvalAll(c1, args, a).1, b1); }
  }

  lemma {:induction false} SliceSetTimer(c1: Cfg, c2: Cfg, args: seq<Expr>, a: St, b: St)
    requires Paired(c1, c2, a, b)
    requires c1 == c2 || EvalSetTimer(c2, args, b).0 != Exc(STARVED)
    ensures EvalSetTimer(c1, args, a).0 == EvalSetTimer(c2, args, b).0
    ensures Paired(c1, c2, EvalSetTimer(c1, args, a).1, EvalSetTimer(c2, args, b).1)
    decreases 2 * Room(b) + 1, args, 1
  {
    hide EvalFirst;
    SliceFirst(c1, c2, args, a, b);
  }

  lemma {:induction false} SliceLibrary(c1: Cfg, c2: Cfg, name: string, args: seq<Expr>, a: St, b: St)
    requires Paired(c1, c2, a, b)
    requires c1 == c2 || EvalLibraryCall(c2, name, args, b).0 != Exc(STARVED)
    ensures EvalLibraryCall(c1, name, args, a).0 == EvalLibraryCall(c2, name, args, b).0
    ensures Paired(c1, c2, EvalLibraryCall(c1, name, args, a).1, EvalLibraryCall(c2, name, args, b).1)
    decreases 2 * Room(b) + 1, args, 1
  {
    hide EvalAll, CallLibrary;
    SliceAll(c1, c2, args, a, b);
  }

  lemma {:induction false} SliceFirst(c1: Cfg, c2: Cfg, args: seq<Expr>, a: St, b: St)
    requires Paired(c1, c2, a, b)
    requires c1 == c2 || EvalFirst(c2, args, b).0 != Exc(STARVED)
    ensures EvalFirst(c1, args, a).0 == EvalFirst(c2, args, b).0
    ensures Paired(c1, c2, EvalFirst(c1, args, a).1, EvalFirst(c2, args, b).1)
    decreases 2 * Room(b) + 1, args, 0
  {
    hide Eval;
    if args != [] { SliceEval(c1, c2, args[0], a, b); }
  }

  lemma {:induction false} SliceUser(c1: Cfg, c2: Cfg, name: string, args: seq<Value>, a: St, b: St)
    requires Paired(c1, c2, a, b)
    requires c1 == c2 || CallUser(c2, name, args, b).0 != Threw(STARVED)
    ensures CallUser(c1, name, args, a).0 == CallUser(c2, name, args, b).0
    ensures Paired(c1, c2, CallUser(c1, name, args, a).1, CallUser(c2, name, args, b).1)
    decreases 2 * Room(b)
  {
    hide ExecBlock;
    match EnterCall(b.core, name, args)
    case Entered(body, saved, core) => SliceBlock(c1, c2, body, WithCore(a, core), WithCore(b, core));
    case _ =>
  }

  lemma {:induction false} SliceExec(c1: Cfg, c2: Cfg, s: Stmt, a: St, b: St)
    requires Paired(c1, c2, a, b)
    requires c1 == c2 || Exec(c2, s, b).0 != Threw(STARVED)
    ensures Exec(c1, s, a).0 == Exec(c2, s, b).0
    ensures Paired(c1, c2, Exec(c1, s, a).1, Exec(c2, s, b).1)
    decreases 2 * Room(b) + 1, s, 3
  {
    hide ExecBody;
    if Tick(c2, b).Some? {
      SliceBody(c1, c2, s, Tick(c1, a).value, Tick(c2, b).value);
    }
  }

  lemma {:induction false} SliceBlock(c1: Cfg, c2: Cfg, body: seq<Stmt>, a: St, b: St)
    requires Paired(c1, c2, a, b)
    requires c1 == c2 || ExecBlock(c2, body, b).0 != Threw(STARVED)
    ensures ExecBlock(c1, body, a).0 == ExecBlock(c2, body, b).0
    ensures Paired(c1, c2, ExecBlock(c1, body, a).1, ExecBlock(c2, body, b).1)
    decreases 2 * Room(b) + 1, body, 0
  {
    hide Exec;
    if body != [] {
      SliceExec(c1, c2, body[0], a, b);
      var (o, b1) := Exec(c2, body[0], b);
      if o.Normal? { SliceBlock(c1, c2, body[1..], Exec(c1, body[0], a).1, b1); }
    }
  }

  lemma {:induction false} SliceBody(c1: Cfg, c2: Cfg, s: Stmt, a: St, b: St)
    requires Paired(c1, c2, a, b)
    requires c1 == c2 || ExecBody(c2, s, b).0 != Threw(STARVED)
    ensures ExecBody(c1, s, a).0 == ExecBody(c2, s, b).0
    ensures Paired(c1, c2, ExecBody(c1, s, a).1, ExecBody(c2, s, b).1)
    decreases 2 * Room(b) + 1, s, 2
  {
    hide ExecIf, ExecBlock, ExecSwitch, ExecWhile, ExecForStmt, ExecWith, ExecUserCall, ExecLeaf;
    match s
    case If(_, _, _) => SliceIf(c1, c2, s, a, b);
    case Block(body) => SliceBlock(c1, c2, body, a, b);
    case Switch(value, arms) => SliceSwitch(c1, c2, s, a, b);
    case While(_, _) => SliceWhile(c1, c2, s, 0, EnterLoop(a), EnterLoop(b));
    case For(_, _, _, _) => SliceForStmt(c1, c2, s, a, b);
    case With(_, _) => SliceWith(c1, c2, s, a, b);
    case UserCall(_, _) => SliceUserCall(c1, c2, s, a, b);
    case _ => SliceLeaf(c1, c2, s, a, b);
  }

  lemma {:induction false} SliceLeaf(c1: Cfg, c2: Cfg, s: Stmt, a: St, b: St)
    requires IsLeaf(s)
    requires Paired(c1, c2, a, b)
    requires c1 == c2 || ExecLeaf(c2, s, b).0 != Threw(STARVED)
    ensures ExecLeaf(c1, s, a).0 == ExecLeaf(c2, s, b).0
    ensures Paired(c1, c2, ExecLeaf(c1, s, a).1, ExecLeaf(c2, s, b).1)
    decreases 2 * Room(b) + 1, s, 1
  {
    hide EvalFirst, EvalAll, EvalAssign, Eval;
    match s
    case Sleep(args) => SliceFirst(c1, c2, args, a, b);
    case Command(name, args) => SliceAll(c1, c2, args, a, b);
    case Assign(x) => SliceAssign(c1, c2, x, a, b);
    case ExprStmt(e) => if e.Some? { SliceEval(c1, c2, e.value, a, b); }
    case _ =>
  }

  lemma {:induction false} SliceIf(c1: Cfg, c2: Cfg, s: Stmt, a: St, b: St)
    requires s.If?
    requires Paired(c1, c2, a, b)
    requires c1 == c2 || ExecIf(c2, s, b).0 != Threw(STARVED)
    ensures ExecIf(c1, s, a).0 == ExecIf(c2, s, b).0
    ensures Paired(c1, c2, ExecIf(c1, s, a).1, ExecIf(c2, s, b).1)
    decreases 2 * Room(b) + 1, s, 1
  {
    hide Eval, ExecBlock, ExecBranch;
    SliceEval(c1, c2, s.cond, a, b);
    var a1 := Eval(c1, s.cond, a).1;
    var (r, b1) := Eval(c2, s.cond, b);
    if r.Val? {
      if Truthy(r.v) { SliceBlock(c1, c2, s.thenB, a1, b1); } else { SliceBranch(c1, c2, s.elseB, a1, b1); }
    }
  }

  lemma {:induction false} SliceSwitch(c1: Cfg, c2: Cfg, s: Stmt, a: St, b: St)
    requires s.Switch?
    requires Paired(c1, c2, a, b)
    requires c1 == c2 || ExecSwitch(c2, s, b).0 != Threw(STARVED)
    ensures ExecSwitch(c1, s, a).0 == ExecSwitch(c2, s, b).0
    ensures Paired(c1, c2, ExecSwitch(c1, s, a).1, ExecSwitch(c2, s, b).1)
    decreases 2 * Room(b) + 1, s, 1
  {
    hide Eval, ExecCases;
    SliceEval(c1, c2, s.value, a, b);
    var (r, b1) := Eval(c2, s.value, b);
    if r.Val? { SliceCases(c1, c2, s.arms, 0, r.v, Eval(c1, s.value, a).1, b1); }
  }

  lemma {:induction false} SliceForStmt(c1: Cfg, c2: Cfg, s: Stmt, a: St, b: St)
    requires s.For?
    requires Paired(c1, c2, a, b)
    requires c1 == c2 || ExecForStmt(c2, s, b).0 != Threw(STARVED)
    ensures ExecForStmt(c1, s, a).0 == ExecForStmt(c2, s, b).0
    ensures Paired(c1, c2, ExecForStmt(c1, s, a).1, ExecForStmt(c2, s, b).1)
    decreases 2 * Room(b) + 1, s, 1, 2 * MAX_LOOP_ITERATIONS + 2
  {
    hide ExecHook, ExecFor;
    SliceHook(c1, c2, s.init, a, b);
    var (o, b1) := ExecHook(c2, s.init, b);
    if o.Normal? { SliceFor(c1, c2, s, 0, EnterLoop(ExecHook(c1, s.init, a).1), EnterLoop(b1)); }
  }

  lemma {:induction false} SliceWith(c1: Cfg, c2: Cfg, s: Stmt, a: St, b: St)
    requires s.With?
    requires Paired(c1, c2, a, b)
    requires c1 == c2 || ExecWith(c2, s, b).0 != Threw(STARVED)
    ensures ExecWith(c1, s, a).0 == ExecWith(c2, s, b).0
    ensures Paired(c1, c2, ExecWith(c1, s, a).1, ExecWith(c2, s, b).1)
    decreases 2 * Room(b) + 1, s, 1
  {
    hide Eval, ExecBlock;
    SliceEval(c1, c2, s.subject, a, b);
    var (r, b1) := Eval(c2, s.subject, b);
    if r.Val? && IsObject(WithTarget(s.subject, r.v)) {
      var v := WithTarget(s.subject, r.v);
      SliceBlock(c1, c2, s.body, SetThis(Eval(c1, s.subject, a).1, v), SetThis(b1, v));
    }
  }

  lemma {:induction false} SliceUserCall(c1: Cfg, c2: Cfg, s: Stmt, a: St, b: St)
    requires s.UserCall?
    requires Paired(c1, c2, a, b)
    requires c1 == c2 || ExecUserCall(c2, s, b).0 != Threw(STARVED)
    ensures ExecUserCall(c1, s, a).0 == ExecUserCall(c2, s, b).0
    ensures Paired(c1, c2, ExecUserCall(c1, s, a).1, ExecUserCall(c2, s, b).1)
    decreases 2 * Room(b) + 1, s, 1
  {
    hide EvalAll, EvalCall, CallUser;
    if FindFunc(b.core.functions, s.callee).Some? {
      SliceAll(c1, c2, s.args, a, b);
      var (r, b1) := EvalAll(c2, s.args, b);
      if r.Vals? { SliceUser(c1, c2, s.callee, r.vs, EvalAll(c1, s.args, a).1, b1); }
    } else {
      SliceCall(c1, c2, s.callee, s.args, a, b);
    }
  }

  lemma {:induction false} SliceBranch(c1: Cfg, c2: Cfg, branch: Branch, a: St, b: St)
    requires Paired(c1, c2, a, b)
    requires c1 == c2 || ExecBranch(c2, branch, b).0 != Threw(STARVED)
    ensures ExecBranch(c1, branch, a).0 == ExecBranch(c2, branch, b).0
    ensures Paired(c1, c2, ExecBranch(c1, branch, a).1, ExecBranch(c2, branch, b).1)
    decreases 2 * Room(b) + 1, branch, 0
  {
    hide ExecBlock;
    if branch.Branch? { SliceBlock(c1, c2, branch.body, a, b); }
  }

  lemma {:induction false} SliceCases(c1: Cfg, c2: Cfg, arms: Arms, i: nat, v: Value, a: St, b: St)
    requires i <= |arms.cases|
    requires Paired(c1, c2, a, b)
    requires c1 == c2 || ExecCases(c2, arms, i, v, b).0 != Threw(STARVED)
    ensures ExecCases(c1, arms, i, v, a).0 == ExecCases(c2, arms, i, v, b).0
    ensures Paired(c1, c2, ExecCases(c1, arms, i, v, a).1, ExecCases(c2, arms, i, v, b).1)
    decreases 2 * Room(b) + 1, arms, 1, |arms.cases| - i
  {
    hide Eval, ExecBranch, ExecFall;
    if i == |arms.cases| {
      SliceBranch(c1, c2, arms.default, a, b);
    } else {
      var guard := arms.cases[i].guard;
      SliceEval(c1, c2, guard, a, b);
      var a1 := Eval(c1, guard, a).1;
      var (r, b1) := Eval(c2, guard, b);
      if r.Val? {
        if SwitchEq(c2.env, b1.core.heap, v, r.v) {
          SliceFall(c1, c2, arms, i, a1, b1);
        } else {
          SliceCases(c1, c2, arms, i + 1, v, a1, b1);
        }
      }
    }
  }

  lemma {:induction false} SliceFall(c1: Cfg, c2: Cfg, arms: Arms, i: nat, a: St, b: St)
    requires i <= |arms.cases|
    requires Paired(c1, c2, a, b)
    requires c1 == c2 || ExecFall(c2, arms, i, b).0 != Threw(STARVED)
    ensures ExecFall(c1, arms, i, a).0 == ExecFall(c2, arms, i, b).0
    ensures Paired(c1, c2, ExecFall(c1, arms, i, a).1, ExecFall(c2, arms, i, b).1)
    decreases 2 * Room(b) + 1, arms, 0, |arms.cases| - i
  {
    hide ExecBranch, ExecBlock;
    if i == |arms.cases| {
      SliceBranch(c1, c2, arms.default, a, b);
    } else {
      SliceBlock(c1, c2, arms.cases[i].body, a, b);
      var (o, b1) := ExecBlock(c2, arms.cases[i].body, b);
      if o.Normal? { SliceFall(c1, c2, arms, i + 1, ExecBlock(c1, arms.cases[i].body, a).1, b1); }
    }
  }

  lemma {:induction false} SliceHook(c1: Cfg, c2: Cfg, hook: Option<Stmt>, a: St, b: St)
    requires Paired(c1, c2, a, b)
    requires c1 == c2 || ExecHook(c2, hook, b).0 != Threw(STARVED)
    ensures ExecHook(c1, hook, a).0 == ExecHook(c2, hook, b).0
    ensures Paired(c1, c2, ExecHook(c1, hook, a).1, ExecHook(c2, hook, b).1)
    decreases 2 * Room(b) + 1, hook, 4
  {
    hide Exec;
    if hook.Some? { SliceExec(c1, c2, hook.value, a, b); }
  }

  lemma {:induction false} SliceWhile(c1: Cfg, c2: Cfg, s: Stmt, it: nat, a: St, b: St)
    requires s.While?
    requires Paired(c1, c2, a, b)
    requires c1 == c2 || ExecWhile(c2, s, it, b).0 != Threw(STARVED)
    ensures ExecWhile(c1, s, it, a).0 == ExecWhile(c2, s, it, b).0
    ensures Paired(c1, c2, ExecWhile(c1, s, it, a).1, ExecWhile(c2, s, it, b).1)
    decreases 2 * Room(b) + 1, s, 1, 2 * (MAX_LOOP_ITERATIONS - it) + 1
  {
    hide Eval, WhileRound;
    if it < MAX_LOOP_ITERATIONS {
      SliceEval(c1, c2, s.test, a, b);
      var a1 := Eval(c1, s.test, a).1;
      var (r, b1) := Eval(c2, s.test, b);
      if r.Exc? {
      } else if !Truthy(r.v) {
      } else if LoopTick(c2, b1).Some? {
        SliceWhileRound(c1, c2, s, it, LoopTick(c1, a1).value, LoopTick(c2, b1).value);
      }
    }
  }

  lemma {:induction false} SliceWhileRound(c1: Cfg, c2: Cfg, s: Stmt, it: nat, a: St, b: St)
    requires s.While? && it < MAX_LOOP_ITERATIONS
    requires Paired(c1, c2, a, b)
    requires c1 == c2 || WhileRound(c2, s, it, b).0 != Threw(STARVED)
    ensures WhileRound(c1, s, it, a).0 == WhileRound(c2, s, it, b).0
    ensures Paired(c1, c2, WhileRound(c1, s, it, a).1, WhileRound(c2, s, it, b).1)
    decreases 2 * Room(b) + 1, s, 1, 2 * (MAX_LOOP_ITERATIONS - it)
  {
    hide ExecBlock, ExecWhile;
    SliceBlock(c1, c2, s.body, a, b);
    var (o, b1) := ExecBlock(c2, s.body, b);
    if Continues(o) { SliceWhile(c1, c2, s, it + 1, ExecBlock(c1, s.body, a).1, b1); }
  }

  lemma {:induction false} SliceCheck(c1: Cfg, c2: Cfg, check: Option<Expr>, a: St, b: St)
    requires Paired(c1, c2, a, b)
    requires c1 == c2 || EvalCheck(c2, check, b).0 != Exc(STARVED)
    ensures EvalCheck(c1, check, a).0 == EvalCheck(c2, check, b).0
    ensures Paired(c1, c2, EvalCheck(c1, check, a).1, EvalCheck(c2, check, b).1)
    decreases 2 * Room(b) + 1, check, 4
  {
    hide Eval;
    if check.Some? { SliceEval(c1, c2, check.value, a, b); }
  }

  lemma {:induction false} SliceFor(c1: Cfg, c2: Cfg, s: Stmt, it: nat, a: St, b: St)
    requires s.For?
    requires Paired(c1, c2, a, b)
    requires c1 == c2 || ExecFor(c2, s, it, b).0 != Threw(STARVED)
    ensures ExecFor(c1, s, it, a).0 == ExecFor(c2, s, it, b).0
    ensures Paired(c1, c2, ExecFor(c1, s, it, a).1, ExecFor(c2, s, it, b).1)
    decreases 2 * Room(b) + 1, s, 1, 2 * (MAX_LOOP_ITERATIONS - it) + 1
  {
    hide EvalCheck, ForRound;
    if it < MAX_LOOP_ITERATIONS {
      SliceCheck(c1, c2, s.check, a, b);
      var a1 := EvalCheck(c1, s.check, a).1;
      var (r, b1) := EvalCheck(c2, s.check, b);
      if r.Exc? {
      } else if !Truthy(r.v) {
      } else if LoopTick(c2, b1).Some? {
        SliceForRound(c1, c2, s, it, LoopTick(c1, a1).value, LoopTick(c2, b1).value);
      }
    }
  }

  lemma {:induction false} SliceForRound(c1: Cfg, c2: Cfg, s: Stmt, it: nat, a: St, b: St)
    requires s.For? && it < MAX_LOOP_ITERATIONS
    requires Paired(c1, c2, a, b)
    requires c1 == c2 || ForRound(c2, s, it, b).0 != Threw(STARVED)
    ensures ForRound(c1, s, it, a).0 == ForRound(c2, s, it, b).0
    ensures Paired(c1, c2, ForRound(c1, s, it, a).1, ForRound(c2, s, it, b).1)
    decreases 2 * Room(b) + 1, s, 1, 2 * (MAX_LOOP_ITERATIONS - it)
  {
    hide ExecBlock, ExecHook, ExecFor;
    SliceBlock(c1, c2, s.body, a, b);
    var a1 := ExecBlock(c1, s.body, a).1;
    var (o, b1) := ExecBlock(c2, s.body, b);
    if Continues(o) {
      SliceHook(c1, c2, s.post, a1, b1);
      var (o2, b2) := ExecHook(c2, s.post, b1);
      if o2.Normal? { SliceFor(c1, c2, s, it + 1, ExecHook(c1, s.post, a1).1, b2); }
    }
  }

  lemma {:induction false} SliceTop(c1: Cfg, c2: Cfg, program: seq<Stmt>, a: St, b: St)
    requires Paired(c1, c2, a, b)
    requires c1 == c2 || ExecTop(c2, program, b).0 != Threw(STARVED)
    ensures ExecTop(c1, program, a).0 == ExecTop(c2, program, b).0
    ensures Paired(c1, c2, ExecTop(c1, program, a).1, ExecTop(c2, program, b).1)
    decreases |program|
  {
    hide Exec;
    if program != [] {
      if program[0].FuncDef? {
        SliceTop(c1, c2, program[1..], a, b);
      } else {
        SliceExec(c1, c2, program[0], a, b);
        var (o, b1) := Exec(c2, program[0], b);
        if Swallow(o).Normal? { SliceTop(c1, c2, program[1..], Exec(c1, program[0], a).1, b1); }
      }
    }
  }

  /** An event run in slices under `c1` and whole under `c2`. */
  lemma {:induction false} SliceEvent(c1: Cfg, c2: Cfg, program: seq<Stmt>, event: string, a: St, b: St)
    requires Paired(c1, c2, a, b)
    requires c1 == c2 || RunEvent(c2, program, event, b).0 != Threw(STARVED)
    ensures RunEvent(c1, program, event, a).0 == RunEvent(c2, program, event, b).0
    ensures Paired(c1, c2, RunEvent(c1, program, event, a).1, RunEvent(c2, program, event, b).1)
  {
    hide ExecTop, CallUser;
    var core := Prologue(program, event, b.core);
    SliceTop(c1, c2, program, WithCore(a, core), WithCore(b, core));
    var a1 := ExecTop(c1, program, WithCore(a, core)).1;
    var (o, b1) := ExecTop(c2, program, WithCore(b, core));
    if o.Normal? {
      var (call, core1) := EventCall(c2, event, b1.core);
      if call.Some? {
        SliceUser(c1, c2, call.value.0, call.value.1, WithCore(a1, core1), WithCore(b1, core1));
      }
    }
  }
}

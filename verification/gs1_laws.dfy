/** What GS1 expressions and assignments mean, in terms of simpler ones and of numbers: laws of
    the interpreter (reborn_protocol/gs1/interp.py) that a script can observe. */
module Gs1Laws {
  import opened Gs1Ast
  import opened Gs1Runtime
  import opened Gs1Exec
  import opened Gs1Binding

  // ------------------------------------------------------------- truth and choice

  /** The truth a script sees: numbers have none. */
  predicate Holds(v: Value) { v == BoolV(true) || (v.StrV? && v.s != "") }

  /** A condition is evaluated once, and only the chosen side runs. */
  lemma TernaryChooses(c: Cfg, x: Expr, a: Expr, b: Expr, st: St)
    requires Eval(c, x, st).0.Val?
    ensures var (r, st1) := Eval(c, x, st);
            Eval(c, Ternary(x, a, b), st) == if Holds(r.v) then Eval(c, a, st1) else Eval(c, b, st1)
  {
    hide Eval;
    assert Eval(c, Ternary(x, a, b), st) == EvalTernary(c, x, a, b, st) by { TernaryForm(c, x, a, b, st); }
  }

  lemma TernaryForm(c: Cfg, x: Expr, a: Expr, b: Expr, st: St)
    ensures Eval(c, Ternary(x, a, b), st) == EvalTernary(c, x, a, b, st)
  {
  }

  lemma IfChooses(c: Cfg, x: Expr, a: seq<Stmt>, els: Branch, st: St)
    requires Eval(c, x, st).0.Val?
    ensures var (r, st1) := Eval(c, x, st);
            ExecBody(c, If(x, a, els), st) ==
              if Holds(r.v) then ExecBlock(c, a, st1)
              else if els.Branch? then ExecBlock(c, els.body, st1) else (Normal, st1)
  {
    hide Eval, ExecBlock;
    assert ExecBody(c, If(x, a, els), st) == ExecIf(c, If(x, a, els), st);
  }

  lemma BinaryForm(c: Cfg, op: BinOp, x: Expr, y: Expr, st: St)
    ensures Eval(c, Binary(op, x, y), st) == EvalBinary(c, op, x, y, st)
  {
  }

  lemma BoolForm(c: Cfg, b: bool, st: St)
    ensures Eval(c, Bool(b), st) == (Val(BoolV(b)), st)
  {
  }

  lemma NumForm(c: Cfg, n: real, st: St)
    ensures Eval(c, Num(n), st) == (Val(NumV(n)), st)
  {
  }

  /** `x && y` and `x || y` are conditionals: the right side runs only when the left one leaves
      the answer open, and the answer is true or false. */
  lemma LogicIsConditional(c: Cfg, x: Expr, y: Expr, st: St)
    ensures Eval(c, Binary(LogicAnd, x, y), st)
            == Eval(c, Ternary(x, Ternary(y, Bool(true), Bool(false)), Bool(false)), st)
    ensures Eval(c, Binary(LogicOr, x, y), st)
            == Eval(c, Ternary(x, Bool(true), Ternary(y, Bool(true), Bool(false))), st)
  {
    hide Eval, StrictBinary;
    var yes, no, test := Bool(true), Bool(false), Ternary(y, Bool(true), Bool(false));
    BinaryForm(c, LogicAnd, x, y, st);
    BinaryForm(c, LogicOr, x, y, st);
    TernaryForm(c, x, test, no, st);
    TernaryForm(c, x, yes, test, st);
    var (r, st1) := Eval(c, x, st);
    if r.Val? {
      TernaryForm(c, y, yes, no, st1);
      BoolForm(c, true, st1);
      BoolForm(c, false, st1);
      var (s, st2) := Eval(c, y, st1);
      BoolForm(c, true, st2);
      BoolForm(c, false, st2);
    }
  }

  // ------------------------------------------------------------- numbers

  /** The operators on two numbers. */
  lemma NumbersCompare(c: Cfg, x: real, y: real, st: St)
    ensures Eval(c, Binary(Less, Num(x), Num(y)), st) == (Val(BoolV(x < y)), st)
    ensures Eval(c, Binary(Greater, Num(x), Num(y)), st) == (Val(BoolV(y < x)), st)
    ensures Eval(c, Binary(LessEq, Num(x), Num(y)), st) == (Val(BoolV(x <= y)), st)
    ensures Eval(c, Binary(GreaterEq, Num(x), Num(y)), st) == (Val(BoolV(y <= x)), st)
    ensures Eval(c, Binary(Equal, Num(x), Num(y)), st) == (Val(BoolV(-0.0001 < x - y < 0.0001)), st)
    ensures Eval(c, Binary(NotEqual, Num(x), Num(y)), st) == (Val(BoolV(!(-0.0001 < x - y < 0.0001))), st)
  {
    hide Eval;
    OnNumbers(c, Less, x, y, st);
    OnNumbers(c, Greater, x, y, st);
    OnNumbers(c, LessEq, x, y, st);
    OnNumbers(c, GreaterEq, x, y, st);
    OnNumbers(c, Equal, x, y, st);
    OnNumbers(c, NotEqual, x, y, st);
  }

  lemma OnNumbers(c: Cfg, op: BinOp, x: real, y: real, st: St)
    requires !op.LogicAnd? && !op.LogicOr?
    ensures Eval(c, Binary(op, Num(x), Num(y)), st)
            == (Val(StrictBinary(c.env, st.core.heap, op, NumV(x), NumV(y))), st)
  {
    hide Eval, StrictBinary;
    BinaryForm(c, op, Num(x), Num(y), st);
    NumForm(c, x, st);
    NumForm(c, y, st);
  }

  /** Arithmetic is that of doubles, but a division by nothing gives nothing. */
  lemma NumbersCalculate(c: Cfg, x: real, y: real, st: St)
    ensures Eval(c, Binary(Add, Num(x), Num(y)), st) == (Val(NumV(c.env.arith(Add, x, y))), st)
    ensures Eval(c, Binary(Sub, Num(x), Num(y)), st) == (Val(NumV(c.env.arith(Sub, x, y))), st)
    ensures Eval(c, Binary(Mul, Num(x), Num(y)), st) == (Val(NumV(c.env.arith(Mul, x, y))), st)
    ensures Eval(c, Binary(Pow, Num(x), Num(y)), st) == (Val(NumV(c.env.arith(Pow, x, y))), st)
    ensures Eval(c, Binary(Div, Num(x), Num(y)), st)
            == (Val(NumV(if y == 0.0 then 0.0 else c.env.arith(Div, x, y))), st)
  {
    hide Eval;
    OnNumbers(c, Add, x, y, st);
    OnNumbers(c, Sub, x, y, st);
    OnNumbers(c, Mul, x, y, st);
    OnNumbers(c, Pow, x, y, st);
    OnNumbers(c, Div, x, y, st);
  }

  /** The whole number next to `x` on the side of nothing. */
  predicate WholePart(x: real, m: int) {
    if x >= 0.0 then m as real <= x < m as real + 1.0 else m as real - 1.0 < x <= m as real
  }

  /** A remainder is of the whole parts, and of nothing it is nothing. */
  lemma RemainderIsWhole(c: Cfg, x: real, y: real, m: int, n: int, st: St)
    requires WholePart(x, m) && WholePart(y, n)
    ensures Eval(c, Binary(Mod, Num(x), Num(y)), st)
            == (Val(NumV(if n == 0 then 0.0 else c.env.fmod(m, n))), st)
  {
    hide Eval;
    OnNumbers(c, Mod, x, y, st);
    WholeTrunc(x, m);
    WholeTrunc(y, n);
  }

  /** Signs, and the negation, true of just the numbers next to nothing. */
  lemma SignsOfNumbers(c: Cfg, x: real, st: St)
    ensures Eval(c, Unary(Neg, Num(x)), st) == (Val(NumV(-x)), st)
    ensures Eval(c, Unary(Pos, Num(x)), st) == (Val(NumV(x)), st)
    ensures Eval(c, Unary(Not, Num(x)), st)
            == (Val(BoolV(-0.0000000000000002220446049250313 < x < 0.0000000000000002220446049250313)), st)
  {
    hide Eval;
    UnaryForm(c, Neg, x, st);
    UnaryForm(c, Pos, x, st);
    UnaryForm(c, Not, x, st);
  }

  lemma UnaryForm(c: Cfg, op: UnaryOp, z: real, st: St)
    ensures Eval(c, Unary(op, Num(z)), st) == (Val(UnaryValue(st.core.heap, op, NumV(z))), st)
  {
    NumForm(c, z, st);
    assert Eval(c, Unary(op, Num(z)), st) == EvalUnary(c, op, Num(z), st);
  }

  lemma WholeTrunc(x: real, m: int)
    requires WholePart(x, m)
    ensures Trunc(x) == m
  {
    if x < 0.0 { assert -(m as real) == (-m) as real; }
  }

  lemma StrForm(c: Cfg, s: string, st: St)
    ensures Eval(c, Str(s), st) == (Val(StrV(s)), st)
  {
  }

  /** `@` joins texts; anywhere else a text counts as nothing. */
  lemma TextInOperators(c: Cfg, s: string, t: string, y: real, st: St)
    ensures Eval(c, Binary(Concat, Str(s), Str(t)), st) == (Val(StrV(s + t)), st)
    ensures Eval(c, Binary(Less, Str(s), Num(y)), st) == (Val(BoolV(0.0 < y)), st)
    ensures Eval(c, Binary(Add, Num(y), Str(s)), st) == (Val(NumV(c.env.arith(Add, y, 0.0))), st)
  {
    hide Eval;
    BinaryForm(c, Concat, Str(s), Str(t), st);
    BinaryForm(c, Less, Str(s), Num(y), st);
    BinaryForm(c, Add, Num(y), Str(s), st);
    StrForm(c, s, st);
    StrForm(c, t, st);
    NumForm(c, y, st);
  }

  /** A truth counts as one and its absence as nothing, as a number and as text. */
  lemma TruthInOperators(c: Cfg, b: bool, t: string, y: real, st: St)
    ensures Eval(c, Binary(Concat, Bool(b), Str(t)), st) == (Val(StrV((if b then "1" else "0") + t)), st)
    ensures Eval(c, Binary(Add, Num(y), Bool(b)), st)
            == (Val(NumV(c.env.arith(Add, y, if b then 1.0 else 0.0))), st)
    ensures Eval(c, Binary(Less, Bool(b), Num(y)), st) == (Val(BoolV(if b then 1.0 < y else 0.0 < y)), st)
  {
    hide Eval;
    BinaryForm(c, Concat, Bool(b), Str(t), st);
    BinaryForm(c, Add, Num(y), Bool(b), st);
    BinaryForm(c, Less, Bool(b), Num(y), st);
    BoolForm(c, b, st);
    StrForm(c, t, st);
    NumForm(c, y, st);
  }

  // ------------------------------------------------------------- ranges

  lemma {:induction false} NumsForm(c: Cfg, xs: seq<real>, st: St) returns (vs: seq<Value>)
    ensures |vs| == |xs| && (forall k :: 0 <= k < |xs| ==> vs[k] == NumV(xs[k]))
    ensures EvalAll(c, Nums(xs), st) == (Vals(vs), st)
    decreases |xs|
  {
    if xs == [] {
      vs := [];
    } else {
      NumForm(c, xs[0], st);
      var rest := NumsForm(c, xs[1..], st);
      vs := [NumV(xs[0])] + rest;
      assert Nums(xs)[1..] == Nums(xs[1..]);
    }
  }

  function Nums(xs: seq<real>): (es: seq<Expr>)
    ensures |es| == |xs| && forall k :: 0 <= k < |xs| ==> es[k] == Num(xs[k])
  {
    seq(|xs|, k requires 0 <= k < |xs| => Num(xs[k]))
  }

  /** `in |lo,hi|`: every value lies between the bounds, whichever comes first; an open end
      leaves its bound out. */
  lemma RangeIsBetween(c: Cfg, xs: seq<real>, lo: real, hi: real, loIncl: bool, hiIncl: bool, st: St)
    ensures var inside := forall k :: 0 <= k < |xs| ==>
              && (if lo < hi then lo <= xs[k] <= hi else hi <= xs[k] <= lo)
              && (xs[k] == lo ==> loIncl) && (xs[k] == hi ==> hiIncl);
            Eval(c, InExpr(Nums(xs), Bounds(Num(lo), Num(hi), loIncl, hiIncl)), st) == (Val(BoolV(inside)), st)
  {
    hide Eval, EvalAll;
    var vs := NumsForm(c, xs, st);
    NumForm(c, lo, st);
    NumForm(c, hi, st);
    var e := InExpr(Nums(xs), Bounds(Num(lo), Num(hi), loIncl, hiIncl));
    InForm(c, Nums(xs), Bounds(Num(lo), Num(hi), loIncl, hiIncl), st);
    var heap := st.core.heap;
    assert AllInBounds(heap, vs, lo, hi, loIncl, hiIncl) <==>
           forall k :: 0 <= k < |vs| ==> InBounds(ArithNum(heap, vs[k]), lo, hi, loIncl, hiIncl);
    assert forall k :: 0 <= k < |vs| ==> ArithNum(heap, vs[k]) == xs[k];
  }

  lemma InForm(c: Cfg, vs: seq<Expr>, range: Range, st: St)
    ensures Eval(c, InExpr(vs, range), st) == EvalIn(c, vs, range, st)
  {
  }

  // ------------------------------------------------------------- assignments

  function OperatorOf(op: AssignOp): BinOp {
    match op
    case AddTo => Add
    case SubTo => Sub
    case MulTo => Mul
    case DivTo => Div
    case ModTo => Mod
    case PowTo => Pow
    case SetTo => Concat
  }

  predicate BareTimeout(ref: Ref) { |ref.parts| == 1 && ref.parts[0] == PathPart("timeout", []) }

  /** `x += n` is `x = x + n`, and so for the other five; only for the bare timer it is not the
      same, because that is erased by plain assignment alone. */
  lemma CompoundIsSpelledOut(c: Cfg, ref: Ref, op: AssignOp, n: real, st: St)
    requires !op.SetTo? && !BareTimeout(ref)
    ensures EvalAssign(c, Assignment(ref, op, Num(n)), st)
            == EvalAssign(c, Assignment(ref, SetTo, Binary(OperatorOf(op), VarRef(ref), Num(n))), st)
  {
    hide Eval, Fetch, Store;
    var sum := Binary(OperatorOf(op), VarRef(ref), Num(n));
    NumForm(c, n, st);
    BinaryForm(c, OperatorOf(op), VarRef(ref), Num(n), st);
    VarForm(c, ref, st);
    var (cur, st1) := Fetch(c, ref, st);
    NumForm(c, n, st1);
    if cur.Found? { Compounds(c, op, cur, n, st1); }
  }

  lemma VarForm(c: Cfg, ref: Ref, st: St)
    ensures Eval(c, VarRef(ref), st) == EvalVar(c, ref, st)
  {
  }

  lemma Compounds(c: Cfg, op: AssignOp, cur: Fetched, n: real, st: St)
    requires !op.SetTo? && cur.Found?
    ensures var v := StrictBinary(c.env, st.core.heap, OperatorOf(op), OrZero(cur.found), NumV(n));
            v.NumV? && v == Compound(c.env, st.core.heap, op, OrNone(cur.found), NumV(n))
  {
  }

  /** `x++` stores what `x += 1` stores and gives the number `x` was; `x--` likewise. */
  lemma PostfixIsCompound(c: Cfg, ref: Ref, op: PostfixOp, st: St)
    ensures var (x, st1) := EvalAssign(c, Assignment(ref, if op.Incr? then AddTo else SubTo, Num(1.0)), st);
            var (r, st2) := Eval(c, Postfix(op, VarRef(ref)), st);
            && st2 == st1 && (r.Exc? <==> x.Some?)
            && (r.Exc? ==> r.signal == x.value)
            && (r.Val? ==> r == Eval(c, Unary(Pos, VarRef(ref)), st).0)
  {
    hide Eval, Fetch, Store;
    NumForm(c, 1.0, st);
    VarForm(c, ref, st);
    PostfixForm(c, op, ref, st);
    PosForm(c, ref, st);
  }

  lemma PostfixForm(c: Cfg, op: PostfixOp, ref: Ref, st: St)
    ensures Eval(c, Postfix(op, VarRef(ref)), st) == EvalPostfix(c, op, VarRef(ref), st)
  {
  }

  lemma PosForm(c: Cfg, ref: Ref, st: St)
    ensures Eval(c, Unary(Pos, VarRef(ref)), st) == EvalUnary(c, Pos, VarRef(ref), st)
  {
  }

  /** An assignment used as a value is the assignment, and then the variable. */
  lemma ChainedIsAssignThenRead(c: Cfg, a: Assignment, st: St)
    ensures var (x, st1) := EvalAssign(c, a, st);
            Eval(c, AssignExpr(a), st) == if x.Some? then (Exc(x.value), st1) else Eval(c, VarRef(a.target), st1)
  {
    hide EvalAssign, EvalVar;
    assert Eval(c, AssignExpr(a), st) == EvalChained(c, a, st);
    if EvalAssign(c, a, st).0.None? { VarForm(c, a.target, EvalAssign(c, a, st).1); }
  }

  /** A plain assignment stores a number, or a truth or a list as it is. */
  function Stored(env: Env, heap: Heap, v: Value): Value {
    if v.ListV? || v.BoolV? then v else NumV(ToNum(env, heap, v))
  }

  lemma AssignForm(c: Cfg, a: Assignment, st: St)
    requires a.op.SetTo? && Eval(c, a.value, st).0.Val?
    ensures var (r, st1) := Eval(c, a.value, st);
            var st2 := if IsBareTimeout(a.target) then TimerWritten(st1) else st1;
            EvalAssign(c, a, st) == Store(c, a.target, CoerceAssigned(c.env, st2.core, SetTo, a.value, r.v), st2)
  {
    hide Eval, Store, CoerceAssigned, IsBareTimeout;
  }

  /** What an assignment keeps as text: joined text, what the two formatting functions give, and
      a choice with such a side. */
  predicate MakesText(e: Expr) {
    || (e.Binary? && e.binOp == Concat)
    || (e.Call? && (e.name == "format" || e.name == "_"))
    || (e.Ternary? && (MakesText(e.thenE) || MakesText(e.elseE)))
  }

  /** What a plain assignment of `e`, evaluated to `v`, stores; inside a `with` whose object has
      members of its own everything is kept as it is. */
  function Assigned(env: Env, core: Core, e: Expr, v: Value): Value {
    if MakesText(e) || (core.thisObj.HostObject? && core.thisObj.withMembers) then v
    else Stored(env, core.heap, v)
  }

  /** What is assigned is what is read back; no other variable changes. */
  lemma ReadBack(c: Cfg, ref: Ref, e: Expr, st: St)
    requires Unindexed(ref.parts) && SlotOf(ref).0 != Bare && Eval(c, e, st).0.Val?
    ensures var (r, st1) := Eval(c, e, st);
            var (x, st2) := EvalAssign(c, Assignment(ref, SetTo, e), st);
            && x == None
            && Eval(c, VarRef(ref), st2).0 == Val(Assigned(c.env, st1.core, e, r.v))
            && st2.core.heap == st1.core.heap
            && forall slot :: slot != SlotOf(ref) ==> Lookup(st2.core.vars, slot) == Lookup(st1.core.vars, slot)
  {
    hide Eval, Store, SlotOf, EvalAssign, Assigned, TimerWritten, Unindexed, Lookup, IsBareTimeout;
    var (r, st1) := Eval(c, e, st);
    var st2 := AssignStores(c, ref, e, st);
    WrittenReads(c, ref, Assigned(c.env, st1.core, e, r.v), st2);
  }

  /** A plain assignment stores what it makes of the value, in a state with the store as it was. */
  lemma AssignStores(c: Cfg, ref: Ref, e: Expr, st: St) returns (st2: St)
    requires Eval(c, e, st).0.Val?
    ensures var (r, st1) := Eval(c, e, st);
            && EvalAssign(c, Assignment(ref, SetTo, e), st)
               == Store(c, ref, Assigned(c.env, st1.core, e, r.v), st2)
            && st2.core.vars == st1.core.vars && st2.core.heap == st1.core.heap
  {
    hide Eval, Store, EvalAssign, IsBareTimeout, MakesText, Stored, CoerceAssigned, TimerWritten;
    var (r, st1) := Eval(c, e, st);
    SameStore(st1, ref);
    AssignForm(c, Assignment(ref, SetTo, e), st);
    st2 := if IsBareTimeout(ref) then TimerWritten(st1) else st1;
    StoredAs(c.env, st2.core, e, r.v);
  }

  lemma SameStore(st: St, ref: Ref)
    ensures TimerWritten(st).core.vars == st.core.vars && TimerWritten(st).core.heap == st.core.heap
    ensures TimerWritten(st).core.thisObj == st.core.thisObj
  {
  }

  lemma WrittenReads(c: Cfg, ref: Ref, v: Value, st: St)
    requires Unindexed(ref.parts) && SlotOf(ref).0 != Bare
    ensures var (x, st1) := Store(c, ref, v, st);
            && x == None && Eval(c, VarRef(ref), st1).0 == Val(v) && st1.core.heap == st.core.heap
            && forall slot :: slot != SlotOf(ref) ==> Lookup(st1.core.vars, slot) == Lookup(st.core.vars, slot)
  {
    hide Eval, Store, SlotOf;
    StorePuts(c, ref, v, st);
    ReadGives(c, ref, Store(c, ref, v, st).1);
  }

  lemma StoredAs(env: Env, core: Core, e: Expr, v: Value)
    ensures CoerceAssigned(env, core, SetTo, e, v) == Assigned(env, core, e, v)
  {
    hide ToNum, AssignsString, MakesText;
    SameMakers(e);
  }

  lemma {:induction false} SameMakers(e: Expr)
    ensures MakesText(e) <==> AssignsString(e)
  {
    if e.Ternary? {
      SameMakers(e.thenE);
      SameMakers(e.elseE);
    }
  }
}

/** The GS1 syntax tree (reborn_protocol/gs1/ast.py), as far as the executor and
    the expression parser need it. Path parts are static names; a part carries the
    index expressions written directly after it. */
module Gs1Ast {

  datatype Option<+T> = None | Some(value: T)

  datatype UnaryOp = Neg | Pos | Not

  datatype BinOp =
    | LogicOr | LogicAnd
    | Equal | NotEqual
    | Less | Greater | LessEq | GreaterEq
    | Concat
    | Add | Sub | Mul | Div | Mod | Pow

  datatype PostfixOp = Incr | Decr

  datatype AssignOp = SetTo | AddTo | SubTo | MulTo | DivTo | ModTo | PowTo

  datatype PathPart = PathPart(name: string, index: seq<Expr>)

  /** A variable reference; `target` of an assignment. */
  datatype Ref = Ref(parts: seq<PathPart>)

  datatype Assignment = Assignment(target: Ref, op: AssignOp, value: Expr)

  datatype Expr =
    | Num(number: real)
    | Bool(flag: bool)
    | Str(text: string)
    | SpecialLit(literal: string)
    | VarRef(ref: Ref)
    | ArrayLit(elements: seq<Expr>)
    | Unary(unaryOp: UnaryOp, operand: Expr)
    | Binary(binOp: BinOp, left: Expr, right: Expr)
    | Ternary(cond: Expr, thenE: Expr, elseE: Expr)
    | Postfix(postfixOp: PostfixOp, base: Expr)
    | InExpr(values: seq<Expr>, range: Range)
    | Call(name: string, args: seq<Expr>)
    | MessageCode(code: string, codeArgs: seq<Expr>)
    | StrConcat(pieces: seq<Expr>)
    | AssignExpr(assignment: Assignment)

  /** The right side of `in`: `|lo,hi|` with open or closed ends, or a list. */
  datatype Range =
    | Bounds(lo: Expr, hi: Expr, loIncl: bool, hiIncl: bool)
    | Members(list: Expr)

  datatype FlowKind = BreakFlow | ContinueFlow | ReturnFlow

  datatype Case = Case(guard: Expr, body: seq<Stmt>)

  /** A statement list that may be absent. */
  datatype Branch = NoBranch | Branch(body: seq<Stmt>)

  datatype Arms = Arms(cases: seq<Case>, default: Branch)

  datatype Stmt =
    | If(cond: Expr, thenB: seq<Stmt>, elseB: Branch)
    | Block(body: seq<Stmt>)
    | Switch(value: Expr, arms: Arms)
    | While(test: Expr, body: seq<Stmt>)
    | For(init: Option<Stmt>, check: Option<Expr>, post: Option<Stmt>, body: seq<Stmt>)
    | With(subject: Expr, body: seq<Stmt>)
    | UserCall(callee: string, args: seq<Expr>)
    | Sleep(args: seq<Expr>)
    | Command(command: string, args: seq<Expr>)
    | Assign(assignment: Assignment)
    | ExprStmt(expr: Option<Expr>)
    | FuncDef(name: string, params: seq<string>, body: seq<Stmt>)
    | Flow(kind: FlowKind)
}

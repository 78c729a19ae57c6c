/** Tokens and syntax trees of the GS1 parser (reborn_protocol/gs1/lexer.py, ast.py). */
module Gs1Syntax {

  datatype Option<+T> = None | Some(value: T)

  datatype Kind =
    | Eof | End
    | Identifier | Literal | StringPart | MessageCode | RawMessageCode | Function | CommandName
    | AllFeatures | AllStats | Item | Carry | Direction | Gender | Color | Baddy
    | KwIf | KwElse | KwElseIf | KwFor | KwWhile | KwWith | KwSwitch | KwFunction
    | KwReturn | KwBreak | KwContinue
    | BraceLeft | BraceRight | ParenLeft | ParenRight | BracketLeft | BracketRight
    | Comma | Pipe | Question | Colon | Period
    | OpAssign | OpAssignAdd | OpAssignSub | OpAssignMul | OpAssignDiv | OpAssignMod | OpAssignPow
    | OpOr | OpAnd | OpEqual | OpNotEq
    | OpLess | OpGreat | OpLessEq | OpGreatEq
    | OpConcat | OpAdd | OpSub | OpMul | OpDiv | OpMod | OpPow
    | OpNot | OpInc | OpDec | OpIn

  datatype Token = Token(kind: Kind, text: string)

  /** The kind at `i`; past the end it is the end of file, as `peek` has it. */
  function KindAt(t: seq<Token>, i: nat): Kind { if i < |t| then t[i].kind else Eof }

  function TextAt(t: seq<Token>, i: nat): string { if i < |t| then t[i].text else "" }

  /** `next`: the end of file is never passed. */
  function Past(t: seq<Token>, i: nat): nat { if KindAt(t, i).Eof? then i else i + 1 }

  /** A segment of a dotted path: its name when static, the atoms it was written with, its
      index expressions. */
  datatype Part = Part(name: string, index: seq<Node>, atoms: seq<Node>)

  /** Expressions. A literal keeps its token's text. */
  datatype Node =
    | Lit(text: string)
    | Str(text: string)
    | SpecialLit(kind: Kind, text: string)
    | VarRef(parts: seq<Part>)
    | ArrayLit(elements: seq<Node>)
    | Unary(op: string, operand: Node)
    | Binary(op: string, left: Node, right: Node)
    | Ternary(cond: Node, a: Node, b: Node)
    | Postfix(op: string, operand: Node)
    | InExpr(values: seq<Node>, rng: Node)
    | RangeLit(lo: Node, hi: Node, loIncl: bool, hiIncl: bool)
    | Call(name: string, args: seq<Node>)
    | MethodCall(base: Node, name: string, args: seq<Node>)
    | Message(code: string, args: seq<Node>)
    | StrConcat(pieces: seq<Node>)
    | AssignNode(target: Node, op: string, value: Node)

  datatype Case = Case(guard: Node, body: seq<Stmt>)

  /** A body that may be absent. */
  datatype Branch = NoBranch | Branch(body: seq<Stmt>)

  datatype Stmt =
    | If(cond: Node, thenB: seq<Stmt>, els: Branch)
    | Block(body: seq<Stmt>)
    | For(init: Option<Stmt>, check: Option<Node>, post: Option<Stmt>, body: seq<Stmt>)
    | While(cond: Node, body: seq<Stmt>)
    | With(subject: Node, body: seq<Stmt>)
    | Switch(value: Node, cases: seq<Case>, default: Branch)
    | FuncDef(name: string, body: seq<Stmt>, params: seq<string>)
    | Flow(flow: Kind)
    | Command(name: string, args: seq<Node>)
    | UserCall(name: string, args: seq<Node>)
    | Assign(target: Node, op: string, value: Node)
    | ExprStmt(expr: Option<Node>)
}

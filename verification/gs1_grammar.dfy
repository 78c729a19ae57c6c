/** The expression grammar (parse_expression to parse_primary in
    reborn_protocol/gs1/parser.py) as functions from a position to an outcome. The levels of
    the ladder are numbered by how tightly they bind:

      0 ternary   1 ||   2 &&   3 equality   4 relational   5 @   6 + -   7 * /   8 %
      9 in   10 ^   11 unary   12 postfix   13 primary */
module Gs1Grammar {
  import opened Gs1Syntax

  /** A tree and where its tokens end; a ParseError with the cursor where it was raised; or
      a loop that came round to the very state it was in, and so never ends. */
  datatype Outcome<+T> = Parsed(tree: T, at: nat) | Failed(at: nat) | Hung(at: nat) {
    function Fail<U>(): Outcome<U>
      requires !Parsed?
    {
      if Failed? then Failed(at) else Hung(at)
    }
  }

  /** The cursor only moves forwards, and never over the end of file. */
  predicate Moved(t: seq<Token>, i: nat, at: nat) {
    i <= at && (at > i ==> KindAt(t, at - 1) != Eof)
  }

  /** The level whose operator this is; 0 for anything else. */
  function OpLevel(k: Kind): nat {
    match k
    case OpOr => 1
    case OpAnd => 2
    case OpEqual => 3
    case OpAssign => 3
    case OpNotEq => 3
    case OpLess => 4
    case OpGreat => 4
    case OpLessEq => 4
    case OpGreatEq => 4
    case OpConcat => 5
    case OpAdd => 6
    case OpSub => 6
    case OpMul => 7
    case OpDiv => 7
    case OpMod => 8
    case OpPow => 10
    case _ => 0
  }

  predicate Chains(level: nat) { level in {1, 2, 5, 6, 7, 8, 10} }

  /** What the tree records for an operator: five levels write their own. */
  function OpText(level: nat, text: string): string {
    if level == 1 then "||"
    else if level == 2 then "&&"
    else if level == 5 then "@"
    else if level == 8 then "%"
    else if level == 10 then "^"
    else text
  }

  predicate UnaryKind(k: Kind) { k.OpAdd? || k.OpSub? || k.OpNot? }

  predicate StringKind(k: Kind) { k.StringPart? || k.MessageCode? || k.RawMessageCode? }

  /** Whether a path stops here because a case label's colon has been reached. */
  predicate LabelColon(t: seq<Token>, i: nat, inLabel: bool) {
    inLabel && KindAt(t, i).Identifier? && TextAt(t, i) == ":"
  }

  /** The ladder from `level` down. `inLabel` is set while a case label is parsed. */
  function Parse(level: nat, t: seq<Token>, i: nat, inLabel: bool): (r: Outcome<Node>)
    requires level <= 13
    ensures Moved(t, i, r.at)
    ensures r.Parsed? && r.at == i ==> LabelColon(t, i, inLabel)
    ensures r.Hung? ==> LabelColon(t, r.at, inLabel)
    decreases |t| - i, 3 * (14 - level) + 12
  {
    if level == 0 then Expression(t, i, inLabel)
    else if Chains(level) then Chain(level, t, i, inLabel)
    else if level == 9 then In(t, i, inLabel)
    else if level == 11 then UnaryLevel(t, i, inLabel)
    else if level == 12 then PostfixLevel(t, i, inLabel)
    else if level == 13 then Primary(t, i, inLabel)
    else OneOp(level, t, i, inLabel)
  }

  /** The rule of each level. */
  lemma RuleOf(level: nat, t: seq<Token>, i: nat, inLabel: bool)
    requires level <= 13
    ensures Parse(level, t, i, inLabel) ==
              if level == 0 then Expression(t, i, inLabel)
              else if Chains(level) then Chain(level, t, i, inLabel)
              else if level == 9 then In(t, i, inLabel)
              else if level == 11 then UnaryLevel(t, i, inLabel)
              else if level == 12 then PostfixLevel(t, i, inLabel)
              else if level == 13 then Primary(t, i, inLabel)
              else OneOp(level, t, i, inLabel)
  {
    hide Expression, Chain, In, UnaryLevel, PostfixLevel, Primary, OneOp;
  }

  /** parse_expression */
  function Expression(t: seq<Token>, i: nat, inLabel: bool): (r: Outcome<Node>)
    ensures Moved(t, i, r.at)
    ensures r.Parsed? && r.at == i ==> LabelColon(t, i, inLabel)
    ensures r.Hung? ==> LabelColon(t, r.at, inLabel)
    decreases |t| - i, 53
  {
    var node := Parse(1, t, i, inLabel);
    if !node.Parsed? then node else Ternaries(t, node.tree, node.at, inLabel)
  }

  function Ternaries(t: seq<Token>, node: Node, i: nat, inLabel: bool): (r: Outcome<Node>)
    ensures Moved(t, i, r.at)
    ensures r.Hung? ==> LabelColon(t, r.at, inLabel)
    decreases |t| - i, 52
  {
    if !KindAt(t, i).Question? then Parsed(node, i)
    else
      var a := Parse(0, t, i + 1, inLabel);
      if !a.Parsed? then a
      else if !KindAt(t, a.at).Colon? then Failed(a.at)
      else
        var b := Parse(0, t, a.at + 1, inLabel);
        if !b.Parsed? then b else Ternaries(t, Ternary(node, a.tree, b.tree), b.at, inLabel)
  }

  /** parse_logic_or, parse_logic_and, parse_concat, parse_additive, parse_multiplicative,
      parse_mod and parse_exponent: operands of the next level, grouped to the left. */
  function Chain(level: nat, t: seq<Token>, i: nat, inLabel: bool): (r: Outcome<Node>)
    requires Chains(level)
    ensures Moved(t, i, r.at)
    ensures r.Parsed? && r.at == i ==> LabelColon(t, i, inLabel)
    ensures r.Hung? ==> LabelColon(t, r.at, inLabel)
    decreases |t| - i, 3 * (14 - level) + 11
  {
    var node := Parse(level + 1, t, i, inLabel);
    if !node.Parsed? then node else Rest(level, t, node.tree, node.at, inLabel)
  }

  function Rest(level: nat, t: seq<Token>, node: Node, i: nat, inLabel: bool): (r: Outcome<Node>)
    requires Chains(level)
    ensures Moved(t, i, r.at)
    ensures r.Hung? ==> LabelColon(t, r.at, inLabel)
    decreases |t| - i, 3 * (14 - level) + 10
  {
    if OpLevel(KindAt(t, i)) != level then Parsed(node, i)
    else
      var right := Parse(level + 1, t, i + 1, inLabel);
      if !right.Parsed? then right
      else Rest(level, t, Binary(OpText(level, TextAt(t, i)), node, right.tree), right.at, inLabel)
  }

  /** parse_equality and parse_relational: at most one operator. */
  function OneOp(level: nat, t: seq<Token>, i: nat, inLabel: bool): (r: Outcome<Node>)
    requires level == 3 || level == 4
    ensures Moved(t, i, r.at)
    ensures r.Parsed? && r.at == i ==> LabelColon(t, i, inLabel)
    ensures r.Hung? ==> LabelColon(t, r.at, inLabel)
    decreases |t| - i, 3 * (14 - level) + 11
  {
    var node := Parse(level + 1, t, i, inLabel);
    if !node.Parsed? || OpLevel(KindAt(t, node.at)) != level then node
    else
      var right := Parse(level + 1, t, node.at + 1, inLabel);
      if !right.Parsed? then right
      else Parsed(Binary(TextAt(t, node.at), node.tree, right.tree), right.at)
  }

  /** parse_in: the commas are taken only if an `in` follows them. */
  function In(t: seq<Token>, i: nat, inLabel: bool): (r: Outcome<Node>)
    ensures Moved(t, i, r.at)
    ensures r.Parsed? && r.at == i ==> LabelColon(t, i, inLabel)
    ensures r.Hung? ==> LabelColon(t, r.at, inLabel)
    decreases |t| - i, 26
  {
    var node := Parse(10, t, i, inLabel);
    if !node.Parsed? then node
    else
      var list := Values(t, [node.tree], node.at, inLabel);
      if list.Hung? then Hung(list.at)
      else if list.Failed? || !KindAt(t, list.at).OpIn? then node
      else
        var at := list.at + 1;
        var rng := if KindAt(t, at).Pipe? || KindAt(t, at).OpLess? then Range(t, at, inLabel)
                   else Parse(13, t, at, inLabel);
        if !rng.Parsed? then rng else Parsed(InExpr(list.tree, rng.tree), rng.at)
  }

  function Values(t: seq<Token>, values: seq<Node>, i: nat, inLabel: bool): (r: Outcome<seq<Node>>)
    ensures Moved(t, i, r.at)
    ensures r.Hung? ==> LabelColon(t, r.at, inLabel)
    decreases |t| - i, 25
  {
    if !KindAt(t, i).Comma? then Parsed(values, i)
    else
      var e := Parse(10, t, i + 1, inLabel);
      if !e.Parsed? then e.Fail() else Values(t, values + [e.tree], e.at, inLabel)
  }

  /** parse_range, from its opening token. */
  function Range(t: seq<Token>, i: nat, inLabel: bool): (r: Outcome<Node>)
    requires KindAt(t, i).Pipe? || KindAt(t, i).OpLess?
    ensures Moved(t, i, r.at)
    ensures r.Hung? ==> LabelColon(t, r.at, inLabel)
    decreases |t| - i, 60
  {
    var lo := Parse(6, t, i + 1, inLabel);
    if !lo.Parsed? then lo
    else if !KindAt(t, lo.at).Comma? then Failed(lo.at)
    else
      var hi := Parse(6, t, lo.at + 1, inLabel);
      if !hi.Parsed? then hi
      else if !KindAt(t, hi.at).Pipe? && !KindAt(t, hi.at).OpGreat? then Failed(hi.at)
      else Parsed(RangeLit(lo.tree, hi.tree, KindAt(t, i).Pipe?, KindAt(t, hi.at).Pipe?), hi.at + 1)
  }

  /** parse_unary */
  function UnaryLevel(t: seq<Token>, i: nat, inLabel: bool): (r: Outcome<Node>)
    ensures Moved(t, i, r.at)
    ensures r.Parsed? && r.at == i ==> LabelColon(t, i, inLabel)
    ensures r.Hung? ==> LabelColon(t, r.at, inLabel)
    decreases |t| - i, 20
  {
    if !UnaryKind(KindAt(t, i)) then Parse(12, t, i, inLabel)
    else
      var e := Parse(11, t, i + 1, inLabel);
      if !e.Parsed? then e else Parsed(Unary(TextAt(t, i), e.tree), e.at)
  }

  /** parse_postfix: at most one. */
  function PostfixLevel(t: seq<Token>, i: nat, inLabel: bool): (r: Outcome<Node>)
    ensures Moved(t, i, r.at)
    ensures r.Parsed? && r.at == i ==> LabelColon(t, i, inLabel)
    ensures r.Hung? ==> LabelColon(t, r.at, inLabel)
    decreases |t| - i, 17
  {
    var node := Parse(13, t, i, inLabel);
    if node.Parsed? && (KindAt(t, node.at).OpInc? || KindAt(t, node.at).OpDec?) then
      Parsed(Postfix(TextAt(t, node.at), node.tree), node.at + 1)
    else node
  }

  /** parse_primary */
  function Primary(t: seq<Token>, i: nat, inLabel: bool): (r: Outcome<Node>)
    ensures Moved(t, i, r.at)
    ensures r.Parsed? && r.at == i ==> LabelColon(t, i, inLabel)
    ensures r.Hung? ==> LabelColon(t, r.at, inLabel)
    decreases |t| - i, 14
  {
    var k := KindAt(t, i);
    if k.ParenLeft? then
      var e := Parse(0, t, i + 1, inLabel);
      if !e.Parsed? then e else CommaList(t, e.tree, e.at, inLabel)
    else if StringKind(k) then
      var pieces := Pieces(t, [], i, inLabel);
      if !pieces.Parsed? then pieces.Fail() else Parsed(StrConcat(pieces.tree), pieces.at)
    else if k.Function? then
      if !KindAt(t, i + 1).ParenLeft? then Failed(i + 1)
      else
        var args := Args(t, i + 2, inLabel);
        if !args.Parsed? then args.Fail() else Parsed(Call(TextAt(t, i), args.tree), args.at)
    else if k.BraceLeft? then
      var elements := Elements(t, [], i + 1, inLabel);
      if !elements.Parsed? then elements.Fail() else Parsed(ArrayLit(elements.tree), elements.at)
    else if k.Literal? then Parsed(Lit(TextAt(t, i)), i + 1)
    else if k.AllFeatures? || k.AllStats? then Parsed(SpecialLit(k, TextAt(t, i)), i + 1)
    else if k.Identifier? then
      var path := Path(t, i, inLabel);
      if !path.Parsed? then path.Fail() else Called(t, path.tree, path.at, inLabel)
    else Failed(i)
  }

  /** The rest of a parenthesis: of a comma list the last is kept. */
  function CommaList(t: seq<Token>, node: Node, i: nat, inLabel: bool): (r: Outcome<Node>)
    ensures Moved(t, i, r.at)
    ensures r.Parsed? ==> r.at > i
    ensures r.Hung? ==> LabelColon(t, r.at, inLabel)
    decreases |t| - i, 60
  {
    if KindAt(t, i).Comma? then
      var e := Parse(0, t, i + 1, inLabel);
      if !e.Parsed? then e else CommaList(t, e.tree, e.at, inLabel)
    else if KindAt(t, i).ParenRight? then Parsed(node, i + 1)
    else Failed(i)
  }

  predicate CallableName(parts: seq<Part>) {
    parts != [] && parts[|parts| - 1].index == [] && parts[|parts| - 1].name != ""
  }

  /** A path, or the call it names when a readable argument list follows. */
  function Called(t: seq<Token>, parts: seq<Part>, i: nat, inLabel: bool): (r: Outcome<Node>)
    ensures Moved(t, i, r.at) && !r.Failed?
    ensures r.Hung? ==> LabelColon(t, r.at, inLabel)
    decreases |t| - i, 10
  {
    if !CallableName(parts) || !KindAt(t, i).ParenLeft? then Parsed(VarRef(parts), i)
    else
      var args := Args(t, i + 1, inLabel);
      if args.Hung? then Hung(args.at)
      else if args.Failed? then Parsed(VarRef(parts), i)
      else
        var n := |parts| - 1;
        MethodChain(t, if n == 0 then Call(parts[0].name, args.tree)
                       else MethodCall(VarRef(parts[..n]), parts[n].name, args.tree), args.at, inLabel)
  }

  /** _parse_method_chain */
  function MethodChain(t: seq<Token>, node: Node, i: nat, inLabel: bool): (r: Outcome<Node>)
    ensures Moved(t, i, r.at) && !r.Failed?
    ensures r.Hung? ==> LabelColon(t, r.at, inLabel)
    decreases |t| - i, 60
  {
    if !(KindAt(t, i).Period? && KindAt(t, i + 1).Identifier? && KindAt(t, i + 2).ParenLeft?) then
      Parsed(node, i)
    else
      var args := Args(t, i + 3, inLabel);
      if args.Hung? then Hung(args.at)
      else if args.Failed? then Parsed(node, i)
      else MethodChain(t, MethodCall(node, TextAt(t, i + 1), args.tree), args.at, inLabel)
  }

  /** An argument list from just after its parenthesis to just after the closing one. */
  function Args(t: seq<Token>, i: nat, inLabel: bool): (r: Outcome<seq<Node>>)
    ensures Moved(t, i, r.at)
    ensures r.Parsed? ==> r.at > i
    ensures r.Hung? ==> LabelColon(t, r.at, inLabel)
    decreases |t| - i, 63
  {
    if KindAt(t, i).ParenRight? then Parsed([], i + 1) else MoreArgs(t, [], i, inLabel)
  }

  function MoreArgs(t: seq<Token>, args: seq<Node>, i: nat, inLabel: bool): (r: Outcome<seq<Node>>)
    ensures Moved(t, i, r.at)
    ensures r.Parsed? ==> r.at > i
    ensures r.Hung? ==> LabelColon(t, r.at, inLabel)
    decreases |t| - i, 62
  {
    var e := ArgOrEmpty(t, i, inLabel);
    if !e.Parsed? then e.Fail()
    else if KindAt(t, e.at).Comma? then MoreArgs(t, args + [e.tree], e.at + 1, inLabel)
    else if KindAt(t, e.at).ParenRight? then Parsed(args + [e.tree], e.at + 1)
    else Failed(e.at)
  }

  /** _paren_arg_or_empty */
  function ArgOrEmpty(t: seq<Token>, i: nat, inLabel: bool): (r: Outcome<Node>)
    ensures Moved(t, i, r.at)
    ensures r.Hung? ==> LabelColon(t, r.at, inLabel)
    decreases |t| - i, 61
  {
    if KindAt(t, i).Comma? || KindAt(t, i).ParenRight? then Parsed(Str(""), i)
    else Parse(0, t, i, inLabel)
  }

  /** parse_string_concat */
  function Pieces(t: seq<Token>, pieces: seq<Node>, i: nat, inLabel: bool): (r: Outcome<seq<Node>>)
    ensures Moved(t, i, r.at)
    ensures StringKind(KindAt(t, i)) && r.Parsed? ==> r.at > i
    ensures r.Hung? ==> LabelColon(t, r.at, inLabel)
    decreases |t| - i, 10
  {
    var k := KindAt(t, i);
    if k.StringPart? then Pieces(t, pieces + [Str(TextAt(t, i))], i + 1, inLabel)
    else if k.RawMessageCode? then Pieces(t, pieces, i + 1, inLabel)
    else if k.MessageCode? then
      var code := MessageCodeAt(t, i, inLabel);
      if !code.Parsed? then code.Fail() else Pieces(t, pieces + [code.tree], code.at, inLabel)
    else Parsed(pieces, i)
  }

  /** parse_messagecode */
  function MessageCodeAt(t: seq<Token>, i: nat, inLabel: bool): (r: Outcome<Node>)
    requires KindAt(t, i).MessageCode?
    ensures Moved(t, i, r.at)
    ensures r.Parsed? ==> r.at > i
    ensures r.Hung? ==> LabelColon(t, r.at, inLabel)
    decreases |t| - i, 5
  {
    if !KindAt(t, i + 1).ParenLeft? then Parsed(Message(TextAt(t, i), []), i + 1)
    else
      var args := Args(t, i + 2, inLabel);
      if !args.Parsed? then args.Fail() else Parsed(Message(TextAt(t, i), args.tree), args.at)
  }

  /** parse_array_literal, inside its braces. A round that consumes nothing repeats the
      loop's state for ever. */
  function Elements(t: seq<Token>, elements: seq<Node>, i: nat, inLabel: bool): (r: Outcome<seq<Node>>)
    ensures Moved(t, i, r.at)
    ensures r.Parsed? ==> r.at > i
    ensures r.Hung? ==> LabelColon(t, r.at, inLabel)
    decreases |t| - i, 60
  {
    var k := KindAt(t, i);
    if k.BraceRight? then Parsed(elements, i + 1)
    else if k.Eof? then Failed(i)
    else if k.Comma? || k.End? then Elements(t, elements, i + 1, inLabel)
    else
      var e := Parse(0, t, i, inLabel);
      if !e.Parsed? then e.Fail()
      else if e.at == i then Hung(i)
      else Elements(t, elements + [e.tree], if KindAt(t, e.at).Comma? then e.at + 1 else e.at, inLabel)
  }

  /** parse_identifier_access */
  function Path(t: seq<Token>, i: nat, inLabel: bool): (r: Outcome<seq<Part>>)
    ensures Moved(t, i, r.at)
    ensures r.Parsed? ==> r.tree != []
    ensures KindAt(t, i).Identifier? && r.Parsed? && r.at == i ==> LabelColon(t, i, inLabel)
    ensures r.Hung? ==> LabelColon(t, r.at, inLabel)
    decreases |t| - i, 10
  {
    var part := PathPart(t, i, inLabel);
    if !part.Parsed? then part.Fail() else MoreParts(t, [part.tree], part.at, inLabel)
  }

  function MoreParts(t: seq<Token>, parts: seq<Part>, i: nat, inLabel: bool): (r: Outcome<seq<Part>>)
    requires parts != []
    ensures Moved(t, i, r.at)
    ensures r.Parsed? ==> r.tree != []
    ensures r.Hung? ==> LabelColon(t, r.at, inLabel)
    decreases |t| - i, 9
  {
    if !KindAt(t, i).Period? then Parsed(parts, i)
    else
      var part := if KindAt(t, i + 1).ParenLeft? then ComputedPart(t, i + 2, inLabel)
                  else PathPart(t, i + 1, inLabel);
      if !part.Parsed? then part.Fail() else MoreParts(t, parts + [part.tree], part.at, inLabel)
  }

  /** A `(expression)` segment, from just after its parenthesis. */
  function ComputedPart(t: seq<Token>, i: nat, inLabel: bool): (r: Outcome<Part>)
    ensures Moved(t, i, r.at)
    ensures r.Hung? ==> LabelColon(t, r.at, inLabel)
    decreases |t| - i, 60
  {
    var e := Parse(0, t, i, inLabel);
    if !e.Parsed? then e.Fail()
    else if !KindAt(t, e.at).ParenRight? then Failed(e.at)
    else
      var index := Index(t, e.at + 1, inLabel);
      if !index.Parsed? then index.Fail() else Parsed(Part("", index.tree, [e.tree]), index.at)
  }

  /** _read_path_part */
  function PathPart(t: seq<Token>, i: nat, inLabel: bool): (r: Outcome<Part>)
    ensures Moved(t, i, r.at)
    ensures KindAt(t, i).Identifier? && r.Parsed? && r.at == i ==> LabelColon(t, i, inLabel)
    ensures r.Hung? ==> LabelColon(t, r.at, inLabel)
    decreases |t| - i, 8
  {
    var atoms := Atoms(t, Part("", [], []), false, i, inLabel);
    if !atoms.Parsed? then atoms
    else
      var index := Index(t, atoms.at, inLabel);
      if !index.Parsed? then index.Fail() else Parsed(atoms.tree.(index := index.tree), index.at)
  }

  /** The atoms of a segment; a message code makes the segment nameless. */
  function Atoms(t: seq<Token>, part: Part, dynamic: bool, i: nat, inLabel: bool): (r: Outcome<Part>)
    ensures Moved(t, i, r.at)
    ensures KindAt(t, i).Identifier? && r.Parsed? && r.at == i ==> LabelColon(t, i, inLabel)
    ensures r.Hung? ==> LabelColon(t, r.at, inLabel)
    decreases |t| - i, 6
  {
    var k, text := KindAt(t, i), TextAt(t, i);
    if k.Identifier? && !LabelColon(t, i, inLabel) then
      Atoms(t, if text == "" then part else part.(name := part.name + text, atoms := part.atoms + [Str(text)]),
            dynamic, i + 1, inLabel)
    else if k.Literal? then
      Atoms(t, part.(name := part.name + text, atoms := part.atoms + [Str(text)]), dynamic, i + 1, inLabel)
    else if k.MessageCode? then
      var code := MessageCodeAt(t, i, inLabel);
      if !code.Parsed? then code.Fail()
      else Atoms(t, part.(atoms := part.atoms + [code.tree]), true, code.at, inLabel)
    else Parsed(if dynamic then part.(name := "") else part, i)
  }

  /** The optional `[a]` or `[a, b]` of a segment. */
  function Index(t: seq<Token>, i: nat, inLabel: bool): (r: Outcome<seq<Node>>)
    ensures Moved(t, i, r.at)
    ensures r.Hung? ==> LabelColon(t, r.at, inLabel)
    decreases |t| - i, 4
  {
    if !KindAt(t, i).BracketLeft? then Parsed([], i)
    else
      var a := Parse(0, t, i + 1, inLabel);
      if !a.Parsed? then a.Fail()
      else if KindAt(t, a.at).BracketRight? then Parsed([a.tree], a.at + 1)
      else if !KindAt(t, a.at).Comma? then Failed(a.at)
      else
        var b := Parse(0, t, a.at + 1, inLabel);
        if !b.Parsed? then b.Fail()
        else if KindAt(t, b.at).BracketRight? then Parsed([a.tree, b.tree], b.at + 1)
        else Failed(b.at)
  }
}

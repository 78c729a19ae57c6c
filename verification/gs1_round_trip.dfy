/** Parsing undoes printing, for every printable GS1 expression. */
module Gs1RoundTrip {
  import opened Gs1Syntax
  import opened Gs1Grammar
  import opened Gs1Printer

  /** The bare colon, where a case label (`lab`) ends. */
  predicate ColonToken(x: Token) { x.kind.Identifier? && x.text == ":" }

  /** These tokens stand at `i`, with no bare colon among them if it is a label that is read. */
  predicate Here(lab: bool, t: seq<Token>, i: nat, ts: seq<Token>) {
    && i + |ts| <= |t| && (forall k :: 0 <= k < |ts| ==> Stands(t[i + k], ts[k]))
    && (lab ==> forall k :: 0 <= k < |ts| ==> !ColonToken(ts[k]))
  }

  lemma Split(lab: bool, t: seq<Token>, i: nat, a: seq<Token>, b: seq<Token>)
    requires Here(lab, t, i, a + b)
    ensures Here(lab, t, i, a) && Here(lab, t, i + |a|, b)
  {
    var ab := a + b;
    forall k | 0 <= k < |a| ensures Stands(t[i + k], a[k]) && (lab ==> !ColonToken(a[k])) { assert ab[k] == a[k]; }
    forall k | 0 <= k < |b| ensures Stands(t[i + |a| + k], b[k]) && (lab ==> !ColonToken(b[k])) {
      assert ab[|a| + k] == b[k];
      assert Stands(t[i + (|a| + k)], ab[|a| + k]);
    }
  }

  lemma At(lab: bool, t: seq<Token>, i: nat, k: Token, b: seq<Token>)
    requires Here(lab, t, i, [k] + b)
    ensures KindAt(t, i) == k.kind && (Textless(k.kind) || TextAt(t, i) == k.text) && Here(lab, t, i + 1, b)
    ensures lab ==> !ColonToken(k)
  {
    Split(lab, t, i, [k], b);
    assert Stands(t[i + 0], [k][0]);
  }

  /** The first token of what stands here. */
  lemma Leads(lab: bool, t: seq<Token>, i: nat, ts: seq<Token>)
    requires Here(lab, t, i, ts) && ts != []
    ensures KindAt(t, i) == ts[0].kind && (Textless(ts[0].kind) || TextAt(t, i) == ts[0].text)
  {
    assert Stands(t[i + 0], ts[0]);
  }

  lemma Between(lab: bool, t: seq<Token>, i: nat, a: seq<Token>, k: Token, b: seq<Token>)
    requires Here(lab, t, i, a + [k] + b)
    ensures Here(lab, t, i, a) && Here(lab, t, i + |a| + 1, b)
    ensures KindAt(t, i + |a|) == k.kind && (Textless(k.kind) || TextAt(t, i + |a|) == k.text)
  {
    assert a + [k] + b == a + ([k] + b);
    Split(lab, t, i, a, [k] + b);
    At(lab, t, i + |a|, k, b);
  }

  lemma Enclosed(lab: bool, t: seq<Token>, i: nat, open: Token, a: seq<Token>, close: Token)
    requires Here(lab, t, i, [open] + a + [close])
    ensures KindAt(t, i) == open.kind && Here(lab, t, i + 1, a)
    ensures KindAt(t, i + 1 + |a|) == close.kind
  {
    assert [open] + a + [close] == [open] + (a + [close]);
    At(lab, t, i, open, a + [close]);
    Split(lab, t, i + 1, a, [close]);
    assert [close] + [] == [close];
    At(lab, t, i + 1 + |a|, close, []);
  }

  /** Tokens that would carry a primary on. */
  predicate Glue(k: Kind) {
    k.ParenLeft? || k.Period? || k.BracketLeft? || k.Identifier? || k.Literal? || StringKind(k)
  }

  /** The commas from `j` on do not lead to an `in`. */
  ghost predicate NoIn(lab: bool, t: seq<Token>, j: nat) {
    var list := Values(t, [], j, lab);
    list.Failed? || (list.Parsed? && !KindAt(t, list.at).OpIn?)
  }

  /** The token at `j` ends an expression of `level`. */
  ghost predicate Stops(lab: bool, level: nat, t: seq<Token>, j: nat) {
    var k := KindAt(t, j);
    && (Glue(k) ==> LabelColon(t, j, lab))
    && (level <= 12 ==> !k.OpInc? && !k.OpDec?)
    && (level <= 10 ==> OpLevel(k) == 0 || OpLevel(k) < level)
    && (level <= 9 ==> !k.OpIn? && (k.Comma? ==> NoIn(lab, t, j)))
    && (level == 0 ==> !k.Question?)
  }

  /** What a printed expression can start with. */
  predicate Starter(k: Kind) {
    k.ParenLeft? || k.Literal? || k.AllFeatures? || k.AllStats? || k.Identifier? || k.BraceLeft?
    || k.StringPart? || k.MessageCode? || UnaryKind(k)
  }

  lemma FirstOf(e: Node, level: nat)
    requires Printable(e)
    ensures var ts := Print(e, level);
            ts != [] && Starter(ts[0].kind) && (level >= 12 ==> !UnaryKind(ts[0].kind))
    decreases e
  {
    if LevelOf(e) >= level {
      match e
      case Binary(op, a, b) => FirstOf(a, if Chains(LevelOf(e)) then LevelOf(e) else LevelOf(e) + 1);
      case Ternary(c, a, b) => FirstOf(c, 1);
      case Postfix(op, a) => FirstOf(a, 13);
      case InExpr(es, rng) => FirstOf(es[0], 10);
      case VarRef(parts) => FirstOfPart(parts[0]);
      case StrConcat(ps) => FirstOfPiece(ps);
      case Lit(_) =>
      case SpecialLit(_, _) =>
      case ArrayLit(_) =>
      case Unary(_, _) =>
      case Call(_, _) =>
    }
  }

  lemma FirstOfPiece(ps: seq<Node>)
    requires ps != [] && forall k :: 0 <= k < |ps| ==> PrintablePiece(ps[k])
    ensures PieceTokens(ps) != []
    ensures PieceTokens(ps)[0].kind == if ps[0].Str? then StringPart else Kind.MessageCode
  {
    hide Items, Printable;
    var rest := PieceTokens(ps[1..]);
    assert PieceTokens(ps) == PieceToken(ps[0]) + rest;
    assert PieceToken(ps[0])[0] == (PieceToken(ps[0]) + rest)[0];
  }

  lemma FirstOfPart(p: Part)
    requires PrintablePart(p)
    ensures PartTokens(p) != [] && PartTokens(p)[0].kind.Identifier?
  {
    hide IndexTokens, Printable, Here;
    assert Names(p.atoms)[0] == Token(Identifier, p.atoms[0].text);
  }

  // ------------------------------------------------- levels with no operator

  lemma {:induction false} ValuesFrom(lab: bool, t: seq<Token>, a: seq<Node>, b: seq<Node>, i: nat)
    ensures var x, y := Values(t, a, i, lab), Values(t, b, i, lab);
            x.at == y.at && x.Parsed? == y.Parsed? && x.Failed? == y.Failed?
    decreases |t| - i
  {
    if KindAt(t, i).Comma? {
      var e := Parse(10, t, i + 1, lab);
      if e.Parsed? { ValuesFrom(lab, t, a + [e.tree], b + [e.tree], e.at); }
    }
  }

  /** Where the level's own operator does not follow, the level is the next one. */
  lemma Descend(lab: bool, level: nat, t: seq<Token>, i: nat, e: Node, j: nat)
    requires level <= 12 && Parse(level + 1, t, i, lab) == Parsed(e, j)
    requires Stops(lab, level, t, j) && (level == 11 ==> !UnaryKind(KindAt(t, i)))
    ensures Parse(level, t, i, lab) == Parsed(e, j)
  {
    hide Parse, Primary, Range, Values, Here;
    RuleOf(level, t, i, lab);
    if level == 9 {
      ValuesFrom(lab, t, [e], [], j);
      NoComma(lab, t, [e], j);
    } else if Chains(level) {
      RestStops(lab, level, t, e, j);
    }
  }

  lemma NoComma(lab: bool, t: seq<Token>, values: seq<Node>, j: nat)
    ensures !KindAt(t, j).Comma? ==> Values(t, values, j, lab) == Parsed(values, j)
  {
    hide Parse, Here;
  }

  lemma StopsHigher(lab: bool, level: nat, higher: nat, t: seq<Token>, j: nat)
    requires level <= higher && Stops(lab, level, t, j)
    ensures Stops(lab, higher, t, j)
  {
  }

  lemma {:induction false} DescendTo(lab: bool, level: nat, from: nat, t: seq<Token>, i: nat, e: Node, j: nat)
    requires level <= from <= 10 && Parse(from, t, i, lab) == Parsed(e, j) && Stops(lab, level, t, j)
    ensures Parse(level, t, i, lab) == Parsed(e, j)
    decreases from
  {
    hide Parse, Stops;
    if level < from {
      StopsHigher(lab, level, from - 1, t, j);
      Descend(lab, from - 1, t, i, e, j);
      DescendTo(lab, level, from - 1, t, i, e, j);
    }
  }

  // ------------------------------------------------------------- the theorem

  /** Wherever the printed form of an expression stands, followed by a token that ends an
      expression of its level, parsing at that level gives the expression back and stops at
      that token. */
  lemma {:induction false} Back(lab: bool, level: nat, e: Node, t: seq<Token>, i: nat)
    requires level <= 13 && Printable(e) && Here(lab, t, i, Print(e, level))
    requires Stops(lab, level, t, i + |Print(e, level)|)
    ensures Parse(level, t, i, lab) == Parsed(e, i + |Print(e, level)|)
    decreases e, if LevelOf(e) < level then 1 else 0, 14 - level, 2
  {
    hide Parse, Bare, Stops, Here, Printable, Print, LevelOf, KindAt;
    var j := i + |Print(e, level)|;
    if LevelOf(e) == level {
      BarePrint(e);
      Outermost(lab, level, e, t, i);
    } else if level < 13 {
      SamePrint(e, level);
      StopsHigher(lab, level, level + 1, t, j);
      Back(lab, level + 1, e, t, i);
      FirstOf(e, level + 1);
      Leads(lab, t, i, Print(e, level));
      Descend(lab, level, t, i, e, j);
    } else {
      ParenLayout(lab, e, t, i);
      Closes(lab, 0, t, j - 1);
      Back(lab, 0, e, t, i + 1);
      InParens(lab, t, i, e, j - 1);
    }
  }

  lemma ParenLayout(lab: bool, e: Node, t: seq<Token>, i: nat)
    requires Printable(e) && LevelOf(e) < 13 && Here(lab, t, i, Print(e, 13))
    ensures KindAt(t, i).ParenLeft? && Here(lab, t, i + 1, Print(e, 0))
    ensures |Print(e, 13)| == |Print(e, 0)| + 2 && KindAt(t, i + 1 + |Print(e, 0)|).ParenRight?
  {
    hide Bare, Here, Printable, KindAt;
    Enclosed(lab, t, i, Word(ParenLeft), Bare(e), Word(ParenRight));
  }

  predicate Closer(k: Kind) {
    k.ParenRight? || k.BraceRight? || k.BracketRight? || k.Colon? || k.Pipe? || k.Eof? || k.End?
  }

  predicate CloserAt(lab: bool, t: seq<Token>, j: nat) { Closer(KindAt(t, j)) || LabelColon(t, j, lab) }

  lemma Closes(lab: bool, level: nat, t: seq<Token>, j: nat)
    requires CloserAt(lab, t, j)
    ensures Stops(lab, level, t, j)
  {
  }

  lemma InParens(lab: bool, t: seq<Token>, i: nat, e: Node, j: nat)
    requires KindAt(t, i).ParenLeft? && Parse(0, t, i + 1, lab) == Parsed(e, j)
    requires KindAt(t, j).ParenRight?
    ensures Parse(13, t, i, lab) == Parsed(e, j + 1)
  {
    hide Parse, Here;
    RuleOf(13, t, i, lab);
    assert CommaList(t, e, j, lab) == Parsed(e, j + 1);
  }

  lemma {:induction false} Outermost(lab: bool, level: nat, e: Node, t: seq<Token>, i: nat)
    requires Printable(e) && LevelOf(e) == level && Here(lab, t, i, Bare(e))
    requires Stops(lab, level, t, i + |Bare(e)|)
    ensures Parse(level, t, i, lab) == Parsed(e, i + |Bare(e)|)
    decreases e, 0, 14 - level, 1
  {
    hide Parse, Bare, Stops, Here;
    if e.Ternary? {
      TernaryBack(lab, e, t, i);
    } else if e.Binary? {
      if Chains(level) {
        ChainBack(lab, level, e, t, i);
        RestStops(lab, level, t, e, i + |Bare(e)|);
      } else {
        OneOpBack(lab, e, t, i);
      }
    } else if e.InExpr? {
      InBack(lab, e, t, i);
    } else if e.Unary? {
      UnaryBack(lab, e, t, i);
    } else if e.Postfix? {
      PostfixBack(lab, e, t, i);
    } else if e.VarRef? {
      VarRefBack(lab, e, t, i);
    } else if e.ArrayLit? {
      ArrayBack(lab, e, t, i);
    } else if e.Call? {
      CallBack(lab, e, t, i);
    } else if e.StrConcat? {
      ConcatBack(lab, e, t, i);
    } else {
      LeafBack(lab, e, t, i);
    }
  }

  lemma LeafBack(lab: bool, e: Node, t: seq<Token>, i: nat)
    requires (e.Lit? || e.SpecialLit?) && Printable(e) && Here(lab, t, i, Bare(e))
    ensures Parse(13, t, i, lab) == Parsed(e, i + 1) && |Bare(e)| == 1
  {
    hide Parse, Here;
    Leads(lab, t, i, Bare(e));
    RuleOf(13, t, i, lab);
  }

  // ------------------------------------------------------------- operators

  lemma RestStops(lab: bool, level: nat, t: seq<Token>, e: Node, j: nat)
    requires Chains(level) && Stops(lab, level, t, j)
    ensures Rest(level, t, e, j, lab) == Parsed(e, j)
  {
    hide Parse, Here;
  }

  lemma OpStops(lab: bool, level: nat, t: seq<Token>, j: nat)
    requires OpLevel(KindAt(t, j)) == level && 1 <= level
    ensures Stops(lab, level + 1, t, j)
  {
  }

  /** A chain of operators read up to an operator of its own level is left in the hands of
      the loop of that level. */
  lemma {:induction false} ChainBack(lab: bool, level: nat, e: Node, t: seq<Token>, i: nat)
    requires Chains(level) && Printable(e) && Here(lab, t, i, Print(e, level))
    requires Stops(lab, level, t, i + |Print(e, level)|) || Stops(lab, level + 1, t, i + |Print(e, level)|)
    ensures Parse(level, t, i, lab) == Rest(level, t, e, i + |Print(e, level)|, lab)
    decreases e, if LevelOf(e) < level then 1 else 0, 14 - level, 0
  {
    hide Parse, Stops, Printable, Rest, Bare, Here, OpKind, Print, LevelOf, OpLevel, KindAt, TextAt;
    var j := i + |Print(e, level)|;
    if Stops(lab, level, t, j) { StopsHigher(lab, level, level + 1, t, j); }
    if LevelOf(e) != level {
      SamePrint(e, level);
      Back(lab, level + 1, e, t, i);
      ChainStarts(lab, level, t, i, e, j);
    } else {
      BinaryOf(e);
      OpShows(e.op);
      var op, a, b := Token(OpKind(e.op), e.op), Print(e.left, level), Print(e.right, level + 1);
      Between(lab, t, i, a, op, b);
      OpStops(lab, level, t, i + |a|);
      ChainBack(lab, level, e.left, t, i);
      Back(lab, level + 1, e.right, t, i + |a| + 1);
      RestTakes(lab, level, t, e, i + |a|, j);
    }
  }

  lemma SamePrint(e: Node, level: nat)
    requires Printable(e) && LevelOf(e) != level
    ensures Print(e, level) == Print(e, level + 1)
  {
    hide Bare, Here;
  }

  lemma BarePrint(e: Node)
    requires Printable(e)
    ensures Print(e, LevelOf(e)) == Bare(e)
  {
    hide Bare, OpKind;
  }

  lemma OpTexts(op: string)
    requires Chains(OpLevel(OpKind(op)))
    ensures OpText(OpLevel(OpKind(op)), op) == op
  {
  }

  lemma OpShows(op: string)
    requires OpLevel(OpKind(op)) != 0
    ensures !Textless(OpKind(op))
  {
  }

  lemma BinaryOf(e: Node)
    requires Printable(e) && Chains(LevelOf(e))
    ensures e.Binary? && Printable(e.left) && Printable(e.right)
    ensures OpLevel(OpKind(e.op)) == LevelOf(e) && OpText(LevelOf(e), e.op) == e.op
    ensures Print(e, LevelOf(e)) ==
              Print(e.left, LevelOf(e)) + [Token(OpKind(e.op), e.op)] + Print(e.right, LevelOf(e) + 1)
  {
    hide OpText, OpKind;
    OpTexts(e.op);
    BarePrint(e);
  }

  lemma ChainStarts(lab: bool, level: nat, t: seq<Token>, i: nat, e: Node, j: nat)
    requires Chains(level) && Parse(level + 1, t, i, lab) == Parsed(e, j)
    ensures Parse(level, t, i, lab) == Rest(level, t, e, j, lab)
  {
    hide Parse, Rest, Here;
    RuleOf(level, t, i, lab);
  }

  lemma RestTakes(lab: bool, level: nat, t: seq<Token>, e: Node, i: nat, j: nat)
    requires e.Binary? && Chains(level) && OpLevel(KindAt(t, i)) == level
    requires OpText(level, TextAt(t, i)) == e.op && Parse(level + 1, t, i + 1, lab) == Parsed(e.right, j)
    ensures Rest(level, t, e.left, i, lab) == Rest(level, t, e, j, lab)
  {
    hide Parse, Here;
  }

  lemma {:induction false} OneOpBack(lab: bool, e: Node, t: seq<Token>, i: nat)
    requires e.Binary? && Printable(e) && LevelOf(e) in {3, 4} && Here(lab, t, i, Bare(e))
    requires Stops(lab, LevelOf(e), t, i + |Bare(e)|)
    ensures Parse(LevelOf(e), t, i, lab) == Parsed(e, i + |Bare(e)|)
    decreases e, 0, 0, 0
  {
    hide Stops, Parse, Print, Here, Bare, LevelOf, OpLevel, OpKind, Printable, KindAt, TextAt;
    var level := LevelOf(e);
    OneOpForm(e);
    OpShows(e.op);
    var op, a, b := Token(OpKind(e.op), e.op), Print(e.left, level + 1), Print(e.right, level + 1);
    Between(lab, t, i, a, op, b);
    OpStops(lab, level, t, i + |a|);
    Back(lab, level + 1, e.left, t, i);
    StopsHigher(lab, level, level + 1, t, i + |Bare(e)|);
    Back(lab, level + 1, e.right, t, i + |a| + 1);
    OneOpTakes(lab, level, e, t, i, i + |a|, i + |Bare(e)|);
  }

  lemma OneOpForm(e: Node)
    requires e.Binary? && Printable(e) && LevelOf(e) in {3, 4}
    ensures Printable(e.left) && Printable(e.right) && OpLevel(OpKind(e.op)) == LevelOf(e)
    ensures Bare(e) == Print(e.left, LevelOf(e) + 1) + [Token(OpKind(e.op), e.op)] + Print(e.right, LevelOf(e) + 1)
  {
    hide Print, OpKind, OpLevel;
  }

  lemma OneOpTakes(lab: bool, level: nat, e: Node, t: seq<Token>, i: nat, j: nat, end: nat)
    requires (level == 3 || level == 4) && e.Binary? && Parse(level + 1, t, i, lab) == Parsed(e.left, j)
    requires OpLevel(KindAt(t, j)) == level && TextAt(t, j) == e.op
    requires Parse(level + 1, t, j + 1, lab) == Parsed(e.right, end)
    ensures Parse(level, t, i, lab) == Parsed(e, end)
  {
    hide Parse, OpLevel, KindAt, TextAt;
    RuleOf(level, t, i, lab);
  }

  lemma {:induction false} TernaryBack(lab: bool, e: Node, t: seq<Token>, i: nat)
    requires e.Ternary? && Printable(e) && Here(lab, t, i, Bare(e)) && Stops(lab, 0, t, i + |Bare(e)|)
    ensures Parse(0, t, i, lab) == Parsed(e, i + |Bare(e)|)
    decreases e, 0, 0, 0
  {
    hide Parse, Print, Here, Stops, Printable;
    PrintableTernary(e);
    var c, a, b := Print(e.cond, 1), Print(e.a, 0), Print(e.b, 0);
    var j, k, end := i + |c|, i + |c| + 1 + |a|, i + |Bare(e)|;
    Between(lab, t, i, c, Word(Question), a + [Word(Colon)] + b);
    Between(lab, t, j + 1, a, Word(Colon), b);
    Closes(lab, 0, t, k);
    QuestionStops(lab, t, j);
    EndOfTernary(lab, t, end);
    Back(lab, 1, e.cond, t, i);
    Back(lab, 0, e.a, t, j + 1);
    Back(lab, 0, e.b, t, k + 1);
    TernaryTakes(lab, e, t, i, j, k, end);
  }

  lemma PrintableTernary(e: Node)
    requires e.Ternary? && Printable(e)
    ensures Printable(e.cond) && Printable(e.a) && Printable(e.b)
    ensures Bare(e) == Print(e.cond, 1) + [Word(Question)] + (Print(e.a, 0) + [Word(Colon)] + Print(e.b, 0))
  {
    hide Print;
  }

  lemma QuestionStops(lab: bool, t: seq<Token>, j: nat)
    requires KindAt(t, j).Question?
    ensures Stops(lab, 1, t, j)
  {
  }

  lemma EndOfTernary(lab: bool, t: seq<Token>, j: nat)
    requires Stops(lab, 0, t, j)
    ensures !KindAt(t, j).Question?
  {
  }

  lemma TernaryTakes(lab: bool, e: Node, t: seq<Token>, i: nat, j: nat, k: nat, end: nat)
    requires e.Ternary? && Parse(1, t, i, lab) == Parsed(e.cond, j) && KindAt(t, j).Question?
    requires Parse(0, t, j + 1, lab) == Parsed(e.a, k) && KindAt(t, k).Colon?
    requires Parse(0, t, k + 1, lab) == Parsed(e.b, end) && !KindAt(t, end).Question?
    ensures Parse(0, t, i, lab) == Parsed(e, end)
  {
    hide Parse, Here;
    RuleOf(0, t, i, lab);
    assert Ternaries(t, e, end, lab) == Parsed(e, end);
    assert Ternaries(t, e.cond, j, lab) == Ternaries(t, e, end, lab);
  }

  lemma {:induction false} UnaryBack(lab: bool, e: Node, t: seq<Token>, i: nat)
    requires e.Unary? && Printable(e) && Here(lab, t, i, Bare(e)) && Stops(lab, 11, t, i + |Bare(e)|)
    ensures Parse(11, t, i, lab) == Parsed(e, i + |Bare(e)|)
    decreases e, 0, 0, 0
  {
    hide Stops, Parse, Print, Here;
    At(lab, t, i, Token(OpKind(e.op), e.op), Print(e.operand, 11));
    Back(lab, 11, e.operand, t, i + 1);
    RuleOf(11, t, i, lab);
  }

  lemma {:induction false} PostfixBack(lab: bool, e: Node, t: seq<Token>, i: nat)
    requires e.Postfix? && Printable(e) && Here(lab, t, i, Bare(e)) && Stops(lab, 12, t, i + |Bare(e)|)
    ensures Parse(12, t, i, lab) == Parsed(e, i + |Bare(e)|)
    decreases e, 0, 0, 0
  {
    hide Parse, Print, Here, Stops, KindAt, TextAt;
    var a, op := Print(e.operand, 13), Token(OpKind(e.op), e.op);
    assert a + [op] == a + [op] + [];
    Between(lab, t, i, a, op, []);
    PostfixStops(lab, t, i + |a|);
    Back(lab, 13, e.operand, t, i);
    PostfixTakes(lab, e, t, i, i + |a|);
  }

  lemma PostfixStops(lab: bool, t: seq<Token>, j: nat)
    requires KindAt(t, j).OpInc? || KindAt(t, j).OpDec?
    ensures Stops(lab, 13, t, j)
  {
  }

  lemma PostfixTakes(lab: bool, e: Node, t: seq<Token>, i: nat, j: nat)
    requires e.Postfix? && Parse(13, t, i, lab) == Parsed(e.operand, j)
    requires (KindAt(t, j).OpInc? || KindAt(t, j).OpDec?) && TextAt(t, j) == e.op
    ensures Parse(12, t, i, lab) == Parsed(e, j + 1)
  {
    hide Parse, KindAt, TextAt;
    RuleOf(12, t, i, lab);
  }

  // ----------------------------------------------------------- comma lists

  lemma {:induction false} TailBack(lab: bool, es: seq<Node>, values: seq<Node>, t: seq<Token>, i: nat)
    requires forall k :: 0 <= k < |es| ==> Printable(es[k])
    requires Here(lab, t, i, Tail(es)) && Stops(lab, 10, t, i + |Tail(es)|) && !KindAt(t, i + |Tail(es)|).Comma?
    ensures Values(t, values, i, lab) == Parsed(values + es, i + |Tail(es)|)
    decreases es, 0, 0, 0
  {
    hide Parse, Print, Stops, Here, Printable, OpKind, LevelOf;
    if es == [] {
      assert values + es == values;
    } else {
      var a, b := Print(es[0], 10), Tail(es[1..]);
      assert Tail(es) == [Word(Comma)] + (a + b);
      At(lab, t, i, Word(Comma), a + b);
      Split(lab, t, i + 1, a, b);
      TailStarts(lab, es[1..], t, i + 1 + |a|);
      Back(lab, 10, es[0], t, i + 1);
      TailBack(lab, es[1..], values + [es[0]], t, i + 1 + |a|);
      assert values + [es[0]] + es[1..] == values + es;
    }
  }

  /** An item of a list ends at the comma after it, or where the list ends. */
  lemma TailStarts(lab: bool, es: seq<Node>, t: seq<Token>, i: nat)
    requires forall k :: 0 <= k < |es| ==> Printable(es[k])
    requires Here(lab, t, i, Tail(es)) && Stops(lab, 10, t, i + |Tail(es)|)
    ensures Stops(lab, 10, t, i)
  {
    hide Print, Here, Printable, OpKind, LevelOf;
    if es != [] {
      var rest := Print(es[0], 10) + Tail(es[1..]);
      assert Tail(es) == [Word(Comma)] + rest;
      At(lab, t, i, Word(Comma), rest);
    }
  }

  /** What a printed operand of `level` gives at the level of `^`: all of it, or its first
      operand, with an operator behind it. */
  lemma {:induction false} FrontBack(lab: bool, level: nat, e: Node, t: seq<Token>, i: nat) returns (x: Node, k: nat)
    requires level <= 10 && Printable(e) && !(LevelOf(e) >= level && LeadsIn(e))
    requires Here(lab, t, i, Print(e, level)) && Stops(lab, 10, t, i + |Print(e, level)|)
    ensures Parse(10, t, i, lab) == Parsed(x, k)
    ensures k == i + |Print(e, level)| || (!KindAt(t, k).Comma? && !KindAt(t, k).OpIn?)
    decreases e, 2, 0, 0
  {
    hide Parse, Bare, Stops, Here, Printable, LeadsIn, LevelOf, Print, KindAt;
    if LevelOf(e) < level || LevelOf(e) >= 10 {
      SameForm(e, level, 10);
      Back(lab, 10, e, t, i);
      x, k := e, i + |Print(e, level)|;
    } else {
      var a, la, op, rest := FrontForm(level, e);
      Between(lab, t, i, Print(a, la), op, rest);
      OperatorStops(lab, t, i + |Print(a, la)|);
      x, k := FrontBack(lab, la, a, t, i);
    }
  }

  /** Bare at both levels, or in parentheses at both. */
  lemma SameForm(e: Node, level: nat, other: nat)
    requires Printable(e) && (LevelOf(e) < level <==> LevelOf(e) < other)
    ensures Print(e, level) == Print(e, other)
  {
    hide Bare, Printable;
  }

  /** An operator tree below `in`: its first operand, the operator and the rest. */
  lemma FrontForm(level: nat, e: Node) returns (a: Node, la: nat, op: Token, rest: seq<Token>)
    requires Printable(e) && level <= LevelOf(e) < 10 && !LeadsIn(e)
    ensures a < e && Printable(a) && la <= 10 && !(LevelOf(a) >= la && LeadsIn(a))
    ensures Print(e, level) == Print(a, la) + [op] + rest && (op.kind.Question? || 1 <= OpLevel(op.kind) <= 8)
  {
    hide Print, OpKind, OpLevel;
    BareAt(e, level);
    if e.Ternary? {
      a, la, op, rest := e.cond, 1, Word(Question), Print(e.a, 0) + [Word(Colon)] + Print(e.b, 0);
    } else {
      NeverNine(OpKind(e.op));
      la := if Chains(LevelOf(e)) then LevelOf(e) else LevelOf(e) + 1;
      a, op, rest := e.left, Token(OpKind(e.op), e.op), Print(e.right, LevelOf(e) + 1);
    }
  }

  lemma NeverNine(k: Kind)
    ensures OpLevel(k) != 9
  {
  }

  lemma BareAt(e: Node, level: nat)
    requires Printable(e) && level <= LevelOf(e)
    ensures Print(e, level) == Bare(e)
  {
    hide Bare, Printable;
  }

  lemma OperatorStops(lab: bool, t: seq<Token>, j: nat)
    requires KindAt(t, j).Question? || 1 <= OpLevel(KindAt(t, j)) <= 8
    ensures Stops(lab, 10, t, j) && !KindAt(t, j).Comma? && !KindAt(t, j).OpIn?
  {
  }

  /** The items behind a comma do not lead to an `in` of the item before it. */
  lemma {:induction false} ItemsNoIn(lab: bool, es: seq<Node>, values: seq<Node>, t: seq<Token>, i: nat)
    requires forall k :: 0 <= k < |es| ==> Printable(es[k])
    requires Here(lab, t, i, ItemTail(es)) && ListCloser(KindAt(t, i + |ItemTail(es)|))
    ensures var r := Values(t, values, i, lab); r.Parsed? && !KindAt(t, r.at).OpIn?
    ensures KindAt(t, i) == if es == [] then KindAt(t, i + |ItemTail(es)|) else Comma
    decreases es, 3, 0, 0
  {
    hide Parse, Print, Stops, Here, Printable, LeadsIn, LevelOf, Values, KindAt;
    if es == [] {
      NoComma(lab, t, values, i);
    } else {
      var level := ItemLevel(es[0]);
      var a, b := Print(es[0], level), ItemTail(es[1..]);
      var j := i + 1 + |a|;
      assert ItemTail(es) == [Word(Comma)] + (a + b);
      At(lab, t, i, Word(Comma), a + b);
      Split(lab, t, i + 1, a, b);
      ItemTailFirst(lab, es[1..], t, j);
      ListStops(lab, t, j);
      LowOfIn(es[0]);
      var x, k := FrontBack(lab, level, es[0], t, i + 1);
      ValueTakes(lab, t, values, i, x, k);
      if k == j {
        ItemsNoIn(lab, es[1..], values + [x], t, j);
      } else {
        NoComma(lab, t, values + [x], k);
      }
    }
  }

  predicate ListCloser(k: Kind) { Closer(k) || k.OpGreat? }

  lemma ItemTailFirst(lab: bool, es: seq<Node>, t: seq<Token>, i: nat)
    requires forall k :: 0 <= k < |es| ==> Printable(es[k])
    requires Here(lab, t, i, ItemTail(es))
    ensures KindAt(t, i) == if es == [] then KindAt(t, i + |ItemTail(es)|) else Comma
  {
    hide Print, Here, Printable, LeadsIn;
    if es != [] {
      var rest := Print(es[0], ItemLevel(es[0])) + ItemTail(es[1..]);
      assert ItemTail(es) == [Word(Comma)] + rest;
      At(lab, t, i, Word(Comma), rest);
    }
  }

  lemma ListStops(lab: bool, t: seq<Token>, j: nat)
    requires KindAt(t, j).Comma? || ListCloser(KindAt(t, j))
    ensures Stops(lab, 10, t, j)
  {
  }

  lemma LowOfIn(e: Node)
    ensures !(LevelOf(e) >= ItemLevel(e) && LeadsIn(e)) && !(LevelOf(e) >= HighLevel(e) && LeadsIn(e))
    decreases e
  {
    if e.Binary? { LowOfIn(e.left); } else if e.Ternary? { LowOfIn(e.cond); }
  }

  lemma ValueTakes(lab: bool, t: seq<Token>, values: seq<Node>, i: nat, x: Node, k: nat)
    requires KindAt(t, i).Comma? && Parse(10, t, i + 1, lab) == Parsed(x, k)
    ensures Values(t, values, i, lab) == Values(t, values + [x], k, lab)
  {
    hide Parse;
  }

  /** The first item of a list that a bracket closes is read on its own, the commas after it
      being no part of an `in`. */
  lemma {:induction false} ItemBack(lab: bool, level: nat, es: seq<Node>, t: seq<Token>, i: nat)
    requires level <= 10 && es != [] && forall k :: 0 <= k < |es| ==> Printable(es[k])
    requires Here(lab, t, i, Print(es[0], level) + ItemTail(es[1..]))
    requires Closer(KindAt(t, i + |Print(es[0], level)| + |ItemTail(es[1..])|))
    ensures Parse(0, t, i, lab) == Parsed(es[0], i + |Print(es[0], level)|)
    ensures Here(lab, t, i + |Print(es[0], level)|, ItemTail(es[1..]))
    decreases es, 4, 0, 0
  {
    hide Parse, Values, Print, Here, Stops, Printable, LeadsIn, LevelOf, ItemTail, KindAt;
    var a, b := Print(es[0], level), ItemTail(es[1..]);
    var j := i + |a|;
    Split(lab, t, i, a, b);
    ItemsNoIn(lab, es[1..], [], t, j);
    ItemStops(lab, t, j);
    StopsHigher(lab, 0, level, t, j);
    Back(lab, level, es[0], t, i);
    DescendTo(lab, 0, level, t, i, es[0], j);
  }

  lemma ItemStops(lab: bool, t: seq<Token>, j: nat)
    requires if KindAt(t, j).Comma? then NoIn(lab, t, j) else Closer(KindAt(t, j))
    ensures Stops(lab, 0, t, j)
  {
    hide Values;
  }

  lemma {:induction false} ArgsBack(lab: bool, level: nat, es: seq<Node>, args: seq<Node>, t: seq<Token>, i: nat)
    requires level <= 10 && es != [] && forall k :: 0 <= k < |es| ==> Printable(es[k])
    requires Here(lab, t, i, Print(es[0], level) + ItemTail(es[1..]))
    requires KindAt(t, i + |Print(es[0], level)| + |ItemTail(es[1..])|).ParenRight?
    ensures MoreArgs(t, args, i, lab) ==
              Parsed(args + es, i + |Print(es[0], level)| + |ItemTail(es[1..])| + 1)
    decreases es, 5, 0, 0
  {
    hide Parse, Values, Print, Here, Printable, LeadsIn, LevelOf, KindAt;
    var j := i + |Print(es[0], level)|;
    ItemBack(lab, level, es, t, i);
    FirstHere(lab, es[0], level, ItemTail(es[1..]), t, i);
    if |es| == 1 {
      assert args + [es[0]] == args + es;
    } else {
      NextItem(lab, es, t, j);
      ArgsBack(lab, ItemLevel(es[1]), es[1..], args + [es[0]], t, j + 1);
      assert args + [es[0]] + es[1..] == args + es;
    }
  }

  lemma NextItem(lab: bool, es: seq<Node>, t: seq<Token>, j: nat)
    requires |es| >= 2 && forall k :: 0 <= k < |es| ==> Printable(es[k])
    requires Here(lab, t, j, ItemTail(es[1..]))
    ensures KindAt(t, j).Comma? && Here(lab, t, j + 1, Print(es[1], ItemLevel(es[1])) + ItemTail(es[1..][1..]))
    ensures |ItemTail(es[1..])| == 1 + |Print(es[1], ItemLevel(es[1]))| + |ItemTail(es[1..][1..])|
  {
    hide Print, Here, Printable, LeadsIn;
    var rest := Print(es[1], ItemLevel(es[1])) + ItemTail(es[1..][1..]);
    assert ItemTail(es[1..]) == [Word(Comma)] + rest;
    At(lab, t, j, Word(Comma), rest);
  }

  lemma FirstHere(lab: bool, e: Node, level: nat, more: seq<Token>, t: seq<Token>, i: nat)
    requires Printable(e) && Here(lab, t, i, Print(e, level) + more)
    ensures Starter(KindAt(t, i)) && (level >= 12 ==> !UnaryKind(KindAt(t, i)))
  {
    FirstOf(e, level);
    var all := Print(e, level) + more;
    Leads(lab, t, i, all);
  }

  lemma {:induction false} CallArgsBack(lab: bool, es: seq<Node>, t: seq<Token>, i: nat)
    requires forall k :: 0 <= k < |es| ==> Printable(es[k])
    requires Here(lab, t, i, Items(es) + [Word(ParenRight)])
    ensures Args(t, i, lab) == Parsed(es, i + |Items(es)| + 1)
    decreases es, 6, 0, 0
  {
    hide Parse, Print, Here, Printable, LeadsIn, ItemTail, MoreArgs, Args, KindAt;
    var j := i + |Items(es)|;
    Split(lab, t, i, Items(es), [Word(ParenRight)]);
    Leads(lab, t, j, [Word(ParenRight)]);
    ArgsStart(lab, t, i);
    if es != [] {
      ArgsBack(lab, 0, es, [], t, i);
      FirstHere(lab, es[0], 0, ItemTail(es[1..]), t, i);
      assert [] + es == es;
    }
  }

  lemma ArgsStart(lab: bool, t: seq<Token>, i: nat)
    ensures Args(t, i, lab) == if KindAt(t, i).ParenRight? then Parsed([], i + 1) else MoreArgs(t, [], i, lab)
  {
    hide MoreArgs;
  }

  lemma {:induction false} ElementsBack(
    lab: bool, level: nat, es: seq<Node>, elements: seq<Node>, t: seq<Token>, i: nat)
    requires level <= 10 && es != [] && forall k :: 0 <= k < |es| ==> Printable(es[k])
    requires Here(lab, t, i, Print(es[0], level) + ItemTail(es[1..]))
    requires KindAt(t, i + |Print(es[0], level)| + |ItemTail(es[1..])|).BraceRight?
    ensures Elements(t, elements, i, lab) ==
              Parsed(elements + es, i + |Print(es[0], level)| + |ItemTail(es[1..])| + 1)
    decreases es, 5, 0, 0
  {
    hide Parse, Values, Print, Here, Printable, LeadsIn, LevelOf, KindAt, Elements;
    var j := i + |Print(es[0], level)|;
    ItemBack(lab, level, es, t, i);
    FirstHere(lab, es[0], level, ItemTail(es[1..]), t, i);
    FirstOf(es[0], level);
    ElementTaken(lab, t, elements, i, es[0], j);
    if |es| == 1 {
      assert elements + [es[0]] == elements + es;
      LastElement(lab, t, elements + es, j);
    } else {
      NextItem(lab, es, t, j);
      ElementsBack(lab, ItemLevel(es[1]), es[1..], elements + [es[0]], t, j + 1);
      assert elements + [es[0]] + es[1..] == elements + es;
    }
  }

  lemma ElementTaken(lab: bool, t: seq<Token>, elements: seq<Node>, i: nat, e: Node, j: nat)
    requires Starter(KindAt(t, i)) && i < j && Parse(0, t, i, lab) == Parsed(e, j)
    ensures Elements(t, elements, i, lab) ==
              Elements(t, elements + [e], if KindAt(t, j).Comma? then j + 1 else j, lab)
  {
    hide Parse, KindAt;
  }

  lemma LastElement(lab: bool, t: seq<Token>, elements: seq<Node>, j: nat)
    requires KindAt(t, j).BraceRight?
    ensures Elements(t, elements, j, lab) == Parsed(elements, j + 1)
  {
  }

  lemma ArrayTakes(lab: bool, e: Node, t: seq<Token>, i: nat, end: nat)
    requires e.ArrayLit? && KindAt(t, i).BraceLeft? && Elements(t, [], i + 1, lab) == Parsed(e.elements, end)
    ensures Parse(13, t, i, lab) == Parsed(e, end)
  {
    hide Parse, Elements;
    RuleOf(13, t, i, lab);
  }

  lemma {:induction false} InBraces(lab: bool, es: seq<Node>, t: seq<Token>, i: nat)
    requires forall k :: 0 <= k < |es| ==> Printable(es[k])
    requires Here(lab, t, i, Items(es)) && KindAt(t, i + |Items(es)|).BraceRight?
    ensures Elements(t, [], i, lab) == Parsed(es, i + |Items(es)| + 1)
    decreases es, 6, 0, 0
  {
    hide Print, Parse, Here, Printable, LeadsIn, ItemTail;
    if es != [] {
      ElementsBack(lab, 0, es, [], t, i);
      assert [] + es == es;
    }
  }

  lemma PrintableArrayLit(e: Node)
    requires e.ArrayLit? && Printable(e)
    ensures (forall k :: 0 <= k < |e.elements| ==> Printable(e.elements[k]))
      && Bare(e) == [Word(BraceLeft)] + Items(e.elements) + [Word(BraceRight)]
  {
    hide Items;
  }

  lemma {:induction false} ArrayBack(lab: bool, e: Node, t: seq<Token>, i: nat)
    requires e.ArrayLit? && Printable(e) && Here(lab, t, i, Bare(e))
    ensures Parse(13, t, i, lab) == Parsed(e, i + |Bare(e)|)
    decreases e, 0, 0, 0
  {
    hide Print, Parse, Here, Stops, OpKind, LevelOf, Printable;
    PrintableArrayLit(e);
    Enclosed(lab, t, i, Word(BraceLeft), Items(e.elements), Word(BraceRight));
    InBraces(lab, e.elements, t, i + 1);
    ArrayTakes(lab, e, t, i, i + |Bare(e)|);
  }

  // ----------------------------------------------------------- in

  lemma {:induction false} InBack(lab: bool, e: Node, t: seq<Token>, i: nat)
    requires e.InExpr? && Printable(e) && Here(lab, t, i, Bare(e)) && Stops(lab, 9, t, i + |Bare(e)|)
    ensures Parse(9, t, i, lab) == Parsed(e, i + |Bare(e)|)
    decreases e, 0, 0, 0
  {
    hide Print, Parse, Values, Stops, Here, OpKind, LevelOf, Printable, Tail, RangeTokens, Bare;
    var es, rng, end := e.values, e.rng, i + |Bare(e)|;
    InPrint(e);
    var k, j := InLayout(lab, e, t, i);
    InStops(lab, t, j);
    TailStarts(lab, es[1..], t, k);
    Back(lab, 10, es[0], t, i);
    TailBack(lab, es[1..], [es[0]], t, k);
    assert [es[0]] + es[1..] == es;
    if rng.RangeLit? {
      RangeBack(lab, rng, t, j + 1);
    } else {
      StopsHigher(lab, 9, 13, t, end);
      PlainRange(lab, rng, t, j + 1);
      Back(lab, 13, rng, t, j + 1);
    }
    InTakes(lab, e, t, i, k, j, end);
  }

  function RangeTokens(rng: Node): seq<Token>
    requires if rng.RangeLit? then Printable(rng.lo) && Printable(rng.hi) else Printable(rng)
  {
    if rng.RangeLit? then
      [RangeOpen(rng.loIncl)] + Print(rng.lo, 6) + [Word(Comma)]
        + Print(rng.hi, HighLevel(rng.hi)) + [RangeClose(rng.hiIncl)]
    else Print(rng, 13)
  }

  lemma InPrint(e: Node)
    requires e.InExpr? && Printable(e)
    ensures e.values != [] && forall k :: 0 <= k < |e.values| ==> Printable(e.values[k])
    ensures if e.rng.RangeLit? then Printable(e.rng.lo) && Printable(e.rng.hi) else Printable(e.rng)
    ensures Bare(e) == Print(e.values[0], 10) + (Tail(e.values[1..]) + [Word(OpIn)] + RangeTokens(e.rng))
  {
    hide Print, Tail, Here;
  }

  lemma InLayout(lab: bool, e: Node, t: seq<Token>, i: nat) returns (k: nat, j: nat)
    requires e.InExpr? && Printable(e) && Here(lab, t, i, Bare(e))
    ensures e.values != [] && (forall m :: 0 <= m < |e.values| ==> Printable(e.values[m]))
    ensures if e.rng.RangeLit? then Printable(e.rng.lo) && Printable(e.rng.hi) else Printable(e.rng)
    ensures Here(lab, t, i, Print(e.values[0], 10)) && k == i + |Print(e.values[0], 10)|
    ensures Here(lab, t, k, Tail(e.values[1..])) && j == k + |Tail(e.values[1..])|
    ensures KindAt(t, j).OpIn? && Here(lab, t, j + 1, RangeTokens(e.rng))
    ensures j + 1 + |RangeTokens(e.rng)| == i + |Bare(e)|
  {
    hide Print, Here, Tail, RangeTokens, Printable, Bare;
    InPrint(e);
    var a, b, c := Print(e.values[0], 10), Tail(e.values[1..]), RangeTokens(e.rng);
    k, j := i + |a|, i + |a| + |b|;
    Split(lab, t, i, a, b + [Word(OpIn)] + c);
    Between(lab, t, k, b, Word(OpIn), c);
  }

  lemma PlainRange(lab: bool, rng: Node, t: seq<Token>, i: nat)
    requires !rng.RangeLit? && Printable(rng) && Here(lab, t, i, RangeTokens(rng))
    ensures Print(rng, 13) == RangeTokens(rng) && !KindAt(t, i).Pipe? && !KindAt(t, i).OpLess?
  {
    hide Print, Here, Printable;
    assert RangeTokens(rng) + [] == RangeTokens(rng);
    FirstHere(lab, rng, 13, [], t, i);
  }

  lemma InStops(lab: bool, t: seq<Token>, j: nat)
    requires KindAt(t, j).OpIn?
    ensures Stops(lab, 10, t, j)
  {
  }

  lemma InTakes(lab: bool, e: Node, t: seq<Token>, i: nat, k: nat, j: nat, end: nat)
    requires e.InExpr? && e.values != [] && Parse(10, t, i, lab) == Parsed(e.values[0], k)
    requires Values(t, [e.values[0]], k, lab) == Parsed(e.values, j) && KindAt(t, j).OpIn?
    requires if KindAt(t, j + 1).Pipe? || KindAt(t, j + 1).OpLess? then Range(t, j + 1, lab) == Parsed(e.rng, end)
             else Parse(13, t, j + 1, lab) == Parsed(e.rng, end)
    ensures Parse(9, t, i, lab) == Parsed(e, end)
  {
    hide Parse, Values, Range, Here, KindAt;
    RuleOf(9, t, i, lab);
  }

  lemma RangeLayout(lab: bool, rng: Node, t: seq<Token>, i: nat) returns (j: nat, k: nat)
    requires rng.RangeLit? && Printable(rng.lo) && Printable(rng.hi) && Here(lab, t, i, RangeTokens(rng))
    ensures KindAt(t, i) == (if rng.loIncl then Pipe else OpLess)
    ensures Here(lab, t, i + 1, Print(rng.lo, 6)) && j == i + 1 + |Print(rng.lo, 6)| && KindAt(t, j).Comma?
    ensures Here(lab, t, j + 1, Print(rng.hi, HighLevel(rng.hi))) && k == j + 1 + |Print(rng.hi, HighLevel(rng.hi))|
    ensures KindAt(t, k) == (if rng.hiIncl then Pipe else OpGreat) && k + 1 == i + |RangeTokens(rng)|
  {
    hide Print, Here, Printable, LeadsIn, HighLevel, Textless, KindAt;
    var open, close := RangeOpen(rng.loIncl), RangeClose(rng.hiIncl);
    var a, b := Print(rng.lo, 6), Print(rng.hi, HighLevel(rng.hi));
    j, k := i + 1 + |a|, i + 2 + |a| + |b|;
    assert RangeTokens(rng) == [open] + (a + [Word(Comma)] + b) + [close];
    Enclosed(lab, t, i, open, a + [Word(Comma)] + b, close);
    Between(lab, t, i + 1, a, Word(Comma), b);
  }

  lemma RangeTakes(lab: bool, rng: Node, t: seq<Token>, i: nat, j: nat, k: nat)
    requires rng.RangeLit? && KindAt(t, i) == (if rng.loIncl then Pipe else OpLess)
    requires Parse(6, t, i + 1, lab) == Parsed(rng.lo, j) && KindAt(t, j).Comma?
    requires Parse(6, t, j + 1, lab) == Parsed(rng.hi, k)
    requires KindAt(t, k) == if rng.hiIncl then Pipe else OpGreat
    ensures Range(t, i, lab) == Parsed(rng, k + 1)
  {
    hide Parse, KindAt;
  }

  lemma RangeCloses(lab: bool, t: seq<Token>, k: nat)
    requires KindAt(t, k).Pipe? || KindAt(t, k).OpGreat?
    ensures Stops(lab, 10, t, k) && Stops(lab, 6, t, k) && !KindAt(t, k).Comma? && !KindAt(t, k).OpIn?
  {
  }

  lemma {:induction false} RangeBack(lab: bool, rng: Node, t: seq<Token>, i: nat)
    requires rng.RangeLit? && Printable(rng.lo) && Printable(rng.hi) && Here(lab, t, i, RangeTokens(rng))
    ensures KindAt(t, i).Pipe? || KindAt(t, i).OpLess?
    ensures Range(t, i, lab) == Parsed(rng, i + |RangeTokens(rng)|)
    decreases rng, 0, 0, 0
  {
    hide Print, Parse, Values, Here, Stops, Printable, LeadsIn, LevelOf, RangeTokens, Range, KindAt;
    var level := HighLevel(rng.hi);
    var j, k := RangeLayout(lab, rng, t, i);
    RangeCloses(lab, t, k);
    Back(lab, level, rng.hi, t, j + 1);
    DescendTo(lab, 6, level, t, j + 1, rng.hi, k);
    LowOfIn(rng.hi);
    var x, f := FrontBack(lab, level, rng.hi, t, j + 1);
    ValueTakes(lab, t, [], j, x, f);
    NoComma(lab, t, [] + [x], f);
    CommaStops(lab, t, j);
    StopsHigher(lab, 0, 6, t, j);
    Back(lab, 6, rng.lo, t, i + 1);
    RangeTakes(lab, rng, t, i, j, k);
  }

  lemma CommaStops(lab: bool, t: seq<Token>, j: nat)
    requires KindAt(t, j).Comma? && NoIn(lab, t, j)
    ensures Stops(lab, 0, t, j)
  {
    hide Values;
  }

  // ----------------------------------------------------------- paths and calls

  /** What may follow a path segment. */
  predicate PartEnds(k: Kind) { !k.Identifier? && !k.Literal? && !k.MessageCode? && !k.BracketLeft? }

  predicate PartEndsAt(lab: bool, t: seq<Token>, i: nat) { PartEnds(KindAt(t, i)) || LabelColon(t, i, lab) }

  /** No further atom of a segment at `i`. */
  predicate NoAtomAt(lab: bool, t: seq<Token>, i: nat) {
    var k := KindAt(t, i);
    !k.Literal? && !k.MessageCode? && (k.Identifier? ==> LabelColon(t, i, lab))
  }

  lemma AtomsEnd(lab: bool, t: seq<Token>, part: Part, i: nat)
    requires NoAtomAt(lab, t, i)
    ensures Atoms(t, part, false, i, lab) == Parsed(part, i)
  {
  }

  lemma AtomTakes(lab: bool, t: seq<Token>, part: Part, i: nat)
    requires KindAt(t, i).Identifier? && TextAt(t, i) != "" && !LabelColon(t, i, lab)
    ensures Atoms(t, part, false, i, lab) ==
              Atoms(t, Part(part.name + TextAt(t, i), part.index, part.atoms + [Str(TextAt(t, i))]), false, i + 1, lab)
  {
  }

  lemma {:induction false} NamesBack(lab: bool, atoms: seq<Node>, part: Part, t: seq<Token>, i: nat)
    requires forall k :: 0 <= k < |atoms| ==> atoms[k].Str? && atoms[k].text != ""
    requires Here(lab, t, i, Names(atoms))
    requires NoAtomAt(lab, t, i + |atoms|)
    ensures |Names(atoms)| == |atoms|
    ensures Atoms(t, part, false, i, lab) ==
              Parsed(Part(part.name + Spelled(atoms), part.index, part.atoms + atoms), i + |atoms|)
    decreases |atoms|
  {
    hide Atoms, Here;
    NamesLength(atoms);
    if atoms == [] {
      AtomsEnd(lab, t, part, i);
      assert part.name + "" == part.name && part.atoms + [] == part.atoms;
    } else {
      var a := atoms[0];
      At(lab, t, i, Token(Identifier, a.text), Names(atoms[1..]));
      var next := Part(part.name + a.text, part.index, part.atoms + [a]);
      NamesBack(lab, atoms[1..], next, t, i + 1);
      AtomTakes(lab, t, part, i);
      assert a == Str(a.text);
      assert next.atoms + atoms[1..] == part.atoms + atoms;
      assert next.name + Spelled(atoms[1..]) == part.name + Spelled(atoms);
    }
  }

  lemma {:induction false} NamesLength(atoms: seq<Node>)
    requires forall k :: 0 <= k < |atoms| ==> atoms[k].Str?
    ensures |Names(atoms)| == |atoms|
    decreases |atoms|
  {
    if atoms != [] { NamesLength(atoms[1..]); }
  }

  lemma {:induction false} IndexBack(lab: bool, es: seq<Node>, t: seq<Token>, i: nat)
    requires |es| <= 2 && forall k :: 0 <= k < |es| ==> Printable(es[k])
    requires Here(lab, t, i, IndexTokens(es)) && (es == [] ==> !KindAt(t, i).BracketLeft?)
    ensures Index(t, i, lab) == Parsed(es, i + |IndexTokens(es)|)
    decreases es, 7, 0, 0
  {
    hide Parse, Print, Here, Printable, LeadsIn, Stops, Index, KindAt;
    if es == [] {
      NoIndexAt(lab, t, i);
    } else if |es| == 1 {
      Enclosed(lab, t, i, Word(BracketLeft), Print(es[0], 0), Word(BracketRight));
      var j := i + 1 + |Print(es[0], 0)|;
      Closes(lab, 0, t, j);
      Back(lab, 0, es[0], t, i + 1);
      IndexTakes(lab, t, i, es[0], j);
      assert [es[0]] == es;
    } else {
      var a, b := Print(es[0], 0), Print(es[1], ItemLevel(es[1]));
      Enclosed(lab, t, i, Word(BracketLeft), a + [Word(Comma)] + b, Word(BracketRight));
      TwoItems(lab, es, t, i + 1);
      TwoTake(lab, t, i, es[0], i + 1 + |a|, es[1], i + 2 + |a| + |b|);
      assert [es[0], es[1]] == es;
    }
  }

  lemma NoIndexAt(lab: bool, t: seq<Token>, i: nat)
    requires !KindAt(t, i).BracketLeft?
    ensures Index(t, i, lab) == Parsed([], i)
  {
  }

  lemma IndexTakes(lab: bool, t: seq<Token>, i: nat, a: Node, j: nat)
    requires KindAt(t, i).BracketLeft? && Parse(0, t, i + 1, lab) == Parsed(a, j) && KindAt(t, j).BracketRight?
    ensures Index(t, i, lab) == Parsed([a], j + 1)
  {
    hide Parse, KindAt;
  }

  lemma TwoTake(lab: bool, t: seq<Token>, i: nat, a: Node, j: nat, b: Node, k: nat)
    requires KindAt(t, i).BracketLeft? && Parse(0, t, i + 1, lab) == Parsed(a, j) && KindAt(t, j).Comma?
    requires Parse(0, t, j + 1, lab) == Parsed(b, k) && KindAt(t, k).BracketRight?
    ensures Index(t, i, lab) == Parsed([a, b], k + 1)
  {
    hide Parse, KindAt;
  }

  lemma {:induction false} TwoItems(lab: bool, es: seq<Node>, t: seq<Token>, i: nat)
    requires |es| == 2 && Printable(es[0]) && Printable(es[1])
    requires Here(lab, t, i, Print(es[0], 0) + [Word(Comma)] + Print(es[1], ItemLevel(es[1])))
    requires Closer(KindAt(t, i + |Print(es[0], 0)| + 1 + |Print(es[1], ItemLevel(es[1]))|))
    ensures var k := i + |Print(es[0], 0)|;
            Parse(0, t, i, lab) == Parsed(es[0], k) && KindAt(t, k).Comma?
            && Parse(0, t, k + 1, lab) == Parsed(es[1], k + 1 + |Print(es[1], ItemLevel(es[1]))|)
    decreases es, 5, 0, 0
  {
    hide Parse, Print, Here, Printable, LeadsIn, LevelOf, Stops, KindAt;
    var a, b := Print(es[0], 0), Print(es[1], ItemLevel(es[1]));
    var k := i + |a|;
    LastItem(es);
    ItemBack(lab, 0, es, t, i);
    NextItem(lab, es, t, k);
    ItemBack(lab, ItemLevel(es[1]), es[1..], t, k + 1);
  }

  lemma LastItem(es: seq<Node>)
    requires |es| == 2 && Printable(es[0]) && Printable(es[1])
    ensures es[1..][1..] == []
    ensures Print(es[0], 0) + [Word(Comma)] + Print(es[1], ItemLevel(es[1])) == Print(es[0], 0) + ItemTail(es[1..])
    ensures Print(es[1], ItemLevel(es[1])) == Print(es[1], ItemLevel(es[1])) + ItemTail(es[1..][1..])
    ensures |ItemTail(es[1..])| == 1 + |Print(es[1], ItemLevel(es[1]))|
  {
    hide Print, Printable, LeadsIn;
    assert ItemTail(es[1..][1..]) == [];
  }

  lemma IndexFirst(lab: bool, es: seq<Node>, t: seq<Token>, i: nat)
    requires |es| <= 2 && forall k :: 0 <= k < |es| ==> Printable(es[k])
    requires Here(lab, t, i, IndexTokens(es))
    ensures es != [] ==> KindAt(t, i).BracketLeft?
    ensures es == [] ==> IndexTokens(es) == []
  {
    hide Here, Print, Printable;
    if es != [] { Leads(lab, t, i, IndexTokens(es)); }
  }

  lemma {:induction false} PartBack(lab: bool, p: Part, t: seq<Token>, i: nat)
    requires PrintablePart(p) && Here(lab, t, i, PartTokens(p)) && PartEndsAt(lab, t, i + |PartTokens(p)|)
    ensures PathPart(t, i, lab) == Parsed(p, i + |PartTokens(p)|)
    ensures |PartTokens(p)| > 0
    decreases p, 0, 0, 0
  {
    hide IndexTokens, Index, Printable, Atoms, Here, PathPart, KindAt, TextAt, PartTokens, Names, PrintablePart,
      Spelled;
    PartForm(p);
    var names, index := Names(p.atoms), IndexTokens(p.index);
    Split(lab, t, i, names, index);
    var j := i + |names|;
    IndexFirst(lab, p.index, t, j);
    AtomsStop(lab, t, j);
    NamesBack(lab, p.atoms, Part("", [], []), t, i);
    assert "" + p.name == p.name && [] + p.atoms == p.atoms;
    IndexBack(lab, p.index, t, j);
    PartMade(lab, t, i, Part(p.name, [], p.atoms), j, p.index, j + |index|);
  }

  lemma PartForm(p: Part)
    requires PrintablePart(p)
    ensures p.atoms != [] && (forall k :: 0 <= k < |p.atoms| ==> p.atoms[k].Str? && p.atoms[k].text != "")
    ensures p.name == Spelled(p.atoms) && |p.index| <= 2 && (forall k :: 0 <= k < |p.index| ==> Printable(p.index[k]))
    ensures PartTokens(p) == Names(p.atoms) + IndexTokens(p.index) && |Names(p.atoms)| == |p.atoms|
  {
    hide IndexTokens, Printable;
    NamesLength(p.atoms);
  }

  lemma AtomsStop(lab: bool, t: seq<Token>, j: nat)
    ensures KindAt(t, j).BracketLeft? || PartEndsAt(lab, t, j) ==> NoAtomAt(lab, t, j)
    ensures PartEndsAt(lab, t, j) ==> !KindAt(t, j).BracketLeft?
  {
  }

  lemma PartMade(lab: bool, t: seq<Token>, i: nat, part: Part, j: nat, index: seq<Node>, end: nat)
    requires Atoms(t, Part("", [], []), false, i, lab) == Parsed(part, j)
    requires Index(t, j, lab) == Parsed(index, end)
    ensures PathPart(t, i, lab) == Parsed(part.(index := index), end)
  {
    hide Atoms, Index;
  }

  lemma TailPeriod(lab: bool, parts: seq<Part>, t: seq<Token>, i: nat)
    requires forall k :: 0 <= k < |parts| ==> PrintablePart(parts[k])
    requires Here(lab, t, i, PathTail(parts))
    ensures parts != [] ==> KindAt(t, i).Period?
    ensures parts == [] ==> |PathTail(parts)| == 0
  {
    hide PartTokens, PrintablePart, Here, Printable, OpKind, LevelOf;
    if parts != [] {
      var rest := PartTokens(parts[0]) + PathTail(parts[1..]);
      assert PathTail(parts) == [Word(Period)] + rest;
      At(lab, t, i, Word(Period), rest);
    }
  }

  lemma PartTakes(lab: bool, t: seq<Token>, done: seq<Part>, part: Part, i: nat, j: nat)
    requires done != [] && KindAt(t, i).Period? && !KindAt(t, i + 1).ParenLeft?
    requires PathPart(t, i + 1, lab) == Parsed(part, j)
    ensures MoreParts(t, done, i, lab) == MoreParts(t, done + [part], j, lab)
  {
    hide PathPart, ComputedPart;
  }

  lemma PathEnds(lab: bool, t: seq<Token>, done: seq<Part>, i: nat)
    requires done != [] && !KindAt(t, i).Period?
    ensures MoreParts(t, done, i, lab) == Parsed(done, i)
  {
  }

  lemma {:induction false} PathTailBack(lab: bool, parts: seq<Part>, done: seq<Part>, t: seq<Token>, i: nat)
    requires done != [] && forall k :: 0 <= k < |parts| ==> PrintablePart(parts[k])
    requires Here(lab, t, i, PathTail(parts))
    requires var j := i + |PathTail(parts)|; PartEndsAt(lab, t, j) && !KindAt(t, j).Period?
    ensures MoreParts(t, done, i, lab) == Parsed(done + parts, i + |PathTail(parts)|)
    decreases parts, 0, 0, 0
  {
    hide PartTokens, PathPart, PrintablePart, Parse, ComputedPart, Here, Printable, OpKind, LevelOf, MoreParts, KindAt;
    if parts == [] {
      PathEnds(lab, t, done, i);
      assert done + parts == done;
    } else {
      var a, b := PartTokens(parts[0]), PathTail(parts[1..]);
      var j := i + 1 + |a|;
      assert PathTail(parts) == [Word(Period)] + (a + b);
      At(lab, t, i, Word(Period), a + b);
      Split(lab, t, i + 1, a, b);
      PartFirst(lab, parts[0], t, i + 1);
      TailPeriod(lab, parts[1..], t, j);
      PartBack(lab, parts[0], t, i + 1);
      PathTailBack(lab, parts[1..], done + [parts[0]], t, j);
      PartTakes(lab, t, done, parts[0], i, j);
      assert done + [parts[0]] + parts[1..] == done + parts;
    }
  }

  lemma PartFirst(lab: bool, p: Part, t: seq<Token>, i: nat)
    requires PrintablePart(p) && Here(lab, t, i, PartTokens(p))
    ensures KindAt(t, i).Identifier?
  {
    hide PartTokens, Here;
    FirstOfPart(p);
    Leads(lab, t, i, PartTokens(p));
  }

  lemma PrintableVarRef(e: Node)
    requires e.VarRef? && Printable(e)
    ensures e.parts != [] && (forall k :: 0 <= k < |e.parts| ==> PrintablePart(e.parts[k]))
      && Bare(e) == PartTokens(e.parts[0]) + PathTail(e.parts[1..])
  {
    hide PartTokens, PathTail, PrintablePart;
  }

  lemma {:induction false} VarRefBack(lab: bool, e: Node, t: seq<Token>, i: nat)
    requires e.VarRef? && Printable(e) && Here(lab, t, i, Bare(e)) && Stops(lab, 13, t, i + |Bare(e)|)
    ensures Parse(13, t, i, lab) == Parsed(e, i + |Bare(e)|)
    decreases e, 0, 0, 0
  {
    hide PartTokens, PathPart, Parse, PrintablePart, MoreParts, Here, OpKind, LevelOf, Printable;
    PrintableVarRef(e);
    var parts := e.parts;
    var a, b := PartTokens(parts[0]), PathTail(parts[1..]);
    var j := i + |a|;
    Split(lab, t, i, a, b);
    PartFirst(lab, parts[0], t, i);
    TailPeriod(lab, parts[1..], t, j);
    PartBack(lab, parts[0], t, i);
    PathTailBack(lab, parts[1..], [parts[0]], t, j);
    assert [parts[0]] + parts[1..] == parts;
    RuleOf(13, t, i, lab);
  }

  lemma PrintableCall(e: Node)
    requires e.Call? && Printable(e)
    ensures e.name != "" && (forall k :: 0 <= k < |e.args| ==> Printable(e.args[k]))
      && Bare(e) == [Token(Identifier, e.name), Word(ParenLeft)] + Items(e.args) + [Word(ParenRight)]
  {
    hide Items;
  }

  lemma {:induction false} CallBack(lab: bool, e: Node, t: seq<Token>, i: nat)
    requires e.Call? && Printable(e) && Here(lab, t, i, Bare(e)) && Stops(lab, 13, t, i + |Bare(e)|)
    ensures Parse(13, t, i, lab) == Parsed(e, i + |Bare(e)|)
    decreases e, 0, 0, 0
  {
    hide Parse, Args, Items, Path, Here, OpKind, LevelOf, Printable;
    PrintableCall(e);
    var args := Items(e.args) + [Word(ParenRight)];
    assert Bare(e) == [Token(Identifier, e.name)] + ([Word(ParenLeft)] + args);
    At(lab, t, i, Token(Identifier, e.name), [Word(ParenLeft)] + args);
    At(lab, t, i + 1, Word(ParenLeft), args);
    CallArgsBack(lab, e.args, t, i + 2);
    NameAlone(lab, e.name, t, i);
    CallTakes(lab, e, t, i, i + |Bare(e)|);
  }

  lemma CallTakes(lab: bool, e: Node, t: seq<Token>, i: nat, end: nat)
    requires e.Call? && e.name != "" && KindAt(t, i).Identifier? && KindAt(t, i + 1).ParenLeft?
    requires Path(t, i, lab) == Parsed([Part(e.name, [], [Str(e.name)])], i + 1)
    requires Args(t, i + 2, lab) == Parsed(e.args, end) && !KindAt(t, end).Period?
    ensures Parse(13, t, i, lab) == Parsed(e, end)
  {
    hide Parse, Args, Path, KindAt;
    RuleOf(13, t, i, lab);
    assert MethodChain(t, e, end, lab) == Parsed(e, end);
    assert Called(t, [Part(e.name, [], [Str(e.name)])], i + 1, lab) == Parsed(e, end);
  }

  lemma NameAlone(lab: bool, name: string, t: seq<Token>, i: nat)
    requires name != "" && KindAt(t, i).Identifier? && TextAt(t, i) == name && KindAt(t, i + 1).ParenLeft?
    requires !LabelColon(t, i, lab)
    ensures Path(t, i, lab) == Parsed([Part(name, [], [Str(name)])], i + 1)
  {
    hide Parse, MessageCodeAt, ComputedPart, Here;
    var p := Part(name, [], [Str(name)]);
    assert "" + name == name && [] + [Str(name)] == [Str(name)];
    assert Atoms(t, p, false, i + 1, lab) == Parsed(p, i + 1);
    assert Atoms(t, Part("", [], []), false, i, lab) == Parsed(p, i + 1);
    assert PathPart(t, i, lab) == Parsed(p, i + 1);
    assert MoreParts(t, [p], i + 1, lab) == Parsed([p], i + 1);
  }

  // ----------------------------------------------------------- strings

  lemma {:induction false} PiecesBack(lab: bool, ps: seq<Node>, pieces: seq<Node>, t: seq<Token>, i: nat)
    requires forall k :: 0 <= k < |ps| ==> PrintablePiece(ps[k])
    requires Here(lab, t, i, PieceTokens(ps))
    requires var k := KindAt(t, i + |PieceTokens(ps)|); !StringKind(k) && !k.ParenLeft?
    ensures Pieces(t, pieces, i, lab) == Parsed(pieces + ps, i + |PieceTokens(ps)|)
    decreases ps, 0, 0, 0
  {
    hide Args, PrintablePiece, PieceToken, MessageCodeAt, Parse, Here, Printable, Pieces, KindAt, TextAt;
    if ps == [] {
      assert pieces + ps == pieces;
      PiecesEnd(lab, t, pieces, i);
    } else {
      var a, b := PieceToken(ps[0]), PieceTokens(ps[1..]);
      Split(lab, t, i, a, b);
      if ps[1..] != [] { PieceFirst(lab, ps[1], b, t, i + |a|); }
      PieceBack(lab, ps[0], t, i);
      PieceTakes(lab, t, pieces, ps[0], i, i + |a|);
      PiecesBack(lab, ps[1..], pieces + [ps[0]], t, i + |a|);
      assert pieces + [ps[0]] + ps[1..] == pieces + ps;
    }
  }

  lemma PiecesEnd(lab: bool, t: seq<Token>, pieces: seq<Node>, i: nat)
    requires !StringKind(KindAt(t, i))
    ensures Pieces(t, pieces, i, lab) == Parsed(pieces, i)
  {
  }

  lemma PieceTakes(lab: bool, t: seq<Token>, pieces: seq<Node>, p: Node, i: nat, j: nat)
    requires if p.Str? then KindAt(t, i).StringPart? && TextAt(t, i) == p.text && j == i + 1
             else KindAt(t, i).MessageCode? && MessageCodeAt(t, i, lab) == Parsed(p, j)
    ensures Pieces(t, pieces, i, lab) == Pieces(t, pieces + [p], j, lab)
  {
    hide MessageCodeAt;
  }

  lemma PieceFirst(lab: bool, p: Node, b: seq<Token>, t: seq<Token>, i: nat)
    requires PrintablePiece(p) && PieceToken(p) <= b && Here(lab, t, i, b)
    ensures KindAt(t, i) == if p.Str? then StringPart else Kind.MessageCode
  {
    Leads(lab, t, i, b);
    assert b[0] == PieceToken(p)[0];
  }

  lemma {:induction false} PieceBack(lab: bool, p: Node, t: seq<Token>, i: nat)
    requires PrintablePiece(p) && Here(lab, t, i, PieceToken(p)) && !KindAt(t, i + |PieceToken(p)|).ParenLeft?
    ensures if p.Str? then KindAt(t, i).StringPart? && TextAt(t, i) == p.text && |PieceToken(p)| == 1
            else KindAt(t, i).MessageCode? && MessageCodeAt(t, i, lab) == Parsed(p, i + |PieceToken(p)|)
    decreases p, 0, 0, 0
  {
    hide Args, Items, Here, Printable, OpKind, LevelOf, MessageCodeAt, KindAt, TextAt;
    if p.Str? {
      Leads(lab, t, i, PieceToken(p));
    } else {
      var code := Token(Kind.MessageCode, p.code);
      if p.args == [] {
        assert PieceToken(p) == [code] + [];
        At(lab, t, i, code, []);
        CodeTakes(lab, p, t, i);
      } else {
        var args := Items(p.args) + [Word(ParenRight)];
        assert PieceToken(p) == [code] + ([Word(ParenLeft)] + args);
        At(lab, t, i, code, [Word(ParenLeft)] + args);
        At(lab, t, i + 1, Word(ParenLeft), args);
        CallArgsBack(lab, p.args, t, i + 2);
        CodeTakes(lab, p, t, i);
      }
    }
  }

  lemma CodeTakes(lab: bool, p: Node, t: seq<Token>, i: nat)
    requires p.Message? && KindAt(t, i).MessageCode? && TextAt(t, i) == p.code
    requires if p.args == [] then !KindAt(t, i + 1).ParenLeft? else KindAt(t, i + 1).ParenLeft?
    ensures p.args == [] ==> MessageCodeAt(t, i, lab) == Parsed(p, i + 1)
    ensures forall j :: p.args != [] && Args(t, i + 2, lab) == Parsed(p.args, j) ==>
              MessageCodeAt(t, i, lab) == Parsed(p, j)
  {
    hide Args, KindAt, TextAt;
  }

  lemma PrintableStrConcat(e: Node)
    requires e.StrConcat? && Printable(e)
    ensures e.pieces != [] && (forall k :: 0 <= k < |e.pieces| ==> PrintablePiece(e.pieces[k]))
      && Bare(e) == PieceTokens(e.pieces)
  {
    hide PieceTokens, PrintablePiece;
  }

  lemma {:induction false} ConcatBack(lab: bool, e: Node, t: seq<Token>, i: nat)
    requires e.StrConcat? && Printable(e) && Here(lab, t, i, Bare(e)) && Stops(lab, 13, t, i + |Bare(e)|)
    ensures Parse(13, t, i, lab) == Parsed(e, i + |Bare(e)|)
    decreases e, 0, 0, 0
  {
    hide PieceToken, PrintablePiece, Parse, Pieces, Here, OpKind, LevelOf, Printable, KindAt, PieceTokens, Bare, Stops;
    PrintableStrConcat(e);
    FirstPiece(e.pieces);
    PieceFirst(lab, e.pieces[0], Bare(e), t, i);
    NoGlue(lab, t, i + |Bare(e)|);
    PiecesBack(lab, e.pieces, [], t, i);
    assert [] + e.pieces == e.pieces;
    ConcatTakes(lab, e, t, i, i + |Bare(e)|);
  }

  lemma FirstPiece(ps: seq<Node>)
    requires ps != [] && forall k :: 0 <= k < |ps| ==> PrintablePiece(ps[k])
    ensures PieceToken(ps[0]) <= PieceTokens(ps)
  {
    hide PieceToken, PrintablePiece;
  }

  lemma NoGlue(lab: bool, t: seq<Token>, j: nat)
    requires Stops(lab, 13, t, j)
    ensures !StringKind(KindAt(t, j)) && !KindAt(t, j).ParenLeft?
  {
  }

  lemma ConcatTakes(lab: bool, e: Node, t: seq<Token>, i: nat, end: nat)
    requires e.StrConcat? && StringKind(KindAt(t, i)) && Pieces(t, [], i, lab) == Parsed(e.pieces, end)
    ensures Parse(13, t, i, lab) == Parsed(e, end)
  {
    hide Parse, Pieces;
    RuleOf(13, t, i, lab);
  }

  /** Parsing undoes printing: wherever the printed expression stands before a token that
      closes it, the tree comes back whole and the parser stops at that token. In a case
      label the expression has no bare colon of its own, and ends at one. */
  lemma ParsingUndoesPrinting(lab: bool, e: Node, t: seq<Token>, i: nat)
    requires Printable(e) && Here(lab, t, i, Print(e, 0)) && CloserAt(lab, t, i + |Print(e, 0)|)
    ensures Parse(0, t, i, lab) == Parsed(e, i + |Print(e, 0)|)
  {
    hide Parse, Print, Stops, Here, Printable;
    Closes(lab, 0, t, i + |Print(e, 0)|);
    Back(lab, 0, e, t, i);
  }
}

/** Which operator binds tighter, which tokens begin what, and where a statement may end: the
    tables of the GS1 parser (reborn_protocol/gs1/parser.py) in terms of what it reads. */
module Gs1Ladder {
  import opened Gs1Syntax
  import opened Gs1Grammar
  import opened Gs1Statements
  import opened Gs1Printer
  import opened Gs1RoundTrip
  import opened Gs1Programs

  /** How tightly an operator binds; operators of the two comparing ranks do not chain. */
  function Rank(op: string): nat {
    if op == "||" then 1
    else if op == "&&" then 2
    else if op == "==" || op == "!=" || op == "=" then 3
    else if op == "<" || op == ">" || op == "<=" || op == ">=" then 4
    else if op == "@" then 5
    else if op == "+" || op == "-" then 6
    else if op == "*" || op == "/" then 7
    else if op == "%" then 8
    else if op == "^" then 9
    else 0
  }

  lemma RankIsLevel(op: string)
    ensures Rank(op) != 0 <==> OpLevel(OpKind(op)) != 0
    ensures Rank(op) != 0 ==> OpLevel(OpKind(op)) == if op == "^" then 10 else Rank(op)
  {
  }

  function Operation(op: string, a: Node, b: Node): Node { Binary(op, a, b) }

  /** `a op b op' c`, between plain numbers. */
  function Row(op: string, op': string, a: string, b: string, c: string): seq<Token> {
    [Token(Literal, a), Token(OpKind(op), op), Token(Literal, b), Token(OpKind(op'), op'), Token(Literal, c)]
  }

  /** Of two operators in a row the one that binds tighter takes the number between them; of two
      that bind alike the first does, comparisons apart. */
  lemma Precedence(op: string, op': string, a: string, b: string, c: string, t: seq<Token>, i: nat)
    requires Rank(op) != 0 && Rank(op') != 0 && Here(false, t, i, Row(op, op', a, b, c)) && KindAt(t, i + 5).End?
    requires Rank(op) == Rank(op') ==> Rank(op) !in {3, 4}
    ensures Parse(0, t, i, false) ==
              Parsed(if Rank(op') > Rank(op) then Binary(op, Lit(a), Binary(op', Lit(b), Lit(c)))
                     else Binary(op', Binary(op, Lit(a), Lit(b)), Lit(c)), i + 5)
  {
    hide Parse, Here, KindAt, OpKind, OpLevel, Rank;
    RankIsLevel(op);
    RankIsLevel(op');
    Ranked(op);
    Ranked(op');
    var e := if Rank(op') > Rank(op) then Binary(op, Lit(a), Binary(op', Lit(b), Lit(c)))
             else Binary(op', Binary(op, Lit(a), Lit(b)), Lit(c));
    if Rank(op') > Rank(op) { RightPrinted(op, op', a, b, c); } else { LeftPrinted(op, op', a, b, c); }
    ParsingUndoesPrinting(false, e, t, i);
  }

  /** Comparisons of one rank do not chain: the expression ends where the second one stands. */
  lemma ComparisonsEnd(op: string, op': string, a: string, b: string, t: seq<Token>, i: nat)
    requires Rank(op) == Rank(op') && Rank(op) in {3, 4}
    requires Here(false, t, i, [Token(Literal, a), Token(OpKind(op), op), Token(Literal, b), Token(OpKind(op'), op')])
    ensures Parse(0, t, i, false) == Parsed(Binary(op, Lit(a), Lit(b)), i + 3)
  {
    hide Parse, OpKind, OpLevel, Print, Printable, LevelOf, Here, KindAt, TextAt;
    var l, e := Rank(op), Binary(op, Lit(a), Lit(b));
    RankIsLevel(op);
    RankIsLevel(op');
    var row := [Token(Literal, a), Token(OpKind(op), op), Token(Literal, b), Token(OpKind(op'), op')];
    OpShows(op);
    StandsHere(t, i, row, 0, Token(Literal, a));
    StandsHere(t, i, row, 1, Token(OpKind(op), op));
    StandsHere(t, i, row, 2, Token(Literal, b));
    StandsHere(t, i, row, 3, Token(OpKind(op'), op'));
    OpStops(false, l, t, i + 1);
    OpStops(false, l, t, i + 3);
    LiteralPrinted(a, l + 1);
    LiteralPrinted(b, l + 1);
    Back(false, l + 1, Lit(a), t, i);
    Back(false, l + 1, Lit(b), t, i + 2);
    OneOpTakes(false, l, e, t, i, i + 1, i + 3);
    PassesUp(l, t, i, e, i + 3);
  }

  lemma StandsHere(t: seq<Token>, i: nat, ts: seq<Token>, k: nat, one: Token)
    requires k < |ts| && Here(false, t, i, ts) && one == ts[k]
    ensures KindAt(t, i + k) == one.kind && (Textless(one.kind) || TextAt(t, i + k) == one.text)
    ensures Here(false, t, i + k, [one])
  {
    assert Stands(t[i + k], ts[k]);
  }

  lemma {:induction false} PassesUp(level: nat, t: seq<Token>, i: nat, e: Node, j: nat)
    requires level <= 4 && Parse(level, t, i, false) == Parsed(e, j) && level <= OpLevel(KindAt(t, j)) <= 4
    ensures Parse(0, t, i, false) == Parsed(e, j)
  {
    hide Parse;
    if level > 0 {
      RuleOf(level - 1, t, i, false);
      PassesUp(level - 1, t, i, e, j);
    }
  }

  lemma Ranked(op: string)
    ensures Rank(op) <= 9 && (Rank(op) == 9 <==> op == "^")
  {
  }

  lemma LiteralPrinted(a: string, level: nat)
    requires level <= 13
    ensures Printable(Lit(a)) && Print(Lit(a), level) == [Token(Literal, a)] && LevelOf(Lit(a)) == 13
  {
  }

  lemma BinaryPrinted(op: string, x: Node, y: Node, level: nat)
    requires OpLevel(OpKind(op)) != 0 && Printable(x) && Printable(y) && level <= OpLevel(OpKind(op))
    ensures var own := OpLevel(OpKind(op));
            && Printable(Binary(op, x, y)) && LevelOf(Binary(op, x, y)) == own && own + 1 <= 13
            && Print(Binary(op, x, y), level) ==
                 Print(x, if Chains(own) then own else own + 1) + [Token(OpKind(op), op)] + Print(y, own + 1)
  {
    hide OpKind;
  }

  lemma RightPrinted(op: string, op': string, a: string, b: string, c: string)
    requires OpLevel(OpKind(op)) != 0 && OpLevel(OpKind(op')) > OpLevel(OpKind(op))
    ensures var e := Binary(op, Lit(a), Binary(op', Lit(b), Lit(c)));
            Printable(e) && Print(e, 0) == Row(op, op', a, b, c)
  {
    hide OpKind, OpLevel, Printable, Print, LevelOf;
    var l, l' := OpLevel(OpKind(op)), OpLevel(OpKind(op'));
    Levels(op);
    Levels(op');
    LiteralPrinted(a, if Chains(l) then l else l + 1);
    LiteralPrinted(b, if Chains(l') then l' else l' + 1);
    LiteralPrinted(c, l' + 1);
    BinaryPrinted(op', Lit(b), Lit(c), l + 1);
    BinaryPrinted(op, Lit(a), Binary(op', Lit(b), Lit(c)), 0);
  }

  lemma Levels(op: string)
    ensures OpLevel(OpKind(op)) <= 10
  {
  }

  lemma LeftPrinted(op: string, op': string, a: string, b: string, c: string)
    requires OpLevel(OpKind(op')) != 0 && OpLevel(OpKind(op)) >= OpLevel(OpKind(op'))
    requires OpLevel(OpKind(op)) == OpLevel(OpKind(op')) ==> Chains(OpLevel(OpKind(op)))
    ensures var e := Binary(op', Binary(op, Lit(a), Lit(b)), Lit(c));
            Printable(e) && Print(e, 0) == Row(op, op', a, b, c)
  {
    hide OpKind, OpLevel, Printable, Print, LevelOf;
    var l, l' := OpLevel(OpKind(op)), OpLevel(OpKind(op'));
    Levels(op);
    Levels(op');
    LiteralPrinted(a, if Chains(l) then l else l + 1);
    LiteralPrinted(b, l + 1);
    LiteralPrinted(c, l' + 1);
    BinaryPrinted(op, Lit(a), Lit(b), if Chains(l') then l' else l' + 1);
    BinaryPrinted(op', Binary(op, Lit(a), Lit(b)), Lit(c), 0);
  }

  /** A sign or a negation binds tighter than any operator between two values: `-a ^ b` is
      `(-a) ^ b`. */
  lemma SignsBindTightest(sign: string, op: string, a: string, b: string, t: seq<Token>, i: nat)
    requires sign in {"+", "-", "!"} && Rank(op) != 0 && KindAt(t, i + 4).End?
    requires Here(false, t, i, [Token(OpKind(sign), sign), Token(Literal, a), Token(OpKind(op), op), Token(Literal, b)])
    ensures Parse(0, t, i, false) == Parsed(Binary(op, Unary(sign, Lit(a)), Lit(b)), i + 4)
  {
    hide Parse, Here, KindAt, OpKind, OpLevel, Rank, Printable, Print, LevelOf;
    RankIsLevel(op);
    Ranked(op);
    var l := OpLevel(OpKind(op));
    var left := if Chains(l) then l else l + 1;
    SignPrinted(sign, a, left);
    LiteralPrinted(b, l + 1);
    BinaryPrinted(op, Unary(sign, Lit(a)), Lit(b), 0);
    assert [Token(OpKind(sign), sign), Token(Literal, a)] + [Token(OpKind(op), op)] + [Token(Literal, b)]
           == [Token(OpKind(sign), sign), Token(Literal, a), Token(OpKind(op), op), Token(Literal, b)];
    ParsingUndoesPrinting(false, Binary(op, Unary(sign, Lit(a)), Lit(b)), t, i);
  }

  lemma SignPrinted(sign: string, a: string, level: nat)
    requires sign in {"+", "-", "!"} && level <= 11
    ensures Printable(Unary(sign, Lit(a)))
    ensures Print(Unary(sign, Lit(a)), level) == [Token(OpKind(sign), sign), Token(Literal, a)]
  {
    LiteralPrinted(a, 11);
  }

  // ------------------------------------------------------------- statements

  /** Seven operators assign. */
  lemma SevenAssign(op: string, name: string, n: string, t: seq<Token>, recover: bool)
    requires op in {"=", "+=", "-=", "*=", "/=", "%=", "^="} && name != ""
    requires |t| == 7 && t[6].kind.Eof?
    requires Here(false, t, 0, [Token(Identifier, name), Token(AssignOpKind(op), op), Word(ParenLeft),
                                Token(Literal, n), Word(ParenRight), Word(End)])
    ensures Program(t, [], 0, recover) ==
              Result(Parsed([Assign(VarRef([Part(name, [], [Str(name)])]), op, Lit(n))], 6), [])
  {
    hide Program, Here, Printable, Bare, Print;
    var target := VarRef([Part(name, [], [Str(name)])]);
    var s := Assign(target, op, Lit(n));
    AssignWritten(op, name, n);
    ProgramBack([s], [], t, 0, recover);
    assert [] + [s] == [s];
  }

  lemma AssignWritten(op: string, name: string, n: string)
    requires op in {"=", "+=", "-=", "*=", "/=", "%=", "^="} && name != ""
    ensures var s := Assign(VarRef([Part(name, [], [Str(name)])]), op, Lit(n));
            && AllWritable([s])
            && BodyTokens([s]) == [Token(Identifier, name), Token(AssignOpKind(op), op), Word(ParenLeft),
                                   Token(Literal, n), Word(ParenRight), Word(End)]
  {
    hide Printable, Bare, Print, LevelOf;
    var target := VarRef([Part(name, [], [Str(name)])]);
    var s := Assign(target, op, Lit(n));
    NamePrinted(name);
    LiteralPrinted(n, 0);
    SevenKinds(op);
    assert Writable(s);
    assert StmtTokens(s) == [Token(Identifier, name), Token(AssignOpKind(op), op), Word(ParenLeft),
                             Token(Literal, n), Word(ParenRight), Word(End)];
    assert [s][1..] == [] && BodyTokens([]) == [];
  }

  predicate SevenKind(op: string) { AssignKind(AssignOpKind(op)) }

  lemma SevenKinds(op: string)
    requires op in {"=", "+=", "-=", "*=", "/=", "%=", "^="}
    ensures SevenKind(op)
  {
  }

  lemma NamePrinted(name: string)
    requires name != ""
    ensures var e := VarRef([Part(name, [], [Str(name)])]); Printable(e) && Bare(e) == [Token(Identifier, name)]
  {
    var part := Part(name, [], [Str(name)]);
    assert Spelled([Str(name)]) == name + Spelled([]) == name;
    assert Names([Str(name)]) == [Token(Identifier, name)];
    assert PartTokens(part) == [Token(Identifier, name)];
    assert [part][1..] == [] && PathTail([]) == [];
  }

  /** The words of six kinds are arguments of a command as they stand. */
  lemma SixWordKinds(k: Kind, word: string, t: seq<Token>, i: nat)
    requires k in {Item, Carry, Direction, Gender, Color, Baddy}
    requires KindAt(t, i) == k && TextAt(t, i) == word && KindAt(t, i + 1).End?
    ensures CommandTail(t, "c", i) == Parsed(Stmt.Command("c", [SpecialLit(k, word)]), i + 2)
  {
    hide Parse;
    assert SpecialKind(k) && !Terminates(k) && !k.Comma?;
    var args := CommandArgs(t, [], i);
    assert args == Parsed([] + [SpecialLit(k, word)], i + 1);
    assert [] + [SpecialLit(k, word)] == [SpecialLit(k, word)];
  }

  /** A statement ends at its terminator, which it takes, or where a block or the text does. */
  lemma StatementsEnd(k: Kind, t: seq<Token>, i: nat, recover: bool)
    requires k in {KwReturn, KwBreak, KwContinue} && KindAt(t, i) == k
    ensures KindAt(t, i + 1).End? ==> Statement(t, i, recover) == Result(Parsed(Flow(k), i + 2), [])
    ensures KindAt(t, i + 1).BraceRight? || KindAt(t, i + 1).Eof? ==>
              Statement(t, i, recover) == Result(Parsed(Flow(k), i + 1), [])
    ensures KindAt(t, i + 1).Identifier? || KindAt(t, i + 1).Literal? ==>
              Statement(t, i, recover) == Result(Failed(i + 1), [])
    ensures !k.KwReturn? && KindAt(t, i + 1).ParenLeft? && KindAt(t, i + 2).ParenRight? && KindAt(t, i + 3).End? ==>
              Statement(t, i, recover) == Result(Parsed(Flow(k), i + 4), [])
  {
  }

  /** A label ends in the colon of the punctuation table or in the bare one of a name. */
  lemma LabelsEndInColons(t: seq<Token>, i: nat)
    ensures KindAt(t, i).Colon? ==> CaseColon(t, i) == Parsed((), i + 1)
    ensures KindAt(t, i).Identifier? && TextAt(t, i) == ":" ==> CaseColon(t, i) == Parsed((), i + 1)
    ensures KindAt(t, i).Identifier? && TextAt(t, i) != ":" ==> CaseColon(t, i) == Failed(i)
    ensures KindAt(t, i).End? || KindAt(t, i).Comma? ==> CaseColon(t, i) == Failed(i)
  {
  }

  lemma LastPiece(t: seq<Token>, pieces: seq<Node>, i: nat)
    requires KindAt(t, i).StringPart? && KindAt(t, i + 1).End?
    ensures Pieces(t, pieces, i, false) == Parsed(pieces + [Str(TextAt(t, i))], i + 1)
  {
    assert Pieces(t, pieces + [Str(TextAt(t, i))], i + 1, false) == Parsed(pieces + [Str(TextAt(t, i))], i + 1);
  }

  lemma FirstPiece(t: seq<Token>, i: nat)
    requires KindAt(t, i + 1).StringPart?
    ensures KindAt(t, i).RawMessageCode? ==> Pieces(t, [], i, false) == Pieces(t, [], i + 1, false)
    ensures KindAt(t, i).StringPart? ==> Pieces(t, [], i, false) == Pieces(t, [Str(TextAt(t, i))], i + 1, false)
    ensures KindAt(t, i).MessageCode? ==>
              Pieces(t, [], i, false) == Pieces(t, [Message(TextAt(t, i), [])], i + 1, false)
  {
    assert [] + [Str(TextAt(t, i))] == [Str(TextAt(t, i))];
    assert [] + [Message(TextAt(t, i), [])] == [Message(TextAt(t, i), [])];
  }

  /** Text begins with a piece of it, a message code, or the empty mark of an argument that is
      one; the mark is no piece. */
  lemma TextPieces(t: seq<Token>, i: nat)
    requires KindAt(t, i + 1).StringPart? && KindAt(t, i + 2).End?
    ensures KindAt(t, i).RawMessageCode? ==> Primary(t, i, false) == Parsed(StrConcat([Str(TextAt(t, i + 1))]), i + 2)
    ensures KindAt(t, i).StringPart? ==>
              Primary(t, i, false) == Parsed(StrConcat([Str(TextAt(t, i)), Str(TextAt(t, i + 1))]), i + 2)
    ensures KindAt(t, i).MessageCode? ==>
              Primary(t, i, false) == Parsed(StrConcat([Message(TextAt(t, i), []), Str(TextAt(t, i + 1))]), i + 2)
  {
    hide Pieces;
    LastPiece(t, [], i + 1);
    LastPiece(t, [Str(TextAt(t, i))], i + 1);
    LastPiece(t, [Message(TextAt(t, i), [])], i + 1);
    FirstPiece(t, i);
    assert [] + [Str(TextAt(t, i + 1))] == [Str(TextAt(t, i + 1))];
    assert [Str(TextAt(t, i))] + [Str(TextAt(t, i + 1))] == [Str(TextAt(t, i)), Str(TextAt(t, i + 1))];
    assert [Message(TextAt(t, i), [])] + [Str(TextAt(t, i + 1))]
           == [Message(TextAt(t, i), []), Str(TextAt(t, i + 1))];
  }
}

/** When the GS1 parser does not end: exactly when the array literal of a case label stands
    open at the label's colon. */
module Gs1Hangs {
  import opened Gs1Syntax
  import opened Gs1Grammar
  import opened Gs1Statements
  import opened Gs1Printer
  import opened Gs1RoundTrip
  import opened Gs1Recovery
  import opened Gs1Mended
  import opened Gs1Mending
  import opened Gs1Labels

  // ------------------------------------------------------------- a label

  /** `t` with `x` put in before the token at `h`. */
  function Inserted(t: seq<Token>, h: nat, x: seq<Token>): seq<Token>
    requires h <= |t|
  {
    t[..h] + x + t[h..]
  }

  /** An empty name, a brace, and more. */
  function Closing(w: seq<Token>): seq<Token> { [Token(Identifier, ""), Word(BraceRight)] + w }

  /** With `Closing(w)` put in before its colon, the label is an expression up to the colon. */
  predicate Mends(t: seq<Token>, c: nat, h: nat, w: seq<Token>)
    requires h <= |t|
  {
    var r := Parse(0, Inserted(t, h, Closing(w)), c, true);
    r.Parsed? && r.at == h + |Closing(w)|
  }

  /** Reading a label hangs at its colon exactly when a closing brace could stand there: when
      the tokens before the colon, a closing brace and some more make an expression. */
  lemma LabelHangsIff(t: seq<Token>, c: nat, h: nat)
    requires BareColon(t, h) && c <= h
    ensures Parse(0, t, c, true) == Hung(h) <==> exists w :: Mends(t, c, h, w)
  {
    hide Parse, Twin, Halts;
    if Parse(0, t, c, true) == Hung(h) {
      var w := MendParse(0, t, h, c);
      assert Halts(0, t[h..]) by { ColonHalts(t, h); }
      assert Mended(t, h, w, t[h..]) == Inserted(t, h, Closing(w));
      assert Mends(t, c, h, w);
    } else if w :| Mends(t, c, h, w) {
      var u := Inserted(t, h, Closing(w));
      assert Mended(t, h, w, t[h..]) == u;
      After(t, h, w, t[h..]);
      SameParse(0, t, u, h, c);
    }
  }

  lemma ColonHalts(t: seq<Token>, h: nat)
    requires BareColon(t, h)
    ensures Halts(0, t[h..])
  {
    assert t[h..][0] == t[h];
  }

  // ------------------------------------------------------------- statements

  /** A label read from behind a `case` at `i` or later comes round for ever at `h`. */
  ghost predicate HangsIn(t: seq<Token>, i: nat, h: nat) {
    exists c :: i <= c < h && LabelLoops(t, c, h)
  }

  predicate LabelLoops(t: seq<Token>, c: nat, h: nat) {
    AtWord(t, c, "case") && Parse(0, t, c + 1, true) == Hung(h)
  }

  ghost predicate ByLabel<T>(t: seq<Token>, i: nat, r: Result<T>) { r.out.Hung? ==> HangsIn(t, i, r.out.at) }

  lemma Earlier<T>(t: seq<Token>, i: nat, j: nat, r: Result<T>)
    requires ByLabel(t, j, r) && i <= j
    ensures ByLabel(t, i, r)
  {
  }

  lemma {:induction false} ProgramByLabel(t: seq<Token>, body: seq<Stmt>, i: nat, recover: bool)
    ensures ByLabel(t, i, Program(t, body, i, recover))
    decreases |t| - i
  {
    hide HangsIn, Round;
    var k := KindAt(t, i);
    if k.Eof? { return; }
    if k.End? || k.BraceRight? {
      ProgramByLabel(t, body, i + 1, recover);
      Earlier(t, i, i + 1, Program(t, body, i + 1, recover));
      return;
    }
    RoundByLabel(t, i, recover);
    var s := Round(t, i, recover);
    if s.out.Parsed? {
      var rest := Program(t, body + s.out.tree, s.out.at, recover);
      ProgramByLabel(t, body + s.out.tree, s.out.at, recover);
      Earlier(t, i, s.out.at, rest);
    }
  }

  lemma {:induction false} RoundByLabel(t: seq<Token>, i: nat, recover: bool)
    requires !KindAt(t, i).Eof?
    ensures ByLabel(t, i, Round(t, i, recover))
    decreases |t| - i, 105
  {
    hide HangsIn, Statement;
    StatementByLabel(t, i, recover);
  }

  lemma {:induction false} BlockByLabel(t: seq<Token>, i: nat, recover: bool)
    ensures ByLabel(t, i, BlockAt(t, i, recover))
    decreases |t| - i, 110
  {
    hide HangsIn, Statement, BlockRest;
    if KindAt(t, i).BraceLeft? {
      BlockRestByLabel(t, [], i + 1, recover);
      Earlier(t, i, i + 1, BlockRest(t, [], i + 1, recover));
    } else {
      StatementByLabel(t, i, recover);
    }
  }

  lemma {:induction false} BlockRestByLabel(t: seq<Token>, body: seq<Stmt>, i: nat, recover: bool)
    ensures ByLabel(t, i, BlockRest(t, body, i, recover))
    decreases |t| - i, 120
  {
    hide HangsIn, Round;
    var k := KindAt(t, i);
    if k.Eof? || k.BraceRight? { return; }
    if k.End? {
      BlockRestByLabel(t, body, i + 1, recover);
      Earlier(t, i, i + 1, BlockRest(t, body, i + 1, recover));
      return;
    }
    RoundByLabel(t, i, recover);
    var s := Round(t, i, recover);
    if s.out.Parsed? {
      BlockRestByLabel(t, body + s.out.tree, s.out.at, recover);
      Earlier(t, i, s.out.at, BlockRest(t, body + s.out.tree, s.out.at, recover));
    }
  }

  lemma {:induction false} StatementByLabel(t: seq<Token>, i: nat, recover: bool)
    ensures ByLabel(t, i, Statement(t, i, recover))
    decreases |t| - i, 100
  {
    hide HangsIn, BlockRest, IfTail, ForTail, Headed, SwitchTail, FunctionTail, EndStatement, CommandTail, Simple;
    var k := KindAt(t, i);
    if k.BraceLeft? {
      BlockRestByLabel(t, [], i + 1, recover);
      Earlier(t, i, i + 1, BlockRest(t, [], i + 1, recover));
    } else if k.KwIf? {
      IfByLabel(t, i + 1, recover);
      Earlier(t, i, i + 1, IfTail(t, i + 1, recover));
    } else if k.KwFor? {
      ForByLabel(t, i + 1, recover);
      Earlier(t, i, i + 1, ForTail(t, i + 1, recover));
    } else if k.KwWhile? || k.KwWith? {
      HeadedByLabel(t, i + 1, k, recover);
      Earlier(t, i, i + 1, Headed(t, i + 1, k, recover));
    } else if k.KwSwitch? {
      SwitchByLabel(t, i + 1, recover);
      Earlier(t, i, i + 1, SwitchTail(t, i + 1, recover));
    } else if k.KwFunction? {
      FunctionByLabel(t, i + 1, recover);
      Earlier(t, i, i + 1, FunctionTail(t, i + 1, recover));
    }
  }

  lemma {:induction false} IfByLabel(t: seq<Token>, i: nat, recover: bool)
    ensures ByLabel(t, i, IfTail(t, i, recover))
    decreases |t| - i, 90
  {
    hide HangsIn, BlockAt, ElseTail, Condition;
    var c := Condition(t, i);
    if !c.Parsed? { return; }
    var b := BlockAt(t, c.at, recover);
    BlockByLabel(t, c.at, recover);
    Earlier(t, i, c.at, b);
    if b.out.Parsed? {
      ElseByLabel(t, b.out.at, recover);
      Earlier(t, i, b.out.at, ElseTail(t, b.out.at, recover));
    }
  }

  lemma {:induction false} ElseByLabel(t: seq<Token>, i: nat, recover: bool)
    ensures ByLabel(t, i, ElseTail(t, i, recover))
    decreases |t| - i, 95
  {
    hide HangsIn, BlockAt, IfTail;
    var at := Skip(t, i);
    if KindAt(t, at).KwElseIf? {
      IfByLabel(t, at + 1, recover);
      Earlier(t, i, at + 1, IfTail(t, at + 1, recover));
    } else if KindAt(t, at).KwElse? {
      BlockByLabel(t, at + 1, recover);
      Earlier(t, i, at + 1, BlockAt(t, at + 1, recover));
    }
  }

  lemma {:induction false} HeadedByLabel(t: seq<Token>, i: nat, k: Kind, recover: bool)
    ensures ByLabel(t, i, Headed(t, i, k, recover))
    decreases |t| - i, 90
  {
    hide HangsIn, BlockAt, Condition;
    var c := Condition(t, i);
    if c.Parsed? {
      BlockByLabel(t, c.at, recover);
      Earlier(t, i, c.at, BlockAt(t, c.at, recover));
    }
  }

  lemma {:induction false} ForByLabel(t: seq<Token>, i: nat, recover: bool)
    ensures ByLabel(t, i, ForTail(t, i, recover))
    decreases |t| - i, 90
  {
    hide HangsIn, BlockAt, ForHeader;
    var c := ForHeader(t, i);
    if c.Parsed? {
      BlockByLabel(t, c.at, recover);
      Earlier(t, i, c.at, BlockAt(t, c.at, recover));
    }
  }

  lemma {:induction false} FunctionByLabel(t: seq<Token>, i: nat, recover: bool)
    ensures ByLabel(t, i, FunctionTail(t, i, recover))
    decreases |t| - i, 90
  {
    hide HangsIn, BlockAt, PathPart, Parameters;
    var name := PathPart(t, i, false);
    if !name.Parsed? || !KindAt(t, name.at).ParenLeft? { return; }
    var params := if KindAt(t, name.at + 1).ParenRight? then Parsed([], name.at + 2)
                  else Parameters(t, [], name.at + 1);
    if params.Parsed? {
      BlockByLabel(t, params.at, recover);
      Earlier(t, i, params.at, BlockAt(t, params.at, recover));
    }
  }

  lemma {:induction false} SwitchByLabel(t: seq<Token>, i: nat, recover: bool)
    ensures ByLabel(t, i, SwitchTail(t, i, recover))
    decreases |t| - i, 90
  {
    hide HangsIn, SwitchArms, Condition, Discard;
    var value := Condition(t, i);
    if value.Parsed? && KindAt(t, value.at).BraceLeft? {
      ArmsByLabel(t, Arms([], NoBranch), value.at + 1, recover);
      Earlier(t, i, value.at + 1, SwitchArms(t, Arms([], NoBranch), value.at + 1, recover));
    }
  }

  /** The one place where a label is read. */
  lemma {:induction false} ArmsByLabel(t: seq<Token>, arms: Arms, i: nat, recover: bool)
    ensures ByLabel(t, i, SwitchArms(t, arms, i, recover))
    decreases |t| - i, 130
  {
    hide HangsIn, CaseBody, CaseColon, Parse;
    var k := KindAt(t, i);
    if k.Eof? || k.BraceRight? { return; }
    if k.End? {
      ArmsByLabel(t, arms, i + 1, recover);
      Earlier(t, i, i + 1, SwitchArms(t, arms, i + 1, recover));
      return;
    }
    var isCase := AtWord(t, i, "case");
    if !isCase && !AtWord(t, i, "default") { return; }
    var guard := if isCase then Parse(0, t, i + 1, true) else Parsed(Str(""), i + 1);
    if guard.Hung? { LabelFound(t, i, guard.at); }
    if !guard.Parsed? { return; }
    var colon := CaseColon(t, guard.at);
    if !colon.Parsed? { return; }
    var body := CaseBody(t, [], colon.at, recover);
    CaseBodyByLabel(t, [], colon.at, recover);
    Earlier(t, i, colon.at, body);
    if body.out.Parsed? {
      var more := if isCase then arms.(cases := arms.cases + [Case(guard.tree, body.out.tree)])
                  else arms.(default := Branch(body.out.tree));
      ArmsByLabel(t, more, body.out.at, recover);
      Earlier(t, i, body.out.at, SwitchArms(t, more, body.out.at, recover));
    }
  }

  lemma LabelFound(t: seq<Token>, c: nat, h: nat)
    requires c < h && LabelLoops(t, c, h)
    ensures HangsIn(t, c, h)
  {
  }

  lemma {:induction false} CaseBodyByLabel(t: seq<Token>, body: seq<Stmt>, i: nat, recover: bool)
    ensures ByLabel(t, i, CaseBody(t, body, i, recover))
    decreases |t| - i, 120
  {
    hide HangsIn, Statement;
    var k := KindAt(t, i);
    if k.Eof? || k.BraceRight? || AtWord(t, i, "case") || AtWord(t, i, "default") { return; }
    if k.End? {
      CaseBodyByLabel(t, body, i + 1, recover);
      Earlier(t, i, i + 1, CaseBody(t, body, i + 1, recover));
      return;
    }
    StatementByLabel(t, i, recover);
    var s := Statement(t, i, recover);
    if s.out.Parsed? {
      CaseBodyByLabel(t, body + [s.out.tree], s.out.at, recover);
      Earlier(t, i, s.out.at, CaseBody(t, body + [s.out.tree], s.out.at, recover));
    }
  }

  // ------------------------------------------------------------- programs

  /** The braces between the word at `c` and the colon at `h` leave one open, none of them
      closes an earlier one, and no bare colon comes before. */
  predicate LeavesOpen(t: seq<Token>, c: nat, h: nat) {
    && c < h && AtWord(t, h, ":") && NoColonIn(t, c + 1, h)
    && Nested(t, c + 1, h) && Depth(t, c + 1, h) > 0
  }

  lemma {:induction false} DepthFrom(t: seq<Token>, i: nat, j: nat)
    requires i <= j
    ensures Level(t, j) == Level(t, i) + Depth(t, i, j)
    decreases j
  {
    if i < j { DepthFrom(t, i, j - 1); }
  }

  lemma UnclosedIsOpen(t: seq<Token>, i: nat, h: nat)
    requires Unclosed(t, i, h)
    ensures Nested(t, i, h) && Depth(t, i, h) > 0
  {
    hide Level, Depth;
    forall m | i <= m <= h ensures Depth(t, i, m) >= 0 { DepthFrom(t, i, m); }
    DepthFrom(t, i, h);
  }

  /** Whatever the tokens, the parser hangs only while it reads the label behind a `case`,
      at the label's colon, with a brace of that label still open there. */
  lemma HangsOnlyInOpenLabel(t: seq<Token>, recover: bool)
    requires Program(t, [], 0, recover).out.Hung?
    ensures var h := Program(t, [], 0, recover).out.at;
            exists c :: LabelLoops(t, c, h) && LeavesOpen(t, c, h)
  {
    hide Program, Parse, Unclosed;
    ProgramByLabel(t, [], 0, recover);
    var h := Program(t, [], 0, recover).out.at;
    var c: nat :| 0 <= c < h && LabelLoops(t, c, h);
    TidyParse(0, t, c + 1);
    UnclosedIsOpen(t, c + 1, h);
    assert NoColonIn(t, c + 1, h) by { NoneBefore(t, c + 1, h); }
    assert LeavesOpen(t, c, h);
  }

  lemma NoneBefore(t: seq<Token>, i: nat, h: nat)
    requires Unclosed(t, i, h)
    ensures NoColonIn(t, i, h)
  {
  }

  /** So a text is read to its end, in recovery mode, if the braces written in each label
      are closed before the label's colon. */
  lemma EndsWhenLabelsClose(t: seq<Token>)
    requires Ended(t)
    requires forall c, h :: 0 <= c < h < |t| && AtWord(t, c, "case") ==> !LeavesOpen(t, c, h)
    ensures Program(t, [], 0, true).out.Parsed? && Program(t, [], 0, true).out.at == |t| - 1
  {
    hide Program, LeavesOpen;
    RecoveryReadsEverything(t);
    if Program(t, [], 0, true).out.Hung? { OpenLabelInside(t); }
  }

  /** In particular a text without a bare colon. */
  lemma EndsWithoutBareColon(t: seq<Token>)
    requires Ended(t) && forall k :: 0 <= k < |t| ==> !AtWord(t, k, ":")
    ensures Program(t, [], 0, true).out.Parsed? && Program(t, [], 0, true).out.at == |t| - 1
  {
    hide Program, NoColonIn, Nested;
    EndsWhenLabelsClose(t);
  }

  lemma OpenLabelInside(t: seq<Token>)
    requires Program(t, [], 0, true).out.Hung?
    ensures exists c, h :: 0 <= c < h < |t| && AtWord(t, c, "case") && LeavesOpen(t, c, h)
  {
    hide Program, Parse, LeavesOpen;
    HangsOnlyInOpenLabel(t, true);
    var h := Program(t, [], 0, true).out.at;
    var c: nat :| LabelLoops(t, c, h) && LeavesOpen(t, c, h);
    Colons(t, c, h);
  }

  lemma Colons(t: seq<Token>, c: nat, h: nat)
    requires LeavesOpen(t, c, h)
    ensures c < h < |t|
  {
  }

  /** And such a label does hang a program: a switch at its front does not end when the
      reading of its first label does not, whatever is switched on and whatever follows. */
  lemma SwitchHangsWithLabel(e: Node, t: seq<Token>, h: nat, recover: bool)
    requires Printable(e) && Here(false, t, 0, SwitchFront(e))
    requires Parse(0, t, |SwitchFront(e)|, true) == Hung(h)
    ensures Program(t, [], 0, recover).out == Hung(h)
  {
    hide Print, Here, Printable, Parse, Program, SwitchArms, Condition, SwitchTail, SwitchFront, KindAt;
    var j := SwitchLayout(e, t);
    ParsingUndoesPrinting(false, e, t, 2);
    InCondition(t, 1, e, j);
    ArmHangs(t, j + 2, h, recover);
    BodyHangs(t, 1, e, j + 1, h, recover);
    SwitchFirst(t, h, recover);
  }

  lemma SwitchLayout(e: Node, t: seq<Token>) returns (j: nat)
    requires Printable(e) && Here(false, t, 0, SwitchFront(e))
    ensures KindAt(t, 0).KwSwitch? && KindAt(t, 1).ParenLeft?
    ensures Here(false, t, 2, Print(e, 0)) && j == 2 + |Print(e, 0)|
    ensures KindAt(t, j).ParenRight? && KindAt(t, j + 1).BraceLeft? && AtWord(t, j + 2, "case")
    ensures |SwitchFront(e)| == j + 3
  {
    hide Print, Here, Printable, KindAt, TextAt, Textless;
    var value, rest := Print(e, 0), [Word(BraceLeft), Token(Identifier, "case")];
    j := 2 + |value|;
    FrontForm(value, rest);
    At(false, t, 0, Word(KwSwitch), [Word(ParenLeft)] + (value + [Word(ParenRight)] + rest));
    At(false, t, 1, Word(ParenLeft), value + [Word(ParenRight)] + rest);
    Between(false, t, 2, value, Word(ParenRight), rest);
    FirstLabelLayout(t, j + 1);
  }

  lemma FirstLabelLayout(t: seq<Token>, i: nat)
    requires Here(false, t, i, [Word(BraceLeft), Token(Identifier, "case")])
    ensures KindAt(t, i).BraceLeft? && AtWord(t, i + 1, "case")
  {
    hide Here, KindAt, TextAt;
    assert [Word(BraceLeft), Token(Identifier, "case")] == [Word(BraceLeft)] + [Token(Identifier, "case")];
    At(false, t, i, Word(BraceLeft), [Token(Identifier, "case")]);
    Leads(false, t, i + 1, [Token(Identifier, "case")]);
  }

  lemma FrontForm(value: seq<Token>, rest: seq<Token>)
    requires rest == [Word(BraceLeft), Token(Identifier, "case")]
    ensures [Word(KwSwitch), Word(ParenLeft)] + value + [Word(ParenRight), Word(BraceLeft), Token(Identifier, "case")]
            == [Word(KwSwitch)] + ([Word(ParenLeft)] + (value + [Word(ParenRight)] + rest))
  {
  }

  function SwitchFront(e: Node): seq<Token>
    requires Printable(e)
  {
    [Word(KwSwitch), Word(ParenLeft)] + Print(e, 0) + [Word(ParenRight), Word(BraceLeft), Token(Identifier, "case")]
  }

  lemma InCondition(t: seq<Token>, i: nat, e: Node, j: nat)
    requires KindAt(t, i).ParenLeft? && Parse(0, t, i + 1, false) == Parsed(e, j) && KindAt(t, j).ParenRight?
    ensures Condition(t, i) == Parsed(e, j + 1)
  {
    hide Parse;
  }

  lemma ArmHangs(t: seq<Token>, c: nat, h: nat, recover: bool)
    requires AtWord(t, c, "case") && Parse(0, t, c + 1, true) == Hung(h)
    ensures SwitchArms(t, Arms([], NoBranch), c, recover).out == Hung(h)
  {
    hide Parse, CaseBody;
  }

  lemma BodyHangs(t: seq<Token>, i: nat, e: Node, j: nat, h: nat, recover: bool)
    requires Condition(t, i) == Parsed(e, j) && KindAt(t, j).BraceLeft?
    requires SwitchArms(t, Arms([], NoBranch), j + 1, recover).out == Hung(h)
    ensures SwitchTail(t, i, recover).out == Hung(h)
  {
    hide Condition, SwitchArms;
  }

  lemma SwitchFirst(t: seq<Token>, h: nat, recover: bool)
    requires KindAt(t, 0).KwSwitch? && SwitchTail(t, 1, recover).out == Hung(h)
    ensures Program(t, [], 0, recover).out == Hung(h)
  {
    hide SwitchTail, Parse;
    assert Statement(t, 0, recover).out == Hung(h);
  }

  lemma {:induction false} HangsUp(level: nat, t: seq<Token>, i: nat)
    requires level <= 13 && KindAt(t, i).BraceLeft? && Elements(t, [], i + 1, true) == Hung(i + 1)
    ensures Parse(level, t, i, true) == Hung(i + 1)
    decreases 14 - level
  {
    hide Parse, Elements;
    RuleOf(level, t, i, true);
    if level < 13 { HangsUp(level + 1, t, i); }
  }

  /** `switch (e) { case {:` is the shortest of them. */
  lemma SwitchHangs(e: Node, t: seq<Token>, recover: bool)
    requires Printable(e) && Here(false, t, 0, SwitchFront(e) + [Word(BraceLeft), Token(Identifier, ":")])
    ensures Program(t, [], 0, recover).out.Hung?
  {
    hide Print, Here, Printable, Parse, Program, SwitchFront;
    var n, tokens := |SwitchFront(e)|, [Word(BraceLeft), Token(Identifier, ":")];
    Split(false, t, 0, SwitchFront(e), tokens);
    assert tokens == [Word(BraceLeft)] + [Token(Identifier, ":")];
    At(false, t, n, Word(BraceLeft), [Token(Identifier, ":")]);
    Leads(false, t, n + 1, [Token(Identifier, ":")]);
    ArrayHangsAtColon(t, [], n + 1);
    HangsUp(0, t, n);
    SwitchHangsWithLabel(e, t, n + 1, recover);
  }
}

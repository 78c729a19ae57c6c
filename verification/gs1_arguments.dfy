/** What the GS1 lexer (reborn_protocol/gs1/lexer.py) makes of white space and comments, of
    quoted strings, and of the arguments that are neither expressions nor text: enumerated
    words, directions, parameter lists and braced bodies. */
module Gs1Arguments {
  import opened Gs1Syntax
  import opened Gs1Modes
  import opened Gs1Scan
  import opened Gs1Printer
  import opened Gs1Spelling
  import opened Gs1Reading
  import Gs1Grammar
  import Gs1Statements
  import Csv

  // ------------------------------------------------------------- gaps

  datatype Piece = Blank(c: char) | Line(text: string) | Between(text: string)

  predicate IsGap(g: Piece) {
    match g
    case Blank(c) => c in {' ', '\t', '\r', '\n'}
    case Line(x) => '\n' !in x
    case Between(x) => forall k :: 0 <= k < |x| - 1 ==> !(x[k] == '*' && x[k + 1] == '/')
  }

  function GapText(gs: seq<Piece>): string {
    if gs == [] then ""
    else
      (match gs[0]
       case Blank(c) => [c]
       case Line(x) => "//" + x + "\n"
       case Between(x) => "/*" + x + "*/") + GapText(gs[1..])
  }

  lemma TwoChars(s: string, p: nat, w: string)
    requires |w| == 2
    ensures StartsAt(s, p, w) <==> p + 2 <= |s| && s[p] == w[0] && s[p + 1] == w[1]
  {
    if p + 2 <= |s| { assert s[p..p + 2] == [s[p], s[p + 1]]; }
  }

  lemma OneChar(s: string, p: nat, c: char)
    ensures StartsAt(s, p, [c]) <==> p < |s| && s[p] == c
  {
    if p < |s| { assert s[p..p + 1] == [s[p]]; }
  }

  lemma {:induction false} Found(s: string, what: string, from: nat, at: nat)
    requires from <= at < |s| && StartsAt(s, at, what)
    requires forall k :: from <= k < at ==> !StartsAt(s, k, what)
    ensures FindText(s, what, from) == at
    decreases at - from
  {
    if from < at { Found(s, what, from + 1, at); }
  }

  lemma {:induction false} NotFound(s: string, what: string, from: nat)
    requires from <= |s| && forall k :: from <= k < |s| ==> !StartsAt(s, k, what)
    ensures FindText(s, what, from) == |s|
    decreases |s| - from
  {
    if from < |s| { NotFound(s, what, from + 1); }
  }

  /** One comment to the end of its line. */
  lemma LineSkipped(s: string, p: nat, x: string)
    requires StartsAt(s, p, "//" + x + "\n") && '\n' !in x
    ensures Skipped(s, p) == Skipped(s, p + |x| + 3)
  {
    hide Skipped, StartsAt;
    var w, q := "//" + x + "\n", p + 2 + |x|;
    Inside(s, p, w, 0);
    Inside(s, p, w, 1);
    Inside(s, p, w, 2 + |x|);
    OneChar(s, q, '\n');
    forall k | p + 1 <= k < q ensures !StartsAt(s, k, "\n") {
      OneChar(s, k, '\n');
      Inside(s, p, w, k - p);
      if k > p + 1 { assert w[k - p] == x[k - p - 2]; }
    }
    Found(s, "\n", p + 1, q);
    TwoChars(s, p, "//");
    SkipsLine(s, p);
    SkipsSpace(s, q);
  }

  lemma Inside(s: string, p: nat, w: string, k: nat)
    requires StartsAt(s, p, w) && k < |w|
    ensures p + |w| <= |s| && s[p + k] == w[k]
  {
    CharsOf(s, p, w);
  }

  lemma SkipsLine(s: string, p: nat)
    requires StartsAt(s, p, "//")
    ensures Skipped(s, p) == Skipped(s, FindText(s, "\n", p + 1))
  {
    hide FindText;
    TwoChars(s, p, "//");
  }

  lemma SkipsSpace(s: string, p: nat)
    requires p < |s| && Space(s[p])
    ensures Skipped(s, p) == Skipped(s, p + 1)
  {
  }

  /** One comment between its marks. */
  lemma BlockSkipped(s: string, p: nat, x: string)
    requires StartsAt(s, p, "/*" + x + "*/") && IsGap(Between(x))
    ensures Skipped(s, p) == Skipped(s, p + |x| + 4)
  {
    hide Skipped, StartsAt;
    var w, q := "/*" + x + "*/", p + 2 + |x|;
    Inside(s, p, w, 0);
    Inside(s, p, w, 1);
    Inside(s, p, w, 2 + |x|);
    Inside(s, p, w, 3 + |x|);
    TwoChars(s, p, "/*");
    TwoChars(s, q, "*/");
    forall k | p + 2 <= k < q ensures !StartsAt(s, k, "*/") {
      TwoChars(s, k, "*/");
      Inside(s, p, w, k - p);
      Inside(s, p, w, k + 1 - p);
      assert w[k - p] == x[k - p - 2] && w[k + 1 - p] == if k + 1 < q then x[k - p - 1] else '*';
    }
    Found(s, "*/", p + 2, q);
    SkipsBlock(s, p);
  }

  lemma SkipsBlock(s: string, p: nat)
    requires StartsAt(s, p, "/*") && FindText(s, "*/", p + 2) < |s|
    ensures Skipped(s, p) == Skipped(s, FindText(s, "*/", p + 2) + 2)
  {
    hide FindText, StartsAt;
    TwoChars(s, p, "/*");
    TwoChars(s, p, "//");
  }

  /** White space and comments, in any order and number, are passed over, up to what begins
      something else. */
  lemma {:induction false} GapsAreSkipped(a: string, gs: seq<Piece>, rest: string)
    requires forall k :: 0 <= k < |gs| ==> IsGap(gs[k])
    requires rest == "" || Begins(rest, 0)
    ensures Skipped(a + GapText(gs) + rest, |a|) == |a + GapText(gs)|
    decreases |gs|
  {
    hide Skipped, Begins, IsGap, GapText, StartsAt;
    if gs == [] {
      GapOver(a, rest);
      assert GapText(gs) == "" by { NoGap(); }
      assert a + "" + rest == a + rest;
    } else {
      var one := GapText([gs[0]]);
      FirstGap(gs);
      assert a + GapText(gs) + rest == (a + one) + GapText(gs[1..]) + rest;
      assert a + GapText(gs) + rest == a + (one + (GapText(gs[1..]) + rest));
      Present(a, one, GapText(gs[1..]) + rest);
      GapsAreSkipped(a + one, gs[1..], rest);
      OneSkipped(a + GapText(gs) + rest, |a|, gs[0]);
    }
  }

  lemma NoGap()
    ensures GapText([]) == ""
  {
  }

  lemma FirstGap(gs: seq<Piece>)
    requires gs != []
    ensures GapText(gs) == GapText([gs[0]]) + GapText(gs[1..])
  {
    assert [gs[0]][1..] == [];
  }

  lemma Present(a: string, b: string, c: string)
    ensures StartsAt(a + (b + c), |a|, b)
  {
    assert (a + (b + c))[|a|..|a| + |b|] == b;
  }

  lemma OneSkipped(s: string, p: nat, g: Piece)
    requires IsGap(g) && StartsAt(s, p, GapText([g]))
    ensures Skipped(s, p) == Skipped(s, p + |GapText([g])|)
  {
    hide Skipped;
    assert [g][1..] == [];
    match g
    case Blank(c) =>
      CharsOf(s, p, [c]);
      assert GapText([g]) == [c] && s[p + 0] == c;
      SkipsSpace(s, p);
    case Line(x) =>
      assert GapText([g]) == "//" + x + "\n";
      LineSkipped(s, p, x);
    case Between(x) =>
      assert GapText([g]) == "/*" + x + "*/";
      BlockSkipped(s, p, x);
  }

  lemma GapOver(a: string, rest: string)
    requires rest == "" || Begins(rest, 0)
    ensures Skipped(a + rest, |a|) == |a|
  {
    var s := a + rest;
    if rest != "" {
      CharsOf(s, |a|, "//");
      CharsOf(s, |a|, "/*");
      CharsOf(rest, 0, "//");
      CharsOf(rest, 0, "/*");
      assert s[|a|] == rest[0] && (|rest| > 1 ==> s[|a| + 1] == rest[1]);
      SkippedHere(s, |a|);
    }
  }

  /** A comment that nothing closes reaches to the end of the text. */
  lemma OpenComments(a: string, x: string)
    ensures '\n' !in x ==> Skipped(a + "//" + x, |a|) == |a + "//" + x|
    ensures IsGap(Between(x)) ==> Skipped(a + "/*" + x, |a|) == |a + "/*" + x|
  {
    hide IsGap;
    if '\n' !in x { OpenLine(a, x); }
    if IsGap(Between(x)) { OpenBlock(a, x); }
  }

  lemma OpenLine(a: string, x: string)
    requires '\n' !in x
    ensures Skipped(a + "//" + x, |a|) == |a + "//" + x|
  {
    hide StartsAt;
    var s := a + "//" + x;
    TwoChars(s, |a|, "//");
    forall k | |a| + 1 <= k < |s| ensures !StartsAt(s, k, "\n") {
      OneChar(s, k, '\n');
      if k > |a| + 1 { assert s[k] == x[k - |a| - 2]; }
    }
    NotFound(s, "\n", |a| + 1);
    SkipsLine(s, |a|);
  }

  lemma OpenBlock(a: string, x: string)
    requires IsGap(Between(x))
    ensures Skipped(a + "/*" + x, |a|) == |a + "/*" + x|
  {
    hide StartsAt, FindText;
    var s := a + "/*" + x;
    TwoChars(s, |a|, "/*");
    TwoChars(s, |a|, "//");
    forall k | |a| + 2 <= k < |s| ensures !StartsAt(s, k, "*/") {
      TwoChars(s, k, "*/");
      assert s[k] == x[k - |a| - 2] && (k + 1 < |s| ==> s[k + 1] == x[k - |a| - 1]);
    }
    NotFound(s, "*/", |a| + 2);
  }

  /** A section sign is a line break, and nothing else is changed. */
  lemma SectionSignBreaksLines(a: string, b: string)
    ensures Normalised(a + "\U{A7}" + b) == Normalised(a) + "\n" + Normalised(b)
    ensures '\U{A7}' !in a ==> Normalised(a) == a
  {
  }

  // ------------------------------------------------------------- what came before

  /** A conditional is pending when a `?` stands behind every terminator and brace. */
  lemma {:induction false} PendingMeans(out: seq<Token>)
    ensures PendingTernary(out) <==>
              exists k :: 0 <= k < |out| && out[k].kind.Question?
                && forall j :: k < j < |out| ==> out[j].kind !in {End, BraceLeft, BraceRight}
    decreases |out|
  {
    if out != [] {
      var last, front := out[|out| - 1].kind, out[..|out| - 1];
      PendingMeans(front);
      if last in {End, BraceLeft, BraceRight} {
        assert forall k :: 0 <= k < |out| && out[k].kind.Question? ==> k < |out| - 1;
      } else if last.Question? {
        assert out[|out| - 1].kind.Question?;
      } else if PendingTernary(front) {
        var k :| 0 <= k < |front| && front[k].kind.Question?
                 && forall j :: k < j < |front| ==> front[j].kind !in {End, BraceLeft, BraceRight};
        assert out[k].kind.Question? && forall j :: k < j < |out| ==>
          out[j].kind == (if j < |front| then front[j].kind else last);
      } else {
        forall k | 0 <= k < |out| && out[k].kind.Question?
          ensures exists j :: k < j < |out| && out[j].kind in {End, BraceLeft, BraceRight}
        {
          assert k < |front| && front[k].kind.Question?;
          var j :| k < j < |front| && front[j].kind in {End, BraceLeft, BraceRight};
          assert out[j] == front[j];
        }
      }
    }
  }

  /** The operators behind which a command's word is a name are those the parser assigns by,
      puts between two operands or in front of one, and `in`. */
  lemma OperatorsOfBoth(k: Kind)
    ensures IsOperator(k) <==>
              Gs1Grammar.OpLevel(k) != 0 || Gs1Statements.AssignKind(k) || k in {OpNot, OpInc, OpDec, OpIn}
  {
    hide Gs1Scan.Binary, Assigning, Gs1Grammar.OpLevel, Gs1Statements.AssignKind;
    BinaryOfBoth(k);
    AssigningOfBoth(k);
  }

  lemma BinaryOfBoth(k: Kind)
    ensures Gs1Scan.Binary(k) || k.OpAssign? <==> Gs1Grammar.OpLevel(k) != 0
  {
  }

  lemma AssigningOfBoth(k: Kind)
    ensures (Assigning(k) <==> Gs1Statements.AssignKind(k)) && (k.OpAssign? ==> Assigning(k))
  {
  }

  // ------------------------------------------------------------- quoted strings

  lemma {:induction false} QuotedBack(s: string, p: nat, x: string)
    requires StartsAt(s, p, Csv.Doubled(x, '"') + "\"")
    requires var q := p + |Csv.Doubled(x, '"')| + 1; q >= |s| || s[q] != '"'
    ensures Quoted(s, p) == (x, p + |Csv.Doubled(x, '"')| + 1)
    decreases |x|
  {
    hide Quoted;
    var w := Csv.Doubled(x, '"') + "\"";
    CharsOf(s, p, w);
    QuotedAt(s, p);
    if x == "" {
      assert s[p + 0] == w[0] == '"';
    } else {
      var n := if x[0] == '"' then 2 else 1;
      var more := Csv.Doubled(x[1..], '"') + "\"";
      assert w[n..] == more && s[p + n..p + n + |more|] == s[p..p + |w|][n..];
      assert s[p + 0] == w[0] == x[0] && (n == 2 ==> s[p + 1] == w[1] == '"');
      QuotedBack(s, p + n, x[1..]);
      assert [x[0]] + x[1..] == x;
    }
  }

  /** A string in quotes, its own quotes doubled, is one piece of text: the string. */
  lemma QuotingReadsBack(t: Tables, s: string, l: Lx, x: string)
    requires Usual(t) && Open(l.ctx)
    requires var w := "\"" + Csv.Doubled(x, '"') + "\"";
             StartsAt(s, l.pos, w) && (l.pos + |w| >= |s| || s[l.pos + |w|] != '"')
    ensures ScanL(t, s, l) == (Got(Token(StringPart, x)), l.(pos := l.pos + |Csv.Doubled(x, '"')| + 2))
  {
    hide Usual, Quoted, FirstOperator, DefaultWordL, ExprWordL, PushArrayL, StartsAt, ScanL, Csv.Doubled;
    var w, more := "\"" + Csv.Doubled(x, '"') + "\"", Csv.Doubled(x, '"') + "\"";
    Inside(s, l.pos, w, 0);
    TwoChars(s, l.pos, "//");
    TwoChars(s, l.pos, "/*");
    assert "\"" + more == w;
    Behind(s, l.pos, "\"", more);
    QuotedBack(s, l.pos + 1, x);
    CommonScan(t, s, l);
    QuoteIsNoLetter(t);
  }

  lemma Behind(s: string, p: nat, a: string, b: string)
    requires StartsAt(s, p, a + b)
    ensures StartsAt(s, p, a) && StartsAt(s, p + |a|, b)
  {
    var ab := a + b;
    assert s[p..p + |a|] == s[p..p + |ab|][..|a|] == a;
    assert s[p + |a|..p + |a| + |b|] == s[p..p + |ab|][|a|..] == b;
  }

  lemma QuoteIsNoLetter(t: Tables)
    requires Usual(t)
    ensures !t.alpha('"') && !t.digit('"')
  {
  }

  // ------------------------------------------------------------- runs of scans

  /** One scan, and what it queued, are one step of the whole. */
  lemma Scanned(t: Tables, s: string, l: Lx, r: Scan, l1: Lx)
    requires ScanL(t, s, l) == (r, l1) && (r.Nothing? || (r.Got? && !r.token.kind.Eof?))
    requires l.pos < l1.pos <= |s|
    ensures Lexed(t, s, l) == Lexed(t, s, Drained(r, l1))
  {
    hide ScanL;
  }

  /** A lexer at `pos` with nothing queued. */
  function At(pos: nat, ctx: Context, out: seq<Token>): Lx { Lx(pos, ctx, [], [], out) }

  /** The state of a command's arguments, the first of them taken up. */
  function Opened(c: Context, arguments: string): Context {
    PopNext(Pushing(c, State(arguments, PopCommand, true, false, false)), false)
  }

  /** Words and numbers alike. */
  predicate Wordy(w: string) { w != "" && forall k :: 0 <= k < |w| ==> WordChar(w[k]) }

  lemma WordyHere(t: Tables, s: string, p: nat, w: string)
    requires Usual(t) && Wordy(w) && StartsAt(s, p, w) && (p + |w| >= |s| || !WordChar(s[p + |w|]))
    ensures t.word(s, p) == |w| && Cut(s, p, |w|) == w && Skipped(s, p) == p
    ensures p < p + |w| <= |s| && s[p] == w[0] && w[0] !in {'}', ')', ';', ',', '.', '('}
  {
    hide WordRun, NumeralRun, Sound, UsualOperator, Skipped, StartsAt;
    WordRead(s, p, w);
    Inside(s, p, w, 0);
    TwoChars(s, p, "//");
    TwoChars(s, p, "/*");
    assert Skipped(s, p) == p by { SkippedHere(s, p); }
    Spelled(s, p, w);
  }

  lemma Spelled(s: string, p: nat, w: string)
    requires StartsAt(s, p, w)
    ensures Cut(s, p, |w|) == w && p + |w| <= |s|
  {
  }

  // ------------------------------------------------------------- enumerated words

  /** The kind of word each letter takes. */
  function Enumerates(letter: char): Kind
    requires letter in "BICGUD"
  {
    match letter
    case 'B' => Baddy
    case 'I' => Item
    case 'C' => Color
    case 'G' => Gender
    case 'U' => Carry
    case _ => Direction
  }

  /** An argument that takes a word of an enumeration, read from the word on: the word, the
      terminator, and the command is closed. Directions must be among the named ones. */
  lemma WordArgument(t: Tables, s: string, c: Context, letter: char, p: nat, w: string, out: seq<Token>)
    requires Usual(t) && letter in "BICGUD" && Wordy(w) && StartsAt(s, p, w + ";")
    requires letter == 'D' ==> w in t.directions
    ensures Lexed(t, s, At(p, Opened(c, [letter]), out))
            == Lexed(t, s, At(p + |w| + 1, c, out + [Token(Enumerates(letter), w), Token(End, ";")]))
  {
    hide Usual, StartsAt, Lexed, ScanL, Wordy, Skipped, WordChar;
    var open := Opened(c, [letter]);
    OpenedOne(c, letter);
    Behind(s, p, w, ";");
    OneChar(s, p + |w|, ';');
    assert WordChar(';') == false by { SemicolonIsNoWord(); }
    WordyHere(t, s, p, w);
    var x := Token(Enumerates(letter), w);
    var l := At(p, open, out);
    WordScan(t, s, l, letter, w);
    Scanned(t, s, l, Got(x), l.(pos := p + |w|));
    var m := At(p + |w|, open, out + [x]);
    assert Drained(Got(x), l.(pos := p + |w|)) == m;
    EndScan(t, s, m, letter, c);
    Scanned(t, s, m, Got(Token(End, ";")), m.(pos := m.pos + 1, ctx := c));
    assert Drained(Got(Token(End, ";")), m.(pos := m.pos + 1, ctx := c))
           == At(p + |w| + 1, c, out + [x] + [Token(End, ";")]);
    assert out + [x] + [Token(End, ";")] == out + [x, Token(End, ";")];
  }

  lemma SemicolonIsNoWord()
    ensures !WordChar(';')
  {
  }

  lemma OpenedOne(c: Context, letter: char)
    requires letter in "BICGUD"
    ensures var open := Opened(c, [letter]);
            && open.mode == ModeOf(letter) && open.stack != [] && CmdPops(open) && !FuncPops(open)
            && PopNext(open, true) == c && Emitted(open, true) == []
  {
    var st := State([letter], PopCommand, true, false, false);
    assert [letter][1..] == "";
    assert (c.stack + [Saved(st, c.mode, c.parens, c.literals)])[..|c.stack|] == c.stack;
  }

  lemma WordScan(t: Tables, s: string, l: Lx, letter: char, w: string)
    requires letter in "BICGUD" && l.ctx.mode == ModeOf(letter) && l.pos < |s| && Skipped(s, l.pos) == l.pos
    requires t.word(s, l.pos) == |w| && Cut(s, l.pos, |w|) == w && w != ""
    requires s[l.pos] !in {'}', ')', ';', ',', '.', '('} && (letter == 'D' ==> w in t.directions)
    ensures ScanL(t, s, l) == (Got(Token(Enumerates(letter), w)), l.(pos := l.pos + |w|))
  {
    hide ScanL, Skipped, Cut, ExprL, SpecialTokenL;
    LetterScan(t, s, l, letter);
    if letter != 'D' { SpecialWord(t, s, l, Enumerates(letter), w); }
  }

  /** The rule of each of these modes. */
  lemma ModeScan(t: Tables, s: string, l: Lx)
    requires l.pos < |s|
    ensures l.ctx.mode.ZMode? ==> ScanL(t, s, l) == BodyL(s, l)
    ensures l.ctx.mode.VMode? ==> ScanL(t, s, l) == VariableL(t, s, l)
    ensures l.ctx.mode.FMode? ==> ScanL(t, s, l) == ParametersL(t, s, l)
    ensures l.ctx.mode.DMode? ==> ScanL(t, s, l) == DirectionL(t, s, l)
    ensures l.ctx.mode.SMode? ==> ScanL(t, s, l) == StringL(t, s, l, false)
  {
    hide DefaultL, VariableL, ExprL, StringL, ListL, SpecialL, DirectionL, StorageL, BodyL, ParametersL,
      OpenParenL, CloseParenL;
  }

  lemma LetterScan(t: Tables, s: string, l: Lx, letter: char)
    requires letter in "BICGUD" && l.ctx.mode == ModeOf(letter) && l.pos < |s|
    ensures ScanL(t, s, l) == if letter == 'D' then DirectionL(t, s, l) else SpecialL(t, s, l, Enumerates(letter))
  {
    hide DefaultL, VariableL, ExprL, StringL, ListL, SpecialL, DirectionL, StorageL, BodyL, ParametersL,
      OpenParenL, CloseParenL;
  }

  lemma SpecialWord(t: Tables, s: string, l: Lx, k: Kind, w: string)
    requires l.pos < |s| && t.word(s, l.pos) == |w| && Cut(s, l.pos, |w|) == w && w != ""
    requires s[l.pos] !in {'}', ')', ';', ','}
    ensures SpecialTokenL(t, s, l, k) == (Got(Token(k, w)), l.(pos := l.pos + |w|))
  {
    hide Cut, CloseBraceL, CloseWithL;
  }

  lemma EndScan(t: Tables, s: string, l: Lx, letter: char, c: Context)
    requires letter in "BICGUD" && l.ctx.mode == ModeOf(letter) && CmdPops(l.ctx) && !FuncPops(l.ctx)
    requires PopNext(l.ctx, true) == c && Emitted(l.ctx, true) == [] && l.after == []
    requires Usual(t) && l.pos < |s| && s[l.pos] == ';'
    ensures ScanL(t, s, l) == (Got(Token(End, ";")), l.(pos := l.pos + 1, ctx := c))
  {
    hide PopNext, Emitted, CommonL, HashOrColonL, Usual, StartsAt, Skipped, ExprParenL, CloseBraceL, ScanL;
    LetterScan(t, s, l, letter);
    TwoChars(s, l.pos, "//");
    TwoChars(s, l.pos, "/*");
    SkippedHere(s, l.pos);
    assert Cut(s, l.pos, 1) == ";";
    assert l.after + [] == l.after;
    NoWordHere(t, s, l.pos);
  }

  lemma NoWordHere(t: Tables, s: string, p: nat)
    requires Usual(t) && p < |s| && s[p] == ';'
    ensures t.word(s, p) == 0
  {
    assert t.word(s, p) == WordRun(s, p);
  }

  // ------------------------------------------------------------- parameter lists

  /** The parameters of a function as they are written, up to the closing parenthesis. */
  function ParamText(ps: seq<string>): string {
    if ps == [] then ")" else ps[0] + (if |ps| == 1 then ")" else "," + ParamText(ps[1..]))
  }

  /** Inside a parameter list that was opened over `c`. */
  predicate InParameters(open: Context, c: Context) {
    && open.mode.FMode? && open.stack != [] && PopNext(open, true) == c && Emitted(open, true) == []
  }

  lemma ParameterScan(t: Tables, s: string, l: Lx, c: Context)
    requires InParameters(l.ctx, c) && l.pos < |s| && Skipped(s, l.pos) == l.pos && l.after == []
    ensures ScanL(t, s, l) ==
              if s[l.pos] == ')' then (Got(Token(ParenRight, ")")), l.(pos := l.pos + 1, ctx := c))
              else if s[l.pos] == ',' then (Got(Token(Comma, ",")), l.(pos := l.pos + 1))
              else if s[l.pos] == '.' then (Got(Token(Period, ".")), l.(pos := l.pos + 1))
              else if t.word(s, l.pos) == 0 then (LexError, l)
              else Took(s, l, Identifier, t.word(s, l.pos))
  {
    hide Skipped, PopNext, Emitted, Took, ScanL;
    ModeScan(t, s, l);
    assert Cut(s, l.pos, 1) == [s[l.pos]];
    assert l.after + [] == l.after;
    TookOne(s, l);
    TookOne(s, NextL(l, true));
  }

  lemma TookOne(s: string, l: Lx)
    requires l.pos < |s|
    ensures forall k: Kind :: Took(s, l, k, 1) == (Got(Token(k, [s[l.pos]])), l.(pos := l.pos + 1))
  {
    assert Cut(s, l.pos, 1) == [s[l.pos]];
  }

  function ParamsRead(ps: seq<string>): seq<Token> {
    if ps == [] then [Token(ParenRight, ")")]
    else
      [Token(Identifier, ps[0])]
        + if |ps| == 1 then [Token(ParenRight, ")")] else [Token(Comma, ",")] + ParamsRead(ps[1..])
  }

  lemma ParametersForm(ps: seq<string>)
    requires ps != []
    ensures ParamText(ps) == ps[0] + (if |ps| == 1 then ")" else "," + ParamText(ps[1..]))
    ensures ParamsRead(ps) == [Token(Identifier, ps[0])] + if |ps| == 1 then [Token(ParenRight, ")")]
                                                           else [Token(Comma, ",")] + ParamsRead(ps[1..])
  {
  }

  lemma NoMark(c: char)
    requires c in {')', ',', ';', '{', '"'}
    ensures !WordChar(c) && !Space(c) && c != '/'
  {
  }

  lemma MarkHere(s: string, p: nat, c: char)
    requires c in {')', ','} && StartsAt(s, p, [c])
    ensures p < |s| && s[p] == c && Skipped(s, p) == p
  {
    hide StartsAt, Skipped;
    OneChar(s, p, c);
    TwoChars(s, p, "//");
    TwoChars(s, p, "/*");
    SkippedHere(s, p);
  }

  lemma ListClosed(t: Tables, s: string, open: Context, c: Context, p: nat, out: seq<Token>)
    requires InParameters(open, c) && StartsAt(s, p, ")")
    ensures Lexed(t, s, At(p, open, out)) == Lexed(t, s, At(p + 1, c, out + [Token(ParenRight, ")")]))
  {
    hide StartsAt, Lexed, ScanL, Skipped, InParameters;
    var l, x := At(p, open, out), Token(ParenRight, ")");
    MarkHere(s, p, ')');
    ParameterScan(t, s, l, c);
    Scanned(t, s, l, Got(x), l.(pos := p + 1, ctx := c));
    assert Drained(Got(x), l.(pos := p + 1, ctx := c)) == At(p + 1, c, out + [x]);
  }

  lemma CommaTaken(t: Tables, s: string, open: Context, c: Context, p: nat, out: seq<Token>)
    requires InParameters(open, c) && StartsAt(s, p, ",")
    ensures Lexed(t, s, At(p, open, out)) == Lexed(t, s, At(p + 1, open, out + [Token(Comma, ",")]))
  {
    hide StartsAt, Lexed, ScanL, Skipped, InParameters;
    var l, x := At(p, open, out), Token(Comma, ",");
    MarkHere(s, p, ',');
    ParameterScan(t, s, l, c);
    Scanned(t, s, l, Got(x), l.(pos := p + 1));
    assert Drained(Got(x), l.(pos := p + 1)) == At(p + 1, open, out + [x]);
  }

  lemma NameTaken(t: Tables, s: string, open: Context, c: Context, p: nat, w: string, out: seq<Token>)
    requires Usual(t) && InParameters(open, c) && Wordy(w) && StartsAt(s, p, w)
    requires p + |w| < |s| && s[p + |w|] in {')', ','}
    ensures Lexed(t, s, At(p, open, out)) == Lexed(t, s, At(p + |w|, open, out + [Token(Identifier, w)]))
  {
    hide Usual, StartsAt, Lexed, ScanL, Wordy, Skipped, WordChar, InParameters, Cut;
    var l, x := At(p, open, out), Token(Identifier, w);
    NoMark(s[p + |w|]);
    WordyHere(t, s, p, w);
    ParameterScan(t, s, l, c);
    Scanned(t, s, l, Got(x), l.(pos := p + |w|));
    assert Drained(Got(x), l.(pos := p + |w|)) == At(p + |w|, open, out + [x]);
  }

  /** The list is read name by name, and closing it restores what it was opened over. */
  lemma {:induction false} ParametersRead(
      t: Tables, s: string, open: Context, c: Context, p: nat, ps: seq<string>, out: seq<Token>)
    requires Usual(t) && InParameters(open, c) && StartsAt(s, p, ParamText(ps))
    requires forall k :: 0 <= k < |ps| ==> Wordy(ps[k])
    ensures Lexed(t, s, At(p, open, out)) == Lexed(t, s, At(p + |ParamText(ps)|, c, out + ParamsRead(ps)))
    decreases |ps|
  {
    hide Usual, StartsAt, Lexed, ScanL, Wordy, Skipped, WordChar, InParameters, ParamText, ParamsRead, Drained;
    if ps == [] {
      assert ParamText(ps) == ")" && ParamsRead(ps) == [Token(ParenRight, ")")] by { NoParameters(); }
      ListClosed(t, s, open, c, p, out);
    } else {
      ParametersForm(ps);
      var w, last := ps[0], |ps| == 1;
      var rest := if last then ")" else "," + ParamText(ps[1..]);
      Behind(s, p, w, rest);
      var q, out1 := p + |w|, out + [Token(Identifier, w)];
      Inside(s, q, rest, 0);
      NameTaken(t, s, open, c, p, w, out);
      if last {
        ListClosed(t, s, open, c, q, out1);
        Regrouped(out, Token(Identifier, w), Token(ParenRight, ")"), []);
      } else {
        Behind(s, q, ",", ParamText(ps[1..]));
        CommaTaken(t, s, open, c, q, out1);
        ParametersRead(t, s, open, c, q + 1, ps[1..], out1 + [Token(Comma, ",")]);
        Regrouped(out, Token(Identifier, w), Token(Comma, ","), ParamsRead(ps[1..]));
      }
    }
  }

  lemma Regrouped(out: seq<Token>, a: Token, b: Token, rest: seq<Token>)
    ensures out + [a] + [b] + rest == out + ([a] + ([b] + rest))
    ensures rest == [] ==> out + [a] + [b] == out + ([a] + [b])
  {
  }

  lemma NoParameters()
    ensures ParamText([]) == ")" && ParamsRead([]) == [Token(ParenRight, ")")]
  {
  }

  // ------------------------------------------------------------- function headers

  /** The contexts of a function's header: its name, then its parameters. */
  lemma HeaderContexts(c: Context)
    ensures var name := Opened(c, "V(F");
            var open := PopNext(PopNext(name, false), false);
            && name.mode.VMode? && name.stack != [] && NextArgumentOpens(name) && CmdPops(name)
            && Emitted(name, false) == [] && Emitted(PopNext(name, false), false) == []
            && InParameters(open, c)
  {
    var st := State("V(F", PopCommand, true, false, false);
    assert (c.stack + [Saved(st, c.mode, c.parens, c.literals)])[..|c.stack|] == c.stack;
  }

  /** What the header of a function is read as: the empty name every variable argument begins
      with, the name, and the parameters. Behind it the lexer is where it was before. */
  lemma HeaderRead(t: Tables, s: string, l: Lx, name: string, ps: seq<string>)
    requires Usual(t) && l.ctx.mode.Default? && l == At(l.pos, l.ctx, l.out) && !BehindPeriod(l.out)
    requires "function" !in t.commands && "function" !in t.functions
    requires "function" in t.keywords && t.keywords["function"] == KwFunction
    requires IsWord(name) && name !in {"true", "false"} && (forall k :: 0 <= k < |ps| ==> Wordy(ps[k]))
    requires StartsAt(s, l.pos, "function " + name + "(" + ParamText(ps))
    ensures var q := l.pos + |"function " + name + "(" + ParamText(ps)|;
            Lexed(t, s, l) ==
              Lexed(t, s, At(q, l.ctx, l.out + [Token(KwFunction, "function"), Token(Identifier, ""),
                                                Token(Identifier, name), Token(ParenLeft, "(")] + ParamsRead(ps)))
  {
    hide Usual, StartsAt, Lexed, ScanL, Wordy, IsWord, Skipped, WordChar, InParameters, ParamText, ParamsRead,
      PopNext, Emitted, BehindPeriod;
    var named, p := Opened(l.ctx, "V(F"), l.pos;
    var open := PopNext(PopNext(named, false), false);
    HeaderContexts(l.ctx);
    HeaderParts(s, p, name, ParamText(ps));
    WordOpens(t, s, l);
    var out1 := l.out + [Token(KwFunction, "function"), Token(Identifier, "")];
    NameOpens(t, s, named, p + 8, name, out1);
    var q, out2 := p + 9 + |name|, out1 + [Token(Identifier, name)];
    ListOpens(t, s, named, q, out2);
    var out3 := out2 + [Token(ParenLeft, "(")];
    ParametersRead(t, s, open, l.ctx, q + 1, ps, out3);
    assert out3 + ParamsRead(ps) == l.out + [Token(KwFunction, "function"), Token(Identifier, ""),
                                             Token(Identifier, name), Token(ParenLeft, "(")] + ParamsRead(ps);
  }

  lemma HeaderParts(s: string, p: nat, name: string, params: string)
    requires StartsAt(s, p, "function " + name + "(" + params)
    ensures StartsAt(s, p, "function") && StartsAt(s, p + 8, " ") && StartsAt(s, p + 9, name)
    ensures StartsAt(s, p + 9 + |name|, "(") && StartsAt(s, p + 10 + |name|, params)
  {
    hide StartsAt;
    assert "function " + name + "(" + params == "function" + (" " + (name + ("(" + params)));
    Behind(s, p, "function", " " + (name + ("(" + params)));
    Behind(s, p + 8, " ", name + ("(" + params));
    Behind(s, p + 9, name, "(" + params);
    Behind(s, p + 9 + |name|, "(", params);
  }

  lemma WordOpens(t: Tables, s: string, l: Lx)
    requires Usual(t) && l.ctx.mode.Default? && l == At(l.pos, l.ctx, l.out) && !BehindPeriod(l.out)
    requires "function" !in t.commands && "function" !in t.functions
    requires "function" in t.keywords && t.keywords["function"] == KwFunction
    requires StartsAt(s, l.pos, "function") && StartsAt(s, l.pos + 8, " ")
    ensures Lexed(t, s, l) == Lexed(t, s, At(l.pos + 8, Opened(l.ctx, "V(F"),
                                             l.out + [Token(KwFunction, "function"), Token(Identifier, "")]))
  {
    hide Usual, StartsAt, Lexed, ScanL, Wordy, Skipped, BehindPeriod, Begins, Ordinary, BehindOperator, OpensAfter,
      PopNext, Emitted, FirstOperator, QuotedL, WordChar;
    OneChar(s, l.pos + 8, ' ');
    assert !WordChar(' ') && IsWord("function") by { FunctionIsWord(); }
    WordFits(t, s, l, "function");
    Spelled(s, l.pos, "function");
    CommonScan(t, s, l);
    var pushed := PushCommandL(l.(pos := l.pos + 8), "V(F", false, false);
    assert ScanL(t, s, l) == (Got(Token(KwFunction, "function")), pushed);
    VariableEmits(l.ctx);
    Scanned(t, s, l, Got(Token(KwFunction, "function")), pushed);
    assert [] + [Token(Identifier, "")] == [Token(Identifier, "")];
    var x, empty := Token(KwFunction, "function"), Token(Identifier, "");
    assert l.out + [] + [x] + [empty] == l.out + [x, empty];
    assert Drained(Got(x), pushed) == At(l.pos + 8, Opened(l.ctx, "V(F"), l.out + [x, empty]);
  }

  lemma FunctionIsWord()
    ensures !WordChar(' ') && IsWord("function")
  {
  }

  lemma VariableEmits(c: Context)
    ensures Emitted(Pushing(c, State("V(F", PopCommand, true, false, false)), false) == [Token(Identifier, "")]
  {
  }

  lemma NameOpens(t: Tables, s: string, named: Context, p: nat, name: string, out: seq<Token>)
    requires Usual(t) && named.mode.VMode? && IsWord(name) && name !in {"true", "false"}
    requires StartsAt(s, p, " ") && StartsAt(s, p + 1, name) && StartsAt(s, p + 1 + |name|, "(")
    ensures Lexed(t, s, At(p, named, out)) == Lexed(t, s, At(p + 1 + |name|, named, out + [Token(Identifier, name)]))
  {
    hide Usual, StartsAt, Lexed, ScanL, Wordy, IsWord, Skipped, WordChar, Cut;
    var l, x := At(p, named, out), Token(Identifier, name);
    OneChar(s, p, ' ');
    OneChar(s, p + 1 + |name|, '(');
    assert !WordChar('(') && Wordy(name) by { ParenIsNoWord(name); }
    WordyHere(t, s, p + 1, name);
    SkipsSpace(s, p);
    assert ScanL(t, s, l) == (Nothing, l.(pos := p + 1)) by { VariableGap(t, s, l); }
    Scanned(t, s, l, Nothing, l.(pos := p + 1));
    assert Drained(Nothing, l.(pos := p + 1)) == At(p + 1, named, out);
    var m := At(p + 1, named, out);
    VariableName(t, s, m, name);
    Scanned(t, s, m, Got(x), m.(pos := p + 1 + |name|));
    assert Drained(Got(x), m.(pos := p + 1 + |name|)) == At(p + 1 + |name|, named, out + [x]);
  }

  lemma ParenIsNoWord(w: string)
    requires IsWord(w)
    ensures !WordChar('(') && Wordy(w)
  {
  }

  lemma VariableGap(t: Tables, s: string, l: Lx)
    requires l.ctx.mode.VMode? && l.pos < |s| && Skipped(s, l.pos) > l.pos
    ensures ScanL(t, s, l) == (Nothing, l.(pos := Skipped(s, l.pos)))
  {
    hide VariableTokenL, Skipped, ScanL;
    ModeScan(t, s, l);
  }

  lemma VariableName(t: Tables, s: string, l: Lx, w: string)
    requires Usual(t) && l.ctx.mode.VMode? && IsWord(w) && w !in {"true", "false"}
    requires l.pos < |s| && s[l.pos] == w[0] && Skipped(s, l.pos) == l.pos
    requires t.word(s, l.pos) == |w| && Cut(s, l.pos, |w|) == w
    ensures ScanL(t, s, l) == (Got(Token(Identifier, w)), l.(pos := l.pos + |w|))
  {
    hide Usual, Skipped, Cut, CloseBraceL, CloseCallL, CloseWithL, HashL, OpenIndexL, WordChar, ScanL;
    LetterHere(t, w[0]);
    ModeScan(t, s, l);
    assert ScanL(t, s, l) == VariableTokenL(t, s, l);
    assert VariableTokenL(t, s, l) == NamePieceL(t, s, l);
  }

  lemma LetterHere(t: Tables, c: char)
    requires Usual(t) && (LetterChar(c) || c == '_')
    ensures (t.alpha(c) || c == '_') && !t.digit(c)
  {
  }

  lemma ListOpens(t: Tables, s: string, named: Context, p: nat, out: seq<Token>)
    requires named.mode.VMode? && NextArgumentOpens(named)
    requires Emitted(named, false) == [] && Emitted(PopNext(named, false), false) == [] && StartsAt(s, p, "(")
    ensures Lexed(t, s, At(p, named, out))
            == Lexed(t, s, At(p + 1, PopNext(PopNext(named, false), false), out + [Token(ParenLeft, "(")]))
  {
    hide StartsAt, Lexed, Skipped, PopNext, Emitted, CloseBraceL, CloseCallL, CloseWithL, NamePieceL, ScanL;
    var l, x := At(p, named, out), Token(ParenLeft, "(");
    OneChar(s, p, '(');
    TwoChars(s, p, "//");
    TwoChars(s, p, "/*");
    SkippedHere(s, p);
    var next := l.(pos := p + 1, ctx := PopNext(PopNext(named, false), false));
    assert Cut(s, p, 1) == "(";
    assert ScanL(t, s, l) == (Got(x), next) by { OpenScan(t, s, l, next); }
    Scanned(t, s, l, Got(x), next);
    assert Drained(Got(x), next) == At(p + 1, next.ctx, out + [x]);
  }

  lemma OpenScan(t: Tables, s: string, l: Lx, next: Lx)
    requires l.ctx.mode.VMode? && NextArgumentOpens(l.ctx) && l.pos < |s| && s[l.pos] == '('
    requires Skipped(s, l.pos) == l.pos && Cut(s, l.pos, 1) == "(" && l.after == []
    requires Emitted(l.ctx, false) == [] && Emitted(PopNext(l.ctx, false), false) == []
    requires next == l.(pos := l.pos + 1, ctx := PopNext(PopNext(l.ctx, false), false))
    ensures ScanL(t, s, l) == (Got(Token(ParenLeft, "(")), next)
  {
    hide Skipped, PopNext, Emitted, CloseBraceL, CloseCallL, CloseWithL, NamePieceL, Cut, NextArgumentOpens, ScanL;
    ModeScan(t, s, l);
    assert ScanL(t, s, l) == VariableTokenL(t, s, l);
    var inside := NextL(NextL(l, false), false);
    assert l.after + Emitted(l.ctx, false) == [];
    assert inside == l.(ctx := PopNext(PopNext(l.ctx, false), false));
    assert VariableTokenL(t, s, l) == Took(s, inside, ParenLeft, 1);
  }

  // ------------------------------------------------------------- braced bodies

  /** Where the brace that closes `depth` open ones stands. */
  function ClosingAt(s: string, p: nat, depth: nat): (r: Option<nat>)
    requires depth > 0
    ensures r.Some? ==> p <= r.value < |s| && s[r.value] == '}'
    decreases |s| - p
  {
    if p >= |s| then None
    else if s[p] == '{' then ClosingAt(s, p + 1, depth + 1)
    else if s[p] == '}' then if depth == 1 then Some(p) else ClosingAt(s, p + 1, depth - 1)
    else ClosingAt(s, p + 1, depth)
  }

  lemma {:induction false} ClosingOver(s: string, p: nat, e: nat, depth: nat)
    requires depth > 0 && p <= e <= |s| && forall k :: p <= k < e ==> s[k] !in {'{', '}'}
    ensures ClosingAt(s, p, depth) == ClosingAt(s, e, depth)
    decreases e - p
  {
    if p < e { ClosingOver(s, p + 1, e, depth); }
  }

  lemma {:induction false} StretchIsPlain(s: string, p: nat)
    requires p <= |s|
    ensures forall k :: p <= k < BodyEnd(s, p) ==> s[k] !in {'{', '}', ';'}
    decreases |s| - p
  {
    if p < |s| && s[p] !in {'{', '}', ';'} { StretchIsPlain(s, p + 1); }
  }

  function TextOf(ts: seq<Token>): string { if ts == [] then "" else ts[0].text + TextOf(ts[1..]) }

  /** One scan inside a body: a piece of its text. */
  lemma BodyStep(t: Tables, s: string, l: Lx, depth: nat) returns (n: nat, now: nat)
    requires l.ctx.mode.ZMode? && l.ctx.parens == depth > 0 && l == At(l.pos, l.ctx, l.out)
    requires l.pos < |s| && !(s[l.pos] == '}' && depth == 1)
    ensures 0 < n <= |s| - l.pos && now > 0 && ClosingAt(s, l.pos, depth) == ClosingAt(s, l.pos + n, now)
    ensures Lexed(t, s, l)
            == Lexed(t, s, At(l.pos + n, l.ctx.(parens := now),
                              l.out + [Token(StringPart, s[l.pos..l.pos + n])]))
  {
    hide Lexed, ScanL;
    var c := s[l.pos];
    n := if c in {'{', '}', ';'} then 1 else BodyEnd(s, l.pos) - l.pos;
    now := if c == '{' then depth + 1 else if c == '}' then depth - 1 else depth;
    var x, l1 := Token(StringPart, s[l.pos..l.pos + n]), l.(pos := l.pos + n, ctx := l.ctx.(parens := now));
    StretchIsPlain(s, l.pos);
    if c !in {'{', '}'} { ClosingOver(s, l.pos, l.pos + n, depth); }
    assert ScanL(t, s, l) == (Got(x), l1) by { BodyPiece(t, s, l, n, now); }
    Scanned(t, s, l, Got(x), l1);
    assert Drained(Got(x), l1) == At(l.pos + n, l1.ctx, l.out + [x]);
  }

  lemma BodyPiece(t: Tables, s: string, l: Lx, n: nat, now: nat)
    requires l.ctx.mode.ZMode? && l.ctx.parens > 0 && l.pos < |s| && !(s[l.pos] == '}' && l.ctx.parens == 1)
    requires var c := s[l.pos];
             && n == (if c in {'{', '}', ';'} then 1 else BodyEnd(s, l.pos) - l.pos)
             && now == if c == '{' then l.ctx.parens + 1 else if c == '}' then l.ctx.parens - 1 else l.ctx.parens
    ensures n > 0 && ScanL(t, s, l) == (Got(Token(StringPart, s[l.pos..l.pos + n])),
                                        l.(pos := l.pos + n, ctx := l.ctx.(parens := now)))
  {
    hide CloseWithL, ScanL, BodyEnd, PopNext, Emitted;
    ModeScan(t, s, l);
    StretchMoves(s, l.pos);
  }

  lemma StretchMoves(s: string, p: nat)
    requires p < |s|
    ensures s[p] !in {'{', '}', ';'} ==> BodyEnd(s, p) > p
  {
  }

  /** A braced body is captured letter for letter, up to the brace that closes it; there the
      statement ends and the argument is over. */
  lemma {:induction false} BodyIsCaptured(t: Tables, s: string, l: Lx, depth: nat) returns (pieces: seq<Token>)
    requires l.ctx.mode.ZMode? && l.ctx.parens == depth > 0 && l == At(l.pos, l.ctx, l.out)
    requires ClosingAt(s, l.pos, depth).Some?
    ensures forall k :: 0 <= k < |pieces| ==> pieces[k].kind.StringPart?
    ensures var q := ClosingAt(s, l.pos, depth).value;
            var over := l.ctx.(parens := 0);
            && TextOf(pieces) == s[l.pos..q]
            && Lexed(t, s, l) ==
                 Lexed(t, s, At(q + 1, PopNext(over, false),
                                l.out + pieces + [Token(End, "")] + Emitted(over, false)))
    decreases |s| - l.pos
  {
    hide Lexed, ScanL, PopNext, Emitted;
    var q := ClosingAt(s, l.pos, depth).value;
    if s[l.pos] == '}' && depth == 1 {
      pieces := [];
      BodyCloses(t, s, l);
      assert l.out + [] == l.out;
    } else {
      var n, now := BodyStep(t, s, l, depth);
      var x := Token(StringPart, s[l.pos..l.pos + n]);
      var more := BodyIsCaptured(t, s, At(l.pos + n, l.ctx.(parens := now), l.out + [x]), now);
      pieces := [x] + more;
      assert pieces[1..] == more && x.text + s[l.pos + n..q] == s[l.pos..q];
      assert l.out + [x] + more == l.out + pieces;
    }
  }

  lemma BodyCloses(t: Tables, s: string, l: Lx)
    requires l.ctx.mode.ZMode? && l.ctx.parens == 1 && l == At(l.pos, l.ctx, l.out)
    requires l.pos < |s| && s[l.pos] == '}'
    ensures var over := l.ctx.(parens := 0);
            Lexed(t, s, l) ==
              Lexed(t, s, At(l.pos + 1, PopNext(over, false), l.out + [Token(End, "")] + Emitted(over, false)))
  {
    hide Lexed, PopNext, Emitted, ScanL;
    ModeScan(t, s, l);
    var over := l.ctx.(parens := 0);
    var l1 := Lx(l.pos + 1, PopNext(over, false), [Token(End, "")], Emitted(over, false), l.out);
    assert ApplyL(l, Op.Parens(-1)) == l.(ctx := over);
    assert [] + Emitted(over, false) == Emitted(over, false) && l.before + [Token(End, "")] == [Token(End, "")];
    assert BodyL(s, l) == (Nothing, l1);
    Scanned(t, s, l, Nothing, l1);
    assert Drained(Nothing, l1) == At(l.pos + 1, l1.ctx, l.out + [Token(End, "")] + Emitted(over, false));
  }

  /** An argument that is a braced body, from its opening brace to behind its closing one. */
  lemma BodyArgument(t: Tables, s: string, c: Context, p: nat, q: nat, out: seq<Token>) returns (pieces: seq<Token>)
    requires p < |s| && s[p] == '{' && ClosingAt(s, p + 1, 1) == Some(q)
    ensures TextOf(pieces) == s[p + 1..q] && forall k :: 0 <= k < |pieces| ==> pieces[k].kind.StringPart?
    ensures Lexed(t, s, At(p, Opened(c, "Z"), out)) == Lexed(t, s, At(q + 1, c, out + pieces + [Token(End, "")]))
  {
    hide Lexed, ScanL;
    var open := Opened(c, "Z");
    var st := State("Z", PopCommand, true, false, false);
    assert (c.stack + [Saved(st, c.mode, c.parens, c.literals)])[..|c.stack|] == c.stack;
    var l, l1 := At(p, open, out), At(p + 1, open.(parens := 1), out);
    ModeScan(t, s, l);
    assert ScanL(t, s, l) == (Nothing, l1);
    Scanned(t, s, l, Nothing, l1);
    assert Drained(Nothing, l1) == l1 by { assert out + [] + [] + [] == out; }
    pieces := BodyIsCaptured(t, s, l1, 1);
    var over := open.(parens := 0);
    assert PopNext(over, false) == c && Emitted(over, false) == [];
    assert out + pieces + [Token(End, "")] + [] == out + pieces + [Token(End, "")];
  }

  // ------------------------------------------------------------- lists and raw text

  /** Plain text of a list: no character of it ends an item or means anything else. */
  predicate PlainItem(x: string) { x != "" && forall k :: 0 <= k < |x| ==> x[k] !in {'#', ',', ';', '}'} }

  /** The items with commas between them, and the terminator. */
  function ItemsText(xs: seq<string>): string
    requires xs != []
  {
    xs[0] + if |xs| == 1 then ";" else "," + ItemsText(xs[1..])
  }

  /** What they are read as: behind each comma an empty string comes first. */
  function ItemsRead(xs: seq<string>): seq<Token>
    requires xs != []
  {
    [Token(StringPart, xs[0])]
      + if |xs| == 1 then [Token(End, ";")]
        else [Token(Comma, ","), Token(StringPart, "")] + ItemsRead(xs[1..])
  }

  /** Inside a list argument of a command that was opened over `c`. */
  predicate InList(open: Context, c: Context) {
    && open.mode.LMode? && open.stack != [] && CmdPops(open) && !FuncPops(open) && !InCommandCall(open)
    && PopNext(open, true) == c && Emitted(open, true) == []
  }

  lemma {:induction false} ItemEnds(s: string, c: Context, p: nat, x: string)
    requires StartsAt(s, p, x) && p + |x| < |s| && s[p + |x|] in {',', ';'}
    requires !FuncPops(c) && !InCommandCall(c) && CmdPops(c)
    requires forall k :: 0 <= k < |x| ==> x[k] !in {'#', ',', ';', '}'}
    ensures ListEnd(s, c, p) == p + |x|
    decreases |x|
  {
    hide FuncPops, InCommandCall, CmdPops;
    if x != "" {
      Inside(s, p, x, 0);
      assert [x[0]] + x[1..] == x;
      Behind(s, p, [x[0]], x[1..]);
      ItemEnds(s, c, p + 1, x[1..]);
    }
  }

  lemma ListMode(t: Tables, s: string, l: Lx)
    requires l.pos < |s| && l.ctx.mode.LMode? && !InCommandCall(l.ctx)
    ensures ScanL(t, s, l) == ListTokenL(t, s, l) && !CallsHere(t, s, l)
  {
    hide ListTokenL;
  }

  lemma ListScan(t: Tables, s: string, l: Lx, c: Context)
    requires InList(l.ctx, c) && l.pos < |s| && s[l.pos] !in {'}', '#', '"'} && l.after == []
    ensures ScanL(t, s, l) ==
              if s[l.pos] == ';' then (Got(Token(End, ";")), l.(pos := l.pos + 1, ctx := c))
              else if s[l.pos] == ',' then
                (Got(Token(Comma, ",")), l.(pos := l.pos + 1, after := [Token(StringPart, "")]))
              else
                var q := ListEnd(s, l.ctx, l.pos);
                Took(s, l, StringPart, if q == l.pos then 1 else q - l.pos)
  {
    hide ScanL, PopNext, Emitted, CmdPops, FuncPops, Took, ListEnd;
    ListMode(t, s, l);
    TookOne(s, NextL(l, true));
    TookOne(s, l.(after := [Token(StringPart, "")]));
    assert [] + [Token(StringPart, "")] == [Token(StringPart, "")] && l.after + [] == [];
  }

  lemma ItemsForm(xs: seq<string>)
    requires xs != []
    ensures ItemsText(xs) == xs[0] + if |xs| == 1 then ";" else "," + ItemsText(xs[1..])
    ensures ItemsRead(xs) == [Token(StringPart, xs[0])]
                               + if |xs| == 1 then [Token(End, ";")]
                                 else [Token(Comma, ","), Token(StringPart, "")] + ItemsRead(xs[1..])
  {
  }

  /** A list argument is read item by item, and its terminator closes the command. */
  lemma {:induction false} ListRead(
      t: Tables, s: string, open: Context, c: Context, p: nat, xs: seq<string>, out: seq<Token>)
    requires xs != [] && InList(open, c) && StartsAt(s, p, ItemsText(xs))
    requires forall k :: 0 <= k < |xs| ==> PlainItem(xs[k]) && xs[k][0] != '"'
    ensures Lexed(t, s, At(p, open, out)) == Lexed(t, s, At(p + |ItemsText(xs)|, c, out + ItemsRead(xs)))
    decreases |xs|
  {
    hide StartsAt, Lexed, ScanL, InList, PlainItem, ItemsText, ItemsRead;
    ItemsForm(xs);
    var x, last := xs[0], |xs| == 1;
    var rest := if last then ";" else "," + ItemsText(xs[1..]);
    Behind(s, p, x, rest);
    Inside(s, p + |x|, rest, 0);
    ItemTaken(t, s, open, c, p, x, out);
    var q, out1 := p + |x|, out + [Token(StringPart, x)];
    if last {
      EndTaken(t, s, open, c, q, out1);
      assert out1 + [Token(End, ";")] == out + ItemsRead(xs);
    } else {
      Behind(s, q, ",", ItemsText(xs[1..]));
      ItemEndTaken(t, s, open, c, q, out1);
      var out2 := out1 + [Token(Comma, ","), Token(StringPart, "")];
      ListRead(t, s, open, c, q + 1, xs[1..], out2);
      assert out2 + ItemsRead(xs[1..]) == out + ItemsRead(xs);
    }
  }

  lemma ItemTaken(t: Tables, s: string, open: Context, c: Context, p: nat, x: string, out: seq<Token>)
    requires InList(open, c) && PlainItem(x) && x[0] != '"' && StartsAt(s, p, x)
    requires p + |x| < |s| && s[p + |x|] in {',', ';'}
    ensures Lexed(t, s, At(p, open, out)) == Lexed(t, s, At(p + |x|, open, out + [Token(StringPart, x)]))
  {
    hide StartsAt, Lexed, ScanL;
    var l, tok := At(p, open, out), Token(StringPart, x);
    Inside(s, p, x, 0);
    ItemEnds(s, open, p, x);
    Spelled(s, p, x);
    ListScan(t, s, l, c);
    Scanned(t, s, l, Got(tok), l.(pos := p + |x|));
    assert Drained(Got(tok), l.(pos := p + |x|)) == At(p + |x|, open, out + [tok]);
  }

  lemma EndTaken(t: Tables, s: string, open: Context, c: Context, p: nat, out: seq<Token>)
    requires InList(open, c) && p < |s| && s[p] == ';'
    ensures Lexed(t, s, At(p, open, out)) == Lexed(t, s, At(p + 1, c, out + [Token(End, ";")]))
  {
    hide Lexed, ScanL, InList;
    var l, x := At(p, open, out), Token(End, ";");
    ListScan(t, s, l, c);
    Scanned(t, s, l, Got(x), l.(pos := p + 1, ctx := c));
    assert Drained(Got(x), l.(pos := p + 1, ctx := c)) == At(p + 1, c, out + [x]);
  }

  lemma ItemEndTaken(t: Tables, s: string, open: Context, c: Context, p: nat, out: seq<Token>)
    requires InList(open, c) && p < |s| && s[p] == ','
    ensures Lexed(t, s, At(p, open, out))
            == Lexed(t, s, At(p + 1, open, out + [Token(Comma, ","), Token(StringPart, "")]))
  {
    hide Lexed, ScanL, InList;
    var l, x, empty := At(p, open, out), Token(Comma, ","), Token(StringPart, "");
    ListScan(t, s, l, c);
    var l1 := l.(pos := p + 1, after := [empty]);
    Scanned(t, s, l, Got(x), l1);
    assert out + [] + [x] + [empty] == out + [x, empty];
    assert Drained(Got(x), l1) == At(p + 1, open, out + [x, empty]);
  }

  /** The argument of a command that takes a list, from its first item on. */
  lemma ListArgument(t: Tables, s: string, c: Context, p: nat, xs: seq<string>, out: seq<Token>)
    requires xs != [] && StartsAt(s, p, ItemsText(xs))
    requires forall k :: 0 <= k < |xs| ==> PlainItem(xs[k]) && xs[k][0] != '"'
    ensures Lexed(t, s, At(p, Opened(c, "L"), out))
            == Lexed(t, s, At(p + |ItemsText(xs)|, c, out + ItemsRead(xs)))
  {
    hide StartsAt, Lexed, ItemsText, ItemsRead, PlainItem;
    var st := State("L", PopCommand, true, false, false);
    assert (c.stack + [Saved(st, c.mode, c.parens, c.literals)])[..|c.stack|] == c.stack;
    ListRead(t, s, Opened(c, "L"), c, p, xs, out);
  }

  /** Raw text of a command: commas and single number signs are part of it. */
  lemma RawArgument(t: Tables, s: string, c: Context, p: nat, x: string, out: seq<Token>)
    requires x != "" && StartsAt(s, p, x + ";") && forall k :: 0 <= k < |x| ==> x[k] !in {'}', ';'}
    requires forall k :: 0 <= k < |x| - 1 ==> !(x[k] == '#' && x[k + 1] == '#')
    ensures Lexed(t, s, At(p, Opened(c, "R"), out))
            == Lexed(t, s, At(p + |x| + 1, c, out + [Token(StringPart, x), Token(End, ";")]))
  {
    hide StartsAt, Lexed, ScanL;
    var open := Opened(c, "R");
    RawOpened(c);
    Behind(s, p, x, ";");
    OneChar(s, p + |x|, ';');
    Inside(s, p, x, 0);
    Spelled(s, p, x);
    RawEnds(s, open, p, x, 0);
    var l, tok := At(p, open, out), Token(StringPart, x);
    NoDouble(s, p, x, 0);
    assert ScanL(t, s, l) == (Got(tok), l.(pos := p + |x|)) by { RawScan(t, s, l, x); }
    Scanned(t, s, l, Got(tok), l.(pos := p + |x|));
    var m, e := At(p + |x|, open, out + [tok]), Token(End, ";");
    assert Drained(Got(tok), l.(pos := p + |x|)) == m;
    assert ScanL(t, s, m) == (Got(e), m.(pos := m.pos + 1, ctx := c)) by { RawEnd(t, s, m, c); }
    Scanned(t, s, m, Got(e), m.(pos := m.pos + 1, ctx := c));
    assert out + [tok] + [e] == out + [tok, e];
    assert Drained(Got(e), m.(pos := m.pos + 1, ctx := c)) == At(p + |x| + 1, c, out + [tok, e]);
  }

  lemma RawOpened(c: Context)
    ensures var open := Opened(c, "R");
            && open.mode.RMode? && open.stack != [] && CmdPops(open) && !FuncPops(open) && !CommaPops(open)
            && !InCommandCall(open) && open.parens == 0 && PopNext(open, true) == c && Emitted(open, true) == []
  {
    var st := State("R", PopCommand, true, false, false);
    assert (c.stack + [Saved(st, c.mode, c.parens, c.literals)])[..|c.stack|] == c.stack;
  }

  lemma NoDouble(s: string, p: nat, x: string, k: nat)
    requires StartsAt(s, p, x) && k < |x| && p + |x| < |s| && s[p + |x|] == ';'
    requires forall k :: 0 <= k < |x| - 1 ==> !(x[k] == '#' && x[k + 1] == '#')
    ensures s[p + k] == x[k] && !StartsAt(s, p + k, "##")
  {
    hide StartsAt;
    Inside(s, p, x, k);
    TwoChars(s, p + k, "##");
    if k + 1 < |x| { Inside(s, p, x, k + 1); }
  }

  lemma {:induction false} RawEnds(s: string, c: Context, p: nat, x: string, k: nat)
    requires StartsAt(s, p, x) && k <= |x| && p + |x| < |s| && s[p + |x|] == ';'
    requires forall k :: 0 <= k < |x| ==> x[k] !in {'}', ';'}
    requires forall k :: 0 <= k < |x| - 1 ==> !(x[k] == '#' && x[k + 1] == '#')
    requires CmdPops(c) && !FuncPops(c) && !CommaPops(c) && !InCommandCall(c)
    ensures RunEnd(s, c, true, p + k, c.parens) == (p + |x|, c.parens)
    decreases |x| - k
  {
    hide RunEnd, CmdPops, FuncPops, CommaPops, InCommandCall, StartsAt;
    RunAt(s, c, true, p + k, c.parens);
    if k < |x| {
      NoDouble(s, p, x, k);
      RawEnds(s, c, p, x, k + 1);
    }
  }

  lemma RawMode(t: Tables, s: string, l: Lx)
    requires l.pos < |s| && l.ctx.mode.RMode? && !InCommandCall(l.ctx)
    ensures ScanL(t, s, l) == StringTokenL(t, s, l, true)
  {
    hide StringTokenL;
  }

  lemma RawScan(t: Tables, s: string, l: Lx, x: string)
    requires l.ctx.mode.RMode? && CmdPops(l.ctx) && !FuncPops(l.ctx) && !CommaPops(l.ctx) && !InCommandCall(l.ctx)
    requires l.pos < |s| && s[l.pos] !in {'}', ';'} && !StartsAt(s, l.pos, "##") && x != ""
    requires RunEnd(s, l.ctx, true, l.pos, l.ctx.parens) == (l.pos + |x|, l.ctx.parens) && Cut(s, l.pos, |x|) == x
    ensures ScanL(t, s, l) == (Got(Token(StringPart, x)), l.(pos := l.pos + |x|))
  {
    hide ScanL, RunEnd, Cut, StartsAt, CallsHere;
    RawMode(t, s, l);
    assert RunL(s, l, true) == (Got(Token(StringPart, x)), l.(pos := l.pos + |x|));
  }

  lemma RawEnd(t: Tables, s: string, l: Lx, c: Context)
    requires l.ctx.mode.RMode? && CmdPops(l.ctx) && !FuncPops(l.ctx) && !InCommandCall(l.ctx)
    requires l.pos < |s| && s[l.pos] == ';' && PopNext(l.ctx, true) == c && Emitted(l.ctx, true) == [] && l.after == []
    ensures ScanL(t, s, l) == (Got(Token(End, ";")), l.(pos := l.pos + 1, ctx := c))
  {
    hide ScanL, RunL, Took, PopNext, Emitted, CallsHere;
    RawMode(t, s, l);
    TookOne(s, NextL(l, true));
    assert l.after + [] == [];
  }

  // ------------------------------------------------------------- commands written as calls

  /** The context of a command written as a call with a text argument. */
  function Called(c: Context): Context {
    PopNext(Pushing(c, State("S", PopFunction, true, false, true)), false)
  }

  lemma CalledContext(c: Context)
    ensures var open := Called(c);
            && open.mode.SMode? && open.stack != [] && FuncPops(open) && !CmdPops(open) && !CommaPops(open)
            && InCommandCall(open) && open.parens == 0 && PopNext(open, true) == c && Emitted(open, true) == []
    ensures Emitted(Pushing(c, State("S", PopFunction, true, false, true)), false) == [Token(StringPart, "")]
  {
    var st := State("S", PopFunction, true, false, true);
    assert (c.stack + [Saved(st, c.mode, c.parens, c.literals)])[..|c.stack|] == c.stack;
  }

  /** A command that needs no space may be written as a call: `cmd("text")` is the command with
      that text. The parentheses are no tokens, and behind them the lexer is where it was. */
  lemma CallRead(t: Tables, s: string, l: Lx, cmd: string, x: string)
    requires Usual(t) && l.ctx.mode.Default? && l == At(l.pos, l.ctx, l.out)
    requires IsWord(cmd) && cmd in t.commands && t.commands[cmd] == Gs1Scan.Command.Command("S", false)
    requires !BehindPeriod(l.out) && !BehindOperator(l.out)
    requires StartsAt(s, l.pos, cmd + ("(" + ("\"" + Csv.Doubled(x, '"') + "\"" + ")")))
    ensures Lexed(t, s, l) ==
              Lexed(t, s, At(l.pos + |cmd| + |Csv.Doubled(x, '"')| + 4, l.ctx,
                             l.out + [Token(CommandName, cmd), Token(StringPart, ""), Token(StringPart, x)]))
  {
    hide Usual, StartsAt, Lexed, ScanL, IsWord, PopNext, Emitted, BehindPeriod, BehindOperator, Csv.Doubled;
    var open, p, quoted := Called(l.ctx), l.pos + |cmd|, "\"" + Csv.Doubled(x, '"') + "\"";
    CalledContext(l.ctx);
    Behind(s, l.pos, cmd, "(" + (quoted + ")"));
    Behind(s, p, "(", quoted + ")");
    Behind(s, p + 1, quoted, ")");
    Inside(s, p + 1, quoted, 0);
    OneChar(s, p, '(');
    OneChar(s, p + 1 + |quoted|, ')');
    CallOpens(t, s, l, cmd);
    var out1 := l.out + [Token(CommandName, cmd), Token(StringPart, "")];
    var m, piece := At(p + 1, open, out1), Token(StringPart, x);
    assert ScanL(t, s, m) == (Got(piece), m.(pos := p + 1 + |quoted|)) by { QuotedInCall(t, s, m, x); }
    Scanned(t, s, m, Got(piece), m.(pos := p + 1 + |quoted|));
    var e := At(p + 1 + |quoted|, open, out1 + [piece]);
    assert Drained(Got(piece), m.(pos := p + 1 + |quoted|)) == e;
    var last := e.(pos := e.pos + 1, ctx := l.ctx);
    assert ScanL(t, s, e) == (Nothing, last) by { CallCloses(t, s, e, l.ctx); }
    Scanned(t, s, e, Nothing, last);
    assert Drained(Nothing, last) == last;
    assert out1 + [piece] == l.out + [Token(CommandName, cmd), Token(StringPart, ""), Token(StringPart, x)];
  }

  lemma CallOpens(t: Tables, s: string, l: Lx, cmd: string)
    requires Usual(t) && l.ctx.mode.Default? && l == At(l.pos, l.ctx, l.out)
    requires IsWord(cmd) && cmd in t.commands && t.commands[cmd] == Gs1Scan.Command.Command("S", false)
    requires !BehindPeriod(l.out) && !BehindOperator(l.out) && StartsAt(s, l.pos, cmd)
    requires var p := l.pos + |cmd|; p + 1 < |s| && s[p] == '(' && s[p + 1] == '"'
    ensures Lexed(t, s, l) == Lexed(t, s, At(l.pos + |cmd| + 1, Called(l.ctx),
                                             l.out + [Token(CommandName, cmd), Token(StringPart, "")]))
  {
    hide Usual, StartsAt, Lexed, ScanL, IsWord, Begins, Ordinary, BehindPeriod, BehindOperator, OpensAfter, PopNext,
      Emitted, FirstOperator, QuotedL, WordChar, LateWordL;
    ParenIsNoWord(cmd);
    WordFits(t, s, l, cmd);
    CommonScan(t, s, l);
    CalledContext(l.ctx);
    var pushed := PushCommandL(l.(pos := l.pos + |cmd| + 1), "S", false, true);
    var x, empty := Token(CommandName, cmd), Token(StringPart, "");
    assert CommandWordL(s, l, cmd, |cmd|, "S") == (Got(x), pushed);
    assert ScanL(t, s, l) == (Got(x), pushed);
    Scanned(t, s, l, Got(x), pushed);
    assert [] + [empty] == [empty] && l.out + [] + [x] + [empty] == l.out + [x, empty];
    assert Drained(Got(x), pushed) == At(l.pos + |cmd| + 1, Called(l.ctx), l.out + [x, empty]);
  }

  lemma QuotedInCall(t: Tables, s: string, l: Lx, x: string)
    requires Usual(t) && l.ctx.mode.SMode? && InCommandCall(l.ctx) && !CmdPops(l.ctx) && !CommaPops(l.ctx)
    requires var w := "\"" + Csv.Doubled(x, '"') + "\"";
             StartsAt(s, l.pos, w) && l.pos + |w| < |s| && s[l.pos + |w|] != '"'
    ensures ScanL(t, s, l) == (Got(Token(StringPart, x)), l.(pos := l.pos + |Csv.Doubled(x, '"')| + 2))
  {
    hide Usual, Quoted, ScanL, StartsAt, Csv.Doubled, Skipped, CmdPops, CommaPops, FuncPops, InCommandCall, CodeL, RunL;
    var w, more := "\"" + Csv.Doubled(x, '"') + "\"", Csv.Doubled(x, '"') + "\"";
    Inside(s, l.pos, w, 0);
    TwoChars(s, l.pos, "//");
    TwoChars(s, l.pos, "/*");
    SkippedHere(s, l.pos);
    assert "\"" + more == w;
    Behind(s, l.pos, "\"", more);
    QuotedBack(s, l.pos + 1, x);
    QuoteIsNoLetter(t);
    ModeScan(t, s, l);
    assert StringTokenL(t, s, l, false) == QuotedL(s, l);
  }

  lemma CallCloses(t: Tables, s: string, l: Lx, c: Context)
    requires Usual(t) && l.ctx.mode.SMode? && InCommandCall(l.ctx) && FuncPops(l.ctx) && l.ctx.parens == 0
    requires l.pos < |s| && s[l.pos] == ')' && PopNext(l.ctx, true) == c && Emitted(l.ctx, true) == [] && l.after == []
    ensures ScanL(t, s, l) == (Nothing, l.(pos := l.pos + 1, ctx := c))
  {
    hide Usual, ScanL, StartsAt, Skipped, FuncPops, InCommandCall, PopNext, Emitted, CodeL, RunL, CloseBraceL;
    TwoChars(s, l.pos, "//");
    TwoChars(s, l.pos, "/*");
    SkippedHere(s, l.pos);
    ModeScan(t, s, l);
    ParenIsNoLetter(t);
    assert l.after + [] == [];
    assert StringTokenL(t, s, l, false) == CloseCallL(l);
  }

  lemma ParenIsNoLetter(t: Tables)
    requires Usual(t)
    ensures !t.alpha(')')
  {
  }
}

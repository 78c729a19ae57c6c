/** Lexing undoes spelling, token after token to the end of the text. */
module Gs1Lexed {
  import opened Gs1Syntax
  import opened Gs1Modes
  import opened Gs1Scan
  import opened Gs1Printer
  import opened Gs1Spelling
  import opened Gs1Reading

  // ------------------------------------------------------------- what scans ask of the tokens

  predicate SameKinds(a: seq<Token>, b: seq<Token>) {
    |a| == |b| && forall k :: 0 <= k < |a| ==> a[k].kind == b[k].kind
  }

  lemma {:induction false} SameQuestions(a: seq<Token>, b: seq<Token>)
    requires SameKinds(a, b)
    ensures BehindPeriod(a) == BehindPeriod(b) && BehindOperator(a) == BehindOperator(b)
    ensures PendingTernary(a) == PendingTernary(b)
    decreases |a|
  {
    hide IsOperator;
    if a != [] { SameQuestions(a[..|a| - 1], b[..|b| - 1]); }
  }

  predicate AllStand(a: seq<Token>, b: seq<Token>) {
    |a| == |b| && forall k :: 0 <= k < |a| ==> Stands(a[k], b[k])
  }

  // ------------------------------------------------------------- one token

  predicate Reads(s: string, p: nat, rest: string) { p <= |s| && s[p..] == rest }

  lemma ReadsOn(s: string, p: nat, x: string, rest: string)
    requires Reads(s, p, x + rest)
    ensures StartsAt(s, p, x) && Reads(s, p + |x|, rest)
    ensures |rest| > 0 ==> p + |x| < |s| && s[p + |x|] == rest[0]
  {
    assert s[p..][..|x|] == x && s[p..][|x|..] == rest;
  }

  lemma NotThere(s: string, p: nat, w: string)
    requires StartsAt(s, p + 1, w) && w != "" && w[0] != 'i'
    ensures !StartsAt(s, p, " in ")
  {
    CharsOf(s, p + 1, w);
    CharsOf(s, p, " in ");
  }

  lemma WordNotThere(s: string, p: nat, w: string)
    requires StartsAt(s, p + 1, w) && IsWord(w) && w != "in"
    requires p + 1 + |w| >= |s| || !WordChar(s[p + 1 + |w|])
    ensures !StartsAt(s, p, " in ")
  {
    CharsOf(s, p + 1, w);
    CharsOf(s, p, " in ");
    assert " in "[1] == 'i' && " in "[2] == 'n' && " in "[3] == ' ';
    if |w| == 2 {
      assert w == [w[0], w[1]] && "in" == ['i', 'n'];
      assert w[0] != 'i' || w[1] != 'n';
    } else if |w| == 1 && p + 2 < |s| {
      assert s[p + 2] != 'n';
    } else if |w| >= 3 {
      assert s[p + 3] == w[2];
    }
  }

  /** Behind `n` characters, with what the token turned and queued. */
  function Over(t: Tables, l: Lx, x: Token, n: nat): Lx {
    var (ctx, queued) := Turn(t, l.ctx, x);
    l.(pos := l.pos + n, ctx := ctx, after := l.after + queued)
  }

  /** The scan at a token gives it back, behind a blank that is not part of an ` in `. */
  ghost predicate Given(t: Tables, s: string, l: Lx, x: Token, n: nat) {
    && n > 0 && Begins(s, l.pos) && (l.pos > 0 ==> !StartsAt(s, l.pos - 1, " in "))
    && ScanL(t, s, l).0.Got? && Stands(ScanL(t, s, l).0.token, x) && !ScanL(t, s, l).0.token.kind.Eof?
    && ScanL(t, s, l).1 == Over(t, l, x, n)
  }

  lemma Unturned(t: Tables, l: Lx, x: Token, n: nat)
    requires !x.kind.CommandName? && !Mark(x.kind)
    ensures Over(t, l, x, n) == l.(pos := l.pos + n) && Turn(t, l.ctx, x).0 == l.ctx
  {
    assert l.after + [] == l.after;
  }

  lemma NameGiven(t: Tables, s: string, l: Lx, x: Token)
    requires Usual(t) && Open(l.ctx) && StartsAt(s, l.pos, x.text) && Boundary(s, l.pos + |x.text|)
    requires x.kind.Identifier? && LegibleName(t, l.ctx, l.out, x.text)
    ensures Given(t, s, l, x, |x.text|)
  {
    hide Usual, ScanL, StartsAt, Begins;
    NameScan(t, s, l, x.text);
    WordFits(t, s, l, x.text);
    Unturned(t, l, x, |x.text|);
    if l.pos > 0 { WordNotThere(s, l.pos - 1, x.text); }
  }

  lemma LiteralGiven(t: Tables, s: string, l: Lx, x: Token)
    requires Usual(t) && Open(l.ctx) && StartsAt(s, l.pos, x.text) && Boundary(s, l.pos + |x.text|)
    requires x.kind.Literal? && LegibleLiteral(t, l.ctx, l.out, x.text)
    ensures Given(t, s, l, x, |x.text|)
  {
    hide Usual, ScanL, StartsAt, Begins, NumeralRun;
    Unturned(t, l, x, |x.text|);
    if Numeral(x.text) {
      NumeralScan(t, s, l, x.text);
      NumeralFits(t, s, l, x.text);
    } else {
      TruthScan(t, s, l, x.text);
      WordFits(t, s, l, x.text);
    }
    if l.pos > 0 { NotThere(s, l.pos - 1, x.text); }
  }

  lemma KeywordGiven(t: Tables, s: string, l: Lx, x: Token, rest: seq<Token>)
    requires Usual(t) && Keyword(x.kind) && LegibleKeyword(t, l.ctx, l.out, x, rest)
    requires StartsAt(s, l.pos, Spelling(x)) && Boundary(s, l.pos + |Spelling(x)|)
    requires Spelling(x) == "switch" ==> StartsAt(s, l.pos + 6, " (")
    ensures Given(t, s, l, x, |Spelling(x)|)
  {
    hide Usual, ScanL, StartsAt, Begins, Spelling, OpensAfter;
    var w := Spelling(x);
    KeywordScan(t, s, l, x, rest);
    WordFits(t, s, l, w);
    Unturned(t, l, x, |w|);
    if l.pos > 0 { WordNotThere(s, l.pos - 1, w); }
  }

  lemma OperatorGiven(t: Tables, s: string, l: Lx, x: Token)
    requires Usual(t) && Open(l.ctx) && IsOperator(x.kind) && Operates(t, x)
    requires StartsAt(s, l.pos, x.text) && Boundary(s, l.pos + |x.text|)
    ensures Given(t, s, l, x, |x.text|)
  {
    hide Usual, ScanL, StartsAt, Begins, FirstOperator;
    OperatorScan(t, s, l, x);
    OperatorFits(t, s, l, x);
    Unturned(t, l, x, |x.text|);
    if l.pos > 0 { NotThere(s, l.pos - 1, x.text); }
  }

  lemma MarkGiven(t: Tables, s: string, l: Lx, done: seq<Token>, x: Token, rest: seq<Token>)
    requires Usual(t) && Open(l.ctx) && (l.ctx.mode.Default? <==> l.ctx.stack == [])
    requires Mark(x.kind) && LegibleToken(t, l.ctx, l.out, x, rest) && StartsAt(s, l.pos, Spelling(x))
    requires l.ctx.mode.Default? || x.kind in {Pipe, Question, Period, Colon} ==> Boundary(s, l.pos + 1)
    ensures Given(t, s, l, x, 1)
  {
    hide Usual, ScanL, StartsAt, Begins, Spelling, PendingTernary, Turn, CmdPops, FuncPops;
    MarkFits(t, s, l, x);
    MarkChar(x);
    if l.ctx.mode.Default? { DefaultMark(t, s, l, x); } else { ExprMark(t, s, l, x); }
    if l.pos > 0 { NotThere(s, l.pos - 1, Spelling(x)); }
  }

  lemma ColonGiven(t: Tables, s: string, l: Lx, x: Token)
    requires Usual(t) && Open(l.ctx) && x == Token(Identifier, ":") && !PendingTernary(l.out)
    requires StartsAt(s, l.pos, ":") && Boundary(s, l.pos + 1)
    ensures Given(t, s, l, x, 1)
  {
    hide Usual, ScanL, StartsAt, Begins, PendingTernary;
    ColonScan(t, s, l);
    MarkFits(t, s, l, Token(Colon, ":"));
    Unturned(t, l, x, 1);
    if l.pos > 0 { NotThere(s, l.pos - 1, ":"); }
  }

  /** Any token in the default mode or in an expression. */
  lemma TokenGiven(t: Tables, s: string, l: Lx, x: Token, rest: seq<Token>)
    requires Usual(t) && Open(l.ctx) && (l.ctx.mode.Default? <==> l.ctx.stack == []) && !x.kind.OpIn?
    requires LegibleToken(t, l.ctx, l.out, x, rest) && StartsAt(s, l.pos, Spelling(x))
    requires !Raw(Turn(t, l.ctx, x).0) ==> Boundary(s, l.pos + |Spelling(x)|)
    requires x.kind.KwSwitch? ==> StartsAt(s, l.pos + 6, " (")
    ensures Given(t, s, l, x, |Spelling(x)|)
  {
    hide Usual, Given, StartsAt, LegibleName, LegibleLiteral, LegibleKeyword, Operates, PendingTernary, Boundary;
    if Mark(x.kind) {
      MarkChar(x);
      StaysOpen(t, l.ctx, x);
      MarkGiven(t, s, l, l.out, x, rest);
    } else {
      assert !x.kind.CommandName?;
      Unturned(t, l, x, 1);
      match x.kind
      case Identifier =>
        if x.text == ":" { ColonGiven(t, s, l, x); } else { NameGiven(t, s, l, x); }
      case Literal => LiteralGiven(t, s, l, x);
      case _ => if Keyword(x.kind) { KeywordGiven(t, s, l, x, rest); } else { OperatorGiven(t, s, l, x); }
    }
  }

  lemma StaysOpen(t: Tables, c: Context, x: Token)
    requires Open(c) && (c.mode.Default? <==> c.stack == []) && Mark(x.kind)
    ensures c.mode.Default? || x.kind in {Pipe, Question, Period, Colon} ==> !Raw(Turn(t, c, x).0)
  {
  }

  lemma CommandGiven(t: Tables, s: string, l: Lx, x: Token, chars: string, rest: string)
    requires Usual(t) && x.kind.CommandName? && LegibleCommand(t, l.ctx, l.out, x, rest)
    requires chars == x.text + if t.commands[x.text].needsSpace then " " else ""
    requires StartsAt(s, l.pos, chars) && Reads(s, l.pos + |chars|, rest)
    ensures Given(t, s, l, x, |chars|)
  {
    hide Usual, ScanL, StartsAt, Begins, Turn, IsOperator;
    var w := x.text;
    Prefixed(s, l.pos, w, chars);
    if !t.commands[w].needsSpace { assert chars == w; }
    CommandScan(t, s, l, x, rest);
    AfterWord(s, l.pos, w, chars, rest);
    WordFits(t, s, l, w);
    if l.pos > 0 { WordNotThere(s, l.pos - 1, w); }
  }

  lemma Prefixed(s: string, p: nat, w: string, chars: string)
    requires StartsAt(s, p, chars) && w <= chars
    ensures StartsAt(s, p, w)
  {
    CharsOf(s, p, chars);
    CharsOf(s, p, w);
  }

  lemma AfterWord(s: string, p: nat, w: string, chars: string, rest: string)
    requires StartsAt(s, p, chars) && Reads(s, p + |chars|, rest)
    requires chars == w + " " || (chars == w && (rest == "" || !WordChar(rest[0])))
    ensures p + |w| >= |s| || !WordChar(s[p + |w|])
  {
    CharsOf(s, p, chars);
    if chars == w && p + |w| < |s| { assert s[p + |w|..][0] == s[p + |w|]; }
  }

  // ------------------------------------------------------------- one turn

  /** The scan at a raw token gives it back. */
  ghost predicate Taken(t: Tables, s: string, l: Lx, x: Token, n: nat) {
    && n > 0 && ScanL(t, s, l).0.Got? && Stands(ScanL(t, s, l).0.token, x) && !ScanL(t, s, l).0.token.kind.Eof?
    && ScanL(t, s, l).1 == Over(t, l, x, n)
  }

  /** Behind a token that was read as `y`, with the queue emptied. */
  function Landed(t: Tables, l: Lx, x: Token, y: Token, n: nat): Lx {
    var (ctx, queued) := Turn(t, l.ctx, x);
    Lx(l.pos + n, ctx, [], [], l.out + ([y] + queued))
  }

  lemma Goes(t: Tables, s: string, l: Lx)
    requires var (r, l1) := ScanL(t, s, l);
             (r.Nothing? || (r.Got? && !r.token.kind.Eof?)) && l.pos < l1.pos <= |s|
    ensures Lexed(t, s, l) == Lexed(t, s, Drained(ScanL(t, s, l).0, ScanL(t, s, l).1))
  {
    hide ScanL, Drained;
  }

  lemma Lands(t: Tables, s: string, l: Lx, x: Token, n: nat)
    requires Taken(t, s, l, x, n) && l.before == [] && l.after == [] && l.pos + n <= |s|
    ensures Lexed(t, s, l) == Lexed(t, s, Landed(t, l, x, ScanL(t, s, l).0.token, n))
  {
    hide ScanL, Turn, Stands, Lexed;
    Goes(t, s, l);
    var y, queued := ScanL(t, s, l).0.token, Turn(t, l.ctx, x).1;
    assert [] + queued == queued && l.out + [] == l.out;
    assert l.out + [] + [y] + queued == l.out + ([y] + queued);
  }

  /** What closes a call is no command's terminator. */
  lemma Apart(c: Context)
    ensures CmdPops(c) ==> !FuncPops(c)
  {
  }

  /** Text, a comma or a terminator in a text argument. */
  lemma RawTaken(t: Tables, s: string, l: Lx, x: Token, rest: string)
    requires Raw(l.ctx) && !InCommandCall(l.ctx)
    requires match x.kind
             case StringPart => CmdPops(l.ctx) && LegibleText(l.ctx, x.text) && EndsText(l.ctx, rest)
             case End => CmdPops(l.ctx)
             case Comma => CommaPops(l.ctx) && l.ctx.literals == 0
             case _ => false
    requires StartsAt(s, l.pos, Spelling(x)) && Reads(s, l.pos + |Spelling(x)|, rest)
    ensures Taken(t, s, l, x, |Spelling(x)|)
  {
    hide ScanL, StartsAt, CmdPops, CommaPops, FuncPops, InCommandCall;
    Apart(l.ctx);
    if x.kind.StringPart? {
      TextScan(t, s, l, x);
      Unturned(t, l, x, |x.text|);
    } else {
      TextMark(t, s, l, x);
    }
  }

  /** A token behind a blank. */
  lemma BlankFirst(t: Tables, s: string, l: Lx, x: Token, n: nat)
    requires Open(l.ctx) && l.before == [] && l.after == [] && l.pos + 1 + n <= |s| && s[l.pos] == ' '
    requires Given(t, s, l.(pos := l.pos + 1), x, n)
    ensures ScanL(t, s, l.(pos := l.pos + 1)).0.Got?
    ensures var y := ScanL(t, s, l.(pos := l.pos + 1)).0.token;
            Stands(y, x) && Lexed(t, s, l) == Lexed(t, s, Landed(t, l, x, y, 1 + n))
  {
    hide ScanL, Turn, Stands, Begins, Lexed;
    var m := l.(pos := l.pos + 1);
    BlankScan(t, s, l);
    Goes(t, s, l);
    assert Drained(Nothing, m) == m by { assert l.out + [] + [] + [] == l.out; }
    Lands(t, s, m, x, n);
  }

  /** The `}` that closes a command: its terminator comes out in front of it. */
  lemma ClosingLands(t: Tables, s: string, l: Lx, x: Token)
    requires Usual(t) && (l.ctx.mode.EMode? || (Raw(l.ctx) && !InCommandCall(l.ctx)))
    requires StartsAt(s, l.pos, "}") && l.ctx.literals == 0 && CmdPops(l.ctx) && l.before == [] && l.after == []
    requires x.kind.BraceRight?
    ensures Lexed(t, s, l) ==
              Lexed(t, s, Lx(l.pos + 1, Turn(t, l.ctx, x).0, [], [], l.out + [Token(End, ""), Token(BraceRight, "}")]))
  {
    hide ScanL, Lexed, CmdPops, InCommandCall, Usual, PopNext, StartsAt;
    CharsOf(s, l.pos, "}");
    ClosingScan(t, s, l);
    var end, brace := Token(End, ""), Token(BraceRight, "}");
    var none: seq<Token> := [];
    assert none + none == none && none + [end] == [end];
    assert CloseBraceL(l) == (Got(brace), Lx(l.pos + 1, Turn(t, l.ctx, x).0, [end], [], l.out));
    Goes(t, s, l);
    assert l.out + [end] + [brace] + none == l.out + [end, brace];
  }

  /** The spelling of what comes next begins with a blank unless it is raw text. */
  lemma SpellBegins(t: Tables, terse: bool, c: Context, ts: seq<Token>)
    requires !Raw(c)
    ensures var rest := Spell(t, terse, c, ts); rest == "" || rest[0] == ' '
  {
    hide Turn, LeftOut;
  }

  lemma SameLegible(t: Tables, c: Context, a: seq<Token>, b: seq<Token>, x: Token, rest: seq<Token>, more: string)
    requires SameKinds(a, b)
    ensures LegibleToken(t, c, a, x, rest) == LegibleToken(t, c, b, x, rest)
    ensures LegibleCommand(t, c, a, x, more) == LegibleCommand(t, c, b, x, more)
  {
    hide BehindPeriod, BehindOperator, PendingTernary, Operates, IsOperator, IsWord, Numeral, Spelling;
    SameQuestions(a, b);
  }

  /** What the next turn finds: the text here, and the tokens it spells. */
  ghost predicate Facing(t: Tables, s: string, l: Lx, terse: bool, done: seq<Token>, ts: seq<Token>) {
    && Usual(t) && l.before == [] && l.after == [] && SameKinds(l.out, done)
    && Legible(t, terse, l.ctx, done, ts) && Reads(s, l.pos, Spell(t, terse, l.ctx, ts))
  }

  /** How it leaves the lexer. */
  ghost predicate Turns(t: Tables, s: string, l: Lx, f: Turned, m: Lx, toks: seq<Token>, ts: seq<Token>) {
    && f.count <= |ts| && Lexed(t, s, l) == Lexed(t, s, m)
    && m == Lx(l.pos + |f.chars|, f.ctx, [], [], l.out + toks) && AllStand(toks, ts[..f.count])
  }

  lemma ClosingTurn(t: Tables, s: string, l: Lx, terse: bool, ts: seq<Token>) returns (m: Lx, toks: seq<Token>)
    requires Usual(t) && l.before == [] && l.after == [] && LeftOut(terse, l.ctx, ts)
    requires (l.ctx.mode.EMode? || l.ctx.mode.SMode?) && !InCommandCall(l.ctx)
    requires StartsAt(s, l.pos, First(t, terse, l.ctx, ts).chars)
    ensures Turns(t, s, l, First(t, terse, l.ctx, ts), m, toks, ts)
  {
    hide Usual, Lexed, Turn, CmdPops, InCommandCall, ScanL, Begins;
    var f := First(t, terse, l.ctx, ts);
    toks := [Token(End, ""), Token(BraceRight, "}")];
    m := Lx(l.pos + |f.chars|, f.ctx, [], [], l.out + toks);
    if Raw(l.ctx) {
      ClosingLands(t, s, l, ts[1]);
    } else {
      var l1 := l.(pos := l.pos + 1);
      CharsOf(s, l.pos, " }");
      CharsOf(s, l1.pos, "}");
      MarkFits(t, s, l1, Token(BraceRight, "}"));
      NotThere(s, l.pos, "}");
      BlankScan(t, s, l);
      Goes(t, s, l);
      assert Drained(Nothing, l1) == l1 by { assert l.out + [] + [] + [] == l.out; }
      ClosingLands(t, s, l1, ts[1]);
    }
  }

  lemma RawTurn(t: Tables, s: string, l: Lx, terse: bool, done: seq<Token>, ts: seq<Token>)
    returns (m: Lx, toks: seq<Token>)
    requires Facing(t, s, l, terse, done, ts) && ts != [] && Raw(l.ctx) && !LeftOut(terse, l.ctx, ts)
    ensures Turns(t, s, l, First(t, terse, l.ctx, ts), m, toks, ts)
  {
    hide Usual, Lexed, Turn, CmdPops, CommaPops, InCommandCall, ScanL, LegibleText, EndsText, SameKinds, StartsAt,
      Reads;
    var f := First(t, terse, l.ctx, ts);
    var x, rest := ts[0], Spell(t, terse, f.ctx, ts[f.count..]);
    ReadsOn(s, l.pos, f.chars, rest);
    RawTaken(t, s, l, x, rest);
    InText(s, l.pos, f.chars);
    Lands(t, s, l, x, |f.chars|);
    var y := ScanL(t, s, l).0.token;
    toks := [y] + Turn(t, l.ctx, x).1;
    m := Landed(t, l, x, y, |f.chars|);
    Standing(y, x, Turn(t, l.ctx, x).1, ts);
  }

  lemma InText(s: string, p: nat, x: string)
    requires StartsAt(s, p, x)
    ensures p + |x| <= |s|
  {
  }

  lemma Standing(y: Token, x: Token, queued: seq<Token>, ts: seq<Token>)
    requires Stands(y, x) && 1 + |queued| <= |ts| && ts[0] == x && ts[1..1 + |queued|] == queued
    ensures AllStand([y] + queued, ts[..1 + |queued|])
  {
    forall k | 0 <= k < 1 + |queued| ensures Stands(([y] + queued)[k], ts[..1 + |queued|][k]) {
      if k > 0 { assert queued[k - 1] == ts[1..1 + |queued|][k - 1]; }
    }
  }

  lemma InTurn(t: Tables, s: string, l: Lx, terse: bool, done: seq<Token>, ts: seq<Token>)
    returns (m: Lx, toks: seq<Token>)
    requires Facing(t, s, l, terse, done, ts) && ts != [] && Open(l.ctx) && ts[0].kind.OpIn?
    ensures Turns(t, s, l, First(t, terse, l.ctx, ts), m, toks, ts)
  {
    hide Usual, Facing, Legible, Lexed, ScanL, SameKinds, StartsAt, Reads, Spell;
    var f := First(t, terse, l.ctx, ts);
    Faced(t, s, l, terse, done, ts);
    Ready(t, s, l, terse, done, ts);
    ReadsOn(s, l.pos, " in ", Spell(t, terse, f.ctx, ts[f.count..]));
    InScan(t, s, l);
    InText(s, l.pos, " in ");
    toks := [Token(OpIn, " in ")];
    m := Lx(l.pos + 4, l.ctx, [], [], l.out + toks);
    Goes(t, s, l);
    assert l.out + [] + toks + [] == l.out + toks;
  }

  /** What Legible says of a token that is not raw. */
  lemma HereLegible(t: Tables, terse: bool, c: Context, done: seq<Token>, ts: seq<Token>)
    requires Legible(t, terse, c, done, ts) && ts != [] && !LeftOut(terse, c, ts) && !Raw(c)
    ensures var f, x := First(t, terse, c, ts), ts[0];
            && f.count <= |ts| && f.ctx == Turn(t, c, x).0 && f.count == 1 + |Turn(t, c, x).1|
            && ts[1..f.count] == Turn(t, c, x).1 && (c.mode.Default? <==> c.stack == [])
            && if x.kind.CommandName? then LegibleCommand(t, c, done, x, Spell(t, terse, f.ctx, ts[f.count..]))
               else LegibleToken(t, c, done, x, ts[1..])
  {
    hide Turn, LegibleToken, LegibleCommand, Spell;
  }

  /** The characters of such a token behind its blank. */
  lemma CharsHere(t: Tables, terse: bool, c: Context, ts: seq<Token>)
    requires ts != [] && !LeftOut(terse, c, ts) && !Raw(c) && !ts[0].kind.OpIn?
    requires ts[0].kind.CommandName? ==> ts[0].text in t.commands
    ensures var f, x := First(t, terse, c, ts), ts[0];
            && f.chars == " " + f.chars[1..]
            && f.chars[1..] == Spelling(x) + if x.kind.CommandName? && t.commands[x.text].needsSpace then " " else ""
  {
    hide Turn, Spelling;
  }

  lemma SpacedGiven(
    t: Tables, s: string, l: Lx, terse: bool, done: seq<Token>, ts: seq<Token>, chars: string, rest: string)
    requires Usual(t) && Legible(t, terse, l.ctx, done, ts) && SameKinds(l.out, done) && l.pos > 0
    requires ts != [] && Open(l.ctx) && !ts[0].kind.OpIn? && !LeftOut(terse, l.ctx, ts)
    requires var f := First(t, terse, l.ctx, ts);
             f.count <= |ts| && f.chars == " " + chars && rest == Spell(t, terse, f.ctx, ts[f.count..])
    requires StartsAt(s, l.pos, chars) && Reads(s, l.pos + |chars|, rest)
    ensures Given(t, s, l, ts[0], |chars|)
  {
    hide Usual, Legible, First, Turn, SameKinds, StartsAt, Reads, LegibleToken, LegibleCommand, Given, Boundary,
      Spelling, Spell, LeftOut;
    var f, x := First(t, terse, l.ctx, ts), ts[0];
    HereLegible(t, terse, l.ctx, done, ts);
    SameLegible(t, l.ctx, l.out, done, x, ts[1..], rest);
    if x.kind.CommandName? {
      CommandNamed(t, l.ctx, l.out, x, rest);
      CharsHere(t, terse, l.ctx, ts);
      CommandGiven(t, s, l, x, chars, rest);
    } else {
      CharsHere(t, terse, l.ctx, ts);
      assert chars == Spelling(x);
      if !Raw(f.ctx) { SpellBegins(t, terse, f.ctx, ts[f.count..]); }
      Bounded(s, l.pos + |chars|, rest);
      if x.kind.KwSwitch? {
        SwitchTurns(t, l.ctx, x);
        SwitchAhead(t, s, l, terse, l.out, ts, rest);
      }
      TokenGiven(t, s, l, x, ts[1..]);
    }
  }

  lemma SpacedTurn(t: Tables, s: string, l: Lx, terse: bool, done: seq<Token>, ts: seq<Token>)
    returns (m: Lx, toks: seq<Token>)
    requires Facing(t, s, l, terse, done, ts) && ts != [] && Open(l.ctx) && !ts[0].kind.OpIn?
    requires !LeftOut(terse, l.ctx, ts)
    ensures Turns(t, s, l, First(t, terse, l.ctx, ts), m, toks, ts)
  {
    hide Usual, Facing, Lexed, First, Turn, ScanL, SameKinds, StartsAt, Reads, LegibleToken, LegibleCommand, Given,
      Spelling, Spell, Legible, LeftOut;
    var f, x := First(t, terse, l.ctx, ts), ts[0];
    Faced(t, s, l, terse, done, ts);
    Ready(t, s, l, terse, done, ts);
    HereLegible(t, terse, l.ctx, done, ts);
    var rest := Spell(t, terse, f.ctx, ts[f.count..]);
    if x.kind.CommandName? { CommandNamed(t, l.ctx, done, x, rest); }
    CharsHere(t, terse, l.ctx, ts);
    var chars := f.chars[1..];
    assert f.chars + rest == " " + (chars + rest);
    ReadsOn(s, l.pos, " ", chars + rest);
    ReadsOn(s, l.pos + 1, chars, rest);
    InText(s, l.pos + 1, chars);
    CharsOf(s, l.pos, " ");
    var l1 := l.(pos := l.pos + 1);
    SpacedGiven(t, s, l1, terse, done, ts, chars, rest);
    BlankFirst(t, s, l, x, |chars|);
    var y := ScanL(t, s, l1).0.token;
    toks := [y] + Turn(t, l.ctx, x).1;
    m := Landed(t, l, x, y, 1 + |chars|);
    Standing(y, x, Turn(t, l.ctx, x).1, ts);
  }

  lemma CommandNamed(t: Tables, c: Context, done: seq<Token>, x: Token, rest: string)
    requires x.kind.CommandName? && LegibleCommand(t, c, done, x, rest)
    ensures x.text in t.commands && Spelling(x) == x.text
  {
  }

  lemma Bounded(s: string, q: nat, rest: string)
    requires Reads(s, q, rest)
    ensures rest == "" || rest[0] == ' ' ==> Boundary(s, q)
  {
    if rest != "" { assert s[q..][0] == s[q]; }
  }

  lemma SwitchTurns(t: Tables, c: Context, x: Token)
    requires x.kind.KwSwitch?
    ensures Turn(t, c, x) == (c, []) && |Spelling(x)| == 6
  {
  }

  lemma SwitchAhead(t: Tables, s: string, l: Lx, terse: bool, done: seq<Token>, ts: seq<Token>, rest: string)
    requires ts != [] && ts[0].kind.KwSwitch? && LegibleToken(t, l.ctx, done, ts[0], ts[1..]) && !Raw(l.ctx)
    requires rest == Spell(t, terse, l.ctx, ts[1..]) && Reads(s, l.pos + 6, rest)
    ensures StartsAt(s, l.pos + 6, " (")
  {
    var more := ts[1..];
    var f := First(t, terse, l.ctx, more);
    assert more[0].kind.ParenLeft? && f.chars == " (";
    ReadsOn(s, l.pos + 6, " (", if f.count <= |more| then Spell(t, terse, f.ctx, more[f.count..]) else "");
  }

  lemma Faced(t: Tables, s: string, l: Lx, terse: bool, done: seq<Token>, ts: seq<Token>)
    requires Facing(t, s, l, terse, done, ts) && ts != []
    ensures var f := First(t, terse, l.ctx, ts);
            && f.count <= |ts| && !InCommandCall(l.ctx) && (Open(l.ctx) || l.ctx.mode.SMode?)
            && Reads(s, l.pos, f.chars + Spell(t, terse, f.ctx, ts[f.count..]))
            && Legible(t, terse, f.ctx, done + ts[..f.count], ts[f.count..])
  {
    hide Usual, First, LegibleToken, LegibleCommand, CmdPops, InCommandCall, LegibleText, EndsText, LeftOut, Turn;
  }

  lemma OneTurn(t: Tables, s: string, l: Lx, terse: bool, done: seq<Token>, ts: seq<Token>)
    returns (m: Lx, toks: seq<Token>)
    requires Facing(t, s, l, terse, done, ts) && ts != []
    ensures Turns(t, s, l, First(t, terse, l.ctx, ts), m, toks, ts)
  {
    hide Facing, Usual, Turns, First, InCommandCall, LeftOut, Reads, StartsAt;
    var f := First(t, terse, l.ctx, ts);
    Faced(t, s, l, terse, done, ts);
    ReadsOn(s, l.pos, f.chars, Spell(t, terse, f.ctx, ts[f.count..]));
    Ready(t, s, l, terse, done, ts);
    if LeftOut(terse, l.ctx, ts) {
      Left(terse, l.ctx, ts);
      m, toks := ClosingTurn(t, s, l, terse, ts);
    } else if Raw(l.ctx) {
      m, toks := RawTurn(t, s, l, terse, done, ts);
    } else if ts[0].kind.OpIn? {
      m, toks := InTurn(t, s, l, terse, done, ts);
    } else {
      m, toks := SpacedTurn(t, s, l, terse, done, ts);
    }
  }

  lemma Ready(t: Tables, s: string, l: Lx, terse: bool, done: seq<Token>, ts: seq<Token>)
    requires Facing(t, s, l, terse, done, ts)
    ensures Usual(t) && l.before == [] && l.after == [] && SameKinds(l.out, done) && Legible(t, terse, l.ctx, done, ts)
  {
    hide Usual, Legible, Spell, SameKinds;
  }

  lemma Left(terse: bool, c: Context, ts: seq<Token>)
    requires LeftOut(terse, c, ts)
    ensures !c.mode.Default?
  {
  }

  lemma FacesNext(t: Tables, s: string, l: Lx, terse: bool, done: seq<Token>, ts: seq<Token>, m: Lx, toks: seq<Token>)
    requires Facing(t, s, l, terse, done, ts) && ts != []
    requires Turns(t, s, l, First(t, terse, l.ctx, ts), m, toks, ts)
    ensures var f := First(t, terse, l.ctx, ts);
            f.count <= |ts| && Facing(t, s, m, terse, done + ts[..f.count], ts[f.count..])
  {
    hide Usual, Lexed, First, Legible, Spell, StartsAt, Reads;
    var f := First(t, terse, l.ctx, ts);
    Faced(t, s, l, terse, done, ts);
    ReadsOn(s, l.pos, f.chars, Spell(t, terse, f.ctx, ts[f.count..]));
    SameKindsOn(l.out, done, toks, ts[..f.count]);
  }

  lemma SameKindsOn(a: seq<Token>, b: seq<Token>, x: seq<Token>, y: seq<Token>)
    requires SameKinds(a, b) && AllStand(x, y)
    ensures SameKinds(a + x, b + y)
  {
    forall k | 0 <= k < |a + x| ensures (a + x)[k].kind == (b + y)[k].kind {
      if k >= |a| { assert Stands(x[k - |a|], y[k - |a|]); }
    }
  }

  /** From any place in the spelling: the rest of it comes out as the tokens it spells, and the
      end of file behind them. */
  lemma {:induction false} RestLexes(t: Tables, s: string, l: Lx, terse: bool, done: seq<Token>, ts: seq<Token>)
    returns (toks: seq<Token>)
    requires Facing(t, s, l, terse, done, ts)
    ensures AllStand(toks, ts) && Lexed(t, s, l) == Some(l.out + toks + [Token(Eof, "")])
    decreases |ts|
  {
    hide Facing, Turns, Lexed, AllStand;
    if ts == [] {
      toks := [];
      AtTheEnd(t, s, l, terse, done);
    } else {
      var f := First(t, terse, l.ctx, ts);
      var m, here := OneTurn(t, s, l, terse, done, ts);
      Turned(t, s, l, f, m, here, ts);
      FacesNext(t, s, l, terse, done, ts, m, here);
      var later := RestLexes(t, s, m, terse, done + ts[..f.count], ts[f.count..]);
      toks := here + later;
      StandTogether(here, later, ts, f.count);
      assert l.out + here + later + [Token(Eof, "")] == l.out + toks + [Token(Eof, "")];
    }
  }

  lemma Turned(t: Tables, s: string, l: Lx, f: Turned, m: Lx, toks: seq<Token>, ts: seq<Token>)
    requires Turns(t, s, l, f, m, toks, ts)
    ensures f.count <= |ts| && Lexed(t, s, l) == Lexed(t, s, m) && m.ctx == f.ctx && m.out == l.out + toks
    ensures AllStand(toks, ts[..f.count])
  {
    hide Lexed, AllStand;
  }

  lemma StandTogether(a: seq<Token>, b: seq<Token>, ts: seq<Token>, n: nat)
    requires n <= |ts| && AllStand(a, ts[..n]) && AllStand(b, ts[n..])
    ensures AllStand(a + b, ts)
  {
    forall k | 0 <= k < |ts| ensures Stands((a + b)[k], ts[k]) {
      if k >= n { assert Stands(b[k - n], ts[n..][k - n]); }
    }
  }

  lemma AtTheEnd(t: Tables, s: string, l: Lx, terse: bool, done: seq<Token>)
    requires Facing(t, s, l, terse, done, [])
    ensures Lexed(t, s, l) == Some(l.out + [] + [Token(Eof, "")]) && AllStand([], [])
  {
    hide Usual;
    assert s[l.pos..] == "";
    assert l.out + [] == l.out;
  }

  /** Lexing undoes spelling: a legible token list, spelled, comes back as those tokens in that
      order and the end of file. */
  lemma LexingUndoesSpelling(t: Tables, terse: bool, ts: seq<Token>) returns (toks: seq<Token>)
    requires Usual(t) && Legible(t, terse, Start(), [], ts)
    ensures AllStand(toks, ts)
    ensures Lexed(t, Spell(t, terse, Start(), ts), Lx(0, Start(), [], [], [])) == Some(toks + [Token(Eof, "")])
  {
    hide Usual, Legible, Spell, Lexed, AllStand;
    var s := Spell(t, terse, Start(), ts);
    var l := Lx(0, Start(), [], [], []);
    assert s[0..] == s;
    toks := RestLexes(t, s, l, terse, [], ts);
    assert l.out + toks == toks;
  }
}

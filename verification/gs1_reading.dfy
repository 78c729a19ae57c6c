/** The lexer reads a plain spelling back: the tokens that come out are the ones that were
    spelled, in their order. */
module Gs1Reading {
  import opened Gs1Syntax
  import opened Gs1Modes
  import opened Gs1Scan
  import opened Gs1Printer
  import opened Gs1Spelling

  // ------------------------------------------------------------- patterns on the text

  /** The text ends here, or a blank follows. */
  predicate Boundary(s: string, q: nat) { q >= |s| || s[q] == ' ' }

  lemma {:induction false} WordRead(s: string, p: nat, w: string)
    requires StartsAt(s, p, w) && (p + |w| >= |s| || !WordChar(s[p + |w|]))
    requires forall k :: 0 <= k < |w| ==> WordChar(w[k])
    ensures WordRun(s, p) == |w|
    decreases |w|
  {
    if w != "" {
      assert s[p] == s[p..p + |w|][0];
      assert s[p + 1..p + 1 + |w[1..]|] == s[p..p + |w|][1..];
      WordRead(s, p + 1, w[1..]);
    }
  }

  lemma {:induction false} DigitsRead(s: string, p: nat, n: string, k: nat)
    requires StartsAt(s, p, n) && Boundary(s, p + |n|) && k <= |n|
    ensures DigitRun(s, p + k) == DigitRun(n, k) && k + DigitRun(n, k) <= |n|
    decreases |n| - k
  {
    if k < |n| {
      assert s[p + k] == s[p..p + |n|][k];
      DigitsRead(s, p, n, k + 1);
    }
  }

  lemma {:induction false} HexRead(s: string, p: nat, n: string, k: nat)
    requires StartsAt(s, p, n) && Boundary(s, p + |n|) && k <= |n|
    ensures HexRun(s, p + k) == HexRun(n, k)
    decreases |n| - k
  {
    if k < |n| {
      assert s[p + k] == s[p..p + |n|][k];
      HexRead(s, p, n, k + 1);
    }
  }

  lemma CharRead(s: string, p: nat, n: string, k: nat)
    requires StartsAt(s, p, n) && Boundary(s, p + |n|) && k <= |n|
    ensures if k < |n| then p + k < |s| && s[p + k] == n[k] else p + k >= |s| || s[p + k] == ' '
  {
    if k < |n| { assert s[p + k] == s[p..p + |n|][k]; }
  }

  lemma FractionRead(s: string, p: nat, n: string, k: nat)
    requires StartsAt(s, p, n) && Boundary(s, p + |n|) && k <= |n|
    ensures FractionRun(s, p + k) == FractionRun(n, k)
  {
    CharRead(s, p, n, k);
    if k < |n| { DigitsRead(s, p, n, k + 1); }
  }

  lemma NumeralRead(s: string, p: nat, n: string)
    requires StartsAt(s, p, n) && Boundary(s, p + |n|) && n != ""
    ensures NumeralRun(s, p) == NumeralRun(n, 0)
  {
    hide DigitRun, HexRun, FractionRun;
    CharRead(s, p, n, 0);
    CharRead(s, p, n, 1);
    DigitsRead(s, p, n, 0);
    FractionRead(s, p, n, 0);
    FractionRead(s, p, n, DigitRun(n, 0));
    if |n| >= 2 { HexRead(s, p, n, 2); }
  }

  lemma {:induction false} OperatorRead(t: Tables, ops: seq<Operator>, s: string, p: nat, x: Token, k: nat)
    requires StartsAt(s, p, x.text) && Boundary(s, p + |x.text|) && k < |ops| && ops[k] == Operator(x.text, x)
    requires forall j :: 0 <= j < k ==> ' ' !in ops[j].literal && !(ops[j].literal <= x.text)
    ensures FirstOperator(ops, s, p) == Some(ops[k])
    decreases k
  {
    if k > 0 {
      NoMatch(s, p, x.text, ops[0].literal);
      assert forall j :: 0 <= j < k - 1 ==> ops[1..][j] == ops[j + 1];
      OperatorRead(t, ops[1..], s, p, x, k - 1);
    }
  }

  lemma NoMatch(s: string, p: nat, w: string, lit: string)
    requires StartsAt(s, p, w) && Boundary(s, p + |w|) && ' ' !in lit && !(lit <= w)
    ensures !StartsAt(s, p, lit)
  {
    CharsOf(s, p, w);
    CharsOf(s, p, lit);
    if |lit| <= |w| {
      var pre := w[..|lit|];
      assert lit != pre && !(forall k :: 0 <= k < |lit| ==> lit[k] == pre[k]);
    } else {
      assert lit[|w|] in lit;
    }
  }

  lemma NotThat(lit: string, c: char)
    requires lit != "" && !(|lit| == 1 && lit[0] == c)
    ensures !(lit <= [c])
  {
  }

  lemma {:induction false} NoOperator(ops: seq<Operator>, s: string, p: nat)
    requires p < |s| && s[p] in PUNCT && Boundary(s, p + 1)
    requires forall k :: 0 <= k < |ops| ==> UsualOperator(ops[k])
    ensures FirstOperator(ops, s, p) == None
  {
    if ops != [] {
      assert UsualOperator(ops[0]);
      var lit := ops[0].literal;
      assert [s[p]] == s[p..p + 1];
      NotThat(lit, s[p]);
      NoMatch(s, p, [s[p]], lit);
      assert forall j :: 0 <= j < |ops[1..]| ==> ops[1..][j] == ops[j + 1];
      NoOperator(ops[1..], s, p);
    }
  }

  // ------------------------------------------------------------- one scan

  predicate Open(c: Context) { c.mode.Default? || c.mode.EMode? }

  /** A character that begins a token where it stands. */
  predicate Begins(s: string, p: nat) {
    p < |s| && !Space(s[p]) && !StartsAt(s, p, "//") && !StartsAt(s, p, "/*")
  }

  lemma SkippedHere(s: string, p: nat)
    requires Begins(s, p)
    ensures Skipped(s, p) == p && !StartsAt(s, p, " in ")
  {
    CharsOf(s, p, " in ");
  }

  /** The blank in front of a token is a scan of its own. */
  lemma BlankScan(t: Tables, s: string, l: Lx)
    requires l.pos < |s| && s[l.pos] == ' ' && Begins(s, l.pos + 1) && Open(l.ctx)
    requires !StartsAt(s, l.pos, " in ")
    ensures ScanL(t, s, l) == (Nothing, l.(pos := l.pos + 1))
  {
    hide DefaultTokenL, ExprTokenL, StartsAt;
    SkippedHere(s, l.pos + 1);
    assert Skipped(s, l.pos) == Skipped(s, l.pos + 1);
  }

  lemma InScan(t: Tables, s: string, l: Lx)
    requires StartsAt(s, l.pos, " in ") && Open(l.ctx)
    ensures ScanL(t, s, l) == (Got(Token(OpIn, " in ")), l.(pos := l.pos + 4))
  {
    hide DefaultTokenL, ExprTokenL;
  }

  lemma TokenScan(t: Tables, s: string, l: Lx)
    requires Begins(s, l.pos) && Open(l.ctx)
    ensures ScanL(t, s, l) ==
              if l.ctx.mode.Default? then DefaultTokenL(t, s, l) else ExprTokenL(t, s, l, true, false)
  {
    hide DefaultTokenL, ExprTokenL, Skipped, StartsAt;
    SkippedHere(s, l.pos);
  }

  /** A character that none of the modes treats on its own. */
  predicate Ordinary(c: char) {
    c !in {'#', ':', ';', '{', '}', '(', ')', ',', '[', ']'}
  }

  lemma CommonScan(t: Tables, s: string, l: Lx)
    requires Begins(s, l.pos) && Open(l.ctx) && Ordinary(s[l.pos])
    ensures ScanL(t, s, l) == CommonL(t, s, l, l.ctx.mode.Default?)
  {
    hide CommonL, HashL, PendingTernary, Begins;
    TokenScan(t, s, l);
  }

  lemma WordFits(t: Tables, s: string, l: Lx, w: string)
    requires Usual(t) && IsWord(w) && StartsAt(s, l.pos, w)
    requires l.pos + |w| >= |s| || !WordChar(s[l.pos + |w|])
    ensures t.word(s, l.pos) == |w| && Cut(s, l.pos, |w|) == w
    ensures Begins(s, l.pos) && Ordinary(s[l.pos]) && (t.alpha(s[l.pos]) || s[l.pos] == '_')
  {
    hide WordRun, NumeralRun, Sound, UsualOperator;
    WordRead(s, l.pos, w);
    assert s[l.pos] == s[l.pos..l.pos + |w|][0];
    CharsOf(s, l.pos, "//");
    CharsOf(s, l.pos, "/*");
  }

  lemma NameScan(t: Tables, s: string, l: Lx, w: string)
    requires Usual(t) && Open(l.ctx) && StartsAt(s, l.pos, w) && Boundary(s, l.pos + |w|)
    requires LegibleName(t, l.ctx, l.out, w)
    ensures ScanL(t, s, l) == (Got(Token(Identifier, w)), l.(pos := l.pos + |w|))
  {
    hide Usual, Begins, Ordinary, OpensAfter, FirstOperator, Quoted, StartsAt, IsOperator, PushCommandL;
    WordFits(t, s, l, w);
    CommonScan(t, s, l);
  }

  lemma TruthScan(t: Tables, s: string, l: Lx, w: string)
    requires Usual(t) && Open(l.ctx) && StartsAt(s, l.pos, w) && Boundary(s, l.pos + |w|)
    requires !Numeral(w) && LegibleLiteral(t, l.ctx, l.out, w)
    ensures ScanL(t, s, l) == (Got(Token(Literal, w)), l.(pos := l.pos + |w|))
  {
    hide Usual, Begins, Ordinary, OpensAfter, FirstOperator, Quoted, StartsAt, IsOperator, PushCommandL, Numeral;
    WordFits(t, s, l, w);
    CommonScan(t, s, l);
  }

  lemma NumeralFits(t: Tables, s: string, l: Lx, n: string)
    requires Usual(t) && Numeral(n) && StartsAt(s, l.pos, n) && Boundary(s, l.pos + |n|)
    ensures t.numeral(s, l.pos) == |n| && Cut(s, l.pos, |n|) == n
    ensures Begins(s, l.pos) && Ordinary(s[l.pos])
    ensures !t.alpha(s[l.pos]) && s[l.pos] != '_' && t.digit(s[l.pos])
  {
    hide WordRun, NumeralRun, Sound, UsualOperator;
    NumeralRead(s, l.pos, n);
    assert s[l.pos] == s[l.pos..l.pos + |n|][0];
    CharsOf(s, l.pos, "//");
    CharsOf(s, l.pos, "/*");
  }

  lemma NumeralScan(t: Tables, s: string, l: Lx, n: string)
    requires Usual(t) && Open(l.ctx) && StartsAt(s, l.pos, n) && Boundary(s, l.pos + |n|) && Numeral(n)
    ensures ScanL(t, s, l) == (Got(Token(Literal, n)), l.(pos := l.pos + |n|))
  {
    hide Usual, Begins, Ordinary, FirstOperator, Quoted, StartsAt, Numeral, DefaultWordL, ExprWordL;
    assert n != "" by { NotEmpty(n); }
    NumeralFits(t, s, l, n);
    CommonScan(t, s, l);
  }

  lemma NotEmpty(n: string)
    requires Numeral(n)
    ensures n != ""
  {
  }

  lemma KeywordScan(t: Tables, s: string, l: Lx, x: Token, rest: seq<Token>)
    requires Usual(t) && Keyword(x.kind) && LegibleKeyword(t, l.ctx, l.out, x, rest)
    requires var w := Spelling(x);
             StartsAt(s, l.pos, w) && Boundary(s, l.pos + |w|)
             && (w == "switch" ==> StartsAt(s, l.pos + |w|, " ("))
    ensures ScanL(t, s, l) == (Got(AsSpelled(x)), l.(pos := l.pos + |Spelling(x)|))
  {
    hide Usual, Begins, Ordinary, FirstOperator, Quoted, StartsAt, IsOperator, PushCommandL, Spelling, OpensAfter;
    var w := Spelling(x);
    WordFits(t, s, l, w);
    CommonScan(t, s, l);
    if w == "switch" { ParenAhead(s, l.pos + |w|); }
  }

  lemma ParenAhead(s: string, q: nat)
    requires StartsAt(s, q, " (")
    ensures OpensAfter(s, q)
  {
    assert s[q] == s[q..q + 2][0] && s[q + 1] == s[q..q + 2][1];
    assert OpensAfter(s, q + 1);
  }

  lemma NoBlank(op: Operator)
    requires UsualOperator(op)
    ensures ' ' !in op.literal
  {
  }

  lemma OperatorFits(t: Tables, s: string, l: Lx, x: Token)
    requires Usual(t) && Operates(t, x) && StartsAt(s, l.pos, x.text) && Boundary(s, l.pos + |x.text|)
    ensures FirstOperator(t.operators, s, l.pos) == Some(Operator(x.text, x))
    ensures Begins(s, l.pos) && Ordinary(s[l.pos])
    ensures !t.alpha(s[l.pos]) && s[l.pos] !in {'_', '.', '"'} && !t.digit(s[l.pos])
  {
    hide WordRun, NumeralRun, Sound, FirstOperator, UsualOperator, StartsAt;
    var k :| 0 <= k < |t.operators| && t.operators[k] == Operator(x.text, x)
             && forall j :: 0 <= j < k ==> !(t.operators[j].literal <= x.text);
    forall j | 0 <= j < k ensures ' ' !in t.operators[j].literal { NoBlank(t.operators[j]); }
    OperatorRead(t, t.operators, s, l.pos, x, k);
    CharsOf(s, l.pos, x.text);
    assert ' ' !in "//" && ' ' !in "/*";
    NoComment(s, l.pos, x.text, "//");
    NoComment(s, l.pos, x.text, "/*");
  }

  lemma NoComment(s: string, p: nat, w: string, mark: string)
    requires StartsAt(s, p, w) && Boundary(s, p + |w|) && w != "" && |mark| == 2 && ' ' !in mark
    requires !StartsAt(w, 0, mark)
    ensures !StartsAt(s, p, mark)
  {
    CharsOf(s, p, w);
    CharsOf(s, p, mark);
    CharsOf(w, 0, mark);
    assert mark[1] in mark;
  }

  lemma OperatorScan(t: Tables, s: string, l: Lx, x: Token)
    requires Usual(t) && Open(l.ctx) && Operates(t, x)
    requires StartsAt(s, l.pos, x.text) && Boundary(s, l.pos + |x.text|)
    ensures ScanL(t, s, l) == (Got(x), l.(pos := l.pos + |x.text|))
  {
    hide Usual, Begins, Ordinary, FirstOperator, Quoted, StartsAt, Operates;
    OperatorFits(t, s, l, x);
    CommonScan(t, s, l);
  }

  // ------------------------------------------------------------- punctuation

  predicate Mark(k: Kind) {
    k.End? || k.BraceLeft? || k.BraceRight? || k.ParenLeft? || k.ParenRight? || k.BracketLeft? || k.BracketRight?
    || k.Comma? || k.Pipe? || k.Question? || k.Period? || k.Colon?
  }

  /** Behind a token, with what it turned and queued. */
  function Behind(t: Tables, l: Lx, x: Token): Lx {
    var (ctx, queued) := Turn(t, l.ctx, x);
    l.(pos := l.pos + 1, ctx := ctx, after := l.after + queued)
  }

  lemma MarkChar(x: Token)
    requires Mark(x.kind)
    ensures |Spelling(x)| == 1
    ensures var c := Spelling(x)[0];
            && c <= '~' && !LetterChar(c) && !DigitChar(c) && !Space(c) && c !in {'_', '"', '#', '/'}
            && (c == ';' <==> x.kind.End?) && (c == '{' <==> x.kind.BraceLeft?) && (c == '}' <==> x.kind.BraceRight?)
            && (c == '(' <==> x.kind.ParenLeft?) && (c == ')' <==> x.kind.ParenRight?)
            && (c == '[' <==> x.kind.BracketLeft?) && (c == ']' <==> x.kind.BracketRight?)
            && (c == ',' <==> x.kind.Comma?) && (c == ':' <==> x.kind.Colon?) && (c == '.' <==> x.kind.Period?)
  {
  }

  lemma MarkKind(x: Token)
    requires Mark(x.kind) && !x.kind.End?
    ensures |Spelling(x)| == 1 && Spelling(x)[0] in PUNCT && PUNCT[Spelling(x)[0]] == x.kind
  {
    match x.kind
    case BraceLeft => assert PUNCT['{'] == BraceLeft;
    case BraceRight => assert PUNCT['}'] == BraceRight;
    case ParenLeft => assert PUNCT['('] == ParenLeft;
    case ParenRight => assert PUNCT[')'] == ParenRight;
    case BracketLeft => assert PUNCT['['] == BracketLeft;
    case BracketRight => assert PUNCT[']'] == BracketRight;
    case Comma => assert PUNCT[','] == Comma;
    case Pipe => assert PUNCT['|'] == Pipe;
    case Question => assert PUNCT['?'] == Question;
    case Period => assert PUNCT['.'] == Period;
    case Colon => assert PUNCT[':'] == Colon;
  }

  lemma MarkFits(t: Tables, s: string, l: Lx, x: Token)
    requires Usual(t) && Mark(x.kind) && StartsAt(s, l.pos, Spelling(x))
    ensures |Spelling(x)| == 1 && Begins(s, l.pos) && s[l.pos] == Spelling(x)[0] && Cut(s, l.pos, 1) == Spelling(x)
    ensures !t.alpha(s[l.pos]) && !t.digit(s[l.pos])
  {
    hide WordRun, NumeralRun, Sound, UsualOperator, Spelling, Mark;
    MarkChar(x);
    CharsOf(s, l.pos, "//");
    CharsOf(s, l.pos, "/*");
    CharsOf(s, l.pos, Spelling(x));
  }

  lemma UsualPunct(t: Tables)
    requires Usual(t)
    ensures t.punct == PUNCT && (!t.digit(' ')) && forall k :: 0 <= k < |t.operators| ==> UsualOperator(t.operators[k])
  {
    hide WordRun, NumeralRun, Sound, UsualOperator;
  }

  /** Punctuation that is found in the table. */
  lemma PunctScan(t: Tables, s: string, l: Lx, x: Token, statement: bool)
    requires Usual(t) && Mark(x.kind) && !x.kind.End? && StartsAt(s, l.pos, Spelling(x)) && Boundary(s, l.pos + 1)
    requires l.pos < |s| && (x.kind.BracketLeft? ==> statement)
    ensures CommonL(t, s, l, statement) ==
              (Got(AsSpelled(x)), (if x.kind.BracketLeft? then PushArrayL(l) else l).(pos := l.pos + 1))
  {
    hide Begins, Usual, FirstOperator, Quoted, StartsAt, DefaultWordL, ExprWordL, PopNext, Emitted, Spelling,
      UsualOperator, Mark;
    MarkFits(t, s, l, x);
    MarkChar(x);
    MarkKind(x);
    UsualPunct(t);
    NoOperator(t.operators, s, l.pos);
  }

  lemma DefaultMark(t: Tables, s: string, l: Lx, x: Token)
    requires Usual(t) && l.ctx.mode.Default? && l.ctx.stack == [] && Mark(x.kind) && StartsAt(s, l.pos, Spelling(x))
    requires Boundary(s, l.pos + 1) && (x.kind.Colon? ==> PendingTernary(l.out))
    ensures ScanL(t, s, l) == (Got(AsSpelled(x)), Behind(t, l, x))
  {
    hide Begins, Usual, CommonL, StartsAt, PopNext, Emitted, Pushing, PendingTernary, Spelling, Boundary;
    MarkFits(t, s, l, x);
    MarkChar(x);
    TokenScan(t, s, l);
    TokenFits(s, l.pos);
    if x.kind !in {End, BraceLeft, BraceRight} { PunctScan(t, s, l, x, true); }
    assert l.after + [] == l.after;
  }

  lemma TokenFits(s: string, p: nat)
    requires Begins(s, p)
    ensures p < |s|
  {
  }

  lemma ExprMark(t: Tables, s: string, l: Lx, x: Token)
    requires Usual(t) && l.ctx.mode.EMode? && Mark(x.kind) && StartsAt(s, l.pos, Spelling(x))
    requires x.kind in {Pipe, Question, Period, Colon} ==> Boundary(s, l.pos + 1)
    requires x.kind.Colon? ==> PendingTernary(l.out)
    requires x.kind.End? ==> CmdPops(l.ctx)
    requires x.kind.BraceRight? ==> l.ctx.literals > 0
    requires x.kind.ParenRight? ==> !FuncPops(l.ctx)
    ensures ScanL(t, s, l) == (Got(AsSpelled(x)), Behind(t, l, x))
  {
    hide Begins, Usual, CommonL, StartsAt, PopNext, Emitted, Pushing, PendingTernary, CmdPops, FuncPops, ArrayPops,
      CommaPops, Spelling, Boundary;
    MarkFits(t, s, l, x);
    MarkChar(x);
    TokenScan(t, s, l);
    TokenFits(s, l.pos);
    if x.kind in {Pipe, Question, Period, Colon} { PunctScan(t, s, l, x, false); }
    assert l.after + [] == l.after;
  }

  /** The bare colon of a flag's name, or of a label. */
  lemma ColonScan(t: Tables, s: string, l: Lx)
    requires Usual(t) && Open(l.ctx) && StartsAt(s, l.pos, ":") && Boundary(s, l.pos + 1) && !PendingTernary(l.out)
    ensures ScanL(t, s, l) == (Got(Token(Identifier, ":")), l.(pos := l.pos + 1))
  {
    hide Usual, CommonL, PendingTernary;
    var x := Token(Colon, ":");
    MarkFits(t, s, l, x);
    TokenScan(t, s, l);
    CharsOf(s, l.pos, ":=");
  }

  /** `}` where a command's argument is open. */
  lemma ClosingScan(t: Tables, s: string, l: Lx)
    requires Usual(t) && (l.ctx.mode.EMode? || (l.ctx.mode.SMode? && !InCommandCall(l.ctx)))
    requires StartsAt(s, l.pos, "}") && l.ctx.literals == 0 && CmdPops(l.ctx)
    ensures ScanL(t, s, l) == CloseBraceL(l)
  {
    hide Usual, CommonL, CloseBraceL, PendingTernary, CmdPops, StartsAt, Begins;
    MarkFits(t, s, l, Token(BraceRight, "}"));
    TokenFits(s, l.pos);
    if l.ctx.mode.EMode? {
      TokenScan(t, s, l);
      assert ExprBraceL(s, l) == CloseBraceL(l);
      ClosesByBrace(l);
    }
  }

  lemma ClosesByBrace(l: Lx)
    ensures CloseBraceL(l).0.Got?
  {
    hide NextL;
  }

  lemma CommandScan(t: Tables, s: string, l: Lx, x: Token, rest: string)
    requires Usual(t) && x.kind.CommandName? && LegibleCommand(t, l.ctx, l.out, x, rest)
    requires StartsAt(s, l.pos, x.text + if t.commands[x.text].needsSpace then " " else "")
    requires !t.commands[x.text].needsSpace ==> s[l.pos + |x.text|..] == rest
    ensures var n := |x.text| + if t.commands[x.text].needsSpace then 1 else 0;
            var (ctx, queued) := Turn(t, l.ctx, x);
            ScanL(t, s, l) == (Got(x), l.(pos := l.pos + n, ctx := ctx, after := l.after + queued))
  {
    hide Usual, Begins, Ordinary, OpensAfter, FirstOperator, Quoted, StartsAt, IsOperator, PopNext, Emitted, Pushing;
    var w := x.text;
    CharsOf(s, l.pos, w + if t.commands[w].needsSpace then " " else "");
    CharsOf(s, l.pos, w);
    assert forall k :: 0 <= k < |w| ==> (w + if t.commands[w].needsSpace then " " else "")[k] == w[k];
    if t.commands[w].needsSpace { assert (w + " ")[|w|] == ' '; }
    WordFits(t, s, l, w);
    CommonScan(t, s, l);
  }

  // ------------------------------------------------------------- text arguments

  lemma {:induction false} RunRead(s: string, c: Context, p: nat, x: string, parens: int)
    requires StartsAt(s, p, x) && !FuncPops(c) && !InCommandCall(c) && (x == "" || LegibleText(c, x))
    requires CmdPops(c) && EndsText(c, s[p + |x|..])
    ensures RunEnd(s, c, false, p, parens) == (p + |x|, parens)
    decreases |x|
  {
    hide FuncPops, InCommandCall, CmdPops, CommaPops;
    if x == "" {
      if p < |s| { assert s[p..][0] == s[p]; }
    } else {
      assert s[p] == s[p..p + |x|][0];
      assert s[p + 1..p + 1 + |x[1..]|] == s[p..p + |x|][1..];
      assert forall k :: 0 <= k < |x[1..]| ==> x[1..][k] == x[k + 1];
      RunRead(s, c, p + 1, x[1..], parens);
    }
  }

  /** Where plain text begins in a text argument. */
  lemma RunScan(t: Tables, s: string, l: Lx)
    requires l.ctx.mode.SMode? && !InCommandCall(l.ctx) && !FuncPops(l.ctx) && CmdPops(l.ctx)
    requires l.pos < |s| && s[l.pos] !in {'#', '}', ';'} && !(s[l.pos] == ',' && CommaPops(l.ctx))
    ensures ScanL(t, s, l) == RunL(s, l, false)
  {
    hide FuncPops, InCommandCall, CmdPops, CommaPops, RunL, StartsAt;
    CharsOf(s, l.pos, "##");
    assert "##"[0] == '#';
  }

  lemma TextScan(t: Tables, s: string, l: Lx, x: Token)
    requires l.ctx.mode.SMode? && !InCommandCall(l.ctx) && !FuncPops(l.ctx) && CmdPops(l.ctx)
    requires x.kind.StringPart? && LegibleText(l.ctx, x.text) && StartsAt(s, l.pos, x.text)
    requires EndsText(l.ctx, s[l.pos + |x.text|..])
    ensures ScanL(t, s, l) == (Got(x), l.(pos := l.pos + |x.text|))
  {
    hide FuncPops, InCommandCall, CmdPops, CommaPops, RunEnd, ScanL, EndsText;
    RunRead(s, l.ctx, l.pos, x.text, l.ctx.parens);
    CharsOf(s, l.pos, x.text);
    assert s[l.pos + 0] == x.text[0];
    RunScan(t, s, l);
    assert l.ctx.(parens := l.ctx.parens) == l.ctx;
  }

  lemma TextMark(t: Tables, s: string, l: Lx, x: Token)
    requires l.ctx.mode.SMode? && !InCommandCall(l.ctx) && StartsAt(s, l.pos, Spelling(x))
    requires (x.kind.End? && CmdPops(l.ctx)) || (x.kind.Comma? && CommaPops(l.ctx) && l.ctx.literals == 0)
    ensures ScanL(t, s, l) == (Got(AsSpelled(x)), Behind(t, l, x))
  {
    hide FuncPops, InCommandCall, CmdPops, CommaPops, PopNext, Emitted;
    CharsOf(s, l.pos, Spelling(x));
  }
}

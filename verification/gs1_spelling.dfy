/** A plain spelling of GS1 tokens: one space in front of each, text arguments as they are, and
    the terminator of a command left out, if that is wanted, where a closing brace follows. */
module Gs1Spelling {
  import opened Gs1Syntax
  import opened Gs1Modes
  import opened Gs1Scan
  import opened Gs1Printer

  // ------------------------------------------------------------- characters

  predicate DigitChar(c: char) { '0' <= c <= '9' }

  predicate LetterChar(c: char) { 'a' <= c <= 'z' || 'A' <= c <= 'Z' }

  predicate WordChar(c: char) { LetterChar(c) || DigitChar(c) || c == '_' }

  predicate HexChar(c: char) { DigitChar(c) || 'a' <= c <= 'f' || 'A' <= c <= 'F' }

  /** `_IDENT`: how many characters of a word stand at `p`. */
  function WordRun(s: string, p: nat): nat
    decreases |s| - p
  {
    if p < |s| && WordChar(s[p]) then 1 + WordRun(s, p + 1) else 0
  }

  function DigitRun(s: string, p: nat): nat
    decreases |s| - p
  {
    if p < |s| && DigitChar(s[p]) then 1 + DigitRun(s, p + 1) else 0
  }

  function HexRun(s: string, p: nat): nat
    decreases |s| - p
  {
    if p < |s| && HexChar(s[p]) then 1 + HexRun(s, p + 1) else 0
  }

  /** A point and digits. */
  function FractionRun(s: string, p: nat): nat {
    if p < |s| && s[p] == '.' && DigitRun(s, p + 1) > 0 then 1 + DigitRun(s, p + 1) else 0
  }

  /** `_REAL` */
  function NumeralRun(s: string, p: nat): nat {
    if p + 1 < |s| && s[p] == '0' && s[p + 1] == 'x' && HexRun(s, p + 2) > 0 then 2 + HexRun(s, p + 2)
    else if DigitRun(s, p) > 0 then DigitRun(s, p) + FractionRun(s, p + DigitRun(s, p))
    else FractionRun(s, p)
  }

  const PUNCT: map<char, Kind> := map[
    '[' := BracketLeft, ']' := BracketRight, '{' := BraceLeft, '}' := BraceRight, '(' := ParenLeft,
    ')' := ParenRight, ',' := Comma, '|' := Pipe, '?' := Question, ':' := Colon, '.' := Period]

  /** The tables of the lexer: its patterns on plain characters, its punctuation, and operators
      that contain no blank and are none of the punctuation. */
  ghost predicate Usual(t: Tables) {
    && Sound(t)
    && (forall s: string, p: nat :: t.word(s, p) == WordRun(s, p))
    && (forall s: string, p: nat :: t.numeral(s, p) == NumeralRun(s, p))
    && (forall c: char :: c <= '~' ==> (t.alpha(c) <==> LetterChar(c)))
    && (forall c: char :: c <= '~' ==> (t.digit(c) <==> DigitChar(c)))
    && t.punct == PUNCT
    && (forall k :: 0 <= k < |t.operators| ==> UsualOperator(t.operators[k]))
  }

  predicate UsualOperator(op: Operator) {
    op.literal != "" && ' ' !in op.literal && !(|op.literal| == 1 && op.literal[0] in PUNCT)
  }

  // ------------------------------------------------------------- the spelling of a token

  function Spelling(x: Token): string {
    match x.kind
    case End => ";"
    case BraceLeft => "{"
    case BraceRight => "}"
    case ParenLeft => "("
    case ParenRight => ")"
    case BracketLeft => "["
    case BracketRight => "]"
    case Comma => ","
    case Pipe => "|"
    case Question => "?"
    case Colon => ":"
    case Period => "."
    case OpIn => " in "
    case KwIf => "if"
    case KwElse => "else"
    case KwFor => "for"
    case KwWhile => "while"
    case KwWith => "with"
    case KwSwitch => "switch"
    case KwReturn => "return"
    case KwBreak => "break"
    case KwContinue => "continue"
    case _ => x.text
  }

  /** As the lexer gives it back. */
  function AsSpelled(x: Token): Token { Token(x.kind, Spelling(x)) }

  predicate IsWord(w: string) {
    w != "" && (LetterChar(w[0]) || w[0] == '_') && forall k :: 0 <= k < |w| ==> WordChar(w[k])
  }

  predicate Numeral(n: string) { n != "" && DigitChar(n[0]) && NumeralRun(n, 0) == |n| }

  predicate OperatorChar(c: char) {
    c in {'=', '+', '-', '*', '/', '%', '^', '<', '>', '!', '@', '&', '|'}
  }

  /** An operator the table finds: its entry, and no entry before it that begins it. */
  predicate Operates(t: Tables, x: Token) {
    && x.text != "" && OperatorChar(x.text[0]) && ' ' !in x.text
    && !StartsAt(x.text, 0, "//") && !StartsAt(x.text, 0, "/*")
    && exists k :: 0 <= k < |t.operators| && t.operators[k] == Operator(x.text, x)
                   && forall j :: 0 <= j < k ==> !(t.operators[j].literal <= x.text)
  }

  // ------------------------------------------------------------- the context it moves to

  predicate Raw(c: Context) { c.mode.SMode? }

  function Next(c: Context, early: bool): (Context, seq<Token>) { (PopNext(c, early), Emitted(c, early)) }

  /** Where a token leaves the lexer, and the tokens queued behind it. */
  function Turn(t: Tables, c: Context, x: Token): (Context, seq<Token>) {
    match x.kind
    case CommandName =>
      if x.text in t.commands
      then Next(Pushing(c, State(t.commands[x.text].args, PopCommand, true, false, false)), false)
      else (c, [])
    case BracketLeft => Next(Pushing(c, State("P", PopArrayIndex, false, false, false)), false)
    case BracketRight => if ArrayPops(c) then Next(c, false) else (c, [])
    case Comma => if !c.mode.Default? && c.literals == 0 && CommaPops(c) then Next(c, false) else (c, [])
    case BraceLeft => (if c.mode.Default? then c else c.(literals := c.literals + 1), [])
    case BraceRight =>
      if c.mode.Default? then (c, [])
      else if c.literals > 0 then (c.(literals := c.literals - 1), [])
      else Next(c, true)
    case ParenLeft => (if c.mode.Default? then c else c.(parens := c.parens + 1), [])
    case ParenRight => (if c.mode.Default? then c else c.(parens := c.parens - 1), [])
    case End => if c.mode.Default? then (c, []) else Next(c, true)
    case _ => (c, [])
  }

  /** Whether the terminator that stands here is left out: `}` closes the command. */
  predicate LeftOut(terse: bool, c: Context, ts: seq<Token>) {
    terse && |ts| > 1 && ts[0].kind.End? && !c.mode.Default? && ts[1].kind.BraceRight?
    && c.literals == 0 && CmdPops(c)
  }

  /** One token with what the lexer makes of its surroundings: where it leads, how many tokens
      it accounts for, and its characters. */
  datatype Turned = Turned(ctx: Context, count: nat, chars: string)

  function First(t: Tables, terse: bool, c: Context, ts: seq<Token>): (r: Turned)
    requires ts != []
    ensures r.count > 0
  {
    if LeftOut(terse, c, ts) then
      Turned(Turn(t, c, ts[1]).0, 2, if Raw(c) then "}" else " }")
    else
      var (next, queued) := Turn(t, c, ts[0]);
      var tail := if ts[0].kind.CommandName? && ts[0].text in t.commands && t.commands[ts[0].text].needsSpace
                  then " " else "";
      Turned(next, 1 + |queued|,
             if Raw(c) || ts[0].kind.OpIn? then Spelling(ts[0]) else " " + Spelling(ts[0]) + tail)
  }

  /** The text of a token list, from a context on. */
  function Spell(t: Tables, terse: bool, c: Context, ts: seq<Token>): string
    decreases |ts|
  {
    if ts == [] then ""
    else
      var f := First(t, terse, c, ts);
      f.chars + if f.count <= |ts| then Spell(t, terse, f.ctx, ts[f.count..]) else ""
  }

  // ------------------------------------------------------------- when it can be read

  /** A name that is nothing else where it stands. */
  predicate LegibleName(t: Tables, c: Context, done: seq<Token>, w: string) {
    && IsWord(w) && w != "in" && w != "true" && w != "false"
    && (BehindPeriod(done)
        || (w !in t.functions
            && (c.mode.Default? ==> w !in t.keywords && (w in t.commands ==> BehindOperator(done)))))
  }

  predicate LegibleLiteral(t: Tables, c: Context, done: seq<Token>, w: string) {
    || Numeral(w)
    || ((w == "true" || w == "false")
        && (BehindPeriod(done)
            || (w !in t.functions && (c.mode.Default? ==> w !in t.keywords && w !in t.commands))))
  }

  predicate LegibleKeyword(t: Tables, c: Context, done: seq<Token>, x: Token, rest: seq<Token>) {
    var w := Spelling(x);
    && c.mode.Default? && !BehindPeriod(done) && IsWord(w) && w != "function" && w != "in"
    && w !in t.commands && w !in t.functions && w in t.keywords && t.keywords[w] == x.kind
    && (w == "switch" ==> rest != [] && rest[0].kind.ParenLeft?)
  }

  predicate Keyword(k: Kind) {
    k.KwIf? || k.KwElse? || k.KwFor? || k.KwWhile? || k.KwWith? || k.KwSwitch? || k.KwReturn? || k.KwBreak?
    || k.KwContinue?
  }

  /** Plain text that no character ends early. */
  predicate LegibleText(c: Context, x: string) {
    x != "" && forall k :: 0 <= k < |x| ==> x[k] !in {'#', '}', ';'} && !(x[k] == ',' && CommaPops(c))
  }

  /** What may follow plain text. */
  predicate EndsText(c: Context, rest: string) {
    rest == "" || rest[0] in {';', '}'} || (rest[0] == ',' && CommaPops(c))
  }

  /** A token that scanning its characters gives back, in the default mode and in expressions. */
  predicate LegibleToken(t: Tables, c: Context, done: seq<Token>, x: Token, rest: seq<Token>) {
    match x.kind
    case OpIn => true
    case Identifier => if x.text == ":" then !PendingTernary(done) else LegibleName(t, c, done, x.text)
    case Literal => LegibleLiteral(t, c, done, x.text)
    case Colon => PendingTernary(done)
    case End => c.mode.Default? || CmdPops(c)
    case BraceRight => c.mode.Default? || c.literals > 0
    case ParenRight => c.mode.Default? || !FuncPops(c)
    case BraceLeft | ParenLeft | BracketLeft | BracketRight | Comma | Pipe | Question | Period => true
    case _ =>
      if Keyword(x.kind) then LegibleKeyword(t, c, done, x, rest)
      else IsOperator(x.kind) && Operates(t, x)
  }

  predicate LegibleCommand(t: Tables, c: Context, done: seq<Token>, x: Token, rest: string) {
    && c.mode.Default? && IsWord(x.text) && x.text != "in" && x.text in t.commands
    && !BehindPeriod(done) && !BehindOperator(done)
    && (t.commands[x.text].needsSpace || rest == "" || (!WordChar(rest[0]) && rest[0] != '('))
  }

  /** The first token stands where the lexer reads it back. Arguments are expressions or text. */
  predicate LegibleHere(t: Tables, terse: bool, c: Context, done: seq<Token>, ts: seq<Token>)
    requires ts != []
  {
    var f := First(t, terse, c, ts);
    && f.count <= |ts|
    && (c.mode.Default? || c.mode.EMode? || c.mode.SMode?) && (c.stack == [] <==> c.mode.Default?)
    && !InCommandCall(c)
    && (var rest := Spell(t, terse, f.ctx, ts[f.count..]);
        if LeftOut(terse, c, ts) then true
        else
          && ts[1..f.count] == Turn(t, c, ts[0]).1
          && if Raw(c) then
               match ts[0].kind
               case StringPart => CmdPops(c) && LegibleText(c, ts[0].text) && EndsText(c, rest)
               case End => CmdPops(c)
               case Comma => CommaPops(c) && c.literals == 0
               case _ => false
             else if ts[0].kind.CommandName? then LegibleCommand(t, c, done, ts[0], rest)
             else LegibleToken(t, c, done, ts[0], ts[1..]))
  }

  /** And so does every later one. */
  predicate Legible(t: Tables, terse: bool, c: Context, done: seq<Token>, ts: seq<Token>)
    decreases |ts|
  {
    ts == [] ||
    (LegibleHere(t, terse, c, done, ts) &&
     var f := First(t, terse, c, ts);
     Legible(t, terse, f.ctx, done + ts[..f.count], ts[f.count..]))
  }
}

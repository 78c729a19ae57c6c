/** What one scan of the GS1 lexer does (reborn_protocol/gs1/lexer.py), as functions of the
    text and of everything the lexer keeps. The tables of commands, functions and operators,
    and the word, number and message-code patterns, are parameters. */
module Gs1Scan {
  import opened Gs1Syntax
  import opened Gs1Modes

  datatype Command = Command(args: string, needsSpace: bool)

  datatype Operator = Operator(literal: string, token: Token)

  datatype Tables = Tables(
    commands: map<string, Command>,
    functions: map<string, string>,
    codes: map<string, string>,
    keywords: map<string, Kind>,
    directions: set<string>,
    operators: seq<Operator>,
    punct: map<char, Kind>,
    alpha: char -> bool,
    digit: char -> bool,
    word: (string, nat) -> nat,
    numeral: (string, nat) -> nat,
    code: (string, nat) -> nat)

  /** The tables' own promises: every argument letter has a mode, no table holds the end of
      file, and a pattern matches inside the text (0 standing for no match). */
  ghost predicate Sound(t: Tables) {
    && (forall w :: w in t.commands ==> Moded(t.commands[w].args))
    && (forall w :: w in t.functions ==> Moded(t.functions[w]))
    && (forall w :: w in t.codes ==> Moded(t.codes[w]))
    && (forall w :: w in t.keywords ==> !t.keywords[w].Eof?)
    && (forall k :: 0 <= k < |t.operators| ==> t.operators[k].literal != "" && !t.operators[k].token.kind.Eof?)
    && (forall c :: c in t.punct ==> !t.punct[c].Eof?)
    && (forall s: string, p: nat :: p <= |s| ==> p + t.word(s, p) <= |s|)
    && (forall s: string, p: nat :: p <= |s| ==> p + t.numeral(s, p) <= |s|)
    && (forall s: string, p: nat :: p <= |s| ==> p + t.code(s, p) <= |s|)
  }

  /** What a scan comes back with. */
  datatype Scan = Got(token: Token) | Nothing | LexError

  predicate NoEof(ts: seq<Token>) { forall k :: 0 <= k < |ts| ==> !ts[k].kind.Eof? }

  predicate StartsAt(text: string, pos: nat, what: string) {
    pos + |what| <= |text| && text[pos..pos + |what|] == what
  }

  lemma CharsOf(s: string, p: nat, w: string)
    ensures StartsAt(s, p, w) <==> p + |w| <= |s| && forall k :: 0 <= k < |w| ==> s[p + k] == w[k]
  {
    if p + |w| <= |s| { assert |s[p..p + |w|]| == |w|; }
  }

  predicate Space(c: char) { c == ' ' || c == '\t' || c == '\r' || c == '\n' }

  /** `_has_pending_ternary` */
  predicate PendingTernary(out: seq<Token>) {
    if out == [] then false
    else
      var k := out[|out| - 1].kind;
      if k.End? || k.BraceLeft? || k.BraceRight? then false
      else if k.Question? then true
      else PendingTernary(out[..|out| - 1])
  }

  /** `str.find` from a position; the length of the text when absent. */
  function FindText(text: string, what: string, from: nat): (at: nat)
    ensures from <= |text| ==> from <= at <= |text|
    ensures at + |what| <= |text| || at == |text| || from > |text|
    decreases |text| - from
  {
    if from >= |text| then |text|
    else if StartsAt(text, from, what) then from
    else FindText(text, what, from + 1)
  }

  /** On the wire a section sign stands for a line break. */
  function Normalised(text: string): string {
    seq(|text|, k requires 0 <= k < |text| => if text[k] == '\U{A7}' then '\n' else text[k])
  }

  predicate IsOperator(k: Kind) { k.OpIn? || k.OpNot? || k.OpInc? || k.OpDec? || Assigning(k) || Binary(k) }

  predicate Assigning(k: Kind) {
    k.OpAssign? || k.OpAssignAdd? || k.OpAssignSub? || k.OpAssignMul? || k.OpAssignDiv?
    || k.OpAssignMod? || k.OpAssignPow?
  }

  predicate Binary(k: Kind) {
    k.OpOr? || k.OpAnd? || k.OpEqual? || k.OpNotEq? || k.OpLess? || k.OpGreat? || k.OpLessEq? || k.OpGreatEq?
    || k.OpConcat? || k.OpAdd? || k.OpSub? || k.OpMul? || k.OpDiv? || k.OpMod? || k.OpPow?
  }

  /** All a lexer keeps between scans: where it is, what is open, the two queues and the tokens
      so far. */
  datatype Lx = Lx(pos: nat, ctx: Context, before: seq<Token>, after: seq<Token>, out: seq<Token>)

  function Cut(s: string, pos: nat, n: nat): string { if pos + n <= |s| then s[pos..pos + n] else "" }

  // ------------------------------------------------------------- the context

  function NextL(l: Lx, early: bool): Lx {
    l.(ctx := PopNext(l.ctx, early), after := l.after + Emitted(l.ctx, early))
  }

  function PushL(l: Lx, st: State): Lx { NextL(l.(ctx := Pushing(l.ctx, st)), false) }

  function PushCommandL(l: Lx, arguments: string, isMessageCode: bool, isCommandCall: bool): Lx {
    PushL(l, State(arguments, if isCommandCall then PopFunction else PopCommand, true, isMessageCode, isCommandCall))
  }

  function PushArrayL(l: Lx): Lx { PushL(l, State("P", PopArrayIndex, false, false, false)) }

  function ApplyL(l: Lx, op: Op): Lx { l.(ctx := Apply(l.ctx, op)) }

  function TopOf(c: Context): State
    requires c.stack != []
  {
    c.stack[|c.stack| - 1].state
  }

  predicate FuncPops(c: Context) { c.stack != [] && TopOf(c).popMode.PopFunction? }

  predicate CmdPops(c: Context) { c.stack == [] || TopOf(c).popMode.PopCommand? }

  predicate ArrayPops(c: Context) { c.stack != [] && TopOf(c).popMode.PopArrayIndex? }

  predicate CommaPops(c: Context) { c.stack == [] || TopOf(c).commaPop }

  predicate InCommandCall(c: Context) { c.stack != [] && TopOf(c).isCommandCall }

  // ------------------------------------------------------------- shared scanning

  /** Where _skip_ws comes to. */
  function Skipped(s: string, p: nat): (q: nat)
    ensures p <= q && (p <= |s| ==> q <= |s|)
    decreases |s| - p
  {
    if p >= |s| then p
    else if Space(s[p]) then Skipped(s, p + 1)
    else if StartsAt(s, p, "//") then Skipped(s, FindText(s, "\n", p + 1))
    else if StartsAt(s, p, "/*") then
      var end := FindText(s, "*/", p + 2);
      Skipped(s, if end == |s| then |s| else end + 2)
    else p
  }

  /** _next_nonspace at an offset, compared with `(`. */
  predicate OpensAfter(s: string, from: nat)
    decreases |s| - from
  {
    if from >= |s| then false
    else if Space(s[from]) then OpensAfter(s, from + 1)
    else s[from] == '('
  }

  function Took(s: string, l: Lx, k: Kind, n: nat): (Scan, Lx) {
    (Got(Token(k, Cut(s, l.pos, n))), l.(pos := l.pos + n))
  }

  function Ends(l: Lx): (Scan, Lx) { (Got(Token(Eof, "")), l) }

  function CodeArgs(t: Tables, s: string, code: string, at: nat): string {
    if code == "#P" then "(E)"
    else if code in t.codes then t.codes[code]
    else if at < |s| && s[at] == '(' then "(P)" else ""
  }

  /** _match_messagecode */
  function CodeL(t: Tables, s: string, l: Lx): (r: (Option<Token>, Lx))
    ensures r.0.None? ==> r.1 == l
  {
    var n := t.code(s, l.pos);
    if n == 0 then (None, l)
    else
      var code := Cut(s, l.pos, n);
      var args := CodeArgs(t, s, code, l.pos + n);
      var l1 := l.(pos := l.pos + n);
      (Some(Token(Kind.MessageCode, code)), if args != "" then PushCommandL(l1, args, true, false) else l1)
  }

  /** A `#`: escaped, or a message code. */
  function HashL(t: Tables, s: string, l: Lx, k: Kind): (r: (Option<Token>, Lx))
    ensures r.0.None? ==> r.1 == l
  {
    if StartsAt(s, l.pos, "##") then (Some(Token(k, "#")), l.(pos := l.pos + 2)) else CodeL(t, s, l)
  }

  function FirstOperator(ops: seq<Operator>, s: string, p: nat): Option<Operator> {
    if ops == [] then None
    else if StartsAt(s, p, ops[0].literal) then Some(ops[0])
    else FirstOperator(ops[1..], s, p)
  }

  /** The content of a quoted string from `p` on, and where the scan goes on behind it. */
  function Quoted(s: string, p: nat): (string, nat)
    decreases |s| - p
  {
    if p >= |s| then ("", p)
    else if s[p] == '"' then
      if p + 1 < |s| && s[p + 1] == '"' then
        var (more, q) := Quoted(s, p + 2);
        (['"'] + more, q)
      else ("", p + 1)
    else
      var (more, q) := Quoted(s, p + 1);
      ([s[p]] + more, q)
  }

  lemma QuotedAt(s: string, p: nat)
    requires p < |s|
    ensures Quoted(s, p) ==
              if s[p] != '"' then ([s[p]] + Quoted(s, p + 1).0, Quoted(s, p + 1).1)
              else if p + 1 < |s| && s[p + 1] == '"' then (['"'] + Quoted(s, p + 2).0, Quoted(s, p + 2).1)
              else ("", p + 1)
  {
  }

  function QuotedL(s: string, l: Lx): (Scan, Lx) {
    var (content, q) := Quoted(s, l.pos + 1);
    (Got(Token(StringPart, content)), l.(pos := q))
  }

  /** A `}` that ends the statement: its terminator comes first. */
  function CloseBraceL(l: Lx): (Scan, Lx) {
    var l1 := NextL(l, true);
    (Got(Token(BraceRight, "}")), l1.(pos := l.pos + 1, before := l.before + [Token(End, "")]))
  }

  function CloseWithL(s: string, l: Lx, early: bool, k: Kind): (Scan, Lx) { Took(s, NextL(l, early), k, 1) }

  function CloseCallL(l: Lx): (Scan, Lx) {
    (if InCommandCall(l.ctx) then Nothing else Got(Token(ParenRight, ")")), NextL(l, true).(pos := l.pos + 1))
  }

  // ------------------------------------------------------------- words

  predicate BehindPeriod(out: seq<Token>) { out != [] && out[|out| - 1].kind.Period? }

  predicate BehindOperator(out: seq<Token>) {
    out != [] && (out[|out| - 1].kind.ParenLeft? || IsOperator(out[|out| - 1].kind))
  }

  function PlainWord(word: string): Kind { if word == "true" || word == "false" then Literal else Identifier }

  /** Blanks and tabs from `p` on. */
  function Blanks(s: string, p: nat): (q: nat)
    ensures p <= q && (p <= |s| ==> q <= |s|)
    decreases |s| - p
  {
    if p < |s| && (s[p] == ' ' || s[p] == '\t') then Blanks(s, p + 1) else p
  }

  /** A command that needs no space, perhaps written as a call; empty parentheses are passed
      over. */
  function CommandWordL(s: string, l: Lx, word: string, n: nat, args: string): (Scan, Lx) {
    var p := l.pos + n;
    var isCall := p < |s| && s[p] == '(';
    var j := Blanks(s, p + 1);
    var empty := isCall && j < |s| && s[j] == ')';
    var at := if empty then j + 1 else if isCall then p + 1 else p;
    (Got(Token(CommandName, word)), PushCommandL(l.(pos := at), args, false, isCall && !empty))
  }

  function FunctionL(t: Tables, l: Lx, word: string, n: nat): (Scan, Lx)
    requires word in t.functions
  {
    (Got(Token(Kind.Function, word)), PushCommandL(l.(pos := l.pos + n), t.functions[word], false, false))
  }

  /** A word that is no command here: a function, a keyword, a literal or a name. */
  function LateWordL(t: Tables, s: string, l: Lx, word: string, n: nat): (Scan, Lx) {
    if word in t.functions && OpensAfter(s, l.pos + n) then FunctionL(t, l, word, n)
    else if word in t.keywords && (word != "switch" || OpensAfter(s, l.pos + n)) then
      var l1 := l.(pos := l.pos + n);
      (Got(Token(t.keywords[word], word)),
       if word == "function" then PushCommandL(l1, "V(F", false, false) else l1)
    else if word in t.keywords then Took(s, l, Identifier, n)
    else Took(s, l, PlainWord(word), n)
  }

  /** _default_word */
  function DefaultWordL(t: Tables, s: string, l: Lx): (Scan, Lx) {
    var n := t.word(s, l.pos);
    var word := Cut(s, l.pos, n);
    if n == 0 then Took(s, l, Identifier, 1)
    else if BehindPeriod(l.out) then Took(s, l, PlainWord(word), n)
    else if BehindOperator(l.out) && word in t.commands && word !in t.functions && word !in t.keywords then
      Took(s, l, Identifier, n)
    else if word in t.commands && !t.commands[word].needsSpace then
      CommandWordL(s, l, word, n, t.commands[word].args)
    else if word in t.commands && l.pos + n < |s| && s[l.pos + n] == ' ' then
      (Got(Token(CommandName, word)), PushCommandL(l.(pos := l.pos + n + 1), t.commands[word].args, false, false))
    else LateWordL(t, s, l, word, n)
  }

  /** _expr_word */
  function ExprWordL(t: Tables, s: string, l: Lx): (Scan, Lx) {
    var n := t.word(s, l.pos);
    var word := Cut(s, l.pos, n);
    if n == 0 then Took(s, l, Identifier, 1)
    else if !BehindPeriod(l.out) && word in t.functions && OpensAfter(s, l.pos + n) then FunctionL(t, l, word, n)
    else Took(s, l, PlainWord(word), n)
  }

  // ------------------------------------------------------------- modes

  /** What the default mode and the expression modes share once their own characters have been
      tried. */
  function CommonL(t: Tables, s: string, l: Lx, statement: bool): (Scan, Lx)
    requires l.pos < |s|
  {
    var c := s[l.pos];
    if t.alpha(c) || c == '_' then if statement then DefaultWordL(t, s, l) else ExprWordL(t, s, l)
    else if (t.digit(c) || (c == '.' && l.pos + 1 < |s| && t.digit(s[l.pos + 1]))) && t.numeral(s, l.pos) != 0 then
      Took(s, l, Literal, t.numeral(s, l.pos))
    else if c == '"' then QuotedL(s, l)
    else
      var op := FirstOperator(t.operators, s, l.pos);
      if op.Some? then (Got(op.value.token), l.(pos := l.pos + |op.value.literal|))
      else if c in t.punct then Took(s, if statement && c == '[' then PushArrayL(l) else l, t.punct[c], 1)
      else Took(s, l, Identifier, 1)
  }

  /** A message code, or a colon that is part of a flag's name. */
  function HashOrColonL(t: Tables, s: string, l: Lx): (r: (Option<Token>, Lx))
    requires l.pos < |s|
    ensures r.0.None? ==> r.1 == l
  {
    var (hash, l1) := if s[l.pos] == '#' then HashL(t, s, l, Identifier) else (None, l);
    if hash.Some? then (hash, l1)
    else if s[l.pos] == ':' && !PendingTernary(l.out) && !StartsAt(s, l.pos, ":=") then
      (Some(Token(Identifier, ":")), l.(pos := l.pos + 1))
    else (None, l)
  }

  /** _mode_DEFAULT behind its white space. */
  function DefaultTokenL(t: Tables, s: string, l: Lx): (Scan, Lx)
    requires l.pos < |s|
  {
    var (found, l1) := HashOrColonL(t, s, l);
    if found.Some? then (Got(found.value), l1)
    else if s[l.pos] == ';' then Took(s, l, End, 1)
    else if s[l.pos] == '}' then Took(s, l, BraceRight, 1)
    else if s[l.pos] == '{' then Took(s, l, BraceLeft, 1)
    else CommonL(t, s, l, true)
  }

  function DefaultL(t: Tables, s: string, l: Lx): (Scan, Lx)
    requires l.pos < |s|
  {
    if StartsAt(s, l.pos, " in ") then Took(s, l, OpIn, 4)
    else if Skipped(s, l.pos) > l.pos then (Nothing, l.(pos := Skipped(s, l.pos)))
    else DefaultTokenL(t, s, l)
  }

  function ExprBraceL(s: string, l: Lx): (r: (Scan, Lx))
    requires l.pos < |s|
    ensures r.0.Nothing? ==> r.1 == l
  {
    var c := s[l.pos];
    if c == '{' then Took(s, ApplyL(l, Op.Literals(1)), BraceLeft, 1)
    else if c == '}' && l.ctx.literals > 0 then Took(s, ApplyL(l, Op.Literals(-1)), BraceRight, 1)
    else if c == '}' && CmdPops(l.ctx) then CloseBraceL(l)
    else if c == ';' && CmdPops(l.ctx) then CloseWithL(s, l, true, End)
    else (Nothing, l)
  }

  function ExprParenL(s: string, l: Lx, trackParens: bool, plainParens: bool): (Scan, Lx)
    requires l.pos < |s|
  {
    if s[l.pos] == '(' then Took(s, if trackParens then ApplyL(l, Op.Parens(1)) else l, ParenLeft, 1)
    else if !plainParens && l.ctx.literals == 0 && FuncPops(l.ctx) && l.ctx.parens == 0 then CloseCallL(l)
    else Took(s, if trackParens then ApplyL(l, Op.Parens(-1)) else l, ParenRight, 1)
  }

  function OpenIndexL(s: string, l: Lx): (Scan, Lx) {
    (Got(Token(BracketLeft, Cut(s, l.pos, 1))), PushArrayL(l.(pos := l.pos + 1)))
  }

  /** _expr_mode behind its white space. */
  function ExprTokenL(t: Tables, s: string, l: Lx, trackParens: bool, plainParens: bool): (Scan, Lx)
    requires l.pos < |s|
  {
    var c := s[l.pos];
    if c == '(' || c == ')' then ExprParenL(s, l, trackParens, plainParens)
    else if c == ',' then
      Took(s, if l.ctx.literals == 0 && CommaPops(l.ctx) then NextL(l, false) else l, Comma, 1)
    else if c == ']' then Took(s, if ArrayPops(l.ctx) then NextL(l, false) else l, BracketRight, 1)
    else if c == '[' then OpenIndexL(s, l)
    else
      var (brace, l0) := if c == '{' || c == '}' || c == ';' then ExprBraceL(s, l) else (Nothing, l);
      if !brace.Nothing? then (brace, l0)
      else
        var (found, l1) := HashOrColonL(t, s, l);
        if found.Some? then (Got(found.value), l1) else CommonL(t, s, l, false)
  }

  function ExprL(t: Tables, s: string, l: Lx, trackParens: bool, plainParens: bool, preSkipped: bool): (Scan, Lx) {
    if !preSkipped && StartsAt(s, l.pos, " in ") then Took(s, l, OpIn, 4)
    else if !preSkipped && Skipped(s, l.pos) > l.pos then (Nothing, l.(pos := Skipped(s, l.pos)))
    else if l.pos >= |s| then Ends(l)
    else ExprTokenL(t, s, l, trackParens, plainParens)
  }

  /** _mode_D */
  function DirectionL(t: Tables, s: string, l: Lx): (Scan, Lx) {
    var l1 := l.(pos := Skipped(s, l.pos));
    var n := t.word(s, l1.pos);
    if l1.pos >= |s| then Ends(l1)
    else if n > 0 && Cut(s, l1.pos, n) in t.directions then Took(s, l1, Direction, n)
    else ExprL(t, s, l1, false, false, true)
  }

  predicate NextArgumentOpens(c: Context) {
    c.stack != [] && TopOf(c).arguments != "" && TopOf(c).arguments[0] == '('
  }

  /** _mode_V behind its white space. */
  function VariableTokenL(t: Tables, s: string, l: Lx): (Scan, Lx)
    requires l.pos < |s|
  {
    var c := s[l.pos];
    if c == '}' && CmdPops(l.ctx) then CloseBraceL(l)
    else if c == '(' && NextArgumentOpens(l.ctx) then Took(s, NextL(NextL(l, false), false), ParenLeft, 1)
    else if c == ')' && FuncPops(l.ctx) then CloseCallL(l)
    else if c == ';' && CmdPops(l.ctx) then CloseWithL(s, l, true, End)
    else if c == ',' then CloseWithL(s, l, false, Comma)
    else NamePieceL(t, s, l)
  }

  /** A piece of a variable's name. */
  function NamePieceL(t: Tables, s: string, l: Lx): (Scan, Lx)
    requires l.pos < |s|
  {
    var c := s[l.pos];
    var (hash, l1) := if c == '#' then HashL(t, s, l, Identifier) else (None, l);
    if hash.Some? then (Got(hash.value), l1)
    else if c == '[' then OpenIndexL(s, l)
    else if c in {'*', '!', ':', '-'} then Took(s, l, Identifier, 1)
    else if c in {'|', '?', '.'} then
      Took(s, l, if c == '|' then Pipe else if c == '?' then Question else Period, 1)
    else if t.digit(c) && t.numeral(s, l.pos) != 0 then Took(s, l, Literal, t.numeral(s, l.pos))
    else if (t.alpha(c) || c == '_') && t.word(s, l.pos) > 0 then
      Took(s, l, PlainWord(Cut(s, l.pos, t.word(s, l.pos))), t.word(s, l.pos))
    else (LexError, l)
  }

  /** White space is passed over in a scan of its own; behind it comes the end or a token. */
  function Gap(s: string, l: Lx): (r: Option<(Scan, Lx)>)
    ensures r.None? ==> l.pos < |s|
  {
    if Skipped(s, l.pos) > l.pos then Some((Nothing, l.(pos := Skipped(s, l.pos))))
    else if l.pos >= |s| then Some(Ends(l))
    else None
  }

  function Spaced(s: string, l: Lx, token: (Scan, Lx)): (Scan, Lx) {
    if Gap(s, l).Some? then Gap(s, l).value else token
  }

  function VariableL(t: Tables, s: string, l: Lx): (Scan, Lx) {
    Spaced(s, l, if l.pos < |s| then VariableTokenL(t, s, l) else Ends(l))
  }

  // ------------------------------------------------------------- strings

  /** A word that calls a builtin inside a string argument of a call replaces the empty string
      the argument began with. */
  predicate CallsHere(t: Tables, s: string, l: Lx) {
    && InCommandCall(l.ctx) && l.pos < |s| && (t.alpha(s[l.pos]) || s[l.pos] == '_')
    && t.word(s, l.pos) != 0 && Cut(s, l.pos, t.word(s, l.pos)) in t.functions
    && OpensAfter(s, l.pos + t.word(s, l.pos))
  }

  function CallHereL(t: Tables, s: string, l: Lx): (Scan, Lx) {
    var n := |l.out|;
    ExprWordL(t, s, if n > 0 && l.out[n - 1] == Token(StringPart, "") then l.(out := l.out[..n - 1]) else l)
  }

  /** Whether plain parentheses are balanced in this argument. */
  predicate Balances(c: Context, raw: bool) { FuncPops(c) && !raw && !TopOf(c).isMessageCode }

  /** A character that ends a run of plain text. */
  predicate RunStops(s: string, c: Context, raw: bool, p: nat, parens: int)
    requires p < |s|
  {
    var x := s[p];
    || (x == '"' && InCommandCall(c))
    || (if raw then StartsAt(s, p, "##") else x == '#')
    || ((x == '}' || x == ';') && CmdPops(c))
    || (x == ')' && !raw && FuncPops(c) && (!Balances(c, raw) || parens == 0))
    || (x == ',' && CommaPops(c))
  }

  /** The open parentheses behind a character that does not. */
  function RunParens(c: Context, raw: bool, x: char, parens: int): int {
    if x == ')' && !raw && FuncPops(c) then parens - 1
    else if x == '(' && Balances(c, raw) then parens + 1
    else parens
  }

  /** How far a run goes from `p` on, and the open parentheses then. */
  function RunEnd(s: string, c: Context, raw: bool, p: nat, parens: int): (r: (nat, int))
    ensures p <= r.0 && (p <= |s| ==> r.0 <= |s|)
    decreases |s| - p
  {
    if p >= |s| || RunStops(s, c, raw, p, parens) then (p, parens)
    else RunEnd(s, c, raw, p + 1, RunParens(c, raw, s[p], parens))
  }

  lemma RunAt(s: string, c: Context, raw: bool, p: nat, parens: int)
    ensures RunEnd(s, c, raw, p, parens) ==
              if p >= |s| || RunStops(s, c, raw, p, parens) then (p, parens)
              else RunEnd(s, c, raw, p + 1, RunParens(c, raw, s[p], parens))
  {
    hide RunStops;
  }

  function RunL(s: string, l: Lx, raw: bool): (Scan, Lx) {
    var (q, parens) := RunEnd(s, l.ctx, raw, l.pos, l.ctx.parens);
    var end := if q == l.pos then q + 1 else q;
    (Got(Token(StringPart, Cut(s, l.pos, end - l.pos))), l.(pos := end, ctx := l.ctx.(parens := parens)))
  }

  /** _string_mode behind the white space of a call. */
  function StringTokenL(t: Tables, s: string, l: Lx, raw: bool): (Scan, Lx)
    requires l.pos < |s|
  {
    var c := s[l.pos];
    if !raw && CallsHere(t, s, l) then CallHereL(t, s, l)
    else if c == ')' && FuncPops(l.ctx) && l.ctx.parens == 0 && InCommandCall(l.ctx) then CloseCallL(l)
    else if c == '}' && CmdPops(l.ctx) then CloseBraceL(l)
    else if c == ')' && !raw && FuncPops(l.ctx) && (l.ctx.parens == 0 || TopOf(l.ctx).isMessageCode) then
      CloseWithL(s, l, true, ParenRight)
    else if c == ';' && CmdPops(l.ctx) then CloseWithL(s, l, true, End)
    else if c == ',' && CommaPops(l.ctx) then CloseWithL(s, l, false, Comma)
    else if c == '"' && InCommandCall(l.ctx) then QuotedL(s, l)
    else if StartsAt(s, l.pos, "##") then (Got(Token(StringPart, "#")), l.(pos := l.pos + 2))
    else
      var (code, l1) := if !raw && c == '#' then CodeL(t, s, l) else (None, l);
      if code.Some? then (Got(code.value), l1) else RunL(s, l, raw)
  }

  /** In a call, white space around a string argument is no part of it. */
  function StringL(t: Tables, s: string, l: Lx, raw: bool): (Scan, Lx) {
    if l.pos >= |s| then Ends(l)
    else if InCommandCall(l.ctx) && Skipped(s, l.pos) > l.pos then (Nothing, l.(pos := Skipped(s, l.pos)))
    else StringTokenL(t, s, l, raw)
  }

  function ListEnd(s: string, c: Context, p: nat): (q: nat)
    ensures p <= q && (p <= |s| ==> q <= |s|)
    decreases |s| - p
  {
    if p >= |s| || s[p] == '#' || s[p] == ',' || (s[p] == '"' && InCommandCall(c))
       || ((s[p] == '}' || s[p] == ';') && CmdPops(c)) || (s[p] == ')' && FuncPops(c)) then p
    else ListEnd(s, c, p + 1)
  }

  /** _mode_L behind the white space of a call: commas stay, each followed by an empty string. */
  function ListTokenL(t: Tables, s: string, l: Lx): (Scan, Lx)
    requires l.pos < |s|
  {
    var c := s[l.pos];
    if CallsHere(t, s, l) then CallHereL(t, s, l)
    else if c == '}' && CmdPops(l.ctx) then CloseBraceL(l)
    else if c == ')' && FuncPops(l.ctx) then CloseCallL(l)
    else if c == ';' && CmdPops(l.ctx) then CloseWithL(s, l, true, End)
    else if c == ',' then Took(s, l.(after := l.after + [Token(StringPart, "")]), Comma, 1)
    else if c == '"' && InCommandCall(l.ctx) then QuotedL(s, l)
    else ListTextL(t, s, l)
  }

  function ListTextL(t: Tables, s: string, l: Lx): (Scan, Lx)
    requires l.pos < |s|
  {
    var (hash, l1) := if s[l.pos] == '#' then HashL(t, s, l, StringPart) else (None, l);
    if hash.Some? then (Got(hash.value), l1)
    else
      var q := ListEnd(s, l.ctx, l.pos);
      Took(s, l, StringPart, if q == l.pos then 1 else q - l.pos)
  }

  function ListL(t: Tables, s: string, l: Lx): (Scan, Lx) {
    if l.pos >= |s| then Ends(l)
    else if InCommandCall(l.ctx) && Skipped(s, l.pos) > l.pos then (Nothing, l.(pos := Skipped(s, l.pos)))
    else ListTokenL(t, s, l)
  }

  // ------------------------------------------------------------- special arguments

  /** _special_mode */
  function SpecialTokenL(t: Tables, s: string, l: Lx, k: Kind): (Scan, Lx)
    requires l.pos < |s|
  {
    var c := s[l.pos];
    if c == '}' && CmdPops(l.ctx) then CloseBraceL(l)
    else if c == ')' && FuncPops(l.ctx) then CloseWithL(s, l, true, ParenRight)
    else if c == ';' && CmdPops(l.ctx) then CloseWithL(s, l, true, End)
    else if c == ',' then CloseWithL(s, l, false, Comma)
    else if t.word(s, l.pos) == 0 then (LexError, l)
    else Took(s, l, k, t.word(s, l.pos))
  }

  function SpecialL(t: Tables, s: string, l: Lx, k: Kind): (Scan, Lx) {
    Spaced(s, l, if l.pos < |s| then SpecialTokenL(t, s, l, k) else Ends(l))
  }

  /** _mode_X */
  function StorageTokenL(t: Tables, s: string, l: Lx): (Scan, Lx)
    requires l.pos < |s|
  {
    var (code, l1) := if s[l.pos] == '#' then CodeL(t, s, l) else (None, l);
    if code.Some? then (Got(code.value), l1)
    else if t.word(s, l.pos) == 0 then (LexError, l)
    else
      var (r, l2) := Took(s, l, Identifier, t.word(s, l.pos));
      (r, NextL(l2, false))
  }

  function StorageL(t: Tables, s: string, l: Lx): (Scan, Lx) {
    Spaced(s, l, if l.pos < |s| then StorageTokenL(t, s, l) else Ends(l))
  }

  /** Where a stretch without braces and terminators ends. */
  function BodyEnd(s: string, p: nat): (q: nat)
    ensures p <= q && (p <= |s| ==> q <= |s|)
    decreases |s| - p
  {
    if p >= |s| || s[p] in {'{', '}', ';'} then p else BodyEnd(s, p + 1)
  }

  /** _mode_Z: a braced body, captured as text. */
  function BodyL(s: string, l: Lx): (Scan, Lx) {
    if l.pos >= |s| then Ends(l)
    else
      var c := s[l.pos];
      if c == '{' && l.ctx.parens == 0 then (Nothing, ApplyL(l, Op.Parens(1)).(pos := l.pos + 1))
      else if c == ';' && l.ctx.parens == 0 then CloseWithL(s, l, false, End)
      else if c == '}' && l.ctx.parens == 1 then
        (Nothing, NextL(ApplyL(l, Op.Parens(-1)), false).(pos := l.pos + 1, before := l.before + [Token(End, "")]))
      else if c == '{' then Took(s, ApplyL(l, Op.Parens(1)), StringPart, 1)
      else if c == '}' then Took(s, ApplyL(l, Op.Parens(-1)), StringPart, 1)
      else if c == ';' then Took(s, l, StringPart, 1)
      else Took(s, l, StringPart, BodyEnd(s, l.pos) - l.pos)
  }

  /** Where the argument that begins here ends: at a comma, or at the call's parenthesis. */
  predicate ArgumentIsLast(s: string, p: nat)
    decreases |s| - p
  {
    p < |s| && (s[p] == ')' || (s[p] != ',' && ArgumentIsLast(s, p + 1)))
  }

  /** _mode_P1 and _mode_P3 */
  function OpenParenTokenL(s: string, l: Lx, optionalLast: bool): (Scan, Lx)
    requires l.pos < |s|
  {
    if s[l.pos] != '(' then (LexError, l)
    else
      var l1 := NextL(ApplyL(l, ToFunction), false);
      Took(s, if optionalLast && ArgumentIsLast(s, l.pos) then NextL(l1, false) else l1, ParenLeft, 1)
  }

  function OpenParenL(s: string, l: Lx, optionalLast: bool): (Scan, Lx) {
    Spaced(s, l, if l.pos < |s| then OpenParenTokenL(s, l, optionalLast) else Ends(l))
  }

  /** _mode_P2 */
  function CloseParenL(s: string, l: Lx): (Scan, Lx) {
    Spaced(s, l, if l.pos < |s| && s[l.pos] == ')' then CloseWithL(s, l, false, ParenRight) else (LexError, l))
  }

  /** _mode_F */
  function ParametersL(t: Tables, s: string, l: Lx): (Scan, Lx) {
    Spaced(s, l,
      if l.pos >= |s| then Ends(l)
      else if s[l.pos] == ')' then CloseWithL(s, l, true, ParenRight)
      else if s[l.pos] == ',' then Took(s, l, Comma, 1)
      else if s[l.pos] == '.' then Took(s, l, Period, 1)
      else if t.word(s, l.pos) == 0 then (LexError, l)
      else Took(s, l, Identifier, t.word(s, l.pos)))
  }

  // ------------------------------------------------------------- the main loop

  /** scan_one */
  function ScanL(t: Tables, s: string, l: Lx): (Scan, Lx) {
    if l.pos >= |s| then Ends(l)
    else
      match l.ctx.mode
      case Default => DefaultL(t, s, l)
      case VMode => VariableL(t, s, l)
      case EMode => ExprL(t, s, l, true, false, false)
      case SMode => StringL(t, s, l, false)
      case RMode => StringL(t, s, l, true)
      case LMode => ListL(t, s, l)
      case MMode => ExprL(t, s, l, false, true, false)
      case BMode => SpecialL(t, s, l, Baddy)
      case IMode => SpecialL(t, s, l, Item)
      case CMode => SpecialL(t, s, l, Color)
      case GMode => SpecialL(t, s, l, Gender)
      case UMode => SpecialL(t, s, l, Carry)
      case DMode => DirectionL(t, s, l)
      case XMode => StorageL(t, s, l)
      case ZMode => BodyL(s, l)
      case FMode => ParametersL(t, s, l)
      case P1Mode => OpenParenL(s, l, false)
      case P2Mode => CloseParenL(s, l)
      case P3Mode => OpenParenL(s, l, true)
  }

  /** What a scan adds to the tokens: those queued before it, its own, those queued after. */
  function Drained(r: Scan, l: Lx): Lx {
    l.(out := l.out + l.before + (if r.Got? then [r.token] else []) + l.after, before := [], after := [])
  }

  /** tokenize, from here to the end of the text. A scan that neither ends nor moves is not met
      (Lexer.ScanOne). */
  function Lexed(t: Tables, s: string, l: Lx): Option<seq<Token>>
    decreases |s| - l.pos
  {
    var (r, l1) := ScanL(t, s, l);
    if r.LexError? then None
    else if r.Got? && r.token.kind.Eof? then Some(l1.out + l1.before + [r.token])
    else if l1.pos <= l.pos || l1.pos > |s| then None
    else Lexed(t, s, Drained(r, l1))
  }
}

/** Every scan of the GS1 lexer raises, consumes something, or has reached the end of the text,
    and no end of file comes before the last token. */
module Gs1Progress {
  import opened Gs1Syntax
  import opened Gs1Modes
  import opened Gs1Scan

  /** No command, function or message code takes a braced body, and no operator is a
      terminator. */
  predicate Bodiless(t: Tables) {
    && (forall w :: w in t.commands ==> 'Z' !in t.commands[w].args)
    && (forall w :: w in t.functions ==> 'Z' !in t.functions[w])
    && (forall w :: w in t.codes ==> 'Z' !in t.codes[w])
    && (forall k :: 0 <= k < |t.operators| ==> !t.operators[k].token.kind.End?)
  }

  predicate NoBodies(c: Context) {
    && !c.mode.ZMode?
    && forall k :: 0 <= k < |c.stack| ==> 'Z' !in c.stack[k].state.arguments && !c.stack[k].mode.ZMode?
  }

  const BARE_END: Token := Token(End, "")

  /** A terminator without a character of its own stands directly in front of a `}`. */
  predicate Closed(out: seq<Token>) {
    forall k :: 0 <= k < |out| && out[k] == BARE_END ==> k + 1 < |out| && out[k + 1].kind.BraceRight?
  }

  predicate NoEnd(ts: seq<Token>) { forall k :: 0 <= k < |ts| ==> !ts[k].kind.End? }

  /** The position is in the text, no end of file has been queued, and terminators without a
      character are in their places. */
  predicate Clean(t: Tables, s: string, l: Lx) {
    && l.pos <= |s| && NoEof(l.before) && NoEof(l.after) && NoEof(l.out) && NoEnd(l.after)
    && (Bodiless(t) ==> NoBodies(l.ctx) && Closed(l.out))
  }

  /** How far a scan may leave the lexer: it raised, or it consumed something, or it stands at
      the end with nothing queued behind the end of file. */
  predicate Moves(s: string, r: Scan, l: Lx, start: nat) {
    match r
    case LexError => true
    case Nothing => l.pos > start
    case Got(t) => if t.kind.Eof? then l.pos == |s| && l.before == [] && l.after == [] else l.pos > start
  }

  /** What a scan queues in front: nothing, or the terminator that its `}` stands for; where
      braced bodies are read, also that of a body. */
  predicate Fronted(t: Tables, r: Scan, before: seq<Token>) {
    && (r.Got? ==> r.token != BARE_END || !Bodiless(t))
    && (before == [] || (before == [BARE_END] && (r == Got(Token(BraceRight, "}")) || !Bodiless(t))))
  }

  predicate Good(t: Tables, s: string, start: nat, r: (Scan, Lx)) {
    Clean(t, s, r.1) && Moves(s, r.0, r.1, start) && Fronted(t, r.0, r.1.before)
  }

  /** At the beginning of a scan. */
  ghost predicate Begins(t: Tables, s: string, l: Lx) {
    Sound(t) && Clean(t, s, l) && l.before == [] && l.after == []
  }

  ghost predicate Inside(t: Tables, s: string, l: Lx) { Begins(t, s, l) && l.pos < |s| }

  lemma PopBodiless(c: Context, early: bool)
    requires NoBodies(c) || (c.stack != [] && NoBodies(c.(mode := Default)))
    ensures NoBodies(PopNext(c, early))
  {
    if c.stack != [] {
      var n := |c.stack| - 1;
      var top := c.stack[n];
      assert NoBodies(c.(mode := Default)) ==> 'Z' !in top.state.arguments && !top.mode.ZMode?;
      if !early && top.state.arguments != "" {
        assert top.state.arguments[0] in top.state.arguments;
        assert forall x :: x in top.state.arguments[1..] ==> x in top.state.arguments;
      }
    }
  }

  lemma NextClean(t: Tables, s: string, l: Lx, early: bool)
    requires Clean(t, s, l)
    ensures Clean(t, s, NextL(l, early)) && NextL(l, early).pos == l.pos && NextL(l, early).before == l.before
  {
    hide PopNext, Bodiless, NoBodies, Closed;
    if Bodiless(t) { PopBodiless(l.ctx, early); }
  }

  lemma PushClean(t: Tables, s: string, l: Lx, st: State)
    requires Clean(t, s, l) && (Bodiless(t) ==> 'Z' !in st.arguments)
    ensures Clean(t, s, PushL(l, st)) && PushL(l, st).pos == l.pos && PushL(l, st).before == l.before
  {
    hide PopNext, Bodiless, Closed;
    NextClean(t, s, l.(ctx := Pushing(l.ctx, st)), false);
  }

  lemma CommandClean(t: Tables, s: string, l: Lx, args: string, code: bool, call: bool)
    requires Clean(t, s, l) && (Bodiless(t) ==> 'Z' !in args)
    ensures var l1 := PushCommandL(l, args, code, call); Clean(t, s, l1) && l1.pos == l.pos && l1.before == l.before
  {
    hide PushL;
    PushClean(t, s, l, State(args, if call then PopFunction else PopCommand, true, code, call));
  }

  lemma WithGood(t: Tables, s: string, l: Lx, early: bool, k: Kind)
    requires Inside(t, s, l) && !k.Eof?
    ensures Good(t, s, l.pos, CloseWithL(s, l, early, k))
  {
    hide NextL, Sound;
    NextClean(t, s, l, early);
  }

  lemma CloseGood(t: Tables, s: string, l: Lx)
    requires Inside(t, s, l)
    ensures Good(t, s, l.pos, CloseBraceL(l)) && Good(t, s, l.pos, CloseCallL(l))
  {
    hide NextL, Sound;
    NextClean(t, s, l, true);
  }

  lemma IndexGood(t: Tables, s: string, l: Lx)
    requires Inside(t, s, l)
    ensures Good(t, s, l.pos, OpenIndexL(s, l))
    ensures Clean(t, s, PushArrayL(l)) && PushArrayL(l).pos == l.pos && PushArrayL(l).before == l.before
  {
    hide PushL, Sound;
    var st := State("P", PopArrayIndex, false, false, false);
    PushClean(t, s, l, st);
    PushClean(t, s, l.(pos := l.pos + 1), st);
  }

  lemma Fits(t: Tables, s: string, p: nat)
    requires Sound(t) && p <= |s|
    ensures p + t.code(s, p) <= |s| && p + t.word(s, p) <= |s| && p + t.numeral(s, p) <= |s|
  {
  }

  lemma CodeArgsBodiless(t: Tables, s: string, code: string, at: nat)
    requires Bodiless(t)
    ensures 'Z' !in CodeArgs(t, s, code, at)
  {
  }

  lemma CodeGood(t: Tables, s: string, l: Lx)
    requires Inside(t, s, l)
    ensures var (code, l1) := CodeL(t, s, l);
            code.Some? ==> Good(t, s, l.pos, (Got(code.value), l1))
  {
    hide PushCommandL, Sound, CodeArgs, Bodiless;
    Fits(t, s, l.pos);
    var n := t.code(s, l.pos);
    if Bodiless(t) { CodeArgsBodiless(t, s, Cut(s, l.pos, n), l.pos + n); }
    CommandClean(t, s, l.(pos := l.pos + n), CodeArgs(t, s, Cut(s, l.pos, n), l.pos + n), true, false);
  }

  lemma HashGood(t: Tables, s: string, l: Lx, k: Kind)
    requires Inside(t, s, l) && !k.Eof?
    ensures var (code, l1) := HashL(t, s, l, k);
            code.Some? ==> Good(t, s, l.pos, (Got(code.value), l1))
  {
    hide CodeL, Sound;
    CodeGood(t, s, l);
  }

  lemma ColonGood(t: Tables, s: string, l: Lx)
    requires Inside(t, s, l)
    ensures var (found, l1) := HashOrColonL(t, s, l);
            found.Some? ==> Good(t, s, l.pos, (Got(found.value), l1))
  {
    hide HashL, Sound, PendingTernary;
    HashGood(t, s, l, Identifier);
  }

  lemma CommandWordGood(t: Tables, s: string, l: Lx, word: string, n: nat, args: string)
    requires Inside(t, s, l) && 0 < n <= |s| - l.pos && (Bodiless(t) ==> 'Z' !in args)
    ensures Good(t, s, l.pos, CommandWordL(s, l, word, n, args))
  {
    hide PushCommandL, Sound, Blanks;
    var p := l.pos + n;
    var isCall := p < |s| && s[p] == '(';
    var j := Blanks(s, p + 1);
    var empty := isCall && j < |s| && s[j] == ')';
    var at := if empty then j + 1 else if isCall then p + 1 else p;
    CommandClean(t, s, l.(pos := at), args, false, isCall && !empty);
  }

  lemma FunctionGood(t: Tables, s: string, l: Lx, word: string, n: nat)
    requires Inside(t, s, l) && 0 < n <= |s| - l.pos && word in t.functions
    ensures Good(t, s, l.pos, FunctionL(t, l, word, n))
  {
    hide PushCommandL, Sound;
    CommandClean(t, s, l.(pos := l.pos + n), t.functions[word], false, false);
  }

  lemma LateWordGood(t: Tables, s: string, l: Lx, word: string, n: nat)
    requires Inside(t, s, l) && 0 < n <= |s| - l.pos && word != ""
    ensures Good(t, s, l.pos, LateWordL(t, s, l, word, n))
  {
    hide PushCommandL, OpensAfter, FunctionL, Moded;
    if word in t.functions && OpensAfter(s, l.pos + n) {
      FunctionGood(t, s, l, word, n);
    } else {
      CommandClean(t, s, l.(pos := l.pos + n), "V(F", false, false);
    }
  }

  lemma DefaultWordGood(t: Tables, s: string, l: Lx)
    requires Inside(t, s, l)
    ensures Good(t, s, l.pos, DefaultWordL(t, s, l))
  {
    hide PushCommandL, CommandWordL, LateWordL, Sound, IsOperator;
    Fits(t, s, l.pos);
    var n := t.word(s, l.pos);
    var word := Cut(s, l.pos, n);
    if n > 0 {
      LateWordGood(t, s, l, word, n);
      if word in t.commands {
        CommandWordGood(t, s, l, word, n, t.commands[word].args);
        if l.pos + n < |s| { CommandClean(t, s, l.(pos := l.pos + n + 1), t.commands[word].args, false, false); }
      }
    }
  }

  lemma ExprWordGood(t: Tables, s: string, l: Lx)
    requires Inside(t, s, l)
    ensures Good(t, s, l.pos, ExprWordL(t, s, l))
  {
    hide FunctionL, Sound, OpensAfter;
    Fits(t, s, l.pos);
    var n := t.word(s, l.pos);
    var word := Cut(s, l.pos, n);
    if n > 0 && word in t.functions { FunctionGood(t, s, l, word, n); }
  }

  lemma {:induction false} FirstOperatorFits(ops: seq<Operator>, s: string, p: nat)
    ensures var op := FirstOperator(ops, s, p);
            op.Some? ==> op.value in ops && StartsAt(s, p, op.value.literal)
  {
    if ops != [] {
      FirstOperatorFits(ops[1..], s, p);
      assert forall x :: x in ops[1..] ==> x in ops;
    }
  }

  lemma {:induction false} QuotedFits(s: string, p: nat)
    requires p <= |s|
    ensures p <= Quoted(s, p).1 <= |s|
    decreases |s| - p
  {
    if p < |s| {
      if s[p] == '"' {
        if p + 1 < |s| && s[p + 1] == '"' { QuotedFits(s, p + 2); }
      } else {
        QuotedFits(s, p + 1);
      }
    }
  }

  lemma QuotedGood(t: Tables, s: string, l: Lx)
    requires Inside(t, s, l)
    ensures Good(t, s, l.pos, QuotedL(s, l))
  {
    hide Quoted, Sound;
    QuotedFits(s, l.pos + 1);
  }

  lemma TookGood(t: Tables, s: string, l: Lx, k: Kind, n: nat)
    requires Inside(t, s, l) && !k.Eof? && 0 < n <= |s| - l.pos
    ensures Good(t, s, l.pos, Took(s, l, k, n))
  {
    hide Sound;
  }

  lemma RaisedGood(t: Tables, s: string, l: Lx)
    requires Begins(t, s, l)
    ensures Good(t, s, l.pos, (LexError, l))
    ensures l.pos == |s| ==> Good(t, s, l.pos, Ends(l))
    ensures Skipped(s, l.pos) > l.pos ==> Good(t, s, l.pos, (Nothing, l.(pos := Skipped(s, l.pos))))
  {
    hide Sound, Skipped;
  }

  lemma CommonGood(t: Tables, s: string, l: Lx, statement: bool)
    requires Inside(t, s, l)
    ensures Good(t, s, l.pos, CommonL(t, s, l, statement))
  {
    hide DefaultWordL, ExprWordL, Quoted, FirstOperator, PushArrayL, Moded;
    DefaultWordGood(t, s, l);
    ExprWordGood(t, s, l);
    Fits(t, s, l.pos);
    QuotedFits(s, l.pos + 1);
    FirstOperatorFits(t.operators, s, l.pos);
    IndexGood(t, s, l);
  }

  lemma DefaultGood(t: Tables, s: string, l: Lx)
    requires Inside(t, s, l)
    ensures Good(t, s, l.pos, DefaultL(t, s, l))
  {
    hide CommonL, HashOrColonL, Skipped, Sound;
    CommonGood(t, s, l, true);
    ColonGood(t, s, l);
  }

  lemma ExprBraceGood(t: Tables, s: string, l: Lx)
    requires Inside(t, s, l)
    ensures ExprBraceL(s, l).0.Nothing? || Good(t, s, l.pos, ExprBraceL(s, l))
  {
    hide CloseBraceL, CloseWithL, Sound;
    CloseGood(t, s, l);
    WithGood(t, s, l, true, End);
  }

  lemma ExprParenGood(t: Tables, s: string, l: Lx, trackParens: bool, plainParens: bool)
    requires Inside(t, s, l)
    ensures Good(t, s, l.pos, ExprParenL(s, l, trackParens, plainParens))
  {
    hide CloseCallL, Sound;
    CloseGood(t, s, l);
  }

  lemma ExprTokenGood(t: Tables, s: string, l: Lx, trackParens: bool, plainParens: bool)
    requires Inside(t, s, l)
    ensures Good(t, s, l.pos, ExprTokenL(t, s, l, trackParens, plainParens))
  {
    hide CommonL, HashOrColonL, ExprBraceL, ExprParenL, OpenIndexL, NextL, Sound;
    ExprBraceGood(t, s, l);
    ExprParenGood(t, s, l, trackParens, plainParens);
    NextClean(t, s, l, false);
    IndexGood(t, s, l);
    ColonGood(t, s, l);
    CommonGood(t, s, l, false);
  }

  lemma ExprGood(t: Tables, s: string, l: Lx, trackParens: bool, plainParens: bool, preSkipped: bool)
    requires Begins(t, s, l)
    ensures Good(t, s, l.pos, ExprL(t, s, l, trackParens, plainParens, preSkipped))
  {
    hide ExprTokenL, Skipped, Sound;
    if l.pos < |s| { ExprTokenGood(t, s, l, trackParens, plainParens); }
  }

  lemma DirectionGood(t: Tables, s: string, l: Lx)
    requires Begins(t, s, l)
    ensures Good(t, s, l.pos, DirectionL(t, s, l))
  {
    hide ExprL, Skipped, Sound;
    var l1 := l.(pos := Skipped(s, l.pos));
    Fits(t, s, l1.pos);
    ExprGood(t, s, l1, false, false, true);
  }

  lemma NamePieceGood(t: Tables, s: string, l: Lx)
    requires Inside(t, s, l)
    ensures Good(t, s, l.pos, NamePieceL(t, s, l))
  {
    hide HashL, OpenIndexL, Sound;
    HashGood(t, s, l, Identifier);
    IndexGood(t, s, l);
    Fits(t, s, l.pos);
  }

  lemma VariableTokenGood(t: Tables, s: string, l: Lx)
    requires Inside(t, s, l)
    ensures Good(t, s, l.pos, VariableTokenL(t, s, l))
  {
    hide CloseBraceL, CloseCallL, CloseWithL, NamePieceL, NextL, Sound;
    CloseGood(t, s, l);
    NextClean(t, s, l, false);
    NextClean(t, s, NextL(l, false), false);
    WithGood(t, s, l, true, End);
    WithGood(t, s, l, false, Comma);
    NamePieceGood(t, s, l);
  }

  lemma VariableGood(t: Tables, s: string, l: Lx)
    requires Begins(t, s, l)
    ensures Good(t, s, l.pos, VariableL(t, s, l))
  {
    hide VariableTokenL, Skipped, Sound;
    if l.pos < |s| { VariableTokenGood(t, s, l); }
  }

  lemma CallHereGood(t: Tables, s: string, l: Lx)
    requires Inside(t, s, l)
    ensures Good(t, s, l.pos, CallHereL(t, s, l))
  {
    hide ExprWordL, Sound;
    var n := |l.out|;
    ExprWordGood(t, s, if n > 0 && l.out[n - 1] == Token(StringPart, "") then l.(out := l.out[..n - 1]) else l);
  }

  lemma RunGood(t: Tables, s: string, l: Lx, raw: bool)
    requires Inside(t, s, l)
    ensures Good(t, s, l.pos, RunL(s, l, raw))
  {
    hide RunEnd, RunStops, Sound;
  }

  lemma EscapeGood(t: Tables, s: string, l: Lx)
    requires Inside(t, s, l)
    ensures StartsAt(s, l.pos, "##") ==>
              Good(t, s, l.pos, (Got(Token(StringPart, "#")), l.(pos := l.pos + 2)))
  {
    hide Sound;
  }

  lemma StringTokenGood(t: Tables, s: string, l: Lx, raw: bool)
    requires Inside(t, s, l)
    ensures Good(t, s, l.pos, StringTokenL(t, s, l, raw))
  {
    hide CloseBraceL, CloseCallL, CloseWithL, CodeL, QuotedL, RunL, CallHereL, CallsHere, Good, Sound;
    EscapeGood(t, s, l);
    RunGood(t, s, l, raw);
    CallHereGood(t, s, l);
    CloseGood(t, s, l);
    WithGood(t, s, l, true, ParenRight);
    WithGood(t, s, l, true, End);
    WithGood(t, s, l, false, Comma);
    QuotedGood(t, s, l);
    CodeGood(t, s, l);
  }

  lemma StringGood(t: Tables, s: string, l: Lx, raw: bool)
    requires Begins(t, s, l)
    ensures Good(t, s, l.pos, StringL(t, s, l, raw))
  {
    hide StringTokenL, Skipped, Sound;
    if l.pos < |s| { StringTokenGood(t, s, l, raw); }
  }

  lemma ListTextGood(t: Tables, s: string, l: Lx)
    requires Inside(t, s, l)
    ensures Good(t, s, l.pos, ListTextL(t, s, l))
  {
    hide HashL, ListEnd, Sound;
    HashGood(t, s, l, StringPart);
  }

  lemma ListTokenGood(t: Tables, s: string, l: Lx)
    requires Inside(t, s, l)
    ensures Good(t, s, l.pos, ListTokenL(t, s, l))
  {
    hide CloseBraceL, CloseCallL, CloseWithL, ListTextL, QuotedL, CallHereL, CallsHere, Sound;
    CallHereGood(t, s, l);
    CloseGood(t, s, l);
    WithGood(t, s, l, true, End);
    QuotedGood(t, s, l);
    ListTextGood(t, s, l);
  }

  lemma ListGood(t: Tables, s: string, l: Lx)
    requires Begins(t, s, l)
    ensures Good(t, s, l.pos, ListL(t, s, l))
  {
    hide ListTokenL, Skipped, Sound;
    if l.pos < |s| { ListTokenGood(t, s, l); }
  }

  lemma SpecialGood(t: Tables, s: string, l: Lx, k: Kind)
    requires Begins(t, s, l) && !k.Eof?
    ensures Good(t, s, l.pos, SpecialL(t, s, l, k))
  {
    hide CloseBraceL, CloseWithL, Took, Ends, Skipped, Good, Sound;
    RaisedGood(t, s, l);
    if l.pos < |s| {
      CloseGood(t, s, l);
      WithGood(t, s, l, true, ParenRight);
      WithGood(t, s, l, true, End);
      WithGood(t, s, l, false, Comma);
      Fits(t, s, l.pos);
      if t.word(s, l.pos) > 0 { TookGood(t, s, l, k, t.word(s, l.pos)); }
    }
  }

  lemma StorageGood(t: Tables, s: string, l: Lx)
    requires Begins(t, s, l)
    ensures Good(t, s, l.pos, StorageL(t, s, l))
  {
    hide CodeL, NextL, Skipped, Sound;
    if l.pos < |s| {
      CodeGood(t, s, l);
      Fits(t, s, l.pos);
      NextClean(t, s, l.(pos := l.pos + t.word(s, l.pos)), false);
    }
  }

  lemma StretchMoves(s: string, p: nat)
    requires p < |s|
    ensures s[p] !in {'{', '}', ';'} ==> BodyEnd(s, p) > p
  {
  }

  lemma BodyGood(t: Tables, s: string, l: Lx)
    requires Begins(t, s, l) && l.ctx.mode.ZMode?
    ensures Good(t, s, l.pos, BodyL(s, l))
  {
    hide CloseWithL, NextL, BodyEnd, Sound, Bodiless;
    if l.pos < |s| {
      WithGood(t, s, l, false, End);
      NextClean(t, s, ApplyL(l, Op.Parens(-1)), false);
      StretchMoves(s, l.pos);
    }
  }

  lemma OpenParenGood(t: Tables, s: string, l: Lx, optionalLast: bool)
    requires Begins(t, s, l)
    ensures Good(t, s, l.pos, OpenParenL(s, l, optionalLast))
  {
    hide NextL, Skipped, ArgumentIsLast, Sound;
    var l0 := ApplyL(l, ToFunction);
    NextClean(t, s, l0, false);
    NextClean(t, s, NextL(l0, false), false);
  }

  lemma CloseParenGood(t: Tables, s: string, l: Lx)
    requires Begins(t, s, l)
    ensures Good(t, s, l.pos, CloseParenL(s, l)) && Good(t, s, l.pos, ParametersL(t, s, l))
  {
    hide CloseWithL, Skipped, Sound;
    Fits(t, s, l.pos);
    if l.pos < |s| {
      WithGood(t, s, l, false, ParenRight);
      WithGood(t, s, l, true, ParenRight);
    }
  }

  /** Whatever the mode. */
  lemma ScanMoves(t: Tables, s: string, l: Lx)
    requires Begins(t, s, l)
    ensures Good(t, s, l.pos, ScanL(t, s, l))
  {
    hide DefaultL, VariableL, ExprL, StringL, ListL, SpecialL, DirectionL, StorageL, BodyL, ParametersL, OpenParenL,
      CloseParenL, Sound;
    if l.pos < |s| {
      match l.ctx.mode
      case Default => DefaultGood(t, s, l);
      case VMode => VariableGood(t, s, l);
      case EMode => ExprGood(t, s, l, true, false, false);
      case SMode => StringGood(t, s, l, false);
      case RMode => StringGood(t, s, l, true);
      case LMode => ListGood(t, s, l);
      case MMode => ExprGood(t, s, l, false, true, false);
      case BMode => SpecialGood(t, s, l, Baddy);
      case IMode => SpecialGood(t, s, l, Item);
      case CMode => SpecialGood(t, s, l, Color);
      case GMode => SpecialGood(t, s, l, Gender);
      case UMode => SpecialGood(t, s, l, Carry);
      case DMode => DirectionGood(t, s, l);
      case XMode => StorageGood(t, s, l);
      case ZMode => BodyGood(t, s, l);
      case FMode => CloseParenGood(t, s, l);
      case P1Mode => OpenParenGood(t, s, l, false);
      case P2Mode => CloseParenGood(t, s, l);
      case P3Mode => OpenParenGood(t, s, l, true);
    }
  }

  lemma GoodParts(t: Tables, s: string, start: nat, r: Scan, l: Lx)
    requires Good(t, s, start, (r, l))
    ensures Clean(t, s, l) && Moves(s, r, l, start) && Fronted(t, r, l.before) && NoEof(l.out)
  {
    hide Bodiless, NoBodies, Closed;
  }

  /** What a scan adds leaves everything in order for the next one. */
  lemma DrainedBegins(t: Tables, s: string, r: Scan, l: Lx)
    requires Clean(t, s, l) && Fronted(t, r, l.before) && (r.Got? ==> !r.token.kind.Eof?)
    ensures Clean(t, s, Drained(r, l)) && Drained(r, l).before == [] && Drained(r, l).after == []
  {
    hide Bodiless, NoBodies;
    if Bodiless(t) { ClosedOn(r, l); }
  }

  lemma ClosedOn(r: Scan, l: Lx)
    requires Closed(l.out) && NoEnd(l.after)
    requires l.before == [] || (l.before == [BARE_END] && r == Got(Token(BraceRight, "}")))
    requires r.Got? ==> r.token != BARE_END
    ensures Closed(Drained(r, l).out)
  {
    var n := |l.out|;
    var mid := l.before + if r.Got? then [r.token] else [];
    var out := Drained(r, l).out;
    assert out == l.out + mid + l.after;
    forall k | 0 <= k < |out| && out[k] == BARE_END ensures k + 1 < |out| && out[k + 1].kind.BraceRight? {
      if k < n {
        assert out[k] == l.out[k];
      } else if k < n + |mid| {
        assert out[k] == mid[k - n];
      }
    }
  }

  /** Where a `}` closes the argument of a command, its terminator stands directly in front of
      it: in the tokens of any text the lexer accepts, a terminator without a character of its
      own is followed at once by a `}`. (A braced body would be closed the same way, but its
      `}` is no token.) */
  lemma {:induction false} TerminatorsInPlace(t: Tables, s: string, l: Lx)
    requires Begins(t, s, l) && Bodiless(t)
    ensures Lexed(t, s, l).Some? ==> Closed(Lexed(t, s, l).value)
    decreases |s| - l.pos
  {
    hide ScanL, Sound, Bodiless, NoBodies, Closed;
    ScanMoves(t, s, l);
    var (r, l1) := ScanL(t, s, l);
    if r.Got? && r.token.kind.Eof? {
      ClosedAtEnd(l1.out, r.token);
      assert l1.out + [] == l1.out;
    } else if !r.LexError? {
      DrainedBegins(t, s, r, l1);
      TerminatorsInPlace(t, s, Drained(r, l1));
    }
  }

  lemma ClosedAtEnd(out: seq<Token>, last: Token)
    requires Closed(out) && last.kind.Eof?
    ensures Closed(out + [last])
  {
    forall k | 0 <= k < |out + [last]| && (out + [last])[k] == BARE_END
      ensures k + 1 < |out + [last]| && (out + [last])[k + 1].kind.BraceRight?
    {
      assert k < |out| && (out + [last])[k] == out[k];
    }
  }

  /** And such a `}` does get its terminator: whatever kind of argument is open, the scan adds
      the two, in that order, and goes back to where the command was opened. */
  lemma ClosingBraceAdds(t: Tables, s: string, l: Lx)
    requires StartsAt(s, l.pos, "}") && l.before == [] && l.after == [] && l.ctx.stack != [] && CmdPops(l.ctx)
    requires l.ctx.mode in {VMode, EMode, SMode, RMode, LMode, MMode, BMode, IMode, CMode, GMode, UMode}
    requires l.ctx.literals == 0 && !InCommandCall(l.ctx)
    ensures var (r, l1) := ScanL(t, s, l);
            Drained(r, l1) == Lx(l.pos + 1, PopNext(l.ctx, true), [], [], l.out + [BARE_END, Token(BraceRight, "}")])
  {
    hide PopNext, CmdPops, InCommandCall, CommonL, HashOrColonL, NamePieceL, StartsAt;
    BraceHere(s, l.pos);
    Unfunctional(l.ctx);
    var none: seq<Token> := [];
    assert none + none == none && none + [BARE_END] == [BARE_END];
    assert ScanL(t, s, l) == CloseBraceL(l);
    assert l.out + [BARE_END] + [Token(BraceRight, "}")] + none == l.out + [BARE_END, Token(BraceRight, "}")];
  }

  lemma BraceHere(s: string, p: nat)
    requires StartsAt(s, p, "}")
    ensures p < |s| && s[p] == '}' && Skipped(s, p) == p && !StartsAt(s, p, " in ") && !StartsAt(s, p, "##")
  {
    hide StartsAt, FindText;
    CharsOf(s, p, "}");
    assert s[p + 0] == "}"[0];
    Otherwise(s, p, " in ");
    Otherwise(s, p, "##");
    Otherwise(s, p, "//");
    Otherwise(s, p, "/*");
  }

  lemma Otherwise(s: string, p: nat, w: string)
    requires p < |s| && w != "" && s[p] != w[0]
    ensures !StartsAt(s, p, w)
  {
    CharsOf(s, p, w);
  }

  lemma Unfunctional(c: Context)
    ensures CmdPops(c) ==> !FuncPops(c)
  {
  }
}

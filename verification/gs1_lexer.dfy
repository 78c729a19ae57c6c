/** The GS1 lexer as it runs (reborn_protocol/gs1/lexer.py): a position, a mode, four parallel
    stacks and three queues of tokens, changed by every scan. The tables of commands,
    functions and operators, and the word, number and message-code patterns, are
    parameters. */
module Gs1Lexer {
  import opened Gs1Syntax
  import opened Gs1Modes
  import opened Gs1Scan
  import opened Gs1Progress
  import opened Gs1Recovery

  function Zipped(states: seq<State>, modes: seq<Mode>, parens: seq<int>, literals: seq<int>): (r: seq<Saved>)
    requires |states| == |modes| == |parens| == |literals|
    ensures |r| == |states|
    ensures forall k :: 0 <= k < |states| ==> r[k] == Saved(states[k], modes[k], parens[k], literals[k])
  {
    seq(|states|, k requires 0 <= k < |states| => Saved(states[k], modes[k], parens[k], literals[k]))
  }

  lemma Within(t: Tables, s: string, l: Lx)
    requires Clean(t, s, l)
    ensures l.pos <= |s|
  {
  }

  lemma OneEnd(ts: seq<Token>, last: Token)
    requires NoEof(ts) && last.kind.Eof?
    ensures Ended(ts + [last]) && ts + [] + [last] == ts + [last]
  {
    assert forall k :: 0 <= k < |ts| ==> (ts + [last])[k] == ts[k];
  }

  lemma QuotedEnds(s: string, p: nat)
    ensures p >= |s| ==> Quoted(s, p) == ("", p)
    ensures p < |s| && s[p] == '"' && !(p + 1 < |s| && s[p + 1] == '"') ==> Quoted(s, p) == ("", p + 1)
  {
  }

  lemma OwnArguments()
    ensures Moded("(E)") && Moded("(P)") && Moded("V(F") && Moded("P")
  {
  }

  class Lexer {
    const tables: Tables
    const text: string
    var pos: nat
    var mode: Mode
    var parens: int
    var literals: int
    var states: seq<State>
    var modeStack: seq<Mode>
    var braceStack: seq<int>
    var arrayLitStack: seq<int>
    var before: seq<Token>
    var after: seq<Token>
    var out: seq<Token>
    ghost var trace: seq<Op>

    constructor (tables: Tables, source: string)
      requires Sound(tables)
      ensures Valid() && this.tables == tables && text == Normalised(source)
      ensures pos == 0 && before == [] && after == [] && out == [] && trace == []
      ensures Now() == Lx(0, Start(), [], [], [])
    {
      this.tables, text := tables, Normalised(source);
      pos, mode, parens, literals := 0, Default, 0, 0;
      states, modeStack, braceStack, arrayLitStack := [], [], [], [];
      before, after, out, trace := [], [], [], [];
    }

    /** The four stacks rise and fall together. */
    predicate Aligned()
      reads this`states, this`modeStack, this`braceStack, this`arrayLitStack
    {
      |states| == |modeStack| == |braceStack| == |arrayLitStack|
    }

    /** They are one stack of saved contexts. */
    function View(): (c: Context)
      requires Aligned()
      reads this`mode, this`parens, this`literals, this`states, this`modeStack, this`braceStack, this`arrayLitStack
      ensures |c.stack| == |states| && c.mode == mode && c.parens == parens && c.literals == literals
    {
      Context(mode, parens, literals, Zipped(states, modeStack, braceStack, arrayLitStack))
    }

    /** All of it but the record, as one value. */
    function Now(): (l: Lx)
      requires Aligned()
      reads this
      ensures l == Lx(pos, View(), before, after, out)
    {
      Lx(pos, View(), before, after, out)
    }

    /** The context is what the recorded operations lead to. */
    ghost predicate Stacked()
      reads this`mode, this`parens, this`literals, this`trace,
        this`states, this`modeStack, this`braceStack, this`arrayLitStack
      ensures Stacked() ==> Aligned() && Sound(tables)
    {
      Sound(tables) && Aligned() && View() == Play(Start(), trace) && WellModed(View())
    }

    /** Besides, the position is in the text, no end of file has been queued, and terminators
        without a character are in their places. */
    ghost predicate Valid()
      reads this
    {
      Stacked() && Clean(tables, text, Now())
    }

    /** What every scan needs and keeps. */
    ghost predicate Placed()
      reads this
    {
      Stacked() && pos <= |text|
    }

    /** In every state the lexer reaches, the mode is the default one exactly when all four
        stacks are empty. */
    lemma ModeTellsDepth()
      requires Placed()
      ensures mode.Default? <==> states == []
      ensures |states| == |modeStack| == |braceStack| == |arrayLitStack|
    {
    }

    // ---------------------------------------------------------- the stacks

    /** The last argument is done: the outer text's mode and counts come back. */
    method DropState()
      requires Aligned() && states != []
      modifies this`mode, this`parens, this`literals, this`states, this`modeStack,
        this`braceStack, this`arrayLitStack
      ensures Aligned()
      ensures var c := old(View());
              var top := c.stack[|c.stack| - 1];
              View() == Context(top.mode, top.parens, top.literals, c.stack[..|c.stack| - 1])
    {
      var n := |states| - 1;
      mode, parens, literals := modeStack[n], braceStack[n], arrayLitStack[n];
      modeStack, braceStack, arrayLitStack := modeStack[..n], braceStack[..n], arrayLitStack[..n];
      states := states[..n];
      assert View().stack == old(View()).stack[..n];
    }

    method ReplaceTop(st: State)
      requires Aligned() && states != []
      modifies this`states
      ensures Aligned()
      ensures var c := old(View());
              var n := |c.stack| - 1;
              View() == c.(stack := c.stack[..n] + [c.stack[n].(state := st)])
    {
      var n := |states| - 1;
      states := states[..n] + [st];
      assert View().stack == old(View()).stack[..n] + [old(View()).stack[n].(state := st)];
    }

    /** The next argument's mode, and the empty token some of them begin with. */
    method EnterArgument(c: char, st: State) returns (next: State)
      requires Aligned()
      modifies this`mode, this`after
      ensures Aligned() && View() == old(View()).(mode := ModeOf(c))
      ensures next == st.(commaPop := if c == 'P' then false else st.commaPop)
      ensures after == old(after) +
                if c == 'V' then [Token(Identifier, "")]
                else if c == 'S' || c == 'R' || c == 'L' then [Token(StringPart, "")]
                else if c == 'M' then [Token(RawMessageCode, "")]
                else []
    {
      mode := ModeOf(c);
      next := st;
      if c == 'V' {
        after := after + [Token(Identifier, "")];
      } else if c == 'S' || c == 'R' || c == 'L' {
        after := after + [Token(StringPart, "")];
      } else if c == 'M' {
        after := after + [Token(RawMessageCode, "")];
      } else if c == 'P' {
        next := st.(commaPop := false);
      }
    }

    /** The body of `pop_next_mode`. */
    method PopNextMode(early: bool)
      requires Aligned()
      modifies this`mode, this`parens, this`literals, this`states, this`modeStack,
        this`braceStack, this`arrayLitStack, this`after
      ensures Aligned() && View() == PopNext(old(View()), early)
      ensures after == old(after) + Emitted(old(View()), early)
    {
      hide ModeOf, View;
      if states == [] {
        return;
      }
      var st := Top();
      if early || st.arguments == "" {
        DropState();
        return;
      }
      var c := st.arguments[0];
      st := st.(arguments := st.arguments[1..]);
      if (c == 'S' || c == 'R') && (st.arguments == "" || st.arguments[0] == ')') {
        st := st.(commaPop := false);
      }
      st := EnterArgument(c, st);
      ReplaceTop(st);
    }

    ghost method Note(op: Op)
      requires Sound(tables) && Aligned() && WellModed(Play(Start(), trace)) && ModedOp(op)
      requires View() == Apply(Play(Start(), trace), op)
      modifies this`trace
      ensures Stacked() && trace == old(trace) + [op]
    {
      PlayAppends(Start(), trace, op);
      OpKeepsModes(Play(Start(), trace), op);
      trace := trace + [op];
    }

    /** pop_next_mode */
    method NextMode(early: bool)
      requires Placed()
      modifies this
      ensures Placed() && trace == old(trace) + [Next(early)] && Now() == NextL(old(Now()), early)
    {
      hide Play, WellModed, Sound, PopNext;
      PopNextMode(early);
      Note(Next(early));
    }

    /** push_command and push_array_access */
    method PushState(st: State)
      requires Placed() && Moded(st.arguments)
      modifies this
      ensures Placed() && trace == old(trace) + [Push(st)] && Now() == PushL(old(Now()), st)
    {
      hide Play, WellModed, Sound, PopNext;
      ghost var was := View();
      states := states + [st];
      modeStack := modeStack + [mode];
      braceStack := braceStack + [parens];
      parens := 0;
      arrayLitStack := arrayLitStack + [literals];
      literals := 0;
      assert View() == Pushing(was, st);
      PopNextMode(false);
      Note(Push(st));
    }

    method PushCommand(arguments: string, isMessageCode: bool, isCommandCall: bool)
      requires Placed() && Moded(arguments)
      modifies this
      ensures Placed() && Now() == PushCommandL(old(Now()), arguments, isMessageCode, isCommandCall)
      ensures trace == old(trace) + [Push(State(arguments, if isCommandCall then PopFunction else PopCommand,
                                                true, isMessageCode, isCommandCall))]
    {
      PushState(State(arguments, if isCommandCall then PopFunction else PopCommand,
                      true, isMessageCode, isCommandCall));
    }

    method PushArrayAccess()
      requires Placed()
      modifies this
      ensures Placed() && Now() == PushArrayL(old(Now()))
      ensures trace == old(trace) + [Push(State("P", PopArrayIndex, false, false, false))]
    {
      PushState(State("P", PopArrayIndex, false, false, false));
    }

    method AddParens(n: int)
      requires Placed()
      modifies this`parens, this`trace
      ensures Placed() && trace == old(trace) + [Op.Parens(n)] && Now() == ApplyL(old(Now()), Op.Parens(n))
    {
      hide Play, WellModed, Sound;
      parens := parens + n;
      Note(Op.Parens(n));
    }

    method AddLiterals(n: int)
      requires Placed()
      modifies this`literals, this`trace
      ensures Placed() && trace == old(trace) + [Op.Literals(n)] && Now() == ApplyL(old(Now()), Op.Literals(n))
    {
      hide Play, WellModed, Sound;
      literals := literals + n;
      Note(Op.Literals(n));
    }

    /** The opening parenthesis of a call: its state now ends at `)`. */
    method TopToFunction()
      requires Placed() && states != []
      modifies this`states, this`trace
      ensures Placed() && trace == old(trace) + [ToFunction] && Now() == ApplyL(old(Now()), ToFunction)
    {
      hide Play, WellModed, Sound;
      var n := |states| - 1;
      states := states[..n] + [states[n].(popMode := PopFunction)];
      Note(ToFunction);
    }

    // ---------------------------------------------------------- questions

    function Top(): (st: State)
      requires Aligned() && states != []
      reads this
      ensures st == TopOf(View())
    {
      states[|states| - 1]
    }

    predicate CanFuncPop(): (b: bool)
      requires Aligned()
      reads this
      ensures b == FuncPops(View())
    {
      states != [] && Top().popMode.PopFunction?
    }

    predicate CanCmdPop(): (b: bool)
      requires Aligned()
      reads this
      ensures b == CmdPops(View())
    {
      states == [] || Top().popMode.PopCommand?
    }

    predicate CanArrayPop(): (b: bool)
      requires Aligned()
      reads this
      ensures b == ArrayPops(View())
    {
      states != [] && Top().popMode.PopArrayIndex?
    }

    predicate CanCommaPop(): (b: bool)
      requires Aligned()
      reads this
      ensures b == CommaPops(View())
    {
      states == [] || Top().commaPop
    }

    predicate IsCommandCall(): (b: bool)
      requires Aligned()
      reads this
      ensures b == InCommandCall(View())
    {
      states != [] && Top().isCommandCall
    }

    /** Whether the scan is at its very beginning. */
    ghost predicate Ready()
      reads this
    {
      Valid() && before == [] && after == []
    }

    // ---------------------------------------------------------- shared scanning

    /** _skip_ws */
    method SkipSpace() returns (skipped: bool)
      requires Placed()
      modifies this`pos
      ensures Placed() && (skipped <==> pos > old(pos)) && Now() == old(Now()).(pos := Skipped(text, old(pos)))
    {
      hide Stacked, View, Play, WellModed, PopNext, Emitted, Pushing, Sound, Moded, OpensAfter, FindText,
        PendingTernary, RunEnd, ListEnd, Blanks, BodyEnd, Quoted, ArgumentIsLast, FirstOperator, IsOperator;
      var start := pos;
      while pos < |text|
        invariant Placed() && pos >= start && View() == old(View()) && Skipped(text, start) == Skipped(text, pos)
        decreases |text| - pos
      {
        if Space(text[pos]) {
          pos := pos + 1;
        } else if StartsAt(text, pos, "//") {
          var line := FindText(text, "\n", pos + 1);
          pos := line;
        } else if StartsAt(text, pos, "/*") {
          var end := FindText(text, "*/", pos + 2);
          pos := if end == |text| then |text| else end + 2;
        } else {
          break;
        }
      }
      skipped := pos != start;
    }

    method Take(k: Kind, n: nat) returns (r: Scan)
      requires Placed() && 0 < n <= |text| - pos
      modifies this`pos
      ensures Placed() && (r, Now()) == Took(text, old(Now()), k, n)
    {
      hide Stacked, View, Play, WellModed, PopNext, Emitted, Pushing, Sound, Moded, OpensAfter, Skipped,
        FindText, PendingTernary, RunEnd, ListEnd, Blanks, BodyEnd, Quoted, ArgumentIsLast, FirstOperator,
        IsOperator;
      r := Got(Token(k, text[pos..pos + n]));
      pos := pos + n;
    }

    method AtEnd() returns (r: Scan)
      requires Placed() && pos == |text|
      ensures (r, Now()) == Ends(Now())
    {
      r := Got(Token(Eof, ""));
    }

    function WordLength(): (n: nat)
      requires pos <= |text| && Sound(tables)
      reads this`pos
      ensures n == tables.word(text, pos) && pos + n <= |text|
    {
      tables.word(text, pos)
    }

    /** What Sound says of one word, one character and one place. */
    lemma Promised(word: string, c: char)
      requires Sound(tables) && pos <= |text|
      ensures word in tables.commands ==> Moded(tables.commands[word].args)
      ensures word in tables.functions ==> Moded(tables.functions[word])
      ensures word in tables.codes ==> Moded(tables.codes[word])
      ensures word in tables.keywords ==> !tables.keywords[word].Eof?
      ensures c in tables.punct ==> !tables.punct[c].Eof?
      ensures pos + tables.numeral(text, pos) <= |text| && pos + tables.code(text, pos) <= |text|
    {
      hide Moded;
    }

    /** _match_hash_escape */
    method HashEscape(k: Kind) returns (r: Option<Token>)
      requires Placed()
      modifies this`pos
      ensures Placed()
      ensures if StartsAt(text, old(pos), "##")
              then r == Some(Token(k, "#")) && Now() == old(Now()).(pos := old(pos) + 2)
              else r == None && Now() == old(Now())
    {
      hide Stacked, View, Play, WellModed, PopNext, Emitted, Pushing, Sound, Moded, OpensAfter, Skipped,
        FindText, PendingTernary, RunEnd, ListEnd, Blanks, BodyEnd, Quoted, ArgumentIsLast, FirstOperator,
        IsOperator;
      if !StartsAt(text, pos, "##") {
        return None;
      }
      pos := pos + 2;
      r := Some(Token(k, "#"));
    }

    /** _match_messagecode */
    method MatchMessageCode() returns (r: Option<Token>)
      requires Placed()
      modifies this
      ensures Placed()
      ensures (r, Now()) == CodeL(tables, text, old(Now()))
    {
      hide Stacked, View, Play, WellModed, PopNext, Emitted, Pushing, Sound, Moded, OpensAfter, Skipped,
        FindText, PendingTernary, RunEnd, ListEnd, Blanks, BodyEnd, Quoted, ArgumentIsLast, FirstOperator,
        IsOperator;
      OwnArguments();
      Promised(Cut(text, pos, tables.code(text, pos)), ' ');
      var n := tables.code(text, pos);
      if n == 0 {
        return None;
      }
      var code := text[pos..pos + n];
      pos := pos + n;
      var opens := pos < |text| && text[pos] == '(';
      var args := if code == "#P" then "(E)"
                  else if code in tables.codes then tables.codes[code]
                  else if opens then "(P)" else "";
      if args != "" {
        PushCommand(args, true, false);
      }
      r := Some(Token(Kind.MessageCode, code));
    }

    /** _try_real */
    method TryReal() returns (r: Option<Token>)
      requires Placed()
      modifies this`pos
      ensures Placed()
      ensures var n := tables.numeral(text, old(pos));
              if n == 0 then r == None && Now() == old(Now())
              else r.Some? && (Got(r.value), Now()) == Took(text, old(Now()), Literal, n)
    {
      hide Stacked, View, Play, WellModed, PopNext, Emitted, Pushing, Sound, Moded, OpensAfter, Skipped,
        FindText, PendingTernary, RunEnd, ListEnd, Blanks, BodyEnd, Quoted, ArgumentIsLast, FirstOperator,
        IsOperator;
      Promised("", ' ');
      var n := tables.numeral(text, pos);
      if n == 0 {
        return None;
      }
      r := Some(Token(Literal, text[pos..pos + n]));
      pos := pos + n;
    }

    /** _try_operator: the first entry of the table that the text starts with. */
    method TryOperator() returns (r: Option<Token>)
      requires Placed()
      modifies this`pos
      ensures Placed()
      ensures var op := FirstOperator(tables.operators, text, old(pos));
              if op.None? then r == None && Now() == old(Now())
              else r == Some(op.value.token) && Now() == old(Now()).(pos := old(pos) + |op.value.literal|)
    {
      hide Stacked, View, Play, WellModed, PopNext, Emitted, Pushing, Sound, Moded, OpensAfter, Skipped,
        FindText, PendingTernary, RunEnd, ListEnd, Blanks, BodyEnd, Quoted, ArgumentIsLast, IsOperator;
      for k := 0 to |tables.operators|
        invariant pos == old(pos) && Placed() && Now() == old(Now())
        invariant FirstOperator(tables.operators, text, pos) == FirstOperator(tables.operators[k..], text, pos)
      {
        var op := tables.operators[k];
        assert tables.operators[k..][0] == op && tables.operators[k..][1..] == tables.operators[k + 1..];
        if StartsAt(text, pos, op.literal) {
          pos := pos + |op.literal|;
          return Some(op.token);
        }
      }
      r := None;
    }

    /** _scan_quoted_string: a doubled quote is a quote, and an open string runs to the end. */
    method ScanQuoted() returns (r: Scan)
      requires Placed() && pos < |text|
      modifies this`pos
      ensures Placed()
      ensures (r, Now()) == QuotedL(text, old(Now()))
    {
      hide Stacked, View, Sound, Quoted;
      ghost var l0 := Now();
      pos := pos + 1;
      var content := "";
      assert content + Quoted(text, pos).0 == Quoted(text, pos).0;
      while pos < |text|
        invariant Placed() && pos > l0.pos && Now() == l0.(pos := pos)
        invariant Quoted(text, l0.pos + 1) == (content + Quoted(text, pos).0, Quoted(text, pos).1)
        decreases |text| - pos
      {
        QuotedAt(text, pos);
        ghost var had := content;
        if text[pos] == '"' {
          if pos + 1 < |text| && text[pos + 1] == '"' {
            content := content + "\"";
            pos := pos + 2;
            assert had + (['"'] + Quoted(text, pos).0) == content + Quoted(text, pos).0;
            continue;
          }
          break;
        }
        content := content + [text[pos]];
        pos := pos + 1;
        assert had + ([text[pos - 1]] + Quoted(text, pos).0) == content + Quoted(text, pos).0;
      }
      QuotedEnds(text, pos);
      assert content + "" == content;
      if pos < |text| {
        pos := pos + 1;
      }
      r := Got(Token(StringPart, content));
    }

    /** A `}` that ends the statement: its terminator comes first. */
    method CloseBrace() returns (r: Scan)
      requires Placed() && pos < |text|
      modifies this
      ensures Placed()
      ensures before == old(before) + [Token(End, "")] && r == Got(Token(BraceRight, "}"))
      ensures (r, Now()) == CloseBraceL(old(Now()))
    {
      hide Stacked, View, Play, WellModed, PopNext, Emitted, Pushing, Sound, Moded, OpensAfter, Skipped,
        FindText, PendingTernary, RunEnd, ListEnd, Blanks, BodyEnd, Quoted, ArgumentIsLast, FirstOperator,
        IsOperator;
      before := before + [Token(End, "")];
      NextMode(true);
      pos := pos + 1;
      r := Got(Token(BraceRight, "}"));
    }

    /** Any other closing character: the state goes, with the rest of its arguments when
        `early`, and the character becomes a token. */
    method CloseWith(early: bool, k: Kind) returns (r: Scan)
      requires Placed() && pos < |text|
      modifies this
      ensures Placed()
      ensures (r, Now()) == CloseWithL(text, old(Now()), early, k)
    {
      hide Stacked, View, Play, WellModed, PopNext, Emitted, Pushing, Sound, Moded, OpensAfter, Skipped,
        FindText, PendingTernary, RunEnd, ListEnd, Blanks, BodyEnd, Quoted, ArgumentIsLast, FirstOperator,
        IsOperator;
      NextMode(early);
      r := Take(k, 1);
    }

    /** The `)` of a call: the parenthesis of a command written as a call is no token. */
    method CloseCall() returns (r: Scan)
      requires Placed() && pos < |text| && states != []
      modifies this
      ensures Placed()
      ensures (r, Now()) == CloseCallL(old(Now()))
    {
      hide Stacked, View, Play, WellModed, PopNext, Emitted, Pushing, Sound, Moded, OpensAfter, Skipped,
        FindText, PendingTernary, RunEnd, ListEnd, Blanks, BodyEnd, Quoted, ArgumentIsLast, FirstOperator,
        IsOperator;
      var silent := IsCommandCall();
      NextMode(true);
      pos := pos + 1;
      r := if silent then Nothing else Got(Token(ParenRight, ")"));
    }

    // ---------------------------------------------------------- DEFAULT

    /** _default_word */
    method DefaultWord() returns (r: Scan)
      requires Placed() && pos < |text|
      modifies this
      ensures Placed()
      ensures (r, Now()) == DefaultWordL(tables, text, old(Now()))
    {
      hide Stacked, View, Play, WellModed, PopNext, Emitted, Pushing, Sound, Moded, CommandWordL, LateWordL,
        OpensAfter, Skipped, FindText, PendingTernary, RunEnd, ListEnd, Blanks, BodyEnd, Quoted,
        ArgumentIsLast, FirstOperator, IsOperator;
      Promised(Cut(text, pos, WordLength()), ' ');
      var n := WordLength();
      if n == 0 {
        r := Take(Identifier, 1);
        return;
      }
      var word := text[pos..pos + n];
      if BehindPeriod(out) {
        r := Take(PlainWord(word), n);
        return;
      }
      if BehindOperator(out) && word in tables.commands && word !in tables.functions && word !in tables.keywords {
        r := Take(Identifier, n);
        return;
      }
      if word in tables.commands {
        var c := tables.commands[word];
        if !c.needsSpace {
          r := CommandWord(word, n, c.args);
          return;
        }
        if pos + n < |text| && text[pos + n] == ' ' {
          pos := pos + n + 1;
          PushCommand(c.args, false, false);
          return Got(Token(CommandName, word));
        }
      }
      r := LateWord(word, n);
    }

    method SkipBlanks() returns (j: nat)
      requires pos <= |text|
      ensures pos <= j <= |text| && j == Blanks(text, pos)
    {
      j := pos;
      while j < |text| && (text[j] == ' ' || text[j] == '\t')
        invariant pos <= j <= |text| && Blanks(text, pos) == Blanks(text, j)
      {
        j := j + 1;
      }
    }

    /** A command that needs no space, perhaps written as a call; empty parentheses are
        passed over. */
    method CommandWord(word: string, n: nat, args: string) returns (r: Scan)
      requires Placed() && Moded(args) && 0 < n <= |text| - pos
      modifies this
      ensures Placed()
      ensures (r, Now()) == CommandWordL(text, old(Now()), word, n, args)
    {
      hide Stacked, View, Play, WellModed, PopNext, Emitted, Pushing, Sound, Moded, OpensAfter,
        Skipped, FindText, PendingTernary, RunEnd, ListEnd, BodyEnd, Quoted, ArgumentIsLast, FirstOperator,
        IsOperator, Blanks;
      pos := pos + n;
      var isCall := pos < |text| && text[pos] == '(';
      if isCall {
        pos := pos + 1;
        var j := SkipBlanks();
        if j < |text| && text[j] == ')' {
          pos := j + 1;
          isCall := false;
        }
      }
      PushCommand(args, false, isCall);
      r := Got(Token(CommandName, word));
    }

    /** A word that is no command here: a function, a keyword, a literal or a name. */
    method LateWord(word: string, n: nat) returns (r: Scan)
      requires Placed() && 0 < n <= |text| - pos
      modifies this
      ensures Placed()
      ensures (r, Now()) == LateWordL(tables, text, old(Now()), word, n)
    {
      hide Stacked, View, Play, WellModed, PopNext, Emitted, Pushing, Sound, Moded, OpensAfter,
        Skipped, FindText, PendingTernary, RunEnd, ListEnd, Blanks, BodyEnd, Quoted, ArgumentIsLast,
        FirstOperator, IsOperator;
      OwnArguments();
      Promised(word, ' ');
      if word in tables.functions && OpensAfter(text, pos + n) {
        pos := pos + n;
        PushCommand(tables.functions[word], false, false);
        return Got(Token(Kind.Function, word));
      }
      if word in tables.keywords {
        if word == "switch" && !OpensAfter(text, pos + n) {
          r := Take(Identifier, n);
          return;
        }
        var k := tables.keywords[word];
        pos := pos + n;
        if word == "function" {
          PushCommand("V(F", false, false);
        }
        return Got(Token(k, word));
      }
      r := Take(PlainWord(word), n);
    }

    /** What the default mode and the expression modes share once their own characters have
        been tried: message codes, the colon of a flag name, words, numbers, strings,
        operators, punctuation, and anything else as a name of its own. */
    method Common(statement: bool) returns (r: Scan)
      requires Placed() && pos < |text|
      modifies this
      ensures Placed()
      ensures (r, Now()) == CommonL(tables, text, old(Now()), statement)
    {
      hide Stacked, View, Play, WellModed, PopNext, Emitted, Pushing, Sound, Moded, DefaultWordL, ExprWordL,
        QuotedL, FirstOperator, OpensAfter, Skipped, FindText, PendingTernary, RunEnd, ListEnd,
        Blanks, BodyEnd, Quoted, ArgumentIsLast, IsOperator;
      Promised("", text[pos]);
      var c := text[pos];
      if tables.alpha(c) || c == '_' {
        if statement { r := DefaultWord(); } else { r := ExprWord(); }
        return;
      }
      if tables.digit(c) || (c == '.' && pos + 1 < |text| && tables.digit(text[pos + 1])) {
        var number := TryReal();
        if number.Some? { return Got(number.value); }
      }
      if c == '"' {
        r := ScanQuoted();
        return;
      }
      var op := TryOperator();
      if op.Some? { return Got(op.value); }
      if c in tables.punct {
        var k := tables.punct[c];
        if statement && c == '[' {
          PushArrayAccess();
        }
        r := Take(k, 1);
        return;
      }
      r := Take(Identifier, 1);
    }

    method HashOrColon() returns (r: Option<Token>)
      requires Placed() && pos < |text|
      modifies this
      ensures Placed()
      ensures (r, Now()) == HashOrColonL(tables, text, old(Now()))
    {
      hide Stacked, View, Play, WellModed, PopNext, Emitted, Pushing, Sound, Moded, CodeL, PendingTernary,
        OpensAfter, Skipped, FindText, RunEnd, ListEnd, Blanks, BodyEnd, Quoted, ArgumentIsLast, FirstOperator,
        IsOperator;
      if text[pos] == '#' {
        r := HashEscape(Identifier);
        if r.Some? { return; }
        r := MatchMessageCode();
        if r.Some? { return; }
      }
      if text[pos] == ':' && !PendingTernary(out) && !StartsAt(text, pos, ":=") {
        pos := pos + 1;
        return Some(Token(Identifier, ":"));
      }
      r := None;
    }

    /** _mode_DEFAULT */
    method DefaultMode() returns (r: Scan)
      requires Placed() && pos < |text|
      modifies this
      ensures Placed()
      ensures (r, Now()) == DefaultL(tables, text, old(Now()))
    {
      hide Stacked, View, Play, WellModed, PopNext, Emitted, Pushing, Sound, Moded, CommonL, HashOrColonL,
        Skipped, OpensAfter, FindText, PendingTernary, RunEnd, ListEnd, Blanks, BodyEnd, Quoted, ArgumentIsLast,
        FirstOperator, IsOperator;
      if StartsAt(text, pos, " in ") {
        r := Take(OpIn, 4);
        return;
      }
      var skipped := SkipSpace();
      if skipped { return Nothing; }
      var c := text[pos];
      var found := HashOrColon();
      if found.Some? { return Got(found.value); }
      if c == ';' { r := Take(End, 1); return; }
      if c == '}' { r := Take(BraceRight, 1); return; }
      if c == '{' { r := Take(BraceLeft, 1); return; }
      r := Common(true);
    }

    // ---------------------------------------------------------- expressions

    /** _expr_word */
    method ExprWord() returns (r: Scan)
      requires Placed() && pos < |text|
      modifies this
      ensures Placed()
      ensures (r, Now()) == ExprWordL(tables, text, old(Now()))
    {
      hide Stacked, View, Play, WellModed, PopNext, Emitted, Pushing, Sound, Moded, OpensAfter,
        Skipped, FindText, PendingTernary, RunEnd, ListEnd, Blanks, BodyEnd, Quoted, ArgumentIsLast,
        FirstOperator, IsOperator;
      Promised(Cut(text, pos, WordLength()), ' ');
      var n := WordLength();
      if n == 0 {
        r := Take(Identifier, 1);
        return;
      }
      var word := text[pos..pos + n];
      if !BehindPeriod(out) && word in tables.functions && OpensAfter(text, pos + n) {
        pos := pos + n;
        PushCommand(tables.functions[word], false, false);
        return Got(Token(Kind.Function, word));
      }
      r := Take(PlainWord(word), n);
    }

    /** _expr_mode: braces of array literals, terminators, parentheses, commas and brackets
        come first. */
    method ExprMode(trackParens: bool, plainParens: bool, preSkipped: bool) returns (r: Scan)
      requires Placed()
      modifies this
      ensures Placed()
      ensures (r, Now()) == ExprL(tables, text, old(Now()), trackParens, plainParens, preSkipped)
    {
      hide Stacked, View, Play, WellModed, PopNext, Emitted, Pushing, Sound, Moded, CommonL, HashOrColonL,
        Skipped, ExprBraceL, ExprParenL, OpenIndexL, OpensAfter, FindText, PendingTernary, RunEnd, ListEnd,
        Blanks, BodyEnd, Quoted, ArgumentIsLast, FirstOperator, IsOperator;
      if !preSkipped {
        if StartsAt(text, pos, " in ") {
          r := Take(OpIn, 4);
          return;
        }
        var skipped := SkipSpace();
        if skipped { return Nothing; }
      }
      if pos == |text| {
        r := AtEnd();
        return;
      }
      var c := text[pos];
      if c == '{' || c == '}' || c == ';' {
        var done := ExprBrace();
        if !done.Nothing? { return done; }
      } else if c == '(' || c == ')' {
        r := ExprParen(trackParens, plainParens);
        return;
      } else if c == ',' {
        if literals == 0 && CanCommaPop() {
          NextMode(false);
        }
        r := Take(Comma, 1);
        return;
      } else if c == ']' {
        if CanArrayPop() {
          NextMode(false);
        }
        r := Take(BracketRight, 1);
        return;
      } else if c == '[' {
        r := OpenIndex();
        return;
      }
      var found := HashOrColon();
      if found.Some? { return Got(found.value); }
      r := Common(false);
    }

    /** `{`, `}` and `;` in an expression; nothing when the character has no such meaning. */
    method ExprBrace() returns (r: Scan)
      requires Placed() && pos < |text| && text[pos] in {'{', '}', ';'}
      modifies this
      ensures Placed()
      ensures if r.Nothing? then pos == old(pos) && Placed() else r.Got? && !r.token.kind.Eof?
      ensures (r, Now()) == ExprBraceL(text, old(Now()))
    {
      hide Stacked, View, Play, WellModed, PopNext, Emitted, Pushing, Sound, Moded, OpensAfter, Skipped,
        FindText, PendingTernary, RunEnd, ListEnd, Blanks, BodyEnd, Quoted, ArgumentIsLast, FirstOperator,
        IsOperator;
      var c := text[pos];
      if c == '{' {
        AddLiterals(1);
        r := Take(BraceLeft, 1);
      } else if c == '}' && literals > 0 {
        AddLiterals(-1);
        r := Take(BraceRight, 1);
      } else if c == '}' && CanCmdPop() {
        r := CloseBrace();
      } else if c == ';' && CanCmdPop() {
        NextMode(true);
        r := Take(End, 1);
      } else {
        r := Nothing;
      }
    }

    method ExprParen(trackParens: bool, plainParens: bool) returns (r: Scan)
      requires Placed() && pos < |text|
      modifies this
      ensures Placed()
      ensures (r, Now()) == ExprParenL(text, old(Now()), trackParens, plainParens)
    {
      hide Stacked, View, Play, WellModed, PopNext, Emitted, Pushing, Sound, Moded, CloseCallL, OpensAfter,
        Skipped, FindText, PendingTernary, RunEnd, ListEnd, Blanks, BodyEnd, Quoted, ArgumentIsLast,
        FirstOperator, IsOperator;
      if text[pos] == '(' {
        if trackParens {
          AddParens(1);
        }
        r := Take(ParenLeft, 1);
      } else if !plainParens && literals == 0 && CanFuncPop() && parens == 0 {
        r := CloseCall();
      } else {
        if trackParens {
          AddParens(-1);
        }
        r := Take(ParenRight, 1);
      }
    }

    method OpenIndex() returns (r: Scan)
      requires Placed() && pos < |text|
      modifies this
      ensures Placed()
      ensures (r, Now()) == OpenIndexL(text, old(Now()))
    {
      hide Stacked, View, Play, WellModed, PopNext, Emitted, Pushing, Sound, Moded, OpensAfter, Skipped,
        FindText, PendingTernary, RunEnd, ListEnd, Blanks, BodyEnd, Quoted, ArgumentIsLast, FirstOperator,
        IsOperator;
      r := Take(BracketLeft, 1);
      PushArrayAccess();
    }

    /** _mode_D */
    method DirectionMode() returns (r: Scan)
      requires Placed()
      modifies this
      ensures Placed()
      ensures (r, Now()) == DirectionL(tables, text, old(Now()))
    {
      hide Stacked, View, Play, WellModed, PopNext, Emitted, Pushing, Sound, Moded, ExprL, Skipped, OpensAfter,
        FindText, PendingTernary, RunEnd, ListEnd, Blanks, BodyEnd, Quoted, ArgumentIsLast, FirstOperator,
        IsOperator;
      var _ := SkipSpace();
      if pos == |text| {
        r := AtEnd();
        return;
      }
      var n := WordLength();
      if n > 0 && text[pos..pos + n] in tables.directions {
        r := Take(Direction, n);
        return;
      }
      r := ExprMode(false, false, true);
    }

    // ---------------------------------------------------------- variables

    /** White space, or the end of the text. */
    method SkipGap() returns (r: Option<Scan>)
      requires Placed()
      modifies this`pos
      ensures Placed()
      ensures var gap := Gap(text, old(Now()));
              if gap.Some? then r.Some? && (r.value, Now()) == gap.value else r == None && Now() == old(Now())
    {
      hide Stacked, Sound, View, Skipped;
      var skipped := SkipSpace();
      if skipped { return Some(Nothing); }
      if pos == |text| { return Some(Got(Token(Eof, ""))); }
      r := None;
    }

    /** _mode_V */
    method VariableMode() returns (r: Scan)
      requires Placed()
      modifies this
      ensures Placed()
      ensures (r, Now()) == VariableL(tables, text, old(Now()))
    {
      hide Stacked, View, Play, WellModed, PopNext, Emitted, Pushing, Sound, Moded, CodeL, Skipped,
        CloseBraceL, CloseCallL, CloseWithL, OpenIndexL, OpensAfter, FindText, PendingTernary, RunEnd, ListEnd,
        Blanks, BodyEnd, Quoted, ArgumentIsLast, FirstOperator, IsOperator, Gap, NamePieceL;
      var gap := SkipGap();
      if gap.Some? { return gap.value; }
      var c := text[pos];
      if c == '}' && CanCmdPop() { r := CloseBrace(); return; }
      if c == '(' && states != [] && Top().arguments != "" && Top().arguments[0] == '(' {
        NextMode(false);
        NextMode(false);
        r := Take(ParenLeft, 1);
        return;
      }
      if c == ')' && CanFuncPop() { r := CloseCall(); return; }
      if c == ';' && CanCmdPop() { r := CloseWith(true, End); return; }
      if c == ',' { r := CloseWith(false, Comma); return; }
      r := NamePiece();
    }

    method NamePiece() returns (r: Scan)
      requires Placed() && pos < |text|
      modifies this
      ensures Placed()
      ensures (r, Now()) == NamePieceL(tables, text, old(Now()))
    {
      hide Stacked, View, Play, WellModed, PopNext, Emitted, Pushing, Sound, Moded, CodeL, OpenIndexL;
      Promised("", text[pos]);
      var c := text[pos];
      if c == '#' {
        var escaped := HashEscape(Identifier);
        if escaped.Some? { return Got(escaped.value); }
        var code := MatchMessageCode();
        if code.Some? { return Got(code.value); }
      }
      if c == '[' { r := OpenIndex(); return; }
      if c in {'*', '!', ':', '-'} { r := Take(Identifier, 1); return; }
      if c in {'|', '?', '.'} {
        r := Take(if c == '|' then Pipe else if c == '?' then Question else Period, 1);
        return;
      }
      if tables.digit(c) {
        var number := TryReal();
        if number.Some? { return Got(number.value); }
      }
      if tables.alpha(c) || c == '_' {
        var n := WordLength();
        if n > 0 {
          r := Take(PlainWord(text[pos..pos + n]), n);
          return;
        }
      }
      r := LexError;
    }

    // ---------------------------------------------------------- strings

    /** A word that calls a builtin inside a string argument of a call replaces the empty
        string the argument began with. */
    method CallInString() returns (r: Option<Scan>)
      requires Placed() && pos < |text|
      modifies this
      ensures Placed()
      ensures r.Some? <==> CallsHere(tables, text, old(Now()))
      ensures if r.Some? then (r.value, Now()) == CallHereL(tables, text, old(Now())) else Now() == old(Now())
    {
      hide Stacked, View, Play, WellModed, PopNext, Emitted, Pushing, Sound, Moded, ExprWordL, OpensAfter,
        Skipped, FindText, PendingTernary, RunEnd, ListEnd, Blanks, BodyEnd, Quoted, ArgumentIsLast,
        FirstOperator, IsOperator;
      var c := text[pos];
      if !IsCommandCall() || (!tables.alpha(c) && c != '_') {
        return None;
      }
      var n := WordLength();
      if n == 0 || text[pos..pos + n] !in tables.functions || !OpensAfter(text, pos + n) {
        return None;
      }
      if out != [] && out[|out| - 1] == Token(StringPart, "") {
        out := out[..|out| - 1];
      }
      var s := ExprWord();
      r := Some(s);
    }

    /** _string_mode */
    method StringMode(raw: bool) returns (r: Scan)
      requires Placed()
      modifies this
      ensures Placed()
      ensures (r, Now()) == StringL(tables, text, old(Now()), raw)
    {
      hide Stacked, View, Play, WellModed, PopNext, Emitted, Pushing, Sound, Moded, CodeL, Skipped,
        CloseBraceL, CloseCallL, CloseWithL, CallsHere, CallHereL, RunL, QuotedL, OpensAfter, FindText,
        PendingTernary, RunEnd, ListEnd, Blanks, BodyEnd, Quoted, ArgumentIsLast, FirstOperator, IsOperator;
      if pos == |text| {
        r := AtEnd();
        return;
      }
      if IsCommandCall() {
        var skipped := SkipSpace();
        if skipped { return Nothing; }
      }
      if !raw {
        var call := CallInString();
        if call.Some? { return call.value; }
      }
      var c := text[pos];
      if c == ')' && CanFuncPop() && parens == 0 && Top().isCommandCall { r := CloseCall(); return; }
      if c == '}' && CanCmdPop() { r := CloseBrace(); return; }
      if c == ')' && !raw && CanFuncPop() && (parens == 0 || Top().isMessageCode) {
        r := CloseWith(true, ParenRight);
        return;
      }
      if c == ';' && CanCmdPop() { r := CloseWith(true, End); return; }
      if c == ',' && CanCommaPop() { r := CloseWith(false, Comma); return; }
      if c == '"' && IsCommandCall() { r := ScanQuoted(); return; }
      var escaped := HashEscape(StringPart);
      if escaped.Some? { return Got(escaped.value); }
      if !raw && c == '#' {
        var code := MatchMessageCode();
        if code.Some? { return Got(code.value); }
      }
      r := StringRun(raw);
    }

    method RunText(raw: bool)
      requires Placed() && pos < |text|
      modifies this
      ensures Placed()
      ensures var (q, open) := RunEnd(text, old(View()), raw, old(pos), old(parens));
              Now() == old(Now()).(pos := q, ctx := old(View()).(parens := open))
    {
      hide Stacked, View, Play, WellModed, PopNext, Emitted, Pushing, Sound, Moded, RunEnd;
      var commaPop, cmdPop, funcPop := CanCommaPop(), CanCmdPop(), CanFuncPop();
      var balance := funcPop && !raw && !Top().isMessageCode;
      var call := IsCommandCall();
      ghost var start := pos;
      ghost var c0 := View();
      ghost var l0 := Now();
      assert c0.(parens := parens) == c0 && balance == Balances(c0, raw);
      while pos < |text|
        invariant Placed() && start <= pos && Now() == l0.(pos := pos, ctx := c0.(parens := parens))
        invariant RunEnd(text, c0, raw, start, c0.parens) == RunEnd(text, c0, raw, pos, parens)
        decreases |text| - pos
      {
        hide FuncPops, CmdPops, CommaPops, InCommandCall, Balances, StartsAt, Clean;
        RunAt(text, c0, raw, pos, parens);
        var c := text[pos];
        if c == '"' && call { break; }
        if (!raw && c == '#') || (raw && StartsAt(text, pos, "##")) { break; }
        if (c == '}' || c == ';') && cmdPop { break; }
        if c == ')' && !raw && funcPop {
          if !balance || parens == 0 { break; }
          AddParens(-1);
        } else if c == '(' && balance {
          AddParens(1);
        }
        if c == ',' && commaPop { break; }
        pos := pos + 1;
      }
      RunAt(text, c0, raw, pos, parens);
    }

    /** _consume_string_run: plain text up to a delimiter, and never nothing. */
    method StringRun(raw: bool) returns (r: Scan)
      requires Placed() && pos < |text|
      modifies this
      ensures Placed()
      ensures (r, Now()) == RunL(text, old(Now()), raw)
    {
      hide Stacked, View, Sound, RunEnd;
      var start := pos;
      RunText(raw);
      if pos == start {
        pos := pos + 1;
      }
      r := Got(Token(StringPart, text[start..pos]));
    }

    /** _mode_L: commas stay, each followed by an empty string. */
    method ListMode() returns (r: Scan)
      requires Placed()
      modifies this
      ensures Placed()
      ensures (r, Now()) == ListL(tables, text, old(Now()))
    {
      hide Stacked, View, Play, WellModed, PopNext, Emitted, Pushing, Sound, Moded, CodeL, Skipped,
        CloseBraceL, CloseCallL, CloseWithL, CallsHere, CallHereL, ListEnd, QuotedL, OpensAfter, FindText,
        PendingTernary, RunEnd, Blanks, BodyEnd, Quoted, ArgumentIsLast, FirstOperator, IsOperator, ListTextL;
      if pos == |text| {
        r := AtEnd();
        return;
      }
      if IsCommandCall() {
        var skipped := SkipSpace();
        if skipped { return Nothing; }
      }
      var call := CallInString();
      if call.Some? { return call.value; }
      var c := text[pos];
      if c == '}' && CanCmdPop() { r := CloseBrace(); return; }
      if c == ')' && CanFuncPop() { r := CloseCall(); return; }
      if c == ';' && CanCmdPop() { r := CloseWith(true, End); return; }
      if c == ',' {
        after := after + [Token(StringPart, "")];
        r := Take(Comma, 1);
        return;
      }
      if c == '"' && IsCommandCall() { r := ScanQuoted(); return; }
      r := ListText();
    }

    method ListText() returns (r: Scan)
      requires Placed() && pos < |text|
      modifies this
      ensures Placed()
      ensures (r, Now()) == ListTextL(tables, text, old(Now()))
    {
      hide Stacked, View, Play, WellModed, PopNext, Emitted, Pushing, Sound, Moded, CodeL, ListEnd;
      var escaped := HashEscape(StringPart);
      if escaped.Some? { return Got(escaped.value); }
      if text[pos] == '#' {
        var code := MatchMessageCode();
        if code.Some? { return Got(code.value); }
      }
      r := ListRun();
    }

    method ListRun() returns (r: Scan)
      requires Placed() && pos < |text|
      modifies this`pos
      ensures Placed()
      ensures var q := ListEnd(text, old(View()), old(pos));
              (r, Now()) == Took(text, old(Now()), StringPart, if q == old(pos) then 1 else q - old(pos))
    {
      hide Stacked, View, Play, WellModed, PopNext, Emitted, Pushing, Sound, Moded, OpensAfter, Skipped,
        FindText, PendingTernary, RunEnd, Blanks, BodyEnd, Quoted, ArgumentIsLast, FirstOperator, IsOperator;
      var start := pos;
      while pos < |text| && !(text[pos] == '#' || text[pos] == ','
                              || (text[pos] == '"' && IsCommandCall())
                              || ((text[pos] == '}' || text[pos] == ';') && CanCmdPop())
                              || (text[pos] == ')' && CanFuncPop()))
        invariant Placed() && start <= pos && View() == old(View())
        invariant ListEnd(text, View(), start) == ListEnd(text, View(), pos)
        decreases |text| - pos
      {
        pos := pos + 1;
      }
      if pos == start {
        pos := pos + 1;
      }
      r := Got(Token(StringPart, text[start..pos]));
    }

    // ---------------------------------------------------------- special arguments

    /** _special_mode */
    method SpecialMode(k: Kind) returns (r: Scan)
      requires Placed()
      modifies this
      ensures Placed()
      ensures (r, Now()) == SpecialL(tables, text, old(Now()), k)
    {
      hide Stacked, View, Play, WellModed, PopNext, Emitted, Pushing, Sound, Moded, Skipped, CloseBraceL,
        CloseWithL, OpensAfter, FindText, PendingTernary, RunEnd, ListEnd, Blanks, BodyEnd, Quoted,
        ArgumentIsLast, FirstOperator, IsOperator, Gap;
      var gap := SkipGap();
      if gap.Some? { return gap.value; }
      var c := text[pos];
      if c == '}' && CanCmdPop() { r := CloseBrace(); return; }
      if c == ')' && CanFuncPop() { r := CloseWith(true, ParenRight); return; }
      if c == ';' && CanCmdPop() { r := CloseWith(true, End); return; }
      if c == ',' { r := CloseWith(false, Comma); return; }
      var n := WordLength();
      if n == 0 { return LexError; }
      r := Take(k, n);
    }

    /** _mode_X */
    method StorageMode() returns (r: Scan)
      requires Placed()
      modifies this
      ensures Placed()
      ensures (r, Now()) == StorageL(tables, text, old(Now()))
    {
      hide Stacked, View, Play, WellModed, PopNext, Emitted, Pushing, Sound, Moded, Skipped, CodeL, OpensAfter,
        FindText, PendingTernary, RunEnd, ListEnd, Blanks, BodyEnd, Quoted, ArgumentIsLast, FirstOperator,
        IsOperator, Gap;
      var gap := SkipGap();
      if gap.Some? { return gap.value; }
      if text[pos] == '#' {
        var code := MatchMessageCode();
        if code.Some? { return Got(code.value); }
      }
      var n := WordLength();
      if n == 0 { return LexError; }
      r := Take(Identifier, n);
      NextMode(false);
    }

    /** _mode_Z: a braced body, captured as text. */
    method BodyMode() returns (r: Scan)
      requires Placed()
      modifies this
      ensures Placed()
      ensures (r, Now()) == BodyL(text, old(Now()))
    {
      hide Stacked, View, Play, WellModed, PopNext, Emitted, Pushing, Sound, Moded, CloseWithL, OpensAfter,
        Skipped, FindText, PendingTernary, RunEnd, ListEnd, Blanks, Quoted, ArgumentIsLast, FirstOperator,
        IsOperator;
      if pos == |text| {
        r := AtEnd();
        return;
      }
      var c := text[pos];
      if c == '{' && parens == 0 {
        AddParens(1);
        pos := pos + 1;
        return Nothing;
      }
      if c == ';' && parens == 0 { r := CloseWith(false, End); return; }
      if c == '}' && parens == 1 {
        AddParens(-1);
        NextMode(false);
        before := before + [Token(End, "")];
        pos := pos + 1;
        return Nothing;
      }
      if c == '{' || c == '}' || c == ';' {
        if c != ';' {
          AddParens(if c == '{' then 1 else -1);
        }
        r := Take(StringPart, 1);
        return;
      }
      var n := 0;
      while pos + n < |text| && text[pos + n] !in {'{', '}', ';'}
        invariant pos + n <= |text| && BodyEnd(text, pos) == BodyEnd(text, pos + n)
        decreases |text| - pos - n
      {
        n := n + 1;
      }
      r := Take(StringPart, if n == 0 then 1 else n);
    }

    /** check_if_next_mode_optional */
    method CheckIfNextModeOptional()
      requires Placed()
      modifies this
      ensures Placed()
      ensures var l := NextL(old(Now()), false);
              Now() == if ArgumentIsLast(text, old(pos)) then NextL(l, false) else l
    {
      hide Stacked, View, Play, WellModed, PopNext, Emitted, Pushing, Sound, Moded, OpensAfter, Skipped,
        FindText, PendingTernary, RunEnd, ListEnd, Blanks, BodyEnd, Quoted, FirstOperator, IsOperator;
      NextMode(false);
      var i := pos;
      while i < |text| && text[i] != ')' && text[i] != ','
        invariant pos <= i <= |text|
        invariant ArgumentIsLast(text, pos) == ArgumentIsLast(text, i)
      {
        i := i + 1;
      }
      if i < |text| && text[i] == ')' {
        NextMode(false);
      }
    }

    /** _mode_P1 and _mode_P3 */
    method OpenParenMode(optionalLast: bool) returns (r: Scan)
      requires Placed() && !mode.Default?
      modifies this
      ensures Placed()
      ensures (r, Now()) == OpenParenL(text, old(Now()), optionalLast)
    {
      hide Stacked, View, Play, WellModed, PopNext, Emitted, Pushing, Sound, Moded, Skipped, OpensAfter,
        FindText, PendingTernary, RunEnd, ListEnd, Blanks, BodyEnd, Quoted, ArgumentIsLast, FirstOperator,
        IsOperator, Gap;
      ModeTellsDepth();
      var gap := SkipGap();
      if gap.Some? { return gap.value; }
      if text[pos] != '(' { return LexError; }
      TopToFunction();
      if optionalLast {
        CheckIfNextModeOptional();
      } else {
        NextMode(false);
      }
      r := Take(ParenLeft, 1);
    }

    /** _mode_P2 */
    method CloseParenMode() returns (r: Scan)
      requires Placed()
      modifies this
      ensures Placed()
      ensures (r, Now()) == CloseParenL(text, old(Now()))
    {
      hide Stacked, View, Play, WellModed, PopNext, Emitted, Pushing, Sound, Moded, Skipped, CloseWithL,
        OpensAfter, FindText, PendingTernary, RunEnd, ListEnd, Blanks, BodyEnd, Quoted, ArgumentIsLast,
        FirstOperator, IsOperator, Gap;
      var gap := SkipGap();
      if gap.Some? { return gap.value; }
      if text[pos] != ')' { return LexError; }
      r := CloseWith(false, ParenRight);
    }

    /** _mode_F */
    method ParametersMode() returns (r: Scan)
      requires Placed()
      modifies this
      ensures Placed()
      ensures (r, Now()) == ParametersL(tables, text, old(Now()))
    {
      hide Stacked, View, Play, WellModed, PopNext, Emitted, Pushing, Sound, Moded, Skipped, CloseWithL,
        OpensAfter, FindText, PendingTernary, RunEnd, ListEnd, Blanks, BodyEnd, Quoted, ArgumentIsLast,
        FirstOperator, IsOperator, Gap;
      var gap := SkipGap();
      if gap.Some? { return gap.value; }
      var c := text[pos];
      if c == ')' { r := CloseWith(true, ParenRight); return; }
      if c == ',' { r := Take(Comma, 1); return; }
      if c == '.' { r := Take(Period, 1); return; }
      var n := WordLength();
      if n == 0 { return LexError; }
      r := Take(Identifier, n);
    }

    // ---------------------------------------------------------- the main loop

    /** What the mode makes of the text here. */
    method ScanMode() returns (r: Scan)
      requires Placed()
      modifies this
      ensures Placed() && (r, Now()) == ScanL(tables, text, old(Now()))
    {
      hide Stacked, Sound, View, DefaultL, VariableL, ExprL, StringL, ListL, SpecialL, DirectionL, StorageL, BodyL,
        ParametersL, OpenParenL, CloseParenL;
      if pos == |text| {
        r := AtEnd();
        return;
      }
      match mode
      case Default => r := DefaultMode();
      case VMode => r := VariableMode();
      case EMode => r := ExprMode(true, false, false);
      case SMode => r := StringMode(false);
      case RMode => r := StringMode(true);
      case LMode => r := ListMode();
      case MMode => r := ExprMode(false, true, false);
      case BMode => r := SpecialMode(Baddy);
      case IMode => r := SpecialMode(Item);
      case CMode => r := SpecialMode(Color);
      case GMode => r := SpecialMode(Gender);
      case UMode => r := SpecialMode(Carry);
      case DMode => r := DirectionMode();
      case XMode => r := StorageMode();
      case ZMode => r := BodyMode();
      case FMode => r := ParametersMode();
      case P1Mode => r := OpenParenMode(false);
      case P2Mode => r := CloseParenMode();
      case P3Mode => r := OpenParenMode(true);
    }

    /** scan_one: whatever the mode, the scan raises, consumes something, or has reached the
        end of the text. */
    method ScanOne() returns (r: Scan)
      requires Ready()
      modifies this
      ensures Stacked() && Good(tables, text, old(pos), (r, Now()))
      ensures (r, Now()) == ScanL(tables, text, old(Now()))
    {
      hide Stacked, Sound, View, ScanL, Good, Clean;
      Within(tables, text, Now());
      ScanMoves(tables, text, Now());
      r := ScanMode();
    }

    /** tokenize: it ends on every text, in an error or with a token list whose only end of
        file is its last token, which is what the parser asks for. */
    method Tokenize() returns (ok: bool)
      requires Ready() && out == []
      modifies this
      ensures ok ==> Ended(out) && pos == |text|
      ensures Lexed(tables, text, old(Now())) == if ok then Some(out) else None
      ensures ok && Bodiless(tables) ==> Closed(out)
    {
      hide Stacked, Sound, View, ScanL, Good, Clean, Fronted, NoEof, Bodiless, Closed;
      if Bodiless(tables) { TerminatorsInPlace(tables, text, Now()); }
      while true
        invariant Ready() && Lexed(tables, text, old(Now())) == Lexed(tables, text, Now())
        decreases |text| - pos
      {
        ghost var start := pos;
        Within(tables, text, Now());
        var r := ScanOne();
        if r.LexError? {
          return false;
        }
        ghost var scanned := Now();
        GoodParts(tables, text, start, r, scanned);
        Within(tables, text, scanned);
        out := out + before;
        before := [];
        if r.Got? {
          out := out + [r.token];
          if r.token.kind.Eof? {
            OneEnd(scanned.out, r.token);
            return true;
          }
        }
        assert r.Nothing? ==> out == scanned.out + scanned.before + [];
        out := out + after;
        after := [];
        DrainedBegins(tables, text, r, scanned);
        assert Now() == Drained(r, scanned);
      }
    }
  }
}

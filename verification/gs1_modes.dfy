/** The mode machine of the GS1 lexer (reborn_protocol/gs1/lexer.py): every command, function,
    message code and index that is open has a state of its own, pushed with the mode, the
    open parentheses and the open array literals of the text around it. */
module Gs1Modes {
  import opened Gs1Syntax

  datatype Mode =
    | Default
    | VMode | EMode | SMode | RMode | LMode | MMode | BMode | IMode | CMode | GMode | UMode
    | DMode | XMode | ZMode | FMode | P1Mode | P2Mode | P3Mode

  datatype PopMode = PopCommand | PopFunction | PopArrayIndex

  /** `_State` */
  datatype State = State(
    arguments: string, popMode: PopMode, commaPop: bool, isMessageCode: bool, isCommandCall: bool)

  /** `MODE_OF` */
  function ModeOf(c: char): Mode {
    if c == 'V' then VMode
    else if c == 'E' || c == 'P' then EMode
    else if c == 'S' then SMode
    else if c == 'R' then RMode
    else if c == 'L' then LMode
    else if c == 'M' then MMode
    else if c == 'B' then BMode
    else if c == 'I' then IMode
    else if c == 'C' then CMode
    else if c == 'G' then GMode
    else if c == 'U' then UMode
    else if c == 'D' then DMode
    else if c == 'X' then XMode
    else if c == 'Z' then ZMode
    else if c == '(' then P1Mode
    else if c == ')' then P2Mode
    else if c == '<' then P3Mode
    else if c == 'F' then FMode
    else Default
  }

  /** Argument strings name a mode for every argument. */
  predicate Moded(arguments: string) {
    forall k :: 0 <= k < |arguments| ==> !ModeOf(arguments[k]).Default?
  }

  /** A pushed state with what it was pushed over. */
  datatype Saved = Saved(state: State, mode: Mode, parens: int, literals: int)

  datatype Context = Context(mode: Mode, parens: int, literals: int, stack: seq<Saved>)

  function Start(): Context { Context(Default, 0, 0, []) }

  /** The top state once it has given up its first argument. */
  function Taken(st: State): State
    requires st.arguments != ""
  {
    var c, more := st.arguments[0], st.arguments[1..];
    var last := (c == 'S' || c == 'R') && (more == "" || more[0] == ')');
    st.(arguments := more, commaPop := if last || c == 'P' then false else st.commaPop)
  }

  /** `pop_next_mode`: on to the next argument's mode; after the last one the state goes, and
      everything it was pushed over comes back. */
  function PopNext(c: Context, early: bool): Context {
    if c.stack == [] then c
    else
      var n := |c.stack| - 1;
      var top := c.stack[n];
      if early || top.state.arguments == "" then Context(top.mode, top.parens, top.literals, c.stack[..n])
      else
        c.(mode := ModeOf(top.state.arguments[0]),
           stack := c.stack[..n] + [top.(state := Taken(top.state))])
  }

  /** The empty token the next argument begins with, if its mode gives it one. */
  function Emitted(c: Context, early: bool): seq<Token> {
    if c.stack == [] || early || c.stack[|c.stack| - 1].state.arguments == "" then []
    else
      var a := c.stack[|c.stack| - 1].state.arguments[0];
      if a == 'V' then [Token(Identifier, "")]
      else if a == 'S' || a == 'R' || a == 'L' then [Token(StringPart, "")]
      else if a == 'M' then [Token(RawMessageCode, "")]
      else []
  }

  function Pushing(c: Context, st: State): Context {
    Context(c.mode, 0, 0, c.stack + [Saved(st, c.mode, c.parens, c.literals)])
  }

  /** All the lexer ever does to its context. */
  datatype Op =
    | Push(st: State)
    | Next(early: bool)
    | Parens(delta: int)
    | Literals(delta: int)
    | ToFunction

  function Apply(c: Context, op: Op): Context {
    match op
    case Push(st) => PopNext(Pushing(c, st), false)
    case Next(early) => PopNext(c, early)
    case Parens(n) => c.(parens := c.parens + n)
    case Literals(n) => c.(literals := c.literals + n)
    case ToFunction =>
      if c.stack == [] then c
      else
        var n := |c.stack| - 1;
        var top := c.stack[n];
        c.(stack := c.stack[..n] + [top.(state := top.state.(popMode := PopFunction))])
  }

  function Play(c: Context, ops: seq<Op>): Context
    decreases |ops|
  {
    if ops == [] then c else Play(Apply(c, ops[0]), ops[1..])
  }

  lemma {:induction false} PlayAppends(c: Context, ops: seq<Op>, op: Op)
    ensures Play(c, ops + [op]) == Apply(Play(c, ops), op)
    decreases |ops|
  {
    if ops == [] {
      assert [op][1..] == [] && ops + [op] == [op];
    } else {
      assert (ops + [op])[1..] == ops[1..] + [op];
      PlayAppends(Apply(c, ops[0]), ops[1..], op);
    }
  }

  /** The mode is the default one exactly when nothing is open, and the same holds of every
      saved mode at its own depth. */
  predicate WellModed(c: Context) {
    && (c.mode.Default? <==> c.stack == [])
    && (forall k :: 0 <= k < |c.stack| ==> (c.stack[k].mode.Default? <==> k == 0))
    && (forall k :: 0 <= k < |c.stack| ==> Moded(c.stack[k].state.arguments))
  }

  predicate ModedOp(op: Op) { op.Push? ==> Moded(op.st.arguments) }

  lemma OpKeepsModes(c: Context, op: Op)
    requires WellModed(c) && ModedOp(op)
    ensures WellModed(Apply(c, op))
  {
    if op.Push? {
      PopKeepsModes(c, Pushing(c, op.st), false);
    } else if op.Next? {
      if c.stack != [] { PopKeepsModes(c, c, op.early); }
    }
  }

  /** Popping from a context that is well moded but perhaps for a mode not yet set. */
  lemma PopKeepsModes(was: Context, c: Context, early: bool)
    requires c.stack != [] && WellModed(was)
    requires c == was || (|c.stack| == |was.stack| + 1 && c.stack[..|was.stack|] == was.stack
                          && c.stack[|was.stack|].mode == was.mode && Moded(c.stack[|was.stack|].state.arguments))
    ensures WellModed(PopNext(c, early))
  {
    var n := |c.stack| - 1;
    forall k | 0 <= k <= n
      ensures (c.stack[k].mode.Default? <==> k == 0) && Moded(c.stack[k].state.arguments)
    {
      if c != was && k < n { assert c.stack[k] == c.stack[..n][k] == was.stack[k]; }
    }
    var top := c.stack[n].state;
    if top.arguments != "" {
      var more := Taken(top).arguments;
      forall k | 0 <= k < |more| ensures !ModeOf(more[k]).Default? { assert more[k] == top.arguments[k + 1]; }
      assert !ModeOf(top.arguments[0]).Default?;
    }
  }

  /** In every context the lexer can reach. */
  lemma {:induction false} EveryContextIsWellModed(c: Context, ops: seq<Op>)
    requires WellModed(c) && forall k :: 0 <= k < |ops| ==> ModedOp(ops[k])
    ensures WellModed(Play(c, ops))
    decreases |ops|
  {
    hide WellModed, Apply;
    if ops != [] {
      assert ModedOp(ops[0]);
      OpKeepsModes(c, ops[0]);
      EveryContextIsWellModed(Apply(c, ops[0]), ops[1..]);
    }
  }

  // ---------------------------------------------------------- the stack law

  /** The last operation closes what was open over `depth` states; before it everything
      stayed above that. */
  predicate Closes(c: Context, ops: seq<Op>, depth: nat)
    decreases |ops|
  {
    && ops != [] && |c.stack| > depth
    && var next := Apply(c, ops[0]);
       if |ops| == 1 then |next.stack| == depth else Closes(next, ops[1..], depth)
  }

  /** What is saved from `depth` on: the states below, and what the next one was pushed
      over. */
  predicate SavedOver(c: Context, was: Context) {
    var n := |was.stack|;
    |c.stack| > n && c.stack[..n] == was.stack
    && c.stack[n].mode == was.mode && c.stack[n].parens == was.parens && c.stack[n].literals == was.literals
  }

  lemma OpKeepsSaved(c: Context, was: Context, op: Op)
    requires SavedOver(c, was) && |Apply(c, op).stack| >= |was.stack|
    ensures var next := Apply(c, op);
            if |next.stack| > |was.stack| then SavedOver(next, was) else next == was
  {
    var n, next := |was.stack|, Apply(c, op);
    if op.Push? {
      var pushed := Pushing(c, op.st);
      assert pushed.stack[..n] == c.stack[..n] && pushed.stack[n] == c.stack[n];
      PopKeepsSaved(pushed, was, false);
    } else if op.Next? {
      PopKeepsSaved(c, was, op.early);
    } else if op.ToFunction? {
      assert next.stack[..n] == c.stack[..n];
    }
  }

  lemma PopKeepsSaved(c: Context, was: Context, early: bool)
    requires SavedOver(c, was)
    ensures var next := PopNext(c, early);
            if |next.stack| > |was.stack| then SavedOver(next, was) else next == was
  {
    var n, next := |was.stack|, PopNext(c, early);
    if |next.stack| > n {
      assert next.stack[..n] == c.stack[..n];
    }
  }

  /** Whatever happens while a state is open, closing it restores the context it was opened
      in: the mode, the open parentheses, the open array literals and every outer state. */
  lemma {:induction false} ClosingRestores(was: Context, c: Context, ops: seq<Op>)
    requires SavedOver(c, was) && Closes(c, ops, |was.stack|)
    ensures Play(c, ops) == was
    decreases |ops|
  {
    hide SavedOver, Apply;
    OpKeepsSaved(c, was, ops[0]);
    var next := Apply(c, ops[0]);
    if |ops| > 1 {
      StillOpen(next, ops[1..], |was.stack|);
      ClosingRestores(was, next, ops[1..]);
    } else {
      assert ops[1..] == [] && Play(next, []) == next;
    }
  }

  lemma StillOpen(c: Context, ops: seq<Op>, depth: nat)
    requires Closes(c, ops, depth)
    ensures |c.stack| > depth
  {
  }

  lemma OpeningSaves(was: Context, st: State)
    requires st.arguments != ""
    ensures SavedOver(Apply(was, Push(st)), was)
  {
    var n, next := |was.stack|, Apply(was, Push(st));
    assert next.stack[..n] == was.stack;
  }

  /** A state that has no arguments is gone as soon as it is pushed. */
  lemma NothingToRead(was: Context, st: State)
    requires st.arguments == ""
    ensures Apply(was, Push(st)) == was
  {
    assert (was.stack + [Saved(st, was.mode, was.parens, was.literals)])[..|was.stack|] == was.stack;
  }

  /** Opening a state, anything that leaves it open, and its closing cancel out. */
  lemma PushAndPopCancel(was: Context, st: State, ops: seq<Op>)
    requires st.arguments != "" && Closes(Apply(was, Push(st)), ops, |was.stack|)
    ensures Play(was, [Push(st)] + ops) == was
  {
    hide Apply;
    OpeningSaves(was, st);
    ClosingRestores(was, Apply(was, Push(st)), ops);
    assert ([Push(st)] + ops)[1..] == ops;
  }
}

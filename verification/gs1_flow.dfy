/** What GS1 statements do to the control flow, the lists, the function table and the host:
    further laws of the interpreter (reborn_protocol/gs1/interp.py). */
module Gs1Flow {
  import opened Gs1Ast
  import opened Gs1Runtime
  import opened Gs1Exec
  import opened Gs1Binding
  import opened Gs1Laws

  // ------------------------------------------------------------- break, continue, return

  /** Whatever follows `break`, `continue` or `return` in a block does not run. */
  lemma FlowCutsBlock(c: Cfg, kind: FlowKind, rest: seq<Stmt>, st: St)
    requires Tick(c, st).Some?
    ensures ExecBlock(c, [Flow(kind)] + rest, st) ==
              (Threw(if kind.BreakFlow? then BreakS else if kind.ContinueFlow? then ContinueS else ReturnS),
               Tick(c, st).value)
  {
    hide Tick;
    FlowRuns(c, kind, st);
    assert ([Flow(kind)] + rest)[0] == Flow(kind);
  }

  lemma FlowRuns(c: Cfg, kind: FlowKind, st: St)
    requires Tick(c, st).Some?
    ensures Exec(c, Flow(kind), st) ==
              (Threw(if kind.BreakFlow? then BreakS else if kind.ContinueFlow? then ContinueS else ReturnS),
               Tick(c, st).value)
  {
    hide Tick;
    assert ExecBody(c, Flow(kind), Tick(c, st).value) == ExecLeaf(c, Flow(kind), Tick(c, st).value);
  }

  /** Nothing limits this run. */
  predicate Free(c: Cfg) { c.budget == 0 && c.maxSteps.None? }

  /** How a loop goes on from the head of a round: the test, then the body. A body that ends in
      `break` ends the loop, one that ends in `continue` or by itself leads to the next round,
      and anything else leaves the loop with what it threw. */
  lemma WhileUnrolls(c: Cfg, s: Stmt, it: nat, st: St)
    requires s.While? && it < 10000 && Free(c) && Eval(c, s.test, st).0.Val?
    ensures var (r, st1) := Eval(c, s.test, st);
            var (o, st2) := ExecBlock(c, s.body, Counted(st1));
            ExecWhile(c, s, it, st) ==
              if !Holds(r.v) then (Normal, st1)
              else if o == Threw(BreakS) then (Normal, st2)
              else if o == Normal || o == Threw(ContinueS) then ExecWhile(c, s, it + 1, st2)
              else (o, st2)
  {
    hide Eval, ExecBlock;
    var (r, st1) := Eval(c, s.test, st);
    assert LoopTick(c, st1) == Some(Counted(st1));
    if Truthy(r.v) { RoundForm(c, s, it, Counted(st1)); }
  }

  lemma RoundForm(c: Cfg, s: Stmt, it: nat, st: St)
    requires s.While? && it < 10000
    ensures var (o, st1) := ExecBlock(c, s.body, st);
            WhileRound(c, s, it, st) ==
              if o == Threw(BreakS) then (Normal, st1)
              else if o == Normal || o == Threw(ContinueS) then ExecWhile(c, s, it + 1, st1)
              else (o, st1)
  {
    hide ExecBlock, ExecWhile;
  }

  /** Likewise a `for`: its post statement runs after every round that did not break, continued
      ones included, and is run to its end on the spot. Without a test every round runs. */
  lemma ForUnrolls(c: Cfg, s: Stmt, it: nat, st: St)
    requires s.For? && s.post.Some? && it < 10000 && Free(c)
    requires s.check.Some? ==> Eval(c, s.check.value, st).0.Val?
    ensures var (r, st1) := if s.check.Some? then Eval(c, s.check.value, st) else (Val(BoolV(true)), st);
            var (o, st2) := ExecBlock(c, s.body, Counted(st1));
            var (p, st3) := Exec(c, s.post.value, st2);
            var st4 := st3.(sleeps := st2.sleeps, preempts := st2.preempts);
            ExecFor(c, s, it, st) ==
              if !Holds(r.v) then (Normal, st1)
              else if o == Threw(BreakS) then (Normal, st2)
              else if !(o == Normal || o == Threw(ContinueS)) then (o, st2)
              else if p == Normal then ExecFor(c, s, it + 1, st4) else (p, st4)
  {
    hide Eval, ExecBlock, Exec;
    var (r, st1) := if s.check.Some? then Eval(c, s.check.value, st) else (Val(BoolV(true)), st);
    assert EvalCheck(c, s.check, st) == (r, st1);
    assert LoopTick(c, st1) == Some(Counted(st1));
    if Truthy(r.v) { ForRoundForm(c, s, it, Counted(st1)); }
  }

  /** A `for` without first and post statement is a `while`, and without a test too an endless
      one. */
  lemma ForIsWhile(c: Cfg, check: Option<Expr>, body: seq<Stmt>, st: St)
    ensures ExecBody(c, For(None, check, None, body), st)
            == ExecBody(c, While(if check.Some? then check.value else Bool(true), body), st)
  {
    hide ExecFor, ExecWhile;
    var s := For(None, check, None, body);
    assert ExecHook(c, s.init, st) == (Normal, st);
    RoundsAlike(c, check, body, 0, EnterLoop(st));
    assert ExecBody(c, s, st) == ExecForStmt(c, s, st);
  }

  lemma {:induction false} RoundsAlike(c: Cfg, check: Option<Expr>, body: seq<Stmt>, it: nat, st: St)
    ensures ExecFor(c, For(None, check, None, body), it, st)
            == ExecWhile(c, While(if check.Some? then check.value else Bool(true), body), it, st)
    decreases if it < 10000 then 10000 - it else 0
  {
    hide Eval, ExecBlock;
    if it < 10000 {
      var s, t := For(None, check, None, body), While(if check.Some? then check.value else Bool(true), body);
      BoolForm(c, true, st);
      var (r, st1) := Eval(c, t.test, st);
      assert EvalCheck(c, check, st) == (r, st1);
      if r.Val? && Truthy(r.v) && LoopTick(c, st1).Some? {
        var st2 := LoopTick(c, st1).value;
        var (o, st3) := ExecBlock(c, body, st2);
        RoundForm(c, t, it, st2);
        PlainRoundForm(c, s, it, st2);
        RoundsAlike(c, check, body, it + 1, st3);
      }
    }
  }

  lemma PlainRoundForm(c: Cfg, s: Stmt, it: nat, st: St)
    requires s.For? && s.post.None? && it < 10000
    ensures var (o, st1) := ExecBlock(c, s.body, st);
            ForRound(c, s, it, st) ==
              if o == Threw(BreakS) then (Normal, st1)
              else if o == Normal || o == Threw(ContinueS) then ExecFor(c, s, it + 1, st1)
              else (o, st1)
  {
    hide ExecBlock, ExecFor;
  }

  lemma ForRoundForm(c: Cfg, s: Stmt, it: nat, st: St)
    requires s.For? && s.post.Some? && it < 10000
    ensures var (o, st2) := ExecBlock(c, s.body, st);
            var (p, st3) := Exec(c, s.post.value, st2);
            var st4 := st3.(sleeps := st2.sleeps, preempts := st2.preempts);
            ForRound(c, s, it, st) ==
              if o == Threw(BreakS) then (Normal, st2)
              else if !(o == Normal || o == Threw(ContinueS)) then (o, st2)
              else if p == Normal then ExecFor(c, s, it + 1, st4) else (p, st4)
  {
    hide ExecBlock, Exec, ExecFor;
  }

  /** A loop that nothing ends is ended after ten thousand rounds: its command reaches the host
      that many times, and the script goes on. */
  lemma {:induction false} EndlessLoopEnds(c: Cfg, name: string, it: nat, st: St)
    requires Free(c) && it <= 10000
    ensures var (o, st1) := ExecWhile(c, While(Bool(true), [Command(name, [])]), it, st);
            o == Normal && |st1.core.log| == |st.core.log| + (10000 - it)
    decreases 10000 - it
  {
    hide ExecWhile, ExecBlock, Eval;
    var s := While(Bool(true), [Command(name, [])]);
    if it == 10000 {
      LoopIsOver(c, s, st);
    } else {
      BoolForm(c, true, st);
      WhileUnrolls(c, s, it, st);
      CommandRuns(c, name, Counted(st));
      EndlessLoopEnds(c, name, it + 1, ExecBlock(c, s.body, Counted(st)).1);
    }
  }

  lemma LoopIsOver(c: Cfg, s: Stmt, st: St)
    requires s.While?
    ensures ExecWhile(c, s, 10000, st) == (Normal, st)
  {
  }

  /** A command hands its arguments to the host, in order, with the present object. */
  lemma CommandRuns(c: Cfg, name: string, st: St)
    requires Free(c)
    ensures var (o, st1) := ExecBlock(c, [Command(name, [])], st);
            && o == Normal
            && st1.core == st.core.(log := st.core.log
                 + [HostCall(CallCommand, name, [], [], st.core.thisObj, st.core.heap)])
  {
    var s := Command(name, []);
    var st1 := Counted(st);
    assert Tick(c, st) == Some(st1) && EvalAll(c, [], st1) == (Vals([]), st1);
    var st2 := WithCore(st1, Ask(c.env, st1.core, CallCommand, name, [], []).1);
    assert ExecLeaf(c, s, st1) == (Normal, st2);
    assert Exec(c, s, st) == (Normal, st2) by { assert ExecBody(c, s, st1) == ExecLeaf(c, s, st1); }
    assert [s][1..] == [] && ExecBlock(c, [], st2) == (Normal, st2);
  }

  // ------------------------------------------------------------- sleep and timers

  /** `sleep n` in a coroutine asks for that delay with the context as it is, and for none if it
      is not positive; elsewhere it ends the loop around it, or does nothing. */
  lemma SleepAsks(c: Cfg, n: real, st: St)
    requires Tick(c, st).Some?
    ensures var st1 := Tick(c, st).value;
            Exec(c, Sleep([Num(n)]), st) ==
              if c.coro then (Normal, if n > 0.0 then st1.(sleeps := st1.sleeps + [(n, st1.core)]) else st1)
              else (if st.core.loopDepth > 0 then Threw(BreakS) else Normal, st1)
  {
    hide Tick;
    var s, st1 := Sleep([Num(n)]), Tick(c, st).value;
    NumForm(c, n, st1);
    assert EvalFirst(c, [Num(n)], st1) == (Val(NumV(n)), st1);
    assert ExecBody(c, s, st1) == ExecLeaf(c, s, st1);
    TickKeepsCore(c, st);
  }

  lemma TickKeepsCore(c: Cfg, st: St)
    ensures Tick(c, st).Some? ==> Tick(c, st).value.core == st.core
  {
  }

  /** `settimer(n)` is `timeout = n`: the pending sleep is erased either way. */
  lemma SetTimerIsTimeout(c: Cfg, n: real, st: St)
    requires FindFunc(st.core.functions, "settimer").None? && c.env.lower("settimer") == "settimer"
    ensures var (r, st1) := Eval(c, Call("settimer", [Num(n)]), st);
            var (x, st2) := EvalAssign(c, Assignment(Ref([PathPart("timeout", [])]), SetTo, Num(n)), st);
            r == Val(NumV(0.0)) && x == None && st1 == st2 && st1.cancelled
            && st1.core.timerWrites == st.core.timerWrites + 1
  {
    hide Eval, Store, WriteRef;
    var ref := Ref([PathPart("timeout", [])]);
    NumForm(c, n, st);
    AssignForm(c, Assignment(ref, SetTo, Num(n)), st);
    TimerForm(c, n, st);
    var st1 := TimerWritten(st);
    TimeoutStores(c, ref, NumV(n), st1);
  }

  lemma TimerForm(c: Cfg, n: real, st: St)
    requires FindFunc(st.core.functions, "settimer").None? && c.env.lower("settimer") == "settimer"
    ensures Eval(c, Call("settimer", [Num(n)]), st) == (Val(NumV(0.0)), SetTimer(c.env, st, NumV(n)))
  {
    hide SetTimer;
    NumForm(c, n, st);
    assert EvalFirst(c, [Num(n)], st) == (Val(NumV(n)), st);
    assert EvalSetTimer(c, [Num(n)], st) == (Val(NumV(0.0)), SetTimer(c.env, st, NumV(n)));
    assert EvalCall(c, "settimer", [Num(n)], st) == EvalSetTimer(c, [Num(n)], st);
  }

  lemma TimeoutStores(c: Cfg, ref: Ref, v: Value, st: St)
    requires ref == Ref([PathPart("timeout", [])])
    ensures WriteRef(c.env, st.core, (Bare, "timeout"), [], v).Some?
    ensures Store(c, ref, v, st) == (None, WithCore(st, WriteRef(c.env, st.core, (Bare, "timeout"), [], v).value))
  {
    NoIndices(c, ref.parts, st);
    OneName(PathPart("timeout", []));
    assert SlotOf(ref) == (Bare, "timeout");
  }

  // ------------------------------------------------------------- lists

  /** A list's cells: what is written at an index within it is read there, and everywhere the
      list is known; the other cells stay. An index past its end means its first cell, and a
      negative one none. */
  lemma CellsHold(core: Core, a: Slot, b: Slot, l: nat, i: int, j: int, v: Value)
    requires Lookup(core.vars, a) == Some(ListV(l)) && Lookup(core.vars, b) == Some(ListV(l))
    requires l < |core.heap| && core.heap[l] != []
    ensures var n, after := |core.heap[l]|, WriteVar(core, a, [i], v);
            && after.vars == core.vars && |after.heap| == |core.heap|
            && (forall m: nat :: m < |core.heap| && m != l ==> after.heap[m] == core.heap[m])
            && (0 <= j < n ==>
                  ReadVar(after, b, [j]) == Some(if i == j || (i >= n && j == 0) then v else core.heap[l][j]))
            && (j >= n ==> ReadVar(after, b, [j]) == ReadVar(after, b, [0]))
            && (j < 0 ==> ReadVar(after, b, [j]) == Some(NumV(0.0)))
            && (i < 0 ==> after == core)
  {
  }

  /** Indexing what is no list reads nothing and writes nothing. */
  lemma NoCells(core: Core, a: Slot, i: int, v: Value)
    requires var held := Lookup(core.vars, a); held.None? || !held.value.ListV?
    ensures ReadVar(core, a, [i]) == Some(NumV(0.0)) && WriteVar(core, a, [i], v) == core
  {
  }

  /** The ten saved numbers of an object: `this.save[i] = n` keeps the whole part of `n` between
      0 and 220, and there are no others. Reading past the last reads the first. */
  lemma SavedNumbers(env: Env, core: Core, i: int, n: int, j: int)
    requires (ThisS, "save") !in core.vars
    ensures var after := WriteRef(env, core, (ThisS, "save"), [i], NumV(n as real));
            && after.Some?
            && ReadVar(after.value, (ThisS, "save"), [j]) == Some(NumV(
                 if !(0 <= i < 10) || i != (if j >= 10 then 0 else j) || n < 0 then 0.0
                 else if n > 220 then 220.0 else n as real))
  {
    WholeTrunc(n as real, n);
  }

  // ------------------------------------------------------------- functions

  /** A definition replaces the function of its name and leaves all others. */
  lemma {:induction false} DefinitionFound(fs: seq<Func>, f: Func, name: string)
    ensures FindFunc(PutFunc(fs, f), name) == if name == f.name then Some(f) else FindFunc(fs, name)
    decreases |fs|
  {
    if fs != [] {
      if fs[0].name == f.name {
        assert ([f] + fs[1..])[1..] == fs[1..];
      } else {
        DefinitionFound(fs[1..], f, name);
        assert ([fs[0]] + PutFunc(fs[1..], f))[1..] == PutFunc(fs[1..], f);
      }
    } else {
      assert [f][1..] == [];
    }
  }

  lemma {:induction false} FoundIsNamed(fs: seq<Func>, name: string)
    ensures var r := FindFunc(fs, name);
            if r.Some? then r.value in fs && r.value.name == name else forall f :: f in fs ==> f.name != name
    decreases |fs|
  {
    if fs != [] {
      FoundIsNamed(fs[1..], name);
      assert forall f :: f in fs ==> f == fs[0] || f in fs[1..];
    }
  }

  /** Before the first statement of an event every function of the program is defined, the last
      of its name; the others stay. */
  lemma {:induction false} ProgramFunctionsDefined(program: seq<Stmt>, core: Core, name: string)
    ensures var found := FindFunc(Hoist(core, program).functions, name);
            if exists k :: Defines(program, k, name)
            then exists k :: LastDefines(program, k, name)
                   && found == Some(Func(name, program[k].params, program[k].body))
            else found == FindFunc(core.functions, name)
    decreases |program|
  {
    if program != [] {
      var next := if program[0].FuncDef? then Define(core, program[0]) else core;
      if program[0].FuncDef? {
        DefinitionFound(core.functions, Func(program[0].name, program[0].params, program[0].body), name);
      }
      ProgramFunctionsDefined(program[1..], next, name);
      var more := program[1..];
      if exists k :: Defines(more, k, name) {
        var k :| LastDefines(more, k, name)
                 && FindFunc(Hoist(next, more).functions, name) == Some(Func(name, more[k].params, more[k].body));
        assert Defines(program, k + 1, name);
        forall j | k + 1 < j < |program| ensures !Defines(program, j, name) {
          assert !Defines(more, j - 1, name);
        }
        assert LastDefines(program, k + 1, name);
      } else {
        forall j | 0 < j < |program| ensures !Defines(program, j, name) { assert !Defines(more, j - 1, name); }
        if Defines(program, 0, name) { assert LastDefines(program, 0, name); }
      }
    }
  }

  predicate Defines(program: seq<Stmt>, k: int, name: string) {
    0 <= k < |program| && program[k].FuncDef? && program[k].name == name
  }

  predicate LastDefines(program: seq<Stmt>, k: int, name: string) {
    Defines(program, k, name) && forall j :: k < j < |program| ==> !Defines(program, j, name)
  }

  /** Calls: a name that is no function does nothing, a hundred calls are the limit, and a body's
      `return` ends the call alone. */
  lemma CallsEnd(c: Cfg, name: string, args: seq<Value>, st: St)
    ensures FindFunc(st.core.functions, name).None? ==> CallUser(c, name, args, st) == (Normal, st)
    ensures FindFunc(st.core.functions, name).Some? && st.core.depth >= 100 ==>
              CallUser(c, name, args, st) == (Threw(RuntimeError(CallDepth)), st)
    ensures FindFunc(st.core.functions, name).Some? && st.core.depth < 100 ==>
              var f := FindFunc(st.core.functions, name).value;
              var o := ExecBlock(c, f.body, WithCore(st, EnterCall(st.core, name, args).core)).0;
              CallUser(c, name, args, st).0 == if o == Threw(ReturnS) then Normal else o
  {
    hide ExecBlock, Bind, Restore;
  }
}

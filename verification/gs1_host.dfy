/** What GS1 scripts and their host see of each other: names the host or the language supplies,
    calls out, texts, `with`, `switch` labels and events. */
module Gs1Host {
  import opened Gs1Ast
  import opened Gs1Runtime
  import opened Gs1Exec
  import opened Gs1Binding
  import opened Gs1Laws
  import opened Gs1Flow

  // ------------------------------------------------------------- names

  function Named(name: string): Ref { Ref([PathPart(name, [])]) }

  lemma NamedSlot(name: string)
    ensures SlotOf(Named(name)) == (Bare, name) && Unindexed(Named(name).parts)
  {
    OneName(PathPart(name, []));
  }

  lemma FetchNamed(c: Cfg, name: string, st: St)
    ensures var (v, core) := ReadRef(c.env, st.core, (Bare, name), []);
            Eval(c, VarRef(Named(name)), st) == (Val(OrZero(v)), WithCore(st, core))
  {
    hide SlotOf, EvalIndices, ReadRef;
    NamedSlot(name);
    NoIndices(c, Named(name).parts, st);
    VarForm(c, Named(name), st);
    var (v, core) := ReadRef(c.env, st.core, (Bare, name), []);
    assert Fetch(c, Named(name), st) == (Found(v), WithCore(st, core));
  }

  /** A bare name is first a constant of the language, then the event that runs, then what the
      host supplies, and only then a variable. */
  lemma BareNames(c: Cfg, name: string, st: St)
    ensures name == "pi" ==> Eval(c, VarRef(Named(name)), st) == (Val(NumV(3.141592653589793)), st)
    ensures name in {"allstats", "allfeatures"} ==> Eval(c, VarRef(Named(name)), st) == (Val(NumV(65535.0)), st)
    ensures name !in {"pi", "allstats", "allfeatures", ""} && name == st.core.activeEvent ==>
              Eval(c, VarRef(Named(name)), st) == (Val(BoolV(true)), st)
    ensures name !in {"pi", "allstats", "allfeatures"} && (name == "" || name != st.core.activeEvent) ==>
              var call := HostCall(GetBuiltin, name, [], [], st.core.thisObj, st.core.heap);
              var answer := c.env.answer(st.core.log, call);
              Eval(c, VarRef(Named(name)), st) ==
                (Val(if answer.Some? then answer.value
                     else if (Bare, name) in st.core.vars then st.core.vars[(Bare, name)] else NumV(0.0)),
                 WithCore(st, st.core.(log := st.core.log + [call])))
  {
    hide Eval;
    FetchNamed(c, name, st);
  }

  /** Assigning to a constant does nothing; any other bare name is offered to the host first. */
  lemma BareWrites(env: Env, core: Core, name: string, v: Value)
    ensures name in {"pi", "allstats", "allfeatures"} ==> WriteRef(env, core, (Bare, name), [], v) == Some(core)
    ensures name !in {"pi", "allstats", "allfeatures"} ==>
              var call := HostCall(SetBuiltin, name, [v], [], core.thisObj, core.heap);
              WriteRef(env, core, (Bare, name), [], v) ==
                Some(core.(log := core.log + [call],
                           vars := if env.answer(core.log, call).Some? then core.vars
                                   else core.vars[(Bare, name) := v]))
  {
  }

  // ------------------------------------------------------------- evaluation order and calls

  /** Arguments are evaluated left to right, each in the state the one before it left. */
  lemma LeftToRight(c: Cfg, x: Expr, es: seq<Expr>, st: St)
    requires Eval(c, x, st).0.Val?
    ensures var (r, st1) := Eval(c, x, st);
            var (rest, st2) := EvalAll(c, es, st1);
            EvalAll(c, [x] + es, st) == (if rest.Vals? then Vals([r.v] + rest.vs) else rest, st2)
  {
    hide Eval;
    assert ([x] + es)[1..] == es && ([x] + es)[0] == x;
  }

  /** And so are the two sides of an operator. */
  lemma LeftBeforeRight(c: Cfg, op: BinOp, x: Expr, y: Expr, st: St)
    requires !op.LogicAnd? && !op.LogicOr? && Eval(c, x, st).0.Val?
    ensures Eval(c, Binary(op, x, y), st).1 == Eval(c, y, Eval(c, x, st).1).1
    ensures Eval(c, y, Eval(c, x, st).1).0.Exc? ==>
              Eval(c, Binary(op, x, y), st).0 == Eval(c, y, Eval(c, x, st).1).0
  {
    hide Eval, StrictBinary;
    BinaryForm(c, op, x, y, st);
  }

  /** A call of no user function: the pure table answers, or else the host, and 0 if neither. */
  lemma LibraryAnswers(c: Cfg, name: string, args: seq<Expr>, st: St)
    requires FindFunc(st.core.functions, name).None? && c.env.lower(name) != "settimer"
    requires EvalAll(c, args, st).0.Vals?
    ensures var (r, st1) := EvalAll(c, args, st);
            var own := c.env.pure(name, r.vs, st1.core.heap);
            var call := HostCall(CallFunction, name, r.vs, [], st1.core.thisObj, st1.core.heap);
            var answer := c.env.answer(st1.core.log, call);
            Eval(c, Call(name, args), st) ==
              if own.Some? then (Val(own.value), st1)
              else (Val(if answer.Some? then answer.value else NumV(0.0)),
                    WithCore(st1, st1.core.(log := st1.core.log + [call])))
  {
    hide EvalAll;
    assert Eval(c, Call(name, args), st) == EvalCall(c, name, args, st);
    assert EvalCall(c, name, args, st) == EvalLibraryCall(c, name, args, st);
  }

  /** A user function in an expression is worth 0, and nothing it does can suspend the event. */
  lemma UserFunctionIsZero(c: Cfg, name: string, args: seq<Expr>, st: St)
    requires FindFunc(st.core.functions, name).Some? && EvalAll(c, args, st).0.Vals?
    ensures var (r, st1) := EvalAll(c, args, st);
            var (o, st2) := CallUser(c, name, r.vs, st1);
            Eval(c, Call(name, args), st) ==
              (if o.Threw? then Exc(o.signal) else Val(NumV(0.0)),
               st2.(sleeps := st.sleeps, preempts := st.preempts))
  {
    hide EvalAll, CallUser;
    assert Eval(c, Call(name, args), st) == EvalCall(c, name, args, st);
    assert EvalCall(c, name, args, st) == EvalUserCall(c, name, args, st);
  }

  // ------------------------------------------------------------- texts

  /** The pieces of a text are joined in order, each as text, and the whole is trimmed. */
  lemma PiecesJoin(c: Cfg, a: string, b: string, st: St)
    requires '=' !in c.env.strip(a + b)
    ensures Eval(c, StrConcat([Str(a), Str(b)]), st) == (Val(StrV(c.env.strip(a + b))), st)
  {
    hide Eval, ValueOf;
    var s := c.env.strip(a + b);
    PairForm(c, a, b, st);
    NotNamed(c.env, st.core, s);
  }

  lemma PairForm(c: Cfg, a: string, b: string, st: St)
    ensures Eval(c, StrConcat([Str(a), Str(b)]), st)
            == (Val(StrV(ValueOf(c.env, st.core, c.env.strip(a + b)))), st)
  {
    hide ValueOf;
    StrForm(c, a, st);
    StrForm(c, b, st);
    assert [Str(a), Str(b)][1..] == [Str(b)] && [Str(b)][1..] == [];
    assert EvalText(c, [], st) == (Text(""), st) && b + "" == b;
    assert EvalText(c, [Str(b)], st) == (Text(b), st);
    assert EvalText(c, [Str(a), Str(b)], st) == (Text(a + b), st);
    assert EvalConcat(c, [Str(a), Str(b)], st) == (Val(StrV(ValueOf(c.env, st.core, c.env.strip(a + b)))), st);
  }

  lemma NotNamed(env: Env, core: Core, s: string)
    requires '=' !in s
    ensures ValueOf(env, core, s) == s
  {
  }

  /** `scope.name=` stands for the variable's text, if it exists. */
  lemma NameStandsForText(env: Env, core: Core, scope: string, key: string)
    requires scope in Namespaces() && scope != "" && '.' !in scope && key != ""
    requires forall k :: 0 <= k < |key| ==> key[k] !in {' ', '\t', '.', '='}
    ensures var held := Lookup(core.vars, (Namespaces()[scope], key));
            ValueOf(env, core, scope + "." + key + "=")
            == if held.Some? then ToStr(env, core.heap, held.value) else scope + "." + key + "="
  {
    hide Namespaces, ToStr;
    var s, name := scope + "." + key + "=", scope + "." + key;
    Gs1Params.FindCharAt(name, '.', |scope|);
    assert s[..|s| - 1] == name && s[|s| - 1] == '=' && s[|s| - 2] == key[|key| - 1];
    assert name[..|scope|] == scope && name[|scope| + 1..] == key;
  }

  // ------------------------------------------------------------- with and switch

  /** `with` runs its body for the object its subject names, as the host sees, and goes back; any
      other value skips it. */
  lemma WithChangesObject(c: Cfg, x: Expr, body: seq<Stmt>, st: St)
    requires Eval(c, x, st).0.Val? && !(x.VarRef? && |x.ref.parts| == 1 && x.ref.parts[0].name == "this")
    ensures var (r, st1) := Eval(c, x, st);
            ExecBody(c, With(x, body), st) ==
              if !r.v.HostObject? && !r.v.ThisScopeV? then (Normal, st1)
              else
                var (o, st2) := ExecBlock(c, body, WithCore(st1, st1.core.(thisObj := r.v)));
                (o, WithCore(st2, st2.core.(thisObj := st1.core.thisObj)))
  {
    hide Eval, ExecBlock;
    assert ExecBody(c, With(x, body), st) == ExecWith(c, With(x, body), st);
  }

  /** A label matches a text whatever the case of its letters, a number within a ten-thousandth,
      and a number a text that spells it. */
  lemma LabelMatches(c: Cfg, s: string, t: string, x: real, y: real, heap: Heap)
    ensures SwitchEq(c.env, heap, StrV(s), StrV(t)) <==> c.env.lower(s) == c.env.lower(t)
    ensures SwitchEq(c.env, heap, NumV(x), NumV(y)) <==> -0.0001 < x - y < 0.0001
    ensures SwitchEq(c.env, heap, StrV(s), NumV(y)) <==> -0.0001 < c.env.parseNum(s) - y < 0.0001
    ensures SwitchEq(c.env, heap, NumV(x), StrV(t)) <==> -0.0001 < x - c.env.parseNum(t) < 0.0001
  {
  }

  /** A `switch` runs the body of its first matching case, and goes on through the bodies below
      it unless one breaks; `break` leaves the switch alone. */
  lemma SwitchRuns(c: Cfg, v: Value, g: Expr, body: seq<Stmt>, more: seq<Case>, default: Branch, st: St)
    requires Eval(c, g, st).0.Val?
    ensures var (r, st1) := Eval(c, g, st);
            var cases := [Case(g, body)] + more;
            ExecCases(c, Arms(cases, default), 0, v, st) ==
              if SwitchEq(c.env, st1.core.heap, v, r.v) then
                var (o, st2) := ExecFall(c, Arms(cases, default), 0, st1);
                (if o == Threw(BreakS) then Normal else o, st2)
              else ExecCases(c, Arms(cases, default), 1, v, st1)
  {
    hide Eval, ExecFall, SwitchEq;
    assert ([Case(g, body)] + more)[0] == Case(g, body);
  }

  // ------------------------------------------------------------- events

  /** Before an event's first statement its name is known, the word count of the last one is
      forgotten, and the program's functions are defined; nothing else changes. */
  lemma EventBegins(program: seq<Stmt>, event: string, core: Core)
    ensures var start := Prologue(program, event, core);
            && start.activeEvent == event && (Bare, "tokenscount") !in start.vars
            && (forall slot :: slot != (Bare, "tokenscount") ==> Lookup(start.vars, slot) == Lookup(core.vars, slot))
            && start == core.(activeEvent := event, vars := start.vars, functions := start.functions)
  {
    hide Hoist;
  }

  /** The function of an event is the first whose name is `on` and the event's, whatever the case
      of their letters. */
  lemma {:induction false} HandlerIsFirst(env: Env, fs: seq<Func>, want: string)
    ensures var r := FindHandler(env, fs, want);
            if r.None? then forall f :: f in fs ==> env.lower(f.name) != want
            else exists k :: 0 <= k < |fs| && fs[k] == r.value && env.lower(fs[k].name) == want
                   && forall j :: 0 <= j < k ==> env.lower(fs[j].name) != want
    decreases |fs|
  {
    if fs != [] && env.lower(fs[0].name) != want {
      HandlerIsFirst(env, fs[1..], want);
      var r := FindHandler(env, fs[1..], want);
      if r.Some? {
        var k :| 0 <= k < |fs[1..]| && fs[1..][k] == r.value && env.lower(fs[1..][k].name) == want
                 && forall j :: 0 <= j < k ==> env.lower(fs[1..][j].name) != want;
        forall j | 0 <= j < k + 1 ensures env.lower(fs[j].name) != want {
          if j > 0 { assert fs[j] == fs[1..][j - 1]; }
        }
        assert fs[k + 1] == r.value;
      } else {
        assert forall f :: f in fs ==> f == fs[0] || f in fs[1..];
      }
    }
  }

  /** Behind the program, unless it raised, the handler is called; stray control flow it ends in
      is nothing. An event without a name or without a handler is over. */
  lemma EventEndsInHandler(c: Cfg, program: seq<Stmt>, event: string, st: St)
    ensures var (o, st1) := ExecTop(c, program, st.(core := Prologue(program, event, st.core)));
            var handler := FindHandler(c.env, st1.core.functions, c.env.lower("on" + event));
            RunEvent(c, program, event, st) ==
              if o != Normal then (o, st1)
              else if event == "" || handler.None? then (Normal, st1)
              else
                var (args, core) := EventArgs(c.env, 0, |handler.value.params|, st1.core);
                var (ended, st2) := CallUser(c, handler.value.name, args, st1.(core := core));
                (if ended.Threw? && ended.signal.RuntimeError? then ended else Normal, st2)
  {
    hide ExecTop, CallUser, FindHandler, EventArgs, Prologue;
  }

  /** It is called with the texts of the event's parameters, numbered from 0. */
  lemma {:induction false} HandlerArguments(env: Env, i: nat, n: nat, core: Core, k: nat)
    requires k < n
    ensures var (args, after) := EventArgs(env, i, n, core);
            && |args| == n && |after.log| == |core.log| + n
            && after.log[|core.log| + k]
               == HostCall(ExpandCode, "#p", [NumV((i + k) as real)], [], core.thisObj, core.heap)
            && var answer := env.answer(after.log[..|core.log| + k], after.log[|core.log| + k]);
               args[k] == StrV(if answer.Some? then ToStr(env, core.heap, answer.value) else "")
    decreases n
  {
    hide ToStr;
    var call := HostCall(ExpandCode, "#p", [NumV(i as real)], [], core.thisObj, core.heap);
    var core1 := core.(log := core.log + [call]);
    ArgumentsLog(env, i + 1, n - 1, core1);
    var after := EventArgs(env, i, n, core).1;
    if k == 0 {
      assert after.log[|core.log|] == after.log[..|core1.log|][|core.log|] == call;
      assert after.log[..|core.log|] == after.log[..|core1.log|][..|core.log|] == core.log;
    } else {
      HandlerArguments(env, i + 1, n - 1, core1, k - 1);
    }
  }

  lemma {:induction false} ArgumentsLog(env: Env, i: nat, n: nat, core: Core)
    ensures var (args, after) := EventArgs(env, i, n, core);
            |args| == n && |after.log| == |core.log| + n && after.log[..|core.log|] == core.log
    decreases n
  {
    hide ToStr;
    if n > 0 {
      var core1 := core.(log := core.log
        + [HostCall(ExpandCode, "#p", [NumV(i as real)], [], core.thisObj, core.heap)]);
      ArgumentsLog(env, i + 1, n - 1, core1);
      var after := EventArgs(env, i, n, core).1;
      assert after.log[..|core.log|] == after.log[..|core1.log|][..|core.log|];
    }
  }
}

/** The statement grammar and its error recovery (parse_program to
    parse_assignment_or_expr in reborn_protocol/gs1/parser.py). Errors are the token
    positions the recorded ParseErrors point at. */
module Gs1Statements {
  import opened Gs1Syntax
  import opened Gs1Grammar

  /** An outcome and the errors recorded on the way to it. */
  datatype Result<+T> = Result(out: Outcome<T>, errs: seq<nat>)

  /** Errors come in the order of the text, between two positions. */
  predicate Within(errs: seq<nat>, i: nat, at: nat) {
    && (forall k :: 0 <= k < |errs| ==> i <= errs[k] <= at)
    && (forall j, k :: 0 <= j < k < |errs| ==> errs[j] <= errs[k])
  }

  predicate Fine<T>(t: seq<Token>, i: nat, r: Result<T>) {
    Moved(t, i, r.out.at) && (r.out.Hung? ==> LabelColon(t, r.out.at, true))
    && Within(r.errs, i, r.out.at)
  }

  // ------------------------------------------------------------- recovery

  /** _synchronize: the cursor it leaves behind, `depth` blocks being open. */
  function Sync(t: seq<Token>, i: nat, depth: nat): (at: nat)
    ensures Moved(t, i, at)
    decreases |t| - i
  {
    var k := KindAt(t, i);
    if k.Eof? then i
    else if k.BraceLeft? then Sync(t, i + 1, depth + 1)
    else if k.BraceRight? then
      if depth == 0 then i else if depth == 1 then i + 1 else Sync(t, i + 1, depth - 1)
    else if k.End? && depth == 0 then i + 1
    else Sync(t, i + 1, depth)
  }

  /** _discard_switch_body */
  function Discard(t: seq<Token>, i: nat, depth: nat): (at: nat)
    ensures Moved(t, i, at)
    decreases |t| - i
  {
    var k := KindAt(t, i);
    if depth == 0 || k.Eof? then i
    else Discard(t, i + 1, if k.BraceLeft? then depth + 1 else if k.BraceRight? then depth - 1 else depth)
  }

  /** Where the loops of parse_program and parse_block go on after an error: at least one
      token past where the statement began. */
  function Resume(t: seq<Token>, i: nat, at: nat): (next: nat)
    requires Moved(t, i, at) && !KindAt(t, i).Eof?
    ensures Moved(t, i, next) && next > i
  {
    Sync(t, if at == i then i + 1 else at, 0)
  }

  // ------------------------------------------------------------- statements

  predicate Terminates(k: Kind) { k.End? || k.Eof? || k.BraceRight? }

  predicate AtWord(t: seq<Token>, i: nat, word: string) {
    KindAt(t, i).Identifier? && TextAt(t, i) == word
  }

  predicate AssignKind(k: Kind) {
    k.OpAssign? || k.OpAssignAdd? || k.OpAssignSub? || k.OpAssignMul? || k.OpAssignDiv?
    || k.OpAssignMod? || k.OpAssignPow?
  }

  predicate SpecialKind(k: Kind) {
    k.Item? || k.Carry? || k.Direction? || k.Gender? || k.Color? || k.Baddy?
  }

  function Skip(t: seq<Token>, i: nat): (at: nat)
    ensures Moved(t, i, at)
    decreases |t| - i
  {
    if KindAt(t, i).End? then Skip(t, i + 1) else i
  }

  /** _end_statement */
  function EndStatement(t: seq<Token>, s: Stmt, i: nat): (r: Outcome<Stmt>)
    ensures Moved(t, i, r.at) && !r.Hung?
  {
    if KindAt(t, i).End? then Parsed(s, i + 1)
    else if Terminates(KindAt(t, i)) then Parsed(s, i)
    else Failed(i)
  }

  /** parse_program from `i`. */
  function Program(t: seq<Token>, body: seq<Stmt>, i: nat, recover: bool): (r: Result<seq<Stmt>>)
    ensures Fine(t, i, r)
    decreases |t| - i
  {
    var k := KindAt(t, i);
    if k.Eof? then Result(Parsed(body, i), [])
    else if k.End? || k.BraceRight? then Program(t, body, i + 1, recover)
    else
      var s := Round(t, i, recover);
      if !s.out.Parsed? then Result(s.out.Fail(), s.errs)
      else
        var rest := Program(t, body + s.out.tree, s.out.at, recover);
        Result(rest.out, s.errs + rest.errs)
  }

  /** One round of the loops of parse_program and parse_block: a statement, or in recovery
      mode the skipping of one that could not be read. */
  function Round(t: seq<Token>, i: nat, recover: bool): (r: Result<seq<Stmt>>)
    requires !KindAt(t, i).Eof?
    ensures Fine(t, i, r)
    ensures r.out.Parsed? ==> r.out.at > i
    ensures recover ==> !r.out.Failed?
    decreases |t| - i, 105
  {
    var s := Statement(t, i, recover);
    if s.out.Parsed? then Result(Parsed([s.out.tree], s.out.at), s.errs)
    else if s.out.Hung? || !recover then Result(s.out.Fail(), s.errs)
    else Result(Parsed([], Resume(t, i, s.out.at)), s.errs + [s.out.at])
  }

  /** parse_block */
  function BlockAt(t: seq<Token>, i: nat, recover: bool): (r: Result<seq<Stmt>>)
    ensures Fine(t, i, r)
    ensures r.out.Parsed? ==> r.out.at > i
    decreases |t| - i, 110
  {
    if KindAt(t, i).BraceLeft? then BlockRest(t, [], i + 1, recover)
    else
      var s := Statement(t, i, recover);
      Result(if s.out.Parsed? then Parsed([s.out.tree], s.out.at) else s.out.Fail(), s.errs)
  }

  /** The statements of a block up to its closing brace; at the end of file an unclosed
      block is let pass. */
  function BlockRest(t: seq<Token>, body: seq<Stmt>, i: nat, recover: bool): (r: Result<seq<Stmt>>)
    ensures Fine(t, i, r)
    decreases |t| - i, 120
  {
    var k := KindAt(t, i);
    if k.Eof? then Result(Parsed(body, i), [])
    else if k.BraceRight? then Result(Parsed(body, i + 1), [])
    else if k.End? then BlockRest(t, body, i + 1, recover)
    else
      var s := Round(t, i, recover);
      if !s.out.Parsed? then Result(s.out.Fail(), s.errs)
      else
        var rest := BlockRest(t, body + s.out.tree, s.out.at, recover);
        Result(rest.out, s.errs + rest.errs)
  }

  /** parse_statement */
  function Statement(t: seq<Token>, i: nat, recover: bool): (r: Result<Stmt>)
    ensures Fine(t, i, r)
    ensures r.out.Parsed? ==> r.out.at > i
    decreases |t| - i, 100
  {
    var k := KindAt(t, i);
    if k.End? then Result(Parsed(ExprStmt(None), i + 1), [])
    else if k.BraceLeft? then
      var b := BlockRest(t, [], i + 1, recover);
      Result(if b.out.Parsed? then Parsed(Block(b.out.tree), b.out.at) else b.out.Fail(), b.errs)
    else if k.KwIf? then IfTail(t, i + 1, recover)
    else if k.KwFor? then ForTail(t, i + 1, recover)
    else if k.KwWhile? then Headed(t, i + 1, k, recover)
    else if k.KwWith? then Headed(t, i + 1, k, recover)
    else if k.KwSwitch? then SwitchTail(t, i + 1, recover)
    else if k.KwFunction? then FunctionTail(t, i + 1, recover)
    else if k.KwReturn? || k.KwBreak? || k.KwContinue? then
      var called := !k.KwReturn? && KindAt(t, i + 1).ParenLeft? && KindAt(t, i + 2).ParenRight?;
      Result(EndStatement(t, Flow(k), if called then i + 3 else i + 1), [])
    else if k.CommandName? then Result(CommandTail(t, TextAt(t, i), i + 1), [])
    else Result(Simple(t, i, false), [])
  }

  /** `( expression )` from its opening parenthesis. */
  function Condition(t: seq<Token>, i: nat): (r: Outcome<Node>)
    ensures Moved(t, i, r.at) && !r.Hung?
    ensures r.Parsed? ==> r.at > i
  {
    if !KindAt(t, i).ParenLeft? then Failed(i)
    else
      var e := Parse(0, t, i + 1, false);
      if !e.Parsed? then e
      else if KindAt(t, e.at).ParenRight? then Parsed(e.tree, e.at + 1) else Failed(e.at)
  }

  /** _parse_if_tail */
  function IfTail(t: seq<Token>, i: nat, recover: bool): (r: Result<Stmt>)
    ensures Fine(t, i, r)
    decreases |t| - i, 90
  {
    var cond := Condition(t, i);
    if !cond.Parsed? then Result(cond.Fail(), [])
    else
      var b := BlockAt(t, cond.at, recover);
      if !b.out.Parsed? then Result(b.out.Fail(), b.errs)
      else
        var els := ElseTail(t, b.out.at, recover);
        Result(if els.out.Parsed? then Parsed(If(cond.tree, b.out.tree, els.out.tree), els.out.at)
               else els.out.Fail(), b.errs + els.errs)
  }

  /** Stray terminators before an else are passed over, and left alone when none follows. */
  function ElseTail(t: seq<Token>, i: nat, recover: bool): (r: Result<Branch>)
    ensures Fine(t, i, r)
    decreases |t| - i, 95
  {
    var at := Skip(t, i);
    if KindAt(t, at).KwElseIf? then
      var els := IfTail(t, at + 1, recover);
      Result(if els.out.Parsed? then Parsed(Branch([els.out.tree]), els.out.at) else els.out.Fail(), els.errs)
    else if KindAt(t, at).KwElse? then
      var els := BlockAt(t, at + 1, recover);
      Result(if els.out.Parsed? then Parsed(Branch(els.out.tree), els.out.at) else els.out.Fail(), els.errs)
    else Result(Parsed(NoBranch, i), [])
  }

  /** parse_while and parse_with after their keyword. */
  function Headed(t: seq<Token>, i: nat, k: Kind, recover: bool): (r: Result<Stmt>)
    ensures Fine(t, i, r)
    decreases |t| - i, 90
  {
    var cond := Condition(t, i);
    if !cond.Parsed? then Result(cond.Fail(), [])
    else
      var b := BlockAt(t, cond.at, recover);
      if !b.out.Parsed? then Result(b.out.Fail(), b.errs)
      else
        var s := if k.KwWhile? then While(cond.tree, b.out.tree) else With(cond.tree, b.out.tree);
        Result(Parsed(s, b.out.at), b.errs)
  }

  /** An optional part of a `for` header, absent at `stop`. */
  function ForPart(t: seq<Token>, i: nat, stop: Kind): (r: Outcome<Option<Stmt>>)
    ensures Moved(t, i, r.at) && !r.Hung?
  {
    if KindAt(t, i) == stop then Parsed(None, i)
    else
      var s := Simple(t, i, true);
      if s.Parsed? then Parsed(Some(s.tree), s.at) else s.Fail()
  }

  datatype Header = Header(init: Option<Stmt>, check: Option<Node>, post: Option<Stmt>)

  /** A `for` header from its opening parenthesis to its closing one. */
  function ForHeader(t: seq<Token>, i: nat): (r: Outcome<Header>)
    ensures Moved(t, i, r.at) && !r.Hung?
    ensures r.Parsed? ==> r.at > i
  {
    if !KindAt(t, i).ParenLeft? then Failed(i)
    else
      var init := ForInit(t, i + 1);
      if !init.Parsed? then init.Fail()
      else
        var check := ForCheck(t, init.at);
        if !check.Parsed? then check.Fail()
        else
          var post := ForEnd(t, check.at);
          if !post.Parsed? then post.Fail() else Parsed(Header(init.tree, check.tree, post.tree), post.at)
  }

  /** The first part and its terminator. */
  function ForInit(t: seq<Token>, i: nat): (r: Outcome<Option<Stmt>>)
    ensures Moved(t, i, r.at) && !r.Hung?
  {
    var init := ForPart(t, i, End);
    if !init.Parsed? then init
    else if KindAt(t, init.at).End? then Parsed(init.tree, init.at + 1) else Failed(init.at)
  }

  /** The condition and its terminator. */
  function ForCheck(t: seq<Token>, i: nat): (r: Outcome<Option<Node>>)
    ensures Moved(t, i, r.at) && !r.Hung?
  {
    if KindAt(t, i).End? then Parsed(None, i + 1)
    else
      var e := Parse(0, t, i, false);
      if !e.Parsed? then e.Fail()
      else if KindAt(t, e.at).End? then Parsed(Some(e.tree), e.at + 1) else Failed(e.at)
  }

  /** The last part and the closing parenthesis; stray terminators before it are passed
      over. */
  function ForEnd(t: seq<Token>, i: nat): (r: Outcome<Option<Stmt>>)
    ensures Moved(t, i, r.at) && !r.Hung?
  {
    var post := ForPart(t, i, ParenRight);
    if !post.Parsed? then post.Fail()
    else
      var at := Skip(t, post.at);
      if KindAt(t, at).ParenRight? then Parsed(post.tree, at + 1) else Failed(at)
  }

  /** parse_for after its keyword. */
  function ForTail(t: seq<Token>, i: nat, recover: bool): (r: Result<Stmt>)
    ensures Fine(t, i, r)
    decreases |t| - i, 90
  {
    var head := ForHeader(t, i);
    if !head.Parsed? then Result(head.Fail(), [])
    else
      var b := BlockAt(t, head.at, recover);
      if !b.out.Parsed? then Result(b.out.Fail(), b.errs)
      else
        var h := head.tree;
        Result(Parsed(For(h.init, h.check, h.post, b.out.tree), b.out.at), b.errs)
  }

  datatype Arms = Arms(cases: seq<Case>, default: Branch)

  /** parse_switch after its keyword: a body that cannot be read is thrown away up to the
      brace that closes it, and the switch kept without arms. */
  function SwitchTail(t: seq<Token>, i: nat, recover: bool): (r: Result<Stmt>)
    ensures Fine(t, i, r)
    decreases |t| - i, 90
  {
    var value := Condition(t, i);
    if !value.Parsed? then Result(value.Fail(), [])
    else if !KindAt(t, value.at).BraceLeft? then Result(Failed(value.at), [])
    else
      var arms := SwitchArms(t, Arms([], NoBranch), value.at + 1, recover);
      if arms.out.Hung? || (arms.out.Failed? && !recover) then Result(arms.out.Fail(), arms.errs)
      else if arms.out.Failed? then
        Result(Parsed(Switch(value.tree, [], NoBranch), Discard(t, arms.out.at, 1)), arms.errs + [arms.out.at])
      else if !KindAt(t, arms.out.at).BraceRight? then Result(Failed(arms.out.at), arms.errs)
      else
        var a := arms.out.tree;
        Result(Parsed(Switch(value.tree, a.cases, a.default), arms.out.at + 1), arms.errs)
  }

  /** _case_colon */
  function CaseColon(t: seq<Token>, i: nat): (r: Outcome<()>)
    ensures Moved(t, i, r.at) && !r.Hung?
    ensures r.Parsed? ==> r.at > i
  {
    if KindAt(t, i).Colon? || AtWord(t, i, ":") then Parsed((), i + 1) else Failed(i)
  }

  function SwitchArms(t: seq<Token>, arms: Arms, i: nat, recover: bool): (r: Result<Arms>)
    ensures Fine(t, i, r)
    decreases |t| - i, 130
  {
    var k := KindAt(t, i);
    if k.Eof? || k.BraceRight? then Result(Parsed(arms, i), [])
    else if k.End? then SwitchArms(t, arms, i + 1, recover)
    else if !AtWord(t, i, "case") && !AtWord(t, i, "default") then Result(Failed(i), [])
    else
      var guard := if AtWord(t, i, "case") then Parse(0, t, i + 1, true) else Parsed(Str(""), i + 1);
      if !guard.Parsed? then Result(guard.Fail(), [])
      else
        var colon := CaseColon(t, guard.at);
        if !colon.Parsed? then Result(colon.Fail(), [])
        else
          var body := CaseBody(t, [], colon.at, recover);
          if !body.out.Parsed? then Result(body.out.Fail(), body.errs)
          else
            var more := if AtWord(t, i, "case") then arms.(cases := arms.cases + [Case(guard.tree, body.out.tree)])
                        else arms.(default := Branch(body.out.tree));
            var rest := SwitchArms(t, more, body.out.at, recover);
            Result(rest.out, body.errs + rest.errs)
  }

  /** _parse_case_body */
  function CaseBody(t: seq<Token>, body: seq<Stmt>, i: nat, recover: bool): (r: Result<seq<Stmt>>)
    ensures Fine(t, i, r)
    decreases |t| - i, 120
  {
    var k := KindAt(t, i);
    if k.Eof? || k.BraceRight? || AtWord(t, i, "case") || AtWord(t, i, "default") then
      Result(Parsed(body, i), [])
    else if k.End? then CaseBody(t, body, i + 1, recover)
    else
      var s := Statement(t, i, recover);
      if !s.out.Parsed? then Result(s.out.Fail(), s.errs)
      else
        var rest := CaseBody(t, body + [s.out.tree], s.out.at, recover);
        Result(rest.out, s.errs + rest.errs)
  }

  /** parse_funcdef after its keyword. */
  function FunctionTail(t: seq<Token>, i: nat, recover: bool): (r: Result<Stmt>)
    ensures Fine(t, i, r)
    decreases |t| - i, 90
  {
    var name := PathPart(t, i, false);
    if !name.Parsed? then Result(name.Fail(), [])
    else if !KindAt(t, name.at).ParenLeft? then Result(Failed(name.at), [])
    else
      var params := if KindAt(t, name.at + 1).ParenRight? then Parsed([], name.at + 2)
                    else Parameters(t, [], name.at + 1);
      if !params.Parsed? then Result(params.Fail(), [])
      else
        var b := BlockAt(t, params.at, recover);
        if !b.out.Parsed? then Result(b.out.Fail(), b.errs)
        else Result(Parsed(FuncDef(name.tree.name, b.out.tree, params.tree), b.out.at), b.errs)
  }

  function Dotted(parts: seq<Part>): string
    requires parts != []
  {
    if |parts| == 1 then parts[0].name else parts[0].name + "." + Dotted(parts[1..])
  }

  /** Parameter names up to and over the closing parenthesis. */
  function Parameters(t: seq<Token>, names: seq<string>, i: nat): (r: Outcome<seq<string>>)
    ensures Moved(t, i, r.at) && !r.Hung?
    ensures r.Parsed? ==> r.at > i
    decreases |t| - i
  {
    var path := Path(t, i, false);
    if !path.Parsed? then path.Fail()
    else if exists k :: 0 <= k < |path.tree| && (path.tree[k].index != [] || path.tree[k].name == "") then
      Failed(path.at)
    else
      var more := names + [Dotted(path.tree)];
      if KindAt(t, path.at).Comma? then Parameters(t, more, path.at + 1)
      else if KindAt(t, path.at).ParenRight? then Parsed(more, path.at + 1)
      else Failed(path.at)
  }

  /** parse_command after its name. */
  function CommandTail(t: seq<Token>, name: string, i: nat): (r: Outcome<Stmt>)
    ensures Moved(t, i, r.at) && !r.Hung?
  {
    if Terminates(KindAt(t, i)) then EndStatement(t, Command(name, []), i)
    else
      var args := CommandArgs(t, [], i);
      if !args.Parsed? then args.Fail() else EndStatement(t, Command(name, args.tree), args.at)
  }

  function CommandArgs(t: seq<Token>, args: seq<Node>, i: nat): (r: Outcome<seq<Node>>)
    ensures Moved(t, i, r.at) && !r.Hung?
    decreases |t| - i
  {
    var k := KindAt(t, i);
    var e := if k.Comma? || Terminates(k) then Parsed(Str(""), i)
             else if SpecialKind(k) then Parsed(SpecialLit(k, TextAt(t, i)), i + 1)
             else Parse(0, t, i, false);
    if !e.Parsed? then e.Fail()
    else if KindAt(t, e.at).Comma? then CommandArgs(t, args + [e.tree], e.at + 1)
    else Parsed(args + [e.tree], e.at)
  }

  // --------------------------------------------------------- simple statements

  /** parse_assignment_or_expr: an assignment if a path and an assignment operator are
      there, else a call that is the whole statement, else an expression. */
  function Simple(t: seq<Token>, i: nat, bare: bool): (r: Outcome<Stmt>)
    ensures Moved(t, i, r.at) && !r.Hung?
    ensures r.Parsed? ==> r.at > i
  {
    var path := Path(t, i, false);
    if KindAt(t, i).Identifier? && path.Parsed? && AssignKind(KindAt(t, path.at)) then
      AssignTail(t, VarRef(path.tree), path.at, bare)
    else
      var args := Args(t, i + 2, false);
      if KindAt(t, i).Identifier? && TextAt(t, i) != "" && KindAt(t, i + 1).ParenLeft?
         && args.Parsed? && Terminates(KindAt(t, args.at)) then
        var call := UserCall(TextAt(t, i), args.tree);
        if bare then Parsed(call, args.at) else EndStatement(t, call, args.at)
      else
        var e := Listed(t, i);
        if !e.Parsed? then e.Fail()
        else if bare then Parsed(ExprStmt(Some(e.tree)), e.at)
        else EndStatement(t, ExprStmt(Some(e.tree)), e.at)
  }

  /** A comma list of expressions; the last one stands. */
  function Listed(t: seq<Token>, i: nat): (r: Outcome<Node>)
    ensures Moved(t, i, r.at) && !r.Hung?
    ensures r.Parsed? ==> r.at > i
    decreases |t| - i
  {
    var e := Parse(0, t, i, false);
    if e.Parsed? && KindAt(t, e.at).Comma? then Listed(t, e.at + 1) else e
  }

  /** From the assignment operator; `a = b = c` gives every target the last value. */
  function AssignTail(t: seq<Token>, target: Node, i: nat, bare: bool): (r: Outcome<Stmt>)
    requires AssignKind(KindAt(t, i))
    ensures Moved(t, i, r.at) && !r.Hung?
    ensures r.Parsed? ==> r.at > i
  {
    var op := TextAt(t, i);
    var (extra, at) := if op == "=" then Targets(t, [], i + 1) else ([], i + 1);
    var e := Parse(0, t, at, false);
    if !e.Parsed? then e.Fail()
    else
      var s := Assign(target, op, Chained(extra, e.tree));
      if bare || (s.value.ArrayLit? && !KindAt(t, e.at).End?) then Parsed(s, e.at)
      else EndStatement(t, s, e.at)
  }

  function Targets(t: seq<Token>, extra: seq<Node>, i: nat): (r: (seq<Node>, nat))
    ensures Moved(t, i, r.1)
    decreases |t| - i
  {
    var path := Path(t, i, false);
    if KindAt(t, i).Identifier? && path.Parsed? && KindAt(t, path.at).OpAssign? then
      Targets(t, extra + [VarRef(path.tree)], path.at + 1)
    else (extra, i)
  }

  function Chained(extra: seq<Node>, value: Node): Node {
    if extra == [] then value else AssignNode(extra[0], "=", Chained(extra[1..], value))
  }
}

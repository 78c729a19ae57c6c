/** The GS1 parser as it runs (class Parser in reborn_protocol/gs1/parser.py): a cursor that
    moves and rewinds, loops that build the tree, and a list of recorded errors, against the
    grammar. */
module Gs1Parser {
  import opened Gs1Syntax
  import opened Gs1Grammar
  import opened Gs1Statements

  lemma ProgramAt(t: seq<Token>, body: seq<Stmt>, i: nat, recover: bool)
    ensures var k, r := KindAt(t, i), Program(t, body, i, recover);
            if k.Eof? then r == Result(Parsed(body, i), [])
            else if k.End? || k.BraceRight? then r == Program(t, body, i + 1, recover)
            else
              var s := Round(t, i, recover);
              if !s.out.Parsed? then r == Result(s.out.Fail(), s.errs)
              else
                var rest := Program(t, body + s.out.tree, s.out.at, recover);
                r == Result(rest.out, s.errs + rest.errs)
  {
    hide Round;
  }

  lemma BlockRestAt(t: seq<Token>, body: seq<Stmt>, i: nat, recover: bool)
    ensures var k, r := KindAt(t, i), BlockRest(t, body, i, recover);
            if k.Eof? then r == Result(Parsed(body, i), [])
            else if k.BraceRight? then r == Result(Parsed(body, i + 1), [])
            else if k.End? then r == BlockRest(t, body, i + 1, recover)
            else
              var s := Round(t, i, recover);
              if !s.out.Parsed? then r == Result(s.out.Fail(), s.errs)
              else
                var rest := BlockRest(t, body + s.out.tree, s.out.at, recover);
                r == Result(rest.out, s.errs + rest.errs)
  {
    hide Round;
  }

  lemma ChainAt(t: seq<Token>, node: Node, i: nat, inLabel: bool)
    ensures MethodChain(t, node, i, inLabel) ==
              if KindAt(t, i).Period? && KindAt(t, i + 1).Identifier? && KindAt(t, i + 2).ParenLeft? then
                var args := Args(t, i + 3, inLabel);
                if args.Hung? then Hung(args.at)
                else if args.Failed? then Parsed(node, i)
                else MethodChain(t, MethodCall(node, TextAt(t, i + 1), args.tree), args.at, inLabel)
              else Parsed(node, i)
  {
    hide Args;
  }

  lemma PartsAt(t: seq<Token>, parts: seq<Part>, i: nat, inLabel: bool)
    requires parts != []
    ensures MoreParts(t, parts, i, inLabel) ==
              if !KindAt(t, i).Period? then Parsed(parts, i)
              else
                var part := if KindAt(t, i + 1).ParenLeft? then ComputedPart(t, i + 2, inLabel)
                            else PathPart(t, i + 1, inLabel);
                if !part.Parsed? then part.Fail() else MoreParts(t, parts + [part.tree], part.at, inLabel)
  {
    hide PathPart, ComputedPart;
  }

  lemma ArgsAt(t: seq<Token>, args: seq<Node>, i: nat, inLabel: bool)
    ensures var e := ArgOrEmpty(t, i, inLabel);
            MoreArgs(t, args, i, inLabel) ==
              if !e.Parsed? then e.Fail()
              else if KindAt(t, e.at).Comma? then MoreArgs(t, args + [e.tree], e.at + 1, inLabel)
              else if KindAt(t, e.at).ParenRight? then Parsed(args + [e.tree], e.at + 1)
              else Failed(e.at)
  {
    hide ArgOrEmpty;
  }

  lemma ElementsAt(t: seq<Token>, elements: seq<Node>, i: nat, inLabel: bool)
    ensures var k, e := KindAt(t, i), Parse(0, t, i, inLabel);
            Elements(t, elements, i, inLabel) ==
              if k.BraceRight? then Parsed(elements, i + 1)
              else if k.Eof? then Failed(i)
              else if k.Comma? || k.End? then Elements(t, elements, i + 1, inLabel)
              else if !e.Parsed? then e.Fail()
              else if e.at == i then Hung(i)
              else Elements(t, elements + [e.tree], if KindAt(t, e.at).Comma? then e.at + 1 else e.at, inLabel)
  {
    hide Parse;
  }

  lemma RestAt(level: nat, t: seq<Token>, node: Node, i: nat, inLabel: bool)
    requires Chains(level)
    ensures Rest(level, t, node, i, inLabel) ==
              if OpLevel(KindAt(t, i)) != level then Parsed(node, i)
              else
                var right := Parse(level + 1, t, i + 1, inLabel);
                if !right.Parsed? then right
                else Rest(level, t, Binary(OpText(level, TextAt(t, i)), node, right.tree), right.at, inLabel)
  {
    hide Parse;
  }

  lemma TernariesAt(t: seq<Token>, node: Node, i: nat, inLabel: bool)
    ensures Ternaries(t, node, i, inLabel) ==
              if !KindAt(t, i).Question? then Parsed(node, i)
              else
                var a := Parse(0, t, i + 1, inLabel);
                if !a.Parsed? then a
                else if !KindAt(t, a.at).Colon? then Failed(a.at)
                else
                  var b := Parse(0, t, a.at + 1, inLabel);
                  if !b.Parsed? then b else Ternaries(t, Ternary(node, a.tree, b.tree), b.at, inLabel)
  {
    hide Parse;
  }

  /** Where each statement begins. */
  lemma StatementAt(t: seq<Token>, i: nat, recover: bool)
    ensures var k, s := KindAt(t, i), Statement(t, i, recover);
            if k.End? then s == Result(Parsed(ExprStmt(None), i + 1), [])
            else if k.BraceLeft? then
              var b := BlockRest(t, [], i + 1, recover);
              s == Result(if b.out.Parsed? then Parsed(Block(b.out.tree), b.out.at) else b.out.Fail(), b.errs)
            else if k.KwIf? then s == IfTail(t, i + 1, recover)
            else if k.KwFor? then s == ForTail(t, i + 1, recover)
            else if k.KwWhile? || k.KwWith? then s == Headed(t, i + 1, k, recover)
            else if k.KwSwitch? then s == SwitchTail(t, i + 1, recover)
            else if k.KwFunction? then s == FunctionTail(t, i + 1, recover)
            else s == Result(if k.KwReturn? || k.KwBreak? || k.KwContinue? then FlowTail(t, k, i + 1)
                             else if k.CommandName? then CommandTail(t, TextAt(t, i), i + 1)
                             else Simple(t, i, false), [])
  {
    hide BlockRest, IfTail, ForTail, Headed, SwitchTail, FunctionTail, CommandTail, Simple, EndStatement;
  }

  /** return, break or continue behind its keyword, the last two with an empty `()` or not. */
  function FlowTail(t: seq<Token>, k: Kind, i: nat): Outcome<Stmt> {
    var called := !k.KwReturn? && KindAt(t, i).ParenLeft? && KindAt(t, i + 1).ParenRight?;
    EndStatement(t, Flow(k), if called then i + 2 else i)
  }

  /** A path with an index or a computed segment is no parameter name. */
  predicate Unnamed(path: seq<Part>) { exists k :: 0 <= k < |path| && (path[k].index != [] || path[k].name == "") }

  lemma ParametersAt(t: seq<Token>, names: seq<string>, i: nat)
    ensures var path := Path(t, i, false);
            Parameters(t, names, i) ==
              if !path.Parsed? then path.Fail()
              else if Unnamed(path.tree) then Failed(path.at)
              else
                var more := names + [Dotted(path.tree)];
                if KindAt(t, path.at).Comma? then Parameters(t, more, path.at + 1)
                else if KindAt(t, path.at).ParenRight? then Parsed(more, path.at + 1)
                else Failed(path.at)
  {
    hide Path;
  }

  /** The label behind `case`, or nothing behind `default`, and its colon. */
  function Label(t: seq<Token>, isCase: bool, i: nat): (r: Outcome<Node>)
    ensures Moved(t, i, r.at)
  {
    var guard := if isCase then Parse(0, t, i, true) else Parsed(Str(""), i);
    if !guard.Parsed? then guard
    else
      var colon := CaseColon(t, guard.at);
      if colon.Parsed? then Parsed(guard.tree, colon.at) else colon.Fail()
  }

  lemma ArmsAt(t: seq<Token>, arms: Arms, i: nat, recover: bool)
    ensures var k, isCase, r := KindAt(t, i), AtWord(t, i, "case"), SwitchArms(t, arms, i, recover);
            if k.Eof? || k.BraceRight? then r == Result(Parsed(arms, i), [])
            else if k.End? then r == SwitchArms(t, arms, i + 1, recover)
            else if !isCase && !AtWord(t, i, "default") then r == Result(Failed(i), [])
            else
              var arm := Arm(t, arms, isCase, i + 1, recover);
              if !arm.out.Parsed? then r == arm
              else
                var rest := SwitchArms(t, arm.out.tree, arm.out.at, recover);
                r == Result(rest.out, arm.errs + rest.errs)
  {
    hide Parse, CaseColon, CaseBody;
  }

  /** One arm from behind its word: its label and its body. */
  function Arm(t: seq<Token>, arms: Arms, isCase: bool, i: nat, recover: bool): (r: Result<Arms>)
    ensures Moved(t, i, r.out.at)
  {
    var guard := Label(t, isCase, i);
    if !guard.Parsed? then Result(guard.Fail(), [])
    else
      var body := CaseBody(t, [], guard.at, recover);
      if !body.out.Parsed? then Result(body.out.Fail(), body.errs)
      else Result(Parsed(Armed(arms, isCase, guard.tree, body.out.tree), body.out.at), body.errs)
  }

  function Armed(arms: Arms, isCase: bool, guard: Node, body: seq<Stmt>): Arms {
    if isCase then arms.(cases := arms.cases + [Case(guard, body)]) else arms.(default := Branch(body))
  }

  lemma CaseBodyAt(t: seq<Token>, body: seq<Stmt>, i: nat, recover: bool)
    ensures var k, r := KindAt(t, i), CaseBody(t, body, i, recover);
            if k.Eof? || k.BraceRight? || AtWord(t, i, "case") || AtWord(t, i, "default") then
              r == Result(Parsed(body, i), [])
            else if k.End? then r == CaseBody(t, body, i + 1, recover)
            else
              var s := Statement(t, i, recover);
              if !s.out.Parsed? then r == Result(s.out.Fail(), s.errs)
              else
                var rest := CaseBody(t, body + [s.out.tree], s.out.at, recover);
                r == Result(rest.out, s.errs + rest.errs)
  {
    hide Statement;
  }

  /** With `errs` recorded, `rest` is what is left of a run that began with `start` recorded. */
  predicate Ahead<T(==)>(errs: seq<nat>, rest: Result<T>, start: seq<nat>, all: Result<T>) {
    rest.out == all.out && errs + rest.errs == start + all.errs
  }

  lemma Onward<T>(errs: seq<nat>, step: seq<nat>, rest: Result<T>, start: seq<nat>, all: Result<T>)
    requires Ahead(errs, Result(rest.out, step + rest.errs), start, all)
    ensures Ahead(errs + step, rest, start, all)
  {
    assert errs + (step + rest.errs) == errs + step + rest.errs;
  }

  lemma Inside(t: seq<Token>, i: nat, at: nat)
    requires Moved(t, i, at) && at > i
    ensures at <= |t|
  {
  }

  lemma InText(t: seq<Token>, i: nat)
    ensures !KindAt(t, i).Eof? ==> i < |t|
  {
  }

  lemma RangeAt(t: seq<Token>, i: nat, inLabel: bool)
    requires KindAt(t, i).Pipe? || KindAt(t, i).OpLess?
    ensures var a := Parse(6, t, i + 1, inLabel);
            Range(t, i, inLabel) ==
              if !a.Parsed? then a
              else if !KindAt(t, a.at).Comma? then Failed(a.at)
              else
                var b := Parse(6, t, a.at + 1, inLabel);
                if !b.Parsed? then b
                else if !KindAt(t, b.at).Pipe? && !KindAt(t, b.at).OpGreat? then Failed(b.at)
                else Parsed(RangeLit(a.tree, b.tree, KindAt(t, i).Pipe?, KindAt(t, b.at).Pipe?), b.at + 1)
  {
    hide Parse;
  }

  /** The inside of a parenthesis and the parenthesis that closes it. */
  function Parenthesised(t: seq<Token>, i: nat, inLabel: bool): Outcome<Node> {
    var e := Parse(0, t, i, inLabel);
    if !e.Parsed? then e else CommaList(t, e.tree, e.at, inLabel)
  }

  class Parser {
    const toks: seq<Token>
    const recover: bool
    var i: nat
    var errors: seq<nat>
    var caseLabel: bool

    constructor (toks: seq<Token>, recover: bool)
      ensures this.toks == toks && this.recover == recover
      ensures i == 0 && errors == [] && !caseLabel
    {
      this.toks := toks;
      this.recover := recover;
      i, errors, caseLabel := 0, [], false;
    }

    function Peek(): Kind
      reads this
    {
      KindAt(toks, i)
    }

    method Next() returns (text: string)
      modifies this`i
      ensures text == TextAt(toks, old(i)) && i == Past(toks, old(i))
    {
      text := TextAt(toks, i);
      if !Peek().Eof? {
        i := i + 1;
      }
    }

    method Accept(k: Kind) returns (found: bool)
      requires !k.Eof?
      modifies this`i
      ensures found == (KindAt(toks, old(i)) == k)
      ensures i == if found then old(i) + 1 else old(i)
    {
      found := Peek() == k;
      if found {
        i := i + 1;
      }
    }

    // ------------------------------------------------------------ recovery

    /** _synchronize */
    method Synchronize()
      modifies this`i
      ensures i == Sync(toks, old(i), 0)
    {
      var depth := 0;
      while !Peek().Eof?
        invariant Sync(toks, i, depth) == Sync(toks, old(i), 0)
        decreases |toks| - i
      {
        var k := Peek();
        i := i + 1;
        if k.BraceLeft? {
          depth := depth + 1;
        } else if k.BraceRight? {
          if depth == 0 {
            i := i - 1;
            return;
          }
          depth := depth - 1;
          if depth == 0 {
            return;
          }
        } else if k.End? && depth == 0 {
          return;
        }
      }
    }

    /** _discard_switch_body */
    method DiscardSwitchBody()
      modifies this`i
      ensures i == Discard(toks, old(i), 1)
    {
      var depth := 1;
      while depth != 0 && !Peek().Eof?
        invariant Discard(toks, i, depth) == Discard(toks, old(i), 1)
        decreases |toks| - i
      {
        var k := Peek();
        i := i + 1;
        if k.BraceLeft? {
          depth := depth + 1;
        } else if k.BraceRight? {
          depth := depth - 1;
        }
      }
    }

    /** parse_statement */
    method ParseStatement() returns (out: Outcome<Stmt>)
      requires !caseLabel
      modifies this`i, this`errors, this`caseLabel
      ensures var r := Statement(toks, old(i), recover);
              out == r.out && i == out.at && errors == old(errors) + r.errs
      ensures !caseLabel
      decreases |toks| - i, 100
    {
      hide Statement, BlockRest, IfTail, ForTail, Headed, SwitchTail, FunctionTail, CommandTail, Simple, EndStatement,
        KindAt, Within, Fine;
      StatementAt(toks, i, recover);
      InText(toks, i);
      var k := Peek();
      if k.End? {
        i := i + 1;
        out := Parsed(ExprStmt(None), i);
      } else if k.BraceLeft? {
        i := i + 1;
        var body := ParseBlockRest();
        out := if body.Parsed? then Parsed(Block(body.tree), i) else body.Fail();
      } else if k.KwIf? {
        i := i + 1;
        out := ParseIfTail();
      } else if k.KwFor? {
        i := i + 1;
        out := ParseFor();
      } else if k.KwWhile? || k.KwWith? {
        i := i + 1;
        out := ParseHeaded(k);
      } else if k.KwSwitch? {
        i := i + 1;
        out := ParseSwitch();
      } else if k.KwFunction? {
        i := i + 1;
        out := ParseFuncDef();
      } else if k.KwReturn? || k.KwBreak? || k.KwContinue? {
        i := i + 1;
        out := ParseFlow(k);
      } else if k.CommandName? {
        var name := TextAt(toks, i);
        i := i + 1;
        out := ParseCommand(name);
      } else {
        out := ParseSimple(false);
      }
    }

    /** The call form of break and continue is given back unless it is empty. */
    method ParseFlow(k: Kind) returns (out: Outcome<Stmt>)
      modifies this`i
      ensures out == FlowTail(toks, k, old(i)) && i == out.at
    {
      hide EndStatement;
      if !k.KwReturn? && Peek().ParenLeft? {
        var save := i;
        i := i + 1;
        var closed := Accept(ParenRight);
        if !closed { i := save; }
      }
      out := ParseEnd(Flow(k));
    }

    /** _end_statement */
    method ParseEnd(s: Stmt) returns (out: Outcome<Stmt>)
      modifies this`i
      ensures out == EndStatement(toks, s, old(i)) && i == out.at
    {
      if Peek().End? {
        i := i + 1;
        return Parsed(s, i);
      }
      out := if Terminates(Peek()) then Parsed(s, i) else Failed(i);
    }

    /** parse_block */
    method ParseBlock() returns (out: Outcome<seq<Stmt>>)
      requires !caseLabel
      modifies this`i, this`errors, this`caseLabel
      ensures var r := BlockAt(toks, old(i), recover);
              out == r.out && i == out.at && errors == old(errors) + r.errs
      ensures !caseLabel
      decreases |toks| - i, 110
    {
      hide Statement, BlockRest, Within, Fine;
      if Peek().BraceLeft? {
        i := i + 1;
        out := ParseBlockRest();
      } else {
        var s := ParseStatement();
        out := if s.Parsed? then Parsed([s.tree], i) else s.Fail();
      }
    }

    /** A parenthesised condition. */
    method ParseCondition() returns (out: Outcome<Node>)
      requires !caseLabel
      modifies this`i
      ensures out == Condition(toks, old(i)) && i == out.at
    {
      hide Parse;
      if !Peek().ParenLeft? { return Failed(i); }
      i := i + 1;
      out := ParseLevel(0);
      if !out.Parsed? { return; }
      if !Peek().ParenRight? { return Failed(i); }
      i := i + 1;
      out := Parsed(out.tree, i);
    }

    /** _parse_if_tail */
    method ParseIfTail() returns (out: Outcome<Stmt>)
      requires !caseLabel
      modifies this`i, this`errors, this`caseLabel
      ensures var r := IfTail(toks, old(i), recover);
              out == r.out && i == out.at && errors == old(errors) + r.errs
      ensures !caseLabel
      decreases |toks| - i, 90
    {
      hide Condition, BlockAt, ElseTail, KindAt, Within, Fine;
      var cond := ParseCondition();
      if !cond.Parsed? { return cond.Fail(); }
      Inside(toks, old(i), i);
      var body := ParseBlock();
      if !body.Parsed? { return body.Fail(); }
      var els := ParseElse();
      out := if els.Parsed? then Parsed(If(cond.tree, body.tree, els.tree), i) else els.Fail();
    }

    /** Terminators before an else are passed over, and given back when no else follows. */
    method ParseElse() returns (out: Outcome<Branch>)
      requires !caseLabel
      modifies this`i, this`errors, this`caseLabel
      ensures var r := ElseTail(toks, old(i), recover);
              out == r.out && i == out.at && errors == old(errors) + r.errs
      ensures !caseLabel
      decreases |toks| - i, 95
    {
      hide BlockAt, IfTail, Within, Fine;
      var saved := i;
      SkipEnds();
      if Peek().KwElseIf? {
        i := i + 1;
        var s := ParseIfTail();
        out := if s.Parsed? then Parsed(Branch([s.tree]), i) else s.Fail();
      } else if Peek().KwElse? {
        i := i + 1;
        var b := ParseBlock();
        out := if b.Parsed? then Parsed(Branch(b.tree), i) else b.Fail();
      } else {
        i := saved;
        out := Parsed(NoBranch, i);
      }
    }

    method SkipEnds()
      modifies this`i
      ensures i == Skip(toks, old(i))
    {
      while Peek().End?
        invariant Skip(toks, i) == Skip(toks, old(i))
        decreases |toks| - i
      {
        i := i + 1;
      }
    }

    /** parse_while and parse_with */
    method ParseHeaded(k: Kind) returns (out: Outcome<Stmt>)
      requires !caseLabel
      modifies this`i, this`errors, this`caseLabel
      ensures var r := Headed(toks, old(i), k, recover);
              out == r.out && i == out.at && errors == old(errors) + r.errs
      ensures !caseLabel
      decreases |toks| - i, 90
    {
      hide Condition, BlockAt, KindAt, Within, Fine;
      var cond := ParseCondition();
      if !cond.Parsed? { return cond.Fail(); }
      Inside(toks, old(i), i);
      var body := ParseBlock();
      if !body.Parsed? { return body.Fail(); }
      out := Parsed(if k.KwWhile? then While(cond.tree, body.tree) else With(cond.tree, body.tree), i);
    }

    /** parse_for */
    method ParseFor() returns (out: Outcome<Stmt>)
      requires !caseLabel
      modifies this`i, this`errors, this`caseLabel
      ensures var r := ForTail(toks, old(i), recover);
              out == r.out && i == out.at && errors == old(errors) + r.errs
      ensures !caseLabel
      decreases |toks| - i, 90
    {
      hide ForHeader, BlockAt, KindAt, Within, Fine;
      var head := ParseForHeader();
      if !head.Parsed? { return head.Fail(); }
      Inside(toks, old(i), i);
      var body := ParseBlock();
      if !body.Parsed? { return body.Fail(); }
      var h := head.tree;
      out := Parsed(For(h.init, h.check, h.post, body.tree), i);
    }

    method ParseForHeader() returns (out: Outcome<Header>)
      requires !caseLabel
      modifies this`i
      ensures out == ForHeader(toks, old(i)) && i == out.at
    {
      hide ForInit, ForCheck, ForEnd;
      if !Peek().ParenLeft? { return Failed(i); }
      i := i + 1;
      var init := ParseForInit();
      if !init.Parsed? { return init.Fail(); }
      var check := ParseForCheck();
      if !check.Parsed? { return check.Fail(); }
      var post := ParseForEnd();
      out := if post.Parsed? then Parsed(Header(init.tree, check.tree, post.tree), i) else post.Fail();
    }

    method ParseForInit() returns (out: Outcome<Option<Stmt>>)
      requires !caseLabel
      modifies this`i
      ensures out == ForInit(toks, old(i)) && i == out.at
    {
      hide ForPart;
      out := ParseForPart(End);
      if !out.Parsed? { return; }
      if !Peek().End? { return Failed(i); }
      i := i + 1;
      out := Parsed(out.tree, i);
    }

    method ParseForCheck() returns (out: Outcome<Option<Node>>)
      requires !caseLabel
      modifies this`i
      ensures out == ForCheck(toks, old(i)) && i == out.at
    {
      hide Parse;
      var check: Option<Node> := None;
      if !Peek().End? {
        var e := ParseLevel(0);
        if !e.Parsed? { return e.Fail(); }
        check := Some(e.tree);
      }
      if !Peek().End? { return Failed(i); }
      i := i + 1;
      out := Parsed(check, i);
    }

    method ParseForEnd() returns (out: Outcome<Option<Stmt>>)
      requires !caseLabel
      modifies this`i
      ensures out == ForEnd(toks, old(i)) && i == out.at
    {
      hide ForPart;
      out := ParseForPart(ParenRight);
      if !out.Parsed? { return; }
      SkipEnds();
      if !Peek().ParenRight? { return Failed(i); }
      i := i + 1;
      out := Parsed(out.tree, i);
    }

    method ParseForPart(stop: Kind) returns (out: Outcome<Option<Stmt>>)
      requires !caseLabel
      modifies this`i
      ensures out == ForPart(toks, old(i), stop) && i == out.at
    {
      hide Simple;
      if Peek() == stop { return Parsed(None, i); }
      var s := ParseSimple(true);
      out := if s.Parsed? then Parsed(Some(s.tree), i) else s.Fail();
    }

    /** parse_switch: an error anywhere in the body is recorded, and the body thrown away. */
    method ParseSwitch() returns (out: Outcome<Stmt>)
      requires !caseLabel
      modifies this`i, this`errors, this`caseLabel
      ensures var r := SwitchTail(toks, old(i), recover);
              out == r.out && i == out.at && errors == old(errors) + r.errs
      ensures !caseLabel
      decreases |toks| - i, 90
    {
      hide Condition, SwitchArms, Discard, KindAt, Within, Fine;
      var value := ParseCondition();
      if !value.Parsed? { return value.Fail(); }
      if !Peek().BraceLeft? { return Failed(i); }
      InText(toks, i);
      i := i + 1;
      var arms := ParseArms();
      if arms.Hung? || (arms.Failed? && !recover) { return arms.Fail(); }
      if arms.Failed? {
        errors := errors + [i];
        DiscardSwitchBody();
        return Parsed(Switch(value.tree, [], NoBranch), i);
      }
      if !Peek().BraceRight? { return Failed(i); }
      i := i + 1;
      out := Parsed(Switch(value.tree, arms.tree.cases, arms.tree.default), i);
    }

    /** The loop over the arms of a switch. */
    method ParseArms() returns (out: Outcome<Arms>)
      requires !caseLabel
      modifies this`i, this`errors, this`caseLabel
      ensures var r := SwitchArms(toks, Arms([], NoBranch), old(i), recover);
              out == r.out && i == out.at && errors == old(errors) + r.errs
      ensures !caseLabel
      decreases |toks| - i, 130
    {
      hide SwitchArms, Arm, Within, KindAt, AtWord;
      var arms := Arms([], NoBranch);
      ghost var all := SwitchArms(toks, arms, i, recover);
      while !Peek().BraceRight? && !Peek().Eof?
        invariant !caseLabel && i >= old(i)
        invariant Ahead(errors, SwitchArms(toks, arms, i, recover), old(errors), all)
        decreases |toks| - i
      {
        ArmsAt(toks, arms, i, recover);
        InText(toks, i);
        var ended := Accept(End);
        if ended { continue; }
        var isCase := AtWord(toks, i, "case");
        if !isCase && !AtWord(toks, i, "default") { return Failed(i); }
        i := i + 1;
        ghost var errs, r := errors, Arm(toks, arms, isCase, i, recover);
        var arm := ParseArm(arms, isCase);
        if !arm.Parsed? { return arm; }
        arms := arm.tree;
        Onward(errs, r.errs, SwitchArms(toks, arms, i, recover), old(errors), all);
      }
      ArmsAt(toks, arms, i, recover);
      out := Parsed(arms, i);
    }

    method ParseArm(arms: Arms, isCase: bool) returns (out: Outcome<Arms>)
      requires !caseLabel
      modifies this`i, this`errors, this`caseLabel
      ensures var r := Arm(toks, arms, isCase, old(i), recover);
              out == r.out && i == out.at && errors == old(errors) + r.errs
      ensures !caseLabel
      decreases |toks| - i, 125
    {
      hide CaseBody, Label, Within, Fine;
      var guard := ParseLabel(isCase);
      if !guard.Parsed? { return guard.Fail(); }
      var body := ParseCaseBody();
      out := if body.Parsed? then Parsed(Armed(arms, isCase, guard.tree, body.tree), i) else body.Fail();
    }

    /** A label is read with `_parsing_case_label` set. */
    method ParseLabel(isCase: bool) returns (out: Outcome<Node>)
      requires !caseLabel
      modifies this`i, this`caseLabel
      ensures out == Label(toks, isCase, old(i)) && i == out.at && !caseLabel
    {
      hide Parse, CaseColon;
      var guard: Outcome<Node> := Parsed(Str(""), i);
      if isCase {
        caseLabel := true;
        guard := ParseLevel(0);
        caseLabel := false;
        if !guard.Parsed? { return guard; }
      }
      var colon := ParseCaseColon();
      out := if colon.Parsed? then Parsed(guard.tree, i) else colon.Fail();
    }

    /** _case_colon */
    method ParseCaseColon() returns (out: Outcome<()>)
      modifies this`i
      ensures out == CaseColon(toks, old(i)) && i == out.at
    {
      if !Peek().Colon? && !AtWord(toks, i, ":") { return Failed(i); }
      i := i + 1;
      out := Parsed((), i);
    }

    /** _parse_case_body */
    method ParseCaseBody() returns (out: Outcome<seq<Stmt>>)
      requires !caseLabel
      modifies this`i, this`errors, this`caseLabel
      ensures var r := CaseBody(toks, [], old(i), recover);
              out == r.out && i == out.at && errors == old(errors) + r.errs
      ensures !caseLabel
      decreases |toks| - i, 120
    {
      hide CaseBody, Statement, Within, Fine;
      var body: seq<Stmt> := [];
      ghost var all := CaseBody(toks, body, i, recover);
      while !Peek().BraceRight? && !Peek().Eof? && !AtWord(toks, i, "case") && !AtWord(toks, i, "default")
        invariant !caseLabel && i >= old(i)
        invariant Ahead(errors, CaseBody(toks, body, i, recover), old(errors), all)
        decreases |toks| - i
      {
        CaseBodyAt(toks, body, i, recover);
        var ended := Accept(End);
        if ended { continue; }
        ghost var errs, r := errors, Statement(toks, i, recover);
        var s := ParseStatement();
        if !s.Parsed? { return s.Fail(); }
        body := body + [s.tree];
        Onward(errs, r.errs, CaseBody(toks, body, i, recover), old(errors), all);
      }
      CaseBodyAt(toks, body, i, recover);
      out := Parsed(body, i);
    }

    /** parse_funcdef */
    method ParseFuncDef() returns (out: Outcome<Stmt>)
      requires !caseLabel
      modifies this`i, this`errors, this`caseLabel
      ensures var r := FunctionTail(toks, old(i), recover);
              out == r.out && i == out.at && errors == old(errors) + r.errs
      ensures !caseLabel
      decreases |toks| - i, 90
    {
      hide PathPart, Parameters, BlockAt, Within, Fine;
      var name := ParsePart();
      if !name.Parsed? { return name.Fail(); }
      if !Peek().ParenLeft? { return Failed(i); }
      i := i + 1;
      var params: Outcome<seq<string>> := Failed(i);
      if Peek().ParenRight? {
        i := i + 1;
        params := Parsed([], i);
      } else {
        params := ParseParameters();
      }
      if !params.Parsed? { return params.Fail(); }
      var body := ParseBlock();
      if !body.Parsed? { return body.Fail(); }
      out := Parsed(FuncDef(name.tree.name, body.tree, params.tree), i);
    }

    /** The names of a parameter list and the parenthesis behind them. */
    method ParseParameters() returns (out: Outcome<seq<string>>)
      requires !caseLabel
      modifies this`i
      ensures out == Parameters(toks, [], old(i)) && i == out.at
    {
      hide Path, Parameters, Unnamed, KindAt;
      var names: seq<string> := [];
      ghost var all := Parameters(toks, names, i);
      while true
        invariant Parameters(toks, names, i) == all
        decreases |toks| - i
      {
        ParametersAt(toks, names, i);
        var path := ParsePath();
        if !path.Parsed? { return path.Fail(); }
        if Unnamed(path.tree) {
          return Failed(i);
        }
        names := names + [Dotted(path.tree)];
        if !Peek().Comma? { break; }
        InText(toks, i);
        i := i + 1;
      }
      if !Peek().ParenRight? { return Failed(i); }
      i := i + 1;
      out := Parsed(names, i);
    }

    /** parse_command */
    method ParseCommand(name: string) returns (out: Outcome<Stmt>)
      requires !caseLabel
      modifies this`i
      ensures out == CommandTail(toks, name, old(i)) && i == out.at
    {
      hide CommandArgs, EndStatement;
      if Terminates(Peek()) {
        out := ParseEnd(Command(name, []));
        return;
      }
      var args := ParseCommandArgs();
      if !args.Parsed? { return args.Fail(); }
      out := ParseEnd(Command(name, args.tree));
    }

    method ParseCommandArgs() returns (out: Outcome<seq<Node>>)
      requires !caseLabel
      modifies this`i
      ensures out == CommandArgs(toks, [], old(i)) && i == out.at
    {
      hide Parse;
      var args: seq<Node> := [];
      ghost var all := CommandArgs(toks, args, i);
      while true
        invariant CommandArgs(toks, args, i) == all
        decreases |toks| - i
      {
        var e: Outcome<Node> := Parsed(Str(""), i);
        if SpecialKind(Peek()) {
          e := Parsed(SpecialLit(Peek(), TextAt(toks, i)), i + 1);
          i := i + 1;
        } else if !Peek().Comma? && !Terminates(Peek()) {
          e := ParseLevel(0);
        }
        if !e.Parsed? { return e.Fail(); }
        args := args + [e.tree];
        if !Peek().Comma? { break; }
        i := i + 1;
      }
      out := Parsed(args, i);
    }

    /** parse_assignment_or_expr: an assignment is tried first, then a call that is the whole
        statement; each time the cursor goes back to where the statement began. */
    method ParseSimple(bare: bool) returns (out: Outcome<Stmt>)
      requires !caseLabel
      modifies this`i
      ensures out == Simple(toks, old(i), bare) && i == out.at
    {
      hide Path, Args, Listed, AssignTail, EndStatement;
      var mark := i;
      if Peek().Identifier? {
        var path := ParsePath();
        if path.Parsed? && AssignKind(Peek()) {
          out := ParseAssignTail(VarRef(path.tree), bare);
          return;
        }
      }
      i := mark;
      if Peek().Identifier? && TextAt(toks, i) != "" && KindAt(toks, i + 1).ParenLeft? {
        var name := TextAt(toks, i);
        i := i + 2;
        var args := ParseArgs();
        if args.Parsed? && Terminates(Peek()) {
          if bare { return Parsed(UserCall(name, args.tree), i); }
          out := ParseEnd(UserCall(name, args.tree));
          return;
        }
      }
      i := mark;
      var e := ParseListed();
      if !e.Parsed? { return e.Fail(); }
      if bare { return Parsed(ExprStmt(Some(e.tree)), i); }
      out := ParseEnd(ExprStmt(Some(e.tree)));
    }

    /** A comma list of expressions, the last of which stands. */
    method ParseListed() returns (out: Outcome<Node>)
      requires !caseLabel
      modifies this`i
      ensures out == Listed(toks, old(i)) && i == out.at
    {
      hide Parse;
      out := ParseLevel(0);
      while out.Parsed? && Peek().Comma?
        invariant i == out.at
        invariant (if out.Parsed? && KindAt(toks, i).Comma? then Listed(toks, i + 1) else out) == Listed(toks, old(i))
        decreases |toks| - i
      {
        i := i + 1;
        out := ParseLevel(0);
      }
    }

    /** The operator, further targets of a chain, and the value. */
    method ParseAssignTail(target: Node, bare: bool) returns (out: Outcome<Stmt>)
      requires !caseLabel && AssignKind(Peek())
      modifies this`i
      ensures out == AssignTail(toks, target, old(i), bare) && i == out.at
    {
      hide Parse, Targets, EndStatement;
      var op := Next();
      var extra: seq<Node> := [];
      if op == "=" { extra := ParseTargets(); }
      var e := ParseLevel(0);
      if !e.Parsed? { return e.Fail(); }
      var s := Assign(target, op, Chained(extra, e.tree));
      if bare || (s.value.ArrayLit? && !Peek().End?) { return Parsed(s, i); }
      out := ParseEnd(s);
    }

    /** Targets as long as a path and another `=` are there; what is not one is given back. */
    method ParseTargets() returns (extra: seq<Node>)
      requires !caseLabel
      modifies this`i
      ensures (extra, i) == Targets(toks, [], old(i))
    {
      hide Path;
      extra := [];
      while Peek().Identifier?
        invariant Targets(toks, extra, i) == Targets(toks, [], old(i))
        decreases |toks| - i
      {
        var mark := i;
        var path := ParsePath();
        if !path.Parsed? || !Peek().OpAssign? {
          i := mark;
          return;
        }
        i := i + 1;
        extra := extra + [VarRef(path.tree)];
      }
    }

    /** The `try` of parse_program and parse_block: an error is recorded, the cursor moved at
        least one token on, and the parser synchronised. */
    method ParseRound() returns (out: Outcome<seq<Stmt>>)
      requires !Peek().Eof? && !caseLabel
      modifies this`i, this`errors, this`caseLabel
      ensures var r := Round(toks, old(i), recover);
              out == r.out && i == out.at && errors == old(errors) + r.errs
      ensures !caseLabel
      decreases |toks| - i, 105
    {
      hide Statement, Sync;
      var before := i;
      var s := ParseStatement();
      if s.Parsed? {
        return Parsed([s.tree], i);
      }
      if s.Hung? || !recover {
        return s.Fail();
      }
      errors := errors + [i];
      if i == before {
        var _ := Next();
      }
      Synchronize();
      out := Parsed([], i);
    }

    /** parse_program */
    method ParseProgram() returns (out: Outcome<seq<Stmt>>)
      requires !caseLabel
      modifies this`i, this`errors, this`caseLabel
      ensures var r := Program(toks, [], old(i), recover);
              out == r.out && i == out.at && errors == old(errors) + r.errs
    {
      hide Round, Program, KindAt, Fine, Within;
      var body: seq<Stmt> := [];
      ghost var all := Program(toks, [], i, recover);
      while !Peek().Eof?
        invariant !caseLabel
        invariant Ahead(errors, Program(toks, body, i, recover), old(errors), all)
        decreases |toks| - i
      {
        ProgramAt(toks, body, i, recover);
        InText(toks, i);
        var ended := Accept(End);
        if ended { continue; }
        var stray := Accept(BraceRight);
        if stray { continue; }
        ghost var errs, r := errors, Round(toks, i, recover);
        var s := ParseRound();
        if !s.Parsed? {
          return s;
        }
        body := body + s.tree;
        Onward(errs, r.errs, Program(toks, body, i, recover), old(errors), all);
      }
      ProgramAt(toks, body, i, recover);
      out := Parsed(body, i);
    }

    /** The loop of parse_block, its opening brace consumed. */
    method ParseBlockRest() returns (out: Outcome<seq<Stmt>>)
      requires !caseLabel
      modifies this`i, this`errors, this`caseLabel
      ensures var r := BlockRest(toks, [], old(i), recover);
              out == r.out && i == out.at && errors == old(errors) + r.errs
      ensures !caseLabel
      decreases |toks| - i, 120
    {
      hide Round, BlockRest, KindAt, Fine, Within;
      var body: seq<Stmt> := [];
      ghost var all := BlockRest(toks, [], i, recover);
      while !Peek().Eof? && !Peek().BraceRight?
        invariant !caseLabel && i >= old(i)
        invariant Ahead(errors, BlockRest(toks, body, i, recover), old(errors), all)
        decreases |toks| - i
      {
        BlockRestAt(toks, body, i, recover);
        InText(toks, i);
        var ended := Accept(End);
        if ended { continue; }
        ghost var errs, r := errors, Round(toks, i, recover);
        var s := ParseRound();
        if !s.Parsed? {
          return s;
        }
        body := body + s.tree;
        Onward(errs, r.errs, BlockRest(toks, body, i, recover), old(errors), all);
      }
      BlockRestAt(toks, body, i, recover);
      var _ := Accept(BraceRight);
      out := Parsed(body, i);
    }

    // ------------------------------------------------------------ the ladder

    /** The rule of a level of the ladder. */
    method ParseLevel(level: nat) returns (r: Outcome<Node>)
      requires level <= 13
      modifies this`i
      ensures r == Parse(level, toks, old(i), caseLabel) && i == r.at
      decreases |toks| - i, 3 * (14 - level) + 12
    {
      hide Expression, Chain, In, UnaryLevel, PostfixLevel, Primary, OneOp;
      if level == 0 {
        r := ParseExpression();
      } else if Chains(level) {
        r := ParseChain(level);
      } else if level == 9 {
        r := ParseIn();
      } else if level == 11 {
        r := ParseUnary();
      } else if level == 12 {
        r := ParsePostfix();
      } else if level == 13 {
        r := ParsePrimary();
      } else {
        r := ParseOneOp(level);
      }
    }

    /** parse_expression */
    method ParseExpression() returns (r: Outcome<Node>)
      modifies this`i
      ensures r == Expression(toks, old(i), caseLabel) && i == r.at
      decreases |toks| - i, 53
    {
      hide Parse, LabelColon, Ternaries;
      r := ParseLevel(1);
      if !r.Parsed? { return; }
      var node := r.tree;
      ghost var all := Ternaries(toks, node, i, caseLabel);
      while Peek().Question?
        invariant Ternaries(toks, node, i, caseLabel) == all && i >= old(i)
        decreases |toks| - i
      {
        TernariesAt(toks, node, i, caseLabel);
        i := i + 1;
        var a := ParseLevel(0);
        if !a.Parsed? { return a; }
        if !Peek().Colon? { return Failed(i); }
        i := i + 1;
        var b := ParseLevel(0);
        if !b.Parsed? { return b; }
        node := Ternary(node, a.tree, b.tree);
      }
      TernariesAt(toks, node, i, caseLabel);
      r := Parsed(node, i);
    }

    /** The loop shared by parse_logic_or, parse_logic_and, parse_concat, parse_additive,
        parse_multiplicative, parse_mod and parse_exponent. */
    method ParseChain(level: nat) returns (r: Outcome<Node>)
      requires Chains(level)
      modifies this`i
      ensures r == Chain(level, toks, old(i), caseLabel) && i == r.at
      decreases |toks| - i, 3 * (14 - level) + 11
    {
      hide Parse, LabelColon, Rest;
      r := ParseLevel(level + 1);
      if !r.Parsed? { return; }
      var node := r.tree;
      ghost var all := Rest(level, toks, node, i, caseLabel);
      while OpLevel(Peek()) == level
        invariant Rest(level, toks, node, i, caseLabel) == all && i >= old(i)
        decreases |toks| - i
      {
        RestAt(level, toks, node, i, caseLabel);
        var op := OpText(level, TextAt(toks, i));
        i := i + 1;
        var right := ParseLevel(level + 1);
        if !right.Parsed? { return right; }
        node := Binary(op, node, right.tree);
      }
      RestAt(level, toks, node, i, caseLabel);
      r := Parsed(node, i);
    }

    /** parse_equality and parse_relational */
    method ParseOneOp(level: nat) returns (r: Outcome<Node>)
      requires level == 3 || level == 4
      modifies this`i
      ensures r == OneOp(level, toks, old(i), caseLabel) && i == r.at
      decreases |toks| - i, 3 * (14 - level) + 11
    {
      hide Parse, LabelColon;
      r := ParseLevel(level + 1);
      if r.Parsed? && OpLevel(Peek()) == level {
        var op := Next();
        var right := ParseLevel(level + 1);
        if !right.Parsed? { return right; }
        r := Parsed(Binary(op, r.tree, right.tree), i);
      }
    }

    /** parse_in: the commas are tried, and given back when no `in` follows. */
    method ParseIn() returns (r: Outcome<Node>)
      modifies this`i
      ensures r == In(toks, old(i), caseLabel) && i == r.at
      decreases |toks| - i, 26
    {
      hide Parse, LabelColon, Range, Values;
      r := ParseLevel(10);
      if !r.Parsed? { return; }
      var mark := i;
      var values := ParseValues(r.tree);
      if values.Hung? { return values.Fail(); }
      if values.Failed? || !Peek().OpIn? {
        i := mark;
        return;
      }
      i := i + 1;
      var rng := ParseRangeOrPrimary();
      if !rng.Parsed? { return rng; }
      r := Parsed(InExpr(values.tree, rng.tree), i);
    }

    method ParseValues(first: Node) returns (r: Outcome<seq<Node>>)
      modifies this`i
      ensures r == Values(toks, [first], old(i), caseLabel) && i == r.at
      decreases |toks| - i, 25
    {
      hide Parse, LabelColon;
      var values := [first];
      ghost var all := Values(toks, values, i, caseLabel);
      while Peek().Comma?
        invariant Values(toks, values, i, caseLabel) == all && i >= old(i)
        decreases |toks| - i
      {
        i := i + 1;
        var e := ParseLevel(10);
        if !e.Parsed? { return e.Fail(); }
        values := values + [e.tree];
      }
      r := Parsed(values, i);
    }

    method ParseRangeOrPrimary() returns (r: Outcome<Node>)
      modifies this`i
      ensures r == if KindAt(toks, old(i)).Pipe? || KindAt(toks, old(i)).OpLess?
                   then Range(toks, old(i), caseLabel) else Parse(13, toks, old(i), caseLabel)
      ensures i == r.at
      decreases |toks| - i, 61
    {
      hide Parse, Range;
      if Peek().Pipe? || Peek().OpLess? {
        r := ParseRange();
      } else {
        r := ParseLevel(13);
      }
    }

    /** parse_range */
    method ParseRange() returns (r: Outcome<Node>)
      requires Peek().Pipe? || Peek().OpLess?
      modifies this`i
      ensures r == Range(toks, old(i), caseLabel) && i == r.at
      decreases |toks| - i, 60
    {
      hide Parse, LabelColon, Range, KindAt;
      RangeAt(toks, i, caseLabel);
      InText(toks, i);
      var loIncl := Peek().Pipe?;
      i := i + 1;
      var lo := ParseLevel(6);
      if !lo.Parsed? { return lo; }
      if !Peek().Comma? { return Failed(i); }
      i := i + 1;
      var hi := ParseLevel(6);
      if !hi.Parsed? { return hi; }
      var hiIncl := Peek().Pipe?;
      if !hiIncl && !Peek().OpGreat? { return Failed(i); }
      i := i + 1;
      r := Parsed(RangeLit(lo.tree, hi.tree, loIncl, hiIncl), i);
    }

    /** parse_unary */
    method ParseUnary() returns (r: Outcome<Node>)
      modifies this`i
      ensures r == UnaryLevel(toks, old(i), caseLabel) && i == r.at
      decreases |toks| - i, 20
    {
      hide Parse, LabelColon;
      if !UnaryKind(Peek()) {
        r := ParseLevel(12);
        return;
      }
      var op := Next();
      r := ParseLevel(11);
      if r.Parsed? {
        r := Parsed(Unary(op, r.tree), i);
      }
    }

    /** parse_postfix */
    method ParsePostfix() returns (r: Outcome<Node>)
      modifies this`i
      ensures r == PostfixLevel(toks, old(i), caseLabel) && i == r.at
      decreases |toks| - i, 17
    {
      hide Parse, LabelColon;
      r := ParseLevel(13);
      if r.Parsed? && (Peek().OpInc? || Peek().OpDec?) {
        var op := Next();
        r := Parsed(Postfix(op, r.tree), i);
      }
    }

    /** parse_primary */
    method ParsePrimary() returns (r: Outcome<Node>)
      modifies this`i
      ensures r == Primary(toks, old(i), caseLabel) && i == r.at
      decreases |toks| - i, 14
    {
      hide Parse, Pieces, Args, Elements, Path, Called, CommaList;
      var k := Peek();
      if k.ParenLeft? {
        i := i + 1;
        r := ParseParenthesis();
      } else if StringKind(k) {
        var pieces := ParsePieces();
        r := if pieces.Parsed? then Parsed(StrConcat(pieces.tree), i) else pieces.Fail();
      } else if k.Function? {
        r := ParseBuiltin();
      } else if k.BraceLeft? {
        i := i + 1;
        var elements := ParseElements();
        r := if elements.Parsed? then Parsed(ArrayLit(elements.tree), i) else elements.Fail();
      } else if k.Literal? {
        var text := Next();
        r := Parsed(Lit(text), i);
      } else if k.AllFeatures? || k.AllStats? {
        var text := Next();
        r := Parsed(SpecialLit(k, text), i);
      } else if k.Identifier? {
        r := ParseName();
      } else {
        r := Failed(i);
      }
    }

    /** A parenthesis and the comma list in it, its opening token consumed. */
    method ParseParenthesis() returns (r: Outcome<Node>)
      modifies this`i
      ensures r == Parenthesised(toks, old(i), caseLabel) && i == r.at
      decreases |toks| - i, 60
    {
      hide Parse;
      r := ParseLevel(0);
      if !r.Parsed? { return; }
      var node := r.tree;
      ghost var all := CommaList(toks, node, i, caseLabel);
      while Peek().Comma?
        invariant CommaList(toks, node, i, caseLabel) == all && i >= old(i)
        decreases |toks| - i
      {
        i := i + 1;
        var e := ParseLevel(0);
        if !e.Parsed? { return e; }
        node := e.tree;
      }
      if !Peek().ParenRight? { return Failed(i); }
      i := i + 1;
      r := Parsed(node, i);
    }

    /** parse_string_concat */
    method ParsePieces() returns (r: Outcome<seq<Node>>)
      modifies this`i
      ensures r == Pieces(toks, [], old(i), caseLabel) && i == r.at
      decreases |toks| - i, 10
    {
      hide MessageCodeAt;
      var pieces: seq<Node> := [];
      ghost var all := Pieces(toks, pieces, i, caseLabel);
      while StringKind(Peek())
        invariant Pieces(toks, pieces, i, caseLabel) == all && i >= old(i)
        decreases |toks| - i
      {
        if Peek().StringPart? {
          var text := Next();
          pieces := pieces + [Str(text)];
        } else if Peek().RawMessageCode? {
          i := i + 1;
        } else {
          var code := ParseMessageCode();
          if !code.Parsed? { return code.Fail(); }
          pieces := pieces + [code.tree];
        }
      }
      r := Parsed(pieces, i);
    }

    /** parse_messagecode */
    method ParseMessageCode() returns (r: Outcome<Node>)
      requires Peek().MessageCode?
      modifies this`i
      ensures r == MessageCodeAt(toks, old(i), caseLabel) && i == r.at
      decreases |toks| - i, 5
    {
      hide Args;
      var code := Next();
      if !Peek().ParenLeft? { return Parsed(Message(code, []), i); }
      i := i + 1;
      var args := ParseArgs();
      r := if args.Parsed? then Parsed(Message(code, args.tree), i) else args.Fail();
    }

    /** parse_builtin_function */
    method ParseBuiltin() returns (r: Outcome<Node>)
      requires Peek().Function?
      modifies this`i
      ensures r == Primary(toks, old(i), caseLabel) && i == r.at
      decreases |toks| - i, 13
    {
      hide Args, Parse, Pieces, Elements, Path, Called, CommaList;
      var name := Next();
      if !Peek().ParenLeft? { return Failed(i); }
      i := i + 1;
      var args := ParseArgs();
      r := if args.Parsed? then Parsed(Call(name, args.tree), i) else args.Fail();
    }

    /** The arguments of a call and the parenthesis behind them. */
    method ParseArgs() returns (r: Outcome<seq<Node>>)
      modifies this`i
      ensures r == Args(toks, old(i), caseLabel) && i == r.at
      decreases |toks| - i, 63
    {
      hide ArgOrEmpty, MoreArgs, KindAt;
      InText(toks, i);
      if Peek().ParenRight? {
        i := i + 1;
        return Parsed([], i);
      }
      var args: seq<Node> := [];
      ghost var all := MoreArgs(toks, args, i, caseLabel);
      while true
        invariant MoreArgs(toks, args, i, caseLabel) == all && (i == old(i) || old(i) < i <= |toks|)
        decreases |toks| - i
      {
        ArgsAt(toks, args, i, caseLabel);
        var e := ParseArgOrEmpty();
        if !e.Parsed? { return e.Fail(); }
        args := args + [e.tree];
        if !Peek().Comma? { break; }
        InText(toks, i);
        i := i + 1;
      }
      if !Peek().ParenRight? { return Failed(i); }
      i := i + 1;
      r := Parsed(args, i);
    }

    /** _paren_arg_or_empty */
    method ParseArgOrEmpty() returns (r: Outcome<Node>)
      modifies this`i
      ensures r == ArgOrEmpty(toks, old(i), caseLabel) && i == r.at
      decreases |toks| - i, 61
    {
      hide Parse;
      if Peek().Comma? || Peek().ParenRight? { return Parsed(Str(""), i); }
      r := ParseLevel(0);
    }

    /** parse_array_literal, its opening brace consumed. A round that leaves the cursor where
        it was would come again for ever. */
    method ParseElements() returns (r: Outcome<seq<Node>>)
      modifies this`i
      ensures r == Elements(toks, [], old(i), caseLabel) && i == r.at
      decreases |toks| - i, 60
    {
      hide Parse, Elements;
      var elements: seq<Node> := [];
      ghost var all := Elements(toks, elements, i, caseLabel);
      while !Peek().BraceRight? && !Peek().Eof?
        invariant Elements(toks, elements, i, caseLabel) == all && i >= old(i)
        decreases |toks| - i
      {
        ElementsAt(toks, elements, i, caseLabel);
        if Peek().Comma? || Peek().End? {
          i := i + 1;
          continue;
        }
        var before := i;
        var e := ParseLevel(0);
        if !e.Parsed? { return e.Fail(); }
        if i == before { return Hung(i); }
        elements := elements + [e.tree];
        if Peek().Comma? { i := i + 1; }
      }
      ElementsAt(toks, elements, i, caseLabel);
      if Peek().Eof? { return Failed(i); }
      i := i + 1;
      r := Parsed(elements, i);
    }

    // ------------------------------------------------------------ names

    /** A path, and the call it names; when its arguments cannot be read the cursor goes back
        behind the path. */
    method ParseName() returns (r: Outcome<Node>)
      requires Peek().Identifier?
      modifies this`i
      ensures r == Primary(toks, old(i), caseLabel) && i == r.at
      decreases |toks| - i, 13
    {
      hide Path, Args, MethodChain, Parse, Pieces, Elements, CommaList;
      var path := ParsePath();
      if !path.Parsed? { return path.Fail(); }
      var parts := path.tree;
      if !CallableName(parts) || !Peek().ParenLeft? { return Parsed(VarRef(parts), i); }
      var save := i;
      i := i + 1;
      var args := ParseArgs();
      if args.Hung? { return args.Fail(); }
      if args.Failed? {
        i := save;
        return Parsed(VarRef(parts), i);
      }
      var n := |parts| - 1;
      r := ParseMethodChain(if n == 0 then Call(parts[0].name, args.tree)
                            else MethodCall(VarRef(parts[..n]), parts[n].name, args.tree));
    }

    /** _parse_method_chain: a link whose arguments cannot be read is given back. */
    method ParseMethodChain(first: Node) returns (r: Outcome<Node>)
      modifies this`i
      ensures r == MethodChain(toks, first, old(i), caseLabel) && i == r.at
      decreases |toks| - i, 60
    {
      hide Args, MethodChain, KindAt, TextAt;
      var node := first;
      ghost var all := MethodChain(toks, node, i, caseLabel);
      while Peek().Period? && KindAt(toks, i + 1).Identifier? && KindAt(toks, i + 2).ParenLeft?
        invariant MethodChain(toks, node, i, caseLabel) == all && i >= old(i)
        decreases |toks| - i
      {
        ChainAt(toks, node, i, caseLabel);
        InText(toks, i);
        InText(toks, i + 1);
        var save := i;
        i := i + 1;
        var name := Next();
        i := i + 1;
        var args := ParseArgs();
        if args.Hung? { return args.Fail(); }
        if args.Failed? {
          i := save;
          return Parsed(node, i);
        }
        node := MethodCall(node, name, args.tree);
      }
      ChainAt(toks, node, i, caseLabel);
      r := Parsed(node, i);
    }

    /** parse_identifier_access */
    method ParsePath() returns (r: Outcome<seq<Part>>)
      modifies this`i
      ensures r == Path(toks, old(i), caseLabel) && i == r.at
      decreases |toks| - i, 10
    {
      hide PathPart, ComputedPart, MoreParts, KindAt;
      var part := ParsePart();
      if !part.Parsed? { return part.Fail(); }
      var parts := [part.tree];
      ghost var all := MoreParts(toks, parts, i, caseLabel);
      while Peek().Period?
        invariant parts != [] && MoreParts(toks, parts, i, caseLabel) == all && i >= old(i)
        decreases |toks| - i
      {
        PartsAt(toks, parts, i, caseLabel);
        InText(toks, i);
        i := i + 1;
        if Peek().ParenLeft? {
          i := i + 1;
          part := ParseComputedPart();
        } else {
          part := ParsePart();
        }
        if !part.Parsed? { return part.Fail(); }
        parts := parts + [part.tree];
      }
      PartsAt(toks, parts, i, caseLabel);
      r := Parsed(parts, i);
    }

    method ParseComputedPart() returns (r: Outcome<Part>)
      modifies this`i
      ensures r == ComputedPart(toks, old(i), caseLabel) && i == r.at
      decreases |toks| - i, 60
    {
      hide Parse, Index;
      var e := ParseLevel(0);
      if !e.Parsed? { return e.Fail(); }
      if !Peek().ParenRight? { return Failed(i); }
      i := i + 1;
      var index := ParseIndex();
      r := if index.Parsed? then Parsed(Part("", index.tree, [e.tree]), i) else index.Fail();
    }

    /** _read_path_part */
    method ParsePart() returns (r: Outcome<Part>)
      modifies this`i
      ensures r == PathPart(toks, old(i), caseLabel) && i == r.at
      decreases |toks| - i, 8
    {
      hide Index, MessageCodeAt;
      var part, dynamic := Part("", [], []), false;
      ghost var all := Atoms(toks, part, dynamic, i, caseLabel);
      while (Peek().Identifier? && !LabelColon(toks, i, caseLabel)) || Peek().Literal? || Peek().MessageCode?
        invariant Atoms(toks, part, dynamic, i, caseLabel) == all && i >= old(i)
        decreases |toks| - i
      {
        if Peek().MessageCode? {
          var code := ParseMessageCode();
          if !code.Parsed? { return code.Fail(); }
          part, dynamic := part.(atoms := part.atoms + [code.tree]), true;
        } else {
          var literal := Peek().Literal?;
          var text := Next();
          if literal || text != "" {
            part := part.(name := part.name + text, atoms := part.atoms + [Str(text)]);
          }
        }
      }
      var index := ParseIndex();
      if !index.Parsed? { return index.Fail(); }
      r := Parsed(part.(name := if dynamic then "" else part.name, index := index.tree), i);
    }

    /** The optional index of a segment. */
    method ParseIndex() returns (r: Outcome<seq<Node>>)
      modifies this`i
      ensures r == Index(toks, old(i), caseLabel) && i == r.at
      decreases |toks| - i, 4
    {
      hide Parse, KindAt;
      InText(toks, i);
      if !Peek().BracketLeft? { return Parsed([], i); }
      i := i + 1;
      var a := ParseLevel(0);
      if !a.Parsed? { return a.Fail(); }
      var index := [a.tree];
      if Peek().Comma? {
        i := i + 1;
        var b := ParseLevel(0);
        if !b.Parsed? { return b.Fail(); }
        index := [a.tree, b.tree];
      }
      if !Peek().BracketRight? { return Failed(i); }
      i := i + 1;
      r := Parsed(index, i);
    }
  }
}

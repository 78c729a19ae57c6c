/** Parsing undoes printing for whole GS1 programs: statements are written with braces around
    every body and parentheses around assigned values. */
module Gs1Programs {
  import opened Gs1Syntax
  import opened Gs1Grammar
  import opened Gs1Statements
  import opened Gs1Printer
  import opened Gs1RoundTrip

  // ------------------------------------------------------------- printing

  function AssignOpKind(op: string): Kind {
    if op == "=" then OpAssign
    else if op == "+=" then OpAssignAdd
    else if op == "-=" then OpAssignSub
    else if op == "*=" then OpAssignMul
    else if op == "/=" then OpAssignDiv
    else if op == "%=" then OpAssignMod
    else if op == "^=" then OpAssignPow
    else Eof
  }

  predicate AllPrintable(es: seq<Node>) { forall k :: 0 <= k < |es| ==> Printable(es[k]) }

  /** Statements that may also stand in a `for` header. */
  predicate WritableSimple(s: Stmt) {
    match s
    case UserCall(name, args) => name != "" && AllPrintable(args)
    case Assign(target, op, value) =>
      target.VarRef? && Printable(target) && AssignKind(AssignOpKind(op)) && WritableValue(value, op == "=")
    case ExprStmt(e) => e.Some? && Printable(e.value)
    case _ => false
  }

  /** A command's argument: left out, an enumerated word, or an expression. */
  predicate WritableArg(a: Node) { a == Str("") || (a.SpecialLit? && SpecialKind(a.kind)) || Printable(a) }

  /** An assigned value: an expression, or behind `=` a further assignment of one. */
  predicate WritableValue(v: Node, chained: bool) {
    if v.AssignNode? then
      chained && v.op == "=" && v.target.VarRef? && Printable(v.target) && WritableValue(v.value, true)
    else Printable(v)
  }

  predicate Writable(s: Stmt)
    decreases s, 0
  {
    match s
    case If(c, b, els) => Printable(c) && AllWritable(b) && (els.Branch? ==> AllWritable(els.body))
    case Block(b) => AllWritable(b)
    case For(init, check, post, b) =>
      && (init.Some? ==> WritableSimple(init.value)) && (check.Some? ==> Printable(check.value))
      && (post.Some? ==> WritableSimple(post.value) && !post.value.UserCall?) && AllWritable(b)
    case While(c, b) => Printable(c) && AllWritable(b)
    case With(c, b) => Printable(c) && AllWritable(b)
    case FuncDef(name, b, params) =>
      name != "" && (forall k :: 0 <= k < |params| ==> params[k] != "") && AllWritable(b)
    case Flow(k) => k.KwReturn? || k.KwBreak? || k.KwContinue?
    case Command(_, args) => args != [Str("")] && forall k :: 0 <= k < |args| ==> WritableArg(args[k])
    case UserCall(_, _) => WritableSimple(s)
    case Assign(_, _, _) => WritableSimple(s)
    case ExprStmt(_) => WritableSimple(s)
    case Switch(v, cases, d) =>
      && Printable(v) && (forall k :: 0 <= k < |cases| ==> WritableCase(cases[k]))
      && (d.Branch? ==> AllWritable(d.body) && NoLabelWord(d.body))
  }

  /** A label without a bare colon of its own, and a body. */
  predicate WritableCase(c: Case)
    decreases c, 0
  {
    Printable(c.guard) && ColonFree(Print(c.guard, 0)) && AllWritable(c.body) && NoLabelWord(c.body)
  }

  /** No statement of a case body begins with the word that would end it. */
  predicate NoLabelWord(b: seq<Stmt>) {
    forall k :: 0 <= k < |b| ==> FirstWord(b[k]) != "case" && FirstWord(b[k]) != "default"
  }

  predicate ColonFree(ts: seq<Token>) { forall k :: 0 <= k < |ts| ==> !ColonToken(ts[k]) }

  /** The name a written statement begins with, if it begins with one. */
  function FirstWord(s: Stmt): string {
    match s
    case UserCall(name, _) => name
    case Assign(target, _, _) => FirstAtomOf(target)
    case _ => ""
  }

  function FirstAtomOf(e: Node): string {
    if e.VarRef? && e.parts != [] && e.parts[0].atoms != [] && e.parts[0].atoms[0].Str? then e.parts[0].atoms[0].text
    else ""
  }

  predicate AllWritable(ss: seq<Stmt>)
    decreases ss, 0
  {
    forall k :: 0 <= k < |ss| ==> Writable(ss[k])
  }

  function Wrapped(e: Node): seq<Token>
    requires Printable(e)
  {
    [Word(ParenLeft)] + Print(e, 0) + [Word(ParenRight)]
  }

  function ArgTokens(a: Node, level: nat): seq<Token>
    requires WritableArg(a)
  {
    if Printable(a) then Print(a, level) else if a.SpecialLit? then [Token(a.kind, a.text)] else []
  }

  function ArgTail(es: seq<Node>): seq<Token>
    requires forall k :: 0 <= k < |es| ==> WritableArg(es[k])
  {
    if es == [] then [] else [Word(Comma)] + ArgTokens(es[0], ItemLevel(es[0])) + ArgTail(es[1..])
  }

  function CommandTokens(es: seq<Node>): seq<Token>
    requires forall k :: 0 <= k < |es| ==> WritableArg(es[k])
  {
    if es == [] then [] else ArgTokens(es[0], 0) + ArgTail(es[1..])
  }

  /** Further targets as they are, and the value in parentheses. */
  function ValueTokens(v: Node): seq<Token>
    requires WritableValue(v, true)
  {
    if v.AssignNode? then Bare(v.target) + [Token(OpAssign, "=")] + ValueTokens(v.value) else Wrapped(v)
  }

  function SimpleTokens(s: Stmt): seq<Token>
    requires WritableSimple(s)
  {
    match s
    case UserCall(name, args) => [Token(Identifier, name), Word(ParenLeft)] + Items(args) + [Word(ParenRight)]
    case Assign(target, op, value) => Bare(target) + [Token(AssignOpKind(op), op)] + ValueTokens(value)
    case ExprStmt(e) => Wrapped(e.value)
  }

  function HeaderTokens(init: Option<Stmt>, check: Option<Node>, post: Option<Stmt>): seq<Token>
    requires init.Some? ==> WritableSimple(init.value)
    requires check.Some? ==> Printable(check.value)
    requires post.Some? ==> WritableSimple(post.value)
  {
    (if init.Some? then SimpleTokens(init.value) else []) + [Word(End)]
      + ((if check.Some? then Print(check.value, 0) else []) + [Word(End)]
           + ((if post.Some? then SimpleTokens(post.value) else []) + [Word(ParenRight)]))
  }

  function ParamTail(ps: seq<string>): seq<Token> {
    if ps == [] then [Word(ParenRight)] else [Word(Comma), Token(Identifier, ps[0])] + ParamTail(ps[1..])
  }

  function ParamTokens(ps: seq<string>): seq<Token> {
    if ps == [] then [Word(ParenRight)] else [Token(Identifier, ps[0])] + ParamTail(ps[1..])
  }

  function StmtTokens(s: Stmt): seq<Token>
    requires Writable(s)
    decreases s, 0
  {
    match s
    case If(c, b, els) =>
      [Word(KwIf)] + (Wrapped(c) + (Braced(b) + if els.Branch? then [Word(KwElse)] + Braced(els.body) else []))
    case Block(b) => Braced(b)
    case For(init, check, post, b) =>
      [Word(KwFor)] + ([Word(ParenLeft)] + (HeaderTokens(init, check, post) + Braced(b)))
    case While(c, b) => [Word(KwWhile)] + (Wrapped(c) + Braced(b))
    case With(c, b) => [Word(KwWith)] + (Wrapped(c) + Braced(b))
    case FuncDef(name, b, params) =>
      [Word(KwFunction)] + ([Token(Identifier, name)] + ([Word(ParenLeft)] + (ParamTokens(params) + Braced(b))))
    case Flow(k) => [Word(k)] + [Word(End)]
    case Command(name, args) => [Token(CommandName, name)] + (CommandTokens(args) + [Word(End)])
    case UserCall(_, _) => SimpleTokens(s) + [Word(End)]
    case Assign(_, _, _) => SimpleTokens(s) + [Word(End)]
    case ExprStmt(_) => SimpleTokens(s) + [Word(End)]
    case Switch(v, cases, d) =>
      [Word(KwSwitch)]
        + (Wrapped(v) + ([Word(BraceLeft)] + (ArmTokens(cases) + (DefaultTokens(d) + [Word(BraceRight)]))))
  }

  const COLON: Token := Token(Identifier, ":")

  function ArmTokens(cases: seq<Case>): seq<Token>
    requires forall k :: 0 <= k < |cases| ==> WritableCase(cases[k])
    decreases cases, 1
  {
    if cases == [] then [] else OneArm(cases[0]) + ArmTokens(cases[1..])
  }

  function OneArm(c: Case): seq<Token>
    requires WritableCase(c)
    decreases c, 0
  {
    [Token(Identifier, "case")] + (Print(c.guard, 0) + [COLON] + BodyTokens(c.body))
  }

  /** The default arm, written last. */
  function DefaultTokens(d: Branch): seq<Token>
    requires d.Branch? ==> AllWritable(d.body) && NoLabelWord(d.body)
    decreases d, 0
  {
    if d.Branch? then [Token(Identifier, "default")] + ([COLON] + BodyTokens(d.body)) else []
  }

  function Braced(ss: seq<Stmt>): seq<Token>
    requires AllWritable(ss)
    decreases ss, 1
  {
    [Word(BraceLeft)] + BodyTokens(ss) + [Word(BraceRight)]
  }

  function BodyTokens(ss: seq<Stmt>): seq<Token>
    requires AllWritable(ss)
    decreases ss, 0
  {
    if ss == [] then [] else StmtTokens(ss[0]) + BodyTokens(ss[1..])
  }

  // ------------------------------------------------------------- simple statements

  lemma {:induction false} DescendAll(level: nat, from: nat, t: seq<Token>, i: nat, e: Node, j: nat)
    requires level <= from <= 13 && Parse(from, t, i, false) == Parsed(e, j) && Stops(false, level, t, j)
    requires !UnaryKind(KindAt(t, i))
    ensures Parse(level, t, i, false) == Parsed(e, j)
    decreases from
  {
    hide Parse, Stops;
    if level < from {
      StopsHigher(false, level, from - 1, t, j);
      Descend(false, from - 1, t, i, e, j);
      DescendAll(level, from - 1, t, i, e, j);
    }
  }

  lemma WrappedBack(e: Node, t: seq<Token>, i: nat)
    requires Printable(e) && Here(false, t, i, Wrapped(e))
    ensures KindAt(t, i).ParenLeft? && Condition(t, i) == Parsed(e, i + |Wrapped(e)|)
    ensures Closer(KindAt(t, i + |Wrapped(e)|)) ==> Parse(0, t, i, false) == Parsed(e, i + |Wrapped(e)|)
  {
    hide Parse, Print, Here, Printable, Stops;
    var j := i + 1 + |Print(e, 0)|;
    Enclosed(false, t, i, Word(ParenLeft), Print(e, 0), Word(ParenRight));
    ParsingUndoesPrinting(false, e, t, i + 1);
    InParens(false, t, i, e, j);
    if Closer(KindAt(t, j + 1)) {
      Closes(false, 0, t, j + 1);
      DescendAll(0, 13, t, i, e, j + 1);
    }
  }

  /** A name on its own. */
  lemma OneName(name: string, t: seq<Token>, i: nat)
    requires name != "" && KindAt(t, i).Identifier? && TextAt(t, i) == name
    requires PartEnds(KindAt(t, i + 1)) && !KindAt(t, i + 1).Period?
    ensures PathPart(t, i, false) == Parsed(Part(name, [], [Str(name)]), i + 1)
    ensures Path(t, i, false) == Parsed([Part(name, [], [Str(name)])], i + 1)
  {
    hide Parse, MessageCodeAt, ComputedPart;
    var p := Part(name, [], [Str(name)]);
    assert "" + name == name && [] + [Str(name)] == [Str(name)];
    assert Atoms(t, p, false, i + 1, false) == Parsed(p, i + 1);
    assert Atoms(t, Part("", [], []), false, i, false) == Parsed(p, i + 1);
    assert PathPart(t, i, false) == Parsed(p, i + 1);
    assert MoreParts(t, [p], i + 1, false) == Parsed([p], i + 1);
  }

  /** A printed path in front of an assignment operator. */
  lemma TargetBack(e: Node, t: seq<Token>, i: nat)
    requires e.VarRef? && Printable(e) && Here(false, t, i, Bare(e)) && AssignKind(KindAt(t, i + |Bare(e)|))
    ensures KindAt(t, i).Identifier? && Path(t, i, false) == Parsed(e.parts, i + |Bare(e)|)
  {
    hide PartTokens, PathPart, Parse, PrintablePart, MoreParts, Here, OpKind, LevelOf, Printable;
    PrintableVarRef(e);
    var parts := e.parts;
    var a, b := PartTokens(parts[0]), PathTail(parts[1..]);
    var j := i + |a|;
    Split(false, t, i, a, b);
    PartFirst(false, parts[0], t, i);
    TailPeriod(false, parts[1..], t, j);
    PartBack(false, parts[0], t, i);
    PathTailBack(false, parts[1..], [parts[0]], t, j);
    assert [parts[0]] + parts[1..] == parts;
  }

  lemma AssignBack(s: Stmt, t: seq<Token>, i: nat, bare: bool)
    requires s.Assign? && WritableSimple(s) && Here(false, t, i, SimpleTokens(s))
    requires var k := KindAt(t, i + |SimpleTokens(s)|); Closer(k) && (!bare ==> k.End?)
    ensures Simple(t, i, bare) == Parsed(s, i + |SimpleTokens(s)| + if bare then 0 else 1)
  {
    hide Parse, Bare, Here, Printable, Path, Args, Wrapped, Simple, AssignTail, KindAt, TextAt, ValueTokens;
    var a, op, b := Bare(s.target), Token(AssignOpKind(s.op), s.op), ValueTokens(s.value);
    var k := i + |a|;
    Between(false, t, i, a, op, b);
    TargetBack(s.target, t, i);
    var extra, at, e := ValueBack(s.value, [], t, k + 1);
    assert [] + extra == extra;
    if s.op != "=" { NotChained(s.value); }
    AssignTaken(s, t, i, k, extra, at, e, bare);
  }

  lemma NotChained(v: Node)
    requires WritableValue(v, false)
    ensures WritableValue(v, true) && !v.AssignNode?
  {
    hide Printable;
  }

  /** The tokens of a value: the further targets, where they end, and what is assigned. */
  lemma {:induction false} ValueBack(v: Node, done: seq<Node>, t: seq<Token>, i: nat)
    returns (extra: seq<Node>, at: nat, e: Node)
    requires WritableValue(v, true) && Here(false, t, i, ValueTokens(v)) && Closer(KindAt(t, i + |ValueTokens(v)|))
    ensures Targets(t, done, i) == (done + extra, at) && Chained(extra, e) == v
    ensures Parse(0, t, at, false) == Parsed(e, i + |ValueTokens(v)|)
    ensures !v.AssignNode? ==> extra == [] && at == i
  {
    hide Parse, Bare, Here, Printable, Path, Wrapped, Targets, KindAt, TextAt;
    if v.AssignNode? {
      var a, rest := Bare(v.target), ValueTokens(v.value);
      var j := i + |a|;
      Between(false, t, i, a, Token(OpAssign, "="), rest);
      TargetBack(v.target, t, i);
      TargetTaken(t, done, i, v.target.parts, j);
      var more;
      more, at, e := ValueBack(v.value, done + [v.target], t, j + 1);
      extra := [v.target] + more;
      assert done + [v.target] + more == done + extra;
      assert extra[1..] == more;
    } else {
      WrappedBack(v, t, i);
      NoTargets(t, done, i);
      extra, at, e := [], i, v;
      assert done + [] == done;
    }
  }

  lemma TargetTaken(t: seq<Token>, done: seq<Node>, i: nat, parts: seq<Part>, j: nat)
    requires KindAt(t, i).Identifier? && Path(t, i, false) == Parsed(parts, j) && KindAt(t, j).OpAssign?
    ensures Targets(t, done, i) == Targets(t, done + [VarRef(parts)], j + 1)
  {
    hide Path;
  }

  lemma AssignTaken(
    s: Stmt, t: seq<Token>, i: nat, k: nat, extra: seq<Node>, at: nat, e: Node, bare: bool)
    requires s.Assign? && s.target.VarRef? && KindAt(t, i).Identifier? && Path(t, i, false) == Parsed(s.target.parts, k)
    requires AssignKind(KindAt(t, k)) && TextAt(t, k) == s.op
    requires if s.op == "=" then Targets(t, [], k + 1) == (extra, at) else extra == [] && at == k + 1
    requires Chained(extra, e) == s.value && Parse(0, t, at, false).Parsed? && Parse(0, t, at, false).tree == e
    requires bare || KindAt(t, Parse(0, t, at, false).at).End?
    ensures Simple(t, i, bare) == Parsed(s, Parse(0, t, at, false).at + if bare then 0 else 1)
  {
    hide Path, Args, Listed, Parse, Targets, KindAt, TextAt;
  }

  lemma NoTargets(t: seq<Token>, done: seq<Node>, i: nat)
    requires KindAt(t, i).ParenLeft?
    ensures Targets(t, done, i) == (done, i)
  {
    hide Path;
  }

  lemma UserCallBack(s: Stmt, t: seq<Token>, i: nat, bare: bool)
    requires s.UserCall? && WritableSimple(s) && Here(false, t, i, SimpleTokens(s))
    requires var k := KindAt(t, i + |SimpleTokens(s)|); Terminates(k) && (!bare ==> k.End?)
    ensures Simple(t, i, bare) == Parsed(s, i + |SimpleTokens(s)| + if bare then 0 else 1)
  {
    hide Items, Here, Printable, Path, Args, Parse, Simple, KindAt, TextAt;
    var name, rest := Token(Identifier, s.name), Items(s.args) + [Word(ParenRight)];
    assert SimpleTokens(s) == [name] + ([Word(ParenLeft)] + rest);
    At(false, t, i, name, [Word(ParenLeft)] + rest);
    At(false, t, i + 1, Word(ParenLeft), rest);
    CallArgsBack(false, s.args, t, i + 2);
    OneName(s.name, t, i);
    CallTaken(s, t, i, i + |SimpleTokens(s)|, bare);
  }

  lemma CallTaken(s: Stmt, t: seq<Token>, i: nat, end: nat, bare: bool)
    requires s.UserCall? && s.name != "" && KindAt(t, i).Identifier? && TextAt(t, i) == s.name
    requires KindAt(t, i + 1).ParenLeft? && Path(t, i, false) == Parsed([Part(s.name, [], [Str(s.name)])], i + 1)
    requires Args(t, i + 2, false) == Parsed(s.args, end)
    requires var k := KindAt(t, end); Terminates(k) && (!bare ==> k.End?)
    ensures Simple(t, i, bare) == Parsed(s, if bare then end else end + 1)
  {
    hide Path, Args, Listed, AssignTail, KindAt, TextAt;
  }

  lemma ExprBack(s: Stmt, t: seq<Token>, i: nat, bare: bool)
    requires s.ExprStmt? && WritableSimple(s) && Here(false, t, i, SimpleTokens(s))
    requires var k := KindAt(t, i + |SimpleTokens(s)|); Closer(k) && (!bare ==> k.End?)
    ensures Simple(t, i, bare) == Parsed(s, i + |SimpleTokens(s)| + if bare then 0 else 1)
  {
    hide Parse, Here, Printable, Path, Args, Wrapped;
    WrappedBack(s.expr.value, t, i);
  }

  lemma SimpleBack(s: Stmt, t: seq<Token>, i: nat, bare: bool)
    requires WritableSimple(s) && Here(false, t, i, SimpleTokens(s))
    requires var k := KindAt(t, i + |SimpleTokens(s)|);
             Closer(k) && (!bare ==> k.End?) && (s.UserCall? ==> Terminates(k))
    ensures Simple(t, i, bare) == Parsed(s, i + |SimpleTokens(s)| + if bare then 0 else 1)
  {
    hide Simple, SimpleTokens, Here;
    if s.Assign? {
      AssignBack(s, t, i, bare);
    } else if s.UserCall? {
      UserCallBack(s, t, i, bare);
    } else {
      ExprBack(s, t, i, bare);
    }
  }

  lemma SimpleFirst(s: Stmt, t: seq<Token>, i: nat)
    requires WritableSimple(s) && Here(false, t, i, SimpleTokens(s))
    ensures KindAt(t, i).Identifier? || KindAt(t, i).ParenLeft?
    ensures SimpleTokens(s) != []
  {
    hide Here, Print, Printable, Items, Bare, AssignOpKind;
    if s.Assign? {
      var a, b := Bare(s.target), [Token(AssignOpKind(s.op), s.op)] + ValueTokens(s.value);
      assert SimpleTokens(s) == a + b;
      Split(false, t, i, a, b);
      PathFirst(s.target, t, i);
    } else {
      Leads(false, t, i, SimpleTokens(s));
    }
  }

  lemma PathFirst(e: Node, t: seq<Token>, i: nat)
    requires e.VarRef? && Printable(e) && Here(false, t, i, Bare(e))
    ensures KindAt(t, i).Identifier? && Bare(e) != []
  {
    hide PartTokens, Here, PrintablePart, Printable;
    PrintableVarRef(e);
    Split(false, t, i, PartTokens(e.parts[0]), PathTail(e.parts[1..]));
    PartFirst(false, e.parts[0], t, i);
    FirstOfPart(e.parts[0]);
  }

  // ------------------------------------------------------------- statements

  /** No else follows at `i`, terminators aside. */
  predicate NoElse(t: seq<Token>, i: nat) {
    var k := KindAt(t, Skip(t, i));
    !k.KwElse? && !k.KwElseIf?
  }

  /** What a written statement starts with. */
  predicate StmtStarter(k: Kind) {
    k.KwIf? || k.BraceLeft? || k.KwFor? || k.KwSwitch? || k.KwWhile? || k.KwWith? || k.KwFunction? || k.KwReturn?
    || k.KwBreak? || k.KwContinue? || k.CommandName? || k.Identifier? || k.ParenLeft?
  }

  lemma StmtFirst(s: Stmt, t: seq<Token>, i: nat)
    requires Writable(s) && Here(false, t, i, StmtTokens(s))
    ensures StmtStarter(KindAt(t, i)) && StmtTokens(s) != []
  {
    hide Here, Printable, Items, Print, AllWritable;
    if s.Assign? || s.UserCall? || s.ExprStmt? {
      Split(false, t, i, SimpleTokens(s), [Word(End)]);
      SimpleFirst(s, t, i);
    } else {
      StmtLeads(s);
      Leads(false, t, i, StmtTokens(s));
    }
  }

  lemma StmtLeads(s: Stmt)
    requires Writable(s) && !s.Assign? && !s.UserCall? && !s.ExprStmt?
    ensures StmtTokens(s) != [] && StmtStarter(StmtTokens(s)[0].kind)
  {
    hide Wrapped, CommandTokens, WritableArg, HeaderTokens, BodyTokens, Printable, ParamTokens, AllWritable, ArmTokens,
      DefaultTokens, WritableCase, NoLabelWord;
  }

  /** After a body a statement, or the brace or end that closes the list, follows. */
  lemma NoElseHere(t: seq<Token>, i: nat)
    requires var k := KindAt(t, i); StmtStarter(k) || k.BraceRight? || k.Eof? || k.Identifier?
    ensures NoElse(t, i) && Skip(t, i) == i
  {
  }

  lemma BodyTakes(s: Stmt, done: seq<Stmt>, t: seq<Token>, i: nat, j: nat, recover: bool)
    requires StmtStarter(KindAt(t, i)) && Statement(t, i, recover) == Result(Parsed(s, j), [])
    ensures BlockRest(t, done, i, recover) == BlockRest(t, done + [s], j, recover)
  {
    hide Statement;
  }

  lemma ProgramTakes(s: Stmt, done: seq<Stmt>, t: seq<Token>, i: nat, j: nat, recover: bool)
    requires StmtStarter(KindAt(t, i)) && Statement(t, i, recover) == Result(Parsed(s, j), [])
    ensures Program(t, done, i, recover) == Program(t, done + [s], j, recover)
  {
    hide Statement;
  }

  lemma NoStatements(done: seq<Stmt>, t: seq<Token>, i: nat, recover: bool)
    ensures BodyTokens([]) == []
    ensures KindAt(t, i).BraceRight? ==> BlockRest(t, done, i, recover) == Result(Parsed(done, i + 1), [])
    ensures KindAt(t, i).Eof? ==> Program(t, done, i, recover) == Result(Parsed(done, i), [])
  {
  }

  /** A written body reads back, statement by statement and without errors, up to its
      brace. */
  lemma {:induction false} BodyBack(ss: seq<Stmt>, done: seq<Stmt>, t: seq<Token>, i: nat, recover: bool)
    requires AllWritable(ss) && Here(false, t, i, BodyTokens(ss)) && KindAt(t, i + |BodyTokens(ss)|).BraceRight?
    ensures BlockRest(t, done, i, recover) == Result(Parsed(done + ss, i + |BodyTokens(ss)| + 1), [])
    decreases ss, 0
  {
    hide Statement, Here, StmtTokens, Writable, BodyTokens, AllWritable, BlockRest;
    if ss == [] {
      assert done + ss == done;
      NoStatements(done, t, i, recover);
    } else {
      var j := NextStatement(ss, t, i);
      StatementBack(ss[0], t, i, recover);
      BodyTakes(ss[0], done, t, i, j, recover);
      BodyBack(ss[1..], done + [ss[0]], t, j, recover);
      assert done + [ss[0]] + ss[1..] == done + ss;
    }
  }

  /** Where the first of several written statements ends, the next one or the end of the
      list stands. */
  lemma NextStatement(ss: seq<Stmt>, t: seq<Token>, i: nat) returns (j: nat)
    requires ss != [] && AllWritable(ss) && Here(false, t, i, BodyTokens(ss))
    requires var k := KindAt(t, i + |BodyTokens(ss)|); k.BraceRight? || k.Eof? || k.Identifier?
    ensures Writable(ss[0]) && AllWritable(ss[1..])
    ensures Here(false, t, i, StmtTokens(ss[0])) && j == i + |StmtTokens(ss[0])| && StmtStarter(KindAt(t, i)) && j > i
    ensures Here(false, t, j, BodyTokens(ss[1..])) && j + |BodyTokens(ss[1..])| == i + |BodyTokens(ss)|
    ensures NoElse(t, j)
  {
    hide Here, StmtTokens, Writable, NoElse, StmtStarter;
    var a, b := StmtTokens(ss[0]), BodyTokens(ss[1..]);
    j := i + |a|;
    Split(false, t, i, a, b);
    StmtFirst(ss[0], t, i);
    if ss[1..] != [] {
      Split(false, t, j, StmtTokens(ss[1]), BodyTokens(ss[1..][1..]));
      StmtFirst(ss[1], t, j);
    }
    NoElseHere(t, j);
  }

  lemma {:induction false} BracedBack(ss: seq<Stmt>, t: seq<Token>, i: nat, recover: bool)
    requires AllWritable(ss) && Here(false, t, i, Braced(ss))
    ensures KindAt(t, i).BraceLeft?
    ensures BlockAt(t, i, recover) == Result(Parsed(ss, i + |Braced(ss)|), [])
    ensures BlockRest(t, [], i + 1, recover) == Result(Parsed(ss, i + |Braced(ss)|), [])
    decreases ss, 1
  {
    hide BlockRest, Here, BodyTokens, AllWritable, Statement;
    Enclosed(false, t, i, Word(BraceLeft), BodyTokens(ss), Word(BraceRight));
    BodyBack(ss, [], t, i + 1, recover);
    assert [] + ss == ss;
  }

  lemma IfLayout(s: Stmt, t: seq<Token>, i: nat) returns (j: nat, k: nat)
    requires s.If? && Writable(s) && Here(false, t, i, StmtTokens(s))
    ensures Printable(s.cond) && AllWritable(s.thenB) && (s.els.Branch? ==> AllWritable(s.els.body))
    ensures KindAt(t, i).KwIf? && Here(false, t, i + 1, Wrapped(s.cond)) && j == i + 1 + |Wrapped(s.cond)|
    ensures Here(false, t, j, Braced(s.thenB)) && k == j + |Braced(s.thenB)|
    ensures var els := if s.els.Branch? then [Word(KwElse)] + Braced(s.els.body) else [];
            Here(false, t, k, els) && k + |els| == i + |StmtTokens(s)|
  {
    hide Here, Wrapped, Braced, AllWritable, Printable;
    var c, b := Wrapped(s.cond), Braced(s.thenB);
    var els := if s.els.Branch? then [Word(KwElse)] + Braced(s.els.body) else [];
    j, k := i + 1 + |c|, i + 1 + |c| + |b|;
    At(false, t, i, Word(KwIf), c + (b + els));
    Split(false, t, i + 1, c, b + els);
    Split(false, t, j, b, els);
  }

  lemma {:induction false} IfBack(s: Stmt, t: seq<Token>, i: nat, recover: bool)
    requires s.If? && Writable(s) && Here(false, t, i, StmtTokens(s)) && NoElse(t, i + |StmtTokens(s)|)
    ensures Statement(t, i, recover) == Result(Parsed(s, i + |StmtTokens(s)|), [])
    decreases s, 0
  {
    hide Here, Wrapped, Braced, AllWritable, Printable, Writable, StmtTokens, Condition, BlockAt, ElseTail,
      Statement, NoElse, KindAt;
    var j, k := IfLayout(s, t, i);
    WrappedBack(s.cond, t, i + 1);
    BracedBack(s.thenB, t, j, recover);
    ElseBack(s.els, t, k, recover);
    IfTakes(s, t, i, j, k, i + |StmtTokens(s)|, recover);
  }

  lemma {:induction false} ElseBack(els: Branch, t: seq<Token>, i: nat, recover: bool)
    requires els.Branch? ==> AllWritable(els.body)
    requires Here(false, t, i, if els.Branch? then [Word(KwElse)] + Braced(els.body) else [])
    requires var end := i + |if els.Branch? then [Word(KwElse)] + Braced(els.body) else []|; NoElse(t, end)
    ensures ElseTail(t, i, recover) ==
              Result(Parsed(els, i + |if els.Branch? then [Word(KwElse)] + Braced(els.body) else []|), [])
    decreases els, 0
  {
    hide Here, Braced, AllWritable, BlockAt, ElseTail, KindAt, NoElse;
    if els.Branch? {
      At(false, t, i, Word(KwElse), Braced(els.body));
      BracedBack(els.body, t, i + 1, recover);
      ElseTakes(els.body, t, i, i + 1 + |Braced(els.body)|, recover);
    } else {
      NoElseTail(t, i, recover);
    }
  }

  lemma ElseTakes(b: seq<Stmt>, t: seq<Token>, i: nat, end: nat, recover: bool)
    requires KindAt(t, i).KwElse? && BlockAt(t, i + 1, recover) == Result(Parsed(b, end), [])
    ensures ElseTail(t, i, recover) == Result(Parsed(Branch(b), end), [])
  {
    hide BlockAt;
    assert Skip(t, i) == i;
  }

  lemma NoElseTail(t: seq<Token>, i: nat, recover: bool)
    requires NoElse(t, i)
    ensures ElseTail(t, i, recover) == Result(Parsed(NoBranch, i), [])
  {
    hide BlockAt, IfTail;
  }

  lemma IfTakes(s: Stmt, t: seq<Token>, i: nat, j: nat, k: nat, end: nat, recover: bool)
    requires s.If? && KindAt(t, i).KwIf? && Condition(t, i + 1) == Parsed(s.cond, j)
    requires BlockAt(t, j, recover) == Result(Parsed(s.thenB, k), [])
    requires ElseTail(t, k, recover) == Result(Parsed(s.els, end), [])
    ensures Statement(t, i, recover) == Result(Parsed(s, end), [])
  {
    hide Condition, BlockAt, ElseTail;
    assert IfTail(t, i + 1, recover) == Result(Parsed(s, end), []);
    Dispatch(t, i, recover);
  }

  /** Where each keyword leads. */
  lemma Dispatch(t: seq<Token>, i: nat, recover: bool)
    ensures var k, s := KindAt(t, i), Statement(t, i, recover);
            && (k.KwIf? ==> s == IfTail(t, i + 1, recover))
            && (k.KwFor? ==> s == ForTail(t, i + 1, recover))
            && (k.KwWhile? || k.KwWith? ==> s == Headed(t, i + 1, k, recover))
            && (k.KwFunction? ==> s == FunctionTail(t, i + 1, recover))
            && (k.KwSwitch? ==> s == SwitchTail(t, i + 1, recover))
  {
    hide IfTail, ForTail, Headed, FunctionTail, SwitchTail;
  }

  lemma HeadedLayout(s: Stmt, t: seq<Token>, i: nat) returns (e: Node, j: nat)
    requires (s.While? || s.With?) && Writable(s) && Here(false, t, i, StmtTokens(s))
    ensures e == (if s.While? then s.cond else s.subject) && Printable(e) && AllWritable(s.body)
    ensures KindAt(t, i) == (if s.While? then KwWhile else KwWith)
    ensures Here(false, t, i + 1, Wrapped(e)) && j == i + 1 + |Wrapped(e)|
    ensures Here(false, t, j, Braced(s.body)) && j + |Braced(s.body)| == i + |StmtTokens(s)|
  {
    hide Here, Wrapped, Braced, AllWritable, Printable;
    e := if s.While? then s.cond else s.subject;
    var c, b := Wrapped(e), Braced(s.body);
    At(false, t, i, Word(if s.While? then KwWhile else KwWith), c + b);
    Split(false, t, i + 1, c, b);
    j := i + 1 + |c|;
  }

  lemma {:induction false} HeadedBack(s: Stmt, t: seq<Token>, i: nat, recover: bool)
    requires (s.While? || s.With?) && Writable(s) && Here(false, t, i, StmtTokens(s))
    ensures Statement(t, i, recover) == Result(Parsed(s, i + |StmtTokens(s)|), [])
    decreases s, 0
  {
    hide Here, Wrapped, Braced, AllWritable, Printable, Writable, StmtTokens, Condition, BlockAt, Statement;
    var e, j := HeadedLayout(s, t, i);
    WrappedBack(e, t, i + 1);
    BracedBack(s.body, t, j, recover);
    HeadedTakes(s, e, t, i, j, i + |StmtTokens(s)|, recover);
  }

  lemma HeadedTakes(s: Stmt, e: Node, t: seq<Token>, i: nat, j: nat, end: nat, recover: bool)
    requires if KindAt(t, i).KwWhile? then s.While? && s.cond == e
             else KindAt(t, i).KwWith? && s.With? && s.subject == e
    requires Condition(t, i + 1) == Parsed(e, j) && BlockAt(t, j, recover) == Result(Parsed(s.body, end), [])
    ensures Statement(t, i, recover) == Result(Parsed(s, end), [])
  {
    hide Condition, BlockAt, Statement;
    Dispatch(t, i, recover);
  }

  /** An optional part of a header, before the token that ends it. */
  lemma PartOfHeader(part: Option<Stmt>, stop: Kind, t: seq<Token>, i: nat)
    requires part.Some? ==> WritableSimple(part.value)
    requires stop.End? || (stop.ParenRight? && (part.Some? ==> !part.value.UserCall?))
    requires Here(false, t, i, if part.Some? then SimpleTokens(part.value) else [])
    requires KindAt(t, i + |if part.Some? then SimpleTokens(part.value) else []|) == stop
    ensures ForPart(t, i, stop) ==
              Parsed(part, i + |if part.Some? then SimpleTokens(part.value) else []|)
  {
    hide Simple, SimpleTokens, Here, WritableSimple;
    if part.Some? {
      SimpleFirst(part.value, t, i);
      SimpleBack(part.value, t, i, true);
    }
  }

  lemma HeaderParts(s: Stmt)
    requires s.For? && Writable(s)
    ensures s.init.Some? ==> WritableSimple(s.init.value)
    ensures s.check.Some? ==> Printable(s.check.value)
    ensures s.post.Some? ==> WritableSimple(s.post.value) && !s.post.value.UserCall?
  {
    hide Printable, WritableSimple, AllWritable;
  }

  lemma HeaderLayout(s: Stmt, t: seq<Token>, i: nat) returns (j: nat, k: nat, end: nat)
    requires s.For? && (s.init.Some? ==> WritableSimple(s.init.value))
    requires s.check.Some? ==> Printable(s.check.value)
    requires s.post.Some? ==> WritableSimple(s.post.value)
    requires Here(false, t, i, HeaderTokens(s.init, s.check, s.post))
    ensures var a := if s.init.Some? then SimpleTokens(s.init.value) else [];
            Here(false, t, i, a) && j == i + |a| && KindAt(t, j).End?
    ensures var b := if s.check.Some? then Print(s.check.value, 0) else [];
            Here(false, t, j + 1, b) && k == j + 1 + |b| && KindAt(t, k).End?
    ensures var c := if s.post.Some? then SimpleTokens(s.post.value) else [];
            Here(false, t, k + 1, c) && end == k + 1 + |c| && KindAt(t, end).ParenRight?
    ensures end + 1 == i + |HeaderTokens(s.init, s.check, s.post)|
  {
    hide Here, SimpleTokens, Print, Printable, WritableSimple, KindAt;
    var a := if s.init.Some? then SimpleTokens(s.init.value) else [];
    var b := if s.check.Some? then Print(s.check.value, 0) else [];
    var c := if s.post.Some? then SimpleTokens(s.post.value) else [];
    j, k, end := i + |a|, i + |a| + 1 + |b|, i + |a| + 1 + |b| + 1 + |c|;
    assert HeaderTokens(s.init, s.check, s.post) == a + [Word(End)] + (b + [Word(End)] + (c + [Word(ParenRight)]));
    ThreeParts(a, b, c, t, i);
  }

  lemma ThreeParts(a: seq<Token>, b: seq<Token>, c: seq<Token>, t: seq<Token>, i: nat)
    requires Here(false, t, i, a + [Word(End)] + (b + [Word(End)] + (c + [Word(ParenRight)])))
    ensures var j := i + |a|;
            var k := j + 1 + |b|;
            var end := k + 1 + |c|;
            && Here(false, t, i, a) && KindAt(t, j).End? && Here(false, t, j + 1, b) && KindAt(t, k).End?
            && Here(false, t, k + 1, c) && KindAt(t, end).ParenRight?
  {
    hide Here, KindAt;
    var j, last := i + |a|, [Word(ParenRight)];
    var k := j + 1 + |b|;
    Between(false, t, i, a, Word(End), b + [Word(End)] + (c + last));
    Between(false, t, j + 1, b, Word(End), c + last);
    Split(false, t, k + 1, c, last);
    Leads(false, t, k + 1 + |c|, last);
  }

  lemma HeaderBack(s: Stmt, t: seq<Token>, i: nat)
    requires s.For? && Writable(s) && KindAt(t, i).ParenLeft?
    requires Here(false, t, i + 1, HeaderTokens(s.init, s.check, s.post))
    ensures ForHeader(t, i) ==
              Parsed(Header(s.init, s.check, s.post), i + 1 + |HeaderTokens(s.init, s.check, s.post)|)
  {
    hide Here, SimpleTokens, Print, Printable, WritableSimple, Writable, HeaderTokens, ForHeader, ForPart, ForCheck;
    HeaderParts(s);
    var j, k, end := HeaderLayout(s, t, i + 1);
    PartOfHeader(s.init, End, t, i + 1);
    CheckBack(s.check, t, j + 1);
    PartOfHeader(s.post, ParenRight, t, k + 1);
    HeaderTakes(s, t, i, j, k, end);
  }

  lemma HeaderTakes(s: Stmt, t: seq<Token>, i: nat, j: nat, k: nat, end: nat)
    requires s.For? && KindAt(t, i).ParenLeft?
    requires ForPart(t, i + 1, End) == Parsed(s.init, j) && KindAt(t, j).End?
    requires ForCheck(t, j + 1) == Parsed(s.check, k + 1)
    requires ForPart(t, k + 1, ParenRight) == Parsed(s.post, end) && KindAt(t, end).ParenRight?
    ensures ForHeader(t, i) == Parsed(Header(s.init, s.check, s.post), end + 1)
  {
    hide ForPart, ForCheck;
    assert Skip(t, end) == end;
  }

  lemma CheckBack(check: Option<Node>, t: seq<Token>, i: nat)
    requires check.Some? ==> Printable(check.value)
    requires Here(false, t, i, if check.Some? then Print(check.value, 0) else [])
    requires KindAt(t, i + |if check.Some? then Print(check.value, 0) else []|).End?
    ensures ForCheck(t, i) == Parsed(check, i + |if check.Some? then Print(check.value, 0) else []| + 1)
  {
    hide Here, Print, Printable, Parse;
    if check.Some? {
      assert Print(check.value, 0) + [] == Print(check.value, 0);
      FirstHere(false, check.value, 0, [], t, i);
      ParsingUndoesPrinting(false, check.value, t, i);
    }
  }

  lemma {:induction false} ForBack(s: Stmt, t: seq<Token>, i: nat, recover: bool)
    requires s.For? && Writable(s) && Here(false, t, i, StmtTokens(s))
    ensures Statement(t, i, recover) == Result(Parsed(s, i + |StmtTokens(s)|), [])
    decreases s, 0
  {
    hide Here, HeaderTokens, Braced, AllWritable, Printable, ForHeader, BlockAt, WritableSimple, Statement;
    var h, b := HeaderTokens(s.init, s.check, s.post), Braced(s.body);
    At(false, t, i, Word(KwFor), [Word(ParenLeft)] + (h + b));
    At(false, t, i + 1, Word(ParenLeft), h + b);
    Split(false, t, i + 2, h, b);
    HeaderBack(s, t, i + 1);
    BracedBack(s.body, t, i + 2 + |h|, recover);
    ForTakes(s, t, i, i + 2 + |h|, i + |StmtTokens(s)|, recover);
  }

  lemma ForTakes(s: Stmt, t: seq<Token>, i: nat, j: nat, end: nat, recover: bool)
    requires s.For? && KindAt(t, i).KwFor?
    requires ForHeader(t, i + 1) == Parsed(Header(s.init, s.check, s.post), j)
    requires BlockAt(t, j, recover) == Result(Parsed(s.body, end), [])
    ensures Statement(t, i, recover) == Result(Parsed(s, end), [])
  {
    hide ForHeader, BlockAt, Statement;
    Dispatch(t, i, recover);
  }

  lemma ParamLayout(ps: seq<string>, t: seq<Token>, i: nat)
    requires ps != [] && Here(false, t, i, ParamTokens(ps))
    ensures KindAt(t, i).Identifier? && TextAt(t, i) == ps[0]
    ensures if |ps| == 1 then KindAt(t, i + 1).ParenRight? && |ParamTokens(ps)| == 2
            else KindAt(t, i + 1).Comma? && Here(false, t, i + 2, ParamTokens(ps[1..]))
                 && |ParamTokens(ps)| == 2 + |ParamTokens(ps[1..])|
  {
    hide Here;
    var tail := ParamTail(ps[1..]);
    At(false, t, i, Token(Identifier, ps[0]), tail);
    if |ps| == 1 {
      Leads(false, t, i + 1, tail);
    } else {
      assert tail == [Word(Comma)] + ParamTokens(ps[1..]);
      At(false, t, i + 1, Word(Comma), ParamTokens(ps[1..]));
    }
  }

  lemma {:induction false} ParamsBack(ps: seq<string>, done: seq<string>, t: seq<Token>, i: nat)
    requires ps != [] && (forall k :: 0 <= k < |ps| ==> ps[k] != "") && Here(false, t, i, ParamTokens(ps))
    ensures Parameters(t, done, i) == Parsed(done + ps, i + |ParamTokens(ps)|)
    decreases |ps|
  {
    hide Here, Path, PathPart, Parameters, ParamTokens;
    ParamLayout(ps, t, i);
    OneName(ps[0], t, i);
    ParamTakes(ps[0], done, t, i);
    if |ps| == 1 {
      assert done + [ps[0]] == done + ps;
    } else {
      ParamsBack(ps[1..], done + [ps[0]], t, i + 2);
      assert done + [ps[0]] + ps[1..] == done + ps;
    }
  }

  lemma ParamTakes(name: string, done: seq<string>, t: seq<Token>, i: nat)
    requires name != "" && Path(t, i, false) == Parsed([Part(name, [], [Str(name)])], i + 1)
    ensures KindAt(t, i + 1).Comma? ==> Parameters(t, done, i) == Parameters(t, done + [name], i + 2)
    ensures KindAt(t, i + 1).ParenRight? ==> Parameters(t, done, i) == Parsed(done + [name], i + 2)
  {
    hide Path;
  }

  lemma FunctionLayout(s: Stmt, t: seq<Token>, i: nat) returns (j: nat)
    requires s.FuncDef? && Writable(s) && Here(false, t, i, StmtTokens(s))
    ensures s.name != "" && (forall k :: 0 <= k < |s.params| ==> s.params[k] != "") && AllWritable(s.body)
    ensures KindAt(t, i).KwFunction? && KindAt(t, i + 1).Identifier? && TextAt(t, i + 1) == s.name
    ensures KindAt(t, i + 2).ParenLeft? && Here(false, t, i + 3, ParamTokens(s.params))
    ensures j == i + 3 + |ParamTokens(s.params)| && Here(false, t, j, Braced(s.body))
    ensures j + |Braced(s.body)| == i + |StmtTokens(s)|
  {
    hide Here, ParamTokens, Braced, AllWritable;
    var ps, b := ParamTokens(s.params), Braced(s.body);
    At(false, t, i, Word(KwFunction), [Token(Identifier, s.name)] + ([Word(ParenLeft)] + (ps + b)));
    At(false, t, i + 1, Token(Identifier, s.name), [Word(ParenLeft)] + (ps + b));
    At(false, t, i + 2, Word(ParenLeft), ps + b);
    Split(false, t, i + 3, ps, b);
    j := i + 3 + |ps|;
  }

  lemma {:induction false} FunctionBack(s: Stmt, t: seq<Token>, i: nat, recover: bool)
    requires s.FuncDef? && Writable(s) && Here(false, t, i, StmtTokens(s))
    ensures Statement(t, i, recover) == Result(Parsed(s, i + |StmtTokens(s)|), [])
    decreases s, 0
  {
    hide Here, ParamTokens, Braced, AllWritable, Writable, StmtTokens, Parameters, PathPart, Path, BlockAt, Statement;
    var j := FunctionLayout(s, t, i);
    OneName(s.name, t, i + 1);
    ParamsFirst(s.params, t, i + 3);
    if s.params != [] {
      ParamsBack(s.params, [], t, i + 3);
      assert [] + s.params == s.params;
    }
    BracedBack(s.body, t, j, recover);
    FunctionTakes(s, t, i, j, i + |StmtTokens(s)|, recover);
  }

  lemma FunctionTakes(s: Stmt, t: seq<Token>, i: nat, j: nat, end: nat, recover: bool)
    requires s.FuncDef? && KindAt(t, i).KwFunction? && KindAt(t, i + 2).ParenLeft?
    requires PathPart(t, i + 1, false) == Parsed(Part(s.name, [], [Str(s.name)]), i + 2)
    requires if KindAt(t, i + 3).ParenRight? then s.params == [] && j == i + 4
             else Parameters(t, [], i + 3) == Parsed(s.params, j)
    requires BlockAt(t, j, recover) == Result(Parsed(s.body, end), [])
    ensures Statement(t, i, recover) == Result(Parsed(s, end), [])
  {
    hide PathPart, Parameters, BlockAt, Statement;
    Dispatch(t, i, recover);
  }

  lemma ParamsFirst(ps: seq<string>, t: seq<Token>, i: nat)
    requires Here(false, t, i, ParamTokens(ps))
    ensures KindAt(t, i).ParenRight? <==> ps == []
    ensures ps == [] ==> |ParamTokens(ps)| == 1
  {
    Leads(false, t, i, ParamTokens(ps));
  }

  /** A command argument that ends at `j`, and what comes behind it. */
  lemma ArgTakes(t: seq<Token>, args: seq<Node>, i: nat, e: Node, j: nat)
    requires var k := KindAt(t, i);
             if e == Str("") then (k.Comma? || k.End?) && j == i
             else if e.SpecialLit? && SpecialKind(e.kind) then k == e.kind && TextAt(t, i) == e.text && j == i + 1
             else Starter(k) && Parse(0, t, i, false) == Parsed(e, j)
    ensures CommandArgs(t, args, i) ==
              if KindAt(t, j).Comma? then CommandArgs(t, args + [e], j + 1) else Parsed(args + [e], j)
  {
    hide Parse, KindAt, TextAt;
  }

  /** No expression begins here. */
  lemma {:induction false} NoOperand(level: nat, t: seq<Token>, i: nat)
    requires level <= 13
    requires var k := KindAt(t, i); k.Comma? || k.End? || SpecialKind(k)
    ensures Parse(level, t, i, false) == Failed(i)
    decreases 14 - level
  {
    hide Parse, KindAt;
    RuleOf(level, t, i, false);
    if level < 13 { NoOperand(level + 1, t, i); }
  }

  lemma ArgTailFirst(es: seq<Node>, t: seq<Token>, i: nat)
    requires forall k :: 0 <= k < |es| ==> WritableArg(es[k])
    requires Here(false, t, i, ArgTail(es)) && KindAt(t, i + |ArgTail(es)|).End?
    ensures KindAt(t, i) == if es == [] then End else Comma
  {
    hide Here, Print, Printable, LeadsIn, KindAt, ArgTokens;
    if es != [] {
      var rest := ArgTokens(es[0], ItemLevel(es[0])) + ArgTail(es[1..]);
      assert ArgTail(es) == [Word(Comma)] + rest;
      At(false, t, i, Word(Comma), rest);
    }
  }

  /** Where an argument stands, and what the ones behind its comma begin with. */
  lemma NextArg(es: seq<Node>, t: seq<Token>, i: nat) returns (j: nat)
    requires es != [] && forall k :: 0 <= k < |es| ==> WritableArg(es[k])
    requires Here(false, t, i, ArgTail(es)) && KindAt(t, i + |ArgTail(es)|).End?
    ensures KindAt(t, i).Comma? && Here(false, t, i + 1, ArgTokens(es[0], ItemLevel(es[0])) + ArgTail(es[1..]))
    ensures Here(false, t, i + 1, ArgTokens(es[0], ItemLevel(es[0])))
    ensures j == i + 1 + |ArgTokens(es[0], ItemLevel(es[0]))|
    ensures Here(false, t, j, ArgTail(es[1..])) && j + |ArgTail(es[1..])| == i + |ArgTail(es)|
    ensures KindAt(t, j) == if es[1..] == [] then End else Comma
  {
    hide Here, Print, Printable, LeadsIn, KindAt, ArgTokens, WritableArg;
    var a, b := ArgTokens(es[0], ItemLevel(es[0])), ArgTail(es[1..]);
    assert ArgTail(es) == [Word(Comma)] + (a + b);
    At(false, t, i, Word(Comma), a + b);
    Split(false, t, i + 1, a, b);
    j := i + 1 + |a|;
    ArgTailFirst(es[1..], t, j);
  }

  /** The arguments behind a comma do not lead to an `in` of the one before it. */
  lemma {:induction false} ArgsNoIn(es: seq<Node>, values: seq<Node>, t: seq<Token>, i: nat)
    requires forall k :: 0 <= k < |es| ==> WritableArg(es[k])
    requires Here(false, t, i, ArgTail(es)) && KindAt(t, i + |ArgTail(es)|).End?
    ensures var r := Values(t, values, i, false); r.Failed? || (r.Parsed? && !KindAt(t, r.at).OpIn?)
    decreases |es|
  {
    hide Parse, Print, Stops, Here, Printable, LeadsIn, LevelOf, Values, KindAt, ArgTail;
    if es == [] {
      ArgTailFirst(es, t, i);
      NoComma(false, t, values, i);
    } else {
      var j := NextArg(es, t, i);
      if Printable(es[0]) {
        var level := ItemLevel(es[0]);
        ListStops(false, t, j);
        LowOfIn(es[0]);
        var x, k := FrontBack(false, level, es[0], t, i + 1);
        ValueTakes(false, t, values, i, x, k);
        if k == j { ArgsNoIn(es[1..], values + [x], t, j); } else { NoComma(false, t, values + [x], k); }
      } else {
        ArgFirst(es[0], t, i + 1, j);
        NoOperand(10, t, i + 1);
        ValueFails(t, values, i);
      }
    }
  }

  lemma ArgFirst(a: Node, t: seq<Token>, i: nat, j: nat)
    requires WritableArg(a) && !Printable(a) && Here(false, t, i, ArgTokens(a, 0)) && j == i + |ArgTokens(a, 0)|
    requires KindAt(t, j).Comma? || KindAt(t, j).End?
    ensures if a == Str("") then j == i
            else a.SpecialLit? && SpecialKind(a.kind) && KindAt(t, i) == a.kind && TextAt(t, i) == a.text && j == i + 1
  {
    hide Here, KindAt, TextAt;
    if a != Str("") { Leads(false, t, i, ArgTokens(a, 0)); }
  }

  lemma ValueFails(t: seq<Token>, values: seq<Node>, i: nat)
    requires KindAt(t, i).Comma? && Parse(10, t, i + 1, false).Failed?
    ensures Values(t, values, i, false).Failed?
  {
    hide Parse;
  }

  lemma {:induction false} CommandArgsBack(level: nat, es: seq<Node>, args: seq<Node>, t: seq<Token>, i: nat)
    requires level <= 10 && es != [] && forall k :: 0 <= k < |es| ==> WritableArg(es[k])
    requires Here(false, t, i, ArgTokens(es[0], level) + ArgTail(es[1..]))
    requires KindAt(t, i + |ArgTokens(es[0], level)| + |ArgTail(es[1..])|).End?
    ensures CommandArgs(t, args, i) == Parsed(args + es, i + |ArgTokens(es[0], level)| + |ArgTail(es[1..])|)
    decreases |es|
  {
    hide Parse, Print, Here, Printable, CommandArgs, LeadsIn, LevelOf, KindAt, TextAt, ArgTail, ArgTokens;
    var j := i + |ArgTokens(es[0], level)|;
    Split(false, t, i, ArgTokens(es[0], level), ArgTail(es[1..]));
    ArgTailFirst(es[1..], t, j);
    ArgBack(level, es, t, i, j);
    ArgTakes(t, args, i, es[0], j);
    if |es| == 1 {
      assert args + [es[0]] == args + es;
      NoTail(es[1..]);
    } else {
      var k := NextArg(es[1..], t, j);
      CommandArgsBack(ItemLevel(es[1]), es[1..], args + [es[0]], t, j + 1);
      assert args + [es[0]] + es[1..] == args + es;
    }
  }

  lemma NoTail(es: seq<Node>)
    requires es == []
    ensures ArgTail(es) == []
  {
  }

  lemma ArgBack(level: nat, es: seq<Node>, t: seq<Token>, i: nat, j: nat)
    requires level <= 10 && es != [] && forall k :: 0 <= k < |es| ==> WritableArg(es[k])
    requires Here(false, t, i, ArgTokens(es[0], level)) && j == i + |ArgTokens(es[0], level)|
    requires Here(false, t, j, ArgTail(es[1..])) && KindAt(t, j + |ArgTail(es[1..])|).End?
    ensures var k, e := KindAt(t, i), es[0];
            if e == Str("") then (k.Comma? || k.End?) && j == i
            else if e.SpecialLit? && SpecialKind(e.kind) then k == e.kind && TextAt(t, i) == e.text && j == i + 1
            else Starter(k) && Parse(0, t, i, false) == Parsed(e, j)
  {
    hide Parse, Values, Print, Here, Stops, LeadsIn, LevelOf, KindAt, TextAt, ArgTail;
    ArgTailFirst(es[1..], t, j);
    if Printable(es[0]) {
      ArgsNoIn(es[1..], [], t, j);
      ItemStops(false, t, j);
      StopsHigher(false, 0, level, t, j);
      Back(false, level, es[0], t, i);
      DescendTo(false, 0, level, t, i, es[0], j);
      FirstOf(es[0], level);
      Leads(false, t, i, Print(es[0], level));
    } else {
      ArgFirst(es[0], t, i, j);
    }
  }

  lemma CommandBack(s: Stmt, t: seq<Token>, i: nat, recover: bool)
    requires s.Command? && Writable(s) && Here(false, t, i, StmtTokens(s))
    ensures Statement(t, i, recover) == Result(Parsed(s, i + |StmtTokens(s)|), [])
  {
    hide Here, Printable, Print, CommandArgs, CommandTail, Statement, KindAt, TextAt, CommandTokens, WritableArg;
    var items := CommandTokens(s.args);
    At(false, t, i, Token(CommandName, s.name), items + [Word(End)]);
    assert items + [Word(End)] == items + [Word(End)] + [];
    Between(false, t, i + 1, items, Word(End), []);
    CommandItems(s.args, t, i + 1);
    CommandTaken(s, t, i + 1, i + 1 + |items|);
    CommandHere(t, i, recover);
  }

  lemma CommandHere(t: seq<Token>, i: nat, recover: bool)
    requires KindAt(t, i).CommandName?
    ensures Statement(t, i, recover) == Result(CommandTail(t, TextAt(t, i), i + 1), [])
  {
    hide CommandTail;
  }

  lemma CommandTaken(s: Stmt, t: seq<Token>, i: nat, end: nat)
    requires s.Command? && KindAt(t, end).End?
    requires if s.args == [] then end == i
             else !Terminates(KindAt(t, i)) && CommandArgs(t, [], i) == Parsed(s.args, end)
    ensures CommandTail(t, s.name, i) == Parsed(s, end + 1)
  {
    hide CommandArgs;
  }

  lemma CommandItems(es: seq<Node>, t: seq<Token>, i: nat)
    requires es != [Str("")] && forall k :: 0 <= k < |es| ==> WritableArg(es[k])
    requires Here(false, t, i, CommandTokens(es)) && KindAt(t, i + |CommandTokens(es)|).End?
    ensures if es == [] then CommandTokens(es) == [] else
              !Terminates(KindAt(t, i)) && CommandArgs(t, [], i) == Parsed(es, i + |CommandTokens(es)|)
  {
    hide Here, Printable, Parse, Print, CommandArgs, ArgTail, ArgTokens, KindAt, TextAt, WritableArg, LeadsIn;
    if es != [] {
      var j := i + |ArgTokens(es[0], 0)|;
      Split(false, t, i, ArgTokens(es[0], 0), ArgTail(es[1..]));
      ArgTailFirst(es[1..], t, j);
      ArgBack(0, es, t, i, j);
      CommandArgsBack(0, es, [], t, i);
      assert [] + es == es;
    }
  }

  lemma PlainBack(s: Stmt, t: seq<Token>, i: nat, recover: bool)
    requires (s.Flow? || s.UserCall? || s.Assign? || s.ExprStmt?) && Writable(s) && Here(false, t, i, StmtTokens(s))
    ensures Statement(t, i, recover) == Result(Parsed(s, i + |StmtTokens(s)|), [])
  {
    hide Here, Simple, SimpleTokens, WritableSimple, BlockRest, IfTail, ForTail, Headed, SwitchTail, FunctionTail,
      CommandTail;
    if s.Flow? {
      At(false, t, i, Word(s.flow), [Word(End)]);
      Leads(false, t, i + 1, [Word(End)]);
    } else {
      Split(false, t, i, SimpleTokens(s), [Word(End)]);
      Leads(false, t, i + |SimpleTokens(s)|, [Word(End)]);
      SimpleFirst(s, t, i);
      SimpleBack(s, t, i, false);
    }
  }

  /** A written statement reads back whole and without an error. */
  lemma {:induction false} StatementBack(s: Stmt, t: seq<Token>, i: nat, recover: bool)
    requires Writable(s) && Here(false, t, i, StmtTokens(s)) && NoElse(t, i + |StmtTokens(s)|)
    ensures Statement(t, i, recover) == Result(Parsed(s, i + |StmtTokens(s)|), [])
    decreases s, 1
  {
    hide Statement, Here, StmtTokens, Writable, NoElse;
    WritableKinds(s);
    if s.If? {
      IfBack(s, t, i, recover);
    } else if s.While? || s.With? {
      HeadedBack(s, t, i, recover);
    } else if s.For? {
      ForBack(s, t, i, recover);
    } else if s.FuncDef? {
      FunctionBack(s, t, i, recover);
    } else if s.Switch? {
      SwitchBack(s, t, i, recover);
    } else if s.Command? {
      CommandBack(s, t, i, recover);
    } else if s.Block? {
      BlockBack(s, t, i, recover);
    } else {
      PlainBack(s, t, i, recover);
    }
  }

  lemma WritableKinds(s: Stmt)
    requires Writable(s)
    ensures (s.UserCall? || s.Assign? || s.ExprStmt? ==> WritableSimple(s))
  {
    hide WritableSimple, AllWritable, Printable;
  }

  // ------------------------------------------------------------- switch

  lemma SwitchLayout(s: Stmt, t: seq<Token>, i: nat) returns (j: nat, k: nat, end: nat)
    requires s.Switch? && Writable(s) && Here(false, t, i, StmtTokens(s))
    ensures Printable(s.value) && (forall m :: 0 <= m < |s.cases| ==> WritableCase(s.cases[m]))
    ensures s.default.Branch? ==> AllWritable(s.default.body) && NoLabelWord(s.default.body)
    ensures KindAt(t, i).KwSwitch? && Here(false, t, i + 1, Wrapped(s.value)) && j == i + 1 + |Wrapped(s.value)|
    ensures KindAt(t, j).BraceLeft? && Here(false, t, j + 1, ArmTokens(s.cases)) && k == j + 1 + |ArmTokens(s.cases)|
    ensures Here(false, t, k, DefaultTokens(s.default)) && end == k + |DefaultTokens(s.default)|
    ensures KindAt(t, end).BraceRight? && end + 1 == i + |StmtTokens(s)|
  {
    hide Here, Wrapped, ArmTokens, DefaultTokens, AllWritable, Printable, WritableCase, NoLabelWord, KindAt;
    var v, arms, d, last := Wrapped(s.value), ArmTokens(s.cases), DefaultTokens(s.default), [Word(BraceRight)];
    j := i + 1 + |v|;
    k := j + 1 + |arms|;
    end := k + |d|;
    At(false, t, i, Word(KwSwitch), v + ([Word(BraceLeft)] + (arms + (d + last))));
    Split(false, t, i + 1, v, [Word(BraceLeft)] + (arms + (d + last)));
    At(false, t, j, Word(BraceLeft), arms + (d + last));
    Split(false, t, j + 1, arms, d + last);
    Split(false, t, k, d, last);
    Leads(false, t, end, last);
  }

  lemma {:induction false} SwitchBack(s: Stmt, t: seq<Token>, i: nat, recover: bool)
    requires s.Switch? && Writable(s) && Here(false, t, i, StmtTokens(s))
    ensures Statement(t, i, recover) == Result(Parsed(s, i + |StmtTokens(s)|), [])
    decreases s, 0
  {
    hide Here, Wrapped, ArmTokens, DefaultTokens, AllWritable, Printable, Writable, WritableCase, NoLabelWord,
      StmtTokens, Condition, SwitchArms, Statement, KindAt;
    var j, k, end := SwitchLayout(s, t, i);
    WrappedBack(s.value, t, i + 1);
    DefaultFirst(s.default, t, k);
    ArmsBack(s.cases, [], t, j + 1, recover);
    assert [] + s.cases == s.cases;
    DefaultBack(s.default, s.cases, t, k, recover);
    SwitchTakes(s, t, i, j, end, recover);
  }

  lemma SwitchTakes(s: Stmt, t: seq<Token>, i: nat, j: nat, k: nat, recover: bool)
    requires s.Switch? && KindAt(t, i).KwSwitch? && Condition(t, i + 1) == Parsed(s.value, j)
    requires KindAt(t, j).BraceLeft? && KindAt(t, k).BraceRight?
    requires SwitchArms(t, Arms([], NoBranch), j + 1, recover) == Result(Parsed(Arms(s.cases, s.default), k), [])
    ensures Statement(t, i, recover) == Result(Parsed(s, k + 1), [])
  {
    hide Condition, SwitchArms, Statement, Discard, KindAt;
    Dispatch(t, i, recover);
  }

  /** The words and the brace a case body ends before. */
  predicate BodyEnds(t: seq<Token>, i: nat) {
    KindAt(t, i).BraceRight? || AtWord(t, i, "case") || AtWord(t, i, "default")
  }

  lemma ArmLayout(cases: seq<Case>, t: seq<Token>, i: nat) returns (j: nat, k: nat)
    requires forall m :: 0 <= m < |cases| ==> WritableCase(cases[m])
    requires cases != [] && Here(false, t, i, ArmTokens(cases))
    ensures Printable(cases[0].guard) && ColonFree(Print(cases[0].guard, 0))
    ensures AllWritable(cases[0].body) && NoLabelWord(cases[0].body)
    ensures forall m :: 0 <= m < |cases[1..]| ==> WritableCase(cases[1..][m])
    ensures AtWord(t, i, "case") && Here(false, t, i + 1, Print(cases[0].guard, 0))
    ensures j == i + 1 + |Print(cases[0].guard, 0)| && AtWord(t, j, ":")
    ensures Here(false, t, j + 1, BodyTokens(cases[0].body)) && k == j + 1 + |BodyTokens(cases[0].body)|
    ensures Here(false, t, k, ArmTokens(cases[1..])) && k + |ArmTokens(cases[1..])| == i + |ArmTokens(cases)|
  {
    hide Here, Print, BodyTokens, AllWritable, Printable, ColonFree, KindAt, TextAt;
    var c := cases[0];
    assert WritableCase(c);
    var g, b, rest := Print(c.guard, 0), BodyTokens(c.body), ArmTokens(cases[1..]);
    j := i + 1 + |g|;
    k := j + 1 + |b|;
    Split(false, t, i, OneArm(c), rest);
    At(false, t, i, Token(Identifier, "case"), g + [COLON] + b);
    Between(false, t, i + 1, g, COLON, b);
  }

  lemma LabelBack(g: Node, t: seq<Token>, i: nat)
    requires Printable(g) && ColonFree(Print(g, 0)) && Here(false, t, i, Print(g, 0))
    requires AtWord(t, i + |Print(g, 0)|, ":")
    ensures Parse(0, t, i, true) == Parsed(g, i + |Print(g, 0)|)
  {
    hide Parse, Print, Printable;
    ParsingUndoesPrinting(true, g, t, i);
  }

  /** Where the next label begins, and so where the body before it ends. */
  lemma ArmsFirst(cases: seq<Case>, t: seq<Token>, i: nat)
    requires forall m :: 0 <= m < |cases| ==> WritableCase(cases[m])
    requires Here(false, t, i, ArmTokens(cases)) && BodyEnds(t, i + |ArmTokens(cases)|)
    ensures BodyEnds(t, i)
  {
    hide Here, Print, BodyTokens, WritableCase, Printable;
    if cases != [] {
      assert ArmTokens(cases)[0] == OneArm(cases[0])[0];
      Leads(false, t, i, ArmTokens(cases));
    }
  }

  lemma DefaultFirst(d: Branch, t: seq<Token>, i: nat)
    requires (d.Branch? ==> AllWritable(d.body) && NoLabelWord(d.body)) && Here(false, t, i, DefaultTokens(d))
    requires KindAt(t, i + |DefaultTokens(d)|).BraceRight?
    ensures BodyEnds(t, i)
  {
    hide Here, BodyTokens, NoLabelWord;
    if d.Branch? { Leads(false, t, i, DefaultTokens(d)); }
  }

  /** The arms read back one by one, up to the default one or the brace. */
  lemma {:induction false} ArmsBack(cases: seq<Case>, done: seq<Case>, t: seq<Token>, i: nat, recover: bool)
    requires forall m :: 0 <= m < |cases| ==> WritableCase(cases[m])
    requires Here(false, t, i, ArmTokens(cases)) && BodyEnds(t, i + |ArmTokens(cases)|)
    ensures SwitchArms(t, Arms(done, NoBranch), i, recover) ==
              SwitchArms(t, Arms(done + cases, NoBranch), i + |ArmTokens(cases)|, recover)
    decreases cases, 1
  {
    hide Here, Print, BodyTokens, NoLabelWord, WritableCase, Printable, ColonFree, Parse, SwitchArms, CaseBody, KindAt,
      TextAt, BodyEnds, OneArm;
    if cases == [] {
      assert done + cases == done;
    } else {
      var j, k := ArmLayout(cases, t, i);
      LabelBack(cases[0].guard, t, i + 1);
      ArmsFirst(cases[1..], t, k);
      CaseBodyBack(cases[0].body, [], t, j + 1, recover);
      assert [] + cases[0].body == cases[0].body;
      ArmTakes(cases[0], done, t, i, j, k, recover);
      ArmsBack(cases[1..], done + [cases[0]], t, k, recover);
      assert done + [cases[0]] + cases[1..] == done + cases;
    }
  }

  lemma ArmTakes(c: Case, done: seq<Case>, t: seq<Token>, i: nat, j: nat, k: nat, recover: bool)
    requires AtWord(t, i, "case") && Parse(0, t, i + 1, true) == Parsed(c.guard, j) && AtWord(t, j, ":")
    requires CaseBody(t, [], j + 1, recover) == Result(Parsed(c.body, k), [])
    ensures SwitchArms(t, Arms(done, NoBranch), i, recover) == SwitchArms(t, Arms(done + [c], NoBranch), k, recover)
  {
    hide Parse, CaseBody;
    assert CaseColon(t, j) == Parsed((), j + 1);
    assert Case(c.guard, c.body) == c;
    var rest := SwitchArms(t, Arms(done + [c], NoBranch), k, recover);
    assert [] + rest.errs == rest.errs;
  }

  lemma {:induction false} DefaultBack(d: Branch, done: seq<Case>, t: seq<Token>, i: nat, recover: bool)
    requires (d.Branch? ==> AllWritable(d.body) && NoLabelWord(d.body)) && Here(false, t, i, DefaultTokens(d))
    requires KindAt(t, i + |DefaultTokens(d)|).BraceRight?
    ensures SwitchArms(t, Arms(done, NoBranch), i, recover) == Result(Parsed(Arms(done, d), i + |DefaultTokens(d)|), [])
    decreases d, 1
  {
    hide Here, BodyTokens, AllWritable, NoLabelWord, CaseBody, SwitchArms, KindAt, TextAt;
    if d.Branch? {
      var b := BodyTokens(d.body);
      At(false, t, i, Token(Identifier, "default"), [COLON] + b);
      At(false, t, i + 1, COLON, b);
      CaseBodyBack(d.body, [], t, i + 2, recover);
      assert [] + d.body == d.body;
      DefaultTakes(d.body, done, t, i, i + 2 + |b|, recover);
    } else {
      NoArms(Arms(done, NoBranch), t, i, recover);
    }
  }

  lemma NoArms(arms: Arms, t: seq<Token>, i: nat, recover: bool)
    requires KindAt(t, i).BraceRight?
    ensures SwitchArms(t, arms, i, recover) == Result(Parsed(arms, i), [])
  {
  }

  lemma DefaultTakes(b: seq<Stmt>, done: seq<Case>, t: seq<Token>, i: nat, k: nat, recover: bool)
    requires AtWord(t, i, "default") && AtWord(t, i + 1, ":") && KindAt(t, k).BraceRight?
    requires CaseBody(t, [], i + 2, recover) == Result(Parsed(b, k), [])
    ensures SwitchArms(t, Arms(done, NoBranch), i, recover) == Result(Parsed(Arms(done, Branch(b)), k), [])
  {
    hide Parse, CaseBody;
    assert CaseColon(t, i + 1) == Parsed((), i + 2);
    NoArms(Arms(done, Branch(b)), t, k, recover);
  }

  /** A written case body reads back up to the next label or the closing brace. */
  lemma {:induction false} CaseBodyBack(ss: seq<Stmt>, done: seq<Stmt>, t: seq<Token>, i: nat, recover: bool)
    requires AllWritable(ss) && NoLabelWord(ss)
    requires Here(false, t, i, BodyTokens(ss)) && BodyEnds(t, i + |BodyTokens(ss)|)
    ensures CaseBody(t, done, i, recover) == Result(Parsed(done + ss, i + |BodyTokens(ss)|), [])
    decreases ss, 0
  {
    hide Statement, Here, StmtTokens, Writable, BodyTokens, AllWritable, CaseBody, KindAt, TextAt, NoElse, StmtStarter;
    if ss == [] {
      assert done + ss == done;
      NoStatements(done, t, i, recover);
      CaseBodyEnds(done, t, i, recover);
    } else {
      EndsWithName(t, i + |BodyTokens(ss)|);
      var j := NextStatement(ss, t, i);
      StatementBack(ss[0], t, i, recover);
      NotLabelWord(ss[0], t, i);
      CaseTakes(ss[0], done, t, i, j, recover);
      CaseBodyBack(ss[1..], done + [ss[0]], t, j, recover);
      assert done + [ss[0]] + ss[1..] == done + ss;
    }
  }

  lemma EndsWithName(t: seq<Token>, i: nat)
    requires BodyEnds(t, i)
    ensures KindAt(t, i).BraceRight? || KindAt(t, i).Identifier?
  {
  }

  lemma CaseBodyEnds(done: seq<Stmt>, t: seq<Token>, i: nat, recover: bool)
    requires BodyEnds(t, i)
    ensures CaseBody(t, done, i, recover) == Result(Parsed(done, i), [])
  {
  }

  lemma NotLabelWord(s: Stmt, t: seq<Token>, i: nat)
    requires Writable(s) && Here(false, t, i, StmtTokens(s)) && FirstWord(s) != "case" && FirstWord(s) != "default"
    ensures !AtWord(t, i, "case") && !AtWord(t, i, "default")
  {
    hide Here, StmtTokens, Writable, SimpleTokens, WritableSimple, KindAt, TextAt;
    WritableKinds(s);
    if s.Assign? || s.UserCall? || s.ExprStmt? {
      PlainTokens(s);
      Split(false, t, i, SimpleTokens(s), [Word(End)]);
      SimpleWord(s, t, i);
    } else {
      StmtLeads(s);
      Leads(false, t, i, StmtTokens(s));
      NotAName(s);
    }
  }

  lemma PlainTokens(s: Stmt)
    requires Writable(s) && (s.Assign? || s.UserCall? || s.ExprStmt?)
    ensures WritableSimple(s) && StmtTokens(s) == SimpleTokens(s) + [Word(End)]
  {
    hide WritableSimple, SimpleTokens;
  }

  lemma SimpleWord(s: Stmt, t: seq<Token>, i: nat)
    requires WritableSimple(s) && Here(false, t, i, SimpleTokens(s))
    ensures KindAt(t, i).Identifier? ==> TextAt(t, i) == FirstWord(s)
  {
    hide Here, Printable, Items, Print, Bare, ValueTokens, KindAt, TextAt, FirstAtomOf;
    if s.Assign? {
      var a, rest := Bare(s.target), [Token(AssignOpKind(s.op), s.op)] + ValueTokens(s.value);
      assert SimpleTokens(s) == a + rest;
      Split(false, t, i, a, rest);
      FirstAtom(s.target, t, i);
    } else {
      Leads(false, t, i, SimpleTokens(s));
    }
  }

  lemma NotAName(s: Stmt)
    requires Writable(s) && !s.Assign? && !s.UserCall? && !s.ExprStmt?
    ensures StmtTokens(s) != [] && !StmtTokens(s)[0].kind.Identifier?
  {
    hide Wrapped, CommandTokens, WritableArg, HeaderTokens, BodyTokens, Printable, ParamTokens, AllWritable, ArmTokens,
      DefaultTokens, WritableCase, NoLabelWord;
  }

  lemma FirstAtom(e: Node, t: seq<Token>, i: nat)
    requires e.VarRef? && Printable(e) && Here(false, t, i, Bare(e))
    ensures KindAt(t, i).Identifier? && TextAt(t, i) == FirstAtomOf(e)
  {
    hide Here, Printable, IndexTokens, PathTail, KindAt, TextAt;
    PrintableVarRef(e);
    var p := e.parts[0];
    PartForm(p);
    Split(false, t, i, PartTokens(p), PathTail(e.parts[1..]));
    Split(false, t, i, Names(p.atoms), IndexTokens(p.index));
    Leads(false, t, i, Names(p.atoms));
  }

  lemma CaseTakes(s: Stmt, done: seq<Stmt>, t: seq<Token>, i: nat, j: nat, recover: bool)
    requires StmtStarter(KindAt(t, i)) && !AtWord(t, i, "case") && !AtWord(t, i, "default")
    requires Statement(t, i, recover) == Result(Parsed(s, j), [])
    ensures CaseBody(t, done, i, recover) == CaseBody(t, done + [s], j, recover)
  {
    hide Statement, KindAt, TextAt;
    var rest := CaseBody(t, done + [s], j, recover);
    assert [] + rest.errs == rest.errs;
  }

  lemma {:induction false} BlockBack(s: Stmt, t: seq<Token>, i: nat, recover: bool)
    requires s.Block? && Writable(s) && Here(false, t, i, StmtTokens(s))
    ensures Statement(t, i, recover) == Result(Parsed(s, i + |StmtTokens(s)|), [])
    decreases s, 0
  {
    hide Here, AllWritable, Braced, BlockRest;
    BracedBack(s.body, t, i, recover);
  }

  // ------------------------------------------------------------- programs

  lemma {:induction false} ProgramBack(ss: seq<Stmt>, done: seq<Stmt>, t: seq<Token>, i: nat, recover: bool)
    requires AllWritable(ss) && Here(false, t, i, BodyTokens(ss)) && KindAt(t, i + |BodyTokens(ss)|).Eof?
    ensures Program(t, done, i, recover) == Result(Parsed(done + ss, i + |BodyTokens(ss)|), [])
    decreases |ss|
  {
    hide Statement, Here, StmtTokens, Writable, BodyTokens, AllWritable, Program;
    if ss == [] {
      assert done + ss == done;
      NoStatements(done, t, i, recover);
    } else {
      var j := NextStatement(ss, t, i);
      StatementBack(ss[0], t, i, recover);
      ProgramTakes(ss[0], done, t, i, j, recover);
      ProgramBack(ss[1..], done + [ss[0]], t, j, recover);
      assert done + [ss[0]] + ss[1..] == done + ss;
    }
  }

  /** Parsing undoes printing: a written program parses to itself, with no error recorded,
      whether or not the parser would recover from one. */
  lemma ProgramsReadBack(ss: seq<Stmt>, recover: bool)
    requires AllWritable(ss)
    ensures var t := BodyTokens(ss) + [Word(Eof)];
            Program(t, [], 0, recover) == Result(Parsed(ss, |t| - 1), [])
  {
    hide Program, BodyTokens, AllWritable;
    ProgramBack(ss, [], BodyTokens(ss) + [Word(Eof)], 0, recover);
    assert [] + ss == ss;
  }
}

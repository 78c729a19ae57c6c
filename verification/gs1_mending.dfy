/** A label that hangs the parser can be mended: closing its open array literal just before
    the colon, and then what is still open around it, makes an expression of it. */
module Gs1Mending {
  import opened Gs1Syntax
  import opened Gs1Grammar
  import opened Gs1Statements
  import opened Gs1Recovery
  import opened Gs1Printer
  import opened Gs1Mended

  const ZERO: Token := Token(Literal, "0")

  /** The text up to `h`, an empty name, a closing brace and `w`; then `v`. */
  function Mended(t: seq<Token>, h: nat, w: seq<Token>, v: seq<Token>): (u: seq<Token>)
    requires h <= |t|
  {
    t[..h] + [Token(Identifier, ""), Word(BraceRight)] + w + v
  }

  /** Text that ends a label expression of `level`. */
  predicate Halts(level: nat, v: seq<Token>) {
    || v == []
    || (var k := v[0].kind;
        k.ParenRight? || k.BracketRight? || k.BraceRight? || k.Colon? || k.Pipe?
        || (k.Identifier? && v[0].text == ":") || (k.OpIn? && level >= 10)
        || (k.Comma? && level >= 6 && |v| >= 3 && v[1] == ZERO && v[2].kind.Pipe?))
  }

  /** The expression ends where `v` begins. */
  predicate Ends<T>(r: Outcome<T>, h: nat, w: seq<Token>) { r.Parsed? && r.at == h + 2 + |w| }

  lemma After(t: seq<Token>, h: nat, w: seq<Token>, v: seq<Token>)
    requires BareColon(t, h)
    ensures var u, end := Mended(t, h, w, v), h + 2 + |w|;
            && Twin(t, u, h)
            && (forall k :: 0 <= k < |v| ==> KindAt(u, end + k) == v[k].kind && TextAt(u, end + k) == v[k].text)
            && KindAt(u, end) == if v == [] then Eof else v[0].kind
  {
    var u, end := Mended(t, h, w, v), h + 2 + |w|;
    assert forall k :: 0 <= k < |v| ==> u[end + k] == v[k];
  }

  lemma Longer(t: seq<Token>, h: nat, w: seq<Token>, x: seq<Token>, v: seq<Token>)
    requires h <= |t|
    ensures Mended(t, h, w + x, v) == Mended(t, h, w, x + v)
  {
  }

  /** What cannot follow where an expression of `level` ends. */
  lemma Halted(level: nat, t: seq<Token>, h: nat, w: seq<Token>, v: seq<Token>)
    requires BareColon(t, h) && Halts(level, v)
    ensures var u, end := Mended(t, h, w, v), h + 2 + |w|;
            && Twin(t, u, h) && (forall more :: level <= more ==> Halts(more, v)) && Idle(level, u, end)
  {
    hide Mended, Twin;
    After(t, h, w, v);
  }

  /** Nothing at `i` carries an expression of `level` on. */
  predicate Idle(level: nat, u: seq<Token>, i: nat) {
    var k := KindAt(u, i);
    && OpLevel(k) == 0 && !k.Question? && !k.OpInc? && !k.OpDec?
    && !k.ParenLeft? && !k.Period? && !k.BracketLeft? && !k.Literal? && !StringKind(k)
    && (k.Identifier? ==> TextAt(u, i) == ":") && (k.OpIn? ==> level >= 10) && (k.Comma? ==> level >= 6)
  }

  /** What is written behind a literal to close a construct it was left open in. */
  predicate Completes(x: seq<Token>) {
    || (|x| == 1 && var k := x[0].kind; k.ParenRight? || k.BracketRight? || k.BraceRight? || k.Pipe?)
    || (|x| == 2 && (x[0].kind.Colon? || x[0].kind.OpIn?) && x[1] == ZERO)
    || (|x| == 3 && x[0].kind.Comma? && x[1] == ZERO && x[2].kind.Pipe?)
  }

  lemma Added(t: seq<Token>, h: nat, w: seq<Token>, x: seq<Token>, v: seq<Token>)
    requires BareColon(t, h) && Completes(x)
    ensures var u, end := Mended(t, h, w + x, v), h + 2 + |w|;
            && u == Mended(t, h, w, x + v) && Twin(t, u, h)
            && KindAt(u, end) == x[0].kind && (|x| > 1 ==> KindAt(u, end + 1).Literal?)
            && (|x| > 2 ==> KindAt(u, end + 2).Pipe?)
    ensures forall level :: (if x[0].kind.OpIn? then 10 else if x[0].kind.Comma? then 6 else 0) <= level ==>
              Halts(level, x + v)
  {
    hide Mended, Twin;
    Longer(t, h, w, x, v);
    After(t, h, w, x + v);
    var u, end := Mended(t, h, w, x + v), h + 2 + |w|;
    assert KindAt(u, end) == (x + v)[0].kind;
    if |x| > 1 { assert KindAt(u, end + 1) == (x + v)[1].kind; }
    if |x| > 2 { assert KindAt(u, end + 2) == (x + v)[2].kind; }
  }

  /** A number on its own is an expression of every level. */
  lemma {:induction false} ZeroAt(level: nat, u: seq<Token>, i: nat)
    requires level <= 13 && KindAt(u, i).Literal?
    requires Idle(level, u, i + 1) && (KindAt(u, i + 1).Comma? ==> level >= 10)
    ensures Parse(level, u, i, true) == Parsed(Lit(TextAt(u, i)), i + 1)
    decreases 14 - level
  {
    hide Parse;
    RuleOf(level, u, i, true);
    if level < 13 { ZeroAt(level + 1, u, i); }
  }

  // ------------------------------------------------------------- the ladder

  lemma {:induction false} MendParse(level: nat, t: seq<Token>, h: nat, i: nat) returns (w: seq<Token>)
    requires level <= 13 && BareColon(t, h) && i <= h && Parse(level, t, i, true) == Hung(h)
    ensures forall v :: Halts(level, v) ==> Ends(Parse(level, Mended(t, h, w, v), i, true), h, w)
    decreases h - i, 3 * (14 - level) + 12
  {
    hide Parse, Expression, Chain, In, UnaryLevel, PostfixLevel, Primary, OneOp, Mended, Halts, Ends;
    RuleOf(level, t, i, true);
    if level == 0 { w := MendExpression(t, h, i); }
    else if Chains(level) { w := MendChain(level, t, h, i); }
    else if level == 9 { w := MendIn(t, h, i); }
    else if level == 11 { w := MendUnary(t, h, i); }
    else if level == 12 { w := MendPostfix(t, h, i); }
    else if level == 13 { w := MendPrimary(t, h, i); }
    else { w := MendOneOp(level, t, h, i); }
    forall v | Halts(level, v) ensures Ends(Parse(level, Mended(t, h, w, v), i, true), h, w) {
      RuleOf(level, Mended(t, h, w, v), i, true);
    }
  }

  lemma {:induction false} MendExpression(t: seq<Token>, h: nat, i: nat) returns (w: seq<Token>)
    requires BareColon(t, h) && i <= h && Expression(t, i, true) == Hung(h)
    ensures forall v :: Halts(0, v) ==> Ends(Expression(Mended(t, h, w, v), i, true), h, w)
    decreases h - i, 53
  {
    hide Parse, Ternaries, Mended, Twin, Halts, KindAt, TextAt;
    var a := Parse(1, t, i, true);
    if !a.Parsed? {
      w := MendParse(1, t, h, i);
      forall v | Halts(0, v) ensures Ends(Expression(Mended(t, h, w, v), i, true), h, w) {
        var u := Mended(t, h, w, v);
        Halted(0, t, h, w, v);
        NoQuestion(u, Parse(1, u, i, true).tree, h + 2 + |w|);
      }
    } else {
      w := MendTernaries(t, h, a.tree, a.at);
      forall v | Halts(0, v) ensures Ends(Expression(Mended(t, h, w, v), i, true), h, w) {
        Halted(0, t, h, w, v);
        SameParse(1, t, Mended(t, h, w, v), h, i);
      }
    }
  }

  lemma NoQuestion(u: seq<Token>, node: Node, i: nat)
    requires !KindAt(u, i).Question?
    ensures Ternaries(u, node, i, true) == Parsed(node, i)
  {
    hide Parse;
  }

  lemma {:induction false} MendTernaries(t: seq<Token>, h: nat, node: Node, i: nat) returns (w: seq<Token>)
    requires BareColon(t, h) && i <= h && Ternaries(t, node, i, true) == Hung(h)
    ensures i < h
    ensures forall v :: Halts(0, v) ==> Ends(Ternaries(Mended(t, h, w, v), node, i, true), h, w)
    decreases h - i, 52
  {
    hide Parse, Mended, Twin, Halts, KindAt, TextAt, Ternaries, Ends;
    var a, b := TernaryHangs(t, node, i);
    if !a.Parsed? {
      w := MendFirst(t, h, node, i);
    } else if !b.Parsed? {
      w := MendSecond(t, h, node, i, a);
    } else {
      var next := Ternary(node, a.tree, b.tree);
      w := MendTernaries(t, h, next, b.at);
      forall v | Halts(0, v) ensures Ends(Ternaries(Mended(t, h, w, v), node, i, true), h, w) {
        var u := Mended(t, h, w, v);
        Halted(0, t, h, w, v);
        SameParse(0, t, u, h, i + 1);
        SameParse(0, t, u, h, a.at + 1);
        Peer(t, u, h, i, i);
        Peer(t, u, h, a.at, a.at);
        TernaryTakes(u, node, i, a, b);
      }
    }
  }

  lemma TernaryHangs(t: seq<Token>, node: Node, i: nat) returns (a: Outcome<Node>, b: Outcome<Node>)
    requires Ternaries(t, node, i, true).Hung?
    ensures KindAt(t, i).Question? && a == Parse(0, t, i + 1, true)
    ensures if !a.Parsed? then a == Ternaries(t, node, i, true) else
              KindAt(t, a.at).Colon? && b == Parse(0, t, a.at + 1, true) && b.at > i
              && if !b.Parsed? then b == Ternaries(t, node, i, true)
                 else Ternaries(t, Ternary(node, a.tree, b.tree), b.at, true) == Ternaries(t, node, i, true)
  {
    hide Parse, Ternaries;
    a, b := TernaryForm(t, node, i);
  }

  lemma TernaryTakes(u: seq<Token>, node: Node, i: nat, a: Outcome<Node>, b: Outcome<Node>)
    requires KindAt(u, i).Question? && a.Parsed? && Parse(0, u, i + 1, true) == a
    requires KindAt(u, a.at).Colon? && b.Parsed? && Parse(0, u, a.at + 1, true) == b
    ensures Ternaries(u, node, i, true) == Ternaries(u, Ternary(node, a.tree, b.tree), b.at, true)
  {
    hide Parse, Ternaries, KindAt;
    var x, y := TernaryForm(u, node, i);
  }

  lemma {:induction false} MendFirst(t: seq<Token>, h: nat, node: Node, i: nat) returns (w: seq<Token>)
    requires BareColon(t, h) && i < h && KindAt(t, i).Question? && Parse(0, t, i + 1, true) == Hung(h)
    ensures forall v :: Halts(0, v) ==> Ends(Ternaries(Mended(t, h, w, v), node, i, true), h, w)
    decreases h - i, 51
  {
    hide Parse, Mended, Twin, Halts, KindAt, TextAt, Ternaries;
    var w0 := MendParse(0, t, h, i + 1);
    var x := [Word(Colon), ZERO];
    w := w0 + x;
    forall v | Halts(0, v) ensures Ends(Ternaries(Mended(t, h, w, v), node, i, true), h, w) {
      var u, end := Mended(t, h, w, v), h + 2 + |w0|;
      Added(t, h, w0, x, v);
      Halted(0, t, h, w, v);
      ZeroAt(0, u, end + 1);
      Peer(t, u, h, i, i);
      var a, b := Parse(0, u, i + 1, true), Parse(0, u, end + 1, true);
      TernaryTakes(u, node, i, a, b);
      NoQuestion(u, Ternary(node, a.tree, b.tree), end + 2);
    }
  }

  lemma {:induction false} MendSecond(t: seq<Token>, h: nat, node: Node, i: nat, a: Outcome<Node>)
    returns (w: seq<Token>)
    requires BareColon(t, h) && i < h && KindAt(t, i).Question? && a.Parsed? && Parse(0, t, i + 1, true) == a
    requires KindAt(t, a.at).Colon? && Parse(0, t, a.at + 1, true) == Hung(h)
    ensures forall v :: Halts(0, v) ==> Ends(Ternaries(Mended(t, h, w, v), node, i, true), h, w)
    decreases h - i, 51
  {
    hide Parse, Mended, Twin, Halts, KindAt, TextAt, Ternaries;
    w := MendParse(0, t, h, a.at + 1);
    forall v | Halts(0, v) ensures Ends(Ternaries(Mended(t, h, w, v), node, i, true), h, w) {
      var u := Mended(t, h, w, v);
      Halted(0, t, h, w, v);
      SameParse(0, t, u, h, i + 1);
      Peer(t, u, h, i, i);
      Peer(t, u, h, a.at, a.at);
      var b := Parse(0, u, a.at + 1, true);
      TernaryTakes(u, node, i, a, b);
      NoQuestion(u, Ternary(node, a.tree, b.tree), h + 2 + |w|);
    }
  }

  lemma {:induction false} MendChain(level: nat, t: seq<Token>, h: nat, i: nat) returns (w: seq<Token>)
    requires Chains(level) && BareColon(t, h) && i <= h && Chain(level, t, i, true) == Hung(h)
    ensures forall v :: Halts(level, v) ==> Ends(Chain(level, Mended(t, h, w, v), i, true), h, w)
    decreases h - i, 3 * (14 - level) + 11
  {
    hide Parse, Rest, Mended, Twin, Halts, KindAt, TextAt;
    var a := Parse(level + 1, t, i, true);
    if !a.Parsed? {
      w := MendParse(level + 1, t, h, i);
      forall v | Halts(level, v) ensures Ends(Chain(level, Mended(t, h, w, v), i, true), h, w) {
        var u := Mended(t, h, w, v);
        Halted(level, t, h, w, v);
        NoOperator(level, u, Parse(level + 1, u, i, true).tree, h + 2 + |w|);
      }
    } else {
      w := MendRest(level, t, h, a.tree, a.at);
      forall v | Halts(level, v) ensures Ends(Chain(level, Mended(t, h, w, v), i, true), h, w) {
        Halted(level, t, h, w, v);
        SameParse(level + 1, t, Mended(t, h, w, v), h, i);
      }
    }
  }

  lemma NoOperator(level: nat, u: seq<Token>, node: Node, i: nat)
    requires Chains(level) && OpLevel(KindAt(u, i)) != level
    ensures Rest(level, u, node, i, true) == Parsed(node, i)
  {
    hide Parse;
  }

  lemma {:induction false} MendRest(level: nat, t: seq<Token>, h: nat, node: Node, i: nat) returns (w: seq<Token>)
    requires Chains(level) && BareColon(t, h) && i <= h && Rest(level, t, node, i, true) == Hung(h)
    ensures i < h
    ensures forall v :: Halts(level, v) ==> Ends(Rest(level, Mended(t, h, w, v), node, i, true), h, w)
    decreases h - i, 3 * (14 - level) + 10
  {
    hide Parse, Mended, Twin, Halts, KindAt, TextAt, Rest;
    var a := RestHangs(level, t, node, i);
    if !a.Parsed? {
      w := MendParse(level + 1, t, h, i + 1);
      forall v | Halts(level, v) ensures Ends(Rest(level, Mended(t, h, w, v), node, i, true), h, w) {
        var u := Mended(t, h, w, v);
        Halted(level, t, h, w, v);
        Peer(t, u, h, i, i);
        var b := Parse(level + 1, u, i + 1, true);
        RestTakes(level, u, node, i, b);
        NoOperator(level, u, Binary(OpText(level, TextAt(u, i)), node, b.tree), h + 2 + |w|);
      }
    } else {
      w := MendRest(level, t, h, Binary(OpText(level, TextAt(t, i)), node, a.tree), a.at);
      forall v | Halts(level, v) ensures Ends(Rest(level, Mended(t, h, w, v), node, i, true), h, w) {
        var u := Mended(t, h, w, v);
        Halted(level, t, h, w, v);
        Peer(t, u, h, i, i);
        SameParse(level + 1, t, u, h, i + 1);
        RestTakes(level, u, node, i, Parse(level + 1, u, i + 1, true));
      }
    }
  }

  lemma RestHangs(level: nat, t: seq<Token>, node: Node, i: nat) returns (a: Outcome<Node>)
    requires Chains(level) && Rest(level, t, node, i, true).Hung?
    ensures OpLevel(KindAt(t, i)) == level && a == Parse(level + 1, t, i + 1, true)
    ensures Rest(level, t, node, i, true) ==
              if a.Parsed? then Rest(level, t, Binary(OpText(level, TextAt(t, i)), node, a.tree), a.at, true) else a
  {
    hide Parse;
    a := Parse(level + 1, t, i + 1, true);
  }

  lemma RestTakes(level: nat, u: seq<Token>, node: Node, i: nat, a: Outcome<Node>)
    requires Chains(level) && OpLevel(KindAt(u, i)) == level && a.Parsed? && Parse(level + 1, u, i + 1, true) == a
    ensures Rest(level, u, node, i, true) ==
              Rest(level, u, Binary(OpText(level, TextAt(u, i)), node, a.tree), a.at, true)
  {
    hide Parse;
  }

  lemma {:induction false} MendOneOp(level: nat, t: seq<Token>, h: nat, i: nat) returns (w: seq<Token>)
    requires (level == 3 || level == 4) && BareColon(t, h) && i <= h && OneOp(level, t, i, true) == Hung(h)
    ensures forall v :: Halts(level, v) ==> Ends(OneOp(level, Mended(t, h, w, v), i, true), h, w)
    decreases h - i, 3 * (14 - level) + 11
  {
    hide OneOp, Parse, Mended, Twin, Halts, KindAt, TextAt;
    var a, b := OneOpForm(level, t, i);
    if !a.Parsed? {
      w := MendParse(level + 1, t, h, i);
      forall v | Halts(level, v) ensures Ends(OneOp(level, Mended(t, h, w, v), i, true), h, w) {
        Halted(level, t, h, w, v);
        var x, y := OneOpForm(level, Mended(t, h, w, v), i);
      }
    } else {
      w := MendParse(level + 1, t, h, a.at + 1);
      forall v | Halts(level, v) ensures Ends(OneOp(level, Mended(t, h, w, v), i, true), h, w) {
        var u := Mended(t, h, w, v);
        Halted(level, t, h, w, v);
        var x, y := OneOpForm(level, Mended(t, h, w, v), i);
        SameParse(level + 1, t, u, h, i);
        Peer(t, u, h, a.at, a.at);
      }
    }
  }

  lemma {:induction false} MendIn(t: seq<Token>, h: nat, i: nat) returns (w: seq<Token>)
    requires BareColon(t, h) && i <= h && In(t, i, true) == Hung(h)
    ensures forall v :: Halts(9, v) ==> Ends(In(Mended(t, h, w, v), i, true), h, w)
    decreases h - i, 26
  {
    hide Parse, Values, Range, Mended, Twin, Halts, KindAt, TextAt, In;
    var a, b := InHangs(t, i);
    if !a.Parsed? {
      w := MendParse(10, t, h, i);
      forall v | Halts(9, v) ensures Ends(In(Mended(t, h, w, v), i, true), h, w) {
        var u := Mended(t, h, w, v);
        Halted(9, t, h, w, v);
        NoList(t, h, w, v, [Parse(10, u, i, true).tree]);
        InGivesBack(u, i);
      }
    } else if !b.Parsed? {
      w := MendList(t, h, i, a);
    } else {
      w := MendSpan(t, h, i, a, b);
    }
  }

  lemma InHangs(t: seq<Token>, i: nat) returns (a: Outcome<Node>, b: Outcome<seq<Node>>)
    requires In(t, i, true).Hung?
    ensures a == Parse(10, t, i, true)
    ensures if !a.Parsed? then a == In(t, i, true) else
              b == Values(t, [a.tree], a.at, true)
              && if !b.Parsed? then b == Hung(In(t, i, true).at)
                 else KindAt(t, b.at).OpIn? && RangeOr(t, b.at + 1) == In(t, i, true)
  {
    hide Parse, Values, RangeOr, In;
    a, b := InForm(t, i);
  }

  lemma InGivesBack(u: seq<Token>, i: nat)
    requires var a := Parse(10, u, i, true);
             a.Parsed? && var b := Values(u, [a.tree], a.at, true); b.Parsed? && !KindAt(u, b.at).OpIn?
    ensures In(u, i, true) == Parse(10, u, i, true)
  {
    hide Parse, Values, Range;
  }

  lemma InTaken(u: seq<Token>, i: nat)
    requires var a := Parse(10, u, i, true);
             a.Parsed? && var b := Values(u, [a.tree], a.at, true);
                          b.Parsed? && KindAt(u, b.at).OpIn? && RangeOr(u, b.at + 1).Parsed?
    ensures var b := Values(u, [Parse(10, u, i, true).tree], Parse(10, u, i, true).at, true);
            In(u, i, true).Parsed? && In(u, i, true).at == RangeOr(u, b.at + 1).at
  {
    hide Parse, Values, Range;
  }

  lemma {:induction false} MendList(t: seq<Token>, h: nat, i: nat, a: Outcome<Node>) returns (w: seq<Token>)
    requires BareColon(t, h) && i <= h && a.Parsed? && Parse(10, t, i, true) == a
    requires Values(t, [a.tree], a.at, true) == Hung(h)
    ensures forall v :: Halts(9, v) ==> Ends(In(Mended(t, h, w, v), i, true), h, w)
    decreases h - i, 26, 0
  {
    hide Parse, Values, Range, Mended, Twin, Halts, KindAt, TextAt, In;
    var w0 := MendValues(t, h, [a.tree], a.at);
    var x := [Word(OpIn), ZERO];
    w := w0 + x;
    forall v | Halts(9, v) ensures Ends(In(Mended(t, h, w, v), i, true), h, w) {
      var u, end := Mended(t, h, w, v), h + 2 + |w0|;
      Added(t, h, w0, x, v);
      Halted(9, t, h, w, v);
      SameParse(10, t, u, h, i);
      ZeroAt(13, u, end + 1);
      InTaken(u, i);
    }
  }

  lemma {:induction false} MendSpan(t: seq<Token>, h: nat, i: nat, a: Outcome<Node>, b: Outcome<seq<Node>>)
    returns (w: seq<Token>)
    requires BareColon(t, h) && i <= h && a.Parsed? && Parse(10, t, i, true) == a
    requires b.Parsed? && Values(t, [a.tree], a.at, true) == b
    requires KindAt(t, b.at).OpIn? && RangeOr(t, b.at + 1) == Hung(h)
    ensures forall v :: Halts(9, v) ==> Ends(In(Mended(t, h, w, v), i, true), h, w)
    decreases h - i, 26, 0
  {
    hide Parse, Values, Range, Mended, Twin, Halts, KindAt, TextAt, In;
    var ranged := KindAt(t, b.at + 1).Pipe? || KindAt(t, b.at + 1).OpLess?;
    if ranged { w := MendRange(t, h, b.at + 1); } else { w := MendParse(13, t, h, b.at + 1); }
    forall v | Halts(9, v) ensures Ends(In(Mended(t, h, w, v), i, true), h, w) {
      var u := Mended(t, h, w, v);
      Halted(9, t, h, w, v);
      SameParse(10, t, u, h, i);
      SameValues(t, u, h, [a.tree], a.at, a.at);
      Peer(t, u, h, b.at, b.at);
      Peer(t, u, h, b.at + 1, b.at + 1);
      InTaken(u, i);
    }
  }

  /** No `in` follows where a whole expression ends: of a bound and its comma the
      speculation is given back. */
  lemma NoList(t: seq<Token>, h: nat, w: seq<Token>, v: seq<Token>, values: seq<Node>)
    requires BareColon(t, h) && Halts(9, v)
    ensures var u, end := Mended(t, h, w, v), h + 2 + |w|;
            var list := Values(u, values, end, true);
            list.Parsed? && (if KindAt(u, end).Comma? then KindAt(u, list.at).Pipe? else list.at == end)
            && !KindAt(u, list.at).OpIn?
  {
    hide Parse, Mended, Twin;
    After(t, h, w, v);
    var u, end := Mended(t, h, w, v), h + 2 + |w|;
    if KindAt(u, end).Comma? {
      assert KindAt(u, end + 1) == v[1].kind && KindAt(u, end + 2) == v[2].kind;
      ZeroAt(10, u, end + 1);
      var more := values + [Lit(TextAt(u, end + 1))];
      assert Values(u, more, end + 2, true) == Parsed(more, end + 2);
    }
  }

  lemma {:induction false} MendValues(t: seq<Token>, h: nat, values: seq<Node>, i: nat) returns (w: seq<Token>)
    requires BareColon(t, h) && i <= h && Values(t, values, i, true) == Hung(h)
    ensures i < h
    ensures forall v: seq<Token> :: Halts(10, v) && v != [] && v[0].kind.OpIn? ==>
              Ends(Values(Mended(t, h, w, v), values, i, true), h, w)
    decreases h - i, 25
  {
    hide Parse, Mended, Twin, Halts, KindAt, TextAt;
    var a := Parse(10, t, i + 1, true);
    if !a.Parsed? {
      w := MendParse(10, t, h, i + 1);
    } else {
      w := MendValues(t, h, values + [a.tree], a.at);
    }
    forall v: seq<Token> | Halts(10, v) && v != [] && v[0].kind.OpIn?
      ensures Ends(Values(Mended(t, h, w, v), values, i, true), h, w)
    {
      var u, end := Mended(t, h, w, v), h + 2 + |w|;
      After(t, h, w, v);
      Peer(t, u, h, i, i);
      if a.Parsed? {
        SameParse(10, t, u, h, i + 1);
      } else {
        var more := values + [Parse(10, u, i + 1, true).tree];
        assert Values(u, more, end, true) == Parsed(more, end);
      }
    }
  }

  lemma {:induction false} MendRange(t: seq<Token>, h: nat, i: nat) returns (w: seq<Token>)
    requires BareColon(t, h) && i < h && (KindAt(t, i).Pipe? || KindAt(t, i).OpLess?)
    requires Range(t, i, true) == Hung(h)
    ensures forall v :: Ends(RangeOr(Mended(t, h, w, v), i), h, w)
    decreases h - i, 60
  {
    hide Parse, Mended, Twin, Halts, KindAt, TextAt, Range;
    var a, b := RangeForm(t, i);
    if !a.Parsed? {
      w := MendLow(t, h, i);
    } else {
      var w0 := MendParse(6, t, h, a.at + 1);
      var x := [Word(Pipe)];
      w := w0 + x;
      forall v ensures Ends(RangeOr(Mended(t, h, w, v), i), h, w) {
        var u := Mended(t, h, w, v);
        Added(t, h, w0, x, v);
        Peer(t, u, h, i, i);
        SameParse(6, t, u, h, i + 1);
        Peer(t, u, h, a.at, a.at);
        RangeTaken(u, i, a, Parse(6, u, a.at + 1, true));
      }
    }
  }

  lemma RangeTaken(u: seq<Token>, i: nat, a: Outcome<Node>, b: Outcome<Node>)
    requires (KindAt(u, i).Pipe? || KindAt(u, i).OpLess?) && a.Parsed? && Parse(6, u, i + 1, true) == a
    requires KindAt(u, a.at).Comma? && b.Parsed? && Parse(6, u, a.at + 1, true) == b && KindAt(u, b.at).Pipe?
    ensures RangeOr(u, i).Parsed? && RangeOr(u, i).at == b.at + 1
  {
    hide Parse, Range;
    var x, y := RangeForm(u, i);
  }

  lemma {:induction false} MendLow(t: seq<Token>, h: nat, i: nat) returns (w: seq<Token>)
    requires BareColon(t, h) && i < h && (KindAt(t, i).Pipe? || KindAt(t, i).OpLess?)
    requires Parse(6, t, i + 1, true) == Hung(h)
    ensures forall v :: Ends(RangeOr(Mended(t, h, w, v), i), h, w)
    decreases h - i, 59
  {
    hide Parse, Mended, Twin, Halts, KindAt, TextAt, Range;
    var w0 := MendParse(6, t, h, i + 1);
    var x := [Word(Comma), ZERO, Word(Pipe)];
    w := w0 + x;
    forall v ensures Ends(RangeOr(Mended(t, h, w, v), i), h, w) {
      var u, end := Mended(t, h, w, v), h + 2 + |w0|;
      Added(t, h, w0, x, v);
      Peer(t, u, h, i, i);
      ZeroAt(6, u, end + 1);
      RangeTaken(u, i, Parse(6, u, i + 1, true), Parse(6, u, end + 1, true));
    }
  }

  lemma {:induction false} MendUnary(t: seq<Token>, h: nat, i: nat) returns (w: seq<Token>)
    requires BareColon(t, h) && i <= h && UnaryLevel(t, i, true) == Hung(h)
    ensures forall v :: Halts(11, v) ==> Ends(UnaryLevel(Mended(t, h, w, v), i, true), h, w)
    decreases h - i, 20
  {
    hide Parse, Mended, Twin, Halts, KindAt, TextAt;
    var signed := UnaryKind(KindAt(t, i));
    if signed { w := MendParse(11, t, h, i + 1); } else { w := MendParse(12, t, h, i); }
    forall v | Halts(11, v) ensures Ends(UnaryLevel(Mended(t, h, w, v), i, true), h, w) {
      Halted(11, t, h, w, v);
      Peer(t, Mended(t, h, w, v), h, i, i);
    }
  }

  lemma {:induction false} MendPostfix(t: seq<Token>, h: nat, i: nat) returns (w: seq<Token>)
    requires BareColon(t, h) && i <= h && PostfixLevel(t, i, true) == Hung(h)
    ensures forall v :: Halts(12, v) ==> Ends(PostfixLevel(Mended(t, h, w, v), i, true), h, w)
    decreases h - i, 17
  {
    hide Parse, Mended, Twin, Halts, KindAt, TextAt;
    w := MendParse(13, t, h, i);
    forall v | Halts(12, v) ensures Ends(PostfixLevel(Mended(t, h, w, v), i, true), h, w) {
      Halted(12, t, h, w, v);
    }
  }

  // ------------------------------------------------------------- primaries

  lemma {:induction false} MendPrimary(t: seq<Token>, h: nat, i: nat) returns (w: seq<Token>)
    requires BareColon(t, h) && i <= h && Primary(t, i, true) == Hung(h)
    ensures forall v :: Halts(13, v) ==> Ends(Primary(Mended(t, h, w, v), i, true), h, w)
    decreases h - i, 14
  {
    hide Parse, CommaList, Pieces, Args, Elements, Path, Called, Mended, Twin, Halts, KindAt, TextAt;
    var k := KindAt(t, i);
    if k.ParenLeft? {
      w := MendParen(t, h, i);
    } else if k.Identifier? {
      w := MendName(t, h, i);
    } else if StringKind(k) {
      w := MendPieces(t, h, [], i);
      forall v | Halts(13, v) ensures Ends(Primary(Mended(t, h, w, v), i, true), h, w) {
        Halted(13, t, h, w, v);
        Peer(t, Mended(t, h, w, v), h, i, i);
      }
    } else if k.Function? {
      w := MendArgs(t, h, i + 2);
      forall v | Halts(13, v) ensures Ends(Primary(Mended(t, h, w, v), i, true), h, w) {
        Halted(13, t, h, w, v);
        Peer(t, Mended(t, h, w, v), h, i, i);
        Peer(t, Mended(t, h, w, v), h, i + 1, i + 1);
      }
    } else {
      w := MendElements(t, h, [], i + 1, i + 1);
      forall v | Halts(13, v) ensures Ends(Primary(Mended(t, h, w, v), i, true), h, w) {
        Halted(13, t, h, w, v);
        Peer(t, Mended(t, h, w, v), h, i, i);
      }
    }
  }

  lemma {:induction false} MendParen(t: seq<Token>, h: nat, i: nat) returns (w: seq<Token>)
    requires BareColon(t, h) && i <= h && KindAt(t, i).ParenLeft? && Primary(t, i, true) == Hung(h)
    ensures forall v :: Halts(13, v) ==> Ends(Primary(Mended(t, h, w, v), i, true), h, w)
    decreases h - i, 13
  {
    hide Parse, CommaList, Mended, Twin, Halts, KindAt, TextAt;
    var a := Parse(0, t, i + 1, true);
    if !a.Parsed? {
      var w0 := MendParse(0, t, h, i + 1);
      var x := [Word(ParenRight)];
      w := w0 + x;
      forall v | Halts(13, v) ensures Ends(Primary(Mended(t, h, w, v), i, true), h, w) {
        var u := Mended(t, h, w, v);
        Added(t, h, w0, x, v);
        Peer(t, u, h, i, i);
        Closed(u, Parse(0, u, i + 1, true).tree, h + 2 + |w0|);
      }
    } else {
      w := MendCommaList(t, h, a.tree, a.at);
      forall v | Halts(13, v) ensures Ends(Primary(Mended(t, h, w, v), i, true), h, w) {
        var u := Mended(t, h, w, v);
        Halted(13, t, h, w, v);
        Peer(t, u, h, i, i);
        SameParse(0, t, u, h, i + 1);
      }
    }
  }

  lemma Closed(u: seq<Token>, node: Node, i: nat)
    requires KindAt(u, i).ParenRight?
    ensures CommaList(u, node, i, true) == Parsed(node, i + 1)
  {
  }

  lemma {:induction false} MendCommaList(t: seq<Token>, h: nat, node: Node, i: nat) returns (w: seq<Token>)
    requires BareColon(t, h) && i <= h && CommaList(t, node, i, true) == Hung(h)
    ensures i < h
    ensures forall v :: Ends(CommaList(Mended(t, h, w, v), node, i, true), h, w)
    decreases h - i, 60
  {
    hide Parse, Mended, Twin, Halts, KindAt, TextAt, CommaList;
    var a := CommaHangs(t, node, i);
    if !a.Parsed? {
      var w0 := MendParse(0, t, h, i + 1);
      var x := [Word(ParenRight)];
      w := w0 + x;
      forall v ensures Ends(CommaList(Mended(t, h, w, v), node, i, true), h, w) {
        var u := Mended(t, h, w, v);
        Added(t, h, w0, x, v);
        Peer(t, u, h, i, i);
        var b := Parse(0, u, i + 1, true);
        CommaTakes(u, node, i, b);
        Closed(u, b.tree, h + 2 + |w0|);
      }
    } else {
      w := MendCommaList(t, h, a.tree, a.at);
      forall v ensures Ends(CommaList(Mended(t, h, w, v), node, i, true), h, w) {
        var u := Mended(t, h, w, v);
        After(t, h, w, v);
        Peer(t, u, h, i, i);
        SameParse(0, t, u, h, i + 1);
        CommaTakes(u, node, i, Parse(0, u, i + 1, true));
      }
    }
  }

  lemma CommaHangs(t: seq<Token>, node: Node, i: nat) returns (a: Outcome<Node>)
    requires CommaList(t, node, i, true).Hung?
    ensures KindAt(t, i).Comma? && a == Parse(0, t, i + 1, true)
    ensures CommaList(t, node, i, true) == if a.Parsed? then CommaList(t, a.tree, a.at, true) else a
  {
    hide Parse;
    a := Parse(0, t, i + 1, true);
  }

  lemma CommaTakes(u: seq<Token>, node: Node, i: nat, a: Outcome<Node>)
    requires KindAt(u, i).Comma? && a.Parsed? && Parse(0, u, i + 1, true) == a
    ensures CommaList(u, node, i, true) == CommaList(u, a.tree, a.at, true)
  {
    hide Parse;
  }

  lemma {:induction false} MendName(t: seq<Token>, h: nat, i: nat) returns (w: seq<Token>)
    requires BareColon(t, h) && i <= h && KindAt(t, i).Identifier? && Primary(t, i, true) == Hung(h)
    ensures forall v :: Halts(13, v) ==> Ends(Primary(Mended(t, h, w, v), i, true), h, w)
    decreases h - i, 13
  {
    hide Path, Called, Mended, Twin, Halts, KindAt, TextAt;
    var a := Path(t, i, true);
    if !a.Parsed? {
      w := MendPath(t, h, i);
      forall v | Halts(13, v) ensures Ends(Primary(Mended(t, h, w, v), i, true), h, w) {
        var u := Mended(t, h, w, v);
        Halted(13, t, h, w, v);
        Peer(t, u, h, i, i);
        NotCalled(u, Path(u, i, true).tree, h + 2 + |w|);
      }
    } else {
      w := MendCalled(t, h, a.tree, a.at);
      forall v | Halts(13, v) ensures Ends(Primary(Mended(t, h, w, v), i, true), h, w) {
        var u := Mended(t, h, w, v);
        Halted(13, t, h, w, v);
        Peer(t, u, h, i, i);
        SamePath(t, u, h, i, i);
      }
    }
  }

  lemma NotCalled(u: seq<Token>, parts: seq<Part>, i: nat)
    requires !KindAt(u, i).ParenLeft?
    ensures Called(u, parts, i, true) == Parsed(VarRef(parts), i)
  {
  }

  lemma {:induction false} MendCalled(t: seq<Token>, h: nat, parts: seq<Part>, i: nat) returns (w: seq<Token>)
    requires BareColon(t, h) && i <= h && Called(t, parts, i, true) == Hung(h)
    ensures i < h
    ensures forall v :: Halts(13, v) ==> Ends(Called(Mended(t, h, w, v), parts, i, true), h, w)
    decreases h - i, 10
  {
    hide Args, MethodChain, Mended, Twin, Halts, KindAt, TextAt;
    var a, n := Args(t, i + 1, true), |parts| - 1;
    if !a.Parsed? {
      w := MendArgs(t, h, i + 1);
      forall v | Halts(13, v) ensures Ends(Called(Mended(t, h, w, v), parts, i, true), h, w) {
        var u := Mended(t, h, w, v);
        Halted(13, t, h, w, v);
        Peer(t, u, h, i, i);
        var b := Args(u, i + 1, true);
        NoMethod(u, if n == 0 then Call(parts[0].name, b.tree)
                    else MethodCall(VarRef(parts[..n]), parts[n].name, b.tree), h + 2 + |w|);
      }
    } else {
      var node := if n == 0 then Call(parts[0].name, a.tree)
                  else MethodCall(VarRef(parts[..n]), parts[n].name, a.tree);
      w := MendMethodChain(t, h, node, a.at);
      forall v | Halts(13, v) ensures Ends(Called(Mended(t, h, w, v), parts, i, true), h, w) {
        var u := Mended(t, h, w, v);
        Halted(13, t, h, w, v);
        Peer(t, u, h, i, i);
        SameArgs(t, u, h, i + 1);
      }
    }
  }

  lemma NoMethod(u: seq<Token>, node: Node, i: nat)
    requires !KindAt(u, i).Period?
    ensures MethodChain(u, node, i, true) == Parsed(node, i)
  {
  }

  lemma {:induction false} MendMethodChain(t: seq<Token>, h: nat, node: Node, i: nat) returns (w: seq<Token>)
    requires BareColon(t, h) && i <= h && MethodChain(t, node, i, true) == Hung(h)
    ensures i < h
    ensures forall v :: Halts(13, v) ==> Ends(MethodChain(Mended(t, h, w, v), node, i, true), h, w)
    decreases h - i, 60
  {
    hide Args, Mended, Twin, Halts, KindAt, TextAt;
    var a := Args(t, i + 3, true);
    assert i + 3 <= h;
    if !a.Parsed? {
      w := MendArgs(t, h, i + 3);
    } else {
      w := MendMethodChain(t, h, MethodCall(node, TextAt(t, i + 1), a.tree), a.at);
    }
    forall v | Halts(13, v) ensures Ends(MethodChain(Mended(t, h, w, v), node, i, true), h, w) {
      var u := Mended(t, h, w, v);
      Halted(13, t, h, w, v);
      Peer(t, u, h, i, i);
      Peer(t, u, h, i + 1, i + 1);
      Peer(t, u, h, i + 2, i + 2);
      if a.Parsed? {
        SameArgs(t, u, h, i + 3);
      } else {
        NoMethod(u, MethodCall(node, TextAt(u, i + 1), Args(u, i + 3, true).tree), h + 2 + |w|);
      }
    }
  }

  lemma {:induction false} MendArgs(t: seq<Token>, h: nat, i: nat) returns (w: seq<Token>)
    requires BareColon(t, h) && i <= h && Args(t, i, true) == Hung(h)
    ensures forall v :: Ends(Args(Mended(t, h, w, v), i, true), h, w)
    decreases h - i, 63
  {
    hide MoreArgs, Mended, Twin, Halts, KindAt, TextAt;
    w := MendMoreArgs(t, h, [], i);
    forall v ensures Ends(Args(Mended(t, h, w, v), i, true), h, w) {
      After(t, h, w, v);
      Peer(t, Mended(t, h, w, v), h, i, i);
    }
  }

  lemma {:induction false} MendMoreArgs(t: seq<Token>, h: nat, args: seq<Node>, i: nat) returns (w: seq<Token>)
    requires BareColon(t, h) && i <= h && MoreArgs(t, args, i, true) == Hung(h)
    ensures forall v :: Ends(MoreArgs(Mended(t, h, w, v), args, i, true), h, w)
    decreases h - i, 62
  {
    hide ArgOrEmpty, Mended, Twin, Halts, KindAt, TextAt, MoreArgs;
    var a := ArgsHang(t, args, i);
    if !a.Parsed? {
      var w0 := MendArgOrEmpty(t, h, i);
      var x := [Word(ParenRight)];
      w := w0 + x;
      forall v ensures Ends(MoreArgs(Mended(t, h, w, v), args, i, true), h, w) {
        var u := Mended(t, h, w, v);
        Added(t, h, w0, x, v);
        ArgTaken(u, args, i, ArgOrEmpty(u, i, true));
      }
    } else {
      w := MendMoreArgs(t, h, args + [a.tree], a.at + 1);
      forall v ensures Ends(MoreArgs(Mended(t, h, w, v), args, i, true), h, w) {
        var u := Mended(t, h, w, v);
        After(t, h, w, v);
        SameArgOrEmpty(t, u, h, i);
        Peer(t, u, h, a.at, a.at);
        ArgTaken(u, args, i, a);
      }
    }
  }

  lemma ArgsHang(t: seq<Token>, args: seq<Node>, i: nat) returns (a: Outcome<Node>)
    requires MoreArgs(t, args, i, true).Hung?
    ensures a == ArgOrEmpty(t, i, true)
    ensures if a.Parsed? then KindAt(t, a.at).Comma?
                              && MoreArgs(t, args + [a.tree], a.at + 1, true) == MoreArgs(t, args, i, true)
            else a == Hung(MoreArgs(t, args, i, true).at)
  {
    hide ArgOrEmpty;
    a := ArgOrEmpty(t, i, true);
  }

  lemma ArgTaken(u: seq<Token>, args: seq<Node>, i: nat, a: Outcome<Node>)
    requires a.Parsed? && ArgOrEmpty(u, i, true) == a
    ensures KindAt(u, a.at).Comma? ==>
              MoreArgs(u, args, i, true) == MoreArgs(u, args + [a.tree], a.at + 1, true)
    ensures KindAt(u, a.at).ParenRight? ==> MoreArgs(u, args, i, true) == Parsed(args + [a.tree], a.at + 1)
  {
    hide ArgOrEmpty;
  }

  lemma {:induction false} MendArgOrEmpty(t: seq<Token>, h: nat, i: nat) returns (w: seq<Token>)
    requires BareColon(t, h) && i <= h && ArgOrEmpty(t, i, true) == Hung(h)
    ensures forall v :: Halts(0, v) ==> Ends(ArgOrEmpty(Mended(t, h, w, v), i, true), h, w)
    decreases h - i, 61
  {
    hide Parse, Mended, Twin, Halts, KindAt, TextAt;
    w := MendParse(0, t, h, i);
    forall v | Halts(0, v) ensures Ends(ArgOrEmpty(Mended(t, h, w, v), i, true), h, w) {
      Halted(0, t, h, w, v);
      Peer(t, Mended(t, h, w, v), h, i, i);
    }
  }

  lemma {:induction false} MendPieces(t: seq<Token>, h: nat, pieces: seq<Node>, i: nat) returns (w: seq<Token>)
    requires BareColon(t, h) && i <= h && Pieces(t, pieces, i, true) == Hung(h)
    ensures forall v :: Halts(13, v) ==> Ends(Pieces(Mended(t, h, w, v), pieces, i, true), h, w)
    decreases h - i, 10
  {
    hide MessageCodeAt, Mended, Twin, Halts, KindAt, TextAt;
    var k := KindAt(t, i);
    var hangs := k.MessageCode? && !MessageCodeAt(t, i, true).Parsed?;
    if hangs {
      w := MendMessageCode(t, h, i);
    } else if k.StringPart? {
      w := MendPieces(t, h, pieces + [Str(TextAt(t, i))], i + 1);
    } else if k.RawMessageCode? {
      w := MendPieces(t, h, pieces, i + 1);
    } else {
      w := MendPieces(t, h, pieces + [MessageCodeAt(t, i, true).tree], MessageCodeAt(t, i, true).at);
    }
    forall v | Halts(13, v) ensures Ends(Pieces(Mended(t, h, w, v), pieces, i, true), h, w) {
      var u := Mended(t, h, w, v);
      Halted(13, t, h, w, v);
      Peer(t, u, h, i, i);
      if hangs {
        NoPiece(u, pieces + [MessageCodeAt(u, i, true).tree], h + 2 + |w|);
      } else if k.MessageCode? {
        SameMessageCode(t, u, h, i);
      }
    }
  }

  lemma NoPiece(u: seq<Token>, pieces: seq<Node>, i: nat)
    requires !StringKind(KindAt(u, i))
    ensures Pieces(u, pieces, i, true) == Parsed(pieces, i)
  {
  }

  lemma {:induction false} MendMessageCode(t: seq<Token>, h: nat, i: nat) returns (w: seq<Token>)
    requires BareColon(t, h) && i < h && KindAt(t, i).MessageCode? && MessageCodeAt(t, i, true) == Hung(h)
    ensures forall v :: var u := Mended(t, h, w, v);
              KindAt(u, i).MessageCode? && Ends(MessageCodeAt(u, i, true), h, w)
    decreases h - i, 5
  {
    hide Args, Mended, Twin, Halts, KindAt, TextAt;
    w := MendArgs(t, h, i + 2);
    forall v ensures var u := Mended(t, h, w, v);
                     KindAt(u, i).MessageCode? && Ends(MessageCodeAt(u, i, true), h, w)
    {
      var u := Mended(t, h, w, v);
      After(t, h, w, v);
      Peer(t, u, h, i, i);
      Peer(t, u, h, i + 1, i + 1);
    }
  }

  /** The literal itself: at the colon nothing is left to do but close it. */
  lemma {:induction false} MendElements(t: seq<Token>, h: nat, es: seq<Node>, i: nat, j: nat) returns (w: seq<Token>)
    requires BareColon(t, h) && Beside(h, i, j) && Elements(t, es, i, true) == Hung(h)
    ensures i == h ==> w == []
    ensures forall v :: Ends(Elements(Mended(t, h, w, v), es, j, true), h, w)
    decreases h - i, 60
  {
    hide Parse, Mended, Twin, Halts, KindAt, TextAt, Elements;
    var k, a := ElementsHang(t, es, i);
    if i == h {
      w := [];
      forall v ensures Ends(Elements(Mended(t, h, w, v), es, j, true), h, w) {
        After(t, h, w, v);
        LiteralCloses(t, Mended(t, h, w, v), h, es, j);
      }
    } else if k.Comma? || k.End? {
      w := MendElements(t, h, es, i + 1, i + 1);
      forall v ensures Ends(Elements(Mended(t, h, w, v), es, j, true), h, w) {
        After(t, h, w, v);
        Peer(t, Mended(t, h, w, v), h, i, j);
        PassesOver(Mended(t, h, w, v), es, i);
      }
    } else if !a.Parsed? {
      var w0 := MendParse(0, t, h, i);
      var x := [Word(BraceRight)];
      w := w0 + x;
      forall v ensures Ends(Elements(Mended(t, h, w, v), es, j, true), h, w) {
        var u := Mended(t, h, w, v);
        Added(t, h, w0, x, v);
        Peer(t, u, h, i, j);
        var b := Parse(0, u, i, true);
        ElementTakes(u, es, i, b);
        NoMore(u, es + [b.tree], h + 2 + |w0|);
      }
    } else {
      w := MendLater(t, h, es, i, a);
    }
  }

  lemma ElementsHang(t: seq<Token>, es: seq<Node>, i: nat) returns (k: Kind, a: Outcome<Node>)
    requires Elements(t, es, i, true).Hung?
    ensures k == KindAt(t, i) && !k.BraceRight? && !k.Eof? && a == Parse(0, t, i, true)
    ensures !k.Comma? && !k.End? && !a.Parsed? ==> a.Hung?
    ensures Elements(t, es, i, true) ==
              if k.Comma? || k.End? then Elements(t, es, i + 1, true)
              else if !a.Parsed? then Hung(a.at)
              else if a.at == i then Hung(i)
              else Elements(t, es + [a.tree], if KindAt(t, a.at).Comma? then a.at + 1 else a.at, true)
  {
    hide Parse;
    k, a := KindAt(t, i), Parse(0, t, i, true);
  }

  lemma PassesOver(u: seq<Token>, es: seq<Node>, i: nat)
    requires KindAt(u, i).Comma? || KindAt(u, i).End?
    ensures Elements(u, es, i, true) == Elements(u, es, i + 1, true)
  {
  }

  lemma ElementTakes(u: seq<Token>, es: seq<Node>, i: nat, a: Outcome<Node>)
    requires var k := KindAt(u, i); !k.Comma? && !k.End? && !k.BraceRight? && !k.Eof?
    requires a.Parsed? && a.at > i && Parse(0, u, i, true) == a
    ensures Elements(u, es, i, true) ==
              Elements(u, es + [a.tree], if KindAt(u, a.at).Comma? then a.at + 1 else a.at, true)
  {
    hide Parse;
  }

  lemma {:induction false} MendLater(t: seq<Token>, h: nat, es: seq<Node>, i: nat, a: Outcome<Node>)
    returns (w: seq<Token>)
    requires BareColon(t, h) && i < h && Elements(t, es, i, true) == Hung(h)
    requires var k := KindAt(t, i); !k.Comma? && !k.End? && !k.BraceRight? && !k.Eof?
    requires a.Parsed? && Parse(0, t, i, true) == a
    requires Elements(t, es + [a.tree], if KindAt(t, a.at).Comma? then a.at + 1 else a.at, true) == Hung(h)
    requires i < a.at <= h
    ensures forall v :: Ends(Elements(Mended(t, h, w, v), es, i, true), h, w)
    decreases h - i, 59
  {
    hide Parse, Mended, Twin, Halts, KindAt, TextAt, Elements;
    var more := es + [a.tree];
    var comma := KindAt(t, a.at).Comma?;
    var next := if comma then a.at + 1 else a.at;
    w := MendElements(t, h, more, next, next);
    if a.at == h { var same := MendElements(t, h, more, h, h + 1); }
    forall v ensures Ends(Elements(Mended(t, h, w, v), es, i, true), h, w) {
      var u := Mended(t, h, w, v);
      After(t, h, w, v);
      Peer(t, u, h, i, i);
      SameParse(0, t, u, h, i);
      var b := Parse(0, u, i, true);
      Peer(t, u, h, a.at, b.at);
      ElementTakes(u, es, i, b);
    }
  }

  lemma LiteralCloses(t: seq<Token>, u: seq<Token>, h: nat, es: seq<Node>, j: nat)
    requires Twin(t, u, h) && (j == h || j == h + 1)
    ensures var r := Elements(u, es, j, true); r.Parsed? && r.at == h + 2
  {
    hide Parse, Twin;
    Peer(t, u, h, h, h);
    Peer(t, u, h, h, h + 1);
    if j == h {
      NothingAtColon(0, t, h);
      SameParse(0, t, u, h, h);
      NoMore(u, es + [Parse(0, u, h, true).tree], h + 1);
    }
  }

  lemma NoMore(u: seq<Token>, es: seq<Node>, i: nat)
    requires KindAt(u, i).BraceRight?
    ensures Elements(u, es, i, true) == Parsed(es, i + 1)
  {
  }

  // ------------------------------------------------------------- paths

  lemma {:induction false} MendPath(t: seq<Token>, h: nat, i: nat) returns (w: seq<Token>)
    requires BareColon(t, h) && i <= h && Path(t, i, true) == Hung(h)
    ensures forall v :: Halts(13, v) ==> Ends(Path(Mended(t, h, w, v), i, true), h, w)
    decreases h - i, 10
  {
    hide PathPart, MoreParts, Mended, Twin, Halts, KindAt, TextAt;
    var a := PathPart(t, i, true);
    if !a.Parsed? { w := MendPathPart(t, h, i); } else { w := MendMoreParts(t, h, [a.tree], a.at); }
    forall v | Halts(13, v) ensures Ends(Path(Mended(t, h, w, v), i, true), h, w) {
      var u := Mended(t, h, w, v);
      Halted(13, t, h, w, v);
      if a.Parsed? {
        SamePathPart(t, u, h, i);
      } else {
        NoPart(u, [PathPart(u, i, true).tree], h + 2 + |w|);
      }
    }
  }

  lemma NoPart(u: seq<Token>, parts: seq<Part>, i: nat)
    requires parts != [] && !KindAt(u, i).Period?
    ensures MoreParts(u, parts, i, true) == Parsed(parts, i)
  {
  }

  lemma {:induction false} MendMoreParts(t: seq<Token>, h: nat, parts: seq<Part>, i: nat) returns (w: seq<Token>)
    requires parts != [] && BareColon(t, h) && i <= h && MoreParts(t, parts, i, true) == Hung(h)
    ensures i < h
    ensures forall v :: Halts(13, v) ==> Ends(MoreParts(Mended(t, h, w, v), parts, i, true), h, w)
    decreases h - i, 9
  {
    hide PathPart, ComputedPart, Mended, Twin, Halts, KindAt, TextAt, MoreParts, Segment;
    var a := PartsHang(t, parts, i);
    if a.Parsed? {
      w := MendMoreParts(t, h, parts + [a.tree], a.at);
    } else {
      w := MendSegment(t, h, i + 1);
    }
    forall v | Halts(13, v) ensures Ends(MoreParts(Mended(t, h, w, v), parts, i, true), h, w) {
      var u := Mended(t, h, w, v);
      Halted(13, t, h, w, v);
      Peer(t, u, h, i, i);
      if a.Parsed? {
        SameSegment(t, u, h, i + 1);
        PartTaken(u, parts, i, a);
      } else {
        var b := Segment(u, i + 1);
        PartTaken(u, parts, i, b);
        NoPart(u, parts + [b.tree], h + 2 + |w|);
      }
    }
  }

  /** What stands behind a period. */
  function Segment(t: seq<Token>, i: nat): (r: Outcome<Part>)
    ensures Moved(t, i, r.at)
  {
    if KindAt(t, i).ParenLeft? then ComputedPart(t, i + 1, true) else PathPart(t, i, true)
  }

  lemma PartsHang(t: seq<Token>, parts: seq<Part>, i: nat) returns (a: Outcome<Part>)
    requires parts != [] && MoreParts(t, parts, i, true).Hung?
    ensures KindAt(t, i).Period? && a == Segment(t, i + 1)
    ensures if a.Parsed? then MoreParts(t, parts + [a.tree], a.at, true) == MoreParts(t, parts, i, true)
            else a == Hung(MoreParts(t, parts, i, true).at)
  {
    hide PathPart, ComputedPart;
    a := Segment(t, i + 1);
  }

  lemma PartTaken(u: seq<Token>, parts: seq<Part>, i: nat, a: Outcome<Part>)
    requires parts != [] && KindAt(u, i).Period? && a.Parsed? && Segment(u, i + 1) == a
    ensures MoreParts(u, parts, i, true) == MoreParts(u, parts + [a.tree], a.at, true)
  {
    hide PathPart, ComputedPart;
  }

  lemma SameSegment(t: seq<Token>, u: seq<Token>, h: nat, i: nat)
    requires Twin(t, u, h) && i <= h
    ensures Alike(h, Segment(t, i), Segment(u, i))
  {
    hide PathPart, ComputedPart, Twin;
    Peer(t, u, h, i, i);
    if KindAt(t, i).ParenLeft? { SameComputedPart(t, u, h, i + 1); } else { SamePathPart(t, u, h, i); }
  }

  lemma {:induction false} MendSegment(t: seq<Token>, h: nat, i: nat) returns (w: seq<Token>)
    requires BareColon(t, h) && i <= h && Segment(t, i) == Hung(h)
    ensures forall v :: Halts(13, v) ==> Ends(Segment(Mended(t, h, w, v), i), h, w)
    decreases h - i, 61
  {
    hide PathPart, ComputedPart, Mended, Twin, Halts, KindAt, TextAt;
    if KindAt(t, i).ParenLeft? { w := MendComputedPart(t, h, i + 1); } else { w := MendPathPart(t, h, i); }
    forall v | Halts(13, v) ensures Ends(Segment(Mended(t, h, w, v), i), h, w) {
      Halted(13, t, h, w, v);
      Peer(t, Mended(t, h, w, v), h, i, i);
    }
  }

  lemma {:induction false} MendComputedPart(t: seq<Token>, h: nat, i: nat) returns (w: seq<Token>)
    requires BareColon(t, h) && i <= h && ComputedPart(t, i, true) == Hung(h)
    ensures forall v :: Halts(13, v) ==> Ends(ComputedPart(Mended(t, h, w, v), i, true), h, w)
    decreases h - i, 60
  {
    hide Parse, Index, Mended, Twin, Halts, KindAt, TextAt;
    var a := Parse(0, t, i, true);
    if !a.Parsed? {
      var w0 := MendParse(0, t, h, i);
      var x := [Word(ParenRight)];
      w := w0 + x;
      forall v | Halts(13, v) ensures Ends(ComputedPart(Mended(t, h, w, v), i, true), h, w) {
        var u := Mended(t, h, w, v);
        Added(t, h, w0, x, v);
        Halted(13, t, h, w, v);
        NoIndex(u, h + 2 + |w|);
      }
    } else {
      w := MendIndex(t, h, a.at + 1);
      forall v | Halts(13, v) ensures Ends(ComputedPart(Mended(t, h, w, v), i, true), h, w) {
        var u := Mended(t, h, w, v);
        Halted(13, t, h, w, v);
        SameParse(0, t, u, h, i);
        Peer(t, u, h, a.at, a.at);
      }
    }
  }

  lemma NoIndex(u: seq<Token>, i: nat)
    requires !KindAt(u, i).BracketLeft?
    ensures Index(u, i, true) == Parsed([], i)
  {
  }

  lemma {:induction false} MendPathPart(t: seq<Token>, h: nat, i: nat) returns (w: seq<Token>)
    requires BareColon(t, h) && i <= h && PathPart(t, i, true) == Hung(h)
    ensures forall v :: Halts(13, v) ==> Ends(PathPart(Mended(t, h, w, v), i, true), h, w)
    decreases h - i, 8
  {
    hide Atoms, Index, Mended, Twin, Halts, KindAt, TextAt;
    var none := Part("", [], []);
    var a := Atoms(t, none, false, i, true);
    if !a.Parsed? { w := MendAtoms(t, h, none, false, i); } else { w := MendIndex(t, h, a.at); }
    forall v | Halts(13, v) ensures Ends(PathPart(Mended(t, h, w, v), i, true), h, w) {
      var u := Mended(t, h, w, v);
      Halted(13, t, h, w, v);
      if a.Parsed? { SameAtoms(t, u, h, none, false, i, i); } else { NoIndex(u, h + 2 + |w|); }
    }
  }

  lemma {:induction false} MendAtoms(t: seq<Token>, h: nat, part: Part, dynamic: bool, i: nat) returns (w: seq<Token>)
    requires BareColon(t, h) && i <= h && Atoms(t, part, dynamic, i, true) == Hung(h)
    ensures i < h
    ensures forall v :: Halts(13, v) ==> Ends(Atoms(Mended(t, h, w, v), part, dynamic, i, true), h, w)
    decreases h - i, 6
  {
    hide MessageCodeAt, Mended, Twin, Halts, KindAt, TextAt;
    var k, text := KindAt(t, i), TextAt(t, i);
    var hangs := k.MessageCode? && !MessageCodeAt(t, i, true).Parsed?;
    if hangs {
      w := MendMessageCode(t, h, i);
    } else if k.MessageCode? {
      var code := MessageCodeAt(t, i, true);
      w := MendAtoms(t, h, part.(atoms := part.atoms + [code.tree]), true, code.at);
    } else if k.Identifier? && text == "" {
      w := MendAtoms(t, h, part, dynamic, i + 1);
    } else {
      w := MendAtoms(t, h, part.(name := part.name + text, atoms := part.atoms + [Str(text)]), dynamic, i + 1);
    }
    forall v | Halts(13, v) ensures Ends(Atoms(Mended(t, h, w, v), part, dynamic, i, true), h, w) {
      var u := Mended(t, h, w, v);
      Halted(13, t, h, w, v);
      Peer(t, u, h, i, i);
      if hangs {
        var code := MessageCodeAt(u, i, true);
        NoAtom(u, part.(atoms := part.atoms + [code.tree]), true, h + 2 + |w|);
      } else if k.MessageCode? {
        SameMessageCode(t, u, h, i);
      }
    }
  }

  lemma NoAtom(u: seq<Token>, part: Part, dynamic: bool, i: nat)
    requires var k := KindAt(u, i);
             !k.Literal? && !k.MessageCode? && (k.Identifier? ==> TextAt(u, i) == ":")
    ensures Atoms(u, part, dynamic, i, true).Parsed? && Atoms(u, part, dynamic, i, true).at == i
  {
  }

  lemma {:induction false} MendIndex(t: seq<Token>, h: nat, i: nat) returns (w: seq<Token>)
    requires BareColon(t, h) && i <= h && Index(t, i, true) == Hung(h)
    ensures i < h
    ensures forall v :: Ends(Index(Mended(t, h, w, v), i, true), h, w)
    decreases h - i, 4
  {
    hide Parse, Mended, Twin, Halts, KindAt, TextAt, Index;
    var a := IndexHangs(t, i);
    var x := [Word(BracketRight)];
    if !a.Parsed? {
      var w0 := MendParse(0, t, h, i + 1);
      w := w0 + x;
      forall v ensures Ends(Index(Mended(t, h, w, v), i, true), h, w) {
        var u := Mended(t, h, w, v);
        Added(t, h, w0, x, v);
        Peer(t, u, h, i, i);
        IndexTaken(u, i, Parse(0, u, i + 1, true));
      }
    } else {
      var w0 := MendParse(0, t, h, a.at + 1);
      w := w0 + x;
      forall v ensures Ends(Index(Mended(t, h, w, v), i, true), h, w) {
        var u := Mended(t, h, w, v);
        Added(t, h, w0, x, v);
        Peer(t, u, h, i, i);
        SameParse(0, t, u, h, i + 1);
        Peer(t, u, h, a.at, a.at);
        IndexTaken(u, i, a);
      }
    }
  }

  lemma IndexHangs(t: seq<Token>, i: nat) returns (a: Outcome<Node>)
    requires Index(t, i, true).Hung?
    ensures KindAt(t, i).BracketLeft? && a == Parse(0, t, i + 1, true)
    ensures if a.Parsed? then KindAt(t, a.at).Comma? && Parse(0, t, a.at + 1, true) == Hung(Index(t, i, true).at)
            else a == Hung(Index(t, i, true).at)
  {
    hide Parse, Index, KindAt;
    var x, y := IndexForm(t, i);
    a := x;
  }

  lemma IndexTaken(u: seq<Token>, i: nat, a: Outcome<Node>)
    requires KindAt(u, i).BracketLeft? && a.Parsed? && Parse(0, u, i + 1, true) == a
    ensures KindAt(u, a.at).BracketRight? ==> Index(u, i, true).Parsed? && Index(u, i, true).at == a.at + 1
    ensures KindAt(u, a.at).Comma? ==>
              var b := Parse(0, u, a.at + 1, true);
              b.Parsed? && KindAt(u, b.at).BracketRight? ==>
                Index(u, i, true).Parsed? && Index(u, i, true).at == b.at + 1
  {
    hide Parse, Index, KindAt;
    var x, y := IndexForm(u, i);
  }
}

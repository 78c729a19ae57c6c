/** A case label and the same label with its open array literal closed just before the
    colon: how the parser's runs over the two texts compare. */
module Gs1Mended {
  import opened Gs1Syntax
  import opened Gs1Grammar
  import opened Gs1Statements
  import opened Gs1Recovery

  /** A bare colon that is not written as the name of a method. */
  predicate BareColon(t: seq<Token>, h: nat) {
    h < |t| && AtWord(t, h, ":") && !(h > 0 && KindAt(t, h - 1).Period? && KindAt(t, h + 1).ParenLeft?)
  }

  /** `u` is `t` up to the bare colon at `h`, and an empty name and a closing brace there. */
  ghost predicate Twin(t: seq<Token>, u: seq<Token>, h: nat) {
    && BareColon(t, h)
    && KindAt(u, h).Identifier? && TextAt(u, h) == "" && KindAt(u, h + 1).BraceRight?
    && (forall k :: 0 <= k < h ==> KindAt(u, k) == KindAt(t, k))
    && (forall k :: 0 <= k < h ==> TextAt(u, k) == TextAt(t, k))
  }

  /** The same place in both texts; at the colon the empty name may have been read. */
  predicate Beside(h: nat, i: nat, j: nat) {
    (i < h && j == i) || (i == h && (j == h || j == h + 1))
  }

  /** Unless the first run comes round for ever, the two end alike. */
  ghost predicate Alike<T>(h: nat, r: Outcome<T>, s: Outcome<T>) {
    match r
    case Hung(at) => at == h || (at < h && s == r)
    case Failed(_) => s.Failed?
    case Parsed(tree, at) => s.Parsed? && s.tree == tree && Beside(h, at, s.at)
  }

  /** What stands at the same place. */
  lemma Peer(t: seq<Token>, u: seq<Token>, h: nat, i: nat, j: nat)
    requires Twin(t, u, h) && Beside(h, i, j)
    ensures i < h ==> KindAt(u, j) == KindAt(t, i) && TextAt(u, j) == TextAt(t, i)
    ensures i == h ==> KindAt(t, i).Identifier? && TextAt(t, i) == ":"
    ensures i == h ==> if j == h then KindAt(u, j).Identifier? && TextAt(u, j) == "" else KindAt(u, j).BraceRight?
  {
  }

  // ------------------------------------------------------------- the ladder

  lemma {:induction false} SameParse(level: nat, t: seq<Token>, u: seq<Token>, h: nat, i: nat)
    requires level <= 13 && Twin(t, u, h) && i <= h
    ensures Alike(h, Parse(level, t, i, true), Parse(level, u, i, true))
    decreases h - i, 3 * (14 - level) + 12
  {
    hide Parse, Twin, KindAt, TextAt, Alike, Expression, Chain, In, UnaryLevel, PostfixLevel, Primary, OneOp;
    RuleOf(level, t, i, true);
    RuleOf(level, u, i, true);
    if level == 0 { SameExpression(t, u, h, i); }
    else if Chains(level) { SameChain(level, t, u, h, i); }
    else if level == 9 { SameIn(t, u, h, i); }
    else if level == 11 { SameUnary(t, u, h, i); }
    else if level == 12 { SamePostfix(t, u, h, i); }
    else if level == 13 { SamePrimary(t, u, h, i); }
    else { SameOneOp(level, t, u, h, i); }
  }

  lemma {:induction false} SameExpression(t: seq<Token>, u: seq<Token>, h: nat, i: nat)
    requires Twin(t, u, h) && i <= h
    ensures Alike(h, Expression(t, i, true), Expression(u, i, true))
    decreases h - i, 53
  {
    hide Twin, KindAt, TextAt, Parse, Ternaries;
    SameParse(1, t, u, h, i);
    var a, b := Parse(1, t, i, true), Parse(1, u, i, true);
    if a.Parsed? { SameTernaries(t, u, h, a.tree, a.at, b.at); }
  }

  lemma {:induction false} SameTernaries(t: seq<Token>, u: seq<Token>, h: nat, node: Node, i: nat, j: nat)
    requires Twin(t, u, h) && Beside(h, i, j)
    ensures Alike(h, Ternaries(t, node, i, true), Ternaries(u, node, j, true))
    decreases h - i, 52
  {
    hide Twin, KindAt, TextAt, Parse, Ternaries;
    Peer(t, u, h, i, j);
    var a, b := TernaryForm(t, node, i);
    var x, y := TernaryForm(u, node, j);
    if i == h || !KindAt(t, i).Question? { return; }
    SameParse(0, t, u, h, i + 1);
    if !a.Parsed? { return; }
    Peer(t, u, h, a.at, x.at);
    if !KindAt(t, a.at).Colon? { return; }
    SameParse(0, t, u, h, a.at + 1);
    if b.Parsed? { SameTernaries(t, u, h, Ternary(node, a.tree, b.tree), b.at, y.at); }
  }

  /** One round of the ternary loop. */
  lemma TernaryForm(t: seq<Token>, node: Node, i: nat) returns (a: Outcome<Node>, b: Outcome<Node>)
    ensures KindAt(t, i).Question? ==>
              a == Parse(0, t, i + 1, true) && (a.Parsed? ==> b == Parse(0, t, a.at + 1, true))
    ensures Ternaries(t, node, i, true) ==
              if !KindAt(t, i).Question? then Parsed(node, i)
              else if !a.Parsed? then a
              else if !KindAt(t, a.at).Colon? then Failed(a.at)
              else if !b.Parsed? then b
              else Ternaries(t, Ternary(node, a.tree, b.tree), b.at, true)
  {
    hide Parse;
    a := Parse(0, t, i + 1, true);
    b := if a.Parsed? then Parse(0, t, a.at + 1, true) else a;
  }

  lemma {:induction false} SameChain(level: nat, t: seq<Token>, u: seq<Token>, h: nat, i: nat)
    requires Chains(level) && Twin(t, u, h) && i <= h
    ensures Alike(h, Chain(level, t, i, true), Chain(level, u, i, true))
    decreases h - i, 3 * (14 - level) + 11
  {
    hide Twin, KindAt, TextAt, Parse, Rest;
    SameParse(level + 1, t, u, h, i);
    var a, b := Parse(level + 1, t, i, true), Parse(level + 1, u, i, true);
    if a.Parsed? { SameRest(level, t, u, h, a.tree, a.at, b.at); }
  }

  lemma {:induction false} SameRest(
    level: nat, t: seq<Token>, u: seq<Token>, h: nat, node: Node, i: nat, j: nat)
    requires Chains(level) && Twin(t, u, h) && Beside(h, i, j)
    ensures Alike(h, Rest(level, t, node, i, true), Rest(level, u, node, j, true))
    decreases h - i, 3 * (14 - level) + 10
  {
    hide Twin, KindAt, TextAt, Parse;
    Peer(t, u, h, i, j);
    if i < h && OpLevel(KindAt(t, i)) == level {
      SameParse(level + 1, t, u, h, i + 1);
      var a, b := Parse(level + 1, t, i + 1, true), Parse(level + 1, u, i + 1, true);
      if a.Parsed? {
        SameRest(level, t, u, h, Binary(OpText(level, TextAt(t, i)), node, a.tree), a.at, b.at);
      }
    }
  }

  lemma {:induction false} SameOneOp(level: nat, t: seq<Token>, u: seq<Token>, h: nat, i: nat)
    requires (level == 3 || level == 4) && Twin(t, u, h) && i <= h
    ensures Alike(h, OneOp(level, t, i, true), OneOp(level, u, i, true))
    decreases h - i, 3 * (14 - level) + 11
  {
    hide Twin, KindAt, TextAt, Parse, OneOp, OpLevel;
    SameParse(level + 1, t, u, h, i);
    var a, b := OneOpForm(level, t, i);
    var x, y := OneOpForm(level, u, i);
    if !a.Parsed? { return; }
    Peer(t, u, h, a.at, x.at);
    NoOperatorHere(u, x.at);
    NoOperatorHere(t, a.at);
    if OpLevel(KindAt(t, a.at)) == level { SameParse(level + 1, t, u, h, a.at + 1); }
  }

  lemma NoOperatorHere(t: seq<Token>, i: nat)
    ensures KindAt(t, i).Identifier? || KindAt(t, i).BraceRight? ==> OpLevel(KindAt(t, i)) == 0
  {
  }

  /** At most one operator between operands of the next level. */
  lemma OneOpForm(level: nat, t: seq<Token>, i: nat) returns (a: Outcome<Node>, b: Outcome<Node>)
    requires level == 3 || level == 4
    ensures a == Parse(level + 1, t, i, true) && (a.Parsed? ==> b == Parse(level + 1, t, a.at + 1, true))
    ensures OneOp(level, t, i, true) ==
              if !a.Parsed? || OpLevel(KindAt(t, a.at)) != level then a
              else if !b.Parsed? then b
              else Parsed(Binary(TextAt(t, a.at), a.tree, b.tree), b.at)
  {
    hide Parse;
    a := Parse(level + 1, t, i, true);
    b := if a.Parsed? then Parse(level + 1, t, a.at + 1, true) else a;
  }

  lemma {:induction false} SameIn(t: seq<Token>, u: seq<Token>, h: nat, i: nat)
    requires Twin(t, u, h) && i <= h
    ensures Alike(h, In(t, i, true), In(u, i, true))
    decreases h - i, 26
  {
    hide Twin, KindAt, TextAt, Parse, Values, RangeOr, In;
    SameParse(10, t, u, h, i);
    var a, b := InForm(t, i);
    var x, y := InForm(u, i);
    if !a.Parsed? { return; }
    SameValues(t, u, h, [a.tree], a.at, x.at);
    if !b.Parsed? { return; }
    Peer(t, u, h, b.at, y.at);
    if !KindAt(t, b.at).OpIn? { return; }
    SameRangeOr(t, u, h, b.at + 1);
  }

  /** What a membership test is made of. */
  lemma InForm(t: seq<Token>, i: nat) returns (a: Outcome<Node>, b: Outcome<seq<Node>>)
    ensures a == Parse(10, t, i, true) && (a.Parsed? ==> b == Values(t, [a.tree], a.at, true))
    ensures In(t, i, true) ==
              if !a.Parsed? then a
              else if b.Hung? then Hung(b.at)
              else if b.Failed? || !KindAt(t, b.at).OpIn? then a
              else
                var rng := RangeOr(t, b.at + 1);
                if !rng.Parsed? then rng else Parsed(InExpr(b.tree, rng.tree), rng.at)
  {
    hide Parse, Values, Range;
    a := Parse(10, t, i, true);
    b := if a.Parsed? then Values(t, [a.tree], a.at, true) else Failed(i);
  }

  /** What stands behind an `in`. */
  function RangeOr(t: seq<Token>, i: nat): (r: Outcome<Node>)
    ensures Moved(t, i, r.at)
  {
    if KindAt(t, i).Pipe? || KindAt(t, i).OpLess? then Range(t, i, true) else Parse(13, t, i, true)
  }

  lemma {:induction false} SameRangeOr(t: seq<Token>, u: seq<Token>, h: nat, i: nat)
    requires Twin(t, u, h) && i <= h
    ensures Alike(h, RangeOr(t, i), RangeOr(u, i))
    decreases h - i, 61
  {
    hide Twin, KindAt, TextAt, Parse, Range;
    Peer(t, u, h, i, i);
    if KindAt(t, i).Pipe? || KindAt(t, i).OpLess? { SameRange(t, u, h, i); } else { SameParse(13, t, u, h, i); }
  }

  lemma {:induction false} SameValues(t: seq<Token>, u: seq<Token>, h: nat, values: seq<Node>, i: nat, j: nat)
    requires Twin(t, u, h) && Beside(h, i, j)
    ensures Alike(h, Values(t, values, i, true), Values(u, values, j, true))
    decreases h - i, 25
  {
    hide Twin, KindAt, TextAt, Parse;
    Peer(t, u, h, i, j);
    if i < h && KindAt(t, i).Comma? {
      SameParse(10, t, u, h, i + 1);
      var a, b := Parse(10, t, i + 1, true), Parse(10, u, i + 1, true);
      if a.Parsed? { SameValues(t, u, h, values + [a.tree], a.at, b.at); }
    }
  }

  lemma {:induction false} SameRange(t: seq<Token>, u: seq<Token>, h: nat, i: nat)
    requires Twin(t, u, h) && i <= h
    ensures var k := KindAt(t, i);
            k.Pipe? || k.OpLess? ==>
              i < h && KindAt(u, i) == k && Alike(h, Range(t, i, true), Range(u, i, true))
    decreases h - i, 60
  {
    hide Twin, KindAt, TextAt, Parse, Range;
    Peer(t, u, h, i, i);
    if !KindAt(t, i).Pipe? && !KindAt(t, i).OpLess? { return; }
    SameParse(6, t, u, h, i + 1);
    var a, b := RangeForm(t, i);
    var x, y := RangeForm(u, i);
    if !a.Parsed? { return; }
    Peer(t, u, h, a.at, x.at);
    if !KindAt(t, a.at).Comma? { return; }
    SameParse(6, t, u, h, a.at + 1);
    if b.Parsed? { Peer(t, u, h, b.at, y.at); }
  }

  /** What a range is made of. */
  lemma RangeForm(t: seq<Token>, i: nat) returns (a: Outcome<Node>, b: Outcome<Node>)
    requires KindAt(t, i).Pipe? || KindAt(t, i).OpLess?
    ensures a == Parse(6, t, i + 1, true) && (a.Parsed? ==> b == Parse(6, t, a.at + 1, true))
    ensures Range(t, i, true) ==
              if !a.Parsed? then a
              else if !KindAt(t, a.at).Comma? then Failed(a.at)
              else if !b.Parsed? then b
              else if !KindAt(t, b.at).Pipe? && !KindAt(t, b.at).OpGreat? then Failed(b.at)
              else Parsed(RangeLit(a.tree, b.tree, KindAt(t, i).Pipe?, KindAt(t, b.at).Pipe?), b.at + 1)
  {
    hide Parse;
    a := Parse(6, t, i + 1, true);
    b := if a.Parsed? then Parse(6, t, a.at + 1, true) else a;
  }

  lemma {:induction false} SameUnary(t: seq<Token>, u: seq<Token>, h: nat, i: nat)
    requires Twin(t, u, h) && i <= h
    ensures Alike(h, UnaryLevel(t, i, true), UnaryLevel(u, i, true))
    decreases h - i, 20
  {
    hide Twin, KindAt, TextAt, Parse;
    Peer(t, u, h, i, i);
    if i < h && UnaryKind(KindAt(t, i)) { SameParse(11, t, u, h, i + 1); } else { SameParse(12, t, u, h, i); }
  }

  lemma {:induction false} SamePostfix(t: seq<Token>, u: seq<Token>, h: nat, i: nat)
    requires Twin(t, u, h) && i <= h
    ensures Alike(h, PostfixLevel(t, i, true), PostfixLevel(u, i, true))
    decreases h - i, 17
  {
    hide Twin, KindAt, TextAt, Parse;
    SameParse(13, t, u, h, i);
    var a, x := Parse(13, t, i, true), Parse(13, u, i, true);
    if a.Parsed? { Peer(t, u, h, a.at, x.at); }
  }

  // ------------------------------------------------------------- primaries

  lemma {:induction false} SamePrimary(t: seq<Token>, u: seq<Token>, h: nat, i: nat)
    requires Twin(t, u, h) && i <= h
    ensures Alike(h, Primary(t, i, true), Primary(u, i, true))
    decreases h - i, 14
  {
    hide Twin, KindAt, TextAt, Parse, CommaList, Pieces, Args, Elements, Path, Called;
    Peer(t, u, h, i, i);
    var k := KindAt(t, i);
    if k.Identifier? {
      SamePath(t, u, h, i, i);
      var a, b := Path(t, i, true), Path(u, i, true);
      if a.Parsed? { SameCalled(t, u, h, a.tree, a.at, b.at); }
    } else if k.ParenLeft? {
      SameParse(0, t, u, h, i + 1);
      var a, b := Parse(0, t, i + 1, true), Parse(0, u, i + 1, true);
      if a.Parsed? { SameCommaList(t, u, h, a.tree, a.at, b.at); }
    } else if StringKind(k) {
      SamePieces(t, u, h, [], i, i);
    } else if k.Function? {
      Peer(t, u, h, i + 1, i + 1);
      if KindAt(t, i + 1).ParenLeft? { SameArgs(t, u, h, i + 2); }
    } else if k.BraceLeft? {
      SameElements(t, u, h, [], i + 1, i + 1);
    }
  }

  lemma {:induction false} SameCommaList(t: seq<Token>, u: seq<Token>, h: nat, node: Node, i: nat, j: nat)
    requires Twin(t, u, h) && Beside(h, i, j)
    ensures Alike(h, CommaList(t, node, i, true), CommaList(u, node, j, true))
    decreases h - i, 60
  {
    hide Twin, KindAt, TextAt, Parse;
    Peer(t, u, h, i, j);
    if i == h || !KindAt(t, i).Comma? { return; }
    SameParse(0, t, u, h, i + 1);
    var a, x := Parse(0, t, i + 1, true), Parse(0, u, i + 1, true);
    if a.Parsed? { SameCommaList(t, u, h, a.tree, a.at, x.at); }
  }

  lemma {:induction false} SameCalled(t: seq<Token>, u: seq<Token>, h: nat, parts: seq<Part>, i: nat, j: nat)
    requires Twin(t, u, h) && Beside(h, i, j)
    ensures Alike(h, Called(t, parts, i, true), Called(u, parts, j, true))
    decreases h - i, 10
  {
    hide Twin, KindAt, TextAt, Args, MethodChain;
    Peer(t, u, h, i, j);
    if i < h && CallableName(parts) && KindAt(t, i).ParenLeft? {
      SameArgs(t, u, h, i + 1);
      var a, b := Args(t, i + 1, true), Args(u, i + 1, true);
      if a.Parsed? {
        var n := |parts| - 1;
        SameMethodChain(t, u, h, if n == 0 then Call(parts[0].name, a.tree)
                                 else MethodCall(VarRef(parts[..n]), parts[n].name, a.tree), a.at, b.at);
      }
    }
  }

  lemma {:induction false} SameMethodChain(t: seq<Token>, u: seq<Token>, h: nat, node: Node, i: nat, j: nat)
    requires Twin(t, u, h) && Beside(h, i, j)
    ensures Alike(h, MethodChain(t, node, i, true), MethodChain(u, node, j, true))
    decreases h - i, 60
  {
    hide Twin, KindAt, TextAt, Args;
    Peer(t, u, h, i, j);
    if i == h || !KindAt(t, i).Period? { return; }
    Peer(t, u, h, i + 1, i + 1);
    if i + 1 == h { NoMethodHere(t, u, h); return; }
    if !KindAt(t, i + 1).Identifier? { return; }
    Peer(t, u, h, i + 2, i + 2);
    if !KindAt(t, i + 2).ParenLeft? { return; }
    SameArgs(t, u, h, i + 3);
    var a, x := Args(t, i + 3, true), Args(u, i + 3, true);
    if a.Parsed? { SameMethodChain(t, u, h, MethodCall(node, TextAt(t, i + 1), a.tree), a.at, x.at); }
  }

  /** A period just before the colon begins no method call in either text. */
  lemma NoMethodHere(t: seq<Token>, u: seq<Token>, h: nat)
    requires Twin(t, u, h) && h > 0 && KindAt(t, h - 1).Period?
    ensures !KindAt(t, h + 1).ParenLeft? && !KindAt(u, h + 1).ParenLeft?
  {
  }

  lemma {:induction false} SameArgs(t: seq<Token>, u: seq<Token>, h: nat, i: nat)
    requires Twin(t, u, h) && i <= h
    ensures Alike(h, Args(t, i, true), Args(u, i, true))
    decreases h - i, 63
  {
    hide Twin, KindAt, TextAt, MoreArgs;
    Peer(t, u, h, i, i);
    SameMoreArgs(t, u, h, [], i);
  }

  lemma {:induction false} SameMoreArgs(t: seq<Token>, u: seq<Token>, h: nat, args: seq<Node>, i: nat)
    requires Twin(t, u, h) && i <= h
    ensures Alike(h, MoreArgs(t, args, i, true), MoreArgs(u, args, i, true))
    decreases h - i, 62
  {
    hide Twin, KindAt, TextAt, ArgOrEmpty;
    SameArgOrEmpty(t, u, h, i);
    var a, x := ArgOrEmpty(t, i, true), ArgOrEmpty(u, i, true);
    if !a.Parsed? { return; }
    Peer(t, u, h, a.at, x.at);
    if KindAt(t, a.at).Comma? { SameMoreArgs(t, u, h, args + [a.tree], a.at + 1); }
  }

  lemma {:induction false} SameArgOrEmpty(t: seq<Token>, u: seq<Token>, h: nat, i: nat)
    requires Twin(t, u, h) && i <= h
    ensures Alike(h, ArgOrEmpty(t, i, true), ArgOrEmpty(u, i, true))
    decreases h - i, 61
  {
    hide Twin, KindAt, TextAt, Parse;
    Peer(t, u, h, i, i);
    SameParse(0, t, u, h, i);
  }

  lemma {:induction false} SamePieces(t: seq<Token>, u: seq<Token>, h: nat, pieces: seq<Node>, i: nat, j: nat)
    requires Twin(t, u, h) && Beside(h, i, j)
    ensures Alike(h, Pieces(t, pieces, i, true), Pieces(u, pieces, j, true))
    decreases h - i, 10
  {
    hide Twin, KindAt, TextAt, MessageCodeAt;
    Peer(t, u, h, i, j);
    if i < h {
      var k := KindAt(t, i);
      if k.StringPart? {
        SamePieces(t, u, h, pieces + [Str(TextAt(t, i))], i + 1, i + 1);
      } else if k.RawMessageCode? {
        SamePieces(t, u, h, pieces, i + 1, i + 1);
      } else if k.MessageCode? {
        SameMessageCode(t, u, h, i);
        var a, b := MessageCodeAt(t, i, true), MessageCodeAt(u, i, true);
        if a.Parsed? { SamePieces(t, u, h, pieces + [a.tree], a.at, b.at); }
      }
    }
  }

  lemma {:induction false} SameMessageCode(t: seq<Token>, u: seq<Token>, h: nat, i: nat)
    requires Twin(t, u, h) && i < h && KindAt(t, i).MessageCode?
    ensures Alike(h, MessageCodeAt(t, i, true), MessageCodeAt(u, i, true))
    decreases h - i, 5
  {
    hide Twin, KindAt, TextAt, Args;
    Peer(t, u, h, i, i);
    Peer(t, u, h, i + 1, i + 1);
    if KindAt(t, i + 1).ParenLeft? { SameArgs(t, u, h, i + 2); }
  }

  lemma {:induction false} SameElements(t: seq<Token>, u: seq<Token>, h: nat, es: seq<Node>, i: nat, j: nat)
    requires Twin(t, u, h) && Beside(h, i, j)
    ensures Alike(h, Elements(t, es, i, true), Elements(u, es, j, true))
    decreases h - i, 60
  {
    hide Twin, KindAt, TextAt, Parse;
    Peer(t, u, h, i, j);
    var k := KindAt(t, i);
    if i == h { ArrayHangsAtColon(t, es, h); return; }
    if k.BraceRight? || k.Eof? { return; }
    if k.Comma? || k.End? { SameElements(t, u, h, es, i + 1, i + 1); return; }
    SameParse(0, t, u, h, i);
    var a, x := Parse(0, t, i, true), Parse(0, u, i, true);
    if !a.Parsed? { return; }
    Peer(t, u, h, a.at, x.at);
    if a.at == i { return; }
    var comma := KindAt(t, a.at).Comma?;
    SameElements(t, u, h, es + [a.tree], if comma then a.at + 1 else a.at, if comma then x.at + 1 else x.at);
  }

  // ------------------------------------------------------------- paths

  lemma {:induction false} SamePath(t: seq<Token>, u: seq<Token>, h: nat, i: nat, j: nat)
    requires Twin(t, u, h) && i == j && i <= h
    ensures Alike(h, Path(t, i, true), Path(u, j, true))
    decreases h - i, 10
  {
    hide Twin, KindAt, TextAt, PathPart, MoreParts;
    SamePathPart(t, u, h, i);
    var a, b := PathPart(t, i, true), PathPart(u, i, true);
    if a.Parsed? { SameMoreParts(t, u, h, [a.tree], a.at, b.at); }
  }

  lemma {:induction false} SameMoreParts(t: seq<Token>, u: seq<Token>, h: nat, parts: seq<Part>, i: nat, j: nat)
    requires parts != [] && Twin(t, u, h) && Beside(h, i, j)
    ensures Alike(h, MoreParts(t, parts, i, true), MoreParts(u, parts, j, true))
    decreases h - i, 9
  {
    hide Twin, KindAt, TextAt, PathPart, ComputedPart;
    Peer(t, u, h, i, j);
    if i == h || !KindAt(t, i).Period? { return; }
    Peer(t, u, h, i + 1, i + 1);
    var computed := KindAt(t, i + 1).ParenLeft?;
    if computed { SameComputedPart(t, u, h, i + 2); } else { SamePathPart(t, u, h, i + 1); }
    var a := if computed then ComputedPart(t, i + 2, true) else PathPart(t, i + 1, true);
    var x := if computed then ComputedPart(u, i + 2, true) else PathPart(u, i + 1, true);
    if a.Parsed? { SameMoreParts(t, u, h, parts + [a.tree], a.at, x.at); }
  }

  lemma {:induction false} SameComputedPart(t: seq<Token>, u: seq<Token>, h: nat, i: nat)
    requires Twin(t, u, h) && i <= h
    ensures Alike(h, ComputedPart(t, i, true), ComputedPart(u, i, true))
    decreases h - i, 60
  {
    hide Twin, KindAt, TextAt, Parse, Index;
    SameParse(0, t, u, h, i);
    var a, x := Parse(0, t, i, true), Parse(0, u, i, true);
    if !a.Parsed? { return; }
    Peer(t, u, h, a.at, x.at);
    if KindAt(t, a.at).ParenRight? { SameIndex(t, u, h, a.at + 1, a.at + 1); }
  }

  lemma {:induction false} SamePathPart(t: seq<Token>, u: seq<Token>, h: nat, i: nat)
    requires Twin(t, u, h) && i <= h
    ensures Alike(h, PathPart(t, i, true), PathPart(u, i, true))
    decreases h - i, 8
  {
    hide Twin, KindAt, TextAt, Atoms, Index;
    SameAtoms(t, u, h, Part("", [], []), false, i, i);
    var a, b := Atoms(t, Part("", [], []), false, i, true), Atoms(u, Part("", [], []), false, i, true);
    if a.Parsed? { SameIndex(t, u, h, a.at, b.at); }
  }

  lemma {:induction false} SameAtoms(
    t: seq<Token>, u: seq<Token>, h: nat, part: Part, dynamic: bool, i: nat, j: nat)
    requires Twin(t, u, h) && Beside(h, i, j)
    ensures Alike(h, Atoms(t, part, dynamic, i, true), Atoms(u, part, dynamic, j, true))
    decreases h - i, 6
  {
    hide Twin, KindAt, TextAt, MessageCodeAt;
    Peer(t, u, h, i, j);
    var k, text := KindAt(t, i), TextAt(t, i);
    if i == h {
      Peer(t, u, h, h, h + 1);
      assert Atoms(u, part, dynamic, h + 1, true) == Parsed(if dynamic then part.(name := "") else part, h + 1);
    } else if k.Identifier? {
      if text != ":" {
        SameAtoms(t, u, h, if text == "" then part
                           else part.(name := part.name + text, atoms := part.atoms + [Str(text)]),
                  dynamic, i + 1, i + 1);
      }
    } else if k.Literal? {
      SameAtoms(t, u, h, part.(name := part.name + text, atoms := part.atoms + [Str(text)]), dynamic, i + 1, i + 1);
    } else if k.MessageCode? {
      SameMessageCode(t, u, h, i);
      var a, b := MessageCodeAt(t, i, true), MessageCodeAt(u, i, true);
      if a.Parsed? { SameAtoms(t, u, h, part.(atoms := part.atoms + [a.tree]), true, a.at, b.at); }
    }
  }

  lemma {:induction false} SameIndex(t: seq<Token>, u: seq<Token>, h: nat, i: nat, j: nat)
    requires Twin(t, u, h) && Beside(h, i, j)
    ensures Alike(h, Index(t, i, true), Index(u, j, true))
    decreases h - i, 4
  {
    hide Twin, KindAt, TextAt, Parse, Index;
    Peer(t, u, h, i, j);
    var a, b := IndexForm(t, i);
    var x, y := IndexForm(u, j);
    if i == h || !KindAt(t, i).BracketLeft? { return; }
    SameParse(0, t, u, h, i + 1);
    if !a.Parsed? { return; }
    Peer(t, u, h, a.at, x.at);
    if !KindAt(t, a.at).Comma? { return; }
    SameParse(0, t, u, h, a.at + 1);
    if b.Parsed? { Peer(t, u, h, b.at, y.at); }
  }

  /** What an index is made of. */
  lemma IndexForm(t: seq<Token>, i: nat) returns (a: Outcome<Node>, b: Outcome<Node>)
    ensures KindAt(t, i).BracketLeft? ==>
              a == Parse(0, t, i + 1, true) && (a.Parsed? ==> b == Parse(0, t, a.at + 1, true))
    ensures Index(t, i, true) ==
              if !KindAt(t, i).BracketLeft? then Parsed([], i)
              else if !a.Parsed? then a.Fail()
              else if KindAt(t, a.at).BracketRight? then Parsed([a.tree], a.at + 1)
              else if !KindAt(t, a.at).Comma? then Failed(a.at)
              else if !b.Parsed? then b.Fail()
              else if KindAt(t, b.at).BracketRight? then Parsed([a.tree, b.tree], b.at + 1)
              else Failed(b.at)
  {
    hide Parse;
    a := Parse(0, t, i + 1, true);
    b := if a.Parsed? then Parse(0, t, a.at + 1, true) else a;
  }
}

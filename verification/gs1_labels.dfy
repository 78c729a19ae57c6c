/** The braces of a case label: an expression read whole is balanced, and one that comes round
    for ever has left a brace open. */
module Gs1Labels {
  import opened Gs1Syntax
  import opened Gs1Grammar
  import opened Gs1Recovery
  import opened Gs1Mended

  // ------------------------------------------------------------- braces in a label

  /** Braces of the text before `m` still open there. */
  function Level(t: seq<Token>, m: nat): int { Depth(t, 0, m) }

  predicate NoColonIn(t: seq<Token>, i: nat, j: nat) { forall k :: i <= k < j ==> !BareColon(t, k) }

  predicate NeverBelow(t: seq<Token>, i: nat, j: nat) { forall m :: i <= m <= j ==> Level(t, m) >= Level(t, i) }

  /** Tokens with balanced braces and no bare colon. */
  predicate Neat(t: seq<Token>, i: nat, j: nat) {
    i <= j && Level(t, j) == Level(t, i) && NeverBelow(t, i, j) && NoColonIn(t, i, j)
  }

  /** Tokens that leave a brace open, with no bare colon among them. */
  predicate Unclosed(t: seq<Token>, i: nat, j: nat) {
    i <= j && Level(t, j) > Level(t, i) && NeverBelow(t, i, j) && NoColonIn(t, i, j)
  }

  lemma Joins(t: seq<Token>, i: nat, j: nat, k: nat)
    requires Neat(t, i, j)
    ensures Neat(t, j, k) ==> Neat(t, i, k)
    ensures Unclosed(t, j, k) ==> Unclosed(t, i, k)
  {
    hide BareColon, Level;
  }

  /** A token that is neither a brace nor the colon itself. */
  lemma Token1(t: seq<Token>, i: nat)
    requires !KindAt(t, i).BraceLeft? && !KindAt(t, i).BraceRight? && !BareColon(t, i)
    ensures Neat(t, i, i + 1)
  {
  }

  lemma Nothing(t: seq<Token>, i: nat)
    ensures Neat(t, i, i)
  {
  }

  lemma Braced(t: seq<Token>, i: nat, j: nat)
    requires KindAt(t, i).BraceLeft?
    ensures Neat(t, i + 1, j) && KindAt(t, j).BraceRight? ==> Neat(t, i, j + 1)
    ensures Neat(t, i + 1, j) || Unclosed(t, i + 1, j) ==> Unclosed(t, i, j)
  {
    hide BareColon;
    assert Level(t, i + 1) == Level(t, i) + 1;
    var k := KindAt(t, j);
    assert Level(t, j + 1) == Level(t, j) + (if k.BraceLeft? then 1 else if k.BraceRight? then -1 else 0);
    assert !BareColon(t, i) by { NotColon(t, i); }
    if KindAt(t, j).BraceRight? { NotColon(t, j); }
  }

  lemma NotColon(t: seq<Token>, i: nat)
    ensures !KindAt(t, i).Identifier? ==> !BareColon(t, i)
  {
  }

  /** What is read is neat; what comes round for ever has left a brace open. */
  predicate Tidy<T>(t: seq<Token>, i: nat, r: Outcome<T>) {
    (r.Parsed? ==> Neat(t, i, r.at)) && (r.Hung? ==> Unclosed(t, i, r.at))
  }

  /** The same behind a token or more that are neat. */
  lemma Behind<T>(t: seq<Token>, i: nat, j: nat, r: Outcome<T>)
    requires Neat(t, i, j) && Tidy(t, j, r)
    ensures Tidy(t, i, r)
  {
    hide Neat, Unclosed;
    Joins(t, i, j, r.at);
  }

  lemma {:induction false} TidyParse(level: nat, t: seq<Token>, i: nat)
    requires level <= 13
    ensures Tidy(t, i, Parse(level, t, i, true))
    decreases |t| - i, 3 * (14 - level) + 12
  {
    hide Parse, Tidy, Expression, Chain, In, UnaryLevel, PostfixLevel, Primary, OneOp;
    RuleOf(level, t, i, true);
    if level == 0 { TidyExpression(t, i); }
    else if Chains(level) { TidyChain(level, t, i); }
    else if level == 9 { TidyIn(t, i); }
    else if level == 11 { TidyUnary(t, i); }
    else if level == 12 { TidyPostfix(t, i); }
    else if level == 13 { TidyPrimary(t, i); }
    else { TidyOneOp(level, t, i); }
  }

  lemma {:induction false} TidyExpression(t: seq<Token>, i: nat)
    ensures Tidy(t, i, Expression(t, i, true))
    decreases |t| - i, 53
  {
    hide Parse, Neat, Unclosed, Ternaries;
    var a := Parse(1, t, i, true);
    TidyParse(1, t, i);
    if a.Parsed? {
      TidyTernaries(t, a.tree, a.at);
      Behind(t, i, a.at, Ternaries(t, a.tree, a.at, true));
    }
  }

  lemma StaysWithin(t: seq<Token>, i: nat, at: nat)
    requires Moved(t, i, at) && at > i
    ensures at <= |t|
  {
  }

  /** One token more, neither a brace nor a name. */
  lemma Passed(t: seq<Token>, i: nat, j: nat)
    requires Neat(t, i, j)
    requires var k := KindAt(t, j); !k.Identifier? && !k.BraceLeft? && !k.BraceRight? && !k.Eof?
    ensures Neat(t, i, j + 1) && j < |t|
  {
    hide Neat, Unclosed;
    NotColon(t, j);
    Token1(t, j);
    Joins(t, i, j, j + 1);
  }

  lemma {:induction false} TidyTernaries(t: seq<Token>, node: Node, i: nat)
    ensures Tidy(t, i, Ternaries(t, node, i, true))
    decreases |t| - i, 52
  {
    hide Parse, Neat, Unclosed, Ternaries, KindAt, BareColon;
    var a, b := TernaryForm(t, node, i);
    Nothing(t, i);
    if !KindAt(t, i).Question? { return; }
    Passed(t, i, i);
    TidyParse(0, t, i + 1);
    Behind(t, i, i + 1, a);
    if !a.Parsed? || !KindAt(t, a.at).Colon? { return; }
    Passed(t, i, a.at);
    TidyParse(0, t, a.at + 1);
    Behind(t, i, a.at + 1, b);
    if b.Parsed? {
      TidyTernaries(t, Ternary(node, a.tree, b.tree), b.at);
      Behind(t, i, b.at, Ternaries(t, Ternary(node, a.tree, b.tree), b.at, true));
    }
  }

  lemma {:induction false} TidyChain(level: nat, t: seq<Token>, i: nat)
    requires Chains(level)
    ensures Tidy(t, i, Chain(level, t, i, true))
    decreases |t| - i, 3 * (14 - level) + 11
  {
    hide Parse, Neat, Unclosed, Rest;
    var a := Parse(level + 1, t, i, true);
    TidyParse(level + 1, t, i);
    if a.Parsed? {
      TidyRest(level, t, a.tree, a.at);
      Behind(t, i, a.at, Rest(level, t, a.tree, a.at, true));
    }
  }

  lemma {:induction false} TidyRest(level: nat, t: seq<Token>, node: Node, i: nat)
    requires Chains(level)
    ensures Tidy(t, i, Rest(level, t, node, i, true))
    decreases |t| - i, 3 * (14 - level) + 10
  {
    hide Parse, Neat, Unclosed, KindAt, BareColon;
    Nothing(t, i);
    if OpLevel(KindAt(t, i)) == level {
      Passed(t, i, i);
      var a := Parse(level + 1, t, i + 1, true);
      TidyParse(level + 1, t, i + 1);
      Behind(t, i, i + 1, a);
      if a.Parsed? {
        var next := Binary(OpText(level, TextAt(t, i)), node, a.tree);
        TidyRest(level, t, next, a.at);
        Behind(t, i, a.at, Rest(level, t, next, a.at, true));
      }
    }
  }

  lemma {:induction false} TidyOneOp(level: nat, t: seq<Token>, i: nat)
    requires level == 3 || level == 4
    ensures Tidy(t, i, OneOp(level, t, i, true))
    decreases |t| - i, 3 * (14 - level) + 11
  {
    hide Parse, Neat, Unclosed, KindAt, BareColon, OneOp;
    var a, b := OneOpForm(level, t, i);
    TidyParse(level + 1, t, i);
    if a.Parsed? && OpLevel(KindAt(t, a.at)) == level {
      Passed(t, i, a.at);
      TidyParse(level + 1, t, a.at + 1);
      Behind(t, i, a.at + 1, b);
    }
  }

  lemma {:induction false} TidyIn(t: seq<Token>, i: nat)
    ensures Tidy(t, i, In(t, i, true))
    decreases |t| - i, 26
  {
    hide Parse, Neat, Unclosed, KindAt, BareColon, In, Values, RangeOr;
    var a, b := InForm(t, i);
    TidyParse(10, t, i);
    if !a.Parsed? { return; }
    if a.at > i { StaysWithin(t, i, a.at); }
    TidyValues(t, [a.tree], a.at);
    Behind(t, i, a.at, b);
    if b.Parsed? && KindAt(t, b.at).OpIn? {
      Passed(t, i, b.at);
      TidyRangeOr(t, b.at + 1);
      Behind(t, i, b.at + 1, RangeOr(t, b.at + 1));
    }
  }

  lemma {:induction false} TidyValues(t: seq<Token>, values: seq<Node>, i: nat)
    ensures Tidy(t, i, Values(t, values, i, true))
    decreases |t| - i, 25
  {
    hide Parse, Neat, Unclosed, KindAt, BareColon;
    Nothing(t, i);
    if KindAt(t, i).Comma? {
      Passed(t, i, i);
      var a := Parse(10, t, i + 1, true);
      TidyParse(10, t, i + 1);
      Behind(t, i, i + 1, a);
      if a.Parsed? {
        TidyValues(t, values + [a.tree], a.at);
        Behind(t, i, a.at, Values(t, values + [a.tree], a.at, true));
      }
    }
  }

  lemma {:induction false} TidyRangeOr(t: seq<Token>, i: nat)
    ensures Tidy(t, i, RangeOr(t, i))
    decreases |t| - i, 61
  {
    hide Parse, Neat, Unclosed, KindAt, BareColon, Range;
    if KindAt(t, i).Pipe? || KindAt(t, i).OpLess? { TidyRange(t, i); } else { TidyParse(13, t, i); }
  }

  lemma {:induction false} TidyRange(t: seq<Token>, i: nat)
    requires KindAt(t, i).Pipe? || KindAt(t, i).OpLess?
    ensures Tidy(t, i, Range(t, i, true))
    decreases |t| - i, 60
  {
    hide Parse, Neat, Unclosed, KindAt, BareColon, Range;
    var a, b := RangeForm(t, i);
    Nothing(t, i);
    Passed(t, i, i);
    TidyParse(6, t, i + 1);
    Behind(t, i, i + 1, a);
    if !a.Parsed? || !KindAt(t, a.at).Comma? { return; }
    Passed(t, i, a.at);
    TidyParse(6, t, a.at + 1);
    Behind(t, i, a.at + 1, b);
    if b.Parsed? && (KindAt(t, b.at).Pipe? || KindAt(t, b.at).OpGreat?) { Passed(t, i, b.at); }
  }

  lemma {:induction false} TidyUnary(t: seq<Token>, i: nat)
    ensures Tidy(t, i, UnaryLevel(t, i, true))
    decreases |t| - i, 20
  {
    hide Parse, Neat, Unclosed, KindAt, BareColon;
    if UnaryKind(KindAt(t, i)) {
      Nothing(t, i);
      Passed(t, i, i);
      TidyParse(11, t, i + 1);
      Behind(t, i, i + 1, Parse(11, t, i + 1, true));
    } else {
      TidyParse(12, t, i);
    }
  }

  lemma {:induction false} TidyPostfix(t: seq<Token>, i: nat)
    ensures Tidy(t, i, PostfixLevel(t, i, true))
    decreases |t| - i, 17
  {
    hide Parse, Neat, Unclosed, KindAt, BareColon;
    TidyParse(13, t, i);
    var a := Parse(13, t, i, true);
    if a.Parsed? && (KindAt(t, a.at).OpInc? || KindAt(t, a.at).OpDec?) { Passed(t, i, a.at); }
  }

  // ------------------------------------------------------------- primaries

  lemma {:induction false} TidyPrimary(t: seq<Token>, i: nat)
    ensures Tidy(t, i, Primary(t, i, true))
    decreases |t| - i, 14
  {
    hide Parse, Neat, Unclosed, KindAt, BareColon, CommaList, Pieces, Args, Elements, Path, Called;
    var k := KindAt(t, i);
    Nothing(t, i);
    if k.ParenLeft? {
      Passed(t, i, i);
      var a := Parse(0, t, i + 1, true);
      TidyParse(0, t, i + 1);
      Behind(t, i, i + 1, a);
      if a.Parsed? {
        TidyCommaList(t, a.tree, a.at);
        Behind(t, i, a.at, CommaList(t, a.tree, a.at, true));
      }
    } else if StringKind(k) {
      TidyPieces(t, [], i);
    } else if k.Function? {
      if KindAt(t, i + 1).ParenLeft? {
        Passed(t, i, i);
        Passed(t, i, i + 1);
        TidyArgs(t, i + 2);
        Behind(t, i, i + 2, Args(t, i + 2, true));
      }
    } else if k.BraceLeft? {
      TidyLiteral(t, i);
    } else if k.Identifier? {
      TidyPath(t, i);
      var a := Path(t, i, true);
      if a.Parsed? {
        if a.at > i { StaysWithin(t, i, a.at); }
        TidyCalled(t, a.tree, a.at);
        Behind(t, i, a.at, Called(t, a.tree, a.at, true));
      }
    } else if k.Literal? || k.AllFeatures? || k.AllStats? {
      Passed(t, i, i);
    }
  }

  lemma {:induction false} TidyCommaList(t: seq<Token>, node: Node, i: nat)
    ensures Tidy(t, i, CommaList(t, node, i, true))
    decreases |t| - i, 60
  {
    hide Parse, Neat, Unclosed, KindAt, BareColon;
    Nothing(t, i);
    if KindAt(t, i).Comma? {
      Passed(t, i, i);
      var a := Parse(0, t, i + 1, true);
      TidyParse(0, t, i + 1);
      Behind(t, i, i + 1, a);
      if a.Parsed? {
        TidyCommaList(t, a.tree, a.at);
        Behind(t, i, a.at, CommaList(t, a.tree, a.at, true));
      }
    } else if KindAt(t, i).ParenRight? {
      Passed(t, i, i);
    }
  }

  lemma {:induction false} TidyCalled(t: seq<Token>, parts: seq<Part>, i: nat)
    ensures Tidy(t, i, Called(t, parts, i, true))
    decreases |t| - i, 11
  {
    hide Neat, Unclosed, KindAt, BareColon, Args, MethodChain;
    Nothing(t, i);
    if CallableName(parts) && KindAt(t, i).ParenLeft? {
      Passed(t, i, i);
      TidyArgs(t, i + 1);
      var a := Args(t, i + 1, true);
      Behind(t, i, i + 1, a);
      if a.Parsed? {
        var n := |parts| - 1;
        var node := if n == 0 then Call(parts[0].name, a.tree)
                    else MethodCall(VarRef(parts[..n]), parts[n].name, a.tree);
        TidyMethodChain(t, node, a.at);
        Behind(t, i, a.at, MethodChain(t, node, a.at, true));
      }
    }
  }

  /** A period, a name (which may be the colon) and a parenthesis. */
  lemma MethodTokens(t: seq<Token>, i: nat)
    requires KindAt(t, i).Period? && KindAt(t, i + 1).Identifier? && KindAt(t, i + 2).ParenLeft?
    ensures Neat(t, i, i + 3) && i + 2 < |t|
  {
    hide Neat, Unclosed;
    Nothing(t, i);
    Passed(t, i, i);
    Token1(t, i + 1);
    Joins(t, i, i + 1, i + 2);
    Passed(t, i, i + 2);
  }

  lemma {:induction false} TidyMethodChain(t: seq<Token>, node: Node, i: nat)
    ensures Tidy(t, i, MethodChain(t, node, i, true))
    decreases |t| - i, 60
  {
    hide Neat, Unclosed, KindAt, BareColon, Args;
    Nothing(t, i);
    if KindAt(t, i).Period? && KindAt(t, i + 1).Identifier? && KindAt(t, i + 2).ParenLeft? {
      MethodTokens(t, i);
      TidyArgs(t, i + 3);
      var a := Args(t, i + 3, true);
      Behind(t, i, i + 3, a);
      if a.Parsed? {
        var next := MethodCall(node, TextAt(t, i + 1), a.tree);
        TidyMethodChain(t, next, a.at);
        Behind(t, i, a.at, MethodChain(t, next, a.at, true));
      }
    }
  }

  lemma {:induction false} TidyArgs(t: seq<Token>, i: nat)
    ensures Tidy(t, i, Args(t, i, true))
    decreases |t| - i, 63
  {
    hide Neat, Unclosed, KindAt, BareColon, MoreArgs;
    if KindAt(t, i).ParenRight? {
      Nothing(t, i);
      Passed(t, i, i);
    } else {
      TidyMoreArgs(t, [], i);
    }
  }

  lemma {:induction false} TidyMoreArgs(t: seq<Token>, args: seq<Node>, i: nat)
    ensures Tidy(t, i, MoreArgs(t, args, i, true))
    decreases |t| - i, 62
  {
    hide Neat, Unclosed, KindAt, BareColon, ArgOrEmpty;
    TidyArgOrEmpty(t, i);
    var a := ArgOrEmpty(t, i, true);
    if a.Parsed? {
      if KindAt(t, a.at).Comma? {
        Passed(t, i, a.at);
        TidyMoreArgs(t, args + [a.tree], a.at + 1);
        Behind(t, i, a.at + 1, MoreArgs(t, args + [a.tree], a.at + 1, true));
      } else if KindAt(t, a.at).ParenRight? {
        Passed(t, i, a.at);
      }
    }
  }

  lemma {:induction false} TidyArgOrEmpty(t: seq<Token>, i: nat)
    ensures Tidy(t, i, ArgOrEmpty(t, i, true))
    decreases |t| - i, 61
  {
    hide Neat, Unclosed, KindAt, BareColon, Parse;
    Nothing(t, i);
    TidyParse(0, t, i);
  }

  lemma {:induction false} TidyPieces(t: seq<Token>, pieces: seq<Node>, i: nat)
    ensures Tidy(t, i, Pieces(t, pieces, i, true))
    decreases |t| - i, 10
  {
    hide Neat, Unclosed, KindAt, BareColon, MessageCodeAt;
    Nothing(t, i);
    var k := KindAt(t, i);
    if k.StringPart? {
      Passed(t, i, i);
      TidyPieces(t, pieces + [Str(TextAt(t, i))], i + 1);
      Behind(t, i, i + 1, Pieces(t, pieces + [Str(TextAt(t, i))], i + 1, true));
    } else if k.RawMessageCode? {
      Passed(t, i, i);
      TidyPieces(t, pieces, i + 1);
      Behind(t, i, i + 1, Pieces(t, pieces, i + 1, true));
    } else if k.MessageCode? {
      Passed(t, i, i);
      TidyMessageCode(t, i);
      var a := MessageCodeAt(t, i, true);
      if a.Parsed? {
        TidyPieces(t, pieces + [a.tree], a.at);
        Behind(t, i, a.at, Pieces(t, pieces + [a.tree], a.at, true));
      }
    }
  }

  lemma {:induction false} TidyMessageCode(t: seq<Token>, i: nat)
    requires KindAt(t, i).MessageCode?
    ensures Tidy(t, i, MessageCodeAt(t, i, true))
    decreases |t| - i, 5
  {
    hide Neat, Unclosed, KindAt, BareColon, Args;
    Nothing(t, i);
    Passed(t, i, i);
    if KindAt(t, i + 1).ParenLeft? {
      Passed(t, i, i + 1);
      TidyArgs(t, i + 2);
      Behind(t, i, i + 2, Args(t, i + 2, true));
    }
  }

  lemma {:induction false} TidyLiteral(t: seq<Token>, i: nat)
    requires KindAt(t, i).BraceLeft?
    ensures var r := Elements(t, [], i + 1, true);
            (r.Parsed? ==> Neat(t, i, r.at)) && (r.Hung? ==> Unclosed(t, i, r.at))
    decreases |t| - i, 13
  {
    hide Neat, Unclosed, BareColon, Elements;
    TidyElements(t, [], i + 1);
    var r := Elements(t, [], i + 1, true);
    if r.Parsed? { Braced(t, i, r.at - 1); } else { Braced(t, i, r.at); }
  }

  /** The elements of a literal: they end with a brace that is not theirs, or they come round
      for ever behind neat ones, or inside one. */
  lemma {:induction false} TidyElements(t: seq<Token>, es: seq<Node>, i: nat)
    ensures var r := Elements(t, es, i, true);
            && (r.Parsed? ==> KindAt(t, r.at - 1).BraceRight? && Neat(t, i, r.at - 1))
            && (r.Hung? ==> Neat(t, i, r.at) || Unclosed(t, i, r.at))
    decreases |t| - i, 60
  {
    hide Neat, Unclosed, KindAt, BareColon, Parse;
    Nothing(t, i);
    var k, r := KindAt(t, i), Elements(t, es, i, true);
    if k.BraceRight? || k.Eof? { return; }
    var next := i + 1;
    if k.Comma? || k.End? {
      Passed(t, i, i);
      TidyElements(t, es, next);
    } else {
      var a := Parse(0, t, i, true);
      TidyParse(0, t, i);
      if !a.Parsed? || a.at == i { return; }
      next := a.at;
      if KindAt(t, a.at).Comma? {
        Passed(t, i, a.at);
        next := a.at + 1;
      }
      if a.at > i { StaysWithin(t, i, a.at); }
      TidyElements(t, es + [a.tree], next);
    }
    if r.Parsed? { Joins(t, i, next, r.at - 1); } else { Joins(t, i, next, r.at); }
  }

  // ------------------------------------------------------------- paths

  lemma {:induction false} TidyPath(t: seq<Token>, i: nat)
    ensures Tidy(t, i, Path(t, i, true))
    decreases |t| - i, 10
  {
    hide Neat, Unclosed, KindAt, BareColon, PathPart, MoreParts;
    TidyPathPart(t, i);
    var a := PathPart(t, i, true);
    if a.Parsed? {
      if a.at > i { StaysWithin(t, i, a.at); }
      TidyMoreParts(t, [a.tree], a.at);
      Behind(t, i, a.at, MoreParts(t, [a.tree], a.at, true));
    }
  }

  lemma {:induction false} TidyMoreParts(t: seq<Token>, parts: seq<Part>, i: nat)
    requires parts != []
    ensures Tidy(t, i, MoreParts(t, parts, i, true))
    decreases |t| - i, 9
  {
    hide Neat, Unclosed, KindAt, BareColon, PathPart, ComputedPart;
    Nothing(t, i);
    if KindAt(t, i).Period? {
      Passed(t, i, i);
      var computed := KindAt(t, i + 1).ParenLeft?;
      var a := if computed then ComputedPart(t, i + 2, true) else PathPart(t, i + 1, true);
      if computed {
        Passed(t, i, i + 1);
        TidyComputedPart(t, i + 2);
        Behind(t, i, i + 2, a);
      } else {
        TidyPathPart(t, i + 1);
        Behind(t, i, i + 1, a);
      }
      if a.Parsed? {
        TidyMoreParts(t, parts + [a.tree], a.at);
        Behind(t, i, a.at, MoreParts(t, parts + [a.tree], a.at, true));
      }
    }
  }

  lemma {:induction false} TidyComputedPart(t: seq<Token>, i: nat)
    ensures Tidy(t, i, ComputedPart(t, i, true))
    decreases |t| - i, 60
  {
    hide Neat, Unclosed, KindAt, BareColon, Parse, Index;
    var a := Parse(0, t, i, true);
    TidyParse(0, t, i);
    if a.Parsed? && KindAt(t, a.at).ParenRight? {
      Passed(t, i, a.at);
      TidyIndex(t, a.at + 1);
      Behind(t, i, a.at + 1, Index(t, a.at + 1, true));
    }
  }

  lemma {:induction false} TidyPathPart(t: seq<Token>, i: nat)
    ensures Tidy(t, i, PathPart(t, i, true))
    decreases |t| - i, 8
  {
    hide Neat, Unclosed, KindAt, BareColon, Atoms, Index;
    var none := Part("", [], []);
    TidyAtoms(t, none, false, i);
    var a := Atoms(t, none, false, i, true);
    if a.Parsed? {
      if a.at > i { StaysWithin(t, i, a.at); }
      TidyIndex(t, a.at);
      Behind(t, i, a.at, Index(t, a.at, true));
    }
  }

  lemma {:induction false} TidyAtoms(t: seq<Token>, part: Part, dynamic: bool, i: nat)
    ensures Tidy(t, i, Atoms(t, part, dynamic, i, true))
    decreases |t| - i, 6
  {
    hide Neat, Unclosed, MessageCodeAt;
    Nothing(t, i);
    var k, text := KindAt(t, i), TextAt(t, i);
    if k.MessageCode? {
      Passed(t, i, i);
      TidyMessageCode(t, i);
      var a := MessageCodeAt(t, i, true);
      if a.Parsed? {
        var next := part.(atoms := part.atoms + [a.tree]);
        TidyAtoms(t, next, true, a.at);
        Behind(t, i, a.at, Atoms(t, next, true, a.at, true));
      }
    } else if (k.Identifier? && text != ":") || k.Literal? {
      Token1(t, i);
      var next := if k.Identifier? && text == "" then part
                  else part.(name := part.name + text, atoms := part.atoms + [Str(text)]);
      TidyAtoms(t, next, dynamic, i + 1);
      Behind(t, i, i + 1, Atoms(t, next, dynamic, i + 1, true));
    }
  }

  lemma {:induction false} TidyIndex(t: seq<Token>, i: nat)
    ensures Tidy(t, i, Index(t, i, true))
    decreases |t| - i, 4
  {
    hide Neat, Unclosed, KindAt, BareColon, Parse, Index;
    var a, b := IndexForm(t, i);
    Nothing(t, i);
    if !KindAt(t, i).BracketLeft? { return; }
    Passed(t, i, i);
    TidyParse(0, t, i + 1);
    Behind(t, i, i + 1, a);
    if !a.Parsed? { return; }
    if KindAt(t, a.at).BracketRight? { Passed(t, i, a.at); return; }
    if !KindAt(t, a.at).Comma? { return; }
    Passed(t, i, a.at);
    TidyParse(0, t, a.at + 1);
    Behind(t, i, a.at + 1, b);
    if b.Parsed? && KindAt(t, b.at).BracketRight? { Passed(t, i, b.at); }
  }
}

/** What error recovery in the GS1 parser keeps: where it stops, that it reads the whole
    input, and when it does not end. */
module Gs1Recovery {
  import opened Gs1Syntax
  import opened Gs1Grammar
  import opened Gs1Statements

  // -------------------------------------------------------- synchronisation

  /** Braces opened less braces closed in `[i, j)`. */
  function Depth(t: seq<Token>, i: nat, j: nat): int
    decreases j
  {
    if j <= i then 0
    else Depth(t, i, j - 1)
           + (if KindAt(t, j - 1).BraceLeft? then 1 else if KindAt(t, j - 1).BraceRight? then -1 else 0)
  }

  /** No brace in `[i, j)` closes one opened before `i`. */
  predicate Nested(t: seq<Token>, i: nat, j: nat) {
    forall m :: i <= m <= j ==> Depth(t, i, m) >= 0
  }

  /** The places a panic that began at `i` may stop: the end of file, before a brace that
      closes nothing opened since, just after a `;` outside any block, or just after a
      brace that closes a block. */
  predicate StopsAt(t: seq<Token>, i: nat, j: nat) {
    KindAt(t, j).Eof?
    || (Depth(t, i, j) == 0 &&
        (KindAt(t, j).BraceRight? || (j > i && (KindAt(t, j - 1).End? || KindAt(t, j - 1).BraceRight?))))
  }

  /** Synchronisation stops at the first such place, and short of the end of file what it
      consumed is brace-balanced. */
  lemma SynchronizeStops(t: seq<Token>, i: nat)
    ensures var at := Sync(t, i, 0);
            && i <= at && StopsAt(t, i, at) && (forall m :: i <= m < at ==> !StopsAt(t, i, m))
            && Nested(t, i, at) && (!KindAt(t, at).Eof? ==> Depth(t, i, at) == 0)
  {
    SyncFrom(t, i, i, 0);
  }

  lemma {:induction false} SyncFrom(t: seq<Token>, start: nat, i: nat, depth: nat)
    requires start <= i && depth == Depth(t, start, i) && Nested(t, start, i)
    requires forall m :: start <= m < i ==> !StopsAt(t, start, m)
    requires i == start || depth > 0 || (!KindAt(t, i - 1).End? && !KindAt(t, i - 1).BraceRight?)
    ensures var at := Sync(t, i, depth);
            && i <= at && StopsAt(t, start, at) && (forall m :: start <= m < at ==> !StopsAt(t, start, m))
            && Nested(t, start, at) && (!KindAt(t, at).Eof? ==> Depth(t, start, at) == 0)
    decreases |t| - i
  {
    var k := KindAt(t, i);
    if k.Eof? {
    } else if k.BraceLeft? {
      SyncFrom(t, start, i + 1, depth + 1);
    } else if k.BraceRight? {
      if depth > 1 { SyncFrom(t, start, i + 1, depth - 1); }
    } else if !(k.End? && depth == 0) {
      SyncFrom(t, start, i + 1, depth);
    }
  }

  /** Throwing a switch body away stops at the end of file or just after the brace that
      closes the body, the first that closes more than was opened. */
  lemma DiscardStops(t: seq<Token>, i: nat)
    ensures var at := Discard(t, i, 1);
            && (forall m :: i <= m < at ==> Depth(t, i, m) >= 0)
            && (if at > i && Depth(t, i, at) == -1 then KindAt(t, at - 1).BraceRight?
                else KindAt(t, at).Eof? && Depth(t, i, at) >= 0)
  {
    DiscardFrom(t, i, i, 1);
  }

  lemma {:induction false} DiscardFrom(t: seq<Token>, start: nat, i: nat, depth: nat)
    requires start <= i && depth == Depth(t, start, i) + 1
    requires forall m :: start <= m < i ==> Depth(t, start, m) >= 0
    requires depth == 0 ==> i > start && KindAt(t, i - 1).BraceRight?
    ensures var at := Discard(t, i, depth);
            && i <= at && (forall m :: start <= m < at ==> Depth(t, start, m) >= 0)
            && (if at > start && Depth(t, start, at) == -1 then KindAt(t, at - 1).BraceRight?
                else KindAt(t, at).Eof? && Depth(t, start, at) >= 0)
    decreases |t| - i
  {
    var k := KindAt(t, i);
    if depth > 0 && !k.Eof? {
      DiscardFrom(t, start, i + 1,
        if k.BraceLeft? then depth + 1 else if k.BraceRight? then depth - 1 else depth);
    }
  }

  // -------------------------------------------------------- the whole input

  /** What the lexer hands over: the end of file once, last. */
  predicate Ended(t: seq<Token>) {
    t != [] && forall k :: 0 <= k < |t| ==> (t[k].kind.Eof? <==> k == |t| - 1)
  }

  lemma StaysInside(t: seq<Token>, i: nat, at: nat)
    requires Ended(t) && i < |t| && Moved(t, i, at)
    ensures at < |t|
  {
  }

  lemma {:induction false} ProgramRuns(t: seq<Token>, body: seq<Stmt>, i: nat)
    ensures var r := Program(t, body, i, true);
            r.out.Hung? || (r.out.Parsed? && KindAt(t, r.out.at).Eof?)
    decreases |t| - i
  {
    hide Round;
    var k := KindAt(t, i);
    if k.Eof? {
    } else if k.End? || k.BraceRight? {
      ProgramRuns(t, body, i + 1);
    } else {
      var s := Round(t, i, true);
      if s.out.Parsed? { ProgramRuns(t, body + s.out.tree, s.out.at); }
    }
  }

  /** In recovery mode a program is never refused: unless the parser hangs, it reads every
      token, and the errors it records lie inside the text, in order. */
  lemma RecoveryReadsEverything(t: seq<Token>)
    requires Ended(t)
    ensures var r := Program(t, [], 0, true);
            && !r.out.Failed?
            && (r.out.Parsed? ==> r.out.at == |t| - 1)
            && (forall k :: 0 <= k < |r.errs| ==> r.errs[k] < |t|)
            && (forall j, k :: 0 <= j < k < |r.errs| ==> r.errs[j] <= r.errs[k])
  {
    hide Program;
    ProgramRuns(t, [], 0);
    StaysInside(t, 0, Program(t, [], 0, true).out.at);
  }

  // -------------------------------------------------------- when it hangs

  /** An expression is read without consuming a token exactly at a case label's colon. */
  lemma {:induction false} ConsumesNothingIff(level: nat, t: seq<Token>, i: nat, inLabel: bool)
    requires level <= 13
    ensures var r := Parse(level, t, i, inLabel);
            (r.Parsed? && r.at == i) <==> LabelColon(t, i, inLabel)
    decreases 14 - level
  {
    if LabelColon(t, i, inLabel) { NothingAtColon(level, t, i); }
  }

  lemma {:induction false} NothingAtColon(level: nat, t: seq<Token>, i: nat)
    requires level <= 13 && LabelColon(t, i, true)
    ensures Parse(level, t, i, true) == Parsed(VarRef([Part("", [], [])]), i)
    decreases 14 - level
  {
    var none := [Part("", [], [])];
    if level == 13 {
      assert Atoms(t, none[0], false, i, true) == Parsed(none[0], i);
      assert PathPart(t, i, true) == Parsed(none[0], i);
      assert Path(t, i, true) == Parsed(none, i);
      assert Called(t, none, i, true) == Parsed(VarRef(none), i);
    } else {
      hide Parse;
      NothingAtColon(level + 1, t, i);
      RuleOf(level, t, i, true);
      assert level == 9 ==> Values(t, [VarRef(none)], i, true) == Parsed([VarRef(none)], i);
    }
  }

  /** The loop over an array literal never ends once, in a case label, an element would
      start at the colon. */
  lemma ArrayHangsAtColon(t: seq<Token>, elements: seq<Node>, i: nat)
    requires LabelColon(t, i, true)
    ensures Elements(t, elements, i, true) == Hung(i)
  {
    NothingAtColon(0, t, i);
  }
}

/** The string-list dialect (reborn_protocol/gs1/csv.py): fields joined by commas, a field
    that holds a quote, a backslash or a comma being quoted and escaped. */
module Csv {

  // ------------------------------------------------------------- encoding

  predicate Special(c: char) { c == '"' || c == '\\' || c == ',' }

  predicate NeedsQuotes(v: string) { exists k :: 0 <= k < |v| && Special(v[k]) }

  /** Every `c` of the text written twice. */
  function Doubled(v: string, c: char): string {
    if v == "" then ""
    else (if v[0] == c then [c, c] else [v[0]]) + Doubled(v[1..], c)
  }

  /** One field as it is written. */
  function Field(v: string, force: bool): string {
    if force || NeedsQuotes(v) then "\"" + Doubled(Doubled(v, '\\'), '"') + "\"" else v
  }

  function Comma(fields: seq<string>): string {
    if |fields| == 0 then ""
    else if |fields| == 1 then fields[0]
    else fields[0] + "," + Comma(fields[1..])
  }

  function Fields(vs: seq<string>, force: bool): seq<string> {
    seq(|vs|, k requires 0 <= k < |vs| => Field(vs[k], force))
  }

  function Joined(vs: seq<string>, force: bool): string { Comma(Fields(vs, force)) }

  /** gs1_csv_join */
  method Join(vs: seq<string>, force: bool) returns (text: string)
    ensures text == Joined(vs, force)
  {
    var fields: seq<string> := [];
    for k := 0 to |vs|
      invariant fields == Fields(vs[..k], force)
    {
      fields := fields + [Field(vs[k], force)];
    }
    assert vs[..|vs|] == vs;
    text := Comma(fields);
  }

  // ------------------------------------------------------------- decoding

  /** Where the scanner stands: before a word, inside a bare word, inside quotes. */
  datatype Place = Start | Bare | Quoted

  predicate Blank(c: char) { c == ' ' || c == '\t' }

  /** `str.find`: the first occurrence at or after `from`, or -1. */
  function Find(s: string, c: char, from: nat): (k: int)
    requires from <= |s|
    ensures k == -1 || (from <= k < |s| && s[k] == c)
    ensures forall j :: from <= j < (if k == -1 then |s| else k) ==> s[j] != c
    decreases |s| - from
  {
    if from == |s| then -1 else if s[from] == c then from else Find(s, c, from + 1)
  }

  function Last(token: string): seq<string> { if token == "" then [] else [token] }

  /** The fields still to come from the text that is left. */
  function Scan(text: string, token: string, place: Place, skip: bool): seq<string>
    decreases |text|
  {
    if text == "" then Last(token)
    else
      var c := text[0];
      if skip && place.Start? && Blank(c) then Scan(text[1..], token, place, skip)
      else if place.Start? && c == '"' then Scan(text[1..], token, Quoted, skip)
      else if place.Quoted? then
        if (c == '\\' || c == '"') && |text| > 1 && text[1] == c then
          Scan(text[2..], token + [c], Quoted, skip)
        else if c == '"' then [token] + PastComma(text[1..], skip)
        else Scan(text[1..], token + [c], Quoted, skip)
      else if c == ',' then [token] + Scan(text[1..], "", Start, skip)
      else Scan(text[1..], token + [c], Bare, skip)
  }

  /** After a closing quote everything up to the next comma is ignored. */
  function PastComma(text: string, skip: bool): seq<string>
    decreases |text|
  {
    var k := Find(text, ',', 0);
    if k == -1 then [] else Scan(text[k + 1..], "", Start, skip)
  }

  function Items(text: string, skip: bool): seq<string> { Scan(text, "", Start, skip) }

  function From(text: string, i: nat, token: string, place: Place, skip: bool): seq<string>
    requires i <= |text|
  {
    Scan(text[i..], token, place, skip)
  }

  /** One round of the scanner, in terms of the position in the whole text. */
  lemma Round(text: string, i: nat, token: string, place: Place, skip: bool)
    requires i < |text|
    ensures var c := text[i];
            From(text, i, token, place, skip) ==
              if skip && place.Start? && Blank(c) then From(text, i + 1, token, place, skip)
              else if place.Start? && c == '"' then From(text, i + 1, token, Quoted, skip)
              else if place.Quoted? then
                if i + 1 < |text| && text[i + 1] == c && (c == '\\' || c == '"') then
                  From(text, i + 2, token + [c], Quoted, skip)
                else if c == '"' then
                  var k := Find(text, ',', i + 1);
                  [token] + (if k < 0 then [] else From(text, k + 1, "", Start, skip))
                else From(text, i + 1, token + [c], Quoted, skip)
              else if c == ',' then [token] + From(text, i + 1, "", Start, skip)
              else From(text, i + 1, token + [c], Bare, skip)
  {
    var rest, c := text[i..], text[i];
    assert rest[1..] == text[i + 1..];
    if place.Quoted? {
      if i + 1 < |text| && text[i + 1] == c && (c == '\\' || c == '"') {
        assert rest[2..] == text[i + 2..];
      } else if c == '"' {
        PastCommaAt(text, i + 1, skip);
      }
    }
  }

  lemma PastCommaAt(text: string, i: nat, skip: bool)
    requires i <= |text|
    ensures var k := Find(text, ',', i);
            PastComma(text[i..], skip) == if k < 0 then [] else From(text, k + 1, "", Start, skip)
  {
    hide Scan;
    FindShifts(text, i, ',');
    var k := Find(text, ',', i);
    if k >= 0 { assert text[i..][k - i + 1..] == text[k + 1..]; }
  }

  /** gs1_csv_split */
  method Split(text: string, skip: bool) returns (tokens: seq<string>)
    ensures tokens == Items(text, skip)
  {
    hide Scan;
    tokens := [];
    var token, place, i := "", Start, 0;
    assert text[0..] == text;
    while i < |text|
      invariant 0 <= i <= |text|
      invariant Items(text, skip) == tokens + From(text, i, token, place, skip)
      decreases |text| - i
    {
      var c := text[i];
      Round(text, i, token, place, skip);
      if skip && place.Start? && Blank(c) {
        i := i + 1;
      } else if place.Start? && c == '"' {
        place := Quoted;
        i := i + 1;
      } else if place.Quoted? {
        if i + 1 < |text| && c == text[i + 1] && (c == '\\' || c == '"') {
          token := token + [c];
          i := i + 2;
        } else if c == '"' {
          tokens := tokens + [token];
          token, place := "", Start;
          var k := Find(text, ',', i + 1);
          if k < 0 {
            return;
          }
          i := k + 1;
        } else {
          token := token + [c];
          i := i + 1;
        }
      } else if c == ',' {
        tokens := tokens + [token];
        token, place := "", Start;
        i := i + 1;
      } else {
        token := token + [c];
        place := Bare;
        i := i + 1;
      }
    }
    AtTheEnd(text, token, place, skip);
    if token != "" {
      tokens := tokens + [token];
    }
  }

  lemma AtTheEnd(text: string, token: string, place: Place, skip: bool)
    ensures From(text, |text|, token, place, skip) == Last(token)
  {
  }

  lemma FindShifts(s: string, from: nat, c: char)
    requires from <= |s|
    ensures var k, j := Find(s, c, from), Find(s[from..], c, 0);
            j == (if k == -1 then -1 else k - from)
  {
    var k, j := Find(s, c, from), Find(s[from..], c, 0);
    if k != -1 { assert s[from..][k - from] == c; }
    if j != -1 { assert s[from + j] == c; }
  }

  // -------------------------------------------------------------- the law

  function Escaped(v: string): string {
    if v == "" then ""
    else (if v[0] == '\\' || v[0] == '"' then [v[0], v[0]] else [v[0]]) + Escaped(v[1..])
  }

  lemma {:induction false} DoublingEscapes(v: string)
    ensures Doubled(Doubled(v, '\\'), '"') == Escaped(v)
  {
    if v != "" {
      DoublingEscapes(v[1..]);
      var head, tail := if v[0] == '\\' then ['\\', '\\'] else [v[0]], Doubled(v[1..], '\\');
      DoubledSplits(head, tail);
      assert Doubled(['\\', '\\'], '"') == ['\\', '\\'] by {
        assert ['\\', '\\'][1..] == ['\\'];
        assert Doubled(['\\'], '"') == ['\\'];
      }
    }
  }

  lemma {:induction false} DoubledSplits(a: string, b: string)
    ensures Doubled(a + b, '"') == Doubled(a, '"') + Doubled(b, '"')
  {
    if a == "" {
      assert a + b == b;
    } else {
      assert (a + b)[1..] == a[1..] + b;
      DoubledSplits(a[1..], b);
    }
  }

  /** What follows a field: nothing, or the comma before the next one. */
  predicate Ends(tail: string) { tail == "" || tail[0] == ',' }

  function Next(tail: string, skip: bool): seq<string>
    requires Ends(tail)
  {
    if tail == "" then [] else Items(tail[1..], skip)
  }

  lemma NextIsPastComma(tail: string, skip: bool)
    requires Ends(tail)
    ensures PastComma(tail, skip) == Next(tail, skip)
  {
  }

  lemma {:induction false} QuotedComesBack(v: string, token: string, tail: string, skip: bool)
    requires Ends(tail)
    ensures Scan(Escaped(v) + "\"" + tail, token, Quoted, skip) == [token + v] + Next(tail, skip)
    decreases |v|
  {
    var text := Escaped(v) + "\"" + tail;
    if v == "" {
      assert text[1..] == tail && token + v == token;
      NextIsPastComma(tail, skip);
    } else {
      var n := if v[0] == '\\' || v[0] == '"' then 2 else 1;
      assert text[n..] == Escaped(v[1..]) + "\"" + tail;
      QuotedComesBack(v[1..], token + [v[0]], tail, skip);
      assert token + [v[0]] + v[1..] == token + v;
    }
  }

  predicate Plain(v: string) { forall k :: 0 <= k < |v| ==> !Special(v[k]) }

  lemma {:induction false} BareComesBack(v: string, token: string, tail: string, skip: bool)
    requires Ends(tail) && Plain(v)
    ensures Scan(v + tail, token, Bare, skip) ==
              if tail == "" then Last(token + v) else [token + v] + Next(tail, skip)
    decreases |v|
  {
    if v == "" {
      assert v + tail == tail && token + v == token;
    } else {
      assert (v + tail)[1..] == v[1..] + tail && (v + tail)[0] == v[0];
      BareComesBack(v[1..], token + [v[0]], tail, skip);
      assert token + [v[0]] + v[1..] == token + v;
    }
  }

  function Stripped(v: string): string { if v != "" && Blank(v[0]) then Stripped(v[1..]) else v }

  /** How a field reads back when more follows: leading blanks of a bare one are lost to
      a reader that skips them. */
  function Kept(v: string, force: bool, skip: bool): string {
    if force || NeedsQuotes(v) || !skip then v else Stripped(v)
  }

  lemma {:induction false} PlainAtStart(v: string, tail: string, skip: bool)
    requires Ends(tail) && Plain(v)
    ensures var kept := if skip then Stripped(v) else v;
            Items(v + tail, skip) ==
              if tail == "" then Last(kept) else [kept] + Next(tail, skip)
    decreases |v|
  {
    if v == "" {
      assert v + tail == tail;
    } else {
      assert (v + tail)[1..] == v[1..] + tail && (v + tail)[0] == v[0];
      if skip && Blank(v[0]) {
        PlainAtStart(v[1..], tail, skip);
      } else {
        BareComesBack(v[1..], [v[0]], tail, skip);
        assert "" + [v[0]] == [v[0]];
        assert [v[0]] + v[1..] == v;
      }
    }
  }

  lemma FieldComesBack(v: string, force: bool, tail: string, skip: bool)
    requires Ends(tail)
    ensures var kept := Kept(v, force, skip);
            Items(Field(v, force) + tail, skip) ==
              (if tail == "" && !force then Last(kept) else [kept]) + Next(tail, skip)
  {
    if force || NeedsQuotes(v) {
      DoublingEscapes(v);
      var text := Field(v, force) + tail;
      assert text[1..] == Escaped(v) + "\"" + tail;
      QuotedComesBack(v, "", tail, skip);
      assert "" + v == v;
    } else {
      PlainAtStart(v, tail, skip);
    }
  }

  /** What a list reads back as: field by field, less a final empty bare field. */
  function Survives(vs: seq<string>, force: bool, skip: bool): seq<string> {
    if vs == [] then []
    else if |vs| == 1 && !force then Last(Kept(vs[0], force, skip))
    else [Kept(vs[0], force, skip)] + Survives(vs[1..], force, skip)
  }

  /** The exact law, for any strings. */
  lemma {:induction false} SplitOfJoin(vs: seq<string>, force: bool, skip: bool)
    ensures Items(Joined(vs, force), skip) == Survives(vs, force, skip)
    decreases |vs|
  {
    if |vs| == 1 {
      FieldComesBack(vs[0], force, "", skip);
      assert Field(vs[0], force) + "" == Field(vs[0], force) == Joined(vs, force);
      assert vs[1..] == [];
    } else if |vs| > 1 {
      var rest := Joined(vs[1..], force);
      assert Fields(vs, force)[1..] == Fields(vs[1..], force);
      assert Joined(vs, force) == Field(vs[0], force) + ("," + rest);
      assert ("," + rest)[1..] == rest;
      FieldComesBack(vs[0], force, "," + rest, skip);
      SplitOfJoin(vs[1..], force, skip);
    }
  }

  /** A final empty string, if there is one, is dropped. */
  function Trimmed(vs: seq<string>): seq<string> {
    if vs != [] && vs[|vs| - 1] == "" then vs[..|vs| - 1] else vs
  }

  lemma {:induction false} SurvivesIsTrimmed(vs: seq<string>)
    ensures Survives(vs, false, false) == Trimmed(vs)
    decreases |vs|
  {
    if |vs| == 1 {
      assert vs == [vs[0]];
    } else if |vs| > 1 {
      var rest := vs[1..];
      SurvivesIsTrimmed(rest);
      assert Survives(vs, false, false) == [vs[0]] + Trimmed(rest);
      assert rest[|rest| - 1] == vs[|vs| - 1];
      assert [vs[0]] + rest == vs && [vs[0]] + rest[..|rest| - 1] == vs[..|vs| - 1];
    }
  }

  lemma {:induction false} SurvivesForced(vs: seq<string>, skip: bool)
    ensures Survives(vs, true, skip) == vs
    decreases |vs|
  {
    if vs != [] {
      SurvivesForced(vs[1..], skip);
      assert vs == [vs[0]] + vs[1..];
    }
  }

  /** Splitting what was joined gives the list back less one final empty string; forced
      quotes give it back exactly, whichever way it is read. */
  lemma JoinReadsBack(vs: seq<string>, skip: bool)
    ensures Items(Joined(vs, false), false) == Trimmed(vs)
    ensures Items(Joined(vs, true), skip) == vs
  {
    SplitOfJoin(vs, false, false);
    SplitOfJoin(vs, true, skip);
    SurvivesIsTrimmed(vs);
    SurvivesForced(vs, skip);
  }

  /** When a plain join loses nothing. */
  lemma JoinIsLosslessIff(vs: seq<string>)
    ensures Items(Joined(vs, false), false) == vs <==> vs == [] || vs[|vs| - 1] != ""
  {
    JoinReadsBack(vs, false);
  }

  /** Commas stand between the fields and nowhere else. */
  lemma {:induction false} JoinOfBoth(a: seq<string>, b: seq<string>, force: bool)
    requires a != [] && b != []
    ensures Joined(a + b, force) == Joined(a, force) + "," + Joined(b, force)
    decreases |a|
  {
    var fields := Fields(a + b, force);
    assert fields[1..] == Fields((a + b)[1..], force);
    if |a| == 1 {
      assert (a + b)[1..] == b;
    } else {
      assert (a + b)[1..] == a[1..] + b && Fields(a, force)[1..] == Fields(a[1..], force);
      JoinOfBoth(a[1..], b, force);
    }
  }

  /** Spaces and tabs before a bare field are skipped only by a reader that is told to. */
  lemma {:induction false} LeadingBlanks(blanks: string, v: string)
    requires forall k :: 0 <= k < |blanks| ==> blanks[k] in {' ', '\t'}
    requires v != "" && v[0] !in {' ', '\t'} && Plain(v)
    ensures Items(blanks + v, true) == [v] && Items(blanks + v, false) == [blanks + v]
  {
    StrippedOff(blanks, v);
    assert Plain(blanks + v);
    PlainAtStart(blanks + v, "", true);
    PlainAtStart(blanks + v, "", false);
    assert blanks + v + "" == blanks + v;
  }

  lemma {:induction false} StrippedOff(blanks: string, v: string)
    requires forall k :: 0 <= k < |blanks| ==> blanks[k] in {' ', '\t'}
    requires v != "" && v[0] !in {' ', '\t'}
    ensures Stripped(blanks + v) == v
    decreases |blanks|
  {
    if blanks == "" {
      assert blanks + v == v;
    } else {
      assert (blanks + v)[1..] == blanks[1..] + v;
      StrippedOff(blanks[1..], v);
    }
  }
}

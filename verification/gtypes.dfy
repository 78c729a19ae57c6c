/** PacketBuilder and PacketReader (reborn_protocol/codec.py). */
module GTypes {
  import opened Bytes
  import opened Numerals

  const MAX_GINT5: int := 0xFFFFFFFF

  /** `encode('latin-1', errors='replace')` */
  function Encode(text: string): (r: bytes)
    ensures |r| == |text|
  {
    seq(|text|, i requires 0 <= i < |text| =>
      if text[i] as int < 256 then text[i] as int else '?' as int)
  }

  lemma EncodeOfCut(text: string, n: nat)
    ensures Encode(text)[..Min(|text|, n)] == Encode(text[..Min(|text|, n)])
  {
  }

  /** What is left of a 32-bit value at each lane is below the next 256 of them. */
  lemma SmallParts(t: int)
    ensures 0 <= t <= 0xFFFFFFFF ==> (t / 268435456) % 256 == t / 268435456 <= 15
    ensures 0 <= t < 268435456 ==> (t / 2097152) % 256 == t / 2097152 < 128
    ensures 0 <= t < 2097152 ==> (t / 16384) % 256 == t / 16384 < 128
    ensures 0 <= t < 16384 ==> (t / 128) % 256 == t / 128 < 128
  {
  }

  /** `decode('latin-1')` */
  function Decode(data: bytes): (r: string)
    ensures |r| == |data|
  {
    seq(|data|, i requires 0 <= i < |data| => (data[i] as int) as char)
  }

  function Clamp(value: int, top: int): int { Max(0, Min(value, top)) }

  /** `t` split by a lane of weight `w`: the lane and what is left. */
  predicate Splits(t: int, w: int, lane: int, rest: int)
    requires w > 0
  {
    lane == Min(t / w, 223) && rest == t - lane * w
  }

  lemma LanesTwo(t: nat, b0: nat, b1: nat)
    requires t <= Top(2) && Splits(t, 128, b0, b1)
    ensures Lanes(t, 2) == [b0, b1]
  {
    Tops();
    assert Lane(t, 1) == b0 && Remaining(t, 1) == b1;
    assert Lanes(t, 2) == [b0] + Lanes(b1, 1);
  }

  lemma LanesThree(t: nat, b0: nat, rest: nat)
    requires Splits(t, 16384, b0, rest)
    ensures Lanes(t, 3) == [b0] + Lanes(rest, 2)
  {
    Tops();
    assert Lane(t, 2) == b0 && Remaining(t, 2) == rest;
  }

  lemma LanesFour(t: nat, b0: nat, rest: nat)
    requires Splits(t, 2097152, b0, rest)
    ensures Lanes(t, 4) == [b0] + Lanes(rest, 3)
  {
    Tops();
    assert Lane(t, 3) == b0 && Remaining(t, 3) == rest;
  }

  lemma LanesFive(t: nat, b0: nat, rest: nat)
    requires Splits(t, 268435456, b0, rest)
    ensures Lanes(t, 5) == [b0] + Lanes(rest, 4)
  {
    Tops();
    assert Lane(t, 4) == b0 && Remaining(t, 4) == rest;
  }

  /** The bytes of a value, from the lanes of what it is cut to. */
  lemma OfLanes(value: int, width: nat, lanes: seq<nat>)
    requires width >= 1 && lanes == Lanes(Min(Max(0, value), Top(width)), width)
    ensures GBytes(value, width) == Offset(lanes)
  {
    LanesSaturate(Max(0, value), width);
  }

  class PacketBuilder {
    var data: bytes

    constructor ()
      ensures data == []
    {
      data := [];
    }

    method Append(b: int)
      modifies this
      ensures data == old(data) + [b % 256]
    {
      data := data + [b % 256];
    }

    /** `for b in (...): self._data.append((b + 32) & 0xFF)` */
    method AppendLanes(lanes: seq<nat>)
      requires forall i :: 0 <= i < |lanes| ==> lanes[i] <= 223
      modifies this
      ensures data == old(data) + Offset(lanes)
    {
      for k := 0 to |lanes|
        invariant data == old(data) + Offset(lanes)[..k]
      {
        Append(lanes[k] + 32);
        assert Offset(lanes)[..k + 1] == Offset(lanes)[..k] + [lanes[k] + 32];
      }
    }

    method WriteGChar(value: int)
      modifies this
      ensures data == old(data) + GBytes(value, 1)
    {
      var v := Max(0, Min(value, 223));
      Append(v + 32);
    }

    method WriteGShort(value: int)
      modifies this
      ensures data == old(data) + GBytes(value, 2)
    {
      hide Lanes, Lane, Remaining, Weight, Quotient, Top;
      Tops();
      var t := Max(0, Min(value, 28767));
      ghost var t0 := t;
      var b0 := t / 128;
      if b0 > 223 {
        b0 := 223;
      }
      t := t - b0 * 128;
      var b1 := t;
      LanesTwo(t0, b0, b1);
      OfLanes(value, 2, [b0, b1]);
      AppendLanes([b0, b1]);
    }

    method WriteGInt3(value: int)
      modifies this
      ensures data == old(data) + GBytes(value, 3)
    {
      hide Lanes, Lane, Remaining, Weight, Quotient, Top;
      Tops();
      var t := Max(0, Min(value, 3682399));
      ghost var t0 := t;
      var b0 := t / 16384;
      if b0 > 223 {
        b0 := 223;
      }
      t := t - b0 * 16384;
      ghost var t1 := t;
      var b1 := t / 128;
      if b1 > 223 {
        b1 := 223;
      }
      t := t - b1 * 128;
      var b2 := t;
      LanesThree(t0, b0, t1);
      LanesTwo(t1, b1, b2);
      OfLanes(value, 3, [b0, b1, b2]);
      AppendLanes([b0, b1, b2]);
    }

    method WriteGInt4(value: int)
      modifies this
      ensures data == old(data) + GBytes(value, 4)
    {
      hide Lanes, Lane, Remaining, Weight, Quotient, Top;
      Tops();
      var t := Max(0, Min(value, 471347295));
      ghost var t0 := t;
      var b0 := t / 2097152;
      if b0 > 223 {
        b0 := 223;
      }
      t := t - b0 * 2097152;
      ghost var t1 := t;
      var b1 := t / 16384;
      if b1 > 223 {
        b1 := 223;
      }
      t := t - b1 * 16384;
      ghost var t2 := t;
      var b2 := t / 128;
      if b2 > 223 {
        b2 := 223;
      }
      t := t - b2 * 128;
      var b3 := t;
      LanesFour(t0, b0, t1);
      LanesThree(t1, b1, t2);
      LanesTwo(t2, b2, b3);
      OfLanes(value, 4, [b0, b1, b2, b3]);
      AppendLanes([b0, b1, b2, b3]);
    }

    /** Five lanes of a 32-bit value: nothing saturates below the cap. */
    method WriteGInt5(value: int)
      modifies this
      ensures data == old(data) + GBytes(Min(value, MAX_GINT5), 5)
    {
      hide Lanes, Lane, Remaining, Weight, Quotient, Top;
      TopFive();
      Tops();
      var t := Max(0, Min(value, MAX_GINT5));
      ghost var t0 := t;
      SmallParts(t);
      var b0 := (t / 268435456) % 256;
      if b0 > 15 {
        b0 := 15;
      }
      t := t - b0 * 268435456;
      ghost var t1 := t;
      SmallParts(t);
      var b1 := (t / 2097152) % 256;
      if b1 > 223 {
        b1 := 223;
      }
      t := t - b1 * 2097152;
      ghost var t2 := t;
      SmallParts(t);
      var b2 := (t / 16384) % 256;
      if b2 > 223 {
        b2 := 223;
      }
      t := t - b2 * 16384;
      ghost var t3 := t;
      SmallParts(t);
      var b3 := (t / 128) % 256;
      if b3 > 223 {
        b3 := 223;
      }
      t := t - b3 * 128;
      var b4 := t;
      LanesFive(t0, b0, t1);
      LanesFour(t1, b1, t2);
      LanesThree(t2, b2, t3);
      LanesTwo(t3, b3, b4);
      OfLanes(Min(value, MAX_GINT5), 5, [b0, b1, b2, b3, b4]);
      AppendLanes([b0, b1, b2, b3, b4]);
    }

    method WriteGString(text: string)
      modifies this
      ensures data == old(data) + Written(GString(text))
    {
      var encoded := Encode(text);
      EncodeOfCut(text, 223);
      encoded := encoded[..Min(|encoded|, 223)];
      WriteGChar(|encoded|);
      data := data + encoded;
    }

    method WriteGStringShort(text: string)
      modifies this
      ensures data == old(data) + Written(GStringShort(text))
    {
      var encoded := Encode(text);
      EncodeOfCut(text, 28767);
      encoded := encoded[..Min(|encoded|, 28767)];
      WriteGShort(|encoded|);
      data := data + encoded;
    }
  }

  /** A number of 1 to 4 lanes at `pos`; a short buffer is used up and reads as 0. */
  function ReadNumber(data: bytes, pos: nat, width: nat): (r: (int, nat))
    requires pos <= |data| && width >= 1
    ensures pos <= r.1 <= |data|
  {
    if pos + width > |data| then (0, |data|)
    else
      (if width == 5 then Fold(data[pos..pos + width]) % 0x1_0000_0000
       else Max(0, Fold(data[pos..pos + width])), pos + width)
  }

  /** A string whose length has just been read. */
  function ReadText(data: bytes, pos: nat, length: nat): (r: (string, nat))
    requires pos <= |data|
    ensures pos <= r.1 <= |data|
  {
    var end := Min(pos + length, |data|);
    (Decode(data[pos..end]), end)
  }

  class PacketReader {
    const data: bytes
    var pos: nat

    constructor (data: bytes)
      ensures this.data == data && pos == 0
    {
      this.data, pos := data, 0;
    }

    predicate Valid()
      reads this
    {
      pos <= |data|
    }

    method ReadByte() returns (value: int)
      requires Valid()
      modifies this
      ensures Valid()
      ensures if old(pos) < |data| then value == data[old(pos)] && pos == old(pos) + 1
              else value == 0 && pos == old(pos)
    {
      if pos >= |data| {
        return 0;
      }
      value := data[pos];
      pos := pos + 1;
    }

    method ReadGChar() returns (value: int)
      requires Valid()
      modifies this
      ensures Valid() && (value, pos) == ReadNumber(data, old(pos), 1)
    {
      ghost var start := pos;
      var b := ReadByte();
      value := Max(0, b - 32);
      if start < |data| {
        var one := data[start..start + 1];
        assert Fold(one) == Scaled(data[start] as int - 32, 0) + Fold(one[1..]);
      }
    }

    method ReadGShort() returns (value: int)
      requires Valid()
      modifies this
      ensures Valid() && (value, pos) == ReadNumber(data, old(pos), 2)
    {
      if pos + 1 >= |data| {
        pos := |data|;
        return 0;
      }
      var b1: int, b2: int := data[pos] as int - 32, data[pos + 1] as int - 32;
      FoldTwo(data[pos..pos + 2]);
      pos := pos + 2;
      value := Max(0, b1 * 128 + b2);
    }

    method ReadGInt3() returns (value: int)
      requires Valid()
      modifies this
      ensures Valid() && (value, pos) == ReadNumber(data, old(pos), 3)
    {
      if pos + 2 >= |data| {
        pos := |data|;
        return 0;
      }
      var b1: int, b2: int, b3: int := data[pos] as int - 32, data[pos + 1] as int - 32, data[pos + 2] as int - 32;
      FoldThree(data[pos..pos + 3]);
      pos := pos + 3;
      value := Max(0, b1 * 16384 + b2 * 128 + b3);
    }

    method ReadGInt4() returns (value: int)
      requires Valid()
      modifies this
      ensures Valid() && (value, pos) == ReadNumber(data, old(pos), 4)
    {
      if pos + 3 >= |data| {
        pos := |data|;
        return 0;
      }
      var b1: int, b2: int := data[pos] as int - 32, data[pos + 1] as int - 32;
      var b3: int, b4: int := data[pos + 2] as int - 32, data[pos + 3] as int - 32;
      FoldFour(data[pos..pos + 4]);
      pos := pos + 4;
      value := Max(0, b1 * 2097152 + b2 * 16384 + b3 * 128 + b4);
    }

    method ReadGInt5() returns (value: int)
      requires Valid()
      modifies this
      ensures Valid() && (value, pos) == ReadNumber(data, old(pos), 5)
    {
      if pos + 4 >= |data| {
        pos := |data|;
        return 0;
      }
      var b0: int, b1: int := data[pos] as int - 32, data[pos + 1] as int - 32;
      var b2: int, b3: int, b4: int := data[pos + 2] as int - 32, data[pos + 3] as int - 32, data[pos + 4] as int - 32;
      FoldFive(data[pos..pos + 5]);
      pos := pos + 5;
      value := (b0 * 268435456 + b1 * 2097152 + b2 * 16384 + b3 * 128 + b4) % 0x1_0000_0000;
    }

    method ReadString(length: int) returns (text: string)
      requires Valid()
      modifies this
      ensures Valid() && (text, pos) == ReadText(data, old(pos), Max(0, length))
    {
      var n := Max(0, length);
      if pos + n > |data| {
        n := |data| - pos;
      }
      text := Decode(data[pos..pos + n]);
      pos := pos + n;
    }

    method ReadGString() returns (text: string)
      requires Valid()
      modifies this
      ensures Valid() && (Text(text), pos) == ReadItem(GString(""), data, old(pos))
    {
      var length := ReadGChar();
      text := ReadString(length);
    }

    method ReadGStringShort() returns (text: string)
      requires Valid()
      modifies this
      ensures Valid() && (Text(text), pos) == ReadItem(GStringShort(""), data, old(pos))
    {
      var length := ReadGShort();
      text := ReadString(length);
    }
  }

  lemma FoldTwo(d: bytes)
    requires |d| == 2
    ensures Fold(d) == (d[0] as int - 32) * 128 + (d[1] as int - 32)
  {
    Tops();
    assert Fold(d[1..]) == Scaled(d[1] as int - 32, 0) + Fold(d[1..][1..]);
  }

  lemma FoldThree(d: bytes)
    requires |d| == 3
    ensures Fold(d) == (d[0] as int - 32) * 16384 + (d[1] as int - 32) * 128 + (d[2] as int - 32)
  {
    Tops();
    FoldTwo(d[1..]);
  }

  lemma FoldFour(d: bytes)
    requires |d| == 4
    ensures Fold(d) == (d[0] as int - 32) * 2097152 + (d[1] as int - 32) * 16384
                       + (d[2] as int - 32) * 128 + (d[3] as int - 32)
  {
    Tops();
    FoldThree(d[1..]);
  }

  lemma FoldFive(d: bytes)
    requires |d| == 5
    ensures Fold(d) == (d[0] as int - 32) * 268435456 + (d[1] as int - 32) * 2097152
                       + (d[2] as int - 32) * 16384 + (d[3] as int - 32) * 128 + (d[4] as int - 32)
  {
    Tops();
    FoldFour(d[1..]);
  }

  // ------------------------------------------------------- sequences of writes

  /** One write; as the shape of a read, the payload does not matter. */
  datatype Item =
    | GChar(n: int) | GShort(n: int) | GInt3(n: int) | GInt4(n: int) | GInt5(n: int)
    | GString(s: string) | GStringShort(s: string)

  datatype Value = Number(n: int) | Text(s: string)

  function Width(item: Item): nat {
    match item
    case GChar(_) => 1
    case GShort(_) => 2
    case GInt3(_) => 3
    case GInt4(_) => 4
    case GInt5(_) => 5
    case GString(_) => 1
    case GStringShort(_) => 2
  }

  function Cut(text: string, width: nat): string
    requires width == 1 || width == 2
  {
    text[..Min(|text|, if width == 1 then 223 else 28767)]
  }

  /** What the builder appends. */
  function Written(item: Item): bytes {
    match item
    case GString(s) => GBytes(|Cut(s, 1)|, 1) + Encode(Cut(s, 1))
    case GStringShort(s) => GBytes(|Cut(s, 2)|, 2) + Encode(Cut(s, 2))
    case GInt5(n) => GBytes(Min(n, MAX_GINT5), 5)
    case _ => GBytes(item.n, Width(item))
  }

  /** What the matching read gives. */
  function ReadItem(item: Item, data: bytes, pos: nat): (r: (Value, nat))
    requires pos <= |data|
    ensures pos <= r.1 <= |data|
  {
    var (n, at) := ReadNumber(data, pos, Width(item));
    if item.GString? || item.GStringShort? then
      var (s, end) := ReadText(data, at, Max(0, n));
      (Text(s), end)
    else (Number(n), at)
  }

  /** The documented maxima. */
  function Documented(item: Item): int {
    match item
    case GChar(_) => 223
    case GShort(_) => 28767
    case GInt3(_) => 3682399
    case GInt4(_) => 471347295
    case _ => 0xFFFFFFFF
  }

  /** The value as it survives: clamped, or cut and in Latin-1. */
  function Canonical(item: Item): Value {
    match item
    case GString(s) => Text(Decode(Encode(Cut(s, 1))))
    case GStringShort(s) => Text(Decode(Encode(Cut(s, 2))))
    case _ => Number(Clamp(item.n, Documented(item)))
  }

  function WrittenAll(items: seq<Item>): bytes {
    if items == [] then [] else Written(items[0]) + WrittenAll(items[1..])
  }

  function ReadAll(items: seq<Item>, data: bytes, pos: nat): (seq<Value>, nat)
    requires pos <= |data|
    decreases |items|
  {
    if items == [] then ([], pos)
    else
      var (v, at) := ReadItem(items[0], data, pos);
      var (rest, end) := ReadAll(items[1..], data, at);
      ([v] + rest, end)
  }

  lemma TopFive()
    ensures Top(5) >= MAX_GINT5
  {
    Tops();
    assert Top(5) == 223 * Weight(4) + Top(4);
  }

  /** One number in the middle of a buffer. */
  lemma NumberRoundTrip(before: bytes, n: int, width: nat, after: bytes)
    requires 1 <= width <= 5 && (width == 5 ==> n <= MAX_GINT5)
    ensures ReadNumber(before + GBytes(n, width) + after, |before|, width) ==
            (Clamp(n, if width == 5 then MAX_GINT5 else Top(width)), |before| + width)
  {
    var data := before + GBytes(n, width) + after;
    assert data[|before|..|before| + width] == GBytes(n, width);
    GBytesFold(n, width);
    TopFive();
  }

  lemma ItemRoundTrip(before: bytes, item: Item, after: bytes)
    ensures ReadItem(item, before + Written(item) + after, |before|) ==
            (Canonical(item), |before| + |Written(item)|)
  {
    hide Lanes, GBytes, ReadNumber;
    Tops();
    var data := before + Written(item) + after;
    match item
    case GString(s) => TextRoundTrip(before, Cut(s, 1), 1, after);
    case GStringShort(s) => TextRoundTrip(before, Cut(s, 2), 2, after);
    case GInt5(n) => NumberRoundTrip(before, Min(n, MAX_GINT5), 5, after);
    case _ => NumberRoundTrip(before, item.n, Width(item), after);
  }

  lemma TextRoundTrip(before: bytes, s: string, width: nat, after: bytes)
    requires 1 <= width <= 2 && |s| <= Top(width)
    ensures var data := before + (GBytes(|s|, width) + Encode(s)) + after;
            ReadNumber(data, |before|, width) == (|s|, |before| + width) &&
            ReadText(data, |before| + width, |s|) == (Decode(Encode(s)), |before| + width + |s|)
  {
    var data := before + (GBytes(|s|, width) + Encode(s)) + after;
    assert data == before + GBytes(|s|, width) + (Encode(s) + after);
    NumberRoundTrip(before, |s|, width, Encode(s) + after);
    assert data[|before| + width..|before| + width + |s|] == Encode(s);
  }

  /** Any sequence of writes of any integers and strings: the matching reads give the
      clamped values and end exactly at the end of the buffer. */
  lemma {:induction false} SequenceRoundTrip(before: bytes, items: seq<Item>)
    ensures var data := before + WrittenAll(items);
            var (values, end) := ReadAll(items, data, |before|);
            end == |data| && |values| == |items| &&
            forall i :: 0 <= i < |items| ==> values[i] == Canonical(items[i])
    decreases |items|
  {
    hide Written, ReadItem, Canonical;
    var data := before + WrittenAll(items);
    if items != [] {
      ItemRoundTrip(before, items[0], WrittenAll(items[1..]));
      var before1 := before + Written(items[0]);
      assert data == before + Written(items[0]) + WrittenAll(items[1..]);
      assert data == before1 + WrittenAll(items[1..]);
      SequenceRoundTrip(before1, items[1..]);
    }
  }

  /** Text all in Latin-1 and short enough survives as it is. */
  lemma LatinTextSurvives(s: string)
    requires |s| <= 223 && forall c :: c in s ==> c as int < 256
    ensures Canonical(GString(s)) == Text(s)
  {
    assert Cut(s, 1) == s;
    forall i | 0 <= i < |s| ensures Decode(Encode(s))[i] == s[i] {
      assert s[i] in s;
    }
  }

  /** What comes back of a text: its first 223 letters, or 28767 of the longer form, each as it
      is when Latin-1 has it and a question mark when not. */
  lemma TextComesBack(s: string)
    ensures var (short, long) := (Canonical(GString(s)), Canonical(GStringShort(s)));
            && short.Text? && |short.s| == (if |s| <= 223 then |s| else 223)
            && long.Text? && |long.s| == (if |s| <= 28767 then |s| else 28767)
            && (forall i :: 0 <= i < |short.s| ==> short.s[i] == if s[i] as int < 256 then s[i] else '?')
            && (forall i :: 0 <= i < |long.s| ==> long.s[i] == if s[i] as int < 256 then s[i] else '?')
  {
    assert Cut(s, 1) == s[..if |s| <= 223 then |s| else 223];
    assert Cut(s, 2) == s[..if |s| <= 28767 then |s| else 28767];
  }

  /** The generic five-lane writer of props.py and `write_gint5` emit the same bytes
      exactly up to 0xFFFFFFFF. */
  lemma FiveLanesAgreeIff(value: int)
    ensures GBytes(value, 5) == Written(GInt5(value)) <==> value <= MAX_GINT5
  {
    if value > MAX_GINT5 {
      GBytesFold(value, 5);
      GBytesFold(MAX_GINT5, 5);
      TopFive();
      Tops();
      assert Top(5) == 223 * Weight(4) + Top(4);
    }
  }
}

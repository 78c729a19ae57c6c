/** G-type values (PacketBuilder and PacketReader in reborn_protocol/codec.py, `_gbyte` and
    `_read_gbyte` in props.py): numbers in 7-bit lanes offset by 32, where a lane may hold
    up to 223 so that the top value of each width is not a power of two. */
module Numerals {
  import opened Bytes

  /** 128^n, the weight of a lane with `n` lanes below it. */
  function Weight(n: nat): (w: nat)
    ensures w >= 1
  {
    if n == 0 then 1 else 128 * Weight(n - 1)
  }

  /** The largest value of `width` lanes. */
  function Top(width: nat): nat {
    if width == 0 then 0 else 223 * Weight(width - 1) + Top(width - 1)
  }

  lemma Tops()
    ensures Top(1) == 223 && Top(2) == 28767 && Top(3) == 3682399 && Top(4) == 471347295
    ensures Weight(1) == 128 && Weight(2) == 16384 && Weight(3) == 2097152 && Weight(4) == 268435456
  {
    assert Weight(0) == 1;
  }

  function Scaled(lane: int, n: nat): int { lane * Weight(n) }

  function Quotient(t: nat, w: nat): nat
    requires w >= 1
  {
    t / w
  }

  lemma QuotientOf(t: nat, w: nat)
    requires w >= 1
    ensures 0 <= t - Quotient(t, w) * w < w
  {
    assert t == (t / w) * w + t % w;
  }

  /** The lane with `n` lanes below it. */
  function Lane(t: nat, n: nat): nat { Min(Quotient(t, Weight(n)), 223) }

  /** What is left for the lower lanes. */
  function Remaining(t: nat, n: nat): nat {
    LaneFits(t, n);
    t - Scaled(Lane(t, n), n)
  }

  lemma Monotone(a: nat, b: nat, w: nat)
    requires a <= b
    ensures a * w <= b * w
  {
  }

  lemma LaneFits(t: nat, n: nat)
    ensures Scaled(Lane(t, n), n) <= t
  {
    var w := Weight(n);
    QuotientOf(t, w);
    Monotone(Lane(t, n), Quotient(t, w), w);
  }

  lemma TopCoversWeight(n: nat)
    ensures n >= 1 ==> Top(n) >= Weight(n) - 1
  {
  }

  /** A lane taken off leaves a value the lower lanes can hold, exactly when the value
      fitted in the first place. */
  lemma LaneStep(t: nat, n: nat)
    requires n >= 1
    ensures Remaining(t, n) <= Top(n) <==> t <= Top(n + 1)
    ensures t > Top(n + 1) ==> Lane(t, n) == 223
  {
    TopCoversWeight(n);
    SaturatingStep(t, Weight(n), Top(n));
  }

  lemma SaturatingStep(t: nat, w: nat, top: nat)
    requires w >= 1 && top >= w - 1
    ensures var lane := Min(Quotient(t, w), 223);
            (t - lane * w <= top <==> t <= 223 * w + top) && (t > 223 * w + top ==> lane == 223)
  {
    hide Quotient;
    var q := Quotient(t, w);
    QuotientOf(t, w);
    if q < 223 { Monotone(q + 1, 223, w); }
  }

  /** `_gbyte` before the offset: saturating lanes, high to low. */
  function Lanes(t: nat, width: nat): (r: seq<nat>)
    requires width >= 1
    ensures |r| == width
    ensures forall i :: 0 <= i < width ==> r[i] <= 223
  {
    if width == 1 then [Min(t, 223)]
    else [Lane(t, width - 1)] + Lanes(Remaining(t, width - 1), width - 1)
  }

  function Offset(lanes: seq<nat>): bytes
    requires forall i :: 0 <= i < |lanes| ==> lanes[i] <= 223
  {
    seq(|lanes|, i requires 0 <= i < |lanes| => (lanes[i] + 32) as byte)
  }

  /** The value lanes stand for; bytes below the offset count negatively. */
  function Fold(data: bytes): int {
    if data == [] then 0 else Scaled((data[0] as int) - 32, |data| - 1) + Fold(data[1..])
  }

  /** `width` bytes for any integer. */
  function GBytes(value: int, width: nat): (r: bytes)
    requires width >= 1
    ensures |r| == width
    ensures forall i :: 0 <= i < width ==> 32 <= r[i] <= 255
  {
    Offset(Lanes(Max(0, value), width))
  }

  lemma FoldOfOne(t: nat)
    ensures Fold(Offset(Lanes(t, 1))) == Min(t, Top(1))
  {
    var data := Offset(Lanes(t, 1));
    assert Fold(data) == Scaled(Min(t, 223), 0) + Fold(data[1..]);
  }

  /** Written lanes fold back to the value cut to what the width can hold. */
  lemma {:induction false} FoldOfLanes(t: nat, width: nat)
    requires width >= 1
    ensures Fold(Offset(Lanes(t, width))) == Min(t, Top(width))
    decreases width
  {
    if width == 1 {
      FoldOfOne(t);
    } else {
      hide Lane, Remaining, Scaled, Weight;
      var lanes := Lanes(t, width);
      var data := Offset(lanes);
      var lane, rest := Lane(t, width - 1), Remaining(t, width - 1);
      assert lanes[1..] == Lanes(rest, width - 1) && data[1..] == Offset(lanes[1..]);
      FoldOfLanes(rest, width - 1);
      Reassemble(t, width - 1);
      LaneStep(t, width - 1);
      assert Fold(data) == Scaled(lane, width - 1) + Fold(data[1..]);
    }
  }

  lemma Reassemble(t: nat, n: nat)
    ensures t == Scaled(Lane(t, n), n) + Remaining(t, n)
    ensures Top(n + 1) == Scaled(223, n) + Top(n)
  {
  }

  /** Round trip, saturating, at every width. */
  lemma GBytesFold(value: int, width: nat)
    requires width >= 1
    ensures Fold(GBytes(value, width)) == Min(Max(0, value), Top(width))
  {
    FoldOfLanes(Max(0, value), width);
  }

  /** Beyond its top a width writes its top. */
  lemma {:induction false} LanesSaturate(t: nat, width: nat)
    requires width >= 1
    ensures Lanes(t, width) == Lanes(Min(t, Top(width)), width)
    decreases width
  {
    if width == 1 {
      assert Top(1) == 223 * Weight(0) + Top(0);
    } else if t > Top(width) {
      hide Lane, Remaining, Weight;
      var top := Top(width);
      LaneStep(t, width - 1);
      AtTheTop(width - 1);
      LanesSaturate(Remaining(t, width - 1), width - 1);
    }
  }

  lemma AtTheTop(n: nat)
    requires n >= 1
    ensures Lane(Top(n + 1), n) == 223 && Remaining(Top(n + 1), n) == Top(n)
  {
    LaneStep(Top(n + 1), n);
    LaneStep(Top(n + 1) + 1, n);
    Reassemble(Top(n + 1), n);
    TopCoversWeight(n);
    TopLane(Weight(n), Top(n));
  }

  lemma TopLane(w: nat, top: nat)
    requires w >= 1
    ensures Quotient(223 * w + top, w) >= 223
  {
    hide Quotient;
    var q := Quotient(223 * w + top, w);
    QuotientOf(223 * w + top, w);
    if q < 223 { Monotone(q + 1, 223, w); }
  }
}

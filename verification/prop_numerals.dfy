/** The lane loops of reborn_protocol/props.py (`_gbyte` and `_read_gbyte`). */
module PropNumerals {
  import opened Bytes
  import opened Numerals
  import Props

  lemma NextLane(t: nat, n: nat)
    requires n >= 1
    ensures Scaled(Lane(t, n), n) <= t
    ensures Lanes(t, n + 1) == [Lane(t, n)] + Lanes(t - Scaled(Lane(t, n), n), n)
  {
    LaneFits(t, n);
  }

  lemma LastLane(t: nat)
    ensures Lanes(t, 1) == [Min(t, 223)]
  {
  }

  /** `_gbyte`: a lane above 223 is clamped and its excess carries down. */
  method GByte(value: int, count: nat) returns (r: bytes)
    requires count >= 1
    ensures r == GBytes(value, count)
  {
    hide Lanes, Lane, Scaled;
    var t: nat := Max(0, value);
    var lanes: seq<nat> := [];
    var i := 0;
    while i < count - 1
      invariant 0 <= i <= count - 1
      invariant Lanes(Max(0, value), count) == lanes + Lanes(t, count - i)
    {
      var n := count - 1 - i;
      NextLane(t, n);
      var lane := Lane(t, n);
      lanes := lanes + [lane];
      t := t - Scaled(lane, n);
      i := i + 1;
    }
    LastLane(t);
    lanes := lanes + [Min(t, 223)];
    r := seq(|lanes|, k requires 0 <= k < |lanes| && lanes[k] <= 223 => ((lanes[k] + 32) % 256) as byte);
  }

  /** `_read_gbyte`: lanes are added, not or-ed, so a top bit carries; only width 5 wraps,
      the other widths stop at zero. */
  method ReadGByte(data: bytes, pos: nat, count: nat) returns (r: Option<int>, at: nat)
    requires pos <= |data|
    ensures (r, at) == Props.ReadGByte(data, pos, count)
  {
    if pos + count > |data| {
      return None, |data|;
    }
    var value := 0;
    var i := 0;
    while i < count
      invariant 0 <= i <= count
      invariant Fold(data[pos..pos + count]) == value + Fold(data[pos + i..pos + count])
    {
      assert data[pos + i..pos + count][1..] == data[pos + i + 1..pos + count];
      value := value + ((data[pos + i] as int) - 32) * Weight(count - 1 - i);
      i := i + 1;
    }
    if count == 5 {
      return Some(value % 0x1_0000_0000), pos + count;
    }
    return Some(Max(0, value)), pos + count;
  }
}

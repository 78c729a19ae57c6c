/** What a property value loses on the wire (reborn_protocol/props.py), form by form, and which
    properties of a stream reach a handler. */
module PropLosses {
  import opened Bytes
  import opened Numerals
  import opened GTypes
  import opened Props
  import opened PropStream

  /** The whole number next to `x` on the side of nothing. */
  predicate WholePart(x: real, m: int) {
    if x >= 0.0 then m as real <= x < m as real + 1.0 else m as real - 1.0 < x <= m as real
  }

  lemma WholeTrunc(x: real, m: int)
    requires WholePart(x, m)
    ensures Props.Trunc(x) == m
  {
    if x < 0.0 { assert -(m as real) == (-m) as real; }
  }

  /** A position in pixels keeps the whole pixels, towards the origin, up to 14383 of them
      either way. */
  lemma PixelsKept(d: Desc, x: real, m: int, colorsLen: nat)
    requires d.wire.Pixel? && WholePart(x * 16.0, m) && -14383 <= m <= 14383
    ensures Props.Canonical(d, TilesV(x), colorsLen) == TilesV(m as real / 16.0)
  {
    WholeTrunc(x * 16.0, m);
    PixelsExactIff(m);
  }

  /** On the wire it is twice the number of pixels, and one more for a negative one. */
  lemma PixelBytes(d: Desc, x: real, m: int, colorsLen: nat)
    requires d.wire.Pixel? && WholePart(x * 16.0, m)
    ensures EncodeValue(d, TilesV(x), colorsLen) == GBytes(if m < 0 then 1 - 2 * m else 2 * m, 2)
  {
    WholeTrunc(x * 16.0, m);
  }

  /** A position in half-tiles keeps the whole half-tiles: in one form from -40 to 215 of them,
      -33 excepted, in the other from 0 to 223, the others saturating. */
  lemma HalfTilesKept(d: Desc, x: real, m: int, colorsLen: nat)
    requires WholePart(x * 2.0, m)
    ensures d.wire.Tile? && -40 <= m <= 215 && m != -33 ==>
              Props.Canonical(d, TilesV(x), colorsLen) == TilesV(m as real / 2.0)
    ensures d.wire.HalfTile? ==>
              Props.Canonical(d, TilesV(x), colorsLen)
              == TilesV((if m < 0 then 0 else if m > 223 then 223 else m) as real / 2.0)
  {
    WholeTrunc(x * 2.0, m);
    HalfTilesExactIff(m);
  }

  /** A list of colours is cut, or filled up with zeros, and each is clamped. The five colours
      of an effect are left out when the first is zero or there are none. */
  lemma ColorsKept(d: Desc, ns: seq<int>, colorsLen: nat)
    requires d.wire.Colors? || (d.wire.EffectColors? && ns != [] && ns[0] > 0)
    ensures var n := if d.wire.Colors? then colorsLen else 5;
            var kept := Props.Canonical(d, IntsV(ns), colorsLen);
            && kept.IntsV? && |kept.ns| == n
            && forall i :: 0 <= i < n ==>
                 kept.ns[i] == if i >= |ns| || ns[i] < 0 then 0 else if ns[i] > 223 then 223 else ns[i]
  {
  }

  lemma NoColors(d: Desc, ns: seq<int>, colorsLen: nat)
    requires d.wire.EffectColors? && (ns == [] || ns[0] == 0)
    ensures Props.Canonical(d, IntsV(ns), colorsLen) == IntsV([0])
    ensures EncodeValue(d, IntsV(ns), colorsLen) == [32]
  {
    OneLane(0);
  }

  /** Raw bytes are cut, or filled up with spaces. */
  lemma RawKept(d: Desc, b: bytes, colorsLen: nat)
    requires d.wire.Raw?
    ensures var kept := Props.Canonical(d, BytesV(b), colorsLen);
            && kept.BytesV? && |kept.b| == d.width
            && forall i :: 0 <= i < d.width ==> kept.b[i] == if i < |b| then b[i] else 32
  {
  }

  /** Text keeps its length, and the letters Latin-1 has. */
  lemma TextKept(d: Desc, s: string, colorsLen: nat)
    requires d.wire.LongString? && |s| <= 28767
    ensures var kept := Props.Canonical(d, TextV(s), colorsLen);
            && kept.TextV? && |kept.s| == |s|
            && forall i :: 0 <= i < |s| ==> kept.s[i] == if s[i] as int < 256 then s[i] else '?'
  {
  }

  /** At the end of the data no payload fits but one of no length. */
  lemma NothingLeft(d: Desc, data: bytes, colorsLen: nat)
    ensures PayloadLen(d, data, |data|, colorsLen) == 0 <==>
              || d.wire.Void?
              || ((d.wire.GByte? || d.wire.Raw?) && d.width == 0)
              || (d.wire.Colors? && colorsLen == 0)
  {
    hide Fold, Decode;
  }

  // ------------------------------------------------------------- handlers

  /** Every call a walk makes, on any bytes, is of an id that has a handler, with a value, or
      with none where that is allowed. */
  lemma {:induction false} CallsAreWanted(p: Policy, handlers: set<int>, data: bytes, pos: nat, last: int)
    ensures forall c :: c in Walk(p, handlers, data, pos, last).calls ==>
              c.id in handlers && c.id in p.table && (c.value != Nothing || c.id in p.handleEmpty)
    decreases |data| - pos
  {
    hide DecodeValue, PayloadLen;
    if pos < |data| {
      var id := Raised(data[pos]);
      if 0 <= id <= p.maxPropId && InOrder(p, last, id) {
        if id !in p.table {
          CallsAreWanted(p, handlers, data, pos + 1 + p.unknownPayloadLen, id);
        } else {
          DecodeMovesOn(p.table[id], data, pos + 1, p.colorsLen);
          CallsAreWanted(p, handlers, data, DecodeValue(p.table[id], data, pos + 1, p.colorsLen).1, id);
        }
      }
    }
  }

  /** And of a written stream each wanted property is called for. */
  lemma {:induction false} WantedAreCalled(
      p: Policy, handlers: set<int>, props: seq<Prop>, last: int, k: nat)
    requires Writable(p, props, last) && k < |props| && props[k].id in handlers
    ensures props[k].id in p.table && InDomain(p.table[props[k].id], props[k].value)
    ensures var v := Props.Canonical(p.table[props[k].id], props[k].value, p.colorsLen);
            v != Nothing || props[k].id in p.handleEmpty ==>
              Handled(props[k].id, v) in Walk(p, handlers, Emit(p, props, last), 0, last).calls
    decreases k
  {
    hide Walk, Emit, InDomain, EncodeValue, Props.Canonical;
    ExpectedHas(p, handlers, props, last, k);
    StreamRoundTrip(p, handlers, [], props, last);
    assert [] + Emit(p, props, last) == Emit(p, props, last);
  }

  lemma {:induction false} ExpectedHas(p: Policy, handlers: set<int>, props: seq<Prop>, last: int, k: nat)
    requires Writable(p, props, last) && k < |props| && props[k].id in handlers
    ensures props[k].id in p.table && InDomain(p.table[props[k].id], props[k].value)
    ensures var v := Props.Canonical(p.table[props[k].id], props[k].value, p.colorsLen);
            v != Nothing || props[k].id in p.handleEmpty ==>
              Handled(props[k].id, v) in Expected(p, handlers, props, last)
    decreases k
  {
    hide InDomain, EncodeValue, Props.Canonical;
    if k > 0 { ExpectedHas(p, handlers, props[1..], props[0].id, k - 1); }
  }
}

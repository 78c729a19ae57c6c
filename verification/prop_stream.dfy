/** Property streams (parse_prop_stream in reborn_protocol/props.py): runs of an id byte
    and that property's payload. */
module PropStream {
  import opened Bytes
  import opened Numerals
  import opened GTypes
  import opened Props

  datatype Policy = Policy(
    table: map<int, Desc>,
    maxPropId: int,
    colorsLen: nat,
    requireAscending: bool,
    ascendingExempt: set<int>,
    checkAlignment: bool,
    requireFullConsume: bool,
    unknownPayloadLen: nat,
    handleEmpty: set<int>)

  /** A handler run with the value it was given. */
  datatype Handled = Handled(id: int, value: PropValue)

  datatype Walked = Walked(calls: seq<Handled>, clean: bool, pos: nat)

  predicate Runs(p: Policy, handlers: set<int>, id: int, v: PropValue) {
    id in handlers && (!v.Nothing? || id in p.handleEmpty)
  }

  /** Whether an id may follow `last`. */
  predicate InOrder(p: Policy, last: int, id: int) {
    !p.requireAscending || id > last || last in p.ascendingExempt
  }

  predicate Fits(p: Policy, d: Desc, data: bytes, pos: nat)
    requires pos <= |data|
  {
    !p.checkAlignment || pos + PayloadLen(d, data, pos, p.colorsLen) <= |data|
  }

  predicate EndsClean(p: Policy, n: nat, pos: nat) {
    pos <= n && (p.requireFullConsume ==> pos == n)
  }

  /** The walk from `pos`, the previous id being `last`. */
  function Walk(p: Policy, handlers: set<int>, data: bytes, pos: nat, last: int): Walked
    decreases |data| - pos
  {
    if pos >= |data| then Walked([], EndsClean(p, |data|, pos), pos)
    else
      var id := Raised(data[pos]);
      if id < 0 || id > p.maxPropId || !InOrder(p, last, id) then Walked([], false, pos + 1)
      else if id !in p.table then Walk(p, handlers, data, pos + 1 + p.unknownPayloadLen, id)
      else
        DecodeMovesOn(p.table[id], data, pos + 1, p.colorsLen);
        var (v, at) := DecodeValue(p.table[id], data, pos + 1, p.colorsLen);
        var rest := Walk(p, handlers, data, at, id);
        Walked((if Runs(p, handlers, id, v) then [Handled(id, v)] else []) + rest.calls,
               Fits(p, p.table[id], data, pos + 1) && rest.clean, rest.pos)
  }

  /** parse_prop_stream. It ends on any bytes: every round consumes the id byte. */
  method ParsePropStream(p: Policy, handlers: set<int>, data: bytes, start: nat)
    returns (calls: seq<Handled>, clean: bool, pos: nat)
    ensures Walked(calls, clean, pos) == Walk(p, handlers, data, start, -1)
  {
    hide DecodeValue, PayloadLen;
    calls, clean, pos := [], true, start;
    var last := -1;
    ghost var all := Walk(p, handlers, data, start, -1);
    while pos < |data|
      invariant all == var rest := Walk(p, handlers, data, pos, last);
                       Walked(calls + rest.calls, clean && rest.clean, rest.pos)
      decreases |data| - pos
    {
      ghost var done, tail := calls, Walk(p, handlers, data, pos, last);
      var id := Raised(data[pos]);
      pos := pos + 1;
      if id < 0 || id > p.maxPropId {
        clean := false;
        assert calls + [] == calls;
        return;
      }
      if p.checkAlignment && id in p.table {
        if pos + PayloadLen(p.table[id], data, pos, p.colorsLen) > |data| {
          clean := false;
        }
      }
      if p.requireAscending && id <= last && last !in p.ascendingExempt {
        clean := false;
        assert calls + [] == calls;
        return;
      }
      last := id;
      if id !in p.table {
        pos := pos + p.unknownPayloadLen;
      } else {
        DecodeMovesOn(p.table[id], data, pos, p.colorsLen);
        var (v, at) := DecodeValue(p.table[id], data, pos, p.colorsLen);
        pos := at;
        if Runs(p, handlers, id, v) {
          calls := calls + [Handled(id, v)];
        }
        assert done + tail.calls == calls + Walk(p, handlers, data, pos, last).calls;
      }
    }
    assert calls + [] == calls;
    if pos > |data| {
      clean := false;
    }
    if p.requireFullConsume && pos != |data| {
      clean := false;
    }
  }

  // --------------------------------------------------------------- tiling

  /** A payload the walk stepped over, its id byte just before `start`. */
  datatype Span = Span(id: int, start: nat, end: nat)

  function Spans(p: Policy, data: bytes, pos: nat, last: int): seq<Span>
    decreases |data| - pos
  {
    if pos >= |data| then []
    else
      var id := Raised(data[pos]);
      if id < 0 || id > p.maxPropId || !InOrder(p, last, id) then []
      else if id !in p.table then
        [Span(id, pos + 1, pos + 1 + p.unknownPayloadLen)]
          + Spans(p, data, pos + 1 + p.unknownPayloadLen, id)
      else
        DecodeMovesOn(p.table[id], data, pos + 1, p.colorsLen);
        var at := DecodeValue(p.table[id], data, pos + 1, p.colorsLen).1;
        [Span(id, pos + 1, at)] + Spans(p, data, at, id)
  }

  /** The spans, each behind its id byte, fill `pos..end` without gap or overlap, each
      known one at exactly its declared width. */
  predicate Tile(p: Policy, data: bytes, pos: nat, end: nat, spans: seq<Span>)
    decreases |spans|
  {
    if spans == [] then pos == end
    else
      var s := spans[0];
      && pos < |data| && s.id == Raised(data[pos]) && s.start == pos + 1
      && s.end == s.start + (if s.id in p.table
                             then PayloadLen(p.table[s.id], data, s.start, p.colorsLen)
                             else p.unknownPayloadLen)
      && Tile(p, data, s.end, end, spans[1..])
  }

  /** A clean walk under the alignment check tiles everything it consumed. */
  lemma {:induction false} CleanWalkTiles(p: Policy, handlers: set<int>, data: bytes, pos: nat, last: int)
    requires p.checkAlignment && Walk(p, handlers, data, pos, last).clean
    ensures Walk(p, handlers, data, pos, last).pos <= |data|
    ensures Tile(p, data, pos, Walk(p, handlers, data, pos, last).pos, Spans(p, data, pos, last))
    decreases |data| - pos
  {
    hide DecodeValue, PayloadLen;
    if pos < |data| {
      var id := Raised(data[pos]);
      var spans := Spans(p, data, pos, last);
      if id !in p.table {
        CleanWalkTiles(p, handlers, data, pos + 1 + p.unknownPayloadLen, id);
        assert spans[1..] == Spans(p, data, pos + 1 + p.unknownPayloadLen, id);
      } else {
        var d := p.table[id];
        DecodeMovesOn(d, data, pos + 1, p.colorsLen);
        SkipperIsReader(d, data, pos + 1, p.colorsLen);
        var at := DecodeValue(d, data, pos + 1, p.colorsLen).1;
        CleanWalkTiles(p, handlers, data, at, id);
        assert spans[1..] == Spans(p, data, at, id);
      }
    }
  }

  // ----------------------------------------------------------- round trip

  datatype Prop = Prop(id: int, value: PropValue)

  /** What a writer may put in a stream that follows `last`. */
  predicate Writable(p: Policy, props: seq<Prop>, last: int)
    decreases |props|
  {
    props == [] ||
    var x := props[0];
    && 0 <= x.id <= p.maxPropId && x.id <= 223 && x.id in p.table
    && InDomain(p.table[x.id], x.value)
    && InOrder(p, last, x.id)
    && Writable(p, props[1..], x.id)
  }

  /** The id bytes and payloads, one property after another. */
  function Emit(p: Policy, props: seq<Prop>, last: int): bytes
    requires Writable(p, props, last)
    decreases |props|
  {
    if props == [] then []
    else [(props[0].id + 32) as byte] + EncodeValue(p.table[props[0].id], props[0].value, p.colorsLen)
           + Emit(p, props[1..], props[0].id)
  }

  /** The handler runs a reader of the same properties expects. */
  function Expected(p: Policy, handlers: set<int>, props: seq<Prop>, last: int): seq<Handled>
    requires Writable(p, props, last)
    decreases |props|
  {
    if props == [] then []
    else
      var id := props[0].id;
      var v := Props.Canonical(p.table[id], props[0].value, p.colorsLen);
      (if Runs(p, handlers, id, v) then [Handled(id, v)] else [])
        + Expected(p, handlers, props[1..], id)
  }

  /** Reading a written stream hands the handlers exactly the canonical values in order,
      is clean, and ends at the end, with every check on. */
  lemma {:induction false} StreamRoundTrip(
    p: Policy, handlers: set<int>, before: bytes, props: seq<Prop>, last: int)
    requires Writable(p, props, last)
    ensures var data := before + Emit(p, props, last);
            Walk(p, handlers, data, |before|, last) ==
              Walked(Expected(p, handlers, props, last), true, |data|)
    decreases |props|
  {
    hide DecodeValue, PayloadLen, EncodeValue, Accepts, Props.Canonical;
    var data := before + Emit(p, props, last);
    if props != [] {
      var id, v := props[0].id, props[0].value;
      var d := p.table[id];
      var payload := EncodeValue(d, v, p.colorsLen);
      var head: bytes := [(id + 32) as byte];
      var pos, before1 := |before| + 1, before + head + payload;
      assert data == before1 + Emit(p, props[1..], id);
      assert data[pos..pos + |payload|] == payload && Raised(data[|before|]) == id;
      PayloadStands(data, pos, d, v, p.colorsLen);
      StreamRoundTrip(p, handlers, before1, props[1..], id);
    }
  }

  lemma PayloadStands(data: bytes, pos: nat, d: Desc, v: PropValue, colorsLen: nat)
    requires Stands(data, pos, d, v, colorsLen)
    ensures ReadsBack(data, pos, d, v, colorsLen)
    ensures pos + PayloadLen(d, data, pos, colorsLen) <= |data|
  {
    ValueReadsBack(data, pos, d, v, colorsLen);
    PayloadAtLeast(d, v, colorsLen);
    WrittenWidth(d, v, colorsLen);
  }

  lemma PayloadAtLeast(d: Desc, v: PropValue, colorsLen: nat)
    requires InDomain(d, v)
    ensures |EncodeValue(d, v, colorsLen)| >= MinPayload(d.wire)
  {
  }

  lemma WrittenWidth(d: Desc, v: PropValue, colorsLen: nat)
    requires InDomain(d, v)
    ensures d.wire.GByte? || d.wire.Raw? ==> |EncodeValue(d, v, colorsLen)| == d.width
    ensures d.wire.Colors? ==> |EncodeValue(d, v, colorsLen)| == colorsLen
    ensures FixedPayload(d.wire).Some? ==>
              |EncodeValue(d, v, colorsLen)| == FixedPayload(d.wire).value
  {
  }
}

/** The GS2 bytecode container (reborn_protocol/gs2/container.py): segments of an id, a
    length and a payload, and a newline that is no part of any segment. Names are kept as
    the bytes they are stored in. */
module Gs2Container {
  import opened Bytes

  datatype Error = TruncatedU32(at: nat) | Unterminated(at: nat) | TruncatedHeader(at: nat) | TooLong(at: nat)

  datatype Result<+T> = Ok(value: T) | Err(error: Error) {
    function Fail<U>(): Result<U>
      requires Err?
    {
      Err(error)
    }
  }

  datatype FunctionEntry = FunctionEntry(name: bytes, opIndex: nat)

  datatype Container = Container(
    flags: nat,
    functions: seq<FunctionEntry>,
    strings: seq<bytes>,
    code: bytes,
    unknown: map<nat, bytes>,
    trailingNewline: bool)

  function Empty(): Container { Container(0, [], [], [], map[], false) }

  // ------------------------------------------------------------- reading

  /** Big-endian. */
  function BigEndian(b: bytes): nat
  {
    if b == [] then 0 else BigEndian(b[..|b| - 1]) * 256 + b[|b| - 1]
  }

  /** `_read_u32` */
  function ReadU32(data: bytes, pos: nat): (r: Result<nat>) {
    if pos + 4 > |data| then Err(TruncatedU32(pos)) else Ok(BigEndian(data[pos..pos + 4]))
  }

  /** `bytes.find` of a NUL: its index, or -1. */
  function FindNul(data: bytes, pos: nat): (k: int)
    requires pos <= |data|
    ensures k == -1 || (pos <= k < |data| && data[k] == 0)
    ensures forall j :: pos <= j < (if k == -1 then |data| else k) ==> data[j] != 0
    decreases |data| - pos
  {
    if pos == |data| then -1 else if data[pos] == 0 then pos else FindNul(data, pos + 1)
  }

  /** `_read_cstr` */
  function ReadCStr(data: bytes, pos: nat): (r: Result<(bytes, nat)>)
    requires pos <= |data|
    ensures r.Ok? ==> pos < r.value.1 <= |data|
  {
    var end := FindNul(data, pos);
    if end == -1 then Err(Unterminated(pos)) else Ok((data[pos..end], end + 1))
  }

  /** The entries of a function table from `p`, after those already read. */
  function Functions(payload: bytes, p: nat, done: seq<FunctionEntry>): (r: Result<seq<FunctionEntry>>)
    requires p <= |payload|
    decreases |payload| - p
  {
    if p == |payload| then Ok(done)
    else
      var opIndex := ReadU32(payload, p);
      if opIndex.Err? then opIndex.Fail()
      else
        var name := ReadCStr(payload, p + 4);
        if name.Err? then name.Fail()
        else Functions(payload, name.value.1, done + [FunctionEntry(name.value.0, opIndex.value)])
  }

  function Strings(payload: bytes, p: nat, done: seq<bytes>): (r: Result<seq<bytes>>)
    requires p <= |payload|
    decreases |payload| - p
  {
    if p == |payload| then Ok(done)
    else
      var s := ReadCStr(payload, p);
      if s.Err? then s.Fail() else Strings(payload, s.value.1, done + [s.value.0])
  }

  /** What one segment does to the container being filled. */
  function Apply(c: Container, id: nat, payload: bytes): Result<Container> {
    if id == 1 then
      if |payload| < 4 then Ok(c.(flags := 0)) else Ok(c.(flags := BigEndian(payload[..4])))
    else if id == 2 then
      var fs := Functions(payload, 0, c.functions);
      if fs.Err? then fs.Fail() else Ok(c.(functions := fs.value))
    else if id == 3 then
      var ss := Strings(payload, 0, c.strings);
      if ss.Err? then ss.Fail() else Ok(c.(strings := ss.value))
    else if id == 4 then Ok(c.(code := payload))
    else Ok(c.(unknown := c.unknown[id := payload]))
  }

  predicate LoneNewline(data: bytes, pos: nat) { pos + 1 == |data| && data[pos] == 10 }

  /** parse_container from `pos`, the segments so far having filled `c`. */
  function Load(c: Container, data: bytes, pos: nat): Result<Container>
    requires pos <= |data|
    decreases |data| - pos
  {
    if pos == |data| then Ok(c)
    else if LoneNewline(data, pos) then Ok(c.(trailingNewline := true))
    else if pos + 8 > |data| then Err(TruncatedHeader(pos))
    else
      var length := BigEndian(data[pos + 4..pos + 8]);
      if pos + 8 + length > |data| then Err(TooLong(pos + 8))
      else
        var next := Apply(c, BigEndian(data[pos..pos + 4]), data[pos + 8..pos + 8 + length]);
        if next.Err? then next else Load(next.value, data, pos + 8 + length)
  }

  method ReadFunctions(payload: bytes, done: seq<FunctionEntry>) returns (r: Result<seq<FunctionEntry>>)
    ensures r == Functions(payload, 0, done)
  {
    var entries := done;
    var p := 0;
    while p < |payload|
      invariant p <= |payload|
      invariant Functions(payload, p, entries) == Functions(payload, 0, done)
      decreases |payload| - p
    {
      var opIndex := ReadU32(payload, p);
      if opIndex.Err? {
        return opIndex.Fail();
      }
      var name := ReadCStr(payload, p + 4);
      if name.Err? {
        return name.Fail();
      }
      entries := entries + [FunctionEntry(name.value.0, opIndex.value)];
      p := name.value.1;
    }
    r := Ok(entries);
  }

  method ReadStrings(payload: bytes, done: seq<bytes>) returns (r: Result<seq<bytes>>)
    ensures r == Strings(payload, 0, done)
  {
    var strings := done;
    var p := 0;
    while p < |payload|
      invariant p <= |payload|
      invariant Strings(payload, p, strings) == Strings(payload, 0, done)
      decreases |payload| - p
    {
      var s := ReadCStr(payload, p);
      if s.Err? {
        return s.Fail();
      }
      strings := strings + [s.value.0];
      p := s.value.1;
    }
    r := Ok(strings);
  }

  /** parse_container */
  method ParseContainer(data: bytes) returns (r: Result<Container>)
    ensures r == Load(Empty(), data, 0)
  {
    hide Functions, Strings, BigEndian;
    var c := Empty();
    var pos := 0;
    while pos < |data|
      invariant pos <= |data|
      invariant Load(c, data, pos) == Load(Empty(), data, 0)
      decreases |data| - pos
    {
      if LoneNewline(data, pos) {
        c := c.(trailingNewline := true);
        break;
      }
      if pos + 8 > |data| {
        return Err(TruncatedHeader(pos));
      }
      var id := BigEndian(data[pos..pos + 4]);
      var length := BigEndian(data[pos + 4..pos + 8]);
      pos := pos + 8;
      if pos + length > |data| {
        return Err(TooLong(pos));
      }
      var payload := data[pos..pos + length];
      pos := pos + length;
      if id == 1 {
        c := c.(flags := if |payload| >= 4 then BigEndian(payload[..4]) else 0);
      } else if id == 2 {
        var fs := ReadFunctions(payload, c.functions);
        if fs.Err? { return fs.Fail(); }
        c := c.(functions := fs.value);
      } else if id == 3 {
        var ss := ReadStrings(payload, c.strings);
        if ss.Err? { return ss.Fail(); }
        c := c.(strings := ss.value);
      } else if id == 4 {
        c := c.(code := payload);
      } else {
        c := c.(unknown := c.unknown[id := payload]);
      }
    }
    r := Ok(c);
  }

  // ------------------------------------------------------------- emitting

  function U32(n: nat): (b: bytes)
    requires n < 0x1_0000_0000
    ensures |b| == 4
  {
    [n / 0x100_0000, n / 0x1_0000 % 256, n / 256 % 256, n % 256]
  }

  lemma U32ReadsBack(n: nat)
    requires n < 0x1_0000_0000
    ensures BigEndian(U32(n)) == n
  {
    var b := U32(n);
    BigEndianOf4(b);
    assert n == 256 * (n / 256) + n % 256;
    assert n / 256 == 256 * (n / 0x1_0000) + n / 256 % 256;
    assert n / 0x1_0000 == 256 * (n / 0x100_0000) + n / 0x1_0000 % 256;
  }

  lemma BigEndianOf4(b: bytes)
    requires |b| == 4
    ensures BigEndian(b) ==
              (((b[0] as int) * 256 + (b[1] as int)) * 256 + (b[2] as int)) * 256 + (b[3] as int)
  {
    assert b[..1][..0] == [] && b[..2][..1] == b[..1] && b[..3][..2] == b[..2];
    assert BigEndian(b[..1]) == b[0] as int;
    assert BigEndian(b[..2]) == (b[0] as int) * 256 + (b[1] as int);
    assert BigEndian(b[..3]) == ((b[0] as int) * 256 + (b[1] as int)) * 256 + (b[2] as int);
  }

  datatype Segment = Segment(id: nat, payload: bytes)

  predicate Fits(s: Segment) { s.id < 0x1_0000_0000 && |s.payload| < 0x1_0000_0000 }

  function SegmentBytes(s: Segment): bytes
    requires Fits(s)
  {
    U32(s.id) + U32(|s.payload|) + s.payload
  }

  function SegmentsBytes(ss: seq<Segment>): bytes
    requires forall k :: 0 <= k < |ss| ==> Fits(ss[k])
  {
    if ss == [] then [] else SegmentBytes(ss[0]) + SegmentsBytes(ss[1..])
  }

  function ApplyAll(c: Container, ss: seq<Segment>): Result<Container>
    decreases |ss|
  {
    if ss == [] then Ok(c)
    else
      var next := Apply(c, ss[0].id, ss[0].payload);
      if next.Err? then next else ApplyAll(next.value, ss[1..])
  }

  /** From `pos` on the blob is these segments, with at most a newline after them. */
  predicate Made(data: bytes, pos: nat, ss: seq<Segment>) {
    && (forall k :: 0 <= k < |ss| ==> Fits(ss[k]))
    && Sits(data, pos, SegmentsBytes(ss))
    && var end := pos + |SegmentsBytes(ss)|;
       end == |data| || LoneNewline(data, end)
  }

  /** A blob of segments, in any order and of any ids, does to the container what the
      segments do one after another; a lone newline at the end is only noted. */
  lemma {:induction false} LoadFollowsSegments(c: Container, data: bytes, pos: nat, ss: seq<Segment>)
    requires Made(data, pos, ss)
    ensures pos <= |data|
    ensures var all, newline := ApplyAll(c, ss), pos + |SegmentsBytes(ss)| < |data|;
            Load(c, data, pos) ==
              if all.Err? || !newline then all else Ok(all.value.(trailingNewline := true))
    decreases |ss|
  {
    if ss != [] {
      hide Apply, BigEndian, SegmentBytes, Made;
      var next := FirstMade(data, pos, ss);
      var made := Apply(c, ss[0].id, ss[0].payload);
      if made.Ok? { LoadFollowsSegments(made.value, data, next, ss[1..]); }
    }
  }

  lemma FirstMade(data: bytes, pos: nat, ss: seq<Segment>) returns (next: nat)
    requires Made(data, pos, ss) && ss != []
    ensures next == pos + 8 + |ss[0].payload| <= |data| && !LoneNewline(data, pos)
    ensures BigEndian(data[pos..pos + 4]) == ss[0].id
    ensures BigEndian(data[pos + 4..pos + 8]) == |ss[0].payload|
    ensures data[pos + 8..next] == ss[0].payload
    ensures Made(data, next, ss[1..]) && Fits(ss[0])
    ensures |SegmentBytes(ss[0])| == 8 + |ss[0].payload|
    ensures SegmentsBytes(ss) == SegmentBytes(ss[0]) + SegmentsBytes(ss[1..])
  {
    hide BigEndian, U32, Sits;
    var s := ss[0];
    next := pos + 8 + |s.payload|;
    SitsApart(data, pos, SegmentBytes(s), SegmentsBytes(ss[1..]));
    SitsApart(data, pos, U32(s.id) + U32(|s.payload|), s.payload);
    SitsApart(data, pos, U32(s.id), U32(|s.payload|));
    SitsInside(data, next, SegmentsBytes(ss[1..]));
    SitsSlice(data, pos, U32(s.id));
    SitsSlice(data, pos + 4, U32(|s.payload|));
    SitsSlice(data, pos + 8, s.payload);
    U32ReadsBack(s.id);
    U32ReadsBack(|s.payload|);
  }

  lemma SitsInside(data: bytes, pos: nat, b: bytes)
    requires Sits(data, pos, b)
    ensures pos + |b| <= |data|
  {
  }

  predicate NulFree(b: bytes) { forall k :: 0 <= k < |b| ==> b[k] != 0 }

  function FunctionsBytes(fs: seq<FunctionEntry>): bytes
    requires forall k :: 0 <= k < |fs| ==> fs[k].opIndex < 0x1_0000_0000
  {
    if fs == [] then [] else U32(fs[0].opIndex) + fs[0].name + [0] + FunctionsBytes(fs[1..])
  }

  function StringsBytes(ss: seq<bytes>): bytes {
    if ss == [] then [] else ss[0] + [0] + StringsBytes(ss[1..])
  }

  lemma CStrReadsBack(data: bytes, pos: nat, s: bytes)
    requires NulFree(s) && Sits(data, pos, s + [0])
    ensures ReadCStr(data, pos) == Ok((s, pos + |s| + 1))
  {
    SitsApart(data, pos, s, [0]);
    SitsSlice(data, pos, s);
    assert data[pos + |s| + 0] == [0][0];
    var k := FindNul(data, pos);
  }

  lemma U32Sits(data: bytes, pos: nat, n: nat)
    requires n < 0x1_0000_0000 && Sits(data, pos, U32(n))
    ensures ReadU32(data, pos) == Ok(n)
  {
    hide BigEndian, U32;
    SitsSlice(data, pos, U32(n));
    U32ReadsBack(n);
  }

  lemma {:induction false} FunctionsReadBack(
    data: bytes, pos: nat, fs: seq<FunctionEntry>, done: seq<FunctionEntry>)
    requires forall k :: 0 <= k < |fs| ==> fs[k].opIndex < 0x1_0000_0000 && NulFree(fs[k].name)
    requires Sits(data, pos, FunctionsBytes(fs)) && pos + |FunctionsBytes(fs)| == |data|
    ensures Functions(data, pos, done) == Ok(done + fs)
    decreases |fs|
  {
    hide BigEndian, U32, Sits, ReadU32, ReadCStr, NulFree;
    if fs == [] {
      assert done + fs == done;
    } else {
      var f, rest := fs[0], FunctionsBytes(fs[1..]);
      assert FunctionsBytes(fs) == U32(f.opIndex) + (f.name + [0] + rest);
      SitsApart(data, pos, U32(f.opIndex), f.name + [0] + rest);
      SitsApart(data, pos + 4, f.name + [0], rest);
      U32Sits(data, pos, f.opIndex);
      CStrReadsBack(data, pos + 4, f.name);
      FunctionsReadBack(data, pos + 4 + |f.name| + 1, fs[1..], done + [f]);
      assert done + [f] + fs[1..] == done + fs;
    }
  }

  lemma {:induction false} StringsReadBack(data: bytes, pos: nat, ss: seq<bytes>, done: seq<bytes>)
    requires forall k :: 0 <= k < |ss| ==> NulFree(ss[k])
    requires Sits(data, pos, StringsBytes(ss)) && pos + |StringsBytes(ss)| == |data|
    ensures Strings(data, pos, done) == Ok(done + ss)
    decreases |ss|
  {
    hide Sits, ReadCStr, NulFree;
    if ss == [] {
      assert done + ss == done;
    } else {
      var rest := StringsBytes(ss[1..]);
      SitsApart(data, pos, ss[0] + [0], rest);
      CStrReadsBack(data, pos, ss[0]);
      StringsReadBack(data, pos + |ss[0]| + 1, ss[1..], done + [ss[0]]);
      assert done + [ss[0]] + ss[1..] == done + ss;
    }
  }

  /** What the compiler can put in a container. */
  predicate Emittable(c: Container) {
    && c.flags < 0x1_0000_0000 && c.unknown == map[]
    && (forall k :: 0 <= k < |c.functions| ==>
          c.functions[k].opIndex < 0x1_0000_0000 && NulFree(c.functions[k].name))
    && (forall k :: 0 <= k < |c.strings| ==> NulFree(c.strings[k]))
    && |FunctionsBytes(c.functions)| < 0x1_0000_0000 && |StringsBytes(c.strings)| < 0x1_0000_0000
    && |c.code| < 0x1_0000_0000
  }

  function SegmentsOf(c: Container): seq<Segment>
    requires Emittable(c)
  {
    [Segment(1, U32(c.flags)), Segment(2, FunctionsBytes(c.functions)),
     Segment(3, StringsBytes(c.strings)), Segment(4, c.code)]
  }

  function Emit(c: Container): bytes
    requires Emittable(c)
  {
    SegmentsBytes(SegmentsOf(c)) + if c.trailingNewline then [10] else []
  }

  /** Loading undoes emitting. */
  lemma LoadingUndoesEmitting(c: Container)
    requires Emittable(c)
    ensures Load(Empty(), Emit(c), 0) == Ok(c)
  {
    hide Load, Functions, Strings, BigEndian, U32, SegmentsBytes;
    LoadFollowsSegments(Empty(), Emit(c), 0, SegmentsOf(c));
    SegmentsFill(c);
  }

  lemma SegmentsFill(c: Container)
    requires Emittable(c)
    ensures ApplyAll(Empty(), SegmentsOf(c)) == Ok(c.(trailingNewline := false))
  {
    hide Functions, Strings, BigEndian, U32, Apply;
    var ss := SegmentsOf(c);
    var c1 := Empty().(flags := c.flags);
    var c2 := c1.(functions := c.functions);
    var c3 := c2.(strings := c.strings);
    SegmentApplies(c);
    assert ss[1..][1..][1..] == [ss[3]] && ss[1..][1..] == ss[2..];
    assert ApplyAll(c3, [ss[3]]) == Ok(c3.(code := c.code));
    assert ApplyAll(c2, ss[2..]) == ApplyAll(c3, [ss[3]]);
    assert ApplyAll(c1, ss[1..]) == ApplyAll(c2, ss[2..]);
    assert ApplyAll(Empty(), ss) == ApplyAll(c1, ss[1..]);
  }

  lemma SegmentApplies(c: Container)
    requires Emittable(c)
    ensures var c1 := Empty().(flags := c.flags);
            var c2 := c1.(functions := c.functions);
            var c3 := c2.(strings := c.strings);
            && Apply(Empty(), 1, U32(c.flags)) == Ok(c1)
            && Apply(c1, 2, FunctionsBytes(c.functions)) == Ok(c2)
            && Apply(c2, 3, StringsBytes(c.strings)) == Ok(c3)
            && Apply(c3, 4, c.code) == Ok(c3.(code := c.code))
  {
    hide Functions, Strings, BigEndian, U32;
    U32ReadsBack(c.flags);
    assert U32(c.flags)[..4] == U32(c.flags);
    FunctionsReadBack(FunctionsBytes(c.functions), 0, c.functions, []);
    StringsReadBack(StringsBytes(c.strings), 0, c.strings, []);
    assert [] + c.functions == c.functions && [] + c.strings == c.strings;
  }

  // ------------------------------------------------- what is accepted

  /** The segments of an accepted blob. */
  function Cut(data: bytes, pos: nat): seq<Segment>
    requires pos <= |data|
    decreases |data| - pos
  {
    if pos == |data| || LoneNewline(data, pos) || pos + 8 > |data| then []
    else
      var length := BigEndian(data[pos + 4..pos + 8]);
      if pos + 8 + length > |data| then []
      else [Segment(BigEndian(data[pos..pos + 4]), data[pos + 8..pos + 8 + length])]
             + Cut(data, pos + 8 + length)
  }

  lemma ReadsAsU32(b: bytes)
    requires |b| == 4
    ensures BigEndian(b) < 0x1_0000_0000 && U32(BigEndian(b)) == b
  {
    BigEndianOf4(b);
    var low := (b[2] as int) * 256 + (b[3] as int);
    var n := BigEndian(b);
    assert n == ((b[0] as int) * 256 + (b[1] as int)) * 65536 + low;
    assert n / 65536 == (b[0] as int) * 256 + (b[1] as int) && n % 65536 == low;
    Halves(n);
  }

  lemma Halves(n: nat)
    ensures n / 256 % 256 == n % 65536 / 256 && n % 256 == n % 65536 % 256
    ensures n / 0x1_0000 == n / 65536 && n / 0x100_0000 == n / 65536 / 256
  {
    assert n == 65536 * (n / 65536) + n % 65536;
    assert n / 256 == 256 * (n / 65536) + n % 65536 / 256;
  }

  /** Every blob the loader accepts is a list of segments with at most a newline after them:
      emitting the segments again gives the blob back, byte for byte. */
  lemma {:induction false} AcceptedIsSegments(c: Container, data: bytes, pos: nat)
    requires pos <= |data| && Load(c, data, pos).Ok?
    ensures Made(data, pos, Cut(data, pos))
    decreases |data| - pos
  {
    if pos < |data| && !LoneNewline(data, pos) {
      hide Load, Cut, Made, Sits, SegmentBytes, BigEndian, Apply, Fits, LoneNewline;
      LoadTakes(c, data, pos);
      var s, next := FirstSegment(data, pos);
      AcceptedIsSegments(Apply(c, s.id, s.payload).value, data, next);
      MadeCons(data, pos, s, Cut(data, next));
    }
  }

  /** The loader accepts exactly the blobs made of segments each of which can be applied. */
  lemma AcceptsExactly(data: bytes)
    ensures Load(Empty(), data, 0).Ok? <==>
              exists ss :: Made(data, 0, ss) && ApplyAll(Empty(), ss).Ok?
  {
    hide Load, Made, ApplyAll, Cut;
    if Load(Empty(), data, 0).Ok? {
      AcceptedIsSegments(Empty(), data, 0);
      LoadFollowsSegments(Empty(), data, 0, Cut(data, 0));
    }
    forall ss | Made(data, 0, ss) && ApplyAll(Empty(), ss).Ok? ensures Load(Empty(), data, 0).Ok? {
      LoadFollowsSegments(Empty(), data, 0, ss);
    }
  }

  lemma MadeCons(data: bytes, pos: nat, s: Segment, rest: seq<Segment>)
    requires Fits(s) && Sits(data, pos, SegmentBytes(s)) && Made(data, pos + |SegmentBytes(s)|, rest)
    ensures Made(data, pos, [s] + rest)
  {
    hide Sits, SegmentBytes, SegmentsBytes, Fits;
    SegmentsCons(s, rest);
    SitsTogether(data, pos, SegmentBytes(s), SegmentsBytes(rest));
  }

  lemma LoadTakes(c: Container, data: bytes, pos: nat)
    requires pos < |data| && !LoneNewline(data, pos) && Load(c, data, pos).Ok?
    ensures pos + 8 <= |data|
    ensures var next := pos + 8 + BigEndian(data[pos + 4..pos + 8]);
            && next <= |data|
            && var s := Segment(BigEndian(data[pos..pos + 4]), data[pos + 8..next]);
               && Apply(c, s.id, s.payload).Ok?
               && Load(Apply(c, s.id, s.payload).value, data, next).Ok?
               && Cut(data, pos) == [s] + Cut(data, next)
  {
    hide BigEndian, Apply;
  }

  lemma SegmentsCons(s: Segment, rest: seq<Segment>)
    requires Fits(s) && forall k :: 0 <= k < |rest| ==> Fits(rest[k])
    ensures forall k :: 0 <= k < |[s] + rest| ==> Fits(([s] + rest)[k])
    ensures SegmentsBytes([s] + rest) == SegmentBytes(s) + SegmentsBytes(rest)
  {
    hide SegmentBytes;
    assert ([s] + rest)[1..] == rest;
  }

  lemma FirstSegment(data: bytes, pos: nat) returns (s: Segment, next: nat)
    requires pos + 8 <= |data|
    requires pos + 8 + BigEndian(data[pos + 4..pos + 8]) <= |data|
    ensures next == pos + 8 + BigEndian(data[pos + 4..pos + 8])
    ensures s == Segment(BigEndian(data[pos..pos + 4]), data[pos + 8..next])
    ensures Fits(s) && Sits(data, pos, SegmentBytes(s)) && next == pos + |SegmentBytes(s)|
  {
    hide U32, BigEndian, Sits;
    next := pos + 8 + BigEndian(data[pos + 4..pos + 8]);
    s := Segment(BigEndian(data[pos..pos + 4]), data[pos + 8..next]);
    ReadsAsU32(data[pos..pos + 4]);
    ReadsAsU32(data[pos + 4..pos + 8]);
    SliceSits(data, pos, pos + 4);
    SliceSits(data, pos + 4, pos + 8);
    SliceSits(data, pos + 8, next);
    SitsTogether(data, pos, U32(s.id), U32(|s.payload|));
    SitsTogether(data, pos, U32(s.id) + U32(|s.payload|), s.payload);
  }

  lemma SliceSits(data: bytes, i: nat, j: nat)
    requires i <= j <= |data|
    ensures Sits(data, i, data[i..j])
  {
  }
}

/** The bytes of GS2 instructions (reborn_protocol/gs2/disasm.py), one instruction at a time:
    what each opcode, marker and operand byte is read as, and that a record read is the record
    a compiler would have written. */
module Gs2Records {
  import opened Bytes
  import opened Gs2Container
  import opened Gs2Disasm

  /** The opcodes whose operand says where to go. */
  const JUMPS: set<int> := {1, 2, 3, 4, 5, 150, 163}

  /** Those that name a string or a variable by number. */
  const INDICES: set<int> := {21, 22}

  /** Those that have an operand even when none is written. */
  const OPERANDS: set<int> := {1, 2, 3, 4, 5, 20, 21, 22, 45, 46, 150, 163}

  function Only(op: byte, operand: Option<Operand>): Decoded<seq<Instruction>> {
    Decoded([Instruction(0, 0, op, operand)])
  }

  /** A byte alone is an instruction unless it is one of the seven markers. */
  lemma ByteAlone(b: byte)
    ensures Decode([b], 0, []) ==
              if 0xF0 <= b <= 0xF6 then (if b == 0xF6 then Bad(UnterminatedFloat(1)) else Bad(Truncated(1)))
              else if b !in OPERANDS then Only(b, None)
              else Only(b, Some(Operand(if b in JUMPS then JumpOperand
                                        else if b in INDICES then IndexOperand else NumberOperand,
                                        -1, Implicit, Number(0), 0)))
  {
    var x := Eager(b, [b], 1);
    assert IsMarker(b) <==> 0xF0 <= b <= 0xF6;
    if !IsMarker(b) {
      OpTaken([b], 0, [], x.value.0, 1);
      assert [] + [Instruction(0, 0, b, x.value.0)] == [Instruction(0, 0, b, x.value.0)];
    }
  }

  lemma WithRecord(op: byte, data: bytes, operand: Operand)
    requires !(0xF0 <= op <= 0xF6) && data != [] && 0xF0 <= data[0] <= 0xF6
    requires Record(op, data[0], [op] + data, 2) == Decoded((operand, 1 + |data|))
    ensures Decode([op] + data, 0, []) == Only(op, Some(operand))
  {
    hide Record;
    var code: bytes, x := [op] + data, Instruction(0, 0, op, None);
    assert [] + [x] == [x];
    if OperandOp(op) {
      OpTaken(code, 0, [], Some(operand), |code|);
      assert [] + [Instruction(0, 0, op, Some(operand))] == [Instruction(0, 0, op, Some(operand))];
    } else {
      OpTaken(code, 0, [], None, 1);
      RecordTaken(code, 1, [x], operand, |code|);
      assert Overwritten([x], operand) == [x.(operand := Some(operand))];
    }
  }

  lemma ValueOf(b: bytes)
    ensures |b| == 1 ==> BigEndian(b) == b[0] as int
    ensures |b| == 2 ==> BigEndian(b) == 256 * (b[0] as int) + b[1] as int
    ensures |b| == 4 ==>
              BigEndian(b) == 0x100_0000 * (b[0] as int) + 0x1_0000 * (b[1] as int) + 256 * (b[2] as int) + b[3] as int
  {
    if |b| == 1 { assert b[..0] == []; }
    if |b| == 2 {
      TwoBytes(b);
    }
    if |b| == 4 {
      var three, two := b[..3], b[..2];
      assert three[..2] == two;
      TwoBytes(two);
      assert BigEndian(three) == BigEndian(two) * 256 + b[2] as int;
      assert BigEndian(b) == BigEndian(three) * 256 + b[3] as int;
    }
  }

  /** Behind the first three markers stand one, two and four bytes, the highest first. */
  lemma PlainNumbers(op: byte, a: byte, b: byte, c: byte, d: byte)
    requires !(0xF0 <= op <= 0xF6)
    ensures var kind := if op in JUMPS then JumpOperand else IndexOperand;
            && Decode([op, 0xF0, a], 0, []) == Only(op, Some(Operand(kind, 0xF0, U8, Number(a), 1)))
            && Decode([op, 0xF1, a, b], 0, []) == Only(op, Some(Operand(kind, 0xF1, U16, Number(256 * a + b), 2)))
            && Decode([op, 0xF2, a, b, c, d], 0, [])
               == Only(op, Some(Operand(kind, 0xF2, U32,
                                        Number(0x100_0000 * a + 0x1_0000 * b + 256 * c + d), 4)))
  {
    hide Decode;
    RecordOfOne(op, 0xF0, a);
    RecordOfTwo(op, 0xF1, a, b);
    RecordOfFour(op, 0xF2, a, b, c, d);
  }

  /** Behind the next three as well, the first bit being the sign. */
  lemma SignedNumbers(op: byte, a: byte, b: byte, c: byte, d: byte)
    requires !(0xF0 <= op <= 0xF6)
    ensures var kind, minus := if op in JUMPS then JumpOperand else NumberOperand, if a < 128 then 0 else 1;
            && Decode([op, 0xF3, a], 0, []) == Only(op, Some(Operand(kind, 0xF3, I8, Number(a - 0x100 * minus), 1)))
            && Decode([op, 0xF4, a, b], 0, [])
               == Only(op, Some(Operand(kind, 0xF4, I16, Number(256 * a + b - 0x1_0000 * minus), 2)))
            && Decode([op, 0xF5, a, b, c, d], 0, [])
               == Only(op, Some(Operand(
                                  kind, 0xF5, I32,
                                  Number(0x100_0000 * a + 0x1_0000 * b + 256 * c + d - 0x1_0000_0000 * minus), 4)))
  {
    hide Decode;
    RecordOfOne(op, 0xF3, a);
    RecordOfTwo(op, 0xF4, a, b);
    RecordOfFour(op, 0xF5, a, b, c, d);
  }

  lemma RecordOfOne(op: byte, m: byte, a: byte)
    requires !(0xF0 <= op <= 0xF6) && m in {0xF0, 0xF3}
    ensures var w := if m == 0xF0 then U8 else I8;
            Decode([op, m, a], 0, []) == Only(op, Some(Operand(KindOf(op, w), m, w, Number(Valued(w, a)), 1)))
  {
    hide Decode, BigEndian;
    var code: bytes, w := [op, m, a], WidthOf(m);
    assert code[2..3] == [a];
    ValueOf([a]);
    assert [op] + [m, a] == code;
    WithRecord(op, [m, a], Operand(KindOf(op, w), m, w, Number(Valued(w, a)), 1));
  }

  lemma RecordOfTwo(op: byte, m: byte, a: byte, b: byte)
    requires !(0xF0 <= op <= 0xF6) && m in {0xF1, 0xF4}
    ensures var w := if m == 0xF1 then U16 else I16;
            Decode([op, m, a, b], 0, [])
            == Only(op, Some(Operand(KindOf(op, w), m, w, Number(Valued(w, 256 * a + b)), 2)))
  {
    hide Decode, BigEndian;
    var code: bytes, w := [op, m, a, b], WidthOf(m);
    assert code[2..4] == [a, b];
    ValueOf([a, b]);
    assert [op] + [m, a, b] == code;
    WithRecord(op, [m, a, b], Operand(KindOf(op, w), m, w, Number(Valued(w, 256 * a + b)), 2));
  }

  lemma RecordOfFour(op: byte, m: byte, a: byte, b: byte, c: byte, d: byte)
    requires !(0xF0 <= op <= 0xF6) && m in {0xF2, 0xF5}
    ensures var w, n := if m == 0xF2 then U32 else I32, 0x100_0000 * a + 0x1_0000 * b + 256 * c + d;
            Decode([op, m, a, b, c, d], 0, [])
            == Only(op, Some(Operand(KindOf(op, w), m, w, Number(Valued(w, n)), 4)))
  {
    hide Decode, BigEndian;
    var code: bytes, w, n := [op, m, a, b, c, d], WidthOf(m), 0x100_0000 * a + 0x1_0000 * b + 256 * c + d;
    assert code[2..6] == [a, b, c, d];
    ValueOf([a, b, c, d]);
    assert [op] + [m, a, b, c, d] == code;
    WithRecord(op, [m, a, b, c, d], Operand(KindOf(op, w), m, w, Number(Valued(w, n)), 4));
  }

  /** And behind the last one text, up to the first zero byte. */
  lemma FloatText(op: byte, text: bytes)
    requires !(0xF0 <= op <= 0xF6) && forall k :: 0 <= k < |text| ==> text[k] != 0
    ensures Decode([op, 0xF6] + text + [0], 0, [])
            == Only(op, Some(Operand(FloatOperand, 0xF6, CStr, Text(text), |text| + 1)))
  {
    hide Decode, Record;
    var data: bytes := [0xF6] + text + [0];
    assert [op] + data == [op, 0xF6] + text + [0];
    TextRecord(op, text);
    WithRecord(op, data, Operand(FloatOperand, 0xF6, CStr, Text(text), |text| + 1));
  }

  lemma TextRecord(op: byte, text: bytes)
    requires forall k :: 0 <= k < |text| ==> text[k] != 0
    ensures Record(op, 0xF6, [op] + ([0xF6] + text + [0]), 2)
            == Decoded((Operand(FloatOperand, 0xF6, CStr, Text(text), |text| + 1), |text| + 3))
  {
    hide FindNul;
    var code: bytes := [op] + ([0xF6] + text + [0]);
    var end := FindNul(code, 2);
    assert |code| == |text| + 3 && code[2 + |text|] == 0;
    assert forall k :: 2 <= k < 2 + |text| ==> code[k] == text[k - 2];
    assert end == 2 + |text|;
    assert code[2..end] == text;
  }

  /** Emitting undoes decoding: whatever record is read, its value is one the compiler can
      write in that width, and written it gives the same bytes. */
  lemma RecordIsWritten(op: int, marker: int, code: bytes, pos: nat)
    requires pos <= |code| && IsMarker(marker) && Record(op, marker, code, pos).Decoded?
    ensures var (operand, next) := Record(op, marker, code, pos).value;
            InRange(WidthOf(marker), operand.value) && Data(WidthOf(marker), operand.value) == code[pos..next]
  {
    hide BigEndian, Gs2Container.U32;
    var (operand, next) := Record(op, marker, code, pos).value;
    var w, data := WidthOf(marker), code[pos..next];
    if w.CStr? {
      assert code[pos..next] == code[pos..next - 1] + [0];
    } else {
      ValueOf(data);
      U32OfBytes(data);
    }
  }

  lemma Quarters(a: byte, b: byte, c: byte, d: byte)
    ensures var n := 0x100_0000 * a + 0x1_0000 * b + 256 * c + d;
            n / 0x100_0000 == a && n / 0x1_0000 == 256 * a + b && n / 256 == 0x1_0000 * a + 256 * b + c && n % 256 == d
  {
  }

  lemma Halves(a: byte, b: byte, c: byte)
    ensures (256 * a + b) % 256 == b && (0x1_0000 * a + 256 * b + c) % 256 == c
  {
  }

  lemma U32OfBytes(b: bytes)
    ensures |b| == 4 ==>
              Gs2Container.U32(
                0x100_0000 * (b[0] as int) + 0x1_0000 * (b[1] as int) + 256 * (b[2] as int) + b[3] as int) == b
  {
    if |b| == 4 {
      Quarters(b[0], b[1], b[2], b[3]);
      Halves(b[0], b[1], b[2]);
      assert b == [b[0], b[1], b[2], b[3]];
    }
  }

  /** What no segment fills in stays empty; of a segment of an id the loader does not know the
      last payload is kept as it is. */
  lemma WhatNoSegmentSays(id: nat, payload: bytes)
    requires 4 < id < 0x1_0000_0000 && |payload| < 0x1_0000_0000
    ensures Load(Empty(), [], 0) == Ok(Container(0, [], [], [], map[], false))
    ensures Load(Empty(), [10], 0) == Ok(Container(0, [], [], [], map[], true))
    ensures Load(Empty(), SegmentBytes(Segment(id, payload)), 0)
            == Ok(Container(0, [], [], [], map[id := payload], false))
  {
    hide Load, BigEndian, Gs2Container.U32, Sits;
    var s := Segment(id, payload);
    assert SegmentsBytes([]) == [] && [s][1..] == [] && SegmentsBytes([s]) == SegmentBytes(s) + [] == SegmentBytes(s);
    assert Made([], 0, []) by { NothingSits([]); }
    assert Made([10], 0, []) by { NothingSits([10]); }
    assert Made(SegmentBytes(s), 0, [s]) by { AllSits(SegmentBytes(s)); }
    LoadFollowsSegments(Empty(), [], 0, []);
    LoadFollowsSegments(Empty(), [10], 0, []);
    LoadFollowsSegments(Empty(), SegmentBytes(s), 0, [s]);
    assert Apply(Empty(), id, payload) == Ok(Container(0, [], [], [], map[id := payload], false));
  }

  lemma NothingSits(data: bytes)
    ensures Sits(data, 0, [])
  {
  }

  lemma AllSits(data: bytes)
    ensures Sits(data, 0, data)
  {
  }
}

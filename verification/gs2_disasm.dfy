/** The GS2 instruction decoder (reborn_protocol/gs2/disasm.py). An operand is a record of
    its own behind the opcode; a record in opcode position belongs to the instruction
    before it, the last one winning. The text of a float literal stands for the number the
    loader reads from it. */
module Gs2Disasm {
  import opened Bytes
  import opened Gs2Container

  datatype OperandKind = IndexOperand | NumberOperand | FloatOperand | JumpOperand

  datatype Width = U8 | U16 | U32 | I8 | I16 | I32 | CStr | Implicit

  datatype Value = Number(n: int) | Text(text: bytes)

  datatype Operand = Operand(kind: OperandKind, marker: int, width: Width, value: Value, nbytes: nat)

  datatype Instruction = Instruction(idx: nat, offset: nat, opnum: byte, operand: Option<Operand>) {
    /** Only the last record is counted. */
    function Length(): nat {
      if operand.None? then 1
      else 1 + (if operand.value.marker < 0 then 0 else 1) + operand.value.nbytes
    }
  }

  datatype DecodeError = Truncated(at: nat) | UnterminatedFloat(at: nat)

  datatype Decoded<+T> = Decoded(value: T) | Bad(error: DecodeError)

  predicate IsMarker(b: int) { 0xF0 <= b <= 0xF6 }

  predicate JumpOp(op: int) { op in {1, 2, 3, 4, 5, 150, 163} }

  predicate IndexOp(op: int) { op in {21, 22} }

  predicate OperandOp(op: int) { op in {1, 2, 3, 4, 5, 20, 21, 22, 45, 46, 150, 163} }

  /** `_operand_kind` */
  function ImplicitKind(op: int): OperandKind {
    if JumpOp(op) then JumpOperand else if IndexOp(op) then IndexOperand else NumberOperand
  }

  function Signed(n: nat, top: nat): int { if n < top / 2 then n else n - top }

  function WidthOf(marker: int): Width {
    if marker == 0xF0 then U8
    else if marker == 0xF1 then U16
    else if marker == 0xF2 then U32
    else if marker == 0xF3 then I8
    else if marker == 0xF4 then I16
    else if marker == 0xF5 then I32
    else CStr
  }

  function Size(w: Width): nat {
    match w
    case U8 => 1
    case I8 => 1
    case U16 => 2
    case I16 => 2
    case U32 => 4
    case I32 => 4
    case CStr => 0
    case Implicit => 0
  }

  function Valued(w: Width, raw: nat): int {
    match w
    case I8 => Signed(raw, 0x100)
    case I16 => Signed(raw, 0x1_0000)
    case I32 => Signed(raw, 0x1_0000_0000)
    case _ => raw
  }

  function KindOf(op: int, w: Width): OperandKind {
    if w.CStr? then FloatOperand
    else if JumpOp(op) then JumpOperand
    else if w.I8? || w.I16? || w.I32? then NumberOperand
    else IndexOperand
  }

  /** `_parse_typed_operand`, from just past the marker; `op` is -1 when no instruction
      precedes the record. */
  function Record(op: int, marker: int, code: bytes, pos: nat): (r: Decoded<(Operand, nat)>)
    requires pos <= |code|
    ensures r.Decoded? ==> pos < r.value.1 <= |code| && r.value.1 == pos + r.value.0.nbytes
    ensures r.Decoded? ==> r.value.0.marker == marker
  {
    var w := WidthOf(marker);
    if w.CStr? then
      var end := FindNul(code, pos);
      if end == -1 then Bad(UnterminatedFloat(pos))
      else Decoded((Operand(FloatOperand, marker, w, Text(code[pos..end]), end + 1 - pos), end + 1))
    else
      var n := Size(w);
      if pos + n > |code| then Bad(Truncated(pos))
      else
        var value := Number(Valued(w, BigEndian(code[pos..pos + n])));
        Decoded((Operand(KindOf(op, w), marker, w, value, n), pos + n))
  }

  /** The operand an opcode at `pos - 1` takes at once, and where decoding goes on. */
  function Eager(op: int, code: bytes, pos: nat): (r: Decoded<(Option<Operand>, nat)>)
    requires pos <= |code|
    ensures r.Decoded? ==> pos <= r.value.1 <= |code|
    ensures r.Decoded? && OperandOp(op) ==> r.value.0.Some?
  {
    if !OperandOp(op) then Decoded((None, pos))
    else if pos == |code| || !IsMarker(code[pos]) then
      Decoded((Some(Operand(ImplicitKind(op), -1, Implicit, Number(0), 0)), pos))
    else
      var r := Record(op, code[pos], code, pos + 1);
      if r.Bad? then Bad(r.error) else Decoded((Some(r.value.0), r.value.1))
  }

  function LastOp(done: seq<Instruction>): int { if done == [] then -1 else done[|done| - 1].opnum }

  /** The last instruction with its operand overwritten. */
  function Overwritten(done: seq<Instruction>, operand: Operand): (r: seq<Instruction>)
    ensures |r| == |done|
  {
    if done == [] then done else done[|done| - 1 := done[|done| - 1].(operand := Some(operand))]
  }

  /** decode, from `pos`, after the instructions already read. */
  function Decode(code: bytes, pos: nat, done: seq<Instruction>): Decoded<seq<Instruction>>
    requires pos <= |code|
    decreases |code| - pos
  {
    if pos == |code| then Decoded(done)
    else if IsMarker(code[pos]) then
      var r := Record(LastOp(done), code[pos], code, pos + 1);
      if r.Bad? then Bad(r.error) else Decode(code, r.value.1, Overwritten(done, r.value.0))
    else
      var e := Eager(code[pos], code, pos + 1);
      if e.Bad? then Bad(e.error)
      else Decode(code, e.value.1, done + [Instruction(|done|, pos, code[pos], e.value.0)])
  }

  /** decode */
  method DecodeAll(code: bytes) returns (r: Decoded<seq<Instruction>>)
    ensures r == Decode(code, 0, [])
  {
    hide Record, Eager;
    var instrs: seq<Instruction> := [];
    var pos, idx := 0, 0;
    while pos < |code|
      invariant pos <= |code| && idx == |instrs|
      invariant Decode(code, pos, instrs) == Decode(code, 0, [])
      decreases |code| - pos
    {
      var opnum, offset := code[pos], pos;
      if IsMarker(opnum) {
        var prev := |instrs| - 1;
        var rec := Record(LastOp(instrs), opnum, code, pos + 1);
        if rec.Bad? { return Bad(rec.error); }
        pos := rec.value.1;
        if prev >= 0 {
          instrs := instrs[prev := instrs[prev].(operand := Some(rec.value.0))];
        }
        continue;
      }
      pos := pos + 1;
      var operand := Eager(opnum, code, pos);
      if operand.Bad? { return Bad(operand.error); }
      pos := operand.value.1;
      instrs := instrs + [Instruction(idx, offset, opnum, operand.value.0)];
      idx := idx + 1;
    }
    r := Decoded(instrs);
  }

  // ---------------------------------------------------------- well-formed lists

  /** What every list the decoder builds looks like, the code being read up to `pos`. */
  ghost predicate WellFormed(code: bytes, pos: nat, instrs: seq<Instruction>) {
    forall k :: 0 <= k < |instrs| ==> Placed(code, pos, instrs, k)
  }

  /** Instruction `k` carries its own number, the byte at its offset, never a marker, an
      operand if its opcode wants one, and ends no later than the next one starts. */
  ghost predicate Placed(code: bytes, pos: nat, instrs: seq<Instruction>, k: nat)
    requires k < |instrs|
  {
    var x := instrs[k];
    && x.idx == k
    && x.offset < |code| && code[x.offset] == x.opnum && !IsMarker(x.opnum)
    && (OperandOp(x.opnum) ==> x.operand.Some?)
    && x.offset + x.Length() <= if k + 1 < |instrs| then instrs[k + 1].offset else pos
  }

  lemma {:induction false} DecodeKeepsForm(code: bytes, pos: nat, done: seq<Instruction>)
    requires pos <= |code| && WellFormed(code, pos, done) && Decode(code, pos, done).Decoded?
    ensures WellFormed(code, |code|, Decode(code, pos, done).value)
    decreases |code| - pos
  {
    hide Record, Eager, WellFormed;
    if pos < |code| {
      if IsMarker(code[pos]) {
        var r := Record(LastOp(done), code[pos], code, pos + 1).value;
        OverwriteKeepsForm(code, pos, done, r.0, r.1);
        DecodeKeepsForm(code, r.1, Overwritten(done, r.0));
      } else {
        var e := Eager(code[pos], code, pos + 1).value;
        AppendKeepsForm(code, pos, done, e.0, e.1);
        DecodeKeepsForm(code, e.1, done + [Instruction(|done|, pos, code[pos], e.0)]);
      }
    } else {
      FormStretches(code, pos, |code|, done);
    }
  }

  lemma FormStretches(code: bytes, pos: nat, end: nat, instrs: seq<Instruction>)
    requires WellFormed(code, pos, instrs) && pos <= end
    ensures WellFormed(code, end, instrs)
  {
    forall k | 0 <= k < |instrs| ensures Placed(code, end, instrs, k) {
      assert Placed(code, pos, instrs, k);
    }
  }

  lemma OverwriteKeepsForm(code: bytes, pos: nat, done: seq<Instruction>, operand: Operand, next: nat)
    requires WellFormed(code, pos, done) && pos + 1 + operand.nbytes == next && operand.marker >= 0
    ensures WellFormed(code, next, Overwritten(done, operand))
  {
    var instrs := Overwritten(done, operand);
    forall k | 0 <= k < |instrs| ensures Placed(code, next, instrs, k) {
      assert Placed(code, pos, done, k);
    }
  }

  lemma AppendKeepsForm(code: bytes, pos: nat, done: seq<Instruction>, operand: Option<Operand>, next: nat)
    requires pos < |code| && WellFormed(code, pos, done) && !IsMarker(code[pos])
    requires Eager(code[pos], code, pos + 1) == Decoded((operand, next))
    ensures WellFormed(code, next, done + [Instruction(|done|, pos, code[pos], operand)])
  {
    var instrs := done + [Instruction(|done|, pos, code[pos], operand)];
    forall k | 0 <= k < |instrs| ensures Placed(code, next, instrs, k) {
      if k < |done| { assert Placed(code, pos, done, k); }
    }
  }

  /** Whatever the bytes, an accepted stream decodes to instructions that carry their own
      numbers, their opcodes and the operands their opcodes want, at offsets that increase
      by at least each one's length. */
  lemma DecodedForm(code: bytes)
    requires Decode(code, 0, []).Decoded?
    ensures var instrs := Decode(code, 0, []).value;
            WellFormed(code, |code|, instrs)
            && forall j, k :: 0 <= j < k < |instrs| ==> instrs[j].offset < instrs[k].offset
  {
    hide Decode;
    DecodeKeepsForm(code, 0, []);
    var instrs := Decode(code, 0, []).value;
    forall j, k | 0 <= j < k < |instrs| ensures instrs[j].offset < instrs[k].offset {
      Increasing(code, |code|, instrs, j, k);
    }
  }

  lemma {:induction false} Increasing(code: bytes, pos: nat, instrs: seq<Instruction>, j: nat, k: nat)
    requires WellFormed(code, pos, instrs) && j < k < |instrs|
    ensures instrs[j].offset < instrs[k].offset
    decreases k
  {
    assert Placed(code, pos, instrs, k - 1);
    if j < k - 1 { Increasing(code, pos, instrs, j, k - 1); }
  }

  // ---------------------------------------------------------- concatenation

  function Moved(i: Instruction, idx: nat, offset: nat): Instruction {
    i.(idx := i.idx + idx, offset := i.offset + offset)
  }

  function MovedAll(instrs: seq<Instruction>, idx: nat, offset: nat): seq<Instruction> {
    seq(|instrs|, k requires 0 <= k < |instrs| => Moved(instrs[k], idx, offset))
  }

  /** Records read the same inside a longer stream. */
  lemma RecordMoves(op: int, marker: int, all: bytes, base: nat, code: bytes, pos: nat)
    requires Sits(all, base, code) && pos <= |code| && Record(op, marker, code, pos).Decoded?
    ensures base + pos <= |all|
    ensures var r := Record(op, marker, code, pos).value;
            Record(op, marker, all, base + pos) == Decoded((r.0, base + r.1))
  {
    var w := WidthOf(marker);
    if w.CStr? {
      FindMoves(all, base, code, pos);
      SliceMoves(all, base, code, pos, FindNul(code, pos));
    } else {
      SliceMoves(all, base, code, pos, pos + Size(w));
    }
  }

  lemma FindMoves(all: bytes, base: nat, code: bytes, pos: nat)
    requires Sits(all, base, code) && pos <= |code| && FindNul(code, pos) != -1
    ensures base + pos <= |all| && FindNul(all, base + pos) == base + FindNul(code, pos)
  {
    var end, found := FindNul(code, pos), FindNul(all, base + pos);
    assert all[base + end] == code[end];
    assert found != -1 && found <= base + end;
    assert all[base + (found - base)] == code[found - base];
  }

  lemma SliceMoves(all: bytes, base: nat, code: bytes, i: nat, j: nat)
    requires Sits(all, base, code) && i <= j <= |code|
    ensures base + j <= |all| && all[base + i..base + j] == code[i..j]
  {
    forall k | 0 <= k < j - i ensures all[base + i..base + j][k] == code[i..j][k] {
      assert all[base + (i + k)] == code[i + k];
    }
  }

  /** No record begins at `i`. */
  predicate NoRecord(code: bytes, i: nat) { i >= |code| || !IsMarker(code[i]) }

  lemma EagerMoves(op: int, all: bytes, base: nat, code: bytes, pos: nat)
    requires Sits(all, base, code) && pos <= |code| && Eager(op, code, pos).Decoded?
    requires pos < |code| || NoRecord(all, base + pos)
    ensures base + pos <= |all|
    ensures var r := Eager(op, code, pos).value;
            Eager(op, all, base + pos) == Decoded((r.0, base + r.1))
  {
    hide Record;
    if OperandOp(op) && pos < |code| {
      assert all[base + pos] == code[pos];
      if IsMarker(code[pos]) { RecordMoves(op, code[pos], all, base, code, pos + 1); }
    }
  }

  lemma OverwriteMoves(done: seq<Instruction>, own: seq<Instruction>, operand: Operand, offset: nat)
    requires own != [] || done == []
    ensures LastOp(done + MovedAll(own, |done|, offset)) == LastOp(own)
    ensures Overwritten(done + MovedAll(own, |done|, offset), operand)
         == done + MovedAll(Overwritten(own, operand), |done|, offset)
  {
  }

  lemma AppendMoves(done: seq<Instruction>, own: seq<Instruction>, x: Instruction, offset: nat)
    requires x.idx == |own|
    ensures var joined := done + MovedAll(own, |done|, offset);
            joined + [Instruction(|joined|, offset + x.offset, x.opnum, x.operand)] ==
              done + MovedAll(own + [x], |done|, offset)
  {
  }

  lemma RecordTaken(code: bytes, pos: nat, done: seq<Instruction>, operand: Operand, next: nat)
    requires pos < |code| && IsMarker(code[pos])
    requires Record(LastOp(done), code[pos], code, pos + 1) == Decoded((operand, next))
    ensures Decode(code, pos, done) == Decode(code, next, Overwritten(done, operand))
  {
    hide Record, Overwritten;
  }

  lemma OpTaken(code: bytes, pos: nat, done: seq<Instruction>, operand: Option<Operand>, next: nat)
    requires pos < |code| && !IsMarker(code[pos])
    requires Eager(code[pos], code, pos + 1) == Decoded((operand, next))
    ensures Decode(code, pos, done)
         == Decode(code, next, done + [Instruction(|done|, pos, code[pos], operand)])
  {
    hide Eager;
  }

  lemma EagerAtEnd(op: int, code: bytes)
    ensures Eager(op, code, |code|).Decoded? && Eager(op, code, |code|).value.1 == |code|
    ensures OperandOp(op) || Eager(op, code, |code|).value.0 == None
  {
  }

  /** An opcode just before a record: whether its own read takes the record or the main
      loop does afterwards, the record becomes its operand. */
  lemma OpAtSeam(code: bytes, pos: nat, done: seq<Instruction>, operand: Option<Operand>)
    requires pos + 1 < |code| && !IsMarker(code[pos]) && IsMarker(code[pos + 1])
    requires OperandOp(code[pos]) || operand == None
    ensures Decode(code, pos, done) ==
              Decode(code, pos + 1, done + [Instruction(|done|, pos, code[pos], operand)])
  {
    hide Record;
    var op := code[pos];
    var x := Instruction(|done|, pos, op, operand);
    assert LastOp(done + [x]) == op;
    var r := Record(op, code[pos + 1], code, pos + 2);
    if OperandOp(op) && r.Decoded? {
      assert Overwritten(done + [x], r.value.0) == done + [x.(operand := Some(r.value.0))];
    }
  }

  /** Decoding a stretch of code inside a longer one: its instructions, moved, join those
      already read. */
  lemma {:induction false} DecodeInside(
    all: bytes, base: nat, code: bytes, pos: nat, done: seq<Instruction>, own: seq<Instruction>)
    requires Sits(all, base, code) && pos <= |code| && Decode(code, pos, own).Decoded?
    requires own != [] || done == [] || NoRecord(code, pos)
    ensures base + |code| <= |all|
    ensures Decode(all, base + pos, done + MovedAll(own, |done|, base))
         == Decode(all, base + |code|, done + MovedAll(Decode(code, pos, own).value, |done|, base))
    decreases |code| - pos
  {
    hide Record, Eager, MovedAll, Overwritten, LastOp, Decode, Sits, IsMarker;
    SitsInside(all, base, code);
    if pos == |code| {
      EndOfDecode(code, own);
    } else {
      var joined := done + MovedAll(own, |done|, base);
      ByteInside(all, base, code, pos);
      Continues(code, pos, own);
      if IsMarker(code[pos]) {
        var r := Record(LastOp(own), code[pos], code, pos + 1).value;
        OverwriteMoves(done, own, r.0, base);
        RecordMoves(LastOp(own), code[pos], all, base, code, pos + 1);
        RecordTaken(all, base + pos, joined, r.0, base + r.1);
        KeepsFirst(own, r.0);
        DecodeInside(all, base, code, r.1, done, Overwritten(own, r.0));
      } else {
        var e := Eager(code[pos], code, pos + 1).value;
        var x := Instruction(|own|, pos, code[pos], e.0);
        AppendMoves(done, own, x, base);
        DecodeInside(all, base, code, e.1, done, own + [x]);
        if pos + 1 < |code| || NoRecord(all, base + pos + 1) {
          EagerMoves(code[pos], all, base, code, pos + 1);
          OpTaken(all, base + pos, joined, e.0, base + e.1);
        } else {
          EagerAtEnd(code[pos], code);
          OpAtSeam(all, base + pos, joined, e.0);
        }
      }
    }
  }

  lemma EndOfDecode(code: bytes, done: seq<Instruction>)
    ensures Decode(code, |code|, done) == Decoded(done)
  {
  }

  lemma ByteInside(all: bytes, base: nat, code: bytes, pos: nat)
    requires Sits(all, base, code) && pos < |code|
    ensures base + pos < |all| && all[base + pos] == code[pos]
  {
  }

  /** One round of decode on a stream that decodes. */
  lemma Continues(code: bytes, pos: nat, own: seq<Instruction>)
    requires pos < |code| && Decode(code, pos, own).Decoded?
    ensures
      if IsMarker(code[pos]) then
        var r := Record(LastOp(own), code[pos], code, pos + 1);
        r.Decoded? && Decode(code, pos, own) == Decode(code, r.value.1, Overwritten(own, r.value.0))
      else
        var e := Eager(code[pos], code, pos + 1);
        e.Decoded? && Decode(code, pos, own) ==
          Decode(code, e.value.1, own + [Instruction(|own|, pos, code[pos], e.value.0)])
  {
    hide Record, Eager, Overwritten;
  }

  lemma KeepsFirst(own: seq<Instruction>, operand: Operand)
    ensures Overwritten(own, operand) == [] <==> own == []
  {
  }

  /** The records in front of any instruction, from `pos` on, read under opcode `op`: the
      last one's operand, and where they end. */
  function Leading(op: int, code: bytes, pos: nat, last: Option<Operand>): (r: (Option<Operand>, nat))
    requires pos <= |code|
    ensures pos <= r.1 <= |code| && (last.Some? ==> r.0.Some?)
    decreases |code| - pos
  {
    if NoRecord(code, pos) then (last, pos)
    else
      var r := Record(op, code[pos], code, pos + 1);
      if r.Bad? then (last, pos) else Leading(op, code, r.value.1, Some(r.value.0))
  }

  /** The last operand of a list overwritten, if there is anything to overwrite it with. */
  function Patched(done: seq<Instruction>, last: Option<Operand>): seq<Instruction> {
    if last.None? then done else Overwritten(done, last.value)
  }

  lemma PatchTwice(done: seq<Instruction>, first: Operand, second: Operand)
    ensures Overwritten(Overwritten(done, first), second) == Overwritten(done, second)
    ensures LastOp(Overwritten(done, first)) == LastOp(done)
  {
  }

  /** Whatever opcode the records in front are read under, they end at the same place. */
  lemma SameRecordEnd(op: int, other: int, marker: int, code: bytes, pos: nat)
    requires pos <= |code|
    ensures var r, q := Record(op, marker, code, pos), Record(other, marker, code, pos);
            (r.Decoded? <==> q.Decoded?) && (r.Decoded? ==> r.value.1 == q.value.1)
  {
  }

  /** Decoding a stream inside a longer one from its leading records on: they overwrite
      the last operand read so far, and the instructions behind them follow, moved. */
  lemma {:induction false} LeadingTaken(
    all: bytes, base: nat, code: bytes, pos: nat, done: seq<Instruction>, last: Option<Operand>)
    requires Sits(all, base, code) && pos <= |code| && Decode(code, pos, []).Decoded?
    ensures base + |code| <= |all|
    ensures Decode(all, base + pos, Patched(done, last))
         == Decode(all, base + |code|,
              Patched(done, Leading(LastOp(done), code, pos, last).0)
                + MovedAll(Decode(code, pos, []).value, |done|, base))
    decreases |code| - pos
  {
    hide Record, Eager, MovedAll, Overwritten, LastOp, Decode, Sits, IsMarker;
    SitsInside(all, base, code);
    var now := Patched(done, last);
    if NoRecord(code, pos) {
      DecodeInside(all, base, code, pos, now, []);
      assert now + MovedAll([], |now|, base) == now by { NothingMoved(|now|, base); }
    } else {
      ByteInside(all, base, code, pos);
      Continues(code, pos, []);
      SameRecordEnd(LastOp([]), LastOp(done), code[pos], code, pos + 1);
      var r := Record(LastOp(done), code[pos], code, pos + 1).value;
      RecordMoves(LastOp(done), code[pos], all, base, code, pos + 1);
      if last.Some? { PatchTwice(done, last.value, r.0); }
      RecordTaken(all, base + pos, now, r.0, base + r.1);
      KeepsFirst([], Record(LastOp([]), code[pos], code, pos + 1).value.0);
      LeadingTaken(all, base, code, r.1, done, Some(r.0));
    }
  }

  lemma NothingMoved(idx: nat, offset: nat)
    ensures MovedAll([], idx, offset) == []
  {
  }

  /** Decoding two streams in a row is decoding each, the second one's numbers and offsets
      moved behind the first, but for the records in front of the second: the last of them
      becomes the operand of the first one's last instruction. */
  lemma DecodeOfConcat(a: bytes, b: bytes)
    requires Decode(a, 0, []).Decoded? && Decode(b, 0, []).Decoded?
    ensures var first := Decode(a, 0, []).value;
            Decode(a + b, 0, []) ==
              Decoded(Patched(first, Leading(LastOp(first), b, 0, None).0)
                        + MovedAll(Decode(b, 0, []).value, |first|, |a|))
  {
    hide Decode, IsMarker, Leading, MovedAll;
    var all, first := a + b, Decode(a, 0, []).value;
    EndOfDecode(all, Patched(first, Leading(LastOp(first), b, 0, None).0)
                       + MovedAll(Decode(b, 0, []).value, |first|, |a|));
    NothingMoved(0, 0);
    MovedNowhere(first);
    assert [] + MovedAll([], 0, 0) == [] && [] + MovedAll(first, 0, 0) == first;
    DecodeInside(all, 0, a, 0, [], []);
    LeadingTaken(all, |a|, b, 0, first, None);
  }

  lemma MovedNowhere(instrs: seq<Instruction>)
    ensures MovedAll(instrs, 0, 0) == instrs
  {
  }

  /** So it is exactly decoding each when no record stands in front of the second stream,
      or there is no instruction before it, or the last such record repeats the operand
      that is there already. */
  lemma ConcatIsBothIff(a: bytes, b: bytes)
    requires Decode(a, 0, []).Decoded? && Decode(b, 0, []).Decoded?
    ensures var first, second := Decode(a, 0, []).value, Decode(b, 0, []).value;
            Decode(a + b, 0, []) == Decoded(first + MovedAll(second, |first|, |a|)) <==>
              (NoRecord(b, 0) || first == []
               || Leading(LastOp(first), b, 0, None).0 == first[|first| - 1].operand)
  {
    hide Decode, MovedAll;
    DecodeOfConcat(a, b);
    var first, second := Decode(a, 0, []).value, Decode(b, 0, []).value;
    var moved := MovedAll(second, |first|, |a|);
    LeadingSome(LastOp(first), b);
    SameTail(Patched(first, Leading(LastOp(first), b, 0, None).0), first, moved);
  }

  lemma LeadingSome(op: int, code: bytes)
    requires Decode(code, 0, []).Decoded?
    ensures Leading(op, code, 0, None).0.Some? <==> !NoRecord(code, 0)
  {
    hide Record;
    if !NoRecord(code, 0) {
      Continues(code, 0, []);
      SameRecordEnd(LastOp([]), op, code[0], code, 1);
    }
  }

  lemma SameTail(x: seq<Instruction>, y: seq<Instruction>, z: seq<Instruction>)
    requires |x| == |y|
    ensures x + z == y + z <==> x == y
  {
    if x + z == y + z { assert x == (x + z)[..|x|] == (y + z)[..|y|] == y; }
  }

  /** Else it is not: a record at the front of the second stream
      becomes the operand of the first one's last instruction. */
  lemma RecordsReachBack()
    ensures var a: bytes, b: bytes := [7], [0xF0, 5];
            && Decode(a, 0, []) == Decoded([Instruction(0, 0, 7, None)]) && Decode(b, 0, []) == Decoded([])
            && Decode(a + b, 0, []).Decoded?
            && Decode(a + b, 0, []).value != Decode(a, 0, []).value + MovedAll(Decode(b, 0, []).value, 1, 1)
  {
    var a: bytes, b: bytes := [7], [0xF0, 5];
    var x := Instruction(0, 0, 7, None);
    assert [] + [x] == [x];
    OpTaken(a, 0, [], None, 1);
    var r := Record(-1, 0xF0, b, 1).value;
    RecordTaken(b, 0, [], r.0, 2);
    var all := a + b;
    assert all == [7, 0xF0, 5];
    OpTaken(all, 0, [], None, 1);
    var q := Record(7, 0xF0, all, 2).value;
    RecordTaken(all, 1, [x], q.0, 3);
    assert Decode(all, 0, []) == Decoded(Overwritten([x], q.0));
    assert Overwritten([x], q.0)[0].operand == Some(q.0);
    assert ([x] + MovedAll([], 1, 1))[0].operand == None;
  }

  // ---------------------------------------------------------- emitting

  /** An instruction as the compiler writes it: an opcode and at most one record. */
  datatype Source = Source(opnum: byte, record: Option<SourceRecord>)

  datatype SourceRecord = SourceRecord(marker: byte, value: Value)

  predicate InRange(w: Width, v: Value) {
    match w
    case U8 => v.Number? && 0 <= v.n < 0x100
    case U16 => v.Number? && 0 <= v.n < 0x1_0000
    case U32 => v.Number? && 0 <= v.n < 0x1_0000_0000
    case I8 => v.Number? && -0x80 <= v.n < 0x80
    case I16 => v.Number? && -0x8000 <= v.n < 0x8000
    case I32 => v.Number? && -0x8000_0000 <= v.n < 0x8000_0000
    case CStr => v.Text? && NulFree(v.text)
    case Implicit => false
  }

  predicate Writable(s: Source) {
    && !IsMarker(s.opnum)
    && (s.record.Some? ==> IsMarker(s.record.value.marker)
                           && InRange(WidthOf(s.record.value.marker), s.record.value.value))
  }

  function Unsigned(n: int, top: nat): int { if n < 0 then n + top else n }

  /** The data of a record behind its marker. */
  function Data(w: Width, v: Value): bytes
    requires InRange(w, v)
  {
    if w.CStr? then v.text + [0]
    else if Size(w) == 1 then [Unsigned(v.n, 0x100)]
    else if Size(w) == 2 then
      var n := Unsigned(v.n, 0x1_0000);
      [n / 256, n % 256]
    else Gs2Container.U32(Unsigned(v.n, 0x1_0000_0000))
  }

  function EmitOne(s: Source): bytes
    requires Writable(s)
  {
    [s.opnum] +
      if s.record.None? then []
      else [s.record.value.marker] + Data(WidthOf(s.record.value.marker), s.record.value.value)
  }

  /** The operand that should come back. */
  function Loaded(s: Source): Option<Operand>
    requires Writable(s)
  {
    if s.record.Some? then
      var w, v := WidthOf(s.record.value.marker), s.record.value.value;
      Some(Operand(KindOf(s.opnum, w), s.record.value.marker, w, v, |Data(w, v)|))
    else if OperandOp(s.opnum) then Some(Operand(ImplicitKind(s.opnum), -1, Implicit, Number(0), 0))
    else None
  }

  function EmitAll(ss: seq<Source>): bytes
    requires forall k :: 0 <= k < |ss| ==> Writable(ss[k])
  {
    if ss == [] then [] else EmitAll(ss[..|ss| - 1]) + EmitOne(ss[|ss| - 1])
  }

  function LoadedAll(ss: seq<Source>): seq<Instruction>
    requires forall k :: 0 <= k < |ss| ==> Writable(ss[k])
  {
    if ss == [] then []
    else
      var n := |ss| - 1;
      LoadedAll(ss[..n]) + [Instruction(n, |EmitAll(ss[..n])|, ss[n].opnum, Loaded(ss[n]))]
  }

  lemma TwoBytes(b: bytes)
    requires |b| == 2
    ensures BigEndian(b) == (b[0] as int) * 256 + (b[1] as int)
  {
    assert b[..1][..0] == [];
    assert BigEndian(b[..1]) == b[0] as int;
  }

  lemma DataReadsBack(op: int, marker: byte, v: Value, code: bytes, pos: nat)
    requires IsMarker(marker) && InRange(WidthOf(marker), v) && Sits(code, pos, Data(WidthOf(marker), v))
    ensures pos <= |code|
    ensures var w := WidthOf(marker);
            Record(op, marker, code, pos) ==
              Decoded((Operand(KindOf(op, w), marker, w, v, |Data(w, v)|), pos + |Data(w, v)|))
  {
    hide BigEndian, Gs2Container.U32, Sits;
    var w := WidthOf(marker);
    var data := Data(w, v);
    SitsInside(code, pos, data);
    SitsSlice(code, pos, data);
    if w.CStr? {
      CStrReadsBack(code, pos, v.text);
    } else {
      NumberReadsBack(w, v);
    }
  }

  lemma NumberReadsBack(w: Width, v: Value)
    requires InRange(w, v) && !w.CStr?
    ensures |Data(w, v)| == Size(w) && Valued(w, BigEndian(Data(w, v))) == v.n
  {
    hide Gs2Container.U32;
    if Size(w) == 1 {
      assert Data(w, v)[..0] == [];
    } else if Size(w) == 2 {
      TwoBytes(Data(w, v));
    } else {
      U32ReadsBack(Unsigned(v.n, 0x1_0000_0000));
    }
  }

  lemma OneLoads(s: Source)
    requires Writable(s)
    ensures Decode(EmitOne(s), 0, []) == Decoded([Instruction(0, 0, s.opnum, Loaded(s))])
    ensures NoRecord(EmitOne(s), 0)
  {
    hide Record, Data;
    var code := EmitOne(s);
    var x := Instruction(0, 0, s.opnum, None);
    assert [] + [x] == [x];
    if s.record.None? {
      OpTaken(code, 0, [], Loaded(s), 1);
      assert [] + [Instruction(0, 0, s.opnum, Loaded(s))] == [Instruction(0, 0, s.opnum, Loaded(s))];
    } else {
      var m, v := s.record.value.marker, s.record.value.value;
      var data := Data(WidthOf(m), v);
      assert code[0] == s.opnum && code[1] == m;
      assert Sits(code, 2, data);
      DataReadsBack(s.opnum, m, v, code, 2);
      if OperandOp(s.opnum) {
        OpTaken(code, 0, [], Loaded(s), |code|);
        assert [] + [Instruction(0, 0, s.opnum, Loaded(s))] == [Instruction(0, 0, s.opnum, Loaded(s))];
      } else {
        OpTaken(code, 0, [], None, 1);
        RecordTaken(code, 1, [x], Loaded(s).value, |code|);
        assert Overwritten([x], Loaded(s).value) == [Instruction(0, 0, s.opnum, Loaded(s))];
      }
    }
  }

  /** Decoding undoes emitting, with at most one record an instruction; the offsets are then
      exactly where each instruction was written. */
  lemma {:induction false} DecodingUndoesEmitting(ss: seq<Source>)
    requires forall k :: 0 <= k < |ss| ==> Writable(ss[k])
    ensures Decode(EmitAll(ss), 0, []) == Decoded(LoadedAll(ss))
    ensures |LoadedAll(ss)| == |ss|
    decreases |ss|
  {
    hide Decode, Loaded, EmitOne;
    if ss == [] {
      EmptyDecodes();
    } else {
      var n := |ss| - 1;
      var a, b := EmitAll(ss[..n]), EmitOne(ss[n]);
      DecodingUndoesEmitting(ss[..n]);
      OneLoads(ss[n]);
      DecodeOfConcat(a, b);
      var x := Instruction(0, 0, ss[n].opnum, Loaded(ss[n]));
      assert MovedAll([x], n, |a|) == [Instruction(n, |a|, ss[n].opnum, Loaded(ss[n]))];
    }
  }

  lemma EmptyDecodes()
    ensures Decode([], 0, []) == Decoded([])
  {
  }

  /** The lengths of emitted instructions tile the code. */
  lemma EmittedLengthsTile(ss: seq<Source>, k: nat)
    requires (forall j :: 0 <= j < |ss| ==> Writable(ss[j])) && k < |ss|
    ensures |LoadedAll(ss)| == |ss|
    ensures var x := LoadedAll(ss)[k];
            x.offset == |EmitAll(ss[..k])| && x.offset + x.Length() == |EmitAll(ss[..k + 1])|
    decreases |ss|
  {
    hide Loaded, EmitOne;
    var n := |ss| - 1;
    DecodingUndoesEmitting(ss);
    DecodingUndoesEmitting(ss[..n]);
    if k < n {
      EmittedLengthsTile(ss[..n], k);
      assert ss[..n][..k] == ss[..k] && ss[..n][..k + 1] == ss[..k + 1];
    } else {
      assert ss[..k + 1] == ss;
      LoadedLength(ss[n]);
    }
  }

  lemma LoadedLength(s: Source)
    requires Writable(s)
    ensures Instruction(0, 0, s.opnum, Loaded(s)).Length() == |EmitOne(s)|
  {
  }

  /** The whole way: a container whose code the compiler wrote loads to itself, and its code
      decodes to the instructions that were written. */
  lemma LoadingUndoesCompiling(c: Container, ss: seq<Source>)
    requires Emittable(c) && (forall k :: 0 <= k < |ss| ==> Writable(ss[k])) && c.code == EmitAll(ss)
    ensures Load(Empty(), Emit(c), 0) == Ok(c)
    ensures Decode(Load(Empty(), Emit(c), 0).value.code, 0, []) == Decoded(LoadedAll(ss))
  {
    hide Load, Decode, EmitAll, Emittable;
    LoadingUndoesEmitting(c);
    DecodingUndoesEmitting(ss);
  }
}

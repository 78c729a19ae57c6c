/** The ENCRYPT_GEN_5 cipher (reborn_protocol/encryption.py): an LCG whose state both peers
    must advance in step, and the choice of compression. */
module Cipher {
  import opened Bytes

  const INITIAL_ITERATOR: int := 0x4A80B38
  const MULTIPLIER: int := 0x8088405
  const TWO_32: int := 0x1_0000_0000

  const UNCOMPRESSED: byte := 2
  const ZLIB: byte := 4
  const BZ2: byte := 6

  /** `limit` counts 4-byte groups still to encrypt; negative is all of them. */
  datatype State = State(key: int, lcg: int, limit: int)

  function Fresh(key: int): State { State(key, INITIAL_ITERATOR, -1) }

  function LimitFromType(s: State, kind: int): State {
    if kind == UNCOMPRESSED then s.(limit := 12)
    else if kind == ZLIB || kind == BZ2 then s.(limit := 4)
    else s
  }

  function Advance(key: int, lcg: int): int { (lcg * MULTIPLIER + key) % TWO_32 }

  /** The LCG after `n` advances. */
  function Iterated(key: int, lcg: int, n: nat): int {
    if n == 0 then lcg else Advance(key, Iterated(key, lcg, n - 1))
  }

  /** Byte `j` of the little-endian packed iterator. */
  function PackedByte(lcg: int, j: nat): byte
    requires j < 4
  {
    (if j == 0 then lcg else if j == 1 then lcg / 0x100
     else if j == 2 then lcg / 0x1_0000 else lcg / 0x100_0000) % 256
  }

  function KeyByte(s: State, i: nat): byte {
    PackedByte(Iterated(s.key, s.lcg, i / 4 + 1), i % 4)
  }

  /** How many leading bytes the limit lets the cipher touch. */
  function Covered(s: State, n: nat): nat {
    if s.limit < 0 then n else Min(n, 4 * s.limit)
  }

  function Crypt(s: State, data: bytes): (r: bytes)
    ensures |r| == |data|
  {
    seq(|data|, i requires 0 <= i < |data| =>
      if i < Covered(s, |data|) then Xor(data[i], KeyByte(s, i)) else data[i])
  }

  /** The state after `n` bytes went through: it does not depend on what they were. */
  function After(s: State, n: nat): State {
    var groups := (Covered(s, n) + 3) / 4;
    s.(lcg := Iterated(s.key, s.lcg, groups),
       limit := if s.limit > 0 then s.limit - groups else s.limit)
  }

  lemma CryptTwice(s: State, data: bytes)
    ensures Crypt(s, Crypt(s, data)) == data
  {
    forall i | 0 <= i < |data| ensures Crypt(s, Crypt(s, data))[i] == data[i] {
      if i < Covered(s, |data|) { XorTwice(data[i], KeyByte(s, i)); }
    }
  }

  /** Only key and iterator (`lcg`) have to agree for two peers to stay in step: the limit is
      armed again for each packet. */
  predicate InStep(a: State, b: State) { a.key == b.key && a.lcg == b.lcg }

  class RebornEncryption {
    var key: int
    var lcg: int
    var limit: int

    function Current(): State
      reads this
    {
      State(key, lcg, limit)
    }

    constructor (key: int)
      ensures Current() == Fresh(key)
    {
      this.key, lcg, limit := key, INITIAL_ITERATOR, -1;
    }

    method Reset(key: int)
      modifies this
      ensures Current() == Fresh(key)
    {
      this.key, lcg, limit := key, INITIAL_ITERATOR, -1;
    }

    method ArmLimit(kind: int)
      modifies this
      ensures Current() == LimitFromType(old(Current()), kind)
    {
      if kind == UNCOMPRESSED {
        limit := 0x0C;
      } else if kind == ZLIB {
        limit := 0x04;
      } else if kind == BZ2 {
        limit := 0x04;
      }
    }

    /** XOR in place over a copy of the data, one LCG advance every four bytes. */
    method Encrypt(data: bytes) returns (result: bytes)
      modifies this
      ensures result == Crypt(old(Current()), data)
      ensures Current() == After(old(Current()), |data|)
    {
      ghost var start := Current();
      var buffer := new byte[|data|](i requires 0 <= i < |data| => data[i]);
      assert buffer[..] == data;
      var count := |data|;
      if limit == 0 {
        assert Crypt(start, data) == data;
        return buffer[..];
      } else if limit > 0 {
        count := Min(|data|, limit * 4);
      }
      var packed := 0;
      for i := 0 to count
        invariant count == Covered(start, |data|) <= |data|
        invariant key == start.key
        invariant lcg == Iterated(key, start.lcg, (i + 3) / 4)
        invariant limit == if start.limit > 0 then start.limit - (i + 3) / 4 else start.limit
        invariant i % 4 != 0 ==> packed == lcg
        invariant forall j :: 0 <= j < i ==> buffer[j] == Xor(data[j], KeyByte(start, j))
        invariant forall j :: i <= j < |data| ==> buffer[j] == data[j]
      {
        if i % 4 == 0 {
          lcg := (lcg * MULTIPLIER + key) % TWO_32;
          if limit > 0 {
            limit := limit - 1;
          }
          packed := lcg;
        }
        buffer[i] := Xor(buffer[i], PackedByte(packed, i % 4));
      }
      result := buffer[..];
    }
  }
}

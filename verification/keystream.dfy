/** What the cipher's keystream is, in numbers: the words of a fixed LCG, spelled low byte
    first, over as many bytes as the compression allows (reborn_protocol/encryption.py). */
module Keystream {
  import opened Bytes
  import opened Cipher

  /** The little-endian word at group `k`. */
  function Word(data: bytes, k: nat): int
    requires 4 * k + 4 <= |data|
  {
    var a: int, b: int, c: int, d: int := data[4 * k], data[4 * k + 1], data[4 * k + 2], data[4 * k + 3];
    a + 256 * b + 65536 * c + 16777216 * d
  }

  function Zeros(n: nat): (r: bytes)
    ensures |r| == n
  {
    seq(n, _ => 0)
  }

  lemma PackedBytesSpell(lcg: int)
    requires 0 <= lcg < 0x1_0000_0000
    ensures PackedByte(lcg, 0) + 256 * PackedByte(lcg, 1) + 65536 * PackedByte(lcg, 2)
            + 16777216 * PackedByte(lcg, 3) == lcg
  {
    assert lcg / 0x1_0000 == lcg / 0x100 / 0x100 && lcg / 0x100_0000 == lcg / 0x1_0000 / 0x100;
    assert lcg / 0x100_0000 < 0x100;
  }

  /** Bit `j`, the lowest first. */
  predicate Bit(a: nat, j: nat) { if j == 0 then Odd(a) else Bit(a / 2, j - 1) }

  /** Bit `j` of an exclusive or is set exactly when the two bits differ. */
  lemma {:induction false} XorBitsAt(a: nat, b: nat, n: nat, j: nat)
    requires j < n
    ensures Bit(XorBits(a, b, n), j) <==> Bit(a, j) != Bit(b, j)
    decreases n
  {
    var half := XorBits(a / 2, b / 2, n - 1);
    var x := XorBits(a, b, n);
    assert x / 2 == half && Odd(x) == (Odd(a) != Odd(b));
    if j > 0 { XorBitsAt(a / 2, b / 2, n - 1, j - 1); }
  }

  lemma {:induction false} XorZero(k: nat, n: nat)
    requires k < Pow2(n)
    ensures XorBits(0, k, n) == k
  {
    if n > 0 { XorZero(k / 2, n - 1); }
  }

  lemma {:induction false} WordsStay(key: int, n: nat)
    ensures 0 <= Iterated(key, 0x4A80B38, n) < 0x1_0000_0000
  {
    if n > 0 { WordsStay(key, n - 1); }
  }

  lemma ZeroByte(s: State, n: nat, i: nat)
    requires i < n && s.limit < 0
    ensures Crypt(s, Zeros(n))[i] == KeyByte(s, i)
  {
    Pow2Eight();
    XorZero(KeyByte(s, i), 8);
  }

  /** Zero bytes sent through a fresh cipher come out as the orbit of the generator. */
  lemma KeystreamIsOrbit(key: int, n: nat, k: nat)
    requires k < n
    ensures var sent := Crypt(Fresh(key), Zeros(4 * n));
            Word(sent, k) ==
              ((if k == 0 then 0x4A80B38 else Word(sent, k - 1)) * 0x8088405 + key) % 0x1_0000_0000
  {
    hide Word, Crypt, Fresh;
    WordIs(key, n, k);
    if k > 0 { WordIs(key, n, k - 1); }
  }

  lemma WordIs(key: int, n: nat, k: nat)
    requires k < n
    ensures Word(Crypt(Fresh(key), Zeros(4 * n)), k) == Iterated(key, 0x4A80B38, k + 1)
  {
    hide PackedByte, Iterated, Crypt;
    var s := Fresh(key);
    ZeroByte(s, 4 * n, 4 * k);
    ZeroByte(s, 4 * n, 4 * k + 1);
    ZeroByte(s, 4 * n, 4 * k + 2);
    ZeroByte(s, 4 * n, 4 * k + 3);
    WordsStay(key, k + 1);
    PackedBytesSpell(Iterated(key, 0x4A80B38, k + 1));
  }

  /** How much of a packet is encrypted, by the type byte in front of it: 48 bytes of a plain
      one, 16 of a compressed one. Every bit there is flipped or not as the keystream, the
      same for all types, says; every later byte goes through as it is. */
  lemma TypeDecidesReach(s: State, kind: int, data: bytes, i: nat, j: nat)
    requires kind in {2, 4, 6} && i < |data| && j < 8
    ensures var sent := Crypt(LimitFromType(s, kind), data);
            var stream := Crypt(s.(limit := -1), Zeros(|data|));
            if i < (if kind == 2 then 48 else 16)
            then Bit(sent[i], j) <==> Bit(data[i], j) != Bit(stream[i], j)
            else sent[i] == data[i]
  {
    hide KeyByte;
    ZeroByte(s.(limit := -1), |data|, i);
    KeyByteAlike(s, LimitFromType(s, kind), i);
    KeyByteAlike(s, s.(limit := -1), i);
    XorBitsAt(data[i], KeyByte(s, i), 8, j);
  }

  lemma KeyByteAlike(s: State, t: State, i: nat)
    requires s.key == t.key && s.lcg == t.lcg
    ensures KeyByte(s, i) == KeyByte(t, i)
  {
  }

  /** The next packet continues the stream at the next whole group of four behind what was
      encrypted of this one: the rest of the last group is thrown away, and the bytes beyond
      the type's reach used up nothing. */
  lemma StreamContinues(s: State, kind: int, n: nat, skip: nat, b: bytes)
    requires kind in {2, 4, 6}
    requires skip % 4 == 0 && var used := Min(n, if kind == 2 then 48 else 16); used <= skip < used + 4
    ensures Crypt(After(LimitFromType(s, kind), n).(limit := -1), b) ==
            Crypt(s.(limit := -1), Zeros(skip) + b)[skip..]
  {
    hide KeyByte, After;
    var t, whole := After(LimitFromType(s, kind), n).(limit := -1), Zeros(skip) + b;
    var all := s.(limit := -1);
    forall i | 0 <= i < |b| ensures Crypt(t, b)[i] == Crypt(all, whole)[skip + i] {
      NextKeyByte(s, kind, n, skip, i);
      assert whole[skip + i] == b[i];
    }
  }

  lemma NextKeyByte(s: State, kind: int, n: nat, skip: nat, i: nat)
    requires kind in {2, 4, 6}
    requires skip % 4 == 0 && var used := Min(n, if kind == 2 then 48 else 16); used <= skip < used + 4
    ensures KeyByte(After(LimitFromType(s, kind), n).(limit := -1), i) == KeyByte(s.(limit := -1), skip + i)
  {
    hide PackedByte;
    IteratedFurther(s.key, s.lcg, skip / 4, i / 4 + 1);
    assert (skip + i) / 4 == skip / 4 + i / 4 && (skip + i) % 4 == i % 4;
  }

  lemma {:induction false} IteratedFurther(key: int, lcg: int, m: nat, n: nat)
    ensures Iterated(key, Iterated(key, lcg, m), n) == Iterated(key, lcg, m + n)
    decreases n
  {
    if n > 0 { IteratedFurther(key, lcg, m, n - 1); }
  }

  /** The letter A, alone in the first packet under key 0, goes out as 0x59. */
  lemma FirstLetter()
    ensures Crypt(LimitFromType(Fresh(0), 2), [0x41]) == [0x59]
  {
    var s := LimitFromType(Fresh(0), 2);
    assert Iterated(0, INITIAL_ITERATOR, 1) == 0xD6D11818 by {
      assert Iterated(0, INITIAL_ITERATOR, 0) == INITIAL_ITERATOR;
    }
    assert KeyByte(s, 0) == 0x18;
    Pow2Eight();
    assert XorBits(0x41 / 16, 0x18 / 16, 4) == 5;
    assert XorBits(0x41, 0x18, 8) == 0x59;
  }
}

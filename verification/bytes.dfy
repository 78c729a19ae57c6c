/** Bytes as integers, with the one bitwise operation the wire format needs. */
module Bytes {

  type byte = x: int | 0 <= x < 256

  type bytes = seq<byte>

  datatype Option<+T> = None | Some(value: T)

  function Pow2(n: nat): nat { if n == 0 then 1 else 2 * Pow2(n - 1) }

  predicate Odd(a: nat) { a % 2 == 1 }

  /** Exclusive or of the low `n` bits. */
  function XorBits(a: nat, b: nat, n: nat): (r: nat)
    ensures r < Pow2(n)
  {
    if n == 0 then 0
    else 2 * XorBits(a / 2, b / 2, n - 1) + (if Odd(a) != Odd(b) then 1 else 0)
  }

  lemma {:induction false} XorBitsTwice(a: nat, k: nat, n: nat)
    requires a < Pow2(n)
    ensures XorBits(XorBits(a, k, n), k, n) == a
  {
    if n > 0 {
      XorBitsTwice(a / 2, k / 2, n - 1);
      var half, x := XorBits(a / 2, k / 2, n - 1), XorBits(a, k, n);
      assert x / 2 == half && Odd(x) == (Odd(a) != Odd(k));
      assert a == 2 * (a / 2) + (if Odd(a) then 1 else 0);
    }
  }

  lemma Pow2Eight()
    ensures Pow2(8) == 256
  {
    assert Pow2(4) == 16;
  }

  function Xor(a: byte, b: byte): byte {
    Pow2Eight();
    XorBits(a, b, 8)
  }

  lemma XorTwice(a: byte, k: byte)
    ensures Xor(Xor(a, k), k) == a
  {
    Pow2Eight();
    XorBitsTwice(a, k, 8);
  }

  function Min(a: int, b: int): int { if a <= b then a else b }

  function Max(a: int, b: int): int { if a >= b then a else b }

  function Concat(parts: seq<bytes>): bytes {
    if parts == [] then [] else parts[0] + Concat(parts[1..])
  }

  /** `b` stands in `data` from `pos` on. */
  predicate Sits(data: bytes, pos: nat, b: bytes) {
    pos + |b| <= |data| && forall k :: 0 <= k < |b| ==> data[pos + k] == b[k]
  }

  lemma SitsApart(data: bytes, pos: nat, a: bytes, b: bytes)
    requires Sits(data, pos, a + b)
    ensures Sits(data, pos, a) && Sits(data, pos + |a|, b)
  {
    var ab := a + b;
    forall k | 0 <= k < |a| ensures data[pos + k] == a[k] { assert ab[k] == a[k]; }
    forall k | 0 <= k < |b| ensures data[pos + |a| + k] == b[k] {
      assert ab[|a| + k] == b[k];
      assert data[pos + (|a| + k)] == ab[|a| + k];
    }
  }

  lemma SitsTogether(data: bytes, pos: nat, a: bytes, b: bytes)
    requires Sits(data, pos, a) && Sits(data, pos + |a|, b)
    ensures Sits(data, pos, a + b)
  {
    forall k | 0 <= k < |a + b| ensures data[pos + k] == (a + b)[k] {
      if k >= |a| { assert data[pos + |a| + (k - |a|)] == b[k - |a|]; }
    }
  }

  lemma SitsSlice(data: bytes, pos: nat, b: bytes)
    requires Sits(data, pos, b)
    ensures data[pos..pos + |b|] == b
  {
  }
}

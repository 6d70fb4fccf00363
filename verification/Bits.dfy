/** Machine words as bit sequences, least significant bit first. Shifting
    right by `k` drops the first `k` bits, truncation keeps the first ones. */
module Bits {
  import opened Arithmetic
  import opened FullPeriod

  /** The low `k` bits of `x`. */
  function Word(k: nat, x: nat): (bits: seq<bool>)
    ensures |bits| == k
  {
    if k == 0 then [] else [x % 2 == 1] + Word(k - 1, x / 2)
  }

  /** The number a word stands for. */
  function Number(bits: seq<bool>): (x: nat)
    ensures x < Pow2(|bits|)
  {
    if bits == [] then 0 else (if bits[0] then 1 else 0) + 2 * Number(bits[1..])
  }

  lemma {:induction false} NumberOfWord(k: nat, x: nat)
    requires x < Pow2(k)
    ensures Number(Word(k, x)) == x
  {
    if k > 0 {
      NumberOfWord(k - 1, x / 2);
      assert Word(k, x)[1..] == Word(k - 1, x / 2);
    }
  }

  lemma {:induction false} WordOfNumber(bits: seq<bool>)
    ensures Word(|bits|, Number(bits)) == bits
  {
    if bits == [] {
    } else {
      WordOfNumber(bits[1..]);
      var x := Number(bits);
      assert x / 2 == Number(bits[1..]) && (x % 2 == 1) == bits[0];
    }
  }

  lemma {:induction false} NumberAtLeast(bits: seq<bool>, i: nat)
    requires i < |bits| && bits[i]
    ensures Number(bits) >= Pow2(i)
  {
    if i > 0 {
      NumberAtLeast(bits[1..], i - 1);
    }
  }

  lemma {:induction false} ZeroWord(k: nat)
    ensures forall i | 0 <= i < k :: !Word(k, 0)[i]
  {
    if k > 0 {
      ZeroWord(k - 1);
    }
  }

  /** A power of two has a single bit. */
  lemma {:induction false} SingleBit(k: nat, j: nat)
    ensures forall i | 0 <= i < k :: Word(k, Pow2(j))[i] == (i == j)
  {
    if k > 0 {
      if j == 0 {
        ZeroWord(k - 1);
      } else {
        SingleBit(k - 1, j - 1);
      }
    }
  }

  lemma {:induction false} NumberOfZeros(bits: seq<bool>)
    requires forall i | 0 <= i < |bits| :: !bits[i]
    ensures Number(bits) == 0
  {
    if bits != [] {
      NumberOfZeros(bits[1..]);
    }
  }

  /** Bit `k` of a number. */
  function Bit(x: nat, k: nat): nat {
    x / Pow2(k) % 2
  }

  lemma HalvesShift(x: nat, k: nat)
    requires k > 0
    ensures x / 2 / Pow2(k - 1) == x / Pow2(k)
  {
    var p := Pow2(k - 1);
    var h := x / 2;
    var q, r := h / p, h % p;
    QuotientRemainder(h, p);
    QuotientRemainder(x, 2);
    Distribute(2, p * q, r);
    Associate(2, p, q);
    UniqueDivision(x, Pow2(k), q, 2 * r + x % 2);
  }

  lemma {:induction false} WordBit(n: nat, x: nat, i: nat)
    requires i < n
    ensures Word(n, x)[i] <==> Bit(x, i) == 1
  {
    if i > 0 {
      WordBit(n - 1, x / 2, i - 1);
      HalvesShift(x, i);
    }
  }

  lemma NumberBit(bits: seq<bool>, i: nat)
    requires i < |bits|
    ensures bits[i] <==> Bit(Number(bits), i) == 1
  {
    WordOfNumber(bits);
    WordBit(|bits|, Number(bits), i);
  }

  /** Dropping the low bits of a word divides its number. */
  lemma {:induction false} DroppedWord(n: nat, x: nat, k: nat)
    requires k <= n
    ensures Word(n, x)[k..] == Word(n - k, x / Pow2(k))
  {
    if k > 0 {
      DroppedWord(n - 1, x / 2, k - 1);
      HalvesShift(x, k);
      assert Word(n, x)[k..] == Word(n - 1, x / 2)[k - 1..];
    }
  }

  lemma {:induction false} NoHighBits(x: nat, n: nat, k: nat)
    requires x < Pow2(n) && n <= k
    ensures Bit(x, k) == 0
  {
    Pow2Sum(k - n, n);
    NonNegativeProduct(Pow2(k - n) - 1, Pow2(n));
    assert Pow2(k) >= Pow2(n);
    UniqueDivision(x, Pow2(k), 0, x);
  }

  lemma Pow2Values()
    ensures Pow2(5) == 32
    ensures Pow2(27) == 0x800_0000
    ensures Pow2(31) == 0x8000_0000
    ensures Pow2(32) == 0x1_0000_0000
    ensures Pow2(64) == 0x1_0000_0000_0000_0000
  {
    assert Pow2(5) == 32;
    Pow2Sum(5, 5);
    Pow2Sum(10, 5);
    Pow2Sum(15, 5);
    Pow2Sum(20, 5);
    assert Pow2(2) == 4;
    Pow2Sum(25, 2);
    Pow2Sum(27, 5);
    Pow2Sum(31, 1);
    Pow2Sum(32, 32);
  }
}

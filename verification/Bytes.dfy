/** Bytes, unsigned words and the bit operations Go applies to them, over the integers. */
module Bytes {

  type byte = b: int | 0 <= b < 256

  const WORD := 0x1_0000_0000_0000_0000

  type word = w: int | 0 <= w < WORD

  function Pow(b: nat, n: nat): nat {
    if n == 0 then 1 else b * Pow(b, n - 1)
  }

  lemma {:induction false} PowPositive(b: nat, n: nat)
    requires b > 0
    ensures Pow(b, n) > 0
  {
    if n > 0 {
      PowPositive(b, n - 1);
    }
  }

  /** Bitwise or. */
  function Or(x: nat, y: nat): nat {
    if x == 0 && y == 0 then 0
    else (if x % 2 == 1 || y % 2 == 1 then 1 else 0) + 2 * Or(x / 2, y / 2)
  }

  /** `x << s` on 64 bits: what no longer fits is lost. */
  function ShiftLeft(x: nat, s: nat): word {
    x * Pow(2, s) % WORD
  }

  /** `x >> s`. */
  function ShiftRight(x: nat, s: nat): nat {
    if s == 0 then x else ShiftRight(x / 2, s - 1)
  }

  lemma {:induction false} OrZero(y: nat)
    ensures Or(0, y) == y
  {
    if y > 0 {
      OrZero(y / 2);
    }
  }

  lemma OrEven(x: nat, z: nat)
    ensures Or(x, 2 * z) == x % 2 + 2 * Or(x / 2, z)
  {
  }

  /** Bits that do not meet: or is addition. */
  lemma {:induction false} OrIsSum(x: nat, y: nat, k: nat)
    requires x < Pow(2, k)
    ensures Or(x, y * Pow(2, k)) == x + y * Pow(2, k)
  {
    if k == 0 {
      OrZero(y);
    } else {
      var z := y * Pow(2, k - 1);
      assert y * Pow(2, k) == 2 * z;
      OrIsSum(x / 2, y, k - 1);
      OrEven(x, z);
    }
  }

  lemma {:induction false} OrFits(x: nat, y: nat, k: nat)
    requires x < Pow(2, k) && y < Pow(2, k)
    ensures Or(x, y) < Pow(2, k)
  {
    if k > 0 {
      OrFits(x / 2, y / 2, k - 1);
    }
  }

  lemma WordIsPow()
    ensures Pow(2, 63) * 2 == WORD && Pow(2, 64) == WORD
  {
    assert Pow(2, 3) == 8;
    PowAdds(2, 3, 4);
    PowAdds(2, 7, 14);
    PowAdds(2, 7, 7);
    PowAdds(2, 21, 21);
    PowAdds(2, 42, 21);
  }

  /** `x | y` on 64 bits. */
  function OrWord(x: word, y: word): word {
    WordIsPow();
    OrFits(x, y, 64);
    Or(x, y)
  }

  lemma {:induction false} PowMonotone(b: nat, m: nat, n: nat)
    requires b > 0 && m <= n
    ensures Pow(b, m) <= Pow(b, n)
  {
    if m < n {
      PowMonotone(b, m, n - 1);
      PowPositive(b, n - 1);
    }
  }

  lemma {:induction false} PowAdds(b: nat, m: nat, n: nat)
    ensures Pow(b, m + n) == Pow(b, m) * Pow(b, n)
  {
    if m > 0 {
      PowAdds(b, m - 1, n);
      assert b * (Pow(b, m - 1) * Pow(b, n)) == (b * Pow(b, m - 1)) * Pow(b, n);
    }
  }

  // ---- big-endian words ----

  /** The low `n` bytes of `v`, most significant first. */
  function BigEndian(v: nat, n: nat): (r: seq<byte>)
    ensures |r| == n
  {
    if n == 0 then [] else BigEndian(v / 256, n - 1) + [v % 256]
  }

  function FromBigEndian(s: seq<byte>): nat {
    if s == [] then 0 else FromBigEndian(s[..|s| - 1]) * 256 + s[|s| - 1]
  }

  lemma {:induction false} FromBigEndianBound(s: seq<byte>)
    ensures FromBigEndian(s) < Pow(256, |s|)
  {
    if s != [] {
      FromBigEndianBound(s[..|s| - 1]);
    }
  }

  lemma {:induction false} BigEndianRoundTrip(v: nat, n: nat)
    requires v < Pow(256, n)
    ensures FromBigEndian(BigEndian(v, n)) == v
  {
    if n > 0 {
      BigEndianRoundTrip(v / 256, n - 1);
    }
  }

  lemma {:induction false} BigEndianOfBytes(s: seq<byte>)
    ensures BigEndian(FromBigEndian(s), |s|) == s
  {
    if s != [] {
      BigEndianOfBytes(s[..|s| - 1]);
      assert s == s[..|s| - 1] + [s[|s| - 1]];
    }
  }

  /** Byte `n - 1 - i` of the big-endian form is the word shifted right by 8i, cut to a byte. */
  lemma {:induction false} BigEndianAt(v: nat, n: nat, i: nat)
    requires i < n
    ensures BigEndian(v, n)[n - 1 - i] == ShiftRight(v, 8 * i) % 256
  {
    if i > 0 {
      BigEndianAt(v / 256, n - 1, i - 1);
      ShiftRightByByte(v, 8 * (i - 1));
    }
  }

  lemma ShiftRightByByte(v: nat, s: nat)
    ensures ShiftRight(v, s + 8) == ShiftRight(v / 256, s)
  {
    ShiftRightByTwo(v, s + 6);
    ShiftRightByTwo(v / 4, s + 4);
    ShiftRightByTwo(v / 16, s + 2);
    ShiftRightByTwo(v / 64, s);
  }

  lemma ShiftRightByTwo(v: nat, s: nat)
    ensures ShiftRight(v, s + 2) == ShiftRight(v / 4, s)
  {
    assert ShiftRight(v, s + 2) == ShiftRight(v / 2, s + 1);
  }

  lemma EightBytesAreAWord()
    ensures Pow(256, 8) == WORD
  {
    assert Pow(256, 2) == 65536;
    PowAdds(256, 2, 2);
    PowAdds(256, 4, 4);
  }

  lemma EightBytesFitAWord(s: seq<byte>)
    requires |s| == 8
    ensures FromBigEndian(s) < WORD
  {
    FromBigEndianBound(s);
    EightBytesAreAWord();
  }
}

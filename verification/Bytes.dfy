/** Byte strings, fixed-width integers and bitwise exclusive-or, shared by every wire format. */
module Bytes {
  type byte = n: int | 0 <= n < 256

  const TWO16: nat := 0x1_0000
  const TWO32: nat := 0x1_0000_0000
  const TWO64: nat := 0x1_0000_0000_0000_0000

  function Pow(b: nat, e: nat): nat {
    if e == 0 then 1 else b * Pow(b, e - 1)
  }

  /** `to_be_bytes`: the low `width` bytes of `n`, most significant first. */
  function BE(n: nat, width: nat): (s: seq<byte>)
    ensures |s| == width
  {
    if width == 0 then [] else BE(n / 256, width - 1) + [n % 256]
  }

  /** `from_be_bytes`. */
  function FromBE(s: seq<byte>): nat {
    if s == [] then 0 else FromBE(s[..|s| - 1]) * 256 + s[|s| - 1]
  }

  /** `to_le_bytes`. */
  function LE(n: nat, width: nat): (s: seq<byte>)
    ensures |s| == width
  {
    if width == 0 then [] else [n % 256] + LE(n / 256, width - 1)
  }

  /** `from_le_bytes`. */
  function FromLE(s: seq<byte>): nat {
    if s == [] then 0 else s[0] + FromLE(s[1..]) * 256
  }

  lemma {:induction false} BERoundTrip(n: nat, width: nat)
    requires n < Pow(256, width)
    ensures FromBE(BE(n, width)) == n
  {
    if width > 0 {
      BERoundTrip(n / 256, width - 1);
      assert BE(n, width)[..width - 1] == BE(n / 256, width - 1);
    }
  }

  lemma {:induction false} LERoundTrip(n: nat, width: nat)
    requires n < Pow(256, width)
    ensures FromLE(LE(n, width)) == n
  {
    if width > 0 {
      LERoundTrip(n / 256, width - 1);
      assert LE(n, width)[1..] == LE(n / 256, width - 1);
    }
  }

  lemma {:induction false} FromBEInverse(s: seq<byte>)
    ensures FromBE(s) < Pow(256, |s|)
    ensures BE(FromBE(s), |s|) == s
  {
    if s != [] {
      var front := s[..|s| - 1];
      FromBEInverse(front);
      assert FromBE(s) / 256 == FromBE(front);
      assert front + [s[|s| - 1]] == s;
    }
  }

  lemma {:induction false} FromLEInverse(s: seq<byte>)
    ensures FromLE(s) < Pow(256, |s|)
    ensures LE(FromLE(s), |s|) == s
  {
    if s != [] {
      FromLEInverse(s[1..]);
      assert FromLE(s) / 256 == FromLE(s[1..]);
      assert [s[0]] + s[1..] == s;
    }
  }

  lemma DivDiv(n: nat, b: nat, p: nat)
    requires b > 0 && p > 0
    ensures b * p > 0 && n / b / p == n / (b * p)
  {
    RemainderFits(b, p, 0, 0);
    DivParts(n, b, p, n / b, n % b, n / b / p, n / b % p);
  }

  lemma DivParts(n: nat, b: nat, p: nat, x: nat, low: nat, q: nat, r: nat)
    requires n == b * x + low && x == q * p + r && low < b && r < p
    ensures b * p > 0 && n / (b * p) == q
  {
    Distribute(b, q, p, r);
    RemainderFits(b, p, r, low);
    Quotient(n, b * p, q, b * r + low);
  }

  lemma RemainderFits(b: nat, p: nat, r: nat, low: nat)
    requires r < p && low < b
    ensures b * r + low < b * p
  {
    MultiplesApart(r, p, b);
  }

  lemma Distribute(b: nat, q: nat, p: nat, r: nat)
    ensures b * (q * p + r) == q * (b * p) + b * r
  {
  }

  lemma Quotient(n: nat, d: nat, q: nat, r: nat)
    requires d > 0 && n == q * d + r && r < d
    ensures n / d == q
  {
    SameQuotient(d, q, r, n / d, n % d);
  }

  lemma SameQuotient(d: nat, q: nat, r: nat, m: nat, x: nat)
    requires q * d + r == m * d + x && r < d && x < d
    ensures q == m
  {
    if q < m {
      MultiplesApart(q, m, d);
    } else if m < q {
      MultiplesApart(m, q, d);
    }
  }

  lemma {:induction false} MultiplesApart(a: nat, b: nat, d: nat)
    requires a < b
    ensures a * d + d <= b * d
  {
    assert b * d == (b - 1) * d + d;
    if a < b - 1 {
      MultiplesApart(a, b - 1, d);
    }
  }

  lemma {:induction false} PowPositive(b: nat, e: nat)
    requires b > 0
    ensures Pow(b, e) > 0
  {
    if e > 0 {
      PowPositive(b, e - 1);
    }
  }

  /** Most significant byte first: byte `i` of `width` has weight 256^(width - 1 - i). */
  lemma {:induction false} BEAt(n: nat, width: nat, i: nat)
    requires i < width
    ensures Pow(256, width - 1 - i) > 0 && BE(n, width)[i] == n / Pow(256, width - 1 - i) % 256
  {
    PowPositive(256, width - 1 - i);
    if i < width - 1 {
      BEAt(n / 256, width - 1, i);
      DivDiv(n, 256, Pow(256, width - 2 - i));
    }
  }

  /** Least significant byte first. */
  lemma {:induction false} LEAt(n: nat, width: nat, i: nat)
    requires i < width
    ensures Pow(256, i) > 0 && LE(n, width)[i] == n / Pow(256, i) % 256
  {
    PowPositive(256, i);
    if i > 0 {
      LEAt(n / 256, width - 1, i - 1);
      DivDiv(n, 256, Pow(256, i - 1));
    }
  }

  lemma PowValues()
    ensures Pow(256, 1) == 256 && Pow(256, 2) == TWO16 && Pow(256, 4) == TWO32 && Pow(256, 8) == TWO64
  {
    assert Pow(256, 2) == 256 * Pow(256, 1);
    assert Pow(256, 3) == 256 * Pow(256, 2);
    assert Pow(256, 4) == 256 * Pow(256, 3);
    assert Pow(256, 5) == 256 * Pow(256, 4);
    assert Pow(256, 6) == 256 * Pow(256, 5);
    assert Pow(256, 7) == 256 * Pow(256, 6);
    assert Pow(256, 8) == 256 * Pow(256, 7);
  }

  /** Bitwise exclusive-or of two naturals, bit by bit from the low end. */
  function Xor(a: nat, b: nat): nat
    decreases a + b
  {
    if a == 0 && b == 0 then 0 else (if a % 2 == b % 2 then 0 else 1) + 2 * Xor(a / 2, b / 2)
  }

  lemma {:induction false} XorInvolution(a: nat, k: nat)
    ensures Xor(Xor(a, k), k) == a
    decreases a + k
  {
    if a != 0 || k != 0 {
      XorInvolution(a / 2, k / 2);
      var x := Xor(a, k);
      assert x / 2 == Xor(a / 2, k / 2);
      XorStep(x, k);
    }
  }

  lemma {:induction false} XorBound(a: nat, b: nat, bits: nat)
    requires a < Pow(2, bits) && b < Pow(2, bits)
    ensures Xor(a, b) < Pow(2, bits)
  {
    if bits > 0 && (a != 0 || b != 0) {
      XorBound(a / 2, b / 2, bits - 1);
    }
  }

  /** Exclusive-or acts on the low byte and on the rest separately. */
  lemma XorSplit(ah: nat, al: nat, bh: nat, bl: nat)
    requires al < 256 && bl < 256
    ensures Xor(ah * 256 + al, bh * 256 + bl) == Xor(ah, bh) * 256 + Xor(al, bl)
  {
    hide Xor;
    XorSplitNibble(ah * 16 + al / 16, al % 16, bh * 16 + bl / 16, bl % 16);
    XorSplitNibble(ah, al / 16, bh, bl / 16);
    XorSplitNibble(al / 16, al % 16, bl / 16, bl % 16);
  }

  lemma XorSplitNibble(ah: nat, al: nat, bh: nat, bl: nat)
    requires al < 16 && bl < 16
    ensures Xor(ah * 16 + al, bh * 16 + bl) == Xor(ah, bh) * 16 + Xor(al, bl)
  {
    hide Xor;
    XorSplitPair(ah * 4 + al / 4, al % 4, bh * 4 + bl / 4, bl % 4);
    XorSplitPair(ah, al / 4, bh, bl / 4);
    XorSplitPair(al / 4, al % 4, bl / 4, bl % 4);
  }

  lemma XorSplitPair(ah: nat, al: nat, bh: nat, bl: nat)
    requires al < 4 && bl < 4
    ensures Xor(ah * 4 + al, bh * 4 + bl) == Xor(ah, bh) * 4 + Xor(al, bl)
  {
    assert Xor(0, 0) == 0;
    XorCarry(ah, bh, al / 2, bl / 2, Xor(ah, bh));
    XorCarry(2 * ah, 2 * bh, al, bl, 2 * Xor(ah, bh));
  }

  lemma XorCarry(ah: nat, bh: nat, al: nat, bl: nat, high: nat)
    requires Xor(ah + al / 2, bh + bl / 2) == high + Xor(al / 2, bl / 2)
    ensures Xor(2 * ah + al, 2 * bh + bl) == 2 * high + Xor(al, bl)
  {
    XorStep(2 * ah + al, 2 * bh + bl);
    XorStep(al, bl);
    LowBit(ah, al);
    LowBit(bh, bl);
    hide Xor;
  }

  lemma LowBit(high: nat, low: nat)
    ensures (2 * high + low) % 2 == low % 2 && (2 * high + low) / 2 == high + low / 2
  {
  }

  lemma XorStep(a: nat, b: nat)
    ensures Xor(a, b) == (if a % 2 == b % 2 then 0 else 1) + 2 * Xor(a / 2, b / 2)
  {
    if a == 0 && b == 0 {
      assert Xor(a / 2, b / 2) == 0;
    }
  }

  function Min(a: nat, b: nat): nat {
    if a < b then a else b
  }

  function Concat(chunks: seq<seq<byte>>): seq<byte> {
    if chunks == [] then [] else Concat(chunks[..|chunks| - 1]) + chunks[|chunks| - 1]
  }

  lemma Associates<T>(a: seq<T>, b: seq<T>, c: seq<T>)
    ensures a + (b + c) == (a + b) + c
  {
  }

  lemma ConcatLast(chunks: seq<seq<byte>>)
    requires chunks != []
    ensures Concat(chunks) == Concat(chunks[..|chunks| - 1]) + chunks[|chunks| - 1]
  {
  }

  lemma {:induction false} ConcatHead(chunks: seq<seq<byte>>)
    requires chunks != []
    ensures Concat(chunks) == chunks[0] + Concat(chunks[1..])
  {
    if |chunks| == 1 {
      assert chunks[..0] == [] && chunks[1..] == [];
    } else {
      var front, last := chunks[..|chunks| - 1], chunks[|chunks| - 1];
      ConcatHead(front);
      assert front[1..] == chunks[1..][..|chunks| - 2] && chunks[1..][|chunks| - 2] == last;
      ConcatLast(chunks);
      ConcatLast(chunks[1..]);
      Associates(chunks[0], Concat(front[1..]), last);
      hide Concat;
    }
  }
}

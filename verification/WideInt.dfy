/** 128- and 256-bit integers held in 64-bit limbs, and their decimal and hexadecimal texts
    (pkg/stellar/processors/contract_invocation/helpers.go:321-397). */
module WideInt {

  const TWO_63 := 0x8000_0000_0000_0000
  const TWO_64 := 0x1_0000_0000_0000_0000
  const TWO_128 := 0x1_0000_0000_0000_0000_0000_0000_0000_0000
  const TWO_192 := 0x1_0000_0000_0000_0000_0000_0000_0000_0000_0000_0000_0000_0000
  const TWO_255 := 0x8000_0000_0000_0000_0000_0000_0000_0000_0000_0000_0000_0000_0000_0000_0000_0000
  const TWO_256 := 0x1_0000_0000_0000_0000_0000_0000_0000_0000_0000_0000_0000_0000_0000_0000_0000_0000
  const TWO_127 := 0x8000_0000_0000_0000_0000_0000_0000_0000

  type U64 = n: int | 0 <= n < TWO_64
  type I64 = n: int | -TWO_63 <= n < TWO_63

  datatype UInt128Parts = UInt128Parts(hi: U64, lo: U64)
  datatype Int128Parts = Int128Parts(hi: I64, lo: U64)
  datatype UInt256Parts = UInt256Parts(hiHi: U64, hiLo: U64, loHi: U64, loLo: U64)
  datatype Int256Parts = Int256Parts(hiHi: I64, hiLo: U64, loHi: U64, loLo: U64)

  /** Go's uint64(x) of an int64: the same 64 bits read as unsigned. */
  function AsUint64(x: I64): (u: U64)
    ensures u % TWO_64 == x % TWO_64
    ensures u >= TWO_63 <==> x < 0
  {
    if x < 0 then x + TWO_64 else x
  }

  // ----- denotation: the bit pattern, unsigned or as two's complement

  function U128(p: UInt128Parts): (n: int) { p.hi * TWO_64 + p.lo }

  function U256(p: UInt256Parts): (n: int)
  {
    p.hiHi * TWO_192 + p.hiLo * TWO_128 + p.loHi * TWO_64 + p.loLo
  }

  function Bits128(p: Int128Parts): (q: UInt128Parts) { UInt128Parts(AsUint64(p.hi), p.lo) }

  function Bits256(p: Int256Parts): (q: UInt256Parts)
  {
    UInt256Parts(AsUint64(p.hiHi), p.hiLo, p.loHi, p.loLo)
  }

  /** The number a bit pattern stands for in two's complement with the given modulus. */
  function TwosComplement(bits: int, modulus: int): (n: int)
  {
    if 2 * bits >= modulus then bits - modulus else bits
  }

  function I128(p: Int128Parts): (n: int) { TwosComplement(U128(Bits128(p)), TWO_128) }
  function I256(p: Int256Parts): (n: int) { TwosComplement(U256(Bits256(p)), TWO_256) }

  // ----- decimal text

  function Digit(d: int): (c: char)
    requires 0 <= d < 16
  {
    if d < 10 then '0' + d as char else 'a' + (d - 10) as char
  }

  function DigitValue(c: char): (d: int)
  {
    if '0' <= c <= '9' then c as int - '0' as int
    else if 'a' <= c <= 'f' then c as int - 'a' as int + 10
    else -1
  }

  lemma DigitRoundTrip(d: int)
    requires 0 <= d < 16
    ensures DigitValue(Digit(d)) == d && Digit(d) != '-'
  {
  }

  function DecimalDigits(n: nat): (s: string)
    ensures |s| > 0
  {
    (if n < 10 then "" else DecimalDigits(n / 10)) + [Digit(n % 10)]
  }

  /** big.Int's String. */
  function Decimal(n: int): (s: string)
  {
    if n < 0 then "-" + DecimalDigits(-n) else DecimalDigits(n)
  }

  function ParseDigits(s: string): (n: int)
  {
    if s == "" then 0 else 10 * ParseDigits(s[..|s| - 1]) + DigitValue(s[|s| - 1])
  }

  function Parse(s: string): (n: int)
  {
    if s != "" && s[0] == '-' then -ParseDigits(s[1..]) else ParseDigits(s)
  }

  lemma {:induction false} DigitsRoundTrip(n: nat)
    ensures ParseDigits(DecimalDigits(n)) == n
    ensures DecimalDigits(n)[0] != '-'
  {
    DigitRoundTrip(n % 10);
    var s := DecimalDigits(n);
    if n >= 10 {
      DigitsRoundTrip(n / 10);
      assert s[..|s| - 1] == DecimalDigits(n / 10);
    } else {
      assert s[..|s| - 1] == "";
    }
  }

  lemma DecimalRoundTrip(n: int)
    ensures Parse(Decimal(n)) == n
  {
    if n < 0 {
      DigitsRoundTrip(-n);
      assert Decimal(n)[1..] == DecimalDigits(-n);
    } else {
      DigitsRoundTrip(n);
    }
  }

  /** Decimals are written with the ten digits, the last one last, and without leading zeros. */
  lemma DecimalIsWritten(n: int)
    ensures n < 0 ==> Decimal(n) == "-" + Decimal(-n)
    ensures 0 <= n < 10 ==> Decimal(n) == ["0123456789"[n]]
    ensures n >= 10 ==> Decimal(n) == Decimal(n / 10) + ["0123456789"[n % 10]]
  {
  }

  lemma DecimalInjective(m: int, n: int)
    requires Decimal(m) == Decimal(n)
    ensures m == n
  {
    DecimalRoundTrip(m);
    DecimalRoundTrip(n);
  }

  // ----- the conversions

  function Pow2(n: nat): (p: int)
  {
    if n == 0 then 1 else 2 * Pow2(n - 1)
  }

  lemma {:induction false} Pow2Add(m: nat, n: nat)
    ensures Pow2(m + n) == Pow2(m) * Pow2(n)
  {
    if m > 0 {
      Pow2Add(m - 1, n);
      assert Pow2(m + n) == 2 * (Pow2(m - 1) * Pow2(n)) == (2 * Pow2(m - 1)) * Pow2(n);
    }
  }

  lemma LimbShifts()
    ensures Pow2(64) == TWO_64 && Pow2(128) == TWO_128 && Pow2(192) == TWO_192
  {
    assert Pow2(4) == 16 by {
      assert Pow2(2) == 4;
    }
    Pow2Add(4, 4);
    Pow2Add(8, 8);
    Pow2Add(16, 16);
    Pow2Add(32, 32);
    Pow2Add(64, 64);
    Pow2Add(64, 128);
  }

  /** math/big's Int, updated in place. */
  class BigInt {
    var v: int

    constructor (n: int)
      ensures v == n
    {
      v := n;
    }

    method SetUint64(u: U64)
      modifies this
      ensures v == u
    {
      v := u;
    }

    method Lsh(x: BigInt, n: nat)
      modifies this
      ensures v == old(x.v) * Pow2(n)
    {
      v := x.v * Pow2(n);
    }

    method Add(x: BigInt, y: BigInt)
      modifies this
      ensures v == old(x.v) + old(y.v)
    {
      v := x.v + y.v;
    }

    method Sub(x: BigInt, y: BigInt)
      modifies this
      ensures v == old(x.v) - old(y.v)
    {
      v := x.v - y.v;
    }

    method String() returns (s: string)
      ensures s == Decimal(v)
    {
      s := Decimal(v);
    }
  }

  method Uint128ToString(val: UInt128Parts) returns (s: string)
    ensures s == Decimal(U128(val))
  {
    var hi := new BigInt(0);
    hi.SetUint64(val.hi);
    var lo := new BigInt(0);
    lo.SetUint64(val.lo);
    LimbShifts();
    hi.Lsh(hi, 64);
    hi.Add(hi, lo);
    s := hi.String();
  }

  /** The sign step shared by the signed conversions: with the high bit set, subtract 2^64. */
  method SignedLimb(x: I64) returns (hi: BigInt)
    ensures fresh(hi) && hi.v == x
  {
    hi := new BigInt(0);
    hi.SetUint64(AsUint64(x));
    LimbShifts();
    if AsUint64(x) / TWO_63 % 2 != 0 {
      var modulus := new BigInt(1);
      modulus.Lsh(modulus, 64);
      hi.Sub(hi, modulus);
    }
  }

  lemma SignedTopLimb128(p: Int128Parts)
    ensures I128(p) == p.hi * TWO_64 + p.lo
  {
  }

  lemma SignedTopLimb256(p: Int256Parts)
    ensures I256(p) == p.hiHi * TWO_192 + p.hiLo * TWO_128 + p.loHi * TWO_64 + p.loLo
  {
  }

  method Int128ToString(val: Int128Parts) returns (s: string)
    ensures s == Decimal(I128(val))
  {
    var hi := SignedLimb(val.hi);
    var lo := new BigInt(0);
    lo.SetUint64(val.lo);
    LimbShifts();
    SignedTopLimb128(val);
    hi.Lsh(hi, 64);
    hi.Add(hi, lo);
    s := hi.String();
  }

  method Uint256ToString(val: UInt256Parts) returns (s: string)
    ensures s == Decimal(U256(val))
  {
    var hiHi := new BigInt(0);
    hiHi.SetUint64(val.hiHi);
    s := SumLimbs(hiHi, val.hiLo, val.loHi, val.loLo);
  }

  method Int256ToString(val: Int256Parts) returns (s: string)
    ensures s == Decimal(I256(val))
  {
    var hiHi := SignedLimb(val.hiHi);
    SignedTopLimb256(val);
    s := SumLimbs(hiHi, val.hiLo, val.loHi, val.loLo);
  }

  /** x.Lsh(x, n) for one of the limb positions. */
  method Shift(x: BigInt, n: nat, ghost factor: int)
    requires (n, factor) in {(64, TWO_64), (128, TWO_128), (192, TWO_192)}
    modifies x
    ensures x.v == old(x.v) * factor
  {
    LimbShifts();
    x.Lsh(x, n);
  }

  /** Shifts the limbs into place and adds them up. */
  method SumLimbs(hiHi: BigInt, low1: U64, low2: U64, low3: U64) returns (s: string)
    modifies hiHi
    ensures s == Decimal(old(hiHi.v) * TWO_192 + low1 * TWO_128 + low2 * TWO_64 + low3)
  {
    var hiLo := new BigInt(0);
    hiLo.SetUint64(low1);
    var loHi := new BigInt(0);
    loHi.SetUint64(low2);
    var loLo := new BigInt(0);
    loLo.SetUint64(low3);
    Shift(hiHi, 192, TWO_192);
    Shift(hiLo, 128, TWO_128);
    Shift(loHi, 64, TWO_64);
    var result := new BigInt(0);
    result.Add(result, hiHi);
    result.Add(result, hiLo);
    result.Add(result, loHi);
    result.Add(result, loLo);
    s := result.String();
  }

  // ----- exact ranges, bijection and order

  lemma Ranges(u: UInt128Parts, i: Int128Parts, v: UInt256Parts, j: Int256Parts)
    ensures 0 <= U128(u) < TWO_128 && -TWO_127 <= I128(i) < TWO_127
    ensures 0 <= U256(v) < TWO_256 && -TWO_255 <= I256(j) < TWO_255
  {
  }

  /** The limbs of a number, most significant first; the inverse of the denotations. */
  function ToU128(n: int): (p: UInt128Parts)
    requires 0 <= n < TWO_128
  {
    UInt128Parts(n / TWO_64, n % TWO_64)
  }

  function ToU256(n: int): (p: UInt256Parts)
    requires 0 <= n < TWO_256
  {
    UInt256Parts(n / TWO_192, n / TWO_128 % TWO_64, n / TWO_64 % TWO_64, n % TWO_64)
  }

  function ToI128(n: int): (p: Int128Parts)
    requires -TWO_127 <= n < TWO_127
  {
    Int128Parts(n / TWO_64, n % TWO_64)
  }

  function ToI256(n: int): (p: Int256Parts)
    requires -TWO_255 <= n < TWO_255
  {
    Int256Parts(n / TWO_192, n / TWO_128 % TWO_64, n / TWO_64 % TWO_64, n % TWO_64)
  }

  lemma Bijection128(u: UInt128Parts, i: Int128Parts)
    ensures ToU128(U128(u)) == u && ToI128(I128(i)) == i
  {
    SignedTopLimb128(i);
  }

  lemma Bijection128Onto(n: int)
    ensures 0 <= n < TWO_128 ==> U128(ToU128(n)) == n
    ensures -TWO_127 <= n < TWO_127 ==> I128(ToI128(n)) == n
  {
    if -TWO_127 <= n < TWO_127 {
      SignedTopLimb128(ToI128(n));
    }
  }

  /** Splitting a number at its limbs, from the bottom. */
  lemma SplitLimbs(a: int, b: U64, c: U64, d: U64)
    ensures var n := a * TWO_192 + b * TWO_128 + c * TWO_64 + d;
            n / TWO_192 == a && n / TWO_128 % TWO_64 == b && n / TWO_64 % TWO_64 == c && n % TWO_64 == d
  {
    var n := a * TWO_192 + b * TWO_128 + c * TWO_64 + d;
    assert n / TWO_64 == a * TWO_128 + b * TWO_64 + c;
    assert n / TWO_128 == a * TWO_64 + b;
  }

  lemma Bijection256(u: UInt256Parts, i: Int256Parts)
    ensures ToU256(U256(u)) == u && ToI256(I256(i)) == i
  {
    SignedTopLimb256(i);
    SplitLimbs(u.hiHi, u.hiLo, u.loHi, u.loLo);
    SplitLimbs(i.hiHi, i.hiLo, i.loHi, i.loLo);
  }

  lemma JoinLimbs(n: int)
    ensures n == n / TWO_192 * TWO_192 + n / TWO_128 % TWO_64 * TWO_128 + n / TWO_64 % TWO_64 * TWO_64 + n % TWO_64
  {
    assert n / TWO_64 / TWO_64 == n / TWO_128;
    assert n / TWO_128 / TWO_64 == n / TWO_192;
  }

  lemma Bijection256Onto(n: int)
    ensures 0 <= n < TWO_256 ==> U256(ToU256(n)) == n
    ensures -TWO_255 <= n < TWO_255 ==> I256(ToI256(n)) == n
  {
    JoinLimbs(n);
    if -TWO_255 <= n < TWO_255 {
      SignedTopLimb256(ToI256(n));
    }
  }

  /** Lexicographic order of limbs, the top one signed when the type is. */
  predicate LexLess(xs: seq<int>, ys: seq<int>)
    requires |xs| == |ys|
  {
    xs != [] && (xs[0] < ys[0] || (xs[0] == ys[0] && LexLess(xs[1..], ys[1..])))
  }

  lemma LexPair(a: int, x: int, b: int, y: int)
    ensures LexLess([a, x], [b, y]) <==> a < b || (a == b && x < y)
  {
    assert [a, x][1..] == [x] && [b, y][1..] == [y];
    assert [x][1..] == [] && [y][1..] == [];
    assert LexLess([x], [y]) <==> x < y;
  }

  lemma LexFour(a: int, b: int, c: int, d: int, e: int, f: int, g: int, h: int)
    ensures LexLess([a, b, c, d], [e, f, g, h])
       <==> a < e || (a == e && (b < f || (b == f && (c < g || (c == g && d < h)))))
  {
    assert [a, b, c, d][1..] == [b, c, d] && [e, f, g, h][1..] == [f, g, h];
    assert [b, c, d][1..] == [c, d] && [f, g, h][1..] == [g, h];
    LexPair(c, d, g, h);
  }

  lemma Order128(u: UInt128Parts, v: UInt128Parts, i: Int128Parts, j: Int128Parts)
    ensures U128(u) < U128(v) <==> LexLess([u.hi, u.lo], [v.hi, v.lo])
    ensures I128(i) < I128(j) <==> LexLess([i.hi, i.lo], [j.hi, j.lo])
  {
    SignedTopLimb128(i);
    SignedTopLimb128(j);
    LexPair(u.hi, u.lo, v.hi, v.lo);
    LexPair(i.hi, i.lo, j.hi, j.lo);
  }

  lemma LimbOrder(a: int, b: U64, c: U64, d: U64, e: int, f: U64, g: U64, h: U64)
    ensures a * TWO_192 + b * TWO_128 + c * TWO_64 + d < e * TWO_192 + f * TWO_128 + g * TWO_64 + h
       <==> LexLess([a, b, c, d], [e, f, g, h])
  {
    LexFour(a, b, c, d, e, f, g, h);
  }

  lemma Order256(u: UInt256Parts, v: UInt256Parts, i: Int256Parts, j: Int256Parts)
    ensures U256(u) < U256(v) <==> LexLess([u.hiHi, u.hiLo, u.loHi, u.loLo], [v.hiHi, v.hiLo, v.loHi, v.loLo])
    ensures I256(i) < I256(j) <==> LexLess([i.hiHi, i.hiLo, i.loHi, i.loLo], [j.hiHi, j.hiLo, j.loHi, j.loLo])
  {
    SignedTopLimb256(i);
    SignedTopLimb256(j);
    LimbOrder(u.hiHi, u.hiLo, u.loHi, u.loLo, v.hiHi, v.hiLo, v.loHi, v.loLo);
    LimbOrder(i.hiHi, i.hiLo, i.loHi, i.loLo, j.hiHi, j.hiLo, j.loHi, j.loLo);
  }

  /** Distinct limbs print distinct decimals, for each of the four types. */
  lemma DistinctTexts(u: UInt128Parts, u': UInt128Parts, i: Int128Parts, i': Int128Parts,
                      v: UInt256Parts, v': UInt256Parts, j: Int256Parts, j': Int256Parts)
    ensures Decimal(U128(u)) == Decimal(U128(u')) ==> u == u'
    ensures Decimal(I128(i)) == Decimal(I128(i')) ==> i == i'
    ensures Decimal(U256(v)) == Decimal(U256(v')) ==> v == v'
    ensures Decimal(I256(j)) == Decimal(I256(j')) ==> j == j'
  {
    if Decimal(U128(u)) == Decimal(U128(u')) { DecimalInjective(U128(u), U128(u')); }
    if Decimal(I128(i)) == Decimal(I128(i')) { DecimalInjective(I128(i), I128(i')); }
    if Decimal(U256(v)) == Decimal(U256(v')) { DecimalInjective(U256(v), U256(v')); }
    if Decimal(I256(j)) == Decimal(I256(j')) { DecimalInjective(I256(j), I256(j')); }
    Bijection128(u, i);
    Bijection128(u', i');
    Bijection256(v, j);
    Bijection256(v', j');
  }

  // ----- hexadecimal text

  const TWO_60 := 0x1000_0000_0000_0000

  /** The k lowest hexadecimal digits of n. */
  function HexDigits(n: nat, k: nat): (s: string)
    ensures |s| == k
  {
    if k == 0 then "" else HexDigits(n / 16, k - 1) + [Digit(n % 16)]
  }

  /** fmt's %016x of an integer of at most 64 bits: a sign counts towards the width. */
  function FormatHex(x: int): (s: string)
    requires -TWO_63 <= x < TWO_64
  {
    if x >= 0 then HexDigits(x, 16)
    else "-" + HexDigits(-x, if -x < TWO_60 then 15 else 16)
  }

  function Uint256ToHex(val: UInt256Parts): (s: string)
  {
    FormatHex(val.hiHi) + FormatHex(val.hiLo) + FormatHex(val.loHi) + FormatHex(val.loLo)
  }

  /** No unsigned cast: a negative top limb is formatted as a signed number. */
  function Int256ToHex(val: Int256Parts): (s: string)
  {
    FormatHex(val.hiHi) + FormatHex(val.hiLo) + FormatHex(val.loHi) + FormatHex(val.loLo)
  }

  predicate IsHex(s: string)
  {
    forall k :: 0 <= k < |s| ==> 0 <= DigitValue(s[k]) < 16
  }

  function HexValue(s: string): (n: int)
  {
    if s == "" then 0 else 16 * HexValue(s[..|s| - 1]) + DigitValue(s[|s| - 1])
  }

  function Pow16(k: nat): (p: nat)
    ensures p > 0
  {
    if k == 0 then 1 else 16 * Pow16(k - 1)
  }

  lemma {:induction false} HexRoundTrip(n: nat, k: nat)
    requires n < Pow16(k)
    ensures IsHex(HexDigits(n, k)) && HexValue(HexDigits(n, k)) == n
  {
    if k > 0 {
      var s := HexDigits(n, k);
      HexRoundTrip(n / 16, k - 1);
      DigitRoundTrip(n % 16);
      assert s[..k - 1] == HexDigits(n / 16, k - 1);
      forall j | 0 <= j < k
        ensures 0 <= DigitValue(s[j]) < 16
      {
        assert j < k - 1 ==> s[j] == HexDigits(n / 16, k - 1)[j];
      }
    }
  }

  lemma {:induction false} HexConcat(a: string, b: string)
    ensures HexValue(a + b) == HexValue(a) * Pow16(|b|) + HexValue(b)
  {
    if b == "" {
      assert a + b == a;
    } else {
      var n := |b| - 1;
      HexConcat(a, b[..n]);
      assert (a + b)[..|a| + n] == a + b[..n];
      assert 16 * (HexValue(a) * Pow16(n)) == HexValue(a) * (16 * Pow16(n));
    }
  }

  lemma SixteenDigits()
    ensures Pow16(16) == TWO_64
  {
    assert Pow16(4) == 0x1_0000 by { assert Pow16(2) == 256; }
    assert Pow16(8) == 0x1_0000_0000 by { assert Pow16(6) == 0x100_0000; }
    assert Pow16(12) == 0x1_0000_0000_0000 by { assert Pow16(10) == 0x100_0000_0000; }
    assert Pow16(14) == 0x100_0000_0000_0000;
  }

  lemma LimbHex(u: U64)
    ensures |FormatHex(u)| == 16 && IsHex(FormatHex(u)) && HexValue(FormatHex(u)) == u
  {
    SixteenDigits();
    HexRoundTrip(u, 16);
  }

  lemma AppendLimb(s: string, u: U64)
    requires IsHex(s)
    ensures var t := s + FormatHex(u);
            |t| == |s| + 16 && IsHex(t) && HexValue(t) == HexValue(s) * TWO_64 + u
  {
    LimbHex(u);
    SixteenDigits();
    HexConcat(s, FormatHex(u));
  }

  lemma AppendLimbs(s: string, b: U64, c: U64, d: U64)
    requires IsHex(s)
    ensures var t := s + FormatHex(b) + FormatHex(c) + FormatHex(d);
            && |t| == |s| + 48 && IsHex(t)
            && HexValue(t) == HexValue(s) * TWO_192 + b * TWO_128 + c * TWO_64 + d
  {
    AppendLimb(s, b);
    AppendLimb(s + FormatHex(b), c);
    AppendLimb(s + FormatHex(b) + FormatHex(c), d);
  }

  /** 64 hexadecimal digits that denote the number. */
  lemma Uint256HexDenotes(val: UInt256Parts)
    ensures var s := Uint256ToHex(val);
            |s| == 64 && IsHex(s) && HexValue(s) == U256(val)
  {
    LimbHex(val.hiHi);
    AppendLimbs(FormatHex(val.hiHi), val.hiLo, val.loHi, val.loLo);
  }

  /** The hexadecimal digits are the sixteen usual ones, the last one last. */
  lemma HexIsWritten(n: nat, k: nat)
    requires k > 0
    ensures HexDigits(n, k) == HexDigits(n / 16, k - 1) + ["0123456789abcdef"[n % 16]]
  {
  }

  /** A minus sign before k digits. */
  lemma SignedDigits(n: nat, k: nat)
    requires n < Pow16(k)
    ensures var s := "-" + HexDigits(n, k); s[0] == '-' && |s| == k + 1 && IsHex(s[1..]) && HexValue(s[1..]) == n
  {
    HexRoundTrip(n, k);
    assert ("-" + HexDigits(n, k))[1..] == HexDigits(n, k);
  }

  /** The text of a negative limb is a minus sign and the digits of its absolute value. */
  lemma NegativeLimbHex(x: int)
    requires -TWO_63 <= x < 0
    ensures var s := FormatHex(x);
            |s| >= 16 && s[0] == '-' && IsHex(s[1..]) && HexValue(s[1..]) == -x
  {
    SixteenDigits();
    SignedDigits(-x, if -x < TWO_60 then 15 else 16);
  }

  lemma TailOfFour(a: string, b: string, c: string, d: string)
    requires a != ""
    ensures (a + b + c + d)[1..] == a[1..] + b + c + d && (a + b + c + d)[0] == a[0]
  {
  }

  lemma NegativeInt256Text(val: Int256Parts)
    requires val.hiHi < 0
    ensures var s, low := Int256ToHex(val), val.hiLo * TWO_128 + val.loHi * TWO_64 + val.loLo;
            |s| > 0 && s[0] == '-' && IsHex(s[1..]) && HexValue(s[1..]) == low - val.hiHi * TWO_192
  {
    var a, b, c, d := FormatHex(val.hiHi), FormatHex(val.hiLo), FormatHex(val.loHi), FormatHex(val.loLo);
    NegativeLimbHex(val.hiHi);
    AppendLimbs(a[1..], val.hiLo, val.loHi, val.loLo);
    TailOfFour(a, b, c, d);
  }

  /** A negative top limb is printed apart from the others: after the minus sign come hexadecimal digits, but they
      denote the absolute value of the top limb followed by the unsigned lower limbs.  Read as a signed number the text
      is the number exactly when all the lower limbs are zero. */
  lemma NegativeInt256Hex(val: Int256Parts)
    requires val.hiHi < 0
    ensures var s, low := Int256ToHex(val), val.hiLo * TWO_128 + val.loHi * TWO_64 + val.loLo;
            && s[0] == '-' && IsHex(s[1..]) && HexValue(s[1..]) == low - val.hiHi * TWO_192
            && (-HexValue(s[1..]) == I256(val) <==> low == 0)
  {
    NegativeInt256Text(val);
    SignedTopLimb256(val);
  }

  /** int256ToHex writes the 64 digits of the bit pattern exactly when the top limb is not negative;
      otherwise it starts with a minus sign, so it is not hexadecimal at all. */
  lemma Int256HexDenotes(val: Int256Parts)
    ensures var s := Int256ToHex(val);
            && ((|s| == 64 && IsHex(s) && HexValue(s) == U256(Bits256(val))) <==> val.hiHi >= 0)
            && (val.hiHi >= 0 ==> HexValue(s) == I256(val))
            && (val.hiHi < 0 ==> s[0] == '-' && !IsHex(s) && |s| == if val.hiHi > -TWO_60 then 64 else 65)
  {
    var s := Int256ToHex(val);
    if val.hiHi >= 0 {
      Uint256HexDenotes(Bits256(val));
      assert s == Uint256ToHex(Bits256(val));
    } else {
      assert s[0] == '-' && DigitValue('-') == -1;
    }
  }
}

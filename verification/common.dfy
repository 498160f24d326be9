/**
 * Shared vocabulary of the avionics simulator models: optional values,
 * Python/C error outcomes, bytes, opaque IEEE-754 blocks, fixed-width
 * integer layouts and a few numeric conversions whose Python or C meaning
 * differs from Dafny's built-in operators.
 */
module Common {

  datatype Option<T> = None | Some(value: T)

  /** The exceptions that the modelled Python code can raise. */
  datatype Error = StructError | ValueError | OverflowError | KeyError | ZeroDivisionError

  datatype Result<T> = Ok(value: T) | Fail(error: Error)
  {
    predicate IsOk() { Ok? }
  }

  type Byte = x: int | 0 <= x < 256

  /** A float32 as the 4 bytes struct.pack writes for it; its arithmetic is not modelled. */
  type F32 = s: seq<Byte> | |s| == 4 witness [0, 0, 0, 0]

  /** A float64 as the 8 bytes struct.pack writes for it; its arithmetic is not modelled. */
  type F64 = s: seq<Byte> | |s| == 8 witness [0, 0, 0, 0, 0, 0, 0, 0]

  /** The little-endian encoding of the float32 value 0.0. */
  const ZeroF32: F32 := [0, 0, 0, 0]

  predicate InRange(x: int, bound: nat) { 0 <= x < bound }
  predicate IsByte(x: int) { InRange(x, 0x100) }
  predicate IsU16(x: int) { InRange(x, 0x1_0000) }
  predicate IsU32(x: int) { InRange(x, 0x1_0000_0000) }

  /** Python's `x & 0xFF`, which on negative ints uses two's complement. */
  function Mask8(x: int): (r: Byte)
    ensures IsByte(x) ==> r == x
    ensures (x - r) % 0x100 == 0
  {
    x % 0x100
  }

  // ---------------------------------------------------------------------
  // Unsigned integers as n-byte sequences

  /** Value of a big-endian unsigned byte sequence. */
  function FromBE(b: seq<Byte>): nat
  {
    if b == [] then 0 else FromBE(b[..|b| - 1]) * 0x100 + b[|b| - 1]
  }

  /** Value of a little-endian unsigned byte sequence. */
  function FromLE(b: seq<Byte>): nat
  {
    if b == [] then 0 else b[0] + 0x100 * FromLE(b[1..])
  }

  function Pow256(n: nat): (r: nat)
    ensures r > 0
  {
    if n == 0 then 1 else 0x100 * Pow256(n - 1)
  }

  /** The n-byte big-endian encoding of v, as int.to_bytes(n, "big") or a '>' struct field. */
  function ToBE(v: nat, n: nat): (r: seq<Byte>)
    requires v < Pow256(n)
    ensures |r| == n
    ensures FromBE(r) == v
  {
    if n == 0 then [] else ToBE(v / 0x100, n - 1) + [v % 0x100]
  }

  /** The n-byte little-endian encoding of v, as a '<' struct field. */
  function ToLE(v: nat, n: nat): (r: seq<Byte>)
    requires v < Pow256(n)
    ensures |r| == n
    ensures FromLE(r) == v
  {
    if n == 0 then [] else [v % 0x100] + ToLE(v / 0x100, n - 1)
  }

  lemma {:induction false} FromBEBound(b: seq<Byte>)
    ensures FromBE(b) < Pow256(|b|)
  {
    if b != [] {
      FromBEBound(b[..|b| - 1]);
    }
  }

  lemma {:induction false} FromLEBound(b: seq<Byte>)
    ensures FromLE(b) < Pow256(|b|)
  {
    if b != [] {
      FromLEBound(b[1..]);
    }
  }

  /** Record i of n records of c bytes each: where it starts and ends. */
  lemma RecordBounds(c: nat, i: nat, n: nat)
    requires i < n
    ensures c * (i + 1) == c * i + c && c * i <= c * (i + 1) <= c * n
  {
    assert c * n - c * (i + 1) == c * (n - i - 1);
  }

  /** Where blk sits at off in p, its slice lo..hi sits at off + lo. */
  lemma SliceInSlice<T>(p: seq<T>, off: nat, blk: seq<T>, lo: nat, hi: nat)
    requires off + |blk| <= |p| && p[off..off + |blk|] == blk && lo <= hi <= |blk|
    ensures p[off + lo..off + hi] == blk[lo..hi]
  {
    var c := p[off + lo..off + hi];
    forall i | 0 <= i < hi - lo
      ensures c[i] == blk[lo..hi][i]
    {
      assert c[i] == p[off + lo + i] == p[off..off + |blk|][lo + i];
    }
  }

  /** A slice within a is the same slice of a + c. */
  lemma SliceOfPrefix<T>(a: seq<T>, c: seq<T>, lo: nat, hi: nat)
    requires lo <= hi <= |a|
    ensures (a + c)[lo..hi] == a[lo..hi]
  {
    assert forall i :: lo <= i < hi ==> (a + c)[i] == a[i];
  }

  /** Two adjacent slices join into one. */
  lemma JoinSlices<T>(s: seq<T>, a: nat, b: nat, c: nat)
    requires a <= b <= c <= |s|
    ensures s[a..b] + s[b..c] == s[a..c]
  {
  }

  /** Where the four parts of h + a + b + c sit. */
  lemma ConcatParts<T>(h: seq<T>, a: seq<T>, b: seq<T>, c: seq<T>)
    ensures var d := h + a + b + c;
      && |d| == |h| + |a| + |b| + |c|
      && d[..|h|] == h
      && d[|h|..|h| + |a|] == a
      && d[|h| + |a|..|h| + |a| + |b|] == b
      && d[|h| + |a| + |b|..] == c
  {
    var d := h + a + b + c;
    assert d[..|h|] == h;
    assert d[|h|..|h| + |a|] == a;
    assert d[|h| + |a|..|h| + |a| + |b|] == b;
    assert d[|h| + |a| + |b|..] == c;
  }

  lemma FromBETwo(b: seq<Byte>)
    requires |b| == 2
    ensures FromBE(b) == b[0] as int * 0x100 + b[1]
  {
    assert b[..1][..0] == [];
    assert FromBE(b[..1]) == b[0];
  }

  /** Big-endian encoding is injective on n-byte sequences: decoding then re-encoding is the identity. */
  lemma {:induction false} ToBEFromBE(b: seq<Byte>)
    ensures FromBE(b) < Pow256(|b|)
    ensures ToBE(FromBE(b), |b|) == b
  {
    FromBEBound(b);
    if b != [] {
      var init := b[..|b| - 1];
      ToBEFromBE(init);
      assert FromBE(b) / 0x100 == FromBE(init);
      assert FromBE(b) % 0x100 == b[|b| - 1];
      assert init + [b[|b| - 1]] == b;
    }
  }

  /** Little-endian encoding is injective on n-byte sequences. */
  lemma {:induction false} ToLEFromLE(b: seq<Byte>)
    ensures FromLE(b) < Pow256(|b|)
    ensures ToLE(FromLE(b), |b|) == b
  {
    FromLEBound(b);
    if b != [] {
      ToLEFromLE(b[1..]);
      assert FromLE(b) % 0x100 == b[0];
      assert FromLE(b) / 0x100 == FromLE(b[1..]);
      assert [b[0]] + b[1..] == b;
    }
  }

  // Two's complement readings of little-endian fields ('<i', '<h').

  /** The signed value of a little-endian two's complement field. */
  function FromLESigned(b: seq<Byte>): (r: int)
    ensures b != [] ==> -(Pow256(|b|) / 2) <= r < Pow256(|b|) / 2
  {
    FromLEBound(b);
    if b == [] then 0
    else if FromLE(b) < Pow256(|b|) / 2 then FromLE(b)
    else FromLE(b) - Pow256(|b|)
  }

  /** The n-byte little-endian two's complement encoding of v ('<i' for n = 4). */
  function ToLESigned(v: int, n: nat): (r: seq<Byte>)
    requires n > 0
    requires -(Pow256(n) / 2) <= v < Pow256(n) / 2
    ensures |r| == n
    ensures FromLESigned(r) == v
  {
    var u := if v >= 0 then v else v + Pow256(n);
    var r := ToLE(u, n);
    r
  }

  // Fixed-width little-endian fields, written out so that record layouts
  // stay cheap to reason about.

  /** The value of the '<H' field at offset k. */
  function ReadLE16(b: seq<Byte>, k: nat): (v: int)
    requires k + 2 <= |b|
    ensures IsU16(v)
  {
    b[k] as int + 0x100 * (b[k + 1] as int)
  }

  /** A '<H' field. */
  function LE16(v: int): (r: seq<Byte>)
    requires IsU16(v)
    ensures |r| == 2 && ReadLE16(r, 0) == v
  {
    [v % 0x100, v / 0x100]
  }

  /** Reading a '<H' field and writing it back gives the same two bytes. */
  lemma LE16OfRead(b: seq<Byte>, k: nat)
    requires k + 2 <= |b|
    ensures LE16(ReadLE16(b, k)) == b[k..k + 2]
  {
  }

  /** The value of the '<I' field at offset k. */
  function ReadLE32(b: seq<Byte>, k: nat): (v: int)
    requires k + 4 <= |b|
    ensures IsU32(v)
  {
    ReadLE16(b, k) + 0x1_0000 * ReadLE16(b, k + 2)
  }

  /** A '<I' field. */
  function LE32(v: int): (r: seq<Byte>)
    requires IsU32(v)
    ensures |r| == 4 && ReadLE32(r, 0) == v
  {
    var r := LE16(v % 0x1_0000) + LE16(v / 0x1_0000);
    assert ReadLE16(r, 2) == v / 0x1_0000;
    r
  }

  /** Reading a '<I' field and writing it back gives the same four bytes. */
  lemma LE32OfRead(b: seq<Byte>, k: nat)
    requires k + 4 <= |b|
    ensures LE32(ReadLE32(b, k)) == b[k..k + 4]
  {
    var v := ReadLE32(b, k);
    assert v % 0x1_0000 == ReadLE16(b, k);
    assert v / 0x1_0000 == ReadLE16(b, k + 2);
    LE16OfRead(b, k);
    LE16OfRead(b, k + 2);
  }

  // ---------------------------------------------------------------------
  // Text

  function DigitChar(d: int): (c: char)
    requires 0 <= d < 10
    ensures '0' <= c <= '9'
    ensures DigitValue(c) == d
  {
    ('0' as int + d) as char
  }

  /** Decimal rendering of a natural number, as Python's str() or C's "%d". */
  function Decimal(n: nat): (s: string)
    ensures |s| >= 1
    ensures forall i :: 0 <= i < |s| ==> '0' <= s[i] <= '9'
  {
    if n < 10 then [DigitChar(n)] else Decimal(n / 10) + [DigitChar(n % 10)]
  }

  function DigitValue(c: char): int
  {
    (c as int) - ('0' as int)
  }

  /** Inverse of Decimal on its image. */
  function ParseDecimal(s: string): int
  {
    if s == [] then 0 else ParseDecimal(s[..|s| - 1]) * 10 + DigitValue(s[|s| - 1])
  }

  lemma {:induction false} ParseDecimalOfDecimal(n: nat)
    ensures ParseDecimal(Decimal(n)) == n
  {
    var s := Decimal(n);
    if n < 10 {
      assert s[..|s| - 1] == [];
    } else {
      ParseDecimalOfDecimal(n / 10);
      assert s[..|s| - 1] == Decimal(n / 10);
      assert ParseDecimal(s) == n / 10 * 10 + n % 10;
    }
  }

  predicate IsHexDigit(c: char) { '0' <= c <= '9' || 'a' <= c <= 'f' }

  function HexDigitValue(c: char): int
  {
    if '0' <= c <= '9' then (c as int) - ('0' as int) else (c as int) - ('a' as int) + 10
  }

  /** Lower-case two-digit hexadecimal of a byte, as bytes.hex(). */
  function HexByte(b: Byte): (s: string)
    ensures |s| == 2 && IsHexDigit(s[0]) && IsHexDigit(s[1])
    ensures HexDigitValue(s[0]) * 16 + HexDigitValue(s[1]) == b
  {
    var digits := "0123456789abcdef";
    assert forall d :: 0 <= d < 16 ==> IsHexDigit(digits[d]) && HexDigitValue(digits[d]) == d;
    [digits[b / 16], digits[b % 16]]
  }

  // ---------------------------------------------------------------------
  // Numbers

  function MinReal(a: real, b: real): real { if a <= b then a else b }
  function MaxReal(a: real, b: real): real { if a >= b then a else b }
  function AbsReal(a: real): real { if a < 0.0 then -a else a }

  /** max(lo, min(hi, x)) with the argument order the simulators use. */
  function ClampReal(x: real, lo: real, hi: real): (r: real)
    requires lo <= hi
    ensures lo <= r <= hi
    ensures lo <= x <= hi ==> r == x
  {
    MaxReal(lo, MinReal(hi, x))
  }

  /** Python's int() of a float, and C's float-to-int cast: truncation toward zero. */
  function TruncToInt(x: real): (r: int)
    ensures AbsReal(r as real) <= AbsReal(x) < AbsReal(r as real) + 1.0
    ensures x >= 0.0 ==> r >= 0
    ensures x <= 0.0 ==> r <= 0
  {
    if x >= 0.0 then x.Floor else -((-x).Floor)
  }

  lemma ScaleFraction(m: real, f: real)
    requires m > 0.0 && 0.0 <= f < 1.0
    ensures 0.0 <= m * f < m
  {
  }

  lemma DivBelowOne(x: real, m: real)
    requires 0.0 <= x < m
    ensures 0.0 <= x / m < 1.0
  {
    assert x / m * m == x;
  }

  /** Python's float modulo `x % m` for m > 0: the result has the sign of m. */
  function FloorMod(x: real, m: real): (r: real)
    requires m > 0.0
    ensures 0.0 <= r < m
    ensures 0.0 <= x < m ==> r == x
  {
    var q := (x / m).Floor;
    var f := x / m - q as real;
    ScaleFraction(m, f);
    assert 0.0 <= x < m ==> 0.0 <= x / m < 1.0 by {
      if 0.0 <= x < m {
        DivBelowOne(x, m);
      }
    }
    assert x - m * q as real == m * f;
    x - m * q as real
  }

  lemma DivShift(x: real, m: real, k: int)
    requires m > 0.0
    ensures x / m == (x - m * k as real) / m + k as real
  {
    var d := x / m;
    var e := (x - m * k as real) / m;
    assert d * m == x;
    assert e * m == x - m * k as real;
    assert (e + k as real) * m == d * m;
  }

  /** The floor modulo is the unique shift of x by a multiple of m that lands in [0, m). */
  lemma FloorModShift(x: real, m: real, k: int)
    requires m > 0.0 && 0.0 <= x - m * k as real < m
    ensures FloorMod(x, m) == x - m * k as real
  {
    var r := x - m * k as real;
    DivBelowOne(r, m);
    DivShift(x, m, k);
    assert (x / m).Floor == k;
  }
}

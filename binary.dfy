/** Go's fixed-width integer types and the codec's integer helpers
    (BinaryLength, ToBinarySlice, ToBin, FromBin): conversions between a
    uint64 and its minimal big-endian byte form. */
module Binary {

  const TWO_TO_THE_32: int := 0x1_0000_0000
  const TWO_TO_THE_64: int := 0x1_0000_0000_0000_0000

  type uint8 = x: int | 0 <= x < 0x100
  type uint32 = x: int | 0 <= x < TWO_TO_THE_32
  type uint64 = x: int | 0 <= x < TWO_TO_THE_64
  type int64 = x: int | -0x8000_0000_0000_0000 <= x < 0x8000_0000_0000_0000

  /** Largest length of a Go string or slice (its `len` is a non-negative int). */
  const MAX_LEN: int := 0x8000_0000_0000_0000

  type GoBytes = s: seq<uint8> | |s| < MAX_LEN witness []

  /** 256 to the power k. */
  function Pow256(k: nat): (r: nat)
    ensures r > 0
  {
    if k == 0 then 1 else 256 * Pow256(k - 1)
  }

  /** The unbounded value of a big-endian base-256 digit sequence: the
      reference reading against which the uint64 helpers are stated. */
  function BigEndianValue(s: seq<int>): (r: int) {
    if |s| == 0 then 0 else BigEndianValue(s[..|s| - 1]) * 256 + s[|s| - 1]
  }

  /** Every element is a byte value. */
  predicate AllDigits(s: seq<int>) {
    forall i :: 0 <= i < |s| ==> 0 <= s[i] < 256
  }

  /** Minimal form: no leading zero byte (so zero is the empty sequence). */
  predicate NoLeadingZero(s: seq<int>) {
    |s| == 0 || s[0] != 0
  }

  lemma {:induction false} BigEndianValueBounds(s: seq<int>)
    requires AllDigits(s)
    ensures 0 <= BigEndianValue(s) < Pow256(|s|)
    ensures NoLeadingZero(s) && |s| > 0 ==> Pow256(|s| - 1) <= BigEndianValue(s)
  {
    if |s| > 0 {
      var init := s[..|s| - 1];
      BigEndianValueBounds(init);
      if |init| > 0 {
        assert init[0] == s[0];
      }
    }
  }

  /** The number of bytes of n's minimal big-endian form (rlp.go BinaryLength). */
  function BinaryLength(n: uint64): (r: uint64)
    ensures r <= 8
    ensures r == 0 <==> n == 0
    ensures n < Pow256(r)
    ensures r > 0 ==> Pow256(r - 1) <= n
  {
    if n == 0 then 0 else 1 + BinaryLength(n / 256)
  }

  /** The base-256 digits of n, most significant first (rlp.go ToBinarySlice).
      The `length` argument is overwritten and never read, so it cannot
      affect the result; the contract does not mention it. */
  function ToBinarySlice(n: uint64, length: uint64): (r: seq<uint64>)
    ensures |r| == BinaryLength(n)
    ensures AllDigits(r)
    ensures NoLeadingZero(r)
    ensures BigEndianValue(r) == n
  {
    if n == 0 then []
    else
      var init := ToBinarySlice(n / 256, 0);
      var r := init + [n % 256];
      assert r[..|r| - 1] == init;
      assert |init| > 0 ==> r[0] == init[0];
      r
  }

  /** Go's `byte(v)` conversion of each element: truncation to 8 bits. */
  function Truncate(vals: seq<uint64>): (r: seq<uint8>)
    ensures |r| == |vals|
  {
    seq(|vals|, i requires 0 <= i < |vals| => vals[i] % 256)
  }

  /** The bytes ToBin writes for n: its minimal big-endian form. */
  function MinimalBytes(n: uint64): (r: seq<uint8>)
    ensures |r| == BinaryLength(n)
    ensures NoLeadingZero(r)
    ensures BigEndianValue(r) == n
  {
    if n == 0 then []
    else
      var init := MinimalBytes(n / 256);
      var r := init + [n % 256];
      assert r[..|r| - 1] == init;
      assert |init| > 0 ==> r[0] == init[0];
      r
  }

  /** The length argument has no effect on the digits. */
  lemma {:induction false} ToBinarySliceIgnoresLength(n: uint64, length: uint64)
    ensures ToBinarySlice(n, length) == ToBinarySlice(n, 0)
  {
  }

  /** Writing each element of ToBinarySlice(n, _) as a byte gives the
      minimal form: the digits are already bytes, and they are the same. */
  lemma {:induction false} TruncateDigits(n: uint64)
    ensures Truncate(ToBinarySlice(n, 0)) == MinimalBytes(n)
  {
    var digits := ToBinarySlice(n, 0);
    assert Truncate(digits) == digits;
    DigitsAreMinimalBytes(n);
  }

  lemma {:induction false} DigitsAreMinimalBytes(n: uint64)
    ensures ToBinarySlice(n, 0) == MinimalBytes(n)
  {
    if n > 0 {
      DigitsAreMinimalBytes(n / 256);
    }
  }

  /** rlp.go ToBin: writes each element of ToBinarySlice(n, length) as a byte. */
  method ToBin(n: uint64, length: uint64) returns (buf: seq<uint8>)
    ensures buf == MinimalBytes(n)
  {
    var digits := ToBinarySlice(n, length);
    buf := [];
    for i := 0 to |digits|
      invariant buf == Truncate(digits[..i])
    {
      buf := buf + [digits[i] % 256];
    }
    assert digits[..|digits|] == digits;
    TruncateDigits(n);
  }

  /** The minimal form is the only digit sequence without a leading zero
      that denotes n: so ToBin is injective and is undone by FromBin on
      both sides. */
  lemma {:induction false} MinimalFormUnique(s: seq<uint8>, n: uint64)
    requires NoLeadingZero(s)
    requires BigEndianValue(s) == n
    ensures s == MinimalBytes(n)
  {
    BigEndianValueBounds(s);
    if |s| > 0 {
      var init := s[..|s| - 1];
      var last := s[|s| - 1];
      assert n == BigEndianValue(init) * 256 + last;
      DivModUnique(n, BigEndianValue(init), last, 256);
      if |init| > 0 {
        assert init[0] == s[0];
      }
      MinimalFormUnique(init, n / 256);
      assert s == init + [last];
    }
  }

  /** rlp.go FromBin: big-endian bytes to a uint64 in Go's wrapping uint64
      arithmetic, which makes it the big-endian value modulo 2^64: exact for
      at most eight bytes, wrapped for longer input. */
  function FromBin(data: seq<uint8>): (r: uint64)
    ensures r == BigEndianValue(data) % TWO_TO_THE_64
  {
    if |data| == 0 then 0
    else
      var init := data[..|data| - 1];
      ModMulAdd(BigEndianValue(init), 256, data[|data| - 1], TWO_TO_THE_64);
      (FromBin(init) * 256 + data[|data| - 1]) % TWO_TO_THE_64
  }

  /** Reducing before a multiply-add gives the same residue. */
  lemma {:induction false} ModMulAdd(a: int, k: int, d: int, m: int)
    requires m > 0
    ensures ((a % m) * k + d) % m == (a * k + d) % m
  {
    var q := a / m;
    assert a == q * m + a % m;
    assert a * k + d == (a % m) * k + d + (q * k) * m;
    ModAddMultiple((a % m) * k + d, q * k, m);
  }

  lemma {:induction false} ModAddMultiple(x: int, j: int, m: int)
    requires m > 0
    ensures (x + j * m) % m == x % m
  {
    var q := x / m;
    assert x == q * m + x % m;
    assert x + j * m == (q + j) * m + x % m;
    DivModUnique(x + j * m, q + j, x % m, m);
  }

  /** Euclidean division has one quotient and one remainder. */
  lemma {:induction false} DivModUnique(y: int, a: int, r: int, m: int)
    requires m > 0 && 0 <= r < m
    requires y == a * m + r
    ensures y / m == a && y % m == r
  {
    var q, s := y / m, y % m;
    assert y == q * m + s;
    assert (a - q) * m == s - r;
    if a > q {
      MulAtLeast(a - q, m);
    } else if a < q {
      MulAtLeast(q - a, m);
    }
  }

  lemma {:induction false} MulAtLeast(k: int, m: int)
    requires k >= 1 && m > 0
    ensures k * m >= m
  {
    assert k * m == (k - 1) * m + m;
    assert (k - 1) * m >= 0;
  }

  lemma {:induction false} Pow256Eight()
    ensures Pow256(8) == TWO_TO_THE_64
  {
    assert Pow256(1) == 0x100;
    assert Pow256(2) == 0x1_0000;
    assert Pow256(3) == 0x100_0000;
    assert Pow256(4) == 0x1_0000_0000;
    assert Pow256(5) == 0x100_0000_0000;
    assert Pow256(6) == 0x1_0000_0000_0000;
    assert Pow256(7) == 0x100_0000_0000_0000;
  }

  /** FromBin undoes ToBin for every uint64. */
  lemma {:induction false} FromBinToBin(n: uint64)
    ensures FromBin(MinimalBytes(n)) == n
  {
    DivModUnique(n, 0, n, TWO_TO_THE_64);
  }

  /** ToBin undoes FromBin on every minimal form of at most eight bytes. */
  lemma {:induction false} ToBinFromBin(s: seq<uint8>)
    requires NoLeadingZero(s) && |s| <= 8
    ensures MinimalBytes(FromBin(s)) == s
  {
    BigEndianValueBounds(s);
    PowMonotone(|s|, 8);
    Pow256Eight();
    var v := BigEndianValue(s);
    DivModUnique(v, 0, v, TWO_TO_THE_64);
    MinimalFormUnique(s, v);
  }

  lemma {:induction false} PowMonotone(j: nat, k: nat)
    requires j <= k
    ensures Pow256(j) <= Pow256(k)
  {
    if j < k {
      PowMonotone(j, k - 1);
    }
  }
}

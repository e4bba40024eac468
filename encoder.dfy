/** The encoder of rlp.go (Encode). Go dispatches on the dynamic type of an
    interface{} argument; here that argument is the closed datatype Input,
    one constructor per case of the type switch plus Nil and Unsupported. */
module Encoder {
  import opened Binary

  type GoSlice<T> = s: seq<T> | |s| < MAX_LEN witness []

  /** The Go values Encode distinguishes. */
  datatype Input =
    | Nil                              // the nil interface
    | Int(i: int64)                    // int (64 bits)
    | U32(u32: uint32)                 // uint32
    | U64(u64: uint64)                 // uint64
    | U8(b: uint8)                     // byte
    | BigInt(z: GoBigInt)               // *big.Int
    | NilBigInt                        // a nil *big.Int
    | Str(str: GoBytes)                // string
    | ByteSlice(bytes: GoBytes)          // []byte
    | Slice(items: GoSlice<Input>)     // []interface{}
    | StringSlice(strs: GoSlice<GoBytes>)   // []string
    | Unsupported                      // any other type: no case matches

  /** Go's uint32(t) conversion of an int: wrap-around modulo 2^32. */
  function Wrap32(i: int64): (r: uint32)
    ensures (r - i) % TWO_TO_THE_32 == 0
  {
    i % TWO_TO_THE_32
  }

  /** The uint32/uint64 case. The guard `num <= uint64(math.Pow(2, 256))`
      holds of every uint64 read mathematically, so the long integer form
      is never written. */
  function EncodeUint(n: uint64): (r: seq<uint8>)
    ensures n < 24 ==> r == [n]
    ensures n >= 24 ==> |r| == 1 + BinaryLength(n) && 24 <= r[0] < 32
  {
    if n < 24 then [n]
    else
      var b := MinimalBytes(n);
      [|b| + 23] + b
  }

  /** The string case (also []byte, *big.Int and nil). */
  function EncodeString(s: GoBytes): (r: seq<uint8>)
    ensures |r| == 1 + (if |s| < 56 then 0 else BinaryLength(|s|)) + |s|
    ensures 64 <= r[0] < 128
  {
    if |s| < 56 then [|s| + 64] + s
    else
      var b2 := MinimalBytes(|s|);
      [|b2| + 119] + b2 + s
  }

  /** WriteSliceHeader: the element count in the tag, or the tag and the
      count's minimal bytes. */
  function SliceHeader(length: nat): (r: seq<uint8>)
    requires length < MAX_LEN
    ensures |r| == 1 + (if length < 56 then 0 else BinaryLength(length))
    ensures 128 <= r[0] < 192
    ensures length >= 56 ==> r[1..] == MinimalBytes(length)
  {
    if length < 56 then [length + 128]
    else
      var b2 := MinimalBytes(length);
      [|b2| + 183] + b2
  }

  const MINUS: uint8 := 45  // '-'
  const ZERO: uint8 := 48   // '0'

  /** A big integer whose decimal text fits in a Go string. */
  type GoBigInt = z: int | |DecimalText(z)| < MAX_LEN witness 0

  /** big.Int's String(): decimal digits, with a leading '-' when negative. */
  function DecimalText(z: int): (r: seq<uint8>)
    ensures |r| > 0
  {
    if z < 0 then [MINUS] + Digits(-z) else Digits(z)
  }

  /** The decimal digits of n, most significant first, without leading
      zeros ("0" for zero). */
  function Digits(n: nat): (r: seq<uint8>)
    ensures 0 < |r|
  {
    if n < 10 then [ZERO + n] else Digits(n / 10) + [ZERO + n % 10]
  }

  /** Every byte of Digits(n) is a decimal digit, and there is no leading
      zero unless the number is zero itself. */
  lemma {:induction false} DigitsAreDecimal(n: nat)
    ensures forall i :: 0 <= i < |Digits(n)| ==> ZERO <= Digits(n)[i] <= ZERO + 9
    ensures |Digits(n)| > 1 ==> Digits(n)[0] != ZERO
    ensures Digits(n) == [ZERO] <==> n == 0
  {
    if n >= 10 {
      DigitsAreDecimal(n / 10);
      assert Digits(n)[0] == Digits(n / 10)[0];
    }
  }

  /** The cases Encode writes as an integer: int and byte go through
      uint32, as in Go. */
  predicate IsNumber(x: Input) {
    x.Int? || x.U32? || x.U64? || x.U8?
  }

  /** The integer the caller passed, whatever its Go type. */
  function GoInteger(x: Input): (r: int)
    requires IsNumber(x)
  {
    match x
    case Int(i) => i
    case U32(u) => u
    case U64(u) => u
    case U8(b) => b
  }

  /** The uint64 an integer case is written as: the integer itself when it
      fits the type it passes through, and otherwise (a negative or large
      int) the uint32 congruent to it. */
  function NumberOf(x: Input): (r: uint64)
    requires IsNumber(x)
    ensures x.U64? || 0 <= GoInteger(x) < TWO_TO_THE_32 ==> r == GoInteger(x)
    ensures !x.U64? ==> r < TWO_TO_THE_32 && (r - GoInteger(x)) % TWO_TO_THE_32 == 0
  {
    match x
    case Int(i) => Wrap32(i)
    case U32(u) => u
    case U64(u) => u
    case U8(b) => b
  }

  /** The cases Encode writes as a string: nil as "", a *big.Int as the
      text of its String() method, a []byte as the string of its bytes. */
  predicate IsText(x: Input) {
    x.Nil? || x.BigInt? || x.NilBigInt? || x.Str? || x.ByteSlice?
  }

  /** What String() returns for a nil *big.Int. */
  const NIL_TEXT: seq<uint8> := [60, 110, 105, 108, 62]  // "<nil>"

  /** The bytes a string case is written as. */
  function TextOf(x: Input): (r: GoBytes)
    requires IsText(x)
  {
    match x
    case Nil => []
    case BigInt(z) => DecimalText(z)
    case NilBigInt => NIL_TEXT
    case Str(s) => s
    case ByteSlice(s) => s
  }

  /** The text of a *big.Int reads back as its value; that of a nil
      *big.Int reads as no number. */
  lemma {:induction false} TextParsesBack(x: Input)
    requires x.BigInt? || x.NilBigInt?
    ensures x.BigInt? ==> ParseDecimal(TextOf(x)) == Some(x.z)
    ensures x.NilBigInt? ==> ParseDecimal(TextOf(x)) == None
  {
    if x.BigInt? {
      ParseDecimalText(x.z);
    }
  }

  // Reading big.Int's decimal text back.

  datatype Option<T> = None | Some(value: T)

  predicate IsDigit(c: uint8) {
    ZERO <= c <= ZERO + 9
  }

  /** Digits only, at least one, and no leading zero unless it is "0". */
  predicate Canonical(s: seq<uint8>) {
    |s| > 0 && (forall i :: 0 <= i < |s| ==> IsDigit(s[i])) && (|s| == 1 || s[0] != ZERO)
  }

  /** The number a run of decimal digits denotes. */
  function DigitsValue(s: seq<uint8>): (r: nat)
    requires forall i :: 0 <= i < |s| ==> IsDigit(s[i])
  {
    if |s| == 0 then 0 else assert IsDigit(s[|s| - 1]); DigitsValue(s[..|s| - 1]) * 10 + (s[|s| - 1] as int - ZERO as int)
  }

  /** Decimal text as String() writes it: canonical digits, after a '-'
      for a negative number. */
  function ParseDecimal(s: seq<uint8>): (r: Option<int>)
  {
    if |s| > 1 && s[0] == MINUS && Canonical(s[1..]) && s[1..] != [ZERO] then Some(-(DigitsValue(s[1..]) as int))
    else if Canonical(s) then Some(DigitsValue(s))
    else None
  }

  /** Digits(n) reads back as n. */
  lemma {:induction false} DigitsValueOfDigits(n: nat)
    ensures forall i :: 0 <= i < |Digits(n)| ==> IsDigit(Digits(n)[i])
    ensures DigitsValue(Digits(n)) == n
  {
    DigitsAreDecimal(n);
    if n >= 10 {
      DigitsValueOfDigits(n / 10);
      var d := Digits(n);
      assert d[..|d| - 1] == Digits(n / 10);
    }
  }

  /** ParseDecimal undoes DecimalText: the decimal text of every integer
      parses back to it. */
  lemma {:induction false} ParseDecimalText(z: int)
    ensures ParseDecimal(DecimalText(z)) == Some(z)
  {
    if z < 0 {
      var d := Digits(-z);
      DigitsValueOfDigits(-z);
      DigitsAreDecimal(-z);
      assert DecimalText(z)[1..] == d;
      assert !IsDigit(MINUS);
    } else {
      DigitsValueOfDigits(z);
      DigitsAreDecimal(z);
    }
  }

  /** Canonical digits are the digits of their own value. */
  lemma {:induction false} CanonicalDigits(t: seq<uint8>)
    requires Canonical(t)
    ensures Digits(DigitsValue(t)) == t
    decreases |t|
  {
    var d := t[|t| - 1];
    assert IsDigit(d);
    if |t| > 1 {
      var init := t[..|t| - 1];
      assert init[0] == t[0];
      assert Canonical(init) by {
        forall i | 0 <= i < |init| ensures IsDigit(init[i]) {
          assert init[i] == t[i];
        }
      }
      CanonicalDigits(init);
      var v' := DigitsValue(init);
      assert v' != 0;
      var v := DigitsValue(t);
      assert v == v' * 10 + (d - ZERO);
      DivModUnique(v, v', d - ZERO, 10);
      assert t == init + [d];
    }
  }

  /** ParseDecimal reads only the text DecimalText writes: what it parses
      is the String() text of the number it returns. */
  lemma {:induction false} ParseDecimalInverse(s: seq<uint8>)
    requires ParseDecimal(s).Some?
    ensures DecimalText(ParseDecimal(s).value) == s
  {
    if |s| > 1 && s[0] == MINUS && Canonical(s[1..]) && s[1..] != [ZERO] {
      var t := s[1..];
      CanonicalDigits(t);
      assert DigitsValue(t) != 0;
      assert s == [MINUS] + t;
    } else {
      CanonicalDigits(s);
    }
  }

  /** What rlp.go Encode returns for each input. */
  function Encoding(x: Input): (r: seq<uint8>)
    decreases x
  {
    if IsNumber(x) then EncodeUint(NumberOf(x))
    else if IsText(x) then EncodeString(TextOf(x))
    else match x
      case Slice(items) => SliceHeader(|items|) + EncodedItems(items, |items|)
      case StringSlice(strs) => SliceHeader(|strs|) + EncodedStrings(strs, |strs|)
      case Unsupported => []
  }

  /** The first byte of an encoding tells its kind: below 32 for an
      integer, 64 to 127 for a string, 128 to 191 for a list; only an
      unsupported type writes nothing. */
  lemma {:induction false} EncodingTag(x: Input)
    ensures |Encoding(x)| == 0 <==> x.Unsupported?
    ensures IsNumber(x) ==> Encoding(x)[0] < 32
    ensures IsText(x) ==> 64 <= Encoding(x)[0] < 128
    ensures x.Slice? || x.StringSlice? ==> 128 <= Encoding(x)[0] < 192
  {
  }

  /** The encodings of the first k items of a []interface{}, concatenated
      in order. */
  function EncodedItems(items: seq<Input>, k: nat): (r: seq<uint8>)
    requires k <= |items|
    decreases items, k
  {
    if k == 0 then [] else EncodedItems(items, k - 1) + Encoding(items[k - 1])
  }

  /** The encodings of the first k strings of a []string, concatenated in
      order. */
  function EncodedStrings(strs: seq<GoBytes>, k: nat): (r: seq<uint8>)
    requires k <= |strs|
  {
    if k == 0 then [] else EncodedStrings(strs, k - 1) + EncodeString(strs[k - 1])
  }

  /** rlp.go Encode: the type switch writing into a bytes.Buffer. */
  method Encode(x: Input) returns (buff: seq<uint8>)
    decreases x
    ensures buff == Encoding(x)
  {
    match x {
      case Nil => buff := EncodeString([]);
      case Int(i) => buff := EncodeUint(Wrap32(i));
      case U32(num) => buff := EncodeUint(num);
      case U64(num) => buff := EncodeUint(num);
      case U8(b) => buff := EncodeUint(b);
      case BigInt(z) => buff := EncodeString(DecimalText(z));
      case NilBigInt => buff := EncodeString(NIL_TEXT);
      case Str(t) => buff := EncodeString(t);
      case ByteSlice(t) => buff := EncodeString(t);
      case Slice(items) =>
        var body := EncodeItems(items);
        buff := SliceHeader(|items|) + body;
      case StringSlice(strs) =>
        var body := EncodeStrings(strs);
        buff := SliceHeader(|strs|) + body;
      case Unsupported => buff := [];
    }
  }

  /** The loop writing the encoding of each []interface{} element. */
  method EncodeItems(items: seq<Input>) returns (buff: seq<uint8>)
    decreases items
    ensures buff == EncodedItems(items, |items|)
  {
    buff := [];
    for i := 0 to |items|
      invariant buff == EncodedItems(items, i)
    {
      var item := Encode(items[i]);
      buff := buff + item;
    }
  }

  /** The loop writing the encoding of each []string element. */
  method EncodeStrings(strs: seq<GoBytes>) returns (buff: seq<uint8>)
    ensures buff == EncodedStrings(strs, |strs|)
  {
    buff := [];
    for i := 0 to |strs|
      invariant buff == EncodedStrings(strs, i)
    {
      buff := buff + EncodeString(strs[i]);
    }
  }
}

/** How rlp.go's Decode reads back what its Encode writes: the round trip
    for every input whose lists are short, the value each input comes back
    as, and the long-list form, which does not come back. */
module RoundTrip {
  import opened Binary
  import opened Encoder
  import opened Decoder

  /** s sits in data starting at pos. */
  predicate Occurs(data: seq<uint8>, pos: nat, s: seq<uint8>) {
    pos + |s| <= |data| && data[pos..pos + |s|] == s
  }

  lemma {:induction false} OccursWhole(data: seq<uint8>)
    ensures Occurs(data, 0, data)
  {
    assert data[0..|data|] == data;
  }

  /** What occurs at pos splits into its two parts, one after the other. */
  lemma {:induction false} OccursSplit(data: seq<uint8>, pos: nat, a: seq<uint8>, b: seq<uint8>)
    requires Occurs(data, pos, a + b)
    ensures Occurs(data, pos, a) && Occurs(data, pos + |a|, b)
  {
    var t := data[pos..pos + |a| + |b|];
    assert data[pos..pos + |a|] == t[..|a|];
    assert data[pos + |a|..pos + |a| + |b|] == t[|a|..];
    assert (a + b)[..|a|] == a;
    assert (a + b)[|a|..] == b;
  }

  /** The first byte of what occurs at pos, and the rest after it. */
  lemma {:induction false} OccursHead(data: seq<uint8>, pos: nat, t: uint8, rest: seq<uint8>)
    requires Occurs(data, pos, [t] + rest)
    ensures pos < |data| && data[pos] == t && Occurs(data, pos + 1, rest)
  {
    OccursSplit(data, pos, [t], rest);
    OccursFirst(data, pos, t);
  }

  /** A single byte at pos. */
  lemma {:induction false} OccursFirst(data: seq<uint8>, pos: nat, t: uint8)
    requires Occurs(data, pos, [t])
    ensures pos < |data| && data[pos] == t
  {
    assert data[pos..pos + 1][0] == data[pos];
  }

  /** A tag, then a length field, then a payload. */
  lemma {:induction false} OccursLong(data: seq<uint8>, pos: nat, t: uint8, b2: seq<uint8>, s: seq<uint8>)
    requires Occurs(data, pos, [t] + b2 + s)
    ensures pos < |data| && data[pos] == t
    ensures pos + 1 + |b2| + |s| <= |data|
    ensures data[pos + 1..pos + 1 + |b2|] == b2
    ensures data[pos + 1 + |b2|..pos + 1 + |b2| + |s|] == s
  {
    OccursSplit(data, pos, [t] + b2, s);
    OccursHead(data, pos, t, b2);
  }

  /** Decode returns integers below 24 as a byte and larger ones as a uint64. */
  function NumberValue(n: uint64): (r: Value) {
    if n < 24 then Byte(n) else Uint(n)
  }

  /** Inputs that survive the round trip: every list, at every depth, has
      fewer than 56 elements, and no value is of an unsupported type. */
  predicate RoundTrips(x: Input)
    decreases x
  {
    match x
    case Slice(items) => |items| < 56 && forall i :: 0 <= i < |items| ==> RoundTrips(items[i])
    case StringSlice(strs) => |strs| < 56
    case Unsupported => false
    case _ => true
  }

  /** The value Decode gives back for the encoding of x. */
  function Expected(x: Input): (r: Value)
    decreases x
  {
    if IsNumber(x) then NumberValue(NumberOf(x))
    else if IsText(x) then Bytes(TextOf(x))
    else match x
      case Slice(items) => List(ExpectedItems(items, |items|))
      case StringSlice(strs) => List(ExpectedStrings(strs, |strs|))
      // never used: RoundTrips excludes an unsupported type, whose
      // encoding is empty and does not decode
      case Unsupported => List([])
  }

  /** The values of the first k items. */
  function ExpectedItems(items: seq<Input>, k: nat): (r: seq<Value>)
    requires k <= |items|
    decreases items, k
    ensures |r| == k
  {
    if k == 0 then [] else ExpectedItems(items, k - 1) + [Expected(items[k - 1])]
  }

  /** The values of the first k strings. */
  function ExpectedStrings(strs: seq<GoBytes>, k: nat): (r: seq<Value>)
    requires k <= |strs|
    ensures |r| == k
  {
    if k == 0 then [] else ExpectedStrings(strs, k - 1) + [Bytes(strs[k - 1])]
  }

  /** The uint32/uint64 case decodes back to the number. */
  lemma {:induction false} DecodeEncodeUint(data: seq<uint8>, pos: nat, n: uint64)
    requires Occurs(data, pos, EncodeUint(n))
    ensures DecodesAs(data, pos, NumberValue(n), pos + |EncodeUint(n)|)
  {
    if n < 24 {
      DecodeSmallUint(data, pos, n);
    } else {
      DecodeShortUint(data, pos, n);
    }
  }

  /** A number below 24 is its own encoding and decodes as that byte. */
  lemma {:induction false} DecodeSmallUint(data: seq<uint8>, pos: nat, n: uint64)
    requires n < 24 && Occurs(data, pos, EncodeUint(n))
    ensures DecodesAs(data, pos, NumberValue(n), pos + |EncodeUint(n)|)
  {
    OccursFirst(data, pos, n);
    DecodedSmall(data, pos);
  }

  /** A number from 24 on decodes from its tag and minimal big-endian bytes. */
  lemma {:induction false} DecodeShortUint(data: seq<uint8>, pos: nat, n: uint64)
    requires n >= 24 && Occurs(data, pos, EncodeUint(n))
    ensures DecodesAs(data, pos, NumberValue(n), pos + |EncodeUint(n)|)
  {
    FromBinToBin(n);
    ShortUintAt(data, pos, MinimalBytes(n));
  }

  /** The string case decodes back to the bytes of the string. */
  lemma {:induction false} DecodeEncodeString(data: seq<uint8>, pos: nat, s: GoBytes)
    requires Occurs(data, pos, EncodeString(s))
    ensures DecodesAs(data, pos, Bytes(s), pos + |EncodeString(s)|)
  {
    if |s| < 56 {
      ShortStringAt(data, pos, s);
    } else {
      var b2 := MinimalBytes(|s|);
      DecodeLongString(data, pos, b2, s);
    }
  }

  /** The short integer form at pos decodes to its payload's value. */
  lemma {:induction false} ShortUintAt(data: seq<uint8>, pos: nat, b: seq<uint8>)
    requires 1 <= |b| <= 8
    requires Occurs(data, pos, [|b| + 23] + b)
    ensures DecodesAs(data, pos, Uint(FromBin(b)), pos + 1 + |b|)
  {
    OccursHead(data, pos, |b| + 23, b);
    DecodedShortInteger(data, pos, b);
  }

  /** The short string form at pos decodes to its payload. */
  lemma {:induction false} ShortStringAt(data: seq<uint8>, pos: nat, s: seq<uint8>)
    requires |s| < 56
    requires Occurs(data, pos, [|s| + 64] + s)
    ensures DecodesAs(data, pos, Bytes(s), pos + 1 + |s|)
  {
    OccursHead(data, pos, |s| + 64, s);
    DecodedShortString(data, pos, s);
  }

  /** The long integer form at pos decodes to its payload's value. */
  lemma {:induction false} LongUintAt(data: seq<uint8>, pos: nat, b2: seq<uint8>, b: seq<uint8>)
    requires 1 <= |b2| <= 8 && FromBin(b2) == |b|
    requires Occurs(data, pos, [|b2| + 55] + b2 + b)
    ensures DecodesAs(data, pos, Uint(FromBin(b)), pos + 1 + |b2| + |b|)
  {
    OccursLong(data, pos, |b2| + 55, b2, b);
    DecodedLongInteger(data, pos, b2, b);
  }

  lemma {:induction false} DecodeLongString(data: seq<uint8>, pos: nat, b2: seq<uint8>, s: GoBytes)
    requires |s| >= 56 && b2 == MinimalBytes(|s|)
    requires Occurs(data, pos, [|b2| + 119] + b2 + s)
    ensures DecodesAs(data, pos, Bytes(s), pos + 1 + |b2| + |s|)
  {
    OccursLong(data, pos, |b2| + 119, b2, s);
    FromBinToBin(|s|);
    DecodedLongString(data, pos, b2, s);
  }

  /** The round trip, at any position of any buffer holding the encoding. */
  lemma {:induction false} DecodeEncoding(data: seq<uint8>, pos: nat, x: Input)
    requires RoundTrips(x)
    requires Occurs(data, pos, Encoding(x))
    ensures DecodesAs(data, pos, Expected(x), pos + |Encoding(x)|)
    decreases x, 2
  {
    if IsNumber(x) {
      DecodeEncodeNumber(data, pos, x);
    } else if IsText(x) {
      DecodeEncodeText(data, pos, x);
    } else if x.Slice? {
      DecodeEncodeSliceInput(data, pos, x);
    } else {
      DecodeEncodeStringSliceInput(data, pos, x);
    }
  }

  lemma {:induction false} DecodeEncodeSliceInput(data: seq<uint8>, pos: nat, x: Input)
    requires x.Slice? && RoundTrips(x)
    requires Occurs(data, pos, Encoding(x))
    ensures DecodesAs(data, pos, Expected(x), pos + |Encoding(x)|)
    decreases x, 1
  {
    assert Encoding(x) == SliceHeader(|x.items|) + EncodedItems(x.items, |x.items|);
    assert Expected(x) == List(ExpectedItems(x.items, |x.items|));
    DecodeEncodeSlice(data, pos, x.items);
  }

  lemma {:induction false} DecodeEncodeStringSliceInput(data: seq<uint8>, pos: nat, x: Input)
    requires x.StringSlice? && RoundTrips(x)
    requires Occurs(data, pos, Encoding(x))
    ensures DecodesAs(data, pos, Expected(x), pos + |Encoding(x)|)
  {
    var n := |x.strs|;
    var items := seq(n, j requires 0 <= j < n => Str(x.strs[j]));
    StringSliceAsItems(x, items);
    StringElementsDecode(data, x.strs, items);
    DecodeShortItems(data, pos, items);
  }

  /** A []string is written, and decodes, as the []interface{} of the same
      strings. */
  lemma {:induction false} StringSliceAsItems(x: Input, items: seq<Input>)
    requires x.StringSlice? && |items| == |x.strs|
    requires forall j :: 0 <= j < |items| ==> items[j] == Str(x.strs[j])
    ensures Encoding(x) == SliceHeader(|items|) + EncodedItems(items, |items|)
    ensures Expected(x) == List(ExpectedItems(items, |items|))
  {
    StringsAsItems(x.strs, items, |items|);
  }

  /** The integer cases decode back to the number they are written as. */
  lemma {:induction false} DecodeEncodeNumber(data: seq<uint8>, pos: nat, x: Input)
    requires IsNumber(x)
    requires Occurs(data, pos, Encoding(x))
    ensures DecodesAs(data, pos, Expected(x), pos + |Encoding(x)|)
  {
    assert Encoding(x) == EncodeUint(NumberOf(x));
    assert Expected(x) == NumberValue(NumberOf(x));
    DecodeEncodeUint(data, pos, NumberOf(x));
  }

  /** The string cases decode back to the bytes they are written as. */
  lemma {:induction false} DecodeEncodeText(data: seq<uint8>, pos: nat, x: Input)
    requires IsText(x)
    requires Occurs(data, pos, Encoding(x))
    ensures DecodesAs(data, pos, Expected(x), pos + |Encoding(x)|)
  {
    TextEncoding(x);
    DecodeEncodeString(data, pos, TextOf(x));
  }

  /** A string case is written, and decodes, as the string of its text. */
  lemma {:induction false} TextEncoding(x: Input)
    requires IsText(x)
    ensures Encoding(x) == EncodeString(TextOf(x))
    ensures Expected(x) == Bytes(TextOf(x))
  {
  }

  /** A string inside a []string decodes as the string on its own does. */
  lemma {:induction false} DecodeEncodeStr(data: seq<uint8>, pos: nat, s: GoBytes)
    requires Occurs(data, pos, Encoding(Str(s)))
    ensures DecodesAs(data, pos, Expected(Str(s)), pos + |Encoding(Str(s))|)
  {
    DecodeEncodeText(data, pos, Str(s));
  }

  /** A short []interface{} decodes to the list of its elements' values. */
  lemma {:induction false} DecodeEncodeSlice(data: seq<uint8>, pos: nat, items: GoSlice<Input>)
    requires |items| < 56 && forall i :: 0 <= i < |items| ==> RoundTrips(items[i])
    requires Occurs(data, pos, SliceHeader(|items|) + EncodedItems(items, |items|))
    ensures Decoded(data, pos)
      == Ok((List(ExpectedItems(items, |items|)), pos + 1 + |EncodedItems(items, |items|)|))
    decreases items, 1
  {
    SliceElementsDecode(data, items);
    DecodeShortItems(data, pos, items);
  }

  /** A short list whose elements each decode wherever their encodings sit
      decodes to the list of their values. */
  lemma {:induction false} DecodeShortItems(data: seq<uint8>, pos: nat, items: seq<Input>)
    requires |items| < 56 && ElementsDecode(data, items)
    requires Occurs(data, pos, SliceHeader(|items|) + EncodedItems(items, |items|))
    ensures DecodesAs(data, pos, List(ExpectedItems(items, |items|)), pos + 1 + |EncodedItems(items, |items|)|)
  {
    var n := |items|;
    assert SliceHeader(n) == [n + 128];
    OccursHead(data, pos, n + 128, EncodedItems(items, n));
    ItemsDecodeAsConcat(data, pos + 1, items, n);
    DecodedShortList(data, pos, n, ExpectedItems(items, n), pos + 1 + |EncodedItems(items, n)|);
  }

  /** Every element of items decodes wherever its encoding sits. */
  ghost predicate ElementsDecode(data: seq<uint8>, items: seq<Input>)
  {
    forall j, p: nat :: 0 <= j < |items| && Occurs(data, p, Encoding(items[j]))
      ==> DecodesAs(data, p, Expected(items[j]), p + |Encoding(items[j])|)
  }

  /** The elements of a []interface{} whose elements all round-trip decode
      wherever their encodings sit. */
  lemma {:induction false} SliceElementsDecode(data: seq<uint8>, items: seq<Input>)
    requires forall i :: 0 <= i < |items| ==> RoundTrips(items[i])
    ensures ElementsDecode(data, items)
    decreases items, 0
  {
    forall j, p: nat | 0 <= j < |items| && Occurs(data, p, Encoding(items[j]))
      ensures DecodesAs(data, p, Expected(items[j]), p + |Encoding(items[j])|)
    {
      DecodeEncoding(data, p, items[j]);
    }
  }

  /** The strings of a []string, taken as elements, decode wherever their
      encodings sit. */
  lemma {:induction false} StringElementsDecode(data: seq<uint8>, strs: seq<GoBytes>, items: seq<Input>)
    requires |strs| == |items|
    requires forall j :: 0 <= j < |strs| ==> items[j] == Str(strs[j])
    ensures ElementsDecode(data, items)
  {
    forall j, p: nat | 0 <= j < |items| && Occurs(data, p, Encoding(items[j]))
      ensures DecodesAs(data, p, Expected(items[j]), p + |Encoding(items[j])|)
    {
      assert items[j] == Str(strs[j]);
      DecodeEncodeStr(data, p, strs[j]);
    }
  }

  /** The first k elements of a []interface{}, once each of them is known to
      decode wherever its encoding sits, decode one after another. */
  lemma {:induction false} ItemsDecodeAsConcat(data: seq<uint8>, pos: nat, items: seq<Input>, k: nat)
    requires k <= |items|
    requires ElementsDecode(data, items)
    requires Occurs(data, pos, EncodedItems(items, k))
    ensures ItemsDecodeAs(data, pos, k, ExpectedItems(items, k), pos + |EncodedItems(items, k)|)
  {
    var n := |items|;
    var encs := seq(n, j requires 0 <= j < n => Encoding(items[j]));
    var vals := seq(n, j requires 0 <= j < n => Expected(items[j]));
    PiecesDecode(data, items, encs, vals);
    EncodedItemsConcat(items, encs, k);
    ExpectedItemsTake(items, vals, k);
    DecodeConcat(data, pos, encs, vals, k);
  }

  /** ElementsDecode, restated over the elements' encodings and values. */
  lemma {:induction false} PiecesDecode(data: seq<uint8>, items: seq<Input>, encs: seq<seq<uint8>>, vals: seq<Value>)
    requires |encs| == |vals| == |items|
    requires forall j :: 0 <= j < |items| ==> encs[j] == Encoding(items[j]) && vals[j] == Expected(items[j])
    requires ElementsDecode(data, items)
    ensures forall j, p: nat :: 0 <= j < |encs| && Occurs(data, p, encs[j]) ==> DecodesAs(data, p, vals[j], p + |encs[j]|)
  {
    forall j, p: nat | 0 <= j < |encs| && Occurs(data, p, encs[j])
      ensures DecodesAs(data, p, vals[j], p + |encs[j]|)
    {
      assert encs[j] == Encoding(items[j]) && vals[j] == Expected(items[j]);
    }
  }

  /** The first k pieces laid end to end. */
  function Concat(encs: seq<seq<uint8>>, k: nat): (r: seq<uint8>)
    requires k <= |encs|
  {
    if k == 0 then [] else Concat(encs, k - 1) + encs[k - 1]
  }

  /** Pieces laid end to end, each of which decodes to its value wherever it
      sits, decode one after another to the list of those values: the loop
      of Decode's list branches, run over the loop of Encode's. */
  lemma {:induction false} DecodeConcat(data: seq<uint8>, pos: nat, encs: seq<seq<uint8>>, vals: seq<Value>, k: nat)
    requires k <= |encs| == |vals|
    requires forall j, p: nat :: 0 <= j < |encs| && Occurs(data, p, encs[j]) ==> DecodesAs(data, p, vals[j], p + |encs[j]|)
    requires Occurs(data, pos, Concat(encs, k))
    ensures ItemsDecodeAs(data, pos, k, vals[..k], pos + |Concat(encs, k)|)
  {
    if k > 0 {
      OccursSplit(data, pos, Concat(encs, k - 1), encs[k - 1]);
      DecodeConcat(data, pos, encs, vals, k - 1);
      var q := pos + |Concat(encs, k - 1)|;
      assert DecodesAs(data, q, vals[k - 1], q + |encs[k - 1]|);
      assert vals[..k] == vals[..k - 1] + [vals[k - 1]];
      DecodedItemsNext(data, pos, k, vals[..k - 1], q, vals[k - 1], q + |encs[k - 1]|);
    }
  }

  lemma {:induction false} EncodedItemsConcat(items: seq<Input>, encs: seq<seq<uint8>>, k: nat)
    requires k <= |items| == |encs|
    requires forall j :: 0 <= j < |items| ==> encs[j] == Encoding(items[j])
    ensures EncodedItems(items, k) == Concat(encs, k)
  {
    if k > 0 {
      EncodedItemsConcat(items, encs, k - 1);
    }
  }

  lemma {:induction false} ExpectedItemsTake(items: seq<Input>, vals: seq<Value>, k: nat)
    requires k <= |items| == |vals|
    requires forall j :: 0 <= j < |items| ==> vals[j] == Expected(items[j])
    ensures ExpectedItems(items, k) == vals[..k]
  {
    if k > 0 {
      ExpectedItemsTake(items, vals, k - 1);
      assert vals[..k] == vals[..k - 1] + [vals[k - 1]];
    }
  }

  /** The strings of a []string are written, and decode, as the same
      strings in a []interface{} would be. */
  lemma {:induction false} StringsAsItems(strs: seq<GoBytes>, items: seq<Input>, k: nat)
    requires k <= |strs| == |items|
    requires forall j :: 0 <= j < |strs| ==> items[j] == Str(strs[j])
    ensures EncodedStrings(strs, k) == EncodedItems(items, k)
    ensures ExpectedStrings(strs, k) == ExpectedItems(items, k)
  {
    if k > 0 {
      StringsAsItems(strs, items, k - 1);
      assert items[k - 1] == Str(strs[k - 1]);
    }
  }

  /** Decode(Encode(x), 0) gives back x's value and stops at the end of the
      encoding. */
  lemma {:induction false} RoundTrip(x: Input)
    requires RoundTrips(x)
    ensures Decoded(Encoding(x), 0) == Ok((Expected(x), |Encoding(x)|))
  {
    var data := Encoding(x);
    OccursWhole(data);
    DecodeEncoding(data, 0, x);
  }

  /** The encoding of the first k items is a prefix of that of the first n. */
  lemma {:induction false} OccursItemsPrefix(data: seq<uint8>, pos: nat, items: seq<Input>, k: nat, n: nat)
    requires k <= n <= |items|
    requires Occurs(data, pos, EncodedItems(items, n))
    ensures Occurs(data, pos, EncodedItems(items, k))
    decreases n
  {
    if k < n {
      OccursSplit(data, pos, EncodedItems(items, n - 1), Encoding(items[n - 1]));
      OccursItemsPrefix(data, pos, items, k, n - 1);
    }
  }

  /** The long list form does not round-trip: a []interface{} of n >= 56
      elements comes back as a list of only BinaryLength(n) elements (the
      byte length of the count), namely the first ones. */
  lemma {:induction false} LongSliceDecodesByteLengthItems(data: seq<uint8>, items: GoSlice<Input>, k: nat)
    requires |items| >= 56
    requires forall i :: 0 <= i < |items| ==> RoundTrips(items[i])
    requires data == Encoding(Slice(items)) && k == BinaryLength(|items|)
    ensures k < |items|
    ensures DecodesAs(data, 0, List(ExpectedItems(items, k)), 1 + k + |EncodedItems(items, k)|)
  {
    LongSliceDecodesWhole(data, items, k);
  }

  lemma {:induction false} LongSliceDecodesWhole(data: seq<uint8>, items: GoSlice<Input>, k: nat)
    requires |items| >= 56 && k == BinaryLength(|items|)
    requires forall i :: 0 <= i < |items| ==> RoundTrips(items[i])
    requires data == Encoding(Slice(items))
    ensures DecodesAs(data, 0, List(ExpectedItems(items, k)), 1 + k + |EncodedItems(items, k)|)
  {
    var b := MinimalBytes(|items|);
    LongSliceEncoding(items, b);
    OccursWhole(data);
    LongSliceDecodes(data, b, items, k);
  }

  /** The long list header: tag 183 plus the count's byte length, then the
      count's minimal bytes. */
  lemma {:induction false} LongSliceEncoding(items: GoSlice<Input>, b: seq<uint8>)
    requires |items| >= 56 && b == MinimalBytes(|items|)
    ensures Encoding(Slice(items)) == ([|b| + 183] + b) + EncodedItems(items, |items|)
  {
    assert SliceHeader(|items|) == [|b| + 183] + b;
  }

  lemma {:induction false} LongSliceDecodes(data: seq<uint8>, b: seq<uint8>, items: seq<Input>, k: nat)
    requires 1 <= |b| <= 8 && |b| < |items| && k == |b|
    requires forall i :: 0 <= i < |items| ==> RoundTrips(items[i])
    requires Occurs(data, 0, ([|b| + 183] + b) + EncodedItems(items, |items|))
    ensures DecodesAs(data, 0, List(ExpectedItems(items, k)), 1 + k + |EncodedItems(items, k)|)
  {
    SliceElementsDecode(data, items);
    LongSliceOccurs(data, b, items);
    ItemsDecodeAsConcat(data, 1 + k, items, k);
    DecodedLongList(data, 0, k, ExpectedItems(items, k), 1 + k + |EncodedItems(items, k)|);
  }

  /** After the long list header come the encodings of the first |b|
      items. */
  lemma {:induction false} LongSliceOccurs(data: seq<uint8>, b: seq<uint8>, items: seq<Input>)
    requires 1 <= |b| <= 8 && |b| <= |items|
    requires Occurs(data, 0, ([|b| + 183] + b) + EncodedItems(items, |items|))
    ensures 0 < |data| && data[0] == |b| + 183
    ensures Occurs(data, 1 + |b|, EncodedItems(items, |b|))
  {
    OccursSplit(data, 0, [|b| + 183] + b, EncodedItems(items, |items|));
    OccursHead(data, 0, |b| + 183, b);
    OccursItemsPrefix(data, 1 + |b|, items, |b|, |items|);
  }

  /** The long list branch as evidently intended: the length field after
      the tag holds the element count, and that many items follow it. */
  function DecodedLongListCorrected(data: seq<uint8>, pos: nat): (r: Result<(Value, nat)>)
    requires pos < |data| && 184 <= data[pos] < 192
    ensures r.Ok? ==> r.value.0.List? && pos < r.value.1 <= |data|
  {
    var b := data[pos] - 183;
    if pos + 1 + b > |data| then Err(SliceOutOfRange)
    else
      var n := FromBin(data[pos + 1..pos + 1 + b]);
      match DecodedItems(data, pos + 1 + b, n)
      case Err(e) => Err(e)
      case Ok((items, next)) => Ok((List(items), next))
  }

  /** With the count read from the length field, a []interface{} of 56 or
      more elements, each of which round-trips, comes back whole. */
  lemma {:induction false} LongSliceRoundTripCorrected(items: GoSlice<Input>)
    requires |items| >= 56
    requires forall i :: 0 <= i < |items| ==> RoundTrips(items[i])
    ensures 0 < |Encoding(Slice(items))| && 184 <= Encoding(Slice(items))[0] < 192
    ensures DecodedLongListCorrected(Encoding(Slice(items)), 0)
      == Ok((List(ExpectedItems(items, |items|)), |Encoding(Slice(items))|))
  {
    var b := MinimalBytes(|items|);
    LongSliceEncoding(items, b);
    FromBinToBin(|items|);
    LongSliceCorrectedDecodes(Encoding(Slice(items)), b, items);
  }

  lemma {:induction false} LongSliceCorrectedDecodes(data: seq<uint8>, b: seq<uint8>, items: seq<Input>)
    requires 1 <= |b| <= 8 && FromBin(b) == |items|
    requires forall i :: 0 <= i < |items| ==> RoundTrips(items[i])
    requires data == ([|b| + 183] + b) + EncodedItems(items, |items|)
    ensures 0 < |data| && 184 <= data[0] < 192
    ensures DecodedLongListCorrected(data, 0) == Ok((List(ExpectedItems(items, |items|)), |data|))
  {
    LongCountOccurs(data, b, items);
    SliceElementsDecode(data, items);
    ItemsDecodeAsConcat(data, 1 + |b|, items, |items|);
    LongListCorrectedAt(data, b, |items|, ExpectedItems(items, |items|), |data|);
  }

  /** The corrected long list branch in terms of its pieces. */
  lemma {:induction false} LongListCorrectedAt(data: seq<uint8>, b: seq<uint8>, n: nat, vals: seq<Value>, next: nat)
    requires 1 <= |b| <= 8 && 0 < |data| && data[0] == |b| + 183
    requires 1 + |b| <= |data| && data[1..1 + |b|] == b && FromBin(b) == n
    requires ItemsDecodeAs(data, 1 + |b|, n, vals, next)
    ensures DecodedLongListCorrected(data, 0) == Ok((List(vals), next))
  {
  }

  /** The long list header, then the encodings of all the items. */
  lemma {:induction false} LongCountOccurs(data: seq<uint8>, b: seq<uint8>, items: seq<Input>)
    requires 1 <= |b| <= 8
    requires data == ([|b| + 183] + b) + EncodedItems(items, |items|)
    ensures 0 < |data| && data[0] == |b| + 183
    ensures 1 + |b| <= |data| && data[1..1 + |b|] == b
    ensures Occurs(data, 1 + |b|, EncodedItems(items, |items|))
    ensures |data| == 1 + |b| + |EncodedItems(items, |items|)|
  {
    OccursWhole(data);
    OccursSplit(data, 0, [|b| + 183] + b, EncodedItems(items, |items|));
    OccursHead(data, 0, |b| + 183, b);
  }

  /** The long integer form of Encode's third branch (tag, the minimal bytes
      of the payload length, the payload), which the model's Encode never
      writes, is still read back by Decode as the same number. */
  function LongUintForm(n: uint64): (r: seq<uint8>)
  {
    var b := MinimalBytes(n);
    assert |b| <= 8;
    var b2 := MinimalBytes(|b|);
    assert |b2| <= 8;
    [|b2| + 55] + b2 + b
  }

  lemma {:induction false} LongUintFormDecodes(n: uint64)
    requires n >= 24
    ensures DecodesAs(LongUintForm(n), 0, Uint(n), |LongUintForm(n)|)
  {
    var b := MinimalBytes(n);
    var b2 := MinimalBytes(|b|);
    var data := LongUintForm(n);
    OccursWhole(data);
    FromBinToBin(|b|);
    FromBinToBin(n);
    LongUintAt(data, 0, b2, b);
  }

  /** The boundaries of the tag ranges on the encoding side. */
  lemma {:induction false} UintBoundary()
    ensures Encoding(U64(23)) == [23] && Encoding(U64(24)) == [24, 24]
  {
    assert MinimalBytes(24) == MinimalBytes(0) + [24];
  }

  lemma {:induction false} StringBoundary(s55: GoBytes, s56: GoBytes)
    requires |s55| == 55 && |s56| == 56
    ensures Encoding(Str(s55)) == [119] + s55
    ensures Encoding(Str(s56)) == [120, 56] + s56
  {
    var b2 := MinimalBytes(56);
    assert b2 == [56] by {
      assert MinimalBytes(56) == MinimalBytes(0) + [56];
    }
    assert Encoding(Str(s56)) == ([|b2| + 119] + b2) + s56;
    assert [|b2| + 119] + b2 == [120, 56];
  }

  lemma {:induction false} EmptyEncodings()
    ensures Encoding(Nil) == Encoding(Str([])) == [64]
    ensures Encoding(Slice([])) == [128]
  {
  }

  /** The boundaries of the tag ranges on the decoding side. */
  lemma {:induction false} DecodingBoundaries()
    ensures Decoded([64], 0) == Ok((Bytes([]), 1))
    ensures Decoded([128], 0) == Ok((List([]), 1))
    ensures Decoded([56], 0) == Err(SliceOutOfRange)
  {
    assert [64][1..1] == [];
  }
}

/** rlp.go's RlpDataAttribute: a read-only view of one decoded item (or of
    nil) whose accessors never fail on a type mismatch but fall back to a
    zero value, and NewRlpDecoder, which decodes a whole buffer into such a
    view. */
module Attribute {
  import opened Binary
  import opened Encoder
  import opened Decoder
  import opened RoundTrip

  /** The dataAttrib an RlpDataAttribute wraps: nil, or a value Decode
      returned (a byte, a uint64, a byte slice or a slice of items). */
  datatype Attr = Null | Of(v: Value)

  /** A nil attribute reads as the zero value of every accessor. */
  predicate IsNil(a: Attr)
    ensures IsNil(a) ==> Length(a) == 0 && AsUint(a) == 0 && AsByte(a) == 0
    ensures IsNil(a) ==> AsBytes(a) == [] && AsBigInt(a) == Some(0)
  {
    a == Null
  }

  /** The elements of a slice item, the ones Get reaches; none for anything
      else. */
  function AsSlice(a: Attr): (r: seq<Value>)
    ensures |r| == Length(a)
    ensures forall i: int64 :: 0 <= i < |r| ==> Get(a, i) == Of(r[i])
  {
    if a.Of? && a.v.List? then a.v.items else []
  }

  /** The number of elements of a slice item; 0 for anything else. */
  function Length(a: Attr): (r: nat)
    ensures r != 0 ==> a.Of? && a.v.List?
  {
    match a
    case Of(List(items)) => |items|
    case _ => 0
  }

  /** A byte or a uint64 as a uint64; 0 for anything else. It reads back
      every number in the form Decode returns it. */
  function AsUint(a: Attr): (r: uint64)
    ensures forall n: uint64 :: a == Of(NumberValue(n)) ==> r == n
    ensures forall n: uint64 :: a == Of(Uint(n)) ==> r == n
    ensures forall b: uint8 :: a == Of(Byte(b)) ==> r == b
    ensures r != 0 ==> a.Of? && (a.v.Byte? || a.v.Uint?)
  {
    match a
    case Of(Byte(b)) => b
    case Of(Uint(n)) => n
    case _ => 0
  }

  /** A byte item; 0 for anything else (a uint64 item included). */
  function AsByte(a: Attr): (r: uint8)
    ensures r != 0 ==> r == AsUint(a) && a.Of? && a.v.Byte?
  {
    match a
    case Of(Byte(b)) => b
    case _ => 0
  }

  /** The bytes of a byte-slice item; empty for anything else. Non-empty
      bytes are exactly the item. */
  function AsBytes(a: Attr): (r: seq<uint8>)
    ensures r == [] || a == Of(Bytes(r))
  {
    match a
    case Of(Bytes(s)) => s
    case _ => []
  }

  /** The bytes of a byte-slice item, as a Go string; "" for anything else. */
  function AsString(a: Attr): (r: seq<uint8>)
    ensures r == AsBytes(a)
  {
    match a
    case Of(Bytes(s)) => s
    case _ => []
  }

  /** A byte-slice item read as an integer in the text form big.Int's
      String() writes; 0 for anything else. None stands for text outside
      that form, which SetString(s, 0) either rejects (leaving the value
      undefined) or reads by rules this model does not cover. A number read
      from a byte slice is the one whose String() is that text. */
  function AsBigInt(a: Attr): (r: Option<int>)
    ensures r.Some? && a.Of? && a.v.Bytes? ==> DecimalText(r.value) == AsBytes(a)
  {
    match a
    case Of(Bytes(s)) =>
      if ParseDecimal(s).Some? then ParseDecimalInverse(s); ParseDecimal(s) else None
    case _ => Some(0)
  }

  /** The element at idx of a slice item, with rlp.go's guard `len(d) < idx`
      as written: None stands for the index-out-of-range panic the guard
      lets through at idx == len(d) and at negative idx. Where it does not
      panic it agrees with Get. */
  function GetAsWritten(a: Attr, idx: int64): (r: Option<Attr>)
    ensures r.Some? ==> r.value == Get(a, idx)
    ensures r.None? <==> a.Of? && a.v.List? && (idx == Length(a) || idx < 0)
  {
    match a
    case Of(List(d)) =>
      if |d| < idx then Some(Null)
      else if 0 <= idx < |d| then Some(Of(d[idx]))
      else None
    case _ => Some(Null)
  }

  /** The element at idx of a slice item, nil for every index outside the
      slice and for any other item. */
  function Get(a: Attr, idx: int64): (r: Attr)
    ensures !IsNil(r) <==> 0 <= idx < Length(a)
  {
    match a
    case Of(List(d)) => if 0 <= idx < |d| then Of(d[idx]) else Null
    case _ => Null
  }

  /** NewRlpDecoder: an empty buffer gives nil; otherwise the item decoded
      at position 0 (the position after it is dropped). Decode's panics are
      the error results. */
  function NewRlpDecoder(data: seq<uint8>): (r: Result<Attr>)
    ensures r == Ok(Null) <==> |data| == 0
  {
    if |data| == 0 then Ok(Null)
    else match Decoded(data, 0)
      case Ok((v, _)) => Ok(Of(v))
      case Err(e) => Err(e)
  }

  // The accessors over what NewRlpDecoder makes of an encoding.

  /** NewRlpDecoder(Encode(x)) wraps the value x decodes to, for every input
      the round trip covers. */
  lemma {:induction false} NewRlpDecoderRoundTrip(x: Input)
    requires RoundTrips(x)
    ensures NewRlpDecoder(Encoding(x)) == Ok(Of(Expected(x)))
  {
    RoundTrip.RoundTrip(x);
  }

  /** AsUint gives back every integer Encode is passed, after Go's
      conversion to uint32 for int and byte. */
  lemma {:induction false} AsUintRoundTrip(x: Input)
    requires IsNumber(x)
    ensures NewRlpDecoder(Encoding(x)).Ok?
    ensures AsUint(NewRlpDecoder(Encoding(x)).value) == NumberOf(x)
  {
    NewRlpDecoderRoundTrip(x);
  }

  /** AsByte gives back a byte only below 24: a larger byte is written as an
      integer and comes back as a uint64, for which AsByte returns 0. */
  lemma {:induction false} AsByteRoundTrip(b: uint8)
    ensures NewRlpDecoder(Encoding(U8(b))).Ok?
    ensures AsByte(NewRlpDecoder(Encoding(U8(b))).value) == if b < 24 then b else 0
  {
    NewRlpDecoderRoundTrip(U8(b));
  }

  /** AsBytes and AsString give back every string, byte slice, nil and big
      integer text Encode is passed. */
  lemma {:induction false} AsBytesRoundTrip(x: Input)
    requires IsText(x)
    ensures NewRlpDecoder(Encoding(x)).Ok?
    ensures AsBytes(NewRlpDecoder(Encoding(x)).value) == TextOf(x)
    ensures AsString(NewRlpDecoder(Encoding(x)).value) == TextOf(x)
  {
    NewRlpDecoderRoundTrip(x);
  }

  /** AsBigInt gives back every *big.Int Encode is passed. */
  lemma {:induction false} AsBigIntRoundTrip(z: GoBigInt)
    ensures NewRlpDecoder(Encoding(BigInt(z))).Ok?
    ensures AsBigInt(NewRlpDecoder(Encoding(BigInt(z))).value) == Some(z)
  {
    NewRlpDecoderRoundTrip(BigInt(z));
    TextParsesBack(BigInt(z));
    ParseDecimalText(z);
  }

  /** A short []interface{} comes back with as many elements as it had, each
      the value its element decodes to. */
  lemma {:induction false} AsSliceRoundTrip(items: GoSlice<Input>)
    requires RoundTrips(Slice(items))
    ensures NewRlpDecoder(Encoding(Slice(items))).Ok?
    ensures AsSlice(NewRlpDecoder(Encoding(Slice(items))).value) == ExpectedItems(items, |items|)
    ensures Length(NewRlpDecoder(Encoding(Slice(items))).value) == |items|
  {
    NewRlpDecoderRoundTrip(Slice(items));
  }

  /** Get over a decoded short []interface{}: the value of element idx
      inside the slice, nil outside it. */
  lemma {:induction false} GetRoundTrip(items: GoSlice<Input>, idx: int64)
    requires RoundTrips(Slice(items))
    ensures NewRlpDecoder(Encoding(Slice(items))).Ok?
    ensures 0 <= idx < |items| ==> Get(NewRlpDecoder(Encoding(Slice(items))).value, idx) == Of(Expected(items[idx]))
    ensures !(0 <= idx < |items|) ==> IsNil(Get(NewRlpDecoder(Encoding(Slice(items))).value, idx))
  {
    NewRlpDecoderRoundTrip(Slice(items));
    var n := |items|;
    var vals := seq(n, j requires 0 <= j < n => Expected(items[j]));
    ExpectedItemsTake(items, vals, n);
    assert vals[..n] == vals;
  }

  /** A nil *big.Int is written as the text "<nil>", which AsBigInt cannot
      read as a number. */
  lemma {:induction false} AsBigIntNilPointer()
    ensures NewRlpDecoder(Encoding(NilBigInt)).Ok?
    ensures AsBytes(NewRlpDecoder(Encoding(NilBigInt)).value) == NIL_TEXT
    ensures AsBigInt(NewRlpDecoder(Encoding(NilBigInt)).value) == None
  {
    NewRlpDecoderRoundTrip(NilBigInt);
    TextParsesBack(NilBigInt);
  }

  /** No accessor fails on an item of another shape: each returns its zero
      value. */
  lemma {:induction false} ShapeMismatchDefaults(a: Attr, idx: int64)
    ensures !(a.Of? && a.v.List?) ==> Length(a) == 0 && AsSlice(a) == [] && IsNil(Get(a, idx))
    ensures !(a.Of? && a.v.Bytes?) ==> AsBytes(a) == [] && AsString(a) == [] && AsBigInt(a) == Some(0)
    ensures !(a.Of? && (a.v.Byte? || a.v.Uint?)) ==> AsUint(a) == 0 && AsByte(a) == 0
  {
  }

  /** The input that shows the guard's off-by-one: index len(d) of a slice
      item passes `len(d) < idx` and indexes past the end. */
  lemma {:induction false} GetAsWrittenPanicsAtLength(d: seq<Value>)
    requires |d| < MAX_LEN
    ensures GetAsWritten(Of(List(d)), |d|) == None
    ensures Get(Of(List(d)), |d|) == Null
  {
  }
}

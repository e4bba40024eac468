/** The decoder of rlp.go (Decode): parses one item of a byte buffer at a
    position and returns the decoded value and the position just after it.
    Every panic of the Go code (a position past the end, a slice bound past
    the end, an unsupported tag byte) is an error result here. */
module Decoder {
  import opened Binary

  /** What Decode can return inside its interface{} result: a byte (tags
      below 24), a uint64 (integer tags), a byte slice (string tags) or a
      slice of further items (list tags). */
  datatype Value =
    | Byte(b: uint8)
    | Uint(n: uint64)
    | Bytes(s: seq<uint8>)
    | List(items: seq<Value>)

  /** The three ways Decode panics. */
  datatype DecodeError =
    | IndexOutOfRange     // log.Panicf: the item position is past the end
    | SliceOutOfRange     // runtime panic: a length field points past the end
    | ByteNotSupported(tag: uint8)   // panic: tag byte 192 or above

  datatype Result<T> = Ok(value: T) | Err(error: DecodeError)

  /** Bytes left after pos (0 when pos is past the end): what each nested
      call of the decoder consumes. */
  function Remaining(data: seq<uint8>, pos: nat): (r: nat) {
    if pos <= |data| then |data| - pos else 0
  }

  /** The shape the tag byte announces, following the decoder's dispatch
      table. */
  datatype Shape = SmallInt | Integer | ByteString | ListOf(count: nat) | NoShape

  function TagShape(c: uint8): (r: Shape) {
    if c < 24 then SmallInt
    else if c < 64 then Integer
    else if c < 128 then ByteString
    else if c < 184 then ListOf(c - 128)
    else if c < 192 then ListOf(c - 183)
    else NoShape
  }

  predicate HasShape(v: Value, shape: Shape) {
    match shape
    case SmallInt => v.Byte?
    case Integer => v.Uint?
    case ByteString => v.Bytes?
    case ListOf(count) => v.List? && |v.items| == count
    case NoShape => false
  }

  /** Decoding one item at pos (rlp.go Decode, as a function). On success
      the result has the shape its tag byte announces and the next position
      lies strictly after pos and within the buffer. */
  function Decoded(data: seq<uint8>, pos: nat): (r: Result<(Value, nat)>)
    decreases Remaining(data, pos), 2
    ensures r.Ok? ==> pos < r.value.1 <= |data|
  {
    // the explicit check compares pos with len(data) - 1 as a uint64, which
    // for an empty buffer wraps around and lets every position through
    if |data| > 0 && pos > |data| - 1 then Err(IndexOutOfRange) else DecodedIndexed(data, pos)
  }

  /** Reading the tag byte data[pos]: Go's own bounds check panics when the
      buffer is empty. */
  function DecodedIndexed(data: seq<uint8>, pos: nat): (r: Result<(Value, nat)>)
    decreases Remaining(data, pos), 1
    ensures r.Ok? ==> pos < r.value.1 <= |data|
  {
    if pos >= |data| then Err(IndexOutOfRange) else DecodedTag(data, pos)
  }

  /** The switch on the tag byte at pos. */
  function DecodedTag(data: seq<uint8>, pos: nat): (r: Result<(Value, nat)>)
    requires pos < |data|
    decreases Remaining(data, pos), 0
    ensures r.Ok? ==> pos < r.value.1 <= |data|
  {
    var c := data[pos];
    if c < 24 then Ok((Byte(c), pos + 1))
    else if c < 64 then DecodedInteger(data, pos)
    else if c < 128 then DecodedString(data, pos)
    else if c < 184 then AsList(DecodedItems(data, pos + 1, c - 128))
    else if c < 192 then
      // the length field after the tag is skipped unread, and its byte
      // length b is used as the item count
      var b := c - 183;
      AsList(DecodedItems(data, pos + 1 + b, b))
    else Err(ByteNotSupported(c))
  }

  /** Where the payload of a scalar item lies: for the short forms the tag
      holds its length; for the long forms (tag at or above `long`) the tag
      holds the byte length b of a length field that follows it. */
  function PayloadBounds(data: seq<uint8>, pos: nat, short: nat, long: nat): (r: Result<(nat, nat)>)
    requires pos < |data| && short <= data[pos]
    ensures r.Ok? ==> pos < r.value.0 <= r.value.1 <= |data|
  {
    var c := data[pos];
    if c < long then
      var b := c - short;
      if pos + 1 + b > |data| then Err(SliceOutOfRange) else Ok((pos + 1, pos + 1 + b))
    else
      var b := c - (long - 1);
      if pos + 1 + b > |data| then Err(SliceOutOfRange)
      else
        var b2 := FromBin(data[pos + 1..pos + 1 + b]);
        if pos + 1 + b + b2 > |data| then Err(SliceOutOfRange)
        else Ok((pos + 1 + b, pos + 1 + b + b2))
  }

  /** Tags 24 to 63: a uint64 read from the payload (short form: the tag
      minus 23 is its length; long form: the tag minus 55 is the length of
      its length). */
  function DecodedInteger(data: seq<uint8>, pos: nat): (r: Result<(Value, nat)>)
    requires pos < |data| && 24 <= data[pos] < 64
    ensures r.Ok? ==> r.value.0.Uint? && pos < r.value.1 <= |data|
  {
    match PayloadBounds(data, pos, 23, 56)
    case Err(e) => Err(e)
    case Ok((start, end)) => Ok((Uint(FromBin(data[start..end])), end))
  }

  /** Tags 64 to 127: the payload bytes (short form: the tag minus 64 is
      their number; long form: the tag minus 119 is the length of their
      length). */
  function DecodedString(data: seq<uint8>, pos: nat): (r: Result<(Value, nat)>)
    requires pos < |data| && 64 <= data[pos] < 128
    ensures r.Ok? ==> r.value.0.Bytes? && pos < r.value.1 <= |data|
  {
    match PayloadBounds(data, pos, 64, 120)
    case Err(e) => Err(e)
    case Ok((start, end)) => Ok((Bytes(data[start..end]), end))
  }

  function AsList(r: Result<(seq<Value>, nat)>): (l: Result<(Value, nat)>) {
    match r
    case Ok((items, next)) => Ok((List(items), next))
    case Err(e) => Err(e)
  }

  /** The item loop of Decode's list branches: count items decoded one
      after another from pos, each starting where the previous one ended
      (stated from the back: the first count - 1 items, then one more). */
  function DecodedItems(data: seq<uint8>, pos: nat, count: nat): (r: Result<(seq<Value>, nat)>)
    decreases Remaining(data, pos), 3, count
    ensures r.Ok? ==> |r.value.0| == count
    ensures r.Ok? && count == 0 ==> r.value.1 == pos
    ensures r.Ok? && count > 0 ==> pos < r.value.1 <= |data|
  {
    if count == 0 then Ok(([], pos))
    else
      match DecodedItems(data, pos, count - 1)
      case Err(e) => Err(e)
      case Ok((done, next)) =>
        match Decoded(data, next)
        case Err(e) => Err(e)
        case Ok((v, after)) => Ok((done + [v], after))
  }

  /** rlp.go Decode: the switch on the tag byte. */
  method Decode(data: seq<uint8>, pos: nat) returns (r: Result<(Value, nat)>)
    decreases Remaining(data, pos), 0
    ensures r == Decoded(data, pos)
  {
    if |data| > 0 && pos > |data| - 1 {
      return Err(IndexOutOfRange);
    }
    if pos >= |data| {
      return Err(IndexOutOfRange);
    }
    DecodedAtTag(data, pos);
    var c := data[pos];
    if c < 24 {
      r := Ok((Byte(c), pos + 1));
    } else if c < 64 {
      r := DecodeInteger(data, pos);
    } else if c < 128 {
      r := DecodeString(data, pos);
    } else if c < 184 {
      var items := DecodeItems(data, pos + 1, c - 128);
      r := AsList(items);
    } else if c < 192 {
      var b := c - 183;
      var items := DecodeItems(data, pos + 1 + b, b);
      r := AsList(items);
    } else {
      r := Err(ByteNotSupported(c));
    }
  }

  /** The integer cases of Decode (tags 24 to 63). */
  method DecodeInteger(data: seq<uint8>, pos: nat) returns (r: Result<(Value, nat)>)
    requires pos < |data| && 24 <= data[pos] < 64
    ensures r == DecodedInteger(data, pos)
  {
    var c := data[pos];
    if c < 56 {
      var b := c - 23;
      if pos + 1 + b > |data| {
        return Err(SliceOutOfRange);
      }
      r := Ok((Uint(FromBin(data[pos + 1..pos + 1 + b])), pos + 1 + b));
    } else {
      var b := c - 55;
      if pos + 1 + b > |data| {
        return Err(SliceOutOfRange);
      }
      var b2 := FromBin(data[pos + 1..pos + 1 + b]);
      if pos + 1 + b + b2 > |data| {
        return Err(SliceOutOfRange);
      }
      r := Ok((Uint(FromBin(data[pos + 1 + b..pos + 1 + b + b2])), pos + 1 + b + b2));
    }
  }

  /** The byte string cases of Decode (tags 64 to 127). */
  method DecodeString(data: seq<uint8>, pos: nat) returns (r: Result<(Value, nat)>)
    requires pos < |data| && 64 <= data[pos] < 128
    ensures r == DecodedString(data, pos)
  {
    var c := data[pos];
    if c < 120 {
      var b := c - 64;
      if pos + 1 + b > |data| {
        return Err(SliceOutOfRange);
      }
      r := Ok((Bytes(data[pos + 1..pos + 1 + b]), pos + 1 + b));
    } else {
      var b := c - 119;
      if pos + 1 + b > |data| {
        return Err(SliceOutOfRange);
      }
      var b2 := FromBin(data[pos + 1..pos + 1 + b]);
      if pos + 1 + b + b2 > |data| {
        return Err(SliceOutOfRange);
      }
      r := Ok((Bytes(data[pos + 1 + b..pos + 1 + b + b2]), pos + 1 + b + b2));
    }
  }

  /** The loop of Decode's list branches: decodes count items from pos,
      moving pos past each one and appending it to the slice. */
  method DecodeItems(data: seq<uint8>, pos: nat, count: nat) returns (r: Result<(seq<Value>, nat)>)
    decreases Remaining(data, pos), 1
    ensures r == DecodedItems(data, pos, count)
  {
    var slice: seq<Value> := [];
    var p := pos;
    var i := 0;
    while i < count
      invariant 0 <= i <= count
      invariant DecodedItems(data, pos, i) == Ok((slice, p))
    {
      var item := Decode(data, p);
      if item.Err? {
        FailedItemsStay(data, pos, i + 1, count);
        return Err(item.error);
      }
      var (obj, next) := item.value;
      slice := slice + [obj];
      p := next;
      i := i + 1;
    }
    return Ok((slice, p));
  }

  /** Decode at pos yields v and continues at next. */
  predicate DecodesAs(data: seq<uint8>, pos: nat, v: Value, next: nat) {
    Decoded(data, pos) == Ok((v, next))
  }

  /** count items decoded one after another from pos yield vs and end at
      next. */
  predicate ItemsDecodeAs(data: seq<uint8>, pos: nat, count: nat, vs: seq<Value>, next: nat) {
    DecodedItems(data, pos, count) == Ok((vs, next))
  }

  /** Once an item fails to decode, decoding more items fails the same way. */
  lemma {:induction false} FailedItemsStay(data: seq<uint8>, pos: nat, k: nat, count: nat)
    requires k <= count
    requires DecodedItems(data, pos, k).Err?
    ensures DecodedItems(data, pos, count) == DecodedItems(data, pos, k)
    decreases count
  {
    if k < count {
      FailedItemsStay(data, pos, k, count - 1);
    }
  }

  /** Decoding a run of items one item further. */
  lemma {:induction false} DecodedItemsNext(data: seq<uint8>, pos: nat, count: nat, done: seq<Value>, next: nat, v: Value, after: nat)
    requires count > 0
    requires ItemsDecodeAs(data, pos, count - 1, done, next)
    requires DecodesAs(data, next, v, after)
    ensures ItemsDecodeAs(data, pos, count, done + [v], after)
  {
  }

  // One lemma per branch of the dispatch, each stating the item in terms of
  // its pieces (tag, length field, payload), so that proofs about particular
  // tags need not unfold the whole of Decoded. Each is proved in two steps:
  // the branch's helper function first, then the dispatch.

  /** Inside the buffer, Decoded is the switch on the tag byte. */
  lemma {:induction false} DecodedAtTag(data: seq<uint8>, pos: nat)
    requires pos < |data|
    ensures Decoded(data, pos) == DecodedTag(data, pos)
  {
    assert DecodedIndexed(data, pos) == DecodedTag(data, pos);
  }

  lemma {:induction false} DecodedSmall(data: seq<uint8>, pos: nat)
    requires pos < |data| && data[pos] < 24
    ensures DecodesAs(data, pos, Byte(data[pos]), pos + 1)
  {
    DecodedAtTag(data, pos);
  }

  lemma {:induction false} DecodedShortInteger(data: seq<uint8>, pos: nat, payload: seq<uint8>)
    requires pos < |data| && data[pos] == 23 + |payload| && 1 <= |payload| <= 32
    requires pos + 1 + |payload| <= |data| && data[pos + 1..pos + 1 + |payload|] == payload
    ensures DecodesAs(data, pos, Uint(FromBin(payload)), pos + 1 + |payload|)
  {
    DecodedAtTag(data, pos);
    assert DecodedInteger(data, pos) == Ok((Uint(FromBin(payload)), pos + 1 + |payload|));
  }

  lemma {:induction false} DecodedLongInteger(data: seq<uint8>, pos: nat, lenBytes: seq<uint8>, payload: seq<uint8>)
    requires pos < |data| && data[pos] == 55 + |lenBytes| && 1 <= |lenBytes| <= 8
    requires pos + 1 + |lenBytes| + |payload| <= |data|
    requires data[pos + 1..pos + 1 + |lenBytes|] == lenBytes && FromBin(lenBytes) == |payload|
    requires data[pos + 1 + |lenBytes|..pos + 1 + |lenBytes| + |payload|] == payload
    ensures DecodesAs(data, pos, Uint(FromBin(payload)), pos + 1 + |lenBytes| + |payload|)
  {
    DecodedAtTag(data, pos);
    LongIntegerPayload(data, pos, lenBytes, payload);
  }

  lemma {:induction false} LongIntegerPayload(data: seq<uint8>, pos: nat, lenBytes: seq<uint8>, payload: seq<uint8>)
    requires pos < |data| && data[pos] == 55 + |lenBytes| && 1 <= |lenBytes| <= 8
    requires pos + 1 + |lenBytes| + |payload| <= |data|
    requires data[pos + 1..pos + 1 + |lenBytes|] == lenBytes && FromBin(lenBytes) == |payload|
    requires data[pos + 1 + |lenBytes|..pos + 1 + |lenBytes| + |payload|] == payload
    ensures DecodedInteger(data, pos) == Ok((Uint(FromBin(payload)), pos + 1 + |lenBytes| + |payload|))
  {
    var b := data[pos] - 55;
    assert pos + 1 + b == pos + 1 + |lenBytes|;
    assert FromBin(data[pos + 1..pos + 1 + b]) == |payload|;
    assert PayloadBounds(data, pos, 23, 56) == Ok((pos + 1 + |lenBytes|, pos + 1 + |lenBytes| + |payload|));
  }

  lemma {:induction false} DecodedShortString(data: seq<uint8>, pos: nat, payload: seq<uint8>)
    requires pos < |data| && data[pos] == 64 + |payload| && |payload| < 56
    requires pos + 1 + |payload| <= |data| && data[pos + 1..pos + 1 + |payload|] == payload
    ensures DecodesAs(data, pos, Bytes(payload), pos + 1 + |payload|)
  {
    DecodedAtTag(data, pos);
    assert DecodedString(data, pos) == Ok((Bytes(payload), pos + 1 + |payload|));
  }

  lemma {:induction false} DecodedLongString(data: seq<uint8>, pos: nat, lenBytes: seq<uint8>, payload: seq<uint8>)
    requires pos < |data| && data[pos] == 119 + |lenBytes| && 1 <= |lenBytes| <= 8
    requires pos + 1 + |lenBytes| + |payload| <= |data|
    requires data[pos + 1..pos + 1 + |lenBytes|] == lenBytes && FromBin(lenBytes) == |payload|
    requires data[pos + 1 + |lenBytes|..pos + 1 + |lenBytes| + |payload|] == payload
    ensures DecodesAs(data, pos, Bytes(payload), pos + 1 + |lenBytes| + |payload|)
  {
    DecodedAtTag(data, pos);
    LongStringPayload(data, pos, lenBytes, payload);
  }

  lemma {:induction false} LongStringPayload(data: seq<uint8>, pos: nat, lenBytes: seq<uint8>, payload: seq<uint8>)
    requires pos < |data| && data[pos] == 119 + |lenBytes| && 1 <= |lenBytes| <= 8
    requires pos + 1 + |lenBytes| + |payload| <= |data|
    requires data[pos + 1..pos + 1 + |lenBytes|] == lenBytes && FromBin(lenBytes) == |payload|
    requires data[pos + 1 + |lenBytes|..pos + 1 + |lenBytes| + |payload|] == payload
    ensures DecodedString(data, pos) == Ok((Bytes(payload), pos + 1 + |lenBytes| + |payload|))
  {
    var b := data[pos] - 119;
    assert pos + 1 + b == pos + 1 + |lenBytes|;
    assert FromBin(data[pos + 1..pos + 1 + b]) == |payload|;
    assert PayloadBounds(data, pos, 64, 120) == Ok((pos + 1 + |lenBytes|, pos + 1 + |lenBytes| + |payload|));
  }

  lemma {:induction false} DecodedShortList(data: seq<uint8>, pos: nat, count: nat, items: seq<Value>, next: nat)
    requires pos < |data| && data[pos] == 128 + count && count < 56
    requires ItemsDecodeAs(data, pos + 1, count, items, next)
    ensures DecodesAs(data, pos, List(items), next)
  {
    DecodedAtTag(data, pos);
  }

  lemma {:induction false} DecodedLongList(data: seq<uint8>, pos: nat, b: nat, items: seq<Value>, next: nat)
    requires pos < |data| && data[pos] == 183 + b && 1 <= b <= 8
    requires ItemsDecodeAs(data, pos + 1 + b, b, items, next)
    ensures DecodesAs(data, pos, List(items), next)
  {
    DecodedAtTag(data, pos);
  }

  /** Decode fails exactly as rlp.go panics: past the end of the buffer,
      and on a tag byte of 192 or above. */
  lemma {:induction false} DecodedErrors(data: seq<uint8>, pos: nat)
    ensures pos >= |data| ==> Decoded(data, pos) == Err(IndexOutOfRange)
    ensures pos < |data| && data[pos] >= 192 ==> Decoded(data, pos) == Err(ByteNotSupported(data[pos]))
  {
    if pos < |data| {
      DecodedAtTag(data, pos);
    }
  }

  /** A scalar item (tag below 128) fails to decode exactly when its length
      field points past the end of the buffer. */
  lemma {:induction false} ScalarFails(data: seq<uint8>, pos: nat)
    requires pos < |data| && 24 <= data[pos] < 128
    ensures Decoded(data, pos).Err? <==> PayloadBounds(data, pos, if data[pos] < 64 then 23 else 64, if data[pos] < 64 then 56 else 120).Err?
    ensures Decoded(data, pos).Err? ==> Decoded(data, pos) == Err(SliceOutOfRange)
  {
    DecodedAtTag(data, pos);
  }

  /** What decodes has the shape its tag byte announces. */
  lemma {:induction false} DecodedShape(data: seq<uint8>, pos: nat)
    requires Decoded(data, pos).Ok?
    ensures pos < |data| && HasShape(Decoded(data, pos).value.0, TagShape(data[pos]))
  {
    DecodedErrors(data, pos);
    DecodedAtTag(data, pos);
  }
}

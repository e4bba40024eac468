# rlp.go in Dafny

A model of the binary codec in `rlp.go` (package `ethutil`). The codec is an early variant of Ethereum's Recursive Length Prefix encoding. Its tag ranges are its own:
- below 24: a small integer as itself;
- 24 to 63: an integer, in short (24-55) and long (56-63) form;
- 64 to 127: a byte string, short (64-119) or long (120-127);
- 128 to 191: a list, short (128-183) or long (184-191);
- 192 and above: not supported.

The model follows the code, not the later standard.

The files are:

- `binary.dfy` (module `Binary`): the Go integer types and the integer helpers `BinaryLength`, `ToBinarySlice`, `ToBin` and `FromBin`.
  - Each is stated against a reference reading: `MinimalBytes` gives the minimal big-endian bytes, and `BigEndianValue` gives the value of a digit sequence.
  - `FromBin` works modulo 2^64, as Go's `uint64` arithmetic does.
- `encoder.dfy` (module `Encoder`): `Encode`.
  - The `interface{}` argument is the closed datatype `Input`, with one constructor per case of Go's type switch. `Unsupported` stands for any other type, which writes nothing.
  - `Encoding` is the function that `Encode` is proved against. `Encode` and its two element loops are methods that build the buffer.
  - `int` and `byte` go through `uint32` (`Wrap32`). A `*big.Int` is written as the text of its `String()` method: its decimal text, with a leading '-' when negative, or `<nil>` for a nil pointer. `nil` is written as the empty string.
- `decoder.dfy` (module `Decoder`): `Decode`.
  - `Decoded` is the function `Decode` is proved against. `Decode` and its helpers are methods; the list branches are a `while` loop that advances the position.
  - Every panic of the Go code is a `DecodeError` result: a position past the end, a length field pointing past the end, or a tag byte of 192 or more.
  - Branch lemmas state what each tag range yields.
- `roundtrip.dfy` (module `RoundTrip`): `Decode(Encode(x), 0)` gives back the value `Expected(x)` and stops at the end of the encoding.
  - This holds for every supported input whose lists have fewer than 56 elements at every depth.
  - The same module states what the decoder makes of a long list (see Findings) and proves the tag boundaries.
- `attribute.dfy` (module `Attribute`): `RlpDataAttribute` and `NewRlpDecoder`.
  - `Attr` is the wrapped value: `Null` or `Of(v)`.
  - Each accessor falls back to a zero value on a type mismatch.
  - Lemmas read `AsUint`, `AsByte`, `AsBytes`, `AsString`, `AsBigInt`, `AsSlice`, `Length` and `Get` back over `NewRlpDecoder(Encode(x))`. `IsNil` states that a nil attribute reads as the zero value of every accessor.

## Model

| member | source | states |
|---|---|---|
| Binary.BinaryLength | rlp.go:169-175 | the number of base-256 digits of n: at most 8, zero exactly for 0, n below 256^r and at least 256^(r-1) when positive |
| Binary.BigEndianValueBounds | rlp.go:169-175 | k digits have a value below 256^k, and at least 256^(k-1) without a leading zero |
| Binary.ToBinarySlice | rlp.go:177-190 | BinaryLength(n) elements, each below 256, no leading zero, whose big-endian value is n |
| Binary.ToBinarySliceIgnoresLength | rlp.go:177-180 | the length argument has no effect on the result |
| Binary.MinimalBytes | rlp.go:177-199 | the bytes ToBin writes: BinaryLength(n) of them, no leading zero, big-endian value n |
| Binary.DigitsAreMinimalBytes | rlp.go:177-190 | ToBinarySlice's digits are exactly the minimal bytes |
| Binary.TruncateDigits | rlp.go:194-196 | the byte conversion of each digit loses nothing |
| Binary.ToBin | rlp.go:192-199 | the loop writes the minimal big-endian bytes of n, whatever the length argument |
| Binary.MinimalFormUnique | rlp.go:177-199 | a byte sequence without leading zero whose value is n is ToBin(n): the minimal form is unique |
| Binary.FromBin | rlp.go:201-207 | the big-endian value of the bytes modulo 2^64: exact up to 8 bytes, wrapped beyond |
| Binary.FromBinToBin | rlp.go:192-207 | FromBin(ToBin(n)) == n for every uint64 n |
| Binary.ToBinFromBin | rlp.go:192-207 | ToBin(FromBin(s)) == s for every minimal s of at most 8 bytes |
| Encoder.Wrap32 | rlp.go:274-275 | Go's uint32(int) conversion: congruent to the int modulo 2^32 |
| Encoder.NumberOf | rlp.go:274-282 | the uint64 an integer case is written as: the integer the caller passed when it fits the type it goes through (always for uint64), and otherwise a uint32 congruent to it modulo 2^32 |
| Encoder.TextParsesBack | rlp.go:295-296 | the text a *big.Int is written as parses back to its value; the text "<nil>" of a nil *big.Int parses as no number |
| Encoder.EncodeUint | rlp.go:284-288 | [n] below 24; otherwise a tag in 24..31 followed by BinaryLength(n) bytes |
| Encoder.EncodeString | rlp.go:298-304 | one tag in 64..127; 1 + len bytes in all below 56 bytes, 1 + BinaryLength(len) + len from 56 on (the layout is read back by RoundTrip.DecodeEncodeString) |
| Encoder.SliceHeader | rlp.go:314-322 | one tag in 128..191; from 56 elements on it is followed by the count's minimal bytes |
| Encoder.DecimalText | rlp.go:295-296 | big.Int's String() is never empty |
| Encoder.DigitsAreDecimal | rlp.go:295-296 | the text is decimal digits without a leading zero, and is "0" exactly for zero |
| Encoder.ParseDecimalText | rlp.go:295-296 | the decimal text String() writes parses back to the same integer |
| Encoder.CanonicalDigits | rlp.go:295-296 | canonical digits are the decimal text of their own value |
| Encoder.ParseDecimalInverse | rlp.go:295-296 | whatever text parses is the String() text of the number it parses to, so parsing and String() are inverse |
| Encoder.EncodingTag | rlp.go:269-343 | the first byte of Encode's output tells the case: below 32 for an integer, 64..127 for a string, 128..191 for a list; only an unsupported type writes nothing |
| Encoder.Encode | rlp.go:269-343 | the type switch writes Encoding(x) |
| Encoder.EncodeItems | rlp.go:325-329 | the loop writes the element encodings of a []interface{} in order |
| Encoder.EncodeStrings | rlp.go:330-334 | the loop writes the string encodings of a []string in order |
| Decoder.Decoded | rlp.go:209-267 | on success the next position lies strictly after pos and within the buffer |
| Decoder.DecodedIndexed | rlp.go:210-215 | reading the tag byte: success only inside the buffer, advancing |
| Decoder.DecodedTag | rlp.go:215-264 | the switch on the tag byte advances within the buffer |
| Decoder.PayloadBounds | rlp.go:221-237 | the payload of a scalar item lies after the tag and within the buffer |
| Decoder.DecodedInteger | rlp.go:221-228 | integer tags yield a uint64 and advance within the buffer |
| Decoder.DecodedString | rlp.go:230-237 | string tags yield a byte slice and advance within the buffer |
| Decoder.DecodedItems | rlp.go:241-260 | the item loop yields exactly count items; it ends where it started for none and advances within the buffer otherwise |
| Decoder.Decode | rlp.go:209-267 | the Go decoder returns Decoded(data, pos) |
| Decoder.DecodeInteger | rlp.go:221-228 | the integer branches return DecodedInteger |
| Decoder.DecodeString | rlp.go:230-237 | the string branches return DecodedString |
| Decoder.DecodeItems | rlp.go:241-248 | the loop reassigning pos and appending to the slice returns DecodedItems |
| Decoder.FailedItemsStay | rlp.go:241-248 | once an item fails, decoding more items fails the same way |
| Decoder.DecodedItemsNext | rlp.go:241-248 | the loop extended by one decoded item |
| Decoder.DecodedAtTag | rlp.go:210-215 | inside the buffer decoding is the switch on the tag byte |
| Decoder.DecodedSmall | rlp.go:218-219 | a tag below 24 is returned as that byte, advancing by one |
| Decoder.DecodedShortInteger | rlp.go:221-223 | tag 23 + k is followed by a k-byte payload read by FromBin |
| Decoder.DecodedLongInteger | rlp.go:225-228 | tag 55 + k is followed by a k-byte length and that many payload bytes read by FromBin |
| Decoder.LongIntegerPayload | rlp.go:225-228 | the same, for the integer branch on its own |
| Decoder.DecodedShortString | rlp.go:230-232 | tag 64 + k is followed by k bytes returned as they are |
| Decoder.DecodedLongString | rlp.go:234-237 | tag 119 + k is followed by a k-byte length and that many bytes returned as they are |
| Decoder.LongStringPayload | rlp.go:234-237 | the same, for the string branch on its own |
| Decoder.DecodedShortList | rlp.go:239-248 | tag 128 + k is followed by k items decoded one after another |
| Decoder.DecodedLongList | rlp.go:250-260 | tag 183 + b skips b bytes and then decodes b items |
| Decoder.DecodedErrors | rlp.go:209-264 | a position past the end fails with IndexOutOfRange; a tag of 192 or more fails with ByteNotSupported |
| Decoder.ScalarFails | rlp.go:221-237 | an integer or string item fails exactly when its length field or payload runs past the end, and then with SliceOutOfRange |
| Decoder.DecodedShape | rlp.go:215-260 | a decoded value has the shape its tag announces: byte, uint64, byte slice, or a list of the announced count |
| RoundTrip.DecodeEncodeUint | rlp.go:218-228 | the encoding of a uint64 decodes to it: a byte below 24, a uint64 from 24 on |
| RoundTrip.DecodeSmallUint | rlp.go:218-219 | a number below 24 decodes as that byte |
| RoundTrip.DecodeShortUint | rlp.go:221-223 | a number from 24 on decodes from its tag and minimal bytes |
| RoundTrip.ShortUintAt | rlp.go:221-223 | the short integer form anywhere in a buffer decodes to its payload's value |
| RoundTrip.LongUintAt | rlp.go:225-228 | the long integer form anywhere in a buffer decodes to its payload's value |
| RoundTrip.LongUintFormDecodes | rlp.go:289-292 | the long integer form Encode's third branch would write decodes back to the number |
| RoundTrip.DecodeEncodeString | rlp.go:230-237 | the encoding of a string decodes to its bytes |
| RoundTrip.ShortStringAt | rlp.go:230-232 | the short string form anywhere in a buffer decodes to its payload |
| RoundTrip.DecodeLongString | rlp.go:234-237 | the long string form decodes to its payload |
| RoundTrip.DecodeEncodeNumber | rlp.go:274-293 | int, uint32, uint64 and byte decode back to the number they are written as |
| RoundTrip.DecodeEncodeText | rlp.go:295-310 | nil, *big.Int (nil or not), string and []byte decode back to the bytes they are written as |
| RoundTrip.TextEncoding | rlp.go:295-310 | a string case is written as the string encoding of its text, and is expected back as those bytes |
| RoundTrip.DecodeEncodeStr | rlp.go:298-304 | a string inside a []string decodes as it does on its own |
| RoundTrip.DecodeShortItems | rlp.go:239-248 | a short list header followed by element encodings that each decode in place yields the list of their values |
| RoundTrip.SliceElementsDecode | rlp.go:327-329 | each round-tripping element of a []interface{} decodes wherever its encoding sits |
| RoundTrip.StringElementsDecode | rlp.go:332-334 | each string of a []string decodes wherever its encoding sits |
| RoundTrip.StringSliceAsItems | rlp.go:330-334 | a []string is written, and decodes, as the []interface{} of the same strings |
| RoundTrip.StringsAsItems | rlp.go:330-334 | the string loop writes what the element loop writes for the same strings |
| RoundTrip.PiecesDecode | rlp.go:241-248 | each element encoding decodes in place to its element's value, restated over the lists of encodings and values |
| RoundTrip.ItemsDecodeAsConcat | rlp.go:241-248 | the first k element encodings laid end to end decode, by the item loop, to the first k values |
| RoundTrip.DecodeConcat | rlp.go:241-248 | pieces that each decode in place decode, laid end to end, to their values in order |
| RoundTrip.DecodeEncodeSlice | rlp.go:239-248 | a []interface{} of fewer than 56 round-tripping elements decodes to the list of their values |
| RoundTrip.DecodeEncodeSliceInput | rlp.go:325-329 | the same for the Slice input |
| RoundTrip.DecodeEncodeStringSliceInput | rlp.go:330-334 | a []string of fewer than 56 strings decodes to the list of their bytes |
| RoundTrip.DecodeEncoding | rlp.go:209-343 | at any position of any buffer holding Encode(x), Decode yields Expected(x) and the position after the encoding |
| RoundTrip.RoundTrip | rlp.go:209-343 | Decode(Encode(x), 0) == (Expected(x), len(Encode(x))) for every input whose lists have fewer than 56 elements at every depth |
| RoundTrip.LongSliceEncoding | rlp.go:317-321 | a []interface{} of 56 or more elements is written as tag 183 + b, the count's b minimal bytes, then the elements |
| RoundTrip.LongSliceDecodesWhole | rlp.go:250-260 | Encode of a []interface{} of 56 or more elements, whose elements round-trip, decodes to its first BinaryLength(count) values |
| RoundTrip.LongSliceDecodes | rlp.go:250-260 | after a long list header of b bytes, Decode reads b elements and stops after them |
| RoundTrip.LongSliceDecodesByteLengthItems | rlp.go:250-260 | a []interface{} of 56 or more elements, whose elements round-trip, decodes to a list of only its first BinaryLength(count) values, fewer than count |
| RoundTrip.DecodedLongListCorrected | rlp.go:250-260 | the long list branch reading the count from the length field yields a list and advances within the buffer |
| RoundTrip.LongSliceRoundTripCorrected | rlp.go:250-260 | with that reading, a []interface{} of 56 or more round-tripping elements decodes whole |
| RoundTrip.UintBoundary | rlp.go:284-288 | Encode(23) == [23] and Encode(24) == [24, 24] |
| RoundTrip.StringBoundary | rlp.go:298-304 | a 55-byte string gets tag 119, a 56-byte string tag 120 followed by the length byte 56 |
| RoundTrip.EmptyEncodings | rlp.go:337-340 | nil and "" encode as [64], the empty []interface{} as [128] |
| RoundTrip.DecodingBoundaries | rlp.go:221-248 | [64] decodes to the empty byte slice, [128] to the empty list, and [56] runs past the end |
| Attribute.IsNil | rlp.go:55-57 | a nil attribute reads as the zero value of every accessor: length 0, AsUint and AsByte 0, AsBytes empty, AsBigInt 0 |
| Attribute.AsSlice | rlp.go:124-130 | Length(a) elements, and Get at each index inside them is that element |
| Attribute.Length | rlp.go:59-66 | non-zero only for a slice item; AsSlice returns exactly Length elements |
| Attribute.AsUint | rlp.go:72-84 | the value of every byte item and every uint64 item, whatever its size, so it reads back every number in the form Decode returns it; non-zero only for a byte or uint64 item |
| Attribute.AsByte | rlp.go:86-92 | a non-zero result is the byte of a byte item, and equals AsUint |
| Attribute.AsBytes | rlp.go:116-122 | a non-empty result is exactly the bytes of a byte-slice item |
| Attribute.AsString | rlp.go:104-114 | the same bytes as AsBytes |
| Attribute.AsBigInt | rlp.go:94-102 | a number read from a byte-slice item is the one whose String() text is those bytes |
| Attribute.GetAsWritten | rlp.go:133-145 | the Go Get as written agrees with Get where it does not panic, and panics exactly on a slice item at idx == len or idx < 0 |
| Attribute.Get | rlp.go:133-145 | non-nil exactly for 0 <= idx < Length |
| Attribute.NewRlpDecoder | rlp.go:151-162 | nil exactly for the empty buffer |
| Attribute.NewRlpDecoderRoundTrip | rlp.go:151-162 | NewRlpDecoder(Encode(x)) wraps Expected(x) for every round-tripping input |
| Attribute.AsUintRoundTrip | rlp.go:72-84 | AsUint gives back every integer Encode is passed, after the uint32 conversion of int and byte |
| Attribute.AsByteRoundTrip | rlp.go:86-92 | AsByte gives back a byte below 24 and 0 for larger bytes, which come back as uint64 |
| Attribute.AsBytesRoundTrip | rlp.go:104-122 | AsBytes and AsString give back every string, []byte, nil and *big.Int text |
| Attribute.AsBigIntRoundTrip | rlp.go:94-102 | AsBigInt gives back every non-nil *big.Int Encode is passed |
| Attribute.AsSliceRoundTrip | rlp.go:124-130 | AsSlice and Length give back the elements and count of a short []interface{} |
| Attribute.GetRoundTrip | rlp.go:133-145 | Get over a decoded short []interface{} gives the value of element idx inside it and nil outside |
| Attribute.AsBigIntNilPointer | rlp.go:94-102 | a nil *big.Int comes back as the bytes "<nil>", which AsBigInt cannot read as a number |
| Attribute.ShapeMismatchDefaults | rlp.go:59-130 | every accessor returns its zero value on an item of another shape |
| Attribute.GetAsWrittenPanicsAtLength | rlp.go:136-140 | index len(d) of a slice passes the guard and indexes past the end |

## Left out

- The float comparison `num <= uint64(math.Pow(2, 256))` (rlp.go:286) is read mathematically: it holds for every uint64, so Encode never takes the long integer branch (rlp.go:289-292). `RoundTrip.LongUintFormDecodes` shows that the decoder still reads that form back. Go's out-of-range float conversion is implementation-dependent.
- Go slicing checks the capacity, not the length, of a buffer. The model checks every slice against the length, since the spare capacity of a caller's buffer is not known.
- Logging and the text of panic messages (`log.Println`, `log.Panicf`, `fmt.Sprintf`) are not modelled; each panic is a `DecodeError` value.
- Decoder.Decoded: an empty buffer makes Go's `len(data)-1` wrap around so that the explicit check lets every position through; the runtime index panic that follows is merged into `IndexOutOfRange`.
- Decoder.Decoded: positions are unbounded naturals. Go's uint64 sum `pos + 1 + b + b2` can wrap around for a huge length field, but the wrapped end then lies below the start, so Go panics on the slice just as the model fails with `SliceOutOfRange`.
- The unreachable `return slice, 0` after Decode's switch is not modelled.
- Reflection (`Conv`, the `kind` field, `Type`, `AsRaw`) is not modelled; `NewRlpDataAttribute` is the `Attr` constructors.
- `RlpEncoder.EncodeData` is `Encode` itself. `RlpDecoder.Get` reads an `rlpData` field that nothing sets. Neither is modelled separately.
- Attribute.AsBigInt: `AsBigInt` of the text `<nil>` that a nil *big.Int is written as gives `None`; Go's `SetString` rejects it too. Beyond that, only the text big.Int's String() writes is read (optional '-', decimal digits, no leading zero). Other text `SetString(s, 0)` accepts (base prefixes, '+', "-0", underscores) and text it rejects, which leaves the value undefined, both give `None`.
- Attribute.AsUint: the `uint16` and `uint32` branches are not modelled, because no decoded value has those types. The same holds for AsString's `string` branch.
- Decoded byte strings alias the input buffer in Go. The model returns values, so aliasing is not captured.
- RoundTrip.RoundTrip: holds only when every list has fewer than 56 elements. Longer lists do not come back (see Findings), and an unsupported type encodes to nothing, which does not decode.
- db.go is not part of this model. It is a storage interface without an implementation.

## Findings

| source | as written | input that shows it | evidently intended | confidence | as-written member | corrected member |
|---|---|---|---|---|---|---|
| rlp.go:136-140 | the guard `len(d) < idx` lets idx == len(d) (and negative idx) through to `d[idx]`, which panics | a slice attribute of n elements and idx = n | a nil attribute for every index outside the slice | not executed | Attribute.GetAsWrittenPanicsAtLength | Attribute.Get |
| rlp.go:250-260 | the long list branch skips the b-byte count field unread and decodes b items, b being the byte length of the count | Encode of a []interface{} of 56 small integers: header [184, 56], decoded as a list of 1 element | read the count from the length field and decode that many items | not executed | RoundTrip.LongSliceDecodesByteLengthItems | RoundTrip.LongSliceRoundTripCorrected |

`Decoder.Decoded` keeps the long list branch as written, since `NewRlpDecoder` and the accessors see whatever the Go decoder returns. The corrected branch, `RoundTrip.DecodedLongListCorrected`, decodes the elements with the same item loop.

/**
 * MongoDB object identifiers as the gate parses them: `ObjectIDFromHex`
 * accepts exactly 24 hexadecimal digits (either case) and decodes them in
 * pairs into 12 bytes; `Hex` renders the 12 bytes as lower-case digits.
 */
module ObjectIds {
  import opened Wrappers
  import opened Strings

  newtype byte = x: int | 0 <= x < 256

  /** A `primitive.ObjectID`: its raw bytes (12 of them when parsed). */
  datatype ObjectId = ObjectId(bytes: seq<byte>)

  const ObjectIdBytes: nat := 12
  const ObjectIdHexLength: nat := 24

  predicate IsHexDigit(c: char)
  {
    '0' <= c <= '9' || 'a' <= c <= 'f' || 'A' <= c <= 'F'
  }

  predicate IsHex(s: string)
  {
    forall i :: 0 <= i < |s| ==> IsHexDigit(s[i])
  }

  /** What `ObjectIDFromHex` accepts. */
  predicate IsObjectIdHex(s: string)
  {
    |s| == ObjectIdHexLength && IsHex(s)
  }

  function HexValue(c: char): (v: nat)
    requires IsHexDigit(c)
    ensures v < 16
  {
    if '0' <= c <= '9' then c as int - '0' as int
    else if 'a' <= c <= 'f' then c as int - 'a' as int + 10
    else c as int - 'A' as int + 10
  }

  /** The lower-case digit for `v`; it reads back as `v`. */
  function HexDigit(v: nat): (c: char)
    requires v < 16
    ensures IsHexDigit(c) && HexValue(c) == v
    ensures LowerChar(c) == c
  {
    if v < 10 then ('0' as int + v) as char else ('a' as int + v - 10) as char
  }

  /** Printing the value of a digit gives back the digit, lower-cased. */
  lemma HexDigitOfValue(c: char)
    requires IsHexDigit(c)
    ensures HexDigit(HexValue(c)) == LowerChar(c)
  {
  }

  /** Go `hex.DecodeString` on an even-length string of hex digits. */
  function DecodeHex(s: string): (b: seq<byte>)
    requires |s| % 2 == 0 && IsHex(s)
    ensures |b| == |s| / 2
    decreases |s|
  {
    if |s| == 0 then []
    else [(HexValue(s[0]) * 16 + HexValue(s[1])) as byte] + DecodeHex(s[2..])
  }

  /** Go `hex.EncodeToString`: two lower-case digits per byte. */
  function EncodeHex(b: seq<byte>): (s: string)
    ensures |s| == 2 * |b| && IsHex(s)
    decreases |b|
  {
    if |b| == 0 then []
    else [HexDigit(b[0] as int / 16), HexDigit(b[0] as int % 16)] + EncodeHex(b[1..])
  }

  /** `primitive.ObjectIDFromHex`: `None` stands for its error. */
  function ObjectIdFromHex(s: string): (r: Option<ObjectId>)
    ensures r.Some? <==> IsObjectIdHex(s)
    ensures r.Some? ==> |r.value.bytes| == ObjectIdBytes
  {
    if |s| != ObjectIdHexLength then None
    else if !IsHex(s) then None
    else Some(ObjectId(DecodeHex(s)))
  }

  /** `ObjectID.Hex()`. */
  function Hex(id: ObjectId): string
  {
    EncodeHex(id.bytes)
  }

  /** Decoding what was encoded gives the bytes back. */
  lemma {:induction false} DecodeEncode(b: seq<byte>)
    ensures DecodeHex(EncodeHex(b)) == b
    decreases |b|
  {
    if |b| > 0 {
      var s := EncodeHex(b);
      DecodeEncode(b[1..]);
      assert s[2..] == EncodeHex(b[1..]);
      var v := b[0] as int;
      assert HexValue(s[0]) * 16 + HexValue(s[1]) == v / 16 * 16 + v % 16 == v;
    }
  }

  /** The two base-16 digits of `hi * 16 + lo` are `hi` and `lo`. */
  lemma DigitPair(hi: nat, lo: nat)
    requires hi < 16 && lo < 16
    ensures (hi * 16 + lo) / 16 == hi && (hi * 16 + lo) % 16 == lo
  {
  }

  /** Encoding what was decoded gives the digits back, lower-cased. */
  lemma {:induction false} EncodeDecode(s: string)
    requires |s| % 2 == 0 && IsHex(s)
    ensures EncodeHex(DecodeHex(s)) == ToLowerAscii(s)
    decreases |s|
  {
    if |s| > 0 {
      EncodeDecode(s[2..]);
      EncodeDecodeHead(s);
      LowerHead(s);
    }
  }

  /** The first decoded byte is encoded as the first two digits, lower-cased. */
  lemma EncodeDecodeHead(s: string)
    requires |s| >= 2 && |s| % 2 == 0 && IsHex(s)
    ensures EncodeHex(DecodeHex(s)) == [LowerChar(s[0]), LowerChar(s[1])] + EncodeHex(DecodeHex(s[2..]))
  {
    var hi, lo := HexValue(s[0]), HexValue(s[1]);
    var v := hi * 16 + lo;
    DigitPair(hi, lo);
    HexDigitOfValue(s[0]);
    HexDigitOfValue(s[1]);
    assert HexDigit(v / 16) == LowerChar(s[0]) && HexDigit(v % 16) == LowerChar(s[1]);
    var d := DecodeHex(s);
    assert d[0] as int == v && d[1..] == DecodeHex(s[2..]);
    assert EncodeHex(d) == [HexDigit(v / 16), HexDigit(v % 16)] + EncodeHex(d[1..]);
  }

  /** Lower-casing handles the first two characters one at a time. */
  lemma LowerHead(s: string)
    requires |s| >= 2
    ensures ToLowerAscii(s) == [LowerChar(s[0]), LowerChar(s[1])] + ToLowerAscii(s[2..])
  {
    assert s[1..][1..] == s[2..];
  }

  /** Parsing the rendering of a 12-byte identifier gives the identifier back. */
  lemma FromHexOfHex(id: ObjectId)
    requires |id.bytes| == ObjectIdBytes
    ensures ObjectIdFromHex(Hex(id)) == Some(id)
  {
    DecodeEncode(id.bytes);
  }

  /** Rendering a parsed identifier gives the input back, lower-cased. */
  lemma HexOfFromHex(s: string)
    requires IsObjectIdHex(s)
    ensures ObjectIdFromHex(s).Some? && Hex(ObjectIdFromHex(s).value) == ToLowerAscii(s)
  {
    EncodeDecode(s);
  }

  /** Hex digits never include the key separator. */
  lemma HexHasNoBar(s: string)
    requires IsHex(s)
    ensures '|' !in s
  {
  }
}

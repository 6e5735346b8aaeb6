/** MongoDB object identifiers: twelve bytes, written as 24 hexadecimal
    digits. `ObjectIDFromHex` and `Hex` model the Go driver's primitive
    package: parsing first checks that the string is 24 bytes long, then
    decodes it with encoding/hex, which accepts hex digits of either case and
    reports the first byte that is not one; printing uses lower-case digits. */
module ObjectIds {
  import opened Common
  import opened Strings

  newtype byte = x: int | 0 <= x < 256

  type ObjectId = s: seq<byte> | |s| == 12 witness [0, 0, 0, 0, 0, 0, 0, 0, 0, 0, 0, 0]

  /** The all-zero identifier, which `omitempty` treats as absent. */
  const NilObjectID: ObjectId := [0, 0, 0, 0, 0, 0, 0, 0, 0, 0, 0, 0]

  /** The value of a hexadecimal digit, or -1 for any other character. */
  function DigitValue(c: char): int {
    if '0' <= c <= '9' then c as int - '0' as int
    else if 'a' <= c <= 'f' then c as int - 'a' as int + 10
    else if 'A' <= c <= 'F' then c as int - 'A' as int + 10
    else -1
  }

  predicate IsHexDigit(c: char) {
    DigitValue(c) >= 0
  }

  /** The lower-case digit for a value below 16. */
  function HexDigit(d: int): (c: char)
    requires 0 <= d < 16
    ensures DigitValue(c) == d
    ensures !('A' <= c <= 'F')
  {
    if d < 10 then ('0' as int + d) as char else ('a' as int + d - 10) as char
  }

  function HexBytes(bs: seq<byte>): (s: string)
    ensures |s| == 2 * |bs|
    ensures forall i :: 0 <= i < |s| ==> IsHexDigit(s[i]) && !('A' <= s[i] <= 'F')
  {
    if bs == [] then ""
    else [HexDigit(bs[0] as int / 16), HexDigit(bs[0] as int % 16)] + HexBytes(bs[1..])
  }

  /** ObjectID.Hex(). */
  function Hex(id: ObjectId): (s: string)
    ensures IsValidHex(s)
    ensures forall i :: 0 <= i < |s| ==> !('A' <= s[i] <= 'F')
  {
    HexBytes(id)
  }

  predicate IsValidHex(s: string) {
    |s| == 24 && forall i :: 0 <= i < |s| ==> IsHexDigit(s[i])
  }

  function DecodeBytes(s: string): (r: Option<seq<byte>>)
    requires |s| % 2 == 0
    ensures r.Some? <==> forall i :: 0 <= i < |s| ==> IsHexDigit(s[i])
    ensures r.Some? ==> 2 * |r.value| == |s|
    decreases |s|
  {
    if s == [] then Some([])
    else
      var hi, lo := DigitValue(s[0]), DigitValue(s[1]);
      var rest := DecodeBytes(s[2..]);
      assert forall i :: 2 <= i < |s| ==> s[i] == s[2..][i - 2];
      if hi < 0 || lo < 0 || rest.None? then None
      else Some([(hi * 16 + lo) as byte] + rest.value)
  }

  /** The first byte of a character's UTF-8 encoding: the byte
      encoding/hex meets first when it reaches that character. */
  function LeadByte(c: char): (b: int)
    ensures 0 <= b < 256
    ensures c as int < 0x80 ==> b == c as int
    ensures c as int >= 0x80 ==> b >= 0xC0
  {
    if c as int < 0x80 then c as int
    else if c as int < 0x800 then 0xC0 + c as int / 0x40
    else if c as int < 0x10000 then 0xE0 + c as int / 0x1000
    else 0xF0 + c as int / 0x40000
  }

  /** The position of the first character that is not a hex digit. */
  function FirstNonHex(s: string): (r: Option<nat>)
    ensures r.None? <==> forall i :: 0 <= i < |s| ==> IsHexDigit(s[i])
    ensures r.Some? ==> r.value < |s| && !IsHexDigit(s[r.value])
                        && forall i :: 0 <= i < r.value ==> IsHexDigit(s[i])
    decreases |s|
  {
    if s == [] then None
    else if !IsHexDigit(s[0]) then Some(0)
    else
      var rest := FirstNonHex(s[1..]);
      assert forall i :: 1 <= i < |s| ==> s[i] == s[1..][i - 1];
      match rest
      case None => None
      case Some(k) => Some(k + 1)
  }

  /** primitive.ObjectIDFromHex: a string whose length in bytes is not 24 is
      ErrInvalidHex; otherwise encoding/hex rejects the first byte that is not
      a hex digit with an InvalidByteError carrying that byte. */
  function ObjectIDFromHex(s: string): (r: Result<ObjectId>)
    ensures r.Ok? <==> IsValidHex(s)
    ensures Utf8Len(s) != 24 ==> r == Err(InvalidHex)
    ensures Utf8Len(s) == 24 && !IsValidHex(s) ==>
              exists k :: 0 <= k < |s| && !IsHexDigit(s[k]) && (forall i :: 0 <= i < k ==> IsHexDigit(s[i]))
                          && r == Err(InvalidByte(LeadByte(s[k])))
  {
    Utf8LenBounds(s);
    if Utf8Len(s) != 24 then Err(InvalidHex)
    else
      match FirstNonHex(s)
      case Some(k) => Err(InvalidByte(LeadByte(s[k])))
      case None =>
        assert forall i :: 0 <= i < |s| ==> s[i] as int < 0x80;
        Ok(DecodeBytes(s).value)
  }

  lemma {:induction false} DecodeHexBytes(bs: seq<byte>)
    ensures DecodeBytes(HexBytes(bs)) == Some(bs)
  {
    if bs != [] {
      var s := HexBytes(bs);
      assert s[2..] == HexBytes(bs[1..]);
      DecodeHexBytes(bs[1..]);
      var b := bs[0] as int;
      assert DigitValue(s[0]) * 16 + DigitValue(s[1]) == b;
      assert bs == [b as byte] + bs[1..];
    }
  }

  /** Printing an identifier and parsing it back gives the identifier. */
  lemma ParseHexRoundTrip(id: ObjectId)
    ensures ObjectIDFromHex(Hex(id)) == Ok(id)
  {
    var s := Hex(id);
    Utf8LenBounds(s);
    assert forall i :: 0 <= i < |s| ==> s[i] as int < 0x80;
    DecodeHexBytes(id);
  }

  /** Distinct identifiers print differently. */
  lemma HexInjective(a: ObjectId, b: ObjectId)
    ensures Hex(a) == Hex(b) ==> a == b
  {
    ParseHexRoundTrip(a);
    ParseHexRoundTrip(b);
  }
}

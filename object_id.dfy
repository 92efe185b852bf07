/**
  The identifiers the bills handlers work with: bson ObjectIds, twelve bytes
  written as twenty-four hexadecimal digits. Parsing accepts either letter
  case; printing gives lower-case digits.
*/
module ObjectIds {
  import opened Results

  newtype Byte = x: int | 0 <= x < 256

  /** Number of bytes in an ObjectId. */
  const IdBytes := 12

  /** Number of hexadecimal digits in the text form of an ObjectId. */
  const IdTextLength := 24

  type ObjectId = b: seq<Byte> | |b| == IdBytes witness [0, 0, 0, 0, 0, 0, 0, 0, 0, 0, 0, 0]

  predicate IsHexDigit(c: char) {
    '0' <= c <= '9' || 'a' <= c <= 'f' || 'A' <= c <= 'F'
  }

  /** A text made of whole bytes: an even number of hexadecimal digits. */
  predicate IsHex(s: string) {
    |s| % 2 == 0 && forall i | 0 <= i < |s| :: IsHexDigit(s[i])
  }

  /** The canonical text form `ObjectId.is_valid` accepts: 24 hexadecimal digits (texts with whitespace between digit pairs are not modelled). */
  predicate IsValid(s: string) {
    |s| == IdTextLength && IsHex(s)
  }

  function DigitValue(c: char): (v: int)
    requires IsHexDigit(c)
    ensures 0 <= v < 16
  {
    if '0' <= c <= '9' then c as int - '0' as int
    else if 'a' <= c <= 'f' then c as int - 'a' as int + 10
    else c as int - 'A' as int + 10
  }

  /** The lower-case hexadecimal digit of a value below 16. */
  function Digit(v: int): (c: char)
    requires 0 <= v < 16
    ensures IsHexDigit(c) && DigitValue(c) == v
    ensures !('A' <= c <= 'F')
  {
    if v < 10 then ('0' as int + v) as char else ('a' as int + v - 10) as char
  }

  /** A hexadecimal digit with its letter, if any, in lower case. */
  function LowerDigit(c: char): char
    requires IsHexDigit(c)
  {
    if 'A' <= c <= 'F' then (c as int - 'A' as int + 'a' as int) as char else c
  }

  /** A hexadecimal text with every letter in lower case. */
  function LowerHex(s: string): (r: string)
    requires forall i | 0 <= i < |s| :: IsHexDigit(s[i])
    ensures |r| == |s|
    ensures forall i | 0 <= i < |s| :: r[i] == LowerDigit(s[i])
  {
    if s == [] then [] else [LowerDigit(s[0])] + LowerHex(s[1..])
  }

  /** The bytes a hexadecimal text denotes, two digits per byte, high digit first. */
  function FromHex(s: string): (b: seq<Byte>)
    requires IsHex(s)
    ensures |b| == |s| / 2
  {
    if s == [] then []
    else
      assert IsHex(s[2..]) by {
        forall i | 0 <= i < |s[2..]| ensures IsHexDigit(s[2..][i]) {
          assert s[2..][i] == s[i + 2];
        }
      }
      [(16 * DigitValue(s[0]) + DigitValue(s[1])) as Byte] + FromHex(s[2..])
  }

  /** The lower-case hexadecimal text of a byte sequence. */
  function ToHex(b: seq<Byte>): (s: string)
    ensures |s| == 2 * |b| && IsHex(s)
  {
    if b == [] then []
    else
      var rest := ToHex(b[1..]);
      var s := [Digit(b[0] as int / 16), Digit(b[0] as int % 16)] + rest;
      assert forall i | 2 <= i < |s| :: s[i] == rest[i - 2];
      s
  }

  /** `_parse_object_id`'s view of a text: the ObjectId it denotes, or None when it is not one. */
  function Parse(s: string): (r: Option<ObjectId>)
    ensures r.Some? <==> IsValid(s)
  {
    if IsValid(s) then Some(FromHex(s)) else None
  }

  /** `str(oid)`: the canonical text of an ObjectId. */
  function Text(id: ObjectId): (s: string)
    ensures IsValid(s)
  {
    ToHex(id)
  }

  lemma DigitRoundTrip(c: char)
    requires IsHexDigit(c)
    ensures Digit(DigitValue(c)) == LowerDigit(c)
  {
  }

  lemma {:induction false} FromHexToHex(b: seq<Byte>)
    ensures FromHex(ToHex(b)) == b
  {
    if b != [] {
      var s := ToHex(b);
      assert s[2..] == ToHex(b[1..]);
      FromHexToHex(b[1..]);
      var hi, lo := b[0] as int / 16, b[0] as int % 16;
      assert DigitValue(s[0]) == hi && DigitValue(s[1]) == lo;
      assert 16 * hi + lo == b[0] as int;
    }
  }

  lemma {:induction false} ToHexFromHex(s: string)
    requires IsHex(s)
    ensures ToHex(FromHex(s)) == LowerHex(s)
  {
    if s != [] {
      assert IsHex(s[2..]) by {
        forall i | 0 <= i < |s[2..]| ensures IsHexDigit(s[2..][i]) {
          assert s[2..][i] == s[i + 2];
        }
      }
      ToHexFromHex(s[2..]);
      var hi, lo := DigitValue(s[0]), DigitValue(s[1]);
      var v := 16 * hi + lo;
      assert v / 16 == hi && v % 16 == lo;
      DigitRoundTrip(s[0]);
      DigitRoundTrip(s[1]);
      var b := FromHex(s);
      assert b[0] as int == v && b[1..] == FromHex(s[2..]);
      var l := LowerHex(s);
      assert l == [l[0], l[1]] + l[2..];
      assert l[2..] == LowerHex(s[2..]);
    }
  }

  /** Printing an ObjectId and parsing the text gives the same ObjectId back. */
  lemma ParseText(id: ObjectId)
    ensures Parse(Text(id)) == Some(id)
  {
    FromHexToHex(id);
  }

  /** Parsing a valid text and printing the ObjectId gives the text in lower case. */
  lemma TextParse(s: string)
    requires IsValid(s)
    ensures Parse(s).Some? && Text(Parse(s).value) == LowerHex(s)
  {
    ToHexFromHex(s);
  }

  /** Two valid texts name the same ObjectId exactly when they differ at most in letter case. */
  lemma SameObjectId(s: string, t: string)
    requires IsValid(s) && IsValid(t)
    ensures Parse(s) == Parse(t) <==> LowerHex(s) == LowerHex(t)
  {
    TextParse(s);
    TextParse(t);
    var a, b := Parse(s).value, Parse(t).value;
    if LowerHex(s) == LowerHex(t) {
      ParseText(a);
      ParseText(b);
    }
  }
}

/**
 * MongoDB object identifiers and their hexadecimal rendering.
 * Every handler that creates a record draws a fresh ObjectID and stores its
 * hex string as the record's public identifier.
 */
module ObjectIds {

  newtype byte = x: int | 0 <= x < 256

  /** A 12-byte object identifier, as produced by primitive.NewObjectID. */
  type ObjectId = b: seq<byte> | |b| == 12 witness [0, 0, 0, 0, 0, 0, 0, 0, 0, 0, 0, 0]

  /** The zero identifier held by a Go struct whose ID was never set. */
  const NilObjectId: ObjectId := [0, 0, 0, 0, 0, 0, 0, 0, 0, 0, 0, 0]

  const HexAlphabet: string := "0123456789abcdef"

  function HexDigit(n: int): (c: char)
    requires 0 <= n < 16
  {
    HexAlphabet[n]
  }

  /** The value of a lower-case hex digit; -1 for any other character. */
  function HexValue(c: char): (n: int)
    ensures -1 <= n < 16
  {
    if '0' <= c <= '9' then c as int - '0' as int
    else if 'a' <= c <= 'f' then c as int - 'a' as int + 10
    else -1
  }

  lemma HexDigitValue(n: int)
    requires 0 <= n < 16
    ensures HexValue(HexDigit(n)) == n
  {
  }

  /** Lower-case hexadecimal rendering, two digits per byte (ObjectID.Hex). */
  function Hex(b: seq<byte>): (s: string)
    ensures |s| == 2 * |b|
    ensures forall i :: 0 <= i < |s| ==> 0 <= HexValue(s[i])
  {
    if b == [] then []
    else
      var hi, lo := b[0] as int / 16, b[0] as int % 16;
      HexDigitValue(hi);
      HexDigitValue(lo);
      [HexDigit(hi), HexDigit(lo)] + Hex(b[1..])
  }

  /** Reads back a string of lower-case hex digit pairs. */
  function Unhex(s: string): (b: seq<byte>)
    requires |s| % 2 == 0
    requires forall i :: 0 <= i < |s| ==> 0 <= HexValue(s[i])
  {
    if s == [] then []
    else [(HexValue(s[0]) * 16 + HexValue(s[1])) as byte] + Unhex(s[2..])
  }

  /** Hex loses nothing: the bytes can be read back from the string. */
  lemma {:induction false} UnhexHex(b: seq<byte>)
    ensures Unhex(Hex(b)) == b
  {
    if b != [] {
      var hi, lo := b[0] as int / 16, b[0] as int % 16;
      HexDigitValue(hi);
      HexDigitValue(lo);
      var s := Hex(b);
      assert s == [HexDigit(hi), HexDigit(lo)] + Hex(b[1..]);
      assert s[2..] == Hex(b[1..]);
      assert HexValue(s[0]) * 16 + HexValue(s[1]) == b[0] as int;
      UnhexHex(b[1..]);
    }
  }

  /** Distinct identifiers have distinct hex strings. */
  lemma HexInjective(a: seq<byte>, b: seq<byte>)
    requires Hex(a) == Hex(b)
    ensures a == b
  {
    UnhexHex(a);
    UnhexHex(b);
  }
}

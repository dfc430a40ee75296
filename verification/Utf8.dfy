// The bytes of a string: UTF-8 as in section 3 of RFC 3629.
module Utf8 {
  import opened Wrappers

  newtype Byte = x: int | 0 <= x < 256

  function Tail(n: nat): Byte {
    (0x80 + n % 0x40) as Byte
  }

  function EncodeChar(c: char): seq<Byte> {
    var n := c as int;
    if n < 0x80 then [n as Byte]
    else if n < 0x800 then [(0xC0 + n / 0x40) as Byte, Tail(n)]
    else if n < 0x1_0000 then [(0xE0 + n / 0x1000) as Byte, Tail(n / 0x40), Tail(n)]
    else [(0xF0 + n / 0x4_0000) as Byte, Tail(n / 0x1000), Tail(n / 0x40), Tail(n)]
  }

  function Encode(text: string): seq<Byte> {
    if text == "" then [] else EncodeChar(text[0]) + Encode(text[1..])
  }

  // How many bytes a string has.
  function Length(text: string): nat {
    if text == "" then 0
    else
      var c := text[0] as int;
      (if c < 0x80 then 1 else if c < 0x800 then 2 else if c < 0x1_0000 then 3 else 4) + Length(text[1..])
  }

  // ---------------------------------------------------------------- decoding

  predicate IsTail(b: Byte) {
    0x80 <= b < 0xC0
  }

  // The six low bits of a continuation byte.
  function Bits(b: Byte): int
    requires IsTail(b)
  {
    b as int - 0x80
  }

  // The scalar value of the given number, if it needs as many bytes as it was
  // given and is no surrogate.
  function Scalar(n: int, least: nat): Option<char> {
    if n < least || n >= 0x11_0000 || 0xD800 <= n < 0xE000 then None else Some(n as char)
  }

  function WithSize(c: Option<char>, size: nat): Option<(char, nat)> {
    if c.None? then None else Some((c.value, size))
  }

  // The first character and the number of its bytes.
  function DecodeChar(bytes: seq<Byte>): Option<(char, nat)>
    requires bytes != []
  {
    var first := bytes[0] as int;
    if first < 0x80 then Some((first as char, 1))
    else if 0xC0 <= first < 0xE0 && |bytes| >= 2 && IsTail(bytes[1]) then
      WithSize(Scalar((first - 0xC0) * 0x40 + Bits(bytes[1]), 0x80), 2)
    else if 0xE0 <= first < 0xF0 && |bytes| >= 3 && IsTail(bytes[1]) && IsTail(bytes[2]) then
      WithSize(Scalar(((first - 0xE0) * 0x40 + Bits(bytes[1])) * 0x40 + Bits(bytes[2]), 0x800), 3)
    else if 0xF0 <= first < 0xF8 && |bytes| >= 4 && IsTail(bytes[1]) && IsTail(bytes[2]) && IsTail(bytes[3]) then
      WithSize(Scalar((((first - 0xF0) * 0x40 + Bits(bytes[1])) * 0x40 + Bits(bytes[2])) * 0x40 + Bits(bytes[3]), 0x1_0000), 4)
    else None
  }

  // Numbers in base 64 with at most four digits.
  function Number(a: int, b: int, c: int, d: int): int {
    ((a * 0x40 + b) * 0x40 + c) * 0x40 + d
  }

  lemma DigitsOf(n: nat)
    ensures Number(n / 0x4_0000, n / 0x1000 % 0x40, n / 0x40 % 0x40, n % 0x40) == n
  {
  }

  lemma DigitsAre(n: nat, a: int, b: int, c: int, d: int)
    requires 0 <= b < 0x40 && 0 <= c < 0x40 && 0 <= d < 0x40 && n == Number(a, b, c, d)
    ensures n / 0x4_0000 == a && n / 0x1000 % 0x40 == b && n / 0x40 % 0x40 == c && n % 0x40 == d
  {
    assert n / 0x40 == (a * 0x40 + b) * 0x40 + c;
    assert n / 0x1000 == a * 0x40 + b;
  }

  lemma DecodedSize(bytes: seq<Byte>)
    requires bytes != [] && DecodeChar(bytes).Some?
    ensures 0 < DecodeChar(bytes).value.1 <= |bytes|
    ensures EncodeChar(DecodeChar(bytes).value.0) == bytes[..DecodeChar(bytes).value.1]
  {
    var (c, size) := DecodeChar(bytes).value;
    var n, first := c as int, bytes[0] as int;
    match size
    case 1 =>
    case 2 => DigitsAre(n, 0, 0, first - 0xC0, Bits(bytes[1]));
    case 3 => DigitsAre(n, 0, first - 0xE0, Bits(bytes[1]), Bits(bytes[2]));
    case _ => DigitsAre(n, first - 0xF0, Bits(bytes[1]), Bits(bytes[2]), Bits(bytes[3]));
  }

  function Decode(bytes: seq<Byte>): Option<string> {
    if bytes == [] then Some("")
    else
      match DecodeChar(bytes)
      case None => None
      case Some((c, size)) =>
        DecodedSize(bytes);
        match Decode(bytes[size..])
        case None => None
        case Some(rest) => Some([c] + rest)
  }

  lemma CharAlone(c: char)
    ensures DecodeChar(EncodeChar(c)) == Some((c, |EncodeChar(c)|))
  {
    var n, e := c as int, EncodeChar(c);
    DigitsOf(n);
    match |e|
    case 1 =>
    case 2 => assert Bits(e[1]) == n % 0x40;
    case 3 => assert Bits(e[1]) == n / 0x40 % 0x40 && Bits(e[2]) == n % 0x40;
    case _ => assert Bits(e[1]) == n / 0x1000 % 0x40 && Bits(e[2]) == n / 0x40 % 0x40 && Bits(e[3]) == n % 0x40;
  }

  lemma MoreBytes(bytes: seq<Byte>, rest: seq<Byte>)
    requires bytes != [] && DecodeChar(bytes).Some?
    ensures DecodeChar(bytes + rest) == DecodeChar(bytes)
  {
  }

  lemma CharRoundTrip(c: char, rest: seq<Byte>)
    ensures DecodeChar(EncodeChar(c) + rest) == Some((c, |EncodeChar(c)|))
  {
    CharAlone(c);
    MoreBytes(EncodeChar(c), rest);
  }

  // Decoding inverts encoding, and only encodings can be decoded.
  lemma {:induction false} RoundTrip(text: string)
    ensures Decode(Encode(text)) == Some(text)
  {
    if text != "" {
      var bytes := Encode(text);
      CharRoundTrip(text[0], Encode(text[1..]));
      assert bytes[|EncodeChar(text[0])|..] == Encode(text[1..]);
      RoundTrip(text[1..]);
      assert [text[0]] + text[1..] == text;
    }
  }

  lemma {:induction false} DecodedEncodesBack(bytes: seq<Byte>)
    requires Decode(bytes).Some?
    ensures Encode(Decode(bytes).value) == bytes
    decreases |bytes|
  {
    if bytes != [] {
      var (c, size) := DecodeChar(bytes).value;
      DecodedSize(bytes);
      DecodedEncodesBack(bytes[size..]);
      var text := Decode(bytes).value;
      assert text[0] == c && text[1..] == Decode(bytes[size..]).value;
      assert bytes == bytes[..size] + bytes[size..];
    }
  }

  // What counting without encoding counts.
  lemma {:induction false} LengthIsBytes(text: string)
    ensures Length(text) == |Encode(text)| <= 4 * |text|
  {
    if text != "" { LengthIsBytes(text[1..]); }
  }
}

// src/storage.rs:42-60 and 1490-1514: object names in request URLs. Names are
// the bytes of their UTF-8 encoding.
module UrlEncoding {
  import opened Wrappers
  import opened ObjectPaths
  import opened ObjectStore
  import Utf8

  type Octets = seq<Byte>

  // Bytes that are written as themselves: printable ASCII outside the encode set.
  predicate Literal(b: Byte) {
    var c := b as int as char;
    0x20 < b < 0x7F && c !in "\"#%*/:<>?[\\]^`{|}"
  }

  function HexDigit(n: int): char
    requires 0 <= n < 16
  {
    "0123456789ABCDEF"[n]
  }

  function EncodeByte(b: Byte): string {
    if Literal(b) then [b as int as char] else ['%', HexDigit(b as int / 16), HexDigit(b as int % 16)]
  }

  function Encode(value: Octets): string {
    if value == [] then "" else EncodeByte(value[0]) + Encode(value[1..])
  }

  // ---------------------------------------------------------------- decoding

  function HexValue(c: char): Option<int> {
    if '0' <= c <= '9' then Some(c as int - '0' as int)
    else if 'A' <= c <= 'F' then Some(c as int - 'A' as int + 10)
    else if 'a' <= c <= 'f' then Some(c as int - 'a' as int + 10)
    else None
  }

  // Percent-decoding as in section 2.1 of RFC 3986.
  function Decode(text: string): Option<Octets> {
    if text == "" then Some([])
    else if text[0] == '%' then
      if |text| < 3 || HexValue(text[1]).None? || HexValue(text[2]).None? then None
      else
        match Decode(text[3..])
        case None => None
        case Some(rest) => Some([HexByte(text[1], text[2])] + rest)
    else if text[0] as int < 0x80 then
      match Decode(text[1..])
      case None => None
      case Some(rest) => Some([text[0] as int as Byte] + rest)
    else None
  }

  function HexByte(high: char, low: char): Byte
    requires HexValue(high).Some? && HexValue(low).Some?
  {
    (HexValue(high).value * 16 + HexValue(low).value) as Byte
  }

  lemma HexRoundTrip(b: Byte)
    ensures HexValue(HexDigit(b as int / 16)) == Some(b as int / 16)
    ensures HexValue(HexDigit(b as int % 16)) == Some(b as int % 16)
    ensures HexByte(HexDigit(b as int / 16), HexDigit(b as int % 16)) == b
  {
    HexDigitValue(b as int / 16);
    HexDigitValue(b as int % 16);
  }

  lemma HexDigitValue(n: int)
    requires 0 <= n < 16
    ensures HexValue(HexDigit(n)) == Some(n)
    ensures HexDigit(n) !in "/.?#" && UpperHex(HexDigit(n))
  {
  }

  lemma {:induction false} EncodeRoundTrip(value: Octets)
    ensures Decode(Encode(value)) == Some(value)
    ensures '/' !in Encode(value)
  {
    if value != [] {
      EncodeRoundTrip(value[1..]);
      HexRoundTrip(value[0]);
      HexDigitValue(value[0] as int / 16);
      HexDigitValue(value[0] as int % 16);
      var text := Encode(value);
      if Literal(value[0]) {
        assert text[1..] == Encode(value[1..]);
      } else {
        assert text[3..] == Encode(value[1..]);
      }
      assert [value[0]] + value[1..] == value;
    }
  }

  // ------------------------------------------------------ characters of a path

  // The characters of a path segment in section 3.3 of RFC 3986, escapes aside.
  predicate PathChar(c: char) {
    Unreserved(c) || c in "!$&'()*+,;=" || c == ':' || c == '@'
  }

  // Section 2.3 of RFC 3986.
  predicate Unreserved(c: char) {
    'a' <= c <= 'z' || 'A' <= c <= 'Z' || '0' <= c <= '9' || c in "-._~"
  }

  // Nothing but path characters and escapes with upper-case digits (section 2.1).
  predicate IsSegment(text: string) {
    text == "" ||
    (if text[0] == '%' then |text| >= 3 && UpperHex(text[1]) && UpperHex(text[2]) && IsSegment(text[3..])
     else PathChar(text[0]) && IsSegment(text[1..]))
  }

  predicate UpperHex(c: char) {
    '0' <= c <= '9' || 'A' <= c <= 'F'
  }

  lemma LiteralIsPathChar(b: Byte)
    requires Literal(b)
    ensures PathChar(b as int as char) && b as int as char != '%'
  {
  }

  // Whatever is encoded is one path segment: no query, no fragment, no further
  // segment can begin inside it.
  lemma {:induction false} EncodesAsSegment(value: Octets)
    ensures IsSegment(Encode(value))
    ensures forall c :: c in Encode(value) ==> c !in "/?#"
  {
    if value != [] {
      EncodesAsSegment(value[1..]);
      var text := Encode(value);
      if Literal(value[0]) {
        LiteralIsPathChar(value[0]);
        assert text[1..] == Encode(value[1..]);
      } else {
        assert text[3..] == Encode(value[1..]);
      }
      FirstCharacters(value[0]);
    }
  }

  lemma FirstCharacters(b: Byte)
    ensures forall c :: c in EncodeByte(b) ==> c !in "/?#"
  {
    HexDigitValue(b as int / 16);
    HexDigitValue(b as int % 16);
  }

  // -------------------------------------------------------------------- URLs

  datatype Resource =
    | Listing(bucket: Octets)
    | Single(bucket: Octets, name: Octets)
    | Rewrite(bucket: Octets, name: Octets, toBucket: Octets, toName: Octets)

  function Path(resource: Resource): seq<string> {
    match resource
    case Listing(b) => ["b", Encode(b), "o"]
    case Single(b, n) => ["b", Encode(b), "o", Encode(n)]
    case Rewrite(b, n, tb, tn) => ["b", Encode(b), "o", Encode(n), "rewriteTo", "b", Encode(tb), "o", Encode(tn)]
  }

  // The base followed by every segment behind a slash.
  function UnderBase(base: string, path: seq<string>): string {
    if path == [] then base else UnderBase(base, path[..|path| - 1]) + "/" + path[|path| - 1]
  }

  function Url(base: string, resource: Resource): string {
    UnderBase(base, Path(resource))
  }

  // ------------------------------------------------------------ reading URLs

  function Segments(text: string): seq<string>
    ensures Segments(text) != []
  {
    if text == "" then [""]
    else
      var rest := Segments(text[1..]);
      if text[0] == '/' then [""] + rest else [[text[0]] + rest[0]] + rest[1..]
  }

  lemma {:induction false} SegmentsConcat(a: string, b: string)
    ensures Segments(a + "/" + b) == Segments(a) + Segments(b)
  {
    var text := a + "/" + b;
    if a == "" {
      assert text[1..] == b;
    } else {
      assert text[1..] == a[1..] + "/" + b;
      SegmentsConcat(a[1..], b);
    }
  }

  lemma {:induction false} OneSegment(text: string)
    requires '/' !in text
    ensures Segments(text) == [text]
  {
    if text != "" {
      OneSegment(text[1..]);
      assert [text[0]] + text[1..] == text;
    }
  }

  lemma {:induction false} SegmentsUnderBase(base: string, path: seq<string>)
    requires forall i :: 0 <= i < |path| ==> '/' !in path[i]
    ensures Segments(UnderBase(base, path)) == Segments(base) + path
  {
    if path != [] {
      var front, last := path[..|path| - 1], path[|path| - 1];
      SegmentsUnderBase(base, front);
      SegmentsConcat(UnderBase(base, front), last);
      OneSegment(last);
      assert front + [last] == path;
    }
  }

  predicate NamesObject(path: seq<string>)
    requires |path| == 4
  {
    path[0] == "b" && path[2] == "o" && Decode(path[1]).Some? && Decode(path[3]).Some?
  }

  // What a server reads from the segments behind the base.
  function Read(path: seq<string>): Option<Resource> {
    if |path| == 3 then
      if path[0] == "b" && path[2] == "o" && Decode(path[1]).Some? then Some(Listing(Decode(path[1]).value)) else None
    else if |path| == 4 then
      if NamesObject(path) then Some(Single(Decode(path[1]).value, Decode(path[3]).value)) else None
    else if |path| == 9 then
      if NamesObject(path[..4]) && path[4] == "rewriteTo" && NamesObject(path[5..]) then
        Some(Rewrite(Decode(path[1]).value, Decode(path[3]).value, Decode(path[6]).value, Decode(path[8]).value))
      else None
    else None
  }

  lemma ObjectReadsBack(bucket: Octets, name: Octets)
    ensures NamesObject(["b", Encode(bucket), "o", Encode(name)])
    ensures Decode(Encode(bucket)) == Some(bucket) && Decode(Encode(name)) == Some(name)
    ensures '/' !in Encode(bucket) && '/' !in Encode(name) && '/' !in "b" && '/' !in "o"
  {
    EncodeRoundTrip(bucket);
    EncodeRoundTrip(name);
  }

  // A URL determines what it is about, whatever characters the names are made of.
  lemma ReadsBack(resource: Resource)
    ensures Read(Path(resource)) == Some(resource)
  {
    match resource
    case Listing(b) => EncodeRoundTrip(b);
    case Single(b, n) => ObjectReadsBack(b, n);
    case Rewrite(b, n, tb, tn) =>
      ObjectReadsBack(b, n);
      ObjectReadsBack(tb, tn);
      var path := Path(resource);
      assert path[..4] == ["b", Encode(b), "o", Encode(n)];
      assert path[5..] == ["b", Encode(tb), "o", Encode(tn)];
  }

  lemma NoSlashes(resource: Resource)
    ensures forall i :: 0 <= i < |Path(resource)| ==> '/' !in Path(resource)[i]
  {
    EncodeRoundTrip(resource.bucket);
    match resource
    case Listing(_) =>
    case Single(b, n) => ObjectReadsBack(b, n);
    case Rewrite(b, n, tb, tn) =>
      ObjectReadsBack(b, n);
      ObjectReadsBack(tb, tn);
  }

  lemma UrlRoundTrip(base: string, resource: Resource)
    ensures Segments(Url(base, resource)) == Segments(base) + Path(resource)
    ensures Read(Path(resource)) == Some(resource)
  {
    ReadsBack(resource);
    NoSlashes(resource);
    SegmentsUnderBase(base, Path(resource));
  }

  lemma UrlsAreUnique(base: string, a: Resource, b: Resource)
    requires Url(base, a) == Url(base, b)
    ensures a == b
  {
    UrlRoundTrip(base, a);
    UrlRoundTrip(base, b);
    assert Path(a) == (Segments(base) + Path(a))[|Segments(base)|..];
    assert Path(b) == (Segments(base) + Path(b))[|Segments(base)|..];
  }

  // Objects are named by strings, whose bytes are sent.
  function ObjectUrl(base: string, path: ObjectPath): string {
    Url(base, Single(Utf8.Encode(path.bucket), Utf8.Encode(path.name)))
  }

  lemma ObjectUrlsAreUnique(base: string, a: ObjectPath, b: ObjectPath)
    requires ObjectUrl(base, a) == ObjectUrl(base, b)
    ensures a == b
  {
    UrlsAreUnique(base, Single(Utf8.Encode(a.bucket), Utf8.Encode(a.name)), Single(Utf8.Encode(b.bucket), Utf8.Encode(b.name)));
    Utf8.RoundTrip(a.bucket);
    Utf8.RoundTrip(a.name);
    Utf8.RoundTrip(b.bucket);
    Utf8.RoundTrip(b.name);
  }

  // Clients drop "." and ".." segments from a URL (section 5.2.4 of RFC 3986), and
  // the dot is not encoded: a URL is safe from that exactly when no name is a dot
  // segment itself.
  predicate DotSegment(text: string) {
    text == "." || text == ".."
  }

  predicate DotName(value: Octets) {
    value == [0x2E] || value == [0x2E, 0x2E]
  }

  lemma DotNamesAreDotSegments(value: Octets)
    ensures DotSegment(Encode(value)) <==> DotName(value)
  {
    EncodeRoundTrip(value);
    assert Encode([0x2E]) == ".";
    assert Encode([0x2E, 0x2E]) == "." + Encode([0x2E]);
    EncodeRoundTrip([0x2E]);
    EncodeRoundTrip([0x2E, 0x2E]);
  }

  lemma DotFreeUrls(bucket: Octets, name: Octets)
    ensures (exists s :: s in Path(Single(bucket, name)) && DotSegment(s)) <==> DotName(bucket) || DotName(name)
  {
    DotNamesAreDotSegments(bucket);
    DotNamesAreDotSegments(name);
    var path := Path(Single(bucket, name));
    assert path[1] in path && path[3] in path;
  }
}

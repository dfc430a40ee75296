// src/storage.rs:1267-1285: the committed range a resumable session reports.
module ByteRanges {
  import opened Wrappers
  import opened Errors
  import opened ObjectPaths

  const U64_MAX: nat := 0xFFFF_FFFF_FFFF_FFFF
  const RANGE_PREFIX: string := "bytes="

  predicate IsDigit(c: char) { '0' <= c <= '9' }

  function DigitValue(c: char): nat
    requires IsDigit(c)
  {
    c as int - '0' as int
  }

  function DigitChar(d: nat): (c: char)
    requires d < 10
    ensures IsDigit(c) && DigitValue(c) == d
  {
    ('0' as int + d) as char
  }

  // Decimal printing, as the server writes numbers.
  function Decimal(n: nat): (text: string)
    ensures text != "" && forall i :: 0 <= i < |text| ==> IsDigit(text[i])
  {
    if n < 10 then [DigitChar(n)] else Decimal(n / 10) + [DigitChar(n % 10)]
  }

  function DigitsValue(text: string): nat
    requires forall i :: 0 <= i < |text| ==> IsDigit(text[i])
  {
    if text == "" then 0 else 10 * DigitsValue(text[..|text| - 1]) + DigitValue(text[|text| - 1])
  }

  // Rust's u64 parser: digits with an optional plus sign; too large is an error.
  function ParseU64(text: string): Option<nat> {
    var digits := if text != "" && text[0] == '+' then text[1..] else text;
    if digits == "" || exists i :: 0 <= i < |digits| && !IsDigit(digits[i]) then None
    else if DigitsValue(digits) > U64_MAX then None
    else Some(DigitsValue(digits))
  }

  function CheckedIncrement(n: nat): Option<nat> {
    if n >= U64_MAX then None else Some(n + 1)
  }

  function ParseResumableRange(range: string): Result<nat, AppError> {
    if !(RANGE_PREFIX <= range) then Err(StorageResponse(InvalidRange))
    else
      match SplitOnce(range[|RANGE_PREFIX|..], '-')
      case None => Err(StorageResponse(InvalidRange))
      case Some((start, end)) =>
        if start != "0" then Err(StorageResponse(InvalidRange))
        else
          match ParseU64(end)
          case None => Err(StorageResponse(InvalidRange))
          case Some(last) =>
            match CheckedIncrement(last)
            case None => Err(StorageResponse(InvalidRange))
            case Some(next) => Ok(next)
  }

  // The header for a session that holds the first `committed` bytes.
  function RangeHeader(committed: nat): Option<string> {
    if committed == 0 then None else Some(RANGE_PREFIX + "0-" + Decimal(committed - 1))
  }

  lemma {:induction false} DecimalValue(n: nat)
    ensures DigitsValue(Decimal(n)) == n
  {
    if n >= 10 {
      DecimalValue(n / 10);
      assert Decimal(n)[..|Decimal(n)| - 1] == Decimal(n / 10);
    }
  }

  lemma DecimalParses(n: nat)
    ensures ParseU64(Decimal(n)) == if n <= U64_MAX then Some(n) else None
  {
    DecimalValue(n);
    assert IsDigit(Decimal(n)[0]);
  }

  lemma RangeParts(last: string)
    ensures RANGE_PREFIX <= RANGE_PREFIX + "0-" + last
    ensures SplitOnce((RANGE_PREFIX + "0-" + last)[|RANGE_PREFIX|..], '-') == Some(("0", last))
  {
    assert (RANGE_PREFIX + "0-" + last)[|RANGE_PREFIX|..] == "0" + ['-'] + last;
    SplitOnceAtFirst("0", '-', last);
  }

  // Parsing inverts the header for exactly the lengths that fit into 64 bits; the
  // one end that would overflow the increment is rejected, not wrapped.
  lemma RangeRoundTrip(committed: nat)
    requires committed > 0
    ensures ParseResumableRange(RangeHeader(committed).value)
         == if committed <= U64_MAX then Ok(committed) else Err(StorageResponse(InvalidRange))
  {
    RangeParts(Decimal(committed - 1));
    DecimalParses(committed - 1);
  }

  // Only a range that starts at zero parses, and it then claims at least a byte.
  lemma ParsedRangeShape(range: string)
    requires ParseResumableRange(range).Ok?
    ensures 0 < ParseResumableRange(range).value <= U64_MAX
    ensures RANGE_PREFIX + "0-" <= range
  {
    var rest := range[|RANGE_PREFIX|..];
    assert range == RANGE_PREFIX + rest;
    assert SplitOnce(rest, '-').Some?;
    assert rest == "0" + ['-'] + SplitOnce(rest, '-').value.1;
  }
}

/** Range request headers and Content-Range headers, on strings. */
module ByteRanges {
  import opened Wrappers
  import opened UploadParts

  // ----- Decimal numbers

  predicate IsDigit(c: char) {
    '0' <= c <= '9'
  }

  predicate Digits(s: string) {
    forall i :: 0 <= i < |s| ==> IsDigit(s[i])
  }

  function ParseNat(s: string): nat
    requires Digits(s)
  {
    if s == "" then 0 else 10 * ParseNat(s[..|s| - 1]) + (s[|s| - 1] as int - '0' as int)
  }

  function Digit(d: nat): char
    requires d < 10
  {
    ('0' as int + d) as char
  }

  function PrintNat(n: nat): (s: string)
    ensures s != "" && Digits(s)
  {
    if n < 10 then [Digit(n)] else PrintNat(n / 10) + [Digit(n % 10)]
  }

  lemma {:induction false} PrintThenParse(n: nat)
    ensures ParseNat(PrintNat(n)) == n
  {
    if n < 10 {
      assert PrintNat(n)[..0] == "";
    } else {
      PrintThenParse(n / 10);
      assert PrintNat(n)[..|PrintNat(n)| - 1] == PrintNat(n / 10);
    }
  }

  /** The length of the longest run of digits at the front. */
  function DigitRun(s: string): (n: nat)
    ensures n <= |s| && Digits(s[..n]) && (n < |s| ==> !IsDigit(s[n]))
  {
    if s == "" || !IsDigit(s[0]) then 0 else
      var n := 1 + DigitRun(s[1..]);
      assert s[..n] == [s[0]] + s[1..][..n - 1];
      n
  }

  lemma {:induction false} DigitRunEnds(digits: string, rest: string)
    requires Digits(digits) && (rest == "" || !IsDigit(rest[0]))
    ensures DigitRun(digits + rest) == |digits|
  {
    if digits == "" {
      assert digits + rest == rest;
    } else {
      DigitRunEnds(digits[1..], rest);
      assert (digits + rest)[1..] == digits[1..] + rest;
    }
  }

  datatype Pieces = Pieces(digits: string, rest: string)

  /** Splits a string into its leading digits and what follows the mark right after them. */
  function Cut(s: string, mark: char): (r: Option<Pieces>)
    ensures r.Some? ==> Digits(r.value.digits) && s == r.value.digits + ([mark] + r.value.rest)
  {
    var n := DigitRun(s);
    if n < |s| && s[n] == mark then
      assert s == s[..n] + ([mark] + s[n + 1..]);
      Some(Pieces(s[..n], s[n + 1..]))
    else None
  }

  lemma CutFinds(digits: string, mark: char, rest: string)
    requires Digits(digits) && !IsDigit(mark)
    ensures Cut(digits + ([mark] + rest), mark) == Some(Pieces(digits, rest))
  {
    var s := digits + ([mark] + rest);
    DigitRunEnds(digits, [mark] + rest);
    assert s[..|digits|] == digits && s[|digits| + 1..] == rest;
  }

  // ----- Range: bytes=start-end

  /** What String.prototype.trim removes. */
  predicate IsSpace(c: char) {
    || c in " \t\n\r" || c == '\U{B}' || c == '\U{C}' || c == '\U{A0}' || c == '\U{1680}'
    || '\U{2000}' <= c <= '\U{200A}' || c == '\U{2028}' || c == '\U{2029}' || c == '\U{202F}' || c == '\U{205F}'
    || c == '\U{3000}' || c == '\U{FEFF}'
  }

  function Trim(s: string): string
    decreases |s|
  {
    if s != "" && IsSpace(s[0]) then Trim(s[1..])
    else if s != "" && IsSpace(s[|s| - 1]) then Trim(s[..|s| - 1])
    else s
  }

  predicate Blank(s: string) {
    forall i :: 0 <= i < |s| ==> IsSpace(s[i])
  }

  lemma {:induction false} TrimPadding(left: string, s: string, right: string)
    requires Blank(left) && Blank(right) && s != "" && !IsSpace(s[0]) && !IsSpace(s[|s| - 1])
    ensures Trim(left + s + right) == s
    decreases |left| + |right|
  {
    var padded := left + s + right;
    if left != "" {
      assert padded[1..] == left[1..] + s + right;
      TrimPadding(left[1..], s, right);
    } else if right != "" {
      assert padded[0] == s[0];
      assert padded[..|padded| - 1] == left + s + right[..|right| - 1];
      TrimPadding(left, s, right[..|right| - 1]);
    } else {
      assert padded == s;
    }
  }

  datatype RawRange = RawRange(start: string, end: string)

  function RangeText(raw: RawRange): string {
    "bytes=" + (raw.start + ("-" + raw.end))
  }

  /** The pattern `bytes=` digits `-` digits, over the whole string. */
  function MatchRange(s: string): Option<RawRange> {
    if !("bytes=" <= s) then None else
      var cut := Cut(s[6..], '-');
      if cut.Some? && Digits(cut.value.rest) then Some(RawRange(cut.value.digits, cut.value.rest)) else None
  }

  /** A string matches exactly when it is the text of two runs of digits. */
  lemma MatchesExactly(s: string, raw: RawRange)
    ensures MatchRange(s) == Some(raw) <==> s == RangeText(raw) && Digits(raw.start) && Digits(raw.end)
  {
    if s == RangeText(raw) && Digits(raw.start) && Digits(raw.end) {
      assert s[6..] == raw.start + ("-" + raw.end);
      CutFinds(raw.start, '-', raw.end);
    }
    if MatchRange(s) == Some(raw) {
      assert s == "bytes=" + s[6..];
    }
  }

  datatype RangeError = InvalidRange | RangeNotSatisfiable
  datatype ByteRange = ByteRange(start: int, end: int, length: int)

  /** No header, or nothing to serve, means no range. */
  function ParseSingleRange(header: Option<string>, total: int): Result<Option<ByteRange>, RangeError> {
    if total <= 0 || header.None? || header.value == "" then Ok(None) else
      match MatchRange(Trim(header.value))
      case None => Err(InvalidRange)
      case Some(raw) =>
        MatchesExactly(Trim(header.value), raw);
        if raw.start == "" && raw.end == "" then Err(InvalidRange)
        else if raw.start == "" then
          var suffix := ParseNat(raw.end);
          if suffix <= 0 then Err(InvalidRange)
          else Satisfy(if suffix >= total then 0 else total - suffix, total - 1, total)
        else Satisfy(ParseNat(raw.start), if raw.end != "" then ParseNat(raw.end) else total - 1, total)
  }

  function Satisfy(start: int, end: int, total: int): Result<Option<ByteRange>, RangeError> {
    if start >= total || start < 0 || end < start then Err(RangeNotSatisfiable) else
      var last := if end >= total then total - 1 else end;
      Ok(Some(ByteRange(start, last, last - start + 1)))
  }

  /**
   Section 14.1.2 of RFC 9110: the bytes an int-range or a suffix-range of a representation of `total` bytes names.
   */
  predicate Names(raw: RawRange, total: int, at: int)
    requires Digits(raw.start) && Digits(raw.end)
  {
    && 0 <= at < total
    && if raw.start == "" then at >= total - ParseNat(raw.end)
       else ParseNat(raw.start) <= at && (raw.end == "" || at <= ParseNat(raw.end))
  }

  predicate WellFormed(raw: RawRange) {
    Digits(raw.start) && Digits(raw.end) && (raw.start != "" || raw.end != "")
  }

  /** A well-formed header selects exactly the bytes it names, and is refused exactly when it names none. */
  lemma SelectsTheNamedBytes(raw: RawRange, left: string, right: string, total: int)
    requires WellFormed(raw) && Blank(left) && Blank(right) && total > 0
    ensures var r := ParseSingleRange(Some(left + RangeText(raw) + right), total);
      match r
      case Ok(Some(range)) =>
        && 0 <= range.start <= range.end < total && range.length == range.end - range.start + 1
        && forall at :: Names(raw, total, at) <==> range.start <= at <= range.end
      case Ok(None) => false
      case Err(error) =>
        && (forall at :: !Names(raw, total, at))
        && (error == InvalidRange <==> raw.start == "" && ParseNat(raw.end) == 0)
  {
    var text := RangeText(raw);
    assert text[0] == 'b' && (raw.end == "" ==> text[|text| - 1] == '-')
      && (raw.end != "" ==> text[|text| - 1] == raw.end[|raw.end| - 1]);
    TrimPadding(left, text, right);
    MatchesExactly(text, raw);
    assert left + text + right != "";
    hide MatchRange, Trim, ParseNat, IsSpace;
    var r := ParseSingleRange(Some(left + text + right), total);
    if r.Err? && raw.start != "" && ParseNat(raw.start) < total {
      assert raw.end != "" && ParseNat(raw.end) < ParseNat(raw.start);
    }
  }

  /** Any header that is not a well-formed single range is refused as such. */
  lemma RefusesTheRest(header: string, total: int)
    requires header != "" && total > 0
    requires forall raw :: WellFormed(raw) ==> Trim(header) != RangeText(raw)
    ensures ParseSingleRange(Some(header), total) == Err(InvalidRange)
  {
    if MatchRange(Trim(header)).Some? { MatchesExactly(Trim(header), MatchRange(Trim(header)).value); }
  }

  // ----- Content-Range: bytes start-end/total

  function ContentText(start: string, end: string, total: string): string {
    "bytes " + (start + ("-" + (end + ("/" + total))))
  }

  function RangeHeader(range: ByteRange, total: nat): string
    requires range.start >= 0 && range.end >= 0
  {
    ContentText(PrintNat(range.start), PrintNat(range.end), PrintNat(total))
  }

  datatype ContentRange = ContentRange(start: nat, end: nat, total: nat)
  datatype ContentError = InvalidContentRange | InvalidUploadPart

  /** The pattern `bytes ` digits `-` digits `/` digits, none of them empty. */
  function ParseContentRange(value: string): Result<ContentRange, ContentError> {
    if !("bytes " <= value) then Err(InvalidContentRange) else
      var start := Cut(value[6..], '-');
      if start.None? || start.value.digits == "" then Err(InvalidContentRange) else
        var end := Cut(start.value.rest, '/');
        if end.None? || end.value.digits == "" || end.value.rest == "" || !Digits(end.value.rest)
          then Err(InvalidContentRange) else
          var range := ContentRange(ParseNat(start.value.digits), ParseNat(end.value.digits), ParseNat(end.value.rest));
          if range.end < range.start then Err(InvalidContentRange) else Ok(range)
  }

  /** Every text of three numbers is read back as those numbers, unless the end precedes the start. */
  lemma ReadsContentRange(start: string, end: string, total: string)
    requires Digits(start) && Digits(end) && Digits(total) && start != "" && end != "" && total != ""
    ensures ParseContentRange(ContentText(start, end, total))
         == if ParseNat(end) < ParseNat(start) then Err(InvalidContentRange)
            else Ok(ContentRange(ParseNat(start), ParseNat(end), ParseNat(total)))
  {
    hide ParseNat, Digits;
    assert ContentText(start, end, total)[6..] == start + ("-" + (end + ("/" + total)));
    CutFinds(start, '-', end + ("/" + total));
    CutFinds(end, '/', total);
  }

  /** And nothing else is read: an accepted value is the text of the three numbers it is read as. */
  lemma ReadsOnlyContentRanges(value: string) returns (start: string, end: string, total: string)
    requires ParseContentRange(value).Ok?
    ensures Digits(start) && Digits(end) && Digits(total) && start != "" && end != "" && total != ""
    ensures value == ContentText(start, end, total)
    ensures ParseContentRange(value).value == ContentRange(ParseNat(start), ParseNat(end), ParseNat(total))
  {
    hide Cut, ParseNat, Digits;
    var first := Cut(value[6..], '-').value;
    var second := Cut(first.rest, '/').value;
    start, end, total := first.digits, second.digits, second.rest;
    assert value == "bytes " + value[6..];
  }

  /** A header the service prints for a satisfied range is read back as the same start, end and total. */
  lemma PrintedRangeIsReadBack(header: string, total: int)
    requires total > 0
    requires var r := ParseSingleRange(Some(header), total); r.Ok? && r.value.Some?
    ensures var range := ParseSingleRange(Some(header), total).value.value;
      && 0 <= range.start <= range.end < total
      && ParseContentRange(RangeHeader(range, total)) == Ok(ContentRange(range.start, range.end, total))
  {
    hide ParseSingleRange, ParseContentRange, RangeHeader;
    RangeInside(header, total);
    HeaderRoundTrip(ParseSingleRange(Some(header), total).value.value, total);
  }

  /** Whatever the header, a range that is granted lies within the representation. */
  lemma RangeInside(header: string, total: int)
    requires total > 0
    ensures var r := ParseSingleRange(Some(header), total);
      r.Ok? && r.value.Some? ==> 0 <= r.value.value.start <= r.value.value.end < total
  {
    hide MatchRange, Trim, ParseNat;
  }

  lemma HeaderRoundTrip(range: ByteRange, total: nat)
    requires 0 <= range.start <= range.end
    ensures ParseContentRange(RangeHeader(range, total)) == Ok(ContentRange(range.start, range.end, total))
  {
    PrintThenParse(range.start);
    PrintThenParse(range.end);
    PrintThenParse(total);
    hide ParseNat, PrintNat, ParseContentRange;
    ReadsContentRange(PrintNat(range.start), PrintNat(range.end), PrintNat(total));
  }

  // ----- The range of an upload part

  function ValidatePartRange(layout: Layout, partNumber: int, header: string): Result<Span, ContentError> {
    match PartGeometry(layout, partNumber)
    case InvalidPartNumber => Err(InvalidUploadPart)
    case Range(expected) =>
      match ParseContentRange(header)
      case Err(error) => Err(error)
      case Ok(actual) =>
        if actual.start != expected.start || actual.end != expected.end || actual.total != layout.size
          then Err(InvalidContentRange)
        else Ok(expected)
  }

  /** The canonical header of a part is accepted for that part and for no other part of the session. */
  lemma OnlyItsOwnRange(layout: Layout, n: nat, other: nat)
    requires layout.Valid() && n < layout.partCount && other < layout.partCount
    ensures var span := PartGeometry(layout, n).span;
      && 0 <= span.start <= span.end < layout.size
      && var header := RangeHeader(ByteRange(span.start, span.end, span.size), layout.size);
         ValidatePartRange(layout, other, header) == if other == n then Ok(span) else Err(InvalidContentRange)
  {
    hide Start, CeilDiv, PartGeometry, ParseContentRange, RangeHeader;
    PartsTile(layout, n);
    PartsTile(layout, other);
    var span := PartGeometry(layout, n).span;
    HeaderRoundTrip(ByteRange(span.start, span.end, span.size), layout.size);
    if other < n { StartMonotone(layout, other + 1, n); }
    if n < other { StartMonotone(layout, n + 1, other); }
  }

  /** Without a header, or with nothing to serve, there is no range and no error. */
  lemma NoHeaderNoRange(header: Option<string>, total: int)
    requires total <= 0 || header.None? || header.value == ""
    ensures ParseSingleRange(header, total) == Ok(None)
  {
  }

  /** A part's range is accepted exactly when start, end and total are all three those of the part. */
  lemma PartRangeIsExact(layout: Layout, partNumber: int, header: string)
    ensures ValidatePartRange(layout, partNumber, header).Ok? <==>
              && 0 <= partNumber < layout.partCount && ParseContentRange(header).Ok?
              && var span, read := PartGeometry(layout, partNumber).span, ParseContentRange(header).value;
                 read.start == span.start && read.end == span.end && read.total == layout.size
    ensures ValidatePartRange(layout, partNumber, header) == Err(InvalidUploadPart) <==>
              !(0 <= partNumber < layout.partCount)
  {
    hide Cut, ParseNat, Digits;
  }

  /** Padding is white space; no character that can be part of a range is. */
  lemma PaddingIsWhiteSpace(c: char)
    ensures c in " \t\n\r" ==> IsSpace(c)
    ensures '!' <= c <= '~' ==> !IsSpace(c)
  {
  }
}

// Byte ranges: what the player may ask for and which upstream answers are passed on to it.
module ByteRange {
  import opened Options
  import opened Text

  const MAX_INT64: nat := 0x7FFF_FFFF_FFFF_FFFF
  const MIN_INT64: int := -0x8000_0000_0000_0000
  const MAX_HEADER_BYTES: nat := 128
  const MAX_DIGITS: nat := 19

  // first-last, first- and -length.
  datatype Range = Closed(first: nat, last: nat) | OpenEnded(first: nat) | Suffix(length: nat)

  datatype Parsed = NoRange | Requested(range: Range) | Invalid

  // contentLength is -1 when unknown; a missing header is the empty text.
  datatype Response = Response(status: int, contentLength: int, contentRange: string, contentLengthHeader: string)

  datatype ContentRange = ContentRange(first: nat, last: nat, size: nat)

  // ----- the request -----

  function Count(s: string, c: char): nat {
    if s == "" then 0 else (if s[0] == c then 1 else 0) + Count(s[1..], c)
  }

  predicate HasPrefix(s: string, prefix: string) {
    |s| >= |prefix| && s[..|prefix|] == prefix
  }

  function ParseNumber(s: string): Option<nat> {
    if s == "" || |s| > MAX_DIGITS || !AllDigits(s) || Value(s) > MAX_INT64 then None else Some(Value(s))
  }

  function ParseRange(value: string): Parsed {
    if value == "" then NoRange
    else if |value| > MAX_HEADER_BYTES || !HasPrefix(value, "bytes=") || Has(value, ',') then Invalid
    else
      var pair := value[6..];
      if Count(pair, '-') != 1 then Invalid
      else
        var before, after := CutBefore(pair, '-'), CutAfter(pair, '-');
        if before == "" && after == "" then Invalid
        else if before == "" then
          var length := ParseNumber(after);
          if length.Some? && length.value > 0 then Requested(Suffix(length.value)) else Invalid
        else
          var first := ParseNumber(before);
          if first.None? then Invalid
          else if after == "" then Requested(OpenEnded(first.value))
          else
            var last := ParseNumber(after);
            if last.Some? && first.value <= last.value then Requested(Closed(first.value, last.value)) else Invalid
  }

  predicate ValidRange(r: Range) {
    match r
    case Closed(first, last) => first <= last <= MAX_INT64
    case OpenEnded(first) => first <= MAX_INT64
    case Suffix(length) => 0 < length <= MAX_INT64
  }

  function PrintRange(r: Range): string {
    match r
    case Closed(first, last) => "bytes=" + (Print(first) + "-" + Print(last))
    case OpenEnded(first) => "bytes=" + (Print(first) + "-" + "")
    case Suffix(length) => "bytes=" + ("" + "-" + Print(length))
  }

  // s is a numeral of n: at most 19 digits, with leading zeros or without, and n fits int64.
  predicate Numeral(s: string, n: int) {
    1 <= |s| <= 19 && AllDigits(s) && Value(s) == n <= 9_223_372_036_854_775_807
  }

  lemma NumberExactly(s: string)
    ensures forall n: nat :: ParseNumber(s) == Some(n) <==> Numeral(s, n)
  {
  }

  // The texts of a range.
  ghost predicate RangeText(value: string, r: Range) {
    exists a: string, b: string :: value == "bytes=" + (a + "-" + b) && RangeParts(a, b, r)
  }

  ghost predicate RangeParts(a: string, b: string, r: Range) {
    match r
    case Closed(first, last) => Numeral(a, first) && Numeral(b, last) && first <= last
    case OpenEnded(first) => Numeral(a, first) && b == ""
    case Suffix(length) => a == "" && Numeral(b, length) && length > 0
  }

  lemma {:induction false} CountZero(s: string, c: char)
    ensures Count(s, c) == 0 <==> !Has(s, c)
    ensures Count(s, c) == 0 <==> forall i :: 0 <= i < |s| ==> s[i] != c
  {
    if s != "" {
      CountZero(s[1..], c);
      assert forall i :: 1 <= i < |s| ==> s[i] == s[1..][i - 1];
      assert forall i :: 0 <= i < |s| - 1 ==> s[1..][i] == s[i + 1];
    }
  }

  lemma {:induction false} CountConcat(a: string, b: string, c: char)
    ensures Count(a + b, c) == Count(a, c) + Count(b, c)
  {
    if a == "" {
      assert a + b == b;
    } else {
      assert (a + b)[1..] == a[1..] + b;
      CountConcat(a[1..], b, c);
    }
  }

  lemma NumberShape(s: string)
    requires s == "" || ParseNumber(s).Some?
    ensures |s| <= MAX_DIGITS && forall i :: 0 <= i < |s| ==> IsDigit(s[i])
    ensures Count(s, '-') == 0
  {
    CountZero(s, '-');
  }

  lemma PairShape(a: string, b: string)
    requires (a == "" || ParseNumber(a).Some?) && (b == "" || ParseNumber(b).Some?)
    ensures var pair := a + "-" + b;
            && |pair| <= 2 * MAX_DIGITS + 1
            && Count(pair, '-') == 1 && CutBefore(pair, '-') == a && CutAfter(pair, '-') == b
            && forall i :: 0 <= i < |pair| ==> pair[i] != ','
  {
    NumberShape(a);
    NumberShape(b);
    assert a + "-" + b == a + ['-'] + b;
    CutConcat(a, '-', b);
    CountConcat(a + "-", b, '-');
    CountConcat(a, "-", '-');
    assert Count("-", '-') == 1 by { assert "-"[1..] == ""; }
  }

  lemma PartsAccepted(a: string, b: string, r: Range)
    requires RangeParts(a, b, r)
    ensures ParseRange("bytes=" + (a + "-" + b)) == Requested(r)
  {
    NumberExactly(a);
    NumberExactly(b);
    PairShape(a, b);
  }

  // Exactly the missing header asks for no range.
  lemma NoRangeExactly(value: string)
    ensures ParseRange(value) == NoRange <==> value == ""
  {
  }

  // A header is accepted as a range exactly when it is a text of that range.
  lemma AcceptsExactlyRanges(value: string, r: Range)
    ensures ParseRange(value) == Requested(r) <==> RangeText(value, r)
    ensures ParseRange(value) == Requested(r) ==> ValidRange(r)
  {
    if RangeText(value, r) {
      var a: string, b: string :| value == "bytes=" + (a + "-" + b) && RangeParts(a, b, r);
      PartsAccepted(a, b, r);
    }
    if ParseRange(value) == Requested(r) { AcceptedIsRange(value, r); }
  }

  lemma AcceptedIsRange(value: string, r: Range)
    requires ParseRange(value) == Requested(r)
    ensures RangeText(value, r) && ValidRange(r)
  {
    var pair := value[6..];
    CountZero(pair, '-');
    var a, b := CutBefore(pair, '-'), CutAfter(pair, '-');
    assert pair == a + "-" + b;
    assert value == "bytes=" + (a + "-" + b);
    NumberExactly(a);
    NumberExactly(b);
    assert RangeParts(a, b, r);
  }

  lemma PrintedNumber(n: nat)
    requires n <= MAX_INT64
    ensures ParseNumber(Print(n)) == Some(n) && Numeral(Print(n), n)
  {
    ValuePrint(n);
    PrintLength(n, MAX_DIGITS);
    PowerOf19();
  }

  lemma PowerOf19()
    ensures Power10(19) == 10_000_000_000_000_000_000
  {
    assert Power10(5) == 100_000;
    assert Power10(10) == 10_000_000_000;
    assert Power10(15) == 1_000_000_000_000_000;
  }

  // Parsing inverts printing, for all three forms.
  lemma ParsePrint(r: Range)
    requires ValidRange(r)
    ensures ParseRange(PrintRange(r)) == Requested(r)
  {
    match r
    case Closed(first, last) =>
      PrintedNumber(first);
      PrintedNumber(last);
      PartsAccepted(Print(first), Print(last), r);
    case OpenEnded(first) =>
      PrintedNumber(first);
      PartsAccepted(Print(first), "", r);
    case Suffix(length) =>
      PrintedNumber(length);
      PartsAccepted("", Print(length), r);
  }

  // ----- the answer -----

  function SatisfiedContentRange(value: string): Option<ContentRange> {
    if !HasPrefix(value, "bytes ") then None
    else
      var rest := value[6..];
      if !Has(rest, '/') || CutAfter(rest, '/') == "*" then None
      else
        var pair := CutBefore(rest, '/');
        if !Has(pair, '-') then None
        else
          var first, last, size := ParseNumber(CutBefore(pair, '-')), ParseNumber(CutAfter(pair, '-')),
              ParseNumber(CutAfter(rest, '/'));
          if first.None? || last.None? || size.None? then None
          else if size.value > 0 && first.value <= last.value && last.value < size.value then
            Some(ContentRange(first.value, last.value, size.value))
          else None
  }

  // A signed decimal number that fits int64.
  function ParseInt(s: string): Option<int> {
    var negative := HasPrefix(s, "-");
    var digits := if negative || HasPrefix(s, "+") then s[1..] else s;
    if digits == "" || !AllDigits(digits) then None
    else
      var n: int := if negative then -(Value(digits) as int) else Value(digits);
      if MIN_INT64 <= n <= MAX_INT64 then Some(n) else None
  }

  predicate Digits(s: string) { s != "" && AllDigits(s) }

  // s is a decimal number with or without a sign, and n its value, which fits int64.
  predicate SignedNumeral(s: string, n: int) {
    && -9_223_372_036_854_775_808 <= n <= 9_223_372_036_854_775_807
    && (|| (Digits(s) && n == Value(s))
        || (s != "" && s[0] == '+' && Digits(s[1..]) && n == Value(s[1..]))
        || (s != "" && s[0] == '-' && Digits(s[1..]) && n + Value(s[1..]) == 0))
  }

  lemma IntegersExactly(s: string, n: int)
    ensures ParseInt(s) == Some(n) <==> SignedNumeral(s, n)
  {
    if s != "" {
      assert s[..1] == [s[0]];
      assert s[0] == '+' || s[0] == '-' ==> !AllDigits(s);
    }
  }

  function Clipped(length: nat, size: nat): nat { if length > size then size else length }

  predicate Matches(r: Range, c: ContentRange) {
    match r
    case Closed(first, last) => c.first == first && c.last <= last
    case OpenEnded(first) => c.first == first && c.last >= c.first && c.last < c.size
    case Suffix(length) => c.last == c.size - 1 && c.last - c.first + 1 == Clipped(length, c.size)
  }

  predicate ValidStatusAndRange(response: Response, requested: Range, hasRange: bool) {
    if !hasRange then response.status == 200 && response.contentRange == ""
    else if response.status != 206 then false
    else
      var c := SatisfiedContentRange(response.contentRange);
      c.Some? && PassesContent(response, requested, c.value)
  }

  predicate PassesContent(response: Response, requested: Range, c: ContentRange) {
    Matches(requested, c) && LengthsAgree(response, c.last - c.first + 1)
  }

  // Every length that the answer states is the number of bytes.
  predicate LengthsAgree(response: Response, expected: int) {
    && (response.contentLength >= 0 ==> response.contentLength == expected)
    && (response.contentLengthHeader != "" ==> ParseInt(response.contentLengthHeader) == Some(expected))
  }

  // The bytes that a range asks for in a file of the given size: sections 14.1.2 and 14.4 of RFC 9110.
  ghost predicate Wanted(r: Range, size: nat, position: nat) {
    && position < size
    && match r
       case Closed(first, last) => first <= position <= last
       case OpenEnded(first) => first <= position
       case Suffix(length) => size <= position + length
  }

  // The answer's bytes are wanted, starting with the first wanted one; a suffix is answered whole,
  // and every stated length is the number of bytes.
  ghost predicate Answers(response: Response, r: Range) {
    && response.status == 206
    && exists c :: SatisfiedContentRange(response.contentRange) == Some(c) && AnswersWith(response, r, c)
  }

  ghost predicate AnswersWith(response: Response, r: Range, c: ContentRange) {
    && c.first <= c.last
    && Covers(r, c)
    && Stated(response, c.last - c.first + 1)
  }

  // The lengths that the answer states, as the client counts and as the header says, are n.
  ghost predicate Stated(response: Response, n: int) {
    && (response.contentLength == n || response.contentLength < 0)
    && (response.contentLengthHeader == "" || SignedNumeral(response.contentLengthHeader, n))
  }

  ghost predicate Covers(r: Range, c: ContentRange) {
    && (forall p: nat :: c.first <= p <= c.last ==> Wanted(r, c.size, p))
    && (forall p: nat :: p < c.first ==> !Wanted(r, c.size, p))
    && (r.Suffix? ==> forall p: nat :: c.last < p ==> !Wanted(r, c.size, p))
  }

  // The texts of a content range: numbers may carry leading zeros.
  ghost predicate ContentRangeText(value: string, c: ContentRange) {
    exists a: string, b: string, n: string ::
      value == "bytes " + (a + "-" + b + "/" + n) && ContentRangeParts(a, b, n, c)
  }

  ghost predicate ContentRangeParts(a: string, b: string, n: string, c: ContentRange) {
    && Numeral(a, c.first) && Numeral(b, c.last) && Numeral(n, c.size)
    && c.first <= c.last < c.size
  }

  lemma ContentPartsAccepted(a: string, b: string, n: string, c: ContentRange)
    requires ContentRangeParts(a, b, n, c)
    ensures SatisfiedContentRange("bytes " + (a + "-" + b + "/" + n)) == Some(c)
  {
    var pair := a + "-" + b;
    var rest := pair + "/" + n;
    var value := "bytes " + rest;
    NumberExactly(a);
    NumberExactly(b);
    NumberExactly(n);
    assert value[..6] == "bytes " && value[6..] == rest;
    PairShape(a, b);
    NumberShape(a);
    NumberShape(b);
    NumberShape(n);
    forall i | 0 <= i < |pair| ensures pair[i] != '/' {
      if i < |a| {
        assert pair[i] == a[i];
      } else if i > |a| {
        assert pair[i] == b[i - |a| - 1];
      }
    }
    assert rest == pair + ['/'] + n;
    CutConcat(pair, '/', n);
    assert pair == a + ['-'] + b;
    CutConcat(a, '-', b);
    assert n[0] != '*';
  }

  // A content range is accepted exactly when it is a text of it, with its numbers in order.
  lemma AcceptsExactlyContentRanges(value: string, c: ContentRange)
    ensures SatisfiedContentRange(value) == Some(c) <==> ContentRangeText(value, c)
  {
    if ContentRangeText(value, c) {
      var a: string, b: string, n: string :|
        value == "bytes " + (a + "-" + b + "/" + n) && ContentRangeParts(a, b, n, c);
      ContentPartsAccepted(a, b, n, c);
    }
    if SatisfiedContentRange(value) == Some(c) { AcceptedIsContentRange(value, c); }
  }

  lemma AcceptedIsContentRange(value: string, c: ContentRange)
    requires SatisfiedContentRange(value) == Some(c)
    ensures ContentRangeText(value, c)
  {
    var rest, pair, a, b, n := PartsRead(value, c);
    PartsNumbered(a, b, n, c);
    PartsJoined(value, rest, pair, a, b, n);
  }

  lemma PartsRead(value: string, c: ContentRange)
    returns (rest: string, pair: string, a: string, b: string, n: string)
    requires SatisfiedContentRange(value) == Some(c)
    ensures |value| >= 6 && value[..6] == "bytes " && rest == value[6..]
    ensures pair == a + ['-'] + b && rest == pair + ['/'] + n
    ensures ParseNumber(a) == Some(c.first) && ParseNumber(b) == Some(c.last) && ParseNumber(n) == Some(c.size)
    ensures c.first <= c.last < c.size
  {
    rest := value[6..];
    pair, n := CutBefore(rest, '/'), CutAfter(rest, '/');
    a, b := CutBefore(pair, '-'), CutAfter(pair, '-');
    CutJoin(rest, '/');
    CutJoin(pair, '-');
  }

  lemma PartsNumbered(a: string, b: string, n: string, c: ContentRange)
    requires ParseNumber(a) == Some(c.first) && ParseNumber(b) == Some(c.last) && ParseNumber(n) == Some(c.size)
    requires c.first <= c.last < c.size
    ensures ContentRangeParts(a, b, n, c)
  {
    NumberExactly(a);
    NumberExactly(b);
    NumberExactly(n);
  }

  lemma PartsJoined(value: string, rest: string, pair: string, a: string, b: string, n: string)
    requires |value| >= 6 && value[..6] == "bytes " && rest == value[6..]
    requires pair == a + ['-'] + b && rest == pair + ['/'] + n
    ensures value == "bytes " + (a + "-" + b + "/" + n)
  {
  }

  function PrintContentRange(c: ContentRange): string {
    "bytes " + (Print(c.first) + "-" + Print(c.last) + "/" + Print(c.size))
  }

  lemma ParsePrintContentRange(c: ContentRange)
    requires c.first <= c.last < c.size <= MAX_INT64
    ensures SatisfiedContentRange(PrintContentRange(c)) == Some(c)
  {
    PrintedNumber(c.first);
    PrintedNumber(c.last);
    PrintedNumber(c.size);
    ContentPartsAccepted(Print(c.first), Print(c.last), Print(c.size), c);
  }

  lemma ContentRangeBounds(value: string)
    ensures SatisfiedContentRange(value).Some? ==>
              var c := SatisfiedContentRange(value).value;
              c.first <= c.last < c.size <= MAX_INT64 && 1 <= c.last - c.first + 1 <= MAX_INT64
  {
  }

  lemma MatchesMeans(r: Range, c: ContentRange)
    requires c.first <= c.last < c.size && ValidRange(r)
    ensures Matches(r, c) <==> Covers(r, c)
  {
    if Covers(r, c) {
      assert Wanted(r, c.size, c.first) && Wanted(r, c.size, c.last);
      assert c.first > 0 ==> !Wanted(r, c.size, c.first - 1);
      assert r.Suffix? && c.last < c.size - 1 ==> !Wanted(r, c.size, c.size - 1);
    }
  }

  // A 206 answer passes exactly when it answers the request; its byte count then fits int64.
  lemma PassesExactlyAnswers(response: Response, r: Range)
    requires ValidRange(r)
    ensures ValidStatusAndRange(response, r, true) <==> Answers(response, r)
    ensures ValidStatusAndRange(response, r, true) ==>
              var c := SatisfiedContentRange(response.contentRange).value;
              c.last < c.size && c.last - c.first + 1 <= MAX_INT64
  {
    ContentRangeBounds(response.contentRange);
    if SatisfiedContentRange(response.contentRange).Some? {
      PassesWith(response, r, SatisfiedContentRange(response.contentRange).value);
    }
  }

  lemma PassesWith(response: Response, r: Range, c: ContentRange)
    requires ValidRange(r) && c.first <= c.last < c.size
    ensures PassesContent(response, r, c) <==> AnswersWith(response, r, c)
  {
    MatchesMeans(r, c);
    IntegersExactly(response.contentLengthHeader, c.last - c.first + 1);
  }

  // Without a range in the request, exactly a plain 200 answer passes.
  lemma WithoutRange(response: Response, r: Range)
    ensures ValidStatusAndRange(response, r, false) <==> response.status == 200 && response.contentRange == ""
  {
  }

  // From header to header: what the player's own range header asked for is what it is given.
  lemma PassedAnswerFitsHeader(header: string, response: Response)
    requires ParseRange(header).Requested?
    requires ValidStatusAndRange(response, ParseRange(header).range, true)
    ensures Answers(response, ParseRange(header).range) && RangeText(header, ParseRange(header).range)
  {
    AcceptsExactlyRanges(header, ParseRange(header).range);
    PassesExactlyAnswers(response, ParseRange(header).range);
  }
}

// Timestamps as the database stores them: fixed-width UTC text, so that comparing the text
// compares the times.
module StoredTime {
  import opened Options
  import opened Text

  // The UTC calendar fields of an instant.
  datatype Time = Time(year: int, month: nat, day: nat, hour: nat, minute: nat, second: nat, nano: nat)

  const ZERO := Time(1, 1, 1, 0, 0, 0, 0)

  const WIDTHS: seq<nat> := [4, 2, 2, 2, 2, 2, 9]
  const SEPARATORS: string := "--T::.Z"

  predicate IsLeap(year: int) {
    year % 4 == 0 && (year % 100 != 0 || year % 400 == 0)
  }

  function DaysIn(year: int, month: nat): nat {
    if month == 2 then (if IsLeap(year) then 29 else 28)
    else if month in {4, 6, 9, 11} then 30
    else 31
  }

  predicate ValidTime(t: Time) {
    && 1 <= t.month <= 12
    && 1 <= t.day <= DaysIn(t.year, t.month)
    && t.hour < 24 && t.minute < 60 && t.second < 60 && t.nano < 1_000_000_000
  }

  // Every instant has valid calendar fields.
  type Instant = t: Time | ValidTime(t) witness ZERO

  // The leap days of the years before the given one, counted from the year 1.
  function LeapDays(year: int): int { (year - 1) / 4 - (year - 1) / 100 + (year - 1) / 400 }

  lemma Quotients(n: int)
    ensures n / 4 - (n - 1) / 4 == if n % 4 == 0 then 1 else 0
    ensures n / 100 - (n - 1) / 100 == if n % 100 == 0 then 1 else 0
    ensures n / 400 - (n - 1) / 400 == if n % 400 == 0 then 1 else 0
  {
  }

  lemma Multiples(n: int)
    ensures n % 400 == 0 ==> n % 100 == 0
    ensures n % 100 == 0 ==> n % 4 == 0
  {
  }

  // February has 28 days and the year's leap day.
  lemma FebruaryExactly(year: int)
    ensures DaysIn(year, 2) == 28 + LeapDays(year + 1) - LeapDays(year)
  {
    Quotients(year);
    Multiples(year);
  }

  // The first and the last instant of a month, and what would be just outside of it.
  lemma MonthExactly(year: int, month: nat)
    requires 1 <= month <= 12
    ensures month != 2 ==> DaysIn(year, month) == if month in {4, 6, 9, 11} then 30 else 31
    ensures ValidTime(Time(year, month, 1, 0, 0, 0, 0)) && !ValidTime(Time(year, month, 0, 0, 0, 0, 0))
    ensures ValidTime(Time(year, month, DaysIn(year, month), 23, 59, 59, 999_999_999))
    ensures !ValidTime(Time(year, month, DaysIn(year, month) + 1, 0, 0, 0, 0))
    ensures !ValidTime(Time(year, 0, 1, 0, 0, 0, 0)) && !ValidTime(Time(year, 13, 1, 0, 0, 0, 0))
  {
  }

  // An hour has 60 minutes of 60 seconds, and a day 24 hours.
  lemma ClockExactly(t: Time)
    requires ValidTime(t)
    ensures ValidTime(t.(hour := 23, minute := 59, second := 59, nano := 999_999_999))
    ensures !ValidTime(t.(hour := 24)) && !ValidTime(t.(minute := 60)) && !ValidTime(t.(second := 60))
    ensures !ValidTime(t.(nano := 1_000_000_000))
  {
  }

  predicate Encodable(t: Time) {
    ValidTime(t) && 1 <= t.year <= 9999
  }

  function Fields(t: Time): (f: seq<nat>)
    requires t.year >= 0
    ensures |f| == 7
  {
    [t.year, t.month, t.day, t.hour, t.minute, t.second, t.nano]
  }

  // Chronological order, field by field.
  predicate Earlier(a: seq<nat>, b: seq<nat>, i: nat)
    requires |a| == |b| == 7 && i <= 7
    decreases 7 - i
  {
    i < 7 && (a[i] < b[i] || (a[i] == b[i] && Earlier(a, b, i + 1)))
  }

  predicate Before(t: Time, u: Time)
    requires t.year >= 0 && u.year >= 0
  {
    Earlier(Fields(t), Fields(u), 0)
  }

  // The text of the fields from the i-th on.
  function Render(fields: seq<nat>, i: nat): string
    requires |fields| == 7 && i <= 7
    decreases 7 - i
  {
    if i == 7 then "" else Pad(fields[i], WIDTHS[i]) + [SEPARATORS[i]] + Render(fields, i + 1)
  }

  function Encode(t: Time): Option<string> {
    if t == ZERO then Some("")
    else if t.year < 1 || t.year > 9999 then None
    else Some(Render(Fields(t), 0))
  }

  // A time has a stored text exactly if its year has four digits and is not before the year 1.
  lemma EncodedExactly(t: Time)
    ensures Encode(t).Some? <==> 1 <= t.year <= 9999
  {
  }

  // Reads the fields from the i-th on; the text must end with the last one.
  function Scan(s: string, i: nat): Option<seq<nat>>
    requires i <= 7
    decreases 7 - i
  {
    if i == 7 then (if s == "" then Some([]) else None)
    else
      var w := WIDTHS[i];
      if |s| <= w || !AllDigits(s[..w]) || s[w] != SEPARATORS[i] then None
      else
        var rest := Scan(s[w + 1..], i + 1);
        if rest.None? then None else Some([Value(s[..w])] + rest.value)
  }

  function Decode(s: string): Option<Time> {
    if s == "" then Some(ZERO)
    else
      var f := Scan(s, 0);
      if f.None? || |f.value| != 7 then None
      else
        var t := Time(f.value[0], f.value[1], f.value[2], f.value[3], f.value[4], f.value[5], f.value[6]);
        if ValidTime(t) then Some(t) else None
  }

  ghost predicate Fits(f: seq<nat>) {
    |f| == 7 && forall i :: 0 <= i < 7 ==> f[i] < Power10(WIDTHS[i])
  }

  lemma FieldsFit(t: Time)
    requires Encodable(t)
    ensures Fits(Fields(t))
  {
    assert Power10(2) == 100 && Power10(4) == 10000 by { assert Power10(3) == 1000; }
    assert Power10(9) == 1_000_000_000 by {
      assert Power10(5) == 100000 && Power10(6) == 1000000 && Power10(7) == 10000000 && Power10(8) == 100000000;
    }
  }

  lemma {:induction false} ScanRender(f: seq<nat>, i: nat)
    requires Fits(f) && i <= 7
    ensures Scan(Render(f, i), i) == Some(f[i..])
    decreases 7 - i
  {
    if i < 7 {
      ValuePad(f[i], WIDTHS[i]);
      ScanRender(f, i + 1);
      assert f[i..] == [f[i]] + f[i + 1..];
      ScanField(Pad(f[i], WIDTHS[i]), Render(f, i + 1), i);
    }
  }

  // A field is read off the front of the text.
  lemma ScanField(field: string, rest: string, i: nat)
    requires i < 7 && |field| == WIDTHS[i] && AllDigits(field) && Scan(rest, i + 1).Some?
    ensures Scan(field + [SEPARATORS[i]] + rest, i) == Some([Value(field)] + Scan(rest, i + 1).value)
  {
    var text := field + [SEPARATORS[i]] + rest;
    assert text[..WIDTHS[i]] == field && text[WIDTHS[i] + 1..] == rest;
  }

  // Reading back what was stored gives the same time.
  lemma DecodeEncode(t: Time)
    requires Encodable(t)
    ensures Encode(t).Some? && Decode(Encode(t).value) == Some(t)
  {
    if t != ZERO {
      FieldsFit(t);
      ScanRender(Fields(t), 0);
      assert Render(Fields(t), 0) != "";
    }
  }

  lemma {:induction false} RenderOrder(f: seq<nat>, g: seq<nat>, i: nat)
    requires Fits(f) && Fits(g) && i <= 7
    ensures Less(Render(f, i), Render(g, i)) <==> Earlier(f, g, i)
    decreases 7 - i
  {
    if i < 7 {
      var w, c := WIDTHS[i], [SEPARATORS[i]];
      var a, b := Pad(f[i], w), Pad(g[i], w);
      ValuePad(f[i], w);
      ValuePad(g[i], w);
      DigitsCompare(a, b);
      assert a + c + Render(f, i + 1) == (a + c) + Render(f, i + 1);
      LessConcat(a + c, b + c, Render(f, i + 1), Render(g, i + 1));
      LessConcat(a, b, c, c);
      LessIrreflexive(c);
      assert a == b ==> a + c == b + c;
      assert a + c == b + c ==> a == (a + c)[..w] == (b + c)[..w] == b;
      RenderOrder(f, g, i + 1);
    }
  }

  // Comparing the stored text compares the times, the zero time's empty text included.
  lemma EncodeKeepsOrder(t: Time, u: Time)
    requires Encodable(t) && Encodable(u)
    ensures Encode(t).Some? && Encode(u).Some?
    ensures Less(Encode(t).value, Encode(u).value) <==> Before(t, u)
    ensures Encode(t) == Encode(u) <==> t == u
  {
    FieldsFit(t);
    FieldsFit(u);
    RenderOrder(Fields(t), Fields(u), 0);
    DecodeEncode(t);
    DecodeEncode(u);
    assert t != ZERO ==> Encode(t).value != "";
    assert u != ZERO ==> Encode(u).value != "";
  }
}

// Strings as the app compares and prints them: lexicographic order and decimal numbers.
module Text {

  // ----- lexicographic order -----

  predicate Less(a: string, b: string) {
    if b == "" then false
    else if a == "" then true
    else a[0] < b[0] || (a[0] == b[0] && Less(a[1..], b[1..]))
  }

  lemma {:induction false} LessIrreflexive(a: string)
    ensures !Less(a, a)
  {
    if a != "" { LessIrreflexive(a[1..]); }
  }

  lemma {:induction false} LessTransitive(a: string, b: string, c: string)
    requires Less(a, b) && Less(b, c)
    ensures Less(a, c)
  {
    if a != "" && a[0] == b[0] == c[0] {
      LessTransitive(a[1..], b[1..], c[1..]);
    }
  }

  lemma {:induction false} LessTotal(a: string, b: string)
    ensures Less(a, b) || Less(b, a) || a == b
  {
    if a != "" && b != "" && a[0] == b[0] {
      LessTotal(a[1..], b[1..]);
      assert a == [a[0]] + a[1..] && b == [b[0]] + b[1..];
    }
  }

  lemma LessAsymmetric(a: string, b: string)
    ensures !(Less(a, b) && Less(b, a))
  {
    if Less(a, b) && Less(b, a) {
      LessTransitive(a, b, a);
      LessIrreflexive(a);
    }
  }

  // Strings of equal length decide before whatever follows them.
  lemma {:induction false} LessConcat(a: string, b: string, c: string, d: string)
    requires |a| == |b|
    ensures Less(a + c, b + d) <==> Less(a, b) || (a == b && Less(c, d))
  {
    if a == "" {
      assert a + c == c && b + d == d;
    } else {
      assert (a + c)[1..] == a[1..] + c && (b + d)[1..] == b[1..] + d;
      assert a == [a[0]] + a[1..] && b == [b[0]] + b[1..];
      LessConcat(a[1..], b[1..], c, d);
    }
  }

  // ----- decimal numbers -----

  predicate IsDigit(c: char) { '0' <= c <= '9' }

  predicate AllDigits(s: string) { forall i :: 0 <= i < |s| ==> IsDigit(s[i]) }

  function DigitValue(c: char): (n: nat)
    requires IsDigit(c)
    ensures n < 10
  {
    c as int - '0' as int
  }

  function DigitChar(n: nat): (c: char)
    requires n < 10
    ensures IsDigit(c) && DigitValue(c) == n
  {
    ('0' as int + n) as char
  }

  function Value(s: string): nat
    requires AllDigits(s)
  {
    if s == "" then 0 else 10 * Value(s[..|s| - 1]) + DigitValue(s[|s| - 1])
  }

  function Power10(n: nat): (p: nat)
    ensures p > 0
  {
    if n == 0 then 1 else 10 * Power10(n - 1)
  }

  // The last width digits of n, zero-padded on the left.
  function Pad(n: nat, width: nat): (s: string)
    ensures |s| == width && AllDigits(s)
  {
    if width == 0 then "" else Pad(n / 10, width - 1) + [DigitChar(n % 10)]
  }

  // n without leading zeros, as a number is printed.
  function Print(n: nat): (s: string)
    ensures s != "" && AllDigits(s)
    ensures n < 10 <==> |s| == 1
  {
    if n < 10 then [DigitChar(n)] else Print(n / 10) + [DigitChar(n % 10)]
  }

  lemma {:induction false} ValueBound(s: string)
    requires AllDigits(s)
    ensures Value(s) < Power10(|s|)
  {
    if s != "" { ValueBound(s[..|s| - 1]); }
  }

  lemma {:induction false} ValuePad(n: nat, width: nat)
    requires n < Power10(width)
    ensures Value(Pad(n, width)) == n
  {
    if width > 0 {
      assert Power10(width) == 10 * Power10(width - 1);
      assert n / 10 < Power10(width - 1);
      ValuePad(n / 10, width - 1);
      assert Pad(n, width)[..width - 1] == Pad(n / 10, width - 1);
    }
  }

  lemma {:induction false} ValuePrint(n: nat)
    ensures Value(Print(n)) == n
    ensures Print(n)[0] == '0' <==> n == 0
  {
    if n >= 10 {
      ValuePrint(n / 10);
      assert Print(n)[..|Print(n)| - 1] == Print(n / 10);
    } else {
      assert Print(n)[..0] == "";
    }
  }

  // Printing restores a number without leading zeros.
  lemma {:induction false} PrintValue(s: string)
    requires AllDigits(s) && s != "" && s[0] != '0'
    ensures Print(Value(s)) == s
  {
    var n := |s| - 1;
    assert s == s[..n] + [s[n]];
    assert DigitChar(DigitValue(s[n])) == s[n];
    if n > 0 {
      PrintValue(s[..n]);
      LeadingDigit(s[..n]);
    } else {
      assert s[..n] == "";
    }
  }

  lemma {:induction false} PrintLength(n: nat, k: nat)
    requires k > 0
    ensures |Print(n)| <= k <==> n < Power10(k)
  {
    if k > 1 && n >= 10 {
      PrintLength(n / 10, k - 1);
    } else if k == 1 {
      assert Power10(1) == 10 * Power10(0);
    } else {
    }
  }

  // Digit strings of equal length compare as numbers, and determine each other.
  lemma {:induction false} DigitsCompare(a: string, b: string)
    requires AllDigits(a) && AllDigits(b) && |a| == |b|
    ensures Less(a, b) <==> Value(a) < Value(b)
    ensures a == b <==> Value(a) == Value(b)
  {
    if a != "" {
      var n := |a| - 1;
      DigitsCompare(a[..n], b[..n]);
      LessConcat(a[..n], b[..n], a[n..], b[n..]);
      assert a == a[..n] + a[n..] && b == b[..n] + b[n..];
      assert Less(a[n..], b[n..]) <==> a[n] < b[n];
      LessIrreflexive(a);
    }
  }

  // Of two numbers without leading zeros, the shorter one is smaller.
  lemma ShorterIsSmaller(a: string, b: string)
    requires AllDigits(a) && AllDigits(b) && |a| < |b| && b[0] != '0'
    ensures Value(a) < Value(b)
  {
    ValueBound(a);
    LeadingDigit(b);
    PowerMonotone(|a|, |b| - 1);
  }

  lemma {:induction false} LeadingDigit(b: string)
    requires AllDigits(b) && b != "" && b[0] != '0'
    ensures Value(b) >= Power10(|b| - 1)
  {
    if |b| > 1 {
      LeadingDigit(b[..|b| - 1]);
    } else {
      assert b[..0] == "";
      assert Value("") == 0;
    }
  }

  lemma {:induction false} PowerMonotone(m: nat, n: nat)
    requires m <= n
    ensures Power10(m) <= Power10(n)
  {
    if m < n { PowerMonotone(m, n - 1); }
  }

  // ----- finding and cutting -----

  // The position of the first c, or |s|.
  function IndexOf(s: string, c: char): (i: nat)
    ensures i <= |s|
    ensures i < |s| ==> s[i] == c
    ensures forall k :: 0 <= k < i ==> s[k] != c
  {
    if s == "" || s[0] == c then 0 else 1 + IndexOf(s[1..], c)
  }

  lemma IndexOfConcat(a: string, c: char, b: string)
    requires forall k :: 0 <= k < |a| ==> a[k] != c
    ensures IndexOf(a + [c] + b, c) == |a|
  {
    var s := a + [c] + b;
    assert s[|a|] == c;
    assert forall k :: 0 <= k < |a| ==> s[k] == a[k];
  }

  // Cut as in the standard library: the text around the first c, if there is one.
  function CutBefore(s: string, c: char): string { s[..IndexOf(s, c)] }

  function CutAfter(s: string, c: char): string {
    var i := IndexOf(s, c);
    if i < |s| then s[i + 1..] else ""
  }

  predicate Has(s: string, c: char) { IndexOf(s, c) < |s| }

  lemma CutConcat(a: string, c: char, b: string)
    requires forall k :: 0 <= k < |a| ==> a[k] != c
    ensures Has(a + [c] + b, c)
    ensures CutBefore(a + [c] + b, c) == a
    ensures CutAfter(a + [c] + b, c) == b
  {
    IndexOfConcat(a, c, b);
  }

  lemma CutJoin(s: string, c: char)
    requires Has(s, c)
    ensures s == CutBefore(s, c) + [c] + CutAfter(s, c)
  {
  }

  // ----- white space -----

  predicate IsSpace(c: char) {
    || c == ' ' || '\U{0009}' <= c <= '\U{000D}' || c == '\U{0085}' || c == '\U{00A0}' || c == '\U{1680}'
    || '\U{2000}' <= c <= '\U{200A}' || c == '\U{2028}' || c == '\U{2029}' || c == '\U{202F}' || c == '\U{205F}'
    || c == '\U{3000}'
  }

  function TrimSpace(s: string): (t: string)
    ensures t == "" || (!IsSpace(t[0]) && !IsSpace(t[|t| - 1]))
    ensures s == "" || (!IsSpace(s[0]) && !IsSpace(s[|s| - 1])) ==> t == s
    decreases |s|
  {
    if s == "" then ""
    else if IsSpace(s[0]) then TrimSpace(s[1..])
    else if IsSpace(s[|s| - 1]) then TrimSpace(s[..|s| - 1])
    else s
  }

  predicate AllSpace(s: string) { forall i :: 0 <= i < |s| ==> IsSpace(s[i]) }

  // The white space of the Unicode property.
  lemma SpaceExactly(c: char)
    ensures IsSpace(c) <==>
      || c in "\t\n\U{000B}\U{000C}\r \U{0085}\U{00A0}\U{1680}\U{2028}\U{2029}\U{202F}\U{205F}\U{3000}"
      || 0x2000 <= c as int <= 0x200A
  {
  }

  // Exactly the outer white space is trimmed.
  lemma {:induction false} TrimExactly(s: string) returns (left: string, right: string)
    ensures s == left + TrimSpace(s) + right && AllSpace(left) && AllSpace(right)
    decreases |s|
  {
    if s == "" || (!IsSpace(s[0]) && !IsSpace(s[|s| - 1])) {
      left, right := "", "";
    } else if IsSpace(s[0]) {
      var l, r := TrimExactly(s[1..]);
      left, right := [s[0]] + l, r;
      FrontJoined(s, l, TrimSpace(s), r);
    } else {
      var l, r := TrimExactly(s[..|s| - 1]);
      left, right := l, r + [s[|s| - 1]];
      BackJoined(s, l, TrimSpace(s), r);
    }
  }

  lemma FrontJoined(s: string, left: string, t: string, right: string)
    requires s != "" && s[1..] == left + t + right
    ensures s == [s[0]] + left + t + right
  {
  }

  lemma BackJoined(s: string, left: string, t: string, right: string)
    requires s != "" && s[..|s| - 1] == left + t + right
    ensures s == left + t + (right + [s[|s| - 1]])
  {
    assert s == s[..|s| - 1] + [s[|s| - 1]];
  }

  predicate OccursAt(s: string, part: string, i: nat) { i + |part| <= |s| && s[i..i + |part|] == part }

  predicate Contains(s: string, part: string) { exists i: nat | i <= |s| :: OccursAt(s, part, i) }

  // Lower case as far as it can produce ASCII letters.
  function LowerChar(c: char): char {
    if 'A' <= c <= 'Z' then ((c as int) + 32) as char
    else if c == '\U{0130}' then 'i' else if c == '\U{212A}' then 'k' else c
  }

  function Lower(s: string): string {
    if s == "" then "" else [LowerChar(s[0])] + Lower(s[1..])
  }

  ghost predicate Around(s: string, left: string, part: string, right: string) { s == left + part + right }

  lemma ContainsExactly(s: string, part: string)
    ensures Contains(s, part) <==> exists left, right :: Around(s, left, part, right)
  {
    if Contains(s, part) {
      var i: nat :| i <= |s| && OccursAt(s, part, i);
      assert Around(s, s[..i], part, s[i + |part|..]);
    }
    if left, right :| Around(s, left, part, right) {
      assert s[|left|..|left| + |part|] == part;
      assert OccursAt(s, part, |left|);
    }
  }

  // The lower case of an ASCII letter, and the two other letters that have one.
  lemma LowerExactly(c: char, n: nat)
    ensures n < 26 ==> LowerChar("ABCDEFGHIJKLMNOPQRSTUVWXYZ"[n]) == "abcdefghijklmnopqrstuvwxyz"[n]
    ensures LowerChar('\U{0130}') == 'i' && LowerChar('\U{212A}') == 'k'
    ensures c !in "ABCDEFGHIJKLMNOPQRSTUVWXYZ" && c != '\U{0130}' && c != '\U{212A}' ==> LowerChar(c) == c
  {
    if 'A' <= c <= 'Z' { assert "ABCDEFGHIJKLMNOPQRSTUVWXYZ"[c as int - 'A' as int] == c; }
  }

  lemma {:induction false} LowerEach(s: string, i: nat)
    requires i < |s|
    ensures |Lower(s)| == |s| && Lower(s)[i] == LowerChar(s[i])
  {
    if |s| > 1 { LowerEach(s[1..], if i > 0 then i - 1 else 0); }
  }
}

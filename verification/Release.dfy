// Release versions: parsing, printing and ordering.
module Release {
  import opened Options
  import opened Text

  type Numbers = s: seq<nat> | |s| == 3 witness [0, 0, 0]

  datatype Version = Version(numbers: Numbers, stage: seq<string>)

  const MAX_DIGITS: nat := 9

  // ----- text helpers of the standard library -----

  function TrimPrefix(s: string): string {
    if s != "" && s[0] == 'v' then s[1..] else s
  }

  function Split(s: string): (parts: seq<string>)
    ensures parts != []
    decreases |s|
  {
    if Has(s, '.') then [CutBefore(s, '.')] + Split(CutAfter(s, '.')) else [s]
  }

  function Join(parts: seq<string>): string
    requires parts != []
  {
    if |parts| == 1 then parts[0] else parts[0] + "." + Join(parts[1..])
  }

  predicate Without(s: string, c: char) { forall i :: 0 <= i < |s| ==> s[i] != c }

  lemma {:induction false} JoinSplit(s: string)
    ensures Join(Split(s)) == s
    decreases |s|
  {
    if Has(s, '.') {
      JoinSplit(CutAfter(s, '.'));
      JoinHead(CutBefore(s, '.'), Split(CutAfter(s, '.')));
      CutWhole(s);
    }
  }

  lemma JoinHead(part: string, rest: seq<string>)
    requires rest != []
    ensures Join([part] + rest) == part + "." + Join(rest)
  {
    assert ([part] + rest)[1..] == rest;
  }

  lemma CutWhole(s: string)
    requires Has(s, '.')
    ensures s == CutBefore(s, '.') + "." + CutAfter(s, '.')
  {
  }

  lemma {:induction false} SplitJoin(parts: seq<string>)
    requires parts != [] && forall part :: part in parts ==> Without(part, '.')
    ensures Split(Join(parts)) == parts
  {
    if |parts| > 1 {
      SplitJoin(parts[1..]);
      assert forall part :: part in parts[1..] ==> part in parts;
      assert parts[0] in parts;
      CutConcat(parts[0], '.', Join(parts[1..]));
    } else {
      assert parts == [parts[0]] && parts[0] in parts;
    }
  }

  lemma {:induction false} JoinWithout(parts: seq<string>, c: char)
    requires parts != [] && c != '.' && forall part :: part in parts ==> Without(part, c)
    ensures Without(Join(parts), c)
  {
    assert parts[0] in parts;
    if |parts| > 1 {
      assert forall part :: part in parts[1..] ==> part in parts;
      JoinWithout(parts[1..], c);
    }
  }

  // ----- parsing -----

  predicate IsNumber(s: string) { 0 < |s| <= MAX_DIGITS && AllDigits(s) }

  predicate IsIdentifierChar(c: char) { IsDigit(c) || 'a' <= c <= 'z' || 'A' <= c <= 'Z' || c == '-' }

  predicate IsIdentifier(s: string) { s != "" && forall i :: 0 <= i < |s| ==> IsIdentifierChar(s[i]) }

  // The characters of an identifier: section 9 of Semantic Versioning 2.0.0.
  lemma IdentifierCharExactly(c: char)
    ensures IsIdentifierChar(c) <==>
      c in "0123456789" || c in "abcdefghijklmnopqrstuvwxyz" || c in "ABCDEFGHIJKLMNOPQRSTUVWXYZ" || c == '-'
  {
    RangeExactly("0123456789", '0', 10, c);
    RangeExactly("abcdefghijklmnopqrstuvwxyz", 'a', 26, c);
    RangeExactly("ABCDEFGHIJKLMNOPQRSTUVWXYZ", 'A', 26, c);
  }

  lemma RangeExactly(chars: string, first: char, n: nat, c: char)
    requires |chars| == n && forall i :: 0 <= i < n ==> chars[i] as int == first as int + i
    ensures c in chars <==> first as int <= c as int < first as int + n
  {
    if first as int <= c as int < first as int + n { assert chars[c as int - first as int] == c; }
  }

  predicate AllNumbers(parts: seq<string>) { forall i :: 0 <= i < |parts| ==> IsNumber(parts[i]) }

  predicate AllIdentifiers(stage: seq<string>) { forall i :: 0 <= i < |stage| ==> IsIdentifier(stage[i]) }

  function Values(parts: seq<string>): (values: seq<nat>)
    requires AllNumbers(parts)
    ensures |values| == |parts|
  {
    seq(|parts|, i requires 0 <= i < |parts| => Value(parts[i]))
  }

  // How a version is written: three numbers, then possibly a dash and the stage.
  function Spelling(parts: seq<string>, stage: seq<string>): string
    requires parts != []
  {
    Join(parts) + if stage == [] then "" else "-" + Join(stage)
  }

  // text is parts and stage in the form [v]MAJOR.MINOR.PATCH[-STAGE], amid white space.
  ghost predicate Reads(text: string, parts: seq<string>, stage: seq<string>) {
    && |parts| == 3 && AllNumbers(parts) && AllIdentifiers(stage)
    && (TrimSpace(text) == Spelling(parts, stage) || TrimSpace(text) == "v" + Spelling(parts, stage))
  }

  // The only parts and stage that a text can be cut into.
  function PartsOf(text: string): (parts: seq<string>) {
    Split(CutBefore(TrimPrefix(TrimSpace(text)), '-'))
  }

  function StageOf(text: string): (stage: seq<string>) {
    var value := TrimPrefix(TrimSpace(text));
    if Has(value, '-') then Split(CutAfter(value, '-')) else []
  }

  lemma NumbersAreClean(parts: seq<string>)
    requires parts != [] && AllNumbers(parts)
    ensures Split(Join(parts)) == parts
    ensures Without(Join(parts), '-')
    ensures Join(parts) != "" && IsDigit(Join(parts)[0])
  {
    SplitJoin(parts);
    JoinWithout(parts, '-');
  }

  lemma CutSpelling(parts: seq<string>, stage: seq<string>)
    requires parts != [] && AllNumbers(parts)
    ensures var value := Spelling(parts, stage);
      && CutBefore(value, '-') == Join(parts) && (Has(value, '-') <==> stage != [])
      && (stage != [] ==> CutAfter(value, '-') == Join(stage))
  {
    NumbersAreClean(parts);
    if stage == [] {
      assert Spelling(parts, stage) == Join(parts);
    } else {
      assert Spelling(parts, stage) == Join(parts) + ['-'] + Join(stage);
      CutConcat(Join(parts), '-', Join(stage));
    }
  }

  lemma PrefixTrimmed(text: string, spelling: string, parts: seq<string>, stage: seq<string>)
    requires parts != [] && AllNumbers(parts) && spelling == Spelling(parts, stage)
    requires text == spelling || text == "v" + spelling
    ensures TrimPrefix(text) == spelling
  {
    NumbersAreClean(parts);
    assert ("v" + spelling)[1..] == spelling;
  }

  // There is one way to read a text, if any.
  lemma ReadsOneWay(text: string, parts: seq<string>, stage: seq<string>)
    requires Reads(text, parts, stage)
    ensures parts == PartsOf(text) && stage == StageOf(text)
  {
    PrefixTrimmed(TrimSpace(text), Spelling(parts, stage), parts, stage);
    NumbersAreClean(parts);
    CutSpelling(parts, stage);
    if stage != [] { SplitJoin(stage); }
  }

  predicate Readable(text: string) {
    |PartsOf(text)| == 3 && AllNumbers(PartsOf(text)) && AllIdentifiers(StageOf(text))
  }

  lemma CutJoins(value: string)
    ensures value == CutBefore(value, '-') + if Has(value, '-') then "-" + CutAfter(value, '-') else ""
  {
  }

  lemma ReadsParts(text: string)
    requires Readable(text)
    ensures Reads(text, PartsOf(text), StageOf(text))
  {
    var trimmed := TrimSpace(text);
    var value := TrimPrefix(trimmed);
    CutJoins(value);
    JoinSplit(CutBefore(value, '-'));
    if Has(value, '-') { JoinSplit(CutAfter(value, '-')); }
    assert value == Spelling(PartsOf(text), StageOf(text));
    assert trimmed != value ==> trimmed == "v" + value;
  }

  // A text has a reading exactly when its own parts and stage are one.
  lemma OnlyReading(text: string)
    ensures Readable(text) <==> exists parts, stage :: Reads(text, parts, stage)
    ensures forall parts, stage :: Reads(text, parts, stage) ==> parts == PartsOf(text) && stage == StageOf(text)
  {
    forall parts, stage | Reads(text, parts, stage) ensures parts == PartsOf(text) && stage == StageOf(text) {
      ReadsOneWay(text, parts, stage);
    }
    if Readable(text) { ReadsParts(text); }
  }

  method ParseNumber(value: string) returns (ok: bool, number: nat)
    ensures ok <==> IsNumber(value)
    ensures ok ==> number == Value(value)
  {
    ok, number := false, 0;
    if value == "" || |value| > MAX_DIGITS { return; }
    var i := 0;
    while i < |value|
      invariant i <= |value| && AllDigits(value[..i]) && number == Value(value[..i])
    {
      if value[i] < '0' || value[i] > '9' {
        assert !IsDigit(value[i]);
        return false, 0;
      }
      assert value[..i + 1][..i] == value[..i];
      number := 10 * number + DigitValue(value[i]);
      i := i + 1;
    }
    assert value[..i] == value;
    ok := true;
  }

  method ValidIdentifier(value: string) returns (ok: bool)
    ensures ok <==> IsIdentifier(value)
  {
    if value == "" { return false; }
    var i := 0;
    while i < |value|
      invariant i <= |value| && forall k :: 0 <= k < i ==> IsIdentifierChar(value[k])
    {
      if !IsIdentifierChar(value[i]) { return false; }
      i := i + 1;
    }
    return true;
  }

  method ParseNumbers(parts: seq<string>) returns (ok: bool, numbers: seq<nat>)
    ensures ok <==> AllNumbers(parts)
    ensures ok ==> numbers == Values(parts)
  {
    numbers := [];
    for i := 0 to |parts|
      invariant |numbers| == i && AllNumbers(parts[..i]) && numbers == Values(parts[..i])
    {
      var valid, number := ParseNumber(parts[i]);
      if !valid { return false, []; }
      numbers := numbers + [number];
      assert parts[..i + 1] == parts[..i] + [parts[i]];
    }
    assert parts[..|parts|] == parts;
    return true, numbers;
  }

  method CheckStage(stage: seq<string>) returns (ok: bool)
    ensures ok <==> AllIdentifiers(stage)
  {
    for i := 0 to |stage|
      invariant forall k :: 0 <= k < i ==> IsIdentifier(stage[k])
    {
      ok := ValidIdentifier(stage[i]);
      if !ok { return; }
    }
    return true;
  }

  // Parse succeeds exactly on the texts of the documented form, and returns what is written there.
  method Parse(text: string) returns (result: Option<Version>)
    ensures result.Some? <==> exists parts, stage :: Reads(text, parts, stage)
    ensures forall parts, stage :: Reads(text, parts, stage) ==> result == Some(Version(Values(parts), stage))
  {
    OnlyReading(text);
    var value := TrimPrefix(TrimSpace(text));
    var parts := Split(CutBefore(value, '-'));
    if |parts| != 3 { return None; }
    var valid, numbers := ParseNumbers(parts);
    if !valid { return None; }
    var stage := [];
    if Has(value, '-') {
      stage := Split(CutAfter(value, '-'));
      valid := CheckStage(stage);
      if !valid { return None; }
    }
    return Some(Version(numbers, stage));
  }

  // ----- printing -----

  function Printed(numbers: seq<nat>): (parts: seq<string>)
    ensures |parts| == |numbers|
  {
    seq(|numbers|, i requires 0 <= i < |numbers| => Print(numbers[i]))
  }

  function ToString(v: Version): string { Spelling(Printed(v.numbers), v.stage) }

  ghost predicate Parses(text: string, v: Version) {
    exists parts, stage :: Reads(text, parts, stage) && v == Version(Values(parts), stage)
  }

  // Every version that was parsed is printed in a form that parses to it again.
  lemma ParseToString(text: string, v: Version)
    requires Parses(text, v)
    ensures Parses(ToString(v), v)
    ensures forall other :: Parses(ToString(v), other) ==> other == v
  {
    var parts, stage :| Reads(text, parts, stage) && v == Version(Values(parts), stage);
    var printed := Printed(v.numbers);
    forall i | 0 <= i < 3 ensures IsNumber(printed[i]) && Value(printed[i]) == v.numbers[i] {
      ValueBound(parts[i]);
      PowerMonotone(|parts[i]|, MAX_DIGITS);
      PrintLength(v.numbers[i], MAX_DIGITS);
      ValuePrint(v.numbers[i]);
    }
    assert Values(printed) == v.numbers;
    PrintedIsTrimmed(printed, stage);
    assert Reads(ToString(v), printed, stage);
    forall other | Parses(ToString(v), other) ensures other == v {
      var parts', stage' :| Reads(ToString(v), parts', stage') && other == Version(Values(parts'), stage');
      ReadsOneWay(ToString(v), parts', stage');
      ReadsOneWay(ToString(v), printed, stage);
    }
  }

  lemma PrintedIsTrimmed(parts: seq<string>, stage: seq<string>)
    requires parts != [] && AllNumbers(parts) && AllIdentifiers(stage)
    ensures TrimSpace(Spelling(parts, stage)) == Spelling(parts, stage)
  {
    NumbersAreClean(parts);
    JoinEnd(parts);
    var text := Spelling(parts, stage);
    NotSpace(text[0]);
    if stage != [] { JoinEnd(stage); }
    NotSpace(text[|text| - 1]);
    AlreadyTrimmed(text);
  }

  lemma NotSpace(c: char)
    requires IsIdentifierChar(c)
    ensures !IsSpace(c)
  {
  }

  lemma AlreadyTrimmed(s: string)
    requires s != "" && !IsSpace(s[0]) && !IsSpace(s[|s| - 1])
    ensures TrimSpace(s) == s
  {
  }

  lemma {:induction false} JoinEnd(parts: seq<string>)
    requires parts != [] && AllIdentifiers(parts)
    ensures var s := Join(parts); s != "" && IsIdentifierChar(s[|s| - 1])
  {
    if |parts| > 1 { JoinEnd(parts[1..]); }
  }

  // ----- ordering -----

  datatype Key = Number(n: nat) | Word(s: string)

  function KeyOf(identifier: string): Key {
    if IsNumber(identifier) then Number(Value(identifier)) else Word(identifier)
  }

  function Keys(stage: seq<string>): (keys: seq<Key>)
    ensures |keys| == |stage|
    ensures forall i :: 0 <= i < |stage| ==> keys[i] == KeyOf(stage[i])
  {
    seq(|stage|, i requires 0 <= i < |stage| => KeyOf(stage[i]))
  }

  // Numbers numerically and below text, text alphabetically.
  predicate KeyBefore(a: Key, b: Key) {
    match (a, b)
    case (Number(m), Number(n)) => m < n
    case (Number(_), Word(_)) => true
    case (Word(_), Number(_)) => false
    case (Word(s), Word(t)) => Less(s, t)
  }

  predicate Smaller(m: nat, n: nat) { m < n }

  // The lists differ first at index i, and there x comes first or ends.
  ghost predicate BeforeAt<T>(x: seq<T>, y: seq<T>, before: (T, T) -> bool, i: nat) {
    i <= |x| && i < |y| && x[..i] == y[..i] && (i == |x| || before(x[i], y[i]))
  }

  ghost predicate ListBefore<T>(x: seq<T>, y: seq<T>, before: (T, T) -> bool) {
    exists i: nat :: BeforeAt(x, y, before, i)
  }

  // The order of section 11 of Semantic Versioning 2.0.0, with numbers of at most nine digits.
  ghost predicate StageOlder(a: seq<string>, b: seq<string>) {
    if a == [] then false
    else b == [] || ListBefore(Keys(a), Keys(b), KeyBefore)
  }

  ghost predicate Older(a: Version, b: Version) {
    || ListBefore(a.numbers, b.numbers, Smaller)
    || (a.numbers == b.numbers && StageOlder(a.stage, b.stage))
  }

  ghost predicate StrictOrder<T(!new)>(before: (T, T) -> bool) {
    && (forall a :: !before(a, a))
    && (forall a, b, c :: before(a, b) && before(b, c) ==> before(a, c))
    && (forall a, b :: before(a, b) || before(b, a) || a == b)
  }

  lemma KeysOrdered()
    ensures StrictOrder(KeyBefore)
  {
    forall a: Key ensures !KeyBefore(a, a) {
      if a.Word? { LessIrreflexive(a.s); }
    }
    forall a: Key, b: Key, c: Key | KeyBefore(a, b) && KeyBefore(b, c) ensures KeyBefore(a, c) {
      if a.Word? { LessTransitive(a.s, b.s, c.s); }
    }
    forall a: Key, b: Key ensures KeyBefore(a, b) || KeyBefore(b, a) || a == b {
      if a.Word? && b.Word? { LessTotal(a.s, b.s); }
    }
  }

  lemma ListTransitive<T(!new)>(x: seq<T>, y: seq<T>, z: seq<T>, before: (T, T) -> bool)
    requires StrictOrder(before) && ListBefore(x, y, before) && ListBefore(y, z, before)
    ensures ListBefore(x, z, before)
  {
    var i: nat :| BeforeAt(x, y, before, i);
    var j: nat :| BeforeAt(y, z, before, j);
    var k := if i < j then i else j;
    assert x[..k] == x[..i][..k] == y[..i][..k] == y[..k];
    assert z[..k] == z[..j][..k] == y[..j][..k] == y[..k];
    if i < j { assert y[i] == y[..j][i] == z[..j][i] == z[i]; }
    if j < i { assert x[j] == x[..i][j] == y[..i][j] == y[j]; }
    assert BeforeAt(x, z, before, k);
  }

  lemma {:induction false} ListTotal<T(!new)>(x: seq<T>, y: seq<T>, before: (T, T) -> bool, i: nat)
    requires StrictOrder(before)
    requires i <= |x| && i <= |y| && x[..i] == y[..i]
    ensures ListBefore(x, y, before) || ListBefore(y, x, before) || x == y
    decreases |x| - i
  {
    if i == |x| || i == |y| {
      if i < |y| { assert BeforeAt(x, y, before, i); }
      if i < |x| { assert BeforeAt(y, x, before, i); }
      if i == |x| == |y| { assert x == x[..i] && y == y[..i]; }
    } else if x[i] == y[i] {
      assert x[..i + 1] == x[..i] + [x[i]] && y[..i + 1] == y[..i] + [y[i]];
      ListTotal(x, y, before, i + 1);
    } else {
      assert BeforeAt(x, y, before, i) || BeforeAt(y, x, before, i);
    }
  }

  // Different numbers decide, the major one first; of equal ones a version with a stage is older than
  // the one without.
  lemma NumbersDecide(a: Version, b: Version)
    ensures a.numbers != b.numbers ==>
      (Older(a, b) <==>
        || a.numbers[0] < b.numbers[0]
        || (a.numbers[0] == b.numbers[0] && a.numbers[1] < b.numbers[1])
        || (a.numbers[0] == b.numbers[0] && a.numbers[1] == b.numbers[1] && a.numbers[2] < b.numbers[2]))
    ensures a.numbers == b.numbers && a.stage == [] ==> !Older(a, b)
    ensures a.numbers == b.numbers && a.stage != [] && b.stage == [] ==> Older(a, b)
  {
    var (m, n) := (a.numbers, b.numbers);
    assert m != n ==> m[0] != n[0] || m[1] != n[1] || m[2] != n[2];
    if m[0] < n[0] { assert BeforeAt(m, n, Smaller, 0); }
    if m[0] == n[0] && m[1] < n[1] { assert m[..1] == n[..1] && BeforeAt(m, n, Smaller, 1); }
    if m[0] == n[0] && m[1] == n[1] && m[2] < n[2] { assert m[..2] == n[..2] && BeforeAt(m, n, Smaller, 2); }
    if ListBefore(m, n, Smaller) {
      var i: nat :| BeforeAt(m, n, Smaller, i);
      assert forall k :: 0 <= k < i ==> m[k] == m[..i][k] == n[..i][k] == n[k];
    }
  }

  // The first identifiers that differ decide: of two numbers of at most nine digits the smaller, of a
  // number and a text the number, of two texts the one with the smaller ASCII character; and of a
  // stage and a longer one that continues it the shorter.
  lemma StagesDecide(a: Version, b: Version, i: nat)
    requires a.numbers == b.numbers && a.stage != [] && b.stage != [] && a.stage != b.stage
    requires i <= |a.stage| && i <= |b.stage| && a.stage[..i] == b.stage[..i]
    ensures i == |a.stage| ==> Older(a, b)
    ensures i < |a.stage| && i < |b.stage| ==>
      var (x, y) := (a.stage[i], b.stage[i]);
      && (ShortNumber(x) && ShortNumber(y) && Value(x) < Value(y) ==> Older(a, b))
      && (ShortNumber(x) && !ShortNumber(y) ==> Older(a, b))
      && (!ShortNumber(x) && !ShortNumber(y) && Less(x, y) ==> Older(a, b))
  {
    var (x, y) := (Keys(a.stage), Keys(b.stage));
    assert x[..i] == y[..i] by {
      assert forall k :: 0 <= k < i ==> a.stage[k] == a.stage[..i][k] == b.stage[..i][k] == b.stage[k];
    }
    assert a.stage[..|a.stage|] == a.stage && b.stage[..|b.stage|] == b.stage;
    if i == |a.stage| {
      assert BeforeAt(x, y, KeyBefore, i);
    } else if i < |b.stage| && KeyBefore(x[i], y[i]) {
      assert BeforeAt(x, y, KeyBefore, i);
    }
  }

  predicate ShortNumber(s: string) { 1 <= |s| <= 9 && AllDigits(s) }

  function Staged(stage: seq<string>): Version { Version([1, 0, 0], stage) }

  // The example of section 11.4.
  lemma SectionElevenExample()
    ensures Older(Staged(["alpha"]), Staged(["alpha", "1"]))
    ensures Older(Staged(["alpha", "1"]), Staged(["alpha", "beta"]))
    ensures Older(Staged(["alpha", "beta"]), Staged(["beta"]))
    ensures Older(Staged(["beta"]), Staged(["beta", "2"]))
    ensures Older(Staged(["beta", "2"]), Staged(["beta", "11"]))
    ensures Older(Staged(["beta", "11"]), Staged(["rc", "1"]))
    ensures Older(Staged(["rc", "1"]), Staged([]))
  {
    assert !IsDigit("beta"[0]) && !IsDigit("alpha"[0]) && !IsDigit("rc"[0]);
    Continued("alpha", "1");
    NumberBeforeText("alpha", "1", "beta");
    StagesDecide(Staged(["alpha", "beta"]), Staged(["beta"]), 0);
    Continued("beta", "2");
    TwoBeforeEleven("beta");
    StagesDecide(Staged(["beta", "11"]), Staged(["rc", "1"]), 0);
    NumbersDecide(Staged(["rc", "1"]), Staged([]));
  }

  lemma Continued(word: string, more: string)
    ensures Older(Staged([word]), Staged([word, more]))
  {
    StagesDecide(Staged([word]), Staged([word, more]), 1);
  }

  lemma NumberBeforeText(word: string, number: string, text: string)
    requires ShortNumber(number) && !ShortNumber(text)
    ensures Older(Staged([word, number]), Staged([word, text]))
  {
    StagesDecide(Staged([word, number]), Staged([word, text]), 1);
  }

  lemma TwoBeforeEleven(word: string)
    ensures Older(Staged([word, "2"]), Staged([word, "11"]))
  {
    assert Value("2") == 2 && Value("11") == 11 by {
      assert "2"[..0] == "" && "11"[..1] == "1" && "1"[..0] == "";
    }
    StagesDecide(Staged([word, "2"]), Staged([word, "11"]), 1);
  }

  // Older is a strict weak order: no version is older than itself, the order is transitive, and
  // where neither of two is older they are the same version.
  lemma OlderIrreflexive(a: Version)
    ensures !Older(a, a)
  {
    KeysOrdered();
  }

  lemma OlderTransitive(a: Version, b: Version, c: Version)
    requires Older(a, b) && Older(b, c)
    ensures Older(a, c)
  {
    KeysOrdered();
    if ListBefore(a.numbers, b.numbers, Smaller) && ListBefore(b.numbers, c.numbers, Smaller) {
      ListTransitive(a.numbers, b.numbers, c.numbers, Smaller);
    } else if a.numbers == b.numbers == c.numbers && c.stage != [] {
      ListTransitive(Keys(a.stage), Keys(b.stage), Keys(c.stage), KeyBefore);
    }
  }

  ghost predicate SameVersion(a: Version, b: Version) {
    a.numbers == b.numbers && Keys(a.stage) == Keys(b.stage)
  }

  lemma OlderTotal(a: Version, b: Version)
    ensures SameVersion(a, b) <==> !Older(a, b) && !Older(b, a)
  {
    KeysOrdered();
    ListTotal(a.numbers, b.numbers, Smaller, 0);
    ListTotal(Keys(a.stage), Keys(b.stage), KeyBefore, 0);
  }

  lemma OlderAsymmetric(a: Version, b: Version)
    requires Older(a, b)
    ensures !Older(b, a)
  {
    if Older(b, a) {
      OlderTransitive(a, b, a);
      OlderIrreflexive(a);
    }
  }

  // Same versions may be exchanged in every comparison.
  lemma SameVersionCongruent(a: Version, b: Version, c: Version)
    requires SameVersion(a, b)
    ensures Older(a, c) <==> Older(b, c)
    ensures Older(c, a) <==> Older(c, b)
  {
    assert |Keys(a.stage)| == |Keys(b.stage)|;
  }

  function WithoutZeros(s: string): string {
    if |s| > 1 && s[0] == '0' then WithoutZeros(s[1..]) else s
  }

  lemma {:induction false} ValueWithoutZeros(s: string)
    requires AllDigits(s) && s != ""
    ensures var t := WithoutZeros(s);
      AllDigits(t) && 0 < |t| <= |s| && Value(t) == Value(s) && (t[0] == '0' ==> t == "0")
  {
    if |s| > 1 && s[0] == '0' {
      ValueLeadingZero(s[1..]);
      assert s == "0" + s[1..];
      ValueWithoutZeros(s[1..]);
    }
  }

  lemma {:induction false} ValueLeadingZero(s: string)
    requires AllDigits(s)
    ensures Value("0" + s) == Value(s)
  {
    var z := "0" + s;
    if s == "" {
      assert z[..0] == "" && Value("") == 0;
    } else {
      assert z[..|z| - 1] == "0" + s[..|s| - 1];
      ValueLeadingZero(s[..|s| - 1]);
    }
  }

  lemma SameValue(a: string, b: string)
    requires AllDigits(a) && AllDigits(b) && a != "" && b != ""
    ensures Value(a) == Value(b) <==> WithoutZeros(a) == WithoutZeros(b)
  {
    ValueWithoutZeros(a);
    ValueWithoutZeros(b);
    var s, t := WithoutZeros(a), WithoutZeros(b);
    if |s| == |t| { DigitsCompare(s, t); }
    if |s| < |t| { ShorterIsSmaller(s, t); }
    if |t| < |s| { ShorterIsSmaller(t, s); }
  }

  // Stages are the same up to leading zeros in their numbers.
  lemma SameStage(a: seq<string>, b: seq<string>)
    ensures Keys(a) == Keys(b) <==>
      && |a| == |b|
      && forall i :: 0 <= i < |a| ==>
        a[i] == b[i] || (IsNumber(a[i]) && IsNumber(b[i]) && WithoutZeros(a[i]) == WithoutZeros(b[i]))
  {
    forall i | 0 <= i < |a| && i < |b|
      ensures KeyOf(a[i]) == KeyOf(b[i]) <==>
        a[i] == b[i] || (IsNumber(a[i]) && IsNumber(b[i]) && WithoutZeros(a[i]) == WithoutZeros(b[i]))
    {
      if IsNumber(a[i]) && IsNumber(b[i]) { SameValue(a[i], b[i]); }
    }
    if |a| == |b| && forall i :: 0 <= i < |a| ==> KeyOf(a[i]) == KeyOf(b[i]) {
      assert Keys(a) == Keys(b);
    }
    if Keys(a) == Keys(b) {
      assert |a| == |Keys(a)| == |Keys(b)| == |b|;
      forall i | 0 <= i < |a| ensures KeyOf(a[i]) == KeyOf(b[i]) {
        assert Keys(a)[i] == Keys(b)[i];
      }
    }
  }

  method CompareIdentifier(left: string, right: string) returns (r: int)
    ensures r == -1 <==> KeyBefore(KeyOf(left), KeyOf(right))
    ensures r == 1 <==> KeyBefore(KeyOf(right), KeyOf(left))
    ensures r == 0 <==> KeyOf(left) == KeyOf(right)
    ensures -1 <= r <= 1
  {
    KeysOrdered();
    var leftIsNumber, leftNumber := ParseNumber(left);
    var rightIsNumber, rightNumber := ParseNumber(right);
    if leftIsNumber && rightIsNumber {
      r := if leftNumber < rightNumber then -1 else if leftNumber > rightNumber then 1 else 0;
    } else if leftIsNumber {
      r := -1;
    } else if rightIsNumber {
      r := 1;
    } else {
      LessAsymmetric(left, right);
      LessTotal(left, right);
      r := if Less(left, right) then -1 else if left == right then 0 else 1;
    }
  }

  // Compare answers -1, 0 or 1 as left is older, the same or newer.
  method Compare(left: Version, right: Version) returns (r: int)
    ensures r == -1 <==> Older(left, right)
    ensures r == 1 <==> Older(right, left)
    ensures r == 0 <==> SameVersion(left, right)
    ensures -1 <= r <= 1
  {
    OlderTotal(left, right);
    if Older(left, right) { OlderAsymmetric(left, right); }
    if Older(right, left) { OlderAsymmetric(right, left); }
    for i := 0 to 3
      invariant left.numbers[..i] == right.numbers[..i]
    {
      if left.numbers[i] != right.numbers[i] {
        assert BeforeAt(left.numbers, right.numbers, Smaller, i) || BeforeAt(right.numbers, left.numbers, Smaller, i);
        return if left.numbers[i] < right.numbers[i] then -1 else 1;
      }
    }
    assert left.numbers == left.numbers[..3] && right.numbers == right.numbers[..3];
    if left.stage == [] && right.stage == [] { return 0; }
    if left.stage == [] { return 1; }
    if right.stage == [] { return -1; }
    var i := 0;
    ghost var x, y := Keys(left.stage), Keys(right.stage);
    while i < |left.stage| && i < |right.stage|
      invariant i <= |left.stage| && i <= |right.stage| && x[..i] == y[..i]
    {
      r := CompareIdentifier(left.stage[i], right.stage[i]);
      if r != 0 {
        assert BeforeAt(x, y, KeyBefore, i) || BeforeAt(y, x, KeyBefore, i);
        return;
      }
      assert x[..i + 1] == x[..i] + [x[i]] && y[..i + 1] == y[..i] + [y[i]];
      i := i + 1;
    }
    if |left.stage| < |right.stage| {
      assert BeforeAt(x, y, KeyBefore, i);
      r := -1;
    } else if |right.stage| < |left.stage| {
      assert BeforeAt(y, x, KeyBefore, i);
      r := 1;
    } else {
      assert x == x[..i] && y == y[..i];
      r := 0;
    }
  }

  // ----- where the nine-digit limit shows -----

  // A numeric identifier as Semantic Versioning allows it: no leading zero.
  predicate Numeric(s: string, digits: nat) {
    0 < |s| <= digits && AllDigits(s) && (s[0] == '0' ==> s == "0")
  }

  // Identifiers of at most so many digits are ordered by their values.
  ghost predicate OrderedByValue(digits: nat) {
    forall a, b :: Numeric(a, digits) && Numeric(b, digits) ==> (KeyBefore(KeyOf(a), KeyOf(b)) <==> Value(a) < Value(b))
  }

  lemma ShortNumbersOrdered(a: string, b: string)
    requires Numeric(a, 10) && Numeric(b, 10)
    ensures KeyBefore(KeyOf(a), KeyOf(b)) <==> Value(a) < Value(b)
  {
    if |a| == |b| {
      DigitsCompare(a, b);
    } else if |a| < |b| {
      ShorterIsSmaller(a, b);
    } else {
      ShorterIsSmaller(b, a);
    }
  }

  // Two numeric identifiers compare by their values if and only if one of them is short, they are
  // equally long, or the shorter one is also the smaller text.
  lemma NumericOrderAgreesExactly(a: string, b: string)
    requires Numeric(a, |a|) && Numeric(b, |b|)
    ensures (KeyBefore(KeyOf(a), KeyOf(b)) <==> Value(a) < Value(b)) <==>
      |a| <= MAX_DIGITS || |b| <= MAX_DIGITS || |a| == |b| || (Less(a, b) <==> |a| < |b|)
  {
    if |a| == |b| {
      DigitsCompare(a, b);
    } else if |a| < |b| {
      ShorterIsSmaller(a, b);
    } else {
      ShorterIsSmaller(b, a);
    }
  }

  lemma LongNumbersMisordered()
    ensures KeyBefore(KeyOf("10000000000"), KeyOf("9999999999"))
    ensures !KeyBefore(KeyOf("9999999999"), KeyOf("10000000000"))
    ensures AllDigits("9999999999") && AllDigits("10000000000") && Value("9999999999") < Value("10000000000")
  {
    ShorterIsSmaller("9999999999", "10000000000");
  }

  // Numeric identifiers compare by value exactly up to ten digits: 10000000000 comes before
  // 9999999999, as text.
  lemma NumericOrderLimit(digits: nat)
    ensures OrderedByValue(digits) <==> digits <= 10
  {
    if digits <= 10 {
      forall a, b | Numeric(a, digits) && Numeric(b, digits)
        ensures KeyBefore(KeyOf(a), KeyOf(b)) <==> Value(a) < Value(b)
      {
        ShortNumbersOrdered(a, b);
      }
    } else {
      LongNumbersMisordered();
      assert Numeric("9999999999", digits) && Numeric("10000000000", digits);
    }
  }
}

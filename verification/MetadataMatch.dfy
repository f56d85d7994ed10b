// Choosing the metadata record of a show among the candidates that the providers returned.
module MetadataMatch {
  import opened Sequences
  import opened Sorting
  import opened Text

  // ----- names -----

  // Titles arrive normalized; a subtitle follows this separator.
  const SEPARATOR: char := '\U{001F}'

  const MEDIUM: int := 50
  const CONTAINED: int := MEDIUM + 2
  const HIGH: int := 70
  const WEAK_EXACT: int := HIGH - 10
  const GAP: int := 8
  const MAX_CANDIDATES: nat := 100

  function Main(name: string): string { CutBefore(name, SEPARATOR) }

  function Subtitle(name: string): string { CutAfter(name, SEPARATOR) }

  function FirstSpace(s: string): (n: nat)
    ensures n <= |s|
  {
    if s == "" || IsSpace(s[0]) then 0 else 1 + FirstSpace(s[1..])
  }

  function Fields(s: string): seq<string>
    decreases |s|
  {
    if s == "" then []
    else if IsSpace(s[0]) then Fields(s[1..])
    else [s[..FirstSpace(s)]] + Fields(s[FirstSpace(s)..])
  }

  // The words joined; an "x" between two words is dropped.
  function JoinWords(words: seq<string>, first: bool): string {
    if words == [] then ""
    else (if words[0] == "x" && !first && |words| > 1 then "" else words[0]) + JoinWords(words[1..], false)
  }

  function CompareKey(value: string): string { JoinWords(Fields(value), true) }

  // Whether names match, as far as their subtitles go, and whether they match in full.
  function NameMatch(left: string, right: string): (bool, bool) {
    var (leftMain, leftSubtitle) := (Main(left), Subtitle(left));
    var (rightMain, rightSubtitle) := (Main(right), Subtitle(right));
    if CompareKey(leftMain + " " + leftSubtitle) == CompareKey(rightMain + " " + rightSubtitle) then (true, true)
    else if CompareKey(leftMain) != CompareKey(rightMain) then (false, false)
    else if CompareKey(leftSubtitle) == CompareKey(rightSubtitle) then (true, true)
    else (leftSubtitle == "" || rightSubtitle == "", false)
  }

  predicate IsParticle(c: char) { c in "\U{7684}\U{4E4B}\U{306E}" }

  function WithoutParticles(s: string): string {
    if s == "" then ""
    else (if IsParticle(s[0]) then "" else [s[0]]) + WithoutParticles(s[1..])
  }

  predicate ParticleMatch(left: string, right: string) {
    && Subtitle(left) != "" && CompareKey(Subtitle(left)) == CompareKey(Subtitle(right))
    && WithoutParticles(CompareKey(Main(left))) == WithoutParticles(CompareKey(Main(right)))
  }

  predicate SubtitlesDiffer(left: string, right: string) {
    Subtitle(left) != "" && Subtitle(right) != "" && CompareKey(Subtitle(left)) != CompareKey(Subtitle(right))
  }

  function TextScore(query: string, name: string): int {
    if query == "" || name == "" then 0
    else
      var (equal, full) := NameMatch(query, name);
      if full then HIGH
      else if equal || ParticleMatch(query, name) then WEAK_EXACT
      else if SubtitlesDiffer(query, name) then 0
      else
        var (q, n) := (CompareKey(Main(query)), CompareKey(Main(name)));
        if |q| >= 3 && |n| >= 3 && (Contains(q, n) || Contains(n, q)) then CONTAINED else 0
  }

  // The main titles differ, but only in particles.
  predicate DifferInParticles(a: string, b: string) {
    && CompareKey(Main(a)) != CompareKey(Main(b))
    && WithoutParticles(CompareKey(Main(a))) == WithoutParticles(CompareKey(Main(b)))
  }

  // One name has no subtitle, and the other's is blank.
  predicate OneBlankSubtitle(a: string, b: string) {
    (Subtitle(a) == "" <==> Subtitle(b) != "") && CompareKey(Subtitle(a)) == CompareKey(Subtitle(b))
  }

  // Which of two names is the query does not matter, unless their main titles differ in particles
  // only, one has no subtitle and the other's is blank.
  lemma TextScoreSymmetricExactly(a: string, b: string)
    ensures TextScore(a, b) == TextScore(b, a) <==>
      !(a != "" && b != "" && OneBlankSubtitle(a, b) && DifferInParticles(a, b))
  {
    NameMatchSymmetric(a, b);
    if OneBlankSubtitle(a, b) {
      JoinedKey(a, b);
      JoinedKey(b, a);
    }
    if ParticleMatch(a, b) == ParticleMatch(b, a) || a == "" || b == "" {
      assert TextScore(a, b) == TextScore(b, a);
    }
  }

  lemma {:induction false} FieldsBefore(s: string, blanks: string)
    requires (blanks != "" ==> IsSpace(blanks[0])) && Fields(blanks) == []
    ensures Fields(s + blanks) == Fields(s)
    decreases |s|
  {
    if s == "" {
      assert s + blanks == blanks;
    } else if IsSpace(s[0]) {
      assert (s + blanks)[1..] == s[1..] + blanks;
      FieldsBefore(s[1..], blanks);
    } else {
      var n := FirstSpace(s);
      FirstSpaceKept(s, blanks);
      assert (s + blanks)[..n] == s[..n] && (s + blanks)[n..] == s[n..] + blanks;
      FieldsBefore(s[n..], blanks);
    }
  }

  lemma {:induction false} FirstSpaceKept(s: string, blanks: string)
    requires blanks != "" ==> IsSpace(blanks[0])
    ensures FirstSpace(s + blanks) == FirstSpace(s)
  {
    if s == "" {
      assert s + blanks == blanks;
    } else {
      assert (s + blanks)[1..] == s[1..] + blanks;
      FirstSpaceKept(s[1..], blanks);
    }
  }

  lemma {:induction false} EmptyKey(s: string)
    ensures CompareKey(s) == "" <==> Fields(s) == []
    decreases |s|
  {
    if s != "" && IsSpace(s[0]) { EmptyKey(s[1..]); }
  }

  // A blank subtitle leaves no trace in the joined key.
  lemma JoinedKey(a: string, b: string)
    requires OneBlankSubtitle(a, b)
    ensures CompareKey(Main(a) + " " + Subtitle(a)) == CompareKey(Main(a))
  {
    EmptyKey(Subtitle(a));
    EmptyKey(Subtitle(b));
    EmptyKey("");
    var blanks := " " + Subtitle(a);
    assert blanks[1..] == Subtitle(a);
    assert Main(a) + " " + Subtitle(a) == Main(a) + blanks;
    FieldsBefore(Main(a), blanks);
  }

  lemma NameMatchSymmetric(a: string, b: string)
    ensures NameMatch(a, b) == NameMatch(b, a) && (SubtitlesDiffer(a, b) <==> SubtitlesDiffer(b, a))
  {
  }

  // Where no subtitle is blank, it never matters.
  lemma TextScoreSymmetric(a: string, b: string)
    requires CompareKey("") == CompareKey(Subtitle(a)) ==> Subtitle(a) == ""
    requires CompareKey("") == CompareKey(Subtitle(b)) ==> Subtitle(b) == ""
    ensures TextScore(a, b) == TextScore(b, a)
  {
    TextScoreSymmetricExactly(a, b);
  }

  // A short word without anything that the keys leave out.
  predicate PlainWord(word: string) {
    0 < |word| < 3 && forall i :: 0 <= i < |word| ==> !IsSpace(word[i]) && word[i] != SEPARATOR && !IsParticle(word[i])
  }

  // A word, a particle and a blank subtitle match the word weakly, and not the other way round.
  lemma BlankSubtitleScores(word: string, particle: char)
    requires PlainWord(word) && IsParticle(particle)
    ensures TextScore(word + [particle] + [SEPARATOR] + " ", word) == WEAK_EXACT
    ensures TextScore(word, word + [particle] + [SEPARATOR] + " ") == 0
  {
    var main := word + [particle];
    var a := main + [SEPARATOR] + " ";
    CutConcat(main, SEPARATOR, " ");
    BlankSubtitleKeys(word, main);
    ParticleDropped(word, particle);
    OneSidedScores(a, word, main);
  }

  lemma OneSidedScores(a: string, b: string, main: string)
    requires a != "" && b != "" && Main(a) == main && Subtitle(a) == " " && Main(b) == b && Subtitle(b) == ""
    requires CompareKey(main) == CompareKey(main + " " + " ") == main
    requires CompareKey(b) == CompareKey(b + " " + "") == b && |b| < 3
    requires CompareKey("") == CompareKey(" ") && main != b && WithoutParticles(main) == WithoutParticles(b)
    ensures TextScore(a, b) == WEAK_EXACT && TextScore(b, a) == 0
  {
  }

  lemma BlankSubtitleKeys(word: string, main: string)
    requires PlainWord(word) && main != "" && forall i :: 0 <= i < |main| ==> !IsSpace(main[i])
    ensures CompareKey(main) == CompareKey(main + " " + " ") == main
    ensures CompareKey(word) == CompareKey(word + " " + "") == word
    ensures CompareKey("") == CompareKey(" ")
    ensures Main(word) == word && Subtitle(word) == ""
  {
    OneWord(main, "");
    OneWord(main, "  ");
    OneWord(word, "");
    OneWord(word, " ");
    assert main + "" == main && main + " " + " " == main + "  ";
    assert word + "" == word && word + " " + "" == word + " ";
    BlankFields("");
    BlankFields(" ");
  }

  // At a concrete input.
  lemma BlankSubtitleMisleads()
    ensures TextScore("X\U{7684}\U{1F} ", "X") == WEAK_EXACT && TextScore("X", "X\U{7684}\U{1F} ") == 0
  {
    BlankSubtitleScores("X", '\U{7684}');
    assert "X" + ['\U{7684}'] + [SEPARATOR] + " " == "X\U{7684}\U{1F} ";
  }

  lemma {:induction false} FirstSpaceNone(word: string)
    requires forall i :: 0 <= i < |word| ==> !IsSpace(word[i])
    ensures FirstSpace(word) == |word|
  {
    if word != "" { FirstSpaceNone(word[1..]); }
  }

  lemma {:induction false} BlankFields(blanks: string)
    requires forall i :: 0 <= i < |blanks| ==> IsSpace(blanks[i])
    ensures Fields(blanks) == []
    decreases |blanks|
  {
    if blanks != "" { BlankFields(blanks[1..]); }
  }

  // The key of a single word, with blanks after it.
  lemma OneWord(word: string, blanks: string)
    requires word != "" && forall i :: 0 <= i < |word| ==> !IsSpace(word[i])
    requires forall i :: 0 <= i < |blanks| ==> IsSpace(blanks[i])
    ensures CompareKey(word + blanks) == word
  {
    BlankFields(blanks);
    FieldsBefore(word, blanks);
    FirstSpaceNone(word);
    assert word[..|word|] == word && word[|word|..] == "";
    assert Fields(word) == [word];
    JoinOneWord(word);
  }

  lemma JoinOneWord(word: string)
    ensures JoinWords([word], true) == word
  {
    assert [word][1..] == [];
    assert word + "" == word;
  }

  lemma {:induction false} ParticleDropped(word: string, particle: char)
    requires IsParticle(particle) && forall i :: 0 <= i < |word| ==> !IsParticle(word[i])
    ensures WithoutParticles(word + [particle]) == WithoutParticles(word)
    decreases |word|
  {
    if word == "" {
      assert word + [particle] == [particle] && [particle][1..] == "";
    } else {
      assert (word + [particle])[1..] == word[1..] + [particle];
      ParticleDropped(word[1..], particle);
    }
  }

  // ----- scores -----

  datatype Ref = Ref(provider: string, id: string)

  datatype Query = Query(title: string, native: string, season: string, year: int, episodes: int)

  datatype Candidate = Candidate(ref: Ref, title: string, native: string, season: string, aliases: seq<string>,
                                 year: int, episodes: int)

  datatype Scored = Scored(candidate: Candidate, titleScore: int, score: int)

  function Max(a: int, b: int): int { if a >= b then a else b }

  predicate FullMatch(q: Query, name: string) {
    TextScore(q.title, name) == HIGH || TextScore(q.native, name) == HIGH
  }

  predicate AliasMatch(q: Query, c: Candidate) {
    exists i :: 0 <= i < |c.aliases| && FullMatch(q, c.aliases[i])
  }

  // The best score of one of the query's names: a title counts in full, and a fully matching
  // alias as a weak match.
  function BestFor(query: string, c: Candidate): int {
    Max(Max(TextScore(query, c.title), TextScore(query, c.native)),
        if exists i :: 0 <= i < |c.aliases| && TextScore(query, c.aliases[i]) == HIGH then WEAK_EXACT else 0)
  }

  function BestScore(q: Query, c: Candidate): int { Max(BestFor(q.title, c), BestFor(q.native, c)) }

  // name is the provider's own name for the series, taken from a candidate with a matching alias.
  predicate NamesSeries(q: Query, c: Candidate, name: string) {
    && AliasMatch(q, c) && (name == c.title || name == c.native)
    && name != "" && name != q.title && name != q.native
  }

  ghost predicate SeriesName(q: Query, all: seq<Candidate>, name: string) {
    exists c :: c in all && NamesSeries(q, c, name)
  }

  predicate NamedAs(name: string, c: Candidate) {
    TextScore(name, c.title) == HIGH || TextScore(name, c.native) == HIGH
  }

  ghost predicate SeriesMatch(q: Query, all: seq<Candidate>, c: Candidate) {
    exists name :: SeriesName(q, all, name) && NamedAs(name, c)
  }

  ghost function TitleScore(q: Query, all: seq<Candidate>, c: Candidate): int {
    if BestScore(q, c) < WEAK_EXACT && SeriesMatch(q, all, c) then WEAK_EXACT else BestScore(q, c)
  }

  function SeasonHint(a: string, b: string): int {
    if a != "" && b != "" then (if a == b then 12 else -14) else if a != "" || b != "" then -10 else 0
  }

  function YearHint(a: int, b: int): int {
    if a <= 0 || b <= 0 || -1 == a - b || a - b == 1 then 0 else if a == b then 12 else -14
  }

  function EpisodeHint(a: int, b: int): int {
    if a <= 0 || b <= 0 then 0 else if a == b then 8 else -10
  }

  function HintScore(q: Query, c: Candidate): int {
    SeasonHint(q.season, c.season) + YearHint(q.year, c.year) + EpisodeHint(q.episodes, c.episodes)
  }

  predicate HasRef(c: Candidate) { TrimSpace(c.ref.provider) != "" && TrimSpace(c.ref.id) != "" }

  ghost predicate Kept(q: Query, all: seq<Candidate>, c: Candidate) { HasRef(c) && TitleScore(q, all, c) != 0 }

  ghost function ScoreOf(q: Query, all: seq<Candidate>, c: Candidate): Scored {
    Scored(c, TitleScore(q, all, c), TitleScore(q, all, c) + HintScore(q, c))
  }

  ghost function ScoreAll(q: Query, all: seq<Candidate>, candidates: seq<Candidate>): seq<Scored> {
    FilterMap(candidates, c => Kept(q, all, c), c => ScoreOf(q, all, c))
  }

  method SeriesNames(q: Query, candidates: seq<Candidate>) returns (names: seq<string>)
    ensures forall name :: name in names <==> SeriesName(q, candidates, name)
    ensures forall i, j :: 0 <= i < j < |names| ==> names[i] != names[j]
  {
    names := [];
    for i := 0 to |candidates|
      invariant forall name :: name in names <==> SeriesName(q, candidates[..i], name)
      invariant forall i, j :: 0 <= i < j < |names| ==> names[i] != names[j]
    {
      var c := candidates[i];
      ghost var before := names;
      assert forall other :: other in candidates[..i + 1] <==> other in candidates[..i] || other == c;
      var a := 0;
      while a < |c.aliases| && !FullMatch(q, c.aliases[a])
        invariant a <= |c.aliases| && forall k :: 0 <= k < a ==> !FullMatch(q, c.aliases[k])
      {
        a := a + 1;
      }
      if a < |c.aliases| {
        assert AliasMatch(q, c);
        if c.title != "" && c.title != q.title && c.title != q.native && c.title !in names {
          names := names + [c.title];
        }
        if c.native != "" && c.native != q.title && c.native != q.native && c.native !in names {
          names := names + [c.native];
        }
      }
      forall name ensures name in names <==> name in before || NamesSeries(q, c, name) {}
    }
    assert candidates[..|candidates|] == candidates;
  }

  method ImproveScore(query: string, c: Candidate, start: int) returns (best: int)
    ensures best == Max(start, BestFor(query, c))
  {
    best := Max(start, TextScore(query, c.title));
    best := Max(best, TextScore(query, c.native));
    ghost var titles, found := best, false;
    for a := 0 to |c.aliases|
      invariant found <==> exists k :: 0 <= k < a && TextScore(query, c.aliases[k]) == HIGH
      invariant best == Max(titles, if found then WEAK_EXACT else titles)
    {
      if TextScore(query, c.aliases[a]) == HIGH {
        best := Max(best, WEAK_EXACT);
        found := true;
      }
    }
  }

  method BestTitleScore(q: Query, c: Candidate) returns (best: int)
    ensures best == BestScore(q, c)
  {
    best := ImproveScore(q.title, c, 0);
    best := ImproveScore(q.native, c, best);
  }

  method SeriesMatches(series: seq<string>, c: Candidate) returns (found: bool)
    ensures found <==> exists name :: name in series && NamedAs(name, c)
  {
    for i := 0 to |series|
      invariant forall k :: 0 <= k < i ==> !NamedAs(series[k], c)
    {
      if NamedAs(series[i], c) { return true; }
    }
    return false;
  }

  method CandidateTitleScore(q: Query, ghost all: seq<Candidate>, series: seq<string>, c: Candidate)
    returns (score: int)
    requires forall name :: name in series <==> SeriesName(q, all, name)
    ensures score == TitleScore(q, all, c)
  {
    score := BestTitleScore(q, c);
    if score < WEAK_EXACT {
      var named := SeriesMatches(series, c);
      if named { score := WEAK_EXACT; }
    }
  }

  method ScoreCandidate(q: Query, ghost all: seq<Candidate>, series: seq<string>, c: Candidate)
    returns (kept: bool, scored: Scored)
    requires forall name :: name in series <==> SeriesName(q, all, name)
    ensures kept <==> Kept(q, all, c)
    ensures kept ==> scored == ScoreOf(q, all, c)
  {
    kept, scored := false, Scored(c, 0, 0);
    if TrimSpace(c.ref.provider) == "" || TrimSpace(c.ref.id) == "" { return; }
    var titleScore := CandidateTitleScore(q, all, series, c);
    if titleScore == 0 { return; }
    return true, Scored(c, titleScore, titleScore + HintScore(q, c));
  }

  method ScoreCandidates(q: Query, candidates: seq<Candidate>) returns (scored: seq<Scored>)
    ensures scored == ScoreAll(q, candidates, candidates)
  {
    scored := [];
    var series := SeriesNames(q, candidates);
    for i := 0 to |candidates|
      invariant scored == ScoreAll(q, candidates, candidates[..i])
    {
      var kept, s := ScoreCandidate(q, candidates, series, candidates[i]);
      if kept { scored := scored + [s]; }
      FilterMapNext(candidates, c => Kept(q, candidates, c), c => ScoreOf(q, candidates, c), i);
    }
    assert candidates[..|candidates|] == candidates;
  }

  // ----- the ranking -----

  function ProviderRank(provider: string): nat {
    match Lower(TrimSpace(provider))
    case "bangumi" => 0
    case "anilist" => 1
    case _ => 2
  }

  predicate NumericId(id: string) { id != "" && AllDigits(id) }

  predicate IdBefore(a: string, b: string) {
    if |a| != |b| && NumericId(a) && NumericId(b) then |a| < |b| else Less(a, b)
  }

  predicate Before(left: Scored, right: Scored) {
    var (l, r) := (left.candidate.ref, right.candidate.ref);
    if left.score != right.score then left.score > right.score
    else if ProviderRank(l.provider) != ProviderRank(r.provider) then
      ProviderRank(l.provider) < ProviderRank(r.provider)
    else if l.provider != r.provider then Less(l.provider, r.provider)
    else IdBefore(l.id, r.id)
  }

  // An ID as the providers return it: a positive decimal int32 without leading zeros.
  predicate ProviderId(id: string) {
    && 0 < |id| <= 10 && id[0] != '0' && AllDigits(id) && Value(id) < 0x8000_0000
  }

  // Exactly the positive int32 numbers, as they are printed.
  lemma ProviderIdExactly(id: string)
    ensures ProviderId(id) <==> exists n: nat :: 0 < n <= 2_147_483_647 && id == Print(n)
  {
    if ProviderId(id) {
      LeadingDigit(id);
      PrintValue(id);
      assert id == Print(Value(id));
    }
    if n: nat :| 0 < n <= 2_147_483_647 && id == Print(n) {
      ValuePrint(n);
      PrintLength(n, 10);
      assert Power10(10) == 10 * Power10(9) && Power10(9) == 1_000_000_000 by { PowerOf9(); }
    }
  }

  lemma PowerOf9()
    ensures Power10(9) == 1_000_000_000
  {
    assert Power10(5) == 100_000;
  }

  method ParseId(value: string) returns (ok: bool, numeric: nat)
    ensures ok <==> ProviderId(value)
    ensures ok ==> numeric == Value(value) > 0
  {
    ok, numeric := false, 0;
    if |value| == 0 || |value| > 10 || value[0] == '0' { return; }
    for i := 0 to |value|
      invariant AllDigits(value[..i]) && numeric == Value(value[..i])
    {
      if value[i] < '0' || value[i] > '9' {
        assert !IsDigit(value[i]);
        return false, 0;
      }
      assert value[..i + 1][..i] == value[..i];
      numeric := 10 * numeric + DigitValue(value[i]);
    }
    assert value[..|value|] == value;
    LeadingDigit(value);
    ok := numeric < 0x8000_0000;
  }

  // On such IDs the order is the numeric one.
  lemma IdOrderIsNumeric(a: string, b: string)
    requires ProviderId(a) && ProviderId(b)
    ensures IdBefore(a, b) <==> Value(a) < Value(b)
    ensures a == b <==> Value(a) == Value(b)
  {
    if |a| == |b| {
      DigitsCompare(a, b);
    } else if |a| < |b| {
      ShorterIsSmaller(a, b);
    } else {
      ShorterIsSmaller(b, a);
    }
  }

  // Two numbers in numeric order with a text between them in text order, the other way round.
  predicate Crossed(a: string, b: string, c: string) {
    NumericId(a) && NumericId(b) && !NumericId(c) && |a| < |b| && Less(b, c) && Less(c, a)
  }

  ghost predicate AnyCrossed(ids: set<string>) {
    exists a, b, c :: a in ids && b in ids && c in ids && Crossed(a, b, c)
  }

  lemma IdTotal(a: string, b: string)
    ensures !IdBefore(a, a)
    ensures a != b ==> IdBefore(a, b) || IdBefore(b, a)
    ensures !(IdBefore(a, b) && IdBefore(b, a))
  {
    LessIrreflexive(a);
    LessTotal(a, b);
    LessAsymmetric(a, b);
  }

  lemma IdTransitive(a: string, b: string, c: string)
    requires IdBefore(a, b) && IdBefore(b, c)
    requires !Crossed(a, b, c) && !Crossed(b, c, a) && !Crossed(c, a, b)
    ensures IdBefore(a, c)
  {
    IdTotal(a, c);
    IdTotal(a, b);
    if IdBefore(c, a) {
      if Less(a, b) && Less(b, c) { LessTransitive(a, b, c); }
      if Less(b, c) && Less(c, a) { LessTransitive(b, c, a); }
      if Less(c, a) && Less(a, b) { LessTransitive(c, a, b); }
      LessAsymmetric(a, c);
      LessAsymmetric(a, b);
      LessAsymmetric(b, c);
    } else if a == c {
      IdTotal(a, b);
    }
  }

  // The IDs of one provider are ordered exactly when no text ID lies across two numeric ones.
  lemma IdsOrderedExactly(ids: set<string>)
    ensures StrictOrderOn(ids, IdBefore) <==> !AnyCrossed(ids)
  {
    if !AnyCrossed(ids) {
      forall a | a in ids ensures !IdBefore(a, a) { IdTotal(a, a); }
      forall a, b | a in ids && b in ids && a != b ensures IdBefore(a, b) || IdBefore(b, a) { IdTotal(a, b); }
      forall a, b, c | a in ids && b in ids && c in ids && IdBefore(a, b) && IdBefore(b, c) ensures IdBefore(a, c) {
        IdTransitive(a, b, c);
      }
    } else {
      var a, b, c :| a in ids && b in ids && c in ids && Crossed(a, b, c);
      assert IdBefore(a, b) && IdBefore(b, c) && IdBefore(c, a);
      IdTotal(a, a);
    }
  }

  // ----- the decision -----

  function FoldChar(c: char): char {
    if 'A' <= c <= 'Z' then ((c as int) + 32) as char
    else if c == '\U{017F}' then 's' else if c == '\U{212A}' then 'k' else c
  }

  function Fold(s: string): string {
    if s == "" then "" else [FoldChar(s[0])] + Fold(s[1..])
  }

  predicate SameProvider(a: Candidate, b: Candidate) {
    Fold(TrimSpace(a.ref.provider)) == Fold(TrimSpace(b.ref.provider))
  }

  predicate Agree(a: int, b: int) { a <= 0 || b <= 0 || a == b }

  // The same entry, by name, as far as season, year and episode count are known.
  predicate Equivalent(a: Candidate, b: Candidate) {
    && ((a.title != "" && a.title == b.title) || (a.native != "" && a.native == b.native))
    && (a.season == "" || b.season == "" || a.season == b.season)
    && Agree(a.year, b.year) && Agree(a.episodes, b.episodes)
  }

  // Recaps and extras, which are not a season's main arcs.
  predicate SpecialArc(arc: string) {
    var text := Fold(arc);
    || Contains(text, "ova") || Contains(text, "oad") || Contains(text, "sp")
    || Contains(text, "\U{7279}\U{522B}") || Contains(text, "\U{603B}\U{96C6}") || Contains(text, "\U{5267}\U{573A}")
    || Contains(text, "\U{8FF7}\U{4F60}")
  }

  predicate SameSeasonArcs(a: Candidate, b: Candidate) {
    && SameProvider(a, b) && a.season != "" && a.season == b.season
    && Main(a.title) != "" && Main(a.title) == Main(b.title)
    && Subtitle(a.title) != "" && Subtitle(b.title) != ""
    && !SpecialArc(Subtitle(a.title)) && !SpecialArc(Subtitle(b.title))
  }

  predicate Conflicts(top: Scored, other: Scored) {
    var (a, b) := (top.candidate, other.candidate);
    && !(Equivalent(a, b) && (!SameProvider(a, b) || a.ref.id == b.ref.id))
    && !SameSeasonArcs(a, b)
    && other.score >= top.score - GAP
  }

  predicate CrossChecks(top: Scored, other: Scored) {
    && other.score >= MEDIUM && Equivalent(top.candidate, other.candidate)
    && !SameProvider(top.candidate, other.candidate)
  }

  datatype Decision = NoMetadata | NeedsCrossCheck(candidate: Candidate) | Accepted(candidate: Candidate)

  function Decide(top: Scored, conflict: bool, crossChecked: bool): Decision {
    if top.score < MEDIUM || conflict then NoMetadata
    else if top.score >= HIGH || crossChecked || (top.titleScore == WEAK_EXACT && top.score >= WEAK_EXACT) then
      Accepted(top.candidate)
    else NeedsCrossCheck(top.candidate)
  }

  ghost predicate AnyConflict(top: Scored, others: seq<Scored>) { exists s :: s in others && Conflicts(top, s) }

  ghost predicate AnyCrossCheck(top: Scored, others: seq<Scored>) { exists s :: s in others && CrossChecks(top, s) }

  ghost function Outcome(ranked: seq<Scored>): Decision
    requires ranked != []
  {
    Decide(ranked[0], AnyConflict(ranked[0], ranked[1..]), AnyCrossCheck(ranked[0], ranked[1..]))
  }

  predicate ValidRequest(q: Query, candidates: seq<Candidate>) {
    (q.title != "" || q.native != "") && 0 < |candidates| <= MAX_CANDIDATES
  }

  ghost function Match(q: Query, candidates: seq<Candidate>): Decision {
    var ranked := Sorted(ScoreAll(q, candidates, candidates), Before);
    if !ValidRequest(q, candidates) || ranked == [] then NoMetadata else Outcome(ranked)
  }

  method HasConflict(top: Scored, others: seq<Scored>) returns (found: bool)
    ensures found <==> AnyConflict(top, others)
  {
    for i := 0 to |others|
      invariant forall k :: 0 <= k < i ==> !Conflicts(top, others[k])
    {
      if Conflicts(top, others[i]) { return true; }
    }
    return false;
  }

  method HasCrossCheck(top: Scored, others: seq<Scored>) returns (found: bool)
    ensures found <==> AnyCrossCheck(top, others)
  {
    for i := 0 to |others|
      invariant forall k :: 0 <= k < i ==> !CrossChecks(top, others[k])
    {
      if CrossChecks(top, others[i]) { return true; }
    }
    return false;
  }

  method MatchMetadata(q: Query, candidates: seq<Candidate>) returns (decision: Decision)
    ensures decision == Match(q, candidates)
  {
    decision := NoMetadata;
    if !ValidRequest(q, candidates) { return; }
    var scores := ScoreCandidates(q, candidates);
    if scores == [] { return; }
    var ranked := new Scored[|scores|](i requires 0 <= i < |scores| => scores[i]);
    assert ranked[..] == scores;
    SortStable(ranked, Before);
    assert ranked.Length == |scores| > 0 && ranked[0] == ranked[..][0] && ranked[1..] == ranked[..][1..];
    var top := ranked[0];
    var conflict := HasConflict(top, ranked[1..]);
    if top.score < MEDIUM || conflict { return; }
    var crossChecked := HasCrossCheck(top, ranked[1..]);
    var weakExact := top.titleScore == WEAK_EXACT && top.score >= WEAK_EXACT;
    decision := if top.score >= HIGH || crossChecked || weakExact then Accepted(top.candidate)
                else NeedsCrossCheck(top.candidate);
  }

  // ----- the order in which candidates arrive does not matter -----

  ghost predicate DistinctRefs(candidates: seq<Candidate>) {
    forall i, j :: 0 <= i < j < |candidates| ==> candidates[i].ref != candidates[j].ref
  }

  // No provider returned IDs that cannot be ordered.
  ghost predicate IdsOrdered(candidates: seq<Candidate>) {
    forall a, b, c :: a in candidates && b in candidates && c in candidates ==>
      a.ref.provider != b.ref.provider || b.ref.provider != c.ref.provider || !Crossed(a.ref.id, b.ref.id, c.ref.id)
  }

  lemma SeriesByMembership(q: Query, a: seq<Candidate>, b: seq<Candidate>, c: Candidate)
    requires Elements(a) == Elements(b)
    ensures ScoreOf(q, a, c) == ScoreOf(q, b, c) && (Kept(q, a, c) <==> Kept(q, b, c))
  {
    assert forall x :: x in a <==> x in Elements(a);
    assert forall x :: x in b <==> x in Elements(b);
    assert forall name :: SeriesName(q, a, name) <==> SeriesName(q, b, name);
  }

  // The scores are those of the kept candidates.
  lemma ScoredAre(q: Query, all: seq<Candidate>, candidates: seq<Candidate>, s: Scored)
    ensures s in ScoreAll(q, all, candidates) <==>
      s.candidate in candidates && Kept(q, all, s.candidate) && s == ScoreOf(q, all, s.candidate)
  {
    FilterMapElement(candidates, c => Kept(q, all, c), c => ScoreOf(q, all, c), s);
  }

  lemma ScoredDistinct(q: Query, all: seq<Candidate>, candidates: seq<Candidate>)
    requires DistinctRefs(candidates)
    ensures AllDistinct(ScoreAll(q, all, candidates))
  {
    FilterMapDistinct(candidates, c => Kept(q, all, c), c => ScoreOf(q, all, c));
  }

  lemma ScoresByMembership(q: Query, a: seq<Candidate>, b: seq<Candidate>)
    requires Elements(a) == Elements(b)
    ensures Elements(ScoreAll(q, a, a)) == Elements(ScoreAll(q, b, b))
  {
    forall s ensures s in ScoreAll(q, a, a) <==> s in ScoreAll(q, b, b) {
      ScoredAre(q, a, a, s);
      ScoredAre(q, b, b, s);
      SeriesByMembership(q, a, b, s.candidate);
      assert s.candidate in Elements(a) <==> s.candidate in Elements(b);
    }
  }

  lemma BeforeTransitive(x: Scored, y: Scored, z: Scored)
    requires Before(x, y) && Before(y, z)
    requires x.candidate.ref.provider == y.candidate.ref.provider == z.candidate.ref.provider ==>
      var (a, b, c) := (x.candidate.ref.id, y.candidate.ref.id, z.candidate.ref.id);
      !Crossed(a, b, c) && !Crossed(b, c, a) && !Crossed(c, a, b)
    ensures Before(x, z)
  {
    var (a, b, c) := (x.candidate.ref, y.candidate.ref, z.candidate.ref);
    if a.provider == b.provider == c.provider {
      if x.score == y.score == z.score { IdTransitive(a.id, b.id, c.id); }
    } else {
      if Less(a.provider, b.provider) && Less(b.provider, c.provider) {
        LessTransitive(a.provider, b.provider, c.provider);
      }
      LessAsymmetric(a.provider, b.provider);
      LessIrreflexive(a.provider);
    }
  }

  // Ranking is a strict order on the scored candidates.
  lemma RankingIsOrder(q: Query, candidates: seq<Candidate>)
    requires DistinctRefs(candidates) && IdsOrdered(candidates)
    ensures StrictOrderOn(Elements(ScoreAll(q, candidates, candidates)), Before)
  {
    var all := ScoreAll(q, candidates, candidates);
    forall x | x in all ensures x.candidate in candidates && x == ScoreOf(q, candidates, x.candidate) {
      ScoredAre(q, candidates, candidates, x);
    }
    forall x | x in all ensures !Before(x, x) { IdTotal(x.candidate.ref.id, x.candidate.ref.id); }
    forall x, y | x in all && y in all && x != y ensures Before(x, y) || Before(y, x) {
      assert x.candidate.ref != y.candidate.ref;
      LessTotal(x.candidate.ref.provider, y.candidate.ref.provider);
      IdTotal(x.candidate.ref.id, y.candidate.ref.id);
    }
    forall x, y, z | x in all && y in all && z in all && Before(x, y) && Before(y, z) ensures Before(x, z) {
      BeforeTransitive(x, y, z);
    }
  }

  // The ranking lists the kept candidates from first to last, whatever order they came in.
  lemma RankingUnique(q: Query, a: seq<Candidate>, b: seq<Candidate>)
    requires Elements(a) == Elements(b) && DistinctRefs(a) && DistinctRefs(b) && IdsOrdered(a)
    ensures Sorted(ScoreAll(q, a, a), Before) == Sorted(ScoreAll(q, b, b), Before)
  {
    var x, y := ScoreAll(q, a, a), ScoreAll(q, b, b);
    ScoresByMembership(q, a, b);
    RankingIsOrder(q, a);
    ScoredDistinct(q, a, a);
    ScoredDistinct(q, b, b);
    SortedAscending(x, Before);
    SortedAscending(y, Before);
    SortedPermutes(x, Before);
    SortedPermutes(y, Before);
    AscendingUnique(Sorted(x, Before), Sorted(y, Before), Before);
  }

  lemma PermutationKeeps(a: seq<Candidate>, b: seq<Candidate>)
    requires multiset(a) == multiset(b)
    ensures Elements(a) == Elements(b) && |a| == |b|
    ensures DistinctRefs(a) ==> DistinctRefs(b)
  {
    PermutationElements(a, b);
    CountDistinct(a);
    CountDistinct(b);
    if DistinctRefs(a) {
      assert AllDistinct(a) && AllDistinct(b);
      forall i, j | 0 <= i < j < |b| ensures b[i].ref != b[j].ref {
        assert b[i] in Elements(a) && b[j] in Elements(a);
      }
    }
  }

  // The same decision and candidate for every order of the candidates.
  lemma ArrivalOrderIrrelevant(q: Query, a: seq<Candidate>, b: seq<Candidate>)
    requires multiset(a) == multiset(b) && DistinctRefs(a) && IdsOrdered(a)
    ensures Match(q, a) == Match(q, b)
  {
    PermutationKeeps(a, b);
    RankingUnique(q, a, b);
  }

  // IDs as the providers return them meet the premise.
  lemma ProviderIdsOrdered(candidates: seq<Candidate>)
    requires forall c :: c in candidates ==> ProviderId(c.ref.id)
    ensures IdsOrdered(candidates)
  {
  }

  // Of two records of one provider that score the same, the one with the smaller ID comes first.
  lemma OlderEntryFirst(x: Scored, y: Scored)
    requires ProviderId(x.candidate.ref.id) && ProviderId(y.candidate.ref.id)
    requires x.score == y.score && x.candidate.ref.provider == y.candidate.ref.provider
    ensures Before(x, y) <==> Value(x.candidate.ref.id) < Value(y.candidate.ref.id)
  {
    IdOrderIsNumeric(x.candidate.ref.id, y.candidate.ref.id);
  }

  // The chosen candidate comes before every other one that was scored.
  lemma WinnerIsFirst(q: Query, candidates: seq<Candidate>, other: Candidate)
    requires DistinctRefs(candidates) && IdsOrdered(candidates)
    requires Match(q, candidates) != NoMetadata
    requires other in candidates && Kept(q, candidates, other)
    ensures var winner := Match(q, candidates).candidate;
      && winner in candidates && Kept(q, candidates, winner)
      && (other == winner || Before(ScoreOf(q, candidates, winner), ScoreOf(q, candidates, other)))
  {
    var scores := ScoreAll(q, candidates, candidates);
    var ranked := Sorted(scores, Before);
    RankingIsOrder(q, candidates);
    ScoredDistinct(q, candidates, candidates);
    SortedAscending(scores, Before);
    SortedPermutes(scores, Before);
    var s := ScoreOf(q, candidates, other);
    ScoredAre(q, candidates, candidates, s);
    assert s in Elements(ranked);
    assert ranked[0] in Elements(ranked);
    ScoredAre(q, candidates, candidates, ranked[0]);
  }

  // Another provider's record of the same entry, scored well enough, confirms the candidate.
  ghost predicate Confirmed(q: Query, candidates: seq<Candidate>, c: Candidate) {
    exists other :: other in candidates && other != c && Kept(q, candidates, other) &&
      CrossChecks(ScoreOf(q, candidates, c), ScoreOf(q, candidates, other))
  }

  lemma FullBeatsWeak(full: Scored, weak: Scored, hints: int)
    requires full.score == HIGH + hints && weak.score <= WEAK_EXACT + hints
    ensures Before(full, weak) && !Before(weak, full) && !Conflicts(full, weak)
  {
  }

  // The ranking behind its first element.
  lemma RestOfRanking(scores: seq<Scored>, first: Scored)
    requires AllDistinct(scores) && Sorted(scores, Before) != [] && Sorted(scores, Before)[0] == first
    ensures forall s :: s in Sorted(scores, Before)[1..] <==> s in scores && s != first
  {
    var ranked := Sorted(scores, Before);
    SortedPermutes(scores, Before);
    CountDistinct(scores);
    CountDistinct(ranked);
    forall s ensures s in ranked[1..] <==> s in scores && s != first {
      assert s in ranked <==> s in Elements(ranked);
      assert s in scores <==> s in Elements(scores);
      if s in ranked && s != first {
        var i :| 0 <= i < |ranked| && ranked[i] == s;
        assert ranked[1..][i - 1] == s;
      }
    }
  }

  lemma FullMatchFirst(q: Query, candidates: seq<Candidate>, full: Candidate)
    requires DistinctRefs(candidates) && full in candidates && OnlyFullMatch(q, candidates, full)
    ensures var ranked := Sorted(ScoreAll(q, candidates, candidates), Before);
      ranked != [] && ranked[0] == ScoreOf(q, candidates, full)
    ensures forall s :: s in ScoreAll(q, candidates, candidates) && s != ScoreOf(q, candidates, full) ==>
      !Conflicts(ScoreOf(q, candidates, full), s)
  {
    var scores, top := ScoreAll(q, candidates, candidates), ScoreOf(q, candidates, full);
    forall s | s in scores && s != top ensures Before(top, s) && !Before(s, top) && !Conflicts(top, s) {
      ScoredAre(q, candidates, candidates, s);
      FullBeatsWeak(top, s, HintScore(q, full));
    }
    ScoredAre(q, candidates, candidates, top);
    IdTotal(full.ref.id, full.ref.id);
    SortedFirst(scores, top, Before);
  }

  // full matches the query in full, and every other candidate at most weakly and with no better hints.
  ghost predicate OnlyFullMatch(q: Query, candidates: seq<Candidate>, full: Candidate) {
    && HasRef(full) && TitleScore(q, candidates, full) == HIGH
    && forall other :: other in candidates && other != full && Kept(q, candidates, other) ==>
         TitleScore(q, candidates, other) <= WEAK_EXACT && HintScore(q, other) <= HintScore(q, full)
  }

  // The only full match is never in conflict with weaker ones, however many there are: it is
  // accepted if and only if its hints do not count against it or another provider confirms it, and
  // else it is proposed, unless the hints take it below the medium score.
  lemma FullMatchWinsCleanly(q: Query, candidates: seq<Candidate>, full: Candidate)
    requires ValidRequest(q, candidates) && DistinctRefs(candidates)
    requires full in candidates && OnlyFullMatch(q, candidates, full)
    ensures var hints := HintScore(q, full);
      Match(q, candidates) ==
        if hints < MEDIUM - HIGH then NoMetadata
        else if hints >= 0 || Confirmed(q, candidates, full) then Accepted(full)
        else NeedsCrossCheck(full)
  {
    var scores, top := ScoreAll(q, candidates, candidates), ScoreOf(q, candidates, full);
    FullMatchFirst(q, candidates, full);
    ScoredDistinct(q, candidates, candidates);
    RestOfRanking(scores, top);
    var others := Sorted(scores, Before)[1..];
    assert !AnyConflict(top, others);
    ConfirmedByOthers(q, candidates, full, others);
  }

  lemma ConfirmedByOthers(q: Query, candidates: seq<Candidate>, full: Candidate, others: seq<Scored>)
    requires forall s :: s in others <==> s in ScoreAll(q, candidates, candidates) && s != ScoreOf(q, candidates, full)
    ensures AnyCrossCheck(ScoreOf(q, candidates, full), others) <==> Confirmed(q, candidates, full)
  {
    var top := ScoreOf(q, candidates, full);
    if AnyCrossCheck(top, others) {
      var s :| s in others && CrossChecks(top, s);
      ScoredAre(q, candidates, candidates, s);
      assert s.candidate != full;
    }
    if Confirmed(q, candidates, full) {
      var other :| other in candidates && other != full && Kept(q, candidates, other) &&
                   CrossChecks(top, ScoreOf(q, candidates, other));
      ScoredAre(q, candidates, candidates, ScoreOf(q, candidates, other));
    }
  }

  // ----- where it does matter -----

  function Arc(id: string): Candidate { Candidate(Ref("bangumi", id), "m\U{001F}a", "", "1", [], 0, 0) }

  const ARC_QUERY := Query("m\U{001F}a", "", "1", 0, 0)

  lemma ArcScore(all: seq<Candidate>, id: string)
    requires id in ["9", "10", "1a"]
    requires forall c :: c in all ==> c.aliases == []
    ensures Kept(ARC_QUERY, all, Arc(id)) && ScoreOf(ARC_QUERY, all, Arc(id)) == Scored(Arc(id), HIGH, HIGH + 12)
  {
    assert TextScore(ARC_QUERY.title, Arc(id).title) == HIGH;
    assert !IsSpace("bangumi"[0]) && !IsSpace("bangumi"[6]);
  }

  lemma ArcsAgree(a: string, b: string)
    ensures SameSeasonArcs(Arc(a), Arc(b))
  {
    var title := "m\U{001F}a";
    CutConcat("m", SEPARATOR, "a");
    assert title == "m" + [SEPARATOR] + "a";
    assert !SpecialArc("a");
  }

  lemma ArcScores(p: string, r: string, t: string)
    requires p in ["9", "10", "1a"] && r in ["9", "10", "1a"] && t in ["9", "10", "1a"]
    ensures var all := [Arc(p), Arc(r), Arc(t)];
      ScoreAll(ARC_QUERY, all, all) ==
        [Scored(Arc(p), HIGH, HIGH + 12), Scored(Arc(r), HIGH, HIGH + 12), Scored(Arc(t), HIGH, HIGH + 12)]
  {
    var all := [Arc(p), Arc(r), Arc(t)];
    ArcScore(all, p);
    ArcScore(all, r);
    ArcScore(all, t);
    FilterMapThree(Arc(p), Arc(r), Arc(t), c => Kept(ARC_QUERY, all, c), c => ScoreOf(ARC_QUERY, all, c));
  }

  lemma ArcsAccepted(x: Scored, y: Scored, z: Scored)
    requires x.score >= HIGH
    requires SameSeasonArcs(x.candidate, y.candidate) && SameSeasonArcs(x.candidate, z.candidate)
    ensures Outcome([x, y, z]) == Accepted(x.candidate)
  {
    assert [x, y, z][1..] == [y, z];
  }

  // Three arcs of a season, with IDs that come in a circle: the first to arrive is chosen.
  lemma FirstArcWins(p: string, r: string, t: string)
    requires p in ["9", "10", "1a"] && r in ["9", "10", "1a"] && t in ["9", "10", "1a"]
    requires !IdBefore(r, p) && !IdBefore(t, r)
    ensures Match(ARC_QUERY, [Arc(p), Arc(r), Arc(t)]) == Accepted(Arc(p))
  {
    ArcScores(p, r, t);
    var score := HIGH + 12;
    var (x, y, z) := (Scored(Arc(p), HIGH, score), Scored(Arc(r), HIGH, score), Scored(Arc(t), HIGH, score));
    SortThree(x, y, z);
    ArcsAgree(p, r);
    ArcsAgree(p, t);
    ArcsAccepted(x, y, z);
  }

  lemma ArcsDistinct(a: seq<Candidate>, b: seq<Candidate>)
    requires a == [Arc("9"), Arc("10"), Arc("1a")] && b == [Arc("10"), Arc("1a"), Arc("9")]
    ensures DistinctRefs(a) && multiset(a) == multiset(b) && a[0] != b[0]
  {
    assert "9"[0] != "10"[0] && "9"[0] != "1a"[0] && "10"[1] != "1a"[1];
  }

  // Without the premise on IDs the order of the candidates matters.
  lemma OrderMattersWhenCrossed()
    ensures exists q, a, b :: multiset(a) == multiset(b) && DistinctRefs(a) && Match(q, a) != Match(q, b)
  {
    var q, a, b := CircularArcs();
    assert Match(q, a) != Match(q, b);
  }

  lemma CircularArcs() returns (q: Query, a: seq<Candidate>, b: seq<Candidate>)
    ensures DistinctRefs(a) && multiset(a) == multiset(b) && a != [] && b != [] && a[0] != b[0]
    ensures Match(q, a) == Accepted(a[0]) && Match(q, b) == Accepted(b[0])
  {
    q, a, b := ARC_QUERY, [Arc("9"), Arc("10"), Arc("1a")], [Arc("10"), Arc("1a"), Arc("9")];
    CrossedIds();
    IdTotal("9", "10");
    IdTotal("10", "1a");
    IdTotal("1a", "9");
    FirstArcWins("9", "10", "1a");
    FirstArcWins("10", "1a", "9");
    ArcsDistinct(a, b);
  }

  lemma CrossedIds()
    ensures Crossed("9", "10", "1a")
    ensures IdBefore("9", "10") && IdBefore("10", "1a") && IdBefore("1a", "9")
  {
    assert !IsDigit("1a"[1]);
  }

  lemma SortThree(a: Scored, b: Scored, c: Scored)
    requires !Before(b, a) && !Before(c, b)
    ensures Sorted([a, b, c], Before) == [a, b, c]
  {
    assert [a, b, c][..2] == [a, b] && [a, b][..1] == [a] && [a][..0] == [];
    assert Sorted([a], Before) == Insert([], a, Before) == [a];
    assert Sorted([a, b], Before) == Insert([a], b, Before) == [a, b];
    assert Sorted([a, b, c], Before) == Insert([a, b], c, Before) == [a, b, c];
  }
}

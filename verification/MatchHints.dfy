// What the season, the year and the episode count make of a metadata match, from the fields.
module MatchHints {
  import opened Sequences
  import opened Sorting
  import opened Text
  import opened MetadataMatch

  // ----- how fields compare -----

  predicate SameSeason(a: string, b: string) { a != "" && a == b }

  predicate OtherSeason(a: string, b: string) { a != "" && b != "" && a != b }

  predicate SeasonOnOneSide(a: string, b: string) { (a == "") != (b == "") }

  predicate SameCount(a: int, b: int) { a > 0 && a == b }

  predicate OtherCount(a: int, b: int) { a > 0 && b > 0 && a != b }

  predicate FarApart(a: int, b: int) { a > 0 && b > 0 && (a > b + 1 || b > a + 1) }

  // What speaks for a candidate and what against it, in points.
  function PointsFor(q: Query, c: Candidate): nat {
    (if SameSeason(q.season, c.season) then 12 else 0) +
    (if SameCount(q.year, c.year) then 12 else 0) +
    (if SameCount(q.episodes, c.episodes) then 8 else 0)
  }

  function PointsAgainst(q: Query, c: Candidate): nat {
    (if OtherSeason(q.season, c.season) then 14 else if SeasonOnOneSide(q.season, c.season) then 10 else 0) +
    (if FarApart(q.year, c.year) then 14 else 0) +
    (if OtherCount(q.episodes, c.episodes) then 10 else 0)
  }

  ghost function Points(q: Query, all: seq<Candidate>, c: Candidate): int {
    TitleScore(q, all, c) + PointsFor(q, c) - PointsAgainst(q, c)
  }

  lemma PointsAreScore(q: Query, all: seq<Candidate>, c: Candidate)
    ensures ScoreOf(q, all, c) == Scored(c, TitleScore(q, all, c), Points(q, all, c))
  {
  }

  // ----- how names compare -----

  predicate SameMain(a: string, b: string) { CompareKey(Main(a)) == CompareKey(Main(b)) }

  predicate SameSubtitle(a: string, b: string) { CompareKey(Subtitle(a)) == CompareKey(Subtitle(b)) }

  // The same name, or the same subtitle set off in another way.
  predicate SameName(a: string, b: string) {
    || (SameMain(a, b) && SameSubtitle(a, b))
    || CompareKey(Main(a) + " " + Subtitle(a)) == CompareKey(Main(b) + " " + Subtitle(b))
  }

  // The same main title with a subtitle on one side only; or the same subtitle, with main titles
  // that differ in particles only.
  predicate NearlySameName(a: string, b: string) {
    || (SameMain(a, b) && (Subtitle(a) == "" || Subtitle(b) == ""))
    || (Subtitle(a) != "" && SameSubtitle(a, b) &&
        WithoutParticles(CompareKey(Main(a))) == WithoutParticles(CompareKey(Main(b))))
  }

  // One main title within the other, and no subtitles that tell them apart.
  predicate NameWithin(a: string, b: string) {
    && (Subtitle(a) == "" || Subtitle(b) == "" || SameSubtitle(a, b))
    && |CompareKey(Main(a))| > 2 && |CompareKey(Main(b))| > 2
    && (Contains(CompareKey(Main(a)), CompareKey(Main(b))) || Contains(CompareKey(Main(b)), CompareKey(Main(a))))
  }

  lemma TextScoreExactly(query: string, name: string)
    requires query != "" && name != ""
    ensures TextScore(query, name) ==
      if SameName(query, name) then 70 else if NearlySameName(query, name) then 60
      else if NameWithin(query, name) then 52 else 0
  {
  }

  // A word of the key, unless it is an x between two words.
  function KeyFrom(words: seq<string>, i: nat): string
    requires i <= |words|
    decreases |words| - i
  {
    if i == |words| then ""
    else (if words[i] == "x" && 0 < i < |words| - 1 then "" else words[i]) + KeyFrom(words, i + 1)
  }

  lemma {:induction false} JoinIsKey(words: seq<string>, i: nat)
    requires i <= |words|
    ensures JoinWords(words[i..], i == 0) == KeyFrom(words, i)
    decreases |words| - i
  {
    if i < |words| {
      assert words[i..][1..] == words[i + 1..];
      JoinIsKey(words, i + 1);
    }
  }

  // A key is the words of the text, joined, without an x that stands between two words.
  lemma KeyExactly(text: string)
    ensures CompareKey(text) == KeyFrom(Fields(text), 0)
  {
    assert Fields(text)[0..] == Fields(text);
    JoinIsKey(Fields(text), 0);
  }

  // The words of a text: what white space separates.
  lemma {:induction false} FieldsSplit(left: string, space: char, right: string)
    requires IsSpace(space)
    ensures Fields(left + [space] + right) == Fields(left) + Fields(right)
    decreases |left|
  {
    var text := left + [space] + right;
    if left == "" {
      assert text[1..] == right;
    } else if IsSpace(left[0]) {
      assert text[1..] == left[1..] + [space] + right;
      FieldsSplit(left[1..], space, right);
    } else {
      var n := FirstSpace(left);
      SpaceKept(left, space, right);
      assert text[..n] == left[..n] && text[n..] == left[n..] + [space] + right;
      FieldsSplit(left[n..], space, right);
    }
  }

  lemma {:induction false} SpaceKept(left: string, space: char, right: string)
    requires IsSpace(space)
    ensures FirstSpace(left + [space] + right) == FirstSpace(left)
  {
    var text := left + [space] + right;
    if left != "" {
      assert text[1..] == left[1..] + [space] + right;
      SpaceKept(left[1..], space, right);
    }
  }

  lemma FieldsOfWord(word: string)
    requires forall i :: 0 <= i < |word| ==> !IsSpace(word[i])
    ensures Fields(word) == if word == "" then [] else [word]
  {
    FirstSpaceNone(word);
    if word != "" { assert word[..|word|] == word && word[|word|..] == ""; }
  }

  // Exactly the particles are left out.
  lemma {:induction false} ParticlesLeftOut(left: string, c: char, right: string)
    ensures WithoutParticles(left + [c] + right) ==
      WithoutParticles(left) + (if c in "\U{7684}\U{4E4B}\U{306E}" then "" else [c]) + WithoutParticles(right)
    decreases |left|
  {
    var text := left + [c] + right;
    if left == "" {
      assert text == [c] + right && text[1..] == right;
    } else {
      assert text[1..] == left[1..] + [c] + right;
      ParticlesLeftOut(left[1..], c, right);
    }
  }

  // ----- what the names of a candidate score -----

  predicate Same(a: string, b: string) { a != "" && b != "" && SameName(a, b) }

  predicate Nearly(a: string, b: string) { a != "" && b != "" && NearlySameName(a, b) }

  predicate Within(a: string, b: string) { a != "" && b != "" && NameWithin(a, b) }

  // One of the query's names and one of the candidate's titles are so related.
  predicate Related(q: Query, c: Candidate, how: (string, string) -> bool) {
    how(q.title, c.title) || how(q.title, c.native) || how(q.native, c.title) || how(q.native, c.native)
  }

  predicate Aliased(q: Query, c: Candidate) {
    exists i :: 0 <= i < |c.aliases| && (Same(q.title, c.aliases[i]) || Same(q.native, c.aliases[i]))
  }

  // name is another name of the series, as a candidate has it that has the query's as an alias.
  predicate OtherName(q: Query, c: Candidate, name: string) {
    Aliased(q, c) && (name == c.title || name == c.native) && name !in ["", q.title, q.native]
  }

  ghost predicate OfSeries(q: Query, all: seq<Candidate>, c: Candidate) {
    exists other, name :: other in all && OtherName(q, other, name) && (Same(name, c.title) || Same(name, c.native))
  }

  lemma PairScores(a: string, b: string)
    ensures TextScore(a, b) == if Same(a, b) then 70 else if Nearly(a, b) then 60 else if Within(a, b) then 52 else 0
  {
    if a != "" && b != "" { TextScoreExactly(a, b); }
  }

  lemma AliasesScore(query: string, c: Candidate)
    ensures (exists i :: 0 <= i < |c.aliases| && TextScore(query, c.aliases[i]) == HIGH) <==>
            exists i :: 0 <= i < |c.aliases| && Same(query, c.aliases[i])
  {
    forall i | 0 <= i < |c.aliases| ensures TextScore(query, c.aliases[i]) == HIGH <==> Same(query, c.aliases[i]) {
      PairScores(query, c.aliases[i]);
    }
  }

  lemma AliasedExactly(q: Query, c: Candidate)
    ensures AliasMatch(q, c) <==> Aliased(q, c)
  {
    forall i | 0 <= i < |c.aliases|
      ensures FullMatch(q, c.aliases[i]) <==> Same(q.title, c.aliases[i]) || Same(q.native, c.aliases[i])
    {
      PairScores(q.title, c.aliases[i]);
      PairScores(q.native, c.aliases[i]);
    }
  }

  lemma SeriesExactly(q: Query, all: seq<Candidate>, c: Candidate)
    ensures SeriesMatch(q, all, c) <==> OfSeries(q, all, c)
  {
    forall other ensures AliasMatch(q, other) <==> Aliased(q, other) { AliasedExactly(q, other); }
    forall name ensures NamedAs(name, c) <==> Same(name, c.title) || Same(name, c.native) {
      PairScores(name, c.title);
      PairScores(name, c.native);
    }
    forall other, name ensures NamesSeries(q, other, name) <==> OtherName(q, other, name) {}
    if SeriesMatch(q, all, c) {
      var name :| SeriesName(q, all, name) && NamedAs(name, c);
      var other :| other in all && NamesSeries(q, other, name);
      assert OtherName(q, other, name);
    }
    if OfSeries(q, all, c) {
      var other, name :| other in all && OtherName(q, other, name) && (Same(name, c.title) || Same(name, c.native));
      assert NamesSeries(q, other, name);
      assert SeriesName(q, all, name) && NamedAs(name, c);
    }
  }

  lemma BestExactly(q: Query, c: Candidate)
    ensures BestScore(q, c) ==
      if Related(q, c, Same) then 70
      else if Related(q, c, Nearly) || Aliased(q, c) then 60
      else if Related(q, c, Within) then 52 else 0
  {
    PairScores(q.title, c.title);
    PairScores(q.title, c.native);
    PairScores(q.native, c.title);
    PairScores(q.native, c.native);
    AliasesScore(q.title, c);
    AliasesScore(q.native, c);
  }

  // What a candidate's names score: 70 for the same name; 60 for nearly the same, for an alias, or
  // for a name of the series; 52 for a name within the other.
  lemma TitleScoreExactly(q: Query, all: seq<Candidate>, c: Candidate)
    ensures TitleScore(q, all, c) ==
      if Related(q, c, Same) then 70
      else if Related(q, c, Nearly) || Aliased(q, c) || OfSeries(q, all, c) then 60
      else if Related(q, c, Within) then 52 else 0
  {
    BestExactly(q, c);
    SeriesExactly(q, all, c);
  }

  // A candidate counts unless its provider or its ID is blank, or no name of it matches.
  lemma KeptExactly(q: Query, all: seq<Candidate>, c: Candidate)
    ensures Kept(q, all, c) <==>
      TrimSpace(c.ref.provider) != "" && TrimSpace(c.ref.id) != "" && TitleScore(q, all, c) != 0
  {
  }

  // ----- the decision, without the ranking -----

  // The query has a name, and there are 1 to 100 candidates.
  predicate Answerable(q: Query, candidates: seq<Candidate>) {
    (q.title != "" || q.native != "") && 1 <= |candidates| <= 100
  }

  lemma OthersAreNotMatched(q: Query, candidates: seq<Candidate>)
    requires !Answerable(q, candidates)
    ensures Match(q, candidates) == NoMetadata
  {
  }

  // No other kept candidate comes before c.
  ghost predicate First(q: Query, candidates: seq<Candidate>, c: Candidate) {
    && c in candidates && Kept(q, candidates, c)
    && forall other :: other in candidates && other != c && Kept(q, candidates, other) ==>
         Before(ScoreOf(q, candidates, c), ScoreOf(q, candidates, other))
  }

  ghost predicate OtherProvider(a: Candidate, b: Candidate) {
    Fold(TrimSpace(a.ref.provider)) != Fold(TrimSpace(b.ref.provider))
  }

  // The same names, as far as season, year and episode count are known on both sides.
  ghost predicate SameEntry(a: Candidate, b: Candidate) {
    && (a.title == b.title != "" || a.native == b.native != "") && !OtherSeason(a.season, b.season)
    && !OtherCount(a.year, b.year) && !OtherCount(a.episodes, b.episodes)
  }

  // Two arcs of one season of a show, at one provider.
  ghost predicate ArcsOfSeason(a: Candidate, b: Candidate) {
    && !OtherProvider(a, b) && SameSeason(a.season, b.season)
    && Main(a.title) == Main(b.title) != "" && Subtitle(a.title) != "" && Subtitle(b.title) != ""
    && !SpecialArc(Subtitle(a.title)) && !SpecialArc(Subtitle(b.title))
  }

  // Another entry that is at most 8 points behind c, and not c as another provider has it.
  ghost predicate Rival(q: Query, all: seq<Candidate>, c: Candidate, other: Candidate) {
    && Points(q, all, c) - Points(q, all, other) <= 8 && !ArcsOfSeason(c, other)
    && !(SameEntry(c, other) && (OtherProvider(c, other) || c.ref.id == other.ref.id))
  }

  ghost predicate Contested(q: Query, candidates: seq<Candidate>, c: Candidate) {
    exists other :: other in candidates && other != c && Kept(q, candidates, other) && Rival(q, candidates, c, other)
  }

  // Another provider has c too, with at least 50 points.
  ghost predicate SeenElsewhere(q: Query, candidates: seq<Candidate>, c: Candidate) {
    exists other :: other in candidates && other != c && Kept(q, candidates, other) &&
      SameEntry(c, other) && OtherProvider(c, other) && Points(q, candidates, other) >= 50
  }

  ghost function Verdict(q: Query, candidates: seq<Candidate>, c: Candidate): Decision {
    var (points, title) := (Points(q, candidates, c), TitleScore(q, candidates, c));
    if points < 50 || Contested(q, candidates, c) then NoMetadata
    else if points >= 70 || (points >= 60 && title == 60) || SeenElsewhere(q, candidates, c) then Accepted(c)
    else NeedsCrossCheck(c)
  }

  lemma EntryIsEquivalent(c: Candidate, other: Candidate)
    ensures SameEntry(c, other) <==> Equivalent(c, other)
    ensures OtherProvider(c, other) <==> !SameProvider(c, other)
    ensures ArcsOfSeason(c, other) <==> SameSeasonArcs(c, other)
  {
  }

  lemma ConflictOf(s: Scored, t: Scored)
    ensures var (c, other) := (s.candidate, t.candidate);
      Conflicts(s, t) <==>
        && s.score - t.score <= 8 && !SameSeasonArcs(c, other)
        && !(Equivalent(c, other) && (!SameProvider(c, other) || c.ref.id == other.ref.id))
  {
  }

  lemma RivalConflicts(q: Query, all: seq<Candidate>, c: Candidate, other: Candidate)
    ensures var (s, t) := (ScoreOf(q, all, c), ScoreOf(q, all, other));
      && (Rival(q, all, c, other) <==> Conflicts(s, t))
      && (SameEntry(c, other) && OtherProvider(c, other) && Points(q, all, other) >= 50 <==> CrossChecks(s, t))
  {
    var (s, t) := (ScoreOf(q, all, c), ScoreOf(q, all, other));
    PointsAreScore(q, all, c);
    PointsAreScore(q, all, other);
    EntryIsEquivalent(c, other);
    ConflictOf(s, t);
    CrossCheckOf(s, t);
  }

  lemma CrossCheckOf(s: Scored, t: Scored)
    ensures CrossChecks(s, t) <==>
      t.score >= 50 && Equivalent(s.candidate, t.candidate) && !SameProvider(s.candidate, t.candidate)
  {
  }

  lemma ContestedByOthers(q: Query, candidates: seq<Candidate>, c: Candidate, others: seq<Scored>)
    requires forall s :: s in others <==> s in ScoreAll(q, candidates, candidates) && s != ScoreOf(q, candidates, c)
    ensures Contested(q, candidates, c) <==> AnyConflict(ScoreOf(q, candidates, c), others)
  {
    var top := ScoreOf(q, candidates, c);
    if AnyConflict(top, others) {
      var s :| s in others && Conflicts(top, s);
      ScoredAre(q, candidates, candidates, s);
      RivalConflicts(q, candidates, c, s.candidate);
      assert s.candidate != c;
    }
    if Contested(q, candidates, c) {
      var other :| other in candidates && other != c && Kept(q, candidates, other) && Rival(q, candidates, c, other);
      ScoredAre(q, candidates, candidates, ScoreOf(q, candidates, other));
      RivalConflicts(q, candidates, c, other);
    }
  }

  lemma SeenIsConfirmed(q: Query, candidates: seq<Candidate>, c: Candidate)
    ensures SeenElsewhere(q, candidates, c) <==> Confirmed(q, candidates, c)
  {
    forall other ensures SameEntry(c, other) && OtherProvider(c, other) && Points(q, candidates, other) >= 50 <==>
                         CrossChecks(ScoreOf(q, candidates, c), ScoreOf(q, candidates, other)) {
      RivalConflicts(q, candidates, c, other);
    }
    if Confirmed(q, candidates, c) {
      var other :| other in candidates && other != c && Kept(q, candidates, other) &&
                   CrossChecks(ScoreOf(q, candidates, c), ScoreOf(q, candidates, other));
      assert SameEntry(c, other) && OtherProvider(c, other);
    }
  }

  lemma FirstIsRanked(q: Query, candidates: seq<Candidate>, c: Candidate)
    requires DistinctRefs(candidates) && First(q, candidates, c)
    ensures var ranked := Sorted(ScoreAll(q, candidates, candidates), Before);
      ranked != [] && ranked[0] == ScoreOf(q, candidates, c)
  {
    var scores, top := ScoreAll(q, candidates, candidates), ScoreOf(q, candidates, c);
    forall s | s in scores && s != top ensures Before(top, s) && !Before(s, top) {
      ScoredAre(q, candidates, candidates, s);
      BeforeAsymmetric(top, s);
    }
    ScoredAre(q, candidates, candidates, top);
    IdTotal(c.ref.id, c.ref.id);
    SortedFirst(scores, top, Before);
  }

  lemma BeforeAsymmetric(x: Scored, y: Scored)
    requires Before(x, y)
    ensures !Before(y, x)
  {
    IdTotal(x.candidate.ref.id, y.candidate.ref.id);
    LessAsymmetric(x.candidate.ref.provider, y.candidate.ref.provider);
  }

  // The decision on any candidates is the verdict on the one that comes first.
  lemma DecisionExactly(q: Query, candidates: seq<Candidate>, c: Candidate)
    requires Answerable(q, candidates) && DistinctRefs(candidates) && First(q, candidates, c)
    ensures Match(q, candidates) == Verdict(q, candidates, c)
  {
    var scores, top := ScoreAll(q, candidates, candidates), ScoreOf(q, candidates, c);
    FirstIsRanked(q, candidates, c);
    ScoredDistinct(q, candidates, candidates);
    RestOfRanking(scores, top);
    var others := Sorted(scores, Before)[1..];
    ContestedByOthers(q, candidates, c, others);
    SeenIsConfirmed(q, candidates, c);
    ConfirmedByOthers(q, candidates, c, others);
    PointsAreScore(q, candidates, c);
  }

  lemma NoneKept(q: Query, candidates: seq<Candidate>)
    requires forall c :: c in candidates ==> !Kept(q, candidates, c)
    ensures Match(q, candidates) == NoMetadata
  {
    var scores := ScoreAll(q, candidates, candidates);
    if scores != [] { ScoredAre(q, candidates, candidates, scores[0]); }
  }

  // One comes first whenever any is kept.
  lemma FirstExists(q: Query, candidates: seq<Candidate>, kept: Candidate) returns (c: Candidate)
    requires DistinctRefs(candidates) && IdsOrdered(candidates)
    requires kept in candidates && Kept(q, candidates, kept)
    ensures First(q, candidates, c)
  {
    var scores := ScoreAll(q, candidates, candidates);
    var ranked := Sorted(scores, Before);
    RankingIsOrder(q, candidates);
    ScoredDistinct(q, candidates, candidates);
    SortedAscending(scores, Before);
    SortedPermutes(scores, Before);
    ScoredAre(q, candidates, candidates, ScoreOf(q, candidates, kept));
    assert ScoreOf(q, candidates, kept) in Elements(ranked);
    assert ranked[0] in Elements(ranked);
    c := ranked[0].candidate;
    ScoredAre(q, candidates, candidates, ranked[0]);
    forall other | other in candidates && other != c && Kept(q, candidates, other)
      ensures Before(ScoreOf(q, candidates, c), ScoreOf(q, candidates, other))
    {
      var s := ScoreOf(q, candidates, other);
      ScoredAre(q, candidates, candidates, s);
      assert s in Elements(ranked);
    }
  }

  // ----- a single candidate -----

  // The only candidate is judged by its points alone.
  lemma SoleCandidate(q: Query, c: Candidate)
    requires Answerable(q, [c]) && HasRef(c)
    ensures var (title, points) := (TitleScore(q, [c], c), Points(q, [c], c));
      Match(q, [c]) ==
        if title == 0 || points < 50 then NoMetadata
        else if points >= 70 || (points >= 60 && title == 60) then Accepted(c)
        else NeedsCrossCheck(c)
  {
    if TitleScore(q, [c], c) == 0 {
      NoneKept(q, [c]);
    } else {
      OnlyOne(q, [c], c);
      DecisionExactly(q, [c], c);
    }
  }

  lemma OnlyOne(q: Query, all: seq<Candidate>, c: Candidate)
    requires all == [c] && Kept(q, all, c)
    ensures First(q, all, c) && !Contested(q, all, c) && !SeenElsewhere(q, all, c) && DistinctRefs(all)
  {
    assert forall other :: other in all <==> other == c;
  }

  // A full match with nothing but years: accepted unless they are more than one apart.
  lemma YearsDecide(q: Query, c: Candidate)
    requires Answerable(q, [c]) && HasRef(c) && TitleScore(q, [c], c) == HIGH
    requires q.season == c.season == "" && (q.episodes <= 0 || c.episodes <= 0)
    ensures Match(q, [c]) == if FarApart(q.year, c.year) then NeedsCrossCheck(c) else Accepted(c)
  {
    SoleCandidate(q, c);
  }

  // With nothing but seasons: accepted if they are equal or both unknown.
  lemma SeasonsDecide(q: Query, c: Candidate)
    requires Answerable(q, [c]) && HasRef(c) && TitleScore(q, [c], c) == HIGH
    requires (q.year <= 0 || c.year <= 0) && (q.episodes <= 0 || c.episodes <= 0)
    ensures Match(q, [c]) == if q.season == c.season then Accepted(c) else NeedsCrossCheck(c)
  {
    SoleCandidate(q, c);
  }

  // With nothing but episode counts: accepted unless both are known and differ.
  lemma EpisodesDecide(q: Query, c: Candidate)
    requires Answerable(q, [c]) && HasRef(c) && TitleScore(q, [c], c) == HIGH
    requires q.season == c.season == "" && (q.year <= 0 || c.year <= 0)
    ensures Match(q, [c]) == if OtherCount(q.episodes, c.episodes) then NeedsCrossCheck(c) else Accepted(c)
  {
    SoleCandidate(q, c);
  }

  // Two fields against a full match and none for it rule it out, but for a season that one side
  // leaves out with another episode count, which is proposed.
  lemma TwoAgainst(q: Query, c: Candidate)
    requires Answerable(q, [c]) && HasRef(c) && TitleScore(q, [c], c) == HIGH && PointsFor(q, c) == 0
    requires var (season, year, episodes) :=
        (q.season != c.season, FarApart(q.year, c.year), OtherCount(q.episodes, c.episodes));
      (season && year) || (season && episodes) || (year && episodes)
    ensures Match(q, [c]) ==
      if SeasonOnOneSide(q.season, c.season) && !FarApart(q.year, c.year) then NeedsCrossCheck(c) else NoMetadata
  {
    SoleCandidate(q, c);
  }

  // ----- two candidates alike but for a field -----

  predicate AlikeButYear(a: Candidate, b: Candidate) { a.(ref := b.ref, year := b.year) == b }

  predicate AlikeButSeason(a: Candidate, b: Candidate) { a.(ref := b.ref, season := b.season) == b }

  predicate AlikeButEpisodes(a: Candidate, b: Candidate) { a.(ref := b.ref, episodes := b.episodes) == b }

  // 2 for the query's own, 1 for an unknown or, of years, adjacent one, 0 for another one.
  function YearFit(q: Query, c: Candidate): nat {
    if SameCount(q.year, c.year) then 2 else if FarApart(q.year, c.year) then 0 else 1
  }

  function EpisodesFit(q: Query, c: Candidate): nat {
    if SameCount(q.episodes, c.episodes) then 2 else if OtherCount(q.episodes, c.episodes) then 0 else 1
  }

  // 3 for the query's own, 2 if neither side names one, 1 if one side does, 0 for another one.
  function SeasonFit(q: Query, c: Candidate): nat {
    if SameSeason(q.season, c.season) then 3 else if q.season == c.season then 2
    else if SeasonOnOneSide(q.season, c.season) then 1 else 0
  }

  lemma AlikeTitles(q: Query, all: seq<Candidate>, a: Candidate, b: Candidate)
    requires a.title == b.title && a.native == b.native && a.aliases == b.aliases
    ensures TitleScore(q, all, a) == TitleScore(q, all, b)
  {
    assert BestScore(q, a) == BestScore(q, b);
    assert forall name :: NamedAs(name, a) <==> NamedAs(name, b);
  }

  // Of two candidates alike but for ref and year, the one whose year fits better ranks first.
  lemma CloserYearFirst(q: Query, all: seq<Candidate>, a: Candidate, b: Candidate)
    requires AlikeButYear(a, b) && YearFit(q, a) > YearFit(q, b)
    ensures Before(ScoreOf(q, all, a), ScoreOf(q, all, b)) && !Before(ScoreOf(q, all, b), ScoreOf(q, all, a))
  {
    AlikeTitles(q, all, a, b);
    PointsAreScore(q, all, a);
    PointsAreScore(q, all, b);
  }

  lemma CloserSeasonFirst(q: Query, all: seq<Candidate>, a: Candidate, b: Candidate)
    requires AlikeButSeason(a, b) && SeasonFit(q, a) > SeasonFit(q, b)
    ensures Before(ScoreOf(q, all, a), ScoreOf(q, all, b)) && !Before(ScoreOf(q, all, b), ScoreOf(q, all, a))
  {
    AlikeTitles(q, all, a, b);
    PointsAreScore(q, all, a);
    PointsAreScore(q, all, b);
  }

  lemma CloserEpisodesFirst(q: Query, all: seq<Candidate>, a: Candidate, b: Candidate)
    requires AlikeButEpisodes(a, b) && EpisodesFit(q, a) > EpisodesFit(q, b)
    ensures Before(ScoreOf(q, all, a), ScoreOf(q, all, b)) && !Before(ScoreOf(q, all, b), ScoreOf(q, all, a))
  {
    AlikeTitles(q, all, a, b);
    PointsAreScore(q, all, a);
    PointsAreScore(q, all, b);
  }

  // ----- two candidates -----

  ghost predicate Pair(q: Query, all: seq<Candidate>, a: Candidate, b: Candidate) {
    && (all == [a, b] || all == [b, a]) && a.ref != b.ref
    && Answerable(q, all) && Kept(q, all, a) && Kept(q, all, b)
  }

  // Of two candidates the first is judged, with the other as its only rival and witness.
  lemma PairDecision(q: Query, all: seq<Candidate>, a: Candidate, b: Candidate)
    requires Pair(q, all, a, b) && Before(ScoreOf(q, all, a), ScoreOf(q, all, b))
    ensures var (points, title) := (Points(q, all, a), TitleScore(q, all, a));
      Match(q, all) ==
        if points < 50 || Rival(q, all, a, b) then NoMetadata
        else if points >= 70 || (points >= 60 && title == 60) ||
                (SameEntry(a, b) && OtherProvider(a, b) && Points(q, all, b) >= 50) then Accepted(a)
        else NeedsCrossCheck(a)
  {
    assert a in all && b in all;
    assert forall c :: c in all <==> c == a || c == b;
    assert First(q, all, a);
    assert Contested(q, all, a) <==> Rival(q, all, a, b);
    assert SeenElsewhere(q, all, a) <==> SameEntry(a, b) && OtherProvider(a, b) && Points(q, all, b) >= 50;
    DecisionExactly(q, all, a);
  }

  lemma PairOrdered(q: Query, all: seq<Candidate>, a: Candidate, b: Candidate)
    requires a.ref != b.ref
    ensures Before(ScoreOf(q, all, a), ScoreOf(q, all, b)) || Before(ScoreOf(q, all, b), ScoreOf(q, all, a))
  {
    LessTotal(a.ref.provider, b.ref.provider);
    IdTotal(a.ref.id, b.ref.id);
  }

  // Two entries of one provider at most 8 points apart that are not arcs of a season are not told
  // apart; else the better one is judged by its points.
  lemma OneProviderTie(q: Query, all: seq<Candidate>, a: Candidate, b: Candidate)
    requires Pair(q, all, a, b) && a.ref.provider == b.ref.provider && !ArcsOfSeason(a, b)
    requires -8 <= Points(q, all, a) - Points(q, all, b) <= 8
    ensures Match(q, all) == NoMetadata
  {
    PairOrdered(q, all, a, b);
    if Before(ScoreOf(q, all, a), ScoreOf(q, all, b)) {
      PairDecision(q, all, a, b);
    } else {
      PairDecision(q, all, b, a);
    }
  }

  // Two records of one provider, alike but for ID and episode count and without anything else to
  // tell: the query's own count against another, or an unknown count against another, is accepted;
  // the query's own against an unknown one is too close, and so are two that fit equally well.
  lemma TwoOfOneProvider(q: Query, all: seq<Candidate>, a: Candidate, b: Candidate)
    requires Pair(q, all, a, b) && a.ref.provider == b.ref.provider && AlikeButEpisodes(a, b) && !ArcsOfSeason(a, b)
    requires TitleScore(q, all, a) == HIGH && q.season == a.season == "" && (q.year <= 0 || a.year <= 0)
    requires EpisodesFit(q, a) >= EpisodesFit(q, b)
    ensures Match(q, all) == if EpisodesFit(q, a) > EpisodesFit(q, b) == 0 then Accepted(a) else NoMetadata
  {
    AlikeTitles(q, all, a, b);
    if EpisodesFit(q, a) > EpisodesFit(q, b) == 0 {
      CloserEpisodesFirst(q, all, a, b);
      PairDecision(q, all, a, b);
    } else {
      OneProviderTie(q, all, a, b);
    }
  }

  // ----- providers -----

  function ProviderName(c: Candidate): string { Lower(TrimSpace(c.ref.provider)) }

  // Of equal scores, Bangumi's comes before AniList's, and AniList's before any other.
  lemma PreferredProviders(x: Scored, y: Scored)
    requires x.score == y.score
    requires var (p, r) := (ProviderName(x.candidate), ProviderName(y.candidate));
      (p == "bangumi" && r != p) || (p == "anilist" && r != p && r != "bangumi")
    ensures Before(x, y)
  {
    assert "bangumi"[0] != "anilist"[0];
  }

  // Two providers' records alike in everything else confirm each other: the preferred one is
  // accepted, whatever the hints say against it, from 50 points on.
  lemma TwoProvidersAgree(q: Query, all: seq<Candidate>, a: Candidate, b: Candidate)
    requires Pair(q, all, a, b) && b == a.(ref := b.ref) && OtherProvider(a, b) && (a.title != "" || a.native != "")
    requires Before(ScoreOf(q, all, a), ScoreOf(q, all, b))
    ensures Match(q, all) == if Points(q, all, a) >= 50 then Accepted(a) else NoMetadata
  {
    AlikeTitles(q, all, a, b);
    PairDecision(q, all, a, b);
  }

  // ----- arcs -----

  // Two arcs of one season in one provider's records are never in conflict; if one is a recap or
  // an extra, they are whenever they are close.
  lemma ArcsExactly(q: Query, all: seq<Candidate>, a: Candidate, b: Candidate)
    requires Pair(q, all, a, b) && a.ref.provider == b.ref.provider && a.season == b.season != ""
    requires Main(a.title) == Main(b.title) != "" && Subtitle(a.title) != "" && Subtitle(b.title) != ""
    requires -8 <= Points(q, all, a) - Points(q, all, b) <= 8
    requires Points(q, all, a) >= 50 && Points(q, all, b) >= 50
    ensures Match(q, all) == NoMetadata <==> SpecialArc(Subtitle(a.title)) || SpecialArc(Subtitle(b.title))
  {
    PairOrdered(q, all, a, b);
    if SpecialArc(Subtitle(a.title)) || SpecialArc(Subtitle(b.title)) {
      OneProviderTie(q, all, a, b);
    } else if Before(ScoreOf(q, all, a), ScoreOf(q, all, b)) {
      PairDecision(q, all, a, b);
    } else {
      PairDecision(q, all, b, a);
    }
  }

  // Words that mark an arc as special, in any case.
  predicate MarksSpecial(word: string) {
    word in ["ova", "oad", "sp", "\U{7279}\U{522B}", "\U{603B}\U{96C6}", "\U{5267}\U{573A}", "\U{8FF7}\U{4F60}"]
  }

  lemma {:induction false} SpecialExactly(arc: string)
    ensures SpecialArc(arc) <==> exists lo: nat, hi: nat :: lo <= hi <= |arc| && MarksSpecial(Fold(arc[lo..hi]))
  {
    if SpecialArc(arc) {
      var word := MarkIn(arc);
      WordsFolded(arc, word);
      var lo: nat, hi: nat :| FoldsTo(arc, lo, hi, word);
      assert MarksSpecial(Fold(arc[lo..hi]));
    }
    if lo: nat, hi: nat :| lo <= hi <= |arc| && MarksSpecial(Fold(arc[lo..hi])) {
      WordsFolded(arc, Fold(arc[lo..hi]));
      assert FoldsTo(arc, lo, hi, Fold(arc[lo..hi]));
      MarkedIsSpecial(arc, Fold(arc[lo..hi]));
    }
  }

  lemma MarkIn(arc: string) returns (word: string)
    requires SpecialArc(arc)
    ensures MarksSpecial(word) && Contains(Fold(arc), word)
  {
    word :| MarksSpecial(word) && Contains(Fold(arc), word);
  }

  lemma MarkedIsSpecial(arc: string, word: string)
    requires MarksSpecial(word) && Contains(Fold(arc), word)
    ensures SpecialArc(arc)
  {
  }

  predicate IsUpper(c: char) { 'A' <= c <= 'Z' }

  // Case is ignored for ASCII letters, and for the two other letters that fold to one.
  lemma FoldExactly(c: char, d: char)
    ensures FoldChar(c) == FoldChar(d) <==>
      || c == d
      || (IsUpper(c) && d as int == c as int + 32) || (IsUpper(d) && c as int == d as int + 32)
      || (c in "kK\U{212A}" && d in "kK\U{212A}") || (c in "sS\U{017F}" && d in "sS\U{017F}")
  {
  }

  ghost predicate FoldsTo(arc: string, lo: nat, hi: nat, word: string) {
    lo <= hi <= |arc| && Fold(arc[lo..hi]) == word
  }

  // A word occurs in the folded text where the text folds to it.
  lemma {:induction false} WordsFolded(arc: string, word: string)
    ensures Contains(Fold(arc), word) <==> exists lo: nat, hi: nat :: FoldsTo(arc, lo, hi, word)
  {
    FoldLength(arc);
    if Contains(Fold(arc), word) {
      var i: nat :| i <= |Fold(arc)| && OccursAt(Fold(arc), word, i);
      OccursFolded(arc, word, i);
      assert FoldsTo(arc, i, i + |word|, word);
    }
    if lo: nat, hi: nat :| FoldsTo(arc, lo, hi, word) {
      FoldLength(arc[lo..hi]);
      OccursFolded(arc, word, lo);
    }
  }

  lemma {:induction false} OccursFolded(arc: string, word: string, i: nat)
    ensures OccursAt(Fold(arc), word, i) <==> i + |word| <= |arc| && Fold(arc[i..i + |word|]) == word
  {
    FoldLength(arc);
    if i + |word| <= |arc| { FoldSlice(arc, i, i + |word|); }
  }

  lemma {:induction false} FoldLength(s: string)
    ensures |Fold(s)| == |s|
  {
    if s != "" { FoldLength(s[1..]); }
  }

  lemma {:induction false} FoldConcat(a: string, b: string)
    ensures Fold(a + b) == Fold(a) + Fold(b)
  {
    if a == "" {
      assert a + b == b;
    } else {
      assert (a + b)[1..] == a[1..] + b;
      FoldConcat(a[1..], b);
    }
  }

  lemma {:induction false} FoldSlice(s: string, lo: nat, hi: nat)
    requires lo <= hi <= |s|
    ensures |Fold(s)| == |s| && Fold(s)[lo..hi] == Fold(s[lo..hi])
  {
    var (a, b, c) := (s[..lo], s[lo..hi], s[hi..]);
    assert s == a + (b + c);
    FoldConcat(a, b + c);
    FoldConcat(b, c);
    FoldLength(s);
    FoldLength(a);
    FoldLength(b);
  }
}

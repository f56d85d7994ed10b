// The shared season listings: lookups of the same season join one fetch, successful listings stay
// cached, failed ones are dropped before anybody learns of them.
module SeasonCache {

  const MAX_CACHED: nat := 16

  datatype Season = Season(year: int, month: int)

  // Listings are opaque. Canceled is context.Canceled; other errors carry a code.
  datatype Outcome = Listing(id: int) | Canceled | Failed(code: int)

  // Answered: the result fields are set. Dropped: the failed entry is out of the cache. Closed:
  // done is closed and the waiting lookups may read the result.
  datatype Progress = Fetching | Answered(outcome: Outcome) | Dropped(outcome: Outcome) | Closed(outcome: Outcome)

  datatype Fetch = Fetch(season: Season, progress: Progress)

  datatype Phase = Asking | Waiting(fetch: nat) | Owning(fetch: nat) | Returned(outcome: Outcome)

  // ended: the lookup's own context has ended.
  datatype Lookup = Lookup(season: Season, ended: bool, phase: Phase)

  datatype State = State(seasons: map<Season, nat>, fetches: seq<Fetch>, lookups: seq<Lookup>)

  datatype Label =
    | Browse(season: Season)
    | End(lookup: nat)
    | Share(lookup: nat)
    | Answer(lookup: nat, outcome: Outcome)
    | Drop(lookup: nat)
    | CloseDone(lookup: nat)
    | Receive(lookup: nat)
    | Abandon(lookup: nat)

  const INITIAL := State(map[], [], [])

  // ----- the atomic steps -----

  predicate Finished(f: Fetch) { f.progress.Closed? }

  function Evict(seasons: map<Season, nat>, fetches: seq<Fetch>): (kept: map<Season, nat>)
    ensures forall k :: k in kept ==> k in seasons && kept[k] == seasons[k]
  {
    if |seasons| < MAX_CACHED then seasons
    else map k | k in seasons && !(seasons[k] < |fetches| && Finished(fetches[seasons[k]])) :: seasons[k]
  }

  function ShareStep(s: State, i: nat): State
    requires i < |s.lookups|
  {
    var l := s.lookups[i];
    if l.season in s.seasons then
      s.(lookups := s.lookups[i := l.(phase := Waiting(s.seasons[l.season]))])
    else
      s.(seasons := Evict(s.seasons, s.fetches)[l.season := |s.fetches|],
         fetches := s.fetches + [Fetch(l.season, Fetching)],
         lookups := s.lookups[i := l.(phase := Owning(|s.fetches|))])
  }

  // BrowseSeason's loop: a shared fetch that was cancelled is tried again while this lookup's own
  // context still runs.
  function Settle(l: Lookup, outcome: Outcome): Lookup {
    if outcome.Canceled? && !l.ended then l.(phase := Asking) else l.(phase := Returned(outcome))
  }

  function SetProgress(s: State, f: nat, p: Progress): State
    requires f < |s.fetches|
  {
    s.(fetches := s.fetches[f := s.fetches[f].(progress := p)])
  }

  predicate Enabled(s: State, l: Label) {
    l.Browse? ||
    (l.lookup < |s.lookups| && LookupEnabled(s, s.lookups[l.lookup], l))
  }

  predicate LookupEnabled(s: State, k: Lookup, l: Label) {
    match l
    case Browse(_) => false
    case End(_) => true
    case Share(_) => k.phase.Asking?
    case Answer(_, _) => k.phase.Owning? && k.phase.fetch < |s.fetches| && s.fetches[k.phase.fetch].progress.Fetching?
    case Drop(_) =>
      k.phase.Owning? && k.phase.fetch < |s.fetches| && s.fetches[k.phase.fetch].progress.Answered?
      && !s.fetches[k.phase.fetch].progress.outcome.Listing?
    case CloseDone(_) =>
      k.phase.Owning? && k.phase.fetch < |s.fetches|
      && (s.fetches[k.phase.fetch].progress.Dropped?
          || (s.fetches[k.phase.fetch].progress.Answered? && s.fetches[k.phase.fetch].progress.outcome.Listing?))
    case Receive(_) => k.phase.Waiting? && k.phase.fetch < |s.fetches| && Finished(s.fetches[k.phase.fetch])
    case Abandon(_) => k.phase.Waiting? && k.ended
  }

  function Step(s: State, l: Label): State {
    if !Enabled(s, l) then s
    else if l.Browse? then s.(lookups := s.lookups + [Lookup(l.season, false, Asking)])
    else
      var k := s.lookups[l.lookup];
      match l
      case End(i) => s.(lookups := s.lookups[i := k.(ended := true)])
      case Share(i) => ShareStep(s, i)
      case Answer(i, outcome) => SetProgress(s, k.phase.fetch, Answered(outcome))
      case Drop(i) =>
        SetProgress(s, k.phase.fetch, Dropped(s.fetches[k.phase.fetch].progress.outcome))
          .(seasons := s.seasons - {k.season})
      case CloseDone(i) =>
        var outcome := s.fetches[k.phase.fetch].progress.outcome;
        SetProgress(s, k.phase.fetch, Closed(outcome)).(lookups := s.lookups[i := Settle(k, outcome)])
      case Receive(i) => s.(lookups := s.lookups[i := Settle(k, s.fetches[k.phase.fetch].progress.outcome)])
      case Abandon(i) => s.(lookups := s.lookups[i := Settle(k, Canceled)])
  }

  function Run(labels: seq<Label>): State {
    if labels == [] then INITIAL else Step(Run(labels[..|labels| - 1]), labels[|labels| - 1])
  }

  // ----- the invariant -----

  // A fetch that is not finished and not dropped is the cache's entry for its season.
  ghost predicate Cached(s: State, f: nat)
    requires f < |s.fetches|
  {
    s.fetches[f].progress.Fetching? || s.fetches[f].progress.Answered? ==>
      s.fetches[f].season in s.seasons && s.seasons[s.fetches[f].season] == f
  }

  // An entry of the cache is a fetch of its season that is under way or has succeeded.
  ghost predicate EntryInv(s: State, k: Season)
    requires k in s.seasons
  {
    var f := s.seasons[k];
    && f < |s.fetches| && s.fetches[f].season == k
    && !s.fetches[f].progress.Dropped?
    && (s.fetches[f].progress.Closed? ==> s.fetches[f].progress.outcome.Listing?)
  }

  ghost predicate Known(s: State, season: Season, outcome: Outcome) {
    exists f :: 0 <= f < |s.fetches| && s.fetches[f].season == season && s.fetches[f].progress == Closed(outcome)
  }

  ghost predicate LookupInv(s: State, k: Lookup) {
    && (k.phase.Waiting? || k.phase.Owning? ==>
          k.phase.fetch < |s.fetches| && s.fetches[k.phase.fetch].season == k.season)
    && (k.phase.Owning? ==> !Finished(s.fetches[k.phase.fetch]))
    && (k.phase.Returned? ==>
          && (k.phase.outcome.Canceled? ==> k.ended)
          && (Known(s, k.season, k.phase.outcome) || (k.phase.outcome.Canceled? && k.ended)))
  }

  ghost predicate OneOwner(s: State) {
    forall i, j :: 0 <= i < j < |s.lookups| && s.lookups[i].phase.Owning? && s.lookups[j].phase.Owning? ==>
      s.lookups[i].phase.fetch != s.lookups[j].phase.fetch
  }

  ghost predicate Inv(s: State) {
    && (forall f :: 0 <= f < |s.fetches| ==> Cached(s, f))
    && (forall k :: k in s.seasons ==> EntryInv(s, k))
    && (forall i :: 0 <= i < |s.lookups| ==> LookupInv(s, s.lookups[i]))
    && OneOwner(s)
  }

  // Results are final: a closed fetch never changes, and fetches are only added.
  ghost predicate Extends(s: State, s': State) {
    && |s.fetches| <= |s'.fetches|
    && (forall f :: 0 <= f < |s.fetches| ==>
          && s'.fetches[f].season == s.fetches[f].season
          && (Finished(s.fetches[f]) ==> s'.fetches[f] == s.fetches[f]))
  }

  lemma StepKeepsCache(s: State, l: Label)
    requires Inv(s)
    ensures var s' := Step(s, l); forall f :: 0 <= f < |s'.fetches| ==> Cached(s', f)
    ensures var s' := Step(s, l); forall k :: k in s'.seasons ==> EntryInv(s', k)
  {
    var s' := Step(s, l);
    if Enabled(s, l) && !l.Browse? {
      var k := s.lookups[l.lookup];
      assert LookupInv(s, k);
      if k.phase.Owning? { assert Cached(s, k.phase.fetch); }
    }
    forall f | 0 <= f < |s'.fetches| ensures Cached(s', f) {
      if f < |s.fetches| { assert Cached(s, f); }
    }
    forall c | c in s'.seasons ensures EntryInv(s', c) {
      if c in s.seasons { assert EntryInv(s, c); }
    }
  }

  lemma StepKeepsLookups(s: State, l: Label)
    requires Inv(s)
    ensures var s' := Step(s, l); forall i :: 0 <= i < |s'.lookups| ==> LookupInv(s', s'.lookups[i])
    ensures OneOwner(Step(s, l))
  {
    var s' := Step(s, l);
    forall i | 0 <= i < |s'.lookups| ensures LookupInv(s', s'.lookups[i]) {
      if i < |s.lookups| {
        LookupKept(s, l, i);
      }
    }
    if Enabled(s, l) && l.Share? {
      forall i | 0 <= i < |s.lookups| && s.lookups[i].phase.Owning? ensures s.lookups[i].phase.fetch < |s.fetches| {
        assert LookupInv(s, s.lookups[i]);
      }
    }
  }

  lemma KnownStays(s: State, s': State, season: Season, outcome: Outcome)
    requires Extends(s, s') && Known(s, season, outcome)
    ensures Known(s', season, outcome)
  {
    var f :| 0 <= f < |s.fetches| && s.fetches[f].season == season && s.fetches[f].progress == Closed(outcome);
    assert s'.fetches[f] == s.fetches[f];
  }

  lemma LookupKept(s: State, l: Label, i: nat)
    requires Inv(s) && i < |s.lookups| && Extends(s, Step(s, l))
    ensures LookupInv(Step(s, l), Step(s, l).lookups[i])
  {
    var s' := Step(s, l);
    var k := s.lookups[i];
    assert LookupInv(s, k);
    if Enabled(s, l) && !l.Browse? {
      assert LookupInv(s, s.lookups[l.lookup]);
      if k.phase.Returned? && Known(s, k.season, k.phase.outcome) {
        KnownStays(s, s', k.season, k.phase.outcome);
      }
    }
  }

  lemma StepKeepsInv(s: State, l: Label)
    requires Inv(s)
    ensures Inv(Step(s, l))
  {
    StepKeepsCache(s, l);
    StepKeepsLookups(s, l);
  }

  lemma {:induction false} RunKeepsInv(labels: seq<Label>)
    ensures Inv(Run(labels))
  {
    if labels != [] {
      RunKeepsInv(labels[..|labels| - 1]);
      StepKeepsInv(Run(labels[..|labels| - 1]), labels[|labels| - 1]);
    }
  }

  // ----- what lookups rely on -----

  // At most one fetch per season is in flight, and the cache knows it.
  lemma SingleFlight(labels: seq<Label>, f: nat, g: nat)
    requires var s := Run(labels);
             && f < |s.fetches| && g < |s.fetches| && s.fetches[f].season == s.fetches[g].season
             && s.fetches[f].progress.Fetching? && s.fetches[g].progress.Fetching?
    ensures f == g
    ensures Run(labels).fetches[f].season in Run(labels).seasons
  {
    RunKeepsInv(labels);
    assert Cached(Run(labels), f) && Cached(Run(labels), g);
  }

  // A finished entry of the cache is a listing; a failed fetch is never found there once done is
  // closed.
  lemma NoFailureCached(labels: seq<Label>, k: Season)
    requires k in Run(labels).seasons
    ensures var s := Run(labels);
            && s.seasons[k] < |s.fetches| && s.fetches[s.seasons[k]].season == k
            && (Finished(s.fetches[s.seasons[k]]) ==> s.fetches[s.seasons[k]].progress.outcome.Listing?)
  {
    RunKeepsInv(labels);
    assert EntryInv(Run(labels), k);
  }

  // Making room never removes an entry whose fetch is not finished.
  lemma EvictionKeepsUnfinished(labels: seq<Label>, l: Label, k: Season)
    requires var s := Run(labels);
             l.Share? && k in s.seasons && s.seasons[k] < |s.fetches| && !Finished(s.fetches[s.seasons[k]])
    ensures k in Step(Run(labels), l).seasons && Step(Run(labels), l).seasons[k] == Run(labels).seasons[k]
  {
    RunKeepsInv(labels);
  }

  // The delete after a failure removes exactly the failed fetch's own entry.
  lemma DropRemovesOwnEntry(labels: seq<Label>, i: nat)
    requires Enabled(Run(labels), Drop(i))
    ensures var s := Run(labels);
            var k := s.lookups[i];
            && k.season in s.seasons && s.seasons[k.season] == k.phase.fetch
            && Step(s, Drop(i)).seasons == s.seasons - {k.season}
  {
    RunKeepsInv(labels);
    var s := Run(labels);
    assert LookupInv(s, s.lookups[i]);
    assert Cached(s, s.lookups[i].phase.fetch);
  }

  // Every lookup returns the outcome of a finished fetch of its season, or its own cancellation;
  // somebody else's cancellation is never returned while the lookup's own context runs.
  lemma LookupsReturnTheirFetch(labels: seq<Label>, i: nat)
    requires i < |Run(labels).lookups| && Run(labels).lookups[i].phase.Returned?
    ensures var s := Run(labels);
            var k := s.lookups[i];
            && (k.phase.outcome.Canceled? ==> k.ended)
            && (Known(s, k.season, k.phase.outcome) || (k.phase.outcome.Canceled? && k.ended))
  {
    RunKeepsInv(labels);
    assert LookupInv(Run(labels), Run(labels).lookups[i]);
  }

  // A waiting lookup receives the result of the very fetch it joined, and if it tries again it
  // cannot meet that fetch a second time.
  lemma WaiterReceivesItsFetch(labels: seq<Label>, i: nat)
    requires Enabled(Run(labels), Receive(i))
    ensures var s, s' := Run(labels), Step(Run(labels), Receive(i));
            var k := s.lookups[i];
            && s.fetches[k.phase.fetch].season == k.season
            && (s'.lookups[i].phase == Returned(s.fetches[k.phase.fetch].progress.outcome)
                || (s'.lookups[i].phase.Asking? && s.fetches[k.phase.fetch].progress.outcome.Canceled?
                    && !(k.season in s'.seasons && s'.seasons[k.season] == k.phase.fetch)))
  {
    RunKeepsInv(labels);
    var s := Run(labels);
    var k := s.lookups[i];
    assert LookupInv(s, k);
    if k.season in s.seasons { assert EntryInv(s, k.season); }
  }

  // ----- the client object -----

  class Client {
    var seasons: map<Season, nat>
    var fetches: seq<Fetch>
    var lookups: seq<Lookup>

    ghost function View(): State
      reads this
    {
      State(seasons, fetches, lookups)
    }

    constructor ()
      ensures View() == INITIAL
    {
      seasons, fetches, lookups := map[], [], [];
    }

    method EvictFinished()
      modifies this`seasons
      ensures seasons == Evict(old(seasons), fetches)
    {
      if |seasons| < MAX_CACHED {
        return;
      }
      var others := seasons.Keys;
      while others != {}
        invariant others <= old(seasons).Keys
        invariant forall k :: k in seasons ==> k in old(seasons) && seasons[k] == old(seasons)[k]
        invariant forall k :: k in others ==> k in seasons
        invariant forall k :: k in old(seasons) && k !in others ==>
                    (k in seasons <==> !(old(seasons)[k] < |fetches| && Finished(fetches[old(seasons)[k]])))
        decreases others
      {
        var other :| other in others;
        others := others - {other};
        if seasons[other] < |fetches| && fetches[seasons[other]].progress.Closed? {
          seasons := seasons - {other};
        }
      }
    }

    // The locked part of sharedSeason; found is true for a lookup that will wait.
    method ShareSeason(i: nat) returns (found: bool)
      requires i < |lookups| && lookups[i].phase.Asking?
      modifies this
      ensures View() == Step(old(View()), Share(i))
      ensures found <==> old(lookups[i].season in seasons)
    {
      var k := lookups[i].season;
      found := k in seasons;
      if found {
        lookups := lookups[i := lookups[i].(phase := Waiting(seasons[k]))];
        return;
      }
      EvictFinished();
      seasons := seasons[k := |fetches|];
      lookups := lookups[i := lookups[i].(phase := Owning(|fetches|))];
      fetches := fetches + [Fetch(k, Fetching)];
    }

    // A failed fetch is not kept.
    method DropFailed(i: nat)
      requires Enabled(View(), Drop(i))
      modifies this
      ensures View() == Step(old(View()), Drop(i))
    {
      var f := lookups[i].phase.fetch;
      seasons := seasons - {lookups[i].season};
      fetches := fetches[f := fetches[f].(progress := Dropped(fetches[f].progress.outcome))];
    }

    // close(done), and the owner's own result.
    method FinishFetch(i: nat)
      requires Enabled(View(), CloseDone(i))
      modifies this
      ensures View() == Step(old(View()), CloseDone(i))
    {
      var f := lookups[i].phase.fetch;
      var outcome := fetches[f].progress.outcome;
      fetches := fetches[f := fetches[f].(progress := Closed(outcome))];
      lookups := lookups[i := Settle(lookups[i], outcome)];
    }
  }
}

// What the season cache keeps, and that every lookup returns.
module SeasonProgress {
  import opened Sequences
  import opened SeasonCache

  lemma RunMore(labels: seq<Label>, l: Label)
    ensures Run(labels + [l]) == Step(Run(labels), l)
  {
    assert (labels + [l])[..|labels|] == labels;
  }

  // ----- what stays cached -----

  // An entry leaves the cache only when its fetch has failed, or, once it is finished, to make
  // room for another season while 16 or more are cached.
  lemma EntryStays(labels: seq<Label>, l: Label, k: Season)
    requires k in Run(labels).seasons
    ensures var (s, t) := (Run(labels), Step(Run(labels), l));
      (k in t.seasons && t.seasons[k] == s.seasons[k]) ||
      (Enabled(s, l) && l.Drop? && s.lookups[l.lookup].season == k && s.seasons[k] < |s.fetches| &&
       WasAnswered(s.fetches[s.seasons[k]].progress) && !s.fetches[s.seasons[k]].progress.outcome.Listing?) ||
      (Enabled(s, l) && l.Share? && s.lookups[l.lookup].season !in s.seasons && |s.seasons| >= 16 &&
       s.seasons[k] < |s.fetches| && s.fetches[s.seasons[k]].progress.Closed?)
  {
    RunKeepsInv(labels);
    var s := Run(labels);
    assert EntryInv(s, k);
    if Enabled(s, l) && l.Drop? {
      assert LookupInv(s, s.lookups[l.lookup]);
      assert Cached(s, s.lookups[l.lookup].phase.fetch);
    }
  }

  predicate WasAnswered(p: Progress) { !p.Fetching? }

  // A lookup of a cached season joins its fetch and starts none; any other lookup starts one, for
  // which room is made first: fewer than 16 were cached, or all that are left are unfinished.
  lemma SharedExactly(labels: seq<Label>, i: nat)
    requires Enabled(Run(labels), Share(i))
    ensures var (s, t) := (Run(labels), Step(Run(labels), Share(i)));
      var season := s.lookups[i].season;
      if season in s.seasons then
        t == s.(lookups := s.lookups[i := Lookup(season, s.lookups[i].ended, Waiting(s.seasons[season]))])
      else
        && t.fetches == s.fetches + [Fetch(season, Fetching)]
        && t.lookups == s.lookups[i := Lookup(season, s.lookups[i].ended, Owning(|s.fetches|))]
        && season in t.seasons && t.seasons[season] == |s.fetches|
        && (|s.seasons| < 16 || forall k :: k in t.seasons && k != season ==>
              t.seasons[k] < |s.fetches| && !s.fetches[t.seasons[k]].progress.Closed?)
  {
    RunKeepsInv(labels);
    var s := Run(labels);
    forall k | k in s.seasons ensures s.seasons[k] < |s.fetches| { assert EntryInv(s, k); }
  }

  // ----- nobody waits for a fetch without an owner -----

  ghost predicate Owned(s: State, f: nat) {
    exists i :: 0 <= i < |s.lookups| && s.lookups[i].phase == Owning(f)
  }

  ghost predicate AllOwned(s: State) {
    forall f: nat :: f < |s.fetches| && !s.fetches[f].progress.Closed? ==> Owned(s, f)
  }

  lemma OwnerStays(s: State, l: Label, f: nat)
    requires Inv(s) && f < |s.fetches| && Owned(s, f) && !Step(s, l).fetches[f].progress.Closed?
    ensures Owned(Step(s, l), f)
  {
    var t := Step(s, l);
    var i :| 0 <= i < |s.lookups| && s.lookups[i].phase == Owning(f);
    assert LookupInv(s, s.lookups[i]);
    if Enabled(s, l) && !l.Browse? && l.lookup == i {
      assert t.lookups[i].phase == Owning(f);
    } else if i < |t.lookups| {
      assert t.lookups[i].phase == Owning(f);
    }
  }

  lemma StepKeepsOwned(s: State, l: Label)
    requires Inv(s) && AllOwned(s)
    ensures AllOwned(Step(s, l))
  {
    var t := Step(s, l);
    forall f: nat | f < |t.fetches| && !t.fetches[f].progress.Closed? ensures Owned(t, f) {
      if f < |s.fetches| {
        OwnerStays(s, l, f);
      } else {
        assert t.lookups[l.lookup].phase == Owning(f);
      }
    }
  }

  lemma {:induction false} RunKeepsOwned(labels: seq<Label>)
    ensures AllOwned(Run(labels))
  {
    if labels != [] {
      RunKeepsInv(labels[..|labels| - 1]);
      RunKeepsOwned(labels[..|labels| - 1]);
      StepKeepsOwned(Run(labels[..|labels| - 1]), labels[|labels| - 1]);
    }
  }

  // ----- every lookup returns -----

  // A step of a lookup that goes on: no new lookup, no end of a context.
  predicate IsOwnStep(l: Label) { !l.Browse? && !l.End? && !l.Abandon? }

  predicate WasCanceled(p: Progress) { !p.Fetching? && p.outcome.Canceled? }

  // A bound on the steps that a lookup has left, if no further fetch is cancelled.
  function Left(fetches: seq<Fetch>, k: Lookup): nat {
    match k.phase
    case Asking => 6
    case Returned(_) => 0
    case Waiting(f) => if f < |fetches| && WasCanceled(fetches[f].progress) then 7 else 1
    case Owning(f) =>
      if f >= |fetches| then 0
      else
        (if WasCanceled(fetches[f].progress) then 6 else 0) +
        match fetches[f].progress
        case Fetching => 5
        case Answered(_) => 4
        case Dropped(_) => 3
        case Closed(_) => 0
  }

  function Weight(fetches: seq<Fetch>): Lookup -> nat { (k: Lookup) => Left(fetches, k) }

  ghost function LeftOf(s: State): nat { Sum(s.lookups, Weight(s.fetches)) }

  // No fetch is under way.
  predicate Quiet(s: State) { forall f :: 0 <= f < |s.fetches| ==> s.fetches[f].progress.Closed? }

  // A step that brings its lookup on: no further fetch is cancelled, and a lookup looks into the
  // cache only when no fetch is under way.
  predicate Moves(s: State, l: Label) {
    IsOwnStep(l) && Enabled(s, l) && (l.Answer? ==> !l.outcome.Canceled?) && (l.Share? ==> Quiet(s))
  }

  // Another lookup has as many left as before.
  lemma OthersUnmoved(s: State, l: Label, k: Lookup)
    requires Inv(s) && Moves(s, l) && LookupInv(s, k)
    requires k.phase.Owning? && s.lookups[l.lookup].phase.Owning? ==> k.phase.fetch != s.lookups[l.lookup].phase.fetch
    ensures Left(Step(s, l).fetches, k) == Left(s.fetches, k)
  {
    assert LookupInv(s, s.lookups[l.lookup]);
  }

  lemma LookupProceeds(s: State, l: Label)
    requires Inv(s) && Moves(s, l)
    ensures |Step(s, l).lookups| == |s.lookups|
    ensures Left(Step(s, l).fetches, Step(s, l).lookups[l.lookup]) < Left(s.fetches, s.lookups[l.lookup])
    ensures forall i :: 0 <= i < |s.lookups| && i != l.lookup ==> Step(s, l).lookups[i] == s.lookups[i]
  {
    assert LookupInv(s, s.lookups[l.lookup]);
    if l.Share? && s.lookups[l.lookup].season in s.seasons { assert EntryInv(s, s.lookups[l.lookup].season); }
  }

  lemma {:induction false} SumSmaller(a: seq<Lookup>, b: seq<Lookup>, v: Lookup -> nat, w: Lookup -> nat, i: nat)
    requires |a| == |b| && i < |a| && v(a[i]) < w(b[i])
    requires forall j :: 0 <= j < |a| && j != i ==> v(a[j]) == w(b[j])
    ensures Sum(a, v) < Sum(b, w)
  {
    if i == 0 {
      SumEqual(a[1..], b[1..], v, w);
    } else {
      SumSmaller(a[1..], b[1..], v, w, i - 1);
    }
  }

  lemma {:induction false} SumEqual(a: seq<Lookup>, b: seq<Lookup>, v: Lookup -> nat, w: Lookup -> nat)
    requires |a| == |b| && forall j :: 0 <= j < |a| ==> v(a[j]) == w(b[j])
    ensures Sum(a, v) == Sum(b, w)
  {
    if a != [] { SumEqual(a[1..], b[1..], v, w); }
  }

  lemma StepLeavesLess(s: State, l: Label)
    requires Inv(s) && Moves(s, l)
    ensures LeftOf(Step(s, l)) < LeftOf(s)
  {
    var t := Step(s, l);
    LookupProceeds(s, l);
    forall j | 0 <= j < |s.lookups| && j != l.lookup
      ensures Weight(t.fetches)(t.lookups[j]) == Weight(s.fetches)(s.lookups[j])
    {
      assert LookupInv(s, s.lookups[j]);
      OthersUnmoved(s, l, s.lookups[j]);
    }
    SumSmaller(t.lookups, s.lookups, Weight(t.fetches), Weight(s.fetches), l.lookup);
  }

  // The owner of a fetch can go on with it.
  lemma OwnerProceeds(s: State, i: nat, outcome: Outcome) returns (l: Label)
    requires Inv(s) && i < |s.lookups| && s.lookups[i].phase.Owning? && !outcome.Canceled?
    ensures Moves(s, l)
  {
    assert LookupInv(s, s.lookups[i]);
    l := match s.fetches[s.lookups[i].phase.fetch].progress
      case Fetching => Answer(i, outcome)
      case Answered(o) => if o.Listing? then CloseDone(i) else Drop(i)
      case _ => CloseDone(i);
  }

  // While a lookup has not returned, an owner can go on with its fetch, or, if there is none, the
  // lookup itself can.
  lemma LookupMayMove(s: State, i: nat, outcome: Outcome) returns (l: Label)
    requires Inv(s) && AllOwned(s) && i < |s.lookups| && !s.lookups[i].phase.Returned? && !outcome.Canceled?
    ensures Moves(s, l)
  {
    assert LookupInv(s, s.lookups[i]);
    if f: nat :| f < |s.fetches| && !s.fetches[f].progress.Closed? {
      assert Owned(s, f);
      var j :| 0 <= j < |s.lookups| && s.lookups[j].phase == Owning(f);
      l := OwnerProceeds(s, j, outcome);
    } else {
      l := if s.lookups[i].phase.Asking? then Share(i) else Receive(i);
    }
  }

  predicate AllReturned(s: State) { forall i :: 0 <= i < |s.lookups| ==> s.lookups[i].phase.Returned? }

  lemma Joined(labels: seq<Label>, l: Label, rest: seq<Label>) returns (more: seq<Label>)
    requires IsOwnStep(l) && forall k :: k in rest ==> IsOwnStep(k)
    ensures labels + more == labels + [l] + rest && forall k :: k in more ==> IsOwnStep(k)
  {
    more := [l] + rest;
    assert labels + more == labels + [l] + rest;
  }

  // From every reachable state all lookups return by steps of their own, as soon as fetches end
  // with a listing or an error of their own.
  lemma {:induction false} LookupsReturn(labels: seq<Label>, outcome: Outcome) returns (more: seq<Label>)
    requires !outcome.Canceled?
    ensures forall l :: l in more ==> IsOwnStep(l)
    ensures AllReturned(Run(labels + more))
    decreases LeftOf(Run(labels))
  {
    var s := Run(labels);
    RunKeepsInv(labels);
    RunKeepsOwned(labels);
    if AllReturned(s) {
      more := [];
      assert labels + more == labels;
    } else {
      var i :| 0 <= i < |s.lookups| && !s.lookups[i].phase.Returned?;
      var l := LookupMayMove(s, i, outcome);
      StepLeavesLess(s, l);
      RunMore(labels, l);
      var rest := LookupsReturn(labels + [l], outcome);
      more := Joined(labels, l, rest);
    }
  }

  // ----- what a lookup answers -----

  // The owner of a fetch that went through answers with its outcome, and so does everybody who
  // waited for it; a cancelled fetch is looked up again by those whose own context still runs.
  lemma OutcomeExactly(labels: seq<Label>, i: nat, l: Label)
    requires Enabled(Run(labels), l) && (l == CloseDone(i) || l == Receive(i))
    ensures var (s, t) := (Run(labels), Step(Run(labels), l));
      var k := s.lookups[i];
      && k.phase.fetch < |s.fetches| && !s.fetches[k.phase.fetch].progress.Fetching?
      && var outcome := s.fetches[k.phase.fetch].progress.outcome;
      t.lookups[i] == Lookup(k.season, k.ended, if outcome == Canceled && !k.ended then Asking else Returned(outcome))
  {
  }

  // ----- a lookup's own context -----

  // The seasons that were looked up, in order.
  function Asked(labels: seq<Label>): seq<Season> {
    if labels == [] then []
    else
      var rest, l := labels[..|labels| - 1], labels[|labels| - 1];
      Asked(rest) + if l.Browse? then [l.season] else []
  }

  // The context of the i-th lookup ended.
  predicate HasEnded(labels: seq<Label>, i: nat) {
    labels != [] &&
    var rest, l := labels[..|labels| - 1], labels[|labels| - 1];
    HasEnded(rest, i) || (l == End(i) && i < |Asked(rest)|)
  }

  ghost predicate AsAsked(labels: seq<Label>, s: State) {
    && |s.lookups| == |Asked(labels)|
    && (forall i: nat :: i < |s.lookups| ==>
          s.lookups[i].season == Asked(labels)[i] && (s.lookups[i].ended <==> HasEnded(labels, i)))
    && (forall i: nat :: i >= |s.lookups| ==> !HasEnded(labels, i))
  }

  lemma StepAsks(s: State, l: Label)
    ensures var t := Step(s, l);
      && |t.lookups| == |s.lookups| + (if l.Browse? then 1 else 0)
      && (l.Browse? ==> t.lookups[|s.lookups|].season == l.season && !t.lookups[|s.lookups|].ended)
      && forall i: nat :: i < |s.lookups| ==>
           t.lookups[i].season == s.lookups[i].season && (t.lookups[i].ended <==> s.lookups[i].ended || l == End(i))
  {
  }

  // Over every run: there is a lookup for each that was asked for, with its season, and it counts
  // as ended exactly since its context ended.
  lemma {:induction false} LookupsAreAsked(labels: seq<Label>)
    ensures AsAsked(labels, Run(labels))
  {
    if labels != [] {
      var rest, l := labels[..|labels| - 1], labels[|labels| - 1];
      LookupsAreAsked(rest);
      StepAsks(Run(rest), l);
    }
  }

  lemma AbandonStep(s: State, i: nat)
    requires i < |s.lookups| && s.lookups[i].phase.Waiting?
    ensures var k := s.lookups[i];
      Step(s, Abandon(i)).lookups ==
        if k.ended then s.lookups[i := Lookup(k.season, true, Returned(Canceled))] else s.lookups
  {
  }

  // A lookup that waits for another's fetch need not, once its own context has ended.
  lemma EndedMayLeave(labels: seq<Label>, i: nat)
    requires i < |Run(labels).lookups| && Run(labels).lookups[i].phase.Waiting?
    ensures i < |Asked(labels)|
    ensures Run(labels + [Abandon(i)]).lookups ==
      if HasEnded(labels, i) then Run(labels).lookups[i := Lookup(Asked(labels)[i], true, Returned(Canceled))]
      else Run(labels).lookups
  {
    LookupsAreAsked(labels);
    AbandonStep(Run(labels), i);
    RunMore(labels, Abandon(i));
  }
}

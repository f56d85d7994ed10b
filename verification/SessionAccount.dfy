// The tracked session against an account kept from the labels alone: what happened to the current
// and to the pending episode, in order, and what the relay is owed.
module SessionAccount {
  import opened Options
  import opened PlaybackEvents
  import opened Session

  // Something that happened to an episode: an event of it was heard, or its snapshot was read.
  datatype Deed = Heard(event: Event) | Read(snapshot: Snapshot)

  datatype Episode = Episode(request: Request, deeds: seq<Deed>, buffer: seq<Event>)

  // changes counts what makes a checkpoint necessary; given is what the relay was promised.
  datatype Account = Account(now: Episode, next: Option<Episode>, owner: nat, changes: nat, given: seq<Item>)

  // ----- what an episode's deeds say -----

  function LastDeed(e: Episode): Deed
    requires e.deeds != []
  {
    e.deeds[|e.deeds| - 1]
  }

  // The last deed decides what is shown of the episode; before the first one its request does.
  function ShotOf(e: Episode): Snapshot {
    if e.deeds == [] then Snapshot(e.request.startAt, 0, e.request.paused)
    else
      match LastDeed(e)
      case Heard(event) => Snapshot(event.position, event.duration, event.kind == Paused)
      case Read(snapshot) => snapshot
  }

  predicate Over(e: Episode) {
    e.deeds != [] && LastDeed(e).Heard? && LastDeed(e).event.kind in {Ended, Stopped, Failed}
  }

  predicate NearEnd(position: int, duration: int) { 0 <= position && 0 < duration && 9 * duration <= 10 * position }

  predicate Finishes(d: Deed) {
    match d
    case Heard(event) => event.kind == Ended || NearEnd(event.position, event.duration)
    case Read(snapshot) => NearEnd(snapshot.position, snapshot.duration)
  }

  // One of the deeds shows that the episode was watched to the end.
  ghost predicate Watched(e: Episode) { exists i :: 0 <= i < |e.deeds| && Finishes(e.deeds[i]) }

  predicate Urges(d: Deed) { d.Heard? && d.event.kind in {Paused, Ended, Stopped, Failed} }

  // One of the events must be saved soon: a pause or an end.
  ghost predicate Due(e: Episode) { exists i :: 0 <= i < |e.deeds| && Urges(e.deeds[i]) }

  function With(e: Episode, d: Deed): Episode { e.(deeds := e.deeds + [d]) }

  predicate Of(event: Event, e: Episode) { event.anime == e.request.anime && event.episode == e.request.episode }

  // ----- keeping the account -----

  // An event goes to the episode that is being loaded, if it is one of it, else to the playing one.
  function EnterEvent(a: Account, event: Event): Account {
    if event.position < 0 || event.duration < 0 then a
    else if a.next.Some? && Of(event, a.next.value) then
      if Over(a.next.value) then a
      else a.(next := Some(With(a.next.value, Heard(event)).(buffer := AppendPending(a.next.value.buffer, event))))
    else if Of(event, a.now) && !Over(a.now) then
      a.(now := With(a.now, Heard(event)), changes := a.changes + 1, given := a.given + [Item(event, a.owner)])
    else a
  }

  function EnterReading(a: Account, s: Snapshot): Account {
    if s.position < 0 || s.duration < 0 || Over(a.now) then a
    else a.(now := With(a.now, Read(s)), changes := if s == ShotOf(a.now) then a.changes else a.changes + 1)
  }

  function EnterCommit(a: Account): Account
    requires a.next.Some?
  {
    var buffer := a.next.value.buffer;
    Account(a.next.value.(buffer := []), None, a.owner + 1, a.changes + 1, a.given + Tag(buffer, a.owner + 1))
  }

  function Enter(a: Account, l: Label): Account {
    match l
    case Begin(request) => a.(next := Some(Episode(request, [], [])))
    case Discard => a.(next := None)
    case Commit => if a.next.Some? then EnterCommit(a) else a
    case Observe(event) => EnterEvent(a, event)
    case Refresh(reading) => if reading.Some? then EnterReading(a, reading.value) else a
    case _ => a
  }

  function Opened(request: Request): Account { Account(Episode(request, [], []), None, 1, 0, []) }

  // The account of a run: its executed labels, entered one after another.
  function AccountOf(request: Request, labels: seq<Label>): Account {
    if labels == [] then Opened(request)
    else
      var rest, l := labels[..|labels| - 1], labels[|labels| - 1];
      if Enabled(Run(request, rest), l) then Enter(AccountOf(request, rest), l) else AccountOf(request, rest)
  }

  // ----- the session agrees with it -----

  ghost predicate Tells(t: Tracked, e: Episode, foreign: bool) {
    && t.request == e.request && t.snapshot == ShotOf(e) && (t.terminal <==> Over(e))
    && (t.completed <==> Watched(e) || foreign)
  }

  ghost predicate TellsNext(p: Pending, e: Episode, owner: nat) {
    && Tells(p.tracked, e, false) && p.tracked.owner == owner + 1
    && p.events == e.buffer && (p.checkpoint <==> Due(e))
  }

  // Everything the relay was given or is still going to be given by the holder of deliveryMu.
  function Owed(s: State): seq<Item> {
    match s.delivery
    case Free => s.emitted
    case Observed(event, owner) => if owner == s.current.owner then s.emitted + [Item(event, owner)] else s.emitted
    case Publishing(items) => s.emitted + items
  }

  ghost predicate Agrees(s: State, a: Account) {
    && Tells(s.current, a.now, s.foreign) && s.current.owner == a.owner
    && s.generation == a.changes + 1
    && (s.pending.Some? <==> a.next.Some?)
    && (s.pending.Some? ==> TellsNext(s.pending.value, a.next.value, a.owner))
  }

  lemma WithHeard(t: Tracked, e: Episode, event: Event, foreign: bool)
    requires Tells(t, e, foreign)
    ensures Tells(Apply(t, event), With(e, Heard(event)), foreign)
    ensures Due(With(e, Heard(event))) <==> Due(e) || IsCheckpointBoundary(event.kind)
  {
    var after := With(e, Heard(event));
    DeedAdded(e, Heard(event));
    assert LastDeed(after) == Heard(event);
  }

  lemma DeedAdded(e: Episode, d: Deed)
    ensures Watched(With(e, d)) <==> Watched(e) || Finishes(d)
    ensures Due(With(e, d)) <==> Due(e) || Urges(d)
  {
    var after := With(e, d).deeds;
    assert after[|e.deeds|] == d && forall i :: 0 <= i < |e.deeds| ==> after[i] == e.deeds[i];
    if i :| 0 <= i < |e.deeds| && Finishes(e.deeds[i]) { assert Finishes(after[i]); }
    if i :| 0 <= i < |e.deeds| && Urges(e.deeds[i]) { assert Urges(after[i]); }
  }

  lemma EventAgrees(s: State, a: Account, event: Event)
    requires Agrees(s, a)
    ensures Agrees(ObserveStep(s, event), EnterEvent(a, event))
  {
    WithHeard(s.current, a.now, event, s.foreign);
    if s.pending.Some? { WithHeard(s.pending.value.tracked, a.next.value, event, false); }
  }

  lemma EventOwes(s: State, a: Account, event: Event)
    requires Agrees(s, a) && s.delivery.Free? && s.emitted == a.given
    ensures Owed(ObserveStep(s, event)) == EnterEvent(a, event).given
  {
  }

  lemma ReadingAgrees(s: State, a: Account, reading: Snapshot)
    requires Agrees(s, a) && CompletedInv(s)
    ensures Agrees(RefreshStep(s, Some(reading)), EnterReading(a, reading))
  {
    DeedAdded(a.now, Read(reading));
    assert LastDeed(With(a.now, Read(reading))) == Read(reading);
  }

  lemma NewEpisode(request: Request, owner: nat)
    ensures Tells(NewTracked(request, owner), Episode(request, [], []), false) && !Due(Episode(request, [], []))
  {
  }

  lemma CommitAgrees(s: State, a: Account)
    requires Agrees(s, a) && s.pending.Some?
    ensures Agrees(CommitStep(s), EnterCommit(a))
  {
    var e := a.next.value;
    assert Watched(e.(buffer := [])) <==> Watched(e);
  }

  lemma StepAgrees(s: State, a: Account, l: Label)
    requires Agrees(s, a) && CompletedInv(s) && SaverInv(s) && Enabled(s, l)
    ensures Agrees(Step(s, l), Enter(a, l))
  {
    match l
    case Begin(request) => NewEpisode(request, s.current.owner + 1);
    case Commit => CommitAgrees(s, a);
    case Observe(event) => EventAgrees(s, a, event);
    case Refresh(reading) => if reading.Some? { ReadingAgrees(s, a, reading.value); }
    case WriteBack =>
    case _ =>
  }

  lemma StepOwes(s: State, a: Account, l: Label)
    requires Agrees(s, a) && EmittedInv(s) && Owed(s) == a.given && Enabled(s, l)
    ensures Owed(Step(s, l)) == Enter(a, l).given
  {
    match l
    case Commit => CommitOwes(s, a);
    case Observe(event) => EventOwes(s, a, event);
    case EmitNext =>
      var items := s.delivery.items;
      assert items == [items[0]] + items[1..];
      assert s.emitted + [items[0]] + items[1..] == s.emitted + items;
    case _ =>
  }

  lemma CommitOwes(s: State, a: Account)
    requires Agrees(s, a) && s.pending.Some? && s.delivery.Free? && s.emitted == a.given
    ensures Owed(CommitStep(s)) == EnterCommit(a).given
  {
    assert a.given + Tag([], a.owner + 1) == a.given;
  }

  // For every run: what is shown of the current episode is what the last thing that happened to it
  // says, the completed flag what all of them say, a change was counted for each of them that
  // changed something, and the relay has what it is owed.
  lemma {:induction false} SessionAgrees(request: Request, labels: seq<Label>)
    ensures Agrees(Run(request, labels), AccountOf(request, labels))
    ensures Owed(Run(request, labels)) == AccountOf(request, labels).given
  {
    if labels == [] {
      NewEpisode(request, 1);
    } else {
      var rest, l := labels[..|labels| - 1], labels[|labels| - 1];
      var s := Run(request, rest);
      SessionAgrees(request, rest);
      RunKeepsInv(request, rest);
      if Enabled(s, l) {
        StepAgrees(s, AccountOf(request, rest), l);
        StepOwes(s, AccountOf(request, rest), l);
      }
    }
  }

  // With nothing unsaved, the stored checkpoint is what the episode's deeds say.
  lemma SavedAsTold(request: Request, labels: seq<Label>)
    requires Run(request, labels).persisted == Run(request, labels).generation
    ensures var s, e := Run(request, labels), AccountOf(request, labels).now;
      && s.lastSaved.Some? && s.lastSaved.value.request == e.request && s.lastSaved.value.snapshot == ShotOf(e)
      && (s.lastSaved.value.completed <==> Watched(e) || s.foreign)
  {
    SessionAgrees(request, labels);
    SavedIsCurrent(request, labels);
  }

  // A commit reports a checkpoint as due if and only if the load had a pause or an end.
  lemma CheckpointDueExactly(request: Request, labels: seq<Label>)
    requires Run(request, labels).pending.Some?
    ensures AccountOf(request, labels).next.Some?
    ensures Run(request, labels).pending.value.checkpoint <==> Due(AccountOf(request, labels).next.value)
  {
    SessionAgrees(request, labels);
  }

  // ----- nothing is held back -----

  lemma RunMore(request: Request, labels: seq<Label>, l: Label)
    ensures Run(request, labels + [l]) == Step(Run(request, labels), l)
    ensures AccountOf(request, labels + [l]) ==
      if Enabled(Run(request, labels), l) then Enter(AccountOf(request, labels), l) else AccountOf(request, labels)
  {
    assert (labels + [l])[..|labels|] == labels;
  }

  predicate Delivers(l: Label) { l.Recheck? || l.EmitNext? }

  function DeliveriesLeft(s: State): nat {
    match s.delivery case Free => 0 case Observed(_, _) => 1 case Publishing(items) => |items|
  }

  // The steps of whoever holds deliveryMu, as many as it has left, hand the relay all it is owed.
  lemma {:induction false} AllIsGiven(request: Request, labels: seq<Label>) returns (more: seq<Label>)
    ensures |more| == DeliveriesLeft(Run(request, labels)) && forall l :: l in more ==> Delivers(l)
    ensures Run(request, labels + more).delivery.Free?
    ensures Run(request, labels + more).emitted == AccountOf(request, labels).given
    decreases DeliveriesLeft(Run(request, labels))
  {
    SessionAgrees(request, labels);
    RunKeepsInv(request, labels);
    var s := Run(request, labels);
    if s.delivery.Free? {
      more := [];
      assert labels + more == labels;
    } else {
      var l := if s.delivery.Observed? then Recheck else EmitNext;
      RunMore(request, labels, l);
      var rest := AllIsGiven(request, labels + [l]);
      more := [l] + rest;
      assert labels + more == labels + [l] + rest;
    }
  }

  lemma SaveSteps(s: State, reached: bool)
    requires s.saver.Resting? && s.persisted <= s.generation
    ensures var t := Step(Step(Step(s, Capture), Store(true, reached)), WriteBack);
      && t.saver.Resting? && t.generation == s.generation
      && (t.persisted == t.generation <==>
            || s.persisted == s.generation
            || (s.current.request.anime != "" && s.current.request.episode != "" &&
                s.current.snapshot.position >= 0 && s.current.snapshot.duration >= 0))
  {
  }

  // A checkpoint that the store accepts leaves nothing unsaved, unless the episode has no id or
  // a negative time is shown of it.
  lemma SaveLeavesNothing(request: Request, labels: seq<Label>, reached: bool)
    requires Run(request, labels).saver.Resting?
    ensures var (s, e) := (Run(request, labels), AccountOf(request, labels).now);
      var t := Run(request, labels + [Capture] + [Store(true, reached)] + [WriteBack]);
      t.persisted == t.generation <==>
        || s.persisted == s.generation
        || (e.request.anime != "" && e.request.episode != "" && ShotOf(e).position >= 0 && ShotOf(e).duration >= 0)
  {
    RunKeepsInv(request, labels);
    SessionAgrees(request, labels);
    RunMore(request, labels, Capture);
    RunMore(request, labels + [Capture], Store(true, reached));
    RunMore(request, labels + [Capture] + [Store(true, reached)], WriteBack);
    SaveSteps(Run(request, labels), reached);
  }

  // The checkpoint of the last save that went through or reached the store all the same.
  ghost function LastStored(request: Request, labels: seq<Label>): Option<Checkpoint> {
    if labels == [] then None
    else
      var rest, l := labels[..|labels| - 1], labels[|labels| - 1];
      if l.Store? && (l.ok || l.reached) && Run(request, rest).saver.Captured? then
        Some(Run(request, rest).saver.entry)
      else LastStored(request, rest)
  }

  lemma StepStores(s: State, l: Label)
    ensures Step(s, l).lastSaved ==
      if l.Store? && (l.ok || l.reached) && s.saver.Captured? then Some(s.saver.entry) else s.lastSaved
  {
  }

  // Nothing else changes what is stored.
  lemma {:induction false} StoredExactly(request: Request, labels: seq<Label>)
    ensures Run(request, labels).lastSaved == LastStored(request, labels)
  {
    if labels != [] {
      var rest, l := labels[..|labels| - 1], labels[|labels| - 1];
      StoredExactly(request, rest);
      StepStores(Run(request, rest), l);
      assert labels == rest + [l];
      RunMore(request, rest, l);
    }
  }
}

// The tracked playback session: the current episode, a pending load with its buffered events,
// and the checkpoint that is captured, stored and written back in three separate lock sections.
module Session {
  import opened Options
  import opened PlaybackEvents
  import opened Sequences

  datatype Request = Request(anime: string, episode: string, startAt: int, paused: bool)

  datatype Snapshot = Snapshot(position: int, duration: int, paused: bool)

  // One piece of evidence about an episode: an event of it, or a snapshot read for it.
  datatype Reading = Reading(position: int, duration: int, ended: bool)

  // seen is the history of the readings made for this episode since it became tracked.
  datatype Tracked = Tracked(
    request: Request,
    snapshot: Snapshot,
    completed: bool,
    terminal: bool,
    owner: nat,
    seen: seq<Reading>)

  // arrived is the history of the events observed for the pending episode.
  datatype Pending = Pending(tracked: Tracked, events: seq<Event>, checkpoint: bool, arrived: seq<Event>)

  datatype Checkpoint = Checkpoint(request: Request, snapshot: Snapshot, completed: bool)

  // The holder of persistGate, between its lock sections.
  datatype Saver =
    | Resting
    | Captured(generation: nat, entry: Checkpoint, owner: nat)
    | Stored(generation: nat, entry: Checkpoint, owner: nat)

  // The holder of deliveryMu, between its lock sections.
  datatype Delivery = Free | Observed(event: Event, owner: nat) | Publishing(items: seq<Item>)

  // lastSaved and emitted are histories of the store and of the relay's publish calls. foreign
  // records that a completed checkpoint of an earlier owner was written back to this one.
  datatype State = State(
    current: Tracked,
    generation: nat,
    persisted: nat,
    pending: Option<Pending>,
    delivery: Delivery,
    saver: Saver,
    lastSaved: Option<Checkpoint>,
    emitted: seq<Item>,
    foreign: bool)

  datatype Label =
    | Begin(request: Request)
    | Discard
    | Commit
    | Refresh(reading: Option<Snapshot>)
    | Observe(event: Event)
    | Recheck
    | EmitNext
    | Capture
    | Store(ok: bool, reached: bool)
    | WriteBack

  // ----- one episode -----

  function NewTracked(request: Request, owner: nat): Tracked {
    Tracked(request, Snapshot(request.startAt, 0, request.paused), false, false, owner, [])
  }

  function Apply(t: Tracked, event: Event): Tracked {
    t.(snapshot := Snapshot(event.position, event.duration, event.kind == Paused),
       completed := t.completed || event.kind == Ended || ThresholdReached(event.position, event.duration),
       terminal := IsTerminal(event.kind),
       seen := t.seen + [Reading(event.position, event.duration, event.kind == Ended)])
  }

  predicate Matches(request: Request, event: Event) {
    event.anime == request.anime && event.episode == request.episode
  }

  predicate SameEpisode(a: Request, b: Request) {
    a.anime == b.anime && a.episode == b.episode
  }

  predicate ValidEvent(event: Event) {
    event.position >= 0 && event.duration >= 0
  }

  predicate ValidSnapshot(s: Snapshot) {
    s.position >= 0 && s.duration >= 0
  }

  // This episode's own events or readings say that it was watched to the end.
  ghost predicate Earned(t: Tracked) {
    exists i :: 0 <= i < |t.seen| && (t.seen[i].ended || ThresholdReached(t.seen[i].position, t.seen[i].duration))
  }

  // ----- the buffer of a pending load -----

  function FirstProgressEvent(events: seq<Event>): (i: nat)
    ensures i <= |events|
    ensures i < |events| ==> events[i].kind == Progress
    ensures forall k :: 0 <= k < i ==> events[k].kind != Progress
  {
    if events == [] || events[0].kind == Progress then 0 else 1 + FirstProgressEvent(events[1..])
  }

  function AppendPending(events: seq<Event>, event: Event): seq<Event> {
    var n := |events|;
    if event.kind == Progress && n > 0 && events[n - 1].kind == Progress then
      events[..n - 1] + [event]
    else if n < QUEUE_CAPACITY then
      events + [event]
    else
      var i := FirstProgressEvent(events);
      if i < n then events[..i] + events[i + 1..] + [event]
      else if IsTerminal(event.kind) then events[1..] + [event]
      else events
  }

  // ----- the atomic steps -----

  function Initial(request: Request): State {
    State(NewTracked(request, 1), 1, 0, None, Free, Resting, None, [], false)
  }

  function Tag(events: seq<Event>, owner: nat): (items: seq<Item>)
    ensures |items| == |events|
    ensures forall i :: 0 <= i < |items| ==> items[i] == Item(events[i], owner)
  {
    seq(|events|, i requires 0 <= i < |events| => Item(events[i], owner))
  }

  function CommitStep(s: State): State
    requires s.pending.Some?
  {
    var p := s.pending.value;
    s.(current := p.tracked, generation := s.generation + 1, pending := None, foreign := false,
       delivery := if p.events == [] then Free else Publishing(Tag(p.events, p.tracked.owner)))
  }

  function RefreshStep(s: State, reading: Option<Snapshot>): State {
    if s.current.terminal || reading.None? || !ValidSnapshot(reading.value) || reading.value == s.current.snapshot then
      s
    else
      var r := reading.value;
      s.(generation := s.generation + 1,
         current := s.current.(snapshot := r,
                               completed := s.current.completed || ThresholdReached(r.position, r.duration),
                               seen := s.current.seen + [Reading(r.position, r.duration, false)]))
  }

  function ObserveStep(s: State, event: Event): State {
    if !ValidEvent(event) then
      s
    else if s.pending.Some? && Matches(s.pending.value.tracked.request, event) then
      var p := s.pending.value;
      if p.tracked.terminal then s else
      s.(pending := Some(Pending(Apply(p.tracked, event), AppendPending(p.events, event),
                                 p.checkpoint || IsCheckpointBoundary(event.kind), p.arrived + [event])),
         delivery := Observed(event, p.tracked.owner))
    else if Matches(s.current.request, event) && !s.current.terminal then
      s.(current := Apply(s.current, event), generation := s.generation + 1,
         delivery := Observed(event, s.current.owner))
    else
      s
  }

  function RecheckStep(s: State): State
    requires s.delivery.Observed?
  {
    if s.pending.Some? && s.pending.value.tracked.owner == s.delivery.owner then s.(delivery := Free)
    else s.(delivery := Free, emitted := s.emitted + [Item(s.delivery.event, s.delivery.owner)])
  }

  function EmitStep(s: State): State
    requires s.delivery.Publishing? && s.delivery.items != []
  {
    var items := s.delivery.items;
    s.(emitted := s.emitted + [items[0]], delivery := if |items| == 1 then Free else Publishing(items[1..]))
  }

  function Entry(t: Tracked): Checkpoint {
    Checkpoint(t.request, t.snapshot, t.completed || ThresholdReached(t.snapshot.position, t.snapshot.duration))
  }

  function CaptureStep(s: State): State {
    if s.generation == s.persisted || s.current.request.anime == "" || s.current.request.episode == ""
       || !ValidSnapshot(s.current.snapshot) then s
    else s.(saver := Captured(s.generation, Entry(s.current), s.current.owner))
  }

  // A failed save may or may not have reached the store.
  function StoreStep(s: State, ok: bool, reached: bool): State
    requires s.saver.Captured?
  {
    s.(saver := if ok then Stored(s.saver.generation, s.saver.entry, s.saver.owner) else Resting,
       lastSaved := if ok || reached then Some(s.saver.entry) else s.lastSaved)
  }

  function WriteBackStep(s: State): State
    requires s.saver.Stored?
  {
    s.(persisted := if s.saver.generation > s.persisted then s.saver.generation else s.persisted,
       current := s.current.(completed := s.current.completed || s.saver.entry.completed),
       foreign := s.foreign || (s.saver.entry.completed && s.saver.owner != s.current.owner),
       saver := Resting)
  }

  // opGate keeps Refresh, Begin, Discard and Commit apart; deliveryMu serializes Discard,
  // Commit and the event handler; persistGate serializes the checkpoints.
  predicate Enabled(s: State, l: Label) {
    match l
    case Begin(_) => s.pending.None?
    case Discard => s.pending.Some? && s.delivery.Free?
    case Commit => s.pending.Some? && s.delivery.Free?
    case Refresh(_) => s.pending.None?
    case Observe(_) => s.delivery.Free?
    case Recheck => s.delivery.Observed?
    case EmitNext => s.delivery.Publishing? && s.delivery.items != []
    case Capture => s.saver.Resting?
    case Store(_, _) => s.saver.Captured?
    case WriteBack => s.saver.Stored?
  }

  function Step(s: State, l: Label): State {
    if !Enabled(s, l) then s else
    match l
    case Begin(request) => s.(pending := Some(Pending(NewTracked(request, s.current.owner + 1), [], false, [])))
    case Discard => s.(pending := None)
    case Commit => CommitStep(s)
    case Refresh(reading) => RefreshStep(s, reading)
    case Observe(event) => ObserveStep(s, event)
    case Recheck => RecheckStep(s)
    case EmitNext => EmitStep(s)
    case Capture => CaptureStep(s)
    case Store(ok, reached) => StoreStep(s, ok, reached)
    case WriteBack => WriteBackStep(s)
  }

  function RunFrom(s: State, labels: seq<Label>): State {
    if labels == [] then s else Step(RunFrom(s, labels[..|labels| - 1]), labels[|labels| - 1])
  }

  function Run(request: Request, labels: seq<Label>): State {
    RunFrom(Initial(request), labels)
  }

  // ----- the invariant -----

  ghost predicate BufferInv(p: Pending) {
    && |p.events| <= QUEUE_CAPACITY
    && Spaced(p.events)
    && (forall i :: 0 <= i < |p.events| - 1 ==> !IsTerminal(p.events[i].kind))
    && (p.tracked.terminal <==> p.events != [] && IsTerminal(p.events[|p.events| - 1].kind))
    && Subsequence(p.events, p.arrived)
  }

  // The checkpoint in hand describes what it was captured from.
  ghost predicate SaverInv(s: State) {
    !s.saver.Resting? ==>
      && s.persisted < s.saver.generation <= s.generation
      && s.saver.owner <= s.current.owner
      && (s.saver.owner == s.current.owner && s.saver.entry.completed ==> s.current.completed)
      && (s.saver.generation == s.generation ==> s.saver.entry == Entry(s.current) && s.saver.owner == s.current.owner)
      && (s.saver.Stored? ==> s.lastSaved == Some(s.saver.entry))
  }

  ghost predicate SavedInv(s: State) {
    && s.persisted <= s.generation
    && (s.persisted == s.generation ==> s.lastSaved == Some(Entry(s.current)))
  }

  // A completed flag has its own evidence, except for what a foreign write-back put there.
  ghost predicate CompletedInv(s: State) {
    && (s.current.completed <==> Earned(s.current) || s.foreign)
    && (ThresholdReached(s.current.snapshot.position, s.current.snapshot.duration) ==> s.current.completed)
    && (s.pending.Some? ==> var t := s.pending.value.tracked;
          && (t.completed <==> Earned(t))
          && (ThresholdReached(t.snapshot.position, t.snapshot.duration) ==> t.completed))
  }

  ghost predicate EmittedInv(s: State) {
    && OwnersOrdered(s.emitted)
    && (forall i :: 0 <= i < |s.emitted| ==> s.emitted[i].owner <= s.current.owner)
    && (s.pending.Some? ==> s.pending.value.tracked.owner == s.current.owner + 1)
    && (s.delivery.Observed? ==>
          || (s.delivery.owner == s.current.owner && Matches(s.current.request, s.delivery.event))
          || (s.pending.Some? && s.delivery.owner == s.pending.value.tracked.owner))
    && (s.delivery.Publishing? ==>
          && s.delivery.items != []
          && forall i :: 0 <= i < |s.delivery.items| ==>
               s.delivery.items[i].owner == s.current.owner && Matches(s.current.request, s.delivery.items[i].event))
    && (s.pending.Some? ==> var p := s.pending.value;
          forall i :: 0 <= i < |p.events| ==> Matches(p.tracked.request, p.events[i]))
  }

  ghost predicate Inv(s: State) {
    && SavedInv(s)
    && SaverInv(s)
    && CompletedInv(s)
    && EmittedInv(s)
    && (s.pending.Some? ==> BufferInv(s.pending.value))
  }

  lemma AppendKeepsBuffer(p: Pending, event: Event)
    requires BufferInv(p) && !p.tracked.terminal
    ensures BufferInv(Pending(Apply(p.tracked, event), AppendPending(p.events, event), p.checkpoint,
                              p.arrived + [event]))
  {
    AppendKeepsShape(p.events, event);
    AppendKeepsArrival(p.events, p.arrived, event);
  }

  // No two progress events are neighbours.
  ghost predicate Spaced(events: seq<Event>) {
    forall i :: 0 <= i < |events| - 1 ==> !(events[i].kind == Progress && events[i + 1].kind == Progress)
  }

  ghost predicate NoneTerminal(events: seq<Event>) { forall i :: 0 <= i < |events| ==> !IsTerminal(events[i].kind) }

  lemma SpacedAppend(events: seq<Event>, event: Event)
    requires Spaced(events)
    requires event.kind == Progress && events != [] ==> events[|events| - 1].kind != Progress
    ensures Spaced(events + [event])
  {
  }

  lemma SpacedRest(events: seq<Event>, i: nat)
    requires Spaced(events) && i < |events| && (events[i].kind == Progress || i == 0 || i == |events| - 1)
    ensures Spaced(events[..i] + events[i + 1..])
  {
    var rest := events[..i] + events[i + 1..];
    forall k | 0 <= k < |rest| - 1 ensures !(rest[k].kind == Progress && rest[k + 1].kind == Progress) {
      if k + 1 < i {
        assert rest[k] == events[k] && rest[k + 1] == events[k + 1];
      } else if k >= i {
        assert rest[k] == events[k + 1] && rest[k + 1] == events[k + 2];
      } else {
        assert rest[k] == events[i - 1] && events[i - 1 + 1].kind == Progress;
      }
    }
  }

  // What is kept of the buffer, and the event behind it.
  lemma ShapeOfAppended(kept: seq<Event>, event: Event)
    requires Spaced(kept) && NoneTerminal(kept)
    requires event.kind == Progress && kept != [] ==> kept[|kept| - 1].kind != Progress
    ensures HasShape(kept + [event], event)
  {
    SpacedAppend(kept, event);
  }

  lemma ShapeOfKept(events: seq<Event>, i: nat)
    requires Spaced(events) && NoneTerminal(events) && i < |events|
    requires events[i].kind == Progress || i == 0 || i == |events| - 1
    ensures Spaced(events[..i] + events[i + 1..]) && NoneTerminal(events[..i] + events[i + 1..])
  {
    SpacedRest(events, i);
  }

  // The shape of a buffer to which event was appended last, or which refused it.
  ghost predicate HasShape(after: seq<Event>, event: Event) {
    && Spaced(after)
    && (forall i :: 0 <= i < |after| - 1 ==> !IsTerminal(after[i].kind))
    && (IsTerminal(event.kind) ==> after != [] && after[|after| - 1] == event)
    && (!IsTerminal(event.kind) ==> NoneTerminal(after))
  }

  // Removing a progress event never brings two others together, and a terminal event always
  // finds room.
  lemma AppendKeepsShape(events: seq<Event>, event: Event)
    requires |events| <= QUEUE_CAPACITY && Spaced(events) && NoneTerminal(events)
    ensures |AppendPending(events, event)| <= QUEUE_CAPACITY && HasShape(AppendPending(events, event), event)
  {
    var after := AppendPending(events, event);
    var kept, i := AppendForm(events, event);
    if kept != events { ShapeOfKept(events, i); }
    if after == kept + [event] { ShapeOfAppended(kept, event); }
  }

  // What the buffer keeps when an event is appended: everything, or all but one event.
  lemma AppendForm(events: seq<Event>, event: Event) returns (kept: seq<Event>, i: nat)
    ensures AppendPending(events, event) == kept + [event] ||
            (AppendPending(events, event) == kept == events && !IsTerminal(event.kind))
    ensures kept == events || (i < |events| && kept == events[..i] + events[i + 1..])
    ensures kept != events ==> events[i].kind == Progress || i == 0 || i == |events| - 1
    ensures |kept| <= |events| && (|events| <= QUEUE_CAPACITY ==> |AppendPending(events, event)| <= QUEUE_CAPACITY)
    ensures Spaced(events) && event.kind == Progress && AppendPending(events, event) == kept + [event] && kept != [] ==>
              kept[|kept| - 1].kind != Progress
  {
    var n := |events|;
    kept, i := events, FirstProgressEvent(events);
    if event.kind == Progress && n > 0 && events[n - 1].kind == Progress {
      i := n - 1;
      kept := events[..i] + events[i + 1..];
      assert kept == events[..n - 1];
    } else if n >= QUEUE_CAPACITY && i < n {
      kept := events[..i] + events[i + 1..];
    } else if n >= QUEUE_CAPACITY && IsTerminal(event.kind) {
      i := 0;
      kept := events[..i] + events[i + 1..];
      assert kept == events[1..];
    }
  }

  lemma AppendKeepsArrival(events: seq<Event>, arrived: seq<Event>, event: Event)
    requires Subsequence(events, arrived)
    ensures Subsequence(AppendPending(events, event), arrived + [event])
  {
    var kept, i := AppendForm(events, event);
    if kept != events { SubsequenceDrop(events, arrived, i); }
    SubsequenceTake(kept, arrived, event);
    SubsequenceSkip(events, arrived, event);
  }

  lemma AppendMatches(events: seq<Event>, event: Event, request: Request)
    requires Matches(request, event) && forall i :: 0 <= i < |events| ==> Matches(request, events[i])
    ensures var after := AppendPending(events, event);
            forall i :: 0 <= i < |after| ==> Matches(request, after[i])
  {
  }

  lemma ApplyEarns(t: Tracked, event: Event)
    ensures Earned(Apply(t, event)) <==>
              Earned(t) || event.kind == Ended || ThresholdReached(event.position, event.duration)
  {
    var t' := Apply(t, event);
    assert t'.seen[|t.seen|] == Reading(event.position, event.duration, event.kind == Ended);
    assert forall i :: 0 <= i < |t.seen| ==> t'.seen[i] == t.seen[i];
  }

  lemma RefreshEarns(s: State, reading: Option<Snapshot>)
    ensures RefreshStep(s, reading).current == s.current ||
            (reading.Some? &&
             (Earned(RefreshStep(s, reading).current) <==>
                Earned(s.current) || ThresholdReached(reading.value.position, reading.value.duration)))
  {
    var t' := RefreshStep(s, reading).current;
    if t' != s.current {
      var r := reading.value;
      assert t'.seen[|s.current.seen|] == Reading(r.position, r.duration, false);
      assert forall i :: 0 <= i < |s.current.seen| ==> t'.seen[i] == s.current.seen[i];
    }
  }

  lemma StepKeepsSaved(s: State, l: Label)
    requires SavedInv(s) && SaverInv(s) && CompletedInv(s)
    requires s.pending.Some? ==> s.pending.value.tracked.owner == s.current.owner + 1
    ensures SavedInv(Step(s, l)) && SaverInv(Step(s, l))
  {
  }

  lemma StepKeepsCompleted(s: State, l: Label)
    requires CompletedInv(s) && SaverInv(s)
    ensures CompletedInv(Step(s, l))
  {
    match l
    case Observe(event) => ObserveKeepsCompleted(s, event);
    case Refresh(reading) => RefreshEarns(s, reading);
    case _ =>
  }

  lemma ObserveKeepsCompleted(s: State, event: Event)
    requires CompletedInv(s)
    ensures CompletedInv(ObserveStep(s, event))
  {
    ApplyEarns(s.current, event);
    if s.pending.Some? { ApplyEarns(s.pending.value.tracked, event); }
  }

  lemma StepKeepsEmitted(s: State, l: Label)
    requires EmittedInv(s)
    ensures EmittedInv(Step(s, l))
  {
    if l.Observe? && Enabled(s, l) { ObserveKeepsEmitted(s, l.event); }
  }

  lemma ObserveKeepsEmitted(s: State, event: Event)
    requires EmittedInv(s) && s.delivery.Free?
    ensures EmittedInv(ObserveStep(s, event))
  {
    if s.pending.Some? && Matches(s.pending.value.tracked.request, event) {
      AppendMatches(s.pending.value.events, event, s.pending.value.tracked.request);
    }
  }

  lemma StepKeepsInv(s: State, l: Label)
    requires Inv(s)
    ensures Inv(Step(s, l))
  {
    StepKeepsSaved(s, l);
    StepKeepsCompleted(s, l);
    StepKeepsEmitted(s, l);
    StepKeepsBuffer(s, l);
  }

  lemma StepKeepsBuffer(s: State, l: Label)
    requires s.pending.Some? ==> BufferInv(s.pending.value)
    ensures Step(s, l).pending.Some? ==> BufferInv(Step(s, l).pending.value)
  {
    if l.Observe? && s.pending.Some? && !s.pending.value.tracked.terminal {
      AppendKeepsBuffer(s.pending.value, l.event);
    }
    if l.Begin? {
      SubsequenceSame<Event>([]);
    }
  }

  lemma {:induction false} RunKeepsInv(request: Request, labels: seq<Label>)
    ensures Inv(Run(request, labels))
  {
    if labels != [] {
      RunKeepsInv(request, labels[..|labels| - 1]);
      StepKeepsInv(Run(request, labels[..|labels| - 1]), labels[|labels| - 1]);
    }
  }

  // ----- what the relay is given -----

  // publish is only called under deliveryMu, so the owners it sees never decrease.
  lemma OwnersNeverDecrease(request: Request, labels: seq<Label>)
    ensures OwnersOrdered(Run(request, labels).emitted)
  {
    RunKeepsInv(request, labels);
  }

  lemma EmitsAtMostOne(s: State, l: Label)
    ensures var emitted := Step(s, l).emitted;
            emitted == s.emitted || (|emitted| == |s.emitted| + 1 && emitted == s.emitted + [emitted[|s.emitted|]])
  {
  }

  // While a load is pending, whatever the relay is given belongs to the current episode.
  lemma PendingEventsStayBack(request: Request, labels: seq<Label>, l: Label)
    requires Run(request, labels).pending.Some? && Step(Run(request, labels), l).pending.Some?
    ensures var s, s' := Run(request, labels), Step(Run(request, labels), l);
            s'.emitted != s.emitted ==>
              && s'.emitted == s.emitted + [s'.emitted[|s.emitted|]]
              && s'.emitted[|s.emitted|].owner == s.current.owner < s.pending.value.tracked.owner
              && Matches(s.current.request, s'.emitted[|s.emitted|].event)
  {
    RunKeepsInv(request, labels);
  }

  // Everything the relay has been or is still going to be given by the holder of deliveryMu.
  function Promised(s: State): seq<Item> {
    if s.delivery.Publishing? then s.emitted + s.delivery.items else s.emitted
  }

  // Committing a load hands its buffered events to the relay, in order and under its own, larger
  // owner; whatever interleaves before deliveryMu is released adds and removes nothing.
  lemma CommitPublishesBuffer(request: Request, labels: seq<Label>)
    requires Enabled(Run(request, labels), Commit)
    ensures var s, s' := Run(request, labels), Step(Run(request, labels), Commit);
            && Promised(s') == s.emitted + Tag(s.pending.value.events, s'.current.owner)
            && s'.current.owner > s.current.owner
            && (forall i :: 0 <= i < |s.emitted| ==> s.emitted[i].owner < s'.current.owner)
  {
    var s := Run(request, labels);
    RunKeepsInv(request, labels);
    assert s.emitted + Tag([], s.current.owner + 1) == s.emitted;
  }

  lemma PromiseIsKept(s: State, l: Label)
    requires Inv(s)
    ensures Promised(Step(s, l)) ==
            if l.Commit? && Enabled(s, l) then s.emitted + Tag(s.pending.value.events, s.pending.value.tracked.owner)
            else if l.Recheck? && Enabled(s, l) then s.emitted + Step(s, l).emitted[|s.emitted|..]
            else Promised(s)
    ensures Step(s, l).delivery.Free? ==> Promised(Step(s, l)) == Step(s, l).emitted
  {
    match l
    case EmitNext =>
      if s.delivery.Publishing? {
        var items := s.delivery.items;
        assert items == [items[0]] + items[1..];
        assert s.emitted + [items[0]] + items[1..] == s.emitted + items;
      }
    case Commit =>
      if Enabled(s, l) {
        assert s.emitted + Tag([], s.pending.value.tracked.owner) == s.emitted;
      }
    case _ =>
  }

  // Whatever follows, what was promised is given to the relay, in order, and it has all been given
  // when nobody is publishing.
  lemma {:induction false} PromisesAreKept(s: State, labels: seq<Label>)
    requires Inv(s)
    ensures Promised(s) <= Promised(RunFrom(s, labels))
    ensures !RunFrom(s, labels).delivery.Publishing? ==> Promised(s) <= RunFrom(s, labels).emitted
  {
    if labels != [] {
      PromisesAreKept(s, labels[..|labels| - 1]);
      RunFromKeepsInv(s, labels[..|labels| - 1]);
      PromiseGrows(RunFrom(s, labels[..|labels| - 1]), labels[|labels| - 1]);
    }
  }

  lemma PromiseGrows(s: State, l: Label)
    requires Inv(s)
    ensures Promised(s) <= Promised(Step(s, l))
  {
    PromiseIsKept(s, l);
  }

  // From commit to the relay: after any further run in which nobody is publishing any more, the
  // relay was given, in order, what it had before and then every event that the load had buffered.
  lemma CommittedEventsArePublished(request: Request, labels: seq<Label>, more: seq<Label>)
    requires Enabled(Run(request, labels), Commit)
    ensures var s, t := Run(request, labels), RunFrom(Step(Run(request, labels), Commit), more);
            var given := s.emitted + Tag(s.pending.value.events, s.pending.value.tracked.owner);
            given <= Promised(t) && (!t.delivery.Publishing? ==> given <= t.emitted)
  {
    RunKeepsInv(request, labels);
    CommitPublishesBuffer(request, labels);
    StepKeepsInv(Run(request, labels), Commit);
    PromisesAreKept(Step(Run(request, labels), Commit), more);
  }

  // The buffer of a pending load, in every reachable state: bounded, an ordered selection of what
  // arrived, without neighbouring progress events, and ending with the terminal event once there
  // is one.
  lemma PendingBuffer(request: Request, labels: seq<Label>)
    requires Run(request, labels).pending.Some?
    ensures BufferInv(Run(request, labels).pending.value)
  {
    RunKeepsInv(request, labels);
  }

  // Buffering costs at most one event, and only a progress event, unless the buffer is full of
  // events that are not progress: then a terminal event pushes out the oldest and any other
  // event is refused.
  lemma BufferLosesOnlyProgress(events: seq<Event>, event: Event)
    requires |events| <= QUEUE_CAPACITY
    ensures var after := AppendPending(events, event);
            && |after| >= |events|
            && ((after != [] && after[|after| - 1] == event) || (after == events && !IsTerminal(event.kind)))
            && ((exists x :: x in events && x.kind == Progress) || |events| < QUEUE_CAPACITY ==>
                  && after != [] && after[|after| - 1] == event
                  && forall x :: x in events && x.kind != Progress ==> x in after)
            && (|events| < QUEUE_CAPACITY && event.kind != Progress ==> after == events + [event])
  {
    var after, i := AppendPending(events, event), FirstProgressEvent(events);
    var n := |events|;
    if event.kind == Progress && n > 0 && events[n - 1].kind == Progress {
      assert forall k :: 0 <= k < n - 1 ==> events[k] == after[k];
    } else if n >= QUEUE_CAPACITY && i < n {
      assert forall k :: 0 <= k < n && k != i ==> events[k] == after[if k < i then k else k - 1];
    }
  }

  // ----- a discarded load leaves no trace -----

  // What other goroutines do while a load holds opGate.
  predicate Concurrent(l: Label) {
    l.Observe? || l.Recheck? || l.EmitNext? || l.Capture? || l.Store? || l.WriteBack?
  }

  // The state as if the load had never begun.
  function Forget(s: State): State {
    s.(pending := None,
       delivery := if s.delivery.Observed? && s.delivery.owner > s.current.owner then Free else s.delivery)
  }

  // Both the pending and the current episode could claim the event.
  predicate Claimable(s: State, event: Event) {
    && s.pending.Some? && ValidEvent(event) && Matches(s.pending.value.tracked.request, event)
    && Matches(s.current.request, event) && !s.current.terminal
  }

  predicate Contested(s: State, l: Label) { l.Observe? && Claimable(s, l.event) }

  // While a load is pending, nothing else can tell that it is there, but by a contested event; of
  // a different episode, none is contested.
  lemma LoadIsInvisible(s: State, l: Label)
    requires EmittedInv(s) && s.pending.Some? && Concurrent(l) && Enabled(s, l)
    requires !Contested(s, l)
    ensures Forget(Step(s, l)) == Step(Forget(s), l)
  {
  }

  lemma LoadStaysPending(s: State, l: Label)
    requires s.pending.Some? && Concurrent(l)
    ensures Step(s, l).pending.Some?
    ensures Step(s, l).pending.value.tracked.request == s.pending.value.tracked.request
    ensures Step(s, l).current.request == s.current.request
    ensures SameEpisode(s.pending.value.tracked.request, s.current.request) ==> Step(s, l).generation == s.generation
  {
  }

  ghost predicate Schedule(s: State, labels: seq<Label>) {
    forall i :: 0 <= i < |labels| ==> Concurrent(labels[i]) && Enabled(RunFrom(s, labels[..i]), labels[i])
  }

  predicate ContestedAt(s: State, labels: seq<Label>, i: nat) {
    i < |labels| && Contested(RunFrom(s, labels[..i]), labels[i])
  }

  ghost predicate Uncontested(s: State, labels: seq<Label>) {
    forall i: nat :: i < |labels| ==> !ContestedAt(s, labels, i)
  }

  lemma PrefixOf(s: State, labels: seq<Label>, n: nat)
    requires n <= |labels|
    ensures forall i :: 0 <= i < n ==> labels[..n][..i] == labels[..i] && labels[..n][i] == labels[i]
    ensures Schedule(s, labels) ==> Schedule(s, labels[..n])
    ensures Uncontested(s, labels) ==> Uncontested(s, labels[..n])
  {
    assert forall i :: 0 <= i < n ==> labels[..n][..i] == labels[..i];
    if Uncontested(s, labels) {
      forall i: nat | i < n ensures !ContestedAt(s, labels[..n], i) {
        assert !ContestedAt(s, labels, i);
      }
    }
  }

  // The episodes stay what they are, and the playing one that is reloaded gets no event.
  lemma {:induction false} LoadStaysThroughout(s: State, labels: seq<Label>)
    requires s.pending.Some? && Schedule(s, labels)
    ensures var t := RunFrom(s, labels);
            && t.pending.Some? && t.pending.value.tracked.request == s.pending.value.tracked.request
            && t.current.request == s.current.request
            && (SameEpisode(s.pending.value.tracked.request, s.current.request) ==> t.generation == s.generation)
  {
    if labels != [] {
      var rest, l := labels[..|labels| - 1], labels[|labels| - 1];
      PrefixOf(s, labels, |rest|);
      LoadStaysThroughout(s, rest);
      LoadStaysPending(RunFrom(s, rest), l);
    }
  }

  lemma OtherEpisodeUncontested(s: State, labels: seq<Label>)
    requires s.pending.Some? && Schedule(s, labels)
    requires !SameEpisode(s.pending.value.tracked.request, s.current.request)
    ensures Uncontested(s, labels)
  {
    forall i: nat | i < |labels| ensures !ContestedAt(s, labels, i) {
      PrefixOf(s, labels, i);
      LoadStaysThroughout(s, labels[..i]);
    }
  }

  lemma SplitLast(s: State, labels: seq<Label>)
    requires labels != [] && Schedule(s, labels) && Uncontested(s, labels)
    ensures var rest, l := labels[..|labels| - 1], labels[|labels| - 1];
            && Schedule(s, rest) && Uncontested(s, rest)
            && Concurrent(l) && Enabled(RunFrom(s, rest), l) && !Contested(RunFrom(s, rest), l)
  {
    PrefixOf(s, labels, |labels| - 1);
    assert !ContestedAt(s, labels, |labels| - 1);
  }

  // A pending load is invisible throughout a run without contested events.
  lemma {:induction false} InvisibleRun(s: State, labels: seq<Label>)
    requires Inv(s) && s.pending.Some? && Schedule(s, labels) && Uncontested(s, labels)
    ensures Forget(RunFrom(s, labels)) == RunFrom(Forget(s), labels)
  {
    if labels != [] {
      var rest, l := labels[..|labels| - 1], labels[|labels| - 1];
      SplitLast(s, labels);
      InvisibleRun(s, rest);
      RunFromKeepsInv(s, rest);
      LoadStaysThroughout(s, rest);
      LoadIsInvisible(RunFrom(s, rest), l);
    }
  }

  lemma LoadIsInvisibleThroughout(s: State, request: Request, labels: seq<Label>)
    requires Inv(s) && s.pending.None?
    requires Schedule(Step(s, Begin(request)), labels) && Uncontested(Step(s, Begin(request)), labels)
    ensures Forget(RunFrom(Step(s, Begin(request)), labels)) == RunFrom(s, labels)
  {
    StepKeepsInv(s, Begin(request));
    LoadBegins(s, request);
    InvisibleRun(Step(s, Begin(request)), labels);
  }

  lemma LoadBegins(s: State, request: Request)
    requires EmittedInv(s) && s.pending.None?
    ensures Forget(Step(s, Begin(request))) == s && Step(s, Begin(request)).pending.Some?
  {
  }

  lemma {:induction false} GenerationGrows(s: State, labels: seq<Label>)
    ensures s.generation <= RunFrom(s, labels).generation
  {
    if labels != [] { GenerationGrows(s, labels[..|labels| - 1]); }
  }

  // Without the load the contested event reaches the current episode.
  lemma ContestedEventCounts(s: State, event: Event)
    requires Claimable(s, event) && s.delivery.Free?
    ensures Step(Forget(s), Observe(event)).generation == s.generation + 1
    ensures SameEpisode(s.pending.value.tracked.request, s.current.request)
  {
  }

  lemma {:induction false} GenerationAfter(s: State, labels: seq<Label>, n: nat)
    requires n <= |labels|
    ensures RunFrom(s, labels[..n]).generation <= RunFrom(s, labels).generation
  {
    assert labels == labels[..n] + labels[n..];
    RunFromAppend(s, labels[..n], labels[n..]);
    GenerationGrows(RunFrom(s, labels[..n]), labels[n..]);
  }

  // The first event that is contested is missing from the current episode ever after.
  lemma ContestedLeavesTrace(s: State, request: Request, labels: seq<Label>, i: nat)
    requires Inv(s) && s.pending.None? && Schedule(Step(s, Begin(request)), labels) && i < |labels|
    requires Uncontested(Step(s, Begin(request)), labels[..i])
    requires ContestedAt(Step(s, Begin(request)), labels, i)
    ensures RunFrom(Step(s, Begin(request)), labels).generation < RunFrom(s, labels).generation
  {
    var begun := Step(s, Begin(request));
    PrefixOf(begun, labels, i);
    LoadIsInvisibleThroughout(s, request, labels[..i]);
    LoadStaysThroughout(begun, labels[..i]);
    LoadStaysThroughout(begun, labels);
    ContestedEventCounts(RunFrom(begun, labels[..i]), labels[i].event);
    assert labels[..i + 1][..i] == labels[..i];
    assert RunFrom(s, labels[..i + 1]) == Step(RunFrom(s, labels[..i]), labels[i]);
    GenerationAfter(s, labels, i + 1);
  }

  lemma FirstContested(s: State, labels: seq<Label>) returns (i: nat)
    requires !Uncontested(s, labels)
    ensures i < |labels| && Uncontested(s, labels[..i]) && ContestedAt(s, labels, i)
  {
    i := 0;
    while !ContestedAt(s, labels, i)
      invariant i < |labels| && forall k: nat :: k < i ==> !ContestedAt(s, labels, k)
      decreases |labels| - i
    {
      i := i + 1;
    }
    forall k: nat | k < i ensures !ContestedAt(s, labels[..i], k) {
      assert labels[..i][..k] == labels[..k];
      assert !ContestedAt(s, labels, k);
    }
  }

  // A failed load: begin, any concurrent steps, discard. The outcome is that of the concurrent
  // steps alone if and only if none of their events was contested.
  lemma DiscardUndoesLoadExactly(request: Request, before: seq<Label>, next: Request, labels: seq<Label>)
    requires var s := Run(request, before);
             && s.pending.None? && Schedule(Step(s, Begin(next)), labels)
             && RunFrom(Step(s, Begin(next)), labels).delivery.Free?
    ensures var s := Run(request, before);
            Step(RunFrom(Step(s, Begin(next)), labels), Discard) == RunFrom(s, labels) <==>
            Uncontested(Step(s, Begin(next)), labels)
  {
    var s := Run(request, before);
    RunKeepsInv(request, before);
    if Uncontested(Step(s, Begin(next)), labels) {
      LoadIsInvisibleThroughout(s, next, labels);
    } else {
      var i := FirstContested(Step(s, Begin(next)), labels);
      ContestedLeavesTrace(s, next, labels, i);
    }
  }

  // A failed load of a different episode never leaves a trace.
  lemma DiscardUndoesLoad(request: Request, before: seq<Label>, next: Request, labels: seq<Label>)
    requires var s := Run(request, before);
             && s.pending.None? && !SameEpisode(next, s.current.request)
             && Schedule(Step(s, Begin(next)), labels)
             && RunFrom(Step(s, Begin(next)), labels).delivery.Free?
    ensures var s := Run(request, before);
            Step(RunFrom(Step(s, Begin(next)), labels), Discard) == RunFrom(s, labels)
  {
    DiscardUndoesLoadExactly(request, before, next, labels);
    OtherEpisodeUncontested(Step(Run(request, before), Begin(next)), labels);
  }

  // Reloading the episode that is already playing is different: exactly the events that both the
  // pending and the current episode could claim are taken from the current one.
  lemma EventDuringLoad(s: State, event: Event)
    requires Inv(s) && s.pending.Some? && s.delivery.Free?
    ensures Forget(Step(s, Observe(event))) == Step(Forget(s), Observe(event)) <==> !Claimable(s, event)
  {
  }

  // A failed reload loses what arrived meanwhile: the paused event below is neither applied to
  // the current playback nor given to the relay.
  lemma FailedReloadLosesEvents()
    ensures var request := Request("a", "1", 0, false);
            var event := Event("a", "1", Paused, 5, 9, "");
            && Run(request, [Begin(request), Observe(event), Recheck, Discard]) == Initial(request)
            && Run(request, [Observe(event), Recheck]).emitted == [Item(event, 1)]
            && Run(request, [Observe(event), Recheck]).current.snapshot == Snapshot(5, 9, true)
  {
    var request := Request("a", "1", 0, false);
    var event := Event("a", "1", Paused, 5, 9, "");
    var labels := [Begin(request), Observe(event), Recheck, Discard];
    assert labels[..3][..2][..1][..0] == [];
    assert labels[..3] == [Begin(request), Observe(event), Recheck];
    assert labels[..3][..2] == [Begin(request), Observe(event)];
    assert labels[..3][..2][..1] == [Begin(request)];
    var s0 := Initial(request);
    var s1 := Step(s0, Begin(request));
    var s2 := Step(s1, Observe(event));
    var s3 := Step(s2, Recheck);
    assert RunFrom(s0, labels[..3][..2][..1]) == s1;
    assert RunFrom(s0, labels[..3][..2]) == s2;
    assert RunFrom(s0, labels[..3]) == s3;
    var plain := [Observe(event), Recheck];
    assert plain[..1] == [Observe(event)] && plain[..1][..0] == [];
    assert RunFrom(s0, plain[..1]) == Step(s0, Observe(event));
  }

  // ----- what is saved -----

  // generation and persisted say truthfully whether anything is unsaved.
  lemma SavedIsCurrent(request: Request, labels: seq<Label>)
    ensures var s := Run(request, labels);
            && s.persisted <= s.generation
            && (s.persisted == s.generation ==>
                  s.lastSaved == Some(Checkpoint(s.current.request, s.current.snapshot, s.current.completed)))
  {
    RunKeepsInv(request, labels);
  }

  // After a terminal event nothing of the episode changes any more, except that a write-back may
  // still set completed, until a commit brings the next owner.
  lemma {:induction false} TerminalFreezes(s: State, labels: seq<Label>)
    requires NextOwner(s) && s.current.terminal
    requires RunFrom(s, labels).current.owner == s.current.owner
    ensures var t := RunFrom(s, labels);
            t.generation == s.generation && t.current == s.current.(completed := t.current.completed)
  {
    if labels != [] {
      var rest, l := labels[..|labels| - 1], labels[|labels| - 1];
      OwnersOnlyGrow(s, rest);
      OwnerOnlyGrows(RunFrom(s, rest), l);
      TerminalFreezes(s, rest);
      FrozenStep(RunFrom(s, rest), l);
    }
  }

  lemma FrozenStep(s: State, l: Label)
    requires NextOwner(s) && s.current.terminal && Step(s, l).current.owner == s.current.owner
    ensures var t := Step(s, l);
            t.generation == s.generation && t.current == s.current.(completed := t.current.completed)
  {
  }

  lemma {:induction false} RunFromKeepsInv(s: State, labels: seq<Label>)
    requires Inv(s)
    ensures Inv(RunFrom(s, labels))
  {
    if labels != [] {
      RunFromKeepsInv(s, labels[..|labels| - 1]);
      StepKeepsInv(RunFrom(s, labels[..|labels| - 1]), labels[|labels| - 1]);
    }
  }

  // A pending load has the next owner number.
  predicate NextOwner(s: State) { s.pending.Some? ==> s.pending.value.tracked.owner == s.current.owner + 1 }

  lemma {:induction false} OwnersOnlyGrow(s: State, labels: seq<Label>)
    requires NextOwner(s)
    ensures s.current.owner <= RunFrom(s, labels).current.owner && NextOwner(RunFrom(s, labels))
  {
    if labels != [] {
      OwnersOnlyGrow(s, labels[..|labels| - 1]);
      OwnerOnlyGrows(RunFrom(s, labels[..|labels| - 1]), labels[|labels| - 1]);
    }
  }

  lemma OwnerOnlyGrows(s: State, l: Label)
    requires NextOwner(s)
    ensures s.current.owner <= Step(s, l).current.owner && NextOwner(Step(s, l))
    ensures Step(s, l).current.owner != s.current.owner <==> l.Commit? && Enabled(s, l)
  {
  }

  // ----- completed -----

  // An owner's completed flag never goes back.
  lemma {:induction false} CompletedSticks(s: State, labels: seq<Label>)
    requires NextOwner(s) && s.current.completed
    requires RunFrom(s, labels).current.owner == s.current.owner
    ensures RunFrom(s, labels).current.completed
  {
    if labels != [] {
      var rest, l := labels[..|labels| - 1], labels[|labels| - 1];
      OwnersOnlyGrow(s, rest);
      OwnerOnlyGrows(RunFrom(s, rest), l);
      CompletedSticks(s, rest);
      StepKeepsFlag(RunFrom(s, rest), l);
    }
  }

  lemma StepKeepsFlag(s: State, l: Label)
    requires NextOwner(s) && s.current.completed && Step(s, l).current.owner == s.current.owner
    ensures Step(s, l).current.completed
  {
  }

  // No commit falls between a checkpoint's capture and its write-back.
  ghost predicate NoCommitWhileSaving(request: Request, labels: seq<Label>) {
    forall i :: 0 <= i < |labels| && labels[i].Commit? ==> Run(request, labels[..i]).saver.Resting?
  }

  // The flag is exactly what the owner's own events and readings say or what a write-back of an
  // earlier owner's completed checkpoint added; the write-back is not keyed on the owner.
  lemma CompletedExactly(request: Request, labels: seq<Label>)
    ensures var s := Run(request, labels);
            && (s.current.completed <==> Earned(s.current) || s.foreign)
            && (s.pending.Some? ==> (s.pending.value.tracked.completed <==> Earned(s.pending.value.tracked)))
  {
    RunKeepsInv(request, labels);
  }

  lemma {:induction false} CompletedIsEarned(request: Request, labels: seq<Label>)
    requires NoCommitWhileSaving(request, labels)
    ensures var s := Run(request, labels);
            && (s.current.completed <==> Earned(s.current))
            && (!s.saver.Resting? ==> s.saver.owner == s.current.owner)
            && !s.foreign
  {
    RunKeepsInv(request, labels);
    if labels != [] {
      var rest, l := labels[..|labels| - 1], labels[|labels| - 1];
      assert forall i :: 0 <= i < |rest| ==> rest[..i] == labels[..i] && rest[i] == labels[i];
      assert NoCommitWhileSaving(request, rest);
      CompletedIsEarned(request, rest);
      StaysUnmixed(Run(request, rest), l);
    }
  }

  // With commits only while nothing is being saved, the checkpoint in hand is the current owner's.
  lemma StaysUnmixed(s: State, l: Label)
    requires !s.foreign && (!s.saver.Resting? ==> s.saver.owner == s.current.owner)
    requires l.Commit? ==> s.saver.Resting?
    ensures var t := Step(s, l); !t.foreign && (!t.saver.Resting? ==> t.saver.owner == t.current.owner)
  {
  }

  // The write-back changes the flag wrongly exactly when the checkpoint was captured as completed
  // under an earlier owner and the present owner is not completed.
  lemma WriteBackMisplaced(s: State)
    requires Inv(s) && s.saver.Stored?
    ensures Step(s, WriteBack).current.completed != s.current.completed <==>
            s.saver.owner != s.current.owner && s.saver.entry.completed && !s.current.completed
    ensures s.saver.owner != s.current.owner ==> s.saver.owner < s.current.owner
  {
  }

  const FIRST := Request("a", "1", 0, false)
  const SECOND := Request("a", "2", 0, false)
  const FIRST_ENDS := Event("a", "1", Ended, 100, 100, "")
  const SECOND_STARTS := Event("a", "2", Progress, 1, 100, "")

  // The first episode ends and its checkpoint is captured.
  lemma CaptureEnded() returns (s: State)
    ensures s == RunFrom(Initial(FIRST), [Observe(FIRST_ENDS), Recheck, Capture])
    ensures s.saver == Captured(2, Checkpoint(FIRST, Snapshot(100, 100, false), true), 1)
    ensures s.current.owner == 1 && s.generation == 2 && s.persisted == 0 && s.delivery.Free? && s.pending.None?
  {
    var s0 := Initial(FIRST);
    var s1 := Step(s0, Observe(FIRST_ENDS));
    var s2 := Step(s1, Recheck);
    s := Step(s2, Capture);
    RunFromSteps(s0, [Observe(FIRST_ENDS), Recheck, Capture], [s0, s1, s2, s]);
  }

  // The second one is committed before that checkpoint is written back.
  lemma WriteBackAfterCommit(s: State) returns (t: State)
    requires s.saver == Captured(2, Checkpoint(FIRST, Snapshot(100, 100, false), true), 1)
    requires s.current.owner == 1 && s.generation == 2 && s.persisted == 0 && s.delivery.Free? && s.pending.None?
    ensures t == RunFrom(s, [Begin(SECOND), Commit, Store(true, true), WriteBack])
    ensures t.current == NewTracked(SECOND, 2).(completed := true)
    ensures t.saver.Resting? && t.delivery.Free? && t.pending.None? && t.persisted < t.generation
  {
    var s1 := Step(s, Begin(SECOND));
    var s2 := Step(s1, Commit);
    var s3 := Step(s2, Store(true, true));
    t := Step(s3, WriteBack);
    RunFromSteps(s, [Begin(SECOND), Commit, Store(true, true), WriteBack], [s, s1, s2, s3, t]);
  }

  // From there the next checkpoint stores the wrong flag.
  lemma NextCheckpointStoresFlag(s: State) returns (t: State)
    requires s.current == NewTracked(SECOND, 2).(completed := true)
    requires s.saver.Resting? && s.delivery.Free? && s.pending.None? && s.persisted < s.generation
    ensures t == RunFrom(s, [Observe(SECOND_STARTS), Recheck, Capture, Store(true, true)])
    ensures t.current == Tracked(SECOND, Snapshot(1, 100, false), true, false, 2, [Reading(1, 100, false)])
    ensures t.lastSaved == Some(Checkpoint(SECOND, Snapshot(1, 100, false), true))
  {
    var s1 := Step(s, Observe(SECOND_STARTS));
    var s2 := Step(s1, Recheck);
    var s3 := Step(s2, Capture);
    t := Step(s3, Store(true, true));
    RunFromSteps(s, [Observe(SECOND_STARTS), Recheck, Capture, Store(true, true)], [s, s1, s2, s3, t]);
  }

  lemma {:induction false} RunFromAppend(s: State, a: seq<Label>, b: seq<Label>)
    ensures RunFrom(s, a + b) == RunFrom(RunFrom(s, a), b)
  {
    if b == [] {
      assert a + b == a;
    } else {
      assert (a + b)[..|a + b| - 1] == a + b[..|b| - 1];
      RunFromAppend(s, a, b[..|b| - 1]);
    }
  }

  // Without that premise the new episode inherits the old one's flag, and the next checkpoint
  // stores it as watched: here "2" is saved completed at position 1 of 100.
  lemma CommitWhileSavingMarksNextEpisode()
    ensures var s := Run(FIRST,
              [Observe(FIRST_ENDS), Recheck, Capture] + ([Begin(SECOND), Commit, Store(true, true), WriteBack] +
              [Observe(SECOND_STARTS), Recheck, Capture, Store(true, true)]));
            && s.current.request == SECOND && s.current.completed && !Earned(s.current)
            && s.lastSaved == Some(Checkpoint(SECOND, Snapshot(1, 100, false), true))
  {
    var s := CaptureEnded();
    var t := WriteBackAfterCommit(s);
    var u := NextCheckpointStoresFlag(t);
    var a := [Begin(SECOND), Commit, Store(true, true), WriteBack];
    var b := [Observe(SECOND_STARTS), Recheck, Capture, Store(true, true)];
    RunFromAppend(s, a, b);
    RunFromAppend(Initial(FIRST), [Observe(FIRST_ENDS), Recheck, Capture], a + b);
  }

  // A run follows the listed states when each is a step from the one before.
  lemma {:induction false} RunFromSteps(s: State, labels: seq<Label>, states: seq<State>)
    requires |states| == |labels| + 1 && states[0] == s
    requires forall i :: 0 <= i < |labels| ==> states[i + 1] == Step(states[i], labels[i])
    ensures RunFrom(s, labels) == states[|labels|]
  {
    if labels != [] {
      RunFromSteps(s, labels[..|labels| - 1], states[..|labels|]);
    }
  }

  // ----- the session object -----

  class TrackedSession {
    var current: Tracked
    var generation: nat
    var persisted: nat
    var pending: Option<Pending>
    var delivery: Delivery
    var saver: Saver
    ghost var lastSaved: Option<Checkpoint>
    ghost var emitted: seq<Item>
    ghost var foreign: bool

    ghost function View(): State
      reads this
    {
      State(current, generation, persisted, pending, delivery, saver, lastSaved, emitted, foreign)
    }

    constructor (request: Request)
      ensures View() == Initial(request)
    {
      current, generation, persisted, pending := NewTracked(request, 1), 1, 0, None;
      delivery, saver, lastSaved, emitted, foreign := Free, Resting, None, [], false;
    }

    method BeginPending(request: Request)
      requires pending.None?
      modifies this
      ensures View() == Step(old(View()), Begin(request))
    {
      pending := Some(Pending(NewTracked(request, current.owner + 1), [], false, []));
    }

    method DiscardPending()
      requires pending.Some? && delivery.Free?
      modifies this
      ensures View() == Step(old(View()), Discard)
    {
      pending := None;
    }

    method CommitPending() returns (checkpoint: bool)
      requires pending.Some? && delivery.Free?
      modifies this
      ensures View() == Step(old(View()), Commit)
      ensures checkpoint == old(pending.value.checkpoint)
    {
      var load := pending.value;
      current := load.tracked;
      generation := generation + 1;
      pending := None;
      foreign := false;
      if load.events != [] {
        delivery := Publishing(Tag(load.events, load.tracked.owner));
      }
      checkpoint := load.checkpoint;
    }

    // One turn of commitPending's publishing loop.
    method EmitNextEvent() returns (item: Item)
      requires delivery.Publishing? && delivery.items != []
      modifies this
      ensures View() == Step(old(View()), EmitNext)
      ensures emitted == old(emitted) + [item]
    {
      item := delivery.items[0];
      emitted := emitted + [item];
      delivery := if |delivery.items| == 1 then Free else Publishing(delivery.items[1..]);
    }

    // The second lock section of refreshSnapshot; reading is what the player answered.
    method RefreshSnapshot(reading: Option<Snapshot>) returns (snapshot: Option<Snapshot>)
      requires pending.None?
      modifies this
      ensures View() == Step(old(View()), Refresh(reading))
      ensures snapshot ==
              if old(current.terminal) then Some(old(current.snapshot))
              else if reading.None? || reading.value.position < 0 || reading.value.duration < 0 then None
              else reading
      ensures snapshot.Some? ==> current.snapshot == snapshot.value
      ensures generation == old(generation) + (if current.snapshot != old(current.snapshot) then 1 else 0)
    {
      if current.terminal {
        return Some(current.snapshot);
      }
      if reading.None? || !ValidSnapshot(reading.value) {
        return None;
      }
      var r := reading.value;
      if r != current.snapshot {
        current := current.(snapshot := r,
                            completed := current.completed || ThresholdReached(r.position, r.duration),
                            seen := current.seen + [Reading(r.position, r.duration, false)]);
        generation := generation + 1;
      }
      return Some(r);
    }

    method ObserveEvent(event: Event) returns (checkpoint: bool, owner: nat)
      requires delivery.Free?
      modifies this
      ensures View() == Step(old(View()), Observe(event))
      ensures if delivery.Observed? then delivery == Observed(event, owner) else owner == 0
      ensures checkpoint <==> generation > old(generation) && event.kind in {Paused, Ended, Stopped, Failed}
    {
      if event.position < 0 || event.duration < 0 {
        return false, 0;
      }
      if pending.Some? && Matches(pending.value.tracked.request, event) {
        var load := pending.value;
        if load.tracked.terminal {
          return false, 0;
        }
        var events := AppendPendingEvent(load.events, event);
        pending := Some(Pending(Apply(load.tracked, event), events,
                                load.checkpoint || IsCheckpointBoundary(event.kind), load.arrived + [event]));
        delivery := Observed(event, load.tracked.owner);
        return false, load.tracked.owner;
      }
      if Matches(current.request, event) {
        if current.terminal {
          return false, 0;
        }
        current := Apply(current, event);
        generation := generation + 1;
        delivery := Observed(event, current.owner);
        return IsCheckpointBoundary(event.kind), current.owner;
      }
      return false, 0;
    }

    // The rest of handleRawEvent: the relay gets the event unless it is a pending episode's.
    method ForwardObserved() returns (item: Option<Item>)
      requires delivery.Observed?
      modifies this
      ensures View() == Step(old(View()), Recheck)
      ensures emitted == if item.Some? then old(emitted) + [item.value] else old(emitted)
    {
      var event, owner := delivery.event, delivery.owner;
      delivery := Free;
      if pending.Some? && pending.value.tracked.owner == owner {
        return None;
      }
      emitted := emitted + [Item(event, owner)];
      return Some(Item(event, owner));
    }

    method CaptureCheckpoint()
      requires saver.Resting?
      modifies this
      ensures View() == Step(old(View()), Capture)
    {
      if generation == persisted {
        return;
      }
      if current.request.anime == "" || current.request.episode == "" || !ValidSnapshot(current.snapshot) {
        return;
      }
      saver := Captured(generation, Entry(current), current.owner);
    }

    method StoreCheckpoint(ok: bool, reached: bool)
      requires saver.Captured?
      modifies this
      ensures View() == Step(old(View()), Store(ok, reached))
    {
      if ok || reached {
        lastSaved := Some(saver.entry);
      }
      saver := if ok then Stored(saver.generation, saver.entry, saver.owner) else Resting;
    }

    method WriteBackCheckpoint()
      requires saver.Stored?
      modifies this
      ensures View() == Step(old(View()), WriteBack)
    {
      if saver.generation > persisted {
        persisted := saver.generation;
      }
      foreign := foreign || (saver.entry.completed && saver.owner != current.owner);
      if saver.entry.completed {
        current := current.(completed := true);
      }
      saver := Resting;
    }
  }

  method AppendPendingEvent(events: seq<Event>, event: Event) returns (after: seq<Event>)
    ensures after == AppendPending(events, event)
  {
    if event.kind == Progress && |events| > 0 {
      var last := |events| - 1;
      if events[last].kind == Progress {
        return events[..last] + [event];
      }
    }
    after := events;
    if |events| >= QUEUE_CAPACITY {
      var index := 0;
      while index < |events|
        invariant index <= |events|
        invariant forall k :: 0 <= k < index ==> events[k].kind != Progress
      {
        if events[index].kind == Progress {
          FirstProgressEventIs(events, index);
          return events[..index] + events[index + 1..] + [event];
        }
        index := index + 1;
      }
      if !IsTerminal(event.kind) {
        return events;
      }
      after := events[1..];
    }
    return after + [event];
  }

  lemma {:induction false} FirstProgressEventIs(events: seq<Event>, i: nat)
    requires i < |events| && events[i].kind == Progress
    requires forall k :: 0 <= k < i ==> events[k].kind != Progress
    ensures FirstProgressEvent(events) == i
  {
    if i > 0 {
      assert forall k :: 0 <= k < i - 1 ==> events[1..][k] == events[k + 1];
      FirstProgressEventIs(events[1..], i - 1);
    }
  }
}

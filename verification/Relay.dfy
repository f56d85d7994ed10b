// The event relay of the tracking session: publish fills two bounded queues, one goroutine
// drains them, and a terminal event overtakes and clears what is still queued.
module Relay {
  import opened PlaybackEvents
  import opened Sequences

  // Where the draining goroutine stands between two lock releases. Checking and Offering are
  // the two halves of deliverQueued: the event has left the queue but is not delivered yet.
  datatype Runner =
    | AtTop
    | SendingPriority(item: Item)
    | Checking(item: Item, generation: nat)
    | Offering(item: Item, generation: nat)
    | Parked
    | Halted

  // waking: a publisher has left the critical section but not yet signalled wake.
  // published and delivered are histories.
  datatype State = State(
    queue: seq<Item>,
    priority: seq<Item>,
    lastTerminalOwner: nat,
    terminalSeen: bool,
    queueGeneration: nat,
    runner: Runner,
    wake: bool,
    waking: bool,
    published: seq<Item>,
    delivered: seq<Item>)

  datatype Label = Publish(item: Item) | Signal | Next | Send | Check | TakeWake | Halt

  const INITIAL := State([], [], 0, false, 0, AtTop, false, false, [], [])

  // ----- the atomic steps -----

  function FirstProgress(queue: seq<Item>): (i: nat)
    ensures i <= |queue|
    ensures i < |queue| ==> IsProgress(queue[i])
    ensures forall k :: 0 <= k < i ==> !IsProgress(queue[k])
  {
    if queue == [] || IsProgress(queue[0]) then 0 else 1 + FirstProgress(queue[1..])
  }

  predicate ContinuesProgress(queue: seq<Item>, item: Item) {
    IsProgress(item) && queue != [] && queue[|queue| - 1].owner == item.owner && IsProgress(queue[|queue| - 1])
  }

  function Enqueue(queue: seq<Item>, item: Item): seq<Item> {
    if ContinuesProgress(queue, item) then
      queue[..|queue| - 1] + [item]
    else if |queue| < QUEUE_CAPACITY then
      queue + [item]
    else
      var i := FirstProgress(queue);
      if i < |queue| then queue[..i] + queue[i + 1..] + [item] else queue
  }

  function PublishStep(s: State, item: Item): State {
    var p := s.(published := s.published + [item]);
    if s.terminalSeen && s.lastTerminalOwner == item.owner then
      p
    else if EndsOwner(item) then
      p.(terminalSeen := true, lastTerminalOwner := item.owner, queue := [], queueGeneration := s.queueGeneration + 1,
         priority := if |s.priority| < QUEUE_CAPACITY then s.priority + [item] else s.priority, waking := true)
    else if |s.queue| >= QUEUE_CAPACITY && !ContinuesProgress(s.queue, item) && FirstProgress(s.queue) == |s.queue| then
      p
    else
      p.(queue := Enqueue(s.queue, item), waking := true)
  }

  function NextStep(s: State): State {
    if |s.priority| > 0 then
      s.(runner := SendingPriority(s.priority[0]), priority := s.priority[1..])
    else if |s.queue| > 0 then
      s.(runner := Checking(s.queue[0], s.queueGeneration), queue := s.queue[1..])
    else
      s.(runner := Parked)
  }

  predicate Enabled(s: State, l: Label) {
    match l
    case Publish(_) => !s.waking
    case Signal => s.waking
    case Next => s.runner.AtTop?
    case Send => s.runner.SendingPriority? || s.runner.Offering?
    case Check => s.runner.Checking?
    case TakeWake => s.wake && (s.runner.Offering? || s.runner.Parked?)
    case Halt => s.runner.SendingPriority? || s.runner.Offering? || s.runner.Parked?
  }

  function Step(s: State, l: Label): State {
    if !Enabled(s, l) then s else
    match l
    case Publish(item) => PublishStep(s, item)
    case Signal => s.(waking := false, wake := true)
    case Next => NextStep(s)
    case Send => s.(delivered := s.delivered + [s.runner.item], runner := AtTop)
    case Check =>
      if s.queueGeneration != s.runner.generation then s.(runner := AtTop)
      else s.(runner := Offering(s.runner.item, s.runner.generation))
    case TakeWake =>
      s.(wake := false, runner := if s.runner.Parked? then AtTop else Checking(s.runner.item, s.runner.generation))
    case Halt => s.(runner := Halted)
  }

  // One schedule: any interleaving of the publisher's and the goroutine's steps.
  function Run(labels: seq<Label>): State {
    if labels == [] then INITIAL else Step(Run(labels[..|labels| - 1]), labels[|labels| - 1])
  }

  // ----- what publish accepts -----

  ghost predicate OwnerEnded(published: seq<Item>, owner: nat) {
    exists i :: 0 <= i < |published| && EndsOwner(published[i]) && published[i].owner == owner
  }

  // The published events whose owner had not ended before them.
  ghost function Accepted(published: seq<Item>): seq<Item> {
    if published == [] then []
    else
      var rest, item := published[..|published| - 1], published[|published| - 1];
      if OwnerEnded(rest, item.owner) then Accepted(rest) else Accepted(rest) + [item]
  }

  // ----- the invariant -----

  function Held(s: State): seq<Item> {
    if s.runner.SendingPriority? || s.runner.Checking? || s.runner.Offering? then [s.runner.item] else []
  }

  // What has been or may still be delivered, in the order in which it would be.
  function Pipeline(s: State): seq<Item> {
    s.delivered + Held(s) + s.priority + s.queue
  }

  ghost predicate Bounded(s: State) {
    |s.queue| <= QUEUE_CAPACITY && |s.priority| <= QUEUE_CAPACITY
  }

  // lastTerminalOwner is the newest owner with a published terminal event.
  ghost predicate TerminalsRecorded(s: State) {
    && (forall i :: 0 <= i < |s.published| && EndsOwner(s.published[i]) ==>
          s.terminalSeen && s.published[i].owner <= s.lastTerminalOwner)
    && (s.terminalSeen ==> OwnerEnded(s.published, s.lastTerminalOwner))
  }

  // item belongs to an owner that has not ended.
  predicate Live(s: State, item: Item) {
    s.terminalSeen ==> item.owner > s.lastTerminalOwner
  }

  // The queue holds only events of owners that have not ended, and a dequeued event whose owner
  // ended meanwhile carries an outdated generation, so that deliverQueued can tell.
  ghost predicate QueueLive(s: State) {
    && (forall i :: 0 <= i < |s.queue| ==> Live(s, s.queue[i]) && !EndsOwner(s.queue[i]))
    && (forall i :: 0 <= i < |s.priority| ==> EndsOwner(s.priority[i]))
    && (s.runner.SendingPriority? ==> EndsOwner(s.runner.item))
    && (s.runner.Checking? || s.runner.Offering? ==>
          && s.runner.generation <= s.queueGeneration
          && !EndsOwner(s.runner.item)
          && (s.runner.generation == s.queueGeneration ==> Live(s, s.runner.item)))
  }

  // A goroutine that sleeps while there is work for it has a wake-up under way.
  ghost predicate NoLostWakeup(s: State) {
    && (s.runner.Parked? && (s.queue != [] || s.priority != []) ==> s.wake || s.waking)
    && (s.runner.Offering? && s.runner.generation != s.queueGeneration ==> s.wake || s.waking)
  }

  ghost predicate Inv(s: State) {
    && Bounded(s)
    && OwnersOrdered(s.published)
    && TerminalsRecorded(s)
    && QueueLive(s)
    && NoLostWakeup(s)
    && Subsequence(Pipeline(s), Accepted(s.published))
  }

  // ----- accepted events -----

  lemma {:induction false} AcceptedSubsequence(published: seq<Item>)
    ensures Subsequence(Accepted(published), published)
  {
    if published == [] {
      SubsequenceSame(published);
    } else {
      var rest, item := published[..|published| - 1], published[|published| - 1];
      AcceptedSubsequence(rest);
      SubsequenceSkip(Accepted(rest), rest, item);
      SubsequenceTake(Accepted(rest), rest, item);
      assert published == rest + [item];
    }
  }

  lemma {:induction false} AcceptedEnds(published: seq<Item>)
    requires OwnersOrdered(published)
    ensures NothingAfterTerminal(Accepted(published))
    ensures OwnersOrdered(Accepted(published))
  {
    AcceptedSubsequence(published);
    if published != [] {
      var rest, item := published[..|published| - 1], published[|published| - 1];
      AcceptedEnds(rest);
      AcceptedSubsequence(rest);
      var f: seq<nat> :| Embeds(f, Accepted(rest), rest);
    }
  }

  // The single remembered owner is enough: with owners in order it refuses exactly the events
  // whose owner has already ended.
  lemma RefusedExactlyWhenEnded(s: State, item: Item)
    requires Inv(s) && OwnersOrdered(s.published + [item])
    ensures s.terminalSeen && s.lastTerminalOwner == item.owner <==> OwnerEnded(s.published, item.owner)
  {
    var all := s.published + [item];
    assert forall i :: 0 <= i < |s.published| ==> all[i] == s.published[i] && all[i].owner <= all[|s.published|].owner;
    if s.terminalSeen && s.lastTerminalOwner == item.owner {
      var i :| 0 <= i < |s.published| && EndsOwner(s.published[i]) && s.published[i].owner == s.lastTerminalOwner;
    }
  }

  // ----- publish -----

  // Queuing only ever removes elements from the pipeline and appends the new one.
  lemma EnqueueKeepsOrder(front: seq<Item>, queue: seq<Item>, kept: seq<Item>, item: Item)
    requires Subsequence(front + queue, kept)
    ensures Subsequence(front + Enqueue(queue, item), kept + [item])
  {
    if ContinuesProgress(queue, item) {
      var n := |front| + |queue| - 1;
      SubsequencePrefix(front + queue, kept, n);
      SubsequenceTake((front + queue)[..n], kept, item);
      assert front + Enqueue(queue, item) == (front + queue)[..n] + [item];
    } else if |queue| < QUEUE_CAPACITY {
      SubsequenceTake(front + queue, kept, item);
      assert front + Enqueue(queue, item) == front + queue + [item];
    } else if FirstProgress(queue) < |queue| {
      EvictKeepsOrder(front, queue, kept, item, FirstProgress(queue));
    } else {
      SubsequenceSkip(front + queue, kept, item);
    }
  }

  lemma EvictKeepsOrder(front: seq<Item>, queue: seq<Item>, kept: seq<Item>, item: Item, i: nat)
    requires Subsequence(front + queue, kept) && i < |queue|
    ensures Subsequence(front + (queue[..i] + queue[i + 1..] + [item]), kept + [item])
  {
    var all, n := front + queue, |front| + i;
    SubsequenceDrop(all, kept, n);
    assert all[..n] == front + queue[..i] && all[n + 1..] == queue[i + 1..];
    SubsequenceTake(all[..n] + all[n + 1..], kept, item);
    assert front + (queue[..i] + queue[i + 1..] + [item]) == all[..n] + all[n + 1..] + [item];
  }

  // What publishing does to the events on their way.
  lemma PublishPipeline(s: State, item: Item)
    ensures var front, p := s.delivered + Held(s) + s.priority, Pipeline(PublishStep(s, item));
      if s.terminalSeen && s.lastTerminalOwner == item.owner then p == front + s.queue
      else if EndsOwner(item) then p in {front, s.delivered + Held(s) + (s.priority + [item])}
      else p == front + Enqueue(s.queue, item)
  {
    var front := s.delivered + Held(s) + s.priority;
    assert front + [] == front;
    assert s.delivered + Held(s) + (s.priority + [item]) + [] == s.delivered + Held(s) + (s.priority + [item]);
  }

  lemma PublishKeepsOrder(s: State, item: Item)
    requires Inv(s) && OwnersOrdered(s.published + [item])
    ensures Subsequence(Pipeline(PublishStep(s, item)), Accepted(PublishStep(s, item).published))
  {
    var front := s.delivered + Held(s) + s.priority;
    var kept := Accepted(s.published);
    PublishPipeline(s, item);
    RefusedExactlyWhenEnded(s, item);
    if EndsOwner(item) {
      TerminalKeepsOrder(s, front, kept, item);
    } else {
      EnqueueKeepsOrder(front, s.queue, kept, item);
    }
  }

  // A terminal event goes in behind the priority events, and the queue is dropped.
  lemma TerminalKeepsOrder(s: State, front: seq<Item>, kept: seq<Item>, item: Item)
    requires front == s.delivered + Held(s) + s.priority && Subsequence(front + s.queue, kept)
    ensures Subsequence(front, kept + [item])
    ensures Subsequence(s.delivered + Held(s) + (s.priority + [item]), kept + [item])
  {
    SubsequencePrefix(front + s.queue, kept, |front|);
    assert (front + s.queue)[..|front|] == front;
    SubsequenceTake(front, kept, item);
    SubsequenceSkip(front, kept, item);
    assert s.delivered + Held(s) + (s.priority + [item]) == front + [item];
  }

  // In an ordered history the last owner is the newest.
  lemma NewestOwner(published: seq<Item>, item: Item)
    requires OwnersOrdered(published + [item])
    ensures forall owner: nat :: OwnerEnded(published, owner) ==> owner <= item.owner
  {
    var all, n := published + [item], |published|;
    forall owner: nat | OwnerEnded(published, owner) ensures owner <= item.owner {
      var i :| 0 <= i < n && EndsOwner(published[i]) && published[i].owner == owner;
      assert all[i].owner <= all[n].owner;
    }
  }

  lemma PublishKeepsTerminals(s: State, item: Item)
    requires TerminalsRecorded(s) && OwnersOrdered(s.published + [item])
    ensures TerminalsRecorded(PublishStep(s, item))
  {
    NewestOwner(s.published, item);
    var all := s.published + [item];
    if s.terminalSeen {
      var i :| 0 <= i < |s.published| && EndsOwner(s.published[i]) && s.published[i].owner == s.lastTerminalOwner;
      assert EndsOwner(all[i]) && all[i].owner == s.lastTerminalOwner;
    }
    if EndsOwner(item) {
      assert EndsOwner(all[|s.published|]) && all[|s.published|].owner == item.owner;
    }
  }

  lemma PublishKeepsQueue(s: State, item: Item)
    requires TerminalsRecorded(s) && QueueLive(s) && OwnersOrdered(s.published + [item])
    ensures QueueLive(PublishStep(s, item))
  {
    NewestOwner(s.published, item);
  }

  lemma PublishKeepsInv(s: State, item: Item)
    requires Inv(s) && !s.waking && OwnersOrdered(s.published + [item])
    ensures Inv(PublishStep(s, item))
  {
    PublishKeepsOrder(s, item);
    PublishKeepsTerminals(s, item);
    PublishKeepsQueue(s, item);
    PublishKeepsBounds(s, item);
    PublishAppends(s, item);
  }

  lemma PublishAppends(s: State, item: Item)
    ensures PublishStep(s, item).published == s.published + [item]
  {
  }

  lemma PublishKeepsBounds(s: State, item: Item)
    requires Bounded(s) && NoLostWakeup(s) && !s.waking
    ensures Bounded(PublishStep(s, item)) && NoLostWakeup(PublishStep(s, item))
  {
  }

  // ----- the goroutine's steps -----

  lemma NextKeepsPipeline(s: State)
    requires s.runner.AtTop?
    ensures Pipeline(NextStep(s)) == Pipeline(s)
  {
    if |s.priority| > 0 {
      assert s.priority == [s.priority[0]] + s.priority[1..];
    } else if |s.queue| > 0 {
      assert s.queue == [s.queue[0]] + s.queue[1..];
    }
  }

  lemma DropHeld(delivered: seq<Item>, held: seq<Item>, priority: seq<Item>, queue: seq<Item>)
    requires |held| == 1
    ensures var p, n := delivered + held + priority + queue, |delivered|;
            n < |p| && delivered + [] + priority + queue == p[..n] + p[n + 1..]
  {
    var p, n := delivered + held + priority + queue, |delivered|;
    var rest := priority + queue;
    assert p == delivered + held + rest;
    assert p[..n] == delivered;
    assert p[n + 1..] == rest;
    assert delivered + [] == delivered;
    assert delivered + priority + queue == delivered + rest;
  }

  // Every step of the goroutine moves one event along the pipeline or drops the held one.
  lemma DrainPipeline(s: State, l: Label)
    requires Enabled(s, l) && !l.Publish?
    ensures var p, n := Pipeline(s), |s.delivered|;
            Pipeline(Step(s, l)) == p || (n < |p| && Pipeline(Step(s, l)) == p[..n] + p[n + 1..])
  {
    match l
    case Next => NextKeepsPipeline(s);
    case Send => assert s.delivered + Held(s) + [] == s.delivered + Held(s);
    case Check => DropHeld(s.delivered, Held(s), s.priority, s.queue);
    case Halt =>
      if !s.runner.Parked? {
        DropHeld(s.delivered, Held(s), s.priority, s.queue);
      }
    case Signal =>
    case TakeWake =>
  }

  lemma DrainKeepsInv(s: State, l: Label)
    requires Inv(s) && !l.Publish?
    ensures Inv(Step(s, l))
  {
    DrainPublishesNothing(s, l);
    DrainKeepsQueue(s, l);
    DrainKeepsWakeup(s, l);
    DrainKeepsOrder(s, l);
  }

  lemma DrainKeepsOrder(s: State, l: Label)
    requires Subsequence(Pipeline(s), Accepted(s.published)) && !l.Publish?
    ensures Subsequence(Pipeline(Step(s, l)), Accepted(s.published))
  {
    if Enabled(s, l) {
      DrainPipeline(s, l);
      if Pipeline(Step(s, l)) != Pipeline(s) {
        SubsequenceDrop(Pipeline(s), Accepted(s.published), |s.delivered|);
      }
    }
  }

  lemma DrainPublishesNothing(s: State, l: Label)
    requires !l.Publish?
    ensures var t := Step(s, l);
            t.published == s.published && t.terminalSeen == s.terminalSeen && t.lastTerminalOwner == s.lastTerminalOwner
  {
  }

  lemma DrainKeepsQueue(s: State, l: Label)
    requires QueueLive(s) && !l.Publish?
    ensures QueueLive(Step(s, l))
  {
    if l.Next? && Enabled(s, l) { NextKeepsQueue(s); }
  }

  lemma NextKeepsQueue(s: State)
    requires QueueLive(s)
    ensures QueueLive(NextStep(s))
  {
  }

  lemma DrainKeepsWakeup(s: State, l: Label)
    requires NoLostWakeup(s) && Bounded(s) && !l.Publish?
    ensures NoLostWakeup(Step(s, l)) && Bounded(Step(s, l))
  {
  }

  lemma {:induction false} RunKeepsInv(labels: seq<Label>)
    requires OwnersOrdered(Run(labels).published)
    ensures Inv(Run(labels))
  {
    if labels == [] {
      SubsequenceSame<Item>([]);
      assert Pipeline(INITIAL) == [] && Accepted([]) == [];
    } else {
      var before, l := labels[..|labels| - 1], labels[|labels| - 1];
      var s := Run(before);
      PublishedGrows(s, l);
      RunKeepsInv(before);
      StepKeepsInv(s, l);
    }
  }

  lemma PublishedGrows(s: State, l: Label)
    ensures s.published <= Step(s, l).published
    ensures OwnersOrdered(Step(s, l).published) ==> OwnersOrdered(s.published)
  {
    assert l.Publish? ==> Step(s, l).published in {s.published, s.published + [l.item]};
  }

  lemma StepKeepsInv(s: State, l: Label)
    requires Inv(s) && OwnersOrdered(Step(s, l).published)
    ensures Inv(Step(s, l))
  {
    if l.Publish? {
      if Enabled(s, l) { PublishKeepsInv(s, l.item); }
    } else {
      DrainKeepsInv(s, l);
    }
  }

  lemma DeliveredInOrder(s: State)
    requires Inv(s)
    ensures Subsequence(s.delivered, Accepted(s.published))
    ensures Subsequence(s.delivered, s.published)
    ensures OwnersOrdered(s.delivered) && NothingAfterTerminal(s.delivered)
  {
    SubsequencePrefix(Pipeline(s), Accepted(s.published), |s.delivered|);
    assert Pipeline(s)[..|s.delivered|] == s.delivered;
    AcceptedEnds(s.published);
    AcceptedSubsequence(s.published);
    SubsequenceTrans(s.delivered, Accepted(s.published), s.published);
  }

  // The delivery guarantee, for every interleaving: what the app receives is the accepted part
  // of what was published, in order, owner after owner, with nothing after an owner's terminal.
  lemma DeliveryInOrder(labels: seq<Label>)
    requires OwnersOrdered(Run(labels).published)
    ensures var s := Run(labels);
            && Subsequence(s.delivered, Accepted(s.published))
            && Subsequence(s.delivered, s.published)
            && OwnersOrdered(s.delivered)
            && NothingAfterTerminal(s.delivered)
            && |s.queue| <= QUEUE_CAPACITY && |s.priority| <= QUEUE_CAPACITY
  {
    RunKeepsInv(labels);
    DeliveredInOrder(Run(labels));
  }

  // Once queued for delivery, a terminal event is lost only when the relay halts.
  lemma TerminalSurvives(s: State, l: Label, item: Item)
    requires QueueLive(s) && !l.Halt? && EndsOwner(item) && item in Pipeline(s)
    ensures item in Pipeline(Step(s, l))
  {
    if Enabled(s, l) {
      if l.Publish? {
        TerminalKeptByPublish(s, l.item, item);
      } else {
        DrainPipeline(s, l);
        var p, n := Pipeline(s), |s.delivered|;
        if Pipeline(Step(s, l)) != p {
          assert l.Check? && p[n] == s.runner.item != item;
          assert p == p[..n] + [p[n]] + p[n + 1..];
        }
      }
    }
  }

  lemma TerminalKeptByPublish(s: State, other: Item, item: Item)
    requires QueueLive(s) && EndsOwner(item) && item in Pipeline(s)
    ensures item in Pipeline(PublishStep(s, other))
  {
    var front, t := s.delivered + Held(s), PublishStep(s, other);
    assert Pipeline(s) == front + s.priority + s.queue;
    assert item !in s.queue;
    assert s.priority <= t.priority && Pipeline(t) == front + t.priority + t.queue;
    assert item in front + s.priority;
  }

  // Publishing a terminal event leaves only the dequeued event and terminal events to deliver:
  // everything else that was waiting is gone.
  lemma TerminalClears(s: State, item: Item)
    requires Inv(s) && EndsOwner(item) && OwnersOrdered(s.published + [item]) && !OwnerEnded(s.published, item.owner)
    ensures var p := Pipeline(PublishStep(s, item));
            forall i :: |s.delivered| <= i < |p| ==> p[i] in Held(s) || EndsOwner(p[i])
    ensures |s.priority| < QUEUE_CAPACITY ==> item in Pipeline(PublishStep(s, item))
  {
    RefusedExactlyWhenEnded(s, item);
    var s' := PublishStep(s, item);
    assert Pipeline(s') == s.delivered + (Held(s) + s'.priority);
  }

  // The dequeued event stays droppable: once its owner has ended, deliverQueued's next look at
  // the generation drops it and the next events come from the terminal's side.
  lemma StaleEventDropped(s: State)
    requires Inv(s) && s.runner.Checking? && !Live(s, s.runner.item)
    ensures Step(s, Check).delivered == s.delivered && Step(s, Check).runner.AtTop?
  {
  }

  // Publishing an event that ends no owner costs at most one queued event, and only a progress
  // event: one that the new event supersedes, or the oldest when the queue is full. The new event
  // itself is lost only when the queue is full of events that must not be lost.
  lemma OnlyProgressIsLost(s: State, item: Item)
    requires Inv(s) && !EndsOwner(item) && OwnersOrdered(s.published + [item]) && !OwnerEnded(s.published, item.owner)
    ensures var queue := PublishStep(s, item).queue;
            && |queue| >= |s.queue|
            && (forall x :: x in s.queue && x !in queue ==> IsProgress(x))
            && (forall x :: x in s.queue && x !in queue && |s.queue| < QUEUE_CAPACITY ==>
                  IsProgress(item) && x.owner == item.owner)
            && ((|queue| > 0 && queue[|queue| - 1] == item)
                || (queue == s.queue && |queue| == QUEUE_CAPACITY && forall x :: x in queue ==> !IsProgress(x)))
  {
    RefusedExactlyWhenEnded(s, item);
    EnqueueLoses(s.queue, item);
  }

  lemma EnqueueLoses(queue: seq<Item>, item: Item)
    requires |queue| <= QUEUE_CAPACITY
    ensures var after := Enqueue(queue, item);
            && |after| >= |queue|
            && (forall x :: x in queue && x !in after ==> IsProgress(x))
            && (forall x :: x in queue && x !in after && |queue| < QUEUE_CAPACITY ==>
                  IsProgress(item) && x.owner == item.owner)
  {
    var after := Enqueue(queue, item);
    var i := if ContinuesProgress(queue, item) then |queue| - 1 else FirstProgress(queue);
    forall k | 0 <= k < |queue| && k != i ensures queue[k] in after {
      if |queue| < QUEUE_CAPACITY || k < i || i == |queue| {
        assert queue[k] == after[k];
      } else {
        assert queue[k] == after[k - 1];
      }
    }
  }

  // ----- the relay object -----

  class EventRelay {
    var queue: seq<Item>
    var priority: seq<Item>
    var lastTerminalOwner: nat
    var terminalSeen: bool
    var queueGeneration: nat
    var wake: bool
    var runner: Runner
    ghost var waking: bool
    ghost var published: seq<Item>
    ghost var delivered: seq<Item>

    ghost function View(): State
      reads this
    {
      State(queue, priority, lastTerminalOwner, terminalSeen, queueGeneration, runner, wake, waking, published,
            delivered)
    }

    constructor ()
      ensures View() == INITIAL
    {
      queue, priority, lastTerminalOwner, terminalSeen, queueGeneration := [], [], 0, false, 0;
      wake, runner := false, AtTop;
      waking, published, delivered := false, [], [];
    }

    // Runs under the relay's lock; the wake-up follows after the lock is released.
    method Publish(event: Event, owner: nat)
      requires !waking
      modifies this
      ensures View() == Step(old(View()), Label.Publish(Item(event, owner)))
    {
      var item := Item(event, owner);
      published := published + [item];
      if terminalSeen && lastTerminalOwner == owner {
        return;
      }
      if IsTerminal(event.kind) {
        terminalSeen := true;
        lastTerminalOwner := owner;
        queue := [];
        queueGeneration := queueGeneration + 1;
        if |priority| < QUEUE_CAPACITY {
          priority := priority + [item];
        }
        waking := true;
        return;
      }
      var queued := Append(item);
      if queued {
        waking := true;
      }
    }

    // The tail of publish: an event that does not end its owner joins the queue, replaces a
    // progress event of the same owner at its end, or is dropped when the queue is full of
    // events that must not be lost.
    method Append(item: Item) returns (queued: bool)
      modifies this`queue
      ensures queued <==>
              |old(queue)| < QUEUE_CAPACITY || ContinuesProgress(old(queue), item)
              || FirstProgress(old(queue)) < |old(queue)|
      ensures queue == if queued then Enqueue(old(queue), item) else old(queue)
    {
      if item.event.kind == Progress {
        var last := |queue| - 1;
        if last >= 0 && queue[last].owner == item.owner && queue[last].event.kind == Progress {
          queue := queue[..last] + [item];
          return true;
        }
      }
      if |queue| >= QUEUE_CAPACITY {
        var dropped := DropProgress();
        if !dropped {
          return false;
        }
      }
      queue := queue + [item];
      return true;
    }

    method DropProgress() returns (dropped: bool)
      modifies this`queue
      ensures var i := FirstProgress(old(queue));
              && (dropped <==> i < |old(queue)|)
              && queue == if dropped then old(queue)[..i] + old(queue)[i + 1..] else old(queue)
    {
      var index := 0;
      while index < |queue|
        invariant index <= |queue| && queue == old(queue)
        invariant forall k :: 0 <= k < index ==> !IsProgress(queue[k])
      {
        if queue[index].event.kind == Progress {
          FirstProgressIs(queue, index);
          queue := queue[..index] + queue[index + 1..];
          return true;
        }
        index := index + 1;
      }
      return false;
    }

    method WakeRelay()
      requires waking
      modifies this
      ensures View() == Step(old(View()), Signal)
    {
      wake := true;
      waking := false;
    }

    // One locked section of the drain loop.
    method TakeNext()
      requires runner.AtTop?
      modifies this
      ensures View() == Step(old(View()), Next)
    {
      if |priority| > 0 {
        runner := SendingPriority(priority[0]);
        priority := priority[1..];
      } else if |queue| > 0 {
        runner := Checking(queue[0], queueGeneration);
        queue := queue[1..];
      } else {
        runner := Parked;
      }
    }

    method CheckGeneration()
      requires runner.Checking?
      modifies this
      ensures View() == Step(old(View()), Check)
    {
      var cleared := queueGeneration != runner.generation;
      runner := if cleared then AtTop else Offering(runner.item, runner.generation);
    }

    method Deliver()
      requires runner.SendingPriority? || runner.Offering?
      modifies this
      ensures View() == Step(old(View()), Send)
    {
      delivered := delivered + [runner.item];
      runner := AtTop;
    }

    method ReceiveWake()
      requires wake && (runner.Offering? || runner.Parked?)
      modifies this
      ensures View() == Step(old(View()), TakeWake)
    {
      wake := false;
      runner := if runner.Parked? then AtTop else Checking(runner.item, runner.generation);
    }

    method Stop()
      requires runner.SendingPriority? || runner.Offering? || runner.Parked?
      modifies this
      ensures View() == Step(old(View()), Halt)
    {
      runner := Halted;
    }
  }

  lemma {:induction false} FirstProgressIs(queue: seq<Item>, i: nat)
    requires i < |queue| && IsProgress(queue[i])
    requires forall k :: 0 <= k < i ==> !IsProgress(queue[k])
    ensures FirstProgress(queue) == i
  {
    if i > 0 {
      assert forall k :: 0 <= k < i - 1 ==> queue[1..][k] == queue[k + 1];
      FirstProgressIs(queue[1..], i - 1);
    }
  }
}

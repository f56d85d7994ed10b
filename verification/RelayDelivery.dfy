// What becomes of every event that the relay accepts: it is delivered, still on its way, or lost
// for a reason that the run shows.
module RelayDelivery {
  import opened PlaybackEvents
  import opened Sequences
  import opened Relay

  // ----- how many terminal events came since the held event was dequeued -----

  function CountTerminals(items: seq<Item>): nat {
    if items == [] then 0
    else CountTerminals(items[..|items| - 1]) + if EndsOwner(items[|items| - 1]) then 1 else 0
  }

  // The k-th published event ends its owner, who had not ended before.
  ghost predicate EndsAt(published: seq<Item>, k: nat) {
    k < |published| && EndsOwner(published[k]) && !OwnerEnded(published[..k], published[k].owner)
  }

  // How many events were published when the goroutine last took one from a queue.
  ghost function DequeuedAt(labels: seq<Label>): nat {
    if labels == [] then 0
    else
      var rest, l := labels[..|labels| - 1], labels[|labels| - 1];
      if l.Next? && Enabled(Run(rest), l) then |Run(rest).published| else DequeuedAt(rest)
  }

  // A terminal event was accepted since then.
  ghost predicate Overtaken(labels: seq<Label>) {
    exists k: nat :: k >= DequeuedAt(labels) && EndsAt(Run(labels).published, k)
  }

  lemma LastAccepted(published: seq<Item>, item: Item)
    ensures CountTerminals(Accepted(published + [item])) ==
      CountTerminals(Accepted(published)) + if EndsOwner(item) && !OwnerEnded(published, item.owner) then 1 else 0
  {
    assert (published + [item])[..|published|] == published;
    var kept := Accepted(published);
    assert (kept + [item])[..|kept|] == kept;
  }

  lemma {:induction false} CountGrows(published: seq<Item>, n: nat)
    requires n <= |published|
    ensures CountTerminals(Accepted(published[..n])) <= CountTerminals(Accepted(published))
    ensures CountTerminals(Accepted(published[..n])) < CountTerminals(Accepted(published)) <==>
      exists k: nat :: k >= n && EndsAt(published, k)
  {
    if n == |published| {
      assert published[..n] == published;
    } else {
      var m := |published| - 1;
      var rest, item := published[..m], published[m];
      assert published == rest + [item] && rest[..n] == published[..n];
      CountGrows(rest, n);
      LastAccepted(rest, item);
      EndsAtPrefix(published, m);
    }
  }

  lemma EndsAtPrefix(published: seq<Item>, m: nat)
    requires m < |published|
    ensures forall k: nat :: k < m ==> (EndsAt(published[..m], k) <==> EndsAt(published, k))
    ensures EndsAt(published, m) <==> EndsOwner(published[m]) && !OwnerEnded(published[..m], published[m].owner)
  {
    forall k: nat | k < m ensures EndsAt(published[..m], k) <==> EndsAt(published, k) {
      assert published[..m][..k] == published[..k] && published[..m][k] == published[k];
    }
  }

  // The queue generation is the number of terminal events accepted so far.
  ghost predicate GenerationCounts(s: State) { s.queueGeneration == CountTerminals(Accepted(s.published)) }

  lemma PublishCounts(s: State, item: Item)
    requires s.terminalSeen && s.lastTerminalOwner == item.owner <==> OwnerEnded(s.published, item.owner)
    ensures PublishStep(s, item).queueGeneration ==
      s.queueGeneration + if EndsOwner(item) && !OwnerEnded(s.published, item.owner) then 1 else 0
  {
  }

  lemma DrainKeepsGeneration(s: State, l: Label)
    requires !l.Publish?
    ensures Step(s, l).published == s.published && Step(s, l).queueGeneration == s.queueGeneration
  {
  }

  lemma StepCounts(s: State, l: Label)
    requires Inv(s) && GenerationCounts(s) && OwnersOrdered(Step(s, l).published)
    ensures GenerationCounts(Step(s, l))
  {
    if l.Publish? {
      if Enabled(s, l) {
        PublishAppends(s, l.item);
        RefusedExactlyWhenEnded(s, l.item);
        PublishCounts(s, l.item);
        LastAccepted(s.published, l.item);
      }
    } else {
      DrainKeepsGeneration(s, l);
    }
  }

  // The held event carries the generation of the moment at which it was dequeued.
  ghost predicate HeldSince(s: State, at: nat) {
    at <= |s.published| && (InHand(s.runner) ==> s.runner.generation == CountTerminals(Accepted(s.published[..at])))
  }

  predicate InHand(r: Runner) { r.Checking? || r.Offering? }

  lemma RunnerKeeps(s: State, l: Label)
    ensures var t := Step(s, l);
            if l.Next? && Enabled(s, l) then InHand(t.runner) ==> t.runner.generation == s.queueGeneration
            else InHand(t.runner) ==> InHand(s.runner) && t.runner.generation == s.runner.generation
  {
  }

  lemma StepHolds(s: State, l: Label, at: nat)
    requires GenerationCounts(s) && HeldSince(s, at)
    ensures HeldSince(Step(s, l), if l.Next? && Enabled(s, l) then |s.published| else at)
  {
    RunnerKeeps(s, l);
    PublishedGrows(s, l);
    assert Step(s, l).published[..at] == s.published[..at];
    assert Step(s, l).published[..|s.published|] == s.published;
  }

  lemma {:induction false} RunCounts(labels: seq<Label>)
    requires OwnersOrdered(Run(labels).published)
    ensures GenerationCounts(Run(labels)) && HeldSince(Run(labels), DequeuedAt(labels))
  {
    if labels != [] {
      var rest, l := labels[..|labels| - 1], labels[|labels| - 1];
      PublishedGrows(Run(rest), l);
      RelayRun(rest);
      RunCounts(rest);
      StepCounts(Run(rest), l);
      StepHolds(Run(rest), l, DequeuedAt(rest));
    }
  }

  lemma RelayRun(labels: seq<Label>)
    requires OwnersOrdered(Run(labels).published)
    ensures Inv(Run(labels))
  {
    Relay.RunKeepsInv(labels);
  }

  // deliverQueued drops the event that it holds if and only if a terminal event was accepted since
  // that event left the queue; otherwise it goes on to send it.
  lemma HeldDroppedExactly(labels: seq<Label>)
    requires OwnersOrdered(Run(labels).published) && Run(labels).runner.Checking?
    ensures var s, t := Run(labels), Step(Run(labels), Check);
            && t.delivered == s.delivered
            && (Overtaken(labels) <==> Held(t) == [])
            && (!Overtaken(labels) ==>
                  Held(t) == Held(s) && Enabled(t, Send) && Step(t, Send).delivered == s.delivered + Held(s))
  {
    OvertakenExactly(labels);
    CheckLooks(Run(labels));
  }

  lemma OvertakenExactly(labels: seq<Label>)
    requires OwnersOrdered(Run(labels).published) && InHand(Run(labels).runner)
    ensures Overtaken(labels) <==> Run(labels).runner.generation != Run(labels).queueGeneration
  {
    RunCounts(labels);
    CountGrows(Run(labels).published, DequeuedAt(labels));
  }

  lemma CheckLooks(s: State)
    requires s.runner.Checking?
    ensures var t := Step(s, Check);
            && t.delivered == s.delivered
            && (s.runner.generation != s.queueGeneration <==> Held(t) == [])
            && (s.runner.generation == s.queueGeneration ==>
                  Held(t) == Held(s) && Enabled(t, Send) && Step(t, Send).delivered == s.delivered + Held(s))
  {
  }

  // ----- nothing else is lost -----

  ghost predicate AnyProgress(queue: seq<Item>) { exists i :: 0 <= i < |queue| && queue[i].event.kind == Progress }

  ghost predicate SameProgress(a: Item, b: Item) {
    a.event.kind == Progress && b.event.kind == Progress && a.owner == b.owner
  }

  // What an accepted event costs: itself, or events that were queued before it.
  ghost function PublishCosts(queue: seq<Item>, priority: seq<Item>, item: Item): seq<Item> {
    var n := |queue|;
    if EndsOwner(item) then
      queue + if |priority| >= 32 then [item] else []
    else if n > 0 && SameProgress(queue[n - 1], item) then [queue[n - 1]]
    else if n < 32 then []
    else if AnyProgress(queue) then [OldestProgress(queue)]
    else [item]
  }

  ghost function OldestProgress(queue: seq<Item>): (item: Item)
    requires AnyProgress(queue)
    ensures item in queue && item.event.kind == Progress
  {
    if queue[0].event.kind == Progress then queue[0]
    else
      assert AnyProgress(queue[1..]) by {
        var i :| 0 <= i < |queue| && queue[i].event.kind == Progress;
        assert queue[1..][i - 1] == queue[i];
      }
      OldestProgress(queue[1..])
  }

  // What is lost by one label after a run.
  ghost function LostBy(before: seq<Label>, l: Label): seq<Item> {
    var s := Run(before);
    if !Enabled(s, l) then []
    else
      match l
      case Publish(item) =>
        if OwnerEnded(s.published, item.owner) then [] else PublishCosts(s.queue, s.priority, item)
      case Check => if Overtaken(before) then Held(s) else []
      case Halt => Held(s)
      case _ => []
  }

  ghost function Lost(labels: seq<Label>): seq<Item> {
    if labels == [] then []
    else Lost(labels[..|labels| - 1]) + LostBy(labels[..|labels| - 1], labels[|labels| - 1])
  }

  lemma {:induction false} OldestIsFirst(queue: seq<Item>)
    ensures AnyProgress(queue) <==> FirstProgress(queue) < |queue|
    ensures AnyProgress(queue) ==> OldestProgress(queue) == queue[FirstProgress(queue)]
  {
    if queue != [] && !IsProgress(queue[0]) {
      OldestIsFirst(queue[1..]);
      if AnyProgress(queue) {
        var i :| 0 <= i < |queue| && queue[i].event.kind == Progress;
        assert queue[1..][i - 1] == queue[i];
      }
    } else if queue != [] {
      assert queue[0].event.kind == Progress;
    }
  }

  lemma WithoutAt(queue: seq<Item>, i: nat, item: Item)
    requires i < |queue|
    ensures multiset(queue[..i] + queue[i + 1..] + [item]) + multiset{queue[i]} == multiset(queue) + multiset{item}
  {
    assert queue == queue[..i] + [queue[i]] + queue[i + 1..];
  }

  // An event that ends no owner: the queue, the event and what it costs.
  lemma EnqueueCosts(queue: seq<Item>, priority: seq<Item>, item: Item)
    requires |queue| <= QUEUE_CAPACITY && !EndsOwner(item)
    ensures multiset(Enqueue(queue, item)) + multiset(PublishCosts(queue, priority, item)) ==
      multiset(queue) + multiset{item}
  {
    OldestIsFirst(queue);
    var n, i := |queue|, FirstProgress(queue);
    if ContinuesProgress(queue, item) {
      ReplacedLast(queue, item);
    } else if n < 32 {
      assert Enqueue(queue, item) == queue + [item] && PublishCosts(queue, priority, item) == [];
    } else if i < n {
      WithoutAt(queue, i, item);
      assert PublishCosts(queue, priority, item) == [queue[i]];
    } else {
      assert Enqueue(queue, item) == queue && PublishCosts(queue, priority, item) == [item];
    }
  }

  lemma ReplacedLast(queue: seq<Item>, item: Item)
    requires queue != []
    ensures var n := |queue| - 1;
            multiset(queue[..n] + [item]) + multiset([queue[n]]) == multiset(queue) + multiset{item}
  {
    var n := |queue| - 1;
    assert queue == queue[..n] + [queue[n]];
  }

  lemma PipelineParts(s: State)
    ensures multiset(Pipeline(s)) ==
      multiset(s.delivered) + multiset(Held(s)) + multiset(s.priority) + multiset(s.queue)
  {
  }

  // An accepted event joins the priority events or the queue, at its cost.
  lemma PublishQueues(s: State, item: Item)
    requires Bounded(s) && !(s.terminalSeen && s.lastTerminalOwner == item.owner)
    ensures var t := PublishStep(s, item);
            t.delivered == s.delivered && Held(t) == Held(s) &&
            multiset(t.priority) + multiset(t.queue) + multiset(PublishCosts(s.queue, s.priority, item)) ==
            multiset(s.priority) + multiset(s.queue) + multiset{item}
  {
    var t := PublishStep(s, item);
    if EndsOwner(item) {
      var refused := if |s.priority| >= 32 then [item] else [];
      assert t.queue == [] && PublishCosts(s.queue, s.priority, item) == s.queue + refused;
      assert multiset(t.priority) + multiset(refused) == multiset(s.priority) + multiset{item};
      TerminalSum(multiset(t.priority), multiset(refused), multiset(s.priority), multiset{item}, multiset(s.queue));
    } else {
      EnqueueCosts(s.queue, s.priority, item);
      PublishEnqueues(s, item);
      QueueSum(multiset(t.queue), multiset(PublishCosts(s.queue, s.priority, item)), multiset(s.queue), multiset{item},
               multiset(s.priority));
    }
  }

  lemma TerminalSum<T>(a: multiset<T>, b: multiset<T>, c: multiset<T>, d: multiset<T>, q: multiset<T>)
    requires a + b == c + d
    ensures a + multiset{} + (q + b) == c + q + d
  {
    forall x ensures (a + multiset{} + (q + b))[x] == (c + q + d)[x] { assert (a + b)[x] == (c + d)[x]; }
  }

  lemma QueueSum<T>(a: multiset<T>, b: multiset<T>, c: multiset<T>, d: multiset<T>, p: multiset<T>)
    requires a + b == c + d
    ensures p + a + b == p + c + d
  {
    forall x ensures (p + a + b)[x] == (p + c + d)[x] { assert (a + b)[x] == (c + d)[x]; }
  }

  lemma WaySum<T>(accepted: multiset<T>, item: multiset<T>, d: multiset<T>, h: multiset<T>,
                  p: multiset<T>, q: multiset<T>, p': multiset<T>, q': multiset<T>, costs: multiset<T>)
    requires p' + q' + costs == p + q + item
    ensures accepted + item + (d + h + p + q) == accepted + (d + h + p' + q') + costs
  {
    forall x ensures (accepted + item + (d + h + p + q))[x] == (accepted + (d + h + p' + q') + costs)[x] {
      assert (p' + q' + costs)[x] == (p + q + item)[x];
    }
  }

  lemma PublishEnqueues(s: State, item: Item)
    requires !EndsOwner(item) && !(s.terminalSeen && s.lastTerminalOwner == item.owner)
    ensures PublishStep(s, item).queue == Enqueue(s.queue, item) && PublishStep(s, item).priority == s.priority
  {
  }

  lemma AcceptedAppends(published: seq<Item>, item: Item)
    ensures Accepted(published + [item]) ==
      Accepted(published) + if OwnerEnded(published, item.owner) then [] else [item]
  {
    assert (published + [item])[..|published|] == published;
  }

  lemma PublishConserves(s: State, item: Item, costs: seq<Item>)
    requires Inv(s) && OwnersOrdered(s.published + [item])
    requires costs == if OwnerEnded(s.published, item.owner) then [] else PublishCosts(s.queue, s.priority, item)
    ensures var t := PublishStep(s, item);
            multiset(Accepted(t.published)) + multiset(Pipeline(s)) ==
            multiset(Accepted(s.published)) + multiset(Pipeline(t)) + multiset(costs)
  {
    var t := PublishStep(s, item);
    PublishAppends(s, item);
    AcceptedAppends(s.published, item);
    RefusedExactlyWhenEnded(s, item);
    if OwnerEnded(s.published, item.owner) {
      PublishRefuses(s, item);
    } else {
      AcceptedConserves(s, item);
    }
  }

  lemma AcceptedConserves(s: State, item: Item)
    requires Bounded(s) && !(s.terminalSeen && s.lastTerminalOwner == item.owner)
    ensures var accepted := multiset(Accepted(s.published));
            accepted + multiset{item} + multiset(Pipeline(s)) ==
            accepted + multiset(Pipeline(PublishStep(s, item))) + multiset(PublishCosts(s.queue, s.priority, item))
  {
    var t := PublishStep(s, item);
    PipelineParts(s);
    PipelineParts(t);
    PublishQueues(s, item);
    WaySum(multiset(Accepted(s.published)), multiset{item}, multiset(s.delivered), multiset(Held(s)),
           multiset(s.priority), multiset(s.queue), multiset(t.priority), multiset(t.queue),
           multiset(PublishCosts(s.queue, s.priority, item)));
  }

  lemma PublishRefuses(s: State, item: Item)
    requires s.terminalSeen && s.lastTerminalOwner == item.owner
    ensures Pipeline(PublishStep(s, item)) == Pipeline(s)
  {
  }

  // A step of the goroutine, but for what it drops.
  lemma DrainMoves(s: State, l: Label)
    requires Enabled(s, l) && !l.Publish?
    ensures var t := Step(s, l);
            var dropped := if l.Halt? || (l.Check? && Held(t) == []) then Held(s) else [];
            multiset(Pipeline(s)) == multiset(Pipeline(t)) + multiset(dropped)
  {
    if l.Halt? || (l.Check? && Held(Step(s, l)) == []) {
      HeldGone(s, Step(s, l));
    } else {
      DrainKeepsWay(s, l);
    }
  }

  lemma DrainKeepsWay(s: State, l: Label)
    requires Enabled(s, l) && !l.Publish? && !l.Halt? && (l.Check? ==> Held(Step(s, l)) != [])
    ensures Pipeline(Step(s, l)) == Pipeline(s)
  {
    match l
    case Next => NextKeepsPipeline(s);
    case Send => assert s.delivered + Held(s) + [] == s.delivered + Held(s);
    case _ =>
  }

  lemma HeldGone(s: State, t: State)
    requires t.delivered == s.delivered && t.priority == s.priority && t.queue == s.queue && Held(t) == []
    ensures multiset(Pipeline(s)) == multiset(Pipeline(t)) + multiset(Held(s))
  {
    PipelineParts(s);
    PipelineParts(t);
    var (d, h, p, q) := (multiset(s.delivered), multiset(Held(s)), multiset(s.priority), multiset(s.queue));
    forall x ensures (d + h + p + q)[x] == (d + multiset{} + p + q + h)[x] {}
  }

  lemma DrainConserves(before: seq<Label>, l: Label)
    requires OwnersOrdered(Run(before).published) && !l.Publish?
    ensures multiset(Pipeline(Run(before))) == multiset(Pipeline(Step(Run(before), l))) + multiset(LostBy(before, l))
  {
    if Enabled(Run(before), l) {
      DrainMoves(Run(before), l);
      if l.Check? { HeldDroppedExactly(before); }
    }
  }

  lemma Balance(accepted: multiset<Item>, way: multiset<Item>, lost: multiset<Item>, accepted': multiset<Item>,
                way': multiset<Item>, more: multiset<Item>)
    requires accepted == way + lost && accepted' + way == accepted + way' + more
    ensures accepted' == way' + (lost + more)
  {
    forall x ensures accepted'[x] == (way' + (lost + more))[x] {
      assert (accepted' + way)[x] == (accepted + way' + more)[x];
    }
  }

  // Every event that was accepted has been delivered, is on its way, or was lost at a label of the
  // run: superseded or pushed out by a later event, cleared or overtaken by a terminal event, or in
  // hand when the relay stopped.
  lemma {:induction false} NothingElseIsLost(labels: seq<Label>)
    requires OwnersOrdered(Run(labels).published)
    ensures multiset(Accepted(Run(labels).published)) == multiset(Pipeline(Run(labels))) + multiset(Lost(labels))
  {
    if labels == [] {
      assert Pipeline(INITIAL) == [] && Accepted([]) == [];
    } else {
      var rest, l := labels[..|labels| - 1], labels[|labels| - 1];
      PublishedGrows(Run(rest), l);
      NothingElseIsLost(rest);
      StepConserves(rest, l);
      var s, t := Run(rest), Step(Run(rest), l);
      Balance(multiset(Accepted(s.published)), multiset(Pipeline(s)), multiset(Lost(rest)),
              multiset(Accepted(t.published)), multiset(Pipeline(t)), multiset(LostBy(rest, l)));
      assert multiset(Lost(labels)) == multiset(Lost(rest)) + multiset(LostBy(rest, l));
    }
  }

  lemma StepConserves(before: seq<Label>, l: Label)
    requires OwnersOrdered(Run(before).published) && OwnersOrdered(Step(Run(before), l).published)
    ensures var s, t := Run(before), Step(Run(before), l);
            multiset(Accepted(t.published)) + multiset(Pipeline(s)) ==
            multiset(Accepted(s.published)) + multiset(Pipeline(t)) + multiset(LostBy(before, l))
  {
    var s := Run(before);
    RelayRun(before);
    if l.Publish? {
      if Enabled(s, l) {
        PublishAppends(s, l.item);
        PublishConserves(s, l.item, LostBy(before, l));
      }
    } else {
      DrainKeepsGeneration(s, l);
      DrainConserves(before, l);
    }
  }

  // ----- progress events are coalesced -----

  ghost predicate Coalesced(queue: seq<Item>) {
    forall i :: 0 <= i < |queue| - 1 ==> !SameProgress(queue[i], queue[i + 1])
  }

  lemma EnqueueCoalesces(queue: seq<Item>, item: Item)
    requires Coalesced(queue)
    ensures Coalesced(Enqueue(queue, item))
  {
    var after, n, i := Enqueue(queue, item), |queue|, FirstProgress(queue);
    if ContinuesProgress(queue, item) {
      assert forall k :: 0 <= k < n - 1 ==> after[k] == queue[k];
      if n > 1 { assert queue[n - 2 + 1] == queue[n - 1]; }
    } else if n >= QUEUE_CAPACITY && i < n {
      assert after[..n - 1] == queue[..i] + queue[i + 1..];
      forall k | 0 <= k < |after| - 1
        ensures !SameProgress(after[k], after[k + 1])
      {
        if k + 1 < i {
          assert after[k] == queue[k];
        } else if k >= i && k + 1 < n - 1 {
          assert after[k] == queue[k + 1] && after[k + 1] == queue[k + 2] == queue[k + 1 + 1];
        } else if k + 1 == i {
          assert after[k] == queue[k] && !IsProgress(queue[k]);
        }
      }
    }
  }

  // In every reachable state no two neighbours in the queue are progress events of one owner.
  lemma {:induction false} ProgressIsCoalesced(labels: seq<Label>)
    ensures Coalesced(Run(labels).queue)
  {
    if labels != [] {
      var s, l := Run(labels[..|labels| - 1]), labels[|labels| - 1];
      ProgressIsCoalesced(labels[..|labels| - 1]);
      if l.Publish? { EnqueueCoalesces(s.queue, l.item); }
      if l.Next? && s.queue != [] { assert forall i :: 0 <= i < |s.queue| - 1 ==> s.queue[1..][i] == s.queue[i + 1]; }
    }
  }

  // ----- left alone, the goroutine delivers everything -----

  // What the goroutine does next without a publisher; nothing once it sleeps with empty queues.
  function NextStepOf(s: State): Label {
    if s.waking then Signal
    else
      match s.runner
      case SendingPriority(_) => Send
      case Checking(_, _) => Check
      case Offering(_, _) => Send
      case Parked => TakeWake
      case _ => Next
  }

  predicate Asleep(s: State) { s.runner.Parked? && s.queue == [] && s.priority == [] && !s.waking }

  function Work(s: State): nat {
    4 * (|s.queue| + |s.priority|) + (if s.waking then 1 else 0) +
    match s.runner
    case AtTop => 1
    case SendingPriority(_) => 2
    case Checking(_, _) => 4
    case Offering(_, _) => 3
    case Parked => if s.queue == [] && s.priority == [] then 0 else 2
    case Halted => 0
  }

  // What will have been delivered once everything is.
  function Outcome(s: State): seq<Item> {
    var dropped := s.runner.Checking? && s.runner.generation != s.queueGeneration;
    s.delivered + (if dropped then [] else Held(s)) + s.priority + s.queue
  }

  lemma OneStep(s: State)
    requires NoLostWakeup(s) && !s.runner.Halted? && !Asleep(s)
    ensures var t := Step(s, NextStepOf(s));
            && Enabled(s, NextStepOf(s)) && Work(t) < Work(s) && !t.runner.Halted? && Outcome(t) == Outcome(s)
            && NoLostWakeup(t)
  {
    var t := Step(s, NextStepOf(s));
    if !s.waking && s.runner.AtTop? {
      NextKeepsPipeline(s);
      assert s.delivered + [] == s.delivered;
    }
    if !s.waking && (s.runner.SendingPriority? || s.runner.Offering?) {
      assert s.delivered + Held(s) + [] == s.delivered + Held(s);
    }
  }

  function Drive(s: State, steps: seq<Label>): State
    decreases steps
  {
    if steps == [] then s else Drive(Step(s, steps[0]), steps[1..])
  }

  predicate OwnSteps(steps: seq<Label>) { forall i :: 0 <= i < |steps| ==> !steps[i].Publish? && !steps[i].Halt? }

  lemma {:induction false} DriveHome(s: State) returns (steps: seq<Label>)
    requires NoLostWakeup(s) && !s.runner.Halted?
    ensures OwnSteps(steps) && Asleep(Drive(s, steps)) && Drive(s, steps).delivered == Outcome(s)
    decreases Work(s)
  {
    if Asleep(s) {
      steps := [];
      assert s.delivered + [] + [] + [] == s.delivered;
    } else {
      OneStep(s);
      var more := DriveHome(Step(s, NextStepOf(s)));
      steps := [NextStepOf(s)] + more;
      assert steps[1..] == more;
    }
  }

  lemma {:induction false} DriveIsRun(labels: seq<Label>, steps: seq<Label>)
    ensures Drive(Run(labels), steps) == Run(labels + steps)
    decreases |steps|
  {
    if steps == [] {
      assert labels + steps == labels;
    } else {
      var more := labels + [steps[0]];
      assert more[..|labels|] == labels;
      DriveIsRun(more, steps[1..]);
      assert more + steps[1..] == labels + steps;
    }
  }

  // After any run that has not stopped, the goroutine's own steps, with the wake-up and no further
  // publish, deliver everything on its way, in order, and end asleep. Only an event in hand that a
  // terminal event has overtaken is left out.
  lemma EverythingIsDelivered(labels: seq<Label>) returns (steps: seq<Label>)
    requires OwnersOrdered(Run(labels).published) && !Run(labels).runner.Halted?
    ensures OwnSteps(steps)
    ensures var s, t := Run(labels), Run(labels + steps);
            && t.runner.Parked? && t.queue == [] && t.priority == [] && Held(t) == []
            && t.delivered ==
               s.delivered + (if s.runner.Checking? && Overtaken(labels) then [] else Held(s)) + s.priority + s.queue
  {
    RelayRun(labels);
    if InHand(Run(labels).runner) { OvertakenExactly(labels); }
    steps := DriveHome(Run(labels));
    DriveIsRun(labels, steps);
  }
}

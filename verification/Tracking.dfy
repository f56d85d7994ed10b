// Session and relay together: the session's publish calls are the relay's input, and the two
// run on different goroutines.
module Tracking {
  import opened PlaybackEvents
  import opened Sequences
  import Session
  import Relay

  datatype State = State(session: Session.State, relay: Relay.State)

  datatype Label = OfSession(step: Session.Label) | OfRelay(drain: Relay.Label)

  function Initial(request: Session.Request): State {
    State(Session.Initial(request), Relay.INITIAL)
  }

  function NewlyEmitted(before: Session.State, after: Session.State): seq<Item> {
    if |after.emitted| == |before.emitted| + 1 then [after.emitted[|before.emitted|]] else []
  }

  // A publish call starts only after the previous one has signalled the relay, because both run
  // under deliveryMu.
  function Step(s: State, l: Label): State {
    match l
    case OfSession(step) =>
      var session := Session.Step(s.session, step);
      var emitted := NewlyEmitted(s.session, session);
      if emitted == [] then s.(session := session)
      else if s.relay.waking then s
      else State(session, Relay.Step(s.relay, Relay.Publish(emitted[0])))
    case OfRelay(drain) =>
      if drain.Publish? then s else s.(relay := Relay.Step(s.relay, drain))
  }

  function Run(request: Session.Request, labels: seq<Label>): State {
    if labels == [] then Initial(request)
    else Step(Run(request, labels[..|labels| - 1]), labels[|labels| - 1])
  }

  ghost predicate Inv(s: State) {
    Session.Inv(s.session) && Relay.Inv(s.relay) && s.relay.published == s.session.emitted
  }

  lemma SessionStepKeepsInv(s: State, step: Session.Label)
    requires Inv(s)
    ensures Inv(Step(s, OfSession(step)))
  {
    Session.StepKeepsInv(s.session, step);
    Session.EmitsAtMostOne(s.session, step);
    var session := Session.Step(s.session, step);
    if session.emitted != s.session.emitted && !s.relay.waking {
      PublishNext(s, session);
    }
  }

  lemma PublishNext(s: State, session: Session.State)
    requires Inv(s) && Session.Inv(session) && !s.relay.waking
    requires |session.emitted| == |s.session.emitted| + 1
    requires session.emitted == s.session.emitted + [session.emitted[|s.session.emitted|]]
    ensures Inv(State(session, Relay.Step(s.relay, Relay.Publish(session.emitted[|s.session.emitted|]))))
  {
    Relay.PublishKeepsInv(s.relay, session.emitted[|s.session.emitted|]);
  }

  lemma StepKeepsInv(s: State, l: Label)
    requires Inv(s)
    ensures Inv(Step(s, l))
  {
    match l
    case OfSession(step) => SessionStepKeepsInv(s, step);
    case OfRelay(drain) =>
      if !drain.Publish? {
        Relay.DrainKeepsInv(s.relay, drain);
        Relay.DrainPublishesNothing(s.relay, drain);
      }
  }

  lemma {:induction false} RunKeepsInv(request: Session.Request, labels: seq<Label>)
    ensures Inv(Run(request, labels))
  {
    if labels == [] {
      Session.RunKeepsInv(request, []);
      Relay.RunKeepsInv([]);
    } else {
      RunKeepsInv(request, labels[..|labels| - 1]);
      StepKeepsInv(Run(request, labels[..|labels| - 1]), labels[|labels| - 1]);
    }
  }

  // What the app receives, for every interleaving of loads, player events, snapshots, checkpoints
  // and the relay's goroutine: an ordered selection of what the session published, owner after
  // owner, with at most one terminal event per owner and nothing of that owner behind it, out of
  // two queues that never exceed their capacity.
  lemma AppReceivesInOrder(request: Session.Request, labels: seq<Label>)
    ensures var s := Run(request, labels);
            && Subsequence(s.relay.delivered, s.session.emitted)
            && OwnersOrdered(s.relay.delivered)
            && NothingAfterTerminal(s.relay.delivered)
            && |s.relay.queue| <= QUEUE_CAPACITY && |s.relay.priority| <= QUEUE_CAPACITY
  {
    RunKeepsInv(request, labels);
    Relay.DeliveredInOrder(Run(request, labels).relay);
  }

  // An event of the pending load is not delivered before the load is committed.
  lemma NothingOfThePendingLoad(request: Session.Request, labels: seq<Label>)
    requires Run(request, labels).session.pending.Some?
    ensures var s := Run(request, labels);
            forall i :: 0 <= i < |s.relay.delivered| ==>
              s.relay.delivered[i].owner < s.session.pending.value.tracked.owner
  {
    RunKeepsInv(request, labels);
    var s := Run(request, labels);
    Relay.DeliveredInOrder(s.relay);
    var f: seq<nat> :| Embeds(f, s.relay.delivered, s.relay.published);
  }
}

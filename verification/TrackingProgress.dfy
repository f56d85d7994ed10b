// Session and relay together are each a run of their own, and what the session hands over reaches
// the app.
module TrackingProgress {
  import opened PlaybackEvents
  import opened Sequences
  import Session
  import SessionAccount
  import Relay
  import RelayDelivery
  import opened Tracking

  // ----- the two runs -----

  // The step of the session publishes an event.
  ghost predicate Publishes(s: State, step: Session.Label) {
    |Session.Step(s.session, step).emitted| > |s.session.emitted|
  }

  // The session's steps: one that publishes waits until the relay has been signalled.
  ghost function SessionLabels(request: Session.Request, labels: seq<Label>): seq<Session.Label> {
    if labels == [] then []
    else
      var rest, l := labels[..|labels| - 1], labels[|labels| - 1];
      var s := Run(request, rest);
      if l.OfSession? && !(Publishes(s, l.step) && s.relay.waking) then SessionLabels(request, rest) + [l.step]
      else SessionLabels(request, rest)
  }

  // The relay's steps: its goroutine's own, and a publish for every event that the session publishes.
  ghost function RelayLabels(request: Session.Request, labels: seq<Label>): seq<Relay.Label> {
    if labels == [] then []
    else
      var rest, l := labels[..|labels| - 1], labels[|labels| - 1];
      var s := Run(request, rest);
      match l
      case OfRelay(drain) =>
        if drain.Publish? then RelayLabels(request, rest) else RelayLabels(request, rest) + [drain]
      case OfSession(step) =>
        if Publishes(s, step) && !s.relay.waking then
          RelayLabels(request, rest) + [Relay.Publish(Last(Session.Step(s.session, step).emitted))]
        else RelayLabels(request, rest)
  }

  ghost function Last(items: seq<Item>): Item
    requires items != []
  {
    items[|items| - 1]
  }

  lemma SessionNext(request: Session.Request, labels: seq<Session.Label>, step: Session.Label)
    ensures Session.Run(request, labels + [step]) == Session.Step(Session.Run(request, labels), step)
  {
    assert (labels + [step])[..|labels|] == labels;
  }

  lemma RelayNext(labels: seq<Relay.Label>, step: Relay.Label)
    ensures Relay.Run(labels + [step]) == Relay.Step(Relay.Run(labels), step)
  {
    assert (labels + [step])[..|labels|] == labels;
  }

  lemma RunNext(request: Session.Request, labels: seq<Label>, l: Label)
    ensures Run(request, labels + [l]) == Step(Run(request, labels), l)
    ensures SessionLabels(request, labels + [l]) ==
      if l.OfSession? && !(Publishes(Run(request, labels), l.step) && Run(request, labels).relay.waking) then
        SessionLabels(request, labels) + [l.step]
      else SessionLabels(request, labels)
  {
    assert (labels + [l])[..|labels|] == labels;
  }

  lemma SessionStepSplits(s: State, step: Session.Label)
    requires Inv(s)
    ensures var (t, after) := (Step(s, OfSession(step)), Session.Step(s.session, step));
      if Publishes(s, step) then
        if s.relay.waking then t == s
        else t.session == after && t.relay == Relay.Step(s.relay, Relay.Publish(Last(after.emitted)))
      else t.session == after && t.relay == s.relay
  {
    Session.EmitsAtMostOne(s.session, step);
  }

  // Over every interleaving: what the session is and what the relay is, are runs of their own steps
  // alone, so that everything proved of either holds of both together; and the events that enter the
  // relay are those that the session publishes.
  lemma {:induction false} RunsTogether(request: Session.Request, labels: seq<Label>)
    ensures Run(request, labels).session == Session.Run(request, SessionLabels(request, labels))
    ensures Run(request, labels).relay == Relay.Run(RelayLabels(request, labels))
    ensures Run(request, labels).relay.published == Run(request, labels).session.emitted
  {
    RunKeepsInv(request, labels);
    if labels != [] {
      var rest, l := labels[..|labels| - 1], labels[|labels| - 1];
      RunsTogether(request, rest);
      RunKeepsInv(request, rest);
      match l
      case OfSession(step) =>
        SessionStepSplits(Run(request, rest), step);
        SessionNext(request, SessionLabels(request, rest), step);
        if Publishes(Run(request, rest), step) {
          RelayNext(RelayLabels(request, rest),
                    Relay.Publish(Last(Session.Step(Run(request, rest).session, step).emitted)));
        }
      case OfRelay(drain) => RelayNext(RelayLabels(request, rest), drain);
    }
  }

  // ----- everything reaches the app -----

  // The steps of whoever holds deliveryMu, and of the relay's goroutine.
  predicate IsOwnStep(l: Label) {
    match l
    case OfSession(step) => SessionAccount.Delivers(step)
    case OfRelay(drain) => !drain.Publish? && !drain.Halt?
  }

  ghost function Owed(request: Session.Request, labels: seq<Label>): seq<Item> {
    SessionAccount.AccountOf(request, SessionLabels(request, labels)).given
  }

  lemma Joined(labels: seq<Label>, l: Label, rest: seq<Label>) returns (more: seq<Label>)
    requires IsOwnStep(l) && forall k :: k in rest ==> IsOwnStep(k)
    ensures labels + more == labels + [l] + rest && forall k :: k in more ==> IsOwnStep(k)
  {
    more := [l] + rest;
    assert labels + more == labels + [l] + rest;
  }

  function Busy(s: State): nat { 2 * SessionAccount.DeliveriesLeft(s.session) + if s.relay.waking then 1 else 0 }

  lemma HandOverStep(s: State) returns (l: Label)
    requires Inv(s) && !s.session.delivery.Free?
    ensures IsOwnStep(l) && Busy(Step(s, l)) < Busy(s) && (Step(s, l).relay.runner == s.relay.runner)
    ensures l.OfSession? ==> !(Publishes(s, l.step) && s.relay.waking)
  {
    if s.relay.waking {
      l := OfRelay(Relay.Signal);
    } else {
      l := OfSession(if s.session.delivery.Observed? then Session.Recheck else Session.EmitNext);
      SessionStepSplits(s, l.step);
    }
  }

  lemma OwedStays(request: Session.Request, labels: seq<Label>, l: Label)
    requires IsOwnStep(l)
    ensures Owed(request, labels + [l]) == Owed(request, labels)
  {
    RunNext(request, labels, l);
    if l.OfSession? { SessionAccount.RunMore(request, SessionLabels(request, labels), l.step); }
  }

  // What the session owes is handed to the relay.
  lemma {:induction false} HandsOver(request: Session.Request, labels: seq<Label>) returns (more: seq<Label>)
    ensures forall l :: l in more ==> IsOwnStep(l)
    ensures var t := Run(request, labels + more);
      && t.session.delivery.Free? && t.relay.runner == Run(request, labels).relay.runner
      && t.session.emitted == Owed(request, labels)
    decreases Busy(Run(request, labels))
  {
    RunKeepsInv(request, labels);
    var s := Run(request, labels);
    if s.session.delivery.Free? {
      more := [];
      assert labels + more == labels;
      RunsTogether(request, labels);
      SessionAccount.SessionAgrees(request, SessionLabels(request, labels));
    } else {
      var l := HandOverStep(s);
      RunNext(request, labels, l);
      OwedStays(request, labels, l);
      var rest := HandsOver(request, labels + [l]);
      more := Joined(labels, l, rest);
    }
  }

  function Lifted(steps: seq<Relay.Label>): (labels: seq<Label>)
    ensures |labels| == |steps| && forall i :: 0 <= i < |steps| ==> labels[i] == OfRelay(steps[i])
  {
    seq(|steps|, i requires 0 <= i < |steps| => OfRelay(steps[i]))
  }

  lemma DriveNext(request: Session.Request, labels: seq<Label>, step: Relay.Label)
    requires !step.Publish?
    ensures var more := labels + [OfRelay(step)];
      && Run(request, more).session == Run(request, labels).session
      && RelayLabels(request, more) == RelayLabels(request, labels) + [step]
  {
    assert (labels + [OfRelay(step)])[..|labels|] == labels;
  }

  lemma {:induction false} RelayDrives(request: Session.Request, labels: seq<Label>, steps: seq<Relay.Label>)
    requires forall l :: l in steps ==> !l.Publish?
    ensures Run(request, labels + Lifted(steps)).session == Run(request, labels).session
    ensures RelayLabels(request, labels + Lifted(steps)) == RelayLabels(request, labels) + steps
    decreases |steps|
  {
    if steps == [] {
      assert labels + Lifted(steps) == labels;
    } else {
      var n := |steps| - 1;
      RelayDrives(request, labels, steps[..n]);
      DriveNext(request, labels + Lifted(steps[..n]), steps[n]);
      LiftedNext(labels, steps);
    }
  }

  lemma LiftedNext(labels: seq<Label>, steps: seq<Relay.Label>)
    requires steps != []
    ensures var n := |steps| - 1;
      labels + Lifted(steps) == labels + Lifted(steps[..n]) + [OfRelay(steps[n])] && steps == steps[..n] + [steps[n]]
  {
  }

  predicate Emptied(r: Relay.State) { r.queue == [] && r.priority == [] && Relay.Held(r) == [] }

  // The relay's goroutine delivers what it has, and leaves the session alone.
  lemma RelayEmpties(request: Session.Request, labels: seq<Label>) returns (more: seq<Label>)
    requires !Run(request, labels).relay.runner.Halted?
    ensures forall l :: l in more ==> IsOwnStep(l)
    ensures var t := Run(request, labels + more);
      t.session == Run(request, labels).session && Emptied(t.relay) && t.relay.published == t.session.emitted
  {
    RunsTogether(request, labels);
    RunKeepsInv(request, labels);
    var steps := RelayDelivery.EverythingIsDelivered(RelayLabels(request, labels));
    more := Lifted(steps);
    RelayDrives(request, labels, steps);
    RunsTogether(request, labels + more);
  }

  lemma AllAccounted(request: Session.Request, labels: seq<Label>)
    requires Emptied(Run(request, labels).relay)
    ensures var r := Run(request, labels).relay;
      multiset(Relay.Accepted(r.published)) ==
      multiset(r.delivered) + multiset(RelayDelivery.Lost(RelayLabels(request, labels)))
  {
    RunsTogether(request, labels);
    RunKeepsInv(request, labels);
    RelayDelivery.NothingElseIsLost(RelayLabels(request, labels));
    assert Relay.Pipeline(Run(request, labels).relay) == Run(request, labels).relay.delivered;
  }

  // From every reachable state in which the relay has not stopped, own steps alone hand all that the
  // session owes to the relay, and leave nothing in it: what was published then has been delivered,
  // or was superseded, evicted, cleared or overtaken by a later event.
  lemma AppReceivesAll(request: Session.Request, labels: seq<Label>) returns (more: seq<Label>)
    requires !Run(request, labels).relay.runner.Halted?
    ensures forall l :: l in more ==> IsOwnStep(l)
    ensures var t := Run(request, labels + more);
      && t.session.delivery.Free? && t.relay.published == Owed(request, labels) && Emptied(t.relay)
      && multiset(Relay.Accepted(t.relay.published)) ==
         multiset(t.relay.delivered) + multiset(RelayDelivery.Lost(RelayLabels(request, labels + more)))
  {
    var first := HandsOver(request, labels);
    var second := RelayEmpties(request, labels + first);
    more := BothJoined(labels, first, second);
    AllAccounted(request, labels + more);
  }

  lemma BothJoined(labels: seq<Label>, first: seq<Label>, second: seq<Label>) returns (more: seq<Label>)
    requires (forall l :: l in first ==> IsOwnStep(l)) && forall l :: l in second ==> IsOwnStep(l)
    ensures labels + more == labels + first + second && forall l :: l in more ==> IsOwnStep(l)
  {
    more := first + second;
    assert labels + more == labels + first + second;
  }
}

// Who the stream proxy serves, told from the labels, and that it comes to rest: requests end,
// revocations return, and so does Close.
module ProxyProgress {
  import opened Sequences
  import opened ProxyServer

  lemma RunMore(maxStreams: nat, maxPerSession: nat, labels: seq<Label>, l: Label)
    ensures Run(maxStreams, maxPerSession, labels + [l]) == Step(Run(maxStreams, maxPerSession, labels), l)
  {
    assert (labels + [l])[..|labels|] == labels;
  }

  lemma StepKeepsLimits(s: State, l: Label)
    requires forall i :: i in s.closing ==> i < |s.sessions|
    ensures Step(s, l).maxStreams == s.maxStreams && Step(s, l).maxPerSession == s.maxPerSession
    ensures |Step(s, l).sessions| >= |s.sessions| && |Step(s, l).requests| >= |s.requests|
    ensures Step(s, l).closed <==> s.closed || l.BeginClose?
  {
  }

  lemma {:induction false} LimitsAreFixed(maxStreams: nat, maxPerSession: nat, labels: seq<Label>)
    ensures var s := Run(maxStreams, maxPerSession, labels);
            && s.maxStreams == maxStreams && s.maxPerSession == maxPerSession
            && (s.closed <==> BeginClose in labels)
  {
    if labels != [] {
      var rest, l := labels[..|labels| - 1], labels[|labels| - 1];
      assert labels == rest + [l];
      RunMore(maxStreams, maxPerSession, rest, l);
      LimitsAreFixed(maxStreams, maxPerSession, rest);
      StepKeepsLimits(Run(maxStreams, maxPerSession, rest), l);
    }
  }

  // ----- who is served -----

  // The session was taken out of the server's map: by itself, or with all others by Close.
  ghost predicate Unregistered(maxStreams: nat, maxPerSession: nat, labels: seq<Label>, i: nat) {
    labels != [] &&
    var rest, l := labels[..|labels| - 1], labels[|labels| - 1];
    Unregistered(maxStreams, maxPerSession, rest, i) ||
    (i < |Run(maxStreams, maxPerSession, rest).sessions| && (l.BeginClose? || l == Unlist(i)))
  }

  // What a request's step leaves of its session, and of the others.
  lemma RequestKeepsSession(s: State, l: Label, i: nat)
    requires OfRequest(l) && i < |s.sessions| && forall k :: k in s.closing ==> k < |s.sessions|
    ensures var t := Step(s, l);
      && i < |t.sessions| && t.sessions[i].listed == s.sessions[i].listed
      && t.sessions[i].revocation == s.sessions[i].revocation
  {
  }

  lemma ListedStep(s: State, l: Label, i: nat)
    requires Inv(s) && i < |s.sessions|
    ensures i < |Step(s, l).sessions|
    ensures Step(s, l).sessions[i].listed <==> s.sessions[i].listed && !l.BeginClose? && l != Unlist(i)
  {
    if OfRequest(l) { RequestKeepsSession(s, l, i); } else { assert SessionInv(s, i); }
  }

  lemma UnregisteredNext(maxStreams: nat, maxPerSession: nat, labels: seq<Label>, rest: seq<Label>, l: Label, i: nat)
    requires labels == rest + [l]
    ensures Unregistered(maxStreams, maxPerSession, labels, i) <==>
      Unregistered(maxStreams, maxPerSession, rest, i) ||
      (i < |Run(maxStreams, maxPerSession, rest).sessions| && (l.BeginClose? || l == Unlist(i)))
  {
    assert labels[..|labels| - 1] == rest;
  }

  lemma NewIsListed(s: State, l: Label, i: nat)
    requires (forall k :: k in s.closing ==> k < |s.sessions|) && |s.sessions| <= i < |Step(s, l).sessions|
    ensures Step(s, l).sessions[i].listed
  {
  }

  lemma {:induction false} ListedExactly(maxStreams: nat, maxPerSession: nat, labels: seq<Label>, i: nat)
    ensures var s := Run(maxStreams, maxPerSession, labels);
      if i < |s.sessions| then s.sessions[i].listed <==> !Unregistered(maxStreams, maxPerSession, labels, i)
      else !Unregistered(maxStreams, maxPerSession, labels, i)
  {
    if labels != [] {
      var rest, l := labels[..|labels| - 1], labels[|labels| - 1];
      assert labels == rest + [l];
      var s := Run(maxStreams, maxPerSession, rest);
      RunMore(maxStreams, maxPerSession, rest, l);
      ListedExactly(maxStreams, maxPerSession, rest, i);
      UnregisteredNext(maxStreams, maxPerSession, labels, rest, l, i);
      RunKeepsInv(maxStreams, maxPerSession, rest);
      StepKeepsLimits(s, l);
      if i < |s.sessions| {
        ListedStep(s, l, i);
      } else if i < |Step(s, l).sessions| {
        NewIsListed(s, l, i);
      }
    }
  }

  // A request is admitted if and only if its session is registered and has not expired.
  lemma AdmittedExactly(maxStreams: nat, maxPerSession: nat, labels: seq<Label>, i: nat, expired: bool)
    requires i < |Run(maxStreams, maxPerSession, labels).sessions|
    ensures Run(maxStreams, maxPerSession, labels + [Admit(i, expired)]).requests ==
      Run(maxStreams, maxPerSession, labels).requests +
      if expired || Unregistered(maxStreams, maxPerSession, labels, i) then []
      else [Request(i, Admitted, false, false)]
  {
    RunKeepsInv(maxStreams, maxPerSession, labels);
    ListedExactly(maxStreams, maxPerSession, labels, i);
    RunMore(maxStreams, maxPerSession, labels, Admit(i, expired));
    assert SessionInv(Run(maxStreams, maxPerSession, labels), i);
  }

  lemma RequestMoves(s: State, l: Label)
    requires Inv(s) && OfRequest(l) && l.request < |s.requests|
    requires RequestEnabled(s, s.sessions[s.requests[l.request].session], s.requests[l.request], l)
    ensures var r := s.requests[l.request];
      l.request < |Step(s, l).requests| && Step(s, l).requests[l.request] == RequestStep(s, s.sessions[r.session], r, l)
  {
    assert RequestInv(s, s.requests[l.request]);
  }

  // A request gets its server stream if and only if fewer than the limit are held, and then its
  // session stream likewise.
  lemma StreamsGivenExactly(maxStreams: nat, maxPerSession: nat, labels: seq<Label>, j: nat)
    requires j < |Run(maxStreams, maxPerSession, labels).requests|
    ensures var s := Run(maxStreams, maxPerSession, labels);
      var (t, u) := (Step(s, TakeServerSlot(j)), Step(s, TakeSessionSlot(j)));
      && j < |t.requests| && j < |u.requests|
      && (s.requests[j].phase == Admitted ==>
            t.requests[j].phase == if Sum(s.requests, ServerSlots) < maxStreams then HasServerSlot else Released)
      && (s.requests[j].phase == HasServerSlot ==>
            u.requests[j].phase ==
            if Sum(s.requests, SessionSlots(s.requests[j].session)) < maxPerSession then HasBoth else BusyExit)
  {
    var s := Run(maxStreams, maxPerSession, labels);
    RunKeepsInv(maxStreams, maxPerSession, labels);
    LimitsAreFixed(maxStreams, maxPerSession, labels);
    StepKeepsLimits(s, TakeServerSlot(j));
    StepKeepsLimits(s, TakeSessionSlot(j));
    assert RequestInv(s, s.requests[j]);
    assert SessionInv(s, s.requests[j].session);
    if s.requests[j].phase == Admitted { RequestMoves(s, TakeServerSlot(j)); }
    if s.requests[j].phase == HasServerSlot { RequestMoves(s, TakeSessionSlot(j)); }
  }

  // Never more streams than the limits allow.
  lemma StreamsAreBounded(maxStreams: nat, maxPerSession: nat, labels: seq<Label>, i: nat)
    ensures var s := Run(maxStreams, maxPerSession, labels);
      Sum(s.requests, ServerSlots) <= maxStreams && Sum(s.requests, SessionSlots(i)) <= maxPerSession
  {
    var s := Run(maxStreams, maxPerSession, labels);
    RunKeepsInv(maxStreams, maxPerSession, labels);
    LimitsAreFixed(maxStreams, maxPerSession, labels);
    if i < |s.sessions| {
      assert SessionInv(s, i);
    } else {
      forall j | 0 <= j < |s.requests| ensures s.requests[j].session < i { assert RequestInv(s, s.requests[j]); }
      NobodyOf(s.requests, i);
    }
  }

  // Revoke was called for the session.
  ghost predicate RevokeCalled(maxStreams: nat, maxPerSession: nat, labels: seq<Label>, i: nat) {
    labels != [] &&
    var rest, l := labels[..|labels| - 1], labels[|labels| - 1];
    RevokeCalled(maxStreams, maxPerSession, rest, i) ||
    (l == BeginRevoke(i) && i < |Run(maxStreams, maxPerSession, rest).sessions| &&
     Unregistered(maxStreams, maxPerSession, rest, i))
  }

  lemma RevokedStep(s: State, l: Label, i: nat)
    requires Inv(s) && i < |s.sessions|
    ensures i < |Step(s, l).sessions|
    ensures Step(s, l).sessions[i].revocation.NotRevoked? <==>
      s.sessions[i].revocation.NotRevoked? && !(l == BeginRevoke(i) && !s.sessions[i].listed)
  {
    if OfRequest(l) { RequestKeepsSession(s, l, i); } else { assert SessionInv(s, i); }
  }

  lemma NewIsNotRevoked(s: State, l: Label, i: nat)
    requires (forall k :: k in s.closing ==> k < |s.sessions|) && |s.sessions| <= i < |Step(s, l).sessions|
    ensures Step(s, l).sessions[i].revocation.NotRevoked?
  {
  }

  lemma RevokedNext(maxStreams: nat, maxPerSession: nat, labels: seq<Label>, rest: seq<Label>, l: Label, i: nat)
    requires labels == rest + [l]
    ensures RevokeCalled(maxStreams, maxPerSession, labels, i) <==>
      RevokeCalled(maxStreams, maxPerSession, rest, i) ||
      (l == BeginRevoke(i) && i < |Run(maxStreams, maxPerSession, rest).sessions| &&
       Unregistered(maxStreams, maxPerSession, rest, i))
  {
    assert labels[..|labels| - 1] == rest;
  }

  lemma {:induction false} RevokedExactly(maxStreams: nat, maxPerSession: nat, labels: seq<Label>, i: nat)
    ensures var s := Run(maxStreams, maxPerSession, labels);
      if i < |s.sessions| then
        s.sessions[i].revocation.NotRevoked? <==> !RevokeCalled(maxStreams, maxPerSession, labels, i)
      else !RevokeCalled(maxStreams, maxPerSession, labels, i)
  {
    if labels != [] {
      var rest, l := labels[..|labels| - 1], labels[|labels| - 1];
      assert labels == rest + [l];
      var s := Run(maxStreams, maxPerSession, rest);
      RunMore(maxStreams, maxPerSession, rest, l);
      RevokedExactly(maxStreams, maxPerSession, rest, i);
      RevokedNext(maxStreams, maxPerSession, labels, rest, l, i);
      RunKeepsInv(maxStreams, maxPerSession, rest);
      StepKeepsLimits(s, l);
      if i < |s.sessions| {
        ListedExactly(maxStreams, maxPerSession, rest, i);
        RevokedStep(s, l, i);
      } else if i < |Step(s, l).sessions| {
        NewIsNotRevoked(s, l, i);
      }
    }
  }

  // A transfer is registered if and only if its session's revocation has not begun.
  lemma AttachedExactly(maxStreams: nat, maxPerSession: nat, labels: seq<Label>, j: nat)
    requires var s := Run(maxStreams, maxPerSession, labels); j < |s.requests| && s.requests[j].phase == HasBoth
    ensures var s := Run(maxStreams, maxPerSession, labels);
      && j < |Step(s, Attach(j)).requests|
      && Step(s, Attach(j)).requests[j].phase ==
         if RevokeCalled(maxStreams, maxPerSession, labels, s.requests[j].session) then Detached else Attached
  {
    var s := Run(maxStreams, maxPerSession, labels);
    RunKeepsInv(maxStreams, maxPerSession, labels);
    assert RequestInv(s, s.requests[j]);
    RevokedExactly(maxStreams, maxPerSession, labels, s.requests[j].session);
    RequestMoves(s, Attach(j));
  }

  lemma MarkStep(s: State, i: nat, j: nat)
    requires (forall k :: k in s.closing ==> k < |s.sessions|) && i < |s.sessions| && j < |s.requests|
    requires !s.sessions[i].listed && s.sessions[i].revocation.NotRevoked?
    ensures j < |Step(s, BeginRevoke(i)).requests|
    ensures Step(s, BeginRevoke(i)).requests[j] == MarkOne(s.requests[j], i)
  {
  }

  // Revoke lists exactly the transfers that are registered with the session when it begins.
  lemma ListedAtRevoke(maxStreams: nat, maxPerSession: nat, labels: seq<Label>, i: nat, j: nat)
    requires var s := Run(maxStreams, maxPerSession, labels);
      i < |s.sessions| && !s.sessions[i].listed && s.sessions[i].revocation.NotRevoked? && j < |s.requests|
    ensures var (s, t) := (Run(maxStreams, maxPerSession, labels),
                           Run(maxStreams, maxPerSession, labels + [BeginRevoke(i)]));
      && j < |t.requests|
      && (s.requests[j].session == i ==> (t.requests[j].marked <==> s.requests[j].phase == Attached))
  {
    var s := Run(maxStreams, maxPerSession, labels);
    RunKeepsInv(maxStreams, maxPerSession, labels);
    assert RequestInv(s, s.requests[j]);
    RunMore(maxStreams, maxPerSession, labels, BeginRevoke(i));
    MarkStep(s, i, j);
  }

  ghost predicate OnlyListed(requests: seq<Request>) {
    forall j :: 0 <= j < |requests| && requests[j].interrupted ==> requests[j].marked
  }

  lemma StepKeepsListed(s: State, l: Label)
    requires Inv(s) && OnlyListed(s.requests)
    ensures OnlyListed(Step(s, l).requests)
  {
  }

  // No other transfer is interrupted.
  lemma {:induction false} OnlyListedInterrupted(maxStreams: nat, maxPerSession: nat, labels: seq<Label>)
    ensures OnlyListed(Run(maxStreams, maxPerSession, labels).requests)
  {
    if labels != [] {
      var rest := labels[..|labels| - 1];
      RunKeepsInv(maxStreams, maxPerSession, rest);
      OnlyListedInterrupted(maxStreams, maxPerSession, rest);
      StepKeepsListed(Run(maxStreams, maxPerSession, rest), labels[|labels| - 1]);
    }
  }

  // A request with a range that is refused holds no stream.
  lemma RejectedHoldsNothing(maxStreams: nat, maxPerSession: nat, labels: seq<Label>, j: nat)
    requires var s := Run(maxStreams, maxPerSession, labels); j < |s.requests| && s.requests[j].phase == Admitted
    ensures var s := Run(maxStreams, maxPerSession, labels);
      var t := Step(s, RejectRange(j));
      && t.requests == s.requests[j := s.requests[j].(phase := Released)] && t.streams == s.streams
  {
    RunKeepsInv(maxStreams, maxPerSession, labels);
    RequestMoves(Run(maxStreams, maxPerSession, labels), RejectRange(j));
  }

  // A session is made unless the server was closed.
  lemma MadeExactly(maxStreams: nat, maxPerSession: nat, labels: seq<Label>)
    ensures Run(maxStreams, maxPerSession, labels + [NewSession]).sessions ==
      Run(maxStreams, maxPerSession, labels).sessions +
      if BeginClose in labels then [] else [Session(true, 0, 0, NotRevoked, false)]
  {
    LimitsAreFixed(maxStreams, maxPerSession, labels);
    RunMore(maxStreams, maxPerSession, labels, NewSession);
  }

  lemma StepKeepsClosing(s: State, l: Label)
    requires (forall k :: k in s.closing ==> k < |s.sessions|) && s.closed
    ensures Step(s, l).closing == s.closing && Step(s, l).closed
  {
  }

  lemma {:induction false} ClosingStays(maxStreams: nat, maxPerSession: nat, labels: seq<Label>, more: seq<Label>)
    requires Run(maxStreams, maxPerSession, labels).closed
    ensures Run(maxStreams, maxPerSession, labels + more).closed
    ensures Run(maxStreams, maxPerSession, labels + more).closing == Run(maxStreams, maxPerSession, labels).closing
  {
    if more == [] {
      assert labels + more == labels;
    } else {
      var rest, l := more[..|more| - 1], more[|more| - 1];
      assert labels + more == (labels + rest) + [l];
      ClosingStays(maxStreams, maxPerSession, labels, rest);
      StepKeepsClosing(Run(maxStreams, maxPerSession, labels + rest), l);
      RunMore(maxStreams, maxPerSession, labels + rest, l);
    }
  }

  // When Close has returned, every session that was registered when it was called is revoked.
  lemma CloseRevokesAll(maxStreams: nat, maxPerSession: nat, labels: seq<Label>, more: seq<Label>, i: nat)
    requires BeginClose !in labels && i < |Run(maxStreams, maxPerSession, labels).sessions|
    requires !Unregistered(maxStreams, maxPerSession, labels, i)
    requires Run(maxStreams, maxPerSession, labels + [BeginClose] + more).closeReturned
    ensures i < |Run(maxStreams, maxPerSession, labels + [BeginClose] + more).sessions|
    ensures Run(maxStreams, maxPerSession, labels + [BeginClose] + more).sessions[i].revocation.Revoked?
  {
    LimitsAreFixed(maxStreams, maxPerSession, labels);
    ListedExactly(maxStreams, maxPerSession, labels, i);
    RunMore(maxStreams, maxPerSession, labels, BeginClose);
    ClosingStays(maxStreams, maxPerSession, labels + [BeginClose], more);
    RunKeepsInv(maxStreams, maxPerSession, labels + [BeginClose] + more);
  }

  // ----- everything comes to rest -----

  // A step of a request that was admitted, or of a revoke call; no session and no request begins.
  predicate IsOwnStep(l: Label) { OfRequest(l) || l.BeginRevoke? || l.EndInterrupts? || l.EndRevoke? }

  function PhaseLeft(phase: Phase): nat {
    match phase
    case Admitted => 8
    case HasServerSlot => 7
    case HasBoth => 6
    case Attached => 5
    case Detached => 4
    case ReleasedServer => 3
    case BusyExit => 3
    case Released => 2
    case SessionDone => 1
    case Done => 0
  }

  function RequestLeft(r: Request): nat { PhaseLeft(r.phase) + if r.interrupted then 0 else 1 }

  function SessionLeft(k: Session): nat {
    match k.revocation case NotRevoked => 3 case Interrupting => 2 case Waiting => 1 case Revoked => 0
  }

  ghost function Left(s: State): nat { Sum(s.requests, RequestLeft) + Sum(s.sessions, SessionLeft) }

  // The step that a request takes next on its own.
  function NextOf(j: nat, phase: Phase): Label
    requires phase != Done
  {
    match phase
    case Admitted => TakeServerSlot(j)
    case HasServerSlot => TakeSessionSlot(j)
    case BusyExit => LeaveBusy(j)
    case HasBoth => Attach(j)
    case Attached => Detach(j)
    case Detached => ReleaseServer(j)
    case ReleasedServer => ReleaseSession(j)
    case Released => LeaveSession(j)
    case SessionDone => LeaveServer(j)
  }

  lemma SessionUnchangedLeft(s: State, k: Session, l: Label)
    ensures SessionLeft(SessionAfter(s, k, l)) == SessionLeft(k)
  {
  }

  lemma RequestProceeds(s: State, l: Label)
    requires Inv(s) && OfRequest(l) && l.request < |s.requests|
    requires var (r, k) := (s.requests[l.request], s.sessions[s.requests[l.request].session]);
      RequestEnabled(s, k, r, l) && RequestLeft(RequestStep(s, k, r, l)) < RequestLeft(r)
    ensures Left(Step(s, l)) < Left(s)
  {
    var j := l.request;
    var i := s.requests[j].session;
    assert RequestInv(s, s.requests[j]);
    SessionUnchangedLeft(s, s.sessions[i], l);
    SumUpdate(s.requests, RequestLeft, j, RequestStep(s, s.sessions[i], s.requests[j], l));
    SumUpdate(s.sessions, SessionLeft, i, SessionAfter(s, s.sessions[i], l));
  }

  // A request that is not done can take a step, whatever the others do.
  lemma RequestMayMove(s: State, j: nat)
    requires Inv(s) && j < |s.requests| && s.requests[j].phase != Done
    ensures var l := NextOf(j, s.requests[j].phase); IsOwnStep(l) && Left(Step(s, l)) < Left(s)
  {
    var (r, l) := (s.requests[j], NextOf(j, s.requests[j].phase));
    assert RequestInv(s, r);
    assert RequestEnabled(s, s.sessions[r.session], r, l);
    RequestProceeds(s, l);
  }

  lemma {:induction false} MarkLeaves(requests: seq<Request>, i: nat)
    ensures Sum(Mark(requests, i), RequestLeft) == Sum(requests, RequestLeft)
  {
    if requests != [] {
      assert Mark(requests, i)[1..] == Mark(requests[1..], i);
      MarkLeaves(requests[1..], i);
    }
  }

  lemma RevocationBegins(s: State, i: nat)
    requires Inv(s) && i < |s.sessions| && !s.sessions[i].listed && s.sessions[i].revocation.NotRevoked?
    ensures Left(Step(s, BeginRevoke(i))) < Left(s)
  {
    MarkLeaves(s.requests, i);
    SumUpdate(s.sessions, SessionLeft, i, s.sessions[i].(revocation := Interrupting));
  }

  lemma RevocationInterrupts(s: State, i: nat) returns (l: Label)
    requires Inv(s) && i < |s.sessions| && s.sessions[i].revocation.Interrupting?
    ensures IsOwnStep(l) && Left(Step(s, l)) < Left(s)
  {
    if AllMarkedInterrupted(s.requests, i) {
      l := EndInterrupts(i);
      SumUpdate(s.sessions, SessionLeft, i, s.sessions[i].(revocation := Waiting));
    } else {
      var j :| 0 <= j < |s.requests| && s.requests[j].session == i && s.requests[j].marked &&
               !s.requests[j].interrupted;
      l := InterruptOne(j);
      RequestProceeds(s, l);
    }
  }

  lemma RevocationEnds(s: State, i: nat)
    requires Inv(s) && i < |s.sessions| && s.sessions[i].revocation.Waiting?
    requires forall j :: 0 <= j < |s.requests| ==> s.requests[j].phase == Done
    ensures Left(Step(s, EndRevoke(i))) < Left(s)
  {
    assert SessionInv(s, i);
    SumZero(s.requests, InFlightOf(i));
    SumUpdate(s.sessions, SessionLeft, i, s.sessions[i].(revocation := Revoked, cleared := true));
  }

  // With every request done, a revocation can go on: it begins, interrupts what is left of its
  // list, and ends.
  lemma RevocationMayMove(s: State, i: nat) returns (l: Label)
    requires Inv(s) && i < |s.sessions| && !s.sessions[i].listed && !s.sessions[i].revocation.Revoked?
    requires forall j :: 0 <= j < |s.requests| ==> s.requests[j].phase == Done
    ensures IsOwnStep(l) && Left(Step(s, l)) < Left(s)
  {
    match s.sessions[i].revocation
    case NotRevoked =>
      l := BeginRevoke(i);
      RevocationBegins(s, i);
    case Interrupting =>
      l := RevocationInterrupts(s, i);
    case Waiting =>
      l := EndRevoke(i);
      RevocationEnds(s, i);
  }

  // Every request is done, and every session out of the map is revoked.
  ghost predicate AtRest(s: State) {
    && (forall j :: 0 <= j < |s.requests| ==> s.requests[j].phase == Done)
    && forall i :: 0 <= i < |s.sessions| && !s.sessions[i].listed ==> s.sessions[i].revocation.Revoked?
  }

  lemma NoDeadlock(s: State) returns (l: Label)
    requires Inv(s) && !AtRest(s)
    ensures IsOwnStep(l) && Left(Step(s, l)) < Left(s)
  {
    if j :| 0 <= j < |s.requests| && s.requests[j].phase != Done {
      RequestMayMove(s, j);
      l := NextOf(j, s.requests[j].phase);
    } else {
      var i :| 0 <= i < |s.sessions| && !s.sessions[i].listed && !s.sessions[i].revocation.Revoked?;
      l := RevocationMayMove(s, i);
    }
  }

  lemma Joined(labels: seq<Label>, l: Label, rest: seq<Label>) returns (more: seq<Label>)
    requires IsOwnStep(l) && forall k :: k in rest ==> IsOwnStep(k)
    ensures labels + more == labels + [l] + rest && forall k :: k in more ==> IsOwnStep(k)
  {
    more := [l] + rest;
    assert labels + more == labels + [l] + rest;
  }

  // From every reachable state the requests end and the revocations return, by steps of their own.
  lemma {:induction false} ComesToRest(maxStreams: nat, maxPerSession: nat, labels: seq<Label>)
    returns (more: seq<Label>)
    ensures forall l :: l in more ==> IsOwnStep(l)
    ensures AtRest(Run(maxStreams, maxPerSession, labels + more))
    decreases Left(Run(maxStreams, maxPerSession, labels))
  {
    RunKeepsInv(maxStreams, maxPerSession, labels);
    if AtRest(Run(maxStreams, maxPerSession, labels)) {
      more := [];
      assert labels + more == labels;
    } else {
      var l := NoDeadlock(Run(maxStreams, maxPerSession, labels));
      RunMore(maxStreams, maxPerSession, labels, l);
      var rest := ComesToRest(maxStreams, maxPerSession, labels + [l]);
      more := Joined(labels, l, rest);
    }
  }

  // Then Close returns.
  lemma CloseReturns(maxStreams: nat, maxPerSession: nat, labels: seq<Label>)
    requires BeginClose in labels && AtRest(Run(maxStreams, maxPerSession, labels))
    ensures Run(maxStreams, maxPerSession, labels + [EndClose]).closeReturned
  {
    var s := Run(maxStreams, maxPerSession, labels);
    RunKeepsInv(maxStreams, maxPerSession, labels);
    LimitsAreFixed(maxStreams, maxPerSession, labels);
    RunMore(maxStreams, maxPerSession, labels, EndClose);
    SumZero(s.requests, Active);
    forall i | i in s.closing ensures s.sessions[i].revocation.Revoked? { assert SessionInv(s, i); }
  }
}

// Admission to the stream proxy: sessions, the requests served for them, the two bounded stream
// semaphores, and the revocation of a session or of the whole server.
module ProxyServer {
  import opened Sequences

  // A request from its admission in handle to the end of its deferred calls.
  //   Admitted            counted in both wait groups
  //   HasServerSlot       holds a server stream; BusyExit gives it back because the session is full
  //   HasBoth             holds both streams
  //   Attached            its transfer is registered with the session
  //   Detached            its transfer is finished and unregistered, or was refused
  //   ReleasedServer      the server stream is back, the session stream is not
  //   Released            nothing held but the two wait groups
  //   SessionDone, Done   the wait groups are left, session first
  datatype Phase =
    | Admitted | HasServerSlot | BusyExit | HasBoth | Attached | Detached | ReleasedServer | Released
    | SessionDone | Done

  // marked: the transfer is in the list that revoke copied; interrupted: revoke has interrupted it.
  datatype Request = Request(session: nat, phase: Phase, marked: bool, interrupted: bool)

  datatype Revocation = NotRevoked | Interrupting | Waiting | Revoked

  // listed: still in the server's map. cleared: revoke has dropped the upstream client and headers.
  datatype Session = Session(listed: bool, streams: nat, inFlight: nat, revocation: Revocation, cleared: bool)

  datatype State = State(
    maxStreams: nat,
    maxPerSession: nat,
    streams: nat,
    inFlight: nat,
    closed: bool,
    closing: set<nat>,
    closeReturned: bool,
    sessions: seq<Session>,
    requests: seq<Request>)

  datatype Label =
    | NewSession
    | Admit(session: nat, expired: bool)
    | RejectRange(request: nat)
    | TakeServerSlot(request: nat)
    | TakeSessionSlot(request: nat)
    | LeaveBusy(request: nat)
    | Attach(request: nat)
    | Detach(request: nat)
    | ReleaseServer(request: nat)
    | ReleaseSession(request: nat)
    | LeaveSession(request: nat)
    | LeaveServer(request: nat)
    | Unlist(session: nat)
    | BeginRevoke(session: nat)
    | InterruptOne(request: nat)
    | EndInterrupts(session: nat)
    | EndRevoke(session: nat)
    | BeginClose
    | EndClose

  function Initial(maxStreams: nat, maxPerSession: nat): State {
    State(maxStreams, maxPerSession, 0, 0, false, {}, false, [], [])
  }

  // ----- what a request holds -----

  predicate HoldsServerSlot(p: Phase) { p in {HasServerSlot, BusyExit, HasBoth, Attached, Detached} }

  predicate HoldsSessionSlot(p: Phase) { p in {HasBoth, Attached, Detached, ReleasedServer} }

  predicate InFlight(p: Phase) { p != SessionDone && p != Done }

  function ServerSlots(r: Request): nat { if HoldsServerSlot(r.phase) then 1 else 0 }

  function Active(r: Request): nat { if r.phase != Done then 1 else 0 }

  function SessionSlots(session: nat): Request -> nat {
    (r: Request) => if r.session == session && HoldsSessionSlot(r.phase) then 1 else 0
  }

  function InFlightOf(session: nat): Request -> nat {
    (r: Request) => if r.session == session && InFlight(r.phase) then 1 else 0
  }

  // ----- the atomic steps -----

  predicate OfRequest(l: Label) {
    l.RejectRange? || l.TakeServerSlot? || l.TakeSessionSlot? || l.LeaveBusy? || l.Attach? || l.Detach?
    || l.ReleaseServer? || l.ReleaseSession? || l.LeaveSession? || l.LeaveServer? || l.InterruptOne?
  }

  predicate OfSession(l: Label) {
    l.Admit? || l.Unlist? || l.BeginRevoke? || l.EndInterrupts? || l.EndRevoke?
  }

  predicate RequestEnabled(s: State, k: Session, r: Request, l: Label)
    requires OfRequest(l)
  {
    match l
    case RejectRange(_) => r.phase == Admitted
    case TakeServerSlot(_) => r.phase == Admitted
    case TakeSessionSlot(_) => r.phase == HasServerSlot
    case LeaveBusy(_) => r.phase == BusyExit
    case Attach(_) => r.phase == HasBoth
    case Detach(_) => r.phase == Attached
    case ReleaseServer(_) => r.phase == Detached
    case ReleaseSession(_) => r.phase == ReleasedServer
    case LeaveSession(_) => r.phase == Released
    case LeaveServer(_) => r.phase == SessionDone
    case InterruptOne(_) => k.revocation.Interrupting? && r.marked
  }

  function RequestStep(s: State, k: Session, r: Request, l: Label): Request
    requires OfRequest(l)
  {
    match l
    case RejectRange(_) => r.(phase := Released)
    case TakeServerSlot(_) => r.(phase := if s.streams < s.maxStreams then HasServerSlot else Released)
    case TakeSessionSlot(_) => r.(phase := if k.streams < s.maxPerSession then HasBoth else BusyExit)
    case LeaveBusy(_) => r.(phase := Released)
    case Attach(_) => r.(phase := if k.revocation.NotRevoked? then Attached else Detached)
    case Detach(_) => r.(phase := Detached)
    case ReleaseServer(_) => r.(phase := ReleasedServer)
    case ReleaseSession(_) => r.(phase := Released)
    case LeaveSession(_) => r.(phase := SessionDone)
    case LeaveServer(_) => r.(phase := Done)
    case InterruptOne(_) => r.(interrupted := true)
  }

  // The semaphores and wait groups, as each step sends, receives, adds or leaves.
  function StreamsAfter(s: State, l: Label): nat {
    if l.TakeServerSlot? && s.streams < s.maxStreams then s.streams + 1
    else if (l.LeaveBusy? || l.ReleaseServer?) && s.streams > 0 then s.streams - 1
    else s.streams
  }

  function SessionAfter(s: State, k: Session, l: Label): Session {
    if l.TakeSessionSlot? && k.streams < s.maxPerSession then k.(streams := k.streams + 1)
    else if l.ReleaseSession? && k.streams > 0 then k.(streams := k.streams - 1)
    else if l.LeaveSession? && k.inFlight > 0 then k.(inFlight := k.inFlight - 1)
    else k
  }

  function InFlightAfter(s: State, l: Label): nat {
    if l.LeaveServer? && s.inFlight > 0 then s.inFlight - 1 else s.inFlight
  }

  // revoke's critical section copies the registered transfers.
  function Mark(requests: seq<Request>, session: nat): (marked: seq<Request>)
    ensures |marked| == |requests|
    ensures forall i :: 0 <= i < |requests| ==> marked[i] == MarkOne(requests[i], session)
  {
    seq(|requests|, i requires 0 <= i < |requests| => MarkOne(requests[i], session))
  }

  function MarkOne(r: Request, session: nat): Request {
    if r.session == session && r.phase == Attached then r.(marked := true) else r
  }

  ghost predicate AllMarkedInterrupted(requests: seq<Request>, session: nat) {
    forall i :: 0 <= i < |requests| && requests[i].session == session && requests[i].marked ==> requests[i].interrupted
  }

  predicate MayAdmit(s: State, session: nat, expired: bool)
    requires session < |s.sessions|
  {
    !s.closed && s.sessions[session].listed && s.sessions[session].revocation.NotRevoked? && !expired
  }

  ghost predicate SessionEnabled(s: State, l: Label)
    requires OfSession(l)
  {
    && l.session < |s.sessions|
    && match l
       case Admit(k, expired) => MayAdmit(s, k, expired)
       case Unlist(k) => true
       case BeginRevoke(k) => !s.sessions[k].listed && s.sessions[k].revocation.NotRevoked?
       case EndInterrupts(k) => s.sessions[k].revocation.Interrupting? && AllMarkedInterrupted(s.requests, k)
       case EndRevoke(k) => s.sessions[k].revocation.Waiting? && s.sessions[k].inFlight == 0
  }

  ghost function SessionStep(s: State, l: Label): State
    requires OfSession(l) && SessionEnabled(s, l)
  {
    var k := s.sessions[l.session];
    match l
    case Admit(i, _) =>
      s.(requests := s.requests + [Request(i, Admitted, false, false)], inFlight := s.inFlight + 1,
         sessions := s.sessions[i := k.(inFlight := k.inFlight + 1)])
    case Unlist(i) => s.(sessions := s.sessions[i := k.(listed := false)])
    case BeginRevoke(i) => s.(sessions := s.sessions[i := k.(revocation := Interrupting)],
                              requests := Mark(s.requests, i))
    case EndInterrupts(i) => s.(sessions := s.sessions[i := k.(revocation := Waiting)])
    case EndRevoke(i) => s.(sessions := s.sessions[i := k.(revocation := Revoked, cleared := true)])
  }

  function UnlistAll(sessions: seq<Session>): (after: seq<Session>)
    ensures |after| == |sessions|
    ensures forall i :: 0 <= i < |sessions| ==> after[i] == sessions[i].(listed := false)
  {
    seq(|sessions|, i requires 0 <= i < |sessions| => sessions[i].(listed := false))
  }

  // The sessions that Close revokes.
  function Listed(sessions: seq<Session>): (listed: set<nat>)
    ensures forall i: nat :: i in listed <==> i < |sessions| && sessions[i].listed
  {
    set i: nat | i < |sessions| && sessions[i].listed
  }

  ghost function Step(s: State, l: Label): State
    requires forall i :: i in s.closing ==> i < |s.sessions|
    ensures forall i :: i in Step(s, l).closing ==> i < |Step(s, l).sessions|
  {
    if OfRequest(l) then
      if l.request < |s.requests| && s.requests[l.request].session < |s.sessions| then
        var r := s.requests[l.request];
        var k := s.sessions[r.session];
        if RequestEnabled(s, k, r, l) then
          s.(requests := s.requests[l.request := RequestStep(s, k, r, l)],
             sessions := s.sessions[r.session := SessionAfter(s, k, l)],
             streams := StreamsAfter(s, l), inFlight := InFlightAfter(s, l))
        else s
      else s
    else if OfSession(l) then
      if SessionEnabled(s, l) then SessionStep(s, l) else s
    else if l.NewSession? then
      if s.closed then s else s.(sessions := s.sessions + [Session(true, 0, 0, NotRevoked, false)])
    else if l.BeginClose? then
      if s.closed then s
      else s.(closed := true, closing := Listed(s.sessions), sessions := UnlistAll(s.sessions))
    else if s.closed && s.inFlight == 0 && (forall i :: i in s.closing ==> s.sessions[i].revocation.Revoked?) then
      s.(closeReturned := true)
    else s
  }

  ghost function Run(maxStreams: nat, maxPerSession: nat, labels: seq<Label>): (s: State)
    ensures forall i :: i in s.closing ==> i < |s.sessions|
  {
    if labels == [] then Initial(maxStreams, maxPerSession)
    else Step(Run(maxStreams, maxPerSession, labels[..|labels| - 1]), labels[|labels| - 1])
  }

  // ----- the invariant -----

  ghost predicate SessionInv(s: State, i: nat)
    requires i < |s.sessions|
  {
    var k := s.sessions[i];
    && k.streams == Sum(s.requests, SessionSlots(i)) <= s.maxPerSession
    && k.inFlight == Sum(s.requests, InFlightOf(i))
    && (!k.revocation.NotRevoked? ==> !k.listed)
    && (k.cleared <==> k.revocation.Revoked?)
    && (k.revocation.Revoked? ==> k.inFlight == 0)
    && (s.closed ==> !k.listed)
  }

  ghost predicate RequestInv(s: State, r: Request) {
    && r.session < |s.sessions|
    && (r.phase == Attached && !s.sessions[r.session].revocation.NotRevoked? ==> r.marked)
    && (r.marked && s.sessions[r.session].revocation in {Waiting, Revoked} ==> r.interrupted)
    && (r.marked ==> !s.sessions[r.session].revocation.NotRevoked?)
  }

  ghost predicate Inv(s: State) {
    && s.streams == Sum(s.requests, ServerSlots) <= s.maxStreams
    && s.inFlight == Sum(s.requests, Active)
    && (forall i :: 0 <= i < |s.sessions| ==> SessionInv(s, i))
    && (forall i :: 0 <= i < |s.requests| ==> RequestInv(s, s.requests[i]))
    && (forall i :: i in s.closing ==> i < |s.sessions|)
    && (s.closeReturned ==>
          s.closed && s.inFlight == 0 && forall i :: i in s.closing ==> s.sessions[i].revocation.Revoked?)
  }

  // ----- a request's step -----

  // A request's step moves every counter by what the request itself takes or gives back.
  lemma CountersFollowRequest(s: State, k: Session, r: Request, l: Label, i: nat)
    requires OfRequest(l) && RequestEnabled(s, k, r, l) && r.session == i
    requires ServerSlots(r) <= s.streams <= s.maxStreams && Active(r) <= s.inFlight
    requires SessionSlots(i)(r) <= k.streams <= s.maxPerSession && InFlightOf(i)(r) <= k.inFlight
    ensures var r', k' := RequestStep(s, k, r, l), SessionAfter(s, k, l);
            && r'.session == i
            && ServerSlots(r') - ServerSlots(r) == StreamsAfter(s, l) - s.streams
            && Active(r') - Active(r) == InFlightAfter(s, l) - s.inFlight
            && SessionSlots(i)(r') - SessionSlots(i)(r) == k'.streams - k.streams
            && InFlightOf(i)(r') - InFlightOf(i)(r) == k'.inFlight - k.inFlight
            && StreamsAfter(s, l) <= s.maxStreams && k'.streams <= s.maxPerSession
            && k' == k.(streams := k'.streams, inFlight := k'.inFlight) && k'.inFlight <= k.inFlight
  {
  }

  lemma RequestKeepsFlags(s: State, k: Session, r: Request, l: Label)
    requires OfRequest(l) && RequestEnabled(s, k, r, l)
    requires r.session < |s.sessions| && k == s.sessions[r.session] && RequestInv(s, r)
    ensures RequestInv(s, RequestStep(s, k, r, l))
  {
  }

  // Other sessions do not see the step.
  lemma OtherSession(s: State, j: nat, r': Request, i: nat)
    requires j < |s.requests| && s.requests[j].session == r'.session != i
    ensures Sum(s.requests[j := r'], SessionSlots(i)) == Sum(s.requests, SessionSlots(i))
    ensures Sum(s.requests[j := r'], InFlightOf(i)) == Sum(s.requests, InFlightOf(i))
  {
    SumUpdate(s.requests, SessionSlots(i), j, r');
    SumUpdate(s.requests, InFlightOf(i), j, r');
  }

  lemma ReplaceRequest(s: State, j: nat, r': Request, k': Session, streams: nat, inFlight: nat)
    requires Inv(s) && j < |s.requests| && r'.session == s.requests[j].session && RequestInv(s, r')
    requires var r, i := s.requests[j], r'.session;
             var k := s.sessions[i];
             && ServerSlots(r') - ServerSlots(r) == streams - s.streams && streams <= s.maxStreams
             && Active(r') - Active(r) == inFlight - s.inFlight <= 0
             && SessionSlots(i)(r') - SessionSlots(i)(r) == k'.streams - k.streams && k'.streams <= s.maxPerSession
             && InFlightOf(i)(r') - InFlightOf(i)(r) == k'.inFlight - k.inFlight && k'.inFlight <= k.inFlight
             && k' == k.(streams := k'.streams, inFlight := k'.inFlight)
    ensures Inv(s.(requests := s.requests[j := r'], sessions := s.sessions[r'.session := k'], streams := streams,
                   inFlight := inFlight))
  {
    var i := r'.session;
    var s' := s.(requests := s.requests[j := r'], sessions := s.sessions[i := k'], streams := streams,
                 inFlight := inFlight);
    SumUpdate(s.requests, ServerSlots, j, r');
    SumUpdate(s.requests, Active, j, r');
    forall n | 0 <= n < |s'.sessions| ensures SessionInv(s', n) {
      assert SessionInv(s, n);
      if n == i {
        SumUpdate(s.requests, SessionSlots(i), j, r');
        SumUpdate(s.requests, InFlightOf(i), j, r');
      } else {
        OtherSession(s, j, r', n);
      }
    }
  }

  lemma RequestCovered(s: State, j: nat)
    requires Inv(s) && j < |s.requests|
    ensures var r := s.requests[j];
            && r.session < |s.sessions|
            && ServerSlots(r) <= s.streams <= s.maxStreams && Active(r) <= s.inFlight
            && SessionSlots(r.session)(r) <= s.sessions[r.session].streams <= s.maxPerSession
            && InFlightOf(r.session)(r) <= s.sessions[r.session].inFlight
  {
    var r := s.requests[j];
    assert RequestInv(s, r);
    assert SessionInv(s, r.session);
    SumCovers(s.requests, ServerSlots, j);
    SumCovers(s.requests, Active, j);
    SumCovers(s.requests, SessionSlots(r.session), j);
    SumCovers(s.requests, InFlightOf(r.session), j);
  }

  lemma RequestStepKeepsInv(s: State, l: Label)
    requires Inv(s) && OfRequest(l)
    ensures Inv(Step(s, l))
  {
    if l.request < |s.requests| {
      assert RequestInv(s, s.requests[l.request]);
      EnabledRequestKeepsInv(s, l, s.sessions[s.requests[l.request].session], s.requests[l.request]);
    }
  }

  lemma EnabledRequestKeepsInv(s: State, l: Label, k: Session, r: Request)
    requires Inv(s) && OfRequest(l) && l.request < |s.requests| && r == s.requests[l.request]
    requires r.session < |s.sessions| && k == s.sessions[r.session]
    ensures RequestEnabled(s, k, r, l) ==>
              Inv(s.(requests := s.requests[l.request := RequestStep(s, k, r, l)],
                     sessions := s.sessions[r.session := SessionAfter(s, k, l)],
                     streams := StreamsAfter(s, l), inFlight := InFlightAfter(s, l)))
  {
    if RequestEnabled(s, k, r, l) {
      RequestCovered(s, l.request);
      CountersFollowRequest(s, k, r, l, r.session);
      RequestKeepsFlags(s, k, r, l);
      ReplaceRequest(s, l.request, RequestStep(s, k, r, l), SessionAfter(s, k, l), StreamsAfter(s, l),
                     InFlightAfter(s, l));
    }
  }

  // ----- a session's step -----

  // A change of one session's flags that keeps the counters.
  lemma ReplaceSession(s: State, i: nat, k': Session)
    requires Inv(s) && i < |s.sessions|
    requires k'.streams == s.sessions[i].streams && k'.inFlight == s.sessions[i].inFlight
    requires (!k'.revocation.NotRevoked? ==> !k'.listed) && (k'.cleared <==> k'.revocation.Revoked?)
    requires (k'.revocation.Revoked? ==> k'.inFlight == 0) && (s.closed ==> !k'.listed)
    requires s.sessions[i].revocation.Revoked? ==> k'.revocation.Revoked?
    requires forall j :: 0 <= j < |s.requests| && s.requests[j].session == i ==>
               RequestInv(s.(sessions := s.sessions[i := k']), s.requests[j])
    ensures Inv(s.(sessions := s.sessions[i := k']))
  {
    var s' := s.(sessions := s.sessions[i := k']);
    forall n | 0 <= n < |s'.sessions| ensures SessionInv(s', n) {
      assert SessionInv(s, n);
    }
    forall j | 0 <= j < |s.requests| ensures RequestInv(s', s.requests[j]) {
      assert RequestInv(s, s.requests[j]);
    }
  }

  lemma AdmitKeepsInv(s: State, i: nat)
    requires Inv(s) && i < |s.sessions| && MayAdmit(s, i, false)
    ensures Inv(SessionStep(s, Admit(i, false)))
  {
    var r := Request(i, Admitted, false, false);
    var s' := SessionStep(s, Admit(i, false));
    SumAppend(s.requests, ServerSlots, r);
    SumAppend(s.requests, Active, r);
    forall n | 0 <= n < |s'.sessions| ensures SessionInv(s', n) {
      assert SessionInv(s, n);
      SumAppend(s.requests, SessionSlots(n), r);
      SumAppend(s.requests, InFlightOf(n), r);
    }
    forall j | 0 <= j < |s'.requests| ensures RequestInv(s', s'.requests[j]) {
      if j < |s.requests| { assert RequestInv(s, s.requests[j]); }
    }
  }

  lemma {:induction false} MarkKeepsSums(requests: seq<Request>, i: nat, n: nat)
    ensures Sum(Mark(requests, i), ServerSlots) == Sum(requests, ServerSlots)
    ensures Sum(Mark(requests, i), Active) == Sum(requests, Active)
    ensures Sum(Mark(requests, i), SessionSlots(n)) == Sum(requests, SessionSlots(n))
    ensures Sum(Mark(requests, i), InFlightOf(n)) == Sum(requests, InFlightOf(n))
  {
    if requests != [] {
      assert Mark(requests, i)[1..] == Mark(requests[1..], i);
      MarkKeepsSums(requests[1..], i, n);
    }
  }

  lemma BeginRevokeKeepsInv(s: State, i: nat)
    requires Inv(s) && SessionEnabled(s, BeginRevoke(i))
    ensures Inv(SessionStep(s, BeginRevoke(i)))
  {
    var s' := SessionStep(s, BeginRevoke(i));
    MarkKeepsSums(s.requests, i, 0);
    forall n | 0 <= n < |s'.sessions| ensures SessionInv(s', n) {
      assert SessionInv(s, n);
      MarkKeepsSums(s.requests, i, n);
    }
    forall j | 0 <= j < |s'.requests| ensures RequestInv(s', s'.requests[j]) {
      assert RequestInv(s, s.requests[j]);
    }
  }

  lemma SessionStepKeepsInv(s: State, l: Label)
    requires Inv(s) && OfSession(l) && SessionEnabled(s, l)
    ensures Inv(SessionStep(s, l))
  {
    var i := l.session;
    assert SessionInv(s, i);
    var k := s.sessions[i];
    match l
    case Admit(_, expired) => AdmitKeepsInv(s, i);
    case BeginRevoke(_) => BeginRevokeKeepsInv(s, i);
    case Unlist(_) => ReplaceSession(s, i, k.(listed := false));
    case EndInterrupts(_) => ReplaceSession(s, i, k.(revocation := Waiting));
    case EndRevoke(_) => ReplaceSession(s, i, k.(revocation := Revoked, cleared := true));
  }

  lemma {:induction false} NobodyOf(requests: seq<Request>, i: nat)
    requires forall j :: 0 <= j < |requests| ==> requests[j].session < i
    ensures Sum(requests, SessionSlots(i)) == 0 && Sum(requests, InFlightOf(i)) == 0
  {
    if requests != [] {
      assert forall j :: 0 <= j < |requests| - 1 ==> requests[1..][j] == requests[j + 1];
      NobodyOf(requests[1..], i);
    }
  }

  lemma ServerStepKeepsInv(s: State, l: Label)
    requires Inv(s) && !OfRequest(l) && !OfSession(l)
    ensures Inv(Step(s, l))
  {
    var s' := Step(s, l);
    forall n | 0 <= n < |s'.sessions| ensures SessionInv(s', n) {
      if n < |s.sessions| {
        assert SessionInv(s, n);
      } else {
        assert forall j :: 0 <= j < |s.requests| ==> RequestInv(s, s.requests[j]);
        NobodyOf(s.requests, n);
      }
    }
    forall j | 0 <= j < |s'.requests| ensures RequestInv(s', s'.requests[j]) {
      assert RequestInv(s, s.requests[j]);
    }
  }

  lemma StepKeepsInv(s: State, l: Label)
    requires Inv(s)
    ensures Inv(Step(s, l))
  {
    if OfRequest(l) {
      RequestStepKeepsInv(s, l);
    } else if OfSession(l) {
      if SessionEnabled(s, l) { SessionStepKeepsInv(s, l); }
    } else {
      ServerStepKeepsInv(s, l);
    }
  }

  lemma {:induction false} RunKeepsInv(maxStreams: nat, maxPerSession: nat, labels: seq<Label>)
    ensures Inv(Run(maxStreams, maxPerSession, labels))
  {
    if labels != [] {
      RunKeepsInv(maxStreams, maxPerSession, labels[..|labels| - 1]);
      StepKeepsInv(Run(maxStreams, maxPerSession, labels[..|labels| - 1]), labels[|labels| - 1]);
    }
  }

  // ----- what the proxy guarantees -----

  // Both semaphores hold exactly what the requests in their stream phases took, whichever way
  // earlier requests left; with nobody in such a phase, every stream is free again.
  lemma StreamsAccounted(maxStreams: nat, maxPerSession: nat, labels: seq<Label>)
    ensures var s := Run(maxStreams, maxPerSession, labels);
            && s.streams == Sum(s.requests, ServerSlots)
            && (forall i :: 0 <= i < |s.sessions| ==> s.sessions[i].streams == Sum(s.requests, SessionSlots(i)))
            && ((forall j :: 0 <= j < |s.requests| ==>
                   s.requests[j].phase in {Admitted, Released, SessionDone, Done}) ==>
                  s.streams == 0 && forall i :: 0 <= i < |s.sessions| ==> s.sessions[i].streams == 0)
  {
    RunKeepsInv(maxStreams, maxPerSession, labels);
    var s := Run(maxStreams, maxPerSession, labels);
    SumZero(s.requests, ServerSlots);
    forall i | 0 <= i < |s.sessions|
      ensures s.sessions[i].streams == Sum(s.requests, SessionSlots(i))
      ensures (forall j :: 0 <= j < |s.requests| ==> s.requests[j].phase in {Admitted, Released, SessionDone, Done}) ==>
                s.sessions[i].streams == 0
    {
      assert SessionInv(s, i);
      SumZero(s.requests, SessionSlots(i));
    }
  }

  lemma NoRequestInFlight(s: State, i: nat)
    requires Inv(s) && i < |s.sessions| && s.sessions[i].inFlight == 0
    ensures forall j :: 0 <= j < |s.requests| && s.requests[j].session == i ==> !InFlight(s.requests[j].phase)
  {
    assert SessionInv(s, i);
    SumZero(s.requests, InFlightOf(i));
    forall j | 0 <= j < |s.requests| && s.requests[j].session == i ensures !InFlight(s.requests[j].phase) {
      assert InFlightOf(i)(s.requests[j]) == 0;
    }
  }

  // When revoke returns, no request of the session is in flight, and so it stays; a request that
  // is in flight therefore always finds the session's client and headers.
  lemma RevokeWaits(maxStreams: nat, maxPerSession: nat, labels: seq<Label>, j: nat)
    requires j < |Run(maxStreams, maxPerSession, labels).requests|
    ensures var s := Run(maxStreams, maxPerSession, labels);
            var r := s.requests[j];
            && r.session < |s.sessions|
            && (s.sessions[r.session].revocation.Revoked? ==> !InFlight(r.phase))
            && (InFlight(r.phase) ==> !s.sessions[r.session].cleared)
  {
    RunKeepsInv(maxStreams, maxPerSession, labels);
    var s := Run(maxStreams, maxPerSession, labels);
    assert RequestInv(s, s.requests[j]);
    var i := s.requests[j].session;
    assert SessionInv(s, i);
    if s.sessions[i].inFlight == 0 { NoRequestInFlight(s, i); }
  }

  // No transfer slips past a revocation: once revoke has gone through its list, every transfer
  // that is still registered has been interrupted.
  lemma EveryTransferInterrupted(maxStreams: nat, maxPerSession: nat, labels: seq<Label>, j: nat)
    requires j < |Run(maxStreams, maxPerSession, labels).requests|
    requires var s := Run(maxStreams, maxPerSession, labels);
             && s.requests[j].phase == Attached
             && s.requests[j].session < |s.sessions|
             && s.sessions[s.requests[j].session].revocation in {Waiting, Revoked}
    ensures Run(maxStreams, maxPerSession, labels).requests[j].interrupted
  {
    RunKeepsInv(maxStreams, maxPerSession, labels);
    var s := Run(maxStreams, maxPerSession, labels);
    assert RequestInv(s, s.requests[j]);
  }

  lemma AllDone(s: State)
    requires Inv(s) && s.inFlight == 0
    ensures forall j :: 0 <= j < |s.requests| ==> s.requests[j].phase == Done
    ensures s.streams == 0
  {
    SumZero(s.requests, Active);
    forall j | 0 <= j < |s.requests| ensures s.requests[j].phase == Done {
      assert Active(s.requests[j]) == 0;
    }
    SumZero(s.requests, ServerSlots);
  }

  lemma NothingAdmittedAfterClose(s: State, l: Label)
    requires Inv(s) && s.closeReturned
    ensures Step(s, l).closeReturned && |Step(s, l).requests| == |s.requests|
  {
  }

  lemma {:induction false} CloseStays(maxStreams: nat, maxPerSession: nat, labels: seq<Label>, more: seq<Label>)
    requires Run(maxStreams, maxPerSession, labels).closeReturned
    ensures var s := Run(maxStreams, maxPerSession, labels + more);
            s.closeReturned && |s.requests| == |Run(maxStreams, maxPerSession, labels).requests|
  {
    if more == [] {
      assert labels + more == labels;
    } else {
      var rest := more[..|more| - 1];
      assert (labels + more)[..|labels + more| - 1] == labels + rest;
      CloseStays(maxStreams, maxPerSession, labels, rest);
      RunKeepsInv(maxStreams, maxPerSession, labels + rest);
      NothingAdmittedAfterClose(Run(maxStreams, maxPerSession, labels + rest), more[|more| - 1]);
    }
  }

  // Once Close has returned, every request is done, every session that it closed is revoked, all
  // streams are free, and nothing is admitted any more.
  lemma CloseIsFinal(maxStreams: nat, maxPerSession: nat, labels: seq<Label>, more: seq<Label>)
    requires Run(maxStreams, maxPerSession, labels).closeReturned
    ensures var s := Run(maxStreams, maxPerSession, labels + more);
            && |s.requests| == |Run(maxStreams, maxPerSession, labels).requests|
            && (forall j :: 0 <= j < |s.requests| ==> s.requests[j].phase == Done)
            && (forall i :: i in s.closing ==> s.sessions[i].revocation.Revoked?)
            && s.streams == 0
  {
    CloseStays(maxStreams, maxPerSession, labels, more);
    RunKeepsInv(maxStreams, maxPerSession, labels + more);
    AllDone(Run(maxStreams, maxPerSession, labels + more));
  }

  // ----- the server object -----

  class StreamServer {
    const maxStreams: nat
    const maxPerSession: nat
    var streams: nat
    var inFlight: nat
    var closed: bool
    var closing: set<nat>
    var closeReturned: bool
    var sessions: seq<Session>
    var requests: seq<Request>

    ghost function View(): State
      reads this
    {
      State(maxStreams, maxPerSession, streams, inFlight, closed, closing, closeReturned, sessions, requests)
    }

    ghost predicate Valid()
      reads this
    {
      && (forall i :: i in closing ==> i < |sessions|)
      && forall j :: 0 <= j < |requests| ==> requests[j].session < |sessions|
    }

    constructor (maxStreams: nat, maxPerSession: nat)
      ensures View() == Initial(maxStreams, maxPerSession) && Valid()
    {
      this.maxStreams, this.maxPerSession := maxStreams, maxPerSession;
      streams, inFlight, closed, closing, closeReturned := 0, 0, false, {}, false;
      sessions, requests := [], [];
    }

    // The locked part of handle, with the session's acquire.
    method Handle(session: nat, expired: bool) returns (admitted: bool)
      requires Valid() && session < |sessions|
      modifies this
      ensures Valid() && View() == Step(old(View()), Admit(session, expired))
      ensures admitted <==>
        !old(closed) && !expired && old(sessions[session]).listed && old(sessions[session]).revocation.NotRevoked?
      ensures requests == old(requests) + if admitted then [Request(session, Admitted, false, false)] else []
    {
      if closed || !sessions[session].listed {
        return false;
      }
      if sessions[session].revocation != NotRevoked || expired {
        return false;
      }
      sessions := sessions[session := sessions[session].(inFlight := sessions[session].inFlight + 1)];
      inFlight := inFlight + 1;
      requests := requests + [Request(session, Admitted, false, false)];
      return true;
    }

    // The two non-blocking acquisitions of serveSession; on failure nothing is kept.
    method AcquireStreams(request: nat) returns (ok: bool)
      requires Valid() && request < |requests| && requests[request].phase == Admitted
      modifies this
      ensures Valid()
      ensures ok <==> old(streams < maxStreams && sessions[requests[request].session].streams < maxPerSession)
      ensures ok ==> View() == Step(Step(old(View()), TakeServerSlot(request)), TakeSessionSlot(request))
      ensures !ok ==>
        View() == old(View()).(requests := old(requests)[request := old(requests[request]).(phase := Released)])
    {
      var i := requests[request].session;
      if streams >= maxStreams {
        requests := requests[request := requests[request].(phase := Released)];
        return false;
      }
      streams := streams + 1;
      if sessions[i].streams >= maxPerSession {
        streams := streams - 1;
        requests := requests[request := requests[request].(phase := Released)];
        return false;
      }
      ghost var taken := Step(old(View()), TakeServerSlot(request));
      assert taken.requests == requests[request := requests[request].(phase := HasServerSlot)];
      sessions := sessions[i := sessions[i].(streams := sessions[i].streams + 1)];
      requests := requests[request := requests[request].(phase := HasBoth)];
      assert taken.requests[request].phase == HasServerSlot && taken.sessions == old(sessions);
      return true;
    }

    method AttachTransfer(request: nat) returns (ok: bool)
      requires Valid() && request < |requests| && requests[request].phase == HasBoth
      modifies this
      ensures Valid() && View() == Step(old(View()), Attach(request))
      ensures ok <==> old(sessions[requests[request].session].revocation.NotRevoked?)
    {
      var i := requests[request].session;
      ok := sessions[i].revocation == NotRevoked;
      requests := requests[request := requests[request].(phase := if ok then Attached else Detached)];
      assert sessions == sessions[i := sessions[i]];
    }

    // The deferred releases of serveSession.
    method ReleaseStreams(request: nat)
      requires Valid() && request < |requests| && requests[request].phase == Detached
      requires streams > 0 && sessions[requests[request].session].streams > 0
      modifies this
      ensures Valid()
      ensures var i := old(requests[request].session);
        View() == old(View()).(
          requests := old(requests)[request := old(requests[request]).(phase := Released)], streams := old(streams) - 1,
          sessions := old(sessions)[i := old(sessions)[i].(streams := old(sessions)[i].streams - 1)])
    {
      var i := requests[request].session;
      streams := streams - 1;
      sessions := sessions[i := sessions[i].(streams := sessions[i].streams - 1)];
      requests := requests[request := requests[request].(phase := Released)];
    }

    // The critical section of revoke: refuse new work and copy the registered transfers. A repeated
    // call changes nothing; it only waits, as AwaitRevocation does.
    method BeginRevocation(session: nat) returns (first: bool)
      requires Valid() && session < |sessions| && !sessions[session].listed
      modifies this
      ensures Valid() && View() == Step(old(View()), BeginRevoke(session))
      ensures first <==> old(sessions[session].revocation.NotRevoked?)
    {
      if sessions[session].revocation != NotRevoked {
        return false;
      }
      first := true;
      sessions := sessions[session := sessions[session].(revocation := Interrupting)];
      var marked: seq<Request> := [];
      var j := 0;
      while j < |requests|
        invariant j <= |requests| && |marked| == j
        invariant forall k :: 0 <= k < j ==> marked[k] == MarkOne(requests[k], session)
      {
        var r := requests[j];
        if r.session == session && r.phase == Attached {
          r := r.(marked := true);
        }
        marked := marked + [r];
        j := j + 1;
      }
      assert marked == Mark(requests, session);
      requests := marked;
    }

    // Whether a repeated revoke may return: the first one has closed closeDone, and nothing of the
    // session is in flight.
    method AwaitRevocation(session: nat) returns (done: bool)
      requires session < |sessions| && SessionInv(View(), session)
      ensures done <==> sessions[session].revocation.Revoked?
      ensures done ==> sessions[session].cleared && sessions[session].inFlight == 0
    {
      return sessions[session].revocation == Revoked;
    }

    // The end of revoke, when its wait group is empty.
    method EndRevocation(session: nat)
      requires Valid() && session < |sessions|
      requires sessions[session].revocation.Waiting? && sessions[session].inFlight == 0
      modifies this
      ensures Valid() && View() == Step(old(View()), EndRevoke(session))
    {
      sessions := sessions[session := sessions[session].(revocation := Revoked, cleared := true)];
    }
  }
}

// One proxied transfer: the request's goroutine attaches the upstream body and finishes, while a
// revocation may interrupt at any moment. Every critical section and every effect between two of
// them is a step of its own.
module Transfer {

  // The request's goroutine. The Finish states remember what finish read under the lock.
  datatype Server =
    | Opening
    | Opened
    | Refused
    | Serving
    | Finish(body: bool, interrupted: bool, stage: FinishStage)
    | Finished

  datatype FinishStage = ToCancel | ToClose | ToWait | ToClear

  // The goroutine of the one interrupt call that passes its guard.
  datatype Interrupter = Idle | Interrupting(body: bool, stage: InterruptStage) | Done

  datatype InterruptStage = CancelNext | DeadlineNext | CloseNext | SignalNext

  // The upstream's body: whether it arrived, its close guard, and how often it was closed.
  datatype Body = Body(received: bool, once: bool, closes: nat)

  // attached is transfer.body != nil; deadline is a past write deadline.
  datatype State = State(
    interrupted: bool,
    finished: bool,
    attached: bool,
    interruptDone: bool,
    cancelled: bool,
    deadline: bool,
    body: Body,
    server: Server,
    interrupter: Interrupter)

  datatype Label = Open(ok: bool) | Attach | CloseRefused | EnterFinish | AdvanceFinish | Interrupt | AdvanceInterrupt

  const INITIAL := State(false, false, false, false, false, false, Body(false, false, 0), Opening, Idle)

  // ----- the atomic steps -----

  function CloseBody(s: State): State {
    s.(body := CloseOnce(s.body))
  }

  function CloseOnce(b: Body): Body {
    if b.once then b else b.(once := true, closes := b.closes + 1)
  }

  function AttachStep(s: State): State {
    if s.interrupted || s.finished then s.(server := Refused)
    else s.(attached := true, server := Serving)
  }

  function EnterFinishStep(s: State): State {
    s.(finished := true, attached := false, server := Finish(s.attached, s.interrupted, ToCancel))
  }

  function FinishStep(s: State): State
    requires s.server.Finish?
  {
    var f := s.server;
    if f.stage.ToCancel? then s.(cancelled := true, server := Finish(f.body, f.interrupted, ToClose))
    else if f.stage.ToClose? then
      (if f.body then CloseBody(s) else s).(server := if f.interrupted then Finish(f.body, true, ToWait) else Finished)
    else if f.stage.ToWait? then (if s.interruptDone then s.(server := Finish(f.body, f.interrupted, ToClear)) else s)
    else s.(deadline := false, server := Finished)
  }

  function InterruptStep(s: State): State {
    if s.interrupted || s.finished then s
    else s.(interrupted := true, interrupter := Interrupting(s.attached, CancelNext))
  }

  function AdvanceInterruptStep(s: State): State
    requires s.interrupter.Interrupting?
  {
    var i := s.interrupter;
    if i.stage.CancelNext? then s.(cancelled := true, interrupter := Interrupting(i.body, DeadlineNext))
    else if i.stage.DeadlineNext? then s.(deadline := true, interrupter := Interrupting(i.body, CloseNext))
    else if i.stage.CloseNext? then
      (if i.body then CloseBody(s) else s).(interrupter := Interrupting(i.body, SignalNext))
    else s.(interruptDone := true, interrupter := Done)
  }

  predicate Enabled(s: State, l: Label) {
    match l
    case Open(_) => s.server.Opening?
    case Attach => s.server.Opened?
    case CloseRefused => s.server.Refused?
    case EnterFinish => s.server.Serving?
    case AdvanceFinish => s.server.Finish? && (s.server.stage.ToWait? ==> s.interruptDone)
    case Interrupt => true
    case AdvanceInterrupt => s.interrupter.Interrupting?
  }

  function Step(s: State, l: Label): State {
    if !Enabled(s, l) then s else
    match l
    case Open(ok) => if ok then s.(body := s.body.(received := true), server := Opened) else s.(server := Serving)
    case Attach => AttachStep(s)
    case CloseRefused => CloseBody(s).(server := Serving)
    case EnterFinish => EnterFinishStep(s)
    case AdvanceFinish => FinishStep(s)
    case Interrupt => InterruptStep(s)
    case AdvanceInterrupt => AdvanceInterruptStep(s)
  }

  function Run(labels: seq<Label>): State {
    if labels == [] then INITIAL else Step(Run(labels[..|labels| - 1]), labels[|labels| - 1])
  }

  // ----- the invariant -----

  ghost predicate BodyInv(s: State) {
    && s.body.closes == (if s.body.once then 1 else 0)
    && (s.body.once || s.attached || s.server.Opened? || s.server.Refused? ==> s.body.received)
    && (s.body.received && !s.attached && !s.body.once ==>
          || s.server.Opened? || s.server.Refused?
          || (s.server.Finish? && s.server.body && s.server.stage in {ToCancel, ToClose}))
    && (s.interrupter.Interrupting? && s.interrupter.body ==> s.body.received)
    && (s.server.Finish? && s.server.body ==> s.body.received)
    && (s.attached ==> s.server.Serving?)
    && (s.server.Opening? ==> !s.body.received)
  }

  ghost predicate SignalInv(s: State) {
    && (s.interrupted <==> !s.interrupter.Idle?)
    && (s.interruptDone <==> s.interrupter.Done?)
    && (s.finished <==> s.server.Finish? || s.server.Finished?)
    && (s.server.Finish? ==> s.server.interrupted == s.interrupted)
    && (s.server.Finish? && s.server.stage in {ToWait, ToClear} ==> s.interrupted)
    && (s.server.Finish? && s.server.stage.ToClear? ==> s.interruptDone)
    && (s.server.Finished? && s.interrupted ==> s.interruptDone)
  }

  ghost predicate DeadlineInv(s: State) {
    && (s.deadline ==> s.interrupted)
    && (s.server.Finished? ==> !s.deadline)
    && (s.server.Finish? || s.server.Finished? ==> s.cancelled || (s.server.Finish? && s.server.stage.ToCancel?))
  }

  ghost predicate Inv(s: State) {
    BodyInv(s) && SignalInv(s) && DeadlineInv(s)
  }

  lemma StepKeepsBody(s: State, l: Label)
    requires BodyInv(s) && SignalInv(s)
    ensures BodyInv(Step(s, l))
  {
  }

  lemma StepKeepsSignal(s: State, l: Label)
    requires SignalInv(s)
    ensures SignalInv(Step(s, l))
  {
  }

  lemma StepKeepsDeadline(s: State, l: Label)
    requires SignalInv(s) && DeadlineInv(s)
    ensures DeadlineInv(Step(s, l))
  {
  }

  lemma StepKeepsInv(s: State, l: Label)
    requires Inv(s)
    ensures Inv(Step(s, l))
  {
    StepKeepsBody(s, l);
    StepKeepsSignal(s, l);
    StepKeepsDeadline(s, l);
  }

  lemma {:induction false} RunKeepsInv(labels: seq<Label>)
    ensures Inv(Run(labels))
  {
    if labels != [] {
      RunKeepsInv(labels[..|labels| - 1]);
      StepKeepsInv(Run(labels[..|labels| - 1]), labels[|labels| - 1]);
    }
  }

  // Once finish has returned, the upstream body, if there was one, has been closed exactly once,
  // the request is cancelled and no write deadline is left behind, whatever the interleaving.
  lemma FinishedIsClean(labels: seq<Label>)
    requires Run(labels).server.Finished?
    ensures var s := Run(labels);
            s.body.closes == (if s.body.received then 1 else 0) && s.cancelled && !s.deadline && !s.attached
  {
    RunKeepsInv(labels);
  }

  // The body is never closed twice, at any moment.
  lemma ClosedAtMostOnce(labels: seq<Label>)
    ensures Run(labels).body.closes <= 1
  {
    RunKeepsInv(labels);
  }

  // Nothing touches the connection or the body after finish has returned.
  lemma {:induction false} FinishedIsFinal(labels: seq<Label>, more: seq<Label>)
    requires Run(labels).server.Finished?
    ensures Run(labels + more) == Run(labels)
  {
    RunKeepsInv(labels);
    if more == [] {
      assert labels + more == labels;
    } else {
      var rest := more[..|more| - 1];
      assert (labels + more)[..|labels + more| - 1] == labels + rest;
      FinishedIsFinal(labels, rest);
    }
  }

  // ----- finish does not wait forever -----

  // How many more steps the interrupting goroutine needs.
  function Remaining(s: State): nat {
    if !s.interrupter.Interrupting? then 0
    else if s.interrupter.stage.CancelNext? then 4
    else if s.interrupter.stage.DeadlineNext? then 3
    else if s.interrupter.stage.CloseNext? then 2
    else 1
  }

  // While finish waits, the interrupting goroutine is on its way to the signal: each of its own
  // steps is possible and brings the signal closer, nobody else delays it, and with none left the
  // signal has been given.
  lemma WaitIsBounded(labels: seq<Label>, l: Label)
    requires Run(labels).server.Finish? && Run(labels).server.stage.ToWait?
    ensures var s := Run(labels);
            && (Remaining(s) == 0 <==> Enabled(s, AdvanceFinish))
            && (Remaining(s) > 0 ==>
                  Enabled(s, AdvanceInterrupt) && Remaining(Step(s, AdvanceInterrupt)) == Remaining(s) - 1)
            && Remaining(Step(s, l)) <= Remaining(s) <= 4
  {
    RunKeepsInv(labels);
  }

  // The next n steps of the interrupting goroutine.
  function Advance(s: State, n: nat): State
    decreases n
  {
    if n == 0 then s else Advance(Step(s, AdvanceInterrupt), n - 1)
  }

  lemma InterruptAdvances(s: State)
    requires Remaining(s) > 0
    ensures Remaining(Step(s, AdvanceInterrupt)) == Remaining(s) - 1
    ensures Step(s, AdvanceInterrupt).server == s.server
  {
  }

  lemma {:induction false} SignalComes(s: State)
    requires Inv(s) && s.interrupted
    ensures var t := Advance(s, Remaining(s)); Inv(t) && t.server == s.server && t.interruptDone
    decreases Remaining(s)
  {
    if Remaining(s) > 0 {
      InterruptAdvances(s);
      StepKeepsInv(s, AdvanceInterrupt);
      SignalComes(Step(s, AdvanceInterrupt));
    }
  }

  // Letting the interrupting goroutine run is enough for finish to return.
  lemma FinishReturns(labels: seq<Label>)
    requires Run(labels).server.Finish? && Run(labels).server.stage.ToWait?
    ensures var s := Run(labels);
            Step(Step(Advance(s, Remaining(s)), AdvanceFinish), AdvanceFinish).server.Finished?
  {
    RunKeepsInv(labels);
    SignalComes(Run(labels));
  }

  // ----- what an interrupt does -----

  ghost predicate EffectInv(s: State) {
    && (s.interrupter.Interrupting? && !s.interrupter.stage.CancelNext? ==> s.cancelled)
    && (s.interrupter.Interrupting? && s.interrupter.stage in {CloseNext, SignalNext} ==> s.deadline)
    && (s.interrupter.Interrupting? && s.attached ==> s.interrupter.body)
    && (s.interrupter.Interrupting? && s.interrupter.body && s.interrupter.stage.SignalNext? ==> s.body.once)
    && (s.interrupter.Done? ==> s.cancelled && (s.attached ==> s.body.once) && (!s.server.Finished? ==> s.deadline))
  }

  lemma StepKeepsEffect(s: State, l: Label)
    requires SignalInv(s) && EffectInv(s)
    ensures EffectInv(Step(s, l))
  {
  }

  lemma {:induction false} RunKeepsEffect(labels: seq<Label>)
    ensures EffectInv(Run(labels))
  {
    if labels != [] {
      var rest := labels[..|labels| - 1];
      RunKeepsInv(rest);
      RunKeepsEffect(rest);
      StepKeepsEffect(Run(rest), labels[|labels| - 1]);
    }
  }

  // Once an interrupt has gone through, the request is cancelled, a body that is attached is closed,
  // and until finish has returned nothing more can be written.
  lemma InterruptTakesEffect(labels: seq<Label>)
    requires Run(labels).interruptDone
    ensures var s := Run(labels);
            s.cancelled && (s.attached ==> s.body.closes == 1) && (!s.server.Finished? ==> s.deadline)
  {
    RunKeepsInv(labels);
    RunKeepsEffect(labels);
  }

  // Finish was entered.
  ghost predicate FinishCalled(labels: seq<Label>) {
    labels != [] &&
    var rest, l := labels[..|labels| - 1], labels[|labels| - 1];
    FinishCalled(rest) || (l.EnterFinish? && Run(rest).server.Serving?)
  }

  // Interrupt was called before that.
  ghost predicate InterruptCalled(labels: seq<Label>) {
    labels != [] &&
    var rest, l := labels[..|labels| - 1], labels[|labels| - 1];
    InterruptCalled(rest) || (l.Interrupt? && !FinishCalled(rest))
  }

  lemma FinishKeepsCalls(s: State)
    requires s.server.Finish?
    ensures FinishStep(s).finished == s.finished && FinishStep(s).interrupted == s.interrupted
  {
  }

  lemma AdvanceKeepsCalls(s: State)
    requires s.interrupter.Interrupting?
    ensures AdvanceInterruptStep(s).finished == s.finished && AdvanceInterruptStep(s).interrupted == s.interrupted
  {
  }

  lemma StepNotesCalls(s: State, l: Label)
    ensures Step(s, l).finished == (s.finished || (l.EnterFinish? && s.server.Serving?))
    ensures Step(s, l).interrupted == (s.interrupted || (l.Interrupt? && !s.finished))
  {
    if Enabled(s, l) {
      match l
      case AdvanceFinish => FinishKeepsCalls(s);
      case AdvanceInterrupt => AdvanceKeepsCalls(s);
      case _ =>
    }
  }

  lemma {:induction false} CallsAreNoted(labels: seq<Label>)
    ensures Run(labels).finished <==> FinishCalled(labels)
    ensures Run(labels).interrupted <==> InterruptCalled(labels)
  {
    if labels != [] {
      var rest, l := labels[..|labels| - 1], labels[|labels| - 1];
      CallsAreNoted(rest);
      StepNotesCalls(Run(rest), l);
    }
  }

  lemma RunMore(labels: seq<Label>, l: Label)
    ensures Run(labels + [l]) == Step(Run(labels), l)
  {
    assert (labels + [l])[..|labels|] == labels;
  }

  // The upstream answered with a body.
  ghost predicate Answered(labels: seq<Label>) {
    labels != [] &&
    var rest, l := labels[..|labels| - 1], labels[|labels| - 1];
    Answered(rest) || (l == Open(true) && Run(rest).server.Opening?)
  }

  lemma FinishKeepsReceived(s: State)
    requires s.server.Finish?
    ensures FinishStep(s).body.received == s.body.received
  {
    match s.server.stage
    case ToCancel =>
    case ToClose => if s.server.body { CloseKeepsReceived(s.body); }
    case ToWait =>
    case ToClear =>
  }

  lemma AdvanceKeepsReceived(s: State)
    requires s.interrupter.Interrupting?
    ensures AdvanceInterruptStep(s).body.received == s.body.received
  {
    match s.interrupter.stage
    case CancelNext =>
    case DeadlineNext =>
    case CloseNext => if s.interrupter.body { CloseKeepsReceived(s.body); }
    case SignalNext =>
  }

  lemma CloseKeepsReceived(b: Body)
    ensures CloseOnce(b).received == b.received
  {
  }

  lemma StepReceives(s: State, l: Label)
    ensures Step(s, l).body.received == (s.body.received || (l == Open(true) && s.server.Opening?))
  {
    if Enabled(s, l) {
      match l
      case AdvanceFinish => FinishKeepsReceived(s);
      case AdvanceInterrupt => AdvanceKeepsReceived(s);
      case _ =>
    }
  }

  lemma {:induction false} ReceivedExactly(labels: seq<Label>)
    ensures Run(labels).body.received <==> Answered(labels)
  {
    if labels != [] {
      var rest, l := labels[..|labels| - 1], labels[|labels| - 1];
      ReceivedExactly(rest);
      StepReceives(Run(rest), l);
    }
  }

  // A body that arrives is attached unless the transfer was interrupted before; then it is closed.
  lemma AttachedExactly(labels: seq<Label>)
    requires Run(labels).server.Opened?
    ensures Run(labels + [Attach]).attached <==> !InterruptCalled(labels)
    ensures InterruptCalled(labels) ==> Run(labels + [Attach] + [CloseRefused]).body.closes == 1
  {
    RunKeepsInv(labels);
    CallsAreNoted(labels);
    RunMore(labels, Attach);
    RunMore(labels + [Attach], CloseRefused);
    RunKeepsInv(labels + [Attach] + [CloseRefused]);
  }

  // ----- a transfer ends -----

  function ServerLeft(server: Server): nat {
    match server
    case Opening => 8
    case Opened => 7
    case Refused => 6
    case Serving => 5
    case Finish(_, _, stage) =>
      (match stage case ToCancel => 4 case ToClose => 3 case ToWait => 2 case ToClear => 1)
    case Finished => 0
  }

  // The next step of the transfer's own goroutine, or of the interrupting one that it waits for.
  function NextLabel(s: State, ok: bool): Label
    requires !s.server.Finished?
  {
    match s.server
    case Opening => Open(ok)
    case Opened => Attach
    case Refused => CloseRefused
    case Serving => EnterFinish
    case Finish(_, _, stage) => if stage.ToWait? && !s.interruptDone then AdvanceInterrupt else AdvanceFinish
  }

  lemma NextProceeds(s: State, ok: bool)
    requires Inv(s) && !s.server.Finished?
    ensures var (l, t) := (NextLabel(s, ok), Step(s, NextLabel(s, ok)));
      Enabled(s, l) && ServerLeft(t.server) + Remaining(t) < ServerLeft(s.server) + Remaining(s)
  {
  }

  // From every reachable state the transfer ends by its own steps, and the interrupting goroutine's.
  lemma {:induction false} TransferEnds(labels: seq<Label>, ok: bool) returns (more: seq<Label>)
    ensures forall l :: l in more ==> !l.Interrupt?
    ensures Run(labels + more).server.Finished?
    decreases ServerLeft(Run(labels).server) + Remaining(Run(labels))
  {
    var s := Run(labels);
    if s.server.Finished? {
      more := [];
      assert labels + more == labels;
    } else {
      RunKeepsInv(labels);
      NextProceeds(s, ok);
      RunMore(labels, NextLabel(s, ok));
      var rest := TransferEnds(labels + [NextLabel(s, ok)], ok);
      more := [NextLabel(s, ok)] + rest;
      assert labels + more == labels + [NextLabel(s, ok)] + rest;
    }
  }

  // ----- the transfer object -----

  class ActiveTransfer {
    var interrupted: bool
    var finished: bool
    var attached: bool
    var interruptDone: bool
    var cancelled: bool
    var deadline: bool
    var body: Body
    var server: Server
    var interrupter: Interrupter

    ghost function View(): State
      reads this
    {
      State(interrupted, finished, attached, interruptDone, cancelled, deadline, body, server, interrupter)
    }

    constructor ()
      ensures View() == INITIAL
    {
      interrupted, finished, attached, interruptDone, cancelled := false, false, false, false, false;
      deadline, body, server, interrupter := false, Body(false, false, 0), Opening, Idle;
    }

    method CloseTracked()
      modifies this`body
      ensures View() == CloseBody(old(View()))
    {
      if !body.once {
        body := body.(once := true, closes := body.closes + 1);
      }
    }

    method AttachBody() returns (ok: bool)
      requires server.Opened?
      modifies this
      ensures View() == if ok then Step(old(View()), Attach) else Step(Step(old(View()), Attach), CloseRefused)
      ensures ok <==> !old(interrupted) && !old(finished)
    {
      if interrupted || finished {
        server := Refused;
        ghost var refused := View();
        assert refused == Step(old(View()), Attach);
        CloseTracked();
        server := Serving;
        assert View() == Step(refused, CloseRefused);
        return false;
      }
      attached := true;
      server := Serving;
      return true;
    }

    // The critical section of interrupt.
    method BeginInterrupt() returns (first: bool)
      modifies this
      ensures View() == Step(old(View()), Interrupt)
      ensures first <==> !old(interrupted) && !old(finished)
    {
      if interrupted || finished {
        return false;
      }
      interrupted := true;
      interrupter := Interrupting(attached, CancelNext);
      return true;
    }

    method ContinueInterrupt()
      requires interrupter.Interrupting?
      modifies this
      ensures View() == Step(old(View()), AdvanceInterrupt)
    {
      var seen := interrupter.body;
      match interrupter.stage {
        case CancelNext =>
          cancelled := true;
          interrupter := Interrupting(seen, DeadlineNext);
        case DeadlineNext =>
          deadline := true;
          interrupter := Interrupting(seen, CloseNext);
        case CloseNext =>
          if seen {
            CloseTracked();
          }
          interrupter := Interrupting(seen, SignalNext);
        case SignalNext =>
          interruptDone := true;
          interrupter := Done;
      }
    }

    // The critical section of finish; a repeated call returns at once.
    method BeginFinish() returns (first: bool)
      requires SignalInv(View()) && (server.Serving? || finished)
      modifies this
      ensures View() == Step(old(View()), EnterFinish)
      ensures first <==> !old(finished)
    {
      if finished {
        return false;
      }
      first := true;
      finished := true;
      server := Finish(attached, interrupted, ToCancel);
      attached := false;
    }

    method ContinueFinish()
      requires server.Finish? && (server.stage.ToWait? ==> interruptDone)
      modifies this
      ensures View() == Step(old(View()), AdvanceFinish)
    {
      var seen, sawInterrupt := server.body, server.interrupted;
      match server.stage {
        case ToCancel =>
          cancelled := true;
          server := Finish(seen, sawInterrupt, ToClose);
        case ToClose =>
          if seen {
            CloseTracked();
          }
          server := if sawInterrupt then Finish(seen, sawInterrupt, ToWait) else Finished;
        case ToWait =>
          server := Finish(seen, sawInterrupt, ToClear);
        case ToClear =>
          deadline := false;
          server := Finished;
      }
    }
  }
}

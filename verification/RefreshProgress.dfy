// That refreshes end: no run waits forever, jobs are left out only where the run was cancelled,
// and none starts cancelled.
module RefreshProgress {
  import opened Sequences
  import opened Refresher
  import opened RefreshLedger

  // ----- no run waits forever -----

  // A step of a run or of one of its jobs; no run begins, and nothing is cancelled.
  predicate IsOwnStep(l: Label) { OfRun(l) && !l.CancelRun? }

  function PhaseLeft(phase: Phase): nat {
    match phase
    case Acquiring => 6
    case HasBackground => 5
    case Checking => 4
    case Granted => 3
    case Refusing => 3
    case RefusingBackground => 2
    case Draining => 1
    case Returned => 0
  }

  // A bound on the own steps that a run has left.
  function Left(r: RunState): nat {
    (if r.index < r.total then 10 * (r.total - r.index) else 0) +
    PhaseLeft(r.phase) + 3 * r.running + 2 * r.judged + r.releasing
  }

  lemma OwnStepProceeds(s: State, r: RunState, l: Label)
    requires IsOwnStep(l) && RunEnabled(s, r, l) && RunInv(r)
    ensures Left(RunStep(s, r, l)) < Left(r)
  {
  }

  lemma RunsProceed(s: State, l: Label)
    requires IsOwnStep(l) && Enabled(s, l) && Inv(s)
    ensures Sum(Step(s, l).runs, Left) < Sum(s.runs, Left)
  {
    OwnStepProceeds(s, s.runs[l.run], l);
    SumUpdate(s.runs, Left, l.run, RunStep(s, s.runs[l.run], l));
  }

  // The run waits for a token: it has no job that runs, and nothing to give back.
  predicate Waits(r: RunState) {
    (r.phase.Acquiring? || r.phase.HasBackground?) && r.running == r.judged == r.releasing == 0
  }

  predicate Idle(r: RunState) { r.phase.Returned? || Waits(r) }

  // A run that neither waits nor has returned can take a step on its own.
  lemma BusyProceeds(s: State, i: nat, ok: bool) returns (l: Label)
    requires i < |s.runs| && !Idle(s.runs[i]) && RunInv(s.runs[i])
    ensures IsOwnStep(l) && Enabled(s, l)
  {
    var r := s.runs[i];
    if r.running > 0 { return Finish(i, ok); }
    if r.judged > 0 { return ReleaseSlot(i); }
    if r.releasing > 0 { return ReleaseBackground(i); }
    l := match r.phase
      case Checking => Check(i)
      case Granted => Launch(i)
      case Refusing => RefuseSlot(i)
      case RefusingBackground => RefuseBackground(i)
      case _ => Return(i);
  }

  // If all who have not returned wait, no slot is taken, and a background token is free unless
  // one of them holds it.
  lemma WaitersProceed(s: State, i: nat) returns (l: Label)
    requires Inv(s) && i < |s.runs| && Waits(s.runs[i])
    requires forall k :: 0 <= k < |s.runs| ==> Idle(s.runs[k])
    ensures IsOwnStep(l) && Enabled(s, l)
  {
    SumZero(s.runs, SlotsHeld);
    if !s.runs[i].background || s.runs[i].phase.HasBackground? {
      l := TakeSlot(i);
    } else if k :| 0 <= k < |s.runs| && s.runs[k].phase.HasBackground? {
      l := TakeSlot(k);
    } else {
      SumZero(s.runs, BackgroundHeld);
      l := TakeBackground(i);
    }
  }

  // While a run has not returned, some run can take a step.
  lemma NoDeadlock(s: State, ok: bool) returns (l: Label)
    requires Inv(s) && exists i :: 0 <= i < |s.runs| && !s.runs[i].phase.Returned?
    ensures IsOwnStep(l) && Enabled(s, l)
  {
    if k :| 0 <= k < |s.runs| && !Idle(s.runs[k]) {
      l := BusyProceeds(s, k, ok);
    } else {
      var i :| 0 <= i < |s.runs| && !s.runs[i].phase.Returned?;
      l := WaitersProceed(s, i);
    }
  }

  predicate AllReturned(s: State) { forall i :: 0 <= i < |s.runs| ==> s.runs[i].phase.Returned? }

  lemma RunMore(limit: int, labels: seq<Label>, l: Label)
    ensures Run(limit, labels + [l]) == Step(Run(limit, labels), l)
  {
    assert (labels + [l])[..|labels|] == labels;
  }

  lemma Joined(labels: seq<Label>, l: Label, rest: seq<Label>) returns (more: seq<Label>)
    requires IsOwnStep(l) && forall k :: k in rest ==> IsOwnStep(k)
    ensures labels + more == labels + [l] + rest && forall k :: k in more ==> IsOwnStep(k)
  {
    more := [l] + rest;
    assert labels + more == labels + [l] + rest;
  }

  // From every reachable state the runs return by steps of their own, whatever their jobs answer.
  lemma {:induction false} RunsReturn(limit: int, labels: seq<Label>, ok: bool) returns (more: seq<Label>)
    ensures forall l :: l in more ==> IsOwnStep(l)
    ensures AllReturned(Run(limit, labels + more))
    decreases Sum(Run(limit, labels).runs, Left)
  {
    RunKeepsInv(limit, labels);
    if AllReturned(Run(limit, labels)) {
      more := [];
      assert labels + more == labels;
    } else {
      var l := NoDeadlock(Run(limit, labels), ok);
      RunMore(limit, labels, l);
      RunsProceed(Run(limit, labels), l);
      var rest := RunsReturn(limit, labels + [l], ok);
      more := Joined(labels, l, rest);
    }
  }

  lemma {:induction false} CancelledSince(limit: int, labels: seq<Label>)
    ensures Run(limit, labels).cancelled <==> CancelAll in labels
  {
    if labels != [] {
      var rest, l := labels[..|labels| - 1], labels[|labels| - 1];
      CancelledSince(limit, rest);
      assert labels == rest + [l];
    }
  }

  // Close returns as soon as every run has.
  lemma CloseReturns(limit: int, labels: seq<Label>)
    requires CloseDoor in labels && CancelAll in labels && AllReturned(Run(limit, labels))
    ensures Run(limit, labels + [CloseReturn]).closeReturned
  {
    ClosedSince(limit, labels);
    CancelledSince(limit, labels);
    RunMore(limit, labels, CloseReturn);
  }

  // ----- what a run was told -----

  function Cancels(run: nat): Label -> bool { (l: Label) => l == CancelRun(run) }

  // The run's own context ended, or the refresher's did.
  ghost predicate StopCalled(limit: int, labels: seq<Label>, i: nat) {
    CancelAll in labels || Executed(limit, labels, Cancels(i)) > 0
  }

  predicate RunCancelled(s: State, i: nat)
    requires i < |s.runs|
  {
    s.cancelled || s.runs[i].cancelled
  }

  lemma CancelStep(s: State, l: Label, i: nat)
    requires i < |s.runs|
    ensures i < |Step(s, l).runs|
    ensures Step(s, l).runs[i].cancelled <==> s.runs[i].cancelled || l == CancelRun(i)
  {
    StepRuns(s, l, i);
  }

  lemma {:induction false} RunCancelledSince(limit: int, labels: seq<Label>, i: nat)
    ensures var s := Run(limit, labels);
      if i < |s.runs| then s.runs[i].cancelled <==> Executed(limit, labels, Cancels(i)) > 0
      else Executed(limit, labels, Cancels(i)) == 0
  {
    if labels != [] {
      var rest, l := labels[..|labels| - 1], labels[|labels| - 1];
      RunCancelledSince(limit, rest, i);
      if i < |Run(limit, rest).runs| { CancelStep(Run(limit, rest), l, i); }
    }
  }

  lemma CancelledExactly(limit: int, labels: seq<Label>, i: nat)
    requires i < |Run(limit, labels).runs|
    ensures RunCancelled(Run(limit, labels), i) <==> StopCalled(limit, labels, i)
  {
    CancelledSince(limit, labels);
    RunCancelledSince(limit, labels, i);
  }

  // A run that waits for a token need not, once its context has ended: it gives up, and gives back
  // the background token that it holds.
  lemma CancelledGivesUp(limit: int, labels: seq<Label>, i: nat)
    requires var s := Run(limit, labels);
      i < |s.runs| && (s.runs[i].phase.Acquiring? || s.runs[i].phase.HasBackground?)
    ensures var (s, t) := (Run(limit, labels), Step(Run(limit, labels), GiveUp(i)));
      if Executed(limit, labels, Cancels(i)) == 0 then t == s
      else t.runs[i].phase == if s.runs[i].phase.HasBackground? then RefusingBackground else Draining
  {
    RunCancelledSince(limit, labels, i);
  }

  // ----- jobs are left out only where the run was cancelled -----

  // What a run looks like that was not told to stop: it has not been refused anything, and is
  // done with dispatching only after its last job.
  predicate Unhindered(r: RunState) {
    && !r.phase.Refusing? && !r.phase.RefusingBackground?
    && (r.phase.Draining? || r.phase.Returned? ==> r.index >= r.total)
  }

  ghost predicate HinderedOnlyIfTold(s: State, i: nat, order: Order)
    requires i < |s.runs|
  {
    order.refused || RunCancelled(s, i) || Unhindered(s.runs[i])
  }

  lemma HinderedNext(s: State, l: Label, i: nat, order: Order)
    requires i < |s.runs| && HinderedOnlyIfTold(s, i, order)
    ensures i < |Step(s, l).runs| && HinderedOnlyIfTold(Step(s, l), i, order)
  {
    StepRuns(s, l, i);
  }

  lemma {:induction false} OnlyIfTold(limit: int, labels: seq<Label>, i: nat)
    requires i < |Run(limit, labels).runs|
    ensures i < |Orders(limit, labels)|
    ensures HinderedOnlyIfTold(Run(limit, labels), i, Orders(limit, labels)[i])
  {
    var rest, l := labels[..|labels| - 1], labels[|labels| - 1];
    RunAsOrdered(limit, labels);
    RunAsOrdered(limit, rest);
    ClosedSince(limit, rest);
    if i < |Run(limit, rest).runs| {
      OnlyIfTold(limit, rest, i);
      HinderedNext(Run(limit, rest), l, i, Orders(limit, rest)[i]);
    }
  }

  // A refresh that was neither refused nor cancelled starts all its jobs.
  lemma UncancelledRunsAll(limit: int, labels: seq<Label>, i: nat)
    requires i < |Run(limit, labels).runs| && Run(limit, labels).runs[i].phase.Returned?
    requires i < |Orders(limit, labels)| && !Orders(limit, labels)[i].refused && !StopCalled(limit, labels, i)
    ensures Executed(limit, labels, Launches(i)) == Orders(limit, labels)[i].jobs
  {
    ResultsExactly(limit, labels, i);
    CancelledExactly(limit, labels, i);
    OnlyIfTold(limit, labels, i);
    RunRecorded(limit, labels);
    assert Recorded(limit, labels, Run(limit, labels).runs[i], i);
  }

  // ----- no job starts cancelled -----

  // The run is cancelled, and no job of its has passed the last check of acquire and not started.
  predicate Stopped(s: State, i: nat)
    requires i < |s.runs|
  {
    RunCancelled(s, i) && !s.runs[i].phase.Granted?
  }

  lemma StoppedNext(s: State, l: Label, i: nat)
    requires i < |s.runs| && Stopped(s, i)
    ensures i < |Step(s, l).runs| && Stopped(Step(s, l), i) && !(Enabled(s, l) && l == Launch(i))
  {
    StepRuns(s, l, i);
  }

  lemma {:induction false} StoppedSince(limit: int, labels: seq<Label>, more: seq<Label>, i: nat)
    requires i < |Run(limit, labels).runs| && Stopped(Run(limit, labels), i)
    ensures i < |Run(limit, labels + more).runs| && Stopped(Run(limit, labels + more), i)
    ensures Executed(limit, labels + more, Launches(i)) == Executed(limit, labels, Launches(i))
  {
    if more == [] {
      assert labels + more == labels;
    } else {
      var rest, l := more[..|more| - 1], more[|more| - 1];
      assert labels + more == (labels + rest) + [l];
      StoppedSince(limit, labels, rest, i);
      StoppedNext(Run(limit, labels + rest), l, i);
      RunMore(limit, labels + rest, l);
      EntriesNext(limit, labels + rest, l, i);
    }
  }

  // Once its context or the refresher's has ended, no job of a run starts any more, but for one
  // that had passed the last check before.
  lemma NoneStartsCancelled(limit: int, labels: seq<Label>, more: seq<Label>, i: nat)
    requires i < |Run(limit, labels).runs| && StopCalled(limit, labels, i)
    requires !Run(limit, labels).runs[i].phase.Granted?
    ensures Executed(limit, labels + more, Launches(i)) == Executed(limit, labels, Launches(i))
  {
    CancelledExactly(limit, labels, i);
    StoppedSince(limit, labels, more, i);
  }
}

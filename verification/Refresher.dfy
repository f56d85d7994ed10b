// The refresh scheduler: runs share a fixed number of slots, and background runs first take one
// of one fewer background tokens, so that a slot is always left for the user.
module Refresher {
  import opened Sequences

  // Where a run's dispatching loop stands. Refusing and RefusingBackground give back what a
  // failed acquire had taken, in two steps.
  datatype Phase = Acquiring | HasBackground | Checking | Granted | Refusing | RefusingBackground | Draining | Returned

  // index jobs were launched: running ones still execute, judged ones have returned but hold their
  // slot, releasing ones hold only their background token.
  datatype RunState = RunState(
    background: bool,
    total: nat,
    index: nat,
    failed: nat,
    succeeded: nat,
    running: nat,
    judged: nat,
    releasing: nat,
    cancelled: bool,
    phase: Phase)

  datatype State = State(
    limit: nat,
    slots: nat,
    background: nat,
    closed: bool,
    cancelled: bool,
    closeReturned: bool,
    runs: seq<RunState>)

  datatype Label =
    | Start(inBackground: bool, jobs: nat)
    | TakeBackground(run: nat)
    | TakeSlot(run: nat)
    | GiveUp(run: nat)
    | Check(run: nat)
    | Launch(run: nat)
    | Finish(run: nat, ok: bool)
    | ReleaseSlot(run: nat)
    | ReleaseBackground(run: nat)
    | RefuseSlot(run: nat)
    | RefuseBackground(run: nat)
    | Return(run: nat)
    | CancelRun(run: nat)
    | CancelAll
    | CloseDoor
    | CloseReturn

  function Initial(limit: int): State {
    State(if limit < 2 then 2 else limit, 0, 0, false, false, false, [])
  }

  // ----- the atomic steps -----

  function NewRun(closed: bool, background: bool, jobs: nat): RunState {
    if closed then RunState(background, jobs, 0, jobs, 0, 0, 0, 0, false, Returned)
    else RunState(background, jobs, 0, 0, 0, 0, 0, 0, false, if jobs == 0 then Draining else Acquiring)
  }

  function AfterLaunch(r: RunState): RunState {
    r.(running := r.running + 1, index := r.index + 1,
       phase := if r.index + 1 >= r.total then Draining else Acquiring)
  }

  predicate OfRun(l: Label) {
    !l.Start? && !l.CancelAll? && !l.CloseDoor? && !l.CloseReturn?
  }

  predicate Enabled(s: State, l: Label) {
    if OfRun(l) then
      l.run < |s.runs| && RunEnabled(s, s.runs[l.run], l)
    else
      l.CloseReturn? ==> s.closed && s.cancelled && forall i :: 0 <= i < |s.runs| ==> s.runs[i].phase.Returned?
  }

  predicate RunEnabled(s: State, r: RunState, l: Label)
    requires OfRun(l)
  {
    match l
    case TakeBackground(_) => r.phase.Acquiring? && r.background && s.background < s.limit - 1
    case TakeSlot(_) => (r.phase.HasBackground? || (r.phase.Acquiring? && !r.background)) && s.slots < s.limit
    case GiveUp(_) => (r.phase.Acquiring? || r.phase.HasBackground?) && r.cancelled
    case Check(_) => r.phase.Checking?
    case Launch(_) => r.phase.Granted?
    case Finish(_, _) => r.running > 0
    case ReleaseSlot(_) => r.judged > 0
    case ReleaseBackground(_) => r.releasing > 0
    case RefuseSlot(_) => r.phase.Refusing?
    case RefuseBackground(_) => r.phase.RefusingBackground?
    case Return(_) => r.phase.Draining? && r.running == 0 && r.judged == 0 && r.releasing == 0
    case CancelRun(_) => true
  }

  function RunStep(s: State, r: RunState, l: Label): RunState
    requires OfRun(l) && RunEnabled(s, r, l)
  {
    match l
    case TakeBackground(_) => r.(phase := HasBackground)
    case TakeSlot(_) => r.(phase := Checking)
    case GiveUp(_) => r.(phase := if r.phase.HasBackground? then RefusingBackground else Draining)
    case Check(_) => r.(phase := if r.cancelled || s.cancelled then Refusing else Granted)
    case Launch(_) => AfterLaunch(r)
    case Finish(_, ok) =>
      r.(running := r.running - 1, judged := r.judged + 1,
         failed := if ok then r.failed else r.failed + 1,
         succeeded := if ok then r.succeeded + 1 else r.succeeded)
    case ReleaseSlot(_) =>
      r.(judged := r.judged - 1, releasing := if r.background then r.releasing + 1 else r.releasing)
    case ReleaseBackground(_) => r.(releasing := r.releasing - 1)
    case RefuseSlot(_) => r.(phase := if r.background then RefusingBackground else Draining)
    case RefuseBackground(_) => r.(phase := Draining)
    case Return(_) => r.(failed := r.failed + (if r.index < r.total then r.total - r.index else 0), phase := Returned)
    case CancelRun(_) => r.(cancelled := true)
  }

  function SlotsAfter(s: State, l: Label): nat {
    if l.TakeSlot? then s.slots + 1
    else if (l.ReleaseSlot? || l.RefuseSlot?) && s.slots > 0 then s.slots - 1
    else s.slots
  }

  function BackgroundAfter(s: State, l: Label): nat {
    if l.TakeBackground? then s.background + 1
    else if (l.ReleaseBackground? || l.RefuseBackground?) && s.background > 0 then s.background - 1
    else s.background
  }

  function Step(s: State, l: Label): State {
    if !Enabled(s, l) then s
    else if OfRun(l) then
      s.(runs := s.runs[l.run := RunStep(s, s.runs[l.run], l)], slots := SlotsAfter(s, l),
         background := BackgroundAfter(s, l))
    else match l
    case Start(inBackground, jobs) => s.(runs := s.runs + [NewRun(s.closed, inBackground, jobs)])
    case CancelAll => s.(cancelled := true)
    case CloseDoor => s.(closed := true)
    case _ => s.(closeReturned := true)
  }

  function Run(limit: int, labels: seq<Label>): State {
    if labels == [] then Initial(limit) else Step(Run(limit, labels[..|labels| - 1]), labels[|labels| - 1])
  }

  // ----- the invariant -----

  function SlotsHeld(r: RunState): nat {
    r.running + r.judged + (if r.phase in {Checking, Granted, Refusing} then 1 else 0)
  }

  function BackgroundHeld(r: RunState): nat {
    if !r.background then 0
    else r.running + r.judged + r.releasing +
         (if r.phase in {HasBackground, Checking, Granted, Refusing, RefusingBackground} then 1 else 0)
  }

  function SlotsHeldInBackground(r: RunState): nat {
    if r.background then SlotsHeld(r) else 0
  }

  function SlotsHeldByUser(r: RunState): nat {
    if r.background then 0 else SlotsHeld(r)
  }

  function JobsRunning(r: RunState): nat { r.running }

  ghost predicate RunInv(r: RunState) {
    && r.index <= r.total
    && (r.phase in {Acquiring, HasBackground, Checking, Granted, Refusing, RefusingBackground} ==> r.index < r.total)
    && (r.phase in {HasBackground, RefusingBackground} ==> r.background)
    && (!r.background ==> r.releasing == 0)
    && (!r.phase.Returned? ==> r.failed + r.succeeded + r.running == r.index)
    && (r.phase.Returned? ==> r.running == 0 && r.judged == 0 && r.releasing == 0 && r.failed + r.succeeded == r.total)
  }

  ghost predicate Inv(s: State) {
    && s.limit >= 2
    && s.slots == Sum(s.runs, SlotsHeld) <= s.limit
    && s.background == Sum(s.runs, BackgroundHeld) <= s.limit - 1
    && (forall i :: 0 <= i < |s.runs| ==> RunInv(s.runs[i]))
    && (s.closeReturned ==> s.closed && forall i :: 0 <= i < |s.runs| ==> s.runs[i].phase.Returned?)
  }

  lemma StepKeepsInv(s: State, l: Label)
    requires Inv(s)
    ensures Inv(Step(s, l))
  {
    if Enabled(s, l) {
      if OfRun(l) {
        RunStepKeepsInv(s, l);
      } else if l.Start? {
        StartKeepsInv(s, NewRun(s.closed, l.inBackground, l.jobs));
      }
    }
  }

  lemma StartKeepsInv(s: State, r: RunState)
    requires Inv(s) && RunInv(r) && SlotsHeld(r) == BackgroundHeld(r) == 0 && (s.closed ==> r.phase.Returned?)
    ensures Inv(s.(runs := s.runs + [r]))
  {
    SumAppend(s.runs, SlotsHeld, r);
    SumAppend(s.runs, BackgroundHeld, r);
  }

  lemma RunStepKeepsInv(s: State, l: Label)
    requires Inv(s) && OfRun(l) && Enabled(s, l)
    ensures Inv(Step(s, l))
  {
    var r := s.runs[l.run];
    SumCovers(s.runs, SlotsHeld, l.run);
    SumCovers(s.runs, BackgroundHeld, l.run);
    TokensFollowRun(s, r, l);
    ReplaceRun(s, l.run, RunStep(s, r, l), SlotsAfter(s, l), BackgroundAfter(s, l));
  }

  lemma ReplaceRun(s: State, i: nat, r: RunState, slots: nat, background: nat)
    requires Inv(s) && i < |s.runs| && RunInv(r) && (s.runs[i].phase.Returned? ==> r.phase.Returned?)
    requires SlotsHeld(r) - SlotsHeld(s.runs[i]) == slots - s.slots && slots <= s.limit
    requires BackgroundHeld(r) - BackgroundHeld(s.runs[i]) == background - s.background && background <= s.limit - 1
    ensures Inv(s.(runs := s.runs[i := r], slots := slots, background := background))
  {
    SumUpdate(s.runs, SlotsHeld, i, r);
    SumUpdate(s.runs, BackgroundHeld, i, r);
  }

  // A run's step changes what it holds exactly as it changes the channels.
  lemma TokensFollowRun(s: State, r: RunState, l: Label)
    requires OfRun(l) && RunEnabled(s, r, l) && RunInv(r)
    requires SlotsHeld(r) <= s.slots <= s.limit && BackgroundHeld(r) <= s.background <= s.limit - 1
    ensures RunInv(RunStep(s, r, l))
    ensures r.phase.Returned? ==> RunStep(s, r, l).phase.Returned?
    ensures SlotsHeld(RunStep(s, r, l)) - SlotsHeld(r) == SlotsAfter(s, l) - s.slots
    ensures BackgroundHeld(RunStep(s, r, l)) - BackgroundHeld(r) == BackgroundAfter(s, l) - s.background
    ensures SlotsAfter(s, l) <= s.limit && BackgroundAfter(s, l) <= s.limit - 1
  {
    RunStaysSound(s, r, l);
    SlotsFollowRun(s, r, l);
    BackgroundFollowsRun(s, r, l);
  }

  lemma RunStaysSound(s: State, r: RunState, l: Label)
    requires OfRun(l) && RunEnabled(s, r, l) && RunInv(r)
    ensures var t := RunStep(s, r, l);
            RunInv(t) && (r.phase.Returned? ==> t.phase.Returned? && t.failed == r.failed && t.total == r.total)
  {
  }

  lemma SlotsFollowRun(s: State, r: RunState, l: Label)
    requires OfRun(l) && RunEnabled(s, r, l) && SlotsHeld(r) <= s.slots <= s.limit
    ensures SlotsHeld(RunStep(s, r, l)) - SlotsHeld(r) == SlotsAfter(s, l) - s.slots
    ensures SlotsAfter(s, l) <= s.limit
  {
  }

  lemma BackgroundFollowsRun(s: State, r: RunState, l: Label)
    requires OfRun(l) && RunEnabled(s, r, l) && RunInv(r) && BackgroundHeld(r) <= s.background <= s.limit - 1
    ensures BackgroundHeld(RunStep(s, r, l)) - BackgroundHeld(r) == BackgroundAfter(s, l) - s.background
    ensures BackgroundAfter(s, l) <= s.limit - 1
  {
  }

  lemma {:induction false} RunKeepsInv(limit: int, labels: seq<Label>)
    ensures Inv(Run(limit, labels))
  {
    if labels != [] {
      RunKeepsInv(limit, labels[..|labels| - 1]);
      StepKeepsInv(Run(limit, labels[..|labels| - 1]), labels[|labels| - 1]);
    }
  }

  // ----- what callers rely on -----

  lemma {:induction false} LimitIsFixed(limit: int, labels: seq<Label>)
    ensures Run(limit, labels).limit == if limit < 2 then 2 else limit
  {
    if labels != [] { LimitIsFixed(limit, labels[..|labels| - 1]); }
  }

  // At most limit jobs run at once across all runs, and background runs hold at most limit - 1
  // of the slots.
  lemma AtMostLimitJobs(limit: int, labels: seq<Label>)
    ensures var s := Run(limit, labels);
            && Sum(s.runs, JobsRunning) <= s.slots <= s.limit
            && Sum(s.runs, SlotsHeldInBackground) <= s.limit - 1
  {
    RunKeepsInv(limit, labels);
    var s := Run(limit, labels);
    SumBelow(s.runs, JobsRunning, SlotsHeld);
    SumBelow(s.runs, SlotsHeldInBackground, BackgroundHeld);
  }

  lemma {:induction false} SumSplits(runs: seq<RunState>)
    ensures Sum(runs, SlotsHeld) == Sum(runs, SlotsHeldInBackground) + Sum(runs, SlotsHeldByUser)
  {
    if runs != [] { SumSplits(runs[1..]); }
  }

  // When every slot is taken, so that a user's job has to wait, another of the user's own jobs
  // holds one: background work alone never makes it wait.
  lemma BackgroundLeavesASlot(limit: int, labels: seq<Label>)
    requires Run(limit, labels).slots == Run(limit, labels).limit
    ensures exists i :: 0 <= i < |Run(limit, labels).runs| &&
              !Run(limit, labels).runs[i].background && SlotsHeld(Run(limit, labels).runs[i]) > 0
  {
    var s := Run(limit, labels);
    RunKeepsInv(limit, labels);
    AtMostLimitJobs(limit, labels);
    SumSplits(s.runs);
    SumZero(s.runs, SlotsHeldByUser);
    var i :| 0 <= i < |s.runs| && SlotsHeldByUser(s.runs[i]) != 0;
  }

  // All tokens are back when no run is active, and every run has accounted for all its jobs.
  lemma EverythingReturned(limit: int, labels: seq<Label>)
    requires forall i :: 0 <= i < |Run(limit, labels).runs| ==> Run(limit, labels).runs[i].phase.Returned?
    ensures Run(limit, labels).slots == 0 && Run(limit, labels).background == 0
  {
    var s := Run(limit, labels);
    RunKeepsInv(limit, labels);
    SumZero(s.runs, SlotsHeld);
    SumZero(s.runs, BackgroundHeld);
  }

  lemma ResultsAddUp(limit: int, labels: seq<Label>, i: nat)
    requires i < |Run(limit, labels).runs| && Run(limit, labels).runs[i].phase.Returned?
    ensures var r := Run(limit, labels).runs[i]; r.failed + r.succeeded == r.total
  {
    RunKeepsInv(limit, labels);
  }

  // Once Close has returned, no job is running, and none ever starts.
  lemma {:induction false} CloseIsFinal(limit: int, labels: seq<Label>, more: seq<Label>)
    requires Run(limit, labels).closeReturned
    ensures var s := Run(limit, labels + more);
            && s.closeReturned
            && Sum(s.runs, JobsRunning) == 0
            && forall i :: |Run(limit, labels).runs| <= i < |s.runs| ==> s.runs[i].failed == s.runs[i].total
    ensures |Run(limit, labels).runs| <= |Run(limit, labels + more).runs|
  {
    RunKeepsInv(limit, labels + more);
    if more == [] {
      assert labels + more == labels;
    } else {
      var rest := more[..|more| - 1];
      assert (labels + more)[..|labels + more| - 1] == labels + rest;
      CloseIsFinal(limit, labels, rest);
      RunKeepsInv(limit, labels + rest);
      ReturnedStays(Run(limit, labels + rest), more[|more| - 1]);
    }
    SumZero(Run(limit, labels + more).runs, JobsRunning);
  }

  lemma ReturnedStays(s: State, l: Label)
    requires forall i :: 0 <= i < |s.runs| ==> RunInv(s.runs[i])
    ensures |s.runs| <= |Step(s, l).runs|
    ensures s.closeReturned ==> Step(s, l).closeReturned
    ensures forall i :: 0 <= i < |s.runs| && s.runs[i].phase.Returned? ==>
              Step(s, l).runs[i].phase.Returned? && Step(s, l).runs[i].failed == s.runs[i].failed
              && Step(s, l).runs[i].total == s.runs[i].total
    ensures s.closed ==>
              forall i :: |s.runs| <= i < |Step(s, l).runs| ==> Step(s, l).runs[i].failed == Step(s, l).runs[i].total
  {
    if Enabled(s, l) && OfRun(l) { RunStaysSound(s, s.runs[l.run], l); }
  }

  // ----- the refresher object -----

  class RefreshScheduler {
    const limit: nat
    const interval: int
    var slots: nat
    var background: nat
    var closed: bool
    var cancelled: bool
    var closeReturned: bool
    var runs: seq<RunState>
    var attempts: map<string, int>

    ghost function View(): State
      reads this
    {
      State(limit, slots, background, closed, cancelled, closeReturned, runs)
    }

    constructor (limit: int, interval: int)
      ensures View() == Initial(limit) && attempts == map[] && this.interval == interval
    {
      this.limit := if limit < 2 then 2 else limit;
      this.interval := interval;
      slots, background, closed, cancelled, closeReturned := 0, 0, false, false, false;
      runs, attempts := [], map[];
    }

    method Attempt(kind: string, force: bool, now: int) returns (granted: bool)
      modifies this`attempts
      ensures granted <==> Grants(old(attempts), interval, Try(kind, force, now))
      ensures attempts == Record(old(attempts), interval, Try(kind, force, now))
    {
      if kind in attempts && !force && now - attempts[kind] < interval {
        return false;
      }
      attempts := attempts[kind := now];
      return true;
    }

    // The head of run: a closed refresher fails every job at once.
    method Begin(inBackground: bool, jobs: nat) returns (run: nat)
      modifies this
      ensures View() == Step(old(View()), Start(inBackground, jobs))
      ensures run == |old(runs)| && run < |runs|
    {
      run := |runs|;
      if closed {
        runs := runs + [RunState(inBackground, jobs, 0, jobs, 0, 0, 0, 0, false, Returned)];
        return;
      }
      var phase := if jobs == 0 then Draining else Acquiring;
      runs := runs + [RunState(inBackground, jobs, 0, 0, 0, 0, 0, 0, false, phase)];
    }

    // One attempt of acquire to get on without blocking; moved is false when it has to wait.
    method Acquire(run: nat) returns (moved: bool)
      requires run < |runs| && (runs[run].phase.Acquiring? || runs[run].phase.HasBackground?)
      requires RunInv(runs[run])
      modifies this
      ensures var background := old(runs[run].phase.Acquiring? && runs[run].background);
              var l := if background then TakeBackground(run) else TakeSlot(run);
              View() == Step(old(View()), l) && (moved <==> Enabled(old(View()), l))
    {
      var r := runs[run];
      if r.phase.Acquiring? && r.background {
        if background < limit - 1 {
          background := background + 1;
          runs := runs[run := r.(phase := HasBackground)];
          return true;
        }
        return false;
      }
      if slots < limit {
        slots := slots + 1;
        runs := runs[run := r.(phase := Checking)];
        return true;
      }
      return false;
    }

    // The last check of acquire: no job starts once a context has ended.
    method CheckContext(run: nat) returns (ok: bool)
      requires run < |runs| && runs[run].phase.Checking?
      modifies this
      ensures View() == Step(old(View()), Check(run))
      ensures ok <==> !old(runs[run].cancelled) && !old(cancelled)
    {
      var r := runs[run];
      ok := !r.cancelled && !cancelled;
      runs := runs[run := r.(phase := if ok then Granted else Refusing)];
    }

    method FinishJob(run: nat, ok: bool)
      requires run < |runs| && runs[run].running > 0
      modifies this
      ensures View() == Step(old(View()), Finish(run, ok))
    {
      var r := runs[run];
      if !ok {
        r := r.(failed := r.failed + 1);
      } else {
        r := r.(succeeded := r.succeeded + 1);
      }
      runs := runs[run := r.(running := r.running - 1, judged := r.judged + 1)];
    }

    method LaunchJob(run: nat)
      requires run < |runs| && runs[run].phase.Granted?
      modifies this
      ensures View() == Step(old(View()), Launch(run))
    {
      var r := runs[run];
      var phase := if r.index + 1 >= r.total then Draining else Acquiring;
      runs := runs[run := r.(running := r.running + 1, index := r.index + 1, phase := phase)];
    }

    // The two halves of release, for a job that has returned.
    method ReleaseSlotOf(run: nat)
      requires run < |runs| && runs[run].judged > 0 && slots > 0
      modifies this
      ensures View() == Step(old(View()), ReleaseSlot(run))
    {
      var r := runs[run];
      slots := slots - 1;
      var releasing := if r.background then r.releasing + 1 else r.releasing;
      runs := runs[run := r.(judged := r.judged - 1, releasing := releasing)];
    }

    method ReleaseBackgroundOf(run: nat)
      requires run < |runs| && runs[run].releasing > 0 && background > 0
      modifies this
      ensures View() == Step(old(View()), ReleaseBackground(run))
    {
      background := background - 1;
      runs := runs[run := runs[run].(releasing := runs[run].releasing - 1)];
    }

    // The end of run: jobs that never started count as failed.
    method ReturnResult(run: nat) returns (total: nat, failed: nat)
      requires run < |runs| && Enabled(View(), Return(run))
      modifies this
      ensures View() == Step(old(View()), Return(run))
      ensures total == runs[run].total && failed == runs[run].failed
    {
      var r := runs[run];
      if r.index < r.total {
        r := r.(failed := r.failed + (r.total - r.index));
      }
      runs := runs[run := r.(phase := Returned)];
      return r.total, r.failed;
    }

    // Close up to its wait.
    method Close()
      modifies this
      ensures View() == Step(Step(old(View()), CloseDoor), CancelAll)
    {
      closed := true;
      cancelled := true;
    }

    // The wait of Close, in one look: it is over when every run has returned.
    method AwaitRuns() returns (done: bool)
      requires closed && cancelled
      modifies this`closeReturned
      ensures View() == Step(old(View()), CloseReturn)
      ensures done <==> forall i :: 0 <= i < |runs| ==> runs[i].phase.Returned?
    {
      for i := 0 to |runs|
        invariant forall k :: 0 <= k < i ==> runs[k].phase.Returned?
        invariant closeReturned == old(closeReturned)
      {
        if !runs[i].phase.Returned? { return false; }
      }
      closeReturned := true;
      return true;
    }
  }

  // ----- automatic refreshes -----

  datatype Try = Try(kind: string, force: bool, now: int)

  predicate Grants(attempts: map<string, int>, interval: int, t: Try) {
    t.kind in attempts ==> t.force || t.now - attempts[t.kind] >= interval
  }

  function Record(attempts: map<string, int>, interval: int, t: Try): map<string, int> {
    if Grants(attempts, interval, t) then attempts[t.kind := t.now] else attempts
  }

  function Attempts(tries: seq<Try>, interval: int): map<string, int> {
    if tries == [] then map[] else Record(Attempts(tries[..|tries| - 1], interval), interval, tries[|tries| - 1])
  }

  predicate WasGranted(tries: seq<Try>, interval: int, i: nat)
    requires i < |tries|
  {
    Grants(Attempts(tries[..i], interval), interval, tries[i])
  }

  lemma {:induction false} LastGrantRecorded(tries: seq<Try>, interval: int, i: nat)
    requires forall a, b :: 0 <= a < b < |tries| ==> tries[a].now <= tries[b].now
    requires i < |tries| && WasGranted(tries, interval, i)
    ensures tries[i].kind in Attempts(tries, interval) && tries[i].now <= Attempts(tries, interval)[tries[i].kind]
  {
    var n := |tries| - 1;
    if i < n {
      assert tries[..n][..i] == tries[..i];
      LastGrantRecorded(tries[..n], interval, i);
    }
  }

  // While the clock does not run backwards, an automatic refresh of a kind starts at least an
  // interval after every earlier start of that kind, forced or not.
  lemma AutomaticRefreshesAreSpaced(tries: seq<Try>, interval: int, i: nat, j: nat)
    requires forall a, b :: 0 <= a < b < |tries| ==> tries[a].now <= tries[b].now
    requires i < j < |tries| && tries[i].kind == tries[j].kind && !tries[j].force
    requires WasGranted(tries, interval, i) && WasGranted(tries, interval, j)
    ensures tries[j].now - tries[i].now >= interval
  {
    assert tries[..j][..i] == tries[..i];
    LastGrantRecorded(tries[..j], interval, i);
  }
}

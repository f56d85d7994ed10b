// What the refresher's results count, taken from the labels of a run.
module RefreshLedger {
  import opened Refresher

  // How many executed labels of the run are picked out.
  function Executed(limit: int, labels: seq<Label>, which: Label -> bool): nat {
    if labels == [] then 0
    else
      var rest, l := labels[..|labels| - 1], labels[|labels| - 1];
      Executed(limit, rest, which) + if Enabled(Run(limit, rest), l) && which(l) then 1 else 0
  }

  function Launches(run: nat): Label -> bool { (l: Label) => l == Launch(run) }

  function Ends(run: nat, ok: bool): Label -> bool { (l: Label) => l == Finish(run, ok) }

  // The runs that were begun: their kind, how many jobs they were given, and whether the
  // refresher was closed by then.
  datatype Order = Order(inBackground: bool, jobs: nat, refused: bool)

  function Orders(limit: int, labels: seq<Label>): seq<Order> {
    if labels == [] then []
    else
      var rest, l := labels[..|labels| - 1], labels[|labels| - 1];
      if l.Start? then Orders(limit, rest) + [Order(l.inBackground, l.jobs, CloseDoor in rest)] else Orders(limit, rest)
  }

  ghost predicate Recorded(limit: int, labels: seq<Label>, r: RunState, i: nat) {
    && r.index == Executed(limit, labels, Launches(i))
    && r.succeeded == Executed(limit, labels, Ends(i, true))
    && r.failed ==
       Executed(limit, labels, Ends(i, false)) + if r.phase.Returned? && r.index < r.total then r.total - r.index else 0
  }

  ghost predicate AllRecorded(limit: int, labels: seq<Label>, s: State) {
    && (forall i: nat :: i < |s.runs| ==> Recorded(limit, labels, s.runs[i], i))
    && (forall i: nat :: i >= |s.runs| ==> Unused(limit, labels, i))
  }

  ghost predicate Unused(limit: int, labels: seq<Label>, i: nat) {
    && Executed(limit, labels, Launches(i)) == 0
    && Executed(limit, labels, Ends(i, true)) == Executed(limit, labels, Ends(i, false)) == 0
  }

  ghost predicate AsOrdered(s: State, orders: seq<Order>) {
    && |s.runs| == |orders|
    && (forall i: nat :: i < |orders| ==>
          && s.runs[i].background == orders[i].inBackground && s.runs[i].total == orders[i].jobs
          && (orders[i].refused ==> s.runs[i].phase.Returned? && s.runs[i].index == 0))
  }

  lemma ExecutedNext(limit: int, rest: seq<Label>, l: Label, which: Label -> bool)
    ensures Executed(limit, rest + [l], which) ==
      Executed(limit, rest, which) + if Enabled(Run(limit, rest), l) && which(l) then 1 else 0
  {
    assert (rest + [l])[..|rest|] == rest;
  }

  // What one label adds to the entries of run i.
  lemma EntriesNext(limit: int, rest: seq<Label>, l: Label, i: nat)
    ensures var done := Enabled(Run(limit, rest), l);
      && Executed(limit, rest + [l], Launches(i)) ==
         Executed(limit, rest, Launches(i)) + (if done && l == Launch(i) then 1 else 0)
      && Executed(limit, rest + [l], Ends(i, true)) ==
         Executed(limit, rest, Ends(i, true)) + (if done && l == Finish(i, true) then 1 else 0)
      && Executed(limit, rest + [l], Ends(i, false)) ==
         Executed(limit, rest, Ends(i, false)) + (if done && l == Finish(i, false) then 1 else 0)
  {
    ExecutedNext(limit, rest, l, Launches(i));
    ExecutedNext(limit, rest, l, Ends(i, true));
    ExecutedNext(limit, rest, l, Ends(i, false));
  }

  // A run's own step moves its counters as the label says.
  lemma RunMoves(s: State, r: RunState, l: Label)
    requires OfRun(l) && RunEnabled(s, r, l) && RunInv(r)
    ensures var t := RunStep(s, r, l);
      && t.total == r.total && t.background == r.background
      && t.index == r.index + (if l.Launch? then 1 else 0)
      && t.succeeded == r.succeeded + (if l.Finish? && l.ok then 1 else 0)
      && (r.phase.Returned? ==> !l.Launch? && !l.Finish? && t.phase.Returned? && t.failed == r.failed)
      && (!r.phase.Returned? && !t.phase.Returned? ==> t.failed == r.failed + (if l.Finish? && !l.ok then 1 else 0))
      && (!r.phase.Returned? && t.phase.Returned? ==>
            !l.Finish? && t.failed == r.failed + (if r.index < r.total then r.total - r.index else 0))
  {
  }

  lemma StepRuns(s: State, l: Label, i: nat)
    requires i < |s.runs|
    ensures i < |Step(s, l).runs|
    ensures Step(s, l).runs[i] ==
      if Enabled(s, l) && OfRun(l) && l.run == i then RunStep(s, s.runs[i], l) else s.runs[i]
  {
  }

  lemma RecordedNext(limit: int, rest: seq<Label>, l: Label, i: nat)
    requires var s := Run(limit, rest); i < |s.runs| && RunInv(s.runs[i]) && Recorded(limit, rest, s.runs[i], i)
    ensures var t := Step(Run(limit, rest), l); i < |t.runs| && Recorded(limit, rest + [l], t.runs[i], i)
  {
    var s := Run(limit, rest);
    EntriesNext(limit, rest, l, i);
    StepRuns(s, l, i);
    if Enabled(s, l) && OfRun(l) && l.run == i { RunMoves(s, s.runs[i], l); }
  }

  lemma UnusedNext(limit: int, rest: seq<Label>, l: Label, i: nat)
    requires i >= |Run(limit, rest).runs| && Unused(limit, rest, i)
    ensures Unused(limit, rest + [l], i)
  {
    EntriesNext(limit, rest, l, i);
  }

  lemma NewRunRecorded(limit: int, labels: seq<Label>, r: RunState, i: nat)
    requires Unused(limit, labels, i)
    requires r.index == r.succeeded == 0 && r.failed == if r.phase.Returned? then r.total else 0
    ensures Recorded(limit, labels, r, i)
  {
  }

  lemma {:induction false} RunRecorded(limit: int, labels: seq<Label>)
    ensures AllRecorded(limit, labels, Run(limit, labels))
  {
    if labels != [] {
      var rest, l := labels[..|labels| - 1], labels[|labels| - 1];
      var s, t := Run(limit, rest), Run(limit, labels);
      assert labels == rest + [l];
      RunRecorded(limit, rest);
      RunKeepsInv(limit, rest);
      forall i: nat | i >= |s.runs| ensures Unused(limit, labels, i) { UnusedNext(limit, rest, l, i); }
      forall i: nat | i < |t.runs| ensures Recorded(limit, labels, t.runs[i], i) {
        if i < |s.runs| {
          RecordedNext(limit, rest, l, i);
        } else {
          NewRunRecorded(limit, labels, t.runs[i], i);
        }
      }
    }
  }

  lemma DoorStep(s: State, l: Label)
    ensures Step(s, l).closed <==> s.closed || l == CloseDoor
  {
  }

  lemma {:induction false} ClosedSince(limit: int, labels: seq<Label>)
    ensures Run(limit, labels).closed <==> CloseDoor in labels
  {
    if labels != [] {
      var rest, l := labels[..|labels| - 1], labels[|labels| - 1];
      ClosedSince(limit, rest);
      DoorStep(Run(limit, rest), l);
      assert labels == rest + [l];
    }
  }

  lemma {:induction false} RunAsOrdered(limit: int, labels: seq<Label>)
    ensures AsOrdered(Run(limit, labels), Orders(limit, labels))
  {
    if labels != [] {
      var rest, l := labels[..|labels| - 1], labels[|labels| - 1];
      var s, t := Run(limit, rest), Run(limit, labels);
      RunAsOrdered(limit, rest);
      RunKeepsInv(limit, rest);
      ClosedSince(limit, rest);
      forall i: nat | i < |s.runs| ensures i < |t.runs| && StillAs(s.runs[i], t.runs[i]) {
        StepRuns(s, l, i);
        if Enabled(s, l) && OfRun(l) && l.run == i { RunMoves(s, s.runs[i], l); }
      }
    }
  }

  predicate StillAs(r: RunState, t: RunState) {
    && t.background == r.background && t.total == r.total
    && (r.phase.Returned? ==> t.phase.Returned? && t.index == r.index)
  }

  // Over every run and for every refresh that has returned: it counted as failed exactly the jobs
  // that ended with an error and those that never started, all of them where the refresher had been
  // closed, and the others as successes; the total is the number of jobs it was given.
  lemma ResultsExactly(limit: int, labels: seq<Label>, i: nat)
    requires i < |Run(limit, labels).runs| && Run(limit, labels).runs[i].phase.Returned?
    ensures i < |Orders(limit, labels)|
    ensures var r, order := Run(limit, labels).runs[i], Orders(limit, labels)[i];
      var launched := Executed(limit, labels, Launches(i));
      && r.total == order.jobs && launched <= order.jobs && (order.refused ==> launched == 0)
      && r.failed == Executed(limit, labels, Ends(i, false)) + (order.jobs - launched)
      && r.succeeded == Executed(limit, labels, Ends(i, true))
      && launched == Executed(limit, labels, Ends(i, true)) + Executed(limit, labels, Ends(i, false))
  {
    RunRecorded(limit, labels);
    RunAsOrdered(limit, labels);
    RunKeepsInv(limit, labels);
    var r := Run(limit, labels).runs[i];
    assert RunInv(r) && Recorded(limit, labels, r, i);
  }

  // ----- automatic refreshes -----

  // An attempt is refused if and only if it is not forced and an earlier start of its kind is less
  // than an interval ago.
  lemma RefusedExactly(tries: seq<Try>, interval: int, i: nat)
    requires forall a, b :: 0 <= a < b < |tries| ==> tries[a].now <= tries[b].now
    requires i < |tries|
    ensures !WasGranted(tries, interval, i) <==>
      && !tries[i].force
      && exists j: nat :: j < i && tries[j].kind == tries[i].kind && WasGranted(tries, interval, j) &&
           tries[i].now - tries[j].now < interval
  {
    var past := tries[..i];
    if tries[i].kind in Attempts(past, interval) {
      LastStart(past, interval, tries[i].kind);
      var j: nat :| StartedAt(past, interval, tries[i].kind, j);
      assert past[..j] == tries[..j];
    }
    forall j: nat | j < i ensures WasGranted(past, interval, j) <==> WasGranted(tries, interval, j) {
      assert past[..j] == tries[..j];
    }
    forall j: nat | j < i && tries[j].kind == tries[i].kind && WasGranted(tries, interval, j)
      ensures tries[j].kind in Attempts(past, interval) && tries[j].now <= Attempts(past, interval)[tries[i].kind]
    {
      assert WasGranted(past, interval, j);
      LastGrantRecorded(past, interval, j);
    }
  }

  // The j-th attempt started kind, at the recorded time.
  predicate StartedAt(tries: seq<Try>, interval: int, kind: string, j: nat) {
    && j < |tries| && tries[j].kind == kind && WasGranted(tries, interval, j)
    && kind in Attempts(tries, interval) && tries[j].now == Attempts(tries, interval)[kind]
  }

  lemma {:induction false} LastStart(tries: seq<Try>, interval: int, kind: string)
    requires kind in Attempts(tries, interval)
    ensures exists j: nat :: StartedAt(tries, interval, kind, j)
  {
    var n := |tries| - 1;
    var rest := tries[..n];
    if tries[n].kind == kind && Grants(Attempts(rest, interval), interval, tries[n]) {
      assert StartedAt(tries, interval, kind, n);
    } else {
      LastStart(rest, interval, kind);
      var j: nat :| StartedAt(rest, interval, kind, j);
      assert rest[..j] == tries[..j];
      assert StartedAt(tries, interval, kind, j);
    }
  }
}

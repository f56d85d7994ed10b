// The background settings writer: saves made while one is running are coalesced into the latest
// value, and close waits for every accepted save.
module SettingsWriter {
  import opened Options
  import opened Sequences

  // Settings values are opaque; an error is None or Some of a code.
  type Settings = int
  type Error = Option<int>

  // A worker goroutine between two lock sections; Notifying is after lastErr was set.
  datatype Worker = AtTop | Writing(value: Settings) | Wrote(value: Settings, err: Error) | Notifying

  // accepted and written are histories; closers is the number of close calls waiting on done, and
  // doneCloses how often the channel was closed.
  datatype State = State(
    pending: Option<Settings>,
    workerActive: bool,
    closed: bool,
    doneCloses: nat,
    lastErr: Error,
    workers: seq<Worker>,
    accepted: seq<Settings>,
    written: seq<(Settings, Error)>)

  datatype Label =
    | Save(value: Settings)
    | Top(w: nat)
    | Write(w: nat, err: Error)
    | Record(w: nat)
    | Notify(w: nat)
    | Close

  const INITIAL := State(None, false, false, 0, None, [], [], [])

  // ----- the atomic steps -----

  function SaveStep(s: State, value: Settings): State {
    if s.closed then s
    else s.(pending := Some(value), accepted := s.accepted + [value], workerActive := true,
            workers := if s.workerActive then s.workers else s.workers + [AtTop])
  }

  // doneOnce
  function CloseDone(doneCloses: nat): nat { if doneCloses == 0 then 1 else doneCloses }

  function TopStep(s: State, w: nat): State
    requires w < |s.workers|
  {
    if s.pending.None? then
      s.(workerActive := false, workers := s.workers[..w] + s.workers[w + 1..],
         doneCloses := if s.closed then CloseDone(s.doneCloses) else s.doneCloses)
    else
      s.(pending := None, workers := s.workers[w := Writing(s.pending.value)])
  }

  function CloseStep(s: State): State {
    s.(closed := true, doneCloses := if s.workerActive then s.doneCloses else CloseDone(s.doneCloses))
  }

  predicate Enabled(s: State, l: Label) {
    match l
    case Save(_) => true
    case Close => true
    case Top(w) => w < |s.workers| && s.workers[w].AtTop?
    case Write(w, _) => w < |s.workers| && s.workers[w].Writing?
    case Record(w) => w < |s.workers| && s.workers[w].Wrote?
    case Notify(w) => w < |s.workers| && s.workers[w].Notifying?
  }

  function Step(s: State, l: Label): State {
    if !Enabled(s, l) then s else
    match l
    case Save(value) => SaveStep(s, value)
    case Top(w) => TopStep(s, w)
    case Write(w, err) =>
      s.(written := s.written + [(s.workers[w].value, err)], workers := s.workers[w := Wrote(s.workers[w].value, err)])
    case Record(w) => s.(lastErr := s.workers[w].err, workers := s.workers[w := Notifying])
    case Notify(w) => s.(workers := s.workers[w := AtTop])
    case Close => CloseStep(s)
  }

  function Run(labels: seq<Label>): State {
    if labels == [] then INITIAL else Step(Run(labels[..|labels| - 1]), labels[|labels| - 1])
  }

  // ----- the invariant -----

  function Values(written: seq<(Settings, Error)>): (values: seq<Settings>)
    ensures |values| == |written|
    ensures forall i :: 0 <= i < |written| ==> values[i] == written[i].0
  {
    seq(|written|, i requires 0 <= i < |written| => written[i].0)
  }

  function InHand(s: State): seq<Settings> {
    (if |s.workers| > 0 && s.workers[0].Writing? then [s.workers[0].value] else [])
    + (if s.pending.Some? then [s.pending.value] else [])
  }

  // What was or still will be written, in order.
  function Pipeline(s: State): seq<Settings> { Values(s.written) + InHand(s) }

  ghost predicate WorkerInv(s: State) {
    && |s.workers| == (if s.workerActive then 1 else 0)
    && (s.pending.Some? ==> s.workerActive)
    && s.doneCloses <= 1
    && (s.doneCloses == 1 ==> s.closed && !s.workerActive)
    && (s.closed && !s.workerActive ==> s.doneCloses == 1)
  }

  ghost predicate ResultInv(s: State) {
    && (s.written == [] ==> s.lastErr == None)
    && (s.written != [] ==>
          if |s.workers| > 0 && s.workers[0].Wrote? then s.workers[0].err == s.written[|s.written| - 1].1
          else s.lastErr == s.written[|s.written| - 1].1)
    && (|s.workers| > 0 && s.workers[0].Wrote? ==> s.written != [])
  }

  ghost predicate OrderInv(s: State) {
    && Subsequence(Pipeline(s), s.accepted)
    && (s.accepted != [] ==> Pipeline(s) != [] && Pipeline(s)[|Pipeline(s)| - 1] == s.accepted[|s.accepted| - 1])
  }

  ghost predicate Inv(s: State) {
    WorkerInv(s) && ResultInv(s) && OrderInv(s)
  }

  lemma SaveKeepsOrder(s: State, value: Settings)
    requires OrderInv(s) && !s.closed && WorkerInv(s)
    ensures OrderInv(SaveStep(s, value))
  {
    var s' := SaveStep(s, value);
    var kept := Pipeline(s.(pending := None));
    if s.pending.Some? {
      assert Pipeline(s) == kept + [s.pending.value];
      assert kept == Pipeline(s)[..|Pipeline(s)| - 1];
      SubsequencePrefix(Pipeline(s), s.accepted, |Pipeline(s)| - 1);
    } else {
      assert Pipeline(s) == kept;
    }
    SubsequenceTake(kept, s.accepted, value);
    assert Pipeline(s') == kept + [value];
  }

  lemma WorkerKeepsPipeline(s: State, l: Label)
    requires WorkerInv(s) && !l.Save? && !l.Close? && Enabled(s, l)
    ensures Pipeline(Step(s, l)) == Pipeline(s)
  {
    var s' := Step(s, l);
    assert l.w == 0;
    if l.Write? {
      assert Values(s'.written) == Values(s.written) + [s.workers[0].value];
    }
  }

  lemma StepKeepsInv(s: State, l: Label)
    requires Inv(s)
    ensures Inv(Step(s, l))
  {
    StepKeepsWorker(s, l);
    StepKeepsResult(s, l);
    StepKeepsOrder(s, l);
  }

  lemma StepKeepsWorker(s: State, l: Label)
    requires WorkerInv(s)
    ensures WorkerInv(Step(s, l))
  {
  }

  lemma StepKeepsResult(s: State, l: Label)
    requires WorkerInv(s) && ResultInv(s)
    ensures ResultInv(Step(s, l))
  {
  }

  lemma StepKeepsOrder(s: State, l: Label)
    requires WorkerInv(s) && OrderInv(s)
    ensures OrderInv(Step(s, l))
  {
    if Enabled(s, l) {
      if l.Save? {
        if !s.closed { SaveKeepsOrder(s, l.value); }
      } else if !l.Close? {
        WorkerKeepsPipeline(s, l);
      }
    }
  }

  lemma {:induction false} RunKeepsInv(labels: seq<Label>)
    ensures Inv(Run(labels))
  {
    if labels == [] {
      SubsequenceSame<Settings>([]);
      assert Pipeline(INITIAL) == [];
    } else {
      RunKeepsInv(labels[..|labels| - 1]);
      StepKeepsInv(Run(labels[..|labels| - 1]), labels[|labels| - 1]);
    }
  }

  // ----- what callers rely on -----

  // The written values are accepted ones, in order and without repetition; one worker runs at a
  // time and a pending value has one; done is closed at most once.
  lemma WritesInOrder(labels: seq<Label>)
    ensures var s := Run(labels);
            && Subsequence(Values(s.written), s.accepted)
            && |s.workers| <= 1
            && (s.pending.Some? ==> |s.workers| == 1)
            && s.doneCloses <= 1
  {
    RunKeepsInv(labels);
    var s := Run(labels);
    SubsequencePrefix(Pipeline(s), s.accepted, |s.written|);
    assert Pipeline(s)[..|s.written|] == Values(s.written);
  }

  // When close gets past done, the last accepted value is the last one written, and the error it
  // returns is that write's; with nothing accepted there is no error.
  lemma CloseReturnsLastResult(labels: seq<Label>)
    requires Run(labels).doneCloses > 0
    ensures var s := Run(labels);
            && s.pending.None? && s.workers == []
            && (s.accepted == [] ==> s.written == [] && s.lastErr == None)
            && (s.accepted != [] ==>
                  && s.written != []
                  && s.written[|s.written| - 1].0 == s.accepted[|s.accepted| - 1]
                  && s.lastErr == s.written[|s.written| - 1].1)
  {
    RunKeepsInv(labels);
    var s := Run(labels);
    assert Pipeline(s) == Values(s.written);
    if s.accepted == [] {
      SubsequenceLength(Pipeline(s), s.accepted);
    }
  }

  // From then on nothing is accepted or written any more.
  lemma {:induction false} ClosedForGood(labels: seq<Label>, more: seq<Label>)
    requires Run(labels).doneCloses > 0
    ensures Run(labels + more) == Run(labels)
  {
    RunKeepsInv(labels);
    if more == [] {
      assert labels + more == labels;
    } else {
      var rest := more[..|more| - 1];
      assert (labels + more)[..|labels + more| - 1] == labels + rest;
      ClosedForGood(labels, rest);
    }
  }

  // ----- what is accepted, and that it is written -----

  ghost predicate CloseCalled(labels: seq<Label>) { Close in labels }

  // The values of the saves before the first close.
  ghost function SavedValues(labels: seq<Label>): seq<Settings> {
    if labels == [] then []
    else
      var rest, l := labels[..|labels| - 1], labels[|labels| - 1];
      SavedValues(rest) + if l.Save? && !CloseCalled(rest) then [l.value] else []
  }

  // How the writes went, in order.
  ghost function WriteErrors(labels: seq<Label>): seq<Error> {
    if labels == [] then []
    else
      var rest, l := labels[..|labels| - 1], labels[|labels| - 1];
      WriteErrors(rest) + if l.Write? && Enabled(Run(rest), l) then [l.err] else []
  }

  lemma StepAccepts(s: State, l: Label)
    ensures Step(s, l).accepted == s.accepted + if l.Save? && !s.closed then [l.value] else []
    ensures Step(s, l).closed <==> s.closed || l.Close?
  {
  }

  // Every save before the first close is accepted, and nothing else.
  lemma {:induction false} AcceptedExactly(labels: seq<Label>)
    ensures Run(labels).accepted == SavedValues(labels) && (Run(labels).closed <==> CloseCalled(labels))
  {
    if labels != [] {
      var n := |labels| - 1;
      AcceptedExactly(labels[..n]);
      StepAccepts(Run(labels[..n]), labels[n]);
      assert labels == labels[..n] + [labels[n]];
    }
  }

  function Errors(written: seq<(Settings, Error)>): (errors: seq<Error>)
    ensures |errors| == |written| && forall i :: 0 <= i < |written| ==> errors[i] == written[i].1
  {
    seq(|written|, i requires 0 <= i < |written| => written[i].1)
  }

  lemma StepWrites(s: State, l: Label)
    ensures Errors(Step(s, l).written) == Errors(s.written) + if l.Write? && Enabled(s, l) then [l.err] else []
  {
    if l.Write? && Enabled(s, l) {
      assert Step(s, l).written == s.written + [(s.workers[l.w].value, l.err)];
    } else {
      assert Step(s, l).written == s.written;
    }
  }

  // Every write's error is the one it ended with.
  lemma {:induction false} ErrorsAreTheWrites(labels: seq<Label>)
    ensures Errors(Run(labels).written) == WriteErrors(labels)
  {
    if labels != [] {
      var n := |labels| - 1;
      ErrorsAreTheWrites(labels[..n]);
      StepWrites(Run(labels[..n]), labels[n]);
    }
  }

  predicate IsWorkerStep(l: Label) { !l.Save? && !l.Close? }

  // How many steps the worker has left if nothing more is saved.
  function StepsLeft(s: State): nat {
    (if s.pending.Some? then 4 else 0) +
    (if s.workers == [] then 0
     else match s.workers[0] case AtTop => 1 case Notifying => 2 case Wrote(_, _) => 3 case Writing(_) => 4)
  }

  // While there is a worker it can take a step, and every step brings it nearer to its end.
  lemma WorkerProceeds(s: State, err: Error) returns (l: Label)
    requires WorkerInv(s) && s.workers != []
    ensures IsWorkerStep(l) && Enabled(s, l) && (l.Write? ==> l.err == err)
    ensures StepsLeft(Step(s, l)) == StepsLeft(s) - 1
  {
    l := match s.workers[0]
      case AtTop => Top(0) case Writing(_) => Write(0, err) case Wrote(_, _) => Record(0) case Notifying => Notify(0);
  }

  lemma RunMore(labels: seq<Label>, l: Label)
    ensures Run(labels + [l]) == Step(Run(labels), l)
  {
    assert (labels + [l])[..|labels|] == labels;
  }

  lemma WorkerKeeps(s: State, l: Label)
    requires IsWorkerStep(l)
    ensures Step(s, l).accepted == s.accepted && Step(s, l).closed == s.closed
  {
  }

  lemma {:induction false} WorkerFinishes(labels: seq<Label>, err: Error) returns (more: seq<Label>)
    ensures |more| == StepsLeft(Run(labels)) && forall l :: l in more ==> IsWorkerStep(l)
    ensures var (s, t) := (Run(labels), Run(labels + more));
      t.workers == [] && t.accepted == s.accepted && t.closed == s.closed
    decreases StepsLeft(Run(labels))
  {
    RunKeepsInv(labels);
    var s := Run(labels);
    if s.workers == [] {
      more := [];
      assert labels + more == labels;
    } else {
      var l := WorkerProceeds(s, err);
      RunMore(labels, l);
      WorkerKeeps(s, l);
      var rest := WorkerFinishes(labels + [l], err);
      more := Joined(labels, l, rest);
    }
  }

  lemma Joined(labels: seq<Label>, l: Label, rest: seq<Label>) returns (more: seq<Label>)
    requires IsWorkerStep(l) && forall k :: k in rest ==> IsWorkerStep(k)
    ensures labels + more == labels + [l] + rest && |more| == 1 + |rest|
    ensures forall k :: k in more ==> IsWorkerStep(k)
  {
    more := [l] + rest;
    assert labels + more == labels + [l] + rest;
  }

  // The worker's own steps, as many as it has left, end with the last accepted value written, and
  // with done closed if close was called.
  lemma LastSaveIsWritten(labels: seq<Label>, err: Error) returns (more: seq<Label>)
    ensures |more| == StepsLeft(Run(labels)) && forall l :: l in more ==> IsWorkerStep(l)
    ensures var (s, t) := (Run(labels), Run(labels + more));
      && t.accepted == s.accepted && t.pending.None? && t.workers == []
      && (s.accepted != [] ==> t.written != [] && t.written[|t.written| - 1].0 == s.accepted[|s.accepted| - 1])
      && (t.doneCloses == 1 <==> CloseCalled(labels))
  {
    more := WorkerFinishes(labels, err);
    AcceptedExactly(labels);
    RunKeepsInv(labels + more);
    assert Pipeline(Run(labels + more)) == Values(Run(labels + more).written);
  }

  // ----- the writer object -----

  class Writer {
    var pending: Option<Settings>
    var workerActive: bool
    var closed: bool
    var doneCloses: nat
    var lastErr: Error
    var workers: seq<Worker>
    ghost var accepted: seq<Settings>
    ghost var written: seq<(Settings, Error)>

    ghost function View(): State
      reads this
    {
      State(pending, workerActive, closed, doneCloses, lastErr, workers, accepted, written)
    }

    constructor ()
      ensures View() == INITIAL
    {
      pending, workerActive, closed, doneCloses, lastErr := None, false, false, 0, None;
      workers, accepted, written := [], [], [];
    }

    method Save(value: Settings) returns (ok: bool)
      modifies this
      ensures View() == Step(old(View()), Label.Save(value))
      ensures ok <==> !old(closed)
      ensures accepted == if ok then old(accepted) + [value] else old(accepted)
      ensures ok ==> pending == Some(value) && workerActive
    {
      if closed {
        return false;
      }
      pending := Some(value);
      accepted := accepted + [value];
      if !workerActive {
        workerActive := true;
        workers := workers + [AtTop];
      }
      return true;
    }

    // The part of close before it waits.
    method BeginClose()
      modifies this
      ensures View() == Step(old(View()), Close)
    {
      closed := true;
      if !workerActive {
        CloseDoneOnce();
      }
    }

    method CloseDoneOnce()
      modifies this`doneCloses
      ensures doneCloses == CloseDone(old(doneCloses))
    {
      if doneCloses == 0 {
        doneCloses := 1;
      }
    }

    // The locked section at the top of the worker's loop; value is what to write next.
    method TakePending(w: nat) returns (value: Option<Settings>)
      requires w < |workers| && workers[w].AtTop?
      modifies this
      ensures View() == Step(old(View()), Top(w))
      ensures value == old(pending)
    {
      value := pending;
      if pending.None? {
        workerActive := false;
        if closed {
          CloseDoneOnce();
        }
        workers := workers[..w] + workers[w + 1..];
        return;
      }
      pending := None;
      workers := workers[w := Writing(value.value)];
    }

    method WriteValue(w: nat, err: Error)
      requires w < |workers| && workers[w].Writing?
      modifies this
      ensures View() == Step(old(View()), Write(w, err))
    {
      written := written + [(workers[w].value, err)];
      workers := workers[w := Wrote(workers[w].value, err)];
    }

    method RecordError(w: nat)
      requires w < |workers| && workers[w].Wrote?
      modifies this
      ensures View() == Step(old(View()), Record(w))
    {
      lastErr := workers[w].err;
      workers := workers[w := Notifying];
    }
  }
}

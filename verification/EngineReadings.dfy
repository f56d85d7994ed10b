// What the engine reports, told from the labels: the values that mpv last gave, those last shown,
// how far a load has come, and how its end is reported.
module EngineReadings {
  import opened Options
  import opened PlaybackEvents
  import opened Engine

  // ----- how far the load has come -----

  // startSeen: a start was polled since the load. stage: 1 once its opening was reported, 2 once
  // its playback was.
  datatype Course = Course(waiting: bool, startSeen: bool, stage: nat)

  // numbered: the load at hand was given a generation.
  function NextCourse(c: Course, numbered: bool, l: Label): Course {
    if l.Load? && l.ok then Course(true, false, 0)
    else if !l.Polled? then c
    else
      match l.event
      case Start(_) => c.(startSeen := c.waiting)
      case FileLoaded(_) => Course(false, false, if c.waiting && c.startSeen && numbered then 1 else c.stage)
      case PlaybackRestart(_) => c.(stage := if c.stage == 1 && numbered then 2 else c.stage)
      case EndFile(_, reason) => if reason == Error && c.startSeen then Course(false, false, c.stage) else c
      case _ => c
  }

  ghost function CourseOf(labels: seq<Label>): Course {
    if labels == [] then Course(false, false, 0)
    else
      var rest := labels[..|labels| - 1];
      NextCourse(CourseOf(rest), Run(rest).generation != 0, labels[|labels| - 1])
  }

  predicate OnCourse(load: LoadFlags, c: Course) {
    load.pending == c.waiting && load.pendingStarted == c.startSeen && load.started == c.stage
  }

  lemma StepsOnCourse(s: State, c: Course, l: Label)
    requires FlagInv(s) && OnCourse(s.load, c)
    ensures OnCourse(Step(s, l).load, NextCourse(c, s.generation != 0, l))
  {
    StepFrame(s, l);
    if l.Load? { DrainFrame(s, l.queued); }
  }

  lemma {:induction false} FlagsAreOnCourse(labels: seq<Label>)
    ensures OnCourse(Run(labels).load, CourseOf(labels))
  {
    if labels != [] {
      var rest := labels[..|labels| - 1];
      FlagsAreOnCourse(rest);
      RunKeepsInv(rest);
      StepsOnCourse(Run(rest), CourseOf(rest), labels[|labels| - 1]);
    }
  }

  // The flags are what the labels say, and of every load the stages on its course are reported.
  lemma CourseIsKept(labels: seq<Label>)
    ensures var (s, c) := (Run(labels), CourseOf(labels));
      && OnCourse(s.load, c)
      && Stages(s.log, |s.loads|) == if c.stage == 0 then [] else if c.stage == 1 then [1] else [1, 2]
  {
    FlagsAreOnCourse(labels);
    RunKeepsInv(labels);
  }

  // ----- what mpv last said of the current file -----

  datatype Told = Told(position: Option<int>, duration: Option<int>, paused: bool)

  // A property change; positions that predate a seek under way are ignored.
  function Hear(t: Told, seeking: bool, e: MpvEvent): Told {
    match e
    case TimePos(value) => if seeking then t else t.(position := value)
    case DurationIs(value) => t.(duration := value)
    case PauseIs(paused) => t.(paused := paused)
    case _ => t
  }

  function HearAll(t: Told, seeking: bool, queued: seq<MpvEvent>): Told
    decreases queued
  {
    if queued == [] then t else HearAll(Hear(t, seeking, queued[0]), seeking, queued[1..])
  }

  // A seek from the moment mpv took the command: Asked until mpv reports that it seeks, and Begun
  // until playback restarts there.
  datatype SeekStage = NoSeek | Asked | Begun

  function NextSeek(k: SeekStage, l: Label): SeekStage {
    match l
    case Load(_, ok, _, _, _) => if ok then NoSeek else k
    case Seek(_, _, ok) => if ok then Asked else NoSeek
    case SnapshotTimeout => NoSeek
    case Polled(e, _) =>
      if e.EndFile? || (e.PlaybackRestart? && k == Begun) then NoSeek
      else if e.SeekBegun? && k == Asked then Begun
      else k
    case _ => k
  }

  function SeekOf(labels: seq<Label>): SeekStage {
    if labels == [] then NoSeek else NextSeek(SeekOf(labels[..|labels| - 1]), labels[|labels| - 1])
  }

  predicate Seeking(seek: SeekFlags) { seek.pending && !seek.started }

  predicate OnSeek(seek: SeekFlags, k: SeekStage) { seek == SeekFlags(k != NoSeek, k == Begun) }

  lemma StepsOnSeek(s: State, k: SeekStage, l: Label)
    requires OnSeek(s.seek, k)
    ensures OnSeek(Step(s, l).seek, NextSeek(k, l))
  {
    StepFrame(s, l);
    if l.Load? { DrainFrame(s, l.queued); }
  }

  // The engine's seek flags are the stage of the seek that the labels tell of.
  lemma {:induction false} SeekIsKept(labels: seq<Label>)
    ensures OnSeek(Run(labels).seek, SeekOf(labels))
  {
    if labels != [] {
      var rest := labels[..|labels| - 1];
      SeekIsKept(rest);
      StepsOnSeek(Run(rest), SeekOf(rest), labels[|labels| - 1]);
    }
  }

  // Where a seek goes: from the file's start, or on from where the file is, but not before its
  // start or behind its end.
  function Target(t: Told, shown: int, value: int, absolute: bool): int {
    var here := if t.position.Some? then t.position.value else shown;
    var to := if absolute then value else here + value;
    var inside := if to < 0 then 0 else to;
    if t.duration.Some? && t.duration.value < inside then t.duration.value else inside
  }

  ghost function ToldOf(labels: seq<Label>): Told {
    if labels == [] then Told(None, None, false)
    else
      var rest, l := labels[..|labels| - 1], labels[|labels| - 1];
      var (s, t, seeking) := (Run(rest), ToldOf(rest), SeekOf(rest) == Asked);
      match l
      case Load(queued, ok, _, _, paused) => if ok then Told(None, None, paused) else HearAll(t, seeking, queued)
      case Polled(e, _) =>
        if e.Start? && CourseOf(rest).waiting then Told(None, None, t.paused) else Hear(t, seeking, e)
      case Seek(value, absolute, ok) =>
        if ok then t.(position := Some(Target(t, s.clock.position, value, absolute))) else t
      case SetPaused(paused) => t.(paused := paused)
      case _ => t
  }

  predicate Keeps(c: Clock, t: Told) {
    && c.observed.positionKnown == t.position.Some? && c.observed.durationKnown == t.duration.Some?
    && (t.position.Some? ==> c.observed.position == t.position.value)
    && (t.duration.Some? ==> c.observed.duration == t.duration.value)
    && c.paused == t.paused
  }

  lemma HearKeeps(c: Clock, seek: SeekFlags, t: Told, e: MpvEvent)
    requires Keeps(c, t)
    ensures Keeps(ApplyProperty(c, seek, e), Hear(t, seek.pending && !seek.started, e))
  {
  }

  lemma {:induction false} HearAllKeeps(s: State, t: Told, queued: seq<MpvEvent>)
    requires Keeps(s.clock, t)
    ensures Keeps(Drain(s, queued).clock, HearAll(t, Seeking(s.seek), queued))
    decreases queued
  {
    if queued != [] {
      HearKeeps(s.clock, s.seek, t, queued[0]);
      HearAllKeeps(s.(clock := ApplyProperty(s.clock, s.seek, queued[0])), Hear(t, Seeking(s.seek), queued[0]),
                   queued[1..]);
    }
  }

  lemma PollKeepsTold(s: State, t: Told, e: MpvEvent)
    requires Keeps(s.clock, t)
    ensures Keeps(Poll(s, e).clock,
                  if e.Start? && s.load.pending then Told(None, None, t.paused) else Hear(t, Seeking(s.seek), e))
  {
    HearKeeps(s.clock, s.seek, t, e);
  }

  lemma SeekKeepsTold(s: State, t: Told, value: int, absolute: bool, ok: bool)
    requires Keeps(s.clock, t)
    ensures Keeps(Seeked(s, value, absolute, ok).clock,
                  if ok then t.(position := Some(Target(t, s.clock.position, value, absolute))) else t)
  {
  }

  // What the engine keeps of the file is what mpv last said of it.
  lemma {:induction false} ToldIsKept(labels: seq<Label>)
    ensures Keeps(Run(labels).clock, ToldOf(labels))
  {
    if labels != [] {
      var rest, l := labels[..|labels| - 1], labels[|labels| - 1];
      var (s, t) := (Run(rest), ToldOf(rest));
      ToldIsKept(rest);
      FlagsAreOnCourse(rest);
      SeekIsKept(rest);
      StepFrame(s, l);
      match l
      case Load(queued, _, _, _, _) => HearAllKeeps(s, t, queued);
      case Polled(e, _) => PollKeepsTold(s, t, e);
      case Seek(value, absolute, ok) => SeekKeepsTold(s, t, value, absolute, ok);
      case _ =>
    }
  }

  // ----- what is shown -----

  datatype Place = Place(position: int, duration: int)

  function AtLeastZero(n: int): int { if n < 0 then 0 else n }

  function Or(told: Option<int>, other: int): int { if told.Some? then told.value else other }

  // Where the file is and how long it is, as mpv last said, else as it was last shown.
  function PlaceOf(t: Told, shown: Place): Place {
    Place(if t.position.Some? then AtLeastZero(t.position.value) else shown.position,
          if t.duration.Some? then AtLeastZero(t.duration.value) else shown.duration)
  }

  // The file has a length, and at most 30 seconds of it are left.
  predicate NearEnd(p: Place) { p.duration > 0 && p.duration - p.position <= 30 }

  ghost function ShownOf(labels: seq<Label>): Place {
    if labels == [] then Place(0, 0)
    else
      var rest, l := labels[..|labels| - 1], labels[|labels| - 1];
      var (s, t, shown) := (Run(rest), ToldOf(rest), ShownOf(rest));
      match l
      case Load(_, ok, _, startAt, _) => if ok then Place(startAt, 0) else shown
      case Tick(_) => if CourseOf(rest).waiting || s.load.failed then shown else TickPlace(s.load.ended, t, shown)
      case Snapshot =>
        if SeekOf(rest) != NoSeek || CourseOf(rest).waiting || s.load.ended then shown
        else if Or(t.position, 0) < 0 || Or(t.duration, 0) < 0 then shown
        else Place(Or(t.position, shown.position), Or(t.duration, shown.duration))
      case Polled(e, _) =>
        var p := PlaceOf(t, shown);
        if e.EndFile? && e.reason == Eof && !CourseOf(rest).waiting && s.generation != 0 && NearEnd(p) then
          Place(p.duration, p.duration)
        else shown
      case _ => shown
  }

  // What a tick shows: the end, once the file has ended; else the file's place, with no length
  // unless mpv gave one.
  function TickPlace(ended: bool, t: Told, shown: Place): Place {
    if ended then Place(shown.duration, shown.duration)
    else Place(PlaceOf(t, shown).position, if t.duration.Some? then AtLeastZero(t.duration.value) else 0)
  }

  lemma PlaceIs(s: State, t: Told)
    requires Keeps(s.clock, t)
    ensures PlaceOf(t, Place(s.clock.position, s.clock.duration)) == Place(Here(s.clock), Length(s.clock))
  {
  }

  lemma PollKeepsPlace(s: State, t: Told, e: MpvEvent)
    requires Keeps(s.clock, t)
    ensures var (c, p) := (Poll(s, e).clock, PlaceOf(t, Place(s.clock.position, s.clock.duration)));
      Place(c.position, c.duration) ==
        if e.EndFile? && e.reason == Eof && !s.load.pending && s.generation != 0 && NearEnd(p) then
          Place(p.duration, p.duration)
        else Place(s.clock.position, s.clock.duration)
  {
    PlaceIs(s, t);
  }

  lemma SnapKeepsPlace(s: State, t: Told)
    requires Keeps(s.clock, t)
    ensures var (c, was) := (Snapped(s).clock, s.clock);
      Place(c.position, c.duration) ==
        if s.seek.pending || s.load.pending || s.load.ended || Or(t.position, 0) < 0 || Or(t.duration, 0) < 0 then
          Place(was.position, was.duration)
        else Place(Or(t.position, was.position), Or(t.duration, was.duration))
  {
  }

  // What was last shown is what the labels say.
  lemma {:induction false} ShownIsKept(labels: seq<Label>)
    ensures ShownOf(labels) == Place(Run(labels).clock.position, Run(labels).clock.duration)
  {
    if labels != [] {
      var rest, l := labels[..|labels| - 1], labels[|labels| - 1];
      var (s, t) := (Run(rest), ToldOf(rest));
      ShownIsKept(rest);
      ToldIsKept(rest);
      FlagsAreOnCourse(rest);
      SeekIsKept(rest);
      StepFrame(s, l);
      match l
      case Load(queued, _, _, _, _) => DrainFrame(s, queued);
      case Polled(e, _) => PollKeepsPlace(s, t, e);
      case Snapshot => SnapKeepsPlace(s, t);
      case _ =>
    }
  }

  // ----- what was reported of the end -----

  predicate IsEndNotice(r: Report) { r.EndNotice? }

  // How often the current load was reported so.
  ghost function Noticed(labels: seq<Label>, which: Report -> bool): nat {
    Count(Run(labels).log, |Run(labels).loads|, which)
  }

  lemma EndReportCounts(s: State, reason: Reason, position: int, duration: int, room: bool)
    requires FlagInv(s) && s.generation != 0
    ensures var reports := EndReports(s, reason, position, duration, room);
      && CountIn(reports, IsFailureNotice) == (if Fails(s, reason) && !s.load.failed then 1 else 0)
      && CountIn(reports, IsEndNotice) == (if Normal(s, reason) then 1 else 0)
  {
    EndCounts(s, reason, position, duration, room);
    var e := if room then [Emitted(EndKind(s, reason), position, duration)] else [];
    var f := if Fails(s, reason) && !s.load.failed then [FailureNotice] else [];
    var n := if Normal(s, reason) then [EndNotice] else [];
    if Reportable(s, reason) {
      assert EndReports(s, reason, position, duration, room) == e + f + n;
      CountThree(e, f, n, IsEndNotice);
    }
  }

  lemma OtherReports(s: State, l: Label)
    requires !(l.Polled? && l.event.EndFile?)
    ensures CountIn(Reports(s, l), IsFailureNotice) == 0 && CountIn(Reports(s, l), IsEndNotice) == 0
  {
  }

  lemma FlagsChange(s: State, l: Label)
    requires !NewLoad(l)
    ensures var (t, e) := (Step(s, l), if l.Polled? then l.event else OtherChange);
      && t.load.failed == (s.load.failed || (e.EndFile? && Fails(s, e.reason)))
      && t.load.ended == (s.load.ended || (e.EndFile? && Normal(s, e.reason)))
  {
    StepFrame(s, l);
    if l.Load? { DrainFrame(s, l.queued); }
  }

  lemma StepNotices(s: State, l: Label)
    requires FlagInv(s) && EntriesInv(s) && s.generation != 0 && !NewLoad(l)
    requires s.load.failed <==> Count(s.log, |s.loads|, IsFailureNotice) > 0
    requires s.load.ended <==> Count(s.log, |s.loads|, IsEndNotice) > 0
    ensures var t := Step(s, l);
      && t.loads == s.loads && t.generation == s.generation
      && (t.load.failed <==> Count(t.log, |t.loads|, IsFailureNotice) > 0)
      && (t.load.ended <==> Count(t.log, |t.loads|, IsEndNotice) > 0)
  {
    ChangeFrame(s, l);
    StepFrame(s, l);
    FlagsChange(s, l);
    NotedCount(Change(s, l), Cause(l), Reports(s, l), |s.loads|, IsFailureNotice);
    NotedCount(Change(s, l), Cause(l), Reports(s, l), |s.loads|, IsEndNotice);
    if l.Polled? && l.event.EndFile? {
      var c := EndClock(s, l.event.reason);
      EndReportCounts(s, l.event.reason, c.position, c.duration, l.room);
    } else {
      OtherReports(s, l);
    }
  }

  // A load with a generation is marked as failed or ended if and only if that was reported.
  lemma {:induction false} MarksAreReported(labels: seq<Label>)
    requires Run(labels).generation != 0
    ensures var s := Run(labels);
      && (s.load.failed <==> Noticed(labels, IsFailureNotice) > 0)
      && (s.load.ended <==> Noticed(labels, IsEndNotice) > 0)
  {
    var rest, l := labels[..|labels| - 1], labels[|labels| - 1];
    var s := Run(rest);
    RunKeepsInv(rest);
    ChangeFrame(s, l);
    StepFrame(s, l);
    if NewLoad(l) {
      NoneCounted(s.log, |s.loads| + 1, IsFailureNotice);
      NoneCounted(s.log, |s.loads| + 1, IsEndNotice);
    } else {
      MarksAreReported(rest);
      StepNotices(s, l);
    }
  }

  // ----- how an end is reported -----

  function EntryOf(s: State, file: nat, r: Report): Entry { Entry(|s.loads|, s.generation, file, r) }

  // The reports that end a file join the log.
  lemma LogAfter(s: State, l: Label, reports: seq<Report>)
    requires !NewLoad(l) && Reports(s, l) == reports && |reports| <= 2
    ensures Step(s, l).log ==
      s.log + (if |reports| > 0 then [EntryOf(s, Cause(l), reports[0])] else []) +
              (if |reports| > 1 then [EntryOf(s, Cause(l), reports[1])] else [])
  {
    ChangeFrame(s, l);
    var c := Change(s, l);
    if |reports| == 1 {
      assert reports == [reports[0]];
      NotedOne(c, Cause(l), reports[0]);
    } else if |reports| == 2 {
      assert reports == [reports[0]] + [reports[1]];
      NotedAppend(c, Cause(l), [reports[0]], [reports[1]]);
      NotedOne(c, Cause(l), reports[0]);
      NotedOne(Noted(c, Cause(l), [reports[0]]), Cause(l), reports[1]);
    }
  }

  lemma RunMore(labels: seq<Label>, l: Label)
    ensures Run(labels + [l]) == Step(Run(labels), l)
  {
    assert (labels + [l])[..|labels|] == labels;
  }

  lemma NearEndLogs(s: State, file: nat, p: Place)
    requires s.generation != 0 && !s.load.pending && p == Place(Here(s.clock), Length(s.clock)) && NearEnd(p)
    ensures Step(s, Polled(EndFile(file, Eof), true)).log ==
      s.log + [EntryOf(s, file, Emitted(Kind.Ended, p.duration, p.duration))] + [EntryOf(s, file, EndNotice)]
  {
    LogAfter(s, Polled(EndFile(file, Eof), true), [Emitted(Kind.Ended, p.duration, p.duration), EndNotice]);
  }

  lemma FailureLogs(s: State, file: nat, reason: Reason, p: Place)
    requires s.generation != 0 && !s.load.pending && p == Place(Here(s.clock), Length(s.clock))
    requires reason == Error || (reason == Eof && !NearEnd(p))
    ensures Step(s, Polled(EndFile(file, reason), true)).log ==
      s.log + [EntryOf(s, file, Emitted(Kind.Failed, s.clock.position, s.clock.duration))] +
              if s.load.failed then [] else [EntryOf(s, file, FailureNotice)]
  {
    var e := Emitted(Kind.Failed, s.clock.position, s.clock.duration);
    LogAfter(s, Polled(EndFile(file, reason), true), if s.load.failed then [e] else [e, FailureNotice]);
  }

  lemma StopLogs(s: State, file: nat, reason: Reason)
    requires s.generation != 0 && !s.load.pending && reason != Eof && reason != Error
    ensures Step(s, Polled(EndFile(file, reason), true)).log ==
      s.log + [EntryOf(s, file, Emitted(Kind.Stopped, s.clock.position, s.clock.duration))]
  {
    LogAfter(s, Polled(EndFile(file, reason), true), [Emitted(Kind.Stopped, s.clock.position, s.clock.duration)]);
  }

  // What the labels say of a state.
  lemma StateIs(labels: seq<Label>)
    ensures var (s, p) := (Run(labels), PlaceOf(ToldOf(labels), ShownOf(labels)));
      && s.load.pending == CourseOf(labels).waiting
      && Place(s.clock.position, s.clock.duration) == ShownOf(labels)
      && Place(Here(s.clock), Length(s.clock)) == p
      && (s.generation != 0 ==> (s.load.failed <==> Noticed(labels, IsFailureNotice) > 0))
      && (s.generation != 0 ==> (s.load.ended <==> Noticed(labels, IsEndNotice) > 0))
  {
    FlagsAreOnCourse(labels);
    ToldIsKept(labels);
    ShownIsKept(labels);
    PlaceIs(Run(labels), ToldOf(labels));
    if Run(labels).generation != 0 { MarksAreReported(labels); }
  }

  // The end of the current file, by mpv's eof: it is a normal end, reported at the file's length,
  // if and only if the file has a length and at most 30 seconds of it are left. Otherwise it is a
  // failure, reported where the file was last shown, with a notice unless one was given.
  lemma EofExactly(labels: seq<Label>, file: nat)
    requires Run(labels).generation != 0 && !CourseOf(labels).waiting
    ensures var (s, shown, p) := (Run(labels), ShownOf(labels), PlaceOf(ToldOf(labels), ShownOf(labels)));
      Run(labels + [Polled(EndFile(file, Eof), true)]).log ==
        if p.duration > 0 && p.duration - p.position <= 30 then
          s.log + [EntryOf(s, file, Emitted(Kind.Ended, p.duration, p.duration))] + [EntryOf(s, file, EndNotice)]
        else
          s.log + [EntryOf(s, file, Emitted(Kind.Failed, shown.position, shown.duration))] +
            if Noticed(labels, IsFailureNotice) > 0 then [] else [EntryOf(s, file, FailureNotice)]
  {
    var (s, p) := (Run(labels), PlaceOf(ToldOf(labels), ShownOf(labels)));
    RunMore(labels, Polled(EndFile(file, Eof), true));
    StateIs(labels);
    if NearEnd(p) { NearEndLogs(s, file, p); } else { FailureLogs(s, file, Eof, p); }
  }

  // Any other end of the current file: an error is a failure, the rest are stops.
  lemma OtherEndsExactly(labels: seq<Label>, file: nat, reason: Reason)
    requires Run(labels).generation != 0 && !CourseOf(labels).waiting && reason != Eof
    ensures var (s, shown) := (Run(labels), ShownOf(labels));
      Run(labels + [Polled(EndFile(file, reason), true)]).log ==
        if reason == Error then
          s.log + [EntryOf(s, file, Emitted(Kind.Failed, shown.position, shown.duration))] +
            if Noticed(labels, IsFailureNotice) > 0 then [] else [EntryOf(s, file, FailureNotice)]
        else s.log + [EntryOf(s, file, Emitted(Kind.Stopped, shown.position, shown.duration))]
  {
    var (s, p) := (Run(labels), PlaceOf(ToldOf(labels), ShownOf(labels)));
    RunMore(labels, Polled(EndFile(file, reason), true));
    StateIs(labels);
    if reason == Error { FailureLogs(s, file, reason, p); } else { StopLogs(s, file, reason); }
  }

  // A tick reports the file's place, as paused or as progress, unless there is no room for the
  // event, or its load waits or has failed.
  lemma TickExactly(labels: seq<Label>, room: bool)
    requires Run(labels).generation != 0
    ensures var (s, t) := (Run(labels), ToldOf(labels));
      var p := TickPlace(Noticed(labels, IsEndNotice) > 0, t, ShownOf(labels));
      Run(labels + [Tick(room)]).log == s.log +
        if !room || CourseOf(labels).waiting || Noticed(labels, IsFailureNotice) > 0 then []
        else [EntryOf(s, 0, Emitted(if t.paused then Kind.Paused else Kind.Progress, p.position, p.duration))]
  {
    var s := Run(labels);
    RunMore(labels, Tick(room));
    CourseIsKept(labels);
    ToldIsKept(labels);
    ShownIsKept(labels);
    MarksAreReported(labels);
    LogAfter(s, Tick(room), Reports(s, Tick(room)));
  }

  // A snapshot answers with what mpv last said, else with what was last shown; with what was last
  // shown alone while the load waits or once it has ended; and not at all during a seek.
  lemma SnapshotExactly(labels: seq<Label>)
    ensures var (s, t, shown) := (Run(labels), ToldOf(labels), ShownOf(labels));
      SnapshotOf(s) ==
        if SeekOf(labels) != NoSeek then Busy
        else if CourseOf(labels).waiting || s.load.ended then Shot(shown.position, shown.duration, t.paused)
        else if Or(t.position, 0) < 0 || Or(t.duration, 0) < 0 then OutOfRange
        else Shot(Or(t.position, shown.position), Or(t.duration, shown.duration), t.paused)
  {
    CourseIsKept(labels);
    SeekIsKept(labels);
    ToldIsKept(labels);
    ShownIsKept(labels);
  }
}

// The mpv engine's flags: what is reported about a load, from its loadfile command to its end.
module Engine {
  import opened Options
  import opened PlaybackEvents

  // Positions and durations count seconds.
  const END_TOLERANCE: int := 30

  // ----- mpv's events -----

  datatype Reason = Eof | Stop | Quit | Error | Redirect

  // file is the load whose file the event is about; the engine never sees it. Property changes
  // carry a value or none.
  datatype MpvEvent =
    | TimePos(value: Option<int>)
    | DurationIs(value: Option<int>)
    | PauseIs(paused: bool)
    | OtherChange
    | Start(file: nat)
    | FileLoaded(file: nat)
    | SeekBegun(file: nat)
    | PlaybackRestart(file: nat)
    | EndFile(file: nat, reason: Reason)

  // ----- the engine's fields -----

  const FILE_LOADED: nat := 1
  const PLAYING: nat := 2

  // started is the last start stage reported for the current load, 0 for none yet.
  datatype LoadFlags = LoadFlags(pending: bool, pendingStarted: bool, ended: bool, failed: bool, started: nat)

  datatype SeekFlags = SeekFlags(pending: bool, started: bool)

  datatype Observed = Observed(position: int, positionKnown: bool, duration: int, durationKnown: bool)

  datatype Clock = Clock(position: int, duration: int, paused: bool, observed: Observed)

  datatype Report = Reached(stage: nat) | FailureNotice | EndNotice | Emitted(kind: Kind, position: int, duration: int)

  // What was reported, for which load, and the file whose event caused it (0 for a tick).
  datatype Entry = Entry(load: nat, generation: nat, cause: nat, report: Report)

  datatype LoadCall = LoadCall(generation: nat, startAt: int)

  // loads and log are histories.
  datatype State = State(generation: nat, load: LoadFlags, seek: SeekFlags, clock: Clock, loads: seq<LoadCall>,
                         log: seq<Entry>)

  const UNKNOWN := Observed(0, false, 0, false)

  const INITIAL := State(0, LoadFlags(false, false, false, false, 0), SeekFlags(false, false),
                         Clock(0, 0, false, UNKNOWN), [], [])

  function Noted(s: State, cause: nat, reports: seq<Report>): State
    decreases reports
  {
    if reports == [] then s
    else Noted(s.(log := s.log + [Entry(|s.loads|, s.generation, cause, reports[0])]), cause, reports[1..])
  }

  function Max(a: int, b: int): int { if a >= b then a else b }

  function Min(a: int, b: int): int { if a <= b then a else b }

  // ----- one polled event -----

  function ApplyProperty(c: Clock, seek: SeekFlags, e: MpvEvent): Clock {
    match e
    case TimePos(value) =>
      if seek.pending && !seek.started then c
      else c.(observed := c.observed.(position := if value.Some? then value.value else 0, positionKnown := value.Some?))
    case DurationIs(value) =>
      c.(observed := c.observed.(duration := if value.Some? then value.value else 0, durationKnown := value.Some?))
    case PauseIs(paused) => c.(paused := paused)
    case _ => c
  }

  function AdvanceSeek(seek: SeekFlags, e: MpvEvent): SeekFlags {
    if !seek.pending then seek
    else
      match e
      case SeekBegun(_) => seek.(started := true)
      case PlaybackRestart(_) => if seek.started then SeekFlags(false, false) else seek
      case EndFile(_, _) => SeekFlags(false, false)
      case _ => seek
  }

  function Here(c: Clock): int { if c.observed.positionKnown then Max(c.observed.position, 0) else c.position }

  function Length(c: Clock): int { if c.observed.durationKnown then Max(c.observed.duration, 0) else c.duration }

  predicate EndsNormally(reason: Reason, generation: nat, pending: bool, position: int, duration: int) {
    generation != 0 && !pending && reason == Eof && duration > 0 && duration - position <= END_TOLERANCE
  }

  predicate EndsEarly(reason: Reason, generation: nat, pending: bool, position: int, duration: int) {
    generation != 0 && !pending && reason == Eof && !EndsNormally(reason, generation, pending, position, duration)
  }

  predicate Normal(s: State, reason: Reason) {
    EndsNormally(reason, s.generation, s.load.pending, Here(s.clock), Length(s.clock))
  }

  predicate CutShort(s: State, reason: Reason) {
    EndsEarly(reason, s.generation, s.load.pending, Here(s.clock), Length(s.clock))
  }

  predicate Fails(s: State, reason: Reason) {
    (reason == Error && (!s.load.pending || s.load.pendingStarted)) || CutShort(s, reason)
  }

  // An end is reported unless it may belong to the file that a pending load replaces.
  predicate Reportable(s: State, reason: Reason) {
    s.generation != 0 && (s.load.pending ==> s.load.pendingStarted && reason == Error)
  }

  function EndKind(s: State, reason: Reason): Kind {
    if Normal(s, reason) then Ended else if reason == Error || CutShort(s, reason) then Failed else Stopped
  }

  // room: the engine's event channel had room for the event.
  function EndReports(s: State, reason: Reason, position: int, duration: int, room: bool): seq<Report> {
    if !Reportable(s, reason) then []
    else
      (if room then [Emitted(EndKind(s, reason), position, duration)] else []) +
      (if Fails(s, reason) && !s.load.failed then [FailureNotice] else []) +
      (if Normal(s, reason) then [EndNotice] else [])
  }

  function EndClock(s: State, reason: Reason): Clock {
    if Normal(s, reason) then s.clock.(duration := Length(s.clock), position := Length(s.clock)) else s.clock
  }

  function EndFlags(s: State, reason: Reason): LoadFlags {
    var over := s.load.pending && s.load.pendingStarted && reason == Error;
    LoadFlags(s.load.pending && !over, s.load.pendingStarted && !over, s.load.ended || Normal(s, reason),
              s.load.failed || Fails(s, reason), s.load.started)
  }

  function PollReports(s: State, e: MpvEvent, room: bool): seq<Report> {
    match e
    case FileLoaded(_) =>
      if s.load.pending && s.load.pendingStarted && s.generation != 0 then [Reached(FILE_LOADED)] else []
    case PlaybackRestart(_) =>
      if s.load.started == FILE_LOADED && s.generation != 0 then [Reached(PLAYING)] else []
    case EndFile(_, reason) => EndReports(s, reason, EndClock(s, reason).position, EndClock(s, reason).duration, room)
    case _ => []
  }

  function Poll(s: State, e: MpvEvent): State {
    var t := s.(clock := ApplyProperty(s.clock, s.seek, e), seek := AdvanceSeek(s.seek, e));
    match e
    case Start(_) =>
      if !s.load.pending then t
      else t.(load := s.load.(pendingStarted := true), clock := t.clock.(observed := UNKNOWN))
    case FileLoaded(_) =>
      var reached := s.load.pending && s.load.pendingStarted && s.generation != 0;
      t.(load := s.load.(pending := false, pendingStarted := false,
                         started := if reached then FILE_LOADED else s.load.started))
    case PlaybackRestart(_) =>
      if s.load.started == FILE_LOADED && s.generation != 0 then t.(load := s.load.(started := PLAYING)) else t
    case EndFile(_, reason) => t.(load := EndFlags(s, reason), clock := EndClock(s, reason))
    case _ => t
  }

  // ----- loads, ticks, seeks, snapshots -----

  // Events still queued when Load is called are dropped, but for the properties they carry.
  function Drain(s: State, queued: seq<MpvEvent>): State
    decreases queued
  {
    if queued == [] then s else Drain(s.(clock := ApplyProperty(s.clock, s.seek, queued[0])), queued[1..])
  }

  function Loaded(s: State, generation: nat, startAt: int, paused: bool): State {
    State(generation, LoadFlags(true, false, false, false, 0), SeekFlags(false, false),
          Clock(startAt, 0, paused, UNKNOWN),
          s.loads + [LoadCall(generation, startAt)], s.log)
  }

  function TickClock(s: State): Clock {
    if s.load.ended then s.clock.(position := s.clock.duration)
    else s.clock.(position := Here(s.clock), duration := if s.clock.observed.durationKnown then Length(s.clock) else 0)
  }

  // The part of tick after its polling.
  function Ticked(s: State): State {
    if s.load.pending || s.load.failed then s else s.(clock := TickClock(s))
  }

  function TickReports(s: State, room: bool): seq<Report> {
    var c := TickClock(s);
    if s.load.pending || s.load.failed || s.generation == 0 || !room then []
    else [Emitted(if c.paused then Paused else Progress, c.position, c.duration)]
  }

  function SeekTarget(c: Clock, value: int, absolute: bool): int {
    var current := if c.observed.positionKnown then c.observed.position else c.position;
    var target := Max(if absolute then value else value + current, 0);
    if c.observed.durationKnown then Min(target, c.observed.duration) else target
  }

  // ok: mpv accepted the seek command.
  function Seeked(s: State, value: int, absolute: bool, ok: bool): State {
    if !ok then s.(seek := SeekFlags(false, false))
    else
      s.(seek := SeekFlags(true, false),
         clock := s.clock.(observed := s.clock.observed.(position := SeekTarget(s.clock, value, absolute),
                                                         positionKnown := true)))
  }

  datatype Shot = Busy | OutOfRange | Shot(position: int, duration: int, paused: bool)

  predicate Live(s: State) { !s.load.pending && !s.load.ended }

  function SnapshotOf(s: State): Shot {
    var (o, live) := (s.clock.observed, Live(s));
    if s.seek.pending then Busy
    else if live && ((o.positionKnown && o.position < 0) || (o.durationKnown && o.duration < 0)) then OutOfRange
    else
      Shot(if live && o.positionKnown then o.position else s.clock.position,
           if live && o.durationKnown then o.duration else s.clock.duration, s.clock.paused)
  }

  function Snapped(s: State): State {
    match SnapshotOf(s)
    case Shot(position, duration, _) => s.(clock := s.clock.(position := position, duration := duration))
    case _ => s
  }

  datatype Label =
    | Load(queued: seq<MpvEvent>, ok: bool, generation: nat, startAt: int, paused: bool)
    | Polled(event: MpvEvent, room: bool)
    | Tick(room: bool)
    | Seek(value: int, absolute: bool, ok: bool)
    | SetPaused(paused: bool)
    | Snapshot
    | SnapshotTimeout

  // What a label changes, and what it reports for the load that is then current.
  function Change(s: State, l: Label): State {
    match l
    case Load(queued, ok, generation, startAt, paused) =>
      if ok then Loaded(Drain(s, queued), generation, startAt, paused) else Drain(s, queued)
    case Polled(e, _) => Poll(s, e)
    case Tick(_) => Ticked(s)
    case Seek(value, absolute, ok) => Seeked(s, value, absolute, ok)
    case SetPaused(paused) => s.(clock := s.clock.(paused := paused))
    case Snapshot => Snapped(s)
    case SnapshotTimeout => s.(seek := SeekFlags(false, false))
  }

  function Reports(s: State, l: Label): seq<Report> {
    match l
    case Polled(e, room) => PollReports(s, e, room)
    case Tick(room) => TickReports(s, room)
    case _ => []
  }

  function FileOf(e: MpvEvent): nat {
    match e
    case Start(file) => file
    case FileLoaded(file) => file
    case SeekBegun(file) => file
    case PlaybackRestart(file) => file
    case EndFile(file, _) => file
    case _ => 0
  }

  function Cause(l: Label): nat { if l.Polled? then FileOf(l.event) else 0 }

  function Step(s: State, l: Label): State { Noted(Change(s, l), Cause(l), Reports(s, l)) }

  function Run(labels: seq<Label>): State {
    if labels == [] then INITIAL else Step(Run(labels[..|labels| - 1]), labels[|labels| - 1])
  }

  // ----- the reports of one load -----

  function Stages(log: seq<Entry>, load: nat): seq<nat> {
    if log == [] then []
    else
      var e := log[|log| - 1];
      Stages(log[..|log| - 1], load) + if e.load == load && e.report.Reached? then [e.report.stage] else []
  }

  // Notices that the load is over, and events that say so.
  predicate IsNotice(r: Report) { r.FailureNotice? || r.EndNotice? }

  predicate IsTerminalEvent(r: Report) { r.Emitted? && IsTerminal(r.kind) }

  function Count(log: seq<Entry>, load: nat, which: Report -> bool): nat {
    if log == [] then 0
    else
      var e := log[|log| - 1];
      Count(log[..|log| - 1], load, which) + if e.load == load && which(e.report) then 1 else 0
  }

  function CountIn(reports: seq<Report>, which: Report -> bool): nat {
    if reports == [] then 0 else (if which(reports[0]) then 1 else 0) + CountIn(reports[1..], which)
  }

  lemma {:induction false} NotedCount(s: State, cause: nat, reports: seq<Report>, load: nat, which: Report -> bool)
    ensures Count(Noted(s, cause, reports).log, load, which) ==
      Count(s.log, load, which) + if load == |s.loads| then CountIn(reports, which) else 0
    decreases reports
  {
    if reports != [] {
      var t := s.(log := s.log + [Entry(|s.loads|, s.generation, cause, reports[0])]);
      assert t.log[..|t.log| - 1] == s.log;
      NotedCount(t, cause, reports[1..], load, which);
    }
  }

  lemma {:induction false} NotedStages(s: State, cause: nat, reports: seq<Report>, load: nat)
    requires |reports| == 1 || forall i :: 0 <= i < |reports| ==> !reports[i].Reached?
    ensures Stages(Noted(s, cause, reports).log, load) ==
      Stages(s.log, load) +
      if load == |s.loads| && |reports| == 1 && reports[0].Reached? then [reports[0].stage] else []
    decreases reports
  {
    if reports != [] {
      var t := s.(log := s.log + [Entry(|s.loads|, s.generation, cause, reports[0])]);
      assert t.log[..|t.log| - 1] == s.log;
      NotedStages(t, cause, reports[1..], load);
    }
  }

  // Noting only appends entries of the current load.
  lemma {:induction false} NotedFrame(s: State, cause: nat, reports: seq<Report>)
    ensures var t := Noted(s, cause, reports);
      && t == s.(log := t.log) && |t.log| == |s.log| + |reports| && t.log[..|s.log|] == s.log
      && forall i :: 0 <= i < |reports| ==> t.log[|s.log| + i] == Entry(|s.loads|, s.generation, cause, reports[i])
    decreases reports
  {
    if reports != [] {
      var u := s.(log := s.log + [Entry(|s.loads|, s.generation, cause, reports[0])]);
      NotedFrame(u, cause, reports[1..]);
      var t := Noted(s, cause, reports);
      assert t.log[..|s.log|] == t.log[..|u.log|][..|s.log|];
      assert t.log[|s.log|] == t.log[..|u.log|][|s.log|];
    }
  }

  lemma {:induction false} NotedAppend(s: State, cause: nat, a: seq<Report>, b: seq<Report>)
    ensures Noted(s, cause, a + b) == Noted(Noted(s, cause, a), cause, b)
    decreases a
  {
    if a == [] {
      assert a + b == b;
    } else {
      assert (a + b)[1..] == a[1..] + b;
      NotedAppend(s.(log := s.log + [Entry(|s.loads|, s.generation, cause, a[0])]), cause, a[1..], b);
    }
  }

  lemma NotedOne(s: State, cause: nat, r: Report)
    ensures Noted(s, cause, [r]) == s.(log := s.log + [Entry(|s.loads|, s.generation, cause, r)])
  {
    assert [r][1..] == [];
  }

  lemma {:induction false} NoneCounted(log: seq<Entry>, load: nat, which: Report -> bool)
    requires forall i :: 0 <= i < |log| ==> log[i].load != load
    ensures Count(log, load, which) == 0 && Stages(log, load) == []
  {
    if log != [] { NoneCounted(log[..|log| - 1], load, which); }
  }

  lemma {:induction false} DrainFrame(s: State, queued: seq<MpvEvent>)
    ensures var t := Drain(s, queued);
      && t == s.(clock := t.clock) && t.clock.position == s.clock.position && t.clock.duration == s.clock.duration
    decreases queued
  {
    if queued != [] { DrainFrame(s.(clock := ApplyProperty(s.clock, s.seek, queued[0])), queued[1..]); }
  }

  predicate NewLoad(l: Label) { l.Load? && l.ok }

  // Only a new load changes what reports are about.
  lemma ChangeFrame(s: State, l: Label)
    ensures Change(s, l).log == s.log
    ensures !NewLoad(l) ==> Change(s, l).loads == s.loads && Change(s, l).generation == s.generation
    ensures NewLoad(l) ==> Change(s, l).loads == s.loads + [LoadCall(l.generation, l.startAt)] && Reports(s, l) == []
  {
    if l.Load? { DrainFrame(s, l.queued); }
  }

  lemma StepFrame(s: State, l: Label)
    ensures var (t, u) := (Step(s, l), Change(s, l));
      && t == u.(log := t.log) && |t.log| == |s.log| + |Reports(s, l)| && t.log[..|s.log|] == s.log
      && forall i :: 0 <= i < |Reports(s, l)| ==>
        t.log[|s.log| + i] == Entry(|u.loads|, u.generation, Cause(l), Reports(s, l)[i])
  {
    ChangeFrame(s, l);
    NotedFrame(Change(s, l), Cause(l), Reports(s, l));
  }

  // ----- the flags -----

  predicate FlagInv(s: State) {
    && (s.load.pendingStarted ==> s.load.pending)
    && (s.seek.started ==> s.seek.pending)
    && s.load.started <= PLAYING
    && (s.load.pending ==> !s.load.ended && !s.load.failed && s.load.started == 0)
    && (s.load.pending ==> s.loads != [] && s.clock.position == s.loads[|s.loads| - 1].startAt && s.clock.duration == 0)
    && (s.load.ended ==> s.clock.position == s.clock.duration)
    && s.generation == if s.loads == [] then 0 else s.loads[|s.loads| - 1].generation
  }

  lemma FlagSteps(s: State, l: Label)
    requires FlagInv(s)
    ensures FlagInv(Step(s, l))
  {
    StepFrame(s, l);
    ChangeFrame(s, l);
    match l
    case Load(queued, _, _, _, _) => DrainFrame(s, queued);
    case Polled(e, _) => PollKeepsFlags(s, e);
    case _ =>
  }

  lemma PollKeepsFlags(s: State, e: MpvEvent)
    requires FlagInv(s)
    ensures FlagInv(Poll(s, e))
  {
  }

  // ----- the log -----

  predicate IsFailureNotice(r: Report) { r.FailureNotice? }

  predicate IsStages(stages: seq<nat>) { stages == [] || stages == [FILE_LOADED] || stages == [FILE_LOADED, PLAYING] }

  function StagesUpTo(started: nat): seq<nat> {
    if started == 0 then [] else if started == FILE_LOADED then [FILE_LOADED] else [FILE_LOADED, PLAYING]
  }

  // Entries carry their load's generation, and there are none for a pending load.
  ghost predicate EntriesInv(s: State) {
    && (forall i :: 0 <= i < |s.log| ==>
          && 0 < s.log[i].load <= |s.loads|
          && s.log[i].generation == s.loads[s.log[i].load - 1].generation != 0)
    && (s.load.pending ==> forall i :: 0 <= i < |s.log| ==> s.log[i].load != |s.loads|)
  }

  ghost predicate StagesInv(s: State) {
    && (forall load: nat :: IsStages(Stages(s.log, load)))
    && Stages(s.log, |s.loads|) == StagesUpTo(s.load.started)
  }

  ghost predicate FailureInv(s: State) {
    && (forall load: nat :: Count(s.log, load, IsFailureNotice) <= 1)
    && (Count(s.log, |s.loads|, IsFailureNotice) > 0 ==> s.load.failed)
  }

  lemma ReportsArePlain(s: State, l: Label)
    ensures |Reports(s, l)| == 1 || forall i :: 0 <= i < |Reports(s, l)| ==> !Reports(s, l)[i].Reached?
  {
  }

  lemma PendingReports(s: State, l: Label)
    requires FlagInv(s)
    ensures Reports(s, l) != [] ==> s.loads != [] && s.generation != 0 && !Step(s, l).load.pending
  {
    StepFrame(s, l);
  }

  lemma EntriesSteps(s: State, l: Label)
    requires FlagInv(s) && EntriesInv(s)
    ensures EntriesInv(Step(s, l))
  {
    StepFrame(s, l);
    ChangeFrame(s, l);
    PendingReports(s, l);
    var t := Step(s, l);
    if l.Load? { DrainFrame(s, l.queued); }
    forall i | 0 <= i < |t.log|
      ensures 0 < t.log[i].load <= |t.loads| && t.log[i].generation == t.loads[t.log[i].load - 1].generation != 0
      ensures t.load.pending ==> t.log[i].load != |t.loads|
    {
      if i < |s.log| {
        assert t.log[i] == t.log[..|s.log|][i] == s.log[i];
      } else {
        var j := i - |s.log|;
        assert t.log[|s.log| + j] == Entry(|t.loads|, t.generation, Cause(l), Reports(s, l)[j]);
      }
    }
  }

  predicate ReportsStage(reports: seq<Report>) { |reports| == 1 && reports[0].Reached? }

  // A stage is reported when it is the next one.
  lemma StageIsNext(s: State, l: Label)
    requires FlagInv(s) && !NewLoad(l)
    ensures StagesUpTo(Step(s, l).load.started) ==
      StagesUpTo(s.load.started) + if ReportsStage(Reports(s, l)) then [Reports(s, l)[0].stage] else []
  {
    StepFrame(s, l);
    match l
    case Load(queued, _, _, _, _) => DrainFrame(s, queued);
    case Polled(e, room) => PolledStageIsNext(s, e, room);
    case _ =>
  }

  lemma PolledStageIsNext(s: State, e: MpvEvent, room: bool)
    requires FlagInv(s)
    ensures var reports := PollReports(s, e, room);
      StagesUpTo(Poll(s, e).load.started) ==
      StagesUpTo(s.load.started) + if ReportsStage(reports) then [reports[0].stage] else []
  {
  }

  lemma StagesSteps(s: State, l: Label)
    requires FlagInv(s) && EntriesInv(s) && StagesInv(s)
    ensures StagesInv(Step(s, l))
  {
    var t, u := Step(s, l), Change(s, l);
    FlagSteps(s, l);
    StepFrame(s, l);
    ChangeFrame(s, l);
    ReportsArePlain(s, l);
    if NewLoad(l) {
      NoneCounted(s.log, |t.loads|, IsFailureNotice);
      assert t.log == s.log;
    } else {
      StageIsNext(s, l);
      forall load: nat
        ensures IsStages(Stages(t.log, load))
        ensures load == |t.loads| ==> Stages(t.log, load) == StagesUpTo(t.load.started)
      {
        NotedStages(u, Cause(l), Reports(s, l), load);
        assert IsStages(Stages(s.log, load));
      }
    }
  }

  lemma FailureSteps(s: State, l: Label)
    requires FlagInv(s) && EntriesInv(s) && FailureInv(s)
    ensures FailureInv(Step(s, l))
  {
    StepFrame(s, l);
    ChangeFrame(s, l);
    forall load: nat { NotedCount(Change(s, l), Cause(l), Reports(s, l), load, IsFailureNotice); }
    FailuresReported(s, l);
    if l.Load? {
      DrainFrame(s, l.queued);
      NoneCounted(s.log, |s.loads| + 1, IsFailureNotice);
    }
  }

  lemma FailuresReported(s: State, l: Label)
    ensures CountIn(Reports(s, l), IsFailureNotice) <= 1
    ensures CountIn(Reports(s, l), IsFailureNotice) == 1 ==> !s.load.failed && Step(s, l).load.failed
    ensures !NewLoad(l) && s.load.failed ==> Step(s, l).load.failed
  {
    StepFrame(s, l);
    if l.Load? { DrainFrame(s, l.queued); }
    if l.Polled? && l.event.EndFile? {
      var c := EndClock(s, l.event.reason);
      EndCounts(s, l.event.reason, c.position, c.duration, l.room);
    }
  }

  lemma EndCounts(s: State, reason: Reason, position: int, duration: int, room: bool)
    ensures var reports := EndReports(s, reason, position, duration, room);
      && CountIn(reports, IsFailureNotice) ==
         (if Reportable(s, reason) && Fails(s, reason) && !s.load.failed then 1 else 0)
      && CountIn(reports, IsNotice) <= (if Reportable(s, reason) then 1 else 0)
      && CountIn(reports, IsTerminalEvent) == (if Reportable(s, reason) && room then 1 else 0)
  {
    if Reportable(s, reason) {
      var e := if room then [Emitted(EndKind(s, reason), position, duration)] else [];
      var f := if Fails(s, reason) && !s.load.failed then [FailureNotice] else [];
      var n := if Normal(s, reason) then [EndNotice] else [];
      CountThree(e, f, n, IsFailureNotice);
      CountThree(e, f, n, IsNotice);
      CountThree(e, f, n, IsTerminalEvent);
      assert EndReports(s, reason, position, duration, room) == e + f + n;
      assert Normal(s, reason) ==> !Fails(s, reason);
    }
  }

  lemma CountThree(a: seq<Report>, b: seq<Report>, c: seq<Report>, which: Report -> bool)
    ensures CountIn(a + b + c, which) == CountIn(a, which) + CountIn(b, which) + CountIn(c, which)
  {
    CountAppend(a + b, c, which);
    CountAppend(a, b, which);
  }

  lemma {:induction false} CountAppend(a: seq<Report>, b: seq<Report>, which: Report -> bool)
    ensures CountIn(a + b, which) == CountIn(a, which) + CountIn(b, which)
  {
    if a == [] {
      assert a + b == b;
    } else {
      assert (a + b)[1..] == a[1..] + b;
      CountAppend(a[1..], b, which);
    }
  }

  ghost predicate Inv(s: State) { FlagInv(s) && EntriesInv(s) && StagesInv(s) && FailureInv(s) }

  lemma {:induction false} RunKeepsInv(labels: seq<Label>)
    ensures Inv(Run(labels))
  {
    if labels != [] {
      var (s, l) := (Run(labels[..|labels| - 1]), labels[|labels| - 1]);
      RunKeepsInv(labels[..|labels| - 1]);
      FlagSteps(s, l);
      EntriesSteps(s, l);
      StagesSteps(s, l);
      FailureSteps(s, l);
    }
  }

  // For every sequence of loads, mpv events, seeks and ticks: each load reports its start stages
  // in order and once each, and at most one failure.
  lemma EachLoadReportsOnce(labels: seq<Label>, load: nat)
    ensures IsStages(Stages(Run(labels).log, load))
    ensures Count(Run(labels).log, load, IsFailureNotice) <= 1
  {
    RunKeepsInv(labels);
  }

  lemma FlagsImply(labels: seq<Label>)
    ensures var s := Run(labels);
      && (s.load.pendingStarted ==> s.load.pending)
      && (s.seek.started ==> s.seek.pending)
  {
    RunKeepsInv(labels);
  }

  // While a load is pending nothing at all was reported for it, and snapshots show its requested
  // start. What a step then reports ends the pending state: the load's file was opened, or its
  // own failure after its start, at the requested start.
  lemma PendingIsSilent(labels: seq<Label>, l: Label)
    requires Run(labels).load.pending
    ensures Run(labels).loads != []
    ensures var s := Run(labels); var startAt := s.loads[|s.loads| - 1].startAt;
      && (forall i :: 0 <= i < |s.log| ==> s.log[i].load != |s.loads|)
      && SnapshotOf(s) in {Busy, Shot(startAt, 0, s.clock.paused)}
      && (Reports(s, l) != [] ==>
            && s.load.pendingStarted && l.Polled? && !Step(s, l).load.pending
            && ((l.event.FileLoaded? && Reports(s, l) == [Reached(FILE_LOADED)]) ||
                (l.event.EndFile? && l.event.reason == Error &&
                 Reports(s, l) == (if l.room then [Emitted(Failed, startAt, 0)] else []) + [FailureNotice])))
  {
    RunKeepsInv(labels);
    if Reports(Run(labels), l) != [] { PendingReportsExactly(Run(labels), l); }
  }

  lemma PendingReportsExactly(s: State, l: Label)
    requires FlagInv(s) && s.load.pending && Reports(s, l) != []
    ensures s.load.pendingStarted && l.Polled? && !Step(s, l).load.pending
    ensures (l.event.FileLoaded? && Reports(s, l) == [Reached(FILE_LOADED)]) ||
            (l.event.EndFile? && l.event.reason == Error &&
             Reports(s, l) ==
               (if l.room then [Emitted(Failed, s.loads[|s.loads| - 1].startAt, 0)] else []) + [FailureNotice])
  {
    StepFrame(s, l);
  }

  // After a normal end, snapshots and ticks show the end, whatever mpv reports, until the next load.
  lemma EndedStaysAtEnd(labels: seq<Label>)
    requires Run(labels).load.ended
    ensures var s := Run(labels);
      && SnapshotOf(s) in {Busy, Shot(s.clock.duration, s.clock.duration, s.clock.paused)}
      && TickClock(s) == s.clock
  {
    RunKeepsInv(labels);
  }

  // ----- whose event it was -----

  // What mpv promises: one file at a time, each with a start, then possibly its opening, then an end.
  datatype Phase = Idle | Opening | Open | Over

  datatype Feed = Feed(file: nat, phase: Phase)

  predicate Allows(f: Feed, e: MpvEvent, loads: nat) {
    match e
    case Start(file) => f.file < file <= loads && f.phase in {Idle, Over}
    case FileLoaded(file) => file == f.file && f.phase == Opening
    case SeekBegun(file) => file == f.file && f.phase == Open
    case PlaybackRestart(file) => file == f.file && f.phase == Open
    case EndFile(file, _) => file == f.file && f.phase in {Opening, Open}
    case _ => true
  }

  function Fed(f: Feed, e: MpvEvent): Feed {
    match e
    case Start(file) => Feed(file, Opening)
    case FileLoaded(_) => f.(phase := Open)
    case EndFile(_, _) => f.(phase := Over)
    case _ => f
  }

  predicate AllAllowed(f: Feed, queued: seq<MpvEvent>, loads: nat)
    decreases queued
  {
    queued == [] || (Allows(f, queued[0], loads) && AllAllowed(Fed(f, queued[0]), queued[1..], loads))
  }

  function FedAll(f: Feed, queued: seq<MpvEvent>): Feed
    decreases queued
  {
    if queued == [] then f else FedAll(Fed(f, queued[0]), queued[1..])
  }

  predicate AllowsLabel(f: Feed, l: Label, loads: nat) {
    match l
    case Polled(e, _) => Allows(f, e, loads)
    case Load(queued, _, _, _, _) => AllAllowed(f, queued, loads)
    case _ => true
  }

  function FeedStep(f: Feed, l: Label): Feed {
    match l
    case Polled(e, _) => Fed(f, e)
    case Load(queued, _, _, _, _) => FedAll(f, queued)
    case _ => f
  }

  function FeedOf(labels: seq<Label>): Feed {
    if labels == [] then Feed(0, Idle) else FeedStep(FeedOf(labels[..|labels| - 1]), labels[|labels| - 1])
  }

  // The run keeps to what mpv promises.
  predicate Legal(labels: seq<Label>) {
    labels == [] ||
    var before := labels[..|labels| - 1];
    Legal(before) && AllowsLabel(FeedOf(before), labels[|labels| - 1], |Run(before).loads|)
  }

  // The events that end a load's waiting: a file-loaded, and an error once some start was polled.
  predicate EndsWaiting(s: State, e: MpvEvent) {
    s.load.pending && (e.FileLoaded? || (e.EndFile? && e.reason == Error && s.load.pendingStarted))
  }

  // A waiting load is let go by its own file only. A start of a replaced file may come late.
  predicate IsFresh(s: State, l: Label) {
    l.Polled? && EndsWaiting(s, l.event) ==> FileOf(l.event) == |s.loads|
  }

  predicate Fresh(labels: seq<Label>) {
    labels == [] ||
    var before := labels[..|labels| - 1];
    Fresh(before) && IsFresh(Run(before), labels[|labels| - 1])
  }

  lemma {:induction false} FedAllFile(f: Feed, queued: seq<MpvEvent>, loads: nat)
    requires AllAllowed(f, queued, loads) && f.file <= loads
    ensures var g := FedAll(f, queued);
      f.file <= g.file <= loads && (g.file == f.file && f.phase in {Open, Over} ==> g.phase in {Open, Over})
      && (g.file == f.file && f.phase == Over ==> g == f)
    decreases queued
  {
    if queued != [] { FedAllFile(Fed(f, queued[0]), queued[1..], loads); }
  }

  ghost predicate OwnFile(s: State, f: Feed) {
    && f.file <= |s.loads|
    && (s.loads != [] && !s.load.pending ==> f.file == |s.loads| && f.phase in {Open, Over})
  }

  ghost predicate OwnLog(s: State, f: Feed) {
    && (forall i :: 0 <= i < |s.log| ==> s.log[i].cause in {0, s.log[i].load})
    && (forall load: nat :: Count(s.log, load, IsNotice) <= 1 && Count(s.log, load, IsTerminalEvent) <= 1)
    && (Count(s.log, |s.loads|, IsNotice) + Count(s.log, |s.loads|, IsTerminalEvent) > 0 ==> f == Feed(|s.loads|, Over))
  }

  lemma OwnFileSteps(s: State, f: Feed, l: Label)
    requires FlagInv(s) && OwnFile(s, f)
    requires AllowsLabel(f, l, |s.loads|) && IsFresh(s, l)
    ensures OwnFile(Step(s, l), FeedStep(f, l))
  {
    StepFrame(s, l);
    if l.Load? {
      DrainFrame(s, l.queued);
      FedAllFile(f, l.queued, |s.loads|);
    }
  }

  // A report other than a tick's is caused by the current load's file, which was not over yet.
  lemma ReportsAreOwn(s: State, f: Feed, l: Label)
    requires FlagInv(s) && OwnFile(s, f)
    requires AllowsLabel(f, l, |s.loads|) && IsFresh(s, l)
    requires Reports(s, l) != []
    ensures Cause(l) in {0, |s.loads|} && !NewLoad(l)
    ensures var ends := CountIn(Reports(s, l), IsNotice) + CountIn(Reports(s, l), IsTerminalEvent);
      ends > 0 ==> f.phase != Over && FeedStep(f, l) == Feed(|s.loads|, Over)
    ensures CountIn(Reports(s, l), IsNotice) <= 1 && CountIn(Reports(s, l), IsTerminalEvent) <= 1
  {
    if l.Polled? && l.event.EndFile? {
      var c := EndClock(s, l.event.reason);
      EndCounts(s, l.event.reason, c.position, c.duration, l.room);
    }
  }

  lemma OwnLogSteps(s: State, f: Feed, l: Label)
    requires FlagInv(s) && EntriesInv(s) && OwnFile(s, f) && OwnLog(s, f)
    requires AllowsLabel(f, l, |s.loads|) && IsFresh(s, l)
    ensures OwnLog(Step(s, l), FeedStep(f, l))
  {
    StepFrame(s, l);
    ChangeFrame(s, l);
    var (t, u, r) := (Step(s, l), Change(s, l), Reports(s, l));
    if r != [] { ReportsAreOwn(s, f, l); }
    if NewLoad(l) {
      NoneCounted(s.log, |t.loads|, IsNotice);
      NoneCounted(s.log, |t.loads|, IsTerminalEvent);
      assert t.log == s.log;
    } else {
      forall load: nat
        ensures Count(t.log, load, IsNotice) ==
          Count(s.log, load, IsNotice) + if load == |s.loads| then CountIn(r, IsNotice) else 0
        ensures Count(t.log, load, IsTerminalEvent) ==
          Count(s.log, load, IsTerminalEvent) + if load == |s.loads| then CountIn(r, IsTerminalEvent) else 0
      {
        NotedCount(u, Cause(l), r, load, IsNotice);
        NotedCount(u, Cause(l), r, load, IsTerminalEvent);
      }
      if l.Load? { FedAllFile(f, l.queued, |s.loads|); }
    }
    CausesStay(s, l);
  }

  lemma CausesStay(s: State, l: Label)
    requires forall i :: 0 <= i < |s.log| ==> s.log[i].cause in {0, s.log[i].load}
    requires Reports(s, l) != [] ==> Cause(l) in {0, |s.loads|} && !NewLoad(l)
    ensures var t := Step(s, l); forall i :: 0 <= i < |t.log| ==> t.log[i].cause in {0, t.log[i].load}
  {
    StepFrame(s, l);
    ChangeFrame(s, l);
    var (t, u, r) := (Step(s, l), Change(s, l), Reports(s, l));
    forall i | 0 <= i < |t.log| ensures t.log[i].cause in {0, t.log[i].load} {
      if i < |s.log| {
        assert t.log[i] == t.log[..|s.log|][i] == s.log[i];
      } else {
        var j := i - |s.log|;
        assert t.log[|s.log| + j] == Entry(|u.loads|, u.generation, Cause(l), r[j]);
      }
    }
  }

  lemma {:induction false} FreshRunIsOwn(labels: seq<Label>)
    requires Legal(labels) && Fresh(labels)
    ensures OwnFile(Run(labels), FeedOf(labels)) && OwnLog(Run(labels), FeedOf(labels))
  {
    if labels != [] {
      var before := labels[..|labels| - 1];
      FreshRunIsOwn(before);
      RunKeepsInv(before);
      OwnFileSteps(Run(before), FeedOf(before), labels[|labels| - 1]);
      OwnLogSteps(Run(before), FeedOf(before), labels[|labels| - 1]);
    }
  }

  // Something was reported for the current load.
  ghost predicate HasEntry(s: State) { exists i :: 0 <= i < |s.log| && s.log[i].load == |s.loads| }

  // No report was caused by another load's file, and nothing was reported for the current load
  // before its own file was opened or failed.
  ghost predicate Sound(labels: seq<Label>) { SoundAt(Run(labels), FeedOf(labels)) }

  ghost predicate SoundAt(s: State, f: Feed) {
    && (forall i :: 0 <= i < |s.log| ==> s.log[i].cause in {0, s.log[i].load})
    && (HasEntry(s) ==> f.file == |s.loads| && f.phase in {Open, Over})
  }

  // Where only its own file lets a waiting load go, every report of a load stems from that load's
  // own file, and each load ends at most once, with one notice and one terminal event.
  lemma ReportsStayWithTheirLoad(labels: seq<Label>)
    requires Legal(labels) && Fresh(labels)
    ensures Sound(labels)
    ensures forall load: nat ::
      Count(Run(labels).log, load, IsNotice) <= 1 && Count(Run(labels).log, load, IsTerminalEvent) <= 1
  {
    FreshRunIsOwn(labels);
    RunKeepsInv(labels);
  }

  predicate NumberedLoads(labels: seq<Label>) {
    forall i :: 0 <= i < |labels| && labels[i].Load? ==> labels[i].generation != 0
  }

  lemma {:induction false} LoadsAreNumbered(labels: seq<Label>)
    requires NumberedLoads(labels)
    ensures forall i :: 0 <= i < |Run(labels).loads| ==> Run(labels).loads[i].generation != 0
  {
    if labels != [] {
      var before, l := labels[..|labels| - 1], labels[|labels| - 1];
      LoadsAreNumbered(before);
      StepFrame(Run(before), l);
      ChangeFrame(Run(before), l);
    }
  }

  lemma {:induction false} PrefixKeeps(labels: seq<Label>, n: nat)
    requires n <= |labels|
    ensures Legal(labels) ==> Legal(labels[..n])
    ensures Fresh(labels) ==> Fresh(labels[..n])
  {
    if n < |labels| {
      PrefixKeeps(labels[..|labels| - 1], n);
      assert labels[..|labels| - 1][..n] == labels[..n];
    } else {
      assert labels[..n] == labels;
    }
  }

  lemma {:induction false} FirstStale(labels: seq<Label>) returns (n: nat)
    requires !Fresh(labels)
    ensures n < |labels| && Fresh(labels[..n]) && !IsFresh(Run(labels[..n]), labels[n])
  {
    var before := labels[..|labels| - 1];
    if Fresh(before) {
      n := |before|;
    } else {
      n := FirstStale(before);
      assert before[..n] == labels[..n];
    }
  }

  lemma TickAppended(labels: seq<Label>)
    ensures var more := labels + [Tick(true)];
      && Run(more) == Step(Run(labels), Tick(true)) && FeedOf(more) == FeedOf(labels)
      && (Legal(labels) ==> Legal(more)) && (Fresh(labels) ==> Fresh(more))
  {
    assert (labels + [Tick(true)])[..|labels|] == labels;
  }

  lemma NextTickReports(s: State)
    requires !s.load.pending && !s.load.failed && s.generation != 0
    ensures HasEntry(Step(s, Tick(true)))
  {
    var t := Step(s, Tick(true));
    StepFrame(s, Tick(true));
    assert Reports(s, Tick(true)) != [];
    assert t.log[|s.log| + 0] == Entry(|s.loads|, s.generation, 0, Reports(s, Tick(true))[0]);
  }

  // A waiting load that another file lets go misreports at once, or with the next tick.
  lemma StaleEventMisreports(s: State, f: Feed, l: Label)
    requires FlagInv(s) && OwnFile(s, f) && s.generation != 0
    requires AllowsLabel(f, l, |s.loads|) && !IsFresh(s, l)
    ensures !SoundAt(Step(s, l), FeedStep(f, l)) || !SoundAt(Step(Step(s, l), Tick(true)), FeedStep(f, l))
  {
    if l.event.FileLoaded? {
      OpeningLeaks(s, l);
    } else {
      FailureReported(s, l);
    }
  }

  lemma OpeningLeaks(s: State, l: Label)
    requires FlagInv(s) && s.load.pending && s.generation != 0 && l.Polled? && l.event.FileLoaded?
    ensures var t := Step(Step(s, l), Tick(true)); HasEntry(t) && t.loads == s.loads
  {
    StepFrame(s, l);
    NextTickReports(Step(s, l));
    StepFrame(Step(s, l), Tick(true));
  }

  lemma FailureReported(s: State, l: Label)
    requires l.Polled? && l.event.EndFile? && EndsWaiting(s, l.event) && s.generation != 0 && !s.load.failed
    ensures HasEntry(Step(s, l)) && Step(s, l).loads == s.loads
  {
    StepFrame(s, l);
    var r := Reports(s, l);
    assert r[|r| - 1] == FailureNotice;
    var j := |r| - 1;
    assert Step(s, l).log[|s.log| + j] == Entry(|s.loads|, s.generation, Cause(l), r[j]);
  }

  lemma StaleRunMisreports(before: seq<Label>, l: Label)
    requires Legal(before + [l]) && Fresh(before) && !IsFresh(Run(before), l) && NumberedLoads(before)
    ensures !Sound(before + [l]) || !Sound(before + [l] + [Tick(true)])
  {
    var more := before + [l];
    assert more[..|before|] == before;
    RunKeepsInv(before);
    LoadsAreNumbered(before);
    FreshRunIsOwn(before);
    TickAppended(more);
    StaleEventMisreports(Run(before), FeedOf(before), l);
  }

  // Nothing is misreported after the first n labels, nor with a tick after them.
  ghost predicate SoundUpTo(labels: seq<Label>, n: nat) {
    n <= |labels| ==> Sound(labels[..n]) && Sound(labels[..n] + [Tick(true)])
  }

  // In a run with nonzero generations, nothing is ever misreported, now or with a tick, if and
  // only if every waiting load is let go by its own file.
  lemma ReportsStayExactly(labels: seq<Label>)
    requires Legal(labels) && NumberedLoads(labels)
    ensures Fresh(labels) <==> forall n: nat :: SoundUpTo(labels, n)
  {
    if Fresh(labels) {
      forall n: nat ensures SoundUpTo(labels, n) {
        if n <= |labels| { FreshPrefixIsSound(labels, n); }
      }
    } else {
      var n := FirstMisreport(labels);
    }
  }

  lemma FirstMisreport(labels: seq<Label>) returns (n: nat)
    requires Legal(labels) && NumberedLoads(labels) && !Fresh(labels)
    ensures !SoundUpTo(labels, n)
  {
    var before, l := StalePrefix(labels);
    StaleRunMisreports(before, l);
    n := |before| + 1;
  }

  // A run up to the first event that lets a waiting load go for another file.
  lemma StalePrefix(labels: seq<Label>) returns (before: seq<Label>, l: Label)
    requires Legal(labels) && NumberedLoads(labels) && !Fresh(labels)
    ensures |before| < |labels| && labels[..|before| + 1] == before + [l]
    ensures Legal(before + [l]) && Fresh(before) && !IsFresh(Run(before), l) && NumberedLoads(before)
  {
    var n := FirstStale(labels);
    before, l := labels[..n], labels[n];
    assert labels[..n + 1] == before + [l];
    PrefixKeeps(labels, n + 1);
  }

  lemma FreshPrefixIsSound(labels: seq<Label>, n: nat)
    requires Legal(labels) && Fresh(labels) && n <= |labels|
    ensures Sound(labels[..n]) && Sound(labels[..n] + [Tick(true)])
  {
    PrefixKeeps(labels, n);
    TickAppended(labels[..n]);
    ReportsStayWithTheirLoad(labels[..n]);
    ReportsStayWithTheirLoad(labels[..n] + [Tick(true)]);
  }

  // ----- where a late event does harm -----

  function Polls(s: State, events: seq<MpvEvent>): State
    decreases events
  {
    if events == [] then s else Polls(Step(s, Polled(events[0], true)), events[1..])
  }

  // The i-th event ends the waiting: a file-loaded, or an error after a start.
  predicate LetsGo(started: bool, events: seq<MpvEvent>, i: nat) {
    && i < |events|
    && (events[i].FileLoaded? ||
        (events[i].EndFile? && events[i].reason == Error && (started || exists k :: 0 <= k < i && events[k].Start?)))
  }

  ghost predicate HeldBack(started: bool, events: seq<MpvEvent>) {
    forall i: nat :: i < |events| ==> !LetsGo(started, events, i)
  }

  lemma LetsGoLater(started: bool, events: seq<MpvEvent>, i: nat)
    requires 0 < i < |events|
    ensures LetsGo(started, events, i) <==> LetsGo(started || events[0].Start?, events[1..], i - 1)
  {
    var rest := events[1..];
    assert rest[i - 1] == events[i];
    forall k | 0 <= k < i && events[k].Start? ensures events[0].Start? || exists m :: 0 <= m < i - 1 && rest[m].Start? {
      if k > 0 { assert rest[k - 1].Start?; }
    }
    forall m | 0 <= m < i - 1 && rest[m].Start? ensures events[m + 1].Start? {
    }
  }

  lemma HeldBackHead(started: bool, events: seq<MpvEvent>)
    requires events != []
    ensures HeldBack(started, events) <==>
      !LetsGo(started, events, 0) && HeldBack(started || events[0].Start?, events[1..])
  {
    var (later, rest) := (started || events[0].Start?, events[1..]);
    if HeldBack(later, rest) && !LetsGo(started, events, 0) {
      forall i: nat | i < |events| ensures !LetsGo(started, events, i) {
        if i > 0 {
          LetsGoLater(started, events, i);
          assert !LetsGo(later, rest, i - 1);
        }
      }
    }
    if HeldBack(started, events) {
      forall i: nat | i < |rest| ensures !LetsGo(later, rest, i) {
        LetsGoLater(started, events, i + 1);
        assert !LetsGo(started, events, i + 1);
      }
    }
  }

  lemma WaitingStep(s: State, e: MpvEvent)
    requires FlagInv(s) && s.load.pending
    ensures var t := Step(s, Polled(e, true));
      && (t.load.pending <==> !EndsWaiting(s, e))
      && (t.load.pending ==> t.log == s.log && t.load.pendingStarted == (s.load.pendingStarted || e.Start?))
  {
    StepFrame(s, Polled(e, true));
  }

  // Events leave a load waiting, with nothing reported, if and only if there is no file-loaded
  // among them and no error after a start. A late start alone does no harm.
  lemma {:induction false} StaleEventsHarmlessExactly(s: State, events: seq<MpvEvent>)
    requires FlagInv(s) && s.load.pending
    ensures Polls(s, events).load.pending <==> HeldBack(s.load.pendingStarted, events)
    ensures HeldBack(s.load.pendingStarted, events) ==> Polls(s, events).log == s.log
    decreases events
  {
    if events != [] {
      var t := Step(s, Polled(events[0], true));
      HeldBackHead(s.load.pendingStarted, events);
      WaitingStep(s, events[0]);
      FlagSteps(s, Polled(events[0], true));
      if t.load.pending {
        StaleEventsHarmlessExactly(t, events[1..]);
      } else {
        NoLongerWaiting(t, events[1..]);
      }
    }
  }

  lemma {:induction false} NoLongerWaiting(s: State, events: seq<MpvEvent>)
    requires !s.load.pending
    ensures !Polls(s, events).load.pending
    decreases events
  {
    if events != [] {
      StepFrame(s, Polled(events[0], true));
      NoLongerWaiting(Step(s, Polled(events[0], true)), events[1..]);
    }
  }

  // Not waiting, and a failure was reported if there was one: the next tick reports otherwise.
  ghost predicate Leaked(s: State) {
    !s.load.pending && s.generation != 0 && (s.load.failed ==> HasEntry(s))
  }

  lemma {:induction false} LeakedStays(s: State, events: seq<MpvEvent>)
    requires Leaked(s)
    ensures Leaked(Polls(s, events)) && Polls(s, events).loads == s.loads
    decreases events
  {
    if events != [] {
      LeakedStep(s, events[0]);
      LeakedStays(Step(s, Polled(events[0], true)), events[1..]);
    }
  }

  lemma LeakedStep(s: State, e: MpvEvent)
    requires Leaked(s)
    ensures Leaked(Step(s, Polled(e, true))) && Step(s, Polled(e, true)).loads == s.loads
  {
    var (l, t) := (Polled(e, true), Step(s, Polled(e, true)));
    StepFrame(s, l);
    if HasEntry(s) {
      var i :| 0 <= i < |s.log| && s.log[i].load == |s.loads|;
      assert t.log[..|s.log|][i] == s.log[i];
    } else if t.load.failed {
      var r := Reports(s, l);
      assert FailureNotice in r;
      var j :| 0 <= j < |r| && r[j] == FailureNotice;
      assert t.log[|s.log| + j] == Entry(|s.loads|, s.generation, Cause(l), r[j]);
    }
  }

  lemma LetGoLeaks(s: State, e: MpvEvent)
    requires FlagInv(s) && EndsWaiting(s, e) && s.generation != 0
    ensures Leaked(Step(s, Polled(e, true))) && Step(s, Polled(e, true)).loads == s.loads
  {
    StepFrame(s, Polled(e, true));
    if e.EndFile? { FailureReported(s, Polled(e, true)); }
  }

  lemma {:induction false} LetGoReports(s: State, events: seq<MpvEvent>)
    requires FlagInv(s) && s.load.pending && s.generation != 0 && !HeldBack(s.load.pendingStarted, events)
    ensures Leaked(Polls(s, events)) && Polls(s, events).loads == s.loads
    decreases events
  {
    var t := Step(s, Polled(events[0], true));
    HeldBackHead(s.load.pendingStarted, events);
    WaitingStep(s, events[0]);
    StepFrame(s, Polled(events[0], true));
    FlagSteps(s, Polled(events[0], true));
    if EndsWaiting(s, events[0]) {
      LetGoLeaks(s, events[0]);
      LeakedStays(t, events[1..]);
    } else {
      LetGoReports(t, events[1..]);
    }
  }

  // For every waiting load with a generation: events, and a tick after them, report something for
  // it if and only if they do not hold it back. Of events of replaced files, all that is misreported.
  lemma WaitingLoadReportedExactly(s: State, events: seq<MpvEvent>)
    requires FlagInv(s) && EntriesInv(s) && s.load.pending && s.generation != 0
    ensures HasEntry(Step(Polls(s, events), Tick(true))) <==> !HeldBack(s.load.pendingStarted, events)
  {
    var t := Polls(s, events);
    StepFrame(t, Tick(true));
    if HeldBack(s.load.pendingStarted, events) {
      StaleEventsHarmlessExactly(s, events);
      PollsKeepLoads(s, events);
    } else {
      LetGoReports(s, events);
      if t.load.failed {
        var i :| 0 <= i < |t.log| && t.log[i].load == |t.loads|;
        assert Step(t, Tick(true)).log[..|t.log|][i] == t.log[i];
      } else {
        NextTickReports(t);
      }
    }
  }

  lemma {:induction false} PollsKeepLoads(s: State, events: seq<MpvEvent>)
    ensures Polls(s, events).loads == s.loads
    decreases events
  {
    if events != [] {
      StepFrame(s, Polled(events[0], true));
      PollsKeepLoads(Step(s, Polled(events[0], true)), events[1..]);
    }
  }

  // Two loads in quick succession; the first one's file-loaded comes after the second load.
  const LATE_OPENING: seq<Label> := [
    Load([], true, 1, 0, false), Polled(Start(1), true), Load([], true, 2, 0, false),
    Polled(FileLoaded(1), true), Tick(true), Polled(EndFile(1, Stop), true),
    Polled(Start(2), true), Polled(FileLoaded(2), true), Polled(PlaybackRestart(2), true),
    Polled(DurationIs(Some(10)), true), Polled(EndFile(2, Eof), true)]

  ghost function Advance(at: (State, Feed), l: Label): (State, Feed) {
    (Step(at.0, l), FeedStep(at.1, l))
  }

  lemma RunTo(labels: seq<Label>, n: nat, at: (State, Feed))
    requires n < |labels|
    requires Legal(labels[..n]) && Run(labels[..n]) == at.0 && FeedOf(labels[..n]) == at.1
    requires AllowsLabel(at.1, labels[n], |at.0.loads|)
    ensures Legal(labels[..n + 1])
    ensures Run(labels[..n + 1]) == Advance(at, labels[n]).0 && FeedOf(labels[..n + 1]) == Advance(at, labels[n]).1
  {
    assert labels[..n + 1][..n] == labels[..n] && labels[..n + 1][n] == labels[n];
  }

  // The second load's state in that run.
  function Second(load: LoadFlags, clock: Clock, log: seq<Entry>): State {
    State(2, load, SeekFlags(false, false), clock, [LoadCall(1, 0), LoadCall(2, 0)], log)
  }

  const STALE_PROGRESS := Entry(2, 2, 0, Emitted(Progress, 0, 0))

  const STALE_STOP := Entry(2, 2, 1, Emitted(Stopped, 0, 0))

  const OWN_END: seq<Entry> := [Entry(2, 2, 2, Emitted(Ended, 10, 10)), Entry(2, 2, 2, EndNotice)]

  lemma NormalEndStep(s: State, file: nat)
    requires Normal(s, Eof)
    ensures Step(s, Polled(EndFile(file, Eof), true)) ==
      Poll(s, EndFile(file, Eof)).(log := s.log + [
        Entry(|s.loads|, s.generation, file, Emitted(Ended, Length(s.clock), Length(s.clock))),
        Entry(|s.loads|, s.generation, file, EndNotice)])
  {
    var l := Polled(EndFile(file, Eof), true);
    var (r, t) := (Emitted(Ended, Length(s.clock), Length(s.clock)), Poll(s, EndFile(file, Eof)));
    assert Reports(s, l) == [r] + [EndNotice];
    NotedAppend(t, file, [r], [EndNotice]);
    NotedOne(t, file, r);
    NotedOne(Noted(t, file, [r]), file, EndNotice);
  }

  // Up to the tick: the second load is no longer pending, though its file has not started.
  lemma LateOpeningClears(labels: seq<Label>)
    requires |labels| >= 5 && labels[0] == Load([], true, 1, 0, false) && labels[1] == Polled(Start(1), true)
    requires labels[2] == Load([], true, 2, 0, false) && labels[3] == Polled(FileLoaded(1), true)
    requires labels[4] == Tick(true)
    ensures var five := labels[..5];
      && Legal(five) && FeedOf(five) == Feed(1, Open)
      && Run(five) == Second(LoadFlags(false, false, false, false, 0), Clock(0, 0, false, UNKNOWN), [STALE_PROGRESS])
  {
    var flags := LoadFlags(true, false, false, false, 0);
    var clock := Clock(0, 0, false, UNKNOWN);
    var first := State(1, flags, SeekFlags(false, false), clock, [LoadCall(1, 0)], []);
    assert labels[..0] == [];
    RunTo(labels, 0, (INITIAL, Feed(0, Idle)));
    RunTo(labels, 1, (first, Feed(0, Idle)));
    RunTo(labels, 2, (first.(load := flags.(pendingStarted := true)), Feed(1, Opening)));
    RunTo(labels, 3, (Second(flags, clock, []), Feed(1, Opening)));
    var waiting := Second(flags.(pending := false), clock, []);
    RunTo(labels, 4, (waiting, Feed(1, Open)));
    NotedOne(waiting, 0, Emitted(Progress, 0, 0));
  }

  // The replaced file's stop is reported as the second load's.
  lemma LateOpeningStops(labels: seq<Label>, s: State)
    requires |labels| >= 6 && Legal(labels[..5]) && FeedOf(labels[..5]) == Feed(1, Open) && Run(labels[..5]) == s
    requires s == Second(LoadFlags(false, false, false, false, 0), Clock(0, 0, false, UNKNOWN), [STALE_PROGRESS])
    requires labels[5] == Polled(EndFile(1, Stop), true)
    ensures Legal(labels[..6]) && FeedOf(labels[..6]) == Feed(1, Over)
    ensures Run(labels[..6]) == s.(log := [STALE_PROGRESS, STALE_STOP])
  {
    var l := Polled(EndFile(1, Stop), true);
    RunTo(labels, 5, (s, Feed(1, Open)));
    assert Reports(s, l) == [Emitted(Stopped, 0, 0)];
    NotedOne(Change(s, l), 1, Emitted(Stopped, 0, 0));
    assert [STALE_PROGRESS] + [STALE_STOP] == [STALE_PROGRESS, STALE_STOP];
  }

  // A load that is not waiting, and never reported its start, takes no notice of a start.
  lemma StartUnnoticed(s: State, e: MpvEvent)
    requires !s.load.pending && !s.load.pendingStarted && s.load.started == 0 && !s.seek.pending
    requires e.Start? || e.FileLoaded? || e.PlaybackRestart?
    ensures Step(s, Polled(e, true)) == s
  {
  }

  // Its own start goes unreported.
  lemma LateOpeningStarts(labels: seq<Label>, s: State)
    requires |labels| >= 9 && Legal(labels[..6]) && FeedOf(labels[..6]) == Feed(1, Over) && Run(labels[..6]) == s
    requires s.load == LoadFlags(false, false, false, false, 0) && |s.loads| == 2 && !s.seek.pending
    requires labels[6] == Polled(Start(2), true) && labels[7] == Polled(FileLoaded(2), true)
    requires labels[8] == Polled(PlaybackRestart(2), true)
    ensures Legal(labels[..9]) && FeedOf(labels[..9]) == Feed(2, Open) && Run(labels[..9]) == s
  {
    StartUnnoticed(s, Start(2));
    StartUnnoticed(s, FileLoaded(2));
    StartUnnoticed(s, PlaybackRestart(2));
    RunTo(labels, 6, (s, Feed(1, Over)));
    RunTo(labels, 7, (s, Feed(2, Opening)));
    RunTo(labels, 8, (s, Feed(2, Open)));
  }

  // Its own end is the second terminal event.
  lemma LateOpeningEndsAgain(labels: seq<Label>, s: State)
    requires |labels| == 11 && Legal(labels[..9]) && FeedOf(labels[..9]) == Feed(2, Open) && Run(labels[..9]) == s
    requires s.load == LoadFlags(false, false, false, false, 0) && s.clock == Clock(0, 0, false, UNKNOWN)
    requires |s.loads| == 2 && s.generation == 2
    requires labels[9] == Polled(DurationIs(Some(10)), true) && labels[10] == Polled(EndFile(2, Eof), true)
    ensures Legal(labels) && Run(labels).log == s.log + OWN_END
  {
    RunTo(labels, 9, (s, Feed(2, Open)));
    var playing := s.(clock := s.clock.(observed := Observed(0, false, 10, true)));
    RunTo(labels, 10, (playing, Feed(2, Open)));
    NormalEndStep(playing, 2);
    assert labels[..11] == labels;
  }

  lemma LateLog(log: seq<Entry>)
    requires log == [STALE_PROGRESS, STALE_STOP] + OWN_END
    ensures Stages(log, 2) == [] && Count(log, 2, IsTerminalEvent) == 2 && log[1].cause == 1 && log[1].load == 2
  {
    assert log[..0] == [] && log[..4] == log;
    for n := 0 to 4
      invariant Stages(log[..n], 2) == []
      invariant Count(log[..n], 2, IsTerminalEvent) == if n < 2 then 0 else if n < 3 then 1 else 2
    {
      assert log[..n + 1][..n] == log[..n] && log[..n + 1][n] == log[n];
    }
  }

  // A file-loaded of a replaced file, polled after the next load: progress is reported for the new
  // load before its file starts, its own start is never reported, and it has two terminal events,
  // the first of them the replaced file's.
  lemma LateOpeningMisreports()
    ensures Legal(LATE_OPENING) && FeedOf(LATE_OPENING[..5]).file == 1
    ensures Run(LATE_OPENING[..5]).log == [STALE_PROGRESS]
    ensures Stages(Run(LATE_OPENING).log, 2) == []
    ensures Count(Run(LATE_OPENING).log, 2, IsTerminalEvent) == 2
    ensures var log := Run(LATE_OPENING).log;
      exists i :: 0 <= i < |log| && log[i].cause !in {0, log[i].load}
  {
    assert IsLate(LATE_OPENING);
    LateRun(LATE_OPENING);
    LateLog(Run(LATE_OPENING).log);
  }

  predicate IsLate(labels: seq<Label>) {
    && |labels| == 11 && labels[0] == Load([], true, 1, 0, false) && labels[1] == Polled(Start(1), true)
    && labels[2] == Load([], true, 2, 0, false) && labels[3] == Polled(FileLoaded(1), true) && labels[4] == Tick(true)
    && labels[5] == Polled(EndFile(1, Stop), true) && labels[6] == Polled(Start(2), true)
    && labels[7] == Polled(FileLoaded(2), true) && labels[8] == Polled(PlaybackRestart(2), true)
    && labels[9] == Polled(DurationIs(Some(10)), true) && labels[10] == Polled(EndFile(2, Eof), true)
  }

  lemma LateRun(labels: seq<Label>)
    requires IsLate(labels)
    ensures Legal(labels) && FeedOf(labels[..5]).file == 1 && Run(labels[..5]).log == [STALE_PROGRESS]
    ensures Run(labels).log == [STALE_PROGRESS, STALE_STOP] + OWN_END
  {
    LateOpeningClears(labels);
    LateOpeningStops(labels, Run(labels[..5]));
    LateOpeningStarts(labels, Run(labels[..6]));
    LateOpeningEndsAgain(labels, Run(labels[..9]));
  }

  // ----- seeks -----

  // The events that make the engine forget where the seek will land.
  predicate Forgets(s: State, e: MpvEvent) { e.Start? && s.load.pending }

  predicate EverForgets(s: State, events: seq<MpvEvent>)
    decreases events
  {
    events != [] && (Forgets(s, events[0]) || EverForgets(Step(s, Polled(events[0], true)), events[1..]))
  }

  // Until mpv begins the seek, no queued position replaces the cached target: it is forgotten
  // exactly if the start of a pending load is polled, and never overwritten.
  lemma {:induction false} TargetKeptExactly(s: State, events: seq<MpvEvent>)
    requires FlagInv(s) && s.clock.observed.positionKnown
    requires Polls(s, events).seek.pending && !Polls(s, events).seek.started
    ensures var o := Polls(s, events).clock.observed;
      && (o.positionKnown <==> !EverForgets(s, events))
      && (o.positionKnown ==> o.position == s.clock.observed.position)
    decreases events
  {
    if events != [] {
      var t := Step(s, Polled(events[0], true));
      StepFrame(s, Polled(events[0], true));
      FlagSteps(s, Polled(events[0], true));
      SeekGoesBack(t, events[1..]);
      SeekGoesBack(s, events);
      TargetStep(s, events[0]);
      if Forgets(s, events[0]) {
        StaysForgotten(t, events[1..]);
      } else {
        TargetKeptExactly(t, events[1..]);
      }
    }
  }

  lemma TargetStep(s: State, e: MpvEvent)
    requires FlagInv(s) && s.seek.pending && !s.seek.started
    ensures var o := Step(s, Polled(e, true)).clock.observed;
      && (o.positionKnown <==> s.clock.observed.positionKnown && !Forgets(s, e))
      && (o.positionKnown ==> o.position == s.clock.observed.position)
  {
    StepFrame(s, Polled(e, true));
  }

  // A seek that is still waiting was waiting all along.
  lemma {:induction false} SeekGoesBack(s: State, events: seq<MpvEvent>)
    requires FlagInv(s) && Polls(s, events).seek.pending && !Polls(s, events).seek.started
    ensures s.seek.pending && !s.seek.started
    decreases events
  {
    if events != [] {
      StepFrame(s, Polled(events[0], true));
      FlagSteps(s, Polled(events[0], true));
      SeekGoesBack(Step(s, Polled(events[0], true)), events[1..]);
    }
  }

  lemma {:induction false} StaysForgotten(s: State, events: seq<MpvEvent>)
    requires FlagInv(s) && !s.clock.observed.positionKnown
    requires Polls(s, events).seek.pending && !Polls(s, events).seek.started
    ensures !Polls(s, events).clock.observed.positionKnown
    decreases events
  {
    if events != [] {
      SeekGoesBack(s, events);
      TargetStep(s, events[0]);
      FlagSteps(s, Polled(events[0], true));
      StaysForgotten(Step(s, Polled(events[0], true)), events[1..]);
    }
  }

  lemma {:induction false} PollsAppend(s: State, a: seq<MpvEvent>, b: seq<MpvEvent>)
    ensures Polls(s, a + b) == Polls(Polls(s, a), b)
    decreases a
  {
    if a == [] {
      assert a + b == b;
    } else {
      assert (a + b)[1..] == a[1..] + b;
      PollsAppend(Step(s, Polled(a[0], true)), a[1..], b);
    }
  }

  // The events that move the cached position or end the file.
  predicate Moves(e: MpvEvent) { e.TimePos? || e.Start? || e.EndFile? }

  lemma {:induction false} PositionStays(s: State, events: seq<MpvEvent>)
    requires forall i :: 0 <= i < |events| ==> !Moves(events[i])
    requires s.seek.pending ==> s.seek.started
    ensures var (t, o) := (Polls(s, events), s.clock.observed);
      && t.clock.observed.position == o.position && t.clock.observed.positionKnown == o.positionKnown
      && (t.seek.pending ==> t.seek.started)
      && (events != [] && events[|events| - 1].PlaybackRestart? ==> !t.seek.pending)
    decreases events
  {
    if events != [] {
      var t := Step(s, Polled(events[0], true));
      StepFrame(s, Polled(events[0], true));
      PositionStays(t, events[1..]);
      assert |events| > 1 ==> events[1..][|events| - 2] == events[|events| - 1];
    }
  }

  // A seek under way: any events up to the seek event, then any that move nothing, then the
  // restart. The position kept is the target, unless a pending load's start made the engine forget
  // it, and snapshots of a playing file show it.
  lemma SeekLands(s: State, value: int, absolute: bool, before: seq<MpvEvent>, file: nat, between: seq<MpvEvent>,
                  last: nat)
    requires FlagInv(s)
    requires var b := Polls(Step(s, Seek(value, absolute, true)), before); b.seek.pending && !b.seek.started
    requires forall i :: 0 <= i < |between| ==> !Moves(between[i])
    ensures var a := Step(s, Seek(value, absolute, true));
      var t := Polls(Polls(a, before), [SeekBegun(file)] + between + [PlaybackRestart(last)]);
      var (o, target) := (t.clock.observed, SeekTarget(s.clock, value, absolute));
      && !t.seek.pending
      && (o.positionKnown <==> !EverForgets(a, before))
      && (o.positionKnown ==> o.position == target)
      && (o.positionKnown && Live(t) && target >= 0 && (o.durationKnown ==> o.duration >= 0) ==>
            SnapshotOf(t).Shot? && SnapshotOf(t).position == target)
  {
    var a := Step(s, Seek(value, absolute, true));
    StepFrame(s, Seek(value, absolute, true));
    FlagSteps(s, Seek(value, absolute, true));
    TargetKeptExactly(a, before);
    var b := Polls(a, before);
    var events := between + [PlaybackRestart(last)];
    assert [SeekBegun(file)] + between + [PlaybackRestart(last)] == [SeekBegun(file)] + events;
    StepFrame(b, Polled(SeekBegun(file), true));
    PollsAppend(b, [SeekBegun(file)], events);
    assert [SeekBegun(file)][1..] == [];
    PositionStays(Step(b, Polled(SeekBegun(file), true)), events);
  }

  // A seek that mpv refuses is undone exactly if no other one was under way.
  lemma RefusedSeekUndoneExactly(s: State, value: int, absolute: bool)
    requires FlagInv(s)
    ensures Step(s, Seek(value, absolute, false)) == s <==> !s.seek.pending
  {
  }

  // With another one under way: it is forgotten, though mpv goes on with it.
  lemma RefusedSeekForgetsAnother()
    ensures Run([Seek(5, true, true)]).seek.pending
    ensures !Run([Seek(5, true, true), Seek(9, true, false)]).seek.pending
    ensures Run([Seek(5, true, true), Seek(9, true, false)]).clock == Run([Seek(5, true, true)]).clock
  {
    var labels := [Seek(5, true, true), Seek(9, true, false)];
    assert labels[..1] == [Seek(5, true, true)] && labels[..1][..0] == [];
    assert Run(labels) == Step(Run(labels[..1]), labels[1]);
  }

  // ----- the engine object -----

  class Engine {
    var generation: nat
    var pending: bool
    var pendingStarted: bool
    var ended: bool
    var failed: bool
    var started: nat
    var seekPending: bool
    var seekStarted: bool
    var position: int
    var duration: int
    var paused: bool
    var observed: Observed
    ghost var loads: seq<LoadCall>
    ghost var log: seq<Entry>

    ghost function View(): State
      reads this
    {
      State(generation, LoadFlags(pending, pendingStarted, ended, failed, started), SeekFlags(seekPending, seekStarted),
            Clock(position, duration, paused, observed), loads, log)
    }

    constructor ()
      ensures View() == INITIAL
    {
      generation, pending, pendingStarted, ended, failed, started := 0, false, false, false, false, 0;
      seekPending, seekStarted, position, duration, paused, observed := false, false, 0, 0, false, UNKNOWN;
      loads, log := [], [];
    }

    ghost method Note(cause: nat, report: Report)
      modifies this`log
      ensures View() == Noted(old(View()), cause, [report])
    {
      NotedOne(View(), cause, report);
      log := log + [Entry(|loads|, generation, cause, report)];
    }

    method ChangeProperty(e: MpvEvent)
      modifies this`observed, this`paused
      ensures View() == old(View()).(clock := ApplyProperty(old(View().clock), old(View().seek), e))
    {
      match e
      case TimePos(value) =>
        if seekPending && !seekStarted { return; }
        observed := observed.(position := if value.Some? then value.value else 0, positionKnown := value.Some?);
      case DurationIs(value) =>
        observed := observed.(duration := if value.Some? then value.value else 0, durationKnown := value.Some?);
      case PauseIs(flag) => paused := flag;
      case _ =>
    }

    method ProgressSeek(e: MpvEvent)
      modifies this`seekPending, this`seekStarted
      ensures View() == old(View()).(seek := AdvanceSeek(old(View().seek), e))
    {
      if !seekPending { return; }
      match e
      case SeekBegun(_) => seekStarted := true;
      case PlaybackRestart(_) => if seekStarted { seekPending, seekStarted := false, false; }
      case EndFile(_, _) => seekPending, seekStarted := false, false;
      case _ =>
    }

    method DrainQueue(queued: seq<MpvEvent>)
      modifies this`observed, this`paused
      ensures View() == Drain(old(View()), queued)
    {
      ghost var all := Drain(View(), queued);
      for i := 0 to |queued|
        invariant Drain(View(), queued[i..]) == all
      {
        ChangeProperty(queued[i]);
        assert queued[i..][1..] == queued[i + 1..];
      }
    }

    method Reload(queued: seq<MpvEvent>, ok: bool, newGeneration: nat, startAt: int, startPaused: bool)
      modifies this
      ensures View() == Step(old(View()), Load(queued, ok, newGeneration, startAt, startPaused))
    {
      DrainQueue(queued);
      if ok { BeginLoad(newGeneration, startAt, startPaused); }
    }

    method BeginLoad(newGeneration: nat, startAt: int, startPaused: bool)
      modifies this
      ensures View() == Loaded(old(View()), newGeneration, startAt, startPaused)
    {
      ResetFlags();
      generation, position, duration, paused, observed := newGeneration, startAt, 0, startPaused, UNKNOWN;
      loads := loads + [LoadCall(newGeneration, startAt)];
    }

    method ResetFlags()
      modifies this`pending, this`pendingStarted, this`ended, this`failed, this`started
      modifies this`seekPending, this`seekStarted
      ensures View() == old(View()).(load := LoadFlags(true, false, false, false, 0), seek := SeekFlags(false, false))
    {
      pending, pendingStarted, ended, failed, started := true, false, false, false, 0;
      seekPending, seekStarted := false, false;
    }

    // One round of the polling loop, for an event that does not end a file.
    method HandleEvent(e: MpvEvent, room: bool)
      requires !e.EndFile?
      modifies this
      ensures View() == Step(old(View()), Polled(e, room))
    {
      var wasPending, wasStarted := pending, pendingStarted;
      ChangeProperty(e);
      ProgressSeek(e);
      if e.Start? && wasPending {
        pendingStarted := true;
        observed := UNKNOWN;
      }
      var reached := 0;
      if e.FileLoaded? {
        if wasPending && wasStarted { reached := FILE_LOADED; }
        pending, pendingStarted := false, false;
      }
      if e.PlaybackRestart? && started == FILE_LOADED { reached := PLAYING; }
      if reached != 0 && generation != 0 {
        started := reached;
        Note(FileOf(e), Reached(reached));
      }
    }

    // The same round for the end of a file: the part under the lock.
    method CloseFile(file: nat, reason: Reason) returns (normalEnd: bool, cutShort: bool, notifyFailure: bool)
      modifies this
      ensures View() == Poll(old(View()), EndFile(file, reason))
      ensures normalEnd == Normal(old(View()), reason) && cutShort == CutShort(old(View()), reason)
      ensures notifyFailure == (Fails(old(View()), reason) && !old(failed))
    {
      var wasPending, wasStarted := pending, pendingStarted;
      ProgressSeek(EndFile(file, reason));
      var length: int;
      normalEnd, cutShort, length := JudgeEnd(reason);
      if wasPending && wasStarted && reason == Error { pending, pendingStarted := false, false; }
      if normalEnd { duration, position, ended := length, length, true; }
      notifyFailure := ((reason == Error && (!wasPending || wasStarted)) || cutShort) && !failed;
      if notifyFailure { failed := true; }
    }

    // What mpv last reported for the file decides; the last tick covers the rest.
    method JudgeEnd(reason: Reason) returns (normalEnd: bool, cutShort: bool, length: int)
      ensures normalEnd == Normal(View(), reason) && cutShort == CutShort(View(), reason)
      ensures length == Length(View().clock)
    {
      var here := if observed.positionKnown then Max(observed.position, 0) else position;
      length := if observed.durationKnown then Max(observed.duration, 0) else duration;
      normalEnd := EndsNormally(reason, generation, pending, here, length);
      cutShort := EndsEarly(reason, generation, pending, here, length);
    }

    method HandleEnd(file: nat, reason: Reason, room: bool)
      modifies this
      ensures View() == Step(old(View()), Polled(EndFile(file, reason), room))
    {
      ghost var s := View();
      var wasPending, wasStarted := pending, pendingStarted;
      var normalEnd, cutShort, notifyFailure := CloseFile(file, reason);
      if generation == 0 || (wasPending && (!wasStarted || reason != Error)) { return; }
      ghost var t := View();
      var kind := if normalEnd then Ended else if reason == Error || cutShort then Failed else Stopped;
      ghost var e, f, n: seq<Report> := [], [], [];
      if room {
        e := [Emitted(kind, position, duration)];
        Note(file, Emitted(kind, position, duration));
      }
      if notifyFailure {
        f := [FailureNotice];
        Note(file, FailureNotice);
      }
      if normalEnd {
        n := [EndNotice];
        Note(file, EndNotice);
      }
      assert Reports(s, Polled(EndFile(file, reason), room)) == e + f + n;
      NotedAppend(t, file, e, f);
      NotedAppend(t, file, e + f, n);
    }

    method Report(room: bool)
      modifies this
      ensures View() == Step(old(View()), Tick(room))
    {
      if pending || failed { return; }
      if ended {
        position := duration;
      } else {
        if observed.positionKnown { position := Max(observed.position, 0); }
        duration := if observed.durationKnown then Max(observed.duration, 0) else 0;
      }
      if generation != 0 && room {
        Note(0, Emitted(if paused then Paused else Progress, position, duration));
      }
    }

    method SeekTo(value: int, absolute: bool, ok: bool)
      modifies this`seekPending, this`seekStarted, this`observed
      ensures View() == Step(old(View()), Seek(value, absolute, ok))
    {
      seekPending, seekStarted := true, false;
      var previous := observed;
      CacheSeekTarget(value, absolute);
      if !ok {
        seekPending, seekStarted := false, false;
        observed := observed.(position := previous.position, positionKnown := previous.positionKnown);
      }
    }

    method CacheSeekTarget(value: int, absolute: bool)
      modifies this`observed
      ensures observed == old(observed).(position := SeekTarget(old(View().clock), value, absolute),
                                         positionKnown := true)
    {
      var target := value;
      if !absolute {
        target := target + (if observed.positionKnown then observed.position else position);
      }
      target := Max(target, 0);
      if observed.durationKnown { target := Min(target, observed.duration); }
      observed := observed.(position := target, positionKnown := true);
    }

    method TakeSnapshot() returns (shot: Shot)
      modifies this`position, this`duration
      ensures View() == Step(old(View()), Snapshot) && shot == SnapshotOf(old(View()))
    {
      if seekPending { return Busy; }
      var (p, d) := (position, duration);
      var live := !pending && !ended;
      if live && observed.positionKnown {
        if observed.position < 0 { return OutOfRange; }
        p := observed.position;
      }
      if live && observed.durationKnown {
        if observed.duration < 0 { return OutOfRange; }
        d := observed.duration;
      }
      position, duration := p, d;
      return Shot(p, d, paused);
    }
  }
}

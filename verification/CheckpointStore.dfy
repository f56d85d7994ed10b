// The checkpoint tables: every save merges into playback_progress and playback_history in one
// transaction, and removing an anime's history empties both.
module CheckpointStore {
  import opened Options
  import opened Text
  import opened StoredTime

  datatype Key = Key(anime: string, episode: string)

  // The columns that both tables share.
  datatype Progress = Progress(position: int, duration: int, completed: bool, updatedAt: string)

  datatype History = History(progress: Progress, lastPlayedAt: string)

  datatype Entry = Entry(key: Key, position: int, duration: int, completed: bool, updatedAt: Instant,
                         lastPlayedAt: Instant)

  // progress and history are the two tables.
  datatype State = State(anime: set<string>, progress: map<Key, Progress>, history: map<Key, History>)

  datatype Label = Save(entry: Entry) | Remove(anime: string) | AddAnime(anime: string)

  const EMPTY := State({}, map[], map[])
  const NO_ROW := Progress(0, 0, false, "")

  // ----- merging -----

  function Max(a: int, b: int): int { if a > b then a else b }

  function Merge(current: Progress, hasCurrent: bool, incoming: Progress): Progress {
    if !hasCurrent then incoming
    else
      var completed := current.completed || incoming.completed;
      if Less(current.updatedAt, incoming.updatedAt) then incoming.(completed := completed)
      else if Less(incoming.updatedAt, current.updatedAt) then current.(completed := completed)
      else current.(position := Max(current.position, incoming.position),
                    duration := Max(current.duration, incoming.duration),
                    completed := completed)
  }

  function Join(a: Progress, b: Progress): Progress { Merge(a, true, b) }

  function MaxStored(current: string, incoming: string): string {
    if Less(current, incoming) then incoming else current
  }

  predicate NonNegative(p: Progress) { p.position >= 0 && p.duration >= 0 }

  lemma JoinCommutes(a: Progress, b: Progress)
    ensures Join(a, b) == Join(b, a)
  {
    LessTotal(a.updatedAt, b.updatedAt);
    LessAsymmetric(a.updatedAt, b.updatedAt);
  }

  lemma JoinIdempotent(a: Progress)
    ensures Join(a, a) == a
  {
    LessIrreflexive(a.updatedAt);
  }

  lemma JoinAssociates(a: Progress, b: Progress, c: Progress)
    ensures Join(Join(a, b), c) == Join(a, Join(b, c))
  {
    OrderFacts(a.updatedAt, b.updatedAt, c.updatedAt);
  }

  lemma OrderFacts(a: string, b: string, c: string)
    ensures (Less(a, b) || Less(b, a) || a == b) && !(Less(a, b) && Less(b, a))
    ensures (Less(b, c) || Less(c, b) || b == c) && !(Less(b, c) && Less(c, b))
    ensures (Less(a, c) || Less(c, a) || a == c) && !(Less(a, c) && Less(c, a))
    ensures Less(a, b) && Less(b, c) ==> Less(a, c)
    ensures Less(a, c) && Less(c, b) ==> Less(a, b)
    ensures Less(b, a) && Less(a, c) ==> Less(b, c)
    ensures Less(b, c) && Less(c, a) ==> Less(b, a)
    ensures Less(c, a) && Less(a, b) ==> Less(c, b)
    ensures Less(c, b) && Less(b, a) ==> Less(c, a)
    ensures !Less(a, a) && !Less(b, b) && !Less(c, c)
  {
    LessTotal(a, b); LessTotal(b, c); LessTotal(a, c);
    LessAsymmetric(a, b); LessAsymmetric(b, c); LessAsymmetric(a, c);
    LessIrreflexive(a); LessIrreflexive(b); LessIrreflexive(c);
    if Less(a, b) && Less(b, c) { LessTransitive(a, b, c); }
    if Less(a, c) && Less(c, b) { LessTransitive(a, c, b); }
    if Less(b, a) && Less(a, c) { LessTransitive(b, a, c); }
    if Less(b, c) && Less(c, a) { LessTransitive(b, c, a); }
    if Less(c, a) && Less(a, b) { LessTransitive(c, a, b); }
    if Less(c, b) && Less(b, a) { LessTransitive(c, b, a); }
  }

  // The row of a missing table entry adds nothing.
  lemma NoRowIsIdentity(a: Progress)
    requires NonNegative(a)
    ensures Join(NO_ROW, a) == a && Join(a, NO_ROW) == a
  {
    LessTotal("", a.updatedAt);
  }

  // ----- saving and removing -----

  function Row(e: Entry): Progress
    requires Encode(e.updatedAt).Some?
  {
    Progress(e.position, e.duration, e.completed, Encode(e.updatedAt).value)
  }

  predicate Accepted(s: State, e: Entry) {
    && e.key.anime != "" && e.key.episode != ""
    && e.position >= 0 && e.duration >= 0
    && Encode(e.updatedAt).Some? && Encode(e.lastPlayedAt).Some?
    && e.key.anime in s.anime
  }

  // A checkpoint is refused for an empty id, a negative time, a timestamp outside the years 1 to
  // 9999, or an anime that is not known; and for nothing else.
  lemma AcceptedExactly(s: State, e: Entry)
    ensures Accepted(s, e) <==>
      && e.key.anime != "" && e.key.episode != "" && e.position >= 0 && e.duration >= 0
      && 1 <= e.updatedAt.year <= 9999 && 1 <= e.lastPlayedAt.year <= 9999 && e.key.anime in s.anime
  {
    EncodedExactly(e.updatedAt);
    EncodedExactly(e.lastPlayedAt);
  }

  function SaveStep(s: State, e: Entry): State {
    if !Accepted(s, e) then s
    else
      var hasProgress, hasHistory := e.key in s.progress, e.key in s.history;
      var progressRow := if hasProgress then s.progress[e.key] else NO_ROW;
      var historyRow := if hasHistory then s.history[e.key] else History(NO_ROW, "");
      var stored := Merge(progressRow, hasProgress, historyRow.progress);
      var merged := Merge(stored, hasProgress || hasHistory, Row(e));
      s.(progress := s.progress[e.key := merged],
         history :=
           s.history[e.key := History(merged, MaxStored(historyRow.lastPlayedAt, Encode(e.lastPlayedAt).value))])
  }

  function RemoveStep(s: State, anime: string): State {
    if anime == "" || anime !in s.anime then s
    else s.(progress := map k | k in s.progress && k.anime != anime :: s.progress[k],
            history := map k | k in s.history && k.anime != anime :: s.history[k])
  }

  function Step(s: State, l: Label): State {
    match l
    case Save(e) => SaveStep(s, e)
    case Remove(anime) => RemoveStep(s, anime)
    case AddAnime(anime) => s.(anime := s.anime + {anime})
  }

  function Run(labels: seq<Label>): State {
    if labels == [] then EMPTY else Step(Run(labels[..|labels| - 1]), labels[|labels| - 1])
  }

  // The known anime are those that were added.
  lemma {:induction false} KnownAnime(labels: seq<Label>, anime: string)
    ensures anime in Run(labels).anime <==> AddAnime(anime) in labels
  {
    if labels != [] {
      var n := |labels| - 1;
      KnownAnime(labels[..n], anime);
      assert labels == labels[..n] + [labels[n]];
    }
  }

  // The checkpoints saved for a key since its anime's history was last removed.
  ghost function Log(labels: seq<Label>, key: Key): seq<Entry> {
    if labels == [] then []
    else
      var rest, l := labels[..|labels| - 1], labels[|labels| - 1];
      if l.Save? && l.entry.key == key && Accepted(Run(rest), l.entry) then Log(rest, key) + [l.entry]
      else if l.Remove? && l.anime == key.anime && l.anime != "" && l.anime in Run(rest).anime then []
      else Log(rest, key)
  }

  // ----- what the tables hold -----

  ghost predicate Storable(log: seq<Entry>) {
    forall i :: 0 <= i < |log| ==>
      && Encode(log[i].updatedAt).Some? && Encode(log[i].lastPlayedAt).Some?
      && log[i].position >= 0 && log[i].duration >= 0
  }

  ghost function Rows(log: seq<Entry>): (rows: seq<Progress>)
    requires Storable(log)
    ensures |rows| == |log| && forall i :: 0 <= i < |log| ==> rows[i] == Row(log[i]) && NonNegative(rows[i])
  {
    seq(|log|, i requires 0 <= i < |log| => Row(log[i]))
  }

  ghost function PlayedAt(log: seq<Entry>): (stamps: seq<string>)
    requires Storable(log)
    ensures |stamps| == |log| && forall i :: 0 <= i < |log| ==> stamps[i] == Encode(log[i].lastPlayedAt).value
  {
    seq(|log|, i requires 0 <= i < |log| => Encode(log[i].lastPlayedAt).value)
  }

  ghost function JoinAll(rows: seq<Progress>): Progress {
    if rows == [] then NO_ROW else Join(JoinAll(rows[..|rows| - 1]), rows[|rows| - 1])
  }

  ghost function MaxAll(stamps: seq<string>): string {
    if stamps == [] then "" else MaxStored(MaxAll(stamps[..|stamps| - 1]), stamps[|stamps| - 1])
  }

  ghost predicate Holds(s: State, key: Key, log: seq<Entry>) {
    && Storable(log)
    && (key in s.progress <==> log != []) && (key in s.history <==> log != [])
    && (log != [] ==>
          && s.progress[key] == JoinAll(Rows(log))
          && s.history[key] == History(JoinAll(Rows(log)), MaxAll(PlayedAt(log))))
  }

  lemma RowsAppend(log: seq<Entry>, e: Entry)
    requires Storable(log) && Storable([e])
    ensures Storable(log + [e])
    ensures JoinAll(Rows(log + [e])) == Join(JoinAll(Rows(log)), Row(e))
    ensures MaxAll(PlayedAt(log + [e])) == MaxStored(MaxAll(PlayedAt(log)), Encode(e.lastPlayedAt).value)
  {
    assert [e][0] == e;
    assert Rows(log + [e])[..|log|] == Rows(log);
    assert PlayedAt(log + [e])[..|log|] == PlayedAt(log);
  }

  lemma SaveExtends(s: State, key: Key, log: seq<Entry>, e: Entry)
    requires Holds(s, key, log) && Accepted(s, e) && e.key == key
    ensures Holds(SaveStep(s, e), key, log + [e])
  {
    RowsAppend(log, e);
    JoinIdempotent(JoinAll(Rows(log)));
    NoRowIsIdentity(Row(e));
  }

  // Both tables hold, for every key and after any run, the join of the checkpoints saved since
  // the last removal, and last_played_at the latest of theirs.
  lemma {:induction false} TablesHoldLog(labels: seq<Label>, key: Key)
    ensures Holds(Run(labels), key, Log(labels, key))
  {
    if labels != [] {
      var rest, l := labels[..|labels| - 1], labels[|labels| - 1];
      TablesHoldLog(rest, key);
      if l.Save? && l.entry.key == key && Accepted(Run(rest), l.entry) {
        SaveExtends(Run(rest), key, Log(rest, key), l.entry);
      }
    }
  }

  // ----- what that means -----

  // The row carries the latest time, the furthest position and the longest duration reported at
  // that time, and whether any of the rows was completed.
  ghost predicate Summary(row: Progress, rows: seq<Progress>) {
    && (forall j :: 0 <= j < |rows| ==> !Less(row.updatedAt, rows[j].updatedAt))
    && (exists j :: 0 <= j < |rows| && rows[j].updatedAt == row.updatedAt && rows[j].position == row.position)
    && (exists j :: 0 <= j < |rows| && rows[j].updatedAt == row.updatedAt && rows[j].duration == row.duration)
    && (forall j :: 0 <= j < |rows| && rows[j].updatedAt == row.updatedAt ==>
          rows[j].position <= row.position && rows[j].duration <= row.duration)
    && (row.completed <==> exists j :: 0 <= j < |rows| && rows[j].completed)
  }

  lemma {:induction false} JoinAllSummary(rows: seq<Progress>)
    requires rows != [] && forall i :: 0 <= i < |rows| ==> NonNegative(rows[i])
    ensures Summary(JoinAll(rows), rows)
  {
    var rest, last := rows[..|rows| - 1], rows[|rows| - 1];
    if rest == [] {
      NoRowIsIdentity(last);
      LessIrreflexive(last.updatedAt);
      assert rows == [last];
    } else {
      JoinAllSummary(rest);
      JoinSummary(JoinAll(rest), rest, last);
      assert rows == rest + [last];
    }
  }

  lemma JoinSummary(row: Progress, rest: seq<Progress>, last: Progress)
    requires Summary(row, rest)
    ensures Summary(Join(row, last), rest + [last])
  {
    var rows, joined, n := rest + [last], Join(row, last), |rest|;
    assert rows[n] == last && forall j :: 0 <= j < n ==> rows[j] == rest[j];
    LessTotal(row.updatedAt, last.updatedAt);
    LessAsymmetric(row.updatedAt, last.updatedAt);
    LessIrreflexive(last.updatedAt);
    forall j | 0 <= j < |rows| ensures !Less(joined.updatedAt, rows[j].updatedAt) {
      if j < n && Less(row.updatedAt, last.updatedAt) && Less(last.updatedAt, rest[j].updatedAt) {
        LessTransitive(row.updatedAt, last.updatedAt, rest[j].updatedAt);
      }
    }
    var p :| 0 <= p < n && rest[p].updatedAt == row.updatedAt && rest[p].position == row.position;
    var d :| 0 <= d < n && rest[d].updatedAt == row.updatedAt && rest[d].duration == row.duration;
    var p' := if joined.position == row.position && joined.updatedAt == row.updatedAt then p else n;
    var d' := if joined.duration == row.duration && joined.updatedAt == row.updatedAt then d else n;
    assert rows[p'].updatedAt == joined.updatedAt && rows[p'].position == joined.position;
    assert rows[d'].updatedAt == joined.updatedAt && rows[d'].duration == joined.duration;
  }

  // A summary is determined by the rows, whatever their order or repetition.
  lemma SummaryUnique(r: Progress, r': Progress, rows: seq<Progress>, rows': seq<Progress>)
    requires Summary(r, rows) && Summary(r', rows')
    requires forall x :: x in rows <==> x in rows'
    ensures r == r'
  {
    LessTotal(r.updatedAt, r'.updatedAt);
    var p :| 0 <= p < |rows| && rows[p].updatedAt == r.updatedAt && rows[p].position == r.position;
    var p' :| 0 <= p' < |rows'| && rows'[p'].updatedAt == r'.updatedAt && rows'[p'].position == r'.position;
    var d :| 0 <= d < |rows| && rows[d].updatedAt == r.updatedAt && rows[d].duration == r.duration;
    var d' :| 0 <= d' < |rows'| && rows'[d'].updatedAt == r'.updatedAt && rows'[d'].duration == r'.duration;
    assert rows[p] in rows' && rows[d] in rows' && rows'[p'] in rows && rows'[d'] in rows;
    CompletedAgrees(r, r', rows, rows');
  }

  lemma CompletedAgrees(r: Progress, r': Progress, rows: seq<Progress>, rows': seq<Progress>)
    requires Summary(r, rows) && Summary(r', rows')
    requires forall x :: x in rows <==> x in rows'
    ensures r.completed == r'.completed
  {
    if r.completed {
      var c :| 0 <= c < |rows| && rows[c].completed;
      assert rows[c] in rows';
    }
    if r'.completed {
      var c :| 0 <= c < |rows'| && rows'[c].completed;
      assert rows'[c] in rows;
    }
  }

  // The tables of two stores agree on a key as soon as they have seen the same checkpoints for
  // it, in any order of arrival.
  lemma ArrivalOrderIrrelevant(labels: seq<Label>, labels': seq<Label>, key: Key)
    requires forall e :: e in Log(labels, key) <==> e in Log(labels', key)
    requires Log(labels, key) != []
    ensures key in Run(labels).progress && key in Run(labels').progress
    ensures Run(labels).progress[key] == Run(labels').progress[key]
    ensures key in Run(labels).history && key in Run(labels').history
    ensures Run(labels).history[key] == Run(labels').history[key]
  {
    var log, log' := Log(labels, key), Log(labels', key);
    TablesHoldLog(labels, key);
    TablesHoldLog(labels', key);
    assert log[0] in log';
    JoinAllSummary(Rows(log));
    JoinAllSummary(Rows(log'));
    SameRows(log, log');
    SameRows(log', log);
    SummaryUnique(JoinAll(Rows(log)), JoinAll(Rows(log')), Rows(log), Rows(log'));
    SameStamps(log, log');
    SameStamps(log', log);
    LatestUnique(PlayedAt(log), PlayedAt(log'));
  }

  lemma SameStamps(log: seq<Entry>, log': seq<Entry>)
    requires Storable(log) && Storable(log') && forall e :: e in log ==> e in log'
    ensures forall x :: x in PlayedAt(log) ==> x in PlayedAt(log')
  {
    forall x | x in PlayedAt(log) ensures x in PlayedAt(log') {
      var i :| 0 <= i < |log| && PlayedAt(log)[i] == x;
      assert log[i] in log && log[i] in log';
      var j :| 0 <= j < |log'| && log'[j] == log[i];
      assert PlayedAt(log')[j] == x;
    }
  }

  // The latest stamp is determined by the stamps, whatever their order or repetition.
  lemma LatestUnique(stamps: seq<string>, stamps': seq<string>)
    requires stamps != [] && forall x :: x in stamps <==> x in stamps'
    ensures MaxAll(stamps) == MaxAll(stamps')
  {
    assert stamps[0] in stamps';
    MaxAllIsLatest(stamps);
    MaxAllIsLatest(stamps');
    LessTotal(MaxAll(stamps), MaxAll(stamps'));
  }

  lemma SameRows(log: seq<Entry>, log': seq<Entry>)
    requires Storable(log) && Storable(log') && forall e :: e in log ==> e in log'
    ensures forall x :: x in Rows(log) ==> x in Rows(log')
  {
    forall x | x in Rows(log) ensures x in Rows(log') {
      var i :| 0 <= i < |log| && Rows(log)[i] == x;
      assert log[i] in log && log[i] in log';
      var j :| 0 <= j < |log'| && log'[j] == log[i];
      assert Rows(log')[j] == x;
    }
  }

  // No time in the list is later than the i-th.
  ghost predicate LatestAt(times: seq<Instant>, i: nat) {
    && i < |times|
    && forall j :: 0 <= j < |times| ==> times[j].year >= 1 && times[i].year >= 1 && !Before(times[i], times[j])
  }

  lemma LatestStamp(times: seq<Instant>, stamps: seq<string>, i: nat)
    requires |times| == |stamps| && i < |times|
    requires forall j :: 0 <= j < |times| ==> Encode(times[j]) == Some(stamps[j])
    requires forall j :: 0 <= j < |times| ==> !Less(stamps[i], stamps[j])
    ensures LatestAt(times, i)
  {
    forall j | 0 <= j < |times|
      ensures times[j].year >= 1 && times[i].year >= 1 && !Before(times[i], times[j])
    {
      EncodeKeepsOrder(times[i], times[j]);
    }
  }

  lemma {:induction false} MaxAllIsLatest(stamps: seq<string>)
    requires stamps != []
    ensures MaxAll(stamps) in stamps
    ensures forall j :: 0 <= j < |stamps| ==> !Less(MaxAll(stamps), stamps[j])
  {
    var rest, last := stamps[..|stamps| - 1], stamps[|stamps| - 1];
    LessIrreflexive(last);
    if rest == [] {
      LessTotal("", last);
    } else {
      MaxAllIsLatest(rest);
      LessAsymmetric(MaxAll(rest), last);
      forall j | 0 <= j < |rest| ensures !Less(MaxAll(stamps), stamps[j]) {
        assert stamps[j] == rest[j];
        if Less(MaxAll(rest), last) && Less(last, rest[j]) {
          LessTransitive(MaxAll(rest), last, rest[j]);
        }
      }
    }
  }

  ghost function UpdateTimes(log: seq<Entry>): seq<Instant> {
    seq(|log|, i requires 0 <= i < |log| => log[i].updatedAt)
  }

  ghost function PlayTimes(log: seq<Entry>): seq<Instant> {
    seq(|log|, i requires 0 <= i < |log| => log[i].lastPlayedAt)
  }

  // row shows the i-th checkpoint: one of the latest, and of those the one with the furthest position.
  ghost predicate ShowsLatest(log: seq<Entry>, row: Progress, i: nat) {
    && LatestAt(UpdateTimes(log), i) && Encode(log[i].updatedAt) == Some(row.updatedAt)
    && log[i].position == row.position
    && forall j :: 0 <= j < |log| && log[j].updatedAt == log[i].updatedAt ==> log[j].position <= log[i].position
  }

  // row has the longest duration of the latest checkpoints, that of the i-th.
  ghost predicate ShowsLongest(log: seq<Entry>, row: Progress, i: nat) {
    && LatestAt(UpdateTimes(log), i) && Encode(log[i].updatedAt) == Some(row.updatedAt)
    && log[i].duration == row.duration
    && forall j :: 0 <= j < |log| && log[j].updatedAt == log[i].updatedAt ==> log[j].duration <= log[i].duration
  }

  // In terms of times: after any run the row of a key shows the latest checkpoint, the furthest
  // position and the longest duration of that time, and completed as soon as one checkpoint was;
  // both tables agree.
  lemma LatestCheckpointWins(labels: seq<Label>, key: Key)
    requires Log(labels, key) != []
    ensures var s, log := Run(labels), Log(labels, key);
            && key in s.progress && key in s.history && s.history[key].progress == s.progress[key]
            && (exists i: nat :: ShowsLatest(log, s.progress[key], i))
            && (exists i: nat :: ShowsLongest(log, s.progress[key], i))
            && (s.progress[key].completed <==> exists i :: 0 <= i < |log| && log[i].completed)
  {
    TablesHoldLog(labels, key);
    var log := Log(labels, key);
    var row, rows := Run(labels).progress[key], Rows(log);
    JoinAllSummary(rows);
    var i :| 0 <= i < |rows| && rows[i].updatedAt == row.updatedAt && rows[i].position == row.position;
    RowShowsLatest(log, rows, row, i);
    var d :| 0 <= d < |rows| && rows[d].updatedAt == row.updatedAt && rows[d].duration == row.duration;
    RowShowsLongest(log, rows, row, d);
  }

  lemma RowShowsLongest(log: seq<Entry>, rows: seq<Progress>, row: Progress, i: nat)
    requires Storable(log) && rows == Rows(log) && Summary(row, rows)
    requires i < |rows| && rows[i].updatedAt == row.updatedAt && rows[i].duration == row.duration
    ensures ShowsLongest(log, row, i)
  {
    LatestStamp(UpdateTimes(log), seq(|log|, k requires 0 <= k < |log| => rows[k].updatedAt), i);
    forall j | 0 <= j < |log| && log[j].updatedAt == log[i].updatedAt ensures log[j].duration <= log[i].duration {
      assert rows[j].updatedAt == row.updatedAt;
    }
  }

  lemma RowShowsLatest(log: seq<Entry>, rows: seq<Progress>, row: Progress, i: nat)
    requires Storable(log) && rows == Rows(log) && Summary(row, rows)
    requires i < |rows| && rows[i].updatedAt == row.updatedAt && rows[i].position == row.position
    ensures ShowsLatest(log, row, i)
  {
    LatestStamp(UpdateTimes(log), seq(|log|, k requires 0 <= k < |log| => rows[k].updatedAt), i);
    forall j | 0 <= j < |log| && log[j].updatedAt == log[i].updatedAt ensures log[j].position <= log[i].position {
      assert rows[j].updatedAt == row.updatedAt;
    }
  }

  lemma LastPlayedIsLatest(labels: seq<Label>, key: Key)
    requires Log(labels, key) != []
    ensures var s, log := Run(labels), Log(labels, key);
            key in s.history
            && exists i: nat ::
                 LatestAt(PlayTimes(log), i) && Encode(log[i].lastPlayedAt) == Some(s.history[key].lastPlayedAt)
  {
    TablesHoldLog(labels, key);
    var i := LatestPlay(Log(labels, key));
  }

  lemma LatestPlay(log: seq<Entry>) returns (i: nat)
    requires Storable(log) && log != []
    ensures LatestAt(PlayTimes(log), i) && Encode(log[i].lastPlayedAt) == Some(MaxAll(PlayedAt(log)))
  {
    var stamps := PlayedAt(log);
    MaxAllIsLatest(stamps);
    i :| 0 <= i < |stamps| && stamps[i] == MaxAll(stamps);
    LatestStamp(PlayTimes(log), stamps, i);
  }

  // A completed row stays completed until its anime's history is removed.
  lemma CompletedNeverReverts(labels: seq<Label>, l: Label, key: Key)
    requires var s := Run(labels); key in s.progress && s.progress[key].completed
    requires l.Remove? ==> l.anime != key.anime
    ensures var s' := Step(Run(labels), l);
            key in s'.progress && s'.progress[key].completed && key in s'.history && s'.history[key].progress.completed
  {
    TablesHoldLog(labels, key);
    if l.Save? {
      JoinIdempotent(Run(labels).progress[key]);
    }
  }

  // Removing an anime's history removes both tables' rows of all its episodes and of nothing
  // else.
  lemma RemoveClearsBoth(labels: seq<Label>, anime: string, key: Key)
    requires anime != "" && anime in Run(labels).anime
    ensures var s, s' := Run(labels), Step(Run(labels), Remove(anime));
            && (key.anime == anime ==> key !in s'.progress && key !in s'.history)
            && (key.anime != anime ==>
                  (key in s'.progress <==> key in s.progress) && (key in s'.history <==> key in s.history))
            && (key.anime != anime && key in s.progress && key in s.history ==>
                  s'.progress[key] == s.progress[key] && s'.history[key] == s.history[key])
  {
  }

  // ----- the store object -----

  class Store {
    var anime: set<string>
    var progress: map<Key, Progress>
    var history: map<Key, History>

    ghost function View(): State
      reads this
    {
      State(anime, progress, history)
    }

    constructor ()
      ensures View() == EMPTY
    {
      anime, progress, history := {}, map[], map[];
    }

    // One transaction; ok is false for the input errors, which change nothing.
    method SavePlaybackCheckpoint(e: Entry) returns (ok: bool)
      modifies this
      ensures View() == Step(old(View()), Save(e))
      ensures ok <==>
        && e.key.anime != "" && e.key.episode != "" && e.position >= 0 && e.duration >= 0
        && 1 <= e.updatedAt.year <= 9999 && 1 <= e.lastPlayedAt.year <= 9999 && e.key.anime in old(anime)
      ensures !ok ==> View() == old(View())
    {
      AcceptedExactly(View(), e);
      if e.key.anime == "" || e.key.episode == "" || e.position < 0 || e.duration < 0 {
        return false;
      }
      var updatedAt, lastPlayedAt := Encode(e.updatedAt), Encode(e.lastPlayedAt);
      if updatedAt.None? || lastPlayedAt.None? || e.key.anime !in anime {
        return false;
      }
      var progressRow, historyRow, lastStored := NO_ROW, NO_ROW, "";
      var hasProgress, hasHistory := e.key in progress, e.key in history;
      if hasProgress {
        progressRow := progress[e.key];
      }
      if hasHistory {
        historyRow := history[e.key].progress;
        lastStored := history[e.key].lastPlayedAt;
      }
      var incoming := Progress(e.position, e.duration, e.completed, updatedAt.value);
      var merged := Merge(progressRow, hasProgress, historyRow);
      merged := Merge(merged, hasProgress || hasHistory, incoming);
      progress := progress[e.key := merged];
      history := history[e.key := History(merged, MaxStored(lastStored, lastPlayedAt.value))];
      return true;
    }

    method RemoveHistory(id: string) returns (ok: bool)
      modifies this
      ensures View() == Step(old(View()), Remove(id))
      ensures ok <==> id != "" && id in anime
      ensures !ok ==> View() == old(View())
    {
      if id == "" || id !in anime {
        return false;
      }
      history := map k | k in history && k.anime != id :: history[k];
      progress := map k | k in progress && k.anime != id :: progress[k];
      return true;
    }
  }
}

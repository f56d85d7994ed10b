// The player's follow star: an optimistic protocol between the screen and the stored follow list.
module Follow {
  import opened Options

  type Anime = string

  const NONE: Anime := ""

  // A read of the list on its way: the change counter when it began, and what it read, if it has.
  datatype Answer = Unreadable | Read(following: bool)
  datatype Load = Load(anime: Anime, changes: nat, answer: Option<Answer>)

  // A change on its way: what the star showed, and whether the list took it, once that is known.
  datatype Change = Change(anime: Anime, following: bool, done: Option<bool>)

  // stored is the follow list, shown what the star shows for the anime being played (None while
  // hidden). failedRead is a history: a read for the anime being played failed.
  datatype State = State(playing: Anime, shown: Option<bool>, pending: bool, changes: nat, stored: set<Anime>,
                         loads: seq<Load>, change: Option<Change>, failedRead: bool)

  function Initial(stored: set<Anime>): State { State(NONE, None, false, 0, stored, [], None, false) }

  datatype Label =
    | Play(anime: Anime)
    | Leave
    | Press
    | ReadList(i: nat, ok: bool)
    | LandLoad(i: nat)
    | ChangeList(ok: bool)
    | LandChange

  predicate Enabled(s: State, l: Label) {
    match l
    case Play(anime) => anime != NONE
    case ReadList(i, _) => i < |s.loads| && s.loads[i].answer.None?
    case LandLoad(i) => i < |s.loads| && s.loads[i].answer.Some?
    case ChangeList(_) => s.change.Some? && s.change.value.done.None?
    case LandChange => s.change.Some? && s.change.value.done.Some?
    case _ => true
  }

  // load: a read of the list begins.
  function BeginLoad(s: State, anime: Anime): State {
    s.(loads := s.loads + [Load(anime, s.changes, None)])
  }

  // toggle: a change begins unless one is on its way.
  function BeginChange(s: State, anime: Anime, following: bool): State {
    if s.pending then s
    else s.(pending := true, changes := s.changes + 1, change := Some(Change(anime, following, None)))
  }

  function Stored(stored: set<Anime>, c: Change): set<Anime> {
    if c.following then stored - {c.anime} else stored + {c.anime}
  }

  // The update that ends a load: shown unless a change began or ended since, or another anime plays.
  function EndLoad(s: State, load: Load): State
    requires load.answer.Some?
  {
    if load.changes != s.changes || s.playing != load.anime then s
    else
      match load.answer.value
      case Unreadable => s.(failedRead := true)
      case Read(following) => s.(shown := Some(following))
  }

  // The update that ends a change.
  function EndChange(s: State, c: Change): State
    requires c.done.Some?
  {
    var t := s.(pending := false, changes := s.changes + 1, change := None);
    if c.done.value && s.playing == c.anime then t.(shown := Some(!c.following))
    else if s.playing != NONE then BeginLoad(t, s.playing)
    else t
  }

  function EnabledStep(s: State, l: Label): State
    requires Enabled(s, l)
  {
    match l
    case Play(anime) => BeginLoad(s.(playing := anime, shown := None, failedRead := false), anime)
    case Leave => s.(playing := NONE, shown := None, failedRead := false)
    case Press => if s.playing == NONE || s.shown.None? then s else BeginChange(s, s.playing, s.shown.value)
    case ReadList(i, ok) =>
      var answer := if ok then Read(s.loads[i].anime in s.stored) else Unreadable;
      s.(loads := s.loads[i := s.loads[i].(answer := Some(answer))])
    case LandLoad(i) => EndLoad(s.(loads := s.loads[..i] + s.loads[i + 1..]), s.loads[i])
    case ChangeList(ok) =>
      s.(stored := if ok then Stored(s.stored, s.change.value) else s.stored,
         change := Some(s.change.value.(done := Some(ok))))
    case LandChange => EndChange(s, s.change.value)
  }

  function Step(s: State, l: Label): State { if Enabled(s, l) then EnabledStep(s, l) else s }

  function RunFrom(s: State, labels: seq<Label>): State {
    if labels == [] then s else Step(RunFrom(s, labels[..|labels| - 1]), labels[|labels| - 1])
  }

  function Run(stored: set<Anime>, labels: seq<Label>): State { RunFrom(Initial(stored), labels) }

  // ----- the invariant -----

  // The list already has the change of this anime, but the screen does not know yet.
  predicate Unseen(s: State, anime: Anime) {
    s.change.Some? && s.change.value.done == Some(true) && s.change.value.anime == anime
  }

  predicate Counted(s: State) {
    && (s.pending <==> s.change.Some?)
    && (s.pending <==> s.changes % 2 == 1)
    && (s.change.Some? ==> s.change.value.anime != NONE)
    && (s.change.Some? && s.change.value.done == Some(true) ==>
          (s.change.value.anime in s.stored <==> !s.change.value.following))
  }

  predicate Kept(s: State, load: Load) { load.changes == s.changes }

  // An answer that may still be shown is what the list says, or missed the change on its way.
  predicate LoadTrue(s: State, load: Load) {
    && load.changes <= s.changes && load.anime != NONE
    && (Kept(s, load) && load.answer.Some? && load.answer.value.Read? ==>
          Unseen(s, load.anime) || (load.answer.value.following <==> load.anime in s.stored))
  }

  ghost predicate LoadsTrue(s: State) { forall i :: 0 <= i < |s.loads| ==> LoadTrue(s, s.loads[i]) }

  predicate ShownTrue(s: State) {
    s.shown.Some? ==> s.playing != NONE && (Unseen(s, s.playing) || (s.shown.value <==> s.playing in s.stored))
  }

  // A hidden star is on its way to be shown, unless a read failed.
  ghost predicate WillShow(s: State) {
    s.playing != NONE && s.shown.None? && !s.failedRead ==>
      s.change.Some? || exists i :: 0 <= i < |s.loads| && s.loads[i].anime == s.playing && Kept(s, s.loads[i])
  }

  ghost predicate Inv(s: State) { Counted(s) && LoadsTrue(s) && ShownTrue(s) && WillShow(s) }

  lemma LoadsSteps(s: State, l: Label)
    requires Counted(s) && LoadsTrue(s)
    ensures LoadsTrue(Step(s, l))
  {
    var t := Step(s, l);
    if l.LandLoad? && Enabled(s, l) {
      forall i | 0 <= i < |t.loads| ensures LoadTrue(t, t.loads[i]) {
        assert LoadTrue(s, s.loads[if i < l.i then i else i + 1]);
      }
    } else {
      forall i | 0 <= i < |t.loads| ensures LoadTrue(t, t.loads[i]) {
        assert i < |s.loads| ==> LoadTrue(s, s.loads[i]);
      }
    }
  }

  lemma ShownSteps(s: State, l: Label)
    requires Counted(s) && LoadsTrue(s) && ShownTrue(s)
    ensures Counted(Step(s, l)) && ShownTrue(Step(s, l))
  {
    if l.LandLoad? && Enabled(s, l) { assert LoadTrue(s, s.loads[l.i]); }
  }

  lemma WillShowSteps(s: State, l: Label)
    requires Counted(s) && WillShow(s)
    ensures WillShow(Step(s, l))
  {
    var t := Step(s, l);
    if t.playing != NONE && t.shown.None? && !t.failedRead && t.change.None? {
      if (l.Play? || l.LandChange?) && Enabled(s, l) {
        var load := t.loads[|s.loads|];
        assert load.anime == t.playing && Kept(t, load);
      } else {
        assert s.change.None? && t.changes == s.changes;
        var i :| 0 <= i < |s.loads| && s.loads[i].anime == s.playing && Kept(s, s.loads[i]);
        if l.LandLoad? && Enabled(s, l) {
          assert i != l.i;
          assert t.loads[if i < l.i then i else i - 1] == s.loads[i];
        } else {
          assert t.loads[i].anime == s.playing && Kept(t, t.loads[i]);
        }
      }
    }
  }

  lemma InitialInv(stored: set<Anime>)
    ensures Inv(Initial(stored))
  {
  }

  lemma {:induction false} RunKeepsInv(s: State, labels: seq<Label>)
    requires Inv(s)
    ensures Inv(RunFrom(s, labels))
  {
    if labels != [] {
      var (before, l) := (labels[..|labels| - 1], labels[|labels| - 1]);
      RunKeepsInv(s, before);
      LoadsSteps(RunFrom(s, before), l);
      ShownSteps(RunFrom(s, before), l);
      WillShowSteps(RunFrom(s, before), l);
    }
  }

  // ----- what holds throughout -----

  // The counter is odd exactly while a change is on its way.
  lemma OddWhileChanging(stored: set<Anime>, labels: seq<Label>)
    ensures var s := Run(stored, labels);
      (s.changes % 2 == 1 <==> s.change.Some?) && (s.pending <==> s.change.Some?)
  {
    RunKeepsInv(Initial(stored), labels);
  }

  // A shown star tells the truth, except between the moment the list takes a change of the anime
  // being played and the moment the screen learns of it.
  lemma ShownIsStored(stored: set<Anime>, labels: seq<Label>)
    ensures var s := Run(stored, labels);
      s.shown.Some? && !Unseen(s, s.playing) ==> s.playing != NONE && s.shown == Some(s.playing in s.stored)
  {
    RunKeepsInv(Initial(stored), labels);
  }

  // The screen learns of it when the change lands.
  lemma LandedChangeIsShown(stored: set<Anime>, labels: seq<Label>)
    requires var s := Run(stored, labels); Unseen(s, s.playing)
    ensures var (s, t) := (Run(stored, labels), Step(Run(stored, labels), LandChange));
      t.shown == Some(s.playing in s.stored) && t.stored == s.stored && t.change.None?
  {
    RunKeepsInv(Initial(stored), labels);
  }

  // With nothing on its way the star shows the stored state, unless a read failed.
  lemma SettledStar(stored: set<Anime>, labels: seq<Label>)
    requires var s := Run(stored, labels); s.loads == [] && s.change.None? && s.playing != NONE
    ensures var s := Run(stored, labels);
      && (s.shown.Some? ==> s.shown == Some(s.playing in s.stored))
      && (!s.failedRead ==> s.shown.Some?)
  {
    RunKeepsInv(Initial(stored), labels);
  }

  // ----- the star, told from the labels -----

  // The anime that was last opened, unless the player was left since.
  function PlayingOf(labels: seq<Label>): Anime {
    if labels == [] then NONE
    else
      match labels[|labels| - 1]
      case Play(anime) => if anime != NONE then anime else PlayingOf(labels[..|labels| - 1])
      case Leave => NONE
      case _ => PlayingOf(labels[..|labels| - 1])
  }

  // A read that failed came back for the anime being played, with no change begun or ended since.
  ghost predicate ReadFailed(stored: set<Anime>, labels: seq<Label>) {
    labels != [] &&
    var rest, l := labels[..|labels| - 1], labels[|labels| - 1];
    var s := Run(stored, rest);
    if (l.Play? && l.anime != NONE) || l.Leave? then false
    else
      || ReadFailed(stored, rest)
      || (l.LandLoad? && l.i < |s.loads| && s.loads[l.i] == Load(PlayingOf(rest), s.changes, Some(Unreadable)))
  }

  lemma StepPlays(s: State, l: Label)
    ensures var t := Step(s, l);
      && t.playing == (if l.Play? && l.anime != NONE then l.anime else if l.Leave? then NONE else s.playing)
      && t.failedRead ==
         (!(l.Play? && l.anime != NONE) && !l.Leave? &&
          (s.failedRead ||
           (l.LandLoad? && l.i < |s.loads| && s.loads[l.i] == Load(s.playing, s.changes, Some(Unreadable)))))
  {
  }

  lemma {:induction false} PlayingExactly(stored: set<Anime>, labels: seq<Label>)
    ensures Run(stored, labels).playing == PlayingOf(labels)
    ensures Run(stored, labels).failedRead <==> ReadFailed(stored, labels)
  {
    if labels != [] {
      var rest := labels[..|labels| - 1];
      PlayingExactly(stored, rest);
      StepPlays(Run(stored, rest), labels[|labels| - 1]);
    }
  }

  // Opening an anime, or leaving the player, hides the star.
  lemma HiddenAtFirst(s: State, anime: Anime)
    requires anime != NONE
    ensures Step(s, Leave).shown.None? && Step(s, Play(anime)).shown.None?
    ensures Step(s, Play(anime)).loads == s.loads + [Load(anime, s.changes, None)]
  {
  }

  // A failed read leaves the star as it is.
  lemma FailedReadChangesNothing(s: State, i: nat)
    requires Enabled(s, ReadList(i, false))
    ensures var t := Step(Step(s, ReadList(i, false)), LandLoad(i));
      t.shown == s.shown && t.stored == s.stored && t.change == s.change
  {
  }

  // A press asks the list for the opposite of what the star shows. If the list takes it, list and
  // star have the opposite; if not, both stay, and the list is read again.
  lemma PressExactly(s: State, ok: bool)
    requires s.playing != NONE && s.shown.Some? && !s.pending
    ensures var t := Step(Step(Step(s, Press), ChangeList(ok)), LandChange);
      && t.playing == s.playing && t.change.None? && !t.pending
      && (ok ==>
            && t.shown == Some(!s.shown.value) && t.loads == s.loads
            && t.stored == if s.shown.value then s.stored - {s.playing} else s.stored + {s.playing})
      && (!ok ==>
            && t.shown == s.shown && t.stored == s.stored
            && t.loads == s.loads + [Load(s.playing, t.changes, None)])
  {
  }

  // While a change is on its way, or with the star hidden, a press does nothing.
  lemma PressIgnored(s: State)
    requires s.playing == NONE || s.shown.None? || s.pending
    ensures Step(s, Press) == s
  {
  }

  // ----- when a load shows a wrong value -----

  // While the counter stands still, so do the change on its way and its anime.
  lemma {:induction false} CounterPins(s: State, labels: seq<Label>)
    requires Inv(s)
    ensures var t := RunFrom(s, labels);
      && s.changes <= t.changes
      && (s.changes == t.changes ==> (s.change.Some? <==> t.change.Some?))
      && (s.changes == t.changes && t.change.Some? ==> s.change.value.anime == t.change.value.anime)
  {
    if labels != [] {
      CounterPins(s, labels[..|labels| - 1]);
      RunKeepsInv(s, labels[..|labels| - 1]);
    }
  }

  predicate ChangingOf(s: State, anime: Anime) { s.change.Some? && s.change.value.anime == anime }

  // Landing read i would now show the anime being played a value that the list does not hold.
  predicate ShowsWrong(s: State, i: nat) {
    && Enabled(s, LandLoad(i)) && s.loads[i].anime == s.playing && Kept(s, s.loads[i])
    && s.loads[i].answer.value.Read? && Step(s, LandLoad(i)).shown != Some(s.playing in s.stored)
  }

  // A load that began in s, while no change of its anime was on its way, never shows a wrong value.
  lemma UndisturbedLoadIsTrue(s: State, labels: seq<Label>, i: nat)
    requires Inv(s)
    requires var t := RunFrom(s, labels);
      Enabled(t, LandLoad(i)) && t.loads[i].changes == s.changes && !ChangingOf(s, t.loads[i].anime)
    ensures !ShowsWrong(RunFrom(s, labels), i)
  {
    RunKeepsInv(s, labels);
    CounterPins(s, labels);
    assert LoadTrue(RunFrom(s, labels), RunFrom(s, labels).loads[i]);
  }

  // No change of the anime is on its way that the list has yet to take: there is none, the list
  // has already taken or refused it, or it asks for what the list holds anyway.
  predicate Harmless(s: State, anime: Anime) {
    ChangingOf(s, anime) ==> s.change.value.done.Some? || (s.change.value.following <==> anime !in s.stored)
  }

  // An answer in hand that may still be shown for the anime is what the list holds.
  predicate AnswerTrue(s: State, load: Load, anime: Anime) {
    load.anime == anime && Kept(s, load) && load.answer.Some? && load.answer.value.Read? ==>
      (load.answer.value.following <==> anime in s.stored)
  }

  ghost predicate AnswersTrue(s: State, anime: Anime) {
    forall i :: 0 <= i < |s.loads| ==> AnswerTrue(s, s.loads[i], anime)
  }

  lemma TruthStep(s: State, l: Label, anime: Anime)
    requires Counted(s) && Harmless(s, anime) && AnswersTrue(s, anime)
    requires Step(s, l).changes == s.changes
    ensures Harmless(Step(s, l), anime) && AnswersTrue(Step(s, l), anime)
  {
    var t := Step(s, l);
    if l.LandLoad? && Enabled(s, l) {
      forall i | 0 <= i < |t.loads| ensures AnswerTrue(t, t.loads[i], anime) {
        assert AnswerTrue(s, s.loads[if i < l.i then i else i + 1], anime);
      }
    } else {
      forall i | 0 <= i < |t.loads| ensures AnswerTrue(t, t.loads[i], anime) {
        assert i < |s.loads| ==> AnswerTrue(s, s.loads[i], anime);
      }
    }
  }

  // As long as no change begins or ends, a harmless state stays one in which answers are true.
  lemma {:induction false} TruthLasts(s: State, labels: seq<Label>, anime: Anime)
    requires Inv(s) && Harmless(s, anime) && AnswersTrue(s, anime)
    requires RunFrom(s, labels).changes == s.changes
    ensures Harmless(RunFrom(s, labels), anime) && AnswersTrue(RunFrom(s, labels), anime)
  {
    if labels != [] {
      var before := labels[..|labels| - 1];
      RunKeepsInv(s, before);
      CounterPins(s, before);
      ChangesOnlyGrow(RunFrom(s, before), labels[|labels| - 1]);
      TruthLasts(s, before, anime);
      TruthStep(RunFrom(s, before), labels[|labels| - 1], anime);
    }
  }

  lemma ChangesOnlyGrow(s: State, l: Label)
    ensures s.changes <= Step(s, l).changes
  {
  }

  // The read is answered, and then the list takes the change.
  lemma StaleAnswer(s: State, i: nat)
    requires Inv(s) && Enabled(s, ReadList(i, true)) && s.loads[i].anime == s.playing && Kept(s, s.loads[i])
    requires !Harmless(s, s.playing)
    ensures var t := RunFrom(s, [ReadList(i, true), ChangeList(true)]);
      t.changes == s.changes && t.playing == s.playing && ShowsWrong(t, i)
  {
    var labels := [ReadList(i, true), ChangeList(true)];
    assert labels[..1] == [ReadList(i, true)] && labels[..1][..0] == [];
    var a := Step(s, ReadList(i, true));
    assert RunFrom(s, labels[..1]) == a;
    assert a.loads[i].answer == Some(Read(s.playing in s.stored));
    var t := Step(a, ChangeList(true));
    assert t.stored == Stored(s.stored, s.change.value);
  }

  // With a read of the anime being played not yet answered, and no wrong answer in hand: in no run
  // without the begin or end of a change can a landing read show a wrong value, if and only if no
  // change is on its way that the list has yet to take and that alters what it holds of the anime.
  lemma LoadsTruthfulExactly(s: State, i: nat)
    requires Inv(s) && AnswersTrue(s, s.playing)
    requires Enabled(s, ReadList(i, true)) && s.loads[i].anime == s.playing && Kept(s, s.loads[i])
    ensures Harmless(s, s.playing) <==>
      forall labels, j: nat :: RunFrom(s, labels).changes == s.changes && RunFrom(s, labels).playing == s.playing ==>
        !ShowsWrong(RunFrom(s, labels), j)
  {
    if Harmless(s, s.playing) {
      forall labels, j: nat | RunFrom(s, labels).changes == s.changes && RunFrom(s, labels).playing == s.playing
        ensures !ShowsWrong(RunFrom(s, labels), j)
      {
        var t := RunFrom(s, labels);
        TruthLasts(s, labels, s.playing);
        assert j < |t.loads| ==> AnswerTrue(t, t.loads[j], s.playing);
      }
    } else {
      StaleAnswer(s, i);
    }
  }

  // While the list is changed the star is pressed, and the anime opened anew.
  function Reopen(anime: Anime): seq<Label> {
    [Play(anime), ReadList(0, true), LandLoad(0), Press, Play(anime), ReadList(0, true), ChangeList(true)]
  }

  lemma RunNext(s: State, labels: seq<Label>, n: nat, at: State)
    requires n < |labels| && RunFrom(s, labels[..n]) == at
    ensures RunFrom(s, labels[..n + 1]) == Step(at, labels[n])
  {
    assert labels[..n + 1][..n] == labels[..n];
  }

  lemma ReopenFirst(anime: Anime, labels: seq<Label>, waiting: State)
    requires anime != NONE && labels == Reopen(anime)
    requires waiting == State(anime, None, false, 0, {}, [Load(anime, 0, None)], None, false)
    ensures RunFrom(Initial({}), labels[..3]) == waiting.(loads := [], shown := Some(false))
  {
    var s := Initial({});
    assert labels[..0] == [];
    RunNext(s, labels, 0, s);
    RunNext(s, labels, 1, waiting);
    RunNext(s, labels, 2, waiting.(loads := [Load(anime, 0, Some(Read(false)))]));
  }

  lemma ReopenSecond(anime: Anime, labels: seq<Label>, s: State, shown: State)
    requires anime != NONE && labels == Reopen(anime) && RunFrom(s, labels[..3]) == shown
    requires shown == State(anime, Some(false), false, 0, {}, [], None, false)
    ensures RunFrom(s, labels[..5]) == State(anime, None, true, 1, {}, [Load(anime, 1, None)],
                                             Some(Change(anime, false, None)), false)
  {
    RunNext(s, labels, 3, shown);
    var pressed := shown.(pending := true, changes := 1, change := Some(Change(anime, false, None)));
    RunNext(s, labels, 4, pressed);
  }

  lemma ReopenThird(anime: Anime, labels: seq<Label>, s: State, reopened: State)
    requires anime != NONE && labels == Reopen(anime) && RunFrom(s, labels[..5]) == reopened
    requires reopened == State(anime, None, true, 1, {}, [Load(anime, 1, None)], Some(Change(anime, false, None)),
                               false)
    ensures RunFrom(s, labels) ==
      State(anime, None, true, 1, {anime}, [Load(anime, 1, Some(Read(false)))],
            Some(Change(anime, false, Some(true))), false)
  {
    RunNext(s, labels, 5, reopened);
    RunNext(s, labels, 6, reopened.(loads := [Load(anime, 1, Some(Read(false)))]));
    assert labels[..7] == labels;
  }

  // A load that begins while a change of its anime is on its way can show the value from before
  // the change after the list has taken it: the one case that ShownIsStored leaves out.
  lemma DisturbedLoadMisleads(anime: Anime)
    requires anime != NONE
    ensures var t := Run({}, Reopen(anime));
      && Enabled(t, LandLoad(0)) && t.shown.None? && t.playing == anime && anime in t.stored
      && Step(t, LandLoad(0)).shown == Some(false)
  {
    var waiting := State(anime, None, false, 0, {}, [Load(anime, 0, None)], None, false);
    ReopenFirst(anime, Reopen(anime), waiting);
    ReopenSecond(anime, Reopen(anime), Initial({}), waiting.(loads := [], shown := Some(false)));
    ReopenThird(anime, Reopen(anime), Initial({}), RunFrom(Initial({}), Reopen(anime)[..5]));
  }

  // ----- the star object -----

  class PlayerFollow {
    var playing: Anime
    var shown: Option<bool>
    var pending: bool
    var changes: nat
    var stored: set<Anime>
    var loads: seq<Load>
    var change: Option<Change>
    ghost var failedRead: bool

    ghost function View(): State
      reads this
    {
      State(playing, shown, pending, changes, stored, loads, change, failedRead)
    }

    constructor (list: set<Anime>)
      ensures View() == Initial(list)
    {
      playing, shown, pending, changes := NONE, None, false, 0;
      stored, loads, change, failedRead := list, [], None, false;
    }

    method LoadStar(anime: Anime)
      modifies this`loads
      ensures View() == BeginLoad(old(View()), anime)
    {
      loads := loads + [Load(anime, changes, None)];
    }

    method Toggle(anime: Anime, following: bool)
      modifies this`pending, this`changes, this`change
      ensures View() == BeginChange(old(View()), anime, following)
    {
      if pending { return; }
      pending := true;
      changes := changes + 1;
      change := Some(Change(anime, following, None));
    }

    method StartPlaying(anime: Anime)
      requires anime != NONE
      modifies this
      ensures View() == Step(old(View()), Play(anime))
    {
      playing, shown, failedRead := anime, None, false;
      LoadStar(anime);
    }

    method PressStar()
      modifies this
      ensures View() == Step(old(View()), Press)
    {
      if playing != NONE && shown.Some? { Toggle(playing, shown.value); }
    }

    // The service call of a load, off the UI thread.
    method ReadFollowing(i: nat, ok: bool)
      requires i < |loads| && loads[i].answer.None?
      modifies this`loads
      ensures View() == Step(old(View()), ReadList(i, ok))
    {
      var answer := if ok then Read(loads[i].anime in stored) else Unreadable;
      loads := loads[i := loads[i].(answer := Some(answer))];
    }

    // Its update on the UI thread.
    method UpdateAfterLoad(i: nat)
      requires i < |loads| && loads[i].answer.Some?
      modifies this
      ensures View() == Step(old(View()), LandLoad(i))
    {
      var load := loads[i];
      loads := loads[..i] + loads[i + 1..];
      if load.answer.value.Read? && load.changes == changes && playing == load.anime {
        shown := Some(load.answer.value.following);
      }
      if load.answer.value.Unreadable? && load.changes == changes && playing == load.anime {
        failedRead := true;
      }
    }

    // The service call of a change, off the UI thread.
    method ChangeFollowing(ok: bool)
      requires change.Some? && change.value.done.None?
      modifies this`stored, this`change
      ensures View() == Step(old(View()), ChangeList(ok))
    {
      if ok {
        stored := if change.value.following then stored - {change.value.anime} else stored + {change.value.anime};
      }
      change := Some(change.value.(done := Some(ok)));
    }

    // Its update on the UI thread.
    method UpdateAfterChange()
      requires change.Some? && change.value.done.Some?
      modifies this
      ensures View() == Step(old(View()), LandChange)
    {
      var c := change.value;
      pending, changes, change := false, changes + 1, None;
      if c.done.value && playing == c.anime {
        shown := Some(!c.following);
      } else if playing != NONE {
        LoadStar(playing);
      }
    }
  }
}

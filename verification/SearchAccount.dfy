// The search screen against an account kept from the calls alone: what is being asked, whether the
// answer is still wanted, and what was answered.
module SearchAccount {
  import opened Options
  import opened Text
  import opened SearchModel

  // busy: a request is under way. wanted: its answer is still wanted. answered: all items of all
  // answers that were. failed: the last wanted answer was an error, and nothing was done since.
  // searched: the query whose answer is in the list, if it is still the query.
  datatype Account = Account(
    open: bool,
    query: string,
    busy: bool,
    wanted: Option<Question>,
    failed: bool,
    answered: seq<Item>,
    loaded: bool,
    libraryFailed: bool,
    searched: string,
    previewed: Item,
    detail: Option<int>,
    next: Pending)

  const EMPTY := Account(true, "", false, None, false, [], false, false, "", NO_ITEM, None, NO_PENDING)

  function Ask(a: Account, q: Question): Account {
    if !a.open || a.busy then a else a.(busy := true, wanted := Some(q), failed := false)
  }

  // What is under way is no longer wanted, and no item is previewed.
  function Drop(a: Account): Account { a.(wanted := None, failed := false, previewed := NO_ITEM, detail := None) }

  // The request that is under way is answered.
  function Answered(a: Account, error: bool): Account {
    a.(busy := false, wanted := None, failed := if a.wanted.Some? then error else a.failed)
  }

  function Listed(a: Account, items: seq<Item>): Account { a.(answered := a.answered + items) }

  // under: the request under way when the call was made, if any.
  function Enter(a: Account, under: Option<Request>, l: Label): Account {
    match l
    case SetQuery(query) =>
      if query == a.query || !a.open then a else Drop(a).(query := query, searched := "", next := NO_PENDING)
    case BeginLibrary => if a.loaded then a else Ask(a, OfLibrary)
    case BeginSearch => if TrimSpace(a.query) == "" then a else Ask(a, OfQuery(a.query))
    case BeginDetail(item) =>
      if item.id == "" || !a.open || a.busy then a else Ask(a, OfItem(item)).(previewed := item, detail := None)
    case QueueSearch =>
      if a.open && a.busy && TrimSpace(a.query) != "" && (a.wanted.None? || a.wanted.value.OfLibrary?) then
        a.(next := Pending(Some(Remote), NO_ITEM))
      else a
    case QueueDetail(item) =>
      if a.open && a.busy && item.id != "" then
        a.(wanted := None, failed := if a.wanted.Some? then false else a.failed, next := Pending(Some(Detail), item),
           previewed := item, detail := None)
      else a
    case TakePending => if a.open && !a.busy then a.(next := NO_PENDING) else a
    case FinishLibrary(r, items) =>
      if under != Some(r) then a
      else if a.wanted.None? then Answered(a, false)
      else if items.Error? then Answered(a, true).(libraryFailed := true)
      else Listed(Answered(a, false), items.value).(loaded := true, libraryFailed := false)
    case FinishSearch(r, items) =>
      if under != Some(r) then a
      else if a.wanted.None? then Answered(a, false)
      else if items.Error? then Answered(a, true).(searched := "")
      else Listed(Answered(a, false), items.value).(searched := a.query)
    case FinishDetail(r, detail) =>
      if under != Some(r) then a
      else if a.wanted.None? then Answered(a, false)
      else if detail.Error? then Answered(a, true)
      else Answered(a, false).(detail := Some(detail.value))
    case Cancel => Drop(a).(next := NO_PENDING)
    case Close => Drop(a).(open := false, next := NO_PENDING)
    case _ => a
  }

  ghost function AccountOf(s: State, a: Account, labels: seq<Label>): Account
    decreases labels
  {
    if labels == [] then a else AccountOf(Step(s, labels[0]), Enter(a, s.flight.active, labels[0]), labels[1..])
  }

  predicate FlightAgrees(f: Flight, a: Account) {
    && f.closed == !a.open && f.active.Some? == a.busy
    && (a.wanted.Some? <==> !f.closed && f.active.Some? && f.active.value.generation == f.generation)
    && f.phase == (if a.wanted.Some? then Loading else if a.failed then Failed else Idle)
    && (f.active.Some? ==> f.active.value.generation <= f.generation)
  }

  predicate Agrees(s: State, a: Account) {
    && FlightAgrees(s.flight, a)
    && (a.wanted.Some? ==> a.wanted.value == s.history.asked && Answers(s.flight.active.value.kind, a.wanted.value))
    && s.catalog.query == a.query && s.history.taken == a.answered
    && s.flags == Flags(a.loaded, a.libraryFailed, a.searched)
    && s.preview == Preview(a.detail, a.previewed) && s.pending == a.next
    && (a.next.kind.None? ==> a.next == NO_PENDING)
  }

  predicate Begins(l: Label) { l.BeginLibrary? || l.BeginSearch? || l.BeginDetail? }

  predicate Queues(l: Label) { l.QueueSearch? || l.QueueDetail? || l.TakePending? }

  lemma BeginAgrees(s: State, a: Account, l: Label)
    requires Agrees(s, a) && Begins(l)
    ensures Agrees(Step(s, l), Enter(a, s.flight.active, l))
  {
  }

  lemma QueueAgrees(s: State, a: Account, l: Label)
    requires Agrees(s, a) && Queues(l)
    ensures Agrees(Step(s, l), Enter(a, s.flight.active, l))
  {
  }

  lemma QueryAgrees(s: State, a: Account, query: string)
    requires Agrees(s, a)
    ensures Agrees(Step(s, SetQuery(query)), Enter(a, s.flight.active, SetQuery(query)))
  {
  }

  lemma StopAgrees(s: State, a: Account, l: Label)
    requires Agrees(s, a) && (l.Cancel? || l.Close?)
    ensures Agrees(Step(s, l), Enter(a, s.flight.active, l))
  {
  }

  lemma MoveAgrees(s: State, a: Account, l: Label)
    requires Agrees(s, a) && (l.MoveSelection? || l.MovePage?)
    ensures Agrees(Step(s, l), Enter(a, s.flight.active, l))
  {
  }

  lemma TakingFrame(s: State, r: Request, items: Answer<seq<Item>>)
    ensures var t := Taking(s, r, items);
      && t.flight == Finish(s.flight, r, items.Error?) && t.catalog.query == s.catalog.query
      && t.flags == s.flags && t.preview == s.preview && t.pending == s.pending
      && t.history == if Takes(s.flight, r) && items.Success?
                      then s.history.(taken := s.history.taken + items.value) else s.history
  {
  }

  lemma FlightOver(f: Flight, a: Account, r: Request, failed: bool)
    requires FlightAgrees(f, a) && f.active == Some(r)
    ensures FlightAgrees(Finish(f, r, failed), Answered(a, failed)) && (Takes(f, r) <==> a.wanted.Some?)
  {
  }

  lemma LibraryAgrees(s: State, a: Account, r: Request, items: Answer<seq<Item>>)
    requires Agrees(s, a) && r.kind == Library
    ensures var l := FinishLibrary(r, items); Agrees(Step(s, l), Enter(a, s.flight.active, l))
  {
    TakingFrame(s, r, items);
    if s.flight.active == Some(r) { FlightOver(s.flight, a, r, items.Error?); }
  }

  lemma SearchAgrees(s: State, a: Account, r: Request, items: Answer<seq<Item>>)
    requires Agrees(s, a) && r.kind == Remote
    ensures var l := FinishSearch(r, items); Agrees(Step(s, l), Enter(a, s.flight.active, l))
  {
    TakingFrame(s, r, items);
    if s.flight.active == Some(r) { FlightOver(s.flight, a, r, items.Error?); }
  }

  lemma DetailAgrees(s: State, a: Account, r: Request, detail: Answer<int>)
    requires Agrees(s, a) && r.kind == Detail
    ensures var l := FinishDetail(r, detail); Agrees(Step(s, l), Enter(a, s.flight.active, l))
  {
    if s.flight.active == Some(r) { FlightOver(s.flight, a, r, detail.Error?); }
  }

  lemma StepAgrees(s: State, a: Account, l: Label)
    requires Agrees(s, a) && Proper(l)
    ensures Agrees(Step(s, l), Enter(a, s.flight.active, l))
  {
    if Begins(l) {
      BeginAgrees(s, a, l);
    } else if Queues(l) {
      QueueAgrees(s, a, l);
    } else {
      match l
      case SetQuery(query) => QueryAgrees(s, a, query);
      case FinishLibrary(r, items) => LibraryAgrees(s, a, r, items);
      case FinishSearch(r, items) => SearchAgrees(s, a, r, items);
      case FinishDetail(r, detail) => DetailAgrees(s, a, r, detail);
      case Cancel => StopAgrees(s, a, l);
      case Close => StopAgrees(s, a, l);
      case _ => MoveAgrees(s, a, l);
    }
  }

  lemma {:induction false} RunAgrees(s: State, a: Account, labels: seq<Label>)
    requires Agrees(s, a) && AllProper(labels)
    ensures Agrees(Run(s, labels), AccountOf(s, a, labels))
    decreases labels
  {
    if labels != [] {
      StepAgrees(s, a, labels[0]);
      RunAgrees(Step(s, labels[0]), Enter(a, s.flight.active, labels[0]), labels[1..]);
    }
  }

  // Over every run of calls: whether a request is under way, whether its answer is still wanted, what
  // it asks, what the screen says, shows and has queued, and what was answered is what the calls tell.
  lemma ScreenAgrees(labels: seq<Label>)
    requires AllProper(labels)
    ensures Agrees(Run(INITIAL, labels), AccountOf(INITIAL, EMPTY, labels))
  {
    RunAgrees(INITIAL, EMPTY, labels);
  }

  // The list holds, of every ID that was ever answered, the item answered last, and nothing else.
  lemma ListedExactly(labels: seq<Label>, item: Item)
    requires AllProper(labels)
    ensures var (items, answered) := (Run(INITIAL, labels).catalog.items, AccountOf(INITIAL, EMPTY, labels).answered);
      item in items <==> item.id != "" && exists i: nat :: LastOf(answered, item, i)
  {
    ScreenAgrees(labels);
    CatalogExactly(labels);
    LastWinsExactly(AccountOf(INITIAL, EMPTY, labels).answered, item);
  }

  // The i-th item, and no later one, has the item's ID.
  predicate LastOf(items: seq<Item>, item: Item, i: nat) {
    i < |items| && items[i] == item && forall j :: i < j < |items| ==> items[j].id != item.id
  }

  lemma OtherLast(items: seq<Item>, earlier: seq<Item>, item: Item)
    requires items != [] && items[|items| - 1].id != item.id && earlier == items[..|items| - 1]
    ensures (exists i: nat :: LastOf(earlier, item, i)) <==> exists i: nat :: LastOf(items, item, i)
  {
    if i: nat :| LastOf(earlier, item, i) { assert LastOf(items, item, i); }
    if i: nat :| LastOf(items, item, i) { assert i < |earlier| && LastOf(earlier, item, i); }
  }

  lemma {:induction false} LastWinsExactly(items: seq<Item>, item: Item)
    ensures item.id in LastWins(items) && LastWins(items)[item.id] == item <==>
      item.id != "" && exists i: nat :: LastOf(items, item, i)
  {
    LastWinsKeyed(items);
    if items != [] {
      var n := |items| - 1;
      LastWinsExactly(items[..n], item);
      if items[n].id == item.id {
        assert items[n] == item ==> LastOf(items, item, n);
      } else {
        OtherLast(items, items[..n], item);
      }
    }
  }

  // An item is shown exactly if the query without its outer spaces is empty, or occurs in one of
  // the item's names, all in lower case.
  lemma ShownExactly(labels: seq<Label>, item: Item)
    requires AllProper(labels)
    ensures var (c, q) := (Run(INITIAL, labels).catalog, Lower(TrimSpace(AccountOf(INITIAL, EMPTY, labels).query)));
      item in c.results <==>
        item in c.items && (q == "" || Contains(Lower(item.title), q) || Contains(Lower(item.native), q))
  {
    ScreenAgrees(labels);
    CatalogExactly(labels);
  }

  // Moving the selection stops at either end, a new query selects the first result, and anything
  // else leaves the selection where it is as long as there are that many results.
  lemma SelectionExactly(labels: seq<Label>, l: Label)
    requires AllProper(labels)
    ensures var (s, t) := (Run(INITIAL, labels), Step(Run(INITIAL, labels), l));
      var (was, now, count) := (s.catalog.selected, t.catalog.selected, |t.catalog.results|);
      && (l.MoveSelection? && 0 <= was + l.delta < count ==> now == was + l.delta)
      && (l.MoveSelection? && was + l.delta < 0 ==> now == 0)
      && (l.MoveSelection? && was + l.delta >= count > 0 ==> now == count - 1)
      && (l.SetQuery? && l.query != s.catalog.query && !s.flight.closed ==> now == 0)
      && (!l.MoveSelection? && !l.MovePage? && !l.SetQuery? && was < count ==> now == was)
  {
    InitialInv();
    RunKeepsInv(INITIAL, labels);
    var s := Run(INITIAL, labels);
    match l
    case FinishLibrary(r, items) => MergeKeepsSelected(s, r, items);
    case FinishSearch(r, items) => MergeKeepsSelected(s, r, items);
    case FinishDetail(_, _) =>
    case MoveSelection(_) =>
    case SetQuery(_) =>
    case _ =>
  }

  lemma PageExactly(selected: int, delta: int, count: nat)
    requires 0 <= selected < count && delta != 0
    ensures var (now, page) := (MoveToPage(selected, delta, count), selected / 8 + delta);
      && now % 8 == 0
      && now / 8 == if page < 0 then 0 else if page > (count - 1) / 8 then (count - 1) / 8 else page
  {
    MoveToPageLands(selected, delta, count);
  }

  // Moving by pages selects the first result of that page, or of the outermost one in that direction.
  lemma PageSelectionExactly(labels: seq<Label>, delta: int)
    requires AllProper(labels)
    ensures var (c, d) := (Run(INITIAL, labels).catalog, Step(Run(INITIAL, labels), MovePage(delta)).catalog);
      var (last, page) := ((|c.results| - 1) / 8, c.selected / 8 + delta);
      && (delta == 0 || c.results == [] ==> d == c)
      && (delta != 0 && c.results != [] ==>
            && d == c.(selected := d.selected) && d.selected % 8 == 0
            && d.selected / 8 == if page < 0 then 0 else if page > last then last else page)
  {
    InitialInv();
    RunKeepsInv(INITIAL, labels);
    var c := Run(INITIAL, labels).catalog;
    if delta != 0 && c.results != [] { PageExactly(c.selected, delta, |c.results|); }
  }

  lemma MergeKeepsSelected(s: State, r: Request, items: Answer<seq<Item>>)
    requires 0 <= s.catalog.selected
    ensures var t := Taking(s, r, items);
      s.catalog.selected < |t.catalog.results| ==> t.catalog.selected == s.catalog.selected
  {
  }
}

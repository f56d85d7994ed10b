// The search screen's model: at most one request at a time, answers of invalidated requests are
// dropped, and the result list is the filtered, sorted merge of everything that was answered.
module SearchModel {
  import opened Options
  import opened Sequences
  import opened Sorting
  import opened Text

  const PAGE_SIZE: nat := 8

  datatype Item = Item(id: string, title: string, native: string)

  const NO_ITEM := Item("", "", "")

  // ----- merging -----

  // The latest item of each ID.
  function LastWins(items: seq<Item>): map<string, Item> {
    if items == [] then map[]
    else
      var (earlier, item) := (LastWins(items[..|items| - 1]), items[|items| - 1]);
      if item.id == "" then earlier else earlier[item.id := item]
  }

  predicate ItemBefore(a: Item, b: Item) {
    Less(Lower(a.title), Lower(b.title)) || (Lower(a.title) == Lower(b.title) && Less(a.id, b.id))
  }

  ghost predicate KeyedById(m: map<string, Item>) { forall id :: id in m ==> m[id].id == id }

  // items is the sorted listing of m.
  ghost predicate Lists(items: seq<Item>, m: map<string, Item>) {
    Ascending(items, ItemBefore) && Elements(items) == m.Values
  }

  lemma {:induction false} LastWinsKeyed(items: seq<Item>)
    ensures KeyedById(LastWins(items)) && "" !in LastWins(items)
  {
    if items != [] { LastWinsKeyed(items[..|items| - 1]); }
  }

  lemma {:induction false} LastWinsAfter(a: seq<Item>, b: seq<Item>, more: seq<Item>)
    requires LastWins(a) == LastWins(b)
    ensures LastWins(a + more) == LastWins(b + more)
  {
    if more == [] {
      assert a + more == a && b + more == b;
    } else {
      var n := |more| - 1;
      assert (a + more)[..|a| + n] == a + more[..n] && (b + more)[..|b| + n] == b + more[..n];
      LastWinsAfter(a, b, more[..n]);
    }
  }

  lemma {:induction false} LastWinsValue(items: seq<Item>, item: Item)
    requires item in items && item.id != ""
    requires forall other :: other in items && other.id == item.id ==> other == item
    ensures item.id in LastWins(items) && LastWins(items)[item.id] == item
  {
    var n := |items| - 1;
    assert items == items[..n] + [items[n]];
    if item in items[..n] {
      assert forall other :: other in items[..n] ==> other in items;
      LastWinsValue(items[..n], item);
    }
  }

  lemma {:induction false} LastWinsComesFrom(items: seq<Item>, id: string)
    requires id in LastWins(items)
    ensures LastWins(items)[id] in items
  {
    var n := |items| - 1;
    assert items == items[..n] + [items[n]];
    if items[n].id != id || id == "" { LastWinsComesFrom(items[..n], id); }
  }

  // A listing of a map merges back to that map.
  lemma ListingMerges(items: seq<Item>, m: map<string, Item>)
    requires Lists(items, m) && KeyedById(m) && "" !in m
    ensures LastWins(items) == m
  {
    var l := LastWins(items);
    forall item | item in items ensures item.id in m && m[item.id] == item {
      assert item in Elements(items);
      var id :| id in m && m[id] == item;
    }
    forall id | id in m ensures id in l && l[id] == m[id] {
      assert m[id] in Elements(items);
      LastWinsValue(items, m[id]);
    }
    forall id | id in l ensures id in m {
      LastWinsComesFrom(items, id);
      LastWinsKeyed(items);
      assert l[id] in items;
    }
  }

  // Items of different IDs are strictly ordered.
  lemma ItemsOrdered(m: map<string, Item>)
    requires KeyedById(m)
    ensures StrictOrderOn(m.Values, ItemBefore)
  {
    forall a | a in m.Values ensures !ItemBefore(a, a) {
      LessIrreflexive(Lower(a.title));
      LessIrreflexive(a.id);
    }
    forall a, b | a in m.Values && b in m.Values && a != b ensures ItemBefore(a, b) || ItemBefore(b, a) {
      assert a.id != b.id;
      LessTotal(Lower(a.title), Lower(b.title));
      LessTotal(a.id, b.id);
    }
    forall a, b, c | a in m.Values && b in m.Values && c in m.Values && ItemBefore(a, b) && ItemBefore(b, c)
      ensures ItemBefore(a, c)
    {
      if Less(Lower(a.title), Lower(b.title)) && Less(Lower(b.title), Lower(c.title)) {
        LessTransitive(Lower(a.title), Lower(b.title), Lower(c.title));
      }
      if Less(a.id, b.id) && Less(b.id, c.id) { LessTransitive(a.id, b.id, c.id); }
    }
  }

  lemma SortedLists(items: seq<Item>, m: map<string, Item>)
    requires KeyedById(m) && AllDistinct(items) && Elements(items) == m.Values
    ensures Lists(Sorted(items, ItemBefore), m)
  {
    ItemsOrdered(m);
    SortedAscending(items, ItemBefore);
    SortedPermutes(items, ItemBefore);
  }

  // There is one listing of a map.
  lemma ListingUnique(a: seq<Item>, b: seq<Item>, m: map<string, Item>)
    requires KeyedById(m) && Lists(a, m) && Lists(b, m)
    ensures a == b
  {
    ItemsOrdered(m);
    AscendingUnique(a, b, ItemBefore);
  }

  // The map's items in some order.
  method Enumerate(m: map<string, Item>) returns (items: seq<Item>)
    requires KeyedById(m)
    ensures AllDistinct(items) && Elements(items) == m.Values
  {
    items := [];
    var left := m;
    while left != map[]
      invariant forall id :: id in left ==> id in m && left[id] == m[id]
      invariant forall id :: id in m ==> (id in left <==> m[id] !in items)
      invariant forall item :: item in items ==> item in m.Values
      invariant AllDistinct(items)
      decreases |left|
    {
      var id :| id in left;
      assert m[id] !in items;
      items := items + [m[id]];
      left := left - {id};
    }
    assert forall item :: item in m.Values ==> item in items;
  }

  ghost function Listing(m: map<string, Item>): (items: seq<Item>)
    requires KeyedById(m)
    ensures Lists(items, m)
  {
    ListingExists(m);
    var items :| Lists(items, m);
    items
  }

  lemma {:induction false} ListingExists(m: map<string, Item>)
    requires KeyedById(m)
    ensures exists items :: Lists(items, m)
  {
    var items := SomeOrder(m);
    SortedLists(items, m);
  }

  lemma {:induction false} SomeOrder(m: map<string, Item>) returns (items: seq<Item>)
    requires KeyedById(m)
    ensures AllDistinct(items) && Elements(items) == m.Values
    decreases |m|
  {
    if m == map[] {
      items := [];
    } else {
      var id :| id in m;
      var fewer := m - {id};
      items := SomeOrder(fewer);
      forall i | 0 <= i < |items| ensures items[i] != m[id] {
        assert items[i] in Elements(items);
        var k :| k in fewer && fewer[k] == items[i];
      }
      forall item | item in m.Values ensures item in items || item == m[id] {
        var k :| k in m && m[k] == item;
        if k != id { assert fewer[k] in Elements(items); }
      }
      assert forall item :: item in items ==> item in Elements(items);
      items := items + [m[id]];
    }
  }

  // ----- filtering and paging -----

  predicate Shows(item: Item, query: string) {
    var q := Lower(TrimSpace(query));
    q == "" || Contains(Lower(item.title), q) || Contains(Lower(item.native), q)
  }

  function Filter(items: seq<Item>, query: string): seq<Item> {
    if items == [] then []
    else
      var n := |items| - 1;
      Filter(items[..n], query) + if Shows(items[n], query) then [items[n]] else []
  }

  lemma {:induction false} FilterMembers(items: seq<Item>, query: string, item: Item)
    ensures item in Filter(items, query) <==> item in items && Shows(item, query)
  {
    if items != [] {
      var n := |items| - 1;
      FilterMembers(items[..n], query, item);
      assert items == items[..n] + [items[n]];
    }
  }

  lemma {:induction false} FilterAscending(items: seq<Item>, query: string)
    requires Ascending(items, ItemBefore)
    ensures Ascending(Filter(items, query), ItemBefore)
  {
    if items != [] {
      var n := |items| - 1;
      FilterAscending(items[..n], query);
      var shown := Filter(items[..n], query);
      forall i | 0 <= i < |shown| ensures ItemBefore(shown[i], items[n]) {
        FilterMembers(items[..n], query, shown[i]);
        assert shown[i] in items[..n];
      }
    }
  }

  function Min(a: int, b: int): int { if a <= b then a else b }

  function Max(a: int, b: int): int { if a >= b then a else b }

  function Clamp(selected: int, count: nat): int { Max(0, Min(selected, count - 1)) }

  function PageCount(count: nat): nat { (count + PAGE_SIZE - 1) / PAGE_SIZE }

  function MovedPage(page: int, delta: int, count: nat): int {
    Max(0, Min((count - 1) / PAGE_SIZE, page + delta))
  }

  function MoveSelected(selected: int, delta: int, count: nat): int {
    if count == 0 then 0 else Max(0, Min(count - 1, selected + delta))
  }

  function MoveToPage(selected: int, delta: int, count: nat): int {
    if count == 0 || delta == 0 then selected
    else Min(MovedPage(selected / PAGE_SIZE, delta, count) * PAGE_SIZE, count - 1)
  }

  function Page<T>(items: seq<T>, page: nat): seq<T> {
    var start := Min(page * PAGE_SIZE, |items|);
    items[start..Min(start + PAGE_SIZE, |items|)]
  }

  function Pages<T>(items: seq<T>, pages: nat): seq<T> {
    if pages == 0 then [] else Pages(items, pages - 1) + Page(items, pages - 1)
  }

  lemma {:induction false} PagesPrefix<T>(items: seq<T>, pages: nat)
    ensures Pages(items, pages) == items[..Min(pages * PAGE_SIZE, |items|)]
  {
    if pages > 0 { PagesPrefix(items, pages - 1); }
  }

  // The pages together are the whole list; each has 8 items, but for the last, which has 1 to 8.
  lemma PagesCover<T>(items: seq<T>)
    ensures Pages(items, PageCount(|items|)) == items
    ensures forall p: nat :: p < PageCount(|items|) ==>
      if p + 1 < PageCount(|items|) then |Page(items, p)| == 8 else 0 < |Page(items, p)| <= 8
  {
    PagesPrefix(items, PageCount(|items|));
  }

  // Moving by pages lands on the first item of the page asked for, as far as there are pages; the
  // selected item is always on the shown page.
  lemma MoveToPageLands(selected: int, delta: int, count: nat)
    requires 0 <= selected < count && delta != 0
    ensures var target := MoveToPage(selected, delta, count);
      && 0 <= target < count && target % PAGE_SIZE == 0
      && 0 <= target / PAGE_SIZE < PageCount(count)
      && (0 <= selected / PAGE_SIZE + delta < PageCount(count) ==> target / PAGE_SIZE == selected / PAGE_SIZE + delta)
      && (selected / PAGE_SIZE + delta < 0 ==> target == 0)
      && (selected / PAGE_SIZE + delta >= PageCount(count) ==> target / PAGE_SIZE == PageCount(count) - 1)
  {
  }

  // ----- requests -----

  datatype Kind = Library | Remote | Detail

  datatype Request = Request(generation: nat, kind: Kind)

  datatype Phase = Idle | Loading | Failed

  // cancelHeld: the context's cancel function of the active request is still kept.
  datatype Flight = Flight(generation: nat, active: Option<Request>, cancelHeld: bool, phase: Phase, closed: bool)

  predicate Current(f: Flight, r: Request) { !f.closed && f.generation == r.generation }

  predicate Takes(f: Flight, r: Request) { f.active == Some(r) && Current(f, r) }

  predicate Free(f: Flight) { !f.closed && f.active.None? }

  function Begin(f: Flight, kind: Kind): Flight {
    if !Free(f) then f
    else f.(generation := f.generation + 1, active := Some(Request(f.generation + 1, kind)), cancelHeld := true,
            phase := Loading)
  }

  function Invalidate(f: Flight): Flight {
    f.(generation := f.generation + 1, cancelHeld := false, phase := Idle)
  }

  // The request is over; the phase changes only where its answer is taken.
  function Finish(f: Flight, r: Request, failed: bool): Flight {
    if f.active != Some(r) then f
    else f.(active := None, cancelHeld := false,
            phase := if !Current(f, r) then f.phase else if failed then Failed else Idle)
  }

  function Over(f: Flight, r: Request): Flight {
    if f.active == Some(r) then f.(active := None, cancelHeld := false) else f
  }

  // Finish is the end of the request and what its answer makes of the phase.
  lemma FinishIsOver(f: Flight, r: Request, failed: bool)
    ensures Finish(f, r, failed).(phase := f.phase) == Over(f, r)
  {
  }

  // ----- the whole model -----

  datatype Catalog = Catalog(items: seq<Item>, results: seq<Item>, query: string, selected: int)

  // Answers to a detail request are opaque.
  datatype Preview = Preview(detail: Option<int>, item: Item)

  datatype Pending = Pending(kind: Option<Kind>, item: Item)

  datatype Flags = Flags(loaded: bool, libraryFailed: bool, remoteQuery: string)

  // What the active request was begun for.
  datatype Question = OfLibrary | OfQuery(query: string) | OfItem(item: Item)

  // History: the question of the last request begun, the question the shown detail answers, and
  // every item of every answer that was taken.
  datatype History = History(asked: Question, previewOf: Question, taken: seq<Item>)

  datatype State = State(flight: Flight, catalog: Catalog, preview: Preview, pending: Pending, flags: Flags,
                         history: History)

  datatype Answer<T> = Error | Success(value: T)

  datatype Label =
    | SetQuery(query: string)
    | BeginLibrary
    | BeginSearch
    | BeginDetail(item: Item)
    | QueueSearch
    | QueueDetail(item: Item)
    | TakePending
    | FinishLibrary(request: Request, items: Answer<seq<Item>>)
    | FinishSearch(request: Request, items: Answer<seq<Item>>)
    | FinishDetail(request: Request, detail: Answer<int>)
    | Cancel
    | Close
    | MoveSelection(delta: int)
    | MovePage(delta: int)

  const NO_PENDING := Pending(None, NO_ITEM)
  const NO_PREVIEW := Preview(None, NO_ITEM)

  const INITIAL := State(
    Flight(0, None, false, Idle, false), Catalog([], [], "", 0), NO_PREVIEW, NO_PENDING, Flags(false, false, ""),
    History(OfLibrary, OfLibrary, []))

  ghost function Refilter(c: Catalog): Catalog {
    var results := Filter(c.items, c.query);
    c.(results := results, selected := Clamp(c.selected, |results|))
  }

  ghost function Merge(c: Catalog, items: seq<Item>): Catalog {
    LastWinsKeyed(c.items + items);
    Refilter(c.(items := Listing(LastWins(c.items + items))))
  }

  ghost function Taken(s: State, items: seq<Item>): State {
    s.(catalog := Merge(s.catalog, items), history := s.history.(taken := s.history.taken + items))
  }

  ghost function Taking(s: State, r: Request, items: Answer<seq<Item>>): State {
    var flight := Finish(s.flight, r, items.Error?);
    if !Takes(s.flight, r) || items.Error? then s.(flight := flight)
    else Taken(s, items.value).(flight := flight)
  }

  predicate CanQueueDetail(s: State, item: Item) { !s.flight.closed && s.flight.active.Some? && item.id != "" }

  predicate Stale(f: Flight) { f.active.Some? && f.active.value.generation != f.generation }

  // What every invalidation does.
  function Invalidated(s: State): State { s.(flight := Invalidate(s.flight), preview := NO_PREVIEW) }

  ghost function Step(s: State, l: Label): State {
    match l
    case SetQuery(query) =>
      if s.catalog.query == query || s.flight.closed then s
      else
        var t := Invalidated(s);
        t.(pending := NO_PENDING, catalog := Refilter(s.catalog.(query := query, selected := 0)),
           flags := s.flags.(remoteQuery := ""))
    case BeginLibrary =>
      if s.flags.loaded || !Free(s.flight) then s
      else s.(flight := Begin(s.flight, Library), history := s.history.(asked := OfLibrary))
    case BeginSearch =>
      if TrimSpace(s.catalog.query) == "" || !Free(s.flight) then s
      else s.(flight := Begin(s.flight, Remote), history := s.history.(asked := OfQuery(s.catalog.query)))
    case BeginDetail(item) =>
      if item.id == "" || !Free(s.flight) then s
      else s.(flight := Begin(s.flight, Detail), preview := Preview(None, item),
              history := s.history.(asked := OfItem(item)))
    case QueueSearch =>
      if CanQueueSearch(s) then s.(pending := Pending(Some(Remote), NO_ITEM)) else s
    case QueueDetail(item) =>
      if !CanQueueDetail(s, item) then s
      else
        var t := if Stale(s.flight) then s else Invalidated(s);
        t.(pending := Pending(Some(Detail), item), preview := Preview(None, item))
    case TakePending =>
      if s.flight.closed || s.flight.active.Some? || s.pending.kind.None? then s else s.(pending := NO_PENDING)
    case FinishLibrary(r, items) =>
      if !Takes(s.flight, r) then Taking(s, r, items)
      else
        var t := Taking(s, r, items);
        t.(flags := t.flags.(loaded := t.flags.loaded || items.Success?, libraryFailed := items.Error?))
    case FinishSearch(r, items) =>
      if !Takes(s.flight, r) then Taking(s, r, items)
      else
        var t := Taking(s, r, items);
        t.(flags := t.flags.(remoteQuery := if items.Error? then "" else s.catalog.query))
    case FinishDetail(r, detail) =>
      var t := s.(flight := Finish(s.flight, r, detail.Error?));
      if !Takes(s.flight, r) || detail.Error? then t
      else t.(preview := s.preview.(detail := Some(detail.value)), history := s.history.(previewOf := s.history.asked))
    case Cancel => Invalidated(s).(pending := NO_PENDING)
    case Close =>
      var t := Invalidated(s).(pending := NO_PENDING);
      t.(flight := t.flight.(closed := true))
    case MoveSelection(delta) =>
      s.(catalog := s.catalog.(selected := MoveSelected(s.catalog.selected, delta, |s.catalog.results|)))
    case MovePage(delta) =>
      s.(catalog := s.catalog.(selected := MoveToPage(s.catalog.selected, delta, |s.catalog.results|)))
  }

  predicate CanQueueSearch(s: State) {
    && !s.flight.closed && s.flight.active.Some?
    && (s.flight.active.value.kind == Library || Stale(s.flight)) && TrimSpace(s.catalog.query) != ""
  }

  // A finish call is made with a request that the begin call of its kind returned.
  predicate Proper(l: Label) {
    match l
    case FinishLibrary(r, _) => r.kind == Library
    case FinishSearch(r, _) => r.kind == Remote
    case FinishDetail(r, _) => r.kind == Detail
    case _ => true
  }

  ghost function Run(s: State, labels: seq<Label>): State
    decreases labels
  {
    if labels == [] then s else Run(Step(s, labels[0]), labels[1..])
  }

  ghost predicate AllProper(labels: seq<Label>) { forall i :: 0 <= i < |labels| ==> Proper(labels[i]) }

  // ----- the invariant -----

  ghost predicate FlightInv(f: Flight) {
    && (f.active.Some? ==> f.active.value.generation <= f.generation)
    && (f.cancelHeld <==> exists r :: Takes(f, r))
    && (f.phase.Loading? <==> exists r :: Takes(f, r))
  }

  ghost predicate CatalogInv(c: Catalog, taken: seq<Item>) {
    && KeyedById(LastWins(taken))
    && Lists(c.items, LastWins(taken))
    && c.results == Filter(c.items, c.query)
    && 0 <= c.selected && (c.selected < |c.results| || c.selected == |c.results| == 0)
  }

  predicate Answers(kind: Kind, q: Question) {
    match q
    case OfLibrary => kind == Library
    case OfQuery(_) => kind == Remote
    case OfItem(_) => kind == Detail
  }

  // A request whose answer would still be taken asks for what the screen shows, and a shown detail
  // is the one of the previewed item.
  ghost predicate QuestionInv(s: State) {
    && (forall r :: Takes(s.flight, r) ==>
          && Answers(r.kind, s.history.asked)
          && (s.history.asked.OfQuery? ==> s.history.asked.query == s.catalog.query)
          && (s.history.asked.OfItem? ==> s.preview.item == s.history.asked.item))
    && (s.preview.detail.Some? ==> s.history.previewOf == OfItem(s.preview.item))
  }

  ghost predicate PendingInv(s: State) {
    && (s.pending.kind.Some? ==> !s.flight.closed)
    && (s.pending.kind == Some(Detail) ==> s.pending.item.id != "")
    && s.pending.kind != Some(Library)
  }

  ghost predicate Inv(s: State) {
    && FlightInv(s.flight) && CatalogInv(s.catalog, s.history.taken) && QuestionInv(s) && PendingInv(s)
  }

  lemma InitialInv()
    ensures Inv(INITIAL)
  {
    assert Elements<Item>([]) == {};
  }

  lemma FlightSteps(s: State, l: Label)
    requires FlightInv(s.flight)
    ensures FlightInv(Step(s, l).flight)
    ensures s.flight.generation <= Step(s, l).flight.generation
    ensures s.flight.closed ==> Step(s, l).flight.closed
  {
    var f, g := s.flight, Step(s, l).flight;
    if g.generation > f.generation && g.active.Some? && g.active != f.active {
      assert Takes(g, g.active.value);
    }
    if g.active == f.active && g.active.Some? {
      assert Takes(f, f.active.value) || !exists r :: Takes(f, r);
      assert Takes(g, g.active.value) || !exists r :: Takes(g, r);
    }
  }

  lemma MergeKeeps(c: Catalog, taken: seq<Item>, items: seq<Item>)
    requires CatalogInv(c, taken)
    ensures CatalogInv(Merge(c, items), taken + items)
  {
    LastWinsKeyed(taken);
    LastWinsKeyed(taken + items);
    ListingMerges(c.items, LastWins(taken));
    LastWinsAfter(c.items, taken, items);
  }

  lemma TakingKeeps(s: State, r: Request, items: Answer<seq<Item>>)
    requires CatalogInv(s.catalog, s.history.taken)
    ensures CatalogInv(Taking(s, r, items).catalog, Taking(s, r, items).history.taken)
  {
    if Takes(s.flight, r) && items.Success? { MergeKeeps(s.catalog, s.history.taken, items.value); }
  }

  lemma SelectionKeeps(c: Catalog, taken: seq<Item>, delta: int)
    requires CatalogInv(c, taken)
    ensures CatalogInv(c.(selected := MoveSelected(c.selected, delta, |c.results|)), taken)
    ensures CatalogInv(c.(selected := MoveToPage(c.selected, delta, |c.results|)), taken)
  {
    if |c.results| > 0 && delta != 0 { MoveToPageLands(c.selected, delta, |c.results|); }
  }

  lemma RefilterKeeps(c: Catalog, taken: seq<Item>, query: string)
    requires CatalogInv(c, taken)
    ensures CatalogInv(Refilter(c.(query := query, selected := 0)), taken)
  {
  }

  lemma CatalogSteps(s: State, l: Label)
    requires CatalogInv(s.catalog, s.history.taken)
    ensures CatalogInv(Step(s, l).catalog, Step(s, l).history.taken)
  {
    match l
    case FinishLibrary(r, items) => TakingKeeps(s, r, items);
    case FinishSearch(r, items) => TakingKeeps(s, r, items);
    case MovePage(delta) => SelectionKeeps(s.catalog, s.history.taken, delta);
    case MoveSelection(delta) => SelectionKeeps(s.catalog, s.history.taken, delta);
    case SetQuery(query) => RefilterKeeps(s.catalog, s.history.taken, query);
    case _ =>
  }

  lemma QuestionSteps(s: State, l: Label)
    requires FlightInv(s.flight) && QuestionInv(s) && Proper(l)
    ensures QuestionInv(Step(s, l))
  {
    var t := Step(s, l);
    forall r | Takes(t.flight, r)
      ensures Takes(s.flight, r) || t.flight == Begin(s.flight, r.kind)
    {
    }
  }

  lemma PendingSteps(s: State, l: Label)
    requires PendingInv(s)
    ensures PendingInv(Step(s, l))
  {
  }

  lemma {:induction false} RunKeepsInv(s: State, labels: seq<Label>)
    requires Inv(s) && AllProper(labels)
    ensures Inv(Run(s, labels))
    decreases labels
  {
    if labels != [] {
      var l := labels[0];
      FlightSteps(s, l);
      CatalogSteps(s, l);
      QuestionSteps(s, l);
      PendingSteps(s, l);
      RunKeepsInv(Step(s, l), labels[1..]);
    }
  }

  // ----- what holds throughout -----

  // The screen says Loading exactly while the answer it waits for would be taken.
  lemma LoadingExactly(labels: seq<Label>)
    requires AllProper(labels)
    ensures var f := Run(INITIAL, labels).flight;
      && (f.phase == Loading <==> !f.closed && f.active.Some? && f.active.value.generation == f.generation)
      && (f.cancelHeld <==> f.phase == Loading)
  {
    InitialInv();
    RunKeepsInv(INITIAL, labels);
    var f := Run(INITIAL, labels).flight;
    if f.active.Some? { assert Takes(f, f.active.value) <==> Current(f, f.active.value); }
  }

  // The list is everything that was ever answered, the latest item of each ID, sorted and without
  // repeats; the results are the part of it that the query shows, and the selection is one of them.
  lemma CatalogExactly(labels: seq<Label>)
    requires AllProper(labels)
    ensures var s := Run(INITIAL, labels); var c := s.catalog;
      && Ascending(c.items, ItemBefore)
      && (forall i, j :: 0 <= i < j < |c.items| ==> c.items[i].id != c.items[j].id)
      && (forall item :: item in c.items <==>
            item.id in LastWins(s.history.taken) && LastWins(s.history.taken)[item.id] == item)
      && Ascending(c.results, ItemBefore)
      && (forall item :: item in c.results <==> item in c.items && Shows(item, c.query))
      && (c.results != [] ==> 0 <= c.selected < |c.results|)
  {
    InitialInv();
    RunKeepsInv(INITIAL, labels);
    var s := Run(INITIAL, labels);
    var c, m := s.catalog, LastWins(s.history.taken);
    FilterAscending(c.items, c.query);
    forall item { FilterMembers(c.items, c.query, item); }
    forall item ensures item in c.items <==> item.id in m && m[item.id] == item {
      assert item in c.items <==> item in Elements(c.items);
      if item in m.Values { var id :| id in m && m[id] == item; }
    }
    ItemsOrdered(m);
    forall i, j | 0 <= i < j < |c.items| ensures c.items[i].id != c.items[j].id {
      assert c.items[i] in Elements(c.items) && c.items[j] in Elements(c.items);
      assert ItemBefore(c.items[i], c.items[j]);
    }
  }

  // A search answer that is taken answers the query on the screen, and a detail on the screen is
  // the previewed item's.
  lemma AnswersMatchTheScreen(labels: seq<Label>, r: Request)
    requires AllProper(labels)
    ensures var s := Run(INITIAL, labels);
      && (Takes(s.flight, r) && r.kind == Remote ==> s.history.asked == OfQuery(s.catalog.query))
      && (Takes(s.flight, r) && r.kind == Detail ==> s.history.asked == OfItem(s.preview.item))
      && (s.preview.detail.Some? ==> s.history.previewOf == OfItem(s.preview.item))
  {
    InitialInv();
    RunKeepsInv(INITIAL, labels);
  }

  // ----- answers are taken exactly while nothing invalidated them -----

  predicate Ends(l: Label, r: Request) {
    (l.FinishLibrary? || l.FinishSearch? || l.FinishDetail?) && l.request == r
  }

  // The calls that make the answer under way unwanted.
  predicate Disturbs(s: State, l: Label) {
    match l
    case SetQuery(query) => !s.flight.closed && query != s.catalog.query
    case QueueDetail(item) => CanQueueDetail(s, item) && !Stale(s.flight)
    case Cancel => true
    case Close => true
    case _ => false
  }

  ghost predicate Undisturbed(s: State, labels: seq<Label>)
    decreases labels
  {
    labels == [] || (!Disturbs(s, labels[0]) && Undisturbed(Step(s, labels[0]), labels[1..]))
  }

  // A request that is no longer current is never taken again, whatever follows.
  lemma {:induction false} StaleForGood(s: State, r: Request, labels: seq<Label>)
    requires FlightInv(s.flight) && r.generation < s.flight.generation
    ensures !Takes(Run(s, labels).flight, r)
    decreases labels
  {
    if labels != [] {
      FlightSteps(s, labels[0]);
      StaleForGood(Step(s, labels[0]), r, labels[1..]);
    }
  }

  lemma DisturbStep(s: State, r: Request, l: Label)
    requires FlightInv(s.flight) && Takes(s.flight, r) && !Ends(l, r)
    ensures !Disturbs(s, l) ==> Takes(Step(s, l).flight, r)
    ensures Disturbs(s, l) ==> r.generation < Step(s, l).flight.generation
  {
  }

  // From begin to finish: the answer is taken exactly if no call in between disturbed it.
  lemma {:induction false} TakenExactly(s: State, r: Request, labels: seq<Label>)
    requires FlightInv(s.flight) && Takes(s.flight, r)
    requires forall i :: 0 <= i < |labels| ==> !Ends(labels[i], r)
    ensures Takes(Run(s, labels).flight, r) <==> Undisturbed(s, labels)
    decreases labels
  {
    if labels != [] {
      var l := labels[0];
      assert !Ends(l, r);
      FlightSteps(s, l);
      DisturbStep(s, r, l);
      if Disturbs(s, l) {
        StaleForGood(Step(s, l), r, labels[1..]);
      } else {
        TakenExactly(Step(s, l), r, labels[1..]);
      }
    }
  }

  // A finish call whose answer is not taken changes nothing but that the request is over.
  lemma UnwantedAnswerIgnored(s: State, r: Request, items: Answer<seq<Item>>, detail: Answer<int>)
    requires Inv(s) && !Takes(s.flight, r)
    ensures forall l :: l in {FinishLibrary(r, items), FinishSearch(r, items), FinishDetail(r, detail)} ==>
      var t := Step(s, l);
      && t.catalog == s.catalog && t.preview == s.preview && t.pending == s.pending && t.flags == s.flags
      && t.flight.phase == s.flight.phase && t.flight.generation == s.flight.generation
      && t.flight.active == if s.flight.active == Some(r) then None else s.flight.active
  {
  }

  // After close no request is ever begun and no answer taken.
  lemma {:induction false} ClosedForGood(s: State, labels: seq<Label>)
    requires FlightInv(s.flight) && s.flight.closed
    ensures var t := Run(s, labels);
      t.flight.closed && t.catalog.items == s.catalog.items && (s.flight.active.None? ==> t.flight.active.None?)
    decreases labels
  {
    if labels != [] {
      FlightSteps(s, labels[0]);
      ClosedForGood(Step(s, labels[0]), labels[1..]);
    }
  }

  // ----- the model object -----

  class Model {
    var items: seq<Item>
    var results: seq<Item>
    var query: string
    var selected: int
    var phase: Phase
    var loaded: bool
    var libraryFailed: bool
    var detail: Option<int>
    var previewItem: Item
    var remoteQuery: string
    var closed: bool
    var generation: nat
    var active: Option<Request>
    var cancelHeld: bool
    var pending: Option<Kind>
    var pendingItem: Item
    ghost var history: History

    ghost function View(): State
      reads this
    {
      State(Flight(generation, active, cancelHeld, phase, closed), Catalog(items, results, query, selected),
            Preview(detail, previewItem), Pending(pending, pendingItem),
            Flags(loaded, libraryFailed, remoteQuery), history)
    }

    constructor ()
      ensures View() == INITIAL
    {
      items, results, query, selected := [], [], "", 0;
      phase, loaded, libraryFailed, detail, previewItem, remoteQuery := Idle, false, false, None, NO_ITEM, "";
      closed, generation, active, cancelHeld, pending, pendingItem := false, 0, None, false, None, NO_ITEM;
      history := History(OfLibrary, OfLibrary, []);
    }

    method FilterResults()
      modifies this`results, this`selected
      ensures View().catalog == Refilter(old(View().catalog))
    {
      var q := Lower(TrimSpace(query));
      results := [];
      for i := 0 to |items|
        invariant results == Filter(items[..i], query) && selected == old(selected)
      {
        if q == "" || Contains(Lower(items[i].title), q) || Contains(Lower(items[i].native), q) {
          results := results + [items[i]];
        }
        assert items[..i + 1][..i] == items[..i];
      }
      assert items[..|items|] == items;
      selected := Max(0, Min(selected, |results| - 1));
    }

    method MergeItems(more: seq<Item>)
      modifies this`items
      ensures KeyedById(LastWins(old(items) + more))
      ensures items == Listing(LastWins(old(items) + more))
    {
      var byId: map<string, Item> := map[];
      var all := items + more;
      for i := 0 to |all|
        invariant byId == LastWins(all[..i])
      {
        if all[i].id != "" { byId := byId[all[i].id := all[i]]; }
        assert all[..i + 1][..i] == all[..i];
      }
      assert all[..|all|] == all;
      LastWinsKeyed(all);
      var listed := Enumerate(byId);
      var sorted := new Item[|listed|](i requires 0 <= i < |listed| => listed[i]);
      assert sorted[..] == listed;
      SortStable(sorted, ItemBefore);
      SortedLists(listed, byId);
      ListingUnique(sorted[..], Listing(byId), byId);
      items := sorted[..];
    }

    method InvalidateRequest()
      modifies this`generation, this`cancelHeld, this`detail, this`previewItem, this`phase
      ensures View() == Invalidated(old(View()))
    {
      generation := generation + 1;
      cancelHeld := false;
      detail, previewItem := None, NO_ITEM;
      phase := Idle;
    }

    method ChangeQuery(value: string)
      modifies this
      ensures View() == Step(old(View()), SetQuery(value))
    {
      if query == value || closed { return; }
      InvalidateRequest();
      ClearQueue();
      ReplaceQuery(value);
    }

    method ReplaceQuery(value: string)
      modifies this`query, this`remoteQuery, this`selected, this`results
      ensures View() == old(View()).(catalog := Refilter(old(View().catalog).(query := value, selected := 0)),
                                     flags := old(View().flags).(remoteQuery := ""))
    {
      query, remoteQuery, selected := value, "", 0;
      FilterResults();
    }

    method ClearQueue()
      modifies this`pending, this`pendingItem
      ensures View() == old(View()).(pending := NO_PENDING)
    {
      pending, pendingItem := None, NO_ITEM;
    }

    method BeginRequest(kind: Kind) returns (ok: bool)
      modifies this`generation, this`active, this`cancelHeld, this`phase
      ensures ok <==> Free(old(View().flight))
      ensures View() == old(View()).(flight := Begin(old(View().flight), kind))
    {
      if closed || active.Some? { return false; }
      generation := generation + 1;
      active := Some(Request(generation, kind));
      cancelHeld, phase := true, Loading;
      return true;
    }

    method StartLibrary() returns (ok: bool)
      modifies this
      ensures View() == Step(old(View()), BeginLibrary)
      ensures ok <==> !old(loaded) && Free(old(View().flight))
    {
      if loaded { return false; }
      ok := BeginRequest(Library);
      if ok { history := history.(asked := OfLibrary); }
    }

    method StartSearch() returns (ok: bool)
      modifies this
      ensures View() == Step(old(View()), BeginSearch)
      ensures ok <==> TrimSpace(old(query)) != "" && Free(old(View().flight))
    {
      if TrimSpace(query) == "" { return false; }
      ok := BeginRequest(Remote);
      if ok { history := history.(asked := OfQuery(query)); }
    }

    method StartDetail(item: Item) returns (ok: bool)
      modifies this
      ensures View() == Step(old(View()), BeginDetail(item))
      ensures ok <==> item.id != "" && Free(old(View().flight))
    {
      if item.id == "" { return false; }
      ok := BeginRequest(Detail);
      if !ok { return; }
      previewItem, detail := item, None;
      history := history.(asked := OfItem(item));
    }

    method QueueRemote()
      modifies this
      ensures View() == Step(old(View()), QueueSearch)
    {
      if !closed && active.Some? && (active.value.kind == Library || active.value.generation != generation)
         && TrimSpace(query) != "" {
        pending, pendingItem := Some(Remote), NO_ITEM;
      }
    }

    method QueuePreview(item: Item)
      modifies this
      ensures View() == Step(old(View()), QueueDetail(item))
    {
      if closed || active.None? || item.id == "" { return; }
      if active.value.generation == generation { InvalidateRequest(); }
      pending, pendingItem := Some(Detail), item;
      previewItem, detail := item, None;
    }

    method TakeQueued() returns (kind: Option<Kind>, item: Item)
      modifies this
      ensures View() == Step(old(View()), TakePending)
      ensures var noQuery := old(pending) == Some(Remote) && TrimSpace(old(query)) == "";
              var nothing := old(closed) || old(active).Some? || noQuery;
              kind == if nothing then None else old(pending)
      ensures kind.Some? ==> item == old(pendingItem)
    {
      if closed || active.Some? || pending.None? { return None, NO_ITEM; }
      kind, item := pending, pendingItem;
      pending, pendingItem := None, NO_ITEM;
      if kind == Some(Remote) && TrimSpace(query) == "" { return None, NO_ITEM; }
    }

    // The request is over; current reports whether its answer is wanted.
    method FinishRequest(r: Request) returns (current: bool)
      modifies this`active, this`cancelHeld
      ensures current <==> Takes(old(View().flight), r)
      ensures View() == old(View()).(flight := Over(old(View().flight), r))
    {
      if active != Some(r) { return false; }
      active, cancelHeld := None, false;
      return !closed && generation == r.generation;
    }

    method TakeItems(more: seq<Item>)
      modifies this`items, this`results, this`selected, this`history
      ensures View() == Taken(old(View()), more)
    {
      MergeItems(more);
      FilterResults();
      history := history.(taken := history.taken + more);
    }

    method EndLibrary(r: Request, answer: Answer<seq<Item>>) returns (taken: bool)
      modifies this
      ensures View() == Step(old(View()), FinishLibrary(r, answer))
      ensures taken <==> Takes(old(View().flight), r)
    {
      taken := FinishRequest(r);
      if !taken { return; }
      if answer.Error? {
        phase, libraryFailed := Failed, true;
        return;
      }
      TakeItems(answer.value);
      loaded := true;
      libraryFailed, phase := false, Idle;
    }

    method EndSearch(r: Request, answer: Answer<seq<Item>>) returns (taken: bool)
      modifies this
      ensures View() == Step(old(View()), FinishSearch(r, answer))
      ensures taken <==> Takes(old(View().flight), r)
    {
      taken := FinishRequest(r);
      if !taken { return; }
      if answer.Error? {
        phase, remoteQuery := Failed, "";
        return;
      }
      TakeItems(answer.value);
      remoteQuery, phase := query, Idle;
    }

    method EndDetail(r: Request, answer: Answer<int>) returns (taken: bool)
      modifies this
      ensures View() == Step(old(View()), FinishDetail(r, answer))
      ensures taken <==> Takes(old(View().flight), r)
    {
      taken := FinishRequest(r);
      if !taken { return; }
      if answer.Error? {
        phase := Failed;
        return;
      }
      detail, phase := Some(answer.value), Idle;
      history := history.(previewOf := history.asked);
    }

    method CancelRequest()
      modifies this
      ensures View() == Step(old(View()), Cancel)
    {
      InvalidateRequest();
      ClearQueue();
    }

    method Shut()
      modifies this
      ensures View() == Step(old(View()), Close)
    {
      closed := true;
      InvalidateRequest();
      ClearQueue();
    }

    method SelectBy(delta: int)
      modifies this`selected
      ensures View() == Step(old(View()), MoveSelection(delta))
    {
      if results == [] {
        selected := 0;
        return;
      }
      selected := Max(0, Min(|results| - 1, selected + delta));
    }

    method TurnPage(delta: int)
      modifies this`selected
      ensures View() == Step(old(View()), MovePage(delta))
    {
      if results == [] || delta == 0 { return; }
      var page := MovedPage(selected / PAGE_SIZE, delta, |results|);
      selected := Min(page * PAGE_SIZE, |results| - 1);
    }

    // The shown page is the one with the selected result.
    method VisibleResults() returns (visible: seq<Item>)
      requires CatalogInv(View().catalog, history.taken)
      ensures visible == Page(results, selected / PAGE_SIZE)
      ensures results != [] ==> results[selected] in visible
    {
      if results == [] { return []; }
      var start := selected / PAGE_SIZE * PAGE_SIZE;
      var end := Min(|results|, start + PAGE_SIZE);
      visible := results[start..end];
      assert visible[selected - start] == results[selected];
    }
  }
}

/** The backend activity timeline (backend/src/routes/activity.js). Both record kinds are
    projected into one tagged item, concatenated, and ordered newest first. The route only
    reads, so the timeline is a function of the two collections and of what population
    finds for each reference. */
module ActivityFeed {
  import opened Common
  import opened Sorting
  import opened Records

  datatype Kind = ToolMoveKind | WeldKind

  /** The `type` string the item carries. */
  function Tag(k: Kind): (t: string)
    ensures t == "tool_move" <==> k == ToolMoveKind
    ensures t == "weld_touchup" <==> k == WeldKind
  {
    match k
    case ToolMoveKind => "tool_move"
    case WeldKind => "weld_touchup"
  }

  /** The `details` object. Its names are the raw populated names (no `|| null`). */
  datatype Details =
    | MoveDetails(reasonName: Option<string>, department: Option<string>, line: Option<string>,
                  station: Option<string>, notes: Option<string>, movedBy: string,
                  requiresWeldTouchup: bool, weldTouchupCompleted: bool,
                  weldTouchupNotes: Option<string>)
    | WeldDetails(partNumber: string, weldType: string, reason: string,
                  department: Option<string>, line: Option<string>, station: Option<string>,
                  notes: Option<string>, completedBy: string, status: string)

  /** One timeline entry. `date` is the record's creation time. */
  datatype Item = Item(
    id: Id,
    kind: Kind,
    date: int,
    departmentName: Option<string>,
    lineName: Option<string>,
    stationName: Option<string>,
    description: string,
    performedBy: string,
    notes: Option<string>,
    details: Option<Details>)

  /** What `populate(path, "name")` can find: the name of every referenced document that
      exists, per collection. */
  datatype Directory = Directory(
    reasons: map<Id, string>,
    departments: map<Id, string>,
    lines: map<Id, string>,
    stations: map<Id, string>)

  /** `doc.ref?.name` after population: absent when the field is empty or the referenced
      document no longer exists. */
  function Resolve(ref: Option<Id>, names: map<Id, string>): (r: Option<string>)
    ensures r.Some? <==> ref.Some? && ref.value in names
    ensures r.Some? ==> r.value == names[ref.value]
  {
    if ref.Some? && ref.value in names then Some(names[ref.value]) else None
  }

  function MoveItem(m: ToolMove, dir: Directory): (it: Item)
    ensures it.id == m.id && it.kind == ToolMoveKind && it.date == m.createdAt
    ensures it.performedBy == m.movedBy && it.notes == m.notes
    ensures var reason := Resolve(Some(m.reason), dir.reasons);
            && (Present(reason) ==> it.description == "Reason: " + reason.value)
            && (!Present(reason) ==> it.description == "Reason: Unknown")
    ensures var d := Resolve(m.department, dir.departments);
            (it.departmentName.Some? <==> Present(d)) && (it.departmentName.Some? ==> it.departmentName == d)
    ensures var l := Resolve(m.line, dir.lines);
            (it.lineName.Some? <==> Present(l)) && (it.lineName.Some? ==> it.lineName == l)
    ensures var s := Resolve(m.station, dir.stations);
            (it.stationName.Some? <==> Present(s)) && (it.stationName.Some? ==> it.stationName == s)
    ensures it.details.Some? && it.details.value.MoveDetails?
    ensures var dt := it.details.value;
            && dt.requiresWeldTouchup == m.requiresWeldTouchup
            && dt.weldTouchupCompleted == m.weldTouchupCompleted
            && dt.weldTouchupNotes == m.weldTouchupNotes
            && dt.reasonName == Resolve(Some(m.reason), dir.reasons)
            && dt.department == Resolve(m.department, dir.departments)
            && dt.line == Resolve(m.line, dir.lines)
            && dt.station == Resolve(m.station, dir.stations)
            && dt.notes == m.notes && dt.movedBy == m.movedBy
  {
    var reason := Resolve(Some(m.reason), dir.reasons);
    var department := Resolve(m.department, dir.departments);
    var line := Resolve(m.line, dir.lines);
    var station := Resolve(m.station, dir.stations);
    Item(m.id, ToolMoveKind, m.createdAt, OrNull(department), OrNull(line), OrNull(station),
         "Reason: " + OrElse(reason, "Unknown"), m.movedBy, m.notes,
         Some(MoveDetails(reason, department, line, station, m.notes, m.movedBy,
                          m.requiresWeldTouchup, m.weldTouchupCompleted, m.weldTouchupNotes)))
  }

  function WeldItem(w: WeldTouchup, dir: Directory): (it: Item)
    ensures it.id == w.id && it.kind == WeldKind && it.date == w.createdAt
    ensures it.performedBy == w.completedBy && it.notes == w.notes
    ensures it.description == "Part " + w.partNumber + " - " + w.weldType + " (" + w.reason + ")"
    ensures var d := Resolve(w.department, dir.departments);
            (it.departmentName.Some? <==> Present(d)) && (it.departmentName.Some? ==> it.departmentName == d)
    ensures var l := Resolve(w.line, dir.lines);
            (it.lineName.Some? <==> Present(l)) && (it.lineName.Some? ==> it.lineName == l)
    ensures var s := Resolve(w.station, dir.stations);
            (it.stationName.Some? <==> Present(s)) && (it.stationName.Some? ==> it.stationName == s)
    ensures it.details.Some? && it.details.value.WeldDetails?
    ensures var dt := it.details.value;
            && dt.status == w.status && dt.reason == w.reason
            && dt.partNumber == w.partNumber && dt.weldType == w.weldType
            && dt.department == Resolve(w.department, dir.departments)
            && dt.line == Resolve(w.line, dir.lines)
            && dt.station == Resolve(w.station, dir.stations)
            && dt.notes == w.notes && dt.completedBy == w.completedBy
  {
    var department := Resolve(w.department, dir.departments);
    var line := Resolve(w.line, dir.lines);
    var station := Resolve(w.station, dir.stations);
    Item(w.id, WeldKind, w.createdAt, OrNull(department), OrNull(line), OrNull(station),
         "Part " + w.partNumber + " - " + w.weldType + " (" + w.reason + ")", w.completedBy, w.notes,
         Some(WeldDetails(w.partNumber, w.weldType, w.reason, department, line, station, w.notes,
                          w.completedBy, w.status)))
  }

  /** Every tool move's item, in order, then every weld's. */
  function Items(moves: seq<ToolMove>, welds: seq<WeldTouchup>, dir: Directory): (r: seq<Item>)
    ensures |r| == |moves| + |welds|
    ensures forall i :: 0 <= i < |moves| ==> r[i] == MoveItem(moves[i], dir)
    ensures forall j :: 0 <= j < |welds| ==> r[|moves| + j] == WeldItem(welds[j], dir)
  {
    seq(|moves|, i requires 0 <= i < |moves| => MoveItem(moves[i], dir))
      + seq(|welds|, j requires 0 <= j < |welds| => WeldItem(welds[j], dir))
  }

  /** The comparator `(a, b) => b.date - a.date` read as "a may stay before b". */
  predicate NewerOrSame(a: Item, b: Item)
  {
    b.date - a.date <= 0
  }

  predicate IsMove(it: Item) { it.kind == ToolMoveKind }

  predicate IsWeld(it: Item) { it.kind == WeldKind }

  /** The GET answer. */
  function Feed(moves: seq<ToolMove>, welds: seq<WeldTouchup>, dir: Directory): seq<Item>
  {
    Sort(Items(moves, welds, dir), NewerOrSame)
  }

  lemma NewerOrSameTotal()
    ensures TotalPreorder(NewerOrSame)
  {
  }

  /** The first |moves| items are the tool moves' and the rest are the welds'. */
  lemma ItemsSplit(moves: seq<ToolMove>, welds: seq<WeldTouchup>, dir: Directory)
    ensures var items := Items(moves, welds, dir);
            && (forall x :: x in items[..|moves|] ==> IsMove(x))
            && (forall x :: x in items[|moves|..] ==> IsWeld(x))
  {
    var items := Items(moves, welds, dir);
    var ms, ws := items[..|moves|], items[|moves|..];
    forall i | 0 <= i < |ms| ensures IsMove(ms[i]) {
      assert ms[i] == MoveItem(moves[i], dir);
    }
    forall j | 0 <= j < |ws| ensures IsWeld(ws[j]) {
      assert ws[j] == items[|moves| + j];
    }
  }

  lemma ItemsCounts(moves: seq<ToolMove>, welds: seq<WeldTouchup>, dir: Directory)
    ensures CountWhere(Items(moves, welds, dir), IsMove) == |moves|
    ensures CountWhere(Items(moves, welds, dir), IsWeld) == |welds|
  {
    var items := Items(moves, welds, dir);
    var ms, ws := items[..|moves|], items[|moves|..];
    assert items == ms + ws;
    ItemsSplit(moves, welds, dir);
    FilterAllPass(ms, IsMove);
    FilterNonePass(ws, IsMove);
    FilterAllPass(ws, IsWeld);
    FilterNonePass(ms, IsWeld);
    CountConcat(ms, ws, IsMove);
    CountConcat(ms, ws, IsWeld);
  }

  /** One item per record: the counts per tag are the collection sizes, and the answer is a
      reordering of the projections. */
  lemma FeedCounts(moves: seq<ToolMove>, welds: seq<WeldTouchup>, dir: Directory)
    ensures |Feed(moves, welds, dir)| == |moves| + |welds|
    ensures multiset(Feed(moves, welds, dir)) == multiset(Items(moves, welds, dir))
    ensures CountWhere(Feed(moves, welds, dir), IsMove) == |moves|
    ensures CountWhere(Feed(moves, welds, dir), IsWeld) == |welds|
  {
    var items := Items(moves, welds, dir);
    ItemsCounts(moves, welds, dir);
    CountPermutation(Feed(moves, welds, dir), items, IsMove);
    CountPermutation(Feed(moves, welds, dir), items, IsWeld);
  }

  /** Every record's projection is in the answer. */
  lemma FeedHasEveryRecord(moves: seq<ToolMove>, welds: seq<WeldTouchup>, dir: Directory)
    ensures forall i :: 0 <= i < |moves| ==> MoveItem(moves[i], dir) in Feed(moves, welds, dir)
    ensures forall j :: 0 <= j < |welds| ==> WeldItem(welds[j], dir) in Feed(moves, welds, dir)
  {
    var items := Items(moves, welds, dir);
    var feed := Feed(moves, welds, dir);
    forall i | 0 <= i < |moves| ensures MoveItem(moves[i], dir) in feed {
      assert items[i] in multiset(items);
    }
    forall j | 0 <= j < |welds| ensures WeldItem(welds[j], dir) in feed {
      assert items[|moves| + j] in multiset(items);
    }
  }

  /** Newest first. */
  lemma FeedNewestFirst(moves: seq<ToolMove>, welds: seq<WeldTouchup>, dir: Directory)
    ensures var r := Feed(moves, welds, dir);
            forall i, j :: 0 <= i < j < |r| ==> r[i].date >= r[j].date
  {
    NewerOrSameTotal();
    SortSorted(Items(moves, welds, dir), NewerOrSame);
  }
}

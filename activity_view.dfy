/** The older read-only activity screen (src/components/ActivityView.tsx). Its items carry
    display strings, with "-" for a location that did not resolve; the merged list is kept
    newest first, and the shown list is refiltered and reordered by creation time whenever
    the list, a filter or the direction changes. */
module ActivityView {
  import opened Common
  import opened Sorting
  import opened ActivityFeed
  import opened ActivityClient
  import opened ActivityLegacy

  datatype ViewItem = ViewItem(
    id: Id, kind: Kind, department: string, line: string, station: string,
    description: string, performedBy: string, createdAt: int)

  /** `name || '-'` */
  function Dash(name: Option<string>): (r: string)
    ensures r != ""
    ensures Present(name) ==> r == name.value
    ensures !Present(name) ==> r == "-"
  {
    OrElse(name, "-")
  }

  /** `value || 'N/A'` */
  function OrNA(s: Option<string>): string
  {
    OrElse(s, "N/A")
  }

  function MoveView(m: MoveRow): (v: ViewItem)
    ensures v.id == m.id && v.kind == ToolMoveKind && v.createdAt == m.createdAt
    ensures v.performedBy == m.movedBy
    ensures v.department == Dash(m.departmentName) && v.line == Dash(m.lineName) && v.station == Dash(m.stationName)
    ensures v.description == "Reason: " + OrNA(m.reasonName) + "\nNote: " + OrNA(m.notes)
  {
    ViewItem(m.id, ToolMoveKind, Dash(m.departmentName), Dash(m.lineName), Dash(m.stationName),
             "Reason: " + OrNA(m.reasonName) + "\nNote: " + OrNA(m.notes), m.movedBy, m.createdAt)
  }

  function WeldView(w: WeldRow): (v: ViewItem)
    ensures v.id == w.id && v.kind == WeldKind && v.createdAt == w.createdAt
    ensures v.performedBy == w.completedBy
    ensures v.department == Dash(w.departmentName) && v.line == Dash(w.lineName) && v.station == Dash(w.stationName)
    ensures v.description == "Part " + w.partNumber + " - " + w.weldType + "\nReason: " + w.reason
                             + "\nNote: " + OrNA(w.notes)
  {
    ViewItem(w.id, WeldKind, Dash(w.departmentName), Dash(w.lineName), Dash(w.stationName),
             "Part " + w.partNumber + " - " + w.weldType + "\nReason: " + w.reason + "\nNote: " + OrNA(w.notes),
             w.completedBy, w.createdAt)
  }

  /** The merge comparator `b - a` on creation times. */
  predicate NewestFirst(a: ViewItem, b: ViewItem)
  {
    b.createdAt <= a.createdAt
  }

  /** The screen's comparator: `bValue - aValue` for 'desc', `aValue - bValue` for 'asc'. */
  function ByDateIn(order: SortOrder): (ViewItem, ViewItem) -> bool
  {
    (a: ViewItem, b: ViewItem) => if order == Desc then b.createdAt <= a.createdAt else a.createdAt <= b.createdAt
  }

  lemma ByDateInTotal(order: SortOrder)
    ensures TotalPreorder(ByDateIn(order))
  {
  }

  /** The merged list: every projected row, newest first. A failed query contributes no rows. */
  function Merged(moves: Option<seq<MoveRow>>, welds: Option<seq<WeldRow>>): seq<ViewItem>
  {
    Sort(Map(moves.GetOr([]), MoveView) + Map(welds.GetOr([]), WeldView), NewestFirst)
  }

  /** The merge holds each projected row once, and is newest first. */
  lemma MergedProperties(moves: Option<seq<MoveRow>>, welds: Option<seq<WeldRow>>)
    ensures var r := Merged(moves, welds);
            && multiset(r) == multiset(Map(moves.GetOr([]), MoveView) + Map(welds.GetOr([]), WeldView))
            && |r| == |moves.GetOr([])| + |welds.GetOr([])|
            && forall i, j :: 0 <= i < j < |r| ==> r[j].createdAt <= r[i].createdAt
  {
    assert TotalPreorder(NewestFirst);
    SortSorted(Map(moves.GetOr([]), MoveView) + Map(welds.GetOr([]), WeldView), NewestFirst);
  }

  function MatchViewType(f: TypeFilter): ViewItem -> bool
  {
    (v: ViewItem) => f.AnyType? || v.kind == f.kind
  }

  function MatchViewDepartment(f: NameFilter): ViewItem -> bool
  {
    (v: ViewItem) => f.AnyName? || v.department == f.name
  }

  function MatchViewLine(f: NameFilter): ViewItem -> bool
  {
    (v: ViewItem) => f.AnyName? || v.line == f.name
  }

  function ViewMatches(f: Filters): ViewItem -> bool
  {
    (v: ViewItem) => MatchViewType(f.kind)(v) && MatchViewDepartment(f.department)(v) && MatchViewLine(f.line)(v)
  }

  /** The shown list: the items all three filters accept, ordered by creation time. */
  function Refiltered(activities: seq<ViewItem>, f: Filters, order: SortOrder): seq<ViewItem>
  {
    Sort(Filter(activities, ViewMatches(f)), ByDateIn(order))
  }

  /** The shown list holds exactly the stored items every filter accepts, each as often as
      stored, oldest first for 'asc' and newest first for 'desc'. */
  lemma RefilteredProperties(activities: seq<ViewItem>, f: Filters, order: SortOrder, v: ViewItem)
    ensures var r := Refiltered(activities, f, order);
            && multiset(r) == multiset(Filter(activities, ViewMatches(f)))
            && (v in r <==> && v in activities
                             && (f.kind.OnlyType? ==> v.kind == f.kind.kind)
                             && (f.department.OnlyName? ==> v.department == f.department.name)
                             && (f.line.OnlyName? ==> v.line == f.line.name))
            && (forall i, j :: 0 <= i < j < |r| ==>
                  (order == Asc ==> r[i].createdAt <= r[j].createdAt)
                  && (order == Desc ==> r[j].createdAt <= r[i].createdAt))
  {
    var filtered := Filter(activities, ViewMatches(f));
    FilterKeeps(activities, ViewMatches(f), v);
    assert ViewMatches(f)(v) <==> MatchViewType(f.kind)(v) && MatchViewDepartment(f.department)(v) && MatchViewLine(f.line)(v);
    SortMembers(filtered, ByDateIn(order), v);
    ByDateInTotal(order);
    SortSorted(filtered, ByDateIn(order));
  }

  /** `filterAndSortActivities`: each filter that is not 'all' narrows a copy in turn, then the
      copy is sorted by creation time. */
  method FilterAndSortViews(activities: seq<ViewItem>, f: Filters, order: SortOrder)
    returns (r: seq<ViewItem>)
    ensures r == Refiltered(activities, f, order)
  {
    var filtered := activities;
    if f.kind.OnlyType? {
      filtered := Filter(filtered, MatchViewType(f.kind));
    } else {
      FilterAllPass(activities, MatchViewType(f.kind));
    }
    if f.department.OnlyName? {
      filtered := Filter(filtered, MatchViewDepartment(f.department));
    } else {
      FilterAllPass(filtered, MatchViewDepartment(f.department));
    }
    var typeAndDepartment := (v: ViewItem) => MatchViewType(f.kind)(v) && MatchViewDepartment(f.department)(v);
    FilterFilter(activities, MatchViewType(f.kind), MatchViewDepartment(f.department), typeAndDepartment);
    if f.line.OnlyName? {
      filtered := Filter(filtered, MatchViewLine(f.line));
    } else {
      FilterAllPass(filtered, MatchViewLine(f.line));
    }
    FilterFilter(activities, typeAndDepartment, MatchViewLine(f.line), ViewMatches(f));
    r := Sort(filtered, ByDateIn(order));
  }

  /** The screen's state. `sortBy` offers only 'date' and is never consulted. The effect that
      refilters after every change is folded into each state change. */
  class ViewPanel {
    var activities: seq<ViewItem>
    var shown: seq<ViewItem>
    var filters: Filters
    var sortBy: string
    var sortOrder: SortOrder

    predicate Valid()
      reads this
    {
      shown == Refiltered(activities, filters, sortOrder)
    }

    constructor ()
      ensures Valid() && activities == [] && shown == []
      ensures filters == NoFilters && sortBy == "date" && sortOrder == Desc
    {
      activities, shown := [], [];
      filters, sortBy, sortOrder := NoFilters, "date", Desc;
    }

    /** `fetchActivities`: both queries' rows (none for a query that failed), merged newest
        first. */
    method FetchActivities(moves: Option<seq<MoveRow>>, welds: Option<seq<WeldRow>>)
      modifies this
      ensures activities == Merged(moves, welds)
      ensures filters == old(filters) && sortBy == old(sortBy) && sortOrder == old(sortOrder)
      ensures Valid()
    {
      activities := Sort(Map(moves.GetOr([]), MoveView) + Map(welds.GetOr([]), WeldView), NewestFirst);
      shown := FilterAndSortViews(activities, filters, sortOrder);
    }

    method SetFilters(f: Filters)
      modifies this
      ensures filters == f && activities == old(activities)
      ensures sortBy == old(sortBy) && sortOrder == old(sortOrder)
      ensures Valid()
    {
      filters := f;
      shown := FilterAndSortViews(activities, filters, sortOrder);
    }

    /** Choosing a sort field changes nothing that is shown. */
    method SetSortBy(field: string)
      requires Valid()
      modifies this
      ensures sortBy == field && shown == old(shown)
      ensures activities == old(activities) && filters == old(filters) && sortOrder == old(sortOrder)
      ensures Valid()
    {
      sortBy := field;
      shown := FilterAndSortViews(activities, filters, sortOrder);
    }

    /** The direction button. */
    method FlipOrder()
      modifies this
      ensures sortOrder == (if old(sortOrder) == Desc then Asc else Desc)
      ensures activities == old(activities) && filters == old(filters) && sortBy == old(sortBy)
      ensures Valid()
    {
      sortOrder := if sortOrder == Desc then Asc else Desc;
      shown := FilterAndSortViews(activities, filters, sortOrder);
    }
  }
}

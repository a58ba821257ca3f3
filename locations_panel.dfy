/** The locations screen of the older client (src/components/Locations.tsx). It reads the
    `departments`, `lines` and `stations` tables, each ordered by name, groups them into the
    department → line → station tree by parent id, expands and collapses departments and lines,
    and deletes a location by kind. Each request's answer is a parameter. */
module LocationsPanel {
  import opened Common
  import opened Records
  import opened Sorting
  import LR = LocationRoutes

  /** `.order('name')` on each table. */
  predicate DepartmentByName(a: Department, b: Department) { StrLe(a.name, b.name) }
  predicate LineByName(a: Line, b: Line) { StrLe(a.name, b.name) }
  predicate StationByName(a: Station, b: Station) { StrLe(a.name, b.name) }

  /** Grouping keeps the order of the answers: the departments, every department's lines and
      every line's stations come in name order when the tables were read in name order. */
  lemma TreeKeepsNameOrder(departments: seq<Department>, lines: seq<Line>, stations: seq<Station>, i: nat, k: nat)
    requires Sorted(departments, DepartmentByName)
    requires Sorted(lines, LineByName) && Sorted(stations, StationByName)
    requires i < |departments|
    ensures var t := LR.Tree(departments, lines, stations);
            && (forall a, b :: 0 <= a < b < |t| ==> StrLe(t[a].department.name, t[b].department.name))
            && (forall a, b :: 0 <= a < b < |t[i].lines| ==> StrLe(t[i].lines[a].line.name, t[i].lines[b].line.name))
            && (k < |t[i].lines| ==> Sorted(t[i].lines[k].stations, StationByName))
  {
    var mine := LR.LinesOf(lines, departments[i].id);
    FilterSorted(lines, LineByName, (l: Line) => l.department == departments[i].id);
    assert Sorted(mine, LineByName);
    if k < |mine| {
      FilterSorted(stations, StationByName, (s: Station) => s.line == mine[k].id);
    }
  }

  /** `new Set(s)` with `id` deleted when present and added when absent. */
  function Toggle(s: set<Id>, id: Id): (r: set<Id>)
    ensures id in r <==> id !in s
    ensures forall x :: x != id ==> (x in r <==> x in s)
  {
    if id in s then s - {id} else s + {id}
  }

  /** Toggling the same id twice gives the set back. */
  lemma ToggleTwice(s: set<Id>, id: Id)
    ensures Toggle(Toggle(s, id), id) == s
  {
    var t := Toggle(Toggle(s, id), id);
    forall x ensures x in t <==> x in s {
      if x == id {
        assert id in Toggle(s, id) <==> id !in s;
      }
    }
  }

  datatype LocationKind = DepartmentKind | LineKind | StationKind

  function KindName(kind: LocationKind): string
  {
    match kind
    case DepartmentKind => "department"
    case LineKind => "line"
    case StationKind => "station"
  }

  /** `supabase.from(`${type}s`)`: the table a delete goes to. */
  function DeleteTable(kind: LocationKind): (r: string)
    ensures r == KindName(kind) + "s"
    ensures kind == DepartmentKind ==> r == "departments"
    ensures kind == LineKind ==> r == "lines"
    ensures kind == StationKind ==> r == "stations"
  {
    KindName(kind) + "s"
  }

  /** `.delete().eq('id', id)` on the table of that kind. */
  datatype DeleteRequest = DeleteRequest(table: string, id: Id)

  class LocationsPanel {
    var departments: seq<LR.DepartmentNode>
    var loading: bool
    var expandedDepartments: set<Id>
    var expandedLines: set<Id>
    var showAddDepartment: bool
    var showAddLine: Option<Id>
    var showAddStation: Option<Id>

    /** Nothing read yet, the spinner on, everything collapsed and every form closed. */
    constructor ()
      ensures departments == [] && loading && expandedDepartments == {} && expandedLines == {}
      ensures !showAddDepartment && showAddLine == None && showAddStation == None
    {
      departments, loading, expandedDepartments, expandedLines := [], true, {}, {};
      showAddDepartment, showAddLine, showAddStation := false, None, None;
    }

    /** `fetchLocations`: the three tables are read in turn and the first failure stops it,
        keeping the old tree; otherwise the tree is the grouping of the three answers (none for
        a null answer). The spinner stops either way. */
    method FetchLocations(ds: Query<Department>, ls: Query<Line>, ss: Query<Station>)
      modifies this
      ensures ds.Rows? && ls.Rows? && ss.Rows? ==> departments == LR.Tree(ds.RowsOr(), ls.RowsOr(), ss.RowsOr())
      ensures ds.QueryFailed? || ls.QueryFailed? || ss.QueryFailed? ==> departments == old(departments)
      ensures !loading
      ensures expandedDepartments == old(expandedDepartments) && expandedLines == old(expandedLines)
      ensures showAddDepartment == old(showAddDepartment)
      ensures showAddLine == old(showAddLine) && showAddStation == old(showAddStation)
    {
      if ds.Rows? && ls.Rows? && ss.Rows? {
        departments := LR.Tree(ds.RowsOr(), ls.RowsOr(), ss.RowsOr());
      }
      loading := false;
    }

    /** `toggleDepartment` */
    method ToggleDepartment(id: Id)
      modifies this
      ensures expandedDepartments == Toggle(old(expandedDepartments), id)
      ensures expandedLines == old(expandedLines) && departments == old(departments) && loading == old(loading)
      ensures showAddDepartment == old(showAddDepartment)
      ensures showAddLine == old(showAddLine) && showAddStation == old(showAddStation)
    {
      expandedDepartments := Toggle(expandedDepartments, id);
    }

    /** `toggleLine` */
    method ToggleLine(id: Id)
      modifies this
      ensures expandedLines == Toggle(old(expandedLines), id)
      ensures expandedDepartments == old(expandedDepartments) && departments == old(departments)
      ensures loading == old(loading) && showAddDepartment == old(showAddDepartment)
      ensures showAddLine == old(showAddLine) && showAddStation == old(showAddStation)
    {
      expandedLines := Toggle(expandedLines, id);
    }

    /** `handleDelete`. A declined confirmation sends nothing. Otherwise the delete goes to the
        table of that kind; a failure raises the alert, a success reads the tables again
        (their answers are `ds`, `ls` and `ss`). */
    method HandleDelete(kind: LocationKind, id: Id, confirmed: bool, error: Option<string>,
                        ds: Query<Department>, ls: Query<Line>, ss: Query<Station>)
      returns (request: Option<DeleteRequest>, alert: Option<string>)
      modifies this
      ensures !confirmed ==> request == None && alert == None
      ensures confirmed ==> request == Some(DeleteRequest(DeleteTable(kind), id))
      ensures confirmed && error.Some? ==> alert == Some("Failed to delete " + KindName(kind))
      ensures confirmed && error.None? ==> alert == None
      ensures !confirmed || error.Some? ==> departments == old(departments) && loading == old(loading)
      ensures confirmed && error.None? && ds.Rows? && ls.Rows? && ss.Rows? ==>
                departments == LR.Tree(ds.RowsOr(), ls.RowsOr(), ss.RowsOr())
      ensures confirmed && error.None? && (ds.QueryFailed? || ls.QueryFailed? || ss.QueryFailed?) ==>
                departments == old(departments)
      ensures confirmed && error.None? ==> !loading
      ensures expandedDepartments == old(expandedDepartments) && expandedLines == old(expandedLines)
      ensures showAddDepartment == old(showAddDepartment)
      ensures showAddLine == old(showAddLine) && showAddStation == old(showAddStation)
    {
      request, alert := None, None;
      if !confirmed {
        return;
      }
      request := Some(DeleteRequest(DeleteTable(kind), id));
      if error.Some? {
        alert := Some("Failed to delete " + KindName(kind));
      } else {
        FetchLocations(ds, ls, ss);
      }
    }

    /** `handleSuccess`: every add form closes and the tables are read again. */
    method HandleSuccess(ds: Query<Department>, ls: Query<Line>, ss: Query<Station>)
      modifies this
      ensures !showAddDepartment && showAddLine == None && showAddStation == None
      ensures ds.Rows? && ls.Rows? && ss.Rows? ==> departments == LR.Tree(ds.RowsOr(), ls.RowsOr(), ss.RowsOr())
      ensures ds.QueryFailed? || ls.QueryFailed? || ss.QueryFailed? ==> departments == old(departments)
      ensures !loading
      ensures expandedDepartments == old(expandedDepartments) && expandedLines == old(expandedLines)
    {
      showAddDepartment, showAddLine, showAddStation := false, None, None;
      FetchLocations(ds, ls, ss);
    }
  }
}

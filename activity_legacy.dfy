/** The older activity panel (src/components/Activity.tsx), which reads the two tables of
    the hosted database itself. Its rows arrive with the joined names already resolved; it
    projects them into timeline items without details, concatenates them unsorted, and fetches
    the details of one item on demand. Filtering, sorting and the sort toggle are those of the
    current panel. */
module ActivityLegacy {
  import opened Common
  import opened ActivityFeed
  import opened ActivityClient

  /** A `tool_moves` row with its joined names (`reasons(name)`, `departments(name)`, ...);
      a name is None when the join found nothing. The weld flags may be null. */
  datatype MoveRow = MoveRow(
    id: Id, createdAt: int, reasonName: Option<string>,
    departmentName: Option<string>, lineName: Option<string>, stationName: Option<string>,
    notes: Option<string>, movedBy: string,
    requiresWeldTouchup: Option<bool>, weldTouchupCompleted: Option<bool>,
    weldTouchupNotes: Option<string>)

  /** A `weld_touchups` row with its joined names; `reason` is free text. */
  datatype WeldRow = WeldRow(
    id: Id, createdAt: int, partNumber: string, weldType: string, reason: string,
    departmentName: Option<string>, lineName: Option<string>, stationName: Option<string>,
    notes: Option<string>, completedBy: string, status: string)

  /** A `maybeSingle()` lookup: the row if there is one, or an error. */
  datatype Lookup<T> = Found(row: Option<T>) | LookupFailed(message: string)

  /** The projection of a tool move: `name || null` for the three location names, the reason
      name or "Unknown" in the description, the mover as performer. */
  function MoveActivity(m: MoveRow): (it: Item)
    ensures it.id == m.id && it.kind == ToolMoveKind && it.date == m.createdAt
    ensures it.performedBy == m.movedBy && it.notes == m.notes && it.details == None
    ensures Present(m.reasonName) ==> it.description == "Reason: " + m.reasonName.value
    ensures !Present(m.reasonName) ==> it.description == "Reason: Unknown"
    ensures (it.departmentName.Some? <==> Present(m.departmentName))
            && (it.departmentName.Some? ==> it.departmentName == m.departmentName)
    ensures (it.lineName.Some? <==> Present(m.lineName)) && (it.lineName.Some? ==> it.lineName == m.lineName)
    ensures (it.stationName.Some? <==> Present(m.stationName))
            && (it.stationName.Some? ==> it.stationName == m.stationName)
  {
    Item(m.id, ToolMoveKind, m.createdAt, OrNull(m.departmentName), OrNull(m.lineName),
         OrNull(m.stationName), "Reason: " + OrElse(m.reasonName, "Unknown"), m.movedBy, m.notes, None)
  }

  /** The projection of a weld: "Part {part} - {type} ({reason})", the completer as performer. */
  function WeldActivity(w: WeldRow): (it: Item)
    ensures it.id == w.id && it.kind == WeldKind && it.date == w.createdAt
    ensures it.performedBy == w.completedBy && it.notes == w.notes && it.details == None
    ensures it.description == "Part " + w.partNumber + " - " + w.weldType + " (" + w.reason + ")"
    ensures (it.departmentName.Some? <==> Present(w.departmentName))
            && (it.departmentName.Some? ==> it.departmentName == w.departmentName)
    ensures (it.lineName.Some? <==> Present(w.lineName)) && (it.lineName.Some? ==> it.lineName == w.lineName)
    ensures (it.stationName.Some? <==> Present(w.stationName))
            && (it.stationName.Some? ==> it.stationName == w.stationName)
  {
    Item(w.id, WeldKind, w.createdAt, OrNull(w.departmentName), OrNull(w.lineName),
         OrNull(w.stationName), "Part " + w.partNumber + " - " + w.weldType + " (" + w.reason + ")",
         w.completedBy, w.notes, None)
  }

  /** `[...toolMoveActivities, ...weldTouchupActivities]`, left in query order. */
  function Combined(moves: seq<MoveRow>, welds: seq<WeldRow>): seq<Item>
  {
    Map(moves, MoveActivity) + Map(welds, WeldActivity)
  }

  /** One item per row: the tool moves first, each tagged as such and carrying its row's id,
      then the welds. */
  lemma CombinedShape(moves: seq<MoveRow>, welds: seq<WeldRow>)
    ensures var c := Combined(moves, welds);
            && |c| == |moves| + |welds|
            && (forall i :: 0 <= i < |moves| ==> c[i].kind == ToolMoveKind && c[i].id == moves[i].id)
            && (forall i :: 0 <= i < |welds| ==> c[|moves| + i].kind == WeldKind && c[|moves| + i].id == welds[i].id)
  {
    var c := Combined(moves, welds);
    forall i | 0 <= i < |welds| ensures c[|moves| + i] == WeldActivity(welds[i]) {
      assert c[|moves| + i] == Map(welds, WeldActivity)[i];
    }
  }

  // ---------------------------------------------------------------------------------------
  // Details fetched on demand

  datatype LegacyDetails =
    | MoveInfo(id: Id, reason: string, department: Option<string>, line: Option<string>,
               station: Option<string>, notes: Option<string>, movedBy: string, createdAt: int,
               requiresWeldTouchup: bool, weldTouchupCompleted: bool, weldTouchupNotes: Option<string>)
    | WeldInfo(id: Id, partNumber: string, weldType: string, reason: string,
               department: Option<string>, line: Option<string>, station: Option<string>,
               notes: Option<string>, completedBy: string, status: string, createdAt: int)

  /** Tool-move details: a missing reason reads "Unknown" and missing weld flags read false. */
  function MoveInfoOf(m: MoveRow): (d: LegacyDetails)
    ensures d.MoveInfo? && d.id == m.id && d.movedBy == m.movedBy && d.createdAt == m.createdAt
    ensures d.reason == (if Present(m.reasonName) then m.reasonName.value else "Unknown")
    ensures d.requiresWeldTouchup <==> m.requiresWeldTouchup == Some(true)
    ensures d.weldTouchupCompleted <==> m.weldTouchupCompleted == Some(true)
    ensures d.weldTouchupNotes == m.weldTouchupNotes && d.notes == m.notes
    ensures (d.department.Some? <==> Present(m.departmentName))
            && (d.department.Some? ==> d.department == m.departmentName)
    ensures (d.line.Some? <==> Present(m.lineName)) && (d.line.Some? ==> d.line == m.lineName)
    ensures (d.station.Some? <==> Present(m.stationName))
            && (d.station.Some? ==> d.station == m.stationName)
  {
    MoveInfo(m.id, OrElse(m.reasonName, "Unknown"), OrNull(m.departmentName), OrNull(m.lineName),
             OrNull(m.stationName), m.notes, m.movedBy, m.createdAt,
             m.requiresWeldTouchup.GetOr(false), m.weldTouchupCompleted.GetOr(false),
             m.weldTouchupNotes)
  }

  /** Weld details: every field as stored, the names with `|| null`. */
  function WeldInfoOf(w: WeldRow): (d: LegacyDetails)
    ensures d.WeldInfo? && d.id == w.id && d.reason == w.reason && d.status == w.status
    ensures d.partNumber == w.partNumber && d.weldType == w.weldType && d.completedBy == w.completedBy
    ensures d.notes == w.notes && d.createdAt == w.createdAt
    ensures (d.department.Some? <==> Present(w.departmentName))
            && (d.department.Some? ==> d.department == w.departmentName)
    ensures (d.line.Some? <==> Present(w.lineName)) && (d.line.Some? ==> d.line == w.lineName)
    ensures (d.station.Some? <==> Present(w.stationName))
            && (d.station.Some? ==> d.station == w.stationName)
  {
    WeldInfo(w.id, w.partNumber, w.weldType, w.reason, OrNull(w.departmentName), OrNull(w.lineName),
             OrNull(w.stationName), w.notes, w.completedBy, w.status, w.createdAt)
  }

  /** The details opened for an item say what its row in the list says: the same id, date,
      performer, notes and location names. */
  lemma DetailsAgreeWithItem(m: MoveRow, w: WeldRow)
    ensures var d, it := MoveInfoOf(m), MoveActivity(m);
            && d.id == it.id && d.createdAt == it.date && d.movedBy == it.performedBy && d.notes == it.notes
            && d.department == it.departmentName && d.line == it.lineName && d.station == it.stationName
            && it.description == "Reason: " + d.reason
    ensures var d, it := WeldInfoOf(w), WeldActivity(w);
            && d.id == it.id && d.createdAt == it.date && d.completedBy == it.performedBy && d.notes == it.notes
            && d.department == it.departmentName && d.line == it.lineName && d.station == it.stationName
            && it.description == "Part " + d.partNumber + " - " + d.weldType + " (" + d.reason + ")"
  {
  }

  // ---------------------------------------------------------------------------------------
  // The component's state

  class LegacyPanel {
    var activities: seq<Item>
    var departments: seq<string>
    var lines: seq<string>
    var sortBy: SortKey
    var sortOrder: SortOrder
    var filters: Filters
    var selected: Option<LegacyDetails>

    constructor ()
      ensures activities == [] && departments == [] && lines == []
      ensures sortBy == ByDate && sortOrder == Desc && filters == NoFilters && selected == None
    {
      activities, departments, lines := [], [], [];
      sortBy, sortOrder, filters := ByDate, Desc, NoFilters;
      selected := None;
    }

    /** `fetchActivities`: an error from either query is caught and nothing changes; otherwise
        the combined list and both option lists replace the old ones. */
    method FetchActivities(moves: Query<MoveRow>, welds: Query<WeldRow>)
      modifies this
      ensures moves.QueryFailed? || welds.QueryFailed? ==>
                activities == old(activities) && departments == old(departments) && lines == old(lines)
      ensures moves.Rows? && welds.Rows? ==>
                && activities == Combined(moves.RowsOr(), welds.RowsOr())
                && departments == UniqueNames(DepartmentNames(activities))
                && lines == UniqueNames(LineNames(activities))
      ensures sortBy == old(sortBy) && sortOrder == old(sortOrder) && filters == old(filters)
      ensures selected == old(selected)
    {
      if moves.QueryFailed? || welds.QueryFailed? {
        return;
      }
      var combined := Combined(moves.RowsOr(), welds.RowsOr());
      departments, lines := OptionLists(combined);
      activities := combined;
    }

    /** What the table shows: the filtered items in comparator order. */
    method Shown() returns (r: seq<Item>)
      ensures r == Arrange(activities, filters, sortBy, sortOrder)
    {
      r := FilterAndSort(activities, filters, sortBy, sortOrder);
    }

    method ToggleSort(field: SortKey)
      modifies this
      ensures (sortBy, sortOrder) == NextSort(old(sortBy), old(sortOrder), field)
      ensures activities == old(activities) && filters == old(filters)
      ensures departments == old(departments) && lines == old(lines) && selected == old(selected)
    {
      if sortBy == field {
        sortOrder := if sortOrder == Asc then Desc else Asc;
      } else {
        sortBy := field;
        sortOrder := Asc;
      }
    }

    /** "Clear Filters": every filter back to 'all', so every item is shown again. */
    method ClearFilters()
      modifies this
      ensures filters == NoFilters
      ensures activities == old(activities) && sortBy == old(sortBy) && sortOrder == old(sortOrder)
      ensures departments == old(departments) && lines == old(lines) && selected == old(selected)
    {
      filters := NoFilters;
    }

    /** `fetchActivityDetails`: the lookup that matches the item's kind; an error or a missing
        row leaves the selection as it was. */
    method FetchDetails(a: Item, move: Lookup<MoveRow>, weld: Lookup<WeldRow>)
      modifies this
      ensures a.kind == ToolMoveKind && move.Found? && move.row.Some? ==> selected == Some(MoveInfoOf(move.row.value))
      ensures a.kind == WeldKind && weld.Found? && weld.row.Some? ==> selected == Some(WeldInfoOf(weld.row.value))
      ensures a.kind == ToolMoveKind && (move.LookupFailed? || move.row.None?) ==> selected == old(selected)
      ensures a.kind == WeldKind && (weld.LookupFailed? || weld.row.None?) ==> selected == old(selected)
      ensures activities == old(activities) && filters == old(filters)
      ensures sortBy == old(sortBy) && sortOrder == old(sortOrder)
      ensures departments == old(departments) && lines == old(lines)
    {
      if a.kind == ToolMoveKind {
        if move.Found? && move.row.Some? {
          selected := Some(MoveInfoOf(move.row.value));
        }
      } else {
        if weld.Found? && weld.row.Some? {
          selected := Some(WeldInfoOf(weld.row.value));
        }
      }
    }
  }

  /** With every filter at 'all' the legacy table shows every fetched item, in comparator
      order. */
  lemma ClearedShowsEverything(activities: seq<Item>, key: SortKey, order: SortOrder)
    ensures multiset(Arrange(activities, NoFilters, key, order)) == multiset(activities)
  {
    SelectAll(activities);
    ArrangeProperties(activities, NoFilters, key, order);
  }
}

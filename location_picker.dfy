/** The location pickers of the current client's entry forms
    (frontend/src/components/AddToolMoveForm.tsx and frontend/src/components/AddWeldForm.tsx).
    The hierarchy the locations route answers is flattened into line and station options,
    each tagged with its parent's id. A dropdown offers only the children of the selected
    parent, and choosing a new parent clears its children. */
module LocationPicker {
  import opened Common

  /** The hierarchy as the JSON shows it; a missing `lines` or `stations` array reads as []. */
  datatype StationJson = StationJson(mongoId: Option<string>, id: Option<string>, name: string)
  datatype LineJson = LineJson(mongoId: Option<string>, id: Option<string>, name: string, stations: seq<StationJson>)
  datatype DepartmentJson = DepartmentJson(
    mongoId: Option<string>, id: Option<string>, name: string, lines: seq<LineJson>)

  /** A dropdown entry: `{ ...l, id: l._id || l.id, department_id }` and likewise for stations. */
  datatype DepartmentOption = DepartmentOption(id: Option<string>, name: string)
  datatype LineOption = LineOption(id: Option<string>, name: string, departmentId: Option<string>)
  datatype StationOption = StationOption(id: Option<string>, name: string, lineId: Option<string>)

  /** Which key a station records for its line: the tool-move form reads `l._id` alone, the
      weld form `l._id || l.id`. */
  datatype LineKey = MongoIdOnly | MongoIdOrId

  function LineKeyOf(l: LineJson, k: LineKey): (r: Option<string>)
    ensures k == MongoIdOnly ==> r == l.mongoId
    ensures k == MongoIdOrId ==> r == FirstPresent(l.mongoId, l.id)
  {
    if k == MongoIdOnly then l.mongoId else FirstPresent(l.mongoId, l.id)
  }

  function DepartmentOptionOf(d: DepartmentJson): DepartmentOption
  {
    DepartmentOption(FirstPresent(d.mongoId, d.id), d.name)
  }

  function LineOptionOf(d: DepartmentJson, l: LineJson): LineOption
  {
    LineOption(FirstPresent(l.mongoId, l.id), l.name, FirstPresent(d.mongoId, d.id))
  }

  function LineOptionIn(d: DepartmentJson): LineJson -> LineOption
  {
    (l: LineJson) => LineOptionOf(d, l)
  }

  function StationOptionIn(l: LineJson, k: LineKey): StationJson -> StationOption
  {
    (s: StationJson) => StationOption(FirstPresent(s.mongoId, s.id), s.name, LineKeyOf(l, k))
  }

  /** `data.flatMap(d => d.lines.map(...))` */
  function FlattenLines(departments: seq<DepartmentJson>): seq<LineOption>
  {
    if departments == [] then []
    else Map(departments[0].lines, LineOptionIn(departments[0])) + FlattenLines(departments[1..])
  }

  function StationsOfLines(lines: seq<LineJson>, k: LineKey): seq<StationOption>
  {
    if lines == [] then []
    else Map(lines[0].stations, StationOptionIn(lines[0], k)) + StationsOfLines(lines[1..], k)
  }

  /** `data.flatMap(d => d.lines.flatMap(l => l.stations.map(...)))` */
  function FlattenStations(departments: seq<DepartmentJson>, k: LineKey): seq<StationOption>
  {
    if departments == [] then []
    else StationsOfLines(departments[0].lines, k) + FlattenStations(departments[1..], k)
  }

  /** An option is a line of the hierarchy, tagged with the id of the department it is
      listed under; every line of every department gives one. */
  lemma {:induction false} FlattenLinesMembers(departments: seq<DepartmentJson>, o: LineOption)
    ensures o in FlattenLines(departments) <==>
              exists i, j :: 0 <= i < |departments| && 0 <= j < |departments[i].lines|
                             && o == LineOptionOf(departments[i], departments[i].lines[j])
  {
    if departments != [] {
      var d := departments[0];
      var head := Map(d.lines, LineOptionIn(d));
      var rest := departments[1..];
      FlattenLinesMembers(rest, o);
      if o in head {
        var j :| 0 <= j < |head| && head[j] == o;
        assert o == LineOptionOf(departments[0], departments[0].lines[j]);
      }
      if o in FlattenLines(rest) {
        var i, j :| 0 <= i < |rest| && 0 <= j < |rest[i].lines| && o == LineOptionOf(rest[i], rest[i].lines[j]);
        assert rest[i] == departments[i + 1];
      }
      if exists i, j :: 0 <= i < |departments| && 0 <= j < |departments[i].lines|
                        && o == LineOptionOf(departments[i], departments[i].lines[j]) {
        var i, j :| 0 <= i < |departments| && 0 <= j < |departments[i].lines|
                    && o == LineOptionOf(departments[i], departments[i].lines[j]);
        if i == 0 {
          assert head[j] == o;
        } else {
          assert departments[i] == rest[i - 1];
        }
      }
    }
  }

  /** Where every line carries `_id`, both ways of keying a station by its line agree. */
  lemma {:induction false} LineKeysAgree(lines: seq<LineJson>)
    requires forall j :: 0 <= j < |lines| ==> Present(lines[j].mongoId)
    ensures StationsOfLines(lines, MongoIdOnly) == StationsOfLines(lines, MongoIdOrId)
  {
    if lines != [] {
      LineKeysAgree(lines[1..]);
      var l := lines[0];
      assert Map(l.stations, StationOptionIn(l, MongoIdOnly)) == Map(l.stations, StationOptionIn(l, MongoIdOrId));
    }
  }

  /** The two forms offer the same stations for a hierarchy the backend sends, where every
      line has `_id`. */
  lemma {:induction false} StationKeysAgree(departments: seq<DepartmentJson>)
    requires forall i, j :: 0 <= i < |departments| && 0 <= j < |departments[i].lines| ==>
                              Present(departments[i].lines[j].mongoId)
    ensures FlattenStations(departments, MongoIdOnly) == FlattenStations(departments, MongoIdOrId)
  {
    if departments != [] {
      LineKeysAgree(departments[0].lines);
      assert forall i, j :: 0 <= i < |departments[1..]| && 0 <= j < |departments[1..][i].lines| ==>
                              departments[1..][i].lines[j] == departments[i + 1].lines[j];
      StationKeysAgree(departments[1..]);
    }
  }

  function InDepartment(departmentId: string): LineOption -> bool
  {
    (l: LineOption) => l.departmentId == Some(departmentId)
  }

  function OnLine(lineId: string): StationOption -> bool
  {
    (s: StationOption) => s.lineId == Some(lineId)
  }

  /** `departmentId ? lines.filter(l => l.department_id === departmentId) : []` */
  function FilteredLines(lines: seq<LineOption>, departmentId: string): seq<LineOption>
  {
    if departmentId == "" then [] else Filter(lines, InDepartment(departmentId))
  }

  /** `lineId ? stations.filter(s => s.line_id === lineId) : []` */
  function FilteredStations(stations: seq<StationOption>, lineId: string): seq<StationOption>
  {
    if lineId == "" then [] else Filter(stations, OnLine(lineId))
  }

  /** The line dropdown offers exactly the lines of the selected department, in the order
      given, and nothing while no department is selected. */
  lemma FilteredLinesExactly(lines: seq<LineOption>, departmentId: string, o: LineOption)
    ensures o in FilteredLines(lines, departmentId) <==>
              departmentId != "" && o in lines && o.departmentId == Some(departmentId)
    ensures Subsequence(FilteredLines(lines, departmentId), lines)
  {
    if departmentId != "" {
      FilterKeeps(lines, InDepartment(departmentId), o);
      FilterIsSubsequence(lines, InDepartment(departmentId));
    }
  }

  /** The station dropdown offers exactly the stations of the selected line. */
  lemma FilteredStationsExactly(stations: seq<StationOption>, lineId: string, o: StationOption)
    ensures o in FilteredStations(stations, lineId) <==> lineId != "" && o in stations && o.lineId == Some(lineId)
    ensures Subsequence(FilteredStations(stations, lineId), stations)
  {
    if lineId != "" {
      FilterKeeps(stations, OnLine(lineId), o);
      FilterIsSubsequence(stations, OnLine(lineId));
    }
  }

  /** Over the flattened hierarchy, the line dropdown offers exactly the lines listed under a
      department whose id is the selected one. */
  lemma LineDropdownOffersChildren(departments: seq<DepartmentJson>, departmentId: string, o: LineOption)
    ensures o in FilteredLines(FlattenLines(departments), departmentId) <==>
              && departmentId != ""
              && exists i, j :: 0 <= i < |departments| && 0 <= j < |departments[i].lines|
                                && FirstPresent(departments[i].mongoId, departments[i].id) == Some(departmentId)
                                && o == LineOptionOf(departments[i], departments[i].lines[j])
  {
    FilteredLinesExactly(FlattenLines(departments), departmentId, o);
    FlattenLinesMembers(departments, o);
  }

  // ---------------------------------------------------------------------------------------
  // The selection and the reset effects

  datatype Selection = Selection(department: string, line: string, station: string)

  const NothingSelected := Selection("", "", "")

  /** The two reset effects, after a render that moved the selection from `before` to
      `after`: a new department clears the line and the station, a new line clears the
      station. */
  function Settle(before: Selection, after: Selection): (r: Selection)
    ensures r.department == after.department
    ensures after.department != before.department ==> r.line == "" && r.station == ""
    ensures after.department == before.department && after.line != before.line ==>
              r.line == after.line && r.station == ""
    ensures after.department == before.department && after.line == before.line ==> r == after
  {
    if after.department != before.department then after.(line := "", station := "")
    else if after.line != before.line then after.(station := "")
    else after
  }

  /** The department dropdown's `onChange`, followed by the effects. */
  function ChooseDepartment(s: Selection, departmentId: string): Selection
  {
    Settle(s, s.(department := departmentId))
  }

  function ChooseLine(s: Selection, lineId: string): Selection
  {
    Settle(s, s.(line := lineId))
  }

  function ChooseStation(s: Selection, stationId: string): Selection
  {
    Settle(s, s.(station := stationId))
  }

  /** Choosing a different department leaves the station dropdown empty and nothing chosen
      below the department; choosing the same one changes nothing. */
  lemma ChooseDepartmentResets(s: Selection, departmentId: string, stations: seq<StationOption>)
    ensures var r := ChooseDepartment(s, departmentId);
            && r.department == departmentId
            && (departmentId != s.department ==> r.line == "" && r.station == "" && FilteredStations(stations, r.line) == [])
            && (departmentId == s.department ==> r == s)
  {
  }

  /** Choosing a line keeps the department; a different line clears the station. */
  lemma ChooseLineResets(s: Selection, lineId: string)
    ensures var r := ChooseLine(s, lineId);
            && r.department == s.department && r.line == lineId
            && (lineId != s.line ==> r.station == "")
            && (lineId == s.line ==> r == s)
  {
  }

  /** Choosing a station changes nothing else. */
  lemma ChooseStationKeepsParents(s: Selection, stationId: string)
    ensures ChooseStation(s, stationId) == Selection(s.department, s.line, stationId)
  {
  }

  // ---------------------------------------------------------------------------------------
  // Scanning a QR code

  /** The decoded QR payload: a location triple and a note, each possibly absent. */
  datatype ScanData = ScanData(
    departmentId: Option<string>, lineId: Option<string>, stationId: Option<string>, note: Option<string>)

  /** `handleQRScan`: each truthy field of the scan replaces the selected one, and the others
      stay as they were. */
  function ScanWrites(s: Selection, data: ScanData): (r: Selection)
    ensures Present(data.departmentId) ==> r.department == data.departmentId.value
    ensures Present(data.lineId) ==> r.line == data.lineId.value
    ensures Present(data.stationId) ==> r.station == data.stationId.value
    ensures !Present(data.departmentId) ==> r.department == s.department
    ensures !Present(data.lineId) ==> r.line == s.line
    ensures !Present(data.stationId) ==> r.station == s.station
  {
    Selection(OrElse(data.departmentId, s.department), OrElse(data.lineId, s.line),
              OrElse(data.stationId, s.station))
  }

  /** Scanning the same code twice is scanning it once, and a code that names no location
      leaves the selection alone. */
  lemma ScanIdempotent(s: Selection, data: ScanData)
    ensures ScanWrites(ScanWrites(s, data), data) == ScanWrites(s, data)
    ensures !Present(data.departmentId) && !Present(data.lineId) && !Present(data.stationId) ==>
              ScanWrites(s, data) == s
  {
  }

  /** A scan in a form that has the reset effects: the handler's writes are rendered, and
      the effects then see the new department or line and clear what lies below it. */
  function ScanSettled(s: Selection, data: ScanData): Selection
  {
    Settle(s, ScanWrites(s, data))
  }

  /** What a scan leaves behind once the effects have run. A code naming another department
      ends with no line and no station, whatever it carried; a code naming another line under
      the same department ends with no station; only a code that moves neither keeps all of
      the handler's writes. */
  lemma ScanSettledOutcome(s: Selection, data: ScanData)
    ensures var r := ScanSettled(s, data);
            && (Present(data.departmentId) && data.departmentId.value != s.department ==>
                  r == Selection(data.departmentId.value, "", ""))
            && ((!Present(data.departmentId) || data.departmentId.value == s.department) &&
                Present(data.lineId) && data.lineId.value != s.line ==>
                  r == Selection(s.department, data.lineId.value, ""))
            && ((!Present(data.departmentId) || data.departmentId.value == s.department) &&
                (!Present(data.lineId) || data.lineId.value == s.line) ==>
                  r == ScanWrites(s, data))
  {
    var w := ScanWrites(s, data);
    assert Present(data.departmentId) ==> w.department == data.departmentId.value;
    assert !Present(data.departmentId) ==> w.department == s.department;
    assert Present(data.lineId) ==> w.line == data.lineId.value;
    assert !Present(data.lineId) ==> w.line == s.line;
  }

  /** From an empty form, a code carrying a whole location fills in only its department,
      while the handler alone would have filled in all three. */
  lemma ScanFromNothingKeepsOnlyDepartment(d: string, l: string, st: string, note: Option<string>)
    requires d != "" && l != "" && st != ""
    ensures ScanWrites(NothingSelected, ScanData(Some(d), Some(l), Some(st), note)) == Selection(d, l, st)
    ensures ScanSettled(NothingSelected, ScanData(Some(d), Some(l), Some(st), note)) == Selection(d, "", "")
  {
    ScanSettledOutcome(NothingSelected, ScanData(Some(d), Some(l), Some(st), note));
  }
}

/** The two entry forms of the current client (frontend/src/components/AddToolMoveForm.tsx and
    frontend/src/components/AddWeldForm.tsx). Each keeps its fields in component state, offers
    the location pickers, fills the location from a scanned QR code and posts one body to the
    backend. The browser refuses to submit while a `required` field is empty; the answer of
    the request is a parameter. */
module ClientForms {
  import opened Common
  import opened Records
  import opened LocationPicker
  import TM = ToolMoveRoutes
  import WR = WeldRoutes

  /** `movedBy || localStorage.getItem('tm_user_email')`: the field, which was read from the
      same storage on mount, or the stored value read again. */
  function ActorField(field: string, stored: Option<string>): (r: Option<string>)
    ensures field != "" ==> r == Some(field)
    ensures field == "" ==> r == stored
  {
    if field != "" then Some(field) else stored
  }

  /** While the storage does not change between mount and submit, the backend records the
      stored email, or the caller's when nothing is stored. */
  lemma ActorFieldStored(stored: Option<string>, callerEmail: string)
    ensures OrElse(ActorField(OrElse(stored, ""), stored), callerEmail) == OrElse(stored, callerEmail)
  {
  }

  // ---------------------------------------------------------------------------------------
  // The tool-move form

  /** The body `handleSubmit` posts: a location left empty is sent as null, and the touch-up
      notes are sent only when a touch-up is required; the completion flag is not sent. */
  function ToolMovePayload(reasonId: string, s: Selection, notes: string, movedBy: string,
                           stored: Option<string>, requiresWeldTouchup: bool, weldTouchupNotes: string)
    : (b: TM.CreateBody)
    ensures b.reason == Some(reasonId) && b.notes == Some(notes)
    ensures b.department == EmptyToNull(s.department) && b.line == EmptyToNull(s.line)
    ensures b.station == EmptyToNull(s.station)
    ensures b.movedBy == ActorField(movedBy, stored)
    ensures b.requiresWeldTouchup == Bool(requiresWeldTouchup) && b.weldTouchupCompleted == Undefined
    ensures requiresWeldTouchup ==> b.weldTouchupNotes == Some(weldTouchupNotes)
    ensures !requiresWeldTouchup ==> b.weldTouchupNotes == None
  {
    TM.CreateBody(Some(reasonId), EmptyToNull(s.department), EmptyToNull(s.line), EmptyToNull(s.station),
                  Some(notes), ActorField(movedBy, stored), Bool(requiresWeldTouchup), Undefined,
                  if requiresWeldTouchup then Some(weldTouchupNotes) else None)
  }

  /** What the backend stores for a submitted form: the move is accepted exactly when the
      chosen reason exists; it is then outstanding exactly when the box was ticked, keeps the
      touch-up notes only in that case, and records the chosen locations and the stored email. */
  lemma ToolMovePayloadStored(reasons: seq<Reason>, reasonId: string, s: Selection, notes: string,
                              stored: Option<string>, requiresWeldTouchup: bool, weldTouchupNotes: string,
                              callerEmail: string, id: Id, now: int)
    requires callerEmail != ""
    requires forall i :: 0 <= i < |reasons| ==> reasons[i].id != ""
    ensures var r := TM.Create(reasons, ToolMovePayload(reasonId, s, notes, OrElse(stored, ""), stored,
                                                         requiresWeldTouchup, weldTouchupNotes),
                               callerEmail, id, now);
            && (r.Ok? <==> exists i :: 0 <= i < |reasons| && reasons[i].id == reasonId)
            && (r.Ok? ==>
                  && r.value.reason == reasonId
                  && r.value.requiresWeldTouchup == requiresWeldTouchup && !r.value.weldTouchupCompleted
                  && r.value.weldTouchupNotes == Some(if requiresWeldTouchup then weldTouchupNotes else "")
                  && r.value.notes == Some(notes)
                  && r.value.movedBy == OrElse(stored, callerEmail)
                  && r.value.department == EmptyToNull(s.department)
                  && r.value.line == EmptyToNull(s.line) && r.value.station == EmptyToNull(s.station))
  {
    ActorFieldStored(stored, callerEmail);
  }

  class ToolMoveForm {
    var reasonId: string
    var selection: Selection
    var notes: string
    var movedBy: string
    var requiresWeldTouchup: bool
    var weldTouchupNotes: string
    var loading: bool
    var error: Option<string>
    var showScanner: bool
    var departments: seq<DepartmentOption>
    var lines: seq<LineOption>
    var stations: seq<StationOption>

    /** Every field empty; the mover is read from storage once, on mount. */
    constructor (stored: Option<string>)
      ensures reasonId == "" && selection == NothingSelected && notes == "" && weldTouchupNotes == ""
      ensures movedBy == OrElse(stored, "") && !requiresWeldTouchup
      ensures !loading && error == None && !showScanner
      ensures departments == [] && lines == [] && stations == []
    {
      reasonId, selection, notes, weldTouchupNotes := "", NothingSelected, "", "";
      movedBy, requiresWeldTouchup := OrElse(stored, ""), false;
      loading, error, showScanner := false, None, false;
      departments, lines, stations := [], [], [];
    }

    /** The lines the line dropdown offers. */
    function LineChoices(): seq<LineOption>
      reads this
    {
      FilteredLines(lines, selection.department)
    }

    /** The stations the station dropdown offers. */
    function StationChoices(): seq<StationOption>
      reads this
    {
      FilteredStations(stations, selection.line)
    }

    /** `fetchDepartments`: the departments and the flattened lines and stations, each station
        keyed by its line's `_id`; a failed request is only logged. */
    method LoadLocations(q: Query<DepartmentJson>)
      modifies this
      ensures q.Rows? ==> && departments == Map(q.RowsOr(), DepartmentOptionOf)
                          && lines == FlattenLines(q.RowsOr())
                          && stations == FlattenStations(q.RowsOr(), MongoIdOnly)
      ensures q.QueryFailed? ==> departments == old(departments) && lines == old(lines) && stations == old(stations)
      ensures selection == old(selection) && reasonId == old(reasonId) && notes == old(notes)
      ensures movedBy == old(movedBy) && requiresWeldTouchup == old(requiresWeldTouchup)
      ensures weldTouchupNotes == old(weldTouchupNotes) && loading == old(loading) && error == old(error)
      ensures showScanner == old(showScanner)
    {
      if q.Rows? {
        departments, lines, stations := Map(q.RowsOr(), DepartmentOptionOf), FlattenLines(q.RowsOr()),
                                        FlattenStations(q.RowsOr(), MongoIdOnly);
      }
    }

    /** The department dropdown, followed by the reset effects. */
    method SelectDepartment(departmentId: string)
      modifies this
      ensures selection == ChooseDepartment(old(selection), departmentId)
      ensures departments == old(departments) && lines == old(lines) && stations == old(stations)
      ensures reasonId == old(reasonId) && notes == old(notes) && movedBy == old(movedBy)
      ensures requiresWeldTouchup == old(requiresWeldTouchup) && weldTouchupNotes == old(weldTouchupNotes)
      ensures loading == old(loading) && error == old(error) && showScanner == old(showScanner)
    {
      selection := ChooseDepartment(selection, departmentId);
    }

    method SelectLine(lineId: string)
      modifies this
      ensures selection == ChooseLine(old(selection), lineId)
      ensures departments == old(departments) && lines == old(lines) && stations == old(stations)
      ensures reasonId == old(reasonId) && notes == old(notes) && movedBy == old(movedBy)
      ensures requiresWeldTouchup == old(requiresWeldTouchup) && weldTouchupNotes == old(weldTouchupNotes)
      ensures loading == old(loading) && error == old(error) && showScanner == old(showScanner)
    {
      selection := ChooseLine(selection, lineId);
    }

    method SelectStation(stationId: string)
      modifies this
      ensures selection == ChooseStation(old(selection), stationId)
      ensures departments == old(departments) && lines == old(lines) && stations == old(stations)
      ensures reasonId == old(reasonId) && notes == old(notes) && movedBy == old(movedBy)
      ensures requiresWeldTouchup == old(requiresWeldTouchup) && weldTouchupNotes == old(weldTouchupNotes)
      ensures loading == old(loading) && error == old(error) && showScanner == old(showScanner)
    {
      selection := ChooseStation(selection, stationId);
    }

    /** `handleQRScan`: the supplied location fields and note replace the form's and the
        scanner closes; then the reset effects react to the new department or line, so the
        selection ends as `ScanSettled` says. */
    method HandleQRScan(data: ScanData)
      modifies this
      ensures selection == ScanSettled(old(selection), data)
      ensures Present(data.note) ==> notes == data.note.value
      ensures !Present(data.note) ==> notes == old(notes)
      ensures !showScanner
      ensures departments == old(departments) && lines == old(lines) && stations == old(stations)
      ensures reasonId == old(reasonId) && movedBy == old(movedBy)
      ensures requiresWeldTouchup == old(requiresWeldTouchup) && weldTouchupNotes == old(weldTouchupNotes)
      ensures loading == old(loading) && error == old(error)
    {
      var written := ScanWrites(selection, data);
      selection := Settle(selection, written);
      notes := OrElse(data.note, notes);
      showScanner := false;
    }

    /** `handleSubmit`. Nothing is posted while no reason is chosen. Otherwise the payload is
        posted; `failure` is the message of the error the request raised, if any, and becomes
        the form's error. `stored` is the storage read again at submit time. */
    method Submit(stored: Option<string>, failure: Option<string>) returns (posted: Option<TM.CreateBody>)
      modifies this
      ensures old(reasonId) == "" ==> posted == None && error == old(error) && loading == old(loading)
      ensures old(reasonId) != "" ==>
                && posted == Some(ToolMovePayload(reasonId, selection, notes, movedBy, stored,
                                                  requiresWeldTouchup, weldTouchupNotes))
                && error == failure && !loading
      ensures selection == old(selection) && reasonId == old(reasonId) && notes == old(notes)
      ensures movedBy == old(movedBy) && requiresWeldTouchup == old(requiresWeldTouchup)
      ensures weldTouchupNotes == old(weldTouchupNotes) && showScanner == old(showScanner)
      ensures departments == old(departments) && lines == old(lines) && stations == old(stations)
    {
      if reasonId == "" {
        return None;
      }
      loading := true;
      error := None;
      posted := Some(ToolMovePayload(reasonId, selection, notes, movedBy, stored,
                                     requiresWeldTouchup, weldTouchupNotes));
      if failure.Some? {
        error := failure;
      }
      loading := false;
    }
  }

  // ---------------------------------------------------------------------------------------
  // The weld form

  const Pending := "pending"
  const Completed := "completed"

  /** The "Mark as completed" checkbox: ticked gives "completed", cleared gives "pending". */
  function StatusOf(checked: bool): (status: string)
    ensures status == Completed <==> checked
    ensures status == Pending <==> !checked
  {
    if checked then Completed else Pending
  }

  /** The body `handleSubmit` posts: the reason is the chosen option's id, a location left empty
      is sent as null. */
  function WeldPayload(partNumber: string, weldType: string, reason: string, s: Selection, notes: string,
                       completedBy: string, stored: Option<string>, status: string)
    : (b: WR.CreateBody)
    ensures b.partNumber == Some(partNumber) && b.weldType == Some(weldType) && b.reason == Some(reason)
    ensures b.department == EmptyToNull(s.department) && b.line == EmptyToNull(s.line)
    ensures b.station == EmptyToNull(s.station)
    ensures b.notes == Some(notes) && b.completedBy == ActorField(completedBy, stored)
    ensures b.status == Some(status)
  {
    WR.CreateBody(Some(partNumber), Some(weldType), Some(reason), EmptyToNull(s.department),
                  EmptyToNull(s.line), EmptyToNull(s.station), Some(notes),
                  ActorField(completedBy, stored), Some(status))
  }

  /** A form the browser lets through is always accepted by the backend, which stores the
      chosen reason id as the reason, the checkbox's status and the stored email. */
  lemma WeldPayloadStored(partNumber: string, weldType: string, reason: string, s: Selection, notes: string,
                          stored: Option<string>, status: string, callerEmail: string, id: Id, now: int)
    requires partNumber != "" && weldType != "" && reason != "" && callerEmail != ""
    requires status == Pending || status == Completed
    ensures var r := WR.Create(WeldPayload(partNumber, weldType, reason, s, notes, OrElse(stored, ""), stored, status),
                               callerEmail, id, now);
            && r.Ok?
            && r.value.partNumber == partNumber && r.value.weldType == weldType && r.value.reason == reason
            && r.value.status == status && r.value.notes == Some(notes)
            && r.value.completedBy == OrElse(stored, callerEmail)
            && r.value.department == EmptyToNull(s.department)
            && r.value.line == EmptyToNull(s.line) && r.value.station == EmptyToNull(s.station)
  {
    ActorFieldStored(stored, callerEmail);
  }

  /** A reason in the weld form's dropdown: `{ id: r._id || r.id, name: r.name }`. */
  datatype ReasonOption = ReasonOption(id: string, name: string)

  class WeldForm {
    var partNumber: string
    var selection: Selection
    var weldType: string
    var reason: string
    var notes: string
    var completedBy: string
    var status: string
    var loading: bool
    var error: Option<string>
    var showScanner: bool
    var departments: seq<DepartmentOption>
    var lines: seq<LineOption>
    var stations: seq<StationOption>

    /** The status only ever holds one of the checkbox's two values. */
    predicate Valid()
      reads this
    {
      status == Pending || status == Completed
    }

    constructor (stored: Option<string>)
      ensures Valid() && status == Pending
      ensures partNumber == "" && selection == NothingSelected && weldType == "" && reason == "" && notes == ""
      ensures completedBy == OrElse(stored, "")
      ensures !loading && error == None && !showScanner
      ensures departments == [] && lines == [] && stations == []
    {
      partNumber, selection, weldType, reason, notes := "", NothingSelected, "", "", "";
      completedBy, status := OrElse(stored, ""), Pending;
      loading, error, showScanner := false, None, false;
      departments, lines, stations := [], [], [];
    }

    function LineChoices(): seq<LineOption>
      reads this
    {
      FilteredLines(lines, selection.department)
    }

    function StationChoices(): seq<StationOption>
      reads this
    {
      FilteredStations(stations, selection.line)
    }

    /** `loadLocations`: as in the tool-move form, except that a station is keyed by its
        line's `_id || id`. */
    method LoadLocations(q: Query<DepartmentJson>)
      modifies this
      ensures q.Rows? ==> && departments == Map(q.RowsOr(), DepartmentOptionOf)
                          && lines == FlattenLines(q.RowsOr())
                          && stations == FlattenStations(q.RowsOr(), MongoIdOrId)
      ensures q.QueryFailed? ==> departments == old(departments) && lines == old(lines) && stations == old(stations)
      ensures selection == old(selection) && partNumber == old(partNumber) && weldType == old(weldType)
      ensures reason == old(reason) && notes == old(notes) && completedBy == old(completedBy)
      ensures status == old(status) && loading == old(loading) && error == old(error)
      ensures showScanner == old(showScanner)
    {
      if q.Rows? {
        departments, lines, stations := Map(q.RowsOr(), DepartmentOptionOf), FlattenLines(q.RowsOr()),
                                        FlattenStations(q.RowsOr(), MongoIdOrId);
      }
    }

    method SelectDepartment(departmentId: string)
      modifies this
      ensures selection == ChooseDepartment(old(selection), departmentId)
      ensures departments == old(departments) && lines == old(lines) && stations == old(stations)
      ensures partNumber == old(partNumber) && weldType == old(weldType) && reason == old(reason)
      ensures notes == old(notes) && completedBy == old(completedBy) && status == old(status)
      ensures loading == old(loading) && error == old(error) && showScanner == old(showScanner)
    {
      selection := ChooseDepartment(selection, departmentId);
    }

    method SelectLine(lineId: string)
      modifies this
      ensures selection == ChooseLine(old(selection), lineId)
      ensures departments == old(departments) && lines == old(lines) && stations == old(stations)
      ensures partNumber == old(partNumber) && weldType == old(weldType) && reason == old(reason)
      ensures notes == old(notes) && completedBy == old(completedBy) && status == old(status)
      ensures loading == old(loading) && error == old(error) && showScanner == old(showScanner)
    {
      selection := ChooseLine(selection, lineId);
    }

    method SelectStation(stationId: string)
      modifies this
      ensures selection == ChooseStation(old(selection), stationId)
      ensures departments == old(departments) && lines == old(lines) && stations == old(stations)
      ensures partNumber == old(partNumber) && weldType == old(weldType) && reason == old(reason)
      ensures notes == old(notes) && completedBy == old(completedBy) && status == old(status)
      ensures loading == old(loading) && error == old(error) && showScanner == old(showScanner)
    {
      selection := ChooseStation(selection, stationId);
    }

    /** The reason dropdown: an option's value is the reason's id, so the id, not the name,
        becomes the weld's reason. */
    method SelectReason(option: ReasonOption)
      modifies this
      ensures reason == option.id
      ensures selection == old(selection) && partNumber == old(partNumber) && weldType == old(weldType)
      ensures notes == old(notes) && completedBy == old(completedBy) && status == old(status)
      ensures loading == old(loading) && error == old(error) && showScanner == old(showScanner)
      ensures departments == old(departments) && lines == old(lines) && stations == old(stations)
    {
      reason := option.id;
    }

    /** The checkbox's `onChange`. */
    method SetCompleted(checked: bool)
      modifies this
      ensures status == StatusOf(checked) && Valid()
      ensures selection == old(selection) && partNumber == old(partNumber) && weldType == old(weldType)
      ensures reason == old(reason) && notes == old(notes) && completedBy == old(completedBy)
      ensures loading == old(loading) && error == old(error) && showScanner == old(showScanner)
      ensures departments == old(departments) && lines == old(lines) && stations == old(stations)
    {
      status := if checked then Completed else Pending;
    }

    /** `handleQRScan` followed by the reset effects, as in the tool-move form. */
    method HandleQRScan(data: ScanData)
      modifies this
      ensures selection == ScanSettled(old(selection), data)
      ensures Present(data.note) ==> notes == data.note.value
      ensures !Present(data.note) ==> notes == old(notes)
      ensures !showScanner
      ensures departments == old(departments) && lines == old(lines) && stations == old(stations)
      ensures partNumber == old(partNumber) && weldType == old(weldType) && reason == old(reason)
      ensures completedBy == old(completedBy) && status == old(status)
      ensures loading == old(loading) && error == old(error)
    {
      var written := ScanWrites(selection, data);
      selection := Settle(selection, written);
      notes := OrElse(data.note, notes);
      showScanner := false;
    }

    /** `handleSubmit`: nothing is posted while the part number, the weld type or the reason is
        empty; otherwise the payload is posted and a failure's message becomes the error. */
    method Submit(stored: Option<string>, failure: Option<string>) returns (posted: Option<WR.CreateBody>)
      modifies this
      ensures old(partNumber) == "" || old(weldType) == "" || old(reason) == "" ==>
                posted == None && error == old(error) && loading == old(loading)
      ensures old(partNumber) != "" && old(weldType) != "" && old(reason) != "" ==>
                && posted == Some(WeldPayload(partNumber, weldType, reason, selection, notes, completedBy,
                                              stored, status))
                && error == failure && !loading
      ensures selection == old(selection) && partNumber == old(partNumber) && weldType == old(weldType)
      ensures reason == old(reason) && notes == old(notes) && completedBy == old(completedBy)
      ensures status == old(status) && showScanner == old(showScanner)
      ensures departments == old(departments) && lines == old(lines) && stations == old(stations)
    {
      if partNumber == "" || weldType == "" || reason == "" {
        return None;
      }
      loading := true;
      error := None;
      posted := Some(WeldPayload(partNumber, weldType, reason, selection, notes, completedBy, stored, status));
      if failure.Some? {
        error := failure;
      }
      loading := false;
    }
  }
}

/** The stored document kinds (the Mongoose schemas under backend/src/models): their fields, the schema's
    `required` checks and defaults, and creation with `{ timestamps: true }`.
    A `required` String refuses the empty string as well as a missing value. */
module Records {
  import opened Common

  // ---------------------------------------------------------------------------------------
  // ToolMove

  datatype ToolMove = ToolMove(
    id: Id,
    reason: Id,
    department: Option<Id>,
    line: Option<Id>,
    station: Option<Id>,
    notes: Option<string>,
    movedBy: string,
    requiresWeldTouchup: bool,
    weldTouchupCompleted: bool,
    weldTouchupNotes: Option<string>,
    createdAt: int,
    updatedAt: int)

  /** What the schema lets into the collection. Nothing ties the two weld flags together,
      and department, line and station need not agree with each other. */
  predicate ToolMoveValid(m: ToolMove)
  {
    m.reason != "" && m.movedBy != ""
  }

  /** The fields handed to `ToolMove.create`; None is an absent field. */
  datatype ToolMoveFields = ToolMoveFields(
    reason: Option<Id>,
    department: Option<Id>,
    line: Option<Id>,
    station: Option<Id>,
    notes: Option<string>,
    movedBy: Option<string>,
    requiresWeldTouchup: Option<bool>,
    weldTouchupCompleted: Option<bool>,
    weldTouchupNotes: Option<string>)

  function NewToolMove(f: ToolMoveFields, id: Id, now: int): (r: Result<ToolMove>)
    ensures r.Ok? <==> Present(f.reason) && Present(f.movedBy)
    ensures r.Err? ==> r.error.Invalid?
    ensures r.Ok? ==> ToolMoveValid(r.value)
    ensures r.Ok? ==> && r.value.id == id && r.value.reason == f.reason.value
                      && r.value.movedBy == f.movedBy.value
                      && r.value.department == f.department && r.value.line == f.line
                      && r.value.station == f.station && r.value.notes == f.notes
                      && r.value.weldTouchupNotes == f.weldTouchupNotes
    ensures r.Ok? ==> r.value.requiresWeldTouchup == (f.requiresWeldTouchup == Some(true))
    ensures r.Ok? ==> r.value.weldTouchupCompleted == (f.weldTouchupCompleted == Some(true))
    ensures r.Ok? ==> r.value.createdAt == now && r.value.updatedAt == now
  {
    if !Present(f.reason) then Err(Invalid("reason"))
    else if !Present(f.movedBy) then Err(Invalid("movedBy"))
    else Ok(ToolMove(id, f.reason.value, f.department, f.line, f.station, f.notes, f.movedBy.value,
                     f.requiresWeldTouchup.GetOr(false), f.weldTouchupCompleted.GetOr(false),
                     f.weldTouchupNotes, now, now))
  }

  // ---------------------------------------------------------------------------------------
  // WeldTouchup

  datatype WeldTouchup = WeldTouchup(
    id: Id,
    partNumber: string,
    weldType: string,
    reason: string,          // free text, not a reference
    department: Option<Id>,
    line: Option<Id>,
    station: Option<Id>,
    notes: Option<string>,
    completedBy: string,
    status: string,          // no enumeration: any string
    createdAt: int,
    updatedAt: int)

  predicate WeldValid(w: WeldTouchup)
  {
    w.partNumber != "" && w.weldType != "" && w.reason != "" && w.completedBy != ""
  }

  datatype WeldFields = WeldFields(
    partNumber: Option<string>,
    weldType: Option<string>,
    reason: Option<string>,
    department: Option<Id>,
    line: Option<Id>,
    station: Option<Id>,
    notes: Option<string>,
    completedBy: Option<string>,
    status: Option<string>)

  function NewWeld(f: WeldFields, id: Id, now: int): (r: Result<WeldTouchup>)
    ensures r.Ok? <==> Present(f.partNumber) && Present(f.weldType) && Present(f.reason)
                       && Present(f.completedBy)
    ensures r.Err? ==> r.error.Invalid?
    ensures r.Ok? ==> WeldValid(r.value)
    ensures r.Ok? ==> && r.value.id == id && r.value.partNumber == f.partNumber.value
                      && r.value.weldType == f.weldType.value && r.value.reason == f.reason.value
                      && r.value.completedBy == f.completedBy.value
                      && r.value.department == f.department && r.value.line == f.line
                      && r.value.station == f.station && r.value.notes == f.notes
    ensures r.Ok? ==> r.value.status == (if f.status.Some? then f.status.value else "pending")
    ensures r.Ok? ==> r.value.createdAt == now && r.value.updatedAt == now
  {
    if !Present(f.partNumber) then Err(Invalid("partNumber"))
    else if !Present(f.weldType) then Err(Invalid("weldType"))
    else if !Present(f.reason) then Err(Invalid("reason"))
    else if !Present(f.completedBy) then Err(Invalid("completedBy"))
    else Ok(WeldTouchup(id, f.partNumber.value, f.weldType.value, f.reason.value, f.department,
                        f.line, f.station, f.notes, f.completedBy.value,
                        f.status.GetOr("pending"), now, now))
  }

  // ---------------------------------------------------------------------------------------
  // Notification

  datatype Notification = Notification(
    id: Id,
    user: Id,
    message: string,
    read: bool,
    createdAt: int,
    updatedAt: int)

  predicate NotificationValid(n: Notification)
  {
    n.user != "" && n.message != ""
  }

  function NewNotification(user: Id, message: string, id: Id, now: int): (r: Result<Notification>)
    ensures r.Ok? <==> user != "" && message != ""
    ensures r.Ok? ==> NotificationValid(r.value) && !r.value.read
    ensures r.Ok? ==> r.value.id == id && r.value.user == user && r.value.message == message
    ensures r.Ok? ==> r.value.createdAt == now && r.value.updatedAt == now
  {
    if user == "" then Err(Invalid("user"))
    else if message == "" then Err(Invalid("message"))
    else Ok(Notification(id, user, message, false, now, now))
  }

  // ---------------------------------------------------------------------------------------
  // Department, Line, Station, Reason

  datatype Department = Department(
    id: Id, name: string, description: Option<string>, status: string, createdAt: int, updatedAt: int)

  datatype Line = Line(
    id: Id, name: string, description: Option<string>, status: string, department: Id,
    createdAt: int, updatedAt: int)

  datatype Station = Station(
    id: Id, name: string, description: Option<string>, status: string, line: Id,
    createdAt: int, updatedAt: int)

  datatype Reason = Reason(
    id: Id, name: string, description: Option<string>, status: string, createdAt: int, updatedAt: int)

  function NewDepartment(name: Option<string>, description: Option<string>, status: Option<string>,
                         id: Id, now: int): (r: Result<Department>)
    ensures r.Ok? <==> Present(name)
    ensures r.Ok? ==> r.value.id == id && r.value.name == name.value && r.value.description == description
    ensures r.Ok? ==> r.value.status == (if status.Some? then status.value else "active")
    ensures r.Ok? ==> r.value.createdAt == now && r.value.updatedAt == now
  {
    if !Present(name) then Err(Invalid("name"))
    else Ok(Department(id, name.value, description, status.GetOr("active"), now, now))
  }

  function NewLine(name: Option<string>, description: Option<string>, status: Option<string>,
                   department: Option<Id>, id: Id, now: int): (r: Result<Line>)
    ensures r.Ok? <==> Present(name) && Present(department)
    ensures r.Ok? ==> && r.value.id == id && r.value.name == name.value
                      && r.value.description == description && r.value.department == department.value
    ensures r.Ok? ==> r.value.status == (if status.Some? then status.value else "active")
    ensures r.Ok? ==> r.value.createdAt == now && r.value.updatedAt == now
  {
    if !Present(name) then Err(Invalid("name"))
    else if !Present(department) then Err(Invalid("department"))
    else Ok(Line(id, name.value, description, status.GetOr("active"), department.value, now, now))
  }

  function NewStation(name: Option<string>, description: Option<string>, status: Option<string>,
                      line: Option<Id>, id: Id, now: int): (r: Result<Station>)
    ensures r.Ok? <==> Present(name) && Present(line)
    ensures r.Ok? ==> && r.value.id == id && r.value.name == name.value
                      && r.value.description == description && r.value.line == line.value
    ensures r.Ok? ==> r.value.status == (if status.Some? then status.value else "active")
    ensures r.Ok? ==> r.value.createdAt == now && r.value.updatedAt == now
  {
    if !Present(name) then Err(Invalid("name"))
    else if !Present(line) then Err(Invalid("line"))
    else Ok(Station(id, name.value, description, status.GetOr("active"), line.value, now, now))
  }

  function NewReason(name: Option<string>, description: Option<string>, status: Option<string>,
                     id: Id, now: int): (r: Result<Reason>)
    ensures r.Ok? <==> Present(name)
    ensures r.Ok? ==> r.value.id == id && r.value.name == name.value && r.value.description == description
    ensures r.Ok? ==> r.value.status == (if status.Some? then status.value else "active")
    ensures r.Ok? ==> r.value.createdAt == now && r.value.updatedAt == now
  {
    if !Present(name) then Err(Invalid("name"))
    else Ok(Reason(id, name.value, description, status.GetOr("active"), now, now))
  }

  // ---------------------------------------------------------------------------------------
  // User

  datatype User = User(
    id: Id,
    email: string,            // stored lower-case
    fullName: Option<string>,
    passwordHash: string,
    department: Option<string>,
    isAdmin: bool,
    createdAt: int,
    updatedAt: int)

  predicate UserValid(u: User)
  {
    u.email != "" && u.email == Lower(u.email) && u.passwordHash != ""
  }

  function NewUser(email: Option<string>, fullName: Option<string>, passwordHash: Option<string>,
                   department: Option<string>, isAdmin: Option<bool>, id: Id, now: int): (r: Result<User>)
    ensures r.Ok? <==> Present(email) && Present(passwordHash)
    ensures r.Ok? ==> UserValid(r.value)
    ensures r.Ok? ==> && r.value.id == id && r.value.email == Lower(email.value)
                      && r.value.passwordHash == passwordHash.value
                      && r.value.fullName == fullName && r.value.department == department
    ensures r.Ok? ==> r.value.isAdmin == (isAdmin == Some(true))
    ensures r.Ok? ==> r.value.createdAt == now && r.value.updatedAt == now
  {
    if !Present(email) then Err(Invalid("email"))
    else if !Present(passwordHash) then Err(Invalid("passwordHash"))
    else
      LowerIdempotent(email.value);
      Ok(User(id, Lower(email.value), fullName, passwordHash.value, department,
              isAdmin.GetOr(false), now, now))
  }
}

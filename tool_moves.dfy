/** The tool-move routes (backend/src/routes/toolMoves.js) as functions of the stored
    collections: what POST builds from the request body, and what PATCH writes. The
    `Database` class applies them to its collections. */
module ToolMoveRoutes {
  import opened Common
  import opened Records
  import opened Sorting

  /** The POST body, as far as the route reads it. */
  datatype CreateBody = CreateBody(
    reason: Option<Id>,
    department: Option<Id>,
    line: Option<Id>,
    station: Option<Id>,
    notes: Option<string>,
    movedBy: Option<string>,
    requiresWeldTouchup: Json,
    weldTouchupCompleted: Json,
    weldTouchupNotes: Option<string>)

  /** `Reason.findById(body.reason)` finds a document. */
  predicate ReasonExists(reasons: seq<Reason>, id: Option<Id>)
  {
    id.Some? && exists i :: 0 <= i < |reasons| && reasons[i].id == id.value
  }

  /** The object handed to `ToolMove.create`: absent locations become null, absent notes
      become "", the actor falls back to the caller, and both flags are coerced with `!!`. */
  function CreateFields(b: CreateBody, callerEmail: string): (f: ToolMoveFields)
    ensures f.reason == b.reason
    ensures f.department == OrNull(b.department) && f.line == OrNull(b.line)
    ensures f.station == OrNull(b.station)
    ensures f.notes == Some(OrElse(b.notes, ""))
    ensures f.weldTouchupNotes == Some(OrElse(b.weldTouchupNotes, ""))
    ensures f.movedBy == Some(OrElse(b.movedBy, callerEmail))
    ensures f.requiresWeldTouchup == Some(JsTruthy(b.requiresWeldTouchup))
    ensures f.weldTouchupCompleted == Some(JsTruthy(b.weldTouchupCompleted))
  {
    ToolMoveFields(b.reason, OrNull(b.department), OrNull(b.line), OrNull(b.station),
                   Some(OrElse(b.notes, "")), Some(OrElse(b.movedBy, callerEmail)),
                   Some(JsTruthy(b.requiresWeldTouchup)), Some(JsTruthy(b.weldTouchupCompleted)),
                   Some(OrElse(b.weldTouchupNotes, "")))
  }

  /** POST /tool-moves: a 400 when the reason does not resolve, otherwise the new record. */
  function Create(reasons: seq<Reason>, b: CreateBody, callerEmail: string, id: Id, now: int)
    : (r: Result<ToolMove>)
    requires callerEmail != ""
    requires forall i :: 0 <= i < |reasons| ==> reasons[i].id != ""
    ensures r.Err? <==> !ReasonExists(reasons, b.reason)
    ensures r.Err? ==> r.error == BadRequest("Reason not found")
    ensures r.Ok? ==> ToolMoveValid(r.value) && r.value.id == id && r.value.reason == b.reason.value
    ensures r.Ok? ==> && r.value.requiresWeldTouchup == JsTruthy(b.requiresWeldTouchup)
                      && r.value.weldTouchupCompleted == JsTruthy(b.weldTouchupCompleted)
    ensures r.Ok? ==> && r.value.movedBy == OrElse(b.movedBy, callerEmail)
                      && r.value.notes == Some(OrElse(b.notes, ""))
                      && r.value.weldTouchupNotes == Some(OrElse(b.weldTouchupNotes, ""))
                      && r.value.department == OrNull(b.department)
                      && r.value.line == OrNull(b.line) && r.value.station == OrNull(b.station)
    ensures r.Ok? ==> r.value.createdAt == now && r.value.updatedAt == now
  {
    if !ReasonExists(reasons, b.reason) then Err(BadRequest("Reason not found"))
    else
      var f := CreateFields(b, callerEmail);
      assert b.reason.value != "" by {
        var i :| 0 <= i < |reasons| && reasons[i].id == b.reason.value;
      }
      NewToolMove(f, id, now)
  }

  /** The reason check is the only one: nothing ties the two flags together, so a move can be
      stored already completed although it never required a touch-up. */
  lemma CompletedWithoutRequirement(reasons: seq<Reason>, callerEmail: string, id: Id, now: int)
    requires callerEmail != ""
    requires |reasons| > 0 && forall i :: 0 <= i < |reasons| ==> reasons[i].id != ""
    ensures var b := CreateBody(Some(reasons[0].id), None, None, None, None, None,
                                Bool(false), Bool(true), None);
            var r := Create(reasons, b, callerEmail, id, now);
            r.Ok? && r.value.weldTouchupCompleted && !r.value.requiresWeldTouchup
  {
    var b := CreateBody(Some(reasons[0].id), None, None, None, None, None,
                        Bool(false), Bool(true), None);
    assert ReasonExists(reasons, b.reason);
  }

  /** The PATCH body: each field is absent (left alone) or a value. */
  datatype PatchBody = PatchBody(
    requiresWeldTouchup: Option<bool>,
    weldTouchupCompleted: Option<bool>,
    weldTouchupNotes: Option<string>)

  /** `findByIdAndUpdate` with the three weld fields: fields the body leaves out are not
      written, and the update stamps `updated_at`. */
  function Patch(m: ToolMove, p: PatchBody, now: int): (r: ToolMove)
    ensures r.requiresWeldTouchup == p.requiresWeldTouchup.GetOr(m.requiresWeldTouchup)
    ensures r.weldTouchupCompleted == p.weldTouchupCompleted.GetOr(m.weldTouchupCompleted)
    ensures r.weldTouchupNotes == (if p.weldTouchupNotes.Some? then p.weldTouchupNotes else m.weldTouchupNotes)
    ensures r.updatedAt == now
    ensures r.(requiresWeldTouchup := m.requiresWeldTouchup,
               weldTouchupCompleted := m.weldTouchupCompleted,
               weldTouchupNotes := m.weldTouchupNotes, updatedAt := m.updatedAt) == m
  {
    m.(requiresWeldTouchup := p.requiresWeldTouchup.GetOr(m.requiresWeldTouchup),
       weldTouchupCompleted := p.weldTouchupCompleted.GetOr(m.weldTouchupCompleted),
       weldTouchupNotes := if p.weldTouchupNotes.Some? then p.weldTouchupNotes else m.weldTouchupNotes,
       updatedAt := now)
  }

  /** Sending the same PATCH again changes nothing but the update time. */
  lemma PatchIdempotent(m: ToolMove, p: PatchBody, t1: int, t2: int)
    ensures Patch(Patch(m, p, t1), p, t2) == Patch(m, p, t2)
  {
  }

  /** The PATCH keeps the record valid: it cannot touch the required fields. */
  lemma PatchKeepsValid(m: ToolMove, p: PatchBody, now: int)
    requires ToolMoveValid(m)
    ensures ToolMoveValid(Patch(m, p, now)) && Patch(m, p, now).id == m.id
  {
  }

  /** `m => Patch(m, p, now)`, the update `findByIdAndUpdate` applies. */
  function PatchWith(p: PatchBody, now: int): ToolMove -> ToolMove
  {
    (m: ToolMove) => Patch(m, p, now)
  }

  predicate Newer(a: ToolMove, b: ToolMove)
  {
    b.createdAt <= a.createdAt
  }

  /** GET /tool-moves: `sort({ created_at: -1 })`. */
  function List(moves: seq<ToolMove>): seq<ToolMove>
  {
    Sort(moves, Newer)
  }

  /** The list holds every stored move once per copy, newest first. */
  lemma ListNewestFirst(moves: seq<ToolMove>)
    ensures multiset(List(moves)) == multiset(moves)
    ensures forall i, j :: 0 <= i < j < |List(moves)| ==> List(moves)[j].createdAt <= List(moves)[i].createdAt
  {
    assert TotalPreorder(Newer);
    SortSorted(moves, Newer);
  }

  function MoveId(m: ToolMove): Id { m.id }
}

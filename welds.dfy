/** The weld touch-up routes (backend/src/routes/welds.js): what POST stores, the
    notification every user receives afterwards, and the unchecked PATCH of `status`. */
module WeldRoutes {
  import opened Common
  import opened Records
  import opened Sorting

  /** The POST body, as far as the route reads it. */
  datatype CreateBody = CreateBody(
    partNumber: Option<string>,
    weldType: Option<string>,
    reason: Option<string>,
    department: Option<Id>,
    line: Option<Id>,
    station: Option<Id>,
    notes: Option<string>,
    completedBy: Option<string>,
    status: Option<string>)

  /** POST /welds: the reason is stored as given (it is looked up nowhere), absent locations
      become null, notes default to "", the actor falls back to the caller and the status to
      "pending". The schema's `required` checks are the only ones. */
  function Create(b: CreateBody, callerEmail: string, id: Id, now: int): (r: Result<WeldTouchup>)
    requires callerEmail != ""
    ensures r.Ok? <==> Present(b.partNumber) && Present(b.weldType) && Present(b.reason)
    ensures r.Err? ==> r.error.Invalid?
    ensures r.Ok? ==> && WeldValid(r.value) && r.value.id == id
                      && r.value.partNumber == b.partNumber.value
                      && r.value.weldType == b.weldType.value
                      && r.value.reason == b.reason.value
    ensures r.Ok? ==> && r.value.status == OrElse(b.status, "pending")
                      && r.value.completedBy == OrElse(b.completedBy, callerEmail)
                      && r.value.notes == Some(OrElse(b.notes, ""))
                      && r.value.department == OrNull(b.department)
                      && r.value.line == OrNull(b.line) && r.value.station == OrNull(b.station)
    ensures r.Ok? ==> r.value.createdAt == now && r.value.updatedAt == now
  {
    NewWeld(WeldFields(b.partNumber, b.weldType, b.reason, OrNull(b.department), OrNull(b.line),
                       OrNull(b.station), Some(OrElse(b.notes, "")),
                       Some(OrElse(b.completedBy, callerEmail)), Some(OrElse(b.status, "pending"))),
            id, now)
  }

  /** The text every user is sent. */
  function Message(b: CreateBody): string
  {
    "Weld touch up requested: " + OrElse(b.partNumber, "") + " (" + OrElse(b.reason, "No reason") + ")"
  }

  /** The fallbacks in the message never show after a successful create: the schema has
      already refused a body without a part number or a reason. */
  lemma MessageOfStoredWeld(b: CreateBody, callerEmail: string, id: Id, now: int)
    requires callerEmail != ""
    requires Create(b, callerEmail, id, now).Ok?
    ensures var w := Create(b, callerEmail, id, now).value;
            Message(b) == "Weld touch up requested: " + w.partNumber + " (" + w.reason + ")"
  {
  }

  /** The documents `Notification.insertMany` receives: one per user, in the order the users
      were read, each unread, addressed to that user and carrying the message. Ids are
      minted from `first` on. */
  function FanOut(users: seq<User>, msg: string, first: nat, now: int): (r: seq<Notification>)
    ensures |r| == |users|
    ensures forall i :: 0 <= i < |r| ==>
              r[i] == Notification(IdOf(first + i), users[i].id, msg, false, now, now)
  {
    seq(|users|, i requires 0 <= i < |users| =>
      Notification(IdOf(first + i), users[i].id, msg, false, now, now))
  }

  /** Every user gets exactly one of the notifications. */
  lemma FanOutOnePerUser(users: seq<User>, msg: string, first: nat, now: int, u: Id)
    requires forall i, j :: 0 <= i < j < |users| ==> users[i].id != users[j].id
    ensures var r := FanOut(users, msg, first, now);
            |set i | 0 <= i < |r| && r[i].user == u| == if exists k :: 0 <= k < |users| && users[k].id == u then 1 else 0
  {
    var r := FanOut(users, msg, first, now);
    var hits := set i | 0 <= i < |r| && r[i].user == u;
    if k :| 0 <= k < |users| && users[k].id == u {
      assert hits == {k};
    } else {
      assert hits == {};
    }
  }

  /** The PATCH body: each field is absent (left alone) or a value. */
  datatype PatchBody = PatchBody(status: Option<string>, notes: Option<string>, completedBy: Option<string>)

  /** `findByIdAndUpdate` with status, notes and completedBy: fields the body leaves out are
      not written, and the update stamps `updated_at`. No transition is checked. */
  function Patch(w: WeldTouchup, p: PatchBody, now: int): (r: WeldTouchup)
    ensures r.status == p.status.GetOr(w.status)
    ensures r.notes == (if p.notes.Some? then p.notes else w.notes)
    ensures r.completedBy == p.completedBy.GetOr(w.completedBy)
    ensures r.updatedAt == now
    ensures r.(status := w.status, notes := w.notes, completedBy := w.completedBy,
               updatedAt := w.updatedAt) == w
  {
    w.(status := p.status.GetOr(w.status),
       notes := if p.notes.Some? then p.notes else w.notes,
       completedBy := p.completedBy.GetOr(w.completedBy),
       updatedAt := now)
  }

  /** What PATCH cannot break: it never writes the part number, the weld type or the reason. */
  predicate Described(w: WeldTouchup)
  {
    w.partNumber != "" && w.weldType != "" && w.reason != ""
  }

  lemma PatchKeepsDescribed(w: WeldTouchup, p: PatchBody, now: int)
    requires Described(w)
    ensures Described(Patch(w, p, now)) && Patch(w, p, now).id == w.id
  {
  }

  /** The update runs without the schema's validators, so an empty `completedBy` is written
      although the schema requires one: a stored weld can stop satisfying its own schema. */
  lemma PatchCanEmptyCompletedBy(w: WeldTouchup, now: int)
    requires WeldValid(w)
    ensures !WeldValid(Patch(w, PatchBody(None, None, Some("")), now))
  {
  }

  /** Any status can follow any other, e.g. "pending" straight to "completed", or back. */
  lemma AnyStatusAccepted(w: WeldTouchup, s: string, now: int)
    ensures Patch(w, PatchBody(Some(s), None, None), now).status == s
    ensures Patch(w, PatchBody(Some(s), None, None), now).(status := w.status, updatedAt := w.updatedAt) == w
  {
  }

  /** Sending the same PATCH again changes nothing but the update time. */
  lemma PatchIdempotent(w: WeldTouchup, p: PatchBody, t1: int, t2: int)
    ensures Patch(Patch(w, p, t1), p, t2) == Patch(w, p, t2)
  {
  }

  /** `w => Patch(w, p, now)`, the update `findByIdAndUpdate` applies. */
  function PatchWith(p: PatchBody, now: int): WeldTouchup -> WeldTouchup
  {
    (w: WeldTouchup) => Patch(w, p, now)
  }

  predicate Newer(a: WeldTouchup, b: WeldTouchup)
  {
    b.createdAt <= a.createdAt
  }

  /** GET /welds: `sort({ created_at: -1 })`. */
  function List(welds: seq<WeldTouchup>): seq<WeldTouchup>
  {
    Sort(welds, Newer)
  }

  /** The list holds every stored weld once per copy, newest first. */
  lemma ListNewestFirst(welds: seq<WeldTouchup>)
    ensures multiset(List(welds)) == multiset(welds)
    ensures forall i, j :: 0 <= i < j < |List(welds)| ==> List(welds)[j].createdAt <= List(welds)[i].createdAt
  {
    assert TotalPreorder(Newer);
    SortSorted(welds, Newer);
  }

  function WeldId(w: WeldTouchup): Id { w.id }
}

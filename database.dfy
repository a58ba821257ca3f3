/** The backend's collections and the route handlers that write to them
    (the files under backend/src/routes). Each handler is a method of `Database` whose new state is
    stated through the route functions of its module; `Valid` is what the schemas and the
    unique indexes keep true of the store. The authenticated caller (`req.user`) is a
    parameter, and the admin gate answers `Forbidden` before a handler runs. */
module Store {
  import opened Common
  import opened Records
  import opened Collections
  import TM = ToolMoveRoutes
  import WR = WeldRoutes
  import NR = NotificationRoutes
  import LR = LocationRoutes
  import UR = UserRoutes
  import RR = ReasonRoutes

  /** The 204 answer. */
  datatype NoContent = NoContent

  /** Every collection at one moment, and the counter fresh ids are minted from. */
  datatype Snapshot = Snapshot(
    reasons: seq<Reason>,
    departments: seq<Department>,
    lines: seq<Line>,
    stations: seq<Station>,
    users: seq<User>,
    moves: seq<ToolMove>,
    welds: seq<WeldTouchup>,
    notifications: seq<Notification>,
    nextId: nat)

  ghost predicate Consistent(s: Snapshot)
  {
    && Keyed(s.reasons, RR.ReasonId, s.nextId)
    && Keyed(s.departments, LR.DepartmentId, s.nextId)
    && Keyed(s.lines, LR.LineId, s.nextId)
    && Keyed(s.stations, LR.StationId, s.nextId)
    && Keyed(s.users, UR.UserId, s.nextId)
    && Keyed(s.moves, TM.MoveId, s.nextId)
    && Keyed(s.welds, WR.WeldId, s.nextId)
    && Keyed(s.notifications, NR.NotificationId, s.nextId)
    && RR.NamesDistinct(s.reasons)
    && LR.NamesDistinct(s.departments)
    && UR.EmailsDistinct(s.users)
    && (forall u :: u in s.users ==> UserValid(u))
    && (forall m :: m in s.moves ==> ToolMoveValid(m))
    && (forall w :: w in s.welds ==> WR.Described(w))
    && (forall n :: n in s.notifications ==> NotificationValid(n))
  }

  /** Minting ids moves the bound on without breaking anything. */
  lemma ConsistentGrow(s: Snapshot, n: nat)
    requires Consistent(s) && s.nextId <= n
    ensures Consistent(s.(nextId := n))
  {
    KeyedGrow(s.reasons, RR.ReasonId, s.nextId, n);
    KeyedGrow(s.departments, LR.DepartmentId, s.nextId, n);
    KeyedGrow(s.lines, LR.LineId, s.nextId, n);
    KeyedGrow(s.stations, LR.StationId, s.nextId, n);
    KeyedGrow(s.users, UR.UserId, s.nextId, n);
    KeyedGrow(s.moves, TM.MoveId, s.nextId, n);
    KeyedGrow(s.welds, WR.WeldId, s.nextId, n);
    KeyedGrow(s.notifications, NR.NotificationId, s.nextId, n);
  }

  /** The members of a filtered collection are members of the original. */
  lemma SubsequenceAll<T>(r: seq<T>, s: seq<T>, p: T -> bool)
    requires Subsequence(r, s)
    requires forall x :: x in s ==> p(x)
    ensures forall x :: x in r ==> p(x)
  {
    forall x | x in r ensures p(x) {
      SubsequenceMember(r, s, x);
    }
  }

  class Database {
    var reasons: seq<Reason>
    var departments: seq<Department>
    var lines: seq<Line>
    var stations: seq<Station>
    var users: seq<User>
    var moves: seq<ToolMove>
    var welds: seq<WeldTouchup>
    var notifications: seq<Notification>
    var nextId: nat

    function State(): Snapshot
      reads this
    {
      Snapshot(reasons, departments, lines, stations, users, moves, welds, notifications, nextId)
    }

    ghost predicate Valid()
      reads this
    {
      Consistent(State())
    }

    constructor ()
      ensures Valid()
      ensures State() == Snapshot([], [], [], [], [], [], [], [], 0)
    {
      reasons, departments, lines, stations := [], [], [], [];
      users, moves, welds, notifications := [], [], [], [];
      nextId := 0;
    }

    // -------------------------------------------------------------------------------------
    // Tool moves (backend/src/routes/toolMoves.js)

    /** POST /tool-moves: the new move is appended, or nothing is stored. */
    method CreateToolMove(caller: User, b: TM.CreateBody, now: int) returns (r: Result<ToolMove>)
      requires Valid() && caller in users
      modifies this
      ensures Valid()
      ensures r == TM.Create(old(reasons), b, caller.email, IdOf(old(nextId)), now)
      ensures r.Ok? ==> State() == old(State()).(moves := old(moves) + [r.value], nextId := old(nextId) + 1)
      ensures r.Err? ==> State() == old(State())
    {
      assert UserValid(caller);
      ReasonIdsPresent(State());
      r := TM.Create(reasons, b, caller.email, IdOf(nextId), now);
      if r.Ok? {
        var after := State().(moves := moves + [r.value], nextId := nextId + 1);
        MoveStep(State(), r.value);
        moves, nextId := after.moves, after.nextId;
        assert State() == after;
      }
    }

    /** PATCH /tool-moves/:id: the three weld fields of the move with that id, open to every
        authenticated user; the answer is the updated move, or null for an unknown id. */
    method PatchToolMove(id: Id, p: TM.PatchBody, now: int) returns (r: Option<ToolMove>)
      requires Valid()
      modifies this
      ensures Valid()
      ensures State() == old(State()).(moves := UpdateBy(old(moves), TM.MoveId, id, TM.PatchWith(p, now)))
      ensures r.Some? <==> HasKey(old(moves), TM.MoveId, id)
      ensures r.Some? ==> r.value == TM.Patch(FindBy(old(moves), TM.MoveId, id).value, p, now)
    {
      var f := TM.PatchWith(p, now);
      assert forall x :: TM.MoveId(f(x)) == TM.MoveId(x);
      KeyedUpdate(moves, TM.MoveId, nextId, id, f);
      FindUpdated(moves, TM.MoveId, id, f);
      forall m | m in UpdateBy(moves, TM.MoveId, id, f) ensures ToolMoveValid(m) {
        var k :| 0 <= k < |moves| && UpdateBy(moves, TM.MoveId, id, f)[k] == m;
        assert moves[k] in moves;
        TM.PatchKeepsValid(moves[k], p, now);
      }
      moves := UpdateBy(moves, TM.MoveId, id, f);
      r := FindBy(moves, TM.MoveId, id);
    }

    /** DELETE /tool-moves/:id, admin only: the move with that id goes, nothing else. */
    method DeleteToolMove(caller: User, id: Id) returns (r: Result<NoContent>)
      requires Valid()
      modifies this
      ensures Valid()
      ensures !caller.isAdmin ==> r == Err(Forbidden) && State() == old(State())
      ensures caller.isAdmin ==>
                && r == Ok(NoContent)
                && State() == old(State()).(moves := RemoveBy(old(moves), TM.MoveId, id))
    {
      if !caller.isAdmin {
        return Err(Forbidden);
      }
      var rest := RemoveBy(moves, TM.MoveId, id);
      KeyedSubsequence(rest, moves, TM.MoveId, nextId);
      SubsequenceAll(rest, moves, ToolMoveValid);
      moves := rest;
      r := Ok(NoContent);
    }

    method CreateWeld(caller: User, b: WR.CreateBody, now: int) returns (r: Result<WeldTouchup>)
      requires Valid() && caller in users
      modifies this
      ensures Valid()
      ensures r == WR.Create(b, caller.email, IdOf(old(nextId)), now)
      ensures r.Ok? ==> State() == old(State()).(
                          welds := old(welds) + [r.value],
                          notifications := old(notifications)
                                           + WR.FanOut(old(users), WR.Message(b), old(nextId) + 1, now),
                          nextId := old(nextId) + 1 + |old(users)|)
      ensures r.Err? ==> State() == old(State())
    {
      assert UserValid(caller);
      r := WR.Create(b, caller.email, IdOf(nextId), now);
      if r.Err? {
        return;
      }
      var msg := WR.Message(b);
      assert |msg| >= |"Weld touch up requested: "|;
      var batch := Notifications(users, msg, nextId + 1, now);
      var s := State();
      var after := s.(welds := s.welds + [r.value],
                      notifications := s.notifications + WR.FanOut(s.users, msg, s.nextId + 1, now),
                      nextId := s.nextId + 1 + |s.users|);
      WeldStep(s, r.value, msg, now);
      welds, notifications, nextId := after.welds, after.notifications, after.nextId;
      assert State() == after;
    }

    /** PATCH /welds/:id: status, notes and completedBy of the weld with that id, whatever
        its status was; the answer is the updated weld, or null. */
    method PatchWeld(id: Id, p: WR.PatchBody, now: int) returns (r: Option<WeldTouchup>)
      requires Valid()
      modifies this
      ensures Valid()
      ensures State() == old(State()).(welds := UpdateBy(old(welds), WR.WeldId, id, WR.PatchWith(p, now)))
      ensures r.Some? <==> HasKey(old(welds), WR.WeldId, id)
      ensures r.Some? ==> r.value == WR.Patch(FindBy(old(welds), WR.WeldId, id).value, p, now)
    {
      var f := WR.PatchWith(p, now);
      assert forall x :: WR.WeldId(f(x)) == WR.WeldId(x);
      KeyedUpdate(welds, WR.WeldId, nextId, id, f);
      FindUpdated(welds, WR.WeldId, id, f);
      forall w | w in UpdateBy(welds, WR.WeldId, id, f) ensures WR.Described(w) {
        var k :| 0 <= k < |welds| && UpdateBy(welds, WR.WeldId, id, f)[k] == w;
        assert welds[k] in welds;
        WR.PatchKeepsDescribed(welds[k], p, now);
      }
      welds := UpdateBy(welds, WR.WeldId, id, f);
      r := FindBy(welds, WR.WeldId, id);
    }

    /** DELETE /welds/:id, open to every authenticated user. */
    method DeleteWeld(id: Id)
      requires Valid()
      modifies this
      ensures Valid()
      ensures State() == old(State()).(welds := RemoveBy(old(welds), WR.WeldId, id))
    {
      var rest := RemoveBy(welds, WR.WeldId, id);
      KeyedSubsequence(rest, welds, WR.WeldId, nextId);
      SubsequenceAll(rest, welds, WR.Described);
      welds := rest;
    }

    // -------------------------------------------------------------------------------------
    // Notifications (backend/src/routes/notifications.js)

    /** POST /notifications/:id/read: only the caller's notification with that id is marked;
        the answer is 204 whether or not one matched. */
    method MarkRead(caller: User, id: Id, now: int) returns (r: NoContent)
      requires Valid()
      modifies this
      ensures Valid()
      ensures State() == old(State()).(notifications := NR.MarkRead(old(notifications), id, caller.id, now))
    {
      var after := NR.MarkRead(notifications, id, caller.id, now);
      assert forall k :: 0 <= k < |after| ==> after[k].id == notifications[k].id;
      forall n | n in after ensures NotificationValid(n) {
        var k :| 0 <= k < |after| && after[k] == n;
        assert notifications[k] in notifications;
      }
      notifications := after;
      r := NoContent;
    }

    // -------------------------------------------------------------------------------------
    // Locations (backend/src/routes/locations.js), admin only

    method CreateDepartment(caller: User, b: LR.CreateBody, now: int) returns (r: Result<Department>)
      requires Valid()
      modifies this
      ensures Valid()
      ensures !caller.isAdmin ==> r == Err(Forbidden) && State() == old(State())
      ensures caller.isAdmin ==> r == LR.CreateDepartment(old(departments), b, IdOf(old(nextId)), now)
      ensures caller.isAdmin && r.Ok? ==>
                State() == old(State()).(departments := old(departments) + [r.value], nextId := old(nextId) + 1)
      ensures r.Err? ==> State() == old(State())
    {
      if !caller.isAdmin {
        return Err(Forbidden);
      }
      r := LR.CreateDepartment(departments, b, IdOf(nextId), now);
      if r.Ok? {
        KeyedAppend(departments, LR.DepartmentId, nextId, r.value);
        LR.CreateKeepsNamesDistinct(departments, b, IdOf(nextId), now);
        ConsistentGrow(State(), nextId + 1);
        departments := departments + [r.value];
        nextId := nextId + 1;
      }
    }

    method CreateLine(caller: User, b: LR.CreateBody, now: int) returns (r: Result<Line>)
      requires Valid()
      modifies this
      ensures Valid()
      ensures !caller.isAdmin ==> r == Err(Forbidden) && State() == old(State())
      ensures caller.isAdmin ==> r == LR.CreateLine(b, IdOf(old(nextId)), now)
      ensures caller.isAdmin && r.Ok? ==>
                State() == old(State()).(lines := old(lines) + [r.value], nextId := old(nextId) + 1)
      ensures r.Err? ==> State() == old(State())
    {
      if !caller.isAdmin {
        return Err(Forbidden);
      }
      r := LR.CreateLine(b, IdOf(nextId), now);
      if r.Ok? {
        KeyedAppend(lines, LR.LineId, nextId, r.value);
        ConsistentGrow(State(), nextId + 1);
        lines := lines + [r.value];
        nextId := nextId + 1;
      }
    }

    method CreateStation(caller: User, b: LR.CreateBody, now: int) returns (r: Result<Station>)
      requires Valid()
      modifies this
      ensures Valid()
      ensures !caller.isAdmin ==> r == Err(Forbidden) && State() == old(State())
      ensures caller.isAdmin ==> r == LR.CreateStation(b, IdOf(old(nextId)), now)
      ensures caller.isAdmin && r.Ok? ==>
                State() == old(State()).(stations := old(stations) + [r.value], nextId := old(nextId) + 1)
      ensures r.Err? ==> State() == old(State())
    {
      if !caller.isAdmin {
        return Err(Forbidden);
      }
      r := LR.CreateStation(b, IdOf(nextId), now);
      if r.Ok? {
        KeyedAppend(stations, LR.StationId, nextId, r.value);
        ConsistentGrow(State(), nextId + 1);
        stations := stations + [r.value];
        nextId := nextId + 1;
      }
    }

    /** DELETE /locations/departments/:id, with the station cascade as written. */
    method DeleteDepartment(caller: User, id: Id) returns (r: Result<NoContent>)
      requires Valid()
      modifies this
      ensures Valid()
      ensures !caller.isAdmin ==> r == Err(Forbidden) && State() == old(State())
      ensures caller.isAdmin ==>
                var a := LR.DeleteDepartment(LR.Sites(old(departments), old(lines), old(stations)), id);
                && r == Ok(NoContent)
                && State() == old(State()).(departments := a.departments, lines := a.lines, stations := a.stations)
    {
      if !caller.isAdmin {
        return Err(Forbidden);
      }
      var a := LR.DeleteDepartment(LR.Sites(departments, lines, stations), id);
      KeyedSubsequence(a.departments, departments, LR.DepartmentId, nextId);
      DistinctSubsequence(a.departments, departments, LR.DepartmentName);
      KeyedSubsequence(a.lines, lines, LR.LineId, nextId);
      KeyedSubsequence(a.stations, stations, LR.StationId, nextId);
      departments := a.departments;
      lines := a.lines;
      stations := a.stations;
      r := Ok(NoContent);
    }

    /** DELETE /locations/lines/:id: the line and its stations. */
    method DeleteLine(caller: User, id: Id) returns (r: Result<NoContent>)
      requires Valid()
      modifies this
      ensures Valid()
      ensures !caller.isAdmin ==> r == Err(Forbidden) && State() == old(State())
      ensures caller.isAdmin ==>
                var a := LR.DeleteLine(LR.Sites(old(departments), old(lines), old(stations)), id);
                && r == Ok(NoContent)
                && State() == old(State()).(lines := a.lines, stations := a.stations)
    {
      if !caller.isAdmin {
        return Err(Forbidden);
      }
      var a := LR.DeleteLine(LR.Sites(departments, lines, stations), id);
      KeyedSubsequence(a.lines, lines, LR.LineId, nextId);
      KeyedSubsequence(a.stations, stations, LR.StationId, nextId);
      lines := a.lines;
      stations := a.stations;
      r := Ok(NoContent);
    }

    method DeleteStation(caller: User, id: Id) returns (r: Result<NoContent>)
      requires Valid()
      modifies this
      ensures Valid()
      ensures !caller.isAdmin ==> r == Err(Forbidden) && State() == old(State())
      ensures caller.isAdmin ==>
                && r == Ok(NoContent)
                && State() == old(State()).(stations := RemoveBy(old(stations), LR.StationId, id))
    {
      if !caller.isAdmin {
        return Err(Forbidden);
      }
      var rest := RemoveBy(stations, LR.StationId, id);
      KeyedSubsequence(rest, stations, LR.StationId, nextId);
      stations := rest;
      r := Ok(NoContent);
    }

    // -------------------------------------------------------------------------------------
    // Users (backend/src/routes/users.js), admin only. `hash` is what hashing the body's
    // password yields.

    /** POST /users: the new user is appended and answered without its hash. */
    method CreateUser(caller: User, b: UR.CreateBody, hash: string, now: int) returns (r: Result<UR.Created>)
      requires Valid() && hash != ""
      modifies this
      ensures Valid()
      ensures !caller.isAdmin ==> r == Err(Forbidden) && State() == old(State())
      ensures caller.isAdmin ==>
                var c := UR.Create(old(users), b, hash, IdOf(old(nextId)), now);
                && (c.Ok? ==> && r == Ok(UR.CreatedResponse(c.value))
                              && State() == old(State()).(users := old(users) + [c.value], nextId := old(nextId) + 1))
                && (c.Err? ==> r == Err(c.error) && State() == old(State()))
    {
      if !caller.isAdmin {
        return Err(Forbidden);
      }
      var c := UR.Create(users, b, hash, IdOf(nextId), now);
      if c.Err? {
        return Err(c.error);
      }
      KeyedAppend(users, UR.UserId, nextId, c.value);
      UR.CreateKeepsEmailsDistinct(users, b, hash, IdOf(nextId), now);
      ConsistentGrow(State(), nextId + 1);
      users := users + [c.value];
      nextId := nextId + 1;
      r := Ok(UR.CreatedResponse(c.value));
    }

    /** PATCH /users/:id: the partial update of that user, answered without its hash; 404
        for an unknown id. */
    method PatchUser(caller: User, id: Id, p: UR.PatchBody, hash: string, now: int) returns (r: Result<UR.UserView>)
      requires Valid() && hash != ""
      modifies this
      ensures Valid()
      ensures !caller.isAdmin ==> r == Err(Forbidden) && State() == old(State())
      ensures caller.isAdmin ==>
                var c := UR.Patch(old(users), id, p, hash, now);
                && (c.Ok? ==> && r == Ok(UR.View(c.value))
                              && State() == old(State()).(users := UpdateBy(old(users), UR.UserId, id, UR.PatchWith(p, hash, now))))
                && (c.Err? ==> r == Err(c.error) && State() == old(State()))
    {
      if !caller.isAdmin {
        return Err(Forbidden);
      }
      var c := UR.Patch(users, id, p, hash, now);
      if c.Err? {
        return Err(c.error);
      }
      var after := State().(users := UpdateBy(users, UR.UserId, id, UR.PatchWith(p, hash, now)));
      UserPatchStep(State(), id, p, hash, now);
      users := after.users;
      assert State() == after;
      r := Ok(UR.View(c.value));
    }

    method DeleteUser(caller: User, id: Id) returns (r: Result<NoContent>)
      requires Valid()
      modifies this
      ensures Valid()
      ensures !caller.isAdmin ==> r == Err(Forbidden) && State() == old(State())
      ensures caller.isAdmin ==>
                && r == Ok(NoContent)
                && State() == old(State()).(users := RemoveBy(old(users), UR.UserId, id))
    {
      if !caller.isAdmin {
        return Err(Forbidden);
      }
      var rest := RemoveBy(users, UR.UserId, id);
      KeyedSubsequence(rest, users, UR.UserId, nextId);
      DistinctSubsequence(rest, users, UR.UserEmail);
      SubsequenceAll(rest, users, UserValid);
      users := rest;
      r := Ok(NoContent);
    }

    // -------------------------------------------------------------------------------------
    // Reasons (backend/src/routes/reasons.js); create and delete are admin only

    method CreateReason(caller: User, b: RR.CreateBody, now: int) returns (r: Result<Reason>)
      requires Valid()
      modifies this
      ensures Valid()
      ensures !caller.isAdmin ==> r == Err(Forbidden) && State() == old(State())
      ensures caller.isAdmin ==> r == RR.Create(old(reasons), b, IdOf(old(nextId)), now)
      ensures caller.isAdmin && r.Ok? ==>
                State() == old(State()).(reasons := old(reasons) + [r.value], nextId := old(nextId) + 1)
      ensures r.Err? ==> State() == old(State())
    {
      if !caller.isAdmin {
        return Err(Forbidden);
      }
      r := RR.Create(reasons, b, IdOf(nextId), now);
      if r.Ok? {
        KeyedAppend(reasons, RR.ReasonId, nextId, r.value);
        RR.CreateKeepsNamesDistinct(reasons, b, IdOf(nextId), now);
        ConsistentGrow(State(), nextId + 1);
        reasons := reasons + [r.value];
        nextId := nextId + 1;
      }
    }

    method DeleteReason(caller: User, id: Id) returns (r: Result<NoContent>)
      requires Valid()
      modifies this
      ensures Valid()
      ensures !caller.isAdmin ==> r == Err(Forbidden) && State() == old(State())
      ensures caller.isAdmin ==>
                && r == Ok(NoContent)
                && State() == old(State()).(reasons := RemoveBy(old(reasons), RR.ReasonId, id))
    {
      if !caller.isAdmin {
        return Err(Forbidden);
      }
      var rest := RemoveBy(reasons, RR.ReasonId, id);
      KeyedSubsequence(rest, reasons, RR.ReasonId, nextId);
      DistinctSubsequence(rest, reasons, RR.ReasonName);
      reasons := rest;
      r := Ok(NoContent);
    }
  }

  /** The batch `users.map(u => ({ user: u._id, message }))` hands to `insertMany`, built one
      user at a time, with ids minted from `first` on. */
  method Notifications(users: seq<User>, msg: string, first: nat, now: int) returns (batch: seq<Notification>)
    ensures batch == WR.FanOut(users, msg, first, now)
  {
    batch := [];
    var i := 0;
    while i < |users|
      invariant 0 <= i <= |users|
      invariant batch == WR.FanOut(users[..i], msg, first, now)
    {
      batch := batch + [Notification(IdOf(first + i), users[i].id, msg, false, now, now)];
      i := i + 1;
    }
    assert users[..i] == users;
  }

  /** Every stored reason has an id. */
  lemma ReasonIdsPresent(s: Snapshot)
    requires Consistent(s)
    ensures forall i :: 0 <= i < |s.reasons| ==> s.reasons[i].id != ""
  {
    forall i | 0 <= i < |s.reasons| ensures s.reasons[i].id != "" {
      assert 0 < |RR.ReasonId(s.reasons[i])|;
    }
  }

  /** Storing a new tool move keeps the store consistent. */
  lemma MoveStep(s: Snapshot, m: ToolMove)
    requires Consistent(s)
    requires ToolMoveValid(m) && m.id == IdOf(s.nextId)
    ensures Consistent(s.(moves := s.moves + [m], nextId := s.nextId + 1))
  {
    KeyedAppend(s.moves, TM.MoveId, s.nextId, m);
    ConsistentGrow(s, s.nextId + 1);
  }

  /** Storing a new weld and its notifications keeps the store consistent. */
  lemma WeldStep(s: Snapshot, w: WeldTouchup, msg: string, now: int)
    requires Consistent(s)
    requires WeldValid(w) && w.id == IdOf(s.nextId) && msg != ""
    ensures Consistent(s.(welds := s.welds + [w],
                          notifications := s.notifications + WR.FanOut(s.users, msg, s.nextId + 1, now),
                          nextId := s.nextId + 1 + |s.users|))
  {
    var n := s.nextId + 1 + |s.users|;
    var batch := WR.FanOut(s.users, msg, s.nextId + 1, now);
    assert forall i :: 0 <= i < |s.users| ==> s.users[i].id != "" by {
      forall i | 0 <= i < |s.users| ensures s.users[i].id != "" {
        assert 0 < |UR.UserId(s.users[i])|;
      }
    }
    KeyedAppend(s.welds, WR.WeldId, s.nextId, w);
    KeyedGrow(s.welds + [w], WR.WeldId, s.nextId + 1, n);
    FanOutFresh(s.users, msg, s.nextId + 1, now);
    KeyedExtend(s.notifications, batch, NR.NotificationId, s.nextId, n);
    ConsistentGrow(s, n);
  }

  /** A successful user PATCH keeps the store consistent. */
  lemma UserPatchStep(s: Snapshot, id: Id, p: UR.PatchBody, hash: string, now: int)
    requires Consistent(s) && hash != ""
    requires UR.Patch(s.users, id, p, hash, now).Ok?
    ensures Consistent(s.(users := UpdateBy(s.users, UR.UserId, id, UR.PatchWith(p, hash, now))))
  {
    var f := UR.PatchWith(p, hash, now);
    var after := UpdateBy(s.users, UR.UserId, id, f);
    assert forall x :: UR.UserId(f(x)) == UR.UserId(x);
    KeyedUpdate(s.users, UR.UserId, s.nextId, id, f);
    UR.PatchKeepsEmailsDistinct(s.users, s.nextId, id, p, hash, now);
    forall u | u in after ensures UserValid(u) {
      var k :| 0 <= k < |after| && after[k] == u;
      assert s.users[k] in s.users;
      UR.ApplyPatchKeepsValid(s.users[k], p, hash, now);
    }
  }

  /** The fan-out's ids are distinct and all longer than the bound they start above; its
      documents are valid when the users' ids are. */
  lemma FanOutFresh(users: seq<User>, msg: string, first: nat, now: int)
    requires msg != ""
    requires forall i :: 0 <= i < |users| ==> users[i].id != ""
    ensures var t := WR.FanOut(users, msg, first, now);
            && DistinctBy(t, NR.NotificationId)
            && (forall i :: 0 <= i < |t| ==> first < |NR.NotificationId(t[i])| <= first + |users|)
            && (forall n :: n in t ==> NotificationValid(n))
  {
  }
}

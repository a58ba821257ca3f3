/** The user routes (backend/src/routes/users.js), all behind the admin gate: the list
    without password hashes, lookup by id, create with the duplicate-email check, the partial
    PATCH and delete. Hashing is a foreign call: its result is a parameter. */
module UserRoutes {
  import opened Common
  import opened Records
  import opened Collections
  import opened Sorting

  /** A user as `.select("-passwordHash")` returns it. */
  datatype UserView = UserView(
    id: Id, email: string, fullName: Option<string>, department: Option<string>,
    isAdmin: bool, createdAt: int, updatedAt: int)

  function View(u: User): (v: UserView)
    ensures v.id == u.id && v.email == u.email && v.isAdmin == u.isAdmin
    ensures v.fullName == u.fullName && v.department == u.department
  {
    UserView(u.id, u.email, u.fullName, u.department, u.isAdmin, u.createdAt, u.updatedAt)
  }

  function UserId(u: User): Id { u.id }

  /** Emails are unique in the store (the unique index on `email`). */
  function UserEmail(u: User): string { u.email }

  ghost predicate EmailsDistinct(users: seq<User>)
  {
    DistinctBy(users, UserEmail)
  }

  predicate NewerUser(a: User, b: User)
  {
    b.createdAt <= a.createdAt
  }

  lemma NewerUserTotal()
    ensures TotalPreorder(NewerUser)
  {
  }

  /** GET /users: every user, newest first, without hashes. */
  function List(users: seq<User>): seq<UserView>
  {
    var sorted := Sort(users, NewerUser);
    seq(|sorted|, i requires 0 <= i < |sorted| => View(sorted[i]))
  }

  /** The list has one view per stored user and is newest first. */
  lemma ListProperties(users: seq<User>)
    ensures |List(users)| == |users|
    ensures forall i, j :: 0 <= i < j < |List(users)| ==> List(users)[j].createdAt <= List(users)[i].createdAt
    ensures forall u :: u in users ==> View(u) in List(users)
    ensures forall v :: v in List(users) ==> exists u :: u in users && View(u) == v
  {
    var sorted := Sort(users, NewerUser);
    NewerUserTotal();
    SortSorted(users, NewerUser);
    forall u | u in users ensures View(u) in List(users) {
      SortMembers(users, NewerUser, u);
      var k :| 0 <= k < |sorted| && sorted[k] == u;
      assert List(users)[k] == View(u);
    }
    forall v | v in List(users) ensures exists u :: u in users && View(u) == v {
      var k :| 0 <= k < |List(users)| && List(users)[k] == v;
      SortMembers(users, NewerUser, sorted[k]);
    }
  }

  /** GET /users/:id */
  function Get(users: seq<User>, id: Id): (r: Result<UserView>)
    ensures r.Err? <==> !HasKey(users, UserId, id)
    ensures r.Err? ==> r.error == NotFound("User not found")
    ensures r.Ok? ==> exists u :: u in users && u.id == id && r.value == View(u)
  {
    match FindBy(users, UserId, id)
    case None => Err(NotFound("User not found"))
    case Some(u) => Ok(View(u))
  }

  /** The POST body. */
  datatype CreateBody = CreateBody(
    email: Option<string>, password: Option<string>, fullName: Option<string>,
    department: Option<string>, isAdmin: Json)

  /** `User.findOne({ email })` finds someone; the schema lower-cases the queried email. An
      absent email is matched by nobody, as every stored user has one. */
  predicate EmailTaken(users: seq<User>, email: Option<string>)
  {
    email.Some? && exists i :: 0 <= i < |users| && users[i].email == Lower(email.value)
  }

  /** POST /users: 400 when the email is taken; hashing an absent password throws; otherwise
      the schema's checks decide. `hash` is what hashing the password yields. */
  function Create(users: seq<User>, b: CreateBody, hash: string, id: Id, now: int): (r: Result<User>)
    requires hash != ""
    ensures EmailTaken(users, b.email) ==> r == Err(BadRequest("User already exists"))
    ensures !EmailTaken(users, b.email) && b.password.None? ==> r.Err? && r.error.ServerError?
    ensures r.Ok? <==> !EmailTaken(users, b.email) && b.password.Some? && Present(b.email)
    ensures r.Ok? ==> && UserValid(r.value) && r.value.id == id
                      && r.value.email == Lower(b.email.value) && r.value.passwordHash == hash
                      && r.value.fullName == b.fullName && r.value.department == b.department
                      && r.value.isAdmin == JsTruthy(b.isAdmin)
  {
    if EmailTaken(users, b.email) then Err(BadRequest("User already exists"))
    else if b.password.None? then Err(ServerError("password is not a string"))
    else NewUser(b.email, b.fullName, Some(hash), b.department, Some(JsTruthy(b.isAdmin)), id, now)
  }

  /** A successful create keeps emails unique. */
  lemma CreateKeepsEmailsDistinct(users: seq<User>, b: CreateBody, hash: string, id: Id, now: int)
    requires hash != "" && EmailsDistinct(users)
    requires Create(users, b, hash, id, now).Ok?
    ensures EmailsDistinct(users + [Create(users, b, hash, id, now).value])
  {
  }

  /** The 201 response: id, email, name and the admin flag, never the hash. */
  datatype Created = Created(id: Id, email: string, fullName: Option<string>, isAdmin: bool)

  function CreatedResponse(u: User): (c: Created)
    ensures c.id == u.id && c.email == u.email && c.fullName == u.fullName && c.isAdmin == u.isAdmin
  {
    Created(u.id, u.email, u.fullName, u.isAdmin)
  }

  /** The PATCH body. `fullName` and `department` distinguish undefined (None) from a value,
      which may be null (Some(None)). */
  datatype PatchBody = PatchBody(
    email: Option<string>, password: Option<string>,
    fullName: Option<Option<string>>, department: Option<Option<string>>, isAdmin: Json)

  /** The update object applied to a user: email when truthy (stored lower-case), isAdmin when
      a boolean, fullName and department when defined, the hash when the password is truthy. */
  function ApplyPatch(u: User, p: PatchBody, hash: string, now: int): (r: User)
    ensures r.email == (if Present(p.email) then Lower(p.email.value) else u.email)
    ensures r.isAdmin == (if p.isAdmin.Bool? then p.isAdmin.b else u.isAdmin)
    ensures r.fullName == p.fullName.GetOr(u.fullName)
    ensures r.department == p.department.GetOr(u.department)
    ensures r.passwordHash == (if Present(p.password) then hash else u.passwordHash)
    ensures r.id == u.id && r.createdAt == u.createdAt && r.updatedAt == now
  {
    u.(email := if Present(p.email) then Lower(p.email.value) else u.email,
       isAdmin := if p.isAdmin.Bool? then p.isAdmin.b else u.isAdmin,
       fullName := p.fullName.GetOr(u.fullName),
       department := p.department.GetOr(u.department),
       passwordHash := if Present(p.password) then hash else u.passwordHash,
       updatedAt := now)
  }

  /** A PATCH whose fields are all undefined or falsy (and not boolean) changes nothing but the
      update time. */
  lemma EmptyPatchChangesNothing(u: User, hash: string, now: int)
    ensures ApplyPatch(u, PatchBody(None, None, None, None, Undefined), hash, now) == u.(updatedAt := now)
  {
  }

  /** A patched valid user stays valid. */
  lemma ApplyPatchKeepsValid(u: User, p: PatchBody, hash: string, now: int)
    requires UserValid(u) && hash != ""
    ensures UserValid(ApplyPatch(u, p, hash, now))
  {
    LowerIdempotent(if Present(p.email) then p.email.value else u.email);
  }

  function PatchWith(p: PatchBody, hash: string, now: int): User -> User
  {
    (u: User) => ApplyPatch(u, p, hash, now)
  }

  /** Another user already holds the email the PATCH would write. */
  predicate EmailClash(users: seq<User>, id: Id, p: PatchBody)
  {
    Present(p.email) && exists i :: 0 <= i < |users| && users[i].id != id && users[i].email == Lower(p.email.value)
  }

  /** PATCH /users/:id: 404 for an unknown id, a unique-index failure when the new email is
      another user's, otherwise the patched user, whose view is the response. */
  function Patch(users: seq<User>, id: Id, p: PatchBody, hash: string, now: int): (r: Result<User>)
    ensures r.Err? <==> !HasKey(users, UserId, id) || EmailClash(users, id, p)
    ensures !HasKey(users, UserId, id) ==> r == Err(NotFound("User not found"))
    ensures r.Ok? ==> exists u :: u in users && u.id == id && r.value == ApplyPatch(u, p, hash, now)
  {
    match FindBy(users, UserId, id)
    case None => Err(NotFound("User not found"))
    case Some(u) => if EmailClash(users, id, p) then Err(Duplicate("email")) else Ok(ApplyPatch(u, p, hash, now))
  }

  /** A successful PATCH keeps emails unique across the updated store. */
  lemma PatchKeepsEmailsDistinct(users: seq<User>, bound: nat, id: Id, p: PatchBody, hash: string, now: int)
    requires EmailsDistinct(users) && Keyed(users, UserId, bound)
    requires Patch(users, id, p, hash, now).Ok?
    ensures EmailsDistinct(UpdateBy(users, UserId, id, PatchWith(p, hash, now)))
  {
    var after := UpdateBy(users, UserId, id, PatchWith(p, hash, now));
    forall i, j | 0 <= i < j < |after| ensures after[i].email != after[j].email {
      assert users[i].id != users[j].id;
    }
  }
}

/** The reason routes (backend/src/routes/reasons.js): the list ordered by name, create with
    the "active" default under the unique index on name, and delete. */
module ReasonRoutes {
  import opened Common
  import opened Records
  import opened Sorting
  import opened Collections

  predicate ByName(a: Reason, b: Reason)
  {
    StrLe(a.name, b.name)
  }

  lemma ByNameTotal()
    ensures TotalPreorder(ByName)
  {
    forall a: Reason, b: Reason ensures ByName(a, b) || ByName(b, a) {
      StrLeTotal(a.name, b.name);
    }
    forall a: Reason, b: Reason, c: Reason | ByName(a, b) && ByName(b, c) ensures ByName(a, c) {
      CompareTransitive(a.name, b.name, c.name);
    }
  }

  /** GET /reasons: `sort({ name: 1 })`. */
  function List(reasons: seq<Reason>): seq<Reason>
  {
    Sort(reasons, ByName)
  }

  /** The list holds the stored reasons, each as often as stored, in ascending name order. */
  lemma ListByName(reasons: seq<Reason>)
    ensures multiset(List(reasons)) == multiset(reasons)
    ensures forall i, j :: 0 <= i < j < |List(reasons)| ==> StrLe(List(reasons)[i].name, List(reasons)[j].name)
  {
    ByNameTotal();
    SortSorted(reasons, ByName);
  }

  datatype CreateBody = CreateBody(name: Option<string>, description: Option<string>, status: Option<string>)

  predicate NameTaken(reasons: seq<Reason>, name: string)
  {
    exists i :: 0 <= i < |reasons| && reasons[i].name == name
  }

  function ReasonName(r: Reason): string { r.name }

  /** Names are unique in the store. */
  ghost predicate NamesDistinct(reasons: seq<Reason>)
  {
    DistinctBy(reasons, ReasonName)
  }

  /** POST /reasons: the schema's required name, then the unique index on name. */
  function Create(reasons: seq<Reason>, b: CreateBody, id: Id, now: int): (r: Result<Reason>)
    ensures r.Ok? <==> Present(b.name) && !NameTaken(reasons, b.name.value)
    ensures !Present(b.name) ==> r == Err(Invalid("name"))
    ensures Present(b.name) && NameTaken(reasons, b.name.value) ==> r == Err(Duplicate("name"))
    ensures r.Ok? ==> && r.value.id == id && r.value.name == b.name.value
                      && r.value.description == b.description
                      && r.value.status == OrElse(b.status, "active")
                      && r.value.createdAt == now && r.value.updatedAt == now
  {
    var r := NewReason(b.name, b.description, Some(OrElse(b.status, "active")), id, now);
    if r.Ok? && NameTaken(reasons, r.value.name) then Err(Duplicate("name")) else r
  }

  /** A successful create keeps names unique. */
  lemma CreateKeepsNamesDistinct(reasons: seq<Reason>, b: CreateBody, id: Id, now: int)
    requires NamesDistinct(reasons)
    requires Create(reasons, b, id, now).Ok?
    ensures NamesDistinct(reasons + [Create(reasons, b, id, now).value])
  {
  }

  function ReasonId(r: Reason): Id { r.id }
}

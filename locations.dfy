/** The location routes (backend/src/routes/locations.js): the department → line → station
    tree GET answers with, what POST stores, and what each DELETE removes. */
module LocationRoutes {
  import opened Common
  import opened Records
  import opened Collections

  datatype LineNode = LineNode(line: Line, stations: seq<Station>)

  datatype DepartmentNode = DepartmentNode(department: Department, lines: seq<LineNode>)

  function DepartmentId(d: Department): Id { d.id }
  function LineId(l: Line): Id { l.id }
  function StationId(s: Station): Id { s.id }
  /** The field `Line.deleteMany({ department })` matches on. */
  function LineDepartment(l: Line): Id { l.department }
  /** The field `Station.deleteMany({ line })` matches on. */
  function StationLine(s: Station): Id { s.line }

  function LinesOf(lines: seq<Line>, department: Id): seq<Line>
  {
    Filter(lines, (l: Line) => l.department == department)
  }

  function StationsOf(stations: seq<Station>, line: Id): seq<Station>
  {
    Filter(stations, (s: Station) => s.line == line)
  }

  function LineNodes(lines: seq<Line>, stations: seq<Station>): seq<LineNode>
  {
    seq(|lines|, i requires 0 <= i < |lines| => LineNode(lines[i], StationsOf(stations, lines[i].id)))
  }

  /** GET /locations: one node per department in collection order, holding its lines, each
      holding its stations. */
  function Tree(departments: seq<Department>, lines: seq<Line>, stations: seq<Station>)
    : seq<DepartmentNode>
  {
    seq(|departments|, i requires 0 <= i < |departments| =>
      DepartmentNode(departments[i], LineNodes(LinesOf(lines, departments[i].id), stations)))
  }

  /** Each department holds exactly the lines that reference it, in collection order, and
      each line exactly the stations that reference it. */
  lemma TreeShape(departments: seq<Department>, lines: seq<Line>, stations: seq<Station>, i: nat)
    requires i < |departments|
    ensures var t := Tree(departments, lines, stations);
            && |t| == |departments| && t[i].department == departments[i]
            && (forall l :: (exists k :: 0 <= k < |t[i].lines| && t[i].lines[k].line == l)
                              <==> l in lines && l.department == departments[i].id)
            && (forall k :: 0 <= k < |t[i].lines| ==>
                  forall s :: (s in t[i].lines[k].stations
                               <==> s in stations && s.line == t[i].lines[k].line.id))
  {
    var t := Tree(departments, lines, stations);
    var mine := LinesOf(lines, departments[i].id);
    forall l ensures (exists k :: 0 <= k < |t[i].lines| && t[i].lines[k].line == l)
                       <==> l in lines && l.department == departments[i].id
    {
      FilterKeeps(lines, (l: Line) => l.department == departments[i].id, l);
      if l in mine {
        var k :| 0 <= k < |mine| && mine[k] == l;
        assert t[i].lines[k].line == l;
      }
    }
    forall k, s | 0 <= k < |t[i].lines|
      ensures s in t[i].lines[k].stations <==> s in stations && s.line == t[i].lines[k].line.id
    {
      FilterKeeps(stations, (x: Station) => x.line == mine[k].id, s);
    }
  }

  /** A line whose department is not stored appears nowhere in the tree. */
  lemma DanglingLineHidden(departments: seq<Department>, lines: seq<Line>, stations: seq<Station>, l: Line)
    requires forall d :: d in departments ==> d.id != l.department
    ensures forall i, k :: 0 <= i < |Tree(departments, lines, stations)|
                           && 0 <= k < |Tree(departments, lines, stations)[i].lines|
                           ==> Tree(departments, lines, stations)[i].lines[k].line != l
  {
    var t := Tree(departments, lines, stations);
    forall i, k | 0 <= i < |t| && 0 <= k < |t[i].lines| ensures t[i].lines[k].line != l {
      var mine := LinesOf(lines, departments[i].id);
      assert t[i].lines[k].line == mine[k];
      assert mine[k] in mine;
      FilterKeeps(lines, (x: Line) => x.department == departments[i].id, mine[k]);
    }
  }

  /** The body fields a create reads. */
  datatype CreateBody = CreateBody(
    name: Option<string>,
    description: Option<string>,
    status: Option<string>,
    parent: Option<Id>)          // `department` of a line, `line` of a station

  predicate NameTaken(departments: seq<Department>, name: string)
  {
    exists i :: 0 <= i < |departments| && departments[i].name == name
  }

  function DepartmentName(d: Department): string { d.name }

  /** Department names are unique in the store. */
  ghost predicate NamesDistinct(departments: seq<Department>)
  {
    DistinctBy(departments, DepartmentName)
  }

  /** POST /locations/departments: the schema's checks, then the unique index on name. */
  function CreateDepartment(departments: seq<Department>, b: CreateBody, id: Id, now: int)
    : (r: Result<Department>)
    ensures r.Ok? <==> Present(b.name) && !NameTaken(departments, b.name.value)
    ensures !Present(b.name) ==> r == Err(Invalid("name"))
    ensures r.Ok? ==> && r.value.id == id && r.value.name == b.name.value
                      && r.value.description == b.description
                      && r.value.status == OrElse(b.status, "active")
                      && r.value.createdAt == now
  {
    var r := NewDepartment(b.name, b.description, Some(OrElse(b.status, "active")), id, now);
    if r.Ok? && NameTaken(departments, r.value.name) then Err(Duplicate("name")) else r
  }

  /** A successful create keeps department names unique. */
  lemma CreateKeepsNamesDistinct(departments: seq<Department>, b: CreateBody, id: Id, now: int)
    requires NamesDistinct(departments)
    requires CreateDepartment(departments, b, id, now).Ok?
    ensures NamesDistinct(departments + [CreateDepartment(departments, b, id, now).value])
  {
  }

  /** POST /locations/lines. The department is not looked up. */
  function CreateLine(b: CreateBody, id: Id, now: int): (r: Result<Line>)
    ensures r.Ok? <==> Present(b.name) && Present(b.parent)
    ensures r.Ok? ==> && r.value.id == id && r.value.name == b.name.value
                      && r.value.department == b.parent.value
                      && r.value.status == OrElse(b.status, "active")
  {
    NewLine(b.name, b.description, Some(OrElse(b.status, "active")), b.parent, id, now)
  }

  /** POST /locations/stations. The line is not looked up. */
  function CreateStation(b: CreateBody, id: Id, now: int): (r: Result<Station>)
    ensures r.Ok? <==> Present(b.name) && Present(b.parent)
    ensures r.Ok? ==> && r.value.id == id && r.value.name == b.name.value
                      && r.value.line == b.parent.value
                      && r.value.status == OrElse(b.status, "active")
  {
    NewStation(b.name, b.description, Some(OrElse(b.status, "active")), b.parent, id, now)
  }

  datatype Sites = Sites(departments: seq<Department>, lines: seq<Line>, stations: seq<Station>)

  /** DELETE /locations/departments/:id as written: the department, the lines referencing it,
      and the stations whose `line` is the DEPARTMENT id. */
  function DeleteDepartment(s: Sites, id: Id): Sites
  {
    Sites(RemoveBy(s.departments, DepartmentId, id),
          RemoveBy(s.lines, LineDepartment, id),
          RemoveBy(s.stations, StationLine, id))
  }

  /** DELETE /locations/lines/:id: the line and the stations referencing it. */
  function DeleteLine(s: Sites, id: Id): Sites
  {
    Sites(s.departments, RemoveBy(s.lines, LineId, id), RemoveBy(s.stations, StationLine, id))
  }

  /** DELETE /locations/stations/:id */
  function DeleteStation(s: Sites, id: Id): Sites
  {
    Sites(s.departments, s.lines, RemoveBy(s.stations, StationId, id))
  }

  /** Deleting a line takes exactly that line and its stations. */
  lemma DeleteLineCascades(s: Sites, id: Id)
    ensures var a := DeleteLine(s, id);
            && a.departments == s.departments
            && (forall l :: l in a.lines <==> l in s.lines && l.id != id)
            && (forall x :: x in a.stations <==> x in s.stations && x.line != id)
  {
  }

  /** Deleting a department takes it and its lines, but not the stations of those lines:
      the station delete matches `line` against the department id, which is no line's id.
      A station of a deleted line stays stored with its line gone. */
  lemma DeleteDepartmentOrphans(s: Sites, id: Id, l: Line, x: Station)
    requires l in s.lines && l.department == id && l.id != id
    requires x in s.stations && x.line == l.id
    ensures var a := DeleteDepartment(s, id);
            && x in a.stations && l !in a.lines
            && (forall d :: d in a.departments <==> d in s.departments && d.id != id)
            && (forall k :: k in a.lines <==> k in s.lines && k.department != id)
            && (forall y :: y in a.stations <==> y in s.stations && y.line != id)
  {
  }
}

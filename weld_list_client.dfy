/** The weld screen of the current web client (frontend/src/components/WeldList.tsx) and the
    weld-request side panel of its dashboard (frontend/src/pages/ActivityPage.tsx). Both read
    the backend's JSON documents; the outstanding-obligation test there is JavaScript
    truthiness on the two flags, which on stored tool moves is exactly the backend's
    outstanding queue. */
module WeldListClient {
  import opened Common
  import opened Records
  import opened Collections
  import opened ActivityFeed
  import opened Obligations

  /** A reference field as the JSON shows it: absent or null, an unpopulated id, or a
      populated `{ _id, name }`. */
  datatype RefJson = NoRef | RawRef(id: string) | PopulatedRef(name: Option<string>)

  /** What `ref.name || ref` yields: a name, or the populated object itself when its name
      is missing or empty. */
  datatype RefLabel = Label(name: string) | WholeObject

  /** `ref ? { name: ref.name || ref } : undefined` */
  function NormaliseRef(r: RefJson): (l: Option<RefLabel>)
    ensures r.NoRef? ==> l == None
    ensures r.RawRef? ==> (l == None <==> r.id == "") && (r.id != "" ==> l == Some(Label(r.id)))
    ensures r.PopulatedRef? && Present(r.name) ==> l == Some(Label(r.name.value))
    ensures r.PopulatedRef? && !Present(r.name) ==> l == Some(WholeObject)
  {
    match r
    case NoRef => None
    case RawRef(id) => if id == "" then None else Some(Label(id))
    case PopulatedRef(name) => Some(if Present(name) then Label(name.value) else WholeObject)
  }

  /** A tool move as the JSON shows it. Dates are ISO strings, never empty, so `||` on them
      only asks whether they are there. */
  datatype MoveJson = MoveJson(
    mongoId: Option<string>, id: Option<string>,
    notes: Option<string>, weldTouchupNotes: Option<string>, movedBy: Option<string>,
    createdAtSnake: Option<int>, createdAtCamel: Option<int>,
    requiresWeldTouchup: Json, weldTouchupCompleted: Json,
    reason: RefJson, department: RefJson, line: RefJson, station: RefJson)

  /** The normalised move the screen keeps. */
  datatype PendingMove = PendingMove(
    id: Option<string>, notes: Option<string>, weldTouchupNotes: Option<string>,
    movedBy: Option<string>, createdAt: Option<int>,
    requiresWeldTouchup: Json, weldTouchupCompleted: Json,
    reason: Option<RefLabel>, department: Option<RefLabel>, line: Option<RefLabel>,
    station: Option<RefLabel>)

  /** `m.requiresWeldTouchup && !m.weldTouchupCompleted` */
  predicate RawOutstanding(m: MoveJson)
  {
    JsTruthy(m.requiresWeldTouchup) && !JsTruthy(m.weldTouchupCompleted)
  }

  function StampOf(snake: Option<int>, camel: Option<int>): (r: Option<int>)
    ensures snake.Some? ==> r == snake
    ensures snake.None? ==> r == camel
  {
    if snake.Some? then snake else camel
  }

  /** The id is `_id`, falling back to `id`; each reference is normalised. */
  function NormaliseMove(m: MoveJson): (p: PendingMove)
    ensures p.id == FirstPresent(m.mongoId, m.id)
    ensures p.createdAt == StampOf(m.createdAtSnake, m.createdAtCamel)
    ensures p.notes == m.notes && p.weldTouchupNotes == m.weldTouchupNotes && p.movedBy == m.movedBy
    ensures p.requiresWeldTouchup == m.requiresWeldTouchup && p.weldTouchupCompleted == m.weldTouchupCompleted
    ensures p.reason == NormaliseRef(m.reason) && p.department == NormaliseRef(m.department)
    ensures p.line == NormaliseRef(m.line) && p.station == NormaliseRef(m.station)
  {
    PendingMove(FirstPresent(m.mongoId, m.id), m.notes, m.weldTouchupNotes, m.movedBy,
                StampOf(m.createdAtSnake, m.createdAtCamel), m.requiresWeldTouchup,
                m.weldTouchupCompleted, NormaliseRef(m.reason), NormaliseRef(m.department),
                NormaliseRef(m.line), NormaliseRef(m.station))
  }

  /** The screen's outstanding list: filter, then normalise. */
  function PendingMoves(data: seq<MoveJson>): seq<PendingMove>
  {
    Map(Filter(data, RawOutstanding), NormaliseMove)
  }

  /** A normalised move is listed exactly when it comes from a fetched move that requires a
      touch-up not yet completed: completed moves and moves that never required one are left
      out. */
  lemma PendingMovesExactly(data: seq<MoveJson>, p: PendingMove)
    ensures p in PendingMoves(data) <==> exists m :: m in data && RawOutstanding(m) && NormaliseMove(m) == p
  {
    var kept := Filter(data, RawOutstanding);
    if p in PendingMoves(data) {
      var i :| 0 <= i < |kept| && PendingMoves(data)[i] == p;
      FilterKeeps(data, RawOutstanding, kept[i]);
    }
    if exists m :: m in data && RawOutstanding(m) && NormaliseMove(m) == p {
      var m :| m in data && RawOutstanding(m) && NormaliseMove(m) == p;
      FilterKeeps(data, RawOutstanding, m);
      var i :| 0 <= i < |kept| && kept[i] == m;
      assert PendingMoves(data)[i] == p;
    }
  }

  /** The outstanding list keeps the fetched order: it normalises, position by position, a
      subsequence of the fetched moves, one entry per outstanding move. */
  lemma PendingMovesOrder(data: seq<MoveJson>)
    ensures var kept := Filter(data, RawOutstanding);
            && Subsequence(kept, data)
            && |PendingMoves(data)| == CountWhere(data, RawOutstanding)
            && forall i :: 0 <= i < |kept| ==> PendingMoves(data)[i] == NormaliseMove(kept[i])
  {
    FilterIsSubsequence(data, RawOutstanding);
  }

  /** A weld as the JSON shows it. */
  datatype WeldJson = WeldJson(
    mongoId: Option<string>, id: Option<string>, partNumber: string, weldType: string,
    reason: string, completedBy: string, status: string,
    createdAtSnake: Option<int>, createdAtCamel: Option<int>)

  datatype WeldEntry = WeldEntry(
    id: Option<string>, partNumber: string, weldType: string, reason: string,
    completedBy: string, status: string, createdAt: Option<int>)

  function NormaliseWeld(w: WeldJson): (e: WeldEntry)
    ensures e.id == FirstPresent(w.mongoId, w.id)
    ensures e.createdAt == StampOf(w.createdAtSnake, w.createdAtCamel)
    ensures e.partNumber == w.partNumber && e.weldType == w.weldType && e.reason == w.reason
    ensures e.completedBy == w.completedBy && e.status == w.status
  {
    WeldEntry(FirstPresent(w.mongoId, w.id), w.partNumber, w.weldType, w.reason, w.completedBy,
              w.status, StampOf(w.createdAtSnake, w.createdAtCamel))
  }

  // ---------------------------------------------------------------------------------------
  // Agreement with the stored documents

  /** How a populated reference is serialised: the name when the referenced document exists,
      null otherwise. */
  function RefOf(ref: Option<Id>, names: map<Id, string>): (r: RefJson)
    ensures r.PopulatedRef? <==> ref.Some? && ref.value in names
    ensures r.PopulatedRef? ==> r.name == Some(names[ref.value])
    ensures !r.RawRef?
  {
    match Resolve(ref, names)
    case Some(n) => PopulatedRef(Some(n))
    case None => NoRef
  }

  /** The JSON of a stored tool move as the list route sends it. */
  function MoveJsonOf(dir: Directory): ToolMove -> MoveJson
  {
    (m: ToolMove) => MoveJson(
      Some(m.id), None, m.notes, m.weldTouchupNotes, Some(m.movedBy), Some(m.createdAt), None,
      Bool(m.requiresWeldTouchup), Bool(m.weldTouchupCompleted),
      RefOf(Some(m.reason), dir.reasons), RefOf(m.department, dir.departments),
      RefOf(m.line, dir.lines), RefOf(m.station, dir.stations))
  }

  /** On what the backend sends, the client's truthiness test selects exactly the backend's
      outstanding queue, in the same order. */
  lemma OutstandingAgrees(moves: seq<ToolMove>, dir: Directory)
    ensures Filter(Map(moves, MoveJsonOf(dir)), RawOutstanding) == Map(Outstanding(moves), MoveJsonOf(dir))
  {
    FilterMap(moves, MoveJsonOf(dir), IsOutstanding, RawOutstanding);
  }

  /** The screen lists the outstanding moves' ids, in store order, when every stored id is
      non-empty. */
  lemma PendingIdsAreOutstanding(moves: seq<ToolMove>, dir: Directory)
    requires forall i :: 0 <= i < |moves| ==> moves[i].id != ""
    ensures var shown := PendingMoves(Map(moves, MoveJsonOf(dir)));
            var queue := Outstanding(moves);
            && |shown| == |queue|
            && forall i :: 0 <= i < |shown| ==> shown[i].id == Some(queue[i].id)
  {
    OutstandingAgrees(moves, dir);
    var queue := Outstanding(moves);
    forall i | 0 <= i < |queue| ensures queue[i].id != "" {
      FilterKeeps(moves, IsOutstanding, queue[i]);
    }
  }

  // ---------------------------------------------------------------------------------------
  // The components' state

  class WeldList {
    var welds: seq<WeldEntry>
    var toolMoves: seq<PendingMove>

    constructor ()
      ensures welds == [] && toolMoves == []
    {
      welds, toolMoves := [], [];
    }

    /** `fetchData`: both requests together; if either fails nothing is stored. Otherwise the
        welds map one to one and the moves are filtered to the outstanding ones. */
    method FetchData(weldData: Query<WeldJson>, moveData: Query<MoveJson>)
      modifies this
      ensures weldData.QueryFailed? || moveData.QueryFailed? ==> welds == old(welds) && toolMoves == old(toolMoves)
      ensures weldData.Rows? && moveData.Rows? ==>
                welds == Map(weldData.RowsOr(), NormaliseWeld) && toolMoves == PendingMoves(moveData.RowsOr())
    {
      if weldData.Rows? && moveData.Rows? {
        welds := Map(weldData.RowsOr(), NormaliseWeld);
        toolMoves := Map(Filter(moveData.RowsOr(), RawOutstanding), NormaliseMove);
      }
    }
  }

  /** The dashboard's weld-request panel. */
  class ActivityPage {
    var weldRequests: seq<MoveJson>

    constructor ()
      ensures weldRequests == []
    {
      weldRequests := [];
    }

    /** `fetchWeldRequests`: the outstanding moves, kept as fetched; a failed request changes
        nothing. The panel's counter shows the length of the list. */
    method FetchWeldRequests(data: Query<MoveJson>)
      modifies this
      ensures data.QueryFailed? ==> weldRequests == old(weldRequests)
      ensures data.Rows? ==> weldRequests == Filter(data.RowsOr(), RawOutstanding)
      ensures data.Rows? ==> |weldRequests| == CountWhere(data.RowsOr(), RawOutstanding)
    {
      if data.Rows? {
        weldRequests := Filter(data.RowsOr(), RawOutstanding);
      }
    }
  }

  /** The request panel holds exactly the outstanding moves, in fetched order. */
  lemma WeldRequestsExactly(data: seq<MoveJson>, m: MoveJson)
    ensures m in Filter(data, RawOutstanding) <==>
              m in data && JsTruthy(m.requiresWeldTouchup) && !JsTruthy(m.weldTouchupCompleted)
    ensures Subsequence(Filter(data, RawOutstanding), data)
  {
    FilterKeeps(data, RawOutstanding, m);
    FilterIsSubsequence(data, RawOutstanding);
  }
}

/** The station form of the current client (frontend/src/components/AddStationForm.tsx). In
    single mode it posts one station with the name as typed; in bulk mode it reads a
    comma-separated list of names and posts one station per name, all on the same line with
    the same description and status. */
module StationForm {
  import opened Common
  import LR = LocationRoutes

  const NoNames := "Please enter at least one station name"

  predicate NonEmptyName(n: string)
  {
    |n| > 0
  }

  /** A name as bulk mode produces it: non-empty, without a comma, and left as it is by
      trimming (no white space at either end). */
  predicate CleanName(n: string)
  {
    n != [] && ',' !in n && Trim(n) == n
  }

  /** `bulkNames.split(',').map(n => n.trim()).filter(n => n.length > 0)` */
  function StationNames(bulk: string): seq<string>
  {
    Filter(Map(Split(bulk, ','), Trim), NonEmptyName)
  }

  /** A piece of the list without a comma trims to a clean name unless it is blank. */
  lemma PieceClean(piece: string)
    requires ',' !in piece && Trim(piece) != []
    ensures CleanName(Trim(piece))
  {
    TrimClean(Trim(piece));
  }

  /** Every parsed name is clean; the names keep the order of the list, duplicates included,
      and there are at most as many as the list has comma-separated pieces. */
  lemma StationNamesClean(bulk: string)
    ensures var names := StationNames(bulk);
            && |names| <= Occurrences(bulk, ',') + 1
            && Subsequence(names, Map(Split(bulk, ','), Trim))
            && forall i :: 0 <= i < |names| ==> CleanName(names[i])
  {
    var parts := Split(bulk, ',');
    var trimmed := Map(parts, Trim);
    var names := Filter(trimmed, NonEmptyName);
    FilterIsSubsequence(trimmed, NonEmptyName);
    forall i | 0 <= i < |names| ensures CleanName(names[i]) {
      var n := names[i];
      FilterKeeps(trimmed, NonEmptyName, n);
      var j :| 0 <= j < |trimmed| && trimmed[j] == n;
      PieceClean(parts[j]);
    }
  }

  /** An empty list has no names. */
  lemma NoStationNames()
    ensures StationNames("") == []
  {
    assert Split("", ',') == [""];
  }

  /** Clean names are their own trims. */
  lemma TrimCleanNames(names: seq<string>)
    requires forall i :: 0 <= i < |names| ==> CleanName(names[i])
    ensures Map(names, Trim) == names
  {
    MapFixed(names, Trim);
  }

  /** Clean names all pass the non-empty filter. */
  lemma KeepCleanNames(names: seq<string>)
    requires forall i :: 0 <= i < |names| ==> CleanName(names[i])
    ensures Filter(names, NonEmptyName) == names
  {
    forall x | x in names ensures NonEmptyName(x) {
      var k :| 0 <= k < |names| && names[k] == x;
    }
    FilterAllPass(names, NonEmptyName);
  }

  /** Writing clean names as a comma-separated list and parsing it gives the same names back. */
  lemma StationNamesRoundTrip(names: seq<string>)
    requires forall i :: 0 <= i < |names| ==> CleanName(names[i])
    ensures StationNames(Join(names, ',')) == names
  {
    if names == [] {
      NoStationNames();
    } else {
      assert forall i :: 0 <= i < |names| ==> ',' !in names[i];
      SplitJoin(names, ',');
      TrimCleanNames(names);
      KeepCleanNames(names);
    }
  }

  /** The body `api.addStation` posts: `{ name, line, description, status }`. */
  function StationBody(name: string, lineId: string, description: string, status: string): LR.CreateBody
  {
    LR.CreateBody(Some(name), Some(description), Some(status), Some(lineId))
  }

  function BodyFor(lineId: string, description: string, status: string): string -> LR.CreateBody
  {
    (n: string) => StationBody(n, lineId, description, status)
  }

  /** The backend stores every station bulk mode posts for a chosen line, each with its name,
      the line, and the chosen status (or "active" when none is chosen). */
  lemma BulkStationsAccepted(bulk: string, lineId: string, description: string, status: string,
                             id: Id, now: int, i: nat)
    requires lineId != ""
    requires i < |StationNames(bulk)|
    ensures var name := StationNames(bulk)[i];
            var r := LR.CreateStation(BodyFor(lineId, description, status)(name), id, now);
            && r.Ok? && r.value.name == name && r.value.line == lineId
            && r.value.status == (if status != "" then status else "active")
  {
    StationNamesClean(bulk);
  }

  /** What a submission does: None when the browser refuses it, otherwise the requests sent
      and the error shown. */
  datatype Outcome = Outcome(requests: seq<LR.CreateBody>, error: Option<string>)

  function SubmitOutcome(bulkMode: bool, name: string, bulkNames: string, lineId: string,
                         description: string, status: string, failure: Option<string>)
    : (r: Option<Outcome>)
    ensures r.None? <==> lineId == "" || (bulkMode && bulkNames == "") || (!bulkMode && name == "")
    ensures r.Some? && bulkMode && StationNames(bulkNames) == [] ==> r.value == Outcome([], Some(NoNames))
    ensures r.Some? && bulkMode && StationNames(bulkNames) != [] ==>
              r.value == Outcome(Map(StationNames(bulkNames), BodyFor(lineId, description, status)), failure)
    ensures r.Some? && !bulkMode ==> r.value == Outcome([StationBody(name, lineId, description, status)], failure)
  {
    if lineId == "" || (bulkMode && bulkNames == "") || (!bulkMode && name == "") then None
    else if !bulkMode then Some(Outcome([StationBody(name, lineId, description, status)], failure))
    else
      var names := StationNames(bulkNames);
      if names == [] then Some(Outcome([], Some(NoNames)))
      else Some(Outcome(Map(names, BodyFor(lineId, description, status)), failure))
  }

  class StationForm {
    var bulkMode: bool
    var name: string
    var bulkNames: string
    var lineId: string
    var description: string
    var status: string
    var loading: bool
    var error: Option<string>

    /** The line is the one the form was opened for, if any; the status starts 'active'. */
    constructor (propLineId: Option<string>)
      ensures lineId == OrElse(propLineId, "") && status == "active"
      ensures !bulkMode && name == "" && bulkNames == "" && description == ""
      ensures !loading && error == None
    {
      bulkMode, name, bulkNames, lineId := false, "", "", OrElse(propLineId, "");
      description, status, loading, error := "", "active", false, None;
    }

    /** `handleSubmit`, as `SubmitOutcome` describes it: a refused submission changes nothing;
        otherwise the requests are sent, the error is shown and the spinner stops. */
    method Submit(failure: Option<string>) returns (requests: seq<LR.CreateBody>)
      modifies this
      ensures var o := SubmitOutcome(bulkMode, name, bulkNames, lineId, description, status, failure);
              && (o.None? ==> requests == [] && error == old(error) && loading == old(loading))
              && (o.Some? ==> requests == o.value.requests && error == o.value.error && !loading)
      ensures bulkMode == old(bulkMode) && name == old(name) && bulkNames == old(bulkNames)
      ensures lineId == old(lineId) && description == old(description) && status == old(status)
    {
      var o := SubmitOutcome(bulkMode, name, bulkNames, lineId, description, status, failure);
      if o.None? {
        return [];
      }
      requests, error, loading := o.value.requests, o.value.error, false;
    }
  }
}

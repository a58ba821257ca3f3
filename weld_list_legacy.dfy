/** The weld screen of the older client (src/components/WeldList.tsx), which reads the hosted
    database's tables itself. The pending tool moves are chosen by the query, newest first; the
    welds are every `weld_touchups` row, newest first. Marking a move complete and deleting a
    weld write to the database and then drop the row from the local list instead of fetching
    again. */
module WeldListLegacy {
  import opened Common
  import opened Sorting
  import opened Collections
  import opened ActivityLegacy

  function MoveRowId(m: MoveRow): Id { m.id }

  function WeldRowId(w: WeldRow): Id { w.id }

  /** `.eq('requires_weld_touchup', true).eq('weld_touchup_completed', false)`: a null flag
      equals neither value. */
  predicate PendingRow(m: MoveRow)
  {
    m.requiresWeldTouchup == Some(true) && m.weldTouchupCompleted == Some(false)
  }

  /** `.order('created_at', { ascending: false })` */
  predicate NewerRow(a: MoveRow, b: MoveRow)
  {
    b.createdAt <= a.createdAt
  }

  predicate NewerWeld(a: WeldRow, b: WeldRow)
  {
    b.createdAt <= a.createdAt
  }

  /** The answer of the pending tool-move query over the table. */
  function PendingQuery(table: seq<MoveRow>): seq<MoveRow>
  {
    Sort(Filter(table, PendingRow), NewerRow)
  }

  /** The answer of the weld query over the table. */
  function WeldsQuery(table: seq<WeldRow>): seq<WeldRow>
  {
    Sort(table, NewerWeld)
  }

  /** The query answers exactly the rows whose flags are true and false, each as often as
      stored, newest first. */
  lemma PendingQueryExactly(table: seq<MoveRow>, m: MoveRow)
    ensures var r := PendingQuery(table);
            && (m in r <==> m in table && m.requiresWeldTouchup == Some(true) && m.weldTouchupCompleted == Some(false))
            && multiset(r) == multiset(Filter(table, PendingRow))
            && forall i, j :: 0 <= i < j < |r| ==> r[j].createdAt <= r[i].createdAt
  {
    assert TotalPreorder(NewerRow);
    FilterKeeps(table, PendingRow, m);
    SortMembers(Filter(table, PendingRow), NewerRow, m);
    SortSorted(Filter(table, PendingRow), NewerRow);
  }

  /** `.update({ weld_touchup_completed: true })` on one row. */
  function CompleteRow(m: MoveRow): (r: MoveRow)
    ensures r.weldTouchupCompleted == Some(true)
    ensures r.(weldTouchupCompleted := m.weldTouchupCompleted) == m
  {
    m.(weldTouchupCompleted := Some(true))
  }

  /** The table after `.update({ weld_touchup_completed: true }).eq('id', id)`. */
  function MarkCompleted(table: seq<MoveRow>, id: Id): seq<MoveRow>
  {
    UpdateBy(table, MoveRowId, id, CompleteRow)
  }

  /** Dropping the completed move from the list the query answered gives what the query answers
      after the update: the local removal agrees with fetching again. */
  lemma MarkCompleteMatchesRefetch(table: seq<MoveRow>, id: Id)
    ensures Filter(PendingQuery(table), KeyIsNot(MoveRowId, id)) == PendingQuery(MarkCompleted(table, id))
  {
    FilterUpdated(table, MoveRowId, id, CompleteRow, PendingRow);
    assert TotalPreorder(NewerRow);
    SortFilter(Filter(table, PendingRow), NewerRow, KeyIsNot(MoveRowId, id));
  }

  /** Dropping the deleted weld from the list the query answered gives what the query answers
      after the delete. */
  lemma DeleteMatchesRefetch(table: seq<WeldRow>, id: Id)
    ensures Filter(WeldsQuery(table), KeyIsNot(WeldRowId, id)) == WeldsQuery(RemoveBy(table, WeldRowId, id))
  {
    assert TotalPreorder(NewerWeld);
    SortFilter(table, NewerWeld, KeyIsNot(WeldRowId, id));
  }

  /** `status.replace('_', ' ')`: a string pattern replaces its first occurrence only. */
  function StatusLabel(status: string): string
  {
    ReplaceFirst(status, '_', ' ')
  }

  /** The label is the status with its first underscore, if any, read as a space; any later
      underscore stays, and a status without one is shown as it is. */
  lemma StatusLabelSpec(status: string)
    ensures '_' !in status ==> StatusLabel(status) == status
    ensures forall k :: 0 <= k < |status| && status[k] == '_' && '_' !in status[..k] ==>
              StatusLabel(status) == status[..k] + " " + status[k + 1..]
  {
    forall k | 0 <= k < |status| && status[k] == '_' && '_' !in status[..k]
      ensures StatusLabel(status) == status[..k] + " " + status[k + 1..]
    {
      ReplaceFirstAt(status, '_', ' ', k);
    }
  }

  const DeleteFailedAlert := "Failed to delete weld touchup"
  const CompleteFailedAlert := "Failed to mark weld touchup as complete"

  /** The component's state. A request's answer is a parameter: `error` is the error it
      reported, if any. */
  class WeldList {
    var welds: seq<WeldRow>
    var toolMoves: seq<MoveRow>
    var loading: bool

    constructor ()
      ensures welds == [] && toolMoves == [] && loading
    {
      welds, toolMoves, loading := [], [], true;
    }

    /** `fetchWelds`: the rows, or none for a null answer; an error keeps the old list. The
        spinner goes away either way. */
    method FetchWelds(q: Query<WeldRow>)
      modifies this
      ensures q.Rows? ==> welds == q.RowsOr()
      ensures q.QueryFailed? ==> welds == old(welds)
      ensures !loading && toolMoves == old(toolMoves)
    {
      if q.Rows? {
        welds := q.RowsOr();
      }
      loading := false;
    }

    /** `fetchToolMovesWithWeld` */
    method FetchToolMoves(q: Query<MoveRow>)
      modifies this
      ensures q.Rows? ==> toolMoves == q.RowsOr()
      ensures q.QueryFailed? ==> toolMoves == old(toolMoves)
      ensures welds == old(welds) && loading == old(loading)
    {
      if q.Rows? {
        toolMoves := q.RowsOr();
      }
    }

    /** `handleDelete`: nothing happens unless confirmed; a failed delete raises the alert and
        keeps the list; otherwise exactly the rows with that id leave the list. */
    method HandleDelete(id: Id, confirmed: bool, error: Option<string>) returns (alert: Option<string>)
      modifies this
      ensures !confirmed ==> alert == None && welds == old(welds)
      ensures confirmed && error.Some? ==> alert == Some(DeleteFailedAlert) && welds == old(welds)
      ensures confirmed && error.None? ==> alert == None && welds == Filter(old(welds), KeyIsNot(WeldRowId, id))
      ensures toolMoves == old(toolMoves) && loading == old(loading)
    {
      alert := None;
      if !confirmed {
        return;
      }
      if error.Some? {
        alert := Some(DeleteFailedAlert);
      } else {
        welds := Filter(welds, KeyIsNot(WeldRowId, id));
      }
    }

    /** `handleMarkComplete`: the same pattern on the pending tool moves. */
    method HandleMarkComplete(id: Id, confirmed: bool, error: Option<string>) returns (alert: Option<string>)
      modifies this
      ensures !confirmed ==> alert == None && toolMoves == old(toolMoves)
      ensures confirmed && error.Some? ==> alert == Some(CompleteFailedAlert) && toolMoves == old(toolMoves)
      ensures confirmed && error.None? ==>
                alert == None && toolMoves == Filter(old(toolMoves), KeyIsNot(MoveRowId, id))
      ensures welds == old(welds) && loading == old(loading)
    {
      alert := None;
      if !confirmed {
        return;
      }
      if error.Some? {
        alert := Some(CompleteFailedAlert);
      } else {
        toolMoves := Filter(toolMoves, KeyIsNot(MoveRowId, id));
      }
    }
  }

  /** A local removal drops exactly the rows with that id and keeps the others in order. */
  lemma RemovalDropsOnlyThatId<T>(s: seq<T>, key: T -> Id, id: Id, x: T)
    ensures x in Filter(s, KeyIsNot(key, id)) <==> x in s && key(x) != id
    ensures Subsequence(Filter(s, KeyIsNot(key, id)), s)
  {
    FilterKeeps(s, KeyIsNot(key, id), x);
    FilterIsSubsequence(s, KeyIsNot(key, id));
  }
}

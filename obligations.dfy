/** The weld touch-up obligation a tool move carries: `requiresWeldTouchup` and
    `weldTouchupCompleted`. The outstanding queue is the moves that require a touch-up that
    has not been completed (frontend/src/components/WeldList.tsx, frontend/src/pages/ActivityPage.tsx).
    Nothing ties the two flags together, and PATCH may set either to anything. */
module Obligations {
  import opened Common
  import opened Records
  import opened Collections
  import opened ToolMoveRoutes

  predicate IsOutstanding(m: ToolMove)
  {
    m.requiresWeldTouchup && !m.weldTouchupCompleted
  }

  /** `moves.filter(m => m.requiresWeldTouchup && !m.weldTouchupCompleted)` */
  function Outstanding(moves: seq<ToolMove>): seq<ToolMove>
  {
    Filter(moves, IsOutstanding)
  }

  /** A move is in the queue exactly when it requires a touch-up and is not completed:
      completed moves and moves that never required one are left out. */
  lemma OutstandingExactly(moves: seq<ToolMove>, m: ToolMove)
    ensures m in Outstanding(moves) <==> m in moves && m.requiresWeldTouchup && !m.weldTouchupCompleted
  {
    FilterKeeps(moves, IsOutstanding, m);
  }

  /** The queue keeps the input order and drops nothing else; its length is the number of
      outstanding moves. */
  lemma OutstandingOrder(moves: seq<ToolMove>)
    ensures Subsequence(Outstanding(moves), moves)
    ensures |Outstanding(moves)| == CountWhere(moves, IsOutstanding)
    ensures (forall i :: 0 <= i < |moves| ==> IsOutstanding(moves[i])) ==> Outstanding(moves) == moves
  {
    FilterIsSubsequence(moves, IsOutstanding);
    if forall i :: 0 <= i < |moves| ==> IsOutstanding(moves[i]) {
      FilterAllPass(moves, IsOutstanding);
    }
  }

  /** Where a move stands: `CompletedUnrequired` is the state the schema does not rule out. */
  datatype ObligationState = NotRequired | Pending | Completed | CompletedUnrequired

  function StateOf(m: ToolMove): (s: ObligationState)
    ensures s == Pending <==> IsOutstanding(m)
    ensures s == CompletedUnrequired <==> m.weldTouchupCompleted && !m.requiresWeldTouchup
  {
    if !m.requiresWeldTouchup then (if m.weldTouchupCompleted then CompletedUnrequired else NotRequired)
    else if m.weldTouchupCompleted then Completed
    else Pending
  }

  /** The PATCH that marks a touch-up done. */
  const MarkDone := PatchBody(None, Some(true), None)

  /** Marking done takes a pending move to `Done`, and marking it again leaves it there: the
      second PATCH is not an error and changes nothing but the update time. */
  lemma MarkDoneTwice(m: ToolMove, t1: int, t2: int)
    requires StateOf(m) == Pending
    ensures StateOf(Patch(m, MarkDone, t1)) == Completed
    ensures StateOf(Patch(Patch(m, MarkDone, t1), MarkDone, t2)) == Completed
    ensures Patch(Patch(m, MarkDone, t1), MarkDone, t2) == Patch(m, MarkDone, t2)
  {
  }

  /** PATCH rejects no transition: from any state some body reaches any other state. */
  lemma EveryTransitionAccepted(m: ToolMove, target: ObligationState, now: int)
    ensures var p := PatchBody(Some(target == Pending || target == Completed),
                               Some(target == Completed || target == CompletedUnrequired), None);
            StateOf(Patch(m, p, now)) == target
  {
  }

  /** `m => Patch(m, MarkDone, now)` */
  function MarkDoneAt(now: int): ToolMove -> ToolMove
  {
    PatchWith(MarkDone, now)
  }

  /** `m => m.id !== id` */
  function IdIsNot(id: Id): ToolMove -> bool
  {
    KeyIsNot(MoveId, id)
  }

  /** Marking one move done over the whole collection: that move leaves the queue and every
      other move keeps its place in it. */
  lemma MarkDoneLeavesQueue(moves: seq<ToolMove>, id: Id, now: int)
    ensures Outstanding(UpdateBy(moves, MoveId, id, MarkDoneAt(now)))
         == Filter(Outstanding(moves), IdIsNot(id))
  {
    FilterUpdated(moves, MoveId, id, MarkDoneAt(now), IsOutstanding);
  }
}

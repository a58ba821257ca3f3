/** The notification routes (backend/src/routes/notifications.js): a user's inbox and
    marking one notification read. */
module NotificationRoutes {
  import opened Common
  import opened Sorting
  import opened Records

  /** `.limit(50)` */
  const InboxLimit: nat := 50

  /** The comparator of `.sort({ createdAt: -1 })`, as "a may stay before b". */
  predicate NewerFirst(a: Notification, b: Notification)
  {
    b.createdAt - a.createdAt <= 0
  }

  function OwnedBy(user: Id): Notification -> bool
  {
    (n: Notification) => n.user == user
  }

  /** GET /notifications for the caller `user`. */
  function Inbox(ns: seq<Notification>, user: Id): seq<Notification>
  {
    Take(Sort(Filter(ns, OwnedBy(user)), NewerFirst), InboxLimit)
  }

  /** The inbox holds only the caller's notifications, every one of them stored, newest
      first, at most 50 of them; a caller with at most 50 notifications sees all of them. */
  lemma InboxProperties(ns: seq<Notification>, user: Id)
    ensures var r := Inbox(ns, user);
            && |r| <= InboxLimit
            && (forall i :: 0 <= i < |r| ==> r[i].user == user && r[i] in ns)
            && (forall i, j :: 0 <= i < j < |r| ==> r[i].createdAt >= r[j].createdAt)
            && (CountWhere(ns, OwnedBy(user)) <= InboxLimit ==>
                  forall n :: n in ns && n.user == user ==> n in r)
  {
    var mine := Filter(ns, OwnedBy(user));
    var sorted := Sort(mine, NewerFirst);
    var r := Inbox(ns, user);
    SortSorted(mine, NewerFirst);
    forall i | 0 <= i < |r| ensures r[i].user == user && r[i] in ns {
      assert r[i] == sorted[i];
      SortMembers(mine, NewerFirst, r[i]);
      FilterKeeps(ns, OwnedBy(user), r[i]);
    }
    forall n | n in ns && n.user == user && CountWhere(ns, OwnedBy(user)) <= InboxLimit
      ensures n in r
    {
      FilterKeeps(ns, OwnedBy(user), n);
      SortMembers(mine, NewerFirst, n);
    }
  }

  /** The inbox of 50 is the newest: nothing left out is newer than what is shown. */
  lemma InboxKeepsNewest(ns: seq<Notification>, user: Id, n: Notification)
    requires n in ns && n.user == user && n !in Inbox(ns, user)
    ensures |Inbox(ns, user)| == InboxLimit
    ensures forall i :: 0 <= i < InboxLimit ==> Inbox(ns, user)[i].createdAt >= n.createdAt
  {
    var mine := Filter(ns, OwnedBy(user));
    var sorted := Sort(mine, NewerFirst);
    FilterKeeps(ns, OwnedBy(user), n);
    SortMembers(mine, NewerFirst, n);
    NewerFirstTotal();
    SortSorted(mine, NewerFirst);
    var k := IndexOf(sorted, n);
    assert k >= InboxLimit;
    forall i | 0 <= i < InboxLimit ensures sorted[i].createdAt >= n.createdAt {
      assert NewerFirst(sorted[i], sorted[k]);
    }
  }


  lemma NewerFirstTotal()
    ensures TotalPreorder(NewerFirst)
  {
  }

  /** `findOneAndUpdate({ _id: id, user }, { read: true })`: only a notification with both
      that id and that owner is touched. */
  function MarkRead(ns: seq<Notification>, id: Id, user: Id, now: int): (r: seq<Notification>)
    ensures |r| == |ns|
    ensures forall i :: 0 <= i < |ns| ==>
              r[i] == if ns[i].id == id && ns[i].user == user
                      then ns[i].(read := true, updatedAt := now) else ns[i]
  {
    seq(|ns|, i requires 0 <= i < |ns| =>
      if ns[i].id == id && ns[i].user == user then ns[i].(read := true, updatedAt := now) else ns[i])
  }

  /** Another user's notifications stay as they are, whatever id is sent, and marking again
      changes nothing but the update time. */
  lemma MarkReadScoped(ns: seq<Notification>, id: Id, user: Id, now: int, later: int)
    ensures forall i :: 0 <= i < |ns| && ns[i].user != user ==> MarkRead(ns, id, user, now)[i] == ns[i]
    ensures forall i :: 0 <= i < |ns| ==>
              MarkRead(ns, id, user, now)[i].(read := ns[i].read, updatedAt := ns[i].updatedAt) == ns[i]
    ensures MarkRead(MarkRead(ns, id, user, now), id, user, later) == MarkRead(ns, id, user, later)
  {
  }

  function NotificationId(n: Notification): Id { n.id }
}

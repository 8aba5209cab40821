/**
 * The notification store of src/services/api/notificationService.js: a
 * module-level array of notifications changed in place, and a `nextId`
 * counter that starts one above the largest seed Id and is bumped by every
 * `create`.
 */
module Notifications {
  import opened Outcomes
  import opened Domain
  import Seqs

  const NotFound: string := "Notification not found"

  function IdOf(n: Notification): int { n.Id }

  predicate IsUnread(n: Notification) { !n.isRead }

  /** What one notification adds to the unread count: 1 when unread, else 0. */
  function UnreadMark(n: Notification): int { if n.isRead then 0 else 1 }

  function AsRead(n: Notification): Notification { n.(isRead := true) }

  /** Every Id in `s` is below `next`. */
  ghost predicate IdsBelow(s: seq<Notification>, next: int)
  {
    forall i :: 0 <= i < |s| ==> s[i].Id < next
  }

  /** No two notifications of `s` share an Id. */
  ghost predicate DistinctIds(s: seq<Notification>)
  {
    forall i, j :: 0 <= i < j < |s| ==> s[i].Id != s[j].Id
  }

  /** Removing one notification keeps every remaining Id below the counter and distinct. */
  lemma RemoveKeepsIds(s: seq<Notification>, i: int, next: int)
    requires 0 <= i < |s|
    requires IdsBelow(s, next) && DistinctIds(s)
    ensures IdsBelow(Seqs.RemoveAt(s, i), next) && DistinctIds(Seqs.RemoveAt(s, i))
  {
    var r := Seqs.RemoveAt(s, i);
    forall k, l | 0 <= k < l < |r|
      ensures r[k].Id != r[l].Id
    {
      var k', l' := if k < i then k else k + 1, if l < i then l else l + 1;
      assert r[k] == s[k'] && r[l] == s[l'] && k' < l';
    }
  }

  class NotificationService {
    var notifications: seq<Notification>
    var nextId: int

    /** Every stored Id is below the counter, so the counter's next value is new. */
    ghost predicate IdsBelowCounter()
      reads this
    {
      IdsBelow(notifications, nextId)
    }

    ghost predicate UniqueIds()
      reads this
    {
      DistinctIds(notifications)
    }

    /** The invariant the store keeps as long as no update rewrites an Id. */
    ghost predicate WellNumbered()
      reads this
    {
      IdsBelowCounter() && UniqueIds()
    }

    /** `let notifications = [...seed]; let nextId = Math.max(...ids) + 1`. */
    constructor (seed: seq<Notification>)
      requires |seed| > 0
      requires forall i, j :: 0 <= i < j < |seed| ==> seed[i].Id != seed[j].Id
      ensures notifications == seed
      ensures nextId == Seqs.Max(Seqs.Map(seed, IdOf)) + 1
      ensures WellNumbered()
    {
      notifications := seed;
      nextId := Seqs.Max(Seqs.Map(seed, IdOf)) + 1;
      new;
      var ids := Seqs.Map(seed, IdOf);
      forall i | 0 <= i < |seed|
        ensures seed[i].Id < nextId
      {
        assert ids[i] in ids;
      }
    }

    /** `findIndex(n => n.Id === id)`. */
    function IndexOf(id: int): (i: int)
      reads this
      ensures -1 <= i < |notifications|
      ensures i == -1 <==> forall j :: 0 <= j < |notifications| ==> notifications[j].Id != id
      ensures 0 <= i ==> notifications[i].Id == id && forall j :: 0 <= j < i ==> notifications[j].Id != id
    {
      Seqs.FirstIndex(notifications, (n: Notification) => n.Id == id)
    }

    /** `getById`: a copy of the notification with that Id, or "Notification not found". */
    function GetById(id: int): (r: Result<Notification>)
      reads this
      ensures r.Ok? <==> exists j :: 0 <= j < |notifications| && notifications[j].Id == id
      ensures r.Ok? ==> r.value in notifications && r.value.Id == id
      ensures r.Err? ==> r.message == NotFound
    {
      var i := IndexOf(id);
      if i == -1 then Err(NotFound) else Ok(notifications[i])
    }

    /**
     * `create`: append the draft with `Id = nextId++`, `isRead = false` and
     * the current instant as `createdAt`.
     */
    method Create(data: NotificationDraft, now: int) returns (n: Notification)
      modifies this
      ensures n.Id == old(nextId) && !n.isRead && n.createdAt == now
      ensures n.title == data.title && n.message == data.message && n.kind == data.kind
      ensures n.priority == data.priority && n.relatedId == data.relatedId
      ensures notifications == old(notifications) + [n]
      ensures nextId == old(nextId) + 1
      ensures old(IdsBelowCounter()) ==> forall i :: 0 <= i < |old(notifications)| ==> old(notifications)[i].Id < n.Id
      ensures old(WellNumbered()) ==> WellNumbered()
    {
      n := Notification(nextId, data.title, data.message, data.kind, data.priority, data.relatedId, false, now);
      nextId := nextId + 1;
      notifications := notifications + [n];
    }

    /** `update`: merge the patch into the first notification with that Id. */
    method Update(id: int, patch: NotificationPatch) returns (r: Result<Notification>)
      modifies this
      ensures nextId == old(nextId)
      ensures old(IndexOf(id)) == -1 ==> r == Err(NotFound) && notifications == old(notifications)
      ensures old(IndexOf(id)) >= 0 ==>
        var i := old(IndexOf(id));
        r == Ok(MergeNotification(old(notifications[i]), patch)) &&
        notifications == old(notifications)[i := r.value]
      ensures old(WellNumbered()) && patch.Id.None? ==> WellNumbered()
    {
      var i := IndexOf(id);
      if i == -1 {
        return Err(NotFound);
      }
      var merged := MergeNotification(notifications[i], patch);
      notifications := notifications[i := merged];
      r := Ok(merged);
    }

    /** `delete`: splice out the first notification with that Id and return it. */
    method Delete(id: int) returns (r: Result<Notification>)
      modifies this
      ensures nextId == old(nextId)
      ensures old(IndexOf(id)) == -1 ==> r == Err(NotFound) && notifications == old(notifications)
      ensures old(IndexOf(id)) >= 0 ==>
        var i := old(IndexOf(id));
        r == Ok(old(notifications[i])) && r.value.Id == id &&
        notifications == Seqs.RemoveAt(old(notifications), i)
      ensures old(WellNumbered()) ==> WellNumbered()
    {
      var i := IndexOf(id);
      if i == -1 {
        return Err(NotFound);
      }
      var before := notifications;
      r := Ok(before[i]);
      if IdsBelow(before, nextId) && DistinctIds(before) {
        RemoveKeepsIds(before, i, nextId);
      }
      notifications := Seqs.RemoveAt(before, i);
    }

    /**
     * `markAsRead`: set `isRead` on the first notification with that Id;
     * the unread count drops by one if it was unread.
     */
    method MarkAsRead(id: int) returns (r: Result<Notification>)
      modifies this
      ensures nextId == old(nextId)
      ensures old(IndexOf(id)) == -1 ==> r == Err(NotFound) && notifications == old(notifications)
      ensures old(IndexOf(id)) >= 0 ==>
        var i := old(IndexOf(id));
        r == Ok(AsRead(old(notifications[i]))) &&
        notifications == old(notifications)[i := r.value] &&
        GetUnreadCount() == old(GetUnreadCount()) - (if old(notifications[i].isRead) then 0 else 1)
      ensures old(WellNumbered()) ==> WellNumbered()
    {
      var i := IndexOf(id);
      if i == -1 {
        return Err(NotFound);
      }
      Seqs.CountUpdate(notifications, i, AsRead(notifications[i]), IsUnread);
      notifications := notifications[i := AsRead(notifications[i])];
      assert forall k :: 0 <= k < |notifications| ==> notifications[k].Id == old(notifications)[k].Id;
      r := Ok(notifications[i]);
    }

    /** `markAllAsRead`: every notification, in place and otherwise unchanged, becomes read. */
    method MarkAllAsRead() returns (r: seq<Notification>)
      modifies this
      ensures nextId == old(nextId)
      ensures notifications == Seqs.Map(old(notifications), AsRead)
      ensures r == notifications
      ensures GetUnreadCount() == 0
      ensures old(WellNumbered()) ==> WellNumbered()
    {
      notifications := Seqs.Map(notifications, AsRead);
      r := notifications;
    }

    /** `getUnreadCount`: how many notifications are unread. */
    function GetUnreadCount(): (count: nat)
      reads this
      ensures count == Seqs.Sum(notifications, UnreadMark)
      ensures count <= |notifications|
      ensures count == 0 <==> forall i :: 0 <= i < |notifications| ==> notifications[i].isRead
    {
      Seqs.CountIsSum(notifications, IsUnread, UnreadMark);
      var unread := Seqs.Filter(notifications, IsUnread);
      assert unread != [] ==> unread[0] in notifications;
      assert forall i :: 0 <= i < |notifications| && IsUnread(notifications[i]) ==> notifications[i] in unread;
      |unread|
    }

    /** `getByType`: the notifications of one type, in store order. */
    function GetByType(kind: NotificationType): (r: seq<Notification>)
      reads this
      ensures forall n :: n in r <==> n in notifications && n.kind == kind
      ensures Seqs.IsSubsequence(r, notifications)
      ensures forall n {:trigger multiset(r)[n]} :: multiset(r)[n] == if n.kind == kind then multiset(notifications)[n] else 0
    {
      Seqs.Filter(notifications, (n: Notification) => n.kind == kind)
    }
  }
}

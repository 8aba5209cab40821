/**
 * The notification hook of src/hooks/useNotifications.js.
 * `generateSystemNotifications` turns today's booking alerts and the rooms
 * awaiting maintenance into new notifications, skipping every booking or
 * room that already has a notification of the same type about it, and
 * creates them one after another in the notification store. The hook's
 * local `markAsRead` mirrors a successful store update in its own list.
 *
 * The booking and room alert lists are parameters, as are `today` (the day
 * the browser's local date falls on) and the instant `now`. A failing
 * `create` is modelled by `faultAt`: `Some(k)` makes the call for the
 * candidate at index `k` throw.
 */
module NotificationGenerator {
  import opened Outcomes
  import opened Domain
  import Seqs
  import Notifications

  /** Some existing notification has this type and points at `id`. */
  predicate Notified(existing: seq<Notification>, kind: NotificationType, id: int)
  {
    exists i :: 0 <= i < |existing| && existing[i].kind == kind && existing[i].relatedId == Some(id)
  }

  /** A booking in the alerts that checks in today and has no check-in notification yet. */
  function NeedsCheckIn(existing: seq<Notification>, today: int): Booking -> bool
  {
    (b: Booking) => b.checkInDate == today && !Notified(existing, NotificationType.CheckIn, b.Id)
  }

  /** A room in the alerts with no maintenance notification yet. */
  function NeedsMaintenance(existing: seq<Notification>): Room -> bool
  {
    (r: Room) => !Notified(existing, NotificationType.Maintenance, r.Id)
  }

  function CheckInDraft(b: Booking): NotificationDraft
  {
    NotificationDraft("Check-in Today", "Guest check-in for Room " + b.roomId,
                      NotificationType.CheckIn, Priority.High, Some(b.Id))
  }

  function MaintenanceDraft(r: Room): NotificationDraft
  {
    NotificationDraft("Room Maintenance", "Room " + r.roomNumber + " requires " + RoomStatusName(r.status),
                      NotificationType.Maintenance, Priority.Medium, Some(r.Id))
  }

  /**
   * The check-in candidates: the alert bookings that check in today and are
   * not yet notified, in booking order, each as its check-in draft.
   */
  function CheckInCandidates(existing: seq<Notification>, alerts: seq<Booking>, today: int): seq<NotificationDraft>
  {
    Seqs.Map(Seqs.Filter(alerts, NeedsCheckIn(existing, today)), CheckInDraft)
  }

  /**
   * The maintenance candidates: the alert rooms not yet notified, in room
   * order, each as its maintenance draft.
   */
  function MaintenanceCandidates(existing: seq<Notification>, alerts: seq<Room>): seq<NotificationDraft>
  {
    Seqs.Map(Seqs.Filter(alerts, NeedsMaintenance(existing)), MaintenanceDraft)
  }

  /**
   * Every check-in candidate is a high-priority check-in draft about an
   * alert booking that checks in today and has no check-in notification;
   * every such booking yields one; there are never more candidates than
   * alerts.
   */
  lemma CheckInCandidatesMeaning(existing: seq<Notification>, alerts: seq<Booking>, today: int)
    ensures var ds := CheckInCandidates(existing, alerts, today);
      |ds| <= |alerts| &&
      (forall d :: d in ds ==>
        d.kind == NotificationType.CheckIn && d.priority == Priority.High &&
        exists b :: b in alerts && b.checkInDate == today && !Notified(existing, NotificationType.CheckIn, b.Id) &&
                    d == CheckInDraft(b) && d.relatedId == Some(b.Id)) &&
      (forall b :: b in alerts && b.checkInDate == today && !Notified(existing, NotificationType.CheckIn, b.Id) ==>
        CheckInDraft(b) in ds)
  {
    var chosen := Seqs.Filter(alerts, NeedsCheckIn(existing, today));
    var ds := Seqs.Map(chosen, CheckInDraft);
    forall b | b in chosen
      ensures CheckInDraft(b) in ds
    {
      var i :| 0 <= i < |chosen| && chosen[i] == b;
      assert ds[i] == CheckInDraft(b);
    }
  }

  /**
   * Every maintenance candidate is a medium-priority maintenance draft
   * about an alert room with no maintenance notification; every such room
   * yields one.
   */
  lemma MaintenanceCandidatesMeaning(existing: seq<Notification>, alerts: seq<Room>)
    ensures var ds := MaintenanceCandidates(existing, alerts);
      |ds| <= |alerts| &&
      (forall d :: d in ds ==>
        d.kind == NotificationType.Maintenance && d.priority == Priority.Medium &&
        exists r :: r in alerts && !Notified(existing, NotificationType.Maintenance, r.Id) &&
                    d == MaintenanceDraft(r) && d.relatedId == Some(r.Id)) &&
      (forall r :: r in alerts && !Notified(existing, NotificationType.Maintenance, r.Id) ==>
        MaintenanceDraft(r) in ds)
  {
    var chosen := Seqs.Filter(alerts, NeedsMaintenance(existing));
    var ds := Seqs.Map(chosen, MaintenanceDraft);
    forall r | r in chosen
      ensures MaintenanceDraft(r) in ds
    {
      var i :| 0 <= i < |chosen| && chosen[i] == r;
      assert ds[i] == MaintenanceDraft(r);
    }
  }

  /** All candidates: the check-ins first, then the maintenance drafts. */
  function Candidates(existing: seq<Notification>, bookingAlerts: seq<Booking>, roomAlerts: seq<Room>, today: int): seq<NotificationDraft>
  {
    CheckInCandidates(existing, bookingAlerts, today) + MaintenanceCandidates(existing, roomAlerts)
  }

  /** The notifications `create` makes from the drafts, numbered from `firstId` on. */
  function Materialize(ds: seq<NotificationDraft>, firstId: int, now: int): (ns: seq<Notification>)
    ensures |ns| == |ds|
    ensures forall i :: 0 <= i < |ds| ==>
      ns[i] == Notification(firstId + i, ds[i].title, ds[i].message, ds[i].kind, ds[i].priority,
                            ds[i].relatedId, false, now)
  {
    seq(|ds|, i requires 0 <= i < |ds| =>
      Notification(firstId + i, ds[i].title, ds[i].message, ds[i].kind, ds[i].priority, ds[i].relatedId, false, now))
  }

  /** One more alert booking adds its draft exactly when it qualifies. */
  lemma CheckInStep(existing: seq<Notification>, alerts: seq<Booking>, k: int, today: int)
    requires 0 <= k < |alerts|
    ensures CheckInCandidates(existing, alerts[..k + 1], today) ==
      CheckInCandidates(existing, alerts[..k], today) +
      (if NeedsCheckIn(existing, today)(alerts[k]) then [CheckInDraft(alerts[k])] else [])
  {
    assert alerts[..k + 1] == alerts[..k] + [alerts[k]];
    Seqs.FilterSnoc(alerts[..k], alerts[k], NeedsCheckIn(existing, today));
    Seqs.MapSnoc(Seqs.Filter(alerts[..k], NeedsCheckIn(existing, today)), alerts[k], CheckInDraft);
  }

  /** One more alert room adds its draft exactly when it qualifies. */
  lemma MaintenanceStep(existing: seq<Notification>, alerts: seq<Room>, k: int)
    requires 0 <= k < |alerts|
    ensures MaintenanceCandidates(existing, alerts[..k + 1]) ==
      MaintenanceCandidates(existing, alerts[..k]) +
      (if NeedsMaintenance(existing)(alerts[k]) then [MaintenanceDraft(alerts[k])] else [])
  {
    assert alerts[..k + 1] == alerts[..k] + [alerts[k]];
    Seqs.FilterSnoc(alerts[..k], alerts[k], NeedsMaintenance(existing));
    Seqs.MapSnoc(Seqs.Filter(alerts[..k], NeedsMaintenance(existing)), alerts[k], MaintenanceDraft);
  }

  /** Creating one more draft appends its notification, numbered next. */
  lemma MaterializeStep(ds: seq<NotificationDraft>, k: int, firstId: int, now: int)
    requires 0 <= k < |ds|
    ensures Materialize(ds[..k + 1], firstId, now) ==
      Materialize(ds[..k], firstId, now) +
      [Notification(firstId + k, ds[k].title, ds[k].message, ds[k].kind, ds[k].priority, ds[k].relatedId, false, now)]
  {
  }

  /** The check-in `forEach`: a draft per alert booking that checks in today and has no check-in notification yet. */
  method CollectCheckIns(existing: seq<Notification>, bookingAlerts: seq<Booking>, today: int)
    returns (drafts: seq<NotificationDraft>)
    ensures drafts == CheckInCandidates(existing, bookingAlerts, today)
  {
    drafts := [];
    var k := 0;
    while k < |bookingAlerts|
      invariant 0 <= k <= |bookingAlerts|
      invariant drafts == CheckInCandidates(existing, bookingAlerts[..k], today)
    {
      var b := bookingAlerts[k];
      CheckInStep(existing, bookingAlerts, k, today);
      assert NeedsCheckIn(existing, today)(b) == (b.checkInDate == today && !Notified(existing, NotificationType.CheckIn, b.Id));
      if b.checkInDate == today {
        if !Notified(existing, NotificationType.CheckIn, b.Id) {
          drafts := drafts + [CheckInDraft(b)];
        }
      }
      k := k + 1;
    }
    assert bookingAlerts[..k] == bookingAlerts;
  }

  /** The maintenance `forEach`: a draft per alert room without a maintenance notification yet. */
  method CollectMaintenance(existing: seq<Notification>, roomAlerts: seq<Room>)
    returns (drafts: seq<NotificationDraft>)
    ensures drafts == MaintenanceCandidates(existing, roomAlerts)
  {
    drafts := [];
    var j := 0;
    while j < |roomAlerts|
      invariant 0 <= j <= |roomAlerts|
      invariant drafts == MaintenanceCandidates(existing, roomAlerts[..j])
    {
      var r := roomAlerts[j];
      MaintenanceStep(existing, roomAlerts, j);
      assert NeedsMaintenance(existing)(r) == !Notified(existing, NotificationType.Maintenance, r.Id);
      if !Notified(existing, NotificationType.Maintenance, r.Id) {
        drafts := drafts + [MaintenanceDraft(r)];
      }
      j := j + 1;
    }
    assert roomAlerts[..j] == roomAlerts;
  }

  /**
   * The two `forEach` passes that build `newNotifications`: check-in
   * drafts in booking order, then maintenance drafts in room order.
   */
  method CollectCandidates(existing: seq<Notification>, bookingAlerts: seq<Booking>, roomAlerts: seq<Room>, today: int)
    returns (drafts: seq<NotificationDraft>)
    ensures drafts == Candidates(existing, bookingAlerts, roomAlerts, today)
  {
    var checkIns := CollectCheckIns(existing, bookingAlerts, today);
    var maintenance := CollectMaintenance(existing, roomAlerts);
    drafts := checkIns + maintenance;
  }

  /**
   * The `for` loop of `create` calls: the drafts are created one after
   * another; when the call for draft `faultAt` throws, the ones before it
   * stay created and the rest are not attempted.
   */
  method CreateAll(service: Notifications.NotificationService, drafts: seq<NotificationDraft>,
                   now: int, faultAt: Option<nat>)
    returns (created: nat)
    modifies service
    ensures created == if faultAt.Some? && faultAt.value < |drafts| then faultAt.value else |drafts|
    ensures service.notifications == old(service.notifications) + Materialize(drafts[..created], old(service.nextId), now)
    ensures service.nextId == old(service.nextId) + created
    ensures old(service.WellNumbered()) ==> service.WellNumbered()
  {
    var k := 0;
    while k < |drafts|
      invariant 0 <= k <= |drafts|
      invariant faultAt.None? || k <= faultAt.value
      invariant service.notifications == old(service.notifications) + Materialize(drafts[..k], old(service.nextId), now)
      invariant service.nextId == old(service.nextId) + k
      invariant old(service.WellNumbered()) ==> service.WellNumbered()
    {
      if faultAt == Some(k) {
        // this create call throws
        return k;
      }
      var n := service.Create(drafts[k], now);
      MaterializeStep(drafts, k, old(service.nextId), now);
      k := k + 1;
    }
    created := k;
  }

  /**
   * `generateSystemNotifications`: collect the candidates against the
   * store's current list, create them in order, and answer the store's
   * list. When a `create` throws, the ones before it stay created and the
   * store's list is answered all the same.
   */
  method GenerateSystemNotifications(service: Notifications.NotificationService,
                                     bookingAlerts: seq<Booking>, roomAlerts: seq<Room>,
                                     today: int, now: int, faultAt: Option<nat>)
    returns (result: seq<Notification>)
    modifies service
    ensures result == service.notifications
    ensures var cands := Candidates(old(service.notifications), bookingAlerts, roomAlerts, today);
      var made := if faultAt.Some? && faultAt.value < |cands| then cands[..faultAt.value] else cands;
      service.notifications == old(service.notifications) + Materialize(made, old(service.nextId), now) &&
      service.nextId == old(service.nextId) + |made|
    ensures old(service.WellNumbered()) ==> service.WellNumbered()
  {
    var cands := CollectCandidates(service.notifications, bookingAlerts, roomAlerts, today);
    var created := CreateAll(service, cands, now, faultAt);
    assert created == |cands| ==> cands[..created] == cands;
    result := service.notifications;
  }

  /**
   * Idempotence: once every candidate has been created, collecting again
   * against the grown list with the same alerts and day yields nothing.
   */
  lemma {:induction false} GenerationIdempotent(existing: seq<Notification>, bookingAlerts: seq<Booking>,
                                                roomAlerts: seq<Room>, today: int, firstId: int, now: int)
    ensures var after := existing + Materialize(Candidates(existing, bookingAlerts, roomAlerts, today), firstId, now);
      Candidates(after, bookingAlerts, roomAlerts, today) == []
  {
    var cands := Candidates(existing, bookingAlerts, roomAlerts, today);
    CheckInsCovered(existing, cands, bookingAlerts, roomAlerts, today, firstId, now);
    MaintenanceCovered(existing, cands, bookingAlerts, roomAlerts, today, firstId, now);
  }

  /** After creation every check-in candidate's booking has its notification. */
  lemma CheckInsCovered(existing: seq<Notification>, cands: seq<NotificationDraft>, bookingAlerts: seq<Booking>,
                        roomAlerts: seq<Room>, today: int, firstId: int, now: int)
    requires cands == Candidates(existing, bookingAlerts, roomAlerts, today)
    ensures forall b :: b in bookingAlerts && b.checkInDate == today ==>
      Notified(existing + Materialize(cands, firstId, now), NotificationType.CheckIn, b.Id)
  {
    var created := Materialize(cands, firstId, now);
    var after := existing + created;
    forall b | b in bookingAlerts && b.checkInDate == today
      ensures Notified(after, NotificationType.CheckIn, b.Id)
    {
      if Notified(existing, NotificationType.CheckIn, b.Id) {
        var i :| 0 <= i < |existing| && existing[i].kind == NotificationType.CheckIn && existing[i].relatedId == Some(b.Id);
        assert after[i] == existing[i];
      } else {
        assert CheckInDraft(b) in cands;
        var i :| 0 <= i < |cands| && cands[i] == CheckInDraft(b);
        assert after[|existing| + i] == created[i];
      }
    }
  }

  /** After creation every maintenance candidate's room has its notification. */
  lemma MaintenanceCovered(existing: seq<Notification>, cands: seq<NotificationDraft>, bookingAlerts: seq<Booking>,
                           roomAlerts: seq<Room>, today: int, firstId: int, now: int)
    requires cands == Candidates(existing, bookingAlerts, roomAlerts, today)
    ensures forall r :: r in roomAlerts ==>
      Notified(existing + Materialize(cands, firstId, now), NotificationType.Maintenance, r.Id)
  {
    var created := Materialize(cands, firstId, now);
    var after := existing + created;
    forall r | r in roomAlerts
      ensures Notified(after, NotificationType.Maintenance, r.Id)
    {
      if Notified(existing, NotificationType.Maintenance, r.Id) {
        var i :| 0 <= i < |existing| && existing[i].kind == NotificationType.Maintenance && existing[i].relatedId == Some(r.Id);
        assert after[i] == existing[i];
      } else {
        assert MaintenanceDraft(r) in cands;
        var i :| 0 <= i < |cands| && cands[i] == MaintenanceDraft(r);
        assert after[|existing| + i] == created[i];
      }
    }
  }

  /**
   * An alert for a booking that checks in tomorrow (the alert window covers
   * today and tomorrow) never becomes a candidate.
   */
  lemma TomorrowIsNotACandidate(existing: seq<Notification>, bookingAlerts: seq<Booking>, today: int)
    ensures forall d :: d in CheckInCandidates(existing, bookingAlerts, today) ==>
      exists b :: b in bookingAlerts && b.checkInDate == today && d.relatedId == Some(b.Id)
  {
  }

  /** The hook's own copy of the list. */
  class NotificationsHook {
    var notifications: seq<Notification>

    constructor ()
      ensures notifications == []
    {
      notifications := [];
    }

    /** `loadNotifications`: replace the local list with what generation answers. */
    method Load(service: Notifications.NotificationService, bookingAlerts: seq<Booking>, roomAlerts: seq<Room>,
                today: int, now: int, faultAt: Option<nat>)
      modifies this, service
      ensures notifications == service.notifications
      ensures var cands := Candidates(old(service.notifications), bookingAlerts, roomAlerts, today);
        var made := if faultAt.Some? && faultAt.value < |cands| then cands[..faultAt.value] else cands;
        service.notifications == old(service.notifications) + Materialize(made, old(service.nextId), now) &&
        service.nextId == old(service.nextId) + |made|
      ensures old(service.WellNumbered()) ==> service.WellNumbered()
    {
      notifications := GenerateSystemNotifications(service, bookingAlerts, roomAlerts, today, now, faultAt);
    }

    /**
     * `markAsRead`: ask the store first; only when it succeeds does the
     * local list mark its entries with that Id as read.
     */
    method MarkAsRead(service: Notifications.NotificationService, id: int)
      modifies this, service
      ensures old(service.IndexOf(id)) == -1 ==> notifications == old(notifications)
      ensures old(service.IndexOf(id)) >= 0 ==> notifications == MarkReadLocal(old(notifications), id)
      ensures old(service.IndexOf(id)) == -1 ==> service.notifications == old(service.notifications)
      ensures old(service.IndexOf(id)) >= 0 ==>
        var i := old(service.IndexOf(id));
        service.notifications == old(service.notifications)[i := Notifications.AsRead(old(service.notifications[i]))]
      ensures service.nextId == old(service.nextId)
    {
      var r := service.MarkAsRead(id);
      if r.Ok? {
        notifications := MarkReadLocal(notifications, id);
      }
    }
  }

  /**
   * `prev.map(n => n.Id === id ? { ...n, isRead: true } : n)`: the entries
   * with that Id become read, every other entry and the order stay.
   */
  function MarkReadLocal(ns: seq<Notification>, id: int): (r: seq<Notification>)
    ensures |r| == |ns|
    ensures forall i :: 0 <= i < |ns| && ns[i].Id == id ==> r[i] == ns[i].(isRead := true)
    ensures forall i :: 0 <= i < |ns| && ns[i].Id != id ==> r[i] == ns[i]
  {
    Seqs.Map(ns, (n: Notification) => if n.Id == id then n.(isRead := true) else n)
  }
}

/** backend/app/services/notification_service.py: creating, updating and
    marking notifications, and the reminder generator with its window, its
    fallback reminder lead time, its past-date skip and its duplicate check. */
module Notifications {
  import opened Common
  import opened Dates
  import opened Records
  import opened Store
  import opened Billing

  /** A `NotificationCreate` (the message text is not modelled). */
  datatype NotificationCreate = NotificationCreate(
    kind: NotificationType,
    subject: string,
    subscriptionId: Option<int>,
    status: NotificationStatus,
    scheduledAt: DateTime)

  /** A `NotificationUpdate`: `Some` marks a field the client set. */
  datatype NotificationUpdate = NotificationUpdate(
    kind: Option<NotificationType>,
    subject: Option<string>,
    status: Option<NotificationStatus>,
    scheduledAt: Option<DateTime>)

  /** `if notification.subscription_id:` — set and non-zero. */
  predicate Truthy(id: Option<int>) {
    id.Some? && id.value != 0
  }

  /** The stored row for a created notification. */
  function NotificationFromCreate(id: int, userId: int, c: NotificationCreate): (r: Notification)
    ensures r.id == id && r.userId == userId && r.subscriptionId == c.subscriptionId
    ensures r.kind == c.kind && r.subject == c.subject
    ensures r.status == c.status && r.scheduledAt == c.scheduledAt
    ensures r.sentAt.None? && r.readAt.None?
  {
    Notification(id, userId, c.subscriptionId, c.kind, c.subject, c.status, c.scheduledAt, None, None)
  }

  /** `create_notification`: a set, non-zero subscription id must name one of the
      user's subscriptions (else 404 and nothing stored); the row is appended. */
  method CreateNotification(db: Db, c: NotificationCreate, userId: int) returns (r: Result<Notification, Error>)
    modifies db
    ensures db.subscriptions == old(db.subscriptions) && db.categories == old(db.categories)
    ensures db.payments == old(db.payments)
    ensures db.nextSubscriptionId == old(db.nextSubscriptionId) && db.nextPaymentId == old(db.nextPaymentId)
    ensures Truthy(c.subscriptionId) && FindSubscription(old(db.subscriptions), c.subscriptionId.value, userId).None? ==>
      r == Err(NotFound) && db.notifications == old(db.notifications)
      && db.nextNotificationId == old(db.nextNotificationId)
    ensures !(Truthy(c.subscriptionId) && FindSubscription(old(db.subscriptions), c.subscriptionId.value, userId).None?) ==>
      var row := NotificationFromCreate(old(db.nextNotificationId), userId, c);
      r == Ok(row) && db.notifications == old(db.notifications) + [row]
      && db.nextNotificationId == old(db.nextNotificationId) + 1
  {
    if Truthy(c.subscriptionId) && FindSubscription(db.subscriptions, c.subscriptionId.value, userId).None? {
      return Err(NotFound);
    }
    var row := NotificationFromCreate(db.nextNotificationId, userId, c);
    db.notifications := db.notifications + [row];
    db.nextNotificationId := db.nextNotificationId + 1;
    r := Ok(row);
  }

  /** `setattr` of every field set in the notification update, and nothing else. */
  function ApplyNotificationUpdate(n: Notification, u: NotificationUpdate): (r: Notification)
    ensures r.id == n.id && r.userId == n.userId && r.subscriptionId == n.subscriptionId
    ensures r.sentAt == n.sentAt && r.readAt == n.readAt
    ensures r.kind == OrElse(u.kind, n.kind) && r.subject == OrElse(u.subject, n.subject)
    ensures r.status == OrElse(u.status, n.status) && r.scheduledAt == OrElse(u.scheduledAt, n.scheduledAt)
  {
    n.(kind := OrElse(u.kind, n.kind), subject := OrElse(u.subject, n.subject),
       status := OrElse(u.status, n.status), scheduledAt := OrElse(u.scheduledAt, n.scheduledAt))
  }

  /** An update leaves a notification alone when it sets nothing, and applying it twice is applying it once. */
  lemma ApplyNotificationUpdateLaws(n: Notification, u: NotificationUpdate)
    ensures ApplyNotificationUpdate(n, NotificationUpdate(None, None, None, None)) == n
    ensures ApplyNotificationUpdate(ApplyNotificationUpdate(n, u), u) == ApplyNotificationUpdate(n, u)
  {
  }

  /** `update_notification`: looked up by id alone; 404 when absent. */
  method UpdateNotification(db: Db, notificationId: int, u: NotificationUpdate) returns (r: Result<Notification, Error>)
    modifies db
    ensures db.subscriptions == old(db.subscriptions) && db.categories == old(db.categories)
    ensures db.payments == old(db.payments) && db.nextNotificationId == old(db.nextNotificationId)
    ensures db.nextSubscriptionId == old(db.nextSubscriptionId) && db.nextPaymentId == old(db.nextPaymentId)
    ensures FindNotification(old(db.notifications), notificationId).None? ==>
      r == Err(NotFound) && db.notifications == old(db.notifications)
    ensures FindNotification(old(db.notifications), notificationId).Some? ==>
      var k := FindNotification(old(db.notifications), notificationId).value;
      var n := ApplyNotificationUpdate(old(db.notifications)[k], u);
      r == Ok(n) && db.notifications == old(db.notifications)[k := n]
  {
    var found := FindNotification(db.notifications, notificationId);
    if found.None? {
      return Err(NotFound);
    }
    var n := ApplyNotificationUpdate(db.notifications[found.value], u);
    db.notifications := db.notifications[found.value := n];
    r := Ok(n);
  }

  /** The row after `mark_notification_as_read` at time `now`. */
  function MarkedRead(n: Notification, now: DateTime): (r: Notification)
    ensures r.status == Read && r.readAt == Some(now)
    ensures r.(status := n.status, readAt := n.readAt) == n
  {
    n.(status := Read, readAt := Some(now))
  }

  /** The row after `mark_notification_as_sent` at time `now`. */
  function MarkedSent(n: Notification, now: DateTime): (r: Notification)
    ensures r.status == Sent && r.sentAt == Some(now)
    ensures r.(status := n.status, sentAt := n.sentAt) == n
  {
    n.(status := Sent, sentAt := Some(now))
  }

  /** Neither mark looks at the prior status: reading a sent reminder keeps its
      send time, and a read notification can be marked sent again. */
  lemma MarkTransitions(n: Notification, t1: DateTime, t2: DateTime)
    ensures MarkedRead(MarkedSent(n, t1), t2).status == Read
    ensures MarkedRead(MarkedSent(n, t1), t2).sentAt == Some(t1)
    ensures MarkedSent(MarkedRead(n, t1), t2).status == Sent
    ensures MarkedSent(MarkedRead(n, t1), t2).readAt == Some(t1)
  {
  }

  /** `mark_notification_as_read`: looked up by id alone; 404 when absent. */
  method MarkAsRead(db: Db, notificationId: int, now: DateTime) returns (r: Result<Notification, Error>)
    modifies db
    ensures db.subscriptions == old(db.subscriptions) && db.categories == old(db.categories)
    ensures db.payments == old(db.payments) && db.nextNotificationId == old(db.nextNotificationId)
    ensures db.nextSubscriptionId == old(db.nextSubscriptionId) && db.nextPaymentId == old(db.nextPaymentId)
    ensures FindNotification(old(db.notifications), notificationId).None? ==>
      r == Err(NotFound) && db.notifications == old(db.notifications)
    ensures FindNotification(old(db.notifications), notificationId).Some? ==>
      var k := FindNotification(old(db.notifications), notificationId).value;
      var n := MarkedRead(old(db.notifications)[k], now);
      r == Ok(n) && db.notifications == old(db.notifications)[k := n]
  {
    var found := FindNotification(db.notifications, notificationId);
    if found.None? {
      return Err(NotFound);
    }
    var n := MarkedRead(db.notifications[found.value], now);
    db.notifications := db.notifications[found.value := n];
    r := Ok(n);
  }

  /** `mark_notification_as_sent`: looked up by id alone; 404 when absent. */
  method MarkAsSent(db: Db, notificationId: int, now: DateTime) returns (r: Result<Notification, Error>)
    modifies db
    ensures db.subscriptions == old(db.subscriptions) && db.categories == old(db.categories)
    ensures db.payments == old(db.payments) && db.nextNotificationId == old(db.nextNotificationId)
    ensures db.nextSubscriptionId == old(db.nextSubscriptionId) && db.nextPaymentId == old(db.nextPaymentId)
    ensures FindNotification(old(db.notifications), notificationId).None? ==>
      r == Err(NotFound) && db.notifications == old(db.notifications)
    ensures FindNotification(old(db.notifications), notificationId).Some? ==>
      var k := FindNotification(old(db.notifications), notificationId).value;
      var n := MarkedSent(old(db.notifications)[k], now);
      r == Ok(n) && db.notifications == old(db.notifications)[k := n]
  {
    var found := FindNotification(db.notifications, notificationId);
    if found.None? {
      return Err(NotFound);
    }
    var n := MarkedSent(db.notifications[found.value], now);
    db.notifications := db.notifications[found.value := n];
    r := Ok(n);
  }

  /** The request `create_subscription_reminder` builds: an email, pending,
      scheduled at midnight `daysBefore` days ahead of the next billing date. */
  function ReminderRequest(s: Subscription, daysBefore: int): (c: NotificationCreate)
    requires ValidDate(s.nextBillingDate)
    ensures c.kind == Email && c.status == Pending && c.subscriptionId == Some(s.id)
    ensures c.scheduledAt == Midnight(AddDays(s.nextBillingDate, -daysBefore))
    ensures daysBefore > 0 ==> Before(c.scheduledAt.date, s.nextBillingDate)
    ensures c.subject == s.name + " subscription reminder"
  {
    NotificationCreate(Email, s.name + " subscription reminder", Some(s.id), Pending,
                       Midnight(AddDays(s.nextBillingDate, -daysBefore)))
  }

  /** `create_subscription_reminder`: the reminder is created for the
      subscription's own user, which owns it, so it is always stored. */
  method CreateSubscriptionReminder(db: Db, s: Subscription, daysBefore: int) returns (r: Notification)
    requires ValidDate(s.nextBillingDate) && s in db.subscriptions
    modifies db
    ensures db.subscriptions == old(db.subscriptions) && db.categories == old(db.categories)
    ensures db.payments == old(db.payments)
    ensures db.nextSubscriptionId == old(db.nextSubscriptionId) && db.nextPaymentId == old(db.nextPaymentId)
    ensures r == NotificationFromCreate(old(db.nextNotificationId), s.userId, ReminderRequest(s, daysBefore))
    ensures db.notifications == old(db.notifications) + [r]
    ensures db.nextNotificationId == old(db.nextNotificationId) + 1
  {
    var k :| 0 <= k < |db.subscriptions| && db.subscriptions[k] == s;
    assert db.subscriptions[k].id == s.id && db.subscriptions[k].userId == s.userId;
    var created := CreateNotification(db, ReminderRequest(s, daysBefore), s.userId);
    r := created.value;
  }

  /** `subscription.reminder_days or default_reminder_days`: `None` and 0 fall back. */
  function ReminderDays(s: Subscription, defaultDays: int): (d: int)
    ensures s.reminderDays.Some? && s.reminderDays.value != 0 ==> d == s.reminderDays.value
    ensures s.reminderDays.None? || s.reminderDays.value == 0 ==> d == defaultDays
  {
    match s.reminderDays
    case Some(v) => if v != 0 then v else defaultDays
    case None => defaultDays
  }

  /** A notification that suppresses a new reminder for subscription `sid` at
      time `now`: about it, pending or sent, and scheduled after `now - 1 day`. */
  predicate IsRecentReminder(n: Notification, sid: int, now: DateTime)
    requires ValidDateTime(now)
  {
    n.subscriptionId == Some(sid) && (n.status == Pending || n.status == Sent)
    && DateTimeBefore(DayEarlier(now), n.scheduledAt)
  }

  /** The duplicate query of `generate_subscription_reminders`: the first suppressing notification. */
  function FindRecentReminder(notes: seq<Notification>, sid: int, now: DateTime): (r: Option<nat>)
    requires ValidDateTime(now)
    ensures r.Some? ==> r.value < |notes| && IsRecentReminder(notes[r.value], sid, now)
    ensures r.None? <==> forall j :: 0 <= j < |notes| ==> !IsRecentReminder(notes[j], sid, now)
  {
    if notes == [] then None
    else if IsRecentReminder(notes[0], sid, now) then Some(0)
    else match FindRecentReminder(notes[1..], sid, now)
      case None => None
      case Some(k) => Some(k + 1)
  }

  /** What one pass of the reminder loop has produced so far. */
  datatype ReminderState = ReminderState(notifications: seq<Notification>, nextId: int, created: seq<Notification>)

  /** One iteration of the loop of `generate_subscription_reminders` for subscription `s`. */
  function Step(s: Subscription, st: ReminderState, now: DateTime, defaultDays: int): ReminderState
    requires ValidDate(s.nextBillingDate) && ValidDateTime(now)
  {
    var days := ReminderDays(s, defaultDays);
    if Before(AddDays(s.nextBillingDate, -days), now.date) then st
    else if FindRecentReminder(st.notifications, s.id, now).Some? then st
    else
      var n := NotificationFromCreate(st.nextId, s.userId, ReminderRequest(s, days));
      ReminderState(st.notifications + [n], st.nextId + 1, st.created + [n])
  }

  predicate AllDated(due: seq<Subscription>) {
    forall k :: 0 <= k < |due| ==> ValidDate(due[k].nextBillingDate)
  }

  /** The loop over the due subscriptions, in order. */
  function Run(due: seq<Subscription>, st: ReminderState, now: DateTime, defaultDays: int): ReminderState
    requires AllDated(due) && ValidDateTime(now)
    decreases |due|
  {
    if due == [] then st
    else Run(due[1..], Step(due[0], st, now, defaultDays), now, defaultDays)
  }

  /** A reminder the generator may create on day `today`: a pending email
      scheduled at midnight of a day no earlier than `today`. */
  predicate GoodReminder(n: Notification, today: Date) {
    n.kind == Email && n.status == Pending && n.scheduledAt.micros == 0
    && NotAfter(today, n.scheduledAt.date) && n.sentAt.None? && n.readAt.None?
  }

  /** A run only appends: the stored notifications grow by exactly the created
      reminders, each a good reminder about one of the due subscriptions. */
  ghost predicate Appends(st: ReminderState, r: ReminderState, due: seq<Subscription>, today: Date) {
    && |st.created| <= |r.created|
    && r.created[..|st.created|] == st.created
    && r.notifications == st.notifications + r.created[|st.created|..]
    && r.nextId == st.nextId + |r.created| - |st.created|
    && AllGood(r.created[|st.created|..], today)
    && AllAbout(r.created[|st.created|..], due)
  }

  ghost predicate AllGood(cs: seq<Notification>, today: Date) {
    forall k :: 0 <= k < |cs| ==> GoodReminder(cs[k], today)
  }

  /** The notification is about one of `due`, and belongs to its user. */
  ghost predicate About(n: Notification, due: seq<Subscription>) {
    exists s :: s in due && n.subscriptionId == Some(s.id) && n.userId == s.userId
  }

  ghost predicate AllAbout(cs: seq<Notification>, due: seq<Subscription>) {
    forall k :: 0 <= k < |cs| ==> About(cs[k], due)
  }

  lemma AboutWiden(n: Notification, d: seq<Subscription>, e: seq<Subscription>)
    requires About(n, d) || About(n, e)
    ensures About(n, d + e)
  {
    if About(n, d) {
      var s :| s in d && n.subscriptionId == Some(s.id) && n.userId == s.userId;
      assert s in d + e;
    } else {
      var s :| s in e && n.subscriptionId == Some(s.id) && n.userId == s.userId;
      assert s in d + e;
    }
  }

  lemma GoodConcat(x: seq<Notification>, y: seq<Notification>, today: Date)
    requires AllGood(x, today) && AllGood(y, today)
    ensures AllGood(x + y, today)
  {
    forall k | 0 <= k < |x + y|
      ensures GoodReminder((x + y)[k], today)
    {
      if k < |x| {
        assert (x + y)[k] == x[k];
      } else {
        assert (x + y)[k] == y[k - |x|];
      }
    }
  }

  lemma AboutConcat(x: seq<Notification>, y: seq<Notification>, d: seq<Subscription>, e: seq<Subscription>)
    requires AllAbout(x, d) && AllAbout(y, e)
    ensures AllAbout(x + y, d + e)
  {
    forall k | 0 <= k < |x + y|
      ensures About((x + y)[k], d + e)
    {
      if k < |x| {
        assert (x + y)[k] == x[k];
      } else {
        assert (x + y)[k] == y[k - |x|];
      }
      AboutWiden((x + y)[k], d, e);
    }
  }

  lemma {:induction false} RunAppends(due: seq<Subscription>, st: ReminderState, now: DateTime, defaultDays: int)
    requires AllDated(due) && ValidDateTime(now)
    ensures Appends(st, Run(due, st, now, defaultDays), due, now.date)
    decreases |due|
  {
    if due == [] {
      assert st.created[|st.created|..] == [];
    } else {
      var st1 := Step(due[0], st, now, defaultDays);
      assert AllDated(due[1..]);
      RunAppends(due[1..], st1, now, defaultDays);
      StepAppends(due[0], st, now, defaultDays);
      assert due == [due[0]] + due[1..];
      AppendsCompose(st, st1, Run(due[1..], st1, now, defaultDays), [due[0]], due[1..], now.date);
    }
  }

  /** One step appends at most the one reminder it creates. */
  lemma StepAppends(s: Subscription, st: ReminderState, now: DateTime, defaultDays: int)
    requires ValidDate(s.nextBillingDate) && ValidDateTime(now)
    ensures Appends(st, Step(s, st, now, defaultDays), [s], now.date)
  {
    var st1 := Step(s, st, now, defaultDays);
    if st1 == st {
      assert st.created[|st.created|..] == [];
    } else {
      var n := st1.created[|st.created|];
      assert st1.created[|st.created|..] == [n];
      assert GoodReminder(n, now.date);
      assert s in [s] && n.subscriptionId == Some(s.id) && n.userId == s.userId;
      assert About(n, [s]);
    }
  }

  /** Appending in two stages is appending once. */
  lemma AppendsCompose(st: ReminderState, mid: ReminderState, r: ReminderState,
                       first: seq<Subscription>, rest: seq<Subscription>, today: Date)
    requires Appends(st, mid, first, today) && Appends(mid, r, rest, today)
    ensures Appends(st, r, first + rest, today)
  {
    var a, b := |st.created|, |mid.created|;
    var x, y := mid.created[a..], r.created[b..];
    assert r.created[..b] == mid.created;
    assert r.created[..a] == mid.created[..a];
    assert r.created[a..] == x + y;
    GoodConcat(x, y, today);
    AboutConcat(x, y, first, rest);
  }

  /** A suppressing notification stays suppressing when rows are appended. */
  lemma RecentPersists(notes: seq<Notification>, more: seq<Notification>, sid: int, now: DateTime)
    requires ValidDateTime(now) && FindRecentReminder(notes, sid, now).Some?
    ensures FindRecentReminder(notes + more, sid, now).Some?
  {
    var j := FindRecentReminder(notes, sid, now).value;
    assert (notes + more)[j] == notes[j];
  }

  /** The reminder date of `s`, before which no reminder is created. */
  function ReminderDate(s: Subscription, defaultDays: int): Date
    requires ValidDate(s.nextBillingDate)
  {
    AddDays(s.nextBillingDate, -ReminderDays(s, defaultDays))
  }

  /** After its step, a subscription whose reminder date is not past has a
      suppressing notification: the one found, or the one just created. */
  lemma StepCovers(s: Subscription, st: ReminderState, now: DateTime, defaultDays: int)
    requires ValidDate(s.nextBillingDate) && ValidDateTime(now)
    requires !Before(ReminderDate(s, defaultDays), now.date)
    ensures FindRecentReminder(Step(s, st, now, defaultDays).notifications, s.id, now).Some?
  {
    if FindRecentReminder(st.notifications, s.id, now).None? {
      var days := ReminderDays(s, defaultDays);
      var n := NotificationFromCreate(st.nextId, s.userId, ReminderRequest(s, days));
      assert Step(s, st, now, defaultDays).notifications == st.notifications + [n];
      ReminderIsRecent(s, st.nextId, now, days);
      LastIsRecent(st.notifications, n, s.id, now);
    }
  }

  /** A reminder created on time suppresses another one. */
  lemma ReminderIsRecent(s: Subscription, id: int, now: DateTime, days: int)
    requires ValidDate(s.nextBillingDate) && ValidDateTime(now)
    requires !Before(AddDays(s.nextBillingDate, -days), now.date)
    ensures IsRecentReminder(NotificationFromCreate(id, s.userId, ReminderRequest(s, days)), s.id, now)
  {
    DayEarlierBeforeMidnight(now, AddDays(s.nextBillingDate, -days));
  }

  /** A list ending in a suppressing notification has one. */
  lemma LastIsRecent(notes: seq<Notification>, n: Notification, sid: int, now: DateTime)
    requires ValidDateTime(now) && IsRecentReminder(n, sid, now)
    ensures FindRecentReminder(notes + [n], sid, now).Some?
  {
    assert (notes + [n])[|notes|] == n;
  }

  /** After a run, every due subscription whose reminder date is not past has a
      suppressing notification. */
  lemma {:induction false} RunCovers(due: seq<Subscription>, st: ReminderState, now: DateTime, defaultDays: int)
    requires AllDated(due) && ValidDateTime(now)
    ensures forall k :: 0 <= k < |due| && !Before(ReminderDate(due[k], defaultDays), now.date) ==>
              FindRecentReminder(Run(due, st, now, defaultDays).notifications, due[k].id, now).Some?
    decreases |due|
  {
    if due != [] {
      var st1 := Step(due[0], st, now, defaultDays);
      var r := Run(due, st, now, defaultDays);
      assert AllDated(due[1..]);
      assert r == Run(due[1..], st1, now, defaultDays);
      RunCovers(due[1..], st1, now, defaultDays);
      if !Before(ReminderDate(due[0], defaultDays), now.date) {
        StepCovers(due[0], st, now, defaultDays);
        RunKeepsRecent(due[1..], st1, now, defaultDays, due[0].id);
      }
      forall k | 1 <= k < |due| && !Before(ReminderDate(due[k], defaultDays), now.date)
        ensures FindRecentReminder(r.notifications, due[k].id, now).Some?
      {
        assert due[1..][k - 1] == due[k];
      }
    }
  }

  /** A suppressing notification is still there after a run. */
  lemma RunKeepsRecent(due: seq<Subscription>, st: ReminderState, now: DateTime, defaultDays: int, sid: int)
    requires AllDated(due) && ValidDateTime(now)
    requires FindRecentReminder(st.notifications, sid, now).Some?
    ensures FindRecentReminder(Run(due, st, now, defaultDays).notifications, sid, now).Some?
  {
    var r := Run(due, st, now, defaultDays);
    RunAppends(due, st, now, defaultDays);
    RecentPersists(st.notifications, r.created[|st.created|..], sid, now);
  }

  /** A run in which every due subscription is past its reminder date or
      already suppressed changes nothing. */
  lemma {:induction false} RunIdle(due: seq<Subscription>, st: ReminderState, now: DateTime, defaultDays: int)
    requires AllDated(due) && ValidDateTime(now)
    requires forall k :: 0 <= k < |due| ==>
               Before(ReminderDate(due[k], defaultDays), now.date)
               || FindRecentReminder(st.notifications, due[k].id, now).Some?
    ensures Run(due, st, now, defaultDays) == st
    decreases |due|
  {
    if due != [] {
      assert Step(due[0], st, now, defaultDays) == st;
      assert AllDated(due[1..]);
      forall k | 0 <= k < |due| - 1
        ensures Before(ReminderDate(due[1..][k], defaultDays), now.date)
                || FindRecentReminder(st.notifications, due[1..][k].id, now).Some?
      {
        assert due[1..][k] == due[k + 1];
      }
      RunIdle(due[1..], st, now, defaultDays);
    }
  }

  /** The tables after `generate_subscription_reminders(days_ahead, default_reminder_days)` at time `now`. */
  function Generated(subs: seq<Subscription>, notes: seq<Notification>, nextId: int,
                     now: DateTime, daysAhead: int, defaultDays: int): (r: ReminderState)
    requires forall i :: 0 <= i < |subs| ==> SchemaValid(subs[i])
    requires ValidDateTime(now)
  {
    var due := DueSoon(subs, now.date, daysAhead);
    DueDated(subs, now.date, daysAhead);
    Run(due, ReminderState(notes, nextId, []), now, defaultDays)
  }

  lemma DueDated(subs: seq<Subscription>, today: Date, daysAhead: int)
    requires forall i :: 0 <= i < |subs| ==> SchemaValid(subs[i])
    requires ValidDate(today)
    ensures AllDated(DueSoon(subs, today, daysAhead))
  {
    var due := DueSoon(subs, today, daysAhead);
    forall k | 0 <= k < |due|
      ensures ValidDate(due[k].nextBillingDate)
    {
      assert due[k] in subs;
      var j :| 0 <= j < |subs| && subs[j] == due[k];
      assert SchemaValid(subs[j]);
    }
  }

  /** Every created reminder is a pending email at midnight of a day no earlier
      than today, about a subscription in the window; the notification table only grows. */
  lemma GeneratedReminders(subs: seq<Subscription>, notes: seq<Notification>, nextId: int,
                           now: DateTime, daysAhead: int, defaultDays: int)
    requires forall i :: 0 <= i < |subs| ==> SchemaValid(subs[i])
    requires ValidDateTime(now)
    ensures var r := Generated(subs, notes, nextId, now, daysAhead, defaultDays);
      && r.notifications == notes + r.created
      && r.nextId == nextId + |r.created|
      && (forall k :: 0 <= k < |r.created| ==> GoodReminder(r.created[k], now.date))
      && (forall k :: 0 <= k < |r.created| ==>
            exists s :: s in subs && InWindow(s, now.date, AddDays(now.date, daysAhead))
                        && r.created[k].subscriptionId == Some(s.id))
  {
    var due := DueSoon(subs, now.date, daysAhead);
    DueDated(subs, now.date, daysAhead);
    var st0 := ReminderState(notes, nextId, []);
    RunAppends(due, st0, now, defaultDays);
    var r := Run(due, st0, now, defaultDays);
    assert r.created[|st0.created|..] == r.created;
    assert AllGood(r.created, now.date) && AllAbout(r.created, due);
    forall k | 0 <= k < |r.created|
      ensures exists s :: s in subs && InWindow(s, now.date, AddDays(now.date, daysAhead))
                          && r.created[k].subscriptionId == Some(s.id)
    {
      assert About(r.created[k], due);
      var s :| s in due && r.created[k].subscriptionId == Some(s.id) && r.created[k].userId == s.userId;
      assert s in subs && InWindow(s, now.date, AddDays(now.date, daysAhead));
    }
  }

  /** Running the generator a second time at the same instant creates nothing. */
  lemma GenerateTwiceIdle(subs: seq<Subscription>, notes: seq<Notification>, nextId: int,
                          now: DateTime, daysAhead: int, defaultDays: int)
    requires forall i :: 0 <= i < |subs| ==> SchemaValid(subs[i])
    requires ValidDateTime(now)
    ensures var r := Generated(subs, notes, nextId, now, daysAhead, defaultDays);
      var r2 := Generated(subs, r.notifications, r.nextId, now, daysAhead, defaultDays);
      r2.created == [] && r2.notifications == r.notifications && r2.nextId == r.nextId
  {
    var due := DueSoon(subs, now.date, daysAhead);
    DueDated(subs, now.date, daysAhead);
    var r := Run(due, ReminderState(notes, nextId, []), now, defaultDays);
    RunCovers(due, ReminderState(notes, nextId, []), now, defaultDays);
    RunIdle(due, ReminderState(r.notifications, r.nextId, []), now, defaultDays);
  }

  /** The run over `due[i..]` is the step for `due[i]`, then the run over the rest. */
  lemma RunUnfold(due: seq<Subscription>, i: nat, st: ReminderState, now: DateTime, defaultDays: int)
    requires AllDated(due) && ValidDateTime(now) && i < |due|
    ensures AllDated(due[i..]) && AllDated(due[i + 1..])
    ensures Run(due[i..], st, now, defaultDays) == Run(due[i + 1..], Step(due[i], st, now, defaultDays), now, defaultDays)
  {
    assert due[i..][0] == due[i] && due[i..][1..] == due[i + 1..];
  }

  /** `generate_subscription_reminders` at time `now`: for each active
      subscription due within `daysAhead` days, a reminder at its reminder date,
      unless that date is past or a recent pending or sent one exists. */
  method GenerateSubscriptionReminders(db: Db, now: DateTime, daysAhead: int, defaultDays: int)
    returns (created: seq<Notification>)
    requires db.Valid() && ValidDateTime(now)
    modifies db
    ensures db.subscriptions == old(db.subscriptions) && db.categories == old(db.categories)
    ensures db.payments == old(db.payments)
    ensures db.nextSubscriptionId == old(db.nextSubscriptionId) && db.nextPaymentId == old(db.nextPaymentId)
    ensures var r := Generated(old(db.subscriptions), old(db.notifications), old(db.nextNotificationId),
                               now, daysAhead, defaultDays);
      created == r.created && db.notifications == r.notifications && db.nextNotificationId == r.nextId
  {
    var due := DueSoon(db.subscriptions, now.date, daysAhead);
    DueDated(db.subscriptions, now.date, daysAhead);
    ghost var st0 := ReminderState(db.notifications, db.nextNotificationId, []);
    created := [];
    var i := 0;
    while i < |due|
      invariant 0 <= i <= |due|
      invariant db.subscriptions == old(db.subscriptions) && db.categories == old(db.categories)
      invariant db.payments == old(db.payments)
      invariant db.nextSubscriptionId == old(db.nextSubscriptionId) && db.nextPaymentId == old(db.nextPaymentId)
      invariant Run(due[i..], ReminderState(db.notifications, db.nextNotificationId, created), now, defaultDays)
                == Run(due, st0, now, defaultDays)
    {
      RunUnfold(due, i, ReminderState(db.notifications, db.nextNotificationId, created), now, defaultDays);
      assert due[i] in db.subscriptions;
      created := RemindOne(db, due[i], now, defaultDays, created);
      i := i + 1;
    }
    assert due[i..] == [];
  }

  /** The body of the generator's loop for one due subscription. */
  method RemindOne(db: Db, s: Subscription, now: DateTime, defaultDays: int, created: seq<Notification>)
    returns (created': seq<Notification>)
    requires ValidDate(s.nextBillingDate) && ValidDateTime(now) && s in db.subscriptions
    modifies db
    ensures db.subscriptions == old(db.subscriptions) && db.categories == old(db.categories)
    ensures db.payments == old(db.payments)
    ensures db.nextSubscriptionId == old(db.nextSubscriptionId) && db.nextPaymentId == old(db.nextPaymentId)
    ensures ReminderState(db.notifications, db.nextNotificationId, created')
            == Step(s, ReminderState(old(db.notifications), old(db.nextNotificationId), created), now, defaultDays)
  {
    created' := created;
    var days := ReminderDays(s, defaultDays);
    var reminderDate := AddDays(s.nextBillingDate, -days);
    if !Before(reminderDate, now.date) {
      var existing := FindRecentReminder(db.notifications, s.id, now);
      if existing.None? {
        var n := CreateSubscriptionReminder(db, s, days);
        created' := created + [n];
      }
    }
  }
}

/**
 * The notification controller: notifications are created by a helper that
 * swallows every error, listed and counted per user, marked read, archived
 * and deleted by their owner, and broadcast by administrators to every user
 * in batches of 100.
 */
module Notifications {
  import opened Common
  import opened Entities
  import opened Database

  /** The models a notification's `relatedModel` may name. */
  const RelatedModels: set<string> := {"Booking", "InspectionRequest", "Payment", "Report", "Review", "Apartment"}

  /**
   * The document `new Notification({...})` builds, or `None` where its
   * `save()` fails validation: the type and priority must name schema
   * values, title and message are required (an empty string fails), and a
   * supplied `relatedModel` must be one of the schema's model names.
   */
  function NotificationDoc(userId: Id, nType: string, title: Option<string>, message: Option<string>,
                           priority: Option<string>, relatedId: Option<Id>, relatedModel: Option<string>)
    : (r: Option<Notification>)
    ensures r.Some? <==>
      ParseNotificationType(nType).Some? && Truthy(title) && Truthy(message) &&
      ParsePriority(OrDefault(priority, "medium")).Some? &&
      (relatedModel.None? || relatedModel.value in RelatedModels)
    ensures r.Some? ==>
      && NotificationTypeName(r.value.notificationType) == nType
      && r.value.user == userId && r.value.title == title.value && r.value.message == message.value
      && r.value.priority == (if Truthy(priority) then ParsePriority(priority.value).value else Medium)
      && !r.value.isRead && !r.value.isArchived && r.value.relatedId == relatedId && !r.value.broadcast
  {
    var t := ParseNotificationType(nType);
    var p := ParsePriority(OrDefault(priority, "medium"));
    if t.None? || !Truthy(title) || !Truthy(message) || p.None? then None
    else if relatedModel.Some? && relatedModel.value !in RelatedModels then None
    else Some(Notification(userId, t.value, title.value, message.value, p.value, false, false, relatedId, false))
  }

  /** The helper `createNotification`: the saved notification, or nothing when saving fails. */
  method CreateNotification(db: Db, userId: Id, nType: string, title: Option<string>, message: Option<string>,
                            priority: Option<string>, relatedId: Option<Id>, relatedModel: Option<string>)
    returns (created: Option<Id>)
    requires db.Valid()
    modifies db`notifications, db`nextId
    ensures db.Valid()
    ensures created.Some? <==> NotificationDoc(userId, nType, title, message, priority, relatedId, relatedModel).Some?
    ensures created.Some? ==>
      && created.value == old(db.nextId)
      && db.notifications == old(db.notifications)[created.value :=
           NotificationDoc(userId, nType, title, message, priority, relatedId, relatedModel).value]
      && db.nextId == old(db.nextId) + 1
    ensures created.None? ==> unchanged(db)
  {
    var doc := NotificationDoc(userId, nType, title, message, priority, relatedId, relatedModel);
    if doc.None? {
      return None;
    }
    created := Some(db.nextId);
    db.notifications := db.notifications[db.nextId := doc.value];
    db.nextId := db.nextId + 1;
  }

  /** A notification missing a priority gets the medium one. */
  lemma DefaultPriorityIsMedium(userId: Id, nType: string, title: Option<string>, message: Option<string>)
    requires NotificationDoc(userId, nType, title, message, None, None, None).Some?
    ensures NotificationDoc(userId, nType, title, message, None, None, None).value.priority == Medium
  {
  }

  // ---- getUserNotifications ----

  /** The listing filter: the user's non-archived notifications, narrowed by `read` and `type` when given. */
  predicate Listed(n: Notification, user: Id, read: Option<string>, nType: Option<string>)
  {
    && n.user == user && !n.isArchived
    && (read.Some? ==> n.isRead == (read.value == "true"))
    && (Truthy(nType) ==> NotificationTypeName(n.notificationType) == nType.value)
  }

  function ListedIds(ns: map<Id, Notification>, user: Id, read: Option<string>, nType: Option<string>): set<Id>
  {
    set k | k in ns && Listed(ns[k], user, read, nType)
  }

  /** The ids `unreadCount` counts: the user's unread notifications that are not archived. */
  function UnreadIds(ns: map<Id, Notification>, user: Id): set<Id>
  {
    set k | k in ns && ns[k].user == user && !ns[k].isRead && !ns[k].isArchived
  }

  datatype NotificationCounts = NotificationCounts(total: nat, pages: Option<int>, unreadCount: nat)

  /**
   * The counts in the `GET /notifications` answer. `limit` is the query
   * value after coercion to a number (20 when absent); a zero limit makes
   * `Math.ceil(total / limit)` a non-number, answered as `None`.
   */
  function GetUserNotifications(ns: map<Id, Notification>, user: Id, read: Option<string>, nType: Option<string>,
                                limit: Option<int>): (r: NotificationCounts)
    ensures r.total == |ListedIds(ns, user, read, nType)|
    ensures r.unreadCount == |UnreadIds(ns, user)|
    ensures limit.None? ==> r.pages.Some? && (r.pages.value - 1) * 20 < r.total <= r.pages.value * 20
    ensures limit.Some? && limit.value > 0 ==>
      r.pages.Some? && (r.pages.value - 1) * limit.value < r.total <= r.pages.value * limit.value
    ensures r.pages.None? <==> limit == Some(0)
  {
    var total := |ListedIds(ns, user, read, nType)|;
    NotificationCounts(total, PageCount(total, if limit.Some? then limit.value else 20), |UnreadIds(ns, user)|)
  }

  /** The unread count is what the listing with `read=false` and no type counts. */
  lemma UnreadCountIsUnreadListing(ns: map<Id, Notification>, user: Id, limit: Option<int>)
    ensures GetUserNotifications(ns, user, Some("false"), None, limit).total ==
            GetUserNotifications(ns, user, None, None, limit).unreadCount
  {
    assert ListedIds(ns, user, Some("false"), None) == UnreadIds(ns, user);
  }

  /** Read and unread listings split the unfiltered one. */
  lemma ReadFilterSplitsListing(ns: map<Id, Notification>, user: Id, nType: Option<string>)
    ensures |ListedIds(ns, user, None, nType)| ==
            |ListedIds(ns, user, Some("true"), nType)| + |ListedIds(ns, user, Some("false"), nType)|
  {
    var all, yes, no := ListedIds(ns, user, None, nType), ListedIds(ns, user, Some("true"), nType),
                        ListedIds(ns, user, Some("false"), nType);
    assert all == yes + no;
    assert yes * no == {};
  }

  // ---- per-notification handlers ----

  /** The guard shared by markAsRead, archiveNotification and deleteNotification. */
  function OwnerGuard(ns: map<Id, Notification>, caller: Principal, notificationId: Id): (code: Code)
    ensures code == NotFound <==> notificationId !in ns
    ensures code == Forbidden <==> notificationId in ns && ns[notificationId].user != caller.id
    ensures code in {Ok, NotFound, Forbidden}
  {
    if notificationId !in ns then NotFound
    else if ns[notificationId].user != caller.id then Forbidden
    else Ok
  }

  /** `PUT /notifications/:notificationId/read` (markAsRead). */
  method MarkAsRead(db: Db, caller: Principal, notificationId: Id) returns (code: Code)
    requires db.Valid()
    modifies db`notifications
    ensures db.Valid()
    ensures code == OwnerGuard(old(db.notifications), caller, notificationId)
    ensures code == Ok ==>
      db.notifications == old(db.notifications)[notificationId := old(db.notifications[notificationId]).(isRead := true)]
    ensures code != Ok ==> unchanged(db)
  {
    code := OwnerGuard(db.notifications, caller, notificationId);
    if code != Ok {
      return;
    }
    db.notifications := db.notifications[notificationId := db.notifications[notificationId].(isRead := true)];
  }

  /** `PUT /notifications/:notificationId/archive` (archiveNotification). */
  method ArchiveNotification(db: Db, caller: Principal, notificationId: Id) returns (code: Code)
    requires db.Valid()
    modifies db`notifications
    ensures db.Valid()
    ensures code == OwnerGuard(old(db.notifications), caller, notificationId)
    ensures code == Ok ==>
      db.notifications == old(db.notifications)[notificationId :=
        old(db.notifications[notificationId]).(isArchived := true)]
    ensures code != Ok ==> unchanged(db)
  {
    code := OwnerGuard(db.notifications, caller, notificationId);
    if code != Ok {
      return;
    }
    db.notifications := db.notifications[notificationId := db.notifications[notificationId].(isArchived := true)];
  }

  /** `DELETE /notifications/:notificationId` (deleteNotification). */
  method DeleteNotification(db: Db, caller: Principal, notificationId: Id) returns (code: Code)
    requires db.Valid()
    modifies db`notifications
    ensures db.Valid()
    ensures code == OwnerGuard(old(db.notifications), caller, notificationId)
    ensures code == Ok ==> db.notifications == old(db.notifications) - {notificationId}
    ensures code != Ok ==> unchanged(db)
  {
    code := OwnerGuard(db.notifications, caller, notificationId);
    if code != Ok {
      return;
    }
    db.notifications := db.notifications - {notificationId};
  }

  // ---- bulk handlers ----

  /** `updateMany({ user, isRead: false }, { $set: { isRead: true } })`. */
  function MarkedAllRead(ns: map<Id, Notification>, user: Id): (r: map<Id, Notification>)
    ensures r.Keys == ns.Keys
  {
    map k | k in ns :: if ns[k].user == user && !ns[k].isRead then ns[k].(isRead := true) else ns[k]
  }

  /** After markAllAsRead the user has nothing unread, archived or not, and other users' notifications are as they were. */
  lemma MarkedAllReadMeaning(ns: map<Id, Notification>, user: Id)
    ensures forall k :: k in ns && ns[k].user == user ==> MarkedAllRead(ns, user)[k] == ns[k].(isRead := true)
    ensures forall k :: k in ns && ns[k].user != user ==> MarkedAllRead(ns, user)[k] == ns[k]
    ensures UnreadIds(MarkedAllRead(ns, user), user) == {}
    ensures forall other :: other != user ==> UnreadIds(MarkedAllRead(ns, user), other) == UnreadIds(ns, other)
  {
    var r := MarkedAllRead(ns, user);
    forall k | k in ns && ns[k].user == user ensures r[k] == ns[k].(isRead := true) {
      if ns[k].isRead {
        assert ns[k].(isRead := true) == ns[k];
      }
    }
  }

  /** `PUT /notifications/read-all` (markAllAsRead). */
  method MarkAllAsRead(db: Db, caller: Principal) returns (code: Code)
    requires db.Valid()
    modifies db`notifications
    ensures db.Valid()
    ensures code == Ok
    ensures db.notifications == MarkedAllRead(old(db.notifications), caller.id)
  {
    db.notifications := MarkedAllRead(db.notifications, caller.id);
    code := Ok;
  }

  /** `DELETE /notifications/clear` (clearAllNotifications): `deleteMany({ user })`. */
  method ClearAllNotifications(db: Db, caller: Principal) returns (code: Code)
    requires db.Valid()
    modifies db`notifications
    ensures db.Valid()
    ensures code == Ok
    // exactly the caller's notifications are gone; every other one is kept as it was
    ensures forall k :: k in db.notifications <==> k in old(db.notifications) && old(db.notifications[k]).user != caller.id
    ensures forall k :: k in db.notifications ==> db.notifications[k] == old(db.notifications[k])
  {
    db.notifications := map k | k in db.notifications && db.notifications[k].user != caller.id :: db.notifications[k];
    code := Ok;
  }

  /** The preferences with each supplied flag (`!== undefined`) replaced. */
  function WithSettings(p: Preferences, email: Option<bool>, sms: Option<bool>, push: Option<bool>,
                        newsletter: Option<bool>): (r: Preferences)
    ensures r.email == (if email.Some? then email.value else p.email)
    ensures r.sms == (if sms.Some? then sms.value else p.sms)
    ensures r.push == (if push.Some? then push.value else p.push)
    ensures r.newsletter == (if newsletter.Some? then newsletter.value else p.newsletter)
  {
    Preferences(if email.Some? then email.value else p.email, if sms.Some? then sms.value else p.sms,
                if push.Some? then push.value else p.push,
                if newsletter.Some? then newsletter.value else p.newsletter)
  }

  /** Supplying no flag changes nothing, and the last value given for a flag wins. */
  lemma WithSettingsLaws(p: Preferences, e1: Option<bool>, s1: Option<bool>, p1: Option<bool>, n1: Option<bool>,
                         e2: bool, s2: bool, p2: bool, n2: bool)
    ensures WithSettings(p, None, None, None, None) == p
    ensures WithSettings(WithSettings(p, e1, s1, p1, n1), Some(e2), Some(s2), Some(p2), Some(n2)) == Preferences(e2, s2, p2, n2)
  {
  }

  /**
   * `PUT /notifications/settings` (updateNotificationSettings). The caller
   * is looked up among users; for an agent or administrator the lookup is
   * null and reading its preferences throws.
   */
  method UpdateNotificationSettings(db: Db, caller: Principal, email: Option<bool>, sms: Option<bool>,
                                    push: Option<bool>, newsletter: Option<bool>) returns (code: Code)
    requires db.Valid()
    modifies db`users
    ensures db.Valid()
    ensures code == ServerError <==> caller.id !in old(db.users)
    ensures code in {Ok, ServerError}
    ensures code == Ok ==>
      var u := old(db.users[caller.id]);
      db.users == old(db.users)[caller.id := u.(preferences := WithSettings(u.preferences, email, sms, push, newsletter))]
    ensures code != Ok ==> unchanged(db)
  {
    if caller.id !in db.users {
      return ServerError;
    }
    var u := db.users[caller.id];
    db.users := db.users[caller.id := u.(preferences := WithSettings(u.preferences, email, sms, push, newsletter))];
    code := Ok;
  }

  // ---- sendBroadcastNotification ----

  const BatchSize: nat := 100

  function Concat<T>(batches: seq<seq<T>>): seq<T>
  {
    if |batches| == 0 then [] else Concat(batches[..|batches| - 1]) + batches[|batches| - 1]
  }

  /**
   * The slices `for (i = 0; i < n; i += 100) slice(i, i + 100)` cuts:
   * together they are `xs`, every one has 1 to 100 elements, all but the last
   * exactly 100, and there are `ceil(|xs| / 100)` of them.
   */
  method Batches<T>(xs: seq<T>) returns (batches: seq<seq<T>>)
    ensures Concat(batches) == xs
    ensures forall b :: b in batches ==> 0 < |b| <= BatchSize
    ensures forall j :: 0 <= j < |batches| - 1 ==> |batches[j]| == BatchSize
    ensures (|batches| - 1) * BatchSize < |xs| <= |batches| * BatchSize || (|xs| == 0 && batches == [])
  {
    batches := [];
    var i := 0;
    while i < |xs|
      invariant 0 <= i <= |xs| + BatchSize
      invariant i == |batches| * BatchSize
      invariant i < |xs| ==> Concat(batches) == xs[..i]
      invariant i >= |xs| ==> Concat(batches) == xs && (|batches| - 1) * BatchSize < |xs|
      invariant forall b :: b in batches ==> 0 < |b| <= BatchSize
      invariant forall j :: 0 <= j < |batches| - 1 ==> |batches[j]| == BatchSize
      invariant i < |xs| ==> forall j :: 0 <= j < |batches| ==> |batches[j]| == BatchSize
    {
      var end := if i + BatchSize < |xs| then i + BatchSize else |xs|;
      var batch := xs[i..end];
      assert Concat(batches + [batch]) == Concat(batches) + batch by {
        assert (batches + [batch])[..|batches|] == batches;
      }
      assert xs[..i] + xs[i..end] == xs[..end];
      batches := batches + [batch];
      i := i + BatchSize;
      if end == |xs| {
        assert xs[..end] == xs;
      }
    }
  }

  /** `users.map(...)`: one broadcast notification per user, in the order the users came. */
  function BroadcastDocs(users: seq<Id>, t: NotificationType, title: string, message: string, p: Priority): (r: seq<Notification>)
    ensures |r| == |users|
    ensures forall j :: 0 <= j < |r| ==> r[j] == Notification(users[j], t, title, message, p, false, false, None, true)
  {
    seq(|users|, j requires 0 <= j < |users| => Notification(users[j], t, title, message, p, false, false, None, true))
  }

  /** The document of `docs` that goes under id `k` when they are stored from `start` on. */
  function Slot(docs: seq<Notification>, start: nat, k: nat): Notification
    requires start <= k < start + |docs|
  {
    docs[k - start]
  }

  /** `ns` with `docs` stored under the ids `start`, `start + 1`, ... */
  function Appended(ns: map<Id, Notification>, start: nat, docs: seq<Notification>): map<Id, Notification>
  {
    ns + map k: nat | start <= k < start + |docs| :: Slot(docs, start, k)
  }

  /** `insertMany(batch)`: the batch is stored under fresh consecutive ids. */
  method InsertMany(db: Db, batch: seq<Notification>)
    requires db.Valid()
    modifies db`notifications, db`nextId
    ensures db.Valid()
    ensures db.notifications == Appended(old(db.notifications), old(db.nextId), batch)
    ensures db.nextId == old(db.nextId) + |batch|
  {
    db.notifications := Appended(db.notifications, db.nextId, batch);
    db.nextId := db.nextId + |batch|;
  }

  /** Appending a batch after an append is appending both, one after the other. */
  lemma AppendedTwice(ns: map<Id, Notification>, start: nat, a: seq<Notification>, b: seq<Notification>)
    ensures Appended(Appended(ns, start, a), start + |a|, b) == Appended(ns, start, a + b)
  {
    var l, r := Appended(Appended(ns, start, a), start + |a|, b), Appended(ns, start, a + b);
    assert l.Keys == r.Keys;
    forall k | k in l ensures l[k] == r[k] {
      if start + |a| <= k < start + |a| + |b| {
        assert (a + b)[k - start] == b[k - start - |a|];
      } else if start <= k < start + |a| {
        assert (a + b)[k - start] == a[k - start];
      }
    }
  }

  /** The `for` loop: each batch in turn goes to `insertMany`. */
  method InsertBatches(db: Db, batches: seq<seq<Notification>>)
    requires db.Valid()
    modifies db`notifications, db`nextId
    ensures db.Valid()
    ensures db.notifications == Appended(old(db.notifications), old(db.nextId), Concat(batches))
    ensures db.nextId == old(db.nextId) + |Concat(batches)|
  {
    ghost var start := db.nextId;
    ghost var before := db.notifications;
    ghost var done: seq<Notification> := [];
    var i := 0;
    while i < |batches|
      invariant 0 <= i <= |batches|
      invariant db.Valid()
      invariant done == Concat(batches[..i])
      invariant db.notifications == Appended(before, start, done)
      invariant db.nextId == start + |done|
    {
      assert Concat(batches[..i + 1]) == done + batches[i] by {
        assert batches[..i + 1][..i] == batches[..i];
      }
      AppendedTwice(before, start, done, batches[i]);
      InsertMany(db, batches[i]);
      done := done + batches[i];
      i := i + 1;
    }
    assert batches[..|batches|] == batches;
  }

  /**
   * `POST /notifications/admin/broadcast` (sendBroadcastNotification).
   * `users` is what `User.find()` returns: every user once. Every batch
   * carries the same type and priority, so an invalid one fails the first
   * `insertMany` and nothing is stored; with no users there is no batch and
   * nothing is validated.
   */
  method SendBroadcastNotification(db: Db, users: seq<Id>, title: Option<string>, message: Option<string>,
                                   nType: Option<string>, priority: Option<string>) returns (code: Code, count: nat)
    requires db.Valid()
    requires forall u :: u in users <==> u in db.users
    requires forall i, j :: 0 <= i < j < |users| ==> users[i] != users[j]
    modifies db`notifications, db`nextId
    ensures db.Valid()
    ensures code == BadRequest <==> !Truthy(title) || !Truthy(message)
    ensures code == ServerError <==>
      Truthy(title) && Truthy(message) && |users| > 0 &&
      (ParseNotificationType(OrDefault(nType, "system")).None? || ParsePriority(OrDefault(priority, "medium")).None?)
    ensures code in {Ok, BadRequest, ServerError}
    ensures code == Ok ==>
      && count == |users|
      && (|users| > 0 ==>
            var docs := BroadcastDocs(users, ParseNotificationType(OrDefault(nType, "system")).value, title.value,
                                      message.value, ParsePriority(OrDefault(priority, "medium")).value);
            && db.notifications == Appended(old(db.notifications), old(db.nextId), docs)
            && db.nextId == old(db.nextId) + |users|)
      && (|users| == 0 ==> unchanged(db))
    ensures code != Ok ==> unchanged(db)
  {
    count := 0;
    if !Truthy(title) || !Truthy(message) {
      return BadRequest, count;
    }
    if |users| == 0 {
      return Ok, count;
    }
    var t := ParseNotificationType(OrDefault(nType, "system"));
    var p := ParsePriority(OrDefault(priority, "medium"));
    if t.None? || p.None? {
      return ServerError, count;
    }
    var docs := BroadcastDocs(users, t.value, title.value, message.value, p.value);
    var batches := Batches(docs);
    InsertBatches(db, batches);
    code, count := Ok, |users|;
  }

  /** Each user gets exactly one notification from a broadcast. */
  lemma BroadcastReachesEachUserOnce(users: seq<Id>, t: NotificationType, title: string, message: string, p: Priority, u: Id)
    requires forall i, j :: 0 <= i < j < |users| ==> users[i] != users[j]
    requires u in users
    ensures |set j | 0 <= j < |users| && BroadcastDocs(users, t, title, message, p)[j].user == u| == 1
  {
    var docs := BroadcastDocs(users, t, title, message, p);
    var w :| 0 <= w < |users| && users[w] == u;
    assert (set j | 0 <= j < |users| && docs[j].user == u) == {w};
  }
}

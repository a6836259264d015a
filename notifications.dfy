/** The notification controller: notifications are created from a template chosen by their
    type, listed by read state, marked read, and the unread ones counted. */
module Notifications {
  import opened Common
  import opened Records

  // ---------------------------------------------------------------- message templates

  /** The label of a kind of move in an ESTIMATE message; the comparison is case-sensitive and
      anything else is the generic label. */
  function Label(movingType: string): (r: string)
    ensures movingType != "small" && movingType != "home" && movingType != "office" ==> r == "이사"
  {
    if movingType == "small" then "소형이사"
    else if movingType == "home" then "가정이사"
    else if movingType == "office" then "사무실이사"
    else "이사"
  }

  const EstimateJoin: string := "님의 "
  const EstimateTail: string := " 견적이 도착했어요"
  const ConfirmedMessage: string := "요청하신 견적이 확정 되었어요"
  const MovingDayMessage: string := "오늘은 이사하는 날이에요. 즐거운 이사 되시길 바래요!"

  /** The ESTIMATE template: the mover's name, the label of the move, and a fixed tail. */
  function EstimateMessage(moverName: string, movingType: string): string
  {
    moverName + EstimateJoin + Label(movingType) + EstimateTail
  }

  /** The message the configuration gives a notification type. */
  function MessageFor(t: NotificationType, moverName: string, movingType: string): (r: string)
    ensures t == CONFIRMED ==> r == ConfirmedMessage
    ensures t == MOVINGDAY ==> r == MovingDayMessage
    ensures t == ESTIMATE ==> r == EstimateMessage(moverName, movingType)
  {
    match t
    case ESTIMATE => EstimateMessage(moverName, movingType)
    case CONFIRMED => ConfirmedMessage
    case MOVINGDAY => MovingDayMessage
  }

  /** Upper-case and unknown kinds of move get the generic label: only the lower-case names are
      recognised. */
  lemma UpperCaseIsGeneric(moverName: string)
    ensures EstimateMessage(moverName, "SMALL") == EstimateMessage(moverName, "unknown")
    ensures EstimateMessage(moverName, "SMALL") != EstimateMessage(moverName, "small")
  {
    var a := EstimateMessage(moverName, "SMALL");
    var b := EstimateMessage(moverName, "small");
    var head := moverName + EstimateJoin;
    assert a == head + ("이사" + EstimateTail);
    assert b == head + ("소형이사" + EstimateTail);
    assert a[|head| + 1] == '사';
    assert b[|head| + 1] == '형';
  }

  /** An ESTIMATE message starts with the mover's name and ends with the fixed tail, and two
      messages for the same mover are equal exactly when their labels are. */
  lemma EstimateMessageShape(moverName: string, t1: string, t2: string)
    ensures var m := EstimateMessage(moverName, t1);
      && m[..|moverName|] == moverName
      && m[|m| - |EstimateTail|..] == EstimateTail
    ensures EstimateMessage(moverName, t1) == EstimateMessage(moverName, t2) <==> Label(t1) == Label(t2)
  {
    var head := moverName + EstimateJoin;
    var m1 := EstimateMessage(moverName, t1);
    var m2 := EstimateMessage(moverName, t2);
    assert m1 == head + (Label(t1) + EstimateTail);
    assert m2 == head + (Label(t2) + EstimateTail);
    assert m1[..|moverName|] == moverName;
    if m1 == m2 {
      assert m1[|head|..] == Label(t1) + EstimateTail;
      assert m2[|head|..] == Label(t2) + EstimateTail;
      assert |Label(t1)| == |Label(t2)|;
      assert Label(t1) == (Label(t1) + EstimateTail)[..|Label(t1)|];
      assert Label(t2) == (Label(t2) + EstimateTail)[..|Label(t2)|];
    }
  }

  // ---------------------------------------------------------------- sendNotification

  /** The type names the configuration holds. */
  function ParseNotificationType(s: string): (r: Option<NotificationType>)
    ensures r.Some? <==> s == "ESTIMATE" || s == "CONFIRMED" || s == "MOVINGDAY"
  {
    if s == "ESTIMATE" then Some(ESTIMATE)
    else if s == "CONFIRMED" then Some(CONFIRMED)
    else if s == "MOVINGDAY" then Some(MOVINGDAY)
    else None
  }

  /** The property names every JavaScript object inherits: looking one of them up in the
      configuration object finds a value, so such a type passes the type check and only the
      insert, whose column is an enumeration, rejects it. */
  const InheritedKeys: set<string> := {
    "constructor", "toString", "toLocaleString", "valueOf", "hasOwnProperty", "isPrototypeOf",
    "propertyIsEnumerable", "__proto__", "__defineGetter__", "__defineSetter__",
    "__lookupGetter__", "__lookupSetter__"}

  /** The request body of `sendNotification`; `moverName` and `movingType` default to "". */
  datatype Send = Send(userId: Option<Id>, notificationType: Option<string>,
                       moverName: Option<string>, movingType: Option<string>)

  function OrEmpty(s: Option<string>): string
  {
    if s.Some? then s.value else ""
  }

  /** `sendNotification` (no access token): checks the body, picks the message and creates an
      unread notification for `userId`. A user id without an account fails the insert. */
  function SendNotificationStep(db: Db, body: Send): (st: Step<Id>)
    ensures st.reply.Fail? ==> st.db == db
    ensures st.reply.Ok? <==>
      && body.userId.Some? && Given(body.notificationType)
      && ParseNotificationType(body.notificationType.value).Some?
      && (body.notificationType.value == "ESTIMATE" ==> Given(body.moverName) && Given(body.movingType))
      && body.userId.value in db.users
    ensures body.userId.None? || !Given(body.notificationType) ==> st.reply == Fail(Missing("userId or notificationType"))
    ensures (body.userId.Some? && Given(body.notificationType) &&
             ParseNotificationType(body.notificationType.value).None? &&
             body.notificationType.value !in InheritedKeys) ==> st.reply == Fail(Invalid("notificationType"))
    ensures (body.userId.Some? && body.notificationType == Some("ESTIMATE") &&
             (!Given(body.moverName) || !Given(body.movingType))) ==> st.reply == Fail(Missing("moverName or movingType"))
    ensures st.reply.Ok? ==>
      var t := ParseNotificationType(body.notificationType.value).value;
      && st.reply.value == db.nextId
      && st.db == NewNotification(db, Notification(body.userId.value, t,
                                  MessageFor(t, OrEmpty(body.moverName), OrEmpty(body.movingType)), false))
  {
    if body.userId.None? || !Given(body.notificationType) then Reject(db, Missing("userId or notificationType"))
    else
      var tag := body.notificationType.value;
      if ParseNotificationType(tag).None? && tag !in InheritedKeys then Reject(db, Invalid("notificationType"))
      else if tag == "ESTIMATE" && (!Given(body.moverName) || !Given(body.movingType)) then
        Reject(db, Missing("moverName or movingType"))
      else if ParseNotificationType(tag).None? || body.userId.value !in db.users then Reject(db, ServerError)
      else
        var t := ParseNotificationType(tag).value;
        var n := Notification(body.userId.value, t, MessageFor(t, OrEmpty(body.moverName), OrEmpty(body.movingType)), false);
        Step(NewNotification(db, n), Ok(db.nextId))
  }

  lemma SendNotificationConsistent(db: Db, body: Send)
    requires Consistent(db)
    ensures Consistent(SendNotificationStep(db, body).db)
  {
    if SendNotificationStep(db, body).reply.Ok? {
      var t := ParseNotificationType(body.notificationType.value).value;
      NewNotificationKeeps(db, Notification(body.userId.value, t,
                           MessageFor(t, OrEmpty(body.moverName), OrEmpty(body.movingType)), false));
    }
  }

  /** A sent notification is one new unread row for the user with the type's message: the fixed
      text for CONFIRMED and MOVINGDAY, the mover's name and the move's label for ESTIMATE. */
  lemma SendEffect(db: Db, body: Send)
    requires FreshIds(db)
    requires SendNotificationStep(db, body).reply.Ok?
    ensures var st := SendNotificationStep(db, body);
      var id := st.reply.value;
      var n := st.db.notifications[id];
      && id !in db.notifications && st.db.notifications.Keys == db.notifications.Keys + {id}
      && n.userId == body.userId.value && !n.isRead
      && (body.notificationType == Some("CONFIRMED") ==> n.notificationType == CONFIRMED && n.message == ConfirmedMessage)
      && (body.notificationType == Some("MOVINGDAY") ==> n.notificationType == MOVINGDAY && n.message == MovingDayMessage)
      && (body.notificationType == Some("ESTIMATE") ==>
            n.notificationType == ESTIMATE &&
            n.message == body.moverName.value + EstimateJoin + Label(body.movingType.value) + EstimateTail)
      && (forall k :: k in db.notifications ==> st.db.notifications[k] == db.notifications[k])
      && st.db.(notifications := db.notifications, nextId := db.nextId) == db
  {
  }

  /** An inherited property name passes the type check but is refused by the insert. */
  lemma InheritedTypeFails(db: Db, u: Id)
    ensures SendNotificationStep(db, Send(Some(u), Some("toString"), None, None)) == Reject(db, ServerError)
  {
    assert "toString" in InheritedKeys;
  }

  method SendNotification(s: Store, body: Send) returns (r: Reply<Id>)
    modifies s
    ensures Step(s.Snapshot(), r) == SendNotificationStep(old(s.Snapshot()), body)
  {
    if body.userId.None? || !Given(body.notificationType) {
      return Fail(Missing("userId or notificationType"));
    }
    var tag := body.notificationType.value;
    var t := ParseNotificationType(tag);
    if t.None? && tag !in InheritedKeys {
      return Fail(Invalid("notificationType"));
    }
    if tag == "ESTIMATE" && (!Given(body.moverName) || !Given(body.movingType)) {
      return Fail(Missing("moverName or movingType"));
    }
    if t.None? || body.userId.value !in s.users {
      return Fail(ServerError);
    }
    var message := MessageFor(t.value, OrEmpty(body.moverName), OrEmpty(body.movingType));
    var id := s.InsertNotification(Notification(body.userId.value, t.value, message, false));
    return Ok(id);
  }

  // ---------------------------------------------------------------- notifications

  /** The read filter: `unRead` keeps the unread ones, `read` the read ones, anything else all. */
  function ReadFilter(filterBy: Option<string>): Option<bool>
  {
    if filterBy == Some("unRead") then Some(false)
    else if filterBy == Some("read") then Some(true)
    else None
  }

  function OfUser(u: Id, isRead: Option<bool>): Notification -> bool
  {
    (n: Notification) => n.userId == u && (isRead.Some? ==> n.isRead == isRead.value)
  }

  /** `notifications`: the caller's notifications in id order, filtered by read state. A token
      whose e-mail has no account makes the query read `id` of null: a server error. */
  function NotificationList(db: Db, auth: Option<string>, filterBy: Option<string>): (r: Reply<seq<Id>>)
    ensures auth.None? ==> r == Fail(Unauthorized)
    ensures auth.Some? && Caller(db, auth).Fail? ==> r == Fail(ServerError)
    ensures r.Ok? <==> Caller(db, auth).Ok?
    ensures r.Ok? ==>
      r.value == Select(db.notifications, db.nextId, OfUser(Caller(db, auth).value, ReadFilter(filterBy)))
  {
    var caller := Caller(db, auth);
    if caller.Fail? then Fail(if caller.why == Unauthorized then Unauthorized else ServerError)
    else Ok(Select(db.notifications, db.nextId, OfUser(caller.value, ReadFilter(filterBy))))
  }

  /** `unRead` lists exactly the caller's unread notifications, `read` exactly the read ones, and
      any other filter all of them; every listed one is the caller's. */
  lemma NotificationListed(db: Db, auth: Option<string>, filterBy: Option<string>, k: Id)
    requires FreshIds(db)
    requires NotificationList(db, auth, filterBy).Ok?
    ensures var u := Caller(db, auth).value;
      var rows := NotificationList(db, auth, filterBy).value;
      && (forall i :: 0 <= i < |rows| ==> rows[i] in db.notifications && db.notifications[rows[i]].userId == u)
      && (k in rows <==>
            k in db.notifications && db.notifications[k].userId == u &&
            (filterBy == Some("unRead") ==> !db.notifications[k].isRead) &&
            (filterBy == Some("read") ==> db.notifications[k].isRead))
  {
    if k in db.notifications {
      assert k < db.nextId;
    }
  }

  // ---------------------------------------------------------------- unreadNotificationsCount

  /** `unreadNotificationsCount`: the number of the caller's unread notifications. */
  function UnreadCount(db: Db, auth: Option<string>): (r: Reply<nat>)
    ensures auth.None? ==> r == Fail(Unauthorized)
    ensures auth.Some? && Caller(db, auth).Fail? ==> r == Fail(ServerError)
    ensures r.Ok? <==> Caller(db, auth).Ok?
    ensures r.Ok? ==>
      r.value == CountWhere(db.notifications, db.nextId, OfUser(Caller(db, auth).value, Some(false)))
  {
    var caller := Caller(db, auth);
    if caller.Fail? then Fail(if caller.why == Unauthorized then Unauthorized else ServerError)
    else Ok(CountWhere(db.notifications, db.nextId, OfUser(caller.value, Some(false))))
  }

  /** The badge agrees with the list: the unread count is the length of the `unRead` listing. */
  lemma UnreadCountMatchesList(db: Db, auth: Option<string>)
    ensures UnreadCount(db, auth).Ok? <==> NotificationList(db, auth, Some("unRead")).Ok?
    ensures UnreadCount(db, auth).Ok? ==>
      UnreadCount(db, auth).value == |NotificationList(db, auth, Some("unRead")).value|
  {
    if Caller(db, auth).Ok? {
      CountIsSelectLength(db.notifications, db.nextId, OfUser(Caller(db, auth).value, Some(false)));
    }
  }

  // ---------------------------------------------------------------- notification

  /** `notification`: marks notification `notificationId` read. Only the presence of an access
      token is checked; it is not verified, and the notification may be anybody's. */
  function MarkReadStep(db: Db, hasToken: bool, notificationId: Option<Id>): (st: Step<Notification>)
    ensures st.reply.Fail? ==> st.db == db
    ensures st.reply.Ok? <==> hasToken && notificationId.Some? && notificationId.value in db.notifications
    ensures !hasToken ==> st.reply == Fail(Unauthorized)
    ensures hasToken && notificationId.None? ==> st.reply == Fail(Missing("notificationId"))
    ensures hasToken && notificationId.Some? && notificationId.value !in db.notifications ==>
      st.reply == Fail(NotFound("notification"))
    ensures st.reply.Ok? ==>
      var k := notificationId.value;
      && st.reply.value == db.notifications[k].(isRead := true)
      && st.db == SetNotification(db, k, db.notifications[k].(isRead := true))
  {
    if !hasToken then Reject(db, Unauthorized)
    else if notificationId.None? then Reject(db, Missing("notificationId"))
    else if notificationId.value !in db.notifications then Reject(db, NotFound("notification"))
    else
      var k := notificationId.value;
      var n := db.notifications[k].(isRead := true);
      Step(SetNotification(db, k, n), Ok(n))
  }

  lemma MarkReadConsistent(db: Db, hasToken: bool, notificationId: Option<Id>)
    requires Consistent(db)
    ensures Consistent(MarkReadStep(db, hasToken, notificationId).db)
  {
    if MarkReadStep(db, hasToken, notificationId).reply.Ok? {
      var k := notificationId.value;
      SetNotificationKeeps(db, k, db.notifications[k].(isRead := true));
    }
  }

  /** Marking sets `isRead` of that notification and changes nothing else; marking again leaves
      the store as it is. */
  lemma MarkReadEffect(db: Db, notificationId: Id)
    requires notificationId in db.notifications
    ensures var st := MarkReadStep(db, true, Some(notificationId));
      && st.db.notifications.Keys == db.notifications.Keys
      && st.db.notifications[notificationId] == db.notifications[notificationId].(isRead := true)
      && (forall k :: k in db.notifications && k != notificationId ==> st.db.notifications[k] == db.notifications[k])
      && st.db.(notifications := db.notifications) == db
    ensures var db1 := MarkReadStep(db, true, Some(notificationId)).db;
      MarkReadStep(db1, true, Some(notificationId)).db == db1
  {
  }

  /** After a notification is marked read it leaves its owner's `unRead` listing. */
  lemma MarkedLeavesUnread(db: Db, auth: Option<string>, notificationId: Id)
    requires FreshIds(db) && notificationId in db.notifications
    requires NotificationList(db, auth, Some("unRead")).Ok?
    ensures var db1 := MarkReadStep(db, true, Some(notificationId)).db;
      && NotificationList(db1, auth, Some("unRead")).Ok?
      && notificationId !in NotificationList(db1, auth, Some("unRead")).value
  {
    var db1 := MarkReadStep(db, true, Some(notificationId)).db;
    assert db1.users == db.users && db1.nextId == db.nextId;
    assert Caller(db1, auth) == Caller(db, auth);
  }

  method MarkRead(s: Store, hasToken: bool, notificationId: Option<Id>) returns (r: Reply<Notification>)
    modifies s
    ensures Step(s.Snapshot(), r) == MarkReadStep(old(s.Snapshot()), hasToken, notificationId)
  {
    if !hasToken {
      return Fail(Unauthorized);
    }
    if notificationId.None? {
      return Fail(Missing("notificationId"));
    }
    var k := notificationId.value;
    if k !in s.notifications {
      return Fail(NotFound("notification"));
    }
    var n := s.notifications[k].(isRead := true);
    s.PutNotification(k, n);
    return Ok(n);
  }
}

/** The moving-request controller: a customer registers a move (one open request at a time) and
    lists the quotes received on it or on its earlier requests. */
module MovingInfos {
  import opened Common
  import opened Records

  // ---------------------------------------------------------------- createMovingInfo

  /** The request body of `createMovingInfo`. `movingDate` is the raw string; `parse` stands for
      `Date.parse` (None is NaN) and `now` for the current time, on the same scale. */
  datatype Intake = Intake(movingType: Option<string>, movingDate: Option<string>,
                           startAddress: Option<string>, endAddress: Option<string>)

  /** `createMovingInfo`: the caller registers a move and it becomes the caller's open request. */
  function CreateMovingInfoStep(db: Db, auth: Option<string>, body: Intake,
                                parse: string -> Option<int>, now: int): (st: Step<Id>)
    ensures Caller(db, auth).Fail? ==> st == Reject(db, Caller(db, auth).why)
    ensures Caller(db, auth).Ok? ==> st == RegisterAs(db, Caller(db, auth).value, body, parse, now)
  {
    var caller := Caller(db, auth);
    if caller.Fail? then Reject(db, caller.why) else RegisterAs(db, caller.value, body, parse, now)
  }

  /** The fresh request: no quotes, no invitations, not confirmed, no mover, no area. */
  function Registered(c: Id, t: MovingType, date: int, body: Intake): MovingInfo
    requires body.startAddress.Some? && body.endAddress.Some?
  {
    MovingInfo(c, t, date, body.startAddress.value, body.endAddress.value, None, 0, 0, false, false, None)
  }

  /** The checks and the effect of `createMovingInfo` once the caller's account `c` is known. A
      caller without a Customer profile makes the handler dereference null: a server error. */
  function RegisterAs(db: Db, c: Id, body: Intake, parse: string -> Option<int>, now: int): (st: Step<Id>)
    ensures st.reply.Fail? ==> st.db == db
    ensures st.reply.Ok? <==>
      && c in db.customers && db.customers[c].openMovingInfoId.None?
      && body.movingType.Some? && ParseMovingType(body.movingType.value).Some?
      && Given(body.movingDate) && Given(body.startAddress) && Given(body.endAddress)
      && parse(body.movingDate.value).Some? && parse(body.movingDate.value).value >= now
    ensures c !in db.customers ==> st.reply == Fail(ServerError)
    ensures c in db.customers && db.customers[c].openMovingInfoId.Some? ==> st.reply == Fail(AlreadyOpen)
    ensures (c in db.customers && db.customers[c].openMovingInfoId.None? &&
             Given(body.movingType) && ParseMovingType(body.movingType.value).None?) ==>
            st.reply == Fail(Invalid("movingType"))
    ensures (st.reply.Fail? && c in db.customers && db.customers[c].openMovingInfoId.None? &&
             Given(body.movingType) && ParseMovingType(body.movingType.value).Some? &&
             Given(body.movingDate) && Given(body.startAddress) && Given(body.endAddress) &&
             parse(body.movingDate.value).Some?) ==>
            st.reply == Fail(PastDate)
    ensures st.reply.Ok? ==>
      var info := Registered(c, ParseMovingType(body.movingType.value).value, parse(body.movingDate.value).value, body);
      && st.reply.value == db.nextId
      && st.db == SetCustomer(NewMovingInfo(db, info), c, db.customers[c].(openMovingInfoId := Some(db.nextId)))
  {
    if c !in db.customers then Reject(db, ServerError)
    else if db.customers[c].openMovingInfoId.Some? then Reject(db, AlreadyOpen)
    else if !Given(body.movingType) then Reject(db, Missing("movingType"))
    else if ParseMovingType(body.movingType.value).None? then Reject(db, Invalid("movingType"))
    else if !Given(body.movingDate) then Reject(db, Missing("movingDate"))
    else if !Given(body.startAddress) then Reject(db, Missing("startAddress"))
    else if !Given(body.endAddress) then Reject(db, Missing("endAddress"))
    else if parse(body.movingDate.value).None? then Reject(db, Invalid("movingDate"))
    else if parse(body.movingDate.value).value < now then Reject(db, PastDate)
    else
      var info := Registered(c, ParseMovingType(body.movingType.value).value, parse(body.movingDate.value).value, body);
      var id := db.nextId;
      Step(SetCustomer(NewMovingInfo(db, info), c, db.customers[c].(openMovingInfoId := Some(id))), Ok(id))
  }

  /** Registering keeps the store consistent: the new request is the caller's own. */
  lemma CreateMovingInfoConsistent(db: Db, auth: Option<string>, body: Intake, parse: string -> Option<int>, now: int)
    requires Consistent(db)
    ensures Consistent(CreateMovingInfoStep(db, auth, body, parse, now).db)
  {
    if Caller(db, auth).Ok? {
      RegisterAsConsistent(db, Caller(db, auth).value, body, parse, now);
    }
  }

  lemma RegisterAsConsistent(db: Db, c: Id, body: Intake, parse: string -> Option<int>, now: int)
    requires Consistent(db)
    ensures Consistent(RegisterAs(db, c, body, parse, now).db)
  {
    if RegisterAs(db, c, body, parse, now).reply.Ok? {
      var info := Registered(c, ParseMovingType(body.movingType.value).value, parse(body.movingDate.value).value, body);
      var d1 := NewMovingInfo(db, info);
      var d := SetCustomer(d1, c, db.customers[c].(openMovingInfoId := Some(db.nextId)));
      assert RegisterAs(db, c, body, parse, now).db == d;
      NewMovingInfoKeeps(db, info);
      assert c in d1.users;
      SetCustomerKeeps(d1, c, db.customers[c].(openMovingInfoId := Some(db.nextId)));
      assert Consistent(d);
    }
  }

  /** A registration adds one request of the caller with the given type, date and addresses,
      nothing quoted or confirmed yet, makes it the caller's open request, and changes no other
      row. */
  lemma RegisterEffect(db: Db, c: Id, body: Intake, parse: string -> Option<int>, now: int)
    requires FreshIds(db)
    requires RegisterAs(db, c, body, parse, now).reply.Ok?
    ensures var st := RegisterAs(db, c, body, parse, now);
      var id := st.reply.value;
      var info := st.db.movingInfos[id];
      && id !in db.movingInfos && st.db.movingInfos.Keys == db.movingInfos.Keys + {id}
      && info.customerId == c && TypeName(info.movingType) == body.movingType.value
      && Some(info.movingDate) == parse(body.movingDate.value) && info.movingDate >= now
      && info.startAddress == body.startAddress.value && info.endAddress == body.endAddress.value
      && info.estimateCount == 0 && info.designatedCount == 0
      && !info.isConfirmed && !info.isDone && info.moverId.None?
      && (forall k :: k in db.movingInfos ==> st.db.movingInfos[k] == db.movingInfos[k])
      && st.db.customers == db.customers[c := Customer(Some(id))]
      && st.db.(movingInfos := db.movingInfos, customers := db.customers, nextId := db.nextId) == db
  {
  }

  /** One open request at a time: once a registration succeeds, the next one by the same caller
      fails with AlreadyOpen and changes nothing, whatever it carries. */
  lemma OneOpenRequest(db: Db, auth: Option<string>, first: Intake, second: Intake,
                       parse: string -> Option<int>, now: int, later: int)
    requires FreshIds(db)
    requires CreateMovingInfoStep(db, auth, first, parse, now).reply.Ok?
    ensures var db1 := CreateMovingInfoStep(db, auth, first, parse, now).db;
      && CreateMovingInfoStep(db1, auth, second, parse, later).reply == Fail(AlreadyOpen)
      && CreateMovingInfoStep(db1, auth, second, parse, later).db == db1
  {
    var db1 := CreateMovingInfoStep(db, auth, first, parse, now).db;
    UserByEmailStable(db, db1, auth.value);
  }

  method CreateMovingInfo(s: Store, auth: Option<string>, body: Intake,
                          parse: string -> Option<int>, now: int) returns (r: Reply<Id>)
    modifies s
    ensures Step(s.Snapshot(), r) == CreateMovingInfoStep(old(s.Snapshot()), auth, body, parse, now)
  {
    var caller := Caller(s.Snapshot(), auth);
    if caller.Fail? {
      return Fail(caller.why);
    }
    var c := caller.value;
    if c !in s.customers {
      return Fail(ServerError);
    }
    var customer := s.customers[c];
    if customer.openMovingInfoId.Some? {
      return Fail(AlreadyOpen);
    }
    if !Given(body.movingType) {
      return Fail(Missing("movingType"));
    }
    var t := ParseMovingType(body.movingType.value);
    if t.None? {
      return Fail(Invalid("movingType"));
    }
    if !Given(body.movingDate) {
      return Fail(Missing("movingDate"));
    }
    if !Given(body.startAddress) {
      return Fail(Missing("startAddress"));
    }
    if !Given(body.endAddress) {
      return Fail(Missing("endAddress"));
    }
    var date := parse(body.movingDate.value);
    if date.None? {
      return Fail(Invalid("movingDate"));
    }
    if date.value < now {
      return Fail(PastDate);
    }
    var id := s.InsertMovingInfo(Registered(c, t.value, date.value, body));
    s.PutCustomer(c, customer.(openMovingInfoId := Some(id)));
    return Ok(id);
  }

  // ---------------------------------------------------------------- movingInfoList

  /** The filter of the open request's quotes: `movingInfoId = openMovingInfoId`. */
  function OnRequest(open: Id): Estimate -> bool
  {
    (e: Estimate) => e.movingInfoId == open
  }

  /** The filter of the earlier quotes: the customer's, on any other request. */
  function OnEarlier(c: Id, open: Id): Estimate -> bool
  {
    (e: Estimate) => e.customerId == c && e.movingInfoId != open
  }

  /** `movingInfoList`: the quotes on the caller's open request (`filterBy=estimate`) or on its
      earlier requests (`filterBy=pastEstimate`), 0-indexed pages; `page` defaults to 0 and
      `size` to 8. An empty page is an error. */
  function MovingInfoList(db: Db, auth: Option<string>, filterBy: Option<string>,
                          page: QueryNum, size: QueryNum): (r: Reply<seq<Id>>)
    ensures Caller(db, auth).Fail? ==> r == Fail(Caller(db, auth).why)
    ensures Caller(db, auth).Ok? ==> r == ReceivedAs(db, Caller(db, auth).value, filterBy, page, size)
  {
    var caller := Caller(db, auth);
    if caller.Fail? then Fail(caller.why) else ReceivedAs(db, caller.value, filterBy, page, size)
  }

  /** The checks of `movingInfoList` once the caller's account `c` is known; the page itself
      skips `page * size` quotes. */
  function ReceivedAs(db: Db, c: Id, filterBy: Option<string>, page: QueryNum, size: QueryNum): (r: Reply<seq<Id>>)
    ensures c !in db.customers ==> r == Fail(NotFound("customer"))
    ensures c in db.customers && db.customers[c].openMovingInfoId.None? ==> r == Fail(NoOpenRequest)
    ensures (c in db.customers && db.customers[c].openMovingInfoId.Some? &&
             filterBy != Some("estimate") && filterBy != Some("pastEstimate")) ==> r == Fail(Invalid("filterBy"))
    ensures (c in db.customers && db.customers[c].openMovingInfoId.Some? &&
             (filterBy == Some("estimate") || filterBy == Some("pastEstimate")) &&
             (page.NotANumber? || size.NotANumber?)) ==> r == Fail(NotNumeric)
    ensures r.Ok? ==>
      && c in db.customers && db.customers[c].openMovingInfoId.Some?
      && (filterBy == Some("estimate") || filterBy == Some("pastEstimate"))
      && !page.NotANumber? && !size.NotANumber?
    ensures (c in db.customers && db.customers[c].openMovingInfoId.Some? &&
             (filterBy == Some("estimate") || filterBy == Some("pastEstimate")) &&
             !page.NotANumber? && !size.NotANumber?) ==>
      r == ReceivedPage(db, c, db.customers[c].openMovingInfoId.value, filterBy == Some("pastEstimate"),
                           Numeric(page, 0).value * Numeric(size, 8).value, Numeric(size, 8).value)
  {
    if c !in db.customers then Fail(NotFound("customer"))
    else if db.customers[c].openMovingInfoId.None? then Fail(NoOpenRequest)
    else if filterBy != Some("estimate") && filterBy != Some("pastEstimate") then Fail(Invalid("filterBy"))
    else if page.NotANumber? || size.NotANumber? then Fail(NotNumeric)
    else
      var p := Numeric(page, 0).value;
      var n := Numeric(size, 8).value;
      ReceivedPage(db, c, db.customers[c].openMovingInfoId.value, filterBy == Some("pastEstimate"), p * n, n)
  }

  /** One page of the selected quotes in id order, skipping `skip` and taking `take`. */
  function ReceivedPage(db: Db, c: Id, open: Id, past: bool, skip: int, take: int): (r: Reply<seq<Id>>)
    ensures skip < 0 ==> r == Fail(ServerError)
    ensures skip >= 0 &&
            |Window(Select(db.estimates, db.nextId, if past then OnEarlier(c, open) else OnRequest(open)), skip, take).value| == 0 ==>
            r == Fail(NoEstimates)
    ensures r.Ok? <==>
      skip >= 0 &&
      |Window(Select(db.estimates, db.nextId, if past then OnEarlier(c, open) else OnRequest(open)), skip, take).value| > 0
    ensures r.Ok? ==> |r.value| > 0
    ensures r.Ok? ==> r.value == Window(Select(db.estimates, db.nextId, if past then OnEarlier(c, open) else OnRequest(open)), skip, take).value
  {
    var w := Window(Select(db.estimates, db.nextId, if past then OnEarlier(c, open) else OnRequest(open)), skip, take);
    if w.None? then Fail(ServerError)
    else if |w.value| == 0 then Fail(NoEstimates)
    else Ok(w.value)
  }

  /** The page holds, in id order, the quotes on the open request (`estimate`) or the caller's
      quotes on other requests (`pastEstimate`), at most `|take|` of them, and is refused when
      empty. */
  lemma ReceivedListed(db: Db, c: Id, open: Id, past: bool, skip: int, take: int)
    requires ReceivedPage(db, c, open, past, skip, take).Ok?
    ensures var rows := ReceivedPage(db, c, open, past, skip, take).value;
      && 0 < |rows| <= Abs(take)
      && (forall i :: 0 <= i < |rows| ==> rows[i] in db.estimates)
      && (!past ==> forall i :: 0 <= i < |rows| ==> db.estimates[rows[i]].movingInfoId == open)
      && (past ==> forall i :: 0 <= i < |rows| ==>
            db.estimates[rows[i]].customerId == c && db.estimates[rows[i]].movingInfoId != open)
      && (forall i, j :: 0 <= i < j < |rows| ==> rows[i] < rows[j])
  {
    var all := Select(db.estimates, db.nextId, if past then OnEarlier(c, open) else OnRequest(open));
    WindowIncreasing(all, skip, take);
  }

  /** Nothing is left out: a first page at least as large as the number of matching quotes
      lists every one of them. */
  lemma ReceivedComplete(db: Db, c: Id, open: Id, past: bool, take: int, e: Id)
    requires FreshIds(db)
    requires take >= CountWhere(db.estimates, db.nextId, if past then OnEarlier(c, open) else OnRequest(open))
    requires e in db.estimates
    requires if past then db.estimates[e].customerId == c && db.estimates[e].movingInfoId != open
             else db.estimates[e].movingInfoId == open
    ensures ReceivedPage(db, c, open, past, 0, take).Ok?
    ensures e in ReceivedPage(db, c, open, past, 0, take).value
  {
    var all := Select(db.estimates, db.nextId, if past then OnEarlier(c, open) else OnRequest(open));
    CountIsSelectLength(db.estimates, db.nextId, if past then OnEarlier(c, open) else OnRequest(open));
    assert e in all;
    WindowAll(all, take);
  }
}

/** The estimate controller: movers quote on moving requests, customers invite movers with
    designated requests and confirm one quote; two listings show a mover the requests in its
    service area and show either party its confirmed quotes. */
module Estimates {
  import opened Common
  import opened Records

  /** At most this many quotes per moving request. */
  const QuoteCap: nat := 5

  /** At most this many designated requests per moving request. */
  const DesignatedCap: nat := 3

  // ---------------------------------------------------------------- createEstimate

  /** `createEstimate`: the caller's Mover profile quotes `price` and `comment` on a request. */
  function CreateEstimateStep(db: Db, auth: Option<string>, movingInfoId: Option<Id>,
                              price: Option<int>, comment: Option<string>): (st: Step<Id>)
    ensures Caller(db, auth).Fail? ==> st == Reject(db, Caller(db, auth).why)
    ensures Caller(db, auth).Ok? ==> st == QuoteAs(db, Caller(db, auth).value, movingInfoId, price, comment)
  {
    var caller := Caller(db, auth);
    if caller.Fail? then Reject(db, caller.why) else QuoteAs(db, caller.value, movingInfoId, price, comment)
  }

  /** The checks and the effect of `createEstimate` once the caller's account `c` is known. */
  function QuoteAs(db: Db, c: Id, movingInfoId: Option<Id>, price: Option<int>, comment: Option<string>): (st: Step<Id>)
    ensures st.reply.Fail? ==> st.db == db
    ensures st.reply.Ok? <==>
      && c in db.movers
      && movingInfoId.Some? && GivenNum(price) && Given(comment)
      && movingInfoId.value in db.movingInfos
      && db.movingInfos[movingInfoId.value].estimateCount < QuoteCap
    ensures c !in db.movers ==> st.reply == Fail(NotMover)
    ensures (movingInfoId.Some? && movingInfoId.value in db.movingInfos &&
             db.movingInfos[movingInfoId.value].estimateCount >= QuoteCap) ==> st.reply.Fail?
    ensures st.reply.Ok? && FreshIds(db) ==> st.reply.value !in db.estimates
    ensures st.reply.Ok? ==>
      var m := movingInfoId.value;
      var info := db.movingInfos[m];
      && st.reply.value == db.nextId
      && st.db == SetMovingInfo(NewEstimate(db, Estimate(c, info.customerId, m, price.value, comment.value, false, None)),
                                m, info.(estimateCount := info.estimateCount + 1))
  {
    if c !in db.movers then Reject(db, NotMover)
    else if movingInfoId.None? then Reject(db, Missing("movingInfoId"))
    else if !GivenNum(price) then Reject(db, Missing("price"))
    else if !Given(comment) then Reject(db, Missing("comment"))
    else if movingInfoId.value !in db.movingInfos then Reject(db, NotFound("movingInfo"))
    else if db.movingInfos[movingInfoId.value].estimateCount >= QuoteCap then Reject(db, EstimateLimit)
    else
      var m := movingInfoId.value;
      var info := db.movingInfos[m];
      var quote := Estimate(c, info.customerId, m, price.value, comment.value, false, None);
      Step(SetMovingInfo(NewEstimate(db, quote), m, info.(estimateCount := info.estimateCount + 1)), Ok(db.nextId))
  }

  /** A quote keeps the store consistent: its id is fresh and the cap of five holds. */
  lemma CreateEstimateConsistent(db: Db, auth: Option<string>, movingInfoId: Option<Id>,
                                 price: Option<int>, comment: Option<string>)
    requires Consistent(db)
    ensures Consistent(CreateEstimateStep(db, auth, movingInfoId, price, comment).db)
  {
    if Caller(db, auth).Ok? {
      QuoteAsConsistent(db, Caller(db, auth).value, movingInfoId, price, comment);
    }
  }

  lemma QuoteAsConsistent(db: Db, c: Id, movingInfoId: Option<Id>, price: Option<int>, comment: Option<string>)
    requires Consistent(db)
    ensures Consistent(QuoteAs(db, c, movingInfoId, price, comment).db)
  {
    if QuoteAs(db, c, movingInfoId, price, comment).reply.Ok? {
      var m := movingInfoId.value;
      var info := db.movingInfos[m];
      var quote := Estimate(c, info.customerId, m, price.value, comment.value, false, None);
      var d := SetMovingInfo(NewEstimate(db, quote), m, info.(estimateCount := info.estimateCount + 1));
      assert QuoteAs(db, c, movingInfoId, price, comment).db == d;
      NewEstimateKeeps(db, quote);
      SetMovingInfoKeeps(NewEstimate(db, quote), m, info.(estimateCount := info.estimateCount + 1));
      assert Consistent(d);
    }
  }

  /** A quote adds one estimate, by the caller for the request's customer, unconfirmed and
      unreviewed, and raises that request's estimate count by one; no other row changes. */
  lemma QuoteEffect(db: Db, c: Id, movingInfoId: Option<Id>, price: Option<int>, comment: Option<string>)
    requires FreshIds(db)
    requires QuoteAs(db, c, movingInfoId, price, comment).reply.Ok?
    ensures var st := QuoteAs(db, c, movingInfoId, price, comment);
      var id := st.reply.value;
      var m := movingInfoId.value;
      && id !in db.estimates && st.db.estimates.Keys == db.estimates.Keys + {id}
      && st.db.estimates[id].moverId == c
      && st.db.estimates[id].customerId == db.movingInfos[m].customerId
      && st.db.estimates[id].movingInfoId == m
      && st.db.estimates[id].price == price.value && st.db.estimates[id].comment == comment.value
      && !st.db.estimates[id].isConfirmed && st.db.estimates[id].reviewId.None?
      && (forall k :: k in db.estimates ==> st.db.estimates[k] == db.estimates[k])
      && st.db.movingInfos.Keys == db.movingInfos.Keys
      && st.db.movingInfos[m].estimateCount == db.movingInfos[m].estimateCount + 1
      && st.db.movingInfos[m] == db.movingInfos[m].(estimateCount := st.db.movingInfos[m].estimateCount)
      && (forall k :: k in db.movingInfos && k != m ==> st.db.movingInfos[k] == db.movingInfos[k])
      && st.db.(estimates := db.estimates, movingInfos := db.movingInfos, nextId := db.nextId) == db
  {
  }

  method CreateEstimate(s: Store, auth: Option<string>, movingInfoId: Option<Id>,
                        price: Option<int>, comment: Option<string>) returns (r: Reply<Id>)
    modifies s
    ensures Step(s.Snapshot(), r) == CreateEstimateStep(old(s.Snapshot()), auth, movingInfoId, price, comment)
  {
    var caller := Caller(s.Snapshot(), auth);
    if caller.Fail? {
      return Fail(caller.why);
    }
    if caller.value !in s.movers {
      return Fail(NotMover);
    }
    if movingInfoId.None? {
      return Fail(Missing("movingInfoId"));
    }
    if !GivenNum(price) {
      return Fail(Missing("price"));
    }
    if !Given(comment) {
      return Fail(Missing("comment"));
    }
    var m := movingInfoId.value;
    if m !in s.movingInfos {
      return Fail(NotFound("movingInfo"));
    }
    var info := s.movingInfos[m];
    if info.estimateCount >= QuoteCap {
      return Fail(EstimateLimit);
    }
    var id := s.InsertEstimate(Estimate(caller.value, info.customerId, m, price.value, comment.value, false, None));
    s.PutMovingInfo(m, info.(estimateCount := info.estimateCount + 1));
    return Ok(id);
  }

  // ---------------------------------------------------------------- confirmEstimate

  /** `confirmEstimate`: the customer picks a quote for its open request. */
  function ConfirmEstimateStep(db: Db, auth: Option<string>, estimateId: Option<Id>): (st: Step<()>)
    ensures Caller(db, auth).Fail? ==> st == Reject(db, Caller(db, auth).why)
    ensures Caller(db, auth).Ok? ==> st == ConfirmAs(db, Caller(db, auth).value, estimateId)
  {
    var caller := Caller(db, auth);
    if caller.Fail? then Reject(db, caller.why) else ConfirmAs(db, caller.value, estimateId)
  }

  /** The checks and the effect of `confirmEstimate` once the caller's account `c` is known. The
      estimate is looked up by id alone; nothing checks that it quotes the open request. */
  function ConfirmAs(db: Db, c: Id, estimateId: Option<Id>): (st: Step<()>)
    ensures st.reply.Fail? ==> st.db == db
    ensures st.reply.Ok? <==>
      && c in db.customers
      && db.customers[c].openMovingInfoId.Some?
      && db.customers[c].openMovingInfoId.value in db.movingInfos
      && !db.movingInfos[db.customers[c].openMovingInfoId.value].isConfirmed
      && estimateId.Some? && estimateId.value in db.estimates
      && !db.estimates[estimateId.value].isConfirmed
    ensures c in db.customers && db.customers[c].openMovingInfoId.None? ==> st.reply == Fail(NoOpenRequest)
    ensures st.reply.Ok? ==>
      var m := db.customers[c].openMovingInfoId.value;
      var e := estimateId.value;
      st.db == SetEstimate(SetMovingInfo(db, m, db.movingInfos[m].(moverId := Some(db.estimates[e].moverId), isConfirmed := true)),
                           e, db.estimates[e].(isConfirmed := true))
  {
    if c !in db.customers then Reject(db, NotCustomer)
    else
      var open := db.customers[c].openMovingInfoId;
      if open.None? then Reject(db, NoOpenRequest)
      else if open.value !in db.movingInfos then Reject(db, NotFound("movingInfo"))
      else if db.movingInfos[open.value].isConfirmed then Reject(db, AlreadyConfirmed)
      else if estimateId.None? then Reject(db, Missing("estimateId"))
      else if estimateId.value !in db.estimates then Reject(db, NotFound("estimate"))
      else if db.estimates[estimateId.value].isConfirmed then Reject(db, AlreadyConfirmed)
      else
        var info := db.movingInfos[open.value];
        var quote := db.estimates[estimateId.value];
        Step(SetEstimate(SetMovingInfo(db, open.value, info.(moverId := Some(quote.moverId), isConfirmed := true)),
                         estimateId.value, quote.(isConfirmed := true)),
             Ok(()))
  }

  /** Confirming flips two flags and keeps the store consistent. */
  lemma ConfirmEstimateConsistent(db: Db, auth: Option<string>, estimateId: Option<Id>)
    requires Consistent(db)
    ensures Consistent(ConfirmEstimateStep(db, auth, estimateId).db)
  {
    if Caller(db, auth).Ok? {
      ConfirmAsConsistent(db, Caller(db, auth).value, estimateId);
    }
  }

  lemma ConfirmAsConsistent(db: Db, c: Id, estimateId: Option<Id>)
    requires Consistent(db)
    ensures Consistent(ConfirmAs(db, c, estimateId).db)
  {
    if ConfirmAs(db, c, estimateId).reply.Ok? {
      var m := db.customers[c].openMovingInfoId.value;
      var quote := db.estimates[estimateId.value];
      var d := SetMovingInfo(db, m, db.movingInfos[m].(moverId := Some(quote.moverId), isConfirmed := true));
      var d' := SetEstimate(d, estimateId.value, quote.(isConfirmed := true));
      assert ConfirmAs(db, c, estimateId).db == d';
      SetMovingInfoKeeps(db, m, db.movingInfos[m].(moverId := Some(quote.moverId), isConfirmed := true));
      SetEstimateKeeps(d, estimateId.value, quote.(isConfirmed := true));
      assert Consistent(d');
    }
  }

  /** Confirming marks the open request confirmed with the quote's mover as its mover and marks
      the quote confirmed; no other row changes. */
  lemma ConfirmEffect(db: Db, c: Id, estimateId: Option<Id>)
    requires ConfirmAs(db, c, estimateId).reply.Ok?
    ensures var st := ConfirmAs(db, c, estimateId);
      var m := db.customers[c].openMovingInfoId.value;
      var e := estimateId.value;
      && st.db.movingInfos.Keys == db.movingInfos.Keys && st.db.estimates.Keys == db.estimates.Keys
      && st.db.movingInfos[m].isConfirmed && st.db.movingInfos[m].moverId == Some(db.estimates[e].moverId)
      && st.db.movingInfos[m] == db.movingInfos[m].(isConfirmed := true, moverId := st.db.movingInfos[m].moverId)
      && (forall k :: k in db.movingInfos && k != m ==> st.db.movingInfos[k] == db.movingInfos[k])
      && st.db.estimates[e] == db.estimates[e].(isConfirmed := true)
      && (forall k :: k in db.estimates && k != e ==> st.db.estimates[k] == db.estimates[k])
      && st.db.(movingInfos := db.movingInfos, estimates := db.estimates) == db
  {
  }

  method ConfirmEstimate(s: Store, auth: Option<string>, estimateId: Option<Id>) returns (r: Reply<()>)
    modifies s
    ensures Step(s.Snapshot(), r) == ConfirmEstimateStep(old(s.Snapshot()), auth, estimateId)
  {
    var caller := Caller(s.Snapshot(), auth);
    if caller.Fail? {
      return Fail(caller.why);
    }
    if caller.value !in s.customers {
      return Fail(NotCustomer);
    }
    var open := s.customers[caller.value].openMovingInfoId;
    if open.None? {
      return Fail(NoOpenRequest);
    }
    if open.value !in s.movingInfos {
      return Fail(NotFound("movingInfo"));
    }
    var info := s.movingInfos[open.value];
    if info.isConfirmed {
      return Fail(AlreadyConfirmed);
    }
    if estimateId.None? {
      return Fail(Missing("estimateId"));
    }
    if estimateId.value !in s.estimates {
      return Fail(NotFound("estimate"));
    }
    var quote := s.estimates[estimateId.value];
    if quote.isConfirmed {
      return Fail(AlreadyConfirmed);
    }
    s.PutMovingInfo(open.value, info.(moverId := Some(quote.moverId), isConfirmed := true));
    s.PutEstimate(estimateId.value, quote.(isConfirmed := true));
    return Ok(());
  }

  /** Confirmation is one-way: once a confirm succeeds, every later confirm by the same customer
      fails with AlreadyConfirmed and changes nothing, whichever estimate it names. */
  lemma ConfirmOnce(db: Db, auth: Option<string>, first: Option<Id>, second: Option<Id>)
    requires Consistent(db)
    requires ConfirmEstimateStep(db, auth, first).reply.Ok?
    ensures var db1 := ConfirmEstimateStep(db, auth, first).db;
      && ConfirmEstimateStep(db1, auth, second).reply == Fail(AlreadyConfirmed)
      && ConfirmEstimateStep(db1, auth, second).db == db1
  {
    var db1 := ConfirmEstimateStep(db, auth, first).db;
    assert db1.users == db.users && db1.nextId == db.nextId;
    assert Caller(db1, auth) == Caller(db, auth);
  }

  /** The estimate is found by id alone: a customer can confirm a quote made on another request,
      and a request can end up with two confirmed quotes. */
  lemma ConfirmIgnoresRequest(db: Db, auth: Option<string>, e: Id, other: Id)
    requires Consistent(db)
    requires Caller(db, auth).Ok? && Caller(db, auth).value in db.customers
    requires db.customers[Caller(db, auth).value].openMovingInfoId.Some?
    requires !db.movingInfos[db.customers[Caller(db, auth).value].openMovingInfoId.value].isConfirmed
    requires e in db.estimates && !db.estimates[e].isConfirmed
    requires other in db.estimates && other != e && db.estimates[other].isConfirmed
    requires db.estimates[other].movingInfoId == db.estimates[e].movingInfoId
    ensures var st := ConfirmEstimateStep(db, auth, Some(e));
      && st.reply.Ok?
      && st.db.estimates[e].isConfirmed && st.db.estimates[other].isConfirmed
      && st.db.estimates[e].movingInfoId == st.db.estimates[other].movingInfoId
  {
  }

  // ---------------------------------------------------------------- createDesignatedEstimate

  /** `createDesignatedEstimate`: the customer invites mover `moverId` to quote on its open
      request. */
  function CreateDesignatedEstimateStep(db: Db, auth: Option<string>, moverId: Option<Id>): (st: Step<Id>)
    ensures Caller(db, auth).Fail? ==> st == Reject(db, Caller(db, auth).why)
    ensures Caller(db, auth).Ok? ==> st == DesignateAs(db, Caller(db, auth).value, moverId)
  {
    var caller := Caller(db, auth);
    if caller.Fail? then Reject(db, caller.why) else DesignateAs(db, caller.value, moverId)
  }

  /** The checks and the effect of `createDesignatedEstimate` once the caller's account `c` is known. */
  function DesignateAs(db: Db, c: Id, moverId: Option<Id>): (st: Step<Id>)
    ensures st.reply.Fail? ==> st.db == db
    ensures st.reply.Ok? <==>
      && moverId.Some? && moverId.value in db.movers
      && c in db.customers
      && db.customers[c].openMovingInfoId.Some?
      && db.customers[c].openMovingInfoId.value in db.movingInfos
      && !(db.movingInfos[db.customers[c].openMovingInfoId.value].isConfirmed &&
           db.movingInfos[db.customers[c].openMovingInfoId.value].isDone)
      && db.movingInfos[db.customers[c].openMovingInfoId.value].designatedCount < DesignatedCap
    ensures (moverId.Some? && moverId.value in db.movers && c in db.customers &&
             db.customers[c].openMovingInfoId.None?) ==> st.reply == Fail(NoOpenRequest)
    ensures st.reply.Ok? && FreshIds(db) ==> st.reply.value !in db.designations
    ensures st.reply.Ok? ==>
      var id := st.reply.value;
      var m := db.customers[c].openMovingInfoId.value;
      && id == db.nextId
      && st.db == SetMovingInfo(NewDesignation(db, DesignatedRequest(c, m, moverId.value)), m,
                                db.movingInfos[m].(designatedCount := db.movingInfos[m].designatedCount + 1))
  {
    if moverId.None? then Reject(db, Missing("moverId"))
    else if moverId.value !in db.movers then Reject(db, NotFound("mover"))
    else if c !in db.customers then Reject(db, NotCustomer)
    else
      var open := db.customers[c].openMovingInfoId;
      if open.None? then Reject(db, NoOpenRequest)
      else if open.value !in db.movingInfos then Reject(db, NotFound("movingInfo"))
      else
        var info := db.movingInfos[open.value];
        if info.isConfirmed && info.isDone then Reject(db, AlreadyDone)
        else if info.designatedCount >= DesignatedCap then Reject(db, DesignatedLimit)
        else
          var id := db.nextId;
          Step(SetMovingInfo(NewDesignation(db, DesignatedRequest(c, open.value, moverId.value)),
                             open.value, info.(designatedCount := info.designatedCount + 1)),
               Ok(id))
  }

  /** An invitation keeps the store consistent: its id is fresh and the cap of three holds. */
  lemma CreateDesignatedEstimateConsistent(db: Db, auth: Option<string>, moverId: Option<Id>)
    requires Consistent(db)
    ensures Consistent(CreateDesignatedEstimateStep(db, auth, moverId).db)
  {
    if Caller(db, auth).Ok? {
      DesignateAsConsistent(db, Caller(db, auth).value, moverId);
    }
  }

  lemma DesignateAsConsistent(db: Db, c: Id, moverId: Option<Id>)
    requires Consistent(db)
    ensures Consistent(DesignateAs(db, c, moverId).db)
  {
    if DesignateAs(db, c, moverId).reply.Ok? {
      var m := db.customers[c].openMovingInfoId.value;
      var invite := DesignatedRequest(c, m, moverId.value);
      var d := SetMovingInfo(NewDesignation(db, invite), m,
                             db.movingInfos[m].(designatedCount := db.movingInfos[m].designatedCount + 1));
      assert DesignateAs(db, c, moverId).db == d;
      NewDesignationKeeps(db, invite);
      SetMovingInfoKeeps(NewDesignation(db, invite), m,
                         db.movingInfos[m].(designatedCount := db.movingInfos[m].designatedCount + 1));
      assert Consistent(d);
    }
  }

  /** An invitation adds one designated request linking the customer, its open request and the
      invited mover, and raises that request's designated count by one; no other row changes. */
  lemma DesignateEffect(db: Db, c: Id, moverId: Option<Id>)
    requires FreshIds(db)
    requires DesignateAs(db, c, moverId).reply.Ok?
    ensures var st := DesignateAs(db, c, moverId);
      var id := st.reply.value;
      var m := db.customers[c].openMovingInfoId.value;
      && id !in db.designations && st.db.designations.Keys == db.designations.Keys + {id}
      && st.db.designations[id] == DesignatedRequest(c, m, moverId.value)
      && (forall k :: k in db.designations ==> st.db.designations[k] == db.designations[k])
      && st.db.movingInfos.Keys == db.movingInfos.Keys
      && st.db.movingInfos[m].designatedCount == db.movingInfos[m].designatedCount + 1
      && st.db.movingInfos[m] == db.movingInfos[m].(designatedCount := st.db.movingInfos[m].designatedCount)
      && (forall k :: k in db.movingInfos && k != m ==> st.db.movingInfos[k] == db.movingInfos[k])
      && st.db.(designations := db.designations, movingInfos := db.movingInfos, nextId := db.nextId) == db
  {
  }

  method CreateDesignatedEstimate(s: Store, auth: Option<string>, moverId: Option<Id>) returns (r: Reply<Id>)
    modifies s
    ensures Step(s.Snapshot(), r) == CreateDesignatedEstimateStep(old(s.Snapshot()), auth, moverId)
  {
    var caller := Caller(s.Snapshot(), auth);
    if caller.Fail? {
      return Fail(caller.why);
    }
    if moverId.None? {
      return Fail(Missing("moverId"));
    }
    if moverId.value !in s.movers {
      return Fail(NotFound("mover"));
    }
    if caller.value !in s.customers {
      return Fail(NotCustomer);
    }
    var open := s.customers[caller.value].openMovingInfoId;
    if open.None? {
      return Fail(NoOpenRequest);
    }
    if open.value !in s.movingInfos {
      return Fail(NotFound("movingInfo"));
    }
    var info := s.movingInfos[open.value];
    if info.isConfirmed && info.isDone {
      return Fail(AlreadyDone);
    }
    if info.designatedCount >= DesignatedCap {
      return Fail(DesignatedLimit);
    }
    var id := s.InsertDesignation(DesignatedRequest(caller.value, open.value, moverId.value));
    s.PutMovingInfo(open.value, info.(designatedCount := info.designatedCount + 1));
    return Ok(id);
  }

  /** The quote cap holds however many quotes arrive: a request at five quotes refuses every
      further one and keeps its count. */
  lemma CapsAreFinal(db: Db, auth: Option<string>, m: Id, price: Option<int>, comment: Option<string>)
    requires Consistent(db) && m in db.movingInfos && db.movingInfos[m].estimateCount == QuoteCap
    ensures CreateEstimateStep(db, auth, Some(m), price, comment).reply.Fail?
    ensures CreateEstimateStep(db, auth, Some(m), price, comment).db.movingInfos[m].estimateCount == QuoteCap
  {
  }

  /** The invitation cap holds however many invitations arrive: a request with three designated
      requests refuses every invitation its customer sends, and no caller's invitation changes
      its count. */
  lemma DesignationCapIsFinal(db: Db, auth: Option<string>, moverId: Option<Id>, m: Id)
    requires Consistent(db) && m in db.movingInfos && db.movingInfos[m].designatedCount == DesignatedCap
    ensures var c := Caller(db, auth);
      c.Ok? && c.value in db.customers && db.customers[c.value].openMovingInfoId == Some(m) ==>
        CreateDesignatedEstimateStep(db, auth, moverId).reply.Fail?
    ensures CreateDesignatedEstimateStep(db, auth, moverId).db.movingInfos[m].designatedCount == DesignatedCap
  {
  }

  // ---------------------------------------------------------------- moverEstimateList

  /** The validated query of `moverEstimateList`. */
  datatype EstimateQuery = EstimateQuery(newestFirst: bool, types: set<MovingType>, page: int, size: int)

  const AllTypes: set<MovingType> := {SMALL, HOME, OFFICE}

  /** The `movingType` query parameter: absent (the default "[]"), a text `JSON.parse` cannot
      parse, or what it parses to, told apart by what the handler does with it:
      - `null`, whose `length` cannot be read;
      - an array (a non-string element is refused like any name outside the three kinds);
      - another value whose `length` is 0: the empty string, or an object with `length: 0`;
      - any other value: it has no `every`, so calling it throws. */
  datatype TypeParam = DefaultTypes | Malformed | ParsedNull | ParsedArray(items: seq<string>) | ParsedLengthZero | ParsedOther

  /** The parameter asks for every kind: it is absent or its parsed value has length 0. */
  predicate WidensToAll(t: TypeParam)
  {
    t.DefaultTypes? || t.ParsedLengthZero? || t == ParsedArray([])
  }

  /** The validation of `orderBy`, `movingType`, `page` (default 1) and `size` (default 8), in
      that order. A parse error, a parsed `null` and a value without `every` make the handler
      throw. */
  function MoverEstimateQuery(orderBy: Option<string>, movingType: TypeParam, page: QueryNum, size: QueryNum): (r: Reply<EstimateQuery>)
    ensures Given(orderBy) && orderBy.value != "requestDesc" ==> r == Fail(Invalid("orderBy"))
    ensures ((!Given(orderBy) || orderBy.value == "requestDesc") &&
             (movingType.Malformed? || movingType.ParsedNull? || movingType.ParsedOther?)) ==> r == Fail(ServerError)
    ensures r.Ok? <==>
      && (!Given(orderBy) || orderBy.value == "requestDesc")
      && (WidensToAll(movingType) || movingType.ParsedArray?)
      && (movingType.ParsedArray? ==> forall i :: 0 <= i < |movingType.items| ==> ParseMovingType(movingType.items[i]).Some?)
      && !page.NotANumber? && !size.NotANumber?
    ensures (!Given(orderBy) || orderBy.value == "requestDesc") && movingType.ParsedArray? &&
            (exists i :: 0 <= i < |movingType.items| && ParseMovingType(movingType.items[i]).None?) ==>
            r == Fail(Invalid("movingType"))
    ensures r.Ok? ==> (r.value.newestFirst <==> orderBy == Some("requestDesc"))
    ensures r.Ok? && WidensToAll(movingType) ==> r.value.types == AllTypes
    ensures r.Ok? && movingType.ParsedArray? && |movingType.items| > 0 ==>
      forall t :: t in r.value.types <==> TypeName(t) in movingType.items
    ensures r.Ok? ==> Numeric(page, 1) == Some(r.value.page) && Numeric(size, 8) == Some(r.value.size)
  {
    if Given(orderBy) && orderBy.value != "requestDesc" then Fail(Invalid("orderBy"))
    else if movingType.Malformed? || movingType.ParsedNull? || movingType.ParsedOther? then Fail(ServerError)
    else
      var names := if movingType.ParsedArray? then movingType.items else [];
      if |names| > 0 && exists i :: 0 <= i < |names| && ParseMovingType(names[i]).None? then Fail(Invalid("movingType"))
      else if page.NotANumber? || size.NotANumber? then Fail(NotNumeric)
      else
        var types := if |names| == 0 then AllTypes else set t | t in AllTypes && TypeName(t) in names;
        Ok(EstimateQuery(orderBy == Some("requestDesc"), types, Numeric(page, 1).value, Numeric(size, 8).value))
  }

  /** The areas the mover registered. */
  function AreasOf(db: Db, mover: Id): set<string>
  {
    set k | k in db.serviceAreas && db.serviceAreas[k].moverId == mover :: db.serviceAreas[k].area
  }

  /** The listing's filter: a request whose area is one of the mover's and whose type was asked
      for. A request without an area matches no list. */
  predicate Visible(info: MovingInfo, areas: set<string>, types: set<MovingType>)
  {
    info.serviceableArea.Some? && info.serviceableArea.value in areas && info.movingType in types
  }

  function DateOf(infos: map<Id, MovingInfo>, id: Id): int
  {
    if id in infos then infos[id].movingDate else 0
  }

  predicate ByDate(ids: seq<Id>, infos: map<Id, MovingInfo>)
  {
    forall i, j :: 0 <= i < j < |ids| ==> DateOf(infos, ids[i]) <= DateOf(infos, ids[j])
  }

  /** Inserts `x` after every id whose date is not later than its own. */
  function InsertByDate(x: Id, sorted: seq<Id>, infos: map<Id, MovingInfo>): (r: seq<Id>)
    requires ByDate(sorted, infos)
    ensures ByDate(r, infos)
    ensures multiset(r) == multiset(sorted) + multiset{x}
  {
    if |sorted| == 0 then [x]
    else if DateOf(infos, x) < DateOf(infos, sorted[0]) then
      PrependEarlier(x, sorted, infos);
      [x] + sorted
    else
      var rest := InsertByDate(x, sorted[1..], infos);
      FirstIsLeast(x, sorted, rest, infos);
      assert sorted == [sorted[0]] + sorted[1..];
      [sorted[0]] + rest
  }

  /** An id earlier than the head of a sorted list can go in front of it. */
  lemma PrependEarlier(x: Id, sorted: seq<Id>, infos: map<Id, MovingInfo>)
    requires |sorted| > 0 && ByDate(sorted, infos)
    requires DateOf(infos, x) < DateOf(infos, sorted[0])
    ensures ByDate([x] + sorted, infos)
  {
    var r := [x] + sorted;
    forall i, j | 0 <= i < j < |r|
      ensures DateOf(infos, r[i]) <= DateOf(infos, r[j])
    {
      assert r[j] == sorted[j - 1];
      if i > 0 {
        assert r[i] == sorted[i - 1];
      } else {
        assert DateOf(infos, sorted[0]) <= DateOf(infos, sorted[j - 1]);
      }
    }
  }

  /** The head of a sorted list is not later than anything inserted behind it. */
  lemma FirstIsLeast(x: Id, sorted: seq<Id>, rest: seq<Id>, infos: map<Id, MovingInfo>)
    requires |sorted| > 0 && ByDate(sorted, infos) && ByDate(rest, infos)
    requires DateOf(infos, sorted[0]) <= DateOf(infos, x)
    requires multiset(rest) == multiset(sorted[1..]) + multiset{x}
    ensures ByDate([sorted[0]] + rest, infos)
  {
    forall j | 0 <= j < |rest|
      ensures DateOf(infos, sorted[0]) <= DateOf(infos, rest[j])
    {
      var y := rest[j];
      assert y in multiset(rest);
      if y != x {
        assert y in multiset(sorted[1..]);
        var i :| 0 <= i < |sorted[1..]| && sorted[1..][i] == y;
        assert sorted[1 + i] == y;
      }
    }
    var r := [sorted[0]] + rest;
    forall i, j | 0 <= i < j < |r|
      ensures DateOf(infos, r[i]) <= DateOf(infos, r[j])
    {
      if i == 0 {
        assert r[j] == rest[j - 1];
      } else {
        assert r[i] == rest[i - 1] && r[j] == rest[j - 1];
      }
    }
  }

  /** `orderBy: { movingDate: "asc" }` on requests listed in creation order: a stable sort. */
  function SortByDate(ids: seq<Id>, infos: map<Id, MovingInfo>): (r: seq<Id>)
    ensures ByDate(r, infos)
    ensures multiset(r) == multiset(ids)
  {
    if |ids| == 0 then []
    else
      assert ids == ids[..|ids| - 1] + [ids[|ids| - 1]];
      InsertByDate(ids[|ids| - 1], SortByDate(ids[..|ids| - 1], infos), infos)
  }

  /** A row of the listing: the request and whether this mover was invited to quote on it. */
  datatype RequestRow = RequestRow(movingInfoId: Id, isDesignated: bool)

  /** `designatedEstimateRequests.some(request => request.movingInfoId === info.id)` over the
      mover's designated requests. */
  function IsDesignated(db: Db, mover: Id, info: Id): bool
  {
    var mine := Select(db.designations, db.nextId, (d: DesignatedRequest) => d.moverId == mover);
    exists i :: 0 <= i < |mine| && db.designations[mine[i]].movingInfoId == info
  }

  lemma DesignatedExactly(db: Db, mover: Id, info: Id)
    requires FreshIds(db)
    ensures IsDesignated(db, mover, info) <==>
      exists k :: k in db.designations && db.designations[k] == DesignatedRequest(db.designations[k].customerId, info, mover)
  {
    var mine := Select(db.designations, db.nextId, (d: DesignatedRequest) => d.moverId == mover);
    if k :| k in db.designations && db.designations[k] == DesignatedRequest(db.designations[k].customerId, info, mover) {
      assert k in mine;
      var i :| 0 <= i < |mine| && mine[i] == k;
      assert db.designations[mine[i]].movingInfoId == info;
    }
  }


  /** The listing's filter as one term, shared by the `findMany` and the `count`. */
  function VisibleIn(areas: set<string>, types: set<MovingType>): MovingInfo -> bool
  {
    (info: MovingInfo) => Visible(info, areas, types)
  }

  /** The requests that pass the filter, in creation order. */
  function Matching(db: Db, areas: set<string>, types: set<MovingType>): (ids: seq<Id>)
    ensures forall i :: 0 <= i < |ids| ==> ids[i] in db.movingInfos && Visible(db.movingInfos[ids[i]], areas, types)
    ensures Increasing(ids)
  {
    Select(db.movingInfos, db.nextId, VisibleIn(areas, types))
  }

  /** The `count` with the listing's filter is the number of matching requests. */
  lemma MatchCount(db: Db, areas: set<string>, types: set<MovingType>)
    requires FreshIds(db)
    ensures CountWhere(db.movingInfos, db.nextId, VisibleIn(areas, types)) == |Matching(db, areas, types)|
    ensures CountWhere(db.movingInfos, db.nextId, VisibleIn(areas, types))
         == |set k | k in db.movingInfos && Visible(db.movingInfos[k], areas, types)|
  {
    var p := VisibleIn(areas, types);
    CountIsSelectLength(db.movingInfos, db.nextId, p);
    CountIsCard(db.movingInfos, db.nextId, p);
    var all := set k | k in db.movingInfos && Visible(db.movingInfos[k], areas, types);
    forall k | k in all
      ensures k in KeysWhere(db.movingInfos, db.nextId, p)
    {
      assert k < db.nextId;
    }
    assert KeysWhere(db.movingInfos, db.nextId, p) == all;
  }

  /** The listing's order: newest request first for `requestDesc`, else earliest moving date. */
  function Ordered(db: Db, ids: seq<Id>, newestFirst: bool): (r: seq<Id>)
    ensures |r| == |ids|
    ensures forall i :: 0 <= i < |r| ==> r[i] in ids
    ensures newestFirst && Increasing(ids) ==> forall i, j :: 0 <= i < j < |r| ==> r[i] > r[j]
    ensures !newestFirst ==> ByDate(r, db.movingInfos)
  {
    if newestFirst then Reverse(ids)
    else
      var r := SortByDate(ids, db.movingInfos);
      assert |r| == |multiset(r)| == |multiset(ids)| == |ids|;
      assert forall i :: 0 <= i < |r| ==> r[i] in multiset(ids);
      r
  }

  /** The rows the page skips: `(page - 1) * size`. */
  function SkipOf(q: EstimateQuery): int
  {
    (q.page - 1) * q.size
  }

  /** The matching requests in the order the query asks for. */
  function Listed(db: Db, areas: set<string>, q: EstimateQuery): seq<Id>
  {
    Ordered(db, Matching(db, areas, q.types), q.newestFirst)
  }

  /** The rows of a page: each request with its designated flag. */
  function Flagged(db: Db, mover: Id, ids: seq<Id>): (rows: seq<RequestRow>)
    ensures |rows| == |ids|
    ensures forall i :: 0 <= i < |ids| ==> rows[i] == RequestRow(ids[i], IsDesignated(db, mover, ids[i]))
  {
    seq(|ids|, i requires 0 <= i < |ids| => RequestRow(ids[i], IsDesignated(db, mover, ids[i])))
  }

  /** The page of the listing once the query is valid and the mover has areas, skipping `skip` rows. */
  function RequestPage(db: Db, mover: Id, areas: set<string>, q: EstimateQuery, skip: int): (r: Reply<Page<RequestRow>>)
    ensures r.Ok? <==> skip >= 0
    ensures r.Ok? ==> r.value.rows == Flagged(db, mover, Window(Listed(db, areas, q), skip, q.size).value)
    ensures r.Ok? ==>
      && r.value.totalElement == CountWhere(db.movingInfos, db.nextId, VisibleIn(areas, q.types))
      && r.value.currentPage == q.page
      && r.value.totalPages == PageCount(r.value.totalElement, q.size)
  {
    var w := Window(Listed(db, areas, q), skip, q.size);
    if w.None? then Fail(ServerError)
    else
      var total := CountWhere(db.movingInfos, db.nextId, VisibleIn(areas, q.types));
      Ok(Page(total, q.page, PageCount(total, q.size), Flagged(db, mover, w.value)))
  }

  /** The flagged rows of a window hold consecutive ids from where the window starts (`skip`
      for a non-negative size), at most `|size|` of them. */
  lemma WindowRows(db: Db, mover: Id, s: seq<Id>, skip: int, size: int)
    requires skip >= 0
    ensures var rows := Flagged(db, mover, Window(s, skip, size).value);
      var st := WindowStart(|s|, skip, size);
      && |rows| == Min(Abs(size), Max(|s| - skip, 0))
      && (forall i :: 0 <= i < |rows| ==>
            && 0 <= st + i < |s| && rows[i].movingInfoId == s[st + i]
            && rows[i].isDesignated == IsDesignated(db, mover, s[st + i]))
  {
  }

  /** A page holds the listed requests from position `skip` on, at most `size` of them; a
      negative size takes the last `-size` rows before the `skip` last ones. */
  lemma PageRows(db: Db, mover: Id, areas: set<string>, q: EstimateQuery, skip: int)
    requires RequestPage(db, mover, areas, q, skip).Ok?
    ensures var rows := RequestPage(db, mover, areas, q, skip).value.rows;
      var listed := Listed(db, areas, q);
      var st := WindowStart(|listed|, skip, q.size);
      && |rows| == Min(Abs(q.size), Max(|listed| - skip, 0))
      && (q.size >= 0 ==> st == skip)
      && (forall i :: 0 <= i < |rows| ==> 0 <= st + i < |listed| && rows[i].movingInfoId == listed[st + i])
      && (forall i :: 0 <= i < |rows| ==> rows[i].isDesignated == IsDesignated(db, mover, rows[i].movingInfoId))
  {
    WindowRows(db, mover, Listed(db, areas, q), skip, q.size);
  }

  /** Every listed request is in the mover's areas and has an asked-for type. */
  lemma ListedVisible(db: Db, areas: set<string>, q: EstimateQuery)
    ensures |Listed(db, areas, q)| == |Matching(db, areas, q.types)|
    ensures forall i :: 0 <= i < |Listed(db, areas, q)| ==>
      Listed(db, areas, q)[i] in db.movingInfos && Visible(db.movingInfos[Listed(db, areas, q)[i]], areas, q.types)
  {
    var ids := Matching(db, areas, q.types);
    var listed := Listed(db, areas, q);
    forall i | 0 <= i < |listed|
      ensures listed[i] in db.movingInfos && Visible(db.movingInfos[listed[i]], areas, q.types)
    {
      var j :| 0 <= j < |ids| && ids[j] == listed[i];
    }
  }

  /** `moverEstimateList`: the requests in the calling mover's areas with the asked-for types,
      one page of them, the total count, the page count and the designated flag of each. */
  function MoverEstimateList(db: Db, auth: Option<string>, orderBy: Option<string>, movingType: TypeParam,
                             page: QueryNum, size: QueryNum): (r: Reply<Page<RequestRow>>)
    ensures Caller(db, auth).Fail? ==> r == Fail(Caller(db, auth).why)
    ensures Caller(db, auth).Ok? && Caller(db, auth).value !in db.movers ==> r == Fail(NotMover)
    ensures Caller(db, auth).Ok? && Caller(db, auth).value in db.movers &&
            MoverEstimateQuery(orderBy, movingType, page, size).Fail? ==>
            r == Fail(MoverEstimateQuery(orderBy, movingType, page, size).why)
    ensures Caller(db, auth).Ok? && Caller(db, auth).value in db.movers &&
            MoverEstimateQuery(orderBy, movingType, page, size).Ok? && AreasOf(db, Caller(db, auth).value) == {} ==>
            r == Fail(NoServiceableArea)
    ensures Caller(db, auth).Ok? && Caller(db, auth).value in db.movers &&
            MoverEstimateQuery(orderBy, movingType, page, size).Ok? && AreasOf(db, Caller(db, auth).value) != {} ==>
            r == RequestPage(db, Caller(db, auth).value, AreasOf(db, Caller(db, auth).value),
                             MoverEstimateQuery(orderBy, movingType, page, size).value,
                             SkipOf(MoverEstimateQuery(orderBy, movingType, page, size).value))
    ensures r.Ok? ==>
      && Caller(db, auth).Ok? && Caller(db, auth).value in db.movers
      && MoverEstimateQuery(orderBy, movingType, page, size).Ok? && AreasOf(db, Caller(db, auth).value) != {}
      && r == RequestPage(db, Caller(db, auth).value, AreasOf(db, Caller(db, auth).value),
                          MoverEstimateQuery(orderBy, movingType, page, size).value,
                          SkipOf(MoverEstimateQuery(orderBy, movingType, page, size).value))
  {
    var caller := Caller(db, auth);
    if caller.Fail? then Fail(caller.why)
    else if caller.value !in db.movers then Fail(NotMover)
    else
      var query := MoverEstimateQuery(orderBy, movingType, page, size);
      if query.Fail? then Fail(query.why)
      else
        var areas := AreasOf(db, caller.value);
        if areas == {} then Fail(NoServiceableArea)
        else RequestPage(db, caller.value, areas, query.value, SkipOf(query.value))
  }

  /** Every listed request is in the mover's areas and has an asked-for type; the total counts
      exactly those requests; a page holds `size` of them after skipping `(page-1)*size`, so it
      is full unless it is the last; and the page count is `ceil(total/size)`. */
  lemma MoverEstimatePaging(db: Db, mover: Id, areas: set<string>, q: EstimateQuery, skip: int)
    requires FreshIds(db)
    requires RequestPage(db, mover, areas, q, skip).Ok?
    ensures var r := RequestPage(db, mover, areas, q, skip).value;
      && (forall i :: 0 <= i < |r.rows| ==>
            r.rows[i].movingInfoId in db.movingInfos && Visible(db.movingInfos[r.rows[i].movingInfoId], areas, q.types))
      && r.totalElement == |set k | k in db.movingInfos && Visible(db.movingInfos[k], areas, q.types)|
      && |r.rows| == Min(Abs(q.size), Max(r.totalElement - skip, 0))
      && r.totalPages == PageCount(r.totalElement, q.size)
  {
    PageRows(db, mover, areas, q, skip);
    ListedVisible(db, areas, q);
    MatchCount(db, areas, q.types);
  }

  /** The designated flag is set exactly when this mover holds a designated request for the row's
      moving request. */
  lemma MoverEstimateDesignated(db: Db, mover: Id, areas: set<string>, q: EstimateQuery, skip: int, i: int)
    requires FreshIds(db)
    requires RequestPage(db, mover, areas, q, skip).Ok?
    requires 0 <= i < |RequestPage(db, mover, areas, q, skip).value.rows|
    ensures var row := RequestPage(db, mover, areas, q, skip).value.rows[i];
      row.isDesignated <==>
        exists k :: k in db.designations &&
          db.designations[k] == DesignatedRequest(db.designations[k].customerId, row.movingInfoId, mover)
  {
    PageRows(db, mover, areas, q, skip);
    DesignatedExactly(db, mover, RequestPage(db, mover, areas, q, skip).value.rows[i].movingInfoId);
  }

  /** With `orderBy=requestDesc` the newest request comes first; otherwise the earliest moving
      date comes first. */
  lemma MoverEstimateOrder(db: Db, mover: Id, areas: set<string>, q: EstimateQuery, skip: int)
    requires RequestPage(db, mover, areas, q, skip).Ok?
    ensures var rows := RequestPage(db, mover, areas, q, skip).value.rows;
      && (q.newestFirst ==> forall i, j :: 0 <= i < j < |rows| ==> rows[i].movingInfoId > rows[j].movingInfoId)
      && (!q.newestFirst ==> forall i, j :: 0 <= i < j < |rows| ==>
            DateOf(db.movingInfos, rows[i].movingInfoId) <= DateOf(db.movingInfos, rows[j].movingInfoId))
  {
    var listed := Listed(db, areas, q);
    assert RequestPage(db, mover, areas, q, skip).value.rows == Flagged(db, mover, Window(listed, skip, q.size).value);
    WindowOrder(db, mover, listed, skip, q.size);
  }

  /** The flagged rows of a window keep the order of the list they are cut from. */
  lemma WindowOrder(db: Db, mover: Id, s: seq<Id>, skip: int, size: int)
    requires skip >= 0
    ensures var rows := Flagged(db, mover, Window(s, skip, size).value);
      && ((forall i, j :: 0 <= i < j < |s| ==> s[i] > s[j]) ==>
            forall i, j :: 0 <= i < j < |rows| ==> rows[i].movingInfoId > rows[j].movingInfoId)
      && (ByDate(s, db.movingInfos) ==> forall i, j :: 0 <= i < j < |rows| ==>
            DateOf(db.movingInfos, rows[i].movingInfoId) <= DateOf(db.movingInfos, rows[j].movingInfoId))
  {
    var rows := Flagged(db, mover, Window(s, skip, size).value);
    var st := WindowStart(|s|, skip, size);
    WindowRows(db, mover, s, skip, size);
    forall i, j | 0 <= i < j < |rows|
      ensures rows[i].movingInfoId == s[st + i] && rows[j].movingInfoId == s[st + j]
    {
    }
  }

  // ---------------------------------------------------------------- confirmEstimateList

  /** The owner column the listing keys on: `customerId` for a customer, `moverId` otherwise. */
  function OwnerOf(e: Estimate, asCustomer: bool): Id
  {
    if asCustomer then e.customerId else e.moverId
  }

  /** The filter `{ [userType + "Id"]: user, isConfirmed: true }`. */
  function ConfirmedOf(user: Id, asCustomer: bool): Estimate -> bool
  {
    (e: Estimate) => OwnerOf(e, asCustomer) == user && e.isConfirmed
  }

  /** `confirmEstimateList`: the confirmed estimates of the caller, as customer when it has a
      Customer profile and as mover otherwise; `page` defaults to 1 and `size` to 8. The page
      skips `(page - 1) * size` of them and takes `size`. */
  function ConfirmEstimateList(db: Db, auth: Option<string>, page: QueryNum, size: QueryNum): (r: Reply<Page<Id>>)
    ensures Caller(db, auth).Fail? ==> r == Fail(Caller(db, auth).why)
    ensures Caller(db, auth).Ok? && (page.NotANumber? || size.NotANumber?) ==> r == Fail(NotNumeric)
    ensures (Caller(db, auth).Ok? && !page.NotANumber? && !size.NotANumber? &&
             (Numeric(page, 1).value - 1) * Numeric(size, 8).value < 0) ==> r == Fail(ServerError)
    ensures r.Ok? <==>
      && Caller(db, auth).Ok? && !page.NotANumber? && !size.NotANumber?
      && (Numeric(page, 1).value - 1) * Numeric(size, 8).value >= 0
    ensures r.Ok? ==>
      var u := Caller(db, auth).value;
      var p := Numeric(page, 1).value;
      var n := Numeric(size, 8).value;
      && r.value.rows == Window(Select(db.estimates, db.nextId, ConfirmedOf(u, u in db.customers)), (p - 1) * n, n).value
      && r.value.totalElement == CountWhere(db.estimates, db.nextId, ConfirmedOf(u, u in db.customers))
      && r.value.currentPage == p
      && r.value.totalPages == PageCount(r.value.totalElement, n)
  {
    var caller := Caller(db, auth);
    if caller.Fail? then Fail(caller.why)
    else if page.NotANumber? || size.NotANumber? then Fail(NotNumeric)
    else
      var p := Numeric(page, 1).value;
      var n := Numeric(size, 8).value;
      var mine := ConfirmedOf(caller.value, caller.value in db.customers);
      var w := Window(Select(db.estimates, db.nextId, mine), (p - 1) * n, n);
      if w.None? then Fail(ServerError)
      else
        var total := CountWhere(db.estimates, db.nextId, mine);
        Ok(Page(total, p, PageCount(total, n), w.value))
  }

  /** The listing shows, in id order, only confirmed estimates of the caller, keyed by customer
      when the caller has a Customer profile and by mover otherwise, at most `|size|` of them;
      its total counts all of them. */
  lemma ConfirmEstimateListed(db: Db, auth: Option<string>, page: QueryNum, size: QueryNum)
    requires FreshIds(db)
    requires ConfirmEstimateList(db, auth, page, size).Ok?
    ensures var r := ConfirmEstimateList(db, auth, page, size).value;
      var u := Caller(db, auth).value;
      var asCustomer := u in db.customers;
      && |r.rows| <= Abs(Numeric(size, 8).value)
      && (forall i :: 0 <= i < |r.rows| ==>
            r.rows[i] in db.estimates && db.estimates[r.rows[i]].isConfirmed &&
            OwnerOf(db.estimates[r.rows[i]], asCustomer) == u)
      && (forall i, j :: 0 <= i < j < |r.rows| ==> r.rows[i] < r.rows[j])
      && r.totalElement == |set k | k in db.estimates && OwnerOf(db.estimates[k], asCustomer) == u && db.estimates[k].isConfirmed|
  {
    var u := Caller(db, auth).value;
    var mine := ConfirmedOf(u, u in db.customers);
    var p := Numeric(page, 1).value;
    var n := Numeric(size, 8).value;
    WindowIncreasing(Select(db.estimates, db.nextId, mine), (p - 1) * n, n);
    CountIsCard(db.estimates, db.nextId, mine);
    var all := set k | k in db.estimates && OwnerOf(db.estimates[k], u in db.customers) == u && db.estimates[k].isConfirmed;
    forall k | k in all
      ensures k in KeysWhere(db.estimates, db.nextId, mine)
    {
      assert k < db.nextId;
    }
    assert KeysWhere(db.estimates, db.nextId, mine) == all;
  }

  /** Nothing is left out: on the first page, with a size at least the total, every confirmed
      estimate of the caller is listed. */
  lemma ConfirmEstimateComplete(db: Db, auth: Option<string>, size: QueryNum, e: Id)
    requires FreshIds(db)
    requires Caller(db, auth).Ok? && !size.NotANumber?
    requires e in db.estimates && db.estimates[e].isConfirmed
    requires OwnerOf(db.estimates[e], Caller(db, auth).value in db.customers) == Caller(db, auth).value
    requires Numeric(size, 8).value >=
      CountWhere(db.estimates, db.nextId, ConfirmedOf(Caller(db, auth).value, Caller(db, auth).value in db.customers))
    ensures ConfirmEstimateList(db, auth, Unset, size).Ok?
    ensures e in ConfirmEstimateList(db, auth, Unset, size).value.rows
  {
    var u := Caller(db, auth).value;
    var mine := ConfirmedOf(u, u in db.customers);
    assert e < db.nextId;
    FirstPageComplete(db.estimates, db.nextId, mine, Numeric(size, 8).value, e);
    FirstPageAll(db, auth, size);
  }

  /** The first page with a size at least the total holds all the caller's confirmed estimates. */
  lemma FirstPageAll(db: Db, auth: Option<string>, size: QueryNum)
    requires Caller(db, auth).Ok? && !size.NotANumber?
    ensures var u := Caller(db, auth).value;
      var w := Window(Select(db.estimates, db.nextId, ConfirmedOf(u, u in db.customers)), 0, Numeric(size, 8).value);
      && ConfirmEstimateList(db, auth, Unset, size).Ok?
      && ConfirmEstimateList(db, auth, Unset, size).value.rows == w.value
  {
    var n := Numeric(size, 8).value;
    assert (Numeric(Unset, 1).value - 1) * n == 0;
  }
}

/** The records of the marketplace and the in-memory store that stands for the relational
    database underneath the controllers. `Db` is a snapshot of every table as a map from id to
    record; `Store` is the mutable store the handlers update in place; `Consistent` is the
    invariant every handler keeps. */
module Records {
  import opened Common

  datatype UserType = CUSTOMER | MOVER

  /** An account. `password` is the stored hash; `refreshToken` is the refresh-token slot. */
  datatype UserInfo = UserInfo(
    userType: UserType,
    name: string,
    email: string,
    phoneNumber: string,
    password: string,
    refreshToken: Option<string>,
    profileImageUrl: Option<string>)

  /** The customer profile of the account with the same id. */
  datatype Customer = Customer(openMovingInfoId: Option<Id>)

  /** The mover profile of the account with the same id. */
  datatype Mover = Mover(career: string, oneLineIntroduction: string, detailDescription: string)

  /** A moving request. `moverId` is the winning mover once confirmed. */
  datatype MovingInfo = MovingInfo(
    customerId: Id,
    movingType: MovingType,
    movingDate: int,
    startAddress: string,
    endAddress: string,
    serviceableArea: Option<string>,
    estimateCount: nat,
    designatedCount: nat,
    isConfirmed: bool,
    isDone: bool,
    moverId: Option<Id>)

  /** A mover's quote on a moving request. */
  datatype Estimate = Estimate(
    moverId: Id,
    customerId: Id,
    movingInfoId: Id,
    price: int,
    comment: string,
    isConfirmed: bool,
    reviewId: Option<Id>)

  /** A customer's direct invitation of a mover to quote on a request. */
  datatype DesignatedRequest = DesignatedRequest(customerId: Id, movingInfoId: Id, moverId: Id)

  datatype Review = Review(
    estimateId: Id,
    movingInfoId: Id,
    customerId: Id,
    moverId: Id,
    rating: int,
    comment: string)

  datatype Favorite = Favorite(customerId: Id, moverId: Id)

  datatype NotificationType = ESTIMATE | CONFIRMED | MOVINGDAY

  datatype Notification = Notification(
    userId: Id,
    notificationType: NotificationType,
    message: string,
    isRead: bool)

  /** A row of the ServiceType table: one kind of move a mover offers. */
  datatype TypeRow = TypeRow(moverId: Id, serviceType: MovingType)

  /** A row of the ServiceableArea table: one area a mover serves. */
  datatype AreaRow = AreaRow(moverId: Id, area: string)

  /** A snapshot of the whole database. `nextId` is the id the next created record receives. */
  datatype Db = Db(
    users: map<Id, UserInfo>,
    customers: map<Id, Customer>,
    movers: map<Id, Mover>,
    movingInfos: map<Id, MovingInfo>,
    estimates: map<Id, Estimate>,
    designations: map<Id, DesignatedRequest>,
    reviews: map<Id, Review>,
    favorites: map<Id, Favorite>,
    notifications: map<Id, Notification>,
    serviceTypes: map<Id, TypeRow>,
    serviceAreas: map<Id, AreaRow>,
    nextId: nat)

  /** A handler's effect: the database afterwards and the reply. */
  datatype Step<+T> = Step(db: Db, reply: Reply<T>)

  function Reject<T>(db: Db, why: Why): (st: Step<T>)
    ensures st.db == db && st.reply == Fail(why)
  {
    Step(db, Fail(why))
  }

  predicate Below<T>(m: map<Id, T>, n: nat)
  {
    forall k :: k in m ==> k < n
  }

  /** Every id in use is below `nextId`, so the next one is fresh in every table. */
  ghost predicate FreshIds(db: Db)
  {
    && Below(db.users, db.nextId) && Below(db.customers, db.nextId)
    && Below(db.movers, db.nextId) && Below(db.movingInfos, db.nextId)
    && Below(db.estimates, db.nextId) && Below(db.designations, db.nextId)
    && Below(db.reviews, db.nextId) && Below(db.favorites, db.nextId)
    && Below(db.notifications, db.nextId) && Below(db.serviceTypes, db.nextId)
    && Below(db.serviceAreas, db.nextId)
  }

  /** Customer and Mover profiles extend an existing account with the same id. */
  ghost predicate ProfilesExtendAccounts(db: Db)
  {
    db.customers.Keys <= db.users.Keys && db.movers.Keys <= db.users.Keys
  }

  /** `email` is a unique column of UserInfo. */
  ghost predicate UniqueEmails(db: Db)
  {
    forall a, b :: a in db.users && b in db.users && db.users[a].email == db.users[b].email ==> a == b
  }

  /** A request has at most five quotes and at most three designated requests. */
  ghost predicate WithinCaps(db: Db)
  {
    forall m :: m in db.movingInfos ==>
      db.movingInfos[m].estimateCount <= 5 && db.movingInfos[m].designatedCount <= 3
  }

  /** A customer's open request exists and belongs to that customer. */
  ghost predicate OpenRequestsOwned(db: Db)
  {
    forall c :: c in db.customers && db.customers[c].openMovingInfoId.Some? ==>
      var m := db.customers[c].openMovingInfoId.value;
      m in db.movingInfos && db.movingInfos[m].customerId == c
  }

  /** At most one review per (estimate, customer). */
  ghost predicate OneReviewPerEstimate(db: Db)
  {
    forall a, b ::
      (a in db.reviews && b in db.reviews &&
       db.reviews[a].estimateId == db.reviews[b].estimateId &&
       db.reviews[a].customerId == db.reviews[b].customerId) ==> a == b
  }

  /** At most one favorite per (customer, mover). */
  ghost predicate OneFavoritePerPair(db: Db)
  {
    forall a, b ::
      (a in db.favorites && b in db.favorites &&
       db.favorites[a].customerId == db.favorites[b].customerId &&
       db.favorites[a].moverId == db.favorites[b].moverId) ==> a == b
  }

  /** The invariant of the store. */
  ghost predicate Consistent(db: Db)
  {
    && FreshIds(db)
    && ProfilesExtendAccounts(db)
    && UniqueEmails(db)
    && WithinCaps(db)
    && OpenRequestsOwned(db)
    && OneReviewPerEstimate(db)
    && OneFavoritePerPair(db)
  }

  // ---------------------------------------------------------------- persistence calls

  // Each call of the persistence layer as a change of the snapshot; `New…` is a `create`,
  // which hands out the next id; `Set…` an `update`, `Drop…` a `delete`/`deleteMany`.

  function NewUser(db: Db, u: UserInfo): Db
  {
    db.(users := db.users[db.nextId := u], nextId := db.nextId + 1)
  }

  function SetUser(db: Db, id: Id, u: UserInfo): Db
  {
    db.(users := db.users[id := u])
  }

  function SetCustomer(db: Db, id: Id, c: Customer): Db
  {
    db.(customers := db.customers[id := c])
  }

  function SetMover(db: Db, id: Id, m: Mover): Db
  {
    db.(movers := db.movers[id := m])
  }

  function NewMovingInfo(db: Db, info: MovingInfo): Db
  {
    db.(movingInfos := db.movingInfos[db.nextId := info], nextId := db.nextId + 1)
  }

  function SetMovingInfo(db: Db, m: Id, info: MovingInfo): Db
  {
    db.(movingInfos := db.movingInfos[m := info])
  }

  function NewEstimate(db: Db, e: Estimate): Db
  {
    db.(estimates := db.estimates[db.nextId := e], nextId := db.nextId + 1)
  }

  function SetEstimate(db: Db, id: Id, e: Estimate): Db
  {
    db.(estimates := db.estimates[id := e])
  }

  function NewDesignation(db: Db, d: DesignatedRequest): Db
  {
    db.(designations := db.designations[db.nextId := d], nextId := db.nextId + 1)
  }

  function NewReview(db: Db, r: Review): Db
  {
    db.(reviews := db.reviews[db.nextId := r], nextId := db.nextId + 1)
  }

  function SetReview(db: Db, id: Id, r: Review): Db
  {
    db.(reviews := db.reviews[id := r])
  }

  function DropReview(db: Db, id: Id): Db
  {
    db.(reviews := db.reviews - {id})
  }

  function NewFavorite(db: Db, f: Favorite): Db
  {
    db.(favorites := db.favorites[db.nextId := f], nextId := db.nextId + 1)
  }

  function DropFavorite(db: Db, id: Id): Db
  {
    db.(favorites := db.favorites - {id})
  }

  function NewNotification(db: Db, n: Notification): Db
  {
    db.(notifications := db.notifications[db.nextId := n], nextId := db.nextId + 1)
  }

  function SetNotification(db: Db, id: Id, n: Notification): Db
  {
    db.(notifications := db.notifications[id := n])
  }

  function NewServiceType(db: Db, row: TypeRow): Db
  {
    db.(serviceTypes := db.serviceTypes[db.nextId := row], nextId := db.nextId + 1)
  }

  function NewServiceArea(db: Db, row: AreaRow): Db
  {
    db.(serviceAreas := db.serviceAreas[db.nextId := row], nextId := db.nextId + 1)
  }

  function DropServiceTypesOf(db: Db, mover: Id): Db
  {
    db.(serviceTypes := DropRowsOf(db.serviceTypes, TypeOwner, mover))
  }

  function DropServiceAreasOf(db: Db, mover: Id): Db
  {
    db.(serviceAreas := DropRowsOf(db.serviceAreas, AreaOwner, mover))
  }

  // ---------------------------------------------------------------- what each call keeps

  /** A table stays below a bound after an insert or update at an id below it. */
  lemma BelowPut<T>(m: map<Id, T>, n: nat, k: Id, v: T)
    requires Below(m, n) && k < n
    ensures Below(m[k := v], n)
  {
  }

  /** Changing only the tables no invariant looks into beyond their ids keeps the store consistent. */
  lemma KeepsLooseTables(db: Db, d: Db)
    requires Consistent(db)
    requires d.users == db.users && d.customers == db.customers && d.movers == db.movers
    requires d.movingInfos == db.movingInfos && d.reviews == db.reviews && d.favorites == db.favorites
    requires db.nextId <= d.nextId
    requires Below(d.estimates, d.nextId) && Below(d.designations, d.nextId)
    requires Below(d.notifications, d.nextId) && Below(d.serviceTypes, d.nextId)
    requires Below(d.serviceAreas, d.nextId)
    ensures Consistent(d)
  {
  }

  /** A new account keeps the store consistent when no account has its e-mail. */
  lemma NewUserKeeps(db: Db, u: UserInfo)
    requires Consistent(db)
    requires forall k :: k in db.users ==> db.users[k].email != u.email
    ensures Consistent(NewUser(db, u))
  {
    var d := NewUser(db, u);
    assert FreshIds(d) by { BelowPut(db.users, d.nextId, db.nextId, u); }
    assert UniqueEmails(d);
  }

  /** Rewriting an account keeps the store consistent when its e-mail stays. */
  lemma SetUserKeeps(db: Db, id: Id, u: UserInfo)
    requires Consistent(db) && id in db.users && db.users[id].email == u.email
    ensures Consistent(SetUser(db, id, u))
  {
    var d := SetUser(db, id, u);
    assert FreshIds(d) by { BelowPut(db.users, db.nextId, id, u); }
    assert UniqueEmails(d);
  }

  /** Rewriting a customer profile keeps the store consistent when its open request is its own. */
  lemma SetCustomerKeeps(db: Db, id: Id, c: Customer)
    requires Consistent(db) && id in db.users
    requires c.openMovingInfoId.Some? ==>
      c.openMovingInfoId.value in db.movingInfos && db.movingInfos[c.openMovingInfoId.value].customerId == id
    ensures Consistent(SetCustomer(db, id, c))
  {
    var d := SetCustomer(db, id, c);
    assert FreshIds(d) by { BelowPut(db.customers, db.nextId, id, c); }
    assert OpenRequestsOwned(d);
  }

  /** Rewriting a mover profile of an existing account keeps the store consistent. */
  lemma SetMoverKeeps(db: Db, id: Id, m: Mover)
    requires Consistent(db) && id in db.users
    ensures Consistent(SetMover(db, id, m))
  {
    var d := SetMover(db, id, m);
    assert FreshIds(d) by { BelowPut(db.movers, db.nextId, id, m); }
  }

  /** A new moving request within the caps keeps the store consistent. */
  lemma NewMovingInfoKeeps(db: Db, info: MovingInfo)
    requires Consistent(db)
    requires info.estimateCount <= 5 && info.designatedCount <= 3
    ensures Consistent(NewMovingInfo(db, info))
  {
    var d := NewMovingInfo(db, info);
    assert FreshIds(d) by { BelowPut(db.movingInfos, d.nextId, db.nextId, info); }
    assert OpenRequestsOwned(d);
  }

  /** Rewriting one moving request keeps the store consistent when its owner stays and its caps hold. */
  lemma SetMovingInfoKeeps(db: Db, m: Id, info: MovingInfo)
    requires Consistent(db) && m in db.movingInfos
    requires info.customerId == db.movingInfos[m].customerId
    requires info.estimateCount <= 5 && info.designatedCount <= 3
    ensures Consistent(SetMovingInfo(db, m, info))
  {
    var d := SetMovingInfo(db, m, info);
    assert FreshIds(d) by { BelowPut(db.movingInfos, db.nextId, m, info); }
  }

  lemma NewEstimateKeeps(db: Db, e: Estimate)
    requires Consistent(db)
    ensures Consistent(NewEstimate(db, e))
  {
    var d := NewEstimate(db, e);
    BelowPut(db.estimates, d.nextId, db.nextId, e);
    KeepsLooseTables(db, d);
  }

  lemma SetEstimateKeeps(db: Db, id: Id, e: Estimate)
    requires Consistent(db) && id in db.estimates
    ensures Consistent(SetEstimate(db, id, e))
  {
    var d := SetEstimate(db, id, e);
    BelowPut(db.estimates, d.nextId, id, e);
    KeepsLooseTables(db, d);
  }

  lemma NewDesignationKeeps(db: Db, r: DesignatedRequest)
    requires Consistent(db)
    ensures Consistent(NewDesignation(db, r))
  {
    var d := NewDesignation(db, r);
    BelowPut(db.designations, d.nextId, db.nextId, r);
    KeepsLooseTables(db, d);
  }

  /** A new review keeps the store consistent when the customer has none for that estimate. */
  lemma NewReviewKeeps(db: Db, r: Review)
    requires Consistent(db)
    requires forall k :: k in db.reviews ==>
      !(db.reviews[k].estimateId == r.estimateId && db.reviews[k].customerId == r.customerId)
    ensures Consistent(NewReview(db, r))
  {
    var d := NewReview(db, r);
    assert FreshIds(d) by { BelowPut(db.reviews, d.nextId, db.nextId, r); }
    assert OneReviewPerEstimate(d);
  }

  /** Rewriting a review keeps the store consistent when its estimate and customer stay. */
  lemma SetReviewKeeps(db: Db, id: Id, r: Review)
    requires Consistent(db) && id in db.reviews
    requires db.reviews[id].estimateId == r.estimateId && db.reviews[id].customerId == r.customerId
    ensures Consistent(SetReview(db, id, r))
  {
    var d := SetReview(db, id, r);
    assert FreshIds(d) by { BelowPut(db.reviews, db.nextId, id, r); }
    assert OneReviewPerEstimate(d);
  }

  lemma DropReviewKeeps(db: Db, id: Id)
    requires Consistent(db)
    ensures Consistent(DropReview(db, id))
  {
    var d := DropReview(db, id);
    assert FreshIds(d);
    assert OneReviewPerEstimate(d);
  }

  /** A new favorite keeps the store consistent when the pair is not a favorite yet. */
  lemma NewFavoriteKeeps(db: Db, f: Favorite)
    requires Consistent(db)
    requires forall k :: k in db.favorites ==>
      !(db.favorites[k].customerId == f.customerId && db.favorites[k].moverId == f.moverId)
    ensures Consistent(NewFavorite(db, f))
  {
    var d := NewFavorite(db, f);
    assert FreshIds(d) by { BelowPut(db.favorites, d.nextId, db.nextId, f); }
    assert OneFavoritePerPair(d);
  }

  lemma DropFavoriteKeeps(db: Db, id: Id)
    requires Consistent(db)
    ensures Consistent(DropFavorite(db, id))
  {
    var d := DropFavorite(db, id);
    assert FreshIds(d);
    assert OneFavoritePerPair(d);
  }

  lemma NewNotificationKeeps(db: Db, n: Notification)
    requires Consistent(db)
    ensures Consistent(NewNotification(db, n))
  {
    var d := NewNotification(db, n);
    BelowPut(db.notifications, d.nextId, db.nextId, n);
    KeepsLooseTables(db, d);
  }

  lemma SetNotificationKeeps(db: Db, id: Id, n: Notification)
    requires Consistent(db) && id in db.notifications
    ensures Consistent(SetNotification(db, id, n))
  {
    var d := SetNotification(db, id, n);
    BelowPut(db.notifications, d.nextId, id, n);
    KeepsLooseTables(db, d);
  }

  lemma NewServiceTypeKeeps(db: Db, row: TypeRow)
    requires Consistent(db)
    ensures Consistent(NewServiceType(db, row))
  {
    var d := NewServiceType(db, row);
    BelowPut(db.serviceTypes, d.nextId, db.nextId, row);
    KeepsLooseTables(db, d);
  }

  lemma NewServiceAreaKeeps(db: Db, row: AreaRow)
    requires Consistent(db)
    ensures Consistent(NewServiceArea(db, row))
  {
    var d := NewServiceArea(db, row);
    BelowPut(db.serviceAreas, d.nextId, db.nextId, row);
    KeepsLooseTables(db, d);
  }

  lemma DropServiceRowsKeeps(db: Db, mover: Id)
    requires Consistent(db)
    ensures Consistent(DropServiceAreasOf(DropServiceTypesOf(db, mover), mover))
  {
    var d := DropServiceAreasOf(DropServiceTypesOf(db, mover), mover);
    assert Below(d.serviceTypes, d.nextId) && Below(d.serviceAreas, d.nextId);
    KeepsLooseTables(db, d);
  }

  /** A selection over a table whose ids are all below `n1` is the same up to any `n2 >= n1`. */
  lemma {:induction false} SelectBeyond<T>(m: map<Id, T>, n1: nat, n2: nat, p: T -> bool)
    requires n1 <= n2 && Below(m, n1)
    ensures Select(m, n2, p) == Select(m, n1, p)
    decreases n2
  {
    if n2 > n1 {
      SelectBeyond(m, n1, n2 - 1, p);
    }
  }

  /** `findUnique({ where: { email } })` on UserInfo. */
  function UserByEmail(db: Db, email: string): (r: Option<Id>)
    ensures r.Some? ==> r.value in db.users && db.users[r.value].email == email
    ensures FreshIds(db) ==> (r.None? <==> forall k :: k in db.users ==> db.users[k].email != email)
    ensures r.Some? && UniqueEmails(db) ==>
      forall k :: k in db.users && db.users[k].email == email ==> k == r.value
  {
    FirstKey(db.users, db.nextId, (u: UserInfo) => u.email == email)
  }

  /** The lookup by e-mail only depends on the accounts, not on how many ids were handed out. */
  lemma UserByEmailStable(db: Db, db': Db, email: string)
    requires FreshIds(db) && db'.users == db.users && db.nextId <= db'.nextId
    ensures UserByEmail(db', email) == UserByEmail(db, email)
  {
    SelectBeyond(db.users, db.nextId, db'.nextId, (u: UserInfo) => u.email == email);
  }

  /** Rewriting an account without changing its e-mail leaves every lookup by e-mail as it was. */
  lemma UserByEmailAfterSet(db: Db, id: Id, u: UserInfo, email: string)
    requires id in db.users && db.users[id].email == u.email
    ensures UserByEmail(SetUser(db, id, u), email) == UserByEmail(db, email)
  {
    SelectAgree(SetUser(db, id, u).users, db.users, db.nextId, (u: UserInfo) => u.email == email);
  }

  /** The prelude every authenticated handler runs: the verified access token's e-mail (None
      when the Authorization header carries no token) and the account with that e-mail. */
  function Caller(db: Db, auth: Option<string>): (r: Reply<Id>)
    ensures auth.None? ==> r == Fail(Unauthorized)
    ensures auth.Some? && UserByEmail(db, auth.value).None? ==> r == Fail(UserNotFound)
    ensures auth.Some? && UserByEmail(db, auth.value).Some? ==> r == Ok(UserByEmail(db, auth.value).value)
    ensures r.Ok? ==> r.value in db.users
  {
    if auth.None? then Fail(Unauthorized)
    else
      var user := UserByEmail(db, auth.value);
      if user.None? then Fail(UserNotFound) else Ok(user.value)
  }

  /** The rows of a ServiceType or ServiceableArea table that do not belong to `mover`, whose
      owner column is `owner`: `deleteMany({ where: { moverId } })`. */
  function DropRowsOf<R>(rows: map<Id, R>, owner: R -> Id, mover: Id): (r: map<Id, R>)
    ensures forall k :: k in r <==> k in rows && owner(rows[k]) != mover
    ensures forall k :: k in r ==> r[k] == rows[k]
  {
    map k | k in rows && owner(rows[k]) != mover :: rows[k]
  }

  function TypeOwner(t: TypeRow): Id { t.moverId }

  function AreaOwner(a: AreaRow): Id { a.moverId }

  /** The mutable store: one field per table, updated in place. Its methods are the persistence
      calls the handlers make (`create`, `update`, `delete`, `deleteMany`); a `create` hands out
      the next id. */
  class Store {
    var users: map<Id, UserInfo>
    var customers: map<Id, Customer>
    var movers: map<Id, Mover>
    var movingInfos: map<Id, MovingInfo>
    var estimates: map<Id, Estimate>
    var designations: map<Id, DesignatedRequest>
    var reviews: map<Id, Review>
    var favorites: map<Id, Favorite>
    var notifications: map<Id, Notification>
    var serviceTypes: map<Id, TypeRow>
    var serviceAreas: map<Id, AreaRow>
    var nextId: nat

    /** The tables as one value. */
    function Snapshot(): Db
      reads this
    {
      Db(users, customers, movers, movingInfos, estimates, designations, reviews, favorites,
         notifications, serviceTypes, serviceAreas, nextId)
    }

    /** A store holding the given tables. */
    constructor (db: Db)
      ensures Snapshot() == db
    {
      users, customers, movers := db.users, db.customers, db.movers;
      movingInfos, estimates, designations := db.movingInfos, db.estimates, db.designations;
      reviews, favorites, notifications := db.reviews, db.favorites, db.notifications;
      serviceTypes, serviceAreas, nextId := db.serviceTypes, db.serviceAreas, db.nextId;
    }

    method InsertUser(u: UserInfo) returns (id: Id)
      modifies this
      ensures id == old(nextId)
      ensures Snapshot() == NewUser(old(Snapshot()), u)
    {
      id := nextId;
      users := users[id := u];
      nextId := id + 1;
    }

    method PutUser(id: Id, u: UserInfo)
      modifies this
      ensures Snapshot() == SetUser(old(Snapshot()), id, u)
    {
      users := users[id := u];
    }

    method PutCustomer(id: Id, c: Customer)
      modifies this
      ensures Snapshot() == SetCustomer(old(Snapshot()), id, c)
    {
      customers := customers[id := c];
    }

    method PutMover(id: Id, m: Mover)
      modifies this
      ensures Snapshot() == SetMover(old(Snapshot()), id, m)
    {
      movers := movers[id := m];
    }

    method InsertMovingInfo(info: MovingInfo) returns (id: Id)
      modifies this
      ensures id == old(nextId)
      ensures Snapshot() == NewMovingInfo(old(Snapshot()), info)
    {
      id := nextId;
      movingInfos := movingInfos[id := info];
      nextId := id + 1;
    }

    method PutMovingInfo(id: Id, info: MovingInfo)
      modifies this
      ensures Snapshot() == SetMovingInfo(old(Snapshot()), id, info)
    {
      movingInfos := movingInfos[id := info];
    }

    method InsertEstimate(e: Estimate) returns (id: Id)
      modifies this
      ensures id == old(nextId)
      ensures Snapshot() == NewEstimate(old(Snapshot()), e)
    {
      id := nextId;
      estimates := estimates[id := e];
      nextId := id + 1;
    }

    method PutEstimate(id: Id, e: Estimate)
      modifies this
      ensures Snapshot() == SetEstimate(old(Snapshot()), id, e)
    {
      estimates := estimates[id := e];
    }

    method InsertDesignation(d: DesignatedRequest) returns (id: Id)
      modifies this
      ensures id == old(nextId)
      ensures Snapshot() == NewDesignation(old(Snapshot()), d)
    {
      id := nextId;
      designations := designations[id := d];
      nextId := id + 1;
    }

    method InsertReview(r: Review) returns (id: Id)
      modifies this
      ensures id == old(nextId)
      ensures Snapshot() == NewReview(old(Snapshot()), r)
    {
      id := nextId;
      reviews := reviews[id := r];
      nextId := id + 1;
    }

    method PutReview(id: Id, r: Review)
      modifies this
      ensures Snapshot() == SetReview(old(Snapshot()), id, r)
    {
      reviews := reviews[id := r];
    }

    method DeleteReview(id: Id)
      modifies this
      ensures Snapshot() == DropReview(old(Snapshot()), id)
    {
      reviews := reviews - {id};
    }

    method InsertFavorite(f: Favorite) returns (id: Id)
      modifies this
      ensures id == old(nextId)
      ensures Snapshot() == NewFavorite(old(Snapshot()), f)
    {
      id := nextId;
      favorites := favorites[id := f];
      nextId := id + 1;
    }

    method DeleteFavorite(id: Id)
      modifies this
      ensures Snapshot() == DropFavorite(old(Snapshot()), id)
    {
      favorites := favorites - {id};
    }

    method InsertNotification(n: Notification) returns (id: Id)
      modifies this
      ensures id == old(nextId)
      ensures Snapshot() == NewNotification(old(Snapshot()), n)
    {
      id := nextId;
      notifications := notifications[id := n];
      nextId := id + 1;
    }

    method PutNotification(id: Id, n: Notification)
      modifies this
      ensures Snapshot() == SetNotification(old(Snapshot()), id, n)
    {
      notifications := notifications[id := n];
    }

    method InsertServiceType(row: TypeRow) returns (id: Id)
      modifies this
      ensures id == old(nextId)
      ensures Snapshot() == NewServiceType(old(Snapshot()), row)
    {
      id := nextId;
      serviceTypes := serviceTypes[id := row];
      nextId := id + 1;
    }

    method InsertServiceArea(row: AreaRow) returns (id: Id)
      modifies this
      ensures id == old(nextId)
      ensures Snapshot() == NewServiceArea(old(Snapshot()), row)
    {
      id := nextId;
      serviceAreas := serviceAreas[id := row];
      nextId := id + 1;
    }

    method DeleteServiceTypesOf(mover: Id)
      modifies this
      ensures Snapshot() == DropServiceTypesOf(old(Snapshot()), mover)
    {
      serviceTypes := DropRowsOf(serviceTypes, TypeOwner, mover);
    }

    method DeleteServiceAreasOf(mover: Id)
      modifies this
      ensures Snapshot() == DropServiceAreasOf(old(Snapshot()), mover)
    {
      serviceAreas := DropRowsOf(serviceAreas, AreaOwner, mover);
    }
  }
}

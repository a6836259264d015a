/** The favorite controller: a customer marks movers as favorites (once per mover), removes a
    favorite, and lists its favorite movers filtered by name. */
module Favorites {
  import opened Common
  import opened Records

  /** `favorite.findFirst({ where: { customerId, moverId } })`. */
  function FavoriteOf(db: Db, c: Id, m: Id): (r: Option<Id>)
    ensures r.Some? ==> r.value in db.favorites && db.favorites[r.value] == Favorite(c, m)
    ensures FreshIds(db) ==> (r.None? <==> forall k :: k in db.favorites ==> db.favorites[k] != Favorite(c, m))
  {
    FirstKey(db.favorites, db.nextId, (f: Favorite) => f.customerId == c && f.moverId == m)
  }

  // ---------------------------------------------------------------- favorite

  /** `favorite`: the caller marks mover `moverId` as a favorite. */
  function FavoriteStep(db: Db, auth: Option<string>, moverId: Option<Id>): (st: Step<Id>)
    ensures Caller(db, auth).Fail? ==> st == Reject(db, Caller(db, auth).why)
    ensures Caller(db, auth).Ok? ==> st == FavorAs(db, Caller(db, auth).value, moverId)
  {
    var caller := Caller(db, auth);
    if caller.Fail? then Reject(db, caller.why) else FavorAs(db, caller.value, moverId)
  }

  /** The checks and the effect of `favorite` once the caller's account `c` is known: it must be a
      customer account with a Customer profile, and the mover must exist. */
  function FavorAs(db: Db, c: Id, moverId: Option<Id>): (st: Step<Id>)
    requires c in db.users
    ensures st.reply.Fail? ==> st.db == db
    ensures st.reply.Ok? <==>
      && db.users[c].userType == CUSTOMER && c in db.customers
      && moverId.Some? && moverId.value in db.movers
      && FavoriteOf(db, c, moverId.value).None?
    ensures db.users[c].userType != CUSTOMER ==> st.reply == Fail(CustomerOnly)
    ensures db.users[c].userType == CUSTOMER && c !in db.customers ==> st.reply == Fail(NotCustomer)
    ensures db.users[c].userType == CUSTOMER && c in db.customers && moverId.None? ==> st.reply == Fail(Missing("moverId"))
    ensures (db.users[c].userType == CUSTOMER && c in db.customers && moverId.Some? &&
             moverId.value !in db.movers) ==> st.reply == Fail(NotFound("mover"))
    ensures (db.users[c].userType == CUSTOMER && c in db.customers && moverId.Some? &&
             moverId.value in db.movers && FavoriteOf(db, c, moverId.value).Some?) ==> st.reply == Fail(AlreadyFavorite)
    ensures st.reply.Ok? ==> st.reply.value == db.nextId && st.db == NewFavorite(db, Favorite(c, moverId.value))
  {
    if db.users[c].userType != CUSTOMER then Reject(db, CustomerOnly)
    else if c !in db.customers then Reject(db, NotCustomer)
    else if moverId.None? then Reject(db, Missing("moverId"))
    else if moverId.value !in db.movers then Reject(db, NotFound("mover"))
    else if FavoriteOf(db, c, moverId.value).Some? then Reject(db, AlreadyFavorite)
    else Step(NewFavorite(db, Favorite(c, moverId.value)), Ok(db.nextId))
  }

  /** Marking keeps the store consistent: (customer, mover) pairs stay unique. */
  lemma FavoriteConsistent(db: Db, auth: Option<string>, moverId: Option<Id>)
    requires Consistent(db)
    ensures Consistent(FavoriteStep(db, auth, moverId).db)
  {
    if Caller(db, auth).Ok? && FavorAs(db, Caller(db, auth).value, moverId).reply.Ok? {
      NewFavoriteKeeps(db, Favorite(Caller(db, auth).value, moverId.value));
    }
  }

  /** A favorite adds exactly one row, the (caller, mover) pair, and changes nothing else. */
  lemma FavorEffect(db: Db, c: Id, moverId: Option<Id>)
    requires FreshIds(db) && c in db.users
    requires FavorAs(db, c, moverId).reply.Ok?
    ensures var st := FavorAs(db, c, moverId);
      var id := st.reply.value;
      && id !in db.favorites && st.db.favorites == db.favorites[id := Favorite(c, moverId.value)]
      && (forall k :: k in db.favorites ==> db.favorites[k] != Favorite(c, moverId.value))
      && st.db.(favorites := db.favorites, nextId := db.nextId) == db
  {
  }

  /** A second favorite of the same mover by the same caller fails and changes nothing. */
  lemma FavoriteOnce(db: Db, auth: Option<string>, m: Id)
    requires FreshIds(db)
    requires FavoriteStep(db, auth, Some(m)).reply.Ok?
    ensures var db1 := FavoriteStep(db, auth, Some(m)).db;
      && FavoriteStep(db1, auth, Some(m)).reply == Fail(AlreadyFavorite)
      && FavoriteStep(db1, auth, Some(m)).db == db1
  {
    var db1 := FavoriteStep(db, auth, Some(m)).db;
    UserByEmailStable(db, db1, auth.value);
    var c := Caller(db, auth).value;
    assert db1.favorites[db.nextId] == Favorite(c, m);
    assert db.nextId < db1.nextId;
    assert FavoriteOf(db1, c, m).Some?;
  }

  method Favor(s: Store, auth: Option<string>, moverId: Option<Id>) returns (r: Reply<Id>)
    modifies s
    ensures Step(s.Snapshot(), r) == FavoriteStep(old(s.Snapshot()), auth, moverId)
  {
    var caller := Caller(s.Snapshot(), auth);
    if caller.Fail? {
      return Fail(caller.why);
    }
    var c := caller.value;
    if s.users[c].userType != CUSTOMER {
      return Fail(CustomerOnly);
    }
    if c !in s.customers {
      return Fail(NotCustomer);
    }
    if moverId.None? {
      return Fail(Missing("moverId"));
    }
    if moverId.value !in s.movers {
      return Fail(NotFound("mover"));
    }
    if FavoriteOf(s.Snapshot(), c, moverId.value).Some? {
      return Fail(AlreadyFavorite);
    }
    var id := s.InsertFavorite(Favorite(c, moverId.value));
    return Ok(id);
  }

  // ---------------------------------------------------------------- favoriteDelete

  /** `favoriteDelete`: a customer removes favorite `favoriteId`. */
  function FavoriteDeleteStep(db: Db, auth: Option<string>, favoriteId: Option<Id>): (st: Step<()>)
    ensures Caller(db, auth).Fail? ==> st == Reject(db, Caller(db, auth).why)
    ensures Caller(db, auth).Ok? ==> st == UnfavorAs(db, Caller(db, auth).value, favoriteId)
  {
    var caller := Caller(db, auth);
    if caller.Fail? then Reject(db, caller.why) else UnfavorAs(db, caller.value, favoriteId)
  }

  /** The checks and the effect of `favoriteDelete`; the favorite is found by id alone. */
  function UnfavorAs(db: Db, c: Id, favoriteId: Option<Id>): (st: Step<()>)
    ensures st.reply.Fail? ==> st.db == db
    ensures st.reply.Ok? <==> c in db.customers && favoriteId.Some? && favoriteId.value in db.favorites
    ensures c !in db.customers ==> st.reply == Fail(NotCustomer)
    ensures c in db.customers && favoriteId.None? ==> st.reply == Fail(Missing("favoriteId"))
    ensures c in db.customers && favoriteId.Some? && favoriteId.value !in db.favorites ==> st.reply == Fail(NotFound("favorite"))
    ensures st.reply.Ok? ==> st.db == DropFavorite(db, favoriteId.value)
  {
    if c !in db.customers then Reject(db, NotCustomer)
    else if favoriteId.None? then Reject(db, Missing("favoriteId"))
    else if favoriteId.value !in db.favorites then Reject(db, NotFound("favorite"))
    else Step(DropFavorite(db, favoriteId.value), Ok(()))
  }

  lemma FavoriteDeleteConsistent(db: Db, auth: Option<string>, favoriteId: Option<Id>)
    requires Consistent(db)
    ensures Consistent(FavoriteDeleteStep(db, auth, favoriteId).db)
  {
    if Caller(db, auth).Ok? && UnfavorAs(db, Caller(db, auth).value, favoriteId).reply.Ok? {
      DropFavoriteKeeps(db, favoriteId.value);
    }
  }

  /** A removal deletes exactly that favorite, whoever it belongs to, and nothing else. */
  lemma UnfavorEffect(db: Db, c: Id, favoriteId: Option<Id>)
    requires UnfavorAs(db, c, favoriteId).reply.Ok?
    ensures var st := UnfavorAs(db, c, favoriteId);
      && st.db.favorites.Keys == db.favorites.Keys - {favoriteId.value}
      && (forall k :: k in st.db.favorites ==> st.db.favorites[k] == db.favorites[k])
      && st.db.(favorites := db.favorites) == db
  {
  }

  /** After removing its favorite of a mover, the customer can mark that mover again. */
  lemma FavoriteAgain(db: Db, c: Id, f: Id)
    requires Consistent(db) && c in db.customers && db.users[c].userType == CUSTOMER
    requires f in db.favorites && db.favorites[f].customerId == c && db.favorites[f].moverId in db.movers
    ensures var db1 := UnfavorAs(db, c, Some(f)).db;
      FavorAs(db1, c, Some(db.favorites[f].moverId)).reply.Ok?
  {
    var m := db.favorites[f].moverId;
    var db1 := UnfavorAs(db, c, Some(f)).db;
    assert FreshIds(db1);
    forall k | k in db1.favorites
      ensures db1.favorites[k] != Favorite(c, m)
    {
      assert k in db.favorites && k != f;
    }
  }

  method Unfavor(s: Store, auth: Option<string>, favoriteId: Option<Id>) returns (r: Reply<()>)
    modifies s
    ensures Step(s.Snapshot(), r) == FavoriteDeleteStep(old(s.Snapshot()), auth, favoriteId)
  {
    var caller := Caller(s.Snapshot(), auth);
    if caller.Fail? {
      return Fail(caller.why);
    }
    if caller.value !in s.customers {
      return Fail(NotCustomer);
    }
    if favoriteId.None? {
      return Fail(Missing("favoriteId"));
    }
    if favoriteId.value !in s.favorites {
      return Fail(NotFound("favorite"));
    }
    s.DeleteFavorite(favoriteId.value);
    return Ok(());
  }

  // ---------------------------------------------------------------- favoriteList

  /** The movers the customer's favorites point at: `favorites.map(f => f.moverId)`. */
  function FavoredBy(db: Db, c: Id): set<Id>
  {
    set k | k in db.favorites && db.favorites[k].customerId == c :: db.favorites[k].moverId
  }

  /** The listing's filter on a mover id: among the favored movers, with an account whose name
      contains `name`. */
  function Favored(db: Db, c: Id, name: string): Id -> bool
  {
    (m: Id) => m in FavoredBy(db, c) && m in db.users && Contains(db.users[m].name, name)
  }

  /** `favoriteList`: the caller's favorite movers whose name contains `moverName` (default ""),
      in id order; `page` defaults to 1 and `size` to 8. */
  function FavoriteList(db: Db, auth: Option<string>, page: QueryNum, size: QueryNum,
                        moverName: Option<string>): (r: Reply<Page<Id>>)
    ensures Caller(db, auth).Fail? ==> r == Fail(Caller(db, auth).why)
    ensures Caller(db, auth).Ok? && Caller(db, auth).value !in db.customers ==> r == Fail(NotCustomer)
    ensures (Caller(db, auth).Ok? && Caller(db, auth).value in db.customers &&
             (page.NotANumber? || size.NotANumber?)) ==> r == Fail(NotNumeric)
    ensures r.Ok? <==>
      && Caller(db, auth).Ok? && Caller(db, auth).value in db.customers
      && !page.NotANumber? && !size.NotANumber?
      && (Numeric(page, 1).value - 1) * Numeric(size, 8).value >= 0
    ensures (r.Fail? && Caller(db, auth).Ok? && Caller(db, auth).value in db.customers &&
             !page.NotANumber? && !size.NotANumber?) ==> r == Fail(ServerError)
    ensures r.Ok? ==>
      var c := Caller(db, auth).value;
      var name := if moverName.Some? then moverName.value else "";
      var p := Numeric(page, 1).value;
      var n := Numeric(size, 8).value;
      && c in db.customers && !page.NotANumber? && !size.NotANumber?
      && Window(Select(IdTable(db.movers), db.nextId, Favored(db, c, name)), (p - 1) * n, n).Some?
      && r.value.rows == Window(Select(IdTable(db.movers), db.nextId, Favored(db, c, name)), (p - 1) * n, n).value
      && r.value.totalElement == CountWhere(IdTable(db.movers), db.nextId, Favored(db, c, name))
      && r.value.currentPage == p
      && r.value.totalPages == PageCount(r.value.totalElement, n)
  {
    var caller := Caller(db, auth);
    if caller.Fail? then Fail(caller.why)
    else if caller.value !in db.customers then Fail(NotCustomer)
    else if page.NotANumber? || size.NotANumber? then Fail(NotNumeric)
    else
      var name := if moverName.Some? then moverName.value else "";
      var p := Numeric(page, 1).value;
      var n := Numeric(size, 8).value;
      var keep := Favored(db, caller.value, name);
      var w := Window(Select(IdTable(db.movers), db.nextId, keep), (p - 1) * n, n);
      if w.None? then Fail(ServerError)
      else
        var total := CountWhere(IdTable(db.movers), db.nextId, keep);
        Ok(Page(total, p, PageCount(total, n), w.value))
  }

  /** A favored mover is one the customer has a favorite row for. */
  lemma FavoredByMeans(db: Db, c: Id, m: Id)
    ensures m in FavoredBy(db, c) <==> exists k :: k in db.favorites && db.favorites[k] == Favorite(c, m)
  {
    if m in FavoredBy(db, c) {
      var k :| k in db.favorites && db.favorites[k].customerId == c && db.favorites[k].moverId == m;
      assert db.favorites[k] == Favorite(c, m);
    }
    if k :| k in db.favorites && db.favorites[k] == Favorite(c, m) {
      assert db.favorites[k].moverId in FavoredBy(db, c);
    }
  }

  /** Each listed mover is a mover the caller has a favorite of, whose name contains the filter. */
  lemma FavoriteListed(db: Db, auth: Option<string>, page: QueryNum, size: QueryNum, moverName: Option<string>)
    requires FavoriteList(db, auth, page, size, moverName).Ok?
    ensures var r := FavoriteList(db, auth, page, size, moverName).value;
      var c := Caller(db, auth).value;
      var name := if moverName.Some? then moverName.value else "";
      forall m :: m in r.rows ==>
        && m in db.movers && m in db.users
        && (exists k :: k in db.favorites && db.favorites[k] == Favorite(c, m))
        && Contains(db.users[m].name, name)
  {
    var c := Caller(db, auth).value;
    var name := if moverName.Some? then moverName.value else "";
    var all := Select(IdTable(db.movers), db.nextId, Favored(db, c, name));
    WindowWithin(all, (Numeric(page, 1).value - 1) * Numeric(size, 8).value, Numeric(size, 8).value);
    forall m | m in FavoriteList(db, auth, page, size, moverName).value.rows
      ensures m in db.movers && m in db.users && Contains(db.users[m].name, name)
      ensures exists k :: k in db.favorites && db.favorites[k] == Favorite(c, m)
    {
      assert m in all;
      FavoredByMeans(db, c, m);
    }
  }

  /** The total counts exactly the favored movers whose name contains the filter. */
  lemma FavoriteCounted(db: Db, auth: Option<string>, page: QueryNum, size: QueryNum, moverName: Option<string>)
    requires FreshIds(db)
    requires FavoriteList(db, auth, page, size, moverName).Ok?
    ensures var c := Caller(db, auth).value;
      var name := if moverName.Some? then moverName.value else "";
      FavoriteList(db, auth, page, size, moverName).value.totalElement
        == |set m | m in db.movers && Favored(db, c, name)(m)|
  {
    FavoredCount(db, Caller(db, auth).value, if moverName.Some? then moverName.value else "");
  }

  lemma FavoredCount(db: Db, c: Id, name: string)
    requires FreshIds(db)
    ensures CountWhere(IdTable(db.movers), db.nextId, Favored(db, c, name))
         == |set m | m in db.movers && Favored(db, c, name)(m)|
  {
    var ids := IdTable(db.movers);
    var p := Favored(db, c, name);
    CountIsCard(ids, db.nextId, p);
    var chosen := set m | m in db.movers && p(m);
    forall k | k in KeysWhere(ids, db.nextId, p)
      ensures k in chosen
    {
      assert ids[k] == k;
    }
    forall m | m in chosen
      ensures m in KeysWhere(ids, db.nextId, p)
    {
      assert m in ids && ids[m] == m && m < db.nextId;
    }
    assert KeysWhere(ids, db.nextId, p) == chosen;
  }

  /** The default name filter "" keeps every favored mover: the listing then counts every mover
      the caller has a favorite of. */
  lemma FavoriteListUnfiltered(db: Db, auth: Option<string>, page: QueryNum, size: QueryNum)
    requires FreshIds(db) && ProfilesExtendAccounts(db)
    requires FavoriteList(db, auth, page, size, None).Ok?
    ensures var c := Caller(db, auth).value;
      FavoriteList(db, auth, page, size, None).value.totalElement
        == |set m | m in db.movers && m in FavoredBy(db, c)|
  {
    var c := Caller(db, auth).value;
    FavoriteCounted(db, auth, page, size, None);
    var a := set m | m in db.movers && Favored(db, c, "")(m);
    var b := set m | m in db.movers && m in FavoredBy(db, c);
    forall m | m in b
      ensures m in a
    {
      ContainsEmpty(db.users[m].name);
    }
    assert a == b;
  }
}

/** The mover controller: the public mover search with its name, area and type filters, and the
    two handlers by which a mover edits its account and replaces its profile, including the
    kinds of move it offers and the areas it serves. */
module Movers {
  import opened Common
  import opened Records

  // ---------------------------------------------------------------- moverList

  /** The `movingArea` query parameter: absent (the default "[]"), a text that `JSON.parse`
      turns into a value, or a text it cannot parse. */
  datatype AreaParam = DefaultAreas | Parsed(value: ListInput) | Malformed

  /** The filters a search applies; each part that is absent or empty is left out of the `AND`. */
  datatype MoverFilter = MoverFilter(name: Option<string>, areas: seq<string>, movingType: Option<MovingType>)

  /** A validated search: page, page size and filters. */
  datatype MoverQuery = MoverQuery(page: int, size: int, filter: MoverFilter)

  /** The keys `orderBy` accepts. */
  predicate KnownOrder(key: string)
  {
    key == "ratingDesc" || key == "careerDesc" || key == "confirmCountDesc"
  }

  /** The checks of `moverList` in their order, and the filters they leave. `serviceable` is the
      list of areas movers may serve. A parsed `null` passes every check and then fails when its
      length is read. */
  function MoverListQuery(page: QueryNum, size: QueryNum, orderBy: Option<string>, moverName: Option<string>,
                          movingArea: AreaParam, movingType: Option<string>, serviceable: set<string>): (r: Reply<MoverQuery>)
    ensures page.NotANumber? || size.NotANumber? ==> r == Fail(NotNumeric)
    ensures (!page.NotANumber? && !size.NotANumber? && Given(orderBy) && !KnownOrder(orderBy.value))
      ==> r == Fail(Invalid("orderBy"))
    ensures r.Ok? <==>
      && !page.NotANumber? && !size.NotANumber?
      && (Given(orderBy) ==> KnownOrder(orderBy.value))
      && (movingArea.DefaultAreas? || (movingArea.Parsed? && movingArea.value != Absent && movingArea.value != Scalar(true)))
      && (movingArea.Parsed? && movingArea.value.Items? ==> forall x :: x in movingArea.value.items ==> x in serviceable)
      && (Given(movingType) ==> ParseMovingType(movingType.value).Some?)
    ensures (movingArea == Parsed(Scalar(true)) && !page.NotANumber? && !size.NotANumber? &&
             (Given(orderBy) ==> KnownOrder(orderBy.value))) ==> r == Fail(NotArray("movingArea"))
    ensures r.Ok? ==>
      && r.value.page == Numeric(page, 1).value && r.value.size == Numeric(size, 8).value
      && r.value.filter.name == (if Given(moverName) then moverName else None)
      && r.value.filter.areas == (if movingArea.Parsed? && movingArea.value.Items? then movingArea.value.items else [])
      && r.value.filter.movingType == (if Given(movingType) then ParseMovingType(movingType.value) else None)
  {
    if page.NotANumber? || size.NotANumber? then Fail(NotNumeric)
    else if Given(orderBy) && !KnownOrder(orderBy.value) then Fail(Invalid("orderBy"))
    else if movingArea.Malformed? then Fail(ServerError)
    else if movingArea == Parsed(Scalar(true)) then Fail(NotArray("movingArea"))
    else if (movingArea.Parsed? && movingArea.value.Items? && |movingArea.value.items| > 0 &&
             exists x :: x in movingArea.value.items && x !in serviceable) then Fail(Invalid("movingArea"))
    else if Given(movingType) && ParseMovingType(movingType.value).None? then Fail(Invalid("movingType"))
    else if movingArea == Parsed(Absent) then Fail(ServerError)
    else
      var areas := if movingArea.Parsed? && movingArea.value.Items? then movingArea.value.items else [];
      var kind := if Given(movingType) then ParseMovingType(movingType.value) else None;
      Ok(MoverQuery(Numeric(page, 1).value, Numeric(size, 8).value,
                    MoverFilter(if Given(moverName) then moverName else None, areas, kind)))
  }

  /** The `where` of the search on a mover id: the `AND` of the parts the filter supplies. */
  function Matches(db: Db, f: MoverFilter): Id -> bool
  {
    (m: Id) =>
      && (f.name.Some? ==> m in db.users && Contains(db.users[m].name, f.name.value))
      && (|f.areas| > 0 ==>
            exists k :: k in db.serviceAreas && db.serviceAreas[k].moverId == m && db.serviceAreas[k].area in f.areas)
      && (f.movingType.Some? ==>
            exists k :: k in db.serviceTypes && db.serviceTypes[k] == TypeRow(m, f.movingType.value))
  }

  /** `moverList`: the movers that pass every supplied filter, one page of them in id order, and
      the total number of them; no caller account is needed. */
  function MoverList(db: Db, page: QueryNum, size: QueryNum, orderBy: Option<string>, moverName: Option<string>,
                     movingArea: AreaParam, movingType: Option<string>, serviceable: set<string>): (r: Reply<Page<Id>>)
    ensures MoverListQuery(page, size, orderBy, moverName, movingArea, movingType, serviceable).Fail? ==>
      r == Fail(MoverListQuery(page, size, orderBy, moverName, movingArea, movingType, serviceable).why)
    ensures MoverListQuery(page, size, orderBy, moverName, movingArea, movingType, serviceable).Ok? ==>
      var q := MoverListQuery(page, size, orderBy, moverName, movingArea, movingType, serviceable).value;
      var all := Select(IdTable(db.movers), db.nextId, Matches(db, q.filter));
      && (r.Ok? <==> Window(all, (q.page - 1) * q.size, q.size).Some?)
      && (r.Fail? ==> r.why == ServerError)
      && (r.Ok? ==>
            && r.value.rows == Window(all, (q.page - 1) * q.size, q.size).value
            && r.value.totalElement == CountWhere(IdTable(db.movers), db.nextId, Matches(db, q.filter))
            && r.value.currentPage == q.page
            && r.value.totalPages == PageCount(r.value.totalElement, q.size))
  {
    var query := MoverListQuery(page, size, orderBy, moverName, movingArea, movingType, serviceable);
    if query.Fail? then Fail(query.why)
    else
      var q := query.value;
      var keep := Matches(db, q.filter);
      var w := Window(Select(IdTable(db.movers), db.nextId, keep), (q.page - 1) * q.size, q.size);
      if w.None? then Fail(ServerError)
      else
        var total := CountWhere(IdTable(db.movers), db.nextId, keep);
        Ok(Page(total, q.page, PageCount(total, q.size), w.value))
  }

  /** Every listed mover exists and passes each filter that was supplied. */
  lemma MoverListed(db: Db, page: QueryNum, size: QueryNum, orderBy: Option<string>, moverName: Option<string>,
                    movingArea: AreaParam, movingType: Option<string>, serviceable: set<string>)
    requires MoverList(db, page, size, orderBy, moverName, movingArea, movingType, serviceable).Ok?
    ensures var rows := MoverList(db, page, size, orderBy, moverName, movingArea, movingType, serviceable).value.rows;
      forall m :: m in rows ==>
        && m in db.movers
        && (Given(moverName) ==> m in db.users && Contains(db.users[m].name, moverName.value))
        && (movingArea.Parsed? && movingArea.value.Items? && |movingArea.value.items| > 0 ==>
              exists k :: k in db.serviceAreas && db.serviceAreas[k].moverId == m &&
                          db.serviceAreas[k].area in movingArea.value.items)
        && (Given(movingType) ==>
              exists k :: k in db.serviceTypes && db.serviceTypes[k].moverId == m &&
                          TypeName(db.serviceTypes[k].serviceType) == movingType.value)
  {
    var q := MoverListQuery(page, size, orderBy, moverName, movingArea, movingType, serviceable).value;
    var all := Select(IdTable(db.movers), db.nextId, Matches(db, q.filter));
    WindowWithin(all, (q.page - 1) * q.size, q.size);
    forall m | m in MoverList(db, page, size, orderBy, moverName, movingArea, movingType, serviceable).value.rows
      ensures m in db.movers && Matches(db, q.filter)(m)
    {
      assert m in all;
    }
  }

  /** The total counts exactly the movers that pass the filter. */
  lemma MatchCount(db: Db, f: MoverFilter)
    requires FreshIds(db)
    ensures CountWhere(IdTable(db.movers), db.nextId, Matches(db, f)) == |set m | m in db.movers && Matches(db, f)(m)|
  {
    var ids := IdTable(db.movers);
    var p := Matches(db, f);
    CountIsCard(ids, db.nextId, p);
    var chosen := set m | m in db.movers && p(m);
    forall k | k in KeysWhere(ids, db.nextId, p)
      ensures k in chosen
    {
      assert ids[k] == k;
    }
    forall m | m in chosen
      ensures m in KeysWhere(ids, db.nextId, p)
    {
      assert m in ids && ids[m] == m && m < db.nextId;
    }
    assert KeysWhere(ids, db.nextId, p) == chosen;
  }

  /** A search with no name, area or type filter counts every mover. */
  lemma MoverListUnfiltered(db: Db, page: QueryNum, size: QueryNum, orderBy: Option<string>, serviceable: set<string>)
    requires FreshIds(db)
    requires MoverList(db, page, size, orderBy, None, DefaultAreas, None, serviceable).Ok?
    ensures MoverList(db, page, size, orderBy, None, DefaultAreas, None, serviceable).value.totalElement == |db.movers|
  {
    var f := MoverFilter(None, [], None);
    MatchCount(db, f);
    assert (set m | m in db.movers && Matches(db, f)(m)) == db.movers.Keys;
  }

  /** Among the rows below `n`, a filter that follows from another never counts more. */
  lemma {:induction false} CountNarrows<T>(m: map<Id, T>, n: nat, p: T -> bool, q: T -> bool)
    requires forall k :: k in m && p(m[k]) ==> q(m[k])
    ensures CountWhere(m, n, p) <= CountWhere(m, n, q)
  {
    if n > 0 {
      CountNarrows(m, n - 1, p, q);
    }
  }

  /** Adding a name filter to a search can only lower its total. */
  lemma NameFilterNarrows(db: Db, f: MoverFilter, name: string)
    requires f.name.None?
    ensures CountWhere(IdTable(db.movers), db.nextId, Matches(db, f.(name := Some(name))))
         <= CountWhere(IdTable(db.movers), db.nextId, Matches(db, f))
  {
    CountNarrows(IdTable(db.movers), db.nextId, Matches(db, f.(name := Some(name))), Matches(db, f));
  }

  /** Adding a type filter to a search can only lower its total. */
  lemma TypeFilterNarrows(db: Db, f: MoverFilter, t: MovingType)
    requires f.movingType.None?
    ensures CountWhere(IdTable(db.movers), db.nextId, Matches(db, f.(movingType := Some(t))))
         <= CountWhere(IdTable(db.movers), db.nextId, Matches(db, f))
  {
    CountNarrows(IdTable(db.movers), db.nextId, Matches(db, f.(movingType := Some(t))), Matches(db, f));
  }

  // ---------------------------------------------------------------- updateMoverInfo

  /** `updateMoverInfo`: a mover rewrites the name, phone number and password of its account.
      `hash` is the password hashing the handler applies. */
  function UpdateMoverInfoStep(db: Db, auth: Option<string>, name: Option<string>, phoneNumber: Option<string>,
                               password: Option<string>, hash: string -> string): (st: Step<()>)
    ensures Caller(db, auth).Fail? ==> st == Reject(db, Caller(db, auth).why)
    ensures Caller(db, auth).Ok? ==> st == InfoAs(db, Caller(db, auth).value, name, phoneNumber, password, hash)
  {
    var caller := Caller(db, auth);
    if caller.Fail? then Reject(db, caller.why) else InfoAs(db, caller.value, name, phoneNumber, password, hash)
  }

  /** The checks and the effect of `updateMoverInfo` once the caller's account `c` is known. */
  function InfoAs(db: Db, c: Id, name: Option<string>, phoneNumber: Option<string>, password: Option<string>,
                  hash: string -> string): (st: Step<()>)
    requires c in db.users
    ensures st.reply.Fail? ==> st.db == db
    ensures st.reply.Ok? <==> db.users[c].userType == MOVER && Given(name) && Given(phoneNumber) && Given(password)
    ensures db.users[c].userType != MOVER ==> st.reply == Fail(MoverOnly)
    ensures (db.users[c].userType == MOVER && !(Given(name) && Given(phoneNumber) && Given(password)))
      ==> st.reply == Fail(Missing("name, phoneNumber or password"))
    ensures st.reply.Ok? ==>
      st.db == SetUser(db, c, db.users[c].(name := name.value, phoneNumber := phoneNumber.value,
                                             password := hash(password.value)))
  {
    if db.users[c].userType != MOVER then Reject(db, MoverOnly)
    else if !(Given(name) && Given(phoneNumber) && Given(password)) then Reject(db, Missing("name, phoneNumber or password"))
    else
      Step(SetUser(db, c, db.users[c].(name := name.value, phoneNumber := phoneNumber.value,
                                        password := hash(password.value))), Ok(()))
  }

  lemma UpdateMoverInfoConsistent(db: Db, auth: Option<string>, name: Option<string>, phoneNumber: Option<string>,
                                  password: Option<string>, hash: string -> string)
    requires Consistent(db)
    ensures Consistent(UpdateMoverInfoStep(db, auth, name, phoneNumber, password, hash).db)
  {
    var caller := Caller(db, auth);
    if caller.Ok? && InfoAs(db, caller.value, name, phoneNumber, password, hash).reply.Ok? {
      var c := caller.value;
      SetUserKeeps(db, c, db.users[c].(name := name.value, phoneNumber := phoneNumber.value,
                                        password := hash(password.value)));
    }
  }

  /** Only the caller's account changes, and in it only the name, the phone number and the
      stored hash; its e-mail, kind, tokens and picture stay, and so does every other table. */
  lemma InfoEffect(db: Db, c: Id, name: Option<string>, phoneNumber: Option<string>, password: Option<string>,
                   hash: string -> string)
    requires c in db.users
    requires InfoAs(db, c, name, phoneNumber, password, hash).reply.Ok?
    ensures var d := InfoAs(db, c, name, phoneNumber, password, hash).db;
      && d.users.Keys == db.users.Keys
      && (forall k :: k in db.users && k != c ==> d.users[k] == db.users[k])
      && d.users[c].name == name.value && d.users[c].phoneNumber == phoneNumber.value
      && d.users[c].password == hash(password.value)
      && d.users[c].email == db.users[c].email && d.users[c].userType == MOVER
      && d.users[c].refreshToken == db.users[c].refreshToken
      && d.users[c].profileImageUrl == db.users[c].profileImageUrl
      && d.(users := db.users) == db
  {
  }

  method UpdateMoverInfo(s: Store, auth: Option<string>, name: Option<string>, phoneNumber: Option<string>,
                         password: Option<string>, hash: string -> string) returns (r: Reply<()>)
    modifies s
    ensures Step(s.Snapshot(), r) == UpdateMoverInfoStep(old(s.Snapshot()), auth, name, phoneNumber, password, hash)
  {
    var caller := Caller(s.Snapshot(), auth);
    if caller.Fail? {
      return Fail(caller.why);
    }
    var c := caller.value;
    if s.users[c].userType != MOVER {
      return Fail(MoverOnly);
    }
    if !(Given(name) && Given(phoneNumber) && Given(password)) {
      return Fail(Missing("name, phoneNumber or password"));
    }
    s.PutUser(c, s.users[c].(name := name.value, phoneNumber := phoneNumber.value, password := hash(password.value)));
    return Ok(());
  }

  // ---------------------------------------------------------------- updateMoverProfile

  /** The body of `updateMoverProfile`. */
  datatype ProfileBody = ProfileBody(
    profileImageUrl: Option<string>,
    career: Option<string>,
    oneLineIntroduction: Option<string>,
    detailDescription: Option<string>,
    serviceType: ListInput,
    serviceableArea: ListInput)

  /** JavaScript truthiness of a list field: every array is truthy, even an empty one. */
  predicate Truthy(l: ListInput)
  {
    match l
    case Absent => false
    case Items(_) => true
    case Scalar(t) => t
  }

  /** The kinds of move named in a list whose every entry is a valid name. */
  function ParsedTypes(names: seq<string>): (ts: seq<MovingType>)
    requires forall i :: 0 <= i < |names| ==> ParseMovingType(names[i]).Some?
    ensures |ts| == |names|
    ensures forall i :: 0 <= i < |names| ==> TypeName(ts[i]) == names[i]
  {
    seq(|names|, i requires 0 <= i < |names| => ParseMovingType(names[i]).value)
  }

  /** A ServiceType row of mover `c`. */
  function TypeOf(c: Id): TypeRow -> bool
  {
    (row: TypeRow) => row.moverId == c
  }

  /** A ServiceableArea row of mover `c`. */
  function AreaOf(c: Id): AreaRow -> bool
  {
    (row: AreaRow) => row.moverId == c
  }

  /** The kinds of move mover `c` offers: its ServiceType rows in id order. */
  function OfferedTypes(db: Db, c: Id): (ts: seq<MovingType>)
  {
    var ids := Select(db.serviceTypes, db.nextId, TypeOf(c));
    seq(|ids|, i requires 0 <= i < |ids| => db.serviceTypes[ids[i]].serviceType)
  }

  /** The areas mover `c` serves: its ServiceableArea rows in id order. */
  function ServedAreas(db: Db, c: Id): (areas: seq<string>)
  {
    var ids := Select(db.serviceAreas, db.nextId, AreaOf(c));
    seq(|ids|, i requires 0 <= i < |ids| => db.serviceAreas[ids[i]].area)
  }

  /** One `serviceType.create` per entry of `ts`, for mover `c`. */
  function AddTypes(db: Db, c: Id, ts: seq<MovingType>): Db
    decreases |ts|
  {
    if ts == [] then db else NewServiceType(AddTypes(db, c, ts[..|ts| - 1]), TypeRow(c, ts[|ts| - 1]))
  }

  /** One `serviceableArea.create` per entry of `areas`, for mover `c`. */
  function AddAreas(db: Db, c: Id, areas: seq<string>): Db
    decreases |areas|
  {
    if areas == [] then db else NewServiceArea(AddAreas(db, c, areas[..|areas| - 1]), AreaRow(c, areas[|areas| - 1]))
  }

  /** The writes of `updateMoverProfile` in their order: remove all of the mover's ServiceType and
      ServiceableArea rows, set the picture when one is given, rewrite the profile, then create
      one row per kind of move and one per area. */
  function Refilled(db: Db, c: Id, url: Option<string>, profile: Mover, ts: seq<MovingType>, areas: seq<string>): Db
    requires c in db.users
  {
    var cleared := DropServiceAreasOf(DropServiceTypesOf(db, c), c);
    var pictured := if Given(url) then SetUser(cleared, c, cleared.users[c].(profileImageUrl := url)) else cleared;
    AddAreas(AddTypes(SetMover(pictured, c, profile), c, ts), c, areas)
  }

  /** `updateMoverProfile`: a mover replaces its profile, its kinds of move and its areas. */
  function UpdateMoverProfileStep(db: Db, auth: Option<string>, b: ProfileBody, serviceable: set<string>): (st: Step<()>)
    ensures Caller(db, auth).Fail? ==> st == Reject(db, Caller(db, auth).why)
    ensures Caller(db, auth).Ok? ==> st == ProfileAs(db, Caller(db, auth).value, b, serviceable)
  {
    var caller := Caller(db, auth);
    if caller.Fail? then Reject(db, caller.why) else ProfileAs(db, caller.value, b, serviceable)
  }

  /** All five required fields are present and truthy. */
  predicate Complete(b: ProfileBody)
  {
    Given(b.career) && Given(b.oneLineIntroduction) && Given(b.detailDescription)
    && Truthy(b.serviceType) && Truthy(b.serviceableArea)
  }

  /** The checks and the effect of `updateMoverProfile` once the caller's account `c` is known. */
  function ProfileAs(db: Db, c: Id, b: ProfileBody, serviceable: set<string>): (st: Step<()>)
    requires c in db.users
    ensures st.reply.Fail? ==> st.db == db
    ensures st.reply.Ok? <==>
      && db.users[c].userType == MOVER && Complete(b)
      && b.serviceType.Items? && (forall x :: x in b.serviceType.items ==> ParseMovingType(x).Some?)
      && b.serviceableArea.Items? && (forall x :: x in b.serviceableArea.items ==> x in serviceable)
      && c in db.movers
    ensures db.users[c].userType != MOVER ==> st.reply == Fail(MoverOnly)
    ensures db.users[c].userType == MOVER && !Complete(b) ==>
      st.reply == Fail(Missing("career, oneLineIntroduction, detailDescription, serviceType or serviceableArea"))
    ensures db.users[c].userType == MOVER && Complete(b) && !b.serviceType.Items? ==>
      st.reply == Fail(NotArray("serviceType"))
    ensures (db.users[c].userType == MOVER && Complete(b) && b.serviceType.Items? &&
             exists x :: x in b.serviceType.items && ParseMovingType(x).None?) ==>
      st.reply == Fail(Invalid("serviceType"))
    ensures st.reply.Ok? ==>
      st.db == Refilled(db, c, b.profileImageUrl,
                        Mover(b.career.value, b.oneLineIntroduction.value, b.detailDescription.value),
                        ParsedTypes(b.serviceType.items), b.serviceableArea.items)
  {
    if db.users[c].userType != MOVER then Reject(db, MoverOnly)
    else if !Complete(b) then
      Reject(db, Missing("career, oneLineIntroduction, detailDescription, serviceType or serviceableArea"))
    else if !b.serviceType.Items? then Reject(db, NotArray("serviceType"))
    else if exists x :: x in b.serviceType.items && ParseMovingType(x).None? then Reject(db, Invalid("serviceType"))
    else if !b.serviceableArea.Items? then Reject(db, NotArray("serviceableArea"))
    else if exists x :: x in b.serviceableArea.items && x !in serviceable then Reject(db, Invalid("serviceableArea"))
    else if c !in db.movers then Reject(db, NotFound("mover"))
    else
      Step(Refilled(db, c, b.profileImageUrl,
                    Mover(b.career.value, b.oneLineIntroduction.value, b.detailDescription.value),
                    ParsedTypes(b.serviceType.items), b.serviceableArea.items), Ok(()))
  }

  /** The later checks of `updateMoverProfile`, reached once the kinds of move are valid. */
  lemma ProfileRejects(db: Db, c: Id, b: ProfileBody, serviceable: set<string>)
    requires c in db.users && db.users[c].userType == MOVER && Complete(b)
    requires b.serviceType.Items? && forall x :: x in b.serviceType.items ==> ParseMovingType(x).Some?
    ensures !b.serviceableArea.Items? ==> ProfileAs(db, c, b, serviceable).reply == Fail(NotArray("serviceableArea"))
    ensures (b.serviceableArea.Items? && exists x :: x in b.serviceableArea.items && x !in serviceable) ==>
      ProfileAs(db, c, b, serviceable).reply == Fail(Invalid("serviceableArea"))
    ensures (b.serviceableArea.Items? && (forall x :: x in b.serviceableArea.items ==> x in serviceable) &&
             c !in db.movers) ==> ProfileAs(db, c, b, serviceable).reply == Fail(NotFound("mover"))
  {
  }

  // The row tables after the creates.

  /** A new ServiceType row is appended to its mover's kinds of move and to no one else's. */
  lemma OfferedTypesPush(db: Db, o: Id, row: TypeRow)
    requires Below(db.serviceTypes, db.nextId)
    ensures OfferedTypes(NewServiceType(db, row), o) == OfferedTypes(db, o) + (if row.moverId == o then [row.serviceType] else [])
  {
    var d := NewServiceType(db, row);
    var before := Select(db.serviceTypes, db.nextId, TypeOf(o));
    var after := Select(d.serviceTypes, d.nextId, TypeOf(o));
    assert after == before + (if row.moverId == o then [db.nextId] else []) by {
      SelectAgree(d.serviceTypes, db.serviceTypes, db.nextId, TypeOf(o));
    }
    assert forall i :: 0 <= i < |before| ==> d.serviceTypes[before[i]] == db.serviceTypes[before[i]];
  }

  /** A new ServiceableArea row is appended to its mover's areas and to no one else's. */
  lemma ServedAreasPush(db: Db, o: Id, row: AreaRow)
    requires Below(db.serviceAreas, db.nextId)
    ensures ServedAreas(NewServiceArea(db, row), o) == ServedAreas(db, o) + (if row.moverId == o then [row.area] else [])
  {
    var d := NewServiceArea(db, row);
    var before := Select(db.serviceAreas, db.nextId, AreaOf(o));
    var after := Select(d.serviceAreas, d.nextId, AreaOf(o));
    assert after == before + (if row.moverId == o then [db.nextId] else []) by {
      SelectAgree(d.serviceAreas, db.serviceAreas, db.nextId, AreaOf(o));
    }
    assert forall i :: 0 <= i < |before| ==> d.serviceAreas[before[i]] == db.serviceAreas[before[i]];
  }

  /** The creates for mover `c` append `ts` to its kinds of move, leave every other mover's, and
      touch no other table. */
  lemma {:induction false} AddTypesRows(db: Db, c: Id, ts: seq<MovingType>, o: Id)
    requires Below(db.serviceTypes, db.nextId)
    ensures var d := AddTypes(db, c, ts);
      && d.nextId == db.nextId + |ts| && Below(d.serviceTypes, d.nextId)
      && d.(serviceTypes := db.serviceTypes, nextId := db.nextId) == db
      && OfferedTypes(d, o) == OfferedTypes(db, o) + (if o == c then ts else [])
    decreases |ts|
  {
    if ts != [] {
      var init := ts[..|ts| - 1];
      AddTypesRows(db, c, init, o);
      var d := AddTypes(db, c, init);
      OfferedTypesPush(d, o, TypeRow(c, ts[|ts| - 1]));
      BelowPut(d.serviceTypes, d.nextId + 1, d.nextId, TypeRow(c, ts[|ts| - 1]));
      assert init + [ts[|ts| - 1]] == ts;
    }
  }

  /** The same for the areas of mover `c`. */
  lemma {:induction false} AddAreasRows(db: Db, c: Id, areas: seq<string>, o: Id)
    requires Below(db.serviceAreas, db.nextId)
    ensures var d := AddAreas(db, c, areas);
      && d.nextId == db.nextId + |areas| && Below(d.serviceAreas, d.nextId)
      && d.(serviceAreas := db.serviceAreas, nextId := db.nextId) == db
      && ServedAreas(d, o) == ServedAreas(db, o) + (if o == c then areas else [])
    decreases |areas|
  {
    if areas != [] {
      var init := areas[..|areas| - 1];
      AddAreasRows(db, c, init, o);
      var d := AddAreas(db, c, init);
      ServedAreasPush(d, o, AreaRow(c, areas[|areas| - 1]));
      BelowPut(d.serviceAreas, d.nextId + 1, d.nextId, AreaRow(c, areas[|areas| - 1]));
      assert init + [areas[|areas| - 1]] == areas;
    }
  }

  /** Creating rows keeps the store consistent. */
  lemma {:induction false} AddTypesKeeps(db: Db, c: Id, ts: seq<MovingType>)
    requires Consistent(db)
    ensures Consistent(AddTypes(db, c, ts))
    decreases |ts|
  {
    if ts != [] {
      AddTypesKeeps(db, c, ts[..|ts| - 1]);
      NewServiceTypeKeeps(AddTypes(db, c, ts[..|ts| - 1]), TypeRow(c, ts[|ts| - 1]));
    }
  }

  lemma {:induction false} AddAreasKeeps(db: Db, c: Id, areas: seq<string>)
    requires Consistent(db)
    ensures Consistent(AddAreas(db, c, areas))
    decreases |areas|
  {
    if areas != [] {
      AddAreasKeeps(db, c, areas[..|areas| - 1]);
      NewServiceAreaKeeps(AddAreas(db, c, areas[..|areas| - 1]), AreaRow(c, areas[|areas| - 1]));
    }
  }

  /** A mover with no rows of a kind offers nothing of that kind. */
  lemma NoRowsNoList(db: Db, o: Id)
    ensures (forall k :: k in db.serviceTypes ==> db.serviceTypes[k].moverId != o) ==> OfferedTypes(db, o) == []
    ensures (forall k :: k in db.serviceAreas ==> db.serviceAreas[k].moverId != o) ==> ServedAreas(db, o) == []
  {
    var ti := Select(db.serviceTypes, db.nextId, TypeOf(o));
    assert |ti| > 0 ==> ti[0] in db.serviceTypes && db.serviceTypes[ti[0]].moverId == o;
    var ai := Select(db.serviceAreas, db.nextId, AreaOf(o));
    assert |ai| > 0 ==> ai[0] in db.serviceAreas && db.serviceAreas[ai[0]].moverId == o;
  }

  /** Removing a mover's rows empties its lists and keeps every other mover's. */
  lemma ClearedRows(db: Db, c: Id, o: Id)
    ensures var d := DropServiceAreasOf(DropServiceTypesOf(db, c), c);
      && OfferedTypes(d, o) == (if o == c then [] else OfferedTypes(db, o))
      && ServedAreas(d, o) == (if o == c then [] else ServedAreas(db, o))
  {
    var d := DropServiceAreasOf(DropServiceTypesOf(db, c), c);
    NoRowsNoList(d, c);
    if o != c {
      SelectAgree(d.serviceTypes, db.serviceTypes, db.nextId, TypeOf(o));
      SelectAgree(d.serviceAreas, db.serviceAreas, db.nextId, AreaOf(o));
    }
  }

  /** After the writes, mover `c` offers exactly `ts` and serves exactly `areas`, in that order;
      every other mover's lists are as before. */
  lemma RefilledRows(db: Db, c: Id, url: Option<string>, profile: Mover, ts: seq<MovingType>, areas: seq<string>, o: Id)
    requires FreshIds(db) && c in db.users
    ensures var d := Refilled(db, c, url, profile, ts, areas);
      && OfferedTypes(d, o) == (if o == c then ts else OfferedTypes(db, o))
      && ServedAreas(d, o) == (if o == c then areas else ServedAreas(db, o))
  {
    var cleared := DropServiceAreasOf(DropServiceTypesOf(db, c), c);
    var pictured := if Given(url) then SetUser(cleared, c, cleared.users[c].(profileImageUrl := url)) else cleared;
    var profiled := SetMover(pictured, c, profile);
    ClearedRows(db, c, o);
    assert profiled.serviceTypes == cleared.serviceTypes && profiled.serviceAreas == cleared.serviceAreas;
    assert profiled.nextId == cleared.nextId;
    assert OfferedTypes(profiled, o) == OfferedTypes(cleared, o);
    assert ServedAreas(profiled, o) == ServedAreas(cleared, o);
    AddedRows(profiled, c, ts, areas, o);
  }

  /** The creates after the profile is rewritten append `ts` and `areas` to the lists of mover `c`. */
  lemma AddedRows(db: Db, c: Id, ts: seq<MovingType>, areas: seq<string>, o: Id)
    requires Below(db.serviceTypes, db.nextId) && Below(db.serviceAreas, db.nextId)
    ensures var d := AddAreas(AddTypes(db, c, ts), c, areas);
      && OfferedTypes(d, o) == OfferedTypes(db, o) + (if o == c then ts else [])
      && ServedAreas(d, o) == ServedAreas(db, o) + (if o == c then areas else [])
  {
    AddTypesRows(db, c, ts, o);
    var typed := AddTypes(db, c, ts);
    SelectBeyond(db.serviceAreas, db.nextId, typed.nextId, AreaOf(o));
    assert ServedAreas(typed, o) == ServedAreas(db, o);
    AddAreasRows(typed, c, areas, o);
    var d := AddAreas(typed, c, areas);
    SelectBeyond(typed.serviceTypes, typed.nextId, d.nextId, TypeOf(o));
    assert OfferedTypes(d, o) == OfferedTypes(typed, o);
  }

  /** The writes rewrite the mover profile, set the picture only when one is given, and leave
      every table other than the two row tables as it was. */
  lemma RefilledProfile(db: Db, c: Id, url: Option<string>, profile: Mover, ts: seq<MovingType>, areas: seq<string>)
    requires FreshIds(db) && c in db.users
    ensures var d := Refilled(db, c, url, profile, ts, areas);
      && d.movers == db.movers[c := profile]
      && d.users == (if Given(url) then db.users[c := db.users[c].(profileImageUrl := url)] else db.users)
      && d.nextId == db.nextId + |ts| + |areas|
      && d.(users := db.users, movers := db.movers, serviceTypes := db.serviceTypes,
            serviceAreas := db.serviceAreas, nextId := db.nextId) == db
  {
    var cleared := DropServiceAreasOf(DropServiceTypesOf(db, c), c);
    var pictured := if Given(url) then SetUser(cleared, c, cleared.users[c].(profileImageUrl := url)) else cleared;
    var profiled := SetMover(pictured, c, profile);
    AddTypesRows(profiled, c, ts, c);
    var typed := AddTypes(profiled, c, ts);
    AddAreasRows(typed, c, areas, c);
  }

  /** The writes keep the store consistent. */
  lemma RefilledKeeps(db: Db, c: Id, url: Option<string>, profile: Mover, ts: seq<MovingType>, areas: seq<string>)
    requires Consistent(db) && c in db.users
    ensures Consistent(Refilled(db, c, url, profile, ts, areas))
  {
    DropServiceRowsKeeps(db, c);
    var cleared := DropServiceAreasOf(DropServiceTypesOf(db, c), c);
    if Given(url) {
      SetUserKeeps(cleared, c, cleared.users[c].(profileImageUrl := url));
    }
    var pictured := if Given(url) then SetUser(cleared, c, cleared.users[c].(profileImageUrl := url)) else cleared;
    SetMoverKeeps(pictured, c, profile);
    AddTypesKeeps(SetMover(pictured, c, profile), c, ts);
    AddAreasKeeps(AddTypes(SetMover(pictured, c, profile), c, ts), c, areas);
  }

  lemma UpdateMoverProfileConsistent(db: Db, auth: Option<string>, b: ProfileBody, serviceable: set<string>)
    requires Consistent(db)
    ensures Consistent(UpdateMoverProfileStep(db, auth, b, serviceable).db)
  {
    var caller := Caller(db, auth);
    if caller.Ok? && ProfileAs(db, caller.value, b, serviceable).reply.Ok? {
      var profile := Mover(b.career.value, b.oneLineIntroduction.value, b.detailDescription.value);
      var d := Refilled(db, caller.value, b.profileImageUrl, profile, ParsedTypes(b.serviceType.items),
                        b.serviceableArea.items);
      assert ProfileAs(db, caller.value, b, serviceable).db == d;
      RefilledKeeps(db, caller.value, b.profileImageUrl, profile, ParsedTypes(b.serviceType.items),
                    b.serviceableArea.items);
      assert Consistent(d);
    }
  }

  /** A successful update leaves the mover offering exactly the kinds of move named in the body
      and serving exactly the areas listed there, entry for entry, and no other mover's lists
      change. */
  lemma ProfileEffect(db: Db, c: Id, b: ProfileBody, serviceable: set<string>)
    requires FreshIds(db) && c in db.users
    requires ProfileAs(db, c, b, serviceable).reply.Ok?
    ensures var d := ProfileAs(db, c, b, serviceable).db;
      && |OfferedTypes(d, c)| == |b.serviceType.items|
      && (forall i :: 0 <= i < |b.serviceType.items| ==> TypeName(OfferedTypes(d, c)[i]) == b.serviceType.items[i])
      && ServedAreas(d, c) == b.serviceableArea.items
      && (forall x :: x in ServedAreas(d, c) ==> x in serviceable)
      && (forall o :: o != c ==> OfferedTypes(d, o) == OfferedTypes(db, o) && ServedAreas(d, o) == ServedAreas(db, o))
      && d.movers == db.movers[c := Mover(b.career.value, b.oneLineIntroduction.value, b.detailDescription.value)]
      && d.users == (if Given(b.profileImageUrl) then db.users[c := db.users[c].(profileImageUrl := b.profileImageUrl)]
                     else db.users)
  {
    var profile := Mover(b.career.value, b.oneLineIntroduction.value, b.detailDescription.value);
    var ts := ParsedTypes(b.serviceType.items);
    RefilledRows(db, c, b.profileImageUrl, profile, ts, b.serviceableArea.items, c);
    RefilledProfile(db, c, b.profileImageUrl, profile, ts, b.serviceableArea.items);
    forall o | o != c
      ensures var d := ProfileAs(db, c, b, serviceable).db;
        OfferedTypes(d, o) == OfferedTypes(db, o) && ServedAreas(d, o) == ServedAreas(db, o)
    {
      RefilledRows(db, c, b.profileImageUrl, profile, ts, b.serviceableArea.items, o);
    }
  }

  method UpdateMoverProfile(s: Store, auth: Option<string>, b: ProfileBody, serviceable: set<string>) returns (r: Reply<()>)
    modifies s
    ensures Step(s.Snapshot(), r) == UpdateMoverProfileStep(old(s.Snapshot()), auth, b, serviceable)
  {
    var caller := Caller(s.Snapshot(), auth);
    if caller.Fail? {
      return Fail(caller.why);
    }
    r := UpdateProfileAs(s, caller.value, b, serviceable);
  }

  /** The checks and the writes of `updateMoverProfile` once the caller's account `c` is known. */
  method UpdateProfileAs(s: Store, c: Id, b: ProfileBody, serviceable: set<string>) returns (r: Reply<()>)
    requires c in s.users
    modifies s
    ensures Step(s.Snapshot(), r) == ProfileAs(old(s.Snapshot()), c, b, serviceable)
  {
    if s.users[c].userType != MOVER {
      return Fail(MoverOnly);
    }
    if !Complete(b) {
      return Fail(Missing("career, oneLineIntroduction, detailDescription, serviceType or serviceableArea"));
    }
    if !b.serviceType.Items? {
      return Fail(NotArray("serviceType"));
    }
    if exists x :: x in b.serviceType.items && ParseMovingType(x).None? {
      return Fail(Invalid("serviceType"));
    }
    if !b.serviceableArea.Items? {
      return Fail(NotArray("serviceableArea"));
    }
    if exists x :: x in b.serviceableArea.items && x !in serviceable {
      return Fail(Invalid("serviceableArea"));
    }
    if c !in s.movers {
      return Fail(NotFound("mover"));
    }
    Refill(s, c, b.profileImageUrl, Mover(b.career.value, b.oneLineIntroduction.value, b.detailDescription.value),
           ParsedTypes(b.serviceType.items), b.serviceableArea.items);
    return Ok(());
  }

  /** The writes of `updateMoverProfile`, in their order, with one create per entry. */
  method Refill(s: Store, c: Id, url: Option<string>, profile: Mover, ts: seq<MovingType>, areas: seq<string>)
    requires c in s.users
    modifies s
    ensures s.Snapshot() == Refilled(old(s.Snapshot()), c, url, profile, ts, areas)
  {
    s.DeleteServiceTypesOf(c);
    s.DeleteServiceAreasOf(c);
    if Given(url) {
      s.PutUser(c, s.users[c].(profileImageUrl := url));
    }
    s.PutMover(c, profile);

    ghost var profiled := s.Snapshot();
    var i := 0;
    while i < |ts|
      invariant 0 <= i <= |ts|
      invariant s.Snapshot() == AddTypes(profiled, c, ts[..i])
    {
      assert ts[..i + 1][..i] == ts[..i];
      var _ := s.InsertServiceType(TypeRow(c, ts[i]));
      i := i + 1;
    }
    assert ts[..|ts|] == ts;

    ghost var typed := s.Snapshot();
    var j := 0;
    while j < |areas|
      invariant 0 <= j <= |areas|
      invariant s.Snapshot() == AddAreas(typed, c, areas[..j])
    {
      assert areas[..j + 1][..j] == areas[..j];
      var _ := s.InsertServiceArea(AreaRow(c, areas[j]));
      j := j + 1;
    }
    assert areas[..|areas|] == areas;
  }
}

/** The auth controller: sign-up, and the refresh-token slot of an account as a small state
    machine. Sign-in fills the slot with a new token, sign-out empties it, and a refresh that
    presents the stored token replaces it with a new one. Hashing, the e-mail format check and the
    generated tokens come from outside: `hash`, `isEmail`, `matches` and `token` are parameters. */
module Auth {
  import opened Common
  import opened Records

  // ---------------------------------------------------------------- signup

  /** The body of `signup`. */
  datatype SignupBody = SignupBody(
    userType: Option<string>,
    name: Option<string>,
    email: Option<string>,
    phoneNumber: Option<string>,
    password: Option<string>)

  /** The `userType` strings the handler accepts. */
  function ParseUserType(s: string): (r: Option<UserType>)
    ensures r.Some? <==> s == "CUSTOMER" || s == "MOVER"
    ensures r == Some(CUSTOMER) <==> s == "CUSTOMER"
  {
    if s == "CUSTOMER" then Some(CUSTOMER) else if s == "MOVER" then Some(MOVER) else None
  }

  /** All five fields are present and not empty. */
  predicate Filled(b: SignupBody)
  {
    Given(b.userType) && Given(b.name) && Given(b.email) && Given(b.phoneNumber) && Given(b.password)
  }

  /** The account `signup` creates: no refresh token and no picture yet. */
  function Account(b: SignupBody, hash: string -> string): UserInfo
    requires Filled(b) && ParseUserType(b.userType.value).Some?
  {
    UserInfo(ParseUserType(b.userType.value).value, b.name.value, b.email.value, b.phoneNumber.value,
             hash(b.password.value), None, None)
  }

  /** `signup`: validates the body and creates the account. The handler has no error handling of
      its own, so an e-mail already in use makes the create reject with nothing caught. */
  function SignupStep(db: Db, b: SignupBody, isEmail: string -> bool, hash: string -> string): (st: Step<Id>)
    ensures st.reply.Fail? ==> st.db == db
    ensures st.reply.Ok? <==>
      && Filled(b) && ParseUserType(b.userType.value).Some? && isEmail(b.email.value)
      && UserByEmail(db, b.email.value).None?
    ensures !Filled(b) ==> st.reply == Fail(Missing("userType, name, email, phoneNumber or password"))
    ensures Filled(b) && ParseUserType(b.userType.value).None? ==> st.reply == Fail(Invalid("userType"))
    ensures (Filled(b) && ParseUserType(b.userType.value).Some? && !isEmail(b.email.value)) ==>
      st.reply == Fail(Invalid("email"))
    ensures (Filled(b) && ParseUserType(b.userType.value).Some? && isEmail(b.email.value) &&
             UserByEmail(db, b.email.value).Some?) ==> st.reply == Fail(ServerError)
    ensures st.reply.Ok? ==> st.reply.value == db.nextId && st.db == NewUser(db, Account(b, hash))
  {
    if !Filled(b) then Reject(db, Missing("userType, name, email, phoneNumber or password"))
    else if ParseUserType(b.userType.value).None? then Reject(db, Invalid("userType"))
    else if !isEmail(b.email.value) then Reject(db, Invalid("email"))
    else if UserByEmail(db, b.email.value).Some? then Reject(db, ServerError)
    else Step(NewUser(db, Account(b, hash)), Ok(db.nextId))
  }

  lemma SignupConsistent(db: Db, b: SignupBody, isEmail: string -> bool, hash: string -> string)
    requires Consistent(db)
    ensures Consistent(SignupStep(db, b, isEmail, hash).db)
  {
    if SignupStep(db, b, isEmail, hash).reply.Ok? {
      NewUserKeeps(db, Account(b, hash));
    }
  }

  /** A new account is the only change; it carries the body's fields, the hash of the password,
      and no refresh token. It has no Customer or Mover profile yet. */
  lemma SignupEffect(db: Db, b: SignupBody, isEmail: string -> bool, hash: string -> string)
    requires FreshIds(db)
    requires SignupStep(db, b, isEmail, hash).reply.Ok?
    ensures var st := SignupStep(db, b, isEmail, hash);
      var id := st.reply.value;
      && id !in db.users && st.db.users == db.users[id := st.db.users[id]]
      && st.db.users[id].email == b.email.value && st.db.users[id].name == b.name.value
      && st.db.users[id].phoneNumber == b.phoneNumber.value
      && st.db.users[id].password == hash(b.password.value)
      && st.db.users[id].refreshToken.None?
      && TypeNameOf(st.db.users[id].userType) == b.userType.value
      && id !in st.db.customers && id !in st.db.movers
      && st.db.(users := db.users, nextId := db.nextId) == db
  {
  }

  function TypeNameOf(t: UserType): string
  {
    match t
    case CUSTOMER => "CUSTOMER"
    case MOVER => "MOVER"
  }

  /** A second sign-up with an e-mail that is already registered never creates an account. */
  lemma SignupOnce(db: Db, b: SignupBody, b2: SignupBody, isEmail: string -> bool, hash: string -> string)
    requires FreshIds(db)
    requires SignupStep(db, b, isEmail, hash).reply.Ok?
    requires b2.email == b.email
    ensures var db1 := SignupStep(db, b, isEmail, hash).db;
      SignupStep(db1, b2, isEmail, hash).reply.Fail? && SignupStep(db1, b2, isEmail, hash).db == db1
  {
    var db1 := SignupStep(db, b, isEmail, hash).db;
    assert db1.users[db.nextId].email == b.email.value;
    assert db.nextId < db1.nextId;
  }

  method Signup(s: Store, b: SignupBody, isEmail: string -> bool, hash: string -> string) returns (r: Reply<Id>)
    modifies s
    ensures Step(s.Snapshot(), r) == SignupStep(old(s.Snapshot()), b, isEmail, hash)
  {
    if !Filled(b) {
      return Fail(Missing("userType, name, email, phoneNumber or password"));
    }
    if ParseUserType(b.userType.value).None? {
      return Fail(Invalid("userType"));
    }
    if !isEmail(b.email.value) {
      return Fail(Invalid("email"));
    }
    if UserByEmail(s.Snapshot(), b.email.value).Some? {
      return Fail(ServerError);
    }
    var id := s.InsertUser(Account(b, hash));
    return Ok(id);
  }

  // ---------------------------------------------------------------- signin

  /** `signin`: looks the account up by e-mail, compares the password with the stored hash
      (`matches`), and stores `token` as the account's refresh token. An absent e-mail or
      password makes the lookup or the comparison throw, with nothing caught. */
  function SigninStep(db: Db, email: Option<string>, password: Option<string>,
                      matches: (string, string) -> bool, token: string): (st: Step<string>)
    ensures st.reply.Fail? ==> st.db == db
    ensures email.None? ==> st.reply == Fail(ServerError)
    ensures email.Some? && UserByEmail(db, email.value).None? ==> st.reply == Fail(UserNotFound)
    ensures (email.Some? && UserByEmail(db, email.value).Some? && password.None?) ==> st.reply == Fail(ServerError)
    ensures st.reply.Ok? <==>
      && email.Some? && UserByEmail(db, email.value).Some? && password.Some?
      && matches(password.value, db.users[UserByEmail(db, email.value).value].password)
    ensures (email.Some? && UserByEmail(db, email.value).Some? && password.Some? &&
             !matches(password.value, db.users[UserByEmail(db, email.value).value].password)) ==>
      st.reply == Fail(PasswordMismatch)
    ensures st.reply.Ok? ==>
      var u := UserByEmail(db, email.value).value;
      st.reply.value == token && st.db == SetUser(db, u, db.users[u].(refreshToken := Some(token)))
  {
    if email.None? then Reject(db, ServerError)
    else
      var user := UserByEmail(db, email.value);
      if user.None? then Reject(db, UserNotFound)
      else if password.None? then Reject(db, ServerError)
      else if !matches(password.value, db.users[user.value].password) then Reject(db, PasswordMismatch)
      else Step(SetUser(db, user.value, db.users[user.value].(refreshToken := Some(token))), Ok(token))
  }

  lemma SigninConsistent(db: Db, email: Option<string>, password: Option<string>,
                         matches: (string, string) -> bool, token: string)
    requires Consistent(db)
    ensures Consistent(SigninStep(db, email, password, matches, token).db)
  {
    if SigninStep(db, email, password, matches, token).reply.Ok? {
      var u := UserByEmail(db, email.value).value;
      SetUserKeeps(db, u, db.users[u].(refreshToken := Some(token)));
    }
  }

  /** The only change a sign-in makes is the refresh token of the account with that e-mail. */
  lemma SigninEffect(db: Db, email: Option<string>, password: Option<string>,
                     matches: (string, string) -> bool, token: string)
    requires SigninStep(db, email, password, matches, token).reply.Ok?
    ensures var d := SigninStep(db, email, password, matches, token).db;
      var u := UserByEmail(db, email.value).value;
      && d.users.Keys == db.users.Keys && d.users[u].email == email.value
      && d.users[u].refreshToken == Some(token)
      && d.users[u].(refreshToken := db.users[u].refreshToken) == db.users[u]
      && (forall k :: k in db.users && k != u ==> d.users[k] == db.users[k])
      && d.(users := db.users) == db
  {
  }

  /** Right after a sign-up, the same e-mail and password sign in, whenever the password matches
      its own hash. */
  lemma SignupThenSignin(db: Db, b: SignupBody, isEmail: string -> bool, hash: string -> string,
                         matches: (string, string) -> bool, token: string)
    requires FreshIds(db)
    requires SignupStep(db, b, isEmail, hash).reply.Ok?
    requires matches(b.password.value, hash(b.password.value))
    ensures var db1 := SignupStep(db, b, isEmail, hash).db;
      var st := SigninStep(db1, b.email, b.password, matches, token);
      && st.reply == Ok(token)
      && st.db.users[SignupStep(db, b, isEmail, hash).reply.value].refreshToken == Some(token)
  {
    var db1 := SignupStep(db, b, isEmail, hash).db;
    var id := db.nextId;
    assert db1.users[id].email == b.email.value;
    assert FreshIds(db1) by {
      assert forall k :: k in db1.users ==> k < db1.nextId;
    }
    var found := UserByEmail(db1, b.email.value);
    assert found == Some(id) by {
      assert forall k :: k in db.users ==> db.users[k].email != b.email.value;
      assert found.Some? && db1.users[found.value].email == b.email.value;
    }
  }

  method Signin(s: Store, email: Option<string>, password: Option<string>,
                matches: (string, string) -> bool, token: string) returns (r: Reply<string>)
    modifies s
    ensures Step(s.Snapshot(), r) == SigninStep(old(s.Snapshot()), email, password, matches, token)
  {
    if email.None? {
      return Fail(ServerError);
    }
    var user := UserByEmail(s.Snapshot(), email.value);
    if user.None? {
      return Fail(UserNotFound);
    }
    if password.None? {
      return Fail(ServerError);
    }
    var u := user.value;
    if !matches(password.value, s.users[u].password) {
      return Fail(PasswordMismatch);
    }
    s.PutUser(u, s.users[u].(refreshToken := Some(token)));
    return Ok(token);
  }

  // ---------------------------------------------------------------- signout

  /** `signout`: empties the caller's refresh-token slot. */
  function SignoutStep(db: Db, auth: Option<string>): (st: Step<()>)
    ensures Caller(db, auth).Fail? ==> st == Reject(db, Caller(db, auth).why)
    ensures st.reply.Ok? <==> Caller(db, auth).Ok?
    ensures st.reply.Ok? ==>
      var u := Caller(db, auth).value;
      st.db == SetUser(db, u, db.users[u].(refreshToken := None))
  {
    var caller := Caller(db, auth);
    if caller.Fail? then Reject(db, caller.why)
    else Step(SetUser(db, caller.value, db.users[caller.value].(refreshToken := None)), Ok(()))
  }

  lemma SignoutConsistent(db: Db, auth: Option<string>)
    requires Consistent(db)
    ensures Consistent(SignoutStep(db, auth).db)
  {
    if Caller(db, auth).Ok? {
      var u := Caller(db, auth).value;
      SetUserKeeps(db, u, db.users[u].(refreshToken := None));
    }
  }

  /** A sign-out clears the token of the caller's account and changes nothing else. */
  lemma SignoutEffect(db: Db, auth: Option<string>)
    requires SignoutStep(db, auth).reply.Ok?
    ensures var d := SignoutStep(db, auth).db;
      var u := Caller(db, auth).value;
      && d.users.Keys == db.users.Keys && d.users[u].refreshToken.None?
      && d.users[u].(refreshToken := db.users[u].refreshToken) == db.users[u]
      && (forall k :: k in db.users && k != u ==> d.users[k] == db.users[k])
      && d.(users := db.users) == db
  {
  }

  method Signout(s: Store, auth: Option<string>) returns (r: Reply<()>)
    modifies s
    ensures Step(s.Snapshot(), r) == SignoutStep(old(s.Snapshot()), auth)
  {
    var caller := Caller(s.Snapshot(), auth);
    if caller.Fail? {
      return Fail(caller.why);
    }
    var u := caller.value;
    s.PutUser(u, s.users[u].(refreshToken := None));
    return Ok(());
  }

  // ---------------------------------------------------------------- refresh

  /** The `refreshToken` of a request body: absent, JSON `null`, or a string. */
  datatype TokenInput = Undefined | Null | Token(value: string)

  /** The handler's `refreshToken !== requestRefreshToken` the other way round: the stored slot
      (`null` when empty) is strictly equal to what the body sent. */
  predicate SameAsStored(stored: Option<string>, sent: TokenInput)
  {
    match sent
    case Undefined => false
    case Null => stored.None?
    case Token(t) => stored == Some(t)
  }

  /** `refresh` as written: an account whose slot is empty (never signed in, or signed out)
      accepts a body whose token is `null`. */
  function RefreshAsWritten(db: Db, email: Option<string>, sent: TokenInput, token: string): (st: Step<string>)
    ensures st.reply.Fail? ==> st.db == db
    ensures st.reply.Ok? <==>
      && email.Some? && UserByEmail(db, email.value).Some?
      && SameAsStored(db.users[UserByEmail(db, email.value).value].refreshToken, sent)
    ensures st.reply.Ok? ==>
      var u := UserByEmail(db, email.value).value;
      st.reply.value == token && st.db == SetUser(db, u, db.users[u].(refreshToken := Some(token)))
  {
    if email.None? then Reject(db, ServerError)
    else
      var user := UserByEmail(db, email.value);
      if user.None? then Reject(db, UserNotFound)
      else if !SameAsStored(db.users[user.value].refreshToken, sent) then Reject(db, TokenMismatch)
      else Step(SetUser(db, user.value, db.users[user.value].(refreshToken := Some(token))), Ok(token))
  }

  /** Right after a sign-out, anyone who knows the e-mail obtains fresh tokens by sending `null`. */
  lemma RefreshAfterSignoutAsWritten(db: Db, auth: Option<string>, token: string)
    requires SignoutStep(db, auth).reply.Ok?
    ensures var db1 := SignoutStep(db, auth).db;
      RefreshAsWritten(db1, auth, Null, token).reply == Ok(token)
  {
    var db1 := SignoutStep(db, auth).db;
    var u := Caller(db, auth).value;
    UserByEmailAfterSet(db, u, db.users[u].(refreshToken := None), auth.value);
  }

  /** `refresh` as intended: only the token the account currently holds is accepted, so an empty
      slot accepts nothing. */
  function RefreshStep(db: Db, email: Option<string>, sent: TokenInput, token: string): (st: Step<string>)
    ensures st.reply.Fail? ==> st.db == db
    ensures email.None? ==> st.reply == Fail(ServerError)
    ensures email.Some? && UserByEmail(db, email.value).None? ==> st.reply == Fail(UserNotFound)
    ensures st.reply.Ok? <==>
      && email.Some? && UserByEmail(db, email.value).Some?
      && sent.Token? && db.users[UserByEmail(db, email.value).value].refreshToken == Some(sent.value)
    ensures (email.Some? && UserByEmail(db, email.value).Some? &&
             !(sent.Token? && db.users[UserByEmail(db, email.value).value].refreshToken == Some(sent.value))) ==>
      st.reply == Fail(TokenMismatch)
    ensures st.reply.Ok? ==>
      var u := UserByEmail(db, email.value).value;
      st.reply.value == token && st.db == SetUser(db, u, db.users[u].(refreshToken := Some(token)))
  {
    if email.None? then Reject(db, ServerError)
    else
      var user := UserByEmail(db, email.value);
      if user.None? then Reject(db, UserNotFound)
      else if !(sent.Token? && db.users[user.value].refreshToken == Some(sent.value)) then Reject(db, TokenMismatch)
      else Step(SetUser(db, user.value, db.users[user.value].(refreshToken := Some(token))), Ok(token))
  }

  /** The intended check and the written one agree on every body that sends a string token, and
      also whenever the account holds a token. */
  lemma RefreshAgrees(db: Db, email: Option<string>, sent: TokenInput, token: string)
    requires sent.Token? || (email.Some? && UserByEmail(db, email.value).Some? &&
                             db.users[UserByEmail(db, email.value).value].refreshToken.Some?)
    ensures RefreshStep(db, email, sent, token) == RefreshAsWritten(db, email, sent, token)
  {
  }

  lemma RefreshConsistent(db: Db, email: Option<string>, sent: TokenInput, token: string)
    requires Consistent(db)
    ensures Consistent(RefreshStep(db, email, sent, token).db)
  {
    if RefreshStep(db, email, sent, token).reply.Ok? {
      var u := UserByEmail(db, email.value).value;
      SetUserKeeps(db, u, db.users[u].(refreshToken := Some(token)));
    }
  }

  /** After a sign-out no refresh succeeds, whatever the body sends. */
  lemma NoRefreshAfterSignout(db: Db, auth: Option<string>, sent: TokenInput, token: string)
    requires SignoutStep(db, auth).reply.Ok?
    ensures var db1 := SignoutStep(db, auth).db;
      RefreshStep(db1, auth, sent, token).reply == Fail(TokenMismatch)
  {
    var db1 := SignoutStep(db, auth).db;
    var u := Caller(db, auth).value;
    UserByEmailAfterSet(db, u, db.users[u].(refreshToken := None), auth.value);
  }

  /** A refresh rotates the token: the token it replaced is not accepted a second time, while the
      new one is. */
  lemma RefreshRotates(db: Db, email: string, used: string, token: string, later: string)
    requires RefreshStep(db, Some(email), Token(used), token).reply.Ok?
    requires token != used
    ensures var db1 := RefreshStep(db, Some(email), Token(used), token).db;
      && RefreshStep(db1, Some(email), Token(used), later).reply == Fail(TokenMismatch)
      && RefreshStep(db1, Some(email), Token(token), later).reply == Ok(later)
  {
    var db1 := RefreshStep(db, Some(email), Token(used), token).db;
    var u := UserByEmail(db, email).value;
    UserByEmailAfterSet(db, u, db.users[u].(refreshToken := Some(token)), email);
  }

  method Refresh(s: Store, email: Option<string>, sent: TokenInput, token: string) returns (r: Reply<string>)
    modifies s
    ensures Step(s.Snapshot(), r) == RefreshStep(old(s.Snapshot()), email, sent, token)
  {
    if email.None? {
      return Fail(ServerError);
    }
    var user := UserByEmail(s.Snapshot(), email.value);
    if user.None? {
      return Fail(UserNotFound);
    }
    var u := user.value;
    if !(sent.Token? && s.users[u].refreshToken == Some(sent.value)) {
      return Fail(TokenMismatch);
    }
    s.PutUser(u, s.users[u].(refreshToken := Some(token)));
    return Ok(token);
  }
}

/** `AuthService`: accounts, sign-in tokens and product keys. The two
    secrets the process reads from its environment are the fields of `Env`,
    and the salt bcrypt draws at random is a parameter. */
module AuthService {
  import opened Results
  import opened Schema
  import opened Bcrypt
  import opened Jwt
  import opened AuthDto

  /** `JWT_SECRET_KEY` and `GENERATE_PRODUCT_SECRET_KEY`. */
  datatype Env = Env(jwtSecret: string, productSecret: string)

  /** What the controller hands `signup`: the validated body with the role
      taken from the path, as the client wrote it. */
  datatype SignupParams = SignupParams(name: string, phone: string, email: string, password: string, userType: string)

  /** `userType || UserType.BUYER`, as the column and the token receive it;
      a string outside the enum is refused by the store. */
  function RoleOf(userType: string): (t: Option<UserType>)
    ensures userType == "" ==> t == Some(Buyer)
    ensures userType != "" ==> (t.Some? <==> userType in UserTypeNames)
    ensures userType != "" && t.Some? ==> t.value.Name() == userType
  {
    if userType == "" then Some(Buyer) else ParseUserType(userType)
  }

  /** `generateJWT`: the token over exactly `{name, id, userType}`. */
  function GenerateJwt(c: Claims, env: Env): (token: string)
    ensures Verify(token, env.jwtSecret) == Some(c)
    ensures Decode(token) == Some(c)
  {
    Sign(c, env.jwtSecret)
  }

  /** `signup`: 409 for a taken e-mail; otherwise one new user whose password
      column holds the digest, and a token for it. */
  function Signup(db: Db, p: SignupParams, env: Env, salt: Salt): (s: Step<string>)
    ensures s.result.Err? ==> s.db == db
    ensures FindUserByEmail(db.users, p.email).Some? ==> s.result == Err(Conflict)
    ensures s.result.Err? && s.result.error != Conflict ==> s.result.error == ServerError && RoleOf(p.userType).None?
    ensures s.result.Ok? <==> FindUserByEmail(db.users, p.email).None? && RoleOf(p.userType).Some?
    ensures s.result.Ok? ==> |s.db.users| == |db.users| + 1
    ensures s.result.Ok? ==>
      var u := s.db.users[|db.users|];
      && s.db.users == db.users + [u]
      && u == User(db.nextUserId, p.name, p.phone, p.email, u.password, RoleOf(p.userType).value)
      && Compare(p.password, u.password) && IsDigest(u.password)
      && (|p.password| <= WindowLength ==> u.password != p.password)
      && s.db.nextUserId == db.nextUserId + 1
      && s.db.homes == db.homes && s.db.images == db.images && s.db.messages == db.messages
      && Decode(s.result.value) == Some(Claims(p.name, u.id, u.userType))
      && Verify(s.result.value, env.jwtSecret) == Some(Claims(p.name, u.id, u.userType))
  {
    if FindUserByEmail(db.users, p.email).Some? then Step(db, Err(Conflict))
    else
      match RoleOf(p.userType)
      case None => Step(db, Err(ServerError))
      case Some(role) =>
        var u := User(db.nextUserId, p.name, p.phone, p.email, Hash(p.password, salt), role);
        var after := db.(users := db.users + [u], nextUserId := db.nextUserId + 1);
        Step(after, Ok(GenerateJwt(Claims(p.name, u.id, role), env)))
  }

  /** A user with a fresh id and a fresh e-mail keeps the user table valid
      and every home's realtor stored. */
  lemma AddUserValid(db: Db, u: User)
    requires Valid(db)
    requires u.id == db.nextUserId
    requires forall v :: v in db.users ==> v.email != u.email
    ensures Valid(db.(users := db.users + [u], nextUserId := db.nextUserId + 1))
  {
    var after := db.(users := db.users + [u], nextUserId := db.nextUserId + 1);
    assert forall v :: v in after.users ==> v in db.users || v == u;
    assert forall h :: h in db.homes ==> HasUser(after.users, h.realtorId) by {
      forall h | h in db.homes
        ensures HasUser(after.users, h.realtorId)
      {
        var v :| v in db.users && v.id == h.realtorId;
        assert v in after.users;
      }
    }
  }

  lemma SignupPreservesValid(db: Db, p: SignupParams, env: Env, salt: Salt)
    requires Valid(db)
    ensures Valid(Signup(db, p, env, salt).db)
  {
    var s := Signup(db, p, env, salt);
    if s.result.Ok? {
      AddUserValid(db, s.db.users[|db.users|]);
    }
  }

  /** `signin`: 404 for an unknown e-mail, 400 for a wrong password, and a
      token over the stored name, id and role. */
  function Signin(db: Db, d: SigninDto, env: Env): (r: Result<string>)
    ensures FindUserByEmail(db.users, d.email).None? <==> r == Err(NotFound)
    ensures r.Err? ==> r.error in {NotFound, BadRequest}
    ensures r.Ok? ==>
      exists u :: u in db.users && u.email == d.email && Compare(d.password, u.password)
        && Verify(r.value, env.jwtSecret) == Some(Claims(u.name, u.id, u.userType))
  {
    match FindUserByEmail(db.users, d.email)
    case None => Err(NotFound)
    case Some(u) =>
      if !Compare(d.password, u.password) then Err(BadRequest)
      else Ok(GenerateJwt(Claims(u.name, u.id, u.userType), env))
  }

  /** With unique e-mails, signin succeeds exactly for the stored password
      and its token names the stored user whatever the request says. */
  lemma SigninStoredUser(db: Db, u: User, password: string, env: Env)
    requires Valid(db)
    requires u in db.users
    ensures Signin(db, SigninDto(u.email, password), env).Ok? <==> Compare(password, u.password)
    ensures Signin(db, SigninDto(u.email, password), env).Err? ==> Signin(db, SigninDto(u.email, password), env) == Err(BadRequest)
    ensures Signin(db, SigninDto(u.email, password), env).Ok? ==>
      Decode(Signin(db, SigninDto(u.email, password), env).value) == Some(Claims(u.name, u.id, u.userType))
  {
    FindUserByEmailUnique(db, u);
  }

  /** A user who has just signed up can sign in with the same password, and
      gets a token for the account just made. */
  lemma SignupThenSignin(db: Db, p: SignupParams, env: Env, salt: Salt)
    requires Valid(db)
    requires Signup(db, p, env, salt).result.Ok?
    ensures
      var after := Signup(db, p, env, salt).db;
      Signin(after, SigninDto(p.email, p.password), env)
        == Ok(GenerateJwt(Claims(p.name, db.nextUserId, RoleOf(p.userType).value), env))
  {
    var after := Signup(db, p, env, salt).db;
    var u := after.users[|db.users|];
    SignupPreservesValid(db, p, env, salt);
    FindUserByEmailUnique(after, u);
  }

  /** The text a product key is the digest of: `email-role-secret`. */
  function KeyText(email: string, role: string, secret: string): string {
    email + "-" + role + "-" + secret
  }

  /** `generateProductKey`: the key matches every text that agrees with
      `email-role-secret` on bcrypt's window, and no other; when that text is
      shorter than the window, the key matches it alone. */
  function GenerateProductKey(email: string, role: UserType, env: Env, salt: Salt): (key: string)
    ensures forall text :: Compare(text, key) <==> Window(text) == Window(KeyText(email, role.Name(), env.productSecret))
    ensures |KeyText(email, role.Name(), env.productSecret)| < WindowLength ==>
      forall text :: Compare(text, key) <==> text == KeyText(email, role.Name(), env.productSecret)
  {
    var plain := KeyText(email, role.Name(), env.productSecret);
    var key := Hash(plain, salt);
    forall text
      ensures Compare(text, key) <==> Window(text) == Window(plain)
      ensures |plain| < WindowLength ==> (Compare(text, key) <==> text == plain)
    {
      CompareHash(plain, text, salt);
      if |plain| < WindowLength {
        CompareHashShort(plain, text, salt);
      }
    }
    key
  }

  /** `validateJWTToken`: the verified claims, or 401 whatever made the
      library throw. */
  function ValidateJwtToken(token: string, env: Env): (r: Result<Claims>)
    ensures r.Err? <==> Verify(token, env.jwtSecret).None?
    ensures r.Err? ==> r.error == Unauthorized
    ensures r.Ok? ==> Decode(token) == Some(r.value)
  {
    match Verify(token, env.jwtSecret)
    case None => Err(Unauthorized)
    case Some(c) => Ok(c)
  }

  /** Tokens the service issues validate to their claims; under another
      secret they are refused. */
  lemma ValidateIssued(c: Claims, env: Env, other: Env)
    ensures ValidateJwtToken(GenerateJwt(c, env), env) == Ok(c)
    ensures other.jwtSecret != env.jwtSecret ==> ValidateJwtToken(GenerateJwt(c, env), other) == Err(Unauthorized)
  {
    if other.jwtSecret != env.jwtSecret {
      VerifyOtherSecret(c, env.jwtSecret, other.jwtSecret);
    }
  }
}

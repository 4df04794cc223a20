/** Whole requests: the guard runs first (403 when it refuses), then the
    interceptor attaches `request.user`, then the route's pipes and handler.
    The role lists are the routes' `@Roles` metadata. */
module RequestFlow {
  import opened Results
  import opened Json
  import opened Schema
  import opened Bcrypt
  import opened Jwt
  import opened HomeDto
  import opened HomeService
  import opened HomeController
  import opened AuthDto
  import opened AuthService
  import opened AuthController
  import opened UserInterceptor
  import opened AuthGuard

  const RealtorOnly: Option<seq<UserType>> := Some([Realtor])
  const BuyerOnly: Option<seq<UserType>> := Some([Buyer])
  const AnyRole: Option<seq<UserType>> := Some([Admin, Realtor, Buyer])

  /** `POST /api/homes` as a whole request. */
  function CreateHomeRequest(db: Db, authorization: Option<string>, body: Body, env: Env): (s: Step<Body>)
    ensures !CanActivate(RealtorOnly, authorization, db, env) ==> s == Step(db, Err(Forbidden))
    ensures s.result.Ok? ==> Admitted([Realtor], authorization, db, env)
  {
    if !CanActivate(RealtorOnly, authorization, db, env) then Step(db, Err(Forbidden))
    else CreateHomeRoute(db, body, Intercept(authorization))
  }

  /** The user a verified token attaches is the verified claims. */
  lemma VerifiedUserAttached(authorization: Option<string>, env: Env)
    requires ExtractBearer(authorization).Some?
    requires Verify(ExtractBearer(authorization).value, env.jwtSecret).Some?
    ensures Intercept(authorization) == Verify(ExtractBearer(authorization).value, env.jwtSecret)
  {
  }

  /** A request the guard admits creates the home, owned by the stored
      realtor the token names. */
  lemma AdmittedRealtorCreates(db: Db, authorization: Option<string>, body: Body, env: Env)
    requires Valid(db)
    requires CanActivate(RealtorOnly, authorization, db, env)
    requires ValidCreateHome(body)
    ensures
      var s := CreateHomeRequest(db, authorization, body, env);
      var c := Verify(ExtractBearer(authorization).value, env.jwtSecret).value;
      && s.result.Ok?
      && s.db.homes == db.homes + [s.db.homes[|db.homes|]]
      && s.db.homes[|db.homes|].realtorId == c.id
      && exists u :: u in db.users && u.id == c.id && u.userType == Realtor
  {
    VerifiedUserAttached(authorization, env);
  }

  /** `PUT /api/homes/:id` as a whole request. */
  function UpdateHomeRequest(db: Db, authorization: Option<string>, idText: string, body: Body, env: Env): (s: Step<Body>)
    ensures !CanActivate(RealtorOnly, authorization, db, env) ==> s == Step(db, Err(Forbidden))
    ensures s.result.Ok? ==> Admitted([Realtor], authorization, db, env)
  {
    if !CanActivate(RealtorOnly, authorization, db, env) then Step(db, Err(Forbidden))
    else UpdateHomeRoute(db, idText, body, Intercept(authorization))
  }

  /** `PUT /api/homes/:id` with the documented ownership check. */
  function UpdateOwnHomeRequest(db: Db, authorization: Option<string>, idText: string, body: Body, env: Env): (s: Step<Body>)
    ensures !CanActivate(RealtorOnly, authorization, db, env) ==> s == Step(db, Err(Forbidden))
    ensures s.result.Ok? ==> Admitted([Realtor], authorization, db, env)
  {
    if !CanActivate(RealtorOnly, authorization, db, env) then Step(db, Err(Forbidden))
    else UpdateOwnHomeRoute(db, idText, body, Intercept(authorization))
  }

  /** As written, any realtor updates any realtor's home: a genuine token of
      a stored realtor who does not own the home gets the update applied. */
  lemma OtherRealtorUpdates(db: Db, h: Home, u: User, body: Body, env: Env)
    requires Valid(db)
    requires h in db.homes && u in db.users
    requires u.userType == Realtor && u.id != h.realtorId
    requires ValidUpdateHome(body)
    ensures UpdateHomeRequest(db, BearerHeader(GenerateJwt(Claims(u.name, u.id, u.userType), env)), IntText(h.id), body, env).result.Ok?
  {
    var c := Claims(u.name, u.id, u.userType);
    GenuineTokenAdmitted([Realtor], c, u, db, env);
    NonOwnerUpdates(db, h, body, c);
  }

  /** With the ownership check the same request is refused with 403 and the
      store is unchanged, while the owner's own update is still applied. */
  lemma OtherRealtorForbidden(db: Db, h: Home, u: User, body: Body, env: Env)
    requires Valid(db)
    requires h in db.homes && u in db.users
    requires u.userType == Realtor
    requires ValidUpdateHome(body)
    ensures
      var s := UpdateOwnHomeRequest(db, BearerHeader(GenerateJwt(Claims(u.name, u.id, u.userType), env)), IntText(h.id), body, env);
      && (u.id != h.realtorId ==> s == Step(db, Err(Forbidden)))
      && (u.id == h.realtorId ==> s.result.Ok?)
  {
    var c := Claims(u.name, u.id, u.userType);
    var a := BearerHeader(GenerateJwt(c, env));
    GenuineTokenAdmitted([Realtor], c, u, db, env);
    BearerRoundTrip(GenerateJwt(c, env));
    ParseIntPipeRoundTrip(h.id);
    FindHomeUnique(db, h);
    if u.id != h.realtorId {
      NonOwnerForbidden(db, h, body, c);
    }
  }

  /** `POST /api/homes/:id/inquire` as a whole request. */
  function InquireRequest(db: Db, authorization: Option<string>, idText: string, body: Body, env: Env): (s: Step<Message>)
    ensures !CanActivate(BuyerOnly, authorization, db, env) ==> s == Step(db, Err(Forbidden))
    ensures s.result.Ok? ==> Admitted([Buyer], authorization, db, env)
  {
    if !CanActivate(BuyerOnly, authorization, db, env) then Step(db, Err(Forbidden))
    else InquireRoute(db, idText, body, Intercept(authorization))
  }

  /** An admitted buyer's inquiry about a stored home is recorded under the
      buyer's id and addressed to the home's realtor. */
  lemma AdmittedBuyerInquires(db: Db, authorization: Option<string>, h: Home, body: Body, env: Env)
    requires Valid(db)
    requires CanActivate(BuyerOnly, authorization, db, env)
    requires h in db.homes
    requires ValidInquire(body)
    ensures
      var s := InquireRequest(db, authorization, IntText(h.id), body, env);
      && s.result.Ok?
      && s.result.value.buyerId == Verify(ExtractBearer(authorization).value, env.jwtSecret).value.id
      && s.result.value.realtorId == h.realtorId
      && s.result.value.homeId == h.id
  {
    VerifiedUserAttached(authorization, env);
    ParseIntPipeRoundTrip(h.id);
    FindHomeUnique(db, h);
  }

  /** `GET /api/auth/me` as a whole request. */
  function MeRequest(db: Db, authorization: Option<string>, env: Env): (r: Result<Claims>)
    ensures !CanActivate(AnyRole, authorization, db, env) ==> r == Err(Forbidden)
    ensures r.Ok? ==> Verify(ExtractBearer(authorization).value, env.jwtSecret) == Some(r.value)
  {
    if !CanActivate(AnyRole, authorization, db, env) then Err(Forbidden)
    else Me(Intercept(authorization))
  }

  /** A stored user's genuine token is answered with its own claims. */
  lemma MeEchoesToken(db: Db, c: Claims, u: User, env: Env)
    requires Valid(db)
    requires u in db.users && u.id == c.id
    ensures MeRequest(db, BearerHeader(GenerateJwt(c, env)), env) == Ok(c)
  {
    var a := BearerHeader(GenerateJwt(c, env));
    assert CanActivate(AnyRole, a, db, env) by {
      GenuineTokenAdmitted(AnyRole.value, c, u, db, env);
      var roles := AnyRole.value;
      assert |roles| == 3 && roles[0] == Admin && roles[1] == Realtor && roles[2] == Buyer;
      var i := if u.userType == Admin then 0 else if u.userType == Realtor then 1 else 2;
      assert roles[i] == u.userType;
    }
    assert Intercept(a) == Some(c) by {
      BearerRoundTrip(GenerateJwt(c, env));
    }
  }

  /** The token a user gets from signin opens exactly the routes whose roles
      list the user's stored role. */
  lemma SigninTokenOpens(db: Db, u: User, password: string, roles: seq<UserType>, env: Env)
    requires Valid(db)
    requires u in db.users
    requires Compare(password, u.password)
    ensures Signin(db, SigninDto(u.email, password), env).Ok?
    ensures CanActivate(Some(roles), BearerHeader(Signin(db, SigninDto(u.email, password), env).value), db, env)
        <==> |roles| == 0 || u.userType in roles
  {
    FindUserByEmailUnique(db, u);
    GenuineTokenAdmitted(roles, Claims(u.name, u.id, u.userType), u, db, env);
  }

  /** A REALTOR account the service creates, once signed in, can create a
      home that is recorded as its own. The journey starts at the service's
      `signup`; the product-key gate in front of it is the subject of
      `AuthController.IssuedKeyAccepted`. */
  lemma RealtorJourney(db: Db, p: SignupParams, body: Body, env: Env, salt: Salt)
    requires Valid(db)
    requires p.userType == "REALTOR"
    requires Signup(db, p, env, salt).result.Ok?
    requires ValidCreateHome(body)
    ensures
      var after := Signup(db, p, env, salt).db;
      var token := Signin(after, SigninDto(p.email, p.password), env);
      && token.Ok?
      && CreateHomeRequest(after, BearerHeader(token.value), body, env).result.Ok?
      && CreateHomeRequest(after, BearerHeader(token.value), body, env).db.homes[|after.homes|].realtorId == db.nextUserId
  {
    var after := Signup(db, p, env, salt).db;
    var u := after.users[|db.users|];
    SignupPreservesValid(db, p, env, salt);
    SignupThenSignin(db, p, env, salt);
    var token := Signin(after, SigninDto(p.email, p.password), env);
    GenuineTokenAdmitted([Realtor], Claims(p.name, db.nextUserId, Realtor), u, after, env);
    AdmittedRealtorCreates(after, BearerHeader(token.value), body, env);
    BearerRoundTrip(token.value);
  }
}

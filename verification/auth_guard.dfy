/** `AuthGuard`: the role check that runs before every handler. A route
    without role metadata is open; otherwise the bearer token must verify
    under the JWT secret and name a stored user whose stored role is listed.
    The guard only reads the store. */
module AuthGuard {
  import opened Results
  import opened Text
  import opened Schema
  import opened Jwt
  import opened AuthService
  import opened UserInterceptor

  /** `roles?.length` is falsy: no metadata, or an empty list. */
  predicate Open(roles: Option<seq<UserType>>) {
    roles.None? || |roles.value| == 0
  }

  /** `canActivate`; `false` makes the framework answer 403. */
  function CanActivate(roles: Option<seq<UserType>>, authorization: Option<string>, db: Db, env: Env): (allow: bool)
    ensures Open(roles) ==> allow
    ensures !Open(roles) && allow ==>
      && ExtractBearer(authorization).Some?
      && Verify(ExtractBearer(authorization).value, env.jwtSecret).Some?
      && exists u :: u in db.users && u.id == Verify(ExtractBearer(authorization).value, env.jwtSecret).value.id && u.userType in roles.value
  {
    if Open(roles) then true
    else
      match ExtractBearer(authorization)
      case None => false
      case Some(token) =>
        match Verify(token, env.jwtSecret)
        case None => false
        case Some(claims) =>
          match FindUserById(db.users, claims.id)
          case None => false
          case Some(u) => u.userType in roles.value
  }

  /** The caller a guarded request is let through for. */
  predicate Admitted(roles: seq<UserType>, authorization: Option<string>, db: Db, env: Env) {
    && ExtractBearer(authorization).Some?
    && Verify(ExtractBearer(authorization).value, env.jwtSecret).Some?
    && exists u :: u in db.users && u.id == Verify(ExtractBearer(authorization).value, env.jwtSecret).value.id && u.userType in roles
  }

  /** With unique user ids the guard lets a request through exactly when the
      route is open or the verified token names a stored user whose stored
      role is listed. */
  lemma CanActivateIff(roles: Option<seq<UserType>>, authorization: Option<string>, db: Db, env: Env)
    requires Valid(db)
    ensures CanActivate(roles, authorization, db, env) <==> Open(roles) || Admitted(roles.value, authorization, db, env)
  {
    if !Open(roles) && Admitted(roles.value, authorization, db, env) {
      var claims := Verify(ExtractBearer(authorization).value, env.jwtSecret).value;
      var u :| u in db.users && u.id == claims.id && u.userType in roles.value;
      FindUserByIdUnique(db, u);
    }
  }

  /** On a guarded route a request without a usable bearer token is
      refused. */
  lemma MissingTokenDenied(roles: seq<UserType>, authorization: Option<string>, db: Db, env: Env)
    requires |roles| > 0
    requires authorization.Some? ==> !Occurs(authorization.value, BearerPrefix)
    ensures !CanActivate(Some(roles), authorization, db, env)
  {
  }

  /** A token signed with another secret is refused, whatever it claims. */
  lemma ForgedTokenDenied(roles: seq<UserType>, c: Claims, secret: string, db: Db, env: Env)
    requires |roles| > 0
    requires secret != env.jwtSecret
    ensures !CanActivate(Some(roles), BearerHeader(Sign(c, secret)), db, env)
  {
    BearerRoundTrip(Sign(c, secret));
    VerifyOtherSecret(c, secret, env.jwtSecret);
  }

  /** A genuine token for an id no user has is refused. */
  lemma UnknownUserDenied(roles: seq<UserType>, c: Claims, db: Db, env: Env)
    requires |roles| > 0
    requires !HasUser(db.users, c.id)
    ensures !CanActivate(Some(roles), BearerHeader(GenerateJwt(c, env)), db, env)
  {
    BearerRoundTrip(GenerateJwt(c, env));
  }

  /** Only the stored role counts: two genuine tokens for the same id get the
      same answer whatever name and role they claim. */
  lemma ClaimedRoleIgnored(roles: Option<seq<UserType>>, db: Db, env: Env, c1: Claims, c2: Claims)
    requires c1.id == c2.id
    ensures CanActivate(roles, BearerHeader(GenerateJwt(c1, env)), db, env)
        == CanActivate(roles, BearerHeader(GenerateJwt(c2, env)), db, env)
  {
    BearerRoundTrip(GenerateJwt(c1, env));
    BearerRoundTrip(GenerateJwt(c2, env));
  }

  /** A genuine token for a stored user passes exactly when the user's
      stored role is listed. */
  lemma GenuineTokenAdmitted(roles: seq<UserType>, c: Claims, u: User, db: Db, env: Env)
    requires Valid(db)
    requires u in db.users && u.id == c.id
    ensures CanActivate(Some(roles), BearerHeader(GenerateJwt(c, env)), db, env) <==> |roles| == 0 || u.userType in roles
  {
    BearerRoundTrip(GenerateJwt(c, env));
    FindUserByIdUnique(db, u);
  }
}

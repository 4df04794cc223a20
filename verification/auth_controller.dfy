/** `AuthController`: the `/api/auth` routes. Signup as anything but BUYER
    is gated by a product key, the bcrypt digest of `email-role-secret`. */
module AuthController {
  import opened Results
  import opened Json
  import opened Schema
  import opened Bcrypt
  import opened Jwt
  import opened AuthDto
  import opened AuthService
  import opened AuthGuard
  import opened UserInterceptor

  /** The checks `signup` makes before calling the service: a role in the
      path, and for any role but BUYER a product key whose digest matches
      `email-role-secret`. */
  function ProductKeyGate(userType: string, d: SignupDto, env: Env): (r: Result<()>)
    ensures userType == "" ==> r == Err(BadRequest)
    ensures userType == "BUYER" ==> r == Ok(())
    ensures r.Err? && userType != "" ==> r.error == Unauthorized
    ensures userType != "" && userType != "BUYER" ==>
      (r.Ok? <==> d.productKey.Some? && Compare(KeyText(d.email, userType, env.productSecret), d.productKey.value))
  {
    if userType == "" then Err(BadRequest)
    else if userType != "BUYER" then
      if d.productKey.None? then Err(Unauthorized)
      else if !Compare(KeyText(d.email, userType, env.productSecret), d.productKey.value) then Err(Unauthorized)
      else Ok(())
    else Ok(())
  }

  /** What the service receives: the body with the path role. */
  function ParamsOf(d: SignupDto, userType: string): SignupParams {
    SignupParams(d.name, d.phone, d.email, d.password, userType)
  }

  /** `POST /api/auth/signup/:userType`: body validation, the product-key
      gate, then the service. */
  function SignupRoute(db: Db, userType: string, body: Body, isEmail: string -> bool, env: Env, salt: Salt): (s: Step<string>)
    ensures s.result.Err? ==> s.db == db
    ensures !ValidSignup(body, isEmail) ==> s.result == Err(BadRequest)
    ensures s.result.Err? && s.result.error == Unauthorized ==> userType != "" && userType != "BUYER"
    ensures s.result.Ok? ==>
      && ValidSignup(body, isEmail)
      && ProductKeyGate(userType, DecodeSignup(body, isEmail).value, env).Ok?
      && s == Signup(db, ParamsOf(DecodeSignup(body, isEmail).value, userType), env, salt)
  {
    match DecodeSignup(body, isEmail)
    case Err(e) => Step(db, Err(e))
    case Ok(d) =>
      match ProductKeyGate(userType, d, env)
      case Err(e) => Step(db, Err(e))
      case Ok(_) => Signup(db, ParamsOf(d, userType), env, salt)
  }

  /** A valid body with no role in the path is refused with 400 and the
      service is not called. This models the handler's `!userType` test as
      written: the route `signup/:userType` does not match a path whose last
      segment is empty, so no request reaches this branch. */
  lemma SignupNeedsRole(db: Db, body: Body, isEmail: string -> bool, env: Env, salt: Salt)
    requires ValidSignup(body, isEmail)
    ensures SignupRoute(db, "", body, isEmail, env, salt) == Step(db, Err(BadRequest))
  {
  }

  /** BUYER signup goes straight to the service whatever product key the
      body carries. */
  lemma BuyerSkipsKey(db: Db, body: Body, isEmail: string -> bool, env: Env, salt: Salt)
    requires ValidSignup(body, isEmail)
    ensures SignupRoute(db, "BUYER", body, isEmail, env, salt)
         == Signup(db, ParamsOf(DecodeSignup(body, isEmail).value, "BUYER"), env, salt)
  {
  }

  /** Any other role without a product key is refused with 401 and the store
      is unchanged. */
  lemma KeylessSignupRefused(db: Db, userType: string, body: Body, isEmail: string -> bool, env: Env, salt: Salt)
    requires ValidSignup(body, isEmail)
    requires userType != "" && userType != "BUYER"
    requires DecodeSignup(body, isEmail).value.productKey.None?
    ensures SignupRoute(db, userType, body, isEmail, env, salt) == Step(db, Err(Unauthorized))
  {
  }

  /** A key issued by `generateProductKey` for an e-mail and role opens
      signup as that role for that e-mail. */
  lemma IssuedKeyAccepted(db: Db, role: UserType, body: Body, isEmail: string -> bool, env: Env, keySalt: Salt, salt: Salt)
    requires ValidSignup(body, isEmail)
    requires DecodeSignup(body, isEmail).value.productKey
          == Some(GenerateProductKey(DecodeSignup(body, isEmail).value.email, role, env, keySalt))
    ensures SignupRoute(db, role.Name(), body, isEmail, env, salt)
         == Signup(db, ParamsOf(DecodeSignup(body, isEmail).value, role.Name()), env, salt)
  {
  }

  /** A key issued for one role does not open signup as another, as long as
      the role's first character lies inside bcrypt's window. */
  lemma KeyBoundToRole(db: Db, role: UserType, other: UserType, body: Body, isEmail: string -> bool, env: Env, keySalt: Salt, salt: Salt)
    requires ValidSignup(body, isEmail)
    requires other != role && other != Buyer
    requires |DecodeSignup(body, isEmail).value.email| + 1 < WindowLength
    requires DecodeSignup(body, isEmail).value.productKey
          == Some(GenerateProductKey(DecodeSignup(body, isEmail).value.email, role, env, keySalt))
    ensures SignupRoute(db, other.Name(), body, isEmail, env, salt) == Step(db, Err(Unauthorized))
  {
    var email := DecodeSignup(body, isEmail).value.email;
    KeyTextRoleChar(email, role.Name(), env.productSecret);
    KeyTextRoleChar(email, other.Name(), env.productSecret);
    var mine := Window(KeyText(email, role.Name(), env.productSecret));
    var theirs := Window(KeyText(email, other.Name(), env.productSecret));
    assert mine[|email| + 1] != theirs[|email| + 1];
  }

  /** The role's first character sits right after the e-mail and its '-'. */
  lemma KeyTextRoleChar(email: string, role: string, secret: string)
    requires |role| > 0
    ensures KeyText(email, role, secret)[|email| + 1] == role[0]
  {
  }

  /** From 71 characters of e-mail on, the role lies past bcrypt's window:
      every role's key text reads the same there. */
  lemma LongEmailSameWindow(email: string, role: string, other: string, secret: string)
    requires |email| + 1 >= WindowLength
    ensures Window(KeyText(email, role, secret)) == Window(KeyText(email, other, secret))
  {
    assert KeyText(email, role, secret) == (email + "-") + (role + "-" + secret);
    assert KeyText(email, other, secret) == (email + "-") + (other + "-" + secret);
    WindowOfLongPrefix(email + "-", role + "-" + secret);
    WindowOfLongPrefix(email + "-", other + "-" + secret);
  }

  /** So for an e-mail of 71 characters or more, a REALTOR key opens signup
      as ADMIN. */
  lemma LongEmailCrossesRoles(db: Db, body: Body, isEmail: string -> bool, env: Env, keySalt: Salt, salt: Salt)
    requires ValidSignup(body, isEmail)
    requires |DecodeSignup(body, isEmail).value.email| + 1 >= WindowLength
    requires DecodeSignup(body, isEmail).value.productKey
          == Some(GenerateProductKey(DecodeSignup(body, isEmail).value.email, Realtor, env, keySalt))
    ensures SignupRoute(db, "ADMIN", body, isEmail, env, salt)
         == Signup(db, ParamsOf(DecodeSignup(body, isEmail).value, "ADMIN"), env, salt)
  {
    LongEmailSameWindow(DecodeSignup(body, isEmail).value.email, "ADMIN", "REALTOR", env.productSecret);
  }

  /** From 65 characters of e-mail on, the secret lies wholly past bcrypt's
      window: the digest of `email-ADMIN-`, which anyone can compute, opens
      signup as ADMIN whatever the secret is. */
  lemma SecretlessAdminKey(db: Db, body: Body, isEmail: string -> bool, env: Env, keySalt: Salt, salt: Salt)
    requires ValidSignup(body, isEmail)
    requires |DecodeSignup(body, isEmail).value.email| + 7 >= WindowLength
    requires DecodeSignup(body, isEmail).value.productKey
          == Some(Hash(DecodeSignup(body, isEmail).value.email + "-ADMIN-", keySalt))
    ensures SignupRoute(db, "ADMIN", body, isEmail, env, salt)
         == Signup(db, ParamsOf(DecodeSignup(body, isEmail).value, "ADMIN"), env, salt)
  {
    var email := DecodeSignup(body, isEmail).value.email;
    assert KeyText(email, "ADMIN", env.productSecret) == (email + "-ADMIN-") + env.productSecret;
    WindowOfLongPrefix(email + "-ADMIN-", env.productSecret);
    assert Window(email + "-ADMIN-" + []) == Window(email + "-ADMIN-") by {
      assert email + "-ADMIN-" + [] == email + "-ADMIN-";
    }
    CompareHash(email + "-ADMIN-", KeyText(email, "ADMIN", env.productSecret), keySalt);
  }

  /** The product-key check with the key text held inside bcrypt's window:
      a text the library would cut is refused with 401, so a passing key
      carries the whole of `email-role-secret`. */
  function BoundProductKeyGate(userType: string, d: SignupDto, env: Env): (r: Result<()>)
    ensures userType == "" ==> r == Err(BadRequest)
    ensures userType == "BUYER" ==> r == Ok(())
    ensures r.Err? && userType != "" ==> r.error == Unauthorized
    ensures userType != "" && userType != "BUYER" && r.Ok? ==>
      && d.productKey.Some?
      && |KeyText(d.email, userType, env.productSecret)| < WindowLength
      && forall text :: Compare(text, d.productKey.value) <==> text == KeyText(d.email, userType, env.productSecret)
    ensures userType != "" && userType != "BUYER" && |KeyText(d.email, userType, env.productSecret)| < WindowLength ==>
      r == ProductKeyGate(userType, d, env)
  {
    if userType != "" && userType != "BUYER" && |KeyText(d.email, userType, env.productSecret)| >= WindowLength then
      Err(Unauthorized)
    else
      var r := ProductKeyGate(userType, d, env);
      if r.Ok? && userType != "" && userType != "BUYER" then
        ShortTextExact(KeyText(d.email, userType, env.productSecret), d.productKey.value);
        r
      else r
  }

  /** A digest whose hashed part is a text shorter than the window matches
      that text alone. */
  lemma ShortTextExact(plain: string, digest: string)
    requires |plain| < WindowLength
    requires Compare(plain, digest)
    ensures forall text :: Compare(text, digest) <==> text == plain
  {
    forall text | Compare(text, digest)
      ensures text == plain
    {
      assert |Window(text)| < WindowLength;
    }
  }

  /** Behind the bounded check the secretless key is refused, and a key
      issued for one role is refused for any other, whatever the e-mail's
      length. */
  lemma BoundKeyNeedsSecret(d: SignupDto, env: Env)
    requires |d.email| + 7 >= WindowLength
    ensures BoundProductKeyGate("ADMIN", d, env) == Err(Unauthorized)
  {
  }

  lemma BoundKeyBoundToRole(role: UserType, other: UserType, d: SignupDto, env: Env, keySalt: Salt)
    requires other != role && other != Buyer
    requires d.productKey == Some(GenerateProductKey(d.email, role, env, keySalt))
    ensures BoundProductKeyGate(other.Name(), d, env) == Err(Unauthorized)
  {
    KeyTextRoleChar(d.email, role.Name(), env.productSecret);
    KeyTextRoleChar(d.email, other.Name(), env.productSecret);
  }

  /** The service is called with `{...body, userType}`: the role in the path
      wins, so a `userType` property in the body changes nothing. */
  lemma PathRoleOverridesBody(db: Db, userType: string, body: Body, v: Value, isEmail: string -> bool, env: Env, salt: Salt)
    ensures SignupRoute(db, userType, body["userType" := v], isEmail, env, salt) == SignupRoute(db, userType, body, isEmail, env, salt)
  {
    var b := body["userType" := v];
    assert Get(b, "name") == Get(body, "name");
    assert Get(b, "phone") == Get(body, "phone");
    assert Get(b, "email") == Get(body, "email");
    assert Get(b, "password") == Get(body, "password");
    assert Get(b, "productKey") == Get(body, "productKey");
  }

  /** `POST /api/auth/signin`. */
  function SigninRoute(db: Db, body: Body, isEmail: string -> bool, env: Env): (r: Result<string>)
    ensures !ValidSignin(body, isEmail) ==> r == Err(BadRequest)
    ensures r.Err? ==> r.error in {BadRequest, NotFound}
    ensures ValidSignin(body, isEmail) ==> r == Signin(db, DecodeSignin(body, isEmail).value, env)
  {
    match DecodeSignin(body, isEmail)
    case Err(e) => Err(e)
    case Ok(d) => Signin(db, d, env)
  }

  /** `POST /api/auth/key`, as written: the route carries no role metadata. */
  function KeyRoute(body: Body, isEmail: string -> bool, env: Env, salt: Salt): (r: Result<string>)
    ensures r.Err? <==> !ValidProductKeyRequest(body, isEmail)
    ensures r.Err? ==> r.error == BadRequest
    ensures r.Ok? ==>
      var d := DecodeProductKeyRequest(body, isEmail).value;
      && (forall text :: Compare(text, r.value) <==> Window(text) == Window(KeyText(d.email, d.userType.Name(), env.productSecret)))
      && (|KeyText(d.email, d.userType.Name(), env.productSecret)| < WindowLength ==>
            forall text :: Compare(text, r.value) <==> text == KeyText(d.email, d.userType.Name(), env.productSecret))
  {
    match DecodeProductKeyRequest(body, isEmail)
    case Err(e) => Err(e)
    case Ok(d) => Ok(GenerateProductKey(d.email, d.userType, env, salt))
  }

  /** The roles `KeyRoute` is registered with. */
  const KeyRouteRoles: Option<seq<UserType>> := None

  /** Anyone can mint an ADMIN key and sign up as ADMIN with it: the guard
      lets an anonymous key request through, and the key it answers with is
      accepted by signup for the requested e-mail. */
  lemma AnonymousAdminKey(db: Db, email: string, body: Body, isEmail: string -> bool, env: Env, keySalt: Salt, salt: Salt)
    requires isEmail(email)
    requires ValidSignup(body, isEmail)
    requires DecodeSignup(body, isEmail).value.email == email
    requires DecodeSignup(body, isEmail).value.productKey
          == Some(KeyRoute(EncodeProductKeyRequest(ProductKeyDto(email, Admin)), isEmail, env, keySalt).value)
    ensures CanActivate(KeyRouteRoles, None, db, env)
    ensures KeyRoute(EncodeProductKeyRequest(ProductKeyDto(email, Admin)), isEmail, env, keySalt).Ok?
    ensures SignupRoute(db, "ADMIN", body, isEmail, env, salt)
         == Signup(db, ParamsOf(DecodeSignup(body, isEmail).value, "ADMIN"), env, salt)
  {
    DecodeEncodeProductKeyRequest(ProductKeyDto(email, Admin), isEmail);
  }

  /** The roles the route documentation asks for: only a current ADMIN. */
  const AdminOnly: Option<seq<UserType>> := Some([Admin])

  /** `POST /api/auth/key` behind the guard with ADMIN as its role. */
  function GuardedKeyRoute(db: Db, authorization: Option<string>, body: Body, isEmail: string -> bool, env: Env, salt: Salt): (r: Result<string>)
    ensures !CanActivate(AdminOnly, authorization, db, env) ==> r == Err(Forbidden)
    ensures r.Ok? ==> Admitted([Admin], authorization, db, env)
    ensures CanActivate(AdminOnly, authorization, db, env) ==> r == KeyRoute(body, isEmail, env, salt)
  {
    if !CanActivate(AdminOnly, authorization, db, env) then Err(Forbidden)
    else KeyRoute(body, isEmail, env, salt)
  }

  /** Behind the guard an anonymous caller, and any caller whose stored role
      is not ADMIN, gets no key. */
  lemma GuardedKeyNeedsAdmin(db: Db, c: Claims, u: User, body: Body, isEmail: string -> bool, env: Env, salt: Salt)
    requires Valid(db)
    requires u in db.users && u.id == c.id && u.userType != Admin
    ensures GuardedKeyRoute(db, None, body, isEmail, env, salt) == Err(Forbidden)
    ensures GuardedKeyRoute(db, BearerHeader(GenerateJwt(c, env)), body, isEmail, env, salt) == Err(Forbidden)
  {
    GenuineTokenAdmitted([Admin], c, u, db, env);
  }

  /** `GET /api/auth/me`: 401 without a request user, otherwise that user. */
  function Me(user: Option<Claims>): (r: Result<Claims>)
    ensures r.Err? <==> user.None?
    ensures r.Err? ==> r.error == Unauthorized
    ensures r.Ok? ==> Some(r.value) == user
  {
    match user
    case None => Err(Unauthorized)
    case Some(c) => Ok(c)
  }
}

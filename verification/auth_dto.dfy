/** The request DTOs of the auth routes, validated as the global validation
    pipe does and decoded into typed payloads. The e-mail recogniser behind
    `@IsEmail()` is the parameter `isEmail`. */
module AuthDto {
  import opened Results
  import opened Json
  import opened Validation
  import opened Schema

  /** The smallest accepted signup password length. */
  const MinPasswordLength: nat := 5

  // ---------------------------------------------------------------------------
  // SignupDto

  datatype SignupDto = SignupDto(name: string, phone: string, email: string, password: string, productKey: Option<string>)

  predicate ValidSignup(body: Body, isEmail: string -> bool) {
    && NonEmptyString(Get(body, "name"))
    && IsString(Get(body, "phone"))
    && IsEmail(Get(body, "email"), isEmail)
    && MinLength(Get(body, "password"), MinPasswordLength)
    && Optional(Get(body, "productKey"), NonEmptyString(Get(body, "productKey")))
  }

  predicate WellFormedSignup(d: SignupDto, isEmail: string -> bool) {
    && d.name != ""
    && isEmail(d.email)
    && |d.password| >= MinPasswordLength
    && (d.productKey.Some? ==> d.productKey.value != "")
  }

  function OptionalText(o: Option<string>): Option<Value> {
    if o.Some? then Some(Str(o.value)) else None
  }

  /** The validation pipe on a signup payload. */
  function DecodeSignup(body: Body, isEmail: string -> bool): (r: Result<SignupDto>)
    ensures r.Ok? <==> ValidSignup(body, isEmail)
    ensures r.Err? ==> r.error == BadRequest
    ensures r.Ok? ==> WellFormedSignup(r.value, isEmail)
    ensures r.Ok? ==>
      && Get(body, "name") == Some(Str(r.value.name))
      && Get(body, "phone") == Some(Str(r.value.phone))
      && Get(body, "email") == Some(Str(r.value.email))
      && Get(body, "password") == Some(Str(r.value.password))
      && (if IsDefined(Get(body, "productKey"))
          then Get(body, "productKey") == OptionalText(r.value.productKey)
          else r.value.productKey.None?)
  {
    if !ValidSignup(body, isEmail) then Err(BadRequest)
    else
      var key := Get(body, "productKey");
      Ok(SignupDto(
        StringOf(Get(body, "name")),
        StringOf(Get(body, "phone")),
        StringOf(Get(body, "email")),
        StringOf(Get(body, "password")),
        if IsDefined(key) then Some(StringOf(key)) else None))
  }

  function EncodeSignup(d: SignupDto): Body {
    var m := map["name" := Str(d.name), "phone" := Str(d.phone), "email" := Str(d.email), "password" := Str(d.password)];
    if d.productKey.Some? then m["productKey" := Str(d.productKey.value)] else m
  }

  lemma DecodeEncodeSignup(d: SignupDto, isEmail: string -> bool)
    ensures DecodeSignup(EncodeSignup(d), isEmail) == if WellFormedSignup(d, isEmail) then Ok(d) else Err(BadRequest)
  {
  }

  // ---------------------------------------------------------------------------
  // signinDto

  datatype SigninDto = SigninDto(email: string, password: string)

  predicate ValidSignin(body: Body, isEmail: string -> bool) {
    IsEmail(Get(body, "email"), isEmail) && IsString(Get(body, "password"))
  }

  /** The validation pipe on a signin payload; the password only has to be a
      string. */
  function DecodeSignin(body: Body, isEmail: string -> bool): (r: Result<SigninDto>)
    ensures r.Ok? <==> ValidSignin(body, isEmail)
    ensures r.Err? ==> r.error == BadRequest
    ensures r.Ok? ==>
      && isEmail(r.value.email)
      && Get(body, "email") == Some(Str(r.value.email))
      && Get(body, "password") == Some(Str(r.value.password))
  {
    if ValidSignin(body, isEmail)
    then Ok(SigninDto(StringOf(Get(body, "email")), StringOf(Get(body, "password"))))
    else Err(BadRequest)
  }

  function EncodeSignin(d: SigninDto): Body {
    map["email" := Str(d.email), "password" := Str(d.password)]
  }

  lemma DecodeEncodeSignin(d: SigninDto, isEmail: string -> bool)
    ensures DecodeSignin(EncodeSignin(d), isEmail) == if isEmail(d.email) then Ok(d) else Err(BadRequest)
  {
  }

  // ---------------------------------------------------------------------------
  // generateProductKeyDto

  datatype ProductKeyDto = ProductKeyDto(email: string, userType: UserType)

  /** The roles a product key can be requested for. */
  const KeyRoleNames: set<string> := {"ADMIN", "REALTOR"}

  predicate ValidProductKeyRequest(body: Body, isEmail: string -> bool) {
    IsEmail(Get(body, "email"), isEmail) && IsEnum(Get(body, "userType"), KeyRoleNames)
  }

  /** The validation pipe on a product-key request: only ADMIN and REALTOR
      keys can be asked for. */
  function DecodeProductKeyRequest(body: Body, isEmail: string -> bool): (r: Result<ProductKeyDto>)
    ensures r.Ok? <==> ValidProductKeyRequest(body, isEmail)
    ensures r.Err? ==> r.error == BadRequest
    ensures r.Ok? ==>
      && isEmail(r.value.email)
      && r.value.userType != Buyer
      && Get(body, "email") == Some(Str(r.value.email))
      && Get(body, "userType") == Some(Str(r.value.userType.Name()))
  {
    if !ValidProductKeyRequest(body, isEmail) then Err(BadRequest)
    else
      var t := ParseUserType(StringOf(Get(body, "userType")));
      Ok(ProductKeyDto(StringOf(Get(body, "email")), t.value))
  }

  function EncodeProductKeyRequest(d: ProductKeyDto): Body {
    map["email" := Str(d.email), "userType" := Str(d.userType.Name())]
  }

  lemma DecodeEncodeProductKeyRequest(d: ProductKeyDto, isEmail: string -> bool)
    ensures DecodeProductKeyRequest(EncodeProductKeyRequest(d), isEmail)
         == if isEmail(d.email) && d.userType != Buyer then Ok(d) else Err(BadRequest)
  {
    UserTypeNameRoundTrip(d.userType);
  }
}

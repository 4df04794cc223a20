/** `HomeController`: the `/api/homes` routes. Each route receives what the
    framework hands its handler (path and query strings, the parsed body and
    the `user` the interceptor attached) and forwards to the service. The
    role check runs before the handler and is modelled by `AuthGuard`. */
module HomeController {
  import opened Results
  import opened Json
  import opened Text
  import opened Schema
  import opened HomeDto
  import opened HomeService
  import opened Jwt

  // ---------------------------------------------------------------------------
  // ParseIntPipe

  /** The text `ParseIntPipe` accepts: an optional '-' and decimal digits. */
  predicate IntegerText(s: string) {
    IsDecimal(s) || (|s| > 0 && s[0] == '-' && IsDecimal(s[1..]))
  }

  /** `ParseIntPipe` on a path parameter: 400 unless it is an integer numeral. */
  function ParseIntPipe(s: string): (r: Result<int>)
    ensures r.Ok? <==> IntegerText(s)
    ensures r.Err? ==> r.error == BadRequest
    ensures r.Ok? ==> (r.value >= 0 <==> IsDecimal(s) || ParseDecimal(s[1..]) == 0)
  {
    if IsDecimal(s) then Ok(ParseDecimal(s))
    else if |s| > 0 && s[0] == '-' && IsDecimal(s[1..]) then Ok(-(ParseDecimal(s[1..]) as int))
    else Err(BadRequest)
  }

  /** The numeral a client puts in the path for `n`. */
  function IntText(n: int): string {
    if n < 0 then "-" + NatToDecimal(-n) else NatToDecimal(n)
  }

  lemma ParseIntPipeRoundTrip(n: int)
    ensures ParseIntPipe(IntText(n)) == Ok(n)
  {
    if n < 0 {
      var digits := NatToDecimal(-n);
      assert IntText(n)[1..] == digits;
      assert !IsDecimal(IntText(n));
      ParseNatToDecimal(-n);
    } else {
      ParseNatToDecimal(n);
    }
  }

  // ---------------------------------------------------------------------------
  // getHomes: query strings to the `where` clause

  /** JavaScript truthiness of an optional query string: present and not
      empty. */
  predicate Given(q: Option<string>) {
    q.Some? && q.value != ""
  }

  /** The price strings the model interprets: decimal digits. */
  predicate PriceText(q: Option<string>) {
    Given(q) ==> AllDigits(q.value)
  }

  /** `parseFloat` on a string of decimal digits. */
  function ParsePrice(s: string): real
    requires AllDigits(s)
  {
    ParseDecimal(s) as real
  }

  /** The filter object the handler builds: `city`, `price` and
      `propertyType` keys, each only when the query supplied it. */
  datatype QueryFilter = QueryFilter(city: Option<string>, price: Option<PriceRange>, propertyType: Option<string>)

  function Keep(q: Option<string>): Option<string> {
    if Given(q) then q else None
  }

  function BuildFilter(city: Option<string>, minPrice: Option<string>, maxPrice: Option<string>, propertyType: Option<string>): (f: QueryFilter)
    requires PriceText(minPrice) && PriceText(maxPrice)
    ensures f.city.Some? <==> Given(city)
    ensures f.city.Some? ==> f.city == city
    ensures f.price.Some? <==> Given(minPrice) || Given(maxPrice)
    ensures f.price.Some? ==> (f.price.value.gte.Some? <==> Given(minPrice)) && (f.price.value.lte.Some? <==> Given(maxPrice))
    ensures f.price.Some? && f.price.value.gte.Some? ==> f.price.value.gte.value == ParsePrice(minPrice.value)
    ensures f.price.Some? && f.price.value.lte.Some? ==> f.price.value.lte.value == ParsePrice(maxPrice.value)
    ensures f.propertyType.Some? <==> Given(propertyType)
    ensures f.propertyType.Some? ==> f.propertyType == propertyType
  {
    var price :=
      if Given(minPrice) || Given(maxPrice) then
        Some(PriceRange(
          if Given(minPrice) then Some(ParsePrice(minPrice.value)) else None,
          if Given(maxPrice) then Some(ParsePrice(maxPrice.value)) else None))
      else None;
    QueryFilter(Keep(city), price, Keep(propertyType))
  }

  /** With no query parameters the filter is `{}`. */
  lemma NoQueryNoFilter()
    ensures BuildFilter(None, None, None, None) == QueryFilter(None, None, None)
    ensures BuildFilter(Some(""), Some(""), Some(""), Some("")) == QueryFilter(None, None, None)
  {
  }

  /** `getHomes('Toronto', '1500000')` filters on the city and a lower price
      bound only. */
  lemma TorontoExample()
    ensures BuildFilter(Some("Toronto"), Some("1500000"), None, None)
         == QueryFilter(Some("Toronto"), Some(PriceRange(Some(1500000.0), None)), None)
  {
    ParseNatToDecimal(1500000);
    assert NatToDecimal(1500000) == "1500000";
  }

  /** The query strings a client sends for a filter whose bounds are whole
      numbers. */
  function RenderQuery(city: Option<string>, gte: Option<nat>, lte: Option<nat>, propertyType: Option<string>): (q: (Option<string>, Option<string>, Option<string>, Option<string>))
  {
    (city,
     if gte.Some? then Some(NatToDecimal(gte.value)) else None,
     if lte.Some? then Some(NatToDecimal(lte.value)) else None,
     propertyType)
  }

  /** Building the filter from rendered query strings recovers the filter. */
  lemma BuildFilterRoundTrip(city: Option<string>, gte: Option<nat>, lte: Option<nat>, propertyType: Option<string>)
    requires city.Some? ==> city.value != ""
    requires propertyType.Some? ==> propertyType.value != ""
    ensures
      var q := RenderQuery(city, gte, lte, propertyType);
      && PriceText(q.1) && PriceText(q.2)
      && BuildFilter(q.0, q.1, q.2, q.3)
         == QueryFilter(
              city,
              if gte.Some? || lte.Some? then
                Some(PriceRange(
                  if gte.Some? then Some(gte.value as real) else None,
                  if lte.Some? then Some(lte.value as real) else None))
              else None,
              propertyType)
  {
    if gte.Some? {
      ParseNatToDecimal(gte.value);
    }
    if lte.Some? {
      ParseNatToDecimal(lte.value);
    }
  }

  /** The `where` clause the ORM receives; a `propertyType` that is not a
      value of the enum makes the ORM reject the query. */
  function ToWhere(q: QueryFilter): (r: Result<HomeFilter>)
    ensures r.Err? <==> q.propertyType.Some? && q.propertyType.value !in PropertyTypeNames
    ensures r.Err? ==> r.error == ServerError
    ensures r.Ok? ==>
      && r.value.city == q.city && r.value.price == q.price
      && (r.value.propertyType.Some? <==> q.propertyType.Some?)
      && (r.value.propertyType.Some? ==> r.value.propertyType.value.Name() == q.propertyType.value)
  {
    if q.propertyType.None? then Ok(HomeFilter(q.city, q.price, None))
    else
      match ParsePropertyType(q.propertyType.value)
      case None => Err(ServerError)
      case Some(t) => Ok(HomeFilter(q.city, q.price, Some(t)))
  }

  /** A home satisfies the query exactly as the route reads it. */
  predicate SatisfiesQuery(h: Home, city: Option<string>, minPrice: Option<string>, maxPrice: Option<string>, propertyType: Option<string>)
    requires PriceText(minPrice) && PriceText(maxPrice)
  {
    && (Given(city) ==> h.city == city.value)
    && (Given(minPrice) ==> ParsePrice(minPrice.value) <= h.price)
    && (Given(maxPrice) ==> h.price <= ParsePrice(maxPrice.value))
    && (Given(propertyType) ==> h.propertyType.Name() == propertyType.value)
  }

  /** `GET /api/homes`. */
  function GetHomesRoute(db: Db, city: Option<string>, minPrice: Option<string>, maxPrice: Option<string>, propertyType: Option<string>): (r: Result<seq<Body>>)
    requires PriceText(minPrice) && PriceText(maxPrice)
    ensures r.Err? <==> Given(propertyType) && propertyType.value !in PropertyTypeNames
    ensures r.Err? ==> r.error == ServerError
  {
    match ToWhere(BuildFilter(city, minPrice, maxPrice, propertyType))
    case Err(e) => Err(e)
    case Ok(f) => Ok(GetHomes(db, f))
  }

  lemma WhereMatches(h: Home, city: Option<string>, minPrice: Option<string>, maxPrice: Option<string>, propertyType: Option<string>)
    requires PriceText(minPrice) && PriceText(maxPrice)
    requires ToWhere(BuildFilter(city, minPrice, maxPrice, propertyType)).Ok?
    ensures Matches(h, ToWhere(BuildFilter(city, minPrice, maxPrice, propertyType)).value)
        <==> SatisfiesQuery(h, city, minPrice, maxPrice, propertyType)
  {
  }

  /** The listing holds the entry of every stored home that satisfies the
      query, and nothing else. */
  lemma GetHomesRouteLists(db: Db, city: Option<string>, minPrice: Option<string>, maxPrice: Option<string>, propertyType: Option<string>, e: Body)
    requires PriceText(minPrice) && PriceText(maxPrice)
    requires GetHomesRoute(db, city, minPrice, maxPrice, propertyType).Ok?
    ensures e in GetHomesRoute(db, city, minPrice, maxPrice, propertyType).value
        <==> exists h :: h in db.homes && SatisfiesQuery(h, city, minPrice, maxPrice, propertyType) && e == Summary(h, db.images)
  {
    var f := ToWhere(BuildFilter(city, minPrice, maxPrice, propertyType)).value;
    forall h | h in db.homes
      ensures Matches(h, f) <==> SatisfiesQuery(h, city, minPrice, maxPrice, propertyType)
    {
      WhereMatches(h, city, minPrice, maxPrice, propertyType);
    }
    if e in GetHomes(db, f) {
      GetHomesSound(db, f, e);
    }
    if exists h :: h in db.homes && SatisfiesQuery(h, city, minPrice, maxPrice, propertyType) && e == Summary(h, db.images) {
      var h :| h in db.homes && SatisfiesQuery(h, city, minPrice, maxPrice, propertyType) && e == Summary(h, db.images);
      GetHomesComplete(db, f, h);
    }
  }

  // ---------------------------------------------------------------------------
  // The other routes

  /** `GET /api/homes/:id`. */
  function GetOneHomeRoute(db: Db, idText: string): (r: Result<Body>)
    ensures r.Err? ==> r.error in {BadRequest, NotFound}
    ensures r.Err? && r.error == BadRequest <==> !IntegerText(idText)
    ensures r.Ok? ==> exists h :: h in db.homes && h.id == ParseIntPipe(idText).value && r.value == HomeResponse(HomeColumns(h))
  {
    match ParseIntPipe(idText)
    case Err(e) => Err(e)
    case Ok(id) => GetOneHomeById(db, id)
  }

  /** `POST /api/homes`: the realtor of the new home is the id of the request
      user. Reading the id of an absent user throws, a 500. */
  function CreateHomeRoute(db: Db, body: Body, user: Option<Claims>): (s: Step<Body>)
    ensures s.result.Err? ==> s.db == db
    ensures !ValidCreateHome(body) ==> s.result == Err(BadRequest)
    ensures ValidCreateHome(body) && user.None? ==> s.result == Err(ServerError)
    ensures s.result.Ok? ==>
      && user.Some? && ValidCreateHome(body)
      && |s.db.homes| == |db.homes| + 1
      && s.db.homes[|db.homes|].realtorId == user.value.id
      && s == CreateHome(db, DecodeCreateHome(body).value, user.value.id)
  {
    match DecodeCreateHome(body)
    case Err(e) => Step(db, Err(e))
    case Ok(d) =>
      if user.None? then Step(db, Err(ServerError)) else CreateHome(db, d, user.value.id)
  }

  /** `PUT /api/homes/:id`: the service is called without the user id, so the
      realtor of the home never changes, and the caller is never compared
      with it. */
  function UpdateHomeRoute(db: Db, idText: string, body: Body, user: Option<Claims>): (s: Step<Body>)
    ensures s.result.Err? ==> s.db == db
    ensures !IntegerText(idText) || !ValidUpdateHome(body) ==> s.result == Err(BadRequest)
    ensures s.result.Err? && s.result.error != BadRequest ==> s.result.error == NotFound
    ensures s.result.Ok? ==>
      && |s.db.homes| == |db.homes|
      && forall i :: 0 <= i < |db.homes| ==> s.db.homes[i].realtorId == db.homes[i].realtorId
  {
    match ParseIntPipe(idText)
    case Err(e) => Step(db, Err(e))
    case Ok(id) =>
      match DecodeUpdateHome(body)
      case Err(e) => Step(db, Err(e))
      case Ok(d) => UpdateHome(db, id, d, None)
  }

  /** `DELETE /api/homes/:id`. A numeric id of a stored home removes the home
      and its images; a numeric id of no home is answered with 500 and leaves
      the homes as they were. */
  function DeleteHomeRoute(db: Db, idText: string, user: Option<Claims>): (s: Step<()>)
    ensures !IntegerText(idText) ==> s == Step(db, Err(BadRequest))
    ensures IntegerText(idText) ==> s == DeleteHome(db, ParseIntPipe(idText).value)
    ensures s.result.Ok? <==> IntegerText(idText) && HasHome(db.homes, ParseIntPipe(idText).value)
    ensures s.result.Err? && IntegerText(idText) ==> s.result.error == ServerError && s.db.homes == db.homes
    ensures s.result.Ok? ==>
      && (forall h :: h in s.db.homes <==> h in db.homes && h.id != ParseIntPipe(idText).value)
      && (forall im :: im in s.db.images <==> im in db.images && im.homeId != ParseIntPipe(idText).value)
    ensures s.db.users == db.users && s.db.messages == db.messages
  {
    match ParseIntPipe(idText)
    case Err(e) => Step(db, Err(e))
    case Ok(id) => DeleteHome(db, id)
  }

  /** `POST /api/homes/:id/inquire`: the service reads the home before it
      reads the buyer's id, so an unknown home is a 404 even without a user. */
  function InquireRoute(db: Db, idText: string, body: Body, user: Option<Claims>): (s: Step<Message>)
    ensures s.result.Err? ==> s.db == db
    ensures !IntegerText(idText) || !ValidInquire(body) ==> s.result == Err(BadRequest)
    ensures s.result.Ok? ==>
      && user.Some? && IntegerText(idText) && ValidInquire(body)
      && s.result.value.buyerId == user.value.id
      && s.result.value.homeId == ParseIntPipe(idText).value
      && s.result.value.message == DecodeInquire(body).value
      && s.db.messages == db.messages + [s.result.value]
  {
    match ParseIntPipe(idText)
    case Err(e) => Step(db, Err(e))
    case Ok(homeId) =>
      match DecodeInquire(body)
      case Err(e) => Step(db, Err(e))
      case Ok(message) =>
        if !HasHome(db.homes, homeId) then Step(db, Err(NotFound))
        else if user.None? then Step(db, Err(ServerError))
        else Inquire(db, user.value.id, homeId, message)
  }

  /** `GET /api/homes/:id/messages`. */
  function GetHomeMessagesRoute(db: Db, idText: string, user: Option<Claims>): (r: Result<seq<Message>>)
    ensures r.Err? <==> !IntegerText(idText)
    ensures r.Err? ==> r.error == BadRequest
    ensures r.Ok? ==> forall m :: m in r.value <==> m in db.messages && m.homeId == ParseIntPipe(idText).value
  {
    match ParseIntPipe(idText)
    case Err(e) => Err(e)
    case Ok(id) => Ok(GetMessagesByHomeId(db, id))
  }

  /** Update, delete and the message list answer the same whoever calls:
      the caller's identity is never consulted. */
  lemma OwnerNeverConsulted(db: Db, idText: string, body: Body, u1: Option<Claims>, u2: Option<Claims>)
    ensures UpdateHomeRoute(db, idText, body, u1) == UpdateHomeRoute(db, idText, body, u2)
    ensures DeleteHomeRoute(db, idText, u1) == DeleteHomeRoute(db, idText, u2)
    ensures GetHomeMessagesRoute(db, idText, u1) == GetHomeMessagesRoute(db, idText, u2)
  {
  }

  // ---------------------------------------------------------------------------
  // Ownership, as the route documentation promises it

  /** The caller owns the home: 404 for an unknown home, 403 for a caller
      who is not its realtor. */
  function OwnerCheck(db: Db, id: int, user: Option<Claims>): (r: Result<()>)
    ensures r.Err? && r.error == NotFound <==> !HasHome(db.homes, id)
    ensures r.Ok? <==> exists h :: h in db.homes && h.id == id && user.Some? && FindHome(db.homes, id) == Some(h) && h.realtorId == user.value.id
    ensures r.Err? ==> r.error in {NotFound, Forbidden}
  {
    match FindHome(db.homes, id)
    case None => Err(NotFound)
    case Some(h) => if user.Some? && h.realtorId == user.value.id then Ok(()) else Err(Forbidden)
  }

  /** A non-owner's update is applied: for every valid payload, every stored
      home and every caller other than its realtor, the update succeeds. */
  lemma NonOwnerUpdates(db: Db, h: Home, body: Body, user: Claims)
    requires h in db.homes
    requires ValidUpdateHome(body)
    requires user.id != h.realtorId
    ensures UpdateHomeRoute(db, IntText(h.id), body, Some(user)).result.Ok?
  {
    ParseIntPipeRoundTrip(h.id);
  }

  /** A non-owner's delete removes the home. */
  lemma NonOwnerDeletes(db: Db, h: Home, user: Claims)
    requires h in db.homes
    requires user.id != h.realtorId
    ensures DeleteHomeRoute(db, IntText(h.id), Some(user)).result.Ok?
    ensures h !in DeleteHomeRoute(db, IntText(h.id), Some(user)).db.homes
  {
    ParseIntPipeRoundTrip(h.id);
  }

  /** `PUT /api/homes/:id` with the documented ownership check. */
  function UpdateOwnHomeRoute(db: Db, idText: string, body: Body, user: Option<Claims>): (s: Step<Body>)
    ensures s.result.Err? ==> s.db == db
    ensures s.result.Ok? ==>
      && user.Some? && IntegerText(idText)
      && exists h :: h in db.homes && h.id == ParseIntPipe(idText).value && h.realtorId == user.value.id
    ensures IntegerText(idText) && ValidUpdateHome(body) && OwnerCheck(db, ParseIntPipe(idText).value, user).Ok?
      ==> s == UpdateHomeRoute(db, idText, body, user)
  {
    match ParseIntPipe(idText)
    case Err(e) => Step(db, Err(e))
    case Ok(id) =>
      match DecodeUpdateHome(body)
      case Err(e) => Step(db, Err(e))
      case Ok(d) =>
        match OwnerCheck(db, id, user)
        case Err(e) => Step(db, Err(e))
        case Ok(_) => UpdateHome(db, id, d, None)
  }

  /** `DELETE /api/homes/:id` with the documented ownership check. */
  function DeleteOwnHomeRoute(db: Db, idText: string, user: Option<Claims>): (s: Step<()>)
    ensures s.result.Err? ==> s.db == db
    ensures s.result.Ok? ==>
      && user.Some? && IntegerText(idText)
      && exists h :: h in db.homes && h.id == ParseIntPipe(idText).value && h.realtorId == user.value.id
    ensures IntegerText(idText) && OwnerCheck(db, ParseIntPipe(idText).value, user).Ok?
      ==> s == DeleteHomeRoute(db, idText, user)
  {
    match ParseIntPipe(idText)
    case Err(e) => Step(db, Err(e))
    case Ok(id) =>
      match OwnerCheck(db, id, user)
      case Err(e) => Step(db, Err(e))
      case Ok(_) => DeleteHome(db, id)
  }

  /** `GET /api/homes/:id/messages` with the documented ownership check. */
  function GetOwnHomeMessagesRoute(db: Db, idText: string, user: Option<Claims>): (r: Result<seq<Message>>)
    ensures r.Ok? ==>
      && user.Some? && IntegerText(idText)
      && exists h :: h in db.homes && h.id == ParseIntPipe(idText).value && h.realtorId == user.value.id
    ensures IntegerText(idText) && OwnerCheck(db, ParseIntPipe(idText).value, user).Ok?
      ==> r == GetHomeMessagesRoute(db, idText, user)
  {
    match ParseIntPipe(idText)
    case Err(e) => Err(e)
    case Ok(id) =>
      match OwnerCheck(db, id, user)
      case Err(e) => Err(e)
      case Ok(_) => Ok(GetMessagesByHomeId(db, id))
  }

  /** With the check, a caller who is not the realtor of a stored home is
      refused with 403 and the store is unchanged. */
  lemma NonOwnerForbidden(db: Db, h: Home, body: Body, user: Claims)
    requires Valid(db)
    requires h in db.homes
    requires ValidUpdateHome(body)
    requires user.id != h.realtorId
    ensures UpdateOwnHomeRoute(db, IntText(h.id), body, Some(user)) == Step(db, Err(Forbidden))
    ensures DeleteOwnHomeRoute(db, IntText(h.id), Some(user)) == Step(db, Err(Forbidden))
    ensures GetOwnHomeMessagesRoute(db, IntText(h.id), Some(user)) == Err(Forbidden)
  {
    ParseIntPipeRoundTrip(h.id);
    FindHomeUnique(db, h);
  }
}

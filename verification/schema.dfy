/** The relational schema behind the ORM client: users, homes, images and
    inquiry messages, each table a sequence of rows in insertion order, with
    an autoincrement counter per table. */
module Schema {
  import opened Results
  import opened Json

  datatype UserType = Buyer | Realtor | Admin {
    /** The enum value as it travels in JSON, paths and tokens. */
    function Name(): string {
      match this
      case Buyer => "BUYER"
      case Realtor => "REALTOR"
      case Admin => "ADMIN"
    }
  }

  function ParseUserType(s: string): (t: Option<UserType>)
    ensures t.Some? ==> t.value.Name() == s
    ensures t.None? ==> s !in UserTypeNames
  {
    if s == "BUYER" then Some(Buyer)
    else if s == "REALTOR" then Some(Realtor)
    else if s == "ADMIN" then Some(Admin)
    else None
  }

  const UserTypeNames: set<string> := {"BUYER", "REALTOR", "ADMIN"}

  lemma UserTypeNameRoundTrip(t: UserType)
    ensures t.Name() in UserTypeNames
    ensures ParseUserType(t.Name()) == Some(t)
  {
  }

  datatype PropertyType = Residential | Condo {
    function Name(): string {
      match this
      case Residential => "RESIDENTIAL"
      case Condo => "CONDO"
    }
  }

  const PropertyTypeNames: set<string> := {"RESIDENTIAL", "CONDO"}

  function ParsePropertyType(s: string): (t: Option<PropertyType>)
    ensures t.Some? ==> t.value.Name() == s
    ensures t.None? ==> s !in PropertyTypeNames
  {
    if s == "RESIDENTIAL" then Some(Residential)
    else if s == "CONDO" then Some(Condo)
    else None
  }

  lemma PropertyTypeNameRoundTrip(t: PropertyType)
    ensures t.Name() in PropertyTypeNames
    ensures ParsePropertyType(t.Name()) == Some(t)
  {
  }

  /** A row of the user table; `password` holds the bcrypt digest. */
  datatype User = User(id: nat, name: string, phone: string, email: string, password: string, userType: UserType)

  /** A row of the home table, with the columns under their model names:
      `numberOfBedrooms` is `number_of_bedrooms`, `numberOfBathrooms` is
      `number_of_bathrooms`, `landSize` is `land_size`, `realtorId` is
      `realtor_id`. */
  datatype Home = Home(
    id: nat,
    address: string,
    numberOfBedrooms: real,
    numberOfBathrooms: real,
    city: string,
    price: real,
    landSize: real,
    propertyType: PropertyType,
    realtorId: nat)

  datatype Image = Image(id: nat, url: string, homeId: nat)

  datatype Message = Message(id: nat, message: string, buyerId: nat, realtorId: nat, homeId: nat)

  datatype Db = Db(
    users: seq<User>,
    homes: seq<Home>,
    images: seq<Image>,
    messages: seq<Message>,
    nextUserId: nat,
    nextHomeId: nat,
    nextImageId: nat,
    nextMessageId: nat)

  /** The store after an operation, and what the operation answers. */
  datatype Step<T> = Step(db: Db, result: Result<T>)

  /** An empty database; autoincrement ids start at 1. */
  const EmptyDb: Db := Db([], [], [], [], 1, 1, 1, 1)

  // ---------------------------------------------------------------------------
  // Lookups (`findUnique`)

  /** The first user that `p` selects: the row a `findUnique` on a unique
      column returns. */
  function FindUser(users: seq<User>, p: User -> bool): (r: Option<User>)
    ensures r.Some? ==> r.value in users && p(r.value)
    ensures r.None? <==> forall u :: u in users ==> !p(u)
  {
    if |users| == 0 then None
    else if p(users[0]) then Some(users[0])
    else FindUser(users[1..], p)
  }

  function FindUserByEmail(users: seq<User>, email: string): (r: Option<User>)
    ensures r.Some? ==> r.value in users && r.value.email == email
    ensures r.None? <==> forall u :: u in users ==> u.email != email
  {
    FindUser(users, (u: User) => u.email == email)
  }

  function FindUserById(users: seq<User>, id: nat): (r: Option<User>)
    ensures r.Some? ==> r.value in users && r.value.id == id
    ensures r.None? <==> forall u :: u in users ==> u.id != id
  {
    FindUser(users, (u: User) => u.id == id)
  }

  function FindHome(homes: seq<Home>, id: int): (r: Option<Home>)
    ensures r.Some? ==> r.value in homes && r.value.id == id
    ensures r.None? <==> forall h :: h in homes ==> h.id != id
  {
    if |homes| == 0 then None
    else if homes[0].id == id then Some(homes[0])
    else FindHome(homes[1..], id)
  }

  // ---------------------------------------------------------------------------
  // Integrity of the tables

  predicate HasUser(users: seq<User>, id: nat) {
    exists u :: u in users && u.id == id
  }

  predicate HasHome(homes: seq<Home>, id: int) {
    exists h :: h in homes && h.id == id
  }

  predicate UsersValid(db: Db) {
    && (forall u :: u in db.users ==> u.id < db.nextUserId)
    && (forall u, v :: u in db.users && v in db.users && u.id == v.id ==> u == v)
    && (forall u, v :: u in db.users && v in db.users && u.email == v.email ==> u == v)
  }

  /** Home ids are keys and every home's realtor is a stored user (the
      `realtor` relation). */
  predicate HomesValid(db: Db) {
    && (forall h :: h in db.homes ==> h.id < db.nextHomeId && HasUser(db.users, h.realtorId))
    && (forall h, g :: h in db.homes && g in db.homes && h.id == g.id ==> h == g)
  }

  /** Image ids are keys and every image belongs to a stored home. */
  predicate ImagesValid(db: Db) {
    && (forall im :: im in db.images ==> im.id < db.nextImageId && HasHome(db.homes, im.homeId))
    && (forall a, b :: a in db.images && b in db.images && a.id == b.id ==> a == b)
  }

  predicate MessagesValid(db: Db) {
    && (forall m :: m in db.messages ==> m.id < db.nextMessageId)
    && (forall a, b :: a in db.messages && b in db.messages && a.id == b.id ==> a == b)
  }

  predicate Valid(db: Db) {
    UsersValid(db) && HomesValid(db) && ImagesValid(db) && MessagesValid(db)
  }

  lemma EmptyDbValid()
    ensures Valid(EmptyDb)
  {
  }

  /** In a valid database a home id identifies one row. */
  lemma FindHomeUnique(db: Db, h: Home)
    requires Valid(db)
    requires h in db.homes
    ensures FindHome(db.homes, h.id) == Some(h)
  {
  }

  lemma FindUserByIdUnique(db: Db, u: User)
    requires Valid(db)
    requires u in db.users
    ensures FindUserById(db.users, u.id) == Some(u)
  {
  }

  lemma FindUserByEmailUnique(db: Db, u: User)
    requires Valid(db)
    requires u in db.users
    ensures FindUserByEmail(db.users, u.email) == Some(u)
  {
  }

  // ---------------------------------------------------------------------------
  // Rows as the ORM returns them, keyed by column name

  /** The columns of a home row as the ORM hands them to a response DTO. */
  function HomeColumns(h: Home): Body {
    map[
      "id" := Number(h.id as real),
      "address" := Str(h.address),
      "number_of_bedrooms" := Number(h.numberOfBedrooms),
      "number_of_bathrooms" := Number(h.numberOfBathrooms),
      "city" := Str(h.city),
      "price" := Number(h.price),
      "land_size" := Number(h.landSize),
      "propertyType" := Str(h.propertyType.Name()),
      "realtor_id" := Number(h.realtorId as real)
    ]
  }
}

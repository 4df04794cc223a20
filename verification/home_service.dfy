/** `HomeService`: listing, reading, creating, updating and deleting homes,
    and the inquiry messages about them, as transitions of the store. Each
    ORM call is one atomic step; a write that the database refuses (a broken
    foreign key, a missing row) is the 500 the framework answers for an
    unhandled error. */
module HomeService {
  import opened Results
  import opened Json
  import opened Schema
  import opened Collections
  import HomeDto

  // ---------------------------------------------------------------------------
  // getHomes

  /** `GetHomesParam`: the `where` clause of the listing. */
  datatype PriceRange = PriceRange(gte: Option<real>, lte: Option<real>)
  datatype HomeFilter = HomeFilter(city: Option<string>, price: Option<PriceRange>, propertyType: Option<PropertyType>)

  const NoFilter: HomeFilter := HomeFilter(None, None, None)

  /** A home satisfies every key the filter has. */
  predicate Matches(h: Home, f: HomeFilter) {
    && (f.city.Some? ==> h.city == f.city.value)
    && (f.price.Some? && f.price.value.gte.Some? ==> f.price.value.gte.value <= h.price)
    && (f.price.Some? && f.price.value.lte.Some? ==> h.price <= f.price.value.lte.value)
    && (f.propertyType.Some? ==> h.propertyType == f.propertyType.value)
  }

  function Where(f: HomeFilter): Home -> bool {
    (h: Home) => Matches(h, f)
  }

  function OfHome(homeId: int): Image -> bool {
    (im: Image) => im.homeId == homeId
  }

  /** The first image of a home in table order (`images: { take: 1 }`). */
  function FirstImage(images: seq<Image>, homeId: int): (r: Option<Image>)
    ensures r.Some? ==> r.value in images && r.value.homeId == homeId
    ensures r.None? <==> forall im :: im in images ==> im.homeId != homeId
    ensures r.Some? ==> exists k :: 0 <= k < |images| && images[k] == r.value && NoneBefore(images, homeId, k)
  {
    if |images| == 0 then None
    else if images[0].homeId == homeId then Some(images[0])
    else
      var rest := FirstImage(images[1..], homeId);
      if rest.Some? then
        var k :| 0 <= k < |images[1..]| && images[1..][k] == rest.value && NoneBefore(images[1..], homeId, k);
        assert images[k + 1] == rest.value && NoneBefore(images, homeId, k + 1);
        rest
      else rest
  }

  /** No image before position `k` belongs to the home. */
  predicate NoneBefore(images: seq<Image>, homeId: int, k: nat)
    requires k <= |images|
  {
    forall j :: 0 <= j < k ==> images[j].homeId != homeId
  }

  /** The URLs of a home's images, in table order. */
  function UrlsOf(images: seq<Image>, homeId: int): seq<string> {
    var own := Filter(images, OfHome(homeId));
    seq(|own|, i requires 0 <= i < |own| => own[i].url)
  }

  /** The selected columns of a listed home, with `image` set to the first
      image's URL; an undefined `image` is dropped from the JSON. */
  function ListingRow(h: Home, image: Option<Image>): Body {
    var row := map[
      "id" := Number(h.id as real),
      "address" := Str(h.address),
      "city" := Str(h.city),
      "price" := Number(h.price),
      "propertyType" := Str(h.propertyType.Name()),
      "number_of_bedrooms" := Number(h.numberOfBedrooms),
      "number_of_bathrooms" := Number(h.numberOfBathrooms)
    ];
    if image.Some? then row["image" := Str(image.value.url)] else row
  }

  const ListingKeys: set<string> :=
    {"id", "address", "city", "price", "propertyType", "numberOfBedrooms", "numberOfBathrooms"}

  /** One entry of the listing as the client receives it. */
  function Summary(h: Home, images: seq<Image>): (e: Body)
    ensures e.Keys == ListingKeys + (if FirstImage(images, h.id).Some? then {"image"} else {})
    ensures e["id"] == Number(h.id as real) && e["address"] == Str(h.address) && e["city"] == Str(h.city)
    ensures e["price"] == Number(h.price) && e["propertyType"] == Str(h.propertyType.Name())
    ensures e["numberOfBedrooms"] == Number(h.numberOfBedrooms)
    ensures e["numberOfBathrooms"] == Number(h.numberOfBathrooms)
    ensures "image" in e ==> e["image"] == Str(FirstImage(images, h.id).value.url)
  {
    var image := FirstImage(images, h.id);
    ListingKeysOf(h, image);
    ListingValuesOf(h, image);
    ListingCountsOf(h, image);
    HomeDto.HomeResponse(ListingRow(h, image))
  }

  lemma ListingKeysOf(h: Home, image: Option<Image>)
    ensures HomeDto.HomeResponse(ListingRow(h, image)).Keys == ListingKeys + (if image.Some? then {"image"} else {})
  {
    HomeDto.HomeResponseKeys(ListingRow(h, image));
  }

  lemma ListingValuesOf(h: Home, image: Option<Image>)
    ensures
      var e := HomeDto.HomeResponse(ListingRow(h, image));
      && ("id" in e ==> e["id"] == Number(h.id as real))
      && ("address" in e ==> e["address"] == Str(h.address))
      && ("city" in e ==> e["city"] == Str(h.city))
      && ("price" in e ==> e["price"] == Number(h.price))
      && ("propertyType" in e ==> e["propertyType"] == Str(h.propertyType.Name()))
      && ("image" in e ==> image.Some? && e["image"] == Str(image.value.url))
  {
    ListingPlaceOf(h, image);
    ListingKindOf(h, image);
  }

  lemma ListingPlaceOf(h: Home, image: Option<Image>)
    ensures
      var e := HomeDto.HomeResponse(ListingRow(h, image));
      && ("id" in e ==> e["id"] == Number(h.id as real))
      && ("address" in e ==> e["address"] == Str(h.address))
      && ("city" in e ==> e["city"] == Str(h.city))
  {
  }

  lemma ListingKindOf(h: Home, image: Option<Image>)
    ensures
      var e := HomeDto.HomeResponse(ListingRow(h, image));
      && ("price" in e ==> e["price"] == Number(h.price))
      && ("propertyType" in e ==> e["propertyType"] == Str(h.propertyType.Name()))
      && ("image" in e ==> image.Some? && e["image"] == Str(image.value.url))
  {
  }

  lemma ListingCountsOf(h: Home, image: Option<Image>)
    ensures
      var e := HomeDto.HomeResponse(ListingRow(h, image));
      && ("numberOfBedrooms" in e ==> e["numberOfBedrooms"] == Number(h.numberOfBedrooms))
      && ("numberOfBathrooms" in e ==> e["numberOfBathrooms"] == Number(h.numberOfBathrooms))
  {
  }

  /** `getHomes(filter)`: the stored homes the filter selects, in table
      order, each as its listing entry. */
  function GetHomes(db: Db, f: HomeFilter): (out: seq<Body>)
    ensures |out| == |Filter(db.homes, Where(f))|
  {
    var selected := Filter(db.homes, Where(f));
    seq(|selected|, i requires 0 <= i < |selected| => Summary(selected[i], db.images))
  }

  /** Every entry is the summary of a stored home that satisfies the filter. */
  lemma GetHomesSound(db: Db, f: HomeFilter, e: Body)
    requires e in GetHomes(db, f)
    ensures exists h :: h in db.homes && Matches(h, f) && e == Summary(h, db.images)
  {
    var selected := Filter(db.homes, Where(f));
    var out := GetHomes(db, f);
    var i :| 0 <= i < |out| && out[i] == e;
    assert selected[i] in selected;
  }

  /** Every stored home that satisfies the filter is listed; there is no
      not-found case. */
  lemma GetHomesComplete(db: Db, f: HomeFilter, h: Home)
    requires h in db.homes && Matches(h, f)
    ensures Summary(h, db.images) in GetHomes(db, f)
  {
    var selected := Filter(db.homes, Where(f));
    assert h in selected;
    var i :| 0 <= i < |selected| && selected[i] == h;
    assert GetHomes(db, f)[i] == Summary(h, db.images);
  }

  /** When no home satisfies the filter the listing is empty. */
  lemma GetHomesNoMatch(db: Db, f: HomeFilter)
    requires forall h :: h in db.homes ==> !Matches(h, f)
    ensures GetHomes(db, f) == []
  {
    FilterNone(db.homes, Where(f));
  }

  /** Without filter keys every home is listed, in table order. */
  lemma GetHomesNoFilter(db: Db)
    ensures |GetHomes(db, NoFilter)| == |db.homes|
    ensures forall i :: 0 <= i < |db.homes| ==> GetHomes(db, NoFilter)[i] == Summary(db.homes[i], db.images)
  {
    FilterAll(db.homes, Where(NoFilter));
  }

  // ---------------------------------------------------------------------------
  // getOneHomeById

  /** `getOneHomeById(id)`: the stored home as `HomeResponseDto`, or 404. */
  function GetOneHomeById(db: Db, id: int): (r: Result<Body>)
    ensures r.Err? <==> !HasHome(db.homes, id)
    ensures r.Err? ==> r.error == NotFound
    ensures r.Ok? ==> exists h :: h in db.homes && h.id == id && r.value == HomeDto.HomeResponse(HomeColumns(h))
  {
    match FindHome(db.homes, id)
    case None => Err(NotFound)
    case Some(h) => Ok(HomeDto.HomeResponse(HomeColumns(h)))
  }

  /** The keys a single home is served with: bedroom and bathroom counts under
      their exposed names, `realtor_id` hidden. */
  const DetailKeys: set<string> :=
    {"id", "address", "numberOfBedrooms", "numberOfBathrooms", "city", "price", "land_size", "propertyType"}

  lemma HomeDetailKeys(h: Home)
    ensures HomeDto.HomeResponse(HomeColumns(h)).Keys == DetailKeys
  {
    HomeDto.HomeResponseKeys(HomeColumns(h));
  }

  lemma HomeDetail(h: Home)
    ensures HomeDto.HomeResponse(HomeColumns(h)).Keys == DetailKeys
    ensures HomeDto.HomeResponse(HomeColumns(h))["numberOfBedrooms"] == Number(h.numberOfBedrooms)
    ensures HomeDto.HomeResponse(HomeColumns(h))["numberOfBathrooms"] == Number(h.numberOfBathrooms)
    ensures HomeDto.HomeResponse(HomeColumns(h))["land_size"] == Number(h.landSize)
  {
    HomeDetailKeys(h);
  }

  // ---------------------------------------------------------------------------
  // createHome

  /** The home row `createHome` writes: payload fields under their column
      names and `realtor_id` from the caller. */
  function NewHome(id: nat, d: HomeDto.CreateHomeDto, userId: nat): Home {
    Home(id, d.address, d.numberOfBedrooms, d.numberOfBathrooms, d.city, d.price, d.landSize, d.propertyType, userId)
  }

  /** The rows `image.createMany` writes: one per URL, in order. */
  function NewImages(firstId: nat, urls: seq<string>, homeId: nat): (r: seq<Image>)
    ensures |r| == |urls|
    ensures forall i :: 0 <= i < |r| ==> r[i] == Image(firstId + i, urls[i], homeId)
  {
    seq(|urls|, i requires 0 <= i < |urls| => Image(firstId + i, urls[i], homeId))
  }

  /** `createHome(payload, userId)`. A realtor id that names no user breaks
      the `realtor` relation: the write fails and nothing is stored. */
  function CreateHome(db: Db, d: HomeDto.CreateHomeDto, userId: nat): (s: Step<Body>)
    ensures s.result.Err? <==> !HasUser(db.users, userId)
    ensures s.result.Err? ==> s.result.error == ServerError && s.db == db
    ensures s.result.Ok? ==>
      && |s.db.homes| == |db.homes| + 1
      && s.db.homes[..|db.homes|] == db.homes
      && var home := s.db.homes[|db.homes|];
      && home.id == db.nextHomeId
      && home.address == d.address && home.city == d.city
      && home.numberOfBedrooms == d.numberOfBedrooms
      && home.numberOfBathrooms == d.numberOfBathrooms
      && home.price == d.price && home.landSize == d.landSize
      && home.propertyType == d.propertyType
      && home.realtorId == userId
      && s.result.value == HomeColumns(home)
      && |s.db.images| == |db.images| + |d.images|
      && s.db.images[..|db.images|] == db.images
      && (forall i :: 0 <= i < |d.images| ==>
            s.db.images[|db.images| + i].url == d.images[i] && s.db.images[|db.images| + i].homeId == home.id)
    ensures s.db.users == db.users && s.db.messages == db.messages
  {
    if !HasUser(db.users, userId) then Step(db, Err(ServerError))
    else
      var home := NewHome(db.nextHomeId, d, userId);
      var images := NewImages(db.nextImageId, d.images, home.id);
      var next := db.(
        homes := db.homes + [home],
        images := db.images + images,
        nextHomeId := db.nextHomeId + 1,
        nextImageId := db.nextImageId + |images|);
      assert next.homes[..|db.homes|] == db.homes;
      assert next.images[..|db.images|] == db.images;
      Step(next, Ok(HomeColumns(home)))
  }

  /** In a valid store the id a new home gets is not in use. */
  lemma CreatedHomeIsNew(db: Db, d: HomeDto.CreateHomeDto, userId: nat)
    requires Valid(db)
    ensures !HasHome(db.homes, db.nextHomeId)
  {
  }

  lemma CreateHomeKeepsHomesValid(db: Db, d: HomeDto.CreateHomeDto, userId: nat)
    requires Valid(db)
    ensures HomesValid(CreateHome(db, d, userId).db)
  {
    var s := CreateHome(db, d, userId);
    if s.result.Ok? {
      var home := NewHome(db.nextHomeId, d, userId);
      assert s.db.homes == db.homes + [home];
    }
  }

  /** Image rows numbered from the counter, all for one stored home, keep
      the image table's keys and references intact. */
  lemma AppendedImagesValid(before: seq<Image>, added: seq<Image>, homes: seq<Home>, next: nat, homeId: nat)
    requires forall im :: im in before ==> im.id < next && HasHome(homes, im.homeId)
    requires forall a, b :: a in before && b in before && a.id == b.id ==> a == b
    requires HasHome(homes, homeId)
    requires forall i :: 0 <= i < |added| ==> added[i].id == next + i && added[i].homeId == homeId
    ensures forall im :: im in before + added ==> im.id < next + |added| && HasHome(homes, im.homeId)
    ensures forall a, b :: a in before + added && b in before + added && a.id == b.id ==> a == b
  {
    forall a, b | a in before + added && b in before + added && a.id == b.id
      ensures a == b
    {
      if a in added && b in added {
        var i :| 0 <= i < |added| && added[i] == a;
        var j :| 0 <= j < |added| && added[j] == b;
        assert i == j;
      }
    }
  }

  lemma CreateHomeKeepsImagesValid(db: Db, d: HomeDto.CreateHomeDto, userId: nat)
    requires Valid(db)
    ensures ImagesValid(CreateHome(db, d, userId).db)
  {
    var s := CreateHome(db, d, userId);
    if s.result.Ok? {
      var home := NewHome(db.nextHomeId, d, userId);
      var images := NewImages(db.nextImageId, d.images, home.id);
      assert s.db.homes == db.homes + [home];
      assert s.db.images == db.images + images;
      assert HasHome(s.db.homes, home.id) by {
        assert home in s.db.homes;
      }
      forall im | im in db.images
        ensures HasHome(s.db.homes, im.homeId)
      {
        var g :| g in db.homes && g.id == im.homeId;
        assert g in s.db.homes;
      }
      AppendedImagesValid(db.images, images, s.db.homes, db.nextImageId, home.id);
    }
  }

  lemma CreateHomePreservesValid(db: Db, d: HomeDto.CreateHomeDto, userId: nat)
    requires Valid(db)
    ensures Valid(CreateHome(db, d, userId).db)
  {
    CreateHomeKeepsHomesValid(db, d, userId);
    CreateHomeKeepsImagesValid(db, d, userId);
  }

  /** In a valid store no image belongs to the id the next home will get. */
  lemma NoImagesOfNextHome(db: Db)
    requires Valid(db)
    ensures Filter(db.images, OfHome(db.nextHomeId)) == []
  {
    forall i | 0 <= i < |db.images|
      ensures db.images[i].homeId != db.nextHomeId
    {
      assert db.images[i] in db.images;
    }
    FilterNone(db.images, OfHome(db.nextHomeId));
  }

  lemma UrlsOfNewImages(db: Db, urls: seq<string>)
    requires Valid(db)
    ensures UrlsOf(db.images + NewImages(db.nextImageId, urls, db.nextHomeId), db.nextHomeId) == urls
  {
    var images := NewImages(db.nextImageId, urls, db.nextHomeId);
    FilterAppend(db.images, images, OfHome(db.nextHomeId));
    NoImagesOfNextHome(db);
    FilterAll(images, OfHome(db.nextHomeId));
    assert Filter(db.images + images, OfHome(db.nextHomeId)) == images;
  }

  /** `createHome` stores one image per payload URL, in order, and those are
      all the images of the new home. */
  lemma CreatedHomeImages(db: Db, d: HomeDto.CreateHomeDto, userId: nat)
    requires Valid(db)
    requires HasUser(db.users, userId)
    ensures UrlsOf(CreateHome(db, d, userId).db.images, db.nextHomeId) == d.images
  {
    UrlsOfNewImages(db, d.images);
  }

  /** A created home can be read back under the id it was given. */
  lemma CreateThenGet(db: Db, d: HomeDto.CreateHomeDto, userId: nat)
    requires Valid(db)
    requires HasUser(db.users, userId)
    ensures GetOneHomeById(CreateHome(db, d, userId).db, db.nextHomeId)
         == Ok(HomeDto.HomeResponse(HomeColumns(NewHome(db.nextHomeId, d, userId))))
  {
    var s := CreateHome(db, d, userId);
    var home := NewHome(db.nextHomeId, d, userId);
    assert s.db.homes == db.homes + [home];
    CreateHomePreservesValid(db, d, userId);
    assert home in s.db.homes;
    FindHomeUnique(s.db, home);
  }

  // ---------------------------------------------------------------------------
  // updateHome

  /** The row `home.update` writes: each field the payload has replaces the
      column it is renamed to; a field it lacks leaves the column as it was,
      as does an undefined `userId` for `realtor_id`. */
  predicate Patched(before: Home, after: Home, d: HomeDto.UpdateHomeDto, userId: Option<nat>) {
    && after.id == before.id
    && after.address == (if d.address.Some? then d.address.value else before.address)
    && after.numberOfBedrooms == (if d.numberOfBedrooms.Some? then d.numberOfBedrooms.value else before.numberOfBedrooms)
    && after.numberOfBathrooms == (if d.numberOfBathrooms.Some? then d.numberOfBathrooms.value else before.numberOfBathrooms)
    && after.city == (if d.city.Some? then d.city.value else before.city)
    && after.price == (if d.price.Some? then d.price.value else before.price)
    && after.landSize == (if d.landSize.Some? then d.landSize.value else before.landSize)
    && after.propertyType == (if d.propertyType.Some? then d.propertyType.value else before.propertyType)
    && after.realtorId == (if userId.Some? then userId.value else before.realtorId)
  }

  function Patch(h: Home, d: HomeDto.UpdateHomeDto, userId: Option<nat>): (r: Home)
    ensures Patched(h, r, d, userId)
  {
    Home(
      h.id,
      if d.address.Some? then d.address.value else h.address,
      if d.numberOfBedrooms.Some? then d.numberOfBedrooms.value else h.numberOfBedrooms,
      if d.numberOfBathrooms.Some? then d.numberOfBathrooms.value else h.numberOfBathrooms,
      if d.city.Some? then d.city.value else h.city,
      if d.price.Some? then d.price.value else h.price,
      if d.landSize.Some? then d.landSize.value else h.landSize,
      if d.propertyType.Some? then d.propertyType.value else h.propertyType,
      if userId.Some? then userId.value else h.realtorId)
  }

  /** `home.update({ where: { id } })` on every row with that id. */
  function PatchRows(homes: seq<Home>, id: int, d: HomeDto.UpdateHomeDto, userId: Option<nat>): (r: seq<Home>)
    ensures |r| == |homes|
  {
    seq(|homes|, i requires 0 <= i < |homes| => if homes[i].id == id then Patch(homes[i], d, userId) else homes[i])
  }

  /** `updateHome(id, payload, userId)`: 404 and no change for an unknown id;
      otherwise the home's row is patched and returned, every other row kept.
      A `userId` naming no user breaks the `realtor` relation. */
  function UpdateHome(db: Db, id: int, d: HomeDto.UpdateHomeDto, userId: Option<nat>): (s: Step<Body>)
    ensures s.result.Err? && s.result.error == NotFound <==> !HasHome(db.homes, id)
    ensures s.result.Err? ==> s.db == db
    ensures s.result.Err? && s.result.error != NotFound ==>
      s.result.error == ServerError && userId.Some? && !HasUser(db.users, userId.value)
    ensures s.result.Ok? ==>
      && s.db == db.(homes := s.db.homes)
      && |s.db.homes| == |db.homes|
      && (forall i :: 0 <= i < |db.homes| && db.homes[i].id != id ==> s.db.homes[i] == db.homes[i])
      && (forall i :: 0 <= i < |db.homes| && db.homes[i].id == id ==> Patched(db.homes[i], s.db.homes[i], d, userId))
      && exists i :: 0 <= i < |db.homes| && db.homes[i].id == id && s.result.value == HomeColumns(s.db.homes[i])
  {
    match FindHome(db.homes, id)
    case None => Step(db, Err(NotFound))
    case Some(h) =>
      if userId.Some? && !HasUser(db.users, userId.value) then Step(db, Err(ServerError))
      else
        var next := db.(homes := PatchRows(db.homes, id, d, userId));
        var i :| 0 <= i < |db.homes| && db.homes[i] == h;
        assert next.homes[i] == Patch(h, d, userId);
        Step(next, Ok(HomeColumns(Patch(h, d, userId))))
  }

  /** Patching the rows and then looking the id up finds the patched first
      row. */
  lemma {:induction false} FindHomePatched(homes: seq<Home>, id: int, d: HomeDto.UpdateHomeDto, userId: Option<nat>)
    ensures FindHome(PatchRows(homes, id, d, userId), id)
         == if FindHome(homes, id).Some? then Some(Patch(FindHome(homes, id).value, d, userId)) else None
  {
    if |homes| > 0 && homes[0].id != id {
      assert PatchRows(homes, id, d, userId)[1..] == PatchRows(homes[1..], id, d, userId);
      FindHomePatched(homes[1..], id, d, userId);
    }
  }

  lemma PatchTwice(h: Home, d: HomeDto.UpdateHomeDto, userId: Option<nat>)
    ensures Patch(Patch(h, d, userId), d, userId) == Patch(h, d, userId)
  {
  }

  lemma PatchRowsTwice(homes: seq<Home>, id: int, d: HomeDto.UpdateHomeDto, userId: Option<nat>)
    ensures PatchRows(PatchRows(homes, id, d, userId), id, d, userId) == PatchRows(homes, id, d, userId)
  {
    var once := PatchRows(homes, id, d, userId);
    forall j | 0 <= j < |homes|
      ensures PatchRows(once, id, d, userId)[j] == once[j]
    {
      PatchTwice(homes[j], d, userId);
    }
  }

  /** The same update applied twice leaves the store as applying it once, and
      answers the same. */
  lemma UpdateHomeIdempotent(db: Db, id: int, d: HomeDto.UpdateHomeDto, userId: Option<nat>)
    ensures UpdateHome(UpdateHome(db, id, d, userId).db, id, d, userId) == UpdateHome(db, id, d, userId)
  {
    var s := UpdateHome(db, id, d, userId);
    if s.result.Ok? {
      var h := FindHome(db.homes, id).value;
      assert s.db == db.(homes := PatchRows(db.homes, id, d, userId));
      FindHomePatched(db.homes, id, d, userId);
      PatchTwice(h, d, userId);
      PatchRowsTwice(db.homes, id, d, userId);
    }
  }

  /** Patching keeps every row's id, at its position. */
  lemma PatchRowsIds(homes: seq<Home>, id: int, d: HomeDto.UpdateHomeDto, userId: Option<nat>)
    ensures forall j :: 0 <= j < |homes| ==> PatchRows(homes, id, d, userId)[j].id == homes[j].id
  {
  }

  lemma PatchRowsKeepsHomesValid(db: Db, id: int, d: HomeDto.UpdateHomeDto, userId: Option<nat>)
    requires Valid(db)
    requires userId.Some? ==> HasUser(db.users, userId.value)
    ensures HomesValid(db.(homes := PatchRows(db.homes, id, d, userId)))
  {
    var rows := PatchRows(db.homes, id, d, userId);
    PatchRowsIds(db.homes, id, d, userId);
    forall j | 0 <= j < |rows|
      ensures rows[j].id < db.nextHomeId && HasUser(db.users, rows[j].realtorId)
    {
      assert db.homes[j] in db.homes;
    }
    forall g, k | g in rows && k in rows && g.id == k.id
      ensures g == k
    {
      var a :| 0 <= a < |rows| && rows[a] == g;
      var b :| 0 <= b < |rows| && rows[b] == k;
      assert db.homes[a] in db.homes && db.homes[b] in db.homes;
    }
  }

  lemma PatchRowsKeepsImagesValid(db: Db, id: int, d: HomeDto.UpdateHomeDto, userId: Option<nat>)
    requires Valid(db)
    ensures ImagesValid(db.(homes := PatchRows(db.homes, id, d, userId)))
  {
    var rows := PatchRows(db.homes, id, d, userId);
    PatchRowsIds(db.homes, id, d, userId);
    forall im | im in db.images
      ensures HasHome(rows, im.homeId)
    {
      var g :| g in db.homes && g.id == im.homeId;
      var j :| 0 <= j < |db.homes| && db.homes[j] == g;
      assert rows[j] in rows;
    }
  }

  lemma UpdateHomePreservesValid(db: Db, id: int, d: HomeDto.UpdateHomeDto, userId: Option<nat>)
    requires Valid(db)
    ensures Valid(UpdateHome(db, id, d, userId).db)
  {
    var s := UpdateHome(db, id, d, userId);
    if s.result.Ok? {
      assert s.db == db.(homes := PatchRows(db.homes, id, d, userId));
      PatchRowsKeepsHomesValid(db, id, d, userId);
      PatchRowsKeepsImagesValid(db, id, d, userId);
    }
  }

  /** An update that supplies nothing and no user id changes no row. */
  lemma EmptyUpdateKeepsStore(db: Db, id: int)
    requires HasHome(db.homes, id)
    ensures UpdateHome(db, id, HomeDto.UpdateHomeDto(None, None, None, None, None, None, None), None).db == db
  {
    var d := HomeDto.UpdateHomeDto(None, None, None, None, None, None, None);
    assert PatchRows(db.homes, id, d, None) == db.homes;
  }

  // ---------------------------------------------------------------------------
  // deleteHome

  function NotOfHome(homeId: int): Image -> bool {
    (im: Image) => im.homeId != homeId
  }

  function OtherHome(id: int): Home -> bool {
    (h: Home) => h.id != id
  }

  /** `deleteHome(id)`: the home's images are removed first; deleting the
      home itself then fails for an unknown id, after the images are gone. */
  function DeleteHome(db: Db, id: int): (s: Step<()>)
    ensures forall im :: im in s.db.images <==> im in db.images && im.homeId != id
    ensures s.result.Err? <==> !HasHome(db.homes, id)
    ensures s.result.Err? ==> s.result.error == ServerError && s.db.homes == db.homes
    ensures forall h :: h in s.db.homes <==> h in db.homes && h.id != id
    ensures s.db == db.(homes := s.db.homes, images := s.db.images)
  {
    var cleared := db.(images := Filter(db.images, NotOfHome(id)));
    if !HasHome(db.homes, id) then Step(cleared, Err(ServerError))
    else Step(cleared.(homes := Filter(db.homes, OtherHome(id))), Ok(()))
  }

  lemma DeleteHomePreservesValid(db: Db, id: int)
    requires Valid(db)
    ensures Valid(DeleteHome(db, id).db)
  {
    var s := DeleteHome(db, id);
    forall im | im in s.db.images
      ensures HasHome(s.db.homes, im.homeId)
    {
      var g :| g in db.homes && g.id == im.homeId;
      assert g in s.db.homes;
    }
  }

  /** After a delete the home is gone and so are its images. */
  lemma DeleteThenGet(db: Db, id: int)
    ensures GetOneHomeById(DeleteHome(db, id).db, id) == Err(NotFound)
    ensures UrlsOf(DeleteHome(db, id).db.images, id) == []
  {
    var s := DeleteHome(db, id);
    forall i | 0 <= i < |s.db.images|
      ensures s.db.images[i].homeId != id
    {
      assert s.db.images[i] in s.db.images;
    }
    FilterNone(s.db.images, OfHome(id));
  }

  // ---------------------------------------------------------------------------
  // getRealtorByHomeId

  /** The realtor fields the query selects; never the password. */
  datatype Contact = Contact(name: string, id: nat, email: string, phone: string)

  /** `getRealtorByHomeId(id)`: the contact of the home's realtor, or 404. A
      home whose realtor row is missing breaks the relation, which a valid
      store rules out. */
  function GetRealtorByHomeId(db: Db, id: int): (r: Result<Contact>)
    ensures r.Err? && r.error == NotFound <==> !HasHome(db.homes, id)
    ensures r.Err? ==> r.error in {NotFound, ServerError}
    ensures r.Ok? ==>
      exists h, u :: h in db.homes && h.id == id && u in db.users && u.id == h.realtorId
        && r.value == Contact(u.name, u.id, u.email, u.phone)
  {
    match FindHome(db.homes, id)
    case None => Err(NotFound)
    case Some(h) =>
      match FindUserById(db.users, h.realtorId)
      case None => Err(ServerError)
      case Some(u) => Ok(Contact(u.name, u.id, u.email, u.phone))
  }

  lemma RealtorOfValidStore(db: Db, id: int)
    requires Valid(db)
    requires HasHome(db.homes, id)
    ensures GetRealtorByHomeId(db, id).Ok?
  {
    var h := FindHome(db.homes, id).value;
    assert HasUser(db.users, h.realtorId);
  }

  // ---------------------------------------------------------------------------
  // inquire and getMessagesByHomeId

  /** `inquire(buyer, homeId, message)`: 404 and no message for an unknown
      home; otherwise one message to the home's realtor is appended. */
  function Inquire(db: Db, buyerId: nat, homeId: int, message: string): (s: Step<Message>)
    ensures s.result.Err? <==> !HasHome(db.homes, homeId)
    ensures s.result.Err? ==> s.result.error == NotFound && s.db == db
    ensures s.result.Ok? ==>
      var m := s.result.value;
      && s.db == db.(messages := db.messages + [m], nextMessageId := db.nextMessageId + 1)
      && m.id == db.nextMessageId
      && m.buyerId == buyerId && m.homeId == homeId && m.message == message
      && exists h :: h in db.homes && h.id == homeId && h.realtorId == m.realtorId
  {
    match FindHome(db.homes, homeId)
    case None => Step(db, Err(NotFound))
    case Some(h) =>
      var m := Message(db.nextMessageId, message, buyerId, h.realtorId, h.id);
      Step(db.(messages := db.messages + [m], nextMessageId := db.nextMessageId + 1), Ok(m))
  }

  lemma InquirePreservesValid(db: Db, buyerId: nat, homeId: int, message: string)
    requires Valid(db)
    ensures Valid(Inquire(db, buyerId, homeId, message).db)
  {
  }

  function AboutHome(homeId: int): Message -> bool {
    (m: Message) => m.homeId == homeId
  }

  /** `getMessagesByHomeId(homeId)`: the messages about the home, in the
      order they were sent. */
  function GetMessagesByHomeId(db: Db, homeId: int): (r: seq<Message>)
    ensures forall m :: m in r <==> m in db.messages && m.homeId == homeId
  {
    Filter(db.messages, AboutHome(homeId))
  }

  /** An inquiry is listed last among the messages of its home. */
  lemma InquireThenMessages(db: Db, buyerId: nat, homeId: int, message: string)
    requires HasHome(db.homes, homeId)
    ensures
      var s := Inquire(db, buyerId, homeId, message);
      GetMessagesByHomeId(s.db, homeId) == GetMessagesByHomeId(db, homeId) + [s.result.value]
  {
    var s := Inquire(db, buyerId, homeId, message);
    FilterAppend(db.messages, [s.result.value], AboutHome(homeId));
  }
}

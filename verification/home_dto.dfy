/** The request DTOs of the home routes, validated as the global validation
    pipe does and decoded into typed payloads, and the serialized shape of
    `HomeResponseDto`. */
module HomeDto {
  import opened Results
  import opened Json
  import opened Validation
  import opened Schema

  // ---------------------------------------------------------------------------
  // Image

  /** `Image`: an object whose `url` is `@IsString() @IsNotEmpty()`. */
  predicate ValidImage(v: Value) {
    v.Object? && NonEmptyString(Get(v.fields, "url"))
  }

  /** `@IsArray() @ValidateNested({ each: true }) @Type(() => Image)`: an
      array whose every element is an object that passes `Image`. */
  predicate ValidImages(p: Property) {
    IsArray(p) && forall i :: 0 <= i < |p.value.items| ==> ValidImage(p.value.items[i])
  }

  function ImageObject(url: string): Value {
    Object(map["url" := Str(url)])
  }

  /** `v` is an image object whose `url` is `url`. */
  predicate HasUrl(v: Value, url: string) {
    v.Object? && Get(v.fields, "url") == Some(Str(url))
  }

  function ImageUrls(items: seq<Value>): (urls: seq<string>)
    requires forall i :: 0 <= i < |items| ==> ValidImage(items[i])
    ensures |urls| == |items|
    ensures forall i :: 0 <= i < |items| ==> HasUrl(items[i], urls[i])
  {
    seq(|items|, i requires 0 <= i < |items| && ValidImage(items[i]) => StringOf(Get(items[i].fields, "url")))
  }

  // ---------------------------------------------------------------------------
  // CreateHomeResponseDto (the create payload)

  /** A validated create payload; `images` holds the `url` of each image. */
  datatype CreateHomeDto = CreateHomeDto(
    address: string,
    numberOfBedrooms: real,
    numberOfBathrooms: real,
    city: string,
    price: real,
    landSize: real,
    propertyType: PropertyType,
    images: seq<string>)

  predicate ValidCreateHome(body: Body) {
    && NonEmptyString(Get(body, "address"))
    && PositiveNumber(Get(body, "numberOfBedrooms"))
    && PositiveNumber(Get(body, "numberOfBathrooms"))
    && NonEmptyString(Get(body, "city"))
    && PositiveNumber(Get(body, "price"))
    && PositiveNumber(Get(body, "landSize"))
    && IsEnum(Get(body, "propertyType"), PropertyTypeNames)
    && ValidImages(Get(body, "images"))
  }

  /** The constraints of the create payload, stated on the typed record. */
  predicate WellFormedCreate(d: CreateHomeDto) {
    && d.address != ""
    && d.numberOfBedrooms > 0.0
    && d.numberOfBathrooms > 0.0
    && d.city != ""
    && d.price > 0.0
    && d.landSize > 0.0
    && forall i :: 0 <= i < |d.images| ==> d.images[i] != ""
  }

  /** The validation pipe on a create payload: 400 unless every constraint
      holds, and then the typed payload the handler receives. */
  function DecodeCreateHome(body: Body): (r: Result<CreateHomeDto>)
    ensures r.Ok? <==> ValidCreateHome(body)
    ensures r.Err? ==> r.error == BadRequest
    ensures r.Ok? ==> WellFormedCreate(r.value)
    ensures r.Ok? ==>
      && Get(body, "address") == Some(Str(r.value.address))
      && Get(body, "numberOfBedrooms") == Some(Number(r.value.numberOfBedrooms))
      && Get(body, "numberOfBathrooms") == Some(Number(r.value.numberOfBathrooms))
      && Get(body, "city") == Some(Str(r.value.city))
      && Get(body, "price") == Some(Number(r.value.price))
      && Get(body, "landSize") == Some(Number(r.value.landSize))
      && Get(body, "propertyType") == Some(Str(r.value.propertyType.Name()))
    ensures r.Ok? ==>
      var items := body["images"].items;
      && |items| == |r.value.images|
      && forall i :: 0 <= i < |items| ==> HasUrl(items[i], r.value.images[i])
  {
    if !ValidCreateHome(body) then Err(BadRequest)
    else
      var kind := ParsePropertyType(StringOf(Get(body, "propertyType")));
      Ok(CreateHomeDto(
        StringOf(Get(body, "address")),
        NumberOf(Get(body, "numberOfBedrooms")),
        NumberOf(Get(body, "numberOfBathrooms")),
        StringOf(Get(body, "city")),
        NumberOf(Get(body, "price")),
        NumberOf(Get(body, "landSize")),
        kind.value,
        ImageUrls(body["images"].items)))
  }

  /** The JSON a client sends for a create payload. */
  function EncodeCreateHome(d: CreateHomeDto): Body {
    map[
      "address" := Str(d.address),
      "numberOfBedrooms" := Number(d.numberOfBedrooms),
      "numberOfBathrooms" := Number(d.numberOfBathrooms),
      "city" := Str(d.city),
      "price" := Number(d.price),
      "landSize" := Number(d.landSize),
      "propertyType" := Str(d.propertyType.Name()),
      "images" := Array(seq(|d.images|, i requires 0 <= i < |d.images| => ImageObject(d.images[i])))
    ]
  }

  /** The payload a client encodes is accepted exactly when it meets the
      constraints, and then decodes to itself. */
  lemma DecodeEncodeCreateHome(d: CreateHomeDto)
    ensures DecodeCreateHome(EncodeCreateHome(d)) == if WellFormedCreate(d) then Ok(d) else Err(BadRequest)
  {
    var body := EncodeCreateHome(d);
    var items := body["images"].items;
    assert ValidImages(Get(body, "images")) <==> forall i :: 0 <= i < |d.images| ==> d.images[i] != "" by {
      forall i | 0 <= i < |items|
        ensures ValidImage(items[i]) <==> d.images[i] != ""
      {
        assert items[i] == ImageObject(d.images[i]);
      }
    }
    PropertyTypeNameRoundTrip(d.propertyType);
    var r := DecodeCreateHome(body);
    if r.Ok? {
      assert r.value.images == d.images;
    }
  }

  // ---------------------------------------------------------------------------
  // UpdateHomeResponseDto (the update payload)

  /** A validated update payload; `None` for an absent field. The payload's
      `images` are validated but not part of the update. */
  datatype UpdateHomeDto = UpdateHomeDto(
    address: Option<string>,
    numberOfBedrooms: Option<real>,
    numberOfBathrooms: Option<real>,
    city: Option<string>,
    price: Option<real>,
    landSize: Option<real>,
    propertyType: Option<PropertyType>)

  predicate ValidUpdateHome(body: Body) {
    && Optional(Get(body, "address"), NonEmptyString(Get(body, "address")))
    && Optional(Get(body, "numberOfBedrooms"), PositiveNumber(Get(body, "numberOfBedrooms")))
    && Optional(Get(body, "numberOfBathrooms"), PositiveNumber(Get(body, "numberOfBathrooms")))
    && Optional(Get(body, "city"), NonEmptyString(Get(body, "city")))
    && Optional(Get(body, "price"), PositiveNumber(Get(body, "price")))
    && Optional(Get(body, "landSize"), PositiveNumber(Get(body, "landSize")))
    && Optional(Get(body, "propertyType"), IsEnum(Get(body, "propertyType"), PropertyTypeNames))
    && Optional(Get(body, "images"), ValidImages(Get(body, "images")))
  }

  predicate WellFormedUpdate(d: UpdateHomeDto) {
    && (d.address.Some? ==> d.address.value != "")
    && (d.numberOfBedrooms.Some? ==> d.numberOfBedrooms.value > 0.0)
    && (d.numberOfBathrooms.Some? ==> d.numberOfBathrooms.value > 0.0)
    && (d.city.Some? ==> d.city.value != "")
    && (d.price.Some? ==> d.price.value > 0.0)
    && (d.landSize.Some? ==> d.landSize.value > 0.0)
  }

  function OptionalString(p: Property): Option<string>
    requires Optional(p, IsString(p))
  {
    if IsDefined(p) then Some(p.value.s) else None
  }

  function OptionalNumber(p: Property): Option<real>
    requires Optional(p, IsNumber(p))
  {
    if IsDefined(p) then Some(p.value.n) else None
  }

  function StrOf(o: Option<string>): Option<Value> {
    if o.Some? then Some(Str(o.value)) else None
  }

  function NumberOfOption(o: Option<real>): Option<Value> {
    if o.Some? then Some(Number(o.value)) else None
  }

  function KindOf(o: Option<PropertyType>): Option<Value> {
    if o.Some? then Some(Str(o.value.Name())) else None
  }

  /** A defined property carries the decoded value; an undefined or null one
      decodes to `None`. */
  predicate Carries(p: Property, v: Option<Value>) {
    if IsDefined(p) then v == p else v.None?
  }

  /** The validation pipe on an update payload: 400 unless every present
      field meets its constraint; otherwise the fields that were given. */
  function DecodeUpdateHome(body: Body): (r: Result<UpdateHomeDto>)
    ensures r.Ok? <==> ValidUpdateHome(body)
    ensures r.Err? ==> r.error == BadRequest
    ensures r.Ok? ==> WellFormedUpdate(r.value)
    ensures r.Ok? ==>
      && Carries(Get(body, "address"), StrOf(r.value.address))
      && Carries(Get(body, "numberOfBedrooms"), NumberOfOption(r.value.numberOfBedrooms))
      && Carries(Get(body, "numberOfBathrooms"), NumberOfOption(r.value.numberOfBathrooms))
      && Carries(Get(body, "city"), StrOf(r.value.city))
      && Carries(Get(body, "price"), NumberOfOption(r.value.price))
      && Carries(Get(body, "landSize"), NumberOfOption(r.value.landSize))
      && Carries(Get(body, "propertyType"), KindOf(r.value.propertyType))
  {
    if !ValidUpdateHome(body) then Err(BadRequest)
    else
      var kind :=
        if IsDefined(Get(body, "propertyType"))
        then ParsePropertyType(StringOf(Get(body, "propertyType")))
        else None;
      Ok(UpdateHomeDto(
        OptionalString(Get(body, "address")),
        OptionalNumber(Get(body, "numberOfBedrooms")),
        OptionalNumber(Get(body, "numberOfBathrooms")),
        OptionalString(Get(body, "city")),
        OptionalNumber(Get(body, "price")),
        OptionalNumber(Get(body, "landSize")),
        kind))
  }

  function Put(m: Body, key: string, v: Option<Value>): Body {
    if v.Some? then m[key := v.value] else m
  }

  /** The JSON a client sends for an update payload: only the given fields. */
  function EncodeUpdateHome(d: UpdateHomeDto): Body {
    var m := Put(map[], "address", StrOf(d.address));
    var m := Put(m, "numberOfBedrooms", NumberOfOption(d.numberOfBedrooms));
    var m := Put(m, "numberOfBathrooms", NumberOfOption(d.numberOfBathrooms));
    var m := Put(m, "city", StrOf(d.city));
    var m := Put(m, "price", NumberOfOption(d.price));
    var m := Put(m, "landSize", NumberOfOption(d.landSize));
    Put(m, "propertyType", KindOf(d.propertyType))
  }

  lemma EncodeUpdateHomeFields(d: UpdateHomeDto)
    ensures Get(EncodeUpdateHome(d), "address") == StrOf(d.address)
    ensures Get(EncodeUpdateHome(d), "numberOfBedrooms") == NumberOfOption(d.numberOfBedrooms)
    ensures Get(EncodeUpdateHome(d), "numberOfBathrooms") == NumberOfOption(d.numberOfBathrooms)
    ensures Get(EncodeUpdateHome(d), "city") == StrOf(d.city)
    ensures Get(EncodeUpdateHome(d), "price") == NumberOfOption(d.price)
    ensures Get(EncodeUpdateHome(d), "landSize") == NumberOfOption(d.landSize)
    ensures Get(EncodeUpdateHome(d), "propertyType") == KindOf(d.propertyType)
    ensures Get(EncodeUpdateHome(d), "images") == None
  {
    EncodeUpdateHomeText(d);
    EncodeUpdateHomeSizes(d);
  }

  lemma EncodeUpdateHomeText(d: UpdateHomeDto)
    ensures Get(EncodeUpdateHome(d), "address") == StrOf(d.address)
    ensures Get(EncodeUpdateHome(d), "city") == StrOf(d.city)
    ensures Get(EncodeUpdateHome(d), "propertyType") == KindOf(d.propertyType)
    ensures Get(EncodeUpdateHome(d), "images") == None
  {
  }

  lemma EncodeUpdateHomeSizes(d: UpdateHomeDto)
    ensures Get(EncodeUpdateHome(d), "numberOfBedrooms") == NumberOfOption(d.numberOfBedrooms)
    ensures Get(EncodeUpdateHome(d), "numberOfBathrooms") == NumberOfOption(d.numberOfBathrooms)
    ensures Get(EncodeUpdateHome(d), "price") == NumberOfOption(d.price)
    ensures Get(EncodeUpdateHome(d), "landSize") == NumberOfOption(d.landSize)
  {
  }

  lemma TextCarried(o: Option<string>, r: Option<string>)
    requires Carries(StrOf(o), StrOf(r))
    ensures r == o
  {
  }

  lemma NumberCarried(o: Option<real>, r: Option<real>)
    requires Carries(NumberOfOption(o), NumberOfOption(r))
    ensures r == o
  {
  }

  lemma KindCarried(o: Option<PropertyType>, r: Option<PropertyType>)
    requires Carries(KindOf(o), KindOf(r))
    ensures r == o
  {
    if o.Some? && r.Some? {
      PropertyTypeNameRoundTrip(o.value);
      PropertyTypeNameRoundTrip(r.value);
    }
  }

  /** The encoding of a payload passes validation exactly when the payload
      is well formed. */
  lemma EncodedUpdateValid(d: UpdateHomeDto)
    ensures ValidUpdateHome(EncodeUpdateHome(d)) <==> WellFormedUpdate(d)
  {
    EncodeUpdateHomeFields(d);
    if d.propertyType.Some? {
      PropertyTypeNameRoundTrip(d.propertyType.value);
    }
  }

  lemma DecodeEncodeUpdateHome(d: UpdateHomeDto)
    ensures DecodeUpdateHome(EncodeUpdateHome(d)) == if WellFormedUpdate(d) then Ok(d) else Err(BadRequest)
  {
    var body := EncodeUpdateHome(d);
    EncodedUpdateValid(d);
    if WellFormedUpdate(d) {
      EncodeUpdateHomeFields(d);
      var r := DecodeUpdateHome(body).value;
      TextCarried(d.address, r.address);
      NumberCarried(d.numberOfBedrooms, r.numberOfBedrooms);
      NumberCarried(d.numberOfBathrooms, r.numberOfBathrooms);
      TextCarried(d.city, r.city);
      NumberCarried(d.price, r.price);
      NumberCarried(d.landSize, r.landSize);
      KindCarried(d.propertyType, r.propertyType);
    }
  }

  /** Every update field is optional: an empty payload is accepted and
      changes nothing. */
  lemma EmptyUpdateAccepted()
    ensures DecodeUpdateHome(map[]) == Ok(UpdateHomeDto(None, None, None, None, None, None, None))
  {
  }

  // ---------------------------------------------------------------------------
  // InquireDto

  predicate ValidInquire(body: Body) {
    NonEmptyString(Get(body, "message"))
  }

  /** The validation pipe on an inquiry: the message, which must be a
      non-empty string. */
  function DecodeInquire(body: Body): (r: Result<string>)
    ensures r.Ok? <==> ValidInquire(body)
    ensures r.Err? ==> r.error == BadRequest
    ensures r.Ok? ==> r.value != "" && Get(body, "message") == Some(Str(r.value))
  {
    if ValidInquire(body) then Ok(StringOf(Get(body, "message"))) else Err(BadRequest)
  }

  // ---------------------------------------------------------------------------
  // HomeResponseDto

  /** Properties `HomeResponseDto` hides with `@Exclude()`. */
  const ExcludedColumns: set<string> :=
    {"number_of_bedrooms", "number_of_bathrooms", "created_at", "updated_at", "realtor_id"}

  /** Names of its `@Expose` accessors for the bedroom and bathroom counts. */
  const ExposedNames: set<string> := {"numberOfBedrooms", "numberOfBathrooms"}

  /** The JSON the class serializer produces for a `HomeResponseDto` built
      from `row`: excluded columns dropped, the two counts renamed, every other
      property passed through. An accessor whose column is undefined yields
      undefined, which JSON drops. */
  function HomeResponse(row: Body): (out: Body)
    ensures forall k :: k in out ==> k !in ExcludedColumns
    ensures forall k :: k in out && k !in ExposedNames ==> k in row && out[k] == row[k]
    ensures forall k :: k in row && k !in ExcludedColumns && k !in ExposedNames ==> k in out
    ensures "numberOfBedrooms" in out <==> "number_of_bedrooms" in row
    ensures "numberOfBedrooms" in out ==> out["numberOfBedrooms"] == row["number_of_bedrooms"]
    ensures "numberOfBathrooms" in out <==> "number_of_bathrooms" in row
    ensures "numberOfBathrooms" in out ==> out["numberOfBathrooms"] == row["number_of_bathrooms"]
  {
    var kept := map k | k in row && k !in ExcludedColumns && k !in ExposedNames :: row[k];
    var withBedrooms :=
      if "number_of_bedrooms" in row then kept["numberOfBedrooms" := row["number_of_bedrooms"]] else kept;
    if "number_of_bathrooms" in row then withBedrooms["numberOfBathrooms" := row["number_of_bathrooms"]]
    else withBedrooms
  }

  /** The keys of the serialized DTO, as a set computation on the row's keys. */
  lemma HomeResponseKeys(row: Body)
    ensures HomeResponse(row).Keys
         == (row.Keys - ExcludedColumns - ExposedNames)
          + (if "number_of_bedrooms" in row then {"numberOfBedrooms"} else {})
          + (if "number_of_bathrooms" in row then {"numberOfBathrooms"} else {})
  {
  }
}

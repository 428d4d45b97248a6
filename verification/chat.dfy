/**
 * The `GET /users` endpoint of `agents-hack/app/api/routers/chat.py`: the
 * first page of the vector-store collection becomes a list of `User` records,
 * with a default for every missing payload key. The store is a parameter: the
 * points it holds in scroll order, or the error a call to it raises.
 */
module Chat {
  import opened Wrappers

  /** A payload value as the store returns it. */
  datatype Json = JStr(s: string) | JNum(n: real) | JBool(b: bool) | JList(items: seq<Json>) | JNull

  datatype Point = Point(id: string, payload: map<string, Json>)

  datatype Coordinates = Coordinates(latitude: real, longitude: real)

  datatype User = User(
    id: string,
    name: string,
    email: string,
    location: string,
    coordinates: Option<Coordinates>,
    xAccount: string,
    linkedinUrl: string,
    highlights: Option<seq<string>>,
    summary: Option<string>,
    profileImageUrl: Option<string>,
    anonymous: bool,
    skills: Option<seq<string>>,
    interests: Option<seq<string>>)

  datatype UsersResponse = UsersResponse(users: seq<User>, total: int, message: Option<string>)

  datatype HttpError = HttpError(statusCode: int, detail: string)

  const PageLimit: nat := 1000
  const InternalServerError: int := 500
  const ErrorPrefix: string := "Error fetching users: "

  /** `payload.get(key, default)`. */
  function Get(payload: map<string, Json>, key: string, default: Json): (v: Json)
    ensures key in payload ==> v == payload[key]
    ensures key !in payload ==> v == default
  {
    if key in payload then payload[key] else default
  }

  /** The error text of a field the `User` model refuses. */
  function Invalid(field: string): string
  {
    "validation error for User: " + field
  }

  /** A `str` field: only a string is accepted. */
  function AsText(v: Json, field: string): (r: Result<string, string>)
    ensures r.Ok? <==> v.JStr?
    ensures r.Ok? ==> r.value == v.s
  {
    if v.JStr? then Ok(v.s) else Err(Invalid(field))
  }

  /** An `Optional[str]` field: a string or null. */
  function AsOptText(v: Json, field: string): (r: Result<Option<string>, string>)
    ensures r.Ok? <==> v.JStr? || v.JNull?
    ensures r == Ok(None) <==> v.JNull?
  {
    match v
    case JStr(s) => Ok(Some(s))
    case JNull => Ok(None)
    case _ => Err(Invalid(field))
  }

  /** A `float` field: only a number is accepted. */
  function AsReal(v: Json, field: string): (r: Result<real, string>)
    ensures r.Ok? <==> v.JNum?
  {
    if v.JNum? then Ok(v.n) else Err(Invalid(field))
  }

  function AsBool(v: Json, field: string): (r: Result<bool, string>)
    ensures r.Ok? <==> v.JBool?
  {
    if v.JBool? then Ok(v.b) else Err(Invalid(field))
  }

  predicate AllText(items: seq<Json>)
  {
    forall k :: 0 <= k < |items| ==> items[k].JStr?
  }

  /** An `Optional[List[str]]` field: null or a list of strings. */
  function AsOptTextList(v: Json, field: string): (r: Result<Option<seq<string>>, string>)
    ensures r.Ok? <==> v.JNull? || (v.JList? && AllText(v.items))
    ensures r.Ok? && v.JList? ==> r.value.Some? && |r.value.value| == |v.items|
  {
    match v
    case JNull => Ok(None)
    case JList(items) =>
      if AllText(items) then Ok(Some(seq(|items|, k requires 0 <= k < |items| && AllText(items) => items[k].s)))
      else Err(Invalid(field))
    case _ => Err(Invalid(field))
  }

  /** A `str` field read with default "". */
  function ReadText(pl: map<string, Json>, key: string): Result<string, string>
  {
    AsText(Get(pl, key, JStr("")), key)
  }

  /** A `float` field read with default 0.0. */
  function ReadReal(pl: map<string, Json>, key: string): Result<real, string>
  {
    AsReal(Get(pl, key, JNum(0.0)), key)
  }

  /** A `bool` field read with default `false`. */
  function ReadBool(pl: map<string, Json>, key: string): Result<bool, string>
  {
    AsBool(Get(pl, key, JBool(false)), key)
  }

  /** An `Optional[str]` field read with the given default. */
  function ReadOptText(pl: map<string, Json>, key: string, default: Json): Result<Option<string>, string>
  {
    AsOptText(Get(pl, key, default), key)
  }

  /** An `Optional[List[str]]` field read with default []. */
  function ReadList(pl: map<string, Json>, key: string): Result<Option<seq<string>>, string>
  {
    AsOptTextList(Get(pl, key, JList([])), key)
  }

  /**
   * One loop iteration: the `User` built from a point. Missing strings default
   * to "", missing lists to [], a missing flag to false, a missing latitude or
   * longitude to 0.0, and a missing image URL to null; the coordinates are
   * always present. Any refused field makes the whole record fail. The model
   * reads the fields in declaration order and reports the first refusal only;
   * pydantic checks the coordinates first and reports every failing field, so
   * only the error text differs, never whether the record is accepted.
   */
  function UserFromPoint(p: Point): (r: Result<User, string>)
    ensures r.Ok? ==> r.value.id == p.id && r.value.coordinates.Some?
  {
    var pl := p.payload;
    var name :- ReadText(pl, "name");
    var email :- ReadText(pl, "email");
    var location :- ReadText(pl, "location");
    var latitude :- ReadReal(pl, "latitude");
    var longitude :- ReadReal(pl, "longitude");
    var xAccount :- ReadText(pl, "x_account");
    var linkedinUrl :- ReadText(pl, "linkedin_url");
    var highlights :- ReadList(pl, "highlights");
    var summary :- ReadOptText(pl, "summary", JStr(""));
    var profileImageUrl :- ReadOptText(pl, "profile_image_url", JNull);
    var anonymous :- ReadBool(pl, "anonymous");
    var skills :- ReadList(pl, "skills");
    var interests :- ReadList(pl, "interests");
    Ok(User(p.id, name, email, location, Some(Coordinates(latitude, longitude)), xAccount, linkedinUrl,
            highlights, summary, profileImageUrl, anonymous, skills, interests))
  }

  /** A point with an empty payload gets every default. */
  lemma EmptyPayloadDefaults(id: string)
    ensures UserFromPoint(Point(id, map[])) ==
      Ok(User(id, "", "", "", Some(Coordinates(0.0, 0.0)), "", "", Some([]), Some(""), None, false, Some([]), Some([])))
  {
  }

  /** The JSON form of an optional string: the string, or null. */
  function OptTextJson(o: Option<string>): Json
  {
    if o.Some? then JStr(o.value) else JNull
  }

  /** The JSON form of an optional list of strings. */
  function OptListJson(o: Option<seq<string>>): Json
  {
    if o.Some? then JList(seq(|o.value|, k requires 0 <= k < |o.value| => JStr(o.value[k]))) else JNull
  }

  /** A present key holds a value of the given JSON kind. */
  predicate TextOk(pl: map<string, Json>, key: string) { key !in pl || pl[key].JStr? }
  predicate RealOk(pl: map<string, Json>, key: string) { key !in pl || pl[key].JNum? }
  predicate BoolOk(pl: map<string, Json>, key: string) { key !in pl || pl[key].JBool? }
  predicate OptTextOk(pl: map<string, Json>, key: string) { key !in pl || pl[key].JStr? || pl[key].JNull? }
  predicate ListOk(pl: map<string, Json>, key: string)
  {
    key !in pl || pl[key].JNull? || (pl[key].JList? && AllText(pl[key].items))
  }

  /** Every present key holds a value the `User` model accepts. */
  predicate WellTyped(pl: map<string, Json>)
  {
    TextOk(pl, "name") && TextOk(pl, "email") && TextOk(pl, "location") &&
    RealOk(pl, "latitude") && RealOk(pl, "longitude") &&
    TextOk(pl, "x_account") && TextOk(pl, "linkedin_url") &&
    ListOk(pl, "highlights") && OptTextOk(pl, "summary") && OptTextOk(pl, "profile_image_url") &&
    BoolOk(pl, "anonymous") && ListOk(pl, "skills") && ListOk(pl, "interests")
  }

  /** The field holds the present key's JSON value, or `default` when the key is absent. */
  predicate Holds(pl: map<string, Json>, key: string, json: Json, default: Json)
  {
    if key in pl then pl[key] == json else json == default
  }

  /**
   * `u` is what the payload says, key by key: a present key holds the field's
   * JSON form, an absent key leaves the field at its default.
   */
  predicate Describes(pl: map<string, Json>, u: User)
  {
    u.coordinates.Some? &&
    Holds(pl, "name", JStr(u.name), JStr("")) &&
    Holds(pl, "email", JStr(u.email), JStr("")) &&
    Holds(pl, "location", JStr(u.location), JStr("")) &&
    Holds(pl, "latitude", JNum(u.coordinates.value.latitude), JNum(0.0)) &&
    Holds(pl, "longitude", JNum(u.coordinates.value.longitude), JNum(0.0)) &&
    Holds(pl, "x_account", JStr(u.xAccount), JStr("")) &&
    Holds(pl, "linkedin_url", JStr(u.linkedinUrl), JStr("")) &&
    Holds(pl, "highlights", OptListJson(u.highlights), JList([])) &&
    Holds(pl, "summary", OptTextJson(u.summary), JStr("")) &&
    Holds(pl, "profile_image_url", OptTextJson(u.profileImageUrl), JNull) &&
    Holds(pl, "anonymous", JBool(u.anonymous), JBool(false)) &&
    Holds(pl, "skills", OptListJson(u.skills), JList([])) &&
    Holds(pl, "interests", OptListJson(u.interests), JList([]))
  }

  lemma ReadTextSpec(pl: map<string, Json>, key: string)
    ensures ReadText(pl, key).Ok? <==> TextOk(pl, key)
    ensures ReadText(pl, key).Ok? ==> Holds(pl, key, JStr(ReadText(pl, key).value), JStr(""))
  {
  }

  lemma ReadRealSpec(pl: map<string, Json>, key: string)
    ensures ReadReal(pl, key).Ok? <==> RealOk(pl, key)
    ensures ReadReal(pl, key).Ok? ==> Holds(pl, key, JNum(ReadReal(pl, key).value), JNum(0.0))
  {
  }

  lemma ReadBoolSpec(pl: map<string, Json>, key: string)
    ensures ReadBool(pl, key).Ok? <==> BoolOk(pl, key)
    ensures ReadBool(pl, key).Ok? ==> Holds(pl, key, JBool(ReadBool(pl, key).value), JBool(false))
  {
  }

  lemma ReadOptTextSpec(pl: map<string, Json>, key: string, default: Json)
    requires default.JStr? || default.JNull?
    ensures ReadOptText(pl, key, default).Ok? <==> OptTextOk(pl, key)
    ensures ReadOptText(pl, key, default).Ok? ==> Holds(pl, key, OptTextJson(ReadOptText(pl, key, default).value), default)
  {
  }

  /** Reading a list of strings and writing it back gives the same JSON. */
  lemma ReadListSpec(pl: map<string, Json>, key: string)
    ensures ReadList(pl, key).Ok? <==> ListOk(pl, key)
    ensures ReadList(pl, key).Ok? ==> Holds(pl, key, OptListJson(ReadList(pl, key).value), JList([]))
  {
    var v := Get(pl, key, JList([]));
    if ReadList(pl, key).Ok? && v.JList? {
      var xs := ReadList(pl, key).value.value;
      assert |xs| == |v.items|;
      assert forall k :: 0 <= k < |xs| ==> JStr(xs[k]) == v.items[k];
      assert OptListJson(ReadList(pl, key).value) == v;
    }
  }

  /** The record is built exactly when every field reads. */
  lemma UserFromPointOk(p: Point)
    ensures var pl := p.payload;
      UserFromPoint(p).Ok? <==>
        ReadText(pl, "name").Ok? && ReadText(pl, "email").Ok? && ReadText(pl, "location").Ok? &&
        ReadReal(pl, "latitude").Ok? && ReadReal(pl, "longitude").Ok? &&
        ReadText(pl, "x_account").Ok? && ReadText(pl, "linkedin_url").Ok? &&
        ReadList(pl, "highlights").Ok? && ReadOptText(pl, "summary", JStr("")).Ok? &&
        ReadOptText(pl, "profile_image_url", JNull).Ok? && ReadBool(pl, "anonymous").Ok? &&
        ReadList(pl, "skills").Ok? && ReadList(pl, "interests").Ok?
  {
  }

  /** A built record holds the value read for each field. */
  lemma UserFromPointValue(p: Point)
    requires UserFromPoint(p).Ok?
    ensures var pl := p.payload;
      UserFromPoint(p).value == User(p.id, ReadText(pl, "name").value, ReadText(pl, "email").value,
        ReadText(pl, "location").value,
        Some(Coordinates(ReadReal(pl, "latitude").value, ReadReal(pl, "longitude").value)),
        ReadText(pl, "x_account").value, ReadText(pl, "linkedin_url").value, ReadList(pl, "highlights").value,
        ReadOptText(pl, "summary", JStr("")).value, ReadOptText(pl, "profile_image_url", JNull).value,
        ReadBool(pl, "anonymous").value, ReadList(pl, "skills").value, ReadList(pl, "interests").value)
  {
    UserFromPointOk(p);
  }

  /**
   * A point becomes a `User` exactly when every present key is well typed, and
   * then every present value is copied and every absent key gets its default.
   */
  lemma UserFromPointSpec(p: Point)
    ensures UserFromPoint(p).Ok? <==> WellTyped(p.payload)
    ensures UserFromPoint(p).Ok? ==> UserFromPoint(p).value.id == p.id && Describes(p.payload, UserFromPoint(p).value)
  {
    var pl := p.payload;
    UserFromPointOk(p);
    ReadTextSpec(pl, "name");
    ReadTextSpec(pl, "email");
    ReadTextSpec(pl, "location");
    ReadRealSpec(pl, "latitude");
    ReadRealSpec(pl, "longitude");
    ReadTextSpec(pl, "x_account");
    ReadTextSpec(pl, "linkedin_url");
    ReadListSpec(pl, "highlights");
    ReadOptTextSpec(pl, "summary", JStr(""));
    ReadOptTextSpec(pl, "profile_image_url", JNull);
    ReadBoolSpec(pl, "anonymous");
    ReadListSpec(pl, "skills");
    ReadListSpec(pl, "interests");
    if UserFromPoint(p).Ok? {
      UserFromPointValue(p);
    }
  }

  /** A null name is refused: only the optional fields accept null. */
  lemma NullNameRefused(p: Point)
    requires "name" in p.payload && p.payload["name"] == JNull
    ensures UserFromPoint(p).Err?
  {
  }

  /** `scroll(limit=1000)`: the first page of the collection. */
  function FirstPage(points: seq<Point>): (page: seq<Point>)
    ensures |page| <= PageLimit && |page| <= |points| && page == points[..|page|]
    ensures |points| <= PageLimit ==> page == points
  {
    if |points| <= PageLimit then points else points[..PageLimit]
  }

  /**
   * `get_users`: one `User` per point of the first page, in scroll order, with
   * `total` their number and no message; any exception, from the store or from
   * building a record, becomes a 500 error whose detail names it.
   */
  method GetUsers(store: Result<seq<Point>, string>) returns (r: Result<UsersResponse, HttpError>)
    ensures r.Ok? <==> store.Ok? && forall i :: 0 <= i < |FirstPage(store.value)| ==> UserFromPoint(FirstPage(store.value)[i]).Ok?
    ensures r.Ok? ==> (var page := FirstPage(store.value);
      |r.value.users| == |page| && r.value.total == |r.value.users| && r.value.message == None &&
      forall i :: 0 <= i < |page| ==> r.value.users[i] == UserFromPoint(page[i]).value)
    ensures r.Err? ==> r.error.statusCode == InternalServerError && IsErrorDetail(r.error.detail)
    ensures store.Err? ==> r == Err(HttpError(InternalServerError, ErrorPrefix + store.error))
  {
    if store.Err? {
      return Err(HttpError(InternalServerError, ErrorPrefix + store.error));
    }
    var page := FirstPage(store.value);
    var users: seq<User> := [];
    var i := 0;
    while i < |page|
      invariant 0 <= i <= |page| && |users| == i
      invariant forall j :: 0 <= j < i ==> UserFromPoint(page[j]).Ok? && users[j] == UserFromPoint(page[j]).value
    {
      var user := UserFromPoint(page[i]);
      if user.Err? {
        return Err(HttpError(InternalServerError, ErrorPrefix + user.error));
      }
      users := users + [user.value];
      i := i + 1;
    }
    return Ok(UsersResponse(users, |users|, None));
  }

  predicate IsErrorDetail(detail: string)
  {
    |ErrorPrefix| <= |detail| && detail[..|ErrorPrefix|] == ErrorPrefix
  }
}

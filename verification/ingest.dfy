/**
 * The participant ingestion script `backend/ingest.py`: CSV rows become
 * `UserProfile`s, each profile is located and enriched, and each becomes a
 * vector-store document. The geocoder, the LinkedIn scraper and the language
 * model are parameters (`Services`); a call that raises gives `Err`.
 */
module Ingest {
  import opened Wrappers
  import opened Text

  datatype LatLng = LatLng(lat: real, lng: real)

  /** The participant record the script fills in step by step. */
  datatype UserProfile = UserProfile(
    name: string,
    email: string,
    location: string,
    xAccount: string,
    linkedinUrl: string,
    anonymous: bool,
    coordinates: Option<LatLng>,
    summary: Option<string>,
    highlights: Option<seq<string>>,
    skills: Option<seq<string>>,
    interests: Option<seq<string>>,
    profileImageUrl: Option<string>)

  /** The five fields a CSV row provides; everything else is still unset. */
  predicate FromCsv(u: UserProfile)
  {
    u.coordinates.None? && u.summary.None? && u.highlights.None? && u.skills.None? &&
    u.interests.None? && u.profileImageUrl.None?
  }

  /** Reading a column the CSV does not have raises `KeyError`. */
  datatype LoadError = MissingColumn(column: string)

  /** One CSV row, after `fillna('')`: column name to cell text. */
  type Row = map<string, string>

  /**
   * One loop iteration of `load_users`: the cells are read in the order
   * name, email, location, x, Linkedin; each is stripped, and the participant
   * is anonymous when both the stripped Linkedin and x cells are empty.
   */
  function RowToProfile(row: Row): (r: Result<UserProfile, LoadError>)
    ensures r.Err? <==> !("name" in row && "email" in row && "location" in row && "x" in row && "Linkedin" in row)
    ensures r.Ok? ==> (FromCsv(r.value) &&
      r.value.name == Strip(row["name"]) && r.value.email == Strip(row["email"]) &&
      r.value.location == Strip(row["location"]) && r.value.xAccount == Strip(row["x"]) &&
      r.value.linkedinUrl == Strip(row["Linkedin"]))
  {
    if "name" !in row then Err(MissingColumn("name"))
    else if "email" !in row then Err(MissingColumn("email"))
    else if "location" !in row then Err(MissingColumn("location"))
    else if "x" !in row then Err(MissingColumn("x"))
    else if "Linkedin" !in row then Err(MissingColumn("Linkedin"))
    else
      var linkedin := Strip(row["Linkedin"]);
      var x := Strip(row["x"]);
      Ok(UserProfile(Strip(row["name"]), Strip(row["email"]), Strip(row["location"]), x, linkedin,
                     !(linkedin != "" || x != ""), None, None, None, None, None, None))
  }

  /** A participant is anonymous exactly when both the Linkedin and the x cells are blank. */
  lemma AnonymousIff(row: Row)
    requires RowToProfile(row).Ok?
    ensures RowToProfile(row).value.anonymous <==>
      (forall k :: 0 <= k < |row["Linkedin"]| ==> IsSpace(row["Linkedin"][k])) &&
      (forall k :: 0 <= k < |row["x"]| ==> IsSpace(row["x"][k]))
  {
    StripEmptyIff(row["Linkedin"]);
    StripEmptyIff(row["x"]);
  }

  /** Every text field of a loaded profile has no whitespace at either end. */
  predicate Trimmed(f: string)
  {
    f == [] || (!IsSpace(f[0]) && !IsSpace(f[|f| - 1]))
  }

  lemma LoadedFieldsStripped(row: Row)
    requires RowToProfile(row).Ok?
    ensures var u := RowToProfile(row).value;
      Trimmed(u.name) && Trimmed(u.email) && Trimmed(u.location) && Trimmed(u.xAccount) && Trimmed(u.linkedinUrl)
  {
    StripSpec(row["name"]);
    StripSpec(row["email"]);
    StripSpec(row["location"]);
    StripSpec(row["x"]);
    StripSpec(row["Linkedin"]);
  }

  /**
   * A loop that stops at the first failing step: all the values in order, or
   * the first error.
   */
  function Collect<T, E>(rs: seq<Result<T, E>>): (r: Result<seq<T>, E>)
    ensures r.Ok? ==> |r.value| == |rs|
  {
    if |rs| == 0 then Ok([])
    else
      match Collect(rs[..|rs| - 1])
      case Err(e) => Err(e)
      case Ok(values) =>
        match rs[|rs| - 1]
        case Err(e) => Err(e)
        case Ok(v) => Ok(values + [v])
  }

  /** Collecting succeeds exactly when every step does, keeping every value in order. */
  lemma {:induction false} CollectOk<T, E>(rs: seq<Result<T, E>>)
    ensures Collect(rs).Ok? <==> forall i :: 0 <= i < |rs| ==> rs[i].Ok?
    ensures Collect(rs).Ok? ==> forall i :: 0 <= i < |rs| ==> Collect(rs).value[i] == rs[i].value
  {
    if |rs| > 0 {
      var init := rs[..|rs| - 1];
      CollectOk(init);
      assert forall i :: 0 <= i < |init| ==> init[i] == rs[i];
    }
  }

  /** A failed collection reports the error of the first failing step. */
  lemma {:induction false} CollectErr<T, E>(rs: seq<Result<T, E>>)
    requires Collect(rs).Err?
    ensures exists i :: (0 <= i < |rs| && rs[i] == Err(Collect(rs).error) &&
      forall j :: 0 <= j < i ==> rs[j].Ok?)
  {
    var init := rs[..|rs| - 1];
    assert forall i :: 0 <= i < |init| ==> init[i] == rs[i];
    if Collect(init).Err? {
      CollectErr(init);
      var i :| 0 <= i < |init| && init[i] == Err(Collect(init).error) &&
        forall j :: 0 <= j < i ==> init[j].Ok?;
      assert rs[i] == Err(Collect(rs).error);
    } else {
      CollectOk(init);
      assert rs[|rs| - 1] == Err(Collect(rs).error);
    }
  }

  /** Once a prefix fails, the whole collection fails with the same error. */
  lemma {:induction false} CollectPrefixErr<T, E>(rs: seq<Result<T, E>>, n: nat)
    requires n <= |rs| && Collect(rs[..n]).Err?
    ensures Collect(rs) == Collect(rs[..n])
    decreases |rs| - n
  {
    if n < |rs| {
      assert rs[..n + 1][..n] == rs[..n];
      CollectPrefixErr(rs, n + 1);
    } else {
      assert rs[..n] == rs;
    }
  }

  /** One more step of a collection: its value is appended, or its error ends the whole collection. */
  lemma CollectStep<T, E>(rs: seq<Result<T, E>>, i: nat, values: seq<T>)
    requires i < |rs| && Collect(rs[..i]) == Ok(values)
    ensures rs[i].Ok? ==> Collect(rs[..i + 1]) == Ok(values + [rs[i].value])
    ensures rs[i].Err? ==> Collect(rs) == Err(rs[i].error)
  {
    assert rs[..i + 1][..i] == rs[..i];
    if rs[i].Err? {
      CollectPrefixErr(rs, i + 1);
    }
  }

  /** Each row read on its own. */
  function Parsed(rows: seq<Row>): (rs: seq<Result<UserProfile, LoadError>>)
    ensures |rs| == |rows|
  {
    seq(|rows|, i requires 0 <= i < |rows| => RowToProfile(rows[i]))
  }

  /**
   * What `load_users` returns: one profile per row, in row order, when every
   * row has all the columns; otherwise the error of the first row lacking one.
   */
  lemma LoadAllSpec(rows: seq<Row>)
    ensures var r := Collect(Parsed(rows));
      (r.Ok? <==> forall i :: 0 <= i < |rows| ==> RowToProfile(rows[i]).Ok?) &&
      (r.Ok? ==> |r.value| == |rows| && forall i :: 0 <= i < |rows| ==> r.value[i] == RowToProfile(rows[i]).value) &&
      (r.Err? ==> exists i :: (0 <= i < |rows| && RowToProfile(rows[i]) == Err(r.error) &&
         forall j :: 0 <= j < i ==> RowToProfile(rows[j]).Ok?))
  {
    var rs := Parsed(rows);
    assert forall i :: 0 <= i < |rows| ==> rs[i] == RowToProfile(rows[i]);
    CollectOk(rs);
    if Collect(rs).Err? {
      CollectErr(rs);
      var i :| 0 <= i < |rs| && rs[i] == Err(Collect(rs).error) && forall j :: 0 <= j < i ==> rs[j].Ok?;
      assert RowToProfile(rows[i]) == Err(Collect(rs).error);
      assert forall j :: 0 <= j < i ==> RowToProfile(rows[j]).Ok? by {
        assert forall j :: 0 <= j < i ==> rs[j] == RowToProfile(rows[j]);
      }
    }
  }

  /** `load_users`: the loop over the rows, stopping at the first row lacking a column. */
  method LoadUsers(rows: seq<Row>) returns (r: Result<seq<UserProfile>, LoadError>)
    ensures r == Collect(Parsed(rows))
  {
    ghost var rs := Parsed(rows);
    var users: seq<UserProfile> := [];
    var i := 0;
    while i < |rows|
      invariant 0 <= i <= |rows|
      invariant Collect(rs[..i]) == Ok(users)
    {
      var user := RowToProfile(rows[i]);
      CollectStep(rs, i, users);
      if user.Err? {
        return Err(user.error);
      }
      users := users + [user.value];
      i := i + 1;
    }
    assert rs[..i] == rs;
    return Ok(users);
  }

  /** What `get_location_coordinates` returns: latitude, longitude, city, country. */
  datatype Located = Located(lat: Option<real>, lng: Option<real>, city: Option<string>, country: Option<string>)

  const NotLocated: Located := Located(None, None, None, None)

  datatype CountryCenter = CountryCenter(name: string, lat: real, lng: real)

  /** The hard-coded country centres, in the order they are tried. */
  const CountryCenters: seq<CountryCenter> := [
    CountryCenter("Canada", 56.1304, -106.3468),
    CountryCenter("United States", 37.0902, -95.7129),
    CountryCenter("India", 20.5937, 78.9629),
    CountryCenter("United Kingdom", 55.3781, -3.4360)
  ]

  function CenterLocation(c: CountryCenter): Located
  {
    Located(Some(c.lat), Some(c.lng), None, Some(c.name))
  }

  /** The first centre of `table` whose lower-cased name occurs in `locationLower`. */
  function FallbackFrom(table: seq<CountryCenter>, locationLower: string): (l: Located)
    ensures l.city == None
    decreases |table|
  {
    if |table| == 0 then NotLocated
    else if Contains(locationLower, Lower(table[0].name)) then CenterLocation(table[0])
    else FallbackFrom(table[1..], locationLower)
  }

  /** The last resort of `get_location_coordinates`. */
  function Fallback(location: string): Located
  {
    FallbackFrom(CountryCenters, Lower(location))
  }

  lemma {:induction false} FallbackFromFirstMatch(table: seq<CountryCenter>, loc: string)
    ensures var r := FallbackFrom(table, loc);
      (r == NotLocated <==> forall i :: 0 <= i < |table| ==> !Contains(loc, Lower(table[i].name))) &&
      (r != NotLocated ==> (exists i :: (0 <= i < |table| && r == CenterLocation(table[i]) &&
        Contains(loc, Lower(table[i].name)) &&
        forall j :: 0 <= j < i ==> !Contains(loc, Lower(table[j].name)))))
    decreases |table|
  {
    if |table| > 0 && !Contains(loc, Lower(table[0].name)) {
      FallbackFromFirstMatch(table[1..], loc);
      var r := FallbackFrom(table, loc);
      if r != NotLocated {
        var i :| 0 <= i < |table[1..]| && r == CenterLocation(table[1..][i]) &&
          Contains(loc, Lower(table[1..][i].name)) &&
          forall j :: 0 <= j < i ==> !Contains(loc, Lower(table[1..][j].name));
        assert r == CenterLocation(table[i + 1]);
      }
    } else if |table| > 0 {
      assert FallbackFrom(table, loc) == CenterLocation(table[0]);
    }
  }

  /**
   * The fallback gives the first of Canada, United States, India and United
   * Kingdom whose lower-cased name is a substring of the lower-cased location,
   * with no city; when none is, it gives four `None`s.
   */
  lemma FallbackSpec(location: string)
    ensures var r := Fallback(location);
      r.city == None &&
      (r == NotLocated <==> forall i :: 0 <= i < |CountryCenters| ==> !Contains(Lower(location), Lower(CountryCenters[i].name))) &&
      (r != NotLocated ==> (exists i :: (0 <= i < |CountryCenters| && r == CenterLocation(CountryCenters[i]) &&
        Contains(Lower(location), Lower(CountryCenters[i].name)) &&
        forall j :: 0 <= j < i ==> !Contains(Lower(location), Lower(CountryCenters[j].name)))))
  {
    FallbackFromFirstMatch(CountryCenters, Lower(location));
  }

  /**
   * The `for country, coords in country_centers.items()` loop with its early
   * return, over the table it is given.
   */
  method FirstCenter(table: seq<CountryCenter>, locationLower: string) returns (r: Located)
    ensures r == FallbackFrom(table, locationLower)
  {
    var i := 0;
    while i < |table|
      invariant 0 <= i <= |table|
      invariant FallbackFrom(table[i..], locationLower) == FallbackFrom(table, locationLower)
    {
      var c := table[i];
      if Contains(locationLower, Lower(c.name)) {
        return CenterLocation(c);
      }
      assert table[i..][1..] == table[i + 1..];
      i := i + 1;
    }
    return NotLocated;
  }

  /** The country fallback of `get_location_coordinates`. */
  method CountryFallback(location: string) returns (r: Located)
    ensures r == Fallback(location)
  {
    r := FirstCenter(CountryCenters, Lower(location));
  }

  /** The result of the language model's structured completion. */
  datatype Enrichment = Enrichment(summary: string, highlights: seq<string>, skills: seq<string>, interests: seq<string>)

  /** `profile_json.get('profilePic', '')`: absent, JSON null, or a string. */
  datatype JsonField = Missing | Null | Text(text: string)

  function ProfilePic(f: JsonField): Option<string>
  {
    match f
    case Missing => Some("")
    case Null => None
    case Text(t) => Some(t)
  }

  /**
   * The outside world. `osm` / `osmCountry` are the two geocoder lookups
   * (`Ok(None)` when the lookup is not `ok`); `scrape` is
   * `scrape_linkedin_profile`, which catches its own errors; `profilePic`
   * reads the scraped JSON text; `enrich` is the language-model call.
   */
  datatype Services = Services(
    osm: string -> Result<Option<Located>, string>,
    osmCountry: string -> Result<Option<Located>, string>,
    scrape: string -> Option<string>,
    profilePic: string -> JsonField,
    enrich: string -> Result<Enrichment, string>)

  /**
   * `get_location_coordinates`: the full lookup if it succeeds, else the
   * country lookup without its city, else the fallback table.
   */
  function LocationCoordinates(location: string, s: Services): (r: Result<Located, string>)
    ensures var g, c := s.osm(location), s.osmCountry(location);
      (g.Err? ==> r == Err(g.error)) &&
      (g.Ok? && g.value.Some? ==> r == Ok(g.value.value)) &&
      (g == Ok(None) && c.Err? ==> r == Err(c.error)) &&
      (g == Ok(None) && c.Ok? && c.value.Some? ==> r == Ok(c.value.value.(city := None))) &&
      (g == Ok(None) && c == Ok(None) ==> r == Ok(Fallback(location)))
    ensures r.Ok? && r.value.city.Some? ==> s.osm(location) == Ok(Some(r.value))
  {
    match s.osm(location)
    case Err(e) => Err(e)
    case Ok(Some(hit)) => Ok(hit)
    case Ok(None) =>
      match s.osmCountry(location)
      case Err(e) => Err(e)
      case Ok(Some(hit)) => Ok(hit.(city := None))
      case Ok(None) => Ok(Fallback(location))
  }

  method GetLocationCoordinates(location: string, s: Services) returns (r: Result<Located, string>)
    ensures r == LocationCoordinates(location, s)
  {
    var g := s.osm(location);
    if g.Err? {
      return Err(g.error);
    }
    if g.value.Some? {
      return Ok(g.value.value);
    }
    g := s.osmCountry(location);
    if g.Err? {
      return Err(g.error);
    }
    if g.value.Some? {
      return Ok(g.value.value.(city := None));
    }
    var fallback := CountryFallback(location);
    return Ok(fallback);
  }

  /** Python truthiness of an optional float: present and non-zero. */
  predicate Truthy(x: Option<real>)
  {
    x.Some? && x.value != 0.0
  }

  /** `if lat and lng: user.coordinates = (lat, lng)`. */
  function WithCoordinates(user: UserProfile, loc: Located): (u: UserProfile)
    ensures Truthy(loc.lat) && Truthy(loc.lng) ==> u == user.(coordinates := Some(LatLng(loc.lat.value, loc.lng.value)))
    ensures !(Truthy(loc.lat) && Truthy(loc.lng)) ==> u == user
  {
    if Truthy(loc.lat) && Truthy(loc.lng) then user.(coordinates := Some(LatLng(loc.lat.value, loc.lng.value))) else user
  }

  /**
   * The body of the `process_users` loop for one participant. An exception
   * ends the processing of that participant, who is kept with the changes made
   * so far.
   */
  function ProcessUser(user: UserProfile, s: Services): (u: UserProfile)
    ensures u.name == user.name && u.email == user.email && u.location == user.location &&
            u.xAccount == user.xAccount && u.linkedinUrl == user.linkedinUrl && u.anonymous == user.anonymous
  {
    match LocationCoordinates(user.location, s)
    case Err(_) => user
    case Ok(loc) =>
      var located := WithCoordinates(user, loc);
      if located.anonymous || located.linkedinUrl == "" then located
      else
        match s.scrape(located.linkedinUrl)
        case None => located
        case Some(data) =>
          if data == "" then located
          else
            match s.enrich(data)
            case Err(_) => located
            case Ok(res) =>
              located.(highlights := Some(res.highlights), summary := Some(res.summary),
                       skills := Some(res.skills), interests := Some(res.interests),
                       profileImageUrl := ProfilePic(s.profilePic(data)))
  }

  /**
   * Anonymous participants are never scraped nor enriched: the result does not
   * depend on the scraper, the JSON reader or the language model.
   */
  lemma AnonymousNotScraped(user: UserProfile, s: Services,
                            scrape: string -> Option<string>, profilePic: string -> JsonField,
                            enrich: string -> Result<Enrichment, string>)
    requires user.anonymous
    ensures ProcessUser(user, s) == ProcessUser(user, s.(scrape := scrape, profilePic := profilePic, enrich := enrich))
    ensures ProcessUser(user, s).summary == user.summary && ProcessUser(user, s).highlights == user.highlights &&
            ProcessUser(user, s).profileImageUrl == user.profileImageUrl
  {
  }

  /** A zero latitude or longitude is falsy in Python: no coordinates are recorded. */
  lemma ZeroCoordinateIgnored(user: UserProfile, s: Services)
    requires user.coordinates.None?
    requires LocationCoordinates(user.location, s).Ok?
    requires var loc := LocationCoordinates(user.location, s).value; loc.lat == Some(0.0) || loc.lng == Some(0.0)
    ensures ProcessUser(user, s).coordinates.None?
  {
  }

  /** A failing language-model call keeps the coordinates already recorded. */
  lemma EnrichFailureKeepsCoordinates(user: UserProfile, s: Services)
    requires !user.anonymous && user.linkedinUrl != ""
    requires LocationCoordinates(user.location, s).Ok?
    requires var data := s.scrape(user.linkedinUrl); data.Some? && data.value != "" && s.enrich(data.value).Err?
    ensures ProcessUser(user, s) == WithCoordinates(user, LocationCoordinates(user.location, s).value)
  {
  }

  /**
   * A successful enrichment replaces the four enrichment fields with the
   * model's answer; the image URL becomes the scraped `profilePic`: "" when the
   * key is absent, `None` exactly when it is JSON null.
   */
  lemma EnrichmentApplied(user: UserProfile, s: Services)
    requires !user.anonymous && user.linkedinUrl != ""
    requires LocationCoordinates(user.location, s).Ok?
    requires var data := s.scrape(user.linkedinUrl); data.Some? && data.value != "" && s.enrich(data.value).Ok?
    ensures var data := s.scrape(user.linkedinUrl).value;
      var res := s.enrich(data).value;
      var u := ProcessUser(user, s);
      u.summary == Some(res.summary) && u.highlights == Some(res.highlights) &&
      u.skills == Some(res.skills) && u.interests == Some(res.interests) &&
      u.coordinates == WithCoordinates(user, LocationCoordinates(user.location, s).value).coordinates &&
      (u.profileImageUrl == None <==> s.profilePic(data).Null?) &&
      (s.profilePic(data).Missing? ==> u.profileImageUrl == Some("")) &&
      (s.profilePic(data).Text? ==> u.profileImageUrl == Some(s.profilePic(data).text))
  {
  }

  /**
   * `process_users`: every participant is kept, once, in input order, whether
   * or not processing it raised.
   */
  method ProcessUsers(users: seq<UserProfile>, s: Services) returns (processed: seq<UserProfile>)
    ensures |processed| == |users|
    ensures forall i :: 0 <= i < |users| ==> processed[i] == ProcessUser(users[i], s)
    ensures forall i :: 0 <= i < |users| ==> processed[i].name == users[i].name && processed[i].email == users[i].email
  {
    processed := [];
    var i := 0;
    while i < |users|
      invariant 0 <= i <= |users| && |processed| == i
      invariant forall j :: 0 <= j < i ==> processed[j] == ProcessUser(users[j], s)
    {
      processed := processed + [ProcessUser(users[i], s)];
      i := i + 1;
    }
  }

  /** A metadata value of the vector-store document. */
  datatype MetaValue = MStr(str: string) | MBool(flag: bool) | MReal(number: real) | MList(items: seq<string>) | MNone

  function OptText(o: Option<string>): MetaValue
  {
    if o.Some? then MStr(o.value) else MNone
  }

  function OptList(o: Option<seq<string>>): MetaValue
  {
    if o.Some? then MList(o.value) else MNone
  }

  /** The metadata keys of a participant document; `KeyName` is the key's text. */
  datatype MetaKey = Name | Email | Location | XAccount | LinkedinUrl | ProfileImageUrl | Anonymous |
                     Summary | Highlights | Skills | Interests | Latitude | Longitude

  function KeyName(k: MetaKey): string
  {
    match k
    case Name => "name"
    case Email => "email"
    case Location => "location"
    case XAccount => "x_account"
    case LinkedinUrl => "linkedin_url"
    case ProfileImageUrl => "profile_image_url"
    case Anonymous => "anonymous"
    case Summary => "summary"
    case Highlights => "highlights"
    case Skills => "skills"
    case Interests => "interests"
    case Latitude => "latitude"
    case Longitude => "longitude"
  }

  const BaseKeys: set<MetaKey> := {Name, Email, Location, XAccount, LinkedinUrl, ProfileImageUrl,
                                   Anonymous, Summary, Highlights, Skills, Interests}

  /** Metadata kept out of the embedding text. */
  const ExcludedEmbedKeys: seq<MetaKey> := [ProfileImageUrl, Latitude, Longitude, XAccount,
                                            LinkedinUrl, Skills, Interests]

  datatype UserDocument = UserDocument(metadata: map<MetaKey, MetaValue>, excludedEmbedKeys: seq<MetaKey>)

  /** The value `create_user_document` stores under a key; a missing image URL becomes "". */
  function FieldValue(user: UserProfile, k: MetaKey): MetaValue
  {
    match k
    case Name => MStr(user.name)
    case Email => MStr(user.email)
    case Location => MStr(user.location)
    case XAccount => MStr(user.xAccount)
    case LinkedinUrl => MStr(user.linkedinUrl)
    case ProfileImageUrl =>
      MStr(if user.profileImageUrl.Some? && user.profileImageUrl.value != "" then user.profileImageUrl.value else "")
    case Anonymous => MBool(user.anonymous)
    case Summary => OptText(user.summary)
    case Highlights => OptList(user.highlights)
    case Skills => OptList(user.skills)
    case Interests => OptList(user.interests)
    case Latitude => if user.coordinates.Some? then MReal(user.coordinates.value.lat) else MNone
    case Longitude => if user.coordinates.Some? then MReal(user.coordinates.value.lng) else MNone
  }

  /** The eleven base keys, and the two coordinate keys only when there are coordinates. */
  function DocumentKeys(user: UserProfile): set<MetaKey>
  {
    if user.coordinates.Some? then BaseKeys + {Latitude, Longitude} else BaseKeys
  }

  /**
   * `create_user_document`: the eleven base keys, plus `latitude` and
   * `longitude` exactly when the participant has coordinates, each holding the
   * participant's value for that key.
   */
  method CreateUserDocument(user: UserProfile) returns (doc: UserDocument)
    ensures doc.metadata.Keys == DocumentKeys(user)
    ensures forall k :: k in doc.metadata ==> doc.metadata[k] == FieldValue(user, k)
    ensures doc.excludedEmbedKeys == ExcludedEmbedKeys
  {
    var metadata := map k | k in BaseKeys :: FieldValue(user, k);
    assert metadata.Keys == BaseKeys;
    if user.coordinates.Some? {
      metadata := metadata[Latitude := FieldValue(user, Latitude)][Longitude := FieldValue(user, Longitude)];
      assert metadata.Keys == BaseKeys + {Latitude, Longitude};
    }
    assert metadata.Keys == DocumentKeys(user);
    doc := UserDocument(metadata, ExcludedEmbedKeys);
  }

  /** `profile_image_url or ""`: a missing URL is stored as the empty string. */
  lemma ImageUrlStored(user: UserProfile)
    ensures FieldValue(user, ProfileImageUrl) == MStr(user.profileImageUrl.GetOr(""))
  {
  }

  /**
   * Every key kept out of the embedding is present in the metadata exactly
   * when the participant has coordinates.
   */
  lemma ExcludedKeysPresentIff(user: UserProfile)
    ensures (forall i :: 0 <= i < |ExcludedEmbedKeys| ==> ExcludedEmbedKeys[i] in DocumentKeys(user))
        <==> user.coordinates.Some?
  {
    if user.coordinates.None? {
      assert ExcludedEmbedKeys[1] == Latitude;
    }
  }

  /** The metadata the embedding sees: name, email, location, anonymity, summary and highlights. */
  lemma EmbeddedKeys(user: UserProfile)
    ensures DocumentKeys(user) - (set i | 0 <= i < |ExcludedEmbedKeys| :: ExcludedEmbedKeys[i])
         == {Name, Email, Location, Anonymous, Summary, Highlights}
  {
    var excluded := set i | 0 <= i < |ExcludedEmbedKeys| :: ExcludedEmbedKeys[i];
    assert excluded == {ProfileImageUrl, Latitude, Longitude, XAccount, LinkedinUrl, Skills, Interests} by {
      assert ExcludedEmbedKeys[0] == ProfileImageUrl && ExcludedEmbedKeys[1] == Latitude;
      assert ExcludedEmbedKeys[2] == Longitude && ExcludedEmbedKeys[3] == XAccount;
      assert ExcludedEmbedKeys[4] == LinkedinUrl && ExcludedEmbedKeys[5] == Skills && ExcludedEmbedKeys[6] == Interests;
    }
  }
}

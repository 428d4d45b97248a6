/**
 * The records the front end passes around: participants (`UserNode`), partners,
 * and the globe's marker records (`Node`). Optional properties are `Option`s;
 * `None` is JavaScript's `undefined`.
 */
module Types {
  import opened Wrappers

  datatype Coordinates = Coordinates(latitude: real, longitude: real)

  /**
   * A participant as the API returns it. The last three fields are not part of
   * the declared interface; they are the extra properties that the sample data
   * carries and that the user-to-globe mapping of `src/lib/utils.ts` reads
   * (`None` on records that lack them).
   */
  datatype UserNode = UserNode(
    name: string,
    email: string,
    location: string,
    coordinates: Option<Coordinates>,
    xAccount: Option<string>,
    linkedinUrl: Option<string>,
    highlights: Option<seq<string>>,
    summary: Option<string>,
    profileImageUrl: Option<string>,
    anonymous: bool,
    skills: Option<seq<string>>,
    interests: Option<seq<string>>,
    teamStatus: Option<string>,
    longitude: Option<real>,
    latitude: Option<real>,
    nodeType: Option<string>)

  datatype Partner = Partner(
    id: int,
    image: string,
    name: string,
    twitter: Option<string>,
    website: Option<string>,
    linkedin: Option<string>,
    partnerType: Option<string>)

  /** A globe marker. `long`/`lat` are `None` when the source record has no coordinates. */
  datatype Node = Node(
    long: Option<real>,
    lat: Option<real>,
    value: real,
    nodeType: Option<string>,
    userData: Option<UserNode>,
    isNew: Option<bool>)
}

/** The four entity models and their strict parsers (pydantic models declared
    with `extra=Extra.forbid`). A parser accepts a decoded JSON object whose keys
    all belong to the model (under their aliases), whose required fields are
    present and not null, and whose values have the declared JSON types; it
    prepends the API base URL to `link`. */
module Entities {
  import opened Outcomes
  import opened Json
  import opened Text

  predicate Absolute(link: string) {
    |ApiBaseUrl| <= |link| && link[..|ApiBaseUrl|] == ApiBaseUrl
  }

  /** `o` with `key` set to `v` when there is a value, left out otherwise. */
  function WithOptional(o: Object, key: string, v: Option<Json>): Object {
    if v.Some? then o[key := v.value] else o
  }

  function OptStr(s: Option<string>): Option<Json> {
    if s.Some? then Some(JStr(s.value)) else None
  }

  function OptInt(n: Option<int>): Option<Json> {
    if n.Some? then Some(JInt(n.value)) else None
  }

  function OptBool(b: Option<bool>): Option<Json> {
    if b.Some? then Some(JBool(b.value)) else None
  }

  // ---------------------------------------------------------------- Conference

  datatype Conference = Conference(
    id: int,
    name: string,
    link: string,
    abbreviation: Option<string>,
    shortName: Option<string>,
    active: Option<bool>)

  const ConferenceKeys: set<string> := {"id", "name", "link", "abbreviation", "shortName", "active"}

  /** `Conference.parse_obj`. */
  function ParseConference(j: Json): (r: Result<Conference>)
    ensures r.Failure? ==> r.error == ValidationError
    ensures r.Success? ==> j.JObject? && j.fields.Keys <= ConferenceKeys
    ensures r.Success? ==> "id" in j.fields && j.fields["id"] == JInt(r.value.id)
    ensures r.Success? ==> "name" in j.fields && j.fields["name"] == JStr(r.value.name)
    ensures r.Success? ==> "link" in j.fields && j.fields["link"].JStr?
                           && r.value.link == PrependBaseUrl(j.fields["link"].s)
  {
    if !j.JObject? || !(j.fields.Keys <= ConferenceKeys) then Failure(ValidationError)
    else
      var o := j.fields;
      var id :- RequiredInt(o, "id");
      var name :- RequiredStr(o, "name");
      var link :- RequiredStr(o, "link");
      var abbreviation :- OptionalStr(o, "abbreviation");
      var shortName :- OptionalStr(o, "shortName");
      var active :- OptionalBool(o, "active");
      Success(Conference(id, name, PrependBaseUrl(link), abbreviation, shortName, active))
  }

  /** The object the API sends for a conference `c` whose relative link is `rawLink`. */
  function ConferenceObject(c: Conference, rawLink: string): Json {
    var required := map["id" := JInt(c.id), "name" := JStr(c.name), "link" := JStr(rawLink)];
    JObject(WithOptional(WithOptional(WithOptional(required,
      "abbreviation", OptStr(c.abbreviation)),
      "shortName", OptStr(c.shortName)),
      "active", OptBool(c.active)))
  }

  /** Parsing what the API sends gives back every field, `shortName` read into
      `shortName` and the link made absolute. */
  lemma ConferenceRoundTrip(c: Conference, rawLink: string)
    ensures ParseConference(ConferenceObject(c, rawLink)) == Success(c.(link := PrependBaseUrl(rawLink)))
  {
    var o := ConferenceObject(c, rawLink).fields;
    assert o.Keys <= ConferenceKeys;
    assert o["id"] == JInt(c.id) && o["name"] == JStr(c.name) && o["link"] == JStr(rawLink);
    assert OptionalStr(o, "abbreviation") == Success(c.abbreviation);
    assert OptionalStr(o, "shortName") == Success(c.shortName);
    assert OptionalBool(o, "active") == Success(c.active);
  }

  // ------------------------------------------------------------------ Division

  datatype Division = Division(
    id: int,
    name: string,
    link: string,
    abbreviation: Option<string>,
    shortName: Option<string>,
    conference: Option<Conference>,
    active: Option<bool>)

  const DivisionKeys: set<string> :=
    {"id", "name", "link", "abbreviation", "nameShort", "conference", "active"}

  /** A `Conference | None` field: absent or null gives None, anything else must
      parse as a conference. */
  function OptionalConference(o: Object, key: string): Result<Option<Conference>> {
    if key !in o || o[key].JNull? then Success(None)
    else
      var c :- ParseConference(o[key]);
      Success(Some(c))
  }

  /** `Division.parse_obj`; a nested conference is parsed by its own model. */
  function ParseDivision(j: Json): (r: Result<Division>)
    ensures r.Failure? ==> r.error == ValidationError
    ensures r.Success? ==> j.JObject? && j.fields.Keys <= DivisionKeys
    ensures r.Success? ==> "id" in j.fields && j.fields["id"] == JInt(r.value.id)
    ensures r.Success? ==> "link" in j.fields && j.fields["link"].JStr?
                           && r.value.link == PrependBaseUrl(j.fields["link"].s)
    ensures r.Success? ==> (r.value.conference.Some? <==> "conference" in j.fields && !j.fields["conference"].JNull?)
    ensures r.Success? && r.value.conference.Some? ==>
              ParseConference(j.fields["conference"]) == Success(r.value.conference.value)
  {
    if !j.JObject? || !(j.fields.Keys <= DivisionKeys) then Failure(ValidationError)
    else
      var o := j.fields;
      var id :- RequiredInt(o, "id");
      var name :- RequiredStr(o, "name");
      var link :- RequiredStr(o, "link");
      var abbreviation :- OptionalStr(o, "abbreviation");
      var shortName :- OptionalStr(o, "nameShort");
      var conference :- OptionalConference(o, "conference");
      var active :- OptionalBool(o, "active");
      Success(Division(id, name, PrependBaseUrl(link), abbreviation, shortName, conference, active))
  }

  // ----------------------------------------------------------------- Franchise

  /** The validated fields of a franchise. */
  datatype FranchiseFields = FranchiseFields(
    id: int,
    teamName: string,
    location: string,
    mostRecentTeamId: int,
    firstSeasonId: int,
    lastSeasonId: Option<int>,
    link: string)

  const FranchiseKeys: set<string> :=
    {"franchiseId", "teamName", "locationName", "mostRecentTeamId", "firstSeasonId", "lastSeasonId", "link"}

  /** `Franchise.parse_obj`: every field but `link` is read under its alias. */
  function ParseFranchise(j: Json): (r: Result<FranchiseFields>)
    ensures r.Failure? ==> r.error == ValidationError
    ensures r.Success? ==> j.JObject? && j.fields.Keys <= FranchiseKeys
    ensures r.Success? ==> "franchiseId" in j.fields && j.fields["franchiseId"] == JInt(r.value.id)
    ensures r.Success? ==> "teamName" in j.fields && j.fields["teamName"] == JStr(r.value.teamName)
    ensures r.Success? ==> "locationName" in j.fields && j.fields["locationName"] == JStr(r.value.location)
    ensures r.Success? ==> "link" in j.fields && j.fields["link"].JStr?
                           && r.value.link == PrependBaseUrl(j.fields["link"].s)
  {
    if !j.JObject? || !(j.fields.Keys <= FranchiseKeys) then Failure(ValidationError)
    else
      var o := j.fields;
      var id :- RequiredInt(o, "franchiseId");
      var teamName :- RequiredStr(o, "teamName");
      var location :- RequiredStr(o, "locationName");
      var mostRecentTeamId :- RequiredInt(o, "mostRecentTeamId");
      var firstSeasonId :- RequiredInt(o, "firstSeasonId");
      var lastSeasonId :- OptionalInt(o, "lastSeasonId");
      var link :- RequiredStr(o, "link");
      Success(FranchiseFields(id, teamName, location, mostRecentTeamId, firstSeasonId, lastSeasonId,
                              PrependBaseUrl(link)))
  }

  /** The object the API sends for franchise `f` whose relative link is `rawLink`. */
  function FranchiseObject(f: FranchiseFields, rawLink: string): Json {
    JObject(WithOptional(map["franchiseId" := JInt(f.id), "teamName" := JStr(f.teamName),
                "locationName" := JStr(f.location), "mostRecentTeamId" := JInt(f.mostRecentTeamId),
                "firstSeasonId" := JInt(f.firstSeasonId), "link" := JStr(rawLink)],
      "lastSeasonId", OptInt(f.lastSeasonId)))
  }

  /** Parsing what the API sends gives back every field read under its alias
      (`franchiseId` into `id`, and so on), with the link made absolute. */
  lemma FranchiseRoundTrip(f: FranchiseFields, rawLink: string)
    ensures ParseFranchise(FranchiseObject(f, rawLink)) == Success(f.(link := PrependBaseUrl(rawLink)))
  {
    var o := FranchiseObject(f, rawLink).fields;
    assert o.Keys <= FranchiseKeys;
    assert o["franchiseId"] == JInt(f.id) && o["teamName"] == JStr(f.teamName);
    assert o["locationName"] == JStr(f.location) && o["link"] == JStr(rawLink);
    assert o["mostRecentTeamId"] == JInt(f.mostRecentTeamId) && o["firstSeasonId"] == JInt(f.firstSeasonId);
    assert OptionalInt(o, "lastSeasonId") == Success(f.lastSeasonId);
  }

  /** A franchise instance. Its fields never change after parsing, so two
      franchises are the same exactly when they are the same object. */
  class Franchise {
    const fields: FranchiseFields

    constructor (fields: FranchiseFields)
      ensures this.fields == fields
    {
      this.fields := fields;
    }

    /** `__str__`: the location and the team name, separated by a space. */
    function ToString(): (r: string)
      ensures |r| == |fields.location| + 1 + |fields.teamName|
      ensures r[..|fields.location|] == fields.location && r[|fields.location|] == ' '
      ensures r[|fields.location| + 1..] == fields.teamName
    {
      fields.location + " " + fields.teamName
    }
  }

  /** When locations hold no space, the display name tells the location and the
      team name apart again: equal display names mean equal parts. */
  lemma DisplayNameDetermines(a: Franchise, b: Franchise)
    requires ' ' !in a.fields.location && ' ' !in b.fields.location
    ensures a.ToString() == b.ToString() ==>
              a.fields.location == b.fields.location && a.fields.teamName == b.fields.teamName
  {
    var la, lb := a.fields.location, b.fields.location;
    var sa, sb := a.ToString(), b.ToString();
    if sa == sb {
      // the first space of the display name ends the location
      assert forall i :: 0 <= i < |la| ==> sa[i] == la[i] && sa[i] != ' ';
      assert forall i :: 0 <= i < |lb| ==> sb[i] == lb[i] && sb[i] != ' ';
      assert sa[|la|] == ' ' && sb[|lb|] == ' ';
      assert la == sa[..|la|] && lb == sb[..|lb|];
      assert a.fields.teamName == sa[|la| + 1..] && b.fields.teamName == sb[|lb| + 1..];
    }
  }

  /** The display name checked by the franchise test: franchise 6 is the
      "Boston Bruins". */
  lemma BostonExample(f: Franchise)
    requires f.fields.location == "Boston" && f.fields.teamName == "Bruins"
    ensures f.ToString() == "Boston Bruins"
  {
  }

  // ---------------------------------------------------------------------- Team

  /** The validated fields of a team. The untyped payloads that expand options
      add (`teamStats`, `roster`, ...) are kept together, by alias. */
  datatype TeamFields = TeamFields(
    id: int,
    name: string,
    abbreviation: string,
    teamName: string,
    shortName: string,
    location: string,
    franchiseId: int,
    active: bool,
    link: string,
    firstYearOfPlay: string,
    venue: Option<Object>,
    division: Division,
    conference: Option<Conference>,
    officialSiteUrl: Option<string>,
    expansions: map<string, Object>)

  const PassthroughKeys: set<string> :=
    {"teamStats", "roster", "nextGameSchedule", "previousGameSchedule", "content",
     "deviceProperties", "social", "record", "playoffInfo", "tickets", "otherNames"}

  const TeamKeys: set<string> :=
    {"id", "name", "abbreviation", "teamName", "shortName", "locationName", "franchiseId",
     "active", "link", "firstYearOfPlay", "venue", "division", "conference", "franchise",
     "officialSiteUrl"} + PassthroughKeys

  /** The `dict | None` payload fields: each must be an object or null. */
  function Passthrough(o: Object): Result<map<string, Object>> {
    if forall k :: k in o && k in PassthroughKeys ==> o[k].JObject? || o[k].JNull? then
      Success(map k | k in o && k in PassthroughKeys && o[k].JObject? :: o[k].fields)
    else Failure(ValidationError)
  }

  function RequiredDivision(o: Object, key: string): Result<Division> {
    if key in o then ParseDivision(o[key]) else Failure(ValidationError)
  }

  /** `Team.parse_obj` on an object whose inline "franchise" was removed: the
      team's `franchise` is then None until `Team.from_obj` sets it. */
  function ParseTeam(o: Object): (r: Result<TeamFields>)
    requires "franchise" !in o
    ensures r.Failure? ==> r.error == ValidationError
    ensures r.Success? ==> o.Keys <= TeamKeys
    ensures r.Success? ==> "id" in o && o["id"] == JInt(r.value.id)
    ensures r.Success? ==> "franchiseId" in o && o["franchiseId"] == JInt(r.value.franchiseId)
    ensures r.Success? ==> "link" in o && o["link"].JStr? && r.value.link == PrependBaseUrl(o["link"].s)
    ensures r.Success? ==> "division" in o && ParseDivision(o["division"]) == Success(r.value.division)
    ensures r.Success? && r.value.conference.Some? ==>
              "conference" in o && ParseConference(o["conference"]) == Success(r.value.conference.value)
    ensures r.Success? ==> (r.value.firstYearOfPlay == "unknown" <== "firstYearOfPlay" !in o)
  {
    if !(o.Keys <= TeamKeys) then Failure(ValidationError)
    else
      var id :- RequiredInt(o, "id");
      var name :- RequiredStr(o, "name");
      var abbreviation :- RequiredStr(o, "abbreviation");
      var teamName :- RequiredStr(o, "teamName");
      var shortName :- RequiredStr(o, "shortName");
      var location :- RequiredStr(o, "locationName");
      var franchiseId :- RequiredInt(o, "franchiseId");
      var active :- RequiredBool(o, "active");
      var link :- RequiredStr(o, "link");
      var firstYearOfPlay :- StrOrDefault(o, "firstYearOfPlay", "unknown");
      var venue :- OptionalDict(o, "venue");
      var division :- RequiredDivision(o, "division");
      var conference :- OptionalConference(o, "conference");
      var officialSiteUrl :- OptionalStr(o, "officialSiteUrl");
      var expansions :- Passthrough(o);
      Success(TeamFields(id, name, abbreviation, teamName, shortName, location, franchiseId, active,
                         PrependBaseUrl(link), firstYearOfPlay, venue, division, conference,
                         officialSiteUrl, expansions))
  }

  /** Every link a parsed team carries, its own and those of its division and
      conferences, is absolute. */
  lemma TeamLinksAbsolute(o: Object)
    requires "franchise" !in o && ParseTeam(o).Success?
    ensures var t := ParseTeam(o).value;
            Absolute(t.link) && Absolute(t.division.link)
            && (t.division.conference.Some? ==> Absolute(t.division.conference.value.link))
            && (t.conference.Some? ==> Absolute(t.conference.value.link))
  {
    var t := ParseTeam(o).value;
    var d := o["division"];
    if t.division.conference.Some? {
      var c := ParseConference(d.fields["conference"]);
      assert Absolute(c.value.link);
    }
    if t.conference.Some? {
      var c := ParseConference(o["conference"]);
      assert Absolute(c.value.link);
    }
  }

  /** A team instance: the parsed fields, and the franchise that
      `Team.from_obj` assigns after parsing. */
  class Team {
    const fields: TeamFields
    var franchise: Franchise?

    constructor (fields: TeamFields)
      ensures this.fields == fields && franchise == null
    {
      this.fields := fields;
      franchise := null;
    }
  }
}

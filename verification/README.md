# hockey_api_client in Dafny

This project models the core of `hockey_api_client`, a small client for the
NHL statistics web API. It covers:

- the accent- and case-insensitive string comparison (`clean_str`, `string_equal`);
- the link validator, which turns every relative `link` of a response into an
  absolute URL under `https://statsapi.web.nhl.com`;
- the strict pydantic schemas of Conference, Division, Franchise and Team: a
  closed set of aliased keys, required, optional and defaulted fields, exact
  JSON types and link prefixing;
- the process-wide franchise cache: the class-level `_fetched` flag and the
  `franchises_by_id` dictionary. It is populated once, by `all`, and read by
  `by_id`, `by_name` and `by_location`;
- the id-scoped selections of `Conference.by_id`, `Division.by_id` and
  `Team.by_id`, and `Team.from_obj`. `Team.from_obj` deletes the inline
  franchise and splices in the cached franchise object.

The modules:

- `Outcomes`: `Option`, `Result` and the error kinds.
- `Json`: decoded JSON values, the mutable dict a team arrives in, and the
  field readers.
- `Text`: the string comparison and the base URL.
- `Entities`: the four schemas. Conference and Division are values. Franchise
  and Team are classes, because a team must hold the very franchise object
  of the cache.
- `OrderedMap`: an insertion-ordered dictionary. Python's dict order shows up
  in what `all` returns and in which franchise `by_name` finds first.
- `FranchiseCache`: the cache as a `Cache` object, its methods, and the
  search and selection that back `by_name` and `by_location`.
- `Lookups`: the id lookups and the team splice.

A network request becomes a parameter: the list found under the response's
collection key (`"conferences"`, `"divisions"`, `"franchises"`, `"teams"`).
NFKD normalisation followed by `casefold` becomes a parameter
`fold: string -> string`.

`Team.by_id` indexes `[0]` (hockey_api_client.py:381), so an empty team
list raises IndexError, not the NotFound that `Conference.by_id` and
`Division.by_id` raise.

## Model

| member | source | states |
|---|---|---|
| Text.AsciiBytes | hockey_api_client.py:18 | encoding with "ignore" never lengthens the text and yields only bytes below 128 |
| Text.CleanStr | hockey_api_client.py:16-18 | the cleaned form is pure ASCII and no longer than the normalised, case-folded text |
| Text.AsciiBytesAppend | hockey_api_client.py:18 | encoding handles each character on its own: the encoding of a concatenation is the concatenation of the encodings |
| Text.DropsNonAscii | hockey_api_client.py:17-18 | a non-ASCII code point, such as an accent split off by NFKD, contributes nothing wherever it stands |
| Text.AsciiBytesOfAscii | hockey_api_client.py:18 | on ASCII text the encoding keeps every code point |
| Text.StringEqual | hockey_api_client.py:21-31 | two strings whose normalised, case-folded forms coincide always compare equal, and strings that compare equal have cleaned forms of the same length |
| Text.StringEqualOnAscii | hockey_api_client.py:21-31 | when the folded strings are ASCII, `string_equal` holds exactly when they are equal, in both directions |
| Text.StringEqualIsEquivalence | hockey_api_client.py:21-31 | `string_equal` is reflexive, symmetric and transitive |
| Text.MontrealExample | hockey_api_client.py:28 | "Montréal" and "montreal" compare equal once NFKD splits off the accent and casefold lowers the "M" |
| Text.PrefixNotEqualExample | hockey_api_client.py:29 | "ab" and "abc" do not compare equal |
| Text.PrependBaseUrl | hockey_api_client.py:45-46 | the validated link is the base URL followed by the raw link, unchanged |
| Text.PrependBaseUrlInjective | hockey_api_client.py:45-46 | distinct raw links stay distinct after validation |
| Text.ConferenceLinkExample | test_hockey_api_client.py:16-19 | the link of conference 6 becomes "https://statsapi.web.nhl.com/api/v1/conferences/6" |
| Entities.ParseConference | hockey_api_client.py:55-66 | a conference parses only from an object whose keys are all conference aliases, with an int id, a string name and a string link; every failure is a validation error |
| Entities.ConferenceRoundTrip | hockey_api_client.py:55-66 | parsing the object the API sends for a conference gives back its fields, with the link made absolute |
| Entities.ParseDivision | hockey_api_client.py:104-131 | a division parses only from an object whose keys are all division aliases; its conference is present exactly when the key holds a non-null value, which then parses as a conference |
| Entities.ParseFranchise | hockey_api_client.py:166-193 | a franchise parses only from an object whose keys are all franchise aliases, and its id, team name and location are the values under "franchiseId", "teamName" and "locationName" |
| Entities.FranchiseRoundTrip | hockey_api_client.py:179-185 | parsing the object the API sends for a franchise gives back its fields, with the link made absolute |
| Entities.Franchise.ToString | hockey_api_client.py:195-196 | the display name is the location, one space, then the team name |
| Entities.BostonExample | test_hockey_api_client.py:42-44 | a franchise located in "Boston" and named "Bruins" displays as "Boston Bruins", as the test of franchise 6 expects |
| Entities.DisplayNameDetermines | hockey_api_client.py:195-196 | when locations contain no space, equal display names mean equal locations and equal team names |
| Entities.ParseTeam | hockey_api_client.py:255-336 | a team parses only from an object whose keys are all team aliases; its id, franchise id, link and division come from the object; a missing "firstYearOfPlay" becomes "unknown"; every failure is a validation error |
| Entities.TeamLinksAbsolute | hockey_api_client.py:255-336 | every link a parsed team holds is absolute: its own, its conference's, its division's and its division's conference's |
| OrderedMap.Empty | hockey_api_client.py:190 | the initial dictionary is well formed and has no entries |
| OrderedMap.Put | hockey_api_client.py:213 | assignment sets the entry; a new key goes to the end and an existing key keeps its place |
| OrderedMap.Values | hockey_api_client.py:207 | `values()` lists one value per key, in insertion order |
| FranchiseCache.ParsePrefix | hockey_api_client.py:210-213 | parsing stops at the first object that fails, and it is complete exactly when every object parsed |
| FranchiseCache.ParsePrefixParses | hockey_api_client.py:211-212 | each parsed franchise is the parse of the object at its position |
| FranchiseCache.ParsePrefixStops | hockey_api_client.py:211-212 | a failure at position i discards everything after i |
| FranchiseCache.ParsePrefixExtends | hockey_api_client.py:211-212 | one more object that parses adds exactly its parse |
| FranchiseCache.StoreAll | hockey_api_client.py:211-213 | storing the franchises keeps the dictionary well formed, keeps every id under its own franchise, and the stored keys are the old keys plus the new ids |
| FranchiseCache.StoreAllSnoc | hockey_api_client.py:211-213 | storing one more franchise is one more dictionary assignment |
| FranchiseCache.StoreAllLastWins | hockey_api_client.py:211-213 | under an id the dictionary holds the last franchise of the response with that id |
| FranchiseCache.StoreAllUntouched | hockey_api_client.py:211-213 | an id absent from the response keeps its old entry, or stays absent |
| FranchiseCache.StoreAllKeepsOrder | hockey_api_client.py:207-215 | storing never reorders the keys already present |
| FranchiseCache.Cache.constructor | hockey_api_client.py:189-190 | the cache starts unfetched and empty |
| FranchiseCache.Cache.All | hockey_api_client.py:198-215 | once fetched, the cached values come back and nothing changes; otherwise the parsed franchises are stored as new objects, the flag is set only when the whole response parsed, and a failure is a validation error |
| FranchiseCache.Cache.ById | hockey_api_client.py:217-227 | after populating, the result is the cached object under the id, or NotFound when there is none; a franchise found has that id |
| FranchiseCache.ByIdTwice | hockey_api_client.py:217-227 | two lookups of one id give the identical object, or both fail with NotFound, whatever the second response holds |
| FranchiseCache.Cache.ByName | hockey_api_client.py:229-242 | after populating, the result is the first cached franchise whose team name compares equal to the query, or NotFound when there is none |
| FranchiseCache.FindByName | hockey_api_client.py:239-242 | the loop returns the first franchise whose team name compares equal, or NotFound when none does |
| FranchiseCache.FirstNamedUnique | hockey_api_client.py:239-242 | at most one result satisfies the first-match description, so `by_name` is determined |
| FranchiseCache.Cache.ByLocation | hockey_api_client.py:244-252 | after populating, the result is the cached franchises whose location compares equal to the query, in cache order |
| FranchiseCache.SelectByLocation | hockey_api_client.py:252 | the result holds exactly the franchises whose location compares equal to the query |
| FranchiseCache.SelectByLocationAppend | hockey_api_client.py:252 | the selection keeps the original order |
| FranchiseCache.SelectByLocationExtremes | test_hockey_api_client.py:63-65 | with no match the result is the empty list, not an error; when everything matches it is the whole list |
| Lookups.SelectOnly | hockey_api_client.py:98-101 | the selection both `by_id` lookups share: an empty list is NotFound, two or more elements fail to unpack, and a single element is parsed |
| Lookups.ConferenceById | hockey_api_client.py:84-101 | NotFound exactly for an empty list, an unpacking error exactly for two or more elements, otherwise the parse of the single element, through `Lookups.SelectOnly` |
| Lookups.DivisionById | hockey_api_client.py:146-163 | NotFound exactly for an empty list, an unpacking error exactly for two or more elements, otherwise the parse of the single element, through `Lookups.SelectOnly` (lines 160-163 repeat lines 98-101) |
| Lookups.TeamOf | hockey_api_client.py:346-347 | KeyError exactly when the dict has no "franchise" entry; the only other failure is a validation error |
| Lookups.FromObj | hockey_api_client.py:338-349 | "franchise" is deleted from the caller's dict; the result is a new team with the parsed fields that holds the cached franchise of its franchise id, or KeyError, a validation error or NotFound |
| Lookups.TeamById | hockey_api_client.py:367-382 | IndexError on an empty list; otherwise exactly the effect of `from_obj` on the first element |
| Lookups.FromObjs | hockey_api_client.py:351-365 | the cache stays as it was or is populated once from the franchise list; a failure is KeyError, a validation error or NotFound; on success every dict has lost "franchise", and there is one new team per dict, each holding the cached franchise of its id, so teams of one franchise share one franchise object; `Team.by_season` (hockey_api_client.py:384-398) runs the same comprehension |
| Lookups.FranchiseNotDuplicated | test_hockey_api_client.py:92-96 | the franchise of a team fetched by id is the very object `Franchise.by_id` returns for its franchise id |

## Left out

- HTTP requests, `resp.json()` decoding and the lookup of the collection key are not modelled. The list under the key is a parameter.
- The query parameters the id goes into are not modelled, and the records that come back are not checked against the id. The code does not check them either.
- NFKD normalisation and `casefold` are not modelled, because they need Unicode tables. They are the parameter `fold`.
- Pydantic coercion is not modelled: strings into ints, ints into bools and so on. Only values of the exact JSON type are accepted.
- Untyped payloads (`venue`, `teamStats`, `roster` and the other expansions) are only checked to be dicts and are kept raw.
- `possible_expands` and the `expands` arguments only shape requests, so they are not modelled.
- `Conference.all` and `Division.all` are the same parse over a list as the one `Cache.All` models, without a cache, so they are not modelled.
- `Team.all` and `Team.by_season` are modelled only through `Lookups.FromObjs`, their shared list comprehension.
- `Conference.__str__` is not modelled. It returns the name field unchanged.
- The module-level `Conference.by_id(6)` call at import time is not modelled.
- The `Franchises`, `Teams`, `Divisions` and `Conferences` aliases are not modelled.
- A team element that is not a dict is not modelled. Elements arrive as `RawObject` dicts.
- A team object with an inline "franchise" key is never parsed, because `from_obj` always deletes that key first. `Entities.ParseTeam` requires the key to be absent.
- Concurrent access to the class-level cache is not modelled.
- Text.StringEqual: its ensures give only the two consequences in its row. That it holds exactly when the cleaned forms are equal is its definition, and `Text.StringEqualOnAscii` states that equivalence in terms of the folded strings.
- Entities.DisplayNameDetermines: the display name tells location and team name apart only for locations without a space, such as "Boston" but not "New York"; for other locations `Entities.Franchise.ToString` still states where each part stands.
- Lookups.FromObjs: does not state that each team's fields are the parse of its dict, nor which element's failure is returned. `Lookups.FromObj` and `Lookups.TeamById` state both for a single dict; for the list, `Lookups.FromObjs` states the deletion of "franchise", the cache transition, the possible errors, the franchise splice and the sharing.

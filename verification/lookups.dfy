/** The id-scoped lookups of Conference, Division and Team, and the splice that
    gives every team the cached franchise object. The list under the
    response's collection key is handed in as a parameter; the id itself only
    goes into the request, and the records that come back are not checked
    against it. */
module Lookups {
  import opened Outcomes
  import opened Json
  import opened Entities
  import opened FranchiseCache

  /** `if xs == []: raise NotFound` followed by `x, = xs` and `parse_obj(x)`. */
  function SelectOnly<T>(items: seq<Json>, parse: Json -> Result<T>): (r: Result<T>)
    ensures items == [] ==> r == Failure(NotFound)
    ensures |items| > 1 ==> r == Failure(UnpackError)
    ensures |items| == 1 ==> r == parse(items[0])
  {
    if items == [] then Failure(NotFound)
    else if |items| > 1 then Failure(UnpackError)
    else parse(items[0])
  }

  /** `Conference.by_id`: NotFound exactly on an empty list, an unpacking
      failure exactly on two or more elements, and otherwise the one element
      parsed. */
  function ConferenceById(conferences: seq<Json>): (r: Result<Conference>)
    ensures r == Failure(NotFound) <==> conferences == []
    ensures r == Failure(UnpackError) <==> |conferences| > 1
    ensures r.Success? ==> |conferences| == 1 && ParseConference(conferences[0]) == r
    ensures |conferences| == 1 ==> r == ParseConference(conferences[0])
  {
    SelectOnly(conferences, ParseConference)
  }

  /** `Division.by_id`, the same selection over the divisions list. */
  function DivisionById(divisions: seq<Json>): (r: Result<Division>)
    ensures r == Failure(NotFound) <==> divisions == []
    ensures r == Failure(UnpackError) <==> |divisions| > 1
    ensures r.Success? ==> |divisions| == 1 && ParseDivision(divisions[0]) == r
    ensures |divisions| == 1 ==> r == ParseDivision(divisions[0])
  {
    SelectOnly(divisions, ParseDivision)
  }

  /** What parsing makes of a raw team dict: KeyError when it has no
      "franchise" entry to delete, otherwise the parse of the rest. */
  function TeamOf(raw: Object): (r: Result<TeamFields>)
    ensures r == Failure(KeyError) <==> "franchise" !in raw
    ensures r.Failure? ==> r.error in {KeyError, ValidationError}
  {
    if "franchise" !in raw then Failure(KeyError) else ParseTeam(raw - {"franchise"})
  }

  /** `team` holds the cached franchise of its `franchise_id`. */
  ghost predicate Spliced(team: Team, cache: Cache)
    reads team, cache
  {
    && team.fields.franchiseId in cache.franchisesById.entries
    && team.franchise == cache.franchisesById.entries[team.fields.franchiseId]
  }

  /** What `Team.from_obj(obj)` does: it deletes "franchise" from `obj`
      (KeyError when absent), parses the rest (ValidationError), then asks the
      franchise cache for the team's `franchise_id`, which may populate the
      cache from `franchises`; the team it returns is new and holds the very
      cached object. */
  twostate predicate FromObjEffect(obj: RawObject, cache: Cache, franchises: seq<Json>,
                                   new r: Result<Team>, new created: seq<Franchise>)
    reads obj, cache, if r.Success? then {r.value} else {}
  {
    var parsed := TeamOf(old(obj.fields));
    && ("franchise" in old(obj.fields) ==> obj.fields == old(obj.fields) - {"franchise"})
    && ("franchise" !in old(obj.fields) ==> obj.fields == old(obj.fields))
    && (parsed.Failure? ==> r == Failure(parsed.error) && unchanged(cache) && created == [])
    && (parsed.Success? ==>
          && cache.LoadedFrom(franchises, created)
          && (!cache.fetched ==> r == Failure(ValidationError))
          && (cache.fetched && parsed.value.franchiseId !in cache.franchisesById.entries ==>
                r == Failure(NotFound))
          && (cache.fetched && parsed.value.franchiseId in cache.franchisesById.entries ==>
                && r.Success? && fresh(r.value)
                && r.value.fields == parsed.value
                && Spliced(r.value, cache)))
  }

  /** `Team.from_obj`. */
  method FromObj(obj: RawObject, cache: Cache, franchises: seq<Json>)
    returns (r: Result<Team>, ghost created: seq<Franchise>)
    requires cache.Valid()
    modifies obj, cache
    ensures cache.Valid()
    ensures FromObjEffect(obj, cache, franchises, r, created)
    ensures old(cache.fetched) ==> unchanged(cache)
    ensures "franchise" !in obj.fields
    ensures r.Success? ==> fresh(r.value) && Spliced(r.value, cache) && cache.fetched
  {
    created := [];
    if "franchise" !in obj.fields {
      return Failure(KeyError), created;
    }
    obj.fields := obj.fields - {"franchise"};
    var parsed := ParseTeam(obj.fields);
    assert parsed == TeamOf(old(obj.fields));
    if parsed.Failure? {
      return Failure(parsed.error), created;
    }
    var team := new Team(parsed.value);
    var franchise;
    franchise, created := cache.ById(team.fields.franchiseId, franchises);
    assert cache.LoadedFrom(franchises, created);
    if franchise.Failure? {
      return Failure(franchise.error), created;
    }
    team.franchise := franchise.value;
    return Success(team), created;
  }

  /** `Team.by_id`: `from_obj` on the first element of the list, IndexError on
      an empty one; further elements are ignored. */
  method TeamById(teams: seq<RawObject>, cache: Cache, franchises: seq<Json>)
    returns (r: Result<Team>, ghost created: seq<Franchise>)
    requires cache.Valid()
    modifies if teams == [] then {} else {teams[0]}, cache
    ensures cache.Valid()
    ensures teams == [] ==> r == Failure(IndexError) && unchanged(cache)
    ensures teams != [] ==> FromObjEffect(teams[0], cache, franchises, r, created)
    ensures r.Success? ==> fresh(r.value) && Spliced(r.value, cache) && cache.fetched
  {
    if teams == [] {
      return Failure(IndexError), [];
    }
    r, created := FromObj(teams[0], cache, franchises);
  }

  /** What one step of the comprehensions below relies on from `from_obj`:
      the dict loses "franchise", the cache is left alone or populated once,
      and a team returned holds its cached franchise. */
  method FromObjStep(obj: RawObject, cache: Cache, franchises: seq<Json>)
    returns (r: Result<Team>, ghost created: seq<Franchise>)
    requires cache.Valid()
    modifies obj, cache
    ensures cache.Valid()
    ensures old(cache.fetched) ==> unchanged(cache)
    ensures (unchanged(cache) && created == []) || cache.LoadedFrom(franchises, created)
    ensures "franchise" !in obj.fields
    ensures r.Failure? ==> r.error in {KeyError, ValidationError, NotFound}
    ensures r.Success? ==> fresh(r.value) && Spliced(r.value, cache) && cache.fetched
  {
    r, created := FromObj(obj, cache, franchises);
  }

  /** The list comprehension of `Team.all` and `Team.by_season`: `from_obj` on
      every element in turn, the first failure propagating. The cache either
      stays as it was or is populated from `franchises`, once. On success
      every dict has lost its "franchise" entry, and every team is new and
      carries the cached franchise of its `franchise_id`, so teams of one
      franchise share one instance. */
  method FromObjs(teams: seq<RawObject>, cache: Cache, franchises: seq<Json>)
    returns (r: Result<seq<Team>>, ghost created: seq<Franchise>)
    requires cache.Valid()
    modifies teams, cache
    ensures cache.Valid()
    ensures old(cache.fetched) ==> unchanged(cache)
    ensures (unchanged(cache) && created == []) || cache.LoadedFrom(franchises, created)
    ensures r.Failure? ==> r.error in {KeyError, ValidationError, NotFound}
    ensures r.Success? ==> |r.value| == |teams| && (teams != [] ==> cache.fetched)
    ensures r.Success? ==> forall i :: 0 <= i < |teams| ==> "franchise" !in teams[i].fields
    ensures r.Success? ==> forall i :: 0 <= i < |r.value| ==> fresh(r.value[i]) && Spliced(r.value[i], cache)
    ensures r.Success? ==> forall i, j ::
              (0 <= i < |r.value| && 0 <= j < |r.value| &&
               r.value[i].fields.franchiseId == r.value[j].fields.franchiseId) ==>
                r.value[i].franchise == r.value[j].franchise
  {
    var ts: seq<Team> := [];
    created := [];
    var i := 0;
    while i < |teams|
      invariant 0 <= i <= |teams| && |ts| == i
      invariant cache.Valid()
      invariant old(cache.fetched) ==> unchanged(cache)
      invariant (unchanged(cache) && created == []) || (cache.fetched && cache.LoadedFrom(franchises, created))
      invariant i > 0 ==> cache.fetched
      invariant forall j :: 0 <= j < i ==> "franchise" !in teams[j].fields
      invariant forall j :: 0 <= j < i ==> fresh(ts[j]) && Spliced(ts[j], cache)
    {
      var t;
      ghost var made;
      ghost var wasFetched := cache.fetched;
      label before:
      t, made := FromObjStep(teams[i], cache, franchises);
      forall j | 0 <= j <= i
        ensures "franchise" !in teams[j].fields
      {
        if teams[j] != teams[i] {
          assert teams[j].fields == old@before(teams[j].fields);
        }
      }
      if !wasFetched {
        created := made;
      }
      if t.Failure? {
        return Failure(t.error), created;
      }
      ts := ts + [t.value];
      i := i + 1;
    }
    return Success(ts), created;
  }

  /** A team fetched by id and the franchise fetched by the team's
      `franchise_id` afterwards are one object: the team does not carry a
      duplicate of the cached franchise, whatever a second franchise response
      would have held. */
  method FranchiseNotDuplicated(teams: seq<RawObject>, cache: Cache, franchises: seq<Json>,
                                id: int, franchisesAgain: seq<Json>)
    returns (team: Result<Team>, franchise: Result<Franchise>)
    requires cache.Valid()
    modifies if teams == [] then {} else {teams[0]}, cache
    ensures team.Success? && team.value.fields.franchiseId == id ==>
              franchise.Success? && team.value.franchise == franchise.value
  {
    ghost var created;
    team, created := TeamById(teams, cache, franchises);
    franchise, created := cache.ById(id, franchisesAgain);
  }
}

/** The process-wide franchise cache: the class-level `_fetched` flag and
    `franchises_by_id` dict of `Franchise`, and the lookups that fill it on
    first use and read it afterwards. The franchise list the API would return
    is handed to each operation as `response`; it is read only while the cache
    is not yet populated. */
module FranchiseCache {
  import opened Outcomes
  import opened Json
  import opened Text
  import opened Entities
  import OrderedMap

  type Dict<V> = OrderedMap.Dict<int, V>

  // ------------------------------------------------------ specification of all()

  /** What the populating loop of `all()` gets out of `response`: the parsed
      franchises before the first object that fails to parse, and whether no
      object failed. */
  datatype Parsed = Parsed(items: seq<FranchiseFields>, complete: bool)

  function ParsePrefix(response: seq<Json>): (r: Parsed)
    ensures |r.items| <= |response|
    ensures r.complete ==> |r.items| == |response|
    ensures !r.complete ==> |r.items| < |response| && ParseFranchise(response[|r.items|]).Failure?
  {
    if response == [] then Parsed([], true)
    else
      var init := response[..|response| - 1];
      var p := ParsePrefix(init);
      assert forall i :: 0 <= i < |init| ==> init[i] == response[i];
      if !p.complete then p
      else match ParseFranchise(response[|response| - 1])
        case Success(f) => Parsed(p.items + [f], true)
        case Failure(_) => Parsed(p.items, false)
  }

  /** Every parsed franchise is the parse of the object at its position. */
  lemma {:induction false} ParsePrefixParses(response: seq<Json>, i: nat)
    requires i < |ParsePrefix(response).items|
    ensures ParseFranchise(response[i]) == Success(ParsePrefix(response).items[i])
    decreases |response|
  {
    var init := response[..|response| - 1];
    var p := ParsePrefix(init);
    if i < |p.items| {
      ParsePrefixParses(init, i);
      assert init[i] == response[i];
    }
  }

  /** Parsing stops at the first object that fails: what follows it is never read. */
  lemma {:induction false} ParsePrefixStops(response: seq<Json>, i: nat)
    requires i < |response| && ParsePrefix(response[..i]).complete
    requires ParseFranchise(response[i]).Failure?
    ensures ParsePrefix(response) == Parsed(ParsePrefix(response[..i]).items, false)
    decreases |response|
  {
    var init := response[..|response| - 1];
    if i == |response| - 1 {
      assert init == response[..i];
    } else {
      assert init[..i] == response[..i] && init[i] == response[i];
      ParsePrefixStops(init, i);
    }
  }

  /** Parsing one more object that parses extends the prefix by it. */
  lemma ParsePrefixExtends(response: seq<Json>, i: nat, f: FranchiseFields)
    requires i < |response| && ParsePrefix(response[..i]).complete
    requires ParseFranchise(response[i]) == Success(f)
    ensures ParsePrefix(response[..i + 1]) == Parsed(ParsePrefix(response[..i]).items + [f], true)
  {
    assert response[..i + 1][..i] == response[..i];
  }

  /** Every key maps to a franchise with that id. */
  ghost predicate IdsConsistent(d: Dict<Franchise>) {
    forall k :: k in d.entries ==> d.entries[k].fields.id == k
  }

  function Ids(fs: seq<Franchise>): set<int> {
    set i | 0 <= i < |fs| :: fs[i].fields.id
  }

  /** `franchises_by_id[franchise.id] = franchise` for each franchise in turn. */
  function StoreAll(d: Dict<Franchise>, fs: seq<Franchise>): (r: Dict<Franchise>)
    ensures OrderedMap.Valid(d) ==> OrderedMap.Valid(r)
    ensures IdsConsistent(d) ==> IdsConsistent(r)
    ensures r.entries.Keys == d.entries.Keys + Ids(fs)
  {
    if fs == [] then d
    else
      var init, last := fs[..|fs| - 1], fs[|fs| - 1];
      assert Ids(fs) == Ids(init) + {last.fields.id} by {
        assert forall i :: 0 <= i < |init| ==> init[i] == fs[i];
      }
      OrderedMap.Put(StoreAll(d, init), last.fields.id, last)
  }

  lemma StoreAllSnoc(d: Dict<Franchise>, fs: seq<Franchise>, f: Franchise)
    ensures StoreAll(d, fs + [f]) == OrderedMap.Put(StoreAll(d, fs), f.fields.id, f)
  {
    assert (fs + [f])[..|fs|] == fs;
  }

  /** Later duplicates overwrite earlier ones: an id ends up holding the last
      franchise stored with that id. */
  lemma {:induction false} StoreAllLastWins(d: Dict<Franchise>, fs: seq<Franchise>, i: nat)
    requires i < |fs|
    requires forall j :: i < j < |fs| ==> fs[j].fields.id != fs[i].fields.id
    ensures fs[i].fields.id in StoreAll(d, fs).entries && StoreAll(d, fs).entries[fs[i].fields.id] == fs[i]
  {
    if i < |fs| - 1 {
      var init := fs[..|fs| - 1];
      assert forall j :: i < j < |init| ==> init[j] == fs[j];
      StoreAllLastWins(d, init, i);
    }
  }

  /** An id that no stored franchise carries keeps the franchise object it
      held before, if any. */
  lemma {:induction false} StoreAllUntouched(d: Dict<Franchise>, fs: seq<Franchise>, k: int)
    requires k !in Ids(fs)
    ensures k in StoreAll(d, fs).entries <==> k in d.entries
    ensures k in d.entries ==> StoreAll(d, fs).entries[k] == d.entries[k]
  {
    if fs != [] {
      var init := fs[..|fs| - 1];
      assert Ids(init) <= Ids(fs) by {
        assert forall i :: 0 <= i < |init| ==> init[i] == fs[i];
      }
      assert fs[|fs| - 1].fields.id in Ids(fs);
      StoreAllUntouched(d, init, k);
    }
  }

  /** Keys already present keep their places at the front; storing only appends. */
  lemma {:induction false} StoreAllKeepsOrder(d: Dict<Franchise>, fs: seq<Franchise>)
    ensures |d.keys| <= |StoreAll(d, fs).keys| && StoreAll(d, fs).keys[..|d.keys|] == d.keys
  {
    if fs != [] {
      StoreAllKeepsOrder(d, fs[..|fs| - 1]);
    }
  }

  // -------------------------------------------------------------- the cache

  class Cache {
    var fetched: bool
    var franchisesById: Dict<Franchise>

    /** The cache invariant: an insertion-ordered map in which every key maps
        to a franchise with that id. */
    ghost predicate Valid()
      reads this
    {
      OrderedMap.Valid(franchisesById) && IdsConsistent(franchisesById)
    }

    /** The state at process start: not fetched, nothing cached. */
    constructor ()
      ensures Valid() && !fetched && franchisesById == OrderedMap.Empty()
    {
      fetched := false;
      franchisesById := OrderedMap.Empty();
    }

    /** `list(franchises_by_id.values())`. */
    function Values(): seq<Franchise>
      reads this
      requires Valid()
    {
      OrderedMap.Values(franchisesById)
    }

    /** The effect of `all()` on the cache, `created` being the franchise
        objects it parsed, in order. Once fetched, nothing changes. Before
        that, each franchise parsed before the first failure is a new object
        stored under its id, later ones overwriting earlier ones, and the flag
        is set only if every object of the response parsed. */
    twostate predicate LoadedFrom(response: seq<Json>, new created: seq<Franchise>)
      reads this
    {
      if old(fetched) then fetched && franchisesById == old(franchisesById) && created == []
      else
        var p := ParsePrefix(response);
        && fetched == p.complete
        && |created| == |p.items|
        && (forall i :: 0 <= i < |created| ==> fresh(created[i]) && created[i].fields == p.items[i])
        && franchisesById == StoreAll(old(franchisesById), created)
    }

    /** `Franchise.all()`. */
    method All(response: seq<Json>) returns (r: Result<seq<Franchise>>, ghost created: seq<Franchise>)
      requires Valid()
      modifies this
      ensures Valid() && LoadedFrom(response, created)
      ensures old(fetched) ==> unchanged(this)
      ensures fetched ==> r == Success(Values())
      ensures !fetched ==> r == Failure(ValidationError)
    {
      created := [];
      if fetched {
        return Success(Values()), created;
      }
      var i := 0;
      ghost var stored: seq<FranchiseFields> := [];
      while i < |response|
        invariant 0 <= i <= |response|
        invariant Valid() && !fetched
        invariant ParsePrefix(response[..i]) == Parsed(stored, true)
        invariant |created| == i == |stored|
        invariant forall j :: 0 <= j < i ==> fresh(created[j]) && created[j].fields == stored[j]
        invariant franchisesById == StoreAll(old(franchisesById), created)
      {
        var parsed := ParseFranchise(response[i]);
        if parsed.Failure? {
          ParsePrefixStops(response, i);
          return Failure(ValidationError), created;
        }
        ParsePrefixExtends(response, i, parsed.value);
        var franchise := new Franchise(parsed.value);
        StoreAllSnoc(old(franchisesById), created, franchise);
        franchisesById := OrderedMap.Put(franchisesById, franchise.fields.id, franchise);
        created := created + [franchise];
        stored := stored + [parsed.value];
        i := i + 1;
      }
      assert response[..i] == response;
      fetched := true;
      return Success(Values()), created;
    }

    /** `Franchise.by_id(id)`: populates the cache first if needed, then looks
        the id up. */
    method ById(id: int, response: seq<Json>) returns (r: Result<Franchise>, ghost created: seq<Franchise>)
      requires Valid()
      modifies this
      ensures Valid() && LoadedFrom(response, created)
      ensures old(fetched) ==> unchanged(this)
      ensures !fetched ==> r == Failure(ValidationError)
      ensures fetched ==> r == if id in franchisesById.entries then Success(franchisesById.entries[id])
                               else Failure(NotFound)
      ensures r.Success? ==> r.value.fields.id == id
    {
      created := [];
      if !fetched {
        var all;
        all, created := All(response);
        if all.Failure? {
          return Failure(all.error), created;
        }
      }
      if id in franchisesById.entries {
        r := Success(franchisesById.entries[id]);
      } else {
        r := Failure(NotFound);
      }
    }

    /** `Franchise.by_name(name)`: the first franchise of `all()` whose team
        name matches. */
    method ByName(name: string, fold: string -> string, response: seq<Json>)
      returns (r: Result<Franchise>, ghost created: seq<Franchise>)
      requires Valid()
      modifies this
      ensures Valid() && LoadedFrom(response, created)
      ensures old(fetched) ==> unchanged(this)
      ensures !fetched ==> r == Failure(ValidationError)
      ensures fetched ==> IsFirstNamed(Values(), name, fold, r)
    {
      var all;
      all, created := All(response);
      if all.Failure? {
        return Failure(all.error), created;
      }
      r := FindByName(all.value, name, fold);
    }

    /** `Franchise.by_location(location)`: every franchise of `all()` whose
        location matches. */
    method ByLocation(location: string, fold: string -> string, response: seq<Json>)
      returns (r: Result<seq<Franchise>>, ghost created: seq<Franchise>)
      requires Valid()
      modifies this
      ensures Valid() && LoadedFrom(response, created)
      ensures old(fetched) ==> unchanged(this)
      ensures !fetched ==> r == Failure(ValidationError)
      ensures fetched ==> r == Success(SelectByLocation(Values(), location, fold))
    {
      var all;
      all, created := All(response);
      if all.Failure? {
        return Failure(all.error), created;
      }
      r := Success(SelectByLocation(all.value, location, fold));
    }
  }

  // ------------------------------------------------------ by_name, by_location

  /** `r` is the first franchise of `fs` whose team name string-equals `name`,
      or NotFound when there is none. */
  ghost predicate IsFirstNamed(fs: seq<Franchise>, name: string, fold: string -> string, r: Result<Franchise>) {
    match r
    case Failure(e) =>
      e == NotFound && forall i :: 0 <= i < |fs| ==> !StringEqual(fold, fs[i].fields.teamName, name)
    case Success(f) =>
      exists i :: 0 <= i < |fs| && fs[i] == f && StringEqual(fold, fs[i].fields.teamName, name)
                  && forall j :: 0 <= j < i ==> !StringEqual(fold, fs[j].fields.teamName, name)
  }

  /** The search loop of `by_name`. */
  method FindByName(fs: seq<Franchise>, name: string, fold: string -> string) returns (r: Result<Franchise>)
    ensures IsFirstNamed(fs, name, fold, r)
  {
    var i := 0;
    while i < |fs|
      invariant 0 <= i <= |fs|
      invariant forall j :: 0 <= j < i ==> !StringEqual(fold, fs[j].fields.teamName, name)
    {
      if StringEqual(fold, fs[i].fields.teamName, name) {
        return Success(fs[i]);
      }
      i := i + 1;
    }
    return Failure(NotFound);
  }

  /** At most one result satisfies `IsFirstNamed`: `by_name` is determined. */
  lemma FirstNamedUnique(fs: seq<Franchise>, name: string, fold: string -> string, r1: Result<Franchise>, r2: Result<Franchise>)
    requires IsFirstNamed(fs, name, fold, r1) && IsFirstNamed(fs, name, fold, r2)
    ensures r1 == r2
  {
    if r1.Success? && r2.Success? {
      var i1 :| 0 <= i1 < |fs| && fs[i1] == r1.value && StringEqual(fold, fs[i1].fields.teamName, name)
                && forall j :: 0 <= j < i1 ==> !StringEqual(fold, fs[j].fields.teamName, name);
      var i2 :| 0 <= i2 < |fs| && fs[i2] == r2.value && StringEqual(fold, fs[i2].fields.teamName, name)
                && forall j :: 0 <= j < i2 ==> !StringEqual(fold, fs[j].fields.teamName, name);
      assert i1 == i2;
    }
  }

  /** The list comprehension of `by_location`. */
  function SelectByLocation(fs: seq<Franchise>, location: string, fold: string -> string): (r: seq<Franchise>)
    ensures |r| <= |fs|
    ensures forall i :: 0 <= i < |r| ==> r[i] in fs && StringEqual(fold, r[i].fields.location, location)
    ensures forall i :: 0 <= i < |fs| && StringEqual(fold, fs[i].fields.location, location) ==> fs[i] in r
  {
    if fs == [] then []
    else
      (if StringEqual(fold, fs[0].fields.location, location) then [fs[0]] else [])
      + SelectByLocation(fs[1..], location, fold)
  }

  /** Selection keeps the original order: selecting from a concatenation is
      concatenating the selections. */
  lemma {:induction false} SelectByLocationAppend(a: seq<Franchise>, b: seq<Franchise>, location: string, fold: string -> string)
    ensures SelectByLocation(a + b, location, fold) == SelectByLocation(a, location, fold) + SelectByLocation(b, location, fold)
  {
    if a == [] {
      assert a + b == b;
    } else {
      assert (a + b)[0] == a[0] && (a + b)[1..] == a[1..] + b;
      SelectByLocationAppend(a[1..], b, location, fold);
    }
  }

  /** No match gives the empty list, not an error; all matching gives the whole list. */
  lemma {:induction false} SelectByLocationExtremes(fs: seq<Franchise>, location: string, fold: string -> string)
    ensures (forall i :: 0 <= i < |fs| ==> !StringEqual(fold, fs[i].fields.location, location)) ==>
              SelectByLocation(fs, location, fold) == []
    ensures (forall i :: 0 <= i < |fs| ==> StringEqual(fold, fs[i].fields.location, location)) ==>
              SelectByLocation(fs, location, fold) == fs
  {
    if fs != [] {
      SelectByLocationExtremes(fs[1..], location, fold);
      assert forall i :: 0 <= i < |fs[1..]| ==> fs[1..][i] == fs[i + 1];
    }
  }

  // ------------------------------------------------------ the cache over time

  /** Two `by_id` lookups of one id, with the cache populating at the first or
      already populated, give the identical franchise object, whatever the
      second response would have been. */
  method ByIdTwice(cache: Cache, id: int, response1: seq<Json>, response2: seq<Json>)
    returns (r1: Result<Franchise>, r2: Result<Franchise>)
    requires cache.Valid()
    modifies cache
    ensures r1.Success? ==> r2 == r1
    ensures r1 == Failure(NotFound) ==> r2 == Failure(NotFound)
  {
    ghost var created;
    r1, created := cache.ById(id, response1);
    r2, created := cache.ById(id, response2);
  }
}

/**
 * The weather store: tracked cities, the selected forecast, favourites,
 * the unit preference, the status of the last "fetch current" action and
 * its error, plus the browser's local storage that the store reads at
 * start-up and writes on every preference change and cache fill.
 *
 * The reducers change the state record in place; here they are methods of
 * the class `Store`. `AddFav`, `RemoveFav`, `FetchCurrentFulfilled`,
 * `RunFetchCurrent` and the two `Dispatch` methods are tied to the pure
 * functions `Added`, `Without`, `FoldIn`, `FetchCurrentRun` and
 * `FetchForecastRun`; the other reducers state their new fields directly.
 * The lemmas prove properties of `Added`, `Without`, `FoldIn` and
 * `FetchCurrentRun`; `FetchForecastRun`'s are in its own contract.
 *
 * The clock and the weather service are parameters: `now` and `later` are
 * the readings of the clock the "fetch current" thunk may take (before the
 * freshness test, only when an entry exists, and after the remote call
 * returns), and `remote` is what the service answers for a query.
 */
module WeatherSlice {
  import opened Wrappers
  import opened Text
  import opened WeatherData

  /** Namespace of the cache keys in local storage. */
  const CachePrefix: string := "wa_cache_v1:"
  /** Freshness window of a cache entry, in milliseconds. */
  const Ttl: int := 55 * 1000
  /** Local-storage key of the favourites list. */
  const FavsKey: string := "wa_favs"
  /** Local-storage key of the unit preference. */
  const UnitKey: string := "wa_unit"
  const DefaultUnit: string := "C"
  /** `days` of a forecast request when the caller gives none. */
  const DefaultForecastDays: int := 7
  /** Rejection value when the error carries no message. */
  const FallbackMessage: string := "error"

  /** `{data, ts}`: a cached current-conditions body and the time it was written. */
  datatype CacheEntry = CacheEntry(data: City, ts: int)

  /**
   * A value in local storage: the raw unit string, the favourites list, or
   * a cache entry (the JSON encoding of the last two is not modelled).
   */
  datatype Stored = Raw(text: string) | NameList(names: seq<string>) | Cached(entry: CacheEntry)

  type Storage = map<string, Stored>

  datatype Status = Idle | Loading | Succeeded | Failed

  // ---------------------------------------------------------------------
  // Cache key and freshness

  /** `cacheKeyFor(q)`: the prefix followed by the lower-cased query. */
  function CacheKeyFor(q: string): (k: string)
    ensures StartsWith(k, CachePrefix)
    ensures |k| == |CachePrefix| + |q|
    ensures forall i :: 0 <= i < |q| ==> k[|CachePrefix| + i] == LowerChar(q[i])
  {
    CachePrefix + Lower(q)
  }

  /** Two queries share a cache entry exactly when they differ only in letter case. */
  lemma CacheKeySameIff(a: string, b: string)
    ensures CacheKeyFor(a) == CacheKeyFor(b) <==> CaseVariants(a, b)
  {
    LowerEqualIff(a, b);
    if CacheKeyFor(a) == CacheKeyFor(b) {
      assert Lower(a) == CacheKeyFor(a)[|CachePrefix|..];
      assert Lower(b) == CacheKeyFor(b)[|CachePrefix|..];
    }
  }

  /** A cache key is never one of the two preference keys. */
  lemma CacheKeyNotPreference(q: string)
    ensures CacheKeyFor(q) != UnitKey && CacheKeyFor(q) != FavsKey
  {
  }

  /** `readCache(key)`: the entry under `key`, or nothing when the key is missing. */
  function ReadCache(storage: Storage, key: string): (r: Option<CacheEntry>)
    ensures r.Some? <==> key in storage && storage[key].Cached?
    ensures r.Some? ==> storage[key] == Cached(r.value)
  {
    if key in storage && storage[key].Cached? then Some(storage[key].entry) else None
  }

  /**
   * `writeCache(key, entry)`: stores the entry, unless the write fails
   * (`fits` false: quota or serialisation error), which is swallowed and
   * leaves storage as it was.
   */
  function WriteCache(storage: Storage, key: string, entry: CacheEntry, fits: bool): (r: Storage)
    ensures fits ==> key in r && r[key] == Cached(entry)
    ensures forall k :: k != key ==> (k in r <==> k in storage)
    ensures forall k :: k in storage && k != key ==> r[k] == storage[k]
    ensures !fits ==> r == storage
  {
    if fits then storage[key := Cached(entry)] else storage
  }

  /** `err.message || "error"`: the rejection value of a failed thunk. */
  function RejectMessage(message: string): (r: string)
    ensures r != ""
    ensures message != "" ==> r == message
    ensures message == "" ==> r == FallbackMessage
  {
    if message == "" then FallbackMessage else message
  }

  /** What one run of the "fetch current" thunk produces. */
  datatype FetchOutcome = FetchOutcome(payload: Result<City, string>, remoteCalled: bool, storage: Storage)

  /**
   * The "fetch current" thunk as a function of local storage, the query,
   * the clock before the cache check (`now`), the service, the clock after
   * the service answered (`later`) and whether the cache write succeeds.
   */
  function FetchCurrentRun(storage: Storage, q: string, now: int, remote: string -> Remote<City>, later: int, fits: bool): (o: FetchOutcome)
    ensures var hit := ReadCache(storage, CacheKeyFor(q));
      o.remoteCalled <==> !(hit.Some? && now - hit.value.ts < Ttl)
    ensures !o.remoteCalled ==> o.storage == storage && o.payload == Ok(ReadCache(storage, CacheKeyFor(q)).value.data)
    ensures o.remoteCalled ==> (o.payload.Ok? <==> remote(q).Answer?)
    ensures o.payload.Err? ==> o.payload.error != "" && o.storage == storage
    ensures o.remoteCalled && o.payload.Ok? ==>
      o.payload.value == remote(q).body &&
      o.storage == WriteCache(storage, CacheKeyFor(q), CacheEntry(remote(q).body, later), fits)
  {
    var key := CacheKeyFor(q);
    var hit := ReadCache(storage, key);
    if hit.Some? && now - hit.value.ts < Ttl then
      FetchOutcome(Ok(hit.value.data), false, storage)
    else
      match remote(q)
      case Answer(body) => FetchOutcome(Ok(body), true, WriteCache(storage, key, CacheEntry(body, later), fits))
      case Failure(message) => FetchOutcome(Err(RejectMessage(message)), true, storage)
  }

  /** A fresh entry (younger than 55000 ms) is returned without calling the service or writing. */
  lemma FetchCurrentFreshHit(storage: Storage, q: string, now: int, remote: string -> Remote<City>, later: int, fits: bool, entry: CacheEntry)
    requires CacheKeyFor(q) in storage && storage[CacheKeyFor(q)] == Cached(entry)
    requires now - entry.ts < Ttl
    ensures var o := FetchCurrentRun(storage, q, now, remote, later, fits);
      o.payload == Ok(entry.data) && !o.remoteCalled && o.storage == storage
  {
  }

  /**
   * A missing or stale entry (55000 ms old or more) makes the thunk call the
   * service with the query as given: on success the body is returned and
   * cached with the later clock reading; on failure the thunk rejects with
   * the message (or "error") and storage is untouched.
   */
  lemma FetchCurrentMiss(storage: Storage, q: string, now: int, remote: string -> Remote<City>, later: int, fits: bool)
    requires var hit := ReadCache(storage, CacheKeyFor(q)); hit.None? || now - hit.value.ts >= Ttl
    ensures var o := FetchCurrentRun(storage, q, now, remote, later, fits);
      o.remoteCalled &&
      match remote(q)
      case Answer(body) =>
        o.payload == Ok(body) &&
        (fits ==> o.storage == storage[CacheKeyFor(q) := Cached(CacheEntry(body, later))]) &&
        (!fits ==> o.storage == storage)
      case Failure(message) =>
        o.payload == Err(RejectMessage(message)) && o.payload.error != "" && o.storage == storage
  {
  }

  /**
   * The thunk writes at most the cache key of its query: the unit, the
   * favourites and every other cache entry are left as they were.
   */
  lemma FetchCurrentOnlyWritesItsKey(storage: Storage, q: string, now: int, remote: string -> Remote<City>, later: int, fits: bool)
    ensures var o := FetchCurrentRun(storage, q, now, remote, later, fits);
      (forall k :: k != CacheKeyFor(q) ==> (k in o.storage <==> k in storage)) &&
      (forall k :: k in storage && k != CacheKeyFor(q) ==> o.storage[k] == storage[k]) &&
      (UnitKey in o.storage <==> UnitKey in storage) && (FavsKey in o.storage <==> FavsKey in storage) &&
      (UnitKey in storage ==> o.storage[UnitKey] == storage[UnitKey]) &&
      (FavsKey in storage ==> o.storage[FavsKey] == storage[FavsKey])
  {
    CacheKeyNotPreference(q);
  }

  /**
   * Two fetches for the same query up to letter case: when the first one
   * filled the cache and the second one looks within 55000 ms of that
   * write, the second one calls nothing, writes nothing and returns the
   * same body. At 55000 ms or later it calls the service again.
   */
  lemma RepeatedFetchUsesCache(storage: Storage, q1: string, q2: string, now1: int, remote1: string -> Remote<City>, later1: int,
                               now2: int, remote2: string -> Remote<City>, later2: int, fits2: bool)
    requires CaseVariants(q1, q2)
    requires var hit := ReadCache(storage, CacheKeyFor(q1)); hit.None? || now1 - hit.value.ts >= Ttl
    requires remote1(q1).Answer?
    ensures var o1 := FetchCurrentRun(storage, q1, now1, remote1, later1, true);
      var o2 := FetchCurrentRun(o1.storage, q2, now2, remote2, later2, fits2);
      o1.remoteCalled &&
      (now2 - later1 < Ttl ==> !o2.remoteCalled && o2.payload == o1.payload && o2.storage == o1.storage) &&
      (now2 - later1 >= Ttl ==> o2.remoteCalled)
  {
    CacheKeySameIff(q1, q2);
  }

  // ---------------------------------------------------------------------
  // Favourites

  predicate NoDuplicates(s: seq<string>) {
    forall i, j :: 0 <= i < j < |s| ==> s[i] != s[j]
  }

  /** `a` is `b` with some elements deleted, the rest in the same order. */
  predicate IsSubsequence(a: seq<string>, b: seq<string>)
    decreases |b|
  {
    if a == [] then true
    else if b == [] then false
    else (a[0] == b[0] && IsSubsequence(a[1..], b[1..])) || IsSubsequence(a, b[1..])
  }

  /** `addFav`: appends the name unless it is already present. */
  function Added(favs: seq<string>, name: string): (r: seq<string>)
    ensures name in r
    ensures forall x :: x in r <==> x in favs || x == name
    ensures name in favs ==> r == favs
    ensures name !in favs ==> r == favs + [name]
  {
    if name in favs then favs else favs + [name]
  }

  /** `addFav` keeps a list free of duplicates. */
  lemma AddedKeepsNoDuplicates(favs: seq<string>, name: string)
    requires NoDuplicates(favs)
    ensures NoDuplicates(Added(favs, name))
  {
  }

  /** `removeFav`: `favs.filter(f => f !== name)`. */
  function Without(favs: seq<string>, name: string): (r: seq<string>)
    ensures name !in r
    ensures forall x :: x != name ==> (x in r <==> x in favs)
    ensures |r| <= |favs|
    ensures name !in favs ==> r == favs
  {
    if favs == [] then []
    else if favs[0] == name then Without(favs[1..], name)
    else [favs[0]] + Without(favs[1..], name)
  }

  /** `removeFav` deletes every occurrence and nothing else, keeping the order of the rest. */
  lemma {:induction false} WithoutKeepsOrder(favs: seq<string>, name: string)
    ensures IsSubsequence(Without(favs, name), favs)
    ensures multiset(Without(favs, name)) == multiset(favs)[name := 0]
  {
    if favs != [] {
      WithoutKeepsOrder(favs[1..], name);
      assert favs == [favs[0]] + favs[1..];
      if favs[0] != name {
        assert ([favs[0]] + Without(favs[1..], name))[1..] == Without(favs[1..], name);
      }
    }
  }

  /** In a list without duplicates, removing the name at index k closes the gap at k. */
  lemma {:induction false} WithoutAt(favs: seq<string>, k: nat)
    requires NoDuplicates(favs) && k < |favs|
    ensures Without(favs, favs[k]) == favs[..k] + favs[k + 1..]
  {
    if k > 0 {
      WithoutAt(favs[1..], k - 1);
      assert favs[1..][..k - 1] == favs[1..k];
      assert favs[1..][k..] == favs[k + 1..];
      assert favs[..k] == [favs[0]] + favs[1..k];
    } else {
      assert favs[k] !in favs[1..];
    }
  }

  /** Removing a name that was just appended to a list without it gives the list back. */
  lemma {:induction false} WithoutAppended(favs: seq<string>, name: string)
    requires name !in favs
    ensures Without(favs + [name], name) == favs
  {
    if favs != [] {
      assert (favs + [name])[1..] == favs[1..] + [name];
      WithoutAppended(favs[1..], name);
      assert favs == [favs[0]] + favs[1..];
    }
  }

  /** The favourite toggle of the dashboard: remove when present, add otherwise. */
  function Toggle(favs: seq<string>, name: string): (r: seq<string>)
    ensures name in r <==> name !in favs
    ensures forall x :: x != name ==> (x in r <==> x in favs)
  {
    if name in favs then Without(favs, name) else Added(favs, name)
  }

  /** Toggling a name absent from the list twice gives the original list back. */
  lemma ToggleTwiceAbsent(favs: seq<string>, name: string)
    requires name !in favs
    ensures Toggle(Toggle(favs, name), name) == favs
  {
    WithoutAppended(favs, name);
  }

  /** Closing the gap at index k keeps a list free of duplicates. */
  lemma RemoveAtKeepsNoDuplicates(favs: seq<string>, k: nat)
    requires NoDuplicates(favs) && k < |favs|
    ensures NoDuplicates(favs[..k] + favs[k + 1..])
  {
    var w := favs[..k] + favs[k + 1..];
    forall i, j | 0 <= i < j < |w| ensures w[i] != w[j] {
      var i' := if i < k then i else i + 1;
      var j' := if j < k then j else j + 1;
      assert w[i] == favs[i'] && w[j] == favs[j'];
    }
  }

  /** `removeFav` keeps a list free of duplicates. */
  lemma WithoutKeepsNoDuplicates(favs: seq<string>, name: string)
    requires NoDuplicates(favs)
    ensures NoDuplicates(Without(favs, name))
  {
    if name in favs {
      var k :| 0 <= k < |favs| && favs[k] == name;
      WithoutAt(favs, k);
      RemoveAtKeepsNoDuplicates(favs, k);
    }
  }

  /**
   * Toggling a present name twice in a list without duplicates keeps the
   * same names, still without duplicates, with that name moved to the end.
   */
  lemma ToggleTwicePresent(favs: seq<string>, name: string)
    requires NoDuplicates(favs) && name in favs
    ensures var r := Toggle(Toggle(favs, name), name);
      |r| == |favs| && NoDuplicates(r) && r[|r| - 1] == name &&
      (forall x :: x in r <==> x in favs) &&
      r == Without(favs, name) + [name]
  {
    var k :| 0 <= k < |favs| && favs[k] == name;
    WithoutAt(favs, k);
    RemoveAtKeepsNoDuplicates(favs, k);
    var w := Without(favs, name);
    assert Toggle(favs, name) == w;
    assert Toggle(w, name) == w + [name];
    AddedKeepsNoDuplicates(w, name);
  }

  // ---------------------------------------------------------------------
  // Preferences persisted in local storage

  /** The start-up unit: `localStorage.getItem("wa_unit") || "C"`. */
  function StoredUnit(storage: Storage): (u: string)
    ensures u != ""
    ensures UnitKey !in storage ==> u == DefaultUnit
    ensures UnitKey in storage && storage[UnitKey].Raw? && storage[UnitKey].text != "" ==> u == storage[UnitKey].text
    ensures !(UnitKey in storage && storage[UnitKey].Raw? && storage[UnitKey].text != "") ==> u == DefaultUnit
  {
    if UnitKey in storage && storage[UnitKey].Raw? && storage[UnitKey].text != "" then storage[UnitKey].text else DefaultUnit
  }

  /** The start-up favourites: the stored list, or `[]` when there is none. */
  function StoredFavorites(storage: Storage): (f: seq<string>)
    ensures FavsKey !in storage ==> f == []
    ensures FavsKey in storage && storage[FavsKey].NameList? ==> f == storage[FavsKey].names
    ensures !(FavsKey in storage && storage[FavsKey].NameList?) ==> f == []
  {
    if FavsKey in storage && storage[FavsKey].NameList? then storage[FavsKey].names else []
  }

  // ---------------------------------------------------------------------
  // Folding a fetched city into the tracked list

  predicate HasName(cities: seq<City>, name: string) {
    exists j :: 0 <= j < |cities| && cities[j].location.name == name
  }

  /** Every name occurs at most once in the list. */
  predicate NamesUnique(cities: seq<City>) {
    forall i, j :: 0 <= i < j < |cities| ==> cities[i].location.name != cities[j].location.name
  }

  /** `findIndex(c => c.location.name === name)`: the first index with that name, or -1. */
  function FindByName(cities: seq<City>, name: string): (k: int)
    ensures -1 <= k < |cities|
    ensures k >= 0 ==> cities[k].location.name == name
    ensures k >= 0 ==> forall j :: 0 <= j < k ==> cities[j].location.name != name
    ensures k == -1 <==> !HasName(cities, name)
  {
    if cities == [] then -1
    else if cities[0].location.name == name then 0
    else
      var k := FindByName(cities[1..], name);
      if k == -1 then -1 else k + 1
  }

  /**
   * The fold-in of a fulfilled "fetch current": the first city with the
   * payload's name is replaced where it stands; a new name is put in front.
   */
  function FoldIn(cities: seq<City>, c: City): (r: seq<City>)
    ensures HasName(cities, c.location.name) ==>
      var k := FindByName(cities, c.location.name);
      |r| == |cities| && r[k] == c && forall j :: 0 <= j < |r| && j != k ==> r[j] == cities[j]
    ensures !HasName(cities, c.location.name) ==>
      |r| == |cities| + 1 && r[0] == c && forall j :: 0 <= j < |cities| ==> r[j + 1] == cities[j]
  {
    var k := FindByName(cities, c.location.name);
    if k >= 0 then cities[k := c] else [c] + cities
  }

  /**
   * Folding keeps names unique, the payload is then the one city with its
   * name, and the other names tracked are the same as before.
   */
  lemma FoldInKeepsNamesUnique(cities: seq<City>, c: City)
    requires NamesUnique(cities)
    ensures var r := FoldIn(cities, c);
      NamesUnique(r) && c in r &&
      (forall j :: 0 <= j < |r| && r[j].location.name == c.location.name ==> r[j] == c) &&
      (forall n :: n != c.location.name ==> (HasName(r, n) <==> HasName(cities, n)))
  {
    var r := FoldIn(cities, c);
    var n := c.location.name;
    if HasName(cities, n) {
      var k := FindByName(cities, n);
      forall m | m != n ensures HasName(r, m) <==> HasName(cities, m) {
        if HasName(cities, m) {
          var j :| 0 <= j < |cities| && cities[j].location.name == m;
          assert r[j].location.name == m;
        }
        if HasName(r, m) {
          var j :| 0 <= j < |r| && r[j].location.name == m;
          assert cities[j].location.name == m;
        }
      }
    } else {
      forall m | m != n ensures HasName(r, m) <==> HasName(cities, m) {
        if HasName(cities, m) {
          var j :| 0 <= j < |cities| && cities[j].location.name == m;
          assert r[j + 1].location.name == m;
        }
        if HasName(r, m) {
          var j :| 0 <= j < |r| && r[j].location.name == m;
          assert cities[j - 1].location.name == m;
        }
      }
      assert r[0] == c;
    }
  }

  /** Folding the same payload twice is folding it once. */
  lemma FoldInIdempotent(cities: seq<City>, c: City)
    ensures FoldIn(FoldIn(cities, c), c) == FoldIn(cities, c)
  {
    var r := FoldIn(cities, c);
    var n := c.location.name;
    assert HasName(r, n) by {
      if HasName(cities, n) {
        assert r[FindByName(cities, n)] == c;
      } else {
        assert r[0] == c;
      }
    }
    var k := FindByName(r, n);
    if HasName(cities, n) {
      var k0 := FindByName(cities, n);
      assert forall j :: 0 <= j < k0 ==> r[j].location.name != n;
      assert k == k0;
    } else {
      assert k == 0;
    }
    assert r[k := c] == r;
  }

  // ---------------------------------------------------------------------
  // "fetch forecast"

  /**
   * The "fetch forecast" thunk: asks the service for `days` days (7 when
   * the caller gives none), with no cache, and rejects with the message
   * (or "error") on failure.
   */
  function FetchForecastRun(q: string, days: Option<int>, remote: (string, int) -> Remote<ForecastResponse>): (r: Result<ForecastResponse, string>)
    ensures days.None? && remote(q, DefaultForecastDays).Answer? ==> r == Ok(remote(q, DefaultForecastDays).body)
    ensures days.Some? && remote(q, days.value).Answer? ==> r == Ok(remote(q, days.value).body)
    ensures r.Err? ==> r.error != "" && remote(q, days.GetOr(DefaultForecastDays)).Failure?
    ensures remote(q, days.GetOr(DefaultForecastDays)).Failure? ==>
      r == Err(RejectMessage(remote(q, days.GetOr(DefaultForecastDays)).message))
  {
    match remote(q, days.GetOr(DefaultForecastDays))
    case Answer(body) => Ok(body)
    case Failure(message) => Err(RejectMessage(message))
  }

  // ---------------------------------------------------------------------
  // The store

  class Store {
    var cities: seq<City>
    var selectedForecast: Option<ForecastResponse>
    var favorites: seq<string>
    var unit: string
    var status: Status
    var error: Option<string>
    /** The browser's local storage, as far as the store uses it. */
    var storage: Storage

    /** The favourites in memory are what a reload would read back. */
    ghost predicate FavoritesSynced()
      reads this
    {
      StoredFavorites(storage) == favorites
    }

    /** The initial state, loaded from what local storage holds at start-up. */
    constructor(persisted: Storage)
      ensures cities == [] && selectedForecast == None
      ensures favorites == StoredFavorites(persisted) && unit == StoredUnit(persisted)
      ensures status == Idle && error == None
      ensures storage == persisted
      ensures FavoritesSynced()
    {
      cities := [];
      selectedForecast := None;
      favorites := StoredFavorites(persisted);
      unit := StoredUnit(persisted);
      status := Idle;
      error := None;
      storage := persisted;
    }

    /** `setUnit`: stores the payload verbatim and persists it. */
    method SetUnit(u: string)
      modifies this`unit, this`storage
      ensures unit == u
      ensures storage == old(storage)[UnitKey := Raw(u)]
      ensures StoredUnit(storage) == if u == "" then DefaultUnit else u
      ensures old(FavoritesSynced()) ==> FavoritesSynced()
    {
      unit := u;
      storage := storage[UnitKey := Raw(unit)];
    }

    /** `addFav`: appends and persists only when the name is absent. */
    method AddFav(name: string)
      modifies this`favorites, this`storage
      ensures favorites == Added(old(favorites), name)
      ensures name in old(favorites) ==> storage == old(storage)
      ensures name !in old(favorites) ==> storage == old(storage)[FavsKey := NameList(favorites)]
      ensures old(NoDuplicates(favorites)) ==> NoDuplicates(favorites)
      ensures old(FavoritesSynced()) ==> FavoritesSynced()
    {
      if name !in favorites {
        favorites := favorites + [name];
        storage := storage[FavsKey := NameList(favorites)];
      }
      if NoDuplicates(old(favorites)) {
        AddedKeepsNoDuplicates(old(favorites), name);
      }
    }

    /** `removeFav`: filters out every occurrence and always persists. */
    method RemoveFav(name: string)
      modifies this`favorites, this`storage
      ensures favorites == Without(old(favorites), name)
      ensures storage == old(storage)[FavsKey := NameList(favorites)]
      ensures old(NoDuplicates(favorites)) ==> NoDuplicates(favorites)
      ensures FavoritesSynced()
    {
      favorites := Without(favorites, name);
      storage := storage[FavsKey := NameList(favorites)];
      if NoDuplicates(old(favorites)) {
        WithoutKeepsNoDuplicates(old(favorites), name);
      }
    }

    /** `setCities`: replaces the whole tracked list. */
    method SetCities(payload: seq<City>)
      modifies this`cities
      ensures cities == payload
    {
      cities := payload;
    }

    /** `clearForecast`. */
    method ClearForecast()
      modifies this`selectedForecast
      ensures selectedForecast == None
    {
      selectedForecast := None;
    }

    /** "fetch current" pending. */
    method FetchCurrentPending()
      modifies this`status
      ensures status == Loading
    {
      status := Loading;
    }

    /** "fetch current" fulfilled: success, and the payload is folded in by name. */
    method FetchCurrentFulfilled(payload: City)
      modifies this`status, this`cities
      ensures status == Succeeded
      ensures cities == FoldIn(old(cities), payload)
    {
      status := Succeeded;
      var existing := FindByName(cities, payload.location.name);
      if existing >= 0 {
        cities := cities[existing := payload];
      } else {
        cities := [payload] + cities;
      }
    }

    /** "fetch current" rejected: failure, with the rejection value as the error. */
    method FetchCurrentRejected(payload: string)
      modifies this`status, this`error
      ensures status == Failed && error == Some(payload)
    {
      status := Failed;
      error := Some(payload);
    }

    /** "fetch forecast" fulfilled: the selected forecast is replaced wholesale. */
    method FetchForecastFulfilled(payload: ForecastResponse)
      modifies this`selectedForecast
      ensures selectedForecast == Some(payload)
    {
      selectedForecast := Some(payload);
    }

    /** "fetch forecast" rejected: the error is recorded; the status is not touched. */
    method FetchForecastRejected(payload: string)
      modifies this`error
      ensures error == Some(payload)
    {
      error := Some(payload);
    }

    /**
     * The body of the "fetch current" thunk, step by step against local
     * storage: read the cache, answer from it when fresh, otherwise call
     * the service and cache its answer.
     */
    method RunFetchCurrent(q: string, now: int, remote: string -> Remote<City>, later: int, fits: bool)
      returns (payload: Result<City, string>, remoteCalled: bool)
      modifies this`storage
      ensures FetchOutcome(payload, remoteCalled, storage) == FetchCurrentRun(old(storage), q, now, remote, later, fits)
    {
      var key := CacheKeyFor(q);
      var cache := ReadCache(storage, key);
      if cache.Some? && now - cache.value.ts < Ttl {
        return Ok(cache.value.data), false;
      }
      remoteCalled := true;
      var res := remote(q);
      if res.Failure? {
        return Err(RejectMessage(res.message)), remoteCalled;
      }
      storage := WriteCache(storage, key, CacheEntry(res.body, later), fits);
      payload := Ok(res.body);
    }

    /**
     * Dispatching "fetch current": pending, the thunk, then the fulfilled
     * or rejected case. A failure leaves the tracked cities, the cache and
     * the rest of storage unchanged; a success folds the payload in and
     * keeps the previous error.
     */
    method DispatchFetchCurrent(q: string, now: int, remote: string -> Remote<City>, later: int, fits: bool)
      returns (remoteCalled: bool)
      modifies this`status, this`cities, this`error, this`storage
      ensures var o := FetchCurrentRun(old(storage), q, now, remote, later, fits);
        storage == o.storage && remoteCalled == o.remoteCalled &&
        match o.payload
        case Ok(city) => status == Succeeded && cities == FoldIn(old(cities), city) && error == old(error)
        case Err(message) => status == Failed && error == Some(message) && cities == old(cities) && storage == old(storage)
      ensures old(FavoritesSynced()) ==> FavoritesSynced()
    {
      FetchCurrentPending();
      var payload;
      payload, remoteCalled := RunFetchCurrent(q, now, remote, later, fits);
      FetchCurrentOnlyWritesItsKey(old(storage), q, now, remote, later, fits);
      match payload
      case Ok(city) => FetchCurrentFulfilled(city);
      case Err(message) => FetchCurrentRejected(message);
    }

    /** Dispatching "fetch forecast": no pending case, then fulfilled or rejected. */
    method DispatchFetchForecast(q: string, days: Option<int>, remote: (string, int) -> Remote<ForecastResponse>)
      modifies this`selectedForecast, this`error
      ensures match FetchForecastRun(q, days, remote)
        case Ok(body) => selectedForecast == Some(body) && error == old(error)
        case Err(message) => error == Some(message) && selectedForecast == old(selectedForecast)
    {
      var payload := FetchForecastRun(q, days, remote);
      match payload
      case Ok(body) => FetchForecastFulfilled(body);
      case Err(message) => FetchForecastRejected(message);
    }
  }
}

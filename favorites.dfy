/** The favourites list: most recently added first, keyed by the pair
    (latitude, longitude), persisted as a whole under "favoriteLocations" after
    every change. Two copies exist: the `FavoriteLocations` component and the
    `useFavorites` hook; they share the list operations defined here. */
module Favorites {
  import opened Wrappers
  import opened WeatherLib

  /** The storage key of the persisted list. */
  const StorageKey := "favoriteLocations"

  /** A location plus the time (ms) it was added. */
  datatype FavoriteLocation = FavoriteLocation(location: LocationData, addedAt: int)

  /** The stored value under the key as `JSON.parse` reads it back: the list,
      or text that does not parse. */
  datatype Saved = Saved(list: seq<FavoriteLocation>) | Malformed

  /** Latitude and longitude both equal. */
  predicate SameCoords(f: FavoriteLocation, loc: LocationData) {
    f.location.latitude == loc.latitude && f.location.longitude == loc.longitude
  }

  /** No two entries share a coordinate pair. */
  ghost predicate NoDuplicateCoords(favs: seq<FavoriteLocation>) {
    forall i, j :: 0 <= i < j < |favs| ==> !SameCoords(favs[i], favs[j].location)
  }

  /** `a` is `b` with some entries left out and the rest in their order. */
  predicate Subsequence<T(==)>(a: seq<T>, b: seq<T>)
    decreases |b|
  {
    if a == [] then true
    else if b == [] then false
    else if a[0] == b[0] then Subsequence(a[1..], b[1..])
    else Subsequence(a, b[1..])
  }

  /** `favorites.some(f => same coordinates)`. */
  function HasCoords(favs: seq<FavoriteLocation>, loc: LocationData): (r: bool)
    ensures r <==> exists i :: 0 <= i < |favs| && SameCoords(favs[i], loc)
  {
    if favs == [] then false
    else SameCoords(favs[0], loc) || HasCoords(favs[1..], loc)
  }

  /** `favorites.some(f => "name" or "name, admin1" equals the label)`. */
  function HasLabel(favs: seq<FavoriteLocation>, text: string): (r: bool)
    ensures r <==> exists i :: 0 <= i < |favs| && DisplayName(favs[i].location) == text
  {
    if favs == [] then false
    else DisplayName(favs[0].location) == text || HasLabel(favs[1..], text)
  }

  /** `favorites.filter(f => !same coordinates)`: exactly the entries with other
      coordinates, each as often as before, in their original order. */
  function Without(favs: seq<FavoriteLocation>, loc: LocationData): (r: seq<FavoriteLocation>)
    ensures forall f :: multiset(r)[f] == if SameCoords(f, loc) then 0 else multiset(favs)[f]
    ensures Subsequence(r, favs)
  {
    if favs == [] then []
    else
      var rest := Without(favs[1..], loc);
      assert favs == [favs[0]] + favs[1..];
      if SameCoords(favs[0], loc) then
        assert rest == [] || rest[0] != favs[0] by {
          if rest != [] {
            assert rest[0] in multiset(rest);
          }
        }
        rest
      else [favs[0]] + rest
  }

  /** Filtering keeps a list with no coordinate duplicates free of them. */
  lemma {:induction false} WithoutKeepsNoDuplicates(favs: seq<FavoriteLocation>, loc: LocationData)
    requires NoDuplicateCoords(favs)
    ensures NoDuplicateCoords(Without(favs, loc))
    decreases |favs|
  {
    if favs != [] {
      var tail := favs[1..];
      assert NoDuplicateCoords(tail) by {
        forall i, j | 0 <= i < j < |tail| ensures !SameCoords(tail[i], tail[j].location) {
          assert tail[i] == favs[i + 1] && tail[j] == favs[j + 1];
        }
      }
      WithoutKeepsNoDuplicates(tail, loc);
      var rest := Without(tail, loc);
      if !SameCoords(favs[0], loc) {
        forall j | 0 <= j < |rest| ensures !SameCoords(favs[0], rest[j].location) {
          assert rest[j] in multiset(rest);
          assert rest[j] in multiset(tail);
          var k :| 0 <= k < |tail| && tail[k] == rest[j];
          assert favs[k + 1] == rest[j];
        }
      }
    }
  }

  /** Nothing is filtered out when no entry has the coordinates. */
  lemma {:induction false} WithoutAbsent(favs: seq<FavoriteLocation>, loc: LocationData)
    requires !HasCoords(favs, loc)
    ensures Without(favs, loc) == favs
    decreases |favs|
  {
    if favs != [] {
      assert !HasCoords(favs[1..], loc) by {
        forall i | 0 <= i < |favs| - 1 ensures !SameCoords(favs[1..][i], loc) {
          assert favs[1..][i] == favs[i + 1];
        }
      }
      WithoutAbsent(favs[1..], loc);
    }
  }

  /** `addFavorite`: the new entry first, then the old list without any entry
      at the same coordinates. */
  function Added(favs: seq<FavoriteLocation>, loc: LocationData, now: int): (r: seq<FavoriteLocation>)
    ensures |r| >= 1 && r[0] == FavoriteLocation(loc, now)
    ensures forall i :: 0 <= i < |r| ==> (SameCoords(r[i], loc) <==> i == 0)
    ensures Subsequence(r[1..], favs)
    ensures forall f :: f in favs && !SameCoords(f, loc) ==> f in r
  {
    var rest := Without(favs, loc);
    var r := [FavoriteLocation(loc, now)] + rest;
    forall i | 1 <= i < |r| ensures !SameCoords(r[i], loc) {
      assert r[i] == rest[i - 1];
      assert rest[i - 1] in multiset(rest);
    }
    forall f | f in favs && !SameCoords(f, loc) ensures f in r {
      assert f in multiset(favs);
      assert f in multiset(rest);
    }
    assert r[1..] == rest;
    r
  }

  /** Adding keeps the list free of coordinate duplicates. */
  lemma AddedKeepsNoDuplicates(favs: seq<FavoriteLocation>, loc: LocationData, now: int)
    requires NoDuplicateCoords(favs)
    ensures NoDuplicateCoords(Added(favs, loc, now))
  {
    var r := Added(favs, loc, now);
    var rest := Without(favs, loc);
    WithoutKeepsNoDuplicates(favs, loc);
    assert r == [FavoriteLocation(loc, now)] + rest;
    forall i, j | 0 <= i < j < |r| ensures !SameCoords(r[i], r[j].location) {
      if i > 0 {
        assert r[i] == rest[i - 1] && r[j] == rest[j - 1];
      } else {
        assert !SameCoords(r[j], loc);
      }
    }
  }

  /** `toggleFavorite` of the component: remove when present, add when absent. */
  function Toggled(favs: seq<FavoriteLocation>, loc: LocationData, now: int): (r: seq<FavoriteLocation>)
    ensures HasCoords(r, loc) == !HasCoords(favs, loc)
  {
    if HasCoords(favs, loc) then
      var r := Without(favs, loc);
      assert !HasCoords(r, loc) by {
        forall i | 0 <= i < |r| ensures !SameCoords(r[i], loc) {
          assert r[i] in multiset(r);
        }
      }
      r
    else
      var r := Added(favs, loc, now);
      assert SameCoords(r[0], loc);
      r
  }

  /** `toggleFavorite` of the hook: filter when present, otherwise prepend
      without filtering. */
  function HookToggled(favs: seq<FavoriteLocation>, loc: LocationData, now: int): (r: seq<FavoriteLocation>)
  {
    if HasCoords(favs, loc) then Without(favs, loc) else [FavoriteLocation(loc, now)] + favs
  }

  /** The hook's shortcut (no filter when absent) loses nothing: both toggles
      always give the same list. */
  lemma HookToggleAgrees(favs: seq<FavoriteLocation>, loc: LocationData, now: int)
    ensures HookToggled(favs, loc, now) == Toggled(favs, loc, now)
  {
    if !HasCoords(favs, loc) {
      WithoutAbsent(favs, loc);
    }
  }

  /** Toggling a location that is not a favourite twice restores the list. */
  lemma ToggleTwiceFromAbsent(favs: seq<FavoriteLocation>, loc: LocationData, t1: int, t2: int)
    requires !HasCoords(favs, loc)
    ensures Toggled(Toggled(favs, loc, t1), loc, t2) == favs
    ensures HookToggled(HookToggled(favs, loc, t1), loc, t2) == favs
  {
    var once := [FavoriteLocation(loc, t1)] + favs;
    HookToggleAgrees(favs, loc, t1);
    HookToggleAgrees(once, loc, t2);
    WithoutAbsent(favs, loc);
    assert once[1..] == favs;
    assert HasCoords(once, loc) by {
      assert SameCoords(once[0], loc);
    }
    assert Without(once, loc) == Without(favs, loc);
  }

  /** Toggling a favourite twice moves it to the front with the new time. */
  lemma ToggleTwiceFromPresent(favs: seq<FavoriteLocation>, loc: LocationData, t1: int, t2: int)
    requires HasCoords(favs, loc)
    ensures Toggled(Toggled(favs, loc, t1), loc, t2) == Added(favs, loc, t2)
  {
    var once := Without(favs, loc);
    assert !HasCoords(once, loc);
    WithoutAbsent(once, loc);
    WithoutIdempotent(favs, loc);
  }

  lemma {:induction false} WithoutIdempotent(favs: seq<FavoriteLocation>, loc: LocationData)
    ensures Without(Without(favs, loc), loc) == Without(favs, loc)
    decreases |favs|
  {
    if favs != [] {
      WithoutIdempotent(favs[1..], loc);
    }
  }

  /** Toggling keeps the list free of coordinate duplicates. */
  lemma ToggleKeepsNoDuplicates(favs: seq<FavoriteLocation>, loc: LocationData, now: int)
    requires NoDuplicateCoords(favs)
    ensures NoDuplicateCoords(Toggled(favs, loc, now))
    ensures NoDuplicateCoords(HookToggled(favs, loc, now))
  {
    HookToggleAgrees(favs, loc, now);
    if HasCoords(favs, loc) {
      WithoutKeepsNoDuplicates(favs, loc);
    } else {
      AddedKeepsNoDuplicates(favs, loc, now);
    }
  }

  /** The list a mount reads back: the stored list, or empty when nothing is
      stored or the stored text does not parse. */
  function Restore(storage: map<string, Saved>): (favs: seq<FavoriteLocation>)
    ensures StorageKey in storage && storage[StorageKey].Saved? ==> favs == storage[StorageKey].list
    ensures StorageKey !in storage || storage[StorageKey].Malformed? ==> favs == []
  {
    if StorageKey in storage then
      match storage[StorageKey]
      case Saved(list) => list
      case Malformed => []
    else []
  }

  /** The `FavoriteLocations` component's state: its list and browser storage. */
  class FavoriteLocationsComponent {
    var favorites: seq<FavoriteLocation>
    var storage: map<string, Saved>

    /** What is persisted is what is shown: a reload reads back this list. */
    ghost predicate Persisted()
      reads this
    {
      Restore(storage) == favorites
    }

    /** Mounting: the list starts empty, then the stored list is loaded if it parses. */
    constructor Mount(saved: map<string, Saved>)
      ensures storage == saved
      ensures favorites == Restore(saved)
      ensures Persisted()
    {
      favorites := [];
      storage := saved;
      if StorageKey in saved {
        match saved[StorageKey]
        case Saved(list) =>
          favorites := list;
        case Malformed =>
      }
    }

    /** Writes the whole list to storage (`localStorage.setItem`). */
    method Save(updated: seq<FavoriteLocation>)
      modifies this
      ensures favorites == updated
      ensures storage == old(storage)[StorageKey := Saved(updated)]
      ensures Persisted()
    {
      favorites := updated;
      storage := storage[StorageKey := Saved(updated)];
    }

    method AddFavorite(loc: LocationData, now: int)
      modifies this
      ensures favorites == Added(old(favorites), loc, now)
      ensures storage == old(storage)[StorageKey := Saved(favorites)]
      ensures Persisted()
      ensures NoDuplicateCoords(old(favorites)) ==> NoDuplicateCoords(favorites)
    {
      var updated := [FavoriteLocation(loc, now)] + Without(favorites, loc);
      if NoDuplicateCoords(favorites) {
        AddedKeepsNoDuplicates(favorites, loc, now);
      }
      Save(updated);
    }

    method RemoveFavorite(loc: LocationData)
      modifies this
      ensures favorites == Without(old(favorites), loc)
      ensures !HasCoords(favorites, loc)
      ensures storage == old(storage)[StorageKey := Saved(favorites)]
      ensures Persisted()
      ensures NoDuplicateCoords(old(favorites)) ==> NoDuplicateCoords(favorites)
    {
      var updated := Without(favorites, loc);
      if NoDuplicateCoords(favorites) {
        WithoutKeepsNoDuplicates(favorites, loc);
      }
      assert !HasCoords(updated, loc) by {
        forall i | 0 <= i < |updated| ensures !SameCoords(updated[i], loc) {
          assert updated[i] in multiset(updated);
        }
      }
      Save(updated);
    }

    /** `isFavorite(location)`: by coordinates. */
    function IsFavorite(loc: LocationData): (r: bool)
      reads this
      ensures r <==> exists i :: 0 <= i < |favorites| && SameCoords(favorites[i], loc)
    {
      HasCoords(favorites, loc)
    }

    /** `isFavorite(label)`: by the "name" / "name, admin1" label. */
    function IsFavoriteLabel(text: string): (r: bool)
      reads this
      ensures r <==> exists i :: 0 <= i < |favorites| && DisplayName(favorites[i].location) == text
    {
      HasLabel(favorites, text)
    }

    method ToggleFavorite(loc: LocationData, now: int)
      modifies this
      ensures favorites == Toggled(old(favorites), loc, now)
      ensures IsFavorite(loc) == !old(IsFavorite(loc))
      ensures storage == old(storage)[StorageKey := Saved(favorites)]
      ensures Persisted()
      ensures NoDuplicateCoords(old(favorites)) ==> NoDuplicateCoords(favorites)
    {
      if NoDuplicateCoords(favorites) {
        ToggleKeepsNoDuplicates(favorites, loc, now);
      }
      if IsFavorite(loc) {
        RemoveFavorite(loc);
      } else {
        AddFavorite(loc, now);
      }
    }
  }

  /** The `useFavorites` hook's state. */
  class FavoritesHook {
    var favorites: seq<FavoriteLocation>
    var storage: map<string, Saved>

    ghost predicate Persisted()
      reads this
    {
      Restore(storage) == favorites
    }

    constructor Mount(saved: map<string, Saved>)
      ensures storage == saved
      ensures favorites == Restore(saved)
      ensures Persisted()
    {
      favorites := [];
      storage := saved;
      if StorageKey in saved {
        match saved[StorageKey]
        case Saved(list) =>
          favorites := list;
        case Malformed =>
      }
    }

    method ToggleFavorite(loc: LocationData, now: int)
      modifies this
      ensures favorites == HookToggled(old(favorites), loc, now)
      ensures IsFavorite(loc) == !old(IsFavorite(loc))
      ensures storage == old(storage)[StorageKey := Saved(favorites)]
      ensures Persisted()
      ensures NoDuplicateCoords(old(favorites)) ==> NoDuplicateCoords(favorites)
    {
      var isFav := HasCoords(favorites, loc);
      var updated;
      if isFav {
        updated := Without(favorites, loc);
      } else {
        updated := [FavoriteLocation(loc, now)] + favorites;
      }
      HookToggleAgrees(favorites, loc, now);
      if NoDuplicateCoords(favorites) {
        ToggleKeepsNoDuplicates(favorites, loc, now);
      }
      favorites := updated;
      storage := storage[StorageKey := Saved(updated)];
    }

    function IsFavorite(loc: LocationData): (r: bool)
      reads this
      ensures r <==> exists i :: 0 <= i < |favorites| && SameCoords(favorites[i], loc)
    {
      HasCoords(favorites, loc)
    }
  }
}

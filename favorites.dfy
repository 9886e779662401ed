/**
 * The favourites store (src/contexts/FavoritesContext.tsx): a list of hotel ids
 * used as a set, changed only by toggling, copied to the `favorites` key of
 * local storage after every change and pushed to the backend while someone is
 * signed in.
 */
module Favorites {
  import opened Lists

  const FavoritesKey: string := "favorites"

  predicate NoDuplicates(s: seq<string>) {
    forall i, j :: 0 <= i < j < |s| ==> s[i] != s[j]
  }

  /** The list `toggleFavorite` derives from the previous list. */
  function Toggle(favs: seq<string>, id: string): (r: seq<string>)
    ensures id in r <==> id !in favs
    ensures forall x :: x != id ==> (x in r <==> x in favs)
  {
    if id in favs then Filter(favs, x => x != id) else favs + [id]
  }

  /** An absent id goes to the end; every earlier entry keeps its place. */
  lemma ToggleAbsentAppends(favs: seq<string>, id: string)
    requires id !in favs
    ensures |Toggle(favs, id)| == |favs| + 1
    ensures Toggle(favs, id)[..|favs|] == favs && Toggle(favs, id)[|favs|] == id
  {
  }

  /**
   * A present id loses every occurrence; the remaining ids keep their order
   * and their number of occurrences.
   */
  lemma TogglePresentRemoves(favs: seq<string>, id: string)
    requires id in favs
    ensures id !in Toggle(favs, id)
    ensures IsSubsequence(Toggle(favs, id), favs)
    ensures forall x :: x != id ==> multiset(Toggle(favs, id))[x] == multiset(favs)[x]
  {
    FilterIsSubsequence(favs, x => x != id);
    forall x | x != id
      ensures multiset(Toggle(favs, id))[x] == multiset(favs)[x]
    {
      FilterCounts(favs, y => y != id, x);
    }
  }

  lemma {:induction false} FilterNoDuplicates(s: seq<string>, p: string -> bool)
    requires NoDuplicates(s)
    ensures NoDuplicates(Filter(s, p))
  {
    if s != [] {
      FilterNoDuplicates(s[1..], p);
      if p(s[0]) {
        assert s[0] !in s[1..];
        assert s[0] !in Filter(s[1..], p);
      }
    }
  }

  /** Toggling never creates a duplicate. */
  lemma ToggleKeepsNoDuplicates(favs: seq<string>, id: string)
    requires NoDuplicates(favs)
    ensures NoDuplicates(Toggle(favs, id))
  {
    if id in favs {
      FilterNoDuplicates(favs, x => x != id);
    }
  }

  /** Toggling an absent id twice gives back exactly the list it started from. */
  lemma ToggleTwiceAbsent(favs: seq<string>, id: string)
    requires id !in favs
    ensures Toggle(Toggle(favs, id), id) == favs
  {
    var once := favs + [id];
    assert Toggle(favs, id) == once;
    assert once[..|favs|] == favs && once[|favs|..] == [id];
    FilterAll(favs, x => x != id);
    FilterAppend(favs, [id], x => x != id);
  }

  /** Toggling a present id twice moves it to the end, behind the other ids in their old order. */
  lemma ToggleTwicePresent(favs: seq<string>, id: string)
    requires id in favs
    ensures Toggle(Toggle(favs, id), id) == Filter(favs, x => x != id) + [id]
  {
  }

  /** Toggling twice restores the membership of every id. */
  lemma ToggleTwiceMembership(favs: seq<string>, id: string, h: string)
    ensures h in Toggle(Toggle(favs, id), id) <==> h in favs
  {
  }

  /**
   * The provider's state: the in-memory list, the local-storage entries
   * (`favorites` holds the serialised list) and the payloads of every backend
   * push attempted so far.
   */
  class FavoritesStore {
    var favorites: seq<string>
    var storage: map<string, seq<string>>
    var pushes: seq<seq<string>>

    /** After every change, the stored copy is the in-memory list. */
    ghost predicate Valid()
      reads this
    {
      FavoritesKey in storage && storage[FavoritesKey] == favorites
    }

    /**
     * Mount: the list starts empty and is then replaced by the stored list when
     * there is one; the persist effect writes the resulting list back. Nobody is
     * signed in yet at mount (the session store starts with no user), so nothing
     * is pushed.
     */
    constructor (initialStorage: map<string, seq<string>>)
      ensures Valid()
      ensures favorites == if FavoritesKey in initialStorage then initialStorage[FavoritesKey] else []
      ensures storage == initialStorage[FavoritesKey := favorites]
      ensures pushes == []
    {
      favorites := if FavoritesKey in initialStorage then initialStorage[FavoritesKey] else [];
      storage := initialStorage[FavoritesKey := if FavoritesKey in initialStorage then initialStorage[FavoritesKey] else []];
      pushes := [];
    }

    function IsFavorite(id: string): (r: bool)
      reads this
      requires Valid()
      ensures r <==> id in storage[FavoritesKey]
    {
      id in favorites
    }

    /** The persist effect: copy the list to storage, and push it when signed in. */
    method Persist(signedIn: bool)
      modifies this
      ensures favorites == old(favorites) && Valid()
      ensures storage == old(storage)[FavoritesKey := favorites]
      ensures pushes == if signedIn then old(pushes) + [favorites] else old(pushes)
    {
      storage := storage[FavoritesKey := favorites];
      if signedIn {
        // The push goes to an operation the API client does not define, so it
        // always throws; the error is caught and logged and nothing else changes.
        pushes := pushes + [favorites];
      }
    }

    /** `toggleFavorite(id)` followed by the persist effect it triggers. */
    method ToggleFavorite(id: string, signedIn: bool)
      modifies this
      ensures favorites == Toggle(old(favorites), id)
      ensures Valid()
      ensures storage == old(storage)[FavoritesKey := favorites]
      ensures pushes == if signedIn then old(pushes) + [favorites] else old(pushes)
      ensures IsFavorite(id) <==> !(id in old(favorites))
    {
      favorites := Toggle(favorites, id);
      Persist(signedIn);
    }

    /** The persist effect also re-runs when the session changes; the list stays as it is. */
    method SessionChanged(signedIn: bool)
      modifies this
      ensures favorites == old(favorites) && Valid()
      ensures storage == old(storage)[FavoritesKey := favorites]
      ensures pushes == if signedIn then old(pushes) + [favorites] else old(pushes)
    {
      Persist(signedIn);
    }
  }

  /**
   * An anonymous visitor toggles hotel "42" on and off again: it is a favourite
   * after the first toggle and not after the second, the stored copy follows,
   * and nothing is pushed.
   */
  method AnonymousToggleScenario() returns (storedAfterFirst: seq<string>, storedAfterSecond: seq<string>, pushed: nat)
    ensures storedAfterFirst == ["42"] && storedAfterSecond == [] && pushed == 0
  {
    var store := new FavoritesStore(map[]);
    store.ToggleFavorite("42", false);
    assert store.IsFavorite("42");
    storedAfterFirst := store.storage[FavoritesKey];
    store.ToggleFavorite("42", false);
    assert !store.IsFavorite("42");
    storedAfterSecond := store.storage[FavoritesKey];
    pushed := |store.pushes|;
  }
}

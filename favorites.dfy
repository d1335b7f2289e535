/**
 * The favorites list: vehicle IDs kept in localStorage under
 * `carinsight_favorites`, without a cap, with a best-effort server sync
 * on every add made while logged in.
 */
module Favorites {
  import opened Wrappers
  import opened IdLists
  import Api

  /** The list after `toggle`: a present ID is spliced out, an absent one appended. */
  function Toggled(list: seq<string>, vehicleId: string): (r: seq<string>)
    ensures vehicleId in list ==> |r| == |list| - 1 && multiset(r) == multiset(list) - multiset{vehicleId}
    ensures vehicleId !in list ==> |r| == |list| + 1 && multiset(r) == multiset(list) + multiset{vehicleId}
  {
    if vehicleId in list then RemoveFirst(list, vehicleId) else list + [vehicleId]
  }

  /** On a duplicate-free list, `toggle` flips membership and keeps the list duplicate-free. */
  lemma ToggledKeepsNoDup(list: seq<string>, vehicleId: string)
    requires NoDup(list)
    ensures NoDup(Toggled(list, vehicleId))
    ensures vehicleId in Toggled(list, vehicleId) <==> vehicleId !in list
  {
    if vehicleId in list {
      RemoveFirstKeepsNoDup(list, vehicleId);
    } else {
      AppendKeepsNoDup(list, vehicleId);
    }
  }

  /** Toggling an absent ID twice gives back exactly the list it started from. */
  lemma ToggleTwiceFromAbsent(list: seq<string>, vehicleId: string)
    requires vehicleId !in list
    ensures Toggled(Toggled(list, vehicleId), vehicleId) == list
  {
    var once := list + [vehicleId];
    assert IndexOf(once, vehicleId) == |list| by {
      assert once[|list|] == vehicleId && once[..|list|] == list;
    }
    assert once[..|list|] == list;
  }

  /**
   * Toggling a present ID twice restores membership but moves the ID to the
   * end: the list is unchanged only when the ID already was the last one.
   */
  lemma ToggleTwiceFromPresent(list: seq<string>, vehicleId: string)
    requires NoDup(list) && vehicleId in list
    ensures Toggled(Toggled(list, vehicleId), vehicleId) == RemoveFirst(list, vehicleId) + [vehicleId]
    ensures vehicleId in Toggled(Toggled(list, vehicleId), vehicleId)
    ensures Toggled(Toggled(list, vehicleId), vehicleId) == list <==> list[|list| - 1] == vehicleId
  {
    RemoveFirstKeepsNoDup(list, vehicleId);
    var removed := RemoveFirst(list, vehicleId);
    var twice := removed + [vehicleId];
    assert Toggled(Toggled(list, vehicleId), vehicleId) == twice;
    var i := IndexOf(list, vehicleId);
    if list[|list| - 1] == vehicleId {
      assert i == |list| - 1;
      assert list == list[..i] + [vehicleId];
      assert removed == list[..i];
    } else {
      assert twice[|twice| - 1] != list[|list| - 1];
    }
  }

  /** The localStorage slot of the favorites list. */
  class FavoritesManager {
    var store: Entry

    constructor (initial: Entry)
      ensures store == initial
    {
      store := initial;
    }

    /** `getLocalFavorites`: the stored IDs, `[]` when absent or unreadable. */
    function List(): (ids: seq<string>)
      reads this
      ensures store.Stored? ==> ids == store.ids
      ensures !store.Stored? ==> ids == []
    {
      ReadList(store)
    }

    /** `isFavorite`: `includes` on the stored list. */
    function IsFavorite(vehicleId: string): (present: bool)
      reads this
      ensures present <==> IndexOf(List(), vehicleId) >= 0
    {
      vehicleId in List()
    }

    /** `getCount`: the length of the stored list. */
    function Count(): (n: nat)
      reads this
      ensures n == 0 <==> List() == []
      ensures NoDup(List()) ==> n == |set id | id in List()|
    {
      if NoDup(List()) then
        DistinctCount(List());
        |List()|
      else
        |List()|
    }

    /**
     * `add`: appends an absent ID and writes back; a present one changes
     * nothing. The server sync is requested only for a real append made
     * while logged in, and is never awaited, so its outcome cannot undo
     * the local change.
     */
    method Add(vehicleId: string, api: Api.ApiClient) returns (added: bool, syncRequested: bool)
      modifies this
      ensures added <==> vehicleId !in old(List())
      ensures added ==> List() == old(List()) + [vehicleId]
      ensures !added ==> store == old(store)
      ensures syncRequested <==> added && api.IsLoggedIn()
      ensures old(NoDup(List())) ==> NoDup(List())
    {
      var favorites := ReadList(store);
      if vehicleId !in favorites {
        if NoDup(favorites) {
          AppendKeepsNoDup(favorites, vehicleId);
        }
        favorites := favorites + [vehicleId];
        store := Stored(favorites);
        syncRequested := api.IsLoggedIn();
        return true, syncRequested;
      }
      return false, false;
    }

    /** `remove`: splices out the first occurrence and writes back; an absent ID writes nothing. */
    method Remove(vehicleId: string) returns (removed: bool)
      modifies this
      ensures removed <==> vehicleId in old(List())
      ensures List() == RemoveFirst(old(List()), vehicleId)
      ensures !removed ==> store == old(store)
      ensures old(NoDup(List())) ==> NoDup(List()) && vehicleId !in List()
    {
      var favorites := ReadList(store);
      var index := IndexOf(favorites, vehicleId);
      if index > -1 {
        if NoDup(favorites) {
          RemoveFirstKeepsNoDup(favorites, vehicleId);
        }
        favorites := favorites[..index] + favorites[index + 1..];
        store := Stored(favorites);
        return true;
      }
      return false;
    }

    /** `toggle`: `remove` for a present ID, `add` otherwise; returns the new status. */
    method Toggle(vehicleId: string, api: Api.ApiClient) returns (favorited: bool, syncRequested: bool)
      modifies this
      ensures favorited <==> vehicleId !in old(List())
      ensures List() == Toggled(old(List()), vehicleId)
      ensures syncRequested <==> favorited && api.IsLoggedIn()
      ensures old(NoDup(List())) ==> NoDup(List()) && (favorited <==> vehicleId in List())
    {
      if NoDup(List()) {
        ToggledKeepsNoDup(List(), vehicleId);
      }
      if IsFavorite(vehicleId) {
        var _ := Remove(vehicleId);
        return false, false;
      }
      var _, sync := Add(vehicleId, api);
      return true, sync;
    }

    /** `clear`: writes the empty list. */
    method Clear()
      modifies this
      ensures store == Stored([]) && List() == [] && Count() == 0
    {
      store := Stored([]);
    }

    /**
     * `getFavoriteVehicles`: `[]` for an empty list, otherwise the vehicles
     * whose fetch succeeded, in list order.
     */
    method GetFavoriteVehicles<V>(fetch: string -> Option<V>) returns (vehicles: seq<V>)
      ensures List() == [] ==> vehicles == []
      ensures vehicles == FetchEach(List(), fetch)
      ensures |vehicles| <= |List()|
    {
      var favoriteIds := ReadList(store);
      if |favoriteIds| == 0 {
        return [];
      }
      vehicles := FetchEach(favoriteIds, fetch);
    }
  }

  /** A duplicate-free list has as many elements as distinct IDs. */
  lemma {:induction false} DistinctCount(s: seq<string>)
    requires NoDup(s)
    ensures |s| == |set id | id in s|
  {
    if s != [] {
      var rest := s[1..];
      assert NoDup(rest) by {
        forall i, j | 0 <= i < j < |rest| ensures rest[i] != rest[j] { assert rest[i] == s[i + 1] && rest[j] == s[j + 1]; }
      }
      DistinctCount(rest);
      assert s[0] !in rest by {
        forall k | 0 <= k < |rest| ensures rest[k] != s[0] { assert rest[k] == s[k + 1]; }
      }
      assert (set id | id in s) == (set id | id in rest) + {s[0]} by {
        assert s == [s[0]] + rest;
      }
    }
  }
}

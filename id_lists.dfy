/**
 * The ID lists that the compare and favorites managers keep in localStorage,
 * and the operations on them that both managers share.
 */
module IdLists {
  import opened Wrappers

  /**
   * What localStorage holds under a list's key: nothing (or the empty
   * string), text that JSON.parse rejects, or a JSON array of vehicle IDs.
   */
  datatype Entry = Absent | Malformed | Stored(ids: seq<string>)

  /**
   * Reading a list back (`getCompareList`, `getLocalFavorites`): the stored
   * array, or `[]` when the key is absent or its text does not parse.
   */
  function ReadList(e: Entry): (ids: seq<string>)
    ensures e.Stored? ==> ids == e.ids
    ensures !e.Stored? ==> ids == []
  {
    if e.Stored? then e.ids else []
  }

  /** No ID occurs twice. */
  predicate NoDup(s: seq<string>) {
    forall i, j :: 0 <= i < j < |s| ==> s[i] != s[j]
  }

  /**
   * `Array.prototype.indexOf`: the first index holding `x`, or -1 when `x`
   * does not occur.
   */
  function IndexOf(s: seq<string>, x: string): (i: int)
    ensures -1 <= i < |s|
    ensures i == -1 <==> x !in s
    ensures 0 <= i ==> s[i] == x && x !in s[..i]
  {
    if s == [] then -1
    else if s[0] == x then 0
    else
      var j := IndexOf(s[1..], x);
      if j == -1 then -1
      else
        assert s[..j + 1] == [s[0]] + s[1..][..j];
        j + 1
  }

  /**
   * `splice(indexOf(x), 1)` guarded by `indexOf(x) > -1`: the list with the
   * first occurrence of `x` taken out, or the list itself when `x` is absent.
   */
  function RemoveFirst(s: seq<string>, x: string): (r: seq<string>)
    ensures x !in s ==> r == s
    ensures x in s ==> |r| == |s| - 1
    ensures x in s ==> var i := IndexOf(s, x); r[..i] == s[..i] && r[i..] == s[i + 1..]
    ensures multiset(r) == multiset(s) - multiset{x}
  {
    var i := IndexOf(s, x);
    if i == -1 then s
    else
      assert s == s[..i] + [x] + s[i + 1..];
      s[..i] + s[i + 1..]
  }

  /** Appending an ID that is not yet present keeps the list duplicate-free. */
  lemma AppendKeepsNoDup(s: seq<string>, x: string)
    requires NoDup(s) && x !in s
    ensures NoDup(s + [x])
  {
    forall i, j | 0 <= i < j < |s + [x]| ensures (s + [x])[i] != (s + [x])[j] {
      if j == |s| { assert s[i] in s; }
    }
  }

  /** Where each element of `RemoveFirst(s, x)` sits in `s`. */
  lemma RemoveFirstAt(s: seq<string>, x: string, k: nat)
    requires x in s && k < |s| - 1
    ensures var i := IndexOf(s, x);
      RemoveFirst(s, x)[k] == if k < i then s[k] else s[k + 1]
  {
    var i := IndexOf(s, x);
    var r := RemoveFirst(s, x);
    if k < i { assert r[k] == r[..i][k]; } else { assert r[k] == r[i..][k - i]; }
  }

  /**
   * In a duplicate-free list, removing the first occurrence removes the only
   * one, and what is left is still duplicate-free.
   */
  lemma RemoveFirstKeepsNoDup(s: seq<string>, x: string)
    requires NoDup(s)
    ensures NoDup(RemoveFirst(s, x))
    ensures x !in RemoveFirst(s, x)
  {
    var r := RemoveFirst(s, x);
    if x in s {
      var i := IndexOf(s, x);
      forall a, b | 0 <= a < b < |r| ensures r[a] != r[b] {
        RemoveFirstAt(s, x, a);
        RemoveFirstAt(s, x, b);
      }
      forall k | 0 <= k < |r| ensures r[k] != x {
        RemoveFirstAt(s, x, k);
      }
    }
  }

  /**
   * The successful fetches, in ID order (`Promise.all` over the IDs, each
   * failure caught as `null`, then `filter(v => v !== null)`).
   */
  function FetchEach<V>(ids: seq<string>, fetch: string -> Option<V>): (vs: seq<V>)
    ensures |vs| <= |ids|
    ensures forall v :: v in vs ==> exists id :: id in ids && fetch(id) == Some(v)
    ensures (forall id :: id in ids ==> fetch(id).Some?) ==>
              |vs| == |ids| && forall k :: 0 <= k < |ids| ==> Some(vs[k]) == fetch(ids[k])
    ensures (forall id :: id in ids ==> fetch(id).None?) ==> vs == []
  {
    if ids == [] then []
    else
      var rest := FetchEach(ids[1..], fetch);
      assert forall id :: id in ids[1..] ==> id in ids;
      match fetch(ids[0])
      case Some(v) => [v] + rest
      case None => rest
  }

  /**
   * Fetching a list in two parts gives the two parts' results one after the
   * other: the outcome keeps the ID order and drops exactly the failures.
   */
  lemma {:induction false} FetchEachAppend<V>(a: seq<string>, b: seq<string>, fetch: string -> Option<V>)
    ensures FetchEach(a + b, fetch) == FetchEach(a, fetch) + FetchEach(b, fetch)
  {
    if a != [] {
      assert (a + b)[1..] == a[1..] + b;
      FetchEachAppend(a[1..], b, fetch);
    } else {
      assert a + b == b;
    }
  }
}

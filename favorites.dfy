/** A user's favourite recipes (src/lib/firebase/favorites.js): every user
    has a collection of favourite entries, each holding a recipe id and the
    time it was added. The database is a map from user id to that user's
    entries, listed in the order a query without ordering returns them. */
module Favorites {

  /** A favourite document: its id, the recipe and the time it was added. */
  datatype Favorite = Favorite(id: string, recipeId: string, timestamp: int)

  // -----------------------------------------------------------------------
  // Operations on one collection

  /** Some entry names the recipe. */
  predicate HasRecipe(entries: seq<Favorite>, recipeId: string) {
    exists i :: 0 <= i < |entries| && entries[i].recipeId == recipeId
  }

  /** The position of the first entry naming the recipe, or the length of
      the collection when there is none. */
  function FirstMatch(entries: seq<Favorite>, recipeId: string): (i: nat)
    ensures i <= |entries|
    ensures i < |entries| ==> entries[i].recipeId == recipeId
    ensures forall j :: 0 <= j < i ==> entries[j].recipeId != recipeId
    ensures i == |entries| <==> !HasRecipe(entries, recipeId)
  {
    if entries == [] then 0
    else if entries[0].recipeId == recipeId then 0
    else
      var i := FirstMatch(entries[1..], recipeId) + 1;
      assert forall j :: 1 <= j < |entries| ==> entries[j] == entries[1..][j - 1];
      i
  }

  /** removeFavorite on a collection: the first entry naming the recipe is
      deleted; a collection without one is left as it is. */
  function WithoutFirst(entries: seq<Favorite>, recipeId: string): (r: seq<Favorite>)
    ensures !HasRecipe(entries, recipeId) ==> r == entries
    ensures HasRecipe(entries, recipeId) ==>
      |r| == |entries| - 1 &&
      multiset(r) + multiset{entries[FirstMatch(entries, recipeId)]} == multiset(entries)
  {
    var i := FirstMatch(entries, recipeId);
    if i == |entries| then entries
    else
      assert entries == entries[..i] + [entries[i]] + entries[i + 1..];
      entries[..i] + entries[i + 1..]
  }

  /** The entries naming one recipe. */
  function EntriesFor(entries: seq<Favorite>, recipeId: string): (r: seq<Favorite>)
    ensures forall e :: e in r <==> e in entries && e.recipeId == recipeId
  {
    if entries == [] then []
    else (if entries[0].recipeId == recipeId then [entries[0]] else []) + EntriesFor(entries[1..], recipeId)
  }

  lemma {:induction false} EntriesForAppend(a: seq<Favorite>, b: seq<Favorite>, recipeId: string)
    ensures EntriesFor(a + b, recipeId) == EntriesFor(a, recipeId) + EntriesFor(b, recipeId)
  {
    if a != [] {
      assert (a + b)[0] == a[0];
      assert (a + b)[1..] == a[1..] + b;
      EntriesForAppend(a[1..], b, recipeId);
    } else {
      assert a + b == b;
    }
  }

  /** At most one entry per recipe: what toggling alone keeps. */
  predicate AtMostOncePerRecipe(entries: seq<Favorite>) {
    forall i, j :: 0 <= i < j < |entries| ==> entries[i].recipeId != entries[j].recipeId
  }

  /** toggleFavorite on a collection whose read succeeded. */
  function Toggled(entries: seq<Favorite>, recipeId: string, docId: string, now: int): seq<Favorite> {
    if HasRecipe(entries, recipeId) then WithoutFirst(entries, recipeId)
    else entries + [Favorite(docId, recipeId, now)]
  }

  /** Deleting the first match leaves the entries of every other recipe
      as they were. */
  lemma WithoutFirstKeepsOthers(entries: seq<Favorite>, recipeId: string, other: string)
    requires other != recipeId
    ensures EntriesFor(WithoutFirst(entries, recipeId), other) == EntriesFor(entries, other)
  {
    var i := FirstMatch(entries, recipeId);
    if i < |entries| {
      var before, after := entries[..i], entries[i + 1..];
      assert WithoutFirst(entries, recipeId) == before + after;
      assert entries == before + ([entries[i]] + after);
      EntriesForAppend(before, [entries[i]] + after, other);
      EntriesForAppend([entries[i]], after, other);
      EntriesForAppend(before, after, other);
      EntriesForOther(entries[i], other);
      assert [] + EntriesFor(after, other) == EntriesFor(after, other);
    }
  }

  /** One entry of another recipe has no entries for this one. */
  lemma EntriesForOther(e: Favorite, recipeId: string)
    requires e.recipeId != recipeId
    ensures EntriesFor([e], recipeId) == []
  {
    assert [e][1..] == [];
  }

  /** Toggling a favourite deletes its only entry and keeps the others. */
  lemma ToggleRemoves(entries: seq<Favorite>, recipeId: string, docId: string, now: int)
    requires AtMostOncePerRecipe(entries) && HasRecipe(entries, recipeId)
    ensures !HasRecipe(Toggled(entries, recipeId, docId, now), recipeId)
    ensures AtMostOncePerRecipe(Toggled(entries, recipeId, docId, now))
  {
    var t := Toggled(entries, recipeId, docId, now);
    var i := FirstMatch(entries, recipeId);
    assert t == entries[..i] + entries[i + 1..];
    forall k | 0 <= k < |t| ensures t[k] == entries[if k < i then k else k + 1] {
    }
    forall k | 0 <= k < |t| ensures t[k].recipeId != recipeId {
      var k' := if k < i then k else k + 1;
      assert t[k] == entries[k'];
      if k' > i {
        assert entries[i].recipeId != entries[k'].recipeId;
      }
    }
    forall a, b | 0 <= a < b < |t| ensures t[a].recipeId != t[b].recipeId {
      var a' := if a < i then a else a + 1;
      var b' := if b < i then b else b + 1;
      assert t[a] == entries[a'] && t[b] == entries[b'];
    }
  }

  /** Toggling a recipe that is not a favourite appends its one entry. */
  lemma ToggleAdds(entries: seq<Favorite>, recipeId: string, docId: string, now: int)
    requires AtMostOncePerRecipe(entries) && !HasRecipe(entries, recipeId)
    ensures HasRecipe(Toggled(entries, recipeId, docId, now), recipeId)
    ensures AtMostOncePerRecipe(Toggled(entries, recipeId, docId, now))
  {
    var t := Toggled(entries, recipeId, docId, now);
    assert t[|entries|].recipeId == recipeId;
    assert forall k :: 0 <= k < |entries| ==> t[k] == entries[k];
  }

  /** Toggling leaves the entries of every other recipe untouched. */
  lemma ToggleKeepsOthers(entries: seq<Favorite>, recipeId: string, docId: string, now: int, other: string)
    requires other != recipeId
    ensures EntriesFor(Toggled(entries, recipeId, docId, now), other) == EntriesFor(entries, other)
  {
    if HasRecipe(entries, recipeId) {
      WithoutFirstKeepsOthers(entries, recipeId, other);
    } else {
      var e := Favorite(docId, recipeId, now);
      EntriesForAppend(entries, [e], other);
      assert EntriesFor([e], other) == [];
      assert EntriesFor(entries, other) + [] == EntriesFor(entries, other);
    }
  }

  /** On a collection with at most one entry per recipe, toggling flips
      whether the recipe is a favourite, keeps at most one entry per
      recipe, and leaves the entries of every other recipe untouched. */
  lemma ToggleFlips(entries: seq<Favorite>, recipeId: string, docId: string, now: int)
    requires AtMostOncePerRecipe(entries)
    ensures HasRecipe(Toggled(entries, recipeId, docId, now), recipeId) == !HasRecipe(entries, recipeId)
    ensures AtMostOncePerRecipe(Toggled(entries, recipeId, docId, now))
    ensures forall other :: other != recipeId ==>
              EntriesFor(Toggled(entries, recipeId, docId, now), other) == EntriesFor(entries, other)
  {
    if HasRecipe(entries, recipeId) {
      ToggleRemoves(entries, recipeId, docId, now);
    } else {
      ToggleAdds(entries, recipeId, docId, now);
    }
    forall other | other != recipeId
      ensures EntriesFor(Toggled(entries, recipeId, docId, now), other) == EntriesFor(entries, other)
    {
      ToggleKeepsOthers(entries, recipeId, docId, now, other);
    }
  }

  /** Toggling a recipe that is not a favourite twice restores the
      collection. */
  lemma ToggleTwice(entries: seq<Favorite>, recipeId: string, docId: string, now: int, docId': string, now': int)
    requires !HasRecipe(entries, recipeId)
    ensures Toggled(Toggled(entries, recipeId, docId, now), recipeId, docId', now') == entries
  {
    var e := Favorite(docId, recipeId, now);
    var t := entries + [e];
    assert t[|entries|] == e;
    assert HasRecipe(t, recipeId);
    assert forall k :: 0 <= k < |entries| ==> t[k] == entries[k];
    assert FirstMatch(t, recipeId) == |entries|;
    assert t[..|entries|] == entries;
  }

  // -----------------------------------------------------------------------
  // getFavorites

  predicate NewestFirst(entries: seq<Favorite>) {
    forall i, j :: 0 <= i < j < |entries| ==> entries[i].timestamp >= entries[j].timestamp
  }

  /** Insertion of one entry into a newest-first list, after every newer
      entry. */
  function Insert(e: Favorite, sorted: seq<Favorite>): (r: seq<Favorite>)
    ensures |r| == |sorted| + 1
  {
    if sorted == [] then [e]
    else if e.timestamp >= sorted[0].timestamp then [e] + sorted
    else [sorted[0]] + Insert(e, sorted[1..])
  }

  /** Insertion adds exactly the one entry. */
  lemma {:induction false} InsertPermutes(e: Favorite, sorted: seq<Favorite>)
    ensures multiset(Insert(e, sorted)) == multiset(sorted) + multiset{e}
  {
    if sorted != [] && e.timestamp < sorted[0].timestamp {
      InsertPermutes(e, sorted[1..]);
      assert sorted == [sorted[0]] + sorted[1..];
    }
  }

  /** Insertion keeps a list newest first, and its head is the new entry or
      the old head. */
  lemma {:induction false} InsertSorted(e: Favorite, sorted: seq<Favorite>)
    requires NewestFirst(sorted)
    ensures NewestFirst(Insert(e, sorted))
    ensures Insert(e, sorted)[0] == e || (sorted != [] && Insert(e, sorted)[0] == sorted[0])
  {
    if sorted != [] {
      var tail := sorted[1..];
      assert NewestFirst(tail) by {
        forall i, j | 0 <= i < j < |tail| ensures tail[i].timestamp >= tail[j].timestamp {
          assert tail[i] == sorted[i + 1] && tail[j] == sorted[j + 1];
        }
      }
      if e.timestamp >= sorted[0].timestamp {
        var r := [e] + sorted;
        forall i, j | 0 <= i < j < |r| ensures r[i].timestamp >= r[j].timestamp {
          assert r[j] == sorted[j - 1];
          if i > 0 {
            assert r[i] == sorted[i - 1];
          }
        }
      } else {
        var rest := Insert(e, tail);
        InsertSorted(e, tail);
        assert rest[0].timestamp <= sorted[0].timestamp by {
          if rest[0] != e {
            assert rest[0] == sorted[1];
          }
        }
        var r := [sorted[0]] + rest;
        forall i, j | 0 <= i < j < |r| ensures r[i].timestamp >= r[j].timestamp {
          assert r[j] == rest[j - 1];
          if i > 0 {
            assert r[i] == rest[i - 1];
          } else if j > 1 {
            assert rest[0].timestamp >= rest[j - 1].timestamp;
          }
        }
      }
    }
  }

  /** The entries ordered by timestamp, newest first. */
  function NewestFirstOrder(entries: seq<Favorite>): (r: seq<Favorite>)
    ensures |r| == |entries|
  {
    if entries == [] then [] else Insert(entries[0], NewestFirstOrder(entries[1..]))
  }

  /** The order is newest first and a permutation of the entries. */
  lemma {:induction false} NewestFirstOrderSpec(entries: seq<Favorite>)
    ensures NewestFirst(NewestFirstOrder(entries))
    ensures multiset(NewestFirstOrder(entries)) == multiset(entries)
  {
    if entries != [] {
      var sorted := NewestFirstOrder(entries[1..]);
      NewestFirstOrderSpec(entries[1..]);
      InsertSorted(entries[0], sorted);
      InsertPermutes(entries[0], sorted);
      assert entries == [entries[0]] + entries[1..];
    }
  }

  // -----------------------------------------------------------------------
  // The database

  class FavoritesStore {
    /** Each user's favourites. */
    var collections: map<string, seq<Favorite>>

    constructor()
      ensures collections == map[]
    {
      collections := map[];
    }

    /** The favourites of a user; a user without a collection has none. */
    function Entries(userId: string): seq<Favorite>
      reads this
    {
      if userId in collections then collections[userId] else []
    }

    /** addFavorite: a new entry is appended, even when the recipe is
        already a favourite. The database chooses the new document's id. */
    method AddFavorite(userId: string, recipeId: string, docId: string, now: int) returns (id: string)
      modifies this
      ensures id == docId
      ensures collections == old(collections)[userId := old(Entries(userId)) + [Favorite(docId, recipeId, now)]]
    {
      collections := collections[userId := Entries(userId) + [Favorite(docId, recipeId, now)]];
      id := docId;
    }

    /** removeFavorite: the first entry naming the recipe is deleted and
        the answer is true; with none, nothing changes and the answer is
        false. */
    method RemoveFavorite(userId: string, recipeId: string) returns (removed: bool)
      modifies this
      ensures removed <==> old(HasRecipe(Entries(userId), recipeId))
      ensures removed ==> collections == old(collections)[userId := WithoutFirst(old(Entries(userId)), recipeId)]
      ensures !removed ==> collections == old(collections)
    {
      var matches := HasRecipe(Entries(userId), recipeId);
      if matches {
        collections := collections[userId := WithoutFirst(Entries(userId), recipeId)];
        removed := true;
      } else {
        removed := false;
      }
    }

    /** isFavorite: whether some entry names the recipe; a failed read
        answers false instead of failing. */
    method IsFavorite(userId: string, recipeId: string, readFailed: bool) returns (favorite: bool)
      ensures favorite <==> !readFailed && exists e :: e in Entries(userId) && e.recipeId == recipeId
    {
      if readFailed {
        favorite := false;
      } else {
        favorite := HasRecipe(Entries(userId), recipeId);
        if favorite {
          var i :| 0 <= i < |Entries(userId)| && Entries(userId)[i].recipeId == recipeId;
          assert Entries(userId)[i] in Entries(userId);
        }
      }
    }

    /** toggleFavorite: remove when isFavorite says the recipe is a
        favourite and answer false; otherwise add and answer true. A failed
        read therefore adds an entry. */
    method ToggleFavorite(userId: string, recipeId: string, docId: string, now: int, readFailed: bool)
      returns (nowFavorite: bool)
      modifies this
      ensures nowFavorite <==> readFailed || !old(HasRecipe(Entries(userId), recipeId))
      ensures !readFailed ==>
                collections == old(collections)[userId := Toggled(old(Entries(userId)), recipeId, docId, now)]
      ensures readFailed ==>
                collections == old(collections)[userId := old(Entries(userId)) + [Favorite(docId, recipeId, now)]]
    {
      var favorited := IsFavorite(userId, recipeId, readFailed);
      if favorited {
        var _ := RemoveFavorite(userId, recipeId);
        nowFavorite := false;
      } else {
        var _ := AddFavorite(userId, recipeId, docId, now);
        nowFavorite := true;
      }
    }

    /** getFavorites: all of the user's entries, newest first. */
    function GetFavorites(userId: string): (r: seq<Favorite>)
      reads this
      ensures NewestFirst(r)
      ensures multiset(r) == multiset(Entries(userId))
    {
      NewestFirstOrderSpec(Entries(userId));
      NewestFirstOrder(Entries(userId))
    }
  }
}

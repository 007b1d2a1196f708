/** The recipe store (src/lib/firebase/firestore.js): the rating
    transaction that adds a review to a recipe, the query built from the
    listing filters, and the guards of the lookups. The database is an
    in-memory pair of maps from recipe id to recipe document and to the
    recipe's ratings subcollection; a transaction is one atomic method. */
module Firestore {
  import opened Common
  import opened Recipes
  import opened FilterPanel

  // -----------------------------------------------------------------------
  // The rating transaction

  /** The fields updateWithRating writes into the recipe document. */
  function UpdateWithRating(doc: RecipeDoc, review: Review): (r: RecipeDoc)
    ensures r.numRatings.Some? && r.numRatings.value == doc.numRatings.GetOr(0) + 1
    ensures r.sumRating == Some(doc.sumRating.GetOr(0) + review.rating)
    ensures r.avgRating.Some? && IsAverage(r.avgRating.value, r.sumRating.value, r.numRatings.value)
    ensures r.lastReviewUserId == Some(review.userId)
    // nothing else changes
    ensures r.(numRatings := doc.numRatings, sumRating := doc.sumRating,
               avgRating := doc.avgRating, lastReviewUserId := doc.lastReviewUserId) == doc
  {
    // a count that is missing or 0 is falsy, so the new count is 1
    var newNumRatings: nat :=
      if doc.numRatings.Some? && doc.numRatings.value != 0 then doc.numRatings.value + 1 else 1;
    var newSumRating := doc.sumRating.GetOr(0) + review.rating;
    var newAverage := Ratio(newSumRating, newNumRatings);
    doc.(numRatings := Some(newNumRatings), sumRating := Some(newSumRating),
         avgRating := Some(newAverage), lastReviewUserId := Some(review.userId))
  }

  /** The document the transaction adds to the ratings subcollection: the
      review's fields plus the time of the write. */
  function NewRatingDoc(review: Review, now: int): (r: RatingDoc)
    ensures r.rating == review.rating && r.text == review.text && r.userId == review.userId
    ensures r.timestamp == now
  {
    RatingDoc(review.rating, review.text, review.userId, now)
  }

  /** One review keeps the aggregation invariant. */
  lemma {:induction false} UpdatePreservesAggregates(doc: RecipeDoc, ratings: seq<RatingDoc>, review: Review, now: int)
    requires Aggregates(doc, ratings)
    ensures Aggregates(UpdateWithRating(doc, review), ratings + [NewRatingDoc(review, now)])
  {
    SumRatingsAppend(ratings, NewRatingDoc(review, now));
  }

  datatype ReviewError = NoRecipeId | InvalidReview | TransactionFailed

  /** The result of getRecipeById: undefined for a missing id, a thrown
      TypeError when the document does not exist, or the document. */
  datatype Fetched = Undefined | Thrown | Found(doc: RecipeDoc)

  /** How the writes of one seed recipe go: all succeed; the recipe's own
      write fails, so nothing of it is stored; or the write of rating `at`
      fails, so the recipe and the ratings before that one are stored. */
  datatype SeedWrite = AllWritten | RecipeWriteFails | RatingWriteFails(at: nat)

  /** No rating write of the recipe fails. */
  predicate SeedWriteComplete(w: SeedWrite, rs: seq<RatingDoc>) {
    !(w.RatingWriteFails? && w.at < |rs|)
  }

  /** The ratings that reach the subcollection of a stored seed recipe: a
      prefix of its ratings, all of them exactly when no rating write
      fails. */
  function StoredRatings(rs: seq<RatingDoc>, w: SeedWrite): (r: seq<RatingDoc>)
    ensures |r| <= |rs| && r == rs[..|r|]
    ensures !w.RecipeWriteFails? ==> (r == rs <==> SeedWriteComplete(w, rs))
  {
    match w
    case AllWritten => rs
    case RecipeWriteFails => []
    case RatingWriteFails(k) => if k < |rs| then rs[..k] else rs
  }

  /** The inner loop of addFakeRecipesAndReviews: add the ratings one by
      one until a write fails. */
  method WriteRatings(rs: seq<RatingDoc>, w: SeedWrite) returns (written: seq<RatingDoc>)
    requires !w.RecipeWriteFails?
    ensures written == StoredRatings(rs, w)
  {
    written := [];
    var j := 0;
    while j < |rs| && !(w.RatingWriteFails? && w.at == j)
      invariant j <= |rs| && written == rs[..j]
      invariant w.RatingWriteFails? ==> j <= w.at
    {
      written := written + [rs[j]];
      j := j + 1;
    }
    assert rs[..|rs|] == rs;
  }

  /** The loop of addFakeRecipesAndReviews over the two collections:
      the recipes and ratings subcollections after the seed writes. */
  method SeedWrites(recipes: map<string, RecipeDoc>, ratings: map<string, seq<RatingDoc>>,
                    data: seq<RecipeWithRatings>, ids: seq<string>, writes: seq<SeedWrite>)
    returns (stored: map<string, RecipeDoc>, storedRatings: map<string, seq<RatingDoc>>)
    requires recipes.Keys == ratings.Keys
    requires |ids| == |data| && |writes| == |data| && NoDuplicates(ids)
    requires forall i :: 0 <= i < |ids| ==> ids[i] !in recipes
    ensures stored.Keys == storedRatings.Keys
    ensures forall id :: id in stored ==> id in recipes || id in ids
    ensures forall i :: 0 <= i < |ids| ==> (ids[i] in stored <==> !writes[i].RecipeWriteFails?)
    ensures forall id :: id in recipes ==>
              id in stored && stored[id] == recipes[id] && storedRatings[id] == ratings[id]
    ensures forall i :: 0 <= i < |ids| && !writes[i].RecipeWriteFails? ==>
              stored[ids[i]] == data[i].recipe && storedRatings[ids[i]] == StoredRatings(data[i].ratings, writes[i])
  {
    stored, storedRatings := recipes, ratings;
    for i := 0 to |data|
      invariant stored.Keys == storedRatings.Keys
      invariant forall id :: id in stored ==> id in recipes || id in ids
      invariant forall k :: 0 <= k < i ==> (ids[k] in stored <==> !writes[k].RecipeWriteFails?)
      invariant forall k :: i <= k < |ids| ==> ids[k] !in stored
      invariant forall id :: id in recipes ==>
                  id in stored && stored[id] == recipes[id] && storedRatings[id] == ratings[id]
      invariant forall k :: 0 <= k < i && !writes[k].RecipeWriteFails? ==>
                  && ids[k] in stored && ids[k] in storedRatings
                  && stored[ids[k]] == data[k].recipe
                  && storedRatings[ids[k]] == StoredRatings(data[k].ratings, writes[k])
    {
      var id := ids[i];
      assert id in ids;
      assert forall k :: i < k < |ids| ==> ids[k] != id;
      if !writes[i].RecipeWriteFails? {
        stored := stored[id := data[i].recipe];
        var written := WriteRatings(data[i].ratings, writes[i]);
        storedRatings := storedRatings[id := written];
      }
    }
  }

  /** A rating write that fails leaves a stored seed recipe whose counters
      include ratings that were never written. */
  lemma PartialSeedBreaksAggregates(doc: RecipeDoc, rs: seq<RatingDoc>, w: SeedWrite)
    requires Aggregates(doc, rs)
    requires !w.RecipeWriteFails? && !SeedWriteComplete(w, rs)
    ensures !Aggregates(doc, StoredRatings(rs, w))
  {
    assert |StoredRatings(rs, w)| < |rs|;
  }

  class RecipeStore {
    /** The recipes collection. */
    var recipes: map<string, RecipeDoc>
    /** The ratings subcollection of each recipe, in insertion order. */
    var ratings: map<string, seq<RatingDoc>>

    /** Every recipe has a ratings subcollection (possibly empty), and no
        ratings exist without their recipe. */
    ghost predicate Valid()
      reads this
    {
      recipes.Keys == ratings.Keys
    }

    /** Every recipe's counters agree with its ratings. */
    ghost predicate Aggregated()
      reads this
      requires Valid()
    {
      forall id :: id in recipes ==> Aggregates(recipes[id], ratings[id])
    }

    constructor ()
      ensures Valid() && Aggregated()
      ensures recipes == map[] && ratings == map[]
    {
      recipes := map[];
      ratings := map[];
    }

    /** addReviewToRecipe: reject a missing id or review before any write;
        otherwise run updateWithRating as one transaction, which fails as a
        whole when the recipe document does not exist (an update of a
        missing document is refused by the database). */
    method AddReviewToRecipe(recipeId: string, review: Option<Review>, now: int)
      returns (err: Option<ReviewError>)
      requires Valid()
      modifies this
      ensures Valid()
      ensures recipeId == "" ==> err == Some(NoRecipeId)
      ensures recipeId != "" && review.None? ==> err == Some(InvalidReview)
      ensures recipeId != "" && review.Some? ==>
                err == (if recipeId in old(recipes) then None else Some(TransactionFailed))
      ensures err.Some? ==> recipes == old(recipes) && ratings == old(ratings)
      ensures err.None? ==>
                && recipes == old(recipes)[recipeId := UpdateWithRating(old(recipes)[recipeId], review.value)]
                && ratings == old(ratings)[recipeId := old(ratings)[recipeId] + [NewRatingDoc(review.value, now)]]
      ensures old(Aggregated()) ==> Aggregated()
    {
      if recipeId == "" {
        return Some(NoRecipeId);
      }
      if review.None? {
        return Some(InvalidReview);
      }
      if recipeId !in recipes {
        return Some(TransactionFailed);
      }
      ghost var wasAggregated := Aggregated();
      var doc := recipes[recipeId];
      var rating := NewRatingDoc(review.value, now);
      ghost var before := ratings[recipeId];
      recipes := recipes[recipeId := UpdateWithRating(doc, review.value)];
      ratings := ratings[recipeId := ratings[recipeId] + [rating]];
      if wasAggregated {
        UpdatePreservesAggregates(doc, before, review.value, now);
      }
      err := None;
    }

    /** addDoc on the recipes collection (addRecipeToFirestore, and the
        recipe half of each seeding step): the new document gets a fresh id
        and an empty ratings subcollection. */
    method AddRecipe(id: string, doc: RecipeDoc) returns (newId: string)
      requires Valid()
      requires id !in recipes
      modifies this
      ensures Valid()
      ensures newId == id
      ensures recipes == old(recipes)[id := doc] && ratings == old(ratings)[id := []]
      ensures old(Aggregated()) && Aggregates(doc, []) ==> Aggregated()
    {
      recipes := recipes[id := doc];
      ratings := ratings[id := []];
      newId := id;
    }

    /** addFakeRecipesAndReviews: each generated recipe is written under
        its fresh id, then its ratings one by one. A failed write ends that
        recipe's writes; the failure is logged and the next recipe is
        written. The writes made before the failure stay. */
    method AddFakeRecipesAndReviews(data: seq<RecipeWithRatings>, ids: seq<string>, writes: seq<SeedWrite>)
      requires Valid()
      requires |ids| == |data| && |writes| == |data| && NoDuplicates(ids)
      requires forall i :: 0 <= i < |ids| ==> ids[i] !in recipes
      modifies this
      ensures Valid()
      ensures forall id :: id in recipes ==> id in old(recipes) || id in ids
      ensures forall i :: 0 <= i < |ids| ==> (ids[i] in recipes <==> !writes[i].RecipeWriteFails?)
      ensures forall id :: id in old(recipes) ==>
                id in recipes && recipes[id] == old(recipes)[id] && ratings[id] == old(ratings)[id]
      ensures forall i :: 0 <= i < |ids| && !writes[i].RecipeWriteFails? ==>
                recipes[ids[i]] == data[i].recipe && ratings[ids[i]] == StoredRatings(data[i].ratings, writes[i])
      ensures old(Aggregated()) ==>
                (forall p :: p in data ==> Aggregates(p.recipe, p.ratings)) ==>
                (forall i :: 0 <= i < |writes| ==> SeedWriteComplete(writes[i], data[i].ratings)) ==>
                Aggregated()
    {
      ghost var allAggregated := Aggregated() && (forall p :: p in data ==> Aggregates(p.recipe, p.ratings)) &&
                                 (forall i :: 0 <= i < |writes| ==> SeedWriteComplete(writes[i], data[i].ratings));
      var stored, storedRatings := SeedWrites(recipes, ratings, data, ids, writes);
      recipes, ratings := stored, storedRatings;
      if allAggregated {
        forall id | id in recipes ensures Aggregates(recipes[id], ratings[id]) {
          if id !in old(recipes) {
            var k :| 0 <= k < |ids| && ids[k] == id;
            assert data[k] in data;
          }
        }
      }
    }

    /** getRecipeById: no lookup for a missing id; reading the data of a
        document that does not exist throws. */
    function GetRecipeById(recipeId: string): (r: Fetched)
      reads this
      ensures r.Undefined? <==> recipeId == ""
      ensures r.Thrown? <==> recipeId != "" && recipeId !in recipes
      ensures r.Found? ==> recipeId in recipes && r.doc == recipes[recipeId]
    {
      if recipeId == "" then Undefined
      else if recipeId !in recipes then Thrown
      else Found(recipes[recipeId])
    }
  }

  /** getLatestAIRecipe over a listing of the recipes collection: null when
      no AI-generated recipe exists, otherwise one with the latest
      timestamp. */
  function LatestAIRecipe(docs: seq<(string, RecipeDoc)>): (r: Option<(string, RecipeDoc)>)
    ensures r.None? <==> forall p :: p in docs ==> !p.1.aiGenerated
    ensures r.Some? ==> r.value in docs && r.value.1.aiGenerated
    ensures r.Some? ==> forall p :: p in docs && p.1.aiGenerated ==> p.1.timestamp <= r.value.1.timestamp
  {
    if docs == [] then None
    else
      var rest := LatestAIRecipe(docs[1..]);
      assert forall p :: p in docs <==> p == docs[0] || p in docs[1..];
      if !docs[0].1.aiGenerated then rest
      else if rest.Some? && docs[0].1.timestamp <= rest.value.1.timestamp then rest
      else Some(docs[0])
  }

  // -----------------------------------------------------------------------
  // The query built from the listing filters

  datatype Op = Equal | ArrayContains
  datatype Direction = Asc | Desc
  /** The document fields a query can order by. */
  datatype SortField = AvgRating | NumRatings | CookingTimeField

  /** A clause of the recipes query; a filter clause names the filter key
      whose document field it tests (the field has the key's name). */
  datatype Clause = Where(key: FilterKey, op: Op, value: string) | OrderBy(field: SortField, dir: Direction)

  function SortFieldName(s: SortField): string {
    match s
    case AvgRating => "avgRating"
    case NumRatings => "numRatings"
    case CookingTimeField => "cookingTime"
  }

  /** The filter clause of one key: equality, except array-contains for the
      dietary restriction, which is tested against the document's list. */
  function FilterClause(f: Filters, k: FilterKey): Clause {
    Where(k, if k == DietaryRestrictions then ArrayContains else Equal, Get(f, k))
  }

  /** `[c]` when the filter is set, else nothing: the effect of one
      `if (value) q = query(q, where(...))` step. */
  function IfSet(f: Filters, k: FilterKey): seq<Clause> {
    if Get(f, k) != "" then [FilterClause(f, k)] else []
  }

  /** The clauses of the set filters among `keys`, in the order of `keys`:
      a reference definition of the filter part of the query. */
  function SetClauses(f: Filters, keys: seq<FilterKey>): seq<Clause> {
    if keys == [] then [] else IfSet(f, keys[0]) + SetClauses(f, keys[1..])
  }

  /** The keys the query tests, in the order it tests them. */
  const FilterKeys: seq<FilterKey> := [CuisineType, Difficulty, CookingTime, DietaryRestrictions]

  /** The ordering clause chosen by the sort option: by average rating when
      the option is "Rating" or empty, by number of ratings for "Review", by
      cooking time for "Cooking Time", and none for any other value. */
  function SortClause(sort: string): (r: seq<Clause>)
    ensures |r| <= 1 && forall c :: c in r ==> c.OrderBy?
    ensures (sort == "Rating" || sort == "") ==> r == [OrderBy(AvgRating, Desc)]
    ensures sort == "Review" ==> r == [OrderBy(NumRatings, Desc)]
    ensures sort == "Cooking Time" ==> r == [OrderBy(CookingTimeField, Asc)]
    ensures sort !in {"Rating", "", "Review", "Cooking Time"} ==> r == []
  {
    if sort == "Rating" || sort == "" then [OrderBy(AvgRating, Desc)]
    else if sort == "Review" then [OrderBy(NumRatings, Desc)]
    else if sort == "Cooking Time" then [OrderBy(CookingTimeField, Asc)]
    else []
  }

  /** applyQueryFilters: the clauses appended to the recipes query, step by
      step as the source appends them. */
  function ApplyQueryFilters(f: Filters): (q: seq<Clause>)
    ensures q == SetClauses(f, FilterKeys) + SortClause(f.sort)
  {
    var q0: seq<Clause> := [];
    var q1 := q0 + (if f.cuisineType != "" then [Where(CuisineType, Equal, f.cuisineType)] else []);
    var q2 := q1 + (if f.difficulty != "" then [Where(Difficulty, Equal, f.difficulty)] else []);
    var q3 := q2 + (if f.cookingTime != "" then [Where(CookingTime, Equal, f.cookingTime)] else []);
    var q4 := q3 + (if f.dietaryRestrictions != "" then [Where(DietaryRestrictions, ArrayContains, f.dietaryRestrictions)] else []);
    var q5 :=
      if f.sort == "Rating" || f.sort == "" then q4 + [OrderBy(AvgRating, Desc)]
      else if f.sort == "Review" then q4 + [OrderBy(NumRatings, Desc)]
      else if f.sort == "Cooking Time" then q4 + [OrderBy(CookingTimeField, Asc)]
      else q4;
    SetClausesUnrolled(f);
    assert q4 == IfSet(f, CuisineType) + IfSet(f, Difficulty) + IfSet(f, CookingTime) + IfSet(f, DietaryRestrictions);
    q5
  }

  lemma SetClausesUnrolled(f: Filters)
    ensures SetClauses(f, FilterKeys) ==
      IfSet(f, CuisineType) + IfSet(f, Difficulty) + IfSet(f, CookingTime) + IfSet(f, DietaryRestrictions)
  {
    var ks := FilterKeys;
    assert ks[1..][1..][1..][1..] == [];
    assert SetClauses(f, ks[1..][1..][1..]) == IfSet(f, DietaryRestrictions) + SetClauses(f, []);
    assert SetClauses(f, ks[1..][1..]) == IfSet(f, CookingTime) + SetClauses(f, ks[1..][1..][1..]);
    assert SetClauses(f, ks[1..]) == IfSet(f, Difficulty) + SetClauses(f, ks[1..][1..]);
  }

  lemma {:induction false} SetClausesMembership(f: Filters, keys: seq<FilterKey>)
    ensures forall c :: c in SetClauses(f, keys) <==> exists k :: k in keys && Get(f, k) != "" && c == FilterClause(f, k)
  {
    if keys != [] {
      SetClausesMembership(f, keys[1..]);
      assert forall k :: k in keys <==> k == keys[0] || k in keys[1..];
    }
  }

  /** The filter clause of a key is in the query exactly when that filter
      is set, and the query holds no other filter clause. */
  lemma QueryFilterClauses(f: Filters)
    ensures forall k :: k != Sort ==> (FilterClause(f, k) in ApplyQueryFilters(f) <==> Get(f, k) != "")
    ensures forall c :: c in ApplyQueryFilters(f) && c.Where? ==>
              c.key != Sort && c.value != "" && c == FilterClause(f, c.key)
  {
    SetClausesMembership(f, FilterKeys);
    var q := ApplyQueryFilters(f);
    forall k | k != Sort ensures FilterClause(f, k) in q <==> Get(f, k) != "" {
      assert k in FilterKeys;
      assert FilterClause(f, k) !in SortClause(f.sort);
    }
  }

  /** At most one ordering clause is appended, after every filter clause. */
  lemma QueryOrderingLast(f: Filters)
    ensures forall i :: 0 <= i < |ApplyQueryFilters(f)| && ApplyQueryFilters(f)[i].OrderBy? ==>
              i == |ApplyQueryFilters(f)| - 1
  {
    SetClausesMembership(f, FilterKeys);
    var w := SetClauses(f, FilterKeys);
    var q := ApplyQueryFilters(f);
    assert forall i :: 0 <= i < |w| ==> w[i] in w;
  }

  /** The order the filter panel announces is the order the query applies:
      an empty sort shows as "Rating" and sorts by average rating. */
  lemma SortLabelMatchesQuery(f: Filters)
    ensures SortClause(SortLabel(f)) == SortClause(f.sort)
    ensures f.sort == "" ==> SortLabel(f) == "Rating" && SortClause(f.sort) == [OrderBy(AvgRating, Desc)]
  {
  }
}

/** The recipe document as the database stores it, its ratings
    subcollection, and the aggregation invariant that ties the two:
    numRatings counts the ratings, sumRating adds them up, and avgRating is
    their quotient. */
module Recipes {
  import opened Common

  /** A rational number num / den; avgRating is kept exact in this model. */
  datatype Ratio = Ratio(num: int, den: nat)

  const Zero: Ratio := Ratio(0, 1)

  /** `a` denotes sum / count, and 0 when there is nothing to average. */
  predicate IsAverage(a: Ratio, sum: int, count: nat) {
    a.den > 0 &&
    (if count == 0 then a.num == 0 else a.num * count == sum * a.den)
  }

  /** The review a user submits. */
  datatype Review = Review(rating: int, text: string, userId: string)

  /** A document of a recipe's ratings subcollection. */
  datatype RatingDoc = RatingDoc(rating: int, text: string, userId: string, timestamp: int)

  /** The descriptive fields of a recipe: those of a seeded recipe are
      plain strings; those of an AI recipe are whatever the model's JSON
      held, with defaults filled in. */
  datatype Details =
    | Seeded(name: string, description: string, ingredients: seq<string>,
             instructions: seq<string>, cuisineType: string, difficulty: string,
             cookingTime: string, dietaryRestrictions: seq<string>)
    | Generated(ai: AiRecipe)

  datatype AiRecipe = AiRecipe(
    name: Json, description: Json, ingredients: seq<Json>, instructions: seq<Json>,
    cuisineType: Json, difficulty: Json, cookingTime: Json,
    dietaryRestrictions: seq<Json>, servings: Json, prepTime: Json, calories: Json)

  /** A document of the recipes collection. A field the document does not
      hold is None. */
  datatype RecipeDoc = RecipeDoc(
    details: Details,
    aiGenerated: bool,
    timestamp: int,
    photo: string,
    numRatings: Option<nat>,
    sumRating: Option<int>,
    avgRating: Option<Ratio>,
    lastReviewUserId: Option<string>)

  /** A recipe together with the ratings written under it. */
  datatype RecipeWithRatings = RecipeWithRatings(recipe: RecipeDoc, ratings: seq<RatingDoc>)

  /** The sum of the ratings, folded from the left as Array.reduce does. */
  function SumRatings(rs: seq<RatingDoc>): int {
    if rs == [] then 0 else SumRatings(rs[..|rs| - 1]) + rs[|rs| - 1].rating
  }

  lemma SumRatingsAppend(rs: seq<RatingDoc>, x: RatingDoc)
    ensures SumRatings(rs + [x]) == SumRatings(rs) + x.rating
  {
    assert (rs + [x])[..|rs|] == rs;
  }

  /** The aggregation invariant of a recipe document and its ratings. A
      missing count or sum reads as 0, as the review transaction reads it. */
  predicate Aggregates(doc: RecipeDoc, ratings: seq<RatingDoc>) {
    && doc.numRatings.GetOr(0) == |ratings|
    && doc.sumRating.GetOr(0) == SumRatings(ratings)
    && doc.avgRating.Some?
    && IsAverage(doc.avgRating.value, SumRatings(ratings), |ratings|)
  }
}

/** The seed data of the application (src/lib/fakeRestaurants.js): five
    recipes, each with a random number of ratings, random ingredients and
    dietary restrictions drawn without repetition from fixed pools, and the
    counters of its ratings filled in. Randomness is a stream of numbers
    the generator draws from in program order. */
module FakeRecipes {
  import opened Common
  import opened Recipes

  /** A sample review of the pools. */
  datatype SampleReview = SampleReview(rating: int, text: string)

  /** The fixed pools the generator draws from (src/lib/randomData.js is
      not part of this model; its lists are taken as given). */
  datatype RandomData = RandomData(
    recipeReviews: seq<SampleReview>,
    ingredients: seq<string>,
    dietaryRestrictions: seq<string>,
    recipeNames: seq<string>,
    cuisineTypes: seq<string>,
    difficultyLevels: seq<string>,
    cookingTimes: seq<string>)

  /** Every pool has something to draw. */
  predicate NonEmptyPools(d: RandomData) {
    && |d.recipeReviews| > 0 && |d.ingredients| > 0 && |d.dietaryRestrictions| > 0
    && |d.recipeNames| > 0 && |d.cuisineTypes| > 0 && |d.difficultyLevels| > 0
    && |d.cookingTimes| > 0
  }

  /** A source of random numbers: the n-th draw reads the n-th number of
      the stream. */
  class Dice {
    const stream: nat -> nat
    var pos: nat

    constructor(stream: nat -> nat)
      ensures this.stream == stream && pos == 0
    {
      this.stream := stream;
      pos := 0;
    }

    /** randomNumberBetween(lo, hi): a number from lo to hi inclusive. */
    method Between(lo: int, hi: int) returns (n: int)
      requires lo <= hi
      modifies this`pos
      ensures lo <= n <= hi
      ensures n == lo + stream(old(pos)) % (hi - lo + 1)
      ensures pos == old(pos) + 1
    {
      n := lo + stream(pos) % (hi - lo + 1);
      pos := pos + 1;
    }

    /** A draw used as it comes: a date offset or a user number. */
    method Next() returns (n: nat)
      modifies this`pos
      ensures n == stream(old(pos))
      ensures pos == old(pos) + 1
    {
      n := stream(pos);
      pos := pos + 1;
    }

    /** An entry of a pool at a random position. */
    method Pick<T>(pool: seq<T>) returns (x: T)
      requires |pool| > 0
      modifies this`pos
      ensures x in pool
      ensures x == pool[stream(old(pos)) % |pool|]
      ensures pos == old(pos) + 1
    {
      var i := Between(0, |pool| - 1);
      x := pool[i];
    }
  }

  /** The ingredient and dietary-restriction loops: draw how many entries
      to try, then draw that many and keep each one not already kept. The
      result has no duplicates, comes from the pool, and has at most the
      drawn number of entries, itself between lo and hi; when lo > 0 the
      first draw is always kept. */
  method PickDistinct(dice: Dice, pool: seq<string>, lo: nat, hi: nat) returns (count: int, picked: seq<string>)
    requires |pool| > 0 && lo <= hi
    modifies dice`pos
    ensures lo <= count <= hi && |picked| <= count
    ensures NoDuplicates(picked)
    ensures forall x :: x in picked ==> x in pool
    ensures lo > 0 ==> |picked| > 0
  {
    count := dice.Between(lo, hi);
    picked := [];
    for k := 0 to count
      invariant NoDuplicates(picked)
      invariant forall x :: x in picked ==> x in pool
      invariant |picked| <= k
      invariant k > 0 ==> |picked| > 0
    {
      var x := dice.Pick(pool);
      if x !in picked {
        NoDuplicatesAppend(picked, x);
        picked := picked + [x];
      }
    }
  }

  /** The five steps every seed recipe has. */
  const Instructions: seq<string> := [
    "Prepare all ingredients as needed.",
    "Heat a large pan over medium heat.",
    "Add the main ingredients and cook until done.",
    "Season to taste and serve hot.",
    "Enjoy your delicious meal!"
  ]

  /** The average of the ratings, or 0 without ratings. */
  function Average(ratings: seq<RatingDoc>): (a: Ratio)
    ensures IsAverage(a, SumRatings(ratings), |ratings|)
  {
    if |ratings| > 0 then Ratio(SumRatings(ratings), |ratings|) else Zero
  }

  /** The ratings loop: before every iteration a new bound from 0 to 5 is
      drawn and the loop stops once the count reaches it, so there are at
      most five ratings. Each one is a sample review's rating, another
      sample's text, a random user and a date after the recipe's. */
  method GenerateRatings(dice: Dice, pools: RandomData, recipeTimestamp: int) returns (ratings: seq<RatingDoc>)
    requires NonEmptyPools(pools)
    modifies dice`pos
    ensures |ratings| <= 5
    ensures forall r :: r in ratings ==> r.timestamp >= recipeTimestamp
    ensures forall r :: r in ratings ==> exists s :: s in pools.recipeReviews && s.rating == r.rating
  {
    ratings := [];
    var j := 0;
    var bound := dice.Between(0, 5);
    while j < bound
      invariant j <= 5 && |ratings| == j
      invariant forall r :: r in ratings ==> r.timestamp >= recipeTimestamp
      invariant forall r :: r in ratings ==> exists s :: s in pools.recipeReviews && s.rating == r.rating
      decreases 5 - j
    {
      var after := dice.Next();
      var forRating := dice.Pick(pools.recipeReviews);
      var forText := dice.Pick(pools.recipeReviews);
      var user := dice.Next();
      var rating := RatingDoc(forRating.rating, forText.text, "User #" + NatToString(user), recipeTimestamp + after);
      ratings := ratings + [rating];
      j := j + 1;
      bound := dice.Between(0, 5);
    }
  }

  /** One seed recipe and its ratings. */
  method GenerateOne(dice: Dice, pools: RandomData, image: (string, string) -> string)
    returns (entry: RecipeWithRatings)
    requires NonEmptyPools(pools)
    modifies dice`pos
    ensures Aggregates(entry.recipe, entry.ratings)
    ensures !entry.recipe.aiGenerated && entry.recipe.details.Seeded?
    ensures entry.recipe.details.instructions == Instructions
    ensures NoDuplicates(entry.recipe.details.ingredients)
    ensures 0 < |entry.recipe.details.ingredients| <= 8
    ensures forall x :: x in entry.recipe.details.ingredients ==> x in pools.ingredients
    ensures NoDuplicates(entry.recipe.details.dietaryRestrictions)
    ensures |entry.recipe.details.dietaryRestrictions| <= 3
    ensures forall x :: x in entry.recipe.details.dietaryRestrictions ==> x in pools.dietaryRestrictions
    ensures |entry.ratings| <= 5
    ensures forall r :: r in entry.ratings ==> r.timestamp >= entry.recipe.timestamp
  {
    var before := dice.Next();
    var recipeTimestamp := -(before as int);
    var ratings := GenerateRatings(dice, pools, recipeTimestamp);
    var avgRating := Average(ratings);
    var numIngredients, ingredients := PickDistinct(dice, pools.ingredients, 3, 8);
    var numDietaryRestrictions, dietaryRestrictions := PickDistinct(dice, pools.dietaryRestrictions, 0, 3);
    var name := dice.Pick(pools.recipeNames);
    var describedCuisine := dice.Pick(pools.cuisineTypes);
    var description := "A delicious " + ToLower(describedCuisine) + " recipe that's perfect for any occasion.";
    var cuisineType := dice.Pick(pools.cuisineTypes);
    var difficulty := dice.Pick(pools.difficultyLevels);
    var cookingTime := dice.Pick(pools.cookingTimes);
    var photoName := dice.Pick(pools.recipeNames);
    var photoCuisine := dice.Pick(pools.cuisineTypes);
    var details := Seeded(name, description, ingredients, Instructions, cuisineType, difficulty,
                          cookingTime, dietaryRestrictions);
    var recipe := RecipeDoc(details, false, recipeTimestamp, image(photoName, photoCuisine),
                            Some(|ratings|), Some(SumRatings(ratings)), Some(avgRating), None);
    entry := RecipeWithRatings(recipe, ratings);
  }

  /** How many recipes the seed data holds. */
  const RecipesToAdd := 5

  /** generateFakeRecipesAndReviews: five seed recipes, each consistent
      with its ratings. */
  method GenerateFakeRecipesAndReviews(dice: Dice, pools: RandomData, image: (string, string) -> string)
    returns (data: seq<RecipeWithRatings>)
    requires NonEmptyPools(pools)
    modifies dice`pos
    ensures |data| == RecipesToAdd
    ensures forall p :: p in data ==> Aggregates(p.recipe, p.ratings)
    ensures forall p :: p in data ==>
              && !p.recipe.aiGenerated && p.recipe.details.Seeded?
              && p.recipe.details.instructions == Instructions
              && NoDuplicates(p.recipe.details.ingredients)
              && NoDuplicates(p.recipe.details.dietaryRestrictions)
  {
    data := [];
    for i := 0 to RecipesToAdd
      invariant |data| == i
      invariant forall p :: p in data ==> Aggregates(p.recipe, p.ratings)
      invariant forall p :: p in data ==>
                  && !p.recipe.aiGenerated && p.recipe.details.Seeded?
                  && p.recipe.details.instructions == Instructions
                  && NoDuplicates(p.recipe.details.ingredients)
                  && NoDuplicates(p.recipe.details.dietaryRestrictions)
    {
      var entry := GenerateOne(dice, pools, image);
      data := data + [entry];
    }
  }
}

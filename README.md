# Recipe finder: a Dafny model of its core logic

The application is a recipe site. Its recipes live in a document database. Users rate and review recipes. A generative model writes new recipes from the ingredients a user lists. Users can also keep favourites. This project models the parts of the program that hold logic of their own:

- **The rating transaction** (`src/lib/firebase/firestore.js`). It appends a review to a recipe's ratings subcollection and updates the recipe's `numRatings`, `sumRating`, `avgRating` and `lastReviewUserId`. The model states the aggregation invariant and proves that every review keeps it:
  - the count equals the number of ratings;
  - the sum equals the total of the ratings;
  - the average is sum divided by count, or 0 when there are no ratings.
- **Other database operations** in the same file:
  - the guards of `getRecipeById`;
  - `getLatestAIRecipe`;
  - the seeding and insertion of recipes;
  - the query `applyQueryFilters` builds from the listing filters.
- **AI recipe handling** (`src/lib/ai/recipeGenerator.js`):
  - the prompt;
  - the removal of Markdown code fences around the model's reply;
  - validation and defaulting of the parsed recipe;
  - the collection of several attempts.
- **The filter record** of the listings page. The filter panel's updates and tags (`src/components/Filters.jsx`). The URL state: search parameters are read back as filters and written from them (`src/components/RecipeListings.jsx`).
- **The ingredient picker** (`src/components/IngredientInput.jsx`). It is a class whose fields are the component's state; each handler is a method.
- **The seed data generator** (`src/lib/fakeRestaurants.js`). It is imperative, and its randomness is a stream of numbers.
- **Favourites** (`src/lib/firebase/favorites.js`). It is a class over a per-user collection of entries.

Each source file is one module: `Firestore`, `RecipeGenerator`, `FilterPanel`, `RecipeListings`, `IngredientInput`, `FakeRecipes` and `Favorites`. Two modules are shared:

- `Recipes` (`recipes.dfy`): the recipe document and the aggregation invariant `Aggregates`.
- `Common` (`common.dfy`): option and result types, a JSON value type, and string helpers. These helpers are `trim`, `toLowerCase`, `includes` and `join` of JavaScript, restricted to ASCII.

The database is in memory, as maps held by classes. A transaction is one method. The model call, `JSON.parse`, the clock and random draws are inputs, and so is whether each write of the seeding succeeds.

## Model

| member | source | states |
|---|---|---|
| Common.Trim | src/lib/ai/recipeGenerator.js:76 | the result is a contiguous piece of the input with no white space at either end |
| Common.TrimIdempotent | src/lib/ai/recipeGenerator.js:90 | trimming twice is trimming once |
| Common.ToLower | src/components/IngredientInput.jsx:13 | lower-casing keeps the length and maps each letter A-Z to a-z, leaving every other character alone |
| Recipes.SumRatingsAppend | src/lib/fakeRestaurants.js:102-105 | the left fold of ratings grows by the rating of an appended document |
| Firestore.UpdateWithRating | src/lib/firebase/firestore.js:47-59 | new count = old count (0 when missing) + 1; new sum = old sum (0 when missing) + rating; avgRating is their quotient; lastReviewUserId = the reviewer; no other field changes |
| Firestore.NewRatingDoc | src/lib/firebase/firestore.js:61-64 | the ratings document holds the review's rating, text and user plus the write time |
| Firestore.UpdatePreservesAggregates | src/lib/firebase/firestore.js:47-64 | if count, sum and average agree with the ratings before a review, they agree after it, counting the one new rating document |
| Firestore.RecipeStore.AddReviewToRecipe | src/lib/firebase/firestore.js:69-95 | a missing id or review fails before any write; a missing recipe fails the whole transaction with no write; otherwise exactly the recipe's four fields change and one rating is appended; the aggregation invariant of the whole store is preserved |
| Firestore.RecipeStore.AddRecipe | src/lib/firebase/firestore.js:320-331 | the recipe is stored under its new id with an empty ratings subcollection; a recipe with zero counters keeps the store aggregated |
| Firestore.StoredRatings | src/lib/firebase/firestore.js:305-314 | the ratings that reach a stored seed recipe are a prefix of its ratings, all of them exactly when no rating write fails |
| Firestore.WriteRatings | src/lib/firebase/firestore.js:305-310 | the inner loop writes the ratings in order until a write fails |
| Firestore.SeedWrites | src/lib/firebase/firestore.js:296-316 | a recipe is stored under its fresh id exactly when its own write succeeds, with the ratings written before any failure; nothing else is added; earlier recipes are untouched |
| Firestore.PartialSeedBreaksAggregates | src/lib/firebase/firestore.js:305-315 | a failed rating write leaves a stored recipe whose counters include ratings that were never written |
| Firestore.RecipeStore.AddFakeRecipesAndReviews | src/lib/firebase/firestore.js:291-317 | the store after the seed writes, failed ones included; when no rating write fails, seed data consistent with its ratings keeps the store aggregated |
| Firestore.RecipeStore.GetRecipeById | src/lib/firebase/firestore.js:187-205 | undefined exactly for an empty id; a throw exactly for a non-empty id with no document; otherwise the stored document |
| Firestore.LatestAIRecipe | src/lib/firebase/firestore.js:334-351 | null exactly when no recipe is AI-generated; otherwise an AI-generated recipe of the listing with no later AI-generated recipe |
| Firestore.SortClause | src/lib/firebase/firestore.js:116-127 | at most one ordering clause: avgRating descending for "Rating" or empty; numRatings descending for "Review"; cookingTime ascending for "Cooking Time"; none otherwise |
| Firestore.ApplyQueryFilters | src/lib/firebase/firestore.js:99-130 | the appended clauses are the set filters' clauses in key order, then the sort clause |
| Firestore.QueryFilterClauses | src/lib/firebase/firestore.js:101-115 | a filter's clause (equality, or array-contains for the dietary restriction) is in the query exactly when the filter is set, and the query has no other filter clause |
| Firestore.QueryOrderingLast | src/lib/firebase/firestore.js:116-129 | an ordering clause can only be the last clause, after every filter |
| Firestore.SortLabelMatchesQuery | src/lib/firebase/firestore.js:117-118 | the sort order the filter panel shows selects the same ordering as the query's sort; an empty sort shows as "Rating" and orders by average rating |
| FilterPanel.WithField | src/components/Filters.jsx:24-33 | the chosen field takes the new value and every other field keeps its value |
| FilterPanel.ResetFilters | src/components/Filters.jsx:132-140 | all five fields are empty |
| FilterPanel.Entries | src/components/Filters.jsx:153 | the five entries in the record's order, each key with its value |
| FilterPanel.TagEntriesMembership | src/components/Filters.jsx:153-168 | the entries TagEntries keeps are exactly those that are not the sort and not empty |
| FilterPanel.TagEntriesRanks | src/components/Filters.jsx:153-168 | the kept entries keep their original order |
| FilterPanel.Tags | src/components/Filters.jsx:152-169 | a tag for exactly each non-sort filter with a non-empty value, in entry order |
| FilterPanel.SortLabel | src/components/Filters.jsx:42 | the shown sort is never empty and is the sort option whenever one is set |
| RecipeListings.InitialFilters | src/components/RecipeListings.jsx:64-70 | each field is its search parameter when present and "" otherwise |
| RecipeListings.RecipeHref | src/components/RecipeListings.jsx:15 | the link is "/recipe/" followed by the id |
| RecipeListings.KeptMembership | src/components/RecipeListings.jsx:100-104 | the entries Kept appends are exactly the entries with a value |
| RecipeListings.Params | src/components/RecipeListings.jsx:100-104 | one name/value pair per kept entry, in order, the name being the key's property name |
| RecipeListings.KeptRanks | src/components/RecipeListings.jsx:100-104 | the appended entries keep the entry order |
| RecipeListings.EmittedParams | src/components/RecipeListings.jsx:100-104 | a parameter is emitted for a key exactly when its value is not "", with that value; keys follow entry order and none repeats |
| RecipeListings.RouterWithFilters | src/components/RecipeListings.jsx:97-108 | the loop navigates to "?" followed by the serialised kept parameters; the target is "?" exactly when no filter is set |
| RecipeListings.NothingKeptIffUnfiltered | src/components/RecipeListings.jsx:100-107 | no parameter is appended exactly when every filter is empty |
| RecipeListings.RoundTripSet | src/components/RecipeListings.jsx:64-70 | a set filter written to the URL is read back as its value |
| RecipeListings.RoundTripUnset | src/components/RecipeListings.jsx:64-70 | an unset filter leaves no parameter behind |
| RecipeListings.FiltersRoundTrip | src/components/RecipeListings.jsx:64-107 | reading back the parameters routerWithFilters writes gives the same filter record |
| RecipeListings.FormEncode | src/components/RecipeListings.jsx:106 | an encoded name or value never contains the separators '&' and '=' |
| RecipeListings.Serialize | src/components/RecipeListings.jsx:106 | the query string is empty exactly when there are no parameters |
| RecipeGenerator.StripFencesSlice | src/lib/ai/recipeGenerator.js:78-88 | fence removal (StripFences) yields a piece of its input and leaves unfenced text alone |
| RecipeGenerator.CleanJsonResponse | src/lib/ai/recipeGenerator.js:74-91 | the result is a piece of the reply with no white space at its ends; a reply without fences comes back merely trimmed |
| RecipeGenerator.CleanFencedPayload | src/lib/ai/recipeGenerator.js:74-91 | a payload fenced by "```json" or "```" on their own lines is recovered exactly |
| RecipeGenerator.UptoSpec | src/lib/ai/recipeGenerator.js:96-110 | the first n optional sentences are exactly the wanted ones among them, in order |
| RecipeGenerator.ConstraintsSpec | src/lib/ai/recipeGenerator.js:96-110 | the cuisine, lower-cased difficulty and cooking-time sentences appear exactly when their filter is set; the dietary sentence appears exactly for a non-empty list; nothing else; in that order |
| RecipeGenerator.PromptBeginsWithIngredients | src/lib/ai/recipeGenerator.js:93 | the prompt (PromptText) begins with the ingredients joined by ", " |
| RecipeGenerator.PromptStep | src/lib/ai/recipeGenerator.js:96-110 | each conditional append extends the prompt by the next wanted sentence |
| RecipeGenerator.Pieces | src/lib/ai/recipeGenerator.js:96-110 | the four conditional appends together add the wanted sentences, in order, after whatever precedes them |
| RecipeGenerator.CreateRecipePrompt | src/lib/ai/recipeGenerator.js:92-130 | the appended prompt is PromptText: the header, the wanted sentences in order, and the format request |
| RecipeGenerator.Or | src/lib/ai/recipeGenerator.js:51-57 | the field when it is truthy, else the default |
| RecipeGenerator.ItemsOr | src/lib/ai/recipeGenerator.js:49-54 | the field when it is an array, else the replacement list |
| RecipeGenerator.Normalise | src/lib/ai/recipeGenerator.js:41-57 | rejected exactly without a truthy name, ingredients and instructions; lists are coerced, a scalar becoming a singleton; the defaults are "International", "Medium", "30-60 min", no restrictions, 4 servings, "15 min", null calories, and "A delicious <cuisine or homemade> recipe" |
| RecipeGenerator.NormalisedIsComplete | src/lib/ai/recipeGenerator.js:46-57 | every displayed field of a normalised recipe is truthy |
| RecipeGenerator.AsJsonFields | src/lib/ai/recipeGenerator.js:41-57 | every field of a normalised recipe reads back unchanged from the object it is stored as |
| RecipeGenerator.NormaliseIdempotent | src/lib/ai/recipeGenerator.js:41-57 | normalising a normalised recipe changes nothing |
| RecipeGenerator.StockPhoto | src/lib/ai/recipeGenerator.js:135 | the address of a stock picture lies under the stock picture folder |
| RecipeGenerator.PhotoUrl | src/lib/ai/recipeGenerator.js:132-136 | the picture is food_N.png of the stock folder for some N from 1 to 22 |
| RecipeGenerator.EveryStockPhotoDrawn | src/lib/ai/recipeGenerator.js:133-135 | every one of the 22 stock pictures can be drawn |
| RecipeGenerator.NewAiRecipe | src/lib/ai/recipeGenerator.js:58-63 | an AI recipe is marked aiGenerated, stamped with the time, and starts with zero counters consistent with no ratings |
| RecipeGenerator.GenerateRecipeSpec | src/lib/ai/recipeGenerator.js:6-71 | of GenerateRecipe: every failure is the one generic error; success exactly with an API key and a parsed reply that has the required fields; then the normalised recipe as a new AI recipe |
| RecipeGenerator.GenerateRecipeOk | src/lib/ai/recipeGenerator.js:58-70 | a successful call yields an AI recipe whose counters agree with having no ratings |
| RecipeGenerator.Successes | src/lib/ai/recipeGenerator.js:141-153 | no more recipes than attempts |
| RecipeGenerator.SuccessesAppend | src/lib/ai/recipeGenerator.js:143-151 | the successes of two runs of attempts are the successes of each, in order |
| RecipeGenerator.SuccessesMembership | src/lib/ai/recipeGenerator.js:143-151 | a recipe is kept exactly when some attempt produced it |
| RecipeGenerator.Outcomes | src/lib/ai/recipeGenerator.js:143 | one outcome per attempt |
| RecipeGenerator.OutcomeAt | src/lib/ai/recipeGenerator.js:145 | the k-th outcome is that of the k-th attempt |
| RecipeGenerator.SuccessesStep | src/lib/ai/recipeGenerator.js:144-150 | one more attempt extends the collected recipes by its recipe when it succeeds, and by nothing when it fails |
| RecipeGenerator.SuccessesAreNewAiRecipes | src/lib/ai/recipeGenerator.js:140-154 | every collected recipe is a fresh AI recipe with zero counters |
| RecipeGenerator.GenerateMultipleRecipes | src/lib/ai/recipeGenerator.js:140-154 | the loop returns the successful attempts' recipes in attempt order, at most count of them, each a fresh AI recipe |
| IngredientInput.FilteredIngredients | src/components/IngredientInput.jsx:12-15 | a known ingredient is suggested exactly when it contains the typed text, ignoring case, and is not chosen |
| IngredientInput.FirstSuggestion | src/components/IngredientInput.jsx:38-39 | the first suggestion is the first suggestible catalogue entry |
| IngredientInput.EmptyTextSuggestsAll | src/components/IngredientInput.jsx:12-15 | with nothing typed, every unchosen known ingredient is suggested |
| IngredientInput.Shown | src/components/IngredientInput.jsx:79-81 | only while suggestions are shown, and at most the first five |
| IngredientInput.Added | src/components/IngredientInput.jsx:17-23 | a non-empty new name is appended; anything else leaves the list alone |
| IngredientInput.Without | src/components/IngredientInput.jsx:25-27 | every occurrence of the name goes and every other name stays |
| IngredientInput.WithoutAppend | src/components/IngredientInput.jsx:26 | removal keeps the relative order of what remains |
| IngredientInput.WithoutNoDuplicates | src/components/IngredientInput.jsx:25-27 | removal keeps the list free of duplicates |
| IngredientInput.IngredientPicker.constructor | src/components/IngredientInput.jsx:7-9 | an empty list, an empty field, no suggestions |
| IngredientInput.IngredientPicker.AddIngredient | src/components/IngredientInput.jsx:17-23 | no-op for an empty or chosen name; otherwise appended, the field cleared and suggestions hidden; no duplicates ever |
| IngredientInput.IngredientPicker.RemoveIngredient | src/components/IngredientInput.jsx:25-27 | the list loses every occurrence of the name and keeps its other invariants |
| IngredientInput.IngredientPicker.HandleInputChange | src/components/IngredientInput.jsx:29-33 | the field takes the text; suggestions show exactly while it is non-empty |
| IngredientInput.IngredientPicker.HandleKeyPress | src/components/IngredientInput.jsx:35-44 | on Enter, the first suggestion is added if any, else the trimmed text; the field is cleared and suggestions hidden exactly when a name is added, and otherwise stay; other keys change nothing |
| IngredientInput.IngredientPicker.AddTyped | src/components/IngredientInput.jsx:71 | the Add button adds the trimmed text; the field is cleared and suggestions hidden exactly when it is added, and otherwise stay |
| IngredientInput.IngredientPicker.ClearAll | src/components/IngredientInput.jsx:124 | the list becomes empty |
| IngredientInput.IngredientPicker.HandleGenerateRecipes | src/components/IngredientInput.jsx:46-50 | the list is handed on exactly when it is not empty |
| FakeRecipes.Dice.Between | src/lib/fakeRestaurants.js:28-30 | a draw lies between the bounds inclusive and consumes one number of the stream |
| FakeRecipes.Dice.Next | src/lib/fakeRestaurants.js:34 | an unbounded draw consumes one number of the stream |
| FakeRecipes.Dice.Pick | src/lib/fakeRestaurants.js:82-84 | a pool entry at a drawn position |
| FakeRecipes.PickDistinct | src/lib/fakeRestaurants.js:49-58 | the drawn count is within its bounds; the list has no duplicates, at most that many entries, all from the pool, and at least one when the lower bound is positive |
| FakeRecipes.Average | src/lib/fakeRestaurants.js:41-46 | the average is sum divided by count, or 0 without ratings |
| FakeRecipes.GenerateRatings | src/lib/fakeRestaurants.js:18-39 | at most five ratings, each after the recipe's date and with a sample review's rating |
| FakeRecipes.GenerateOne | src/lib/fakeRestaurants.js:16-117 | counters consistent with the ratings; not AI-generated; the fixed five steps; 1 to 8 distinct ingredients and at most 3 distinct restrictions from the pools |
| FakeRecipes.GenerateFakeRecipesAndReviews | src/lib/fakeRestaurants.js:11-120 | exactly five recipes, each consistent with its ratings, seeded, with the fixed steps and duplicate-free lists |
| Favorites.FirstMatch | src/lib/firebase/favorites.js:45-46 | the position of the first entry naming the recipe, or the length when there is none |
| Favorites.WithoutFirst | src/lib/firebase/favorites.js:37-47 | the first matching entry is removed and nothing else; without a match the collection is unchanged |
| Favorites.WithoutFirstKeepsOthers | src/lib/firebase/favorites.js:37-47 | deleting a match leaves every other recipe's entries as they were |
| Favorites.ToggleRemoves | src/lib/firebase/favorites.js:100-102 | toggling a favourite removes its only entry and keeps one entry per recipe |
| Favorites.ToggleAdds | src/lib/firebase/favorites.js:103-105 | toggling a non-favourite adds its entry and keeps one entry per recipe |
| Favorites.ToggleKeepsOthers | src/lib/firebase/favorites.js:96-106 | toggling leaves the other recipes' entries untouched |
| Favorites.ToggleFlips | src/lib/firebase/favorites.js:96-106 | with at most one entry per recipe, toggling (Toggled) flips the recipe's membership and keeps that shape |
| Favorites.ToggleTwice | src/lib/firebase/favorites.js:96-106 | toggling a non-favourite twice restores the collection |
| Favorites.Insert | src/lib/firebase/favorites.js:61-64 | insertion adds one entry to the list |
| Favorites.InsertSorted | src/lib/firebase/favorites.js:61-64 | insertion into a newest-first list keeps it newest first |
| Favorites.InsertPermutes | src/lib/firebase/favorites.js:61-64 | insertion adds exactly the one entry |
| Favorites.NewestFirstOrder | src/lib/firebase/favorites.js:61-64 | the ordering keeps the number of entries |
| Favorites.NewestFirstOrderSpec | src/lib/firebase/favorites.js:61-64 | the result is newest first and a permutation of the entries |
| Favorites.FavoritesStore.AddFavorite | src/lib/firebase/favorites.js:15-32 | a new entry is appended even when the recipe is already a favourite, and its id is returned |
| Favorites.FavoritesStore.RemoveFavorite | src/lib/firebase/favorites.js:35-56 | true and the first match deleted when one exists; false and no change otherwise |
| Favorites.FavoritesStore.IsFavorite | src/lib/firebase/favorites.js:80-93 | true exactly when a successful read finds an entry for the recipe; false on a failed read |
| Favorites.FavoritesStore.ToggleFavorite | src/lib/firebase/favorites.js:96-111 | removes and answers false for a favourite; otherwise adds and answers true, including after a failed read |
| Favorites.FavoritesStore.GetFavorites | src/lib/firebase/favorites.js:59-77 | all of the user's entries, newest first |

## Left out

- Database SDK mechanics are not modelled: listeners, document references and timestamp conversions. This covers `getRecipes`, `getRecipesSnapshot`, `getRecipeSnapshotById`, `getReviewsByRecipeId`, `getReviewsSnapshotByRecipeId` and `updateRecipeImageReference`. Of their logic, the query built from the filters is modelled; their own guards are not: the empty-id checks of `getRecipeSnapshotById`, `getReviewsByRecipeId` and `getReviewsSnapshotByRecipeId` (firestore.js lines 212, 234 and 262) and the callback-type checks of `getRecipesSnapshot` and `getRecipeSnapshotById` (lines 158 and 217), each of which logs and returns nothing.
- The seeding's error logging is left out. A failed write is an input (`SeedWrite`): it ends that recipe's writes and the loop goes on with the next recipe, as the catch does. A recipe whose document write succeeded but one of whose rating writes failed stays stored with counters that its ratings do not match.
- Concurrency is not modelled. A transaction is one atomic method, and its retries belong to the database. The read-then-write race in `toggleFavorite` is out of scope.
- The generative model call and `JSON.parse` are function parameters, and so is the choice of the photo in `getRecipeImage`. `src/lib/imageService.js` is not part of this model.
- Dates and the clock are integer parameters: the current time, and the random dates before and after a recipe's date. `src/lib/utils.js` is not part of this model. Its `randomNumberBetween` is modelled as a draw from a stream of numbers, reduced into the requested range. The recipe's date is minus a draw, and a rating's date is the recipe's date plus a draw.
- `src/lib/randomData.js` is not part of this model. Its pools are a parameter and are required to be non-empty.
- Floating point is not modelled. `avgRating` is an exact rational, and `Number(review.rating)` is taken to be an integer already, so NaN and string coercion are left out.
- Firestore.UpdateWithRating: a stored count that is not a number, or a negative one, is not modelled (counts are `nat`).
- Trimming, lower-casing and case-insensitive matching are restricted to ASCII. JavaScript's Unicode white space and case mapping are not modelled.
- RecipeListings.FormEncode: UTF-8 percent-encoding follows the form-urlencoded serializer for the characters Dafny can hold. It is stated only so far as the separators never appear; decoding it back is not proved. The read-back is stated over the decoded parameters.
- Firestore.LatestAIRecipe: with several AI recipes at the latest timestamp, the database picks one of them by its own order; the model returns one such recipe and does not fix which.
- Favorites.FavoritesStore.IsFavorite: a failed read is a boolean parameter rather than a thrown exception.
- Favorites.FavoritesStore.GetFavorites: the order among entries with equal timestamps is not fixed, as it is not in the database.
- The model lists a collection in the order its entries were added; the database lists a query without ordering by document id. So when a recipe has several favourite entries, the one `removeFavorite` deletes in the model (the earliest added) can differ from the one the database deletes (the lowest id).
- RecipeGenerator.NormalisedIsComplete: an empty ingredients or instructions array is truthy in JavaScript, so the model does not claim those lists are non-empty.
- RecipeGenerator.TemplateText renders numbers as integers. A floating-point number inside the model's JSON is out of scope.
- `generateMultipleRecipes` takes a natural count, and its default of 3 is left to the caller; a negative or fractional count is not modelled.
- Rendering-only components are out of scope, as are authentication and server glue.

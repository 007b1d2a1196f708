/** Turning a language model's reply into a recipe document
    (src/lib/ai/recipeGenerator.js): the prompt sent to the model, the
    removal of Markdown code fences around the reply, the validation and
    defaulting of the parsed recipe, and the collection of several
    attempts. The model call and JSON.parse are inputs of the model. */
module RecipeGenerator {
  import opened Common
  import opened Recipes

  // -----------------------------------------------------------------------
  // cleanJsonResponse

  const Fence := "```"
  const JsonFence := "```json"

  lemma JsonFenceIsFence(t: string)
    requires StartsWith(t, JsonFence)
    ensures StartsWith(t, Fence)
  {
    assert t[..3] == t[..7][..3];
  }

  lemma SuffixIsSlice(s: string, i: nat)
    requires i <= |s|
    ensures IsSlice(s[i..], s)
  {
    assert OccursAt(s[i..], s, i);
  }

  lemma PrefixIsSlice(s: string, i: nat)
    requires i <= |s|
    ensures IsSlice(s[..i], s)
  {
    assert OccursAt(s[..i], s, 0);
  }

  /** The fence removal between the two trims: a leading "```json", or
      else a leading "```", and then a trailing "```". */
  function StripFences(t: string): string {
    var a := if StartsWith(t, JsonFence) then t[7..] else if StartsWith(t, Fence) then t[3..] else t;
    if EndsWith(a, Fence) then a[..|a| - 3] else a
  }

  lemma StripFencesSlice(t: string)
    ensures IsSlice(StripFences(t), t)
    ensures !StartsWith(t, Fence) && !EndsWith(t, Fence) ==> StripFences(t) == t
  {
    if StartsWith(t, JsonFence) {
      JsonFenceIsFence(t);
    }
    var a := if StartsWith(t, JsonFence) then t[7..] else if StartsWith(t, Fence) then t[3..] else t;
    SuffixIsSlice(t, |t| - |a|);
    assert a == t[|t| - |a|..];
    var b := StripFences(t);
    PrefixIsSlice(a, |b|);
    assert b == a[..|b|];
    SliceOfSlice(b, a, t);
  }

  /** The reply trimmed, stripped of its fences, trimmed again. The result
      is a piece of the reply that has no white space at either end, and a
      reply without fences comes back merely trimmed. */
  function CleanJsonResponse(text: string): (r: string)
    ensures IsSlice(r, text)
    ensures Trim(r) == r
    ensures !StartsWith(Trim(text), Fence) && !EndsWith(Trim(text), Fence) ==> r == Trim(text)
  {
    var t := Trim(text);
    var b := StripFences(t);
    StripFencesSlice(t);
    SliceOfSlice(Trim(b), b, t);
    SliceOfSlice(Trim(b), t, text);
    TrimIdempotent(b);
    TrimIdempotent(text);
    Trim(b)
  }

  /** Fence stripping on a trimmed fenced payload leaves the payload with
      the two line breaks around it. */
  lemma StripFencesAround(fence: string, mid: string)
    requires fence == JsonFence || fence == Fence
    requires |mid| > 0 && mid[0] == '\n'
    ensures StripFences(fence + mid + Fence) == mid
  {
    var text := fence + mid + Fence;
    if fence == JsonFence {
      assert text[..7] == JsonFence;
    } else {
      assert text[3] == '\n';
      assert !StartsWith(text, JsonFence);
      assert text[..3] == Fence;
    }
    var a := text[|fence|..];
    assert a == mid + Fence;
    assert a[|a| - 3..] == Fence;
    assert a[..|a| - 3] == mid;
  }

  /** A fenced text has no white space at its ends. */
  lemma FencedIsTrimmed(fence: string, mid: string)
    requires fence == JsonFence || fence == Fence
    ensures Trim(fence + mid + Fence) == fence + mid + Fence
  {
    var text := fence + mid + Fence;
    assert text[0] == fence[0] == '`';
    assert text[|text| - 1] == Fence[2] == '`';
    TrimFixedPoint(text);
  }

  /** A payload fenced as "```json" (or "```") newline payload newline
      "```" is recovered exactly, whenever the payload has no white space
      at its ends. */
  lemma CleanFencedPayload(fence: string, p: string)
    requires fence == JsonFence || fence == Fence
    requires Trim(p) == p
    ensures CleanJsonResponse(fence + ("\n" + p + "\n") + Fence) == p
  {
    var mid := "\n" + p + "\n";
    assert Trim(mid) == p by {
      TrimPadded("\n", p, "\n");
    }
    FencedText(fence, mid, p);
  }

  lemma FencedText(fence: string, mid: string, p: string)
    requires fence == JsonFence || fence == Fence
    requires |mid| > 0 && mid[0] == '\n' && Trim(mid) == p
    ensures CleanJsonResponse(fence + mid + Fence) == p
  {
    var text := fence + mid + Fence;
    FencedIsTrimmed(fence, mid);
    StripFencesAround(fence, mid);
    CleanTrimmed(text, mid, p);
  }

  lemma CleanTrimmed(text: string, mid: string, p: string)
    requires Trim(text) == text && StripFences(text) == mid && Trim(mid) == p
    ensures CleanJsonResponse(text) == p
  {
  }

  // -----------------------------------------------------------------------
  // createRecipePrompt

  /** The filters the prompt can mention. An empty string or list stands
      for a filter that is missing or falsy. */
  datatype PromptFilters = PromptFilters(
    cuisineType: string,
    difficulty: string,
    cookingTime: string,
    dietaryRestrictions: seq<string>)

  /** The optional sentences of the prompt. */
  datatype Constraint =
    | CuisineLine(cuisine: string)
    | DifficultyLine(level: string)
    | CookingTimeLine(time: string)
    | DietaryLine(restrictions: seq<string>)

  function ConstraintRank(c: Constraint): nat {
    match c
    case CuisineLine(_) => 0
    case DifficultyLine(_) => 1
    case CookingTimeLine(_) => 2
    case DietaryLine(_) => 3
  }

  function Render(c: Constraint): string {
    match c
    case CuisineLine(t) => "Make it a " + t + " style recipe.\n"
    case DifficultyLine(t) => "Make it " + t + " difficulty.\n"
    case CookingTimeLine(t) => "The cooking time should be " + t + ".\n"
    case DietaryLine(rs) => "The recipe should be suitable for: " + Join(rs, ", ") + ".\n"
  }

  function RenderAll(cs: seq<Constraint>): string {
    if cs == [] then "" else RenderAll(cs[..|cs| - 1]) + Render(cs[|cs| - 1])
  }

  lemma RenderAllAppend(cs: seq<Constraint>, c: Constraint)
    ensures RenderAll(cs + [c]) == RenderAll(cs) + Render(c)
  {
    assert (cs + [c])[..|cs|] == cs;
  }

  /** The k-th optional sentence, in prompt order; difficulty is
      lower-cased. */
  function Candidate(f: PromptFilters, k: nat): (c: Constraint)
    requires k < 4
    ensures ConstraintRank(c) == k
  {
    if k == 0 then CuisineLine(f.cuisineType)
    else if k == 1 then DifficultyLine(ToLower(f.difficulty))
    else if k == 2 then CookingTimeLine(f.cookingTime)
    else DietaryLine(f.dietaryRestrictions)
  }

  /** Whether the filter behind the k-th sentence is set. */
  predicate Wanted(f: PromptFilters, k: nat)
    requires k < 4
  {
    if k == 0 then f.cuisineType != ""
    else if k == 1 then f.difficulty != ""
    else if k == 2 then f.cookingTime != ""
    else |f.dietaryRestrictions| > 0
  }

  /** The wanted sentences among the first n. */
  function Upto(f: PromptFilters, n: nat): seq<Constraint>
    requires n <= 4
  {
    if n == 0 then [] else Upto(f, n - 1) + (if Wanted(f, n - 1) then [Candidate(f, n - 1)] else [])
  }

  /** The sentences a filter record asks for. */
  function Constraints(f: PromptFilters): seq<Constraint> {
    Upto(f, 4)
  }

  lemma {:induction false} UptoSpec(f: PromptFilters, n: nat)
    requires n <= 4
    ensures forall c :: c in Upto(f, n) <==> exists k :: 0 <= k < n && Wanted(f, k) && c == Candidate(f, k)
    ensures forall i :: 0 <= i < |Upto(f, n)| ==> ConstraintRank(Upto(f, n)[i]) < n
    ensures forall i, j :: 0 <= i < j < |Upto(f, n)| ==> ConstraintRank(Upto(f, n)[i]) < ConstraintRank(Upto(f, n)[j])
  {
    if n > 0 {
      UptoSpec(f, n - 1);
      var init := Upto(f, n - 1);
      var r := Upto(f, n);
      forall c | c in r ensures exists k :: 0 <= k < n && Wanted(f, k) && c == Candidate(f, k) {
        if c !in init {
          assert Wanted(f, n - 1) && c == Candidate(f, n - 1);
        }
      }
      forall i | 0 <= i < |r| ensures ConstraintRank(r[i]) < n {
        if i < |init| {
          assert r[i] == init[i];
        }
      }
      forall i, j | 0 <= i < j < |r| ensures ConstraintRank(r[i]) < ConstraintRank(r[j]) {
        assert r[i] == init[i];
        if j < |init| {
          assert r[j] == init[j];
        }
      }
    }
  }

  /** The prompt's optional sentences: cuisine, difficulty (lower-cased),
      cooking time and dietary restrictions, each present exactly when its
      filter is set, nothing else, in that order. */
  lemma ConstraintsSpec(f: PromptFilters)
    ensures CuisineLine(f.cuisineType) in Constraints(f) <==> f.cuisineType != ""
    ensures DifficultyLine(ToLower(f.difficulty)) in Constraints(f) <==> f.difficulty != ""
    ensures CookingTimeLine(f.cookingTime) in Constraints(f) <==> f.cookingTime != ""
    ensures DietaryLine(f.dietaryRestrictions) in Constraints(f) <==> |f.dietaryRestrictions| > 0
    ensures forall c :: c in Constraints(f) ==> exists k :: 0 <= k < 4 && c == Candidate(f, k)
    ensures forall i, j :: 0 <= i < j < |Constraints(f)| ==>
              ConstraintRank(Constraints(f)[i]) < ConstraintRank(Constraints(f)[j])
  {
    UptoSpec(f, 4);
    assert Candidate(f, 0) == CuisineLine(f.cuisineType);
    assert Candidate(f, 1) == DifficultyLine(ToLower(f.difficulty));
    assert Candidate(f, 2) == CookingTimeLine(f.cookingTime);
    assert Candidate(f, 3) == DietaryLine(f.dietaryRestrictions);
  }

  const IngredientsIntro := "Create a delicious recipe using these available ingredients: "

  function Header(ingredients: seq<string>): string {
    IngredientsIntro + Join(ingredients, ", ") + ".\n\n"
  }

  /** The fixed request for a JSON object of the expected shape, line by
      line. */
  const FooterLines: seq<string> := [
    "",
    "Please create a complete recipe and return it as a valid JSON object with the following structure:",
    "{",
    "  \"name\": \"Recipe Name\",",
    "  \"description\": \"Brief description of the dish\",",
    "  \"ingredients\": [\"ingredient 1\", \"ingredient 2\", \"ingredient 3\"],",
    "  \"instructions\": [\"Step 1\", \"Step 2\", \"Step 3\"],",
    "  \"cuisineType\": \"Italian/Chinese/American/etc\",",
    "  \"difficulty\": \"Easy/Medium/Hard\",",
    "  \"cookingTime\": \"< 15 min/15-30 min/30-60 min/60+ min\",",
    "  \"dietaryRestrictions\": [\"Vegetarian\", \"Vegan\", \"Gluten-Free\", etc],",
    "  \"servings\": 4,",
    "  \"prepTime\": \"15 min\",",
    "  \"calories\": 300",
    "}",
    "",
    "Make sure the recipe is practical, delicious, and uses the provided ingredients as the main components. Return ONLY the JSON object, no additional text."
  ]

  const Footer := Join(FooterLines, "\n")

  /** The prompt: the ingredients, the constraint sentences, the format
      request. */
  function PromptText(ingredients: seq<string>, f: PromptFilters): string {
    Header(ingredients) + RenderAll(Constraints(f)) + Footer
  }

  /** The prompt always opens with the ingredients joined by ", ". */
  lemma PromptBeginsWithIngredients(ingredients: seq<string>, f: PromptFilters)
    ensures StartsWith(PromptText(ingredients, f), IngredientsIntro + Join(ingredients, ", "))
  {
    var p := IngredientsIntro + Join(ingredients, ", ");
    assert StartsWith(p + ".\n\n", p) by {
      assert (p + ".\n\n")[..|p|] == p;
    }
    StartsWithAppend(Header(ingredients), p, RenderAll(Constraints(f)));
    StartsWithAppend(Header(ingredients) + RenderAll(Constraints(f)), p, Footer);
  }

  /** The text the k-th step of createRecipePrompt appends. */
  function Piece(f: PromptFilters, k: nat): string
    requires k < 4
  {
    if Wanted(f, k) then Render(Candidate(f, k)) else ""
  }

  /** Each step of createRecipePrompt extends the rendered sentences by the
      next wanted one. */
  lemma PromptStep(h: string, prompt: string, f: PromptFilters, k: nat)
    requires k < 4
    requires prompt == h + RenderAll(Upto(f, k))
    ensures prompt + Piece(f, k) == h + RenderAll(Upto(f, k + 1))
  {
    var before := Upto(f, k);
    if Wanted(f, k) {
      var c := Candidate(f, k);
      assert Upto(f, k + 1) == before + [c];
      RenderAllAppend(before, c);
      AppendAssoc(h, RenderAll(before), Render(c));
    } else {
      assert Upto(f, k + 1) == before;
      assert prompt + Piece(f, k) == prompt;
    }
  }

  /** Appending the four steps' pieces one by one after any prefix h
      appends the rendered constraint sentences. */
  lemma Pieces(h: string, f: PromptFilters)
    ensures h + Piece(f, 0) + Piece(f, 1) + Piece(f, 2) + Piece(f, 3) == h + RenderAll(Constraints(f))
  {
    assert h == h + RenderAll(Upto(f, 0));
    PromptStep(h, h, f, 0);
    PromptStep(h, h + Piece(f, 0), f, 1);
    PromptStep(h, h + Piece(f, 0) + Piece(f, 1), f, 2);
    PromptStep(h, h + Piece(f, 0) + Piece(f, 1) + Piece(f, 2), f, 3);
  }

  /** createRecipePrompt: the prompt is built by appending the optional
      sentences one filter at a time. */
  method CreateRecipePrompt(ingredients: seq<string>, f: PromptFilters) returns (prompt: string)
    ensures prompt == PromptText(ingredients, f)
  {
    var h := Header(ingredients);
    prompt := h;
    if f.cuisineType != "" {
      prompt := prompt + Render(CuisineLine(f.cuisineType));
    }
    assert prompt == h + Piece(f, 0);
    if f.difficulty != "" {
      prompt := prompt + Render(DifficultyLine(ToLower(f.difficulty)));
    }
    assert prompt == h + Piece(f, 0) + Piece(f, 1);
    if f.cookingTime != "" {
      prompt := prompt + Render(CookingTimeLine(f.cookingTime));
    }
    assert prompt == h + Piece(f, 0) + Piece(f, 1) + Piece(f, 2);
    if |f.dietaryRestrictions| > 0 {
      prompt := prompt + Render(DietaryLine(f.dietaryRestrictions));
    }
    assert prompt == h + Piece(f, 0) + Piece(f, 1) + Piece(f, 2) + Piece(f, 3);
    Pieces(h, f);
    prompt := prompt + Footer;
  }

  // -----------------------------------------------------------------------
  // Validation and defaulting of the parsed recipe

  /** JavaScript truthiness of a parsed value. */
  predicate Truthy(v: Json) {
    match v
    case JNull => false
    case JBool(b) => b
    case JNum(n) => n != 0
    case JStr(s) => s != ""
    case JArr(_) => true
    case JObj(_) => true
  }

  /** Property access on a parsed value; None is undefined. */
  function Field(data: Json, key: string): (r: Option<Json>)
    ensures r.Some? <==> data.JObj? && key in data.fields
  {
    if data.JObj? && key in data.fields then Some(data.fields[key]) else None
  }

  predicate Present(data: Json, key: string) {
    var v := Field(data, key);
    v.Some? && Truthy(v.value)
  }

  /** `data[key] || d`. */
  function Or(data: Json, key: string, d: Json): (r: Json)
    ensures Present(data, key) ==> Some(r) == Field(data, key)
    ensures !Present(data, key) ==> r == d
  {
    if Present(data, key) then Field(data, key).value else d
  }

  /** `Array.isArray(data[key]) ? data[key] : otherwise`. */
  function ItemsOr(data: Json, key: string, otherwise: seq<Json>): (r: seq<Json>)
    ensures Field(data, key).Some? && Field(data, key).value.JArr? ==> r == Field(data, key).value.items
    ensures !(Field(data, key).Some? && Field(data, key).value.JArr?) ==> r == otherwise
  {
    var v := Field(data, key);
    if v.Some? && v.value.JArr? then v.value.items else otherwise
  }

  /** How a template literal renders a truthy value. */
  function TemplateText(v: Json): string {
    match v
    case JNull => "null"
    case JBool(b) => if b then "true" else "false"
    case JNum(n) => IntToString(n)
    case JStr(s) => s
    case JArr(items) =>
      Join(seq(|items|, i requires 0 <= i < |items| =>
             if items[i].JNull? then "" else TemplateText(items[i])), ",")
    case JObj(_) => "[object Object]"
  }

  /** The validation of generateRecipe: the parsed value must have a truthy
      name, ingredients and instructions. */
  predicate HasRequiredFields(data: Json) {
    Present(data, "name") && Present(data, "ingredients") && Present(data, "instructions")
  }

  /** The recipe fields of generateRecipe: the parsed fields, with each
      missing or falsy one replaced by its default and the lists coerced to
      lists. None when a required field is missing. */
  function Normalise(data: Json): (r: Option<AiRecipe>)
    ensures r.Some? <==> HasRequiredFields(data)
    ensures r.Some? ==> Some(r.value.name) == Field(data, "name")
    ensures r.Some? ==>
      r.value.ingredients == ItemsOr(data, "ingredients", [Field(data, "ingredients").value])
    ensures r.Some? ==>
      r.value.instructions == ItemsOr(data, "instructions", [Field(data, "instructions").value])
    ensures r.Some? ==> r.value.cuisineType == Or(data, "cuisineType", JStr("International"))
    ensures r.Some? ==> r.value.difficulty == Or(data, "difficulty", JStr("Medium"))
    ensures r.Some? ==> r.value.cookingTime == Or(data, "cookingTime", JStr("30-60 min"))
    ensures r.Some? ==> r.value.dietaryRestrictions == ItemsOr(data, "dietaryRestrictions", [])
    ensures r.Some? ==> r.value.servings == Or(data, "servings", JNum(4))
    ensures r.Some? ==> r.value.prepTime == Or(data, "prepTime", JStr("15 min"))
    ensures r.Some? ==> r.value.calories == Or(data, "calories", JNull)
    ensures r.Some? ==> Present(data, "description") ==> Some(r.value.description) == Field(data, "description")
    ensures r.Some? && !Present(data, "description") ==>
      r.value.description == JStr("A delicious " + TemplateText(Or(data, "cuisineType", JStr("homemade"))) + " recipe")
  {
    if !HasRequiredFields(data) then None
    else
      Some(AiRecipe(
        name := Field(data, "name").value,
        description := Or(data, "description",
          JStr("A delicious " + TemplateText(Or(data, "cuisineType", JStr("homemade"))) + " recipe")),
        ingredients := ItemsOr(data, "ingredients", [Field(data, "ingredients").value]),
        instructions := ItemsOr(data, "instructions", [Field(data, "instructions").value]),
        cuisineType := Or(data, "cuisineType", JStr("International")),
        difficulty := Or(data, "difficulty", JStr("Medium")),
        cookingTime := Or(data, "cookingTime", JStr("30-60 min")),
        dietaryRestrictions := ItemsOr(data, "dietaryRestrictions", []),
        servings := Or(data, "servings", JNum(4)),
        prepTime := Or(data, "prepTime", JStr("15 min")),
        calories := Or(data, "calories", JNull)))
  }

  /** A normalised recipe has every field the pages display: truthy name,
      description, cuisine, difficulty, cooking time, servings and
      preparation time. */
  lemma NormalisedIsComplete(data: Json)
    requires HasRequiredFields(data)
    ensures var a := Normalise(data).value;
      && Truthy(a.name) && Truthy(a.description) && Truthy(a.cuisineType)
      && Truthy(a.difficulty) && Truthy(a.cookingTime) && Truthy(a.servings)
      && Truthy(a.prepTime)
  {
  }

  /** The recipe as the database would hand it back to generateRecipe. */
  function AsJson(a: AiRecipe): Json {
    JObj(map[
      "name" := a.name, "description" := a.description,
      "ingredients" := JArr(a.ingredients), "instructions" := JArr(a.instructions),
      "cuisineType" := a.cuisineType, "difficulty" := a.difficulty,
      "cookingTime" := a.cookingTime, "dietaryRestrictions" := JArr(a.dietaryRestrictions),
      "servings" := a.servings, "prepTime" := a.prepTime, "calories" := a.calories])
  }

  /** Every field of a recipe reads back from its database form. */
  lemma AsJsonFields(a: AiRecipe)
    ensures var j := AsJson(a);
      && Field(j, "name") == Some(a.name)
      && Field(j, "description") == Some(a.description)
      && Field(j, "ingredients") == Some(JArr(a.ingredients))
      && Field(j, "instructions") == Some(JArr(a.instructions))
      && Field(j, "cuisineType") == Some(a.cuisineType)
      && Field(j, "difficulty") == Some(a.difficulty)
      && Field(j, "cookingTime") == Some(a.cookingTime)
      && Field(j, "dietaryRestrictions") == Some(JArr(a.dietaryRestrictions))
      && Field(j, "servings") == Some(a.servings)
      && Field(j, "prepTime") == Some(a.prepTime)
      && Field(j, "calories") == Some(a.calories)
  {
  }

  /** Normalising is idempotent: a normalised recipe passes validation again
      and every default is already in place. */
  lemma NormaliseIdempotent(data: Json)
    requires HasRequiredFields(data)
    ensures Normalise(AsJson(Normalise(data).value)) == Normalise(data)
  {
    var a := Normalise(data).value;
    NormalisedIsComplete(data);
    AsJsonFields(a);
    var j := AsJson(a);
    assert HasRequiredFields(j);
    var b := Normalise(j).value;
    assert b.name == a.name && b.description == a.description;
    assert b.ingredients == a.ingredients && b.instructions == a.instructions;
    assert b.cuisineType == a.cuisineType && b.difficulty == a.difficulty && b.cookingTime == a.cookingTime;
    assert b.dietaryRestrictions == a.dietaryRestrictions;
    assert b.servings == a.servings && b.prepTime == a.prepTime && b.calories == a.calories;
  }

  // -----------------------------------------------------------------------
  // generateRecipe

  /** What one call of generateRecipe meets outside the program: the model's
      reply to a prompt (None when the call fails), the clock, and the draw
      that picks the picture. */
  datatype Attempt = Attempt(reply: string -> Option<string>, now: int, pick: nat)

  /** The one error every failure of generateRecipe is reported as. */
  const GenerateFailure := "Failed to generate recipe. Please try again."

  /** Where the stock food pictures live. */
  const StockPhotoPrefix := "https://storage.googleapis.com/firestorequickstarts.appspot.com/food_"

  /** The address of stock picture number n. */
  function StockPhoto(n: nat): (url: string)
    ensures StartsWith(url, StockPhotoPrefix)
  {
    var url := StockPhotoPrefix + NatToString(n) + ".png";
    assert url[..|StockPhotoPrefix|] == StockPhotoPrefix;
    url
  }

  /** How many stock pictures there are. */
  const StockPhotoCount := 22

  /** getRandomRecipeImage: the picture at a drawn position among the
      stock pictures 1 to 22. */
  function PhotoUrl(pick: nat): (url: string)
    ensures exists n :: 1 <= n <= StockPhotoCount && url == StockPhoto(n)
  {
    var n := pick % StockPhotoCount + 1;
    assert 1 <= n <= StockPhotoCount;
    StockPhoto(n)
  }

  /** Every stock picture can be drawn. */
  lemma EveryStockPhotoDrawn(n: nat)
    requires 1 <= n <= StockPhotoCount
    ensures PhotoUrl(n - 1) == StockPhoto(n)
  {
    assert (n - 1) % StockPhotoCount == n - 1;
  }

  /** The document of a new AI recipe: no ratings yet. */
  function NewAiRecipe(a: AiRecipe, now: int, pick: nat): (doc: RecipeDoc)
    ensures doc.aiGenerated && doc.timestamp == now
    ensures Aggregates(doc, [])
  {
    RecipeDoc(Generated(a), true, now, PhotoUrl(pick), Some(0), Some(0), Some(Zero), None)
  }

  /** The model's reply to the prompt, cleaned and parsed; None when the
      call or the parse fails. */
  function ParsedReply(ingredients: seq<string>, f: PromptFilters, attempt: Attempt,
                       parse: string -> Option<Json>): Option<Json>
  {
    var text := attempt.reply(PromptText(ingredients, f));
    if text.None? then None else parse(CleanJsonResponse(text.value))
  }

  /** generateRecipe: no API key, a failed model call, an unparsable reply
      and a reply without the required fields all end in the same error;
      otherwise the normalised recipe becomes a fresh AI recipe document. */
  function GenerateRecipe(apiKeySet: bool, ingredients: seq<string>, f: PromptFilters,
                          attempt: Attempt, parse: string -> Option<Json>): Result<RecipeDoc, string>
  {
    if !apiKeySet then Err(GenerateFailure)
    else
      var data := ParsedReply(ingredients, f, attempt, parse);
      if data.None? then Err(GenerateFailure)
      else
        var recipe := Normalise(data.value);
        if recipe.None? then Err(GenerateFailure)
        else Ok(NewAiRecipe(recipe.value, attempt.now, attempt.pick))
  }

  /** What generateRecipe promises: every failure is the one generic
      error; it succeeds exactly when an API key is set and the reply parses
      to a value with the required fields; and then it yields the
      normalised recipe as a new AI recipe with no ratings. */
  lemma GenerateRecipeSpec(apiKeySet: bool, ingredients: seq<string>, f: PromptFilters,
                           attempt: Attempt, parse: string -> Option<Json>)
    ensures var r := GenerateRecipe(apiKeySet, ingredients, f, attempt, parse);
      && (r.Err? ==> r.error == GenerateFailure)
      && (r.Ok? <==> apiKeySet && ParsedReply(ingredients, f, attempt, parse).Some? &&
                     HasRequiredFields(ParsedReply(ingredients, f, attempt, parse).value))
      && (r.Ok? ==> r.value.aiGenerated && r.value.timestamp == attempt.now && Aggregates(r.value, []))
      && (r.Ok? ==> r.value.details.Generated? &&
                    Some(r.value.details.ai) == Normalise(ParsedReply(ingredients, f, attempt, parse).value))
  {
  }

  // -----------------------------------------------------------------------
  // generateMultipleRecipes

  /** The recipes among a run of outcomes, in order. */
  function Successes(outs: seq<Result<RecipeDoc, string>>): (r: seq<RecipeDoc>)
    ensures |r| <= |outs|
  {
    if outs == [] then []
    else
      var last := outs[|outs| - 1];
      Successes(outs[..|outs| - 1]) + (if last.Ok? then [last.value] else [])
  }

  lemma {:induction false} SuccessesAppend(a: seq<Result<RecipeDoc, string>>, b: seq<Result<RecipeDoc, string>>)
    ensures Successes(a + b) == Successes(a) + Successes(b)
    decreases |b|
  {
    if b == [] {
      assert a + b == a;
    } else {
      var b' := b[..|b| - 1];
      assert (a + b)[..|a + b| - 1] == a + b';
      SuccessesAppend(a, b');
    }
  }

  /** A recipe is kept exactly when some attempt produced it. */
  lemma {:induction false} SuccessesMembership(outs: seq<Result<RecipeDoc, string>>, doc: RecipeDoc)
    ensures doc in Successes(outs) <==> Ok(doc) in outs
  {
    if outs != [] {
      var init := outs[..|outs| - 1];
      SuccessesMembership(init, doc);
      assert outs == init + [outs[|outs| - 1]];
    }
  }

  /** The outcomes of the first n attempts, where run(k) is the outcome of
      attempt k. */
  function Outcomes(run: nat -> Result<RecipeDoc, string>, n: nat): (r: seq<Result<RecipeDoc, string>>)
    ensures |r| == n
  {
    if n == 0 then [] else Outcomes(run, n - 1) + [run(n - 1)]
  }

  /** The k-th outcome is that of the k-th attempt. */
  lemma {:induction false} OutcomeAt(run: nat -> Result<RecipeDoc, string>, n: nat, k: nat)
    requires k < n
    ensures Outcomes(run, n)[k] == run(k)
  {
    if k < n - 1 {
      OutcomeAt(run, n - 1, k);
      assert Outcomes(run, n)[k] == Outcomes(run, n - 1)[k];
    }
  }

  /** Attempt k of generateMultipleRecipes: one call of generateRecipe. */
  function Run(apiKeySet: bool, ingredients: seq<string>, f: PromptFilters,
               attempts: nat -> Attempt, parse: string -> Option<Json>): nat -> Result<RecipeDoc, string>
  {
    (k: nat) => GenerateRecipe(apiKeySet, ingredients, f, attempts(k), parse)
  }

  /** A successful call of generateRecipe yields a fresh AI recipe. */
  lemma GenerateRecipeOk(apiKeySet: bool, ingredients: seq<string>, f: PromptFilters,
                         attempt: Attempt, parse: string -> Option<Json>)
    ensures var r := GenerateRecipe(apiKeySet, ingredients, f, attempt, parse);
      r.Ok? ==> r.value.aiGenerated && Aggregates(r.value, [])
  {
  }

  /** Every recipe of a run of attempts is a fresh AI recipe. */
  lemma SuccessesAreNewAiRecipes(apiKeySet: bool, ingredients: seq<string>, f: PromptFilters,
                                 attempts: nat -> Attempt, parse: string -> Option<Json>, n: nat)
    ensures forall doc :: doc in Successes(Outcomes(Run(apiKeySet, ingredients, f, attempts, parse), n)) ==>
              doc.aiGenerated && Aggregates(doc, [])
  {
    var run := Run(apiKeySet, ingredients, f, attempts, parse);
    var outs := Outcomes(run, n);
    forall doc | doc in Successes(outs) ensures doc.aiGenerated && Aggregates(doc, []) {
      SuccessesMembership(outs, doc);
      var k :| 0 <= k < |outs| && outs[k] == Ok(doc);
      OutcomeAt(run, n, k);
      GenerateRecipeOk(apiKeySet, ingredients, f, attempts(k), parse);
    }
  }

  /** One more attempt extends the collected recipes by its recipe, if any. */
  lemma SuccessesStep(run: nat -> Result<RecipeDoc, string>, i: nat)
    ensures Successes(Outcomes(run, i + 1)) ==
            Successes(Outcomes(run, i)) + (if run(i).Ok? then [run(i).value] else [])
  {
    var outs := Outcomes(run, i);
    assert Outcomes(run, i + 1) == outs + [run(i)];
    SuccessesAppend(outs, [run(i)]);
    assert [run(i)][..0] == [];
  }

  /** generateMultipleRecipes: count attempts, keeping the recipes of those
      that succeed in attempt order and skipping those that fail. */
  method GenerateMultipleRecipes(apiKeySet: bool, ingredients: seq<string>, f: PromptFilters, count: nat,
                                 attempts: nat -> Attempt, parse: string -> Option<Json>)
    returns (recipes: seq<RecipeDoc>)
    ensures recipes == Successes(Outcomes(Run(apiKeySet, ingredients, f, attempts, parse), count))
    ensures |recipes| <= count
    ensures forall doc :: doc in recipes ==> doc.aiGenerated && Aggregates(doc, [])
  {
    var generate := Run(apiKeySet, ingredients, f, attempts, parse);
    recipes := [];
    for i := 0 to count
      invariant recipes == Successes(Outcomes(generate, i))
    {
      var outcome := generate(i);
      SuccessesStep(generate, i);
      if outcome.Ok? {
        recipes := recipes + [outcome.value];
      }
    }
    SuccessesAreNewAiRecipes(apiKeySet, ingredients, f, attempts, parse, count);
  }
}

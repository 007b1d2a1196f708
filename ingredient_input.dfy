/** The ingredient picker (src/components/IngredientInput.jsx): the list of
    chosen ingredients, the text being typed, whether suggestions are shown,
    and the handlers that edit them. The known ingredients the suggestions
    come from are a constructor argument. */
module IngredientInput {
  import opened Common

  // -----------------------------------------------------------------------
  // Suggestions

  /** A known ingredient is suggested for the typed text when it contains
      that text, ignoring case, and is not chosen yet. */
  predicate Suggestible(x: string, typed: string, chosen: seq<string>) {
    Includes(ToLower(x), ToLower(typed)) && x !in chosen
  }

  /** filteredIngredients: the suggestible known ingredients, in catalogue
      order. */
  function FilteredIngredients(catalogue: seq<string>, typed: string, chosen: seq<string>): (r: seq<string>)
    ensures forall x :: x in r <==> x in catalogue && Suggestible(x, typed, chosen)
    ensures |r| <= |catalogue|
  {
    if catalogue == [] then []
    else
      (if Suggestible(catalogue[0], typed, chosen) then [catalogue[0]] else [])
      + FilteredIngredients(catalogue[1..], typed, chosen)
  }

  /** The first suggestion is the first suggestible entry of the
      catalogue. */
  lemma {:induction false} FirstSuggestion(catalogue: seq<string>, typed: string, chosen: seq<string>)
    requires FilteredIngredients(catalogue, typed, chosen) != []
    ensures exists i :: 0 <= i < |catalogue| &&
              catalogue[i] == FilteredIngredients(catalogue, typed, chosen)[0] &&
              Suggestible(catalogue[i], typed, chosen) &&
              forall j :: 0 <= j < i ==> !Suggestible(catalogue[j], typed, chosen)
  {
    var r := FilteredIngredients(catalogue, typed, chosen);
    if Suggestible(catalogue[0], typed, chosen) {
      assert catalogue[0] == r[0];
    } else {
      var rest := catalogue[1..];
      assert r == FilteredIngredients(rest, typed, chosen);
      FirstSuggestion(rest, typed, chosen);
      var i :| 0 <= i < |rest| && rest[i] == r[0] && Suggestible(rest[i], typed, chosen) &&
               forall j :: 0 <= j < i ==> !Suggestible(rest[j], typed, chosen);
      assert catalogue[i + 1] == rest[i];
      forall j | 0 <= j < i + 1 ensures !Suggestible(catalogue[j], typed, chosen) {
        if j > 0 {
          assert catalogue[j] == rest[j - 1];
        }
      }
    }
  }

  /** With nothing typed, every known ingredient not chosen yet is
      suggested, so Enter on an empty field picks the first of them. */
  lemma EmptyTextSuggestsAll(catalogue: seq<string>, chosen: seq<string>)
    ensures forall x :: x in FilteredIngredients(catalogue, "", chosen) <==> x in catalogue && x !in chosen
  {
    forall x | x in catalogue && x !in chosen
      ensures Suggestible(x, "", chosen)
    {
      assert ToLower("") == "";
      assert StartsWith(ToLower(x), "");
    }
  }

  /** At most this many suggestions are listed. */
  const MaxShown := 5

  /** The suggestions listed under the field: the first five, and only
      while suggestions are shown. */
  function Shown(show: bool, suggestions: seq<string>): (r: seq<string>)
    ensures |r| <= MaxShown
    ensures show ==> |r| == (if |suggestions| < MaxShown then |suggestions| else MaxShown) && r == suggestions[..|r|]
    ensures !show ==> r == []
  {
    if !show then []
    else if |suggestions| < MaxShown then suggestions
    else suggestions[..MaxShown]
  }

  // -----------------------------------------------------------------------
  // The chosen list

  /** addIngredient on a list: a non-empty ingredient not yet present is
      appended. */
  function Added(list: seq<string>, x: string): (r: seq<string>)
    ensures x != "" && x !in list ==> r == list + [x]
    ensures !(x != "" && x !in list) ==> r == list
  {
    if x != "" && x !in list then list + [x] else list
  }

  /** removeIngredient on a list: every occurrence of x goes, the rest keep
      their order. */
  function Without(list: seq<string>, x: string): (r: seq<string>)
    ensures x !in r
    ensures forall y :: y != x ==> (y in r <==> y in list)
    ensures |r| <= |list|
  {
    if list == [] then []
    else if list[|list| - 1] == x then Without(list[..|list| - 1], x)
    else Without(list[..|list| - 1], x) + [list[|list| - 1]]
  }

  /** Removing from a concatenation removes from both parts in place: the
      relative order of what remains is the original one. */
  lemma {:induction false} WithoutAppend(a: seq<string>, b: seq<string>, x: string)
    ensures Without(a + b, x) == Without(a, x) + Without(b, x)
    decreases |b|
  {
    if b == [] {
      assert a + b == a;
    } else {
      var b' := b[..|b| - 1];
      assert (a + b)[..|a + b| - 1] == a + b';
      assert (a + b)[|a + b| - 1] == b[|b| - 1];
      WithoutAppend(a, b', x);
    }
  }

  /** Removing keeps a list free of duplicates. */
  lemma {:induction false} WithoutNoDuplicates(list: seq<string>, x: string)
    requires NoDuplicates(list)
    ensures NoDuplicates(Without(list, x))
  {
    if list != [] {
      var init := list[..|list| - 1];
      var last := list[|list| - 1];
      assert NoDuplicates(init) by {
        forall i, j | 0 <= i < j < |init| ensures init[i] != init[j] {
          assert init[i] == list[i] && init[j] == list[j];
        }
      }
      WithoutNoDuplicates(init, x);
      if last != x {
        assert last !in init by {
          forall i | 0 <= i < |init| ensures init[i] != last {
            assert init[i] == list[i];
          }
        }
        NoDuplicatesAppend(Without(init, x), last);
      }
    }
  }

  // -----------------------------------------------------------------------
  // The component

  class IngredientPicker {
    /** The known ingredients. */
    const catalogue: seq<string>
    /** The chosen ingredients, in the order they were added. */
    var ingredients: seq<string>
    /** The text in the input field. */
    var newIngredient: string
    var showSuggestions: bool

    /** The chosen list holds no duplicates and no empty name, and
        suggestions are shown exactly while something is typed. */
    ghost predicate Valid()
      reads this
    {
      && NoDuplicates(ingredients)
      && "" !in ingredients
      && (showSuggestions <==> newIngredient != "")
    }

    constructor(catalogue: seq<string>)
      ensures Valid()
      ensures this.catalogue == catalogue
      ensures ingredients == [] && newIngredient == "" && !showSuggestions
    {
      this.catalogue := catalogue;
      ingredients := [];
      newIngredient := "";
      showSuggestions := false;
    }

    function Suggestions(): seq<string>
      reads this
    {
      FilteredIngredients(catalogue, newIngredient, ingredients)
    }

    /** addIngredient: a no-op for an empty or already chosen name;
        otherwise the name goes to the end of the list and the field is
        cleared, which hides the suggestions. */
    method AddIngredient(x: string)
      requires Valid()
      modifies this
      ensures Valid()
      ensures ingredients == Added(old(ingredients), x)
      ensures x != "" && x !in old(ingredients) ==> newIngredient == "" && !showSuggestions
      ensures !(x != "" && x !in old(ingredients)) ==>
                newIngredient == old(newIngredient) && showSuggestions == old(showSuggestions)
    {
      if x != "" && x !in ingredients {
        NoDuplicatesAppend(ingredients, x);
        ingredients := ingredients + [x];
        newIngredient := "";
        showSuggestions := false;
      }
    }

    /** removeIngredient: drop every occurrence of the name. */
    method RemoveIngredient(x: string)
      requires Valid()
      modifies this`ingredients
      ensures Valid()
      ensures ingredients == Without(old(ingredients), x)
    {
      WithoutNoDuplicates(ingredients, x);
      ingredients := Without(ingredients, x);
    }

    /** handleInputChange: the field takes the new text; suggestions show
        while it is non-empty. */
    method HandleInputChange(value: string)
      requires Valid()
      modifies this`newIngredient, this`showSuggestions
      ensures Valid()
      ensures newIngredient == value && (showSuggestions <==> |value| > 0)
    {
      newIngredient := value;
      showSuggestions := |value| > 0;
    }

    /** handleKeyPress: on Enter, add the first suggestion if there is one,
        else the trimmed text if it is not blank; other keys do nothing. */
    method HandleKeyPress(key: string)
      requires Valid()
      modifies this
      ensures Valid()
      ensures key != "Enter" ==>
                && ingredients == old(ingredients) && newIngredient == old(newIngredient)
                && showSuggestions == old(showSuggestions)
      ensures key == "Enter" && old(Suggestions()) != [] ==>
                && ingredients == Added(old(ingredients), old(Suggestions())[0])
                && newIngredient == "" && !showSuggestions
      ensures key == "Enter" && old(Suggestions()) == [] ==>
                var t := Trim(old(newIngredient));
                && ingredients == Added(old(ingredients), t)
                && (if t != "" && t !in old(ingredients) then newIngredient == "" && !showSuggestions
                    else newIngredient == old(newIngredient) && showSuggestions == old(showSuggestions))
    {
      if key == "Enter" {
        var suggestions := FilteredIngredients(catalogue, newIngredient, ingredients);
        if |suggestions| > 0 {
          assert suggestions[0] in suggestions;
          if suggestions[0] == "" {
            assert Includes(ToLower(""), ToLower(newIngredient));
            assert newIngredient == "" by {
              assert ToLower("") == "";
              EmptyIncludes(ToLower(newIngredient));
            }
          }
          AddIngredient(suggestions[0]);
        } else if Trim(newIngredient) != "" {
          AddIngredient(Trim(newIngredient));
        }
      }
    }

    /** The Add button: add the trimmed text. */
    method AddTyped()
      requires Valid()
      modifies this
      ensures Valid()
      ensures var t := Trim(old(newIngredient));
        && ingredients == Added(old(ingredients), t)
        && (if t != "" && t !in old(ingredients) then newIngredient == "" && !showSuggestions
            else newIngredient == old(newIngredient) && showSuggestions == old(showSuggestions))
    {
      AddIngredient(Trim(newIngredient));
    }

    /** Clear All: the list becomes empty. */
    method ClearAll()
      requires Valid()
      modifies this`ingredients
      ensures Valid()
      ensures ingredients == []
    {
      ingredients := [];
    }

    /** handleGenerateRecipes: the chosen list is handed on only when it is
        not empty. */
    method HandleGenerateRecipes() returns (request: Option<seq<string>>)
      ensures request.Some? <==> |ingredients| > 0
      ensures request.Some? ==> request.value == ingredients
    {
      if |ingredients| > 0 {
        request := Some(ingredients);
      } else {
        request := None;
      }
    }
  }

  /** Only the empty text occurs in the empty text. */
  lemma EmptyIncludes(s: string)
    requires Includes("", s)
    ensures s == ""
  {
  }
}

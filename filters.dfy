/** The filter record of the recipe listings page and the updates the
    filter panel makes to it (src/components/Filters.jsx). The record has
    five string fields, in this entry order: cuisineType, difficulty,
    cookingTime, dietaryRestrictions, sort. An empty string means "no
    filter"; an empty sort means the default order. */
module FilterPanel {

  datatype FilterKey = CuisineType | Difficulty | CookingTime | DietaryRestrictions | Sort

  datatype Filters = Filters(
    cuisineType: string,
    difficulty: string,
    cookingTime: string,
    dietaryRestrictions: string,
    sort: string)

  /** The keys in the order Object.entries lists them: the order of the
      record's construction, which every spread update keeps. */
  const Keys: seq<FilterKey> := [CuisineType, Difficulty, CookingTime, DietaryRestrictions, Sort]

  /** The position of a key in the entry order. */
  function Rank(k: FilterKey): (r: nat)
    ensures r < |Keys| && Keys[r] == k
  {
    match k
    case CuisineType => 0
    case Difficulty => 1
    case CookingTime => 2
    case DietaryRestrictions => 3
    case Sort => 4
  }

  /** The property name of a key. */
  function KeyName(k: FilterKey): string {
    match k
    case CuisineType => "cuisineType"
    case Difficulty => "difficulty"
    case CookingTime => "cookingTime"
    case DietaryRestrictions => "dietaryRestrictions"
    case Sort => "sort"
  }

  lemma KeyNameInjective(k1: FilterKey, k2: FilterKey)
    ensures KeyName(k1) == KeyName(k2) <==> k1 == k2
  {
  }

  function Get(f: Filters, k: FilterKey): string {
    match k
    case CuisineType => f.cuisineType
    case Difficulty => f.difficulty
    case CookingTime => f.cookingTime
    case DietaryRestrictions => f.dietaryRestrictions
    case Sort => f.sort
  }

  /** Two filter records are equal when they agree on every key. */
  lemma FiltersExtensional(f: Filters, g: Filters)
    requires forall k :: Get(f, k) == Get(g, k)
    ensures f == g
  {
    assert Get(f, CuisineType) == Get(g, CuisineType);
    assert Get(f, Difficulty) == Get(g, Difficulty);
    assert Get(f, CookingTime) == Get(g, CookingTime);
    assert Get(f, DietaryRestrictions) == Get(g, DietaryRestrictions);
    assert Get(f, Sort) == Get(g, Sort);
  }

  /** `{...filters, [k]: v}`: both handleSelectionChange (with the selected
      option's value) and updateField (with the value a tag passes) make
      this update. */
  function WithField(f: Filters, k: FilterKey, v: string): (r: Filters)
    ensures Get(r, k) == v
    ensures forall k' :: k' != k ==> Get(r, k') == Get(f, k')
  {
    match k
    case CuisineType => f.(cuisineType := v)
    case Difficulty => f.(difficulty := v)
    case CookingTime => f.(cookingTime := v)
    case DietaryRestrictions => f.(dietaryRestrictions := v)
    case Sort => f.(sort := v)
  }

  /** The record the Reset button installs. */
  function ResetFilters(): (r: Filters)
    ensures forall k :: Get(r, k) == ""
  {
    Filters("", "", "", "", "")
  }

  /** Object.entries(filters). */
  function Entries(f: Filters): (es: seq<(FilterKey, string)>)
    ensures |es| == |Keys|
    ensures forall i :: 0 <= i < |es| ==> es[i] == (Keys[i], Get(f, Keys[i]))
  {
    [(CuisineType, f.cuisineType), (Difficulty, f.difficulty), (CookingTime, f.cookingTime),
     (DietaryRestrictions, f.dietaryRestrictions), (Sort, f.sort)]
  }

  lemma EntriesMembership(f: Filters)
    ensures forall k, v :: (k, v) in Entries(f) <==> v == Get(f, k)
  {
    forall k, v | v == Get(f, k) ensures (k, v) in Entries(f) {
      assert Entries(f)[Rank(k)] == (k, v);
    }
  }

  /** The keys of a run of entries follow the entry order strictly. */
  predicate RanksIncrease(es: seq<(FilterKey, string)>) {
    forall i, j :: 0 <= i < j < |es| ==> Rank(es[i].0) < Rank(es[j].0)
  }

  lemma EntriesRanksIncrease(f: Filters)
    ensures RanksIncrease(Entries(f))
  {
    var es := Entries(f);
    forall i, j | 0 <= i < j < |es| ensures Rank(es[i].0) < Rank(es[j].0) {
      assert es[i].0 == Keys[i] && es[j].0 == Keys[j];
    }
  }

  predicate ShowsAsTag(e: (FilterKey, string)) {
    e.0 != Sort && e.1 != ""
  }

  /** The entries kept by the tag bar's map (those it does not turn into
      null), in entry order. */
  function TagEntries(es: seq<(FilterKey, string)>): (r: seq<(FilterKey, string)>)
  {
    if es == [] then []
    else (if ShowsAsTag(es[0]) then [es[0]] else []) + TagEntries(es[1..])
  }

  /** The kept entries are exactly those shown as tags. */
  lemma {:induction false} TagEntriesMembership(es: seq<(FilterKey, string)>)
    ensures forall e :: e in TagEntries(es) <==> e in es && ShowsAsTag(e)
  {
    if es != [] {
      TagEntriesMembership(es[1..]);
      assert es == [es[0]] + es[1..];
    }
  }

  /** The kept entries keep their order. */
  lemma {:induction false} TagEntriesRanks(es: seq<(FilterKey, string)>)
    requires RanksIncrease(es)
    ensures RanksIncrease(TagEntries(es))
  {
    if es != [] {
      var rest := es[1..];
      assert RanksIncrease(rest) by {
        forall i, j | 0 <= i < j < |rest| ensures Rank(rest[i].0) < Rank(rest[j].0) {
          assert rest[i] == es[i + 1] && rest[j] == es[j + 1];
        }
      }
      TagEntriesRanks(rest);
      if ShowsAsTag(es[0]) {
        var t := TagEntries(rest);
        TagEntriesMembership(rest);
        assert TagEntries(es) == [es[0]] + t;
        forall i | 0 <= i < |t| ensures Rank(es[0].0) < Rank(t[i].0) {
          assert t[i] in t;
          var m :| 0 <= m < |rest| && rest[m] == t[i];
          assert es[m + 1] == t[i];
        }
      }
    }
  }

  /** The tags shown under the filter panel: one per filter that is not the
      sort order and is not empty, in entry order. */
  function Tags(f: Filters): (r: seq<(FilterKey, string)>)
    ensures forall k, v :: (k, v) in r <==> k != Sort && v != "" && v == Get(f, k)
    ensures RanksIncrease(r)
  {
    var es := Entries(f);
    EntriesRanksIncrease(f);
    TagEntriesMembership(es);
    TagEntriesRanks(es);
    EntriesMembership(f);
    TagEntries(es)
  }

  /** The sort order the panel's summary shows. */
  function SortLabel(f: Filters): (r: string)
    ensures r != ""
    ensures f.sort != "" ==> r == f.sort
  {
    if f.sort == "" then "Rating" else f.sort
  }
}

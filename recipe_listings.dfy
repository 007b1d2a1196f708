/** The URL state of the recipe listings page
    (src/components/RecipeListings.jsx): the filters read from the search
    parameters when the page loads, the query string written back whenever
    the filters change, and the link of each listing. */
module RecipeListings {
  import opened Common
  import opened FilterPanel

  /** initialFilters: each field is its search parameter, or "" when the
      parameter is absent. */
  function InitialFilters(searchParams: map<string, string>): (f: Filters)
    ensures forall k :: KeyName(k) in searchParams ==> Get(f, k) == searchParams[KeyName(k)]
    ensures forall k :: KeyName(k) !in searchParams ==> Get(f, k) == ""
  {
    Filters(
      if "cuisineType" in searchParams then searchParams["cuisineType"] else "",
      if "difficulty" in searchParams then searchParams["difficulty"] else "",
      if "cookingTime" in searchParams then searchParams["cookingTime"] else "",
      if "dietaryRestrictions" in searchParams then searchParams["dietaryRestrictions"] else "",
      if "sort" in searchParams then searchParams["sort"] else "")
  }

  /** The href of a listing. */
  function RecipeHref(id: string): (r: string)
    ensures StartsWith(r, "/recipe/") && r[|"/recipe/"|..] == id
  {
    "/recipe/" + id
  }

  // -----------------------------------------------------------------------
  // routerWithFilters

  /** The entries routerWithFilters appends: those whose value is set, in
      entry order. */
  function Kept(es: seq<(FilterKey, string)>): seq<(FilterKey, string)> {
    if es == [] then []
    else Kept(es[..|es| - 1]) + (if es[|es| - 1].1 != "" then [es[|es| - 1]] else [])
  }

  /** The name/value pairs of kept entries. */
  function Params(kept: seq<(FilterKey, string)>): (ps: seq<(string, string)>)
    ensures |ps| == |kept|
    ensures forall i :: 0 <= i < |kept| ==> ps[i] == (KeyName(kept[i].0), kept[i].1)
  {
    if kept == [] then [] else Params(kept[..|kept| - 1]) + [(KeyName(kept[|kept| - 1].0), kept[|kept| - 1].1)]
  }

  /** The appended entries are exactly the entries with a value. */
  lemma {:induction false} KeptMembership(es: seq<(FilterKey, string)>)
    ensures forall e :: e in Kept(es) <==> e in es && e.1 != ""
  {
    if es != [] {
      var init := es[..|es| - 1];
      var last := es[|es| - 1];
      KeptMembership(init);
      assert es == init + [last];
      assert Kept(es) == Kept(init) + (if last.1 != "" then [last] else []);
    }
  }

  /** The appended entries keep the entry order. */
  lemma {:induction false} KeptRanks(es: seq<(FilterKey, string)>)
    requires RanksIncrease(es)
    ensures RanksIncrease(Kept(es))
  {
    if es != [] {
      var init := es[..|es| - 1];
      var last := es[|es| - 1];
      assert RanksIncrease(init) by {
        forall i, j | 0 <= i < j < |init| ensures Rank(init[i].0) < Rank(init[j].0) {
          assert init[i] == es[i] && init[j] == es[j];
        }
      }
      KeptRanks(init);
      if last.1 != "" {
        var k := Kept(init);
        KeptMembership(init);
        assert Kept(es) == k + [last];
        forall i | 0 <= i < |k| ensures Rank(k[i].0) < Rank(last.0) {
          assert k[i] in k;
          var m :| 0 <= m < |init| && init[m] == k[i];
          assert es[m] == k[i];
        }
      }
    }
  }

  lemma ParamsMembership(kept: seq<(FilterKey, string)>)
    ensures forall k, v :: (KeyName(k), v) in Params(kept) <==> (k, v) in kept
  {
    var ps := Params(kept);
    forall k, v | (KeyName(k), v) in ps ensures (k, v) in kept {
      var i :| 0 <= i < |ps| && ps[i] == (KeyName(k), v);
      KeyNameInjective(k, kept[i].0);
    }
    forall k, v | (k, v) in kept ensures (KeyName(k), v) in ps {
      var i :| 0 <= i < |kept| && kept[i] == (k, v);
      assert ps[i] == (KeyName(k), v);
    }
  }

  lemma ParamsNamesDistinct(kept: seq<(FilterKey, string)>)
    requires RanksIncrease(kept)
    ensures forall i, j :: 0 <= i < j < |Params(kept)| ==> Params(kept)[i].0 != Params(kept)[j].0
  {
    var ps := Params(kept);
    forall i, j | 0 <= i < j < |ps| ensures ps[i].0 != ps[j].0 {
      KeyNameInjective(kept[i].0, kept[j].0);
    }
  }

  /** What routerWithFilters emits for a filter record: a pair for exactly
      the keys whose value is set, each key at most once, in entry order. */
  lemma EmittedParams(f: Filters)
    ensures forall k, v :: (KeyName(k), v) in Params(Kept(Entries(f))) <==> v == Get(f, k) && v != ""
    ensures RanksIncrease(Kept(Entries(f)))
    ensures forall i, j :: 0 <= i < j < |Params(Kept(Entries(f)))| ==>
              Params(Kept(Entries(f)))[i].0 != Params(Kept(Entries(f)))[j].0
  {
    EntriesRanksIncrease(f);
    KeptMembership(Entries(f));
    KeptRanks(Entries(f));
    EntriesMembership(f);
    ParamsMembership(Kept(Entries(f)));
    ParamsNamesDistinct(Kept(Entries(f)));
  }

  /** routerWithFilters: append a search parameter for every entry whose
      value is neither undefined nor "", then navigate to "?" followed by
      the serialised parameters. */
  method RouterWithFilters(f: Filters) returns (target: string)
    ensures target == "?" + Serialize(Params(Kept(Entries(f))))
    ensures (forall k :: Get(f, k) == "") <==> target == "?"
  {
    var queryParams: seq<(string, string)> := [];
    var es := Entries(f);
    for i := 0 to |es|
      invariant queryParams == Params(Kept(es[..i]))
    {
      var (key, value) := es[i];
      assert es[..i + 1][..i] == es[..i];
      if value != "" {
        queryParams := queryParams + [(KeyName(key), value)];
      }
    }
    assert es[..|es|] == es;
    target := "?" + Serialize(queryParams);
    NothingKeptIffUnfiltered(f);
  }

  /** No parameter is written exactly when no filter is set. */
  lemma NothingKeptIffUnfiltered(f: Filters)
    ensures (forall k :: Get(f, k) == "") <==> Kept(Entries(f)) == []
  {
    var es := Entries(f);
    KeptMembership(es);
    EntriesMembership(f);
    if Kept(es) != [] {
      var e := Kept(es)[0];
      assert e in Kept(es);
      assert Get(f, e.0) != "";
    }
    if !(forall k :: Get(f, k) == "") {
      var k :| Get(f, k) != "";
      assert (k, Get(f, k)) in Kept(es);
    }
  }

  // -----------------------------------------------------------------------
  // Reading the parameters back

  /** The search parameters as the page receives them. */
  function ParamMap(ps: seq<(string, string)>): map<string, string> {
    if ps == [] then map[] else ParamMap(ps[..|ps| - 1])[ps[|ps| - 1].0 := ps[|ps| - 1].1]
  }

  lemma {:induction false} ParamMapSpec(ps: seq<(string, string)>)
    requires forall i, j :: 0 <= i < j < |ps| ==> ps[i].0 != ps[j].0
    ensures forall i :: 0 <= i < |ps| ==> ps[i].0 in ParamMap(ps) && ParamMap(ps)[ps[i].0] == ps[i].1
    ensures forall key :: key in ParamMap(ps) ==> exists i :: 0 <= i < |ps| && ps[i].0 == key
  {
    if ps != [] {
      var init := ps[..|ps| - 1];
      ParamMapSpec(init);
      forall key | key in ParamMap(ps) ensures exists i :: 0 <= i < |ps| && ps[i].0 == key {
        if key != ps[|ps| - 1].0 {
          assert key in ParamMap(init);
          var i :| 0 <= i < |init| && init[i].0 == key;
          assert ps[i].0 == key;
        }
      }
    }
  }

  /** A set filter comes back as its search parameter. */
  lemma RoundTripSet(f: Filters, k: FilterKey)
    requires Get(f, k) != ""
    ensures KeyName(k) in ParamMap(Params(Kept(Entries(f))))
    ensures ParamMap(Params(Kept(Entries(f))))[KeyName(k)] == Get(f, k)
  {
    var ps := Params(Kept(Entries(f)));
    EmittedParams(f);
    ParamMapSpec(ps);
    assert (KeyName(k), Get(f, k)) in ps;
    var i :| 0 <= i < |ps| && ps[i] == (KeyName(k), Get(f, k));
    assert ps[i].0 == KeyName(k);
  }

  /** An unset filter writes no search parameter. */
  lemma RoundTripUnset(f: Filters, k: FilterKey)
    requires Get(f, k) == ""
    ensures KeyName(k) !in ParamMap(Params(Kept(Entries(f))))
  {
    var kept := Kept(Entries(f));
    var ps := Params(kept);
    EmittedParams(f);
    ParamMapSpec(ps);
    forall i | 0 <= i < |ps| ensures ps[i].0 != KeyName(k) {
      assert (KeyName(kept[i].0), kept[i].1) in ps by {
        assert ps[i] == (KeyName(kept[i].0), kept[i].1);
      }
      KeyNameInjective(kept[i].0, k);
    }
  }

  /** Reloading the page restores the filters: the parameters written by
      routerWithFilters, read back by initialFilters, give the same record. */
  lemma FiltersRoundTrip(f: Filters)
    ensures InitialFilters(ParamMap(Params(Kept(Entries(f))))) == f
  {
    var g := InitialFilters(ParamMap(Params(Kept(Entries(f)))));
    forall k ensures Get(g, k) == Get(f, k) {
      if Get(f, k) != "" {
        RoundTripSet(f, k);
      } else {
        RoundTripUnset(f, k);
      }
    }
    FiltersExtensional(g, f);
  }

  // -----------------------------------------------------------------------
  // URLSearchParams serialisation (application/x-www-form-urlencoded)

  function HexDigit(d: nat): char
    requires d < 16
  {
    "0123456789ABCDEF"[d]
  }

  /** The UTF-8 encoding of one character. */
  function Utf8(c: char): (bs: seq<nat>)
    ensures 1 <= |bs| <= 4 && forall i :: 0 <= i < |bs| ==> bs[i] < 256
  {
    var n := c as int;
    if n < 0x80 then [n]
    else if n < 0x800 then [0xC0 + n / 0x40, 0x80 + n % 0x40]
    else if n < 0x10000 then [0xE0 + n / 0x1000, 0x80 + (n / 0x40) % 0x40, 0x80 + n % 0x40]
    else [0xF0 + n / 0x40000, 0x80 + (n / 0x1000) % 0x40, 0x80 + (n / 0x40) % 0x40, 0x80 + n % 0x40]
  }

  /** Bytes the serializer leaves as they are: *, -, ., digits, letters, _. */
  predicate Unreserved(b: nat) {
    b == 0x2A || b == 0x2D || b == 0x2E || 0x30 <= b <= 0x39 ||
    0x41 <= b <= 0x5A || b == 0x5F || 0x61 <= b <= 0x7A
  }

  /** One byte: space becomes '+', unreserved bytes stay, every other byte
      becomes %XX with upper-case hex digits. */
  function EncodeByte(b: nat): (r: string)
    requires b < 256
    ensures forall k :: 0 <= k < |r| ==> r[k] != '&' && r[k] != '='
  {
    if b == 0x20 then "+"
    else if Unreserved(b) then [b as char]
    else ['%', HexDigit(b / 16), HexDigit(b % 16)]
  }

  function EncodeBytes(bs: seq<nat>): (r: string)
    requires forall i :: 0 <= i < |bs| ==> bs[i] < 256
    ensures forall k :: 0 <= k < |r| ==> r[k] != '&' && r[k] != '='
  {
    if bs == [] then "" else EncodeByte(bs[0]) + EncodeBytes(bs[1..])
  }

  /** A name or value as URLSearchParams writes it. The result never holds
      the separators '&' and '=', so each pair of the query string can be
      told apart. */
  function FormEncode(s: string): (r: string)
    ensures forall k :: 0 <= k < |r| ==> r[k] != '&' && r[k] != '='
    ensures |r| >= |s|
  {
    if s == [] then "" else EncodeBytes(Utf8(s[0])) + FormEncode(s[1..])
  }

  /** URLSearchParams.toString: name=value pairs joined by '&'. */
  function Serialize(ps: seq<(string, string)>): (r: string)
    ensures r == "" <==> ps == []
  {
    if ps == [] then ""
    else
      var pair := FormEncode(ps[0].0) + "=" + FormEncode(ps[0].1);
      assert pair[|FormEncode(ps[0].0)|] == '=';
      if |ps| == 1 then pair else pair + "&" + Serialize(ps[1..])
  }
}

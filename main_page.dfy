/**
 The main page of the recipe site: how it reads the search request out of the
 URL query (`searchInput`, `totalRecipes`, `filters`), how it writes the four
 dietary facets back as a comma-separated token list, how its three buttons
 rewrite the query, how it marks favourite recipes, and when it shows the
 "No results found!" heading.

 `RECIPES_TO_SHOW_INITIAL` and `RECIPES_TO_SHOW_DELTA` are the parameters
 `initial` and `delta`. A handler's calls to `dispatch(loadRecipesPreviews(..))`
 and `navigate(..)` are its two results: the search request it dispatches and
 the query it puts in the address bar.
 */
module MainPage {
  import opened Text
  import opened UrlQuery

  const SearchInputKey := "searchInput"
  const TotalRecipesKey := "totalRecipes"
  const FiltersKey := "filters"

  const VegetarianToken := "vegetarian"
  const VeganToken := "vegan"
  const GlutenFreeToken := "glutenFree"
  const DairyFreeToken := "dairyFree"

  /** A token that names no facet. */
  const BogusToken := "bogus"

  /** The order in which the filter tokens are written. */
  const CanonicalOrder: seq<string> := [DairyFreeToken, GlutenFreeToken, VegetarianToken, VeganToken]

  datatype SearchFilterValue = SearchFilterValue(isVegetarian: bool, isVegan: bool, isGlutenFree: bool, isDairyFree: bool)

  const NoFilters := SearchFilterValue(false, false, false, false)

  datatype SearchParams = SearchParams(searchInput: string, totalRecipes: nat, filters: SearchFilterValue)

  datatype RecipePreview = RecipePreview(id: int, title: string, image: string)

  /** A preview as the recipes container receives it: the preview's own fields plus `isFavourite`. */
  datatype MarkedRecipePreview = MarkedRecipePreview(recipe: RecipePreview, isFavourite: bool)

  /** Whether the show-more button is rendered at all, and if so whether it carries the hidden class. */
  datatype ShowMoreButton = NotRendered | Rendered(hidden: bool)

  // ---------------------------------------------------------------------------
  // Reading the query

  /** `totalRecipes` is absent, empty or a decimal numeral: the queries this model decodes. */
  predicate TotalIsNumeric(q: Query)
  {
    TotalRecipesKey in q ==> q[TotalRecipesKey] == "" || IsDecimal(q[TotalRecipesKey])
  }

  /** `totalRecipes` is absent or empty, so the initial constant stands in for it. */
  predicate TotalIsDefault(q: Query)
  {
    TotalRecipesKey !in q || q[TotalRecipesKey] == ""
  }

  /** `query.get('totalRecipes') || RECIPES_TO_SHOW_INITIAL.toString()`. */
  function TotalRecipesText(q: Query, initial: nat): (text: string)
    ensures TotalIsDefault(q) ==> text == NatToString(initial)
    ensures !TotalIsDefault(q) ==> text == q[TotalRecipesKey]
    ensures TotalIsNumeric(q) ==> IsDecimal(text)
  {
    OrElse(Lookup(q, TotalRecipesKey), NatToString(initial))
  }

  /** The current limit: `Number` (or `parseInt`) of the text above. */
  function CurrentTotal(q: Query, initial: nat): nat
    requires TotalIsNumeric(q)
  {
    ParseDecimal(TotalRecipesText(q, initial))
  }

  /** The four facets, each set when its token is one of the pieces. */
  function FiltersFromPieces(pieces: seq<string>): SearchFilterValue
  {
    SearchFilterValue(VegetarianToken in pieces, VeganToken in pieces, GlutenFreeToken in pieces, DairyFreeToken in pieces)
  }

  /** The facets `filters` decodes to: the empty string and unknown tokens select nothing. */
  function DecodeFilters(s: string): (f: SearchFilterValue)
    ensures s == "" ==> f == NoFilters
    ensures f.isVegetarian <==> VegetarianToken in Split(s)
    ensures f.isVegan <==> VeganToken in Split(s)
    ensures f.isGlutenFree <==> GlutenFreeToken in Split(s)
    ensures f.isDairyFree <==> DairyFreeToken in Split(s)
  {
    FiltersFromPieces(Split(s))
  }

  /** The `filters` value is present and `token` is one of its comma-separated pieces. */
  predicate HasToken(q: Query, token: string)
  {
    FiltersKey in q && token in Split(q[FiltersKey])
  }

  /** `getSearchParamsFromURL`. */
  function GetSearchParamsFromURL(q: Query, initial: nat): (p: SearchParams)
    requires TotalIsNumeric(q)
    ensures p.searchInput == (if SearchInputKey in q then q[SearchInputKey] else "")
    ensures TotalIsDefault(q) ==> p.totalRecipes == initial
    ensures !TotalIsDefault(q) ==> p.totalRecipes == ParseDecimal(q[TotalRecipesKey])
    ensures p.filters.isVegetarian <==> HasToken(q, VegetarianToken)
    ensures p.filters.isVegan <==> HasToken(q, VeganToken)
    ensures p.filters.isGlutenFree <==> HasToken(q, GlutenFreeToken)
    ensures p.filters.isDairyFree <==> HasToken(q, DairyFreeToken)
  {
    ParseNatToString(initial);
    SearchParams(
      OrElse(Lookup(q, SearchInputKey), ""),
      CurrentTotal(q, initial),
      DecodeFilters(OrElse(Lookup(q, FiltersKey), "")))
  }

  /** Facet-wise "or" of two filter values. */
  function Either(f: SearchFilterValue, g: SearchFilterValue): SearchFilterValue
  {
    SearchFilterValue(f.isVegetarian || g.isVegetarian, f.isVegan || g.isVegan,
                      f.isGlutenFree || g.isGlutenFree, f.isDairyFree || g.isDairyFree)
  }

  /** Tokens are independent: a comma-joined list decodes to the union of its two halves. */
  lemma DecodeFiltersAppend(a: string, b: string)
    ensures DecodeFilters(a + [','] + b) == Either(DecodeFilters(a), DecodeFilters(b))
  {
    SplitAround(a, b);
  }

  /** A token that names no facet has no effect. */
  lemma DecodeIgnoresUnknownToken(a: string, token: string)
    requires ',' !in token && token !in CanonicalOrder
    ensures DecodeFilters(a + [','] + token) == DecodeFilters(a)
  {
    DecodeFiltersAppend(a, token);
    SplitNoComma(token);
  }

  /** A token already present has no further effect. */
  lemma DecodeIgnoresRepeatedToken(a: string, token: string)
    requires token in Split(a)
    ensures DecodeFilters(a + [','] + token) == DecodeFilters(a)
  {
    DecodeFiltersAppend(a, token);
    SplitNoComma(token);
  }

  /** Two comma-free tokens joined by a comma decode as the pair of pieces they are. */
  lemma DecodeTwoTokens(a: string, b: string)
    requires ',' !in a && ',' !in b
    ensures DecodeFilters(a + [','] + b) == FiltersFromPieces([a, b])
  {
    SplitAround(a, b);
    SplitNoComma(a);
    SplitNoComma(b);
  }

  /** `filters=vegan,dairyFree` sets exactly those two facets; `filters=vegan,bogus` only `vegan`. */
  lemma DecodeFiltersExamples()
    ensures DecodeFilters(VeganToken + [','] + DairyFreeToken) == SearchFilterValue(false, true, false, true)
    ensures DecodeFilters(VeganToken + [','] + BogusToken) == SearchFilterValue(false, true, false, false)
  {
    DecodeTwoTokens(VeganToken, DairyFreeToken);
    DecodeTwoTokens(VeganToken, BogusToken);
  }

  /** The query `new URLSearchParams()` decodes to no text, the initial limit and no facets. */
  lemma DecodeEmptyQuery(initial: nat)
    ensures GetSearchParamsFromURL(map[], initial) == SearchParams("", initial, NoFilters)
  {
  }

  // ---------------------------------------------------------------------------
  // Writing the filters

  /** The tokens of the selected facets, in canonical order. */
  function SelectedTokens(f: SearchFilterValue): seq<string>
  {
    (if f.isDairyFree then [DairyFreeToken] else [])
    + (if f.isGlutenFree then [GlutenFreeToken] else [])
    + (if f.isVegetarian then [VegetarianToken] else [])
    + (if f.isVegan then [VeganToken] else [])
  }

  /** The string `composeStringFromFilters` returns. */
  function FiltersToString(f: SearchFilterValue): (s: string)
    ensures f == NoFilters ==> s == ""
    ensures f != NoFilters ==> Split(s) == SelectedTokens(f)
  {
    PiecesOfSelectedTokens(f);
    if f != NoFilters then SplitJoin(SelectedTokens(f)); Join(SelectedTokens(f))
    else Join(SelectedTokens(f))
  }

  /** Position of a token in the canonical order. */
  function Rank(token: string): nat
  {
    if token == DairyFreeToken then 0
    else if token == GlutenFreeToken then 1
    else if token == VegetarianToken then 2
    else if token == VeganToken then 3
    else 4
  }

  /** Whether `f` selects the facet that `token` names. */
  predicate Selects(f: SearchFilterValue, token: string)
  {
    || (token == DairyFreeToken && f.isDairyFree)
    || (token == GlutenFreeToken && f.isGlutenFree)
    || (token == VegetarianToken && f.isVegetarian)
    || (token == VeganToken && f.isVegan)
  }

  /** The selected tokens are exactly the selected facets' tokens, each once, in canonical order. */
  lemma SelectedTokensCanonical(f: SearchFilterValue)
    ensures forall i :: 0 <= i < |SelectedTokens(f)| ==> SelectedTokens(f)[i] in CanonicalOrder
    ensures forall i, j :: 0 <= i < j < |SelectedTokens(f)| ==> Rank(SelectedTokens(f)[i]) < Rank(SelectedTokens(f)[j])
    ensures forall token :: token in SelectedTokens(f) <==> Selects(f, token)
  {
  }

  /** The composed string is empty exactly when no facet is selected. */
  lemma FiltersToStringEmptyIff(f: SearchFilterValue)
    ensures FiltersToString(f) == "" <==> f == NoFilters
  {
    var t := SelectedTokens(f);
    if t != [] {
      assert |Join(t)| >= |t[0]| > 0;
    }
  }

  /** Reading the selected tokens as pieces gives the facets back. */
  lemma PiecesOfSelectedTokens(f: SearchFilterValue)
    ensures forall i :: 0 <= i < |SelectedTokens(f)| ==> ',' !in SelectedTokens(f)[i]
    ensures FiltersFromPieces(SelectedTokens(f)) == f
  {
    SelectedTokensCanonical(f);
  }

  /** Splitting and decoding the composed string gives the facets back, the all-false case included. */
  lemma FiltersRoundTrip(f: SearchFilterValue)
    ensures DecodeFilters(FiltersToString(f)) == f
  {
    var t := SelectedTokens(f);
    PiecesOfSelectedTokens(f);
    if t == [] {
      assert Split(Join(t)) == [[]];
    } else {
      SplitJoin(t);
    }
  }

  /** `composeStringFromFilters`: push the selected tokens one by one, then join them with commas. */
  method ComposeStringFromFilters(filters: SearchFilterValue) returns (s: string)
    ensures s == FiltersToString(filters)
    ensures DecodeFilters(s) == filters
    ensures s == "" <==> filters == NoFilters
  {
    var filtersAsArray: seq<string> := [];
    if filters.isDairyFree {
      filtersAsArray := filtersAsArray + [DairyFreeToken];
    }
    if filters.isGlutenFree {
      filtersAsArray := filtersAsArray + [GlutenFreeToken];
    }
    if filters.isVegetarian {
      filtersAsArray := filtersAsArray + [VegetarianToken];
    }
    if filters.isVegan {
      filtersAsArray := filtersAsArray + [VeganToken];
    }
    assert filtersAsArray == SelectedTokens(filters);
    s := Join(filtersAsArray);
    FiltersRoundTrip(filters);
    FiltersToStringEmptyIff(filters);
  }

  // ---------------------------------------------------------------------------
  // The search button

  /** The query `searchRecipes` builds from the current one. */
  function SearchQuery(q: Query, searchBarValue: string, filters: SearchFilterValue, initial: nat): (r: Query)
    ensures q.Keys + {TotalRecipesKey} <= r.Keys
    ensures r[TotalRecipesKey] == TotalRecipesText(q, initial)
    ensures TotalIsNumeric(q) ==> TotalIsNumeric(r)
  {
    var withTotal := q[TotalRecipesKey := TotalRecipesText(q, initial)];
    var filtersAsString := FiltersToString(filters);
    var withFilters := if filtersAsString != "" then withTotal[FiltersKey := filtersAsString] else withTotal;
    if searchBarValue != "" then withFilters[SearchInputKey := searchBarValue] else withFilters
  }

  /**
   Searching writes `totalRecipes` always, `filters` only when some facet is
   selected and `searchInput` only when the bar is non-empty; it deletes nothing,
   so a stale `filters` or `searchInput` survives, and every other key is kept.
   */
  lemma SearchQueryFrame(q: Query, searchBarValue: string, filters: SearchFilterValue, initial: nat)
    ensures SearchQuery(q, searchBarValue, filters, initial).Keys
      == q.Keys + {TotalRecipesKey}
         + (if filters != NoFilters then {FiltersKey} else {})
         + (if searchBarValue != "" then {SearchInputKey} else {})
    ensures SearchQuery(q, searchBarValue, filters, initial)[TotalRecipesKey] == TotalRecipesText(q, initial)
    ensures filters != NoFilters ==> SearchQuery(q, searchBarValue, filters, initial)[FiltersKey] == FiltersToString(filters)
    ensures searchBarValue != "" ==> SearchQuery(q, searchBarValue, filters, initial)[SearchInputKey] == searchBarValue
    ensures forall k :: k in q && k != TotalRecipesKey && (k == FiltersKey ==> filters == NoFilters)
                        && (k == SearchInputKey ==> searchBarValue == "")
                        ==> SearchQuery(q, searchBarValue, filters, initial)[k] == q[k]
  {
    FiltersToStringEmptyIff(filters);
  }

  /**
   What a search dispatches: the bar value if non-empty, else the text already
   in the query; the same limit as before; the selected facets if any, else the
   facets already in the query.
   */
  lemma SearchQueryDecodes(q: Query, searchBarValue: string, filters: SearchFilterValue, initial: nat)
    requires TotalIsNumeric(q)
    ensures TotalIsNumeric(SearchQuery(q, searchBarValue, filters, initial))
    ensures GetSearchParamsFromURL(SearchQuery(q, searchBarValue, filters, initial), initial)
      == SearchParams(
           if searchBarValue != "" then searchBarValue else GetSearchParamsFromURL(q, initial).searchInput,
           GetSearchParamsFromURL(q, initial).totalRecipes,
           if filters != NoFilters then filters else GetSearchParamsFromURL(q, initial).filters)
  {
    var r := SearchQuery(q, searchBarValue, filters, initial);
    var p := GetSearchParamsFromURL(q, initial);
    SearchQueryFrame(q, searchBarValue, filters, initial);
    ParseNatToString(initial);
    assert TotalIsNumeric(r);
    var d := GetSearchParamsFromURL(r, initial);
    assert d.totalRecipes == p.totalRecipes;
    if filters != NoFilters {
      FiltersRoundTrip(filters);
      assert r[FiltersKey] != "";
      assert d.filters == DecodeFilters(r[FiltersKey]);
    } else {
      assert d.filters == p.filters;
    }
  }

  /** Round trip: searching from a query holding only the limit `n` dispatches exactly what was searched. */
  lemma SearchRoundTrip(request: SearchParams, initial: nat)
    ensures GetSearchParamsFromURL(
              SearchQuery(map[TotalRecipesKey := NatToString(request.totalRecipes)], request.searchInput, request.filters, initial),
              initial)
            == request
  {
    var q := map[TotalRecipesKey := NatToString(request.totalRecipes)];
    ParseNatToString(request.totalRecipes);
    SearchQueryDecodes(q, request.searchInput, request.filters, initial);
  }

  /** Searching again with what the query already says changes nothing that is dispatched. */
  lemma SearchIsStable(q: Query, initial: nat)
    requires TotalIsNumeric(q)
    ensures TotalIsNumeric(SearchQuery(q, GetSearchParamsFromURL(q, initial).searchInput, GetSearchParamsFromURL(q, initial).filters, initial))
    ensures GetSearchParamsFromURL(
              SearchQuery(q, GetSearchParamsFromURL(q, initial).searchInput, GetSearchParamsFromURL(q, initial).filters, initial),
              initial)
            == GetSearchParamsFromURL(q, initial)
  {
    var p := GetSearchParamsFromURL(q, initial);
    SearchQueryDecodes(q, p.searchInput, p.filters, initial);
  }

  /** `searchRecipes`: rewrite a copy of the current query, dispatch what it decodes to, navigate to it. */
  method SearchRecipes(location: Query, searchBarValue: string, searchFilterValues: SearchFilterValue, initial: nat)
    returns (dispatched: SearchParams, url: Query)
    requires TotalIsNumeric(location)
    ensures url == SearchQuery(location, searchBarValue, searchFilterValues, initial)
    ensures TotalIsNumeric(url) && dispatched == GetSearchParamsFromURL(url, initial)
  {
    var query := new QueryParams(location);
    var totalRecipes := OrElse(query.Get(TotalRecipesKey), NatToString(initial));
    var filtersAsString := ComposeStringFromFilters(searchFilterValues);

    query.Set(TotalRecipesKey, totalRecipes);

    if filtersAsString != "" {
      var composed := ComposeStringFromFilters(searchFilterValues);
      query.Set(FiltersKey, composed);
    }

    if searchBarValue != "" {
      query.Set(SearchInputKey, searchBarValue);
    }

    SearchQueryDecodes(location, searchBarValue, searchFilterValues, initial);
    dispatched := GetSearchParamsFromURL(query.entries, initial);
    url := query.entries;
  }

  // ---------------------------------------------------------------------------
  // The show-more button

  /** The query `handleShowMoreButtonClick` builds from the current one. */
  function ShowMoreQuery(q: Query, initial: nat, delta: nat): (r: Query)
    requires TotalIsNumeric(q)
    ensures TotalIsNumeric(r)
  {
    q[TotalRecipesKey := NatToString(CurrentTotal(q, initial) + delta)]
  }

  /** One click: the new limit is the old one plus `delta`. */
  lemma ShowMoreAddsDelta(q: Query, initial: nat, delta: nat)
    requires TotalIsNumeric(q)
    ensures CurrentTotal(ShowMoreQuery(q, initial, delta), initial) == CurrentTotal(q, initial) + delta
  {
    var total := CurrentTotal(q, initial) + delta;
    ParseNatToString(total);
    assert TotalRecipesText(ShowMoreQuery(q, initial, delta), initial) == NatToString(total);
  }

  /** Show-more raises the limit by `delta` and changes no other key. */
  lemma ShowMoreDecodes(q: Query, initial: nat, delta: nat)
    requires TotalIsNumeric(q)
    ensures ShowMoreQuery(q, initial, delta).Keys == q.Keys + {TotalRecipesKey}
    ensures forall k :: k in q && k != TotalRecipesKey ==> ShowMoreQuery(q, initial, delta)[k] == q[k]
    ensures GetSearchParamsFromURL(ShowMoreQuery(q, initial, delta), initial)
      == GetSearchParamsFromURL(q, initial).(totalRecipes := GetSearchParamsFromURL(q, initial).totalRecipes + delta)
  {
    ShowMoreAddsDelta(q, initial, delta);
    var r := ShowMoreQuery(q, initial, delta);
    assert Lookup(r, SearchInputKey) == Lookup(q, SearchInputKey);
    assert Lookup(r, FiltersKey) == Lookup(q, FiltersKey);
  }

  /** The query after `n` show-more clicks. */
  function ShowMoreClicks(q: Query, initial: nat, delta: nat, n: nat): (r: Query)
    requires TotalIsNumeric(q)
    ensures TotalIsNumeric(r)
  {
    if n == 0 then q else ShowMoreQuery(ShowMoreClicks(q, initial, delta, n - 1), initial, delta)
  }

  /** `n` clicks from limit `L0` give limit `L0 + n * delta` and leave every other key alone. */
  lemma {:induction false} ShowMoreClicksTotal(q: Query, initial: nat, delta: nat, n: nat)
    requires TotalIsNumeric(q)
    ensures CurrentTotal(ShowMoreClicks(q, initial, delta, n), initial) == CurrentTotal(q, initial) + n * delta
    ensures forall k :: k != TotalRecipesKey ==>
              (k in ShowMoreClicks(q, initial, delta, n) <==> k in q)
              && (k in q ==> ShowMoreClicks(q, initial, delta, n)[k] == q[k])
  {
    if n > 0 {
      var before := ShowMoreClicks(q, initial, delta, n - 1);
      ShowMoreClicksTotal(q, initial, delta, n - 1);
      ShowMoreAddsDelta(before, initial, delta);
      assert (n - 1) * delta + delta == n * delta;
    }
  }

  /** So `n` clicks dispatch the limit `L0 + n * delta` with the same text and facets as before. */
  lemma ShowMoreClicksDecode(q: Query, initial: nat, delta: nat, n: nat)
    requires TotalIsNumeric(q)
    ensures GetSearchParamsFromURL(ShowMoreClicks(q, initial, delta, n), initial).totalRecipes
            == GetSearchParamsFromURL(q, initial).totalRecipes + n * delta
    ensures GetSearchParamsFromURL(ShowMoreClicks(q, initial, delta, n), initial).searchInput
            == GetSearchParamsFromURL(q, initial).searchInput
    ensures GetSearchParamsFromURL(ShowMoreClicks(q, initial, delta, n), initial).filters
            == GetSearchParamsFromURL(q, initial).filters
  {
    ShowMoreClicksTotal(q, initial, delta, n);
    var r := ShowMoreClicks(q, initial, delta, n);
    assert Lookup(r, SearchInputKey) == Lookup(q, SearchInputKey);
    assert Lookup(r, FiltersKey) == Lookup(q, FiltersKey);
  }

  /** `handleShowMoreButtonClick`. */
  method HandleShowMoreButtonClick(location: Query, initial: nat, delta: nat)
    returns (dispatched: SearchParams, url: Query)
    requires TotalIsNumeric(location)
    ensures url == ShowMoreQuery(location, initial, delta)
    ensures dispatched == GetSearchParamsFromURL(url, initial)
  {
    var query := new QueryParams(location);
    var totalRecipes := OrElse(query.Get(TotalRecipesKey), NatToString(initial));
    var newTotalRecipes := ParseDecimal(totalRecipes) + delta;

    query.Set(TotalRecipesKey, NatToString(newTotalRecipes));

    dispatched := GetSearchParamsFromURL(query.entries, initial);
    url := query.entries;
  }

  // ---------------------------------------------------------------------------
  // The reset button

  /** `handleResetButtonClick`: dispatch the defaults and navigate to an empty query. */
  method HandleResetButtonClick(initial: nat) returns (dispatched: SearchParams, url: Query)
    ensures url == map[]
    ensures dispatched == SearchParams("", initial, NoFilters)
  {
    var query := new QueryParams(map[]);
    DecodeEmptyQuery(initial);
    dispatched := GetSearchParamsFromURL(query.entries, initial);
    url := query.entries;
  }

  // ---------------------------------------------------------------------------
  // Favourites and what is shown

  predicate IsFavouriteId(favourites: seq<RecipePreview>, id: int)
  {
    exists j :: 0 <= j < |favourites| && favourites[j].id == id
  }

  /** `favourites.find(f => f.id === id)`: the first favourite with that id, if any. */
  function FindById(favourites: seq<RecipePreview>, id: int): (found: Option<RecipePreview>)
    ensures found.Some? <==> IsFavouriteId(favourites, id)
    ensures found.Some? ==> exists k :: 0 <= k < |favourites| && favourites[k] == found.value
                              && found.value.id == id && forall j :: 0 <= j < k ==> favourites[j].id != id
  {
    if |favourites| == 0 then None
    else if favourites[0].id == id then Some(favourites[0])
    else
      FindById(favourites[1..], id)
  }

  /** `mergeRecipesWithFavouriteRecipes`: same previews in the same order, each marked by id. */
  function MergeRecipesWithFavouriteRecipes(recipes: seq<RecipePreview>, favourites: seq<RecipePreview>)
    : (merged: seq<MarkedRecipePreview>)
    ensures |merged| == |recipes|
    ensures forall i :: 0 <= i < |recipes| ==> merged[i].recipe == recipes[i]
    ensures forall i :: 0 <= i < |recipes| ==> (merged[i].isFavourite <==> IsFavouriteId(favourites, recipes[i].id))
  {
    if |recipes| == 0 then []
    else
      [MarkedRecipePreview(recipes[0], FindById(favourites, recipes[0].id).Some?)]
      + MergeRecipesWithFavouriteRecipes(recipes[1..], favourites)
  }

  /** The "No results found!" heading: not loading, no previews, and a non-empty search bar. */
  predicate NoResultsShown(isLoading: bool, recipesPreviews: seq<RecipePreview>, searchBarValue: string): (shown: bool)
    ensures shown ==> ShowMoreButtonState(isLoading, recipesPreviews, searchBarValue) == Rendered(true)
    ensures ShowMoreButtonState(isLoading, recipesPreviews, searchBarValue) == Rendered(true) ==> shown
  {
    !isLoading && |recipesPreviews| == 0 && searchBarValue != ""
  }

  /** The show-more button: absent while loading, hidden under the same condition as the heading. */
  function ShowMoreButtonState(isLoading: bool, recipesPreviews: seq<RecipePreview>, searchBarValue: string)
    : (button: ShowMoreButton)
    ensures button == NotRendered <==> isLoading
    ensures button == Rendered(true) ==> |recipesPreviews| == 0
  {
    if isLoading then NotRendered else Rendered(|recipesPreviews| == 0 && searchBarValue != "")
  }

  /** Once loaded, the heading is shown exactly when the button is hidden. */
  lemma NoResultsIffShowMoreHidden(isLoading: bool, recipesPreviews: seq<RecipePreview>, searchBarValue: string)
    ensures NoResultsShown(isLoading, recipesPreviews, searchBarValue)
            <==> ShowMoreButtonState(isLoading, recipesPreviews, searchBarValue) == Rendered(true)
  {
  }

  /**
   After a reset the search bar mirrors the decoded empty query, so the heading
   is never shown and a rendered button is never hidden, whatever comes back.
   */
  lemma ResetShowsNoHeading(initial: nat, isLoading: bool, recipesPreviews: seq<RecipePreview>)
    ensures !NoResultsShown(isLoading, recipesPreviews, GetSearchParamsFromURL(map[], initial).searchInput)
    ensures ShowMoreButtonState(isLoading, recipesPreviews, GetSearchParamsFromURL(map[], initial).searchInput)
            != Rendered(true)
  {
  }
}

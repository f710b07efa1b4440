# Recipe search main page: a Dafny model

This project models the logic of the recipe site's main page
(`culinary-website-app/src/pages/MainPage/MainPage.tsx`). The page keeps the
current search request in the URL query. The query has three keys:

- `searchInput`: the text typed in the search bar;
- `totalRecipes`: how many previews to load;
- `filters`: a comma-separated list of the dietary tokens `vegetarian`,
  `vegan`, `glutenFree` and `dairyFree`.

The model covers:

- how the page reads a search request out of the query (`getSearchParamsFromURL`);
- how it writes the four facets back as a token list (`composeStringFromFilters`);
- how the search, show-more and reset buttons rewrite the query and what each one dispatches;
- how previews are marked as favourites;
- when the "No results found!" heading appears and the show-more button is hidden.

Files:

- `text.dfy` (module `Text`): the JavaScript built-ins the page uses.
  These are `split(',')`, `join(',')`, `Number`/`parseInt` on decimal numerals, and `toString` on naturals.
- `url_query.dfy` (module `UrlQuery`): the query as a key-to-value map.
  `URLSearchParams` is a class whose `Set` updates that map in place.
- `main_page.dfy` (module `MainPage`): the page itself.

Each handler is a method that builds a fresh `QueryParams`, updates it with
`Set`, and returns two results. Search and show-more start from a copy of the
current query; reset starts from an empty one. The two results are:

- the request it dispatches to `loadRecipesPreviews`;
- the query it navigates to.

Each handler is proved equal to a specification function: `SearchQuery` for
search and `ShowMoreQuery` for show-more. Lemmas about those functions state
what the page promises. `RECIPES_TO_SHOW_INITIAL` and `RECIPES_TO_SHOW_DELTA`
are the parameters `initial` and `delta`.

Two points where the code behaves differently from a plain codec:

- Search never deletes a key. Clearing every facet, or clearing the bar, and
  then searching leaves the old `filters` or `searchInput` in the URL, so the
  old value is dispatched again (`SearchQueryDecodes`).
- Search keeps the limit already in the URL, so a full round trip holds only
  from a query that holds that limit (`SearchRoundTrip`).

A `totalRecipes` value that is not a numeral is not replaced by the initial
constant: `Number` turns it into NaN. The model follows the code and only reads
queries whose `totalRecipes` is absent, empty or a decimal numeral
(`TotalIsNumeric`).

## Model

| member | source | states |
|---|---|---|
| `Text.Split` | culinary-website-app/src/pages/MainPage/MainPage.tsx:37 | `split(',')` yields at least one piece, and no piece holds a comma |
| `Text.SplitNoComma` | culinary-website-app/src/pages/MainPage/MainPage.tsx:37 | a string without a comma splits to the one-piece list holding itself |
| `Text.SplitAround` | culinary-website-app/src/pages/MainPage/MainPage.tsx:37 | splitting `a + ',' + b` gives the pieces of `a` followed by the pieces of `b` |
| `Text.SplitJoin` | culinary-website-app/src/pages/MainPage/MainPage.tsx:82 | joining a non-empty list of comma-free parts and splitting again gives the parts back |
| `Text.Join` | culinary-website-app/src/pages/MainPage/MainPage.tsx:82 | `[].join(',')` is `''`, and a non-empty join begins with its first part; `SplitJoin` and `JoinSplit` make it the inverse of `Split` |
| `Text.ParseDecimal` | culinary-website-app/src/pages/MainPage/MainPage.tsx:47 | `Number` (and `parseInt` at line 112) of a `k`-digit numeral is below `10^k`; `ParseNatToString` and `NatToStringParse` make it the inverse of `toString` |
| `Text.JoinSplit` | culinary-website-app/src/pages/MainPage/MainPage.tsx:37 | joining the pieces of any string with commas gives the string back |
| `Text.NatToString` | culinary-website-app/src/pages/MainPage/MainPage.tsx:114 | `toString` of a natural is a non-empty decimal numeral without leading zeros |
| `Text.ParseNatToString` | culinary-website-app/src/pages/MainPage/MainPage.tsx:35-47 | `Number(n.toString()) == n`, so the initial constant written as text reads back as itself |
| `Text.NatToStringParse` | culinary-website-app/src/pages/MainPage/MainPage.tsx:112-114 | `parseInt` followed by `toString` gives back every numeral without leading zeros |
| `UrlQuery.Lookup` | culinary-website-app/src/pages/MainPage/MainPage.tsx:34 | `get` yields a value exactly when the key is present, and that value is the stored one |
| `UrlQuery.OrElse` | culinary-website-app/src/pages/MainPage/MainPage.tsx:34-36 | `value \|\| fallback` gives the fallback for a missing or empty value and the value otherwise |
| `UrlQuery.QueryParams.constructor` | culinary-website-app/src/pages/MainPage/MainPage.tsx:90 | a new query object holds exactly the entries it was built from |
| `UrlQuery.QueryParams.Get` | culinary-website-app/src/pages/MainPage/MainPage.tsx:91 | `query.get(key)` reads the object's current entries |
| `UrlQuery.QueryParams.Set` | culinary-website-app/src/pages/MainPage/MainPage.tsx:94 | `query.set` stores the value under its key and leaves every other key unchanged |
| `MainPage.TotalRecipesText` | culinary-website-app/src/pages/MainPage/MainPage.tsx:35 | `get('totalRecipes') \|\| INITIAL.toString()` is the stored text when present and non-empty, the initial constant's numeral otherwise, and a numeral whenever the query's limit is numeric |
| `MainPage.DecodeFilters` | culinary-website-app/src/pages/MainPage/MainPage.tsx:36-43 | each facet is true exactly when its token is one of the comma-separated pieces; `''` selects no facet |
| `MainPage.GetSearchParamsFromURL` | culinary-website-app/src/pages/MainPage/MainPage.tsx:33-50 | the text is the `searchInput` value or `''`; the limit is the `totalRecipes` numeral, or `initial` when that key is absent or empty; each facet is true exactly when its token is a piece of `filters` |
| `MainPage.DecodeFiltersAppend` | culinary-website-app/src/pages/MainPage/MainPage.tsx:37-43 | tokens are independent: `a,b` decodes to the facet-wise union of `a` and `b` |
| `MainPage.DecodeIgnoresUnknownToken` | culinary-website-app/src/pages/MainPage/MainPage.tsx:37-43 | appending a token that names no facet changes nothing |
| `MainPage.DecodeIgnoresRepeatedToken` | culinary-website-app/src/pages/MainPage/MainPage.tsx:37-43 | appending a token that is already present changes nothing |
| `MainPage.DecodeTwoTokens` | culinary-website-app/src/pages/MainPage/MainPage.tsx:37-43 | two comma-free tokens joined by a comma decode as exactly those two pieces |
| `MainPage.DecodeFiltersExamples` | culinary-website-app/src/pages/MainPage/MainPage.tsx:37-43 | `vegan,dairyFree` sets exactly `vegan` and `dairyFree`; `vegan,bogus` sets only `vegan` |
| `MainPage.DecodeEmptyQuery` | culinary-website-app/src/pages/MainPage/MainPage.tsx:121-122 | the empty query decodes to `''`, the initial limit and all facets false |
| `MainPage.FiltersToString` | culinary-website-app/src/pages/MainPage/MainPage.tsx:63-83 | the composed string is `''` when no facet is set, and otherwise splits back into exactly the selected tokens in canonical order |
| `MainPage.SelectedTokensCanonical` | culinary-website-app/src/pages/MainPage/MainPage.tsx:63-80 | the pushed tokens are exactly those of the selected facets, each at most once, in the order dairyFree, glutenFree, vegetarian, vegan |
| `MainPage.FiltersToStringEmptyIff` | culinary-website-app/src/pages/MainPage/MainPage.tsx:63-83 | the composed string is `''` exactly when all four facets are false |
| `MainPage.PiecesOfSelectedTokens` | culinary-website-app/src/pages/MainPage/MainPage.tsx:38-43 | the pushed tokens hold no comma, and reading them as pieces gives the facets back |
| `MainPage.FiltersRoundTrip` | culinary-website-app/src/pages/MainPage/MainPage.tsx:37-83 | splitting and decoding the composed string gives back the four facets, including the all-false case (`''` splits to `['']`) |
| `MainPage.ComposeStringFromFilters` | culinary-website-app/src/pages/MainPage/MainPage.tsx:63-83 | the conditional pushes and the join produce the canonical token string, which decodes back to the facets and is empty exactly when no facet is set |
| `MainPage.SearchQuery` | culinary-website-app/src/pages/MainPage/MainPage.tsx:90-102 | the rewritten query keeps every old key, always holds `totalRecipes` set to the current text or the initial numeral, and keeps that limit numeric; `SearchQueryFrame` gives its exact keys and values |
| `MainPage.SearchQueryFrame` | culinary-website-app/src/pages/MainPage/MainPage.tsx:90-102 | search always writes `totalRecipes` (current text or the initial constant), writes `filters` only when a facet is set and `searchInput` only when the bar is non-empty; it deletes nothing and keeps every other value |
| `MainPage.SearchQueryDecodes` | culinary-website-app/src/pages/MainPage/MainPage.tsx:89-104 | search dispatches the bar text if non-empty (else the old text), the old limit, and the selected facets if any (else the old facets) |
| `MainPage.SearchRoundTrip` | culinary-website-app/src/pages/MainPage/MainPage.tsx:89-104 | searching from a query holding only limit `n` dispatches exactly the searched text, limit `n` and facets |
| `MainPage.SearchIsStable` | culinary-website-app/src/pages/MainPage/MainPage.tsx:52-104 | searching again with the text and facets the query already holds dispatches the same request |
| `MainPage.SearchRecipes` | culinary-website-app/src/pages/MainPage/MainPage.tsx:89-106 | the handler's in-place updates produce the query above, and it dispatches that query's decoding |
| `MainPage.ShowMoreQuery` | culinary-website-app/src/pages/MainPage/MainPage.tsx:110-114 | the query after show-more still holds a numeric `totalRecipes` |
| `MainPage.ShowMoreAddsDelta` | culinary-website-app/src/pages/MainPage/MainPage.tsx:111-114 | one click sets the limit to the current one (or the initial constant) plus `delta` |
| `MainPage.ShowMoreDecodes` | culinary-website-app/src/pages/MainPage/MainPage.tsx:109-116 | show-more adds `delta` to the current limit (or to `initial` if absent) and keeps every other key, text and facets |
| `MainPage.ShowMoreClicks` | culinary-website-app/src/pages/MainPage/MainPage.tsx:110-114 | repeated show-more keeps `totalRecipes` numeric |
| `MainPage.ShowMoreClicksTotal` | culinary-website-app/src/pages/MainPage/MainPage.tsx:110-114 | `n` clicks from limit `L0` give `L0 + n * delta` and leave every other key as it was |
| `MainPage.ShowMoreClicksDecode` | culinary-website-app/src/pages/MainPage/MainPage.tsx:109-116 | after `n` clicks the dispatched limit is `L0 + n * delta`, with the same text and facets |
| `MainPage.HandleShowMoreButtonClick` | culinary-website-app/src/pages/MainPage/MainPage.tsx:109-118 | the handler's parse, add and `set` produce the show-more query, and it dispatches that query's decoding |
| `MainPage.HandleResetButtonClick` | culinary-website-app/src/pages/MainPage/MainPage.tsx:120-125 | reset navigates to the empty query and dispatches `''`, the initial limit and no facets |
| `MainPage.FindById` | culinary-website-app/src/pages/MainPage/MainPage.tsx:130 | `find` returns a favourite exactly when one has the id, and it returns the first such favourite |
| `MainPage.MergeRecipesWithFavouriteRecipes` | culinary-website-app/src/pages/MainPage/MainPage.tsx:127-131 | same length and order, each preview unchanged, and `isFavourite` true exactly when some favourite has an equal `id` |
| `MainPage.NoResultsShown` | culinary-website-app/src/pages/MainPage/MainPage.tsx:150 | the "No results found!" heading is shown exactly when the show-more button is rendered hidden |
| `MainPage.ShowMoreButtonState` | culinary-website-app/src/pages/MainPage/MainPage.tsx:153-157 | the button is not rendered exactly while loading, and is hidden only when there are no previews |
| `MainPage.NoResultsIffShowMoreHidden` | culinary-website-app/src/pages/MainPage/MainPage.tsx:146-157 | once loaded, the heading is shown exactly when the button is hidden, that is, when there are no previews and the bar is non-empty |
| `MainPage.ResetShowsNoHeading` | culinary-website-app/src/pages/MainPage/MainPage.tsx:146-157 | after a reset the bar mirrors the decoded empty query, so the heading never shows and the button is never hidden |

## Left out

- React hooks, JSX, CSS class binding, Redux `useSelector`, and router `useLocation`/`navigate` are left out. `dispatch(loadRecipesPreviews(..))` and `navigate(..)` become a handler's two results.
- `loadRecipesPreviews`, the recipe fetch and the store actions `setSearchFilterValues`/`clearSearchFilterValues` are left out. They live in store files that are not part of this model, and the fetch is network I/O.
- The effect at lines 52-57 is not modelled as an operation. It runs whenever the URL changes. It dispatches `loadRecipesPreviews` with the new URL's decoding (line 54), copies the decoded facets into the store and copies the decoded text into the search bar. So every search, show-more or reset that navigates is followed by a second dispatch of the same decoded request; the model returns only the handler's own dispatch. `ResetShowsNoHeading` and `SearchIsStable` use the decoded values directly in place of the copies.
- `handleSearchBarValueChange` (lines 59-61) is not modelled: it only stores the typed text.
- `updatePageURL` (lines 85-87) is replaced by the returned query. Percent-encoding and `URLSearchParams.toString()` are left out because they are browser library code.
- A `URLSearchParams` can hold a key more than once. The model uses a map, so every key has one value; `get` on a repeated key (first value) and `set` (which removes the other copies) are therefore not modelled.
- GetSearchParamsFromURL: requires `totalRecipes` to be absent, empty or a decimal numeral. `Number` on other text gives NaN or reads signs, spaces, fractions, exponents and hex. `parseInt` at line 112 stops at the first non-digit. None of this is modelled.
- HandleShowMoreButtonClick: same restriction as `GetSearchParamsFromURL`.
- SearchRecipes: same restriction as `GetSearchParamsFromURL`.
- Limits are unbounded naturals. JavaScript numbers lose precision above 2^53; that is not modelled.
- `RECIPES_TO_SHOW_INITIAL` and `RECIPES_TO_SHOW_DELTA` are parameters: their definitions in `constants/index` are not part of this model. No property here needs them to be positive.
- A recipe preview is modelled with an integer `id`, a title and an image. The `RecipePreview` type file is not part of this model, so extra fields are not modelled. `===` is modelled as equality of integers.
- `RecipePreviewComponent.tsx` is left out. It is presentational markup, and its one computation is the link path `/recipes/${id}`.

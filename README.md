# Recipe Finder filter, modelled in Dafny

The recipe browser in `src/App.tsx` shows a fixed catalogue of five recipes (`mockRecipes`).
It narrows that catalogue with a search box and two dropdowns, one for cuisine and one for meal type.
An effect recomputes the shown list, `filteredRecipes`, whenever one of the three query cells changes.
A recipe is kept when all three tests hold:

- **search:** the lower-cased term occurs in the lower-cased title, or in at least one lower-cased ingredient;
- **cuisine:** the selected cuisine is `"All"` or equals the recipe's cuisine exactly;
- **meal type:** the selected meal type is `"All"` or equals the recipe's meal type exactly.

Kept recipes stay in catalogue order.

The project has five modules, one per file:

- `Text` models ASCII `toLowerCase` and `String.prototype.includes` as `Contains`. It also defines an ASCII upper case, `Upper`, which the filter never calls; it serves only to state that a term's upper-case variant gives the same result.
- `Recipes` holds the `Recipe` datatype, the catalogue and the two option lists.
- `RecipeFilter` holds the three tests, the filter as a recursive function, and its general properties.
- `RecipeExamples` computes the filter on the catalogue for particular queries.
- `RecipeApp` holds the component's four state cells as a class. The effect is a method that re-establishes `filteredRecipes == Filter(catalogue, current query)`. A setter is modelled per input.

A dropdown value that no recipe carries is compared exactly (`src/App.tsx:77-78`), so it matches no recipe; it is not read as `"All"`.
`RecipeFilter.UnusedCuisineYieldsNothing` and `RecipeExamples.UnofferedSelectionExample` state this.

## Model

| member | source | states |
|---|---|---|
| Text.LowerChar | src/App.tsx:75-76 | the result is never an upper-case ASCII letter; an upper-case letter maps to its lower-case partner (code point + 32); any other character is kept |
| Text.UpperChar | src/App.tsx:75-76 | the result is never a lower-case ASCII letter; a lower-case letter maps to its upper-case partner (code point - 32); any other character is kept |
| Text.Lower | src/App.tsx:75-76 | `toLowerCase` keeps the length and lower-cases position by position |
| Text.Upper | src/App.tsx:75-76 | ASCII upper-casing, used to build a term's upper-case variant: keeps the length and upper-cases position by position |
| Text.LowerOfLowercase | src/App.tsx:75-76 | a string with no upper-case letter is its own lower case |
| Text.LowerIdempotent | src/App.tsx:75-76 | lower-casing twice equals lower-casing once |
| Text.LowerOfUpper | src/App.tsx:75-76 | upper-casing first does not change the lower case |
| Text.ContainsEmpty | src/App.tsx:75-76 | the empty term is included in every string, so an empty search matches every title |
| Text.ContainsSelf | src/App.tsx:75-76 | every string includes itself |
| Text.ContainsNoLonger | src/App.tsx:75-76 | a string never includes a longer one |
| Text.ContainsTransitive | src/App.tsx:75-76 | a substring of a substring is a substring |
| Text.LowerPreservesContains | src/App.tsx:75-76 | an occurrence survives lower-casing both strings |
| Text.MissingCharNotContained | src/App.tsx:75-76 | a term with a character the string lacks is not included in it |
| Text.MissingPairNotContained | src/App.tsx:75-76 | a term with two adjacent characters that never sit side by side in the string is not included in it |
| Recipes.MockRecipesHaveUniqueIds | src/App.tsx:11-62 | the catalogue has five recipes with distinct ids 1 to 5, listed in id order |
| Recipes.MockRecipesUseOfferedLabels | src/App.tsx:11-65 | every recipe's cuisine and meal type is offered by its dropdown and is not `"All"` |
| Recipes.OfferedLabelsAreUsed | src/App.tsx:11-65 | every dropdown option other than `"All"` is the label of some recipe |
| RecipeFilter.Filter | src/App.tsx:74-80 | soundness and completeness: a recipe is in the result exactly when it is in the input and passes all three tests; the result is no longer than the input |
| RecipeFilter.SubsequenceBounds | src/App.tsx:74-80 | a subsequence is no longer than its source, and all its elements come from it |
| RecipeFilter.FilterIsSubsequence | src/App.tsx:74-80 | no fabrication, order kept: the result is a subsequence of the input |
| RecipeFilter.FilterMultiplicity | src/App.tsx:74-80 | a passing recipe keeps every occurrence; a failing one keeps none |
| RecipeFilter.FilterAppend | src/App.tsx:74-80 | filtering a concatenation is concatenating the filtered parts |
| RecipeFilter.FilterAllMatch | src/App.tsx:74-80 | a list whose every recipe passes is returned unchanged |
| RecipeFilter.FilterNoneMatch | src/App.tsx:74-80 | a list with no passing recipe gives the empty list |
| RecipeFilter.FilterIdempotent | src/App.tsx:74-80 | filtering the filtered list with the same query changes nothing |
| RecipeFilter.InitialQueryMatches | src/App.tsx:68-70 | every recipe passes the initial query: empty search, both dropdowns `"All"` |
| RecipeFilter.EmptySearchLeavesSelections | src/App.tsx:75-79 | with an empty search term a recipe passes exactly when both dropdown tests pass |
| RecipeFilter.FilterInitialQuery | src/App.tsx:68-71 | identity query: the initial query returns the whole list in order, which agrees with the initial value of `filteredRecipes` |
| RecipeFilter.FilterAgreeing | src/App.tsx:74-80 | two queries that agree on every recipe of the list give the same result |
| RecipeFilter.SearchIsCaseInsensitive | src/App.tsx:75-76 | a term, its lower case and its upper case give the same result |
| RecipeFilter.FilterNarrower | src/App.tsx:74-80 | a query that lets through no more recipes than another keeps a subsequence of that query's result, no longer than it |
| RecipeFilter.NarrowingCuisine | src/App.tsx:77 | picking a particular cuisine instead of `"All"` keeps a subsequence and never lengthens the result |
| RecipeFilter.NarrowingMealType | src/App.tsx:78 | picking a particular meal type instead of `"All"` keeps a subsequence and never lengthens the result |
| RecipeFilter.MatchesShorterTerm | src/App.tsx:75-76 | a recipe found by a term is found by every term occurring in it |
| RecipeFilter.ExtendingSearchTerm | src/App.tsx:75-76 | extending the search term, the old term occurring in the new one, keeps a subsequence and never lengthens the result |
| RecipeFilter.UnusedCuisineYieldsNothing | src/App.tsx:77 | a cuisine other than `"All"` that no recipe has yields the empty list |
| RecipeFilter.UnusedMealTypeYieldsNothing | src/App.tsx:78 | a meal type other than `"All"` that no recipe has yields the empty list |
| RecipeExamples.FilterSingleton | src/App.tsx:74-80 | a one-recipe list is kept exactly when the recipe passes |
| RecipeExamples.FilterFive | src/App.tsx:74-80 | filtering a five-recipe list keeps each recipe exactly when it passes, in order |
| RecipeExamples.FilterCatalogue | src/App.tsx:11-62 | on the catalogue, the result keeps each of recipes 1 to 5 exactly when it passes, in catalogue order |
| RecipeExamples.IngredientsNotFound | src/App.tsx:76 | a term with, for each of five lower-case ingredients, a letter that ingredient lacks is found in none of them |
| RecipeExamples.SearchMisses | src/App.tsx:75-76 | a lower-case term with a letter the lower-cased title lacks, and a letter each ingredient lacks, fails the search test |
| RecipeExamples.SearchMissesByPair | src/App.tsx:75-76 | the same, where the title is ruled out by two adjacent letters of the term that never sit side by side in it |
| RecipeExamples.CarbonaraLowered | src/App.tsx:13-18 | recipe 1's lower-cased title is "spaghetti carbonara"; its ingredients are already lower case |
| RecipeExamples.TacosLowered | src/App.tsx:23-28 | recipe 2's lower-cased title is "chicken tacos"; its ingredients are already lower case |
| RecipeExamples.AvocadoToastLowered | src/App.tsx:33-38 | recipe 3's lower-cased title is "avocado toast"; its ingredients are already lower case |
| RecipeExamples.SushiLowered | src/App.tsx:43-48 | recipe 4's lower-cased title is "sushi platter"; its ingredients are already lower case |
| RecipeExamples.PancakesLowered | src/App.tsx:53-58 | recipe 5's lower-cased title is "pancakes"; its ingredients are already lower case |
| RecipeExamples.CarbonaraMisses | src/App.tsx:14-18 | a lower-case term with a letter missing from recipe 1's title and one missing from each of its ingredients fails the search test |
| RecipeExamples.TacosMisses | src/App.tsx:24-28 | the same for recipe 2 |
| RecipeExamples.AvocadoToastMisses | src/App.tsx:34-38 | the same for recipe 3 |
| RecipeExamples.SushiMisses | src/App.tsx:44-48 | the same for recipe 4 |
| RecipeExamples.SushiMissesByPair | src/App.tsx:44-48 | the same for recipe 4, where the title is ruled out by an adjacent pair of letters |
| RecipeExamples.PancakesMisses | src/App.tsx:54-58 | the same for recipe 5 |
| RecipeExamples.IngredientFound | src/App.tsx:76 | any ingredient, used as the term, finds its own recipe |
| RecipeExamples.PepperInIngredients | src/App.tsx:76 | "pepper" finds recipes 1 and 3 |
| RecipeExamples.PepperNotInTitles | src/App.tsx:75 | neither title of recipes 1 and 3 contains "pepper" |
| RecipeExamples.PepperNotInTacos | src/App.tsx:23-28 | "pepper" does not find recipe 2 |
| RecipeExamples.PepperNotInSushi | src/App.tsx:43-48 | "pepper" does not find recipe 4 |
| RecipeExamples.PepperNotInPancakes | src/App.tsx:53-58 | "pepper" does not find recipe 5 |
| RecipeExamples.PepperExample | src/App.tsx:74-80 | the search "pepper" with both dropdowns `"All"` yields exactly recipes 1 and 3 |
| RecipeExamples.ChickenNotInCarbonara | src/App.tsx:13-18 | "chicken" does not find recipe 1 |
| RecipeExamples.ChickenNotInAvocadoToast | src/App.tsx:33-38 | "chicken" does not find recipe 3 |
| RecipeExamples.ChickenNotInSushi | src/App.tsx:43-48 | "chicken" does not find recipe 4 |
| RecipeExamples.ChickenNotInPancakes | src/App.tsx:53-58 | "chicken" does not find recipe 5 |
| RecipeExamples.ChickenExample | src/App.tsx:74-80 | the search "chicken" with both dropdowns `"All"` yields exactly recipe 2 |
| RecipeExamples.TermWithXFindsNothing | src/App.tsx:11-62 | no catalogue field has an `x` in either case, so a lower-case term with an `x` finds no recipe |
| RecipeExamples.NoMatchExample | src/App.tsx:74-80 | the search "xyz-no-match" yields the empty list |
| RecipeExamples.AmericanBreakfastExample | src/App.tsx:77-78 | cuisine "American" with meal type "Breakfast" yields exactly recipes 3 and 5 |
| RecipeExamples.JapaneseBreakfastExample | src/App.tsx:77-78 | cuisine "Japanese" with meal type "Breakfast" yields the empty list |
| RecipeExamples.UnofferedSelectionExample | src/App.tsx:77-78 | cuisine "Thai", or meal type "all" in the wrong case, yields the empty list whatever the other cells hold |
| RecipeExamples.EveryOfferedOptionShowsSomething | src/App.tsx:64-65 | each dropdown option other than `"All"`, chosen alone with an empty search, shows at least one recipe |
| RecipeApp.App.constructor | src/App.tsx:68-71 | the initial state has an empty search, both dropdowns on `"All"` and the whole catalogue shown, which is the filter of the initial query |
| RecipeApp.App.RunFilterEffect | src/App.tsx:73-82 | the effect leaves the query cells as they were; afterwards the shown list holds exactly the catalogue recipes passing the current query, as a subsequence of the catalogue, and equals the filter of the current query |
| RecipeApp.App.SetSearchTerm | src/App.tsx:98 | sets the term and runs the effect; the dropdown cells are unchanged and the invariant holds; extending the term keeps a subsequence of the previous list |
| RecipeApp.App.SetSelectedCuisine | src/App.tsx:108 | sets the cuisine and runs the effect; the other query cells are unchanged and the invariant holds; leaving `"All"` keeps a subsequence of the previous list |
| RecipeApp.App.SetSelectedMealType | src/App.tsx:119 | sets the meal type and runs the effect; the other query cells are unchanged and the invariant holds; leaving `"All"` keeps a subsequence of the previous list |

## Left out

- Rendering (`src/App.tsx:84-193`): the header, the dropdown markup, the card grid, the detail dialog and the footer are presentation only. The detail dialog is a lookup of the clicked card and changes no filter state.
- The imported UI components and icons (`src/App.tsx:1-8`) are foreign code and are not part of this model.
- The "Add to Favorites" button (`src/App.tsx:174-176`) has no handler and no state.
- React scheduling: the model runs the effect immediately after each setter, once per change. Batched updates, re-renders, and effect runs with unchanged dependencies are not modelled; the effect is idempotent on an unchanged query anyway.
- `Text.Lower`: lower-cases ASCII letters only, not full Unicode `toLowerCase` (no locale rules, no characters outside A-Z).
- `Text.Upper`: upper-cases ASCII letters only. The source never upper-cases; `Upper` exists only to state the upper-case half of `RecipeFilter.SearchIsCaseInsensitive`.
- RecipeFilter.SearchIsCaseInsensitive: the upper-case half is a fact of the ASCII model only. JavaScript's `toUpperCase` breaks it on letters such as `ſ` and `ı`. For example, `"ſ"` lower-cases to itself and matches no recipe, but its upper case `"S"` lower-cases to `"s"` and matches all five. The lower-case half does not depend on this: lower-casing is idempotent.
- The recipes' description, image URL and instructions are dropped from `Recipe`: the filter never reads them.
- Sorting and a "trending" view do not occur in `src/App.tsx` and are not modelled.
- The setters accept any string, as React's setters do. That the dropdowns can only offer the values in `cuisines` and `mealTypes` is stated separately (`Recipes.MockRecipesUseOfferedLabels`, `RecipeExamples.EveryOfferedOptionShowsSomething`), not imposed on the setters.

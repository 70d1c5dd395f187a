/** The `App` component's state: the three query cells, the `filteredRecipes`
    cell, and the effect that recomputes the latter whenever one of the
    former is set. React's scheduling is collapsed: each setter is followed
    at once by the effect it triggers. */
module RecipeApp {
  import opened Text
  import opened Recipes
  import opened RecipeFilter

  class App {
    var searchTerm: string
    var selectedCuisine: string
    var selectedMealType: string
    var filteredRecipes: seq<Recipe>

    /** The query formed by the three query cells. */
    function CurrentQuery(): Query
      reads this
    {
      Query(searchTerm, selectedCuisine, selectedMealType)
    }

    /** The invariant the effect re-establishes: the shown list is the filter of the catalogue by the current query. */
    predicate Valid()
      reads this
    {
      filteredRecipes == Filter(MOCK_RECIPES, CurrentQuery())
    }

    /** The initial state: empty search, both dropdowns on `ALL`, every recipe shown. */
    constructor ()
      ensures searchTerm == "" && selectedCuisine == ALL && selectedMealType == ALL
      ensures filteredRecipes == MOCK_RECIPES
      ensures Valid()
    {
      searchTerm := "";
      selectedCuisine := ALL;
      selectedMealType := ALL;
      filteredRecipes := MOCK_RECIPES;
      new;
      FilterInitialQuery(MOCK_RECIPES);
    }

    /** The effect: overwrites `filteredRecipes` with the matching recipes of the catalogue, in
        catalogue order, and leaves the query cells alone. */
    method RunFilterEffect()
      modifies this
      ensures searchTerm == old(searchTerm) && selectedCuisine == old(selectedCuisine)
      ensures selectedMealType == old(selectedMealType)
      ensures forall r :: r in filteredRecipes <==> r in MOCK_RECIPES && Matches(r, CurrentQuery())
      ensures IsSubsequence(filteredRecipes, MOCK_RECIPES)
      ensures Valid()
    {
      filteredRecipes := Filter(MOCK_RECIPES, CurrentQuery());
      FilterIsSubsequence(MOCK_RECIPES, CurrentQuery());
    }

    /** Typing into the search box: the term cell changes, the effect runs. Extending the term
        (the old one occurring in the new) can only drop recipes from the list. */
    method SetSearchTerm(term: string)
      modifies this
      ensures searchTerm == term
      ensures selectedCuisine == old(selectedCuisine) && selectedMealType == old(selectedMealType)
      ensures Valid()
      ensures old(Valid()) && Contains(term, old(searchTerm)) ==> IsSubsequence(filteredRecipes, old(filteredRecipes))
    {
      var q := CurrentQuery();
      searchTerm := term;
      RunFilterEffect();
      if Contains(term, q.searchTerm) {
        ExtendingSearchTerm(MOCK_RECIPES, q, term);
      }
    }

    /** Picking a cuisine: the cuisine cell changes, the effect runs. Leaving `ALL` for a
        particular cuisine can only drop recipes from the list. */
    method SetSelectedCuisine(cuisine: string)
      modifies this
      ensures selectedCuisine == cuisine
      ensures searchTerm == old(searchTerm) && selectedMealType == old(selectedMealType)
      ensures Valid()
      ensures old(Valid()) && old(selectedCuisine) == ALL ==> IsSubsequence(filteredRecipes, old(filteredRecipes))
    {
      var q := CurrentQuery();
      selectedCuisine := cuisine;
      RunFilterEffect();
      NarrowingCuisine(MOCK_RECIPES, q, cuisine);
    }

    /** Picking a meal type: the meal-type cell changes, the effect runs. Leaving `ALL` for a
        particular meal type can only drop recipes from the list. */
    method SetSelectedMealType(mealType: string)
      modifies this
      ensures selectedMealType == mealType
      ensures searchTerm == old(searchTerm) && selectedCuisine == old(selectedCuisine)
      ensures Valid()
      ensures old(Valid()) && old(selectedMealType) == ALL ==> IsSubsequence(filteredRecipes, old(filteredRecipes))
    {
      var q := CurrentQuery();
      selectedMealType := mealType;
      RunFilterEffect();
      NarrowingMealType(MOCK_RECIPES, q, mealType);
    }
  }
}

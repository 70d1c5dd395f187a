/** The recipe records and the fixed catalogue the browser shows
    (`mockRecipes` and the two option lists of `src/App.tsx`). */
module Recipes {

  /** One catalogue entry: the fields the filter reads. */
  datatype Recipe = Recipe(
    id: int,
    title: string,
    cuisine: string,
    mealType: string,
    ingredients: seq<string>)

  /** The dropdown value meaning "no constraint on this dimension". */
  const ALL: string := "All"

  const CARBONARA: Recipe :=
    Recipe(1, "Spaghetti Carbonara", "Italian", "Dinner",
           ["spaghetti", "eggs", "cheese", "pancetta", "pepper"])

  const TACOS: Recipe :=
    Recipe(2, "Chicken Tacos", "Mexican", "Lunch",
           ["chicken", "tortillas", "salsa", "lettuce", "tomato"])

  const AVOCADO_TOAST: Recipe :=
    Recipe(3, "Avocado Toast", "American", "Breakfast",
           ["bread", "avocado", "salt", "pepper", "lemon"])

  const SUSHI: Recipe :=
    Recipe(4, "Sushi Platter", "Japanese", "Dinner",
           ["rice", "fish", "seaweed", "soy sauce", "wasabi"])

  const PANCAKES: Recipe :=
    Recipe(5, "Pancakes", "American", "Breakfast",
           ["flour", "milk", "eggs", "syrup", "butter"])

  /** `mockRecipes`, in its declared order. */
  const MOCK_RECIPES: seq<Recipe> := [CARBONARA, TACOS, AVOCADO_TOAST, SUSHI, PANCAKES]

  /** The options of the cuisine dropdown, `ALL` first. */
  const CUISINES: seq<string> := [ALL, "Italian", "Mexican", "American", "Japanese"]

  /** The options of the meal-type dropdown, `ALL` first. */
  const MEAL_TYPES: seq<string> := [ALL, "Breakfast", "Lunch", "Dinner"]

  /** No two entries of `rs` share an id. */
  predicate UniqueIds(rs: seq<Recipe>)
  {
    forall i, j :: 0 <= i < j < |rs| ==> rs[i].id != rs[j].id
  }

  /** The catalogue's ids are distinct, so a selected card identifies one recipe. */
  lemma MockRecipesHaveUniqueIds()
    ensures |MOCK_RECIPES| == 5
    ensures UniqueIds(MOCK_RECIPES)
    ensures forall i :: 0 <= i < |MOCK_RECIPES| ==> MOCK_RECIPES[i].id == i + 1
  {
  }

  /** Every recipe's cuisine and meal type is offered by its dropdown, and is not the sentinel. */
  lemma MockRecipesUseOfferedLabels()
    ensures forall r :: r in MOCK_RECIPES ==> r.cuisine in CUISINES && r.cuisine != ALL
    ensures forall r :: r in MOCK_RECIPES ==> r.mealType in MEAL_TYPES && r.mealType != ALL
  {
  }

  /** Every dropdown option other than the sentinel is the label of some recipe. */
  lemma OfferedLabelsAreUsed()
    ensures forall c :: c in CUISINES && c != ALL ==> exists r :: r in MOCK_RECIPES && r.cuisine == c
    ensures forall m :: m in MEAL_TYPES && m != ALL ==> exists r :: r in MOCK_RECIPES && r.mealType == m
  {
    assert CARBONARA in MOCK_RECIPES && TACOS in MOCK_RECIPES && AVOCADO_TOAST in MOCK_RECIPES;
    assert SUSHI in MOCK_RECIPES;
  }
}

/** What the filter returns on the catalogue for particular queries. */
module RecipeExamples {
  import opened Text
  import opened Recipes
  import opened RecipeFilter

  /** The filter on a one-recipe list. */
  lemma FilterSingleton(r: Recipe, q: Query)
    ensures Filter([r], q) == if Matches(r, q) then [r] else []
  {
    assert [r][1..] == [];
  }

  /** The filter on a five-recipe list, recipe by recipe. */
  lemma FilterFive(a: Recipe, b: Recipe, c: Recipe, d: Recipe, e: Recipe, q: Query)
    ensures Filter([a, b, c, d, e], q) ==
      (if Matches(a, q) then [a] else []) +
      (if Matches(b, q) then [b] else []) +
      (if Matches(c, q) then [c] else []) +
      (if Matches(d, q) then [d] else []) +
      (if Matches(e, q) then [e] else [])
  {
    assert [a, b, c, d, e] == [a] + [b] + [c] + [d] + [e];
    FilterAppend([a] + [b] + [c] + [d], [e], q);
    FilterAppend([a] + [b] + [c], [d], q);
    FilterAppend([a] + [b], [c], q);
    FilterAppend([a], [b], q);
    FilterSingleton(a, q);
    FilterSingleton(b, q);
    FilterSingleton(c, q);
    FilterSingleton(d, q);
    FilterSingleton(e, q);
  }

  /** The filter on the catalogue, recipe by recipe. */
  lemma FilterCatalogue(q: Query)
    ensures Filter(MOCK_RECIPES, q) ==
      (if Matches(CARBONARA, q) then [CARBONARA] else []) +
      (if Matches(TACOS, q) then [TACOS] else []) +
      (if Matches(AVOCADO_TOAST, q) then [AVOCADO_TOAST] else []) +
      (if Matches(SUSHI, q) then [SUSHI] else []) +
      (if Matches(PANCAKES, q) then [PANCAKES] else [])
  {
    FilterFive(CARBONARA, TACOS, AVOCADO_TOAST, SUSHI, PANCAKES, q);
  }

  /** `a` directly followed by `b` somewhere in `s`. */
  predicate HasAdjacent(s: string, a: char, b: char)
  {
    exists k | 0 <= k < |s| - 1 :: s[k] == a && s[k + 1] == b
  }

  /** Five ingredients, each its own lower case and each missing the letter of `t`
      at the index given for it: `t` is found in none of them. */
  lemma IngredientsNotFound(ings: seq<string>, t: string, j0: int, j1: int, j2: int, j3: int, j4: int)
    requires |ings| == 5
    requires 0 <= j0 < |t| && Lower(ings[0]) == ings[0] && t[j0] !in ings[0]
    requires 0 <= j1 < |t| && Lower(ings[1]) == ings[1] && t[j1] !in ings[1]
    requires 0 <= j2 < |t| && Lower(ings[2]) == ings[2] && t[j2] !in ings[2]
    requires 0 <= j3 < |t| && Lower(ings[3]) == ings[3] && t[j3] !in ings[3]
    requires 0 <= j4 < |t| && Lower(ings[4]) == ings[4] && t[j4] !in ings[4]
    ensures !SomeIngredientContains(ings, t)
  {
    MissingCharNotContained(ings[0], t, j0);
    MissingCharNotContained(ings[1], t, j1);
    MissingCharNotContained(ings[2], t, j2);
    MissingCharNotContained(ings[3], t, j3);
    MissingCharNotContained(ings[4], t, j4);
    forall i | 0 <= i < |ings|
      ensures !Contains(Lower(ings[i]), t)
    {
      if i == 0 {} else if i == 1 {} else if i == 2 {} else if i == 3 {} else {}
    }
  }

  /** A lower-case term with a letter missing from the lower-cased title, and one letter
      missing from each ingredient, does not match the recipe's search test. */
  lemma SearchMisses(r: Recipe, t: string, title: string, j: int, j0: int, j1: int, j2: int, j3: int, j4: int)
    requires Lower(t) == t
    requires Lower(r.title) == title && 0 <= j < |t| && t[j] !in title
    requires |r.ingredients| == 5
    requires 0 <= j0 < |t| && Lower(r.ingredients[0]) == r.ingredients[0] && t[j0] !in r.ingredients[0]
    requires 0 <= j1 < |t| && Lower(r.ingredients[1]) == r.ingredients[1] && t[j1] !in r.ingredients[1]
    requires 0 <= j2 < |t| && Lower(r.ingredients[2]) == r.ingredients[2] && t[j2] !in r.ingredients[2]
    requires 0 <= j3 < |t| && Lower(r.ingredients[3]) == r.ingredients[3] && t[j3] !in r.ingredients[3]
    requires 0 <= j4 < |t| && Lower(r.ingredients[4]) == r.ingredients[4] && t[j4] !in r.ingredients[4]
    ensures !MatchesSearch(r, t)
  {
    MissingCharNotContained(title, t, j);
    IngredientsNotFound(r.ingredients, t, j0, j1, j2, j3, j4);
  }

  /** As `SearchMisses`, where the lower-cased title has every letter of the term but never
      two of its adjacent letters side by side. */
  lemma SearchMissesByPair(r: Recipe, t: string, title: string, j: int, j0: int, j1: int, j2: int, j3: int, j4: int)
    requires Lower(t) == t
    requires Lower(r.title) == title && 0 <= j && j + 1 < |t| && !HasAdjacent(title, t[j], t[j + 1])
    requires |r.ingredients| == 5
    requires 0 <= j0 < |t| && Lower(r.ingredients[0]) == r.ingredients[0] && t[j0] !in r.ingredients[0]
    requires 0 <= j1 < |t| && Lower(r.ingredients[1]) == r.ingredients[1] && t[j1] !in r.ingredients[1]
    requires 0 <= j2 < |t| && Lower(r.ingredients[2]) == r.ingredients[2] && t[j2] !in r.ingredients[2]
    requires 0 <= j3 < |t| && Lower(r.ingredients[3]) == r.ingredients[3] && t[j3] !in r.ingredients[3]
    requires 0 <= j4 < |t| && Lower(r.ingredients[4]) == r.ingredients[4] && t[j4] !in r.ingredients[4]
    ensures !MatchesSearch(r, t)
  {
    MissingPairNotContained(title, t, j);
    IngredientsNotFound(r.ingredients, t, j0, j1, j2, j3, j4);
  }

  /** The catalogue's fields, lower-cased: each title as written out, each ingredient unchanged. */
  lemma CarbonaraLowered()
    ensures Lower(CARBONARA.title) == "spaghetti carbonara"
    ensures Lower(CARBONARA.ingredients[0]) == CARBONARA.ingredients[0]
    ensures Lower(CARBONARA.ingredients[1]) == CARBONARA.ingredients[1]
    ensures Lower(CARBONARA.ingredients[2]) == CARBONARA.ingredients[2]
    ensures Lower(CARBONARA.ingredients[3]) == CARBONARA.ingredients[3]
    ensures Lower(CARBONARA.ingredients[4]) == CARBONARA.ingredients[4]
  {
  }

  lemma TacosLowered()
    ensures Lower(TACOS.title) == "chicken tacos"
    ensures Lower(TACOS.ingredients[0]) == TACOS.ingredients[0]
    ensures Lower(TACOS.ingredients[1]) == TACOS.ingredients[1]
    ensures Lower(TACOS.ingredients[2]) == TACOS.ingredients[2]
    ensures Lower(TACOS.ingredients[3]) == TACOS.ingredients[3]
    ensures Lower(TACOS.ingredients[4]) == TACOS.ingredients[4]
  {
  }

  lemma AvocadoToastLowered()
    ensures Lower(AVOCADO_TOAST.title) == "avocado toast"
    ensures Lower(AVOCADO_TOAST.ingredients[0]) == AVOCADO_TOAST.ingredients[0]
    ensures Lower(AVOCADO_TOAST.ingredients[1]) == AVOCADO_TOAST.ingredients[1]
    ensures Lower(AVOCADO_TOAST.ingredients[2]) == AVOCADO_TOAST.ingredients[2]
    ensures Lower(AVOCADO_TOAST.ingredients[3]) == AVOCADO_TOAST.ingredients[3]
    ensures Lower(AVOCADO_TOAST.ingredients[4]) == AVOCADO_TOAST.ingredients[4]
  {
  }

  lemma SushiLowered()
    ensures Lower(SUSHI.title) == "sushi platter"
    ensures Lower(SUSHI.ingredients[0]) == SUSHI.ingredients[0]
    ensures Lower(SUSHI.ingredients[1]) == SUSHI.ingredients[1]
    ensures Lower(SUSHI.ingredients[2]) == SUSHI.ingredients[2]
    ensures Lower(SUSHI.ingredients[3]) == SUSHI.ingredients[3]
    ensures Lower(SUSHI.ingredients[4]) == SUSHI.ingredients[4]
  {
  }

  lemma PancakesLowered()
    ensures Lower(PANCAKES.title) == "pancakes"
    ensures Lower(PANCAKES.ingredients[0]) == PANCAKES.ingredients[0]
    ensures Lower(PANCAKES.ingredients[1]) == PANCAKES.ingredients[1]
    ensures Lower(PANCAKES.ingredients[2]) == PANCAKES.ingredients[2]
    ensures Lower(PANCAKES.ingredients[3]) == PANCAKES.ingredients[3]
    ensures Lower(PANCAKES.ingredients[4]) == PANCAKES.ingredients[4]
  {
  }

  /** A lower-case term is not found in recipe 1 when it has a letter missing from its lower-cased
      title and, for each ingredient, a letter that ingredient lacks. */
  lemma CarbonaraMisses(t: string, j: int, j0: int, j1: int, j2: int, j3: int, j4: int)
    requires Lower(t) == t
    requires 0 <= j < |t| && t[j] !in "spaghetti carbonara"
    requires 0 <= j0 < |t| && t[j0] !in "spaghetti"
    requires 0 <= j1 < |t| && t[j1] !in "eggs"
    requires 0 <= j2 < |t| && t[j2] !in "cheese"
    requires 0 <= j3 < |t| && t[j3] !in "pancetta"
    requires 0 <= j4 < |t| && t[j4] !in "pepper"
    ensures !MatchesSearch(CARBONARA, t)
  {
    CarbonaraLowered();
    SearchMisses(CARBONARA, t, "spaghetti carbonara", j, j0, j1, j2, j3, j4);
  }

  /** The same for recipe 2. */
  lemma TacosMisses(t: string, j: int, j0: int, j1: int, j2: int, j3: int, j4: int)
    requires Lower(t) == t
    requires 0 <= j < |t| && t[j] !in "chicken tacos"
    requires 0 <= j0 < |t| && t[j0] !in "chicken"
    requires 0 <= j1 < |t| && t[j1] !in "tortillas"
    requires 0 <= j2 < |t| && t[j2] !in "salsa"
    requires 0 <= j3 < |t| && t[j3] !in "lettuce"
    requires 0 <= j4 < |t| && t[j4] !in "tomato"
    ensures !MatchesSearch(TACOS, t)
  {
    TacosLowered();
    SearchMisses(TACOS, t, "chicken tacos", j, j0, j1, j2, j3, j4);
  }

  /** The same for recipe 3. */
  lemma AvocadoToastMisses(t: string, j: int, j0: int, j1: int, j2: int, j3: int, j4: int)
    requires Lower(t) == t
    requires 0 <= j < |t| && t[j] !in "avocado toast"
    requires 0 <= j0 < |t| && t[j0] !in "bread"
    requires 0 <= j1 < |t| && t[j1] !in "avocado"
    requires 0 <= j2 < |t| && t[j2] !in "salt"
    requires 0 <= j3 < |t| && t[j3] !in "pepper"
    requires 0 <= j4 < |t| && t[j4] !in "lemon"
    ensures !MatchesSearch(AVOCADO_TOAST, t)
  {
    AvocadoToastLowered();
    SearchMisses(AVOCADO_TOAST, t, "avocado toast", j, j0, j1, j2, j3, j4);
  }

  /** The same for recipe 4. */
  lemma SushiMisses(t: string, j: int, j0: int, j1: int, j2: int, j3: int, j4: int)
    requires Lower(t) == t
    requires 0 <= j < |t| && t[j] !in "sushi platter"
    requires 0 <= j0 < |t| && t[j0] !in "rice"
    requires 0 <= j1 < |t| && t[j1] !in "fish"
    requires 0 <= j2 < |t| && t[j2] !in "seaweed"
    requires 0 <= j3 < |t| && t[j3] !in "soy sauce"
    requires 0 <= j4 < |t| && t[j4] !in "wasabi"
    ensures !MatchesSearch(SUSHI, t)
  {
    SushiLowered();
    SearchMisses(SUSHI, t, "sushi platter", j, j0, j1, j2, j3, j4);
  }

  /** Recipe 4 again, where the title has the term's letters but never two adjacent ones side by side. */
  lemma SushiMissesByPair(t: string, j: int, j0: int, j1: int, j2: int, j3: int, j4: int)
    requires Lower(t) == t
    requires 0 <= j && j + 1 < |t| && !HasAdjacent("sushi platter", t[j], t[j + 1])
    requires 0 <= j0 < |t| && t[j0] !in "rice"
    requires 0 <= j1 < |t| && t[j1] !in "fish"
    requires 0 <= j2 < |t| && t[j2] !in "seaweed"
    requires 0 <= j3 < |t| && t[j3] !in "soy sauce"
    requires 0 <= j4 < |t| && t[j4] !in "wasabi"
    ensures !MatchesSearch(SUSHI, t)
  {
    SushiLowered();
    SearchMissesByPair(SUSHI, t, "sushi platter", j, j0, j1, j2, j3, j4);
  }

  /** The same for recipe 5. */
  lemma PancakesMisses(t: string, j: int, j0: int, j1: int, j2: int, j3: int, j4: int)
    requires Lower(t) == t
    requires 0 <= j < |t| && t[j] !in "pancakes"
    requires 0 <= j0 < |t| && t[j0] !in "flour"
    requires 0 <= j1 < |t| && t[j1] !in "milk"
    requires 0 <= j2 < |t| && t[j2] !in "eggs"
    requires 0 <= j3 < |t| && t[j3] !in "syrup"
    requires 0 <= j4 < |t| && t[j4] !in "butter"
    ensures !MatchesSearch(PANCAKES, t)
  {
    PancakesLowered();
    SearchMisses(PANCAKES, t, "pancakes", j, j0, j1, j2, j3, j4);
  }

  /** Any of a recipe's ingredients, used as the search term, finds that recipe. */
  lemma IngredientFound(r: Recipe, i: int)
    requires 0 <= i < |r.ingredients|
    ensures MatchesSearch(r, r.ingredients[i])
  {
    ContainsSelf(Lower(r.ingredients[i]));
  }

  /** "pepper" is an ingredient of recipes 1 and 3. */
  lemma PepperInIngredients()
    ensures MatchesSearch(CARBONARA, "pepper") && MatchesSearch(AVOCADO_TOAST, "pepper")
  {
    IngredientFound(CARBONARA, 4);
    IngredientFound(AVOCADO_TOAST, 3);
  }

  /** Neither title of recipes 1 and 3 contains "pepper". */
  lemma PepperNotInTitles()
    ensures !Contains(Lower(CARBONARA.title), "pepper") && !Contains(Lower(AVOCADO_TOAST.title), "pepper")
  {
    var t := "pepper";
    CarbonaraLowered();
    MissingPairNotContained("spaghetti carbonara", t, 0);
    AvocadoToastLowered();
    MissingCharNotContained("avocado toast", t, 0);
  }

  lemma PepperNotInTacos()
    ensures !MatchesSearch(TACOS, "pepper")
  {
    var t := "pepper";
    LowerOfLowercase(t);
    TacosMisses(t, 0, 0, 0, 0, 0, 0);
  }

  lemma PepperNotInSushi()
    ensures !MatchesSearch(SUSHI, "pepper")
  {
    var t := "pepper";
    LowerOfLowercase(t);
    SushiMissesByPair(t, 0, 0, 0, 0, 0, 0);
  }

  lemma PepperNotInPancakes()
    ensures !MatchesSearch(PANCAKES, "pepper")
  {
    var t := "pepper";
    LowerOfLowercase(t);
    PancakesMisses(t, 5, 0, 0, 0, 1, 0);
  }

  /** Ingredient matching counts: "pepper" yields recipes 1 and 3, whose titles lack it. */
  lemma PepperExample()
    ensures Filter(MOCK_RECIPES, Query("pepper", ALL, ALL)) == [CARBONARA, AVOCADO_TOAST]
  {
    var q := Query("pepper", ALL, ALL);
    PepperInIngredients();
    PepperNotInTacos();
    PepperNotInSushi();
    PepperNotInPancakes();
    assert Matches(CARBONARA, q) && !Matches(TACOS, q) && Matches(AVOCADO_TOAST, q);
    assert !Matches(SUSHI, q) && !Matches(PANCAKES, q);
    FilterCatalogue(q);
  }

  lemma ChickenNotInCarbonara()
    ensures !MatchesSearch(CARBONARA, "chicken")
  {
    var t := "chicken";
    LowerOfLowercase(t);
    CarbonaraMisses(t, 4, 4, 4, 4, 4, 4);
  }

  lemma ChickenNotInAvocadoToast()
    ensures !MatchesSearch(AVOCADO_TOAST, "chicken")
  {
    var t := "chicken";
    LowerOfLowercase(t);
    AvocadoToastMisses(t, 4, 4, 4, 4, 4, 4);
  }

  lemma ChickenNotInSushi()
    ensures !MatchesSearch(SUSHI, "chicken")
  {
    var t := "chicken";
    LowerOfLowercase(t);
    SushiMisses(t, 4, 4, 4, 4, 4, 4);
  }

  lemma ChickenNotInPancakes()
    ensures !MatchesSearch(PANCAKES, "chicken")
  {
    var t := "chicken";
    LowerOfLowercase(t);
    PancakesMisses(t, 1, 4, 0, 4, 4, 4);
  }

  /** Ingredient matching counts: "chicken" yields recipe 2 only, found among its ingredients. */
  lemma ChickenExample()
    ensures Filter(MOCK_RECIPES, Query("chicken", ALL, ALL)) == [TACOS]
  {
    var q := Query("chicken", ALL, ALL);
    IngredientFound(TACOS, 0);
    ChickenNotInCarbonara();
    ChickenNotInAvocadoToast();
    ChickenNotInSushi();
    ChickenNotInPancakes();
    assert !Matches(CARBONARA, q) && Matches(TACOS, q) && !Matches(AVOCADO_TOAST, q);
    assert !Matches(SUSHI, q) && !Matches(PANCAKES, q);
    FilterCatalogue(q);
  }

  /** No field of the catalogue has the letter `x`, in either case: a lower-case term with an `x` finds nothing. */
  lemma TermWithXFindsNothing(t: string, j: int)
    requires Lower(t) == t && 0 <= j < |t| && t[j] == 'x'
    ensures forall r :: r in MOCK_RECIPES ==> !MatchesSearch(r, t)
  {
    CarbonaraMisses(t, j, j, j, j, j, j);
    TacosMisses(t, j, j, j, j, j, j);
    AvocadoToastMisses(t, j, j, j, j, j, j);
    SushiMisses(t, j, j, j, j, j, j);
    PancakesMisses(t, j, j, j, j, j, j);
  }

  /** A term found in no recipe yields the empty list. */
  lemma NoMatchExample()
    ensures Filter(MOCK_RECIPES, Query("xyz-no-match", ALL, ALL)) == []
  {
    var q := Query("xyz-no-match", ALL, ALL);
    LowerOfLowercase(q.searchTerm);
    TermWithXFindsNothing(q.searchTerm, 0);
    FilterNoneMatch(MOCK_RECIPES, q);
  }

  /** Exact equality on selections: American breakfasts are recipes 3 and 5. */
  lemma AmericanBreakfastExample()
    ensures Filter(MOCK_RECIPES, Query("", "American", "Breakfast")) == [AVOCADO_TOAST, PANCAKES]
  {
    var q := Query("", "American", "Breakfast");
    EmptySearchLeavesSelections(CARBONARA, q);
    EmptySearchLeavesSelections(TACOS, q);
    EmptySearchLeavesSelections(AVOCADO_TOAST, q);
    EmptySearchLeavesSelections(SUSHI, q);
    EmptySearchLeavesSelections(PANCAKES, q);
    assert !Matches(CARBONARA, q) && !Matches(TACOS, q) && Matches(AVOCADO_TOAST, q);
    assert !Matches(SUSHI, q) && Matches(PANCAKES, q);
    FilterCatalogue(q);
  }

  /** Exact equality on selections: there is no Japanese breakfast. */
  lemma JapaneseBreakfastExample()
    ensures Filter(MOCK_RECIPES, Query("", "Japanese", "Breakfast")) == []
  {
    var q := Query("", "Japanese", "Breakfast");
    assert !Matches(CARBONARA, q) && !Matches(TACOS, q) && !Matches(AVOCADO_TOAST, q);
    assert !Matches(SUSHI, q) && !Matches(PANCAKES, q);
    FilterCatalogue(q);
  }

  /** A selection matching no recipe yields the empty list, whatever the other two cells hold. */
  lemma UnofferedSelectionExample(searchTerm: string, mealType: string)
    ensures Filter(MOCK_RECIPES, Query(searchTerm, "Thai", mealType)) == []
    ensures Filter(MOCK_RECIPES, Query(searchTerm, ALL, "all")) == []
  {
    UnusedCuisineYieldsNothing(MOCK_RECIPES, Query(searchTerm, "Thai", mealType));
    UnusedMealTypeYieldsNothing(MOCK_RECIPES, Query(searchTerm, ALL, "all"));
  }

  /** Each dropdown option other than `ALL`, chosen on its own, shows at least one recipe. */
  lemma EveryOfferedOptionShowsSomething(c: string, m: string)
    requires c in CUISINES && m in MEAL_TYPES
    ensures c != ALL ==> Filter(MOCK_RECIPES, Query("", c, ALL)) != []
    ensures m != ALL ==> Filter(MOCK_RECIPES, Query("", ALL, m)) != []
  {
    OfferedLabelsAreUsed();
    if c != ALL {
      var r :| r in MOCK_RECIPES && r.cuisine == c;
      InitialQueryMatches(r);
      assert r in Filter(MOCK_RECIPES, Query("", c, ALL));
    }
    if m != ALL {
      var r :| r in MOCK_RECIPES && r.mealType == m;
      InitialQueryMatches(r);
      assert r in Filter(MOCK_RECIPES, Query("", ALL, m));
    }
  }
}

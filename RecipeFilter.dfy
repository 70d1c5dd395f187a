/** The recipe filter run by `App`'s effect: a recipe is shown when the
    search term occurs (case-insensitively) in its title or in one of its
    ingredients, and its cuisine and meal type agree with the two dropdown
    selections, `ALL` meaning no constraint. */
module RecipeFilter {
  import opened Text
  import opened Recipes

  /** The three query cells the effect depends on. */
  datatype Query = Query(searchTerm: string, cuisine: string, mealType: string)

  /** The query the component starts with: empty search, both dropdowns on `ALL`. */
  const INITIAL_QUERY: Query := Query("", ALL, ALL)

  /** `ingredients.some(ing => ing.toLowerCase().includes(term))`. */
  predicate SomeIngredientContains(ingredients: seq<string>, term: string)
  {
    exists i | 0 <= i < |ingredients| :: Contains(Lower(ingredients[i]), term)
  }

  /** The search test: the lower-cased term occurs in the lower-cased title or in a lower-cased ingredient. */
  predicate MatchesSearch(r: Recipe, searchTerm: string)
  {
    Contains(Lower(r.title), Lower(searchTerm)) || SomeIngredientContains(r.ingredients, Lower(searchTerm))
  }

  /** The cuisine test: `ALL`, or exactly the recipe's cuisine. */
  predicate MatchesCuisine(r: Recipe, selected: string)
  {
    selected == ALL || r.cuisine == selected
  }

  /** The meal-type test: `ALL`, or exactly the recipe's meal type. */
  predicate MatchesMealType(r: Recipe, selected: string)
  {
    selected == ALL || r.mealType == selected
  }

  /** The three tests joined by AND. */
  predicate Matches(r: Recipe, q: Query)
  {
    MatchesSearch(r, q.searchTerm) && MatchesCuisine(r, q.cuisine) && MatchesMealType(r, q.mealType)
  }

  /** `rs.filter(r => Matches(r, q))`: the matching recipes, in their order in `rs`.
      A recipe is in the result exactly when it is in `rs` and matches. */
  function Filter(rs: seq<Recipe>, q: Query): (r: seq<Recipe>)
    ensures |r| <= |rs|
    ensures forall x :: x in r <==> x in rs && Matches(x, q)
  {
    if rs == [] then []
    else if Matches(rs[0], q) then [rs[0]] + Filter(rs[1..], q)
    else Filter(rs[1..], q)
  }

  /** `a` is obtained from `b` by deleting elements: every element of `a`
      comes from `b`, and in the same relative order. */
  predicate IsSubsequence(a: seq<Recipe>, b: seq<Recipe>)
    decreases |b|
  {
    if a == [] then true
    else if b == [] then false
    else (a[0] == b[0] && IsSubsequence(a[1..], b[1..])) || IsSubsequence(a, b[1..])
  }

  /** A subsequence is no longer than the sequence it is taken from, and all its elements come from it. */
  lemma {:induction false} SubsequenceBounds(a: seq<Recipe>, b: seq<Recipe>)
    requires IsSubsequence(a, b)
    ensures |a| <= |b|
    ensures forall x :: x in a ==> x in b
    decreases |b|
  {
    if a != [] {
      if a[0] == b[0] && IsSubsequence(a[1..], b[1..]) {
        SubsequenceBounds(a[1..], b[1..]);
        assert forall x :: x in a ==> x == a[0] || x in a[1..];
      } else {
        SubsequenceBounds(a, b[1..]);
      }
    }
  }

  /** No fabrication, order kept: the result is a subsequence of the input. */
  lemma {:induction false} FilterIsSubsequence(rs: seq<Recipe>, q: Query)
    ensures IsSubsequence(Filter(rs, q), rs)
  {
    if rs != [] {
      FilterIsSubsequence(rs[1..], q);
      if Matches(rs[0], q) {
        assert ([rs[0]] + Filter(rs[1..], q))[1..] == Filter(rs[1..], q);
      }
    }
  }

  /** Multiplicities: a matching recipe keeps every one of its occurrences, any other none. */
  lemma {:induction false} FilterMultiplicity(rs: seq<Recipe>, q: Query, x: Recipe)
    ensures multiset(Filter(rs, q))[x] == if Matches(x, q) then multiset(rs)[x] else 0
  {
    if rs != [] {
      FilterMultiplicity(rs[1..], q, x);
      assert rs == [rs[0]] + rs[1..];
      assert multiset(rs) == multiset([rs[0]]) + multiset(rs[1..]);
    }
  }

  /** Filtering the concatenation of two lists is filtering each. */
  lemma {:induction false} FilterAppend(a: seq<Recipe>, b: seq<Recipe>, q: Query)
    ensures Filter(a + b, q) == Filter(a, q) + Filter(b, q)
  {
    if a == [] {
      assert a + b == b;
    } else {
      assert (a + b)[0] == a[0];
      assert (a + b)[1..] == a[1..] + b;
      FilterAppend(a[1..], b, q);
    }
  }

  /** A list whose every recipe matches is returned unchanged. */
  lemma {:induction false} FilterAllMatch(rs: seq<Recipe>, q: Query)
    requires forall i :: 0 <= i < |rs| ==> Matches(rs[i], q)
    ensures Filter(rs, q) == rs
  {
    if rs != [] {
      FilterAllMatch(rs[1..], q);
      assert [rs[0]] + rs[1..] == rs;
    }
  }

  /** A list with no matching recipe gives the empty result. */
  lemma {:induction false} FilterNoneMatch(rs: seq<Recipe>, q: Query)
    requires forall i :: 0 <= i < |rs| ==> !Matches(rs[i], q)
    ensures Filter(rs, q) == []
  {
    if rs != [] {
      FilterNoneMatch(rs[1..], q);
    }
  }

  /** Idempotence: filtering the filtered list with the same query changes nothing. */
  lemma FilterIdempotent(rs: seq<Recipe>, q: Query)
    ensures Filter(Filter(rs, q), q) == Filter(rs, q)
  {
    var r := Filter(rs, q);
    assert forall i :: 0 <= i < |r| ==> r[i] in r;
    FilterAllMatch(r, q);
  }

  /** Every recipe passes the initial query (empty search, both dropdowns `ALL`). */
  lemma InitialQueryMatches(r: Recipe)
    ensures Matches(r, INITIAL_QUERY)
  {
    assert Lower("") == "";
    ContainsEmpty(Lower(r.title));
  }

  /** With an empty search term only the two dropdowns decide. */
  lemma EmptySearchLeavesSelections(r: Recipe, q: Query)
    requires q.searchTerm == ""
    ensures Matches(r, q) <==> MatchesCuisine(r, q.cuisine) && MatchesMealType(r, q.mealType)
  {
    InitialQueryMatches(r);
  }

  /** Identity query: with the initial query the result is the whole input, in order. */
  lemma FilterInitialQuery(rs: seq<Recipe>)
    ensures Filter(rs, INITIAL_QUERY) == rs
  {
    forall i | 0 <= i < |rs|
      ensures Matches(rs[i], INITIAL_QUERY)
    {
      InitialQueryMatches(rs[i]);
    }
    FilterAllMatch(rs, INITIAL_QUERY);
  }

  /** Two queries that agree on every recipe of the list give the same result. */
  lemma {:induction false} FilterAgreeing(rs: seq<Recipe>, q1: Query, q2: Query)
    requires forall i :: 0 <= i < |rs| ==> (Matches(rs[i], q1) <==> Matches(rs[i], q2))
    ensures Filter(rs, q1) == Filter(rs, q2)
  {
    if rs != [] {
      FilterAgreeing(rs[1..], q1, q2);
    }
  }

  /** Case-insensitive search: the term, its lower case and its (ASCII) upper case give the same result. */
  lemma SearchIsCaseInsensitive(rs: seq<Recipe>, q: Query)
    ensures Filter(rs, q.(searchTerm := Lower(q.searchTerm))) == Filter(rs, q)
    ensures Filter(rs, q.(searchTerm := Upper(q.searchTerm))) == Filter(rs, q)
  {
    LowerIdempotent(q.searchTerm);
    LowerOfUpper(q.searchTerm);
    FilterAgreeing(rs, q.(searchTerm := Lower(q.searchTerm)), q);
    FilterAgreeing(rs, q.(searchTerm := Upper(q.searchTerm)), q);
  }

  /** A query that lets through no more recipes than another keeps a subsequence of its result. */
  lemma {:induction false} FilterNarrower(rs: seq<Recipe>, narrow: Query, wide: Query)
    requires forall i :: 0 <= i < |rs| ==> Matches(rs[i], narrow) ==> Matches(rs[i], wide)
    ensures IsSubsequence(Filter(rs, narrow), Filter(rs, wide))
    ensures |Filter(rs, narrow)| <= |Filter(rs, wide)|
  {
    if rs != [] {
      FilterNarrower(rs[1..], narrow, wide);
      var n, w := Filter(rs[1..], narrow), Filter(rs[1..], wide);
      if Matches(rs[0], narrow) {
        assert ([rs[0]] + n)[1..] == n && ([rs[0]] + w)[1..] == w;
      } else if Matches(rs[0], wide) {
        assert ([rs[0]] + w)[1..] == w;
      }
    }
    SubsequenceBounds(Filter(rs, narrow), Filter(rs, wide));
  }

  /** Monotonicity: picking a cuisine instead of `ALL` never adds a recipe. */
  lemma NarrowingCuisine(rs: seq<Recipe>, q: Query, cuisine: string)
    ensures IsSubsequence(Filter(rs, q.(cuisine := cuisine)), Filter(rs, q.(cuisine := ALL)))
    ensures |Filter(rs, q.(cuisine := cuisine))| <= |Filter(rs, q.(cuisine := ALL))|
  {
    FilterNarrower(rs, q.(cuisine := cuisine), q.(cuisine := ALL));
  }

  /** Monotonicity: picking a meal type instead of `ALL` never adds a recipe. */
  lemma NarrowingMealType(rs: seq<Recipe>, q: Query, mealType: string)
    ensures IsSubsequence(Filter(rs, q.(mealType := mealType)), Filter(rs, q.(mealType := ALL)))
    ensures |Filter(rs, q.(mealType := mealType))| <= |Filter(rs, q.(mealType := ALL))|
  {
    FilterNarrower(rs, q.(mealType := mealType), q.(mealType := ALL));
  }

  /** A recipe that matches a search term matches every term occurring in it. */
  lemma MatchesShorterTerm(r: Recipe, longer: string, shorter: string)
    requires Contains(longer, shorter)
    requires MatchesSearch(r, longer)
    ensures MatchesSearch(r, shorter)
  {
    LowerPreservesContains(longer, shorter);
    if Contains(Lower(r.title), Lower(longer)) {
      ContainsTransitive(Lower(r.title), Lower(longer), Lower(shorter));
    } else {
      var i :| 0 <= i < |r.ingredients| && Contains(Lower(r.ingredients[i]), Lower(longer));
      ContainsTransitive(Lower(r.ingredients[i]), Lower(longer), Lower(shorter));
    }
  }

  /** Monotonicity: extending the search term (the old term occurring in the new one) never adds a recipe. */
  lemma ExtendingSearchTerm(rs: seq<Recipe>, q: Query, longer: string)
    requires Contains(longer, q.searchTerm)
    ensures IsSubsequence(Filter(rs, q.(searchTerm := longer)), Filter(rs, q))
    ensures |Filter(rs, q.(searchTerm := longer))| <= |Filter(rs, q)|
  {
    forall i | 0 <= i < |rs| && Matches(rs[i], q.(searchTerm := longer))
      ensures Matches(rs[i], q)
    {
      MatchesShorterTerm(rs[i], longer, q.searchTerm);
    }
    FilterNarrower(rs, q.(searchTerm := longer), q);
  }

  /** Exact equality on selections: a cuisine no recipe has yields nothing; it is not read as `ALL`. */
  lemma UnusedCuisineYieldsNothing(rs: seq<Recipe>, q: Query)
    requires q.cuisine != ALL
    requires forall i :: 0 <= i < |rs| ==> rs[i].cuisine != q.cuisine
    ensures Filter(rs, q) == []
  {
    FilterNoneMatch(rs, q);
  }

  /** Exact equality on selections: a meal type no recipe has yields nothing; it is not read as `ALL`. */
  lemma UnusedMealTypeYieldsNothing(rs: seq<Recipe>, q: Query)
    requires q.mealType != ALL
    requires forall i :: 0 <= i < |rs| ==> rs[i].mealType != q.mealType
    ensures Filter(rs, q) == []
  {
    FilterNoneMatch(rs, q);
  }
}

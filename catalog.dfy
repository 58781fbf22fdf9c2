/**
 * The Home page's client-side catalog logic: the search by dish name or
 * ingredient name, the split of the result into the three category
 * carousels, and the two "no results" banners.
 */
module Catalog {
  import opened Options
  import opened Seqs
  import opened Text

  datatype Ingredient = Ingredient(name: string)

  /** A dish as the backend returns it; the price is not read by this logic and is not modelled. */
  datatype Dish = Dish(
    id: int,
    name: string,
    category: string,
    ingredients: seq<Ingredient>,
    description: string,
    image: string)

  /** The three category labels, compared by exact string equality. */
  const Meals: string := "Refeições"
  const Desserts: string := "Sobremesas"
  const Drinks: string := "Bebidas"

  predicate IsKnownCategory(category: string) {
    category == Meals || category == Desserts || category == Drinks
  }

  /** Array.prototype.find over the ingredients: the first one whose lower-cased name includes `lq`. */
  function FindIngredient(ingredients: seq<Ingredient>, lq: string): (r: Option<Ingredient>)
    ensures r.Some? ==> r.value in ingredients && Includes(Lower(r.value.name), lq)
    ensures r.None? <==> forall i :: 0 <= i < |ingredients| ==> !Includes(Lower(ingredients[i].name), lq)
    ensures r.Some? ==> exists k :: 0 <= k < |ingredients| && ingredients[k] == r.value &&
                          forall j :: 0 <= j < k ==> !Includes(Lower(ingredients[j].name), lq)
  {
    if ingredients == [] then None
    else if Includes(Lower(ingredients[0].name), lq) then Some(ingredients[0])
    else FindIngredient(ingredients[1..], lq)
  }

  /** The filter callback: the lower-cased name includes `lq`, or some ingredient is found. */
  predicate Matches(d: Dish, lq: string) {
    Includes(Lower(d.name), lq) || FindIngredient(d.ingredients, lq).Some?
  }

  function MatchesQuery(lq: string): Dish -> bool {
    (d: Dish) => Matches(d, lq)
  }

  /** filterDishesByNameOrIngredient: the query is lower-cased once, then every dish is tested. */
  function FilterByNameOrIngredient(dishes: seq<Dish>, searchQuery: string): seq<Dish> {
    Filter(MatchesQuery(Lower(searchQuery)), dishes)
  }

  /**
   * A dish is in the search result exactly when it is in the catalog and its
   * lower-cased name, or the lower-cased name of one of its ingredients,
   * contains the lower-cased query.
   */
  lemma SearchMember(dishes: seq<Dish>, searchQuery: string, d: Dish)
    ensures d in FilterByNameOrIngredient(dishes, searchQuery) <==>
            d in dishes &&
            (ContainsSubstring(Lower(d.name), Lower(searchQuery)) ||
             exists i :: 0 <= i < |d.ingredients| &&
                         ContainsSubstring(Lower(d.ingredients[i].name), Lower(searchQuery)))
  {
    var lq := Lower(searchQuery);
    FilterMember(MatchesQuery(lq), dishes, d);
    IncludesIff(Lower(d.name), lq);
    forall i | 0 <= i < |d.ingredients|
      ensures Includes(Lower(d.ingredients[i].name), lq) <==> ContainsSubstring(Lower(d.ingredients[i].name), lq)
    {
      IncludesIff(Lower(d.ingredients[i].name), lq);
    }
  }

  /** With the empty query every dish is kept, in order. */
  lemma SearchEmptyQuery(dishes: seq<Dish>)
    ensures FilterByNameOrIngredient(dishes, "") == dishes
  {
    assert Lower("") == "";
    forall i | 0 <= i < |dishes| ensures MatchesQuery("")(dishes[i]) {
      IncludesEmpty(Lower(dishes[i].name));
    }
    FilterKeepsAll(MatchesQuery(""), dishes);
  }

  /** The search result is an order-preserving subsequence of the catalog. */
  lemma SearchIsSubsequence(dishes: seq<Dish>, searchQuery: string)
    ensures IsSubsequence(FilterByNameOrIngredient(dishes, searchQuery), dishes)
  {
    FilterIsSubsequence(MatchesQuery(Lower(searchQuery)), dishes);
  }

  /** The search is case-insensitive: a query and its lower-cased form give the same result. */
  lemma SearchCaseInsensitive(dishes: seq<Dish>, searchQuery: string)
    ensures FilterByNameOrIngredient(dishes, searchQuery) == FilterByNameOrIngredient(dishes, Lower(searchQuery))
  {
    LowerIdempotent(searchQuery);
  }

  /** The three carousels' contents. */
  datatype Buckets = Buckets(meals: seq<Dish>, desserts: seq<Dish>, drinks: seq<Dish>)

  function InCategory(cat: string): Dish -> bool {
    (d: Dish) => d.category == cat
  }

  function NotKnownCategory(): Dish -> bool {
    (d: Dish) => !IsKnownCategory(d.category)
  }

  /** The three `filter` calls by exact category string. */
  function Split(result: seq<Dish>): Buckets {
    Buckets(
      Filter(InCategory(Meals), result),
      Filter(InCategory(Desserts), result),
      Filter(InCategory(Drinks), result))
  }

  /**
   * Each bucket holds exactly the dishes of the result with its category, in
   * their original order.
   */
  lemma SplitBuckets(result: seq<Dish>, d: Dish)
    ensures d in Split(result).meals <==> d in result && d.category == Meals
    ensures d in Split(result).desserts <==> d in result && d.category == Desserts
    ensures d in Split(result).drinks <==> d in result && d.category == Drinks
    ensures IsSubsequence(Split(result).meals, result)
    ensures IsSubsequence(Split(result).desserts, result)
    ensures IsSubsequence(Split(result).drinks, result)
  {
    FilterMember(InCategory(Meals), result, d);
    FilterMember(InCategory(Desserts), result, d);
    FilterMember(InCategory(Drinks), result, d);
    FilterIsSubsequence(InCategory(Meals), result);
    FilterIsSubsequence(InCategory(Desserts), result);
    FilterIsSubsequence(InCategory(Drinks), result);
  }

  /** No dish is in two buckets, and a dish of any other category is in none. */
  lemma SplitDisjoint(result: seq<Dish>, d: Dish)
    ensures !(d in Split(result).meals && d in Split(result).desserts)
    ensures !(d in Split(result).meals && d in Split(result).drinks)
    ensures !(d in Split(result).desserts && d in Split(result).drinks)
    ensures !IsKnownCategory(d.category) ==>
              d !in Split(result).meals && d !in Split(result).desserts && d !in Split(result).drinks
  {
  }

  /**
   * The buckets and the dishes of unknown category together hold every dish
   * of the result exactly as many times as the result does.
   */
  lemma {:induction false} SplitPartition(result: seq<Dish>)
    ensures multiset(Split(result).meals) + multiset(Split(result).desserts) + multiset(Split(result).drinks)
            + multiset(Filter(NotKnownCategory(), result)) == multiset(result)
  {
    if result != [] {
      SplitPartition(result[1..]);
      assert result == [result[0]] + result[1..];
    }
  }

  /** Splitting then searching a bucket gives the same dishes as searching then splitting. */
  lemma SearchThenSplit(dishes: seq<Dish>, searchQuery: string, cat: string)
    ensures Filter(InCategory(cat), FilterByNameOrIngredient(dishes, searchQuery))
            == FilterByNameOrIngredient(Filter(InCategory(cat), dishes), searchQuery)
  {
    FilterCommutes(InCategory(cat), MatchesQuery(Lower(searchQuery)), dishes);
  }

  /** "Nenhum resultado encontrado!": a non-empty query and three empty carousels. */
  predicate NoResultsBanner(itemSearch: string, b: Buckets) {
    itemSearch != "" && |b.meals| <= 0 && |b.desserts| <= 0 && |b.drinks| <= 0
  }

  /** "Nenhum prato cadastrado!": the catalog has finished loading and is empty. */
  predicate NoDishesBanner(loadingDishes: bool, dishes: seq<Dish>) {
    !loadingDishes && |dishes| <= 0
  }

  /**
   * The three carousels of a search are all empty exactly when no dish that
   * matches the query has one of the three categories.
   */
  lemma BucketsEmptyIff(dishes: seq<Dish>, query: string)
    ensures Split(FilterByNameOrIngredient(dishes, query)) == Buckets([], [], []) <==>
            forall d :: d in dishes && Matches(d, Lower(query)) ==> !IsKnownCategory(d.category)
  {
    var result := FilterByNameOrIngredient(dishes, query);
    var b := Split(result);
    if forall d :: d in dishes && Matches(d, Lower(query)) ==> !IsKnownCategory(d.category) {
      if b.meals != [] {
        SplitBuckets(result, b.meals[0]);
        FilterMember(MatchesQuery(Lower(query)), dishes, b.meals[0]);
      } else if b.desserts != [] {
        SplitBuckets(result, b.desserts[0]);
        FilterMember(MatchesQuery(Lower(query)), dishes, b.desserts[0]);
      } else if b.drinks != [] {
        SplitBuckets(result, b.drinks[0]);
        FilterMember(MatchesQuery(Lower(query)), dishes, b.drinks[0]);
      }
    }
    if b == Buckets([], [], []) {
      forall d | d in dishes && Matches(d, Lower(query)) ensures !IsKnownCategory(d.category) {
        FilterMember(MatchesQuery(Lower(query)), dishes, d);
        SplitBuckets(result, d);
      }
    }
  }

  /**
   * After a search, the "no results" banner shows exactly when the query is
   * non-empty and no matching dish has one of the three categories.
   */
  lemma NoResultsIff(dishes: seq<Dish>, itemSearch: string)
    ensures NoResultsBanner(itemSearch, Split(FilterByNameOrIngredient(dishes, itemSearch))) <==>
            itemSearch != "" &&
            forall d :: d in dishes && Matches(d, Lower(itemSearch)) ==> !IsKnownCategory(d.category)
  {
    BucketsEmptyIff(dishes, itemSearch);
  }
}

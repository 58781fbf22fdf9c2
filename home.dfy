/**
 * The Home page's state and its three effects: loading the catalog, re-running
 * the search when the query changes, and merging an added dish into the
 * stored order.
 */
module Home {
  import opened Options
  import opened Catalog
  import opened Cart
  import opened Text

  /** What the add-to-cart effect did. */
  datatype AddResult =
    | NothingToAdd   // no dish selected yet: the effect's guard is false
    | NoStoredOrder  // nothing stored under "@foodexplorer:order": reading `.dishes` of null throws
    | Added

  class HomePage {
    var dishes: seq<Dish>
    var itemSearch: string
    var meals: seq<Dish>
    var desserts: seq<Dish>
    var drinks: seq<Dish>
    var loadingDishes: bool
    /** The in-memory item counter shown in the header. */
    var orderItems: int
    /** The value stored under "@foodexplorer:order". */
    var storedOrder: Option<Order>
    /** The query the carousels currently reflect: "" after a catalog load, `itemSearch` after a search. */
    ghost var shownQuery: string

    ghost predicate Valid()
      reads this
    {
      && Buckets(meals, desserts, drinks) == Split(FilterByNameOrIngredient(dishes, shownQuery))
      && (shownQuery == "" || shownQuery == itemSearch)
    }

    /** The page as first rendered, with the search effect already run on the empty catalog. */
    constructor (stored: Option<Order>)
      ensures Valid()
      ensures dishes == [] && itemSearch == "" && loadingDishes
      ensures meals == [] && desserts == [] && drinks == []
      ensures orderItems == 0 && storedOrder == stored
    {
      dishes, itemSearch := [], "";
      meals, desserts, drinks := [], [], [];
      loadingDishes := true;
      orderItems := 0;
      storedOrder := stored;
      shownQuery := "";
    }

    /**
     * The catalog request completes: on success the catalog is replaced and
     * the carousels show its unfiltered split, whatever has been typed in the
     * meantime; on failure nothing but the loading flag changes.
     */
    method LoadCatalog(response: Option<seq<Dish>>)
      requires Valid()
      modifies this
      ensures Valid()
      ensures !loadingDishes
      ensures response.Some? ==>
                dishes == response.value &&
                Buckets(meals, desserts, drinks) == Split(response.value) && shownQuery == ""
      ensures response.None? ==>
                dishes == old(dishes) && meals == old(meals) &&
                desserts == old(desserts) && drinks == old(drinks) && shownQuery == old(shownQuery)
      ensures itemSearch == old(itemSearch) && orderItems == old(orderItems) && storedOrder == old(storedOrder)
    {
      if response.Some? {
        var data := response.value;
        dishes := data;
        var b := Split(data);
        meals, desserts, drinks := b.meals, b.desserts, b.drinks;
        SearchEmptyQuery(data);
        shownQuery := "";
      }
      loadingDishes := false;
    }

    /**
     * The header reports a new query. The search effect depends on the query
     * alone, so it re-runs only when the query differs from the current one.
     */
    method SetItemSearch(query: string)
      requires Valid()
      modifies this
      ensures Valid()
      ensures itemSearch == query
      ensures query != old(itemSearch) ==>
                Buckets(meals, desserts, drinks) == Split(FilterByNameOrIngredient(dishes, query)) &&
                shownQuery == query
      ensures query == old(itemSearch) ==>
                meals == old(meals) && desserts == old(desserts) && drinks == old(drinks) &&
                shownQuery == old(shownQuery)
      ensures dishes == old(dishes) && loadingDishes == old(loadingDishes)
      ensures orderItems == old(orderItems) && storedOrder == old(storedOrder)
    {
      if query != itemSearch {
        itemSearch := query;
        var b := Split(FilterByNameOrIngredient(dishes, query));
        meals, desserts, drinks := b.meals, b.desserts, b.drinks;
        shownQuery := query;
      }
    }

    /**
     * The add-to-cart effect: read the stored order, find the dish's line,
     * add to its amount or append the new line, store the order again, and
     * bump the in-memory counter.
     */
    method AddToCart(dishToAdd: Option<OrderLine>) returns (result: AddResult)
      modifies this`storedOrder, this`orderItems
      ensures result == if dishToAdd.None? then NothingToAdd
                        else if old(storedOrder).None? then NoStoredOrder
                        else Added
      ensures result == Added ==>
                storedOrder == Some(Order(Merge(old(storedOrder).value.dishes, dishToAdd.value))) &&
                orderItems == old(orderItems) + dishToAdd.value.amount
      ensures result != Added ==> storedOrder == old(storedOrder) && orderItems == old(orderItems)
      ensures result == Added && old(orderItems) == SumAmounts(old(storedOrder).value.dishes) ==>
                orderItems == SumAmounts(storedOrder.value.dishes)
    {
      if dishToAdd.None? {
        return NothingToAdd;
      }
      var line := dishToAdd.value;
      if storedOrder.None? {
        return NoStoredOrder;
      }
      var lines := storedOrder.value.dishes;
      var existingDishIndex := FindIndex(lines, line.dishId);
      if existingDishIndex != -1 {
        var existing := lines[existingDishIndex];
        lines := lines[existingDishIndex := existing.(amount := existing.amount + line.amount)];
      } else {
        lines := lines + [line];
      }
      MergeSum(storedOrder.value.dishes, line);
      storedOrder := Some(Order(lines));
      orderItems := orderItems + line.amount;
      result := Added;
    }

    /**
     * Whether "Nenhum resultado encontrado!" is rendered: a query is typed and
     * no dish matching the query the carousels reflect has a known category.
     * After a query typed before the catalog arrived, that query is "": the
     * banner shows only if no loaded dish has a known category (for example an
     * empty catalog), whether or not any dish matches the typed query.
     */
    function NoResultsShown(): (shown: bool)
      reads this
      requires Valid()
      ensures shown <==>
                itemSearch != "" &&
                forall d :: d in dishes && Matches(d, Lower(shownQuery)) ==> !IsKnownCategory(d.category)
    {
      BucketsEmptyIff(dishes, shownQuery);
      NoResultsBanner(itemSearch, Buckets(meals, desserts, drinks))
    }

    /**
     * Whether "Nenhum prato cadastrado!" is rendered. Whenever it is, the
     * "no results" banner shows too exactly when a query is typed: the two
     * banners are not exclusive.
     */
    function NoDishesShown(): (shown: bool)
      reads this
      requires Valid()
      ensures shown <==> !loadingDishes && dishes == []
      ensures shown ==> (NoResultsShown() <==> itemSearch != "")
    {
      NoDishesBanner(loadingDishes, dishes)
    }
  }

  /**
   * A reachable page state with both banners: the catalog loads empty, then
   * a query is typed.
   */
  method BothBannersAfterEmptyLoad(query: string) returns (noResults: bool, noDishes: bool)
    requires query != ""
    ensures noResults && noDishes
  {
    var page := new HomePage(None);
    page.LoadCatalog(Some([]));
    page.SetItemSearch(query);
    noResults := page.NoResultsShown();
    noDishes := page.NoDishesShown();
  }
}

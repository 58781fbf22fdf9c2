# FoodExplorer front end: catalog search, cart accumulator and dish form

A Dafny model of the client-side logic of the FoodExplorer restaurant front
end. Three pieces are modelled:

- **Catalog search and category split** (Home page). The search keeps a dish
  when the lower-cased query is a substring of the lower-cased dish name or
  of some ingredient's lower-cased name. The result is split into the three
  carousels "Refeições", "Sobremesas" and "Bebidas" by exact category string.
  Two banners cover the empty cases: "no results" and "no dishes registered".
- **Cart accumulator** (Home page). Adding a dish reads the stored order and
  looks for a line with the same `dish_id`. If one is found, its `amount`
  grows; otherwise the new line is appended. The order is stored again and
  the in-memory item counter grows by the added amount.
- **Dish draft editor** (AddDish page). The editor adds an ingredient unless
  it is blank after trimming, and removes every entry equal to a given one.
  It accepts a chosen file only when its MIME type starts with `image/`, and
  keeps the "all fields filled" flag up to date. Submission checks the price
  against `^\d{1,3},\d{2}$`, converts it, and raises the loading flag around
  the POST.

Modules, one per concern:

| file | module | what |
|---|---|---|
| options.dfy | `Options` | `Option`, for values that may be missing |
| seqs.dfy | `Seqs` | `Filter` (Array.prototype.filter) and order-preserving subsequence |
| text.dfy | `Text` | `toLowerCase`, `includes` and `trim` on strings |
| catalog.dfy | `Catalog` | dishes, the search, the category split, the banners |
| cart.dfy | `Cart` | order lines, find-by-id, the merge, amount totals |
| home.dfy | `Home` | the Home page state (`HomePage`) and its three effects |
| price.dfy | `Price` | the price pattern and its value in cents |
| add_dish.dfy | `AddDish` | the form state (`DishDraft`) and its handlers |

The pure parts (search, split, merge, price) are functions with lemmas. The
two pages' state is a class whose methods update fields the way the React
handlers and effects do. Each method's postcondition ties the new state to
those functions.

Behaviour of the code that the model keeps as written:

- The two banners are not exclusive. With an empty, loaded catalog and a
  non-empty query both show (`Home.BothBannersAfterEmptyLoad`).
- Removing an ingredient removes every equal entry, not only the first.
- A missing stored order makes the add-to-cart effect throw before it writes
  anything. The model returns `NoStoredOrder` and changes nothing; it does not
  demand a stored order as a precondition.
- When the price is rejected, the early `return` still runs the `finally`
  block, so the loading flag is set to `false`. It is never raised.
- The carousels filled by the catalog load are the unfiltered split of the
  response, even if a query was typed while loading. The ghost field
  `HomePage.shownQuery` records which query the carousels reflect.
- The search effect depends on the query alone, so setting the same query
  again does not re-run it.
- The close button on the image preview clears only the preview. The chosen
  file is still uploaded.

## Model

| member | source | states |
|---|---|---|
| `Seqs.Filter` | src/pages/Home/index.jsx:83-93 | the result is no longer than the input and every kept element satisfies the predicate |
| `Text.LowerChar` | src/pages/Home/index.jsx:81 | the result is never a modelled capital; a capital moves 32 code points up; any other character is unchanged |
| `Text.IncludesIff` | src/pages/Home/index.jsx:84 | `includes` holds exactly when the needle occurs at some index of the haystack |
| `Text.TrimIsEmptyIff` | src/pages/AddDish/index.jsx:39 | `trim()` gives "" exactly when every character is ECMAScript white space or a line terminator |
| `Catalog.FindIngredient` | src/pages/Home/index.jsx:88-92 | returns an ingredient whose lower-cased name includes the query, and it is the first such one; returns none exactly when no ingredient matches |
| `Catalog.SearchMember` | src/pages/Home/index.jsx:80-93 | for `FilterByNameOrIngredient`: a dish is in the result iff it is in the catalog and lower(name) contains lower(query), or some ingredient's lower(name) does |
| `Catalog.SearchEmptyQuery` | src/pages/Home/index.jsx:81-93 | the empty query keeps the whole catalog, in order |
| `Catalog.SearchIsSubsequence` | src/pages/Home/index.jsx:83-95 | the result is an order-preserving subsequence of the catalog |
| `Catalog.SearchCaseInsensitive` | src/pages/Home/index.jsx:81 | a query and its lower-cased form give the same result |
| `Catalog.SplitBuckets` | src/pages/Home/index.jsx:101-103 | for `Split`: each bucket holds exactly the result's dishes with its category, as an order-preserving subsequence |
| `Catalog.SplitDisjoint` | src/pages/Home/index.jsx:101-103 | the buckets are pairwise disjoint; a dish of any other category is in none |
| `Catalog.SplitPartition` | src/pages/Home/index.jsx:101-103 | the three buckets plus the unknown-category dishes are, as a multiset, exactly the result |
| `Catalog.SearchThenSplit` | src/pages/Home/index.jsx:40-42 | taking a category of the search result equals searching that category of the catalog |
| `Catalog.BucketsEmptyIff` | src/pages/Home/index.jsx:101-103 | the three carousels of a search are all empty iff no dish matching the query has a known category |
| `Catalog.NoResultsIff` | src/pages/Home/index.jsx:183-185 | after a search the "no results" banner shows iff the query is non-empty and no matching dish has a known category |
| `Cart.FindIndex` | src/pages/Home/index.jsx:134 | returns -1 iff no line has the dish id, otherwise the first index of a line with it |
| `Cart.Merge` | src/pages/Home/index.jsx:134-142 | if the id is absent, the line is appended at the end. If present, the length is the same, ids and display fields are unchanged, the first line with that id has its amount grown by the added amount and every other line is untouched |
| `Cart.MergeSum` | src/pages/Home/index.jsx:134-142 | the sum of amounts grows by exactly the added amount |
| `Cart.MergeKeepsIdsUnique` | src/pages/Home/index.jsx:134-142 | "no duplicate dish id" is preserved; the ids afterwards are the old ids plus the added one |
| `Cart.MergeExamples` | src/pages/Home/index.jsx:138-142 | adding 3 of dish 1 to [1x2] gives [1x5]; adding 1 of dish 2 gives [1x2, 2x1] |
| `Home.HomePage.constructor` | src/pages/Home/index.jsx:17-30 | empty catalog and carousels, empty query, loading, counter 0 |
| `Home.HomePage.LoadCatalog` | src/pages/Home/index.jsx:33-72 | on success the catalog is the response and the carousels are its unfiltered split; on failure only the loading flag changes; loading ends false either way |
| `Home.HomePage.SetItemSearch` | src/pages/Home/index.jsx:79-129 | a new query re-runs the search and the carousels become the split of its result; the same query changes nothing |
| `Home.HomePage.AddToCart` | src/pages/Home/index.jsx:131-151 | nothing happens without a dish or without a stored order. Otherwise the stored order becomes the merge and the counter grows by the amount, and a counter equal to the stored total stays equal |
| `Home.HomePage.NoResultsShown` | src/pages/Home/index.jsx:183-185 | shown iff a query is typed and no dish matching the query the carousels reflect has a known category; after a query typed before the catalog arrived, that query is "": the banner shows only if no loaded dish has a known category (for example an empty catalog), whether or not any dish matches the typed query |
| `Home.HomePage.NoDishesShown` | src/pages/Home/index.jsx:186-188 | shown iff loading has finished and the catalog is empty; then the "no results" banner shows exactly when a query is typed |
| `Home.BothBannersAfterEmptyLoad` | src/pages/Home/index.jsx:183-188 | after an empty catalog load and a typed query, both banners are rendered: they are not exclusive |
| `Price.ParsePrice` | src/pages/AddDish/index.jsx:76-82 | accepted iff the text is 1-3 ASCII digits, a comma and 2 digits; the value is intpart*100 + fraction cents, below 100000 |
| `Price.PriceRoundTrip` | src/pages/AddDish/index.jsx:76-82 | every amount below 1000,00 written as digits, comma, two digits is accepted and read back exactly |
| `Price.PriceExamples` | src/pages/AddDish/index.jsx:76-80 | "12,99", "5,00", "012,50" are accepted as 1299, 500, 1250; "12.99", "abc", "1234,99", "12,9", " 12,99" are rejected |
| `AddDish.WithoutIngredientSpec` | src/pages/AddDish/index.jsx:47-49 | for `WithoutIngredient`: every copy of the removed text goes, every other text keeps all its copies, the order is kept |
| `AddDish.DishDraft.constructor` | src/pages/AddDish/index.jsx:27-36 | every field empty, both flags false |
| `AddDish.DishDraft.CheckBlankFields` | src/pages/AddDish/index.jsx:66-72 | the flag is true iff name, category, price and description are non-empty and there is an ingredient; the image plays no part |
| `AddDish.DishDraft.SetName` | src/pages/AddDish/index.jsx:160 | the name is set and the flag is recomputed |
| `AddDish.DishDraft.SetCategory` | src/pages/AddDish/index.jsx:51-53 | the category is set and the flag is recomputed |
| `AddDish.DishDraft.SetPrice` | src/pages/AddDish/index.jsx:198 | the price text is set and the flag is recomputed |
| `AddDish.DishDraft.SetDescription` | src/pages/AddDish/index.jsx:207 | the description is set and the flag is recomputed |
| `AddDish.DishDraft.SetNewIngredient` | src/pages/AddDish/index.jsx:188 | the pending ingredient text is set |
| `AddDish.DishDraft.AddIngredient` | src/pages/AddDish/index.jsx:38-45 | a blank-after-trim text leaves the list unchanged; any other is appended untrimmed at the end; the pending text is cleared either way |
| `AddDish.DishDraft.RemoveIngredient` | src/pages/AddDish/index.jsx:47-49 | the list becomes the old list without any entry equal to the removed one |
| `AddDish.DishDraft.ChooseFile` | src/pages/AddDish/index.jsx:55-64 | a file is taken iff present with a type starting "image/"; otherwise the image state is unchanged |
| `AddDish.DishDraft.ClearPreview` | src/pages/AddDish/index.jsx:145 | the preview is cleared and the chosen file is kept |
| `AddDish.DishDraft.BeginSubmit` | src/pages/AddDish/index.jsx:74-97 | a price outside the pattern submits nothing and leaves loading false; an accepted one posts all fields with the price in cents and raises loading |
| `AddDish.DishDraft.FinishSubmit` | src/pages/AddDish/index.jsx:97-109 | loading drops on success and on failure, the draft is kept, and only success navigates home |

## Left out

- HTTP: `GET /dishes`, the `?itemSearch=` parameter (always sent empty) and `POST /dishes`. The catalog is an input sequence and the POST outcome is a boolean parameter.
- Browser storage and serialisation: `localStorage` and `JSON.parse`/`JSON.stringify`. The stored order is the field `HomePage.storedOrder`.
- `FormData`, `URL.createObjectURL` (its result is the parameter `objectUrl`), `setTimeout`/`navigate` (only the decision to navigate is kept) and `toast` messages.
- `parseFloat`: floating point. The accepted price is kept as integer cents.
- JSX rendering, the `Card`, `Carousel` and `Header` components, and the styled-components CSS in src/components/Button/styles.js.
- React effect scheduling: the `checkBlankFields` effect is modelled as running right after each field change, and the asynchronous interleaving of effects and requests is not modelled.
- Whether the `Button` component blocks a second click while loading: that component is not part of this model.
- The dish price and the order's display fields are not read by this logic. `OrderLine.details` stands for the latter.
- `OrderLine.amount` is an unbounded integer; JavaScript number precision is not modelled.
- The shared array between `oldItems` and `updatedOrder` is not modelled as aliasing. `oldItems` is freshly parsed and read nowhere else, so the in-place update and the new value are indistinguishable.
- Text.LowerChar: lower-cases only ASCII and Latin-1 capitals. JavaScript's full Unicode `toLowerCase`, including mappings that change a string's length, is not modelled.

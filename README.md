# Recipe cart engine of the Classic Recipe Search page

This project models the logic inside the `Splash` component of a recipe
lookup page for the crafting professions of Classic World of Warcraft. The
user types a search term and picks a recipe from the suggestions. The user
then sets a craft multiplier and pins the recipe, and the page keeps a
shopping list that adds up the reagents of every pinned recipe.

The component keeps five pieces of state: the search term, the suggestions,
the pinned recipes, the current recipe and the craft multiplier. Every
handler replaces some of them. The model has four modules:

- `Strings` (strings.dfy): `toLowerCase`, restricted to ASCII, and `includes`.
  `Includes` is proved equal to a positional definition of "occurs in".
- `Cart` (cart.dfy): the dataset records and pinned snapshots as datatypes.
  It also holds the pure computation each handler does before calling a
  setter: the search effect's filter and slice, `find`, the multiplier
  normalisation, and the `map` and `filter` that pin, rescale and unpin.
  Lemmas relate them to reference definitions. One of them shows that
  rescaling with exact arithmetic has no drift.
- `Shopping` (shopping.dfy): the shopping list as a fold over all pinned
  reagents. It is proved against reference definitions: the names in
  first-seen order with no repeats, the sum of the amounts for each name, and
  the grand total.
- `SplashComponent` (splash.dfy): the class `Splash`. Its five fields are the
  component's state variables, and the dataset is a constant. Each handler is
  a method that states the whole new state in terms of the old one. The
  invariant `Valid()` holds across all of them:
  - the suggestions are either empty or the filter's result for the current
    term;
  - the current recipe is a record of the dataset;
  - every pinned entry is the snapshot of a dataset record at its own
    multiplier.
  The `shoppingList` memo is a method with the source's nested loops. It keeps
  an insertion-ordered dictionary and is proved equal to
  `Shopping.ShoppingListOf`.

Two behaviours of the code are easy to misread:
- The multiplier is normalised as `Math.max(1, parseInt(v) || 1)`, which has
  no upper bound. The range 1 to 100 exists only as the input fields' `min`
  and `max` attributes, so a typed 500 stays 500.
- An unknown recipe id clears the current recipe and leaves the suggestions as
  they were. It does not clear them.

## Model

| member | source | states |
|---|---|---|
| `Strings.ToLowerCase` | src/Splash.js:17 | the lowered name has the same length, each character lowered, and no ASCII capital is left |
| `Strings.IncludesIff` | src/Splash.js:17 | `includes` holds exactly when the term occurs at some position of the name (both directions) |
| `Cart.FilterMatching` | src/Splash.js:15-18 | a record is in the filtered list if and only if it is in the dataset and its lowered name contains the lowered term; the list is never longer than the dataset |
| `Cart.FilterMatchingAppend` | src/Splash.js:15-18 | the filter keeps dataset order: filtering a concatenation gives the concatenation of the filtered parts |
| `Cart.Suggest` | src/Splash.js:13-24 | a term of length at most 1 gives no suggestions; there are never more than 10; each one is a dataset record that matches the term |
| `Cart.FirstMatchesIsFilterThenSlice` | src/Splash.js:15-19 | filtering and then slicing to n equals scanning the dataset front to back and stopping after n matches |
| `Cart.SuggestIsFirstMatches` | src/Splash.js:14-20 | for a term longer than 1 character, the suggestions are exactly the first 10 matching records in dataset order |
| `Cart.FindRecipe` | src/Splash.js:27 | the result is absent exactly when no record has the id; otherwise it is the record at the first index that has the id |
| `Cart.FindRecipeOfMember` | src/Splash.js:27 | looking up the id of any dataset record finds a record with that id |
| `Cart.NormaliseMultiplier` | src/Splash.js:137 | an integer of at least 1 is kept as it is; NaN, 0 and negatives become 1; the result is always at least 1 |
| `Cart.Scale` | src/Splash.js:43-46 | reagent names and order are kept, and every amount is multiplied by the multiplier |
| `Cart.Pin` | src/Splash.js:38-50 | with no current recipe the list is unchanged; otherwise exactly one entry is appended after the unchanged old entries, carrying the multiplier, the recipe's other fields, and each reagent at base amount times multiplier |
| `Cart.Rescale` | src/Splash.js:55-62 | the entry takes the new multiplier and keeps its other fields and reagent names; each new amount times the old multiplier equals the old amount times the new multiplier |
| `Cart.RescaleAt` | src/Splash.js:52-67 | the length is kept, every other index is unchanged, the given index is rescaled, and an out-of-range index changes nothing |
| `Cart.RemoveAt` | src/Splash.js:69-72 | an in-range index removes exactly that entry and keeps the others in order; an out-of-range index changes nothing |
| `Cart.RescaleOfPin` | src/Splash.js:38-67 | a recipe pinned at m and then rescaled to n equals the recipe pinned at n, so each amount is base times n with no drift |
| `Cart.RescaleTwice` | src/Splash.js:52-67 | two rescales in a row equal one rescale to the last multiplier |
| `Cart.RescalePinnedFrom` | src/Splash.js:52-67 | rescaling keeps an entry the exact snapshot of its dataset record |
| `Shopping.AddReagentExisting` | src/Splash.js:78-79 | when the name is already listed, only that entry changes: the reagent's amount is added to it |
| `Shopping.AddReagentNew` | src/Splash.js:80-81 | a name not yet listed is appended as a copy of the reagent |
| `Shopping.AggregateNames` | src/Splash.js:74-86 | the list's names are the pinned reagent names in first-seen order, each once |
| `Shopping.AggregateAmounts` | src/Splash.js:74-86 | each entry's amount is the sum of the amounts of all pinned reagents with that name |
| `Shopping.AggregateTotal` | src/Splash.js:74-86 | the list's total equals the total of all pinned amounts |
| `Shopping.ShoppingListSpec` | src/Splash.js:74-86 | one entry per distinct pinned name, in first-seen order, with no name absent from the pinned recipes, each with its summed amount, and the grand total kept |
| `Shopping.IronBarExample` | src/Splash.js:74-86 | two pinned entries that need "Iron Bar" at 10 and at 5 give the single line "Iron Bar" 15 |
| `SplashComponent.Splash.constructor` | src/Splash.js:7-11 | the initial state is an empty term, no suggestions, nothing pinned, no current recipe and multiplier 1 |
| `SplashComponent.Splash.SetSearchTerm` | src/Splash.js:13-24 | the term is stored; the suggestions are recomputed only when the term changed; nothing else changes |
| `SplashComponent.Splash.SearchRecipe` | src/Splash.js:26-36 | a known id sets the first record with that id as current, resets the multiplier to 1 and clears the suggestions; an unknown id clears the current recipe and keeps the suggestions and multiplier; the term and pinned list are untouched |
| `SplashComponent.Splash.PressSearch` | src/Splash.js:101 | with no suggestion the current recipe is cleared; otherwise a record with the first suggestion's id always becomes current |
| `SplashComponent.Splash.PickSuggestion` | src/Splash.js:107-110 | the clicked recipe's id always finds a record; the term becomes its name, and the suggestions are recomputed for that name only if the name differs from the old term |
| `SplashComponent.Splash.SetCraftMultiplier` | src/Splash.js:137 | the multiplier becomes the normalised input; the pinned snapshots and all other state are untouched |
| `SplashComponent.Splash.PinRecipe` | src/Splash.js:38-50 | the pinned list becomes `Pin` of the old list and the current recipe at the current multiplier; nothing else changes |
| `SplashComponent.Splash.UpdatePinnedRecipeMultiplier` | src/Splash.js:52-67 | the pinned list becomes `RescaleAt` of the old one, and every entry stays an exact snapshot of its record; nothing else changes |
| `SplashComponent.Splash.RemovePinnedRecipe` | src/Splash.js:69-72 | the pinned list becomes `RemoveAt` of the old one; nothing else changes |
| `SplashComponent.Splash.ShoppingList` | src/Splash.js:74-86 | the nested loops return exactly `ShoppingListOf(pinnedRecipes)` and modify nothing, so the pinned recipes are left intact |
| `SplashComponent.AddReagents` | src/Splash.js:77-83 | the inner loop over one recipe's reagents turns the dictionary for `seen` into the dictionary for `seen` followed by those reagents |
| `SplashComponent.AddToDictionary` | src/Splash.js:78-82 | one step adds the amount to an existing key's entry or stores a copy under a new last key; this matches one fold step |
| `SplashComponent.ValuesInOrder` | src/Splash.js:85 | `Object.values` over a dictionary that represents a list gives that list, in key-insertion order |

## Left out

- The JSX rendering, the images, the CSS and the Wowhead links (src/Splash.js:88-203). They are presentation only.
- `Math.round` of the displayed amounts (src/Splash.js:176, 191). It is display only; the model keeps the exact amounts.
- React's scheduling and batching. Each handler is one atomic step. The search effect is folded into `SetSearchTerm` under its dependency rule: it runs only when the term changes.
- Floating-point arithmetic. Amounts are exact `real` numbers, so the drift that repeated `amount / old * new` rescales cause in IEEE doubles is not modelled.
- `parseInt`'s string parsing. The handlers receive what `parseInt` returned, as an optional integer where absent stands for NaN.
- Unicode case mapping. `toLowerCase` is modelled for ASCII letters only.
- JavaScript's ordering of integer-like object keys. Reagent names are assumed to be ordinary strings, so the dictionary's keys keep insertion order.
- Names that every JavaScript object inherits. The lookup `list[reagent.reagentName]` (src/Splash.js:78) also finds inherited members such as `constructor`, `toString` or `__proto__`. A reagent with such a name would be treated as present, and it would never reach `Object.values`. The model assumes no reagent has such a name, so its dictionary holds only the names stored in it.
- UTF-16 length. The check `searchTerm.length > 1` (src/Splash.js:14) counts UTF-16 code units, and the model's `|term|` counts characters. The two differ only for characters outside the Basic Multilingual Plane: a term made of one emoji has JavaScript length 2, so the code filters on it, while the model gives no suggestions.
- The contents of the dataset. It is a given `seq<Recipe>`. Only the fields the logic reads are modelled: `RecipeID`, `WowheadName`, `SpellID`, `reagents`, `reagentName` and `amount`. Other fields would be copied unchanged by every spread.
- The `console.error` call for an unknown id. It is logging only.
- SplashComponent.Splash.UpdatePinnedRecipeMultiplier: the new multiplier is typed as at least 1. The JavaScript function accepts any number, but its only caller (src/Splash.js:169) normalises it first.
- SplashComponent.Splash.PressSearch: with no suggestions the source looks up `undefined`. The model assumes that no dataset record lacks a `RecipeID`, so nothing is found.
- src/Wowhead.py is not part of this model. It is a one-off scraping script over HTTP, HTML parsing and CSV files.
- src/Nav.js is not part of this model. It is static navigation markup.

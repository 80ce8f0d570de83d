# Green Earth catalog and cart: a Dafny model

The Green Earth page is a browser front end for a plant (tree) catalog. It
loads categories and plants from a REST API and draws a category list, a card
grid and a detail modal. It also keeps an in-memory shopping cart with a
running total. This project models the sequential logic inside `app.js` and
proves properties of it:

- **JavaScript values** (`JsValues.dfy`). This module covers the JSON values a
  response can hold, plus `undefined`. It models truthiness, the `||` operator
  (a first-truthy-wins chain), property access and optional chaining (`?.`),
  and the conversions `String(v)` and `Number(v)`. A `Number(...)` result is an
  integer or `NaN`.
- **`normalizePlant`** (`Normalize.dfy`). Every field of the canonical plant
  is the first truthy value among alternate property names, else a fixed
  default. The id can fall back to `String(name)` and then to a random value.
  The price goes through `Number(p.price || 0)`.
- **Catalog** (`Catalog.dfy`). This covers which endpoint `loadTrees` fetches
  and how the plant list, the category list and the detail record are taken
  from a response. It also covers what `renderCards` leaves in the card grid:
  the empty state, one card per plant, or the failure message.
- **Category panel** (`CategoryPanel.dfy`). This is the button list
  `renderCategories` draws: "All Trees" first, then one button per category.
  A button is highlighted exactly when its id is the active id.
- **Cart** (`Cart.dfy`). The cart is a list of lines. `push` appends a line and
  `splice(index, 1)` removes one. `renderCart` draws one line per entry and
  sums the prices in a loop; a falsy price (`0`, `NaN`) adds nothing.
- **Page state** (`App.dfy`). The class `ViewState` holds `state.categories`,
  `state.activeCategoryId` and `state.cart`, plus the three regions drawn
  from them. Its methods are the handlers `init`, `loadCategories`,
  `setActiveCategory`, `loadTrees`, `addToCart`, `removeFromCart` and
  `renderCart`. Its invariant `Valid()` states that the drawn buttons and the
  drawn cart (lines and total) always agree with the state.

Network responses enter as parameters of type `Completion<Value>`. `Throw`
stands for a failed `fetch` or JSON parse. The value of `Math.random()` also
enters as a parameter.

### Behaviour of the code worth knowing

- `Number("abc")` is `NaN`, so a record whose price is `"abc"` gets the price
  `NaN`. Such a line adds 0 to the cart total through `Number(it.price || 0)`.
- A negative numeric price is kept as it is.
- A category button's text is the entry's `category` field.
- The plant list is the first *truthy* of `data`, `plants` and `category`.
  An empty array is truthy, so `{data: [], plants: [...]}` yields no cards.
- `removeFromCart` uses `splice`, so a negative index counts from the end
  (`-1` removes the last line). An index below minus the length removes the
  first line, and an index past the end removes nothing.
- A category whose id is `0` or `""` gets its own button highlighted, yet
  `loadTrees` fetches every plant for it, because the id is falsy.
- A category whose id is `null` is highlighted together with "All Trees".
- `renderCards` on a list holding a `null` entry throws inside
  `normalizePlant`, and the grid shows "Failed to load trees.". A non-empty
  string or an object with a truthy `length` fails the same way, because it
  has no `forEach`. A number, a boolean or an object without a truthy
  `length` shows the empty state.
- Names and descriptions are written into the page as markup. A text field
  holding markup can hide a button. For example, a plant named `"<!--"`
  with description `"-->"` renders as a card, but its cart line swallows
  its remove button. The button lookup then finds nothing, and `renderCart`
  throws before it writes the total, so the displayed total stops updating.
- A JSON object can hold a field named `toString`, but never a function. Such
  an object cannot be converted to text or to a number: `String(...)`,
  `Number(...)`, a template literal and a `textContent` write all throw a
  `TypeError`. An array holding such an object throws the same way. So a
  price like `{"toString": 1}` makes `normalizePlant` throw. A name like it
  makes the card template throw, and the grid shows "Failed to load trees.".
  In the detail modal, the failure texts show. As a category label it makes
  `renderCategories` throw. As a category id, building the URL throws, so
  nothing is fetched and the grid shows the failure message.

## Model

| member | source | states |
|---|---|---|
| `JsValues.Truthy` | app.js:151-156 | `undefined` and `null` are falsy; every array and object, even an empty one, is truthy. |
| `JsValues.Or` | app.js:151-156 | Definition: `a \|\| b` is `a` when `a` is truthy, else `b`. |
| `JsValues.OptGet` | app.js:151 | `v?.key` is `undefined` on `null`/`undefined`. On an object it is the own field or `undefined`. On a number or boolean it is `undefined`. |
| `JsValues.ToStr` | app.js:151 | `String(v)` throws exactly when `v` cannot be converted (an object with its own `toString` field, or an array holding one). `String(s)` of a string is the string itself. `String(n)` of an integer reads back as `n`. `String([])` is empty. |
| `JsValues.StringToNumber` | app.js:156 | `Number` of blank text is 0. A non-`NaN` result comes only from blank text or a signed decimal integer after trimming. |
| `JsValues.ToNumber` | app.js:156 | `Number(v)` throws exactly when `v` cannot be converted. A number converts to itself. `undefined` gives `NaN` and `null` gives 0. A string goes through text conversion, `[]` gives 0 and any convertible plain object gives `NaN`. |
| `JsValues.FalsyConverts` | app.js:151-156 | A falsy value always converts, so a `\|\|` fallback never throws on the value it skips. |
| `JsValues.OwnToStringThrows` | app.js:151-156 | An object with its own `toString` field makes both `String(...)` and `Number(...)` throw. |
| `JsValues.FirstTruthy` | app.js:151-155 | A chain `a \|\| b \|\| … \|\| d` yields the first truthy candidate when there is one, and the fallback exactly when all candidates are falsy. |
| `JsValues.NumberOfDecimalText` | app.js:156 | `Number` applied to the decimal text of an integer gives back that integer. |
| `JsValues.NumberOfLetters` | app.js:156 | `Number` of non-numeric text such as `"abc"` is `NaN`. |
| `Normalize.NormalizePlant` | app.js:149-158 | Normalisation throws exactly when the record is `null` or `undefined`, when the price cannot be converted by `Number`, or when the id falls back to a name that `String` cannot convert. Otherwise the plant's name is never falsy. |
| `Normalize.NormalizedFields` | app.js:150-157 | For a record that normalises, each field is the first truthy of its candidates in the written order: id from `id`, `plantId`, `_id`, `plant_id`, then `String(name \|\| random)`; name from `name`, `title`, else "Unknown Tree"; image, description and category from their two names, else `""`; price is `Number(price \|\| 0)`. |
| `Normalize.IdIgnoresRandomWhenIdentified` | app.js:151 | When any id field or the name is truthy, the whole result, success or throw, does not depend on the random value. |
| `Normalize.IdFromName` | app.js:151 | With every id field falsy and a truthy name, normalisation succeeds exactly when name and price convert, and the id is then `String(name)`. |
| `Normalize.IdFromRandom` | app.js:151 | When every id field and the name are falsy, normalisation succeeds exactly when the price converts, and the id is then the random text. |
| `Normalize.PriceFromNumber` | app.js:156 | A numeric price is kept unchanged in any plant the record normalises to. |
| `Normalize.PriceFromDecimalText` | app.js:156 | A price sent as integer text reads as that integer in any plant the record normalises to. |
| `Normalize.PriceDefaultsToZero` | app.js:156 | An absent or falsy price becomes 0 in any plant the record normalises to. |
| `Normalize.PriceFromLettersIsNaN` | app.js:156 | A price given as letters becomes `NaN`, not 0, in any plant the record normalises to. |
| `Normalize.OwnToStringPriceThrows` | app.js:156 | A price object with its own `toString` field makes normalisation throw even when the record has an id. |
| `Normalize.EmptyRecordDefaults` | app.js:149-158 | The empty record normalises to the random id, "Unknown Tree", three empty texts and price 0. |
| `Cart.ItemOf` | app.js:142 | Definition: the item `{ id, name, price }` that a card's "Add to Cart" button pushes. What it carries is stated by `App.AddButtonPushesNormalizedPlant`. |
| `Cart.LinePrice` | app.js:202 | `Number(it.price \|\| 0)`: a line adds 0 exactly when its price is `NaN` or 0, and otherwise adds its price. |
| `Cart.Total` | app.js:199-202 | A cart whose lines all add 0 totals 0. A one-line cart totals that line's price. |
| `Cart.Splice` | app.js:194 | `splice(index, 1)` removes exactly one line when the cart is non-empty and the index is below its length, and otherwise changes nothing. |
| `Cart.LinesOf` | app.js:201-212 | There is one drawn line per cart entry, with the entry's name and price. Each line's remove button passes the line's own position. |
| `Cart.RenderCart` | app.js:197-216 | The accumulating loop yields exactly the drawn lines and the sum of the line prices. |
| `Cart.SpliceInRange` | app.js:193-196 | `splice(i, 1)` with `0 <= i < length` removes exactly entry `i`: length drops by one, earlier entries stay, later ones shift down, nothing else is lost. |
| `Cart.SpliceNegativeIndex` | app.js:194 | A negative index `-k` removes the `k`-th line from the end. |
| `Cart.SpliceBelowRange` | app.js:194 | On a non-empty cart, an index below minus the length removes the first line. |
| `Cart.SpliceOutOfRange` | app.js:194 | An index at or past the end leaves the cart unchanged. |
| `Cart.RemoveUndoesAdd` | app.js:189-196 | Removing the line just added restores the previous cart. |
| `Cart.TotalAppend` | app.js:199-202 | The total of two concatenated carts is the sum of their totals. |
| `Cart.TotalAfterAdd` | app.js:189-192 | Adding a line raises the total by that line's price; a falsy price adds 0. |
| `Cart.TotalAfterRemove` | app.js:193-196 | Removing line `i` lowers the total by exactly line `i`'s price. |
| `Cart.TotalOfPermutation` | app.js:199-202 | The total depends only on which lines the cart holds, not on their order. |
| `Cart.TotalNonNegative` | app.js:199-202 | With no negative line price, the total is not negative. |
| `Catalog.ChooseEndpoint` | app.js:94 | The per-category endpoint is used exactly when the category id is truthy, and it carries that id; otherwise every plant is fetched. |
| `Catalog.RequestFor` | app.js:94 | Building the request throws, before anything is fetched, exactly when the category id cannot be converted into the URL text. Otherwise the request goes to the chosen endpoint. |
| `Catalog.AllTreesFetchesAllPlants` | app.js:84-94 | Selecting "All Trees" (`null`) requests every plant. |
| `Catalog.FalsyCategoryIdFetchesAllPlants` | app.js:94 | A category id of `0` or `""` also requests every plant. |
| `Catalog.ExtractPlantList` | app.js:98 | The list is the first truthy of `data`, `plants` and `category`, else `[]`. It is never falsy. |
| `Catalog.EmptyDataListWins` | app.js:98 | A present but empty `data` array is the result, whatever `plants` holds. |
| `Catalog.ExtractCategories` | app.js:48 | The categories are `categories` when truthy, else `[]`. |
| `Catalog.ExtractDetail` | app.js:165 | The detail record is the first truthy of `plant` and `data`, else `{}`. It is never falsy. |
| `Catalog.DetailView` | app.js:161-177 | The detail modal shows its data exactly when the detail record normalises and its name, image, description and category convert to text. It then shows the normalised record; otherwise the failure texts show. |
| `Catalog.DetailOfEmptyResponse` | app.js:165-170 | A detail response without `plant` or `data` shows every default. |
| `Catalog.DetailWithOwnToStringNameFails` | app.js:165-174 | A detail record whose name is an object with its own `toString` normalises, but the title write throws and the failure texts show. |
| `Catalog.NormalizeAll` | app.js:116-117 | For a list whose elements all normalise, there is one plant per list element. |
| `Catalog.NormalizeAllElements` | app.js:116-117 | Plant `i` of the grid is the normalisation of list element `i`. |
| `Catalog.CardGridOf` | app.js:108-146 | An array gives the empty state exactly when it is empty. A non-empty array gives the failure message exactly when some element fails to normalise or its card template throws. Otherwise it gives one card per element, in order, each the normalised element, with texts that convert. |
| `Catalog.RenderCards` | app.js:108-146 | The card loop, which stops at the first element that fails, produces exactly the grid described above. |
| `Catalog.NullishEntryFails` | app.js:116-117 | A `null` or `undefined` entry anywhere in the list makes the grid show the failure message. |
| `Catalog.OwnToStringNameFailsGrid` | app.js:117-137 | A plant with an id whose name is an object with its own `toString` normalises, yet its card template throws and the grid shows the failure message. |
| `Catalog.NonArrayListFails` | app.js:108-117 | A non-empty string, or an object with a truthy `length`, as the list shows the failure message. |
| `Catalog.LengthlessListShowsEmptyState` | app.js:108-113 | A number, a boolean, or an object without a truthy `length`, as the list shows the empty state. |
| `Catalog.GridAfterLoad` | app.js:93-104 | A failed fetch or parse shows the failure message. Otherwise the extracted list is rendered. |
| `Catalog.EmptyListShowsEmptyState` | app.js:98-113 | An absent or empty list shows the empty state and no cards. |
| `CategoryPanel.CategoryButtons` | app.js:56-74 | Rendering succeeds exactly when the categories form an array with no `null` entry and every label converts to text. The list is "All Trees" (target `null`) followed by one button per category, in order, labelled `category` and targeting `id`. A button is highlighted exactly when its target equals the active id. |
| `CategoryPanel.BuildCategoryButtons` | app.js:56-74 | The button loop produces exactly that list, or throws as described. |
| `CategoryPanel.OwnToStringLabelFails` | app.js:67-70 | A category whose label is an object with its own `toString` makes rendering throw. |
| `CategoryPanel.ClickedTargetIsLoaded` | app.js:63-71 | Any id a button click selects is `null` or a loaded category id. |
| `CategoryPanel.ExactlyOneHighlighted` | app.js:59-73 | With distinct, non-null ids and an active id that is `null` or loaded, exactly one button is highlighted. |
| `CategoryPanel.AllTreesHighlightsOnlyItself` | app.js:61-69 | Selecting "All Trees" highlights it and no real category, whatever was selected before. |
| `CategoryPanel.UnloadedIdHighlightsNothing` | app.js:61-69 | An active id that is neither `null` nor loaded highlights no button. |
| `App.ViewState.constructor` | app.js:10-14 | The initial state has no categories, "All Trees" selected, an empty cart, and buttons and cart region in agreement with it. |
| `App.ViewState.RenderCategories` | app.js:56-74 | Redrawing makes the panel the button list of the current categories and active id. |
| `App.ViewState.LoadCategories` | app.js:44-53 | A parsed response stores the extracted categories. The buttons are drawn when they can be; any failure shows the failure message. |
| `App.ViewState.LoadTrees` | app.js:88-105 | The request is the one built from the category id. When building it throws, nothing is fetched and the grid shows the failure message. Otherwise the grid is the one the response produces. |
| `App.ViewState.Init` | app.js:38-41 | Start-up stores the extracted categories. It draws their buttons when it can and shows the failure message otherwise, including when the category fetch failed. It then requests every plant, and the plant grid does not depend on how the category load went. |
| `App.ViewState.SetActiveCategory` | app.js:81-85 | The active id becomes the clicked id and the buttons are redrawn for it. That category's trees are requested and loaded, or the grid fails when the id cannot be put into the URL. An id taken from a drawn button keeps the active id `null` or loaded. |
| `App.ViewState.RenderCartRegion` | app.js:197-217 | Redrawing makes the cart lines and total agree with the cart. |
| `App.ViewState.AddToCart` | app.js:189-192 | The item becomes a new last line even when an equal line exists; earlier lines are unchanged. The displayed total rises by the item's price. |
| `App.ViewState.RemoveFromCart` | app.js:193-196 | The cart becomes `splice(index, 1)` of the old cart. For a drawn line's index, exactly one line goes and the displayed total drops by its price. |
| `App.AddButtonPushesNormalizedPlant` | app.js:116-142 | On a grid of cards, the "Add to Cart" button of card `i` pushes the id, name and price of the normalisation of list element `i`. |
| `App.MangoNormalizes` | app.js:149-158 | `{id:"p1", name:"Mango", price:50}` normalises to the Mango plant priced 50. |
| `App.MangoCard` | app.js:93-146 | The response `{data:[that record]}` draws exactly one card, the Mango plant. |
| `App.MangoCart` | app.js:189-216 | The Mango item draws one line, totals 50, and splicing out that line's index empties the cart. |
| `App.MangoSession` | app.js:38-217 | A full session: start-up requests every plant, adding the Mango card shows a total of 50, and removing its line empties the cart. |

## Left out

- Network I/O: `fetch`, `res.json()` and the four API URLs. A response is a
  parameter (`Throw` for a failure), and `Endpoint` names which URL would be
  fetched.
- All DOM work: element creation, `innerHTML`, event listeners, the spinner,
  the CSS classes of `catBtnClass`, and the card markup. Regions are modelled
  by their content only: buttons with text, highlight and target; cards as
  normalised plants; cart lines.
- The detail modal: its show and hide, the exact texts it sets, and the
  request for `/api/plant/{id}`. `DetailView` models which record it shows,
  or that the failure texts show. The id comes from a drawn card, whose id
  has already converted into the card's markup.
- `taka` formatting of amounts as text. The amounts themselves are modelled.
- Asynchronous interleaving: overlapping `loadTrees` calls where the last
  response wins. Each handler runs to completion with its own response.
- `Math.random()`: its text is a parameter, unconstrained.
- Floating point: JSON numbers are integers. `Number(text)` accepts only an
  optional sign and decimal digits, after trimming white space. Fractions,
  exponents, hexadecimal and `Infinity` give `NaN` here.
- White space for `trim`: only ASCII white space, NBSP, BOM, U+2028 and
  U+2029. Other Unicode space separators are not stripped.
- `===` on arrays and objects is reference identity in JavaScript. The model
  compares their contents. Category ids are expected to be primitives.
- Property reads go to own fields and to the `length` of strings and arrays.
  Index properties of strings and arrays, and prototype properties, are not
  modelled. An own field named `toString` or `valueOf` is never callable,
  because JSON holds no functions. So the only conversion failure is the
  `TypeError` of an own `toString` field (`Convertible`). An own `valueOf`
  field leaves the inherited `toString` in charge, and conversion succeeds.
- App.ViewState.AddToCart: `renderCart` writes `${it.name}` into markup, and
  that write can throw for a name that cannot be converted. This is not
  modelled. Items come only from a drawn card, whose name has already been
  converted by the card template.
- `renderCategories` throwing outside `loadCategories` cannot happen:
  `setActiveCategory` is reached only through a drawn button, and the
  categories never change after they load. `App.ViewState.SetActiveCategory`
  therefore requires a drawn button panel.
- Markup inside text fields: the model treats names and descriptions as
  plain text, so it does not capture a field whose markup hides a card's or
  a cart line's button and makes `renderCards` or `renderCart` throw.
- The cart total shown before the first `renderCart` comes from the page
  markup, which is not part of this model. It is modelled as 0.

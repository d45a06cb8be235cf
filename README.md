# LuciferShop storefront bookkeeping, in Dafny

This project models the inventory, cart and order bookkeeping of the
LuciferShop fruit-shop page (`LuciferFruitshop/script.js`). The page keeps
four collections in globals loaded from local storage: `products`, `cart`,
`orders` and `messages`. Its handlers change them in small steps:

- stock badges and the admin low-stock count;
- stock edits, floored at zero;
- add-to-cart with its stock checks, keeping one line per product name;
- the stock checks run when the cart is viewed and when checkout starts;
- the order form's submit handler, which takes stock off, empties the cart
  and appends an order;
- order lookup by e-mail, ignoring case, and the choice between the remote
  lookup and the local one;
- the admin edits: add, edit and delete a product, and set an order's status;
- backup export and import.

Layout:

- `wrappers.dfy`: `Option`.
- `records.dfy`: the records and the first-match lookup by name that
  `find`/`findIndex` perform.
- `catalog.dfy`: stock badges, the low-stock count, and the products built by
  the admin forms.
- `cart.dfy`: add-to-cart as a function, the item count, and the
  stock-shortfall lists.
- `ledger.dfy`: stock after an order, lookup by e-mail, and the tracking
  decision.
- `backup.dfy`: the backup record and the per-key restore rule.
- `store.dfy`: class `Store`. It holds the four collections as `seq` fields,
  and its handlers are methods proved against the functions above.

A product's quantity is stored as text. Every stock computation reads it
through `parseInt(quantity) || 0`; only the admin stock field and the edit
prompt's default show the raw text. The model stores that integer. An entered quantity
arrives as `Option<int>`, the result of parsing the text, where `None` stands
for NaN, a blank field or a cancelled prompt. Nothing checks quantities
entered through the add and edit forms, so stock can be negative. The model
keeps this.

## Behaviour worth noting

- The submit handler empties the cart before it copies the cart into the new
  order (`script.js:751` before `script.js:761`), so every recorded order has
  an empty product list (`Storefront.Store.PlaceOrder`).
- Add-to-cart refuses at any stock `<= 0`, not only at 0 (`Cart.CartAfterAdd`).
- Every negative quantity gets the "low" badge (`Catalog.StockStatusOf`), and
  the dashboard's low-stock count leaves those products out
  (`Catalog.LowBadgesAreLowCountPlusNegatives`).
- An order's status is overwritten with no transition guard, so a completed
  order can be cancelled (`Storefront.StatusScenario`).

## Model

| member | source | states |
|---|---|---|
| `Records.FirstIndex` | LuciferFruitshop/script.js:741 | `findIndex` by name: `None` exactly when no entry has the name; otherwise the position holds the name and no earlier position does |
| `Records.FirstIndexIsUnique` | LuciferFruitshop/script.js:171 | any position holding the name with no earlier occurrence is the one the lookup returns |
| `Records.FirstIndexAppend` | LuciferFruitshop/script.js:182 | after appending one entry, the lookup finds the earlier match if there is one, else the new entry if it matches, else nothing |
| `Catalog.StockStatusOf` | LuciferFruitshop/script.js:118-123 | "out" exactly at 0, "good" exactly above 5, "low" exactly for negatives and 1..5 |
| `Catalog.LowStockCount` | LuciferFruitshop/script.js:494-500 | the dashboard count never exceeds the number of products |
| `Catalog.LowBadgesAreLowCountPlusNegatives` | LuciferFruitshop/script.js:494-500 | number of "low" badges = dashboard low-stock count + number of products with negative stock |
| `Catalog.LowCountMatchesBadgesWithoutNegatives` | LuciferFruitshop/script.js:494-500 | with no negative stock, the dashboard count equals the number of "low" badges |
| `Catalog.ClampedStock` | LuciferFruitshop/script.js:111 | the stored stock is never negative; a positive entry is kept; it is 0 exactly when the entry is non-numeric or not positive |
| `Catalog.NewProduct` | LuciferFruitshop/script.js:589-600 | a product exists exactly when name, image and price are non-empty; it carries them, the parsed quantity (0 when blank), and the entered description, or "No description" when it was left blank |
| `Catalog.EditedProduct` | LuciferFruitshop/script.js:629-647 | a replacement exists exactly when name and price were given and non-empty; it keeps the old image and stores quantity and description as entered |
| `Cart.CartAfterAdd` | LuciferFruitshop/script.js:161-190 | refused exactly when stock <= 0 or the existing line already holds the whole stock; the error is "out of stock" at stock <= 0, else "only <stock> in stock" |
| `Cart.NewLine` | LuciferFruitshop/script.js:182-187 | a pushed line carries the product's name, price and image with quantity 1 |
| `Cart.CartCount` | LuciferFruitshop/script.js:198 | with every line quantity at least 1, the item count is at least the number of lines |
| `Cart.CartCountAppend` | LuciferFruitshop/script.js:198 | appending a line adds its quantity to the item count |
| `Cart.CartCountUpdate` | LuciferFruitshop/script.js:198 | changing one line's quantity changes the count by the difference |
| `Cart.AddCountsOneItem` | LuciferFruitshop/script.js:175-188 | every accepted add raises the item count by exactly 1 |
| `Cart.AddKeepsOneLinePerName` | LuciferFruitshop/script.js:171-188 | an accepted add keeps the cart at one line per product name |
| `Cart.AddStaysWithinStock` | LuciferFruitshop/script.js:165-188 | after an accepted add the product's line is the old line with quantity plus 1, or the one line appended, carrying the product's name, price and image with quantity 1; it holds at most the stock; no other line changes and no other line is added |
| `Cart.AddToOwnLastLine` | LuciferFruitshop/script.js:171-180 | when the product's line holds q, the next add gives q+1 if q+1 <= stock and is refused with "only <stock>" otherwise |
| `Cart.RepeatedAdds` | LuciferFruitshop/script.js:161-188 | from a cart with no line for the product, n adds with stock >= n give exactly one new line of quantity n |
| `Cart.RepeatedAddsStopAtStock` | LuciferFruitshop/script.js:173-179 | with stock n, the (n+1)th add is refused with "only n in stock" |
| `Cart.NoIssuesIffNothingShort` | LuciferFruitshop/script.js:284-297 | the shortfall list is empty exactly when no line asks for more than the stock it is checked against |
| `Cart.CheckoutPassesWhenCartViewPasses` | LuciferFruitshop/script.js:225-235 | a cart the cart view finds no shortfall in also passes checkout's check (script.js:284-292) |
| `Cart.StockIssues` | LuciferFruitshop/script.js:284-292 | the shortfall list has at most one entry per cart line (with `Cart.NoIssuesIffNothingShort`: empty exactly when no line is short) |
| `Cart.StockIssuesContents` | LuciferFruitshop/script.js:284-292 | every entry is the name, checked stock and cart quantity of some short line, and every short line has its entry (checkout's list, and the cart view's at script.js:232-234) |
| `Cart.MissingProductFlaggedOnlyByCartView` | LuciferFruitshop/script.js:225-226 | a line for a product that is gone is flagged by the cart view (stock 0) and not by checkout (script.js:285-286) |
| `Cart.Available` | LuciferFruitshop/script.js:225-226 | a line is checked against the first product of its name; a product that is gone gives stock 0 in the cart view and no check at checkout (script.js:285-287) |
| `Cart.Short` | LuciferFruitshop/script.js:227 | a line is short exactly when its product's stock is below its quantity (also script.js:288 at checkout), or, for a product that is gone, in the cart view whenever its quantity is positive |
| `Ledger.StockAfterOrderKeepsCatalog` | LuciferFruitshop/script.js:740-747 | placing an order keeps every product and its position; only quantities change |
| `Ledger.Depleted` | LuciferFruitshop/script.js:741-746 | one pass of the submit loop keeps every product and its position, changes only quantities, and changes nothing when no product has the line's name |
| `Ledger.StockAfterOrder` | LuciferFruitshop/script.js:740-747 | the submit loop over the whole cart keeps the number of products |
| `Ledger.DepletedAt` | LuciferFruitshop/script.js:741-746 | one pass of the loop changes only the first product named like the line, to max(0, stock - quantity) |
| `Ledger.StockAfterOrderAt` | LuciferFruitshop/script.js:740-747 | with one line per name: the first product of an ordered name gets max(0, stock - ordered); every other product is unchanged |
| `Ledger.OrderWithinStockIsExact` | LuciferFruitshop/script.js:740-747 | after a passed checkout check, the first product of each ordered name loses exactly the ordered quantity |
| `Ledger.Lower` | LuciferFruitshop/script.js:367 | lower-casing keeps the length and leaves no upper-case letter |
| `Ledger.LowerOfUpper` | LuciferFruitshop/script.js:367 | upper-casing first does not change the lower-cased text |
| `Ledger.FindByEmail` | LuciferFruitshop/script.js:365-368 | every order found is a ledger order whose e-mail equals the query ignoring case |
| `Ledger.FindByEmailFindsAll` | LuciferFruitshop/script.js:366-368 | every ledger order whose e-mail equals the query ignoring case is found |
| `Ledger.FindByEmailConcat` | LuciferFruitshop/script.js:366-368 | the lookup over two ledgers joined is the two lookups joined, so ledger order is kept |
| `Ledger.FindByEmailIgnoresCase` | LuciferFruitshop/script.js:366-368 | queries that agree ignoring case, and the upper-cased query, find the same orders |
| `Ledger.FindByEmailSameKey` | LuciferFruitshop/script.js:367 | queries with the same lower-cased text find the same orders |
| `Ledger.PlacedOrderIsFound` | LuciferFruitshop/script.js:756-766 | an order just appended is the last one found for any case variant of its e-mail |
| `Ledger.TrackOrder` | LuciferFruitshop/script.js:325-362 | an empty e-mail is refused; the remote list is shown exactly when the response was ok and the list is present and non-empty; otherwise the local lookup is shown |
| `Storefront.Store.Load` | LuciferFruitshop/script.js:2-5 | each collection is the stored one, or empty when nothing was stored |
| `Storefront.Store.UpdateProductStock` | LuciferFruitshop/script.js:110-112 | only product i's quantity changes, to the clamped entry, which is never negative |
| `Storefront.Store.AddToCart` | LuciferFruitshop/script.js:161-190 | the cart becomes the accepted cart or stays unchanged with the refusal returned; accepted adds raise the count by 1 and keep one line per name |
| `Storefront.Store.FindStockIssues` | LuciferFruitshop/script.js:284-292 | the loop's list is exactly one issue per short line, in cart order |
| `Storefront.Store.OpenCart` | LuciferFruitshop/script.js:212-235 | warnings for lines whose stock (0 when the product is gone) is below their quantity; none exactly when no line is short; none implies checkout passes |
| `Storefront.Store.Checkout` | LuciferFruitshop/script.js:275-297 | empty cart refused; proceeds exactly when the cart is non-empty and no line with an existing product exceeds its stock; otherwise lists the shortfalls |
| `Storefront.Store.PlaceOrder` | LuciferFruitshop/script.js:739-767 | stock after the loop over the cart, empty cart, exactly one appended order with status processing and an empty product list; messages unchanged |
| `Storefront.Store.UpdateOrderStatus` | LuciferFruitshop/script.js:575-577 | only order i's status changes, with no transition guard |
| `Storefront.Store.AddProduct` | LuciferFruitshop/script.js:582-600 | exactly one product appended when name, image and price are filled in; otherwise no change |
| `Storefront.Store.DeleteProduct` | LuciferFruitshop/script.js:618-620 | after confirmation product i is removed and later ones shift down; otherwise, or past the end, no change |
| `Storefront.Store.EditProduct` | LuciferFruitshop/script.js:628-647 | only product i is replaced, keeping its image, when name and price are given; otherwise no change |
| `Storefront.Store.Export` | LuciferFruitshop/script.js:657-663 | the export carries its date and all three collections, so importing it restores them whatever the current ones are |
| `Storefront.Store.ImportData` | LuciferFruitshop/script.js:684-702 | no change on a parse failure or a declined confirmation; otherwise each present key replaces its collection; the cart is never touched |
| `Backup.Restored` | LuciferFruitshop/script.js:687-689 | a key present in the document (an empty list included) replaces the collection; an absent key keeps the current one |
| `Storefront.BackupRoundTrip` | LuciferFruitshop/script.js:657-693 | export, then a delete and a status change, then import of that export: products, orders and messages are back, the cart is unchanged |
| `Storefront.MangoAdds` | LuciferFruitshop/script.js:161-190 | from an empty cart with 3 mangos in stock, three adds are accepted, leaving one line of quantity 3, and the fourth is refused with "only 3 in stock" |
| `Storefront.MangoScenario` | LuciferFruitshop/script.js:161-190 | with stock 3, three adds are accepted, the fourth is refused with "only 3 in stock", and placing the order leaves stock 0 and an empty cart |
| `Storefront.StatusScenario` | LuciferFruitshop/script.js:575-577 | an order set to completed can then be set to cancelled |

## Left out

- All DOM rendering, modals, drag-and-drop and image file reading: presentation only.
- Persistence: `saveToStorage` and its quota-error alert are I/O. Every write
  is treated as succeeding, so a write failing partway through a handler is
  not modelled. Loading is the `Store.Load` constructor, with the stored
  arrays as inputs.
- `alert`, `confirm` and `prompt`: confirmations and prompt answers are method
  inputs, and refusals are returned values. The admin password check is not
  modelled.
- The `fetch` call in `trackOrder` is network I/O. Its outcome is the input
  `FetchOutcome`. The two serverless handlers are not part of this model.
- Price arithmetic (`parseFloat`, `toFixed`, cart and order totals) is
  floating point. An order's total is a `real` input.
- `Date.now()`, `toISOString` and `toLocaleString`: order ids and dates are
  parameters.
- Parsing and formatting of quantities: `parseInt`'s reading of text
  (whitespace, signs, hex prefixes, trailing garbage) and `toString` are not
  modelled. A stored quantity is the integer `parseInt(..) || 0` reads back,
  and entered text arrives already parsed.
- JSON text: the export's serialization and the import's `JSON.parse` are
  I/O. The import receives the parsed document or `None` for a parse
  failure. A document that parses to `null` throws after confirmation and
  changes nothing, so it is also `None`. Values of the wrong type under a
  key are not representable.
- The submit listener's check that the form is the order form: other forms
  change no state.
- Order statuses other than the three the page writes (an imported order
  could carry any string) are not representable.
- `Ledger.Lower`: only ASCII letters are case-folded, while `toLowerCase`
  folds all of Unicode.

# Chef Food cart, modelled in Dafny

This project models the shopping cart of the Chef Food storefront script
(`js/script.js`). The cart is an ordered list of line items
`{id, title, price, qty}` kept in one local-storage slot under the key
`cheffood_cart_v1`. `addToCart` and `updateQuantity` read the slot, change
the list and write the slot back; `updateQuantity` skips the write for an
unknown id. `getCart` and the badge and total views only read the slot, and
`saveCart` only writes it.

- `cart.dfy`, module `Cart`: the cart as a value. It defines the line item,
  the badge count and the total (one left-to-right sum, as `reduce` and
  `forEach` accumulate it), the lookup by id (`findIndex`), the reading of a
  quantity button's `data-action` value (`"increase"`, `"decrease"`,
  anything else), and the two transitions `Add` (adding a product) and
  `Update` (a quantity button). It also holds the lemmas about them:
  - the cart invariant (unique ids, every quantity at least 1) is preserved;
  - every add raises the count by 1 and the total by the line's unit price;
  - on a cart with no line below quantity 1, each press moves the count by 1
    and the total by the line's price, up or down;
  - repeated adds and repeated decreases end where they should;
  - the total does not depend on the order in which two different products
    are added, and swapping two neighbouring adds of different products
    anywhere in a run of adds leaves the final total unchanged.
- `store.dfy`, module `CartStorage`: the slot (`Absent`, `Corrupt` or
  `Stored(items)`) and the class `Store`, whose methods are the script's
  `getCart`, `saveCart`, `addToCart`, `updateQuantity`, the badge count of
  `updateCartCount` and the total loop of `renderCartItems`. `GetCart`,
  `CartCount` and `CartTotal` only read the slot and `SaveCart` only writes
  it. `AddToCart` and `UpdateQuantity` read the slot, build the new list step
  by step and write it back, except that `UpdateQuantity` returns without
  writing for an id that is not in the cart. Their `ensures` tie the new
  slot to `Add`/`Update` of the old cart and state how the count, the total
  and the invariant change. Module `CartScenarios` holds client
  sessions checked from the store's contracts and the cart lemmas: a save
  followed by a read, a corrupt slot, adding pizza once and twice, and
  removing the only pizza from a cart that also holds a salad.

Prices are integers in minor currency units, so totals are exact. Nothing
validates a price, so it may be negative, as in the script.

Details of the script that the model keeps:

- For an id that is not in the cart, `updateQuantity` returns before saving
  (js/script.js:94). The slot is left exactly as it was, even if it was corrupt.
- For a known id and an action other than `increase` or `decrease`,
  `updateQuantity` still rewrites the slot with the unchanged list
  (js/script.js:103).
- The action is the button's `data-action` value: `increase`, `decrease` or
  anything else (js/script.js:84, js/script.js:95-97).
- `addToCart` returns nothing and shows a notification (js/script.js:31). The
  model returns the notification text instead of showing it.

## Model

| member | source | states |
|---|---|---|
| `CartStorage.Load` | js/script.js:6-12 | the cart a slot stands for: the stored list, or the empty cart for an absent or undecodable slot; `GetCart` is proved to return it |
| `CartStorage.Store.GetCart` | js/script.js:5-13 | an absent or undecodable slot reads as the empty cart, never as a failure; a stored list reads back as exactly that list |
| `CartStorage.Store.SaveCart` | js/script.js:16-18 | the slot is overwritten with the given cart, so the next read returns it unchanged and in the same order |
| `CartStorage.Store.AddToCart` | js/script.js:21-32 | the new slot is `Add` of the old cart; the badge count rises by 1, the total by the line's unit price, the invariant is kept, and the notification reads `Added "<title>" to cart` |
| `CartStorage.Store.UpdateQuantity` | js/script.js:91-106 | an unknown id leaves the slot untouched and unsaved; a known id saves `Update` of the old cart; on a cart without empty lines the count moves by the action's step and the total by that step times the line's price; the invariant is kept |
| `CartStorage.Store.CartCount` | js/script.js:35-37 | the badge number is the sum of all quantities, and on a cart without empty lines it is 0 exactly when the cart is empty |
| `CartStorage.Store.CartTotal` | js/script.js:50-65 | the loop accumulates exactly the sum of `qty * price` over the lines, and an empty cart totals 0 |
| `Cart.Count` | js/script.js:37 | the badge number, defined as the left-to-right sum of the quantities starting from 0; its properties are stated by `CountPositive`, `AddCount`, `AddTimesCount` and `UpdateCount` |
| `Cart.Total` | js/script.js:61-65 | the cart total, defined as the left-to-right sum of `qty * price` starting from 0; its properties are stated by `AddTotal`, `UpdateTotal`, `AddCommutes` and `CartTotal` |
| `Cart.Add` | js/script.js:23-28 | the cart grows by exactly one line when the id is new and keeps its length when it is known; the full effect is stated by `AddEffect` |
| `Cart.Update` | js/script.js:93-102 | the quantity-button transition on a list; its effect is stated by `UpdateEffect`, `UpdateCount`, `UpdateTotal` and `UpdateWellFormed` |
| `Cart.IndexOf` | js/script.js:23 | the result is -1 exactly when no line has the id; otherwise it is the position of the first line that has it |
| `Cart.ParseAction` | js/script.js:84-97 | a button's `data-action` value means "increase" exactly when it is `increase`, "decrease" exactly when it is `decrease`, and nothing otherwise |
| `Cart.AddEffect` | js/script.js:21-28 | a known id gets its quantity raised by 1, with title, price, every other line and the order unchanged; a new id is appended at the end as `{id, title, price, qty: 1}` with the earlier lines untouched |
| `Cart.UpdateEffect` | js/script.js:91-102 | an unknown id or another action changes nothing; `increase` raises only that line by 1; `decrease` lowers only that line by 1, or, when its quantity was at most 1, removes it and keeps the others in order |
| `Cart.CountPositive` | js/script.js:37-45 | on a cart without empty lines the badge count is at least the number of lines, and it is 0 (badge hidden) exactly when the cart is empty |
| `Cart.AddCount` | js/script.js:21-37 | every add raises the badge count by exactly 1 |
| `Cart.AddTotal` | js/script.js:21-28 | every add raises the total by one unit price: the stored price of a known id, the offered price of a new one |
| `Cart.AddWellFormed` | js/script.js:23-28 | adding keeps the ids unique and every quantity at least 1 |
| `Cart.AddContains` | js/script.js:23-28 | after an add the cart holds exactly the ids it held before plus the added id |
| `Cart.AddKeepsIndex` | js/script.js:23-28 | adding one id does not move the line of any other id |
| `Cart.UnitPriceAfterAdd` | js/script.js:23-28 | adding one id does not change the unit price that a later add of another id contributes |
| `Cart.UnitPriceAfterSameAdd` | js/script.js:23-28 | after an add of an id, a later add of that id contributes the price the first add stored, or the one stored before it |
| `Cart.AddKeepsSame` | js/script.js:21-28 | an add keeps two carts with the same total and the same unit price for every id in that relation |
| `Cart.AddAllKeepsSame` | js/script.js:21-28 | so does any run of adds, applied to both carts in the same order |
| `Cart.AddAllConcat` | js/script.js:21-28 | a run of adds split in two is the first part followed by the second |
| `Cart.SwapSame` | js/script.js:21-28 | adding two different products in either order gives carts with the same total and the same unit price for every id |
| `Cart.SwapInRun` | js/script.js:21-28 | swapping two neighbouring adds of different products anywhere in a run of adds leaves the final total unchanged |
| `Cart.AddCommutes` | js/script.js:21-28 | adding two different products in either order gives the same total and the same badge count |
| `Cart.RepeatedAdd` | js/script.js:21-28 | n adds of a new id give one line for it, at the end, with quantity n and the offered title and price, and leave the earlier lines untouched |
| `Cart.AddTimesCount` | js/script.js:21-37 | n adds of the same product raise the badge count by n, whatever the cart held before |
| `Cart.UpdateCount` | js/script.js:91-102 | on a cart without empty lines a press moves the count by +1 for `increase`, by -1 for `decrease` (decrement or removal), and not at all for other actions or unknown ids |
| `Cart.UpdateTotal` | js/script.js:91-102 | on such a cart a press moves the total by the line's price times the action's step: up for `increase`, down for `decrease`, not at all for other actions or unknown ids |
| `Cart.UpdateWellFormed` | js/script.js:93-101 | every press keeps the ids unique and every quantity at least 1 |
| `Cart.DecreaseLastRemoves` | js/script.js:97-101 | decreasing a line of quantity 1 removes its id from a well-formed cart and shortens it by one line |
| `Cart.DecreaseTimesBefore` | js/script.js:97-101 | fewer presses of `decrease` than the quantity leave the line in place with that many fewer and change nothing else |
| `Cart.DecreaseToLast` | js/script.js:97-101 | one press short of the quantity, the line is still at its position with quantity 1 and the cart is still well formed |
| `Cart.RepeatedDecrease` | js/script.js:91-101 | pressing `decrease` as many times as the line's quantity takes out exactly that line, keeping every other line in its order, so the id is gone and a further press changes nothing |
| `Cart.QuantityChangeKeepsWellFormed` | js/script.js:96-98 | changing one quantity while keeping it at least 1 keeps the cart well formed and every id at its position |

## Left out

- DOM work: badge visibility and text, the cart table rows, the empty-cart message and the button listeners. This is presentation with no state of its own; the numbers they show are modelled by `CartCount` and `CartTotal`.
- The toast element and its 2.5-second timer. Only the message text is modelled, as the result of `AddToCart`.
- The theme toggle, the theme loaded at start, the mobile navigation toggle and the product search. They are separate UI features that share no state with the cart.
- JSON text encoding and decoding. The slot is abstract: a stored list decodes to exactly itself, and any text that fails to parse is `Corrupt`. The model also does not cover stored JSON that parses but is not a list of items.
- Floating-point numbers: the `Number(price)` coercion, NaN, and `toFixed(2)` rounding. Prices are integers in minor units. Quantities, the badge sum and the total are JavaScript numbers, exact only up to 2^53; the model treats them as unbounded integers.
- Storage access errors: `getItem` (js/script.js:6, outside the `try`) and `setItem` (js/script.js:17) may throw, for example when storage is disabled or full, and `addToCart` and `updateQuantity` would then stop before the badge refresh, the re-render and the notification. The model's slot is always readable and writable.
- Cart.SwapInRun: proves one swap of neighbouring adds of different products. That any reordering of a run of adds with distinct ids is a chain of such swaps, and so keeps the total, is not proved as one lemma.
- Several tabs writing the slot at the same time, where the last write wins. Each method here runs as one atomic read-modify-write.
- The refreshes after saving: `addToCart` refreshes the badge (js/script.js:30), and `updateQuantity` refreshes the badge and re-renders the table (js/script.js:104-105). This is covered by the DOM item above.

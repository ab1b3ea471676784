# Cart and session-user stores — a Dafny model

This project models the two client-side state stores of a small e-commerce front end.

- **The cart store** (`front/src/stores/cart.ts`) keeps an ordered list of line items keyed by product id. Each line holds an id, name, unit price, image URL and quantity. There are three actions:
  - `addProduct` bumps the quantity of the first line with the product's id. If there is no such line, it appends a new line with quantity 1 and the supplied price, or 0 when no price is given.
  - `removeProduct` decrements the first matching line. At the last unit it filters out every line with that id. An absent id changes nothing.
  - `clearCart` empties the list.

  Two aggregates are recomputed from the items: `itemCount` (the sum of the quantities) and `totalPrice` (the sum of price × quantity).
- **The auth store** (`front/src/stores/auth.ts`) keeps the logged-in user, or none, and a flag `isAuthenticated`. It has two actions, `setUser` and `clearUser`.

Files:
- `wrappers.dfy` (module `Wrappers`): `Option`. It stands for a value that may be `null` or `undefined`: a missing price, or no user.
- `cart.dfy` (module `Cart`) contains:
  - the value types `CartItem` and `Product`;
  - the invariants `UniqueIds`, `PositiveQuantities` and `WellFormed`;
  - the folds `ItemCount` and `TotalPrice`, which recurse on the last item, as `reduce` folds from the left;
  - `Find` (`Array.prototype.find`) and `Without` (`Array.prototype.filter`);
  - the functions `Added` and `Removed`, which give the items after each action, and the lemmas about them;
  - the class `CartStore`, whose one field `items: seq<CartItem>` the actions reassign.
- `auth.dfy` (module `Auth`): the `User` record and the class `AuthStore`. Its fields `user: Option<User>` and `isAuthenticated: bool` are coupled by `Valid()`.

The cart actions do not require `Valid()`. The store exports its `items` reference, and callers can write to it, so the code has no guarantee that the cart is well formed. Each action instead ensures `old(Valid()) ==> Valid()`. Its effect on `items` is given exactly, for every prior state.

## Model

| member | source | states |
|---|---|---|
| Cart.ItemCount | front/src/stores/cart.ts:17-19 | The empty cart counts 0. When every quantity is at least 1, the count is at least the number of lines. |
| Cart.TotalPrice | front/src/stores/cart.ts:22-24 | The empty cart totals 0. Non-negative prices and quantities give a non-negative total. |
| Cart.ItemCountConcat | front/src/stores/cart.ts:18 | The item count of two concatenated lists is the sum of their counts. |
| Cart.TotalPriceConcat | front/src/stores/cart.ts:23 | The total price of two concatenated lists is the sum of their totals. |
| Cart.ReplaceLine | front/src/stores/cart.ts:17-24 | Replacing one line changes each aggregate by the new line's contribution minus the old one's. |
| Cart.LineTotalStep | front/src/stores/cart.ts:23 | One more unit on a line adds exactly one unit price to that line's total. |
| Cart.DeleteLineCount | front/src/stores/cart.ts:18 | Deleting a line takes exactly its quantity off the item count. |
| Cart.DeleteLinePrice | front/src/stores/cart.ts:23 | Deleting a line takes exactly its price × quantity off the total. |
| Cart.DeleteKeepsWellFormed | front/src/stores/cart.ts:53 | Deleting one line from a well-formed cart leaves it well formed. |
| Cart.Find | front/src/stores/cart.ts:28 | The result is the index of the first line with the id. It is None exactly when no line has the id. |
| Cart.Without | front/src/stores/cart.ts:53 | An item is in the result exactly when it is in the input and has a different id. The result is never longer than the input. Order and multiplicity are stated by `Cart.WithoutConcat`. |
| Cart.WithoutConcat | front/src/stores/cart.ts:53 | Filtering a concatenation is filtering each part and concatenating. So kept lines keep their order, and a repeated line is kept as often as it occurs. |
| Cart.WithoutAbsent | front/src/stores/cart.ts:53 | Filtering out an id that no line carries returns the list unchanged. |
| Cart.WithoutUnique | front/src/stores/cart.ts:53 | When ids are unique, filtering out line i's id deletes exactly line i and keeps the rest in order. |
| Cart.NewLine | front/src/stores/cart.ts:31-42 | The pushed line carries the product's id, name and image URL, with quantity 1. Its price is the supplied price, or 0 when none is supplied. |
| Cart.NewLineTotal | front/src/stores/cart.ts:23 | A freshly pushed line contributes its unit price to the total, or 0 when no price was supplied. |
| Cart.Added | front/src/stores/cart.ts:27-44 | The items after `addProduct`. The length is unchanged when the id is already present, and one more when it is not. |
| Cart.Removed | front/src/stores/cart.ts:47-56 | The items after `removeProduct`. They are never longer than before, and they are unchanged when no line has the id. |
| Cart.AddRepeat | front/src/stores/cart.ts:28-34 | A repeat add raises the first matching line's quantity by 1. That line keeps its id, name, price and image from the first add. Every other line is unchanged and the length is the same. |
| Cart.AddFresh | front/src/stores/cart.ts:31-42 | Adding an absent id keeps every earlier line in order and appends one line at the end. The new line has quantity 1 and the supplied price, or 0 when none is supplied. |
| Cart.AddKeepsWellFormed | front/src/stores/cart.ts:27-44 | Adding keeps ids unique and every quantity at least 1. |
| Cart.AddItemCount | front/src/stores/cart.ts:27-44 | Every add raises the item count by exactly 1, whatever the prior state. |
| Cart.AddTotalPrice | front/src/stores/cart.ts:27-44 | Every add raises the total by the stored price of the affected line. For a repeat add that is the price from the first add, not the newly passed one. For a new line it is the supplied price, or 0. |
| Cart.RemoveAbsent | front/src/stores/cart.ts:47-49 | Removing an id that no line carries leaves the items unchanged. |
| Cart.RemoveDecrement | front/src/stores/cart.ts:48-51 | When the first matching line has quantity above 1, that line is decremented by 1 in place. Every other line is unchanged. |
| Cart.RemoveLastUnit | front/src/stores/cart.ts:52-53 | With unique ids, removing a line at quantity 1 deletes that line. The others keep their relative order. |
| Cart.RemoveKeepsWellFormed | front/src/stores/cart.ts:47-56 | Removing keeps ids unique and every quantity at least 1. |
| Cart.RemoveAggregates | front/src/stores/cart.ts:47-56 | In a well-formed cart, removing a present id lowers the item count by exactly 1. It lowers the total by that line's unit price. |
| Cart.AddThenRemove | front/src/stores/cart.ts:36-53 | Adding a product not in the cart and then removing it restores the original items. |
| Cart.CartStore.constructor | front/src/stores/cart.ts:14 | The cart starts empty and well formed. |
| Cart.CartStore.AddProduct | front/src/stores/cart.ts:27-44 | The new items are `Added(old items, product)`. The item count rises by 1 and the total rises by the affected line's stored price. Well-formedness is preserved. |
| Cart.CartStore.RemoveProduct | front/src/stores/cart.ts:47-56 | The new items are `Removed(old items, id)`. Well-formedness is preserved. In a well-formed cart, removing a present id lowers the item count by 1. |
| Cart.CartStore.ClearCart | front/src/stores/cart.ts:59-61 | From any state, the items become empty and the item count and total become 0. |
| Auth.AuthStore.constructor | front/src/stores/auth.ts:15-17 | The store starts with no user and `isAuthenticated` false, so the coupling invariant holds. |
| Auth.AuthStore.SetUser | front/src/stores/auth.ts:20-23 | Stores exactly the given value. `isAuthenticated` becomes true exactly when a user is given. The coupling invariant holds afterwards. |
| Auth.AuthStore.ClearUser | front/src/stores/auth.ts:26-29 | From any state, the user becomes none and `isAuthenticated` becomes false. The coupling invariant holds afterwards. |
| Auth.ClearMatchesSetNull | front/src/stores/auth.ts:20-29 | `clearUser` leaves the same user and flag as `setUser(null)`. |

## Left out

- Pinia's `defineStore` and Vue's `ref`/`computed` reactivity are not modelled, and neither is the caching of computed values. Each store is a plain class, and `itemCount`/`totalPrice` are functions of `items` computed on demand.
- `front/src/main.ts` is application bootstrap only (`createApp`, `createPinia`, `app.use`, `app.mount`). It is not part of this model.
- Prices are not floating point. A price is an integer (cents), so `totalPrice` is exact, and IEEE rounding is not modelled. Quantities are unbounded integers, so the loss of precision above 2^53 is not modelled either.
- Object identity is not modelled. `existingItem.quantity++` mutates an object that other holders of the same reference also see. The model updates the line at the index found by `Find`.
- Writes to the exported `items` reference from outside the store are not modelled. This is why the actions do not assume `Valid()`.
- `!!userData` is modelled for `null` and for a user object only. Other falsy values that the type does not allow are not modelled.
- Ids are integers. In the source an id is a `number` compared with `===`, and `NaN === NaN` is false. So each `addProduct` with a `NaN` id appends a new line, and `removeProduct(NaN)` changes nothing. The model has no `NaN` id, so it does not capture this.
- Array identity is not modelled. `push` grows the exported array in place, while the last-unit `filter` and `clearCart` install a new array. Code that kept a reference to the old array sees later adds but not those removals or clears. The model has only the current value of `items`.
- Cart.CartStore.RemoveProduct: the fall in the item count is stated only for a well-formed cart. Without unique ids, the filter may remove several lines, and a line with quantity at most 0 is dropped rather than decremented.

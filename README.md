# Cart hook of the RocketShoes storefront, modelled in Dafny

The storefront keeps the shopper's cart in a React provider
(`src/hooks/useCart.tsx`). The cart is an ordered list of entries, each a
product id with an amount and the product's display fields. Three
operations change it:

- `addProduct(productId)` reads the product's stock. It refuses when the
  stock is below one. A product already in the cart gets one more unit
  while its amount is below the stock. A new product is fetched and
  appended with amount 1.
- `removeProduct(productId)` drops the product's entry. It fails when the
  product is not in the cart.
- `updateProductAmount({productId, amount})` ignores a non-positive amount.
  Otherwise it reads the stock, refuses an amount above it, and sets the
  entry's amount to exactly `amount`. It fails when the product is not in
  the cart and never creates an entry.

Each success replaces the cart and writes the whole new cart to the
browser's storage slot `@RocketShoes:cart`. A failure shows a notification
and changes nothing, provided the storage write itself succeeds (see
"Left out"). The cart a page load starts from is the stored one,
or the empty cart.

`use_cart.dfy` (module `UseCart`) holds the model:

- `Bump`, `Assigned` and `Without` are the `map`/`filter` expressions that
  build the new list.
- `Add`, `Remove` and `Update` are the three operations as transitions.
  Each returns a `Step`: a `Status` and the resulting cart.
- `Message` maps a status to the notification text the source shows.
- The class `CartStore` holds `cart` and `persisted`, the stored slot
  (`None` while nothing was written). Its methods apply a transition and
  overwrite `persisted` on success only. Its invariant `Valid()` says that
  a page reload now would restore exactly the current cart; this rests on
  every storage write succeeding.

Inputs that the source fetches are parameters. `stock: Fetch<int>` is the
answer of `GET stock/:id`: a number, or `Failed` when the request is
rejected. `product: Fetch<P>` is the answer of `GET products/:id`, where the
display record is the opaque type parameter `P`.

The cart invariants are `Unique` (no id twice) and `Positive` (every
amount at least 1), together `WellFormed`. The restored snapshot is not
checked by the source, so the model does not assume it. Every operation
instead keeps a well-formed cart well formed.

## Model

| member | source | states |
|---|---|---|
| `UseCart.Bump` | src/hooks/useCart.tsx:47-57 | The increment map succeeds exactly when every entry of the product is below the stock; then the list has the same length and each entry of the product has one more unit, all others unchanged. |
| `UseCart.Assigned` | src/hooks/useCart.tsx:108-114 | Same length; each entry of the product gets exactly the new amount, every other entry is unchanged. |
| `UseCart.Without` | src/hooks/useCart.tsx:86 | The filter leaves no entry of the product, keeps only entries of the cart, keeps every entry of another product, and shrinks the list when the product was present. |
| `UseCart.WithoutSingle` | src/hooks/useCart.tsx:86 | A single entry survives the filter exactly when its id differs from the removed one. |
| `UseCart.WithoutConcat` | src/hooks/useCart.tsx:86 | For every cart, with or without repeated ids: filtering a concatenation is the concatenation of the filtered parts, so the filter keeps the surviving entries in their order and with their repetitions. |
| `UseCart.WithoutAt` | src/hooks/useCart.tsx:86 | In a cart without repeated ids, filtering out the id at index k gives the cart with exactly index k cut out, the rest in order. |
| `UseCart.WithoutAbsent` | src/hooks/useCart.tsx:86 | Filtering out an id no entry carries gives back the same cart. |
| `UseCart.RemoveWellFormed` | src/hooks/useCart.tsx:86 | Filtering a product out of a well-formed cart leaves it well formed. |
| `UseCart.DropWellFormed` | src/hooks/useCart.tsx:86 | Cutting one entry out of a well-formed cart leaves it well formed. |
| `UseCart.Has` | src/hooks/useCart.tsx:44 | The `cart.some` scan (also lines 82 and 105) is true exactly when some entry carries the id. |
| `UseCart.Incremented` | src/hooks/useCart.tsx:48-50 | The callback keeps an entry's id and display fields, and adds one unit exactly when the entry carries the product's id. |
| `UseCart.Add` | src/hooks/useCart.tsx:35-78 | A failed stock request or a stock below 1 fails before the cart is looked at; a present product succeeds iff its amount is below the stock and then gains exactly one unit with nothing else changed, and otherwise fails with OutOfStock (for any cart, repeated ids included); an absent product succeeds iff the product request succeeds and is appended with amount 1 at the end, and a rejected product request gives FetchFailed with the cart unchanged; a success leaves the product within stock; a failure leaves the cart unchanged; a well-formed cart stays well formed. |
| `UseCart.Remove` | src/hooks/useCart.tsx:80-93 | Fails with NotInCart iff the product is absent, and then changes nothing; on success the product is gone, the cart is shorter, every other entry is kept, and a well-formed cart stays well formed. |
| `UseCart.Update` | src/hooks/useCart.tsx:95-138 | A non-positive amount is ignored; a failed stock request fails; an amount above the stock reports OutOfStock whether or not the product is present; within the stock it succeeds iff the product is present, setting exactly that amount and changing nothing else, and an absent product gives NotInCart with no entry created; a failure changes nothing; a well-formed cart stays well formed. |
| `UseCart.GenericMessage` | src/hooks/useCart.tsx:74 | Each operation has its own catch-all text (also lines 91 and 133), and none of them is the out-of-stock text. |
| `UseCart.Message` | src/hooks/useCart.tsx:69-76 | No notification exactly for success and the silent no-op; out of stock shows its own text when adding or updating (lines 71-72, 130-131); NotInCart and a failed request show the same generic text of the operation (lines 74, 91, 133). |
| `UseCart.AddExisting` | src/hooks/useCart.tsx:44-60 | In a cart without repeated ids and a stock of at least 1, adding the product at index k gives that entry one more unit if it is below the stock, and otherwise reports OutOfStock with the cart unchanged. |
| `UseCart.UpdateExisting` | src/hooks/useCart.tsx:105-117 | In a cart without repeated ids, a set within the stock replaces the amount at index k by exactly the requested amount, and nothing else. |
| `UseCart.RemoveExisting` | src/hooks/useCart.tsx:82-89 | In a cart without repeated ids, removing the product at index k succeeds and leaves the other entries, with their amounts, in their order. |
| `UseCart.UpdateIdempotent` | src/hooks/useCart.tsx:107-114 | Setting an amount is absolute: repeating a successful set with the same inputs changes nothing. |
| `UseCart.AddIgnoresProductLookup` | src/hooks/useCart.tsx:37-62 | The product request is made only for a new product with stock: when the stock request failed, the stock is below 1, or the product is already in the cart, its answer does not change the outcome. |
| `UseCart.Walkthrough` | src/hooks/useCart.tsx:35-138 | Empty cart, stock 5: add gives amount 1, add again gives 2, set to 5 gives 5, set to 6 is refused as out of stock with 5 kept, remove empties the cart. |
| `UseCart.Restore` | src/hooks/useCart.tsx:25-33 | The start cart is the stored snapshot when one is stored, and the empty cart otherwise. |
| `UseCart.CartStore.constructor` | src/hooks/useCart.tsx:25-33 | The initial cart is the stored snapshot when there is one, else empty; the stored slot is left as it is. |
| `UseCart.CartStore.Commit` | src/hooks/useCart.tsx:59-60 | The `setCart` then `localStorage.setItem` pair of every success (lines 59-60, 66-67, 88-89, 116-117): on success the cart and the stored copy both become the new cart; on failure neither changes. |
| `UseCart.CartStore.AddProduct` | src/hooks/useCart.tsx:35-78 | The new cart and status are those of `Add` on the old cart; the stored copy is the new cart after a success and untouched otherwise; well-formedness is kept. |
| `UseCart.CartStore.RemoveProduct` | src/hooks/useCart.tsx:80-93 | The new cart and status are those of `Remove` on the old cart; the stored copy is the new cart after a success and untouched otherwise; well-formedness is kept. |
| `UseCart.CartStore.UpdateProductAmount` | src/hooks/useCart.tsx:95-138 | The new cart and status are those of `Update` on the old cart; the stored copy is the new cart after a success and untouched otherwise; well-formedness is kept. |

## Left out

- The React context, the provider component and the `useCart` hook
  (lines 1-24, 140-151): framework glue with no cart logic.
- The HTTP calls `api.get` (lines 37, 62, 98): their answers are the
  parameters `stock` and `product`. A stock answer without a numeric
  `amount` is not modelled; it counts as a well-formed number or `Failed`.
- The id of a new entry: the source spreads the product response, so the
  id comes from that response. The model uses `productId`, which assumes
  the product service answers with the id it was asked for.
- `toast.error` (lines 72-74, 91, 131-133): shown as the returned `Status`,
  with `Message` giving the text.
- `localStorage` and JSON (de)serialisation (lines 26-29, 60, 67, 89, 117):
  the stored slot is the field `persisted`, holding the decoded list. A
  snapshot that `JSON.parse` rejects is not modelled, and an empty stored
  string is treated like a missing one, as `if (storagedCart)` does.
- A storage write that throws (storage full or disabled): the source has
  already called `setCart`, so the in-memory cart is replaced, the catch
  shows the operation's generic text, and the stored copy stays stale.
  The model assumes every write succeeds, so `CartStore.Commit` changes
  both fields or neither and `Valid()` always holds.
- Overlapping asynchronous calls and the lost increment between them: each
  operation is modelled as one atomic step.
- The map callbacks change the entry objects in place (`product.amount++`,
  `product.amount = amount`), so the previous cart array shares the
  changed objects. The model builds new values. In a cart with a repeated
  id this sharing could leave an earlier entry incremented in memory when
  a later one throws; the model does not capture that.
- The commented-out "create on update" code (lines 121-126): not live.
- Product display fields other than `id` and `amount`: the opaque `P`.
- Amounts and stock are unbounded integers; JavaScript numbers that are
  not integers (or NaN) are not modelled.

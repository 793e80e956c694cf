# Storefront cart and checkout, modelled in Dafny

This project models the cart and checkout logic of a single-page storefront
(`ECommerceApp.tsx`). A shopper browses a fixed catalog, puts products in a
cart, changes quantities, and places a simulated order.

The model has three modules:

- `CartModel` (`cart.dfy`) holds the pure part. The cart is a sequence of
  entries. Each entry holds a product and a quantity. Adding,
  updating, removing and clearing are functions from one cart to the next,
  built on `Find`, `Map` and `Filter`, the array primitives the original uses.
  The total is the left fold `Reduce`, which the lemmas tie to the reference
  sum `Sum`. Prices are integer cents, so the total is exact. Loading the
  saved cart is `LoadCart`.
- `CheckoutFlow` (`checkout.dfy`) holds the checkout page's three flags
  (`isProcessing`, `orderComplete`, `error`) and its "Place Order" handler.
  The handler waits on a timer, so it is split in two: `Start` runs when the
  button is pressed and `Finish` runs when the timer fires.
- `Storefront` (`storefront.dfy`) holds the component as a class, `Store`. Its
  fields are the cart, the current view (`home`, `cart`, `checkout`), the
  flags of the checkout page on screen, a count of checkout-page mounts, and
  the runs still waiting on their timer. Its methods are the handlers. Each
  one reassigns fields using the `CartModel` and `CheckoutFlow` functions.

The class's invariant `Valid` states how the app really behaves:

- The checkout page exists only while the checkout view is shown. Leaving the
  view discards its flags, and coming back mounts a fresh page.
- A run keeps going after its page is gone. When its timer fires, its own flag
  writes are lost, but the parent's callbacks still empty the cart and go home.
- A run captures the cart as it was when "Place Order" was pressed.
- The button exists only when the cart is non-empty. So every run has a
  non-empty cart, and the "Your cart is empty." branch is never reached in
  the app. `CheckoutFlow.Finish` still models that branch.
- A successful run navigates home in the same update that sets
  `orderComplete`. So the confirmation screen is never left on display.
- Each page has at most one run in flight. The page on screen is processing
  exactly when its own run is pending.

The model follows the code as written:

- The code checks for an empty cart after the delay, not before, and checks
  the cart captured at the click.
- The error text is "Your cart is empty.".
- The cart is an array. Unique ids are not enforced on load.
- The checkout handler of the cart screen has no guard of its own. Only its
  button is disabled when the cart is empty.
- After a successful order the view returns home at once. No dismissal of a
  confirmation is needed.

## Model

| member | source | states |
|---|---|---|
| `CartModel.Find` | ECommerceApp.tsx:322 | finds an entry exactly when some entry carries the id, and what it finds is an entry of the cart with that id |
| `CartModel.Map` | ECommerceApp.tsx:324-326 | the result has the cart's length and order, each entry transformed in place |
| `CartModel.Filter` | ECommerceApp.tsx:347 | the result holds exactly the cart's entries that pass the test |
| `CartModel.AddToCart` | ECommerceApp.tsx:320-330 | after adding, the product's id is in the cart |
| `CartModel.AddExisting` | ECommerceApp.tsx:322-326 | adding a product already at index j (unique ids) raises only that entry's quantity by one; length, order and the other entries are unchanged |
| `CartModel.AddAbsent` | ECommerceApp.tsx:327-328 | adding a product not in the cart appends `{product, quantity: 1}`, and the old cart stays as a prefix |
| `CartModel.AddTwiceAbsent` | ECommerceApp.tsx:320-330 | adding a fresh product twice gives the old cart plus one entry with quantity 2 |
| `CartModel.AddKeepsValid` | ECommerceApp.tsx:320-330 | adding keeps ids unique and every quantity at least 1 |
| `CartModel.RemoveFromCart` | ECommerceApp.tsx:346-348 | no entry with the id is left, and the remaining entries are exactly the others |
| `CartModel.RemoveAbsent` | ECommerceApp.tsx:346-348 | removing an unknown id changes nothing |
| `CartModel.RemoveIdempotent` | ECommerceApp.tsx:347 | removing twice is the same as removing once |
| `CartModel.RemoveAt` | ECommerceApp.tsx:347 | with unique ids, removing the id at index j takes out exactly that entry; the others keep their relative order |
| `CartModel.RemoveKeepsValid` | ECommerceApp.tsx:346-348 | removing keeps ids unique and every quantity at least 1 |
| `CartModel.UpdateQuantity` | ECommerceApp.tsx:334-344 | the cart never grows, and a positive quantity keeps its length |
| `CartModel.UpdateNonPositive` | ECommerceApp.tsx:334-338 | a quantity of 0 or less gives exactly the cart that removing the id gives |
| `CartModel.UpdatePositiveAt` | ECommerceApp.tsx:339-343 | with unique ids, a positive quantity sets only the matching entry's quantity; length, order and other entries are unchanged |
| `CartModel.UpdateAbsent` | ECommerceApp.tsx:334-344 | updating an unknown id changes nothing, whatever the quantity |
| `CartModel.UpdateKeepsValid` | ECommerceApp.tsx:334-344 | updating keeps ids unique and every quantity at least 1 |
| `CartModel.ClearCart` | ECommerceApp.tsx:350-352 | after clearing, no product is in the cart |
| `CartModel.Reduce` | ECommerceApp.tsx:75 | folding from an accumulator gives the accumulator plus the sum of price times quantity |
| `CartModel.Total` | ECommerceApp.tsx:180 | the total equals the sum of price times quantity, and is 0 for the empty cart |
| `CartModel.SumPermutation` | ECommerceApp.tsx:180 | two carts with the same entries in any order have the same total |
| `CartModel.TotalAddExisting` | ECommerceApp.tsx:320-326 | adding a product already in the cart raises the total by the price recorded in its entry, which is the price of the product as it was when first added |
| `CartModel.TotalAddAbsent` | ECommerceApp.tsx:327-328 | adding a product not in the cart raises the total by its price |
| `CartModel.TotalRemoveAt` | ECommerceApp.tsx:346-348 | removing an entry lowers the total by that entry's price times quantity |
| `CartModel.LoadCart` | ECommerceApp.tsx:299-310 | no window, no saved text, or empty saved text give the empty cart; otherwise saved text that parses loads as exactly the parsed cart, and text that fails to parse gives the empty cart |
| `CheckoutFlow.Start` | ECommerceApp.tsx:77-79 | pressing "Place Order" sets processing and clears the error; orderComplete is kept |
| `CheckoutFlow.Finish` | ECommerceApp.tsx:81-98 | processing always ends; a non-empty cart sets orderComplete and hands exactly that cart to the parent; an empty cart sets "Your cart is empty." and calls nobody |
| `CheckoutFlow.Run` | ECommerceApp.tsx:77-98 | a whole run ends not processing, with no error exactly when the cart is non-empty |
| `Storefront.Store.constructor` | ECommerceApp.tsx:297-311 | the app starts on the home view with the loaded cart and nothing in flight |
| `Storefront.Store.AddToCart` | ECommerceApp.tsx:320-332 | the cart becomes the added cart, a valid cart stays valid, and nothing else changes |
| `Storefront.Store.UpdateQuantity` | ECommerceApp.tsx:334-344 | the cart becomes the updated cart, a valid cart stays valid, and nothing else changes |
| `Storefront.Store.RemoveFromCart` | ECommerceApp.tsx:346-348 | the cart becomes the filtered cart, a valid cart stays valid, and nothing else changes |
| `Storefront.Store.ClearCart` | ECommerceApp.tsx:350-352 | the cart becomes empty, and nothing else changes |
| `Storefront.Store.SetView` | ECommerceApp.tsx:401-423 | sets the view; entering the checkout view mounts a fresh page, and leaving it discards the page's flags |
| `Storefront.Store.GoHome` | ECommerceApp.tsx:372-381 | from any view, goes home and keeps the cart and the runs in flight |
| `Storefront.Store.GoToCart` | ECommerceApp.tsx:382-396 | from any view, goes to the cart view |
| `Storefront.Store.GoToCheckout` | ECommerceApp.tsx:354-356 | goes to the checkout view, with no guard, mounting a fresh page when coming from elsewhere |
| `Storefront.Store.PlaceOrder` | ECommerceApp.tsx:144-160 | a run starts exactly when the checkout page shows its enabled button; it captures the current cart, and a press while processing does nothing |
| `Storefront.Store.ContinueShopping` | ECommerceApp.tsx:107 | clearing orderComplete never changes the page, because the confirmation is never shown |
| `Storefront.Store.HandleCheckout` | ECommerceApp.tsx:358-364 | the parent's checkout callback empties the cart and goes home |
| `Storefront.Store.CompleteNext` | ECommerceApp.tsx:83-98 | the oldest run completes; the parent gets the cart captured at the press, the cart ends empty, the view is home, and no page is processing |

## Left out

- Writing the cart back to browser storage after every change (ECommerceApp.tsx:313-318). This is browser I/O through a foreign serialiser.
- The JSON parser. `LoadCart` takes it as a parameter that yields None where parsing throws. Parsed data is not checked, so a loaded cart need not meet the cart invariant. The class methods therefore say "a valid cart stays valid" rather than assume validity.
- The two-second timer and `async`/`await` (ECommerceApp.tsx:83). A press and its completion are two separate methods. Every run waits equally long, so runs complete oldest first.
- The `catch` branch (ECommerceApp.tsx:94-95). The awaited timer never rejects, and neither parent callback throws, so it cannot be reached.
- The `console.log` in the parent's checkout callback (ECommerceApp.tsx:360). This is output only.
- Floating-point prices and `toFixed(2)` formatting (ECommerceApp.tsx:127-134, 204, 228, 243). Prices are integer cents.
- The JSX, the product cards, animation variants, icons and the `cn` styling helper (ECommerceApp.tsx:64-68, 101-165, 182-264, 267-295, 366-432). These are presentation. The cart badge count is also left out.
- Object identity of products. The source stores a reference to the catalog's own product object in a new entry (ECommerceApp.tsx:328); the model stores the product as a value. The two behave the same because no product object is ever changed: `setProducts` is never called (ECommerceApp.tsx:298).
- The fixed catalog and its `products` state, which is never updated (ECommerceApp.tsx:19-55, 298).
- The disabled states of the quantity buttons and the Clear Cart button (ECommerceApp.tsx:210, 248). The cart handlers are modelled without a guard, as their code is.
- React's render scheduling. Each handler is one atomic update, and several state writes made together are applied in order.
- `Storefront.Store.CompleteNext` states only the outcome reachable in the app, a non-empty captured cart. The empty-cart outcome is stated on `CheckoutFlow.Finish`.

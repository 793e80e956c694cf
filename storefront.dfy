/**
  The storefront component: the cart, the current screen, and the state of
  the checkout page while it is on screen. Each handler replaces some of this
  state, so the component is a class whose methods reassign its fields.

  Two facts about the original shape this model. The checkout page is a child
  component that exists only while the checkout screen is shown: leaving the
  screen discards its flags, and coming back mounts a fresh page. And the
  "Place Order" handler keeps running after its page is gone: when its timer
  fires, its own flag writes are lost but the parent's callbacks (checkout,
  then clear) still take effect.
*/
module Storefront {
  import CartModel
  import CheckoutFlow

  /** The screen on display: 'home', 'cart' or 'checkout'. */
  datatype View = Home | Cart | Checkout

  /**
    A checkout run waiting on its timer: the cart as it was when "Place
    Order" was pressed, and which mounting of the checkout page pressed it.
  */
  datatype Submission = Submission(items: CartModel.Cart, page: nat)

  class Store {
    var cartItems: CartModel.Cart
    var view: View
    /** Flags of the checkout page on screen; the initial flags when there is none. */
    var page: CheckoutFlow.PageState
    /** How many times a checkout page has been mounted; the current one is number `mount`. */
    var mount: nat
    /** Runs whose timer has not fired yet, oldest first (every run waits equally long). */
    var inFlight: seq<Submission>

    /**
      The state every handler keeps:
      - with no checkout page on screen, the page flags are the initial ones;
      - every run was started on a non-empty cart, by a page mounted so far,
        and each page has at most one run in flight (mount numbers increase);
      - the page on screen is processing exactly when it has a run in flight;
      - the page never shows its error or its confirmation: every run has a
        non-empty cart, and a run that succeeds navigates home at once.
    */
    ghost predicate Valid()
      reads this
    {
      && (view != Checkout ==> page == CheckoutFlow.Initial)
      && (forall k :: 0 <= k < |inFlight| ==> inFlight[k].items != [] && inFlight[k].page <= mount)
      && (forall k, l :: 0 <= k < l < |inFlight| ==> inFlight[k].page < inFlight[l].page)
      && (page.isProcessing <==> view == Checkout && Running())
      && !page.orderComplete
      && page.error == CartModel.None
    }

    /** The checkout page mounted last has a run in flight. */
    ghost predicate Running()
      reads this
    {
      |inFlight| > 0 && inFlight[|inFlight| - 1].page == mount
    }

    /** Mounting the storefront: the cart is loaded from storage, the home screen shows. */
    constructor (hasWindow: bool, saved: CartModel.Option<string>, parse: string -> CartModel.Option<CartModel.Cart>)
      ensures Valid()
      ensures cartItems == CartModel.LoadCart(hasWindow, saved, parse)
      ensures view == Home && page == CheckoutFlow.Initial && inFlight == []
    {
      cartItems := CartModel.LoadCart(hasWindow, saved, parse);
      view := Home;
      page := CheckoutFlow.Initial;
      mount := 0;
      inFlight := [];
    }

    // -------------------------------------------------------------------------
    // Cart handlers
    // -------------------------------------------------------------------------

    method AddToCart(product: CartModel.Product)
      requires Valid()
      modifies this`cartItems
      ensures Valid()
      ensures cartItems == CartModel.AddToCart(old(cartItems), product)
      ensures CartModel.Valid(old(cartItems)) ==> CartModel.Valid(cartItems)
    {
      if CartModel.Valid(cartItems) {
        CartModel.AddKeepsValid(cartItems, product);
      }
      cartItems := CartModel.AddToCart(cartItems, product);
    }

    method UpdateQuantity(id: string, quantity: int)
      requires Valid()
      modifies this`cartItems
      ensures Valid()
      ensures cartItems == CartModel.UpdateQuantity(old(cartItems), id, quantity)
      ensures CartModel.Valid(old(cartItems)) ==> CartModel.Valid(cartItems)
    {
      if CartModel.Valid(cartItems) {
        CartModel.UpdateKeepsValid(cartItems, id, quantity);
      }
      if quantity <= 0 {
        RemoveFromCart(id);
        return;
      }
      cartItems := CartModel.UpdateQuantity(cartItems, id, quantity);
    }

    method RemoveFromCart(id: string)
      requires Valid()
      modifies this`cartItems
      ensures Valid()
      ensures cartItems == CartModel.RemoveFromCart(old(cartItems), id)
      ensures CartModel.Valid(old(cartItems)) ==> CartModel.Valid(cartItems)
    {
      if CartModel.Valid(cartItems) {
        CartModel.RemoveKeepsValid(cartItems, id);
      }
      cartItems := CartModel.RemoveFromCart(cartItems, id);
    }

    method ClearCart()
      requires Valid()
      modifies this`cartItems
      ensures Valid()
      ensures cartItems == [] && CartModel.Valid(cartItems)
    {
      cartItems := CartModel.ClearCart();
    }

    // -------------------------------------------------------------------------
    // Navigation
    // -------------------------------------------------------------------------

    /**
      Switching screens. Leaving the checkout screen discards the checkout
      page's flags; entering it mounts a new page with the initial flags.
    */
    method SetView(v: View)
      modifies this`view, this`page, this`mount
      ensures view == v
      ensures old(view) != Checkout && v == Checkout ==> mount == old(mount) + 1 && page == CheckoutFlow.Initial
      ensures old(view) == Checkout && v != Checkout ==> mount == old(mount) && page == CheckoutFlow.Initial
      ensures old(view) == v || (v != Checkout && old(view) != Checkout) ==> mount == old(mount) && page == old(page)
    {
      if view != Checkout && v == Checkout {
        mount := mount + 1;
        page := CheckoutFlow.Initial;
      } else if view == Checkout && v != Checkout {
        page := CheckoutFlow.Initial;
      }
      view := v;
    }

    /** The header's "Home" button, available on every screen. */
    method GoHome()
      requires Valid()
      modifies this`view, this`page, this`mount
      ensures Valid() && view == Home && mount == old(mount)
      ensures inFlight == old(inFlight) && cartItems == old(cartItems)
    {
      SetView(Home);
    }

    /** The header's cart button, available on every screen. */
    method GoToCart()
      requires Valid()
      modifies this`view, this`page, this`mount
      ensures Valid() && view == Cart && mount == old(mount)
    {
      SetView(Cart);
    }

    /** The cart screen's "Checkout" handler; the handler itself has no guard. */
    method GoToCheckout()
      requires Valid()
      modifies this`view, this`page, this`mount
      ensures Valid() && view == Checkout
      ensures old(view) != Checkout ==> page == CheckoutFlow.Initial && mount == old(mount) + 1
      ensures old(view) == Checkout ==> page == old(page) && mount == old(mount)
    {
      SetView(Checkout);
    }

    // -------------------------------------------------------------------------
    // Checkout
    // -------------------------------------------------------------------------

    /**
      Pressing "Place Order". The button exists only on the checkout screen,
      when the confirmation is not shown and the cart is non-empty, and it is
      disabled while processing; otherwise nothing happens. A run captures the
      cart as it is now.
    */
    method PlaceOrder() returns (started: bool)
      requires Valid()
      modifies this`page, this`inFlight
      ensures Valid()
      ensures started <==> old(view) == Checkout && old(cartItems) != [] && !old(page.isProcessing) && !old(page.orderComplete)
      ensures started ==> page == CheckoutFlow.Start(old(page)) && inFlight == old(inFlight) + [Submission(cartItems, mount)]
      ensures !started ==> page == old(page) && inFlight == old(inFlight)
    {
      started := view == Checkout && cartItems != [] && !page.isProcessing && !page.orderComplete;
      if started {
        assert forall k :: 0 <= k < |inFlight| ==> inFlight[k].page < mount by {
          if |inFlight| > 0 {
            assert inFlight[|inFlight| - 1].page < mount;
          }
        }
        page := CheckoutFlow.Start(page);
        inFlight := inFlight + [Submission(cartItems, mount)];
      }
    }

    /**
      The confirmation's "Continue Shopping" handler, which clears the
      page's orderComplete flag. The confirmation is never on screen (see
      Valid), so in every reachable state this changes nothing.
    */
    method ContinueShopping()
      requires Valid()
      modifies this`page
      ensures Valid()
      ensures page == old(page)
    {
      if view == Checkout {
        page := page.(orderComplete := false);
      }
    }

    /** The parent's checkout callback: empty the cart and go home. */
    method HandleCheckout(items: CartModel.Cart)
      modifies this`cartItems, this`view, this`page, this`mount
      ensures cartItems == [] && view == Home && mount == old(mount)
      ensures page == if old(view) == Checkout then CheckoutFlow.Initial else old(page)
    {
      cartItems := [];
      SetView(Home);
    }

    /**
      The timer of the oldest run fires. Its page's flags are updated only if
      that page is still on screen; the parent then receives the captured
      cart, empties the cart (twice: by the checkout callback and the clear
      callback) and goes home. Items added while the run was in flight are
      emptied as well.
    */
    method CompleteNext() returns (checkedOut: CartModel.Option<CartModel.Cart>)
      requires Valid() && inFlight != []
      modifies this
      ensures Valid()
      ensures inFlight == old(inFlight[1..])
      ensures checkedOut == CartModel.Some(old(inFlight[0].items))
      ensures cartItems == [] && view == Home && page == CheckoutFlow.Initial && mount == old(mount)
    {
      var run := inFlight[0];
      inFlight := inFlight[1..];
      var outcome := CheckoutFlow.Finish(page, run.items);
      if view == Checkout && run.page == mount {
        page := outcome.page;
      }
      checkedOut := outcome.checkedOut;
      if outcome.checkedOut.Some? {
        HandleCheckout(outcome.checkedOut.value);
        cartItems := CartModel.ClearCart();
      }
    }
  }
}

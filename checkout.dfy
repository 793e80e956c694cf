/**
  The checkout page's own state and the two halves of its "Place Order"
  handler. The handler sets its flags, waits on a timer, and then looks at
  the cart it was given. The wait splits it in two: Start runs when the
  button is pressed and Finish runs when the timer fires.
*/
module CheckoutFlow {
  import opened CartModel

  /** The three flags of the checkout page. `error` is null when None. */
  datatype PageState = PageState(isProcessing: bool, orderComplete: bool, error: Option<string>)

  /** The flags of a freshly mounted checkout page. */
  const Initial := PageState(false, false, None)

  /** The message shown when the submitted cart turns out to be empty. */
  const EmptyCartMessage := "Your cart is empty."

  /**
    What the completion hands back: the page's new flags, and the items passed
    to the parent's checkout callback (which is followed by the parent's clear
    callback), or None when neither callback runs.
  */
  datatype Completion = Completion(page: PageState, checkedOut: Option<Cart>)

  /** Pressing "Place Order": processing starts and any earlier error is cleared. */
  function Start(s: PageState): (r: PageState)
    ensures r.isProcessing && r.error == None
    ensures r.orderComplete == s.orderComplete
  {
    s.(isProcessing := true, error := None)
  }

  /**
    The timer firing. The emptiness check happens only now, on the cart the
    handler was started with. Processing ends on both paths.
  */
  function Finish(s: PageState, submitted: Cart): (r: Completion)
    ensures !r.page.isProcessing
    ensures r.checkedOut.Some? <==> submitted != []
    ensures submitted != [] ==> r.page.orderComplete && r.checkedOut == Some(submitted) && r.page.error == s.error
    ensures submitted == [] ==> r.page.error == Some(EmptyCartMessage) && r.page.orderComplete == s.orderComplete
  {
    if |submitted| > 0 then
      Completion(s.(orderComplete := true, isProcessing := false), Some(submitted))
    else
      Completion(s.(error := Some(EmptyCartMessage), isProcessing := false), None)
  }

  /**
    A whole run, Start then Finish, from any flags: it ends not processing,
    with no error exactly when the submitted cart is non-empty, and the
    parent's callbacks receive exactly the submitted cart.
  */
  lemma Run(s: PageState, submitted: Cart)
    ensures var r := Finish(Start(s), submitted);
      && !r.page.isProcessing
      && (r.page.error == None <==> submitted != [])
      && (r.page.orderComplete <==> submitted != [] || s.orderComplete)
      && (r.checkedOut == if submitted == [] then None else Some(submitted))
  {
  }
}

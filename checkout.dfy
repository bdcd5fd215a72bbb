/**
 The handlers that end a visit to the cart: the checkout button in the cart
 sidebar, the payment form's submit and cancel buttons, and the logout
 button. Each confirmation dialog's answer is an input; each redirect is part
 of the returned outcome.
 */
module Checkout {
  import opened Common
  import opened Cart
  import opened OrderSummary
  import opened Payment
  import opened Session

  /** The checkout button: go to the confirmation page, or alert that the cart is empty. */
  function CheckoutTarget(s: seq<Item>): Option<string> {
    if |s| > 0 then Some("confirm.html") else None
  }

  /** The checkout button leads to the confirmation page exactly when that page has a summary to show. */
  lemma CheckoutReachesSummary(s: seq<Item>)
    ensures CheckoutTarget(s).Some? <==> Summarize(s).Some?
  {
  }

  /** For a cart satisfying the invariant, checkout is allowed exactly when the badge is positive. */
  lemma CheckoutIffBadgePositive(s: seq<Item>)
    requires QuantitiesPositive(s)
    ensures CheckoutTarget(s).Some? <==> ItemCount(s) > 0
  {
    TotalsLowerBound(s);
  }

  /** What the payment form's submit handler ends with. */
  datatype SubmitOutcome =
    | Rejected(error: PaymentError)  // an alert names the missing field
    | NotConfirmed(info: string)     // the confirmation dialog was declined
    | Placed(info: string)           // the order was confirmed; the page goes to index.html

  /**
   The submit handler: validate the form, ask for confirmation with the payment
   descriptor, and clear the cart only when the order is confirmed.
   */
  method SubmitOrder(cart: CartStore, address: string, choice: string, phone: string,
                     bankName: string, account: string, confirmed: bool)
    returns (outcome: SubmitOutcome)
    modifies cart
    ensures match Validate(address, choice, phone, bankName, account)
            case Err(e) => outcome == Rejected(e) && cart.items == old(cart.items)
            case Ok(info) =>
              if confirmed then outcome == Placed(info) && cart.items == []
              else outcome == NotConfirmed(info) && cart.items == old(cart.items)
    ensures old(cart.Valid()) ==> cart.Valid()
  {
    var checked := Validate(address, choice, phone, bankName, account);
    match checked
    case Err(e) =>
      outcome := Rejected(e);
    case Ok(info) =>
      if confirmed {
        cart.Clear();
        outcome := Placed(info);
      } else {
        outcome := NotConfirmed(info);
      }
  }

  /** The cancel button: on confirmation, empty the cart and go to index.html (returns true). */
  method CancelOrder(cart: CartStore, confirmed: bool) returns (left: bool)
    modifies cart
    ensures left == confirmed
    ensures cart.items == if confirmed then [] else old(cart.items)
    ensures old(cart.Valid()) ==> cart.Valid()
  {
    left := confirmed;
    if confirmed {
      cart.Clear();
    }
  }

  /** The logout button: on confirmation, end the session, empty the cart and go to login.html (returns true). */
  method Logout(session: SessionState, cart: CartStore, confirmed: bool) returns (left: bool)
    modifies session, cart
    ensures left == confirmed
    ensures confirmed ==> !session.loggedIn && session.userEmail == None && cart.items == []
    ensures !confirmed ==>
              session.loggedIn == old(session.loggedIn) && session.userEmail == old(session.userEmail) &&
              cart.items == old(cart.items)
  {
    left := confirmed;
    if confirmed {
      session.SignOut();
      cart.Clear();
    }
  }
}

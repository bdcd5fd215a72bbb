/**
 The order summary on the confirmation page: one line per cart item, the
 subtotal, the fixed delivery fee and the final total. An empty cart has no
 summary; the page redirects to the menu instead.
 */
module OrderSummary {
  import opened Common
  import opened Cart

  /** The delivery fee in BIRR added to every order. */
  const DeliveryFee: int := 50

  /** One rendered order line: name, quantity and price times quantity. */
  datatype Line = Line(name: string, quantity: int, amount: int)

  datatype Summary = Summary(lines: seq<Line>, subtotal: int, deliveryFee: int, finalTotal: int)

  /** `cart.map(...)` over the order lines, in cart order. */
  function Lines(s: seq<Item>): (r: seq<Line>)
    ensures |r| == |s|
    ensures forall k :: 0 <= k < |s| ==> r[k].name == s[k].name && r[k].quantity == s[k].quantity
    ensures forall k :: 0 <= k < |s| ==> r[k].amount == s[k].price * s[k].quantity
  {
    if s == [] then []
    else [Line(s[0].name, s[0].quantity, LineTotal(s[0]))] + Lines(s[1..])
  }

  /** `loadOrderSummary`: no summary for an empty cart, otherwise the lines and the totals. */
  function Summarize(s: seq<Item>): (r: Option<Summary>)
    ensures r.None? <==> s == []
    ensures r.Some? ==> r.value.lines == Lines(s) && r.value.finalTotal == r.value.subtotal + DeliveryFee
  {
    if |s| == 0 then None
    else
      var total := TotalPrice(s);
      Some(Summary(Lines(s), total, DeliveryFee, total + DeliveryFee))
  }

  /** The sum of the amounts printed on the order lines. */
  function LinesTotal(lines: seq<Line>): int {
    if lines == [] then 0 else LinesTotal(lines[..|lines| - 1]) + lines[|lines| - 1].amount
  }

  /** The summary is refused exactly when the cart is empty. */
  lemma SummaryRefusedIffEmpty(s: seq<Item>)
    ensures Summarize(s).None? <==> s == []
  {
  }

  /** A non-empty cart's summary totals the cart and adds the delivery fee of 50. */
  lemma SummaryTotals(s: seq<Item>)
    requires s != []
    ensures Summarize(s).Some?
    ensures Summarize(s).value.subtotal == TotalPrice(s)
    ensures Summarize(s).value.deliveryFee == 50
    ensures Summarize(s).value.finalTotal == TotalPrice(s) + 50
  {
  }

  lemma {:induction false} LinesTotalIsTotalPrice(s: seq<Item>)
    ensures LinesTotal(Lines(s)) == TotalPrice(s)
    decreases |s|
  {
    if s != [] {
      var init := s[..|s| - 1];
      var ls := Lines(s);
      assert ls[..|ls| - 1] == Lines(init);
      LinesTotalIsTotalPrice(init);
    }
  }

  /** The subtotal equals the sum of the line amounts shown above it. */
  lemma SummaryLinesAddUp(s: seq<Item>)
    requires Summarize(s).Some?
    ensures LinesTotal(Summarize(s).value.lines) == Summarize(s).value.subtotal
  {
    LinesTotalIsTotalPrice(s);
  }

  /** For a cart satisfying the invariant the final total is at least the delivery fee. */
  lemma SummaryAtLeastFee(s: seq<Item>)
    requires QuantitiesPositive(s) && Summarize(s).Some?
    ensures Summarize(s).value.finalTotal >= DeliveryFee
  {
    TotalsLowerBound(s);
  }

  /** A burger at 100 twice and fries at 50 once: subtotal 250, final total 300. */
  lemma SummaryExample()
    ensures Summarize([Item("Burger", 100, 2), Item("Fries", 50, 1)])
         == Some(Summary([Line("Burger", 2, 200), Line("Fries", 1, 50)], 250, 50, 300))
  {
    var s := [Item("Burger", 100, 2), Item("Fries", 50, 1)];
    assert Lines(s) == [Line("Burger", 2, 200), Line("Fries", 1, 50)];
    assert s == [s[0]] + [s[1]];
    SumOfAppend([s[0]], [s[1]], LineTotal);
    SumOfSingle(s[0], LineTotal);
    SumOfSingle(s[1], LineTotal);
  }
}

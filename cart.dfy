/**
 The cart store: an ordered list of line items keyed by name, the three
 operations the menu page applies to it (add, remove, change quantity), the
 two totals shown on the cart badge and sidebar, and the invariant that every
 sequence of operations keeps (unique names, quantities at least 1).
 */
module Cart {
  import opened Common

  /** One cart line: a menu item, its unit price in BIRR and how many are ordered. */
  datatype Item = Item(name: string, price: nat, quantity: int)

  /** No item in `s` is called `name`. */
  predicate Absent(s: seq<Item>, name: string) {
    forall i :: 0 <= i < |s| ==> s[i].name != name
  }

  /** No two items share a name. */
  predicate NamesUnique(s: seq<Item>) {
    forall i, j :: 0 <= i < j < |s| ==> s[i].name != s[j].name
  }

  /** Every stored item has a quantity of at least 1. */
  predicate QuantitiesPositive(s: seq<Item>) {
    forall i :: 0 <= i < |s| ==> s[i].quantity >= 1
  }

  /** The cart invariant. */
  predicate Inv(s: seq<Item>) {
    NamesUnique(s) && QuantitiesPositive(s)
  }

  /** The index of the first item called `name`, the one `cart.find` returns. */
  function Find(s: seq<Item>, name: string): (r: Option<nat>)
    ensures r.None? <==> Absent(s, name)
    ensures r.Some? ==> r.value < |s| && s[r.value].name == name && Absent(s[..r.value], name)
  {
    if s == [] then None
    else if s[0].name == name then Some(0)
    else
      match Find(s[1..], name)
      case None => None
      case Some(i) =>
        assert s[..i + 1] == [s[0]] + s[1..][..i];
        Some(i + 1)
  }

  /** Reference definition of `addToCart(name, price)`, item by item. */
  function Added(s: seq<Item>, name: string, price: nat): (r: seq<Item>)
    ensures Find(s, name).Some? ==>
              var i := Find(s, name).value;
              r == s[i := s[i].(quantity := s[i].quantity + 1)]
    ensures Find(s, name).None? ==> r == s + [Item(name, price, 1)]
  {
    if s == [] then [Item(name, price, 1)]
    else if s[0].name == name then [s[0].(quantity := s[0].quantity + 1)] + s[1..]
    else [s[0]] + Added(s[1..], name, price)
  }

  /** `cart.filter(item => item.name !== name)`: every item not called `name`, in order. */
  function Removed(s: seq<Item>, name: string): (r: seq<Item>)
    ensures |r| <= |s|
    ensures Absent(r, name)
    ensures forall x :: x in r <==> x in s && x.name != name
  {
    if s == [] then []
    else if s[0].name == name then Removed(s[1..], name)
    else [s[0]] + Removed(s[1..], name)
  }

  /** Reference definition of `updateQuantity(name, change)`, item by item. */
  function Updated(s: seq<Item>, name: string, change: int): (r: seq<Item>)
    ensures Find(s, name).None? ==> r == s
    ensures Find(s, name).Some? ==>
              var i := Find(s, name).value;
              if s[i].quantity + change <= 0 then r == Removed(s, name)
              else r == s[i := s[i].(quantity := s[i].quantity + change)]
  {
    if s == [] then []
    else if s[0].name == name then
      if s[0].quantity + change <= 0 then Removed(s[1..], name)
      else [s[0].(quantity := s[0].quantity + change)] + s[1..]
    else [s[0]] + Updated(s[1..], name, change)
  }

  /** `s.reduce((sum, item) => sum + f(item), 0)`: a left fold, as `reduce` runs. */
  function SumOf(s: seq<Item>, f: Item -> int): int {
    if s == [] then 0 else SumOf(s[..|s| - 1], f) + f(s[|s| - 1])
  }

  function LineTotal(item: Item): int {
    item.price * item.quantity
  }

  function Quantity(item: Item): int {
    item.quantity
  }

  /** The cart total shown in the sidebar: the sum of price times quantity. */
  function TotalPrice(s: seq<Item>): int {
    SumOf(s, LineTotal)
  }

  /** The number on the cart badge: the sum of quantities. */
  function ItemCount(s: seq<Item>): int {
    SumOf(s, Quantity)
  }

  // ---------------------------------------------------------------------
  // Filtering

  lemma {:induction false} RemovedAbsent(s: seq<Item>, name: string)
    requires Absent(s, name)
    ensures Removed(s, name) == s
  {
    if s != [] {
      RemovedAbsent(s[1..], name);
    }
  }

  /** Filtering distributes over concatenation, so relative order is kept. */
  lemma {:induction false} RemovedAppend(a: seq<Item>, b: seq<Item>, name: string)
    ensures Removed(a + b, name) == Removed(a, name) + Removed(b, name)
  {
    if a == [] {
      assert a + b == b;
    } else {
      assert (a + b)[1..] == a[1..] + b;
      RemovedAppend(a[1..], b, name);
    }
  }

  /** In a cart with unique names, removing an item's name deletes exactly that item. */
  lemma RemovedUnique(s: seq<Item>, name: string, i: nat)
    requires NamesUnique(s) && i < |s| && s[i].name == name
    ensures Removed(s, name) == s[..i] + s[i + 1..]
  {
    assert s == s[..i] + ([s[i]] + s[i + 1..]);
    RemovedAppend(s[..i], [s[i]] + s[i + 1..], name);
    RemovedAppend([s[i]], s[i + 1..], name);
    RemovedAbsent(s[..i], name);
    RemovedAbsent(s[i + 1..], name);
    assert Removed([s[i]], name) == Removed([], name);
  }

  /** Changing an item that is filtered out anyway does not change the filter's result. */
  lemma {:induction false} RemovedIgnoresEntry(s: seq<Item>, name: string, i: nat, x: Item)
    requires i < |s| && s[i].name == name && x.name == name
    ensures Removed(s[i := x], name) == Removed(s, name)
  {
    if i > 0 {
      assert s[i := x][1..] == s[1..][i - 1 := x];
      RemovedIgnoresEntry(s[1..], name, i - 1, x);
    } else {
      assert s[i := x][1..] == s[1..];
    }
  }

  /** Removing a name twice is the same as removing it once. */
  lemma RemovedIdempotent(s: seq<Item>, name: string)
    ensures Removed(Removed(s, name), name) == Removed(s, name)
  {
    RemovedAbsent(Removed(s, name), name);
  }

  // ---------------------------------------------------------------------
  // The invariant is preserved

  lemma AddedPreservesInv(s: seq<Item>, name: string, price: nat)
    requires Inv(s)
    ensures Inv(Added(s, name, price))
  {
    var r := Added(s, name, price);
    match Find(s, name)
    case Some(i) =>
      assert forall k :: 0 <= k < |r| ==> r[k].name == s[k].name;
    case None =>
      assert forall k :: 0 <= k < |s| ==> r[k] == s[k];
  }

  /** Filtering keeps names unique. */
  lemma {:induction false} RemovedKeepsNamesUnique(s: seq<Item>, name: string)
    requires NamesUnique(s)
    ensures NamesUnique(Removed(s, name))
  {
    if s != [] {
      RemovedKeepsNamesUnique(s[1..], name);
      if s[0].name != name {
        var rest := Removed(s[1..], name);
        forall k | 0 <= k < |rest|
          ensures rest[k].name != s[0].name
        {
          assert rest[k] in s[1..];
        }
      }
    }
  }

  lemma RemovedPreservesInv(s: seq<Item>, name: string)
    requires Inv(s)
    ensures Inv(Removed(s, name))
  {
    RemovedKeepsNamesUnique(s, name);
    var r := Removed(s, name);
    forall k | 0 <= k < |r|
      ensures r[k].quantity >= 1
    {
      assert r[k] in s;
    }
  }

  lemma UpdatedPreservesInv(s: seq<Item>, name: string, change: int)
    requires Inv(s)
    ensures Inv(Updated(s, name, change))
  {
    match Find(s, name)
    case None =>
    case Some(i) =>
      if s[i].quantity + change <= 0 {
        RemovedPreservesInv(s, name);
      } else {
        var r := Updated(s, name, change);
        assert forall k :: 0 <= k < |r| ==> r[k].name == s[k].name;
      }
  }

  /** The user actions and handlers that change the cart. */
  datatype Action =
    | AddItem(name: string, price: nat)
    | RemoveItem(name: string)
    | ChangeQuantity(name: string, change: int)
    | ClearCart

  function Step(s: seq<Item>, a: Action): seq<Item> {
    match a
    case AddItem(name, price) => Added(s, name, price)
    case RemoveItem(name) => Removed(s, name)
    case ChangeQuantity(name, change) => Updated(s, name, change)
    case ClearCart => []
  }

  lemma StepPreservesInv(s: seq<Item>, a: Action)
    requires Inv(s)
    ensures Inv(Step(s, a))
  {
    match a
    case AddItem(name, price) => AddedPreservesInv(s, name, price);
    case RemoveItem(name) => RemovedPreservesInv(s, name);
    case ChangeQuantity(name, change) => UpdatedPreservesInv(s, name, change);
    case ClearCart =>
  }

  function Run(s: seq<Item>, actions: seq<Action>): seq<Item>
    decreases |actions|
  {
    if actions == [] then s else Run(Step(s, actions[0]), actions[1..])
  }

  /** Starting from a cart that satisfies the invariant, any sequence of actions keeps it. */
  lemma {:induction false} RunPreservesInv(s: seq<Item>, actions: seq<Action>)
    requires Inv(s)
    ensures Inv(Run(s, actions))
    decreases |actions|
  {
    if actions != [] {
      StepPreservesInv(s, actions[0]);
      RunPreservesInv(Step(s, actions[0]), actions[1..]);
    }
  }

  // ---------------------------------------------------------------------
  // Relations between the operations

  /** Adding a name twice to a cart without it appends one item of quantity 2. */
  lemma AddedTwice(s: seq<Item>, name: string, price: nat, price2: nat)
    requires Absent(s, name)
    ensures Added(Added(s, name, price), name, price2) == s + [Item(name, price, 2)]
  {
    var once := s + [Item(name, price, 1)];
    assert once[|s|].name == name;
    assert once[..|s|] == s;
  }

  /** `updateQuantity(name, -q)` on an item of quantity q is `removeFromCart(name)`. */
  lemma UpdatedByMinusQuantity(s: seq<Item>, name: string, i: nat)
    requires Find(s, name) == Some(i)
    ensures Updated(s, name, -s[i].quantity) == Removed(s, name)
  {
  }

  /** With unique names, that removal deletes exactly the one item. */
  lemma UpdatedByMinusQuantityDeletes(s: seq<Item>, name: string, i: nat)
    requires NamesUnique(s) && Find(s, name) == Some(i)
    ensures Updated(s, name, -s[i].quantity) == s[..i] + s[i + 1..]
  {
    RemovedUnique(s, name, i);
  }

  /** For an item already in the cart, adding it is the "+" button, `updateQuantity(name, 1)`. */
  lemma AddedIsIncrement(s: seq<Item>, name: string, price: nat)
    requires QuantitiesPositive(s) && !Absent(s, name)
    ensures Added(s, name, price) == Updated(s, name, 1)
  {
  }

  // ---------------------------------------------------------------------
  // Totals

  lemma {:induction false} SumOfAppend(a: seq<Item>, b: seq<Item>, f: Item -> int)
    ensures SumOf(a + b, f) == SumOf(a, f) + SumOf(b, f)
    decreases |b|
  {
    if b == [] {
      assert a + b == a;
    } else {
      assert (a + b)[..|a + b| - 1] == a + b[..|b| - 1];
      SumOfAppend(a, b[..|b| - 1], f);
    }
  }

  lemma SumOfSingle(x: Item, f: Item -> int)
    ensures SumOf([x], f) == f(x)
  {
    assert [x][..0] == [];
  }

  /** Replacing one item changes a sum by the difference of the two items' terms. */
  lemma SumOfReplace(s: seq<Item>, i: nat, x: Item, f: Item -> int)
    requires i < |s|
    ensures SumOf(s[i := x], f) == SumOf(s, f) - f(s[i]) + f(x)
  {
    assert s == s[..i] + [s[i]] + s[i + 1..];
    assert s[i := x] == s[..i] + [x] + s[i + 1..];
    SumOfAppend(s[..i] + [s[i]], s[i + 1..], f);
    SumOfAppend(s[..i], [s[i]], f);
    SumOfAppend(s[..i] + [x], s[i + 1..], f);
    SumOfAppend(s[..i], [x], f);
    SumOfSingle(s[i], f);
    SumOfSingle(x, f);
  }

  /** Deleting one item lowers a sum by that item's term. */
  lemma SumOfDelete(s: seq<Item>, i: nat, f: Item -> int)
    requires i < |s|
    ensures SumOf(s[..i] + s[i + 1..], f) == SumOf(s, f) - f(s[i])
  {
    assert s == s[..i] + [s[i]] + s[i + 1..];
    SumOfAppend(s[..i] + [s[i]], s[i + 1..], f);
    SumOfAppend(s[..i], [s[i]], f);
    SumOfAppend(s[..i], s[i + 1..], f);
    SumOfSingle(s[i], f);
  }

  /** The totals of a cart whose quantities are positive are non-negative, and the badge counts at least one per line. */
  lemma {:induction false} TotalsLowerBound(s: seq<Item>)
    requires QuantitiesPositive(s)
    ensures TotalPrice(s) >= 0
    ensures ItemCount(s) >= |s|
  {
    if s != [] {
      var init := s[..|s| - 1];
      assert QuantitiesPositive(init) by {
        assert forall k :: 0 <= k < |init| ==> init[k] == s[k];
      }
      TotalsLowerBound(init);
      assert LineTotal(s[|s| - 1]) >= 0;
    }
  }

  /** Under the invariant, the badge shows 0 exactly when the cart is empty. */
  lemma ItemCountZeroIffEmpty(s: seq<Item>)
    requires QuantitiesPositive(s)
    ensures ItemCount(s) == 0 <==> s == []
  {
    TotalsLowerBound(s);
  }

  /** `addToCart` raises the badge by one and the total by the price the cart holds for the item. */
  lemma TotalsAdded(s: seq<Item>, name: string, price: nat)
    ensures ItemCount(Added(s, name, price)) == ItemCount(s) + 1
    ensures TotalPrice(Added(s, name, price)) ==
              TotalPrice(s) + match Find(s, name) case Some(i) => s[i].price case None => price
  {
    match Find(s, name)
    case Some(i) =>
      var x := s[i].(quantity := s[i].quantity + 1);
      SumOfReplace(s, i, x, Quantity);
      SumOfReplace(s, i, x, LineTotal);
      assert LineTotal(x) == LineTotal(s[i]) + s[i].price;
    case None =>
      SumOfAppend(s, [Item(name, price, 1)], Quantity);
      SumOfAppend(s, [Item(name, price, 1)], LineTotal);
      SumOfSingle(Item(name, price, 1), Quantity);
      SumOfSingle(Item(name, price, 1), LineTotal);
  }

  /** With unique names, `removeFromCart` takes out that item's quantity and line total. */
  lemma TotalsRemoved(s: seq<Item>, name: string)
    requires NamesUnique(s)
    ensures Find(s, name).None? ==>
              ItemCount(Removed(s, name)) == ItemCount(s) && TotalPrice(Removed(s, name)) == TotalPrice(s)
    ensures Find(s, name).Some? ==>
              var i := Find(s, name).value;
              ItemCount(Removed(s, name)) == ItemCount(s) - s[i].quantity &&
              TotalPrice(Removed(s, name)) == TotalPrice(s) - s[i].price * s[i].quantity
  {
    match Find(s, name)
    case None =>
      RemovedAbsent(s, name);
    case Some(i) =>
      RemovedUnique(s, name, i);
      SumOfDelete(s, i, Quantity);
      SumOfDelete(s, i, LineTotal);
  }

  /** With unique names, `updateQuantity` moves the badge by `change` unless it deletes the item. */
  lemma TotalsUpdated(s: seq<Item>, name: string, change: int)
    requires NamesUnique(s)
    ensures Find(s, name).None? ==>
              ItemCount(Updated(s, name, change)) == ItemCount(s) &&
              TotalPrice(Updated(s, name, change)) == TotalPrice(s)
    ensures Find(s, name).Some? ==>
              var i := Find(s, name).value;
              if s[i].quantity + change <= 0 then
                ItemCount(Updated(s, name, change)) == ItemCount(s) - s[i].quantity &&
                TotalPrice(Updated(s, name, change)) == TotalPrice(s) - s[i].price * s[i].quantity
              else
                ItemCount(Updated(s, name, change)) == ItemCount(s) + change &&
                TotalPrice(Updated(s, name, change)) == TotalPrice(s) + s[i].price * change
  {
    match Find(s, name)
    case None =>
    case Some(i) =>
      if s[i].quantity + change <= 0 {
        TotalsRemoved(s, name);
      } else {
        TotalsChanged(s, i, change);
      }
  }

  lemma TotalsChanged(s: seq<Item>, i: nat, change: int)
    requires i < |s|
    ensures var x := s[i].(quantity := s[i].quantity + change);
            ItemCount(s[i := x]) == ItemCount(s) + change &&
            TotalPrice(s[i := x]) == TotalPrice(s) + s[i].price * change
  {
    var x := s[i].(quantity := s[i].quantity + change);
    SumOfReplace(s, i, x, Quantity);
    SumOfReplace(s, i, x, LineTotal);
    assert LineTotal(x) == LineTotal(s[i]) + s[i].price * change;
  }

  // ---------------------------------------------------------------------
  // The global `cart` variable as an object

  class CartStore {
    var items: seq<Item>

    ghost predicate Valid()
      reads this
    {
      Inv(items)
    }

    /** The cart as read back from storage at page load. */
    constructor (stored: seq<Item>)
      ensures items == stored
    {
      items := stored;
    }

    /** `addToCart(name, price)`: bump the first matching item in place, or push a new one. */
    method Add(name: string, price: nat)
      modifies this
      ensures items == Added(old(items), name, price)
      ensures old(Valid()) ==> Valid()
    {
      ghost var before := items;
      var found := Find(items, name);
      match found
      case Some(i) =>
        items := items[i := items[i].(quantity := items[i].quantity + 1)];
      case None =>
        items := items + [Item(name, price, 1)];
      if Inv(before) {
        AddedPreservesInv(before, name, price);
      }
    }

    /** `removeFromCart(name)`: reassign the cart to the filtered list. */
    method Remove(name: string)
      modifies this
      ensures items == Removed(old(items), name)
      ensures old(Valid()) ==> Valid()
    {
      if Inv(items) {
        RemovedPreservesInv(items, name);
      }
      items := Removed(items, name);
    }

    /** `updateQuantity(name, change)`: change the first matching item in place; drop it at zero or below. */
    method UpdateQuantity(name: string, change: int)
      modifies this
      ensures items == Updated(old(items), name, change)
      ensures old(Valid()) ==> Valid()
    {
      ghost var before := items;
      if Inv(before) {
        UpdatedPreservesInv(before, name, change);
      }
      var found := Find(items, name);
      if found.Some? {
        var i := found.value;
        var changed := items[i].(quantity := items[i].quantity + change);
        items := items[i := changed];
        if changed.quantity <= 0 {
          RemovedIgnoresEntry(before, name, i, changed);
          Remove(name);
        }
      }
    }

    /** `cart = []`, as the order-confirm, order-cancel and logout handlers do. */
    method Clear()
      modifies this
      ensures items == []
      ensures Valid()
    {
      items := [];
    }
  }
}

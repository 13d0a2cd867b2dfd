/**
 * The cart engine of context/CartContext.tsx: a list of line items keyed by
 * (product id, variant) and the open/closed state of the cart drawer.
 */
module Cart {
  import opened Opt
  import opened Seqs
  import opened Products

  /** The product snapshot the cart stores when a line is created. */
  datatype CartProduct = CartProduct(id: string, name: string, price: int, image: string)

  /** One line of the cart. */
  datatype CartItem = CartItem(product: CartProduct, quantity: int, variant: Option<Variant>)

  /**
   * The identity rule: same product id and structurally equal variant, an absent
   * variant matching only an absent one. Datatype equality stands for the comparison
   * of the two variants' JSON serialisations.
   */
  predicate SameLine(item: CartItem, id: string, variant: Option<Variant>) {
    item.product.id == id && item.variant == variant
  }

  /** No two lines share (product id, variant). */
  ghost predicate KeysUnique(items: seq<CartItem>) {
    forall i, j :: 0 <= i < j < |items| ==>
      !SameLine(items[j], items[i].product.id, items[i].variant)
  }

  /** Every line holds at least one unit. */
  ghost predicate QuantitiesPositive(items: seq<CartItem>) {
    forall i :: 0 <= i < |items| ==> items[i].quantity >= 1
  }

  /** The cart invariant kept from the empty cart on. */
  ghost predicate WellFormed(items: seq<CartItem>) {
    KeysUnique(items) && QuantitiesPositive(items)
  }

  /** `findIndex` with the identity rule: the first matching line, or -1. */
  function FindLine(items: seq<CartItem>, id: string, variant: Option<Variant>): (r: int)
    ensures -1 <= r < |items|
    ensures r == -1 <==> forall j :: 0 <= j < |items| ==> !SameLine(items[j], id, variant)
    ensures r >= 0 ==> SameLine(items[r], id, variant)
    ensures r >= 0 ==> forall j :: 0 <= j < r ==> !SameLine(items[j], id, variant)
  {
    if items == [] then -1
    else if SameLine(items[0], id, variant) then 0
    else
      var k := FindLine(items[1..], id, variant);
      if k == -1 then -1 else k + 1
  }

  /** The list `addToCart` produces: merge into the matching line, or append a new one. */
  function WithAdded(items: seq<CartItem>, product: CartProduct, quantity: int, variant: Option<Variant>): seq<CartItem>
  {
    var i := FindLine(items, product.id, variant);
    if i > -1 then items[i := items[i].(quantity := items[i].quantity + quantity)]
    else items + [CartItem(product, quantity, variant)]
  }

  /** The list `removeFromCart` produces: the `filter` dropping every matching line. */
  function WithoutLine(items: seq<CartItem>, id: string, variant: Option<Variant>): (r: seq<CartItem>)
    ensures forall x :: x in r <==> x in items && !SameLine(x, id, variant)
    ensures IsSubsequence(r, items)
  {
    if items == [] then []
    else if SameLine(items[0], id, variant) then WithoutLine(items[1..], id, variant)
    else [items[0]] + WithoutLine(items[1..], id, variant)
  }

  /** Removing a line drops every copy of it and keeps every other line as often as before. */
  lemma {:induction false} WithoutLineCounts(items: seq<CartItem>, id: string, variant: Option<Variant>)
    ensures forall x :: multiset(WithoutLine(items, id, variant))[x] ==
                       (if SameLine(x, id, variant) then 0 else multiset(items)[x])
  {
    if items != [] {
      assert items == [items[0]] + items[1..];
      WithoutLineCounts(items[1..], id, variant);
    }
  }

  /** The list the `map` of `updateQuantity` produces: matching lines get `quantity`. */
  function WithQuantity(items: seq<CartItem>, id: string, quantity: int, variant: Option<Variant>): seq<CartItem>
  {
    seq(|items|, j requires 0 <= j < |items| =>
      if SameLine(items[j], id, variant) then items[j].(quantity := quantity) else items[j])
  }

  /** The list `updateQuantity` produces: a quantity of 0 or less removes the line. */
  function WithUpdate(items: seq<CartItem>, id: string, quantity: int, variant: Option<Variant>): seq<CartItem>
  {
    if quantity <= 0 then WithoutLine(items, id, variant) else WithQuantity(items, id, quantity, variant)
  }

  // ---------------------------------------------------------------------------
  // Totals: the source folds with `reduce` from the left; the reference is the
  // recursive sum over the list.

  /** Sum of all quantities. */
  function SumQuantities(items: seq<CartItem>): int {
    if items == [] then 0 else items[0].quantity + SumQuantities(items[1..])
  }

  /** Sum of price times quantity over all lines. */
  function SumLinePrices(items: seq<CartItem>): int {
    if items == [] then 0 else items[0].product.price * items[0].quantity + SumLinePrices(items[1..])
  }

  /** `items.reduce((sum, item) => sum + item.quantity, acc)`. */
  function ReduceQuantities(acc: int, items: seq<CartItem>): int
    decreases items
  {
    if items == [] then acc else ReduceQuantities(acc + items[0].quantity, items[1..])
  }

  /** `items.reduce((sum, item) => sum + item.product.price * item.quantity, acc)`. */
  function ReduceLinePrices(acc: int, items: seq<CartItem>): int
    decreases items
  {
    if items == [] then acc
    else ReduceLinePrices(acc + items[0].product.price * items[0].quantity, items[1..])
  }

  /** The left fold of `reduce` agrees with the recursive sum. */
  lemma {:induction false} ReduceQuantitiesIsSum(acc: int, items: seq<CartItem>)
    ensures ReduceQuantities(acc, items) == acc + SumQuantities(items)
    decreases items
  {
    if items != [] {
      ReduceQuantitiesIsSum(acc + items[0].quantity, items[1..]);
    }
  }

  /** The left fold of `reduce` agrees with the recursive sum. */
  lemma {:induction false} ReduceLinePricesIsSum(acc: int, items: seq<CartItem>)
    ensures ReduceLinePrices(acc, items) == acc + SumLinePrices(items)
    decreases items
  {
    if items != [] {
      ReduceLinePricesIsSum(acc + items[0].product.price * items[0].quantity, items[1..]);
    }
  }

  /** `totalItems`: the reduce from 0, which is the sum of the quantities. */
  function TotalItems(items: seq<CartItem>): (r: int)
    ensures r == SumQuantities(items)
  {
    ReduceQuantitiesIsSum(0, items);
    ReduceQuantities(0, items)
  }

  /** `totalPrice`: the reduce from 0, which is the sum of price times quantity. */
  function TotalPrice(items: seq<CartItem>): (r: int)
    ensures r == SumLinePrices(items)
  {
    ReduceLinePricesIsSum(0, items);
    ReduceLinePrices(0, items)
  }

  /** Both sums split over concatenation. */
  lemma {:induction false} SumsAppend(a: seq<CartItem>, b: seq<CartItem>)
    ensures SumQuantities(a + b) == SumQuantities(a) + SumQuantities(b)
    ensures SumLinePrices(a + b) == SumLinePrices(a) + SumLinePrices(b)
  {
    if a == [] {
      assert a + b == b;
    } else {
      assert (a + b)[1..] == a[1..] + b;
      SumsAppend(a[1..], b);
    }
  }

  /** Deleting one line changes each sum by that line's contribution. */
  lemma {:induction false} SumsRemoveAt(items: seq<CartItem>, i: nat)
    requires i < |items|
    ensures SumQuantities(items[..i] + items[i + 1..]) == SumQuantities(items) - items[i].quantity
    ensures SumLinePrices(items[..i] + items[i + 1..]) ==
      SumLinePrices(items) - items[i].product.price * items[i].quantity
  {
    if i == 0 {
      assert items[..0] + items[1..] == items[1..];
    } else {
      SumsRemoveAt(items[1..], i - 1);
      assert items[1..][..i - 1] + items[1..][i..] == (items[..i] + items[i + 1..])[1..];
    }
  }

  /** Replacing one line changes each sum by that line's difference. */
  lemma {:induction false} SumsUpdateAt(items: seq<CartItem>, i: nat, x: CartItem)
    requires i < |items|
    ensures SumQuantities(items[i := x]) == SumQuantities(items) - items[i].quantity + x.quantity
    ensures SumLinePrices(items[i := x]) ==
      SumLinePrices(items) - items[i].product.price * items[i].quantity + x.product.price * x.quantity
  {
    if i > 0 {
      assert items[i := x][1..] == items[1..][i - 1 := x];
      SumsUpdateAt(items[1..], i - 1, x);
    }
  }

  /** With positive quantities the item count is at least the number of lines, and it is 0 only for the empty cart. */
  lemma {:induction false} TotalItemsBound(items: seq<CartItem>)
    requires QuantitiesPositive(items)
    ensures TotalItems(items) >= |items|
    ensures TotalItems(items) == 0 <==> items == []
  {
    if items != [] {
      TotalItemsBound(items[1..]);
    }
  }

  /** With non-negative prices and positive quantities the total price is non-negative. */
  lemma {:induction false} TotalPriceNonNegative(items: seq<CartItem>)
    requires QuantitiesPositive(items)
    requires forall i :: 0 <= i < |items| ==> items[i].product.price >= 0
    ensures TotalPrice(items) >= 0
  {
    if items != [] {
      TotalPriceNonNegative(items[1..]);
    }
  }

  // ---------------------------------------------------------------------------
  // addToCart

  /** A matching line grows by `quantity`, keeps its product snapshot; nothing else changes. */
  lemma AddMerges(items: seq<CartItem>, product: CartProduct, quantity: int, variant: Option<Variant>, i: nat)
    requires i < |items| && SameLine(items[i], product.id, variant)
    requires KeysUnique(items)
    ensures var r := WithAdded(items, product, quantity, variant);
      |r| == |items| &&
      r[i] == CartItem(items[i].product, items[i].quantity + quantity, variant) &&
      forall j :: 0 <= j < |items| && j != i ==> r[j] == items[j]
  {
    var k := FindLine(items, product.id, variant);
    assert k == i;
  }

  /** With no matching line a new line is appended and earlier lines are untouched. */
  lemma AddAppends(items: seq<CartItem>, product: CartProduct, quantity: int, variant: Option<Variant>)
    requires forall j :: 0 <= j < |items| ==> !SameLine(items[j], product.id, variant)
    ensures WithAdded(items, product, quantity, variant) == items + [CartItem(product, quantity, variant)]
  {
  }

  /** addToCart changes the item count by `quantity` and the total by the line's price times `quantity`. */
  lemma AddTotals(items: seq<CartItem>, product: CartProduct, quantity: int, variant: Option<Variant>)
    ensures var r := WithAdded(items, product, quantity, variant);
      var i := FindLine(items, product.id, variant);
      TotalItems(r) == TotalItems(items) + quantity &&
      TotalPrice(r) == TotalPrice(items) + (if i >= 0 then items[i].product.price else product.price) * quantity
  {
    var i := FindLine(items, product.id, variant);
    if i >= 0 {
      SumsUpdateAt(items, i, items[i].(quantity := items[i].quantity + quantity));
    } else {
      SumsAppend(items, [CartItem(product, quantity, variant)]);
    }
  }

  /** addToCart keeps the keys unique, and keeps quantities positive when it adds a positive amount. */
  lemma AddWellFormed(items: seq<CartItem>, product: CartProduct, quantity: int, variant: Option<Variant>)
    ensures KeysUnique(items) ==> KeysUnique(WithAdded(items, product, quantity, variant))
    ensures QuantitiesPositive(items) && quantity >= 1 ==>
      QuantitiesPositive(WithAdded(items, product, quantity, variant))
  {
    var r := WithAdded(items, product, quantity, variant);
    if KeysUnique(items) && FindLine(items, product.id, variant) == -1 {
      forall i, j | 0 <= i < j < |r|
        ensures !SameLine(r[j], r[i].product.id, r[i].variant)
      {
        if j == |items| {
          assert r[j] == CartItem(product, quantity, variant);
        }
      }
    }
  }

  // ---------------------------------------------------------------------------
  // removeFromCart

  /** Removing a key that no line has changes nothing. */
  lemma {:induction false} RemoveAbsent(items: seq<CartItem>, id: string, variant: Option<Variant>)
    requires forall j :: 0 <= j < |items| ==> !SameLine(items[j], id, variant)
    ensures WithoutLine(items, id, variant) == items
  {
    if items != [] {
      RemoveAbsent(items[1..], id, variant);
    }
  }

  /** In a cart with unique keys, removing the key of line `i` removes exactly that line. */
  lemma {:induction false} RemoveOne(items: seq<CartItem>, i: nat)
    requires i < |items| && KeysUnique(items)
    ensures WithoutLine(items, items[i].product.id, items[i].variant) == items[..i] + items[i + 1..]
  {
    var id, v := items[i].product.id, items[i].variant;
    if i == 0 {
      RemoveAbsent(items[1..], id, v);
    } else {
      assert !SameLine(items[0], id, v);
      RemoveOne(items[1..], i - 1);
      assert items[1..][i - 1] == items[i];
      assert items[1..][..i - 1] == items[1..i];
      assert items[1..][i..] == items[i + 1..];
      assert [items[0]] + items[1..i] == items[..i];
    }
  }

  /** Removing one line lowers each total by that line's contribution. */
  lemma RemoveTotals(items: seq<CartItem>, i: nat)
    requires i < |items| && KeysUnique(items)
    ensures var r := WithoutLine(items, items[i].product.id, items[i].variant);
      |r| == |items| - 1 &&
      TotalItems(r) == TotalItems(items) - items[i].quantity &&
      TotalPrice(r) == TotalPrice(items) - items[i].product.price * items[i].quantity
  {
    RemoveOne(items, i);
    SumsRemoveAt(items, i);
  }

  /** The filter keeps unique keys and positive quantities. */
  lemma {:induction false} RemoveWellFormed(items: seq<CartItem>, id: string, variant: Option<Variant>)
    ensures KeysUnique(items) ==> KeysUnique(WithoutLine(items, id, variant))
    ensures QuantitiesPositive(items) ==> QuantitiesPositive(WithoutLine(items, id, variant))
  {
    if items != [] {
      RemoveWellFormed(items[1..], id, variant);
      var rest := WithoutLine(items[1..], id, variant);
      if KeysUnique(items) {
        assert KeysUnique(items[1..]) by {
          forall i, j | 0 <= i < j < |items[1..]|
            ensures !SameLine(items[1..][j], items[1..][i].product.id, items[1..][i].variant)
          {
            assert items[1..][i] == items[i + 1] && items[1..][j] == items[j + 1];
          }
        }
        forall y | y in rest ensures !SameLine(y, items[0].product.id, items[0].variant) {
          var j :| 0 <= j < |items[1..]| && items[1..][j] == y;
          assert items[j + 1] == y;
        }
      }
      if QuantitiesPositive(items) {
        assert QuantitiesPositive(items[1..]) by {
          forall i | 0 <= i < |items[1..]| ensures items[1..][i].quantity >= 1 {
            assert items[1..][i] == items[i + 1];
          }
        }
      }
    }
  }

  // ---------------------------------------------------------------------------
  // updateQuantity

  /** The map sets matching lines to the exact quantity (not a delta); length and other lines are unchanged. */
  lemma UpdateSets(items: seq<CartItem>, id: string, quantity: int, variant: Option<Variant>)
    requires quantity > 0
    ensures var r := WithUpdate(items, id, quantity, variant);
      |r| == |items| &&
      forall j :: 0 <= j < |items| ==>
        (SameLine(items[j], id, variant) ==> r[j] == items[j].(quantity := quantity)) &&
        (!SameLine(items[j], id, variant) ==> r[j] == items[j])
  {
  }

  /** An update to 0 or less is removeFromCart: no line with that key is left, the others keep their order. */
  lemma UpdateNonPositiveRemoves(items: seq<CartItem>, id: string, quantity: int, variant: Option<Variant>)
    requires quantity <= 0
    ensures var r := WithUpdate(items, id, quantity, variant);
      r == WithoutLine(items, id, variant) &&
      (forall x :: x in r ==> !SameLine(x, id, variant)) &&
      IsSubsequence(r, items)
  {
  }

  /** In a cart with unique keys, a positive update of line `i`'s key changes exactly that line. */
  lemma UpdateOne(items: seq<CartItem>, i: nat, quantity: int)
    requires i < |items| && KeysUnique(items) && quantity > 0
    ensures WithUpdate(items, items[i].product.id, quantity, items[i].variant) ==
      items[i := items[i].(quantity := quantity)]
  {
    var id, v := items[i].product.id, items[i].variant;
    forall j | 0 <= j < |items| && j != i ensures !SameLine(items[j], id, v) {
      if j < i {
        assert !SameLine(items[i], items[j].product.id, items[j].variant);
      }
    }
  }

  /** With unique keys, updating line `i` to a positive quantity changes each total by that line's difference. */
  lemma UpdateTotals(items: seq<CartItem>, i: nat, quantity: int)
    requires i < |items| && KeysUnique(items) && quantity > 0
    ensures var r := WithUpdate(items, items[i].product.id, quantity, items[i].variant);
      TotalItems(r) == TotalItems(items) - items[i].quantity + quantity &&
      TotalPrice(r) == TotalPrice(items) + items[i].product.price * (quantity - items[i].quantity)
  {
    UpdateOne(items, i, quantity);
    SumsUpdateAt(items, i, items[i].(quantity := quantity));
    assert items[i].product.price * (quantity - items[i].quantity)
      == items[i].product.price * quantity - items[i].product.price * items[i].quantity;
  }

  /** updateQuantity keeps unique keys, and keeps quantities positive. */
  lemma UpdateWellFormed(items: seq<CartItem>, id: string, quantity: int, variant: Option<Variant>)
    ensures KeysUnique(items) ==> KeysUnique(WithUpdate(items, id, quantity, variant))
    ensures QuantitiesPositive(items) ==> QuantitiesPositive(WithUpdate(items, id, quantity, variant))
  {
    RemoveWellFormed(items, id, variant);
  }

  // ---------------------------------------------------------------------------
  // Sequences of operations from the empty cart

  /** One call of the cart's interface, as it affects `items`. */
  datatype CartOp =
    | Add(product: CartProduct, quantity: int, variant: Option<Variant>)
    | Remove(id: string, variant: Option<Variant>)
    | Update(id: string, quantity: int, variant: Option<Variant>)
    | Clear
    | Toggle

  function Apply(items: seq<CartItem>, op: CartOp): seq<CartItem> {
    match op
    case Add(p, q, v) => WithAdded(items, p, q, v)
    case Remove(id, v) => WithoutLine(items, id, v)
    case Update(id, q, v) => WithUpdate(items, id, q, v)
    case Clear => []
    case Toggle => items
  }

  /** The items after running `ops` from the initial empty cart. */
  function Replay(ops: seq<CartOp>): seq<CartItem> {
    if ops == [] then [] else Apply(Replay(ops[..|ops| - 1]), ops[|ops| - 1])
  }

  /** Every addToCart call in `ops` adds a positive amount. */
  predicate AddsPositive(ops: seq<CartOp>) {
    forall k :: 0 <= k < |ops| && ops[k].Add? ==> ops[k].quantity >= 1
  }

  /** From the empty cart, keys stay unique and quantities positive, whatever the calls. */
  lemma {:induction false} ReplayWellFormed(ops: seq<CartOp>)
    requires AddsPositive(ops)
    ensures WellFormed(Replay(ops))
  {
    if ops != [] {
      var prefix := ops[..|ops| - 1];
      assert AddsPositive(prefix) by {
        forall k | 0 <= k < |prefix| && prefix[k].Add? ensures prefix[k].quantity >= 1 {
          assert prefix[k] == ops[k];
        }
      }
      ReplayWellFormed(prefix);
      var items := Replay(prefix);
      match ops[|ops| - 1]
      case Add(p, q, v) => AddWellFormed(items, p, q, v);
      case Remove(id, v) => RemoveWellFormed(items, id, v);
      case Update(id, q, v) => UpdateWellFormed(items, id, q, v);
      case Clear =>
      case Toggle =>
    }
  }

  /** Adding the same (product, variant) twice gives one line with the sum of the quantities. */
  lemma AddTwiceMerges(p: CartProduct, v: Option<Variant>)
    ensures WithAdded(WithAdded([], p, 1, v), p, 1, v) == [CartItem(p, 2, v)]
  {
  }

  /** Adding one product with two different variants gives two lines. */
  lemma DifferentVariantsStaySeparate(p: CartProduct, v1: Option<Variant>, v2: Option<Variant>)
    requires v1 != v2
    ensures WithAdded(WithAdded([], p, 1, v1), p, 1, v2) == [CartItem(p, 1, v1), CartItem(p, 1, v2)]
  {
  }

  /**
   * A worked example: two candles of one aroma, one more of the same aroma, one of
   * another aroma, then the second aroma removed again.
   */
  lemma CandleScenario(name: string, image: string)
    ensures
      var p := CartProduct("vela-1", name, 1000, image);
      var lavanda := Some(Variant("lavanda", None, None, None));
      var rosas := Some(Variant("rosas", None, None, None));
      var s1 := WithAdded([], p, 2, lavanda);
      var s2 := WithAdded(s1, p, 1, lavanda);
      var s3 := WithAdded(s2, p, 1, rosas);
      var s4 := WithoutLine(s3, "vela-1", rosas);
      |s1| == 1 && TotalItems(s1) == 2 && TotalPrice(s1) == 2000 &&
      |s2| == 1 && s2[0].quantity == 3 && TotalPrice(s2) == 3000 &&
      |s3| == 2 && TotalItems(s3) == 4 && TotalPrice(s3) == 4000 &&
      |s4| == 1 && TotalItems(s4) == 3 && TotalPrice(s4) == 3000
  {
    var p := CartProduct("vela-1", name, 1000, image);
    var lavanda := Some(Variant("lavanda", None, None, None));
    var rosas := Some(Variant("rosas", None, None, None));
    assert lavanda != rosas by {
      assert "lavanda"[0] != "rosas"[0];
    }
    var s1 := [CartItem(p, 2, lavanda)];
    assert s1[1..] == [];
    var s2 := [CartItem(p, 3, lavanda)];
    assert s2[1..] == [];
    assert WithAdded(s1, p, 1, lavanda) == s2;
    var added := [CartItem(p, 1, rosas)];
    assert added[1..] == [];
    var s3 := s2 + added;
    assert WithAdded(s2, p, 1, rosas) == s3;
    SumsAppend(s2, added);
    assert s3[1..] == added;
    assert WithoutLine(s3, "vela-1", rosas) == s2;
  }

  // ---------------------------------------------------------------------------
  // The engine's state

  class CartEngine {
    var items: seq<CartItem>
    var isCartOpen: bool

    ghost predicate Valid()
      reads this
    {
      WellFormed(items)
    }

    /** The provider starts with an empty, closed cart. */
    constructor ()
      ensures items == [] && !isCartOpen && Valid()
    {
      items := [];
      isCartOpen := false;
    }

    /**
     * The mount-time load: a missing or empty saved value leaves the cart alone, and so
     * does a value `parse` rejects; otherwise the parsed list replaces `items`.
     */
    method Hydrate(saved: Option<string>, parse: string -> Option<seq<CartItem>>)
      modifies this
      ensures isCartOpen == old(isCartOpen)
      ensures saved.Some? && saved.value != "" && parse(saved.value).Some? ==> items == parse(saved.value).value
      ensures !(saved.Some? && saved.value != "" && parse(saved.value).Some?) ==> items == old(items)
      ensures saved.Some? && saved.value != "" && parse(saved.value).Some? && WellFormed(parse(saved.value).value)
              ==> Valid()
      ensures !(saved.Some? && saved.value != "" && parse(saved.value).Some?) && old(Valid()) ==> Valid()
    {
      if saved.Some? && saved.value != "" {
        var parsed := parse(saved.value);
        if parsed.Some? {
          items := parsed.value;
        }
      }
    }

    method AddToCart(product: CartProduct, quantity: int, variant: Option<Variant>)
      modifies this
      ensures items == WithAdded(old(items), product, quantity, variant)
      ensures isCartOpen
      ensures old(Valid()) && quantity >= 1 ==> Valid()
    {
      AddWellFormed(items, product, quantity, variant);
      var existing := FindLine(items, product.id, variant);
      if existing > -1 {
        var newItems := items;
        newItems := newItems[existing := newItems[existing].(quantity := newItems[existing].quantity + quantity)];
        items := newItems;
      } else {
        items := items + [CartItem(product, quantity, variant)];
      }
      isCartOpen := true;
    }

    method RemoveFromCart(productId: string, variant: Option<Variant>)
      modifies this
      ensures items == WithoutLine(old(items), productId, variant)
      ensures isCartOpen == old(isCartOpen)
      ensures old(Valid()) ==> Valid()
    {
      RemoveWellFormed(items, productId, variant);
      items := WithoutLine(items, productId, variant);
    }

    method UpdateQuantity(productId: string, quantity: int, variant: Option<Variant>)
      modifies this
      ensures items == WithUpdate(old(items), productId, quantity, variant)
      ensures isCartOpen == old(isCartOpen)
      ensures old(Valid()) ==> Valid()
    {
      if quantity <= 0 {
        RemoveFromCart(productId, variant);
        return;
      }
      UpdateWellFormed(items, productId, quantity, variant);
      items := WithQuantity(items, productId, quantity, variant);
    }

    method ClearCart()
      modifies this
      ensures items == [] && isCartOpen == old(isCartOpen)
    {
      items := [];
    }

    method ToggleCart()
      modifies this
      ensures isCartOpen == !old(isCartOpen) && items == old(items)
    {
      isCartOpen := !isCartOpen;
    }

    /** `totalItems`, recomputed from the current lines. */
    function ItemCount(): (r: int)
      reads this
      ensures r == SumQuantities(items)
    {
      TotalItems(items)
    }

    /** `totalPrice`, recomputed from the current lines. */
    function PriceTotal(): (r: int)
      reads this
      ensures r == SumLinePrices(items)
    {
      TotalPrice(items)
    }
  }
}

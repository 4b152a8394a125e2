/**
 * The zustand cart store of lib/hooks/use-cart.ts, the store the quick-view
 * and cart modals use. Its state is the line list `items` and the sidebar
 * flag `isOpen`; every action replaces one of them through `set`, and the
 * getters are reductions over `items`.
 */
module UseCart {
  import opened Options
  import opened CartLines

  const TaxRate: real := 0.08
  /** Shipping is free when the subtotal is strictly above this amount. */
  const FreeShippingAbove: real := 30.0
  const ShippingFee: real := 5.0
  /** A 'large' drink costs one dollar more per unit. */
  const LargeSurcharge: real := 1.0

  /** The lines carry no id equal to `id`. */
  ghost predicate IdAbsent(s: seq<CartItem>, id: string) {
    forall i :: 0 <= i < |s| ==> s[i].id != id
  }

  /**
   * The `map` in the merge branch of `addItem`: it matches on the found
   * line's id, so EVERY line carrying that id gains `delta`.
   */
  function AddToId(s: seq<CartItem>, id: string, delta: int): (r: seq<CartItem>)
    ensures |r| == |s|
    ensures forall i :: 0 <= i < |s| ==>
      r[i] == if s[i].id == id then s[i].(quantity := s[i].quantity + delta) else s[i]
  {
    if s == [] then []
    else [if s[0].id == id then s[0].(quantity := s[0].quantity + delta) else s[0]] + AddToId(s[1..], id, delta)
  }

  /** Two merges on one id add up. */
  lemma AddToIdTwice(s: seq<CartItem>, id: string, a: int, b: int)
    ensures AddToId(AddToId(s, id, a), id, b) == AddToId(s, id, a + b)
  {
    var r, t := AddToId(AddToId(s, id, a), id, b), AddToId(s, id, a + b);
    forall i | 0 <= i < |s| ensures r[i] == t[i] {
      assert AddToId(s, id, a)[i].id == s[i].id;
    }
  }

  /** The line list after `addItem(product, variant, quantity)`; `newId` stands for `${product.id}-${Date.now()}`. */
  function AddLine(s: seq<CartItem>, product: Product, variant: Variant, quantity: int, newId: string): seq<CartItem>
  {
    match FirstWithKey(s, product.id, variant)
    case Some(k) => AddToId(s, s[k].id, quantity)
    case None => s + [CartItem(newId, product, variant, quantity)]
  }

  /**
   * `addItem` adds a line exactly when no line has the key, keeps every
   * existing line's id, product and variant, and leaves the key in the cart.
   */
  lemma AddLineShape(s: seq<CartItem>, product: Product, variant: Variant, quantity: int, newId: string)
    ensures var r := AddLine(s, product, variant, quantity, newId);
      && |r| == (if FirstWithKey(s, product.id, variant).Some? then |s| else |s| + 1)
      && (forall i :: 0 <= i < |s| ==> r[i].id == s[i].id && r[i].product == s[i].product && r[i].variant == s[i].variant)
      && FirstWithKey(r, product.id, variant).Some?
  {
    var r := AddLine(s, product, variant, quantity, newId);
    var first := FirstWithKey(s, product.id, variant);
    if first.Some? {
      assert HasKey(r[first.value], product.id, variant);
    } else {
      assert HasKey(r[|s|], product.id, variant);
    }
  }

  /** `addItem` on a new key appends exactly one line, with the given id, at the end. */
  lemma AddLineAppends(s: seq<CartItem>, product: Product, variant: Variant, quantity: int, newId: string)
    requires FirstWithKey(s, product.id, variant) == None
    ensures AddLine(s, product, variant, quantity, newId) == s + [CartItem(newId, product, variant, quantity)]
  {
  }

  /**
   * `addItem` on a key whose first line is k adds `quantity` to line k and
   * leaves the number of lines, their order and every other line as they were.
   */
  lemma AddLineAtMatch(s: seq<CartItem>, product: Product, variant: Variant, quantity: int, newId: string, k: nat)
    requires DistinctIds(s) && FirstWithKey(s, product.id, variant) == Some(k)
    ensures AddLine(s, product, variant, quantity, newId) == s[k := s[k].(quantity := s[k].quantity + quantity)]
  {
    assert AddLine(s, product, variant, quantity, newId) == AddToId(s, s[k].id, quantity);
    AddToIdSingle(s, k, quantity);
  }

  /** With distinct ids, the merge `map` on line k's id changes line k only. */
  lemma AddToIdSingle(s: seq<CartItem>, k: nat, delta: int)
    requires DistinctIds(s) && k < |s|
    ensures AddToId(s, s[k].id, delta) == s[k := s[k].(quantity := s[k].quantity + delta)]
  {
    var r := AddToId(s, s[k].id, delta);
    var t := s[k := s[k].(quantity := s[k].quantity + delta)];
    forall i | 0 <= i < |s| ensures r[i] == t[i] {
      if i != k {
        assert s[i].id != s[k].id;
      }
    }
  }

  /** `addItem` never creates a second line for a (product id, variant) key. */
  lemma AddLineKeepsKeysUnique(s: seq<CartItem>, product: Product, variant: Variant, quantity: int, newId: string)
    requires NoDuplicateKeys(s)
    ensures NoDuplicateKeys(AddLine(s, product, variant, quantity, newId))
  {
    var r := AddLine(s, product, variant, quantity, newId);
    match FirstWithKey(s, product.id, variant)
    case Some(k) =>
      assert forall i :: 0 <= i < |s| ==> SameKey(r[i], s[i]) && SameKey(s[i], r[i]);
    case None =>
      forall i, j | 0 <= i < j < |r| ensures !SameKey(r[i], r[j]) {
        if j == |s| {
          assert !HasKey(s[i], product.id, variant);
        } else {
          assert r[i] == s[i] && r[j] == s[j];
        }
      }
  }

  /** With a fresh id for a new line, line ids stay distinct. */
  lemma AddLineKeepsIdsDistinct(s: seq<CartItem>, product: Product, variant: Variant, quantity: int, newId: string)
    requires DistinctIds(s) && IdAbsent(s, newId)
    ensures DistinctIds(AddLine(s, product, variant, quantity, newId))
  {
    var r := AddLine(s, product, variant, quantity, newId);
    match FirstWithKey(s, product.id, variant)
    case Some(k) =>
      assert forall i :: 0 <= i < |s| ==> r[i].id == s[i].id;
    case None =>
      assert forall i :: 0 <= i < |s| ==> r[i] == s[i];
  }

  /** A positive `quantity` keeps every line quantity positive. */
  lemma AddLineKeepsQuantitiesPositive(s: seq<CartItem>, product: Product, variant: Variant, quantity: int, newId: string)
    requires PositiveQuantities(s) && quantity > 0
    ensures PositiveQuantities(AddLine(s, product, variant, quantity, newId))
  {
    var r := AddLine(s, product, variant, quantity, newId);
    match FirstWithKey(s, product.id, variant)
    case Some(k) =>
    case None =>
      assert forall i :: 0 <= i < |s| ==> r[i] == s[i];
  }

  /** The unit price of a line: the product price, plus the surcharge for a 'large' size. */
  function UnitPrice(line: CartItem): (p: real)
    ensures line.variant.size == Some("large") ==> p == line.product.price + LargeSurcharge
    ensures line.variant.size != Some("large") ==> p == line.product.price
  {
    line.product.price + (if line.variant.size == Some("large") then LargeSurcharge else 0.0)
  }

  function LineTotal(line: CartItem): real {
    UnitPrice(line) * line.quantity as real
  }

  /** `getSubtotal()`. */
  function Subtotal(s: seq<CartItem>): real {
    SumReal(s, LineTotal)
  }

  /** `getTax()`: 8% of the subtotal. */
  function Tax(s: seq<CartItem>): (t: real)
    ensures t == Subtotal(s) * 8.0 / 100.0
    ensures Subtotal(s) >= 0.0 ==> 0.0 <= t <= Subtotal(s)
  {
    Subtotal(s) * TaxRate
  }

  /** `getShipping()`: free strictly above $30, otherwise $5. */
  function Shipping(s: seq<CartItem>): (r: real)
    ensures r == 0.0 <==> Subtotal(s) > FreeShippingAbove
    ensures r != 0.0 ==> r == ShippingFee
  {
    if Subtotal(s) > FreeShippingAbove then 0.0 else ShippingFee
  }

  /** `getTotal()`. */
  function Total(s: seq<CartItem>): (t: real)
    ensures t == Subtotal(s) * 1.08 + Shipping(s)
    ensures Subtotal(s) >= 0.0 ==> t >= Subtotal(s)
  {
    Subtotal(s) + Tax(s) + Shipping(s)
  }

  /** The item count grows by exactly the quantity `addItem` adds. */
  lemma AddLineItemCount(s: seq<CartItem>, product: Product, variant: Variant, quantity: int, newId: string)
    requires DistinctIds(s)
    ensures ItemCount(AddLine(s, product, variant, quantity, newId)) == ItemCount(s) + quantity
  {
    var first := FirstWithKey(s, product.id, variant);
    if first.Some? {
      var k := first.value;
      AddLineAtMatch(s, product, variant, quantity, newId, k);
      SumIntUpdate(s, k, s[k].(quantity := s[k].quantity + quantity), QuantityOf);
    } else {
      var x := CartItem(newId, product, variant, quantity);
      SumIntConcat(s, [x], QuantityOf);
      assert SumInt([x], QuantityOf) == quantity;
    }
  }

  /** Merging into line k raises the subtotal by that line's unit price times the quantity added. */
  lemma AddLineSubtotalMerge(s: seq<CartItem>, product: Product, variant: Variant, quantity: int, newId: string, k: nat)
    requires DistinctIds(s) && FirstWithKey(s, product.id, variant) == Some(k)
    ensures Subtotal(AddLine(s, product, variant, quantity, newId)) == Subtotal(s) + UnitPrice(s[k]) * quantity as real
  {
    AddLineAtMatch(s, product, variant, quantity, newId, k);
    SubtotalAfterBump(s, k, quantity);
  }

  /** Adding `delta` units to line k adds `delta` of its unit prices to the subtotal. */
  lemma SubtotalAfterBump(s: seq<CartItem>, k: nat, delta: int)
    requires k < |s|
    ensures Subtotal(s[k := s[k].(quantity := s[k].quantity + delta)]) == Subtotal(s) + UnitPrice(s[k]) * delta as real
  {
    var x := s[k].(quantity := s[k].quantity + delta);
    SumRealUpdate(s, k, x, LineTotal);
    LineTotalGrows(s[k], delta);
  }

  /** A new line raises the subtotal by its own unit price times its quantity. */
  lemma AddLineSubtotalNew(s: seq<CartItem>, product: Product, variant: Variant, quantity: int, newId: string)
    requires FirstWithKey(s, product.id, variant) == None
    ensures Subtotal(AddLine(s, product, variant, quantity, newId))
      == Subtotal(s) + UnitPrice(CartItem(newId, product, variant, quantity)) * quantity as real
  {
    var x := CartItem(newId, product, variant, quantity);
    assert AddLine(s, product, variant, quantity, newId) == s + [x];
    SumRealConcat(s, [x], LineTotal);
    assert SumReal([x], LineTotal) == LineTotal(x) + SumReal([], LineTotal);
  }

  /** Adding `delta` units to a line adds `delta` unit prices to its total. */
  lemma LineTotalGrows(line: CartItem, delta: int)
    ensures LineTotal(line.(quantity := line.quantity + delta)) == LineTotal(line) + UnitPrice(line) * delta as real
  {
    var u := UnitPrice(line);
    assert UnitPrice(line.(quantity := line.quantity + delta)) == u;
    assert (line.quantity + delta) as real == line.quantity as real + delta as real;
    assert u * (line.quantity as real + delta as real) == u * line.quantity as real + u * delta as real;
  }

  /** Removing the one line with a given id lowers the subtotal by exactly that line's total. */
  lemma RemoveLineSubtotal(s: seq<CartItem>, k: nat)
    requires DistinctIds(s) && k < |s|
    ensures Subtotal(RemoveId(s, s[k].id)) == Subtotal(s) - LineTotal(s[k])
  {
    RemoveIdAt(s, k);
    SumRealRemove(s, k, LineTotal);
  }

  /** With nonnegative prices and positive quantities the subtotal is nonnegative. */
  lemma {:induction false} SubtotalNonNegative(s: seq<CartItem>)
    requires PositiveQuantities(s)
    requires forall i :: 0 <= i < |s| ==> s[i].product.price >= 0.0
    ensures Subtotal(s) >= 0.0
  {
    if s != [] {
      SubtotalNonNegative(s[1..]);
      assert LineTotal(s[0]) >= 0.0;
    }
  }

  class CartStore {
    var items: seq<CartItem>
    var isOpen: bool

    /** The store's invariant: one line per (product id, variant) key. */
    ghost predicate Valid()
      reads this
    {
      NoDuplicateKeys(items)
    }

    /** The initial state `{ items: [], isOpen: false }`. */
    constructor ()
      ensures Valid()
      ensures items == [] && !isOpen
    {
      items := [];
      isOpen := false;
    }

    /**
     * `addItem(product, variant = {}, quantity = 1)`; `None` is an omitted
     * argument. `newId` is the clock-derived id a new line would get.
     */
    method AddItem(product: Product, variant: Option<Variant>, quantity: Option<int>, newId: string)
      requires Valid()
      modifies this
      ensures Valid()
      ensures items == AddLine(old(items), product, variant.GetOr(EmptyVariant), quantity.GetOr(1), newId)
      ensures isOpen == old(isOpen)
    {
      var v := variant.GetOr(EmptyVariant);
      var q := quantity.GetOr(1);
      AddLineKeepsKeysUnique(items, product, v, q, newId);
      items := AddLine(items, product, v, q, newId);
    }

    /** `removeItem(itemId)`: drops every line with that id. */
    method RemoveItem(itemId: string)
      requires Valid()
      modifies this
      ensures Valid()
      ensures items == RemoveId(old(items), itemId)
      ensures isOpen == old(isOpen)
    {
      RemoveIdKeepsInvariants(items, itemId);
      items := RemoveId(items, itemId);
    }

    /** `updateQuantity(itemId, quantity)`: a quantity of zero or less is `removeItem`. */
    method UpdateQuantity(itemId: string, quantity: int)
      requires Valid()
      modifies this
      ensures Valid()
      ensures items == UpdatedLines(old(items), itemId, quantity)
      ensures isOpen == old(isOpen)
    {
      if quantity <= 0 {
        RemoveItem(itemId);
        return;
      }
      UpdatedLinesKeepsInvariants(items, itemId, quantity);
      items := SetQuantity(items, itemId, quantity);
    }

    method ClearCart()
      modifies this
      ensures Valid()
      ensures items == [] && isOpen == old(isOpen)
    {
      items := [];
    }

    method ToggleCart()
      modifies this
      ensures isOpen == !old(isOpen) && items == old(items)
    {
      isOpen := !isOpen;
    }

    method OpenCart()
      modifies this
      ensures isOpen && items == old(items)
    {
      isOpen := true;
    }

    method CloseCart()
      modifies this
      ensures !isOpen && items == old(items)
    {
      isOpen := false;
    }
  }

  /** Two toggles restore the sidebar flag and leave the lines alone. */
  method ToggleTwice(cart: CartStore)
    modifies cart
    ensures cart.isOpen == old(cart.isOpen) && cart.items == old(cart.items)
  {
    cart.ToggleCart();
    cart.ToggleCart();
  }
}

/**
 * The React-context cart of components/providers/cart-provider.tsx. It keeps
 * the same line list as the zustand store but differs in three ways: it
 * merges into the line found by `findIndex` only, it compares an omitted
 * variant (`undefined`) with the stored `{}` and so never merges it, and its
 * money rules have no size surcharge, 8.75% tax and free shipping from $50.
 */
module CartContext {
  import opened Options
  import opened CartLines
  import UseCart

  const TaxRate: real := 0.0875
  /** Shipping is free when the subtotal is at least this amount. */
  const ShippingThreshold: real := 50.0
  const ShippingCost: real := 5.99

  /**
   * `findIndex` on `JSON.stringify(item.variant) === JSON.stringify(variant)`.
   * Stored variants are always objects; `JSON.stringify(undefined)` is not a
   * string, so an omitted variant matches no line.
   */
  function MatchIndex(s: seq<CartItem>, productId: string, variant: Option<Variant>): (m: Option<nat>)
    ensures variant.None? ==> m.None?
    ensures m.Some? ==> variant.Some? && m.value < |s| && HasKey(s[m.value], productId, variant.value)
    ensures m.Some? ==> forall j :: 0 <= j < m.value ==> !HasKey(s[j], productId, variant.value)
    ensures variant.Some? && m.None? ==> forall j :: 0 <= j < |s| ==> !HasKey(s[j], productId, variant.value)
  {
    match variant
    case None => None
    case Some(v) => FirstWithKey(s, productId, v)
  }

  /** The line list after `addItem(product, variant, quantity)`; `newId` stands for `${product.id}-${Date.now()}`. */
  function AddLine(s: seq<CartItem>, product: Product, variant: Option<Variant>, quantity: int, newId: string): (r: seq<CartItem>)
    ensures MatchIndex(s, product.id, variant).Some? ==> |r| == |s|
    ensures MatchIndex(s, product.id, variant).None? ==> |r| == |s| + 1 && r[|s|].variant == variant.GetOr(EmptyVariant)
  {
    match MatchIndex(s, product.id, variant)
    case Some(k) => s[k := s[k].(quantity := s[k].quantity + quantity)]
    case None => s + [CartItem(newId, product, variant.GetOr(EmptyVariant), quantity)]
  }

  /**
   * With a variant given, `addItem` adds `quantity` to the FIRST line with the
   * same product id and variant (count and order unchanged) or appends one
   * line carrying that variant.
   */
  lemma AddLineWithVariant(s: seq<CartItem>, product: Product, v: Variant, quantity: int, newId: string)
    ensures var r := AddLine(s, product, Some(v), quantity, newId);
      match FirstWithKey(s, product.id, v)
      case Some(k) =>
        |r| == |s| && r[k].quantity == s[k].quantity + quantity && r[k] == s[k].(quantity := r[k].quantity)
        && forall i :: 0 <= i < |s| && i != k ==> r[i] == s[i]
      case None => r == s + [CartItem(newId, product, v, quantity)]
  {
  }

  /** Without a variant, `addItem` always appends a line whose variant is `{}`, whatever the cart holds. */
  lemma AddLineWithoutVariant(s: seq<CartItem>, product: Product, quantity: int, newId: string)
    ensures AddLine(s, product, None, quantity, newId) == s + [CartItem(newId, product, EmptyVariant, quantity)]
  {
  }

  /**
   * The omitted-variant quirk: two variant-less adds of one product give two
   * lines with the same key, so this store does not keep keys unique.
   */
  lemma VariantlessAddsDuplicate(s: seq<CartItem>, product: Product, q1: int, q2: int, id1: string, id2: string)
    ensures var r := AddLine(AddLine(s, product, None, q1, id1), product, None, q2, id2);
      |r| == |s| + 2 && !NoDuplicateKeys(r)
  {
    var r := AddLine(AddLine(s, product, None, q1, id1), product, None, q2, id2);
    assert r == s + [CartItem(id1, product, EmptyVariant, q1), CartItem(id2, product, EmptyVariant, q2)];
    assert SameKey(r[|s|], r[|s| + 1]);
  }

  /** The zustand store merges the same two calls into one line. */
  lemma StoresDisagreeOnOmittedVariant(product: Product, q1: int, q2: int, id1: string, id2: string)
    ensures |AddLine(AddLine([], product, None, q1, id1), product, None, q2, id2)| == 2
    ensures UseCart.AddLine(UseCart.AddLine([], product, EmptyVariant, q1, id1), product, EmptyVariant, q2, id2)
      == [CartItem(id1, product, EmptyVariant, q1 + q2)]
  {
    var once := UseCart.AddLine([], product, EmptyVariant, q1, id1);
    assert once == [CartItem(id1, product, EmptyVariant, q1)];
    assert FirstWithKey(once, product.id, EmptyVariant) == Some(0);
  }

  /** With a variant given, `addItem` keeps keys unique. */
  lemma AddLineKeepsKeysUnique(s: seq<CartItem>, product: Product, v: Variant, quantity: int, newId: string)
    requires NoDuplicateKeys(s)
    ensures NoDuplicateKeys(AddLine(s, product, Some(v), quantity, newId))
  {
    var r := AddLine(s, product, Some(v), quantity, newId);
    match FirstWithKey(s, product.id, v)
    case Some(k) =>
      assert forall i :: 0 <= i < |s| ==> SameKey(r[i], s[i]) && SameKey(s[i], r[i]);
    case None =>
      forall i, j | 0 <= i < j < |r| ensures !SameKey(r[i], r[j]) {
        if j == |s| {
          assert !HasKey(s[i], product.id, v);
        } else {
          assert r[i] == s[i] && r[j] == s[j];
        }
      }
  }

  /** `addItem` raises the item count by exactly `quantity`, duplicate ids or not. */
  lemma AddLineItemCount(s: seq<CartItem>, product: Product, variant: Option<Variant>, quantity: int, newId: string)
    ensures ItemCount(AddLine(s, product, variant, quantity, newId)) == ItemCount(s) + quantity
  {
    match MatchIndex(s, product.id, variant)
    case Some(k) =>
      SumIntUpdate(s, k, s[k].(quantity := s[k].quantity + quantity), QuantityOf);
    case None =>
      var x := CartItem(newId, product, variant.GetOr(EmptyVariant), quantity);
      SumIntConcat(s, [x], QuantityOf);
      assert SumInt([x], QuantityOf) == quantity + SumInt([], QuantityOf);
  }

  /** `price * quantity`: no surcharge for any size. */
  function LineTotal(line: CartItem): real {
    line.product.price * line.quantity as real
  }

  /** `getSubtotal()`. */
  function Subtotal(s: seq<CartItem>): real {
    SumReal(s, LineTotal)
  }

  /** A 'large' line costs the same as the same line in any other size. */
  lemma NoSizeSurcharge(line: CartItem, size: Option<string>)
    ensures LineTotal(line.(variant := line.variant.(size := size))) == LineTotal(line)
    ensures UseCart.LineTotal(line.(variant := line.variant.(size := Some("large"))))
      == LineTotal(line) + line.quantity as real
  {
    var big := line.(variant := line.variant.(size := Some("large")));
    var p, q := line.product.price, line.quantity as real;
    assert UseCart.LineTotal(big) == (p + 1.0) * q;
    assert (p + 1.0) * q == p * q + q;
  }

  /** `addItem` raises the subtotal by the price of the line's product times `quantity`. */
  lemma AddLineSubtotal(s: seq<CartItem>, product: Product, variant: Option<Variant>, quantity: int, newId: string)
    ensures var unit := match MatchIndex(s, product.id, variant)
        case Some(k) => s[k].product.price
        case None => product.price;
      Subtotal(AddLine(s, product, variant, quantity, newId)) == Subtotal(s) + unit * quantity as real
  {
    match MatchIndex(s, product.id, variant)
    case Some(k) =>
      var x := s[k].(quantity := s[k].quantity + quantity);
      var p := s[k].product.price;
      assert LineTotal(x) == LineTotal(s[k]) + p * quantity as real by {
        assert (s[k].quantity + quantity) as real == s[k].quantity as real + quantity as real;
        assert p * (s[k].quantity as real + quantity as real) == p * s[k].quantity as real + p * quantity as real;
      }
      calc {
        Subtotal(AddLine(s, product, variant, quantity, newId));
        SumReal(s[k := x], LineTotal);
        { SumRealUpdate(s, k, x, LineTotal); }
        Subtotal(s) - LineTotal(s[k]) + LineTotal(x);
      }
    case None =>
      var x := CartItem(newId, product, variant.GetOr(EmptyVariant), quantity);
      SumRealConcat(s, [x], LineTotal);
      assert SumReal([x], LineTotal) == LineTotal(x) + SumReal([], LineTotal);
  }

  /** `getTax()`: 8.75% of the subtotal. */
  function Tax(s: seq<CartItem>): (t: real)
    ensures t == Subtotal(s) * 875.0 / 10000.0
    ensures Subtotal(s) >= 0.0 ==> 0.0 <= t <= Subtotal(s)
  {
    Subtotal(s) * TaxRate
  }

  /** `getShipping()`: free from $50 on, otherwise $5.99. */
  function Shipping(s: seq<CartItem>): (r: real)
    ensures r == 0.0 <==> Subtotal(s) >= ShippingThreshold
    ensures r != 0.0 ==> r == ShippingCost
  {
    if Subtotal(s) >= ShippingThreshold then 0.0 else ShippingCost
  }

  /** `getTotal()`. */
  function Total(s: seq<CartItem>): (t: real)
    ensures t == Subtotal(s) * 1.0875 + Shipping(s)
    ensures Subtotal(s) >= 0.0 ==> t >= Subtotal(s)
  {
    Subtotal(s) + Tax(s) + Shipping(s)
  }

  /**
   * The thresholds of the two stores differ: a subtotal in (30, 50) ships
   * free from the zustand store and costs $5.99 here.
   */
  lemma ShippingThresholdsDiffer(s: seq<CartItem>)
    requires 30.0 < Subtotal(s) < 50.0
    requires UseCart.Subtotal(s) == Subtotal(s)
    ensures UseCart.Shipping(s) == 0.0 && Shipping(s) == ShippingCost
  {
  }

  class CartProvider {
    var items: seq<CartItem>
    var isOpen: bool

    /** `useState<CartItem[]>([])` and `useState(false)`. */
    constructor ()
      ensures items == [] && !isOpen
    {
      items := [];
      isOpen := false;
    }

    /**
     * `addItem(product, variant?, quantity = 1)`: updates the lines and opens
     * the sidebar. `None` is an omitted argument; `newId` is the clock-derived
     * id a new line would get.
     */
    method AddItem(product: Product, variant: Option<Variant>, quantity: Option<int>, newId: string)
      modifies this
      ensures items == AddLine(old(items), product, variant, quantity.GetOr(1), newId)
      ensures isOpen
    {
      items := AddLine(items, product, variant, quantity.GetOr(1), newId);
      SetIsOpen(true);
    }

    /** `removeItem(itemId)`: drops every line with that id. */
    method RemoveItem(itemId: string)
      modifies this
      ensures items == RemoveId(old(items), itemId)
      ensures isOpen == old(isOpen)
    {
      items := RemoveId(items, itemId);
    }

    /** `updateQuantity(itemId, quantity)`: a quantity of zero or less is `removeItem`. */
    method UpdateQuantity(itemId: string, quantity: int)
      modifies this
      ensures items == UpdatedLines(old(items), itemId, quantity)
      ensures isOpen == old(isOpen)
    {
      if quantity <= 0 {
        RemoveItem(itemId);
        return;
      }
      items := SetQuantity(items, itemId, quantity);
    }

    method ClearCart()
      modifies this
      ensures items == [] && isOpen == old(isOpen)
    {
      items := [];
    }

    method ToggleCart()
      modifies this
      ensures isOpen == !old(isOpen) && items == old(items)
    {
      SetIsOpen(!isOpen);
    }

    method SetIsOpen(open: bool)
      modifies this
      ensures isOpen == open && items == old(items)
    {
      isOpen := open;
    }
  }
}

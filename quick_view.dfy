/**
 * The local state of components/modals/product-quick-view.tsx: a quantity
 * stepper with a floor of 1, the selected variant, and the add-to-cart loop
 * that calls the use-cart store's `addItem` once per unit.
 */
module QuickView {
  import opened Options
  import opened Text
  import opened CartLines
  import UseCart

  /** The variant the modal opens with. */
  const DefaultVariant: Variant := Variant(Some("regular"), Some("regular"), Some("100%"))

  /** The ice-level buttons' labels, in order. */
  const IceLabels: seq<string> := ["No Ice", "Less Ice", "Regular", "Extra Ice"]

  /** The sugar-level buttons' labels, which are also the values they store. */
  const SugarLabels: seq<string> := ["0%", "30%", "50%", "70%", "100%"]

  /** The `value` fields of `ICE_LEVELS` in lib/constants.ts. */
  const IceLevelValues: seq<string> := ["no-ice", "less-ice", "regular", "extra-ice"]

  /** The `value` fields of `SUGAR_LEVELS` in lib/constants.ts. */
  const SugarLevelValues: seq<string> := ["0", "30", "50", "70", "100"]

  /** `decrementQuantity`'s updater `Math.max(1, q - 1)`. */
  function Decremented(q: int): (r: int)
    ensures r >= 1
    ensures q > 1 ==> r == q - 1
    ensures q <= 1 ==> r == 1
  {
    if q - 1 > 1 then q - 1 else 1
  }

  /** Decrementing undoes incrementing from any quantity the stepper can show. */
  lemma DecrementUndoesIncrement(q: int)
    requires q >= 1
    ensures Decremented(q + 1) == q
  {
  }

  /** `level.toLowerCase().replace(' ', '-')`: the value an ice-level button stores. */
  function IceSlug(caption: string): (slug: string)
    ensures |slug| == |caption|
    ensures forall i :: 0 <= i < |caption| ==> slug[i] == '-' || slug[i] == LowerChar(caption[i])
    ensures ' ' !in caption ==> slug == ToLower(caption)
  {
    ReplaceFirst(ToLower(caption), ' ', '-')
  }

  /** A label whose lower-cased form has its first space at `k` gets '-' there and nowhere else. */
  lemma IceSlugOfTwoWords(caption: string, lower: string, k: nat, slug: string)
    requires ToLower(caption) == lower
    requires k < |lower| && lower[k] == ' '
    requires forall i :: 0 <= i < k ==> lower[i] != ' '
    requires slug == lower[k := '-']
    ensures IceSlug(caption) == slug
  {
    assert ' ' !in lower[..k];
    ReplaceFirstAt(lower, ' ', '-', k);
  }

  lemma NoIceSlug()
    ensures IceSlug("No Ice") == "no-ice"
  {
    assert ToLower("No Ice") == "no ice";
    IceSlugOfTwoWords("No Ice", "no ice", 2, "no-ice");
  }

  lemma LessIceSlug()
    ensures IceSlug("Less Ice") == "less-ice"
  {
    assert ToLower("Less Ice") == "less ice";
    IceSlugOfTwoWords("Less Ice", "less ice", 4, "less-ice");
  }

  /** A label whose lower-cased form has no space is stored lower-cased. */
  lemma IceSlugOfOneWord(caption: string, lower: string)
    requires ToLower(caption) == lower
    requires forall i :: 0 <= i < |lower| ==> lower[i] != ' '
    ensures IceSlug(caption) == lower
  {
    assert ' ' !in lower;
  }

  lemma RegularSlug()
    ensures IceSlug("Regular") == "regular"
  {
    assert ToLower("Regular") == "regular";
    IceSlugOfOneWord("Regular", "regular");
  }

  lemma ExtraIceSlug()
    ensures IceSlug("Extra Ice") == "extra-ice"
  {
    assert ToLower("Extra Ice") == "extra ice";
    IceSlugOfTwoWords("Extra Ice", "extra ice", 5, "extra-ice");
  }

  /** The four buttons store exactly the four ice-level values of lib/constants.ts, in order. */
  lemma IceSlugsMatchConstants()
    ensures |IceLabels| == |IceLevelValues|
    ensures forall i :: 0 <= i < |IceLabels| ==> IceSlug(IceLabels[i]) == IceLevelValues[i]
  {
    forall i | 0 <= i < |IceLabels|
      ensures IceSlug(IceLabels[i]) == IceLevelValues[i]
    {
      if i == 0 {
        NoIceSlug();
      } else if i == 1 {
        LessIceSlug();
      } else if i == 2 {
        RegularSlug();
      } else {
        ExtraIceSlug();
      }
    }
  }

  /**
   * The default sugar level is one of the buttons but is spelled with '%',
   * so it is not one of the `SUGAR_LEVELS` values of lib/constants.ts.
   */
  lemma DefaultSugarUsesLabelSpelling()
    ensures DefaultVariant.sugarLevel.value in SugarLabels
    ensures DefaultVariant.sugarLevel.value !in SugarLevelValues
  {
    assert SugarLabels[4] == "100%";
  }

  /** `addItem(product, variant)` called once per entry of `lineIds`, each call with the id a new line would get. */
  function RepeatAdd(s: seq<CartItem>, product: Product, variant: Variant, lineIds: seq<string>): seq<CartItem>
    decreases |lineIds|
  {
    if lineIds == [] then s
    else RepeatAdd(UseCart.AddLine(s, product, variant, 1, lineIds[0]), product, variant, lineIds[1..])
  }

  /** Replacing line quantities keeps which line matches a key first. */
  lemma FirstWithKeyIgnoresQuantities(s: seq<CartItem>, t: seq<CartItem>, productId: string, variant: Variant)
    requires |s| == |t|
    requires forall j :: 0 <= j < |s| ==> t[j].product == s[j].product && t[j].variant == s[j].variant
    ensures FirstWithKey(t, productId, variant) == FirstWithKey(s, productId, variant)
  {
    var a, b := FirstWithKey(s, productId, variant), FirstWithKey(t, productId, variant);
    if a.Some? && b.Some? {
      if a.value < b.value {
        assert HasKey(t[a.value], productId, variant);
      } else if b.value < a.value {
        assert HasKey(s[b.value], productId, variant);
      }
    } else if a.Some? {
      assert HasKey(t[a.value], productId, variant);
    }
  }

  /** Raising an existing line by `m` and then by one raises it by `m + 1`. */
  lemma AddOneMoreMerged(s: seq<CartItem>, product: Product, variant: Variant, m: int, id: string, nextId: string, k: nat)
    requires FirstWithKey(s, product.id, variant) == Some(k)
    ensures var t := UseCart.AddLine(s, product, variant, m, id);
      UseCart.AddLine(t, product, variant, 1, nextId) == UseCart.AddLine(s, product, variant, m + 1, id)
  {
    var t := UseCart.AddToId(s, s[k].id, m);
    assert UseCart.AddLine(s, product, variant, m, id) == t;
    assert UseCart.AddLine(s, product, variant, m + 1, id) == UseCart.AddToId(s, s[k].id, m + 1);
    FirstWithKeyIgnoresQuantities(s, t, product.id, variant);
    assert UseCart.AddLine(t, product, variant, 1, nextId) == UseCart.AddToId(t, s[k].id, 1);
    UseCart.AddToIdTwice(s, s[k].id, m, 1);
  }

  /** A line appended after lines that all miss its key is the first match. */
  lemma AppendedIsFirstMatch(s: seq<CartItem>, line: CartItem)
    requires FirstWithKey(s, line.product.id, line.variant) == None
    ensures FirstWithKey(s + [line], line.product.id, line.variant) == Some(|s|)
  {
    var t := s + [line];
    assert forall j :: 0 <= j < |s| ==> t[j] == s[j];
    assert HasKey(t[|s|], line.product.id, line.variant);
  }

  /** Appending a line of quantity `m` and then adding one more gives a line of quantity `m + 1`. */
  lemma AddOneMoreAppended(s: seq<CartItem>, product: Product, variant: Variant, m: int, id: string, nextId: string)
    requires UseCart.IdAbsent(s, id) && FirstWithKey(s, product.id, variant) == None
    ensures var t := UseCart.AddLine(s, product, variant, m, id);
      UseCart.AddLine(t, product, variant, 1, nextId) == UseCart.AddLine(s, product, variant, m + 1, id)
  {
    var line := CartItem(id, product, variant, m);
    var t, u := s + [line], s + [line.(quantity := m + 1)];
    assert UseCart.AddLine(s, product, variant, m, id) == t;
    assert UseCart.AddLine(s, product, variant, m + 1, id) == u;
    assert UseCart.AddLine(t, product, variant, 1, nextId) == UseCart.AddToId(t, id, 1) by {
      AppendedIsFirstMatch(s, line);
    }
    assert UseCart.AddToId(t, id, 1) == u by {
      var r := UseCart.AddToId(t, id, 1);
      forall i | 0 <= i < |t| ensures r[i] == u[i] {
        if i < |s| {
          assert t[i] == s[i];
        }
      }
    }
  }

  /** One more unit added to the same key lands on the line the first add made or raised. */
  lemma AddOneMore(s: seq<CartItem>, product: Product, variant: Variant, m: int, id: string, nextId: string)
    requires DistinctIds(s) && UseCart.IdAbsent(s, id)
    ensures var t := UseCart.AddLine(s, product, variant, m, id);
      UseCart.AddLine(t, product, variant, 1, nextId) == UseCart.AddLine(s, product, variant, m + 1, id)
  {
    match FirstWithKey(s, product.id, variant)
    case Some(k) => AddOneMoreMerged(s, product, variant, m, id, nextId, k);
    case None => AddOneMoreAppended(s, product, variant, m, id, nextId);
  }

  lemma RepeatAddStep(t: seq<CartItem>, product: Product, variant: Variant, rest: seq<string>)
    requires rest != []
    ensures RepeatAdd(t, product, variant, rest)
      == RepeatAdd(UseCart.AddLine(t, product, variant, 1, rest[0]), product, variant, rest[1..])
  {
  }

  /** Continuing from a line already raised by `m`, each further call adds one more. */
  lemma {:induction false} RepeatAddContinues(s: seq<CartItem>, product: Product, variant: Variant, m: int, id: string, rest: seq<string>)
    requires DistinctIds(s) && UseCart.IdAbsent(s, id)
    ensures RepeatAdd(UseCart.AddLine(s, product, variant, m, id), product, variant, rest)
            == UseCart.AddLine(s, product, variant, m + |rest|, id)
    decreases |rest|
  {
    if rest != [] {
      var t := UseCart.AddLine(s, product, variant, m, id);
      RepeatAddStep(t, product, variant, rest);
      assert UseCart.AddLine(t, product, variant, 1, rest[0]) == UseCart.AddLine(s, product, variant, m + 1, id) by {
        AddOneMore(s, product, variant, m, id, rest[0]);
      }
      var u := UseCart.AddLine(s, product, variant, m + 1, id);
      assert RepeatAdd(u, product, variant, rest[1..]) == UseCart.AddLine(s, product, variant, m + |rest|, id) by {
        RepeatAddContinues(s, product, variant, m + 1, id, rest[1..]);
        assert m + 1 + |rest[1..]| == m + |rest|;
      }
    }
  }

  /**
   * Calling `addItem` n >= 1 times with the same product and variant is one
   * `addItem` of quantity n: the matching line rises by n, or one line with
   * quantity n is appended under the first call's id.
   */
  lemma RepeatAddIsOneAdd(s: seq<CartItem>, product: Product, variant: Variant, lineIds: seq<string>)
    requires |lineIds| >= 1
    requires DistinctIds(s) && UseCart.IdAbsent(s, lineIds[0])
    ensures RepeatAdd(s, product, variant, lineIds) == UseCart.AddLine(s, product, variant, |lineIds|, lineIds[0])
    ensures |RepeatAdd(s, product, variant, lineIds)| <= |s| + 1
    ensures ItemCount(RepeatAdd(s, product, variant, lineIds)) == ItemCount(s) + |lineIds|
  {
    RepeatAddContinues(s, product, variant, 1, lineIds[0], lineIds[1..]);
    var first := FirstWithKey(s, product.id, variant);
    if first.Some? {
      UseCart.AddLineAtMatch(s, product, variant, |lineIds|, lineIds[0], first.value);
    }
    UseCart.AddLineItemCount(s, product, variant, |lineIds|, lineIds[0]);
  }

  class ProductQuickView {
    var quantity: int
    var selectedVariant: Variant

    /** The stepper never shows less than one. */
    ghost predicate Valid()
      reads this
    {
      quantity >= 1
    }

    /** `useState(1)` and the default variant. */
    constructor ()
      ensures Valid()
      ensures quantity == 1 && selectedVariant == DefaultVariant
    {
      quantity := 1;
      selectedVariant := DefaultVariant;
    }

    /** `incrementQuantity`. */
    method Increment()
      requires Valid()
      modifies this
      ensures Valid()
      ensures quantity == old(quantity) + 1 && selectedVariant == old(selectedVariant)
    {
      quantity := quantity + 1;
    }

    /** `decrementQuantity`. */
    method Decrement()
      requires Valid()
      modifies this
      ensures Valid()
      ensures quantity == Decremented(old(quantity)) && selectedVariant == old(selectedVariant)
    {
      quantity := Decremented(quantity);
    }

    /** The size radio group: `{ ...selectedVariant, size: value }`. */
    method SelectSize(value: string)
      modifies this
      ensures selectedVariant == old(selectedVariant).(size := Some(value))
      ensures quantity == old(quantity)
    {
      selectedVariant := selectedVariant.(size := Some(value));
    }

    /** An ice-level button: stores the label's slug and keeps the other two fields. */
    method SelectIceLevel(caption: string)
      modifies this
      ensures selectedVariant == old(selectedVariant).(iceLevel := Some(IceSlug(caption)))
      ensures quantity == old(quantity)
    {
      selectedVariant := selectedVariant.(iceLevel := Some(IceSlug(caption)));
    }

    /** A sugar-level button: stores the label itself. */
    method SelectSugarLevel(level: string)
      modifies this
      ensures selectedVariant == old(selectedVariant).(sugarLevel := Some(level))
      ensures quantity == old(quantity)
    {
      selectedVariant := selectedVariant.(sugarLevel := Some(level));
    }

    /**
     * `handleAddToCart`: `addItem(product, selectedVariant)` once per unit.
     * `lineIds[i]` is the id the i-th call would give a new line.
     */
    method HandleAddToCart(product: Product, cart: UseCart.CartStore, lineIds: seq<string>)
      requires Valid() && cart.Valid()
      requires |lineIds| >= quantity
      modifies cart
      ensures cart.Valid()
      ensures cart.items == RepeatAdd(old(cart.items), product, selectedVariant, lineIds[..quantity])
      ensures cart.isOpen == old(cart.isOpen)
    {
      var i := 0;
      while i < quantity
        invariant 0 <= i <= quantity
        invariant cart.Valid() && cart.isOpen == old(cart.isOpen)
        invariant RepeatAdd(cart.items, product, selectedVariant, lineIds[i..quantity])
                  == RepeatAdd(old(cart.items), product, selectedVariant, lineIds[..quantity])
      {
        assert lineIds[i..quantity][1..] == lineIds[i + 1..quantity];
        cart.AddItem(product, Some(selectedVariant), None, lineIds[i]);
        i := i + 1;
      }
    }
  }

  /**
   * The quick view's add button raises one cart line by the stepper's
   * quantity, or adds one line with that quantity.
   */
  method AddFromQuickView(view: ProductQuickView, product: Product, cart: UseCart.CartStore, lineIds: seq<string>)
    requires view.Valid() && cart.Valid()
    requires |lineIds| >= view.quantity
    requires DistinctIds(cart.items) && UseCart.IdAbsent(cart.items, lineIds[0])
    modifies cart
    ensures cart.items == UseCart.AddLine(old(cart.items), product, view.selectedVariant, view.quantity, lineIds[0])
    ensures ItemCount(cart.items) == ItemCount(old(cart.items)) + view.quantity
  {
    view.HandleAddToCart(product, cart, lineIds);
    RepeatAddIsOneAdd(old(cart.items), product, view.selectedVariant, lineIds[..view.quantity]);
  }
}

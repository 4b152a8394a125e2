/**
 * Cart line items and the list operations that both cart stores
 * (lib/hooks/use-cart.ts and components/providers/cart-provider.tsx) write
 * identically: `find`/`findIndex` by (product id, variant), `filter` by line
 * id, `map` that sets a quantity by line id, and the `reduce` sums.
 */
module CartLines {
  import opened Options

  /** The fields of a product that the cart logic reads; `price` is in dollars. */
  datatype Product = Product(id: string, name: string, price: real)

  /**
   * A drink variant. Its `JSON.stringify` key is the record itself: the three
   * optional fields in the fixed order size, iceLevel, sugarLevel.
   */
  datatype Variant = Variant(size: Option<string>, iceLevel: Option<string>, sugarLevel: Option<string>)

  /** The variant `{}`. */
  const EmptyVariant: Variant := Variant(None, None, None)

  datatype CartItem = CartItem(id: string, product: Product, variant: Variant, quantity: int)

  /** A line is keyed by its product id and its serialised variant. */
  predicate HasKey(line: CartItem, productId: string, variant: Variant) {
    line.product.id == productId && line.variant == variant
  }

  predicate SameKey(a: CartItem, b: CartItem) {
    HasKey(b, a.product.id, a.variant)
  }

  ghost predicate NoDuplicateKeys(s: seq<CartItem>) {
    forall i, j :: 0 <= i < j < |s| ==> !SameKey(s[i], s[j])
  }

  ghost predicate DistinctIds(s: seq<CartItem>) {
    forall i, j :: 0 <= i < j < |s| ==> s[i].id != s[j].id
  }

  ghost predicate PositiveQuantities(s: seq<CartItem>) {
    forall i :: 0 <= i < |s| ==> s[i].quantity > 0
  }

  /** `items.find(...)` / `items.findIndex(...)` on the key: the index of the FIRST matching line. */
  function FirstWithKey(s: seq<CartItem>, productId: string, variant: Variant): (r: Option<nat>)
    ensures r.Some? ==> r.value < |s| && HasKey(s[r.value], productId, variant)
    ensures r.Some? ==> forall j :: 0 <= j < r.value ==> !HasKey(s[j], productId, variant)
    ensures r.None? <==> forall j :: 0 <= j < |s| ==> !HasKey(s[j], productId, variant)
  {
    if s == [] then None
    else if HasKey(s[0], productId, variant) then Some(0)
    else match FirstWithKey(s[1..], productId, variant)
      case None => None
      case Some(k) => Some(k + 1)
  }

  /** When keys are unique, the first line with a key is the only one. */
  lemma FirstWithKeyUnique(s: seq<CartItem>, productId: string, variant: Variant, k: nat)
    requires NoDuplicateKeys(s)
    requires FirstWithKey(s, productId, variant) == Some(k)
    ensures forall j :: 0 <= j < |s| && j != k ==> !HasKey(s[j], productId, variant)
  {
    forall j | 0 <= j < |s| && j != k
      ensures !HasKey(s[j], productId, variant)
    {
      if j > k {
        assert !SameKey(s[k], s[j]);
      }
    }
  }

  /** `items.filter((item) => item.id !== itemId)`. */
  function RemoveId(s: seq<CartItem>, id: string): (r: seq<CartItem>)
    ensures |r| <= |s|
    ensures forall j :: 0 <= j < |r| ==> r[j].id != id
  {
    if s == [] then []
    else (if s[0].id == id then [] else [s[0]]) + RemoveId(s[1..], id)
  }

  /** Filtering distributes over concatenation: the kept lines stay in their original order. */
  lemma {:induction false} RemoveIdConcat(s: seq<CartItem>, t: seq<CartItem>, id: string)
    ensures RemoveId(s + t, id) == RemoveId(s, id) + RemoveId(t, id)
  {
    if s == [] {
      assert s + t == t;
    } else {
      assert (s + t)[1..] == s[1..] + t;
      RemoveIdConcat(s[1..], t, id);
    }
  }

  /** With distinct line ids, removing the id of line k removes exactly that line. */
  lemma RemoveIdAt(s: seq<CartItem>, k: nat)
    requires DistinctIds(s) && k < |s|
    ensures RemoveId(s, s[k].id) == s[..k] + s[k + 1..]
  {
    var a, b := s[..k], s[k + 1..];
    OtherLinesHaveOtherIds(s, k);
    assert s == a + [s[k]] + b;
    RemoveIdSplit(a, s[k], b);
  }

  lemma RemoveIdSplit(a: seq<CartItem>, x: CartItem, b: seq<CartItem>)
    requires RemoveId(a, x.id) == a && RemoveId(b, x.id) == b
    ensures RemoveId(a + [x] + b, x.id) == a + b
  {
    var xb := [x] + b;
    assert RemoveId(xb, x.id) == b by {
      assert xb[1..] == b;
    }
    assert RemoveId(a + xb, x.id) == a + b by {
      RemoveIdConcat(a, xb, x.id);
    }
    assert a + [x] + b == a + xb;
  }

  /** Filtering out an id no line carries changes nothing. */
  lemma {:induction false} RemoveIdAbsent(s: seq<CartItem>, id: string)
    requires forall i :: 0 <= i < |s| ==> s[i].id != id
    ensures RemoveId(s, id) == s
  {
    if s != [] {
      RemoveIdAbsent(s[1..], id);
    }
  }

  lemma OtherLinesHaveOtherIds(s: seq<CartItem>, k: nat)
    requires DistinctIds(s) && k < |s|
    ensures RemoveId(s[..k], s[k].id) == s[..k]
    ensures RemoveId(s[k + 1..], s[k].id) == s[k + 1..]
  {
    var a, b := s[..k], s[k + 1..];
    forall i | 0 <= i < |a| ensures a[i].id != s[k].id {
      assert a[i] == s[i];
    }
    forall i | 0 <= i < |b| ensures b[i].id != s[k].id {
      assert b[i] == s[k + 1 + i];
    }
    RemoveIdAbsent(a, s[k].id);
    RemoveIdAbsent(b, s[k].id);
  }

  /** Every line that survives the filter is a line of the input. */
  lemma {:induction false} RemoveIdFromInput(s: seq<CartItem>, id: string, j: nat)
    requires j < |RemoveId(s, id)|
    ensures exists m :: 0 <= m < |s| && s[m] == RemoveId(s, id)[j]
  {
    var tail := RemoveId(s[1..], id);
    if s[0].id == id {
      RemoveIdFromInput(s[1..], id, j);
      var m :| 0 <= m < |s[1..]| && s[1..][m] == tail[j];
      assert s[m + 1] == tail[j];
    } else if j > 0 {
      RemoveIdFromInput(s[1..], id, j - 1);
      var m :| 0 <= m < |s[1..]| && s[1..][m] == tail[j - 1];
      assert s[m + 1] == tail[j - 1];
    } else {
      assert s[0] == RemoveId(s, id)[0];
    }
  }

  /** Every line of the input whose id differs survives the filter. */
  lemma {:induction false} RemoveIdKeeps(s: seq<CartItem>, id: string, m: nat)
    requires m < |s| && s[m].id != id
    ensures s[m] in RemoveId(s, id)
  {
    if m > 0 {
      RemoveIdKeeps(s[1..], id, m - 1);
    }
  }

  /** Removing lines keeps every invariant that holds of all pairs or all lines. */
  lemma RemoveIdKeepsInvariants(s: seq<CartItem>, id: string)
    ensures NoDuplicateKeys(s) ==> NoDuplicateKeys(RemoveId(s, id))
    ensures DistinctIds(s) ==> DistinctIds(RemoveId(s, id))
    ensures PositiveQuantities(s) ==> PositiveQuantities(RemoveId(s, id))
  {
    RemoveIdKeepsPairs(s, id);
    var r := RemoveId(s, id);
    forall j | 0 <= j < |r| ensures PositiveQuantities(s) ==> r[j].quantity > 0 {
      RemoveIdFromInput(s, id, j);
    }
  }

  lemma {:induction false} RemoveIdKeepsPairs(s: seq<CartItem>, id: string)
    ensures NoDuplicateKeys(s) ==> NoDuplicateKeys(RemoveId(s, id))
    ensures DistinctIds(s) ==> DistinctIds(RemoveId(s, id))
  {
    var r := RemoveId(s, id);
    if s != [] {
      var tail := RemoveId(s[1..], id);
      RemoveIdKeepsPairs(s[1..], id);
      if s[0].id != id {
        assert r == [s[0]] + tail;
        forall j | 0 < j < |r|
          ensures NoDuplicateKeys(s) ==> !SameKey(r[0], r[j])
          ensures DistinctIds(s) ==> r[0].id != r[j].id
        {
          var m: nat :| 0 < m < |s| && s[m] == r[j] by {
            RemoveIdFromInput(s[1..], id, j - 1);
            var m' :| 0 <= m' < |s[1..]| && s[1..][m'] == tail[j - 1];
            assert s[m' + 1] == r[j];
          }
        }
      } else {
        assert r == tail;
      }
    }
  }


  /** `items.map((item) => item.id === itemId ? { ...item, quantity } : item)`. */
  function SetQuantity(s: seq<CartItem>, id: string, q: int): (r: seq<CartItem>)
    ensures |r| == |s|
    ensures forall i :: 0 <= i < |s| ==>
      r[i] == if s[i].id == id then s[i].(quantity := q) else s[i]
  {
    if s == [] then [] else [if s[0].id == id then s[0].(quantity := q) else s[0]] + SetQuantity(s[1..], id, q)
  }

  /** `updateQuantity(itemId, quantity)` of both stores: removal when the quantity is not positive. */
  function UpdatedLines(s: seq<CartItem>, id: string, q: int): (r: seq<CartItem>)
    ensures q > 0 ==> |r| == |s|
    ensures q <= 0 ==> |r| <= |s| && forall j :: 0 <= j < |r| ==> r[j].id != id
  {
    if q <= 0 then RemoveId(s, id) else SetQuantity(s, id, q)
  }

  /** `updateQuantity` keeps keys unique and ids distinct, and never leaves a line whose quantity is not positive. */
  lemma UpdatedLinesKeepsInvariants(s: seq<CartItem>, id: string, q: int)
    ensures NoDuplicateKeys(s) ==> NoDuplicateKeys(UpdatedLines(s, id, q))
    ensures DistinctIds(s) ==> DistinctIds(UpdatedLines(s, id, q))
    ensures PositiveQuantities(s) ==> PositiveQuantities(UpdatedLines(s, id, q))
  {
    if q <= 0 {
      RemoveIdKeepsInvariants(s, id);
    } else {
      var r := SetQuantity(s, id, q);
      assert forall i :: 0 <= i < |s| ==> r[i].id == s[i].id && SameKey(r[i], s[i]) && SameKey(s[i], r[i]);
    }
  }

  /** `updateQuantity` with a positive quantity changes only the quantity of the lines with that id. */
  lemma UpdatedLinesPositive(s: seq<CartItem>, id: string, q: int)
    requires q > 0
    ensures |UpdatedLines(s, id, q)| == |s|
    ensures forall i :: 0 <= i < |s| && s[i].id == id ==> UpdatedLines(s, id, q)[i] == s[i].(quantity := q)
    ensures forall i :: 0 <= i < |s| && s[i].id != id ==> UpdatedLines(s, id, q)[i] == s[i]
  {
  }

  /** `updateQuantity` with a quantity of zero or less is exactly `removeItem`. */
  lemma UpdatedLinesNonPositive(s: seq<CartItem>, id: string, q: int)
    requires q <= 0
    ensures UpdatedLines(s, id, q) == RemoveId(s, id)
    ensures forall line :: line in UpdatedLines(s, id, q) ==> line.id != id
  {
  }

  /** `items.reduce((total, item) => total + f(item), 0)` over an integer-valued f. */
  function SumInt(s: seq<CartItem>, f: CartItem -> int): int
  {
    if s == [] then 0 else f(s[0]) + SumInt(s[1..], f)
  }

  /** `items.reduce((total, item) => total + f(item), 0)` over a money-valued f. */
  function SumReal(s: seq<CartItem>, f: CartItem -> real): real
  {
    if s == [] then 0.0 else f(s[0]) + SumReal(s[1..], f)
  }

  lemma {:induction false} SumIntConcat(s: seq<CartItem>, t: seq<CartItem>, f: CartItem -> int)
    ensures SumInt(s + t, f) == SumInt(s, f) + SumInt(t, f)
  {
    if s == [] {
      assert s + t == t;
    } else {
      assert (s + t)[1..] == s[1..] + t;
      SumIntConcat(s[1..], t, f);
    }
  }

  lemma {:induction false} SumRealConcat(s: seq<CartItem>, t: seq<CartItem>, f: CartItem -> real)
    ensures SumReal(s + t, f) == SumReal(s, f) + SumReal(t, f)
  {
    if s == [] {
      assert s + t == t;
    } else {
      assert (s + t)[1..] == s[1..] + t;
      SumRealConcat(s[1..], t, f);
    }
  }

  lemma SumSplitInt(a: seq<CartItem>, x: CartItem, b: seq<CartItem>, f: CartItem -> int)
    ensures SumInt(a + [x] + b, f) == SumInt(a, f) + f(x) + SumInt(b, f)
  {
    SumIntConcat(a + [x], b, f);
    SumIntConcat(a, [x], f);
    assert [x][1..] == [];
  }

  lemma SumSplitReal(a: seq<CartItem>, x: CartItem, b: seq<CartItem>, f: CartItem -> real)
    ensures SumReal(a + [x] + b, f) == SumReal(a, f) + f(x) + SumReal(b, f)
  {
    SumRealConcat(a + [x], b, f);
    SumRealConcat(a, [x], f);
    assert [x][1..] == [];
  }

  /** Replacing one line changes a sum by the difference of that line's terms. */
  lemma SumIntUpdate(s: seq<CartItem>, k: nat, x: CartItem, f: CartItem -> int)
    requires k < |s|
    ensures SumInt(s[k := x], f) == SumInt(s, f) - f(s[k]) + f(x)
  {
    var a, b := s[..k], s[k + 1..];
    assert s == a + [s[k]] + b;
    assert s[k := x] == a + [x] + b;
    SumSplitInt(a, s[k], b, f);
    SumSplitInt(a, x, b, f);
  }

  lemma SumRealUpdate(s: seq<CartItem>, k: nat, x: CartItem, f: CartItem -> real)
    requires k < |s|
    ensures SumReal(s[k := x], f) == SumReal(s, f) - f(s[k]) + f(x)
  {
    var a, b := s[..k], s[k + 1..];
    assert s == a + [s[k]] + b;
    assert s[k := x] == a + [x] + b;
    SumSplitReal(a, s[k], b, f);
    SumSplitReal(a, x, b, f);
  }

  /** Removing line k takes its term out of a sum. */
  lemma SumRealRemove(s: seq<CartItem>, k: nat, f: CartItem -> real)
    requires k < |s|
    ensures SumReal(s[..k] + s[k + 1..], f) == SumReal(s, f) - f(s[k])
  {
    var a, b := s[..k], s[k + 1..];
    assert SumReal(s, f) == SumReal(a, f) + f(s[k]) + SumReal(b, f) by {
      assert s == a + [s[k]] + b;
      SumSplitReal(a, s[k], b, f);
    }
    assert SumReal(a + b, f) == SumReal(a, f) + SumReal(b, f) by {
      SumRealConcat(a, b, f);
    }
  }

  lemma SumIntRemove(s: seq<CartItem>, k: nat, f: CartItem -> int)
    requires k < |s|
    ensures SumInt(s[..k] + s[k + 1..], f) == SumInt(s, f) - f(s[k])
  {
    var a, b := s[..k], s[k + 1..];
    assert SumInt(s, f) == SumInt(a, f) + f(s[k]) + SumInt(b, f) by {
      assert s == a + [s[k]] + b;
      SumSplitInt(a, s[k], b, f);
    }
    assert SumInt(a + b, f) == SumInt(a, f) + SumInt(b, f) by {
      SumIntConcat(a, b, f);
    }
  }

  function QuantityOf(line: CartItem): int { line.quantity }

  /** `getItemCount()` of both stores: the sum of the line quantities. */
  function ItemCount(s: seq<CartItem>): int
  {
    SumInt(s, QuantityOf)
  }

  /** With positive quantities the count is at least the number of lines, and zero only for an empty cart. */
  lemma {:induction false} ItemCountBounds(s: seq<CartItem>)
    requires PositiveQuantities(s)
    ensures ItemCount(s) >= |s|
    ensures ItemCount(s) == 0 <==> s == []
  {
    if s != [] {
      ItemCountBounds(s[1..]);
    }
  }

  /** Removing the one line with a given id lowers the count by exactly that line's quantity. */
  lemma ItemCountRemove(s: seq<CartItem>, k: nat)
    requires DistinctIds(s) && k < |s|
    ensures ItemCount(RemoveId(s, s[k].id)) == ItemCount(s) - s[k].quantity
  {
    RemoveIdAt(s, k);
    SumIntRemove(s, k, QuantityOf);
  }
}

/**
 * The string formatters of lib/utils/format.ts that do not depend on a
 * locale: the order-number badge and the item-count label.
 */
module Format {
  import opened Text

  /** `str.slice(-8)`: the last eight characters, or all of them when there are fewer. */
  function LastEight(s: string): (r: string)
    ensures |r| == if |s| <= 8 then |s| else 8
    ensures s == s[..|s| - |r|] + r
  {
    if |s| <= 8 then s else s[|s| - 8..]
  }

  /** `formatOrderNumber(id)`: '#' and the upper-cased tail of the id. */
  function FormatOrderNumber(id: string): (r: string)
    ensures |r| >= 1 && r[0] == '#'
    ensures |r| <= 9
    ensures forall i :: 1 <= i < |r| ==> !IsAsciiLower(r[i])
  {
    "#" + LastEight(ToUpper(id))
  }

  /**
   * Short ids are shown whole, upper-cased (the empty id as "#"); longer ids
   * lose all but their last eight characters.
   */
  lemma FormatOrderNumberCases(id: string)
    ensures |id| <= 8 ==> FormatOrderNumber(id) == "#" + ToUpper(id)
    ensures |id| > 8 ==> FormatOrderNumber(id) == "#" + ToUpper(id[|id| - 8..])
    ensures FormatOrderNumber("") == "#"
  {
    if |id| > 8 {
      ToUpperSuffix(id, |id| - 8);
    }
  }

  /** Upper-casing twice is upper-casing once. */
  lemma ToUpperIdempotent(s: string)
    ensures ToUpper(ToUpper(s)) == ToUpper(s)
  {
    var u := ToUpper(s);
    forall i | 0 <= i < |s|
      ensures ToUpper(u)[i] == u[i]
    {
      assert !IsAsciiLower(u[i]);
    }
  }

  /** Formatting the shown number (without its '#') again gives the same badge. */
  lemma FormatOrderNumberStable(id: string)
    ensures var r := FormatOrderNumber(id); FormatOrderNumber(r[1..]) == r
  {
    var r := FormatOrderNumber(id);
    var tail := LastEight(ToUpper(id));
    assert r[1..] == tail;
    FormatOrderNumberCases(id);
    if |id| <= 8 {
      ToUpperIdempotent(id);
    } else {
      ToUpperIdempotent(id[|id| - 8..]);
    }
  }

  /** `formatQuantity(quantity)` for a whole number of items. */
  function FormatQuantity(quantity: int): (r: string)
    ensures quantity == 1 ==> r == "1 item"
    ensures |r| >= 6
    ensures r[|r| - 1] == 's' <==> quantity != 1
  {
    if quantity == 1 then "1 item" else IntToString(quantity) + " items"
  }

  /** Two numbers render the same only when they are equal. */
  lemma IntToStringInjective(m: int, n: int)
    requires IntToString(m) == IntToString(n)
    ensures m == n
  {
    if m < 0 && n < 0 {
      assert IntToString(m)[1..] == DecimalString(-m);
      assert IntToString(n)[1..] == DecimalString(-n);
      DecimalStringInjective(-m, -n);
    } else if m >= 0 && n >= 0 {
      DecimalStringInjective(m, n);
    }
  }

  /** Different quantities get different labels; 0 is plural ("0 items"). */
  lemma FormatQuantityInjective(m: int, n: int)
    requires FormatQuantity(m) == FormatQuantity(n)
    ensures m == n
  {
    if m != 1 && n != 1 {
      var a, b := FormatQuantity(m), FormatQuantity(n);
      assert a[..|a| - 6] == IntToString(m);
      assert b[..|b| - 6] == IntToString(n);
      IntToStringInjective(m, n);
    }
  }

  /**
   * Any quantity other than 1 is written out in decimal, with a leading '-'
   * when negative, and followed by " items".
   */
  lemma FormatQuantityPlural(quantity: int)
    requires quantity != 1
    ensures quantity >= 0 ==> FormatQuantity(quantity) == DecimalString(quantity) + " items"
    ensures quantity < 0 ==> FormatQuantity(quantity) == "-" + DecimalString(-quantity) + " items"
  {
  }
}

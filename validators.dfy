/**
 * The form field schemas of lib/utils/validators.ts. zod runs every check of
 * a string schema and reports each failing one, in declaration order; a
 * value is accepted when no check fails. Lengths are string lengths.
 */
module Validators {
  import opened Options
  import opened Text

  // ---------------------------------------------------------------- strings

  /** `passwordSchema`: the issues zod reports for `s`. */
  function PasswordIssues(s: string): (r: seq<string>)
    ensures r == [] <==> 6 <= |s| <= 100
    ensures |s| < 6 ==> r == ["Password must be at least 6 characters"]
    ensures |s| > 100 ==> r == ["Password is too long"]
  {
    (if |s| < 6 then ["Password must be at least 6 characters"] else [])
    + (if |s| > 100 then ["Password is too long"] else [])
  }

  /** `nameSchema`: the issues zod reports for `s`. */
  function NameIssues(s: string): (r: seq<string>)
    ensures r == [] <==> 2 <= |s| <= 50
    ensures |s| < 2 ==> r == ["Name must be at least 2 characters"]
    ensures |s| > 50 ==> r == ["Name is too long"]
  {
    (if |s| < 2 then ["Name must be at least 2 characters"] else [])
    + (if |s| > 50 then ["Name is too long"] else [])
  }

  /**
   * JavaScript's `\s` without the `u` flag: the ASCII blanks, no-break space,
   * the Unicode space separators, the line and paragraph separators, and the
   * byte order mark.
   */
  predicate IsJsWhitespace(c: char) {
    c == ' ' || c == '\t' || c == '\n' || c == '\U{B}' || c == '\U{C}' || c == '\r'
    || c == '\U{A0}' || c == '\U{1680}' || '\U{2000}' <= c <= '\U{200A}'
    || c == '\U{2028}' || c == '\U{2029}' || c == '\U{202F}' || c == '\U{205F}'
    || c == '\U{3000}' || c == '\U{FEFF}'
  }

  /** The character class `[\d\s\-\+\(\)]`. */
  predicate IsPhoneChar(c: char) {
    IsDigit(c) || IsJsWhitespace(c) || c == '-' || c == '+' || c == '(' || c == ')'
  }

  /** The whole string matches `^[\d\s\-\+\(\)]+$`: non-empty and every character in the class. */
  predicate MatchesPhonePattern(s: string) {
    |s| >= 1 && forall i :: 0 <= i < |s| ==> IsPhoneChar(s[i])
  }

  /** `phoneSchema`: the issues zod reports for `s`, regex first, then the bounds. */
  function PhoneIssues(s: string): (r: seq<string>)
    ensures r == [] <==> MatchesPhonePattern(s) && 10 <= |s| <= 20
    ensures |r| <= 2
    ensures !MatchesPhonePattern(s) ==> r[0] == "Invalid phone number"
  {
    (if MatchesPhonePattern(s) then [] else ["Invalid phone number"])
    + (if |s| < 10 then ["Phone number is too short"] else [])
    + (if |s| > 20 then ["Phone number is too long"] else [])
  }

  /** A letter anywhere makes a phone number invalid, whatever its length. */
  lemma PhoneRejectsLetters(s: string, k: nat)
    requires k < |s| && (IsAsciiLower(s[k]) || IsAsciiUpper(s[k]))
    ensures PhoneIssues(s) != []
  {
    assert !IsPhoneChar(s[k]);
  }

  // ---------------------------------------------------------------- ZIP codes

  /** The ZIP shapes `^\d{5}(-\d{4})?$` describes: five digits, or five digits, '-', four digits. */
  predicate IsZip(s: string) {
    (|s| == 5 && AllDigits(s))
    || (|s| == 10 && AllDigits(s[..5]) && s[5] == '-' && AllDigits(s[6..]))
  }

  /**
   * One step of the automaton for `\d{5}(-\d{4})?`: states 0..5 count the
   * first five digits, 6 follows the '-', 7..10 count the last four.
   * `None` is the dead state.
   */
  function ZipStep(q: nat, c: char): Option<nat> {
    if q < 5 || 6 <= q < 10 then (if IsDigit(c) then Some(q + 1) else None)
    else if q == 5 then (if c == '-' then Some(6) else None)
    else None
  }

  /** Runs the automaton from `q` over `s`. */
  function ZipRun(q: nat, s: string): Option<nat>
    decreases |s|
  {
    if s == [] then Some(q)
    else match ZipStep(q, s[0])
      case None => None
      case Some(next) => ZipRun(next, s[1..])
  }

  /** The regex matches: the run from 0 ends in one of the two accepting states. */
  predicate ZipMatches(s: string) {
    ZipRun(0, s) == Some(5) || ZipRun(0, s) == Some(10)
  }

  /** Running over `a + b` runs over `a`, then over `b` from where that ended. */
  lemma {:induction false} ZipRunConcat(q: nat, a: string, b: string)
    ensures ZipRun(q, a + b) == match ZipRun(q, a) case None => None case Some(p) => ZipRun(p, b)
    decreases |a|
  {
    if a == [] {
      assert a + b == b;
    } else {
      assert (a + b)[0] == a[0];
      assert (a + b)[1..] == a[1..] + b;
      match ZipStep(q, a[0])
      case None =>
      case Some(next) => ZipRunConcat(next, a[1..], b);
    }
  }

  /** Inside one digit block the automaton counts digits and dies on anything else. */
  lemma {:induction false} ZipRunDigits(q: nat, s: string)
    requires q + |s| <= 5 || (6 <= q && q + |s| <= 10)
    ensures ZipRun(q, s) == if AllDigits(s) then Some(q + |s|) else None
    decreases |s|
  {
    if s != [] {
      ZipRunDigits(q + 1, s[1..]);
      if AllDigits(s[1..]) && IsDigit(s[0]) {
        assert AllDigits(s) by {
          forall i | 0 <= i < |s| ensures IsDigit(s[i]) {
            if i > 0 { assert s[i] == s[1..][i - 1]; }
          }
        }
      } else if IsDigit(s[0]) {
        var i :| 0 <= i < |s[1..]| && !IsDigit(s[1..][i]);
        assert s[i + 1] == s[1..][i];
      }
    }
  }

  /** The automaton accepts exactly the ZIP shapes. */
  lemma ZipMatchesIsZip(s: string)
    ensures ZipMatches(s) <==> IsZip(s)
  {
    if |s| <= 5 {
      ZipRunDigits(0, s);
    } else {
      var head, rest := s[..5], s[5..];
      assert s == head + rest;
      ZipRunConcat(0, head, rest);
      ZipRunDigits(0, head);
      if AllDigits(head) {
        assert rest == [rest[0]] + rest[1..];
        ZipRunConcat(5, [rest[0]], rest[1..]);
        if rest[0] == '-' {
          var tail := rest[1..];
          assert s[6..] == tail;
          if |tail| <= 4 {
            ZipRunDigits(6, tail);
          } else {
            assert tail == tail[..4] + tail[4..];
            ZipRunConcat(6, tail[..4], tail[4..]);
            ZipRunDigits(6, tail[..4]);
          }
        }
      }
    }
  }

  /** `zip`'s regex check: the issues zod reports for `s`. */
  function ZipIssues(s: string): (r: seq<string>)
    ensures r == [] <==> IsZip(s)
  {
    ZipMatchesIsZip(s);
    if ZipMatches(s) then [] else ["Invalid ZIP code"]
  }

  // ---------------------------------------------------------------- objects

  /** The object handed to `addressSchema`; `country` may be omitted. */
  datatype AddressInput = AddressInput(street: string, city: string, state: string, zip: string, country: Option<string>)

  /** What `addressSchema` returns on success: the country filled in. */
  datatype Address = Address(street: string, city: string, state: string, zip: string, country: string)

  const DefaultCountry: string := "US"

  /** `addressSchema.safeParse(input)`. */
  function ParseAddress(input: AddressInput): (r: Option<Address>)
    ensures r.Some? <==> |input.street| >= 1 && |input.city| >= 1 && |input.state| >= 1 && IsZip(input.zip)
    ensures r.Some? ==> r.value.country == input.country.GetOr(DefaultCountry)
    ensures r.Some? ==> r.value.street == input.street && r.value.city == input.city
                        && r.value.state == input.state && r.value.zip == input.zip
  {
    if |input.street| >= 1 && |input.city| >= 1 && |input.state| >= 1 && ZipIssues(input.zip) == [] then
      Some(Address(input.street, input.city, input.state, input.zip, input.country.GetOr(DefaultCountry)))
    else None
  }

  /** An address parsed once parses again to itself: the default is applied once. */
  lemma ParseAddressIdempotent(input: AddressInput)
    requires ParseAddress(input).Some?
    ensures var a := ParseAddress(input).value;
      ParseAddress(AddressInput(a.street, a.city, a.state, a.zip, Some(a.country))) == Some(a)
  {
  }

  datatype PaymentMethod = Card | PayPal | ApplePay

  /** The enum member's string. */
  function PaymentMethodName(m: PaymentMethod): string {
    match m
    case Card => "card"
    case PayPal => "paypal"
    case ApplePay => "apple_pay"
  }

  /** `z.enum(['card', 'paypal', 'apple_pay'])`. */
  function ParsePaymentMethod(s: string): (r: Option<PaymentMethod>)
    ensures r.Some? <==> s == "card" || s == "paypal" || s == "apple_pay"
  {
    if s == "card" then Some(Card)
    else if s == "paypal" then Some(PayPal)
    else if s == "apple_pay" then Some(ApplePay)
    else None
  }

  /** Every enum member's name parses back to that member. */
  lemma PaymentMethodRoundTrip(m: PaymentMethod)
    ensures ParsePaymentMethod(PaymentMethodName(m)) == Some(m)
  {
  }

  /** Every accepted string is the name of the member it parses to. */
  lemma ParsedPaymentMethodName(s: string)
    ensures ParsePaymentMethod(s).Some? ==> PaymentMethodName(ParsePaymentMethod(s).value) == s
  {
  }

  /**
   * The object handed to `checkoutSchema`. The email format check is zod
   * library code and comes in as `isEmail`.
   */
  datatype CheckoutInput = CheckoutInput(
    email: string, name: string, phone: string,
    shippingAddress: AddressInput, billingAddress: Option<AddressInput>,
    sameAsShipping: Option<bool>, paymentMethod: string)

  datatype Checkout = Checkout(
    email: string, name: string, phone: string,
    shippingAddress: Address, billingAddress: Option<Address>,
    sameAsShipping: bool, paymentMethod: PaymentMethod)

  /** `emailSchema`: non-empty and of email form. */
  predicate EmailValid(s: string, isEmail: string -> bool) {
    |s| >= 1 && isEmail(s)
  }

  /** An omitted billing address is fine; a given one must parse. */
  function ParseBilling(b: Option<AddressInput>): (r: Option<Option<Address>>)
    ensures r.Some? <==> b.None? || ParseAddress(b.value).Some?
    ensures b.None? ==> r == Some(None)
  {
    match b
    case None => Some(None)
    case Some(input) =>
      match ParseAddress(input)
      case None => None
      case Some(a) => Some(Some(a))
  }

  /** `checkoutSchema.safeParse(input)`. */
  function ParseCheckout(input: CheckoutInput, isEmail: string -> bool): (r: Option<Checkout>)
    ensures r.Some? <==>
      (EmailValid(input.email, isEmail) && NameIssues(input.name) == [] && PhoneIssues(input.phone) == []
       && ParseAddress(input.shippingAddress).Some? && ParseBilling(input.billingAddress).Some?
       && ParsePaymentMethod(input.paymentMethod).Some?)
    ensures r.Some? ==> r.value.sameAsShipping == input.sameAsShipping.GetOr(true)
    ensures r.Some? ==> PaymentMethodName(r.value.paymentMethod) == input.paymentMethod
    ensures r.Some? ==> r.value.billingAddress.None? == input.billingAddress.None?
    ensures r.Some? ==> r.value.email == input.email && r.value.name == input.name && r.value.phone == input.phone
    ensures r.Some? ==> Some(r.value.shippingAddress) == ParseAddress(input.shippingAddress)
    ensures r.Some? ==> Some(r.value.billingAddress) == ParseBilling(input.billingAddress)
  {
    if EmailValid(input.email, isEmail) && NameIssues(input.name) == [] && PhoneIssues(input.phone) == []
       && ParseAddress(input.shippingAddress).Some? && ParseBilling(input.billingAddress).Some?
       && ParsePaymentMethod(input.paymentMethod).Some?
    then
      ParsedPaymentMethodName(input.paymentMethod);
      Some(Checkout(input.email, input.name, input.phone,
                    ParseAddress(input.shippingAddress).value, ParseBilling(input.billingAddress).value,
                    input.sameAsShipping.GetOr(true), ParsePaymentMethod(input.paymentMethod).value))
    else None
  }

  /** The object handed to `productReviewSchema`; `rating` is a JavaScript number. */
  datatype ReviewInput = ReviewInput(rating: real, title: string, comment: string)

  /** `productReviewSchema`: rating between 1 and 5, title 3 to 100 characters, comment 10 to 1000. */
  predicate ReviewValid(r: ReviewInput) {
    1.0 <= r.rating <= 5.0 && 3 <= |r.title| <= 100 && 10 <= |r.comment| <= 1000
  }

  /**
   * Ratings need not be whole: with a valid title and comment, a rating is
   * accepted exactly when it lies in [1, 5], half stars included.
   */
  lemma HalfStarRatingsAccepted(rating: real, title: string, comment: string)
    requires 3 <= |title| <= 100 && 10 <= |comment| <= 1000
    ensures ReviewValid(ReviewInput(rating, title, comment)) <==> 1.0 <= rating <= 5.0
  {
  }
}

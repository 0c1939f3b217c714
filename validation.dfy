/** The request validators that run before the handlers. Each chain is a
    predicate on the request as sent; a request reaches its handler only when
    every chain of its route holds. The `trim` sanitizers also rewrite the
    fields they run on, so a handler sees the trimmed values (`Sanitized`).
    The library checks whose definitions are not part of this model
    (`isEmail`, `isMobilePhone`, `isMongoId`, `isURL`) arrive as parameters.
    Request numbers are reals, as JSON numbers are. `isLength` counts code
    points but skips the variation selectors U+FE0E and U+FE0F; the model
    counts every code point, as the length of a Dafny string does. */
module Validation {
  import opened Common
  import opened Text
  import opened ProductModel
  import opened OrderModel
  import opened OrderController

  predicate LengthBetween(s: string, min: int, max: int) {
    min <= |s| <= max
  }

  /** `isInt({min, max})` on a request number: a whole number in range. */
  predicate IsIntIn(x: real, min: int, max: int) {
    x == x.Floor as real && min <= x.Floor <= max
  }

  // ---------------------------------------------------------------------
  // Postal codes: `/^[1-9][0-9]{5}$/`, on profile and on checkout

  predicate ValidPostalCode(s: string) {
    |s| == 6 && '1' <= s[0] <= '9' && AllDigits(s[1..])
  }

  /** A string of n digits denotes a number below 10^n, and at least
      10^(n-1) exactly when it does not start with 0. */
  lemma {:induction false} DigitsValueRange(s: string)
    requires AllDigits(s) && s != []
    ensures DigitsValue(s) < Pow10(|s|)
    ensures s[0] != '0' <==> DigitsValue(s) >= Pow10(|s| - 1)
    decreases |s|
  {
    var n := |s| - 1;
    if n > 0 {
      var init := s[..n];
      assert AllDigits(init);
      DigitsValueRange(init);
      assert init[0] == s[0];
    } else {
      assert s[..0] == [];
    }
  }

  /** A postal code is valid exactly when it is six digits denoting a number
      from 100000 to 999999. */
  lemma PostalCodeIsSixDigitNumber(s: string)
    ensures ValidPostalCode(s) <==> |s| == 6 && AllDigits(s) && DigitsValue(s) >= 100000
  {
    if |s| == 6 && AllDigits(s) {
      DigitsValueRange(s);
      assert Pow10(5) == 100000;
      assert AllDigits(s[1..]) by {
        forall i | 0 <= i < 5 ensures IsDigit(s[1..][i]) {
          assert s[1..][i] == s[i + 1];
        }
      }
    }
    if ValidPostalCode(s) {
      assert AllDigits(s) by {
        forall i | 1 <= i < 6 ensures IsDigit(s[i]) {
          assert s[i] == s[1..][i - 1];
        }
      }
    }
  }

  // ---------------------------------------------------------------------
  // Passwords: `isLength({min: 6})` and `/^(?=.*[a-z])(?=.*[A-Z])(?=.*\d)/`

  /** The text before the first line terminator: a lookahead's `.*` does not
      cross one. */
  function FirstLine(s: string): (r: string)
    ensures |r| <= |s| && r == s[..|r|]
    ensures forall i :: 0 <= i < |r| ==> !IsLineTerminator(r[i])
    ensures |r| < |s| ==> IsLineTerminator(s[|r|])
    decreases |s|
  {
    if s == [] || IsLineTerminator(s[0]) then []
    else [s[0]] + FirstLine(s[1..])
  }

  predicate HasLower(s: string) {
    exists i :: 0 <= i < |s| && 'a' <= s[i] <= 'z'
  }

  predicate HasUpper(s: string) {
    exists i :: 0 <= i < |s| && 'A' <= s[i] <= 'Z'
  }

  predicate HasDigit(s: string) {
    exists i :: 0 <= i < |s| && IsDigit(s[i])
  }

  /** The password rule of registration and of a password change. */
  predicate ValidPassword(p: string) {
    var line := FirstLine(p);
    |p| >= 6 && HasLower(line) && HasUpper(line) && HasDigit(line)
  }

  /** An accepted password has a lower-case letter, an upper-case letter and
      a digit. */
  lemma ValidPasswordHasClasses(p: string)
    requires ValidPassword(p)
    ensures |p| >= 6 && HasLower(p) && HasUpper(p) && HasDigit(p)
  {
    var line := FirstLine(p);
    var a :| 0 <= a < |line| && 'a' <= line[a] <= 'z';
    var b :| 0 <= b < |line| && 'A' <= line[b] <= 'Z';
    var c :| 0 <= c < |line| && IsDigit(line[c]);
    assert p[a] == line[a] && p[b] == line[b] && p[c] == line[c];
  }

  /** For a password on one line the rule is exactly: at least six
      characters with a lower-case letter, an upper-case letter and a digit. */
  lemma SingleLinePassword(p: string)
    requires forall i :: 0 <= i < |p| ==> !IsLineTerminator(p[i])
    ensures ValidPassword(p) <==> |p| >= 6 && HasLower(p) && HasUpper(p) && HasDigit(p)
  {
    assert FirstLine(p) == p;
  }

  /** Classes that occur only after a line break do not count. */
  lemma SecondLineIgnored()
    ensures HasLower("aaaaaa\nA1") && HasUpper("aaaaaa\nA1") && HasDigit("aaaaaa\nA1")
    ensures !ValidPassword("aaaaaa\nA1")
  {
    var p := "aaaaaa\nA1";
    assert 'a' <= p[0] <= 'z' && 'A' <= p[7] <= 'Z' && IsDigit(p[8]);
    var line := FirstLine(p);
    assert |line| == 6 by {
      assert forall i :: 0 <= i < 6 ==> !IsLineTerminator(p[i]);
      assert IsLineTerminator(p[6]);
    }
    assert forall i :: 0 <= i < |line| ==> line[i] == 'a';
  }

  // ---------------------------------------------------------------------
  // Users

  /** A user name: 2 to 50 characters once trimmed. */
  predicate ValidUserName(name: string) {
    LengthBetween(Trim(name), 2, 50)
  }

  /** White space around a name never changes whether it is accepted. */
  lemma UserNameIgnoresPadding(pre: string, name: string, post: string)
    requires AllWhitespace(pre) && AllWhitespace(post)
    ensures ValidUserName(pre + name + post) <==> ValidUserName(name)
  {
    TrimIgnoresPadding(pre, name, post);
  }

  /** `validateRegister`. */
  predicate ValidRegister(name: string, emailValid: bool, password: string, phone: Option<string>,
                          isMobilePhone: string -> bool)
  {
    && ValidUserName(name)
    && emailValid
    && ValidPassword(password)
    && (phone.None? || isMobilePhone(phone.value))
  }

  /** `validateLogin`: a valid e-mail and a password that is not empty. */
  predicate ValidLogin(emailValid: bool, password: Option<string>) {
    emailValid && password.Some? && password.value != ""
  }

  /** The address part of a profile update; every field is optional. */
  datatype ProfileAddress = ProfileAddress(
    street: Option<string>, city: Option<string>, state: Option<string>,
    postalCode: Option<string>, country: Option<string>)

  predicate OptionalTrimmedAtMost(s: Option<string>, max: int) {
    s.None? || |Trim(s.value)| <= max
  }

  /** `validateProfileUpdate`. */
  predicate ValidProfileUpdate(name: Option<string>, phone: Option<string>, address: ProfileAddress,
                               isMobilePhone: string -> bool)
  {
    && (name.None? || ValidUserName(name.value))
    && (phone.None? || isMobilePhone(phone.value))
    && OptionalTrimmedAtMost(address.street, 100)
    && OptionalTrimmedAtMost(address.city, 50)
    && OptionalTrimmedAtMost(address.state, 50)
    && (address.postalCode.None? || ValidPostalCode(address.postalCode.value))
    && OptionalTrimmedAtMost(address.country, 50)
  }

  /** `validatePasswordChange`. */
  predicate ValidPasswordChange(currentPassword: Option<string>, newPassword: string) {
    currentPassword.Some? && currentPassword.value != "" && ValidPassword(newPassword)
  }

  // ---------------------------------------------------------------------
  // Products

  const Categories: seq<string> :=
    ["Electronics", "Clothing", "Books", "Home", "Sports", "Beauty", "Toys", "Other"]

  datatype ProductRequest = ProductRequest(
    name: string, description: string, price: real, discountPrice: Option<real>,
    category: string, stock: real, imageUrl: Option<string>)

  /** `validateProduct`. */
  predicate ValidProductRequest(req: ProductRequest, isURL: string -> bool) {
    && LengthBetween(Trim(req.name), 1, 100)
    && LengthBetween(Trim(req.description), 1, 1000)
    && req.price >= 0.0
    && (req.discountPrice.None? || req.discountPrice.value >= 0.0)
    && req.category in Categories
    && req.stock == req.stock.Floor as real && req.stock.Floor >= 0
    && (req.imageUrl.None? || isURL(req.imageUrl.value))
  }

  /** An accepted product request with a whole price makes a product the
      schema accepts: the trimmed name is trimmed again by the schema to the
      same value, and the bounds agree. */
  lemma ValidProductRequestStores(req: ProductRequest, isURL: string -> bool, price: int, stock: int)
    requires ValidProductRequest(req, isURL)
    requires req.price == price as real && req.stock == stock as real
    ensures SchemaValid(NewProduct(Trim(req.name), Trim(req.description), price, Some(stock)))
  {
    assert price >= 0 && stock >= 0;
    TrimIdempotent(req.name);
    NewProductValid(Trim(req.name), Trim(req.description), price, stock);
  }

  lemma NewProductValid(name: string, description: string, price: int, stock: int)
    requires 1 <= |name| <= 100 && name == Trim(name)
    requires 1 <= |description| <= 1000
    requires price >= 0 && stock >= 0
    ensures SchemaValid(NewProduct(name, description, price, Some(stock)))
  {
  }

  // ---------------------------------------------------------------------
  // Cart and buy-now quantities

  /** `validateCartAdd`: the quantity may be absent (the handler then adds 1). */
  predicate ValidCartAdd(productIdValid: bool, quantity: Option<real>) {
    productIdValid && (quantity.None? || IsIntIn(quantity.value, 1, 10))
  }

  /** `validateCartUpdate`: the quantity is required, and 0 is allowed. */
  predicate ValidCartUpdate(productIdValid: bool, quantity: Option<real>) {
    productIdValid && quantity.Some? && IsIntIn(quantity.value, 0, 10)
  }

  /** The whole number a handler receives for an accepted request number. */
  function RequestInt(x: Option<real>): Option<int> {
    if x.None? then None else Some(x.value.Floor)
  }

  /** An accepted add asks for 1 to 10 units, counting the default. */
  lemma CartAddQuantityRange(productIdValid: bool, quantity: Option<real>)
    requires ValidCartAdd(productIdValid, quantity)
    ensures 1 <= RequestInt(quantity).GetOr(1) <= 10
    ensures quantity.Some? ==> RequestInt(quantity).value as real == quantity.value
  {
  }

  /** For an accepted update the handler's "0 or less removes the line"
      branch is taken exactly for 0. */
  lemma CartUpdateRemovesOnlyAtZero(productIdValid: bool, quantity: Option<real>)
    requires ValidCartUpdate(productIdValid, quantity)
    ensures RequestInt(quantity).value <= 0 <==> quantity.value == 0.0
    ensures RequestInt(quantity).value <= 10
  {
  }

  // ---------------------------------------------------------------------
  // Checkout and buy-now

  /** The shipping address as sent. */
  datatype AddressRequest = AddressRequest(
    name: string, street: string, city: string, state: string,
    postalCode: string, country: Option<string>, phone: string)

  datatype CheckoutRequest = CheckoutRequest(address: AddressRequest, paymentMethod: Option<string>, notes: Option<string>)

  /** The address rules of `validateCheckout`. */
  predicate ValidAddressRequest(a: AddressRequest, isMobilePhone: string -> bool) {
    && LengthBetween(Trim(a.name), 2, 50)
    && LengthBetween(Trim(a.street), 5, 100)
    && LengthBetween(Trim(a.city), 2, 50)
    && LengthBetween(Trim(a.state), 2, 50)
    && ValidPostalCode(a.postalCode)
    && OptionalTrimmedAtMost(a.country, 50)
    && isMobilePhone(a.phone)
  }

  /** `validateCheckout`. */
  predicate ValidCheckout(req: CheckoutRequest, isMobilePhone: string -> bool) {
    && ValidAddressRequest(req.address, isMobilePhone)
    && (req.paymentMethod.None? || req.paymentMethod.value in PaymentMethods)
    && OptionalTrimmedAtMost(req.notes, 500)
  }

  /** `validateBuyNow`: a product id, 1 to 10 units, and the checkout rules. */
  predicate ValidBuyNow(productIdValid: bool, quantity: Option<real>, req: CheckoutRequest,
                        isMobilePhone: string -> bool)
  {
    productIdValid && quantity.Some? && IsIntIn(quantity.value, 1, 10) && ValidCheckout(req, isMobilePhone)
  }

  function TrimOption(s: Option<string>): (r: Option<string>)
    ensures r.None? <==> s.None?
    ensures s.Some? ==> r.value == Trim(s.value)
  {
    if s.None? then None else Some(Trim(s.value))
  }

  /** The address the handler receives: the fields with a `trim` sanitizer
      arrive trimmed. */
  function SanitizedAddress(a: AddressRequest): ShippingAddress {
    ShippingAddress(Trim(a.name), Trim(a.street), Trim(a.city), Trim(a.state),
                    a.postalCode, TrimOption(a.country), a.phone)
  }

  /** An accepted address, whose phone check refuses the empty string and
      whose country (if sent) is not blank, arrives in a form the order
      schema's address validators accept. */
  lemma SanitizedAddressValid(a: AddressRequest, isMobilePhone: string -> bool)
    requires ValidAddressRequest(a, isMobilePhone)
    requires !isMobilePhone("")
    requires a.country.None? || !AllWhitespace(a.country.value)
    ensures AddressValid(WithDefaultCountry(SanitizedAddress(a)))
  {
    assert a.phone != "";
    assert |a.postalCode| == 6;
  }

  /** An accepted checkout, whose phone check refuses the empty string and
      whose country (if sent) is not blank, gives the handler an address,
      method and notes the order schema accepts: with line items the schema
      accepts, the order the handler builds passes validation. */
  lemma ValidCheckoutCreatable(req: CheckoutRequest, isMobilePhone: string -> bool, items: seq<OrderItem>)
    requires ValidCheckout(req, isMobilePhone)
    requires !isMobilePhone("")
    requires req.address.country.None? || !AllWhitespace(req.address.country.value)
    requires forall k :: 0 <= k < |items| ==> ItemValid(items[k])
    ensures var t := Price(ItemsTotal(items));
            Creatable(items, SanitizedAddress(req.address), req.paymentMethod.GetOr(DefaultPaymentMethod),
                      t.shippingCost, t.tax, TrimOption(req.notes))
  {
    PriceNonNegative(ItemsTotal(items));
    SanitizedAddressValid(req.address, isMobilePhone);
  }

  /** A country of white space passes its own rule (at most 50 characters
      once trimmed) but arrives as the empty string, which the schema's
      `required` refuses and its default does not replace: such a checkout
      passes the validators and still fails when the order is saved. */
  lemma BlankCountryPassesButFailsSchema(req: CheckoutRequest)
    requires req.address.country.Some? && AllWhitespace(req.address.country.value)
    ensures OptionalTrimmedAtMost(req.address.country, 50)
    ensures !AddressValid(WithDefaultCountry(SanitizedAddress(req.address)))
  {
  }

  /** `validatePaymentIntent`. */
  predicate ValidPaymentIntent(orderIdValid: bool) {
    orderIdValid
  }

  /** `validatePaymentConfirm`: it requires a `paymentIntentId` field, which
      the confirmation handler does not read. */
  predicate ValidPaymentConfirm(paymentIntentId: Option<string>) {
    paymentIntentId.Some? && paymentIntentId.value != ""
  }
}

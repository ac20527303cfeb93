/** The product detail page (frontend-leptos/src/pages/product.rs): the
    product is looked up by the `id` URL parameter, a quantity signal starting
    at 1 is stepped by "-" and "+" buttons, and "Add to cart" adds the current
    quantity to the cart. The signal is a field updated in place; the cart is
    the `Cart` object of the cart model. */
module ProductPage {
  import opened Wrappers
  import opened Text
  import opened ProductTypes
  import opened CartModel

  /** Rust's `u32`. */
  type UInt32 = x: int | 0 <= x < 0x1_0000_0000

  // ---------------------------------------------------------------------------
  // `id.parse::<i32>()`

  function DigitValue(c: char): nat
    requires IsAsciiDigit(c)
  {
    c as int - '0' as int
  }

  /** The value of a string of decimal digits. */
  function DigitsValue(s: string): nat
    requires AllDigits(s)
  {
    if s == [] then 0 else 10 * DigitsValue(s[..|s| - 1]) + DigitValue(s[|s| - 1])
  }

  /** `str::parse::<i32>`: an optional '+' or '-', then at least one digit,
      and a value within the range of `i32`. */
  function ParseI32(s: string): (r: Option<Int32>)
    ensures r.Some? ==> |s| > 0 && (IsAsciiDigit(s[0]) || s[0] == '+' || s[0] == '-')
  {
    var negative := |s| > 0 && s[0] == '-';
    var body := if |s| > 0 && (s[0] == '-' || s[0] == '+') then s[1..] else s;
    if body == [] || !AllDigits(body) then None
    else
      var v: int := if negative then -(DigitsValue(body) as int) else DigitsValue(body);
      if -0x8000_0000 <= v < 0x8000_0000 then Some(v) else None
  }

  /** The decimal text of a natural number, as `Display` writes it. */
  function NatString(n: nat): string {
    if n < 10 then [('0' as int + n) as char]
    else NatString(n / 10) + [('0' as int + n % 10) as char]
  }

  /** The text `Display` writes for an `i32`. */
  function Int32String(n: Int32): string {
    if n < 0 then "-" + NatString(-(n as int)) else NatString(n)
  }

  lemma {:induction false} NatStringValue(n: nat)
    ensures |NatString(n)| > 0 && AllDigits(NatString(n))
    ensures DigitsValue(NatString(n)) == n
  {
    if n >= 10 {
      NatStringValue(n / 10);
      var s := NatString(n);
      assert s[..|s| - 1] == NatString(n / 10);
    }
  }

  /** Parsing is the inverse of printing: a link built from a product's id
      finds that id again. */
  lemma ParseI32RoundTrip(n: Int32)
    ensures ParseI32(Int32String(n)) == Some(n)
  {
    var s := Int32String(n);
    if n < 0 {
      var m: nat := -(n as int);
      NatStringValue(m);
      assert s[0] == '-' && s[1..] == NatString(m);
      assert DigitsValue(s[1..]) == m;
    } else {
      NatStringValue(n);
      assert IsAsciiDigit(s[0]);
      assert DigitsValue(s) == n;
    }
  }

  /** An unsigned decimal parses to its value exactly when that value fits
      in an `i32`. */
  lemma ParseI32Range(n: nat)
    ensures ParseI32(NatString(n)) == (if n < 0x8000_0000 then Some(n) else None)
  {
    NatStringValue(n);
  }

  /** What `parse` refuses: nothing, a bare sign, a non-digit; a leading '+'
      is accepted. */
  lemma ParseI32Refuses()
    ensures ParseI32("") == None && ParseI32("-") == None && ParseI32("+") == None
    ensures ParseI32("4x") == None && ParseI32("+7") == Some(7) && ParseI32("-12") == Some(-12)
  {
    assert !IsAsciiDigit("4x"[1]);
    assert "+7"[1..] == "7";
    assert DigitsValue("7") == 7;
    assert "-12"[1..] == "12" && "12"[..1] == "1";
    assert DigitsValue("12") == 12;
  }

  // ---------------------------------------------------------------------------
  // The product resource

  /** `products.into_iter().find(|p| p.id == id)`. */
  function FindById(products: seq<Product>, id: int): (r: Option<Product>)
    ensures r.None? <==> forall k :: 0 <= k < |products| ==> products[k].id != id
    ensures r.Some? ==> r.value.id == id
    ensures r.Some? ==> exists k :: 0 <= k < |products| && products[k] == r.value && forall j :: 0 <= j < k ==> products[j].id != id
  {
    if products == [] then None
    else if products[0].id == id then Some(products[0])
    else
      var r := FindById(products[1..], id);
      if r.Some? then
        assert forall k :: 0 < k < |products| ==> products[k] == products[1..][k - 1];
        r
      else r
  }

  /** The `product` resource: the `id` parameter, parsed, then the fetched
      list searched for it; any step failing gives None. */
  function LookupProduct(idParam: Option<string>, fetched: Result<seq<Product>, string>): Option<Product> {
    match idParam
    case None => None
    case Some(text) =>
      match ParseI32(text)
      case None => None
      case Some(id) =>
        match fetched
        case Failure(_) => None
        case Success(products) => FindById(products, id)
  }

  /** A product is shown exactly when the parameter is there, parses, the
      fetch succeeded and some product has that id; it is then the first
      such product. */
  lemma LookupMeaning(idParam: Option<string>, fetched: Result<seq<Product>, string>)
    ensures LookupProduct(idParam, fetched).Some? <==>
      && idParam.Some? && ParseI32(idParam.value).Some? && fetched.Success?
      && exists k :: 0 <= k < |fetched.value| && fetched.value[k].id == ParseI32(idParam.value).value
    ensures LookupProduct(idParam, fetched).Some? ==>
      LookupProduct(idParam, fetched) == FindById(fetched.value, ParseI32(idParam.value).value)
  {
  }

  // ---------------------------------------------------------------------------
  // The quantity stepper

  /** `inventory as u32`: a negative `i32` wraps around. */
  function AsU32(i: Int32): UInt32 {
    if i >= 0 then i else i + 0x1_0000_0000
  }

  /** The "-" button: `q.saturating_sub(1).max(1)`. */
  function Decremented(q: UInt32): UInt32 {
    var down := if q == 0 then 0 else q - 1;
    if down >= 1 then down else 1
  }

  /** The "+" button: `(q + 1).min(inventory as u32)`, with `u32` addition
      wrapping as in a release build. */
  function Incremented(q: UInt32, inventory: Int32): UInt32 {
    var up := (q + 1) % 0x1_0000_0000;
    if up <= AsU32(inventory) then up else AsU32(inventory)
  }

  predicate MinusDisabled(q: UInt32) {
    q <= 1
  }

  predicate PlusDisabled(q: UInt32, inventory: Int32) {
    q >= AsU32(inventory)
  }

  /** "-" never goes below 1. With the stepper shown (inventory at least 1)
      and `1 <= q <= inventory`, both buttons keep that range; an enabled
      button moves q by exactly one, and a disabled one leaves it alone. */
  lemma StepperMeaning(q: UInt32, inventory: Int32)
    ensures Decremented(q) >= 1
    ensures inventory > 0 && 1 <= q <= inventory ==>
      && 1 <= Decremented(q) <= inventory
      && 1 <= Incremented(q, inventory) <= inventory
      && (MinusDisabled(q) <==> Decremented(q) == q)
      && (!MinusDisabled(q) ==> Decremented(q) == q - 1)
      && (PlusDisabled(q, inventory) <==> Incremented(q, inventory) == q)
      && (!PlusDisabled(q, inventory) ==> Incremented(q, inventory) == q + 1)
  {
  }

  datatype Click = Minus | Plus

  /** The quantity after a sequence of clicks. */
  function AfterClicks(q: UInt32, inventory: Int32, clicks: seq<Click>): UInt32
    decreases |clicks|
  {
    if clicks == [] then q
    else
      var next := if clicks[0] == Minus then Decremented(q) else Incremented(q, inventory);
      AfterClicks(next, inventory, clicks[1..])
  }

  /** From the initial quantity 1, any clicks on a shown stepper leave the
      quantity between 1 and the inventory. */
  lemma {:induction false} ClicksStayInRange(q: UInt32, inventory: Int32, clicks: seq<Click>)
    requires inventory > 0 && 1 <= q <= inventory
    ensures 1 <= AfterClicks(q, inventory, clicks) <= inventory
    decreases |clicks|
  {
    if clicks != [] {
      StepperMeaning(q, inventory);
      var next := if clicks[0] == Minus then Decremented(q) else Incremented(q, inventory);
      ClicksStayInRange(next, inventory, clicks[1..]);
    }
  }

  // ---------------------------------------------------------------------------
  // The page's state

  class ProductPage {
    var quantity: UInt32
    var cart: Cart

    /** The stepper invariant for a product with this inventory. */
    ghost predicate InRange(inventory: Int32)
      reads this
    {
      1 <= quantity <= inventory
    }

    /** `create_signal(1u32)`, beside the cart `load_cart` returned. */
    constructor (cart: Cart)
      ensures this.cart == cart && quantity == 1
    {
      this.cart := cart;
      quantity := 1;
    }

    method Decrement(inventory: Int32)
      modifies this
      ensures quantity == Decremented(old(quantity)) && cart == old(cart)
      ensures old(InRange(inventory)) && inventory > 0 ==> InRange(inventory)
    {
      StepperMeaning(quantity, inventory);
      var down := if quantity == 0 then 0 else quantity - 1;
      quantity := if down >= 1 then down else 1;
    }

    method Increment(inventory: Int32)
      modifies this
      ensures quantity == Incremented(old(quantity), inventory) && cart == old(cart)
      ensures old(InRange(inventory)) && inventory > 0 ==> InRange(inventory)
    {
      StepperMeaning(quantity, inventory);
      var up := (quantity + 1) % 0x1_0000_0000;
      var limit := AsU32(inventory);
      quantity := if up <= limit then up else limit;
    }

    /** `handle_add_to_cart`: add the current quantity of the product to the
        cart, so its item count grows by exactly that quantity. */
    method HandleAddToCart(product: Product)
      requires cart.Valid()
      modifies cart
      ensures cart.Valid()
      ensures cart.items == Added(old(cart.items), product, quantity)
      ensures cart.TotalItems() == old(cart.TotalItems()) + quantity
    {
      cart.AddItem(product, quantity);
    }
  }
}

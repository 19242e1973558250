/** The cart page (src/pages/CartPage.tsx): line amounts, the order
    summary (subtotal, flat shipping, coupon discount, displayed total) and
    the promo-code form. The cart store behind `useCart` is not part of this
    model: its lines arrive as a sequence and its `getCartTotal` is taken to
    be the sum of the line amounts. Amounts are integer cents; the discount
    and the displayed total are exact rationals, since 20% of a cent amount
    need not be whole. */
module CartPage {
  import opened Wrappers
  import opened Text

  /** A cart line as the page reads it. `image` is None when the line has
      no such field, as for a product spread in from the product page,
      whose records carry `images` instead. */
  datatype CartItem = CartItem(
    id: string, name: string, price: int, image: Option<string>,
    quantity: int, customDesign: Option<string>)

  /** What the page assumes of the store's lines: no negative prices or
      quantities. */
  predicate ValidCart(items: seq<CartItem>)
  {
    forall i :: 0 <= i < |items| ==> items[i].price >= 0 && items[i].quantity >= 0
  }

  /** The flat shipping fee, 5.99 in cents. */
  const ShippingFee: int := 599

  /** The amount shown on a line: price times quantity. */
  function LineAmount(item: CartItem): (r: int)
    ensures item.price >= 0 && item.quantity >= 0 ==> r >= 0
    ensures item.quantity == 0 ==> r == 0
  {
    item.price * item.quantity
  }

  /** `getCartTotal()`: the sum of the line amounts. */
  function Subtotal(items: seq<CartItem>): (r: int)
    ensures ValidCart(items) ==> r >= 0
  {
    if items == [] then 0 else LineAmount(items[0]) + Subtotal(items[1..])
  }

  /** The subtotal of two runs of lines is the sum of their subtotals. */
  lemma {:induction false} SubtotalAppend(a: seq<CartItem>, b: seq<CartItem>)
    ensures Subtotal(a + b) == Subtotal(a) + Subtotal(b)
  {
    if a != [] {
      SubtotalAppend(a[1..], b);
      assert (a + b)[0] == a[0];
      assert (a + b)[1..] == a[1..] + b;
    } else {
      assert a + b == b;
    }
  }

  /** Removing line k takes exactly its amount off the subtotal. */
  lemma SubtotalWithout(items: seq<CartItem>, k: nat)
    requires k < |items|
    ensures Subtotal(items[..k] + items[k + 1..]) == Subtotal(items) - LineAmount(items[k])
  {
    SubtotalAppend(items[..k], items[k + 1..]);
    SubtotalAppend(items[..k], items[k..]);
    SubtotalAppend([items[k]], items[k + 1..]);
    assert items[..k] + items[k..] == items;
    assert items[k..] == [items[k]] + items[k + 1..];
  }

  /** Changing line k's quantity to q moves the subtotal by the price times
      the change in quantity. */
  lemma SubtotalWithQuantity(items: seq<CartItem>, k: nat, q: int)
    requires k < |items|
    ensures Subtotal(items[k := items[k].(quantity := q)]) ==
      Subtotal(items) + items[k].price * (q - items[k].quantity)
  {
    var updated := items[k := items[k].(quantity := q)];
    SubtotalWithout(items, k);
    SubtotalWithout(updated, k);
    assert updated[..k] + updated[k + 1..] == items[..k] + items[k + 1..];
    assert LineAmount(updated[k]) == items[k].price * q;
    Distribute(items[k].price, q, items[k].quantity);
  }

  lemma Distribute(p: int, a: int, b: int)
    ensures p * a - p * b == p * (a - b)
  {
  }

  /** `shipping`: the fee when the cart has a line, nothing when it is empty. */
  function Shipping(items: seq<CartItem>): (r: int)
    ensures r == ShippingFee <==> |items| > 0
    ensures r == 0 <==> items == []
  {
    if |items| > 0 then ShippingFee else 0
  }

  /** `total`: the subtotal plus shipping, before any discount; never below
      the shipping it contains. */
  function OrderTotal(items: seq<CartItem>): (r: int)
    ensures r - Shipping(items) == Subtotal(items)
    ensures ValidCart(items) ==> r >= Shipping(items)
  {
    Subtotal(items) + Shipping(items)
  }

  /** The coupon test: the code lowered is "discount20". */
  predicate CouponAccepted(code: string): (b: bool)
    ensures b ==> |code| == 10
  {
    Lower(code) == "discount20"
  }

  /** The test ignores case: a code is accepted iff its lower-cased form is. */
  lemma CouponIgnoresCase(code: string)
    ensures CouponAccepted(code) <==> CouponAccepted(Lower(code))
  {
    LowerIdempotent(code);
  }

  /** The code the page suggests ("DISCOUNT20") is accepted, as is the
      all-lower-case spelling. */
  lemma SuggestedCodeIsAccepted()
    ensures CouponAccepted("DISCOUNT20") && CouponAccepted("discount20")
  {
    var s := Lower("DISCOUNT20");
    forall i | 0 <= i < 10
      ensures s[i] == "discount20"[i]
    {
      if i == 0 {} else if i == 1 {} else if i == 2 {} else if i == 3 {} else if i == 4 {}
      else if i == 5 {} else if i == 6 {} else if i == 7 {} else if i == 8 {} else {}
    }
  }

  /** The displayed total for a stored discount: subtotal plus shipping
      minus the discount. */
  function DisplayedTotal(items: seq<CartItem>, discount: real): (r: real)
    ensures r + discount == OrderTotal(items) as real
  {
    OrderTotal(items) as real - discount
  }

  /** The amount `handleApplyCoupon` stores: 20% of the subtotal at that
      moment (shipping excluded) for an accepted code, otherwise 0. */
  function DiscountFor(code: string, subtotal: int): (d: real)
    ensures CouponAccepted(code) ==> 5.0 * d == subtotal as real
    ensures !CouponAccepted(code) ==> d == 0.0
  {
    if CouponAccepted(code) then subtotal as real * 0.2 else 0.0
  }

  /** At the moment a coupon is applied, the displayed total is at least
      the shipping fee: the discount never eats into shipping. */
  lemma AppliedTotalCoversShipping(items: seq<CartItem>, code: string)
    requires ValidCart(items)
    ensures DisplayedTotal(items, DiscountFor(code, Subtotal(items))) >= Shipping(items) as real
    ensures CouponAccepted(code) ==>
      DisplayedTotal(items, DiscountFor(code, Subtotal(items))) ==
        Subtotal(items) as real * 0.8 + Shipping(items) as real
  {
  }

  /** The discount as the page keeps it is not recomputed when the lines
      change: a 20% discount taken on a large cart, kept after the large
      line is removed, drives the displayed total below zero. */
  lemma StaleDiscountGoesNegative()
    ensures var big := [CartItem("1", "a", 100, None, 1, None), CartItem("2", "b", 10000, None, 1, None)];
      var small := [CartItem("1", "a", 100, None, 1, None)];
      ValidCart(small) && DisplayedTotal(small, DiscountFor("DISCOUNT20", Subtotal(big))) < 0.0
  {
    SuggestedCodeIsAccepted();
  }

  /** The evidently intended summary: the discount follows the current
      subtotal while the coupon stays applied. */
  function LiveDisplayedTotal(items: seq<CartItem>, couponApplied: bool): (r: real)
    ensures ValidCart(items) ==> r >= Shipping(items) as real
    ensures !couponApplied ==> r == OrderTotal(items) as real
  {
    DisplayedTotal(items, if couponApplied then Subtotal(items) as real * 0.2 else 0.0)
  }

  /** `item.customDesign || item.image`: the line's picture, None when
      neither field is there. */
  function LineImage(item: CartItem): (src: Option<string>)
    ensures Truthy(item.customDesign) ==> src == item.customDesign
    ensures !Truthy(item.customDesign) ==> src == item.image
  {
    if Truthy(item.customDesign) then item.customDesign else item.image
  }

  /** JavaScript's `||` on the two fields: the picture is truthy iff either
      field is, and it is missing iff the design is falsy and there is no
      image field. */
  lemma LineImageTruthiness(item: CartItem)
    ensures Truthy(LineImage(item)) <==> Truthy(item.customDesign) || Truthy(item.image)
    ensures LineImage(item).None? <==> !Truthy(item.customDesign) && item.image.None?
  {
  }

  /** What the quantity and remove buttons ask of the store. */
  datatype StoreCall = UpdateQuantity(id: string, quantity: int) | RemoveFromCart(id: string)

  /** The minus button: one less for this line's id, with no clamp, so a
      line at quantity 1 asks for 0. */
  function MinusClick(item: CartItem): (c: StoreCall)
    ensures c.UpdateQuantity? && c.id == item.id
    ensures c.quantity + 1 == item.quantity
  {
    UpdateQuantity(item.id, item.quantity - 1)
  }

  /** The plus button: one more for this line's id. */
  function PlusClick(item: CartItem): (c: StoreCall)
    ensures c.UpdateQuantity? && c.id == item.id
    ensures c.quantity - 1 == item.quantity
  {
    UpdateQuantity(item.id, item.quantity + 1)
  }

  /** The Remove link: drop this line's id. */
  function RemoveClick(item: CartItem): (c: StoreCall)
    ensures c == RemoveFromCart(item.id)
  {
    RemoveFromCart(item.id)
  }

  /** Line k after the store applies a quantity request for it. */
  function WithQuantity(items: seq<CartItem>, k: nat, c: StoreCall): (r: seq<CartItem>)
    requires k < |items| && c.UpdateQuantity?
    ensures |r| == |items| && r[k].quantity == c.quantity
    ensures r[k] == items[k].(quantity := c.quantity)
    ensures forall j :: 0 <= j < |items| && j != k ==> r[j] == items[j]
  {
    items[k := items[k].(quantity := c.quantity)]
  }

  /** Granting the plus button's request raises the subtotal by exactly the
      line's price. */
  lemma PlusClickAddsPrice(items: seq<CartItem>, k: nat)
    requires k < |items|
    ensures Subtotal(WithQuantity(items, k, PlusClick(items[k]))) == Subtotal(items) + items[k].price
  {
    SubtotalWithQuantity(items, k, items[k].quantity + 1);
  }

  /** Granting the minus button's request lowers the subtotal by exactly
      the line's price. There is no clamp: from quantity 1 the request is
      for 0 (from 0, for -1), where the product page's own stepper stops
      at 1. */
  lemma MinusClickTakesPrice(items: seq<CartItem>, k: nat)
    requires k < |items|
    ensures Subtotal(WithQuantity(items, k, MinusClick(items[k]))) == Subtotal(items) - items[k].price
    ensures items[k].quantity <= 1 ==> MinusClick(items[k]).quantity < 1
  {
    SubtotalWithQuantity(items, k, items[k].quantity - 1);
  }

  /** Granting plus and then minus on the same line gives back the cart
      it started from. */
  lemma MinusUndoesPlus(items: seq<CartItem>, k: nat)
    requires k < |items|
    ensures var up := WithQuantity(items, k, PlusClick(items[k]));
      WithQuantity(up, k, MinusClick(up[k])) == items
  {
    var up := WithQuantity(items, k, PlusClick(items[k]));
    assert WithQuantity(up, k, MinusClick(up[k]))[k] == items[k];
  }

  /** If the store drops line k for the Remove link's id, the subtotal
      falls by that line's amount and, on a valid cart, never rises; the
      stored coupon discount stays as it was. */
  lemma RemoveClickTakesLine(items: seq<CartItem>, k: nat)
    requires k < |items|
    ensures RemoveClick(items[k]).id == items[k].id
    ensures Subtotal(items[..k] + items[k + 1..]) == Subtotal(items) - LineAmount(items[k])
    ensures ValidCart(items) ==> Subtotal(items[..k] + items[k + 1..]) <= Subtotal(items)
  {
    SubtotalWithout(items, k);
  }

  /** The promo-code form's state: the typed code, the stored discount and
      whether a coupon is applied. */
  class CouponForm {
    var couponCode: string
    var discount: real
    var couponApplied: bool

    /** The page mounts with an empty code and no discount. */
    constructor ()
      ensures couponCode == "" && discount == 0.0 && !couponApplied
    {
      couponCode := "";
      discount := 0.0;
      couponApplied := false;
    }

    /** Typing in the code box changes only the code. */
    method SetCouponCode(code: string)
      modifies this
      ensures couponCode == code
      ensures discount == old(discount) && couponApplied == old(couponApplied)
      ensures ShowsInvalidMessage() <==> code != "" && !old(couponApplied)
    {
      couponCode := code;
    }

    /** The Apply button: accept or reject the typed code against the
        current lines, storing a snapshot of the discount. */
    method ApplyCoupon(items: seq<CartItem>)
      modifies this
      ensures couponCode == old(couponCode)
      ensures couponApplied == CouponAccepted(couponCode)
      ensures discount == DiscountFor(couponCode, Subtotal(items))
      ensures couponCode != "" ==> (ShowsAppliedMessage() <==> !ShowsInvalidMessage())
      ensures ValidCart(items) && Subtotal(items) > 0 ==> (ShowsDiscountRow() <==> couponApplied)
    {
      if Lower(couponCode) == "discount20" {
        discount := Subtotal(items) as real * 0.2;
        couponApplied := true;
      } else {
        couponApplied := false;
        discount := 0.0;
      }
    }

    /** The Total row of the summary, for whatever lines the store holds
        now. It agrees with the live total exactly when the stored discount
        still matches the current subtotal. */
    function Total(items: seq<CartItem>): (r: real)
      reads this
      ensures r == LiveDisplayedTotal(items, couponApplied) <==>
        discount == (if couponApplied then Subtotal(items) as real * 0.2 else 0.0)
    {
      DisplayedTotal(items, discount)
    }

    /** The discount row shows for a positive stored discount. */
    predicate ShowsDiscountRow()
      reads this
    {
      discount > 0.0
    }

    /** "Coupon applied: 20% off" shows while a coupon is applied. */
    predicate ShowsAppliedMessage()
      reads this
    {
      couponApplied
    }

    /** The "Invalid coupon code" message shows for a non-empty code that is
        not applied. */
    predicate ShowsInvalidMessage()
      reads this
    {
      couponCode != "" && !couponApplied
    }
  }

  /** The scenario behind StaleDiscountGoesNegative, through the form. */
  method StaleDiscountScenario() returns (total: real)
    ensures total < 0.0
  {
    var big := [CartItem("1", "a", 100, None, 1, None), CartItem("2", "b", 10000, None, 1, None)];
    var small := [CartItem("1", "a", 100, None, 1, None)];
    var form := new CouponForm();
    form.SetCouponCode("DISCOUNT20");
    SuggestedCodeIsAccepted();
    form.ApplyCoupon(big);
    total := form.Total(small);
  }
}

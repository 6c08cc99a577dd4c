/** Cart pricing, vouchers and the order total. Amounts are whole rupiah. */
module Pricing {
  import opened Base
  import opened Sums
  import opened Inventory

  type Id = nat

  /** A cart line; spicy level and notes do not enter the price. */
  datatype Item = Item(product: ProductId, quantity: nat, toppings: seq<Id>)

  /** Prices as one read of the catalogue returned them. */
  datatype Catalogue = Catalogue(products: map<ProductId, nat>, toppings: map<Id, nat>)

  datatype Topping = Topping(id: Id, price: nat)

  /** A line as stored with the order, with the prices it was sold at. */
  datatype OrderItem = OrderItem(product: ProductId, quantity: nat, unitPrice: nat, toppings: seq<Topping>)

  datatype VoucherKind =
    | FreeShipping(maxAmount: Option<nat>)
    | Percentage(percent: Option<nat>, cap: Option<nat>)
    | Fixed(amount: Option<nat>)

  datatype Voucher = Voucher(id: Id, kind: VoucherKind, minimumOrder: int, maxUsage: Option<nat>)

  predicate Available(cart: seq<Item>, cat: Catalogue) {
    forall item | item in cart :: item.product in cat.products && forall t | t in item.toppings :: t in cat.toppings
  }

  function PriceOf(cat: Catalogue): Id -> int {
    (t: Id) => if t in cat.toppings then cat.toppings[t] else 0
  }

  function LinePrice(cat: Catalogue): Item -> int {
    (item: Item) =>
      ((if item.product in cat.products then cat.products[item.product] else 0) +
        SumOf(item.toppings, PriceOf(cat))) * item.quantity
  }

  function Subtotal(cart: seq<Item>, cat: Catalogue): int { SumOf(cart, LinePrice(cat)) }

  /** The lines and toppings the order stores. */
  function Stored(item: Item, cat: Catalogue): OrderItem {
    OrderItem(item.product, item.quantity,
      if item.product in cat.products then cat.products[item.product] else 0,
      seq(|item.toppings|, i requires 0 <= i < |item.toppings| =>
        Topping(item.toppings[i], if item.toppings[i] in cat.toppings then cat.toppings[item.toppings[i]] else 0)))
  }

  function StoredItems(cart: seq<Item>, cat: Catalogue): seq<OrderItem> {
    seq(|cart|, i requires 0 <= i < |cart| => Stored(cart[i], cat))
  }

  function ToppingPrice(): Topping -> int { (t: Topping) => t.price }

  /** (unit price + topping prices) x quantity, from the stored columns alone. */
  function StoredPrice(): OrderItem -> int {
    (o: OrderItem) => (o.unitPrice + SumOf(o.toppings, ToppingPrice())) * o.quantity
  }

  function StoredTotal(items: seq<OrderItem>): int { SumOf(items, StoredPrice()) }

  function Min(a: int, b: int): int { if a < b then a else b }

  function Discount(kind: VoucherKind, subtotal: nat, shipping: nat): int {
    match kind
    case FreeShipping(maxAmount) => if shipping == 0 then 0 else Min(shipping, maxAmount.GetOr(shipping))
    case Percentage(percent, cap) =>
      var discount := subtotal * percent.GetOr(0) / 100;
      if cap.Some? then Min(discount, cap.value) else discount
    case Fixed(amount) => Min(amount.GetOr(0), subtotal)
  }

  /** The configuration and minimum-order checks a voucher has to pass. */
  predicate Usable(v: Voucher, subtotal: int) {
    && (v.minimumOrder > 0 ==> v.minimumOrder <= subtotal)
    && match v.kind
       case FreeShipping(_) => true
       case Percentage(percent, _) => percent.Some? && percent.value != 0
       case Fixed(amount) => amount.Some? && 0 < amount.value
  }

  function Total(subtotal: nat, shipping: nat, voucher: Option<Voucher>): int {
    subtotal + shipping - if voucher.Some? then Discount(voucher.value.kind, subtotal, shipping) else 0
  }

  // ---- the stored lines carry the priced cart ----

  lemma {:induction false} SubtotalNonNegative(cart: seq<Item>, cat: Catalogue)
    ensures 0 <= Subtotal(cart, cat)
  {
    if cart != [] {
      var item := cart[|cart| - 1];
      SubtotalNonNegative(cart[..|cart| - 1], cat);
      ToppingsNonNegative(item.toppings, cat);
      assert 0 <= LinePrice(cat)(item);
    }
  }

  lemma {:induction false} ToppingsNonNegative(toppings: seq<Id>, cat: Catalogue)
    ensures 0 <= SumOf(toppings, PriceOf(cat))
  {
    if toppings != [] {
      ToppingsNonNegative(toppings[..|toppings| - 1], cat);
    }
  }

  lemma {:induction false} StoredToppingsTotal(toppings: seq<Id>, cat: Catalogue)
    ensures SumOf(Stored(Item(0, 0, toppings), cat).toppings, ToppingPrice()) == SumOf(toppings, PriceOf(cat))
  {
    if toppings != [] {
      var rest := toppings[..|toppings| - 1];
      StoredToppingsTotal(rest, cat);
      var stored := Stored(Item(0, 0, toppings), cat).toppings;
      assert stored[..|stored| - 1] == Stored(Item(0, 0, rest), cat).toppings;
    }
  }

  lemma {:induction false} StoredTotalIsSubtotal(cart: seq<Item>, cat: Catalogue)
    ensures StoredTotal(StoredItems(cart, cat)) == Subtotal(cart, cat)
  {
    if cart != [] {
      var last := |cart| - 1;
      StoredTotalIsSubtotal(cart[..last], cat);
      assert StoredItems(cart, cat)[..last] == StoredItems(cart[..last], cat);
      StoredToppingsTotal(cart[last].toppings, cat);
      assert Stored(cart[last], cat).toppings == Stored(Item(0, 0, cart[last].toppings), cat).toppings;
      assert StoredPrice()(Stored(cart[last], cat)) == LinePrice(cat)(cart[last]);
    }
  }

  lemma {:induction false} SubtotalIgnoresOrder(cart: seq<Item>, other: seq<Item>, cat: Catalogue)
    requires multiset(cart) == multiset(other)
    ensures Subtotal(cart, cat) == Subtotal(other, cat)
  {
    SumOfPermuted(cart, other, LinePrice(cat));
  }

  /** Splitting one line's quantity over two lines leaves the subtotal unchanged. */
  lemma {:induction false} SubtotalIgnoresSplitting(cart: seq<Item>, i: nat, q: nat, cat: Catalogue)
    requires i < |cart| && q <= cart[i].quantity
    ensures Subtotal(cart[i := cart[i].(quantity := q)] + [cart[i].(quantity := cart[i].quantity - q)], cat) ==
              Subtotal(cart, cat)
  {
    var a, b := cart[i].(quantity := q), cart[i].(quantity := cart[i].quantity - q);
    SumOfUpdate(cart, i, a, LinePrice(cat));
    SumOfAppend(cart[i := a], b, LinePrice(cat));
    var unit := (if a.product in cat.products then cat.products[a.product] else 0) + SumOf(a.toppings, PriceOf(cat));
    Distributes(unit, q, cart[i].quantity - q);
    assert LinePrice(cat)(a) == unit * q;
    assert LinePrice(cat)(b) == unit * (cart[i].quantity - q);
    assert LinePrice(cat)(cart[i]) == unit * cart[i].quantity;
  }

  lemma {:induction false} Distributes(unit: int, q: nat, r: nat)
    ensures unit * (q + r) == unit * q + unit * r
  {
  }

  // ---- totals are not negative ----

  ghost predicate NeverNegative(v: Voucher) {
    forall subtotal: nat, shipping: nat | Usable(v, subtotal) :: 0 <= Total(subtotal, shipping, Some(v))
  }

  /** A configuration check that needs no cart. */
  predicate SafeVoucher(v: Voucher) {
    match v.kind
    case Percentage(Some(percent), cap) =>
      || percent <= 100
      || (cap.Some? && (cap.value <= v.minimumOrder || (cap.value - 1) * (percent - 100) < 100))
    case _ => true
  }

  /**
   * A voucher keeps every total non-negative exactly when it is not a percentage
   * above 100, unless its cap is so low that no accepted cart reaches it from below.
   */
  lemma {:induction false} NeverNegativeIffSafe(v: Voucher)
    ensures NeverNegative(v) <==> SafeVoucher(v)
  {
    if SafeVoucher(v) {
      forall subtotal: nat, shipping: nat | Usable(v, subtotal) ensures 0 <= Total(subtotal, shipping, Some(v)) {
        SafeTotal(v, subtotal, shipping);
      }
    } else {
      var percent, cap := v.kind.percent.value, v.kind.cap;
      // The smallest accepted subtotal whose uncapped discount exceeds it.
      var s: nat := if 100 <= v.minimumOrder then v.minimumOrder else 100;
      if cap.Some? {
        s := cap.value - 1;
        assert s * (percent - 100) >= 100;
      } else {
        assert s * (percent - 100) >= 100 by { AtLeastItself(s, percent - 100); }
      }
      assert s * percent == s * 100 + s * (percent - 100);
      assert s * percent / 100 >= s + 1;
      assert Usable(v, s) && Total(s, 0, Some(v)) < 0;
    }
  }

  lemma {:induction false} AtLeastItself(a: nat, b: nat)
    requires 0 < b
    ensures a <= a * b
  {
  }

  lemma {:induction false} Scales(a: nat, b: int, c: int)
    requires b <= c
    ensures a * b <= a * c && b * a <= c * a
  {
  }

  lemma {:induction false} SplitPercent(s: nat, percent: int)
    ensures s * percent == s * 100 + s * (percent - 100)
  {
  }

  lemma {:induction false} SafeTotal(v: Voucher, subtotal: nat, shipping: nat)
    requires SafeVoucher(v) && Usable(v, subtotal)
    ensures 0 <= Total(subtotal, shipping, Some(v)) && 0 <= Discount(v.kind, subtotal, shipping)
  {
    if v.kind.Percentage? {
      var percent := v.kind.percent.value;
      if percent <= 100 {
        Scales(subtotal, percent, 100);
      } else if subtotal + 1 <= v.kind.cap.value && v.minimumOrder < v.kind.cap.value {
        Scales(percent - 100, subtotal, v.kind.cap.value - 1);
        SplitPercent(subtotal, percent);
      }
      Scales(subtotal, 0, percent);
    }
  }
}

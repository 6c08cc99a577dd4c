/** What a committed order charges, from the cart, the catalogue and the voucher's own columns. */
module OrderQuote {
  import opened Base
  import opened Sums
  import opened Inventory
  import opened Pricing
  import opened Shop

  /** Free shipping: the smaller of the shipping cost and the voucher's maximum, where it has one. */
  predicate IsShippingDiscount(discount: int, shipping: nat, maxAmount: Option<nat>) {
    && discount <= shipping && (maxAmount.Some? ==> discount <= maxAmount.value)
    && (discount == shipping || (maxAmount.Some? && discount == maxAmount.value))
  }

  /** Whole rupiah of a percentage, rounded down. */
  predicate IsShare(share: int, subtotal: int, percent: nat) {
    100 * share <= subtotal * percent < 100 * (share + 1)
  }

  /** The share, unless the cap is smaller. */
  predicate IsPercentDiscount(discount: int, subtotal: int, percent: nat, cap: Option<nat>) {
    if cap.Some? && cap.value <= discount then discount == cap.value && 100 * cap.value <= subtotal * percent
    else IsShare(discount, subtotal, percent)
  }

  predicate IsFixedDiscount(discount: int, subtotal: int, amount: nat) {
    discount <= amount && discount <= subtotal && (discount == amount || discount == subtotal)
  }

  /** The discount each kind of voucher promises. */
  predicate IsDiscount(kind: VoucherKind, discount: int, subtotal: int, shipping: nat) {
    match kind
    case FreeShipping(maxAmount) => IsShippingDiscount(discount, shipping, maxAmount)
    case Percentage(percent, cap) =>
      percent.Some? && percent.value > 0 && IsPercentDiscount(discount, subtotal, percent.value, cap)
    case Fixed(amount) => amount.Some? && amount.value > 0 && IsFixedDiscount(discount, subtotal, amount.value)
  }

  /** A stored line: the cart's product and quantity, with the prices of the first catalogue read. */
  predicate IsLineOf(o: OrderItem, item: Item, cat: Catalogue) {
    && o.product == item.product && o.quantity == item.quantity && 1 <= o.quantity
    && item.product in cat.products && o.unitPrice == cat.products[item.product]
    && |o.toppings| == |item.toppings|
    && (forall k | 0 <= k < |item.toppings| ::
          && o.toppings[k].id == item.toppings[k]
          && item.toppings[k] in cat.toppings && o.toppings[k].price == cat.toppings[item.toppings[k]])
    && (forall k, m | 0 <= k < m < |o.toppings| :: o.toppings[k].id != o.toppings[m].id)
  }

  /** What one cart line costs: product and toppings, times the quantity. */
  function CostOf(item: Item, cat: Catalogue): int
    requires item.product in cat.products && forall t | t in item.toppings :: t in cat.toppings
  {
    (cat.products[item.product] + ToppingsCost(item.toppings, cat)) * item.quantity
  }

  function ToppingsCost(toppings: seq<Id>, cat: Catalogue): int
    requires forall t | t in toppings :: t in cat.toppings
  {
    if toppings == [] then 0 else cat.toppings[toppings[0]] + ToppingsCost(toppings[1..], cat)
  }

  function CartCost(cart: seq<Item>, cat: Catalogue): int
    requires Available(cart, cat)
  {
    if cart == [] then 0 else CostOf(cart[0], cat) + CartCost(cart[1..], cat)
  }

  lemma {:induction false} SumFromTheFront<T>(s: seq<T>, f: T -> int)
    requires s != []
    ensures SumOf(s, f) == f(s[0]) + SumOf(s[1..], f)
    decreases |s|
  {
    var last := |s| - 1;
    if last > 0 {
      SumFromTheFront(s[..last], f);
      assert s[..last][1..] == s[1..][..last - 1] && s[1..][last - 1] == s[last];
    } else {
      assert s[..last] == [] && s[1..] == [];
    }
  }

  lemma {:induction false} ToppingsCostIsSum(toppings: seq<Id>, cat: Catalogue)
    requires forall t | t in toppings :: t in cat.toppings
    ensures ToppingsCost(toppings, cat) == SumOf(toppings, PriceOf(cat))
    decreases |toppings|
  {
    if toppings != [] {
      SumFromTheFront(toppings, PriceOf(cat));
      ToppingsCostIsSum(toppings[1..], cat);
    }
  }

  lemma {:induction false} CartCostIsSubtotal(cart: seq<Item>, cat: Catalogue)
    requires Available(cart, cat)
    ensures CartCost(cart, cat) == Subtotal(cart, cat)
    decreases |cart|
  {
    if cart != [] {
      assert cart[0] in cart;
      SumFromTheFront(cart, LinePrice(cat));
      ToppingsCostIsSum(cart[0].toppings, cat);
      CartCostIsSubtotal(cart[1..], cat);
    }
  }

  lemma {:induction false} DiscountIsPromised(kind: VoucherKind, subtotal: nat, shipping: nat)
    requires kind.Percentage? ==> kind.percent.Some? && kind.percent.value > 0
    requires kind.Fixed? ==> kind.amount.Some? && kind.amount.value > 0
    ensures IsDiscount(kind, Discount(kind, subtotal, shipping), subtotal, shipping)
  {
    if kind.Percentage? {
      var share := subtotal * kind.percent.value / 100;
      assert IsShare(share, subtotal, kind.percent.value);
    }
  }

  /**
   * The quote: a committed order is its user's, holds the cart's lines at the first
   * read's prices, and charges the cart's cost at the second read plus shipping, less
   * exactly the discount its voucher promises - none without a voucher, and a voucher
   * only on a subtotal that reaches its minimum.
   */
  lemma {:induction false} OrderIsAsQuoted(db: Db, d: Draft)
    requires Places(db, d)
    ensures var o := NewOrder(d);
            && o.user == d.user && o.payMethod == d.payMethod && o.status == Pending && o.deliveryFee == d.shipping
            && |o.items| == |d.cart| && (forall k | 0 <= k < |d.cart| :: IsLineOf(o.items[k], d.cart[k], d.first))
            && o.subtotal == CartCost(d.cart, d.second) && o.totalPrice == o.subtotal + d.shipping - o.discount
            && (if d.voucher.None? then o.voucher == None && o.discount == 0
                else
                  && o.voucher == Some(d.voucher.value.id) && d.voucher.value.minimumOrder <= o.subtotal
                  && IsDiscount(d.voucher.value.kind, o.discount, o.subtotal, d.shipping))
  {
    CartCostIsSubtotal(d.cart, d.second);
    SubtotalNonNegative(d.cart, d.second);
    forall k | 0 <= k < |d.cart| ensures IsLineOf(NewOrder(d).items[k], d.cart[k], d.first) {
      assert d.cart[k] in d.cart;
    }
    if d.voucher.Some? {
      DiscountIsPromised(d.voucher.value.kind, NewOrder(d).subtotal, d.shipping);
    }
  }

  // ---- which checkouts commit ----

  /** How much of a product the cart asks for, over all its lines. */
  function Wanted(cart: seq<Item>, p: ProductId): int {
    if cart == [] then 0 else (if cart[0].product == p then cart[0].quantity else 0) + Wanted(cart[1..], p)
  }

  lemma {:induction false} LinesAsk(cart: seq<Item>, cat: Catalogue, p: ProductId)
    ensures QtyOf(Lines(StoredItems(cart, cat)), p) == Wanted(cart, p)
    decreases |cart|
  {
    var lines := Lines(StoredItems(cart, cat));
    if cart != [] {
      SumFromTheFront(lines, QuantityFor(p));
      assert lines[1..] == Lines(StoredItems(cart[1..], cat));
      LinesAsk(cart[1..], cat, p);
    }
  }

  predicate KnownItem(item: Item, cat: Catalogue) {
    item.product in cat.products && forall k | 0 <= k < |item.toppings| :: item.toppings[k] in cat.toppings
  }

  /** The lines are orderable: at least one piece of a known product, with known toppings, each at most once. */
  predicate Orderable(cart: seq<Item>, first: Catalogue, second: Catalogue) {
    && |cart| > 0
    && forall i | 0 <= i < |cart| ::
         && cart[i].quantity > 0 && KnownItem(cart[i], first) && KnownItem(cart[i], second)
         && forall k, m | 0 <= k < m < |cart[i].toppings| :: cart[i].toppings[k] != cart[i].toppings[m]
  }

  /** There is a voucher row with uses left that this user has not used, and the cart costs its minimum. */
  predicate VoucherApplies(db: Db, v: Voucher, user: Id, subtotal: int) {
    && v.minimumOrder <= subtotal
    && (v.kind.Percentage? ==> v.kind.percent.GetOr(0) > 0) && (v.kind.Fixed? ==> v.kind.amount.GetOr(0) > 0)
    && v.id in db.promos && (v.maxUsage == None || db.promos[v.id].current < v.maxUsage.value)
    && forall k | 0 <= k < |db.usages| :: !(db.usages[k].voucher == v.id && db.usages[k].user == user)
  }

  lemma {:induction false} OrderableIff(d: Draft)
    ensures Orderable(d.cart, d.first, d.second) <==>
              && d.cart != [] && (forall item | item in d.cart :: 1 <= item.quantity)
              && Available(d.cart, d.first) && Available(d.cart, d.second) && ToppingsDistinct(d.cart)
  {
    if Orderable(d.cart, d.first, d.second) {
      forall item | item in d.cart
        ensures 1 <= item.quantity && KnownItem(item, d.first) && KnownItem(item, d.second)
        ensures forall i, j | 0 <= i < j < |item.toppings| :: item.toppings[i] != item.toppings[j]
      {
        var i :| 0 <= i < |d.cart| && d.cart[i] == item;
      }
    } else if d.cart != [] {
      var i :| 0 <= i < |d.cart| && !(
        && d.cart[i].quantity > 0 && KnownItem(d.cart[i], d.first) && KnownItem(d.cart[i], d.second)
        && forall k, m | 0 <= k < m < |d.cart[i].toppings| :: d.cart[i].toppings[k] != d.cart[i].toppings[m]);
      assert d.cart[i] in d.cart;
    }
  }

  lemma {:induction false} StockSuffices(db: Db, cart: seq<Item>, cat: Catalogue)
    ensures InStock(db.stock, Lines(StoredItems(cart, cat))) <==>
              forall i | 0 <= i < |cart| ::
                cart[i].product in db.stock && Wanted(cart, cart[i].product) <= db.stock[cart[i].product]
  {
    var lines := Lines(StoredItems(cart, cat));
    forall i | 0 <= i < |cart|
      ensures lines[i] in lines && QtyOf(lines, cart[i].product) == Wanted(cart, cart[i].product)
    {
      LinesAsk(cart, cat, cart[i].product);
    }
    assert forall i | 0 <= i < |cart| :: lines[i].product == cart[i].product;
  }

  /** A checkout transaction commits exactly when the cart is orderable, the stock suffices and the voucher applies. */
  lemma {:induction false} CommitsIff(db: Db, d: Draft)
    ensures Places(db, d) <==>
              && Orderable(d.cart, d.first, d.second)
              && (forall i | 0 <= i < |d.cart| ::
                    d.cart[i].product in db.stock && Wanted(d.cart, d.cart[i].product) <= db.stock[d.cart[i].product])
              && (d.voucher.Some? ==> VoucherApplies(db, d.voucher.value, d.user, CostIfKnown(d.cart, d.second)))
  {
    OrderableIff(d);
    StockSuffices(db, d.cart, d.first);
    if Orderable(d.cart, d.first, d.second) {
      CartCostIsSubtotal(d.cart, d.second);
      SubtotalNonNegative(d.cart, d.second);
      if d.voucher.Some? {
        UsageRowsAreSearched(db, d.voucher.value.id, d.user);
      }
    }
  }

  function CostIfKnown(cart: seq<Item>, cat: Catalogue): int {
    if Available(cart, cat) then CartCost(cart, cat) else 0
  }

  lemma {:induction false} UsageRowsAreSearched(db: Db, v: Id, user: Id)
    ensures (forall u | u in db.usages :: u.voucher != v || u.user != user) <==>
            forall k | 0 <= k < |db.usages| :: !(db.usages[k].voucher == v && db.usages[k].user == user)
  {
    if forall k | 0 <= k < |db.usages| :: !(db.usages[k].voucher == v && db.usages[k].user == user) {
      forall u | u in db.usages ensures u.voucher != v || u.user != user {
        var k :| 0 <= k < |db.usages| && db.usages[k] == u;
      }
    } else {
      var k :| 0 <= k < |db.usages| && db.usages[k].voucher == v && db.usages[k].user == user;
      assert db.usages[k] in db.usages;
    }
  }
}

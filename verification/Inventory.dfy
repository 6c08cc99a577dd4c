/** Stock taken by an order at checkout and given back when the order is cancelled. */
module Inventory {
  import opened Base
  import opened Sums

  type ProductId = nat
  type Stock = map<ProductId, int>

  datatype Line = Line(product: ProductId, quantity: nat)

  function QuantityFor(p: ProductId): Line -> int {
    (l: Line) => if l.product == p then l.quantity else 0
  }

  /** Quantity of product `p` over all lines, repeated lines included. */
  function QtyOf(lines: seq<Line>, p: ProductId): int { SumOf(lines, QuantityFor(p)) }

  function Decremented(stock: Stock, lines: seq<Line>): Stock {
    map p | p in stock :: stock[p] - QtyOf(lines, p)
  }

  function Restocked(stock: Stock, lines: seq<Line>): Stock {
    map p | p in stock :: stock[p] + QtyOf(lines, p)
  }

  predicate Covers(products: seq<ProductId>, lines: seq<Line>) {
    && (forall i, j | 0 <= i < j < |products| :: products[i] != products[j])
    && (forall l | l in lines :: l.product in products)
  }

  predicate EnoughStock(stock: Stock, lines: seq<Line>, products: seq<ProductId>) {
    forall p | p in products :: p in stock && QtyOf(lines, p) <= stock[p]
  }

  lemma {:induction false} QtyOfNonNegative(lines: seq<Line>, p: ProductId)
    ensures 0 <= QtyOf(lines, p)
    ensures QtyOf(lines, p) == 0 || exists l :: l in lines && l.product == p
    decreases |lines|
  {
    if lines != [] {
      var rest := lines[..|lines| - 1];
      QtyOfNonNegative(rest, p);
      assert lines[|lines| - 1] in lines;
      if l :| l in rest && l.product == p {
        assert l in lines;
      }
    }
  }

  /**
   * The checkout decrement: one conditional update per distinct product, each for
   * that product's total over the cart. None is the "Insufficient stock" error, on
   * which the caller's transaction rolls back.
   */
  method Decrement(stock: Stock, lines: seq<Line>, products: seq<ProductId>) returns (result: Option<Stock>)
    requires Covers(products, lines)
    ensures result.Some? <==> EnoughStock(stock, lines, products)
    ensures result.Some? ==> result.value == Decremented(stock, lines)
  {
    var left := stock;
    for i := 0 to |products|
      invariant left.Keys == stock.Keys
      invariant EnoughStock(stock, lines, products[..i])
      invariant forall p | p in stock :: left[p] == if p in products[..i] then stock[p] - QtyOf(lines, p) else stock[p]
    {
      var requested := QtyOf(lines, products[i]);
      if products[i] !in left || left[products[i]] < requested {
        assert products[i] in products;
        return None;
      }
      left := left[products[i] := left[products[i]] - requested];
      assert products[..i + 1] == products[..i] + [products[i]];
    }
    forall p | p in stock ensures left[p] == stock[p] - QtyOf(lines, p) {
      QtyOfNonNegative(lines, p);
    }
    assert products[..|products|] == products;
    result := Some(left);
  }

  /**
   * Restock: quantities are first accumulated per product, in one pass over the
   * stored items, and then added back product by product.
   */
  method Restock(stock: Stock, lines: seq<Line>) returns (result: Stock)
    ensures result == Restocked(stock, lines)
  {
    var quantityByProduct: map<ProductId, int> := map[];
    for i := 0 to |lines|
      invariant forall p :: (if p in quantityByProduct then quantityByProduct[p] else 0) == QtyOf(lines[..i], p)
    {
      var l := lines[i];
      var before := if l.product in quantityByProduct then quantityByProduct[l.product] else 0;
      quantityByProduct := quantityByProduct[l.product := before + l.quantity];
      assert lines[..i + 1] == lines[..i] + [l];
      forall p ensures QtyOf(lines[..i + 1], p) == QtyOf(lines[..i], p) + QuantityFor(p)(l) {
        SumOfAppend(lines[..i], l, QuantityFor(p));
      }
    }
    assert lines[..|lines|] == lines;
    result := stock;
    var todo := quantityByProduct.Keys;
    while todo != {}
      invariant todo <= quantityByProduct.Keys && result.Keys == stock.Keys
      invariant forall p | p in stock ::
                  result[p] ==
                  if p in quantityByProduct && p !in todo then stock[p] + quantityByProduct[p] else stock[p]
      decreases |todo|
    {
      var p :| p in todo;
      if p in result {
        result := result[p := result[p] + quantityByProduct[p]];
      }
      todo := todo - {p};
    }
  }

  /** Cancelling gives back exactly what checkout took, however the stored lines are ordered. */
  lemma {:induction false} RestockInvertsCheckout(stock: Stock, ordered: seq<Line>, stored: seq<Line>)
    requires multiset(ordered) == multiset(stored)
    ensures Restocked(Decremented(stock, ordered), stored) == stock
  {
    forall p | p in stock ensures QtyOf(ordered, p) == QtyOf(stored, p) {
      SumOfPermuted(ordered, stored, QuantityFor(p));
    }
  }
}

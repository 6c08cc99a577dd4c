/**
 * The canonical projection of a checkout request: what the fingerprint tells apart and
 * what it does not. `collate` stands for localeCompare and `fold` for trim-and-uppercase.
 */
module CartFingerprint {
  import opened Base
  import opened Sorting
  import J = CanonicalJson

  datatype CartItem = CartItem(
    product: string, qty: int, spicyLevel: Option<int>, notes: Option<string>, toppings: seq<string>)

  datatype Request = Request(
    user: string, verb: string, endpoint: string, address: string, courier: string,
    voucher: Option<string>, payMethod: string, items: seq<CartItem>)

  /** What is hashed; the items' toppings and the items themselves are sorted. */
  datatype Projection = Projection(
    user: string, verb: string, endpoint: string, address: string, courier: string, voucher: Option<string>,
    items: seq<CartItem>)

  type Collate = (string, string) -> int

  /** A collation orders strings consistently; it may equate different ones. */
  ghost predicate Collation(collate: Collate) {
    && (forall a, b :: collate(a, b) < 0 <==> collate(b, a) > 0)
    && (forall a, b, c :: collate(a, b) <= 0 && collate(b, c) <= 0 ==> collate(a, c) <= 0)
  }

  function Join(parts: seq<string>): string {
    if parts == [] then "" else if |parts| == 1 then parts[0] else parts[0] + "," + Join(parts[1..])
  }

  /** Product, joined toppings, spicy level (null as -1), notes (null as the word null). Quantity is not compared. */
  function Compare(collate: Collate, a: CartItem, b: CartItem): int {
    var byProduct := collate(a.product, b.product);
    if byProduct != 0 then byProduct else
    var byToppings := collate(Join(a.toppings), Join(b.toppings));
    if byToppings != 0 then byToppings else
    var byLevel := a.spicyLevel.GetOr(-1) - b.spicyLevel.GetOr(-1);
    if byLevel != 0 then byLevel else
    collate(a.notes.GetOr("null"), b.notes.GetOr("null"))
  }

  function ItemLe(collate: Collate): (CartItem, CartItem) -> bool {
    (a: CartItem, b: CartItem) => Compare(collate, a, b) <= 0
  }

  function Normal(item: CartItem): CartItem {
    item.(toppings := Sort(item.toppings, J.TextLe))
  }

  function Mapped<A, B>(s: seq<A>, f: A -> B): (r: seq<B>)
    ensures |r| == |s| && forall i | 0 <= i < |s| :: r[i] == f(s[i])
  {
    seq(|s|, i requires 0 <= i < |s| => f(s[i]))
  }

  function Normalized(items: seq<CartItem>): seq<CartItem> { Mapped(items, Normal) }

  function VoucherOf(fold: string -> string, code: Option<string>): Option<string> {
    if code.None? || code.value == "" then None else Some(fold(code.value))
  }

  function Project(collate: Collate, fold: string -> string, r: Request): Projection {
    Projection(r.user, r.verb, r.endpoint, r.address, r.courier, VoucherOf(fold, r.voucher),
               Sort(Normalized(r.items), ItemLe(collate)))
  }

  // ---- what the projection is meant to mean ----

  /** An item without any order. */
  datatype Line = Line(
    product: string, qty: int, spicyLevel: Option<int>, notes: Option<string>, toppings: multiset<string>)

  function LineOf(item: CartItem): Line {
    Line(item.product, item.qty, item.spicyLevel, item.notes, multiset(item.toppings))
  }

  predicate NoCode(code: Option<string>) { code == None || code == Some("") }

  /** No voucher on either side, or codes that fold to the same text. */
  predicate SameVoucher(fold: string -> string, a: Option<string>, b: Option<string>) {
    if NoCode(a) || NoCode(b) then NoCode(a) && NoCode(b) else fold(a.value) == fold(b.value)
  }

  /** The same order request: same customer, endpoint, address, courier, voucher and the same lines. */
  ghost predicate SameRequest(fold: string -> string, r: Request, s: Request) {
    && r.user == s.user && r.verb == s.verb && r.endpoint == s.endpoint && r.address == s.address
    && r.courier == s.courier
    && SameVoucher(fold, r.voucher, s.voucher)
    && multiset(Mapped(r.items, LineOf)) == multiset(Mapped(s.items, LineOf))
  }

  lemma {:induction false} ItemLeIsTotal(collate: Collate)
    requires Collation(collate)
    ensures TotalPreorder(ItemLe(collate))
  {
    forall a: CartItem, b: CartItem ensures ItemLe(collate)(a, b) || ItemLe(collate)(b, a) {
      assert collate(a.product, b.product) < 0 <==> collate(b.product, a.product) > 0;
    }
    forall a: CartItem, b: CartItem, c: CartItem | ItemLe(collate)(a, b) && ItemLe(collate)(b, c)
      ensures ItemLe(collate)(a, c)
    {
      CollateTrans(collate, a.product, b.product, c.product);
      CollateTrans(collate, Join(a.toppings), Join(b.toppings), Join(c.toppings));
      CollateTrans(collate, a.notes.GetOr("null"), b.notes.GetOr("null"), c.notes.GetOr("null"));
    }
  }

  lemma {:induction false} CollateTrans(collate: Collate, a: string, b: string, c: string)
    requires Collation(collate)
    ensures collate(a, b) <= 0 && collate(b, c) <= 0 ==>
              collate(a, c) <= 0 && (collate(a, c) == 0 <==> collate(a, b) == 0 && collate(b, c) == 0)
  {
    if collate(a, b) <= 0 && collate(b, c) <= 0 && collate(a, c) == 0 {
      assert collate(c, a) <= 0;
      assert collate(c, b) <= 0;
      assert collate(b, a) <= 0;
    }
    if collate(a, b) == 0 && collate(b, c) == 0 {
      assert collate(b, a) <= 0 && collate(c, b) <= 0;
      assert collate(c, a) <= 0;
    }
  }

  lemma {:induction false} ToppingsOrder(s: seq<string>)
    ensures TotalPreorder(J.TextLe) && TiesAreEqual(s, J.TextLe)
  {
    forall a: string, b: string ensures J.TextLe(a, b) || J.TextLe(b, a) {
      J.TextLeTotal(a, b);
    }
    forall a: string, b: string, c: string | J.TextLe(a, b) && J.TextLe(b, c) ensures J.TextLe(a, c) {
      J.TextLeTrans(a, b, c);
    }
    forall a, b | a in s && b in s && Tied(J.TextLe, a, b) ensures a == b {
      J.TextLeTotal(a, b);
    }
  }

  lemma {:induction false} ToppingsSortAlike(a: seq<string>, b: seq<string>)
    ensures Sort(a, J.TextLe) == Sort(b, J.TextLe) <==> multiset(a) == multiset(b)
    ensures multiset(Sort(a, J.TextLe)) == multiset(a)
  {
    ToppingsOrder(a);
    SortPermutes(a, J.TextLe);
    SortPermutes(b, J.TextLe);
    if multiset(a) == multiset(b) {
      PermutationsSortAlike(a, b, J.TextLe);
    }
  }

  /** Sorting the toppings forgets their order and nothing else. */
  lemma {:induction false} NormalIffSameLine(a: CartItem, b: CartItem)
    ensures Normal(a) == Normal(b) <==> LineOf(a) == LineOf(b)
  {
    ToppingsSortAlike(a.toppings, b.toppings);
  }

  /** If f tells apart whatever g does, f-images being a permutation makes the g-images one. */
  lemma {:induction false} PermutationCarriesOver<A, B, C>(x: seq<A>, y: seq<A>, f: A -> B, g: A -> C)
    requires forall i, j | 0 <= i < |x| && 0 <= j < |y| :: f(x[i]) == f(y[j]) ==> g(x[i]) == g(y[j])
    requires multiset(Mapped(x, f)) == multiset(Mapped(y, f))
    ensures multiset(Mapped(x, g)) == multiset(Mapped(y, g))
    decreases |x|
  {
    if x == [] {
      assert |multiset(Mapped(y, f))| == 0;
    } else {
      var n := |x| - 1;
      assert Mapped(x, f)[n] in multiset(Mapped(y, f));
      var j :| 0 <= j < |y| && Mapped(y, f)[j] == f(x[n]);
      var rest := y[..j] + y[j + 1..];
      assert x[..n] + x[n + 1..] == x[..n];
      WithoutOne(x, n, f);
      WithoutOne(y, j, f);
      WithoutOne(x, n, g);
      WithoutOne(y, j, g);
      assert multiset(Mapped(x[..n], f)) == multiset(Mapped(x, f)) - multiset{f(x[n])};
      assert multiset(Mapped(rest, f)) == multiset(Mapped(y, f)) - multiset{f(y[j])};
      PermutationCarriesOver(x[..n], rest, f, g);
    }
  }

  lemma {:induction false} WithoutOne<A, B>(s: seq<A>, j: nat, f: A -> B)
    requires j < |s|
    ensures multiset(Mapped(s, f)) == multiset(Mapped(s[..j] + s[j + 1..], f)) + multiset{f(s[j])}
  {
    var m := Mapped(s, f);
    assert m == m[..j] + [f(s[j])] + m[j + 1..];
    assert Mapped(s[..j] + s[j + 1..], f) == m[..j] + m[j + 1..];
  }

  lemma {:induction false} SameLinesIffSameNormals(x: seq<CartItem>, y: seq<CartItem>)
    ensures multiset(Mapped(x, LineOf)) == multiset(Mapped(y, LineOf)) <==>
              multiset(Normalized(x)) == multiset(Normalized(y))
  {
    forall i, j | 0 <= i < |x| && 0 <= j < |y| ensures LineOf(x[i]) == LineOf(y[j]) <==> Normal(x[i]) == Normal(y[j]) {
      NormalIffSameLine(x[i], y[j]);
    }
    if multiset(Mapped(x, LineOf)) == multiset(Mapped(y, LineOf)) {
      PermutationCarriesOver(x, y, LineOf, Normal);
    }
    if multiset(Normalized(x)) == multiset(Normalized(y)) {
      PermutationCarriesOver(x, y, Normal, LineOf);
    }
  }

  /** Equal projections come from the same request, whatever the collation. */
  lemma {:induction false} EqualProjectionsMeanSameRequest(
      collate: Collate, fold: string -> string, r: Request, s: Request)
    requires Project(collate, fold, r) == Project(collate, fold, s)
    ensures SameRequest(fold, r, s)
  {
    SortPermutes(Normalized(r.items), ItemLe(collate));
    SortPermutes(Normalized(s.items), ItemLe(collate));
    SameLinesIffSameNormals(r.items, s.items);
  }

  ghost predicate OrderIsForgotten(collate: Collate, fold: string -> string, r: Request) {
    forall s | SameRequest(fold, r, s) :: Project(collate, fold, s) == Project(collate, fold, r)
  }

  /**
   * The projection of a request is independent of how its items and toppings are ordered
   * exactly when items the comparator ties are equal: two lines of one product that differ
   * only in quantity already give it away.
   */
  lemma {:induction false} OrderIsForgottenIff(collate: Collate, fold: string -> string, r: Request)
    requires Collation(collate)
    ensures OrderIsForgotten(collate, fold, r) <==> TiesAreEqual(Normalized(r.items), ItemLe(collate))
  {
    ItemLeIsTotal(collate);
    var n := Normalized(r.items);
    OrderDoesNotMatterIff(n, ItemLe(collate));
    if TiesAreEqual(n, ItemLe(collate)) {
      forall s | SameRequest(fold, r, s) ensures Project(collate, fold, s) == Project(collate, fold, r) {
        SameLinesIffSameNormals(r.items, s.items);
        assert Sort(Normalized(s.items), ItemLe(collate)) == Sort(n, ItemLe(collate));
      }
    } else {
      var t :| multiset(t) == multiset(n) && Sort(t, ItemLe(collate)) != Sort(n, ItemLe(collate));
      var s := r.(items := t);
      PermutedNormalsStay(n, t, r.items);
      SameLinesIffSameNormals(r.items, t);
      assert SameRequest(fold, r, s) && Project(collate, fold, s) != Project(collate, fold, r);
    }
  }

  // ---- when the order of items shows, in the cart's own terms ----

  /** Catalogue ids: not empty, and without the separator. */
  predicate PlainIds(ids: seq<string>) { forall id | id in ids :: id != "" && ',' !in id }

  lemma {:induction false} CommaSplits(a: string, x: string, b: string, y: string)
    requires ',' !in a && ',' !in b && a + "," + x == b + "," + y
    ensures a == b && x == y
  {
    var s := a + "," + x;
    assert s[|a|] == ',' && s[|b|] == ',';
    assert forall k | 0 <= k < |a| :: s[k] == a[k] && a[k] != ',';
    assert forall k | 0 <= k < |b| :: s[k] == b[k] && b[k] != ',';
    assert s[..|a|] == a && s[..|b|] == b && s[|a| + 1..] == x && s[|b| + 1..] == y;
  }

  lemma {:induction false} JoinTellsIdsApart(a: seq<string>, b: seq<string>)
    requires PlainIds(a) && PlainIds(b) && Join(a) == Join(b)
    ensures a == b
    decreases |a|
  {
    if |a| >= 2 && |b| >= 2 {
      assert Join(a) == a[0] + "," + Join(a[1..]) && Join(b) == b[0] + "," + Join(b[1..]);
      assert a[0] in a && b[0] in b;
      assert PlainIds(a[1..]) && PlainIds(b[1..]);
      CommaSplits(a[0], Join(a[1..]), b[0], Join(b[1..]));
      JoinTellsIdsApart(a[1..], b[1..]);
      assert a == [a[0]] + a[1..] && b == [b[0]] + b[1..];
    } else if |a| >= 2 {
      JoinedHasComma(a, b);
    } else if |b| >= 2 {
      JoinedHasComma(b, a);
    } else {
      assert |a| == 1 ==> Join(a) == a[0] && a[0] in a;
      assert |b| == 1 ==> Join(b) == b[0] && b[0] in b;
      if |a| == 1 && |b| == 1 {
        assert a == [a[0]] && b == [b[0]];
      }
    }
  }

  lemma {:induction false} JoinedHasComma(a: seq<string>, b: seq<string>)
    requires |a| >= 2 && |b| <= 1 && PlainIds(b)
    ensures Join(a) != Join(b)
  {
    var s := a[0] + "," + Join(a[1..]);
    assert s[|a[0]|] == ',' && ',' in s;
    assert |b| == 1 ==> b[0] in b;
  }

  /**
   * Spicy levels are not negative and nobody notes the word null, so the comparator's
   * stand-ins stand for nothing else.
   */
  predicate PlainItem(item: CartItem) {
    PlainIds(item.toppings) && item.spicyLevel.GetOr(0) >= 0 && item.notes != Some("null")
  }

  ghost predicate TellsApart(collate: Collate) { forall a, b :: collate(a, b) == 0 ==> a == b }

  /** The same product, toppings, level and notes: lines a shop would call the same but for their quantity. */
  predicate SameButQty(a: CartItem, b: CartItem) {
    a.product == b.product && multiset(a.toppings) == multiset(b.toppings) && a.spicyLevel == b.spicyLevel
      && a.notes == b.notes
  }

  lemma {:induction false} TiedIffSameButQty(collate: Collate, a: CartItem, b: CartItem)
    requires Collation(collate) && TellsApart(collate) && PlainItem(a) && PlainItem(b)
    ensures Tied(ItemLe(collate), Normal(a), Normal(b)) <==> SameButQty(a, b)
  {
    var x, y := Normal(a), Normal(b);
    ToppingsSortAlike(a.toppings, b.toppings);
    SortedIdsArePlain(a.toppings);
    SortedIdsArePlain(b.toppings);
    SelfTie(collate, a.product);
    SelfTie(collate, Join(x.toppings));
    SelfTie(collate, a.notes.GetOr("null"));
    if Tied(ItemLe(collate), x, y) {
      TiedIsZero(collate, x.product, y.product);
      TiedIsZero(collate, Join(x.toppings), Join(y.toppings));
      TiedIsZero(collate, x.notes.GetOr("null"), y.notes.GetOr("null"));
      JoinTellsIdsApart(x.toppings, y.toppings);
    }
  }

  lemma {:induction false} SortedIdsArePlain(ids: seq<string>)
    requires PlainIds(ids)
    ensures PlainIds(Sort(ids, J.TextLe))
  {
    SortPermutes(ids, J.TextLe);
    forall id | id in Sort(ids, J.TextLe) ensures id in ids {
      assert id in multiset(Sort(ids, J.TextLe));
    }
  }

  lemma {:induction false} TiedIsZero(collate: Collate, a: string, b: string)
    requires Collation(collate)
    ensures collate(a, b) <= 0 && collate(b, a) <= 0 ==> collate(a, b) == 0
    ensures collate(a, b) == 0 <==> collate(b, a) == 0
  {
    assert collate(a, b) < 0 <==> collate(b, a) > 0;
    assert collate(b, a) < 0 <==> collate(a, b) > 0;
  }

  /** No two lines of the cart are the same but for their quantity. */
  predicate NoSplitLines(items: seq<CartItem>) {
    forall i, j | 0 <= i < |items| && 0 <= j < |items| && SameButQty(items[i], items[j]) :: items[i].qty == items[j].qty
  }

  /** For plain carts: the order of items and toppings is forgotten exactly when no line is split. */
  lemma {:induction false} OrderIsForgottenIffNotSplit(collate: Collate, fold: string -> string, r: Request)
    requires Collation(collate) && TellsApart(collate) && forall i | 0 <= i < |r.items| :: PlainItem(r.items[i])
    ensures OrderIsForgotten(collate, fold, r) <==> NoSplitLines(r.items)
  {
    OrderIsForgottenIff(collate, fold, r);
    var n := Normalized(r.items);
    forall i, j | 0 <= i < |n| && 0 <= j < |n|
      ensures Tied(ItemLe(collate), n[i], n[j]) <==> SameButQty(r.items[i], r.items[j])
      ensures SameButQty(r.items[i], r.items[j]) ==> (n[i] == n[j] <==> r.items[i].qty == r.items[j].qty)
    {
      TiedIffSameButQty(collate, r.items[i], r.items[j]);
      ToppingsSortAlike(r.items[i].toppings, r.items[j].toppings);
    }
    if TiesAreEqual(n, ItemLe(collate)) {
      forall i, j | 0 <= i < |n| && 0 <= j < |n| && SameButQty(r.items[i], r.items[j])
        ensures r.items[i].qty == r.items[j].qty
      {
        assert n[i] in n && n[j] in n;
      }
    }
    if NoSplitLines(r.items) {
      forall x, y | x in n && y in n && Tied(ItemLe(collate), x, y) ensures x == y {
        var i :| 0 <= i < |n| && n[i] == x;
        var j :| 0 <= j < |n| && n[j] == y;
      }
    }
  }

  /** Items whose toppings are sorted already are their own normal form. */
  lemma {:induction false} PermutedNormalsStay(n: seq<CartItem>, t: seq<CartItem>, items: seq<CartItem>)
    requires n == Normalized(items) && multiset(t) == multiset(n)
    ensures Normalized(t) == t
  {
    forall i | 0 <= i < |t| ensures Normal(t[i]) == t[i] {
      assert t[i] in multiset(n);
      var j :| 0 <= j < |n| && n[j] == t[i];
      ToppingsSortAlike(items[j].toppings, t[i].toppings);
    }
  }

  /** One product ordered in two lines of different quantity: swapping the lines changes the fingerprint input. */
  lemma {:induction false} SplitLinesBetrayOrder(collate: Collate, fold: string -> string)
    returns (r: Request, s: Request)
    requires Collation(collate)
    ensures SameRequest(fold, r, s) && Project(collate, fold, r) != Project(collate, fold, s)
  {
    var x, y := CartItem("p", 1, None, None, []), CartItem("p", 2, None, None, []);
    r := Request("u", "POST", "/orders", "a", "c", None, "COD", [x, y]);
    s := r.(items := [y, x]);
    PlainPairIsNormal(x, y);
    PlainPairIsNormal(y, x);
    assert multiset([x, y]) == multiset([y, x]);
    SameLinesIffSameNormals([x, y], [y, x]);
    SplitLinesTie(collate, x, y);
  }

  lemma {:induction false} PlainPairIsNormal(x: CartItem, y: CartItem)
    requires x.toppings == [] && y.toppings == []
    ensures Normalized([x, y]) == [x, y]
  {
    assert Normal(x) == x && Normal(y) == y;
  }

  lemma {:induction false} SplitLinesTie(collate: Collate, x: CartItem, y: CartItem)
    requires Collation(collate) && x != y && x == y.(qty := x.qty)
    ensures Sort([x, y], ItemLe(collate)) != Sort([y, x], ItemLe(collate))
  {
    ItemLeIsTotal(collate);
    SelfTie(collate, x.product);
    SelfTie(collate, Join(x.toppings));
    SelfTie(collate, x.notes.GetOr("null"));
    TiedPairBetraysOrder(x, y, [], ItemLe(collate));
    assert [x, y] + [] == [x, y] && [y, x] + [] == [y, x];
  }

  lemma {:induction false} SelfTie(collate: Collate, a: string)
    requires Collation(collate)
    ensures collate(a, a) == 0
  {
    assert collate(a, a) < 0 <==> collate(a, a) > 0;
  }

  // ---- the tree that is hashed ----

  function TextOr(s: Option<string>): J.Json { if s.Some? then J.Text(s.value) else J.Null }

  function NumberOr(n: Option<int>): J.Json { if n.Some? then J.Number(n.value as real) else J.Null }

  function ToText(s: string): J.Json { J.Text(s) }

  function ItemToJson(item: CartItem): J.Json {
    J.Obj([J.Field("product_id", J.Text(item.product)), J.Field("qty", J.Number(item.qty as real)),
           J.Field("spicyLevel", NumberOr(item.spicyLevel)), J.Field("notes", TextOr(item.notes)),
           J.Field("topping_ids", J.Arr(Mapped(item.toppings, ToText)))])
  }

  function BodyToJson(p: Projection): J.Json {
    J.Obj([J.Field("address_id", J.Text(p.address)), J.Field("courier", J.Text(p.courier)),
           J.Field("voucher_code", TextOr(p.voucher)), J.Field("items", J.Arr(Mapped(p.items, ItemToJson)))])
  }

  function ToJson(p: Projection): J.Json {
    J.Obj([J.Field("userId", J.Text(p.user)), J.Field("method", J.Text(p.verb)),
           J.Field("endpoint", J.Text(p.endpoint)), J.Field("body", BodyToJson(p))])
  }

  lemma {:induction false} ItemKeysAreDistinct(item: CartItem)
    ensures J.DistinctKeys(ItemToJson(item))
  {
    assert "product_id"[0] != "spicyLevel"[0];
    forall i | 0 <= i < |item.toppings| ensures J.DistinctKeys(Mapped(item.toppings, ToText)[i]) {}
  }

  lemma {:induction false} KeysAreDistinct(p: Projection)
    ensures J.DistinctKeys(ToJson(p)) && J.DistinctKeys(BodyToJson(p))
  {
    assert "userId"[0] != "method"[0];
    forall i | 0 <= i < |p.items| ensures J.DistinctKeys(Mapped(p.items, ItemToJson)[i]) {
      ItemKeysAreDistinct(p.items[i]);
    }
  }

  lemma {:induction false} SameToppingsAreEqual(a: seq<string>, b: seq<string>)
    requires J.Same(J.Arr(Mapped(a, ToText)), J.Arr(Mapped(b, ToText)))
    ensures a == b
  {
    forall i | 0 <= i < |a| ensures a[i] == b[i] {
      assert J.Same(Mapped(a, ToText)[i], Mapped(b, ToText)[i]);
    }
  }

  lemma {:induction false} SameItemsAreEqual(a: CartItem, b: CartItem)
    requires J.Same(ItemToJson(a), ItemToJson(b))
    ensures a == b
  {
    ItemKeysAreDistinct(b);
    var x, y := ItemToJson(a).fields, ItemToJson(b).fields;
    J.SameByPosition(x, y, 0);
    J.SameByPosition(x, y, 1);
    J.SameByPosition(x, y, 2);
    J.SameByPosition(x, y, 3);
    J.SameByPosition(x, y, 4);
    SameToppingsAreEqual(a.toppings, b.toppings);
  }

  lemma {:induction false} SameBodiesAreEqual(p: Projection, q: Projection)
    requires J.Same(BodyToJson(p), BodyToJson(q))
    ensures p.address == q.address && p.courier == q.courier && p.voucher == q.voucher && p.items == q.items
  {
    KeysAreDistinct(q);
    var x, y := BodyToJson(p).fields, BodyToJson(q).fields;
    J.SameByPosition(x, y, 0);
    J.SameByPosition(x, y, 1);
    J.SameByPosition(x, y, 2);
    J.SameByPosition(x, y, 3);
    forall i | 0 <= i < |p.items| ensures p.items[i] == q.items[i] {
      assert J.Same(Mapped(p.items, ItemToJson)[i], Mapped(q.items, ItemToJson)[i]);
      SameItemsAreEqual(p.items[i], q.items[i]);
    }
  }

  /** Building the object and sorting its keys loses nothing of a projection. */
  lemma {:induction false} HashedTreeIsTheProjection(p: Projection, q: Projection)
    ensures J.SortKeys(ToJson(p)) == J.SortKeys(ToJson(q)) <==> p == q
  {
    if J.SortKeys(ToJson(p)) == J.SortKeys(ToJson(q)) {
      J.AlikeSortedIsSame(ToJson(p), ToJson(q));
      KeysAreDistinct(q);
      var x, y := ToJson(p).fields, ToJson(q).fields;
      J.SameByPosition(x, y, 0);
      J.SameByPosition(x, y, 1);
      J.SameByPosition(x, y, 2);
      J.SameByPosition(x, y, 3);
      SameBodiesAreEqual(p, q);
    }
  }

  /** From the hashed tree back to the request: equal trees mean the same request. */
  lemma {:induction false} EqualTreesMeanSameRequest(collate: Collate, fold: string -> string, r: Request, s: Request)
    requires J.SortKeys(ToJson(Project(collate, fold, r))) == J.SortKeys(ToJson(Project(collate, fold, s)))
    ensures SameRequest(fold, r, s)
  {
    HashedTreeIsTheProjection(Project(collate, fold, r), Project(collate, fold, s));
    EqualProjectionsMeanSameRequest(collate, fold, r, s);
  }
}

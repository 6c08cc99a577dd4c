/** Key-sorted JSON: what the fingerprint hash is computed from. */
module CanonicalJson {
  import opened Sorting

  /** Objects keep their properties in insertion order. */
  datatype Json =
    | Null | Bool(b: bool) | Number(n: real) | Text(s: string)
    | Arr(items: seq<Json>)
    | Obj(fields: seq<Field>)
  datatype Field = Field(key: string, value: Json)

  /** Code-unit order, as Array.prototype.sort compares strings. */
  predicate TextLe(a: string, b: string) {
    a == "" || (b != "" && (a[0] < b[0] || (a[0] == b[0] && TextLe(a[1..], b[1..]))))
  }

  predicate KeyLe(a: Field, b: Field) { TextLe(a.key, b.key) }

  function SortKeys(v: Json): Json
    decreases v
  {
    match v
    case Arr(items) => Arr(seq(|items|, i requires 0 <= i < |items| => SortKeys(items[i])))
    case Obj(fields) => Obj(Sort(SortedValues(fields), KeyLe))
    case _ => v
  }

  function SortedValues(fields: seq<Field>): (r: seq<Field>)
    ensures |r| == |fields|
    ensures forall i | 0 <= i < |fields| :: r[i] == Field(fields[i].key, SortKeys(fields[i].value))
    decreases fields
  {
    seq(|fields|, i requires 0 <= i < |fields| => Field(fields[i].key, SortKeys(fields[i].value)))
  }

  /** No object has a key twice, at any depth. */
  ghost predicate DistinctKeys(v: Json)
    decreases v
  {
    match v
    case Arr(items) => forall i | 0 <= i < |items| :: DistinctKeys(items[i])
    case Obj(fields) =>
      && (forall i, j | 0 <= i < j < |fields| :: fields[i].key != fields[j].key)
      && (forall i | 0 <= i < |fields| :: DistinctKeys(fields[i].value))
    case _ => true
  }

  /** Equal up to the order of object keys, at every depth. Arrays keep their order. */
  ghost predicate Same(a: Json, b: Json)
    decreases a
  {
    match a
    case Arr(items) => b.Arr? && |items| == |b.items| && forall i | 0 <= i < |items| :: Same(items[i], b.items[i])
    case Obj(fields) =>
      b.Obj? && |fields| == |b.fields| && forall i | 0 <= i < |fields| :: FoundIn(fields[i], b.fields)
    case _ => a == b
  }

  /** One of the fields has the same key and the same value. */
  ghost predicate FoundIn(f: Field, fields: seq<Field>)
    decreases f
  {
    exists j | 0 <= j < |fields| :: f.key == fields[j].key && Same(f.value, fields[j].value)
  }

  lemma {:induction false} TextLeTotal(a: string, b: string)
    ensures TextLe(a, b) || TextLe(b, a)
    ensures TextLe(a, b) && TextLe(b, a) ==> a == b
    decreases |a|
  {
    if a != "" && b != "" {
      TextLeTotal(a[1..], b[1..]);
      if a[0] == b[0] {
        assert a == [a[0]] + a[1..] && b == [b[0]] + b[1..];
      }
    }
  }

  lemma {:induction false} TextLeTrans(a: string, b: string, c: string)
    requires TextLe(a, b) && TextLe(b, c)
    ensures TextLe(a, c)
    decreases |a|
  {
    if a != "" && a[0] == b[0] == c[0] {
      TextLeTrans(a[1..], b[1..], c[1..]);
    }
  }

  lemma {:induction false} KeyLeIsTotal()
    ensures TotalPreorder(KeyLe)
  {
    forall a: Field, b: Field ensures KeyLe(a, b) || KeyLe(b, a) {
      TextLeTotal(a.key, b.key);
    }
    forall a: Field, b: Field, c: Field | KeyLe(a, b) && KeyLe(b, c) ensures KeyLe(a, c) {
      TextLeTrans(a.key, b.key, c.key);
    }
  }

  lemma {:induction false} DistinctFieldsHaveNoTies(fields: seq<Field>)
    requires forall i, j | 0 <= i < j < |fields| :: fields[i].key != fields[j].key
    ensures TiesAreEqual(fields, KeyLe)
  {
    forall x, y | x in fields && y in fields && Tied(KeyLe, x, y) ensures x == y {
      TextLeTotal(x.key, y.key);
      var i :| 0 <= i < |fields| && fields[i] == x;
      var j :| 0 <= j < |fields| && fields[j] == y;
    }
  }

  /** Distinct elements, all found in an equally long sequence: a permutation. */
  lemma {:induction false} SubsetIsPermutation(a: seq<Field>, b: seq<Field>)
    requires |a| == |b|
    requires forall i, j | 0 <= i < j < |a| :: a[i] != a[j]
    requires forall x | x in a :: x in b
    ensures multiset(a) == multiset(b)
    decreases |a|
  {
    if a != [] {
      var n := |a| - 1;
      var x := a[n];
      assert x in b;
      var j :| 0 <= j < |b| && b[j] == x;
      var rest := b[..j] + b[j + 1..];
      assert a == a[..n] + [x] && b == b[..j] + [x] + b[j + 1..];
      forall y | y in a[..n] ensures y in rest {
        var i :| 0 <= i < n && a[i] == y;
        assert y in a && y in b && y != x;
      }
      SubsetIsPermutation(a[..n], rest);
    }
  }

  lemma {:induction false} SameSortsAlike(a: Json, b: Json)
    requires DistinctKeys(a) && DistinctKeys(b) && Same(a, b)
    ensures SortKeys(a) == SortKeys(b)
    decreases a
  {
    match a
    case Arr(items) =>
      forall i | 0 <= i < |items| ensures SortKeys(items[i]) == SortKeys(b.items[i]) {
        SameSortsAlike(items[i], b.items[i]);
      }
    case Obj(fields) =>
      var x, y := SortedValues(fields), SortedValues(b.fields);
      forall f | f in x ensures f in y {
        var i :| 0 <= i < |x| && x[i] == f;
        assert FoundIn(fields[i], b.fields);
        var j :| 0 <= j < |b.fields| && fields[i].key == b.fields[j].key && Same(fields[i].value, b.fields[j].value);
        SameSortsAlike(fields[i].value, b.fields[j].value);
        assert y[j] == f;
      }
      SubsetIsPermutation(x, y);
      DistinctFieldsHaveNoTies(x);
      KeyLeIsTotal();
      PermutationsSortAlike(x, y, KeyLe);
    case _ =>
  }

  lemma {:induction false} FindInOther(x: seq<Field>, y: seq<Field>, i: nat) returns (j: nat)
    requires i < |x| && multiset(x) == multiset(y)
    ensures j < |y| && y[j] == x[i]
  {
    assert x[i] in multiset(y);
    j :| 0 <= j < |y| && y[j] == x[i];
  }

  lemma {:induction false} AlikeSortedIsSame(a: Json, b: Json)
    requires SortKeys(a) == SortKeys(b)
    ensures Same(a, b)
    decreases a, 1
  {
    match a
    case Arr(items) =>
      assert b.Arr? && |b.items| == |SortKeys(b).items|;
      forall i | 0 <= i < |items| ensures Same(items[i], b.items[i]) {
        assert SortKeys(a).items[i] == SortKeys(b).items[i];
        AlikeSortedIsSame(items[i], b.items[i]);
      }
    case Obj(fields) =>
      AlikeSortedFields(a, b);
    case _ =>
  }

  lemma {:induction false} AlikeSortedFields(a: Json, b: Json)
    requires a.Obj? && b.Obj? && SortKeys(a) == SortKeys(b)
    ensures Same(a, b)
    decreases a, 0
  {
    var x, y := SortedValues(a.fields), SortedValues(b.fields);
    SortPermutes(x, KeyLe);
    SortPermutes(y, KeyLe);
    forall i | 0 <= i < |a.fields| ensures FoundIn(a.fields[i], b.fields) {
      var j := FindInOther(x, y, i);
      AlikeSortedIsSame(a.fields[i].value, b.fields[j].value);
    }
  }

  /** Objects with the same keys in the same places agree place by place. */
  lemma {:induction false} SameByPosition(x: seq<Field>, y: seq<Field>, i: nat)
    requires Same(Obj(x), Obj(y)) && DistinctKeys(Obj(y)) && i < |x| && x[i].key == y[i].key
    ensures Same(x[i].value, y[i].value)
  {
    assert FoundIn(x[i], y);
    var j :| 0 <= j < |y| && x[i].key == y[j].key && Same(x[i].value, y[j].value);
  }

  /** Two values hash the same tree exactly when they agree up to object-key order at every depth. */
  lemma {:induction false} SortKeysIsCanonical(a: Json, b: Json)
    requires DistinctKeys(a) && DistinctKeys(b)
    ensures SortKeys(a) == SortKeys(b) <==> Same(a, b)
  {
    if Same(a, b) {
      SameSortsAlike(a, b);
    }
    if SortKeys(a) == SortKeys(b) {
      AlikeSortedIsSame(a, b);
    }
  }

  /** At the first place where they differ, the smaller code unit comes first; a proper prefix comes before. */
  lemma {:induction false} TextLeIff(a: string, b: string)
    ensures TextLe(a, b) <==> a <= b || exists k :: 0 <= k < |a| && k < |b| && a[..k] == b[..k] && a[k] < b[k]
    decreases |a|
  {
    if a != "" && b != "" && a[0] == b[0] {
      TextLeIff(a[1..], b[1..]);
      assert a <= b <==> a[1..] <= b[1..];
      if j :| 0 <= j < |a[1..]| && j < |b[1..]| && a[1..][..j] == b[1..][..j] && a[1..][j] < b[1..][j] {
        assert a[..j + 1] == [a[0]] + a[1..][..j] && b[..j + 1] == [b[0]] + b[1..][..j];
        assert a[j + 1] < b[j + 1];
      }
      if k :| 0 <= k < |a| && k < |b| && a[..k] == b[..k] && a[k] < b[k] {
        assert k > 0 && a[1..][..k - 1] == a[..k][1..] && b[1..][..k - 1] == b[..k][1..];
        assert a[1..][k - 1] < b[1..][k - 1];
      }
    } else if a != "" && b != "" {
      assert a[0] < b[0] ==> a[..0] == b[..0];
    }
  }

  /** A sorted tree's keys ascend at every object. */
  lemma {:induction false} SortedKeysAscend(fields: seq<Field>, i: nat, j: nat)
    requires i < j < |SortKeys(Obj(fields)).fields|
    ensures var sorted := SortKeys(Obj(fields)).fields; TextLe(sorted[i].key, sorted[j].key)
  {
    KeyLeIsTotal();
    SortSorts(SortedValues(fields), KeyLe);
  }

  /** Sorting keeps the value, keeps its keys distinct ... */
  lemma {:induction false} SortKeysKeepsValue(a: Json)
    requires DistinctKeys(a)
    ensures DistinctKeys(SortKeys(a)) && Same(SortKeys(a), a)
    decreases a
  {
    match a
    case Arr(items) =>
      forall i | 0 <= i < |items| ensures DistinctKeys(SortKeys(a).items[i]) && Same(SortKeys(a).items[i], items[i]) {
        SortKeysKeepsValue(items[i]);
      }
    case Obj(fields) =>
      forall i | 0 <= i < |fields| ensures KeepsValue(fields[i].value) {
        SortKeysKeepsValue(fields[i].value);
      }
      SortedFieldsKeepValues(fields);
    case _ =>
  }

  ghost predicate KeepsValue(a: Json) { DistinctKeys(SortKeys(a)) && Same(SortKeys(a), a) }

  lemma {:induction false} SortedFieldsKeepValues(fields: seq<Field>)
    requires DistinctKeys(Obj(fields)) && forall i | 0 <= i < |fields| :: KeepsValue(fields[i].value)
    ensures KeepsValue(Obj(fields))
  {
    var x := SortedValues(fields);
    var sorted := Sort(x, KeyLe);
    SortPermutes(x, KeyLe);
    forall i | 0 <= i < |sorted| ensures DistinctKeys(sorted[i].value) && FoundIn(sorted[i], fields) {
      var j := FindInOther(sorted, x, i);
      assert KeepsValue(fields[j].value);
    }
    forall i, j | 0 <= i < j < |sorted| ensures sorted[i].key != sorted[j].key {
      PermutationKeepsKeysDistinct(x, sorted, i, j);
    }
    assert SortKeys(Obj(fields)) == Obj(sorted);
  }

  lemma {:induction false} CountsAtMostOne(a: seq<Field>, f: Field)
    requires forall i, j | 0 <= i < j < |a| :: a[i] != a[j]
    ensures multiset(a)[f] <= 1
    decreases |a|
  {
    if a != [] {
      var n := |a| - 1;
      assert a == a[..n] + [a[n]];
      CountsAtMostOne(a[..n], f);
      assert a[n] !in a[..n];
    }
  }

  lemma {:induction false} RepeatCountsTwice(b: seq<Field>, i: nat, j: nat)
    requires i < j < |b|
    ensures b[i] == b[j] ==> 2 <= multiset(b)[b[i]]
  {
    assert b == b[..j] + [b[j]] + b[j + 1..];
    assert b[..j][i] == b[i];
  }

  lemma {:induction false} PermutationKeepsKeysDistinct(a: seq<Field>, b: seq<Field>, i: nat, j: nat)
    requires multiset(a) == multiset(b) && i < j < |b|
    requires forall k, m | 0 <= k < m < |a| :: a[k].key != a[m].key
    ensures b[i].key != b[j].key
  {
    var k := FindInOther(b, a, i);
    var m := FindInOther(b, a, j);
    CountsAtMostOne(a, b[i]);
    RepeatCountsTwice(b, i, j);
    assert b[i].key == b[j].key ==> k == m;
  }

  /** ... and sorting again changes nothing. */
  lemma {:induction false} SortKeysIsIdempotent(a: Json)
    requires DistinctKeys(a)
    ensures SortKeys(SortKeys(a)) == SortKeys(a)
  {
    SortKeysKeepsValue(a);
    SameSortsAlike(SortKeys(a), a);
  }
}

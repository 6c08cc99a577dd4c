/** A stable sort, when its result is canonical, and when it is not. */
module Sorting {
  ghost predicate TotalPreorder<T(!new)>(le: (T, T) -> bool) {
    && (forall a, b :: le(a, b) || le(b, a))
    && (forall a, b, c :: le(a, b) && le(b, c) ==> le(a, c))
  }

  predicate Tied<T>(le: (T, T) -> bool, a: T, b: T) { le(a, b) && le(b, a) }

  /** x goes after everything that is not greater, as in a stable sort. */
  function Insert<T>(s: seq<T>, x: T, le: (T, T) -> bool): seq<T> {
    if s == [] || le(s[|s| - 1], x) then s + [x] else Insert(s[..|s| - 1], x, le) + [s[|s| - 1]]
  }

  function Sort<T>(s: seq<T>, le: (T, T) -> bool): seq<T> {
    if s == [] then [] else Insert(Sort(s[..|s| - 1], le), s[|s| - 1], le)
  }

  ghost predicate Sorted<T>(s: seq<T>, le: (T, T) -> bool) {
    forall i, j | 0 <= i < j < |s| :: le(s[i], s[j])
  }

  lemma {:induction false} InsertPermutes<T>(s: seq<T>, x: T, le: (T, T) -> bool)
    ensures multiset(Insert(s, x, le)) == multiset(s) + multiset{x}
    decreases |s|
  {
    if s != [] && !le(s[|s| - 1], x) {
      InsertPermutes(s[..|s| - 1], x, le);
      assert s == s[..|s| - 1] + [s[|s| - 1]];
    }
  }

  lemma {:induction false} SortPermutes<T>(s: seq<T>, le: (T, T) -> bool)
    ensures multiset(Sort(s, le)) == multiset(s) && |Sort(s, le)| == |s|
    decreases |s|
  {
    if s != [] {
      SortPermutes(s[..|s| - 1], le);
      InsertPermutes(Sort(s[..|s| - 1], le), s[|s| - 1], le);
      assert s == s[..|s| - 1] + [s[|s| - 1]];
    }
    assert |multiset(Sort(s, le))| == |multiset(s)|;
  }

  lemma {:induction false} InsertSorts<T(!new)>(s: seq<T>, x: T, le: (T, T) -> bool)
    requires TotalPreorder(le) && Sorted(s, le)
    ensures Sorted(Insert(s, x, le), le)
    decreases |s|
  {
    if s != [] {
      var last := s[|s| - 1];
      if le(last, x) {
        forall i | 0 <= i < |s| ensures le(s[i], x) {
          assert i < |s| - 1 ==> le(s[i], last);
        }
      } else {
        var shorter := s[..|s| - 1];
        InsertSorts(shorter, x, le);
        InsertPermutes(shorter, x, le);
        forall y | y in Insert(shorter, x, le) ensures le(y, last) {
          assert y in multiset(Insert(shorter, x, le));
          if y != x {
            assert y in multiset(shorter);
          }
        }
      }
    }
  }

  lemma {:induction false} SortSorts<T(!new)>(s: seq<T>, le: (T, T) -> bool)
    requires TotalPreorder(le)
    ensures Sorted(Sort(s, le), le)
    decreases |s|
  {
    if s != [] {
      SortSorts(s[..|s| - 1], le);
      InsertSorts(Sort(s[..|s| - 1], le), s[|s| - 1], le);
    }
  }

  /** Elements the comparator cannot tell apart are equal. */
  ghost predicate TiesAreEqual<T>(s: seq<T>, le: (T, T) -> bool) {
    forall x, y | x in s && y in s && Tied(le, x, y) :: x == y
  }

  lemma {:induction false} WithoutLast<T>(a: seq<T>)
    requires a != []
    ensures multiset(a[..|a| - 1]) == multiset(a) - multiset{a[|a| - 1]}
  {
    assert a == a[..|a| - 1] + [a[|a| - 1]];
  }

  lemma {:induction false} SortedIsUnique<T(!new)>(a: seq<T>, b: seq<T>, le: (T, T) -> bool)
    requires TotalPreorder(le) && Sorted(a, le) && Sorted(b, le) && multiset(a) == multiset(b) && TiesAreEqual(a, le)
    ensures a == b
    decreases |a|
  {
    SameLength(a, b);
    if a != [] {
      SameLast(a, b, le);
      FrontsPermute(a, b);
      PrefixHasNoTies(a, le);
      PrefixIsSorted(a, le);
      PrefixIsSorted(b, le);
      SortedIsUnique(a[..|a| - 1], b[..|b| - 1], le);
      SameFrontAndLast(a, b);
    }
  }

  lemma {:induction false} SameLength<T>(a: seq<T>, b: seq<T>)
    requires multiset(a) == multiset(b)
    ensures |a| == |b|
  {
    assert |a| == |multiset(a)| == |multiset(b)| == |b|;
  }

  lemma {:induction false} FrontsPermute<T>(a: seq<T>, b: seq<T>)
    requires |a| == |b| > 0 && multiset(a) == multiset(b) && a[|a| - 1] == b[|b| - 1]
    ensures multiset(a[..|a| - 1]) == multiset(b[..|b| - 1])
  {
    WithoutLast(a);
    WithoutLast(b);
  }

  lemma {:induction false} SameFrontAndLast<T>(a: seq<T>, b: seq<T>)
    requires |a| == |b| > 0 && a[..|a| - 1] == b[..|b| - 1] && a[|a| - 1] == b[|b| - 1]
    ensures a == b
  {
    assert a == a[..|a| - 1] + [a[|a| - 1]] && b == b[..|b| - 1] + [b[|b| - 1]];
  }

  lemma {:induction false} PrefixIsSorted<T>(a: seq<T>, le: (T, T) -> bool)
    requires a != [] && Sorted(a, le)
    ensures Sorted(a[..|a| - 1], le)
  {
  }

  lemma {:induction false} PrefixHasNoTies<T>(a: seq<T>, le: (T, T) -> bool)
    requires a != [] && TiesAreEqual(a, le)
    ensures TiesAreEqual(a[..|a| - 1], le)
  {
    assert forall z | z in a[..|a| - 1] :: z in a;
  }

  lemma {:induction false} SameLast<T(!new)>(a: seq<T>, b: seq<T>, le: (T, T) -> bool)
    requires TotalPreorder(le) && Sorted(a, le) && Sorted(b, le) && TiesAreEqual(a, le)
    requires multiset(a) == multiset(b) && |a| == |b| > 0
    ensures a[|a| - 1] == b[|b| - 1]
  {
    LastIsGreatest(a, b, le);
    LastIsGreatest(b, a, le);
    var x, y := a[|a| - 1], b[|b| - 1];
    assert y in multiset(b) && y in multiset(a);
    assert x in a && y in a && Tied(le, x, y);
  }

  lemma {:induction false} LastIsGreatest<T(!new)>(a: seq<T>, b: seq<T>, le: (T, T) -> bool)
    requires TotalPreorder(le) && Sorted(b, le) && multiset(a) == multiset(b) && |a| == |b| > 0
    ensures le(a[|a| - 1], b[|b| - 1])
  {
    assert a[|a| - 1] in multiset(b);
    var j :| 0 <= j < |b| && b[j] == a[|a| - 1];
  }

  // ---- stability ----

  function Ties<T>(s: seq<T>, x: T, le: (T, T) -> bool): seq<T> {
    if s == [] then []
    else Ties(s[..|s| - 1], x, le) + if Tied(le, s[|s| - 1], x) then [s[|s| - 1]] else []
  }

  lemma {:induction false} InsertKeepsTies<T(!new)>(s: seq<T>, y: T, x: T, le: (T, T) -> bool)
    requires TotalPreorder(le)
    ensures Ties(Insert(s, y, le), x, le) == Ties(s, x, le) + if Tied(le, y, x) then [y] else []
    decreases |s|
  {
    if s == [] || le(s[|s| - 1], y) {
      assert (s + [y])[..|s|] == s;
    } else {
      var shorter := s[..|s| - 1];
      InsertKeepsTies(shorter, y, x, le);
      assert Insert(s, y, le)[..|Insert(shorter, y, le)|] == Insert(shorter, y, le);
    }
  }

  /** The sort is stable: tied elements keep their order. */
  lemma {:induction false} SortIsStable<T(!new)>(s: seq<T>, x: T, le: (T, T) -> bool)
    requires TotalPreorder(le)
    ensures Ties(Sort(s, le), x, le) == Ties(s, x, le)
    decreases |s|
  {
    if s != [] {
      SortIsStable(s[..|s| - 1], x, le);
      InsertKeepsTies(Sort(s[..|s| - 1], le), s[|s| - 1], x, le);
    }
  }

  lemma {:induction false} TiesOfConcat<T>(a: seq<T>, b: seq<T>, x: T, le: (T, T) -> bool)
    ensures Ties(a + b, x, le) == Ties(a, x, le) + Ties(b, x, le)
    decreases |b|
  {
    if b == [] {
      assert a + b == a;
    } else {
      TiesOfConcat(a, b[..|b| - 1], x, le);
      assert (a + b)[..|a + b| - 1] == a + b[..|b| - 1];
    }
  }

  ghost predicate OrderDoesNotMatter<T(!new)>(s: seq<T>, le: (T, T) -> bool) {
    forall t | multiset(t) == multiset(s) :: Sort(t, le) == Sort(s, le)
  }

  /** A stable sort forgets the original order exactly when tied elements are equal. */
  lemma {:induction false} OrderDoesNotMatterIff<T(!new)>(s: seq<T>, le: (T, T) -> bool)
    requires TotalPreorder(le)
    ensures OrderDoesNotMatter(s, le) <==> TiesAreEqual(s, le)
  {
    if TiesAreEqual(s, le) {
      forall t | multiset(t) == multiset(s) ensures Sort(t, le) == Sort(s, le) {
        PermutationsSortAlike(s, t, le);
      }
    } else {
      var x, y :| x in s && y in s && Tied(le, x, y) && x != y;
      var rest := TakeOut(s, x, y);
      assert multiset([x, y] + rest) == multiset(s) && multiset([y, x] + rest) == multiset(s);
      TiedPairBetraysOrder(x, y, rest, le);
    }
  }

  lemma {:induction false} TiedPairBetraysOrder<T(!new)>(x: T, y: T, rest: seq<T>, le: (T, T) -> bool)
    requires TotalPreorder(le) && Tied(le, x, y) && x != y
    ensures Sort([x, y] + rest, le) != Sort([y, x] + rest, le)
  {
    var front, back := [x, y] + rest, [y, x] + rest;
    SortIsStable(front, x, le);
    SortIsStable(back, x, le);
    TiesOfConcat([x, y], rest, x, le);
    TiesOfConcat([y, x], rest, x, le);
    TiesOfPair(x, y, x, le);
    TiesOfPair(y, x, x, le);
    assert Ties(front, x, le)[0] == x && Ties(back, x, le)[0] == y;
  }

  lemma {:induction false} TiesOfPair<T(!new)>(x: T, y: T, z: T, le: (T, T) -> bool)
    requires TotalPreorder(le) && Tied(le, x, z) && Tied(le, y, z)
    ensures Ties([x, y], z, le) == [x, y]
  {
    var one, two := [x], [x, y];
    assert one[..0] == [] && Ties(one, z, le) == one;
    assert two[..1] == one;
  }

  lemma {:induction false} PermutationsSortAlike<T(!new)>(s: seq<T>, t: seq<T>, le: (T, T) -> bool)
    requires TotalPreorder(le) && multiset(s) == multiset(t) && TiesAreEqual(s, le)
    ensures Sort(s, le) == Sort(t, le)
  {
    SortPermutes(s, le);
    SortPermutes(t, le);
    SortSorts(s, le);
    SortSorts(t, le);
    forall x, y | x in Sort(s, le) && y in Sort(s, le) && Tied(le, x, y) ensures x == y {
      assert x in multiset(Sort(s, le)) && y in multiset(Sort(s, le));
    }
    SortedIsUnique(Sort(s, le), Sort(t, le), le);
  }

  lemma {:induction false} TakeOut<T>(s: seq<T>, x: T, y: T) returns (rest: seq<T>)
    requires x in s && y in s && x != y
    ensures multiset(rest) + multiset{x} + multiset{y} == multiset(s)
  {
    var i :| 0 <= i < |s| && s[i] == x;
    var once := s[..i] + s[i + 1..];
    assert s == s[..i] + [x] + s[i + 1..];
    assert multiset(once) + multiset{x} == multiset(s);
    assert y in multiset(once);
    var j :| 0 <= j < |once| && once[j] == y;
    rest := once[..j] + once[j + 1..];
    assert once == once[..j] + [y] + once[j + 1..];
  }
}

/** Sorting by a strict total order: what the library's sort leaves is determined by the
    elements alone. */
module Sorting {
  import opened Lists

  predicate Ordered<T>(s: seq<T>, before: (T, T) -> bool) {
    forall i, j :: 0 <= i < j < |s| ==> before(s[i], s[j])
  }

  /** `before` never holds of an element and itself, is transitive, and decides every
      pair of different elements. */
  ghost predicate StrictTotal<T>(s: seq<T>, before: (T, T) -> bool) {
    && (forall a :: a in s ==> !before(a, a))
    && (forall a, b, c :: a in s && b in s && c in s && before(a, b) && before(b, c) ==> before(a, c))
    && (forall a, b :: a in s && b in s && a != b ==> before(a, b) || before(b, a))
  }

  function Insert<T>(x: T, s: seq<T>, before: (T, T) -> bool): (r: seq<T>) {
    if |s| == 0 || before(x, s[0]) then [x] + s else [s[0]] + Insert(x, s[1..], before)
  }

  function Sorted<T>(s: seq<T>, before: (T, T) -> bool): (r: seq<T>) {
    if |s| == 0 then [] else Insert(s[0], Sorted(s[1..], before), before)
  }

  lemma {:induction false} InsertPermutes<T>(x: T, s: seq<T>, before: (T, T) -> bool)
    ensures multiset(Insert(x, s, before)) == multiset(s) + multiset{x}
  {
    if |s| > 0 && !before(x, s[0]) {
      InsertPermutes(x, s[1..], before);
      assert s == [s[0]] + s[1..];
    }
  }

  lemma {:induction false} SortedPermutes<T>(s: seq<T>, before: (T, T) -> bool)
    ensures multiset(Sorted(s, before)) == multiset(s)
    ensures |Sorted(s, before)| == |s|
  {
    if |s| > 0 {
      SortedPermutes(s[1..], before);
      InsertPermutes(s[0], Sorted(s[1..], before), before);
      assert s == [s[0]] + s[1..];
    }
    assert |multiset(Sorted(s, before))| == |Sorted(s, before)|;
  }

  lemma {:induction false} SameElements<T>(a: seq<T>, b: seq<T>, x: T)
    requires multiset(a) == multiset(b)
    ensures x in a <==> x in b
  {
    assert x in a <==> x in multiset(a);
    assert x in b <==> x in multiset(b);
  }

  lemma {:induction false} InsertKeepsOrder<T>(x: T, s: seq<T>, all: seq<T>, before: (T, T) -> bool)
    requires StrictTotal(all, before) && Ordered(s, before)
    requires x in all && x !in s && forall y :: y in s ==> y in all
    ensures Ordered(Insert(x, s, before), before)
  {
    if |s| > 0 {
      if before(x, s[0]) {
        assert forall i :: 0 <= i < |s| ==> before(x, s[i]);
      } else {
        var rest := Insert(x, s[1..], before);
        InsertKeepsOrder(x, s[1..], all, before);
        InsertPermutes(x, s[1..], before);
        forall i | 0 <= i < |rest|
          ensures before(s[0], rest[i])
        {
          assert rest[i] in multiset(rest);
          assert rest[i] == x || rest[i] in s[1..];
        }
      }
    }
  }

  lemma {:induction false} SortedIsOrdered<T>(s: seq<T>, all: seq<T>, before: (T, T) -> bool)
    requires StrictTotal(all, before) && NoDuplicates(s) && forall y :: y in s ==> y in all
    ensures Ordered(Sorted(s, before), before)
  {
    if |s| > 0 {
      SortedIsOrdered(s[1..], all, before);
      SortedPermutes(s[1..], before);
      var rest := Sorted(s[1..], before);
      forall y | y in rest
        ensures y in all && y != s[0]
      {
        SameElements(rest, s[1..], y);
        assert y in s[1..];
      }
      InsertKeepsOrder(s[0], rest, all, before);
    }
  }

  lemma {:induction false} RestOfElements<T>(a: seq<T>)
    requires |a| > 0
    ensures multiset(a[1..]) == multiset(a) - multiset{a[0]}
  {
    assert a == [a[0]] + a[1..];
  }

  lemma {:induction false} SameLength<T>(a: seq<T>, b: seq<T>)
    requires multiset(a) == multiset(b)
    ensures |a| == |b|
  {
    assert |multiset(a)| == |a| && |multiset(b)| == |b|;
  }

  lemma {:induction false} FirstsAgree<T>(a: seq<T>, b: seq<T>, all: seq<T>, before: (T, T) -> bool)
    requires |a| > 0 && |b| > 0 && multiset(a) == multiset(b) && Ordered(a, before) && Ordered(b, before)
    requires StrictTotal(all, before) && forall y :: y in a ==> y in all
    ensures a[0] == b[0]
  {
    SameElements(a, b, a[0]);
    SameElements(a, b, b[0]);
    var i :| 0 <= i < |b| && b[i] == a[0];
    var j :| 0 <= j < |a| && a[j] == b[0];
    assert a[0] in all && b[0] in all;
  }

  /** Two ordered arrangements of the same elements are the same. */
  lemma {:induction false} OrderedIsUnique<T>(a: seq<T>, b: seq<T>, all: seq<T>, before: (T, T) -> bool)
    requires multiset(a) == multiset(b) && Ordered(a, before) && Ordered(b, before)
    requires StrictTotal(all, before) && forall y :: y in a ==> y in all
    ensures a == b
    decreases |a|
  {
    SameLength(a, b);
    if |a| > 0 {
      FirstsAgree(a, b, all, before);
      RestOfElements(a);
      RestOfElements(b);
      OrderedIsUnique(a[1..], b[1..], all, before);
      assert a == [a[0]] + a[1..] && b == [b[0]] + b[1..];
    }
  }

  lemma {:induction false} CountedOnce<T>(a: seq<T>, x: T)
    requires NoDuplicates(a)
    ensures multiset(a)[x] == if x in a then 1 else 0
    decreases |a|
  {
    if |a| > 0 {
      CountedOnce(a[1..], x);
      assert a == [a[0]] + a[1..];
      assert a[0] !in a[1..];
    }
  }

  /** Two ordered lists with the same members are the same. */
  lemma {:induction false} SameMembersSameList<T>(a: seq<T>, b: seq<T>, before: (T, T) -> bool)
    requires Ordered(a, before) && Ordered(b, before) && StrictTotal(a, before)
    requires forall x :: x in a <==> x in b
    ensures a == b
  {
    assert forall i :: 0 <= i < |b| ==> b[i] in b;
    forall x
      ensures multiset(a)[x] == multiset(b)[x]
    {
      CountedOnce(a, x);
      CountedOnce(b, x);
    }
    OrderedIsUnique(a, b, a, before);
  }

  // ---- The order of strings ----

  /** Strings are compared character by character; a prefix comes first. */
  predicate TextLess(a: string, b: string) {
    if |b| == 0 then false
    else if |a| == 0 then true
    else if a[0] != b[0] then a[0] < b[0]
    else TextLess(a[1..], b[1..])
  }

  lemma {:induction false} TextLessIrreflexive(a: string)
    ensures !TextLess(a, a)
  {
    if |a| > 0 {
      TextLessIrreflexive(a[1..]);
    }
  }

  lemma {:induction false} TextLessTransitive(a: string, b: string, c: string)
    requires TextLess(a, b) && TextLess(b, c)
    ensures TextLess(a, c)
  {
    if |a| > 0 && a[0] == b[0] == c[0] {
      TextLessTransitive(a[1..], b[1..], c[1..]);
    }
  }

  lemma {:induction false} TextLessTotal(a: string, b: string)
    ensures a == b || TextLess(a, b) || TextLess(b, a)
  {
    if |a| > 0 && |b| > 0 && a[0] == b[0] {
      TextLessTotal(a[1..], b[1..]);
      assert a == [a[0]] + a[1..] && b == [b[0]] + b[1..];
    }
  }

  /** One string is less than another exactly when it ends, or has the smaller character, at
      the first place where they differ. */
  lemma {:induction false} TextLessAtDifference(a: string, b: string, n: nat)
    requires n <= |a| && n <= |b| && a[..n] == b[..n]
    requires n == |a| || n == |b| || a[n] != b[n]
    ensures TextLess(a, b) <==> if n == |a| || n == |b| then |a| < |b| else a[n] < b[n]
    decreases n
  {
    if n > 0 {
      assert a[0] == a[..n][0] == b[..n][0] == b[0];
      assert a[1..][..n - 1] == a[..n][1..] == b[..n][1..] == b[1..][..n - 1];
      TextLessAtDifference(a[1..], b[1..], n - 1);
    }
  }
}

/** Sorting a finite collection by a key. The collections that the pipeline sorts come out of
    hash maps in no particular order, so what matters is that the sorted sequence is determined
    by the set of elements alone. */
module Ordering {

  ghost predicate TotalPreorder<T(!new)>(le: (T, T) -> bool) {
    && (forall a, b :: le(a, b) || le(b, a))
    && (forall a, b, c :: le(a, b) && le(b, c) ==> le(a, c))
  }

  ghost predicate Sorted<T>(xs: seq<T>, le: (T, T) -> bool) {
    forall i, j :: 0 <= i < j < |xs| ==> le(xs[i], xs[j])
  }

  ghost predicate StrictlySorted<T>(xs: seq<T>, le: (T, T) -> bool) {
    forall i, j :: 0 <= i < j < |xs| ==> le(xs[i], xs[j]) && !le(xs[j], xs[i])
  }

  ghost function Elements<T>(xs: seq<T>): set<T> {
    set x | x in xs
  }

  /** No two distinct elements share a key. */
  ghost predicate Separates<T>(s: set<T>, le: (T, T) -> bool) {
    forall a, b :: a in s && b in s && a != b ==> !(le(a, b) && le(b, a))
  }

  ghost predicate NoDuplicates<T>(xs: seq<T>) {
    forall i, j :: 0 <= i < j < |xs| ==> xs[i] != xs[j]
  }

  function Insert<T>(x: T, xs: seq<T>, le: (T, T) -> bool): seq<T> {
    if xs == [] then [x]
    else if le(x, xs[0]) then [x] + xs
    else [xs[0]] + Insert(x, xs[1..], le)
  }

  function Sort<T>(xs: seq<T>, le: (T, T) -> bool): seq<T> {
    if xs == [] then [] else Insert(xs[0], Sort(xs[1..], le), le)
  }

  lemma {:induction false} InsertKeepsElements<T>(x: T, xs: seq<T>, le: (T, T) -> bool)
    ensures multiset(Insert(x, xs, le)) == multiset{x} + multiset(xs)
  {
    if xs != [] {
      assert xs == [xs[0]] + xs[1..];
      InsertKeepsElements(x, xs[1..], le);
    }
  }

  lemma {:induction false} InsertKeepsSorted<T(!new)>(x: T, xs: seq<T>, le: (T, T) -> bool)
    requires TotalPreorder(le) && Sorted(xs, le)
    ensures Sorted(Insert(x, xs, le), le)
  {
    if xs != [] && !le(x, xs[0]) {
      InsertKeepsSorted(x, xs[1..], le);
      InsertKeepsElements(x, xs[1..], le);
      var rest := Insert(x, xs[1..], le);
      forall y | y in rest ensures le(xs[0], y) {
        assert y in multiset(rest);
        if y != x {
          assert y in xs[1..];
        }
      }
    }
  }

  /** Sorting returns the same elements, in order. */
  lemma {:induction false} SortSorts<T(!new)>(xs: seq<T>, le: (T, T) -> bool)
    requires TotalPreorder(le)
    ensures Sorted(Sort(xs, le), le) && multiset(Sort(xs, le)) == multiset(xs)
  {
    if xs != [] {
      SortSorts(xs[1..], le);
      InsertKeepsSorted(xs[0], Sort(xs[1..], le), le);
      InsertKeepsElements(xs[0], Sort(xs[1..], le), le);
      assert xs == [xs[0]] + xs[1..];
    }
  }

  /** A strictly sorted sequence is determined by its set of elements. */
  lemma {:induction false} StrictlySortedUnique<T(!new)>(a: seq<T>, b: seq<T>, le: (T, T) -> bool)
    requires TotalPreorder(le)
    requires StrictlySorted(a, le) && StrictlySorted(b, le) && Elements(a) == Elements(b)
    ensures a == b
  {
    assert b != [] ==> b[0] in Elements(b);
    if a != [] {
      assert a[0] in Elements(a);
      assert b != [];
      assert b[0] in Elements(b);
      assert a[0] == b[0] by {
        var i :| 0 <= i < |b| && b[i] == a[0];
        var j :| 0 <= j < |a| && a[j] == b[0];
      }
      forall x ensures x in Elements(a[1..]) <==> x in Elements(b[1..]) {
        assert x in a[1..] <==> x in Elements(a) && x != a[0];
        assert x in b[1..] <==> x in Elements(b) && x != b[0];
      }
      StrictlySortedUnique(a[1..], b[1..], le);
      assert a == [a[0]] + a[1..] && b == [b[0]] + b[1..];
    }
  }

  ghost function SetToSeq<T(!new)>(s: set<T>): (xs: seq<T>)
    ensures Elements(xs) == s && NoDuplicates(xs)
  {
    if s == {} then []
    else
      var x :| x in s;
      var rest := SetToSeq(s - {x});
      assert forall y :: y in rest <==> y in Elements(rest);
      assert Elements([x] + rest) == {x} + Elements(rest);
      [x] + rest
  }

  /** The elements of `s`, arranged by key. */
  ghost function Arrange<T(!new)>(s: set<T>, le: (T, T) -> bool): seq<T> {
    Sort(SetToSeq(s), le)
  }

  lemma NoDuplicatesCount<T(!new)>(xs: seq<T>)
    ensures NoDuplicates(xs) <==> forall x :: x in xs ==> multiset(xs)[x] == 1
  {
    if xs != [] {
      NoDuplicatesCount(xs[1..]);
      assert xs == [xs[0]] + xs[1..];
      assert multiset(xs) == multiset{xs[0]} + multiset(xs[1..]);
      if NoDuplicates(xs) {
        assert xs[0] !in xs[1..];
        forall x | x in xs ensures multiset(xs)[x] == 1 {
          if x != xs[0] { assert x in xs[1..]; }
        }
      } else {
        var i, j :| 0 <= i < j < |xs| && xs[i] == xs[j];
        if i == 0 {
          assert xs[j] in xs[1..];
          assert multiset(xs)[xs[0]] >= 2;
        } else {
          assert xs[1..][i - 1] == xs[1..][j - 1];
          var x :| x in xs[1..] && multiset(xs[1..])[x] != 1;
          assert x in xs && multiset(xs)[x] >= 2;
        }
      }
    }
  }

  lemma SortStrict<T(!new)>(xs: seq<T>, le: (T, T) -> bool)
    requires TotalPreorder(le) && NoDuplicates(xs) && Separates(Elements(xs), le)
    ensures StrictlySorted(Sort(xs, le), le) && Elements(Sort(xs, le)) == Elements(xs)
  {
    SortSorts(xs, le);
    var ys := Sort(xs, le);
    NoDuplicatesCount(xs);
    assert forall x :: x in ys <==> x in multiset(ys);
    assert forall x :: x in xs <==> x in multiset(xs);
    NoDuplicatesCount(ys);
    forall i, j | 0 <= i < j < |ys| ensures le(ys[i], ys[j]) && !le(ys[j], ys[i]) {
      assert ys[i] in Elements(xs) && ys[j] in Elements(xs) && ys[i] != ys[j];
    }
  }

  /** `Arrange` lists exactly the elements of `s`, strictly sorted; and sorting any enumeration of
      `s` yields the same sequence, so the order in which a hash map is walked does not matter. */
  lemma ArrangeIsSort<T(!new)>(s: set<T>, xs: seq<T>, le: (T, T) -> bool)
    requires TotalPreorder(le) && Separates(s, le)
    requires NoDuplicates(xs) && Elements(xs) == s
    ensures StrictlySorted(Arrange(s, le), le) && Elements(Arrange(s, le)) == s
    ensures Sort(xs, le) == Arrange(s, le)
  {
    SortStrict(SetToSeq(s), le);
    SortStrict(xs, le);
    StrictlySortedUnique(Sort(xs, le), Arrange(s, le), le);
  }

  lemma ArrangeSorted<T(!new)>(s: set<T>, le: (T, T) -> bool)
    requires TotalPreorder(le) && Separates(s, le)
    ensures StrictlySorted(Arrange(s, le), le) && Elements(Arrange(s, le)) == s
    ensures NoDuplicates(Arrange(s, le))
  {
    ArrangeIsSort(s, SetToSeq(s), le);
  }

  /** Lexicographic order on strings. */
  predicate StringLe(a: string, b: string) {
    if a == [] then true
    else if b == [] then false
    else a[0] < b[0] || (a[0] == b[0] && StringLe(a[1..], b[1..]))
  }

  lemma {:induction false} StringLeTotal(a: string, b: string)
    ensures StringLe(a, b) || StringLe(b, a)
    ensures StringLe(a, b) && StringLe(b, a) ==> a == b
  {
    if a != [] && b != [] {
      StringLeTotal(a[1..], b[1..]);
      if StringLe(a, b) && StringLe(b, a) {
        assert a == [a[0]] + a[1..] && b == [b[0]] + b[1..];
      }
    }
  }

  lemma {:induction false} StringLeTransitive(a: string, b: string, c: string)
    requires StringLe(a, b) && StringLe(b, c)
    ensures StringLe(a, c)
  {
    if a != [] && b != [] && c != [] && a[0] == b[0] == c[0] {
      StringLeTransitive(a[1..], b[1..], c[1..]);
    }
  }
}

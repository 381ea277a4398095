/** Strict total orders and the ascending sequence that `sorted(set)` produces. */
module Order {

  ghost predicate IsStrictTotalOrder<T(!new)>(lt: (T, T) -> bool) {
    && (forall x :: !lt(x, x))
    && (forall x, y, z :: lt(x, y) && lt(y, z) ==> lt(x, z))
    && (forall x, y :: x != y ==> lt(x, y) || lt(y, x))
  }

  /** Strictly ascending: sorted and free of duplicates. */
  ghost predicate Ascending<T>(s: seq<T>, lt: (T, T) -> bool) {
    forall i, j :: 0 <= i < j < |s| ==> lt(s[i], s[j])
  }

  predicate IsLeast<T>(m: T, s: set<T>, lt: (T, T) -> bool) {
    m in s && forall x :: x in s && x != m ==> lt(m, x)
  }

  lemma {:induction false} LeastExists<T(!new)>(s: set<T>, lt: (T, T) -> bool)
    requires IsStrictTotalOrder(lt) && s != {}
    ensures exists m :: IsLeast(m, s, lt)
  {
    var y :| y in s;
    if s != {y} {
      LeastExists(s - {y}, lt);
      var m :| IsLeast(m, s - {y}, lt);
      if lt(m, y) {
        assert IsLeast(m, s, lt);
      } else {
        assert IsLeast(y, s, lt);
      }
    } else {
      assert IsLeast(y, s, lt);
    }
  }

  /** The elements of `s` in ascending order, as Python's `sorted` lists a set. */
  function SortedSet<T(!new)>(s: set<T>, lt: (T, T) -> bool): (r: seq<T>)
    requires IsStrictTotalOrder(lt)
    ensures forall x :: x in r <==> x in s
    ensures |r| == |s|
    ensures Ascending(r, lt)
    decreases s
  {
    if s == {} then []
    else
      LeastExists(s, lt);
      var m :| IsLeast(m, s, lt);
      [m] + SortedSet(s - {m}, lt)
  }

  /** The head of an ascending sequence is below every other element. */
  lemma {:induction false} HeadIsLeast<T(!new)>(a: seq<T>, x: T, lt: (T, T) -> bool)
    requires Ascending(a, lt) && x in a
    ensures x == a[0] || lt(a[0], x)
  {
    var k :| 0 <= k < |a| && a[k] == x;
    if k > 0 {
      assert lt(a[0], a[k]);
    }
  }

  lemma SameElementsBothEmpty<T>(a: seq<T>, b: seq<T>)
    requires forall x :: x in a <==> x in b
    ensures a == [] <==> b == []
  {
    if a != [] {
      assert a[0] in b;
    }
    if b != [] {
      assert b[0] in a;
    }
  }

  /** Two ascending sequences with the same elements are equal: sorting a set has one answer. */
  lemma {:induction false} AscendingUnique<T(!new)>(a: seq<T>, b: seq<T>, lt: (T, T) -> bool)
    requires IsStrictTotalOrder(lt)
    requires Ascending(a, lt) && Ascending(b, lt)
    requires forall x :: x in a <==> x in b
    ensures a == b
  {
    SameElementsBothEmpty(a, b);
    if a != [] {
      HeadIsLeast(a, b[0], lt);
      HeadIsLeast(b, a[0], lt);
      assert a[0] == b[0];
      forall x ensures x in a[1..] <==> x in b[1..] {
        if x in a[1..] {
          var i :| 1 <= i < |a| && a[i] == x;
          assert lt(a[0], x) && x != b[0] && x in b;
        }
        if x in b[1..] {
          var i :| 1 <= i < |b| && b[i] == x;
          assert lt(b[0], x) && x != a[0] && x in a;
        }
      }
      AscendingUnique(a[1..], b[1..], lt);
      assert a == [a[0]] + a[1..] && b == [b[0]] + b[1..];
    }
  }
}

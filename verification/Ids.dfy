/** Engineering identifiers, their text order, and stable sorting by a comparison. */
module Ids {

  /** An engineering identifier. Identifiers are compared by their text, code point by code point. */
  datatype Id = Id(text: string)

  datatype Option<+T> = None | Some(value: T)

  ghost predicate TotalOrder<T(!new)>(le: (T, T) -> bool) {
    && (forall x, y :: le(x, y) || le(y, x))
    && (forall x, y :: le(x, y) && le(y, x) ==> x == y)
    && (forall x, y, z :: le(x, y) && le(y, z) ==> le(x, z))
  }

  /** A total order on keys, pulled back to records: equal keys need not mean equal records. */
  ghost predicate TotalPreorder<T(!new)>(le: (T, T) -> bool) {
    && (forall x, y :: le(x, y) || le(y, x))
    && (forall x, y, z :: le(x, y) && le(y, z) ==> le(x, z))
  }

  // ---------------------------------------------------------------- lexicographic order

  predicate CharLeq(a: char, b: char) { a <= b }

  predicate LexLeq<T(==)>(le: (T, T) -> bool, a: seq<T>, b: seq<T>) {
    || a == []
    || (b != [] && a[0] != b[0] && le(a[0], b[0]))
    || (b != [] && a[0] == b[0] && LexLeq(le, a[1..], b[1..]))
  }

  lemma {:induction false} LexTotal<T(!new)>(le: (T, T) -> bool, a: seq<T>, b: seq<T>)
    requires TotalOrder(le)
    ensures LexLeq(le, a, b) || LexLeq(le, b, a)
  {
    if a != [] && b != [] && a[0] == b[0] {
      LexTotal(le, a[1..], b[1..]);
    }
  }

  lemma {:induction false} LexAntisymmetric<T(!new)>(le: (T, T) -> bool, a: seq<T>, b: seq<T>)
    requires TotalOrder(le)
    requires LexLeq(le, a, b) && LexLeq(le, b, a)
    ensures a == b
  {
    if a != [] && b != [] {
      assert a[0] == b[0];
      LexAntisymmetric(le, a[1..], b[1..]);
      assert a == [a[0]] + a[1..] && b == [b[0]] + b[1..];
    }
  }

  lemma {:induction false} LexTransitive<T(!new)>(le: (T, T) -> bool, a: seq<T>, b: seq<T>, c: seq<T>)
    requires TotalOrder(le)
    requires LexLeq(le, a, b) && LexLeq(le, b, c)
    ensures LexLeq(le, a, c)
  {
    if a != [] && b != [] && c != [] && a[0] == b[0] && b[0] == c[0] {
      LexTransitive(le, a[1..], b[1..], c[1..]);
    }
  }

  predicate IdLeq(a: Id, b: Id) { LexLeq(CharLeq, a.text, b.text) }

  predicate IdsLeq(a: seq<Id>, b: seq<Id>) { LexLeq(IdLeq, a, b) }

  /** The text order on identifiers is a total order, so a sort by identifier has one outcome. */
  lemma IdOrder()
    ensures TotalOrder(IdLeq)
  {
    assert TotalOrder(CharLeq);
    forall x, y ensures IdLeq(x, y) || IdLeq(y, x) {
      LexTotal(CharLeq, x.text, y.text);
    }
    forall x, y | IdLeq(x, y) && IdLeq(y, x) ensures x == y {
      LexAntisymmetric(CharLeq, x.text, y.text);
    }
    forall x, y, z | IdLeq(x, y) && IdLeq(y, z) ensures IdLeq(x, z) {
      LexTransitive(CharLeq, x.text, y.text, z.text);
    }
  }

  lemma IdsOrder()
    ensures TotalOrder(IdsLeq)
  {
    IdOrder();
    forall x, y ensures IdsLeq(x, y) || IdsLeq(y, x) {
      LexTotal(IdLeq, x, y);
    }
    forall x, y | IdsLeq(x, y) && IdsLeq(y, x) ensures x == y {
      LexAntisymmetric(IdLeq, x, y);
    }
    forall x, y, z | IdsLeq(x, y) && IdsLeq(y, z) ensures IdsLeq(x, z) {
      LexTransitive(IdLeq, x, y, z);
    }
  }

  // ---------------------------------------------------------------- sorting

  /** Stable insertion: `x` goes before the first element it may precede. */
  function Insert<T>(x: T, s: seq<T>, le: (T, T) -> bool): (r: seq<T>)
    ensures |r| == |s| + 1
  {
    if s == [] || le(x, s[0]) then [x] + s else [s[0]] + Insert(x, s[1..], le)
  }

  function Sort<T>(s: seq<T>, le: (T, T) -> bool): (r: seq<T>)
    ensures |r| == |s|
  {
    if s == [] then [] else Insert(s[0], Sort(s[1..], le), le)
  }

  ghost predicate SortedBy<T>(s: seq<T>, le: (T, T) -> bool) {
    forall i, j | 0 <= i < j < |s| :: le(s[i], s[j])
  }

  predicate Distinct<T(==)>(s: seq<T>) {
    forall i, j | 0 <= i < j < |s| :: s[i] != s[j]
  }

  lemma DistinctConcat<T>(a: seq<T>, b: seq<T>)
    requires Distinct(a) && Distinct(b) && forall x | x in a :: x !in b
    ensures Distinct(a + b)
  {
    var s := a + b;
    forall i, j | 0 <= i < j < |s| ensures s[i] != s[j] {
      if i < |a| && |a| <= j {
        assert s[i] in a && s[j] in b;
      }
    }
  }

  lemma {:induction false} InsertElements<T>(x: T, s: seq<T>, le: (T, T) -> bool)
    ensures multiset(Insert(x, s, le)) == multiset{x} + multiset(s)
  {
    if s == [] || le(x, s[0]) {
    } else {
      InsertElements(x, s[1..], le);
      assert s == [s[0]] + s[1..];
    }
  }

  lemma {:induction false} SortElements<T>(s: seq<T>, le: (T, T) -> bool)
    ensures multiset(Sort(s, le)) == multiset(s)
    ensures forall x :: x in Sort(s, le) <==> x in s
  {
    if s != [] {
      SortElements(s[1..], le);
      InsertElements(s[0], Sort(s[1..], le), le);
      assert s == [s[0]] + s[1..];
    }
    forall x ensures x in Sort(s, le) <==> x in s {
      assert x in Sort(s, le) <==> x in multiset(Sort(s, le));
      assert x in s <==> x in multiset(s);
    }
  }

  lemma {:induction false} InsertSorted<T(!new)>(x: T, s: seq<T>, le: (T, T) -> bool)
    requires TotalPreorder(le) && SortedBy(s, le)
    ensures SortedBy(Insert(x, s, le), le)
  {
    if s == [] || le(x, s[0]) {
    } else {
      InsertSorted(x, s[1..], le);
      InsertElements(x, s[1..], le);
      var r := Insert(x, s[1..], le);
      forall y | y in r ensures le(s[0], y) {
        assert y in multiset(r);
        assert y == x || y in s[1..];
      }
    }
  }

  lemma {:induction false} SortSorted<T(!new)>(s: seq<T>, le: (T, T) -> bool)
    requires TotalPreorder(le)
    ensures SortedBy(Sort(s, le), le)
  {
    if s != [] {
      SortSorted(s[1..], le);
      InsertSorted(s[0], Sort(s[1..], le), le);
    }
  }

  lemma {:induction false} DistinctCounts<T>(s: seq<T>)
    ensures Distinct(s) <==> forall x :: multiset(s)[x] <= 1
  {
    if s != [] {
      var t := s[1..];
      assert s == [s[0]] + t;
      DistinctCounts(t);
      if Distinct(s) {
        assert Distinct(t);
        assert s[0] !in t;
      } else if Distinct(t) {
        var i, j :| 0 <= i < j < |s| && s[i] == s[j];
        assert s[i] == ([s[0]] + t)[i] && s[j] == t[j-1];
        assert i == 0;
        assert t[j-1] in t && s[0] in multiset(t);
        assert multiset(s)[s[0]] >= 2;
      } else {
        var x :| multiset(t)[x] > 1;
        assert multiset(s)[x] > 1;
      }
    }
  }

  lemma SortDistinct<T>(s: seq<T>, le: (T, T) -> bool)
    requires Distinct(s)
    ensures Distinct(Sort(s, le))
  {
    SortElements(s, le);
    DistinctCounts(s);
    DistinctCounts(Sort(s, le));
  }

  /** Two sorted sequences with the same distinct elements are the same sequence. */
  lemma {:induction false} SortedUnique<T(!new)>(s: seq<T>, t: seq<T>, le: (T, T) -> bool)
    requires TotalOrder(le) && SortedBy(s, le) && SortedBy(t, le)
    requires multiset(s) == multiset(t)
    ensures s == t
  {
    assert |s| == |multiset(s)| == |multiset(t)| == |t|;
    if s != [] {
      assert s[0] in multiset(t);
      assert t[0] in multiset(s);
      assert le(s[0], t[0]) && le(t[0], s[0]);
      assert s == [s[0]] + s[1..] && t == [t[0]] + t[1..];
      assert multiset(s[1..]) == multiset(s) - multiset{s[0]};
      assert multiset(t[1..]) == multiset(t) - multiset{t[0]};
      SortedUnique(s[1..], t[1..], le);
    }
  }
}

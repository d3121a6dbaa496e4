// A fixed enumeration order for sets of names. The source iterates hash sets, whose
// order the language leaves unspecified; the model enumerates them in lexicographic
// order of their characters, and the properties proved about such loops do not depend
// on the order chosen.
module Order {

  /** Lexicographic order on strings. */
  predicate Le(a: string, b: string)
    decreases |a|
  {
    a == [] || (b != [] && (a[0] < b[0] || (a[0] == b[0] && Le(a[1..], b[1..]))))
  }

  lemma {:induction false} LeTotal(a: string, b: string)
    ensures Le(a, b) || Le(b, a)
    decreases |a|
  {
    if a != [] && b != [] && a[0] == b[0] {
      LeTotal(a[1..], b[1..]);
    }
  }

  lemma {:induction false} LeAntisymmetric(a: string, b: string)
    requires Le(a, b) && Le(b, a)
    ensures a == b
    decreases |a|
  {
    if a != [] {
      LeAntisymmetric(a[1..], b[1..]);
      assert a == [a[0]] + a[1..] && b == [b[0]] + b[1..];
    }
  }

  lemma {:induction false} LeTransitive(a: string, b: string, c: string)
    requires Le(a, b) && Le(b, c)
    ensures Le(a, c)
    decreases |a|
  {
    if a != [] && a[0] == b[0] && b[0] == c[0] {
      LeTransitive(a[1..], b[1..], c[1..]);
    }
  }

  lemma {:induction false} HasLeast(s: set<string>)
    requires s != {}
    ensures exists m :: m in s && forall y :: y in s ==> Le(m, y)
    decreases |s|
  {
    var x :| x in s;
    if s == {x} {
      LeTotal(x, x);
      assert forall y :: y in s ==> Le(x, y);
    } else {
      HasLeast(s - {x});
      var m :| m in s - {x} && forall y :: y in s - {x} ==> Le(m, y);
      LeastWithOneMore(s, x, m);
    }
  }

  /** A least element of a set without x, compared with x, gives a least element of the
      whole set. */
  lemma LeastWithOneMore(s: set<string>, x: string, m: string)
    requires x in s && m in s - {x} && forall y :: y in s - {x} ==> Le(m, y)
    ensures exists w :: w in s && forall y :: y in s ==> Le(w, y)
  {
    LeTotal(x, m);
    if Le(x, m) {
      forall y | y in s ensures Le(x, y) {
        if y != x {
          LeTransitive(x, m, y);
        } else {
          LeTotal(x, x);
        }
      }
    } else {
      forall y | y in s ensures Le(m, y) {
        if y == x {
          assert Le(m, x);
        }
      }
    }
  }

  /** The least element of a non-empty set. */
  function Least(s: set<string>): (m: string)
    requires s != {}
    ensures m in s && forall y :: y in s ==> Le(m, y)
  {
    HasLeast(s);
    assert forall a, b :: a in s && b in s && (forall y :: y in s ==> Le(a, y)) && (forall y :: y in s ==> Le(b, y)) ==> a == b by {
      forall a, b | a in s && b in s && (forall y :: y in s ==> Le(a, y)) && (forall y :: y in s ==> Le(b, y))
        ensures a == b
      {
        LeAntisymmetric(a, b);
      }
    }
    var m0 :| m0 in s && forall y :: y in s ==> Le(m0, y);
    m0
  }

  /** The elements of a set in increasing order: each exactly once. */
  function Sorted(s: set<string>): (r: seq<string>)
    ensures |r| == |s|
    ensures forall x :: x in r <==> x in s
    ensures forall i, j :: 0 <= i < j < |r| ==> r[i] != r[j]
    decreases |s|
  {
    if s == {} then []
    else
      var m := Least(s);
      var rest := Sorted(s - {m});
      [m] + rest
  }
}

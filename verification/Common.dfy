/** Small datatypes and facts about collections, shared by the models. */
module Common {

  /** A value that may be absent: Python's `None` and the result of `dict.get`. */
  datatype Option<+T> = None | Some(value: T)

  lemma SubsetSize<T>(a: set<T>, b: set<T>)
    requires a <= b
    ensures |a| <= |b|
  {
    assert b == a + (b - a);
  }

  ghost predicate Distinct<T>(l: seq<T>) {
    forall i, j :: 0 <= i < j < |l| ==> l[i] != l[j]
  }

  /** The list without an element; in a list of distinct elements that is `list.remove`. */
  function Without<T(==)>(l: seq<T>, x: T): seq<T> {
    if l == [] then [] else if l[0] == x then Without(l[1..], x) else [l[0]] + Without(l[1..], x)
  }

  lemma {:induction false} WithoutIsRemoval<T(!new)>(l: seq<T>, x: T)
    ensures forall y :: y in Without(l, x) <==> y in l && y != x
    ensures Distinct(l) ==> Distinct(Without(l, x)) && |Without(l, x)| == |l| - (if x in l then 1 else 0)
  {
    if l != [] {
      WithoutIsRemoval(l[1..], x);
      assert forall y :: y in l <==> y == l[0] || y in l[1..];
      if Distinct(l) {
        HeadIsFresh(l);
        var rest := Without(l[1..], x);
        forall j | 0 <= j < |rest| ensures rest[j] != l[0] { assert rest[j] in rest; }
      }
    }
  }

  lemma HeadIsFresh<T>(l: seq<T>)
    requires l != [] && Distinct(l)
    ensures l[0] !in l[1..] && Distinct(l[1..])
  {
    assert forall i :: 0 <= i < |l| - 1 ==> l[1..][i] == l[i + 1];
  }

  lemma {:induction false} WithoutAbsent<T>(l: seq<T>, x: T)
    requires x !in l
    ensures Without(l, x) == l
  {
    if l != [] {
      assert forall i :: 0 <= i < |l| - 1 ==> l[1..][i] == l[i + 1];
      WithoutAbsent(l[1..], x);
    }
  }

  /** Removal acts on each part of the list. */
  lemma {:induction false} WithoutConcat<T>(a: seq<T>, b: seq<T>, x: T)
    ensures Without(a + b, x) == Without(a, x) + Without(b, x)
  {
    if a == [] {
      assert a + b == b;
    } else {
      assert (a + b)[0] == a[0] && (a + b)[1..] == a[1..] + b;
      WithoutConcat(a[1..], b, x);
    }
  }

  /** Two elements that both stay keep their order. */
  lemma {:induction false} WithoutKeepsOrder<T>(l: seq<T>, x: T, i: nat, j: nat) returns (m: nat, n: nat)
    requires i <= j < |l| && l[i] != x && l[j] != x
    ensures m <= n < |Without(l, x)| && Without(l, x)[m] == l[i] && Without(l, x)[n] == l[j]
  {
    var a, b := l[..j], l[j..];
    assert l == a + b && b[0] == l[j];
    WithoutConcat(a, b, x);
    n := |Without(a, x)|;
    if i == j {
      m := n;
    } else {
      assert a == a[..i] + a[i..] && a[i..][0] == l[i];
      WithoutConcat(a[..i], a[i..], x);
      m := |Without(a[..i], x)|;
    }
  }

  /** What is in order after a removal was in order before. */
  lemma {:induction false} WithoutOrigin<T>(l: seq<T>, x: T, m: nat, n: nat) returns (i: nat, j: nat)
    requires m <= n < |Without(l, x)|
    ensures i <= j < |l| && l[i] == Without(l, x)[m] && l[j] == Without(l, x)[n]
  {
    if l[0] == x {
      i, j := WithoutOrigin(l[1..], x, m, n);
      i, j := i + 1, j + 1;
    } else if m == 0 {
      i, j := 0, 0;
      if n > 0 {
        var _, last := WithoutOrigin(l[1..], x, n - 1, n - 1);
        j := last + 1;
      }
    } else {
      i, j := WithoutOrigin(l[1..], x, m - 1, n - 1);
      i, j := i + 1, j + 1;
    }
  }

  lemma WithoutTwice<T(!new)>(l: seq<T>, x: T)
    ensures Without(Without(l, x), x) == Without(l, x)
  {
    WithoutIsRemoval(l, x);
    WithoutAbsent(Without(l, x), x);
  }

  /** What is left of a list of distinct elements has moved up by at most one place. */
  lemma {:induction false} WithoutShifts<T(!new)>(l: seq<T>, x: T, m: nat) returns (n: nat)
    requires Distinct(l) && m < |Without(l, x)|
    ensures m <= n <= m + 1 && n < |l| && l[n] == Without(l, x)[m]
  {
    HeadIsFresh(l);
    if l[0] == x {
      WithoutAbsent(l[1..], x);
      n := m + 1;
    } else if m == 0 {
      n := 0;
    } else {
      n := WithoutShifts(l[1..], x, m - 1);
      n := n + 1;
    }
  }
}

/** Shared failure-carrying datatypes and the strict-order listings that stand for SQL `order by`. */
module Common {

  datatype Option<+T> = None | Some(value: T)

  datatype Result<+T, +E> = Ok(value: T) | Err(error: E)

  /** UUIDs are drawn from a counter, so a new one differs from every earlier one. */
  type Id = nat

  /** Seconds since the epoch. */
  type Time = real

  function Later(a: Time, b: Time): Time {
    if a < b then b else a
  }

  lemma {:induction false} SubsetSize<T>(a: set<T>, b: set<T>)
    requires a <= b
    ensures |a| <= |b|
    decreases |a|
  {
    if a != {} {
      var x :| x in a;
      SubsetSize(a - {x}, b - {x});
    }
  }

  ghost predicate StrictTotalOrder<T(!new)>(less: (T, T) -> bool, s: set<T>) {
    && (forall x | x in s :: !less(x, x))
    && (forall x, y, z | x in s && y in s && z in s && less(x, y) && less(y, z) :: less(x, z))
    && (forall x, y | x in s && y in s && x != y :: less(x, y) || less(y, x))
  }

  ghost predicate Sorted<T(!new)>(less: (T, T) -> bool, q: seq<T>) {
    forall i, j | 0 <= i < j < |q| :: less(q[i], q[j])
  }

  /** `q` enumerates exactly the members of `s`, in strictly increasing order. */
  ghost predicate IsListing<T(!new)>(less: (T, T) -> bool, q: seq<T>, s: set<T>) {
    && (forall x :: x in q <==> x in s)
    && Sorted(less, q)
  }

  lemma {:induction false} ListingIsUnique<T(!new)>(less: (T, T) -> bool, p: seq<T>, q: seq<T>, s: set<T>)
    requires StrictTotalOrder(less, s)
    requires IsListing(less, p, s) && IsListing(less, q, s)
    ensures p == q
    decreases |p|
  {
    assert q == [] || q[0] in q;
    if p == [] {
    } else {
      assert p[0] in s;
      assert p[0] in q && q != [];
      assert q[0] in p;
      var i :| 0 <= i < |q| && q[i] == p[0];
      var j :| 0 <= j < |p| && p[j] == q[0];
      assert p[0] == q[0];
      var s' := s - {p[0]};
      ListingTail(less, p, s);
      ListingTail(less, q, s);
      ListingIsUnique(less, p[1..], q[1..], s');
      assert p == [p[0]] + p[1..] && q == [q[0]] + q[1..];
    }
  }

  lemma ListingTail<T(!new)>(less: (T, T) -> bool, q: seq<T>, s: set<T>)
    requires q != [] && StrictTotalOrder(less, s) && IsListing(less, q, s)
    ensures IsListing(less, q[1..], s - {q[0]})
  {
    forall x ensures x in q[1..] <==> x in s - {q[0]} {
      if x in q[1..] {
        var i :| 0 <= i < |q[1..]| && q[1..][i] == x;
        assert q[i + 1] == x && less(q[0], x);
        assert q[0] in q && x in q;
      }
      if x in s - {q[0]} {
        assert x in q;
        var i :| 0 <= i < |q| && q[i] == x;
        assert q[1..][i - 1] == x;
      }
    }
  }

  lemma {:induction false} ListingLength<T(!new)>(less: (T, T) -> bool, q: seq<T>, s: set<T>)
    requires StrictTotalOrder(less, s) && IsListing(less, q, s)
    ensures |q| == |s|
    decreases |q|
  {
    if q == [] {
      assert forall x :: x in s ==> x in q;
    } else {
      assert q[0] in s;
      ListingTail(less, q, s);
      ListingLength(less, q[1..], s - {q[0]});
    }
  }

  predicate IsLeast<T(==)>(less: (T, T) -> bool, m: T, s: set<T>) {
    m in s && forall x | x in s && x != m :: less(m, x)
  }

  lemma {:induction false} LeastExists<T(!new)>(less: (T, T) -> bool, s: set<T>)
    requires s != {} && StrictTotalOrder(less, s)
    ensures exists m :: IsLeast(less, m, s)
    decreases |s|
  {
    var c :| c in s;
    if s == {c} {
      assert IsLeast(less, c, s);
    } else {
      assert s - {c} != {};
      LeastExists(less, s - {c});
      var r :| IsLeast(less, r, s - {c});
      assert IsLeast(less, if less(c, r) then c else r, s);
    }
  }

  /** The listing of a finite set under a strict total order. */
  ghost function Enumerate<T(!new)>(less: (T, T) -> bool, s: set<T>): (q: seq<T>)
    requires StrictTotalOrder(less, s)
    ensures IsListing(less, q, s)
    decreases |s|
  {
    if s == {} then []
    else
      LeastExists(less, s);
      var m :| IsLeast(less, m, s);
      [m] + Enumerate(less, s - {m})
  }

  /** SQL `order by`: list a result set in the given order. */
  method OrderBy<T(!new, ==)>(s: set<T>, less: (T, T) -> bool) returns (q: seq<T>)
    requires StrictTotalOrder(less, s)
    ensures IsListing(less, q, s)
  {
    q := [];
    var rest := s;
    while rest != {}
      invariant rest <= s
      invariant forall x :: x in q <==> x in s - rest
      invariant Sorted(less, q)
      invariant forall x, y | x in q && y in rest :: less(x, y)
      decreases rest
    {
      var m := Least(rest, less);
      ghost var before, restBefore := q, rest;
      q := q + [m];
      rest := rest - {m};
      forall x ensures x in q <==> x in s - rest {
        assert x in q <==> x in before || x == m;
      }
    }
  }

  method Least<T(!new, ==)>(s: set<T>, less: (T, T) -> bool) returns (m: T)
    requires s != {} && StrictTotalOrder(less, s)
    ensures IsLeast(less, m, s)
  {
    m :| m in s;
    var rest := s - {m};
    while rest != {}
      invariant rest <= s && m in s
      invariant forall x | x in s - rest && x != m :: less(m, x)
      decreases rest
    {
      var x :| x in rest;
      if less(x, m) {
        m := x;
      }
      rest := rest - {x};
    }
  }

  // ---------------------------------------------------------------- string order

  predicate StringLess(a: string, b: string) {
    b != [] && (a == [] || a[0] < b[0] || (a[0] == b[0] && StringLess(a[1..], b[1..])))
  }

  lemma {:induction false} StringTotal(a: string, b: string)
    ensures a == b || StringLess(a, b) || StringLess(b, a)
  {
    if a != [] && b != [] && a[0] == b[0] {
      StringTotal(a[1..], b[1..]);
      assert a == [a[0]] + a[1..] && b == [b[0]] + b[1..];
    }
  }

  lemma {:induction false} StringIrreflexive(a: string)
    ensures !StringLess(a, a)
  {
    if a != [] { StringIrreflexive(a[1..]); }
  }

  lemma {:induction false} StringTransitive(a: string, b: string, c: string)
    requires StringLess(a, b) && StringLess(b, c)
    ensures StringLess(a, c)
  {
    if a != [] && a[0] == b[0] && b[0] == c[0] {
      StringTransitive(a[1..], b[1..], c[1..]);
    }
  }

  lemma StringsAreOrdered(s: set<string>)
    ensures StrictTotalOrder(StringLess, s)
  {
    forall x | x in s ensures !StringLess(x, x) { StringIrreflexive(x); }
    forall x, y, z | x in s && y in s && z in s && StringLess(x, y) && StringLess(y, z) ensures StringLess(x, z) {
      StringTransitive(x, y, z);
    }
    forall x, y | x in s && y in s && x != y ensures StringLess(x, y) || StringLess(y, x) {
      StringTotal(x, y);
    }
  }
}

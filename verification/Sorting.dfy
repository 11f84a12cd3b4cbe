/** The order in which an ordered table yields its keys. */
module Sorting {
  ghost predicate StrictOrder<T(!new)>(before: (T, T) -> bool) {
    && (forall x :: !before(x, x))
    && (forall x, y, z :: before(x, y) && before(y, z) ==> before(x, z))
    && (forall x, y :: before(x, y) || before(y, x) || x == y)
  }

  predicate IsLeast<T(==)>(m: T, s: set<T>, before: (T, T) -> bool) {
    m in s && forall x :: x in s ==> x == m || before(m, x)
  }

  lemma {:induction false} LeastExists<T(!new)>(s: set<T>, before: (T, T) -> bool)
    requires StrictOrder(before) && s != {}
    ensures exists m :: IsLeast(m, s, before)
  {
    var x :| x in s;
    var rest := s - {x};
    assert s == rest + {x};
    if rest == {} {
      assert IsLeast(x, s, before);
    } else {
      LeastExists(rest, before);
      var m :| IsLeast(m, rest, before);
      assert IsLeast(if before(x, m) then x else m, s, before);
    }
  }

  ghost predicate Ascending<T>(s: seq<T>, before: (T, T) -> bool) {
    forall i, j :: 0 <= i < j < |s| ==> before(s[i], s[j])
  }

  /** All keys of a table in ascending order. */
  ghost predicate Lists<T(!new)>(order: seq<T>, keys: set<T>, before: (T, T) -> bool) {
    Ascending(order, before) && forall x :: x in order <==> x in keys
  }

  method Iterate<T(!new, ==)>(keys: set<T>, before: (T, T) -> bool) returns (order: seq<T>)
    requires StrictOrder(before)
    ensures Lists(order, keys, before)
  {
    order := [];
    var rest := keys;
    while rest != {}
      invariant rest <= keys && Lists(order, keys - rest, before)
      invariant forall i, x :: 0 <= i < |order| && x in rest ==> before(order[i], x)
      decreases rest
    {
      LeastExists(rest, before);
      var m :| IsLeast(m, rest, before);
      order := order + [m];
      rest := rest - {m};
    }
  }
}

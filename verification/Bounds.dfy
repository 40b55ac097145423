/** The least and the greatest of a set of heights. */
module Bounds {
  lemma {:induction false} HasMin(s: set<nat>, x: nat)
    requires x in s
    ensures exists m :: m in s && forall y | y in s :: m <= y
    decreases x
  {
    if y :| y in s && y < x {
      HasMin(s, y);
    }
  }

  function Min(s: set<nat>): (m: nat)
    requires s != {}
    ensures m in s && forall x | x in s :: m <= x
  {
    assert exists m :: m in s && forall x | x in s :: m <= x by {
      var x :| x in s;
      HasMin(s, x);
    }
    var m :| m in s && forall x | x in s :: m <= x;
    m
  }

  lemma {:induction false} HasMax(s: set<nat>)
    requires s != {}
    ensures exists m :: m in s && forall y | y in s :: y <= m
    decreases s
  {
    var x :| x in s;
    if s == {x} {
      assert x in s && forall y | y in s :: y <= x;
    } else {
      HasMax(s - {x});
      var m :| m in s - {x} && forall y | y in s - {x} :: y <= m;
      var n := if x > m then x else m;
      assert n in s && forall y | y in s :: y <= n by {
        assert forall y | y in s :: y == x || y in s - {x};
      }
    }
  }

  function Max(s: set<nat>): (m: nat)
    requires s != {}
    ensures m in s && forall x | x in s :: x <= m
  {
    HasMax(s);
    var m :| m in s && forall x | x in s :: x <= m;
    m
  }
}

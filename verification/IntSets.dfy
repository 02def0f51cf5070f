/** Least and greatest elements, for SQL's MAX and ORDER BY ... LIMIT. */
module IntSets {
  lemma AnElement<T>(s: set<T>) returns (a: T)
    requires s != {}
    ensures a in s
  {
    var x :| x in s;
    a := x;
  }

  lemma {:induction false} HasMax(s: set<int>)
    requires s != {}
    ensures exists m :: m in s && forall x :: x in s ==> x <= m
    decreases |s|
  {
    var a := AnElement(s);
    var rest := s - {a};
    assert s == rest + {a};
    if rest == {} {
      assert s == {a};
    } else {
      HasMax(rest);
      var m :| m in rest && forall x :: x in rest ==> x <= m;
      var best := if a < m then m else a;
      assert best in s && forall x :: x in s ==> x <= best;
    }
  }

  lemma {:induction false} HasMin(s: set<int>)
    requires s != {}
    ensures exists m :: m in s && forall x :: x in s ==> m <= x
    decreases |s|
  {
    var a := AnElement(s);
    var rest := s - {a};
    assert s == rest + {a};
    if rest == {} {
      assert s == {a};
    } else {
      HasMin(rest);
      var m :| m in rest && forall x :: x in rest ==> m <= x;
      var best := if m < a then m else a;
      assert best in s && forall x :: x in s ==> best <= x;
    }
  }

  function Max(s: set<int>): (m: int)
    requires s != {}
    ensures m in s && forall x :: x in s ==> x <= m
  {
    HasMax(s);
    var m :| m in s && forall x :: x in s ==> x <= m;
    m
  }

  function Min(s: set<int>): (m: int)
    requires s != {}
    ensures m in s && forall x :: x in s ==> m <= x
  {
    HasMin(s);
    var m :| m in s && forall x :: x in s ==> m <= x;
    m
  }
}

/** Sums of a weight over the elements of a finite set. */
module Sums {

  ghost function Sum<T(!new)>(s: set<T>, f: T -> nat): nat
  {
    if s == {} then 0 else var x :| x in s; f(x) + Sum(s - {x}, f)
  }

  lemma {:induction false} SumPick<T(!new)>(s: set<T>, f: T -> nat, y: T)
    requires y in s
    ensures Sum(s, f) == f(y) + Sum(s - {y}, f)
  {
    var x :| x in s && Sum(s, f) == f(x) + Sum(s - {x}, f);
    if x != y {
      SumPick(s - {x}, f, y);
      SumPick(s - {y}, f, x);
      assert s - {x} - {y} == s - {y} - {x};
    }
  }

  lemma {:induction false} SumUnion<T(!new)>(s: set<T>, t: set<T>, f: T -> nat)
    ensures Sum(s + t, f) + Sum(s * t, f) == Sum(s, f) + Sum(t, f)
  {
    if t == {} {
      assert s + t == s && s * t == {};
    } else {
      var y :| y in t;
      SumUnion(s, t - {y}, f);
      SumPick(t, f, y);
      if y in s {
        assert s + t == s + (t - {y}) && s * t - {y} == s * (t - {y});
        SumPick(s * t, f, y);
      } else {
        assert s + t - {y} == s + (t - {y}) && s * t == s * (t - {y});
        SumPick(s + t, f, y);
      }
    }
  }

  lemma SumSubset<T(!new)>(s: set<T>, t: set<T>, f: T -> nat)
    requires s <= t
    ensures Sum(s, f) <= Sum(t, f)
  {
    SumUnion(s, t - s, f);
    assert s + (t - s) == t && s * (t - s) == {};
  }

  lemma {:induction false} SumAgree<T(!new)>(s: set<T>, f: T -> nat, g: T -> nat)
    requires forall x :: x in s ==> f(x) == g(x)
    ensures Sum(s, f) == Sum(s, g)
  {
    if s != {} {
      var x :| x in s;
      SumPick(s, f, x);
      SumPick(s, g, x);
      SumAgree(s - {x}, f, g);
    }
  }
}

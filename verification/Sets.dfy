/** Elements of finite sets, and sums over them. */
module Sets {

  /** A listing of a set: every element, each once, in an order left open. */
  ghost predicate Lists<T(!new)>(list: seq<T>, s: set<T>) {
    (forall x :: x in list <==> x in s) && forall i, j | 0 <= i < j < |list| :: list[i] != list[j]
  }

  ghost function Any<T>(s: set<T>): (x: T)
    requires s != {}
    ensures x in s
  {
    var x :| x in s;
    x
  }

  lemma EmptyListing<T(!new)>(list: seq<T>, s: set<T>)
    requires Lists(list, s)
    ensures list == [] <==> s == {}
  {
    if list != [] {
      assert list[0] in list;
    } else if s != {} {
      var x := Any(s);
    }
  }

  ghost function Sum<T>(s: set<T>, f: T -> nat): nat {
    if s == {} then 0
    else
      var x := Any(s);
      f(x) + Sum(s - {x}, f)
  }

  lemma {:induction false} SumRemove<T>(s: set<T>, f: T -> nat, x: T)
    requires x in s
    ensures Sum(s, f) == f(x) + Sum(s - {x}, f)
  {
    var y := Any(s);
    if y != x {
      SumRemove(s - {y}, f, x);
      SumRemove(s - {x}, f, y);
      assert s - {y} - {x} == s - {x} - {y};
    }
  }

  lemma {:induction false} SumSame<T>(s: set<T>, f: T -> nat, g: T -> nat)
    requires forall x <- s :: f(x) == g(x)
    ensures Sum(s, f) == Sum(s, g)
  {
    if s != {} {
      var x := Any(s);
      SumRemove(s, f, x);
      SumRemove(s, g, x);
      SumSame(s - {x}, f, g);
    }
  }

  lemma SumChange<T>(s: set<T>, f: T -> nat, g: T -> nat, x: T)
    requires x in s && forall y <- s | y != x :: f(y) == g(y)
    ensures Sum(s, g) + f(x) == Sum(s, f) + g(x)
  {
    SumRemove(s, f, x);
    SumRemove(s, g, x);
    SumSame(s - {x}, f, g);
  }
}

/** Counting the elements of a multiset that satisfy a predicate. */
module Bags {

  ghost function Count<T(!new)>(m: multiset<T>, f: T -> bool): nat
    decreases |m|
  {
    if m == multiset{} then 0 else
      var x :| x in m;
      (if f(x) then 1 else 0) + Count(m - multiset{x}, f)
  }

  /** The count does not depend on the order in which elements are taken. */
  lemma {:induction false} CountRemove<T(!new)>(m: multiset<T>, f: T -> bool, x: T)
    requires x in m
    ensures Count(m, f) == (if f(x) then 1 else 0) + Count(m - multiset{x}, f)
    decreases |m|
  {
    var y :| y in m && Count(m, f) == (if f(y) then 1 else 0) + Count(m - multiset{y}, f);
    if x != y {
      CountRemove(m - multiset{y}, f, x);
      CountRemove(m - multiset{x}, f, y);
      assert m - multiset{y} - multiset{x} == m - multiset{x} - multiset{y};
    }
  }

  lemma {:induction false} CountUnion<T(!new)>(a: multiset<T>, b: multiset<T>, f: T -> bool)
    ensures Count(a + b, f) == Count(a, f) + Count(b, f)
    decreases |b|
  {
    if b == multiset{} {
      assert a + b == a;
    } else {
      var x :| x in b;
      CountRemove(b, f, x);
      CountRemove(a + b, f, x);
      assert a + b - multiset{x} == a + (b - multiset{x});
      CountUnion(a, b - multiset{x}, f);
    }
  }

  lemma {:induction false} CountNone<T(!new)>(m: multiset<T>, f: T -> bool)
    requires forall x :: x in m ==> !f(x)
    ensures Count(m, f) == 0
    decreases |m|
  {
    if m != multiset{} {
      var x :| x in m;
      CountRemove(m, f, x);
      CountNone(m - multiset{x}, f);
    }
  }

  lemma CountOne<T(!new)>(m: multiset<T>, f: T -> bool, x: T)
    requires m[x] == 1 && f(x)
    requires forall y :: y in m && f(y) ==> y == x
    ensures Count(m, f) == 1
  {
    CountRemove(m, f, x);
    CountNone(m - multiset{x}, f);
  }

  lemma {:induction false} CountWeaker<T(!new)>(m: multiset<T>, f: T -> bool, g: T -> bool)
    requires forall x :: x in m && f(x) ==> g(x)
    ensures Count(m, f) <= Count(m, g)
    decreases |m|
  {
    if m != multiset{} {
      var x :| x in m;
      CountRemove(m, f, x);
      CountRemove(m, g, x);
      CountWeaker(m - multiset{x}, f, g);
    }
  }

  /** Taking `used` out and putting `sent` in. */
  lemma CountExchange<T(!new)>(m: multiset<T>, used: multiset<T>, sent: multiset<T>, f: T -> bool)
    requires used <= m
    ensures Count(m - used + sent, f) == Count(m, f) - Count(used, f) + Count(sent, f)
  {
    CountUnion(m - used, sent, f);
    CountUnion(m - used, used, f);
    assert m - used + used == m;
  }
}

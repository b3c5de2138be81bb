/** Sums of a function over a finite set, as SQL's sum() over selected rows. */
module FiniteSums {
  /** A set that is not empty has an element. */
  lemma Member<K>(s: set<K>) returns (x: K)
    requires s != {}
    ensures x in s
  {
    x :| x in s;
  }

  ghost function Sum<K(!new)>(s: set<K>, f: K -> int): int {
    if s == {} then 0
    else
      var x :| x in s;
      f(x) + Sum(s - {x}, f)
  }

  lemma {:induction false} SumPick<K(!new)>(s: set<K>, x: K, f: K -> int)
    requires x in s
    ensures Sum(s, f) == f(x) + Sum(s - {x}, f)
  {
    var y :| y in s && Sum(s, f) == f(y) + Sum(s - {y}, f);
    if y != x {
      SumPick(s - {y}, x, f);
      SumPick(s - {x}, y, f);
      assert s - {y} - {x} == s - {x} - {y};
    }
  }

  lemma {:induction false} SumUnion<K(!new)>(a: set<K>, b: set<K>, f: K -> int)
    requires a !! b
    ensures Sum(a + b, f) == Sum(a, f) + Sum(b, f)
  {
    if a == {} {
      assert a + b == b;
    } else {
      var x :| x in a;
      SumPick(a, x, f);
      SumPick(a + b, x, f);
      SumUnion(a - {x}, b, f);
      assert (a + b) - {x} == (a - {x}) + b;
    }
  }

  lemma {:induction false} SumSame<K(!new)>(s: set<K>, f: K -> int, g: K -> int)
    requires forall x :: x in s ==> f(x) == g(x)
    ensures Sum(s, f) == Sum(s, g)
  {
    if s != {} {
      var x :| x in s;
      SumPick(s, x, f);
      SumPick(s, x, g);
      SumSame(s - {x}, f, g);
    }
  }

  lemma CardUnion<K(!new)>(a: set<K>, b: set<K>)
    requires a !! b
    ensures |a + b| == |a| + |b|
  {
  }

  function Group<K, G(==)>(s: set<K>, g: K -> G, x: G): set<K> {
    set k | k in s && g(k) == x
  }

  ghost function GroupTotals<K(!new), G(!new)>(s: set<K>, g: K -> G, f: K -> int): G -> int {
    x => Sum(Group(s, g, x), f)
  }

  /** Summing group by group, whatever the grouping, is summing the whole. */
  lemma {:induction false} SumByGroup<K(!new), G(!new)>(s: set<K>, g: K -> G, groups: set<G>, f: K -> int)
    requires forall k :: k in s ==> g(k) in groups
    ensures Sum(groups, GroupTotals(s, g, f)) == Sum(s, f)
  {
    if groups == {} {
      assert s == {};
    } else {
      var x :| x in groups;
      var inside := Group(s, g, x);
      var rest := s - inside;
      SumPick(groups, x, GroupTotals(s, g, f));
      SumByGroup(rest, g, groups - {x}, f);
      forall y | y in groups - {x} ensures GroupTotals(s, g, f)(y) == GroupTotals(rest, g, f)(y) {
        assert Group(s, g, y) == Group(rest, g, y);
      }
      SumSame(groups - {x}, GroupTotals(s, g, f), GroupTotals(rest, g, f));
      SumUnion(inside, rest, f);
      assert inside + rest == s;
    }
  }

  lemma {:induction false} SumOfZeros<K(!new)>(s: set<K>, f: K -> int)
    requires forall x :: x in s ==> f(x) == 0
    ensures Sum(s, f) == 0
  {
    if s != {} {
      var x :| x in s;
      SumPick(s, x, f);
      SumOfZeros(s - {x}, f);
    }
  }
}

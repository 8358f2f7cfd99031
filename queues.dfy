/**
 * Priority queues as multisets. Java's PriorityQueue and MinMaxPriorityQueue hand back
 * some element that is least (or greatest) under their comparator; which one among
 * equally ranked elements is not specified, so polling is modelled as choosing any
 * such element.
 */
module Queues {
  /** `a` ranks no later than `b`. */
  ghost predicate RanksBefore<T>(cmp: (T, T) -> int, a: T, b: T)
  {
    cmp(a, b) <= 0
  }

  /**
   * The comparator ranks any two elements and ranks transitively. It is stated through
   * RanksBefore so that its quantifiers fire only on facts stated with RanksBefore.
   */
  ghost predicate TotalPreorder<T(!new)>(cmp: (T, T) -> int)
  {
    (forall a: T, b: T :: RanksBefore(cmp, a, b) || RanksBefore(cmp, b, a)) &&
    (forall a: T, b: T, c: T :: RanksBefore(cmp, a, b) && RanksBefore(cmp, b, c) ==> RanksBefore(cmp, a, c))
  }

  /** `m` is in the queue and ranks no later than any element of it. */
  predicate IsMin<T>(m: T, q: multiset<T>, cmp: (T, T) -> int)
  {
    m in q && forall x :: x in q ==> cmp(m, x) <= 0
  }

  /** `m` is in the queue and ranks no earlier than any element of it. */
  predicate IsMax<T>(m: T, q: multiset<T>, cmp: (T, T) -> int)
  {
    m in q && forall x :: x in q ==> cmp(x, m) <= 0
  }

  /** Every non-empty queue has a least element under a total preorder. */
  lemma {:induction false} MinExists<T(!new)>(q: multiset<T>, cmp: (T, T) -> int)
    requires TotalPreorder(cmp)
    requires q != multiset{}
    ensures exists m :: IsMin(m, q, cmp)
    decreases |q|
  {
    var x :| x in q;
    var rest := q - multiset{x};
    assert q == rest + multiset{x};
    assert RanksBefore(cmp, x, x);
    if rest == multiset{} {
      assert IsMin(x, q, cmp);
    } else {
      MinExists(rest, cmp);
      var y :| IsMin(y, rest, cmp);
      if RanksBefore(cmp, y, x) {
        assert IsMin(y, q, cmp);
      } else {
        assert RanksBefore(cmp, x, y);
        forall z | z in q
          ensures cmp(x, z) <= 0
        {
          if z in rest {
            assert RanksBefore(cmp, y, z);
          }
        }
        assert IsMin(x, q, cmp);
      }
    }
  }

  /** Every non-empty queue has a greatest element under a total preorder. */
  lemma {:induction false} MaxExists<T(!new)>(q: multiset<T>, cmp: (T, T) -> int)
    requires TotalPreorder(cmp)
    requires q != multiset{}
    ensures exists m :: IsMax(m, q, cmp)
    decreases |q|
  {
    var x :| x in q;
    var rest := q - multiset{x};
    assert q == rest + multiset{x};
    assert RanksBefore(cmp, x, x);
    if rest == multiset{} {
      assert IsMax(x, q, cmp);
    } else {
      MaxExists(rest, cmp);
      var y :| IsMax(y, rest, cmp);
      if RanksBefore(cmp, x, y) {
        assert IsMax(y, q, cmp);
      } else {
        assert RanksBefore(cmp, y, x);
        forall z | z in q
          ensures cmp(z, x) <= 0
        {
          if z in rest {
            assert RanksBefore(cmp, z, y);
          }
        }
        assert IsMax(x, q, cmp);
      }
    }
  }

  /** poll: removes one least element. */
  method Poll<T(!new)>(q: multiset<T>, cmp: (T, T) -> int) returns (m: T, rest: multiset<T>)
    requires TotalPreorder(cmp)
    requires q != multiset{}
    ensures IsMin(m, q, cmp)
    ensures rest == q - multiset{m} && q == rest + multiset{m}
  {
    MinExists(q, cmp);
    m :| IsMin(m, q, cmp);
    rest := q - multiset{m};
  }

  /** pollLast: removes one greatest element. */
  method PollLast<T(!new)>(q: multiset<T>, cmp: (T, T) -> int) returns (m: T, rest: multiset<T>)
    requires TotalPreorder(cmp)
    requires q != multiset{}
    ensures IsMax(m, q, cmp)
    ensures rest == q - multiset{m} && q == rest + multiset{m}
  {
    MaxExists(q, cmp);
    m :| IsMax(m, q, cmp);
    rest := q - multiset{m};
  }

  /** Any two least elements of a queue rank equally. */
  lemma MinimaRankEqually<T(!new)>(q: multiset<T>, cmp: (T, T) -> int, m1: T, m2: T)
    requires IsMin(m1, q, cmp) && IsMin(m2, q, cmp)
    ensures cmp(m1, m2) <= 0 && cmp(m2, m1) <= 0
  {
  }
}

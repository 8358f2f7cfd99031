/** Order-preserving selection from a list, as the planners' filtering loops build it. */
module Seqs {
  /** The elements of `s` that `keep` accepts, in their order in `s`. */
  function Keep<T(!new)>(s: seq<T>, keep: T -> bool): (r: seq<T>)
    ensures |r| <= |s|
    decreases |s|
  {
    if s == [] then []
    else Keep(s[..|s| - 1], keep) + (if keep(s[|s| - 1]) then [s[|s| - 1]] else [])
  }

  /** An element is kept exactly when it is in the list and accepted. */
  lemma {:induction false} KeepMembers<T(!new)>(s: seq<T>, keep: T -> bool)
    ensures forall x :: x in Keep(s, keep) <==> x in s && keep(x)
    decreases |s|
  {
    if s != [] {
      KeepMembers(s[..|s| - 1], keep);
      assert s == s[..|s| - 1] + [s[|s| - 1]];
    }
  }

  /** Keeping from a list one element longer appends that element when it is accepted. */
  lemma KeepSnoc<T(!new)>(s: seq<T>, i: int, keep: T -> bool)
    requires 0 <= i < |s|
    ensures Keep(s[..i + 1], keep) == Keep(s[..i], keep) + (if keep(s[i]) then [s[i]] else [])
  {
    assert s[..i + 1][..i] == s[..i];
  }

  /** Keeping counts each accepted element as often as the list holds it, and no other. */
  lemma {:induction false} KeepCount<T(!new)>(s: seq<T>, keep: T -> bool)
    ensures forall x :: multiset(Keep(s, keep))[x] == if keep(x) then multiset(s)[x] else 0
    decreases |s|
  {
    if s != [] {
      KeepCount(s[..|s| - 1], keep);
      assert s == s[..|s| - 1] + [s[|s| - 1]];
    }
  }

  /** Keeping again with the same test changes nothing. */
  lemma {:induction false} KeepTwice<T(!new)>(s: seq<T>, keep: T -> bool)
    ensures Keep(Keep(s, keep), keep) == Keep(s, keep)
    decreases |s|
  {
    if s != [] {
      var init := s[..|s| - 1];
      KeepTwice(init, keep);
      var k := Keep(init, keep);
      if keep(s[|s| - 1]) {
        var r := k + [s[|s| - 1]];
        assert r[..|r| - 1] == k;
        assert Keep(s, keep) == r;
      } else {
        assert Keep(s, keep) == k + [] == k;
      }
    }
  }

  /** A list with a rejected element loses it: keeping leaves fewer elements. */
  lemma {:induction false} KeepDrops<T(!new)>(s: seq<T>, keep: T -> bool, i: int)
    requires 0 <= i < |s| && !keep(s[i])
    ensures |Keep(s, keep)| < |s|
    decreases |s|
  {
    var n := |s| - 1;
    if i < n {
      KeepDrops(s[..n], keep, i);
    }
  }
}

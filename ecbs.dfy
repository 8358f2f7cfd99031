/**
 * The lower bound of an ECBS state (ECBSState.java): the cost of each agent's path
 * (fMinAgents) and their sum, which the focal search compares with its weighted bound.
 */
module ECBS {
  import opened Geometry

  /** The cost of every path, in path order. */
  function FMinOf(paths: seq<Path>): seq<real>
  {
    seq(|paths|, i requires 0 <= i < |paths| => paths[i].cost)
  }

  /** computeFMinAgents: the list is cleared, then each path's cost appended in turn. */
  method ComputeFMinAgents(paths: seq<Path>) returns (fMin: seq<real>)
    ensures |fMin| == |paths|
    ensures forall i :: 0 <= i < |paths| ==> fMin[i] == paths[i].cost
    ensures fMin == FMinOf(paths)
  {
    fMin := [];
    var i := 0;
    while i < |paths|
      invariant 0 <= i <= |paths|
      invariant fMin == FMinOf(paths[..i])
    {
      assert FMinOf(paths[..i + 1]) == FMinOf(paths[..i]) + [paths[i].cost];
      fMin := fMin + [paths[i].cost];
      i := i + 1;
    }
    assert paths[..|paths|] == paths;
  }

  /** The sum of a list of costs. */
  function Sum(xs: seq<real>): real
    decreases |xs|
  {
    if xs == [] then 0.0 else Sum(xs[..|xs| - 1]) + xs[|xs| - 1]
  }

  /** computeLowerBound: the costs added up from zero. */
  method ComputeLowerBound(fMin: seq<real>) returns (lowerBound: real)
    ensures lowerBound == Sum(fMin)
  {
    lowerBound := 0.0;
    var i := 0;
    while i < |fMin|
      invariant 0 <= i <= |fMin|
      invariant lowerBound == Sum(fMin[..i])
    {
      assert fMin[..i + 1][..i] == fMin[..i];
      lowerBound := lowerBound + fMin[i];
      i := i + 1;
    }
    assert fMin[..|fMin|] == fMin;
  }

  /** With no negative cost, the sum is at least each cost, and never negative. */
  lemma {:induction false} SumBounds(xs: seq<real>)
    requires forall i :: 0 <= i < |xs| ==> xs[i] >= 0.0
    ensures Sum(xs) >= 0.0
    ensures forall i :: 0 <= i < |xs| ==> Sum(xs) >= xs[i]
    decreases |xs|
  {
    if xs != [] {
      var init := xs[..|xs| - 1];
      SumBounds(init);
      assert forall i :: 0 <= i < |init| ==> init[i] == xs[i];
    }
  }

  /** Changing one cost moves the sum by exactly the change. */
  lemma {:induction false} SumUpdate(xs: seq<real>, k: int, v: real)
    requires 0 <= k < |xs|
    ensures Sum(xs[k := v]) == Sum(xs) - xs[k] + v
    decreases |xs|
  {
    var n := |xs| - 1;
    if k < n {
      SumUpdate(xs[..n], k, v);
      assert xs[k := v][..n] == xs[..n][k := v];
    } else {
      assert xs[k := v][..n] == xs[..n];
    }
  }

  /**
   * getLowerBound: the bound is computed when it still holds its initial Double.MAX_VALUE,
   * and the state's f value is set to it. Gives the bound and the new f.
   */
  function GetLowerBound(lowerBound: real, fMin: seq<real>): (r: (real, real))
    ensures r.0 == r.1
    ensures lowerBound != DOUBLE_MAX ==> r.0 == lowerBound
    ensures lowerBound == DOUBLE_MAX ==> r.0 == Sum(fMin)
  {
    var bound := if lowerBound == DOUBLE_MAX then Sum(fMin) else lowerBound;
    (bound, bound)
  }
}

/**
 * The comparators that order the open, focal and conflict queues. Each returns -1, 0
 * or 1. Nodes are compared through their states' costs, so the node comparators are
 * stated on `Costs`.
 */
module Comparators {
  import opened Geometry
  import opened Trees
  import opened Conflicts
  import opened Queues

  /** The three-way comparison of two doubles shared by most comparators here. */
  function ThreeWay(x: real, y: real): (r: int)
    ensures r == -1 <==> x < y
    ensures r == 0 <==> x == y
    ensures r == 1 <==> x > y
  {
    if x < y then -1 else if x == y then 0 else 1
  }

  // ---------------------------------------------------------------- ConflictComparator

  /** The ranking key of an agent conflict: timestep, first agent id, second agent id. */
  function ConflictKey(c: AgentConflictValue): (int, int, int)
  {
    (c.timestep, c.agent1, c.agent2)
  }

  /** Lexicographic order on the ranking keys. */
  predicate KeyBefore(x: (int, int, int), y: (int, int, int))
  {
    x.0 < y.0 || (x.0 == y.0 && (x.1 < y.1 || (x.1 == y.1 && x.2 < y.2)))
  }

  /**
   * ConflictComparator: the earlier timestep first, then the lower first agent id, then
   * the lower second agent id; 0 exactly when all three agree.
   */
  function ConflictCompare(a: AgentConflictValue, b: AgentConflictValue): (r: int)
    ensures r == -1 <==> KeyBefore(ConflictKey(a), ConflictKey(b))
    ensures r == 0 <==> ConflictKey(a) == ConflictKey(b)
    ensures r == 1 <==> KeyBefore(ConflictKey(b), ConflictKey(a))
  {
    if a.Timestep() < b.Timestep() then -1
    else if a.Timestep() > b.Timestep() then 1
    else if a.agent1 < b.agent1 then -1
    else if a.agent1 > b.agent1 then 1
    else if a.agent2 < b.agent2 then -1
    else if a.agent2 > b.agent2 then 1
    else 0
  }

  /** The conflict ordering is antisymmetric and a total preorder, so polling is well defined. */
  lemma ConflictCompareIsOrder()
    ensures forall a: AgentConflictValue, b: AgentConflictValue ::
              ConflictCompare(a, b) == -ConflictCompare(b, a)
    ensures TotalPreorder(ConflictCompare)
  {
  }

  // ---------------------------------------------------------------- FValueComparator

  /** FValueComparator: the lower f first; among equal f, the higher g first. */
  function FValueCompare(a: Costs, b: Costs): (r: int)
    ensures r == -1 <==> a.f < b.f || (a.f == b.f && a.g > b.g)
    ensures r == 0 <==> a.f == b.f && a.g == b.g
    ensures r == 1 <==> a.f > b.f || (a.f == b.f && a.g < b.g)
  {
    if a.f < b.f then -1
    else if a.f == b.f then
      (if a.g > b.g then -1 else if a.g == b.g then 0 else 1)
    else 1
  }

  lemma FValueCompareIsOrder()
    ensures forall a: Costs, b: Costs :: FValueCompare(a, b) == -FValueCompare(b, a)
    ensures TotalPreorder(FValueCompare)
  {
  }

  // ---------------------------------------------------------------- HValueComparator

  /** HValueComparator: the lower h first; g and f play no part. */
  function HValueCompare(a: Costs, b: Costs): (r: int)
    ensures r == -1 <==> a.h < b.h
    ensures r == 0 <==> a.h == b.h
    ensures r == 1 <==> a.h > b.h
  {
    if a.h < b.h then -1 else if a.h == b.h then 0 else 1
  }

  lemma HValueCompareIsOrder()
    ensures forall a: Costs, b: Costs :: HValueCompare(a, b) == -HValueCompare(b, a)
    ensures TotalPreorder(HValueCompare)
  {
  }

  // ---------------------------------------------------------------- WeightedFValueComparator

  /** WeightedFValueComparator: its weight is fixed when it is built. */
  datatype WeightedFValueComparator = WeightedFValueComparator(weight: real)
  {
    /** The ranking key g + h * weight. */
    function Key(c: Costs): real
    {
      c.g + c.h * weight
    }

    /** The lower key first; among equal keys, the larger weighted h first. */
    function Compare(a: Costs, b: Costs): (r: int)
      ensures r == -1 <==> Key(a) < Key(b) || (Key(a) == Key(b) && a.h * weight > b.h * weight)
      ensures r == 0 <==> Key(a) == Key(b) && a.h * weight == b.h * weight
      ensures r == 1 <==> Key(a) > Key(b) || (Key(a) == Key(b) && a.h * weight < b.h * weight)
    {
      if a.g + a.h * weight < b.g + b.h * weight then -1
      else if a.g + a.h * weight == b.g + b.h * weight then
        (if a.h * weight > b.h * weight then -1
         else if a.h * weight == b.h * weight then 0
         else 1)
      else 1
    }
  }

  /** With a non-zero weight, two costs rank equal exactly when their g and h agree. */
  lemma WeightedTiesOnlyOnEqualGH(cmp: WeightedFValueComparator, a: Costs, b: Costs)
    requires cmp.weight != 0.0
    ensures cmp.Compare(a, b) == 0 <==> a.g == b.g && a.h == b.h
  {
    if cmp.Compare(a, b) == 0 {
      assert a.h * cmp.weight == b.h * cmp.weight;
      assert (a.h - b.h) * cmp.weight == 0.0;
    }
  }

  /**
   * With weight 1 and f == g + h, the weighted comparator ranks by f like
   * FValueComparator but breaks ties between equal f values the other way round:
   * the larger h, that is the smaller g, first.
   */
  lemma UnitWeightReversesTieBreak(a: Costs, b: Costs)
    requires a.Consistent() && b.Consistent()
    requires a.f == b.f
    ensures WeightedFValueComparator(1.0).Compare(a, b) == -FValueCompare(a, b)
  {
  }

  lemma WeightedCompareIsOrder(cmp: WeightedFValueComparator)
    ensures forall a: Costs, b: Costs :: cmp.Compare(a, b) == -cmp.Compare(b, a)
    ensures TotalPreorder(cmp.Compare)
  {
  }

  // ---------------------------------------------------------------- Greedy CBS counters

  /**
   * The three counters a Greedy CBS state reports: the size of its conflict queue, the
   * number of conflicts found, and the number of conflicting pairs.
   */
  datatype ConflictCounts = ConflictCounts(agentsConflicts: real, conflicts: real, pairs: real)

  /** AgentConflictComparator: the shorter conflict queue first. */
  function AgentConflictCompare(a: ConflictCounts, b: ConflictCounts): (r: int)
    ensures r == -1 <==> a.agentsConflicts < b.agentsConflicts
    ensures r == 0 <==> a.agentsConflicts == b.agentsConflicts
    ensures r == 1 <==> a.agentsConflicts > b.agentsConflicts
  {
    if a.agentsConflicts < b.agentsConflicts then -1
    else if a.agentsConflicts == b.agentsConflicts then 0
    else 1
  }

  /** ConflictCountComparator: the fewer conflicts first. */
  function ConflictCountCompare(a: ConflictCounts, b: ConflictCounts): (r: int)
    ensures r == -1 <==> a.conflicts < b.conflicts
    ensures r == 0 <==> a.conflicts == b.conflicts
    ensures r == 1 <==> a.conflicts > b.conflicts
  {
    if a.conflicts < b.conflicts then -1 else if a.conflicts == b.conflicts then 0 else 1
  }

  /** PairCountComparator: the fewer conflicting pairs first. */
  function PairCountCompare(a: ConflictCounts, b: ConflictCounts): (r: int)
    ensures r == -1 <==> a.pairs < b.pairs
    ensures r == 0 <==> a.pairs == b.pairs
    ensures r == 1 <==> a.pairs > b.pairs
  {
    if a.pairs < b.pairs then -1 else if a.pairs == b.pairs then 0 else 1
  }

  lemma CountComparatorsAreOrders()
    ensures TotalPreorder(AgentConflictCompare)
    ensures TotalPreorder(ConflictCountCompare)
    ensures TotalPreorder(PairCountCompare)
  {
  }

  // ---------------------------------------------------------------- AgentPathStartTimeComparator

  /**
   * AgentPathStartTimeComparator as written: both start times are read from the first
   * agent, so the two times are always equal and the result is always 1.
   */
  function StartTimeCompareAsWritten(a: Agent, b: Agent): (r: int)
    ensures r == 1
  {
    var t1 := a.path.startTimestep;
    var t2 := a.path.startTimestep;
    if t1 < t2 then 1 else if t1 > t2 then -1 else 1
  }

  /**
   * The comparison the constructor of ODStarSearch relies on ("start with the agent with
   * min start time"): the earlier start first, never 0.
   */
  function StartTimeCompare(a: Agent, b: Agent): (r: int)
    ensures r == -1 <==> a.path.startTimestep < b.path.startTimestep
    ensures r == 1 <==> a.path.startTimestep >= b.path.startTimestep
  {
    if a.path.startTimestep < b.path.startTimestep then -1 else 1
  }

  /** As written, every agent ranks above every other agent, itself included. */
  lemma StartTimeAsWrittenNotAntisymmetric(a: Agent, b: Agent)
    ensures StartTimeCompareAsWritten(a, b) == StartTimeCompareAsWritten(b, a) == 1
    ensures StartTimeCompareAsWritten(a, a) != 0
  {
  }

  // ---------------------------------------------------------------- Collections.min

  /** The candidate Collections.min holds after scanning `xs` from the front. */
  function MinScan<T>(xs: seq<T>, cmp: (T, T) -> int): T
    requires |xs| > 0
    decreases |xs|
  {
    if |xs| == 1 then xs[0]
    else
      var m := MinScan(xs[..|xs| - 1], cmp);
      if cmp(xs[|xs| - 1], m) < 0 then xs[|xs| - 1] else m
  }

  /** Collections.min: keep the first element, replace it by any later one that ranks lower. */
  method CollectionsMin<T>(xs: seq<T>, cmp: (T, T) -> int) returns (m: T)
    requires |xs| > 0
    ensures m == MinScan(xs, cmp)
    ensures m in xs
  {
    m := xs[0];
    var i := 1;
    while i < |xs|
      invariant 1 <= i <= |xs|
      invariant m == MinScan(xs[..i], cmp)
      invariant m in xs[..i]
    {
      assert xs[..i + 1][..i] == xs[..i];
      if cmp(xs[i], m) < 0 {
        m := xs[i];
      }
      i := i + 1;
    }
    assert xs[..|xs|] == xs;
  }

  /** With the comparator as written, Collections.min returns whatever agent comes first. */
  lemma {:induction false} MinScanAsWrittenIsFirst(xs: seq<Agent>)
    requires |xs| > 0
    ensures MinScan(xs, StartTimeCompareAsWritten) == xs[0]
    decreases |xs|
  {
    if |xs| > 1 {
      MinScanAsWrittenIsFirst(xs[..|xs| - 1]);
    }
  }

  /** With the intended comparator, Collections.min returns an agent with the earliest start. */
  lemma {:induction false} MinScanIsEarliest(xs: seq<Agent>)
    requires |xs| > 0
    ensures MinScan(xs, StartTimeCompare) in xs
    ensures forall x :: x in xs ==>
              MinScan(xs, StartTimeCompare).path.startTimestep <= x.path.startTimestep
    decreases |xs|
  {
    if |xs| > 1 {
      var front := xs[..|xs| - 1];
      MinScanIsEarliest(front);
      assert xs == front + [xs[|xs| - 1]];
    }
  }
}

/**
 * The states of Conflict-Based Search (CBSState.java) and of its two subclasses,
 * GreedyCBSState.java and ECBSState.java. A state holds one path per agent, the queue of
 * conflicts between those paths with the earliest conflict taken out, and the claimed moves
 * its agent was replanned around. The subclass a state belongs to is its `variant`, which
 * carries the fields the subclass adds; the overridden methods dispatch on it.
 */
module CBS {
  import opened Wrappers
  import opened Geometry
  import opened Conflicts
  import opened Trees
  import opened CBSQueue
  import opened GreedyCBS
  import opened ECBS
  import Queues
  import opened Comparators

  /** The subclass of a state, with its own fields. */
  datatype Variant =
    | Plain
    | Greedy(allConflicts: seq<AgentConflictValue>, totalConflicts: int, totalPairs: real)
    | Enhanced(fMin: seq<real>, lowerBound: real, weight: real)

  /**
   * A CBS state. `agent` is the agent replanned to make it (None at the root), `earliest`
   * the conflict taken out of the queue (None when the paths are free of conflicts).
   */
  datatype CBSState = CBSState(costs: Costs, totalCost: real, paths: seq<Path>,
                               earliest: Option<AgentConflictValue>, conflicts: ConflictQueue,
                               agentObstacles: ObstacleTable, agent: Option<Agent>,
                               variant: Variant)

  /**
   * What the states work with besides themselves. `agents` is the search's agent list: it
   * resolves the agents that conflicts and shared time intervals name. `detect` is
   * ConflictDetection.checkPathConflict: the conflicts between two paths, given the flag
   * its last argument carries. `replan` runs the single-agent planner for one agent around
   * the given claimed moves with the given weight; None when it throws
   * SolutionNotFoundException or TimeoutException. `heuristic` is calcHeuristic on a
   * state, and `obstacles` the claimed moves of the search's map.
   */
  datatype CBSSetting = CBSSetting(
    agents: seq<Agent>,
    detect: (Path, Path, bool) -> seq<AgentConflictValue>,
    replan: (Agent, ObstacleTable, real) -> Option<Path>,
    heuristic: CBSState -> real,
    obstacles: ObstacleTable)

  // ---------------------------------------------------------------- counting conflicts

  /** getNumberOfConflicts: the queued conflicts, plus the earliest one when there is one. */
  function NumberOfConflicts(s: CBSState): nat
  {
    |s.conflicts| + if s.earliest.Some? then 1 else 0
  }

  /** compareTo: the state with fewer conflicts first. */
  function CompareTo(a: CBSState, b: CBSState): int
  {
    if NumberOfConflicts(a) < NumberOfConflicts(b) then -1
    else if NumberOfConflicts(a) > NumberOfConflicts(b) then 1
    else 0
  }

  /** calculateDistance: how far apart the two numbers of conflicts are. */
  function Distance(a: CBSState, b: CBSState): nat
  {
    if NumberOfConflicts(a) <= NumberOfConflicts(b) then NumberOfConflicts(b) - NumberOfConflicts(a)
    else NumberOfConflicts(a) - NumberOfConflicts(b)
  }

  /**
   * compareTo orders states by their numbers of conflicts: it is antisymmetric, ranks
   * every pair and ranks transitively; it finds two states equal exactly when their
   * distance is zero, and the distance is symmetric and obeys the triangle inequality.
   */
  lemma CompareToRule(a: CBSState, b: CBSState, c: CBSState)
    ensures CompareTo(a, b) == -CompareTo(b, a)
    ensures CompareTo(a, b) < 0 <==> NumberOfConflicts(a) < NumberOfConflicts(b)
    ensures CompareTo(a, b) <= 0 && CompareTo(b, c) <= 0 ==> CompareTo(a, c) <= 0
    ensures CompareTo(a, b) == 0 <==> Distance(a, b) == 0
    ensures Distance(a, b) == Distance(b, a)
    ensures Distance(a, c) <= Distance(a, b) + Distance(b, c)
  {
  }

  /**
   * clone: the costs, total cost, queue, claimed moves, agent, paths and earliest conflict
   * are copied, but into a plain CBSState, since neither subclass overrides it: a Greedy
   * CBS or ECBS state loses its own fields.
   */
  function Clone(s: CBSState): (r: CBSState)
    ensures r.variant == Plain && r.(variant := s.variant) == s
    ensures NumberOfConflicts(r) == NumberOfConflicts(s) && CompareTo(r, s) == 0
  {
    s.(variant := Plain)
  }

  // ---------------------------------------------------------------- finding conflicts

  /** A partner whose path conflicts with the agent's: its id and all that detection found. */
  datatype Hit = Hit(partner: AgentId, found: seq<AgentConflictValue>)

  /**
   * The partner with this id takes part in findConflict's search: it is in the agent list,
   * its index is at least `index`, and detection finds a conflict with its path.
   */
  predicate Conflicting(st: CBSSetting, path: Path, id: AgentId, index: int, flag: bool)
  {
    match AgentById(st.agents, id)
    case None => false
    case Some(j) => j.index >= index && st.detect(path, j.path, flag) != []
  }

  /**
   * findConflict's search: for each partner of the shared time interval in turn, when it
   * takes part, what detection finds between `path` and the partner's own path.
   */
  function Hits(st: CBSSetting, path: Path, shared: seq<AgentId>, index: int, flag: bool): (r: seq<Hit>)
    ensures |r| <= |shared|
    ensures HitsHaveConflicts(r)
    decreases |shared|
  {
    if shared == [] then []
    else
      var rest := Hits(st, path, shared[..|shared| - 1], index, flag);
      var id := shared[|shared| - 1];
      if Conflicting(st, path, id, index, flag) then
        rest + [Hit(id, st.detect(path, AgentById(st.agents, id).value.path, flag))]
      else rest
  }

  /**
   * Every hit is a partner of the interval that takes part, with what detection found; and
   * every partner of the interval that takes part is hit.
   */
  lemma {:induction false} HitsRule(st: CBSSetting, path: Path, shared: seq<AgentId>, index: int, flag: bool)
    ensures forall h :: h in Hits(st, path, shared, index, flag) ==>
              && h.partner in shared && Conflicting(st, path, h.partner, index, flag)
              && h.found == st.detect(path, AgentById(st.agents, h.partner).value.path, flag)
              && h.found != []
    ensures forall id :: id in shared && Conflicting(st, path, id, index, flag) ==>
              exists h :: h in Hits(st, path, shared, index, flag) && h.partner == id
    decreases |shared|
  {
    if shared != [] {
      var init := shared[..|shared| - 1];
      HitsRule(st, path, init, index, flag);
      assert shared == init + [shared[|shared| - 1]];
    }
  }

  /** The earliest conflict of each hit: what the base findConflict adds to the queue. */
  function Firsts(hits: seq<Hit>): (r: ConflictQueue)
    requires HitsHaveConflicts(hits)
    ensures |r| == |hits|
    decreases |hits|
  {
    if hits == [] then [] else Firsts(hits[..|hits| - 1]) + [hits[|hits| - 1].found[0]]
  }

  /** Every conflict of every hit, in order: what Greedy CBS adds to allConflicts. */
  function Flatten(hits: seq<Hit>): seq<AgentConflictValue>
    decreases |hits|
  {
    if hits == [] then [] else Flatten(hits[..|hits| - 1]) + hits[|hits| - 1].found
  }

  /** Each hit recorded as a pair with the agent, in order. */
  function Recorded(pairs: PairTable, id: AgentId, hits: seq<Hit>): PairTable
    decreases |hits|
  {
    if hits == [] then pairs
    else Paired(Recorded(pairs, id, hits[..|hits| - 1]), id, hits[|hits| - 1].partner)
  }

  /** Recording pairs with partners other than the agent keeps the table symmetric. */
  lemma {:induction false} RecordedSymmetric(pairs: PairTable, id: AgentId, hits: seq<Hit>)
    requires Symmetric(pairs)
    requires forall h :: h in hits ==> h.partner != id
    ensures Symmetric(Recorded(pairs, id, hits))
    ensures forall h :: h in hits ==> h.partner in Partners(Recorded(pairs, id, hits), id)
    decreases |hits|
  {
    if hits != [] {
      var init := hits[..|hits| - 1];
      assert forall h :: h in init ==> h in hits;
      RecordedSymmetric(pairs, id, init);
      PairedRule(Recorded(pairs, id, init), id, hits[|hits| - 1].partner);
    }
  }

  /** The search findConflict runs for an agent, with the flag the state's class passes. */
  function HitsFor(st: CBSSetting, s: CBSState, agentI: Agent, index: int): seq<Hit>
    requires 0 <= agentI.index < |s.paths|
  {
    Hits(st, s.paths[agentI.index], agentI.sharedTime, index, !s.variant.Greedy?)
  }

  /**
   * findConflict for `agentI` against its partners of index at least `index`. CBS and ECBS
   * queue the earliest conflict with each partner hit. Greedy CBS also drops the conflicts
   * of the replanned agent from allConflicts and the agent's pairs from the shared table,
   * then queues the same conflicts, appends all of them to allConflicts and records the
   * pairs. At the root, where no agent was replanned, nothing is dropped (see
   * FindConflictAsWritten). Gives the state and the shared pair table.
   */
  function FindConflict(st: CBSSetting, s: CBSState, agentI: Agent, index: int, pairs: PairTable)
    : (r: (CBSState, PairTable))
    requires 0 <= agentI.index < |s.paths|
    ensures r.0.costs == s.costs && r.0.totalCost == s.totalCost && r.0.paths == s.paths
    ensures r.0.earliest == s.earliest && r.0.agentObstacles == s.agentObstacles && r.0.agent == s.agent
    ensures r.0.variant.Greedy? == s.variant.Greedy?
    ensures r.0.variant.Enhanced? ==> r.0.variant == s.variant
    ensures !s.variant.Greedy? ==> r.1 == pairs
  {
    var hits := HitsFor(st, s, agentI, index);
    HitsRule(st, s.paths[agentI.index], agentI.sharedTime, index, !s.variant.Greedy?);
    var queue := s.conflicts + Firsts(hits);
    match s.variant
    case Greedy(all, total, totalPairs) =>
      var kept := if s.agent.Some? then WithoutAgent(all, s.agent.value.id) else all;
      var table := if s.agent.Some? then Dropped(pairs, agentI.id) else pairs;
      (s.(conflicts := queue, variant := Greedy(kept + Flatten(hits), total, totalPairs)),
       Recorded(table, agentI.id, hits))
    case _ => (s.(conflicts := queue), pairs)
  }

  /**
   * findConflict as written for Greedy CBS: it drops the conflicts of `_agent` whatever the
   * state, and `_agent` is null at the root, so the call throws a NullPointerException
   * (None) as soon as allConflicts holds a conflict there.
   */
  function FindConflictAsWritten(st: CBSSetting, s: CBSState, agentI: Agent, index: int,
                                 pairs: PairTable): (r: Option<(CBSState, PairTable)>)
    requires 0 <= agentI.index < |s.paths|
    ensures r.None? <==> s.variant.Greedy? && s.agent.None? && s.variant.allConflicts != []
    ensures r.Some? ==> r.value.0.paths == s.paths && r.value.0.agent == s.agent
    ensures r.Some? ==> r.value.0.variant.Greedy? == s.variant.Greedy?
  {
    var hits := HitsFor(st, s, agentI, index);
    HitsRule(st, s.paths[agentI.index], agentI.sharedTime, index, !s.variant.Greedy?);
    var queue := s.conflicts + Firsts(hits);
    match s.variant
    case Greedy(all, total, totalPairs) =>
      if s.agent.None? && all != [] then None
      else
        var kept := if s.agent.Some? then WithoutAgent(all, s.agent.value.id) else all;
        Some((s.(conflicts := queue, variant := Greedy(kept + Flatten(hits), total, totalPairs)),
              Recorded(Dropped(pairs, agentI.id), agentI.id, hits)))
    case _ => Some((s.(conflicts := queue), pairs))
  }

  /** What one partner adds to findConflict's search. */
  function HitOf(st: CBSSetting, path: Path, id: AgentId, index: int, flag: bool): (r: seq<Hit>)
    ensures |r| <= 1 && HitsHaveConflicts(r)
  {
    if Conflicting(st, path, id, index, flag) then
      [Hit(id, st.detect(path, AgentById(st.agents, id).value.path, flag))]
    else []
  }

  /** The search over one more partner adds that partner's hit. */
  lemma HitsSnoc(st: CBSSetting, path: Path, shared: seq<AgentId>, i: int, index: int, flag: bool)
    requires 0 <= i < |shared|
    ensures Hits(st, path, shared[..i + 1], index, flag)
            == Hits(st, path, shared[..i], index, flag) + HitOf(st, path, shared[i], index, flag)
  {
    assert shared[..i + 1][..i] == shared[..i];
  }

  /** The earliest conflict of a hit, if there is one: what the base findConflict queues. */
  function FirstOf(more: seq<Hit>): ConflictQueue
    requires HitsHaveConflicts(more)
  {
    if more == [] then [] else [more[0].found[0]]
  }

  /** Every conflict of a hit, if there is one: what Greedy CBS appends to allConflicts. */
  function AllOf(more: seq<Hit>): seq<AgentConflictValue>
  {
    if more == [] then [] else more[0].found
  }

  /** The pair of a hit recorded, if there is one. */
  function PairOf(pairs: PairTable, id: AgentId, more: seq<Hit>): PairTable
  {
    if more == [] then pairs else Paired(pairs, id, more[0].partner)
  }

  /** Queueing the earliest conflict of one more hit. */
  lemma FirstsAppend(hits: seq<Hit>, more: seq<Hit>)
    requires HitsHaveConflicts(hits) && HitsHaveConflicts(more) && |more| <= 1
    ensures HitsHaveConflicts(hits + more)
    ensures Firsts(hits + more) == Firsts(hits) + FirstOf(more)
  {
    if more != [] {
      assert (hits + more)[..|hits + more| - 1] == hits;
    } else {
      assert hits + more == hits;
    }
  }

  /** Appending all conflicts of one more hit. */
  lemma FlattenAppend(hits: seq<Hit>, more: seq<Hit>)
    requires |more| <= 1
    ensures Flatten(hits + more) == Flatten(hits) + AllOf(more)
  {
    if more != [] {
      assert (hits + more)[..|hits + more| - 1] == hits;
    } else {
      assert hits + more == hits;
    }
  }

  /** Recording the pair of one more hit. */
  lemma RecordedAppend(pairs: PairTable, id: AgentId, hits: seq<Hit>, more: seq<Hit>)
    requires |more| <= 1
    ensures Recorded(pairs, id, hits + more) == PairOf(Recorded(pairs, id, hits), id, more)
  {
    if more != [] {
      assert (hits + more)[..|hits + more| - 1] == hits;
    } else {
      assert hits + more == hits;
    }
  }

  /** The queue after one more partner of the interval. */
  lemma FirstsStep(st: CBSSetting, path: Path, shared: seq<AgentId>, i: int, index: int, flag: bool,
                   queue: ConflictQueue)
    requires 0 <= i < |shared|
    ensures queue + Firsts(Hits(st, path, shared[..i + 1], index, flag))
            == queue + Firsts(Hits(st, path, shared[..i], index, flag)) + FirstOf(HitOf(st, path, shared[i], index, flag))
  {
    HitsSnoc(st, path, shared, i, index, flag);
    FirstsAppend(Hits(st, path, shared[..i], index, flag), HitOf(st, path, shared[i], index, flag));
  }

  /** allConflicts after one more partner of the interval. */
  lemma FlattenStep(st: CBSSetting, path: Path, shared: seq<AgentId>, i: int, index: int, flag: bool,
                    all: seq<AgentConflictValue>)
    requires 0 <= i < |shared|
    ensures all + Flatten(Hits(st, path, shared[..i + 1], index, flag))
            == all + Flatten(Hits(st, path, shared[..i], index, flag)) + AllOf(HitOf(st, path, shared[i], index, flag))
  {
    HitsSnoc(st, path, shared, i, index, flag);
    FlattenAppend(Hits(st, path, shared[..i], index, flag), HitOf(st, path, shared[i], index, flag));
  }

  /** The pair table after one more partner of the interval. */
  lemma RecordedStep(st: CBSSetting, path: Path, shared: seq<AgentId>, i: int, index: int, flag: bool,
                     pairs: PairTable, id: AgentId)
    requires 0 <= i < |shared|
    ensures Recorded(pairs, id, Hits(st, path, shared[..i + 1], index, flag))
            == PairOf(Recorded(pairs, id, Hits(st, path, shared[..i], index, flag)), id,
                      HitOf(st, path, shared[i], index, flag))
  {
    HitsSnoc(st, path, shared, i, index, flag);
    RecordedAppend(pairs, id, Hits(st, path, shared[..i], index, flag), HitOf(st, path, shared[i], index, flag));
  }

  /**
   * The base findConflict: the queue gains, in partner order, the earliest conflict with
   * each partner whose path conflicts with the agent's.
   */
  method FindConflictLoop(st: CBSSetting, queue: ConflictQueue, path: Path, shared: seq<AgentId>,
                          index: int) returns (q: ConflictQueue)
    ensures q == queue + Firsts(Hits(st, path, shared, index, true))
  {
    q := queue;
    var i := 0;
    while i < |shared|
      invariant 0 <= i <= |shared|
      invariant q == queue + Firsts(Hits(st, path, shared[..i], index, true))
    {
      FirstsStep(st, path, shared, i, index, true, queue);
      var more := HitOf(st, path, shared[i], index, true);
      if more != [] {
        q := q + [more[0].found[0]];
      }
      i := i + 1;
    }
    assert shared[..|shared|] == shared;
  }

  /** Every hit found something. */
  predicate HitsHaveConflicts(hits: seq<Hit>)
  {
    forall h :: h in hits ==> h.found != []
  }

  /** The loop that adds each conflict detection found to allConflicts. */
  method AddAll(all: seq<AgentConflictValue>, found: seq<AgentConflictValue>)
    returns (a: seq<AgentConflictValue>)
    ensures a == all + found
  {
    a := all;
    var k := 0;
    while k < |found|
      invariant 0 <= k <= |found|
      invariant a == all + found[..k]
    {
      assert found[..k + 1] == found[..k] + [found[k]];
      a := a + [found[k]];
      k := k + 1;
    }
    assert found[..k] == found;
  }

  /**
   * Greedy CBS's findConflict on the lists and the shared table: the replanned agent's
   * conflicts leave allConflicts and its pairs leave the table (only when some agent was
   * replanned), then for each partner hit the earliest conflict is queued, every conflict
   * appended to allConflicts, and the pair recorded both ways.
   */
  method GreedyFindConflictLoop(st: CBSSetting, queue: ConflictQueue, all: seq<AgentConflictValue>,
                                pairs: PairTable, path: Path, agentI: Agent, index: int,
                                replanned: Option<AgentId>)
    returns (q: ConflictQueue, a: seq<AgentConflictValue>, p: PairTable)
    requires replanned.Some? ==> Droppable(pairs, agentI.id)
    ensures q == queue + Firsts(Hits(st, path, agentI.sharedTime, index, false))
    ensures a == (if replanned.Some? then WithoutAgent(all, replanned.value) else all)
                 + Flatten(Hits(st, path, agentI.sharedTime, index, false))
    ensures p == Recorded(if replanned.Some? then Dropped(pairs, agentI.id) else pairs, agentI.id,
                          Hits(st, path, agentI.sharedTime, index, false))
  {
    var a0, p0 := all, pairs;
    if replanned.Some? {
      a0 := RemoveAgentConflicts(all, replanned.value);
      p0 := DropAgent(pairs, agentI.id);
    }
    q, a, p := GreedyScan(st, queue, a0, p0, path, agentI.id, agentI.sharedTime, index);
  }

  /** The scan of Greedy CBS's findConflict over the partners of the interval. */
  method GreedyScan(st: CBSSetting, queue: ConflictQueue, all: seq<AgentConflictValue>,
                    pairs: PairTable, path: Path, id: AgentId, shared: seq<AgentId>, index: int)
    returns (q: ConflictQueue, a: seq<AgentConflictValue>, p: PairTable)
    ensures q == queue + Firsts(Hits(st, path, shared, index, false))
    ensures a == all + Flatten(Hits(st, path, shared, index, false))
    ensures p == Recorded(pairs, id, Hits(st, path, shared, index, false))
  {
    q, a, p := queue, all, pairs;
    var i := 0;
    while i < |shared|
      invariant 0 <= i <= |shared|
      invariant q == queue + Firsts(Hits(st, path, shared[..i], index, false))
      invariant a == all + Flatten(Hits(st, path, shared[..i], index, false))
      invariant p == Recorded(pairs, id, Hits(st, path, shared[..i], index, false))
    {
      q, a, p := GreedyPartner(st, queue, all, pairs, q, a, p, path, id, shared, i, index);
      i := i + 1;
    }
    assert shared[..|shared|] == shared;
  }

  /** The body of Greedy CBS's scan, for the partner at position `i` of the interval. */
  method GreedyPartner(st: CBSSetting, queue: ConflictQueue, all: seq<AgentConflictValue>,
                       pairs: PairTable, q0: ConflictQueue, a0: seq<AgentConflictValue>,
                       p0: PairTable, path: Path, id: AgentId, shared: seq<AgentId>, i: int,
                       index: int)
    returns (q: ConflictQueue, a: seq<AgentConflictValue>, p: PairTable)
    requires 0 <= i < |shared|
    requires q0 == queue + Firsts(Hits(st, path, shared[..i], index, false))
    requires a0 == all + Flatten(Hits(st, path, shared[..i], index, false))
    requires p0 == Recorded(pairs, id, Hits(st, path, shared[..i], index, false))
    ensures q == queue + Firsts(Hits(st, path, shared[..i + 1], index, false))
    ensures a == all + Flatten(Hits(st, path, shared[..i + 1], index, false))
    ensures p == Recorded(pairs, id, Hits(st, path, shared[..i + 1], index, false))
  {
    FirstsStep(st, path, shared, i, index, false, queue);
    FlattenStep(st, path, shared, i, index, false, all);
    RecordedStep(st, path, shared, i, index, false, pairs, id);
    q, a, p := q0, a0, p0;
    var more := HitOf(st, path, shared[i], index, false);
    if more != [] {
      q := q + [more[0].found[0]];
      a := AddAll(a, more[0].found);
      p := Paired(p, id, more[0].partner);
    }
  }

  /** The body of findConflict on the state, by the state's class. */
  method FindConflictStep(st: CBSSetting, s: CBSState, agentI: Agent, index: int, pairs: PairTable)
    returns (r: CBSState, table: PairTable)
    requires 0 <= agentI.index < |s.paths|
    requires s.variant.Greedy? && s.agent.Some? ==> Droppable(pairs, agentI.id)
    ensures (r, table) == FindConflict(st, s, agentI, index, pairs)
  {
    var path := s.paths[agentI.index];
    match s.variant
    case Greedy(all, total, totalPairs) =>
      var replanned := if s.agent.Some? then Some(s.agent.value.id) else None;
      var q, a, p := GreedyFindConflictLoop(st, s.conflicts, all, pairs, path, agentI, index, replanned);
      r := s.(conflicts := q, variant := Greedy(a, total, totalPairs));
      table := p;
    case _ =>
      var q := FindConflictLoop(st, s.conflicts, path, agentI.sharedTime, index);
      r := s.(conflicts := q);
      table := pairs;
  }

  // ---------------------------------------------------------------- child states

  /**
   * The subclass fields of a new state (getNewState): Greedy CBS starts with no conflicts
   * and zero totals; ECBS keeps the weight and computes its path costs and their sum.
   */
  function NewVariant(s: CBSState): Variant
  {
    match s.variant
    case Plain => Plain
    case Greedy(_, _, _) => Greedy([], 0, 0.0)
    case Enhanced(_, _, weight) => Enhanced(FMinOf(s.paths), Sum(FMinOf(s.paths)), weight)
  }

  /**
   * getNewState: g and f copied, h Double.MAX_VALUE, total cost Float.MAX_VALUE, the
   * parent's paths, the given claimed moves, queue and agent, and no earliest conflict.
   */
  function NewState(s: CBSState, obstacles: ObstacleTable, conflicts: ConflictQueue, agent: Agent): CBSState
  {
    CBSState(Costs(s.costs.g, DOUBLE_MAX, s.costs.f), FLOAT_MAX, s.paths, None, conflicts,
             obstacles, Some(agent), NewVariant(s))
  }

  /** The weight runAlgorithm hands to the planner: the ECBS weight, 0 otherwise. */
  function PlannerWeight(s: CBSState): real
  {
    if s.variant.Enhanced? then s.variant.weight else 0.0
  }

  /** setWaypoints(w, true) on an agent's path: the new waypoints, with their times and cost. */
  function Replaced(current: Path, next: Path): Path
  {
    current.(waypoints := next.waypoints, startTimestep := next.startTimestep,
             endTimestep := next.endTimestep, cost := next.cost)
  }

  /** updateHeuristicValue: h is set directly, and f keeps its value. */
  function Scored(st: CBSSetting, s: CBSState): CBSState
  {
    s.(costs := s.costs.(h := st.heuristic(s)))
  }

  /** The earliest conflict polled from the queue. */
  function Polled(s: CBSState): CBSState
  {
    var (earliest, rest) := Poll(s.conflicts);
    s.(earliest := earliest, conflicts := rest)
  }

  /**
   * findAgentConflict: the conflicts of the state's agent leave the queue, its conflicts
   * with every partner are searched for, h is brought up to date, and the earliest
   * conflict is polled.
   */
  function FindAgentConflict(st: CBSSetting, s: CBSState, pairs: PairTable): (r: (CBSState, PairTable))
    requires s.agent.Some? && 0 <= s.agent.value.index < |s.paths|
    ensures r.0.agent == s.agent && r.0.paths == s.paths
  {
    var agent := s.agent.value;
    var (found, table) := FindConflict(st, s.(conflicts := WithoutAgent(s.conflicts, agent.id)), agent, 0, pairs);
    (Polled(Scored(st, found)), table)
  }

  /**
   * otherUpdateds: Greedy CBS counts allConflicts and the recorded pairs; ECBS recomputes
   * its path costs and their sum.
   */
  function OtherUpdates(s: CBSState, pairs: PairTable): CBSState
  {
    match s.variant
    case Plain => s
    case Greedy(all, _, _) => s.(variant := Greedy(all, |all|, TotalPairs(pairs)))
    case Enhanced(_, _, weight) => s.(variant := Enhanced(FMinOf(s.paths), Sum(FMinOf(s.paths)), weight))
  }

  /** The agent a child replans and the move it must avoid: child 1 agent1 and location2. */
  function Constrained(c: AgentConflictValue, first: bool): (AgentId, PathLine)
  {
    if first then (c.agent1, c.location2) else (c.agent2, c.location1)
  }

  /** The claimed moves of the map the planner runs on: the map's, the new one, the state's. */
  function Claimed(st: CBSSetting, s: CBSState, timestep: int, line: PathLine): ObstacleTable
  {
    MergeObstacles(AddObstacle(st.obstacles, timestep, line), s.agentObstacles)
  }

  /**
   * The agent can be replanned in the state: it is in the agent list, the state holds a
   * path it owns, and its index names a path.
   */
  predicate Resolves(st: CBSSetting, s: CBSState, id: AgentId)
  {
    && AgentById(st.agents, id).Some?
    && PathIndex(s.paths, id).Some?
    && 0 <= AgentById(st.agents, id).value.index < |s.paths|
  }

  /** The agent a child replans, as the agent list holds it. */
  function ChildAgent(st: CBSSetting, s: CBSState, first: bool): Agent
    requires s.earliest.Some? && Resolves(st, s, Constrained(s.earliest.value, first).0)
  {
    AgentById(st.agents, Constrained(s.earliest.value, first).0).value
  }

  /** What the planner finds for that agent around the claimed moves, the new one included. */
  function ChildPath(st: CBSSetting, s: CBSState, first: bool): Option<Path>
    requires s.earliest.Some? && Resolves(st, s, Constrained(s.earliest.value, first).0)
  {
    var (id, line) := Constrained(s.earliest.value, first);
    st.replan(ChildAgent(st, s, first), Claimed(st, s, s.earliest.value.timestep, line), PlannerWeight(s))
  }

  /**
   * The child before its conflicts are searched for: getNewState with the state's claimed
   * moves and the new one, the queue without the agent's conflicts and the replanned
   * agent, whose path then replaces the one it owns.
   */
  function Prepared(st: CBSSetting, s: CBSState, first: bool, path: Path): (r: CBSState)
    requires s.earliest.Some? && Resolves(st, s, Constrained(s.earliest.value, first).0)
    ensures r.agent == Some(ChildAgent(st, s, first).(path := path))
    ensures 0 <= r.agent.value.index < |r.paths|
  {
    var c := s.earliest.value;
    var (id, line) := Constrained(c, first);
    var k := PathIndex(s.paths, id).value;
    var made := NewState(s, AddObstacle(s.agentObstacles, c.timestep, line), WithoutAgent(s.conflicts, id),
                         ChildAgent(st, s, first).(path := path));
    made.(paths := s.paths[k := Replaced(s.paths[k], path)])
  }

  /** The rest of createChildState: findAgentConflict, then otherUpdateds. */
  function Finished(st: CBSSetting, b: CBSState, pairs: PairTable): (r: (CBSState, PairTable))
    requires b.agent.Some? && 0 <= b.agent.value.index < |b.paths|
    ensures r.0.agent == b.agent && r.0.paths == b.paths
  {
    var (found, table) := FindAgentConflict(st, b, pairs);
    (OtherUpdates(found, table), table)
  }

  /**
   * createChildState: the move of the other agent at the conflict's timestep is added to a
   * copy of the state's claimed moves, the agent is replanned around them, and the new
   * state takes its path, finds the agent's conflicts and performs the other updates.
   * None when the planner fails (Java's null) or the agent cannot be resolved.
   */
  function CreateChildState(st: CBSSetting, s: CBSState, first: bool, pairs: PairTable)
    : Option<(CBSState, PairTable)>
    requires s.earliest.Some?
  {
    if !Resolves(st, s, Constrained(s.earliest.value, first).0) then None
    else
      match ChildPath(st, s, first)
      case None => None
      case Some(path) => Some(Finished(st, Prepared(st, s, first, path), pairs))
  }

  /** The state a child option holds, as a list. */
  function Children(child: Option<(CBSState, PairTable)>): seq<CBSState>
  {
    if child.Some? then [child.value.0] else []
  }

  /**
   * expand: child 1, then child 2, each kept only when it was created; the pair table
   * passes from the first to the second. A state without an earliest conflict has none.
   */
  function Expand(st: CBSSetting, s: CBSState, pairs: PairTable): (r: (seq<CBSState>, PairTable))
  {
    if s.earliest.None? then ([], pairs)
    else
      var one := CreateChildState(st, s, true, pairs);
      var mid := if one.Some? then one.value.1 else pairs;
      var two := CreateChildState(st, s, false, mid);
      (Children(one) + Children(two), if two.Some? then two.value.1 else mid)
  }

  // ---------------------------------------------------------------- properties of children

  /** The polled conflict as a multiset: empty when there is none. */
  function Earliest(s: CBSState): multiset<AgentConflictValue>
  {
    if s.earliest.Some? then multiset{s.earliest.value} else multiset{}
  }

  /**
   * findAgentConflict leaves, in the queue together with the polled conflict, exactly the
   * conflicts of the other agents and the earliest conflict with each partner hit; the
   * polled conflict is a least one of them, and there is none only when there are none.
   * Paths, claimed moves, agent, g, f and the total cost stay as they were.
   */
  lemma FindAgentConflictRule(st: CBSSetting, s: CBSState, pairs: PairTable)
    requires s.agent.Some? && 0 <= s.agent.value.index < |s.paths|
    ensures var r := FindAgentConflict(st, s, pairs).0;
            var queue := WithoutAgent(s.conflicts, s.agent.value.id) + Firsts(HitsFor(st, s, s.agent.value, 0));
            && multiset(r.conflicts) + Earliest(r) == multiset(queue)
            && (r.earliest.None? <==> queue == [])
            && (r.earliest.Some? ==> Queues.IsMin(r.earliest.value, multiset(queue), ConflictCompare))
    ensures var r := FindAgentConflict(st, s, pairs).0;
            && r.paths == s.paths && r.agentObstacles == s.agentObstacles && r.agent == s.agent
            && r.costs.g == s.costs.g && r.costs.f == s.costs.f && r.totalCost == s.totalCost
            && r.variant.Greedy? == s.variant.Greedy? && (r.variant.Enhanced? ==> r.variant == s.variant)
    ensures !s.variant.Greedy? ==> FindAgentConflict(st, s, pairs).1 == pairs
  {
    var agent := s.agent.value;
    var found := FindConflict(st, s.(conflicts := WithoutAgent(s.conflicts, agent.id)), agent, 0, pairs).0;
    PollRule(Scored(st, found).conflicts);
  }

  /**
   * A child is created only for an agent that resolves; for such an agent, exactly when
   * the planner finds a path around the claimed moves (a failed search gives no child).
   */
  lemma ChildExists(st: CBSSetting, s: CBSState, first: bool, pairs: PairTable)
    requires s.earliest.Some?
    ensures var (id, line) := Constrained(s.earliest.value, first);
            && (CreateChildState(st, s, first, pairs).Some? ==> Resolves(st, s, id))
            && (Resolves(st, s, id) ==>
                  (CreateChildState(st, s, first, pairs).Some? <==>
                   st.replan(AgentById(st.agents, id).value, Claimed(st, s, s.earliest.value.timestep, line),
                             PlannerWeight(s)).Some?))
  {
  }

  /**
   * A child of a conflict replans one of its two agents: agent1 avoiding location2 in the
   * first child, agent2 avoiding location1 in the second. Its claimed moves are the
   * parent's with that move added at the conflict's timestep; only the agent's own path
   * changes, to the one the planner found; g and f are the parent's and the total cost is
   * Float.MAX_VALUE.
   */
  lemma ChildRule(st: CBSSetting, s: CBSState, first: bool, pairs: PairTable)
    requires s.earliest.Some? && CreateChildState(st, s, first, pairs).Some?
    ensures var c := s.earliest.value;
            var (id, line) := Constrained(c, first);
            var child := CreateChildState(st, s, first, pairs).value.0;
            && id == (if first then c.agent1 else c.agent2)
            && line == (if first then c.location2 else c.location1)
            && child.agentObstacles.Keys == s.agentObstacles.Keys + {c.timestep}
            && line in child.agentObstacles[c.timestep]
            && (forall t :: t in s.agentObstacles ==> s.agentObstacles[t] <= child.agentObstacles[t])
            && (forall t :: t in s.agentObstacles && t != c.timestep ==> child.agentObstacles[t] == s.agentObstacles[t])
            && child.costs.g == s.costs.g && child.costs.f == s.costs.f && child.totalCost == FLOAT_MAX
    ensures var c := s.earliest.value;
            var (id, line) := Constrained(c, first);
            var child := CreateChildState(st, s, first, pairs).value.0;
            var agent := AgentById(st.agents, id).value;
            var k := PathIndex(s.paths, id).value;
            && child.agent.Some? && child.agent.value == agent.(path := child.agent.value.path)
            && agent.id == id
            && st.replan(agent, Claimed(st, s, c.timestep, line), PlannerWeight(s)) == Some(child.agent.value.path)
            && |child.paths| == |s.paths| && s.paths[k].owner == id
            && child.paths[k] == Replaced(s.paths[k], child.agent.value.path)
            && (forall i :: 0 <= i < |s.paths| && i != k ==> child.paths[i] == s.paths[i])
  {
    var path := ChildPath(st, s, first).value;
    FindAgentConflictRule(st, Prepared(st, s, first, path), pairs);
  }

  /**
   * What findAgentConflict and otherUpdateds leave of a prepared child: its paths and
   * agent, and the conflicts as findAgentConflict leaves them.
   */
  lemma FinishedRule(st: CBSSetting, b: CBSState, pairs: PairTable)
    requires b.agent.Some? && 0 <= b.agent.value.index < |b.paths|
    ensures var child := Finished(st, b, pairs).0;
            var a := b.agent.value;
            var hits := HitsFor(st, b, a, 0);
            && child.paths == b.paths && child.agent == b.agent
            && multiset(child.conflicts) + Earliest(child) == multiset(WithoutAgent(b.conflicts, a.id)) + multiset(Firsts(hits))
            && (child.earliest.Some? ==>
                  Queues.IsMin(child.earliest.value, multiset(child.conflicts) + Earliest(child), ConflictCompare))
            && (child.earliest.None? <==> WithoutAgent(b.conflicts, a.id) == [] && hits == [])
  {
    FindAgentConflictRule(st, b, pairs);
  }

  /** otherUpdateds of ECBS: a prepared ECBS child ends with its path costs and their sum. */
  lemma FinishedECBS(st: CBSSetting, b: CBSState, pairs: PairTable)
    requires b.agent.Some? && 0 <= b.agent.value.index < |b.paths|
    requires b.variant.Enhanced?
    ensures Finished(st, b, pairs).0.variant == Enhanced(FMinOf(b.paths), Sum(FMinOf(b.paths)), b.variant.weight)
  {
    FindAgentConflictRule(st, b, pairs);
  }

  /**
   * findConflict and otherUpdateds of Greedy CBS on a new state: allConflicts holds every
   * conflict found, the totals count them and the pairs, and the table has traded the
   * agent's old pairs for its new ones.
   */
  lemma FinishedGreedy(st: CBSSetting, b: CBSState, pairs: PairTable)
    requires b.agent.Some? && 0 <= b.agent.value.index < |b.paths|
    requires b.variant == Greedy([], 0, 0.0)
    ensures var (child, table) := Finished(st, b, pairs);
            var a := b.agent.value;
            var hits := HitsFor(st, b, a, 0);
            && child.variant == Greedy(Flatten(hits), |Flatten(hits)|, TotalPairs(table))
            && table == Recorded(Dropped(pairs, a.id), a.id, hits)
  {
    var a := b.agent.value;
    var found := FindConflict(st, b.(conflicts := WithoutAgent(b.conflicts, a.id)), a, 0, pairs).0;
    assert WithoutAgent([], a.id) == [];
    assert found.variant == Greedy(Flatten(HitsFor(st, b, a, 0)), 0, 0.0);
  }

  /**
   * The conflicts of a child: its queue together with its polled conflict holds exactly
   * the parent's queued conflicts of the other agents and the earliest conflict with each
   * partner the replanned agent now conflicts with; the polled conflict is a least one of
   * them, and there is none (the child is a goal) only when there are none.
   */
  lemma ChildConflicts(st: CBSSetting, s: CBSState, first: bool, pairs: PairTable)
    requires s.earliest.Some? && CreateChildState(st, s, first, pairs).Some?
    ensures var (id, line) := Constrained(s.earliest.value, first);
            var child := CreateChildState(st, s, first, pairs).value.0;
            var agent := AgentById(st.agents, id).value;
            var hits := Hits(st, child.paths[agent.index], agent.sharedTime, 0, !s.variant.Greedy?);
            && |child.paths| == |s.paths|
            && multiset(child.conflicts) + Earliest(child)
               == multiset(WithoutAgent(s.conflicts, id)) + multiset(Firsts(hits))
            && (child.earliest.Some? ==>
                  Queues.IsMin(child.earliest.value, multiset(child.conflicts) + Earliest(child), ConflictCompare))
            && (child.earliest.None? <==> WithoutAgent(s.conflicts, id) == [] && hits == [])
  {
    var id := Constrained(s.earliest.value, first).0;
    FinishedRule(st, Prepared(st, s, first, ChildPath(st, s, first).value), pairs);
    RemoveAgentConflictsRule(s.conflicts, id);
  }

  /**
   * An ECBS child keeps the weight, holds the cost of each of its paths and their sum as
   * its lower bound, which moves from the parent's sum by the change in the replanned
   * agent's path cost.
   */
  lemma ECBSChildBound(st: CBSSetting, s: CBSState, first: bool, pairs: PairTable)
    requires s.variant.Enhanced?
    requires s.earliest.Some? && CreateChildState(st, s, first, pairs).Some?
    ensures var (id, line) := Constrained(s.earliest.value, first);
            var child := CreateChildState(st, s, first, pairs).value.0;
            var k := PathIndex(s.paths, id).value;
            && child.variant.Enhanced? && child.variant.weight == s.variant.weight
            && child.variant.fMin == FMinOf(child.paths)
            && child.variant.lowerBound == Sum(FMinOf(child.paths))
            && |child.paths| == |s.paths|
            && child.variant.lowerBound == Sum(FMinOf(s.paths)) - s.paths[k].cost + child.paths[k].cost
  {
    var id := Constrained(s.earliest.value, first).0;
    var b := Prepared(st, s, first, ChildPath(st, s, first).value);
    var k := PathIndex(s.paths, id).value;
    FinishedECBS(st, b, pairs);
    assert FMinOf(b.paths) == FMinOf(s.paths)[k := b.paths[k].cost];
    SumUpdate(FMinOf(s.paths), k, b.paths[k].cost);
  }

  /**
   * A Greedy CBS child holds in allConflicts every conflict found with every partner hit,
   * counts them, and counts the pairs of the shared table; the table has lost the
   * agent's old pairs and gained its new ones. When the agent is not its own partner, a
   * symmetric table stays symmetric and records the agent with every partner hit.
   */
  lemma GreedyChild(st: CBSSetting, s: CBSState, first: bool, pairs: PairTable)
    requires s.variant.Greedy?
    requires s.earliest.Some? && CreateChildState(st, s, first, pairs).Some?
    ensures var (id, line) := Constrained(s.earliest.value, first);
            var (child, table) := CreateChildState(st, s, first, pairs).value;
            var agent := AgentById(st.agents, id).value;
            var hits := Hits(st, child.paths[agent.index], agent.sharedTime, 0, false);
            && |child.paths| == |s.paths|
            && child.variant == Greedy(Flatten(hits), |Flatten(hits)|, TotalPairs(table))
            && table == Recorded(Dropped(pairs, id), id, hits)
            && (Symmetric(pairs) && id !in agent.sharedTime ==>
                  && Symmetric(table)
                  && forall h :: h in hits ==> h.partner in Partners(table, id))
  {
    var id := Constrained(s.earliest.value, first).0;
    var agent := AgentById(st.agents, id).value;
    var b := Prepared(st, s, first, ChildPath(st, s, first).value);
    FinishedGreedy(st, b, pairs);
    var hits := Hits(st, b.paths[agent.index], agent.sharedTime, 0, false);
    if Symmetric(pairs) && id !in agent.sharedTime {
      DroppedRule(pairs, id);
      HitsRule(st, b.paths[agent.index], agent.sharedTime, 0, false);
      RecordedSymmetric(Dropped(pairs, id), id, hits);
    }
  }

  /** No agent of the list shares a time interval with itself. */
  predicate NoSelfPartner(st: CBSSetting)
  {
    forall a :: a in st.agents ==> a.id !in a.sharedTime
  }

  /** The two child options expand tries, the second given the table the first leaves. */
  function Tried(st: CBSSetting, s: CBSState, pairs: PairTable)
    : (r: (Option<(CBSState, PairTable)>, Option<(CBSState, PairTable)>))
    requires s.earliest.Some?
    ensures Expand(st, s, pairs).0 == Children(r.0) + Children(r.1)
    ensures r.0 == CreateChildState(st, s, true, pairs)
    ensures r.1 == CreateChildState(st, s, false, if r.0.Some? then r.0.value.1 else pairs)
    ensures Expand(st, s, pairs).1 == if r.1.Some? then r.1.value.1 else if r.0.Some? then r.0.value.1 else pairs
  {
    var one := CreateChildState(st, s, true, pairs);
    (one, CreateChildState(st, s, false, if one.Some? then one.value.1 else pairs))
  }

  /**
   * expand gives at most two children, two exactly when both searches succeed, and none
   * for a state without an earliest conflict.
   */
  lemma ExpandCount(st: CBSSetting, s: CBSState, pairs: PairTable)
    ensures |Expand(st, s, pairs).0| <= 2
    ensures s.earliest.None? ==> Expand(st, s, pairs) == ([], pairs)
    ensures s.earliest.Some? ==>
              (|Expand(st, s, pairs).0| == 2 <==>
                 CreateChildState(st, s, true, pairs).Some? && CreateChildState(st, s, false, pairs).Some?)
  {
    if s.earliest.Some? {
      var (one, two) := Tried(st, s, pairs);
      ChildExists(st, s, false, pairs);
      ChildExists(st, s, false, if one.Some? then one.value.1 else pairs);
    }
  }

  /** Each child of expand replans one of the two agents of the earliest conflict. */
  lemma ExpandAgents(st: CBSSetting, s: CBSState, pairs: PairTable)
    requires s.earliest.Some?
    ensures forall child :: child in Expand(st, s, pairs).0 ==>
              child.agent.Some? && (child.agent.value.id == s.earliest.value.agent1
                                    || child.agent.value.id == s.earliest.value.agent2)
  {
    var (one, two) := Tried(st, s, pairs);
    ChildAgentId(st, s, true, pairs);
    ChildAgentId(st, s, false, if one.Some? then one.value.1 else pairs);
    forall child | child in Expand(st, s, pairs).0
      ensures child in Children(one) || child in Children(two)
    {
    }
  }

  /**
   * The shared pair table changes under expand only in Greedy CBS, and there a symmetric
   * table stays symmetric.
   */
  lemma ExpandTable(st: CBSSetting, s: CBSState, pairs: PairTable)
    ensures !s.variant.Greedy? ==> Expand(st, s, pairs).1 == pairs
    ensures s.variant.Greedy? && Symmetric(pairs) && NoSelfPartner(st) ==> Symmetric(Expand(st, s, pairs).1)
  {
    if s.earliest.Some? {
      var (one, two) := Tried(st, s, pairs);
      var mid := if one.Some? then one.value.1 else pairs;
      if one.Some? {
        ChildTable(st, s, true, pairs);
      }
      if two.Some? {
        ChildTable(st, s, false, mid);
      }
    }
  }

  /** A child's pair table: the parent's outside Greedy CBS, and symmetric when it was. */
  lemma ChildTable(st: CBSSetting, s: CBSState, first: bool, pairs: PairTable)
    requires s.earliest.Some? && CreateChildState(st, s, first, pairs).Some?
    ensures !s.variant.Greedy? ==> CreateChildState(st, s, first, pairs).value.1 == pairs
    ensures s.variant.Greedy? && Symmetric(pairs) && NoSelfPartner(st) ==>
              Symmetric(CreateChildState(st, s, first, pairs).value.1)
  {
    var b := Prepared(st, s, first, ChildPath(st, s, first).value);
    FindAgentConflictRule(st, b, pairs);
    if s.variant.Greedy? && Symmetric(pairs) && NoSelfPartner(st) {
      GreedyChild(st, s, first, pairs);
    }
  }

  /** A child's agent is the agent it replans. */
  lemma ChildAgentId(st: CBSSetting, s: CBSState, first: bool, pairs: PairTable)
    requires s.earliest.Some?
    ensures forall child :: child in Children(CreateChildState(st, s, first, pairs)) ==>
              child.agent.Some? && child.agent.value.id == Constrained(s.earliest.value, first).0
  {
    if CreateChildState(st, s, first, pairs).Some? {
      assert ChildAgent(st, s, first).id == Constrained(s.earliest.value, first).0;
    }
  }

  // ---------------------------------------------------------------- creating children in place

  /** getNewState, with ECBS computing its path costs and their sum by its loops. */
  method NewStateStep(s: CBSState, obstacles: ObstacleTable, conflicts: ConflictQueue, agent: Agent)
    returns (r: CBSState)
    ensures r == NewState(s, obstacles, conflicts, agent)
  {
    var variant := s.variant;
    match s.variant {
      case Plain =>
      case Greedy(_, _, _) =>
        variant := Greedy([], 0, 0.0);
      case Enhanced(_, _, weight) =>
        var fMin := ComputeFMinAgents(s.paths);
        var lowerBound := ComputeLowerBound(fMin);
        variant := Enhanced(fMin, lowerBound, weight);
    }
    r := CBSState(Costs(s.costs.g, DOUBLE_MAX, s.costs.f), FLOAT_MAX, s.paths, None, conflicts,
                  obstacles, Some(agent), variant);
  }

  /**
   * findAgentConflict and otherUpdateds on a prepared child, by their loops: the removal
   * of the agent's conflicts, findConflict, the poll, and the counting of Greedy CBS or
   * the recomputed bound of ECBS.
   */
  method FinishChild(st: CBSSetting, b: CBSState, pairs: PairTable) returns (child: CBSState, table: PairTable)
    requires b.agent.Some? && 0 <= b.agent.value.index < |b.paths|
    requires b.variant.Greedy? ==> Droppable(pairs, b.agent.value.id)
    ensures (child, table) == Finished(st, b, pairs)
  {
    var agent := b.agent.value;
    var queue := RemoveAgentConflicts(b.conflicts, agent.id);
    var found;
    found, table := FindConflictStep(st, b.(conflicts := queue), agent, 0, pairs);
    found := found.(costs := found.costs.(h := st.heuristic(found)));
    var (earliest, rest) := Poll(found.conflicts);
    found := found.(earliest := earliest, conflicts := rest);
    match found.variant {
      case Plain =>
        child := found;
      case Greedy(all, _, _) =>
        var totalPairs := CountPairs(table);
        child := found.(variant := Greedy(all, |all|, totalPairs));
      case Enhanced(_, _, weight) =>
        var fMin := ComputeFMinAgents(found.paths);
        var lowerBound := ComputeLowerBound(fMin);
        child := found.(variant := Enhanced(fMin, lowerBound, weight));
    }
  }

  /**
   * createChildState in place: the claimed moves and the queue are copied and edited, the
   * planner runs, and the new state is finished. In Greedy CBS the shared table must be
   * symmetric, as findConflict's removal of the agent's pairs requires.
   */
  method CreateChild(st: CBSSetting, s: CBSState, first: bool, pairs: PairTable)
    returns (r: Option<(CBSState, PairTable)>)
    requires s.earliest.Some?
    requires s.variant.Greedy? ==> Symmetric(pairs)
    ensures r == CreateChildState(st, s, first, pairs)
  {
    var c := s.earliest.value;
    var (id, line) := Constrained(c, first);
    var obstacles := AddObstacle(s.agentObstacles, c.timestep, line);
    var conflicts := RemoveAgentConflicts(s.conflicts, id);
    if !Resolves(st, s, id) {
      return None;
    }
    var agent := AgentById(st.agents, id).value;
    var found := st.replan(agent, Claimed(st, s, c.timestep, line), PlannerWeight(s));
    if found.None? {
      return None;
    }
    var path := found.value;
    var state := NewStateStep(s, obstacles, conflicts, agent.(path := path));
    var k := PathIndex(s.paths, id).value;
    state := state.(paths := state.paths[k := Replaced(state.paths[k], path)]);
    assert state == Prepared(st, s, first, path);
    if s.variant.Greedy? {
      SymmetricDroppable(pairs, id);
    }
    var child, table := FinishChild(st, state, pairs);
    r := Some((child, table));
  }

  /** What expand has after its first `i - 1` children: none, the first, or both. */
  ghost function Progress(st: CBSSetting, s: CBSState, pairs: PairTable, i: int): (seq<CBSState>, PairTable)
    requires s.earliest.Some?
  {
    var (one, two) := Tried(st, s, pairs);
    var mid := if one.Some? then one.value.1 else pairs;
    if i <= 1 then ([], pairs)
    else if i == 2 then (Children(one), mid)
    else Expand(st, s, pairs)
  }

  /** One round of expand's loop: child `i` is created from the table so far and kept when made. */
  method ExpandRound(st: CBSSetting, s: CBSState, pairs: PairTable, i: int,
                     children: seq<CBSState>, table: PairTable)
    returns (children': seq<CBSState>, table': PairTable)
    requires s.earliest.Some? && 1 <= i <= 2
    requires s.variant.Greedy? ==> Symmetric(pairs) && NoSelfPartner(st)
    requires (children, table) == Progress(st, s, pairs, i)
    requires s.variant.Greedy? ==> Symmetric(table)
    ensures (children', table') == Progress(st, s, pairs, i + 1)
    ensures s.variant.Greedy? ==> Symmetric(table')
  {
    ghost var (one, two) := Tried(st, s, pairs);
    var child := CreateChild(st, s, i == 1, table);
    children', table' := children, table;
    if child.Some? {
      children', table' := children + [child.value.0], child.value.1;
      ChildTable(st, s, i == 1, table);
    }
    if i == 1 {
      assert child == one && table == pairs;
      assert children' == Children(one);
    } else {
      assert child == two && children == Children(one);
      assert children' == Children(one) + Children(two);
    }
  }

  /**
   * expand in place: children 1 and 2 in turn, each kept when it was created, the shared
   * table passed on. The agents must not share time with themselves in Greedy CBS, which
   * keeps the table symmetric for the second child.
   */
  method ExpandChildren(st: CBSSetting, s: CBSState, pairs: PairTable)
    returns (children: seq<CBSState>, table: PairTable)
    requires s.earliest.Some?
    requires s.variant.Greedy? ==> Symmetric(pairs) && NoSelfPartner(st)
    ensures (children, table) == Expand(st, s, pairs)
  {
    children, table := [], pairs;
    for i := 1 to 3
      invariant (children, table) == Progress(st, s, pairs, i)
      invariant s.variant.Greedy? ==> Symmetric(table)
    {
      children, table := ExpandRound(st, s, pairs, i, children, table);
    }
  }

  // ---------------------------------------------------------------- the root's conflicts

  /**
   * The agent of the path at place `i` (Path.getAgent), found by the path's owner in the
   * agent list; None when there is no such agent or its index lies outside the path list.
   */
  function PathAgent(st: CBSSetting, paths: seq<Path>, i: int): (r: Option<Agent>)
    requires 0 <= i < |paths|
    ensures r.Some? ==> r.value in st.agents && r.value.id == paths[i].owner
    ensures r.Some? ==> 0 <= r.value.index < |paths|
  {
    match AgentById(st.agents, paths[i].owner)
    case None => None
    case Some(a) => if 0 <= a.index < |paths| then Some(a) else None
  }

  /** The agents of the first `n` paths all resolve. */
  predicate Resolved(st: CBSSetting, paths: seq<Path>, n: int)
    requires 0 <= n <= |paths|
    decreases n
  {
    n == 0 || (Resolved(st, paths, n - 1) && PathAgent(st, paths, n - 1).Some?)
  }

  /** Resolved says that every one of the first `n` agents resolves. */
  lemma {:induction false} ResolvedRule(st: CBSSetting, paths: seq<Path>, n: int)
    requires 0 <= n <= |paths|
    ensures Resolved(st, paths, n) <==> forall i :: 0 <= i < n ==> PathAgent(st, paths, i).Some?
    decreases n
  {
    if n > 0 {
      ResolvedRule(st, paths, n - 1);
    }
  }

  /**
   * findAllConflicts' loop over the first `n` paths: the agent of the path at place `i`
   * searches its partners of index at least `i + 1`. None when an agent does not resolve.
   */
  function ScanAll(st: CBSSetting, s: CBSState, n: int, pairs: PairTable): (r: Option<(CBSState, PairTable)>)
    requires 0 <= n <= |s.paths|
    ensures r.Some? <==> Resolved(st, s.paths, n)
    ensures r.Some? ==> r.value.0.costs == s.costs && r.value.0.totalCost == s.totalCost
    ensures r.Some? ==> r.value.0.earliest == s.earliest && r.value.0.agentObstacles == s.agentObstacles
    ensures r.Some? ==> r.value.0.paths == s.paths && r.value.0.agent == s.agent
    ensures r.Some? ==> r.value.0.variant.Greedy? == s.variant.Greedy?
    ensures r.Some? && r.value.0.variant.Enhanced? ==> r.value.0.variant == s.variant
    ensures r.Some? && !s.variant.Greedy? ==> r.value.1 == pairs
    decreases n, 1
  {
    if n == 0 then Some((s, pairs)) else ScanNext(st, s, n, pairs)
  }

  /** The scan's last step: the agent of path `n - 1` searches from where the scan stands. */
  function ScanNext(st: CBSSetting, s: CBSState, n: int, pairs: PairTable): Option<(CBSState, PairTable)>
    requires 0 < n <= |s.paths|
    decreases n, 0
  {
    match ScanAll(st, s, n - 1, pairs)
    case None => None
    case Some((cur, table)) =>
      match PathAgent(st, s.paths, n - 1)
      case None => None
      case Some(a) => Some(FindConflict(st, cur, a, n, table))
  }

  /** The hits of the agent of the path at place `i`, against partners of index at least `i + 1`. */
  function RootHits(st: CBSSetting, s: CBSState, i: int): (r: seq<Hit>)
    requires 0 <= i < |s.paths|
    ensures HitsHaveConflicts(r)
  {
    match PathAgent(st, s.paths, i)
    case None => []
    case Some(a) => Hits(st, s.paths[a.index], a.sharedTime, i + 1, !s.variant.Greedy?)
  }

  /** The earliest conflicts the first `n` agents find, in the order they are queued. */
  function RootFirsts(st: CBSSetting, s: CBSState, n: int): ConflictQueue
    requires 0 <= n <= |s.paths|
    decreases n
  {
    if n == 0 then [] else RootFirsts(st, s, n - 1) + Firsts(RootHits(st, s, n - 1))
  }

  /** Every conflict the first `n` agents find, in the order Greedy CBS records them. */
  function RootAll(st: CBSSetting, s: CBSState, n: int): seq<AgentConflictValue>
    requires 0 <= n <= |s.paths|
    decreases n
  {
    if n == 0 then [] else RootAll(st, s, n - 1) + Flatten(RootHits(st, s, n - 1))
  }

  /** One more path of the scan: its agent's findConflict on what the scan had so far. */
  lemma ScanAllStep(st: CBSSetting, s: CBSState, n: int, pairs: PairTable)
    requires 0 < n <= |s.paths| && ScanAll(st, s, n, pairs).Some?
    ensures ScanAll(st, s, n - 1, pairs).Some? && PathAgent(st, s.paths, n - 1).Some?
    ensures ScanAll(st, s, n, pairs).value
            == FindConflict(st, ScanAll(st, s, n - 1, pairs).value.0, PathAgent(st, s.paths, n - 1).value, n,
                            ScanAll(st, s, n - 1, pairs).value.1)
  {
  }

  /** The scan over one more path, from where it stands. */
  lemma ScanAllNext(st: CBSSetting, s: CBSState, i: int, pairs: PairTable, cur: CBSState, table: PairTable)
    requires 0 <= i < |s.paths| && ScanAll(st, s, i, pairs) == Some((cur, table))
    ensures PathAgent(st, s.paths, i).None? ==> ScanAll(st, s, i + 1, pairs).None?
    ensures PathAgent(st, s.paths, i).Some? ==>
              ScanAll(st, s, i + 1, pairs) == Some(FindConflict(st, cur, PathAgent(st, s.paths, i).value, i + 1, table))
  {
  }

  /**
   * What findConflict adds: the earliest conflict of each hit to the queue; and in Greedy
   * CBS, at a state with no replanned agent, every conflict to allConflicts and every hit
   * to the pair table, with nothing dropped.
   */
  lemma FindConflictAdds(st: CBSSetting, s: CBSState, agentI: Agent, index: int, pairs: PairTable)
    requires 0 <= agentI.index < |s.paths|
    ensures var (r, table) := FindConflict(st, s, agentI, index, pairs);
            var hits := HitsFor(st, s, agentI, index);
            && r.conflicts == s.conflicts + Firsts(hits)
            && (s.variant.Greedy? && s.agent.None? ==>
                  r.variant.allConflicts == s.variant.allConflicts + Flatten(hits)
                  && table == Recorded(pairs, agentI.id, hits))
  {
  }

  /**
   * What one more path of the scan adds: the earliest conflict of each of its agent's hits
   * to the queue; and at a Greedy CBS root every conflict to allConflicts and every hit to
   * the pair table.
   */
  lemma ScanAllAdds(st: CBSSetting, s: CBSState, n: int, pairs: PairTable)
    requires 0 < n <= |s.paths| && ScanAll(st, s, n, pairs).Some?
    ensures ScanAll(st, s, n - 1, pairs).Some? && PathAgent(st, s.paths, n - 1).Some?
    ensures ScanAll(st, s, n, pairs).value.0.conflicts
              == ScanAll(st, s, n - 1, pairs).value.0.conflicts + Firsts(RootHits(st, s, n - 1))
    ensures s.variant.Greedy? && s.agent.None? ==>
              ScanAll(st, s, n, pairs).value.0.variant.allConflicts
                == ScanAll(st, s, n - 1, pairs).value.0.variant.allConflicts + Flatten(RootHits(st, s, n - 1))
    ensures s.variant.Greedy? && s.agent.None? ==>
              ScanAll(st, s, n, pairs).value.1
                == Recorded(ScanAll(st, s, n - 1, pairs).value.1, PathAgent(st, s.paths, n - 1).value.id,
                            RootHits(st, s, n - 1))
  {
    ScanAllStep(st, s, n, pairs);
    var cur := ScanAll(st, s, n - 1, pairs).value.0;
    var table := ScanAll(st, s, n - 1, pairs).value.1;
    var a := PathAgent(st, s.paths, n - 1).value;
    FindConflictAdds(st, cur, a, n, table);
    assert HitsFor(st, cur, a, n) == RootHits(st, s, n - 1);
  }

  /** (a + b) + c == a + (b + c), for the two ways a scan's queue is grouped. */
  lemma Regroup<T>(a: seq<T>, b: seq<T>, c: seq<T>, ab: seq<T>)
    requires ab == a + b
    ensures ab + c == a + (b + c)
  {
  }

  /**
   * The scan queues, after the state's own conflicts, the earliest conflict of every pair
   * of agents sharing time whose paths conflict, each pair searched from its earlier path.
   */
  lemma {:induction false} ScanAllQueue(st: CBSSetting, s: CBSState, n: int, pairs: PairTable)
    requires 0 <= n <= |s.paths| && ScanAll(st, s, n, pairs).Some?
    ensures ScanAll(st, s, n, pairs).value.0.conflicts == s.conflicts + RootFirsts(st, s, n)
    decreases n
  {
    if n > 0 {
      ScanAllAdds(st, s, n, pairs);
      ScanAllQueue(st, s, n - 1, pairs);
      var cur := ScanAll(st, s, n - 1, pairs).value.0;
      Regroup(s.conflicts, RootFirsts(st, s, n - 1), Firsts(RootHits(st, s, n - 1)), cur.conflicts);
    }
  }

  /** At a Greedy CBS root allConflicts gains every conflict found. */
  lemma {:induction false} ScanAllGreedy(st: CBSSetting, s: CBSState, n: int, pairs: PairTable)
    requires 0 <= n <= |s.paths| && ScanAll(st, s, n, pairs).Some?
    requires s.variant.Greedy? && s.agent.None?
    ensures ScanAll(st, s, n, pairs).value.0.variant.allConflicts == s.variant.allConflicts + RootAll(st, s, n)
    decreases n
  {
    if n > 0 {
      ScanAllAdds(st, s, n, pairs);
      ScanAllGreedy(st, s, n - 1, pairs);
      ScanAllGreedyStep(st, s, n, pairs);
    } else {
      assert s.variant.allConflicts + RootAll(st, s, 0) == s.variant.allConflicts;
    }
  }

  /** One step of ScanAllGreedy: what the first `n - 1` paths recorded, and the hits of the next. */
  lemma ScanAllGreedyStep(st: CBSSetting, s: CBSState, n: int, pairs: PairTable)
    requires 0 < n <= |s.paths| && ScanAll(st, s, n, pairs).Some? && s.variant.Greedy? && s.agent.None?
    requires ScanAll(st, s, n - 1, pairs).Some?
    requires ScanAll(st, s, n - 1, pairs).value.0.variant.allConflicts == s.variant.allConflicts + RootAll(st, s, n - 1)
    ensures ScanAll(st, s, n, pairs).value.0.variant.allConflicts == s.variant.allConflicts + RootAll(st, s, n)
  {
    ScanAllAdds(st, s, n, pairs);
    Regroup(s.variant.allConflicts, RootAll(st, s, n - 1), Flatten(RootHits(st, s, n - 1)),
            ScanAll(st, s, n - 1, pairs).value.0.variant.allConflicts);
  }

  /**
   * At a Greedy CBS root a symmetric pair table stays symmetric when no agent shares time
   * with itself.
   */
  lemma {:induction false} ScanAllSymmetric(st: CBSSetting, s: CBSState, n: int, pairs: PairTable)
    requires 0 <= n <= |s.paths| && ScanAll(st, s, n, pairs).Some?
    requires s.variant.Greedy? && s.agent.None? && Symmetric(pairs) && NoSelfPartner(st)
    ensures Symmetric(ScanAll(st, s, n, pairs).value.1)
    decreases n
  {
    if n > 0 {
      ScanAllStep(st, s, n, pairs);
      ScanAllSymmetric(st, s, n - 1, pairs);
      var cur := ScanAll(st, s, n - 1, pairs).value.0;
      var table := ScanAll(st, s, n - 1, pairs).value.1;
      var a := PathAgent(st, s.paths, n - 1).value;
      FindConflictAdds(st, cur, a, n, table);
      HitsRule(st, s.paths[a.index], a.sharedTime, n, false);
      RecordedSymmetric(table, a.id, HitsFor(st, cur, a, n));
    }
  }

  /**
   * findAllConflicts: every path's agent searches its later partners, h is brought up to
   * date, and the earliest conflict is polled. None when an agent does not resolve.
   */
  function FindAllConflicts(st: CBSSetting, s: CBSState, pairs: PairTable): (r: Option<(CBSState, PairTable)>)
    ensures r.Some? <==> Resolved(st, s.paths, |s.paths|)
    ensures r.Some? ==> r.value.0.paths == s.paths && r.value.0.agent == s.agent
    ensures r.Some? ==> && r.value.0.totalCost == s.totalCost && r.value.0.agentObstacles == s.agentObstacles
                        && r.value.0.costs.g == s.costs.g && r.value.0.costs.f == s.costs.f
  {
    match ScanAll(st, s, |s.paths|, pairs)
    case None => None
    case Some((found, table)) => Some((Polled(Scored(st, found)), table))
  }

  /**
   * After findAllConflicts the queue, with the polled conflict, holds the state's own
   * conflicts and the earliest conflict of every conflicting pair; the polled one is a
   * least of them, and there is none only when there are none.
   */
  lemma FindAllConflictsRule(st: CBSSetting, s: CBSState, pairs: PairTable)
    requires FindAllConflicts(st, s, pairs).Some?
    ensures var r := FindAllConflicts(st, s, pairs).value.0;
            var queue := s.conflicts + RootFirsts(st, s, |s.paths|);
            && multiset(r.conflicts) + Earliest(r) == multiset(queue)
            && (r.earliest.None? <==> queue == [])
            && (r.earliest.Some? ==> Queues.IsMin(r.earliest.value, multiset(queue), ConflictCompare))
  {
    ScanAllQueue(st, s, |s.paths|, pairs);
    var found := ScanAll(st, s, |s.paths|, pairs).value.0;
    PollRule(Scored(st, found).conflicts);
  }

  /** findAllConflicts in place: the loop over the paths, each agent's search by its own loop. */
  method FindAllConflictsLoop(st: CBSSetting, s: CBSState, pairs: PairTable)
    returns (r: Option<(CBSState, PairTable)>)
    requires s.variant.Greedy? ==> s.agent.None?
    ensures r == FindAllConflicts(st, s, pairs)
  {
    var cur, table := s, pairs;
    for i := 0 to |s.paths|
      invariant ScanAll(st, s, i, pairs) == Some((cur, table))
      invariant cur.paths == s.paths && cur.agent == s.agent
    {
      ScanAllNext(st, s, i, pairs, cur, table);
      var agent := PathAgent(st, s.paths, i);
      if agent.None? {
        ResolvedRule(st, s.paths, |s.paths|);
        return None;
      }
      cur, table := FindConflictStep(st, cur, agent.value, i + 1, table);
    }
    cur := cur.(costs := cur.costs.(h := st.heuristic(cur)));
    var (earliest, rest) := Poll(cur.conflicts);
    cur := cur.(earliest := earliest, conflicts := rest);
    r := Some((cur, table));
  }

  // ---------------------------------------------------------------- the Greedy CBS root as written

  /** findAllConflicts' loop with findConflict as written (FindConflictAsWritten). */
  function ScanAllAsWritten(st: CBSSetting, s: CBSState, n: int, pairs: PairTable)
    : (r: Option<(CBSState, PairTable)>)
    requires 0 <= n <= |s.paths|
    ensures r.Some? ==> Resolved(st, s.paths, n)
    ensures r.Some? ==> r.value.0.paths == s.paths && r.value.0.agent == s.agent
    ensures r.Some? ==> r.value.0.variant.Greedy? == s.variant.Greedy?
    decreases n
  {
    if n == 0 then Some((s, pairs))
    else match ScanAllAsWritten(st, s, n - 1, pairs)
      case None => None
      case Some((cur, table)) =>
        match PathAgent(st, s.paths, n - 1)
        case None => None
        case Some(a) => FindConflictAsWritten(st, cur, a, n, table)
  }

  /** findAllConflicts as written: None also when findConflict throws. */
  function FindAllConflictsAsWritten(st: CBSSetting, s: CBSState, pairs: PairTable)
    : (r: Option<(CBSState, PairTable)>)
    ensures r.Some? ==> FindAllConflicts(st, s, pairs).Some?
  {
    match ScanAllAsWritten(st, s, |s.paths|, pairs)
    case None => None
    case Some((found, table)) => Some((Polled(Scored(st, found)), table))
  }

  /** Hits that all found something flatten to nothing only when there are none. */
  lemma {:induction false} FlattenEmpty(hits: seq<Hit>)
    requires HitsHaveConflicts(hits)
    ensures Flatten(hits) == [] <==> hits == []
  {
    if hits != [] {
      assert hits[|hits| - 1] in hits;
      assert |Flatten(hits)| >= |hits[|hits| - 1].found| > 0;
    }
  }

  /** The state a Greedy CBS search starts from: no replanned agent, no conflicts recorded. */
  predicate GreedyRoot(s: CBSState, pairs: PairTable)
  {
    s.variant.Greedy? && s.agent.None? && s.variant.allConflicts == [] && pairs == map[]
  }

  /** At a Greedy root, while allConflicts stays empty no pair has been recorded either. */
  lemma {:induction false} ScanAllQuiet(st: CBSSetting, s: CBSState, n: int, pairs: PairTable)
    requires 0 <= n <= |s.paths| && GreedyRoot(s, pairs) && ScanAll(st, s, n, pairs).Some?
    requires ScanAll(st, s, n, pairs).value.0.variant.allConflicts == []
    ensures ScanAll(st, s, n, pairs).value.1 == map[]
    decreases n
  {
    if n > 0 {
      ScanAllAdds(st, s, n, pairs);
      FlattenEmpty(RootHits(st, s, n - 1));
      ScanAllQuiet(st, s, n - 1, pairs);
    }
  }

  /** findConflict as written agrees with the corrected one while nothing is there to drop. */
  lemma AsWrittenQuiet(st: CBSSetting, s: CBSState, agentI: Agent, index: int)
    requires 0 <= agentI.index < |s.paths|
    requires s.variant.Greedy? && s.agent.None? && s.variant.allConflicts == []
    ensures FindConflictAsWritten(st, s, agentI, index, map[]) == Some(FindConflict(st, s, agentI, index, map[]))
  {
    assert Dropped(map[], agentI.id) == map[];
  }

  /**
   * Wherever the scan as written gets through at a Greedy root, it computes what the
   * corrected scan computes.
   */
  lemma {:induction false} AsWrittenAgrees(st: CBSSetting, s: CBSState, n: int, pairs: PairTable)
    requires 0 <= n <= |s.paths| && GreedyRoot(s, pairs)
    ensures ScanAllAsWritten(st, s, n, pairs).Some? ==> ScanAllAsWritten(st, s, n, pairs) == ScanAll(st, s, n, pairs)
    decreases n
  {
    if n > 0 && ScanAllAsWritten(st, s, n, pairs).Some? {
      AsWrittenAgrees(st, s, n - 1, pairs);
      var prev := ScanAll(st, s, n - 1, pairs).value;
      var a := PathAgent(st, s.paths, n - 1).value;
      assert ScanAllAsWritten(st, s, n, pairs) == FindConflictAsWritten(st, prev.0, a, n, prev.1);
      ScanAllQuiet(st, s, n - 1, pairs);
      AsWrittenQuiet(st, prev.0, a, n);
      ScanAllStep(st, s, n, pairs);
      assert ScanAll(st, s, n, pairs) == Some(FindConflict(st, prev.0, a, n, map[]));
    }
  }

  /** Once allConflicts holds a conflict at a Greedy root, the scan as written throws. */
  lemma {:induction false} AsWrittenThrows(st: CBSSetting, s: CBSState, k: int, n: int, pairs: PairTable)
    requires 0 <= k < n <= |s.paths| && s.variant.Greedy? && s.agent.None?
    requires ScanAllAsWritten(st, s, k, pairs).Some?
    requires ScanAllAsWritten(st, s, k, pairs).value.0.variant.allConflicts != []
    ensures ScanAllAsWritten(st, s, n, pairs).None?
    decreases n
  {
    if n > k + 1 {
      AsWrittenThrows(st, s, k, n - 1, pairs);
      AsWrittenStops(st, s, n - 1, pairs);
    } else {
      var cur := ScanAllAsWritten(st, s, k, pairs).value.0;
      var table := ScanAllAsWritten(st, s, k, pairs).value.1;
      AsWrittenNext(st, s, k, pairs, cur, table);
    }
  }

  /** The scan as written over one more path, from where it stands. */
  lemma AsWrittenNext(st: CBSSetting, s: CBSState, i: int, pairs: PairTable, cur: CBSState, table: PairTable)
    requires 0 <= i < |s.paths| && ScanAllAsWritten(st, s, i, pairs) == Some((cur, table))
    ensures PathAgent(st, s.paths, i).None? ==> ScanAllAsWritten(st, s, i + 1, pairs).None?
    ensures PathAgent(st, s.paths, i).Some? ==>
              ScanAllAsWritten(st, s, i + 1, pairs) == FindConflictAsWritten(st, cur, PathAgent(st, s.paths, i).value, i + 1, table)
  {
  }

  /** A scan as written that has thrown stays thrown. */
  lemma AsWrittenStops(st: CBSSetting, s: CBSState, i: int, pairs: PairTable)
    requires 0 <= i < |s.paths| && ScanAllAsWritten(st, s, i, pairs).None?
    ensures ScanAllAsWritten(st, s, i + 1, pairs).None?
  {
  }

  /**
   * The finding: at a Greedy CBS root with two paths or more, as soon as the first path's
   * agent conflicts with a partner, findAllConflicts as written throws, while the corrected
   * scan gets through whenever every agent resolves.
   */
  lemma GreedyRootThrows(st: CBSSetting, s: CBSState, pairs: PairTable)
    requires GreedyRoot(s, pairs) && |s.paths| >= 2
    requires PathAgent(st, s.paths, 0).Some? && RootHits(st, s, 0) != []
    ensures FindAllConflictsAsWritten(st, s, pairs).None?
    ensures (forall i :: 0 <= i < |s.paths| ==> PathAgent(st, s.paths, i).Some?) ==>
              FindAllConflicts(st, s, pairs).Some?
  {
    var a := PathAgent(st, s.paths, 0).value;
    FlattenEmpty(RootHits(st, s, 0));
    assert HitsFor(st, s, a, 1) == RootHits(st, s, 0);
    assert ScanAllAsWritten(st, s, 1, pairs) == FindConflictAsWritten(st, s, a, 1, pairs);
    AsWrittenThrows(st, s, 1, |s.paths|, pairs);
    ResolvedRule(st, s.paths, |s.paths|);
  }
}

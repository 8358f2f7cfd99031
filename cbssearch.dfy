/**
 * The high level of Conflict-Based Search and of ECBS as the best-first engine runs them
 * (CBSSearch.java, ECBSSearch.java): the start state built from the agents' paths, the
 * goal test on the earliest conflict, the expansion of a node into one node per child, and
 * the commit of the final paths to the agents.
 */
module CBSSearches {
  import opened Wrappers
  import opened Geometry
  import opened Conflicts
  import opened Trees
  import Queues
  import opened Comparators
  import opened BestFirst
  import opened GreedyCBS
  import opened ECBS
  import opened CBS

  /** Which search builds the states: CBS, Greedy CBS, or ECBS with its weight. */
  datatype Planner = CBSPlanner | GreedyPlanner | ECBSPlanner(weight: real)

  /** A node of the high-level search tree: a CBS state under its parent. */
  datatype CBSNode = CBSNode(state: CBSState, parent: Option<CBSNode>)

  // ---------------------------------------------------------------- the start state

  /** The time a path spans: its end timestep less its start timestep. */
  function Span(p: Path): real
  {
    p.endTimestep - p.startTimestep
  }

  /** The span of each agent's path, in agent order. */
  function Spans(agents: seq<Agent>): (r: seq<real>)
    ensures |r| == |agents|
  {
    seq(|agents|, i requires 0 <= i < |agents| => Span(agents[i].path))
  }

  /** A copy of each agent's path, in agent order. */
  function InitialPaths(agents: seq<Agent>): (r: seq<Path>)
    ensures |r| == |agents|
  {
    seq(|agents|, i requires 0 <= i < |agents| => agents[i].path)
  }

  /**
   * getInitialPaths: each agent's path is copied in agent order and its span added to the
   * initial cost; ECBS also appends each span to the start state's fMin list.
   */
  method GetInitialPaths(agents: seq<Agent>, initialCost: real, planner: Planner)
    returns (paths: seq<Path>, cost: real, appended: seq<real>)
    ensures |paths| == |agents| && forall i :: 0 <= i < |agents| ==> paths[i] == agents[i].path
    ensures cost == initialCost + Sum(Spans(agents))
    ensures appended == if planner.ECBSPlanner? then Spans(agents) else []
  {
    paths, cost, appended := [], initialCost, [];
    for i := 0 to |agents|
      invariant paths == InitialPaths(agents[..i])
      invariant cost == initialCost + Sum(Spans(agents[..i]))
      invariant appended == if planner.ECBSPlanner? then Spans(agents[..i]) else []
    {
      assert Spans(agents[..i + 1]) == Spans(agents[..i]) + [Span(agents[i].path)];
      assert InitialPaths(agents[..i + 1]) == InitialPaths(agents[..i]) + [agents[i].path];
      var span := agents[i].path.endTimestep - agents[i].path.startTimestep;
      paths := paths + [agents[i].path];
      cost := cost + span;
      if planner.ECBSPlanner? {
        appended := appended + [span];
      }
    }
    assert agents[..|agents|] == agents;
  }

  /**
   * The subclass fields of the start state once its paths are set: none for CBS, empty
   * allConflicts and zero totals for Greedy CBS; for ECBS the weight, the path costs
   * (setting the paths recomputes them, discarding the spans getInitialPaths appended)
   * and the bound still at Double.MAX_VALUE.
   */
  function StartVariant(planner: Planner, paths: seq<Path>): Variant
  {
    match planner
    case CBSPlanner => Plain
    case GreedyPlanner => Greedy([], 0, 0.0)
    case ECBSPlanner(weight) => Enhanced(FMinOf(paths), DOUBLE_MAX, weight)
  }

  /**
   * getNewState with the initial paths set: g and f at -1, h at Double.MAX_VALUE, the
   * accumulated initial cost, no claimed moves, no conflicts and no replanned agent.
   */
  function Start(planner: Planner, agents: seq<Agent>, initialCost: real): CBSState
  {
    var paths := InitialPaths(agents);
    CBSState(Costs(-1.0, DOUBLE_MAX, -1.0), initialCost + Sum(Spans(agents)), paths, None, [], map[], None,
             StartVariant(planner, paths))
  }

  /**
   * createStartState: the start state with its paths, all of whose conflicts are found;
   * ECBS then recomputes the path costs and their sum. Gives the state and the pair table
   * it shares (Greedy CBS). None when an agent does not resolve.
   */
  function StartState(st: CBSSetting, planner: Planner, initialCost: real): Option<(CBSState, PairTable)>
  {
    match FindAllConflicts(st, Start(planner, st.agents, initialCost), map[])
    case None => None
    case Some((s, table)) =>
      if planner.ECBSPlanner? then
        Some((s.(variant := Enhanced(FMinOf(s.paths), Sum(FMinOf(s.paths)), planner.weight)), table))
      else Some((s, table))
  }

  /**
   * The start state holds a copy of every agent's path in agent order, the initial cost
   * plus the span of every path as its total cost, no claimed moves, no replanned agent
   * and g and f at -1. It exists exactly when every path's agent resolves.
   */
  lemma StartStateRule(st: CBSSetting, planner: Planner, initialCost: real)
    ensures StartState(st, planner, initialCost).Some? <==>
              forall i :: 0 <= i < |st.agents| ==> PathAgent(st, InitialPaths(st.agents), i).Some?
    ensures StartState(st, planner, initialCost).Some? ==>
              var s := StartState(st, planner, initialCost).value.0;
              && |s.paths| == |st.agents|
              && (forall i :: 0 <= i < |st.agents| ==> s.paths[i] == st.agents[i].path)
              && s.totalCost == initialCost + Sum(Spans(st.agents))
              && s.agentObstacles == map[] && s.agent.None?
              && s.costs.g == -1.0 && s.costs.f == -1.0
              && (planner.ECBSPlanner? ==> BoundKnown(s, planner.weight))
  {
    ResolvedRule(st, InitialPaths(st.agents), |st.agents|);
  }

  /**
   * The queue of the start state, with its earliest conflict, holds the earliest conflict
   * of every pair of agents whose paths conflict; the earliest conflict is a least one, and
   * there is none only when no paths conflict.
   */
  lemma StartConflicts(st: CBSSetting, planner: Planner, initialCost: real)
    requires StartState(st, planner, initialCost).Some?
    ensures var s := StartState(st, planner, initialCost).value.0;
            var queue := RootFirsts(st, Start(planner, st.agents, initialCost), |st.agents|);
            && multiset(s.conflicts) + Earliest(s) == multiset(queue)
            && (s.earliest.None? <==> queue == [])
            && (s.earliest.Some? ==> Queues.IsMin(s.earliest.value, multiset(queue), ConflictCompare))
  {
    var start := Start(planner, st.agents, initialCost);
    FindAllConflictsRule(st, start, map[]);
    assert start.conflicts + RootFirsts(st, start, |st.agents|) == RootFirsts(st, start, |st.agents|);
  }

  /** The earliest conflict is gone only when no conflict is left in the queue either. */
  predicate Settled(s: CBSState)
  {
    s.earliest.None? ==> s.conflicts == []
  }

  /** The start state is settled. */
  lemma StartSettled(st: CBSSetting, planner: Planner, initialCost: real)
    requires StartState(st, planner, initialCost).Some?
    ensures Settled(StartState(st, planner, initialCost).value.0)
  {
    StartConflicts(st, planner, initialCost);
  }

  // ---------------------------------------------------------------- the search

  /** getLowerBound of a state: ECBS's sum of path costs, computed when still unknown; -1 otherwise. */
  function LowerBoundOf(s: CBSState): real
  {
    match s.variant
    case Enhanced(fMin, lowerBound, _) => GetLowerBound(lowerBound, fMin).0
    case _ => -1.0
  }

  /**
   * The state as the open list holds it: in ECBS, getLowerBound has set f to the state's
   * bound (searchFocal reads the root's bound, addChildNode each child's).
   */
  function Bounded(planner: Planner, s: CBSState): (r: CBSState)
    ensures planner.ECBSPlanner? ==> r.costs == s.costs.WithF(LowerBoundOf(s))
    ensures !planner.ECBSPlanner? ==> r == s
    ensures r.(costs := s.costs) == s
  {
    if planner.ECBSPlanner? then s.(costs := s.costs.WithF(LowerBoundOf(s))) else s
  }

  /** The root node: the start state, without a parent. */
  function RootNode(planner: Planner, s: CBSState): CBSNode
  {
    CBSNode(Bounded(planner, s), None)
  }

  /** isGoalNode: a node is a goal exactly when its state has no earliest conflict. */
  function IsGoalNode(n: CBSNode): Verdict
  {
    if n.state.earliest.None? then Goal else NotGoal
  }

  /** expandNode: one node per child of the best node's state, each under the best node. */
  function ExpandNode(st: CBSSetting, planner: Planner, n: CBSNode, pairs: PairTable): (r: (seq<CBSNode>, PairTable))
    ensures |r.0| == |Expand(st, n.state, pairs).0|
    ensures r.1 == Expand(st, n.state, pairs).1
  {
    var (children, table) := Expand(st, n.state, pairs);
    (seq(|children|, i requires 0 <= i < |children| => CBSNode(Bounded(planner, children[i]), Some(n))), table)
  }

  /** HValueComparator on nodes: CBS's open list and ECBS's focal list. */
  function NodeByH(a: CBSNode, b: CBSNode): int
  {
    HValueCompare(a.state.costs, b.state.costs)
  }

  /** FValueComparator on nodes: ECBS's open list. */
  function NodeByF(a: CBSNode, b: CBSNode): int
  {
    FValueCompare(a.state.costs, b.state.costs)
  }

  /** The engine's tables for CBS: the pair table the states share, and the search's agents. */
  datatype CBSTables = CBSTables(pairs: PairTable, agents: seq<Agent>)

  /**
   * The engine's hooks: the open list by h (CBS) or by f (ECBS), the focal list by h,
   * nodes equal only to themselves (CBSState has no equals of its own), the bound of
   * getLowerBound, the goal test on the earliest conflict, no validity check, every
   * explored node closed, expandNode with the shared pair table, and returnFromGoalState
   * committing the best node's paths to the agents, which updateNoSolution also does.
   */
  function SearchHooks(st: CBSSetting, planner: Planner): Hooks<CBSNode, CBSNode, CBSTables>
  {
    Hooks(if planner.ECBSPlanner? then (a: CBSNode, b: CBSNode) => NodeByF(a, b)
          else (a: CBSNode, b: CBSNode) => NodeByH(a, b),
          (a: CBSNode, b: CBSNode) => NodeByH(a, b),
          (n: CBSNode) => n, (a: CBSNode, b: CBSNode) => a == b, (n: CBSNode) => LowerBoundOf(n.state),
          (n: CBSNode, focal: multiset<CBSNode>) => IsGoalNode(n),
          (n: CBSNode) => true, (n: CBSNode) => true,
          (n: CBSNode, closed: set<CBSNode>, t: CBSTables) =>
            var e := ExpandNode(st, planner, n, t.pairs); (e.0, t.(pairs := e.1)),
          (n: CBSNode, t: CBSTables) => var g := GoalCommit(t.agents, n.state); (t.(agents := g.0), g.1),
          (n: CBSNode, t: CBSTables) => var g := GoalCommit(t.agents, n.state); (t.(agents := g.0), g.1))
  }

  lemma NodeComparatorsAreOrders()
    ensures Queues.TotalPreorder(NodeByH) && Queues.TotalPreorder(NodeByF)
  {
    HValueCompareIsOrder();
    FValueCompareIsOrder();
    forall a, b, c | Queues.RanksBefore(NodeByH, a, b) && Queues.RanksBefore(NodeByH, b, c)
      ensures Queues.RanksBefore(NodeByH, a, c)
    {
      assert Queues.RanksBefore(HValueCompare, a.state.costs, b.state.costs);
      assert Queues.RanksBefore(HValueCompare, b.state.costs, c.state.costs);
      assert Queues.RanksBefore(HValueCompare, a.state.costs, c.state.costs);
    }
    forall a, b ensures Queues.RanksBefore(NodeByH, a, b) || Queues.RanksBefore(NodeByH, b, a)
    {
      assert Queues.RanksBefore(HValueCompare, a.state.costs, b.state.costs)
             || Queues.RanksBefore(HValueCompare, b.state.costs, a.state.costs);
    }
    forall a, b, c | Queues.RanksBefore(NodeByF, a, b) && Queues.RanksBefore(NodeByF, b, c)
      ensures Queues.RanksBefore(NodeByF, a, c)
    {
      assert Queues.RanksBefore(FValueCompare, a.state.costs, b.state.costs);
      assert Queues.RanksBefore(FValueCompare, b.state.costs, c.state.costs);
      assert Queues.RanksBefore(FValueCompare, a.state.costs, c.state.costs);
    }
    forall a, b ensures Queues.RanksBefore(NodeByF, a, b) || Queues.RanksBefore(NodeByF, b, a)
    {
      assert Queues.RanksBefore(FValueCompare, a.state.costs, b.state.costs)
             || Queues.RanksBefore(FValueCompare, b.state.costs, a.state.costs);
    }
  }

  lemma SearchHooksOrdered(st: CBSSetting, planner: Planner)
    ensures Ordered(SearchHooks(st, planner))
  {
    NodeComparatorsAreOrders();
    if planner.ECBSPlanner? {
      assert SearchHooks(st, planner).cmp == (a: CBSNode, b: CBSNode) => NodeByF(a, b);
    } else {
      assert SearchHooks(st, planner).cmp == (a: CBSNode, b: CBSNode) => NodeByH(a, b);
    }
  }

  /**
   * expandNode adds at most two nodes, none for a goal, each under the best node and
   * holding, in order, a child of its state; in ECBS its f is its bound.
   */
  lemma ExpandNodeRule(st: CBSSetting, planner: Planner, n: CBSNode, pairs: PairTable)
    ensures var r := ExpandNode(st, planner, n, pairs).0;
            && |r| <= 2
            && (IsGoalNode(n) == Goal ==> r == [])
            && (forall i :: 0 <= i < |r| ==>
                  && r[i].parent == Some(n)
                  && r[i].state == Bounded(planner, Expand(st, n.state, pairs).0[i]))
  {
    ExpandCount(st, n.state, pairs);
    ExpandNodeShape(st, planner, n, pairs);
  }

  /** Each node expandNode makes holds the child at its place, bounded, under the best node. */
  lemma ExpandNodeShape(st: CBSSetting, planner: Planner, n: CBSNode, pairs: PairTable)
    ensures var r := ExpandNode(st, planner, n, pairs).0;
            forall i :: 0 <= i < |r| ==> r[i] == CBSNode(Bounded(planner, Expand(st, n.state, pairs).0[i]), Some(n))
  {
  }

  /** An ECBS state holds the cost of each of its paths and their sum as its bound. */
  predicate BoundKnown(s: CBSState, weight: real)
  {
    s.variant == Enhanced(FMinOf(s.paths), Sum(FMinOf(s.paths)), weight)
  }

  lemma ECBSChild(st: CBSSetting, s: CBSState, first: bool, pairs: PairTable)
    requires s.variant.Enhanced? && s.earliest.Some? && CreateChildState(st, s, first, pairs).Some?
    ensures BoundKnown(CreateChildState(st, s, first, pairs).value.0, s.variant.weight)
  {
    ECBSChildBound(st, s, first, pairs);
  }

  /** Every child of an ECBS state holds the costs of its paths and their sum as its bound. */
  lemma ECBSChildren(st: CBSSetting, s: CBSState, pairs: PairTable)
    requires s.variant.Enhanced?
    ensures forall c :: c in Expand(st, s, pairs).0 ==> BoundKnown(c, s.variant.weight)
  {
    if s.earliest.Some? {
      var (one, two) := Tried(st, s, pairs);
      if one.Some? {
        ECBSChild(st, s, true, pairs);
      }
      if two.Some? {
        ECBSChild(st, s, false, if one.Some? then one.value.1 else pairs);
      }
      EachChild(Expand(st, s, pairs).0, one, two, c => BoundKnown(c, s.variant.weight));
    }
  }

  /** A state whose bound is known enters the open list of ECBS with that bound as its f. */
  lemma BoundedF(planner: Planner, s: CBSState, weight: real)
    requires planner.ECBSPlanner? && BoundKnown(s, weight)
    ensures BoundKnown(Bounded(planner, s), weight)
    ensures Bounded(planner, s).costs.f == Sum(FMinOf(s.paths)) == LowerBoundOf(Bounded(planner, s))
  {
  }

  /**
   * The nodes expandNode adds in ECBS: each holds the costs of its paths and their sum as
   * its bound, and its f is that bound.
   */
  lemma ECBSNodes(st: CBSSetting, planner: Planner, n: CBSNode, pairs: PairTable)
    requires planner.ECBSPlanner? && n.state.variant.Enhanced?
    ensures var r := ExpandNode(st, planner, n, pairs).0;
            forall i :: 0 <= i < |r| ==>
              && BoundKnown(r[i].state, n.state.variant.weight)
              && r[i].state.costs.f == Sum(FMinOf(r[i].state.paths)) == LowerBoundOf(r[i].state)
  {
    var kids := Expand(st, n.state, pairs).0;
    ECBSChildren(st, n.state, pairs);
    ExpandNodeRule(st, planner, n, pairs);
    var r := ExpandNode(st, planner, n, pairs).0;
    forall i | 0 <= i < |r|
      ensures BoundKnown(r[i].state, n.state.variant.weight)
      ensures r[i].state.costs.f == Sum(FMinOf(r[i].state.paths)) == LowerBoundOf(r[i].state)
    {
      assert kids[i] in kids;
      BoundedF(planner, kids[i], n.state.variant.weight);
    }
  }

  lemma ChildSettled(st: CBSSetting, s: CBSState, first: bool, pairs: PairTable)
    requires s.earliest.Some? && CreateChildState(st, s, first, pairs).Some?
    ensures Settled(CreateChildState(st, s, first, pairs).value.0)
  {
    ChildConflicts(st, s, first, pairs);
    var c := CreateChildState(st, s, first, pairs).value.0;
    if c.earliest.None? {
      assert multiset(c.conflicts) == multiset{};
    }
  }

  /** Every child of a node is settled: its earliest conflict was polled from its queue. */
  lemma ChildrenSettled(st: CBSSetting, s: CBSState, pairs: PairTable)
    ensures forall c :: c in Expand(st, s, pairs).0 ==> Settled(c)
  {
    if s.earliest.Some? {
      var (one, two) := Tried(st, s, pairs);
      if one.Some? {
        ChildSettled(st, s, true, pairs);
      }
      if two.Some? {
        ChildSettled(st, s, false, if one.Some? then one.value.1 else pairs);
      }
      EachChild(Expand(st, s, pairs).0, one, two, Settled);
    }
  }

  /** A property both tried children have holds of every child expand keeps. */
  lemma EachChild(kids: seq<CBSState>, one: Option<(CBSState, PairTable)>, two: Option<(CBSState, PairTable)>,
                  P: CBSState -> bool)
    requires kids == Children(one) + Children(two)
    requires one.Some? ==> P(one.value.0)
    requires two.Some? ==> P(two.value.0)
    ensures forall c :: c in kids ==> P(c)
  {
  }

  // ---------------------------------------------------------------- the commit

  /** The agents of a list of conflicts, both parties of each. */
  function PartyIds(q: seq<AgentConflictValue>): set<AgentId>
    decreases |q|
  {
    if q == [] then {} else PartyIds(q[..|q| - 1]) + {q[|q| - 1].agent1, q[|q| - 1].agent2}
  }

  /** An agent is among the parties exactly when it is one of the two agents of a conflict of the list. */
  lemma {:induction false} PartyIdsRule(q: seq<AgentConflictValue>)
    ensures forall k :: k in PartyIds(q) <==> exists c :: c in q && (c.agent1 == k || c.agent2 == k)
    decreases |q|
  {
    if q != [] {
      var init := q[..|q| - 1];
      PartyIdsRule(init);
      assert forall c :: c in q <==> c in init || c == q[|q| - 1];
    }
  }

  /**
   * The agents left in conflict at a state: both agents of the earliest conflict and of
   * every queued conflict. None when the queue holds conflicts but no earliest conflict
   * was polled, where the Java code dereferences a null earliest conflict.
   */
  function ConflictAgents(s: CBSState): Option<set<AgentId>>
  {
    if s.earliest.None? then (if s.conflicts == [] then Some({}) else None)
    else Some(PartyIds([s.earliest.value] + s.conflicts))
  }

  /**
   * The commit: for each agent with a path at its place, the path is flagged free of
   * conflicts exactly when the agent is not in conflict, and only such an agent takes it.
   * Gives the agents and the flagged path list.
   */
  function Commit(agents: seq<Agent>, paths: seq<Path>, ids: set<AgentId>): (r: (seq<Agent>, seq<Path>))
    ensures |r.0| == |agents| && |r.1| == |paths|
  {
    var n := if |agents| < |paths| then |agents| else |paths|;
    var flagged := seq(|paths|, i requires 0 <= i < |paths| =>
                         if i < n then paths[i].(freeOfConflicts := agents[i].id !in ids) else paths[i]);
    (seq(|agents|, i requires 0 <= i < |agents| =>
           if i < n && agents[i].id !in ids then agents[i].(path := flagged[i]) else agents[i]),
     flagged)
  }

  /**
   * An agent in conflict keeps its path and its final path is flagged not free; any other
   * agent takes its final path, flagged free; nothing else about an agent changes, and
   * agents past the end of the path list are not reached.
   */
  lemma CommitRule(agents: seq<Agent>, paths: seq<Path>, ids: set<AgentId>)
    ensures var (agents', paths') := Commit(agents, paths, ids);
            forall i :: 0 <= i < |agents| ==>
              && agents'[i].(path := agents[i].path) == agents[i]
              && (i < |paths| ==> paths'[i].(freeOfConflicts := paths[i].freeOfConflicts) == paths[i])
              && (i < |paths| && agents[i].id in ids ==> agents'[i] == agents[i] && !paths'[i].freeOfConflicts)
              && (i < |paths| && agents[i].id !in ids ==> agents'[i].path == paths'[i] && paths'[i].freeOfConflicts)
              && (i >= |paths| ==> agents'[i] == agents[i])
    ensures var paths' := Commit(agents, paths, ids).1;
            forall i :: |agents| <= i < |paths| ==> paths'[i] == paths[i]
  {
  }

  /**
   * The agents in conflict are exactly the parties of the earliest and of the queued
   * conflicts; a settled goal state has none, so every agent takes its final path.
   */
  lemma ConflictAgentsRule(s: CBSState)
    ensures ConflictAgents(s).Some? ==>
              forall k :: k in ConflictAgents(s).value <==>
                (s.earliest.Some? && (s.earliest.value.agent1 == k || s.earliest.value.agent2 == k))
                || exists c :: c in s.conflicts && (c.agent1 == k || c.agent2 == k)
    ensures Settled(s) ==> ConflictAgents(s).Some?
    ensures Settled(s) && s.earliest.None? ==> ConflictAgents(s) == Some({})
  {
    if s.earliest.Some? {
      var q := [s.earliest.value] + s.conflicts;
      PartyIdsRule(q);
      assert forall c :: c in q <==> c == s.earliest.value || c in s.conflicts;
    }
  }

  /** At a settled goal every agent with a path takes it, flagged free of conflicts. */
  lemma GoalCommitsAll(agents: seq<Agent>, s: CBSState)
    requires Settled(s) && s.earliest.None?
    ensures var (agents', paths') := Commit(agents, s.paths, ConflictAgents(s).value);
            forall i :: 0 <= i < |agents| && i < |s.paths| ==>
              agents'[i].path == s.paths[i].(freeOfConflicts := true) && paths'[i].freeOfConflicts
  {
    ConflictAgentsRule(s);
  }

  /**
   * returnFromGoalState on a state: the agents after the commit, and whether it completed
   * without throwing.
   */
  function GoalCommit(agents: seq<Agent>, s: CBSState): (r: (seq<Agent>, bool))
    ensures |r.0| == |agents|
  {
    match ConflictAgents(s)
    case None => (agents, false)
    case Some(ids) => (Commit(agents, s.paths, ids).0, |s.paths| >= |agents|)
  }

  /**
   * returnFromGoalState throws exactly when conflicts are queued without an earliest one
   * (a null dereference, before any agent is reached) or when the state holds fewer paths
   * than there are agents (an index past the end, after the agents it holds paths for);
   * it completes at a settled goal with a path for every agent, and every agent then
   * takes its final path, flagged free of conflicts.
   */
  lemma GoalCommitRule(agents: seq<Agent>, s: CBSState)
    ensures !GoalCommit(agents, s).1 <==> (s.earliest.None? && s.conflicts != []) || |s.paths| < |agents|
    ensures s.earliest.None? && s.conflicts != [] ==> GoalCommit(agents, s).0 == agents
    ensures Settled(s) && s.earliest.None? && |s.paths| >= |agents| ==>
              && GoalCommit(agents, s).1
              && forall i :: 0 <= i < |agents| ==> GoalCommit(agents, s).0[i].path == s.paths[i].(freeOfConflicts := true)
  {
    if Settled(s) && s.earliest.None? {
      GoalCommitsAll(agents, s);
      ConflictAgentsRule(s);
    }
  }

  /**
   * A goal polled by the engine runs returnFromGoalState on the agents as they stand: the
   * step ends the search with the committed agents, as a goal when the commit completes
   * and as an exception otherwise.
   */
  lemma GoalStepCommits(st: CBSSetting, planner: Planner, weight: real, bound: real, best: CBSNode,
                        lists: Lists<CBSNode, CBSNode, CBSTables>)
    requires IsGoalNode(best) == Goal
    ensures var r := Explore(SearchHooks(st, planner), planner.ECBSPlanner?, weight, bound, best, lists);
            && r.1.tables.agents == GoalCommit(lists.tables.agents, best.state).0
            && r.1.tables.pairs == lists.tables.pairs
            && (r.0 == GoalReached <==> GoalCommit(lists.tables.agents, best.state).1)
            && (r.0 == Thrown <==> !GoalCommit(lists.tables.agents, best.state).1)
  {
  }

  lemma PartyIdsSnoc(q: seq<AgentConflictValue>, c: AgentConflictValue)
    ensures PartyIds(q + [c]) == PartyIds(q) + {c.agent1, c.agent2}
  {
    assert (q + [c])[..|q|] == q;
  }

  /** The loop collecting the agents of the earliest and of every queued conflict. */
  method ConflictIds(s: CBSState) returns (ids: Option<set<AgentId>>)
    ensures ids == ConflictAgents(s)
  {
    if s.earliest.None? {
      return if s.conflicts == [] then Some({}) else None;
    }
    var found := {s.earliest.value.agent1, s.earliest.value.agent2};
    assert found == PartyIds([s.earliest.value]);
    for j := 0 to |s.conflicts|
      invariant found == PartyIds([s.earliest.value] + s.conflicts[..j])
    {
      assert [s.earliest.value] + s.conflicts[..j + 1] == ([s.earliest.value] + s.conflicts[..j]) + [s.conflicts[j]];
      PartyIdsSnoc([s.earliest.value] + s.conflicts[..j], s.conflicts[j]);
      found := found + {s.conflicts[j].agent1, s.conflicts[j].agent2};
    }
    assert s.conflicts[..|s.conflicts|] == s.conflicts;
    ids := Some(found);
  }

  /**
   * The loop of returnFromGoalState over the agents, up to the end of the path list:
   * it flags each final path and hands it to its agent when the agent is not in conflict.
   */
  method CommitLoop(agents: seq<Agent>, paths: seq<Path>, ids: set<AgentId>)
    returns (agents': seq<Agent>, paths': seq<Path>)
    ensures (agents', paths') == Commit(agents, paths, ids)
  {
    ghost var goal := Commit(agents, paths, ids);
    CommitRule(agents, paths, ids);
    agents', paths' := agents, paths;
    var i := 0;
    while i < |agents| && i < |paths|
      invariant 0 <= i <= |agents| && i <= |paths| && |agents'| == |agents| && |paths'| == |paths|
      invariant forall j :: 0 <= j < i ==> agents'[j] == goal.0[j] && paths'[j] == goal.1[j]
      invariant forall j :: i <= j < |agents| ==> agents'[j] == agents[j]
      invariant forall j :: i <= j < |paths| ==> paths'[j] == paths[j]
    {
      var flagged := paths'[i].(freeOfConflicts := agents'[i].id !in ids);
      paths' := paths'[i := flagged];
      if agents'[i].id !in ids {
        agents' := agents'[i := agents'[i].(path := flagged)];
      }
      i := i + 1;
    }
    assert agents' == goal.0;
    assert paths' == goal.1;
  }

  // ---------------------------------------------------------------- the search object

  /** The fields CBSSearch and ECBSSearch keep besides the engine's lists. */
  class CBSSearch {
    var initialCost: real
    var finalCost: real
    var conflictCounter: int
    var agents: seq<Agent>
    const planner: Planner
    /** Conflict detection, the single-agent planner, the heuristic and the map's claimed moves. */
    const oracles: CBSSetting

    /** What the states see: the oracles with the search's agents. */
    function Setting(): CBSSetting
      reads this
    {
      oracles.(agents := agents)
    }

    /** The counters start at zero (Java's defaults). */
    constructor (agents: seq<Agent>, oracles: CBSSetting, planner: Planner)
      ensures this.agents == agents && this.oracles == oracles && this.planner == planner
      ensures initialCost == 0.0 && finalCost == 0.0 && conflictCounter == 0
    {
      this.agents := agents;
      this.oracles := oracles;
      this.planner := planner;
      initialCost, finalCost, conflictCounter := 0.0, 0.0, 0;
    }

    /** reset: the initial cost, the final cost and the conflict counter go back to zero. */
    method Reset()
      modifies this`initialCost, this`finalCost, this`conflictCounter
      ensures initialCost == 0.0 && finalCost == 0.0 && conflictCounter == 0
    {
      initialCost, finalCost, conflictCounter := 0.0, 0.0, 0;
    }

    /**
     * createStartState: the initial cost gains every path's span, and the root holds the
     * start state (its f set to its bound in ECBS) and the pair table it shares. None when
     * an agent does not resolve.
     */
    method CreateStartState() returns (root: Option<(CBSNode, PairTable)>)
      modifies this`initialCost
      ensures initialCost == old(initialCost) + Sum(Spans(agents))
      ensures root.None? <==> StartState(Setting(), planner, old(initialCost)).None?
      ensures root.Some? ==>
                var (s, table) := StartState(Setting(), planner, old(initialCost)).value;
                root.value == (RootNode(planner, s), table)
    {
      var st := Setting();
      var paths, cost, appended := GetInitialPaths(agents, initialCost, planner);
      var variant := match planner
                     case CBSPlanner => Plain
                     case GreedyPlanner => Greedy([], 0, 0.0)
                     case ECBSPlanner(weight) => Enhanced(appended, DOUBLE_MAX, weight);
      if planner.ECBSPlanner? {
        // setting the paths recomputes fMin, replacing the appended spans
        var fMin := ComputeFMinAgents(paths);
        variant := Enhanced(fMin, DOUBLE_MAX, planner.weight);
      }
      assert paths == InitialPaths(agents);
      var start := CBSState(Costs(-1.0, DOUBLE_MAX, -1.0), cost, paths, None, [], map[], None, variant);
      assert start == Start(planner, st.agents, initialCost);
      initialCost := cost;
      var found := FindAllConflictsLoop(st, start, map[]);
      if found.None? {
        return None;
      }
      var (s, table) := found.value;
      if planner.ECBSPlanner? {
        var fMin := ComputeFMinAgents(s.paths);
        var lowerBound := ComputeLowerBound(fMin);
        s := s.(variant := Enhanced(fMin, lowerBound, planner.weight));
      }
      root := Some((RootNode(planner, s), table));
    }

    /**
     * returnFromGoalState, which updateNoSolution also runs: the agents of the remaining
     * conflicts keep their paths and see their final paths flagged not free; every other
     * agent takes its final path, flagged free. Gives the flagged final paths; None when
     * the Java code throws, with the agents committed so far kept. This is the engine's goal
     * and no-solution hook for CBS (GoalCommit).
     */
    method ReturnFromGoalState(s: CBSState) returns (finalPaths: Option<seq<Path>>)
      modifies this`agents
      ensures (agents, finalPaths.Some?) == GoalCommit(old(agents), s)
      ensures ConflictAgents(s).None? ==> finalPaths.None? && agents == old(agents)
      ensures ConflictAgents(s).Some? ==>
                var (agents', paths') := Commit(old(agents), s.paths, ConflictAgents(s).value);
                && agents == agents'
                && finalPaths == if |s.paths| < |old(agents)| then None else Some(paths')
    {
      var ids := ConflictIds(s);
      if ids.None? {
        return None;
      }
      var committed, paths := CommitLoop(agents, s.paths, ids.value);
      agents := committed;
      finalPaths := if |paths| < |committed| then None else Some(paths);
    }
  }
}

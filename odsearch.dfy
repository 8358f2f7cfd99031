/**
 * The OD* search (ODStarSearch.java): the g cost of a move, the goal test, the revisit
 * policy of processNeighbors, the engine's hooks, and the agents and root state a search
 * starts from.
 */
module ODSearch {
  import opened Wrappers
  import opened Geometry
  import opened Trees
  import opened Queues
  import opened Comparators
  import opened BestFirst
  import opened ODStar

  // ---------------------------------------------------------------- g costs and the goal

  /**
   * computeAndUpdateGCost's step for the agent that moved: the distance between its
   * positions in the two states, plus one when it stays put away from its goal.
   */
  function GStep(world: World, current: ODState, neighbor: ODState): real
    requires current.WellFormed() && current.mover in neighbor.positions
  {
    var from := current.positions[current.mover];
    var to := neighbor.positions[current.mover];
    var waiting := from.At() == to.At() && from.At() != current.agents[current.mover].goal.At();
    (if waiting then 1.0 else 0.0) + world.distance(from, to)
  }

  /**
   * With a metric, a step costs at least its distance and never less than zero; a wait
   * away from the goal costs exactly one, and a wait at the goal costs nothing.
   */
  lemma GStepRule(world: World, current: ODState, neighbor: ODState)
    requires current.WellFormed() && current.mover in neighbor.positions
    requires Metric(world)
    ensures var from := current.positions[current.mover];
            var to := neighbor.positions[current.mover];
            && GStep(world, current, neighbor) >= world.distance(from, to) >= 0.0
            && (from.At() == to.At() && from.At() != current.agents[current.mover].goal.At() ==>
                  GStep(world, current, neighbor) == 1.0)
            && (from.At() == to.At() == current.agents[current.mover].goal.At() ==>
                  GStep(world, current, neighbor) == 0.0)
  {
    var from := current.positions[current.mover];
    var to := neighbor.positions[current.mover];
    assert world.distance(from, to) >= 0.0;
  }

  /** isGoalNode: every agent of the group stands at its goal. */
  predicate IsGoal(st: ODSetting, s: ODState)
  {
    forall k :: k in st.agents ==>
      st.agents[k].id in s.positions && st.agents[k].goal.At() == s.positions[st.agents[k].id].At()
  }

  /**
   * Every agent that has finished stands at its goal: updateAgents marks a path found only
   * when the mover reaches its goal.
   */
  predicate FinishedAtGoal(s: ODState)
  {
    forall i :: i in s.agents && s.agents[i].hasPath ==>
      i in s.positions && s.positions[i].At() == s.agents[i].goal.At()
  }

  /** While the mover has not finished in the state's own table, children keep every finished agent at its goal. */
  lemma ChildFinishedAtGoal(s: ODState, neighbor: Position, line: PathLine)
    requires s.WellFormed() && Active(s) && FinishedAtGoal(s)
    requires !s.agents[s.mover].hasPath
    ensures FinishedAtGoal(CreateChildState(s, neighbor, line))
  {
    var child := CreateChildState(s, neighbor, line);
    ChildPositionsRule(s, neighbor, line);
    ChildAgentsRule(s, neighbor, line);
    forall i | i in child.agents && child.agents[i].hasPath
      ensures i in child.positions && child.positions[i].At() == child.agents[i].goal.At()
    {
      if i == s.mover {
        assert child.agents[i] == UpdatedAgent(s.agents[i], neighbor);
      } else {
        assert child.agents[i] == s.agents[i];
      }
    }
  }

  /**
   * The next agent is chosen from the parent's table, in which the mover has not yet
   * reached its goal, so a mover that has just finished can be chosen again. Its next
   * move then keeps it marked finished wherever it goes: a move off its goal leaves a
   * finished agent away from its goal.
   */
  lemma FinishedMoverCanLeaveGoal(s: ODState, neighbor: Position, line: PathLine)
    requires s.WellFormed() && Active(s)
    requires s.agents[s.mover].hasPath && neighbor.At() != s.agents[s.mover].goal.At()
    ensures !FinishedAtGoal(CreateChildState(s, neighbor, line))
  {
    var child := CreateChildState(s, neighbor, line);
    ChildPositionsRule(s, neighbor, line);
    ChildAgentsRule(s, neighbor, line);
    assert child.agents[s.mover] == UpdatedAgent(s.agents[s.mover], neighbor);
  }

  /**
   * A state whose agents have all finished, with the search's goals in its agents, is a
   * goal: the search stops there and never expands it, so the next-agent search of its
   * children, which would never end, is never started.
   */
  lemma InactiveIsGoal(st: ODSetting, s: ODState)
    requires s.WellFormed() && FinishedAtGoal(s) && !Active(s)
    requires forall k :: k in st.agents ==> st.agents[k].id == k && k in s.agents && st.agents[k].goal == s.agents[k].goal
    ensures IsGoal(st, s)
  {
  }

  // ---------------------------------------------------------------- processNeighbors

  /** A search-tree node of OD*: a state and the node it was reached from. */
  datatype ODNode = ODNode(state: ODState, parent: Option<ODNode>)

  /**
   * createNewNode: the timestep becomes the mover's ETA, not truncated, and h the
   * heuristic of the state's agents, which brings f up to date from the g copied from the
   * parent.
   */
  function Timed(st: ODSetting, neighbor: ODState): (t: ODState)
    requires neighbor.mover in neighbor.positions
    ensures t.timestep == neighbor.positions[neighbor.mover].eta
    ensures t.costs == neighbor.costs.WithH(st.heuristic(neighbor.agents))
    ensures t.(timestep := neighbor.timestep, costs := neighbor.costs) == neighbor
  {
    neighbor.(timestep := neighbor.positions[neighbor.mover].eta,
              costs := neighbor.costs.WithH(st.heuristic(neighbor.agents)))
  }

  /** The children made so far and the table of created nodes. */
  datatype Frontier = Frontier(children: seq<ODNode>, created: map<StateKey, ODNode>)

  /**
   * One neighbour of processNeighbors. An intermediate neighbour that is not a goal and
   * equals a closed node is skipped. Otherwise its g is set, which leaves f stale, and it
   * is dropped when it is closed but was never created; it is added when it is a goal,
   * was never created, is standard, or improves on the g of the created node.
   */
  function ProcessOne(st: ODSetting, current: ODNode, closed: set<StateKey>, acc: Frontier,
                      neighbor: ODState): Frontier
    requires ChildOf(current.state, neighbor)
  {
    var timed := Timed(st, neighbor);
    var goalNode := IsGoal(st, timed);
    var key := VoxelKey(timed);
    var expanded := key in closed;
    if !goalNode && expanded && !timed.standard then acc
    else
      var costed := timed.(costs := timed.costs.WithG(current.state.costs.g + GStep(st.world, current.state, timed)));
      var node := ODNode(costed, Some(current));
      var duplicate := key in acc.created;
      if expanded && !duplicate then acc
      else if goalNode || !duplicate || costed.standard || costed.costs.g < acc.created[key].state.costs.g then
        Frontier(acc.children + [node], acc.created[key := node])
      else acc
  }

  /** processNeighbors over a list of neighbours, in order. */
  function ProcessAll(st: ODSetting, current: ODNode, closed: set<StateKey>, start: Frontier,
                      neighbors: seq<ODState>): Frontier
    requires forall n :: n in neighbors ==> ChildOf(current.state, n)
    decreases |neighbors|
  {
    if neighbors == [] then start
    else
      ProcessOne(st, current, closed,
                 ProcessAll(st, current, closed, start, neighbors[..|neighbors| - 1]),
                 neighbors[|neighbors| - 1])
  }

  /**
   * The revisit policy on one neighbour. A neighbour never created is added exactly when
   * it is not closed. One already created is added exactly when it is a goal, open or
   * standard, and also a goal, standard or lower in g than the created node. An added
   * child hangs from the current node, its g is the current g plus the step, its f stays
   * the copied g plus the new h, and it replaces the created node of its key; otherwise
   * nothing changes.
   */
  lemma ProcessOneRule(st: ODSetting, current: ODNode, closed: set<StateKey>, acc: Frontier,
                       neighbor: ODState)
    requires ChildOf(current.state, neighbor)
    ensures var r := ProcessOne(st, current, closed, acc, neighbor);
            var key := VoxelKey(neighbor);
            var goalNode := IsGoal(st, neighbor);
            var g := current.state.costs.g + GStep(st.world, current.state, neighbor);
            var added := if key in acc.created
                         then (goalNode || key !in closed || neighbor.standard)
                              && (goalNode || neighbor.standard || g < acc.created[key].state.costs.g)
                         else key !in closed;
            && (added ==> |r.children| == |acc.children| + 1 && r.children[..|acc.children|] == acc.children
                          && var c := r.children[|acc.children|];
                          && c.parent == Some(current) && c.state.positions == neighbor.positions
                          && c.state.costs.g == g
                          && c.state.costs.f == neighbor.costs.g + c.state.costs.h
                          && r.created == acc.created[key := c])
            && (!added ==> r == acc)
  {
    var r := ProcessOne(st, current, closed, acc, neighbor);
    var timed := Timed(st, neighbor);
    assert VoxelKey(timed) == VoxelKey(neighbor);
    assert IsGoal(st, timed) == IsGoal(st, neighbor);
    assert GStep(st.world, current.state, timed) == GStep(st.world, current.state, neighbor);
    if r != acc {
      assert r.children[..|acc.children|] == acc.children;
    }
  }

  /**
   * What processNeighbors guarantees of the children it makes: each hangs from the current
   * node, is a goal, was not closed or is standard, has its key in the table of created
   * nodes, and carries a stale f made of the current g and its own h.
   */
  lemma {:induction false} ProcessAllChildren(st: ODSetting, current: ODNode, closed: set<StateKey>,
                                              start: Frontier, neighbors: seq<ODState>)
    requires forall n :: n in neighbors ==> ChildOf(current.state, n) && n.costs == current.state.costs
    ensures var r := ProcessAll(st, current, closed, start, neighbors);
            && |start.children| <= |r.children| <= |start.children| + |neighbors|
            && r.children[..|start.children|] == start.children
            && start.created.Keys <= r.created.Keys
            && forall i :: |start.children| <= i < |r.children| ==>
                 var c := r.children[i];
                 && c.parent == Some(current)
                 && c.state.costs.f == current.state.costs.g + c.state.costs.h
                 && (IsGoal(st, c.state) || VoxelKey(c.state) !in closed || c.state.standard)
                 && VoxelKey(c.state) in r.created
    decreases |neighbors|
  {
    if neighbors != [] {
      var front := neighbors[..|neighbors| - 1];
      var last := neighbors[|neighbors| - 1];
      assert forall n :: n in front ==> n in neighbors;
      ProcessAllChildren(st, current, closed, start, front);
      var acc := ProcessAll(st, current, closed, start, front);
      ProcessOneRule(st, current, closed, acc, last);
      var r := ProcessAll(st, current, closed, start, neighbors);
      if r != acc {
        var c := r.children[|acc.children|];
        assert VoxelKey(c.state) == VoxelKey(last);
        assert IsGoal(st, c.state) == IsGoal(st, last);
      }
    }
  }

  /** One pass of processNeighbors' loop body: the neighbour is timed, skipped, or costed and added. */
  method ProcessNeighbor(st: ODSetting, neighbor: ODState, current: ODNode, closed: set<StateKey>,
                         children: seq<ODNode>, created: map<StateKey, ODNode>)
    returns (children': seq<ODNode>, created': map<StateKey, ODNode>)
    requires ChildOf(current.state, neighbor)
    ensures Frontier(children', created') == ProcessOne(st, current, closed, Frontier(children, created), neighbor)
  {
    children', created' := children, created;
    var timed := Timed(st, neighbor);
    var goalNode := IsGoal(st, timed);
    var key := VoxelKey(timed);
    var expanded := key in closed;
    if !goalNode && expanded && !timed.standard {
      return;
    }
    timed := timed.(costs := timed.costs.WithG(current.state.costs.g + GStep(st.world, current.state, timed)));
    var duplicate := key in created;
    if expanded && !duplicate {
    } else if goalNode || !duplicate || timed.standard || timed.costs.g < created[key].state.costs.g {
      var node := ODNode(timed, Some(current));
      created' := created[key := node];
      children' := children + [node];
    }
  }

  /**
   * processNeighbors as the loop it is: each neighbour is timed and given its h, skipped,
   * or costed and then added when the revisit policy lets it in.
   */
  method ProcessNeighbors(st: ODSetting, neighbors: seq<ODState>, current: ODNode,
                          closed: set<StateKey>, created: map<StateKey, ODNode>)
    returns (children: seq<ODNode>, created': map<StateKey, ODNode>)
    requires forall n :: n in neighbors ==> ChildOf(current.state, n)
    ensures Frontier(children, created') == ProcessAll(st, current, closed, Frontier([], created), neighbors)
  {
    children, created' := [], created;
    var i := 0;
    while i < |neighbors|
      invariant 0 <= i <= |neighbors|
      invariant Frontier(children, created') == ProcessAll(st, current, closed, Frontier([], created), neighbors[..i])
    {
      assert neighbors[..i + 1][..i] == neighbors[..i];
      assert neighbors[i] in neighbors;
      children, created' := ProcessNeighbor(st, neighbors[i], current, closed, children, created');
      i := i + 1;
    }
    assert neighbors[..|neighbors|] == neighbors;
  }

  // ---------------------------------------------------------------- expandNode and the search

  /**
   * expandNode: the children of expand, passed through processNeighbors. When every agent
   * of the state has finished, the next-agent search of the Java code never ends; the model
   * gives no children there (`InactiveIsGoal`: such a state is a goal as long as its
   * finished agents stand at their goals, and goals are not expanded).
   */
  function ExpandNode(st: ODSetting, best: ODNode, closed: set<StateKey>, created: map<StateKey, ODNode>)
    : (r: (seq<ODNode>, map<StateKey, ODNode>))
    ensures !(best.state.WellFormed() && Active(best.state)) ==> r == ([], created)
  {
    if best.state.WellFormed() && Active(best.state) then
      LegalFromChildren(st, best.state, NeighborPositions(st, best.state));
      var f := ProcessAll(st, best, closed, Frontier([], created), Expansion(st, best.state));
      (f.children, f.created)
    else ([], created)
  }

  /**
   * The children of expandNode: at most one per legal neighbour, each hanging from the
   * expanded node, a goal or open or standard, recorded among the created nodes, with
   * its f made of the expanded node's g and its own h.
   */
  lemma ExpandNodeChildren(st: ODSetting, best: ODNode, closed: set<StateKey>, created: map<StateKey, ODNode>)
    requires best.state.WellFormed() && Active(best.state)
    ensures var r := ExpandNode(st, best, closed, created);
            && |r.0| <= |Expansion(st, best.state)|
            && created.Keys <= r.1.Keys
            && forall i :: 0 <= i < |r.0| ==>
                 var c := r.0[i];
                 && c.parent == Some(best)
                 && c.state.costs.f == best.state.costs.g + c.state.costs.h
                 && (IsGoal(st, c.state) || VoxelKey(c.state) !in closed || c.state.standard)
                 && VoxelKey(c.state) in r.1
  {
    LegalFromChildren(st, best.state, NeighborPositions(st, best.state));
    ProcessAllChildren(st, best, closed, Frontier([], created), Expansion(st, best.state));
  }

  /** The open list's WeightedFValueComparator, on the nodes' states. */
  function NodeCompare(weight: real, a: ODNode, b: ODNode): int
  {
    WeightedFValueComparator(weight).Compare(a.state.costs, b.state.costs)
  }

  /** The node comparator is a total preorder. */
  lemma NodeCompareIsOrder(weight: real)
    ensures TotalPreorder((a: ODNode, b: ODNode) => NodeCompare(weight, a, b))
  {
    var cmp := WeightedFValueComparator(weight);
    var byNode := (a: ODNode, b: ODNode) => NodeCompare(weight, a, b);
    WeightedCompareIsOrder(cmp);
    forall a: ODNode, b: ODNode, c: ODNode | RanksBefore(byNode, a, b) && RanksBefore(byNode, b, c)
      ensures RanksBefore(byNode, a, c)
    {
      assert RanksBefore(cmp.Compare, a.state.costs, b.state.costs);
      assert RanksBefore(cmp.Compare, b.state.costs, c.state.costs);
      assert RanksBefore(cmp.Compare, a.state.costs, c.state.costs);
    }
    forall a: ODNode, b: ODNode ensures RanksBefore(byNode, a, b) || RanksBefore(byNode, b, a)
    {
      assert RanksBefore(cmp.Compare, a.state.costs, b.state.costs)
             || RanksBefore(cmp.Compare, b.state.costs, a.state.costs);
    }
  }

  /**
   * The engine's hooks for OD*: the weighted comparator, equality by voxels, the goal
   * test on every agent's goal, no validity check, only standard states closed,
   * expandNode with its table of created nodes, and an empty returnFromGoalState and
   * updateNoSolution.
   */
  function SearchHooks(st: ODSetting): Hooks<ODNode, StateKey, map<StateKey, ODNode>>
  {
    Hooks((a: ODNode, b: ODNode) => NodeCompare(st.weight, a, b),
          (a: ODNode, b: ODNode) => NodeCompare(st.weight, a, b),
          (n: ODNode) => VoxelKey(n.state), (a: ODNode, b: ODNode) => Equals(a.state, b.state),
          (n: ODNode) => n.state.costs.f,
          (n: ODNode, focal: multiset<ODNode>) => if IsGoal(st, n.state) then Goal else NotGoal,
          (n: ODNode) => true, (n: ODNode) => n.state.standard,
          (n: ODNode, closed: set<StateKey>, created: map<StateKey, ODNode>) => ExpandNode(st, n, closed, created),
          (n: ODNode, created: map<StateKey, ODNode>) => (created, true),
          (n: ODNode, created: map<StateKey, ODNode>) => (created, true))
  }

  lemma SearchHooksOrdered(st: ODSetting)
    ensures Ordered(SearchHooks(st))
  {
    NodeCompareIsOrder(st.weight);
    assert SearchHooks(st).cmp == (a: ODNode, b: ODNode) => NodeCompare(st.weight, a, b);
  }

  // ---------------------------------------------------------------- the agents and the root

  /** preprocessAgentPaths on one agent: its path is cut back to its start, and its index set. */
  function Preprocessed(a: Agent, index: int): Agent
  {
    a.(path := a.path.(waypoints := [a.start]), index := index)
  }

  /** preprocessAgentPaths: every agent in turn, indexed by its place in the list. */
  method PreprocessAgentPaths(agents: seq<Agent>) returns (r: seq<Agent>)
    ensures r == PreprocessedList(agents)
  {
    r := [];
    var id := 0;
    while id < |agents|
      invariant 0 <= id <= |agents| && |r| == id
      invariant forall i :: 0 <= i < id ==> r[i] == Preprocessed(agents[i], i)
    {
      r := r + [Preprocessed(agents[id], id)];
      id := id + 1;
    }
  }

  /**
   * After preprocessing, every agent keeps its place, its path holds only its start, its
   * index is its place, and nothing else about it has changed.
   */
  lemma PreprocessedListRule(agents: seq<Agent>)
    ensures |PreprocessedList(agents)| == |agents|
    ensures forall i :: 0 <= i < |agents| ==>
              var a := PreprocessedList(agents)[i];
              && a.path.waypoints == [agents[i].start] && a.index == i
              && a.(path := agents[i].path, index := agents[i].index) == agents[i]
  {
  }

  /** The agent map of a list: each agent under its id, a later agent replacing an earlier one. */
  function AgentMap(xs: seq<Agent>): map<AgentId, Agent>
    decreases |xs|
  {
    if xs == [] then map[]
    else AgentMap(xs[..|xs| - 1])[xs[|xs| - 1].id := xs[|xs| - 1]]
  }

  /** The map holds the ids of the list, each under an agent of the list with that id. */
  lemma {:induction false} AgentMapKeys(xs: seq<Agent>)
    ensures forall k :: k in AgentMap(xs) <==> exists i :: 0 <= i < |xs| && xs[i].id == k
    ensures forall k :: k in AgentMap(xs) ==> exists i :: 0 <= i < |xs| && AgentMap(xs)[k] == xs[i] && xs[i].id == k
    decreases |xs|
  {
    if xs != [] {
      var n := |xs| - 1;
      var front := xs[..n];
      AgentMapKeys(front);
      assert AgentMap(xs) == AgentMap(front)[xs[n].id := xs[n]];
      forall k | k in AgentMap(xs)
        ensures exists i :: 0 <= i < |xs| && AgentMap(xs)[k] == xs[i] && xs[i].id == k
      {
        if k != xs[n].id {
          var i :| 0 <= i < n && AgentMap(front)[k] == front[i] && front[i].id == k;
          assert xs[i] == front[i];
          assert 0 <= i < |xs| && AgentMap(xs)[k] == xs[i] && xs[i].id == k;
        } else {
          assert 0 <= n < |xs| && AgentMap(xs)[k] == xs[n] && xs[n].id == k;
        }
      }
      forall k | exists i :: 0 <= i < |xs| && xs[i].id == k
        ensures k in AgentMap(xs)
      {
        var i :| 0 <= i < |xs| && xs[i].id == k;
        if i < n {
          assert front[i] == xs[i];
          assert k in AgentMap(front);
        }
      }
    }
  }

  /** An agent is the one kept under its id when no later agent has that id. */
  lemma {:induction false} AgentMapLastWins(xs: seq<Agent>, j: nat)
    requires j < |xs|
    requires forall l :: j < l < |xs| ==> xs[l].id != xs[j].id
    ensures xs[j].id in AgentMap(xs) && AgentMap(xs)[xs[j].id] == xs[j]
    decreases |xs|
  {
    if j < |xs| - 1 {
      AgentMapLastWins(xs[..|xs| - 1], j);
    }
  }

  /** When each agent's id is its place in the list, the map holds exactly the list, by place. */
  lemma {:induction false} AgentMapByPlace(xs: seq<Agent>)
    requires forall i :: 0 <= i < |xs| ==> xs[i].id == i
    ensures forall i :: i in AgentMap(xs) <==> 0 <= i < |xs|
    ensures |AgentMap(xs)| == |xs|
    ensures forall i :: 0 <= i < |xs| ==> AgentMap(xs)[i] == xs[i]
    decreases |xs|
  {
    if xs != [] {
      var n := |xs| - 1;
      var front := xs[..n];
      AgentMapByPlace(front);
      var m := AgentMap(front);
      assert n !in m;
      assert AgentMap(xs) == m[n := xs[n]];
      assert |AgentMap(xs)| == |m| + 1;
      forall i | 0 <= i < n ensures AgentMap(xs)[i] == xs[i]
      {
        assert front[i] == xs[i];
      }
    }
  }

  /** The preprocessed list: each agent preprocessed with its place as index. */
  function PreprocessedList(agents: seq<Agent>): seq<Agent>
  {
    seq(|agents|, i requires 0 <= i < |agents| => Preprocessed(agents[i], i))
  }

  /** createAgentMap: the agents are preprocessed, then put in a map under their ids. */
  method CreateAgentMap(agents: seq<Agent>) returns (m: map<AgentId, Agent>)
    ensures m == AgentMap(PreprocessedList(agents))
  {
    var list := PreprocessAgentPaths(agents);
    assert list == PreprocessedList(agents);
    m := map[];
    var i := 0;
    while i < |list|
      invariant 0 <= i <= |list|
      invariant m == AgentMap(list[..i])
    {
      assert list[..i + 1][..i] == list[..i];
      m := m[list[i].id := list[i]];
      i := i + 1;
    }
    assert list[..|list|] == list;
  }

  /**
   * A group whose ids are 0 up to its size: its agent map holds every agent, preprocessed,
   * under its id, and satisfies what the state requires of its agents and positions.
   */
  lemma GroupAgentMap(agents: seq<Agent>)
    requires forall i :: 0 <= i < |agents| ==> agents[i].id == i
    ensures var m := AgentMap(PreprocessedList(agents));
            && Indexed(m, StartPositions(m))
            && forall i :: 0 <= i < |agents| ==> i in m && m[i] == Preprocessed(agents[i], i)
  {
    AgentMapByPlace(PreprocessedList(agents));
  }

  /** createAgentPositionsMap: every agent at the start of its path, under its id. */
  function StartPositions(agents: map<AgentId, Agent>): map<AgentId, Position>
  {
    map k | k in agents :: agents[k].start
  }

  /**
   * createStartState: agent 0 moves first, the state is standard, g is 0 and h the
   * heuristic of the agents, whose setting brings f up to h; no moves or claims are
   * recorded, and the state's map copy is the search's obstacle table.
   */
  function Root(st: ODSetting): ODNode
  {
    ODNode(ODState(Costs(0.0, -1.0, -1.0).WithH(st.heuristic(st.agents)), StartPositions(st.agents), 0, true,
                   st.agents, map[], map[], st.obstacles, 0.0, 0),
           None)
  }

  /**
   * The root of a group whose ids are 0 up to its size is well formed as soon as the group
   * has an agent; it is standard, agent 0 moves, every agent stands at its start, no move
   * is recorded, g is 0 and f is h.
   */
  lemma RootWellFormed(st: ODSetting)
    requires forall i :: i in st.agents <==> 0 <= i < |st.agents|
    requires |st.agents| > 0
    ensures var s := Root(st).state;
            && s.WellFormed() && s.standard && s.mover == 0 && s.moves == map[]
            && s.costs.g == 0.0 && s.costs.h == st.heuristic(st.agents) && s.costs.f == s.costs.h
            && forall k :: k in st.agents ==> s.positions[k] == st.agents[k].start
  {
  }

  /**
   * The root is a goal exactly when every agent starts in the voxel of its goal (the
   * agents being kept under their ids).
   */
  lemma RootIsGoalIff(st: ODSetting)
    requires forall k :: k in st.agents ==> st.agents[k].id == k
    ensures IsGoal(st, Root(st).state) <==> forall k :: k in st.agents ==> st.agents[k].goal.At() == st.agents[k].start.At()
  {
    var s := Root(st).state;
    if IsGoal(st, s) {
      forall k | k in st.agents ensures st.agents[k].goal.At() == st.agents[k].start.At()
      {
        assert st.agents[k].id in s.positions;
      }
    }
  }

  /** When no agent of the group has finished, the root keeps every finished agent at its goal. */
  lemma RootFinishedAtGoal(st: ODSetting)
    requires forall k :: k in st.agents ==> !st.agents[k].hasPath
    ensures FinishedAtGoal(Root(st).state)
  {
  }
}

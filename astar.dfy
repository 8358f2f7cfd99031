/**
 * Single-agent A* on the voxel grid (AStarState.java and AStarSearch.java): states and
 * their 27-voxel neighbourhood, the g-cost rule in which a wait costs one, the revisit
 * policy of processNeighbors, the arrival-deadline check and the check of the last move
 * onto the exact goal, including the wait states inserted before an early arrival.
 */
module AStar {
  import opened Wrappers
  import opened Geometry
  import opened Trees
  import opened Queues
  import opened Seqs
  import opened Comparators
  import opened BestFirst

  // ---------------------------------------------------------------- states

  /** An A* state: its costs, the time it is reached, whether it is a wait, and its position. */
  datatype AStarState = AStarState(costs: Costs, timestep: real, waitMove: bool, position: Position)

  /** The constructor from g, h, f and a position: the timestep is the position's ETA. */
  function StateAt(costs: Costs, position: Position): (s: AStarState)
    ensures s.costs == costs && s.position == position
    ensures s.timestep == position.eta && !s.waitMove
  {
    AStarState(costs, position.eta, false, position)
  }

  /** The constructor from a position alone: g, h and f are all -1. */
  function Unvalued(position: Position): (s: AStarState)
    ensures s.costs == Costs(-1.0, -1.0, -1.0)
    ensures s.position == position && s.timestep == position.eta && !s.waitMove
  {
    StateAt(Costs(-1.0, -1.0, -1.0), position)
  }

  /** equals: this position against the other's position cast to its voxel. */
  predicate SameState(a: AStarState, b: AStarState)
  {
    a.position.At() == b.position.Voxel()
  }

  /** compareTo: by f alone. */
  function Compare(a: AStarState, b: AStarState): int
  {
    ThreeWay(a.costs.f, b.costs.f)
  }

  /** getLowerBound: f. */
  function LowerBound(s: AStarState): real
  {
    s.costs.f
  }

  /** clone: the costs and the position are copied; the wait flag is not, and the timestep is the ETA. */
  function Clone(s: AStarState): AStarState
  {
    StateAt(s.costs, s.position)
  }

  /**
   * Equality sees only the coordinates, zone and band of the two positions: costs, times,
   * time windows and wait flags play no part.
   */
  lemma SameStateIgnoresTime(a: AStarState, b: AStarState, a': AStarState, b': AStarState)
    requires a.position.At() == a'.position.At() && b.position.At() == b'.position.At()
    ensures SameState(a, b) == SameState(a', b')
  {
  }

  /** On grid positions equality is symmetric and is equality of the coordinates. */
  lemma SameStateOnGrid(a: AStarState, b: AStarState)
    requires a.position.OnGrid() && b.position.OnGrid()
    ensures SameState(a, b) == SameState(b, a) == (a.position.At() == b.position.At())
  {
  }

  /** Off the grid equality is not symmetric: (1, 0, 0) equals (1.5, 0, 0), not the reverse. */
  lemma SameStateNotSymmetric()
    ensures exists a, b :: SameState(a, b) && !SameState(b, a)
  {
    var p := Position(1.0, 0.0, 0.0, 30, 'T', 0.0, 0.0, 0.0, false);
    var q := p.(x := 1.5);
    var a, b := Unvalued(p), Unvalued(q);
    assert JavaInt(1.5) == 1;
    assert JavaInt(1.0) == 1;
    assert SameState(a, b) && !SameState(b, a);
  }

  /** The ordering ranks states by f and is a total preorder; the lower bound is the same f. */
  lemma CompareIsOrder()
    ensures forall a, b :: Compare(a, b) == -Compare(b, a)
    ensures forall a, b :: Compare(a, b) == 0 <==> LowerBound(a) == LowerBound(b)
    ensures forall a, b :: Compare(a, b) < 0 <==> LowerBound(a) < LowerBound(b)
    ensures TotalPreorder(Compare)
  {
  }

  /** A clone equals its original both ways on the grid, ranks equal to it, and has lost the wait flag. */
  lemma CloneKeepsIdentity(s: AStarState)
    requires s.position.OnGrid()
    ensures SameState(Clone(s), s) && SameState(s, Clone(s))
    ensures Compare(Clone(s), s) == 0 && Clone(s).costs == s.costs
    ensures !Clone(s).waitMove && Clone(s).timestep == s.position.eta
  {
  }

  // ---------------------------------------------------------------- the planner's setting

  /**
   * What an A* search is built with: the map (its oracles and the moves other agents
   * have claimed), the agent, the heuristic (it reads the positions of a state and of
   * the goal), AgentUtils.updateTimestep (the arrival time and wait flag it gives a
   * position reached from another at the agent's speed), and AlgorithmUtils.addWaitStates
   * (the positions of the wait states it inserts between an early arrival and the goal
   * at its ETA).
   */
  datatype Setting = Setting(
    world: World,
    obstacles: ObstacleTable,
    agent: Agent,
    heuristic: (Position, Position) -> real,
    timing: (Position, Position, real) -> (real, bool),
    waitStates: (Position, Position) -> seq<Position>)
  {
    /** createGoalState: the goal state holds the agent's goal position. */
    function Goal(): AStarState
    {
      Unvalued(agent.goal)
    }

    /** The voxel of the goal. */
    function GoalVoxel(): Place
    {
      agent.goal.Voxel()
    }

    /** AgentUtils.updateTimestep: the position with its arrival time and wait flag set. */
    function Arrive(p: Position, from: Position): (q: Position)
      ensures q.At() == p.At()
    {
      var (eta, isWait) := timing(p, from, agent.speed);
      p.(eta := eta, isWait := isWait)
    }

    /** A move of the agent is valid on the map. */
    predicate MoveValid(from: Position, to: Position)
    {
      world.isMoveValid(obstacles, PathLine(from, to, agent.id), GoalVoxel())
    }
  }

  /** createStartState: g is 0 and h the heuristic towards the goal, with f brought up to date. */
  function StartState(st: Setting): (s: AStarState)
    ensures s.position == st.agent.start && s.costs.g == 0.0 && s.costs.Consistent()
    ensures s.costs.h == st.heuristic(st.agent.start, st.agent.goal)
  {
    var s := StateAt(Costs(0.0, -1.0, -1.0), st.agent.start);
    s.(costs := s.costs.WithH(st.heuristic(s.position, st.Goal().position)))
  }

  // ---------------------------------------------------------------- neighbourhood

  /**
   * The voxel at offset (dx, dy, dz) from a position: the coordinates are cast to int and
   * the offset added in int arithmetic; zone and band are kept. The AgentPosition class is
   * not part of this model, so the time fields it is built with are taken as -1.
   */
  function Candidate(p: Position, dx: int, dy: int, dz: int): Position
  {
    Position(Int32(JavaInt(p.x) + dx) as real, Int32(JavaInt(p.y) + dy) as real,
             Int32(JavaInt(p.z) + dz) as real, p.zone, p.band, -1.0, -1.0, -1.0, false)
  }

  /** The offsets in the order the loops over x, then y, then z in -1..1 visit them. */
  function Offsets(): seq<(int, int, int)>
  {
    [
      (-1, -1, -1), (-1, -1, 0), (-1, -1, 1), (-1, 0, -1), (-1, 0, 0), (-1, 0, 1), (-1, 1, -1), (-1, 1, 0), (-1, 1, 1),
      (0, -1, -1), (0, -1, 0), (0, -1, 1), (0, 0, -1), (0, 0, 0), (0, 0, 1), (0, 1, -1), (0, 1, 0), (0, 1, 1),
      (1, -1, -1), (1, -1, 0), (1, -1, 1), (1, 0, -1), (1, 0, 0), (1, 0, 1), (1, 1, -1), (1, 1, 0), (1, 1, 1)]
  }

  /** The 27 voxels around a position in the loops' order. */
  function Candidates(p: Position): seq<Position>
  {
    seq(27, i requires 0 <= i < 27 => Candidate(p, Offsets()[i].0, Offsets()[i].1, Offsets()[i].2))
  }

  lemma OffsetIndex(x: int, y: int, z: int)
    requires -1 <= x <= 1 && -1 <= y <= 1 && -1 <= z <= 1
    ensures 9 * (x + 1) + 3 * (y + 1) + (z + 1) < |Offsets()|
    ensures Offsets()[9 * (x + 1) + 3 * (y + 1) + (z + 1)] == (x, y, z)
  {
    var o := Offsets();
    if x == -1 {
      if y == -1 { assert o[0] == (-1, -1, -1) && o[1] == (-1, -1, 0) && o[2] == (-1, -1, 1); }
      else if y == 0 { assert o[3] == (-1, 0, -1) && o[4] == (-1, 0, 0) && o[5] == (-1, 0, 1); }
      else { assert o[6] == (-1, 1, -1) && o[7] == (-1, 1, 0) && o[8] == (-1, 1, 1); }
    } else if x == 0 {
      if y == -1 { assert o[9] == (0, -1, -1) && o[10] == (0, -1, 0) && o[11] == (0, -1, 1); }
      else if y == 0 { assert o[12] == (0, 0, -1) && o[13] == (0, 0, 0) && o[14] == (0, 0, 1); }
      else { assert o[15] == (0, 1, -1) && o[16] == (0, 1, 0) && o[17] == (0, 1, 1); }
    } else {
      if y == -1 { assert o[18] == (1, -1, -1) && o[19] == (1, -1, 0) && o[20] == (1, -1, 1); }
      else if y == 0 { assert o[21] == (1, 0, -1) && o[22] == (1, 0, 0) && o[23] == (1, 0, 1); }
      else { assert o[24] == (1, 1, -1) && o[25] == (1, 1, 0) && o[26] == (1, 1, 1); }
    }
  }

  /**
   * The neighbourhood holds the 27 offsets in {-1, 0, 1}^3, each at its loop position, and
   * its middle entry is the wait: the position's own voxel.
   */
  lemma CandidatesAreNeighbourhood(p: Position)
    ensures |Candidates(p)| == 27
    ensures forall x, y, z :: -1 <= x <= 1 && -1 <= y <= 1 && -1 <= z <= 1 ==>
              Candidates(p)[9 * (x + 1) + 3 * (y + 1) + (z + 1)] == Candidate(p, x, y, z)
    ensures Candidates(p)[13].At() == p.Voxel()
  {
    forall x, y, z | -1 <= x <= 1 && -1 <= y <= 1 && -1 <= z <= 1
      ensures Candidates(p)[9 * (x + 1) + 3 * (y + 1) + (z + 1)] == Candidate(p, x, y, z)
    {
      OffsetIndex(x, y, z);
    }
    OffsetIndex(0, 0, 0);
  }

  /** getPossibleNeighborPositions: the neighbourhood voxels that are in the map, in loop order. */
  method GetPossibleNeighborPositions(world: World, p: Position, radius: real, goal: Place)
    returns (positions: seq<Position>)
    ensures positions == Keep(Candidates(p), c => world.inMap(c, goal, radius))
  {
    ghost var inMap := c => world.inMap(c, goal, radius);
    ghost var all := Candidates(p);
    ghost var i := 0;
    positions := [];
    var x := -1;
    while x <= 1
      invariant -1 <= x <= 2 && i == 9 * (x + 1)
      invariant positions == Keep(all[..i], inMap)
    {
      var y := -1;
      while y <= 1
        invariant -1 <= y <= 2 && i == 9 * (x + 1) + 3 * (y + 1)
        invariant positions == Keep(all[..i], inMap)
      {
        var z := -1;
        while z <= 1
          invariant -1 <= z <= 2 && i == 9 * (x + 1) + 3 * (y + 1) + (z + 1)
          invariant positions == Keep(all[..i], inMap)
        {
          var position := Candidate(p, x, y, z);
          OffsetIndex(x, y, z);
          assert all[i] == position;
          KeepSnoc(all, i, inMap);
          if world.inMap(position, goal, radius) {
            positions := positions + [position];
          }
          z, i := z + 1, i + 1;
        }
        y := y + 1;
      }
      x := x + 1;
    }
    assert all[..27] == all;
  }

  /** The state expand makes of an accepted move: no costs yet, and the move's wait flag. */
  function Successor(q: Position): AStarState
  {
    Unvalued(q).(waitMove := q.isWait)
  }

  /**
   * What expand makes of a list of neighbour voxels: each is given its arrival time from
   * `s` and kept when the move to it is valid.
   */
  function ExpandFrom(st: Setting, s: AStarState, positions: seq<Position>): (r: seq<AStarState>)
    ensures |r| <= |positions|
    decreases |positions|
  {
    if positions == [] then []
    else
      var q := st.Arrive(positions[|positions| - 1], s.position);
      ExpandFrom(st, s, positions[..|positions| - 1]) + (if st.MoveValid(s.position, q) then [Successor(q)] else [])
  }

  /** A state comes out of expand exactly when it is the successor of a voxel whose move is valid. */
  lemma {:induction false} ExpandFromMembers(st: Setting, s: AStarState, positions: seq<Position>, t: AStarState)
    ensures t in ExpandFrom(st, s, positions) <==>
              exists c :: c in positions && t == Successor(st.Arrive(c, s.position))
                          && st.MoveValid(s.position, st.Arrive(c, s.position))
    decreases |positions|
  {
    if positions != [] {
      var front := positions[..|positions| - 1];
      var last := positions[|positions| - 1];
      assert positions == front + [last];
      ExpandFromMembers(st, s, front, t);
      if t == Successor(st.Arrive(last, s.position)) && st.MoveValid(s.position, st.Arrive(last, s.position)) {
        assert t in ExpandFrom(st, s, positions);
      }
    }
  }

  /** The neighbour states of `s`. */
  function Expansion(st: Setting, s: AStarState): seq<AStarState>
  {
    ExpandFrom(st, s, Keep(Candidates(s.position), c => st.world.inMap(c, st.GoalVoxel(), st.agent.radius)))
  }

  /**
   * A state is a neighbour exactly when it comes from a neighbourhood voxel that is in the
   * map and the move to it is valid; it carries costs -1 and the move's wait flag.
   */
  lemma ExpansionMembers(st: Setting, s: AStarState, t: AStarState)
    ensures t in Expansion(st, s) <==>
              exists c :: c in Candidates(s.position) && st.world.inMap(c, st.GoalVoxel(), st.agent.radius)
                          && st.MoveValid(s.position, st.Arrive(c, s.position))
                          && t == Successor(st.Arrive(c, s.position))
    ensures t in Expansion(st, s) ==> t.costs == Costs(-1.0, -1.0, -1.0) && t.waitMove == t.position.isWait
  {
    var inMap := c => st.world.inMap(c, st.GoalVoxel(), st.agent.radius);
    KeepMembers(Candidates(s.position), inMap);
    ExpandFromMembers(st, s, Keep(Candidates(s.position), inMap), t);
  }

  /** expand: the neighbourhood voxels in the map whose move from `s` is valid, in order. */
  method Expand(st: Setting, s: AStarState) returns (neighbors: seq<AStarState>)
    ensures neighbors == Expansion(st, s)
  {
    var positions := GetPossibleNeighborPositions(st.world, s.position, st.agent.radius, st.GoalVoxel());
    neighbors := [];
    var i := 0;
    while i < |positions|
      invariant 0 <= i <= |positions|
      invariant neighbors == ExpandFrom(st, s, positions[..i])
    {
      assert positions[..i + 1][..i] == positions[..i];
      var q := st.Arrive(positions[i], s.position);
      if st.MoveValid(s.position, q) {
        neighbors := neighbors + [Successor(q)];
      }
      i := i + 1;
    }
    assert positions[..|positions|] == positions;
  }

  // ---------------------------------------------------------------- g costs

  /**
   * stateDistance: the distance from the current position to the neighbour, plus one
   * when the two positions coincide away from the goal.
   */
  function StateDistance(st: Setting, neighbor: AStarState, current: AStarState): real
  {
    var waiting := current.position.At() == neighbor.position.At()
                   && current.position.At() != st.Goal().position.At();
    (if waiting then 1.0 else 0.0) + st.world.distance(current.position, neighbor.position)
  }

  /**
   * computeAndUpdateGCost: the step is the state distance, raised to 1 when it is zero;
   * the neighbour's g becomes the current g plus the step, its f is left as it was.
   */
  function GCost(st: Setting, neighbor: AStarState, current: AStarState): (r: (AStarState, real))
    ensures r.1 != 0.0
    ensures r.1 == if StateDistance(st, neighbor, current) == 0.0 then 1.0 else StateDistance(st, neighbor, current)
    ensures r.0 == neighbor.(costs := neighbor.costs.WithG(current.costs.g + r.1))
  {
    var d := StateDistance(st, neighbor, current);
    var step := if d == 0.0 then d + 1.0 else d;
    (neighbor.(costs := neighbor.costs.WithG(current.costs.g + step)), step)
  }

  /** A wait, at the goal or elsewhere, costs exactly one. */
  lemma WaitCostsOne(st: Setting, neighbor: AStarState, current: AStarState)
    requires Metric(st.world)
    requires neighbor.position.At() == current.position.At()
    ensures GCost(st, neighbor, current).1 == 1.0
  {
    assert st.world.distance(current.position, neighbor.position) == 0.0;
  }

  /** Every step costs something: g strictly grows from a state to its successor. */
  lemma StepIsPositive(st: Setting, neighbor: AStarState, current: AStarState)
    requires Metric(st.world)
    ensures GCost(st, neighbor, current).1 > 0.0
    ensures GCost(st, neighbor, current).0.costs.g > current.costs.g
  {
    assert st.world.distance(current.position, neighbor.position) >= 0.0;
  }

  // ---------------------------------------------------------------- processNeighbors

  /** A search-tree node of A*: a state and the node it was reached from. */
  datatype ANode = ANode(state: AStarState, parent: Option<ANode>)

  /** The identity of a node in the closed list and the table of expanded nodes. */
  function Key(n: ANode): Place
  {
    n.state.position.At()
  }

  /** The open list's FValueComparator, on the nodes' states. */
  function NodeCompare(a: ANode, b: ANode): int
  {
    FValueCompare(a.state.costs, b.state.costs)
  }

  /** The nodes' natural order: their states' compareTo. */
  function NodeCompareByF(a: ANode, b: ANode): int
  {
    Compare(a.state, b.state)
  }

  function NodeLowerBound(n: ANode): real
  {
    LowerBound(n.state)
  }

  /** The node comparators are total preorders. */
  lemma NodeComparatorsAreOrders()
    ensures TotalPreorder(NodeCompare) && TotalPreorder(NodeCompareByF)
  {
    FValueCompareIsOrder();
    forall a, b, c | RanksBefore(NodeCompare, a, b) && RanksBefore(NodeCompare, b, c)
      ensures RanksBefore(NodeCompare, a, c)
    {
      assert RanksBefore(FValueCompare, a.state.costs, b.state.costs);
      assert RanksBefore(FValueCompare, b.state.costs, c.state.costs);
      assert RanksBefore(FValueCompare, a.state.costs, c.state.costs);
    }
    forall a, b ensures RanksBefore(NodeCompare, a, b) || RanksBefore(NodeCompare, b, a)
    {
      assert RanksBefore(FValueCompare, a.state.costs, b.state.costs)
             || RanksBefore(FValueCompare, b.state.costs, a.state.costs);
    }
  }

  /**
   * addNewNode with createNeighborNode: the neighbour's arrival time is set again from the
   * current position, then its timestep becomes the current timestep plus the travel time
   * of the step, its ETA the same time, and its h the heuristic, which brings f up to date.
   */
  function NewNode(st: Setting, current: ANode, neighbor: AStarState, step: real): (n: ANode)
    ensures n.parent == Some(current)
    ensures n.state.timestep == current.state.timestep + st.world.travelTime(step, st.agent.speed)
    ensures n.state.position.eta == n.state.timestep
    ensures n.state.position.At() == neighbor.position.At()
    ensures n.state.costs.g == neighbor.costs.g && n.state.costs.Consistent()
    ensures n.state.waitMove == neighbor.waitMove
  {
    var arrived := st.Arrive(neighbor.position, current.state.position);
    var t := current.state.timestep + st.world.travelTime(step, st.agent.speed);
    var timed := neighbor.(position := arrived.(eta := t), timestep := t);
    ANode(timed.(costs := timed.costs.WithH(st.heuristic(timed.position, st.Goal().position))), Some(current))
  }

  /** The children made so far and the table of expanded nodes. */
  datatype Frontier = Frontier(children: seq<ANode>, expanded: map<Place, ANode>)

  /**
   * One neighbour of processNeighbors. A neighbour that is not the goal voxel, is closed
   * and is not a wait is skipped. Otherwise its g is computed, and it is added when it is
   * the goal voxel, was never expanded, or improves on the g of the expanded node.
   */
  function ProcessOne(st: Setting, current: ANode, closed: set<Place>, acc: Frontier,
                      neighbor: AStarState): Frontier
  {
    var goalNode := neighbor.position.At() == st.GoalVoxel();
    if !goalNode && neighbor.position.At() in closed && !neighbor.waitMove then acc
    else
      var (costed, step) := GCost(st, neighbor, current.state);
      var visited := costed.position.At() in acc.expanded;
      if goalNode || !visited || costed.costs.g < acc.expanded[costed.position.At()].state.costs.g then
        var node := NewNode(st, current, costed, step);
        Frontier(acc.children + [node], acc.expanded[Key(node) := node])
      else acc
  }

  /** processNeighbors over a list of neighbours, in order. */
  function ProcessAll(st: Setting, current: ANode, closed: set<Place>, start: Frontier,
                      neighbors: seq<AStarState>): Frontier
    decreases |neighbors|
  {
    if neighbors == [] then start
    else
      ProcessOne(st, current, closed,
                 ProcessAll(st, current, closed, start, neighbors[..|neighbors| - 1]),
                 neighbors[|neighbors| - 1])
  }

  /**
   * The revisit policy on one neighbour: a child is added exactly when the neighbour is the
   * goal voxel, or is open or a wait and either was never expanded or lowers the recorded
   * g; an added child is recorded as the expanded node of its voxel, and nothing else
   * changes.
   */
  lemma ProcessOneRule(st: Setting, current: ANode, closed: set<Place>, acc: Frontier,
                       neighbor: AStarState)
    ensures var r := ProcessOne(st, current, closed, acc, neighbor);
            var key := neighbor.position.At();
            var goalNode := key == st.GoalVoxel();
            var g := current.state.costs.g + GCost(st, neighbor, current.state).1;
            var added := goalNode || ((key !in closed || neighbor.waitMove)
                                      && (key !in acc.expanded || g < acc.expanded[key].state.costs.g));
            && (added ==> |r.children| == |acc.children| + 1 && r.children[..|acc.children|] == acc.children
                          && key in r.expanded && r.expanded[key] == r.children[|acc.children|]
                          && r.expanded == acc.expanded[key := r.children[|acc.children|]]
                          && r.children[|acc.children|].state.costs.g == g)
            && (!added ==> r == acc)
  {
    var r := ProcessOne(st, current, closed, acc, neighbor);
    if r != acc {
      assert r.children[..|acc.children|] == acc.children;
    }
  }

  /**
   * What processNeighbors guarantees of the children it makes: each hangs from the
   * current node with a consistent f and a g above the current g by a non-zero step; each
   * is the goal voxel, was not closed, or is a wait; and each child's voxel ends up in the
   * table of expanded nodes, which loses no voxel.
   */
  lemma {:induction false} ProcessAllChildren(st: Setting, current: ANode, closed: set<Place>,
                                              start: Frontier, neighbors: seq<AStarState>)
    ensures var r := ProcessAll(st, current, closed, start, neighbors);
            && |start.children| <= |r.children| <= |start.children| + |neighbors|
            && r.children[..|start.children|] == start.children
            && start.expanded.Keys <= r.expanded.Keys
            && forall i :: |start.children| <= i < |r.children| ==>
                 var c := r.children[i];
                 && c.parent == Some(current) && c.state.costs.Consistent()
                 && c.state.costs.g - current.state.costs.g != 0.0
                 && (Key(c) == st.GoalVoxel() || Key(c) !in closed || c.state.waitMove)
                 && Key(c) in r.expanded
    decreases |neighbors|
  {
    if neighbors != [] {
      var front := neighbors[..|neighbors| - 1];
      var last := neighbors[|neighbors| - 1];
      ProcessAllChildren(st, current, closed, start, front);
      var acc := ProcessAll(st, current, closed, start, front);
      ProcessOneRule(st, current, closed, acc, last);
    }
  }

  /**
   * processNeighbors as the loop it is: each neighbour is skipped, or costed and then added
   * when the revisit policy lets it in.
   */
  method ProcessNeighbors(st: Setting, neighbors: seq<AStarState>, current: ANode,
                          closed: set<Place>, expanded: map<Place, ANode>)
    returns (children: seq<ANode>, expanded': map<Place, ANode>)
    ensures Frontier(children, expanded') == ProcessAll(st, current, closed, Frontier([], expanded), neighbors)
  {
    children, expanded' := [], expanded;
    var i := 0;
    while i < |neighbors|
      invariant 0 <= i <= |neighbors|
      invariant Frontier(children, expanded') == ProcessAll(st, current, closed, Frontier([], expanded), neighbors[..i])
    {
      assert neighbors[..i + 1][..i] == neighbors[..i];
      var neighbor := neighbors[i];
      i := i + 1;
      var goalNode := neighbor.position.At() == st.GoalVoxel();
      if !goalNode && neighbor.position.At() in closed && !neighbor.waitMove {
        continue;
      }
      var costed, step := GCost(st, neighbor, current.state).0, GCost(st, neighbor, current.state).1;
      var visited := costed.position.At() in expanded';
      if goalNode || !visited || costed.costs.g < expanded'[costed.position.At()].state.costs.g {
        var node := NewNode(st, current, costed, step);
        expanded' := expanded'[Key(node) := node];
        children := children + [node];
      }
    }
    assert neighbors[..|neighbors|] == neighbors;
  }

  /** expandNode: the neighbours of the best node's state, passed through processNeighbors. */
  function ExpandNode(st: Setting, best: ANode, closed: set<Place>, expanded: map<Place, ANode>)
    : (seq<ANode>, map<Place, ANode>)
  {
    var r := ProcessAll(st, best, closed, Frontier([], expanded), Expansion(st, best.state));
    (r.children, r.expanded)
  }

  // ---------------------------------------------------------------- the goal test

  /**
   * checkETAValidity: the node's own ETA plus the time to travel from `from` to the goal
   * must not pass the goal's latest arrival time.
   */
  predicate EtaValid(st: Setting, best: ANode, from: Position)
  {
    best.state.position.eta
      + st.world.travelTime(st.world.distance(from, st.Goal().position), st.agent.speed)
      <= st.Goal().position.maxEta
  }

  /**
   * The positions updateGoal walks back over when the goal is reached early: the early
   * arrival, the inserted wait states, and the goal at its ETA.
   */
  function WaitChain(st: Setting, early: Position, onTime: Position): (c: seq<Position>)
    ensures |c| >= 2 && c[0] == early && c[|c| - 1] == onTime
  {
    [early] + st.waitStates(early, onTime) + [onTime]
  }

  /**
   * The walk from entry i back towards the early arrival, stopping at the first entry whose
   * ETA is that of the early arrival: every move passed on the way must be valid.
   */
  function ChainValidFrom(st: Setting, chain: seq<Position>, i: int): bool
    requires 0 <= i < |chain|
    decreases i
  {
    if chain[i].eta == chain[0].eta then true
    else st.MoveValid(chain[i - 1], chain[i]) && ChainValidFrom(st, chain, i - 1)
  }

  /** When every move of the chain is valid, the walk succeeds. */
  lemma {:induction false} ChainValidComplete(st: Setting, chain: seq<Position>, i: int)
    requires 0 <= i < |chain|
    requires forall j :: 0 < j <= i ==> st.MoveValid(chain[j - 1], chain[j])
    ensures ChainValidFrom(st, chain, i)
    decreases i
  {
    if chain[i].eta != chain[0].eta {
      ChainValidComplete(st, chain, i - 1);
    }
  }

  /**
   * When no inserted wait shares the early arrival's ETA, a successful walk has checked
   * every move from the early arrival up to entry i.
   */
  lemma {:induction false} ChainValidSound(st: Setting, chain: seq<Position>, i: int)
    requires 0 <= i < |chain|
    requires forall j :: 0 < j <= i ==> chain[j].eta != chain[0].eta
    requires ChainValidFrom(st, chain, i)
    ensures forall j :: 0 < j <= i ==> st.MoveValid(chain[j - 1], chain[j])
    decreases i
  {
    if i > 0 {
      ChainValidSound(st, chain, i - 1);
    }
  }

  /** The walk of updateGoal over the wait chain, from the goal back to the early arrival. */
  method CheckWaitChain(st: Setting, chain: seq<Position>) returns (ok: bool)
    requires |chain| > 0
    ensures ok == ChainValidFrom(st, chain, |chain| - 1)
  {
    var i := |chain| - 1;
    while chain[i].eta != chain[0].eta
      invariant 0 <= i < |chain|
      invariant ChainValidFrom(st, chain, |chain| - 1) == ChainValidFrom(st, chain, i)
      decreases i
    {
      if !st.MoveValid(chain[i - 1], chain[i]) {
        return false;
      }
      i := i - 1;
    }
    return true;
  }

  /** The time the last move, from the parent onto the exact goal, arrives. */
  function GoalArrival(st: Setting, parent: AStarState): real
  {
    parent.timestep
      + st.world.travelTime(st.world.distance(st.agent.goal, parent.position), st.agent.speed)
  }

  /**
   * updateGoal on a copy of a node with a parent: the node is moved onto the exact goal and
   * timed from its parent. The last move must be valid; when it arrives before the goal's
   * earliest time, the goal is kept at its ETA behind inserted wait states, and every move
   * of that chain walked from the goal back to the early arrival must be valid as well.
   */
  function GoalUpdate(st: Setting, node: ANode): (ok: bool)
    requires node.parent.Some?
    ensures var parent := node.parent.value.state;
            var arrived := st.agent.goal.(eta := GoalArrival(st, parent));
            && (ok ==> st.MoveValid(parent.position, arrived))
            && (st.MoveValid(parent.position, arrived) && GoalArrival(st, parent) >= st.Goal().position.minEta ==> ok)
  {
    var parent := node.parent.value.state;
    var arrival := GoalArrival(st, parent);
    var arrived := st.agent.goal.(eta := arrival);
    if !st.MoveValid(parent.position, arrived) then false
    else if arrival < st.Goal().position.minEta then
      var chain := WaitChain(st, arrived, arrived.(eta := st.Goal().position.eta));
      ChainValidFrom(st, chain, |chain| - 1)
    else true
  }

  /** An early arrival is accepted exactly when the walk over its wait chain succeeds. */
  lemma EarlyArrivalNeedsValidWaits(st: Setting, node: ANode)
    requires node.parent.Some?
    requires GoalArrival(st, node.parent.value.state) < st.Goal().position.minEta
    ensures var arrived := st.agent.goal.(eta := GoalArrival(st, node.parent.value.state));
            var chain := WaitChain(st, arrived, arrived.(eta := st.Goal().position.eta));
            GoalUpdate(st, node) <==> st.MoveValid(node.parent.value.state.position, arrived)
                                      && ChainValidFrom(st, chain, |chain| - 1)
  {
  }

  /** updateGoal as the imperative code runs it. */
  method UpdateGoal(st: Setting, node: ANode) returns (ok: bool)
    requires node.parent.Some?
    ensures ok == GoalUpdate(st, node)
  {
    var parent := node.parent.value.state;
    var goalEta := st.Goal().position.eta;
    var minEta := st.Goal().position.minEta;
    var arrival := parent.timestep
                   + st.world.travelTime(st.world.distance(st.agent.goal, parent.position), st.agent.speed);
    var arrived := st.agent.goal.(eta := arrival);
    if !st.MoveValid(parent.position, arrived) {
      return false;
    }
    if arrival < minEta {
      ok := CheckWaitChain(st, WaitChain(st, arrived, arrived.(eta := goalEta)));
      return;
    }
    return true;
  }

  /**
   * updateGoal as written, on the goal ETA that the agent's goal, the goal state and the
   * node share (setPosition hands the node the agent's goal position itself): the ETA is
   * read, then the arrival overwrites it; an early arrival writes the value read back, for
   * the goal behind its wait states. Gives the outcome and the shared ETA afterwards.
   */
  function GoalUpdateAsWritten(st: Setting, node: ANode, sharedEta: real): (r: (bool, real))
    requires node.parent.Some?
    ensures r.1 == sharedEta || r.1 == GoalArrival(st, node.parent.value.state)
  {
    var parent := node.parent.value.state;
    var arrival := GoalArrival(st, parent);
    var arrived := st.agent.goal.(eta := arrival);
    if !st.MoveValid(parent.position, arrived) then (false, arrival)
    else if arrival < st.Goal().position.minEta then
      var chain := WaitChain(st, arrived, arrived.(eta := sharedEta));
      (ChainValidFrom(st, chain, |chain| - 1), sharedEta)
    else (true, arrival)
  }

  /** While the shared ETA is still the planned one, the code as written agrees with GoalUpdate. */
  lemma GoalUpdateAsWrittenAgrees(st: Setting, node: ANode)
    requires node.parent.Some?
    ensures GoalUpdateAsWritten(st, node, st.Goal().position.eta).0 == GoalUpdate(st, node)
  {
  }

  /**
   * A goal test whose last move onto the goal is invalid leaves its arrival time as the
   * goal's ETA; a later goal test at an early arrival then keeps the goal at that time
   * behind its wait states, not at the planned ETA.
   */
  lemma StaleGoalEta(st: Setting, first: ANode, second: ANode)
    requires first.parent.Some? && second.parent.Some?
    requires !st.MoveValid(first.parent.value.state.position,
                           st.agent.goal.(eta := GoalArrival(st, first.parent.value.state)))
    requires st.MoveValid(second.parent.value.state.position,
                          st.agent.goal.(eta := GoalArrival(st, second.parent.value.state)))
    requires GoalArrival(st, second.parent.value.state) < st.Goal().position.minEta
    ensures var (ok, shared) := GoalUpdateAsWritten(st, first, st.Goal().position.eta);
            var arrived := st.agent.goal.(eta := GoalArrival(st, second.parent.value.state));
            var chain := WaitChain(st, arrived, arrived.(eta := GoalArrival(st, first.parent.value.state)));
            && !ok && shared == GoalArrival(st, first.parent.value.state)
            && GoalUpdateAsWritten(st, second, shared).0 == ChainValidFrom(st, chain, |chain| - 1)
  {
  }

  /**
   * isGoalNode. The node is at the goal when its position is the goal voxel. The deadline
   * is checked first, from the parent's position at the goal voxel (a node without a parent
   * fails there) and from its own position elsewhere; then a node at the goal voxel is the
   * goal exactly when updateGoal succeeds on a copy of it.
   */
  function IsGoalNode(st: Setting, current: ANode): (v: Verdict)
    ensures v == Goal <==> Key(current) == st.GoalVoxel() && current.parent.Some?
                           && EtaValid(st, current, current.parent.value.state.position)
                           && GoalUpdate(st, current)
    ensures v == Fails <==> (Key(current) == st.GoalVoxel() && current.parent.None?)
                            || (Key(current) == st.GoalVoxel() && current.parent.Some?
                                && !EtaValid(st, current, current.parent.value.state.position))
                            || (Key(current) != st.GoalVoxel()
                                && !EtaValid(st, current, current.state.position))
  {
    var goalReached := Key(current) == st.GoalVoxel();
    if goalReached && current.parent.None? then Fails
    else
      var from := if goalReached then current.parent.value.state.position else current.state.position;
      if !EtaValid(st, current, from) then Fails
      else if goalReached && GoalUpdate(st, current) then Goal
      else NotGoal
  }

  /**
   * A goal node reached its goal voxel with time to spare, and the last move from its
   * parent onto the exact goal is valid.
   */
  lemma GoalIsReachable(st: Setting, current: ANode)
    requires IsGoalNode(st, current) == Goal
    ensures Key(current) == st.GoalVoxel() && current.parent.Some?
    ensures st.MoveValid(current.parent.value.state.position,
                         st.agent.goal.(eta := GoalArrival(st, current.parent.value.state)))
  {
  }

  /** checkBestNodeValidity(false): the deadline measured from the node's own position. */
  predicate Valid(st: Setting, n: ANode)
  {
    EtaValid(st, n, n.state.position)
  }

  // ---------------------------------------------------------------- the search

  /**
   * The engine's hooks for A*: nodes equal when their states are (equals), every explored
   * node closed, and returnFromGoalState (updatePath) and updateNoSolution leaving the
   * table of expanded nodes as it is.
   */
  function SearchHooks(st: Setting): Hooks<ANode, Place, map<Place, ANode>>
  {
    Hooks(NodeCompare, NodeCompareByF, Key, (a: ANode, b: ANode) => SameState(a.state, b.state), NodeLowerBound,
          (n, focal) => IsGoalNode(st, n), n => Valid(st, n), n => true,
          (n, closed, expanded) => ExpandNode(st, n, closed, expanded),
          (n: ANode, expanded: map<Place, ANode>) => (expanded, true),
          (n: ANode, expanded: map<Place, ANode>) => (expanded, true))
  }

  lemma SearchHooksOrdered(st: Setting)
    ensures Ordered(SearchHooks(st))
  {
    NodeComparatorsAreOrders();
  }

  /** The root node of an A* search: the start state, without a parent. */
  function Root(st: Setting): (n: ANode)
    ensures n.parent.None? && n.state == StartState(st)
  {
    ANode(StartState(st), None)
  }
}

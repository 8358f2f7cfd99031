/**
 * A* with operator decomposition (ODStarState.java and ODStarSearch.java): one agent of
 * the group moves per step. A state is standard when every agent has moved for the
 * current round and intermediate otherwise; only standard states are closed.
 *
 * The agent and position tables are maps keyed by agent id, as in the Java code. The
 * search looks agents up by index (getNextAgentId), so a group's ids must be 0 up to
 * the number of agents: `Indexed` states that.
 */
module ODStar {
  import opened Wrappers
  import opened Geometry
  import opened Trees
  import opened Queues
  import opened Seqs
  import opened Comparators
  import opened BestFirst
  import AStar

  // ---------------------------------------------------------------- the state

  /** The agent table holds the ids 0 up to its size, and the positions have the same ids. */
  predicate Indexed(agents: map<AgentId, Agent>, positions: map<AgentId, Position>)
  {
    && (forall i :: i in agents ==> 0 <= i < |agents|)
    && (forall i :: 0 <= i < |agents| ==> i in agents)
    && positions.Keys == agents.Keys
  }

  /**
   * An ODStarState: its costs, the position of every agent, the agent that moves next,
   * whether it is standard, its own copy of the agents (each path extended by the moves
   * made so far), the moves of the current round, the moves claimed by the group, its
   * own copy of the map's claimed moves, its timestep and the minimum agent time.
   */
  datatype ODState = ODState(
    costs: Costs,
    positions: map<AgentId, Position>,
    mover: AgentId,
    standard: bool,
    agents: map<AgentId, Agent>,
    moves: map<AgentId, PathLine>,
    agentObstacles: ObstacleTable,
    mapObstacles: ObstacleTable,
    timestep: real,
    minAgentTime: int)
  {
    /** Ids 0 up to the number of agents, and a mover among them. */
    predicate WellFormed()
    {
      Indexed(agents, positions) && mover in agents
    }
  }

  // ---------------------------------------------------------------- the minimum agent time

  /**
   * getMinAgentPathTime over the agents with ids below k: an agent that has not finished
   * and whose ETA lies below the minimum so far sets the minimum to its ETA cast to int.
   * The result is the least truncated ETA of an unfinished agent, or Integer.MAX_VALUE
   * when there is none.
   */
  function MinTimeUpTo(agents: map<AgentId, Agent>, points: map<AgentId, Position>, k: nat): (m: int)
    requires forall i :: 0 <= i < k ==> i in agents && i in points
    ensures INT_MIN <= m <= INT_MAX
    ensures forall i :: 0 <= i < k && !agents[i].hasPath ==> m <= JavaInt(points[i].eta)
    ensures m == INT_MAX || exists i :: 0 <= i < k && !agents[i].hasPath && m == JavaInt(points[i].eta)
    decreases k
  {
    if k == 0 then INT_MAX
    else
      var m := MinTimeUpTo(agents, points, k - 1);
      var eta := points[k - 1].eta;
      CastMinStep(m, eta);
      if !agents[k - 1].hasPath && eta < m as real then JavaInt(eta) else m
  }

  /** The minimum agent time of a group: the least truncated ETA of an unfinished agent. */
  function MinAgentTime(agents: map<AgentId, Agent>, points: map<AgentId, Position>): (m: int)
    requires Indexed(agents, points)
    ensures INT_MIN <= m <= INT_MAX
  {
    MinTimeUpTo(agents, points, |agents|)
  }

  /**
   * The minimum agent time is at most the truncated ETA of every unfinished agent, and is
   * Integer.MAX_VALUE or the truncated ETA of one of them.
   */
  lemma MinAgentTimeIsLeast(agents: map<AgentId, Agent>, points: map<AgentId, Position>)
    requires Indexed(agents, points)
    ensures forall i :: i in agents && !agents[i].hasPath ==> MinAgentTime(agents, points) <= JavaInt(points[i].eta)
    ensures || MinAgentTime(agents, points) == INT_MAX
            || exists i :: i in agents && !agents[i].hasPath && MinAgentTime(agents, points) == JavaInt(points[i].eta)
  {
  }

  /**
   * getMinAgentPathTime as the loop it is. The entries are visited by id; the result
   * does not depend on the order, being the minimum stated above.
   */
  method GetMinAgentPathTime(agents: map<AgentId, Agent>, points: map<AgentId, Position>)
    returns (minTime: int)
    requires Indexed(agents, points)
    ensures minTime == MinAgentTime(agents, points)
  {
    minTime := INT_MAX;
    var i := 0;
    while i < |agents|
      invariant 0 <= i <= |agents|
      invariant minTime == MinTimeUpTo(agents, points, i)
    {
      var hasPath := agents[i].hasPath;
      if !hasPath && points[i].eta < minTime as real {
        minTime := JavaInt(points[i].eta);
      }
      i := i + 1;
    }
  }

  // ---------------------------------------------------------------- the next agent

  /** An agent may move next: it has not finished and its truncated ETA is at most the minimum. */
  predicate Eligible(agents: map<AgentId, Agent>, points: map<AgentId, Position>, minTime: int, i: AgentId)
    requires i in agents && i in points
  {
    !agents[i].hasPath && JavaInt(points[i].eta) <= minTime
  }

  /** The first eligible agent with an id in [lo, hi). */
  function FirstEligible(agents: map<AgentId, Agent>, points: map<AgentId, Position>, minTime: int,
                         lo: int, hi: int): (r: Option<AgentId>)
    requires 0 <= lo <= hi
    requires forall i :: lo <= i < hi ==> i in agents && i in points
    ensures r.Some? ==> lo <= r.value < hi && Eligible(agents, points, minTime, r.value)
    ensures r.Some? ==> forall j :: lo <= j < r.value ==> !Eligible(agents, points, minTime, j)
    ensures r.None? <==> forall j :: lo <= j < hi ==> !Eligible(agents, points, minTime, j)
    decreases hi - lo
  {
    if lo == hi then None
    else if Eligible(agents, points, minTime, lo) then Some(lo)
    else FirstEligible(agents, points, minTime, lo + 1, hi)
  }

  /** An eligible agent with none eligible between `lo` and itself is the first in [lo, hi). */
  lemma {:induction false} FirstEligibleIs(agents: map<AgentId, Agent>, points: map<AgentId, Position>,
                                           minTime: int, lo: int, hi: int, i: AgentId)
    requires 0 <= lo <= i < hi
    requires forall j :: lo <= j < hi ==> j in agents && j in points
    requires Eligible(agents, points, minTime, i)
    requires forall j :: lo <= j < i ==> !Eligible(agents, points, minTime, j)
    ensures FirstEligible(agents, points, minTime, lo, hi) == Some(i)
    decreases i - lo
  {
    if lo < i {
      FirstEligibleIs(agents, points, minTime, lo + 1, hi, i);
    }
  }

  /** Where getNextAgentId starts looking: at 0 after the last agent, otherwise at the current agent. */
  function StartId(current: AgentId, numAgents: int): int
  {
    if current == numAgents - 1 then 0 else current
  }

  /**
   * getNextAgentId: the first eligible agent in cyclic order from the start id. None
   * stands for the case where no agent is eligible, in which the Java loop never
   * ends.
   */
  function NextAgent(agents: map<AgentId, Agent>, points: map<AgentId, Position>, current: AgentId)
    : (r: Option<AgentId>)
    requires Indexed(agents, points) && current in agents
    ensures r.Some? ==> r.value in agents
  {
    var minTime := MinAgentTime(agents, points);
    var start := StartId(current, |agents|);
    match FirstEligible(agents, points, minTime, start, |agents|)
    case Some(i) => Some(i)
    case None => FirstEligible(agents, points, minTime, 0, start)
  }

  /**
   * The next agent is eligible, and no agent before it in cyclic order from the start id
   * is: not one from the start id up to it, nor, once the search has wrapped round, one
   * from the start id to the end or from 0 up to it.
   */
  lemma NextAgentIsFirst(agents: map<AgentId, Agent>, points: map<AgentId, Position>, current: AgentId)
    requires Indexed(agents, points) && current in agents
    requires NextAgent(agents, points, current).Some?
    ensures var next := NextAgent(agents, points, current).value;
            var minTime := MinAgentTime(agents, points);
            var start := StartId(current, |agents|);
            && Eligible(agents, points, minTime, next)
            && forall j :: (start <= j < |agents| && (next < start || j < next)) || (0 <= j < next < start)
                           ==> !Eligible(agents, points, minTime, j)
  {
  }

  /**
   * The search for the next agent ends exactly when some agent has not finished: the
   * unfinished agent with the least truncated ETA is always eligible.
   */
  lemma NextAgentTerminates(agents: map<AgentId, Agent>, points: map<AgentId, Position>, current: AgentId)
    requires Indexed(agents, points) && current in agents
    ensures NextAgent(agents, points, current).Some? <==> exists i :: i in agents && !agents[i].hasPath
  {
    if NextAgent(agents, points, current).Some? {
      NextAgentIsFirst(agents, points, current);
    }
    if exists i :: i in agents && !agents[i].hasPath {
      var i :| i in agents && !agents[i].hasPath;
      MinAgentTimeIsLeast(agents, points);
      var m := MinAgentTime(agents, points);
      var j := i;
      if m != INT_MAX {
        j :| j in agents && !agents[j].hasPath && m == JavaInt(points[j].eta);
      }
      assert Eligible(agents, points, m, j);
      var start := StartId(current, |agents|);
      if FirstEligible(agents, points, m, start, |agents|).None? {
        assert j < start;
      }
    }
  }

  /**
   * getNextAgentId as the loop it is: from the start id upwards, back to 0 after the last
   * agent, until an eligible agent is found. It is called only when some agent has not
   * finished, since otherwise it never returns.
   */
  method GetNextAgentId(agents: map<AgentId, Agent>, points: map<AgentId, Position>, current: AgentId)
    returns (next: AgentId)
    requires Indexed(agents, points) && current in agents
    requires exists i :: i in agents && !agents[i].hasPath
    ensures NextAgent(agents, points, current) == Some(next)
  {
    var minTime := GetMinAgentPathTime(agents, points);
    var numAgents := |agents|;
    var start := if current == numAgents - 1 then 0 else current;
    NextAgentTerminates(agents, points, current);
    NextAgentIsFirst(agents, points, current);
    ghost var target := NextAgent(agents, points, current).value;
    var i := start;
    ghost var wrapped := false;
    while true
      invariant 0 <= i < numAgents
      invariant !wrapped ==> start <= i && forall j :: start <= j < i ==> !Eligible(agents, points, minTime, j)
      invariant wrapped ==> forall j :: start <= j < numAgents || 0 <= j < i ==> !Eligible(agents, points, minTime, j)
      decreases if i <= target then target - i else numAgents - i + target
    {
      if !agents[i].hasPath && JavaInt(points[i].eta) <= minTime {
        if !wrapped {
          FirstEligibleIs(agents, points, minTime, start, numAgents, i);
        } else {
          FirstEligibleIs(agents, points, minTime, 0, start, i);
        }
        return i;
      }
      if i == numAgents - 1 {
        i := -1;
        wrapped := true;
      }
      i := i + 1;
    }
  }

  // ---------------------------------------------------------------- child states

  /**
   * updateAgents for the mover: the neighbour becomes the last waypoint of its path, and
   * the path counts as found once the neighbour is the goal. Nothing else changes.
   */
  function UpdatedAgent(a: Agent, neighbor: Position): Agent
  {
    a.(path := a.path.(waypoints := a.path.waypoints + [neighbor]),
       hasPath := a.hasPath || a.goal.At() == neighbor.At())
  }

  /** The copies createChildState hands to createNewState. */
  datatype Copies = Copies(agents: map<AgentId, Agent>, positions: map<AgentId, Position>,
                           agentObstacles: ObstacleTable, mapObstacles: ObstacleTable)

  /**
   * createNewState, with the move recorded as evidently intended: a standard child (the
   * next agent's id is not above the mover's) starts a new round with no moves; an
   * intermediate child records the mover's move. Its timestep is the next agent's ETA
   * cast to int, its minimum agent time is computed over its own agents, and it keeps
   * the parent's costs.
   */
  function CreateNewState(s: ODState, c: Copies, line: PathLine, next: AgentId): (r: ODState)
    requires Indexed(c.agents, c.positions) && next in c.agents
    ensures r.WellFormed() && r.mover == next
  {
    var standard := next <= s.mover;
    ODState(s.costs, c.positions, next, standard, c.agents,
            if standard then map[] else s.moves[s.mover := line],
            c.agentObstacles, c.mapObstacles,
            JavaInt(c.positions[next].eta) as real, MinAgentTime(c.agents, c.positions))
  }

  /**
   * A new state is standard exactly when the next agent's id is not above the mover's; a
   * standard state has no moves and an intermediate one holds the parent's moves with
   * the mover's; the costs and the copies are kept.
   */
  lemma NewStateRule(s: ODState, c: Copies, line: PathLine, next: AgentId)
    requires Indexed(c.agents, c.positions) && next in c.agents
    ensures var r := CreateNewState(s, c, line, next);
            && (r.standard <==> next <= s.mover)
            && (r.standard ==> r.moves == map[])
            && (!r.standard ==> r.moves.Keys == s.moves.Keys + {s.mover} && r.moves[s.mover] == line
                                && forall k :: k in s.moves && k != s.mover ==> r.moves[k] == s.moves[k])
            && r.costs == s.costs && r.positions == c.positions && r.agents == c.agents
            && r.agentObstacles == c.agentObstacles && r.mapObstacles == c.mapObstacles
            && r.timestep == JavaInt(c.positions[next].eta) as real
            && r.minAgentTime == MinAgentTime(c.agents, c.positions)
  {
  }

  /** HashMap.replace: changes the entry of a key that is present, and adds nothing. */
  function ReplaceMove(moves: map<AgentId, PathLine>, id: AgentId, line: PathLine): (r: map<AgentId, PathLine>)
    ensures r.Keys == moves.Keys
    ensures id in moves ==> r[id] == line
    ensures forall k :: k in moves && k != id ==> r[k] == moves[k]
  {
    if id in moves then moves[id := line] else moves
  }

  /**
   * createNewState as written: both branches of the intermediate case call replace on the
   * copied moves, so the mover's move is recorded only if it was already there. The
   * child differs from the intended one in its moves alone, and gains no key.
   */
  function CreateNewStateAsWritten(s: ODState, c: Copies, line: PathLine, next: AgentId): (r: ODState)
    requires Indexed(c.agents, c.positions) && next in c.agents
    ensures r.moves.Keys <= s.moves.Keys
    ensures r.(moves := map[]) == CreateNewState(s, c, line, next).(moves := map[])
  {
    var r := CreateNewState(s, c, line, next);
    r.(moves := if r.standard then map[] else ReplaceMove(s.moves, s.mover, line))
  }

  /**
   * isLegalMove: a move is legal unless it intersects a move of another agent made
   * earlier in the round (ConflictDetection.checkPathLinesIntersection is `intersects`).
   */
  predicate IsLegalMove(s: ODState, line: PathLine, intersects: (PathLine, PathLine) -> bool)
  {
    forall id :: id in s.moves ==> s.moves[id].agent == line.agent || !intersects(line, s.moves[id])
  }

  /**
   * As written, a state whose moves are empty, as the root's are, has children whose
   * moves are empty, so every state of the search has none and isLegalMove accepts
   * every move.
   */
  lemma AsWrittenMovesStayEmpty(s: ODState, c: Copies, line: PathLine, next: AgentId,
                                intersects: (PathLine, PathLine) -> bool, other: PathLine)
    requires Indexed(c.agents, c.positions) && next in c.agents
    requires s.moves == map[]
    ensures CreateNewStateAsWritten(s, c, line, next).moves == map[]
    ensures IsLegalMove(CreateNewStateAsWritten(s, c, line, next), other, intersects)
  {
  }

  /**
   * The discrepancy: after the mover's step to an intermediate state, another agent's
   * move that intersects it is accepted as written and rejected with the move recorded.
   */
  lemma AsWrittenAcceptsCrossingMove(s: ODState, c: Copies, line: PathLine, next: AgentId,
                                     intersects: (PathLine, PathLine) -> bool, other: PathLine)
    requires Indexed(c.agents, c.positions) && next in c.agents
    requires s.moves == map[] && next > s.mover
    requires other.agent != line.agent && intersects(other, line)
    ensures IsLegalMove(CreateNewStateAsWritten(s, c, line, next), other, intersects)
    ensures !IsLegalMove(CreateNewState(s, c, line, next), other, intersects)
  {
    var r := CreateNewState(s, c, line, next);
    assert r.moves[s.mover] == line;
  }

  /** With the move recorded, an intermediate child rejects every later move that intersects it. */
  lemma RecordedMoveGuardsRound(s: ODState, c: Copies, line: PathLine, next: AgentId,
                                intersects: (PathLine, PathLine) -> bool, other: PathLine)
    requires Indexed(c.agents, c.positions) && next in c.agents
    requires next > s.mover && other.agent != line.agent
    ensures IsLegalMove(CreateNewState(s, c, line, next), other, intersects)
            ==> !intersects(other, line) && IsLegalMove(s.(moves := s.moves - {s.mover}), other, intersects)
  {
    var r := CreateNewState(s, c, line, next);
    if IsLegalMove(r, other, intersects) {
      assert r.moves[s.mover] == line;
      forall id | id in s.moves - {s.mover}
        ensures s.moves[id].agent == other.agent || !intersects(other, s.moves[id])
      {
        assert r.moves[id] == s.moves[id];
      }
    }
  }

  /**
   * The copies createChildState makes: the mover's move is added to copies of the claimed
   * moves and of the map at the parent's timestep cast to int, the mover's agent copy is
   * extended by the neighbour, and the mover's position becomes the neighbour.
   */
  function ChildCopies(s: ODState, neighbor: Position, line: PathLine): (c: Copies)
    requires s.WellFormed()
    ensures Indexed(c.agents, c.positions) && Indexed(s.agents, c.positions)
    ensures c.agents.Keys == s.agents.Keys
  {
    var agents := s.agents[s.mover := UpdatedAgent(s.agents[s.mover], neighbor)];
    assert agents.Keys == s.agents.Keys;
    Copies(agents, s.positions[s.mover := neighbor],
           AddObstacle(s.agentObstacles, JavaInt(s.timestep), line),
           AddObstacle(s.mapObstacles, JavaInt(s.timestep), line))
  }

  /** Some agent of the state has not finished its path. */
  predicate Active(s: ODState)
  {
    exists i :: i in s.agents && !s.agents[i].hasPath
  }

  /**
   * createChildState: the copies, with the next agent chosen from the parent's agents and
   * the new positions. The next-agent search ends because some agent of the parent has
   * not finished; `NextAgentTerminates` shows it would never end otherwise.
   */
  function CreateChildState(s: ODState, neighbor: Position, line: PathLine): (r: ODState)
    requires s.WellFormed() && Active(s)
    ensures r.WellFormed()
  {
    var c := ChildCopies(s, neighbor, line);
    NextAgentTerminates(s.agents, c.positions, s.mover);
    CreateNewState(s, c, line, NextAgent(s.agents, c.positions, s.mover).value)
  }

  /** A child's positions are the parent's with the mover's replaced by the neighbour. */
  lemma ChildPositionsRule(s: ODState, neighbor: Position, line: PathLine)
    requires s.WellFormed() && Active(s)
    ensures var child := CreateChildState(s, neighbor, line);
            && child.positions.Keys == s.positions.Keys
            && child.positions[s.mover] == neighbor
            && (forall i :: i in s.positions && i != s.mover ==> child.positions[i] == s.positions[i])
  {
    var c := ChildCopies(s, neighbor, line);
    NextAgentTerminates(s.agents, c.positions, s.mover);
    assert CreateChildState(s, neighbor, line).positions == c.positions;
  }

  /**
   * A child's agents are the parent's with the mover's path extended by the neighbour, and
   * found once the neighbour is the goal.
   */
  lemma ChildAgentsRule(s: ODState, neighbor: Position, line: PathLine)
    requires s.WellFormed() && Active(s)
    ensures var child := CreateChildState(s, neighbor, line);
            && child.agents.Keys == s.agents.Keys
            && child.agents[s.mover].path.waypoints == s.agents[s.mover].path.waypoints + [neighbor]
            && (child.agents[s.mover].hasPath <==> s.agents[s.mover].hasPath || s.agents[s.mover].goal.At() == neighbor.At())
            && (forall i :: i in s.agents && i != s.mover ==> child.agents[i] == s.agents[i])
  {
    var c := ChildCopies(s, neighbor, line);
    NextAgentTerminates(s.agents, c.positions, s.mover);
    assert CreateChildState(s, neighbor, line).agents == c.agents;
  }

  /**
   * A child adds the move to copies of both obstacle tables at the parent's timestep cast
   * to int, leaving the parent's tables as they are, and keeps the parent's costs.
   */
  lemma ChildObstaclesRule(s: ODState, neighbor: Position, line: PathLine)
    requires s.WellFormed() && Active(s)
    ensures var child := CreateChildState(s, neighbor, line);
            && child.agentObstacles == AddObstacle(s.agentObstacles, JavaInt(s.timestep), line)
            && child.mapObstacles == AddObstacle(s.mapObstacles, JavaInt(s.timestep), line)
            && child.costs == s.costs
  {
    var c := ChildCopies(s, neighbor, line);
    NextAgentTerminates(s.agents, c.positions, s.mover);
    NewStateRule(s, c, line, NextAgent(s.agents, c.positions, s.mover).value);
  }

  /**
   * A child's mover is the next agent chosen from the parent's agents and the new
   * positions, and the child is standard exactly when its id is not above the mover's.
   */
  lemma ChildMoverRule(s: ODState, neighbor: Position, line: PathLine)
    requires s.WellFormed() && Active(s)
    ensures var child := CreateChildState(s, neighbor, line);
            && Indexed(s.agents, child.positions)
            && Some(child.mover) == NextAgent(s.agents, child.positions, s.mover)
            && Eligible(s.agents, child.positions, MinAgentTime(s.agents, child.positions), child.mover)
            && (child.standard <==> child.mover <= s.mover)
  {
    var c := ChildCopies(s, neighbor, line);
    NextAgentTerminates(s.agents, c.positions, s.mover);
    NextAgentIsFirst(s.agents, c.positions, s.mover);
    NewStateRule(s, c, line, NextAgent(s.agents, c.positions, s.mover).value);
  }

  /** createChildState as the sequence of copies and updates it is. */
  method CreateChild(s: ODState, neighbor: Position, line: PathLine) returns (child: ODState)
    requires s.WellFormed()
    requires Active(s)
    ensures CreateChildState(s, neighbor, line) == child
  {
    var agentObstacles := AddObstacle(s.agentObstacles, JavaInt(s.timestep), line);
    var mapObstacles := AddObstacle(s.mapObstacles, JavaInt(s.timestep), line);
    var agents := s.agents[s.mover := UpdatedAgent(s.agents[s.mover], neighbor)];
    var positions := s.positions[s.mover := neighbor];
    var copies := Copies(agents, positions, agentObstacles, mapObstacles);
    assert copies == ChildCopies(s, neighbor, line);
    var next := GetNextAgentId(s.agents, positions, s.mover);
    child := CreateNewState(s, copies, line, next);
  }

  // ---------------------------------------------------------------- expansion

  /**
   * What an OD* search is built with: the map (its oracles and the moves other agents
   * have claimed), the group's agents after preprocessing, the heuristic (it reads the
   * agents of a state), AgentUtils.updateTimestep, ConflictDetection's intersection test,
   * and the open list's weight.
   */
  datatype ODSetting = ODSetting(
    world: World,
    obstacles: ObstacleTable,
    agents: map<AgentId, Agent>,
    heuristic: map<AgentId, Agent> -> real,
    timing: (Position, Position, real) -> (real, bool),
    intersects: (PathLine, PathLine) -> bool,
    weight: real)

  /** The voxel of the mover's goal. */
  function GoalVoxel(s: ODState): Place
    requires s.mover in s.agents
  {
    s.agents[s.mover].goal.Voxel()
  }

  /** updateTimestep: a neighbour's arrival time and wait flag from the mover's position at its speed. */
  function Arrive(st: ODSetting, s: ODState, p: Position): (q: Position)
    requires s.WellFormed()
    ensures q.At() == p.At()
  {
    var (eta, isWait) := st.timing(p, s.positions[s.mover], s.agents[s.mover].speed);
    p.(eta := eta, isWait := isWait)
  }

  /** The mover's move from its position to `q`. */
  function MoveTo(s: ODState, q: Position): PathLine
    requires s.WellFormed()
  {
    PathLine(s.positions[s.mover], q, s.agents[s.mover].id)
  }

  /**
   * A move the expansion keeps: valid on the search's map, which is not the state's own
   * copy, and legal against the moves of the round.
   */
  predicate Legal(st: ODSetting, s: ODState, q: Position)
    requires s.WellFormed()
  {
    st.world.isMoveValid(st.obstacles, MoveTo(s, q), GoalVoxel(s)) && IsLegalMove(s, MoveTo(s, q), st.intersects)
  }

  /** getPossibleNeighborPositions for the mover: the voxels around it that are in the map. */
  function NeighborPositions(st: ODSetting, s: ODState): seq<Position>
    requires s.WellFormed()
  {
    Keep(AStar.Candidates(s.positions[s.mover]), c => st.world.inMap(c, GoalVoxel(s), s.agents[s.mover].radius))
  }

  /** getLegalNeighborStates over a list of voxels: each is timed, and a child is made when its move is legal. */
  function LegalFrom(st: ODSetting, s: ODState, ps: seq<Position>): (r: seq<ODState>)
    requires s.WellFormed() && Active(s)
    ensures |r| <= |ps|
    decreases |ps|
  {
    if ps == [] then []
    else
      var q := Arrive(st, s, ps[|ps| - 1]);
      LegalFrom(st, s, ps[..|ps| - 1]) + (if Legal(st, s, q) then [CreateChildState(s, q, MoveTo(s, q))] else [])
  }

  /** expand: the legal children of a state, in the order of its neighbourhood. */
  function Expansion(st: ODSetting, s: ODState): seq<ODState>
    requires s.WellFormed() && Active(s)
  {
    LegalFrom(st, s, NeighborPositions(st, s))
  }

  /** `t` is the child of voxel `p`: the timed move to it is legal and `t` is the state it makes. */
  predicate ChildFrom(st: ODSetting, s: ODState, p: Position, t: ODState)
    requires s.WellFormed() && Active(s)
  {
    var q := Arrive(st, s, p);
    Legal(st, s, q) && CreateChildState(s, q, MoveTo(s, q)) == t
  }

  /** A state is among the children of a list of voxels exactly when it is the child of one of them. */
  lemma {:induction false} LegalFromMembers(st: ODSetting, s: ODState, ps: seq<Position>, t: ODState)
    requires s.WellFormed() && Active(s)
    ensures t in LegalFrom(st, s, ps) <==> exists p :: p in ps && ChildFrom(st, s, p, t)
    decreases |ps|
  {
    if ps != [] {
      var front := ps[..|ps| - 1];
      var last := ps[|ps| - 1];
      assert ps == front + [last];
      LegalFromMembers(st, s, front, t);
      if ChildFrom(st, s, last, t) {
        assert t in LegalFrom(st, s, ps);
      }
    }
  }

  /**
   * The children of expand are exactly the children of the in-map neighbourhood voxels
   * whose timed moves are legal.
   */
  lemma ExpansionMembers(st: ODSetting, s: ODState, t: ODState)
    requires s.WellFormed() && Active(s)
    ensures t in Expansion(st, s) <==>
              exists c :: c in AStar.Candidates(s.positions[s.mover])
                          && st.world.inMap(c, GoalVoxel(s), s.agents[s.mover].radius)
                          && ChildFrom(st, s, c, t)
  {
    var inMap := c => st.world.inMap(c, GoalVoxel(s), s.agents[s.mover].radius);
    KeepMembers(AStar.Candidates(s.positions[s.mover]), inMap);
    LegalFromMembers(st, s, NeighborPositions(st, s), t);
  }

  /** Every child of an expansion is well formed, has the parent's agent ids and keeps its costs. */
  lemma {:induction false} LegalFromChildren(st: ODSetting, s: ODState, ps: seq<Position>)
    requires s.WellFormed() && Active(s)
    ensures forall t :: t in LegalFrom(st, s, ps) ==> ChildOf(s, t) && t.costs == s.costs
    decreases |ps|
  {
    if ps != [] {
      LegalFromChildren(st, s, ps[..|ps| - 1]);
      var q := Arrive(st, s, ps[|ps| - 1]);
      ChildPositionsRule(s, q, MoveTo(s, q));
      ChildObstaclesRule(s, q, MoveTo(s, q));
    }
  }

  /** One more voxel of the list adds its child when its timed move is legal. */
  lemma LegalFromSnoc(st: ODSetting, s: ODState, ps: seq<Position>, i: int)
    requires s.WellFormed() && Active(s) && 0 <= i < |ps|
    ensures var q := Arrive(st, s, ps[i]);
            LegalFrom(st, s, ps[..i + 1])
            == LegalFrom(st, s, ps[..i]) + if Legal(st, s, q) then [CreateChildState(s, q, MoveTo(s, q))] else []
  {
    assert ps[..i + 1][..i] == ps[..i];
  }

  /** expand as the loop it is, while some agent has not finished. */
  method ExpandState(st: ODSetting, s: ODState) returns (children: seq<ODState>)
    requires s.WellFormed() && Active(s)
    ensures Expansion(st, s) == children
  {
    var agent := s.agents[s.mover];
    var positions := AStar.GetPossibleNeighborPositions(st.world, s.positions[s.mover], agent.radius, GoalVoxel(s));
    children := [];
    var i := 0;
    while i < |positions|
      invariant 0 <= i <= |positions|
      invariant LegalFrom(st, s, positions[..i]) == children
    {
      LegalFromSnoc(st, s, positions, i);
      var q := Arrive(st, s, positions[i]);
      var line := PathLine(s.positions[s.mover], q, agent.id);
      assert line == MoveTo(s, q);
      if st.world.isMoveValid(st.obstacles, line, GoalVoxel(s)) && IsLegalMove(s, line, st.intersects) {
        var child := CreateChild(s, q, line);
        children := children + [child];
      }
      i := i + 1;
    }
    assert positions[..|positions|] == positions;
  }

  // ---------------------------------------------------------------- equality, hashing, order

  /** What processNeighbors reads of a child: the positions of its mover and of the parent's. */
  predicate ChildOf(parent: ODState, child: ODState)
  {
    parent.WellFormed() && child.mover in child.positions && parent.mover in child.positions
  }

  /** The identity of a state in the closed list and the table of created nodes: its agents' voxels. */
  type StateKey = map<AgentId, Place>

  function VoxelKey(s: ODState): StateKey
  {
    map i | i in s.positions :: s.positions[i].Voxel()
  }

  /**
   * equals: every agent of the other state stands in the same voxel in this one. Only the
   * other state's agents are visited; an agent this state lacks makes the Java code
   * dereference null, and is taken here as a mismatch.
   */
  predicate Equals(a: ODState, b: ODState)
  {
    forall i :: i in b.positions ==> i in a.positions && a.positions[i].Voxel() == b.positions[i].Voxel()
  }

  /** Between states with the same agents, equality is equality of the voxel keys. */
  lemma EqualsIsSameVoxels(a: ODState, b: ODState)
    requires a.positions.Keys == b.positions.Keys
    ensures Equals(a, b) <==> VoxelKey(a) == VoxelKey(b)
    ensures Equals(a, b) <==> Equals(b, a)
  {
    if Equals(a, b) {
      assert forall i :: i in VoxelKey(a) ==> VoxelKey(a)[i] == VoxelKey(b)[i];
    }
    if VoxelKey(a) == VoxelKey(b) {
      forall i | i in b.positions
        ensures a.positions[i].Voxel() == b.positions[i].Voxel()
      {
        assert VoxelKey(a)[i] == VoxelKey(b)[i];
      }
    }
  }

  /** An agent only this state has is never looked at: equality reads the other state's agents. */
  lemma EqualsReadsOtherOnly(a: ODState, b: ODState, k: AgentId, p: Position)
    requires k !in b.positions
    ensures Equals(a.(positions := a.positions[k := p]), b) <== Equals(a, b)
    ensures Equals(a, b.(positions := map[]))
  {
  }

  /** The sum of the position hashes of the agents with ids below k. */
  function HashUpTo(positions: map<AgentId, Position>, hash: Position -> int, k: nat): int
    requires forall i :: 0 <= i < k ==> i in positions
  {
    if k == 0 then 0 else HashUpTo(positions, hash, k - 1) + hash(positions[k - 1])
  }

  /** hashCode: the sum of the agents' position hashes in int arithmetic. */
  function HashCode(s: ODState, hash: Position -> int): (h: int)
    requires Indexed(s.agents, s.positions)
    ensures INT_MIN <= h <= INT_MAX
  {
    Int32(HashUpTo(s.positions, hash, |s.agents|))
  }

  lemma {:induction false} HashUpToAgrees(a: map<AgentId, Position>, b: map<AgentId, Position>,
                                          hash: Position -> int, k: nat)
    requires forall i :: 0 <= i < k ==> i in a && i in b && hash(a[i]) == hash(b[i])
    ensures HashUpTo(a, hash, k) == HashUpTo(b, hash, k)
  {
    if k > 0 {
      HashUpToAgrees(a, b, hash, k - 1);
    }
  }

  /**
   * Equal states of the same group hash alike when the position hash reads only the
   * voxel, as the hash-based closed list needs.
   */
  lemma HashRespectsEquals(a: ODState, b: ODState, voxelHash: Place -> int)
    requires Indexed(a.agents, a.positions) && Indexed(b.agents, b.positions)
    requires a.agents.Keys == b.agents.Keys && Equals(a, b)
    ensures HashCode(a, (p: Position) => voxelHash(p.Voxel())) == HashCode(b, (p: Position) => voxelHash(p.Voxel()))
  {
    assert |a.agents| == |b.agents|;
    HashUpToAgrees(a.positions, b.positions, (p: Position) => voxelHash(p.Voxel()), |a.agents|);
  }

  /** compareTo: Double.compare on g + weight * h. */
  function CompareTo(a: ODState, b: ODState, weight: real): int
  {
    ThreeWay(a.costs.g + weight * a.costs.h, b.costs.g + weight * b.costs.h)
  }

  /**
   * The open list's WeightedFValueComparator ranks on the same key as compareTo and only
   * breaks its ties, so the two orders agree whenever compareTo separates two states.
   */
  lemma CompareToAgreesWithQueue(a: ODState, b: ODState, weight: real)
    ensures CompareTo(a, b, weight) == -CompareTo(b, a, weight)
    ensures CompareTo(a, b, weight) != 0 ==>
              WeightedFValueComparator(weight).Compare(a.costs, b.costs) == CompareTo(a, b, weight)
    ensures WeightedFValueComparator(weight).Compare(a.costs, b.costs) == -1 ==> CompareTo(a, b, weight) <= 0
  {
    assert weight * a.costs.h == a.costs.h * weight && weight * b.costs.h == b.costs.h * weight;
  }
}

# Pathfinding: a Dafny model of the multi-agent planner core

This project models the core of a planner that finds paths through a 3D voxel map for
several agents (aircraft with waypoints, speeds and estimated arrival times), and it proves
properties of that model. The model covers:

- the search-tree values and nodes: states with g, h and f, parents, and ids taken from
  a counter;
- the conflict records and the comparators that order nodes, conflicts, conflict counts,
  pair counts and agents;
- the generic best-first engine: an open list, a closed list, an optional focal list
  with a weight, counters, and an iteration budget that stands in for the deadline;
- the single-agent searches: A*, Focal A*, SMA* with its forgotten-node tables, and
  Operator Decomposition A* (OD*), which moves one agent per step;
- Conflict-Based Search (CBS) and its Greedy and Enhanced (ECBS) variants: the conflict
  queue, the conflicting-pair table, the lower bound, conflict detection, child creation
  and the high-level driver;
- Cooperative A*, which plans agents one after the other against their predecessors'
  paths;
- Independence Detection, which grows groups of agents in a disjoint-set map until no
  two groups conflict.

Modules follow the Java packages. Each file holds one module:

- `wrappers` and `seqs`: small utilities.
- `geometry`: positions, voxels, paths and agents.
- `trees` and `conflicts`: the search-tree and conflict entities.
- `comparators` and `queues`: orderings, and priority queues as multisets.
- `bfsearch` and `engine`: the best-first engine, as step functions and as the class.
- `astar`, `focalastar`, `smastar`, `odstar` and `odsearch`: the single-agent searches.
- `cbsqueue`, `greedycbs`, `ecbs`, `cbs` and `cbssearch`: Conflict-Based Search.
- `coopastar`: Cooperative A*.
- `idsearch` and `independence`: Independence Detection.

Values that sit in priority queues or hash tables are datatypes. Objects whose fields the
Java code updates in place are classes with `modifies` clauses: the engine, the SMA* search,
the drivers and the independence-detection loop. Loops in the Java code are methods with
loop invariants, proved against the functions that specify them. Code outside the core
becomes oracles passed in a setting: map validity, distances, conflict detection between
two paths, and the low-level solver. The wall clock and the shutdown flag become fuel.
Costs are `real`s. Java `(int)` casts and 32-bit wrap-around are written out where they
occur.

## Model

| member | source | states |
|---|---|---|
| Trees.Costs.WithH | algorithms/trees/State.java:63-67 | setHVal keeps g, stores h and makes f equal g + h |
| Trees.Costs.WithG | algorithms/trees/State.java:59-61 | setGVal changes only g; h and f keep their old values |
| Trees.Costs.WithF | algorithms/trees/State.java:55-57 | setFVal changes only f; g and h are untouched |
| Trees.SetGThenHConsistent | algorithms/trees/State.java:59-67 | setting g and then h leaves f == g + h, whatever f was before |
| Trees.SetGLeavesFStale | algorithms/trees/State.java:59-61 | changing g alone breaks f == g + h on a consistent state |
| Trees.State.Zero | algorithms/trees/State.java:12-16 | the no-argument constructor gives g = h = f = 0 |
| Trees.State.constructor | algorithms/trees/State.java:18-22 | g, h and f are stored verbatim; f == g + h is not enforced |
| Trees.State.SetFVal | algorithms/trees/State.java:55-57 | the new values are the old ones with f replaced |
| Trees.State.SetGVal | algorithms/trees/State.java:59-61 | the new values are the old ones with g replaced |
| Trees.State.SetHVal | algorithms/trees/State.java:63-67 | the new values are the old ones with h replaced and f recomputed, so f == g + h holds afterwards |
| Trees.Node.constructor | algorithms/trees/Node.java:11-21 | parent and state are stored, timeout is false, and the root is the node itself without a parent and the parent's root otherwise |
| Trees.Node.Clone | algorithms/trees/Node.java:47-49 | a fresh node with the same parent, a cloned state and the root the constructor gives it |
| Trees.Node.SetState | algorithms/trees/Node.java:63-65 | only the state changes |
| Trees.Node.SetTimeout | algorithms/trees/Node.java:71-73 | only the timeout flag changes |
| Trees.Node.SetParent | algorithms/trees/Node.java:75-77 | the parent changes and the cached root stays as it was |
| Trees.NodeRelationsIgnoreLinks | algorithms/trees/Node.java:23-37 | node comparison, equality and hash depend only on the wrapped states, never on parents, roots or timeout flags |
| Trees.Costs.Consistent | algorithms/trees/State.java:63-67 | f == g + h, the relation setHVal restores and setGVal alone can break |
| Trees.State.Value | algorithms/trees/State.java:7-9 | the record's g, h and f fields read as one value |
| Trees.Node.CompareTo | algorithms/trees/Node.java:23-26 | a node ranks as its state ranks under the planner's compareTo |
| Trees.Node.Equals | algorithms/trees/Node.java:28-32 | two nodes are equal exactly when their states are, under the planner's equals |
| Trees.Node.HashCode | algorithms/trees/Node.java:34-37 | a node hashes as its state |
| Conflicts.Conflict.Type | algorithms/conflicts/AgentConflict.java:12-13 | the type is AGENT exactly for an agent conflict (and OBSTACLE for an obstacle conflict) |
| Conflicts.Conflict.Timestep | algorithms/conflicts/AlgorithmConflict.java:35-37 | the timestep read as a double is always a whole number, equal to the stored int |
| Conflicts.AlgorithmConflict.constructor | algorithms/conflicts/AlgorithmConflict.java:16-24 | every argument is stored in its field and the record has no second agent or location |
| Conflicts.AlgorithmConflict.Agent | algorithms/conflicts/AgentConflict.java:12-16 | agent1, timestep, location1, both operations and solvable reach the base record unchanged, the second agent and location are stored, and the type is AGENT |
| Conflicts.AlgorithmConflict.Obstacle | algorithms/conflicts/ObstacleConflict.java:9-11 | the reordered arguments land one-to-one on the base fields, the type is OBSTACLE, and there is no second agent or location |
| Conflicts.AlgorithmConflict.GetTimestep | algorithms/conflicts/AlgorithmConflict.java:35-37 | getTimestep returns the stored int as a whole-numbered double |
| Conflicts.AlgorithmConflict.SetOperation1 | algorithms/conflicts/AlgorithmConflict.java:51-53 | only operation1 changes |
| Conflicts.AlgorithmConflict.SetOperation2 | algorithms/conflicts/AgentConflict.java:31-37 | only operation2 changes, and it is the one field both the base getter and the override read |
| Conflicts.AlgorithmConflict.SetSolvable | algorithms/conflicts/AlgorithmConflict.java:67-69 | only the solvable flag changes |
| Conflicts.Conflict.Involves | algorithms/CBS/CBSState.java:241-249 | an agent takes part in a conflict exactly when it is the first party or, in an agent conflict, the second |
| Conflicts.AlgorithmConflict.Shaped | algorithms/conflicts/AgentConflict.java:12-16 | a record has a second party and a second location exactly when it was built as an agent conflict |
| Conflicts.AlgorithmConflict.Snapshot | algorithms/conflicts/AlgorithmConflict.java:8-14 | the record's current fields as a conflict value of the kind it was built as |
| Geometry.JavaInt | algorithms/Astar/AStarState.java:68 | the int cast of a double stays in the int range, truncates toward zero (less than one away inside the range) and keeps the sign |
| Geometry.Int32 | algorithms/Astar/AStarState.java:117 | int addition wraps: the result is in the int range, equals the exact sum when that is in range, and differs from it by a multiple of 2^32 |
| Geometry.CastMinStep | algorithms/Astar/ODStar/ODStarState.java:307-316 | testing `eta < minTime` and then casting gives the same minimum as comparing the cast value |
| Geometry.Position.At | algorithms/Astar/AStarState.java:64-74 | the coordinates, zone and band a position is compared by, without its time fields |
| Geometry.Position.Voxel | algorithms/Astar/AStarState.java:68 | the voxel of a position keeps zone and band and casts each coordinate to int |
| Geometry.Position.OnGrid | algorithms/Astar/AStarState.java:68 | a position is on the grid exactly when it equals its own voxel |
| Geometry.AddObstacle | algorithms/Astar/ODStar/ODStarState.java:227-233 | recording a claimed move adds its timestep to the table and the move to that timestep's set, leaving every other timestep as it was |
| Geometry.AddObstacleIdempotent | algorithms/Astar/ODStar/ODStarState.java:227-233 | recording the same claimed move twice gives the table recording it once |
| Geometry.MergeObstacles | algorithms/CBS/CBSState.java:197 | addAgentObstacles keeps every claimed move of both tables, over the union of their timesteps |
| Geometry.AgentById | algorithms/CooperativeAStar/CooperativeAStarSearch.java:121 | getAgentFromID gives an agent of the list with the id, and null exactly when no agent has it |
| Geometry.PathIndex | algorithms/CBS/CBSState.java:213 | getPathIndexFromAgentId gives the first path the agent owns, and none exactly when it owns none |
| Comparators.ConflictCompare | algorithms/comparators/ConflictComparator.java:10-34 | -1 exactly when (timestep, agent1 id, agent2 id) is lexicographically smaller, 0 exactly when all three agree, 1 exactly when larger |
| Comparators.ConflictCompareIsOrder | algorithms/comparators/ConflictComparator.java:10-34 | the conflict order is antisymmetric and a total preorder (transitive, total) |
| Comparators.FValueCompare | algorithms/comparators/FValueComparator.java:10-24 | smaller f first; at equal f larger g first; 0 exactly when f and g are equal; h is never read |
| Comparators.FValueCompareIsOrder | algorithms/comparators/FValueComparator.java:10-24 | antisymmetric, compare(a,b) == -compare(b,a), and a total preorder |
| Comparators.HValueCompare | algorithms/comparators/HValueComparator.java:10-18 | -1, 0, 1 exactly for smaller, equal, larger h; g and f are ignored |
| Comparators.HValueCompareIsOrder | algorithms/comparators/HValueComparator.java:10-18 | antisymmetric and a total preorder |
| Comparators.WeightedFValueComparator.Compare | algorithms/comparators/WeightedFValueComparator.java:15-33 | smaller g + w·h first; at equal keys larger w·h first; 0 exactly when both agree |
| Comparators.WeightedTiesOnlyOnEqualGH | algorithms/comparators/WeightedFValueComparator.java:15-33 | with a non-zero weight two nodes tie exactly when their g and h agree |
| Comparators.UnitWeightReversesTieBreak | algorithms/comparators/WeightedFValueComparator.java:24-30 | with weight 1 and consistent f, equal-f nodes are ordered the opposite way to FValueComparator (larger h, smaller g, first) |
| Comparators.WeightedCompareIsOrder | algorithms/comparators/WeightedFValueComparator.java:15-33 | antisymmetric and a total preorder for every weight |
| Comparators.AgentConflictCompare | algorithms/comparators/AgentConflictComparator.java:10-20 | -1, 0, 1 exactly for fewer, equal, more conflicting agents |
| Comparators.ConflictCountCompare | algorithms/comparators/ConflictCountComparator.java:10-20 | -1, 0, 1 exactly for fewer, equal, more conflicts |
| Comparators.PairCountCompare | algorithms/comparators/PairCountComparator.java:11-21 | -1, 0, 1 exactly for fewer, equal, more conflicting pairs |
| Comparators.CountComparatorsAreOrders | algorithms/comparators/PairCountComparator.java:11-21 | the three count comparators are total preorders |
| Comparators.StartTimeCompareAsWritten | algorithms/comparators/AgentPathStartTimeComparator.java:10-25 | as written both times come from the first agent, so the result is always 1 |
| Comparators.StartTimeCompare | algorithms/comparators/AgentPathStartTimeComparator.java:10-25 | the intended comparison: the earlier start first, never 0 |
| Comparators.StartTimeAsWrittenNotAntisymmetric | algorithms/comparators/AgentPathStartTimeComparator.java:15-16 | as written compare(a,b) == compare(b,a) == 1 and an agent does not even compare equal to itself |
| Comparators.CollectionsMin | algorithms/Astar/ODStar/ODStarSearch.java:40 | the scan returns the element MinScan specifies, which is one of the inputs |
| Comparators.MinScanAsWrittenIsFirst | algorithms/Astar/ODStar/ODStarSearch.java:40 | with the comparator as written the minimum is simply the first agent |
| Comparators.MinScanIsEarliest | algorithms/Astar/ODStar/ODStarSearch.java:40 | with the intended comparator the minimum is an agent with the earliest start |
| Comparators.ThreeWay | algorithms/comparators/HValueComparator.java:10-18 | -1, 0 and 1 exactly when the first double is below, equal to or above the second |
| Comparators.ConflictKey | algorithms/comparators/ConflictComparator.java:10-34 | the three fields the conflict comparator ranks by: timestep, first agent id, second agent id |
| Comparators.KeyBefore | algorithms/comparators/ConflictComparator.java:10-34 | the lexicographic order the comparator's chain of tests decides |
| Comparators.WeightedFValueComparator.Key | algorithms/comparators/WeightedFValueComparator.java:17-18 | the ranking key g + h * weight |
| Comparators.MinScan | algorithms/Astar/ODStar/ODStarSearch.java:40 | the element Collections.min keeps: the first, replaced by each later one that ranks strictly lower |
| BestFirst.Admitted | algorithms/Astar/FocalAStar/FocalAStarSearch.java:47-51 | a child joins the focal list exactly when its lower bound is within weight times the focal bound |
| BestFirst.RefreshFocal | algorithms/BFSearch.java:246-258 | the focal list becomes the replay of one turn per open node in the band between the weighted old and new bounds, each turn removing an element the node equals (when there is one) and adding the node; no other node is visited, so every node of the new focal list was in the old one or is an open node in the band |
| BestFirst.Explore | algorithms/BFSearch.java:174-192 | a goal ends the step as a goal exactly when returnFromGoalState completes, and as thrown when it throws, the goal test fails or the validity check fails; the lists are untouched unless the step continues, and only a goal changes the tables |
| BestFirst.ExploreLists | algorithms/BFSearch.java:207-217 | the closed list gains at most the explored node, and only when the node is closed; the open list gains the children; the focal list gains only admitted children and only in a focal search |
| BestFirst.PollBest | algorithms/BFSearch.java:194-202 | the node taken is least in the focal list (focal search) or in the open list; the open list loses that node itself, or in a focal search one element the node equals and nothing when none does |
| BestFirst.InBand | algorithms/BFSearch.java:251 | a node's bound is above weight times the old focal bound and at most weight times the new one |
| BestFirst.Newcomers | algorithms/BFSearch.java:247-256 | the open nodes in the band that the focal list does not hold yet |
| BestFirst.RemovalChoice | algorithms/BFSearch.java:253 | remove(x) takes out an element that x equals, or nothing exactly when x equals no element |
| BestFirst.Removed | algorithms/BFSearch.java:253 | the collection after remove(x): one occurrence of the chosen element less, or unchanged |
| BestFirst.RemovalByIdentity | algorithms/BFSearch.java:253 | when equals is identity, remove(x) takes out one occurrence of x itself |
| BestFirst.Replay | algorithms/BFSearch.java:247-256 | the focal list after the loop's turns, each removing the element its remove chose and then adding the node |
| BestFirst.ValidTurns | algorithms/BFSearch.java:253 | every turn removed an element its node equals, or nothing when none was equal, on the focal list as it then stood |
| BestFirst.BandTurns | algorithms/BFSearch.java:247-251 | the loop's turns are the open nodes in the band, each occurrence once |
| BestFirst.ReplaySources | algorithms/BFSearch.java:247-256 | the refresh adds only visited nodes and never shrinks the focal list; it grows by at most one per turn |
| BestFirst.ReplayKeepsVisited | algorithms/BFSearch.java:253-254 | a visited node stays in the focal list unless a later turn's remove took it out |
| BestFirst.ReplayKeepsUnequal | algorithms/BFSearch.java:253 | a focal element that no visited node equals keeps every occurrence |
| BestFirst.RefreshByIdentity | algorithms/BFSearch.java:247-256 | when equals is identity, each focal element keeps its count and each visited node not yet held is added once |
| BestFirst.RefreshNewcomers | algorithms/BFSearch.java:247-256 | when equals is identity, the refresh gives the focal list plus one occurrence of each band node it did not hold |
| BestFirst.Taken | algorithms/CBS/ECBS/ECBSSearch.java:59-63 | the chosen node leaves the focal list in a focal search, and the element remove chose leaves the open list |
| Engine.BFSearch.constructor | algorithms/BFSearch.java:49-55 | root, comparators and hooks stored, the best node null, empty lists and zero counters |
| Engine.BFSearch.Reset | algorithms/BFSearch.java:265-276 | fresh open and closed lists, fresh tables and zero counters; the focal list and the best node are left as they were |
| Engine.BFSearch.SetInitialValues | algorithms/BFSearch.java:278-286 | only the root joins the open list, and numGenerated grows by one |
| Engine.BFSearch.TakeBest | algorithms/BFSearch.java:174-176 | the best node is a least node of the list polled; the open list loses it, or in a focal search an element it equals; numGenerated grows by one |
| Engine.BFSearch.GetBestNodeAndExpand | algorithms/BFSearch.java:174-192 | a least node is taken and counted, the step then does exactly what Explore says on the lists and tables, and the closed list grows by at most that node |
| Engine.BFSearch.ExploreBest | algorithms/BFSearch.java:179-191 | the lists end as Explore says, and the closed list grows only by a node that is closed after a failed goal test |
| Engine.BFSearch.Search | algorithms/BFSearch.java:140-171 | a solution is the last polled node, passes the goal test and has run returnFromGoalState; exhaustion means an empty open list; every polled node counts as generated and numExpanded never changes |
| Engine.BFSearch.SearchFocal | algorithms/BFSearch.java:234-263 | the focal bound starts at the root's bound and never falls; a solution passes the goal test and has run returnFromGoalState; exhaustion means an empty focal list |
| Engine.BFSearch.RaiseFocalBound | algorithms/BFSearch.java:241-258 | the bound never falls; with an empty open list nothing changes; otherwise, when the open head's bound is above the current one, the focal list is replayed over exactly the open nodes in the new band and the bound becomes the head's, and else nothing changes |
| Engine.BFSearch.FindPath | algorithms/BFSearch.java:72-138 | a negative time limit marks no solution, times out the best node (null when none was polled) and runs updateNoSolution without touching the lists; otherwise numExpanded is 0, a solution has run returnFromGoalState, an exception or exhaustion marks no solution, and the deadline times out the best node and runs updateNoSolution, returning true unless it throws |
| Engine.BFSearch.SearchStep | algorithms/BFSearch.java:162-192 | one step polls a best node and counts it, records it as explored only when expanded, closes only that node, and on a goal runs the goal hook |
| Engine.BFSearch.UpdateNoSolution | algorithms/BFSearch.java:120-122 | updateNoSolution runs the search's hook on the best node; findPath then returns true, or fails when the hook throws |
| AStar.StateAt | algorithms/Astar/AStarState.java:28-32 | g, h and f are stored as given, the timestep is the position's ETA, and the state is not a wait |
| AStar.Unvalued | algorithms/Astar/AStarState.java:34-38 | g, h and f are all -1 and the timestep is the position's ETA |
| AStar.SameStateIgnoresTime | algorithms/Astar/AStarState.java:64-74 | equality depends only on the two positions' coordinates, zone and band (the other's cast to int), never on costs, times or wait flags |
| AStar.SameStateOnGrid | algorithms/Astar/AStarState.java:64-74 | on whole-numbered positions equality is symmetric and is equality of coordinates |
| AStar.SameStateNotSymmetric | algorithms/Astar/AStarState.java:68 | because only the other position is cast to int, there are two states a, b with a equal to b but not b equal to a |
| AStar.CompareIsOrder | algorithms/Astar/AStarState.java:86-106 | compareTo ranks by f exactly as the lower bound does, is antisymmetric and a total preorder |
| AStar.CloneKeepsIdentity | algorithms/Astar/AStarState.java:81-84 | a clone equals its original both ways, ranks equal to it, keeps the costs and loses the wait flag |
| AStar.StartState | algorithms/Astar/AStarSearch.java:40-51 | the start state sits at the agent's start with g = 0, h the heuristic to the goal, and f = g + h |
| AStar.CandidatesAreNeighbourhood | algorithms/Astar/AStarState.java:112-125 | the 27 offsets in {-1,0,1}^3 in loop order, each added to the int-cast coordinates, the middle one being the position's own voxel |
| AStar.GetPossibleNeighborPositions | algorithms/Astar/AStarState.java:112-125 | the neighbourhood voxels that are in the map, in loop order |
| AStar.ExpandFrom | algorithms/Astar/AStarState.java:46-55 | at most one state per neighbour voxel |
| AStar.ExpandFromMembers | algorithms/Astar/AStarState.java:46-55 | a state is produced exactly when it is the timed successor of a listed voxel whose move is valid |
| AStar.ExpansionMembers | algorithms/Astar/AStarState.java:40-57 | a neighbour comes out of expand exactly when its voxel is in the map and the move to it is valid; it carries costs -1 and the move's wait flag |
| AStar.Expand | algorithms/Astar/AStarState.java:40-57 | the loop yields exactly the expansion specified by ExpansionMembers, in order |
| AStar.GCost | algorithms/Astar/AStarSearch.java:219-239 | the step is the state distance, raised to 1 when it is zero, so never zero; only the neighbour's g changes, to the current g plus the step |
| AStar.WaitCostsOne | algorithms/Astar/AStarSearch.java:219-239 | a wait costs exactly 1, at the goal or elsewhere |
| AStar.StepIsPositive | algorithms/Astar/AStarSearch.java:219-239 | every step costs more than zero, so g strictly grows along a path |
| AStar.NodeComparatorsAreOrders | algorithms/Astar/AStarSearch.java:30 | the open-list comparators used by the A* searches are total preorders |
| AStar.NewNode | algorithms/Astar/AStarSearch.java:202-259 | the child hangs from the current node, its timestep is the current timestep plus the step's travel time, its ETA equals its timestep, and its h brings f up to g + h |
| AStar.ProcessOneRule | algorithms/Astar/AStarSearch.java:175-192 | a neighbour is added exactly when it is the goal voxel, or is not closed or a wait and is either unexpanded or lowers the recorded g; an added child becomes the expanded node of its voxel and nothing else changes |
| AStar.ProcessAllChildren | algorithms/Astar/AStarSearch.java:174-193 | every child hangs from the current node with f = g + h and a non-zero step, is the goal voxel, unclosed or a wait, and is recorded as expanded; no voxel is lost from the expanded table |
| AStar.ProcessNeighbors | algorithms/Astar/AStarSearch.java:174-193 | the loop produces exactly the children and expanded table that ProcessAll specifies |
| AStar.WaitChain | algorithms/Astar/AStarSearch.java:156-160 | the chain runs from the early arrival to the goal at its ETA |
| AStar.ChainValidComplete | algorithms/Astar/AStarSearch.java:162-168 | when every move of the chain is valid the walk succeeds |
| AStar.ChainValidSound | algorithms/Astar/AStarSearch.java:162-168 | when no inserted wait shares the early arrival's ETA, a successful walk has checked every move of the chain |
| AStar.CheckWaitChain | algorithms/Astar/AStarSearch.java:162-169 | the while loop returns exactly the outcome of the walk from the goal back to the early arrival |
| AStar.GoalUpdate | algorithms/Astar/AStarSearch.java:142-172 | success needs a valid last move onto the exact goal; a valid last move that is not early always succeeds |
| AStar.EarlyArrivalNeedsValidWaits | algorithms/Astar/AStarSearch.java:156-170 | an early arrival succeeds exactly when the last move and every move of the wait chain are valid |
| AStar.UpdateGoal | algorithms/Astar/AStarSearch.java:142-172 | the method returns exactly what GoalUpdate specifies |
| AStar.IsGoalNode | algorithms/Astar/AStarSearch.java:73-129 | the goal exactly when at the goal voxel with a parent, in time and with updateGoal succeeding; an exception exactly when the ETA check fails, or at the goal voxel without a parent |
| AStar.GoalIsReachable | algorithms/Astar/AStarSearch.java:73-129 | a goal node has a parent and a valid last move onto the exact goal |
| AStar.SearchHooksOrdered | algorithms/Astar/AStarSearch.java:29-31 | the A* search satisfies the engine's ordering requirements |
| AStar.Root | algorithms/Astar/AStarSearch.java:40-47 | the root has no parent and holds the start state |
| AStar.SameState | algorithms/Astar/AStarState.java:64-74 | equals: this state's position against the other's position cast to its voxel, coordinates, zone and band only |
| AStar.Compare | algorithms/Astar/AStarState.java:86-96 | compareTo ranks by f alone: -1, 0, 1 as f is below, equal to or above the other's |
| AStar.LowerBound | algorithms/Astar/AStarState.java:103-106 | getLowerBound is f |
| AStar.Clone | algorithms/Astar/AStarState.java:81-84 | clone keeps g, h, f and the position, sets the timestep to the position's ETA and drops the wait flag |
| AStar.Setting.Goal | algorithms/Astar/AStarSearch.java:53-57 | createGoalState: the goal state holds the agent's goal position with g, h and f at -1 |
| AStar.Setting.GoalVoxel | algorithms/Astar/AStarSearch.java:56 | the goal voxel is the goal position cast to int coordinates |
| AStar.Setting.Arrive | algorithms/Astar/AStarState.java:47 | updateTimestep gives the position its arrival time and wait flag and keeps its place |
| AStar.Setting.MoveValid | algorithms/Astar/AStarState.java:48-49 | a move is valid when the map accepts the path line of the agent towards the goal voxel |
| AStar.Candidate | algorithms/Astar/AStarState.java:117 | a neighbourhood voxel: each coordinate cast to int plus its offset in wrapping int arithmetic, zone and band kept |
| AStar.Offsets | algorithms/Astar/AStarState.java:114-116 | the 27 offsets in the order of the three nested loops over x, y and z |
| AStar.Candidates | algorithms/Astar/AStarState.java:112-125 | the 27 voxels around a position, in the loops' order, before the map test |
| AStar.OffsetIndex | algorithms/Astar/AStarState.java:114-116 | the offset (x, y, z) sits at index 9(x+1) + 3(y+1) + (z+1), so every offset in -1..1 is visited |
| AStar.Successor | algorithms/Astar/AStarState.java:51-53 | the state made of an accepted move: g, h and f at -1 and the move's wait flag |
| AStar.Expansion | algorithms/Astar/AStarState.java:40-57 | the neighbour states: the in-map voxels around the state, timed from it and kept when the move is valid |
| AStar.StateDistance | algorithms/Astar/AStarSearch.java:229-239 | the distance between the positions, plus one when they coincide away from the goal |
| AStar.Key | algorithms/Astar/AStarSearch.java:177 | a node is found in the closed list and the expanded table by its position's coordinates |
| AStar.NodeCompare | algorithms/Astar/AStarSearch.java:30 | the open list's FValueComparator applied to the nodes' states |
| AStar.NodeCompareByF | algorithms/trees/Node.java:23-26 | a node's natural order is its state's compareTo |
| AStar.NodeLowerBound | algorithms/Astar/AStarState.java:103-106 | a node's bound is its state's f |
| AStar.ProcessOne | algorithms/Astar/AStarSearch.java:175-192 | one neighbour: skipped when closed, off the goal voxel and not a wait; otherwise costed and added when at the goal voxel, never expanded or cheaper than the expanded node |
| AStar.ProcessAll | algorithms/Astar/AStarSearch.java:174-193 | processNeighbors folds ProcessOne over the neighbours in list order |
| AStar.ExpandNode | algorithms/Astar/AStarSearch.java:64-71 | expandNode passes the best node's neighbour states through processNeighbors, giving the children and the new expanded table |
| AStar.EtaValid | algorithms/Astar/AStarSearch.java:110-117 | checkETAValidity passes exactly when the node's ETA plus the travel time to the goal is at most the goal's latest ETA |
| AStar.ChainValidFrom | algorithms/Astar/AStarSearch.java:162-168 | the walk back from a chain entry to the first entry at the early ETA meets only valid moves |
| AStar.GoalArrival | algorithms/Astar/AStarSearch.java:148 | the time of the last move is the parent's timestep plus the travel time from the parent to the goal |
| AStar.GoalUpdateAsWritten | algorithms/Astar/AStarSearch.java:143-170 | updateGoal on the shared goal ETA: the ETA left behind is either the value read or the arrival time |
| AStar.GoalUpdateAsWrittenAgrees | algorithms/Astar/AStarSearch.java:143-170 | while the shared ETA is the planned one, updateGoal as written gives the outcome of GoalUpdate |
| AStar.StaleGoalEta | algorithms/Astar/AStarSearch.java:145-159 | a failed last move leaves its arrival time as the goal's ETA, and a later early arrival then waits up to that stale time |
| AStar.Valid | algorithms/Astar/AStarSearch.java:97-108 | checkBestNodeValidity(false) measures the deadline from the node's own position |
| AStar.SearchHooks | algorithms/Astar/AStarSearch.java:29-94 | the engine's hooks: FValueComparator, state equality, isGoalNode, the deadline check, expandNode, and goal and no-solution hooks that leave the expanded table as it is |
| FocalAStar.CheckGoalNodeValidity | algorithms/Astar/FocalAStar/FocalAStarSearch.java:68-93 | the method with its inner loop returns exactly the verdict GoalNodeValidity specifies |
| FocalAStar.ScanFindsAnyValid | algorithms/Astar/FocalAStar/FocalAStarSearch.java:76-88 | the focal scan finds a node whose parent meets the deadline exactly when one exists |
| FocalAStar.ScanIsOrderFree | algorithms/Astar/FocalAStar/FocalAStarSearch.java:78-87 | the verdict does not depend on the order the focal list is iterated in |
| FocalAStar.AsWrittenAcceptsLateGoal | algorithms/Astar/FocalAStar/FocalAStarSearch.java:54-62 | as written, a goal-voxel node whose parent misses the deadline is accepted as the goal once any focal node's parent meets it |
| FocalAStar.IsGoalNode | algorithms/Astar/FocalAStar/FocalAStarSearch.java:54-93 | the goal exactly when at the goal voxel, on time from its parent, with a successful updateGoal; a late node the focal list can still beat is not the goal |
| FocalAStar.CorrectionOnlyTouchesLateGoals | algorithms/Astar/FocalAStar/FocalAStarSearch.java:54-62 | the intended and written goal tests differ only on late goal-voxel nodes, which the written test accepts |
| FocalAStar.SearchHooksOrdered | algorithms/Astar/FocalAStar/FocalAStarSearch.java:22-44 | the focal search satisfies the engine's ordering requirements |
| FocalAStar.FocalAdmission | algorithms/Astar/FocalAStar/FocalAStarSearch.java:46-51 | after a step the node is closed, all its children are open, and exactly the children with f within weight times the bound join the focal list |
| FocalAStar.ScanFocal | algorithms/Astar/FocalAStar/FocalAStarSearch.java:76-88 | the focal scan in iteration order: the first node whose parent meets the deadline ends it; a missing parent dereferences null |
| FocalAStar.GoalNodeValidity | algorithms/Astar/FocalAStar/FocalAStarSearch.java:68-93 | checkGoalNodeValidity: true when the node's parent meets the deadline, otherwise the focal scan's outcome |
| FocalAStar.FocalValidity | algorithms/Astar/FocalAStar/FocalAStarSearch.java:68-93 | the same outcome stated on the focal list as a collection, for lists whose nodes all have parents |
| FocalAStar.IsGoalNodeAsWritten | algorithms/Astar/FocalAStar/FocalAStarSearch.java:54-62 | isGoalNode as written: at the goal voxel a false validity leaves the node accepted as the goal |
| FocalAStar.SearchHooks | algorithms/Astar/FocalAStar/FocalAStarSearch.java:22-62 | the A* hooks with the focal goal test |
| SMAStar.Put | algorithms/Astar/SMAStar/SMAStarSearch.java:111 | after put the key maps to the new f, no other key changes, and an existing key keeps its state object |
| SMAStar.ForgottenNodes | algorithms/Astar/SMAStar/SMAStarState.java:28-32 | one state per key of the forgotten table, every stored state listed and nothing else |
| SMAStar.NodeCompareIsOrder | algorithms/Astar/SMAStar/SMAStarSearch.java:20-22 | the open-list order of SMA* is a total preorder |
| SMAStar.GoalTestIgnoresNode | algorithms/Astar/SMAStar/SMAStarSearch.java:42-45 | the goal test never looks at the node: with the goal's h at -1 every node is the goal exactly when the speed is at least -1 |
| SMAStar.GoalTimed | algorithms/Astar/SMAStar/SMAStarSearch.java:52-58 | a node with a parent is retimed from it over their distance and keeps its costs; without a parent the call dereferences null |
| SMAStar.Preset.Apply | algorithms/Astar/SMAStar/SMAStarSearch.java:84-94 | a restored entry replaces only f; a dead end keeps the costs (its infinite f is not a real); otherwise g and h are set and f = g + h |
| SMAStar.Child | algorithms/Astar/SMAStar/SMAStarSearch.java:96-97 | the child hangs from the best node, keeps the neighbour's state object and key, and has g from computeAndUpdateGCost and f = g + h |
| SMAStar.ChildIgnoresPreset | algorithms/Astar/SMAStar/SMAStarSearch.java:84-97 | whatever the preset did to the costs, the child is the same: a restored or infinite f never reaches the open list |
| SMAStar.Children | algorithms/Astar/SMAStar/SMAStarSearch.java:83-98 | one child per neighbour, in order |
| SMAStar.Depth | algorithms/trees/Node.java:11-21 | the root has depth 1 and a child one more than its parent |
| SMAStar.Readmitted | algorithms/Astar/SMAStar/SMAStarSearch.java:109-117 | the cut node's parent comes back exactly when it exists, is not in the open list and is not the best node's state |
| SMAStar.Forget | algorithms/Astar/SMAStar/SMAStarSearch.java:110-112 | the parent's forgotten table records the cut node's f, and no other table changes |
| SMAStar.RecordedAfterCut | algorithms/Astar/SMAStar/SMAStarSearch.java:107-119 | a cut records the node it cuts and loses none of the earlier records |
| SMAStar.CutLowersWeight | algorithms/Astar/SMAStar/SMAStarSearch.java:107-119 | each cut lowers the total depth of the open list, so the cutting loop ends |
| SMAStar.PresetFor | algorithms/Astar/SMAStar/SMAStarSearch.java:84-94 | a neighbour in the forgotten table gets its stored f; a dead end gets an infinite f exactly when it is not in the table, the goal test fails and it has no valid move out |
| SMAStar.ProcessNeighborList | algorithms/Astar/SMAStar/SMAStarSearch.java:83-98 | every neighbour becomes a child of the best node, which addNewNode puts in the expanded table in order, and exactly the neighbours' keys leave the forgotten table |
| SMAStar.PutAll | algorithms/Astar/AStarSearch.java:207 | _expanded.put(n, n) for each node in turn, a later node replacing the entry under its key |
| SMAStar.PutAllKeys | algorithms/Astar/AStarSearch.java:207 | after _expanded.put of each node the table holds its old keys and the key of every node |
| SMAStar.PutAllKeeps | algorithms/Astar/AStarSearch.java:207 | a key none of the nodes is filed under keeps its entry |
| SMAStar.PutAllFiled | algorithms/Astar/AStarSearch.java:207 | the entry under a node's key is one of the nodes put, filed under its own key |
| SMAStar.PutAllLast | algorithms/Astar/AStarSearch.java:207 | a node that no later node shares a key with is the entry under its key: the last put wins |
| SMAStar.PutAllFound | algorithms/Astar/SMAStar/SMAStarSearch.java:63 | once put, every node on the grid is found by _expanded.containsValue, so a child polled later is expanded from its forgotten states |
| SMAStar.SMAStarSearch.constructor | algorithms/Astar/SMAStar/SMAStarSearch.java:20-22 | the root holds the start state, with empty lists, tables and counters |
| SMAStar.SMAStarSearch.SetInitialValues | algorithms/Astar/SMAStar/SMAStarSearch.java:101-105 | the root joins the open list, counts as generated, and is the one node in memory |
| SMAStar.SMAStarSearch.CutWorst | algorithms/Astar/SMAStar/SMAStarSearch.java:107-119 | a greatest open node is removed, its parent's table records its f, the parent is readmitted as Readmitted says, and the memory count becomes the open list's size; an empty open list throws |
| SMAStar.SMAStarSearch.ProcessNeighbors | algorithms/Astar/SMAStar/SMAStarSearch.java:79-99 | the best node and then every child are put in the expanded table, so each child on the grid is found by containsValue afterwards; its forgotten table loses the neighbours' keys, and every neighbour joins the open list as its child |
| SMAStar.SMAStarSearch.Neighbors | algorithms/Astar/SMAStar/SMAStarSearch.java:62-69 | a node expanded before gets back its forgotten states, one per key; any other node gets the states expand makes |
| SMAStar.SMAStarSearch.CutToCap | algorithms/Astar/SMAStar/SMAStarSearch.java:73-75 | the loop ends with at most the memory cap of 10 nodes, or throws on an empty open list; every node cut is recorded |
| SMAStar.SMAStarSearch.ExpandNode | algorithms/Astar/SMAStar/SMAStarSearch.java:60-77 | the neighbours are the forgotten states of a node expanded before and the new expansion otherwise; the best node and their children join the expanded table, and memory ends within the cap unless a cut meets an empty open list |
| SMAStar.SMAStarSearch.TakeBest | algorithms/BFSearch.java:174-176 | a least open node leaves the open list, becomes the best node and counts as generated |
| SMAStar.SMAStarSearch.ExploreBest | algorithms/Astar/SMAStar/SMAStarSearch.java:24-35 | when the goal test holds the node is retimed and the search ends, throwing without a parent, with the lists and tables as they were; otherwise it is expanded within the cap, the best node and its children joining the expanded table |
| SMAStar.SMAStarSearch.GetBestNodeAndExpand | algorithms/BFSearch.java:174-192 | a least node is taken and counted; a goal ends the step (throwing at the parentless root), anything else is expanded, the node and its children joining the expanded table |
| SMAStar.SKey | algorithms/Astar/AStarState.java:76-79 | a state is filed in a hash table under its position, the key its hashCode and equals look at |
| SMAStar.WellKeyed | algorithms/Astar/SMAStar/SMAStarState.java:14 | every entry of a forgotten table is filed under its own state's key |
| SMAStar.TableOf | algorithms/Astar/SMAStar/SMAStarState.java:14 | a state object's forgotten table, empty until something is put in it |
| SMAStar.NodeCompare | algorithms/Astar/SMAStar/SMAStarSearch.java:20-22 | the open list's FValueComparator, inherited from A*, applied to the nodes' states |
| SMAStar.IsGoalNode | algorithms/Astar/SMAStar/SMAStarSearch.java:42-45 | the goal test compares the goal state's h with the agent's speed and ignores the node |
| SMAStar.Fresh | algorithms/Astar/AStarState.java:51 | each state an expansion makes is a new object with an identity of its own |
| SMAStar.Weight | algorithms/Astar/SMAStar/SMAStarSearch.java:73-75 | the sum of the open nodes' depths, which each cut lowers, so the cutting loop ends |
| SMAStar.Holds | algorithms/Astar/SMAStar/SMAStarSearch.java:114 | the open list contains a node whose state equals the given node's |
| SMAStar.AllWellKeyed | algorithms/Astar/SMAStar/SMAStarState.java:14 | every state object's forgotten table files each state under its own key |
| SMAStar.Recorded | algorithms/Astar/SMAStar/SMAStarSearch.java:111 | every cut node's key is in its parent's forgotten table |
| SMAStar.SMAStarSearch.Valid | algorithms/Astar/SMAStar/SMAStarSearch.java:107-119 | the root has no parent and every forgotten table is well keyed, which every method keeps |
| SMAStar.SMAStarSearch.Revisited | algorithms/Astar/SMAStar/SMAStarSearch.java:63 | containsValue: some expanded node's state equals the best node's |
| ODStar.MinTimeUpTo | algorithms/Astar/ODStar/ODStarState.java:307-316 | the minimum over agents 0 up to k: at most every unfinished agent's truncated ETA, and either Integer.MAX_VALUE or the ETA of one of them |
| ODStar.MinAgentTimeIsLeast | algorithms/Astar/ODStar/ODStarState.java:307-316 | getMinAgentPathTime is the least truncated ETA of an unfinished agent, or Integer.MAX_VALUE when every agent has finished |
| ODStar.GetMinAgentPathTime | algorithms/Astar/ODStar/ODStarState.java:307-316 | the loop computes exactly that minimum |
| ODStar.FirstEligible | algorithms/Astar/ODStar/ODStarState.java:293-299 | the first id in a range whose agent is unfinished and due by the minimum time, and None exactly when there is none |
| ODStar.FirstEligibleIs | algorithms/Astar/ODStar/ODStarState.java:293-299 | an eligible id with no eligible id before it is the one found |
| ODStar.NextAgentIsFirst | algorithms/Astar/ODStar/ODStarState.java:287-301 | the next agent is eligible, and no eligible id comes before it in the wrap-around scan that starts at the current agent, or at 0 after the last agent |
| ODStar.NextAgentTerminates | algorithms/Astar/ODStar/ODStarState.java:287-301 | a next agent exists exactly when some agent has not finished |
| ODStar.GetNextAgentId | algorithms/Astar/ODStar/ODStarState.java:287-301 | while some agent has not finished, the scan with its index reset returns that next agent |
| ODStar.CreateNewState | algorithms/Astar/ODStar/ODStarState.java:164-181 | the new state is well formed and the given agent moves in it |
| ODStar.NewStateRule | algorithms/Astar/ODStar/ODStarState.java:51-82 | the child is standard exactly when the next id is not above the current one; a standard child has no moves, an intermediate one records the mover's line over the parent's moves; costs are copied, the copies are kept, and the timestep is the new mover's truncated ETA |
| ODStar.ReplaceMove | algorithms/Astar/ODStar/ODStarState.java:176-177 | HashMap.replace changes the line of a key already present and never adds one |
| ODStar.CreateNewStateAsWritten | algorithms/Astar/ODStar/ODStarState.java:164-181 | with replace, the moves can only lose keys; everything else agrees with CreateNewState |
| ODStar.AsWrittenMovesStayEmpty | algorithms/Astar/ODStar/ODStarState.java:176-177 | as written, a round that starts with no moves never records one, so every move is legal against it |
| ODStar.AsWrittenAcceptsCrossingMove | algorithms/Astar/ODStar/ODStarState.java:243-255 | as written, a later agent's move that crosses the mover's is accepted, where the corrected state rejects it |
| ODStar.RecordedMoveGuardsRound | algorithms/Astar/ODStar/ODStarState.java:243-255 | in the corrected intermediate state a legal move of another agent does not cross the recorded move and is legal against the rest of the round |
| ODStar.ChildCopies | algorithms/Astar/ODStar/ODStarState.java:133-147 | the copied tables keep the agents' ids and index the new positions |
| ODStar.CreateChildState | algorithms/Astar/ODStar/ODStarState.java:133-154 | the child of a state with an unfinished agent is well formed |
| ODStar.ChildPositionsRule | algorithms/Astar/ODStar/ODStarState.java:146-147 | the mover stands at the neighbour and every other agent keeps its position |
| ODStar.ChildAgentsRule | algorithms/Astar/ODStar/ODStarState.java:187-218 | the mover's path gains the neighbour as its last waypoint and it has finished exactly when it had or the neighbour is its goal; other agents are unchanged |
| ODStar.ChildObstaclesRule | algorithms/Astar/ODStar/ODStarState.java:135-140 | both the state's claims and its map copy gain the move at the parent's truncated timestep, and the costs are copied |
| ODStar.ChildMoverRule | algorithms/Astar/ODStar/ODStarState.java:149-153 | the child's mover is the next agent chosen on the new positions, it is eligible there, and the child is standard exactly when that id is not above the parent's mover |
| ODStar.CreateChild | algorithms/Astar/ODStar/ODStarState.java:133-154 | the method builds exactly CreateChildState |
| ODStar.Arrive | algorithms/Astar/ODStar/ODStarState.java:112-113 | updateTimestep changes only the neighbour's time and wait flag, never its place |
| ODStar.LegalFrom | algorithms/Astar/ODStar/ODStarState.java:106-125 | at most one child per neighbour voxel |
| ODStar.LegalFromMembers | algorithms/Astar/ODStar/ODStarState.java:106-125 | a state is among the legal neighbour states exactly when it is the child of a listed voxel whose timed move is valid on the map and legal in the round |
| ODStar.ExpansionMembers | algorithms/Astar/ODStar/ODStarState.java:89-96 | expand yields exactly the children of in-map neighbourhood voxels whose timed moves are legal |
| ODStar.LegalFromChildren | algorithms/Astar/ODStar/ODStarState.java:120-121 | every child keeps the parent's agent ids and costs |
| ODStar.ExpandState | algorithms/Astar/ODStar/ODStarState.java:89-125 | the loop over the neighbourhood returns exactly the expansion |
| ODStar.EqualsIsSameVoxels | algorithms/Astar/ODStar/ODStarState.java:329-350 | on states with the same agents, equals holds exactly when every agent stands in the same voxel, and is symmetric |
| ODStar.EqualsReadsOtherOnly | algorithms/Astar/ODStar/ODStarState.java:334-348 | equals visits only the other state's agents: an extra agent in this state is ignored, and a state without positions equals everything |
| ODStar.HashCode | algorithms/Astar/ODStar/ODStarState.java:376-382 | the sum of the positions' hashes wraps into a 32-bit int |
| ODStar.HashUpToAgrees | algorithms/Astar/ODStar/ODStarState.java:377-381 | positions with the same hashes give the same sum |
| ODStar.HashRespectsEquals | algorithms/Astar/ODStar/ODStarState.java:329-382 | equal states with the same agents hash alike when a position's hash depends on its voxel |
| ODStar.CompareToAgreesWithQueue | algorithms/Astar/ODStar/ODStarState.java:354-356 | compareTo on g + weight * h is antisymmetric and agrees with the open list's weighted comparator wherever it does not tie |
| ODStar.Indexed | algorithms/Astar/ODStar/ODStarState.java:23-30 | the agent map holds exactly the ids 0 up to its size, which getNextAgentId counts through, and the positions have the same ids |
| ODStar.ODState.WellFormed | algorithms/Astar/ODStar/ODStarState.java:23-31 | the agents are indexed 0 up to their number and the moving agent is one of them |
| ODStar.MinAgentTime | algorithms/Astar/ODStar/ODStarState.java:307-316 | getMinAgentPathTime is an int: the least truncated ETA of an unfinished agent, Integer.MAX_VALUE when there is none |
| ODStar.Eligible | algorithms/Astar/ODStar/ODStarState.java:295 | an agent may move next when it has not finished and its truncated ETA is at most the minimum time |
| ODStar.StartId | algorithms/Astar/ODStar/ODStarState.java:289-291 | the search for the next agent starts at 0 after the last agent and at the current agent otherwise |
| ODStar.NextAgent | algorithms/Astar/ODStar/ODStarState.java:287-301 | getNextAgentId gives an agent of the map; its properties are stated by NextAgentIsFirst and NextAgentTerminates |
| ODStar.UpdatedAgent | algorithms/Astar/ODStar/ODStarState.java:187-207 | the mover's neighbour is appended to its waypoints and its path is found once the neighbour is at its goal |
| ODStar.IsLegalMove | algorithms/Astar/ODStar/ODStarState.java:243-255 | a move is legal exactly when it intersects no earlier move of the round by another agent |
| ODStar.Active | algorithms/Astar/ODStar/ODStarState.java:293-299 | some agent has not finished, the case in which getNextAgentId's loop ends |
| ODStar.GoalVoxel | algorithms/Astar/ODStar/ODStarState.java:93 | the voxel of the moving agent's goal |
| ODStar.MoveTo | algorithms/Astar/ODStar/ODStarState.java:116 | the path line from the mover's position to the neighbour, owned by the mover |
| ODStar.Legal | algorithms/Astar/ODStar/ODStarState.java:118 | a neighbour is kept when the map accepts the move and the move is legal in the round |
| ODStar.NeighborPositions | algorithms/Astar/ODStar/ODStarState.java:260-280 | the 27 voxels around the mover, in the loops' order, that are inside the map |
| ODStar.Expansion | algorithms/Astar/ODStar/ODStarState.java:89-96 | expand: the legal children of the state in the order of its neighbourhood |
| ODStar.ChildFrom | algorithms/Astar/ODStar/ODStarState.java:110-122 | a state is the child of a voxel when the timed move to it is legal and createChildState makes that state |
| ODStar.ChildOf | algorithms/Astar/ODStar/ODStarSearch.java:199-218 | the positions computeAndUpdateGCost reads from a child and its parent exist |
| ODStar.VoxelKey | algorithms/Astar/ODStar/ODStarState.java:334-348 | the identity equals compares: each agent's position cast to its voxel |
| ODStar.Equals | algorithms/Astar/ODStar/ODStarState.java:328-350 | equals holds exactly when every agent of the other state stands in the same voxel in this one |
| ODStar.HashUpTo | algorithms/Astar/ODStar/ODStarState.java:376-382 | the sum of the position hashes of the agents with ids below k |
| ODStar.CompareTo | algorithms/Astar/ODStar/ODStarState.java:352-356 | compareTo is Double.compare on g + weight * h |
| ODSearch.GStepRule | algorithms/Astar/ODStar/ODStarSearch.java:199-218 | a step costs at least the mover's distance, which is not negative; a wait away from the goal costs one and a wait at the goal nothing |
| ODSearch.ChildFinishedAtGoal | algorithms/Astar/ODStar/ODStarState.java:201-204 | when the mover has not finished, a child keeps every finished agent at its goal |
| ODSearch.FinishedMoverCanLeaveGoal | algorithms/Astar/ODStar/ODStarState.java:287-301 | a mover that has finished can still be chosen and moved off its goal, leaving a finished agent away from it |
| ODSearch.InactiveIsGoal | algorithms/Astar/ODStar/ODStarSearch.java:70-79 | a state whose agents have all finished at their goals passes the goal test |
| ODSearch.Timed | algorithms/Astar/ODStar/ODStarSearch.java:132-142 | createNewNode sets the timestep to the mover's ETA and h to the heuristic, and changes nothing else |
| ODSearch.ProcessOneRule | algorithms/Astar/ODStar/ODStarSearch.java:89-117 | a neighbour never created is added exactly when not closed; one already created exactly when it is a goal, open or standard, and a goal, standard or lower in g; an added child hangs from the current node with g = current g + step and a stale f, and replaces the created entry |
| ODSearch.ProcessAllChildren | algorithms/Astar/ODStar/ODStarSearch.java:87-118 | the earlier children stay, at most one child per neighbour is added, and each hangs from the current node, is a goal, open or standard, and is recorded as created |
| ODSearch.ProcessNeighbors | algorithms/Astar/ODStar/ODStarSearch.java:87-118 | the loop makes exactly the children and created table of the revisit policy |
| ODSearch.ProcessNeighbor | algorithms/Astar/ODStar/ODStarSearch.java:91-116 | one neighbour is skipped or added exactly as the revisit policy says |
| ODSearch.ExpandNode | algorithms/Astar/ODStar/ODStarSearch.java:60-63 | a state with every agent finished is not expanded |
| ODSearch.ExpandNodeChildren | algorithms/Astar/ODStar/ODStarSearch.java:60-63 | at most one child per legal neighbour, each hanging from the expanded node, a goal, open or standard, and recorded as created |
| ODSearch.NodeCompareIsOrder | algorithms/Astar/ODStar/ODStarSearch.java:36 | the open list's weighted comparator on nodes is a total preorder |
| ODSearch.PreprocessAgentPaths | algorithms/Astar/ODStar/ODStarSearch.java:177-191 | the loop preprocesses every agent in turn |
| ODSearch.PreprocessedListRule | algorithms/Astar/ODStar/ODStarSearch.java:177-191 | every agent keeps its place, its path holds only its start, its index is its place, and nothing else changes |
| ODSearch.AgentMapKeys | algorithms/Astar/ODStar/ODStarSearch.java:164-171 | the map's keys are exactly the list's ids, each under an agent of the list with that id |
| ODSearch.AgentMapLastWins | algorithms/Astar/ODStar/ODStarSearch.java:167-169 | the agent kept under an id is the last one with that id |
| ODSearch.AgentMapByPlace | algorithms/Astar/ODStar/ODStarSearch.java:164-171 | when ids are places, the map holds exactly the list, by place |
| ODSearch.CreateAgentMap | algorithms/Astar/ODStar/ODStarSearch.java:164-171 | the agents are preprocessed and then mapped by id |
| ODSearch.GroupAgentMap | algorithms/Astar/ODStar/ODStarSearch.java:34-38 | for a group numbered 0 up to its size, the map holds every preprocessed agent under its id and indexes the start positions |
| ODSearch.RootWellFormed | algorithms/Astar/ODStar/ODStarSearch.java:44-57 | the root is well formed and standard, agent 0 moves, every agent is at its start, no move is recorded, g is 0, h the heuristic and f equal to h |
| ODSearch.RootIsGoalIff | algorithms/Astar/ODStar/ODStarSearch.java:70-79 | the root is a goal exactly when every agent starts in its goal voxel |
| ODSearch.RootFinishedAtGoal | algorithms/Astar/ODStar/ODStarSearch.java:44-57 | when no agent has finished, the root keeps every finished agent at its goal |
| ODSearch.SearchHooksOrdered | algorithms/Astar/ODStar/ODStarSearch.java:34-36 | the hooks OD* gives the best-first engine order its open list by a total preorder |
| ODSearch.GStep | algorithms/Astar/ODStar/ODStarSearch.java:199-218 | the g step of the agent that moved: the distance between its two positions, plus one when it stays put away from its goal |
| ODSearch.IsGoal | algorithms/Astar/ODStar/ODStarSearch.java:69-79 | isGoalNode holds exactly when every agent of the group stands at its goal |
| ODSearch.FinishedAtGoal | algorithms/Astar/ODStar/ODStarState.java:201-204 | every agent whose path is marked found stands at its goal |
| ODSearch.ProcessOne | algorithms/Astar/ODStar/ODStarSearch.java:89-117 | one neighbour: a non-goal intermediate neighbour equal to a closed node is skipped; a closed one never created is dropped; otherwise it is added when a goal, never created, standard, or cheaper than the created node |
| ODSearch.ProcessAll | algorithms/Astar/ODStar/ODStarSearch.java:87-118 | processNeighbors folds ProcessOne over the neighbours in list order |
| ODSearch.NodeCompare | algorithms/Astar/ODStar/ODStarSearch.java:36 | the open list's WeightedFValueComparator applied to the nodes' states |
| ODSearch.SearchHooks | algorithms/Astar/ODStar/ODStarSearch.java:34-79 | the engine's hooks: the weighted comparator, equality by voxels, the goal test, no validity check, only standard states closed, expandNode, and empty goal and no-solution hooks |
| ODSearch.Preprocessed | algorithms/Astar/ODStar/ODStarSearch.java:179-190 | one agent preprocessed: its waypoints cut back to its start, and its index set |
| ODSearch.AgentMap | algorithms/Astar/ODStar/ODStarSearch.java:167-169 | each agent put under its id in list order, so a later agent replaces an earlier one |
| ODSearch.PreprocessedList | algorithms/Astar/ODStar/ODStarSearch.java:177-191 | every agent preprocessed, with its place in the list as its index |
| ODSearch.StartPositions | algorithms/Astar/ODStar/ODStarSearch.java:124-130 | createAgentPositionsMap: every agent at its start, under its id |
| ODSearch.Root | algorithms/Astar/ODStar/ODStarSearch.java:43-57 | the root: agent 0 moves first, standard, g 0 and h the heuristic with f brought up to h, no moves or claims |
| CBSQueue.RemoveAgentConflicts | algorithms/CBS/CBSState.java:241-249 | the iterator loop leaves exactly the queue without the agent's conflicts |
| CBSQueue.RemoveAgentConflictsRule | algorithms/CBS/CBSState.java:241-249 | no remaining conflict involves the agent, every other conflict keeps its multiplicity, and removing twice is removing once |
| CBSQueue.HeadIndex | algorithms/CBS/CBSState.java:142 | the head of a non-empty conflict queue is a least conflict, and the first of the least |
| CBSQueue.PollRule | algorithms/CBS/CBSState.java:142 | poll gives None exactly on an empty queue; otherwise a least conflict, and the rest of the queue is the queue less that one conflict |
| CBSQueue.Unrelated | algorithms/CBS/CBSState.java:245 | the test a conflict is kept by: the agent is neither of its two parties |
| CBSQueue.WithoutAgent | algorithms/CBS/CBSState.java:241-249 | the queue without the conflicts the agent takes part in, the others in their order |
| CBSQueue.Poll | algorithms/CBS/CBSState.java:142 | poll: None on an empty queue, otherwise a least conflict and the queue without it |
| GreedyCBS.DropAgent | algorithms/CBS/GreedyCBS/GreedyCBSState.java:79-84 | the loop leaves exactly the table with the agent's pairs dropped |
| GreedyCBS.SymmetricDroppable | algorithms/CBS/GreedyCBS/GreedyCBSState.java:79-84 | on a symmetric table, dropping an agent never dereferences a missing entry |
| GreedyCBS.DroppedRule | algorithms/CBS/GreedyCBS/GreedyCBSState.java:79-84 | dropping keeps the table symmetric, removes the agent's entry and every mention of it, and leaves every other pair |
| GreedyCBS.PairedRule | algorithms/CBS/GreedyCBS/GreedyCBSState.java:106-118 | recording a pair keeps the table symmetric, creates the two entries as needed, and adds each agent to the other's partners and nothing else |
| GreedyCBS.CountPairs | algorithms/CBS/GreedyCBS/GreedyCBSState.java:48-52 | the loop computes half the total size of the partner sets |
| GreedyCBS.PairedCount | algorithms/CBS/GreedyCBS/GreedyCBSState.java:106-118 | recording a new pair in a symmetric table raises the pair count by exactly one |
| GreedyCBS.DroppedCount | algorithms/CBS/GreedyCBS/GreedyCBSState.java:79-84 | dropping an agent lowers the pair count by exactly its number of partners |
| GreedyCBS.Symmetric | algorithms/CBS/GreedyCBS/GreedyCBSState.java:106-118 | every recorded pair is recorded both ways, and no agent is its own partner |
| GreedyCBS.Partners | algorithms/CBS/GreedyCBS/GreedyCBSState.java:80 | the partners recorded for an agent; none when the agent has no entry |
| GreedyCBS.Droppable | algorithms/CBS/GreedyCBS/GreedyCBSState.java:79-84 | each of the agent's partners has an entry and the agent is not its own partner, so dropping dereferences no null |
| GreedyCBS.Dropped | algorithms/CBS/GreedyCBS/GreedyCBSState.java:79-84 | the table with the agent's entry gone and the agent taken out of each partner's set |
| GreedyCBS.Paired | algorithms/CBS/GreedyCBS/GreedyCBSState.java:106-118 | the pair recorded in both directions, an entry created for an agent that had none |
| GreedyCBS.PartnerCount | algorithms/CBS/GreedyCBS/GreedyCBSState.java:48-52 | the total size of the partner sets of the given agents |
| GreedyCBS.TotalPairs | algorithms/CBS/GreedyCBS/GreedyCBSState.java:48-52 | otherUpdateds' pair count: half the total size of the partner sets |
| GreedyCBS.PairedSum | algorithms/CBS/GreedyCBS/GreedyCBSState.java:106-118 | recording a new pair adds two to the total size of the partner sets |
| GreedyCBS.DroppedSum | algorithms/CBS/GreedyCBS/GreedyCBSState.java:79-84 | dropping an agent takes twice its number of partners off the total size |
| ECBS.ComputeFMinAgents | algorithms/CBS/ECBS/ECBSState.java:92-97 | one entry per path, each the path's cost |
| ECBS.ComputeLowerBound | algorithms/CBS/ECBS/ECBSState.java:75-81 | the lower bound is the sum of the fMin entries |
| ECBS.SumBounds | algorithms/CBS/ECBS/ECBSState.java:75-81 | with costs that are not negative, the lower bound is not negative and at least every single entry |
| ECBS.SumUpdate | algorithms/CBS/ECBS/ECBSState.java:75-81 | replacing one path's cost changes the lower bound by exactly the difference |
| ECBS.GetLowerBound | algorithms/CBS/ECBS/ECBSState.java:83-90 | getLowerBound computes the sum only while the bound is still Double.MAX_VALUE, and f becomes the bound |
| ECBS.FMinOf | algorithms/CBS/ECBS/ECBSState.java:92-97 | the cost of every path, in path order |
| ECBS.Sum | algorithms/CBS/ECBS/ECBSState.java:75-81 | the sum of a list of costs, which computeLowerBound accumulates |
| CBS.CompareToRule | algorithms/CBS/CBSState.java:78-96 | compareTo orders by number of conflicts: antisymmetric, transitive, and tied exactly when calculateDistance is 0, which is symmetric and obeys the triangle inequality |
| CBS.Clone | algorithms/CBS/CBSState.java:69-76 | a clone of any variant is a plain CBS state with the same fields, the same number of conflicts and a tie with the original |
| CBS.Hits | algorithms/CBS/CBSState.java:119-133 | at most one entry per agent in shared time, each with its conflicts |
| CBS.HitsRule | algorithms/CBS/CBSState.java:119-133 | every entry is an agent in shared time whose index is at least the given one, with a non-empty conflict list from detection; every such agent gives an entry |
| CBS.Firsts | algorithms/CBS/CBSState.java:130-131 | one earliest conflict per pair that has conflicts |
| CBS.RecordedSymmetric | algorithms/CBS/GreedyCBS/GreedyCBSState.java:106-118 | recording every conflicting partner keeps the table symmetric and makes each a partner of the agent |
| CBS.FindConflict | algorithms/CBS/CBSState.java:117-134 | only the queue and the greedy counters change; the ECBS fields stay, and only the greedy variant touches the pair table |
| CBS.FindConflictAsWritten | algorithms/CBS/GreedyCBS/GreedyCBSState.java:67-76 | as written, greedy findConflict throws exactly when the state has no agent and allConflicts is not empty; otherwise it keeps paths and agent |
| CBS.FindConflictAdds | algorithms/CBS/CBSState.java:117-134 | the queue gains the earliest conflict of each conflicting pair; in the greedy variant the list of all conflicts and the pair table gain them too |
| CBS.FindConflictLoop | algorithms/CBS/CBSState.java:119-133 | the loop adds exactly the first conflicts of the hits to the queue |
| CBS.AddAll | algorithms/CBS/GreedyCBS/GreedyCBSState.java:102-104 | every conflict of a pair is appended to allConflicts in order |
| CBS.GreedyFindConflictLoop | algorithms/CBS/GreedyCBS/GreedyCBSState.java:67-121 | the greedy loop drops the replanned agent's conflicts and pairs, then adds the first conflicts, all conflicts and the pairs of every hit |
| CBS.GreedyScan | algorithms/CBS/GreedyCBS/GreedyCBSState.java:86-120 | the scan over agents in shared time adds the first conflicts, all conflicts and the pairs of the hits |
| CBS.FindConflictStep | algorithms/CBS/GreedyCBS/GreedyCBSState.java:67-121 | the method computes exactly FindConflict, for every variant |
| CBS.FindAgentConflict | algorithms/CBS/CBSState.java:136-144 | the state keeps its agent and paths |
| CBS.FindAgentConflictRule | algorithms/CBS/CBSState.java:136-144 | the agent's old conflicts leave the queue, its new earliest conflicts join it, and the earliest conflict is a least of them, None exactly when there are none; paths, obstacles and costs are unchanged |
| CBS.Prepared | algorithms/CBS/CBSState.java:199-213 | the new state holds the constrained agent with its new path, at an index of the paths |
| CBS.Finished | algorithms/CBS/CBSState.java:215-217 | findAgentConflict and otherUpdateds keep the agent and paths |
| CBS.ChildExists | algorithms/CBS/CBSState.java:161-220 | a child exists only when the constrained agent is known, and then exactly when its single-agent search returns a path |
| CBS.ChildRule | algorithms/CBS/CBSState.java:161-213 | child 1 constrains agent 1 by location 2 and child 2 agent 2 by location 1; the obstacle is added at the conflict's timestep and nothing else is removed; g and f are copied and the total cost is Float.MAX_VALUE; only the constrained agent's path changes, to its replanned path |
| CBS.FinishedRule | algorithms/CBS/CBSState.java:215-217 | after the search the queue holds the old conflicts without the agent plus its new earliest ones, and the earliest conflict is a least of them |
| CBS.FinishedECBS | algorithms/CBS/ECBS/ECBSState.java:47-50 | otherUpdateds sets fMin to the paths' costs and the lower bound to their sum |
| CBS.FinishedGreedy | algorithms/CBS/GreedyCBS/GreedyCBSState.java:41-64 | otherUpdateds counts the agent's conflicts and sets the pair count from the table with its pairs recorded |
| CBS.ChildConflicts | algorithms/CBS/CBSState.java:199-215 | the child's queue is the parent's without the constrained agent's conflicts plus its new earliest ones, and the child's earliest conflict is a least of those |
| CBS.ECBSChildBound | algorithms/CBS/ECBS/ECBSState.java:38-50 | an ECBS child's lower bound is the sum of its path costs: the parent's, less the old cost of the replanned path, plus the new |
| CBS.GreedyChild | algorithms/CBS/GreedyCBS/GreedyCBSState.java:34-121 | a greedy child counts only its agent's conflicts, and the shared table drops the agent's pairs and records its new ones, staying symmetric |
| CBS.Tried | algorithms/CBS/CBSState.java:53-66 | expand tries child 1 and then child 2, the second on the table the first left, and keeps each that exists |
| CBS.ExpandCount | algorithms/CBS/CBSState.java:53-66 | at most two children, none without an earliest conflict, and two exactly when both searches succeed |
| CBS.ExpandAgents | algorithms/CBS/CBSState.java:161-220 | every child constrains one of the two agents of the earliest conflict |
| CBS.ExpandTable | algorithms/CBS/GreedyCBS/GreedyCBSState.java:79-118 | only greedy expansion touches the pair table, and it keeps the table symmetric |
| CBS.ChildTable | algorithms/CBS/GreedyCBS/GreedyCBSState.java:79-118 | a child leaves the table as it was unless greedy, and a greedy child keeps it symmetric |
| CBS.ChildAgentId | algorithms/CBS/CBSState.java:166-190 | each child carries the agent its constraint names |
| CBS.NewStateStep | algorithms/CBS/CBSState.java:230-234 | getNewState builds exactly the new state of the variant |
| CBS.FinishChild | algorithms/CBS/CBSState.java:215-217 | the method computes exactly Finished |
| CBS.CreateChild | algorithms/CBS/CBSState.java:161-220 | the method computes exactly CreateChildState |
| CBS.ExpandRound | algorithms/CBS/CBSState.java:56-63 | one round of the loop adds the child that exists and passes the table on |
| CBS.ExpandChildren | algorithms/CBS/CBSState.java:53-66 | the loop computes exactly Expand |
| CBS.PathAgent | algorithms/CBS/CBSState.java:147-149 | the agent of a path is one of the search's agents, with the path's owner as id and an index within the paths |
| CBS.ScanAll | algorithms/CBS/CBSState.java:146-150 | findAllConflicts' loop succeeds exactly when every path's agent is known, and changes only the queue and the greedy counters |
| CBS.RootHits | algorithms/CBS/CBSState.java:147-149 | the conflicts found for path i, against agents with a later index |
| CBS.ScanAllQueue | algorithms/CBS/CBSState.java:146-150 | the queue gains, in order, the earliest conflicts found for every path |
| CBS.ScanAllGreedy | algorithms/CBS/GreedyCBS/GreedyCBSState.java:101-104 | without an agent, the greedy list of all conflicts gains every conflict found for every path |
| CBS.ScanAllSymmetric | algorithms/CBS/GreedyCBS/GreedyCBSState.java:106-118 | the greedy scan keeps the pair table symmetric |
| CBS.FindAllConflicts | algorithms/CBS/CBSState.java:146-155 | succeeds exactly when every path's agent is known, keeping paths, agent, costs and obstacles |
| CBS.ResolvedRule | algorithms/CBS/CBSState.java:146-155 | the scan's success condition holds exactly when every one of the first n paths has a known agent |
| CBS.FindAllConflictsRule | algorithms/CBS/CBSState.java:146-155 | the queue and the earliest conflict together are the old queue plus every pair's earliest conflict, the earliest a least of them and None exactly when there are none |
| CBS.FindAllConflictsLoop | algorithms/CBS/CBSState.java:146-155 | the method computes exactly FindAllConflicts |
| CBS.ScanAllAsWritten | algorithms/CBS/GreedyCBS/GreedyCBSState.java:67-76 | as written, a scan that succeeds knows every path's agent and keeps paths and agent |
| CBS.FindAllConflictsAsWritten | algorithms/CBS/GreedyCBS/GreedyCBSState.java:67-76 | as written, findAllConflicts succeeds only where the corrected one does |
| CBS.ScanAllQuiet | algorithms/CBS/GreedyCBS/GreedyCBSState.java:106-118 | while no conflict has been found, the greedy root's pair table stays empty |
| CBS.AsWrittenQuiet | algorithms/CBS/GreedyCBS/GreedyCBSState.java:67-76 | with no conflict found yet, the root's findConflict as written is the corrected one |
| CBS.AsWrittenAgrees | algorithms/CBS/GreedyCBS/GreedyCBSState.java:67-76 | wherever the scan as written succeeds, it agrees with the corrected scan |
| CBS.AsWrittenThrows | algorithms/CBS/GreedyCBS/GreedyCBSState.java:70-76 | once a conflict has been recorded at the root, every later findConflict as written throws |
| CBS.GreedyRootThrows | algorithms/CBS/GreedyCBS/GreedyCBSState.java:70-76 | at a greedy root with two or more paths whose first agent conflicts, findAllConflicts as written throws, while the corrected one succeeds when every agent is known |
| CBS.NumberOfConflicts | algorithms/CBS/CBSState.java:259-265 | getNumberOfConflicts: the queued conflicts, plus one when an earliest conflict is held |
| CBS.CompareTo | algorithms/CBS/CBSState.java:86-96 | compareTo: -1, 0 or 1 as the state has fewer, as many or more conflicts than the other |
| CBS.Distance | algorithms/CBS/CBSState.java:78-81 | calculateDistance: the absolute difference of the two numbers of conflicts |
| CBS.Conflicting | algorithms/CBS/CBSState.java:119-129 | a partner takes part in the search when it is in the agent list, its index is at least the given index, and detection finds a conflict with its path |
| CBS.Flatten | algorithms/CBS/GreedyCBS/GreedyCBSState.java:101-104 | every conflict of every hit, in order: what Greedy CBS appends to allConflicts |
| CBS.Recorded | algorithms/CBS/GreedyCBS/GreedyCBSState.java:106-118 | each hit recorded as a pair of the agent and its partner, in order |
| CBS.HitsFor | algorithms/CBS/CBSState.java:117-134 | the search findConflict runs from the agent's own path, with the flag its class passes to detection (true for CBS and ECBS, false for Greedy CBS) |
| CBS.HitOf | algorithms/CBS/CBSState.java:121-129 | one partner adds at most one hit, and a hit always holds a conflict |
| CBS.GreedyPartner | algorithms/CBS/GreedyCBS/GreedyCBSState.java:88-119 | one pass of Greedy CBS's loop extends the queue, allConflicts and the pair table by exactly the partner's hit |
| CBS.ScanAllAdds | algorithms/CBS/CBSState.java:146-150 | one more path of findAllConflicts queues the earliest conflict of each hit, and at a Greedy CBS root also appends all conflicts and records every pair |
| CBS.AsWrittenStops | algorithms/CBS/GreedyCBS/GreedyCBSState.java:70-76 | once findAllConflicts as written has thrown, no later path undoes it |
| CBS.NewVariant | algorithms/CBS/GreedyCBS/GreedyCBSState.java:33-39 | the subclass fields of a new state: Greedy CBS starts empty with zero totals, ECBS keeps its weight and computes its path costs and their sum |
| CBS.NewState | algorithms/CBS/CBSState.java:230-234 | getNewState: g and f copied, h Double.MAX_VALUE, total cost Float.MAX_VALUE, the parent's paths, the given claimed moves, queue and agent, no earliest conflict |
| CBS.PlannerWeight | algorithms/CBS/ECBS/ECBSState.java:52-55 | the weight runAlgorithm passes: ECBS's weight, 0 for CBS and Greedy CBS |
| CBS.Replaced | algorithms/CBS/CBSState.java:213 | setWaypoints(w, true) gives the path the new waypoints with their times and cost and keeps its owner |
| CBS.Scored | algorithms/CBS/CBSState.java:157-159 | updateHeuristicValue sets h directly and leaves f as it was |
| CBS.Polled | algorithms/CBS/CBSState.java:142 | the earliest conflict becomes the queue's poll, and the queue loses it |
| CBS.OtherUpdates | algorithms/CBS/GreedyCBS/GreedyCBSState.java:41-53 | otherUpdateds: Greedy CBS counts allConflicts and half the partner-set sizes; ECBS recomputes its path costs and their sum; CBS does nothing |
| CBS.Constrained | algorithms/CBS/CBSState.java:166-190 | child 1 replans agent 1 around location 2, child 2 replans agent 2 around location 1 |
| CBS.Claimed | algorithms/CBS/CBSState.java:176-197 | the planner's map: its own claimed moves, the new constraint at the conflict's timestep, and the state's claimed moves |
| CBS.Resolves | algorithms/CBS/CBSState.java:177-213 | the agent to replan is in the agent list, owns a path of the state, and its index names a path |
| CBS.ChildAgent | algorithms/CBS/CBSState.java:177-189 | the agent a child replans, as the agent list holds it |
| CBS.ChildPath | algorithms/CBS/CBSState.java:203-211 | the path the planner finds for that agent on the constrained map, or none when it throws |
| CBS.CreateChildState | algorithms/CBS/CBSState.java:161-220 | createChildState: none when the planner fails, otherwise the new state with the replanned path, its conflicts found and the other updates done |
| CBS.Children | algorithms/CBS/CBSState.java:59-62 | a created child joins the list; a null one does not |
| CBS.Expand | algorithms/CBS/CBSState.java:53-66 | expand: child 1 then child 2, each kept when created, with the pair table passed from the first to the second |
| CBS.Earliest | algorithms/CBS/CBSState.java:36 | the earliest conflict as a collection: empty when it is null |
| CBS.NoSelfPartner | algorithms/CBS/GreedyCBS/GreedyCBSState.java:79-84 | no agent is in its own shared time interval, which dropping its pairs needs |
| CBS.Resolved | algorithms/CBS/CBSState.java:146-150 | the agent of each of the first n paths is found |
| CBS.ScanNext | algorithms/CBS/CBSState.java:147-149 | the agent of path n - 1 runs findConflict from where the scan stands, with index n |
| CBS.RootFirsts | algorithms/CBS/CBSState.java:146-150 | the earliest conflicts the first n agents find, in the order they are queued |
| CBS.RootAll | algorithms/CBS/GreedyCBS/GreedyCBSState.java:101-104 | every conflict the first n agents find, in the order Greedy CBS records them |
| CBS.GreedyRoot | algorithms/CBS/CBSSearch.java:51-61 | the Greedy CBS start state: no replanned agent, no conflicts recorded, no pairs |
| CBSSearches.Spans | algorithms/CBS/CBSSearch.java:70-73 | one duration per agent |
| CBSSearches.InitialPaths | algorithms/CBS/CBSSearch.java:68-76 | one path per agent |
| CBSSearches.GetInitialPaths | algorithms/CBS/ECBS/ECBSSearch.java:41-51 | each agent's path in order; the initial cost grows by the sum of the paths' durations, and in ECBS each duration joins fMin |
| CBSSearches.StartStateRule | algorithms/CBS/CBSSearch.java:51-61 | the start state exists exactly when every path's agent is known; it holds the agents' paths, the initial cost and no obstacles |
| CBSSearches.StartConflicts | algorithms/CBS/CBSSearch.java:51-61 | the root's queue and earliest conflict are together every pair's earliest conflict, the earliest a least of them and None exactly when there are none |
| CBSSearches.StartSettled | algorithms/CBS/CBSSearch.java:51-61 | the root state has polled its earliest conflict |
| CBSSearches.Bounded | algorithms/CBS/ECBS/ECBSSearch.java:66-72 | in ECBS a state's f becomes its lower bound as the open list receives it; nothing else changes |
| CBSSearches.ExpandNode | algorithms/CBS/CBSSearch.java:90-97 | one node per child of the state, passing on the pair table |
| CBSSearches.NodeComparatorsAreOrders | algorithms/CBS/CBSSearch.java:34-41 | the h and f comparators on nodes are total preorders |
| CBSSearches.SearchHooksOrdered | algorithms/CBS/ECBS/ECBSSearch.java:27-32 | the hooks order the open list by a total preorder, for CBS (by h) and for ECBS (by f) |
| CBSSearches.ExpandNodeRule | algorithms/CBS/CBSSearch.java:90-97 | at most two children, none for a goal, each under the expanded node, holding its child state with the ECBS bound set |
| CBSSearches.ECBSChild | algorithms/CBS/ECBS/ECBSState.java:38-50 | an ECBS child's bound is known: fMin is the path costs and the bound their sum |
| CBSSearches.ECBSChildren | algorithms/CBS/ECBS/ECBSState.java:38-50 | every ECBS child has its bound known |
| CBSSearches.BoundedF | algorithms/CBS/ECBS/ECBSSearch.java:66-72 | once in the open list an ECBS child's f equals its lower bound, the sum of its path costs |
| CBSSearches.ECBSNodes | algorithms/CBS/ECBS/ECBSSearch.java:66-72 | every ECBS child node has its bound known and f equal to it |
| CBSSearches.ChildSettled | algorithms/CBS/CBSState.java:136-144 | every child has polled its earliest conflict |
| CBSSearches.ChildrenSettled | algorithms/CBS/CBSState.java:53-66 | every child of an expansion has polled its earliest conflict |
| CBSSearches.PartyIdsRule | algorithms/CBS/CBSSearch.java:103-110 | the agents collected are exactly the two agents of each listed conflict |
| CBSSearches.Commit | algorithms/CBS/CBSSearch.java:112-122 | the agents and the final paths keep their lengths |
| CBSSearches.CommitRule | algorithms/CBS/CBSSearch.java:112-122 | an agent in conflict keeps its path and its final path is flagged not free; any other agent takes its final path, flagged free; nothing else changes |
| CBSSearches.ConflictAgentsRule | algorithms/CBS/CBSSearch.java:100-110 | the agents in conflict are exactly the parties of the earliest and the queued conflicts; a settled state never hits the null earliest conflict, and a settled goal has none |
| CBSSearches.GoalCommitsAll | algorithms/CBS/CBSSearch.java:112-122 | at a settled goal every agent takes its final path, flagged free of conflicts |
| CBSSearches.ConflictIds | algorithms/CBS/CBSSearch.java:101-110 | the loop collects exactly the agents in conflict, or fails where the Java code dereferences a null earliest conflict |
| CBSSearches.CommitLoop | algorithms/CBS/CBSSearch.java:112-122 | the loop computes exactly Commit |
| CBSSearches.CBSSearch.constructor | algorithms/CBS/CBSSearch.java:34-41 | the search keeps its agents, oracles and planner, with costs and counter at zero |
| CBSSearches.CBSSearch.Reset | algorithms/CBS/CBSSearch.java:43-49 | the costs and the conflict counter return to zero |
| CBSSearches.CBSSearch.CreateStartState | algorithms/CBS/CBSSearch.java:51-61 | the initial cost grows by the paths' durations, and the root is the start state (with its bound in ECBS), or None where the start state fails |
| CBSSearches.CBSSearch.ReturnFromGoalState | algorithms/CBS/CBSSearch.java:99-123 | the agents become those of GoalCommit: committed as Commit says, and the call fails on a null earliest conflict or on fewer paths than agents |
| CBSSearches.Span | algorithms/CBS/CBSSearch.java:72 | the time a path spans, which getInitialPaths adds to the initial cost: its end timestep less its start timestep |
| CBSSearches.StartVariant | algorithms/CBS/ECBS/ECBSState.java:57-61 | the start state's subclass fields once its paths are set: none for CBS, empty allConflicts and zero totals for Greedy CBS, the weight and the recomputed path costs for ECBS |
| CBSSearches.Start | algorithms/CBS/CBSSearch.java:57-58 | the start state with the initial paths: g and f at -1, h Double.MAX_VALUE, the accumulated cost, no claimed moves, no conflicts and no replanned agent |
| CBSSearches.StartState | algorithms/CBS/CBSSearch.java:51-61 | createStartState: the start state with all its conflicts found (and in ECBS its path costs and bound computed), with the pair table it shares; None when an agent does not resolve |
| CBSSearches.Settled | algorithms/CBS/CBSState.java:136-144 | the earliest conflict is null only when the queue is empty too |
| CBSSearches.LowerBoundOf | algorithms/CBS/CBSState.java:103-106 | getLowerBound of a state: ECBS's sum of path costs, computed while still unknown; -1 for CBS and Greedy CBS |
| CBSSearches.RootNode | algorithms/CBS/CBSSearch.java:60 | the root node holds the start state and has no parent |
| CBSSearches.IsGoalNode | algorithms/CBS/CBSSearch.java:78-82 | isGoalNode: a goal exactly when the state has no earliest conflict |
| CBSSearches.NodeByH | algorithms/comparators/HValueComparator.java:10-18 | HValueComparator on nodes: CBS's open list and ECBS's focal list |
| CBSSearches.NodeByF | algorithms/comparators/FValueComparator.java:10-22 | FValueComparator on nodes: ECBS's open list |
| CBSSearches.SearchHooks | algorithms/CBS/CBSSearch.java:78-136 | the engine's hooks: open list by h (CBS) or f (ECBS), focal list by h, nodes equal only to themselves, the bound of getLowerBound, the goal test on the earliest conflict, and returnFromGoalState as both the goal and the no-solution hook |
| CBSSearches.BoundKnown | algorithms/CBS/ECBS/ECBSState.java:75-97 | an ECBS state holds the cost of each path and their sum as its bound |
| CBSSearches.EachChild | algorithms/CBS/CBSState.java:59-62 | a property both tried children have holds of every child expand keeps |
| CBSSearches.PartyIds | algorithms/CBS/CBSSearch.java:106-109 | the agents of a list of conflicts, both parties of each |
| CBSSearches.ConflictAgents | algorithms/CBS/CBSSearch.java:101-110 | both agents of the earliest and of every queued conflict; None when conflicts are queued but the earliest is null, where the Java code dereferences null |
| CBSSearches.GoalCommit | algorithms/CBS/CBSSearch.java:99-123 | returnFromGoalState on a state: the agents after the commit and whether it completed without throwing |
| CBSSearches.GoalCommitRule | algorithms/CBS/CBSSearch.java:103-121 | the commit throws exactly on a null earliest conflict with queued conflicts, or when there are fewer paths than agents; otherwise it is Commit on the agents in conflict |
| CBSSearches.GoalStepCommits | algorithms/BFSearch.java:219-224 | a goal polled by the engine runs returnFromGoalState on the agents as they stand, and the step ends the search with the committed agents |
| CooperativeAStar.AgentConflictsOf | algorithms/CooperativeAStar/CooperativeAStarSearch.java:49-53 | exactly the conflicts of the list whose type is AGENT |
| CooperativeAStar.FilterAgentConflicts | algorithms/CooperativeAStar/CooperativeAStarSearch.java:49-53 | the loop keeps exactly the agent conflicts, in order |
| CooperativeAStar.ConflictFoundRule | algorithms/CooperativeAStar/CooperativeAStarSearch.java:112-128 | conflictFound fails exactly when the agent has no prior conflict, some path is accepted and no agent has the id; it answers false exactly when the agent has no prior conflict and its path conflicts with no accepted path |
| CooperativeAStar.VisitedFound | algorithms/CooperativeAStar/CooperativeAStarSearch.java:83-85 | for an agent of the list, conflictFound never dereferences null |
| CooperativeAStar.Visit | algorithms/CooperativeAStar/CooperativeAStarSearch.java:83-109 | one turn of the loop keeps the number of agents |
| CooperativeAStar.VisitRule | algorithms/CooperativeAStar/CooperativeAStarSearch.java:83-109 | an agent without a conflict keeps its path; a replanned agent takes the path found, flagged free, or keeps its own path flagged not free when none is found; a timeout keeps the path; every path but a skipped one is claimed and accepted; other agents are unchanged |
| CooperativeAStar.SearchFrame | algorithms/CooperativeAStar/CooperativeAStarSearch.java:83-109 | the search keeps every agent's id and leaves the agents it has not reached as they were |
| CooperativeAStar.VisitedStays | algorithms/CooperativeAStar/CooperativeAStarSearch.java:83-109 | later turns never change an agent already visited |
| CooperativeAStar.SearchAccepts | algorithms/CooperativeAStar/CooperativeAStarSearch.java:106-108 | the accepted paths gain the final path of every agent not skipped, in list order, and exactly those paths are claimed on the map, in that order |
| CooperativeAStar.AgentOutcome | algorithms/CooperativeAStar/CooperativeAStarSearch.java:83-109 | each agent ends the search as its own visit left it, decided against the paths accepted before it |
| CooperativeAStar.ConflictFoundLoop | algorithms/CooperativeAStar/CooperativeAStarSearch.java:112-128 | the loop computes exactly ConflictFound |
| CooperativeAStar.VisitStep | algorithms/CooperativeAStar/CooperativeAStarSearch.java:84-108 | one turn of the loop computes exactly Visit |
| CooperativeAStar.SearchLoop | algorithms/CooperativeAStar/CooperativeAStarSearch.java:82-110 | the loop computes exactly the search over every agent |
| CooperativeAStar.CooperativeAStarSearch.constructor | algorithms/CooperativeAStar/CooperativeAStarSearch.java:42-54 | the search keeps its map, agents and oracles, holds only the agent conflicts, and starts with no accepted path and no failure |
| CooperativeAStar.CooperativeAStarSearch.Search | algorithms/CooperativeAStar/CooperativeAStarSearch.java:82-110 | the agents, the accepted paths and the claimed moves become those of the search over every agent |
| CooperativeAStar.IsAgentConflict | algorithms/CooperativeAStar/CooperativeAStarSearch.java:50 | a conflict whose getType is AGENT |
| CooperativeAStar.Involved | algorithms/CooperativeAStar/CooperativeAStarSearch.java:114 | containsAgentConflicts: some conflict of the list has the agent as a party |
| CooperativeAStar.ConflictFound | algorithms/CooperativeAStar/CooperativeAStarSearch.java:112-128 | true on a prior conflict of the agent; otherwise true exactly when its path conflicts with an accepted path; None when no agent has the id and some path is accepted |
| CooperativeAStar.Accept | algorithms/CooperativeAStar/CooperativeAStarSearch.java:106-108 | the path is claimed on the map and appended to the accepted paths |
| CooperativeAStar.Skipped | algorithms/CooperativeAStar/CooperativeAStarSearch.java:85-99 | the visit replans the agent and the search finds no path, so the loop continues without accepting it |
| CooperativeAStar.SearchUpTo | algorithms/CooperativeAStar/CooperativeAStarSearch.java:83-109 | the loop over the first n agents keeps the number of agents |
| CooperativeAStar.SkippedAt | algorithms/CooperativeAStar/CooperativeAStarSearch.java:85-99 | whether the agent at a place was skipped, judged when the loop reached it |
| CooperativeAStar.KeptPaths | algorithms/CooperativeAStar/CooperativeAStarSearch.java:108 | the paths of the agents not skipped, in list order, never more than the agents |
| CooperativeAStar.Claimed | algorithms/CooperativeAStar/CooperativeAStarSearch.java:107 | the map's claimed moves after claiming each path in turn |
| CooperativeAStar.Skips | algorithms/CooperativeAStar/CooperativeAStarSearch.java:83-109 | one skip flag per agent visited, each as SkippedAt decides |
| CooperativeAStar.AcceptsStep | algorithms/CooperativeAStar/CooperativeAStarSearch.java:106-108 | one visit extends the accepted paths and the claimed moves by the visited agent's path, unless it was skipped |
| IDSearch.MakeSet | algorithms/IndependenceDetecetion/IndependenceDetectionSearch.java:48 | makeSet puts every agent's id in a group of its own |
| IDSearch.MakeSetCanonical | algorithms/IndependenceDetecetion/IndependenceDetectionSearch.java:48 | the fresh table is flat and every agent is its own group |
| IDSearch.UnionRule | algorithms/IndependenceDetecetion/IndependenceDetection.java:63-68 | union keeps the table flat; both agents' groups take one root, the first's or the second's, and every other group is unchanged |
| IDSearch.UnionCoarsens | algorithms/IndependenceDetecetion/IndependenceDetection.java:63-68 | agents in one group before a union stay in one group after it |
| IDSearch.Members | algorithms/IndependenceDetecetion/IndependenceDetectionSearch.java:77-81 | the places of a group's members are places of the agent list |
| IDSearch.MembersRule | algorithms/IndependenceDetecetion/IndependenceDetectionSearch.java:77-81 | a place is listed exactly when its agent is in the group |
| IDSearch.MembersIncrease | algorithms/IndependenceDetecetion/IndependenceDetectionSearch.java:77-81 | the members are listed in list order, each once |
| IDSearch.Pick | algorithms/IndependenceDetecetion/IndependenceDetectionSearch.java:81 | one agent per listed place |
| IDSearch.Ran | algorithms/IndependenceDetecetion/IndependenceDetectionSearch.java:119-125 | the single-agent search returns one agent per agent of the group |
| IDSearch.Renumbered | algorithms/IndependenceDetecetion/IndependenceDetectionSearch.java:136-137 | resetAgentIds and setAgentsIndexes give one agent per agent of the group |
| IDSearch.Restored | algorithms/IndependenceDetecetion/IndependenceDetectionSearch.java:141-152 | the restore gives one agent per agent of the group |
| IDSearch.RunGroup | algorithms/IndependenceDetecetion/IndependenceDetectionSearch.java:116-157 | the run returns one agent per agent of the group |
| IDSearch.RestoreLoop | algorithms/IndependenceDetecetion/IndependenceDetectionSearch.java:141-152 | the loop gives back each agent its saved id, index and agents in shared time |
| IDSearch.RunPathFinding | algorithms/IndependenceDetecetion/IndependenceDetectionSearch.java:116-157 | the method computes exactly RunGroup |
| IDSearch.Costs | algorithms/IndependenceDetecetion/IndependenceDetectionSearch.java:162-168 | one cost per agent |
| IDSearch.CalculateSumOfCosts | algorithms/IndependenceDetecetion/IndependenceDetectionSearch.java:162-168 | the loop sums every agent's path cost |
| IDSearch.WriteBack | algorithms/IndependenceDetecetion/IndependenceDetectionSearch.java:84-86 | writing agents back at places keeps the list's length |
| IDSearch.WriteBackRule | algorithms/IndependenceDetecetion/IndependenceDetectionSearch.java:84-86 | each listed place takes its new agent and every other place is unchanged |
| IDSearch.FirstWithId | algorithms/IndependenceDetecetion/IndependenceDetectionSearch.java:183-187 | the first member with the id, or None exactly when no member has it |
| IDSearch.CopyPath | algorithms/IndependenceDetecetion/IndependenceDetectionSearch.java:183-187 | copying one path keeps the list's length |
| IDSearch.UpdatePaths | algorithms/IndependenceDetecetion/IndependenceDetectionSearch.java:180-190 | updateAgentPaths keeps the list's length |
| IDSearch.UpdatePathsIds | algorithms/IndependenceDetecetion/IndependenceDetectionSearch.java:180-190 | only paths change: every agent keeps everything but its path |
| IDSearch.UpdatePathsRule | algorithms/IndependenceDetecetion/IndependenceDetectionSearch.java:180-190 | when the group's ids are distinct, each clone's path lands at its own agent and every other agent is unchanged |
| IDSearch.UpdateAgentPathsLoop | algorithms/IndependenceDetecetion/IndependenceDetectionSearch.java:180-190 | the nested loop with its break computes exactly UpdatePaths |
| IDSearch.Settle | algorithms/IndependenceDetecetion/IndependenceDetectionSearch.java:91-106 | the settled list keeps its length |
| IDSearch.Execute | algorithms/IndependenceDetecetion/IndependenceDetectionSearch.java:72-107 | execute keeps the agent list's length |
| IDSearch.SettleRule | algorithms/IndependenceDetecetion/IndependenceDetectionSearch.java:91-106 | a run is accepted exactly when it succeeds within the bound; with update each place takes the run's agent; without it a rejected run changes nothing; unlisted places never change |
| IDSearch.SettleGroup | algorithms/IndependenceDetecetion/IndependenceDetectionSearch.java:72-107 | SettleRule for one group's members: agents outside the group never change |
| IDSearch.SettleClones | algorithms/IndependenceDetecetion/IndependenceDetectionSearch.java:99-103 | an accepted run of clones gives each agent of the group its clone's path and nothing else |
| IDSearch.ExecuteRule | algorithms/IndependenceDetecetion/IndependenceDetectionSearch.java:72-107 | execute accepts exactly when the group's run around the avoided group succeeds within its group cost times the weight; with update each agent of the group takes the run's agent; without it a rejection changes nothing; agents outside the group never change |
| IDSearch.UpdatePathsFrame | algorithms/IndependenceDetecetion/IndependenceDetectionSearch.java:180-190 | copying paths changes only the group's places |
| IDSearch.ExecuteOn | algorithms/IndependenceDetecetion/IndependenceDetectionSearch.java:72-107 | the method computes exactly Execute |
| IDSearch.SettleOn | algorithms/IndependenceDetecetion/IndependenceDetectionSearch.java:94-106 | the in-place tail of execute computes exactly Settle |
| IDSearch.Freed | algorithms/IndependenceDetecetion/IndependenceDetectionSearch.java:211-214 | flagging paths keeps the list's length |
| IDSearch.UpdateConflictsRule | algorithms/IndependenceDetecetion/IndependenceDetectionSearch.java:204-219 | a conflict stays exactly when none of its parties is in the group; an agent's path is flagged free exactly when it was or the agent is in the group and a party of a conflict; nothing else changes |
| IDSearch.HitsInvolves | algorithms/IndependenceDetecetion/IndependenceDetectionSearch.java:209-212 | a conflict is removed for a group exactly when one of the group is a party of it |
| IDSearch.UpdateConflictsLoop | algorithms/IndependenceDetecetion/IndependenceDetectionSearch.java:204-219 | the nested loops and removeAll compute exactly UpdateConflicts |
| IDSearch.FlagFree | algorithms/IndependenceDetecetion/IndependenceDetectionSearch.java:211-214 | flagging one more id frees exactly that id's agents as well |
| IDSearch.RemoveAll | algorithms/IndependenceDetecetion/IndependenceDetectionSearch.java:218 | removeAll keeps, in order, exactly the conflicts not listed for removal |
| IDSearch.Find | algorithms/IndependenceDetecetion/IndependenceDetection.java:44 | find: the representative of an id's group; an id in no group is a group of its own |
| IDSearch.Canonical | algorithms/IndependenceDetecetion/IndependenceDetection.java:44-75 | every representative is in the table and represents itself |
| IDSearch.Union | algorithms/IndependenceDetecetion/IndependenceDetection.java:63-68 | union: the two groups become one under one of their two representatives; every other group is unchanged |
| IDSearch.Increasing | algorithms/IndependenceDetecetion/IndependenceDetectionSearch.java:81 | the places of a group's agents, in increasing order, each in range |
| IDSearch.GroupAgents | algorithms/IndependenceDetecetion/IndependenceDetectionSearch.java:81 | getGroupAgents: the agents of a group, in list order |
| IDSearch.GroupIds | algorithms/IndependenceDetecetion/IndependenceDetectionSearch.java:207 | getGroupAgentIds: the ids of the agents of a group, in list order |
| IDSearch.TempObstacles | algorithms/IndependenceDetecetion/IndependenceDetectionSearch.java:75-78 | the claimed moves a group is planned around: the avoided group's paths, none when it is -1 |
| IDSearch.RunRestores | algorithms/IndependenceDetecetion/IndependenceDetectionSearch.java:128-154 | a multi-agent run, successful or not, gives each agent back its id, its id as index and its shared-time set, with the path the run gave it |
| IDSearch.DistinctIds | algorithms/IndependenceDetecetion/IndependenceDetectionSearch.java:184 | no two agents of the group share an id, so the first id match is the only one |
| IDSearch.FirstWithIdAt | algorithms/IndependenceDetecetion/IndependenceDetectionSearch.java:183-187 | the loop breaks at the first place with the id |
| IDSearch.Hits | algorithms/IndependenceDetecetion/IndependenceDetectionSearch.java:209-212 | a conflict is removed for a group when its first agent, or the second of an agent conflict, is in the group |
| IDSearch.FreedIds | algorithms/IndependenceDetecetion/IndependenceDetectionSearch.java:211-214 | the group's ids that are a party of some conflict: their paths are flagged free |
| IDSearch.UpdateConflicts | algorithms/IndependenceDetecetion/IndependenceDetectionSearch.java:204-219 | updateConflicts: the conflicts with a party in the group removed, the rest in order, and the paths of the group's agents in one flagged free |
| IDSearch.FreedSoFar | algorithms/IndependenceDetecetion/IndependenceDetectionSearch.java:207-217 | the ids of the first i of the group that some conflict of the first j involves |
| IDSearch.FreedStep | algorithms/IndependenceDetecetion/IndependenceDetectionSearch.java:207-217 | one more id of the group is freed exactly when some conflict involves it |
| Independence.ExecuteIn | algorithms/IndependenceDetecetion/IndependenceDetectionSearch.java:72-107 | execute changes only the agents, never the conflict list or the groups |
| Independence.UpdateConflictsIn | algorithms/IndependenceDetecetion/IndependenceDetectionSearch.java:204-219 | updateConflicts never changes the groups |
| Independence.FindConflictsIn | algorithms/IndependenceDetecetion/IndependenceDetectionSearch.java:221-242 | findConflicts keeps the agents and groups and only appends to the conflict list |
| Independence.UnionIn | algorithms/IndependenceDetecetion/IndependenceDetection.java:64 | a union changes only the groups |
| Independence.MergeGroups | algorithms/IndependenceDetecetion/IndependenceDetection.java:63-71 | whichever replan is accepted, two distinct groups in conflict end merged |
| Independence.FindPathsEnds | algorithms/IndependenceDetecetion/IndependenceDetection.java:37-83 | the loop ends resolved only with no conflict left, and runs out of fuel only with some left |
| Independence.HandleGroups | algorithms/IndependenceDetecetion/IndependenceDetection.java:42-81 | a pass keeps the groups canonical and never splits a group |
| Independence.HandleMerges | algorithms/IndependenceDetecetion/IndependenceDetection.java:55-76 | after a pass on a solvable agent conflict with a second operation, both agents are in one group |
| Independence.HandleUnsolvable | algorithms/IndependenceDetecetion/IndependenceDetection.java:45-48 | an unsolvable conflict keeps the groups, keeps exactly the conflicts of agents outside the first agent's group, and shortens the list |
| Independence.HandleReplans | algorithms/IndependenceDetecetion/IndependenceDetection.java:49-54 | without a second operation the first agent's group is replanned on its own agents, the groups stay, its conflicts are dropped and the ones detected again appended |
| Independence.FindPathsGroups | algorithms/IndependenceDetecetion/IndependenceDetection.java:37-83 | every pass keeps the groups canonical and never splits a group |
| Independence.SearchGroups | algorithms/IndependenceDetecetion/IndependenceDetectionSearch.java:43-57 | from every agent alone, the search ends with a canonical table of groups and resolves only with no conflict left |
| Independence.IndependenceDetectionSearch.constructor | algorithms/IndependenceDetecetion/IndependenceDetectionSearch.java:34-41 | the search starts with its agents and oracles, no conflicts and no groups |
| Independence.IndependenceDetectionSearch.Execute | algorithms/IndependenceDetecetion/IndependenceDetectionSearch.java:72-107 | the object's state becomes that of execute |
| Independence.IndependenceDetectionSearch.UpdateConflicts | algorithms/IndependenceDetecetion/IndependenceDetectionSearch.java:204-219 | the object's state becomes that of updateConflicts |
| Independence.IndependenceDetectionSearch.FindConflicts | algorithms/IndependenceDetecetion/IndependenceDetectionSearch.java:221-242 | the object's state becomes that of findConflicts, reporting a null dereference during detection |
| Independence.IndependenceDetectionSearch.Union | algorithms/IndependenceDetecetion/IndependenceDetection.java:64 | the object's groups become the union |
| Independence.IndependenceDetectionSearch.Search | algorithms/IndependenceDetecetion/IndependenceDetectionSearch.java:43-57 | the start state is every agent alone with the conflicts among all agents appended; a throw there ends the search, otherwise the state and outcome are the loop's |
| Independence.IndependenceDetection.constructor | algorithms/IndependenceDetecetion/IndependenceDetection.java:22-25 | the loop shares the search's conflicts and groups |
| Independence.IndependenceDetection.MergeGroups | algorithms/IndependenceDetecetion/IndependenceDetection.java:63-71 | the replan-or-merge cascade leaves the search in the merged state |
| Independence.IndependenceDetection.HandleConflict | algorithms/IndependenceDetecetion/IndependenceDetection.java:42-81 | one pass on the head conflict leaves the search as Handle says, reporting an exception that escapes |
| Independence.IndependenceDetection.FindPaths | algorithms/IndependenceDetecetion/IndependenceDetection.java:37-83 | the loop leaves the search in the state and with the outcome of its passes |
| Independence.Merge | algorithms/IndependenceDetecetion/IndependenceDetection.java:63-71 | the first group replanned around the second on clones, merged if accepted; else the second around the first; else merged and the merged group replanned on the original agents |
| Independence.Handle | algorithms/IndependenceDetecetion/IndependenceDetection.java:42-81 | one pass on the head conflict and whether an exception escaped it, through the three branches of the loop body |
| Independence.FindPathsSpec | algorithms/IndependenceDetecetion/IndependenceDetection.java:37-83 | findPaths: passes while a conflict remains, one unit of fuel each |
| Independence.HandleSameGroup | algorithms/IndependenceDetecetion/IndependenceDetection.java:61-62 | two agents of one group are handled as a conflict without a second operation: the group is replanned on its agents and the groups are kept |
| Independence.HandleCaught | algorithms/IndependenceDetecetion/IndependenceDetection.java:77-80 | a null reference met by the detection is caught: the pass goes on, keeping exactly the known conflicts with no party in the first agent's group |
| Independence.StartState | algorithms/IndependenceDetecetion/IndependenceDetectionSearch.java:43-57 | search: every agent in a group of its own, and the conflicts among all agents appended to the list |
| Independence.IndependenceDetectionSearch.State | algorithms/IndependenceDetecetion/IndependenceDetectionSearch.java:27-30 | the shared state as a value: agents, conflict list and groups |

## Left out

- Input and output, printing, `toString`, timing statistics, threads, the executor and interrupts are not modelled. The deadline and the shutdown flag are an iteration budget (fuel).
- Floating point is not modelled: costs, ETAs and bounds are exact reals, with no rounding, no NaN and no infinite f. Java `(int)` casts and 32-bit wrap-around are written out where the core uses them.
- Map validity, `inMap`, distances, time conversions, segment intersection, the low-level solver run and `AlgorithmUtils.runAlgorithm` are code outside the core. They are oracles in each search's setting.
- `DisjointSetMap` is code outside the core. It is modelled as a flattened map from agent id to group representative, in which `union` keeps the representative chosen by an oracle. The agents of a group are listed in the order of the agent list. A group id that is not a representative is read as the group `find` gives it.
- The `checkBestNodeValidity` overrides of CBS (algorithms/CBS/CBSSearch.java:139-141) and of OD* (algorithms/Astar/ODStar/ODStarSearch.java:220-228) are empty, so the validity hook of those searches always passes. The A* checks (algorithms/Astar/AStarSearch.java:97-117) are modelled by AStar.EtaValid.
- `AlgorithmUtils.performPruning`, which the CBS constructor calls (algorithms/CBS/CBSSearch.java:40), is code outside the core and is not modelled.
- SMAStarSearchFixedWings, SMAStarStateFixedWings and the other search variants outside the core are not modelled.
- SMA* casts the root and the children `expand` builds (plain AStarState objects) to SMAStarState. Those ClassCastExceptions are not modelled: every node carries a forgotten table.
- CBSSearches.ECBSNodes: ECBS adds a child to the open list before setting its f to the lower bound, which can misorder the Java heap. The model inserts the child with its final f, so the ordering of the heap under a later key change is not captured.
- Greedy CBS search: the root goes into the plain open list while the loop polls the greedy list, so the greedy search never expands anything. Only the Greedy state bookkeeping and the child rule are modelled, not that driver.
- CBS.Clone: `clone` shares the path list with the original in Java. The model copies values, so later aliasing through the shared list is not captured.
- A conflict whose agent cannot be resolved by id yields no child (None) where the Java code would dereference null.
- `setWaypoints` and the agents' waypoint bookkeeping are not modelled. `Agent.setPath` is an assignment of the path value, and `Agent.equals` compares ids.
- Utility lookups that return the first matching agent are modelled as a first-match search over the list.
- `containsAgentConflicts` is modelled by the `Involves` predicate on the conflict list.
- A timed-out low-level run keeps the agent's previous path, as the catch block leaves it.
- IDSearch.UpdateConflictsRule: updateConflicts flags agents as free by id, where the Java code flags the conflict's own agent object. The two agree whenever agent objects are unique per id.
- Independence.IndependenceDetection.HandleConflict: a NullPointerException is modelled only where conflict detection raises it. The ClassCastException for an obstacle conflict with a second operation is modelled as escaping the loop (the Threw outcome). No other exception is modelled.
- The `setAgentsInSharedTime(agents)` side effect of a multi-agent run on agents outside the group is not modelled.
- `isAgentActive` is never called by the core and is not modelled.
- BestFirst.PollBest: a queue's `remove(node)` takes out the first element that the node equals, in the heap's iteration order. That order is not modelled, so any element the node equals may be the one taken.
- BestFirst.RefreshFocal: the open list is visited in an unspecified order rather than the heap's iteration order. Each visit removes from the focal list an element equal to the node, chosen the same way as in PollBest.
- CBSQueue.HeadIndex: among conflicts that rank equally under ConflictComparator, the Java heap's choice depends on its layout and is not modelled. The model takes the first in its sequence, and PollRule states only what holds for any least conflict.
- AStar.SearchHooks: A*'s `returnFromGoalState` (`updatePath`) rebuilds the agent's path with `AlgorithmUtils.reconstructPath`, which is not part of this model. The engine's goal hook for A* leaves the tables unchanged and completes.
- AStar.GoalUpdate: reads the goal's planned ETA. As written, every call overwrites the goal ETA it shares with the agent (see Findings, AStar.GoalUpdateAsWritten). Whether that ETA also reaches the heuristic is not modelled.
- ODStar.GetNextAgentId: on a state whose agents are all finished, `getNextAgentId` loops forever in Java. The model returns None there, and ODSearch.ExpandNode then gives no children.
- Independence.IndependenceDetection.FindPaths: the loop runs for at most `fuel` passes. A run that the Java code would continue past that bound ends with the OutOfFuel outcome.

## Findings

| source | as written | input that shows it | evidently intended | confidence | as-written member | corrected member |
|---|---|---|---|---|---|---|
| algorithms/Astar/FocalAStar/FocalAStarSearch.java:54-62 | at the goal voxel, when the goal validity check returns false, `goalReached` stays true and the node is accepted | a goal-voxel node whose parent misses the deadline while some other focal node's parent meets it | accept only a node reached on time from its parent, and otherwise go on searching | not executed | FocalAStar.IsGoalNodeAsWritten, FocalAStar.AsWrittenAcceptsLateGoal | FocalAStar.IsGoalNode |
| algorithms/Astar/ODStar/ODStarState.java:164-181 | both branches call `replace` on the moves table, so a move for a time not yet in the table is never recorded and `isLegalMove` accepts every move | two agents crossing the same segment in one round | record the move with `put` so that a later agent in the round is checked against it | not executed | ODStar.CreateNewStateAsWritten, ODStar.AsWrittenMovesStayEmpty, ODStar.AsWrittenAcceptsCrossingMove | ODStar.CreateNewState, ODStar.RecordedMoveGuardsRound |
| algorithms/comparators/AgentPathStartTimeComparator.java:15-16 | both start times are read from the first agent, so `compare` always returns 1 | any two agents, or one agent compared with itself | compare the first agent's start time with the second's, earlier first; the correction also flips the signs of the branches, which as written rank the earlier start after the later one, against the constructor's aim of starting with the agent of least start time | not executed | Comparators.StartTimeCompareAsWritten, Comparators.StartTimeAsWrittenNotAntisymmetric | Comparators.StartTimeCompare, Comparators.MinScanIsEarliest |
| algorithms/CBS/GreedyCBS/GreedyCBSState.java:73 | `findConflict` reads `_agent.getId()`, and `_agent` is null in the root state | the root of Greedy CBS once the scan of the agents has recorded one conflict | drop nothing from the conflict list when the state replanned no agent; the correction also skips the drop of the replanned agent's pairs at the root, which CBS.ScanAllQuiet and CBS.AsWrittenAgrees show to be harmless: wherever the code as written gets through, the pair table is still empty and both scans agree | not executed | CBS.FindConflictAsWritten, CBS.FindAllConflictsAsWritten, CBS.GreedyRootThrows | CBS.FindConflict, CBS.FindAllConflicts, CBS.AsWrittenAgrees |
| algorithms/Astar/AStarSearch.java:143-153 | `setPosition` hands the node the agent's goal position itself, so `updateTimestep` writes the arrival time into the goal's ETA; a failed goal test leaves it there, and the next early arrival keeps the goal at that time instead of the planned ETA | a goal test whose last move onto the goal is invalid, followed by a goal test at a node that arrives before the goal's earliest time | keep the goal behind its wait states at the planned ETA | not executed | AStar.GoalUpdateAsWritten, AStar.StaleGoalEta | AStar.GoalUpdate, AStar.EarlyArrivalNeedsValidWaits |

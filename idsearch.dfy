/**
 * The operations Independence Detection drives (IndependenceDetectionSearch.java): the
 * agent groups of a disjoint-set map, the replanning of one group around another with its
 * acceptance by sum of costs, the removal of a group's conflicts, and the copy of accepted
 * paths to the original agents.
 */
module IDSearch {
  import opened Wrappers
  import opened Geometry
  import opened Conflicts
  import opened Seqs
  import opened ECBS

  // ---------------------------------------------------------------- agent groups

  /** The agent groups: each agent id to the representative of its group. */
  type Groups = map<AgentId, AgentId>

  /** find: the representative of an id's group; an id in no set is a group of its own. */
  function Find(groups: Groups, x: AgentId): AgentId
  {
    if x in groups then groups[x] else x
  }

  /** Every representative is in the map and represents itself. */
  ghost predicate Canonical(groups: Groups)
  {
    forall x :: x in groups ==> groups[x] in groups && groups[groups[x]] == groups[x]
  }

  /** makeSet: every agent of the list alone in a group of its own. */
  function MakeSet(agents: seq<Agent>): (r: Groups)
    ensures forall x :: x in r <==> exists a :: a in agents && a.id == x
    ensures forall x :: x in r ==> r[x] == x
  {
    map a | a in agents :: a.id := a.id
  }

  lemma MakeSetCanonical(agents: seq<Agent>)
    ensures Canonical(MakeSet(agents))
    ensures forall i :: 0 <= i < |agents| ==> Find(MakeSet(agents), agents[i].id) == agents[i].id
  {
    assert forall i :: 0 <= i < |agents| ==> agents[i] in agents;
  }

  /**
   * union: the two groups become one, represented by one of their two representatives,
   * the first when `keepFirst` holds; every other group stays as it was.
   */
  function Union(groups: Groups, i: AgentId, j: AgentId, keepFirst: bool): Groups
  {
    var ri := Find(groups, i);
    var rj := Find(groups, j);
    var root := if keepFirst then ri else rj;
    map x | x in groups.Keys + {i, j} :: if Find(groups, x) == ri || Find(groups, x) == rj then root else groups[x]
  }

  /**
   * After a union the two ids share a representative, the one kept; every id of the two
   * groups has it, every other id keeps its own, and the map stays canonical.
   */
  lemma UnionRule(groups: Groups, i: AgentId, j: AgentId, keepFirst: bool)
    requires Canonical(groups)
    ensures var u := Union(groups, i, j, keepFirst);
            var root := if keepFirst then Find(groups, i) else Find(groups, j);
            && Canonical(u)
            && Find(u, i) == root && Find(u, j) == root
            && (forall x :: Find(groups, x) == Find(groups, i) || Find(groups, x) == Find(groups, j) ==> Find(u, x) == root)
            && (forall x :: Find(groups, x) != Find(groups, i) && Find(groups, x) != Find(groups, j) ==>
                  Find(u, x) == Find(groups, x))
  {
    var u := Union(groups, i, j, keepFirst);
    var ri := Find(groups, i);
    var rj := Find(groups, j);
    var root := if keepFirst then ri else rj;
    assert root in u && u[root] == root;
    forall x | x in u
      ensures u[x] in u && u[u[x]] == u[x]
    {
      if Find(groups, x) != ri && Find(groups, x) != rj {
        var g := groups[x];
        assert Find(groups, g) == g;
      }
    }
  }

  /** A union never splits a group: ids that shared a group still share one. */
  lemma UnionCoarsens(groups: Groups, i: AgentId, j: AgentId, keepFirst: bool, x: AgentId, y: AgentId)
    requires Canonical(groups) && Find(groups, x) == Find(groups, y)
    ensures Find(Union(groups, i, j, keepFirst), x) == Find(Union(groups, i, j, keepFirst), y)
  {
    UnionRule(groups, i, j, keepFirst);
  }

  /** The places in the agent list of the agents of a group, in list order. */
  function Members(agents: seq<Agent>, groups: Groups, g: AgentId): (r: seq<int>)
    ensures forall k :: 0 <= k < |r| ==> 0 <= r[k] < |agents|
    decreases |agents|
  {
    if agents == [] then []
    else
      var n := |agents| - 1;
      Members(agents[..n], groups, g) + (if Find(groups, agents[n].id) == Find(groups, g) then [n] else [])
  }

  /** Places listed in increasing order, each in range. */
  predicate Increasing(idx: seq<int>, bound: int)
  {
    (forall k :: 0 <= k < |idx| ==> 0 <= idx[k] < bound)
    && forall a, b :: 0 <= a < b < |idx| ==> idx[a] < idx[b]
  }

  /** A place is listed exactly when the agent there is in the group. */
  lemma {:induction false} MembersRule(agents: seq<Agent>, groups: Groups, g: AgentId)
    ensures forall p :: p in Members(agents, groups, g) <==>
              0 <= p < |agents| && Find(groups, agents[p].id) == Find(groups, g)
    decreases |agents|
  {
    if agents != [] {
      var n := |agents| - 1;
      MembersRule(agents[..n], groups, g);
      var prev := Members(agents[..n], groups, g);
      var last: seq<int> := if Find(groups, agents[n].id) == Find(groups, g) then [n] else [];
      assert Members(agents, groups, g) == prev + last;
      forall p
        ensures p in prev + last <==> 0 <= p < |agents| && Find(groups, agents[p].id) == Find(groups, g)
      {
        assert p in prev + last <==> p in prev || p in last;
        if 0 <= p < n {
          assert agents[..n][p] == agents[p];
        }
      }
    }
  }

  /** The places of a group are listed in increasing order. */
  lemma {:induction false} MembersIncrease(agents: seq<Agent>, groups: Groups, g: AgentId)
    ensures Increasing(Members(agents, groups, g), |agents|)
    decreases |agents|
  {
    if agents != [] {
      var n := |agents| - 1;
      MembersIncrease(agents[..n], groups, g);
      var prev := Members(agents[..n], groups, g);
      var last: seq<int> := if Find(groups, agents[n].id) == Find(groups, g) then [n] else [];
      assert Members(agents, groups, g) == prev + last;
      assert forall k :: 0 <= k < |prev| ==> prev[k] < n;
    }
  }

  /** The agents at the listed places. */
  function Pick(agents: seq<Agent>, idx: seq<int>): (r: seq<Agent>)
    requires forall k :: 0 <= k < |idx| ==> 0 <= idx[k] < |agents|
    ensures |r| == |idx|
  {
    seq(|idx|, k requires 0 <= k < |idx| => agents[idx[k]])
  }

  /** getGroupAgents: the agents of a group, in list order. */
  function GroupAgents(agents: seq<Agent>, groups: Groups, g: AgentId): seq<Agent>
  {
    Pick(agents, Members(agents, groups, g))
  }

  /** getGroupAgentIds: the ids of the agents of a group, in list order. */
  function GroupIds(agents: seq<Agent>, groups: Groups, g: AgentId): (r: seq<AgentId>)
  {
    var group := GroupAgents(agents, groups, g);
    seq(|group|, k requires 0 <= k < |group| => group[k].id)
  }

  // ---------------------------------------------------------------- the collaborators

  /** What a path-finding run leaves: whether it succeeded, and the agents it was given. */
  datatype RunResult = RunResult(ok: bool, agents: seq<Agent>)

  /** What findConflicts adds to the conflict list, and whether it threw part-way. */
  datatype Found = Found(conflicts: seq<Conflict>, threw: bool)

  /**
   * The collaborators: the map's claimed moves and the conversion of agents' paths into
   * claimed moves, the single- and multi-agent searches, the cost of a group, which
   * representative a union keeps, the conflict detection of a group's agents against the
   * agents they share time with, and the weight bounding the accepted sum of costs.
   */
  datatype IDSetting = IDSetting(
    mapObstacles: ObstacleTable,
    asObstacles: (ObstacleTable, seq<Agent>) -> ObstacleTable,
    sapf: (seq<Agent>, ObstacleTable) -> RunResult,
    mapf: (seq<Agent>, ObstacleTable) -> RunResult,
    groupCost: (Groups, AgentId) -> real,
    keepFirst: (AgentId, AgentId) -> bool,
    detect: (seq<Agent>, seq<Agent>) -> Found,
    weight: real)

  // ---------------------------------------------------------------- execute

  /** The claimed moves a group is planned around: the avoided group's paths, unless it is -1. */
  function TempObstacles(st: IDSetting, agents: seq<Agent>, groups: Groups, avoid: AgentId): ObstacleTable
  {
    if avoid != -1 then st.asObstacles(st.mapObstacles, GroupAgents(agents, groups, avoid)) else st.mapObstacles
  }

  /** The agents as a run leaves them: the run's agent at each place it covers. */
  function Ran(before: seq<Agent>, after: seq<Agent>): (r: seq<Agent>)
    ensures |r| == |before|
  {
    seq(|before|, i requires 0 <= i < |before| => if i < |after| then after[i] else before[i])
  }

  /** resetAgentIds and setAgentsIndexes: the agents numbered from zero in list order. */
  function Renumbered(group: seq<Agent>): (r: seq<Agent>)
    ensures |r| == |group|
  {
    seq(|group|, i requires 0 <= i < |group| => group[i].(id := i, index := i))
  }

  /** The loop after a multi-agent run: each agent gets back its id and its shared-time set, and its id as its index. */
  function Restored(before: seq<Agent>, after: seq<Agent>): (r: seq<Agent>)
    ensures |r| == |before|
  {
    var ran := Ran(before, after);
    seq(|before|, i requires 0 <= i < |before| =>
          ran[i].(id := before[i].id, index := before[i].id, sharedTime := before[i].sharedTime))
  }

  /** runPathFindingAlgorithm: the single-agent search for one agent, the multi-agent search otherwise. */
  function RunGroup(st: IDSetting, group: seq<Agent>, obstacles: ObstacleTable): (r: RunResult)
    ensures |r.agents| == |group|
  {
    if |group| == 1 then
      var out := st.sapf(group, obstacles);
      RunResult(out.ok, Ran(group, out.agents))
    else
      var out := st.mapf(Renumbered(group), obstacles);
      RunResult(out.ok, Restored(group, out.agents))
  }

  /**
   * A multi-agent run, whether it succeeds or fails, leaves each agent with its own id and
   * shared-time set and its id as its index; its path is the one the run gave it.
   */
  lemma RunRestores(st: IDSetting, group: seq<Agent>, obstacles: ObstacleTable)
    requires |group| != 1
    ensures var r := RunGroup(st, group, obstacles);
            var out := st.mapf(Renumbered(group), obstacles);
            && r.ok == out.ok
            && forall k :: 0 <= k < |group| ==>
                 && r.agents[k].id == group[k].id && r.agents[k].index == group[k].id
                 && r.agents[k].sharedTime == group[k].sharedTime
                 && r.agents[k].path == (if k < |out.agents| then out.agents[k] else group[k]).path
  {
  }

  /** The loop saving the ids and shared-time sets, and the loop restoring them after the run. */
  method RestoreLoop(before: seq<Agent>, after: seq<Agent>) returns (r: seq<Agent>)
    ensures r == Restored(before, after)
  {
    var tempIds: seq<AgentId> := [];
    var tempShared: seq<seq<AgentId>> := [];
    for i := 0 to |before|
      invariant |tempIds| == i && |tempShared| == i
      invariant forall k :: 0 <= k < i ==> tempIds[k] == before[k].id && tempShared[k] == before[k].sharedTime
    {
      tempIds := tempIds + [before[i].id];
      tempShared := tempShared + [before[i].sharedTime];
    }
    r := Ran(before, after);
    for i := 0 to |tempIds|
      invariant |r| == |before|
      invariant forall k :: 0 <= k < i ==> r[k] == Restored(before, after)[k]
      invariant forall k :: i <= k < |before| ==> r[k] == Ran(before, after)[k]
    {
      r := r[i := r[i].(id := tempIds[i], index := tempIds[i], sharedTime := tempShared[i])];
    }
  }

  /** runPathFindingAlgorithm in place: the run, then the restore loop for a multi-agent run. */
  method RunPathFinding(st: IDSetting, group: seq<Agent>, obstacles: ObstacleTable) returns (r: RunResult)
    ensures r == RunGroup(st, group, obstacles)
  {
    if |group| == 1 {
      var out := st.sapf(group, obstacles);
      return RunResult(out.ok, Ran(group, out.agents));
    }
    var out := st.mapf(Renumbered(group), obstacles);
    var restored := RestoreLoop(group, out.agents);
    r := RunResult(out.ok, restored);
  }

  /** The cost of each agent's path, in list order. */
  function Costs(agents: seq<Agent>): (r: seq<real>)
    ensures |r| == |agents|
  {
    seq(|agents|, i requires 0 <= i < |agents| => agents[i].path.cost)
  }

  /** calculateSumOfCosts: the costs of the agents' paths added up from zero. */
  method CalculateSumOfCosts(agents: seq<Agent>) returns (soc: real)
    ensures soc == Sum(Costs(agents))
  {
    soc := 0.0;
    for i := 0 to |agents|
      invariant soc == Sum(Costs(agents[..i]))
    {
      ghost var costs := Costs(agents[..i + 1]);
      assert costs[..i] == Costs(agents[..i]);
      assert Sum(costs) == Sum(costs[..i]) + agents[i].path.cost;
      soc := soc + agents[i].path.cost;
    }
    assert agents[..|agents|] == agents;
  }

  /** The agents of the list with the run's agents written back at the group's places. */
  function WriteBack(agents: seq<Agent>, idx: seq<int>, news: seq<Agent>): (r: seq<Agent>)
    requires forall k :: 0 <= k < |idx| ==> 0 <= idx[k] < |agents|
    requires |news| == |idx|
    ensures |r| == |agents|
    decreases |idx|
  {
    if idx == [] then agents
    else
      var n := |idx| - 1;
      WriteBack(agents, idx[..n], news[..n])[idx[n] := news[n]]
  }

  /** Each place of the group holds the run's agent for it; every other place is unchanged. */
  lemma {:induction false} WriteBackRule(agents: seq<Agent>, idx: seq<int>, news: seq<Agent>)
    requires Increasing(idx, |agents|) && |news| == |idx|
    ensures var r := WriteBack(agents, idx, news);
            && (forall k :: 0 <= k < |idx| ==> r[idx[k]] == news[k])
            && (forall p :: 0 <= p < |agents| && p !in idx ==> r[p] == agents[p])
    decreases |idx|
  {
    if idx != [] {
      var n := |idx| - 1;
      WriteBackRule(agents, idx[..n], news[..n]);
      forall p | 0 <= p < |agents| && p !in idx
        ensures WriteBack(agents, idx, news)[p] == agents[p]
      {
        assert p !in idx[..n];
      }
    }
  }

  /** The first of the listed places whose agent has the id, counted along the list. */
  function FirstWithId(agents: seq<Agent>, idx: seq<int>, id: AgentId): (r: Option<int>)
    requires forall k :: 0 <= k < |idx| ==> 0 <= idx[k] < |agents|
    ensures r.Some? ==> 0 <= r.value < |idx| && agents[idx[r.value]].id == id
    ensures r.Some? ==> forall m :: 0 <= m < r.value ==> agents[idx[m]].id != id
    ensures r.None? ==> forall m :: 0 <= m < |idx| ==> agents[idx[m]].id != id
    decreases |idx|
  {
    if idx == [] then None
    else if agents[idx[0]].id == id then Some(0)
    else match FirstWithId(agents, idx[1..], id)
      case None => None
      case Some(m) => Some(m + 1)
  }

  /** One new agent's path copied to the first old agent with its id, when there is one. */
  function CopyPath(agents: seq<Agent>, idx: seq<int>, clone: Agent): (r: seq<Agent>)
    requires forall k :: 0 <= k < |idx| ==> 0 <= idx[k] < |agents|
    ensures |r| == |agents|
  {
    match FirstWithId(agents, idx, clone.id)
    case None => agents
    case Some(m) => agents[idx[m] := agents[idx[m]].(path := clone.path)]
  }

  /** updateAgentPaths: each new agent in turn gives a copy of its path to the first old agent with its id. */
  function UpdatePaths(news: seq<Agent>, agents: seq<Agent>, idx: seq<int>): (r: seq<Agent>)
    requires forall k :: 0 <= k < |idx| ==> 0 <= idx[k] < |agents|
    ensures |r| == |agents|
    decreases |news|
  {
    if news == [] then agents
    else
      var n := |news| - 1;
      CopyPath(UpdatePaths(news[..n], agents, idx), idx, news[n])
  }

  /** Copying paths keeps every agent's id. */
  lemma {:induction false} UpdatePathsIds(news: seq<Agent>, agents: seq<Agent>, idx: seq<int>)
    requires forall k :: 0 <= k < |idx| ==> 0 <= idx[k] < |agents|
    ensures forall p :: 0 <= p < |agents| ==> UpdatePaths(news, agents, idx)[p] == agents[p].(path := UpdatePaths(news, agents, idx)[p].path)
    decreases |news|
  {
    if news != [] {
      UpdatePathsIds(news[..|news| - 1], agents, idx);
    }
  }

  /** No two agents at the listed places share an id. */
  predicate DistinctIds(agents: seq<Agent>, idx: seq<int>)
    requires forall k :: 0 <= k < |idx| ==> 0 <= idx[k] < |agents|
  {
    forall a, b :: 0 <= a < b < |idx| ==> agents[idx[a]].id != agents[idx[b]].id
  }

  /**
   * When the new agents are the clones of the group's agents, in order and with their ids,
   * and no two of the group share an id, every agent of the group takes the path of its
   * clone and nothing else about the list changes.
   */
  lemma {:induction false} UpdatePathsRule(news: seq<Agent>, agents: seq<Agent>, idx: seq<int>)
    requires Increasing(idx, |agents|) && DistinctIds(agents, idx)
    requires |news| <= |idx| && forall k :: 0 <= k < |news| ==> news[k].id == agents[idx[k]].id
    ensures var r := UpdatePaths(news, agents, idx);
            && (forall k :: 0 <= k < |news| ==> r[idx[k]] == agents[idx[k]].(path := news[k].path))
            && (forall p :: 0 <= p < |agents| && p !in idx[..|news|] ==> r[p] == agents[p])
    decreases |news|
  {
    if news != [] {
      var n := |news| - 1;
      var prev := UpdatePaths(news[..n], agents, idx);
      UpdatePathsRule(news[..n], agents, idx);
      UpdatePathsIds(news[..n], agents, idx);
      FirstWithIdAt(prev, idx, n, news[n].id);
      var r := prev[idx[n] := prev[idx[n]].(path := news[n].path)];
      assert UpdatePaths(news, agents, idx) == r;
      assert prev[idx[n]] == agents[idx[n]] by {
        assert idx[n] !in idx[..n];
      }
      forall k | 0 <= k < n
        ensures r[idx[k]] == agents[idx[k]].(path := news[k].path)
      {
        assert idx[k] < idx[n];
      }
      forall p | 0 <= p < |agents| && p !in idx[..n + 1]
        ensures r[p] == agents[p]
      {
        assert p !in idx[..n] && p != idx[n];
      }
    }
  }

  /** The first listed place with an id, when it is at `n`. */
  lemma FirstWithIdAt(agents: seq<Agent>, idx: seq<int>, n: int, id: AgentId)
    requires forall k :: 0 <= k < |idx| ==> 0 <= idx[k] < |agents|
    requires 0 <= n < |idx| && agents[idx[n]].id == id
    requires forall m :: 0 <= m < n ==> agents[idx[m]].id != id
    ensures FirstWithId(agents, idx, id) == Some(n)
  {
  }

  /** updateAgentPaths in place: for each new agent, the loop over the old agents stopping at the first id match. */
  method UpdateAgentPathsLoop(news: seq<Agent>, agents: seq<Agent>, idx: seq<int>) returns (r: seq<Agent>)
    requires forall k :: 0 <= k < |idx| ==> 0 <= idx[k] < |agents|
    ensures r == UpdatePaths(news, agents, idx)
  {
    r := agents;
    for k := 0 to |news|
      invariant r == UpdatePaths(news[..k], agents, idx)
    {
      assert news[..k + 1][..k] == news[..k];
      var m := 0;
      while m < |idx|
        invariant 0 <= m <= |idx|
        invariant forall j :: 0 <= j < m ==> r[idx[j]].id != news[k].id
      {
        if r[idx[m]].id == news[k].id {
          break;
        }
        m := m + 1;
      }
      ghost var first := FirstWithId(r, idx, news[k].id);
      if m < |idx| {
        assert first == Some(m);
        r := r[idx[m] := r[idx[m]].(path := news[k].path)];
      } else {
        assert first.None?;
      }
    }
    assert news[..|news|] == news;
  }

  /**
   * What execute makes of a run of the group at the listed places: accepted when it succeeds
   * within the bound on the sum of costs; the original agents take the run's agents when
   * `update` holds (whatever the outcome), and the clones' paths only when accepted.
   */
  function Settle(agents: seq<Agent>, idx: seq<int>, run: RunResult, update: bool, maxSOC: real): (r: (bool, seq<Agent>))
    requires forall k :: 0 <= k < |idx| ==> 0 <= idx[k] < |agents|
    requires |run.agents| == |idx|
    ensures |r.1| == |agents|
  {
    var written := if update then WriteBack(agents, idx, run.agents) else agents;
    if !run.ok then (false, written)
    else if Sum(Costs(run.agents)) <= maxSOC then
      (true, if update then written else UpdatePaths(run.agents, agents, idx))
    else (false, written)
  }

  /** execute: the group planned around the avoided group, and the run settled against the weighted group cost. */
  function Execute(st: IDSetting, agents: seq<Agent>, groups: Groups, update: bool, findGroup: AgentId,
                   avoidGroup: AgentId): (r: (bool, seq<Agent>))
    ensures |r.1| == |agents|
  {
    var idx := Members(agents, groups, findGroup);
    var run := RunGroup(st, Pick(agents, idx), TempObstacles(st, agents, groups, avoidGroup));
    Settle(agents, idx, run, update, st.groupCost(groups, findGroup) * st.weight)
  }

  /**
   * A run is accepted exactly when it succeeds within the bound. With `update` each listed
   * place takes the run's agent, accepted or not; without it the list is unchanged unless
   * the run is accepted. Places not listed never change.
   */
  lemma SettleRule(agents: seq<Agent>, idx: seq<int>, run: RunResult, update: bool, maxSOC: real)
    requires Increasing(idx, |agents|) && |run.agents| == |idx|
    ensures var r := Settle(agents, idx, run, update, maxSOC);
            && (r.0 <==> run.ok && Sum(Costs(run.agents)) <= maxSOC)
            && (update ==> forall k :: 0 <= k < |idx| ==> r.1[idx[k]] == run.agents[k])
            && (!update && !r.0 ==> r.1 == agents)
            && forall p :: 0 <= p < |agents| && p !in idx ==> r.1[p] == agents[p]
  {
    WriteBackRule(agents, idx, run.agents);
    UpdatePathsFrame(run.agents, agents, idx);
  }

  /**
   * Without `update`, an accepted run whose agents are the group's clones, with their ids,
   * gives each agent of the group its clone's path and changes nothing else about it,
   * provided no two of the group share an id.
   */
  lemma SettleClones(agents: seq<Agent>, idx: seq<int>, run: RunResult, maxSOC: real)
    requires Increasing(idx, |agents|) && |run.agents| == |idx| && DistinctIds(agents, idx)
    requires forall k :: 0 <= k < |idx| ==> run.agents[k].id == agents[idx[k]].id
    requires Settle(agents, idx, run, false, maxSOC).0
    ensures forall k :: 0 <= k < |idx| ==>
              Settle(agents, idx, run, false, maxSOC).1[idx[k]] == agents[idx[k]].(path := run.agents[k].path)
  {
    UpdatePathsRule(run.agents, agents, idx);
  }

  /**
   * execute accepts exactly when the group's run succeeds within its weighted cost; with
   * `update` each agent of the group takes the run's agent; without it nothing changes
   * unless the run is accepted; and an agent outside the group never changes.
   */
  lemma ExecuteRule(st: IDSetting, agents: seq<Agent>, groups: Groups, update: bool, findGroup: AgentId,
                    avoidGroup: AgentId)
    ensures var idx := Members(agents, groups, findGroup);
            var run := RunGroup(st, Pick(agents, idx), TempObstacles(st, agents, groups, avoidGroup));
            var r := Execute(st, agents, groups, update, findGroup, avoidGroup);
            && (r.0 <==> run.ok && Sum(Costs(run.agents)) <= st.groupCost(groups, findGroup) * st.weight)
            && (update ==> forall k :: 0 <= k < |idx| ==> r.1[idx[k]] == run.agents[k])
            && (!update && !r.0 ==> r.1 == agents)
            && forall p :: 0 <= p < |agents| && Find(groups, agents[p].id) != Find(groups, findGroup) ==>
                 r.1[p] == agents[p]
  {
    var idx := Members(agents, groups, findGroup);
    var run := RunGroup(st, Pick(agents, idx), TempObstacles(st, agents, groups, avoidGroup));
    var maxSOC := st.groupCost(groups, findGroup) * st.weight;
    assert Execute(st, agents, groups, update, findGroup, avoidGroup) == Settle(agents, idx, run, update, maxSOC);
    SettleGroup(agents, groups, findGroup, run, update, maxSOC);
  }

  /** SettleRule for the members of one group: places outside the group never change. */
  lemma SettleGroup(agents: seq<Agent>, groups: Groups, g: AgentId, run: RunResult, update: bool, maxSOC: real)
    requires |run.agents| == |Members(agents, groups, g)|
    ensures var idx := Members(agents, groups, g);
            var r := Settle(agents, idx, run, update, maxSOC);
            && (r.0 <==> run.ok && Sum(Costs(run.agents)) <= maxSOC)
            && (update ==> forall k :: 0 <= k < |idx| ==> r.1[idx[k]] == run.agents[k])
            && (!update && !r.0 ==> r.1 == agents)
            && forall p :: 0 <= p < |agents| && Find(groups, agents[p].id) != Find(groups, g) ==>
                 r.1[p] == agents[p]
  {
    var idx := Members(agents, groups, g);
    var r := Settle(agents, idx, run, update, maxSOC);
    MembersRule(agents, groups, g);
    MembersIncrease(agents, groups, g);
    SettleRule(agents, idx, run, update, maxSOC);
    forall p | 0 <= p < |agents| && Find(groups, agents[p].id) != Find(groups, g)
      ensures r.1[p] == agents[p]
    {
      assert p !in idx;
    }
  }

  /** Copying paths only touches the listed places. */
  lemma {:induction false} UpdatePathsFrame(news: seq<Agent>, agents: seq<Agent>, idx: seq<int>)
    requires forall k :: 0 <= k < |idx| ==> 0 <= idx[k] < |agents|
    ensures forall p :: 0 <= p < |agents| && p !in idx ==> UpdatePaths(news, agents, idx)[p] == agents[p]
    decreases |news|
  {
    if news != [] {
      UpdatePathsFrame(news[..|news| - 1], agents, idx);
    }
  }

  /** execute in place: the run, the sum of costs, and the copy of accepted paths. */
  method ExecuteOn(st: IDSetting, agents: seq<Agent>, groups: Groups, update: bool, findGroup: AgentId,
                   avoidGroup: AgentId) returns (accepted: bool, result: seq<Agent>)
    ensures (accepted, result) == Execute(st, agents, groups, update, findGroup, avoidGroup)
  {
    var idx := Members(agents, groups, findGroup);
    var obstacles := TempObstacles(st, agents, groups, avoidGroup);
    var run := RunPathFinding(st, Pick(agents, idx), obstacles);
    var maxSOC := st.groupCost(groups, findGroup) * st.weight;
    assert Execute(st, agents, groups, update, findGroup, avoidGroup) == Settle(agents, idx, run, update, maxSOC);
    accepted, result := SettleOn(agents, idx, run, update, maxSOC);
  }

  /** The tail of execute in place: the sum of costs, the bound, and the copy of accepted paths. */
  method SettleOn(agents: seq<Agent>, idx: seq<int>, run: RunResult, update: bool, maxSOC: real)
    returns (accepted: bool, result: seq<Agent>)
    requires forall k :: 0 <= k < |idx| ==> 0 <= idx[k] < |agents|
    requires |run.agents| == |idx|
    ensures (accepted, result) == Settle(agents, idx, run, update, maxSOC)
  {
    result := if update then WriteBack(agents, idx, run.agents) else agents;
    if !run.ok {
      return false, result;
    }
    var newSOC := CalculateSumOfCosts(run.agents);
    if newSOC <= maxSOC && update {
      accepted := true;
    } else if newSOC <= maxSOC {
      result := UpdateAgentPathsLoop(run.agents, agents, idx);
      accepted := true;
    } else {
      accepted := false;
    }
  }

  // ---------------------------------------------------------------- updateConflicts

  /** A conflict is removed for a group when its first agent, or the second of an agent conflict, is in the group. */
  predicate Hits(c: Conflict, ids: seq<AgentId>)
  {
    c.agent1 in ids || (c.AgentConflict? && c.agent2 in ids)
  }

  /** The group's ids that are a party of some conflict: their paths are flagged free. */
  function FreedIds(conflicts: seq<Conflict>, ids: seq<AgentId>): set<AgentId>
  {
    set id | id in ids && exists c :: c in conflicts && c.Involves(id)
  }

  /** The agents with a freed id have their paths flagged free of conflicts. */
  function Freed(agents: seq<Agent>, freed: set<AgentId>): (r: seq<Agent>)
    ensures |r| == |agents|
  {
    seq(|agents|, i requires 0 <= i < |agents| =>
          if agents[i].id in freed then agents[i].(path := agents[i].path.(freeOfConflicts := true)) else agents[i])
  }

  /**
   * updateConflicts: every conflict with an agent of the group is removed, the others kept
   * in order, and the path of every agent of the group that was a party of one is flagged free.
   */
  function UpdateConflicts(conflicts: seq<Conflict>, agents: seq<Agent>, ids: seq<AgentId>): (r: (seq<Conflict>, seq<Agent>))
  {
    (Keep(conflicts, c => !Hits(c, ids)), Freed(agents, FreedIds(conflicts, ids)))
  }

  /**
   * A conflict stays exactly when none of its parties is in the group; an agent's path is
   * flagged free exactly when the agent is in the group and a party of some conflict, and
   * nothing else about the agents changes.
   */
  lemma UpdateConflictsRule(conflicts: seq<Conflict>, agents: seq<Agent>, ids: seq<AgentId>)
    ensures var (remaining, freed) := UpdateConflicts(conflicts, agents, ids);
            && (forall c :: c in remaining <==> c in conflicts && !Hits(c, ids))
            && |freed| == |agents|
            && forall i :: 0 <= i < |agents| ==>
                 && freed[i].(path := agents[i].path) == agents[i]
                 && freed[i].path.(freeOfConflicts := agents[i].path.freeOfConflicts) == agents[i].path
                 && (freed[i].path.freeOfConflicts <==>
                       agents[i].path.freeOfConflicts
                       || (agents[i].id in ids && exists c :: c in conflicts && c.Involves(agents[i].id)))
  {
    KeepMembers(conflicts, c => !Hits(c, ids));
  }

  /** A conflict the group hits is one its id is a party of. */
  lemma HitsInvolves(c: Conflict, ids: seq<AgentId>)
    ensures Hits(c, ids) <==> exists id :: id in ids && c.Involves(id)
  {
    if c.agent1 in ids {
      assert c.Involves(c.agent1);
    } else if c.AgentConflict? && c.agent2 in ids {
      assert c.Involves(c.agent2);
    }
  }

  /** The ids of the first i of the group that some conflict of the first j involves. */
  ghost function FreedSoFar(conflicts: seq<Conflict>, ids: seq<AgentId>, i: int, j: int): set<AgentId>
    requires 0 <= i < |ids| && 0 <= j <= |conflicts|
  {
    FreedIds(conflicts, ids[..i]) + (if exists c :: c in conflicts[..j] && c.Involves(ids[i]) then {ids[i]} else {})
  }

  /** One more id of the group: it is freed when some conflict involves it. */
  lemma FreedStep(conflicts: seq<Conflict>, ids: seq<AgentId>, i: int)
    requires 0 <= i < |ids|
    ensures FreedSoFar(conflicts, ids, i, |conflicts|) == FreedIds(conflicts, ids[..i + 1])
  {
    assert conflicts[..|conflicts|] == conflicts;
    assert ids[..i + 1] == ids[..i] + [ids[i]];
    forall id ensures id in FreedIds(conflicts, ids[..i + 1]) <==> id in FreedSoFar(conflicts, ids, i, |conflicts|) {
      assert id in ids[..i + 1] <==> id in ids[..i] || id == ids[i];
    }
  }

  /**
   * updateConflicts in place: for each id of the group, each conflict with it as first
   * agent, or as second agent of an agent conflict, is listed for removal and that agent's
   * path flagged free; then every listed conflict is removed.
   */
  method UpdateConflictsLoop(conflicts: seq<Conflict>, agents: seq<Agent>, ids: seq<AgentId>)
    returns (remaining: seq<Conflict>, result: seq<Agent>)
    ensures (remaining, result) == UpdateConflicts(conflicts, agents, ids)
  {
    var toRemove: seq<Conflict> := [];
    result := agents;
    for i := 0 to |ids|
      invariant forall c :: c in toRemove <==> c in conflicts && Hits(c, ids[..i])
      invariant result == Freed(agents, FreedIds(conflicts, ids[..i]))
    {
      assert ids[..i + 1] == ids[..i] + [ids[i]];
      for j := 0 to |conflicts|
        invariant forall c :: c in toRemove <==>
                    c in conflicts && (Hits(c, ids[..i]) || (c in conflicts[..j] && c.Involves(ids[i])))
        invariant result == Freed(agents, FreedSoFar(conflicts, ids, i, j))
      {
        assert conflicts[..j + 1] == conflicts[..j] + [conflicts[j]];
        var c := conflicts[j];
        if c.agent1 == ids[i] || (c.AgentConflict? && c.agent2 == ids[i]) {
          toRemove := toRemove + [c];
          assert c in conflicts[..j + 1] && c.Involves(ids[i]);
          assert FreedSoFar(conflicts, ids, i, j + 1) == FreedSoFar(conflicts, ids, i, j) + {ids[i]};
          result := FlagFree(result, agents, FreedSoFar(conflicts, ids, i, j), ids[i]);
        } else {
          assert FreedSoFar(conflicts, ids, i, j + 1) == FreedSoFar(conflicts, ids, i, j);
        }
      }
      assert conflicts[..|conflicts|] == conflicts;
      FreedStep(conflicts, ids, i);
      forall c ensures Hits(c, ids[..i + 1]) <==> Hits(c, ids[..i]) || c.Involves(ids[i]) {
      }
    }
    assert ids[..|ids|] == ids;
    remaining := RemoveAll(conflicts, toRemove);
    assert Keep(conflicts, c => c !in toRemove) == Keep(conflicts, c => !Hits(c, ids)) by {
      KeepSame(conflicts, c => c !in toRemove, c => !Hits(c, ids));
    }
  }

  /** Flagging one more id free: every agent with it has its path flagged. */
  method FlagFree(result: seq<Agent>, agents: seq<Agent>, ghost freed: set<AgentId>, id: AgentId) returns (r: seq<Agent>)
    requires result == Freed(agents, freed)
    ensures r == Freed(agents, freed + {id})
  {
    r := result;
    for k := 0 to |r|
      invariant |r| == |agents|
      invariant forall p :: 0 <= p < k ==> r[p] == Freed(agents, freed + {id})[p]
      invariant forall p :: k <= p < |r| ==> r[p] == Freed(agents, freed)[p]
    {
      if r[k].id == id {
        r := r[k := r[k].(path := r[k].path.(freeOfConflicts := true))];
      }
    }
  }

  /** removeAll: the conflicts not listed for removal, in order. */
  method RemoveAll(conflicts: seq<Conflict>, toRemove: seq<Conflict>) returns (r: seq<Conflict>)
    ensures r == Keep(conflicts, c => c !in toRemove)
  {
    r := [];
    for i := 0 to |conflicts|
      invariant r == Keep(conflicts[..i], c => c !in toRemove)
    {
      KeepSnoc(conflicts, i, c => c !in toRemove);
      if conflicts[i] !in toRemove {
        r := r + [conflicts[i]];
      }
    }
    assert conflicts[..|conflicts|] == conflicts;
  }

  /** Two tests that agree on every element of a list keep the same elements. */
  lemma {:induction false} KeepSame(s: seq<Conflict>, p: Conflict -> bool, q: Conflict -> bool)
    requires forall c :: c in s ==> p(c) == q(c)
    ensures Keep(s, p) == Keep(s, q)
    decreases |s|
  {
    if s != [] {
      KeepSame(s[..|s| - 1], p, q);
    }
  }
}

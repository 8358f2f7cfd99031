/**
 * Independence Detection (IndependenceDetection.java and the search driving it): the
 * conflicts are taken one at a time from the head of the list; the groups of the two
 * agents are replanned, each around the other, and merged when neither replan is accepted
 * on its own, until no conflict remains.
 */
module Independence {
  import opened Wrappers
  import opened Geometry
  import opened Conflicts
  import opened Seqs
  import opened IDSearch

  /** What the search shares with the loop: the agents, the conflict list and the groups. */
  datatype IDState = IDState(agents: seq<Agent>, conflicts: seq<Conflict>, groups: Groups)

  /** How findPaths ends: no conflict left, out of fuel, or an exception it does not catch. */
  datatype Outcome = Resolved | OutOfFuel | Threw

  /** execute on the shared state: whether the run was accepted, and the agents it leaves. */
  function ExecuteIn(st: IDSetting, s: IDState, update: bool, findGroup: AgentId, avoidGroup: AgentId): (r: (bool, IDState))
    ensures r.1.conflicts == s.conflicts && r.1.groups == s.groups
  {
    var e := Execute(st, s.agents, s.groups, update, findGroup, avoidGroup);
    (e.0, s.(agents := e.1))
  }

  /** updateConflicts on the shared state, for a group. */
  function UpdateConflictsIn(s: IDState, g: AgentId): (r: IDState)
    ensures r.groups == s.groups
  {
    var u := UpdateConflicts(s.conflicts, s.agents, GroupIds(s.agents, s.groups, g));
    s.(conflicts := u.0, agents := u.1)
  }

  /** findConflicts for a group: what the detection finds is appended, even when it throws part-way. */
  function FindConflictsIn(st: IDSetting, s: IDState, g: AgentId): (r: (IDState, bool))
    ensures r.0.groups == s.groups && r.0.agents == s.agents
    ensures |r.0.conflicts| >= |s.conflicts| && r.0.conflicts[..|s.conflicts|] == s.conflicts
  {
    var f := st.detect(s.agents, GroupAgents(s.agents, s.groups, g));
    (s.(conflicts := s.conflicts + f.conflicts), f.threw)
  }

  /** union on the shared state; which representative survives is the disjoint-set map's choice. */
  function UnionIn(st: IDSetting, s: IDState, i: AgentId, j: AgentId): (r: IDState)
    ensures r.agents == s.agents && r.conflicts == s.conflicts
  {
    s.(groups := Union(s.groups, i, j, st.keepFirst(i, j)))
  }

  /**
   * Two distinct groups in conflict: the first replanned around the second on clones, and
   * merged if accepted; otherwise the second around the first, merged if accepted;
   * otherwise merged and the merged group replanned on the original agents.
   */
  function Merge(st: IDSetting, s: IDState, gI: AgentId, gJ: AgentId): (r: IDState)
  {
    var (firstOk, s1) := ExecuteIn(st, s, false, gI, gJ);
    if firstOk then UnionIn(st, s1, gI, gJ)
    else
      var (secondOk, s2) := ExecuteIn(st, s1, false, gJ, gI);
      if secondOk then UnionIn(st, s2, gI, gJ)
      else
        var u := UnionIn(st, s2, gI, gJ);
        ExecuteIn(st, u, true, Find(u.groups, gJ), -1).1
  }

  /** The groups after a merge: the union of the two, whatever the replans did. */
  lemma MergeGroups(st: IDSetting, s: IDState, gI: AgentId, gJ: AgentId)
    ensures Merge(st, s, gI, gJ).groups == Union(s.groups, gI, gJ, st.keepFirst(gI, gJ))
  {
  }

  /**
   * One pass of the loop on the conflict at the head of the list, and whether an exception
   * escaped it: an unsolvable conflict only drops the first agent's group's conflicts; one
   * without a second operation replans that group and detects its conflicts again; a
   * conflict with an obstacle and a second operation fails the cast to an agent conflict;
   * otherwise the two groups are replanned or merged, their conflicts dropped and the
   * merged group's found again, a null reference during detection dropping them once more.
   */
  function Handle(st: IDSetting, s: IDState, c: Conflict): (r: (IDState, bool))
  {
    var gI := Find(s.groups, c.agent1);
    if !c.solvable then (UpdateConflictsIn(s, gI), false)
    else if c.operation2.None? then
      var s1 := ExecuteIn(st, s, true, gI, -1).1;
      FindConflictsIn(st, UpdateConflictsIn(s1, gI), gI)
    else if c.ObstacleConflict? then (s, true)
    else
      var gJ := Find(s.groups, c.agent2);
      var s1 := if gI == gJ then ExecuteIn(st, s, true, gI, -1).1 else Merge(st, s, gI, gJ);
      var s2 := UpdateConflictsIn(s1, gI);
      var found := Find(s2.groups, gI);
      var (s3, threw) := FindConflictsIn(st, s2, found);
      if threw then (UpdateConflictsIn(s3, found), false) else (s3, false)
  }

  /** findPaths: passes of the loop while a conflict remains, one unit of fuel each. */
  function FindPathsSpec(st: IDSetting, s: IDState, fuel: nat): (r: (IDState, Outcome))
    decreases fuel
  {
    if s.conflicts == [] then (s, Resolved)
    else if fuel == 0 then (s, OutOfFuel)
    else
      var (next, threw) := Handle(st, s, s.conflicts[0]);
      if threw then (next, Threw) else FindPathsSpec(st, next, fuel - 1)
  }

  /** The loop resolves only with an empty conflict list, and runs out of fuel only with a non-empty one. */
  lemma {:induction false} FindPathsEnds(st: IDSetting, s: IDState, fuel: nat)
    ensures FindPathsSpec(st, s, fuel).1 == Resolved ==> FindPathsSpec(st, s, fuel).0.conflicts == []
    ensures FindPathsSpec(st, s, fuel).1 == OutOfFuel ==> FindPathsSpec(st, s, fuel).0.conflicts != []
    decreases fuel
  {
    if s.conflicts != [] && fuel != 0 {
      var (next, threw) := Handle(st, s, s.conflicts[0]);
      if !threw {
        FindPathsEnds(st, next, fuel - 1);
      }
    }
  }

  /** A pass keeps the groups canonical and never splits a group. */
  lemma HandleGroups(st: IDSetting, s: IDState, c: Conflict)
    requires Canonical(s.groups)
    ensures Canonical(Handle(st, s, c).0.groups)
    ensures forall x, y :: Find(s.groups, x) == Find(s.groups, y) ==>
              Find(Handle(st, s, c).0.groups, x) == Find(Handle(st, s, c).0.groups, y)
  {
    if c.solvable && c.operation2.Some? && c.AgentConflict? {
      var gI := Find(s.groups, c.agent1);
      var gJ := Find(s.groups, c.agent2);
      if gI != gJ {
        MergeGroups(st, s, gI, gJ);
        UnionRule(s.groups, gI, gJ, st.keepFirst(gI, gJ));
        assert Handle(st, s, c).0.groups == Union(s.groups, gI, gJ, st.keepFirst(gI, gJ));
      } else {
        assert Handle(st, s, c).0.groups == s.groups;
      }
    } else {
      assert Handle(st, s, c).0.groups == s.groups;
    }
  }

  /**
   * After a pass on a solvable conflict between two agents with a second operation, the
   * two agents are in one group, whether or not an exception was caught.
   */
  lemma HandleMerges(st: IDSetting, s: IDState, c: Conflict)
    requires Canonical(s.groups) && c.AgentConflict? && c.solvable && c.operation2.Some?
    ensures Find(Handle(st, s, c).0.groups, c.agent1) == Find(Handle(st, s, c).0.groups, c.agent2)
  {
    var gI := Find(s.groups, c.agent1);
    var gJ := Find(s.groups, c.agent2);
    if gI != gJ {
      MergeGroups(st, s, gI, gJ);
      UnionRule(s.groups, gI, gJ, st.keepFirst(gI, gJ));
      var u := Union(s.groups, gI, gJ, st.keepFirst(gI, gJ));
      assert Handle(st, s, c).0.groups == u;
      assert Find(s.groups, gI) == gI && Find(s.groups, gJ) == gJ by {
        assert c.agent1 in s.groups ==> s.groups[c.agent1] in s.groups;
        assert c.agent2 in s.groups ==> s.groups[c.agent2] in s.groups;
      }
    } else {
      assert Handle(st, s, c).0.groups == s.groups;
    }
  }

  /**
   * An unsolvable conflict leaves the groups as they were, keeps exactly the conflicts of
   * agents outside the first agent's group, and, when the first agent is one of the agents,
   * shortens the list.
   */
  lemma HandleUnsolvable(st: IDSetting, s: IDState, p: int)
    requires Canonical(s.groups) && s.conflicts != [] && !s.conflicts[0].solvable
    requires 0 <= p < |s.agents| && s.agents[p].id == s.conflicts[0].agent1
    ensures var (next, threw) := Handle(st, s, s.conflicts[0]);
            var ids := GroupIds(s.agents, s.groups, Find(s.groups, s.conflicts[0].agent1));
            && !threw && next.groups == s.groups
            && (forall c :: c in next.conflicts <==> c in s.conflicts && !Hits(c, ids))
            && |next.conflicts| < |s.conflicts|
  {
    var c := s.conflicts[0];
    var g := Find(s.groups, c.agent1);
    var ids := GroupIds(s.agents, s.groups, g);
    assert Find(s.groups, g) == g by {
      assert c.agent1 in s.groups ==> s.groups[c.agent1] in s.groups;
    }
    MembersRule(s.agents, s.groups, g);
    var idx := Members(s.agents, s.groups, g);
    var k :| 0 <= k < |idx| && idx[k] == p;
    assert ids[k] == c.agent1;
    assert Hits(c, ids);
    UpdateConflictsRule(s.conflicts, s.agents, ids);
    KeepDrops(s.conflicts, d => !Hits(d, ids), 0);
  }

  /**
   * A solvable conflict with no second operation replans the first agent's group on the
   * original agents, keeps the groups, drops the group's conflicts and appends the ones
   * detected for it again.
   */
  lemma HandleReplans(st: IDSetting, s: IDState, c: Conflict)
    requires c.solvable && c.operation2.None?
    ensures var gI := Find(s.groups, c.agent1);
            var s1 := ExecuteIn(st, s, true, gI, -1).1;
            var ids := GroupIds(s1.agents, s.groups, gI);
            var (next, threw) := Handle(st, s, c);
            && next.groups == s.groups
            && next.conflicts == Keep(s.conflicts, d => !Hits(d, ids)) + st.detect(next.agents, GroupAgents(next.agents, s.groups, gI)).conflicts
            && threw == st.detect(next.agents, GroupAgents(next.agents, s.groups, gI)).threw
  {
  }

  /**
   * A solvable conflict between two agents of one group is handled as if it had no second
   * operation (HandleReplans): the group is replanned on the original agents and the groups
   * kept; only a null reference during the detection is caught here, dropping the group's
   * conflicts once more, so no exception leaves the pass.
   */
  lemma HandleSameGroup(st: IDSetting, s: IDState, c: Conflict)
    requires Canonical(s.groups)
    requires c.AgentConflict? && c.solvable && c.operation2.Some?
    requires Find(s.groups, c.agent1) == Find(s.groups, c.agent2)
    ensures var gI := Find(s.groups, c.agent1);
            var (alone, threw) := Handle(st, s, c.(operation2 := None));
            && Handle(st, s, c) == (if threw then UpdateConflictsIn(alone, gI) else alone, false)
            && Handle(st, s, c).0.groups == s.groups
  {
    var gI := Find(s.groups, c.agent1);
    assert Find(s.groups, gI) == gI by {
      assert c.agent1 in s.groups ==> s.groups[c.agent1] in s.groups;
    }
  }

  /**
   * When the detection after a replan or a merge meets a null reference, the exception is
   * caught: the pass goes on, and of the conflicts known by then exactly those with no
   * party in the first agent's group are kept.
   */
  lemma HandleCaught(st: IDSetting, s: IDState, c: Conflict)
    requires c.AgentConflict? && c.solvable && c.operation2.Some?
    ensures var gI := Find(s.groups, c.agent1);
            var gJ := Find(s.groups, c.agent2);
            var s1 := if gI == gJ then ExecuteIn(st, s, true, gI, -1).1 else Merge(st, s, gI, gJ);
            var s2 := UpdateConflictsIn(s1, gI);
            var found := Find(s2.groups, gI);
            var (s3, threw) := FindConflictsIn(st, s2, found);
            var ids := GroupIds(s3.agents, s3.groups, found);
            var (next, escaped) := Handle(st, s, c);
            && !escaped
            && (threw ==> next.groups == s3.groups
                          && forall d :: d in next.conflicts <==> d in s3.conflicts && !Hits(d, ids))
            && (!threw ==> next == s3)
  {
    var gI := Find(s.groups, c.agent1);
    var gJ := Find(s.groups, c.agent2);
    var s1 := if gI == gJ then ExecuteIn(st, s, true, gI, -1).1 else Merge(st, s, gI, gJ);
    var s2 := UpdateConflictsIn(s1, gI);
    var found := Find(s2.groups, gI);
    var s3 := FindConflictsIn(st, s2, found).0;
    UpdateConflictsRule(s3.conflicts, s3.agents, GroupIds(s3.agents, s3.groups, found));
  }

  /** Passes of the loop keep the groups canonical and never split a group. */
  lemma {:induction false} FindPathsGroups(st: IDSetting, s: IDState, fuel: nat)
    requires Canonical(s.groups)
    ensures Canonical(FindPathsSpec(st, s, fuel).0.groups)
    ensures forall x, y :: Find(s.groups, x) == Find(s.groups, y) ==>
              Find(FindPathsSpec(st, s, fuel).0.groups, x) == Find(FindPathsSpec(st, s, fuel).0.groups, y)
    decreases fuel
  {
    if s.conflicts != [] && fuel != 0 {
      var (next, threw) := Handle(st, s, s.conflicts[0]);
      HandleGroups(st, s, s.conflicts[0]);
      if !threw {
        FindPathsGroups(st, next, fuel - 1);
      }
    }
  }

  /** search: every agent in a group of its own, and the conflicts among all agents appended to the list. */
  function StartState(st: IDSetting, agents: seq<Agent>, conflicts: seq<Conflict>): (r: (IDState, bool))
  {
    var f := st.detect(agents, agents);
    (IDState(agents, conflicts + f.conflicts, MakeSet(agents)), f.threw)
  }

  /**
   * The whole search: when the first detection does not throw, the loop runs from every
   * agent alone, ends with its groups in a canonical map, and resolves only with no
   * conflict left.
   */
  lemma SearchGroups(st: IDSetting, agents: seq<Agent>, conflicts: seq<Conflict>, fuel: nat)
    requires !StartState(st, agents, conflicts).1
    ensures var r := FindPathsSpec(st, StartState(st, agents, conflicts).0, fuel);
            && Canonical(r.0.groups)
            && (r.1 == Resolved ==> r.0.conflicts == [])
  {
    MakeSetCanonical(agents);
    FindPathsGroups(st, StartState(st, agents, conflicts).0, fuel);
    FindPathsEnds(st, StartState(st, agents, conflicts).0, fuel);
  }

  /** The search object: the agents, the conflict list and the groups it replans them in. */
  class IndependenceDetectionSearch {
    var agents: seq<Agent>
    var conflicts: seq<Conflict>
    var groups: Groups
    const oracles: IDSetting

    constructor(agents: seq<Agent>, oracles: IDSetting)
      ensures this.agents == agents && this.conflicts == [] && this.groups == map[]
      ensures this.oracles == oracles
    {
      this.agents := agents;
      this.conflicts := [];
      this.groups := map[];
      this.oracles := oracles;
    }

    /** The shared state as a value. */
    function State(): IDState
      reads this
    {
      IDState(agents, conflicts, groups)
    }

    /** execute, on the search's agents. */
    method Execute(update: bool, findGroup: AgentId, avoidGroup: AgentId) returns (accepted: bool)
      modifies this
      ensures (accepted, State()) == ExecuteIn(oracles, old(State()), update, findGroup, avoidGroup)
    {
      var result;
      accepted, result := ExecuteOn(oracles, agents, groups, update, findGroup, avoidGroup);
      agents := result;
    }

    /** updateConflicts, on the search's conflict list. */
    method UpdateConflicts(group: AgentId)
      modifies this
      ensures State() == UpdateConflictsIn(old(State()), group)
    {
      var remaining, result := UpdateConflictsLoop(conflicts, agents, GroupIds(agents, groups, group));
      conflicts, agents := remaining, result;
    }

    /** findConflicts for a group; whether the detection threw. */
    method FindConflicts(group: AgentId) returns (threw: bool)
      modifies this
      ensures (State(), threw) == FindConflictsIn(oracles, old(State()), group)
    {
      var f := oracles.detect(agents, GroupAgents(agents, groups, group));
      conflicts := conflicts + f.conflicts;
      threw := f.threw;
    }

    /** union of two groups. */
    method Union(i: AgentId, j: AgentId)
      modifies this
      ensures State() == UnionIn(oracles, old(State()), i, j)
    {
      groups := IDSearch.Union(groups, i, j, oracles.keepFirst(i, j));
    }

    /**
     * search: every agent alone in a group, the conflicts among all agents, and then the
     * loop; an exception from the first detection ends it at once.
     */
    method Search(fuel: nat) returns (outcome: Outcome)
      modifies this
      ensures var start := StartState(oracles, old(agents), old(conflicts));
              && (start.1 ==> outcome == Threw && State() == start.0)
              && (!start.1 ==> (State(), outcome) == FindPathsSpec(oracles, start.0, fuel))
    {
      groups := MakeSet(agents);
      var f := oracles.detect(agents, agents);
      conflicts := conflicts + f.conflicts;
      if f.threw {
        return Threw;
      }
      var id := new IndependenceDetection(this);
      outcome := id.FindPaths(fuel);
    }
  }

  /** The loop over the search's conflicts. */
  class IndependenceDetection {
    const search: IndependenceDetectionSearch

    constructor(search: IndependenceDetectionSearch)
      ensures this.search == search
    {
      this.search := search;
    }

    /** The two groups in conflict: replanned each around the other, or merged. */
    method MergeGroups(gI: AgentId, gJ: AgentId)
      modifies search
      ensures search.State() == Merge(search.oracles, old(search.State()), gI, gJ)
    {
      var firstOk := search.Execute(false, gI, gJ);
      if firstOk {
        search.Union(gI, gJ);
        return;
      }
      var secondOk := search.Execute(false, gJ, gI);
      if secondOk {
        search.Union(gI, gJ);
        return;
      }
      search.Union(gI, gJ);
      var merged := Find(search.groups, gJ);
      var _ := search.Execute(true, merged, -1);
    }

    /** One pass of the loop on a conflict; whether an exception escaped it. */
    method HandleConflict(c: Conflict) returns (threw: bool)
      modifies search
      ensures (search.State(), threw) == Handle(search.oracles, old(search.State()), c)
    {
      var gI := Find(search.groups, c.agent1);
      if !c.solvable {
        search.UpdateConflicts(gI);
        return false;
      }
      if c.operation2.None? {
        var _ := search.Execute(true, gI, -1);
        search.UpdateConflicts(gI);
        threw := search.FindConflicts(gI);
        return;
      }
      if c.ObstacleConflict? {
        return true;
      }
      var gJ := Find(search.groups, c.agent2);
      if gI == gJ {
        var _ := search.Execute(true, gI, -1);
      } else {
        MergeGroups(gI, gJ);
      }
      search.UpdateConflicts(gI);
      gI := Find(search.groups, gI);
      var caught := search.FindConflicts(gI);
      if caught {
        search.UpdateConflicts(gI);
      }
      threw := false;
    }

    /** findPaths: the conflict at the head of the list handled until none is left. */
    method FindPaths(fuel: nat) returns (outcome: Outcome)
      modifies search
      ensures (search.State(), outcome) == FindPathsSpec(search.oracles, old(search.State()), fuel)
    {
      var left := fuel;
      while search.conflicts != []
        invariant FindPathsSpec(search.oracles, search.State(), left) ==
                  FindPathsSpec(search.oracles, old(search.State()), fuel)
        decreases left
      {
        if left == 0 {
          return OutOfFuel;
        }
        var threw := HandleConflict(search.conflicts[0]);
        if threw {
          return Threw;
        }
        left := left - 1;
      }
      return Resolved;
    }
  }
}

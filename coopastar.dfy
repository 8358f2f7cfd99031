/**
 * Cooperative A* (CooperativeAStarSearch.java): the agents are taken in list order, and an
 * agent is replanned alone, around the moves already claimed on the map, only when it has a
 * conflict: one found before the search started, or one with a path already accepted. Each
 * path that is not skipped is claimed on the map and appended to the accepted paths.
 */
module CooperativeAStar {
  import opened Wrappers
  import opened Geometry
  import opened Conflicts
  import opened Seqs

  /** What the single-agent search gives: a path, no solution, or a timeout. */
  datatype Replan = Solved(path: Path) | NoSolution | TimedOut

  /**
   * The collaborators the search calls: conflict detection between two paths, the map
   * claiming every move of a path, and the single-agent search of one agent on the map.
   */
  datatype CoopSetting = CoopSetting(
    detect: (Path, Path) -> seq<Conflict>,
    claim: (ObstacleTable, Path) -> ObstacleTable,
    replan: (ObstacleTable, Agent) -> Replan)

  /** A conflict between two agents, as getType reports it. */
  predicate IsAgentConflict(c: Conflict)
  {
    c.Type() == AGENT
  }

  /** The agent conflicts of a conflict list, in order: the constructor's filter. */
  function AgentConflictsOf(cs: seq<Conflict>): (r: seq<Conflict>)
    ensures forall c :: c in r <==> c in cs && c.Type() == AGENT
    ensures |r| <= |cs|
  {
    KeepMembers(cs, IsAgentConflict);
    Keep(cs, IsAgentConflict)
  }

  /** The constructor's loop: each conflict of type AGENT is kept, in order. */
  method FilterAgentConflicts(cs: seq<Conflict>) returns (r: seq<Conflict>)
    ensures r == AgentConflictsOf(cs)
  {
    r := [];
    for i := 0 to |cs|
      invariant r == Keep(cs[..i], IsAgentConflict)
    {
      KeepSnoc(cs, i, IsAgentConflict);
      if cs[i].Type() == AGENT {
        r := r + [cs[i]];
      }
    }
    assert cs[..|cs|] == cs;
  }

  /** Utils.containsAgentConflicts: some conflict of the list involves the agent. */
  predicate Involved(conflicts: seq<Conflict>, id: AgentId)
  {
    exists c :: c in conflicts && c.Involves(id)
  }

  /**
   * conflictFound: true when a conflict found before the search involves the agent;
   * otherwise true exactly when the path of the first agent with the id conflicts with an
   * accepted path. None when there is no such agent and a path has to be checked, where
   * the Java code dereferences null.
   */
  function ConflictFound(st: CoopSetting, conflicts: seq<Conflict>, agents: seq<Agent>, accepted: seq<Path>,
                         id: AgentId): (r: Option<bool>)
  {
    if Involved(conflicts, id) then Some(true)
    else if accepted == [] then Some(false)
    else match AgentById(agents, id)
      case None => None
      case Some(a) => Some(exists j :: 0 <= j < |accepted| && st.detect(a.path, accepted[j]) != [])
  }

  /**
   * conflictFound fails exactly when the agent has no prior conflict, a path has to be
   * checked and no agent has the id; it finds no conflict exactly when the agent has no
   * prior conflict and its path conflicts with no accepted path.
   */
  lemma ConflictFoundRule(st: CoopSetting, conflicts: seq<Conflict>, agents: seq<Agent>, accepted: seq<Path>,
                          id: AgentId)
    ensures var r := ConflictFound(st, conflicts, agents, accepted, id);
            && (r.None? <==> !Involved(conflicts, id) && accepted != [] && AgentById(agents, id).None?)
            && (r == Some(false) <==>
                  && !Involved(conflicts, id)
                  && (accepted != [] ==> AgentById(agents, id).Some?)
                  && forall j :: 0 <= j < |accepted| ==> st.detect(AgentById(agents, id).value.path, accepted[j]) == [])
  {
  }

  /** The agent being visited is in the list, so conflictFound never fails for it. */
  lemma VisitedFound(st: CoopSetting, conflicts: seq<Conflict>, agents: seq<Agent>, accepted: seq<Path>, i: int)
    requires 0 <= i < |agents|
    ensures ConflictFound(st, conflicts, agents, accepted, agents[i].id).Some?
  {
    assert agents[i] in agents;
  }

  /** The state the search changes: the agents, the accepted paths and the map's claimed moves. */
  datatype Coop = Coop(agents: seq<Agent>, accepted: seq<Path>, obstacles: ObstacleTable)

  /** A path is claimed on the map and appended to the accepted paths. */
  function Accept(st: CoopSetting, c: Coop, p: Path): Coop
  {
    c.(accepted := c.accepted + [p], obstacles := st.claim(c.obstacles, p))
  }

  /** The visit of the agent at a place of the list: one turn of the search loop. */
  function Visit(st: CoopSetting, conflicts: seq<Conflict>, c: Coop, i: int): (r: Coop)
    requires 0 <= i < |c.agents|
    ensures |r.agents| == |c.agents|
  {
    var a := c.agents[i];
    VisitedFound(st, conflicts, c.agents, c.accepted, i);
    if !ConflictFound(st, conflicts, c.agents, c.accepted, a.id).value then Accept(st, c, a.path)
    else match st.replan(c.obstacles, a)
      case Solved(p) =>
        var q := p.(freeOfConflicts := true);
        Accept(st, c.(agents := c.agents[i := a.(path := q)]), q)
      case NoSolution => c.(agents := c.agents[i := a.(path := a.path.(freeOfConflicts := false))])
      case TimedOut => Accept(st, c, a.path)
  }

  /** Whether the visit of the agent at a place replans it, and the search finds no path. */
  predicate Skipped(st: CoopSetting, conflicts: seq<Conflict>, c: Coop, i: int)
    requires 0 <= i < |c.agents|
  {
    var a := c.agents[i];
    VisitedFound(st, conflicts, c.agents, c.accepted, i);
    ConflictFound(st, conflicts, c.agents, c.accepted, a.id).value && st.replan(c.obstacles, a).NoSolution?
  }

  /**
   * An agent without a conflict keeps its path; a replanned agent takes the path found,
   * flagged free of conflicts, or, when no path is found, keeps its path flagged not free;
   * a timeout keeps the path. Each path but a skipped one is claimed and accepted.
   */
  lemma VisitRule(st: CoopSetting, conflicts: seq<Conflict>, c: Coop, i: int)
    requires 0 <= i < |c.agents|
    ensures var r := Visit(st, conflicts, c, i);
            var a := c.agents[i];
            var found := ConflictFound(st, conflicts, c.agents, c.accepted, a.id);
            && found.Some?
            && (!found.value ==> r.agents[i] == a)
            && (found.value && st.replan(c.obstacles, a).Solved? ==>
                  r.agents[i] == a.(path := st.replan(c.obstacles, a).path.(freeOfConflicts := true)))
            && (found.value && st.replan(c.obstacles, a).NoSolution? ==>
                  r.agents[i] == a.(path := a.path.(freeOfConflicts := false)))
            && (found.value && st.replan(c.obstacles, a).TimedOut? ==> r.agents[i] == a)
            && (Skipped(st, conflicts, c, i) ==> r.accepted == c.accepted && r.obstacles == c.obstacles)
            && (!Skipped(st, conflicts, c, i) ==>
                  r.accepted == c.accepted + [r.agents[i].path]
                  && r.obstacles == st.claim(c.obstacles, r.agents[i].path))
            && (forall j :: 0 <= j < |c.agents| && j != i ==> r.agents[j] == c.agents[j])
  {
    assert c.agents[i] in c.agents;
  }

  /** The search over the first n agents of the list. */
  function SearchUpTo(st: CoopSetting, conflicts: seq<Conflict>, c: Coop, n: int): (r: Coop)
    requires 0 <= n <= |c.agents|
    ensures |r.agents| == |c.agents|
    decreases n
  {
    if n == 0 then c else Visit(st, conflicts, SearchUpTo(st, conflicts, c, n - 1), n - 1)
  }

  /** The search keeps every agent's id, and leaves the agents it has not reached as they were. */
  lemma {:induction false} SearchFrame(st: CoopSetting, conflicts: seq<Conflict>, c: Coop, n: int)
    requires 0 <= n <= |c.agents|
    ensures var r := SearchUpTo(st, conflicts, c, n);
            && (forall j :: 0 <= j < |c.agents| ==> r.agents[j].id == c.agents[j].id)
            && (forall j :: n <= j < |c.agents| ==> r.agents[j] == c.agents[j])
    decreases n
  {
    if n > 0 {
      SearchFrame(st, conflicts, c, n - 1);
      VisitRule(st, conflicts, SearchUpTo(st, conflicts, c, n - 1), n - 1);
    }
  }

  /** Whether the search skipped the agent at place j: checked when the loop reached it. */
  predicate SkippedAt(st: CoopSetting, conflicts: seq<Conflict>, c: Coop, j: int)
    requires 0 <= j < |c.agents|
  {
    Skipped(st, conflicts, SearchUpTo(st, conflicts, c, j), j)
  }

  /** The paths of the agents that were not skipped, in list order. */
  function KeptPaths(agents: seq<Agent>, skipped: seq<bool>): (r: seq<Path>)
    requires |skipped| <= |agents|
    ensures |r| <= |skipped|
    decreases |skipped|
  {
    if skipped == [] then []
    else
      var n := |skipped| - 1;
      KeptPaths(agents, skipped[..n]) + (if skipped[n] then [] else [agents[n].path])
  }

  /** The map's claimed moves after claiming each path in turn. */
  function Claimed(st: CoopSetting, obstacles: ObstacleTable, paths: seq<Path>): ObstacleTable
    decreases |paths|
  {
    if paths == [] then obstacles else st.claim(Claimed(st, obstacles, paths[..|paths| - 1]), paths[|paths| - 1])
  }

  /** The visits after an agent's own leave it as its visit left it. */
  lemma {:induction false} VisitedStays(st: CoopSetting, conflicts: seq<Conflict>, c: Coop, j: int, n: int)
    requires 0 <= j < n <= |c.agents|
    ensures SearchUpTo(st, conflicts, c, n).agents[j] == SearchUpTo(st, conflicts, c, j + 1).agents[j]
    decreases n
  {
    if n > j + 1 {
      VisitedStays(st, conflicts, c, j, n - 1);
      VisitRule(st, conflicts, SearchUpTo(st, conflicts, c, n - 1), n - 1);
    }
  }

  /** The skip flags of the first n agents, in list order. */
  function Skips(st: CoopSetting, conflicts: seq<Conflict>, c: Coop, n: int): (r: seq<bool>)
    requires 0 <= n <= |c.agents|
    ensures |r| == n && forall j :: 0 <= j < n ==> r[j] == SkippedAt(st, conflicts, c, j)
  {
    seq(n, j requires 0 <= j < n => SkippedAt(st, conflicts, c, j))
  }

  /**
   * After the first n agents, the accepted paths are the ones accepted before followed by
   * the final path of every agent that was not skipped, in list order, and exactly those
   * paths, in that order, were claimed on the map.
   */
  lemma {:induction false} SearchAccepts(st: CoopSetting, conflicts: seq<Conflict>, c: Coop, n: int)
    requires 0 <= n <= |c.agents|
    ensures var r := SearchUpTo(st, conflicts, c, n);
            && r.accepted == c.accepted + KeptPaths(r.agents, Skips(st, conflicts, c, n))
            && r.obstacles == Claimed(st, c.obstacles, KeptPaths(r.agents, Skips(st, conflicts, c, n)))
    decreases n
  {
    if n > 0 {
      var prev := SearchUpTo(st, conflicts, c, n - 1);
      SearchAccepts(st, conflicts, c, n - 1);
      VisitRule(st, conflicts, prev, n - 1);
      var skips := Skips(st, conflicts, c, n);
      assert skips[..n - 1] == Skips(st, conflicts, c, n - 1);
      AcceptsStep(st, c, prev, SearchUpTo(st, conflicts, c, n), skips);
    }
  }

  /** One visit extends the accepted paths and the claimed moves by the visited agent's path, unless it was skipped. */
  lemma AcceptsStep(st: CoopSetting, c: Coop, prev: Coop, r: Coop, skips: seq<bool>)
    requires 0 < |skips| <= |prev.agents| == |r.agents|
    requires forall j :: 0 <= j < |skips| - 1 ==> prev.agents[j] == r.agents[j]
    requires prev.accepted == c.accepted + KeptPaths(prev.agents, skips[..|skips| - 1])
    requires prev.obstacles == Claimed(st, c.obstacles, KeptPaths(prev.agents, skips[..|skips| - 1]))
    requires skips[|skips| - 1] ==> r.accepted == prev.accepted && r.obstacles == prev.obstacles
    requires !skips[|skips| - 1] ==>
               && r.accepted == prev.accepted + [r.agents[|skips| - 1].path]
               && r.obstacles == st.claim(prev.obstacles, r.agents[|skips| - 1].path)
    ensures r.accepted == c.accepted + KeptPaths(r.agents, skips)
    ensures r.obstacles == Claimed(st, c.obstacles, KeptPaths(r.agents, skips))
  {
    var n := |skips|;
    KeptPathsFrame(prev.agents, r.agents, skips[..n - 1]);
    var kept := KeptPaths(r.agents, skips[..n - 1]);
    if skips[n - 1] {
      assert KeptPaths(r.agents, skips) == kept + [];
      assert kept + [] == kept;
    } else {
      var p := r.agents[n - 1].path;
      assert KeptPaths(r.agents, skips) == kept + [p];
      assert (kept + [p])[..|kept|] == kept;
      assert Claimed(st, c.obstacles, kept + [p]) == st.claim(Claimed(st, c.obstacles, kept), p);
    }
  }

  /** The kept paths depend only on the agents the flags cover. */
  lemma {:induction false} KeptPathsFrame(a: seq<Agent>, b: seq<Agent>, skipped: seq<bool>)
    requires |skipped| <= |a| && |skipped| <= |b|
    requires forall j :: 0 <= j < |skipped| ==> a[j] == b[j]
    ensures KeptPaths(a, skipped) == KeptPaths(b, skipped)
    decreases |skipped|
  {
    if skipped != [] {
      KeptPathsFrame(a, b, skipped[..|skipped| - 1]);
    }
  }

  /**
   * The agent at place j ends the search as its own visit leaves it: unchanged when no
   * conflict was found for it or its search timed out, with the path found flagged free of
   * conflicts, or with its own path flagged not free when no path was found. The visit sees
   * the agent as it was at the start, and the accepted paths and claimed moves of the
   * agents before it.
   */
  lemma AgentOutcome(st: CoopSetting, conflicts: seq<Conflict>, c: Coop, j: int)
    requires 0 <= j < |c.agents|
    ensures var before := SearchUpTo(st, conflicts, c, j);
            var a := c.agents[j];
            var found := ConflictFound(st, conflicts, before.agents, before.accepted, a.id);
            var outcome := st.replan(before.obstacles, a);
            var last := SearchUpTo(st, conflicts, c, |c.agents|).agents[j];
            && found.Some?
            && (!found.value || outcome.TimedOut? ==> last == a)
            && (found.value && outcome.Solved? ==> last == a.(path := outcome.path.(freeOfConflicts := true)))
            && (found.value && outcome.NoSolution? ==> last == a.(path := a.path.(freeOfConflicts := false)))
  {
    var before := SearchUpTo(st, conflicts, c, j);
    SearchFrame(st, conflicts, c, j);
    assert before.agents[j] == c.agents[j];
    VisitRule(st, conflicts, before, j);
    VisitedStays(st, conflicts, c, j, |c.agents|);
  }

  /** conflictFound: the check of the prior conflicts, then the loop over the accepted paths. */
  method ConflictFoundLoop(st: CoopSetting, conflicts: seq<Conflict>, agents: seq<Agent>, accepted: seq<Path>,
                           id: AgentId) returns (found: Option<bool>)
    ensures found == ConflictFound(st, conflicts, agents, accepted, id)
  {
    if exists c :: c in conflicts && c.Involves(id) {
      return Some(true);
    }
    for j := 0 to |accepted|
      invariant AgentById(agents, id).Some? || j == 0
      invariant forall k :: 0 <= k < j ==> st.detect(AgentById(agents, id).value.path, accepted[k]) == []
    {
      var a := AgentById(agents, id);
      if a.None? {
        return None;
      }
      if st.detect(a.value.path, accepted[j]) != [] {
        return Some(true);
      }
    }
    return Some(false);
  }

  /** One turn of the search loop, on the search's state. */
  method VisitStep(st: CoopSetting, conflicts: seq<Conflict>, c: Coop, i: int) returns (r: Coop)
    requires 0 <= i < |c.agents|
    ensures r == Visit(st, conflicts, c, i)
  {
    var a := c.agents[i];
    assert a in c.agents;
    var found := ConflictFoundLoop(st, conflicts, c.agents, c.accepted, a.id);
    r := c;
    if found.value {
      var outcome := st.replan(c.obstacles, a);
      match outcome {
        case Solved(p) =>
          r := r.(agents := r.agents[i := a.(path := p.(freeOfConflicts := true))]);
        case NoSolution =>
          return r.(agents := r.agents[i := a.(path := a.path.(freeOfConflicts := false))]);
        case TimedOut =>
      }
    }
    r := r.(obstacles := st.claim(r.obstacles, r.agents[i].path), accepted := r.accepted + [r.agents[i].path]);
  }

  /** The loop of search over the agents, on the search's state. */
  method SearchLoop(st: CoopSetting, conflicts: seq<Conflict>, c: Coop) returns (r: Coop)
    ensures r == SearchUpTo(st, conflicts, c, |c.agents|)
  {
    r := c;
    for i := 0 to |c.agents|
      invariant r == SearchUpTo(st, conflicts, c, i)
    {
      r := VisitStep(st, conflicts, r, i);
    }
  }

  /** CooperativeAStarSearch: the search's agents, its conflicts and its accepted paths. */
  class CooperativeAStarSearch {
    var agents: seq<Agent>
    var conflicts: seq<Conflict>
    var accepted: seq<Path>
    /** The map's claimed moves. */
    var obstacles: ObstacleTable
    var noSolution: bool
    const oracles: CoopSetting

    /** The constructor keeps only the agent conflicts found before the search. */
    constructor (obstacles: ObstacleTable, agents: seq<Agent>, conflicts: seq<Conflict>, oracles: CoopSetting)
      ensures this.obstacles == obstacles && this.agents == agents && this.oracles == oracles
      ensures this.conflicts == AgentConflictsOf(conflicts)
      ensures accepted == [] && !noSolution
    {
      var kept := FilterAgentConflicts(conflicts);
      this.obstacles := obstacles;
      this.agents := agents;
      this.oracles := oracles;
      noSolution := false;
      accepted := [];
      this.conflicts := kept;
    }

    /**
     * search: each agent in list order is visited, so that the agents, the accepted paths
     * and the map end as the search over the whole list leaves them.
     */
    method Search()
      modifies this`agents, this`accepted, this`obstacles
      ensures Coop(agents, accepted, obstacles)
              == SearchUpTo(oracles, conflicts, Coop(old(agents), old(accepted), old(obstacles)), |old(agents)|)
    {
      var r := SearchLoop(oracles, conflicts, Coop(agents, accepted, obstacles));
      agents, accepted, obstacles := r.agents, r.accepted, r.obstacles;
    }
  }
}

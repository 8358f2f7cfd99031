/**
 * Conflicts found between planned paths (AlgorithmConflict, AgentConflict and
 * ObstacleConflict). The planners keep conflicts in queues and lists, so they work on
 * the immutable value `Conflict`; the class `AlgorithmConflict` models the record itself,
 * whose operations and solvable flag can be changed after construction.
 */
module Conflicts {
  import opened Wrappers
  import opened Geometry

  datatype ConflictType = AGENT | OBSTACLE

  /** The identity of an Operation (an agent's mission); None is a null reference. */
  type OperationId = int

  datatype Conflict =
    | AgentConflict(agent1: AgentId, agent2: AgentId, timestep: int,
                    location1: PathLine, location2: PathLine,
                    operation1: Option<OperationId>, operation2: Option<OperationId>,
                    solvable: bool)
    | ObstacleConflict(agent1: AgentId, operation1: Option<OperationId>,
                       operation2: Option<OperationId>, timestep: int,
                       location1: PathLine, solvable: bool)
  {
    /** getType: fixed by the kind of conflict. */
    function Type(): (t: ConflictType)
      ensures t == AGENT <==> AgentConflict?
    {
      if AgentConflict? then AGENT else OBSTACLE
    }

    /** getTimestep: the stored int widened to a double, so always a whole number. */
    function Timestep(): (t: real)
      ensures t.Floor == timestep
      ensures t == t.Floor as real
    {
      timestep as real
    }

    /** The agent is one of the conflict's parties. */
    predicate Involves(id: AgentId)
    {
      agent1 == id || (AgentConflict? && agent2 == id)
    }
  }

  /** A conflict between two agents; the ordering of conflict queues is defined on these. */
  type AgentConflictValue = c: Conflict | c.AgentConflict?
    witness AgentConflict(0, 0, 0, NoLine(), NoLine(), None, None, false)

  function NoLine(): PathLine
  {
    var p := Position(0.0, 0.0, 0.0, 0, 'A', 0.0, 0.0, 0.0, false);
    PathLine(p, p, 0)
  }

  /** The conflict record with its setters (AlgorithmConflict with its two subclasses). */
  class AlgorithmConflict {
    var agent1: AgentId
    var timestep: int
    var location1: PathLine
    var kind: ConflictType
    var operation1: Option<OperationId>
    var operation2: Option<OperationId>
    var solvable: bool
    /** The second party: present exactly for a record built as an AgentConflict. */
    var agent2: Option<AgentId>
    var location2: Option<PathLine>

    /** The record was built by one of the two subclass constructors. */
    predicate Shaped()
      reads this
    {
      (kind == AGENT) == agent2.Some? && agent2.Some? == location2.Some?
    }

    /** The record's current contents as a conflict value. */
    function Snapshot(): Conflict
      reads this
      requires Shaped()
    {
      if kind == AGENT then
        AgentConflict(agent1, agent2.value, timestep, location1, location2.value,
                      operation1, operation2, solvable)
      else
        ObstacleConflict(agent1, operation1, operation2, timestep, location1, solvable)
    }

    /** The base constructor: every argument is stored, there is no second party. */
    constructor (agent1: AgentId, timestep: int, location1: PathLine, kind: ConflictType,
                 operation1: Option<OperationId>, operation2: Option<OperationId>,
                 solvable: bool)
      ensures this.agent1 == agent1 && this.timestep == timestep
      ensures this.location1 == location1 && this.kind == kind
      ensures this.operation1 == operation1 && this.operation2 == operation2
      ensures this.solvable == solvable
      ensures agent2.None? && location2.None?
    {
      this.agent1 := agent1;
      this.timestep := timestep;
      this.kind := kind;
      this.location1 := location1;
      this.operation1 := operation1;
      this.operation2 := operation2;
      this.solvable := solvable;
      agent2 := None;
      location2 := None;
    }

    /** AgentConflict: the base fields with type AGENT, plus the second agent and its move. */
    constructor Agent(agent1: AgentId, agent2: AgentId, timestep: int,
                      location1: PathLine, location2: PathLine,
                      operation1: Option<OperationId>, operation2: Option<OperationId>,
                      solvable: bool)
      ensures Shaped()
      ensures Snapshot() == AgentConflict(agent1, agent2, timestep, location1, location2,
                                          operation1, operation2, solvable)
      ensures Snapshot().Type() == AGENT
    {
      this.agent1 := agent1;
      this.timestep := timestep;
      this.kind := AGENT;
      this.location1 := location1;
      this.operation1 := operation1;
      this.operation2 := operation2;
      this.solvable := solvable;
      this.agent2 := Some(agent2);
      this.location2 := Some(location2);
    }

    /** ObstacleConflict: its own argument order, type OBSTACLE, no second party. */
    constructor Obstacle(agent1: AgentId, operation1: Option<OperationId>,
                         operation2: Option<OperationId>, timestep: int,
                         location1: PathLine, solvable: bool)
      ensures Shaped()
      ensures Snapshot() == ObstacleConflict(agent1, operation1, operation2, timestep,
                                             location1, solvable)
      ensures Snapshot().Type() == OBSTACLE
    {
      this.agent1 := agent1;
      this.timestep := timestep;
      this.kind := OBSTACLE;
      this.location1 := location1;
      this.operation1 := operation1;
      this.operation2 := operation2;
      this.solvable := solvable;
      agent2 := None;
      location2 := None;
    }

    /** getTimestep returns the int timestep as a double. */
    function GetTimestep(): (t: real)
      reads this
      ensures t == timestep as real && t.Floor == timestep
    {
      timestep as real
    }

    method SetOperation1(operation: Option<OperationId>)
      modifies this
      ensures operation1 == operation
      ensures agent1 == old(agent1) && timestep == old(timestep) && kind == old(kind)
      ensures location1 == old(location1) && operation2 == old(operation2)
      ensures solvable == old(solvable) && agent2 == old(agent2) && location2 == old(location2)
    {
      operation1 := operation;
    }

    /** One field serves both the base class and AgentConflict's override. */
    method SetOperation2(operation: Option<OperationId>)
      modifies this
      ensures operation2 == operation
      ensures agent1 == old(agent1) && timestep == old(timestep) && kind == old(kind)
      ensures location1 == old(location1) && operation1 == old(operation1)
      ensures solvable == old(solvable) && agent2 == old(agent2) && location2 == old(location2)
    {
      operation2 := operation;
    }

    method SetSolvable(s: bool)
      modifies this
      ensures solvable == s
      ensures agent1 == old(agent1) && timestep == old(timestep) && kind == old(kind)
      ensures location1 == old(location1) && operation1 == old(operation1)
      ensures operation2 == old(operation2) && agent2 == old(agent2) && location2 == old(location2)
    {
      solvable := s;
    }
  }
}

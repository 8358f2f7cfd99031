/**
 * The collaborators the planners call but that are not part of this model: coordinates,
 * path lines, agents and their paths, and the map. Their data is modelled as values and
 * their behaviour as function-typed oracles.
 */
module Geometry {
  import opened Wrappers

  type AgentId = int

  /** Integer.MIN_VALUE and Integer.MAX_VALUE. */
  const INT_MIN: int := -0x8000_0000
  const INT_MAX: int := 0x7fff_ffff
  /** Float.MAX_VALUE, exactly. */
  const FLOAT_MAX: real := 340282346638528859811704183484516925440.0
  /** Double.MAX_VALUE, exactly. */
  const DOUBLE_MAX: real := 179769313486231570814527423731704356798070567525844996598917476803157260780028538760589558632766878171540458953514382464234321326889464182768467546703537516986049910576551282076245490090389328944075868508455133942304583236903222948165808559332123348274797826204144723168738177180919299881250404026184124858368.0

  /** Java's `(int)` cast of a double: rounds toward zero and saturates at the int range. */
  function JavaInt(r: real): (i: int)
    ensures INT_MIN <= i <= INT_MAX
    ensures INT_MIN as real <= r <= INT_MAX as real ==> -1.0 < r - i as real < 1.0
    ensures r >= 0.0 ==> 0 <= i && i as real <= r
    ensures r <= 0.0 ==> i <= 0 && r <= i as real
  {
    if r >= INT_MAX as real then INT_MAX
    else if r <= INT_MIN as real then INT_MIN
    else if r >= 0.0 then r.Floor
    else -((-r).Floor)
  }

  /** Java's int arithmetic: the result taken modulo 2^32 into the int range. */
  function Int32(i: int): (r: int)
    ensures INT_MIN <= r <= INT_MAX
    ensures INT_MIN <= i <= INT_MAX ==> r == i
    ensures (r - i) % 0x1_0000_0000 == 0
  {
    (i - INT_MIN) % 0x1_0000_0000 + INT_MIN
  }

  /**
   * The comparison `eta < m` against an int `m`, followed by `m = (int) eta` when it holds,
   * leaves `m` at the minimum of `m` and `(int) eta`: the cast never jumps over an int bound.
   */
  lemma {:induction false} CastMinStep(m: int, r: real)
    requires INT_MIN <= m <= INT_MAX
    ensures (if r < m as real then JavaInt(r) else m) == (if JavaInt(r) < m then JavaInt(r) else m)
  {
    if r < m as real {
      if r >= 0.0 {
        assert JavaInt(r) as real <= r;
      } else if r > INT_MIN as real {
        // (int) r is the ceiling of r here, and m is an int above r
        assert JavaInt(r) == -((-r).Floor);
        assert (-r).Floor as real > -r - 1.0;
        assert JavaInt(r) as real < r + 1.0;
        assert JavaInt(r) <= m;
      }
    } else {
      if r >= INT_MAX as real {
      } else if r >= 0.0 {
        assert m as real <= r;
        assert m <= r.Floor;
      } else {
        assert JavaInt(r) as real >= r;
      }
    }
  }

  /** A point of the UTM grid: coordinates, zone and latitude band. */
  datatype Place = Place(x: real, y: real, z: real, zone: int, band: char)

  /** An AgentPosition: a place together with its arrival time window and wait flag. */
  datatype Position = Position(x: real, y: real, z: real, zone: int, band: char,
                               eta: real, minEta: real, maxEta: real, isWait: bool)
  {
    /** The coordinates a position is compared by. */
    function At(): Place
    {
      Place(x, y, z, zone, band)
    }

    /** The voxel holding the position: each coordinate cast to int. */
    function Voxel(): (v: Place)
      ensures v.zone == zone && v.band == band
      ensures v.x == JavaInt(x) as real && v.y == JavaInt(y) as real && v.z == JavaInt(z) as real
    {
      Place(JavaInt(x) as real, JavaInt(y) as real, JavaInt(z) as real, zone, band)
    }

    /** True when the coordinates are already whole numbers inside the int range. */
    predicate OnGrid()
    {
      Voxel() == At()
    }
  }

  /** A straight move of an agent from one position to another. */
  datatype PathLine = PathLine(from: Position, to: Position, agent: AgentId)

  /** The path of one agent. */
  datatype Path = Path(owner: AgentId, waypoints: seq<Position>, startTimestep: real,
                       endTimestep: real, cost: real, freeOfConflicts: bool)

  /** An agent: its identity, its position in the agent list, its mission and its path. */
  datatype Agent = Agent(id: AgentId, index: int, start: Position, goal: Position,
                         speed: real, radius: real, path: Path, sharedTime: seq<AgentId>,
                         hasPath: bool)

  /** Time-indexed moves that other agents have already claimed. */
  type ObstacleTable = map<int, set<PathLine>>

  /** Records a claimed move at a timestep, creating the timestep's set when it is absent. */
  function AddObstacle(table: ObstacleTable, timestep: int, line: PathLine): (r: ObstacleTable)
    ensures r.Keys == table.Keys + {timestep}
    ensures line in r[timestep]
    ensures forall t :: t in table ==> table[t] <= r[t]
    ensures forall t :: t in r && t != timestep ==> r[t] == table[t]
    ensures timestep in table ==> r[timestep] == table[timestep] + {line}
    ensures timestep !in table ==> r[timestep] == {line}
  {
    if timestep in table then table[timestep := table[timestep] + {line}]
    else table[timestep := {line}]
  }

  /** Adding the same claimed move twice is the same as adding it once. */
  lemma AddObstacleIdempotent(table: ObstacleTable, timestep: int, line: PathLine)
    ensures AddObstacle(AddObstacle(table, timestep, line), timestep, line)
            == AddObstacle(table, timestep, line)
  {
    var once := AddObstacle(table, timestep, line);
    assert once[timestep] + {line} == once[timestep];
  }

  /** Every claimed move of `more` is added to `table` (Map.addAgentObstacles). */
  function MergeObstacles(table: ObstacleTable, more: ObstacleTable): (r: ObstacleTable)
    ensures r.Keys == table.Keys + more.Keys
    ensures forall t :: t in table ==> table[t] <= r[t]
    ensures forall t :: t in more ==> more[t] <= r[t]
  {
    map t | t in table.Keys + more.Keys ::
      (if t in table then table[t] else {}) + (if t in more then more[t] else {})
  }

  /**
   * The map as the planners see it. `isMoveValid` checks a move against static obstacles
   * and claimed moves, `inMap` checks a voxel against the map bounds, `distance` is the
   * 3D distance and `travelTime` the time needed to cover a distance at a speed.
   */
  datatype World = World(
    isMoveValid: (ObstacleTable, PathLine, Place) -> bool,
    inMap: (Position, Place, real) -> bool,
    distance: (Position, Position) -> real,
    travelTime: (real, real) -> real)

  /** What the planners rely on about distances: never negative, zero at the same place. */
  ghost predicate Metric(world: World)
  {
    forall p: Position, q: Position ::
      world.distance(p, q) >= 0.0 && (p.At() == q.At() ==> world.distance(p, q) == 0.0)
  }

  /** Utils.getAgentFromID: the first agent of the list with the id; None stands for null. */
  function AgentById(agents: seq<Agent>, id: AgentId): (r: Option<Agent>)
    ensures r.Some? ==> r.value in agents && r.value.id == id
    ensures r.None? <==> forall a :: a in agents ==> a.id != id
    decreases |agents|
  {
    if agents == [] then None
    else if agents[0].id == id then Some(agents[0])
    else AgentById(agents[1..], id)
  }

  /** AgentUtils.getPathIndexFromAgentId: the place of the first path the agent owns. */
  function PathIndex(paths: seq<Path>, id: AgentId): (r: Option<nat>)
    ensures r.Some? ==> r.value < |paths| && paths[r.value].owner == id
    ensures r.Some? ==> forall i :: 0 <= i < r.value ==> paths[i].owner != id
    ensures r.None? <==> forall i :: 0 <= i < |paths| ==> paths[i].owner != id
    decreases |paths|
  {
    if paths == [] then None
    else if paths[0].owner == id then Some(0)
    else match PathIndex(paths[1..], id)
      case None => None
      case Some(k) => Some(k + 1)
  }
}

/**
 * SMA* (SMAStarSearch.java, SMAStarState.java): A* under a cap on the nodes it keeps.
 * Each state carries a forgotten table of the states cut from under it and their f
 * values; after an expansion the worst open nodes are cut until at most ten remain, and
 * a node expanded before is expanded again from its forgotten states alone.
 *
 * A state is an object here: SState pairs an identity with its A* fields, and the search
 * holds every state's forgotten table under that identity, so that an update made through
 * one reference to the table is seen through every other.
 */
module SMAStar {
  import opened Wrappers
  import opened Geometry
  import opened Trees
  import opened Queues
  import opened Comparators
  import opened BestFirst
  import AStar

  /** The number of nodes SMA* keeps in memory. */
  const MAX_MEMORY: int := 10

  /** An SMAStarState object: its identity and its A* fields. */
  datatype SState = SState(ref: nat, value: AStar.AStarState)

  /** A search-tree node of SMA*: a state object and the node it was reached from. */
  datatype SNode = SNode(state: SState, parent: Option<SNode>)

  /** The key a state is found under in a hash table: its position. */
  function SKey(s: SState): Place
  {
    s.value.position.At()
  }

  /**
   * A forgotten table: for each key, the state object that holds it and the f value it
   * had when it was cut.
   */
  type Table = map<Place, (SState, real)>

  /** Each entry sits under the key of its own state. */
  ghost predicate WellKeyed(t: Table)
  {
    forall k :: k in t ==> SKey(t[k].0) == k
  }

  /** The forgotten table of a state object: the empty table it starts with until something is put in it. */
  function TableOf(tables: map<nat, Table>, ref: nat): Table
  {
    if ref in tables then tables[ref] else map[]
  }

  /**
   * HashMap.put of a state and its f: under an existing key the stored state object stays
   * and only f changes; otherwise the state is stored.
   */
  function Put(t: Table, s: SState, f: real): (r: Table)
    ensures SKey(s) in r && r[SKey(s)].1 == f
    ensures r.Keys == t.Keys + {SKey(s)}
    ensures forall k :: k in t && k != SKey(s) ==> r[k] == t[k]
    ensures WellKeyed(t) ==> WellKeyed(r)
  {
    var k := SKey(s);
    t[k := (if k in t then t[k].0 else s, f)]
  }

  /** getForgottenNodes: the states of the table, each once, in the table's iteration order. */
  method ForgottenNodes(t: Table) returns (nodes: seq<SState>)
    ensures |nodes| == |t.Keys|
    ensures forall k :: k in t ==> t[k].0 in nodes
    ensures forall s :: s in nodes ==> exists k :: k in t && t[k].0 == s
  {
    nodes := [];
    var left := t.Keys;
    while left != {}
      invariant left <= t.Keys
      invariant |nodes| + |left| == |t.Keys|
      invariant forall k :: k in t && k !in left ==> t[k].0 in nodes
      invariant forall s :: s in nodes ==> exists k :: k in t && t[k].0 == s
      decreases |left|
    {
      var k :| k in left;
      nodes := nodes + [t[k].0];
      left := left - {k};
    }
  }

  /** The open list's FValueComparator, on the nodes' states. */
  function NodeCompare(a: SNode, b: SNode): int
  {
    FValueCompare(a.state.value.costs, b.state.value.costs)
  }

  lemma NodeCompareIsOrder()
    ensures TotalPreorder(NodeCompare)
  {
    FValueCompareIsOrder();
    forall a, b, c | RanksBefore(NodeCompare, a, b) && RanksBefore(NodeCompare, b, c)
      ensures RanksBefore(NodeCompare, a, c)
    {
      assert RanksBefore(FValueCompare, a.state.value.costs, b.state.value.costs);
      assert RanksBefore(FValueCompare, b.state.value.costs, c.state.value.costs);
      assert RanksBefore(FValueCompare, a.state.value.costs, c.state.value.costs);
    }
    forall a, b ensures RanksBefore(NodeCompare, a, b) || RanksBefore(NodeCompare, b, a)
    {
      assert RanksBefore(FValueCompare, a.state.value.costs, b.state.value.costs)
             || RanksBefore(FValueCompare, b.state.value.costs, a.state.value.costs);
    }
  }

  // ---------------------------------------------------------------- the goal test

  /**
   * isGoalNode: the h of the goal state against the agent's speed; the node passed in
   * plays no part.
   */
  function IsGoalNode(st: AStar.Setting, current: SNode): bool
  {
    st.Goal().costs.h <= st.agent.speed
  }

  /**
   * The goal state is built without costs, so its h is -1: every node, the root
   * included, is the goal as soon as the agent's speed is at least -1.
   */
  lemma GoalTestIgnoresNode(st: AStar.Setting, a: SNode, b: SNode)
    ensures IsGoalNode(st, a) == IsGoalNode(st, b)
    ensures IsGoalNode(st, a) <==> st.agent.speed >= -1.0
  {
  }

  /**
   * updateGoal: the goal node's state is timed from its parent over the distance between
   * them. Without a parent this is a NullPointerException (None).
   */
  function GoalTimed(st: AStar.Setting, goal: SNode): (r: Option<SNode>)
    ensures r.Some? <==> goal.parent.Some?
    ensures r.Some? ==> r.value.parent == goal.parent && r.value.state.ref == goal.state.ref
                        && SKey(r.value.state) == SKey(goal.state)
                        && r.value.state.value.costs == goal.state.value.costs
    ensures r.Some? ==> var parent := goal.parent.value.state.value;
                        var t := parent.timestep
                                 + st.world.travelTime(st.world.distance(goal.state.value.position, parent.position),
                                                       st.agent.speed);
                        r.value.state.value.timestep == t && r.value.state.value.position.eta == t
  {
    if goal.parent.None? then None
    else
      var s := goal.state.value;
      var parent := goal.parent.value.state.value;
      var t := parent.timestep + st.world.travelTime(st.world.distance(s.position, parent.position), st.agent.speed);
      Some(goal.(state := goal.state.(value := s.(timestep := t, position := s.position.(eta := t)))))
  }

  // ---------------------------------------------------------------- processNeighbors

  /**
   * What processNeighbors first does to a neighbour's costs: the f stored in the forgotten
   * table is restored; a dead end that is not the goal gets an infinite f; any other
   * neighbour gets g from the best node plus the agent's speed, and h from the heuristic.
   */
  datatype Preset = Restored(f: real) | DeadEnd | Estimated(g: real, h: real)
  {
    /** The neighbour's costs after the preset (an infinite f is not a real number: it is left out). */
    function Apply(c: Costs): (r: Costs)
      ensures Restored? ==> r == c.WithF(f)
      ensures DeadEnd? ==> r == c
      ensures Estimated? ==> r == Costs(g, h, g + h)
    {
      match this
      case Restored(f) => c.WithF(f)
      case DeadEnd => c
      case Estimated(g, h) => c.WithG(g).WithH(h)
    }
  }

  /**
   * The node addNewNode makes of a neighbour: its g from computeAndUpdateGCost, its time
   * from the best node, its h from the heuristic (which brings f up to date), and the best
   * node as its parent. The state object is the neighbour's own.
   */
  function Child(st: AStar.Setting, best: SNode, neighbor: SState): (c: SNode)
    ensures c.parent == Some(best) && c.state.ref == neighbor.ref
    ensures SKey(c.state) == SKey(neighbor)
    ensures c.state.value.costs.Consistent()
    ensures c.state.value.costs.g
            == best.state.value.costs.g + AStar.GCost(st, neighbor.value, best.state.value).1
  {
    var (withG, step) := AStar.GCost(st, neighbor.value, best.state.value);
    var n := AStar.NewNode(st, AStar.ANode(best.state.value, None), withG, step);
    SNode(SState(neighbor.ref, n.state), Some(best))
  }

  /**
   * Whatever processNeighbors first did to a neighbour's costs is overwritten: g by
   * computeAndUpdateGCost, h and f by addNewNode. A restored f never reaches the open
   * list.
   */
  lemma {:induction false} ChildIgnoresPreset(st: AStar.Setting, best: SNode, neighbor: SState, preset: Preset)
    ensures Child(st, best, neighbor.(value := neighbor.value.(costs := preset.Apply(neighbor.value.costs))))
            == Child(st, best, neighbor)
  {
    var moved := neighbor.(value := neighbor.value.(costs := preset.Apply(neighbor.value.costs)));
    assert AStar.StateDistance(st, moved.value, best.state.value) == AStar.StateDistance(st, neighbor.value, best.state.value);
    var step := AStar.GCost(st, neighbor.value, best.state.value).1;
    var g := best.state.value.costs.g + step;
    var a := AStar.NewNode(st, AStar.ANode(best.state.value, None), AStar.GCost(st, moved.value, best.state.value).0, step);
    var b := AStar.NewNode(st, AStar.ANode(best.state.value, None), AStar.GCost(st, neighbor.value, best.state.value).0, step);
    assert a.state.costs.g == g == b.state.costs.g;
    assert a.state.position == b.state.position;
    assert a.state == b.state;
  }

  /** The nodes made of a list of neighbours, in order. */
  function Children(st: AStar.Setting, best: SNode, neighbors: seq<SState>): (r: seq<SNode>)
    ensures |r| == |neighbors|
    ensures forall i :: 0 <= i < |r| ==> r[i] == Child(st, best, neighbors[i])
  {
    seq(|neighbors|, i requires 0 <= i < |neighbors| => Child(st, best, neighbors[i]))
  }

  /** The keys of a list of states. */
  function Keys(states: seq<SState>): set<Place>
  {
    set s | s in states :: SKey(s)
  }

  /** One more neighbour adds its child at the end and its key to the keys. */
  lemma ChildrenSnoc(st: AStar.Setting, best: SNode, neighbors: seq<SState>, i: int)
    requires 0 <= i < |neighbors|
    ensures Children(st, best, neighbors[..i + 1]) == Children(st, best, neighbors[..i]) + [Child(st, best, neighbors[i])]
    ensures Keys(neighbors[..i + 1]) == Keys(neighbors[..i]) + {SKey(neighbors[i])}
  {
    assert neighbors[..i + 1] == neighbors[..i] + [neighbors[i]];
  }

  /**
   * _expanded.put(n, n) for each node in turn: every node is filed under its state's key,
   * a later node replacing whatever the key held before.
   */
  function PutAll(t: map<Place, SNode>, nodes: seq<SNode>): map<Place, SNode>
    decreases |nodes|
  {
    if nodes == [] then t
    else PutAll(t, nodes[..|nodes| - 1])[SKey(nodes[|nodes| - 1].state) := nodes[|nodes| - 1]]
  }

  /** The keys after the puts: the old ones and those of the nodes. */
  lemma {:induction false} PutAllKeys(t: map<Place, SNode>, nodes: seq<SNode>)
    ensures PutAll(t, nodes).Keys == t.Keys + (set n | n in nodes :: SKey(n.state))
    decreases |nodes|
  {
    if nodes != [] {
      var front := nodes[..|nodes| - 1];
      PutAllKeys(t, front);
      assert forall n :: n in nodes ==> n in front || n == nodes[|nodes| - 1];
    }
  }

  /** A key no node is filed under keeps its entry. */
  lemma {:induction false} PutAllKeeps(t: map<Place, SNode>, nodes: seq<SNode>, k: Place)
    requires k in t && forall n :: n in nodes ==> SKey(n.state) != k
    ensures k in PutAll(t, nodes) && PutAll(t, nodes)[k] == t[k]
    decreases |nodes|
  {
    if nodes != [] {
      PutAllKeeps(t, nodes[..|nodes| - 1], k);
    }
  }

  /** The entry under a node's key is a node of the list filed under its own key. */
  lemma {:induction false} PutAllFiled(t: map<Place, SNode>, nodes: seq<SNode>, c: SNode)
    requires c in nodes
    ensures SKey(c.state) in PutAll(t, nodes)
    ensures var e := PutAll(t, nodes)[SKey(c.state)]; e in nodes && SKey(e.state) == SKey(c.state)
    decreases |nodes|
  {
    var front := nodes[..|nodes| - 1];
    var last := nodes[|nodes| - 1];
    if SKey(last.state) != SKey(c.state) {
      assert c in front;
      PutAllFiled(t, front, c);
    }
  }

  /** A node with no later node under the same key is the entry under its key. */
  lemma {:induction false} PutAllLast(t: map<Place, SNode>, nodes: seq<SNode>, i: int)
    requires 0 <= i < |nodes|
    requires forall j :: i < j < |nodes| ==> SKey(nodes[j].state) != SKey(nodes[i].state)
    ensures SKey(nodes[i].state) in PutAll(t, nodes) && PutAll(t, nodes)[SKey(nodes[i].state)] == nodes[i]
    decreases |nodes|
  {
    if i < |nodes| - 1 {
      PutAllLast(t, nodes[..|nodes| - 1], i);
    }
  }

  /** Putting one more node files it after the others. */
  lemma PutAllSnoc(t: map<Place, SNode>, nodes: seq<SNode>, n: SNode)
    ensures PutAll(t, nodes + [n]) == PutAll(t, nodes)[SKey(n.state) := n]
  {
    assert (nodes + [n])[..|nodes|] == nodes;
  }

  /**
   * Once put, a node on the grid is found again by _expanded.containsValue: the node filed
   * under its key has a state that equals its own.
   */
  lemma PutAllFound(t: map<Place, SNode>, nodes: seq<SNode>)
    ensures forall c :: c in nodes && c.state.value.position.OnGrid() ==>
              exists n :: n in PutAll(t, nodes).Values && AStar.SameState(c.state.value, n.state.value)
  {
    var r := PutAll(t, nodes);
    forall c | c in nodes && c.state.value.position.OnGrid()
      ensures exists n :: n in r.Values && AStar.SameState(c.state.value, n.state.value)
    {
      PutAllFiled(t, nodes, c);
      var n := r[SKey(c.state)];
      assert n.state.value.position.Voxel() == c.state.value.position.Voxel();
      assert n in r.Values;
    }
  }

  /** The search keeps no node with two expansions of its own table. */
  function Fresh(states: seq<AStar.AStarState>, from: nat): (r: seq<SState>)
    ensures |r| == |states|
    ensures forall i :: 0 <= i < |r| ==> r[i] == SState(from + i, states[i])
  {
    seq(|states|, i requires 0 <= i < |states| => SState(from + i, states[i]))
  }

  // ---------------------------------------------------------------- cutWorst

  /** The search-tree depth of a node: the root has depth one. */
  function Depth(n: SNode): (d: nat)
    ensures d >= 1
    ensures n.parent.Some? ==> d == Depth(n.parent.value) + 1
  {
    if n.parent.None? then 1 else 1 + Depth(n.parent.value)
  }

  /** The sum of the depths of the nodes of a list: cutting a node and re-adding its parent lowers it. */
  ghost function Weight(q: multiset<SNode>): nat
    decreases |q|
  {
    if q == multiset{} then 0 else var n :| n in q; Depth(n) + Weight(q - multiset{n})
  }

  lemma {:induction false} WeightRemove(q: multiset<SNode>, x: SNode)
    requires x in q
    ensures Weight(q) == Depth(x) + Weight(q - multiset{x})
    decreases |q|
  {
    var y :| y in q && Weight(q) == Depth(y) + Weight(q - multiset{y});
    if y != x {
      assert x in q - multiset{y};
      assert y in q - multiset{x};
      WeightRemove(q - multiset{y}, x);
      WeightRemove(q - multiset{x}, y);
      assert q - multiset{y} - multiset{x} == q - multiset{x} - multiset{y};
    }
  }

  lemma WeightAdd(q: multiset<SNode>, x: SNode)
    ensures Weight(q + multiset{x}) == Depth(x) + Weight(q)
  {
    WeightRemove(q + multiset{x}, x);
    assert q + multiset{x} - multiset{x} == q;
  }

  /**
   * The open list holds a node equal to `n` (the nodes' states are compared, as
   * MinMaxPriorityQueue.contains does through Node.equals).
   */
  predicate Holds(q: multiset<SNode>, n: SNode)
  {
    exists x :: x in q && AStar.SameState(n.state.value, x.state.value)
  }

  /**
   * What cutWorst adds back once `worst` has left the open list: its parent, when the open
   * list holds nothing equal to it and it is not the best node's state.
   */
  function Readmitted(rest: multiset<SNode>, worst: SNode, best: SNode): (r: multiset<SNode>)
    ensures r == multiset{} || (worst.parent.Some? && r == multiset{worst.parent.value})
    ensures r != multiset{} <==> worst.parent.Some? && !Holds(rest, worst.parent.value)
                                 && !AStar.SameState(worst.parent.value.state.value, best.state.value)
  {
    if worst.parent.Some? && !Holds(rest, worst.parent.value)
       && !AStar.SameState(worst.parent.value.state.value, best.state.value)
    then multiset{worst.parent.value}
    else multiset{}
  }

  /** The forgotten tables once `worst` is cut: its parent's table records worst's f. */
  function Forget(tables: map<nat, Table>, worst: SNode): (r: map<nat, Table>)
    ensures worst.parent.None? ==> r == tables
    ensures worst.parent.Some? ==>
              var ref := worst.parent.value.state.ref;
              && ref in r && SKey(worst.state) in r[ref]
              && r[ref][SKey(worst.state)].1 == worst.state.value.costs.f
              && r == tables[ref := r[ref]]
              && r[ref].Keys == TableOf(tables, ref).Keys + {SKey(worst.state)}
    ensures forall other :: (worst.parent.None? || other != worst.parent.value.state.ref)
                            ==> TableOf(r, other) == TableOf(tables, other)
  {
    if worst.parent.None? then tables
    else
      var ref := worst.parent.value.state.ref;
      tables[ref := Put(TableOf(tables, ref), worst.state, worst.state.value.costs.f)]
  }

  /** Every table of a search files each state under its own key. */
  ghost predicate AllWellKeyed(tables: map<nat, Table>)
  {
    forall ref :: ref in tables ==> WellKeyed(tables[ref])
  }

  lemma ForgetWellKeyed(tables: map<nat, Table>, worst: SNode)
    requires AllWellKeyed(tables)
    ensures AllWellKeyed(Forget(tables, worst))
  {
    if worst.parent.Some? {
      var ref := worst.parent.value.state.ref;
      assert WellKeyed(TableOf(tables, ref));
      var t := Put(TableOf(tables, ref), worst.state, worst.state.value.costs.f);
      assert WellKeyed(t);
      assert Forget(tables, worst) == tables[ref := t];
    }
  }

  /** Each node of `cuts` has its key in its parent's forgotten table. */
  ghost predicate Recorded(cuts: seq<SNode>, tables: map<nat, Table>)
  {
    forall w :: w in cuts && w.parent.Some? ==> SKey(w.state) in TableOf(tables, w.parent.value.state.ref)
  }

  /** A cut records the node it cuts and forgets none of the earlier records. */
  lemma RecordedAfterCut(cuts: seq<SNode>, tables: map<nat, Table>, worst: SNode)
    requires Recorded(cuts, tables)
    ensures Recorded(cuts + [worst], Forget(tables, worst))
  {
    var after := Forget(tables, worst);
    forall w | w in cuts + [worst] && w.parent.Some?
      ensures SKey(w.state) in TableOf(after, w.parent.value.state.ref)
    {
      if w != worst {
        assert w in cuts;
        assert SKey(w.state) in TableOf(tables, w.parent.value.state.ref);
      }
    }
  }

  /** A cut lowers the weight of the open list: the node leaves, and its parent, one level up, may come back. */
  lemma CutLowersWeight(before: multiset<SNode>, worst: SNode, best: SNode)
    requires worst in before
    ensures var rest := before - multiset{worst};
            Weight(rest + Readmitted(rest, worst, best)) < Weight(before)
  {
    var rest := before - multiset{worst};
    WeightRemove(before, worst);
    if Readmitted(rest, worst, best) != multiset{} {
      WeightAdd(rest, worst.parent.value);
    } else {
      assert rest + Readmitted(rest, worst, best) == rest;
    }
  }

  /** Removing one more key from a table already stripped of some keys. */
  lemma RemoveOneMore(t: Table, gone: set<Place>, k: Place)
    ensures (if k in t - gone then (t - gone) - {k} else t - gone) == t - (gone + {k})
  {
  }

  /** Removing keys from a table of a search keeps every table well keyed. */
  lemma RemoveWellKeyed(tables: map<nat, Table>, ref: nat, gone: set<Place>)
    requires AllWellKeyed(tables)
    ensures AllWellKeyed(tables[ref := TableOf(tables, ref) - gone])
  {
    assert WellKeyed(TableOf(tables, ref));
  }

  /**
   * The costs processNeighbors gives a neighbour before computing its g: the f stored
   * under its key in the best state's forgotten table; else, for a neighbour with no
   * valid move out of it while the goal test fails, an infinite f; else g from the best
   * node plus the agent's speed and h from the heuristic.
   */
  method PresetFor(st: AStar.Setting, best: SNode, table: Table, neighbor: SState) returns (preset: Preset)
    ensures SKey(neighbor) in table ==> preset == Restored(table[SKey(neighbor)].1)
    ensures SKey(neighbor) !in table ==> !preset.Restored?
    ensures preset.DeadEnd? <==> SKey(neighbor) !in table && !IsGoalNode(st, best)
                                 && AStar.Expansion(st, neighbor.value) == []
  {
    if SKey(neighbor) in table {
      return Restored(table[SKey(neighbor)].1);
    }
    var further := AStar.Expand(st, neighbor.value);
    if !IsGoalNode(st, best) && further == [] {
      return DeadEnd;
    }
    return Estimated(best.state.value.costs.g + st.agent.speed,
                     st.heuristic(neighbor.value.position, st.Goal().position));
  }

  /**
   * The loop of processNeighbors over the neighbours: each neighbour found in the best
   * state's forgotten table leaves it, and each becomes a child of the best node, which
   * addNewNode puts in the expanded table.
   */
  method ProcessNeighborList(st: AStar.Setting, best: SNode, table: Table, expanded: map<Place, SNode>,
                             neighbors: seq<SState>)
    returns (children: seq<SNode>, left: Table, expanded': map<Place, SNode>)
    ensures children == Children(st, best, neighbors)
    ensures left == table - Keys(neighbors)
    ensures expanded' == PutAll(expanded, children)
  {
    children, left, expanded' := [], table, expanded;
    var i := 0;
    while i < |neighbors|
      invariant 0 <= i <= |neighbors|
      invariant children == Children(st, best, neighbors[..i])
      invariant left == table - Keys(neighbors[..i])
      invariant expanded' == PutAll(expanded, children)
    {
      var neighbor := neighbors[i];
      var preset := PresetFor(st, best, left, neighbor);
      RemoveOneMore(table, Keys(neighbors[..i]), SKey(neighbor));
      if SKey(neighbor) in left {
        left := left - {SKey(neighbor)};
      }
      var presetNeighbor := neighbor.(value := neighbor.value.(costs := preset.Apply(neighbor.value.costs)));
      ChildIgnoresPreset(st, best, neighbor, preset);
      var child := Child(st, best, presetNeighbor);
      PutAllSnoc(expanded, children, child);
      expanded' := expanded'[SKey(child.state) := child];
      children := children + [child];
      ChildrenSnoc(st, best, neighbors, i);
      i := i + 1;
    }
    assert neighbors[..|neighbors|] == neighbors;
  }

  // ---------------------------------------------------------------- the search

  class SMAStarSearch {
    var open: multiset<SNode>
    /** _expanded: every node expanded so far, by key; a node put again replaces the old one. */
    var expanded: map<Place, SNode>
    /** The forgotten table of every state object, by the object's identity. */
    var tables: map<nat, Table>
    var nodesInMemory: int
    var bestNode: Option<SNode>
    var numGenerated: int
    /** The identity the next state object made by an expansion receives. */
    var nextRef: nat

    const st: AStar.Setting
    const root: SNode

    /** The root has no parent, and every forgotten table files each state under its own key. */
    ghost predicate Valid()
      reads this
    {
      root.parent.None? && AllWellKeyed(tables)
    }

    constructor (st: AStar.Setting)
      ensures this.st == st && root == SNode(SState(0, AStar.StartState(st)), None)
      ensures open == multiset{} && expanded == map[] && tables == map[]
      ensures bestNode == None && nodesInMemory == 0 && numGenerated == 0 && nextRef == 1
      ensures Valid()
    {
      this.st := st;
      root := SNode(SState(0, AStar.StartState(st)), None);
      open, expanded, tables := multiset{}, map[], map[];
      bestNode := None;
      nodesInMemory, numGenerated := 0, 0;
      nextRef := 1;
    }

    /** The root goes on the open list, counts as generated, and is the one node in memory. */
    method SetInitialValues()
      modifies this`open, this`numGenerated, this`nodesInMemory
      ensures open == old(open) + multiset{root}
      ensures numGenerated == old(numGenerated) + 1
      ensures nodesInMemory == 1
    {
      open := open + multiset{root};
      numGenerated := numGenerated + 1;
      nodesInMemory := 1;
    }

    /** _expanded.containsValue(best): some expanded node's state equals best's. */
    predicate Revisited(best: SNode)
      reads this
    {
      exists n :: n in expanded.Values && AStar.SameState(best.state.value, n.state.value)
    }

    /**
     * cutWorst: the worst open node is removed; its parent's table records its f, and the
     * parent returns to the open list when the list holds nothing equal to it and it is
     * not the best node's state. The memory count becomes the size of the open list. On an
     * empty open list pollLast gives null and the dereference throws (None).
     */
    method CutWorst() returns (cut: Option<SNode>)
      requires bestNode.Some? && Valid()
      modifies this`open, this`tables, this`nodesInMemory
      ensures Valid()
      ensures old(open) == multiset{} <==> cut.None?
      ensures cut.None? ==> open == old(open) && tables == old(tables) && nodesInMemory == old(nodesInMemory)
      ensures cut.Some? ==>
                var worst := cut.value;
                var rest := old(open) - multiset{worst};
                && IsMax(worst, old(open), NodeCompare)
                && open == rest + Readmitted(rest, worst, bestNode.value)
                && tables == Forget(old(tables), worst)
                && nodesInMemory == |open|
    {
      if open == multiset{} {
        return None;
      }
      NodeCompareIsOrder();
      var worst, rest := PollLast(open, NodeCompare);
      open := rest;
      ForgetWellKeyed(tables, worst);
      tables := Forget(tables, worst);
      open := open + Readmitted(open, worst, bestNode.value);
      nodesInMemory := |open|;
      return Some(worst);
    }

    /**
     * processNeighbors: the best node is put in the expanded table, every neighbour found
     * in the best state's forgotten table leaves it, and every neighbour joins the open
     * list and the expanded table as a child of the best node.
     */
    method ProcessNeighbors(neighbors: seq<SState>)
      requires bestNode.Some? && Valid()
      modifies this`open, this`expanded, this`tables
      ensures Valid()
      ensures expanded == PutAll(old(expanded)[SKey(bestNode.value.state) := bestNode.value],
                                 Children(st, bestNode.value, neighbors))
      ensures forall c :: c in Children(st, bestNode.value, neighbors) && c.state.value.position.OnGrid()
                          ==> Revisited(c)
      ensures open == old(open) + multiset(Children(st, bestNode.value, neighbors))
      ensures tables == old(tables)[bestNode.value.state.ref :=
                                      TableOf(old(tables), bestNode.value.state.ref) - Keys(neighbors)]
    {
      var best := bestNode.value;
      var children, table;
      children, table, expanded :=
        ProcessNeighborList(st, best, TableOf(tables, best.state.ref), expanded[SKey(best.state) := best], neighbors);
      PutAllFound(old(expanded)[SKey(best.state) := best], children);
      open := open + multiset(children);
      RemoveWellKeyed(tables, best.state.ref, Keys(neighbors));
      tables := tables[best.state.ref := table];
    }

    /**
     * The neighbours expandNode works on: the forgotten states of a node expanded before,
     * otherwise the states expand makes, each a new object.
     */
    method Neighbors() returns (neighbors: seq<SState>)
      requires bestNode.Some? && Valid()
      modifies this`nextRef
      ensures Revisited(bestNode.value) ==>
                nextRef == old(nextRef)
                && |neighbors| == |TableOf(tables, bestNode.value.state.ref).Keys|
                && Keys(neighbors) == TableOf(tables, bestNode.value.state.ref).Keys
      ensures !Revisited(bestNode.value) ==>
                neighbors == Fresh(AStar.Expansion(st, bestNode.value.state.value), old(nextRef))
                && nextRef == old(nextRef) + |neighbors|
    {
      var best := bestNode.value;
      if Revisited(best) {
        var table := TableOf(tables, best.state.ref);
        neighbors := ForgottenNodes(table);
        forall k | k in table ensures k in Keys(neighbors) {
          assert table[k].0 in neighbors;
        }
        forall k | k in Keys(neighbors) ensures k in table {
          var s :| s in neighbors && SKey(s) == k;
          var k' :| k' in table && table[k'].0 == s;
        }
      } else {
        var states := AStar.Expand(st, best.state.value);
        neighbors := Fresh(states, nextRef);
        nextRef := nextRef + |states|;
      }
    }
    /**
     * The loop that closes expandNode: the worst node is cut while more than MAX_MEMORY
     * nodes are counted. The result is false when a cut meets an empty open list, which
     * throws. `cuts` lists the nodes cut, in order; the loop ends because each cut lowers
     * the weight of the open list.
     */
    method CutToCap() returns (ok: bool, ghost cuts: seq<SNode>)
      requires bestNode.Some? && Valid()
      modifies this`open, this`tables, this`nodesInMemory
      ensures Valid()
      ensures ok ==> nodesInMemory <= MAX_MEMORY
      ensures !ok ==> open == multiset{}
      ensures cuts != [] ==> nodesInMemory == |open|
      ensures cuts == [] ==> open == old(open) && tables == old(tables)
      ensures Recorded(cuts, tables)
    {
      ok, cuts := true, [];
      while nodesInMemory > MAX_MEMORY
        invariant Valid()
        invariant cuts != [] ==> nodesInMemory == |open|
        invariant cuts == [] ==> open == old(open) && tables == old(tables)
        invariant Recorded(cuts, tables)
        decreases Weight(open)
      {
        ghost var before := open;
        ghost var tablesBefore := tables;
        var cut := CutWorst();
        if cut.None? {
          return false, cuts;
        }
        CutLowersWeight(before, cut.value, bestNode.value);
        RecordedAfterCut(cuts, tablesBefore, cut.value);
        cuts := cuts + [cut.value];
      }
    }

    /**
     * expandNode: the neighbours are processed and counted (in int arithmetic), then the
     * worst nodes are cut down to the cap. The result is false when a cut meets an empty
     * open list, which throws. `neighbors` are the states processed: the forgotten states of
     * a node expanded before, otherwise the new states expand makes.
     */
    method ExpandNode() returns (ok: bool, ghost cuts: seq<SNode>, ghost neighbors: seq<SState>)
      requires bestNode.Some? && Valid()
      modifies this`open, this`expanded, this`tables, this`nodesInMemory, this`nextRef
      ensures Valid() && bestNode == old(bestNode)
      ensures old(Revisited(bestNode.value)) ==>
                Keys(neighbors) == TableOf(old(tables), bestNode.value.state.ref).Keys
      ensures !old(Revisited(bestNode.value)) ==>
                neighbors == Fresh(AStar.Expansion(st, bestNode.value.state.value), old(nextRef))
      ensures expanded == PutAll(old(expanded)[SKey(bestNode.value.state) := bestNode.value],
                                 Children(st, bestNode.value, neighbors))
      ensures ok ==> nodesInMemory <= MAX_MEMORY
      ensures !ok ==> open == multiset{}
      ensures cuts != [] ==> nodesInMemory == |open|
      ensures Recorded(cuts, tables)
    {
      ghost var revisited := Revisited(bestNode.value);
      ghost var table := TableOf(tables, bestNode.value.state.ref);
      var states := Neighbors();
      assert revisited ==> Keys(states) == table.Keys;
      assert !revisited ==> states == Fresh(AStar.Expansion(st, bestNode.value.state.value), old(nextRef));
      ProcessNeighbors(states);
      ghost var after := expanded;
      nodesInMemory := Int32(nodesInMemory + |states|);
      neighbors := states;
      ok, cuts := CutToCap();
      assert expanded == after;
    }

    /** getNextBestNode: the least node of the open list leaves it, becomes the best node and counts as generated. */
    method TakeBest() returns (best: SNode)
      requires open != multiset{}
      modifies this`open, this`bestNode, this`numGenerated
      ensures IsMin(best, old(open), NodeCompare)
      ensures open == old(open) - multiset{best} && bestNode == Some(best)
      ensures numGenerated == old(numGenerated) + 1
    {
      NodeCompareIsOrder();
      var rest;
      best, rest := Poll(open, NodeCompare);
      open, bestNode, numGenerated := rest, Some(best), numGenerated + 1;
    }

    /**
     * checkForGoalState and expandNode on the best node. When the goal test holds,
     * updateGoal times the node from its parent and the search ends, or throws when it has
     * no parent; otherwise the node is expanded (exploredNode does nothing, so no closed
     * list is kept). `neighbors` are the states the expansion processed.
     */
    method ExploreBest() returns (r: StepResult, ghost neighbors: seq<SState>)
      requires bestNode.Some? && Valid()
      modifies this`open, this`expanded, this`tables, this`nodesInMemory, this`nextRef, this`bestNode
      ensures Valid()
      ensures IsGoalNode(st, old(bestNode.value)) ==>
                open == old(open) && expanded == old(expanded)
                && (old(bestNode.value).parent.None? ==> r == Thrown)
                && (old(bestNode.value).parent.Some? ==> r == GoalReached && bestNode == GoalTimed(st, old(bestNode.value)))
      ensures !IsGoalNode(st, old(bestNode.value)) ==>
                r != GoalReached && bestNode == old(bestNode)
                && (old(Revisited(bestNode.value)) ==>
                      Keys(neighbors) == TableOf(old(tables), bestNode.value.state.ref).Keys)
                && (!old(Revisited(bestNode.value)) ==>
                      neighbors == Fresh(AStar.Expansion(st, bestNode.value.state.value), old(nextRef)))
                && expanded == PutAll(old(expanded)[SKey(bestNode.value.state) := bestNode.value],
                                      Children(st, bestNode.value, neighbors))
                && (r == Continued ==> nodesInMemory <= MAX_MEMORY)
                && (r == Thrown ==> open == multiset{})
    {
      var best := bestNode.value;
      if IsGoalNode(st, best) {
        var timed := GoalTimed(st, best);
        if timed.None? {
          return Thrown, [];
        }
        bestNode := timed;
        return GoalReached, [];
      }
      var ok;
      ghost var cuts;
      ok, cuts, neighbors := ExpandNode();
      r := if ok then Continued else Thrown;
    }

    /**
     * getBestNodeAndExpand with SMA*'s hooks: the least node is taken and explored.
     * `polled` is the node taken and `neighbors` the states its expansion processed. From an
     * open list holding only the root, the goal test holds whenever the agent's speed is at
     * least -1, and the root has no parent.
     */
    method GetBestNodeAndExpand() returns (r: StepResult, ghost polled: SNode, ghost neighbors: seq<SState>)
      requires open != multiset{} && Valid()
      modifies this`open, this`expanded, this`tables, this`nodesInMemory, this`nextRef
      modifies this`bestNode, this`numGenerated
      ensures Valid()
      ensures IsMin(polled, old(open), NodeCompare)
      ensures numGenerated == old(numGenerated) + 1
      ensures IsGoalNode(st, polled) ==>
                open == old(open) - multiset{polled} && expanded == old(expanded)
                && (polled.parent.None? ==> r == Thrown)
                && (polled.parent.Some? ==> r == GoalReached && bestNode == GoalTimed(st, polled))
      ensures !IsGoalNode(st, polled) ==>
                r != GoalReached && bestNode == Some(polled)
                && (old(Revisited(polled)) ==> Keys(neighbors) == TableOf(old(tables), polled.state.ref).Keys)
                && (!old(Revisited(polled)) ==> neighbors == Fresh(AStar.Expansion(st, polled.state.value), old(nextRef)))
                && expanded == PutAll(old(expanded)[SKey(polled.state) := polled], Children(st, polled, neighbors))
                && (r == Continued ==> nodesInMemory <= MAX_MEMORY)
                && (r == Thrown ==> open == multiset{})
      ensures old(open) == multiset{root} && IsGoalNode(st, root) ==> r == Thrown
    {
      polled := TakeBest();
      r, neighbors := ExploreBest();
    }
  }
}

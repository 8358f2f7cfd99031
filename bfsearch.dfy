/**
 * The best-first engine shared by every planner (BFSearch.java): an open list ordered by
 * a comparator, a closed list, an optional focal list with its lower bound, and the
 * counters. What differs between planners (the goal test, the validity check, which
 * nodes are closed, how a node is expanded) is supplied as `Hooks`.
 */
module BestFirst {
  import opened Wrappers
  import opened Queues

  /** isGoalNode's outcomes: a goal, not a goal, or a thrown SolutionNotFoundException. */
  datatype Verdict = Goal | NotGoal | Fails

  /**
   * The planner-specific parts of the engine.
   * - cmp, focalCmp: the orderings of the open and focal lists
   * - key: the identity the closed list compares nodes by
   * - same: Node.equals, which a queue's remove(node) compares elements by
   * - lowerBound: getLowerBound of a node's state
   * - isGoal: isGoalNode, given the focal list as it stands after the node was taken
   *   (Focal A* scans it); valid: checkBestNodeValidity(false), false when it throws
   * - closes: whether exploredNode adds the node to the closed list
   * - expand: expandNode, giving the children to add to the open list and the planner's
   *   own tables after the expansion
   * - onGoal, onNoSolution: returnFromGoalState and updateNoSolution, giving the
   *   planner's tables afterwards and whether they completed without throwing
   */
  datatype Hooks<!N, !K, !V> = Hooks(
    cmp: (N, N) -> int,
    focalCmp: (N, N) -> int,
    key: N -> K,
    same: (N, N) -> bool,
    lowerBound: N -> real,
    isGoal: (N, multiset<N>) -> Verdict,
    valid: N -> bool,
    closes: N -> bool,
    expand: (N, set<K>, V) -> (seq<N>, V),
    onGoal: (N, V) -> (V, bool),
    onNoSolution: (N, V) -> (V, bool))

  ghost predicate Ordered<N(!new), K, V>(hooks: Hooks<N, K, V>)
  {
    TotalPreorder(hooks.cmp) && TotalPreorder(hooks.focalCmp)
  }

  /** What getBestNodeAndExpand ends with: the goal, an expansion, or an exception. */
  datatype StepResult = GoalReached | Continued | Thrown

  /** How a search loop ends. */
  datatype Outcome<N> =
    | Solved(node: N)   // the goal test accepted `node`
    | Exhausted         // the list ran empty: SolutionNotFoundException
    | Threw             // a validity check threw SolutionNotFoundException
    | Stopped           // the shutdown flag was seen

  /** What findPath ends with. */
  datatype FindPathResult =
    | Returned(timeout: bool)   // findPath returned, true on a timeout
    | NullBestNode              // the best node was null when it was to be timed out
    | NoSolutionThrew           // updateNoSolution threw on the calling thread

  /** The children whose lower bound is within weight times the focal bound (otherNodeUpdates). */
  function Admitted<N>(children: seq<N>, lowerBoundOf: N -> real, weight: real, bound: real): (r: seq<N>)
    ensures forall n :: n in r ==> n in children && lowerBoundOf(n) <= weight * bound
    ensures forall n :: n in children && lowerBoundOf(n) <= weight * bound ==> n in r
    ensures |r| <= |children|
  {
    if children == [] then []
    else
      var rest := Admitted(children[1..], lowerBoundOf, weight, bound);
      if lowerBoundOf(children[0]) <= weight * bound then [children[0]] + rest else rest
  }

  /** A node whose bound lies in the band that a rise of the focal bound opens up. */
  predicate InBand<N>(n: N, lowerBoundOf: N -> real, weight: real, oldBound: real, newBound: real)
  {
    lowerBoundOf(n) <= weight * newBound && lowerBoundOf(n) > weight * oldBound
  }

  /** The open nodes in the band that the focal list does not hold yet. */
  function Newcomers<N>(focal: multiset<N>, open: multiset<N>, lowerBoundOf: N -> real,
                        weight: real, oldBound: real, newBound: real): set<N>
  {
    set n | n in open && InBand(n, lowerBoundOf, weight, oldBound, newBound) && n !in focal
  }

  /**
   * Which element a queue's remove(x) takes out: one that x equals (the first in the
   * queue's iteration order, which is not modelled), or none when x equals no element.
   */
  predicate RemovalChoice<N>(ms: multiset<N>, x: N, same: (N, N) -> bool, victim: Option<N>)
  {
    match victim
    case Some(e) => e in ms && same(x, e)
    case None => forall e :: e in ms ==> !same(x, e)
  }

  /** The multiset after the removal of the chosen element, if any. */
  function Removed<N>(ms: multiset<N>, victim: Option<N>): multiset<N>
  {
    if victim.Some? then ms - multiset{victim.value} else ms
  }

  /** Under an equality that is identity, remove(x) takes out one occurrence of x itself. */
  lemma RemovalByIdentity<N>(ms: multiset<N>, x: N, same: (N, N) -> bool, victim: Option<N>)
    requires forall a, b :: same(a, b) <==> a == b
    requires RemovalChoice(ms, x, same, victim)
    ensures Removed(ms, victim) == ms - multiset{x}
  {
    assert same(x, x);
  }

  /**
   * A turn of the focal refresh is a node and the element that its remove took out of the
   * focal list; the focal list after the turns, in order, each removing and then adding.
   */
  function Replay<N>(focal: multiset<N>, turns: seq<(N, Option<N>)>): multiset<N>
    decreases |turns|
  {
    if turns == [] then focal
    else
      var last := turns[|turns| - 1];
      Removed(Replay(focal, turns[..|turns| - 1]), last.1) + multiset{last.0}
  }

  /** Every turn's removal is one that remove can make on the focal list as it then stands. */
  ghost predicate ValidTurns<N>(focal: multiset<N>, turns: seq<(N, Option<N>)>, same: (N, N) -> bool)
    decreases |turns|
  {
    turns == []
    || (&& ValidTurns(focal, turns[..|turns| - 1], same)
        && RemovalChoice(Replay(focal, turns[..|turns| - 1]), turns[|turns| - 1].0, same, turns[|turns| - 1].1))
  }

  /** The nodes of the turns, in order. */
  function TurnNodes<N>(turns: seq<(N, Option<N>)>): (r: seq<N>)
    ensures |r| == |turns| && forall i :: 0 <= i < |turns| ==> r[i] == turns[i].0
  {
    seq(|turns|, i requires 0 <= i < |turns| => turns[i].0)
  }

  /** The nodes of the turns are those of all but the last turn, and the last turn's. */
  lemma TurnNodesLast<N>(turns: seq<(N, Option<N>)>)
    requires turns != []
    ensures forall m :: m in TurnNodes(turns) <==> m in TurnNodes(turns[..|turns| - 1]) || m == turns[|turns| - 1].0
  {
    var prefix := turns[..|turns| - 1];
    forall m | m in TurnNodes(prefix)
      ensures m in TurnNodes(turns)
    {
      var i :| 0 <= i < |prefix| && TurnNodes(prefix)[i] == m;
      assert TurnNodes(turns)[i] == m;
    }
    forall m | m in TurnNodes(turns)
      ensures m in TurnNodes(prefix) || m == turns[|turns| - 1].0
    {
      var i :| 0 <= i < |turns| && TurnNodes(turns)[i] == m;
      if i < |prefix| {
        assert TurnNodes(prefix)[i] == m;
      }
    }
  }

  /** One more turn: a removal remove can make, then the node joins. */
  lemma ReplayStep<N>(focal: multiset<N>, turns: seq<(N, Option<N>)>, same: (N, N) -> bool, n: N, victim: Option<N>)
    requires ValidTurns(focal, turns, same) && RemovalChoice(Replay(focal, turns), n, same, victim)
    ensures ValidTurns(focal, turns + [(n, victim)], same)
    ensures Replay(focal, turns + [(n, victim)]) == Removed(Replay(focal, turns), victim) + multiset{n}
    ensures multiset(TurnNodes(turns + [(n, victim)])) == multiset(TurnNodes(turns)) + multiset{n}
  {
    assert (turns + [(n, victim)])[..|turns|] == turns;
    assert TurnNodes(turns + [(n, victim)]) == TurnNodes(turns) + [n];
  }

  /** The band nodes visited, with the band nodes still to visit, are the band part of the open list. */
  ghost predicate Visiting<N(!new)>(turns: seq<(N, Option<N>)>, rest: multiset<N>, open: multiset<N>,
                                    lowerBoundOf: N -> real, weight: real, oldBound: real, newBound: real)
  {
    forall n :: multiset(TurnNodes(turns))[n]
                + (if InBand(n, lowerBoundOf, weight, oldBound, newBound) then rest[n] else 0)
                == if InBand(n, lowerBoundOf, weight, oldBound, newBound) then open[n] else 0
  }

  /** The turns visit each occurrence of an open node in the band once, in some order. */
  ghost predicate BandTurns<N(!new)>(turns: seq<(N, Option<N>)>, open: multiset<N>, lowerBoundOf: N -> real,
                                     weight: real, oldBound: real, newBound: real)
  {
    forall n :: multiset(TurnNodes(turns))[n]
                == if InBand(n, lowerBoundOf, weight, oldBound, newBound) then open[n] else 0
  }

  /** Taking a node off the nodes still to visit: a band node becomes a turn, any other is passed over. */
  lemma VisitingStep<N(!new)>(turns: seq<(N, Option<N>)>, turns': seq<(N, Option<N>)>, rest: multiset<N>, n: N,
                              open: multiset<N>, lowerBoundOf: N -> real, weight: real, oldBound: real, newBound: real)
    requires Visiting(turns, rest, open, lowerBoundOf, weight, oldBound, newBound) && n in rest
    requires multiset(TurnNodes(turns')) == multiset(TurnNodes(turns))
                                           + if InBand(n, lowerBoundOf, weight, oldBound, newBound)
                                             then multiset{n} else multiset{}
    ensures Visiting(turns', rest - multiset{n}, open, lowerBoundOf, weight, oldBound, newBound)
  {
  }

  /**
   * The focal refresh of searchFocal: for every open node in the band, the focal list
   * loses an element the node equals, if it holds one, and gains the node.
   */
  method RefreshFocal<N(!new)>(focal: multiset<N>, open: multiset<N>, same: (N, N) -> bool, lowerBoundOf: N -> real,
                               weight: real, oldBound: real, newBound: real)
    returns (r: multiset<N>, ghost turns: seq<(N, Option<N>)>)
    ensures ValidTurns(focal, turns, same) && r == Replay(focal, turns)
    ensures BandTurns(turns, open, lowerBoundOf, weight, oldBound, newBound)
    ensures forall n :: n in r ==> n in focal || (n in open && InBand(n, lowerBoundOf, weight, oldBound, newBound))
  {
    r, turns := focal, [];
    var rest := open;
    while rest != multiset{}
      invariant ValidTurns(focal, turns, same) && r == Replay(focal, turns)
      invariant Visiting(turns, rest, open, lowerBoundOf, weight, oldBound, newBound)
      decreases |rest|
    {
      var n :| n in rest;
      ghost var before := turns;
      if InBand(n, lowerBoundOf, weight, oldBound, newBound) {
        var victim := None;
        if exists e :: e in r && same(n, e) {
          var e :| e in r && same(n, e);
          victim := Some(e);
        }
        ReplayStep(focal, turns, same, n, victim);
        r := Removed(r, victim) + multiset{n};
        turns := turns + [(n, victim)];
      }
      VisitingStep(before, turns, rest, n, open, lowerBoundOf, weight, oldBound, newBound);
      rest := rest - multiset{n};
    }
    ReplaySources(focal, turns);
    forall n | n in r && n !in focal
      ensures n in open && InBand(n, lowerBoundOf, weight, oldBound, newBound)
    {
      assert multiset(TurnNodes(turns))[n] > 0;
    }
  }

  /** The refresh adds no node that was neither in the focal list nor visited. */
  lemma {:induction false} ReplaySources<N>(focal: multiset<N>, turns: seq<(N, Option<N>)>)
    ensures forall n :: n in Replay(focal, turns) ==> n in focal || n in TurnNodes(turns)
    ensures |focal| <= |Replay(focal, turns)| <= |focal| + |turns|
    decreases |turns|
  {
    if turns != [] {
      var prefix := turns[..|turns| - 1];
      ReplaySources(focal, prefix);
      assert forall n :: n in TurnNodes(prefix) ==> n in TurnNodes(turns);
    }
  }

  /** A visited node is in the focal list at the end, unless a later turn's remove took it out. */
  lemma {:induction false} ReplayKeepsVisited<N>(focal: multiset<N>, turns: seq<(N, Option<N>)>, i: nat)
    requires i < |turns|
    ensures turns[i].0 in Replay(focal, turns) || exists j :: i < j < |turns| && turns[j].1 == Some(turns[i].0)
    decreases |turns|
  {
    var k := |turns| - 1;
    var x := turns[i].0;
    if i == k {
      assert x in multiset{turns[k].0};
    } else if turns[k].1 == Some(x) {
      assert i < k < |turns| && turns[k].1 == Some(x);
    } else {
      var prefix := turns[..k];
      var acc := Replay(focal, prefix);
      assert Replay(focal, turns) == Removed(acc, turns[k].1) + multiset{turns[k].0};
      ReplayKeepsVisited(focal, prefix, i);
      assert prefix[i].0 == x;
      if x in acc {
        assert Removed(acc, turns[k].1)[x] == acc[x];
      } else {
        var j :| i < j < |prefix| && prefix[j].1 == Some(x);
        assert i < j < |turns| && turns[j].1 == Some(x);
      }
    }
  }

  /** A focal element that no visited node equals is never taken out. */
  lemma {:induction false} ReplayKeepsUnequal<N>(focal: multiset<N>, turns: seq<(N, Option<N>)>, same: (N, N) -> bool,
                                                 e: N)
    requires ValidTurns(focal, turns, same)
    requires forall i :: 0 <= i < |turns| ==> !same(turns[i].0, e)
    ensures Replay(focal, turns)[e] >= focal[e]
    decreases |turns|
  {
    if turns != [] {
      var k := |turns| - 1;
      var prefix := turns[..k];
      assert forall i :: 0 <= i < |prefix| ==> prefix[i] == turns[i];
      ReplayKeepsUnequal(focal, prefix, same, e);
      assert !same(turns[k].0, e);
      assert turns[k].1 != Some(e);
    }
  }

  /**
   * Under an equality that is identity, the refresh leaves each focal element as often as
   * it was and adds each visited node it did not hold once, however often it was visited.
   */
  lemma {:induction false} RefreshByIdentity<N>(focal: multiset<N>, turns: seq<(N, Option<N>)>,
                                                same: (N, N) -> bool, m: N)
    requires forall a, b :: same(a, b) <==> a == b
    requires ValidTurns(focal, turns, same)
    ensures Replay(focal, turns)[m] == if m in focal then focal[m] else if m in TurnNodes(turns) then 1 else 0
    decreases |turns|
  {
    if turns != [] {
      var k := |turns| - 1;
      var prefix := turns[..k];
      var n := turns[k].0;
      var acc := Replay(focal, prefix);
      RefreshByIdentity(focal, prefix, same, m);
      RefreshByIdentity(focal, prefix, same, n);
      RemovalByIdentity(acc, n, same, turns[k].1);
      TurnNodesLast(turns);
      assert Replay(focal, turns)[m] == (acc - multiset{n})[m] + multiset{n}[m];
    }
  }

  /**
   * Under an equality that is identity, the refresh over the open nodes in the band gives
   * the focal list plus one occurrence of each band node it did not hold yet.
   */
  lemma RefreshNewcomers<N(!new)>(focal: multiset<N>, open: multiset<N>, turns: seq<(N, Option<N>)>, same: (N, N) -> bool,
                            lowerBoundOf: N -> real, weight: real, oldBound: real, newBound: real)
    requires forall a, b :: same(a, b) <==> a == b
    requires ValidTurns(focal, turns, same) && BandTurns(turns, open, lowerBoundOf, weight, oldBound, newBound)
    ensures Replay(focal, turns) == focal + multiset(Newcomers(focal, open, lowerBoundOf, weight, oldBound, newBound))
  {
    var added := Newcomers(focal, open, lowerBoundOf, weight, oldBound, newBound);
    forall n
      ensures Replay(focal, turns)[n] == (focal + multiset(added))[n]
    {
      RefreshByIdentity(focal, turns, same, n);
      assert n in TurnNodes(turns) <==> multiset(TurnNodes(turns))[n] > 0;
    }
  }

  /** The lists and tables an engine step works on. */
  datatype Lists<N, K, V> = Lists(open: multiset<N>, closed: set<K>, focal: multiset<N>, tables: V)

  /**
   * getNextBestNode's removals: the chosen node leaves the focal list in a focal search;
   * `victim` is what leaves the open list (the polled node itself, or in a focal search
   * an element the chosen node equals).
   */
  function Taken<N, K, V>(focalSearch: bool, best: N, victim: Option<N>, lists: Lists<N, K, V>): Lists<N, K, V>
  {
    if focalSearch then lists.(focal := lists.focal - multiset{best}, open := Removed(lists.open, victim))
    else lists.(open := Removed(lists.open, victim))
  }

  /**
   * What happens to a polled node: the goal test first (checkForGoalState, which on a
   * goal runs returnFromGoalState; an exception there ends the search as thrown); otherwise
   * exploredNode (the validity check, then the closed list unless the planner keeps the
   * node open) and expandNode (its children join the open list and, in a focal search,
   * those within weight times the focal bound join the focal list too).
   */
  function Explore<N, K, V>(hooks: Hooks<N, K, V>, focalSearch: bool, weight: real, bound: real,
                            best: N, lists: Lists<N, K, V>): (r: (StepResult, Lists<N, K, V>))
    ensures r.0 == GoalReached <==> hooks.isGoal(best, lists.focal) == Goal && hooks.onGoal(best, lists.tables).1
    ensures r.0 == Thrown <==> (|| hooks.isGoal(best, lists.focal).Fails?
                                || (hooks.isGoal(best, lists.focal) == Goal && !hooks.onGoal(best, lists.tables).1)
                                || (hooks.isGoal(best, lists.focal).NotGoal? && !hooks.valid(best)))
    ensures r.0 == Continued ==> hooks.isGoal(best, lists.focal) == NotGoal && hooks.valid(best)
    ensures r.0 != Continued ==> r.1.open == lists.open && r.1.closed == lists.closed && r.1.focal == lists.focal
    ensures r.0 != Continued ==> r.1.tables == if hooks.isGoal(best, lists.focal) == Goal
                                               then hooks.onGoal(best, lists.tables).0 else lists.tables
  {
    var verdict := hooks.isGoal(best, lists.focal);
    if verdict == Goal then
      var done := hooks.onGoal(best, lists.tables);
      (if done.1 then GoalReached else Thrown, lists.(tables := done.0))
    else if verdict == Fails then (Thrown, lists)
    else if !hooks.valid(best) then (Thrown, lists)
    else
      var closed := if hooks.closes(best) then lists.closed + {hooks.key(best)} else lists.closed;
      var expansion := hooks.expand(best, closed, lists.tables);
      var focal := if focalSearch
                   then lists.focal + multiset(Admitted(expansion.0, hooks.lowerBound, weight, bound))
                   else lists.focal;
      (Continued, Lists(lists.open + multiset(expansion.0), closed, focal, expansion.1))
  }
  /**
   * What a step does to the lists: the closed list gains at most the explored node's key,
   * and only when the node is closed after a failed goal test; the open list gains the
   * children; the focal list gains only children within weight times the focal bound,
   * and only in a focal search.
   */
  lemma ExploreLists<N, K, V>(hooks: Hooks<N, K, V>, focalSearch: bool, weight: real, bound: real,
                              best: N, lists: Lists<N, K, V>)
    ensures var r := Explore(hooks, focalSearch, weight, bound, best, lists);
            && lists.closed <= r.1.closed
            && r.1.closed - lists.closed <= {hooks.key(best)}
            && (r.1.closed != lists.closed ==> r.0 == Continued && hooks.closes(best))
            && (r.0 == Continued ==> (hooks.key(best) in r.1.closed <==> hooks.key(best) in lists.closed || hooks.closes(best)))
            && (r.0 == Continued ==>
                  r.1.open == lists.open + multiset(hooks.expand(best, r.1.closed, lists.tables).0))
            && (!focalSearch ==> r.1.focal == lists.focal)
            && (forall n :: n in r.1.focal && n !in lists.focal ==> hooks.lowerBound(n) <= weight * bound)
  {
  }

  /**
   * getNextBestNode on the lists: a least node of the open list, polled from it; or, in a
   * focal search, a least node of the focal list, polled from it, whose remove from the
   * open list takes out an element it equals.
   */
  method PollBest<N(!new)>(focalSearch: bool, open: multiset<N>, focal: multiset<N>,
                           cmp: (N, N) -> int, focalCmp: (N, N) -> int, same: (N, N) -> bool)
    returns (best: N, ghost victim: Option<N>, open': multiset<N>, focal': multiset<N>)
    requires TotalPreorder(cmp) && TotalPreorder(focalCmp)
    requires if focalSearch then focal != multiset{} else open != multiset{}
    ensures focalSearch ==> IsMin(best, focal, focalCmp) && RemovalChoice(open, best, same, victim)
    ensures !focalSearch ==> IsMin(best, open, cmp) && victim == Some(best)
    ensures open' == Removed(open, victim)
    ensures focal' == if focalSearch then focal - multiset{best} else focal
  {
    if focalSearch {
      best, focal' := Poll(focal, focalCmp);
      open', victim := open, None;
      if exists e :: e in open && same(best, e) {
        var e :| e in open && same(best, e);
        open', victim := open - multiset{e}, Some(e);
      }
    } else {
      best, open' := Poll(open, cmp);
      focal', victim := focal, Some(best);
    }
  }
}

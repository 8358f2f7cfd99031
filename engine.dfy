/**
 * The best-first engine itself (BFSearch.java): the open, closed and focal lists, the
 * focal bound and the counters, updated in place by each step of the search loops.
 */
module Engine {
  import opened Wrappers
  import opened Queues
  import opened BestFirst

  class BFSearch<N(==,!new), K(==), V> {
    var open: multiset<N>
    var closed: set<K>
    var focal: multiset<N>
    var lowerBound: real
    var numExpanded: int
    var numGenerated: int
    var bestNode: Option<N>
    /** The timeout flag of the best node (setTimeout on it). */
    var bestTimedOut: bool
    var noSolution: bool
    /** The planner's own tables, such as A*'s table of expanded nodes. */
    var tables: V
    /** Every node polled so far, in order. */
    ghost var polled: seq<N>
    /** Every polled node that failed the goal test, passed the validity check and was expanded. */
    ghost var explored: seq<N>

    const root: N
    const hooks: Hooks<N, K, V>
    /** getNextBestNode takes from the focal list (Focal A* and ECBS). */
    const focalSearch: bool
    const weight: real
    /** The tables a reset installs (A*'s reset makes a new, empty table of expanded nodes). */
    const emptyTables: V

    constructor (root: N, hooks: Hooks<N, K, V>, emptyTables: V, focalSearch: bool, weight: real)
      ensures this.root == root && this.hooks == hooks && this.emptyTables == emptyTables
      ensures tables == emptyTables
      ensures this.focalSearch == focalSearch && this.weight == weight
      ensures open == multiset{} && closed == {} && focal == multiset{}
      ensures bestNode == None && !bestTimedOut && !noSolution && polled == []
      ensures numExpanded == 0 && numGenerated == 0
    {
      this.root := root;
      this.hooks := hooks;
      this.emptyTables := emptyTables;
      tables := emptyTables;
      this.focalSearch := focalSearch;
      this.weight := weight;
      open, closed, focal := multiset{}, {}, multiset{};
      lowerBound := 0.0;
      numExpanded, numGenerated := 0, 0;
      bestNode := None;
      bestTimedOut, noSolution := false, false;
      polled := [];
      explored := [];
    }

    /**
     * Fresh open and closed lists, fresh planner tables and zero counters; the focal list
     * is left as it is.
     */
    method Reset()
      modifies this
      ensures open == multiset{} && closed == {} && numExpanded == 0 && numGenerated == 0
      ensures tables == emptyTables
      ensures focal == old(focal) && lowerBound == old(lowerBound)
      ensures bestNode == old(bestNode) && bestTimedOut == old(bestTimedOut)
      ensures noSolution == old(noSolution) && polled == old(polled) && explored == old(explored)
    {
      open, closed := multiset{}, {};
      tables := emptyTables;
      numExpanded, numGenerated := 0, 0;
    }

    /** Only the root goes on the open list, and it counts as generated. */
    method SetInitialValues()
      modifies this
      ensures open == old(open) + multiset{root}
      ensures numGenerated == old(numGenerated) + 1
      ensures closed == old(closed) && focal == old(focal) && lowerBound == old(lowerBound)
      ensures numExpanded == old(numExpanded) && tables == old(tables)
      ensures bestNode == old(bestNode) && bestTimedOut == old(bestTimedOut)
      ensures noSolution == old(noSolution) && polled == old(polled) && explored == old(explored)
    {
      open := open + multiset{root};
      numGenerated := numGenerated + 1;
    }

    /**
     * getNextBestNode and the bookkeeping around it: the least node of the open list, or of
     * the focal list with an element it equals dropped from the open list, is removed,
     * becomes the best node, and counts as generated.
     */
    method TakeBest() returns (best: N, ghost victim: Option<N>)
      requires Ordered(hooks)
      requires if focalSearch then focal != multiset{} else open != multiset{}
      modifies this`open, this`focal, this`bestNode, this`polled, this`numGenerated
      ensures bestNode == Some(best) && polled == old(polled) + [best]
      ensures focalSearch ==> IsMin(best, old(focal), hooks.focalCmp) && RemovalChoice(old(open), best, hooks.same, victim)
      ensures !focalSearch ==> IsMin(best, old(open), hooks.cmp) && victim == Some(best)
      ensures open == Removed(old(open), victim)
      ensures focal == if focalSearch then old(focal) - multiset{best} else old(focal)
      ensures numGenerated == old(numGenerated) + 1
    {
      var rest, restFocal;
      best, victim, rest, restFocal := PollBest(focalSearch, open, focal, hooks.cmp, hooks.focalCmp, hooks.same);
      open, focal, bestNode, polled, numGenerated := rest, restFocal, Some(best), polled + [best], numGenerated + 1;
    }

    /**
     * getBestNodeAndExpand: take the best node (from the focal list in a focal search,
     * also dropping an element it equals from the open list), count it as generated, then
     * explore it. numExpanded is never changed.
     */
    method GetBestNodeAndExpand() returns (r: StepResult, ghost victim: Option<N>)
      requires Ordered(hooks)
      requires if focalSearch then focal != multiset{} else open != multiset{}
      modifies this`open, this`closed, this`focal, this`tables
      modifies this`bestNode, this`polled, this`numGenerated
      ensures bestNode.Some? && polled == old(polled) + [bestNode.value]
      ensures focalSearch ==> IsMin(bestNode.value, old(focal), hooks.focalCmp)
                              && RemovalChoice(old(open), bestNode.value, hooks.same, victim)
      ensures !focalSearch ==> IsMin(bestNode.value, old(open), hooks.cmp) && victim == Some(bestNode.value)
      ensures numGenerated == old(numGenerated) + 1
      ensures old(closed) <= closed && closed - old(closed) <= {hooks.key(bestNode.value)}
      ensures closed != old(closed) ==> r == Continued && hooks.closes(bestNode.value)
      ensures (r, Lists(open, closed, focal, tables))
              == Explore(hooks, focalSearch, weight, lowerBound, bestNode.value,
                         Taken(focalSearch, bestNode.value, victim,
                               Lists(old(open), old(closed), old(focal), old(tables))))
    {
      ghost var before := Lists(open, closed, focal, tables);
      var best;
      best, victim := TakeBest();
      ghost var taken := Lists(open, closed, focal, tables);
      assert taken.open == Removed(before.open, victim);
      assert taken == Taken(focalSearch, best, victim, before);
      r := ExploreBest();
    }

    /** checkForGoalState, exploredNode and expandNode on the best node. */
    method ExploreBest() returns (r: StepResult)
      requires bestNode.Some?
      modifies this`open, this`closed, this`focal, this`tables
      ensures (r, Lists(open, closed, focal, tables))
              == Explore(hooks, focalSearch, weight, lowerBound, bestNode.value,
                         Lists(old(open), old(closed), old(focal), old(tables)))
      ensures old(closed) <= closed && closed - old(closed) <= {hooks.key(bestNode.value)}
      ensures closed != old(closed) ==> r == Continued && hooks.closes(bestNode.value)
    {
      ExploreLists(hooks, focalSearch, weight, lowerBound, bestNode.value,
                   Lists(open, closed, focal, tables));
      var explored := Explore(hooks, focalSearch, weight, lowerBound, bestNode.value,
                              Lists(open, closed, focal, tables));
      r := explored.0;
      open, closed, focal, tables := explored.1.open, explored.1.closed, explored.1.focal, explored.1.tables;
    }

    /**
     * search: repeat getBestNodeAndExpand while the open list has nodes. The shutdown
     * flag is read after each step; `budget` is the number of steps after which it is
     * found set.
     */
    method Search(budget: nat) returns (outcome: Outcome<N>)
      requires Ordered(hooks) && !focalSearch
      modifies this
      ensures numExpanded == old(numExpanded)
      ensures numGenerated == old(numGenerated) + |polled| - |old(polled)|
      ensures |polled| - |old(polled)| <= budget
      ensures old(closed) <= closed && lowerBound == old(lowerBound)
      ensures outcome.Solved? ==> bestNode == Some(outcome.node) && hooks.isGoal(outcome.node, focal) == Goal
      ensures outcome.Solved? ==> exists t :: tables == hooks.onGoal(outcome.node, t).0 && hooks.onGoal(outcome.node, t).1
      ensures outcome == Exhausted ==> open == multiset{}
      ensures outcome == Stopped ==> |polled| - |old(polled)| == budget
      ensures outcome == Threw ==> bestNode.Some? && !(hooks.isGoal(bestNode.value, focal) == NotGoal
                                                     && hooks.valid(bestNode.value))
      ensures forall k :: k in closed && k !in old(closed) ==>
                exists i :: |old(explored)| <= i < |explored| && hooks.key(explored[i]) == k
                            && hooks.closes(explored[i])
    {
      ghost var start := |polled|;
      ghost var startExplored := |explored|;
      var steps := 0;
      while open != multiset{}
        invariant steps == |polled| - start && steps <= budget
        invariant |old(polled)| == start && |old(explored)| == startExplored
        invariant startExplored <= |explored| && explored[..startExplored] == old(explored)
        invariant numExpanded == old(numExpanded) && numGenerated == old(numGenerated) + steps
        invariant old(closed) <= closed && lowerBound == old(lowerBound)
        invariant forall k :: k in closed && k !in old(closed) ==>
                    exists i :: startExplored <= i < |explored| && hooks.key(explored[i]) == k
                                && hooks.closes(explored[i])
        decreases budget - steps
      {
        if steps == budget {
          return Stopped;
        }
        ghost var closedBefore := closed;
        ghost var exploredBefore := explored;
        ghost var tablesBefore := tables;
        var r := SearchStep();
        steps := steps + 1;
        forall k | k in closed && k !in old(closed)
          ensures exists i :: startExplored <= i < |explored| && hooks.key(explored[i]) == k
                              && hooks.closes(explored[i])
        {
          if k in closedBefore {
            var i :| startExplored <= i < |exploredBefore| && hooks.key(exploredBefore[i]) == k
                     && hooks.closes(exploredBefore[i]);
            assert explored[i] == exploredBefore[i];
          } else {
            assert explored[|explored| - 1] == bestNode.value;
          }
        }
        if r == GoalReached {
          assert hooks.onGoal(bestNode.value, tablesBefore).1;
          return Solved(bestNode.value);
        } else if r == Thrown {
          return Threw;
        }
        if steps == budget {
          return Stopped;
        }
      }
      return Exhausted;
    }

    /** One step of search: getBestNodeAndExpand, recording the node when it is expanded. */
    method SearchStep() returns (r: StepResult)
      requires Ordered(hooks) && !focalSearch && open != multiset{}
      modifies this`open, this`closed, this`focal, this`tables
      modifies this`bestNode, this`polled, this`numGenerated, this`explored
      ensures bestNode.Some? && polled == old(polled) + [bestNode.value]
      ensures numGenerated == old(numGenerated) + 1
      ensures explored == old(explored) + if r == Continued then [bestNode.value] else []
      ensures old(closed) <= closed
      ensures forall k :: k in closed && k !in old(closed) ==>
                r == Continued && k == hooks.key(bestNode.value) && hooks.closes(bestNode.value)
      ensures r == GoalReached ==> && hooks.isGoal(bestNode.value, focal) == Goal
                                   && tables == hooks.onGoal(bestNode.value, old(tables)).0
                                   && hooks.onGoal(bestNode.value, old(tables)).1
      ensures r == Thrown ==> !(hooks.isGoal(bestNode.value, focal) == NotGoal && hooks.valid(bestNode.value))
    {
      ghost var victim;
      r, victim := GetBestNodeAndExpand();
      if r == Continued {
        explored := explored + [bestNode.value];
      }
    }

    /**
     * searchFocal: the root goes on the focal list and its bound becomes the focal bound.
     * After each step, when the head of the open list has a higher bound than the focal
     * bound, the open nodes in the band between the two weighted bounds join the focal
     * list and the bound rises to the head's. The bound never falls.
     */
    method SearchFocal(budget: nat) returns (outcome: Outcome<N>)
      requires Ordered(hooks) && focalSearch
      modifies this
      ensures numExpanded == old(numExpanded)
      ensures numGenerated == old(numGenerated) + |polled| - |old(polled)|
      ensures |polled| - |old(polled)| <= budget
      ensures lowerBound >= hooks.lowerBound(root)
      ensures outcome.Solved? ==> bestNode == Some(outcome.node) && hooks.isGoal(outcome.node, focal) == Goal
      ensures outcome.Solved? ==> exists t :: tables == hooks.onGoal(outcome.node, t).0 && hooks.onGoal(outcome.node, t).1
      ensures outcome == Exhausted ==> focal == multiset{}
      ensures outcome == Stopped ==> |polled| - |old(polled)| == budget
    {
      ghost var start := |polled|;
      focal := focal + multiset{root};
      lowerBound := hooks.lowerBound(root);
      var steps := 0;
      while focal != multiset{}
        invariant steps == |polled| - start && steps <= budget
        invariant |old(polled)| == start
        invariant numExpanded == old(numExpanded) && numGenerated == old(numGenerated) + steps
        invariant lowerBound >= hooks.lowerBound(root)
        decreases budget - steps
      {
        if steps == budget {
          return Stopped;
        }
        ghost var tablesBefore := tables;
        var r, _ := GetBestNodeAndExpand();
        steps := steps + 1;
        if r == GoalReached {
          assert tables == hooks.onGoal(bestNode.value, tablesBefore).0 && hooks.onGoal(bestNode.value, tablesBefore).1;
          return Solved(bestNode.value);
        } else if r == Thrown {
          return Threw;
        }
        if steps == budget {
          return Stopped;
        }
        ghost var turns := RaiseFocalBound();
      }
      return Exhausted;
    }

    /**
     * The refresh after each step of searchFocal: when the head of the open list has a
     * higher bound than the focal bound, each open node in the band between the two
     * weighted bounds replaces an element it equals in the focal list, or joins it, and the
     * bound rises to the head's.
     */
    method RaiseFocalBound() returns (ghost turns: seq<(N, Option<N>)>)
      requires Ordered(hooks)
      modifies this`focal, this`lowerBound
      ensures lowerBound >= old(lowerBound)
      ensures open == multiset{} ==> focal == old(focal) && lowerBound == old(lowerBound)
      ensures open != multiset{} ==>
                exists head :: IsMin(head, open, hooks.cmp)
                  && if hooks.lowerBound(head) > old(lowerBound) then
                       && ValidTurns(old(focal), turns, hooks.same) && focal == Replay(old(focal), turns)
                       && BandTurns(turns, open, hooks.lowerBound, weight, old(lowerBound), hooks.lowerBound(head))
                       && lowerBound == hooks.lowerBound(head)
                     else focal == old(focal) && lowerBound == old(lowerBound)
    {
      turns := [];
      if open != multiset{} {
        MinExists(open, hooks.cmp);
        var head :| IsMin(head, open, hooks.cmp);
        var headBound := hooks.lowerBound(head);
        if headBound > lowerBound {
          focal, turns := RefreshFocal(focal, open, hooks.same, hooks.lowerBound, weight, lowerBound, headBound);
          lowerBound := headBound;
        }
      }
    }

    /**
     * findPath. A negative time limit marks the search as failed, times out the best node
     * at once (a NullPointerException when no node has been polled yet) and runs
     * updateNoSolution. Otherwise the lists are reset, the root is placed, and the search
     * runs (`searched` is how it ends): a goal has run returnFromGoalState; an exception
     * marks the search as failed; reaching the deadline times out the best node and runs
     * updateNoSolution, whose exception leaves findPath.
     */
    method FindPath(timeLimit: int, budget: nat) returns (result: FindPathResult, ghost searched: Option<Outcome<N>>)
      requires Ordered(hooks)
      modifies this
      ensures searched.None? <==> timeLimit < 0
      ensures timeLimit < 0 ==> noSolution
                                && (result == NullBestNode <==> old(bestNode).None?)
                                && open == old(open) && closed == old(closed)
      ensures timeLimit < 0 && old(bestNode).Some? ==>
                var (after, completed) := hooks.onNoSolution(old(bestNode).value, old(tables));
                bestTimedOut && tables == after && result == if completed then Returned(true) else NoSolutionThrew
      ensures timeLimit >= 0 ==> numExpanded == 0
      ensures searched.Some? && searched.value.Solved? ==>
                && result == Returned(false) && bestNode == Some(searched.value.node)
                && exists t :: tables == hooks.onGoal(searched.value.node, t).0 && hooks.onGoal(searched.value.node, t).1
      ensures searched == Some(Exhausted) || searched == Some(Threw) ==> result == Returned(false) && noSolution
      ensures searched == Some(Stopped) ==>
                && (result == NullBestNode <==> bestNode.None?)
                && (bestNode.Some? ==>
                      && bestTimedOut
                      && exists t :: tables == hooks.onNoSolution(bestNode.value, t).0
                                     && result == if hooks.onNoSolution(bestNode.value, t).1
                                                  then Returned(true) else NoSolutionThrew)
      ensures result == Returned(true) ==> bestTimedOut
    {
      if timeLimit < 0 {
        searched := None;
        noSolution := true;
        if bestNode.None? {
          result := NullBestNode;
          return;
        }
        bestTimedOut := true;
        result := UpdateNoSolution();
        return;
      }
      Reset();
      SetInitialValues();
      var outcome;
      if focalSearch {
        outcome := SearchFocal(budget);
      } else {
        outcome := Search(budget);
      }
      searched := Some(outcome);
      match outcome {
        case Solved(_) =>
          result := Returned(false);
        case Exhausted =>
          noSolution := true;
          result := Returned(false);
        case Threw =>
          noSolution := true;
          result := Returned(false);
        case Stopped =>
          if bestNode.None? {
            result := NullBestNode;
            return;
          }
          bestTimedOut := true;
          result := UpdateNoSolution();
      }
    }

    /** updateNoSolution on the best node, after a timeout: findPath returns true unless it throws. */
    method UpdateNoSolution() returns (result: FindPathResult)
      requires bestNode.Some?
      modifies this`tables
      ensures tables == hooks.onNoSolution(bestNode.value, old(tables)).0
      ensures result == if hooks.onNoSolution(bestNode.value, old(tables)).1 then Returned(true) else NoSolutionThrew
    {
      var (after, completed) := hooks.onNoSolution(bestNode.value, tables);
      tables := after;
      result := if completed then Returned(true) else NoSolutionThrew;
    }
  }
}

/**
 * Focal A* (FocalAStarSearch.java): A* run by the engine's focal loop. The next node is
 * the head of the focal list, children within weight times the focal bound join the focal
 * list, and the goal test checks the arrival deadline against the parent of the node and,
 * failing that, against the parents of the nodes waiting in the focal list.
 */
module FocalAStar {
  import opened Wrappers
  import opened Geometry
  import opened Queues
  import opened BestFirst
  import opened AStar

  /**
   * checkGoalNodeValidity's outcomes: the node's parent meets the deadline; it does not
   * but some focal node's parent does; no parent does (SolutionNotFoundException); or a
   * parent is missing (NullPointerException).
   */
  datatype Validity = ValidGoal | InvalidGoal | NoneValid | NullParent

  /**
   * The scan of the focal list in its iteration order: the first node whose parent
   * meets the deadline of the best node ends it.
   */
  function ScanFocal(st: Setting, best: ANode, order: seq<ANode>): Validity
    decreases |order|
  {
    if order == [] then NoneValid
    else if order[0].parent.None? then NullParent
    else if EtaValid(st, best, order[0].parent.value.state.position) then InvalidGoal
    else ScanFocal(st, best, order[1..])
  }

  /** checkGoalNodeValidity with the focal list in the order its iterator visits it. */
  function GoalNodeValidity(st: Setting, best: ANode, order: seq<ANode>): Validity
  {
    if best.parent.None? then NullParent
    else if EtaValid(st, best, best.parent.value.state.position) then ValidGoal
    else ScanFocal(st, best, order)
  }

  /** checkGoalNodeValidity as the loop it is. */
  method CheckGoalNodeValidity(st: Setting, best: ANode, order: seq<ANode>) returns (v: Validity)
    ensures v == GoalNodeValidity(st, best, order)
  {
    if best.parent.None? {
      return NullParent;
    }
    if EtaValid(st, best, best.parent.value.state.position) {
      return ValidGoal;
    }
    var i := 0;
    while i < |order|
      invariant 0 <= i <= |order|
      invariant GoalNodeValidity(st, best, order) == ScanFocal(st, best, order[i..])
    {
      assert order[i..][1..] == order[i + 1..];
      var node := order[i];
      if node.parent.None? {
        return NullParent;
      }
      if EtaValid(st, best, node.parent.value.state.position) {
        return InvalidGoal;
      }
      i := i + 1;
    }
    return NoneValid;
  }

  /**
   * The outcome stated on the focal list as a collection: when every waiting node has a
   * parent, the iteration order does not matter.
   */
  function FocalValidity(st: Setting, best: ANode, focal: multiset<ANode>): Validity
  {
    if best.parent.None? then NullParent
    else if EtaValid(st, best, best.parent.value.state.position) then ValidGoal
    else if exists n :: n in focal && n.parent.Some? && EtaValid(st, best, n.parent.value.state.position)
    then InvalidGoal
    else if exists n :: n in focal && n.parent.None? then NullParent
    else NoneValid
  }

  /** Without parentless nodes, the scan finds a node meeting the deadline exactly when one exists. */
  lemma {:induction false} ScanFindsAnyValid(st: Setting, best: ANode, order: seq<ANode>)
    requires forall n :: n in order ==> n.parent.Some?
    ensures ScanFocal(st, best, order) == InvalidGoal <==>
              exists n :: n in order && EtaValid(st, best, n.parent.value.state.position)
    ensures ScanFocal(st, best, order) != InvalidGoal ==> ScanFocal(st, best, order) == NoneValid
    decreases |order|
  {
    if order != [] {
      ScanFindsAnyValid(st, best, order[1..]);
      assert order == [order[0]] + order[1..];
    }
  }

  /** The scan in any iteration order agrees with the order-free statement. */
  lemma ScanIsOrderFree(st: Setting, best: ANode, order: seq<ANode>, focal: multiset<ANode>)
    requires multiset(order) == focal
    requires forall n :: n in focal ==> n.parent.Some?
    ensures GoalNodeValidity(st, best, order) == FocalValidity(st, best, focal)
  {
    forall n ensures n in order <==> n in focal {
      assert n in order <==> n in multiset(order);
    }
    ScanFindsAnyValid(st, best, order);
  }

  /**
   * isGoalNode as written: at the goal voxel the validity check runs, and only when it
   * returns true is the last move checked; when it returns false, goalReached stays true.
   */
  function IsGoalNodeAsWritten(st: Setting, current: ANode, focal: multiset<ANode>): Verdict
  {
    if Key(current) != st.GoalVoxel() then NotGoal
    else
      match FocalValidity(st, current, focal)
      case NullParent => Fails
      case NoneValid => Fails
      case InvalidGoal => Goal
      case ValidGoal => if GoalUpdate(st, current) then Goal else NotGoal
  }

  /**
   * As written, a node at the goal voxel whose parent misses the deadline is accepted as
   * the goal as soon as some focal node's parent meets it.
   */
  lemma AsWrittenAcceptsLateGoal(st: Setting, current: ANode, focal: multiset<ANode>, other: ANode)
    requires Key(current) == st.GoalVoxel() && current.parent.Some?
    requires !EtaValid(st, current, current.parent.value.state.position)
    requires other in focal && other.parent.Some? && EtaValid(st, current, other.parent.value.state.position)
    ensures IsGoalNodeAsWritten(st, current, focal) == Goal
  {
  }

  /**
   * isGoalNode as intended: the goal voxel, reached with the deadline met from the parent,
   * and a valid last move. A late node whose deadline some focal node still meets lets
   * the search go on; when no node meets it, the search fails.
   */
  function IsGoalNode(st: Setting, current: ANode, focal: multiset<ANode>): (v: Verdict)
    ensures v == Goal <==> Key(current) == st.GoalVoxel() && current.parent.Some?
                           && EtaValid(st, current, current.parent.value.state.position)
                           && GoalUpdate(st, current)
    ensures v == Fails ==> Key(current) == st.GoalVoxel()
    ensures Key(current) == st.GoalVoxel() && current.parent.Some?
            && !EtaValid(st, current, current.parent.value.state.position)
            && (exists n :: n in focal && n.parent.Some? && EtaValid(st, current, n.parent.value.state.position))
            ==> v == NotGoal
  {
    if Key(current) != st.GoalVoxel() then NotGoal
    else
      match FocalValidity(st, current, focal)
      case NullParent => Fails
      case NoneValid => Fails
      case InvalidGoal => NotGoal
      case ValidGoal => if GoalUpdate(st, current) then Goal else NotGoal
  }

  /** The two goal tests differ only on late nodes at the goal voxel. */
  lemma CorrectionOnlyTouchesLateGoals(st: Setting, current: ANode, focal: multiset<ANode>)
    requires IsGoalNode(st, current, focal) != IsGoalNodeAsWritten(st, current, focal)
    ensures Key(current) == st.GoalVoxel() && current.parent.Some?
    ensures !EtaValid(st, current, current.parent.value.state.position)
    ensures IsGoalNode(st, current, focal) == NotGoal && IsGoalNodeAsWritten(st, current, focal) == Goal
  {
  }

  /** The engine's hooks for Focal A*: those of A* with the focal goal test. */
  function SearchHooks(st: Setting): Hooks<ANode, Place, map<Place, ANode>>
  {
    AStar.SearchHooks(st).(isGoal := (n, focal) => IsGoalNode(st, n, focal))
  }

  lemma SearchHooksOrdered(st: Setting)
    ensures Ordered(SearchHooks(st))
  {
    AStar.SearchHooksOrdered(st);
  }

  /**
   * otherNodeUpdates: of the children of an expansion, exactly those whose f is within
   * weight times the focal bound join the focal list.
   */
  lemma FocalAdmission(st: Setting, weight: real, bound: real, best: ANode,
                       lists: Lists<ANode, Place, map<Place, ANode>>)
    requires IsGoalNode(st, best, lists.focal) == NotGoal && Valid(st, best)
    ensures var r := Explore(SearchHooks(st), true, weight, bound, best, lists);
            var children := ExpandNode(st, best, lists.closed + {Key(best)}, lists.tables).0;
            && r.0 == Continued
            && r.1.closed == lists.closed + {Key(best)}
            && r.1.open == lists.open + multiset(children)
            && r.1.focal == lists.focal + multiset(Admitted(children, NodeLowerBound, weight, bound))
            && forall n :: n in r.1.focal && n !in lists.focal ==> n.state.costs.f <= weight * bound
  {
    ExploreLists(SearchHooks(st), true, weight, bound, best, lists);
  }
}

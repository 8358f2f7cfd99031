/**
 * The conflict queue of a CBS state (CBSState.java): a PriorityQueue of agent conflicts
 * under ConflictComparator, held as the sequence of its elements. poll hands out a least
 * conflict; among conflicts that rank equally, the Java heap picks one in an order that
 * depends on its layout and is not specified. The model picks the first in its sequence;
 * PollRule states only what holds whichever least conflict is taken.
 */
module CBSQueue {
  import opened Wrappers
  import opened Geometry
  import opened Conflicts
  import opened Queues
  import opened Comparators
  import opened Seqs

  type ConflictQueue = seq<AgentConflictValue>

  /** The test removeAgentConflicts keeps a conflict by: the agent is neither of its parties. */
  function Unrelated(id: AgentId): AgentConflictValue -> bool
  {
    (c: AgentConflictValue) => !c.Involves(id)
  }

  /** The queue without the conflicts the agent takes part in, the others in their order. */
  function WithoutAgent(q: ConflictQueue, id: AgentId): ConflictQueue
  {
    Keep<AgentConflictValue>(q, Unrelated(id))
  }

  /** removeAgentConflicts: the iterator removes every conflict the agent takes part in. */
  method RemoveAgentConflicts(q: ConflictQueue, id: AgentId) returns (r: ConflictQueue)
    ensures r == WithoutAgent(q, id)
  {
    r := [];
    var i := 0;
    while i < |q|
      invariant 0 <= i <= |q|
      invariant r == Keep(q[..i], Unrelated(id))
    {
      KeepSnoc(q, i, Unrelated(id));
      if !q[i].Involves(id) {
        r := r + [q[i]];
      }
      i := i + 1;
    }
    assert q[..|q|] == q;
  }

  /**
   * After the removal the queue holds no conflict of the agent, and every other conflict
   * exactly as often as before; removing twice is removing once.
   */
  lemma RemoveAgentConflictsRule(q: ConflictQueue, id: AgentId)
    ensures forall c :: c in WithoutAgent(q, id) ==> !c.Involves(id)
    ensures forall c :: multiset(WithoutAgent(q, id))[c]
                        == if c.Involves(id) then 0 else multiset(q)[c]
    ensures WithoutAgent(WithoutAgent(q, id), id) == WithoutAgent(q, id)
  {
    KeepMembers(q, Unrelated(id));
    KeepCount(q, Unrelated(id));
    KeepTwice(q, Unrelated(id));
  }

  /** Where poll finds its conflict: the first of the least conflicts of a non-empty queue. */
  function HeadIndex(q: ConflictQueue): (i: nat)
    requires q != []
    ensures i < |q|
    ensures forall j :: 0 <= j < |q| ==> ConflictCompare(q[i], q[j]) <= 0
    ensures forall j :: 0 <= j < i ==> ConflictCompare(q[j], q[i]) > 0
    decreases |q|
  {
    if |q| == 1 then 0
    else
      var i := HeadIndex(q[..|q| - 1]);
      if ConflictCompare(q[|q| - 1], q[i]) < 0 then |q| - 1 else i
  }

  /** poll: the least conflict (None on an empty queue) and the queue without it. */
  function Poll(q: ConflictQueue): (r: (Option<AgentConflictValue>, ConflictQueue))
  {
    if q == [] then (None, [])
    else
      var i := HeadIndex(q);
      (Some(q[i]), q[..i] + q[i + 1..])
  }

  /**
   * poll on an empty queue gives null; otherwise it takes out one least conflict under
   * ConflictComparator and leaves every other conflict in the queue.
   */
  lemma PollRule(q: ConflictQueue)
    ensures Poll(q).0.None? <==> q == []
    ensures Poll(q).0.Some? ==> IsMin(Poll(q).0.value, multiset(q), ConflictCompare)
    ensures Poll(q).0.Some? ==> multiset(q) == multiset(Poll(q).1) + multiset{Poll(q).0.value}
    ensures |Poll(q).1| == if q == [] then 0 else |q| - 1
  {
    if q != [] {
      var i := HeadIndex(q);
      assert q == q[..i] + [q[i]] + q[i + 1..];
      forall x | x in multiset(q)
        ensures ConflictCompare(q[i], x) <= 0
      {
        var j :| 0 <= j < |q| && q[j] == x;
      }
    }
  }
}

/**
 * The table of conflicting pairs of Greedy CBS (GreedyCBSState.java). One table is shared
 * by every state of a search: findConflict drops an agent's pairs before recording the
 * pairs it finds again, and otherUpdateds counts the pairs. Agents are keyed by id.
 */
module GreedyCBS {
  import opened Geometry

  /** The agents each agent has been found in conflict with. */
  type PairTable = map<AgentId, set<AgentId>>

  /** Every recorded pair is recorded both ways, and no agent is its own partner. */
  predicate Symmetric(pairs: PairTable)
  {
    forall a, b :: a in pairs && b in pairs[a] ==> a != b && b in pairs && a in pairs[b]
  }

  /** The partners recorded for an agent; none when the agent has no entry. */
  function Partners(pairs: PairTable, k: AgentId): set<AgentId>
  {
    if k in pairs then pairs[k] else {}
  }

  // ---------------------------------------------------------------- dropping an agent

  /**
   * What findConflict needs to drop an agent's pairs without a NullPointerException: each
   * of its partners has an entry, and it is not its own partner.
   */
  predicate Droppable(pairs: PairTable, a: AgentId)
  {
    a in pairs ==> forall b :: b in pairs[a] ==> b in pairs && b != a
  }

  /** The table once the agent's pairs are dropped (findConflict, before its search). */
  function Dropped(pairs: PairTable, a: AgentId): PairTable
  {
    if a !in pairs then pairs
    else map k | k in pairs && k != a :: if k in pairs[a] then pairs[k] - {a} else pairs[k]
  }

  /** findConflict's removal loop: the agent leaves each partner's set, then its entry goes. */
  method DropAgent(pairs: PairTable, a: AgentId) returns (r: PairTable)
    requires Droppable(pairs, a)
    ensures r == Dropped(pairs, a)
  {
    r := pairs;
    if a in pairs {
      var todo := pairs[a];
      while todo != {}
        invariant todo <= pairs[a]
        invariant r.Keys == pairs.Keys
        invariant forall k :: k in r ==>
                    r[k] == if k in pairs[a] && k !in todo then pairs[k] - {a} else pairs[k]
        decreases |todo|
      {
        var b := Least(todo);
        r := r[b := r[b] - {a}];
        todo := todo - {b};
      }
      r := map k | k in r && k != a :: r[k];
    }
  }

  /** Some element of a non-empty set of ids. */
  lemma Pick(s: set<AgentId>) returns (x: AgentId)
    requires s != {}
    ensures x in s
  {
    if forall y: AgentId :: y !in s {
      assert false;
    }
    x :| x in s;
  }

  /** A symmetric table can always drop an agent. */
  lemma SymmetricDroppable(pairs: PairTable, a: AgentId)
    requires Symmetric(pairs)
    ensures Droppable(pairs, a)
  {
  }

  /**
   * Dropping an agent keeps the table symmetric, removes the agent's entry and every
   * mention of it, and leaves every other pair as it was.
   */
  lemma DroppedRule(pairs: PairTable, a: AgentId)
    requires Symmetric(pairs)
    ensures Symmetric(Dropped(pairs, a))
    ensures Dropped(pairs, a).Keys == pairs.Keys - {a}
    ensures forall k :: k in Dropped(pairs, a) ==> a !in Dropped(pairs, a)[k]
    ensures forall k, b :: k in Dropped(pairs, a) && b != a ==>
              (b in Dropped(pairs, a)[k] <==> b in pairs[k])
  {
  }

  // ---------------------------------------------------------------- recording a pair

  /** findConflict records a conflicting pair in both directions, creating entries as needed. */
  function Paired(pairs: PairTable, i: AgentId, j: AgentId): (r: PairTable)
  {
    var p := pairs[i := Partners(pairs, i) + {j}];
    p[j := Partners(p, j) + {i}]
  }

  /**
   * Recording a pair of two different agents keeps the table symmetric, adds the pair both
   * ways, and changes nothing else.
   */
  lemma PairedRule(pairs: PairTable, i: AgentId, j: AgentId)
    requires Symmetric(pairs) && i != j
    ensures Symmetric(Paired(pairs, i, j))
    ensures Paired(pairs, i, j).Keys == pairs.Keys + {i, j}
    ensures Partners(Paired(pairs, i, j), i) == Partners(pairs, i) + {j}
    ensures Partners(Paired(pairs, i, j), j) == Partners(pairs, j) + {i}
    ensures forall k :: k != i && k != j ==> Partners(Paired(pairs, i, j), k) == Partners(pairs, k)
  {
    var r := Paired(pairs, i, j);
    forall a, b | a in r && b in r[a]
      ensures a != b && b in r && a in r[b]
    {
      if a != i && a != j {
        assert b in pairs[a];
      }
    }
  }

  // ---------------------------------------------------------------- counting pairs

  /** Every non-empty set of ids has a least element. */
  lemma {:induction false} LeastExists(s: set<AgentId>)
    requires s != {}
    ensures exists m :: m in s && forall x :: x in s ==> m <= x
    decreases |s|
  {
    var y := Pick(s);
    if s == {y} {
      assert forall x :: x in s ==> y <= x;
    } else {
      LeastExists(s - {y});
      var m :| m in s - {y} && forall x :: x in s - {y} ==> m <= x;
      var least := if y < m then y else m;
      forall x | x in s
        ensures least <= x
      {
        if x != y {
          assert x in s - {y};
        }
      }
      assert least in s;
    }
  }

  /** The least id of a non-empty set: the order in which the model sums the table. */
  function Least(s: set<AgentId>): (m: AgentId)
    requires s != {}
    ensures m in s && forall x :: x in s ==> m <= x
  {
    LeastExists(s);
    var m :| m in s && forall x :: x in s ==> m <= x;
    m
  }

  /** The number of partners recorded for the given agents. */
  function PartnerCount(pairs: PairTable, ids: set<AgentId>): nat
    decreases |ids|
  {
    if ids == {} then 0
    else
      var k := Least(ids);
      |Partners(pairs, k)| + PartnerCount(pairs, ids - {k})
  }

  /** otherUpdateds' pair count: half the total size of the partner sets. */
  function TotalPairs(pairs: PairTable): real
  {
    PartnerCount(pairs, pairs.Keys) as real / 2.0
  }

  /** otherUpdateds: the sizes of all partner sets added up, then halved. */
  method CountPairs(pairs: PairTable) returns (total: real)
    ensures total == TotalPairs(pairs)
  {
    var sum := 0;
    var left := pairs.Keys;
    while left != {}
      invariant left <= pairs.Keys
      invariant sum + PartnerCount(pairs, left) == PartnerCount(pairs, pairs.Keys)
      decreases |left|
    {
      var k := Least(left);
      sum := sum + |pairs[k]|;
      left := left - {k};
    }
    total := sum as real / 2.0;
  }

  /** The sum does not depend on which agent is taken first. */
  lemma {:induction false} PartnerCountAny(pairs: PairTable, ids: set<AgentId>, k: AgentId)
    requires k in ids
    ensures PartnerCount(pairs, ids) == |Partners(pairs, k)| + PartnerCount(pairs, ids - {k})
    decreases |ids|
  {
    var m := Least(ids);
    if m != k {
      var rest := ids - {m};
      PartnerCountAny(pairs, rest, k);
      assert rest - {k} == (ids - {k}) - {m};
      assert m in ids - {k} && Least(ids - {k}) in ids;
      assert Least(ids - {k}) == m;
      PartnerCountAny(pairs, ids - {k}, m);
    }
  }

  /**
   * When every agent's partner set grows by one for the agents in `up` and shrinks by one
   * for those in `down`, the sum moves by the difference of the two counts.
   */
  lemma {:induction false} PartnerCountShift(m: PairTable, m': PairTable, ids: set<AgentId>,
                                             up: set<AgentId>, down: set<AgentId>)
    requires forall k :: k in ids ==>
               |Partners(m', k)| + (if k in down then 1 else 0)
               == |Partners(m, k)| + (if k in up then 1 else 0)
    ensures PartnerCount(m', ids) + |down * ids| == PartnerCount(m, ids) + |up * ids|
    decreases |ids|
  {
    if ids != {} {
      var k := Least(ids);
      var rest := ids - {k};
      PartnerCountShift(m, m', rest, up, down);
      Meet(down, ids, k);
      Meet(up, ids, k);
    }
  }

  /** Taking one id out of a set takes it out of the set's meet with any other. */
  lemma Meet(d: set<AgentId>, ids: set<AgentId>, k: AgentId)
    requires k in ids
    ensures |d * ids| == |d * (ids - {k})| + (if k in d then 1 else 0)
  {
    if k in d {
      assert d * ids == d * (ids - {k}) + {k};
    } else {
      assert d * ids == d * (ids - {k});
    }
  }

  /** Agents without partners add nothing to the sum. */
  lemma {:induction false} PartnerCountIdle(pairs: PairTable, ids: set<AgentId>, idle: set<AgentId>)
    requires forall k :: k in idle ==> Partners(pairs, k) == {}
    ensures PartnerCount(pairs, ids + idle) == PartnerCount(pairs, ids)
    decreases |idle|
  {
    if idle - ids != {} {
      var e := Pick(idle - ids);
      PartnerCountIdle(pairs, ids, idle - {e});
      PartnerCountAny(pairs, ids + idle, e);
      assert (ids + idle) - {e} == ids + (idle - {e});
    } else {
      assert ids + idle == ids;
    }
  }

  /** A set met with a set that contains it is itself. */
  lemma MeetWithin(d: set<AgentId>, ids: set<AgentId>)
    requires d <= ids
    ensures d * ids == d
  {
  }

  /** Recording a new pair makes each of the two partner sets one larger, and no other. */
  lemma PairedSizes(pairs: PairTable, i: AgentId, j: AgentId)
    requires i != j && j !in Partners(pairs, i) && i !in Partners(pairs, j)
    ensures forall k :: |Partners(Paired(pairs, i, j), k)| + 0
                        == |Partners(pairs, k)| + (if k in {i, j} then 1 else 0)
  {
  }

  /** The agents a new pair brings into the table have no partners yet. */
  lemma PairedNewcomers(pairs: PairTable, i: AgentId, j: AgentId)
    ensures PartnerCount(pairs, pairs.Keys + {i, j}) == PartnerCount(pairs, pairs.Keys)
  {
    var idle := {i, j} - pairs.Keys;
    PartnerCountIdle(pairs, pairs.Keys, idle);
    assert pairs.Keys + idle == pairs.Keys + {i, j};
  }

  /** Recording a new pair of two different agents adds exactly one pair. */
  lemma PairedCount(pairs: PairTable, i: AgentId, j: AgentId)
    requires Symmetric(pairs) && i != j && j !in Partners(pairs, i)
    ensures TotalPairs(Paired(pairs, i, j)) == TotalPairs(pairs) + 1.0
  {
    assert i !in Partners(pairs, j);
    PairedSum(pairs, i, j);
  }

  /** Recording a new pair adds two to the total size of the partner sets. */
  lemma PairedSum(pairs: PairTable, i: AgentId, j: AgentId)
    requires i != j && j !in Partners(pairs, i) && i !in Partners(pairs, j)
    ensures PartnerCount(Paired(pairs, i, j), Paired(pairs, i, j).Keys)
            == PartnerCount(pairs, pairs.Keys) + 2
  {
    assert Paired(pairs, i, j).Keys == pairs.Keys + {i, j};
    PairedShift(pairs, i, j, pairs.Keys + {i, j});
    PairedNewcomers(pairs, i, j);
  }

  /** Over any agents that include both, a new pair adds two to the sum. */
  lemma PairedShift(pairs: PairTable, i: AgentId, j: AgentId, ids: set<AgentId>)
    requires i != j && j !in Partners(pairs, i) && i !in Partners(pairs, j)
    requires i in ids && j in ids
    ensures PartnerCount(Paired(pairs, i, j), ids) == PartnerCount(pairs, ids) + 2
  {
    PairedSizes(pairs, i, j);
    PartnerCountShift(pairs, Paired(pairs, i, j), ids, {i, j}, {});
    MeetWithin({i, j}, ids);
    MeetWithin({}, ids);
  }

  /** Dropping an agent makes each of its partners' sets one smaller, and no other. */
  lemma DroppedSizes(pairs: PairTable, a: AgentId)
    requires Symmetric(pairs) && a in pairs
    ensures forall k :: k in pairs.Keys - {a} ==>
              |Partners(Dropped(pairs, a), k)| + (if k in pairs[a] then 1 else 0)
              == |Partners(pairs, k)| + (if k in {} then 1 else 0)
  {
    var r := Dropped(pairs, a);
    forall k | k in pairs.Keys - {a}
      ensures |Partners(r, k)| + (if k in pairs[a] then 1 else 0) == |Partners(pairs, k)|
    {
      if k in pairs[a] {
        assert a in pairs[k];
        assert pairs[k] == r[k] + {a};
      }
    }
  }

  /** Dropping an agent removes exactly its pairs. */
  lemma DroppedCount(pairs: PairTable, a: AgentId)
    requires Symmetric(pairs)
    ensures TotalPairs(Dropped(pairs, a)) == TotalPairs(pairs) - |Partners(pairs, a)| as real
  {
    DroppedSum(pairs, a);
  }

  /** In a symmetric table an agent's partners are other agents with entries. */
  lemma PartnersWithin(pairs: PairTable, a: AgentId)
    requires Symmetric(pairs) && a in pairs
    ensures pairs[a] <= pairs.Keys - {a}
  {
    forall b | b in pairs[a]
      ensures b in pairs.Keys - {a}
    {
    }
  }

  /** Dropping an agent takes twice its number of partners off the total size. */
  lemma DroppedSum(pairs: PairTable, a: AgentId)
    requires Symmetric(pairs)
    ensures PartnerCount(Dropped(pairs, a), Dropped(pairs, a).Keys)
            == PartnerCount(pairs, pairs.Keys) - 2 * |Partners(pairs, a)|
  {
    if a in pairs {
      var r := Dropped(pairs, a);
      var rest := pairs.Keys - {a};
      assert r.Keys == rest;
      PartnerCountAny(pairs, pairs.Keys, a);
      assert PartnerCount(r, rest) + |pairs[a]| == PartnerCount(pairs, rest) by {
        DroppedSizes(pairs, a);
        PartnerCountShift(pairs, r, rest, {}, pairs[a]);
        PartnersWithin(pairs, a);
        MeetWithin(pairs[a], rest);
        MeetWithin({}, rest);
      }
    }
  }
}

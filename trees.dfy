/**
 * The search-tree substrate: the cost record every state carries (State.java) and the
 * tree node that links a state to its parent and to the root (Node.java).
 */
module Trees {
  /** The g, h and f values of a state. */
  datatype Costs = Costs(g: real, h: real, f: real)
  {
    /** setHVal: stores h and brings f up to date from the current g. */
    function WithH(hVal: real): (c: Costs)
      ensures c.g == g && c.h == hVal
      ensures c.f == c.g + c.h
    {
      Costs(g, hVal, g + hVal)
    }

    /** setGVal: stores g only; f keeps its old value until h is set again. */
    function WithG(gVal: real): (c: Costs)
      ensures c.g == gVal && c.h == h && c.f == f
    {
      Costs(gVal, h, f)
    }

    /** setFVal: stores f only. */
    function WithF(fVal: real): (c: Costs)
      ensures c.g == g && c.h == h && c.f == fVal
    {
      Costs(g, h, fVal)
    }

    /** f agrees with g + h. */
    predicate Consistent()
    {
      f == g + h
    }
  }

  /** Setting h after g makes f consistent, whatever f was before. */
  lemma SetGThenHConsistent(c: Costs, g: real, h: real)
    ensures c.WithG(g).WithH(h).Consistent()
    ensures c.WithG(g).WithH(h) == Costs(g, h, g + h)
  {
  }

  /** Setting g alone leaves a consistent f stale as soon as g changes. */
  lemma SetGLeavesFStale(c: Costs, g: real)
    requires c.Consistent() && g != c.g
    ensures !c.WithG(g).Consistent()
  {
  }

  /** The mutable cost record of a search state (State.java). */
  class State {
    var g: real
    var h: real
    var f: real

    /** The record's current values. */
    function Value(): Costs
      reads this
    {
      Costs(g, h, f)
    }

    /** The no-argument constructor: all three values are zero. */
    constructor Zero()
      ensures Value() == Costs(0.0, 0.0, 0.0)
    {
      g, h, f := 0.0, 0.0, 0.0;
    }

    /** The three values are stored as given; f is not recomputed. */
    constructor (gVal: real, hVal: real, fVal: real)
      ensures Value() == Costs(gVal, hVal, fVal)
    {
      g, h, f := gVal, hVal, fVal;
    }

    method SetFVal(fVal: real)
      modifies this
      ensures Value() == old(Value()).WithF(fVal)
    {
      f := fVal;
    }

    method SetGVal(gVal: real)
      modifies this
      ensures Value() == old(Value()).WithG(gVal)
    {
      g := gVal;
    }

    method SetHVal(hVal: real)
      modifies this
      ensures Value() == old(Value()).WithH(hVal)
      ensures Value().Consistent()
    {
      h := hVal;
      f := g + h;
    }
  }

  /**
   * A node of the search tree (Node.java). Its ordering, equality and hash code are
   * those of its state; the state's own relation is passed in, since it differs from
   * one planner to the next.
   */
  class Node<S> {
    var root: Node?<S>
    var parent: Node?<S>
    var state: S
    var timeout: bool

    /** A node without a parent is its own root; any other node shares its parent's root. */
    constructor (parent: Node?<S>, state: S)
      ensures this.parent == parent && this.state == state && !timeout
      ensures root == (if parent == null then this else parent.root)
    {
      this.parent := parent;
      this.state := state;
      timeout := false;
      new;
      root := if parent == null then this else parent.root;
    }

    function CompareTo(other: Node<S>, compare: (S, S) -> int): int
      reads this, other
    {
      compare(state, other.state)
    }

    function Equals(other: Node<S>, equals: (S, S) -> bool): bool
      reads this, other
    {
      equals(state, other.state)
    }

    function HashCode(hash: S -> int): int
      reads this
    {
      hash(state)
    }

    /** A copy with a cloned state under the same parent. */
    method Clone(cloneState: S -> S) returns (n: Node<S>)
      ensures fresh(n)
      ensures n.parent == parent && n.state == cloneState(state) && !n.timeout
      ensures n.root == (if parent == null then n else parent.root)
    {
      n := new Node(parent, cloneState(state));
    }

    method SetState(s: S)
      modifies this
      ensures state == s && parent == old(parent) && root == old(root) && timeout == old(timeout)
    {
      state := s;
    }

    method SetTimeout(t: bool)
      modifies this
      ensures timeout == t && parent == old(parent) && root == old(root) && state == old(state)
    {
      timeout := t;
    }

    /** Re-parenting does not move the cached root. */
    method SetParent(p: Node?<S>)
      modifies this
      ensures parent == p && root == old(root) && state == old(state) && timeout == old(timeout)
    {
      parent := p;
    }
  }

  /**
   * Node equality, ordering and hashing see only the states: two pairs of nodes holding
   * the same states compare, equal and hash alike, whatever their parents, roots and
   * timeout flags.
   */
  lemma NodeRelationsIgnoreLinks<S>(a: Node<S>, b: Node<S>, c: Node<S>, d: Node<S>,
                                    equals: (S, S) -> bool, compare: (S, S) -> int,
                                    hash: S -> int)
    requires a.state == c.state && b.state == d.state
    ensures a.Equals(b, equals) == c.Equals(d, equals)
    ensures a.CompareTo(b, compare) == c.CompareTo(d, compare)
    ensures a.HashCode(hash) == c.HashCode(hash)
  {
  }
}

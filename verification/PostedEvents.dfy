/** The posted queue: nodes that move between an `occupied` and a `free` queue and are reused. */
module PostedEvents {
  import opened Base
  import opened Buffers

  class Node {
    var res: CRes

    constructor (x: CRes)
      ensures res == x
    {
      res := x;
    }
  }

  lemma Rotated(n: Node, ns: seq<Node>)
    requires NoDup([n] + ns) || (NoDup(ns) && n !in ns)
    ensures NoDup(ns + [n]) && n !in ns
  {
    if NoDup([n] + ns) {
      var all := [n] + ns;
      forall i, j | 0 <= i < j < |ns| ensures ns[i] != ns[j] {
        assert all[i + 1] != all[j + 1];
      }
      forall i | 0 <= i < |ns| ensures ns[i] != n {
        assert all[0] != all[i + 1];
      }
    }
  }

  class Posted {
    var free: seq<Node>
    var occupied: seq<Node>

    function Nodes(): set<Node> reads this { set n | n in free + occupied }

    /** No node is on a queue twice or on both. */
    ghost predicate Valid() reads this { NoDup(free + occupied) }

    function Records(): (r: seq<CRes>)
      reads this, occupied
      ensures |r| == |occupied| && forall i :: 0 <= i < |r| ==> r[i] == occupied[i].res
    {
      seq(|occupied|, i requires 0 <= i < |occupied| reads this, occupied => occupied[i].res)
    }

    constructor ()
      ensures Valid() && Records() == [] && Nodes() == {}
    {
      free, occupied := [], [];
    }

    /** `insert_posted_event_ctx`: the head of `free`, or a new node, goes to the tail of
        `occupied`; no record already queued is overwritten. */
    method Insert(res: CRes)
      requires Valid()
      modifies this, free
      ensures Valid() && Records() == old(Records()) + [res]
      ensures fresh(Nodes() - old(Nodes())) && old(Nodes()) <= Nodes()
      ensures free == if |old(free)| > 0 then old(free)[1..] else []
    {
      ghost var f, o := free, occupied;
      var node;
      if |free| > 0 {
        node := free[0];
        free := free[1..];
        assert f + o == [node] + (free + o);
        Rotated(node, free + o);
        assert forall i :: 0 <= i < |o| ==> o[i] == (free + o)[|free| + i];
        node.res := res;
      } else {
        node := new Node(res);
        Rotated(node, free + o);
      }
      assert forall i :: 0 <= i < |o| ==> o[i] != node;
      occupied := occupied + [node];
      assert free + occupied == (free + o) + [node];
      assert forall n :: n in free + occupied <==> n == node || n in free + o;
    }

    /** The head of `occupied` goes to the tail of `free`; its record is copied out. */
    method Take() returns (res: CRes)
      requires Valid() && occupied != []
      modifies this
      ensures Valid() && Nodes() == old(Nodes())
      ensures old(Records()) == [res] + Records()
    {
      ghost var f, o := free, occupied;
      var node := occupied[0];
      occupied := occupied[1..];
      free := free + [node];
      res := node.res;
      assert o == [node] + occupied;
      assert free + occupied == f + o;
    }
  }
}

/** The registry of ongoing tasks: a search tree keyed by context address and a counter. */
module OngoingTasks {
  import opened Base

  datatype Tree = Leaf | Node(left: Tree, key: Id, right: Tree)

  function Keys(t: Tree): set<Id> {
    match t
    case Leaf => {}
    case Node(l, k, r) => Keys(l) + {k} + Keys(r)
  }

  function Size(t: Tree): nat {
    match t
    case Leaf => 0
    case Node(l, k, r) => Size(l) + 1 + Size(r)
  }

  /** A search tree: smaller keys to the left, the others to the right. Inserting does not look for
      an equal key, so one may repeat. */
  predicate Ordered(t: Tree) {
    match t
    case Leaf => true
    case Node(l, k, r) =>
      Ordered(l) && Ordered(r) && (forall x :: x in Keys(l) ==> x < k) && (forall x :: x in Keys(r) ==> k <= x)
  }

  /** No key repeats. */
  predicate Distinct(t: Tree) {
    match t
    case Leaf => true
    case Node(l, k, r) => Distinct(l) && Distinct(r) && k !in Keys(l) && k !in Keys(r)
  }

  function Insert(t: Tree, key: Id): Tree {
    match t
    case Leaf => Node(Leaf, key, Leaf)
    case Node(l, k, r) => if key < k then Node(Insert(l, key), k, r) else Node(l, k, Insert(r, key))
  }

  function Least(t: Tree): Id requires t.Node? {
    if t.left.Leaf? then t.key else Least(t.left)
  }

  function WithoutLeast(t: Tree): Tree requires t.Node? {
    if t.left.Leaf? then t.right else Node(WithoutLeast(t.left), t.key, t.right)
  }

  function Delete(t: Tree, key: Id): Tree {
    match t
    case Leaf => Leaf
    case Node(l, k, r) =>
      if key < k then Node(Delete(l, key), k, r)
      else if key > k then Node(l, k, Delete(r, key))
      else if l.Leaf? then r
      else if r.Leaf? then l
      else Node(l, Least(r), WithoutLeast(r))
  }

  lemma {:induction false} InsertKeys(t: Tree, key: Id)
    requires Ordered(t)
    ensures Ordered(Insert(t, key)) && Keys(Insert(t, key)) == Keys(t) + {key} && Size(Insert(t, key)) == Size(t) + 1
    ensures Distinct(t) && key !in Keys(t) ==> Distinct(Insert(t, key))
  {
    match t {
      case Leaf =>
      case Node(l, k, r) => if key < k { InsertKeys(l, key); } else { InsertKeys(r, key); }
    }
  }

  lemma {:induction false} LeastKeys(t: Tree)
    requires Ordered(t) && t.Node?
    ensures Least(t) in Keys(t) && forall x :: x in Keys(t) ==> Least(t) <= x
    ensures Ordered(WithoutLeast(t)) && Size(WithoutLeast(t)) == Size(t) - 1
    ensures Keys(WithoutLeast(t)) <= Keys(t) <= Keys(WithoutLeast(t)) + {Least(t)}
    ensures Distinct(t) ==> Distinct(WithoutLeast(t)) && Least(t) !in Keys(WithoutLeast(t))
  {
    if t.left.Node? {
      LeastKeys(t.left);
    }
  }

  lemma {:induction false} DeleteKeys(t: Tree, key: Id)
    requires Ordered(t) && key in Keys(t)
    ensures Ordered(Delete(t, key)) && Size(Delete(t, key)) == Size(t) - 1
    ensures Keys(Delete(t, key)) <= Keys(t) <= Keys(Delete(t, key)) + {key}
    ensures Distinct(t) ==> Distinct(Delete(t, key)) && key !in Keys(Delete(t, key))
  {
    match t {
      case Node(l, k, r) =>
        if key < k {
          DeleteKeys(l, key);
        } else if key > k {
          DeleteKeys(r, key);
        } else if l.Node? && r.Node? {
          LeastKeys(r);
        }
    }
  }

  class TaskRegistry {
    var root: Tree
    var num: int

    ghost predicate Valid() reads this { Ordered(root) && num == Size(root) }

    function Ids(): set<Id> reads this { Keys(root) }

    constructor ()
      ensures Valid() && Distinct(root) && Ids() == {} && num == 0
    {
      root, num := Leaf, 0;
    }

    /** The iterative lookup agrees with set membership. */
    method Lookup(key: Id) returns (found: bool)
      requires Valid()
      ensures found <==> key in Ids()
    {
      var node := root;
      while node.Node?
        invariant Ordered(node) && (key in Keys(root) <==> key in Keys(node))
        decreases node
      {
        if key < node.key {
          node := node.left;
          continue;
        }
        if key > node.key {
          node := node.right;
          continue;
        }
        return true;
      }
      return false;
    }

    /** Insertion and count; a key not yet there keeps the keys distinct. */
    method Keep(id: Id)
      requires Valid()
      modifies this
      ensures Valid() && Ids() == old(Ids()) + {id} && num == old(num) + 1
      ensures old(Distinct(root)) && id !in old(Ids()) ==> Distinct(root)
    {
      InsertKeys(root, id);
      num := num + 1;
      root := Insert(root, id);
    }

    /** One node less; with distinct keys the id is gone, and nothing else is. */
    method Unkeep(id: Id)
      requires Valid() && id in Ids()
      modifies this
      ensures Valid() && Ids() <= old(Ids()) <= Ids() + {id} && num == old(num) - 1
      ensures old(Distinct(root)) ==> Distinct(root) && Ids() == old(Ids()) - {id}
    {
      DeleteKeys(root, id);
      num := num - 1;
      root := Delete(root, id);
    }
  }
}

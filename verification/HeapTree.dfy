/** The value level of gps/utils/LocHeap.cpp: a size-annotated binary tree that is
    ordered by rank from parent to child only.

    A rankable object is known by its address; its rank is an integer key, and a
    larger key ranks higher. `Rankings` proves that every ranking that is a total preorder
    is one by such keys.
 */
module HeapTree {
  import opened Options

  datatype Item = Item(addr: nat, key: int)

  datatype Tree = Leaf | Node(size: int, left: Tree, right: Tree, data: Item)

  predicate OutRanks(a: Item, b: Item) {
    a.key > b.key
  }

  function Single(x: Item): Tree {
    Node(1, Leaf, Leaf, x)
  }

  /** The stored size, 0 for a missing subtree. */
  function SizeOf(t: Tree): int {
    if t.Leaf? then 0 else t.size
  }

  function Top(t: Tree): Option<Item> {
    if t.Leaf? then None else Some(t.data)
  }

  function Contents(t: Tree): multiset<Item> {
    match t
    case Leaf => multiset{}
    case Node(_, l, r, x) => multiset{x} + Contents(l) + Contents(r)
  }

  /** The consistency check the source runs on itself: no child outranks its parent and
      every stored size is that of its subtree. */
  predicate CheckNodes(t: Tree) {
    match t
    case Leaf => true
    case Node(size, l, r, x) =>
      && (l.Node? ==> !OutRanks(l.data, x) && CheckNodes(l))
      && (r.Node? ==> !OutRanks(r.data, x) && CheckNodes(r))
      && size - SizeOf(l) - SizeOf(r) == 1
  }

  // ---------- operations ----------

  /** A missing child is filled first, the left one before the right one; otherwise the
      smaller subtree gets the new node. */
  predicate PushesLeft(l: Tree, r: Tree) {
    l.Leaf? || (r.Node? && l.size <= r.size)
  }

  function Push(t: Tree, x: Item): Tree {
    match t
    case Leaf => Single(x)
    case Node(size, l, r, y) =>
      var keep := if OutRanks(x, y) then x else y;
      var drop := if OutRanks(x, y) then y else x;
      if PushesLeft(l, r) then Node(size + 1, Push(l, drop), r, keep)
      else Node(size + 1, l, Push(r, drop), keep)
  }

  /** Whether pop descends into the left subtree of a node that has a child. */
  predicate PopsLeft(l: Tree, r: Tree)
    requires l.Node? || r.Node?
  {
    if l.Leaf? then false else if r.Leaf? then true else OutRanks(l.data, r.data)
  }

  /** The tree without its top object. */
  function Pop(t: Tree): Tree
    requires t.Node?
  {
    if t.left.Leaf? && t.right.Leaf? then Leaf
    else if PopsLeft(t.left, t.right) then Node(t.size - 1, Pop(t.left), t.right, t.left.data)
    else Node(t.size - 1, t.left, Pop(t.right), t.right.data)
  }

  /** The search stops at a node that `x` outranks. */
  predicate Removes(t: Tree, x: Item) {
    match t
    case Leaf => false
    case Node(_, l, r, y) =>
      y.addr == x.addr || (!OutRanks(x, y) && (Removes(l, x) || Removes(r, x)))
  }

  function Remove(t: Tree, x: Item): Tree {
    match t
    case Leaf => Leaf
    case Node(size, l, r, y) =>
      if y.addr == x.addr then Pop(t)
      else if OutRanks(x, y) then t
      else if Removes(l, x) then Node(size - 1, Remove(l, x), r, y)
      else if Removes(r, x) then Node(size - 1, l, Remove(r, x), y)
      else t
  }

  // ---------- the heap laws ----------

  /** Objects with the address of `x` are `x` itself: a rank does not change while the
      object sits in the heap. */
  ghost predicate Identified(t: Tree, x: Item) {
    forall y | y in Contents(t) :: y.addr == x.addr ==> y == x
  }

  lemma {:induction false} TopRanksHighest(t: Tree)
    requires t.Node? && CheckNodes(t)
    ensures t.data in Contents(t)
    ensures forall y | y in Contents(t) :: !OutRanks(y, t.data)
  {
    if t.left.Node? { TopRanksHighest(t.left); }
    if t.right.Node? { TopRanksHighest(t.right); }
  }

  lemma {:induction false} SizeCountsContents(t: Tree)
    requires CheckNodes(t)
    ensures SizeOf(t) == |Contents(t)|
  {
    if t.Node? {
      SizeCountsContents(t.left);
      SizeCountsContents(t.right);
    }
  }

  lemma {:induction false} PushKeepsOrder(t: Tree, x: Item)
    requires CheckNodes(t)
    ensures CheckNodes(Push(t, x))
    ensures SizeOf(Push(t, x)) == SizeOf(t) + 1
    ensures Push(t, x).data == if t.Node? && !OutRanks(x, t.data) then t.data else x
  {
    match t
    case Leaf =>
    case Node(size, l, r, y) =>
      var drop := if OutRanks(x, y) then y else x;
      if PushesLeft(l, r) {
        PushKeepsOrder(l, drop);
      } else {
        PushKeepsOrder(r, drop);
      }
  }

  lemma Regroup(keep: Item, drop: Item, x: Item, y: Item, l: multiset<Item>, r: multiset<Item>)
    requires (keep == x && drop == y) || (keep == y && drop == x)
    ensures multiset{keep} + (l + multiset{drop}) + r == multiset{y} + l + r + multiset{x}
    ensures multiset{keep} + l + (r + multiset{drop}) == multiset{y} + l + r + multiset{x}
  {
  }

  lemma {:induction false} PushInserts(t: Tree, x: Item)
    ensures Contents(Push(t, x)) == Contents(t) + multiset{x}
  {
    if t.Node? {
      var (keep, drop) := if OutRanks(x, t.data) then (x, t.data) else (t.data, x);
      Regroup(keep, drop, x, t.data, Contents(t.left), Contents(t.right));
      if PushesLeft(t.left, t.right) {
        PushInserts(t.left, drop);
      } else {
        PushInserts(t.right, drop);
      }
    }
  }

  lemma {:induction false} PopKeepsOrder(t: Tree)
    requires t.Node? && CheckNodes(t)
    ensures CheckNodes(Pop(t)) && SizeOf(Pop(t)) == t.size - 1
    ensures Pop(t).Node? ==> !OutRanks(Pop(t).data, t.data)
  {
    if t.left.Node? || t.right.Node? {
      if PopsLeft(t.left, t.right) {
        PopKeepsOrder(t.left);
      } else {
        PopKeepsOrder(t.right);
      }
    }
  }

  lemma Lift(top: Item, child: Item, l: multiset<Item>, r: multiset<Item>)
    ensures multiset{top} + (l + multiset{child}) + r == (multiset{child} + l + r) + multiset{top}
    ensures multiset{top} + l + (r + multiset{child}) == (multiset{child} + l + r) + multiset{top}
  {
  }

  lemma {:induction false} PopDeletesTop(t: Tree)
    requires t.Node?
    ensures Contents(t) == Contents(Pop(t)) + multiset{t.data}
  {
    if t.left.Node? || t.right.Node? {
      if PopsLeft(t.left, t.right) {
        PopDeletesTop(t.left);
        Lift(t.data, t.left.data, Contents(Pop(t.left)), Contents(t.right));
      } else {
        PopDeletesTop(t.right);
        Lift(t.data, t.right.data, Contents(t.left), Contents(Pop(t.right)));
      }
    }
  }

  /** Among equals: a new object goes below the old ones, and the right child moves up. */
  lemma TiesAreBroken(t: Tree, x: Item)
    requires t.Node?
    ensures x.key == t.data.key ==> Push(t, x).data == t.data
    ensures t.left.Node? && t.right.Node? && t.left.data.key == t.right.data.key ==> Pop(t).Node? && Pop(t).data == t.right.data
  {
  }

  /** Pruning by rank never hides an object that is in the heap. */
  lemma {:induction false} RemoveFindsIffPresent(t: Tree, x: Item)
    requires CheckNodes(t) && Identified(t, x)
    ensures Removes(t, x) <==> x in Contents(t)
  {
    match t
    case Leaf =>
    case Node(_, l, r, y) =>
      assert Identified(l, x) && Identified(r, x);
      assert y in Contents(t);
      RemoveFindsIffPresent(l, x);
      RemoveFindsIffPresent(r, x);
      TopRanksHighest(t);
  }

  lemma {:induction false} RemoveKeepsOrder(t: Tree, x: Item)
    requires CheckNodes(t)
    ensures CheckNodes(Remove(t, x))
    ensures t.Node? && t.data.addr != x.addr ==> Remove(t, x).Node? && Remove(t, x).data == t.data
    ensures t.Node? && Remove(t, x).Node? ==> !OutRanks(Remove(t, x).data, t.data)
    ensures SizeOf(Remove(t, x)) == SizeOf(t) - if Removes(t, x) then 1 else 0
  {
    match t
    case Leaf =>
    case Node(_, l, r, y) =>
      if y.addr == x.addr {
        PopKeepsOrder(t);
      } else if !OutRanks(x, y) {
        RemoveKeepsOrder(l, x);
        RemoveKeepsOrder(r, x);
      }
  }

  lemma {:induction false} RemoveDeletesOne(t: Tree, x: Item)
    requires CheckNodes(t) && Identified(t, x) && Removes(t, x)
    ensures Contents(t) == Contents(Remove(t, x)) + multiset{x}
  {
    if t.data.addr == x.addr {
      assert t.data in Contents(t);
      PopDeletesTop(t);
    } else {
      IdentifiedBelow(t, x);
      if Removes(t.left, x) {
        RemoveDeletesOne(t.left, x);
        Sink(t.data, x, Contents(Remove(t.left, x)), Contents(t.right));
      } else {
        RemoveDeletesOne(t.right, x);
        Sink(t.data, x, Contents(t.left), Contents(Remove(t.right, x)));
      }
    }
  }

  lemma IdentifiedBelow(t: Tree, x: Item)
    requires t.Node? && Identified(t, x)
    ensures Identified(t.left, x) && Identified(t.right, x)
  {
  }

  lemma Sink(top: Item, x: Item, l: multiset<Item>, r: multiset<Item>)
    ensures multiset{top} + (l + multiset{x}) + r == (multiset{top} + l + r) + multiset{x}
    ensures multiset{top} + l + (r + multiset{x}) == (multiset{top} + l + r) + multiset{x}
  {
  }

  lemma RemoveMisses(t: Tree, x: Item)
    ensures !Removes(t, x) ==> Remove(t, x) == t
  {
  }

  /** Remove-by-address is delete-one on the contents. */
  lemma RemoveIsDelete(t: Tree, x: Item)
    requires CheckNodes(t) && Identified(t, x)
    ensures CheckNodes(Remove(t, x))
    ensures Removes(t, x) <==> x in Contents(t)
    ensures x in Contents(t) ==> Contents(t) == Contents(Remove(t, x)) + multiset{x}
    ensures x !in Contents(t) ==> Remove(t, x) == t
    ensures t.Node? && t.data.addr != x.addr ==> Top(Remove(t, x)) == Top(t)
  {
    RemoveKeepsOrder(t, x);
    RemoveFindsIffPresent(t, x);
    if Removes(t, x) {
      RemoveDeletesOne(t, x);
    } else {
      RemoveMisses(t, x);
    }
  }

  // ---------- balance of heaps that are only pushed to ----------

  function PushAll(t: Tree, xs: seq<Item>): Tree
    decreases |xs|
  {
    if xs == [] then t else PushAll(Push(t, xs[0]), xs[1..])
  }

  function Height(t: Tree): nat {
    match t
    case Leaf => 0
    case Node(_, l, r, _) => 1 + if Height(l) < Height(r) then Height(r) else Height(l)
  }

  predicate Balanced(t: Tree) {
    match t
    case Leaf => true
    case Node(size, l, r, _) =>
      && Balanced(l) && Balanced(r)
      && 0 <= SizeOf(l) - SizeOf(r) <= 1
      && size == 1 + SizeOf(l) + SizeOf(r)
  }

  function Pow2(n: nat): nat {
    if n == 0 then 1 else 2 * Pow2(n - 1)
  }

  lemma {:induction false} Pow2Monotone(m: nat, n: nat)
    requires m <= n
    ensures 1 <= Pow2(m) <= Pow2(n)
  {
    if m < n {
      Pow2Monotone(m, n - 1);
    } else if n > 0 {
      Pow2Monotone(m - 1, n - 1);
    }
  }

  lemma {:induction false} PushKeepsBalance(t: Tree, x: Item)
    requires Balanced(t)
    ensures Balanced(Push(t, x)) && SizeOf(Push(t, x)) == SizeOf(t) + 1
  {
    match t
    case Leaf =>
    case Node(_, l, r, y) =>
      var drop := if OutRanks(x, y) then y else x;
      PushKeepsBalance(l, drop);
      PushKeepsBalance(r, drop);
      BalancedSize(l);
      BalancedSize(r);
  }

  lemma {:induction false} BalancedSize(t: Tree)
    requires Balanced(t)
    ensures SizeOf(t) >= 0 && (SizeOf(t) == 0 <==> t.Leaf?)
  {
    if t.Node? {
      BalancedSize(t.left);
      BalancedSize(t.right);
    }
  }

  /** A balanced tree of `n` nodes has the height of a complete one. */
  lemma {:induction false} BalancedHeight(t: Tree)
    requires Balanced(t)
    ensures t.Node? ==> Height(t) >= 1 && Pow2(Height(t) - 1) <= t.size
    ensures SizeOf(t) < Pow2(Height(t))
  {
    match t
    case Leaf =>
    case Node(_, l, r, _) =>
      BalancedHeight(l);
      BalancedHeight(r);
      BalancedSize(l);
      BalancedSize(r);
      if Height(l) < Height(r) {
        Pow2Monotone(Height(l), Height(r) - 1);
      }
  }

  lemma {:induction false} PushAllKeepsBalance(t: Tree, xs: seq<Item>)
    requires Balanced(t)
    ensures Balanced(PushAll(t, xs)) && SizeOf(PushAll(t, xs)) == SizeOf(t) + |xs|
    decreases |xs|
  {
    if xs != [] {
      PushKeepsBalance(t, xs[0]);
      PushAllKeepsBalance(Push(t, xs[0]), xs[1..]);
    }
  }

  lemma AddFirst(m: multiset<Item>, xs: seq<Item>)
    requires xs != []
    ensures (m + multiset{xs[0]}) + multiset(xs[1..]) == m + multiset(xs)
  {
    assert xs == [xs[0]] + xs[1..];
  }

  lemma {:induction false} PushAllInserts(t: Tree, xs: seq<Item>)
    requires CheckNodes(t)
    ensures CheckNodes(PushAll(t, xs)) && Contents(PushAll(t, xs)) == Contents(t) + multiset(xs)
    decreases |xs|
  {
    if xs != [] {
      PushKeepsOrder(t, xs[0]);
      PushInserts(t, xs[0]);
      PushAllInserts(Push(t, xs[0]), xs[1..]);
      AddFirst(Contents(t), xs);
    }
  }

  /** Whatever the ranks, `n` pushes build a tree of height floor(log2 n) + 1. */
  lemma PushOnlyHeapHeight(xs: seq<Item>)
    requires xs != []
    ensures var b := PushAll(Leaf, xs);
            && Balanced(b) && b.Node? && b.size == |xs|
            && Height(b) >= 1 && Pow2(Height(b) - 1) <= |xs| < Pow2(Height(b))
  {
    PushAllKeepsBalance(Leaf, xs);
    BalancedSize(PushAll(Leaf, xs));
    BalancedHeight(PushAll(Leaf, xs));
  }
}

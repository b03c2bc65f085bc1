/** The pointer heap of gps/utils/LocHeap.cpp. Nodes are updated in place; every method
    is proved against the tree functions of HeapTree. */
module PointerHeap {
  import opened HeapTree
  import opened Options

  class LocHeapNode {
    var mSize: int
    var mLeft: LocHeapNode?
    var mRight: LocHeapNode?
    var mData: Item
    ghost var Repr: set<LocHeapNode>
    ghost var Below: Tree  // the tree this node is the top of

    ghost predicate Valid()
      reads this, Repr
      decreases Repr
    {
      && this in Repr
      && (mLeft != null ==> mLeft in Repr && mLeft.Repr <= Repr && this !in mLeft.Repr && mLeft.Valid())
      && (mRight != null ==> mRight in Repr && mRight.Repr <= Repr && this !in mRight.Repr && mRight.Valid())
      && (mLeft != null && mRight != null ==> mLeft.Repr !! mRight.Repr)
      && Below == Node(mSize, TreeOf(mLeft), TreeOf(mRight), mData)
    }

    ghost predicate IsSingle()
      reads this, Repr
    {
      Valid() && Repr == {this} && Below == Single(mData)
    }

    constructor (data: Item)
      ensures IsSingle() && fresh(this) && mData == data
    {
      mSize, mLeft, mRight, mData := 1, null, null, data;
      Repr, Below := {this}, Single(data);
    }

    method push(node: LocHeapNode)
      requires Valid() && node.IsSingle() && node !in Repr
      modifies Repr, node
      ensures Valid() && Repr == old(Repr) + {node}
      ensures Below == Push(old(Below), old(node.mData))
      decreases Repr, 1
    {
      if OutRanks(node.mData, mData) {
        mData, node.mData := node.mData, mData;
        Below, node.Below := Below.(data := mData), Single(node.mData);
      }
      pushBelow(node);
    }

    /** Drops a node that does not outrank this one into a subtree. */
    method pushBelow(node: LocHeapNode)
      requires Valid() && node.IsSingle() && node !in Repr && !OutRanks(node.mData, mData)
      modifies Repr, node
      ensures Valid() && Repr == old(Repr) + {node}
      ensures Below == Push(old(Below), old(node.mData))
      decreases Repr, 0
    {
      if mLeft == null {
        mLeft := node;
      } else if mRight == null {
        mRight := node;
      } else if mLeft.mSize <= mRight.mSize {
        mLeft.push(node);
      } else {
        mRight.push(node);
      }
      mSize := mSize + 1;
      Repr := Repr + {node};
      Below := Node(mSize, TreeOf(mLeft), TreeOf(mRight), mData);
    }

    /** Takes the top object out; the node that leaves the tree comes from its bottom. */
    static method pop(top: LocHeapNode) returns (newTop: LocHeapNode?, popped: LocHeapNode)
      requires top.Valid()
      modifies top.Repr
      ensures popped.mData == old(top.mData) && popped in old(top.Repr)
      ensures newTop == null || (newTop == top && top.Valid() && top.Repr <= old(top.Repr))
      ensures TreeOf(newTop) == Pop(old(top.Below))
      decreases top.Repr, 1
    {
      top.mSize, top.Below := top.mSize - 1, top.Below.(size := top.mSize - 1);
      newTop := top;
      if top.mLeft == null && top.mRight == null {
        newTop, popped := null, top;
      } else if top.mLeft != null && (top.mRight == null || OutRanks(top.mLeft.mData, top.mRight.mData)) {
        popped := top.popLeft();
      } else {
        popped := top.popRight();
      }
    }

    /** The left child hands its data up and is popped in turn, carrying the old top data. */
    method popLeft() returns (popped: LocHeapNode)
      requires Valid() && mLeft != null
      modifies Repr
      ensures popped.mData == old(mData) && popped in old(Repr)
      ensures Valid() && Repr <= old(Repr) && old(Below).left.Node?
      ensures Below == Node(mSize, Pop(old(Below).left), old(Below).right, old(Below).left.data)
      ensures mSize == old(mSize)
      decreases Repr, 0
    {
      var sub := mLeft;
      mData, sub.mData, sub.Below := sub.mData, mData, sub.Below.(data := mData);
      assert sub.Valid();
      mLeft, popped := pop(sub);
      Below := Node(mSize, TreeOf(mLeft), TreeOf(mRight), mData);
    }

    method popRight() returns (popped: LocHeapNode)
      requires Valid() && mRight != null
      modifies Repr
      ensures popped.mData == old(mData) && popped in old(Repr)
      ensures Valid() && Repr <= old(Repr) && old(Below).right.Node?
      ensures Below == Node(mSize, old(Below).left, Pop(old(Below).right), old(Below).right.data)
      ensures mSize == old(mSize)
      decreases Repr, 0
    {
      var sub := mRight;
      mData, sub.mData, sub.Below := sub.mData, mData, sub.Below.(data := mData);
      assert sub.Valid();
      mRight, popped := pop(sub);
      Below := Node(mSize, TreeOf(mLeft), TreeOf(mRight), mData);
    }

    /** Searches for `data` by address and takes it out; `removed` is null if the search fails. */
    static method remove(top: LocHeapNode, data: Item)
      returns (newTop: LocHeapNode?, removed: LocHeapNode?)
      requires top.Valid()
      modifies top.Repr
      ensures removed != null <==> Removes(old(top.Below), data)
      ensures removed != null ==> removed in old(top.Repr) && removed.mData.addr == data.addr
      ensures newTop == null || (newTop == top && top.Valid() && top.Repr <= old(top.Repr))
      ensures TreeOf(newTop) == Remove(old(top.Below), data)
      decreases top.Repr, 1
    {
      if top.mData.addr == data.addr {
        newTop, removed := pop(top);
      } else {
        newTop, removed := top, null;
        if !OutRanks(data, top.mData) {
          RemoveMisses(TreeOf(top.mLeft), data);
          if top.mLeft != null {
            removed := top.removeLeft(data);
          }
          if removed == null && top.mRight != null {
            removed := top.removeRight(data);
          }
          if removed != null {
            top.mSize, top.Below := top.mSize - 1, top.Below.(size := top.mSize - 1);
          }
        }
      }
    }

    method removeLeft(data: Item) returns (removed: LocHeapNode?)
      requires Valid() && mLeft != null
      modifies Repr
      ensures removed != null <==> Removes(old(Below).left, data)
      ensures removed != null ==> removed in old(Repr) && removed.mData.addr == data.addr
      ensures Valid() && Repr == old(Repr) && mRight == old(mRight) && mSize == old(mSize)
      ensures Below == old(Below).(left := Remove(old(Below).left, data))
      decreases Repr, 0
    {
      mLeft, removed := remove(mLeft, data);
      Below := Node(mSize, TreeOf(mLeft), TreeOf(mRight), mData);
    }

    method removeRight(data: Item) returns (removed: LocHeapNode?)
      requires Valid() && mRight != null
      modifies Repr
      ensures removed != null <==> Removes(old(Below).right, data)
      ensures removed != null ==> removed in old(Repr) && removed.mData.addr == data.addr
      ensures Valid() && Repr == old(Repr) && mSize == old(mSize)
      ensures Below == old(Below).(right := Remove(old(Below).right, data))
      decreases Repr, 0
    {
      mRight, removed := remove(mRight, data);
      Below := Node(mSize, TreeOf(mLeft), TreeOf(mRight), mData);
    }
  }

  ghost function TreeOf(n: LocHeapNode?): Tree
    reads n
  {
    if n == null then Leaf else n.Below
  }

  /** A heap whose objects are sorted from parent to child only. */
  class LocHeap {
    var mTree: LocHeapNode?

    ghost predicate Valid()
      reads this, mTree, if mTree == null then {} else mTree.Repr
    {
      (mTree != null ==> mTree.Valid()) && CheckNodes(Tree())
    }

    ghost function Tree(): Tree
      reads this, mTree
    {
      TreeOf(mTree)
    }

    ghost function Footprint(): set<LocHeapNode>
      reads this, mTree
    {
      if mTree == null then {} else mTree.Repr
    }

    constructor ()
      ensures Valid() && Tree() == Leaf && Footprint() == {}
    {
      mTree := null;
    }

    method push(node: Item)
      requires Valid()
      modifies this, Footprint()
      ensures Valid() && fresh(Footprint() - old(Footprint()))
      ensures Tree() == Push(old(Tree()), node)
      ensures Contents(Tree()) == Contents(old(Tree())) + multiset{node}
    {
      PushKeepsOrder(Tree(), node);
      PushInserts(Tree(), node);
      pushNode(node);
    }

    method pushNode(node: Item)
      requires mTree != null ==> mTree.Valid()
      modifies this, Footprint()
      ensures mTree != null && mTree.Valid() && fresh(Footprint() - old(Footprint()))
      ensures Tree() == Push(old(Tree()), node)
    {
      var heapNode := new LocHeapNode(node);
      if mTree == null {
        mTree := heapNode;
      } else {
        mTree.push(heapNode);
      }
    }

    method peek() returns (top: Option<Item>)
      requires Valid()
      ensures top == Top(Tree())
      ensures top.None? <==> Contents(Tree()) == multiset{}
      ensures top.Some? ==> top.value in Contents(Tree()) && forall y | y in Contents(Tree()) :: !OutRanks(y, top.value)
    {
      top := None;
      if mTree != null {
        top := Some(mTree.mData);
        TopRanksHighest(Tree());
      }
    }

    method pop() returns (top: Option<Item>)
      requires Valid()
      modifies this, Footprint()
      ensures Valid() && Footprint() <= old(Footprint())
      ensures top == Top(old(Tree()))
      ensures Tree() == if old(Tree()).Leaf? then Leaf else Pop(old(Tree()))
      ensures top.Some? ==> Contents(old(Tree())) == Contents(Tree()) + multiset{top.value}
    {
      top := None;
      if mTree != null {
        PopKeepsOrder(Tree());
        PopDeletesTop(Tree());
        var rest, heapNode := LocHeapNode.pop(mTree);
        mTree, top := rest, Some(heapNode.mData);
      }
    }

    method remove(rankable: Item) returns (found: bool)
      requires Valid() && Identified(Tree(), rankable)
      modifies this, Footprint()
      ensures Valid() && Footprint() <= old(Footprint())
      ensures Tree() == Remove(old(Tree()), rankable)
      ensures found <==> rankable in Contents(old(Tree()))
      ensures found ==> Contents(old(Tree())) == Contents(Tree()) + multiset{rankable}
      ensures !found ==> Tree() == old(Tree())
    {
      RemoveIsDelete(Tree(), rankable);
      found := removeNode(rankable);
    }

    method removeNode(rankable: Item) returns (found: bool)
      requires Valid()
      modifies this, Footprint()
      ensures Footprint() <= old(Footprint()) && (mTree != null ==> mTree.Valid())
      ensures Tree() == Remove(old(Tree()), rankable) && (found <==> Removes(old(Tree()), rankable))
    {
      found := false;
      if mTree != null {
        var rest, heapNode := LocHeapNode.remove(mTree, rankable);
        mTree, found := rest, heapNode != null;
      }
    }
  }
}

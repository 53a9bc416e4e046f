/** The heap of gps/utils/LocHeap.cpp as it is in memory: nodes that own their two subtrees and
    swap their data in place. Each method is proved to compute the value that HeapModel gives. */
module LocHeaps {
  import opened HeapModel
  import opened HeapRuns

  /** A node. `data` stands for the address of a rankable object: equal data is the same object. */
  class LocHeapNode<T(==)> {
    var mSize: int
    var mLeft: LocHeapNode?<T>
    var mRight: LocHeapNode?<T>
    var mData: T
    ghost var tree: Tree<T>
    ghost var Repr: set<object>

    ghost predicate Valid()
      reads this, Repr
      ensures Valid() ==> this in Repr
    {
      && this in Repr
      && (mLeft != null ==> mLeft in Repr && mLeft.Repr <= Repr && this !in mLeft.Repr && mLeft.Valid())
      && (mRight != null ==> mRight in Repr && mRight.Repr <= Repr && this !in mRight.Repr && mRight.Valid())
      && (mLeft != null && mRight != null ==> mLeft.Repr !! mRight.Repr)
      && Repr == {this} + ReprOf(mLeft) + ReprOf(mRight)
      && tree == Node(mSize, mData, TreeOf(mLeft), TreeOf(mRight))
    }

    /** What validity says one level deep. */
    lemma Parts()
      requires Valid()
      ensures Repr == {this} + ReprOf(mLeft) + ReprOf(mRight)
      ensures tree == Node(mSize, mData, TreeOf(mLeft), TreeOf(mRight))
      ensures mLeft != null ==>
                && mLeft in Repr && mLeft.Repr <= Repr && this !in mLeft.Repr && mLeft in mLeft.Repr
                && mLeft.Valid() && mLeft.tree.Node?
                && mLeft.tree.size == mLeft.mSize && mLeft.tree.data == mLeft.mData
      ensures mRight != null ==>
                && mRight in Repr && mRight.Repr <= Repr && this !in mRight.Repr && mRight in mRight.Repr
                && mRight.Valid() && mRight.tree.Node?
                && mRight.tree.size == mRight.mSize && mRight.tree.data == mRight.mData
      ensures mLeft != null && mRight != null ==> mLeft.Repr !! mRight.Repr
    {
    }

    /** Brings the ghost fields up to date once both subtrees are in order again. */
    ghost method Restore()
      requires mLeft != null ==> mLeft.Valid() && this !in mLeft.Repr
      requires mRight != null ==> mRight.Valid() && this !in mRight.Repr
      requires mLeft != null && mRight != null ==> mLeft.Repr !! mRight.Repr
      modifies this`tree, this`Repr
      ensures Valid() && Repr == {this} + ReprOf(mLeft) + ReprOf(mRight)
      ensures tree == Node(mSize, mData, TreeOf(mLeft), TreeOf(mRight))
    {
      tree := Node(mSize, mData, TreeOf(mLeft), TreeOf(mRight));
      Repr := {this} + ReprOf(mLeft) + ReprOf(mRight);
    }

    /** Its subtree has gained or lost nodes. */
    method Resize(change: int)
      requires Valid() && tree.Node?
      modifies this`mSize, this`tree, this`Repr
      ensures Valid() && Repr == old(Repr) && tree == old(tree).(size := old(tree).size + change)
    {
      hide Valid;
      Parts();
      mSize := mSize + change;
      Restore();
    }

    constructor (data: T)
      ensures Valid() && fresh(Repr) && Repr == {this}
      ensures tree == Single(data)
      ensures mLeft == null && mRight == null && mSize == 1 && mData == data
    {
      mSize, mLeft, mRight, mData := 1, null, null, data;
      tree := Single(data);
      Repr := {this};
    }

    /** Keeps the higher of the two data here, and leaves the lower one in the new node. */
    method SwapIfHigher(outranks: Order<T>, node: LocHeapNode<T>)
      requires node != this && node.mLeft == null && node.mRight == null && node.mSize == 1
      modifies this`mData, node`mData, node`tree, node`Repr
      ensures mData == if outranks(old(node.mData), old(mData)) then old(node.mData) else old(mData)
      ensures node.mData == if outranks(old(node.mData), old(mData)) then old(mData) else old(node.mData)
      ensures node.Valid() && node.Repr == {node} && node.tree == Single(node.mData)
    {
      if outranks(node.mData, mData) {
        mData, node.mData := node.mData, mData;
      }
      node.Restore();
    }

    /** Drops a node without children into this subtree. */
    method Push(outranks: Order<T>, node: LocHeapNode<T>)
      requires Valid() && node !in Repr
      requires node.mLeft == null && node.mRight == null && node.mSize == 1
      modifies Repr, node
      ensures Valid() && Repr == old(Repr) + {node}
      ensures tree == Insert(outranks, old(tree), old(node.mData))
      decreases Repr, 1
    {
      hide HeapModel.Insert, Valid;
      Parts();
      InsertCases(outranks, tree, node.mData);
      SwapIfHigher(outranks, node);
      Restore();
      PushBelow(outranks, node);
    }

    /** Drops a node that does not outrank this one into the smaller subtree. */
    method PushBelow(outranks: Order<T>, node: LocHeapNode<T>)
      requires Valid() && tree.Node? && node !in Repr
      requires node.mLeft == null && node.mRight == null && node.mSize == 1
      requires node.Valid() && node.Repr == {node} && node.tree == Single(node.mData)
      modifies Repr, node
      ensures Valid() && Repr == old(Repr) + {node}
      ensures var t, x := old(tree), old(node.mData);
              tree == if t.left.Empty? then Node(t.size + 1, t.data, Single(x), t.right)
                      else if t.right.Empty? then Node(t.size + 1, t.data, t.left, Single(x))
                      else if t.left.size <= t.right.size
                      then Node(t.size + 1, t.data, Insert(outranks, t.left, x), t.right)
                      else Node(t.size + 1, t.data, t.left, Insert(outranks, t.right, x))
      decreases Repr, 0
    {
      hide HeapModel.Insert, Valid;
      Parts();
      if mLeft == null {
        mLeft := node;
      } else if mRight == null {
        mRight := node;
      } else if mLeft.mSize <= mRight.mSize {
        mLeft.Push(outranks, node);
      } else {
        mRight.Push(outranks, node);
      }
      Restore();
      Resize(1);
    }

    /** Whether this subtree is ordered and its recorded sizes are right. */
    method CheckNodes(outranks: Order<T>) returns (ok: bool)
      requires Valid()
      ensures ok <==> tree.Ordered(outranks) && tree.SizesExact()
      decreases Repr
    {
      CheckNodesIsExact(outranks, tree);
      var totalSize := mSize;
      if mLeft != null {
        CheckNodesIsExact(outranks, mLeft.tree);
        if outranks(mLeft.mData, mData) {
          return false;
        }
        var sub := mLeft.CheckNodes(outranks);
        if !sub {
          return false;
        }
        totalSize := totalSize - mLeft.mSize;
      }
      if mRight != null {
        CheckNodesIsExact(outranks, mRight.tree);
        if outranks(mRight.mData, mData) {
          return false;
        }
        var sub := mRight.CheckNodes(outranks);
        if !sub {
          return false;
        }
        totalSize := totalSize - mRight.mSize;
      }
      return totalSize == 1;
    }
  }

  /** One level of an insertion. */
  lemma InsertCases<T>(outranks: Order<T>, t: Tree<T>, x: T)
    requires t.Node?
    ensures var high := if outranks(x, t.data) then x else t.data;
            var low := if outranks(x, t.data) then t.data else x;
            var left := if t.left.Empty? then Single(low) else Insert(outranks, t.left, low);
            var right := if t.right.Empty? then Single(low) else Insert(outranks, t.right, low);
            Insert(outranks, t, x) ==
              if t.left.Empty? || (t.right.Node? && t.left.size <= t.right.size) then
                Node(t.size + 1, high, left, t.right)
              else
                Node(t.size + 1, high, t.left, right)
  {
  }

  /** One level of a pop. */
  lemma PopCases<T>(outranks: Order<T>, t: Tree<T>)
    requires t.Node?
    ensures Pop(outranks, t) ==
            if t.left.Empty? && t.right.Empty? then Empty
            else if LeftMovesUp(outranks, t) then
              Node(t.size - 1, t.left.data, Pop(outranks, t.left), t.right)
            else
              Node(t.size - 1, t.right.data, t.left, Pop(outranks, t.right))
  {
  }

  lemma PopIgnoresTop<T>(outranks: Order<T>, t: Tree<T>, x: T)
    requires t.Node?
    ensures Pop(outranks, t.(data := x)) == Pop(outranks, t)
  {
  }

  /** One level of a search. */
  lemma RemoveCases<T>(outranks: Order<T>, t: Tree<T>, x: T)
    requires t.Node?
    ensures var inLeft, inRight := Remove(outranks, t.left, x), Remove(outranks, t.right, x);
            Remove(outranks, t, x) ==
              if x == t.data then (true, Pop(outranks, t))
              else if outranks(x, t.data) then (false, t)
              else if inLeft.0 then (true, Node(t.size - 1, t.data, inLeft.1, t.right))
              else if inRight.0 then (true, Node(t.size - 1, t.data, t.left, inRight.1))
              else (false, t)
  {
  }

  lemma RemoveFromEmpty<T>(outranks: Order<T>, x: T)
    ensures Remove(outranks, Empty, x) == (false, Empty)
  {
  }

  lemma RemoveAbsent<T>(outranks: Order<T>, t: Tree<T>, x: T)
    ensures !Remove(outranks, t, x).0 ==> Remove(outranks, t, x).1 == t
  {
  }

  ghost function TreeOf<T>(n: LocHeapNode?<T>): Tree<T>
    reads n
  {
    if n == null then Empty else n.tree
  }

  ghost function ReprOf<T>(n: LocHeapNode?<T>): set<object>
    reads n
  {
    if n == null then {} else n.Repr
  }

  /** Pops the top element: the data moves up along one path, and the leaf at its end is unlinked
      and carries the popped data away. `top'` is what the reference to the top holds afterwards. */
  method PopNode<T>(outranks: Order<T>, top: LocHeapNode<T>) returns (top': LocHeapNode?<T>, popped: LocHeapNode<T>)
    requires top.Valid()
    modifies top.Repr
    ensures popped in old(top.Repr) && popped.mData == old(top.mData)
    ensures top' == null || (top' == top && top.Valid())
    ensures ReprOf(top') == old(top.Repr) - {popped}
    ensures popped.mLeft == null && popped.mRight == null
    ensures TreeOf(top') == Pop(outranks, old(top.tree))
    decreases top.Repr, 1
  {
    hide HeapModel.Pop, LocHeapNode.Valid;
    top.Parts();
    PopCases(outranks, top.tree);
    top' := top;
    if top.mLeft == null && top.mRight == null {
      top.mSize := top.mSize - 1;
      popped := top;
      top' := null;
    } else if top.mLeft != null && (top.mRight == null || outranks(top.mLeft.mData, top.mRight.mData)) {
      popped := PopLeft(outranks, top);
    } else {
      popped := PopRight(outranks, top);
    }
  }

  method PopLeft<T>(outranks: Order<T>, top: LocHeapNode<T>) returns (popped: LocHeapNode<T>)
    requires top.Valid() && top.mLeft != null
    requires top.tree.Node? && top.tree.left.Node? && LeftMovesUp(outranks, top.tree)
    modifies top.Repr
    ensures popped in old(top.Repr) && popped.mData == old(top.mData)
    ensures top.Valid() && top.Repr == old(top.Repr) - {popped}
    ensures popped.mLeft == null && popped.mRight == null
    ensures top.tree == Pop(outranks, old(top.tree))
    decreases top.Repr, 0
  {
    hide HeapModel.Pop, LocHeapNode.Valid;
    top.Parts();
    PopCases(outranks, top.tree);
    top.mSize := top.mSize - 1;
    var rest;
    rest, popped := SwapAndPop(outranks, top, top.mLeft);
    top.mLeft := rest;
    top.Restore();
  }

  method PopRight<T>(outranks: Order<T>, top: LocHeapNode<T>) returns (popped: LocHeapNode<T>)
    requires top.Valid() && top.mRight != null
    requires top.tree.Node? && top.tree.right.Node? && !LeftMovesUp(outranks, top.tree)
    modifies top.Repr
    ensures popped in old(top.Repr) && popped.mData == old(top.mData)
    ensures top.Valid() && top.Repr == old(top.Repr) - {popped}
    ensures popped.mLeft == null && popped.mRight == null
    ensures top.tree == Pop(outranks, old(top.tree))
    decreases top.Repr, 0
  {
    hide HeapModel.Pop, LocHeapNode.Valid;
    top.Parts();
    PopCases(outranks, top.tree);
    top.mSize := top.mSize - 1;
    var rest;
    rest, popped := SwapAndPop(outranks, top, top.mRight);
    top.mRight := rest;
    top.Restore();
  }

  /** Exchanges data with the chosen child, then pops that child. */
  method SwapAndPop<T>(outranks: Order<T>, top: LocHeapNode<T>, sub: LocHeapNode<T>)
    returns (rest: LocHeapNode?<T>, popped: LocHeapNode<T>)
    requires sub.Valid() && top !in sub.Repr
    modifies top`mData, sub.Repr
    ensures popped in old(sub.Repr) && popped.mData == old(top.mData)
    ensures top.mData == old(sub.mData)
    ensures rest == null || (rest == sub && sub.Valid())
    ensures ReprOf(rest) == old(sub.Repr) - {popped}
    ensures popped.mLeft == null && popped.mRight == null
    ensures old(sub.tree).Node? && TreeOf(rest) == Pop(outranks, old(sub.tree))
    decreases sub.Repr, 2
  {
    hide HeapModel.Pop, LocHeapNode.Valid;
    sub.Parts();
    PopIgnoresTop(outranks, sub.tree, top.mData);
    top.mData, sub.mData := sub.mData, top.mData;
    sub.Restore();
    rest, popped := PopNode(outranks, sub);
  }

  /** Searches for `data` and unlinks it; `removed` is null when it is not found. */
  method RemoveNode<T(==)>(outranks: Order<T>, top: LocHeapNode<T>, data: T)
    returns (top': LocHeapNode?<T>, removed: LocHeapNode?<T>)
    requires top.Valid()
    modifies top.Repr
    ensures removed != null ==>
              removed in old(top.Repr) && removed.mData == data && removed.mLeft == null && removed.mRight == null
    ensures top' == null || (top' == top && top.Valid())
    ensures ReprOf(top') == if removed == null then old(top.Repr) else old(top.Repr) - {removed}
    ensures Remove(outranks, old(top.tree), data) == (removed != null, TreeOf(top'))
    decreases top.Repr, 2
  {
    hide HeapModel.Remove, LocHeapNode.Valid;
    top.Parts();
    RemoveCases(outranks, top.tree, data);
    removed := null;
    top' := top;
    if data == top.mData {
      top', removed := PopNode(outranks, top);
    } else if !outranks(data, top.mData) {
      removed := RemoveBelow(outranks, top, data);
    }
  }

  method RemoveLeft<T(==)>(outranks: Order<T>, top: LocHeapNode<T>, data: T) returns (removed: LocHeapNode?<T>)
    requires top.Valid() && top.tree.Node?
    modifies top.Repr
    ensures removed != null ==>
              removed in old(top.Repr) && removed.mData == data && removed.mLeft == null && removed.mRight == null
    ensures top.Valid() && top.Repr == if removed == null then old(top.Repr) else old(top.Repr) - {removed}
    ensures var t, found := old(top.tree), Remove(outranks, old(top.tree).left, data);
            found.0 == (removed != null) && top.tree == Node(t.size, t.data, found.1, t.right)
    decreases top.Repr, 0
  {
    hide HeapModel.Remove, LocHeapNode.Valid;
    top.Parts();
    RemoveFromEmpty(outranks, data);
    removed := null;
    if top.mLeft != null {
      var sub;
      sub, removed := RemoveNode(outranks, top.mLeft, data);
      top.mLeft := sub;
    }
    top.Restore();
  }

  method RemoveRight<T(==)>(outranks: Order<T>, top: LocHeapNode<T>, data: T) returns (removed: LocHeapNode?<T>)
    requires top.Valid() && top.tree.Node?
    modifies top.Repr
    ensures removed != null ==>
              removed in old(top.Repr) && removed.mData == data && removed.mLeft == null && removed.mRight == null
    ensures top.Valid() && top.Repr == if removed == null then old(top.Repr) else old(top.Repr) - {removed}
    ensures var t, found := old(top.tree), Remove(outranks, old(top.tree).right, data);
            found.0 == (removed != null) && top.tree == Node(t.size, t.data, t.left, found.1)
    decreases top.Repr, 0
  {
    hide HeapModel.Remove, LocHeapNode.Valid;
    top.Parts();
    RemoveFromEmpty(outranks, data);
    removed := null;
    if top.mRight != null {
      var sub;
      sub, removed := RemoveNode(outranks, top.mRight, data);
      top.mRight := sub;
    }
    top.Restore();
  }

  /** The search in the two subtrees, the right one only when the left one does not have it. */
  method RemoveBelow<T(==)>(outranks: Order<T>, top: LocHeapNode<T>, data: T) returns (removed: LocHeapNode?<T>)
    requires top.Valid() && data != top.mData && !outranks(data, top.mData)
    modifies top.Repr
    ensures removed != null ==>
              removed in old(top.Repr) && removed.mData == data && removed.mLeft == null && removed.mRight == null
    ensures top.Valid() && top.Repr == if removed == null then old(top.Repr) else old(top.Repr) - {removed}
    ensures Remove(outranks, old(top.tree), data) == (removed != null, top.tree)
    decreases top.Repr, 1
  {
    hide HeapModel.Remove, LocHeapNode.Valid;
    top.Parts();
    RemoveCases(outranks, top.tree, data);
    RemoveAbsent(outranks, top.tree.left, data);
    RemoveAbsent(outranks, top.tree.right, data);
    removed := RemoveLeft(outranks, top, data);
    if removed == null {
      removed := RemoveRight(outranks, top, data);
    }
    if removed != null {
      top.Resize(-1);
    }
  }

  /** The heap: a possibly missing top node. */
  class LocHeap<T(==)> {
    const outranks: Order<T>
    var mTree: LocHeapNode?<T>

    ghost predicate Valid()
      reads this, mTree, ReprOf(mTree)
    {
      mTree != null ==> mTree.Valid() && mTree.tree.Node? && this !in mTree.Repr
    }

    ghost function Model(): Tree<T>
      reads this, mTree
    {
      TreeOf(mTree)
    }

    constructor (outranks: Order<T>)
      ensures Valid() && Model() == Empty && mTree == null
      ensures this.outranks == outranks
    {
      this.outranks := outranks;
      mTree := null;
    }

    method Push(x: T)
      requires Valid()
      modifies this, ReprOf(mTree)
      ensures Valid() && fresh(ReprOf(mTree) - old(ReprOf(mTree)))
      ensures Model() == HeapModel.Push(outranks, old(Model()), x)
    {
      var heapNode := new LocHeapNode(x);
      if mTree == null {
        mTree := heapNode;
      } else {
        mTree.Push(outranks, heapNode);
      }
    }

    method Peek() returns (top: Option<T>)
      requires Valid()
      ensures top == if Model().Empty? then None else Some(Model().data)
    {
      top := if mTree == null then None else Some(mTree.mData);
    }

    method Pop() returns (top: Option<T>)
      requires Valid()
      modifies this, ReprOf(mTree)
      ensures Valid() && ReprOf(mTree) <= old(ReprOf(mTree))
      ensures (top, Model()) == Apply(outranks, old(Model()), DoPop)
    {
      top := None;
      if mTree != null {
        var rest, heapNode := PopNode(outranks, mTree);
        mTree := rest;
        top := Some(heapNode.mData);
      }
    }

    method Remove(x: T) returns (removed: Option<T>)
      requires Valid()
      modifies this, ReprOf(mTree)
      ensures Valid() && ReprOf(mTree) <= old(ReprOf(mTree))
      ensures (removed, Model()) == Apply(outranks, old(Model()), DoRemove(x))
    {
      removed := None;
      if mTree != null {
        var rest, heapNode := RemoveNode(outranks, mTree, x);
        mTree := rest;
        if heapNode != null {
          removed := Some(heapNode.mData);
        }
      }
    }

    method CheckTree() returns (ok: bool)
      requires Valid()
      ensures ok <==> Model().Ordered(outranks) && Model().SizesExact()
    {
      ok := true;
      if mTree != null {
        ok := mTree.CheckNodes(outranks);
      }
    }
  }
}

/** The heap of gps/utils/LocHeap.cpp as a mathematical tree: the value each of its operations
    computes, and what those values mean. The mutable nodes that hold it are in LocHeap.dfy. */
module HeapModel {

  /** `outranks(a, b)` says that a belongs above b. */
  type Order<!T> = (T, T) -> bool

  /** What a heap needs of its ranking: no two elements outrank each other, and an element
      that outranks another is comparable to everything in between. */
  ghost predicate StrictWeak<T(!new)>(outranks: Order<T>) {
    && (forall a, b :: outranks(a, b) ==> !outranks(b, a))
    && (forall a, b, c :: Between(outranks, a, b, c))
  }

  ghost predicate Between<T>(outranks: Order<T>, a: T, b: T, c: T) {
    outranks(a, c) ==> outranks(a, b) || outranks(b, c)
  }

  /** A subtree, with the size its top node records. */
  datatype Tree<T> = Empty | Node(size: int, data: T, left: Tree<T>, right: Tree<T>) {
    /** The recorded size, which for a missing subtree counts as zero. */
    function Size(): int {
      if Empty? then 0 else size
    }

    /** The number of nodes there really are. */
    function Count(): nat {
      if Empty? then 0 else 1 + left.Count() + right.Count()
    }

    ghost function Contents(): multiset<T> {
      if Empty? then multiset{} else multiset{data} + left.Contents() + right.Contents()
    }

    /** Every node records the number of nodes of its subtree. */
    ghost predicate SizesExact() {
      Node? ==> size == Count() && left.SizesExact() && right.SizesExact()
    }

    /** No child outranks its parent: sorted vertically, not between siblings. */
    ghost predicate Ordered(outranks: Order<T>) {
      Node? ==>
        && (left.Node? ==> !outranks(left.data, data)) && left.Ordered(outranks)
        && (right.Node? ==> !outranks(right.data, data)) && right.Ordered(outranks)
    }
  }

  function Single<T>(x: T): Tree<T> {
    Node(1, x, Empty, Empty)
  }

  /** Adding `x` below (or on top of) an existing top: the lower of the two goes to the first
      missing child, else to the child that records the smaller size, the left one on a tie. */
  function Insert<T>(outranks: Order<T>, t: Tree<T>, x: T): (r: Tree<T>)
    requires t.Node?
    ensures r.Node?
  {
    var high := if outranks(x, t.data) then x else t.data;
    var low := if outranks(x, t.data) then t.data else x;
    if t.left.Empty? then
      Node(t.size + 1, high, Single(low), t.right)
    else if t.right.Empty? then
      Node(t.size + 1, high, t.left, Single(low))
    else if t.left.size <= t.right.size then
      Node(t.size + 1, high, Insert(outranks, t.left, low), t.right)
    else
      Node(t.size + 1, high, t.left, Insert(outranks, t.right, low))
  }

  function Push<T>(outranks: Order<T>, t: Tree<T>, x: T): Tree<T> {
    if t.Empty? then Single(x) else Insert(outranks, t, x)
  }

  /** Which child's element moves up when the top leaves. */
  predicate LeftMovesUp<T>(outranks: Order<T>, t: Tree<T>)
    requires t.Node? && (t.left.Node? || t.right.Node?)
  {
    t.left.Node? && (t.right.Empty? || outranks(t.left.data, t.right.data))
  }

  /** The tree left when the top element is popped. */
  function Pop<T>(outranks: Order<T>, t: Tree<T>): (r: Tree<T>)
    requires t.Node?
    ensures r.Count() == t.Count() - 1
  {
    if t.left.Empty? && t.right.Empty? then
      Empty
    else if LeftMovesUp(outranks, t) then
      Node(t.size - 1, t.left.data, Pop(outranks, t.left), t.right)
    else
      Node(t.size - 1, t.right.data, t.left, Pop(outranks, t.right))
  }

  /** The search for `x`: whether it was found, and the tree without it. Subtrees whose top `x`
      outranks are skipped. */
  function Remove<T(==)>(outranks: Order<T>, t: Tree<T>, x: T): (bool, Tree<T>) {
    if t.Empty? then
      (false, t)
    else if x == t.data then
      (true, Pop(outranks, t))
    else if outranks(x, t.data) then
      (false, t)
    else
      var (inLeft, left') := Remove(outranks, t.left, x);
      if inLeft then
        (true, Node(t.size - 1, t.data, left', t.right))
      else
        var (inRight, right') := Remove(outranks, t.right, x);
        if inRight then (true, Node(t.size - 1, t.data, t.left, right')) else (false, t)
  }

  /** A tree the service may hold. */
  ghost predicate IsHeap<T(!new)>(outranks: Order<T>, t: Tree<T>) {
    StrictWeak(outranks) && t.Ordered(outranks) && t.SizesExact()
  }

  /** The top of an ordered tree is outranked by nothing in it. */
  lemma {:induction false} TopIsHighest<T(!new)>(outranks: Order<T>, t: Tree<T>, x: T)
    requires StrictWeak(outranks) && t.Ordered(outranks)
    requires t.Node? && x in t.Contents()
    ensures !outranks(x, t.data)
  {
    if x in t.left.Contents() {
      TopIsHighest(outranks, t.left, x);
      assert Between(outranks, x, t.left.data, t.data);
    } else if x in t.right.Contents() {
      TopIsHighest(outranks, t.right, x);
      assert Between(outranks, x, t.right.data, t.data);
    }
  }

  lemma MoveDown<T>(sub: multiset<T>, rest: multiset<T>, high: T, low: T, data: T, x: T)
    requires multiset{high} + multiset{low} == multiset{data} + multiset{x}
    ensures multiset{high} + (sub + multiset{low}) + rest == multiset{data} + sub + rest + multiset{x}
    ensures multiset{high} + rest + (sub + multiset{low}) == multiset{data} + rest + sub + multiset{x}
  {
    var two := multiset{high} + multiset{low};
    assert multiset{high} + (sub + multiset{low}) + rest == two + sub + rest;
    assert multiset{high} + rest + (sub + multiset{low}) == two + rest + sub;
  }

  lemma TakeOut<T>(sub: multiset<T>, rest: multiset<T>, data: T, x: T)
    requires x in sub
    ensures multiset{data} + (sub - multiset{x}) + rest == multiset{data} + sub + rest - multiset{x}
    ensures multiset{data} + rest + (sub - multiset{x}) == multiset{data} + rest + sub - multiset{x}
  {
  }

  lemma MoveUp<T>(sub: multiset<T>, rest: multiset<T>, x: T)
    requires x in sub
    ensures multiset{x} + (sub - multiset{x}) + rest == sub + rest
    ensures multiset{x} + rest + (sub - multiset{x}) == rest + sub
  {
  }

  lemma {:induction false} InsertSizes<T>(outranks: Order<T>, t: Tree<T>, x: T)
    requires t.SizesExact() && t.Node?
    ensures var r := Insert(outranks, t, x);
            r.SizesExact() && r.Count() == t.Count() + 1
  {
    var low := if outranks(x, t.data) then t.data else x;
    var r := Insert(outranks, t, x);
    if t.left.Empty? || t.right.Empty? {
      assert Single(low).SizesExact() && Single(low).Count() == 1;
    } else if t.left.size <= t.right.size {
      InsertSizes(outranks, t.left, low);
      assert r.left == Insert(outranks, t.left, low) && r.right == t.right;
    } else {
      InsertSizes(outranks, t.right, low);
      assert r.left == t.left && r.right == Insert(outranks, t.right, low);
    }
    assert r.left.SizesExact() && r.right.SizesExact() && r.size == r.Count();
  }

  lemma NodeContents<T>(t: Tree<T>)
    ensures t.Node? ==> t.Contents() == multiset{t.data} + t.left.Contents() + t.right.Contents()
    ensures t.Empty? ==> t.Contents() == multiset{}
  {
  }

  lemma SingleContents<T>(x: T)
    ensures Single(x).Contents() == multiset{x}
  {
  }

  /** The elements below a subtree's top once `x` has gone into that subtree or become it. */
  lemma Joined<T>(outranks: Order<T>, sub: Tree<T>, x: T)
    requires sub.Node? ==> Insert(outranks, sub, x).Contents() == sub.Contents() + multiset{x}
    ensures (if sub.Empty? then Single(x) else Insert(outranks, sub, x)).Contents() == sub.Contents() + multiset{x}
  {
    if sub.Empty? {
      SingleContents(x);
      assert sub.Contents() + multiset{x} == multiset{x};
    }
  }

  lemma {:induction false} InsertContents<T>(outranks: Order<T>, t: Tree<T>, x: T)
    requires t.Node?
    ensures Insert(outranks, t, x).Contents() == t.Contents() + multiset{x}
  {
    hide Tree.Contents;
    var high := if outranks(x, t.data) then x else t.data;
    var low := if outranks(x, t.data) then t.data else x;
    NodeContents(t);
    NodeContents(Insert(outranks, t, x));
    if t.left.Empty? || (t.right.Node? && t.left.size <= t.right.size) {
      if t.left.Node? {
        InsertContents(outranks, t.left, low);
      }
      Joined(outranks, t.left, low);
      MoveDown(t.left.Contents(), t.right.Contents(), high, low, t.data, x);
    } else {
      if t.right.Node? {
        InsertContents(outranks, t.right, low);
      }
      Joined(outranks, t.right, low);
      MoveDown(t.right.Contents(), t.left.Contents(), high, low, t.data, x);
    }
  }

  lemma {:induction false} InsertOrdered<T(!new)>(outranks: Order<T>, t: Tree<T>, x: T)
    requires StrictWeak(outranks) && t.Ordered(outranks) && t.Node?
    ensures var r := Insert(outranks, t, x);
            && r.Ordered(outranks)
            && r.data == if outranks(x, t.data) then x else t.data
  {
    var low := if outranks(x, t.data) then t.data else x;
    if t.left.Node? {
      assert Between(outranks, t.left.data, t.data, x);
    }
    if t.right.Node? {
      assert Between(outranks, t.right.data, t.data, x);
    }
    if t.left.Node? && t.right.Node? {
      if t.left.size <= t.right.size {
        InsertOrdered(outranks, t.left, low);
      } else {
        InsertOrdered(outranks, t.right, low);
      }
    }
  }

  /** Pushing keeps the heap, adds exactly the new element, and puts it on top exactly when the
      heap was empty or it outranks the old top. */
  lemma PushIsHeap<T(!new)>(outranks: Order<T>, t: Tree<T>, x: T)
    requires IsHeap(outranks, t)
    ensures var r := Push(outranks, t, x);
            && IsHeap(outranks, r)
            && r.Contents() == t.Contents() + multiset{x}
            && r.Node?
            && r.data == if t.Node? && !outranks(x, t.data) then t.data else x
  {
    if t.Node? {
      InsertSizes(outranks, t, x);
      InsertContents(outranks, t, x);
      InsertOrdered(outranks, t, x);
    }
  }

  lemma {:induction false} PopSizes<T>(outranks: Order<T>, t: Tree<T>)
    requires t.SizesExact() && t.Node?
    ensures Pop(outranks, t).SizesExact()
  {
    if t.left.Node? || t.right.Node? {
      PopSizes(outranks, if LeftMovesUp(outranks, t) then t.left else t.right);
    }
  }

  lemma {:induction false} PopLeaves<T>(outranks: Order<T>, t: Tree<T>)
    requires t.Node?
    ensures Pop(outranks, t).Contents() == t.left.Contents() + t.right.Contents()
  {
    if t.left.Node? || t.right.Node? {
      if LeftMovesUp(outranks, t) {
        SubtreesAreRest(t.left);
        PopLeaves(outranks, t.left);
        MoveUp(t.left.Contents(), t.right.Contents(), t.left.data);
      } else {
        SubtreesAreRest(t.right);
        PopLeaves(outranks, t.right);
        MoveUp(t.right.Contents(), t.left.Contents(), t.right.data);
      }
    }
  }

  lemma SubtreesAreRest<T>(t: Tree<T>)
    requires t.Node?
    ensures t.data in t.Contents()
    ensures t.left.Contents() + t.right.Contents() == t.Contents() - multiset{t.data}
  {
  }

  lemma PopContents<T>(outranks: Order<T>, t: Tree<T>)
    requires t.Node?
    ensures var r := Pop(outranks, t);
            && r.Contents() == t.Contents() - multiset{t.data}
            && (r.Node? ==> r.data in r.Contents())
  {
    PopLeaves(outranks, t);
    SubtreesAreRest(t);
  }

  lemma NextIsLower<T(!new)>(outranks: Order<T>, t: Tree<T>)
    requires IsHeap(outranks, t) && t.Node?
    ensures var r := Pop(outranks, t);
            r.Node? ==> r.data in r.Contents() && !outranks(r.data, t.data)
  {
    hide Tree.Contents, Pop;
    PopContents(outranks, t);
    var r := Pop(outranks, t);
    if r.Node? {
      TopIsHighest(outranks, t, r.data);
    }
  }

  lemma {:induction false} PopOrdered<T(!new)>(outranks: Order<T>, t: Tree<T>)
    requires IsHeap(outranks, t) && t.Node?
    ensures Pop(outranks, t).Ordered(outranks)
  {
    hide Tree.Contents;
    if t.left.Node? || t.right.Node? {
      var up := if LeftMovesUp(outranks, t) then t.left else t.right;
      PopOrdered(outranks, up);
      NextIsLower(outranks, up);
    }
  }

  /** Popping keeps the heap and takes away exactly the top element. */
  lemma PopIsHeap<T(!new)>(outranks: Order<T>, t: Tree<T>)
    requires IsHeap(outranks, t) && t.Node?
    ensures var r := Pop(outranks, t);
            && IsHeap(outranks, r)
            && r.Contents() == t.Contents() - multiset{t.data}
            && (r.Node? ==> r.data in r.Contents() && !outranks(r.data, t.data))
  {
    PopSizes(outranks, t);
    PopContents(outranks, t);
    PopOrdered(outranks, t);
    NextIsLower(outranks, t);
  }

  lemma {:induction false} RemoveFinds<T(!new)>(outranks: Order<T>, t: Tree<T>, x: T)
    requires StrictWeak(outranks) && t.Ordered(outranks)
    ensures var (found, r) := Remove(outranks, t, x);
            && (found <==> x in t.Contents())
            && (!found ==> r == t)
  {
    if t.Node? && x != t.data {
      if outranks(x, t.data) {
        if x in t.Contents() {
          TopIsHighest(outranks, t, x);
        }
      } else {
        RemoveFinds(outranks, t.left, x);
        RemoveFinds(outranks, t.right, x);
      }
    }
  }

  lemma {:induction false} RemoveSizes<T>(outranks: Order<T>, t: Tree<T>, x: T)
    requires t.SizesExact()
    ensures var (found, r) := Remove(outranks, t, x);
            r.SizesExact() && r.Count() == t.Count() - (if found then 1 else 0)
  {
    if t.Node? {
      if x == t.data {
        PopSizes(outranks, t);
      } else if !outranks(x, t.data) {
        RemoveSizes(outranks, t.left, x);
        RemoveSizes(outranks, t.right, x);
      }
    }
  }

  lemma {:induction false} RemoveContents<T>(outranks: Order<T>, t: Tree<T>, x: T)
    ensures var (found, r) := Remove(outranks, t, x);
            found ==> x in t.Contents() && r.Contents() == t.Contents() - multiset{x}
  {
    if t.Node? {
      if x == t.data {
        PopContents(outranks, t);
      } else if !outranks(x, t.data) {
        RemoveContents(outranks, t.left, x);
        RemoveContents(outranks, t.right, x);
        if Remove(outranks, t.left, x).0 {
          TakeOut(t.left.Contents(), t.right.Contents(), t.data, x);
        } else if Remove(outranks, t.right, x).0 {
          TakeOut(t.right.Contents(), t.left.Contents(), t.data, x);
        }
      }
    }
  }

  lemma {:induction false} RemoveOrdered<T(!new)>(outranks: Order<T>, t: Tree<T>, x: T)
    requires IsHeap(outranks, t)
    ensures var r := Remove(outranks, t, x).1;
            && r.Ordered(outranks)
            && (t.Node? && r.Node? ==> !outranks(r.data, t.data))
  {
    if t.Node? {
      if x == t.data {
        PopIsHeap(outranks, t);
      } else if !outranks(x, t.data) {
        RemoveOrdered(outranks, t.left, x);
        RemoveOrdered(outranks, t.right, x);
        if t.left.Node? && Remove(outranks, t.left, x).1.Node? {
          assert Between(outranks, Remove(outranks, t.left, x).1.data, t.left.data, t.data);
        }
        if t.right.Node? && Remove(outranks, t.right, x).1.Node? {
          assert Between(outranks, Remove(outranks, t.right, x).1.data, t.right.data, t.data);
        }
      }
    }
  }

  lemma RemoveKeepsTop<T(!new)>(outranks: Order<T>, t: Tree<T>, x: T)
    requires t.Node? && x != t.data
    ensures var r := Remove(outranks, t, x).1;
            r.Node? && r.data == t.data
  {
  }

  /** Skipping subtrees loses nothing: the search finds `x` exactly when it is there, takes away
      one occurrence and no more, and leaves the tree alone when it is not there. The top changes
      only when it is `x` itself. */
  lemma RemoveIsComplete<T(!new)>(outranks: Order<T>, t: Tree<T>, x: T)
    requires IsHeap(outranks, t)
    ensures var (found, r) := Remove(outranks, t, x);
            && (found <==> x in t.Contents())
            && IsHeap(outranks, r)
            && r.Contents() == t.Contents() - multiset{x}
            && (!found ==> r == t)
            && (t.Node? && x != t.data ==> r.Node? && r.data == t.data)
  {
    hide Remove, StrictWeak, Tree.Contents, Tree.Ordered, Tree.SizesExact;
    RemoveFinds(outranks, t, x);
    RemoveSizes(outranks, t, x);
    RemoveContents(outranks, t, x);
    RemoveOrdered(outranks, t, x);
    if t.Node? && x != t.data {
      RemoveKeepsTop(outranks, t, x);
    }
    if x !in t.Contents() {
      assert t.Contents() - multiset{x} == t.Contents();
    }
  }

  /** The consistency check a node runs on its subtree, with the sizes it has recorded. */
  function CheckNodes<T>(outranks: Order<T>, t: Tree<T>): bool
    requires t.Node?
  {
    && (t.left.Node? ==> !outranks(t.left.data, t.data) && CheckNodes(outranks, t.left))
    && (t.right.Node? ==> !outranks(t.right.data, t.data) && CheckNodes(outranks, t.right))
    && t.size - t.left.Size() - t.right.Size() == 1
  }

  /** The check succeeds exactly when the subtree is ordered and every recorded size is right. */
  lemma {:induction false} CheckNodesIsExact<T>(outranks: Order<T>, t: Tree<T>)
    requires t.Node?
    ensures CheckNodes(outranks, t) <==> t.Ordered(outranks) && t.SizesExact()
  {
    if t.left.Node? {
      CheckNodesIsExact(outranks, t.left);
    }
    if t.right.Node? {
      CheckNodesIsExact(outranks, t.right);
    }
    assert t.left.SizesExact() ==> t.left.Size() == t.left.Count();
    assert t.right.SizesExact() ==> t.right.Size() == t.right.Count();
  }
}

/** What holds of whole sequences of heap operations: a heap behaves as a priority queue, draining
    it up to a limit takes out the due elements in order, and pushes alone keep it balanced. */
module HeapRuns {
  import opened HeapModel

  datatype Option<+T> = None | Some(value: T)

  /** The public operations of a heap. */
  datatype Op<T> = DoPush(x: T) | DoPop | DoRemove(x: T)

  /** One operation: the element it hands back, if any, and the tree it leaves. */
  function Apply<T(==)>(outranks: Order<T>, t: Tree<T>, op: Op<T>): (Option<T>, Tree<T>) {
    match op
    case DoPush(x) => (None, Push(outranks, t, x))
    case DoPop => if t.Empty? then (None, t) else (Some(t.data), Pop(outranks, t))
    case DoRemove(x) =>
      var (found, r) := Remove(outranks, t, x);
      (if found then Some(x) else None, r)
  }

  function Run<T(==)>(outranks: Order<T>, t: Tree<T>, ops: seq<Op<T>>): (seq<Option<T>>, Tree<T>)
    decreases |ops|
  {
    if ops == [] then
      ([], t)
    else
      var (out, t') := Apply(outranks, t, ops[0]);
      var (outs, r) := Run(outranks, t', ops[1..]);
      ([out] + outs, r)
  }

  /** What a priority queue over a bag may answer: a pop takes any element nothing outranks. */
  ghost predicate QueueAnswers<T>(outranks: Order<T>, bag: multiset<T>, op: Op<T>, out: Option<T>) {
    match op
    case DoPush(_) => out == None
    case DoPop =>
      if bag == multiset{} then
        out == None
      else
        out.Some? && out.value in bag && forall y | y in bag :: !outranks(y, out.value)
    case DoRemove(x) => out == if x in bag then Some(x) else None
  }

  /** The bag after an operation: what was pushed is in it, what was handed back is not. */
  ghost function BagAfter<T>(bag: multiset<T>, op: Op<T>, out: Option<T>): multiset<T> {
    match op
    case DoPush(x) => bag + multiset{x}
    case _ => if out.Some? then bag - multiset{out.value} else bag
  }

  /** The answers to a whole sequence of operations are those of some priority queue. */
  ghost predicate QueueRun<T>(outranks: Order<T>, bag: multiset<T>, ops: seq<Op<T>>, outs: seq<Option<T>>,
                              final: multiset<T>)
    decreases |ops|
  {
    if ops == [] then
      outs == [] && final == bag
    else
      && |outs| == |ops|
      && QueueAnswers(outranks, bag, ops[0], outs[0])
      && QueueRun(outranks, BagAfter(bag, ops[0], outs[0]), ops[1..], outs[1..], final)
  }

  /** One operation on the heap, seen as one on the bag of its elements. */
  ghost predicate IsQueueStep<T(!new)>(outranks: Order<T>, t: Tree<T>, op: Op<T>) {
    var (out, t') := Apply(outranks, t, op);
    && IsHeap(outranks, t')
    && QueueAnswers(outranks, t.Contents(), op, out)
    && t'.Contents() == BagAfter(t.Contents(), op, out)
  }

  lemma PushIsQueueStep<T(!new)>(outranks: Order<T>, t: Tree<T>, x: T)
    requires IsHeap(outranks, t)
    ensures IsQueueStep(outranks, t, DoPush(x))
  {
    hide IsHeap, Push, Tree.Contents;
    PushIsHeap(outranks, t, x);
  }

  lemma PopIsQueueStep<T(!new)>(outranks: Order<T>, t: Tree<T>)
    requires IsHeap(outranks, t)
    ensures IsQueueStep(outranks, t, DoPop)
  {
    hide IsHeap, Pop, Tree.Contents;
    if t.Node? {
      DrainStep(outranks, t);
    } else {
      EmptyContents<T>();
    }
  }

  lemma RemoveIsQueueStep<T(!new)>(outranks: Order<T>, t: Tree<T>, x: T)
    requires IsHeap(outranks, t)
    ensures IsQueueStep(outranks, t, DoRemove(x))
  {
    hide IsHeap, Remove, Tree.Contents;
    RemoveIsComplete(outranks, t, x);
    NothingRemoved(t.Contents(), x);
  }

  lemma NothingRemoved<T>(bag: multiset<T>, x: T)
    ensures x !in bag ==> bag - multiset{x} == bag
  {
  }

  lemma ApplyIsQueueStep<T(!new)>(outranks: Order<T>, t: Tree<T>, op: Op<T>)
    requires IsHeap(outranks, t)
    ensures IsQueueStep(outranks, t, op)
  {
    hide *;
    match op
    case DoPush(x) => PushIsQueueStep(outranks, t, x);
    case DoPop => PopIsQueueStep(outranks, t);
    case DoRemove(x) => RemoveIsQueueStep(outranks, t, x);
  }

  /** Any sequence of pushes, pops and removals keeps the heap and gives what a priority queue
      over the same bag of elements gives. */
  lemma {:induction false} HeapRefinesPriorityQueue<T(!new)>(outranks: Order<T>, t: Tree<T>, ops: seq<Op<T>>)
    requires IsHeap(outranks, t)
    ensures var (outs, r) := Run(outranks, t, ops);
            IsHeap(outranks, r) && QueueRun(outranks, t.Contents(), ops, outs, r.Contents())
    decreases |ops|
  {
    if ops != [] {
      hide IsHeap, QueueAnswers, BagAfter, Apply, Tree.Contents;
      var (out, t') := Apply(outranks, t, ops[0]);
      ApplyIsQueueStep(outranks, t, ops[0]);
      HeapRefinesPriorityQueue(outranks, t', ops[1..]);
      var (outs, r) := Run(outranks, t', ops[1..]);
      assert ([out] + outs)[1..] == outs;
    }
  }

  // ---------- Draining up to a limit ----------

  /** Popping while the top is not outranked by `limit`. */
  function DrainDue<T>(outranks: Order<T>, t: Tree<T>, limit: T): (seq<T>, Tree<T>)
    decreases t.Count()
  {
    if t.Empty? || outranks(limit, t.data) then
      ([], t)
    else
      var (popped, rest) := DrainDue(outranks, Pop(outranks, t), limit);
      ([t.data] + popped, rest)
  }

  /** Popping the top whatever it is, then everything that is due. */
  function Drain<T>(outranks: Order<T>, t: Tree<T>, limit: T): (seq<T>, Tree<T>) {
    if t.Empty? then
      ([], t)
    else
      var (popped, rest) := DrainDue(outranks, Pop(outranks, t), limit);
      ([t.data] + popped, rest)
  }

  /** Elements in the order they leave: none outranks an earlier one. */
  ghost predicate InOrder<T>(outranks: Order<T>, s: seq<T>) {
    forall i, j | 0 <= i < j < |s| :: !outranks(s[j], s[i])
  }

  ghost predicate NoneDue<T(!new)>(outranks: Order<T>, bag: multiset<T>, limit: T) {
    forall x | x in bag :: outranks(limit, x)
  }

  ghost predicate AllDue<T>(outranks: Order<T>, s: seq<T>, limit: T) {
    forall i | 0 <= i < |s| :: !outranks(limit, s[i])
  }

  lemma NothingDueBelow<T(!new)>(outranks: Order<T>, t: Tree<T>, limit: T)
    requires IsHeap(outranks, t) && t.Node? && outranks(limit, t.data)
    ensures NoneDue(outranks, t.Contents(), limit)
  {
    forall x | x in t.Contents() ensures outranks(limit, x) {
      TopIsHighest(outranks, t, x);
      assert Between(outranks, limit, x, t.data);
    }
  }

  lemma FirstThenRest<T(!new)>(outranks: Order<T>, bag: multiset<T>, first: T, popped: seq<T>, rest: multiset<T>)
    requires first in bag && multiset(popped) + rest == bag - multiset{first}
    requires InOrder(outranks, popped)
    requires forall x | x in bag :: !outranks(x, first)
    ensures multiset([first] + popped) + rest == bag
    ensures InOrder(outranks, [first] + popped)
  {
    assert multiset([first] + popped) == multiset{first} + multiset(popped);
    forall x | x in popped ensures !outranks(x, first) {
      assert x in multiset(popped) + rest;
    }
  }

  lemma {:induction false} DrainDueIsExact<T(!new)>(outranks: Order<T>, t: Tree<T>, limit: T)
    requires IsHeap(outranks, t)
    ensures var (popped, rest) := DrainDue(outranks, t, limit);
            && IsHeap(outranks, rest)
            && multiset(popped) + rest.Contents() == t.Contents()
            && InOrder(outranks, popped)
            && AllDue(outranks, popped, limit)
            && NoneDue(outranks, rest.Contents(), limit)
    decreases t.Count()
  {
    hide IsHeap, Pop, InOrder, Tree.Contents, NoneDue;
    if t.Empty? {
      EmptyContents<T>();
      NoneDueIn(outranks, limit);
      InOrderNil(outranks);
    } else if outranks(limit, t.data) {
      NothingDueBelow(outranks, t, limit);
      InOrderNil(outranks);
    } else {
      var (popped, rest) := DrainDue(outranks, Pop(outranks, t), limit);
      DrainStep(outranks, t);
      DrainDueIsExact(outranks, Pop(outranks, t), limit);
      FirstThenRest(outranks, t.Contents(), t.data, popped, rest.Contents());
    }
  }

  lemma EmptyContents<T>()
    ensures Tree<T>.Empty.Contents() == multiset{}
  {
  }

  lemma NoneDueIn<T(!new)>(outranks: Order<T>, limit: T)
    ensures NoneDue(outranks, multiset{}, limit)
  {
  }

  lemma InOrderNil<T>(outranks: Order<T>)
    ensures InOrder(outranks, [])
  {
  }

  lemma DrainStep<T(!new)>(outranks: Order<T>, t: Tree<T>)
    requires IsHeap(outranks, t) && t.Node?
    ensures var r := Pop(outranks, t);
            IsHeap(outranks, r) && r.Contents() == t.Contents() - multiset{t.data}
    ensures t.data in t.Contents()
    ensures forall x | x in t.Contents() :: !outranks(x, t.data)
  {
    hide Pop;
    PopIsHeap(outranks, t);
    forall x | x in t.Contents() ensures !outranks(x, t.data) {
      TopIsHighest(outranks, t, x);
    }
  }

  /** Draining takes the elements out in order, every one after the first is due, and none that is
      left is due. Exactly the due elements leave if and only if the top was due (or the heap was
      empty): the first pop does not look at the limit. */
  lemma DrainIsExact<T(!new)>(outranks: Order<T>, t: Tree<T>, limit: T)
    requires IsHeap(outranks, t)
    ensures var (popped, rest) := Drain(outranks, t, limit);
            && IsHeap(outranks, rest)
            && multiset(popped) + rest.Contents() == t.Contents()
            && InOrder(outranks, popped)
            && (popped == [] <==> t.Empty?)
            && (t.Node? ==> popped[0] == t.data && AllDue(outranks, popped[1..], limit))
            && NoneDue(outranks, rest.Contents(), limit)
            && (AllDue(outranks, popped, limit) <==> t.Empty? || !outranks(limit, t.data))
  {
    hide IsHeap, Pop, InOrder, Tree.Contents, NoneDue, DrainDue;
    if t.Empty? {
      EmptyContents<T>();
      NoneDueIn(outranks, limit);
      InOrderNil(outranks);
    } else {
      var (popped, rest) := DrainDue(outranks, Pop(outranks, t), limit);
      DrainStep(outranks, t);
      DrainDueIsExact(outranks, Pop(outranks, t), limit);
      FirstThenRest(outranks, t.Contents(), t.data, popped, rest.Contents());
      assert ([t.data] + popped)[1..] == popped;
      assert forall i | 0 < i < |[t.data] + popped| :: ([t.data] + popped)[i] == popped[i - 1];
    }
  }

  // ---------- Pushes alone keep the tree balanced ----------

  function PushAll<T>(outranks: Order<T>, xs: seq<T>): Tree<T> {
    if xs == [] then Empty else Push(outranks, PushAll(outranks, xs[..|xs| - 1]), xs[|xs| - 1])
  }

  /** Every left subtree holds as many nodes as its right sibling, or one more. */
  ghost predicate Balanced<T>(t: Tree<T>) {
    t.Node? ==>
      && t.right.Count() <= t.left.Count() <= t.right.Count() + 1
      && Balanced(t.left) && Balanced(t.right)
  }

  function Height<T>(t: Tree<T>): nat {
    if t.Empty? then 0
    else 1 + if Height(t.left) < Height(t.right) then Height(t.right) else Height(t.left)
  }

  function Pow2(n: nat): nat {
    if n == 0 then 1 else 2 * Pow2(n - 1)
  }

  lemma {:induction false} InsertBalanced<T>(outranks: Order<T>, t: Tree<T>, x: T)
    requires t.Node? && t.SizesExact() && Balanced(t)
    ensures Balanced(Insert(outranks, t, x))
  {
    var low := if outranks(x, t.data) then t.data else x;
    if t.left.Node? && t.right.Node? {
      if t.left.size <= t.right.size {
        InsertBalanced(outranks, t.left, low);
        InsertSizes(outranks, t.left, low);
      } else {
        InsertBalanced(outranks, t.right, low);
        InsertSizes(outranks, t.right, low);
      }
    }
  }

  lemma {:induction false} PushAllBalanced<T>(outranks: Order<T>, xs: seq<T>)
    ensures var t := PushAll(outranks, xs);
            t.SizesExact() && Balanced(t) && t.Count() == |xs|
  {
    if xs != [] {
      var t := PushAll(outranks, xs[..|xs| - 1]);
      PushAllBalanced(outranks, xs[..|xs| - 1]);
      if t.Node? {
        InsertSizes(outranks, t, xs[|xs| - 1]);
        InsertBalanced(outranks, t, xs[|xs| - 1]);
      }
    }
  }

  /** The height of a balanced tree is fixed by its number of nodes: they fill at least half of
      the last level but one, and no more than the last. */
  lemma {:induction false} BalancedHeight<T>(t: Tree<T>)
    requires Balanced(t) && t.Node?
    ensures Height(t) >= 1
    ensures Pow2(Height(t) - 1) <= t.Count() < Pow2(Height(t))
  {
    if t.left.Node? {
      BalancedHeight(t.left);
      if t.right.Node? {
        BalancedHeight(t.right);
        TallerByCount(Height(t.left), Height(t.right), t.left.Count(), t.right.Count());
      }
    }
  }

  /** A subtree with no more nodes is no taller, and one with at most one node less is at most one
      level lower, which fixes the height of the two together. */
  lemma TallerByCount(h: nat, k: nat, m: nat, n: nat)
    requires h >= 1 && Pow2(h - 1) <= m < Pow2(h)
    requires k >= 1 && Pow2(k - 1) <= n < Pow2(k)
    requires n <= m <= n + 1
    ensures k <= h && Pow2(h) <= 1 + m + n < Pow2(h + 1)
  {
    if h < k {
      Pow2Monotone(h, k - 1);
    }
  }

  lemma {:induction false} Pow2Monotone(m: nat, n: nat)
    requires m <= n
    ensures 1 <= Pow2(m) <= Pow2(n)
    decreases n
  {
    if m < n {
      Pow2Monotone(m, n - 1);
    } else if n > 0 {
      Pow2Monotone(m - 1, n - 1);
    }
  }

  /** After n pushes and no removals, left subtrees are equal to or one larger than right ones,
      and the height is one more than the binary logarithm of n, rounded down. */
  lemma PushesKeepBalance<T>(outranks: Order<T>, xs: seq<T>)
    ensures var t := PushAll(outranks, xs);
            && Balanced(t)
            && t.Count() == |xs|
            && (xs != [] ==> Height(t) >= 1 && Pow2(Height(t) - 1) <= |xs| < Pow2(Height(t)))
  {
    PushAllBalanced(outranks, xs);
    if xs != [] {
      BalancedHeight(PushAll(outranks, xs));
    }
  }
}

/** The doubly linked list of gps/utils/linked_list.c: elements enter at the head and leave at the
    tail, and a search may take one out of the middle. */
module LinkedLists {
  import opened HeapRuns

  datatype ListError = ListSuccess | ListInvalidParameter | ListUnavailableResource

  /** What a caller puts in: a data pointer, and whether it comes with a deallocator. */
  datatype Item<+T> = Item(data: T, hasDealloc: bool)

  class Element<T> {
    var next: Element?<T>
    var prev: Element?<T>
    const item: Item<T>

    constructor (item: Item<T>)
      ensures this.item == item && next == null && prev == null
    {
      this.item := item;
      next, prev := null, null;
    }
  }

  /** The data whose deallocator is called when these items are freed, in order. */
  ghost function Deallocated<T>(items: seq<Item<T>>): seq<T> {
    if items == [] then []
    else (if items[0].hasDealloc then [items[0].data] else []) + Deallocated(items[1..])
  }

  lemma {:induction false} DeallocatedAppend<T>(items: seq<Item<T>>, x: Item<T>)
    ensures Deallocated(items + [x]) == Deallocated(items) + (if x.hasDealloc then [x.data] else [])
  {
    if items == [] {
      assert [x][1..] == [] && items + [x] == [x];
      assert Deallocated([x]) == (if x.hasDealloc then [x.data] else []) + Deallocated<T>([]);
    } else {
      var first := if items[0].hasDealloc then [items[0].data] else [];
      var last := if x.hasDealloc then [x.data] else [];
      var all := items + [x];
      assert all[0] == items[0] && all[1..] == items[1..] + [x];
      DeallocatedAppend(items[1..], x);
      assert first + (Deallocated(items[1..]) + last) == (first + Deallocated(items[1..])) + last;
    }
  }

  /** The index of the first item that matches, or the length if there is none. */
  ghost function FirstMatch<T>(items: seq<Item<T>>, equal: T -> bool): (i: nat)
    ensures i <= |items| && (i < |items| ==> equal(items[i].data))
    ensures forall j | 0 <= j < i :: !equal(items[j].data)
  {
    if items == [] || equal(items[0].data) then 0 else 1 + FirstMatch(items[1..], equal)
  }

  lemma {:induction false} FirstMatchIs<T>(items: seq<Item<T>>, equal: T -> bool, i: nat)
    requires i <= |items| && (i < |items| ==> equal(items[i].data))
    requires forall j | 0 <= j < i :: !equal(items[j].data)
    ensures FirstMatch(items, equal) == i
  {
    if i > 0 {
      FirstMatchIs(items[1..], equal, i - 1);
    }
  }

  /** The element at position i, or null outside the list. */
  function Nth<T>(spine: seq<Element<T>>, i: int): Element?<T> {
    if 0 <= i < |spine| then spine[i] else null
  }

  ghost function ItemsOf<T>(spine: seq<Element<T>>): (items: seq<Item<T>>)
    ensures |items| == |spine| && forall i | 0 <= i < |items| :: items[i] == spine[i].item
  {
    seq(|spine|, i requires 0 <= i < |spine| => spine[i].item)
  }

  ghost predicate Distinct<T>(spine: seq<Element<T>>) {
    forall i, j | 0 <= i < j < |spine| :: spine[i] != spine[j]
  }

  /** The links of one element agree with its position. */
  ghost predicate LinkedAt<T>(spine: seq<Element<T>>, i: int)
    requires 0 <= i < |spine|
    reads spine[i]
  {
    spine[i].prev == Nth(spine, i - 1) && spine[i].next == Nth(spine, i + 1)
  }

  /** The links of element j once its neighbours skip element i. */
  ghost predicate Bypassed<T>(spine: seq<Element<T>>, i: int, j: int)
    requires 0 <= i < |spine| && 0 <= j < |spine|
    reads spine[j]
  {
    && spine[j].prev == Nth(spine, if j - 1 == i then i - 1 else j - 1)
    && spine[j].next == Nth(spine, if j + 1 == i then i + 1 else j + 1)
  }

  /** The links of element j once `elem` comes before all of them. */
  ghost predicate Preceded<T>(spine: seq<Element<T>>, elem: Element<T>, j: int)
    requires 0 <= j < |spine|
    reads spine[j]
  {
    spine[j].prev == (if j == 0 then elem else spine[j - 1]) && spine[j].next == Nth(spine, j + 1)
  }

  lemma PrecededIsLinked<T>(was: seq<Element<T>>, elem: Element<T>, k: int)
    requires 0 < k <= |was| && Preceded(was, elem, k - 1)
    ensures LinkedAt([elem] + was, k)
  {
  }

  lemma BypassedIsLinked<T>(was: seq<Element<T>>, i: int, spine: seq<Element<T>>, k: int)
    requires 0 <= i < |was| && spine == was[..i] + was[i + 1..] && 0 <= k < |spine|
    requires Bypassed(was, i, if k < i then k else k + 1)
    ensures LinkedAt(spine, k)
  {
  }

  lemma DistinctWith<T>(was: seq<Element<T>>, elem: Element<T>)
    requires Distinct(was) && elem !in was
    ensures Distinct([elem] + was)
  {
    var spine := [elem] + was;
    forall j, k | 0 <= j < k < |spine| ensures spine[j] != spine[k] {
      assert spine[k] == was[k - 1];
    }
  }

  lemma DistinctWithout<T>(was: seq<Element<T>>, i: int)
    requires 0 <= i < |was| && Distinct(was)
    ensures Distinct(was[..i] + was[i + 1..])
  {
    var spine := was[..i] + was[i + 1..];
    forall j, k | 0 <= j < k < |spine| ensures spine[j] != spine[k] {
      assert spine[j] == was[if j < i then j else j + 1] && spine[k] == was[if k < i then k else k + 1];
    }
  }

  /** Element j is none of element i and its neighbours, unless it stands there. */
  lemma Apart<T>(spine: seq<Element<T>>, i: int, j: int)
    requires Distinct(spine) && 0 <= i < |spine| && 0 <= j < |spine| && i != j
    ensures spine[i] != spine[j]
    ensures j != i - 1 ==> Nth(spine, i - 1) != spine[j]
    ensures j != i + 1 ==> Nth(spine, i + 1) != spine[j]
  {
  }

  lemma ItemsWith<T>(was: seq<Element<T>>, elem: Element<T>)
    ensures ItemsOf([elem] + was) == [elem.item] + ItemsOf(was)
  {
  }

  lemma ItemsWithout<T>(was: seq<Element<T>>, i: int)
    requires 0 <= i < |was|
    ensures ItemsOf(was[..i] + was[i + 1..]) == ItemsOf(was)[..i] + ItemsOf(was)[i + 1..]
  {
  }

  class LinkedList<T> {
    var head: Element?<T>
    var tail: Element?<T>
    /** The elements from head to tail. */
    ghost var spine: seq<Element<T>>

    ghost predicate Valid()
      reads this, spine
    {
      && head == Nth(spine, 0) && tail == Nth(spine, |spine| - 1)
      && (forall i | 0 <= i < |spine| :: LinkedAt(spine, i))
      && Distinct(spine)
    }

    /** What the list holds, newest first. */
    ghost function Items(): seq<Item<T>>
      reads this
    {
      ItemsOf(spine)
    }

    constructor ()
      ensures Valid() && Items() == []
    {
      head, tail := null, null;
      spine := [];
    }

    method Add(item: Option<Item<T>>) returns (err: ListError)
      requires Valid()
      modifies this, spine
      ensures Valid() && forall e | e in spine :: e in old(spine) || fresh(e)
      ensures err == if item.None? then ListInvalidParameter else ListSuccess
      ensures Items() == if item.None? then old(Items()) else [item.value] + old(Items())
    {
      if item.None? {
        return ListInvalidParameter;
      }
      hide Distinct, ItemsOf;
      ghost var was := spine;
      var elem := new Element(item.value);
      var tmp := head;
      head := elem;
      head.next := tmp;
      if tmp != null {
        tmp.prev := head;
      } else {
        tail := head;
      }
      spine := [elem] + spine;
      DistinctWith(was, elem);
      ItemsWith(was, elem);
      forall i | 0 < i < |spine| ensures LinkedAt(spine, i) {
        assert old(LinkedAt(was, i - 1));
        if i > 1 {
          Apart(was, 0, i - 1);
        }
        assert Preceded(was, elem, i - 1);
        PrecededIsLinked(was, elem, i);
      }
      assert LinkedAt(spine, 0);
      return ListSuccess;
    }

    method Remove() returns (err: ListError, data: Option<T>)
      requires Valid()
      modifies this, spine
      ensures Valid() && (forall e | e in spine :: e in old(spine))
      ensures var items := old(Items());
              if items == [] then
                err == ListUnavailableResource && data == None && Items() == []
              else
                err == ListSuccess && data == Some(items[|items| - 1].data) && Items() == items[..|items| - 1]
    {
      if tail == null {
        return ListUnavailableResource, None;
      }
      var tmp := tail;
      assert LinkedAt(spine, |spine| - 1);
      tail := tmp.prev;
      if tail != null {
        tail.next := null;
      } else {
        head := tail;
      }
      spine := spine[..|spine| - 1];
      forall i | 0 <= i < |spine| ensures LinkedAt(spine, i) {
        assert old(LinkedAt(spine, i));
      }
      return ListSuccess, Some(tmp.item.data);
    }

    method IsEmpty() returns (empty: bool)
      requires Valid()
      ensures empty <==> Items() == []
    {
      return head == null;
    }

    /** Frees everything; `freed` is what the deallocators were called on. */
    method Flush() returns (freed: seq<T>)
      requires Valid()
      modifies this
      ensures Valid() && Items() == []
      ensures freed == Deallocated(old(Items()))
    {
      freed := [];
      ghost var items := Items();
      ghost var i := 0;
      while head != null
        invariant 0 <= i <= |spine| && spine == old(spine) && items == old(Items())
        invariant head == Nth(spine, i) && |items| == |spine|
        invariant forall k | 0 <= k < |spine| :: LinkedAt(spine, k)
        invariant freed == Deallocated(items[..i])
        decreases |spine| - i
      {
        assert LinkedAt(spine, i);
        var tmp := head.next;
        DeallocatedAppend(items[..i], items[i]);
        assert items[..i + 1] == items[..i] + [items[i]];
        if head.item.hasDealloc {
          freed := freed + [head.item.data];
        }
        head := tmp;
        i := i + 1;
      }
      assert items[..i] == items;
      tail := null;
      spine := [];
    }

    /** Looks for the newest match. With `remove` it is taken out of the list, and its deallocator is
        called unless the data is copied out. */
    method Search(equal: T -> bool, copyOut: bool, remove: bool)
      returns (err: ListError, data: Option<T>, freed: seq<T>)
      requires Valid()
      modifies this, spine
      ensures Valid() && (forall e | e in spine :: e in old(spine))
      ensures var items := old(Items());
              var i := FirstMatch(items, equal);
              && err == (if items == [] then ListUnavailableResource else ListSuccess)
              && data == (if copyOut && i < |items| then Some(items[i].data) else None)
              && Items() == (if remove && i < |items| then items[..i] + items[i + 1..] else items)
              && freed == (if remove && i < |items| && !copyOut && items[i].hasDealloc then [items[i].data] else [])
    {
      hide Distinct, FirstMatch, ItemsOf;
      data, freed := None, [];
      if tail == null {
        return ListUnavailableResource, None, [];
      }
      err := ListSuccess;
      var tmp := head;
      ghost var i := 0;
      while tmp != null && !equal(tmp.item.data)
        invariant 0 <= i <= |spine| && tmp == Nth(spine, i)
        invariant forall j | 0 <= j < i :: !equal(Items()[j].data)
        decreases |spine| - i
      {
        assert LinkedAt(spine, i);
        tmp := tmp.next;
        i := i + 1;
      }
      FirstMatchIs(Items(), equal, i);
      if tmp != null {
        if copyOut {
          data := Some(tmp.item.data);
        }
        if remove {
          Unlink(tmp, i);
          if !copyOut && tmp.item.hasDealloc {
            freed := [tmp.item.data];
          }
        }
      }
    }

    /** Taking one element out, wherever it is. */
    method Unlink(e: Element<T>, ghost i: nat)
      requires Valid() && i < |spine| && e == spine[i]
      modifies this, spine
      ensures Valid() && spine == old(spine[..i] + spine[i + 1..])
      ensures Items() == old(Items()[..i] + Items()[i + 1..])
    {
      hide Distinct, ItemsOf;
      ghost var was := spine;
      assert LinkedAt(was, i);
      if e.prev == null {
        head := e.next;
      } else {
        e.prev.next := e.next;
      }
      if e.next == null {
        tail := e.prev;
      } else {
        e.next.prev := e.prev;
      }
      e.prev, e.next := null, null;
      spine := was[..i] + was[i + 1..];
      DistinctWithout(was, i);
      ItemsWithout(was, i);
      forall k | 0 <= k < |spine| ensures LinkedAt(spine, k) {
        var j := if k < i then k else k + 1;
        assert old(LinkedAt(was, j));
        Apart(was, i, j);
        assert Bypassed(was, i, j);
        BypassedIsLinked(was, i, spine, k);
      }
    }
  }
}

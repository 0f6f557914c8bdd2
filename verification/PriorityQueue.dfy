/**
 The bounded array min-heap of the path search. A push into a full heap is dropped.
 */
module PriorityQueues {
  import opened Grid

  datatype Node = Node(pos: Position, firstDir: Direction, cost: int)

  const INFINITY: int := 9999

  function Parent(i: int): int
    requires i > 0
  {
    (i - 1) / 2
  }

  /** Every node but the root costs at least as much as its parent. */
  ghost predicate HeapOrdered(s: seq<Node>) {
    forall i :: 0 < i < |s| ==> s[Parent(i)].cost <= s[i].cost
  }

  /** Heap order except between hole and its parent; the hole's children respect the hole's parent. */
  ghost predicate OrderedExceptUp(s: seq<Node>, hole: nat) {
    && (forall i :: 0 < i < |s| && i != hole ==> s[Parent(i)].cost <= s[i].cost)
    && (forall i :: 0 < i < |s| && 0 < hole && Parent(i) == hole ==> s[Parent(hole)].cost <= s[i].cost)
  }

  /** Heap order except between hole and its children; those respect the hole's parent. */
  ghost predicate OrderedExceptDown(s: seq<Node>, hole: nat) {
    && (forall i :: 0 < i < |s| && Parent(i) != hole ==> s[Parent(i)].cost <= s[i].cost)
    && (forall i :: 0 < i < |s| && 0 < hole && Parent(i) == hole ==> s[Parent(hole)].cost <= s[i].cost)
  }

  function Swapped(s: seq<Node>, i: nat, j: nat): seq<Node>
    requires i < |s| && j < |s|
  {
    s[i := s[j]][j := s[i]]
  }

  lemma SwappedKeepsContents(s: seq<Node>, i: nat, j: nat)
    requires i < |s| && j < |s|
    ensures multiset(Swapped(s, i, j)) == multiset(s)
  {
  }

  lemma SiftUpStep(s: seq<Node>, hole: nat)
    requires 0 < hole < |s| && OrderedExceptUp(s, hole)
    requires s[hole].cost < s[Parent(hole)].cost
    ensures OrderedExceptUp(Swapped(s, hole, Parent(hole)), Parent(hole))
  {
    var up := Parent(hole);
    var t := Swapped(s, hole, up);
    forall i | 0 < i < |t| && i != up
      ensures t[Parent(i)].cost <= t[i].cost
    {
      if i != hole && Parent(i) != up && Parent(i) != hole {
        assert t[Parent(i)] == s[Parent(i)];
      }
    }
    forall i | 0 < i < |t| && 0 < up && Parent(i) == up
      ensures t[Parent(up)].cost <= t[i].cost
    {
      assert t[Parent(up)] == s[Parent(up)];
      assert s[Parent(up)].cost <= s[up].cost;
    }
  }

  lemma SiftDownStep(s: seq<Node>, hole: nat, child: nat)
    requires child < |s| && 0 < child && Parent(child) == hole && OrderedExceptDown(s, hole)
    requires s[child].cost < s[hole].cost
    requires forall i :: 0 < i < |s| && Parent(i) == hole ==> s[child].cost <= s[i].cost
    ensures OrderedExceptDown(Swapped(s, hole, child), child)
  {
    var t := Swapped(s, hole, child);
    forall i | 0 < i < |t| && Parent(i) != child
      ensures t[Parent(i)].cost <= t[i].cost
    {
      if i != hole && Parent(i) != hole {
        assert t[i] == s[i] && t[Parent(i)] == s[Parent(i)];
      }
    }
    forall i | 0 < i < |t| && Parent(i) == child
      ensures t[Parent(child)].cost <= t[i].cost
    {
      assert t[i] == s[i];
    }
  }

  /** A node that costs no more than the children of i costs no more than what has i as its parent. */
  lemma CheapestChild(s: seq<Node>, i: nat, c: nat)
    requires i < |s| && c < |s|
    requires 2 * i + 1 < |s| ==> s[c].cost <= s[2 * i + 1].cost
    requires 2 * i + 2 < |s| ==> s[c].cost <= s[2 * i + 2].cost
    ensures forall k :: 0 < k < |s| && Parent(k) == i ==> s[c].cost <= s[k].cost
  {
    assert forall k :: 0 < k < |s| && Parent(k) == i ==> k == 2 * i + 1 || k == 2 * i + 2;
  }

  lemma EmptyIsOrdered()
    ensures HeapOrdered([])
  {
  }

  lemma Settled(s: seq<Node>, i: nat)
    requires i < |s| && OrderedExceptDown(s, i) && forall k :: 0 < k < |s| && Parent(k) == i ==> s[i].cost <= s[k].cost
    ensures HeapOrdered(s)
  {
    forall k | 0 < k < |s|
      ensures s[Parent(k)].cost <= s[k].cost
    {
      assert Parent(k) != i ==> s[Parent(k)].cost <= s[k].cost;
    }
  }

  /** The root of an ordered heap is a minimum. */
  lemma {:induction false} RootIsMinimum(s: seq<Node>, i: nat)
    requires HeapOrdered(s) && i < |s|
    ensures s[0].cost <= s[i].cost
  {
    if i > 0 {
      RootIsMinimum(s, Parent(i));
    }
  }

  class PriorityQueue {
    const nodes: array<Node>
    var size: nat

    ghost predicate Valid()
      reads this, nodes
    {
      size <= nodes.Length && HeapOrdered(nodes[..size])
    }

    ghost function Contents(): multiset<Node>
      reads this, nodes
      requires size <= nodes.Length
    {
      multiset(nodes[..size])
    }

    constructor (capacity: nat)
      ensures Valid() && fresh(nodes) && nodes.Length == capacity && size == 0
    {
      nodes := new Node[capacity](_ => Node(Position(-1, -1), DirNone, INFINITY));
      size := 0;
    }

    predicate IsEmpty()
      reads this
    {
      size == 0
    }

    predicate IsFull()
      reads this
    {
      size >= nodes.Length
    }

    method Swap(i: nat, j: nat)
      requires i < size <= nodes.Length && j < size
      modifies nodes
      ensures nodes[..size] == Swapped(old(nodes[..size]), i, j)
      ensures Contents() == old(Contents())
    {
      SwappedKeepsContents(nodes[..size], i, j);
      nodes[i], nodes[j] := nodes[j], nodes[i];
      assert nodes[..size] == Swapped(old(nodes[..size]), i, j);
    }

    /** Adds exactly one node and keeps the order, or does nothing when the heap is full. */
    method Push(n: Node)
      requires Valid()
      modifies this, nodes
      ensures Valid()
      ensures old(IsFull()) ==> size == old(size) && nodes[..] == old(nodes[..])
      ensures !old(IsFull()) ==> size == old(size) + 1 && Contents() == old(Contents()) + multiset{n}
    {
      if IsFull() {
        return;
      }
      nodes[size] := n;
      size := size + 1;
      assert nodes[..size] == old(nodes[..size]) + [n];
      SiftUp(size - 1);
    }

    /** Moves a node up until its parent is not more expensive. */
    method SiftUp(start: nat)
      requires start < size <= nodes.Length && OrderedExceptUp(nodes[..size], start)
      modifies nodes
      ensures Valid() && Contents() == old(Contents())
    {
      var i := start;
      while i > 0
        invariant 0 <= i < size <= nodes.Length && OrderedExceptUp(nodes[..size], i)
        invariant Contents() == old(Contents())
      {
        var parent := Parent(i);
        if nodes[i].cost >= nodes[parent].cost {
          break;
        }
        SiftUpStep(nodes[..size], i);
        Swap(i, parent);
        i := parent;
      }
      ghost var s := nodes[..size];
      assert i > 0 ==> s[Parent(i)].cost <= s[i].cost;
    }

    /** Removes and returns a node of minimum cost; an empty heap yields the sentinel. */
    method Pop() returns (result: Node)
      requires Valid()
      modifies this, nodes
      ensures Valid()
      ensures old(IsEmpty()) ==> result == Node(Position(-1, -1), DirNone, INFINITY) && size == 0
      ensures !old(IsEmpty()) ==>
                && size == old(size) - 1
                && result in old(Contents())
                && Contents() == old(Contents()) - multiset{result}
                && forall other :: other in old(Contents()) ==> result.cost <= other.cost
    {
      if IsEmpty() {
        return Node(Position(-1, -1), DirNone, INFINITY);
      }
      hide HeapOrdered;
      MinimumOf(nodes[..size]);
      result := nodes[0];
      DropRoot();
    }

    /** Puts the last node into the root and lets it sink. */
    method DropRoot()
      requires Valid() && !IsEmpty()
      modifies this, nodes
      ensures Valid() && size == old(size) - 1 && Contents() == old(Contents()) - multiset{old(nodes[0])}
    {
      hide HeapOrdered, OrderedExceptDown;
      ghost var s := nodes[..size];
      TakeRoot(s);
      size := size - 1;
      if size > 0 {
        nodes[0] := nodes[size];
        assert nodes[..size] == s[..|s| - 1][0 := s[|s| - 1]];
        SiftDown();
      } else {
        assert nodes[..size] == [];
        EmptyIsOrdered();
      }
    }

    method SiftDown()
      requires 0 < size <= nodes.Length && OrderedExceptDown(nodes[..size], 0)
      modifies nodes
      ensures Valid() && Contents() == old(Contents())
    {
      hide HeapOrdered, OrderedExceptDown, Swapped;
      var i := 0;
      while true
        invariant i < size <= nodes.Length
        invariant OrderedExceptDown(nodes[..size], i)
        invariant Contents() == old(Contents())
        decreases size - i
      {
        var left, right := 2 * i + 1, 2 * i + 2;
        var smallest := i;
        if left < size && nodes[left].cost < nodes[smallest].cost {
          smallest := left;
        }
        if right < size && nodes[right].cost < nodes[smallest].cost {
          smallest := right;
        }
        ghost var s := nodes[..size];
        CheapestChild(s, i, smallest);
        if smallest == i {
          Settled(s, i);
          return;
        }
        SiftDownStep(s, i, smallest);
        Swap(i, smallest);
        i := smallest;
      }
    }
  }

  lemma MinimumOf(s: seq<Node>)
    requires HeapOrdered(s) && s != []
    ensures s[0] in multiset(s)
    ensures forall other :: other in multiset(s) ==> s[0].cost <= other.cost
  {
    forall other | other in multiset(s)
      ensures s[0].cost <= other.cost
    {
      assert other in s;
      var i :| 0 <= i < |s| && s[i] == other;
      RootIsMinimum(s, i);
    }
  }

  lemma RootReplaced(s: seq<Node>)
    requires |s| > 1
    ensures multiset(s[..|s| - 1][0 := s[|s| - 1]]) == multiset(s) - multiset{s[0]}
  {
    var rest, last := s[..|s| - 1], s[|s| - 1];
    var tail := rest[1..];
    assert s == [s[0]] + tail + [last];
    assert rest[0 := last] == [last] + tail;
  }

  lemma OrderBelowRoot(s: seq<Node>)
    requires HeapOrdered(s) && |s| > 1
    ensures OrderedExceptDown(s[..|s| - 1][0 := s[|s| - 1]], 0)
  {
    var r := s[..|s| - 1][0 := s[|s| - 1]];
    forall i | 0 < i < |r| && Parent(i) != 0
      ensures r[Parent(i)].cost <= r[i].cost
    {
      assert r[i] == s[i] && r[Parent(i)] == s[Parent(i)];
    }
  }

  /** Moving the last node into the root leaves a heap that is ordered except below the root. */
  lemma TakeRoot(s: seq<Node>)
    requires HeapOrdered(s) && s != []
    ensures var rest := s[..|s| - 1];
            if rest == [] then multiset(s) - multiset{s[0]} == multiset{}
            else
              && multiset(rest[0 := s[|s| - 1]]) == multiset(s) - multiset{s[0]}
              && OrderedExceptDown(rest[0 := s[|s| - 1]], 0)
  {
    hide HeapOrdered, OrderedExceptDown;
    if |s| > 1 {
      RootReplaced(s);
      OrderBelowRoot(s);
    } else {
      assert s == [s[0]];
    }
  }
}

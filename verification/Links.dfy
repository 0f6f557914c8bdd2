/**
 Intrusive circular doubly linked lists.

 Nodes are numbered, as the links of the source live in static arrays of task structures.
 A list is a ring through a head and its entries in order. A node that has only been
 initialised is the head of an empty ring. A removed node has null links.
 */
module Links {
  import opened Sequences


  const NULL: int := -1

  /** The i-th node on the way around the ring: the head, the entries in order, and the head again. */
  function Spoke(h: int, s: seq<int>, i: int): int
    requires 0 <= i <= |s| + 1
  {
    if 0 < i <= |s| then s[i - 1] else h
  }

  ghost predicate InRange(n: nat, h: int, s: seq<int>) {
    0 <= h < n && forall i :: 0 <= i < |s| ==> 0 <= s[i] < n
  }

  ghost predicate Ring(next: seq<int>, prev: seq<int>, h: int, s: seq<int>)
    requires |next| == |prev|
  {
    && InRange(|next|, h, s)
    && (forall i :: 0 <= i <= |s| ==> next[Spoke(h, s, i)] == Spoke(h, s, i + 1))
    && (forall i :: 0 <= i <= |s| ==> prev[Spoke(h, s, i + 1)] == Spoke(h, s, i))
  }

  type Lists = map<int, seq<int>>

  /** x is an entry of some list. */
  ghost predicate Member(lists: Lists, x: int) {
    exists h :: h in lists && x in lists[h]
  }

  /** Node x is a head or an entry. */
  ghost predicate Linked(lists: Lists, x: int) {
    x in lists || Member(lists, x)
  }

  /** No node is an entry of two lists or twice of one, or an entry and a head. */
  ghost predicate Disjoint(lists: Lists) {
    && (forall h :: h in lists ==> NoDuplicates(lists[h]))
    && (forall h, g, x :: h in lists && g in lists && x in lists[h] && x in lists[g] ==> h == g)
    && (forall h, x :: h in lists && x in lists[h] ==> x !in lists)
  }

  ghost predicate WellFormed(next: seq<int>, prev: seq<int>, lists: Lists) {
    && |next| == |prev|
    && Disjoint(lists)
    && forall h :: h in lists ==> Ring(next, prev, h, lists[h])
  }

  /** Writes to nodes off a ring leave it intact. */
  lemma RingFrame(next: seq<int>, prev: seq<int>, next': seq<int>, prev': seq<int>, h: int, s: seq<int>)
    requires |next| == |prev| == |next'| == |prev'| && Ring(next, prev, h, s)
    requires forall x :: 0 <= x < |next| && (x == h || x in s) ==> next'[x] == next[x] && prev'[x] == prev[x]
    ensures Ring(next', prev', h, s)
  {
    forall i | 0 <= i <= |s|
      ensures next'[Spoke(h, s, i)] == Spoke(h, s, i + 1) && prev'[Spoke(h, s, i + 1)] == Spoke(h, s, i)
    {
      assert Spoke(h, s, i) == h || Spoke(h, s, i) in s;
      assert Spoke(h, s, i + 1) == h || Spoke(h, s, i + 1) in s;
    }
  }

  lemma RingAfterAddTail(next: seq<int>, prev: seq<int>, h: int, s: seq<int>, x: int)
    requires |next| == |prev| && Ring(next, prev, h, s) && NoDuplicates(s) && h !in s
    requires 0 <= x < |next| && x != h && x !in s
    ensures var t := prev[h];
            && 0 <= t < |next| && t == Spoke(h, s, |s|)
            && Ring(next[x := h][t := x], prev[h := x][x := t], h, s + [x])
  {
    var t := prev[h];
    assert Spoke(h, s, |s| + 1) == h;
    assert t == Spoke(h, s, |s|);
    var next', prev', s' := next[x := h][t := x], prev[h := x][x := t], s + [x];
    forall i | 0 <= i <= |s'|
      ensures next'[Spoke(h, s', i)] == Spoke(h, s', i + 1) && prev'[Spoke(h, s', i + 1)] == Spoke(h, s', i)
    {
      if i < |s| {
        assert Spoke(h, s', i) == Spoke(h, s, i) && Spoke(h, s', i + 1) == Spoke(h, s, i + 1);
        assert Spoke(h, s, i) != t;
      }
    }
  }

  function Without(s: seq<int>, i: nat): seq<int>
    requires i < |s|
  {
    s[..i] + s[i + 1..]
  }

  lemma RingAfterDel(next: seq<int>, prev: seq<int>, h: int, s: seq<int>, k: nat)
    requires |next| == |prev| && Ring(next, prev, h, s) && NoDuplicates(s) && h !in s && k < |s|
    ensures var x := s[k];
            && 0 <= prev[x] < |next| && 0 <= next[x] < |next|
            && prev[x] == Spoke(h, s, k) && next[x] == Spoke(h, s, k + 2)
            && Ring(next[prev[x] := next[x]][x := NULL], prev[next[x] := prev[x]][x := NULL], h, Without(s, k))
  {
    var x := s[k];
    assert Spoke(h, s, k + 1) == x;
    assert next[Spoke(h, s, k + 1)] == Spoke(h, s, k + 2);
    assert prev[Spoke(h, s, k + 1)] == Spoke(h, s, k);
    var p, n := prev[x], next[x];
    var next', prev', s' := next[p := n][x := NULL], prev[n := p][x := NULL], Without(s, k);
    forall i | 0 <= i <= |s'|
      ensures next'[Spoke(h, s', i)] == Spoke(h, s', i + 1) && prev'[Spoke(h, s', i + 1)] == Spoke(h, s', i)
    {
      if i < k {
        assert Spoke(h, s', i) == Spoke(h, s, i) && Spoke(h, s', i + 1) == Spoke(h, s, i + 1);
        assert Spoke(h, s, i) != p && Spoke(h, s, i) != x;
      } else if i > k {
        assert Spoke(h, s', i) == Spoke(h, s, i + 1) && Spoke(h, s', i + 1) == Spoke(h, s, i + 2);
        assert Spoke(h, s, i + 1) != p && Spoke(h, s, i + 1) != x;
      } else {
        assert Spoke(h, s', i) == p && Spoke(h, s', i + 1) == n;
      }
    }
  }

  /** x carries no entries and is itself no entry, so its links may be overwritten. */
  ghost predicate Loose(lists: Lists, x: int) {
    !Member(lists, x) && (x in lists ==> lists[x] == [])
  }

  /** What list_del asks for: x was initialised, or is the entry at place k of list h. */
  ghost predicate Unlinks(lists: Lists, x: int, h: int, k: nat) {
    (x in lists && lists[x] == []) || (h in lists && k < |lists[h]| && lists[h][k] == x)
  }

  ghost function Initialised(lists: Lists, x: int): Lists {
    lists[x := []]
  }

  ghost function Added(lists: Lists, h: int, x: int): Lists
    requires h in lists
  {
    (lists - {x})[h := lists[h] + [x]]
  }

  ghost function Removed(lists: Lists, h: int, k: nat): Lists
    requires h in lists && k < |lists[h]|
  {
    lists[h := Without(lists[h], k)]
  }

  lemma InitKeepsRings(next: seq<int>, prev: seq<int>, lists: Lists, x: int)
    requires WellFormed(next, prev, lists) && Loose(lists, x) && 0 <= x < |next|
    ensures WellFormed(next[x := x], prev[x := x], Initialised(lists, x))
  {
    var next', prev', lists' := next[x := x], prev[x := x], Initialised(lists, x);
    forall g | g in lists'
      ensures Ring(next', prev', g, lists'[g])
    {
      if g != x {
        RingFrame(next, prev, next', prev', g, lists[g]);
      }
    }
  }

  lemma DropKeepsRings(next: seq<int>, prev: seq<int>, lists: Lists, x: int, n: int, p: int)
    requires WellFormed(next, prev, lists) && Loose(lists, x) && 0 <= x < |next|
    ensures WellFormed(next[x := n], prev[x := p], lists - {x})
  {
    forall g | g in lists - {x}
      ensures Ring(next[x := n], prev[x := p], g, lists[g])
    {
      RingFrame(next, prev, next[x := n], prev[x := p], g, lists[g]);
    }
  }

  lemma AddTailKeepsDisjoint(lists: Lists, h: int, x: int)
    requires Disjoint(lists) && h in lists && Loose(lists, x) && x != h
    ensures Disjoint(Added(lists, h, x))
  {
    var lists' := Added(lists, h, x);
    forall g, y | g in lists' && y in lists'[g]
      ensures y !in lists'
      ensures (y == x && g == h) || (g in lists && y in lists[g])
    {
      assert y in lists[g] || (g == h && y == x);
    }
  }

  lemma AddTailKeepsRings(next: seq<int>, prev: seq<int>, lists: Lists, h: int, x: int)
    requires WellFormed(next, prev, lists) && h in lists && Loose(lists, x) && x != h && 0 <= x < |next|
    ensures var t := prev[h];
            && 0 <= t < |next| && t == Spoke(h, lists[h], |lists[h]|)
            && WellFormed(next[x := h][t := x], prev[h := x][x := t], Added(lists, h, x))
  {
    var t := prev[h];
    RingAfterAddTail(next, prev, h, lists[h], x);
    AddTailKeepsDisjoint(lists, h, x);
    var next', prev', lists' := next[x := h][t := x], prev[h := x][x := t], Added(lists, h, x);
    forall g | g in lists'
      ensures Ring(next', prev', g, lists'[g])
    {
      if g != h {
        assert t == h || t in lists[h];
        RingFrame(next, prev, next', prev', g, lists[g]);
      }
    }
  }

  lemma RemovedKeepsDisjoint(lists: Lists, h: int, k: nat)
    requires Disjoint(lists) && h in lists && k < |lists[h]|
    ensures Disjoint(Removed(lists, h, k))
    ensures !Member(Removed(lists, h, k), lists[h][k]) && lists[h][k] !in Removed(lists, h, k)
  {
    var lists' := Removed(lists, h, k);
    forall g, y | g in lists' && y in lists'[g]
      ensures y in lists[g] && y != lists[h][k]
    {
      if g == h {
        var i :| 0 <= i < |lists'[h]| && lists'[h][i] == y;
        assert y == if i < k then lists[h][i] else lists[h][i + 1];
      }
    }
  }

  lemma DelKeepsRings(next: seq<int>, prev: seq<int>, lists: Lists, h: int, k: nat)
    requires WellFormed(next, prev, lists) && h in lists && k < |lists[h]|
    ensures var x := lists[h][k];
            && 0 <= x < |next| && 0 <= prev[x] < |next| && 0 <= next[x] < |next|
            && prev[x] == Spoke(h, lists[h], k) && next[x] == Spoke(h, lists[h], k + 2)
            && WellFormed(next[prev[x] := next[x]][x := NULL], prev[next[x] := prev[x]][x := NULL], Removed(lists, h, k))
  {
    var s := lists[h];
    var x := s[k];
    RingAfterDel(next, prev, h, s, k);
    RemovedKeepsDisjoint(lists, h, k);
    var p, n := prev[x], next[x];
    var next', prev', lists' := next[p := n][x := NULL], prev[n := p][x := NULL], Removed(lists, h, k);
    forall g | g in lists'
      ensures Ring(next', prev', g, lists'[g])
    {
      if g != h {
        assert p == h || p in s;
        assert n == h || n in s;
        RingFrame(next, prev, next', prev', g, lists[g]);
      }
    }
  }

  lemma DetachKeepsRings(next: seq<int>, prev: seq<int>, lists: Lists, x: int)
    requires WellFormed(next, prev, lists) && x in lists && lists[x] == []
    ensures 0 <= x < |next| && next[x] == prev[x] == x
    ensures WellFormed(next[x := NULL], prev[x := NULL], lists - {x})
  {
    assert Ring(next, prev, x, []);
    assert next[Spoke(x, [], 0)] == Spoke(x, [], 1) && prev[Spoke(x, [], 1)] == Spoke(x, [], 0);
    var next', prev', lists' := next[x := NULL], prev[x := NULL], lists - {x};
    forall g | g in lists'
      ensures Ring(next', prev', g, lists'[g])
    {
      RingFrame(next, prev, next', prev', g, lists[g]);
    }
  }

  ghost predicate Blank(next: seq<int>, prev: seq<int>, x: int) {
    0 <= x < |next| && x < |prev| && next[x] == prev[x] == NULL
  }

  /** Nodes on no list have null links, unless these were copied. */
  ghost predicate Clean(next: seq<int>, prev: seq<int>, lists: Lists, copied: set<int>) {
    forall x {:trigger Blank(next, prev, x)} :: 0 <= x < |next| && !Linked(lists, x) && x !in copied ==> Blank(next, prev, x)
  }

  /** Writing the links of list nodes, and of x, leaves all others as they are. */
  lemma StaysClean(next: seq<int>, prev: seq<int>, lists: Lists, copied: set<int>,
                   next': seq<int>, prev': seq<int>, lists': Lists, copied': set<int>, written: set<int>, x: int)
    requires Clean(next, prev, lists, copied) && |next| == |prev| == |next'| == |prev'|
    requires forall y :: 0 <= y < |next| && y !in written && y != x ==> next'[y] == next[y] && prev'[y] == prev[y]
    requires forall y :: y in written ==> Linked(lists', y)
    requires forall y :: y != x && Linked(lists, y) ==> Linked(lists', y)
    requires copied - {x} <= copied' && (Linked(lists', x) || x in copied' || Blank(next', prev', x))
    ensures Clean(next', prev', lists', copied')
  {
    forall y | 0 <= y < |next'| && !Linked(lists', y) && y !in copied'
      ensures Blank(next', prev', y)
    {
      if y != x {
        assert Blank(next, prev, y);
      }
    }
  }

  lemma OthersStayLinked(lists: Lists, lists': Lists, x: int)
    requires forall h :: h in lists && h != x ==> h in lists' && forall y :: y in lists[h] && y != x ==> y in lists'[h]
    requires x in lists ==> lists[x] == []
    ensures forall y :: y != x && Linked(lists, y) ==> Linked(lists', y)
  {
    forall y | y != x && Linked(lists, y)
      ensures Linked(lists', y)
    {
      if y !in lists {
        var h :| h in lists && y in lists[h];
        assert h in lists' && y in lists'[h];
      }
    }
  }

  lemma WithoutKeepsOthers(s: seq<int>, k: nat)
    requires k < |s|
    ensures forall y :: y in s && y != s[k] ==> y in Without(s, k)
  {
    assert s == s[..k] + [s[k]] + s[k + 1..];
  }

  /** The neighbours of an entry are still linked when it is gone. */
  lemma NeighboursStay(lists: Lists, h: int, k: nat)
    requires Disjoint(lists) && h in lists && k < |lists[h]|
    ensures Linked(Removed(lists, h, k), Spoke(h, lists[h], k)) && Linked(Removed(lists, h, k), Spoke(h, lists[h], k + 2))
  {
    var s := lists[h];
    var lists' := Removed(lists, h, k);
    assert lists'[h] == Without(s, k);
    WithoutKeepsOthers(s, k);
    if k > 0 {
      assert s[k - 1] in s && s[k - 1] in lists'[h];
    }
    if k + 1 < |s| {
      assert s[k + 1] in s && s[k + 1] in lists'[h];
    }
  }

  lemma CleanAfterWrite(next: seq<int>, prev: seq<int>, lists: Lists, copied: set<int>, lists': Lists, copied': set<int>, x: int, a: int, b: int)
    requires Clean(next, prev, lists, copied) && Loose(lists, x) && 0 <= x < |next| == |prev|
    requires (lists' == lists[x := []] && copied' == copied - {x}) || (lists' == lists - {x} && copied' == copied + {x})
             || (lists' == lists - {x} && copied' == copied - {x} && a == b == NULL)
    ensures Clean(next[x := a], prev[x := b], lists', copied')
  {
    OthersStayLinked(lists, lists', x);
    hide Linked;
    StaysClean(next, prev, lists, copied, next[x := a], prev[x := b], lists', copied', {}, x);
  }

  lemma CleanAfterAdd(next: seq<int>, prev: seq<int>, lists: Lists, copied: set<int>, h: int, x: int, t: int)
    requires Clean(next, prev, lists, copied) && h in lists && Loose(lists, x) && x != h && 0 <= x < |next| == |prev| && 0 <= h < |next|
    requires 0 <= t < |next| && t == Spoke(h, lists[h], |lists[h]|)
    ensures Clean(next[x := h][t := x], prev[h := x][x := t], Added(lists, h, x), copied - {x})
  {
    var lists' := Added(lists, h, x);
    OthersStayLinked(lists, lists', x);
    assert Linked(lists', t) && Linked(lists', x) && Linked(lists', h) by {
      assert t == h || t in lists'[h];
      assert x in lists'[h];
    }
    hide Linked;
    StaysClean(next, prev, lists, copied, next[x := h][t := x], prev[h := x][x := t], lists', copied - {x}, {h, t}, x);
  }

  lemma CleanAfterDel(next: seq<int>, prev: seq<int>, lists: Lists, copied: set<int>, h: int, k: nat, p: int, n: int)
    requires Clean(next, prev, lists, copied) && Disjoint(lists) && h in lists && k < |lists[h]| && |next| == |prev|
    requires 0 <= lists[h][k] < |next| && 0 <= p < |next| && 0 <= n < |next|
    requires p == Spoke(h, lists[h], k) && n == Spoke(h, lists[h], k + 2)
    ensures Clean(next[p := n][lists[h][k] := NULL], prev[n := p][lists[h][k] := NULL], Removed(lists, h, k), copied - {lists[h][k]})
  {
    var x, lists' := lists[h][k], Removed(lists, h, k);
    NeighboursStay(lists, h, k);
    WithoutKeepsOthers(lists[h], k);
    assert x in lists[h];
    OthersStayLinked(lists, lists', x);
    hide Linked;
    StaysClean(next, prev, lists, copied, next[p := n][x := NULL], prev[n := p][x := NULL], lists', copied - {x}, {p, n}, x);
  }

  /** The memory that holds the links of a family of nodes. */
  class LinkMemory {
    const next: array<int>
    const prev: array<int>
    ghost var lists: Lists
    /** Nodes whose links were copied from another node and not written since. */
    ghost var copied: set<int>

    ghost predicate Valid()
      reads this, next, prev
    {
      next != prev && WellFormed(next[..], prev[..], lists) && Clean(next[..], prev[..], lists, copied)
    }

    constructor (n: nat)
      ensures Valid() && lists == map[] && copied == {} && next.Length == n && fresh(next) && fresh(prev)
    {
      next := new int[n](_ => NULL);
      prev := new int[n](_ => NULL);
      lists, copied := map[], {};
    }

    method InitListHead(x: int)
      requires Valid() && 0 <= x < next.Length && Loose(lists, x)
      modifies this, next, prev
      ensures Valid() && lists == Initialised(old(lists), x) && copied == old(copied) - {x}
    {
      InitKeepsRings(next[..], prev[..], lists, x);
      CleanAfterWrite(next[..], prev[..], lists, copied, Initialised(lists, x), copied - {x}, x, x, x);
      next[x] := x;
      prev[x] := x;
      assert next[..] == old(next[..])[x := x] && prev[..] == old(prev[..])[x := x];
      lists, copied := Initialised(lists, x), copied - {x};
    }

    /** Copies the links of a node, as part of a copied structure; the copy is on no list. */
    method CopyLinks(from: int, to: int)
      requires Valid() && 0 <= from < next.Length && 0 <= to < next.Length && Loose(lists, to)
      modifies this, next, prev
      ensures Valid() && lists == old(lists) - {to} && copied == old(copied) + {to}
    {
      DropKeepsRings(next[..], prev[..], lists, to, next[from], prev[from]);
      CleanAfterWrite(next[..], prev[..], lists, copied, lists - {to}, copied + {to}, to, next[from], prev[from]);
      next[to] := next[from];
      prev[to] := prev[from];
      assert next[..] == old(next[..])[to := old(next[from])] && prev[..] == old(prev[..])[to := old(prev[from])];
      lists, copied := lists - {to}, copied + {to};
    }

    method ListAddTail(x: int, h: int)
      requires Valid() && 0 <= x < next.Length && h in lists && Loose(lists, x) && x != h
      modifies this, next, prev
      ensures Valid() && lists == Added(old(lists), h, x) && copied == old(copied) - {x}
    {
      AddTailKeepsRings(next[..], prev[..], lists, h, x);
      assert Ring(next[..], prev[..], h, lists[h]);
      CleanAfterAdd(next[..], prev[..], lists, copied, h, x, prev[h]);
      var before := prev[h];
      prev[h] := x;
      next[x] := h;
      prev[x] := before;
      next[before] := x;
      assert next[..] == old(next[..])[x := h][before := x];
      assert prev[..] == old(prev[..])[h := x][x := before];
      lists, copied := Added(lists, h, x), copied - {x};
    }

    /** Unlinks an entry of a list; on a node that was only initialised it just clears the links. */
    method ListDel(x: int, ghost h: int, ghost k: nat)
      requires Valid() && Unlinks(lists, x, h, k)
      modifies this, next, prev
      ensures Valid()
      ensures next[x] == prev[x] == NULL
      ensures lists == if x in old(lists) then old(lists) - {x} else Removed(old(lists), h, k)
      ensures copied == old(copied) - {x}
    {
      ghost var single := x in lists;
      if single {
        DetachKeepsRings(next[..], prev[..], lists, x);
        CleanAfterWrite(next[..], prev[..], lists, copied, lists - {x}, copied - {x}, x, NULL, NULL);
      } else {
        DelKeepsRings(next[..], prev[..], lists, h, k);
        CleanAfterDel(next[..], prev[..], lists, copied, h, k, prev[x], next[x]);
        RemovedKeepsDisjoint(lists, h, k);
      }
      var before, after := prev[x], next[x];
      prev[after] := before;
      next[before] := after;
      next[x] := NULL;
      prev[x] := NULL;
      assert next[..] == old(next[..])[before := after][x := NULL];
      assert prev[..] == old(prev[..])[after := before][x := NULL];
      if single {
        assert next[..] == old(next[..])[x := NULL] && prev[..] == old(prev[..])[x := NULL];
        lists := lists - {x};
      } else {
        lists := Removed(lists, h, k);
      }
      copied := copied - {x};
    }

    method ListEmpty(h: int) returns (empty: bool)
      requires Valid() && h in lists
      ensures empty <==> lists[h] == []
    {
      assert Ring(next[..], prev[..], h, lists[h]);
      assert next[Spoke(h, lists[h], 0)] == Spoke(h, lists[h], 1);
      empty := next[h] == h;
    }

    /** The node after the i-th entry: the next entry, or the head again. */
    method ListNext(x: int, ghost h: int, ghost i: nat) returns (y: int)
      requires Valid() && h in lists && i < |lists[h]| && lists[h][i] == x
      ensures y == if i + 1 < |lists[h]| then lists[h][i + 1] else h
    {
      assert Ring(next[..], prev[..], h, lists[h]);
      assert next[Spoke(h, lists[h], i + 1)] == Spoke(h, lists[h], i + 2);
      y := next[x];
    }

    method ListFirst(h: int) returns (x: int)
      requires Valid() && h in lists && lists[h] != []
      ensures x == lists[h][0]
    {
      assert Ring(next[..], prev[..], h, lists[h]);
      assert next[Spoke(h, lists[h], 0)] == Spoke(h, lists[h], 1);
      x := next[h];
    }
  }
}

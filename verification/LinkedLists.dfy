/**
 * The SLISTs of listener.c and table.c as nodes that point to each other, spliced in place.
 * The loops of listeners_reload and reload_tables are proved to leave exactly the lists
 * that the rest of the model works with.
 */
module LinkedLists {
  import opened Addresses
  import opened ProxyModel
  import opened ProxyRefs
  import opened ListenerMerge
  import opened TableReload

  /** A listener or table in a list; entries.sle_next is next. */
  class Node {
    const id: nat
    var next: Node?

    constructor (id: nat)
      ensures this.id == id && next == null
    {
      this.id := id;
      next := null;
    }
  }

  ghost function IdsOf(nodes: seq<Node>): (ids: seq<nat>)
    ensures |ids| == |nodes|
  {
    seq(|nodes|, i requires 0 <= i < |nodes| => nodes[i].id)
  }

  /** The node a cursor points to: the i-th, or NULL past the end. */
  ghost function At(nodes: seq<Node>, i: nat): Node? {
    if i < |nodes| then nodes[i] else null
  }

  ghost predicate Apart(nodes: seq<Node>) {
    forall i, j :: 0 <= i < j < |nodes| ==> nodes[i] != nodes[j]
  }

  ghost predicate Linked(nodes: seq<Node>)
    reads nodes
  {
    forall i :: 0 <= i < |nodes| ==> nodes[i].next == At(nodes, i + 1)
  }

  lemma IdsWithout(nodes: seq<Node>, k: nat)
    requires k < |nodes|
    ensures IdsOf(Without(nodes, k)) == Without(IdsOf(nodes), k)
  {
  }

  lemma IdsInsert(nodes: seq<Node>, k: nat, n: Node)
    requires k <= |nodes|
    ensures IdsOf(InsertAt(nodes, k, n)) == InsertAt(IdsOf(nodes), k, n.id)
  {
  }

  lemma InsertedApart(nodes: seq<Node>, k: nat, n: Node)
    requires Apart(nodes) && n !in nodes && k <= |nodes|
    ensures Apart(InsertAt(nodes, k, n))
  {
  }

  lemma InsertedLinked(nodes: seq<Node>, k: nat, n: Node)
    requires k < |nodes| && nodes[k].next == n && n.next == At(nodes, k + 1)
    requires forall i :: 0 <= i < |nodes| && i != k ==> nodes[i].next == At(nodes, i + 1)
    ensures Linked(InsertAt(nodes, k + 1, n))
  {
  }

  lemma WithoutLinked(nodes: seq<Node>, k: nat)
    requires Apart(nodes) && k + 1 < |nodes| && nodes[k].next == At(nodes, k + 2)
    requires forall i :: 0 <= i < |nodes| && i != k ==> nodes[i].next == At(nodes, i + 1)
    ensures Apart(Without(nodes, k + 1)) && Linked(Without(nodes, k + 1))
  {
    var r := Without(nodes, k + 1);
    forall i | 0 <= i < |r|
      ensures r[i].next == At(r, i + 1)
    {
      if i <= k {
        assert r[i] == nodes[i];
      } else {
        assert r[i] == nodes[i + 1];
      }
    }
  }

  ghost predicate Among(nodes: seq<Node>, all: set<Node>) {
    forall n :: n in nodes ==> n in all
  }

  ghost predicate None(nodes: seq<Node>, all: set<Node>) {
    forall n :: n in nodes ==> n !in all
  }

  class SList {
    var head: Node?
    ghost var nodes: seq<Node>

    ghost predicate Valid()
      reads this, nodes
    {
      head == At(nodes, 0) && Apart(nodes) && Linked(nodes)
    }

    constructor ()
      ensures Valid() && nodes == []
    {
      head, nodes := null, [];
    }

    /** SLIST_INSERT_HEAD. */
    method InsertHead(n: Node)
      requires Valid() && n !in nodes
      modifies this, n
      ensures Valid() && nodes == [n] + old(nodes)
    {
      n.next := head;
      head := n;
      nodes := [n] + nodes;
    }

    /** SLIST_INSERT_AFTER the k-th node. */
    method InsertAfter(prev: Node, n: Node, ghost k: nat)
      requires Valid() && k < |nodes| && nodes[k] == prev && n !in nodes
      modifies this`nodes, prev, n
      ensures Valid() && nodes == InsertAt(old(nodes), k + 1, n)
    {
      n.next := prev.next;
      prev.next := n;
      InsertedApart(nodes, k + 1, n);
      InsertedLinked(nodes, k, n);
      nodes := InsertAt(nodes, k + 1, n);
    }

    /** SLIST_REMOVE_HEAD. */
    method RemoveHead()
      requires Valid() && nodes != []
      modifies this
      ensures Valid() && nodes == old(nodes)[1..]
    {
      head := head.next;
      nodes := nodes[1..];
    }

    /** The node behind the k-th is unlinked. */
    method RemoveNext(prev: Node, ghost k: nat)
      requires Valid() && k + 1 < |nodes| && nodes[k] == prev
      modifies this`nodes, prev
      ensures Valid() && nodes == Without(old(nodes), k + 1)
    {
      prev.next := prev.next.next;
      WithoutLinked(nodes, k);
      nodes := Without(nodes, k + 1);
    }

    /** SLIST_REMOVE: the node is searched from the head. */
    method Remove(n: Node, ghost k: nat)
      requires Valid() && k < |nodes| && nodes[k] == n
      modifies this, nodes
      ensures Valid() && nodes == Without(old(nodes), k) && n.next == old(n.next)
    {
      if head == n {
        RemoveHead();
      } else {
        var prev := head;
        ghost var i := 0;
        while prev.next != n
          invariant i < k && prev == nodes[i]
          decreases k - i
        {
          prev := prev.next;
          i := i + 1;
        }
        RemoveNext(prev, i);
      }
    }

    /** add_listener on the nodes: before the first larger address, which is the k-th. */
    method AddSorted(n: Node, addr: LId -> Addr, ghost k: nat)
      requires Valid() && n !in nodes && k <= |nodes|
      requires forall p :: 0 <= p < k ==> Compare(addr(n.id), addr(nodes[p].id)) >= 0
      requires k < |nodes| ==> Compare(addr(n.id), addr(nodes[k].id)) < 0
      modifies this, nodes, n
      ensures Valid() && nodes == InsertAt(old(nodes), k, n)
    {
      if head == null || Compare(addr(n.id), addr(head.id)) < 0 {
        InsertHead(n);
      } else {
        var iter := head;
        ghost var i := 0;
        while iter.next != null && Compare(addr(n.id), addr(iter.next.id)) >= 0
          invariant i < k && iter == nodes[i]
          decreases k - i
        {
          iter := iter.next;
          i := i + 1;
        }
        InsertAfter(iter, n, i);
      }
    }

    /** table_lookup: whether some table of the list has this name. */
    method HasName(name: TId -> TableName, n: TableName) returns (found: bool)
      requires Valid()
      ensures found <==> Wanted(name, IdsOf(nodes), n)
    {
      var iter := head;
      ghost var i := 0;
      while iter != null
        invariant i <= |nodes| && iter == At(nodes, i)
        invariant forall k :: 0 <= k < i ==> name(IdsOf(nodes)[k]) != n
        decreases |nodes| - i
      {
        if name(iter.id) == n {
          assert name(IdsOf(nodes)[i]) == n;
          return true;
        }
        iter := iter.next;
        i := i + 1;
      }
      found := false;
    }

    /** First loop of reload_tables: tables at the beginning of the list that the new list does not name. */
    method DropUnusedHead(incoming: SList, name: TId -> TableName, ghost own: set<Node>)
      requires Valid() && incoming.Valid() && incoming != this && Among(nodes, own)
      modifies this
      ensures Valid() && incoming.Valid() && Among(nodes, own)
      ensures IdsOf(nodes) == Lead(UsedBy(name, IdsOf(incoming.nodes)), old(IdsOf(nodes)))
    {
      ghost var used := UsedBy(name, IdsOf(incoming.nodes));
      while head != null
        invariant Valid() && incoming.Valid() && Among(nodes, own)
        invariant Lead(used, IdsOf(nodes)) == Lead(used, old(IdsOf(nodes)))
        decreases |nodes|
      {
        var found := incoming.HasName(name, name(head.id));
        if found {
          break;
        }
        assert IdsOf(nodes)[1..] == IdsOf(nodes[1..]);
        RemoveHead();
      }
    }

    /** Second loop: the cursor steps onto the node that moved up, whether it is used or not. */
    method DropUnusedFollowing(incoming: SList, name: TId -> TableName, ghost own: set<Node>)
      requires Valid() && incoming.Valid() && incoming != this && Among(nodes, own) && None(incoming.nodes, own)
      modifies this, own
      ensures Valid() && incoming.Valid() && Among(nodes, own)
      ensures IdsOf(nodes) == Sweep(UsedBy(name, IdsOf(incoming.nodes)), old(IdsOf(nodes)))
    {
      var iter := head;
      ghost var i, used := 0, UsedBy(name, IdsOf(incoming.nodes));
      ghost var goal := Sweep(used, IdsOf(nodes));
      SweptStart(used, nodes);
      while iter != null
        invariant Valid() && incoming.Valid() && Among(nodes, own) && i <= |nodes| && iter == At(nodes, i)
        invariant Swept(used, nodes, i, goal)
        decreases |nodes| - i
      {
        assert iter in nodes;
        SweptStep(used, nodes, i, goal);
        DropNextUnused(iter, incoming, name, i);
        iter := iter.next;
        i := i + 1;
      }
      SweptEnd(used, nodes, goal);
    }

    /** The node behind the k-th goes if the new list does not name it. */
    method DropNextUnused(iter: Node, incoming: SList, name: TId -> TableName, ghost k: nat)
      requires Valid() && incoming.Valid() && incoming != this && iter !in incoming.nodes
      requires k < |nodes| && nodes[k] == iter
      modifies this`nodes, iter
      ensures Valid() && incoming.Valid() && k < |nodes| && nodes[k] == iter
      ensures nodes == NextDropped(UsedBy(name, IdsOf(incoming.nodes)), old(nodes), k)
      ensures forall n :: n in nodes ==> n in old(nodes)
    {
      if iter.next != null {
        var found := incoming.HasName(name, name(iter.next.id));
        if !found {
          RemoveNext(iter, k);
        }
      }
    }
  }

  ghost function NextDropped(used: TId -> bool, nodes: seq<Node>, k: nat): seq<Node>
    requires k < |nodes|
  {
    if k + 1 < |nodes| && !used(nodes[k + 1].id) then Without(nodes, k + 1) else nodes
  }

  /** With the nodes before i done, sweeping the rest completes the goal. */
  ghost predicate Swept(used: TId -> bool, nodes: seq<Node>, i: nat, goal: seq<nat>) {
    i <= |nodes| && IdsOf(nodes)[..i] + Sweep(used, IdsOf(nodes)[i..]) == goal
  }

  lemma SweptStart(used: TId -> bool, nodes: seq<Node>)
    ensures Swept(used, nodes, 0, Sweep(used, IdsOf(nodes)))
  {
    assert IdsOf(nodes)[0..] == IdsOf(nodes);
  }

  lemma SweptStep(used: TId -> bool, nodes: seq<Node>, i: nat, goal: seq<nat>)
    requires i < |nodes| && Swept(used, nodes, i, goal)
    ensures Swept(used, NextDropped(used, nodes, i), i + 1, goal)
  {
    var ids := IdsOf(nodes);
    if i + 1 < |nodes| && !used(nodes[i + 1].id) {
      SweepRemoves(used, ids, i);
      IdsWithout(nodes, i + 1);
    } else {
      SweepPasses(used, ids, i);
    }
  }

  lemma SweptEnd(used: TId -> bool, nodes: seq<Node>, goal: seq<nat>)
    requires Swept(used, nodes, |nodes|, goal)
    ensures IdsOf(nodes) == goal
  {
    assert IdsOf(nodes)[..|nodes|] + [] == IdsOf(nodes);
  }

  // ---------------------------------------------------------------- listeners_reload on nodes

  /** What the walk over two sorted lists keeps. */
  ghost predicate WalkOk(ex: seq<LId>, nw: seq<LId>, i: nat, j: nat, addr: LId -> Addr) {
    && i <= |ex| && j <= |nw| && Sorted(addr, ex) && Sorted(addr, nw)
    && AllBelow(addr, ex[..i], nw[j..])
  }

  /** In a walk add_listener inserts where the cursor stands. */
  lemma PlaceIs(ex: seq<LId>, nw: seq<LId>, i: nat, j: nat, addr: LId -> Addr)
    requires WalkOk(ex, nw, i, j, addr) && j < |nw|
    requires i < |ex| ==> Compare(addr(ex[i]), addr(nw[j])) > 0
    ensures forall p :: 0 <= p < i ==> Compare(addr(nw[j]), addr(ex[p])) >= 0
    ensures i < |ex| ==> Compare(addr(nw[j]), addr(ex[i])) < 0
  {
    forall p | 0 <= p < i
      ensures Compare(addr(nw[j]), addr(ex[p])) >= 0
    {
      assert ex[..i][p] == ex[p] && nw[j..][0] == nw[j];
      CompareFlip(addr(nw[j]), addr(ex[p]));
    }
    if i < |ex| { CompareFlip(addr(nw[j]), addr(ex[i])); }
  }

  ghost predicate Separate(a: seq<Node>, b: seq<Node>) {
    forall n :: n in a ==> n !in b
  }

  lemma TakenOut(nodes: seq<Node>, k: nat)
    requires Apart(nodes) && k < |nodes|
    ensures nodes[k] !in Without(nodes, k)
    ensures forall n :: n in Without(nodes, k) ==> n in nodes
  {
  }

  lemma PutIn(nodes: seq<Node>, k: nat, n: Node)
    requires k <= |nodes|
    ensures forall m :: m in InsertAt(nodes, k, n) ==> m == n || m in nodes
  {
  }

  /** A node leaves one list; the other list is as it was. */
  method UnlinkNode(list: SList, other: SList, n: Node, ghost i: nat)
    requires list.Valid() && other.Valid() && list != other
    requires Separate(list.nodes, other.nodes)
    requires i < |list.nodes| && list.nodes[i] == n
    modifies list, list.nodes
    ensures list.Valid() && other.Valid() && list.nodes == Without(old(list.nodes), i)
    ensures Separate(list.nodes, other.nodes)
  {
    ghost var ns := other.nodes;
    TakenOut(list.nodes, i);
    list.Remove(n, i);
    forall k | 0 <= k < |ns|
      ensures ns[k].next == old(ns[k].next)
    {
      assert ns[k] in ns;
    }
    assert other.Valid();
  }

  /** A node enters a list before the first larger address; the other list is as it was. */
  method PlaceNode(list: SList, other: SList, n: Node, addr: LId -> Addr, ghost i: nat)
    requires list.Valid() && other.Valid() && list != other && Separate(list.nodes, other.nodes)
    requires n !in list.nodes && n !in other.nodes && i <= |list.nodes|
    requires forall p :: 0 <= p < i ==> Compare(addr(n.id), addr(list.nodes[p].id)) >= 0
    requires i < |list.nodes| ==> Compare(addr(n.id), addr(list.nodes[i].id)) < 0
    modifies list, list.nodes, n
    ensures list.Valid() && other.Valid() && list.nodes == InsertAt(old(list.nodes), i, n)
    ensures Separate(list.nodes, other.nodes)
  {
    ghost var ns := other.nodes;
    PutIn(list.nodes, i, n);
    list.AddSorted(n, addr, i);
    forall k | 0 <= k < |ns|
      ensures ns[k].next == old(ns[k].next)
    {
      assert ns[k] in ns;
    }
    assert other.Valid();
  }

  /** The added case: out of one list, into the other. */
  method MoveNode(existing: SList, incoming: SList, n: Node, addr: LId -> Addr, ghost i: nat, ghost j: nat)
    requires existing.Valid() && incoming.Valid() && existing != incoming
    requires Separate(existing.nodes, incoming.nodes)
    requires j < |incoming.nodes| && incoming.nodes[j] == n && i <= |existing.nodes|
    requires forall p :: 0 <= p < i ==> Compare(addr(n.id), addr(existing.nodes[p].id)) >= 0
    requires i < |existing.nodes| ==> Compare(addr(n.id), addr(existing.nodes[i].id)) < 0
    modifies existing, incoming, existing.nodes, incoming.nodes
    ensures existing.Valid() && incoming.Valid()
    ensures existing.nodes == InsertAt(old(existing.nodes), i, n)
    ensures incoming.nodes == Without(old(incoming.nodes), j)
    ensures Separate(existing.nodes, incoming.nodes)
  {
    TakenOut(incoming.nodes, j);
    UnlinkNode(incoming, existing, n, j);
    PlaceNode(existing, incoming, n, addr, i);
  }

  /** The walk stands at i and j, and from here completes the goal. */
  ghost predicate Merging(ex: seq<Node>, nw: seq<Node>, i: nat, j: nat, addr: LId -> Addr, goal: seq<LId>) {
    && WalkOk(IdsOf(ex), IdsOf(nw), i, j, addr)
    && BuiltFrom(IdsOf(ex), IdsOf(nw), i, j, addr) == goal
  }

  /** The comparison the loop acts on; a list that is used up compares as larger. */
  ghost function Order(ex: seq<Node>, nw: seq<Node>, i: nat, j: nat, addr: LId -> Addr): int
    requires i <= |ex| && j <= |nw|
  {
    if i == |ex| then 1 else if j == |nw| then -1 else Compare(addr(ex[i].id), addr(nw[j].id))
  }

  lemma MergingAdd(ex: seq<Node>, nw: seq<Node>, i: nat, j: nat, addr: LId -> Addr, goal: seq<LId>)
    requires Merging(ex, nw, i, j, addr, goal) && (i < |ex| || j < |nw|) && Order(ex, nw, i, j, addr) > 0
    ensures j < |nw| && Merging(InsertAt(ex, i, nw[j]), Without(nw, j), i + 1, j, addr, goal)
    ensures forall p :: 0 <= p < i ==> Compare(addr(nw[j].id), addr(ex[p].id)) >= 0
    ensures i < |ex| ==> Compare(addr(nw[j].id), addr(ex[i].id)) < 0
  {
    var e, n := IdsOf(ex), IdsOf(nw);
    IdsInsert(ex, i, nw[j]);
    IdsWithout(nw, j);
    PlaceIs(e, n, i, j, addr);
    WalkAddSorted(e, n, i, j, addr);
    BuiltByAdd(e, n, i, j, addr);
    forall p | 0 <= p < i
      ensures Compare(addr(nw[j].id), addr(ex[p].id)) >= 0
    {
      assert e[p] == ex[p].id && n[j] == nw[j].id;
    }
  }

  lemma MergingBoth(ex: seq<Node>, nw: seq<Node>, i: nat, j: nat, addr: LId -> Addr, goal: seq<LId>)
    requires Merging(ex, nw, i, j, addr, goal) && (i < |ex| || j < |nw|) && Order(ex, nw, i, j, addr) == 0
    ensures i < |ex| && j < |nw| && Merging(ex, nw, i + 1, j + 1, addr, goal)
  {
    var e, n := IdsOf(ex), IdsOf(nw);
    CompareZero(addr(e[i]), addr(n[j]));
    PassBoth(e, n, i, j, addr);
    BuiltByUpdate(e, n, i, j, addr);
  }

  lemma MergingRemove(ex: seq<Node>, nw: seq<Node>, i: nat, j: nat, addr: LId -> Addr, goal: seq<LId>)
    requires Merging(ex, nw, i, j, addr, goal) && (i < |ex| || j < |nw|) && Order(ex, nw, i, j, addr) < 0
    ensures i < |ex| && Merging(Without(ex, i), nw, i, j, addr, goal)
  {
    var e, n := IdsOf(ex), IdsOf(nw);
    IdsWithout(ex, i);
    SortedWithout(addr, e, i);
    assert Without(e, i)[..i] == e[..i];
    BuiltByRemove(e, n, i, j, addr);
  }

  lemma MergingStart(ex: seq<Node>, nw: seq<Node>, addr: LId -> Addr)
    requires Sorted(addr, IdsOf(ex)) && Sorted(addr, IdsOf(nw))
    ensures Merging(ex, nw, 0, 0, addr, MergeIds(addr, IdsOf(ex), IdsOf(nw)))
  {
    var e, n := IdsOf(ex), IdsOf(nw);
    assert e[0..] == e && n[0..] == n;
  }

  lemma MergingEnd(ex: seq<Node>, nw: seq<Node>, addr: LId -> Addr, goal: seq<LId>)
    requires Merging(ex, nw, |ex|, |nw|, addr, goal)
    ensures IdsOf(ex) == goal
  {
    assert IdsOf(ex)[..|ex|] + [] == IdsOf(ex);
  }

  /** Every node of the two lists is one of these. */
  ghost predicate Within(a: seq<Node>, b: seq<Node>, all: set<Node>) {
    Among(a, all) && Among(b, all)
  }

  lemma WithinAdd(ex: seq<Node>, nw: seq<Node>, i: nat, j: nat, all: set<Node>)
    requires Within(ex, nw, all) && i <= |ex| && j < |nw|
    ensures Within(InsertAt(ex, i, nw[j]), Without(nw, j), all)
  {
    assert nw[j] in nw;
    PutIn(ex, i, nw[j]);
  }

  lemma WithinRemove(ex: seq<Node>, nw: seq<Node>, i: nat, all: set<Node>)
    requires Within(ex, nw, all) && i < |ex|
    ensures Within(Without(ex, i), nw, all)
  {
  }

  /**
   * listeners_reload on the nodes: one walk over both lists, moving a node into the list
   * being walked, passing two of the same address, or unlinking one. The running list ends
   * up as the merged list.
   */
  method MergeLists(existing: SList, incoming: SList, addr: LId -> Addr, ghost all: set<Node>)
    requires existing.Valid() && incoming.Valid() && existing != incoming
    requires Separate(existing.nodes, incoming.nodes) && Within(existing.nodes, incoming.nodes, all)
    requires Sorted(addr, IdsOf(existing.nodes)) && Sorted(addr, IdsOf(incoming.nodes))
    modifies existing, incoming, all
    ensures existing.Valid() && incoming.Valid() && Separate(existing.nodes, incoming.nodes)
    ensures IdsOf(existing.nodes) == MergeIds(addr, old(IdsOf(existing.nodes)), old(IdsOf(incoming.nodes)))
  {
    var e, n := existing.head, incoming.head;
    ghost var goal := MergeIds(addr, IdsOf(existing.nodes), IdsOf(incoming.nodes));
    ghost var at := Place(existing.nodes, incoming.nodes, 0, 0);
    MergingStart(existing.nodes, incoming.nodes, addr);
    while e != null || n != null
      invariant existing.Valid() && incoming.Valid() && at.Of(existing, incoming, e, n)
      invariant at.Good(addr, goal, all)
      decreases at.Left()
    {
      e, n, at := MergeOnce(existing, incoming, e, n, addr, at, goal, all);
    }
    PlaceEnd(at, addr, goal, all);
  }

  lemma PlaceEnd(at: Place, addr: LId -> Addr, goal: seq<LId>, all: set<Node>)
    requires at.Good(addr, goal, all) && At(at.ex, at.i) == null && At(at.nw, at.j) == null
    ensures IdsOf(at.ex) == goal
  {
    MergingEnd(at.ex, at.nw, addr, goal);
  }

  /** Where the walk stands: both lists, and the two cursors as positions in them. */
  datatype Place = Place(ex: seq<Node>, nw: seq<Node>, i: nat, j: nat) {
    ghost predicate Of(existing: SList, incoming: SList, e: Node?, n: Node?)
      reads existing, incoming
    {
      existing.nodes == ex && incoming.nodes == nw && e == At(ex, i) && n == At(nw, j)
    }

    ghost predicate Good(addr: LId -> Addr, goal: seq<LId>, all: set<Node>) {
      Merging(ex, nw, i, j, addr, goal) && Separate(ex, nw) && Within(ex, nw, all)
    }

    ghost function Left(): int { |ex| - i + 2 * (|nw| - j) }
  }

  /** One turn of the loop. */
  method MergeOnce(existing: SList, incoming: SList, e: Node?, n: Node?, addr: LId -> Addr,
                   ghost at: Place, ghost goal: seq<LId>, ghost all: set<Node>)
    returns (e': Node?, n': Node?, ghost at': Place)
    requires existing.Valid() && incoming.Valid() && existing != incoming
    requires at.Of(existing, incoming, e, n) && at.Good(addr, goal, all) && (e != null || n != null)
    modifies existing, incoming, all
    ensures existing.Valid() && incoming.Valid() && at'.Of(existing, incoming, e', n')
    ensures at'.Good(addr, goal, all) && at'.Left() < at.Left()
  {
    var order := if e == null then 1 else if n == null then -1 else Compare(addr(e.id), addr(n.id));
    assert order == Order(at.ex, at.nw, at.i, at.j, addr);
    if order > 0 {
      e', n', at' := MergeNew(existing, incoming, e, n, addr, at, goal, all);
    } else if order == 0 {
      MergingBoth(at.ex, at.nw, at.i, at.j, addr, goal);
      e', n', at' := e.next, n.next, at.(i := at.i + 1, j := at.j + 1);
    } else {
      e', n', at' := MergeGone(existing, incoming, e, n, addr, at, goal, all);
    }
  }

  method MergeNew(existing: SList, incoming: SList, e: Node?, n: Node, addr: LId -> Addr,
                  ghost at: Place, ghost goal: seq<LId>, ghost all: set<Node>)
    returns (e': Node?, n': Node?, ghost at': Place)
    requires existing.Valid() && incoming.Valid() && existing != incoming
    requires at.Of(existing, incoming, e, n) && at.Good(addr, goal, all)
    requires Order(at.ex, at.nw, at.i, at.j, addr) > 0
    modifies existing, incoming, all
    ensures existing.Valid() && incoming.Valid() && at'.Of(existing, incoming, e', n')
    ensures at'.Good(addr, goal, all) && at'.Left() < at.Left()
  {
    MergingAdd(at.ex, at.nw, at.i, at.j, addr, goal);
    WithinAdd(at.ex, at.nw, at.i, at.j, all);
    e', n' := e, n.next;
    MoveNode(existing, incoming, n, addr, at.i, at.j);
    at' := Place(InsertAt(at.ex, at.i, n), Without(at.nw, at.j), at.i + 1, at.j);
  }

  method MergeGone(existing: SList, incoming: SList, e: Node, n: Node?, addr: LId -> Addr,
                   ghost at: Place, ghost goal: seq<LId>, ghost all: set<Node>)
    returns (e': Node?, n': Node?, ghost at': Place)
    requires existing.Valid() && incoming.Valid() && existing != incoming
    requires at.Of(existing, incoming, e, n) && at.Good(addr, goal, all)
    requires Order(at.ex, at.nw, at.i, at.j, addr) < 0
    modifies existing, incoming, all
    ensures existing.Valid() && incoming.Valid() && at'.Of(existing, incoming, e', n')
    ensures at'.Good(addr, goal, all) && at'.Left() < at.Left()
  {
    MergingRemove(at.ex, at.nw, at.i, at.j, addr, goal);
    WithinRemove(at.ex, at.nw, at.i, all);
    e', n' := e.next, n;
    UnlinkNode(existing, incoming, e, at.i);
    at' := at.(ex := Without(at.ex, at.i));
  }

  // ---------------------------------------------------------------- the third loop of reload_tables on nodes

  lemma {:induction false} FindIsWanted(name: TId -> TableName, s: seq<TId>, n: TableName)
    ensures Find(name, s, n).Some? <==> Wanted(name, s, n)
  {
    if s != [] {
      FindIsWanted(name, s[1..], n);
      if Wanted(name, s[1..], n) {
        var k :| 0 <= k < |s[1..]| && name(s[1..][k]) == n;
        assert name(s[k + 1]) == n;
      }
      if Wanted(name, s, n) {
        var k :| 0 <= k < |s| && name(s[k]) == n;
        if k > 0 { assert name(s[1..][k - 1]) == n; }
      }
    }
  }

  /** Tables of new names go to the head of the running list, the others to their namesakes. */
  method InstallNodes(tables: SList, incoming: SList, name: TId -> TableName, ghost all: set<Node>)
    requires tables.Valid() && incoming.Valid() && tables != incoming
    requires Separate(tables.nodes, incoming.nodes) && Within(tables.nodes, incoming.nodes, all)
    modifies tables, incoming, all
    ensures tables.Valid() && incoming.nodes == []
    ensures IdsOf(tables.nodes) == InstalledIds(name, old(IdsOf(tables.nodes)), old(IdsOf(incoming.nodes)))
  {
    while incoming.head != null
      invariant tables.Valid() && incoming.Valid()
      invariant Separate(tables.nodes, incoming.nodes) && Within(tables.nodes, incoming.nodes, all)
      invariant InstalledIds(name, IdsOf(tables.nodes), IdsOf(incoming.nodes)) ==
                InstalledIds(name, old(IdsOf(tables.nodes)), old(IdsOf(incoming.nodes)))
      decreases |incoming.nodes|
    {
      InstalledStep(name, tables.nodes, incoming.nodes, all);
      InstallNode(tables, incoming, name);
    }
  }

  ghost function NodeInstalled(name: TId -> TableName, ts: seq<Node>, ns: seq<Node>): seq<Node>
    requires ns != []
  {
    if Find(name, IdsOf(ts), name(ns[0].id)).Some? then ts else [ns[0]] + ts
  }

  lemma InstalledStep(name: TId -> TableName, ts: seq<Node>, ns: seq<Node>, all: set<Node>)
    requires ns != [] && Apart(ns) && Separate(ts, ns) && Within(ts, ns, all)
    ensures var ts' := NodeInstalled(name, ts, ns);
            && Separate(ts', ns[1..]) && Within(ts', ns[1..], all)
            && InstalledIds(name, IdsOf(ts'), IdsOf(ns[1..])) == InstalledIds(name, IdsOf(ts), IdsOf(ns))
  {
    assert IdsOf(ns)[1..] == IdsOf(ns[1..]) && ns[0] in ns;
    assert IdsOf([ns[0]] + ts) == [ns[0].id] + IdsOf(ts);
  }

  method InstallNode(tables: SList, incoming: SList, name: TId -> TableName)
    requires tables.Valid() && incoming.Valid() && tables != incoming && incoming.nodes != []
    requires Separate(tables.nodes, incoming.nodes)
    modifies tables, incoming, incoming.nodes[0]
    ensures tables.Valid() && incoming.Valid() && incoming.nodes == old(incoming.nodes)[1..]
    ensures tables.nodes == NodeInstalled(name, old(tables.nodes), old(incoming.nodes))
  {
    ghost var ns := incoming.nodes;
    var n := incoming.head;
    assert n in ns;
    incoming.RemoveHead();
    var found := tables.HasName(name, name(n.id));
    FindIsWanted(name, IdsOf(tables.nodes), name(n.id));
    if !found {
      tables.InsertHead(n);
      StillLinked(incoming, ns);
    }
  }

  /** Changing the first node does not break the list behind it. */
  lemma StillLinked(list: SList, ns: seq<Node>)
    requires |ns| > 0 && Apart(ns) && list.nodes == ns[1..] && list.head == At(ns[1..], 0)
    requires forall k :: 0 < k < |ns| ==> ns[k].next == At(ns, k + 1)
    ensures list.Valid()
  {
  }

  /** The three loops of reload_tables on the nodes leave exactly the model's list of running tables. */
  method ReloadNodes(tables: SList, incoming: SList, name: TId -> TableName, ghost w: World, ghost all: set<Node>)
    requires tables.Valid() && incoming.Valid() && tables != incoming
    requires Separate(tables.nodes, incoming.nodes) && Within(tables.nodes, incoming.nodes, all)
    requires Counted(w, multiset{}, multiset{}) && name == NamesIn(w)
    requires IdsOf(tables.nodes) == w.runningTables && IdsOf(incoming.nodes) == w.incomingTables
    modifies tables, incoming, all
    ensures tables.Valid() && incoming.nodes == []
    ensures IdsOf(tables.nodes) == ReloadTables(w).runningTables
  {
    ReloadedList(w);
    DropNodes(tables, incoming, name, all - set n | n in incoming.nodes);
    InstallNodes(tables, incoming, name, all);
  }

  /** The two removal loops. */
  method DropNodes(tables: SList, incoming: SList, name: TId -> TableName, ghost own: set<Node>)
    requires tables.Valid() && incoming.Valid() && tables != incoming
    requires Among(tables.nodes, own) && None(incoming.nodes, own)
    modifies tables, own
    ensures tables.Valid() && incoming.Valid() && Among(tables.nodes, own)
    ensures var used := UsedBy(name, IdsOf(incoming.nodes));
            IdsOf(tables.nodes) == Sweep(used, Lead(used, old(IdsOf(tables.nodes))))
  {
    tables.DropUnusedHead(incoming, name, own);
    tables.DropUnusedFollowing(incoming, name, own);
  }
}

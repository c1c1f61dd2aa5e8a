/** listeners_reload: the in-place merge yields exactly the new configuration's addresses. */
module ListenerMerge {
  import opened Options
  import opened Addresses
  import opened ProxyModel
  import opened ProxyRefs
  import opened ProxyOps

  // ---------------------------------------------------------------- the merge on lists of listeners

  /** The merged list: for each new listener the existing one with its address, or itself. */
  function MergeIds(addr: LId -> Addr, ex: seq<LId>, nw: seq<LId>): seq<LId>
    decreases |ex| + |nw|
  {
    if nw == [] then []
    else if ex == [] then nw
    else
      var c := Compare(addr(ex[0]), addr(nw[0]));
      if c > 0 then [nw[0]] + MergeIds(addr, ex, nw[1..])
      else if c == 0 then [ex[0]] + MergeIds(addr, ex[1..], nw[1..])
      else MergeIds(addr, ex[1..], nw)
  }

  predicate Sorted(addr: LId -> Addr, list: seq<LId>) {
    forall a, b :: 0 <= a < b < |list| ==> Compare(addr(list[a]), addr(list[b])) <= 0
  }

  predicate AllBelow(addr: LId -> Addr, xs: seq<LId>, ys: seq<LId>) {
    forall a, b :: 0 <= a < |xs| && 0 <= b < |ys| ==> Compare(addr(xs[a]), addr(ys[b])) <= 0
  }

  function AddressesOf(addr: LId -> Addr, list: seq<LId>): (r: seq<Addr>)
    ensures |r| == |list|
  {
    seq(|list|, i requires 0 <= i < |list| => addr(list[i]))
  }

  /** Position by position, the merged list has the addresses of the new one. */
  lemma {:induction false} MergeAddresses(addr: LId -> Addr, ex: seq<LId>, nw: seq<LId>)
    ensures AddressesOf(addr, MergeIds(addr, ex, nw)) == AddressesOf(addr, nw)
    decreases |ex| + |nw|
  {
    if nw != [] && ex != [] {
      var c := Compare(addr(ex[0]), addr(nw[0]));
      if c > 0 {
        MergeAddresses(addr, ex, nw[1..]);
        SplitAddresses(addr, nw[0], MergeIds(addr, ex, nw[1..]), nw);
      } else if c == 0 {
        CompareZero(addr(ex[0]), addr(nw[0]));
        MergeAddresses(addr, ex[1..], nw[1..]);
        SplitAddresses(addr, ex[0], MergeIds(addr, ex[1..], nw[1..]), nw);
      } else {
        MergeAddresses(addr, ex[1..], nw);
      }
    }
  }

  lemma SplitAddresses(addr: LId -> Addr, x: LId, rest: seq<LId>, nw: seq<LId>)
    requires nw != [] && addr(x) == addr(nw[0]) && AddressesOf(addr, rest) == AddressesOf(addr, nw[1..])
    ensures AddressesOf(addr, [x] + rest) == AddressesOf(addr, nw)
  {
    assert |rest| == |nw[1..]|;
    forall i | 0 <= i < |nw|
      ensures addr(([x] + rest)[i]) == addr(nw[i])
    {
      if i > 0 {
        assert AddressesOf(addr, rest)[i - 1] == AddressesOf(addr, nw[1..])[i - 1];
      }
    }
  }

  // ---------------------------------------------------------------- who stays

  /** How many listeners of a list have an address. */
  function Occurrences(addr: LId -> Addr, list: seq<LId>, a: Addr): nat {
    if list == [] then 0 else (if addr(list[0]) == a then 1 else 0) + Occurrences(addr, list[1..], a)
  }

  lemma {:induction false} Occurs(addr: LId -> Addr, list: seq<LId>, a: Addr)
    ensures Occurrences(addr, list, a) == 0 <==> forall i :: 0 <= i < |list| ==> addr(list[i]) != a
    ensures Occurrences(addr, list, a) == multiset(AddressesOf(addr, list))[a]
  {
    if list != [] {
      var rest := list[1..];
      Occurs(addr, rest, a);
      assert list == [list[0]] + rest;
      assert AddressesOf(addr, list) == [addr(list[0])] + AddressesOf(addr, rest);
    }
  }

  lemma {:induction false} MergeMembers(addr: LId -> Addr, ex: seq<LId>, nw: seq<LId>, x: LId)
    requires x in MergeIds(addr, ex, nw)
    ensures x in ex || x in nw
    decreases |ex| + |nw|
  {
    if nw != [] && ex != [] {
      var c := Compare(addr(ex[0]), addr(nw[0]));
      if c > 0 {
        if x != nw[0] { MergeMembers(addr, ex, nw[1..], x); }
      } else if c == 0 {
        if x != ex[0] { MergeMembers(addr, ex[1..], nw[1..], x); }
      } else {
        MergeMembers(addr, ex[1..], nw, x);
      }
    }
  }

  predicate Distinct(ex: seq<LId>, nw: seq<LId>) {
    && (forall a, b :: 0 <= a < b < |ex| ==> ex[a] != ex[b])
    && (forall a :: 0 <= a < |ex| ==> ex[a] !in nw)
  }

  /** Whether the p-th existing listener is among as many as the new list has of its address. */
  predicate Stays(addr: LId -> Addr, ex: seq<LId>, nw: seq<LId>, p: nat)
    requires p < |ex|
  {
    Occurrences(addr, ex[..p + 1], addr(ex[p])) <= Occurrences(addr, nw, addr(ex[p]))
  }

  lemma StaysFirst(addr: LId -> Addr, ex: seq<LId>, nw: seq<LId>)
    requires ex != []
    ensures Stays(addr, ex, nw, 0) <==> Occurrences(addr, nw, addr(ex[0])) > 0
  {
    var first := ex[..1];
    assert first[1..] == [];
    assert Occurrences(addr, first, addr(ex[0])) == 1 + Occurrences(addr, first[1..], addr(ex[0]));
  }

  /** Dropping the first existing listener lowers the count of its own address only. */
  lemma StaysLater(addr: LId -> Addr, ex: seq<LId>, nw: seq<LId>, p: nat)
    requires 0 < p < |ex|
    ensures Occurrences(addr, ex[..p + 1], addr(ex[p])) ==
            (if addr(ex[0]) == addr(ex[p]) then 1 else 0) + Occurrences(addr, ex[1..][..p], addr(ex[1..][p - 1]))
  {
    assert ex[..p + 1][1..] == ex[1..][..p];
  }

  /** An address below every new one is not in the new list. */
  lemma BelowAll(addr: LId -> Addr, nw: seq<LId>, a: Addr)
    requires Sorted(addr, nw) && nw != [] && Compare(a, addr(nw[0])) < 0
    ensures Occurrences(addr, nw, a) == 0
  {
    forall i | 0 <= i < |nw|
      ensures addr(nw[i]) != a
    {
      CompareFlip(a, addr(nw[0]));
      if i > 0 { CompareFlip(addr(nw[0]), a); }
    }
    Occurs(addr, nw, a);
  }

  /**
   * Which listeners stay: of those with one address, in order, as many as the new
   * configuration has of it, as the same objects; the others are removed.
   */
  lemma {:induction false} MatchedKept(addr: LId -> Addr, ex: seq<LId>, nw: seq<LId>, p: nat)
    requires Sorted(addr, ex) && Sorted(addr, nw) && Distinct(ex, nw) && p < |ex|
    ensures ex[p] in MergeIds(addr, ex, nw) <==> Stays(addr, ex, nw, p)
    decreases |ex| + |nw|
  {
    if nw == [] {
      NoneMatch(addr, ex, p);
    } else {
      var c := Compare(addr(ex[0]), addr(nw[0]));
      if c > 0 {
        KeptPastNew(addr, ex, nw, p);
        MatchedKept(addr, ex, nw[1..], p);
      } else if p == 0 {
        FirstKept(addr, ex, nw);
      } else if c == 0 {
        KeptPastBoth(addr, ex, nw, p);
        MatchedKept(addr, ex[1..], nw[1..], p - 1);
      } else {
        KeptPastOld(addr, ex, nw, p);
        MatchedKept(addr, ex[1..], nw, p - 1);
      }
    }
  }

  lemma NoneMatch(addr: LId -> Addr, ex: seq<LId>, p: nat)
    requires p < |ex|
    ensures !Stays(addr, ex, [], p)
  {
    Occurs(addr, ex[..p + 1], addr(ex[p]));
    assert ex[..p + 1][p] == ex[p];
  }

  lemma FirstKept(addr: LId -> Addr, ex: seq<LId>, nw: seq<LId>)
    requires ex != [] && nw != [] && Sorted(addr, nw) && Distinct(ex, nw)
    requires Compare(addr(ex[0]), addr(nw[0])) <= 0
    ensures ex[0] in MergeIds(addr, ex, nw) <==> Stays(addr, ex, nw, 0)
  {
    StaysFirst(addr, ex, nw);
    CompareZero(addr(ex[0]), addr(nw[0]));
    if Compare(addr(ex[0]), addr(nw[0])) < 0 {
      BelowAll(addr, nw, addr(ex[0]));
      if ex[0] in MergeIds(addr, ex[1..], nw) { MergeMembers(addr, ex[1..], nw, ex[0]); }
    }
  }

  lemma KeptPastNew(addr: LId -> Addr, ex: seq<LId>, nw: seq<LId>, p: nat)
    requires Sorted(addr, ex) && nw != [] && p < |ex| && Distinct(ex, nw)
    requires Compare(addr(ex[0]), addr(nw[0])) > 0
    ensures Distinct(ex, nw[1..]) && (Stays(addr, ex, nw, p) <==> Stays(addr, ex, nw[1..], p))
    ensures ex[p] in MergeIds(addr, ex, nw) <==> ex[p] in MergeIds(addr, ex, nw[1..])
  {
    assert Compare(addr(ex[0]), addr(ex[p])) <= 0 by { CompareZero(addr(ex[0]), addr(ex[0])); }
    assert addr(ex[p]) != addr(nw[0]);
  }

  lemma KeptPastBoth(addr: LId -> Addr, ex: seq<LId>, nw: seq<LId>, p: nat)
    requires nw != [] && 0 < p < |ex| && Distinct(ex, nw)
    requires Compare(addr(ex[0]), addr(nw[0])) == 0
    ensures Distinct(ex[1..], nw[1..])
    ensures Stays(addr, ex, nw, p) <==> Stays(addr, ex[1..], nw[1..], p - 1)
    ensures ex[p] in MergeIds(addr, ex, nw) <==> ex[1..][p - 1] in MergeIds(addr, ex[1..], nw[1..])
  {
    CompareZero(addr(ex[0]), addr(nw[0]));
    StaysLater(addr, ex, nw, p);
  }

  lemma KeptPastOld(addr: LId -> Addr, ex: seq<LId>, nw: seq<LId>, p: nat)
    requires Sorted(addr, nw) && nw != [] && 0 < p < |ex| && Distinct(ex, nw)
    requires Compare(addr(ex[0]), addr(nw[0])) < 0
    ensures Distinct(ex[1..], nw)
    ensures Stays(addr, ex, nw, p) <==> Stays(addr, ex[1..], nw, p - 1)
    ensures ex[p] in MergeIds(addr, ex, nw) <==> ex[1..][p - 1] in MergeIds(addr, ex[1..], nw)
  {
    StaysLater(addr, ex, nw, p);
    if addr(ex[0]) == addr(ex[p]) {
      BelowAll(addr, nw, addr(ex[p]));
      Occurs(addr, ex[1..][..p], addr(ex[p]));
      assert ex[1..][..p][p - 1] == ex[p];
    }
  }

  // ---------------------------------------------------------------- addresses do not change

  predicate Agrees(w: World, addr: LId -> Addr) {
    forall l :: l in w.listeners ==> w.listeners[l].address == addr(l)
  }

  lemma CountsAgree(w: World, l: LId, table: Option<TId>, addr: LId -> Addr)
    requires Agrees(w, addr)
    ensures Agrees(TableRefPut(w, table), addr)
    ensures Agrees(ListenerRefGet(w, l), addr) && Agrees(ListenerRefPut(w, l), addr)
  {
    assert TableRefPut(w, table).listeners == w.listeners;
    PutAgrees(w, l, addr);
  }

  lemma PutAgrees(w: World, l: LId, addr: LId -> Addr)
    requires Agrees(w, addr)
    ensures Agrees(ListenerRefPut(w, l), addr)
  {
    if l in w.listeners && w.listeners[l].refs == 1 {
      assert FreeListener(w, l).listeners == w.listeners - {l};
    }
  }

  lemma InitAgrees(w: World, l: LId, socketOk: bool, addr: LId -> Addr)
    requires Agrees(w, addr)
    ensures Agrees(InitListener(w, l, socketOk), addr)
  {
  }

  lemma AddAgrees(w: World, j: nat, k: nat, socketOk: bool, addr: LId -> Addr)
    requires Agrees(w, addr) && j < |w.incoming| && k <= |w.running|
    ensures Agrees(MergeAdd(w, j, k, socketOk), addr)
  {
    var n := w.incoming[j];
    var w1 := w.(incoming := Without(w.incoming, j));
    CountsAgree(w1, n, None, addr);
    var w2 := ListenerRefGet(w1, n).(running := InsertAt(w.running, k, n));
    InitAgrees(w2, n, socketOk, addr);
    CountsAgree(InitListener(w2, n, socketOk), n, None, addr);
  }

  lemma RemoveAgrees(w: World, i: nat, addr: LId -> Addr)
    requires Agrees(w, addr) && i < |w.running|
    ensures Agrees(RemoveRunning(w, i), addr)
  {
    var l := w.running[i];
    CountsAgree(CloseListener(w, l).(running := Without(w.running, i)), l, None, addr);
  }

  lemma UpdateAgrees(w: World, e: LId, n: LId, addr: LId -> Addr)
    requires Agrees(w, addr)
    ensures Agrees(UpdateListener(w, e, n), addr)
  {
    if e in w.listeners && n in w.listeners {
      var x := w.listeners[e].(tableName := w.listeners[n].tableName, settings := w.listeners[n].settings);
      var w1 := w.(listeners := w.listeners[e := x]);
      var table := TableLookup(w1, w1.runningTables, x.tableName);
      if table.Some? {
        TablesKeepLists(w1, x.table, table.value);
        var w2 := TableRefGet(TableRefPut(w1, x.table), table.value);
        var w3 := w2.(listeners := w2.listeners[e := x.(table := table)]);
        CountsAgree(w3, n, w.listeners[n].table, addr);
      }
    }
  }

  // ---------------------------------------------------------------- where a listener is inserted

  /** In a sorted list add_listener inserts where the walk stands. */
  lemma {:induction false} PositionIs(w: World, list: seq<LId>, i: nat, a: Addr, addr: LId -> Addr)
    requires i <= |list| && Agrees(w, addr)
    requires forall k :: 0 <= k < |list| ==> list[k] in w.listeners
    requires forall k :: 0 <= k < i ==> Compare(addr(list[k]), a) <= 0
    requires i < |list| ==> Compare(addr(list[i]), a) > 0
    ensures Position(w, list, a) == i
  {
    if list != [] {
      CompareFlip(a, addr(list[0]));
      CompareFlip(addr(list[0]), a);
      if i > 0 { PositionIs(w, list[1..], i - 1, a, addr); }
    }
  }

  // ---------------------------------------------------------------- the loop

  /** What the loop keeps: both lists sorted, what was passed is below what is to come. */
  ghost predicate Walking(c: Cursor, addr: LId -> Addr) {
    && c.Ok()
    && Counted(c.w, multiset{}, multiset{}) && Agrees(c.w, addr)
    && Sorted(addr, c.w.running) && Sorted(addr, c.w.incoming)
    && AllBelow(addr, c.w.running[..c.i], c.w.incoming[c.j..])
  }

  lemma AllListed(w: World)
    requires Counted(w, multiset{}, multiset{})
    ensures forall k :: 0 <= k < |w.running| ==> w.running[k] in w.listeners
    ensures forall k :: 0 <= k < |w.incoming| ==> w.incoming[k] in w.listeners
  {
    forall k | 0 <= k < |w.running|
      ensures w.running[k] in w.listeners
    {
      assert w.running[k] in Owners(w, multiset{});
    }
    forall k | 0 <= k < |w.incoming|
      ensures w.incoming[k] in w.listeners
    {
      assert w.incoming[k] in Owners(w, multiset{});
    }
  }

  lemma SortedInsert(addr: LId -> Addr, s: seq<LId>, i: nat, n: LId)
    requires Sorted(addr, s) && i <= |s|
    requires forall a :: 0 <= a < i ==> Compare(addr(s[a]), addr(n)) <= 0
    requires i < |s| ==> Compare(addr(n), addr(s[i])) <= 0
    ensures Sorted(addr, InsertAt(s, i, n))
  {
    forall b | i < b < |s|
      ensures Compare(addr(n), addr(s[b])) <= 0
    {
      CompareChain(addr(n), addr(s[i]), addr(s[b]));
    }
  }

  lemma SortedWithout(addr: LId -> Addr, s: seq<LId>, i: nat)
    requires Sorted(addr, s) && i < |s|
    ensures Sorted(addr, Without(s, i))
  {
  }

  lemma WalkAdd(c: Cursor, socketOk: bool, addr: LId -> Addr)
    requires Walking(c, addr) && c.j < |c.w.incoming| && MergeCompare(c.w, c.i, c.j) > 0
    ensures Position(c.w, c.w.running, AddressOf(c.w, c.w.incoming[c.j])) == c.i
    ensures var r := MergeAdd(c.w, c.j, c.i, socketOk);
            && r.running == InsertAt(c.w.running, c.i, c.w.incoming[c.j])
            && r.incoming == Without(c.w.incoming, c.j)
            && Walking(Cursor(r, c.i + 1, c.j), addr)
  {
    var w, i, j := c.w, c.i, c.j;
    var n := w.incoming[j];
    AllListed(w);
    forall k | 0 <= k < i
      ensures Compare(addr(w.running[k]), addr(n)) <= 0
    {
      assert w.running[..i][k] == w.running[k] && w.incoming[j..][0] == n;
    }
    PositionIs(w, w.running, i, addr(n), addr);
    ListsAfterAdd(w, j, i, socketOk);
    MergeAddCounted(w, j, i, socketOk, multiset{}, multiset{});
    AddAgrees(w, j, i, socketOk, addr);
    WalkAddSorted(w.running, w.incoming, i, j, addr);
  }

  lemma WalkAddSorted(running: seq<LId>, incoming: seq<LId>, i: nat, j: nat, addr: LId -> Addr)
    requires i <= |running| && j < |incoming| && Sorted(addr, running) && Sorted(addr, incoming)
    requires AllBelow(addr, running[..i], incoming[j..])
    requires i < |running| ==> Compare(addr(running[i]), addr(incoming[j])) > 0
    ensures Sorted(addr, InsertAt(running, i, incoming[j])) && Sorted(addr, Without(incoming, j))
    ensures AllBelow(addr, InsertAt(running, i, incoming[j])[..i + 1], Without(incoming, j)[j..])
  {
    var n := incoming[j];
    forall k | 0 <= k < i
      ensures Compare(addr(running[k]), addr(n)) <= 0
    {
      assert running[..i][k] == running[k] && incoming[j..][0] == n;
    }
    if i < |running| { CompareFlip(addr(n), addr(running[i])); }
    SortedInsert(addr, running, i, n);
    SortedWithout(addr, incoming, j);
    assert InsertAt(running, i, n)[..i + 1] == running[..i] + [n];
    assert Without(incoming, j)[j..] == incoming[j + 1..] == incoming[j..][1..];
  }

  lemma WalkUpdate(c: Cursor, addr: LId -> Addr)
    requires Walking(c, addr) && !c.Done() && MergeCompare(c.w, c.i, c.j) == 0
    ensures Walking(Cursor(UpdateListener(c.w, c.w.running[c.i], c.w.incoming[c.j]), c.i + 1, c.j + 1), addr)
  {
    var e, n := c.w.running[c.i], c.w.incoming[c.j];
    UpdateKeepsLists(c.w, e, n);
    UpdateCounted(c.w, e, n, multiset{}, multiset{});
    UpdateAgrees(c.w, e, n, addr);
    SameAddress(c, addr);
    WalkOn(c, UpdateListener(c.w, e, n), addr);
  }

  lemma SameAddress(c: Cursor, addr: LId -> Addr)
    requires Walking(c, addr) && !c.Done() && MergeCompare(c.w, c.i, c.j) == 0
    ensures addr(c.w.running[c.i]) == addr(c.w.incoming[c.j])
  {
    AllListed(c.w);
    CompareZero(addr(c.w.running[c.i]), addr(c.w.incoming[c.j]));
  }

  /** Past two equal addresses the walk goes on in any world with the same lists. */
  lemma WalkOn(c: Cursor, w': World, addr: LId -> Addr)
    requires Walking(c, addr) && c.i < |c.w.running| && c.j < |c.w.incoming|
    requires addr(c.w.running[c.i]) == addr(c.w.incoming[c.j])
    requires Counted(w', multiset{}, multiset{}) && Agrees(w', addr) && SameLists(c.w, w')
    ensures Walking(Cursor(w', c.i + 1, c.j + 1), addr)
  {
    PassBoth(c.w.running, c.w.incoming, c.i, c.j, addr);
  }

  lemma PassBoth(running: seq<LId>, incoming: seq<LId>, i: nat, j: nat, addr: LId -> Addr)
    requires i < |running| && j < |incoming| && Sorted(addr, incoming)
    requires AllBelow(addr, running[..i], incoming[j..]) && addr(running[i]) == addr(incoming[j])
    ensures AllBelow(addr, running[..i + 1], incoming[j + 1..])
  {
    assert running[..i + 1] == running[..i] + [running[i]];
    assert incoming[j + 1..] == incoming[j..][1..];
  }

  lemma WalkRemove(c: Cursor, addr: LId -> Addr)
    requires Walking(c, addr) && c.i < |c.w.running|
    ensures Walking(Cursor(RemoveRunning(c.w, c.i), c.i, c.j), addr)
  {
    ListsAfterRemove(c.w, c.i);
    RemoveRunningCounted(c.w, c.i, multiset{}, multiset{});
    RemoveAgrees(c.w, c.i, addr);
    SortedWithout(addr, c.w.running, c.i);
    assert Without(c.w.running, c.i)[..c.i] == c.w.running[..c.i];
  }

  /** What the merged list will be, seen from a point of the walk. */
  function Built(c: Cursor, addr: LId -> Addr): seq<LId>
    requires c.Ok()
  {
    BuiltFrom(c.w.running, c.w.incoming, c.i, c.j, addr)
  }

  /** The three cases of one turn of the loop. */
  lemma StepAdds(c: Cursor, socketOk: LId -> bool, addr: LId -> Addr)
    requires Walking(c, addr) && !c.Done() && MergeCompare(c.w, c.i, c.j) > 0
    ensures c.j < |c.w.incoming|
    ensures MergeStep(c, socketOk) == Cursor(MergeAdd(c.w, c.j, c.i, socketOk(c.w.incoming[c.j])), c.i + 1, c.j)
  {
    WalkAdd(c, socketOk(c.w.incoming[c.j]), addr);
  }

  lemma StepUpdates(c: Cursor, socketOk: LId -> bool)
    requires c.Ok() && !c.Done() && MergeCompare(c.w, c.i, c.j) == 0
    ensures c.i < |c.w.running| && c.j < |c.w.incoming|
    ensures MergeStep(c, socketOk) ==
            Cursor(UpdateListener(c.w, c.w.running[c.i], c.w.incoming[c.j]), c.i + 1, c.j + 1)
  {
  }

  lemma StepRemoves(c: Cursor, socketOk: LId -> bool)
    requires c.Ok() && !c.Done() && MergeCompare(c.w, c.i, c.j) < 0
    ensures c.i < |c.w.running|
    ensures MergeStep(c, socketOk) == Cursor(RemoveRunning(c.w, c.i), c.i, c.j)
  {
  }

  lemma WalkStep(c: Cursor, socketOk: LId -> bool, addr: LId -> Addr)
    requires Walking(c, addr) && !c.Done()
    ensures Walking(MergeStep(c, socketOk), addr)
  {
    var order := MergeCompare(c.w, c.i, c.j);
    if order > 0 {
      StepAdds(c, socketOk, addr);
      WalkAdd(c, socketOk(c.w.incoming[c.j]), addr);
    } else if order == 0 {
      StepUpdates(c, socketOk);
      WalkUpdate(c, addr);
    } else {
      StepRemoves(c, socketOk);
      WalkRemove(c, addr);
    }
  }

  /** The merged list as Built sees it, from the two lists alone. */
  function BuiltFrom(running: seq<LId>, incoming: seq<LId>, i: nat, j: nat, addr: LId -> Addr): seq<LId>
    requires i <= |running| && j <= |incoming|
  {
    running[..i] + MergeIds(addr, running[i..], incoming[j..])
  }

  /** What one turn of the loop does to the two lists. */
  lemma StepLists(c: Cursor, socketOk: LId -> bool, addr: LId -> Addr)
    requires Walking(c, addr) && !c.Done()
    ensures var d, order := MergeStep(c, socketOk), MergeCompare(c.w, c.i, c.j);
            var running, incoming := c.w.running, c.w.incoming;
            && (order > 0 ==> c.j < |incoming| && d.w.running == InsertAt(running, c.i, incoming[c.j])
                              && d.w.incoming == Without(incoming, c.j) && d.i == c.i + 1 && d.j == c.j)
            && (order == 0 ==> d.w.running == running && d.w.incoming == incoming && d.i == c.i + 1 && d.j == c.j + 1)
            && (order < 0 ==> c.i < |running| && d.w.running == Without(running, c.i)
                              && d.w.incoming == incoming && d.i == c.i && d.j == c.j)
  {
    if MergeCompare(c.w, c.i, c.j) > 0 {
      WalkAdd(c, socketOk(c.w.incoming[c.j]), addr);
    } else if MergeCompare(c.w, c.i, c.j) == 0 {
      UpdateKeepsLists(c.w, c.w.running[c.i], c.w.incoming[c.j]);
    } else {
      ListsAfterRemove(c.w, c.i);
    }
  }

  lemma CompareIs(c: Cursor, addr: LId -> Addr)
    requires Walking(c, addr) && c.i < |c.w.running| && c.j < |c.w.incoming|
    ensures MergeCompare(c.w, c.i, c.j) == Compare(addr(c.w.running[c.i]), addr(c.w.incoming[c.j]))
  {
    AllListed(c.w);
  }

  lemma BuiltStep(c: Cursor, socketOk: LId -> bool, addr: LId -> Addr)
    requires Walking(c, addr) && !c.Done()
    ensures Built(MergeStep(c, socketOk), addr) == Built(c, addr)
  {
    StepLists(c, socketOk, addr);
    var d := MergeStep(c, socketOk);
    if c.i < |c.w.running| && c.j < |c.w.incoming| { CompareIs(c, addr); }
    BuiltByStep(c.w.running, c.w.incoming, c.i, c.j, MergeCompare(c.w, c.i, c.j),
                d.w.running, d.w.incoming, d.i, d.j, addr);
  }

  lemma BuiltByStep(running: seq<LId>, incoming: seq<LId>, i: nat, j: nat, order: int,
                    running': seq<LId>, incoming': seq<LId>, i': nat, j': nat, addr: LId -> Addr)
    requires i <= |running| && j <= |incoming| && (i < |running| || j < |incoming|)
    requires order == if i == |running| then 1 else if j == |incoming| then -1
                      else Compare(addr(running[i]), addr(incoming[j]))
    requires order > 0 ==> running' == InsertAt(running, i, incoming[j])
                           && incoming' == Without(incoming, j) && i' == i + 1 && j' == j
    requires order == 0 ==> running' == running && incoming' == incoming && i' == i + 1 && j' == j + 1
    requires order < 0 ==> running' == Without(running, i) && incoming' == incoming && i' == i && j' == j
    ensures BuiltFrom(running', incoming', i', j', addr) == BuiltFrom(running, incoming, i, j, addr)
  {
    if order > 0 {
      BuiltByAdd(running, incoming, i, j, addr);
    } else if order == 0 {
      BuiltByUpdate(running, incoming, i, j, addr);
    } else {
      BuiltByRemove(running, incoming, i, j, addr);
    }
  }

  /** From any point of the walk, the loop completes the list and keeps every count exact. */
  lemma {:induction false} MergeResult(c: Cursor, socketOk: LId -> bool, addr: LId -> Addr)
    requires Walking(c, addr)
    ensures var r := Merge(c, socketOk);
            r.running == Built(c, addr) && Walking(Cursor(r, |r.running|, |r.incoming|), addr)
    decreases c.Left()
  {
    if c.Done() {
      assert c.w.running[..c.i] + [] == c.w.running;
    } else {
      WalkStep(c, socketOk, addr);
      BuiltStep(c, socketOk, addr);
      MergeResult(MergeStep(c, socketOk), socketOk, addr);
    }
  }

  lemma BuiltByAdd(running: seq<LId>, incoming: seq<LId>, i: nat, j: nat, addr: LId -> Addr)
    requires i <= |running| && j < |incoming|
    requires i < |running| ==> Compare(addr(running[i]), addr(incoming[j])) > 0
    ensures var list, rest := InsertAt(running, i, incoming[j]), Without(incoming, j);
            running[..i] + MergeIds(addr, running[i..], incoming[j..]) ==
            list[..i + 1] + MergeIds(addr, list[i + 1..], rest[j..])
  {
    var list, rest := InsertAt(running, i, incoming[j]), Without(incoming, j);
    assert list[..i + 1] == running[..i] + [incoming[j]] && list[i + 1..] == running[i..];
    assert rest[j..] == incoming[j..][1..];
    assert MergeIds(addr, running[i..], incoming[j..]) ==
           [incoming[j]] + MergeIds(addr, running[i..], incoming[j..][1..]);
  }

  lemma BuiltByUpdate(running: seq<LId>, incoming: seq<LId>, i: nat, j: nat, addr: LId -> Addr)
    requires i < |running| && j < |incoming| && Compare(addr(running[i]), addr(incoming[j])) == 0
    ensures running[..i] + MergeIds(addr, running[i..], incoming[j..]) ==
            running[..i + 1] + MergeIds(addr, running[i + 1..], incoming[j + 1..])
  {
    assert running[..i + 1] == running[..i] + [running[i]];
    assert running[i + 1..] == running[i..][1..] && incoming[j + 1..] == incoming[j..][1..];
  }

  lemma BuiltByRemove(running: seq<LId>, incoming: seq<LId>, i: nat, j: nat, addr: LId -> Addr)
    requires i < |running| && j <= |incoming|
    requires j < |incoming| ==> Compare(addr(running[i]), addr(incoming[j])) < 0
    ensures var list := Without(running, i);
            running[..i] + MergeIds(addr, running[i..], incoming[j..]) ==
            list[..i] + MergeIds(addr, list[i..], incoming[j..])
  {
    var list := Without(running, i);
    assert list[..i] == running[..i] && list[i..] == running[i..][1..];
  }
}

/** The two-query resolver of resolv.c: an A and an AAAA query joined by one callback. */
module Resolver {
  import opened Options

  /** A resolved address; the number stands for the address bytes. */
  datatype Address = V4(bits: nat) | V6(bits: nat)

  datatype Mode = Ipv4Only | Ipv6Only | Ipv4First | Ipv6First

  /** What ends a query: an answer of either kind (None: lookup failed) or cancellation. */
  datatype Event = A(records: Option<seq<nat>>) | AAAA(records: Option<seq<nat>>) | Cancel

  datatype Query = Query(
    mode: Mode,
    waiting4: bool, waiting6: bool,
    responses: seq<Address>,
    live: bool,
    clientCalls: nat, chosen: Option<Address>,
    dataFrees: nat,
    stored: nat, released: nat)

  // ---------------------------------------------------------------- choosing

  predicate IsV4(a: Address) { a.V4? }
  predicate IsV6(a: Address) { a.V6? }

  function FirstOf(rs: seq<Address>, p: Address -> bool): Option<Address> {
    if rs == [] then None else if p(rs[0]) then Some(rs[0]) else FirstOf(rs[1..], p)
  }

  function ChooseAny(rs: seq<Address>): Option<Address> {
    if |rs| >= 1 then Some(rs[0]) else None
  }

  function Prefer(rs: seq<Address>, p: Address -> bool): Option<Address> {
    if FirstOf(rs, p).Some? then FirstOf(rs, p) else ChooseAny(rs)
  }

  function Choose(mode: Mode, rs: seq<Address>): Option<Address> {
    match mode
    case Ipv4First => Prefer(rs, IsV4)
    case Ipv6First => Prefer(rs, IsV6)
    case _ => ChooseAny(rs)
  }

  // ---------------------------------------------------------------- steps

  /** resolv_query; each submission may fail, and with none outstanding the query is dropped. */
  function Submit(mode: Mode, ok4: bool, ok6: bool): Query {
    var w4, w6 := !mode.Ipv6Only? && ok4, !mode.Ipv4Only? && ok6;
    Query(mode, w4, w6, [], w4 || w6, 0, None, if w4 || w6 then 0 else 1, 0, 0)
  }

  function Records4(r: Option<seq<nat>>): seq<Address> {
    if r.None? then [] else seq(|r.value|, i requires 0 <= i < |r.value| => V4(r.value[i]))
  }

  function Records6(r: Option<seq<nat>>): seq<Address> {
    if r.None? then [] else seq(|r.value|, i requires 0 <= i < |r.value| => V6(r.value[i]))
  }

  /** process_client_callback: one client call, then everything is freed. */
  function Process(q: Query): Query {
    q.(clientCalls := q.clientCalls + 1, chosen := Choose(q.mode, q.responses),
       dataFrees := q.dataFrees + 1, released := q.released + |q.responses|, live := false)
  }

  function Join(q: Query): Query {
    if !q.waiting4 && !q.waiting6 then Process(q) else q
  }

  function Collect(q: Query, rs: seq<Address>): Query {
    q.(responses := q.responses + rs, stored := q.stored + |rs|)
  }

  function Next(q: Query, e: Event): Query {
    match e
    case A(r) => Join(Collect(q, Records4(r)).(waiting4 := false))
    case AAAA(r) => Join(Collect(q, Records6(r)).(waiting6 := false))
    case Cancel => q.(waiting4 := false, waiting6 := false, dataFrees := q.dataFrees + 1, live := false)
  }

  /** udns answers only an outstanding query; only a live handle is cancelled. */
  predicate Enabled(q: Query, e: Event) {
    match e
    case A(_) => q.waiting4
    case AAAA(_) => q.waiting6
    case Cancel => q.live
  }

  predicate Feasible(q: Query, es: seq<Event>)
    decreases |es|
  {
    es == [] || (Enabled(q, es[0]) && Feasible(Next(q, es[0]), es[1..]))
  }

  function Run(q: Query, es: seq<Event>): Query
    requires Feasible(q, es)
    decreases |es|
  {
    if es == [] then q else Run(Next(q, es[0]), es[1..])
  }

  // ---------------------------------------------------------------- life cycle

  predicate Inv(q: Query) {
    && (q.live <==> q.waiting4 || q.waiting6)
    && q.clientCalls <= 1
    && q.dataFrees == (if q.live then 0 else 1)
    && (q.live ==> q.clientCalls == 0 && q.released == 0)
    && q.stored == |q.responses|
    && (q.clientCalls == 1 ==> q.released == q.stored)
    && (q.clientCalls == 0 ==> q.released == 0)
  }

  lemma StepKeepsInv(q: Query, e: Event)
    requires Inv(q) && Enabled(q, e)
    ensures Inv(Next(q, e))
    ensures Next(q, e).clientCalls == (if !e.Cancel? && !Next(q, e).live then 1 else 0)
  {
  }

  /**
   * Over every interleaving: the callback data is freed exactly once and only at the end;
   * the client is called exactly once unless the query was cancelled, and then never; a
   * finished query has no outstanding sub-query that could call back into freed memory.
   */
  lemma {:induction false} LifeCycle(q: Query, es: seq<Event>)
    requires Inv(q) && q.live && Feasible(q, es)
    ensures var r := Run(q, es);
            && Inv(r)
            && (r.live ==> Cancel !in es && r.clientCalls == 0 && r.dataFrees == 0)
            && (!r.live ==> r.dataFrees == 1 && !r.waiting4 && !r.waiting6
                            && r.clientCalls == (if Cancel in es then 0 else 1))
            && |es| <= (if q.waiting4 then 1 else 0) + (if q.waiting6 then 1 else 0)
    decreases |es|
  {
    if es != [] {
      var d := Next(q, es[0]);
      StepKeepsInv(q, es[0]);
      if d.live {
        LifeCycle(d, es[1..]);
        assert Cancel in es <==> es[0] == Cancel || Cancel in es[1..];
      } else {
        DeadStays(d, es[1..]);
        assert es[1..] == [] && es == [es[0]];
      }
    }
  }

  lemma DeadStays(q: Query, es: seq<Event>)
    requires Inv(q) && !q.live && Feasible(q, es)
    ensures es == []
  {
  }

  /**
   * When nothing could be submitted the data is freed at once, the handle is NULL and the
   * client is never called.
   */
  lemma NothingSubmitted(mode: Mode, ok4: bool, ok6: bool, es: seq<Event>)
    requires Feasible(Submit(mode, ok4, ok6), es)
    ensures !Submit(mode, ok4, ok6).live <==>
            (mode.Ipv6Only? || !ok4) && (mode.Ipv4Only? || !ok6)
    ensures !Submit(mode, ok4, ok6).live ==>
              es == [] && Run(Submit(mode, ok4, ok6), es).clientCalls == 0
              && Run(Submit(mode, ok4, ok6), es).dataFrees == 1
  {
    if !Submit(mode, ok4, ok6).live { DeadStays(Submit(mode, ok4, ok6), es); }
  }

  // ---------------------------------------------------------------- the answer

  /** The address a caller should get: the preferred family first, else the other. */
  function Best(mode: Mode, rs4: seq<Address>, rs6: seq<Address>): Option<Address> {
    match mode
    case Ipv4First => if rs4 != [] then Some(rs4[0]) else ChooseAny(rs6)
    case Ipv6First => if rs6 != [] then Some(rs6[0]) else ChooseAny(rs4)
    case Ipv4Only => ChooseAny(rs4)
    case Ipv6Only => ChooseAny(rs6)
  }

  lemma {:induction false} FirstOfSame(rs: seq<Address>, more: seq<Address>, p: Address -> bool)
    requires forall i :: 0 <= i < |rs| ==> p(rs[i])
    ensures FirstOf(rs + more, p) == if rs != [] then Some(rs[0]) else FirstOf(more, p)
  {
    if rs == [] { assert rs + more == more; }
  }

  lemma {:induction false} FirstOfOther(rs: seq<Address>, more: seq<Address>, p: Address -> bool)
    requires forall i :: 0 <= i < |rs| ==> !p(rs[i])
    ensures FirstOf(rs + more, p) == FirstOf(more, p)
  {
    if rs == [] {
      assert rs + more == more;
    } else {
      FirstOfOther(rs[1..], more, p);
      assert (rs + more)[1..] == rs[1..] + more;
    }
  }

  /** Whichever family comes first in the list, the choice is the same. */
  lemma ChoiceIgnoresOrder(mode: Mode, rs4: seq<Address>, rs6: seq<Address>)
    requires forall i :: 0 <= i < |rs4| ==> rs4[i].V4?
    requires forall i :: 0 <= i < |rs6| ==> rs6[i].V6?
    requires mode.Ipv4Only? ==> rs6 == []
    requires mode.Ipv6Only? ==> rs4 == []
    ensures Choose(mode, rs4 + rs6) == Choose(mode, rs6 + rs4) == Best(mode, rs4, rs6)
  {
    assert rs4 + [] == rs4 && rs6 + [] == rs6 && [] + rs4 == rs4 && [] + rs6 == rs6;
    FirstOfSame(rs4, rs6, IsV4);
    FirstOfSame(rs6, rs4, IsV6);
    FirstOfOther(rs4, rs6, IsV6);
    FirstOfOther(rs6, rs4, IsV4);
    FirstOfSame(rs4, [], IsV4);
    FirstOfSame(rs6, [], IsV6);
    FirstOfOther(rs4, [], IsV6);
    FirstOfOther(rs6, [], IsV4);
  }

  function Answer4(es: seq<Event>): seq<Address> {
    if es == [] then [] else if es[0].A? then Records4(es[0].records) else Answer4(es[1..])
  }

  function Answer6(es: seq<Event>): seq<Address> {
    if es == [] then [] else if es[0].AAAA? then Records6(es[0].records) else Answer6(es[1..])
  }

  lemma AnswersOf(e: Event, rest: seq<Event>)
    ensures Answer4([e] + rest) == if e.A? then Records4(e.records) else Answer4(rest)
    ensures Answer6([e] + rest) == if e.AAAA? then Records6(e.records) else Answer6(rest)
  {
    assert ([e] + rest)[1..] == rest;
  }

  lemma {:induction false} Families(es: seq<Event>)
    ensures forall i :: 0 <= i < |Answer4(es)| ==> Answer4(es)[i].V4?
    ensures forall i :: 0 <= i < |Answer6(es)| ==> Answer6(es)[i].V6?
  {
    if es != [] { Families(es[1..]); }
  }

  /** How the answers of a run can end up behind those already stored. */
  predicate Collected(q: Query, es: seq<Event>, r: Query) {
    && r.chosen == Choose(q.mode, r.responses)
    && (!q.waiting4 ==> Answer4(es) == [])
    && (!q.waiting6 ==> Answer6(es) == [])
    && (|| r.responses == q.responses + (Answer4(es) + Answer6(es))
        || r.responses == q.responses + (Answer6(es) + Answer4(es)))
  }

  /** An uncancelled run that ended collected both answers, in one order or the other. */
  lemma {:induction false} AnswersCollected(q: Query, es: seq<Event>)
    requires Inv(q) && q.live && Feasible(q, es) && Cancel !in es && !Run(q, es).live
    ensures Collected(q, es, Run(q, es))
    decreases |es|
  {
    var e, rest := es[0], es[1..];
    var d := Next(q, e);
    assert es == [e] + rest && e != Cancel;
    StepKeepsInv(q, e);
    AnswersOf(e, rest);
    if d.live {
      AnswersCollected(d, rest);
      MoreCollected(q, e, rest, Run(d, rest));
    } else {
      DeadStays(d, rest);
      LastCollected(q, e);
    }
  }

  lemma LastCollected(q: Query, e: Event)
    requires Inv(q) && Enabled(q, e) && e != Cancel && !Next(q, e).live
    ensures Collected(q, [e], Next(q, e))
  {
    AnswersOf(e, []);
    var rs := if e.A? then Records4(e.records) else Records6(e.records);
    assert rs + [] == rs && [] + rs == rs;
  }

  lemma MoreCollected(q: Query, e: Event, rest: seq<Event>, r: Query)
    requires Inv(q) && Enabled(q, e) && e != Cancel && Next(q, e).live && Collected(Next(q, e), rest, r)
    ensures Collected(q, [e] + rest, r)
  {
    AnswersOf(e, rest);
    if e.A? {
      Appended(q.responses, Records4(e.records), Answer6(rest));
    } else {
      Appended(q.responses, Records6(e.records), Answer4(rest));
    }
  }

  lemma Appended(stored: seq<Address>, first: seq<Address>, later: seq<Address>)
    ensures later + [] == later && [] + later == later
    ensures (stored + first) + later == stored + (first + later)
  {
  }

  // ---------------------------------------------------------------- stored answers

  /** A run stores something exactly when some answer has records. */
  lemma {:induction false} StoresAnswers(q: Query, es: seq<Event>)
    requires Inv(q) && Feasible(q, es)
    ensures Run(q, es).responses == [] <==> q.responses == [] && Answer4(es) == [] && Answer6(es) == []
    ensures !q.waiting4 ==> Answer4(es) == []
    ensures !q.waiting6 ==> Answer6(es) == []
    decreases |es|
  {
    if es != [] {
      StepKeepsInv(q, es[0]);
      StoresAnswers(Next(q, es[0]), es[1..]);
    }
  }

  /**
   * The stored answers of a query that ended are all freed, unless it was cancelled after
   * an answer with records: resolv_cancel does not free them.
   */
  lemma ResponsesReleased(mode: Mode, ok4: bool, ok6: bool, es: seq<Event>)
    requires Submit(mode, ok4, ok6).live && Feasible(Submit(mode, ok4, ok6), es)
    requires !Run(Submit(mode, ok4, ok6), es).live
    ensures var r := Run(Submit(mode, ok4, ok6), es);
            r.released == r.stored <==> Cancel !in es || (Answer4(es) == [] && Answer6(es) == [])
  {
    LifeCycle(Submit(mode, ok4, ok6), es);
    StoresAnswers(Submit(mode, ok4, ok6), es);
  }

  /** An answer of one record, then the client goes away: the record is never freed. */
  lemma CancelledAnswerLeaks()
    ensures var q, es := Submit(Ipv4First, true, true), [A(Some([1])), Cancel];
            Feasible(q, es) && Run(q, es).stored == 1 && Run(q, es).released == 0
  {
    var q, es := Submit(Ipv4First, true, true), [A(Some([1])), Cancel];
    assert es[1..] == [Cancel] && es[1..][1..] == [];
    assert Feasible(Next(q, es[0]), [Cancel]);
    assert Run(q, es) == Next(Next(q, es[0]), Cancel);
  }

  /** In every mode the client gets the best address, in whatever order the answers arrive. */
  lemma AnswerIndependentOfArrival(mode: Mode, ok4: bool, ok6: bool, es: seq<Event>)
    requires Feasible(Submit(mode, ok4, ok6), es) && Cancel !in es
    requires Submit(mode, ok4, ok6).live && !Run(Submit(mode, ok4, ok6), es).live
    ensures var r := Run(Submit(mode, ok4, ok6), es);
            r.clientCalls == 1 && r.chosen == Best(mode, Answer4(es), Answer6(es))
  {
    var q := Submit(mode, ok4, ok6);
    LifeCycle(q, es);
    AnswersCollected(q, es);
    Families(es);
    assert forall rs: seq<Address> :: q.responses + rs == rs;
    ChoiceIgnoresOrder(mode, Answer4(es), Answer6(es));
  }

  // ---------------------------------------------------------------- every run there is

  /** The A query is submitted in every mode but ipv6_only, the AAAA query in every mode but ipv4_only. */
  predicate Asked4(mode: Mode, ok4: bool) { ok4 && mode in {Ipv4Only, Ipv4First, Ipv6First} }
  predicate Asked6(mode: Mode, ok6: bool) { ok6 && mode in {Ipv6Only, Ipv4First, Ipv6First} }

  /** What can happen while these queries are outstanding. */
  predicate CanCome(e: Event, asked4: bool, asked6: bool) {
    match e
    case A(_) => asked4
    case AAAA(_) => asked6
    case Cancel => asked4 || asked6
  }

  /** Each query that was asked is answered once, in either order, or what is left is cancelled. */
  predicate Possible(asked4: bool, asked6: bool, es: seq<Event>) {
    || es == []
    || (|es| == 1 && CanCome(es[0], asked4, asked6))
    || (&& |es| == 2 && asked4 && asked6 && !es[0].Cancel?
        && CanCome(es[1], !es[0].A?, !es[0].AAAA?))
  }

  lemma RunsOfOne(q: Query, e: Event)
    ensures Feasible(q, [e]) <==> Enabled(q, e)
    ensures Enabled(q, e) ==> Run(q, [e]) == Next(q, e)
  {
    assert [e][1..] == [];
  }

  lemma RunsOfTwo(q: Query, e: Event, f: Event)
    ensures Feasible(q, [e, f]) <==> Enabled(q, e) && Enabled(Next(q, e), f)
    ensures Feasible(q, [e, f]) ==> Run(q, [e, f]) == Next(Next(q, e), f)
  {
    assert [e, f][1..] == [f];
    RunsOfOne(Next(q, e), f);
  }

  /** The runs of a query are exactly the possible ones. */
  lemma RunsExactly(mode: Mode, ok4: bool, ok6: bool, es: seq<Event>)
    ensures Feasible(Submit(mode, ok4, ok6), es) <==> Possible(Asked4(mode, ok4), Asked6(mode, ok6), es)
  {
    var q := Submit(mode, ok4, ok6);
    if |es| == 1 {
      assert es == [es[0]];
      RunsOfOne(q, es[0]);
    } else if |es| == 2 {
      assert es == [es[0], es[1]];
      RunsOfTwo(q, es[0], es[1]);
    } else if Feasible(q, es) && q.live {
      LifeCycle(q, es);
    } else if Feasible(q, es) {
      DeadStays(q, es);
    }
  }

  /** Both queries asked: in either order the client is called once, with the best address. */
  lemma BothAnswered(mode: Mode, a: Option<seq<nat>>, b: Option<seq<nat>>)
    requires mode.Ipv4First? || mode.Ipv6First?
    ensures var q, best := Submit(mode, true, true), Best(mode, Records4(a), Records6(b));
            && Feasible(q, [A(a), AAAA(b)]) && Feasible(q, [AAAA(b), A(a)])
            && Run(q, [A(a), AAAA(b)]).chosen == Run(q, [AAAA(b), A(a)]).chosen == best
            && Run(q, [A(a), AAAA(b)]).clientCalls == Run(q, [AAAA(b), A(a)]).clientCalls == 1
  {
    var q := Submit(mode, true, true);
    RunsExactly(mode, true, true, [A(a), AAAA(b)]);
    RunsExactly(mode, true, true, [AAAA(b), A(a)]);
    RunsOfTwo(q, A(a), AAAA(b));
    RunsOfTwo(q, AAAA(b), A(a));
    assert [A(a), AAAA(b)] == [A(a)] + [AAAA(b)] && [AAAA(b), A(a)] == [AAAA(b)] + [A(a)];
    AnswersOf(A(a), [AAAA(b)]);
    AnswersOf(AAAA(b), [A(a)]);
    AnswersOf(A(a), []);
    AnswersOf(AAAA(b), []);
    AnswerIndependentOfArrival(mode, true, true, [A(a), AAAA(b)]);
    AnswerIndependentOfArrival(mode, true, true, [AAAA(b), A(a)]);
  }

  /** Only the A query asked: its first record, if any, is what the client gets. */
  lemma OnlyA(mode: Mode, ok4: bool, ok6: bool, a: Option<seq<nat>>)
    requires Asked4(mode, ok4) && !Asked6(mode, ok6)
    ensures var q := Submit(mode, ok4, ok6);
            && Feasible(q, [A(a)]) && Run(q, [A(a)]).clientCalls == 1
            && Run(q, [A(a)]).chosen == if a.Some? && a.value != [] then Some(V4(a.value[0])) else None
  {
    RunsExactly(mode, ok4, ok6, [A(a)]);
    RunsOfOne(Submit(mode, ok4, ok6), A(a));
    AnswersOf(A(a), []);
    AnswerIndependentOfArrival(mode, ok4, ok6, [A(a)]);
  }

  /** Only the AAAA query asked. */
  lemma OnlyAAAA(mode: Mode, ok4: bool, ok6: bool, b: Option<seq<nat>>)
    requires !Asked4(mode, ok4) && Asked6(mode, ok6)
    ensures var q := Submit(mode, ok4, ok6);
            && Feasible(q, [AAAA(b)]) && Run(q, [AAAA(b)]).clientCalls == 1
            && Run(q, [AAAA(b)]).chosen == if b.Some? && b.value != [] then Some(V6(b.value[0])) else None
  {
    RunsExactly(mode, ok4, ok6, [AAAA(b)]);
    RunsOfOne(Submit(mode, ok4, ok6), AAAA(b));
    AnswersOf(AAAA(b), []);
    AnswerIndependentOfArrival(mode, ok4, ok6, [AAAA(b)]);
  }
}

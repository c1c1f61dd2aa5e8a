/** struct ResolvQuery and the callbacks that update it in place. */
module ResolvQueries {
  import opened Options
  import opened Resolver

  class ResolvQuery {
    const mode: Mode
    /** queries[0] is the A query, queries[1] the AAAA query; true while outstanding. */
    var queries: seq<bool>
    var responses: seq<Address>
    var chosen: Option<Address>
    ghost var live: bool
    ghost var clientCalls: nat
    ghost var dataFrees: nat
    ghost var stored: nat
    ghost var released: nat

    ghost predicate Valid()
      reads this
    {
      |queries| == 2
    }

    ghost function View(): Query
      requires Valid()
      reads this
    {
      Query(mode, queries[0], queries[1], responses, live, clientCalls, chosen, dataFrees, stored, released)
    }

    /** resolv_query; live is false when the caller gets NULL for a handle. */
    constructor (mode: Mode, ok4: bool, ok6: bool)
      ensures Valid() && View() == Submit(mode, ok4, ok6)
    {
      this.mode := mode;
      queries := [!mode.Ipv6Only? && ok4, !mode.Ipv4Only? && ok6];
      responses, chosen := [], None;
      live, clientCalls, dataFrees, stored, released := true, 0, 0, 0, 0;
      new;
      var none := AllQueriesAreNull();
      if none {
        live, dataFrees := false, 1;
      }
    }

    method AllQueriesAreNull() returns (result: bool)
      requires Valid()
      ensures result <==> !queries[0] && !queries[1]
    {
      result := true;
      for i := 0 to |queries|
        invariant result <==> forall k :: 0 <= k < i ==> !queries[k]
      {
        result := result && !queries[i];
      }
    }

    /** resolv_cancel: every outstanding query is cancelled, then the callback data freed. */
    method ResolvCancel()
      requires Valid() && Enabled(View(), Cancel)
      modifies this
      ensures Valid() && View() == Next(old(View()), Cancel)
    {
      for i := 0 to 2
        invariant Valid() && View() == old(View()).(waiting4 := queries[0], waiting6 := queries[1])
        invariant forall k :: 0 <= k < i ==> !queries[k]
      {
        if queries[i] {
          queries := queries[i := false];
        }
      }
      dataFrees := dataFrees + 1;
      live := false;
    }

    method DnsQueryV4Cb(result: Option<seq<nat>>)
      requires Valid() && Enabled(View(), A(result))
      modifies this
      ensures Valid() && View() == Next(old(View()), A(result))
    {
      ghost var v := View();
      if result.Some? && |result.value| > 0 {
        for i := 0 to |result.value|
          invariant Valid() && View() == Collect(v, Records4(result)[..i])
        {
          responses := responses + [V4(result.value[i])];
          stored := stored + 1;
          assert v.responses + Records4(result)[..i + 1] ==
                 (v.responses + Records4(result)[..i]) + [V4(result.value[i])];
        }
      }
      assert Records4(result)[..|Records4(result)|] == Records4(result);
      assert v.responses + [] == v.responses;
      assert View() == Collect(v, Records4(result));
      queries := queries[0 := false];
      Finish();
    }

    method DnsQueryV6Cb(result: Option<seq<nat>>)
      requires Valid() && Enabled(View(), AAAA(result))
      modifies this
      ensures Valid() && View() == Next(old(View()), AAAA(result))
    {
      ghost var v := View();
      if result.Some? && |result.value| > 0 {
        for i := 0 to |result.value|
          invariant Valid() && View() == Collect(v, Records6(result)[..i])
        {
          responses := responses + [V6(result.value[i])];
          stored := stored + 1;
          assert v.responses + Records6(result)[..i + 1] ==
                 (v.responses + Records6(result)[..i]) + [V6(result.value[i])];
        }
      }
      assert Records6(result)[..|Records6(result)|] == Records6(result);
      assert v.responses + [] == v.responses;
      assert View() == Collect(v, Records6(result));
      queries := queries[1 := false];
      Finish();
    }

    /** Once all queries have completed, call the client. */
    method Finish()
      requires Valid()
      modifies this
      ensures Valid() && View() == Join(old(View()))
    {
      var done := AllQueriesAreNull();
      if done {
        ProcessClientCallback();
      }
    }

    method ProcessClientCallback()
      requires Valid()
      modifies this
      ensures Valid() && View() == Process(old(View()))
    {
      var best;
      match mode {
        case Ipv4First => best := ChooseFamilyFirst(IsV4);
        case Ipv6First => best := ChooseFamilyFirst(IsV6);
        case _ => best := ChooseAny(responses);
      }
      chosen := best;
      clientCalls := clientCalls + 1;
      released := released + |responses|;
      dataFrees := dataFrees + 1;
      live := false;
    }

    /** choose_ipv4_first and choose_ipv6_first. */
    method ChooseFamilyFirst(family: Address -> bool) returns (best: Option<Address>)
      ensures best == Prefer(responses, family)
    {
      for i := 0 to |responses|
        invariant FirstOf(responses, family) == FirstOf(responses[i..], family)
      {
        assert responses[i..][1..] == responses[i + 1..];
        if family(responses[i]) {
          return Some(responses[i]);
        }
      }
      best := ChooseAny(responses);
    }
  }
}

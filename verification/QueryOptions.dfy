/** Query options and the way a rule action changes them.

    A rule action carries optional overrides; applying it to the options of a
    running query keeps every value the action leaves unset. */
module QueryOptions {
  import opened Optional

  datatype Strategy = AsIs | PreferIPv4 | PreferIPv6 | IPv4Only | IPv6Only

  /** A client subnet, kept abstract here: only presence and identity matter. */
  datatype Subnet = Subnet(address: seq<int>, bits: int)

  datatype Options = Options(
    strategy: Strategy,
    disableCache: bool,
    disableOptimisticCache: bool,
    rewriteTTL: Option<nat>,
    timeout: nat,
    clientSubnet: Option<Subnet>,
    removeClientSubnet: bool)

  /** The overrides of a route, evaluate or route-options action. */
  datatype Overrides = Overrides(
    strategy: Strategy,
    disableCache: bool,
    disableOptimisticCache: bool,
    rewriteTTL: Option<nat>,
    timeout: nat,
    clientSubnet: Option<Subnet>,
    removeClientSubnet: bool)

  /** The effect of an action outside legacy mode: every override but the
      strategy is applied. */
  function Apply(o: Options, r: Overrides): Options {
    var subnet := if r.removeClientSubnet then None
                  else if r.clientSubnet.Some? then r.clientSubnet
                  else o.clientSubnet;
    var remove := if r.removeClientSubnet then true
                  else if r.clientSubnet.Some? then false
                  else o.removeClientSubnet;
    Options(
      o.strategy,
      o.disableCache || r.disableCache,
      o.disableOptimisticCache || r.disableOptimisticCache,
      if r.rewriteTTL.Some? then r.rewriteTTL else o.rewriteTTL,
      if r.timeout > 0 then r.timeout else o.timeout,
      subnet,
      remove)
  }

  /** The strategy of the router stands in for an unset one when a query is sent. */
  function Finalize(o: Options, defaultStrategy: Strategy): Options {
    if o.strategy.AsIs? then o.(strategy := defaultStrategy) else o
  }

  /** A list of overrides, applied one after another. */
  function ApplyAll(o: Options, rs: seq<Overrides>): Options {
    if rs == [] then o else Apply(ApplyAll(o, rs[..|rs| - 1]), rs[|rs| - 1])
  }

  // ---------------------------------------------------------------------
  // The last writer wins
  // ---------------------------------------------------------------------

  /** `final` is what the last override that sets an option sets it to, and
      `initial` when none does. */
  predicate LastSet<T(==)>(rs: seq<Overrides>, sets: Overrides -> bool, value: Overrides -> T, initial: T, final: T) {
    && (forall i :: 0 <= i < |rs| && sets(rs[i]) && (forall j :: i < j < |rs| ==> !sets(rs[j])) ==>
          final == value(rs[i]))
    && ((forall i :: 0 <= i < |rs| ==> !sets(rs[i])) ==> final == initial)
  }

  /** Some override turns a switch on. */
  predicate TurnedOn(rs: seq<Overrides>, switch: Overrides -> bool) {
    exists i :: 0 <= i < |rs| && switch(rs[i])
  }

  predicate NoCache(r: Overrides) { r.disableCache }

  predicate NoOptimism(r: Overrides) { r.disableOptimisticCache }

  predicate SetsTTL(r: Overrides) { r.rewriteTTL.Some? }

  function TTLOf(r: Overrides): Option<nat> { r.rewriteTTL }

  predicate SetsTimeout(r: Overrides) { r.timeout > 0 }

  function TimeoutOf(r: Overrides): nat { r.timeout }

  /** An override with a subnet and its removal removes it. */
  predicate SetsSubnet(r: Overrides) { r.removeClientSubnet || r.clientSubnet.Some? }

  function SubnetOf(r: Overrides): Option<Subnet> { if r.removeClientSubnet then None else r.clientSubnet }

  predicate Removes(r: Overrides) { r.removeClientSubnet }

  /** What the options o have become under a list of overrides, option by option:
      a switch is on when it was, when some override turns it on or, for the
      cache, when `uncached` forces it; everything else is as the last override
      that sets it says. A subnet and its removal replace each other. */
  predicate Effective(o: Options, rs: seq<Overrides>, uncached: bool, p: Options) {
    && p.strategy == o.strategy
    && (p.disableCache <==> o.disableCache || uncached || TurnedOn(rs, NoCache))
    && (p.disableOptimisticCache <==> o.disableOptimisticCache || TurnedOn(rs, NoOptimism))
    && LastSet(rs, SetsTTL, TTLOf, o.rewriteTTL, p.rewriteTTL)
    && LastSet(rs, SetsTimeout, TimeoutOf, o.timeout, p.timeout)
    && LastSet(rs, SetsSubnet, SubnetOf, o.clientSubnet, p.clientSubnet)
    && LastSet(rs, SetsSubnet, Removes, o.removeClientSubnet, p.removeClientSubnet)
  }

  lemma OneMoreSet<T>(rs: seq<Overrides>, r: Overrides, sets: Overrides -> bool, value: Overrides -> T,
                      initial: T, before: T, final: T)
    requires LastSet(rs, sets, value, initial, before) && final == if sets(r) then value(r) else before
    ensures LastSet(rs + [r], sets, value, initial, final)
  {
    var all := rs + [r];
    forall i | 0 <= i < |all| && sets(all[i]) && (forall j :: i < j < |all| ==> !sets(all[j]))
      ensures final == value(all[i])
    {
      if i < |rs| {
        assert !sets(all[|rs|]);
        assert forall j :: i < j < |rs| ==> !sets(all[j]) && all[j] == rs[j];
      }
    }
    if forall i :: 0 <= i < |all| ==> !sets(all[i]) {
      assert !sets(all[|rs|]);
      assert forall i :: 0 <= i < |rs| ==> all[i] == rs[i];
    }
  }

  lemma OneMoreSwitch(rs: seq<Overrides>, r: Overrides, switch: Overrides -> bool)
    ensures TurnedOn(rs + [r], switch) <==> TurnedOn(rs, switch) || switch(r)
  {
    var all := rs + [r];
    assert forall i :: 0 <= i < |rs| ==> all[i] == rs[i];
    assert all[|rs|] == r;
    if TurnedOn(rs, switch) {
      var i :| 0 <= i < |rs| && switch(rs[i]);
      assert switch(all[i]);
    }
  }

  lemma EffectiveStep(o: Options, rs: seq<Overrides>, p: Options, r: Overrides)
    requires Effective(o, rs, false, p)
    ensures Effective(o, rs + [r], false, Apply(p, r))
  {
    var q := Apply(p, r);
    OneMoreSwitch(rs, r, NoCache);
    OneMoreSwitch(rs, r, NoOptimism);
    OneMoreSet(rs, r, SetsTTL, TTLOf, o.rewriteTTL, p.rewriteTTL, q.rewriteTTL);
    OneMoreSet(rs, r, SetsTimeout, TimeoutOf, o.timeout, p.timeout, q.timeout);
    OneMoreSet(rs, r, SetsSubnet, SubnetOf, o.clientSubnet, p.clientSubnet, q.clientSubnet);
    OneMoreSet(rs, r, SetsSubnet, Removes, o.removeClientSubnet, p.removeClientSubnet, q.removeClientSubnet);
  }

  /** Applying a list of overrides one after another: the last writer of each
      option wins. */
  lemma {:induction false} LastWriterWins(o: Options, rs: seq<Overrides>)
    ensures Effective(o, rs, false, ApplyAll(o, rs))
  {
    if rs != [] {
      var n := |rs| - 1;
      LastWriterWins(o, rs[..n]);
      EffectiveStep(o, rs[..n], ApplyAll(o, rs[..n]), rs[n]);
      assert rs == rs[..n] + [rs[n]];
    }
  }

  /** The last override that sets an option, if there is one. */
  lemma {:induction false} LastSetter(rs: seq<Overrides>, sets: Overrides -> bool) returns (i: nat)
    ensures i < |rs| ==> sets(rs[i]) && forall j :: i < j < |rs| ==> !sets(rs[j])
    ensures i >= |rs| ==> forall j :: 0 <= j < |rs| ==> !sets(rs[j])
  {
    i := |rs|;
    if rs != [] {
      var n := |rs| - 1;
      if sets(rs[n]) {
        i := n;
      } else {
        var k := LastSetter(rs[..n], sets);
        if k < n { i := k; }
        assert forall j :: 0 <= j < n ==> rs[..n][j] == rs[j];
      }
    }
  }

  lemma LastSetUnique<T>(rs: seq<Overrides>, sets: Overrides -> bool, value: Overrides -> T, o: T, p: T, q: T)
    requires LastSet(rs, sets, value, o, p) && LastSet(rs, sets, value, o, q)
    ensures p == q
  {
    var i := LastSetter(rs, sets);
  }

  /** The last writers leave nothing open: they determine the options. */
  lemma EffectiveIsUnique(o: Options, rs: seq<Overrides>, uncached: bool, p: Options, q: Options)
    requires Effective(o, rs, uncached, p) && Effective(o, rs, uncached, q)
    ensures p == q
  {
    LastSetUnique(rs, SetsTTL, TTLOf, o.rewriteTTL, p.rewriteTTL, q.rewriteTTL);
    LastSetUnique(rs, SetsTimeout, TimeoutOf, o.timeout, p.timeout, q.timeout);
    LastSetUnique(rs, SetsSubnet, SubnetOf, o.clientSubnet, p.clientSubnet, q.clientSubnet);
    LastSetUnique(rs, SetsSubnet, Removes, o.removeClientSubnet, p.removeClientSubnet, q.removeClientSubnet);
  }

  /** A subnet and its removal exclude each other as soon as an override speaks
      of either, and stay so. */
  lemma SubnetOrRemoval(o: Options, rs: seq<Overrides>)
    ensures var p := ApplyAll(o, rs);
            !(p.removeClientSubnet && p.clientSubnet.Some?) <==>
              !(o.removeClientSubnet && o.clientSubnet.Some?) || TurnedOn(rs, SetsSubnet)
  {
    LastWriterWins(o, rs);
    var i := LastSetter(rs, SetsSubnet);
    if i < |rs| { assert SetsSubnet(rs[i]); }
  }
}

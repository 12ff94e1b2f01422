/** Following aliases: the last CNAME target of an answer section, and the
    recursion over predefined answers that are aliases themselves.

    Names are compared in canonical form; `canon` stands for the canonical-name
    function of the DNS library, of which only totality and a non-empty result
    are used. */
module Aliases {

  datatype Record =
    | Cname(owner: string, target: string)
    | A(owner: string)
    | Aaaa(owner: string)
    | Other(owner: string)

  datatype QueryType = AnyAddress | AddressV4 | AddressV6 | NoAddress

  /** A CNAME record owned by the name. */
  predicate Owns(canon: string -> string, r: Record, name: string) { r.Cname? && canon(r.owner) == name }

  /** Where the first CNAME owned by `name` points. */
  function Next(canon: string -> string, records: seq<Record>, name: string): seq<string> {
    if records == [] then []
    else if Owns(canon, records[0], name) then [canon(records[0].target)]
    else Next(canon, records[1..], name)
  }

  /** A name owns an address of the type asked for. */
  predicate Addressed(canon: string -> string, records: seq<Record>, name: string, q: QueryType) {
    exists i :: 0 <= i < |records| && canon(records[i].owner) == name
      && ((records[i].A? && (q.AnyAddress? || q.AddressV4?)) || (records[i].Aaaa? && (q.AnyAddress? || q.AddressV6?)))
  }

  predicate Distinct(chain: seq<string>) { forall i, j :: 0 <= i < j < |chain| ==> chain[i] != chain[j] }

  /** A duplicate-free alias chain starting at a name. */
  predicate Chain(canon: string -> string, records: seq<Record>, name: string, chain: seq<string>) {
    && chain != [] && chain[0] == name && Distinct(chain)
    && forall i :: 0 <= i < |chain| - 1 ==> Next(canon, records, chain[i]) == [chain[i + 1]]
  }

  function Last(chain: seq<string>): string
    requires chain != []
  {
    chain[|chain| - 1]
  }

  /** A chain that ends: its last name owns no CNAME. */
  predicate Ends(canon: string -> string, records: seq<Record>, name: string, chain: seq<string>) {
    Chain(canon, records, name, chain) && Next(canon, records, Last(chain)) == []
  }

  /** A chain that runs back into itself. */
  predicate Loops(canon: string -> string, records: seq<Record>, name: string, chain: seq<string>) {
    && Chain(canon, records, name, chain)
    && Next(canon, records, Last(chain)) != [] && Next(canon, records, Last(chain))[0] in chain
  }

  function Targets(canon: string -> string, records: seq<Record>): set<string> {
    set i | 0 <= i < |records| && records[i].Cname? :: canon(records[i].target)
  }

  lemma {:induction false} NextIsTarget(canon: string -> string, records: seq<Record>, name: string)
    ensures |Next(canon, records, name)| <= 1
    ensures Next(canon, records, name) != [] ==> Next(canon, records, name)[0] in Targets(canon, records)
  {
    if records != [] && !Owns(canon, records[0], name) {
      NextIsTarget(canon, records[1..], name);
      assert forall i :: 0 <= i < |records| - 1 ==> records[1..][i] == records[i + 1];
    }
  }

  lemma {:induction false} NextSkips(canon: string -> string, records: seq<Record>, name: string, k: nat)
    requires k <= |records| && forall i :: 0 <= i < k ==> !Owns(canon, records[i], name)
    ensures Next(canon, records, name) == Next(canon, records[k..], name)
  {
    if k == 0 {
      assert records[0..] == records;
    } else {
      NextSkips(canon, records[1..], name, k - 1);
      assert records[1..][k - 1..] == records[k..];
    }
  }

  /** The alias of a name is the target of the first CNAME record it owns. */
  lemma {:induction false} NextIsFirst(canon: string -> string, records: seq<Record>, name: string)
    ensures Next(canon, records, name) == [] <==> forall i :: 0 <= i < |records| ==> !Owns(canon, records[i], name)
    ensures forall i :: 0 <= i < |records| && Owns(canon, records[i], name)
                        && (forall j :: 0 <= j < i ==> !Owns(canon, records[j], name)) ==>
              Next(canon, records, name) == [canon(records[i].target)]
  {
    if records != [] && !Owns(canon, records[0], name) {
      NextIsFirst(canon, records[1..], name);
      assert forall i :: 0 < i < |records| ==> records[i] == records[1..][i - 1];
      assert forall i :: 0 <= i < |records| - 1 ==> records[1..][i] == records[i + 1];
    }
  }

  /** Search the answer section for the first CNAME of a name. */
  method FindCname(canon: string -> string, records: seq<Record>, name: string) returns (found: bool, target: string)
    ensures found ==> Next(canon, records, name) == [target]
    ensures !found ==> Next(canon, records, name) == []
  {
    for k := 0 to |records|
      invariant forall i :: 0 <= i < k ==> !Owns(canon, records[i], name)
    {
      if Owns(canon, records[k], name) {
        NextSkips(canon, records, name, k);
        return true, canon(records[k].target);
      }
    }
    NextSkips(canon, records, name, |records|);
    return false, "";
  }

  method FindAddress(canon: string -> string, records: seq<Record>, name: string, q: QueryType) returns (found: bool)
    ensures found == Addressed(canon, records, name, q)
  {
    for k := 0 to |records|
      invariant !Addressed(canon, records[..k], name, q)
    {
      assert forall i :: 0 <= i < k ==> records[..k + 1][i] == records[..k][i];
      if canon(records[k].owner) == name {
        if records[k].A? && (q.AnyAddress? || q.AddressV4?) {
          return true;
        }
        if records[k].Aaaa? && (q.AnyAddress? || q.AddressV6?) {
          return true;
        }
      }
    }
    assert records[..|records|] == records;
    return false;
  }

  /** The end of the alias chain of a name, or "" when the name has no alias,
      the chain loops, or its end already has an address of the type asked
      for. Each result comes with its chain. */
  method FindLastTarget(canon: string -> string, name: string, records: seq<Record>, q: QueryType)
    returns (result: string, chain: seq<string>)
    requires forall x :: canon(x) != ""
    ensures Chain(canon, records, canon(name), chain)
    ensures result != "" <==>
            Ends(canon, records, canon(name), chain) && |chain| > 1 && !Addressed(canon, records, Last(chain), q)
    ensures result != "" ==> result == Last(chain)
    ensures Ends(canon, records, canon(name), chain) || Loops(canon, records, canon(name), chain)
    ensures result != "" ==> |chain| <= |Targets(canon, records)| + 1
  {
    var current := canon(name);
    chain := [current];
    result := "";
    while true
      invariant Chain(canon, records, canon(name), chain) && current == Last(chain)
      invariant forall i :: 0 < i < |chain| ==> chain[i] in Targets(canon, records)
      decreases Targets(canon, records) - Visited(chain)
    {
      NextIsTarget(canon, records, current);
      var found, target := FindCname(canon, records, current);
      if !found {
        break;
      }
      if target in chain {
        return;
      }
      ghost var before := chain;
      chain := chain + [target];
      current := target;
      assert target in Visited(chain) && target !in Visited(before);
      assert Visited(before) <= Visited(chain);
    }
    if |chain| == 1 {
      return;
    }
    assert current != canon(name);
    var addressed := FindAddress(canon, records, current, q);
    if !addressed {
      result := current;
      ChainIsShort(chain, Targets(canon, records));
    }
  }

  function Visited(chain: seq<string>): set<string> { set x | x in chain }

  lemma {:induction false} DistinctCount(chain: seq<string>)
    requires Distinct(chain)
    ensures |Visited(chain)| == |chain|
  {
    if chain != [] {
      var n := |chain| - 1;
      DistinctCount(chain[..n]);
      assert Visited(chain) == Visited(chain[..n]) + {chain[n]};
    }
  }

  lemma SubsetCount(a: set<string>, b: set<string>)
    requires a <= b
    ensures |a| <= |b|
  {
    assert b == a + (b - a);
  }

  lemma ChainIsShort(chain: seq<string>, targets: set<string>)
    requires chain != [] && Distinct(chain) && forall i :: 0 < i < |chain| ==> chain[i] in targets
    ensures |chain| <= |targets| + 1
  {
    var tail := chain[1..];
    DistinctCount(tail);
    SubsetCount(Visited(tail), targets);
  }

  /** The chain is determined by the records: any duplicate-free chain is a
      prefix of one that ends or loops. */
  lemma {:induction false} ChainsAgree(canon: string -> string, records: seq<Record>, name: string,
                                       a: seq<string>, b: seq<string>)
    requires Chain(canon, records, name, a) && (Ends(canon, records, name, b) || Loops(canon, records, name, b))
    ensures a <= b
  {
    if |a| == 1 {
      assert a == [name];
    } else {
      var n := |a| - 1;
      var c := a[..n];
      ChainsAgree(canon, records, name, c, b);
      assert Next(canon, records, a[n - 1]) == [a[n]] && a[n - 1] == b[n - 1];
    }
  }

  // ---------------------------------------------------------------------
  // Predefined aliases
  // ---------------------------------------------------------------------

  datatype AliasContext = NoChain | ChainOf(names: set<string>)

  datatype Extended = Extended(context: AliasContext, loopDetected: bool)

  /** Extend the alias chain carried by a query's context. */
  function WithAlias(canon: string -> string, ctx: AliasContext, source: string, target: string): Extended {
    var s, t := canon(source), canon(target);
    if s == t then Extended(ctx, true)
    else if ctx.ChainOf? && t in ctx.names then Extended(ctx, true)
    else Extended(ChainOf((if ctx.ChainOf? then ctx.names else {}) + {s, t}), false)
  }

  function Known(ctx: AliasContext): set<string> { if ctx.ChainOf? then ctx.names else {} }

  /** The names followed, one after another, starting from a query. At each
      depth `alias` says which target, if any, a predefined answer leads to;
      it may depend on the depth because options change on the way. */
  function Follow(canon: string -> string, alias: (nat, string) -> seq<string>, targets: set<string>,
                  depth: nat, name: string, ctx: AliasContext): (followed: seq<string>)
    requires forall d, n :: |alias(d, n)| <= 1 && (alias(d, n) != [] ==> canon(alias(d, n)[0]) in targets)
    decreases targets - Known(ctx)
  {
    if alias(depth, name) == [] then []
    else
      var target := alias(depth, name)[0];
      var extended := WithAlias(canon, ctx, name, target);
      if extended.loopDetected then []
      else
        assert canon(target) in targets && canon(target) !in Known(ctx) && canon(target) in Known(extended.context);
        [canon(target)] + Follow(canon, alias, targets, depth + 1, target, extended.context)
  }

  /** No name is followed twice, none already on the chain is followed, and the
      recursion is no deeper than the number of distinct targets. */
  lemma {:induction false} FollowsEachNameOnce(
    canon: string -> string, alias: (nat, string) -> seq<string>, targets: set<string>,
    depth: nat, name: string, ctx: AliasContext)
    requires forall d, n :: |alias(d, n)| <= 1 && (alias(d, n) != [] ==> canon(alias(d, n)[0]) in targets)
    ensures var followed := Follow(canon, alias, targets, depth, name, ctx);
      && Distinct(followed)
      && (forall i :: 0 <= i < |followed| ==> followed[i] in targets && followed[i] !in Known(ctx))
      && canon(name) !in followed
      && |followed| <= |targets|
    decreases targets - Known(ctx)
  {
    var followed := Follow(canon, alias, targets, depth, name, ctx);
    if followed != [] {
      var target := alias(depth, name)[0];
      var extended := WithAlias(canon, ctx, name, target);
      assert canon(target) in targets && canon(target) !in Known(ctx) && canon(target) in Known(extended.context);
      FollowsEachNameOnce(canon, alias, targets, depth + 1, target, extended.context);
    }
    DistinctCount(followed);
    assert Visited(followed) <= targets;
    SubsetCount(Visited(followed), targets);
  }

  /** The name k aliases further on, as the answers give them; it stays where there
      is no alias. */
  function Further(alias: (nat, string) -> seq<string>, depth: nat, name: string, k: nat): string
    requires forall d, n :: |alias(d, n)| <= 1
    decreases k
  {
    if k == 0 || alias(depth, name) == [] then name else Further(alias, depth + 1, alias(depth, name)[0], k - 1)
  }

  /** The names are the aliases one after another. */
  ghost predicate Trail(canon: string -> string, alias: (nat, string) -> seq<string>, depth: nat, name: string,
                        followed: seq<string>)
    requires forall d, n :: |alias(d, n)| <= 1
  {
    forall i :: 0 <= i < |followed| ==>
      && alias(depth + i, Further(alias, depth, name, i)) != []
      && followed[i] == canon(Further(alias, depth, name, i + 1))
  }

  /** There is no alias after n of them, or it leads to one of these names. */
  ghost predicate Stops(canon: string -> string, alias: (nat, string) -> seq<string>, depth: nat, name: string,
                        n: nat, names: set<string>)
    requires forall d, n :: |alias(d, n)| <= 1
  {
    || alias(depth + n, Further(alias, depth, name, n)) == []
    || canon(Further(alias, depth, name, n + 1)) in names
  }

  lemma TrailGrows(canon: string -> string, alias: (nat, string) -> seq<string>, depth: nat, name: string,
                   target: string, rest: seq<string>, names: set<string>)
    requires forall d, n :: |alias(d, n)| <= 1
    requires alias(depth, name) == [target] && Trail(canon, alias, depth + 1, target, rest)
    requires Stops(canon, alias, depth + 1, target, |rest|, names)
    ensures Trail(canon, alias, depth, name, [canon(target)] + rest)
    ensures Stops(canon, alias, depth, name, |rest| + 1, names)
  {
    var followed := [canon(target)] + rest;
    forall i | 0 <= i < |followed|
      ensures alias(depth + i, Further(alias, depth, name, i)) != []
      ensures followed[i] == canon(Further(alias, depth, name, i + 1))
    {
      if i > 0 { assert followed[i] == rest[i - 1]; }
    }
  }

  lemma ExtendedKnows(canon: string -> string, ctx: AliasContext, source: string, target: string)
    ensures var extended := WithAlias(canon, ctx, source, target);
            if extended.loopDetected then canon(target) in Known(ctx) + {canon(source)}
            else && canon(target) !in Known(ctx)
                 && Known(extended.context) == Known(ctx) + {canon(source), canon(target)}
  {
  }

  lemma ChainGrows(canon: string -> string, alias: (nat, string) -> seq<string>, depth: nat, name: string,
                   target: string, ctx: AliasContext, rest: seq<string>)
    requires forall d, n :: |alias(d, n)| <= 1
    requires alias(depth, name) == [target] && !WithAlias(canon, ctx, name, target).loopDetected
    requires Trail(canon, alias, depth + 1, target, rest)
    requires var known := Known(WithAlias(canon, ctx, name, target).context);
             Stops(canon, alias, depth + 1, target, |rest|, known + {canon(target)} + Visited(rest))
    ensures var followed := [canon(target)] + rest;
            && Trail(canon, alias, depth, name, followed)
            && Stops(canon, alias, depth, name, |followed|, Known(ctx) + {canon(name)} + Visited(followed))
  {
    var names := Known(WithAlias(canon, ctx, name, target).context) + {canon(target)} + Visited(rest);
    ExtendedKnows(canon, ctx, name, target);
    TrailGrows(canon, alias, depth, name, target, rest, names);
    assert names == Known(ctx) + {canon(name)} + Visited([canon(target)] + rest);
  }

  /** The names followed are the aliases one after another, and following stops
      only where there is no further alias or the next one is already on the
      chain: the name asked for, one followed, or one the query came with. */
  lemma {:induction false} FollowsUntilLoop(
    canon: string -> string, alias: (nat, string) -> seq<string>, targets: set<string>,
    depth: nat, name: string, ctx: AliasContext)
    requires forall d, n :: |alias(d, n)| <= 1 && (alias(d, n) != [] ==> canon(alias(d, n)[0]) in targets)
    ensures var followed := Follow(canon, alias, targets, depth, name, ctx);
      && Trail(canon, alias, depth, name, followed)
      && Stops(canon, alias, depth, name, |followed|, Known(ctx) + {canon(name)} + Visited(followed))
    decreases targets - Known(ctx)
  {
    if alias(depth, name) != [] {
      var target := alias(depth, name)[0];
      var extended := WithAlias(canon, ctx, name, target);
      ExtendedKnows(canon, ctx, name, target);
      if extended.loopDetected {
        assert Further(alias, depth, name, 1) == target;
      } else {
        assert canon(target) in targets && canon(target) in Known(extended.context);
        FollowsUntilLoop(canon, alias, targets, depth + 1, target, extended.context);
        ChainGrows(canon, alias, depth, name, target, ctx,
                   Follow(canon, alias, targets, depth + 1, target, extended.context));
      }
    }
  }
}

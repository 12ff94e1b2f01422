/** What a walk sends: with which options, to which server, when, and what the
    rules after it see. Everything is said of the rules themselves: which of them
    are reached and hold in the sequential reading, and what they set. */
module WalkQueries {
  import opened Optional
  import opened QueryOptions
  import opened RuleWalk
  import opened SequentialRules
  import opened WalkInvariant
  import opened WalkVisit
  import opened WalkRuns
  import opened WalkTheorems

  /** The sequential reading reaches rule j, which is enabled and not a race
      rule, and the rule holds there. */
  predicate Fires(e: Env, j: nat) {
    && j < |e.rules| && !e.rules[j].disabled && !e.rules[j].Armable()
    && Arrival(Calm(e), j).Some? && Holds(e.rules[j], Arrival(Calm(e), j).value)
  }

  predicate SetsOptions(e: Env, j: nat) { Fires(e, j) && e.rules[j].action.RouteOptionsAction? }

  /** The overrides of the route-options rules before rule i that fire, in order. */
  function Earlier(e: Env, i: nat): seq<Overrides>
    requires i <= |e.rules|
  {
    if i == 0 then []
    else Earlier(e, i - 1) + if SetsOptions(e, i - 1) then [e.rules[i - 1].action.overrides] else []
  }

  lemma {:induction false} OptionsOnArrival(e: Env, i: nat)
    requires i <= |e.rules| && Arrival(Calm(e), i).Some?
    ensures Arrival(Calm(e), i).value.options == ApplyAll(e.initial, Earlier(e, i))
  {
    if i > 0 {
      var q := Arrival(Calm(e), i - 1).value;
      OptionsOnArrival(e, i - 1);
      CalmStep(e, i - 1, q);
      if SetsOptions(e, i - 1) {
        var rs := Earlier(e, i - 1);
        var r := e.rules[i - 1].action.overrides;
        assert (rs + [r])[..|rs|] == rs;
      } else {
        assert Earlier(e, i) == Earlier(e, i - 1);
      }
    }
  }

  /** The options are those of the query when it came in, changed by the
      route-options rules that fire before rule i and then by `own`. */
  predicate Carries(e: Env, i: nat, own: seq<Overrides>, uncached: bool, p: Options)
    requires i <= |e.rules|
  {
    Effective(e.initial, Earlier(e, i) + own, uncached, p)
  }

  lemma Carried(e: Env, i: nat, own: Overrides)
    requires i <= |e.rules| && Arrival(Calm(e), i).Some?
    ensures var o := Arrival(Calm(e), i).value.options;
            Carries(e, i, [], false, o) && Carries(e, i, [own], false, Apply(o, own))
  {
    OptionsOnArrival(e, i);
    var rs := Earlier(e, i);
    LastWriterWins(e.initial, rs);
    assert rs + [] == rs;
    EffectiveStep(e.initial, rs, ApplyAll(e.initial, rs), own);
  }

  /** The strategy a query is sent with: no rule changes it. */
  function Chosen(e: Env): Strategy {
    if e.initial.strategy.AsIs? then e.defaultStrategy else e.initial.strategy
  }

  /** What the server answers to a query of rule i with options p. */
  function Asked(e: Env, i: nat, transport: Transport, p: Options): Answer {
    e.answer(i, transport, p.(strategy := Chosen(e)))
  }

  /** The server is known, and a fakeip one may be used. */
  predicate Usable(e: Env, server: string) {
    server in e.transports && (e.transports[server].fakeIP ==> e.allowFakeIP)
  }

  /** A query of route rule i: to its server, with the options so far and its
      own, and never cached when the server is a fakeip one. */
  predicate RouteQuery(e: Env, i: nat, transport: Transport, p: Options) {
    && i < |e.rules| && e.rules[i].action.RouteAction?
    && var action := e.rules[i].action;
    && Usable(e, action.server) && transport == e.transports[action.server]
    && Carries(e, i, [action.overrides], transport.fakeIP, p)
    && (transport.fakeIP ==> p.disableCache)
  }

  /** A query of evaluate rule i. */
  predicate EvaluateQuery(e: Env, i: nat, transport: Transport, p: Options) {
    && i < |e.rules| && e.rules[i].action.EvaluateAction?
    && var action := e.rules[i].action;
    && action.server in e.transports && transport == e.transports[action.server]
    && Carries(e, i, [action.overrides], false, p)
  }

  /** The query after the last rule. */
  predicate DefaultQuery(e: Env, i: nat, transport: Transport, p: Options) {
    i == |e.rules| && transport == e.defaultTransport && Carries(e, i, [], false, p)
  }

  lemma RouteCarries(e: Env, i: nat, transport: Transport, p: Options)
    requires i < |e.rules| && e.rules[i].action.RouteAction? && Arrival(Calm(e), i).Some?
    requires var action := e.rules[i].action;
             ResolveRoute(e, action.server, action.overrides, Arrival(Calm(e), i).value.options) == Some((transport, p))
    ensures RouteQuery(e, i, transport, p)
    ensures Send(e, i, transport, p) == Asked(e, i, transport, p)
  {
    Carried(e, i, e.rules[i].action.overrides);
  }

  lemma EvaluateCarries(e: Env, i: nat, o: Options)
    requires i < |e.rules| && e.rules[i].action.EvaluateAction? && e.rules[i].action.server in e.transports
    requires Arrival(Calm(e), i).Some? && o == Arrival(Calm(e), i).value.options
    ensures var action := e.rules[i].action;
            var transport, p := e.transports[action.server], Apply(o, action.overrides);
            EvaluateQuery(e, i, transport, p) && Send(e, i, transport, p) == Asked(e, i, transport, p)
  {
    Carried(e, i, e.rules[i].action.overrides);
  }

  lemma DefaultCarries(e: Env, o: Options)
    requires Arrival(Calm(e), |e.rules|).Some? && o == Arrival(Calm(e), |e.rules|).value.options
    ensures DefaultQuery(e, |e.rules|, e.defaultTransport, o)
    ensures Send(e, |e.rules|, e.defaultTransport, o) == Asked(e, |e.rules|, e.defaultTransport, o)
  {
    OptionsOnArrival(e, |e.rules|);
    var rs := Earlier(e, |e.rules|);
    LastWriterWins(e.initial, rs);
    assert rs + [] == rs;
  }

  /** Every query launched in any run, ahead of time or not, carries the options
      set by the route-options rules that fire before its rule and its own, goes
      to its rule's server, and gets that server's answer. */
  lemma LaunchedQueriesCarryTheirOptions(e: Env, t: State, k: nat)
    requires WellFormed(e.rules) && Reachable(e, t) && k < |t.futures|
    ensures var f := t.futures[k];
            && Fires(e, f.rule)
            && (if f.terminal then RouteQuery(e, f.rule, f.transport, f.options)
                else EvaluateQuery(e, f.rule, f.transport, f.options))
            && AnswerOf(e, f) == Asked(e, f.rule, f.transport, f.options)
  {
    QueriesAccounted(e, t);
    var f := t.futures[k];
    assert Requested(e, f);
    if f.terminal {
      RouteCarries(e, f.rule, f.transport, f.options);
    } else {
      EvaluateCarries(e, f.rule, Arrival(Calm(e), f.rule).value.options);
    }
  }

  /** Where a walk holds an exchange that is still to be sent. */
  predicate About(t: State, p: PendingExchange) {
    t.control == Sweeping(Pending(p)) || t.control == Checking(Pending(p)) || t.control == Finishing(p)
  }

  /** So does every exchange a walk is about to end with. */
  lemma FinalExchangesCarryTheirOptions(e: Env, t: State, p: PendingExchange)
    requires WellFormed(e.rules) && Reachable(e, t) && About(t, p) && p.Plain?
    ensures || RouteQuery(e, p.rule, p.transport, p.options)
            || DefaultQuery(e, p.rule, p.transport, p.options)
    ensures OutcomeOf(e, t, p) == Exchanged(p.rule, p.transport, Asked(e, p.rule, p.transport, p.options))
  {
    ReachableInvariant(e, t);
    assert Planned(e, p);
    if p.rule == |e.rules| {
      DefaultCarries(e, p.options);
    } else {
      RouteCarries(e, p.rule, p.transport, p.options);
    }
  }

  // ---------------------------------------------------------------------
  // Outcomes
  // ---------------------------------------------------------------------

  /** Where the sequential reading ends: at the rule that decides, or after the
      last one. */
  lemma {:induction false} ReadingEnds(e: Env, i: nat, q: Memory) returns (j: nat)
    requires i <= |e.rules| && Arrival(e, i) == Some(q)
    ensures j <= |e.rules| && Arrival(e, j).Some?
    ensures if j == |e.rules| then Interpret(e, i, q) == Fallback(e, Arrival(e, j).value)
            else StepRule(e, j, Arrival(e, j).value) == Decide(Interpret(e, i, q))
    decreases |e.rules| - i
  {
    j := i;
    if i < |e.rules| && StepRule(e, i, q).Proceed? { j := ReadingEnds(e, i + 1, StepRule(e, i, q).memory); }
  }

  /** The outcome of an action carries the options of the query. */
  ghost predicate Backed(e: Env, o: Outcome) {
    && (o.Exchanged? ==>
          exists p :: (RouteQuery(e, o.rule, o.transport, p) || DefaultQuery(e, o.rule, o.transport, p))
                      && o.answer == Asked(e, o.rule, o.transport, p))
    && (o.Predefined? ==> o.rule < |e.rules| && Carries(e, o.rule, [], false, o.options))
  }

  lemma ConcludeBacked(e: Env, i: nat, q: Memory)
    requires i < |e.rules| && Arrival(Calm(e), i) == Some(q) && Conclude(e, i, q).Some?
    ensures Backed(e, Conclude(e, i, q).value)
  {
    var action := e.rules[i].action;
    if action.RouteAction? {
      var route := ResolveRoute(e, action.server, action.overrides, q.options).value;
      RouteCarries(e, i, route.0, route.1);
    } else {
      OptionsOnArrival(e, i);
      LastWriterWins(e.initial, Earlier(e, i));
      assert Earlier(e, i) + [] == Earlier(e, i);
    }
  }

  /** However a walk ends, the exchange it ends with was the query of a route rule
      or the default one, with the options the rules before it have set, and so
      are the options of a predefined answer. */
  lemma OutcomesCarryTheirOptions(e: Env, t: State, o: Outcome)
    requires WellFormed(e.rules) && Reachable(e, t) && t.control == Done(o)
    ensures Backed(e, o)
  {
    OutcomeCharacterised(e, t, o);
    if RaceBacked(e, o) {
      var r: nat :| Contends(e, r) && Contention(e, r) == Some(o);
      ConcludeBacked(e, r, Arrival(Calm(e), r).value);
    } else if o != ContextDone {
      ReferenceBacked(e);
    }
  }

  lemma ReferenceBacked(e: Env)
    ensures Backed(e, Reference(Calm(e)))
  {
    var j := ReadingEnds(Calm(e), 0, Start(Calm(e)));
    var q := Arrival(Calm(e), j).value;
    if j == |e.rules| {
      DefaultCarries(e, q.options);
    } else {
      CalmStep(e, j, q);
      ConcludeBacked(e, j, q);
    }
  }

  /** A route rule that fires ends the reading exactly when its server is known
      and may be used; otherwise the rule is passed over. */
  lemma RouteDecidesIffUsable(e: Env, i: nat)
    requires Fires(e, i) && e.rules[i].action.RouteAction?
    ensures Arrival(Calm(e), i + 1).None? <==> Usable(e, e.rules[i].action.server)
    ensures Arrival(Calm(e), i + 1).Some? ==> Arrival(Calm(e), i + 1) == Arrival(Calm(e), i)
  {
    CalmStep(e, i, Arrival(Calm(e), i).value);
  }

  // ---------------------------------------------------------------------
  // What later rules see
  // ---------------------------------------------------------------------

  /** Rule j is an evaluate rule that fires and keeps its response under the tag;
      the empty tag stands for the anonymous response. */
  predicate Gives(e: Env, j: nat, tag: string) {
    Fires(e, j) && e.rules[j].action.EvaluateAction? && e.rules[j].action.tag == tag
  }

  /** v is the response rule j asks for. */
  ghost predicate ResponseOf(e: Env, j: nat, v: Evaluated) {
    v.origin == j && exists p :: EvaluateQuery(e, j, v.transport, p) && v.answer == Asked(e, j, v.transport, p)
  }

  predicate Known(e: Env, j: nat) {
    j < |e.rules| && e.rules[j].action.EvaluateAction? && e.rules[j].action.server in e.transports
  }

  /** The memory holds the response under the tag, or the anonymous one. */
  function Under(q: Memory, tag: string): Option<Evaluated> {
    if tag == "" then q.anonymous else Named(q, tag)
  }

  /** One more rule read: its response, if it is an evaluate rule that fires with
      a known server; the other responses stay. */
  lemma MemoryStep(e: Env, i: nat, tag: string)
    requires i < |e.rules| && Arrival(Calm(e), i + 1).Some?
    ensures Arrival(Calm(e), i).Some?
    ensures var was, v := Under(Arrival(Calm(e), i).value, tag), Under(Arrival(Calm(e), i + 1).value, tag);
      if !Gives(e, i, tag) then v == was
      else if Known(e, i) then v.Some? && ResponseOf(e, i, v.value)
      else v == if tag == "" then None else was
  {
    var q := Arrival(Calm(e), i).value;
    CalmStep(e, i, q);
    if Gives(e, i, tag) && Known(e, i) { EvaluateCarries(e, i, q.options); }
  }

  /** Rule j is the last before i that gives the response. */
  predicate LastGiver(e: Env, i: nat, tag: string, j: nat) {
    j < i && Gives(e, j, tag) && forall k :: j < k < i ==> !Gives(e, k, tag)
  }

  lemma NextGiver(e: Env, i: nat, tag: string, j: nat)
    ensures LastGiver(e, i + 1, tag, j) <==> if Gives(e, i, tag) then j == i else LastGiver(e, i, tag, j)
  {
    if LastGiver(e, i, tag, j) && !Gives(e, i, tag) { assert LastGiver(e, i + 1, tag, j); }
  }

  lemma GivenOnce(e: Env, j: nat, k: nat, tag: string)
    requires WellFormed(e.rules) && j < k && tag != "" && Gives(e, j, tag)
    ensures !Gives(e, k, tag)
  {
    if Gives(e, k, tag) { assert e.rules[k].Defines(e.rules[j].action.tag); }
  }

  /** v is the response of the last evaluate rule before rule i that fires and
      gives it; it is missing when there is none or its server is unknown. */
  ghost predicate Latest(e: Env, i: nat, tag: string, v: Option<Evaluated>) {
    match v
    case Some(x) => LastGiver(e, i, tag, x.origin) && Known(e, x.origin) && ResponseOf(e, x.origin, x)
    case None => forall j: nat :: LastGiver(e, i, tag, j) ==> !Known(e, j)
  }

  lemma LatestStep(e: Env, i: nat, tag: string, was: Option<Evaluated>, v: Option<Evaluated>)
    requires WellFormed(e.rules) && Latest(e, i, tag, was)
    requires if !Gives(e, i, tag) then v == was
             else if Known(e, i) then v.Some? && ResponseOf(e, i, v.value)
             else v == if tag == "" then None else was
    ensures Latest(e, i + 1, tag, v)
  {
    if was.Some? && tag != "" { GivenOnce(e, was.value.origin, i, tag); }
    match v
    case Some(x) => NextGiver(e, i, tag, x.origin);
    case None => forall j: nat | LastGiver(e, i + 1, tag, j) ensures !Known(e, j) { NextGiver(e, i, tag, j); }
  }

  /** The response a rule finds, anonymous or under a tag, is that of the last
      evaluate rule before it that fires and gives it, and there is one exactly
      when such a rule fires and its server is known. */
  lemma {:induction false} ResponsesAreLatest(e: Env, i: nat, tag: string)
    requires WellFormed(e.rules) && i <= |e.rules| && Arrival(Calm(e), i).Some?
    ensures Latest(e, i, tag, Under(Arrival(Calm(e), i).value, tag))
  {
    if i == 0 {
      assert Under(Start(Calm(e)), tag) == None;
    } else {
      MemoryStep(e, i - 1, tag);
      ResponsesAreLatest(e, i - 1, tag);
      LatestStep(e, i - 1, tag, Under(Arrival(Calm(e), i - 1).value, tag), Under(Arrival(Calm(e), i).value, tag));
    }
  }

  lemma SameMessage(a: Option<Message>, b: Option<Message>)
    requires forall m :: a == Some(m) <==> b == Some(m)
    ensures a == b
  {
    if a.Some? { assert a == Some(a.value); }
    if b.Some? { assert b == Some(b.value); }
  }

  /** A rule is judged on exactly the responses it binds: the message of the
      anonymous one if it binds that, and for each of its tags the message of the
      response so named; a failed or missing response is no message. */
  lemma HoldsOnWhatItBinds(rule: Rule, q: Memory, b: Bound)
    requires b.named.Keys == set t | t in rule.tags
    requires forall t, m :: t in rule.tags ==>
               (b.named[t] == Some(m) <==> t in q.named && q.named[t].answer == Reply(m))
    requires forall m :: b.anonymous == Some(m) <==>
               rule.anonymous && q.anonymous.Some? && q.anonymous.value.answer == Reply(m)
    ensures Holds(rule, q) <==> rule.matches(b)
  {
    var names := BoundNames(rule, NamedViews(q.named));
    forall t | t in rule.tags ensures b.named[t] == names[t] { SameMessage(b.named[t], names[t]); }
    assert b.named == names;
    SameMessage(b.anonymous, if rule.anonymous then ViewOf(q.anonymous) else None);
  }
}

/** Every run with late completions ends as the sequential reading with losses. */
module LateRuns {
  import opened Optional
  import opened QueryOptions
  import opened RuleWalk
  import opened SequentialRules
  import opened WalkInvariant
  import opened LateVisits
  import WalkRuns
  import WalkVisit

  // ---------------------------------------------------------------------
  // Judging with losses
  // ---------------------------------------------------------------------

  /** The rule at hand is about to be judged; `more` are the losses afterwards. */
  predicate Judged(e: Env, s: State, more: LossMap) {
    && s.control.Visiting? && s.ruleIndex < |e.rules| && Steady(e, s)
    && var rule := e.rules[s.ruleIndex];
    && !rule.disabled && Bindable(s, rule)
    && LostAt(more, s.ruleIndex) == Missing(s, rule) && LossesOk(e, more, s.ruleIndex + 1)
    && LossyArrival(e, more, s.ruleIndex) == Some(Abs(e, s))
  }

  /** What is left of the memory for the rule. */
  function Seen(e: Env, s: State, rule: Rule): Memory {
    var q := Abs(e, s);
    q.(named := q.named - Missing(s, rule))
  }

  lemma SeenName(e: Env, s: State, rule: Rule, t: string)
    requires Names(s) && Responses(e, s) && t in rule.tags
    ensures Lookup(s.responses, t) == ViewOf(Named(Seen(e, s, rule), t))
    ensures RespondNamed(s, t) == Responding(Named(Seen(e, s, rule), t))
  {
    if t in s.responses {
      assert t in s.named && Named(Seen(e, s, rule), t) == Some(Image(e, s.futures[s.named[t]]));
    } else {
      assert Named(Seen(e, s, rule), t) == None;
    }
  }

  lemma MatchIsLossy(e: Env, s: State, rule: Rule)
    requires Names(s) && Responses(e, s) && Bindable(s, rule)
    ensures Matches(rule, AnonymousView(e, s, s.anonymous), s.responses) == Holds(rule, Seen(e, s, rule))
  {
    var q := Seen(e, s, rule);
    if rule.anonymous { AnonymousImage(e, s, s.anonymous); }
    forall t | t in rule.tags
      ensures Lookup(s.responses, t) == Lookup(NamedViews(q.named), t)
    {
      SeenName(e, s, rule, t);
    }
    SameBinding(rule, AnonymousView(e, s, s.anonymous), s.responses, ViewOf(q.anonymous), NamedViews(q.named));
  }

  /** The walk stands before the rule the lossy reading has arrived at. */
  lemma StandsBefore(e: Env, t: State, more: LossMap)
    requires t.control.Visiting? && Steady(e, t) && LossesOk(e, more, t.ruleIndex) && t.ruleIndex <= |e.rules|
    requires LossyArrival(e, more, t.ruleIndex) == Some(Abs(e, t))
    ensures FineSound(e, Fine(t, more))
  {
  }

  /** The rule has no effect: the walk goes on to the next one. */
  lemma PassLands(e: Env, s: State, more: LossMap, options: Options)
    requires Judged(e, s, more)
    requires var seen := Seen(e, s, e.rules[s.ruleIndex]);
             StepRule(e, s.ruleIndex, seen) == Proceed(seen.(options := options))
    ensures FineSound(e, Fine(s.(ruleIndex := s.ruleIndex + 1, options := options), more))
  {
    PassStep(e, s.ruleIndex, Abs(e, s), Missing(s, e.rules[s.ruleIndex]), options);
    PassIsBefore(e, s, more, s.(ruleIndex := s.ruleIndex + 1, options := options));
  }

  lemma PassIsBefore(e: Env, s: State, more: LossMap, t: State)
    requires Steady(e, s) && s.control.Visiting? && s.ruleIndex < |e.rules| && Bindable(s, e.rules[s.ruleIndex])
    requires t == s.(ruleIndex := s.ruleIndex + 1, options := t.options)
    requires LossesOk(e, more, t.ruleIndex)
    requires LossyArrival(e, more, t.ruleIndex) == Some(Abs(e, s).(options := t.options))
    ensures FineSound(e, Fine(t, more))
  {
    NextIsSteady(e, s, t);
    NextImage(e, s, t);
  }

  lemma PassStep(e: Env, i: nat, q: Memory, lost: set<string>, options: Options)
    requires i < |e.rules|
    requires var seen := q.(named := q.named - lost); StepRule(e, i, seen) == Proceed(seen.(options := options))
    ensures LossyStep(e, i, q, lost) == Proceed(q.(options := options))
  {
    assert q.named + (q.named - lost) == q.named;
  }

  lemma NextImage(e: Env, s: State, t: State)
    requires t.futures == s.futures && t.named == s.named && t.anonymous == s.anonymous
    ensures Abs(e, t) == Abs(e, s).(options := t.options)
  {
  }

  lemma NextIsSteady(e: Env, s: State, t: State)
    requires Steady(e, s) && s.ruleIndex < |e.rules|
    requires t == s.(ruleIndex := s.ruleIndex + 1, options := t.options, anonymous := t.anonymous)
    requires t.anonymous.Some? ==> t.anonymous == s.anonymous
    requires !e.rules[s.ruleIndex].disabled ==> Bindable(s, e.rules[s.ruleIndex])
    ensures Steady(e, t)
  {
    forall k | 0 <= k < |t.futures| ensures FromRule(e, t, t.futures[k]) { assert FromRule(e, s, s.futures[k]); }
  }

  /** The rule ends the walk. */
  lemma EndLands(e: Env, s: State, more: LossMap, o: Outcome)
    requires Judged(e, s, more)
    requires StepRule(e, s.ruleIndex, Seen(e, s, e.rules[s.ruleIndex])) == Decide(o)
    ensures FineSound(e, Fine(Finish(s, o), more))
    ensures ConcludesAt(e, more, s.ruleIndex, o)
  {
    EndStep(e, s.ruleIndex, Abs(e, s), Missing(s, e.rules[s.ruleIndex]), o);
    FinishIsSound(e, s, more, o);
  }

  lemma FinishIsSound(e: Env, s: State, more: LossMap, o: Outcome)
    requires LossesOk(e, more, |e.rules|) && ConcludesAt(e, more, s.ruleIndex, o)
    ensures FineSound(e, Fine(Finish(s, o), more))
  {
  }

  lemma EndStep(e: Env, i: nat, q: Memory, lost: set<string>, o: Outcome)
    requires i < |e.rules| && StepRule(e, i, q.(named := q.named - lost)) == Decide(o)
    ensures LossyStep(e, i, q, lost) == Decide(o)
  {
  }

  lemma ExchangeLands(e: Env, s: State, more: LossMap, p: PendingExchange)
    requires Judged(e, s, more) && p.Plain?
    requires StepRule(e, s.ruleIndex, Seen(e, s, e.rules[s.ruleIndex])) == Decide(OutcomeOf(e, s, p))
    ensures FineSound(e, Fine(Suspend(s, Pending(p)), more))
  {
    var o := OutcomeOf(e, s, p);
    EndLands(e, s, more, o);
    var t := Suspend(s, Pending(p));
    SteadyKept(e, s, t);
    assert OutcomeOf(e, t, p) == o;
  }

  // ---------------------------------------------------------------------
  // Action by action
  // ---------------------------------------------------------------------

  lemma FreshTag(e: Env, s: State, tag: string)
    requires WellFormed(e.rules) && Steady(e, s) && s.ruleIndex < |e.rules| && e.rules[s.ruleIndex].Defines(tag)
    ensures tag !in s.named
    ensures forall j :: 0 <= j <= s.ruleIndex ==> tag !in e.rules[j].tags
  {
    forall x | x in s.named ensures x != tag {
      var g := s.futures[s.named[x]];
      assert FromRule(e, s, g);
      assert !e.rules[s.ruleIndex].Defines(e.rules[g.rule].action.tag);
    }
    forall j, x | 0 <= j <= s.ruleIndex && x in e.rules[j].tags ensures x != tag {
      var d :| 0 <= d < j && e.rules[d].Defines(x);
      assert !e.rules[s.ruleIndex].Defines(e.rules[d].action.tag);
    }
  }

  /** A new query joins the others. */
  lemma LaunchIsSteady(e: Env, s: State, action: Action)
    requires WellFormed(e.rules) && Steady(e, s) && s.ruleIndex < |e.rules| && action == e.rules[s.ruleIndex].action
    requires action.EvaluateAction? && action.server in e.transports && Bindable(s, e.rules[s.ruleIndex])
    ensures Steady(e, VisitEvaluate(e, s, action))
  {
    var t := VisitEvaluate(e, s, action);
    var n := |s.futures|;
    assert t.futures[..n] == s.futures;
    if action.tag != "" { FreshTag(e, s, action.tag); }
    LaunchOrdered(e, s, t, action);
    WalkVisit.AppendNames(s, t, action.tag);
    WalkVisit.AppendResponses(e, s, t);
    LaunchRead(e, s, t, action.tag);
  }

  lemma LaunchOrdered(e: Env, s: State, t: State, action: Action)
    requires Ordered(e, s) && s.ruleIndex < |e.rules| && action == e.rules[s.ruleIndex].action && action.EvaluateAction?
    requires t.ruleIndex == s.ruleIndex + 1 && t.armed == [] && t.terminal.None?
    requires |t.futures| == |s.futures| + 1 && t.futures[..|s.futures|] == s.futures
    requires var g := t.futures[|s.futures|]; !g.terminal && g.rule == s.ruleIndex && g.tag == action.tag
    ensures Ordered(e, t)
  {
    forall k | 0 <= k < |t.futures| ensures FromRule(e, t, t.futures[k]) {
      if k < |s.futures| {
        assert t.futures[..|s.futures|][k] == s.futures[k];
        assert FromRule(e, s, s.futures[k]);
      }
    }
  }

  lemma LaunchRead(e: Env, s: State, t: State, tag: string)
    requires HaveRead(e, s) && Names(s) && s.ruleIndex < |e.rules| && t.ruleIndex == s.ruleIndex + 1
    requires Bindable(s, e.rules[s.ruleIndex])
    requires |s.futures| <= |t.futures| && t.futures[..|s.futures|] == s.futures
    requires t.named == (if tag == "" then s.named else s.named[tag := |s.futures|])
    requires tag != "" ==> forall j :: 0 <= j <= s.ruleIndex ==> tag !in e.rules[j].tags
    ensures HaveRead(e, t)
  {
    forall j, x | 0 <= j < t.ruleIndex && j < |e.rules| && !e.rules[j].disabled && x in e.rules[j].tags && x in t.named
      ensures IsResolved(t, t.named[x])
    {
      assert IsResolved(s, s.named[x]);
      assert t.futures[..|s.futures|][s.named[x]] == s.futures[s.named[x]];
    }
  }

  lemma LaunchImage(e: Env, s: State, action: Action)
    requires Names(s) && action.EvaluateAction? && action.server in e.transports && s.armed == []
    ensures Abs(e, VisitEvaluate(e, s, action)) == Evaluate(e, s.ruleIndex, action, Abs(e, s))
    ensures VisitEvaluate(e, s, action).ruleIndex == s.ruleIndex + 1 && VisitEvaluate(e, s, action).control == s.control
  {
    var f := Future(s.ruleIndex, action.tag, false, e.transports[action.server],
                    Apply(s.options, action.overrides), Running, false, false, false);
    WalkVisit.AppendImage(e, s.futures, f, s.named, action.tag);
  }

  lemma EvaluateSeen(e: Env, i: nat, action: Action, q: Memory, lost: set<string>)
    requires action.EvaluateAction? && action.tag !in lost
    ensures var seen := Evaluate(e, i, action, q.(named := q.named - lost));
            seen.(named := q.named + seen.named) == Evaluate(e, i, action, q)
  {
    var seen := Evaluate(e, i, action, q.(named := q.named - lost));
    assert q.named + seen.named == Evaluate(e, i, action, q).named;
  }

  predicate Evaluating(e: Env, s: State, more: LossMap) {
    && Judged(e, s, more)
    && var rule := e.rules[s.ruleIndex];
       rule.action.EvaluateAction? && Holds(rule, Seen(e, s, rule))
  }

  lemma EvaluateStep(e: Env, i: nat, q: Memory, lost: set<string>)
    requires i < |e.rules| && !e.rules[i].disabled && e.rules[i].action.EvaluateAction?
    requires e.rules[i].action.tag !in lost
    requires Holds(e.rules[i], q.(named := q.named - lost))
    ensures LossyStep(e, i, q, lost) == Proceed(Evaluate(e, i, e.rules[i].action, q))
  {
    EvaluateSeen(e, i, e.rules[i].action, q, lost);
  }

  lemma UnlostTag(e: Env, s: State)
    requires WellFormed(e.rules) && Steady(e, s) && s.ruleIndex < |e.rules|
    requires e.rules[s.ruleIndex].action.EvaluateAction?
    ensures e.rules[s.ruleIndex].action.tag !in Missing(s, e.rules[s.ruleIndex])
  {
    var tag := e.rules[s.ruleIndex].action.tag;
    if tag != "" { FreshTag(e, s, tag); }
  }

  lemma EvaluateArrives(e: Env, s: State, more: LossMap)
    requires WellFormed(e.rules) && Evaluating(e, s, more)
    ensures LossyArrival(e, more, s.ruleIndex + 1)
         == Some(Evaluate(e, s.ruleIndex, e.rules[s.ruleIndex].action, Abs(e, s)))
  {
    UnlostTag(e, s);
    EvaluateStep(e, s.ruleIndex, Abs(e, s), Missing(s, e.rules[s.ruleIndex]));
  }

  lemma LaunchLands(e: Env, s: State, more: LossMap)
    requires WellFormed(e.rules) && Evaluating(e, s, more) && e.rules[s.ruleIndex].action.server in e.transports
    ensures FineSound(e, Fine(VisitEvaluate(e, s, e.rules[s.ruleIndex].action), more))
  {
    var action := e.rules[s.ruleIndex].action;
    EvaluateArrives(e, s, more);
    LaunchIsSteady(e, s, action);
    LaunchedIsBefore(e, s, more, action);
  }

  lemma LaunchedIsBefore(e: Env, s: State, more: LossMap, action: Action)
    requires action.EvaluateAction? && action.server in e.transports && s.armed == [] && Names(s) && s.control.Visiting?
    requires s.ruleIndex < |e.rules| && LossesOk(e, more, s.ruleIndex + 1) && Steady(e, VisitEvaluate(e, s, action))
    requires LossyArrival(e, more, s.ruleIndex + 1) == Some(Evaluate(e, s.ruleIndex, action, Abs(e, s)))
    ensures FineSound(e, Fine(VisitEvaluate(e, s, action), more))
  {
    LaunchImage(e, s, action);
    StandsBefore(e, VisitEvaluate(e, s, action), more);
  }

  lemma UnknownServerImage(e: Env, s: State, action: Action)
    requires action.EvaluateAction? && action.server !in e.transports
    ensures var t := VisitEvaluate(e, s, action);
            && Abs(e, t) == Evaluate(e, s.ruleIndex, action, Abs(e, s))
            && t == s.(ruleIndex := s.ruleIndex + 1, anonymous := t.anonymous)
            && (t.anonymous == s.anonymous || t.anonymous == None)
  {
  }

  lemma UnknownServerLands(e: Env, s: State, more: LossMap)
    requires WellFormed(e.rules) && Evaluating(e, s, more) && e.rules[s.ruleIndex].action.server !in e.transports
    ensures FineSound(e, Fine(VisitEvaluate(e, s, e.rules[s.ruleIndex].action), more))
  {
    var action := e.rules[s.ruleIndex].action;
    EvaluateArrives(e, s, more);
    UnknownIsBefore(e, s, more, action);
  }

  lemma UnknownIsBefore(e: Env, s: State, more: LossMap, action: Action)
    requires action.EvaluateAction? && action.server !in e.transports && Steady(e, s) && s.control.Visiting?
    requires s.ruleIndex < |e.rules| && Bindable(s, e.rules[s.ruleIndex]) && LossesOk(e, more, s.ruleIndex + 1)
    requires LossyArrival(e, more, s.ruleIndex + 1) == Some(Evaluate(e, s.ruleIndex, action, Abs(e, s)))
    ensures FineSound(e, Fine(VisitEvaluate(e, s, action), more))
  {
    UnknownServerImage(e, s, action);
    NextIsSteady(e, s, VisitEvaluate(e, s, action));
  }

  /** What a route rule that matches decides, if its server is there. */
  lemma RouteStep(e: Env, i: nat, q: Memory)
    requires i < |e.rules| && !e.rules[i].disabled && e.rules[i].action.RouteAction? && Holds(e.rules[i], q)
    ensures var action := e.rules[i].action;
            StepRule(e, i, q) == match ResolveRoute(e, action.server, action.overrides, q.options) {
              case None => Proceed(q)
              case Some((transport, options)) => Decide(Exchanged(i, transport, Send(e, i, transport, options)))
            }
  {
  }

  predicate Routes(e: Env, s: State, more: LossMap) {
    && Judged(e, s, more)
    && var rule := e.rules[s.ruleIndex];
       rule.action.RouteAction? && Holds(rule, Seen(e, s, rule))
  }

  lemma RoutePasses(e: Env, s: State, more: LossMap)
    requires Routes(e, s, more)
    requires var action := e.rules[s.ruleIndex].action;
             ResolveRoute(e, action.server, action.overrides, s.options).None?
    ensures FineSound(e, Fine(Advance(s), more))
  {
    var seen := Seen(e, s, e.rules[s.ruleIndex]);
    assert seen.options == s.options && seen == seen.(options := s.options);
    RouteStep(e, s.ruleIndex, seen);
    PassLands(e, s, more, s.options);
  }

  lemma RouteExchanges(e: Env, s: State, more: LossMap, transport: Transport, options: Options)
    requires Routes(e, s, more)
    requires var action := e.rules[s.ruleIndex].action;
             ResolveRoute(e, action.server, action.overrides, s.options) == Some((transport, options))
    ensures FineSound(e, Fine(Suspend(s, Pending(Plain(s.ruleIndex, transport, options))), more))
  {
    RouteStep(e, s.ruleIndex, Seen(e, s, e.rules[s.ruleIndex]));
    ExchangeLands(e, s, more, Plain(s.ruleIndex, transport, options));
  }

  lemma RouteLands(e: Env, s: State, more: LossMap)
    requires Routes(e, s, more)
    ensures FineSound(e, Fine(VisitRoute(e, s, e.rules[s.ruleIndex].action), more))
  {
    var action := e.rules[s.ruleIndex].action;
    match ResolveRoute(e, action.server, action.overrides, s.options)
    case None => RoutePasses(e, s, more);
    case Some((transport, options)) => RouteExchanges(e, s, more, transport, options);
  }

  predicate Responds(e: Env, s: State, more: LossMap) {
    && Judged(e, s, more)
    && var rule := e.rules[s.ruleIndex];
       rule.action.RespondAction? && Holds(rule, Seen(e, s, rule))
  }

  /** What a respond rule that matches decides. */
  lemma RespondStep(e: Env, i: nat, q: Memory)
    requires i < |e.rules| && !e.rules[i].disabled && e.rules[i].action.RespondAction? && Holds(e.rules[i], q)
    ensures var tag := e.rules[i].respondTag;
            StepRule(e, i, q) == Decide(Responding(if tag != "" then Named(q, tag) else q.anonymous))
  {
  }

  lemma RespondNamedLands(e: Env, s: State, more: LossMap)
    requires WellFormed(e.rules) && Responds(e, s, more) && e.rules[s.ruleIndex].respondTag != ""
    ensures FineSound(e, Fine(Finish(s, RespondNamed(s, e.rules[s.ruleIndex].respondTag)), more))
  {
    var rule := e.rules[s.ruleIndex];
    SeenName(e, s, rule, rule.respondTag);
    RespondStep(e, s.ruleIndex, Seen(e, s, rule));
    EndLands(e, s, more, RespondNamed(s, rule.respondTag));
  }

  lemma UnlostSoFar(e: Env, more: LossMap, i: nat)
    requires LossesOk(e, more, i + 1) && LostAt(more, i) == {}
    ensures LossesOk(e, more, i)
  {
  }

  lemma RespondWaitsLands(e: Env, s: State, more: LossMap)
    requires Responds(e, s, more) && !e.rules[s.ruleIndex].HasBindings() && UnresolvedAnonymous(s) != []
    ensures FineSound(e, Fine(Suspend(s, Await(s.anonymous.value)), more))
  {
    assert Missing(s, e.rules[s.ruleIndex]) == {};
    UnlostSoFar(e, more, s.ruleIndex);
    WaitIsBefore(e, s, more, s.anonymous.value);
  }

  lemma WaitIsBefore(e: Env, s: State, more: LossMap, k: nat)
    requires Before(e, Fine(s, more)) && k < |s.futures|
    ensures FineSound(e, Fine(Suspend(s, Await(k)), more))
  {
    SteadyKept(e, s, Suspend(s, Await(k)));
  }

  lemma RespondAnonymousLands(e: Env, s: State, more: LossMap)
    requires WellFormed(e.rules) && Responds(e, s, more) && e.rules[s.ruleIndex].respondTag == ""
    requires s.anonymous.Some? ==> IsResolved(s, s.anonymous.value)
    ensures FineSound(e, Fine(Finish(s, RespondAnonymous(e, s, s.anonymous)), more))
  {
    AnonymousImage(e, s, s.anonymous);
    RespondStep(e, s.ruleIndex, Seen(e, s, e.rules[s.ruleIndex]));
    EndLands(e, s, more, RespondAnonymous(e, s, s.anonymous));
  }

  lemma RespondLands(e: Env, s: State, more: LossMap)
    requires WellFormed(e.rules) && Responds(e, s, more)
    ensures FineSound(e, Fine(VisitRespond(e, s, e.rules[s.ruleIndex]), more))
  {
    var rule := e.rules[s.ruleIndex];
    if rule.respondTag != "" {
      RespondNamedLands(e, s, more);
    } else if !rule.HasBindings() && UnresolvedAnonymous(s) != [] {
      RespondWaitsLands(e, s, more);
    } else {
      RespondAnonymousLands(e, s, more);
    }
  }

  lemma EvaluateLands(e: Env, s: State, more: LossMap)
    requires WellFormed(e.rules) && Evaluating(e, s, more)
    ensures FineSound(e, Fine(VisitEvaluate(e, s, e.rules[s.ruleIndex].action), more))
  {
    if e.rules[s.ruleIndex].action.server in e.transports {
      LaunchLands(e, s, more);
    } else {
      UnknownServerLands(e, s, more);
    }
  }

  lemma MatchedPasses(e: Env, s: State, more: LossMap)
    requires Judged(e, s, more)
    requires var rule := e.rules[s.ruleIndex];
             !Holds(rule, Seen(e, s, rule)) || rule.action.NoAction? || rule.action == RejectAction(ReplyReject)
    ensures FineSound(e, Fine(Advance(s), more))
  {
    PassLands(e, s, more, s.options);
    assert Advance(s) == s.(ruleIndex := s.ruleIndex + 1, options := s.options);
  }

  lemma MatchedSetsOptions(e: Env, s: State, more: LossMap)
    requires Judged(e, s, more)
    requires var rule := e.rules[s.ruleIndex];
             Holds(rule, Seen(e, s, rule)) && rule.action.RouteOptionsAction?
    ensures var options := Apply(s.options, e.rules[s.ruleIndex].action.overrides);
            FineSound(e, Fine(s.(ruleIndex := s.ruleIndex + 1, options := options), more))
  {
    PassLands(e, s, more, Apply(s.options, e.rules[s.ruleIndex].action.overrides));
  }

  /** The outcome of an action that ends the walk by itself. */
  function FinalOutcome(i: nat, action: Action, options: Options): Outcome
  {
    if action == RejectAction(DefaultReject) then Rejected(i)
    else if action == RejectAction(DropReject) then Dropped(i)
    else Predefined(i, options)
  }

  lemma MatchedEnds(e: Env, s: State, more: LossMap)
    requires Judged(e, s, more)
    requires var rule := e.rules[s.ruleIndex];
             && Holds(rule, Seen(e, s, rule))
             && (|| rule.action == RejectAction(DefaultReject) || rule.action == RejectAction(DropReject)
                 || rule.action.PredefinedAction?)
    ensures FineSound(e, Fine(Finish(s, FinalOutcome(s.ruleIndex, e.rules[s.ruleIndex].action, s.options)), more))
  {
    EndLands(e, s, more, FinalOutcome(s.ruleIndex, e.rules[s.ruleIndex].action, s.options));
  }

  predicate Matched(e: Env, s: State, more: LossMap) {
    && Judged(e, s, more)
    && var rule := e.rules[s.ruleIndex];
       && Holds(rule, Seen(e, s, rule))
       && Matches(rule, AnonymousView(e, s, s.anonymous), s.responses)
  }

  /** What judging comes to for the actions that need no more than the rule. */
  lemma JudgePlain(e: Env, s: State)
    requires s.ruleIndex < |e.rules| && s.armed == []
    requires Matches(e.rules[s.ruleIndex], AnonymousView(e, s, s.anonymous), s.responses)
    requires var a := e.rules[s.ruleIndex].action; !a.EvaluateAction? && !a.RespondAction? && !a.RouteAction?
    ensures var a := e.rules[s.ruleIndex].action;
            Judge(e, s) == if a.NoAction? || a == RejectAction(ReplyReject) then Advance(s)
                           else if a.RouteOptionsAction? then
                             s.(ruleIndex := s.ruleIndex + 1, options := Apply(s.options, a.overrides))
                           else Finish(s, FinalOutcome(s.ruleIndex, a, s.options))
  {
  }

  lemma JudgedPassing(e: Env, s: State, more: LossMap)
    requires Matched(e, s, more)
    requires var a := e.rules[s.ruleIndex].action; a.NoAction? || a == RejectAction(ReplyReject)
    ensures FineSound(e, Fine(Judge(e, s), more))
  {
    JudgePlain(e, s);
    MatchedPasses(e, s, more);
  }

  lemma JudgedSetting(e: Env, s: State, more: LossMap)
    requires Matched(e, s, more) && e.rules[s.ruleIndex].action.RouteOptionsAction?
    ensures FineSound(e, Fine(Judge(e, s), more))
  {
    JudgePlain(e, s);
    MatchedSetsOptions(e, s, more);
  }

  lemma JudgedEnding(e: Env, s: State, more: LossMap)
    requires Matched(e, s, more)
    requires var a := e.rules[s.ruleIndex].action;
             a == RejectAction(DefaultReject) || a == RejectAction(DropReject) || a.PredefinedAction?
    ensures FineSound(e, Fine(Judge(e, s), more))
  {
    JudgePlain(e, s);
    MatchedEnds(e, s, more);
  }

  lemma MatchedLands(e: Env, s: State, more: LossMap)
    requires WellFormed(e.rules) && Matched(e, s, more)
    ensures FineSound(e, Fine(Judge(e, s), more))
  {
    var action := e.rules[s.ruleIndex].action;
    WalkVisit.JudgeIs(e, s);
    if action.EvaluateAction? {
      EvaluateLands(e, s, more);
    } else if action.RespondAction? {
      RespondLands(e, s, more);
    } else if action.RouteAction? {
      RouteLands(e, s, more);
    } else {
      JudgedPlain(e, s, more);
    }
  }

  lemma JudgedPlain(e: Env, s: State, more: LossMap)
    requires Matched(e, s, more)
    requires var a := e.rules[s.ruleIndex].action; !a.EvaluateAction? && !a.RespondAction? && !a.RouteAction?
    ensures FineSound(e, Fine(Judge(e, s), more))
  {
    var action := e.rules[s.ruleIndex].action;
    if action.RouteOptionsAction? {
      JudgedSetting(e, s, more);
    } else if action.NoAction? || action == RejectAction(ReplyReject) {
      JudgedPassing(e, s, more);
    } else {
      assert action.PredefinedAction? || action.rejectMethod.DefaultReject? || action.rejectMethod.DropReject?;
      JudgedEnding(e, s, more);
    }
  }

  lemma JudgeLands(e: Env, s: State, more: LossMap)
    requires WellFormed(e.rules) && Judged(e, s, more)
    ensures FineSound(e, Fine(Judge(e, s), more))
  {
    var rule := e.rules[s.ruleIndex];
    MatchIsLossy(e, s, rule);
    if Holds(rule, Seen(e, s, rule)) { MatchedLands(e, s, more); } else { MatchedPasses(e, s, more); }
  }

  // ---------------------------------------------------------------------
  // The visit
  // ---------------------------------------------------------------------

  lemma ArriveSame(s: State, late: set<nat>)
    ensures SamePath(s, Arrive(s, late))
    ensures forall k :: 0 <= k < |s.futures| ==> Arrive(s, late).futures[k].settled == s.futures[k].settled
  {
  }

  lemma AtCheckSteady(e: Env, s: State, late: set<nat>)
    requires Steady(e, s)
    ensures Steady(e, AtCheck(e, s, late)) && Abs(e, AtCheck(e, s, late)) == Abs(e, s)
  {
    var u := if Reading(e, s) then Settle(e, s) else s;
    SettleExtends(e, s);
    SettleKeepsResponses(e, s);
    SteadyKept(e, s, u);
    ArriveSame(u, late);
    WalkRuns.CancelKeepsResponses(e, u, Arrive(u, late));
    SteadyKept(e, u, Arrive(u, late));
  }

  lemma {:induction false} NoneAwaited(s: State, tags: seq<string>)
    requires Unresolved(s, tags) == [] && Names(s)
    ensures forall t :: t in tags && t in s.named ==> IsResolved(s, s.named[t])
  {
    if tags != [] { NoneAwaited(s, tags[1..]); }
  }

  lemma {:induction false} SomeAwaited(s: State, tags: seq<string>)
    ensures forall k :: k in Unresolved(s, tags) ==> k < |s.futures|
  {
    if tags != [] { SomeAwaited(s, tags[1..]); }
  }

  lemma AwaitedInRange(s: State, rule: Rule)
    requires Awaited(s, rule) != []
    ensures Awaited(s, rule)[0] < |s.futures|
  {
    SomeAwaited(s, rule.tags);
    if Unresolved(s, rule.tags) != [] { assert Unresolved(s, rule.tags)[0] in Unresolved(s, rule.tags); }
  }

  lemma SettledIfResolved(e: Env, s: State, t: string)
    requires Names(s) && Responses(e, s) && t in s.named && IsResolved(s, s.named[t])
    ensures t in Settle(e, s).responses
  {
    var u := Settle(e, s);
    SettleExtends(e, s);
    SettleKeepsResponses(e, s);
    assert Kept(s.futures[s.named[t]], u.futures[s.named[t]]);
    assert u.futures[s.named[t]].settled;
  }

  /** A tag that an earlier rule read has been settled by now. */
  lemma LossesAreLosable(e: Env, s: State, late: set<nat>, t: string)
    requires WellFormed(e.rules) && Steady(e, s) && t in Losses(e, s, late)
    ensures Losable(e, s.ruleIndex, t)
  {
    assert t !in Settle(e, s).responses;
    assert !IsResolved(s, s.named[t]) by {
      if IsResolved(s, s.named[t]) { SettledIfResolved(e, s, t); }
    }
  }

  lemma RecordOk(e: Env, s: State, lost: LossMap, losses: set<string>)
    requires LossesOk(e, lost, s.ruleIndex) && (forall t :: t in losses ==> Losable(e, s.ruleIndex, t))
    ensures LossesOk(e, Record(lost, s.ruleIndex, losses), s.ruleIndex + 1)
    ensures LostAt(Record(lost, s.ruleIndex, losses), s.ruleIndex) == losses
    ensures forall j: nat :: j < s.ruleIndex ==> LostAt(lost, j) == LostAt(Record(lost, s.ruleIndex, losses), j)
  {
  }

  /** The visit, with the state in which the bound queries are looked at. */
  predicate Looking(e: Env, f: Fine, t: State) {
    && WellFormed(e.rules) && f.state.control.Visiting? && t.control.Visiting? && Before(e, f)
    && t.ruleIndex == f.state.ruleIndex && Steady(e, t) && Abs(e, t) == Abs(e, f.state)
  }

  lemma LookingBefore(e: Env, f: Fine, t: State)
    requires Looking(e, f, t)
    ensures Before(e, Fine(t, f.lost))
  {
  }

  lemma WaitLands(e: Env, f: Fine, t: State, k: nat)
    requires Looking(e, f, t) && k < |t.futures|
    ensures FineSound(e, Fine(Suspend(t, Await(k)), f.lost))
  {
    LookingBefore(e, f, t);
    WaitIsBefore(e, t, f.lost, k);
  }

  lemma PendingLands(e: Env, f: Fine, p: PendingExchange)
    requires Decided(e, f, p)
    ensures FineSound(e, Fine(Suspend(f.state, Pending(p)), f.lost))
  {
    var t := Suspend(f.state, Pending(p));
    SteadyKept(e, f.state, t);
    assert OutcomeOf(e, t, p) == OutcomeOf(e, f.state, p);
  }

  lemma LastLands(e: Env, f: Fine, t: State)
    requires Looking(e, f, t) && t.ruleIndex == |e.rules|
    ensures FineSound(e, Fine(Suspend(t, Pending(Plain(|e.rules|, e.defaultTransport, t.options))), f.lost))
  {
    var p := Plain(|e.rules|, e.defaultTransport, t.options);
    assert Fallback(e, Abs(e, t)) == OutcomeOf(e, t, p);
    LookingBefore(e, f, t);
    PendingLands(e, Fine(t, f.lost), p);
  }

  lemma DisabledStep(e: Env, i: nat, q: Memory)
    requires i < |e.rules| && e.rules[i].disabled
    ensures LossyStep(e, i, q, {}) == Proceed(q)
  {
    assert q.named - {} == q.named && q.named + q.named == q.named;
  }

  lemma DisabledLands(e: Env, f: Fine, t: State)
    requires Looking(e, f, t) && t.ruleIndex < |e.rules| && e.rules[t.ruleIndex].disabled
    ensures FineSound(e, Fine(Advance(t), f.lost))
  {
    var q := Abs(e, f.state);
    assert LostAt(f.lost, t.ruleIndex) == {};
    DisabledStep(e, t.ruleIndex, q);
    NextIsSteady(e, t, Advance(t));
    NextImage(e, t, Advance(t));
    StandsBefore(e, Advance(t), f.lost);
  }

  lemma LookingJudged(e: Env, f: Fine, t: State, more: LossMap)
    requires Looking(e, f, t) && t.ruleIndex < |e.rules| && !e.rules[t.ruleIndex].disabled
    requires Bindable(t, e.rules[t.ruleIndex])
    requires forall x :: x in Missing(t, e.rules[t.ruleIndex]) ==> Losable(e, t.ruleIndex, x)
    requires more == Record(f.lost, t.ruleIndex, Missing(t, e.rules[t.ruleIndex]))
    ensures Judged(e, t, more)
  {
    RecordOk(e, t, f.lost, Missing(t, e.rules[t.ruleIndex]));
    LossyFrame(e, f.lost, more, t.ruleIndex);
  }

  lemma ReadingWaits(e: Env, f: Fine, late: set<nat>)
    requires Raceless(e) && f.state.control.Visiting? && Reading(e, f.state)
    requires var t := AtCheck(e, f.state, late);
             Looking(e, f, t) && Awaited(t, e.rules[f.state.ruleIndex]) != []
    ensures FineSound(e, FineStep(e, f, Late(late)))
  {
    var t := AtCheck(e, f.state, late);
    var waits := Awaited(t, e.rules[f.state.ruleIndex]);
    AwaitedInRange(t, e.rules[f.state.ruleIndex]);
    WaitLands(e, f, t, waits[0]);
    assert Losses(e, f.state, late) == {};
    assert VisitLate(e, f.state, late) == Suspend(t, Await(waits[0]));
  }

  lemma ReadingJudges(e: Env, f: Fine, late: set<nat>)
    requires Raceless(e) && f.state.control.Visiting? && Reading(e, f.state)
    requires var t := AtCheck(e, f.state, late);
             Looking(e, f, t) && Awaited(t, e.rules[f.state.ruleIndex]) == []
    ensures FineSound(e, FineStep(e, f, Late(late)))
  {
    var t := AtCheck(e, f.state, late);
    var rule := e.rules[f.state.ruleIndex];
    forall x | x in Missing(t, rule) ensures Losable(e, t.ruleIndex, x) { LossesAreLosable(e, f.state, late, x); }
    NoneAwaited(t, rule.tags);
    LookingJudged(e, f, t, Record(f.lost, t.ruleIndex, Missing(t, rule)));
    JudgeLands(e, t, Record(f.lost, t.ruleIndex, Missing(t, rule)));
  }

  lemma ReadingLands(e: Env, f: Fine, late: set<nat>)
    requires WellFormed(e.rules) && Raceless(e) && f.state.control.Visiting? && Before(e, f) && Reading(e, f.state)
    ensures FineSound(e, FineStep(e, f, Late(late)))
  {
    var t := AtCheck(e, f.state, late);
    AtCheckSteady(e, f.state, late);
    assert Looking(e, f, t);
    if Awaited(t, e.rules[f.state.ruleIndex]) != [] { ReadingWaits(e, f, late); } else { ReadingJudges(e, f, late); }
  }

  lemma PlainJudges(e: Env, f: Fine, t: State)
    requires Looking(e, f, t) && t.ruleIndex < |e.rules| && !e.rules[t.ruleIndex].disabled
    requires !e.rules[t.ruleIndex].HasBindings()
    ensures FineSound(e, Fine(Judge(e, t), f.lost))
  {
    assert Missing(t, e.rules[t.ruleIndex]) == {};
    LookingJudged(e, f, t, f.lost);
    JudgeLands(e, t, f.lost);
  }

  lemma NotReadingLands(e: Env, f: Fine, late: set<nat>)
    requires WellFormed(e.rules) && Raceless(e) && f.state.control.Visiting? && Before(e, f) && !Reading(e, f.state)
    ensures FineSound(e, FineStep(e, f, Late(late)))
  {
    var t := AtCheck(e, f.state, late);
    AtCheckSteady(e, f.state, late);
    assert Looking(e, f, t);
    PlainLands(e, f, t);
    assert FineStep(e, f, Late(late)) == Fine(Visit(e, t), f.lost);
  }

  lemma PlainLands(e: Env, f: Fine, t: State)
    requires Looking(e, f, t) && !Reading(e, t)
    ensures FineSound(e, Fine(Visit(e, t), f.lost))
  {
    PlainVisit(e, t);
    if t.ruleIndex == |e.rules| {
      LastLands(e, f, t);
    } else if e.rules[t.ruleIndex].disabled {
      DisabledLands(e, f, t);
    } else {
      PlainJudges(e, f, t);
    }
  }

  /** The visit of a rule that reads no responses, or of none. */
  lemma PlainVisit(e: Env, t: State)
    requires t.control.Visiting? && t.armed == [] && t.ruleIndex <= |e.rules| && !Reading(e, t)
    ensures Visit(e, t) == if t.ruleIndex == |e.rules| then
                             Suspend(t, Pending(Plain(|e.rules|, e.defaultTransport, t.options)))
                           else if e.rules[t.ruleIndex].disabled then Advance(t)
                           else Judge(e, t)
  {
  }

  // ---------------------------------------------------------------------
  // The other steps
  // ---------------------------------------------------------------------

  /** Steps that leave the path of the walk alone. */
  lemma SuspendedKeeps(e: Env, f: Fine, t: State, x: Suspension)
    requires FineSuspended(e, f, x) && SamePath(f.state, t) && t.armed == [] && Responses(e, t)
    ensures FineSuspended(e, Fine(t, f.lost), x)
  {
    SteadyKept(e, f.state, t);
    if x.Pending? { assert OutcomeOf(e, t, x.exchange) == OutcomeOf(e, f.state, x.exchange); }
  }

  /** A sweep of no rules. */
  lemma SweepsNone(e: Env, s: State, settled: State)
    requires s.control.Sweeping? && s.armed == [] && settled == Settle(e, s).(seen := ResolvedSet(s))
    ensures SweepStep(e, s) == AfterSweep(settled, Swept([], [], None)).(control := Checking(s.control.suspension))
  {
    assert Sweep(e, settled, settled.armed) == Swept([], [], None);
  }

  lemma FineSweep(e: Env, f: Fine)
    requires FineSound(e, f) && f.state.control.Sweeping? && ArmedInRange(e, f.state)
    ensures FineSound(e, Fine(SweepStep(e, f.state), f.lost))
  {
    SweptSame(e, f.state);
    SuspendedKeeps(e, f, SweepStep(e, f.state), f.state.control.suspension);
  }

  lemma SweptSame(e: Env, s: State)
    requires s.control.Sweeping? && s.armed == [] && Names(s) && Responses(e, s)
    ensures var t := SweepStep(e, s);
            && SamePath(s, t) && t.armed == [] && Responses(e, t)
            && t.control == Checking(s.control.suspension) && t.contextDone == s.contextDone
  {
    var settled := Settle(e, s).(seen := ResolvedSet(s));
    SettleExtends(e, s);
    SettleKeepsResponses(e, s);
    SweepsNone(e, s, settled);
  }

  lemma FineBegin(e: Env, f: Fine, p: PendingExchange)
    requires Decided(e, f, p)
    ensures FineSound(e, Fine(Begin(f.state, p), f.lost))
  {
    var t := Begin(f.state, p);
    WalkRuns.CancelSame(f.state, None, Finishing(p));
    WalkRuns.CancelKeepsResponses(e, f.state, t);
    SteadyKept(e, f.state, t);
    assert OutcomeOf(e, t, p) == OutcomeOf(e, f.state, p);
  }

  lemma FineResume(e: Env, f: Fine, k: nat, c: Control)
    requires Before(e, f) && k < |f.state.futures| && (c.Visiting? || c == Blocked(Await(k)))
    ensures FineSound(e, Fine(f.state.(control := c), f.lost))
  {
    SteadyKept(e, f.state, f.state.(control := c));
  }

  lemma FineCheck(e: Env, f: Fine)
    requires FineSound(e, f) && f.state.control.Checking?
    ensures FineSound(e, Fine(CheckStep(f.state), f.lost))
  {
    match f.state.control.suspension
    case Pending(p) => FineBegin(e, f, p);
    case Await(k) => FineResume(e, f, k, if IsResolved(f.state, k) then Visiting else Blocked(Await(k)));
  }

  lemma FineEnvironment(e: Env, f: Fine, t: State)
    requires FineSound(e, f) && WalkRuns.FuturesProgress(f.state, t)
    ensures FineSound(e, Fine(t, f.lost))
  {
    var s := f.state;
    assert SamePath(s, t);
    if !s.control.Done? {
      WalkRuns.CancelKeepsResponses(e, s, t);
      SteadyKept(e, s, t);
      match s.control
      case Visiting =>
      case Sweeping(x) => SuspendedKeeps(e, f, t, x);
      case Checking(x) => SuspendedKeeps(e, f, t, x);
      case Blocked(x) => SuspendedKeeps(e, f, t, x);
      case Finishing(p) => assert OutcomeOf(e, t, p) == OutcomeOf(e, s, p);
    }
  }

  lemma FineWake(e: Env, f: Fine)
    requires FineSound(e, f) && f.state.control.Blocked?
    ensures FineSound(e, Fine(f.state.(token := false, control := Sweeping(f.state.control.suspension)), f.lost))
  {
    SuspendedKeeps(e, f, f.state.(token := false, control := Sweeping(f.state.control.suspension)),
        f.state.control.suspension);
  }

  lemma FineEnds(e: Env, f: Fine, o: Outcome)
    requires FineSound(e, f) && (f.state.control.Finishing? || f.state.control.Blocked?)
    requires || (o == ContextDone && f.state.contextDone)
             || (f.state.control.Finishing? && o == OutcomeOf(e, f.state, f.state.control.exchange))
    ensures FineSound(e, Fine(Finish(f.state, o), f.lost))
  {
  }

  lemma FineKeeps(e: Env, f: Fine, l: FineLabel)
    requires WellFormed(e.rules) && Raceless(e) && FineSound(e, f) && FineEnabled(e, f, l)
    ensures FineSound(e, FineStep(e, f, l))
  {
    match l
    case Late(late) => if Reading(e, f.state) { ReadingLands(e, f, late); } else { NotReadingLands(e, f, late); }
    case Coarse(step) => CoarseKeeps(e, f, step);
  }

  lemma FineWalk(e: Env, f: Fine)
    requires FineSound(e, f) && Enabled(e, f.state, Walk) && !f.state.control.Visiting?
    ensures FineSound(e, Fine(Step(e, f.state, Walk), f.lost))
  {
    match f.state.control
    case Sweeping(_) => FineSweep(e, f);
    case Checking(_) => FineCheck(e, f);
    case Finishing(p) => FineEnds(e, f, OutcomeOf(e, f.state, p));
  }

  lemma CoarseKeeps(e: Env, f: Fine, l: Label)
    requires FineSound(e, f) && Enabled(e, f.state, l) && !(l.Walk? && f.state.control.Visiting?)
    ensures FineSound(e, Fine(Step(e, f.state, l), f.lost))
  {
    match l
    case Walk => FineWalk(e, f);
    case Wake => FineWake(e, f);
    case Abort => FineEnds(e, f, ContextDone);
    case _ => FineOutside(e, f, l);
  }

  lemma FineOutside(e: Env, f: Fine, l: Label)
    requires FineSound(e, f) && Enabled(e, f.state, l) && (l.Resolve? || l.Signal? || l.CancelContext?)
    ensures FineSound(e, Fine(Step(e, f.state, l), f.lost))
  {
    FineEnvironment(e, f, Step(e, f.state, l));
  }

  lemma {:induction false} FineRunKeeps(e: Env, f: Fine, run: seq<FineLabel>, g: Fine)
    requires WellFormed(e.rules) && Raceless(e) && FineSound(e, f) && FineRuns(e, f, run, g)
    ensures FineSound(e, g)
    decreases |run|
  {
    if run != [] {
      FineKeeps(e, f, run[0]);
      FineRunKeeps(e, FineStep(e, f, run[0]), run[1..], g);
    }
  }
}

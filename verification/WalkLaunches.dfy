/** When a walk sends a query and when it waits: a query is sent exactly when its
    rule is judged and fires, and while a race rule is armed only if the rule is
    speculative; a race rule never makes the walk wait. */
module WalkLaunches {
  import opened Optional
  import opened QueryOptions
  import opened RuleWalk
  import opened SequentialRules
  import opened WalkInvariant
  import opened WalkVisit
  import opened WalkRuns
  import opened WalkTheorems
  import opened WalkQueries

  /** The action of the rule at hand sends a query, if the rule is judged and
      fires: an evaluate rule its own, a speculative route rule, once and only
      while a race rule is armed, its exchange ahead of time. */
  predicate ActionSends(e: Env, s: State)
    requires s.ruleIndex < |e.rules|
  {
    match e.rules[s.ruleIndex].action
    case EvaluateAction(server, _, speculative, _) => server in e.transports && (speculative || s.armed == [])
    case RouteAction(server, speculative, _) =>
      && speculative && s.armed != [] && Usable(e, server)
      && forall k :: 0 <= k < |s.futures| ==> s.futures[k].rule != s.ruleIndex
    case _ => false
  }

  /** The walk sends a query at this visit. */
  predicate Sends(e: Env, s: State) {
    && s.ruleIndex < |e.rules| && Fires(e, s.ruleIndex) && Bindable(s, e.rules[s.ruleIndex])
    && ActionSends(e, s)
  }

  /** t has the query of the rule at hand, or none, on top of those of s. */
  predicate Grows(s: State, t: State, sends: bool) {
    if sends then |t.futures| == |s.futures| + 1 && t.futures[|s.futures|].rule == s.ruleIndex
    else |t.futures| == |s.futures|
  }

  lemma EvaluateGrows(e: Env, s: State)
    requires s.ruleIndex < |e.rules| && e.rules[s.ruleIndex].action.EvaluateAction?
    ensures Grows(s, VisitEvaluate(e, s, e.rules[s.ruleIndex].action), ActionSends(e, s))
  {
  }

  lemma RouteGrows(e: Env, s: State)
    requires s.ruleIndex < |e.rules| && e.rules[s.ruleIndex].action.RouteAction? && Launches(e, s)
    ensures Grows(s, VisitRoute(e, s, e.rules[s.ruleIndex].action), ActionSends(e, s))
  {
    forall k | 0 <= k < |s.futures| && s.terminal.None? ensures s.futures[k].rule != s.ruleIndex {
      assert LaunchedBy(e, s, k);
    }
    if s.terminal.Some? {
      assert LaunchedBy(e, s, s.terminal.value);
      assert s.futures[s.terminal.value].rule == s.ruleIndex;
    }
  }

  lemma FinalGrows(s: State, o: Outcome)
    ensures Grows(s, FinishOrDrain(s, o), false) && Grows(s, Finish(s, o), false)
  {
  }

  lemma RespondGrows(e: Env, s: State, rule: Rule)
    ensures Grows(s, VisitRespond(e, s, rule), false)
  {
    FinalGrows(s, RespondNamed(s, rule.respondTag));
    FinalGrows(s, RespondAnonymous(e, s, s.anonymous));
  }

  lemma JudgeGrows(e: Env, s: State)
    requires s.ruleIndex < |e.rules| && Launches(e, s)
    ensures var rule := e.rules[s.ruleIndex];
            Grows(s, Judge(e, s), Matches(rule, AnonymousView(e, s, s.anonymous), s.responses) && ActionSends(e, s))
  {
    var rule := e.rules[s.ruleIndex];
    if Matches(rule, AnonymousView(e, s, s.anonymous), s.responses) {
      match rule.action
      case EvaluateAction(_, _, _, _) => EvaluateGrows(e, s);
      case RouteAction(_, _, _) => RouteGrows(e, s);
      case RespondAction => RespondGrows(e, s, rule);
      case PredefinedAction => FinalGrows(s, Predefined(s.ruleIndex, s.options));
      case RejectAction(DefaultReject) => FinalGrows(s, Rejected(s.ruleIndex));
      case RejectAction(DropReject) => FinalGrows(s, Dropped(s.ruleIndex));
      case RejectAction(ReplyReject) =>
      case RouteOptionsAction(_) =>
      case NoAction =>
    }
  }

  /** A rule that is judged in place and can be judged sends exactly when it
      fires and its action does. */
  lemma JudgedGrows(e: Env, s: State)
    requires Base(e, s) && s.ruleIndex < |e.rules| && Bindable(s, e.rules[s.ruleIndex])
    requires e.rules[s.ruleIndex].HasBindings() ==> AllSettled(s)
    requires !e.rules[s.ruleIndex].disabled && !e.rules[s.ruleIndex].Armable()
    ensures Grows(s, Judge(e, s), Sends(e, s))
  {
    MatchIsHolds(e, s, e.rules[s.ruleIndex]);
    JudgeGrows(e, s);
  }

  lemma RaceGrows(e: Env, s: State)
    requires s.ruleIndex < |e.rules| && ArmedInRange(e, s)
    ensures Grows(s, VisitRace(e, s), false)
  {
    var t := s.(armed := s.armed + [Arm(s, e.rules[s.ruleIndex])]);
    if Awaited(s, e.rules[s.ruleIndex]) == [] { SweepArmedGrows(e, t); }
  }

  lemma SweepArmedGrows(e: Env, s: State)
    requires ArmedInRange(e, s)
    ensures Grows(s, SweepArmed(e, s), false)
  {
  }

  /** Settling changes nothing that decides what a visit sends. */
  lemma SettleSame(e: Env, s: State)
    requires Base(e, s)
    ensures var t := Settle(e, s);
            && Base(e, t) && AllSettled(t) && Sends(e, t) == Sends(e, s)
            && (s.ruleIndex < |e.rules| ==> Bindable(t, e.rules[s.ruleIndex]) == Bindable(s, e.rules[s.ruleIndex]))
  {
    SettleKeepsBase(e, s);
    var t := Settle(e, s);
    forall k | 0 <= k < |s.futures|
      ensures t.futures[k].rule == s.futures[k].rule && IsResolved(t, k) == IsResolved(s, k) {}
  }

  lemma BoundGrows(e: Env, s: State, t: State)
    requires Base(e, s) && s.ruleIndex < |e.rules| && ArmedInRange(e, s) && t == Settle(e, s)
    requires !e.rules[s.ruleIndex].disabled && e.rules[s.ruleIndex].HasBindings() && !e.rules[s.ruleIndex].race
    ensures var rule := e.rules[s.ruleIndex];
            Grows(s, if Awaited(t, rule) != [] then Suspend(t, Await(Awaited(t, rule)[0])) else Judge(e, t),
                  Sends(e, s))
  {
    SettleSame(e, s);
    AwaitedNone(t, e.rules[s.ruleIndex]);
    if Awaited(t, e.rules[s.ruleIndex]) == [] { JudgedGrows(e, t); }
  }

  /** In any run, a visit sends a query exactly when its rule fires, the
      responses it binds are there, and its action sends one. */
  lemma SentExactlyWhen(e: Env, s: State)
    requires WellFormed(e.rules) && Reachable(e, s) && s.control.Visiting? && ArmedInRange(e, s)
    ensures Grows(s, Visit(e, s), Sends(e, s))
  {
    ReachableInvariant(e, s);
    if s.ruleIndex < |e.rules| && !e.rules[s.ruleIndex].disabled {
      var rule := e.rules[s.ruleIndex];
      if !rule.HasBindings() {
        JudgedGrows(e, s);
      } else if rule.race {
        RaceGrows(e, Settle(e, s));
      } else {
        BoundGrows(e, s, Settle(e, s));
      }
    }
  }

  /** No other step sends one. */
  lemma OnlyVisitsSend(e: Env, s: State, l: Label)
    requires Enabled(e, s, l) && !(l.Walk? && s.control.Visiting?)
    ensures |Step(e, s, l).futures| == |s.futures|
  {
    if l.Walk? && s.control.Sweeping? { SweepGrows(e, s); }
  }

  lemma SweepGrows(e: Env, s: State)
    requires s.control.Sweeping? && ArmedInRange(e, s)
    ensures |SweepStep(e, s).futures| == |s.futures|
  {
  }

  // ---------------------------------------------------------------------
  // Waiting
  // ---------------------------------------------------------------------

  /** The rule reads the response of future k. */
  predicate Binds(s: State, rule: Rule, k: nat) {
    (exists t :: t in rule.tags && t in s.named && s.named[t] == k) || (rule.anonymous && s.anonymous == Some(k))
  }

  lemma {:induction false} UnresolvedIff(s: State, tags: seq<string>)
    ensures forall k: nat :: k in Unresolved(s, tags) <==>
              k < |s.futures| && !IsResolved(s, k) && exists t :: t in tags && t in s.named && s.named[t] == k
  {
    if tags != [] {
      UnresolvedIff(s, tags[1..]);
      assert forall t :: t in tags <==> t == tags[0] || t in tags[1..];
    }
  }

  /** The futures a rule waits for are the unresolved ones it binds. */
  lemma AwaitedIff(s: State, rule: Rule)
    requires Names(s)
    ensures forall k: nat :: k in Awaited(s, rule) <==> k < |s.futures| && !IsResolved(s, k) && Binds(s, rule, k)
  {
    UnresolvedIff(s, rule.tags);
  }

  lemma AwaitedNone(s: State, rule: Rule)
    requires Names(s)
    ensures Awaited(s, rule) == [] <==> Bindable(s, rule)
  {
    UnresolvedIff(s, rule.tags);
    var waits := Awaited(s, rule);
    if waits != [] { assert waits[0] in waits; }
    forall t | t in rule.tags && t in s.named && waits == [] ensures IsResolved(s, s.named[t]) {
      assert s.named[t] !in Unresolved(s, rule.tags);
    }
  }

  /** The rule at hand reads future k, which has not resolved: it binds it, or it
      responds with the anonymous response without binding it. */
  predicate Waits(e: Env, s: State, k: nat) {
    && s.ruleIndex < |e.rules| && !e.rules[s.ruleIndex].disabled && !e.rules[s.ruleIndex].Armable()
    && k < |s.futures| && !IsResolved(s, k)
    && var rule := e.rules[s.ruleIndex];
    || Binds(s, rule, k)
    || (rule.action.RespondAction? && !rule.HasBindings() && Fires(e, s.ruleIndex) && s.armed == []
        && s.anonymous == Some(k))
  }

  /** The rule at hand fires and would end the walk, or is an evaluate rule that
      is not speculative, or no rule is left; but a race rule is armed. */
  predicate Drains(e: Env, s: State) {
    && s.armed != []
    && (s.ruleIndex < |e.rules| ==>
          && Fires(e, s.ruleIndex) && Bindable(s, e.rules[s.ruleIndex])
          && match e.rules[s.ruleIndex].action
             case EvaluateAction(server, _, speculative, _) => server in e.transports && !speculative
             case RouteAction(server, _, _) => Usable(e, server)
             case NoAction => false
             case RouteOptionsAction(_) => false
             case _ => true)
  }

  /** The control a visit ends in is as the rule says. */
  ghost predicate Turns(e: Env, s: State, c: Control) {
    && (c == Sweeping(Drain) <==> Drains(e, s))
    && (c.Sweeping? && c.suspension.Await? <==> exists k :: Waits(e, s, k))
    && (forall k :: c == Sweeping(Await(k)) ==> Waits(e, s, k))
  }

  predicate Straight(c: Control) { c.Sweeping? ==> c.suspension.Pending? }

  lemma RespondControl(e: Env, s: State, rule: Rule)
    requires s.control.Visiting?
    ensures var c := VisitRespond(e, s, rule).control;
            if s.armed != [] then c == Sweeping(Drain)
            else if rule.respondTag == "" && !rule.HasBindings() && UnresolvedAnonymous(s) != []
            then c == Sweeping(Await(s.anonymous.value))
            else Straight(c)
  {
  }

  lemma EvaluateControl(e: Env, s: State, action: Action)
    requires s.control.Visiting? && action.EvaluateAction?
    ensures var c := VisitEvaluate(e, s, action).control;
            if action.server in e.transports && !action.speculative && s.armed != [] then c == Sweeping(Drain)
            else Straight(c)
  {
  }

  lemma RouteControl(e: Env, s: State, action: Action)
    requires s.control.Visiting? && action.RouteAction?
    ensures var c := VisitRoute(e, s, action).control;
            if Usable(e, action.server) && s.armed != [] then c == Sweeping(Drain) else Straight(c)
  {
    match ResolveRoute(e, action.server, action.overrides, s.options)
    case None =>
    case Some((_, _)) => if s.armed != [] { RouteArmedControl(e, s, action); }
  }

  lemma RouteArmedControl(e: Env, s: State, action: Action)
    requires action.RouteAction? && s.armed != []
    requires ResolveRoute(e, action.server, action.overrides, s.options).Some?
    ensures VisitRoute(e, s, action).control == Sweeping(Drain)
  {
  }

  lemma FinalControl(s: State, o: Outcome)
    ensures var c := FinishOrDrain(s, o).control; if s.armed != [] then c == Sweeping(Drain) else Straight(c)
  {
  }

  lemma PlainControl(e: Env, s: State)
    requires s.control.Visiting? && s.ruleIndex < |e.rules|
    requires Matches(e.rules[s.ruleIndex], AnonymousView(e, s, s.anonymous), s.responses)
    requires var a := e.rules[s.ruleIndex].action; !a.EvaluateAction? && !a.RespondAction? && !a.RouteAction?
    ensures var c, a := Judge(e, s).control, e.rules[s.ruleIndex].action;
            if s.armed != [] && !a.NoAction? && !a.RouteOptionsAction? then c == Sweeping(Drain) else Straight(c)
  {
    match e.rules[s.ruleIndex].action
    case PredefinedAction => FinalControl(s, Predefined(s.ruleIndex, s.options));
    case RejectAction(DefaultReject) => FinalControl(s, Rejected(s.ruleIndex));
    case RejectAction(DropReject) => FinalControl(s, Dropped(s.ruleIndex));
    case RejectAction(ReplyReject) =>
    case RouteOptionsAction(_) =>
    case NoAction =>
  }

  /** Where nothing bound is unresolved, only a respond rule waits. */
  lemma NoneWaits(e: Env, s: State)
    requires Names(s) && s.ruleIndex < |e.rules| && Bindable(s, e.rules[s.ruleIndex])
    requires !Fires(e, s.ruleIndex) || !e.rules[s.ruleIndex].action.RespondAction? || s.armed != []
             || e.rules[s.ruleIndex].HasBindings() || UnresolvedAnonymous(s) == []
    ensures forall k :: !Waits(e, s, k)
  {
  }

  lemma RespondTurns(e: Env, s: State)
    requires WellFormed(e.rules) && Names(s) && s.control.Visiting? && s.ruleIndex < |e.rules|
    requires Fires(e, s.ruleIndex) && Bindable(s, e.rules[s.ruleIndex]) && e.rules[s.ruleIndex].action.RespondAction?
    ensures Turns(e, s, VisitRespond(e, s, e.rules[s.ruleIndex]).control)
  {
    var rule := e.rules[s.ruleIndex];
    RespondControl(e, s, rule);
    assert rule.respondTag != "" ==> rule.HasBindings();
    if s.armed == [] && !rule.HasBindings() && UnresolvedAnonymous(s) != [] {
      assert Waits(e, s, s.anonymous.value);
    } else {
      NoneWaits(e, s);
    }
  }

  /** The control after a match that does not respond. */
  lemma MatchedControl(e: Env, s: State)
    requires s.control.Visiting? && s.ruleIndex < |e.rules| && Fires(e, s.ruleIndex)
    requires Bindable(s, e.rules[s.ruleIndex]) && !e.rules[s.ruleIndex].action.RespondAction?
    requires Matches(e.rules[s.ruleIndex], AnonymousView(e, s, s.anonymous), s.responses)
    ensures if Drains(e, s) then Judge(e, s).control == Sweeping(Drain) else Straight(Judge(e, s).control)
  {
    var action := e.rules[s.ruleIndex].action;
    JudgeIs(e, s);
    if action.EvaluateAction? {
      EvaluateControl(e, s, action);
    } else if action.RouteAction? {
      RouteControl(e, s, action);
    } else {
      PlainControl(e, s);
    }
  }

  lemma JudgedTurns(e: Env, s: State)
    requires WellFormed(e.rules) && Base(e, s) && s.control.Visiting? && s.ruleIndex < |e.rules|
    requires Bindable(s, e.rules[s.ruleIndex]) && (e.rules[s.ruleIndex].HasBindings() ==> AllSettled(s))
    requires !e.rules[s.ruleIndex].disabled && !e.rules[s.ruleIndex].Armable()
    ensures Turns(e, s, Judge(e, s).control)
  {
    var rule := e.rules[s.ruleIndex];
    MatchIsHolds(e, s, rule);
    if Fires(e, s.ruleIndex) && rule.action.RespondAction? {
      JudgeIs(e, s);
      RespondTurns(e, s);
    } else {
      NoneWaits(e, s);
      if Fires(e, s.ruleIndex) { MatchedControl(e, s); }
    }
  }

  /** Settling changes nothing a visit waits for. */
  lemma SettleTurns(e: Env, s: State, c: Control)
    requires Base(e, s) && Turns(e, Settle(e, s), c)
    ensures Turns(e, s, c)
  {
    SettleSame(e, s);
    var t := Settle(e, s);
    forall k: nat ensures Waits(e, t, k) == Waits(e, s, k) { SettleWaits(e, s, k); }
  }

  lemma SettleWaits(e: Env, s: State, k: nat)
    ensures Waits(e, Settle(e, s), k) == Waits(e, s, k)
  {
    assert IsResolved(Settle(e, s), k) == IsResolved(s, k);
  }

  lemma BoundTurns(e: Env, t: State)
    requires WellFormed(e.rules) && Base(e, t) && AllSettled(t) && t.control.Visiting? && t.ruleIndex < |e.rules|
    requires !e.rules[t.ruleIndex].disabled && !e.rules[t.ruleIndex].race
    ensures var rule := e.rules[t.ruleIndex];
            Turns(e, t, if Awaited(t, rule) != [] then Sweeping(Await(Awaited(t, rule)[0])) else Judge(e, t).control)
  {
    var rule := e.rules[t.ruleIndex];
    AwaitedIff(t, rule);
    AwaitedNone(t, rule);
    if Awaited(t, rule) == [] {
      JudgedTurns(e, t);
    } else {
      assert Awaited(t, rule)[0] in Awaited(t, rule);
      assert Waits(e, t, Awaited(t, rule)[0]);
    }
  }

  lemma RaceTurns(e: Env, s: State)
    requires s.control.Visiting? && s.ruleIndex < |e.rules| && ArmedInRange(e, s) && e.rules[s.ruleIndex].Armable()
    ensures Turns(e, s, VisitRace(e, s).control)
  {
    var t := s.(armed := s.armed + [Arm(s, e.rules[s.ruleIndex])]);
    if Awaited(s, e.rules[s.ruleIndex]) == [] { SweepArmedTurns(e, t); }
  }

  lemma SweepArmedTurns(e: Env, s: State)
    requires s.control.Visiting? && ArmedInRange(e, s)
    ensures Straight(SweepArmed(e, s).control)
  {
    match Sweep(e, s, s.armed).commit
    case None =>
    case Some(Result(_)) =>
    case Some(Exchange(_)) =>
  }

  lemma BoundVisitTurns(e: Env, s: State)
    requires WellFormed(e.rules) && Base(e, s) && s.control.Visiting? && ArmedInRange(e, s) && s.ruleIndex < |e.rules|
    requires !e.rules[s.ruleIndex].disabled && e.rules[s.ruleIndex].HasBindings()
    ensures Turns(e, s, Visit(e, s).control)
  {
    SettleSame(e, s);
    var t := Settle(e, s);
    if e.rules[s.ruleIndex].race { RaceTurns(e, t); } else { BoundTurns(e, t); }
    SettleTurns(e, s, Visit(e, s).control);
  }

  /** In any run, a visit makes the walk wait for a response exactly when its rule
      reads one that has not resolved, and holds it back exactly when a race rule
      is armed and the walk would otherwise end or send a query that is not
      speculative. In particular race rules never make it wait. */
  lemma WaitsExactlyWhen(e: Env, s: State)
    requires WellFormed(e.rules) && Reachable(e, s) && s.control.Visiting? && ArmedInRange(e, s)
    ensures Turns(e, s, Visit(e, s).control)
  {
    ReachableInvariant(e, s);
    if s.ruleIndex < |e.rules| && !e.rules[s.ruleIndex].disabled {
      if e.rules[s.ruleIndex].HasBindings() { BoundVisitTurns(e, s); } else { JudgedTurns(e, s); }
    }
  }
}

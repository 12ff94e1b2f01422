/** Queries are accounted for: a finished walk has cancelled every query it
    launched, and never cut short the one whose response it returns. */
module WalkAccounting {
  import opened Optional
  import opened QueryOptions
  import opened RuleWalk
  import opened SequentialRules
  import opened WalkInvariant
  import opened WalkVisit
  import opened WalkRuns
  import WalkRace

  predicate Untouched(s: State) {
    forall k :: 0 <= k < |s.futures| ==> !s.futures[k].cancelled && !s.futures[k].cutShort
  }

  /** A returned response comes from a future that has resolved. */
  predicate Backed(s: State, o: Outcome) {
    o.Answered? ==> exists k :: 0 <= k < |s.futures| && IsResolved(s, k) && s.futures[k].rule == o.origin
  }

  /** A returned response comes from a future the walk did not cut short. */
  predicate Uncut(s: State, o: Outcome) {
    o.Answered? ==> exists k :: 0 <= k < |s.futures| && IsResolved(s, k) && s.futures[k].rule == o.origin
                                && !s.futures[k].cutShort
  }

  predicate Cancels(s: State) {
    match s.control
    case Finishing(p) =>
      forall k :: 0 <= k < |s.futures| ==>
        if p == Launched(k) then !s.futures[k].cancelled && !s.futures[k].cutShort else s.futures[k].cancelled
    case Done(o) => (forall k :: 0 <= k < |s.futures| ==> s.futures[k].cancelled) && Uncut(s, o)
    case _ => Untouched(s)
  }

  lemma FinishCancels(s: State, o: Outcome)
    requires Untouched(s) && Backed(s, o)
    ensures Cancels(Finish(s, o))
  {
    if o.Answered? {
      var k :| 0 <= k < |s.futures| && IsResolved(s, k) && s.futures[k].rule == o.origin;
      var t := Finish(s, o);
      assert IsResolved(t, k) && t.futures[k].rule == o.origin && !t.futures[k].cutShort;
    }
  }

  lemma NamedBacked(e: Env, s: State, tag: string)
    requires Names(s) && Responses(e, s)
    ensures Backed(s, RespondNamed(s, tag))
  {
    if RespondNamed(s, tag).Answered? { assert IsResolved(s, s.named[tag]); }
  }

  lemma AnonymousBacked(e: Env, s: State, a: Option<nat>)
    ensures Backed(s, RespondAnonymous(e, s, a))
  {
    if RespondAnonymous(e, s, a).Answered? { assert IsResolved(s, a.value); }
  }

  lemma ArmedBacked(e: Env, s: State, a: Armed)
    requires a.ruleIndex < |e.rules| && Names(s) && Responses(e, s)
    ensures var c := JudgeArmed(e, s, a); c.Some? && c.value.Result? ==> Backed(s, c.value.outcome)
  {
    NamedBacked(e, s, e.rules[a.ruleIndex].respondTag);
    AnonymousBacked(e, s, a.anonymous);
    AnonymousBacked(e, s, s.anonymous);
  }

  lemma SweepBacked(e: Env, s: State)
    requires InRange(e, s.armed) && Names(s) && Responses(e, s)
    ensures var c := Sweep(e, s, s.armed).commit; c.Some? && c.value.Result? ==> Backed(s, c.value.outcome)
  {
    SweepCommitsFirst(e, s, s.armed);
    if Sweep(e, s, s.armed).commit.Some? {
      var i: nat :| FirstEffective(e, s, s.armed, i);
      ArmedBacked(e, s, s.armed[i]);
    }
  }

  lemma QuietCancels(s: State, t: State)
    requires Untouched(s) && t.futures == s.futures && !t.control.Finishing? && !t.control.Done?
    ensures Cancels(t)
  {
  }

  lemma LaunchCancels(s: State, t: State, f: Future)
    requires Untouched(s) && t.futures == s.futures + [f] && !f.cancelled && !f.cutShort
    requires !t.control.Finishing? && !t.control.Done?
    ensures Cancels(t)
  {
  }

  lemma EvaluateCancels(e: Env, s: State, action: Action)
    requires s.control.Visiting? && action.EvaluateAction? && Untouched(s)
    ensures Cancels(VisitEvaluate(e, s, action))
  {
    var t := VisitEvaluate(e, s, action);
    if action.server !in e.transports || (!action.speculative && s.armed != []) {
      QuietCancels(s, t);
    } else {
      LaunchCancels(s, t, Future(s.ruleIndex, action.tag, false, e.transports[action.server],
                                 Apply(s.options, action.overrides), Running, false, false, false));
    }
  }

  lemma RouteCancels(e: Env, s: State, action: Action)
    requires s.control.Visiting? && action.RouteAction? && Untouched(s)
    ensures Cancels(VisitRoute(e, s, action))
  {
    var t := VisitRoute(e, s, action);
    match ResolveRoute(e, action.server, action.overrides, s.options)
    case None => QuietCancels(s, t);
    case Some((transport, options)) =>
      if s.armed != [] && action.speculative && s.terminal.None? {
        LaunchCancels(s, t, Future(s.ruleIndex, "", true, transport, options, Running, false, false, false));
      } else {
        QuietCancels(s, t);
      }
  }

  lemma FinalCancels(s: State, o: Outcome)
    requires s.control.Visiting? && Untouched(s) && !o.Answered?
    ensures Cancels(FinishOrDrain(s, o))
  {
    if s.armed != [] { QuietCancels(s, Suspend(s, Drain)); } else { FinishCancels(s, o); }
  }

  lemma RespondCancels(e: Env, s: State, rule: Rule)
    requires s.control.Visiting? && Names(s) && Responses(e, s) && Untouched(s)
    ensures Cancels(VisitRespond(e, s, rule))
  {
    if s.armed != [] {
      QuietCancels(s, Suspend(s, Drain));
    } else if rule.respondTag != "" {
      NamedBacked(e, s, rule.respondTag);
      FinishCancels(s, RespondNamed(s, rule.respondTag));
    } else if !rule.HasBindings() && UnresolvedAnonymous(s) != [] {
      QuietCancels(s, Suspend(s, Await(s.anonymous.value)));
    } else {
      AnonymousBacked(e, s, s.anonymous);
      FinishCancels(s, RespondAnonymous(e, s, s.anonymous));
    }
  }

  lemma JudgeCancels(e: Env, s: State)
    requires s.control.Visiting? && s.ruleIndex < |e.rules| && Names(s) && Responses(e, s) && Untouched(s)
    ensures Cancels(Judge(e, s))
  {
    var rule := e.rules[s.ruleIndex];
    if !Matches(rule, AnonymousView(e, s, s.anonymous), s.responses) {
      QuietCancels(s, Advance(s));
    } else {
      JudgeIs(e, s);
      if rule.action.EvaluateAction? {
        EvaluateCancels(e, s, rule.action);
      } else if rule.action.RespondAction? {
        RespondCancels(e, s, rule);
      } else if rule.action.RouteAction? {
        RouteCancels(e, s, rule.action);
      } else {
        JudgeFinalCancels(e, s);
      }
    }
  }

  lemma JudgeFinalCancels(e: Env, s: State)
    requires s.control.Visiting? && s.ruleIndex < |e.rules| && Untouched(s)
    requires Matches(e.rules[s.ruleIndex], AnonymousView(e, s, s.anonymous), s.responses)
    requires var a := e.rules[s.ruleIndex].action; !a.EvaluateAction? && !a.RespondAction? && !a.RouteAction?
    ensures Cancels(Judge(e, s))
  {
    var i := s.ruleIndex;
    match e.rules[i].action
    case NoAction => QuietCancels(s, Judge(e, s));
    case RouteOptionsAction(_) => QuietCancels(s, Judge(e, s));
    case RejectAction(DefaultReject) => FinalCancels(s, Rejected(i));
    case RejectAction(DropReject) => FinalCancels(s, Dropped(i));
    case RejectAction(ReplyReject) => QuietCancels(s, Judge(e, s));
    case PredefinedAction => FinalCancels(s, Predefined(i, s.options));
  }

  lemma SweepArmedCancels(e: Env, t: State)
    requires t.control.Visiting? && Names(t) && Responses(e, t) && Untouched(t) && ArmedInRange(e, t)
    ensures Cancels(SweepArmed(e, t))
  {
    var r := Sweep(e, t, t.armed);
    SweepBacked(e, t);
    match r.commit
    case None => QuietCancels(t, SweepArmed(e, t));
    case Some(Result(o)) => FinishCancels(AfterSweep(t, r), o);
    case Some(Exchange(p)) => QuietCancels(t, SweepArmed(e, t));
  }

  lemma RaceCancels(e: Env, s: State)
    requires s.control.Visiting? && s.ruleIndex < |e.rules| && Names(s) && Responses(e, s) && Untouched(s)
    requires ArmedInRange(e, s)
    ensures Cancels(VisitRace(e, s))
  {
    var t := s.(armed := s.armed + [Arm(s, e.rules[s.ruleIndex])]);
    if Awaited(s, e.rules[s.ruleIndex]) != [] { QuietCancels(s, Advance(t)); } else { SweepArmedCancels(e, t); }
  }

  lemma SettleUntouched(e: Env, s: State)
    requires Untouched(s)
    ensures Untouched(Settle(e, s))
  {
  }

  lemma VisitCancels(e: Env, s: State)
    requires Base(e, s) && s.control.Visiting? && Untouched(s) && ArmedInRange(e, s)
    ensures Cancels(Visit(e, s))
  {
    if s.ruleIndex >= |e.rules| || e.rules[s.ruleIndex].disabled {
      QuietCancels(s, Visit(e, s));
    } else if !e.rules[s.ruleIndex].HasBindings() {
      JudgeCancels(e, s);
    } else {
      BoundVisitCancels(e, s, Settle(e, s));
    }
  }

  lemma BoundVisitCancels(e: Env, s: State, t: State)
    requires Base(e, s) && s.control.Visiting? && Untouched(s) && ArmedInRange(e, s) && s.ruleIndex < |e.rules|
    requires !e.rules[s.ruleIndex].disabled && e.rules[s.ruleIndex].HasBindings() && t == Settle(e, s)
    ensures Cancels(Visit(e, s))
  {
    SettleKeepsBase(e, s);
    SettleUntouched(e, s);
    var rule := e.rules[s.ruleIndex];
    if rule.race {
      RaceCancels(e, t);
    } else if Awaited(t, rule) != [] {
      QuietCancels(t, Suspend(t, Await(Awaited(t, rule)[0])));
    } else {
      JudgeCancels(e, t);
    }
  }

  lemma BeginCancels(s: State, p: PendingExchange)
    requires Untouched(s)
    ensures Cancels(Begin(s, p))
  {
  }

  lemma SweepStepCancels(e: Env, s: State)
    requires Base(e, s) && s.control.Sweeping? && Untouched(s) && ArmedInRange(e, s)
    ensures Cancels(SweepStep(e, s))
  {
    SettleKeepsBase(e, s);
    SettleUntouched(e, s);
    var settled := Settle(e, s).(seen := ResolvedSet(s));
    var r := Sweep(e, settled, settled.armed);
    SweepBacked(e, settled);
    match r.commit
    case None => QuietCancels(settled, SweepStep(e, s));
    case Some(Result(o)) => FinishCancels(AfterSweep(settled, r), o);
    case Some(Exchange(p)) => BeginCancels(AfterSweep(settled, r), p);
  }

  lemma CheckStepCancels(s: State)
    requires s.control.Checking? && Untouched(s)
    ensures Cancels(CheckStep(s))
  {
    match s.control.suspension
    case Pending(p) => BeginCancels(s, p);
    case Await(_) => QuietCancels(s, CheckStep(s));
    case Drain => QuietCancels(s, CheckStep(s));
  }

  /** The walk finishes with an exchange: what it kept is cancelled only now. */
  lemma LastCancels(s: State, o: Outcome)
    requires Cancels(s) && (s.control.Finishing? || s.control.Blocked?) && !o.Answered?
    ensures Cancels(Finish(s, o))
  {
  }

  lemma PhaseKeepsCancels(s: State, t: State)
    requires Cancels(s) && FuturesProgress(s, t)
    ensures Cancels(t)
  {
    if s.control.Done? && s.control.outcome.Answered? {
      var o := s.control.outcome;
      var k :| 0 <= k < |s.futures| && IsResolved(s, k) && s.futures[k].rule == o.origin && !s.futures[k].cutShort;
      assert IsResolved(t, k) && t.futures[k].rule == o.origin && !t.futures[k].cutShort;
    }
  }

  lemma WalkCancels(e: Env, s: State)
    requires WellFormed(e.rules) && Sound(e, s) && Cancels(s) && Enabled(e, s, Walk)
    ensures Cancels(Step(e, s, Walk))
  {
    match s.control
    case Visiting => VisitCancels(e, s);
    case Sweeping(x) => SuspendedBase(e, s, x); SweepStepCancels(e, s);
    case Checking(_) => CheckStepCancels(s);
    case Finishing(p) => LastCancels(s, OutcomeOf(e, s, p));
  }

  lemma StepCancels(e: Env, s: State, l: Label)
    requires WellFormed(e.rules) && Sound(e, s) && Cancels(s) && Enabled(e, s, l)
    ensures Cancels(Step(e, s, l))
  {
    if Outside(l) {
      OutsideProgress(e, s, l);
      PhaseKeepsCancels(s, Step(e, s, l));
    } else if l.Walk? {
      WalkCancels(e, s);
    } else if l.Wake? {
      QuietCancels(s, Step(e, s, l));
    } else {
      LastCancels(s, ContextDone);
    }
  }
}

/** The exchange sent ahead of time: when a walk ends with it, it had resolved
    and was not cut short. */
module WalkAhead {
  import opened Optional
  import opened QueryOptions
  import opened RuleWalk
  import opened SequentialRules
  import opened WalkInvariant
  import opened WalkVisit
  import opened WalkRuns
  import WalkAccounting

  /** An exchange still to be sent is not the one sent ahead. */
  predicate Elsewhere(s: State, p: PendingExchange) { p.Plain? && s.terminal.Some? ==> p.rule != s.terminalIndex }

  /** An exchange of the rule that sent one ahead is that one, and it was left
      alone until it resolved. */
  predicate Spoken(s: State, o: Outcome) {
    o.Exchanged? && s.terminal.Some? && o.rule == s.terminalIndex ==>
      IsResolved(s, s.terminal.value) && !s.futures[s.terminal.value].cutShort
  }

  predicate Ahead(s: State) {
    match s.control
    case Sweeping(Pending(p)) => Elsewhere(s, p)
    case Checking(Pending(p)) => Elsewhere(s, p)
    case Finishing(p) => Elsewhere(s, p)
    case Done(o) => Spoken(s, o)
    case _ => true
  }

  /** No exchange is in sight, and the walk has not ended with one. */
  predicate Calmly(t: State) {
    match t.control
    case Visiting => true
    case Sweeping(x) => !x.Pending?
    case Done(o) => !o.Exchanged?
    case _ => false
  }

  // ---------------------------------------------------------------------
  // Visits
  // ---------------------------------------------------------------------

  lemma RouteAhead(e: Env, s: State, action: Action)
    requires s.control.Visiting? && action.RouteAction?
    ensures Ahead(VisitRoute(e, s, action))
  {
  }

  lemma EvaluateCalm(e: Env, s: State, action: Action)
    requires s.control.Visiting? && action.EvaluateAction?
    ensures Calmly(VisitEvaluate(e, s, action))
  {
  }

  lemma RespondCalm(e: Env, s: State, rule: Rule)
    requires s.control.Visiting?
    ensures Calmly(VisitRespond(e, s, rule))
  {
  }

  lemma FinalCalm(s: State, o: Outcome)
    requires !o.Exchanged?
    ensures Calmly(FinishOrDrain(s, o))
  {
  }

  lemma JudgeAhead(e: Env, s: State)
    requires s.control.Visiting? && s.ruleIndex < |e.rules|
    ensures Ahead(Judge(e, s))
  {
    var rule := e.rules[s.ruleIndex];
    if Matches(rule, AnonymousView(e, s, s.anonymous), s.responses) {
      if rule.action.EvaluateAction? {
        EvaluateCalm(e, s, rule.action);
      } else if rule.action.RouteAction? {
        RouteAhead(e, s, rule.action);
      } else if rule.action.RespondAction? {
        RespondCalm(e, s, rule);
      } else {
        JudgeFinalCalm(e, s);
      }
    }
  }

  lemma JudgeFinalCalm(e: Env, s: State)
    requires s.control.Visiting? && s.ruleIndex < |e.rules|
    requires Matches(e.rules[s.ruleIndex], AnonymousView(e, s, s.anonymous), s.responses)
    requires var a := e.rules[s.ruleIndex].action; !a.EvaluateAction? && !a.RouteAction? && !a.RespondAction?
    ensures Calmly(Judge(e, s))
  {
    match e.rules[s.ruleIndex].action
    case RejectAction(DefaultReject) => FinalCalm(s, Rejected(s.ruleIndex));
    case RejectAction(DropReject) => FinalCalm(s, Dropped(s.ruleIndex));
    case RejectAction(ReplyReject) =>
    case PredefinedAction => FinalCalm(s, Predefined(s.ruleIndex, s.options));
    case RouteOptionsAction(_) =>
    case NoAction =>
  }

  /** The rule that sent an exchange ahead is the one the walk is at. */
  lemma SentHere(e: Env, s: State)
    requires Launches(e, s) && s.terminal.Some?
    ensures s.terminalIndex == s.ruleIndex < |e.rules| && !e.rules[s.ruleIndex].Armable()
    ensures s.terminal.value < |s.futures| && s.futures[s.terminal.value].rule == s.terminalIndex
  {
    assert LaunchedBy(e, s, s.terminal.value);
  }

  /** What an armed rule commits: an exchange of its own, or no exchange. */
  lemma SweepOwn(e: Env, s: State, armed: seq<Armed>)
    requires InRange(e, armed)
    ensures match Sweep(e, s, armed).commit
            case None => true
            case Some(Result(o)) => !o.Exchanged?
            case Some(Exchange(p)) => p.Plain? && p.rule in Indices(armed)
  {
    SweepCommitsFirst(e, s, armed);
    InIndices(armed);
    if Sweep(e, s, armed).commit.Some? {
      var i: nat :| FirstEffective(e, s, armed, i);
      ArmedOwn(e, s, armed[i]);
    }
  }

  lemma ArmedOwn(e: Env, s: State, a: Armed)
    requires a.ruleIndex < |e.rules|
    ensures match JudgeArmed(e, s, a)
            case None => true
            case Some(Result(o)) => !o.Exchanged?
            case Some(Exchange(p)) => p.Plain? && p.rule == a.ruleIndex
  {
  }

  lemma RaceAhead(e: Env, s: State)
    requires s.control.Visiting? && s.ruleIndex < |e.rules| && ArmedInRange(e, s) && s.terminal.None?
    ensures Ahead(VisitRace(e, s))
  {
    var t := s.(armed := s.armed + [Arm(s, e.rules[s.ruleIndex])]);
    if Awaited(s, e.rules[s.ruleIndex]) == [] { SweepOwn(e, t, t.armed); }
  }

  lemma VisitAhead(e: Env, s: State)
    requires Launches(e, s) && s.control.Visiting? && ArmedInRange(e, s)
    ensures Ahead(Visit(e, s))
  {
    if s.terminal.Some? { SentHere(e, s); }
    if s.ruleIndex < |e.rules| {
      var rule := e.rules[s.ruleIndex];
      if !rule.HasBindings() {
        JudgeAhead(e, s);
      } else if rule.race {
        if !rule.disabled { RaceAhead(e, Settle(e, s)); }
      } else {
        JudgeAhead(e, Settle(e, s));
      }
    }
  }

  // ---------------------------------------------------------------------
  // The resume loop and the environment
  // ---------------------------------------------------------------------

  lemma SweepAhead(e: Env, s: State)
    requires Sound(e, s) && s.control.Sweeping? && Ahead(s) && ArmedInRange(e, s)
    ensures Ahead(SweepStep(e, s))
  {
    var x := s.control.suspension;
    SuspendedBase(e, s, x);
    var settled := Settle(e, s).(seen := ResolvedSet(s));
    SweepOwn(e, settled, settled.armed);
    if s.terminal.Some? { SentHere(e, s); }
    if x.Pending? { assert settled.armed == []; }
  }

  lemma CheckAhead(s: State)
    requires s.control.Checking? && Ahead(s)
    ensures Ahead(CheckStep(s))
  {
  }

  lemma FinishAhead(e: Env, s: State, p: PendingExchange)
    requires Sound(e, s) && s.control == Finishing(p) && Ahead(s) && WalkAccounting.Cancels(s)
    requires p.Launched? ==> IsResolved(s, p.future)
    ensures Ahead(Finish(s, OutcomeOf(e, s, p)))
  {
    if s.terminal.Some? { SentHere(e, s); }
  }

  lemma ProgressAhead(s: State, t: State)
    requires Ahead(s) && FuturesProgress(s, t)
    ensures Ahead(t)
  {
  }

  lemma StepAhead(e: Env, s: State, l: Label)
    requires Sound(e, s) && Ahead(s) && WalkAccounting.Cancels(s) && Enabled(e, s, l)
    ensures Ahead(Step(e, s, l))
  {
    if Outside(l) {
      OutsideProgress(e, s, l);
      ProgressAhead(s, Step(e, s, l));
    } else if l.Walk? {
      WalkStepAhead(e, s);
    }
  }

  lemma WalkStepAhead(e: Env, s: State)
    requires Sound(e, s) && Ahead(s) && WalkAccounting.Cancels(s) && Enabled(e, s, Walk)
    ensures Ahead(Step(e, s, Walk))
  {
    match s.control
    case Visiting => VisitAhead(e, s);
    case Sweeping(x) => SweepAhead(e, s);
    case Checking(_) => CheckAhead(s);
    case Finishing(p) => FinishAhead(e, s, p);
  }
}

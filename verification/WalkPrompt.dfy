/** Walks whose queries are answered at once: one of the outcomes a list with
    race rules can have, and the one it has when no server is slow. */
module WalkPrompt {
  import opened Optional
  import opened QueryOptions
  import opened RuleWalk
  import opened SequentialRules
  import opened WalkInvariant
  import opened WalkVisit
  import opened WalkRuns
  import opened WalkLiveness
  import WalkRace
  import WalkTheorems

  /** The effect of the first race rule that has one, or, when none has, the
      outcome of the list without its race rules. */
  ghost predicate FirstEffect(e: Env, o: Outcome) {
    || (exists r: nat :: EffectiveFirst(e, r) && Contention(e, r) == Some(o))
    || ((forall r: nat :: Contends(e, r) ==> Contention(e, r) == None) && o == Reference(Calm(e)))
  }

  ghost predicate EffectiveFirst(e: Env, r: nat) {
    && Contends(e, r) && Contention(e, r).Some?
    && forall q: nat :: q < r && Contends(e, q) ==> Contention(e, q) == None
  }

  /** There is one such outcome. */
  lemma FirstEffectIsUnique(e: Env, o: Outcome, p: Outcome)
    requires FirstEffect(e, o) && FirstEffect(e, p)
    ensures o == p
  {
    if r: nat :| EffectiveFirst(e, r) && Contention(e, r) == Some(o) {
      if q: nat :| EffectiveFirst(e, q) && Contention(e, q) == Some(p) {
        assert q < r || r < q || q == r;
      }
    }
  }

  /** Every query launched so far has its answer. */
  predicate Answered(s: State) { forall k :: 0 <= k < |s.futures| ==> !s.futures[k].phase.Running? }

  /** A run in which no rule is visited while a query is unanswered. */
  predicate PromptRuns(e: Env, s: State, run: seq<Label>, t: State)
    decreases |run|
  {
    if run == [] then s == t
    else
      && Enabled(e, s, run[0]) && (run[0].Walk? && s.control.Visiting? ==> Answered(s))
      && PromptRuns(e, Step(e, s, run[0]), run[1..], t)
  }

  lemma {:induction false} PromptRunsRun(e: Env, s: State, run: seq<Label>, t: State)
    requires PromptRuns(e, s, run, t)
    ensures Runs(e, s, run, t)
    decreases |run|
  {
    if run != [] { PromptRunsRun(e, Step(e, s, run[0]), run[1..], t); }
  }

  // ---------------------------------------------------------------------
  // Judging without waiting
  // ---------------------------------------------------------------------

  /** The walk goes on, has ended, or is about to end with an exchange, and no
      race rule is armed. */
  predicate Straight(t: State) {
    && t.armed == [] && t.terminal.None?
    && match t.control
       case Visiting => true
       case Sweeping(Pending(p)) => p.Plain?
       case Done(_) => true
       case _ => false
  }

  /** A rule is about to be visited, and there is nothing to wait for. */
  predicate Poised(s: State) { s.control.Visiting? && s.armed == [] && s.terminal.None? && Answered(s) }

  lemma EvaluateStraight(e: Env, s: State, action: Action)
    requires Poised(s) && action.EvaluateAction?
    ensures Straight(VisitEvaluate(e, s, action)) && VisitEvaluate(e, s, action).control.Visiting?
  {
  }

  lemma RouteStraight(e: Env, s: State, action: Action)
    requires Poised(s) && action.RouteAction?
    ensures Straight(VisitRoute(e, s, action))
    ensures ResolveRoute(e, action.server, action.overrides, s.options).None? ==>
              VisitRoute(e, s, action).control.Visiting?
  {
  }

  lemma RespondStraight(e: Env, s: State, rule: Rule)
    requires Poised(s)
    ensures Straight(VisitRespond(e, s, rule))
  {
  }

  lemma FinalStraight(s: State, o: Outcome)
    requires Poised(s)
    ensures Straight(FinishOrDrain(s, o))
  {
  }

  /** Where the sequential reading goes on, so does the walk. */
  lemma JudgeStraight(e: Env, s: State, q: Memory)
    requires Poised(s) && s.ruleIndex < |e.rules| && !e.rules[s.ruleIndex].disabled && q.options == s.options
    requires Matches(e.rules[s.ruleIndex], AnonymousView(e, s, s.anonymous), s.responses)
          == Holds(e.rules[s.ruleIndex], q)
    ensures Straight(Judge(e, s))
    ensures StepRule(e, s.ruleIndex, q).Proceed? ==> Judge(e, s).control.Visiting?
  {
    var rule := e.rules[s.ruleIndex];
    if Holds(rule, q) {
      JudgeIs(e, s);
      if rule.action.EvaluateAction? {
        EvaluateStraight(e, s, rule.action);
      } else if rule.action.RouteAction? {
        RouteStraight(e, s, rule.action);
      } else if rule.action.RespondAction? {
        RespondStraight(e, s, rule);
      } else {
        JudgeFinalStraight(e, s, q);
      }
    }
  }

  lemma JudgeFinalStraight(e: Env, s: State, q: Memory)
    requires Poised(s) && s.ruleIndex < |e.rules| && !e.rules[s.ruleIndex].disabled && Holds(e.rules[s.ruleIndex], q)
    requires Matches(e.rules[s.ruleIndex], AnonymousView(e, s, s.anonymous), s.responses)
    requires var a := e.rules[s.ruleIndex].action; !a.EvaluateAction? && !a.RouteAction? && !a.RespondAction?
    ensures Straight(Judge(e, s))
    ensures StepRule(e, s.ruleIndex, q).Proceed? ==> Judge(e, s).control.Visiting?
  {
    var i := s.ruleIndex;
    match e.rules[i].action
    case NoAction =>
    case RouteOptionsAction(_) =>
    case RejectAction(DefaultReject) => FinalStraight(s, Rejected(i));
    case RejectAction(DropReject) => FinalStraight(s, Dropped(i));
    case RejectAction(ReplyReject) =>
    case PredefinedAction => FinalStraight(s, Predefined(i, s.options));
  }

  lemma {:induction false} NothingUnresolved(s: State, tags: seq<string>)
    requires Answered(s)
    ensures Unresolved(s, tags) == []
  {
    if tags != [] { NothingUnresolved(s, tags[1..]); }
  }

  lemma NothingAwaited(s: State, rule: Rule)
    requires Answered(s) && Names(s)
    ensures Awaited(s, rule) == [] && Bindable(s, rule)
  {
    NothingUnresolved(s, rule.tags);
  }

  lemma SettleReady(e: Env, s: State)
    requires Poised(s)
    ensures Poised(Settle(e, s)) && Settle(e, s).ruleIndex == s.ruleIndex
  {
  }

  // ---------------------------------------------------------------------
  // Visits of rules that do not race
  // ---------------------------------------------------------------------

  /** The visit of a rule that does not race goes on where the sequential
      reading does. */
  lemma PlainVisitStraight(e: Env, s: State)
    requires Base(e, s) && Poised(s) && s.ruleIndex < |e.rules| && !e.rules[s.ruleIndex].Armable()
    ensures Straight(Visit(e, s))
    ensures StepRule(e, s.ruleIndex, Abs(e, s)).Proceed? ==> Visit(e, s).control.Visiting?
  {
    var rule := e.rules[s.ruleIndex];
    if !rule.disabled {
      if rule.HasBindings() {
        BoundVisitStraight(e, s, Settle(e, s));
      } else {
        MatchIsHolds(e, s, rule);
        JudgeStraight(e, s, Abs(e, s));
      }
    }
  }

  lemma BoundVisitStraight(e: Env, s: State, t: State)
    requires Base(e, s) && Poised(s) && s.ruleIndex < |e.rules| && t == Settle(e, s)
    requires var rule := e.rules[s.ruleIndex]; !rule.disabled && rule.HasBindings() && !rule.race
    ensures Straight(Visit(e, s))
    ensures StepRule(e, s.ruleIndex, Abs(e, s)).Proceed? ==> Visit(e, s).control.Visiting?
  {
    SettleKeepsBase(e, s);
    SettleReady(e, s);
    NothingAwaited(t, e.rules[s.ruleIndex]);
    MatchIsHolds(e, t, e.rules[s.ruleIndex]);
    JudgeStraight(e, t, Abs(e, t));
  }

  /** Where the list without its race rules decides, no race rule is left that
      has an effect. */
  lemma NoEffectLeft(e: Env, s: State, r: nat)
    requires OnPath(e, s) && s.armed == [] && RacesAccounted(e, s, s.ruleIndex) && Contends(e, r)
    requires s.ruleIndex < |e.rules| ==>
               !e.rules[s.ruleIndex].Armable() && StepRule(e, s.ruleIndex, Abs(e, s)).Decide?
    ensures Contention(e, r) == None
  {
    var i := s.ruleIndex;
    if r > i {
      CalmStep(e, i, Abs(e, s));
      NextArrival(e, i, Abs(e, s));
      ArrivalEarlier(Calm(e), i + 1, r);
    }
  }

  /** A decision at a rule that does not race, or after the last rule, is that
      of the list without its race rules. */
  lemma PlainDecision(e: Env, s: State, o: Outcome)
    requires OnPath(e, s) && s.armed == [] && RacesAccounted(e, s, s.ruleIndex) && Characterised(e, o)
    requires s.ruleIndex < |e.rules| ==>
               !e.rules[s.ruleIndex].Armable() && StepRule(e, s.ruleIndex, Abs(e, s)).Decide?
    ensures FirstEffect(e, o)
  {
    forall r: nat | Contends(e, r) ensures Contention(e, r) == None { NoEffectLeft(e, s, r); }
  }

  // ---------------------------------------------------------------------
  // Visits of race rules
  // ---------------------------------------------------------------------

  /** The sweep of one rule that is ready. */
  lemma SweepOne(e: Env, t: State, a: Armed)
    requires t.armed == [a] && a.ruleIndex < |e.rules| && RuleWalk.Ready(t, a)
    ensures Sweep(e, t, t.armed) == Swept([], [a.ruleIndex], JudgeArmed(e, t, a))
  {
    assert t.armed[1..] == [];
  }

  /** A race rule is judged on the spot and its effect, if any, ends the walk. */
  lemma RaceJudged(e: Env, s: State, t: State, a: Armed)
    requires WellFormed(e.rules) && Open(e, s) && AllSettled(s) && Poised(s) && s.ruleIndex < |e.rules|
    requires e.rules[s.ruleIndex].Armable() && !e.rules[s.ruleIndex].disabled
    requires a == Arm(s, e.rules[s.ruleIndex]) && t == s.(armed := [a])
    ensures RuleWalk.Ready(t, a) && Contends(e, s.ruleIndex)
    ensures Effects(e, t, JudgeArmed(e, t, a), Contention(e, s.ruleIndex))
  {
    NothingAwaited(s, e.rules[s.ruleIndex]);
    assert s.armed + [a] == [a];
    WalkRace.ArmHeld(e, s, t);
    WalkRace.SettledSame(e, s, t);
    assert t.armed[0] == a;
    JudgeIsEffect(e, t, a);
  }

  /** What a visit leads to: on to the next rule, or to this outcome. */
  ghost predicate LeadsTo(e: Env, t: State, effect: Option<Outcome>) {
    && Straight(t)
    && match effect
       case None => t.control.Visiting?
       case Some(o) =>
         || t.control == Done(o)
         || (t.control.Sweeping? && OutcomeOf(e, t, t.control.suspension.exchange) == o)
  }

  lemma RaceLeads(e: Env, s: State)
    requires WellFormed(e.rules) && Open(e, s) && AllSettled(s) && Poised(s) && s.ruleIndex < |e.rules|
    requires e.rules[s.ruleIndex].Armable() && !e.rules[s.ruleIndex].disabled
    ensures Contends(e, s.ruleIndex) && LeadsTo(e, VisitRace(e, s), Contention(e, s.ruleIndex))
  {
    var a := Arm(s, e.rules[s.ruleIndex]);
    var t := s.(armed := [a]);
    assert s.armed + [a] == [a];
    NothingAwaited(s, e.rules[s.ruleIndex]);
    RaceJudged(e, s, t, a);
    SweepOne(e, t, a);
  }

  lemma RaceVisitLeads(e: Env, s: State)
    requires WellFormed(e.rules) && Open(e, s) && Poised(s) && s.ruleIndex < |e.rules|
    requires e.rules[s.ruleIndex].Armable() && !e.rules[s.ruleIndex].disabled
    ensures Contends(e, s.ruleIndex) && LeadsTo(e, Visit(e, s), Contention(e, s.ruleIndex))
  {
    SettleKeepsOpen(e, s);
    SettleReady(e, s);
    RaceLeads(e, Settle(e, s));
  }

  // ---------------------------------------------------------------------
  // Every step
  // ---------------------------------------------------------------------

  /** A prompt walk never has to wait and is on its way to the first effect. */
  ghost predicate OnTime(e: Env, s: State) {
    && s.armed == [] && s.terminal.None?
    && match s.control
       case Visiting => true
       case Sweeping(Pending(p)) => p.Plain? && FirstEffect(e, OutcomeOf(e, s, p))
       case Checking(Pending(p)) => p.Plain? && FirstEffect(e, OutcomeOf(e, s, p))
       case Finishing(p) => p.Plain? && FirstEffect(e, OutcomeOf(e, s, p))
       case Done(o) => FirstEffect(e, o)
       case _ => false
  }

  lemma StraightOnTime(e: Env, t: State)
    requires Straight(t)
    requires t.control.Done? ==> FirstEffect(e, t.control.outcome)
    requires t.control.Sweeping? ==> FirstEffect(e, OutcomeOf(e, t, t.control.suspension.exchange))
    ensures OnTime(e, t)
  {
  }

  lemma RaceOnTime(e: Env, s: State)
    requires WellFormed(e.rules) && Open(e, s) && Poised(s) && s.ruleIndex < |e.rules|
    requires e.rules[s.ruleIndex].Armable() && !e.rules[s.ruleIndex].disabled
    ensures OnTime(e, Visit(e, s))
  {
    RaceVisitLeads(e, s);
    if Contention(e, s.ruleIndex).Some? { assert EffectiveFirst(e, s.ruleIndex); }
    StraightOnTime(e, Visit(e, s));
  }

  /** The outcome a visit has settled on. */
  lemma LandedOutcome(e: Env, t: State)
    requires Landed(e, t) && Straight(t)
    ensures t.control.Done? ==> Characterised(e, t.control.outcome)
    ensures t.control.Sweeping? ==> Characterised(e, OutcomeOf(e, t, t.control.suspension.exchange))
  {
  }

  lemma PlainOnTime(e: Env, s: State)
    requires Open(e, s) && Poised(s) && Landed(e, Visit(e, s)) && Straight(Visit(e, s))
    requires s.ruleIndex < |e.rules| ==> !e.rules[s.ruleIndex].Armable()
    requires s.ruleIndex < |e.rules| && !Visit(e, s).control.Visiting? ==> StepRule(e, s.ruleIndex, Abs(e, s)).Decide?
    ensures OnTime(e, Visit(e, s))
  {
    var t := Visit(e, s);
    LandedOutcome(e, t);
    if t.control.Done? {
      PlainDecision(e, s, t.control.outcome);
    } else if t.control.Sweeping? {
      PlainDecision(e, s, OutcomeOf(e, t, t.control.suspension.exchange));
    }
    StraightOnTime(e, t);
  }

  lemma DisabledOnTime(e: Env, s: State)
    requires Poised(s) && s.ruleIndex < |e.rules| && e.rules[s.ruleIndex].disabled
    ensures OnTime(e, Visit(e, s))
  {
  }

  lemma VisitOnTime(e: Env, s: State)
    requires WellFormed(e.rules) && Open(e, s) && Poised(s)
    ensures OnTime(e, Visit(e, s))
  {
    if s.ruleIndex < |e.rules| && e.rules[s.ruleIndex].disabled {
      DisabledOnTime(e, s);
    } else if s.ruleIndex < |e.rules| && e.rules[s.ruleIndex].Armable() {
      RaceOnTime(e, s);
    } else {
      WalkRace.VisitLands(e, s);
      if s.ruleIndex < |e.rules| { PlainVisitStraight(e, s); }
      PlainOnTime(e, s);
    }
  }

  lemma SweepOnTime(e: Env, s: State)
    requires OnTime(e, s) && s.control.Sweeping?
    ensures OnTime(e, SweepStep(e, s))
  {
    var settled := Settle(e, s).(seen := ResolvedSet(s));
    assert Sweep(e, settled, settled.armed) == Swept([], [], None);
  }

  lemma WalkOnTime(e: Env, s: State)
    requires WellFormed(e.rules) && Sound(e, s) && OnTime(e, s) && Enabled(e, s, Walk)
    requires s.control.Visiting? ==> Answered(s)
    ensures OnTime(e, Step(e, s, Walk))
  {
    match s.control
    case Visiting => VisitOnTime(e, s);
    case Sweeping(_) => SweepOnTime(e, s);
    case Checking(_) => CheckOnTime(e, s);
    case Finishing(_) =>
  }

  lemma CheckOnTime(e: Env, s: State)
    requires OnTime(e, s) && s.control.Checking?
    ensures OnTime(e, CheckStep(s))
  {
  }

  lemma StepOnTime(e: Env, s: State, l: Label)
    requires WellFormed(e.rules) && Sound(e, s) && OnTime(e, s) && Enabled(e, s, l)
    requires l.Walk? && s.control.Visiting? ==> Answered(s)
    ensures OnTime(e, Step(e, s, l))
  {
    if l.Walk? {
      WalkOnTime(e, s);
    } else if Outside(l) {
      OutsideProgress(e, s, l);
    }
  }

  lemma {:induction false} RunOnTime(e: Env, s: State, run: seq<Label>, t: State)
    requires WellFormed(e.rules) && Sound(e, s) && OnTime(e, s) && PromptRuns(e, s, run, t)
    ensures Sound(e, t) && OnTime(e, t)
    decreases |run|
  {
    if run != [] {
      StepSound(e, s, run[0]);
      StepOnTime(e, s, run[0]);
      RunOnTime(e, Step(e, s, run[0]), run[1..], t);
    }
  }

  /** Every prompt walk that ends, ends with the effect of the first race rule
      that has one, or without any as the list without its race rules. */
  lemma PromptWalksEndFirst(e: Env, run: seq<Label>, t: State, o: Outcome)
    requires WellFormed(e.rules) && PromptRuns(e, Init(e), run, t) && t.control == Done(o)
    ensures FirstEffect(e, o)
  {
    SoundInit(e);
    RunOnTime(e, Init(e), run, t);
  }

  // ---------------------------------------------------------------------
  // There are prompt walks
  // ---------------------------------------------------------------------

  /** A prompt walk that has not ended can go on. */
  lemma PromptNext(e: Env, s: State) returns (l: Label)
    requires OnTime(e, s) && !s.control.Done?
    ensures Enabled(e, s, l) && (l.Walk? && s.control.Visiting? ==> Answered(s)) && (l.Walk? || l.Resolve?)
  {
    if Answered(s) {
      l := Walk;
    } else {
      var k: nat :| k < |s.futures| && s.futures[k].phase.Running?;
      l := Resolve(k);
    }
  }

  /** Bounded below, so that the recursion ends. */
  lemma PotentialIsPositive(e: Env, s: State)
    requires Sound(e, s)
    ensures Potential(Measure(e, s)) >= 0
  {
    WalkTheorems.SoundBase(e, s);
  }

  lemma {:induction false} PromptFinish(e: Env, s: State) returns (run: seq<Label>, t: State)
    requires WellFormed(e.rules) && Sound(e, s) && OnTime(e, s)
    ensures PromptRuns(e, s, run, t) && t.control.Done?
    ensures forall i :: 0 <= i < |run| ==> run[i] != CancelContext
    decreases Potential(Measure(e, s))
  {
    if s.control.Done? {
      run, t := [], s;
    } else {
      var l := PromptNext(e, s);
      var next := Step(e, s, l);
      StepSound(e, s, l);
      StepOnTime(e, s, l);
      StepDrops(e, s, l);
      PotentialIsPositive(e, next);
      var rest;
      rest, t := PromptFinish(e, next);
      run := [l] + rest;
      assert run[0] == l && run[1..] == rest;
    }
  }

  /** The first effect is one of the outcomes a walk over the list can have:
      some walk ends with it, its context never cancelled. */
  lemma FirstEffectIsReached(e: Env) returns (run: seq<Label>, t: State, o: Outcome)
    requires WellFormed(e.rules)
    ensures Runs(e, Init(e), run, t) && (forall i :: 0 <= i < |run| ==> run[i] != CancelContext)
    ensures t.control == Done(o) && FirstEffect(e, o)
  {
    SoundInit(e);
    run, t := PromptFinish(e, Init(e));
    o := t.control.outcome;
    PromptWalksEndFirst(e, run, t, o);
    PromptRunsRun(e, Init(e), run, t);
  }
}

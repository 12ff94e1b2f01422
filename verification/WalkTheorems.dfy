/** The main results about the walk, over every list of rules that validation
    accepts, every answer of every server and every order of completions. */
module WalkTheorems {
  import opened Optional
  import opened QueryOptions
  import opened RuleWalk
  import opened SequentialRules
  import opened WalkInvariant
  import opened WalkVisit
  import opened WalkRuns
  import opened WalkLiveness
  import opened WalkAccounting
  import opened WalkAhead
  import WalkNames

  ghost predicate Invariant(e: Env, s: State) { Sound(e, s) && Waking(s) && Cancels(s) && Ahead(s) }

  lemma {:induction false} RunKeeps(e: Env, s: State, run: seq<Label>, t: State)
    requires WellFormed(e.rules) && Invariant(e, s) && Runs(e, s, run, t)
    ensures Invariant(e, t)
    decreases |run|
  {
    if run != [] {
      StepSound(e, s, run[0]);
      StepWaking(e, s, run[0]);
      StepCancels(e, s, run[0]);
      StepAhead(e, s, run[0]);
      RunKeeps(e, Step(e, s, run[0]), run[1..], t);
    }
  }

  ghost predicate Reachable(e: Env, t: State) { exists run :: Runs(e, Init(e), run, t) }

  /** What holds in every state a walk can reach. */
  lemma ReachableInvariant(e: Env, t: State)
    requires WellFormed(e.rules) && Reachable(e, t)
    ensures Invariant(e, t)
  {
    var run :| Runs(e, Init(e), run, t);
    SoundInit(e);
    RunKeeps(e, Init(e), run, t);
  }

  /** A walk that ends without its context being cancelled ends with the effect
      of a race rule, or, when no race rule has an effect, with the outcome of
      the list without its race rules. */
  lemma OutcomeCharacterised(e: Env, t: State, o: Outcome)
    requires WellFormed(e.rules) && Reachable(e, t) && t.control == Done(o)
    ensures (o == ContextDone && t.contextDone) || Characterised(e, o)
  {
    ReachableInvariant(e, t);
  }

  /** Refinement: without race rules the walk ends as the sequential
      interpreter does, whatever the order of completions. */
  lemma WalkRefinesInterpreter(e: Env, t: State, o: Outcome)
    requires WellFormed(e.rules) && (forall i :: 0 <= i < |e.rules| ==> !e.rules[i].Armable())
    requires Reachable(e, t) && t.control == Done(o)
    ensures o == Reference(e) || (o == ContextDone && t.contextDone)
  {
    OutcomeCharacterised(e, t, o);
    assert Calm(e).rules == e.rules;
    assert Calm(e) == e;
  }

  /** Server speed matters only among race rules: two walks over the same list
      and the same answers that end differently both end with the effect of a
      race rule. */
  lemma SpeedMattersAmongRaces(e: Env, t: State, u: State, o: Outcome, p: Outcome)
    requires WellFormed(e.rules) && Reachable(e, t) && Reachable(e, u)
    requires t.control == Done(o) && u.control == Done(p) && !t.contextDone && !u.contextDone
    requires o != p
    ensures RaceBacked(e, o) && RaceBacked(e, p)
  {
    OutcomeCharacterised(e, t, o);
    OutcomeCharacterised(e, u, p);
  }

  /** When all race rules that have an effect agree on it, the outcome does not
      depend on the order of completions. */
  lemma AgreeingRacesAreDeterministic(e: Env, t: State, u: State, o: Outcome, p: Outcome)
    requires WellFormed(e.rules) && Reachable(e, t) && Reachable(e, u)
    requires t.control == Done(o) && u.control == Done(p) && !t.contextDone && !u.contextDone
    requires forall q: nat, r: nat ::
               Contends(e, q) && Contends(e, r) && Contention(e, q).Some? && Contention(e, r).Some?
               ==> Contention(e, q) == Contention(e, r)
    ensures o == p
  {
    if o != p {
      SpeedMattersAmongRaces(e, t, u, o, p);
    }
  }

  // ---------------------------------------------------------------------
  // Termination
  // ---------------------------------------------------------------------

  lemma {:induction false} RunDrops(e: Env, s: State, run: seq<Label>, t: State)
    requires Runs(e, s, run, t)
    ensures Potential(Measure(e, t)) + |run| <= Potential(Measure(e, s))
    decreases |run|
  {
    if run != [] {
      StepDrops(e, s, run[0]);
      RunDrops(e, Step(e, s, run[0]), run[1..], t);
    }
  }

  /** Every run is short: its length is linear in the number of rules. */
  lemma RunsAreShort(e: Env, run: seq<Label>, t: State)
    requires WellFormed(e.rules) && Runs(e, Init(e), run, t)
    ensures |run| <= 32 * |e.rules| + 44
  {
    RunDrops(e, Init(e), run, t);
    ReachableInvariant(e, t);
    SoundBase(e, t);
  }

  lemma SoundBase(e: Env, s: State)
    requires Sound(e, s)
    ensures Base(e, s) && JudgedOnce(s, s.ruleIndex + 1)
  {
    match s.control
    case Visiting =>
    case Sweeping(x) => SuspendedBase(e, s, x);
    case Checking(x) => SuspendedBase(e, s, x);
    case Blocked(x) => SuspendedBase(e, s, x);
    case Finishing(_) =>
    case Done(_) =>
  }

  /** No wake-up is lost: a walk whose queries have all announced their answers
      can always move until it has ended. */
  lemma AnsweredWalkMoves(e: Env, t: State)
    requires WellFormed(e.rules) && Reachable(e, t) && !t.control.Done?
    requires forall k :: 0 <= k < |t.futures| ==> t.futures[k].phase.Signalled?
    ensures Enabled(e, t, Walk) || Enabled(e, t, Wake)
  {
    ReachableInvariant(e, t);
    NeverStuck(e, t);
  }

  /** A run that cannot go on, whatever the context does, has ended. */
  lemma MaximalRunsEnd(e: Env, t: State)
    requires WellFormed(e.rules) && Reachable(e, t)
    requires !Enabled(e, t, Walk) && !Enabled(e, t, Wake)
    requires forall k: nat :: !Enabled(e, t, Resolve(k)) && !Enabled(e, t, Signal(k))
    ensures t.control.Done?
  {
    ReachableInvariant(e, t);
    if !t.control.Done? { NeverStuck(e, t); }
  }

  // ---------------------------------------------------------------------
  // Accounting
  // ---------------------------------------------------------------------

  /** In every reachable state each rule has launched at most one query, that
      query is the one the sequential reading asks for, at most one is a
      speculative exchange, and every race rule was judged at most once. */
  lemma QueriesAccounted(e: Env, t: State)
    requires WellFormed(e.rules) && Reachable(e, t)
    ensures forall k :: 0 <= k < |t.futures| ==> Requested(e, t.futures[k])
    ensures forall j, k :: 0 <= j < k < |t.futures| ==> t.futures[j].rule != t.futures[k].rule
    ensures forall k :: 0 <= k < |t.futures| - 1 ==> !t.futures[k].terminal
    ensures Distinct(t.judged)
  {
    ReachableInvariant(e, t);
    SoundBase(e, t);
    forall k | 0 <= k < |t.futures|
      ensures Requested(e, t.futures[k]) && (k < |t.futures| - 1 ==> !t.futures[k].terminal)
    {
      assert LaunchedBy(e, t, k);
    }
  }

  /** A finished walk has cancelled every query. The query whose response it
      returns had resolved before, and so had an exchange sent ahead of time when
      the walk ends with the exchange of its rule. */
  lemma FinishedWalkCancels(e: Env, t: State, o: Outcome)
    requires WellFormed(e.rules) && Reachable(e, t) && t.control == Done(o)
    ensures forall k :: 0 <= k < |t.futures| ==> t.futures[k].cancelled
    ensures Uncut(t, o)
    ensures o.Exchanged? ==>
              forall k :: 0 <= k < |t.futures| && t.futures[k].terminal && t.futures[k].rule == o.rule ==>
                IsResolved(t, k) && !t.futures[k].cutShort
  {
    ReachableInvariant(e, t);
    SoundBase(e, t);
    forall k: nat | k < |t.futures| && t.futures[k].terminal
      ensures t.terminal == Some(k) && t.futures[k].rule == t.terminalIndex
    {
      assert LaunchedBy(e, t, k);
    }
  }

  predicate HeldBack(t: State) { t.control.Visiting? || t.control == Sweeping(Drain) }

  lemma RouteHoldsBack(e: Env, s: State, action: Action)
    requires s.control.Visiting? && action.RouteAction? && s.armed != []
    ensures HeldBack(VisitRoute(e, s, action))
  {
  }

  lemma EvaluateHoldsBack(e: Env, s: State, action: Action)
    requires s.control.Visiting? && action.EvaluateAction? && s.armed != []
    ensures HeldBack(VisitEvaluate(e, s, action))
  {
  }

  /** While a race rule is armed, a rule judged in place does not end the walk:
      it lets the walk go on or holds it back until no race rule is armed. */
  lemma JudgeHoldsBack(e: Env, s: State)
    requires s.control.Visiting? && s.ruleIndex < |e.rules| && s.armed != []
    ensures HeldBack(Judge(e, s))
  {
    var rule := e.rules[s.ruleIndex];
    if Matches(rule, AnonymousView(e, s, s.anonymous), s.responses) {
      match rule.action
      case EvaluateAction(_, _, _, _) => EvaluateHoldsBack(e, s, rule.action);
      case RouteAction(_, _, _) => RouteHoldsBack(e, s, rule.action);
      case RespondAction =>
      case RouteOptionsAction(_) =>
      case RejectAction(_) =>
      case NoAction =>
      case PredefinedAction =>
    }
  }

  /** While a race rule is armed it keeps the options and responses it had when
      the walk reached it. */
  lemma ArmedRulesKeepTheirView(e: Env, t: State, i: nat)
    requires WellFormed(e.rules) && Reachable(e, t) && i < |t.armed|
    requires t.control.Visiting? || (t.control.Sweeping? && !t.control.suspension.Pending?)
    ensures ArmedOk(e, t, t.armed[i])
  {
    ReachableInvariant(e, t);
  }

  // ---------------------------------------------------------------------
  // The asynchronous walk
  // ---------------------------------------------------------------------

  /** Where the asynchronous walk hands the final exchange over at once, the
      blocking walk gets to the same exchange without waiting: no race rule is
      armed, and three steps of its own later it has ended with it. */
  lemma AsyncShortcutAgrees(e: Env, s: State, p: PendingExchange)
    requires WellFormed(e.rules) && Reachable(e, s) && s.control == Sweeping(Pending(p)) && p.Plain?
    ensures s.armed == [] && Enabled(e, s, Walk)
    ensures var checking := Step(e, s, Walk);
            && Enabled(e, checking, Walk)
            && var finishing := Step(e, checking, Walk);
               Enabled(e, finishing, Walk) && Step(e, finishing, Walk).control == Done(OutcomeOf(e, s, p))
  {
    ReachableInvariant(e, s);
    assert SuspendedOk(e, s, Pending(p));
    var settled := Settle(e, s).(seen := ResolvedSet(s));
    var swept := Sweep(e, settled, settled.armed);
    assert swept.commit.None?;
    var checking := AfterSweep(settled, swept).(control := Checking(Pending(p)));
    assert SweepStep(e, s) == checking;
    var finishing := Begin(checking, p);
    assert CheckStep(checking) == finishing;
  }

  // ---------------------------------------------------------------------
  // Named futures
  // ---------------------------------------------------------------------

  /** Each named future is written at most once in a walk: no step replaces an
      entry. */
  lemma NamesWrittenOnce(e: Env, s: State, l: Label, tag: string)
    requires WellFormed(e.rules) && Reachable(e, s) && Enabled(e, s, l) && tag in s.named
    ensures var t := Step(e, s, l); tag in t.named && t.named[tag] == s.named[tag]
  {
    ReachableInvariant(e, s);
    SoundBase(e, s);
    WalkNames.StepWrites(e, s, l);
    var k := s.named[tag];
    assert LaunchedBy(e, s, k);
    var origin := s.futures[k].rule;
    if s.ruleIndex < |e.rules| && !s.futures[k].terminal {
      assert e.rules[origin].Defines(tag);
      assert !e.rules[s.ruleIndex].Defines(e.rules[origin].action.tag);
    }
  }
}

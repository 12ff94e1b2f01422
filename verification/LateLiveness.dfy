/** With completions inside visits too, no wake-up is lost and every walk over a
    list without race rules ends. */
module LateLiveness {
  import opened Optional
  import opened QueryOptions
  import opened RuleWalk
  import opened SequentialRules
  import opened WalkInvariant
  import opened WalkLiveness
  import opened LateVisits
  import opened LateRuns
  import opened LateTheorems

  // ---------------------------------------------------------------------
  // The potential
  // ---------------------------------------------------------------------

  lemma {:induction false} LandingCounts(fs: seq<Future>, late: set<nat>)
    ensures RunningCount(Landing(fs, late)) <= RunningCount(fs)
    ensures UnsignalledCount(Landing(fs, late)) == UnsignalledCount(fs)
  {
    if fs != [] {
      var n := |fs| - 1;
      LandingCounts(fs[..n], late);
      assert Landing(fs, late)[..n] == Landing(fs[..n], late);
    }
  }

  lemma AtCheckCounts(e: Env, s: State, late: set<nat>)
    ensures RunningCount(AtCheck(e, s, late).futures) <= RunningCount(s.futures)
    ensures UnsignalledCount(AtCheck(e, s, late).futures) == UnsignalledCount(s.futures)
  {
    SettlePhases(e, s);
    LandingCounts(s.futures, late);
    LandingCounts(Settle(e, s).futures, late);
  }

  lemma AtCheckRest(e: Env, s: State, late: set<nat>)
    ensures var t := AtCheck(e, s, late);
            && t.control == s.control && t.armed == s.armed && t.ruleIndex == s.ruleIndex && t.terminal == s.terminal
            && t.token == s.token && t.contextDone == s.contextDone
  {
  }

  lemma NotHigher(e: Env, s: State, t: State)
    requires s.control.Visiting? && t.control.Visiting? && t.armed == s.armed && t.ruleIndex == s.ruleIndex
    requires t.terminal == s.terminal && t.token == s.token && t.contextDone == s.contextDone
    requires RunningCount(t.futures) <= RunningCount(s.futures)
    requires UnsignalledCount(t.futures) == UnsignalledCount(s.futures)
    ensures Potential(Measure(e, t)) <= Potential(Measure(e, s))
  {
  }

  lemma LateVisitDrops(e: Env, s: State, late: set<nat>)
    requires s.control.Visiting? && ArmedInRange(e, s) && Raceless(e)
    ensures Lower(e, VisitLate(e, s, late), s)
  {
    var t := AtCheck(e, s, late);
    AtCheckRest(e, s, late);
    AtCheckCounts(e, s, late);
    NotHigher(e, s, t);
    if !Reading(e, s) {
      VisitDrops(e, t);
    } else {
      var waits := Awaited(t, e.rules[s.ruleIndex]);
      AwaitedUnresolved(t, e.rules[s.ruleIndex].tags);
      if waits != [] { SuspendLowers(e, t, Await(waits[0])); } else { JudgeDrops(e, t); }
    }
  }

  lemma {:induction false} FineRunDrops(e: Env, f: Fine, run: seq<FineLabel>, g: Fine)
    requires Raceless(e) && FineRuns(e, f, run, g)
    ensures Potential(Measure(e, g.state)) + |run| <= Potential(Measure(e, f.state))
    decreases |run|
  {
    if run != [] {
      match run[0] {
        case Coarse(step) => StepDrops(e, f.state, step);
        case Late(late) => LateVisitDrops(e, f.state, late);
      }
      FineRunDrops(e, FineStep(e, f, run[0]), run[1..], g);
    }
  }

  /** Late completions included, the length of a run is linear in the number of
      rules. */
  lemma FineRunsAreShort(e: Env, run: seq<FineLabel>, g: Fine)
    requires WellFormed(e.rules) && Raceless(e) && FineRuns(e, Fine(Init(e), map[]), run, g)
    ensures |run| <= 32 * |e.rules| + 44
  {
    FineInit(e);
    FineRunKeeps(e, Fine(Init(e), map[]), run, g);
    FineRunDrops(e, Fine(Init(e), map[]), run, g);
    InBounds(e, g);
  }

  lemma InBounds(e: Env, g: Fine)
    requires FineSound(e, g)
    ensures g.state.ruleIndex <= |e.rules|
  {
  }

  // ---------------------------------------------------------------------
  // Wake-ups
  // ---------------------------------------------------------------------

  predicate Asleep(s: State) { s.control.Checking? || s.control.Blocked? }

  lemma EvaluateAwake(e: Env, t: State, action: Action)
    requires t.control.Visiting? && action.EvaluateAction?
    ensures !Asleep(VisitEvaluate(e, t, action))
  {
  }

  lemma RouteAwake(e: Env, t: State, action: Action)
    requires t.control.Visiting? && action.RouteAction?
    ensures !Asleep(VisitRoute(e, t, action))
  {
  }

  lemma JudgeAwake(e: Env, t: State)
    requires t.control.Visiting? && t.ruleIndex < |e.rules| && t.armed == []
    ensures !Asleep(Judge(e, t))
  {
    var rule := e.rules[t.ruleIndex];
    if Matches(rule, AnonymousView(e, t, t.anonymous), t.responses) {
      if rule.action.EvaluateAction? {
        EvaluateAwake(e, t, rule.action);
      } else if rule.action.RouteAction? {
        RouteAwake(e, t, rule.action);
      } else if !rule.action.RespondAction? {
        JudgePlain(e, t);
      }
    }
  }

  lemma PlainVisitAwake(e: Env, t: State)
    requires t.control.Visiting? && t.armed == [] && t.ruleIndex <= |e.rules| && !Reading(e, t)
    ensures !Asleep(Visit(e, t))
  {
    PlainVisit(e, t);
    if t.ruleIndex < |e.rules| { JudgeAwake(e, t); }
  }

  /** A visit does not put the walker to sleep. */
  lemma LateVisitAwake(e: Env, s: State, late: set<nat>)
    requires s.control.Visiting? && s.armed == [] && s.ruleIndex <= |e.rules| && Raceless(e)
    ensures !Asleep(VisitLate(e, s, late))
  {
    var t := AtCheck(e, s, late);
    AtCheckRest(e, s, late);
    if Reading(e, s) { JudgeAwake(e, t); } else { PlainVisitAwake(e, t); }
  }

  lemma FineSweepWaking(e: Env, s: State)
    requires s.control.Sweeping? && s.armed == []
    ensures Waking(SweepStep(e, s))
  {
    var settled := Settle(e, s).(seen := ResolvedSet(s));
    assert Sweep(e, settled, settled.armed) == Swept([], [], None);
    UndecidedWaking(e, s, settled, s.control.suspension);
  }

  lemma FineStepWaking(e: Env, f: Fine, l: FineLabel)
    requires Raceless(e) && FineSound(e, f) && Waking(f.state) && FineEnabled(e, f, l)
    ensures Waking(FineStep(e, f, l).state)
  {
    var s := f.state;
    match l
    case Late(late) => LateVisitAwake(e, s, late);
    case Coarse(step) => CoarseWaking(e, f, step);
  }

  lemma CoarseWaking(e: Env, f: Fine, l: Label)
    requires FineSound(e, f) && Waking(f.state) && Enabled(e, f.state, l) && !(l.Walk? && f.state.control.Visiting?)
    ensures Waking(Step(e, f.state, l))
  {
    if !l.Walk? {
      OtherWaking(e, f.state, l);
    } else if f.state.control.Sweeping? {
      FineSweepWaking(e, f.state);
    } else if f.state.control.Checking? {
      CheckWaking(f.state);
    }
  }

  lemma {:induction false} FineRunWaking(e: Env, f: Fine, run: seq<FineLabel>, g: Fine)
    requires WellFormed(e.rules) && Raceless(e) && FineSound(e, f) && Waking(f.state) && FineRuns(e, f, run, g)
    ensures FineSound(e, g) && Waking(g.state)
    decreases |run|
  {
    if run != [] {
      FineKeeps(e, f, run[0]);
      FineStepWaking(e, f, run[0]);
      FineRunWaking(e, FineStep(e, f, run[0]), run[1..], g);
    }
  }

  /** A step that is not the end or the cancellation of the context. */
  predicate Inner(l: FineLabel) { l.Coarse? ==> !l.step.Abort? && !l.step.CancelContext? }

  lemma BlockedMoves(e: Env, f: Fine)
    requires FineSound(e, f) && Waking(f.state) && f.state.control.Blocked?
    ensures exists l: FineLabel :: Inner(l) && FineEnabled(e, f, l)
  {
    var s := f.state;
    var k := s.control.suspension.future;
    match s.futures[k].phase
    case Running => assert FineEnabled(e, f, Coarse(Resolve(k)));
    case Resolved => assert FineEnabled(e, f, Coarse(Signal(k)));
    case Signalled => assert FineEnabled(e, f, Coarse(Wake));
  }

  /** Late completions lose no wake-up: a walk that has not ended can go on. */
  lemma FineNeverStuck(e: Env, g: Fine)
    requires WellFormed(e.rules) && Raceless(e) && FineReachable(e, g) && !g.state.control.Done?
    ensures exists l: FineLabel :: Inner(l) && FineEnabled(e, g, l)
  {
    var run :| FineRuns(e, Fine(Init(e), map[]), run, g);
    FineInit(e);
    FineRunWaking(e, Fine(Init(e), map[]), run, g);
    match g.state.control
    case Visiting => assert FineEnabled(e, g, Late({}));
    case Sweeping(_) => assert FineEnabled(e, g, Coarse(Walk));
    case Checking(_) => assert FineEnabled(e, g, Coarse(Walk));
    case Blocked(_) => BlockedMoves(e, g);
    case Finishing(_) => assert FineEnabled(e, g, Coarse(Walk));
  }
}

/** No wake-up is lost and every walk ends. */
module WalkLiveness {
  import opened Optional
  import opened QueryOptions
  import opened RuleWalk
  import opened SequentialRules
  import opened WalkInvariant
  import opened WalkVisit
  import opened WalkRuns
  import WalkRace

  // ---------------------------------------------------------------------
  // Wake-ups
  // ---------------------------------------------------------------------

  /** Some future this armed rule waits for was unresolved at the last sweep. */
  predicate UnseenWait(s: State, a: Armed) {
    exists i :: 0 <= i < |a.waits| && a.waits[i] < |s.futures| && a.waits[i] !in s.seen
  }

  /** Between the last sweep and the next one: a completion that was announced
      since then has left its token, and what the walker waits for had not
      resolved at the sweep. */
  predicate Waking(s: State) {
    s.control.Checking? || s.control.Blocked? ==>
      && (forall k :: 0 <= k < |s.futures| && s.futures[k].phase.Signalled? && k !in s.seen ==> s.token)
      && (s.control.suspension.Drain? || s.control.suspension.Await? ==>
            forall i :: 0 <= i < |s.armed| ==> UnseenWait(s, s.armed[i]))
      && (forall k :: k in s.seen ==> IsResolved(s, k))
      && (s.control.Blocked? ==>
            match s.control.suspension
            case Await(k) => k < |s.futures| && k !in s.seen
            case Drain => s.armed != []
            case Pending(_) => false)
  }

  lemma SweepStepWaking(e: Env, s: State)
    requires WellFormed(e.rules) && Sound(e, s) && s.control.Sweeping? && ArmedInRange(e, s)
    ensures Waking(SweepStep(e, s))
  {
    var x := s.control.suspension;
    var settled := Settle(e, s).(seen := ResolvedSet(s));
    SettleSuspended(e, s, settled, x);
    SuspendedBase(e, settled, x);
    if Sweep(e, settled, settled.armed).commit.None? { UndecidedWaking(e, s, settled, x); }
  }

  lemma KeptUnseen(e: Env, s: State, i: nat)
    requires InRange(e, s.armed) && Sweep(e, s, s.armed).commit.None? && s.seen == ResolvedSet(s)
    requires forall j :: 0 <= j < |s.armed| ==> ArmedOk(e, s, s.armed[j])
    requires i < |Sweep(e, s, s.armed).kept|
    ensures UnseenWait(s, Sweep(e, s, s.armed).kept[i])
  {
    SweepKeepsUnready(e, s, s.armed);
    SweepKeepsArmed(e, s, s.armed);
    var a := Sweep(e, s, s.armed).kept[i];
    assert a in s.armed && !Ready(s, a);
    var j :| 0 <= j < |a.waits| && !IsResolved(s, a.waits[j]);
    assert a.waits[j] in a.waits;
  }

  lemma UndecidedWaking(e: Env, s: State, settled: State, x: Suspension)
    requires s.control == Sweeping(x) && settled == Settle(e, s).(seen := ResolvedSet(s))
    requires InRange(e, settled.armed) && Sweep(e, settled, settled.armed).commit.None?
    requires forall j :: 0 <= j < |settled.armed| ==> ArmedOk(e, settled, settled.armed[j])
    ensures Waking(AfterSweep(settled, Sweep(e, settled, settled.armed)).(control := Checking(x)))
  {
    var t := AfterSweep(settled, Sweep(e, settled, settled.armed)).(control := Checking(x));
    SettledSeen(e, s);
    forall i | 0 <= i < |t.armed| ensures UnseenWait(t, t.armed[i]) { KeptUnseen(e, settled, i); }
  }

  lemma SettledSeen(e: Env, s: State)
    ensures ResolvedSet(Settle(e, s).(seen := ResolvedSet(s))) == ResolvedSet(s)
  {
    var settled := Settle(e, s).(seen := ResolvedSet(s));
    forall k: nat ensures IsResolved(settled, k) == IsResolved(s, k) {}
  }

  lemma StepWaking(e: Env, s: State, l: Label)
    requires WellFormed(e.rules) && Sound(e, s) && Waking(s) && Enabled(e, s, l)
    ensures Waking(Step(e, s, l))
  {
    var t := Step(e, s, l);
    if l.Walk? {
      if s.control.Visiting? {
        VisitControl(e, s);
      } else if s.control.Sweeping? {
        SweepStepWaking(e, s);
      } else if s.control.Checking? {
        CheckWaking(s);
      }
    } else {
      OtherWaking(e, s, l);
    }
  }

  lemma CheckWaking(s: State)
    requires s.control.Checking? && Waking(s)
    requires s.control.suspension.Await? ==> s.control.suspension.future < |s.futures|
    ensures Waking(CheckStep(s))
  {
    var t := CheckStep(s);
    if t.control.Blocked? {
      forall i | 0 <= i < |t.armed| ensures UnseenWait(t, t.armed[i]) { assert UnseenWait(s, s.armed[i]); }
    }
  }

  lemma OtherWaking(e: Env, s: State, l: Label)
    requires Waking(s) && Enabled(e, s, l) && !l.Walk?
    ensures Waking(Step(e, s, l))
  {
    var t := Step(e, s, l);
    if t.control.Checking? || t.control.Blocked? {
      if s.control.suspension.Drain? || s.control.suspension.Await? {
        forall i | 0 <= i < |t.armed| ensures UnseenWait(t, t.armed[i]) { assert UnseenWait(s, s.armed[i]); }
      }
    }
  }

  lemma VisitControl(e: Env, s: State)
    requires WellFormed(e.rules) && Open(e, s) && s.control.Visiting? && ArmedInRange(e, s)
    ensures !Visit(e, s).control.Checking? && !Visit(e, s).control.Blocked?
  {
    WalkRace.VisitLands(e, s);
  }

  // ---------------------------------------------------------------------
  // Progress
  // ---------------------------------------------------------------------

  /** A walk that has not ended can move, or one of its queries is still on its
      way: nothing else can hold it up, so no wake-up is ever lost. */
  lemma NeverStuck(e: Env, s: State)
    requires Sound(e, s) && Waking(s) && !s.control.Done?
    ensures Enabled(e, s, Walk) || Enabled(e, s, Wake)
            || exists k: nat :: Enabled(e, s, Resolve(k)) || Enabled(e, s, Signal(k))
  {
    match s.control
    case Visiting =>
    case Sweeping(x) => SuspendedBase(e, s, x);
    case Checking(x) =>
    case Blocked(x) =>
      if forall k :: 0 <= k < |s.futures| ==> s.futures[k].phase.Signalled? {
        if x.Drain? { assert UnseenWait(s, s.armed[0]); }
      } else {
        var k: nat :| k < |s.futures| && !s.futures[k].phase.Signalled?;
        assert Enabled(e, s, Resolve(k)) || Enabled(e, s, Signal(k));
      }
    case Finishing(p) =>
      if p.Launched? && !IsResolved(s, p.future) { assert Enabled(e, s, Resolve(p.future)); }
  }

  // ---------------------------------------------------------------------
  // A potential that every step lowers
  // ---------------------------------------------------------------------

  function RunningCount(fs: seq<Future>): nat {
    if fs == [] then 0
    else RunningCount(fs[..|fs| - 1]) + (if fs[|fs| - 1].phase.Running? then 1 else 0)
  }

  function UnsignalledCount(fs: seq<Future>): nat {
    if fs == [] then 0
    else UnsignalledCount(fs[..|fs| - 1]) + (if fs[|fs| - 1].phase.Signalled? then 0 else 1)
  }

  /** How far a control state is from the next one that needs an event. */
  function Rank(s: State): nat {
    match s.control
    case Visiting => 4
    case Sweeping(x) => if Overdue(s, x) then 6 else 3
    case Checking(x) => if Overdue(s, x) then 5 else 2
    case Blocked(_) => 1
    case Finishing(_) => 1
    case Done(_) => 0
  }

  /** What the suspended walk waits for has happened. */
  predicate Overdue(s: State, x: Suspension) {
    match x
    case Await(k) => IsResolved(s, k)
    case Drain => s.armed == []
    case Pending(_) => false
  }

  /** The measure of a state: rules to go, whether the speculative exchange is
      still to be launched, queries running or unannounced, rules armed. */
  datatype Gauge = Gauge(
    rulesLeft: int, terminalFree: bool, running: nat, armed: nat, unsignalled: nat,
    token: bool, contextDone: bool, rank: nat)

  function Measure(e: Env, s: State): Gauge {
    Gauge(|e.rules| - s.ruleIndex, s.terminal.None?, RunningCount(s.futures), |s.armed|,
          UnsignalledCount(s.futures), s.token, s.contextDone, Rank(s))
  }

  function Potential(g: Gauge): int {
    32 * g.rulesLeft + (if g.terminalFree then 32 else 0) + 8 * (g.running + g.armed)
    + 16 * g.unsignalled + (if g.token then 8 else 0) + (if g.contextDone then 0 else 8) + g.rank
  }

  lemma {:induction false} SamePhases(fs: seq<Future>, gs: seq<Future>)
    requires |fs| == |gs| && forall k :: 0 <= k < |fs| ==> fs[k].phase == gs[k].phase
    ensures RunningCount(fs) == RunningCount(gs) && UnsignalledCount(fs) == UnsignalledCount(gs)
  {
    if fs != [] { SamePhases(fs[..|fs| - 1], gs[..|gs| - 1]); }
  }

  lemma AppendCounts(fs: seq<Future>, f: Future)
    requires f.phase.Running?
    ensures RunningCount(fs + [f]) == RunningCount(fs) + 1 && UnsignalledCount(fs + [f]) == UnsignalledCount(fs) + 1
  {
    assert (fs + [f])[..|fs|] == fs;
  }

  lemma {:induction false} PhaseCounts(fs: seq<Future>, k: nat, f: Future)
    requires k < |fs|
    ensures RunningCount(fs[k := f]) == RunningCount(fs)
            + (if f.phase.Running? then 1 else 0) - (if fs[k].phase.Running? then 1 else 0)
    ensures UnsignalledCount(fs[k := f]) == UnsignalledCount(fs)
            + (if f.phase.Signalled? then 0 else 1) - (if fs[k].phase.Signalled? then 0 else 1)
  {
    var n := |fs| - 1;
    if k < n {
      PhaseCounts(fs[..n], k, f);
      assert fs[k := f][..n] == fs[..n][k := f];
    } else {
      assert fs[k := f][..n] == fs[..n];
    }
  }

  lemma CancelPhases(s: State, keep: Option<nat>)
    ensures var t := CancelExcept(s, keep);
            RunningCount(t.futures) == RunningCount(s.futures)
            && UnsignalledCount(t.futures) == UnsignalledCount(s.futures)
  {
    SamePhases(s.futures, CancelExcept(s, keep).futures);
  }

  lemma SettlePhases(e: Env, s: State)
    ensures var t := Settle(e, s);
            RunningCount(t.futures) == RunningCount(s.futures)
            && UnsignalledCount(t.futures) == UnsignalledCount(s.futures)
  {
    SamePhases(s.futures, Settle(e, s).futures);
  }

  lemma {:induction false} SweepLengths(e: Env, s: State, armed: seq<Armed>)
    requires InRange(e, armed)
    ensures var r := Sweep(e, s, armed);
            |r.kept| + |r.judged| == |armed| && (r.commit.Some? ==> |r.judged| > 0)
  {
    if armed != [] { SweepLengths(e, s, armed[1..]); }
  }

  // What single moves do to the potential

  predicate Lower(e: Env, t: State, s: State) { Potential(Measure(e, t)) < Potential(Measure(e, s)) }

  lemma AdvanceLowers(e: Env, s: State, t: State)
    requires s.control.Visiting? && t.control.Visiting? && t.ruleIndex == s.ruleIndex + 1
    requires t.futures == s.futures && t.terminal == s.terminal && |t.armed| <= |s.armed| + 1
    requires t.token == s.token && t.contextDone == s.contextDone
    ensures Lower(e, t, s)
  {
  }

  lemma SuspendLowers(e: Env, s: State, x: Suspension)
    requires s.control.Visiting? && !Overdue(s, x)
    ensures Lower(e, Suspend(s, x), s)
  {
  }

  lemma FinishLowers(e: Env, s: State, t: State, o: Outcome)
    requires !s.control.Done? && t.futures == s.futures && t.ruleIndex == s.ruleIndex && t.terminal == s.terminal
    requires |t.armed| <= |s.armed| && t.token == s.token && t.contextDone == s.contextDone
    ensures Lower(e, Finish(t, o), s)
  {
    CancelPhases(t, None);
  }

  lemma LaunchLowers(e: Env, s: State, t: State, f: Future)
    requires s.control.Visiting? && t.control.Visiting? && t.ruleIndex == s.ruleIndex + 1
    requires f.phase.Running? && t.futures == s.futures + [f] && t.terminal == s.terminal && t.armed == s.armed
    requires t.token == s.token && t.contextDone == s.contextDone
    ensures Lower(e, t, s)
  {
    AppendCounts(s.futures, f);
  }

  lemma SpeculateLowers(e: Env, s: State, t: State, f: Future)
    requires s.control.Visiting? && t.control == Sweeping(Drain) && t.ruleIndex == s.ruleIndex
    requires f.phase.Running? && t.futures == s.futures + [f] && s.terminal.None? && t.terminal.Some?
    requires t.armed == s.armed && s.armed != [] && t.token == s.token && t.contextDone == s.contextDone
    ensures Lower(e, t, s)
  {
    AppendCounts(s.futures, f);
  }

  lemma EvaluateDrops(e: Env, s: State, action: Action)
    requires s.control.Visiting? && action.EvaluateAction?
    ensures Lower(e, VisitEvaluate(e, s, action), s)
  {
    var t := VisitEvaluate(e, s, action);
    if action.server !in e.transports {
      AdvanceLowers(e, s, t);
    } else if !action.speculative && s.armed != [] {
      SuspendLowers(e, s, Drain);
    } else {
      LaunchLowers(e, s, t, Future(s.ruleIndex, action.tag, false, e.transports[action.server],
                                   Apply(s.options, action.overrides), Running, false, false, false));
    }
  }

  lemma RouteDrops(e: Env, s: State, action: Action)
    requires s.control.Visiting? && action.RouteAction?
    ensures Lower(e, VisitRoute(e, s, action), s)
  {
    var t := VisitRoute(e, s, action);
    match ResolveRoute(e, action.server, action.overrides, s.options)
    case None => AdvanceLowers(e, s, t);
    case Some((transport, options)) =>
      if s.armed != [] {
        if action.speculative && s.terminal.None? {
          SpeculateLowers(e, s, t, t.futures[|s.futures|]);
        } else {
          SuspendLowers(e, s, Drain);
        }
      } else {
        SuspendLowers(e, s, t.control.suspension);
      }
  }

  lemma FinalDrops(e: Env, s: State, o: Outcome)
    requires s.control.Visiting?
    ensures Lower(e, FinishOrDrain(s, o), s)
  {
    if s.armed != [] { SuspendLowers(e, s, Drain); } else { FinishLowers(e, s, s, o); }
  }

  lemma RespondDrops(e: Env, s: State, rule: Rule)
    requires s.control.Visiting?
    ensures Lower(e, VisitRespond(e, s, rule), s)
  {
    if s.armed != [] {
      SuspendLowers(e, s, Drain);
    } else if rule.respondTag != "" {
      FinishLowers(e, s, s, RespondNamed(s, rule.respondTag));
    } else if !rule.HasBindings() && UnresolvedAnonymous(s) != [] {
      SuspendLowers(e, s, Await(s.anonymous.value));
    } else {
      FinishLowers(e, s, s, RespondAnonymous(e, s, s.anonymous));
    }
  }

  lemma JudgeDrops(e: Env, s: State)
    requires s.control.Visiting? && s.ruleIndex < |e.rules|
    ensures Lower(e, Judge(e, s), s)
  {
    var rule := e.rules[s.ruleIndex];
    if !Matches(rule, AnonymousView(e, s, s.anonymous), s.responses) || rule.action.NoAction? {
      AdvanceLowers(e, s, Advance(s));
    } else if rule.action.RouteOptionsAction? {
      AdvanceLowers(e, s, Advance(s.(options := Apply(s.options, rule.action.overrides))));
    } else if rule.action.EvaluateAction? {
      EvaluateDrops(e, s, rule.action);
    } else if rule.action.RespondAction? {
      RespondDrops(e, s, rule);
    } else if rule.action.RouteAction? {
      RouteDrops(e, s, rule.action);
    } else {
      JudgeFinalDrops(e, s);
    }
  }

  lemma JudgeFinalDrops(e: Env, s: State)
    requires s.control.Visiting? && s.ruleIndex < |e.rules|
    requires var rule := e.rules[s.ruleIndex];
             && Matches(rule, AnonymousView(e, s, s.anonymous), s.responses)
             && (rule.action.RejectAction? || rule.action.PredefinedAction?)
    ensures Lower(e, Judge(e, s), s)
  {
    var i := s.ruleIndex;
    match e.rules[i].action
    case RejectAction(DefaultReject) => FinalDrops(e, s, Rejected(i));
    case RejectAction(DropReject) => FinalDrops(e, s, Dropped(i));
    case RejectAction(ReplyReject) =>
      if s.armed != [] { SuspendLowers(e, s, Drain); } else { AdvanceLowers(e, s, Advance(s)); }
    case PredefinedAction => FinalDrops(e, s, Predefined(i, s.options));
  }

  /** A sweep right after arming: t is s with one more armed rule. */
  lemma SweepArmedDrops(e: Env, s: State, t: State)
    requires s.control.Visiting? && ArmedInRange(e, t) && t == s.(armed := t.armed) && |t.armed| == |s.armed| + 1
    ensures Lower(e, SweepArmed(e, t), s)
  {
    var r := Sweep(e, t, t.armed);
    var u := AfterSweep(t, r);
    SweepLengths(e, t, t.armed);
    match r.commit
    case None => AdvanceLowers(e, s, Advance(u));
    case Some(Result(o)) => FinishLowers(e, s, u, o);
    case Some(Exchange(p)) => CommitLowers(e, s, Suspend(u.(armed := []), Pending(p)));
  }

  lemma CommitLowers(e: Env, s: State, t: State)
    requires s.control.Visiting? && t.control.Sweeping? && t.control.suspension.Pending?
    requires t.futures == s.futures && t.ruleIndex == s.ruleIndex && t.terminal == s.terminal && t.armed == []
    requires t.token == s.token && t.contextDone == s.contextDone
    ensures Lower(e, t, s)
  {
  }

  lemma RaceDrops(e: Env, s: State)
    requires s.control.Visiting? && s.ruleIndex < |e.rules| && ArmedInRange(e, s)
    ensures Lower(e, VisitRace(e, s), s)
  {
    var t := s.(armed := s.armed + [Arm(s, e.rules[s.ruleIndex])]);
    if Awaited(s, e.rules[s.ruleIndex]) != [] {
      AdvanceLowers(e, s, Advance(t));
    } else {
      SweepArmedDrops(e, s, t);
    }
  }

  lemma SettleLowers(e: Env, s: State, t: State)
    requires s.control.Visiting? && Lower(e, t, Settle(e, s))
    ensures Lower(e, t, s)
  {
    SettlePhases(e, s);
  }

  lemma {:induction false} AwaitedUnresolved(s: State, tags: seq<string>)
    ensures forall i :: 0 <= i < |Unresolved(s, tags)| ==> !IsResolved(s, Unresolved(s, tags)[i])
  {
    if tags != [] { AwaitedUnresolved(s, tags[1..]); }
  }

  lemma VisitDrops(e: Env, s: State)
    requires s.control.Visiting? && ArmedInRange(e, s)
    ensures Lower(e, Visit(e, s), s)
  {
    if s.ruleIndex >= |e.rules| {
      SuspendLowers(e, s, Visit(e, s).control.suspension);
    } else {
      var rule := e.rules[s.ruleIndex];
      if rule.disabled {
        AdvanceLowers(e, s, Advance(s));
      } else if !rule.HasBindings() {
        JudgeDrops(e, s);
      } else {
        BoundVisitDrops(e, s, Settle(e, s));
      }
    }
  }

  lemma BoundVisitDrops(e: Env, s: State, t: State)
    requires s.control.Visiting? && s.ruleIndex < |e.rules| && ArmedInRange(e, s) && t == Settle(e, s)
    requires !e.rules[s.ruleIndex].disabled && e.rules[s.ruleIndex].HasBindings()
    ensures Lower(e, Visit(e, s), s)
  {
    var rule := e.rules[s.ruleIndex];
    AwaitedUnresolved(t, rule.tags);
    if rule.race {
      RaceDrops(e, t);
      SettleLowers(e, s, VisitRace(e, t));
    } else if Awaited(t, rule) != [] {
      SuspendLowers(e, t, Await(Awaited(t, rule)[0]));
      SettleLowers(e, s, Suspend(t, Await(Awaited(t, rule)[0])));
    } else {
      JudgeDrops(e, t);
      SettleLowers(e, s, Judge(e, t));
    }
  }

  predicate SamePace(s: State, t: State) {
    && |t.futures| == |s.futures| && (forall k :: 0 <= k < |s.futures| ==> t.futures[k].phase == s.futures[k].phase)
    && t.ruleIndex == s.ruleIndex && t.terminal == s.terminal && |t.armed| <= |s.armed|
    && t.token == s.token && t.contextDone == s.contextDone
  }

  lemma EndLowers(e: Env, s: State, t: State)
    requires SamePace(s, t) && (s.control.Sweeping? || s.control.Checking?) && (t.control.Finishing? || t.control.Done?)
    ensures Lower(e, t, s)
  {
    SamePhases(s.futures, t.futures);
  }

  lemma SweepStepDrops(e: Env, s: State)
    requires s.control.Sweeping? && ArmedInRange(e, s)
    ensures Lower(e, SweepStep(e, s), s)
  {
    var settled := Settle(e, s).(seen := ResolvedSet(s));
    var r := Sweep(e, settled, settled.armed);
    var t := AfterSweep(settled, r);
    SweptPace(e, s, settled, t);
    match r.commit
    case None => CheckLowers(e, s, t.(control := Checking(s.control.suspension)));
    case Some(Result(o)) => FinishPace(s, t, o); EndLowers(e, s, Finish(t, o));
    case Some(Exchange(p)) => BeginPace(s, t, p); EndLowers(e, s, Begin(t, p));
  }

  lemma SweptPace(e: Env, s: State, settled: State, t: State)
    requires ArmedInRange(e, s) && settled == Settle(e, s).(seen := ResolvedSet(s))
    requires t == AfterSweep(settled, Sweep(e, settled, settled.armed))
    ensures SamePace(s, t)
  {
    SweepLengths(e, settled, settled.armed);
  }

  lemma FinishPace(s: State, t: State, o: Outcome)
    requires SamePace(s, t)
    ensures SamePace(s, Finish(t, o))
  {
  }

  lemma BeginPace(s: State, t: State, p: PendingExchange)
    requires SamePace(s, t)
    ensures SamePace(s, Begin(t, p))
  {
  }

  lemma CheckLowers(e: Env, s: State, t: State)
    requires SamePace(s, t) && s.control.Sweeping? && t.control == Checking(s.control.suspension)
    ensures Lower(e, t, s)
  {
    SamePhases(s.futures, t.futures);
  }

  lemma LeaveCheckLowers(e: Env, s: State, c: Control)
    requires s.control.Checking? && (c.Blocked? || (c.Visiting? && Overdue(s, s.control.suspension)))
    ensures Lower(e, s.(control := c), s)
  {
  }

  lemma CheckStepDrops(e: Env, s: State)
    requires s.control.Checking?
    ensures Lower(e, CheckStep(s), s)
  {
    match s.control.suspension
    case Pending(p) => EndLowers(e, s, Begin(s, p));
    case Await(k) => LeaveCheckLowers(e, s, CheckStep(s).control);
    case Drain => LeaveCheckLowers(e, s, CheckStep(s).control);
  }

  lemma ResolveDrops(e: Env, s: State, k: nat)
    requires k < |s.futures| && s.futures[k].phase.Running?
    ensures Lower(e, s.(futures := s.futures[k := s.futures[k].(phase := Resolved)]), s)
  {
    PhaseCounts(s.futures, k, s.futures[k].(phase := Resolved));
  }

  lemma SignalDrops(e: Env, s: State, k: nat)
    requires k < |s.futures| && s.futures[k].phase.Resolved?
    ensures Lower(e, s.(futures := s.futures[k := s.futures[k].(phase := Signalled)], token := true), s)
  {
    PhaseCounts(s.futures, k, s.futures[k].(phase := Signalled));
    var t := s.(futures := s.futures[k := s.futures[k].(phase := Signalled)], token := true);
    assert forall j :: IsResolved(t, j) <==> IsResolved(s, j);
  }

  /** Every step, of the walker or of the environment, lowers the potential. */
  lemma StepDrops(e: Env, s: State, l: Label)
    requires Enabled(e, s, l)
    ensures Lower(e, Step(e, s, l), s)
  {
    match l
    case Walk =>
      match s.control {
        case Visiting => VisitDrops(e, s);
        case Sweeping(_) => SweepStepDrops(e, s);
        case Checking(_) => CheckStepDrops(e, s);
        case Finishing(p) => FinishLowers(e, s, s, OutcomeOf(e, s, p));
      }
    case Wake =>
    case Abort => FinishLowers(e, s, s, ContextDone);
    case Resolve(k) => ResolveDrops(e, s, k);
    case Signal(k) => SignalDrops(e, s, k);
    case CancelContext =>
  }
}

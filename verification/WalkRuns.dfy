/** The invariant of every run, and what it says about finished walks. */
module WalkRuns {
  import opened Optional
  import opened QueryOptions
  import opened RuleWalk
  import opened SequentialRules
  import opened WalkInvariant
  import opened WalkVisit
  import opened WalkRace

  // ---------------------------------------------------------------------
  // Soundness of a control state
  // ---------------------------------------------------------------------

  ghost predicate SuspendedOk(e: Env, s: State, x: Suspension) {
    match x
    case Await(k) => Open(e, s) && k < |s.futures|
    case Drain => Open(e, s)
    case Pending(p) => Base(e, s) && s.armed == [] && JudgedOnce(s, s.ruleIndex + 1) && PendingOk(e, s, p)
  }

  ghost predicate Sound(e: Env, s: State) {
    match s.control
    case Visiting => Open(e, s)
    case Sweeping(x) => SuspendedOk(e, s, x)
    case Checking(x) => SuspendedOk(e, s, x)
    case Blocked(x) => SuspendedOk(e, s, x) && !x.Pending?
    case Finishing(p) => Base(e, s) && JudgedOnce(s, s.ruleIndex + 1) && PendingOk(e, s, p)
    case Done(o) => Base(e, s) && JudgedOnce(s, s.ruleIndex + 1)
                    && (Characterised(e, o) || (o == ContextDone && s.contextDone))
  }

  lemma LandedIsSound(e: Env, s: State)
    requires Landed(e, s)
    ensures Sound(e, s)
  {
  }

  lemma SoundInit(e: Env)
    ensures Sound(e, Init(e))
  {
    assert Abs(e, Init(e)) == Start(Calm(e));
  }

  lemma SuspendedBase(e: Env, s: State, x: Suspension)
    requires SuspendedOk(e, s, x)
    ensures Base(e, s) && JudgedOnce(s, s.ruleIndex + 1)
    ensures forall i :: 0 <= i < |s.armed| ==> ArmedOk(e, s, s.armed[i]) && Pinned(e, s.armed[i])
    ensures InRange(e, s.armed)
  {
  }

  /** Steps that only let futures progress, or move the control of a suspended
      walk, keep it suspended as before. */
  lemma SuspendedKept(e: Env, s: State, t: State, x: Suspension)
    requires SuspendedOk(e, s, x) && SamePath(s, t) && t.armed == s.armed && t.judged == s.judged && Responses(e, t)
    ensures SuspendedOk(e, t, x)
  {
    match x
    case Await(k) => OpenKept(e, s, t);
    case Drain => OpenKept(e, s, t);
    case Pending(p) =>
      SamePathKeeps(e, s, t);
      PendingKept(e, s, t, p);
  }

  lemma PendingKept(e: Env, s: State, t: State, p: PendingExchange)
    requires SamePath(s, t) && PendingOk(e, s, p)
    ensures PendingOk(e, t, p)
  {
    if p.Launched? { assert Kept(s.futures[p.future], t.futures[p.future]); }
    assert OutcomeOf(e, t, p) == OutcomeOf(e, s, p);
  }

  // ---------------------------------------------------------------------
  // Steps of the resume loop
  // ---------------------------------------------------------------------

  lemma SettleSuspended(e: Env, s: State, t: State, x: Suspension)
    requires SuspendedOk(e, s, x) && t == Settle(e, s).(seen := t.seen)
    ensures SuspendedOk(e, t, x) && AllSettled(t)
  {
    SuspendedBase(e, s, x);
    SettleExtends(e, s);
    SettleKeepsResponses(e, s);
    SuspendedKept(e, s, t, x);
  }

  lemma SweepsUndecided(e: Env, s: State, x: Suspension)
    requires WellFormed(e.rules) && SuspendedOk(e, s, x) && AllSettled(s) && InRange(e, s.armed)
    requires Sweep(e, s, s.armed).commit.None?
    ensures SuspendedOk(e, AfterSweep(s, Sweep(e, s, s.armed)), x)
  {
    if x.Pending? { SweepsNothing(e, s, x); } else { SweepsOpen(e, s); }
  }

  lemma SweepsNothing(e: Env, s: State, x: Suspension)
    requires SuspendedOk(e, s, x) && x.Pending?
    ensures SuspendedOk(e, AfterSweep(s, Sweep(e, s, s.armed)), x)
  {
    assert Sweep(e, s, s.armed) == Swept([], [], None);
    var t := AfterSweep(s, Swept([], [], None));
    SamePathKeeps(e, s, t);
    PendingKept(e, s, t, x.exchange);
  }

  lemma SweepsOpen(e: Env, s: State)
    requires WellFormed(e.rules) && Open(e, s) && AllSettled(s) && InRange(e, s.armed)
    requires Sweep(e, s, s.armed).commit.None?
    ensures Open(e, AfterSweep(s, Sweep(e, s, s.armed)))
  {
    var t := AfterSweep(s, Sweep(e, s, s.armed));
    SweepKeepsHeld(e, s, t, s.ruleIndex);
    SamePathKeeps(e, s, t);
    SweepKeepsArmed(e, s, s.armed);
    forall i | 0 <= i < |t.armed| ensures Pinned(e, t.armed[i]) { assert t.armed[i] in s.armed; }
  }

  lemma SweepsDecided(e: Env, s: State, x: Suspension)
    requires WellFormed(e.rules) && SuspendedOk(e, s, x) && AllSettled(s) && InRange(e, s.armed)
    requires Sweep(e, s, s.armed).commit.Some?
    ensures var c := Sweep(e, s, s.armed).commit.value;
            RaceBacked(e, CommitOutcome(e, s, c)) && (c.Exchange? ==> c.exchange.Plain? && Planned(e, c.exchange))
    ensures Base(e, AfterSweep(s, Sweep(e, s, s.armed)))
    ensures JudgedOnce(AfterSweep(s, Sweep(e, s, s.armed)), s.ruleIndex + 1)
  {
    SuspendedBase(e, s, x);
    SweepCommitSound(e, s);
    SamePathKeeps(e, s, AfterSweep(s, Sweep(e, s, s.armed)));
    SweepsJudged(e, s, x);
  }

  lemma SweepsJudged(e: Env, s: State, x: Suspension)
    requires SuspendedOk(e, s, x) && InRange(e, s.armed)
    ensures JudgedOnce(AfterSweep(s, Sweep(e, s, s.armed)), s.ruleIndex + 1)
  {
    if x.Pending? {
      assert Sweep(e, s, s.armed) == Swept([], [], None);
    } else {
      SweepJudgesOnce(e, s, s.ruleIndex);
    }
  }

  lemma CancelSame(s: State, keep: Option<nat>, c: Control)
    ensures SamePath(s, CancelExcept(s, keep).(control := c))
    ensures forall k :: 0 <= k < |s.futures| ==> CancelExcept(s, keep).futures[k].settled == s.futures[k].settled
  {
  }

  lemma CancelKeepsBase(e: Env, s: State, keep: Option<nat>, c: Control)
    requires Base(e, s)
    ensures Base(e, CancelExcept(s, keep).(control := c))
  {
    var t := CancelExcept(s, keep).(control := c);
    CancelSame(s, keep, c);
    SamePathKeeps(e, s, t);
    CancelKeepsResponses(e, s, t);
  }

  lemma BeginSound(e: Env, s: State, p: PendingExchange)
    requires Base(e, s) && JudgedOnce(s, s.ruleIndex + 1) && PendingOk(e, s, p)
    ensures Sound(e, Begin(s, p))
  {
    var keep := if p.Launched? then Some(p.future) else None;
    CancelKeepsBase(e, s, keep, Finishing(p));
    CancelSame(s, keep, Finishing(p));
    PendingKept(e, s, Begin(s, p), p);
  }

  lemma CancelKeepsResponses(e: Env, s: State, t: State)
    requires Names(s) && Responses(e, s) && SamePath(s, t)
    requires t.responses == s.responses && t.responseTransports == s.responseTransports
    requires forall k :: 0 <= k < |s.futures| ==> t.futures[k].settled == s.futures[k].settled
    ensures Responses(e, t)
  {
    forall tag | tag in t.responses
      ensures tag in t.named && IsResolved(t, t.named[tag])
              && t.responses[tag] == View(AnswerOf(e, t.futures[t.named[tag]]))
              && tag in t.responseTransports && t.responseTransports[tag] == t.futures[t.named[tag]].transport
    {
      assert Kept(s.futures[s.named[tag]], t.futures[s.named[tag]]);
    }
    forall k | 0 <= k < |t.futures| && t.futures[k].settled
      ensures !t.futures[k].phase.Running? && (t.futures[k].tag != "" ==> t.futures[k].tag in t.responses)
    {
      assert Kept(s.futures[k], t.futures[k]);
    }
  }

  lemma FinishSound(e: Env, s: State, o: Outcome)
    requires Base(e, s) && JudgedOnce(s, s.ruleIndex + 1)
    requires Characterised(e, o) || (o == ContextDone && s.contextDone)
    ensures Sound(e, Finish(s, o))
  {
    CancelKeepsBase(e, s, None, Done(o));
  }

  lemma SweepStepSound(e: Env, s: State)
    requires WellFormed(e.rules) && Sound(e, s) && s.control.Sweeping? && ArmedInRange(e, s)
    ensures Sound(e, SweepStep(e, s))
  {
    var x := s.control.suspension;
    var settled := Settle(e, s).(seen := ResolvedSet(s));
    SettleSuspended(e, s, settled, x);
    var r := Sweep(e, settled, settled.armed);
    match r.commit
    case None => UndecidedSound(e, settled, x);
    case Some(c) => DecidedSound(e, settled, x, c);
  }

  lemma UndecidedSound(e: Env, s: State, x: Suspension)
    requires WellFormed(e.rules) && SuspendedOk(e, s, x) && AllSettled(s) && InRange(e, s.armed)
    requires Sweep(e, s, s.armed).commit.None?
    ensures Sound(e, AfterSweep(s, Sweep(e, s, s.armed)).(control := Checking(x)))
  {
    var t := AfterSweep(s, Sweep(e, s, s.armed));
    SweepsUndecided(e, s, x);
    SuspendedBase(e, t, x);
    SuspendedKept(e, t, t.(control := Checking(x)), x);
  }

  lemma DecidedSound(e: Env, s: State, x: Suspension, c: Commit)
    requires WellFormed(e.rules) && SuspendedOk(e, s, x) && AllSettled(s) && InRange(e, s.armed)
    requires Sweep(e, s, s.armed).commit == Some(c)
    ensures var t := AfterSweep(s, Sweep(e, s, s.armed));
            Sound(e, if c.Result? then Finish(t, c.outcome) else Begin(t, c.exchange))
  {
    var t := AfterSweep(s, Sweep(e, s, s.armed));
    SweepsDecided(e, s, x);
    if c.Result? { FinishSound(e, t, c.outcome); } else { BeginSound(e, t, c.exchange); }
  }

  lemma ResumeSound(e: Env, s: State, c: Control)
    requires Open(e, s) && (c.Visiting? || c == Blocked(Drain) || (c.Blocked? && c.suspension.Await?
                                                                   && c.suspension.future < |s.futures|))
    ensures Sound(e, s.(control := c))
  {
    OpenKept(e, s, s.(control := c));
  }

  lemma CheckStepSound(e: Env, s: State)
    requires s.control.Checking? && SuspendedOk(e, s, s.control.suspension)
    ensures Sound(e, CheckStep(s))
  {
    match s.control.suspension
    case Pending(p) => BeginSound(e, s, p);
    case Await(k) => ResumeSound(e, s, if IsResolved(s, k) then Visiting else Blocked(Await(k)));
    case Drain => ResumeSound(e, s, if s.armed == [] then Visiting else Blocked(Drain));
  }

  // ---------------------------------------------------------------------
  // Steps of the environment
  // ---------------------------------------------------------------------

  predicate FuturesProgress(s: State, t: State) {
    && t == s.(futures := t.futures, token := t.token, contextDone := t.contextDone)
    && (s.contextDone ==> t.contextDone)
    && |t.futures| == |s.futures|
    && forall k :: 0 <= k < |s.futures| ==>
         && t.futures[k] == s.futures[k].(phase := t.futures[k].phase)
         && (!s.futures[k].phase.Running? ==> !t.futures[k].phase.Running?)
  }

  predicate Outside(l: Label) { l.Resolve? || l.Signal? || l.CancelContext? }

  lemma OutsideProgress(e: Env, s: State, l: Label)
    requires Enabled(e, s, l) && Outside(l)
    ensures FuturesProgress(s, Step(e, s, l))
  {
  }

  lemma EnvironmentSound(e: Env, s: State, t: State)
    requires Sound(e, s) && FuturesProgress(s, t)
    ensures Sound(e, t)
  {
    assert SamePath(s, t);
    match s.control
    case Visiting => CancelKeepsResponses(e, s, t); OpenKept(e, s, t);
    case Sweeping(x) => SuspendedBase(e, s, x); CancelKeepsResponses(e, s, t); SuspendedKept(e, s, t, x);
    case Checking(x) => SuspendedBase(e, s, x); CancelKeepsResponses(e, s, t); SuspendedKept(e, s, t, x);
    case Blocked(x) => SuspendedBase(e, s, x); CancelKeepsResponses(e, s, t); SuspendedKept(e, s, t, x);
    case Finishing(p) => CancelKeepsResponses(e, s, t); SamePathKeeps(e, s, t); PendingKept(e, s, t, p);
    case Done(o) => CancelKeepsResponses(e, s, t); SamePathKeeps(e, s, t);
  }

  lemma WalkSound(e: Env, s: State)
    requires WellFormed(e.rules) && Sound(e, s) && Enabled(e, s, Walk)
    ensures Sound(e, Step(e, s, Walk))
  {
    match s.control
    case Visiting => VisitLands(e, s); LandedIsSound(e, Visit(e, s));
    case Sweeping(_) => SweepStepSound(e, s);
    case Checking(_) => CheckStepSound(e, s);
    case Finishing(p) => FinishSound(e, s, OutcomeOf(e, s, p));
  }

  lemma WakeSound(e: Env, s: State)
    requires Sound(e, s) && Enabled(e, s, Wake)
    ensures Sound(e, Step(e, s, Wake))
  {
    SuspendedBase(e, s, s.control.suspension);
    SuspendedKept(e, s, Step(e, s, Wake), s.control.suspension);
  }

  lemma AbortSound(e: Env, s: State)
    requires Sound(e, s) && Enabled(e, s, Abort)
    ensures Sound(e, Step(e, s, Abort))
  {
    if s.control.Blocked? { SuspendedBase(e, s, s.control.suspension); }
    FinishSound(e, s, ContextDone);
  }

  lemma StepSound(e: Env, s: State, l: Label)
    requires WellFormed(e.rules) && Sound(e, s) && Enabled(e, s, l)
    ensures Sound(e, Step(e, s, l))
  {
    if Outside(l) {
      OutsideProgress(e, s, l);
      EnvironmentSound(e, s, Step(e, s, l));
    } else if l.Walk? {
      WalkSound(e, s);
    } else if l.Wake? {
      WakeSound(e, s);
    } else {
      AbortSound(e, s);
    }
  }
}

/** Arming a race rule, sweeping, and the invariant of whole runs. */
module WalkRace {
  import opened Optional
  import opened QueryOptions
  import opened RuleWalk
  import opened SequentialRules
  import opened WalkInvariant
  import opened WalkVisit

  // ---------------------------------------------------------------------
  // Arming
  // ---------------------------------------------------------------------

  lemma {:induction false} UnresolvedCovers(s: State, tags: seq<string>)
    ensures forall w :: w in Unresolved(s, tags) ==> w < |s.futures| && !IsResolved(s, w)
    ensures forall t :: t in tags && t in s.named && s.named[t] < |s.futures| ==>
              IsResolved(s, s.named[t]) || s.named[t] in Unresolved(s, tags)
  {
    if tags != [] {
      UnresolvedCovers(s, tags[1..]);
      forall t | t in tags && t in s.named && s.named[t] < |s.futures|
        ensures IsResolved(s, s.named[t]) || s.named[t] in Unresolved(s, tags)
      {
        if t != tags[0] { assert t in tags[1..]; }
      }
    }
  }

  /** Nothing to wait for means every bound response is there. */
  lemma NothingAwaited(s: State, rule: Rule)
    requires Names(s)
    ensures Awaited(s, rule) == [] ==> Bindable(s, rule)
    ensures Awaited(s, rule) != [] ==> Awaited(s, rule)[0] < |s.futures|
  {
    UnresolvedCovers(s, rule.tags);
    var waits := Awaited(s, rule);
    if waits != [] { assert waits[0] in waits; }
  }

  lemma ArmIsOk(e: Env, s: State)
    requires OnPath(e, s) && Names(s) && s.ruleIndex < |e.rules|
    requires e.rules[s.ruleIndex].Armable() && !e.rules[s.ruleIndex].disabled
    ensures ArmedOk(e, s, Arm(s, e.rules[s.ruleIndex]))
  {
    UnresolvedCovers(s, e.rules[s.ruleIndex].tags);
  }

  lemma ArmIsPinned(e: Env, s: State)
    requires WellFormed(e.rules) && s.ruleIndex < |e.rules| && Awaited(s, e.rules[s.ruleIndex]) != []
    ensures Pinned(e, Arm(s, e.rules[s.ruleIndex]))
  {
  }

  lemma ArmEach(e: Env, s: State, t: State)
    requires OnPath(e, s) && Names(s) && s.ruleIndex < |e.rules|
    requires e.rules[s.ruleIndex].Armable() && !e.rules[s.ruleIndex].disabled
    requires forall i :: 0 <= i < |s.armed| ==> ArmedOk(e, s, s.armed[i]) && Pinned(e, s.armed[i])
    requires t == s.(armed := s.armed + [Arm(s, e.rules[s.ruleIndex])])
    requires Anchored(e, t, Arm(s, e.rules[s.ruleIndex]))
    ensures forall i :: 0 <= i < |t.armed| ==> ArmedOk(e, t, t.armed[i]) && Anchored(e, t, t.armed[i])
  {
    ArmIsOk(e, s);
    forall i | 0 <= i < |t.armed| ensures ArmedOk(e, t, t.armed[i]) && Anchored(e, t, t.armed[i]) {
      SameFuturesArmed(e, s, t, t.armed[i]);
    }
  }

  lemma ArmIsAnchored(e: Env, s: State, t: State)
    requires WellFormed(e.rules) && s.ruleIndex < |e.rules| && e.rules[s.ruleIndex].Armable()
    requires t.anonymous == s.anonymous
    ensures Anchored(e, t, Arm(s, e.rules[s.ruleIndex]))
  {
  }

  lemma ArmOrder(s: State, a: Armed)
    requires Ascending(s.armed) && (forall r :: r in Indices(s.armed) ==> r < s.ruleIndex) && a.ruleIndex == s.ruleIndex
    ensures Ascending(s.armed + [a]) && forall r :: r in Indices(s.armed + [a]) ==> r < s.ruleIndex + 1
  {
    AppendIndices(s.armed, a);
  }

  lemma ArmAccounted(e: Env, s: State, t: State, a: Armed)
    requires RacesAccounted(e, s, s.ruleIndex) && JudgedOnce(s, s.ruleIndex) && a.ruleIndex == s.ruleIndex
    requires t.armed == s.armed + [a] && t.judged == s.judged
    ensures RacesAccounted(e, t, s.ruleIndex + 1) && JudgedOnce(t, s.ruleIndex + 1)
  {
    AppendIndices(s.armed, a);
  }

  /** Arming a race rule keeps the armed rules in order and accounts for it. */
  lemma ArmHeld(e: Env, s: State, t: State)
    requires WellFormed(e.rules) && Open(e, s) && s.ruleIndex < |e.rules|
    requires e.rules[s.ruleIndex].Armable() && !e.rules[s.ruleIndex].disabled
    requires t == s.(armed := s.armed + [Arm(s, e.rules[s.ruleIndex])])
    ensures Held(e, t, s.ruleIndex + 1)
  {
    var a := Arm(s, e.rules[s.ruleIndex]);
    ArmIsAnchored(e, s, t);
    ArmEach(e, s, t);
    ArmOrder(s, a);
    ArmAccounted(e, s, t, a);
  }

  predicate AtRace(e: Env, s: State) {
    && Open(e, s) && AllSettled(s) && s.control.Visiting? && s.ruleIndex < |e.rules|
    && e.rules[s.ruleIndex].Armable() && !e.rules[s.ruleIndex].disabled
  }

  lemma RaceBase(e: Env, s: State, t: State)
    requires AtRace(e, s) && t == Advance(s.(armed := t.armed, judged := t.judged))
    ensures Base(e, t)
  {
    if s.terminal.Some? { TerminalDecides(e, s); }
    CalmStep(e, s.ruleIndex, Abs(e, s));
    AdvanceBase(e, s, Advance(s));
    SamePathKeeps(e, Advance(s), t);
  }

  lemma HeldOpens(e: Env, s: State, t: State)
    requires Base(e, t) && Held(e, s, t.ruleIndex) && (forall i :: 0 <= i < |s.armed| ==> Pinned(e, s.armed[i]))
    requires t.futures == s.futures && t.named == s.named && t.armed == s.armed && t.judged == s.judged
    requires t.control.Visiting?
    ensures Landed(e, t)
  {
    forall i | 0 <= i < |t.armed| ensures ArmedOk(e, t, t.armed[i]) { SameFuturesArmed(e, s, t, t.armed[i]); }
    OpenLands(e, t);
  }

  lemma RaceOpens(e: Env, s: State, u: State)
    requires AtRace(e, s) && u == s.(armed := u.armed, judged := u.judged) && Held(e, u, s.ruleIndex + 1)
    requires forall i :: 0 <= i < |u.armed| ==> Pinned(e, u.armed[i])
    ensures Landed(e, Advance(u))
  {
    RaceBase(e, s, Advance(u));
    HeldOpens(e, u, Advance(u));
  }

  lemma ArmLands(e: Env, s: State, t: State)
    requires WellFormed(e.rules) && AtRace(e, s) && Awaited(s, e.rules[s.ruleIndex]) != []
    requires t == s.(armed := s.armed + [Arm(s, e.rules[s.ruleIndex])])
    ensures Landed(e, Advance(t))
  {
    ArmHeld(e, s, t);
    AllPinned(e, s, t);
    RaceOpens(e, s, t);
  }

  lemma AllPinned(e: Env, s: State, t: State)
    requires WellFormed(e.rules) && AtRace(e, s) && Awaited(s, e.rules[s.ruleIndex]) != []
    requires t.armed == s.armed + [Arm(s, e.rules[s.ruleIndex])]
    ensures forall i :: 0 <= i < |t.armed| ==> Pinned(e, t.armed[i])
  {
    ArmIsPinned(e, s);
  }

  lemma ArmSweepable(e: Env, s: State, t: State)
    requires WellFormed(e.rules) && AtRace(e, s) && t == s.(armed := s.armed + [Arm(s, e.rules[s.ruleIndex])])
    ensures Sweepable(e, t)
  {
    ArmHeld(e, s, t);
    SettledSame(e, s, t);
  }

  lemma SweptArePinned(e: Env, s: State, t: State)
    requires AtRace(e, s) && Awaited(s, e.rules[s.ruleIndex]) == []
    requires t == s.(armed := s.armed + [Arm(s, e.rules[s.ruleIndex])])
    requires InRange(e, t.armed) && Sweep(e, t, t.armed).commit.None?
    ensures forall i :: 0 <= i < |Sweep(e, t, t.armed).kept| ==> Pinned(e, Sweep(e, t, t.armed).kept[i])
  {
    var kept := Sweep(e, t, t.armed).kept;
    SweepKeepsArmed(e, t, t.armed);
    SweepKeepsUnready(e, t, t.armed);
    assert Ready(t, Arm(s, e.rules[s.ruleIndex]));
    forall i | 0 <= i < |kept| ensures Pinned(e, kept[i]) {
      assert kept[i] in t.armed && !Ready(t, kept[i]);
    }
  }

  lemma SweptHeld(e: Env, s: State, t: State, u: State, bound: nat)
    requires WellFormed(e.rules) && Names(s) && Responses(e, s) && AllSettled(s)
    requires t == s.(armed := t.armed) && InRange(e, t.armed) && Held(e, t, bound)
    requires Sweep(e, t, t.armed).commit.None? && u == AfterSweep(t, Sweep(e, t, t.armed))
    ensures Held(e, u, bound)
  {
    SettledSame(e, s, t);
    SweepKeepsHeld(e, t, u, bound);
  }

  lemma ArmedSweptHeld(e: Env, s: State, t: State, u: State)
    requires WellFormed(e.rules) && AtRace(e, s)
    requires t == s.(armed := s.armed + [Arm(s, e.rules[s.ruleIndex])])
    requires InRange(e, t.armed) && Sweep(e, t, t.armed).commit.None? && u == AfterSweep(t, Sweep(e, t, t.armed))
    ensures Held(e, u, s.ruleIndex + 1)
  {
    ArmHeld(e, s, t);
    SweptHeld(e, s, t, u, s.ruleIndex + 1);
  }

  /** The responses of a state do not depend on its armed rules. */
  lemma SettledSame(e: Env, s: State, t: State)
    requires Names(s) && Responses(e, s) && AllSettled(s) && t == s.(armed := t.armed)
    ensures Names(t) && Responses(e, t) && AllSettled(t)
  {
  }

  /** A race rule whose responses are all there is judged at once; a sweep that
      commits nothing lets the walk go on. */
  lemma RaceGoesOn(e: Env, s: State, t: State, u: State)
    requires WellFormed(e.rules) && AtRace(e, s) && Awaited(s, e.rules[s.ruleIndex]) == []
    requires t == s.(armed := s.armed + [Arm(s, e.rules[s.ruleIndex])])
    requires InRange(e, t.armed) && Sweep(e, t, t.armed).commit.None?
    requires u == AfterSweep(t, Sweep(e, t, t.armed))
    ensures Landed(e, Advance(u))
  {
    ArmedSweptHeld(e, s, t, u);
    SweptArePinned(e, s, t);
    RaceOpens(e, s, u);
  }

  lemma RaceCommitBase(e: Env, s: State, u: State)
    requires Base(e, s) && u == s.(armed := u.armed, judged := u.judged)
    ensures Base(e, u)
  {
    SamePathKeeps(e, s, u);
  }

  lemma RaceCommitJudged(e: Env, s: State, t: State)
    requires WellFormed(e.rules) && AtRace(e, s)
    requires t == s.(armed := s.armed + [Arm(s, e.rules[s.ruleIndex])]) && ArmedInRange(e, t)
    ensures JudgedOnce(AfterSweep(t, Sweep(e, t, t.armed)), s.ruleIndex + 1)
  {
    ArmHeld(e, s, t);
    SweepJudgesOnce(e, t, s.ruleIndex + 1);
  }

  /** A commit of the sweep right after arming is the effect of a race rule. */
  lemma RaceCommitBacked(e: Env, s: State, t: State)
    requires WellFormed(e.rules) && AtRace(e, s)
    requires t == s.(armed := s.armed + [Arm(s, e.rules[s.ruleIndex])])
    requires ArmedInRange(e, t) && Sweep(e, t, t.armed).commit.Some?
    ensures var c := Sweep(e, t, t.armed).commit.value;
            RaceBacked(e, CommitOutcome(e, t, c)) && (c.Exchange? ==> c.exchange.Plain? && Planned(e, c.exchange))
  {
    ArmSweepable(e, s, t);
    SweepCommitSound(e, t);
  }

  lemma RaceExchangeLands(e: Env, u: State, p: PendingExchange)
    requires Base(e, u) && JudgedOnce(u, u.ruleIndex + 1) && p.Plain? && Planned(e, p)
    requires Characterised(e, OutcomeOf(e, u, p))
    ensures Landed(e, Suspend(u.(armed := []), Pending(p)))
  {
    SamePathKeeps(e, u, Suspend(u.(armed := []), Pending(p)));
  }

  lemma RaceCommitLands(e: Env, s: State, t: State)
    requires WellFormed(e.rules) && AtRace(e, s)
    requires t == s.(armed := s.armed + [Arm(s, e.rules[s.ruleIndex])])
    requires ArmedInRange(e, t) && Sweep(e, t, t.armed).commit.Some?
    ensures Landed(e, SweepArmed(e, t))
  {
    var r := Sweep(e, t, t.armed);
    var u := AfterSweep(t, r);
    RaceCommitJudged(e, s, t);
    RaceCommitBacked(e, s, t);
    RaceCommitBase(e, s, u);
    match r.commit.value
    case Result(o) => FinishLands(e, u, o);
    case Exchange(p) => RaceExchangeLands(e, u, p);
  }

  lemma RaceLands(e: Env, s: State)
    requires WellFormed(e.rules) && AtRace(e, s) && ArmedInRange(e, s)
    ensures Landed(e, VisitRace(e, s))
  {
    var t := s.(armed := s.armed + [Arm(s, e.rules[s.ruleIndex])]);
    if Awaited(s, e.rules[s.ruleIndex]) != [] {
      ArmLands(e, s, t);
    } else if Sweep(e, t, t.armed).commit.None? {
      RaceGoesOn(e, s, t, AfterSweep(t, Sweep(e, t, t.armed)));
    } else {
      RaceCommitLands(e, s, t);
    }
  }

  /** One visit: the walk goes on, waits, or ends with a characterised outcome. */
  lemma VisitLands(e: Env, s: State)
    requires WellFormed(e.rules) && Open(e, s) && s.control.Visiting? && ArmedInRange(e, s)
    ensures Landed(e, Visit(e, s))
  {
    if s.ruleIndex >= |e.rules| {
      if s.armed != [] {
        DrainLands(e, s);
      } else {
        var p := Plain(|e.rules|, e.defaultTransport, s.options);
        if s.terminal.Some? { TerminalDecides(e, s); }
        CalmDecides(e, s, OutcomeOf(e, s, p));
        PendingLands(e, s, p);
      }
    } else {
      VisitRuleLands(e, s);
    }
  }

  lemma VisitRuleLands(e: Env, s: State)
    requires WellFormed(e.rules) && Open(e, s) && s.control.Visiting? && ArmedInRange(e, s) && s.ruleIndex < |e.rules|
    ensures Landed(e, Visit(e, s))
  {
    var rule := e.rules[s.ruleIndex];
    if rule.disabled {
      UnmatchedLands(e, s);
    } else if !rule.HasBindings() {
      JudgeLands(e, s);
    } else {
      SettleKeepsOpen(e, s);
      if rule.race { RaceLands(e, Settle(e, s)); } else { BoundLands(e, Settle(e, s)); }
    }
  }

  /** A rule judged in place, once its queries are settled. */
  lemma BoundLands(e: Env, t: State)
    requires WellFormed(e.rules) && Open(e, t) && AllSettled(t) && t.control.Visiting? && t.ruleIndex < |e.rules|
    requires !e.rules[t.ruleIndex].disabled && !e.rules[t.ruleIndex].race
    ensures var rule := e.rules[t.ruleIndex];
            Landed(e, if Awaited(t, rule) != [] then Suspend(t, Await(Awaited(t, rule)[0])) else Judge(e, t))
  {
    var rule := e.rules[t.ruleIndex];
    NothingAwaited(t, rule);
    if Awaited(t, rule) != [] { AwaitLands(e, t, Awaited(t, rule)[0]); } else { JudgeLands(e, t); }
  }
}

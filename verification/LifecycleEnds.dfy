/** How the calls in progress come to an end: they always can, they do within a
    bounded number of steps, and the state they start from decides whether the
    service is left STARTING. */
module LifecycleEnds {
  import opened Optional
  import opened Lifecycle

  /** A step of a call in progress. */
  predicate Inner(l: Label) { l.Acquire? || l.Advance? }

  predicate InnerRun(run: seq<Label>) { forall i :: 0 <= i < |run| ==> Inner(run[i]) }

  /** No call is in progress. */
  predicate Quiet(s: State) { forall c :: c in s.callers ==> s.callers[c].Outside? }

  // ---------------------------------------------------------------------
  // What the state decides
  // ---------------------------------------------------------------------

  predicate Stops(p: Position) { p.StopWaiting? || p.StopEntered? || p.StopClosing? || p.StopClosed? }

  /** The holder is not going to change the status of a closed service, unless
      it is a stop. */
  predicate Passive(s: State, p: Position) {
    || p.ReloadEntered? || p.ReloadDiscarding?
    || ((p.ReloadStarting? || p.ReloadReturned?) && s.interrupted)
  }

  /** The service is closed while STARTING, no stop is in progress, and the start
      that is running, if any, has been interrupted. */
  predicate Doomed(s: State) {
    && s.closed && s.status.Starting?
    && (forall c :: c in s.callers ==> !Stops(s.callers[c]))
    && (s.holder.Some? ==> Passive(s, At(s, s.holder.value)))
  }

  lemma DoomedAcquire(s: State, c: nat)
    requires Inv(s) && Enabled(s, Acquire(c))
    ensures Doomed(Step(s, Acquire(c))) <==> Doomed(s)
  {
    var t := Step(s, Acquire(c));
    assert At(t, c) == t.callers[c] && s.callers[c] == At(s, c);
    forall d | d in s.callers && d != c ensures t.callers[d] == s.callers[d] {}
  }

  /** The other callers stay where they are. */
  lemma OthersStay(s: State, t: State, c: nat, p: Position)
    requires c in s.callers && t.callers == s.callers[c := p] && (Stops(p) ==> Stops(s.callers[c]))
    requires Stops(s.callers[c]) ==> Stops(p)
    ensures (forall d :: d in t.callers ==> !Stops(t.callers[d])) <==>
              (forall d :: d in s.callers ==> !Stops(s.callers[d]))
  {
    if forall d :: d in t.callers ==> !Stops(t.callers[d]) {
      forall d | d in s.callers ensures !Stops(s.callers[d]) { assert !Stops(t.callers[d]); }
    }
  }

  lemma DoomedReload(s: State, c: nat, ok: bool)
    requires Inv(s) && Enabled(s, Advance(c, ok)) && !Stops(At(s, c))
    ensures Doomed(Step(s, Advance(c, ok))) <==> Doomed(s)
  {
    var t := Step(s, Advance(c, ok));
    assert s.holder == Some(c);
    assert c in s.callers && s.callers[c] == At(s, c);
    OthersStay(s, t, c, t.callers[c]);
  }

  lemma DoomedStop(s: State, c: nat, ok: bool)
    requires Inv(s) && Enabled(s, Advance(c, ok)) && Stops(At(s, c))
    ensures !Doomed(Step(s, Advance(c, ok))) && !Doomed(s)
  {
    assert c in s.callers && Stops(s.callers[c]);
  }

  lemma StepDecides(s: State, l: Label)
    requires Inv(s) && Enabled(s, l) && Inner(l)
    ensures Doomed(Step(s, l)) <==> Doomed(s)
  {
    match l
    case Acquire(c) => DoomedAcquire(s, c);
    case Advance(c, ok) => if Stops(At(s, c)) { DoomedStop(s, c, ok); } else { DoomedReload(s, c, ok); }
  }

  lemma {:induction false} RunDecides(s: State, run: seq<Label>, t: State)
    requires Inv(s) && Runs(s, run, t) && InnerRun(run)
    ensures Inv(t) && (Doomed(t) <==> Doomed(s))
    decreases |run|
  {
    if run != [] {
      StepKeeps(s, run[0]);
      StepDecides(s, run[0]);
      RunDecides(Step(s, run[0]), run[1..], t);
    }
  }

  lemma QuietIsDoomedIff(t: State)
    requires Inv(t) && Quiet(t)
    ensures t.status.Starting? <==> Doomed(t)
  {
    assert forall c: nat :: !Holding(At(t, c));
  }

  /** However the calls in progress come to an end, the service is left STARTING
      if and only if it was closed while STARTING with no stop in progress and no
      start that was still to succeed or fail. */
  lemma LeftStartingIff(before: seq<Label>, s: State, run: seq<Label>, t: State)
    requires Runs(Init(), before, s) && Runs(s, run, t) && InnerRun(run) && Quiet(t)
    ensures t.status.Starting? <==> Doomed(s)
  {
    RunKeeps(Init(), before, s);
    RunDecides(s, run, t);
    QuietIsDoomedIff(t);
  }

  // ---------------------------------------------------------------------
  // The calls in progress can finish
  // ---------------------------------------------------------------------

  /** How many more steps a call can take. */
  function Rank(p: Position): nat {
    match p
    case Outside => 0
    case ReloadWaiting => 10
    case ReloadEntered => 9
    case ReloadClosing(_) => 8
    case ReloadClosed => 7
    case ReloadBuilding => 6
    case ReloadFailed => 5
    case ReloadBuilt(_) => 5
    case ReloadStarting(_) => 4
    case ReloadReturned(_, _) => 3
    case ReloadDiscarding(_) => 2
    case StopWaiting => 10
    case StopEntered => 9
    case StopClosing(_) => 8
    case StopClosed => 7
  }

  /** The steps left to the callers with numbers below n. */
  function Left(s: State, n: nat): nat { if n == 0 then 0 else Left(s, n - 1) + Rank(At(s, n - 1)) }

  /** The callers have numbers below n. */
  predicate Below(s: State, n: nat) { forall c :: c in s.callers ==> c < n }

  lemma {:induction false} LeftOfMove(s: State, t: State, c: nat, n: nat)
    requires forall d: nat :: d != c ==> At(t, d) == At(s, d)
    ensures Left(t, n) == if c < n then Left(s, n) - Rank(At(s, c)) + Rank(At(t, c)) else Left(s, n)
  {
    if n > 0 { LeftOfMove(s, t, c, n - 1); }
  }

  /** Only the caller moves, and it comes closer to its end. */
  predicate Closer(s: State, t: State, c: nat) {
    && c in s.callers && c in t.callers && t.callers == s.callers[c := t.callers[c]]
    && Rank(t.callers[c]) < Rank(s.callers[c])
  }

  lemma AcquireCloser(s: State, c: nat)
    requires Enabled(s, Acquire(c))
    ensures Closer(s, Step(s, Acquire(c)), c)
  {
  }

  lemma StopCloser(s: State, c: nat)
    requires Holding(At(s, c)) && Stops(At(s, c)) && InstancesKnown(s, At(s, c))
    ensures Closer(s, AdvanceStop(s, c), c)
  {
  }

  lemma ReloadCloser(s: State, c: nat, ok: bool)
    requires Holding(At(s, c)) && !Stops(At(s, c)) && InstancesKnown(s, At(s, c))
    ensures Closer(s, AdvanceReload(s, c, ok), c)
  {
  }

  lemma RankDescends(s: State, l: Label)
    requires Enabled(s, l) && Inner(l)
    ensures Closer(s, Step(s, l), l.caller)
  {
    match l
    case Acquire(c) => AcquireCloser(s, c);
    case Advance(c, ok) => if Stops(At(s, c)) { StopCloser(s, c); } else { ReloadCloser(s, c, ok); }
  }

  lemma StepDescends(s: State, l: Label, n: nat)
    requires Enabled(s, l) && Inner(l) && Below(s, n)
    ensures Left(Step(s, l), n) < Left(s, n) && Below(Step(s, l), n)
  {
    RankDescends(s, l);
    LeftOfMove(s, Step(s, l), l.caller, n);
  }

  lemma {:induction false} LeftAtMost(s: State, n: nat)
    ensures Left(s, n) <= 10 * n
  {
    if n > 0 { LeftAtMost(s, n - 1); }
  }

  lemma {:induction false} RunDescends(s: State, run: seq<Label>, t: State, n: nat)
    requires Runs(s, run, t) && InnerRun(run) && Below(s, n)
    ensures |run| + Left(t, n) <= Left(s, n)
    decreases |run|
  {
    if run != [] {
      StepDescends(s, run[0], n);
      RunDescends(Step(s, run[0]), run[1..], t, n);
    }
  }

  /** The calls of n callers end within 10 n steps of their own. */
  lemma CallsAreShort(s: State, run: seq<Label>, t: State, n: nat)
    requires Runs(s, run, t) && InnerRun(run) && Below(s, n)
    ensures |run| <= 10 * n
  {
    RunDescends(s, run, t, n);
    LeftAtMost(s, n);
  }

  /** The instances a holder speaks of exist. */
  lemma HolderCanAdvance(s: State, c: nat)
    requires Inv(s) && s.holder == Some(c)
    ensures Enabled(s, Advance(c, true))
  {
    assert Holding(At(s, c));
  }

  /** While a call is in progress, some call can take a step. */
  lemma CallsNeverStuck(before: seq<Label>, s: State) returns (l: Label)
    requires Runs(Init(), before, s) && !Quiet(s)
    ensures Inner(l) && Enabled(s, l)
  {
    RunKeeps(Init(), before, s);
    if s.holder.Some? {
      HolderCanAdvance(s, s.holder.value);
      l := Advance(s.holder.value, true);
    } else {
      var c :| c in s.callers && !s.callers[c].Outside?;
      assert !Holding(At(s, c));
      l := Acquire(c);
    }
  }

  /** A number above those of all callers. */
  lemma {:induction false} Above(keys: set<nat>) returns (n: nat)
    ensures forall c :: c in keys ==> c < n
    decreases keys
  {
    if keys == {} {
      n := 0;
    } else {
      var c :| c in keys;
      var m := Above(keys - {c});
      n := if c < m then m else c + 1;
      forall d | d in keys ensures d < n { if d != c { assert d in keys - {c}; } }
    }
  }

  lemma {:induction false} FinishFrom(before: seq<Label>, s: State, n: nat) returns (run: seq<Label>, t: State)
    requires Runs(Init(), before, s) && Below(s, n)
    ensures Runs(s, run, t) && InnerRun(run) && Quiet(t)
    decreases Left(s, n)
  {
    if Quiet(s) {
      run, t := [], s;
    } else {
      var l := CallsNeverStuck(before, s);
      var next := Step(s, l);
      StepDescends(s, l, n);
      OneStep(s, l);
      RunsConcat(Init(), before, s, [l], next);
      var rest;
      rest, t := FinishFrom(before + [l], next, n);
      run := [l] + rest;
      RunsConcat(s, [l], next, rest, t);
    }
  }

  /** From every reachable state the calls in progress can all come to an end
      without new calls, errors or a close; and the end is STARTING exactly as
      the state decides. */
  lemma CallsCanFinish(before: seq<Label>, s: State) returns (run: seq<Label>, t: State)
    requires Runs(Init(), before, s)
    ensures Runs(s, run, t) && InnerRun(run) && Quiet(t)
    ensures t.status.Starting? <==> Doomed(s)
  {
    var n := Above(s.callers.Keys);
    run, t := FinishFrom(before, s, n);
    LeftStartingIff(before, s, run, t);
  }
}

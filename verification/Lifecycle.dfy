/** The lifecycle of the daemon service: start or reload, stop, errors reported
    from outside, and the interruption of a running start.

    Any number of callers run concurrently. Two mutexes protect the service: the
    lifecycle mutex, held for the whole of a start/reload or stop after the
    interruption attempt, and the service mutex, held only for short sections.
    A section under the service mutex is one step of the state machine; what
    happens between two sections (closing an instance, building one, starting
    one) is one step of its own. */
module Lifecycle {
  import opened Optional

  datatype Status = Idle | Starting | Started | Stopping | Fatal

  /** An instance of the box service: its context may be cancelled before it is
      closed; closing cancels too. */
  datatype Instance = Instance(cancelled: bool, closed: bool)

  /** Where a caller is. The `Reload` positions belong to start-or-reload, the
      `Stop` positions to stop. */
  datatype Position =
    | Outside
    | ReloadWaiting                       // interruption attempted, lifecycle mutex wanted
    | ReloadEntered                       // lifecycle mutex held
    | ReloadClosing(previous: nat)          // closing the previous instance
    | ReloadClosed
    | ReloadBuilding                      // status STARTING, building the instance
    | ReloadFailed                        // building failed
    | ReloadBuilt(built: nat)
    | ReloadStarting(starting: nat)       // published, its Start is running
    | ReloadReturned(returned: nat, ok: bool)
    | ReloadDiscarding(discarded: nat)    // interrupted or failed, being closed
    | StopWaiting
    | StopEntered
    | StopClosing(target: Option<nat>)
    | StopClosed

  predicate Waiting(p: Position) { p.ReloadWaiting? || p.StopWaiting? }

  predicate Holding(p: Position) { !p.Outside? && !Waiting(p) }

  datatype State = State(
    status: Status,
    instance: Option<nat>,
    interrupted: bool,
    closed: bool,
    holder: Option<nat>,
    callers: map<nat, Position>,
    instances: seq<Instance>)

  function Init(): State { State(Idle, None, false, false, None, map[], []) }

  function At(s: State, c: nat): Position { if c in s.callers then s.callers[c] else Outside }

  function Move(s: State, c: nat, p: Position): State { s.(callers := s.callers[c := p]) }

  /** Leave the lifecycle mutex. */
  function Leave(s: State, c: nat): State { s.(callers := s.callers[c := Outside], holder := None) }

  function CloseInstance(s: State, i: nat): seq<Instance>
    requires i < |s.instances|
  {
    s.instances[i := Instance(true, true)]
  }

  // ---------------------------------------------------------------------
  // Steps
  // ---------------------------------------------------------------------

  /** The interruption attempt at the head of reload and stop. */
  function Interrupt(s: State): State {
    if s.status.Starting? && s.instance.Some? && s.instance.value < |s.instances| then
      s.(interrupted := true,
         instances := s.instances[s.instance.value := s.instances[s.instance.value].(cancelled := true)])
    else s
  }

  datatype Label =
    | BeginReload(caller: nat)
    | BeginStop(caller: nat)
    | Acquire(caller: nat)
    | Advance(caller: nat, ok: bool)    // the next section or action of the holder; ok where it can fail
    | SetError
    | Close

  predicate Enabled(s: State, l: Label) {
    match l
    case BeginReload(c) => At(s, c).Outside?
    case BeginStop(c) => At(s, c).Outside?
    case Acquire(c) => Waiting(At(s, c)) && s.holder.None?
    case Advance(c, _) => Holding(At(s, c)) && InstancesKnown(s, At(s, c))
    case SetError => true
    case Close => true
  }

  predicate InstancesKnown(s: State, p: Position) {
    match p
    case ReloadClosing(i) => i < |s.instances|
    case ReloadBuilt(i) => i < |s.instances|
    case ReloadStarting(i) => i < |s.instances|
    case ReloadReturned(i, _) => i < |s.instances|
    case ReloadDiscarding(i) => i < |s.instances|
    case StopClosing(t) => t.Some? ==> t.value < |s.instances|
    case _ => true
  }

  function AdvanceReload(s: State, c: nat, ok: bool): State
    requires Holding(At(s, c)) && InstancesKnown(s, At(s, c))
  {
    match At(s, c)
    case ReloadEntered =>
      if s.closed then Leave(s, c)
      else if s.instance.Some? then
        s.(instance := None, status := Stopping, callers := s.callers[c := ReloadClosing(s.instance.value)])
      else s.(interrupted := false, status := Starting, callers := s.callers[c := ReloadBuilding])
    case ReloadClosing(i) => s.(instances := CloseInstance(s, i), callers := s.callers[c := ReloadClosed])
    case ReloadClosed => s.(interrupted := false, status := Starting, callers := s.callers[c := ReloadBuilding])
    case ReloadBuilding =>
      if ok then s.(instances := s.instances + [Instance(false, false)],
                    callers := s.callers[c := ReloadBuilt(|s.instances|)])
      else Move(s, c, ReloadFailed)
    case ReloadFailed => Leave(s, c).(status := Fatal)
    case ReloadBuilt(i) => s.(instance := Some(i), callers := s.callers[c := ReloadStarting(i)])
    case ReloadStarting(i) => Move(s, c, ReloadReturned(i, ok))
    case ReloadReturned(i, started) =>
      if s.interrupted then
        s.(interrupted := false, instance := None, callers := s.callers[c := ReloadDiscarding(i)])
      else if !started then
        s.(instance := None, status := Fatal, callers := s.callers[c := ReloadDiscarding(i)])
      else Leave(s, c).(status := Started)
    case ReloadDiscarding(i) => Leave(s, c).(instances := CloseInstance(s, i))
    case _ => s
  }

  function AdvanceStop(s: State, c: nat): State
    requires Holding(At(s, c)) && InstancesKnown(s, At(s, c))
  {
    match At(s, c)
    case StopEntered =>
      if s.instance.None? && !s.status.Starting? && !s.status.Started? then Leave(s, c)
      else s.(instance := None, status := Stopping, callers := s.callers[c := StopClosing(s.instance)])
    case StopClosing(t) =>
      s.(instances := if t.Some? then CloseInstance(s, t.value) else s.instances, callers := s.callers[c := StopClosed])
    case StopClosed => Leave(s, c).(status := Idle)
    case _ => s
  }

  function Step(s: State, l: Label): State
    requires Enabled(s, l)
  {
    match l
    case BeginReload(c) => Move(Interrupt(s), c, ReloadWaiting)
    case BeginStop(c) => Move(Interrupt(s), c, StopWaiting)
    case Acquire(c) =>
      s.(holder := Some(c), callers := s.callers[c := if At(s, c).ReloadWaiting? then ReloadEntered else StopEntered])
    case Advance(c, ok) =>
      if At(s, c).StopEntered? || At(s, c).StopClosing? || At(s, c).StopClosed? then AdvanceStop(s, c)
      else AdvanceReload(s, c, ok)
    case SetError => s.(status := Fatal)
    case Close => s.(closed := true)
  }

  predicate Runs(s: State, run: seq<Label>, t: State)
    decreases |run|
  {
    if run == [] then s == t
    else Enabled(s, run[0]) && Runs(Step(s, run[0]), run[1..], t)
  }

  // ---------------------------------------------------------------------
  // Invariant
  // ---------------------------------------------------------------------

  predicate Live(s: State, i: nat) { i < |s.instances| && !s.instances[i].closed }

  ghost predicate OnlyLive(s: State, who: Option<nat>) {
    && (who.Some? ==> Live(s, who.value))
    && (forall i: nat :: Live(s, i) ==> who == Some(i))
  }

  predicate Interrupter(s: State) { exists c :: c in s.callers && Waiting(s.callers[c]) }

  /** Exactly the holder is inside the lifecycle mutex. */
  ghost predicate Mutex(s: State) {
    forall c: nat :: Holding(At(s, c)) <==> s.holder == Some(c)
  }

  /** What holds of the service fields while nobody, or a caller that has just
      entered, is inside. */
  ghost predicate Settled(s: State) {
    && !s.interrupted && OnlyLive(s, s.instance)
    && (s.instance.Some? ==> !s.instances[s.instance.value].cancelled && !s.status.Starting?)
    && !s.status.Stopping?
    && (s.status.Started? ==> s.instance.Some?)
  }

  ghost predicate Between(s: State, live: Option<nat>) {
    !s.interrupted && s.instance.None? && OnlyLive(s, live) && !s.status.Started?
  }

  /** What holds at each position of the holder. */
  ghost predicate HolderOk(s: State, p: Position) {
    match p
    case ReloadEntered => Settled(s)
    case ReloadClosing(i) => Between(s, Some(i)) && (s.status.Stopping? || s.status.Fatal?)
    case ReloadClosed => Between(s, None) && (s.status.Stopping? || s.status.Fatal?)
    case ReloadBuilding => Between(s, None) && (s.status.Starting? || s.status.Fatal?)
    case ReloadFailed => Between(s, None) && (s.status.Starting? || s.status.Fatal?)
    case ReloadBuilt(i) => Between(s, Some(i)) && !s.instances[i].cancelled && (s.status.Starting? || s.status.Fatal?)
    case ReloadStarting(i) => Publishing(s, i)
    case ReloadReturned(i, _) => Publishing(s, i)
    case ReloadDiscarding(i) =>
      Between(s, Some(i)) && (s.status.Fatal? || (s.status.Starting? && Interrupter(s)))
    case StopEntered => Settled(s)
    case StopClosing(t) => Between(s, t) && (s.status.Stopping? || s.status.Fatal?)
    case StopClosed => Between(s, None) && (s.status.Stopping? || s.status.Fatal?)
    case _ => true
  }

  /** A start is running: its instance is published and cancelled exactly when
      the start has been interrupted, and then an interrupter is waiting. */
  ghost predicate Publishing(s: State, i: nat) {
    && s.instance == Some(i) && OnlyLive(s, Some(i)) && (s.status.Starting? || s.status.Fatal?)
    && (s.instances[i].cancelled <==> s.interrupted) && (s.interrupted ==> Interrupter(s))
  }

  ghost predicate Inv(s: State) {
    && Mutex(s)
    && match s.holder
       case None => Settled(s) && (s.status.Starting? ==> s.closed || Interrupter(s))
       case Some(c) => HolderOk(s, At(s, c))
  }

  lemma StepKeeps(s: State, l: Label)
    requires Inv(s) && Enabled(s, l)
    ensures Inv(Step(s, l))
  {
    match l
    case BeginReload(c) => BeginKeeps(s, c, ReloadWaiting);
    case BeginStop(c) => BeginKeeps(s, c, StopWaiting);
    case Acquire(c) => AcquireKeeps(s, c);
    case Advance(c, ok) =>
      if At(s, c).StopEntered? || At(s, c).StopClosing? || At(s, c).StopClosed? {
        StopKeeps(s, c);
      } else {
        ReloadKeeps(s, c, ok);
      }
    case SetError => ErrorKeeps(s);
    case Close =>
      assert forall c: nat :: At(Step(s, l), c) == At(s, c);
  }

  lemma MoveMutex(s: State, t: State, c: nat, p: Position)
    requires Mutex(s) && t.callers == s.callers[c := p]
    requires if Holding(p) then t.holder == Some(c) && (s.holder == None || s.holder == Some(c))
             else t.holder == if s.holder == Some(c) then None else s.holder
    ensures Mutex(t)
  {
    forall d: nat ensures Holding(At(t, d)) <==> t.holder == Some(d) {
      if d != c { assert At(t, d) == At(s, d); }
    }
  }

  lemma BeginKeeps(s: State, c: nat, p: Position)
    requires Inv(s) && At(s, c).Outside? && Waiting(p)
    ensures Inv(Move(Interrupt(s), c, p))
  {
    var t := Move(Interrupt(s), c, p);
    MoveMutex(s, t, c, p);
    assert t.callers[c] == p;
    assert Interrupter(t);
    if s.holder.Some? {
      assert At(t, s.holder.value) == At(s, s.holder.value);
      InterruptKeeps(s, t, At(s, s.holder.value));
    }
  }

  lemma InterruptKeeps(s: State, t: State, p: Position)
    requires HolderOk(s, p) && Holding(p) && Interrupter(t)
    requires t == Interrupt(s).(callers := t.callers)
    ensures HolderOk(t, p)
  {
    assert forall i: nat :: Live(t, i) <==> Live(s, i);
  }

  lemma AcquireKeeps(s: State, c: nat)
    requires Inv(s) && Waiting(At(s, c)) && s.holder.None?
    ensures Inv(Step(s, Acquire(c)))
  {
    var t := Step(s, Acquire(c));
    MoveMutex(s, t, c, At(t, c));
    assert forall i: nat :: Live(t, i) <==> Live(s, i);
  }

  lemma StopKeeps(s: State, c: nat)
    requires Inv(s) && Holding(At(s, c)) && InstancesKnown(s, At(s, c))
    requires At(s, c).StopEntered? || At(s, c).StopClosing? || At(s, c).StopClosed?
    ensures Inv(AdvanceStop(s, c))
  {
    var t := AdvanceStop(s, c);
    MoveMutex(s, t, c, At(t, c));
  }

  /** Closing the only live instance leaves none. */
  lemma CloseOnly(s: State, t: State, i: nat)
    requires i < |s.instances| && OnlyLive(s, Some(i)) && t.instances == CloseInstance(s, i)
    ensures OnlyLive(t, None)
  {
    forall j: nat | Live(t, j) ensures false {
      if j != i { assert Live(s, j); }
    }
  }

  lemma OtherWaiting(s: State, t: State, c: nat, p: Position)
    requires Interrupter(s) && !Waiting(At(s, c)) && t.callers == s.callers[c := p]
    ensures Interrupter(t)
  {
    var d :| d in s.callers && Waiting(s.callers[d]);
    assert d != c && t.callers[d] == s.callers[d];
  }

  lemma EnteredKeeps(s: State, c: nat, ok: bool)
    requires Inv(s) && At(s, c).ReloadEntered?
    ensures Inv(AdvanceReload(s, c, ok))
  {
    var t := AdvanceReload(s, c, ok);
    MoveMutex(s, t, c, At(t, c));
    assert forall i: nat :: Live(t, i) <==> Live(s, i);
  }

  lemma ClosingKeeps(s: State, c: nat, ok: bool)
    requires Inv(s) && (At(s, c).ReloadClosing? || At(s, c).ReloadClosed?) && InstancesKnown(s, At(s, c))
    ensures Inv(AdvanceReload(s, c, ok))
  {
    var t := AdvanceReload(s, c, ok);
    MoveMutex(s, t, c, At(t, c));
    if At(s, c).ReloadClosing? { CloseOnly(s, t, At(s, c).previous); }
  }

  lemma BuildingKeeps(s: State, c: nat, ok: bool)
    requires Inv(s) && (At(s, c).ReloadBuilding? || At(s, c).ReloadFailed?)
    ensures Inv(AdvanceReload(s, c, ok))
  {
    var t := AdvanceReload(s, c, ok);
    MoveMutex(s, t, c, At(t, c));
    if At(s, c).ReloadBuilding? && ok {
      forall j: nat | Live(t, j) ensures j == |s.instances| { if j < |s.instances| { assert Live(s, j); } }
    }
  }

  lemma StartingKeeps(s: State, c: nat, ok: bool)
    requires Inv(s) && (At(s, c).ReloadBuilt? || At(s, c).ReloadStarting?) && InstancesKnown(s, At(s, c))
    ensures Inv(AdvanceReload(s, c, ok))
  {
    var t := AdvanceReload(s, c, ok);
    MoveMutex(s, t, c, At(t, c));
    if Interrupter(s) { OtherWaiting(s, t, c, At(t, c)); }
    assert forall i: nat :: Live(t, i) <==> Live(s, i);
  }

  lemma ReturnedKeeps(s: State, c: nat, ok: bool)
    requires Inv(s) && At(s, c).ReloadReturned? && InstancesKnown(s, At(s, c))
    ensures Inv(AdvanceReload(s, c, ok))
  {
    var t := AdvanceReload(s, c, ok);
    MoveMutex(s, t, c, At(t, c));
    if Interrupter(s) { OtherWaiting(s, t, c, At(t, c)); }
    assert forall i: nat :: Live(t, i) <==> Live(s, i);
  }

  lemma DiscardingKeeps(s: State, c: nat, ok: bool)
    requires Inv(s) && At(s, c).ReloadDiscarding? && InstancesKnown(s, At(s, c))
    ensures Inv(AdvanceReload(s, c, ok))
  {
    var t := AdvanceReload(s, c, ok);
    MoveMutex(s, t, c, At(t, c));
    if Interrupter(s) { OtherWaiting(s, t, c, At(t, c)); }
    CloseOnly(s, t, At(s, c).discarded);
  }

  lemma ReloadKeeps(s: State, c: nat, ok: bool)
    requires Inv(s) && Holding(At(s, c)) && InstancesKnown(s, At(s, c))
    requires !At(s, c).StopEntered? && !At(s, c).StopClosing? && !At(s, c).StopClosed?
    ensures Inv(AdvanceReload(s, c, ok))
  {
    match At(s, c)
    case ReloadEntered => EnteredKeeps(s, c, ok);
    case ReloadClosing(_) => ClosingKeeps(s, c, ok);
    case ReloadClosed => ClosingKeeps(s, c, ok);
    case ReloadBuilding => BuildingKeeps(s, c, ok);
    case ReloadFailed => BuildingKeeps(s, c, ok);
    case ReloadBuilt(_) => StartingKeeps(s, c, ok);
    case ReloadStarting(_) => StartingKeeps(s, c, ok);
    case ReloadReturned(_, _) => ReturnedKeeps(s, c, ok);
    case ReloadDiscarding(_) => DiscardingKeeps(s, c, ok);
  }

  lemma ErrorKeeps(s: State)
    requires Inv(s)
    ensures Inv(s.(status := Fatal))
  {
    var t := s.(status := Fatal);
    assert forall c: nat :: At(t, c) == At(s, c);
    assert forall i: nat :: Live(t, i) <==> Live(s, i);
  }

  // ---------------------------------------------------------------------
  // Results over every run
  // ---------------------------------------------------------------------

  lemma {:induction false} RunKeeps(s: State, run: seq<Label>, t: State)
    requires Inv(s) && Runs(s, run, t)
    ensures Inv(t)
    decreases |run|
  {
    if run != [] {
      StepKeeps(s, run[0]);
      RunKeeps(Step(s, run[0]), run[1..], t);
    }
  }

  /** At most one instance is ever live. */
  lemma AtMostOneLive(run: seq<Label>, t: State, i: nat, j: nat)
    requires Runs(Init(), run, t) && Live(t, i) && Live(t, j)
    ensures i == j
  {
    RunKeeps(Init(), run, t);
    if t.holder.Some? {
      assert Holding(At(t, t.holder.value));
    }
  }

  /** The service reports STARTED only with an instance that is neither closed
      nor cancelled: an interrupted start never gets there. */
  lemma StartedIsRunning(run: seq<Label>, t: State)
    requires Runs(Init(), run, t) && t.status.Started?
    ensures t.instance.Some? && Live(t, t.instance.value) && !t.instances[t.instance.value].cancelled
  {
    RunKeeps(Init(), run, t);
    if t.holder.Some? {
      assert Holding(At(t, t.holder.value));
    }
  }

  lemma {:induction false} CancelIsForever(s: State, run: seq<Label>, t: State, i: nat)
    requires Runs(s, run, t) && i < |s.instances| && s.instances[i].cancelled
    ensures i < |t.instances| && t.instances[i].cancelled
    decreases |run|
  {
    if run != [] {
      CancelIsForever(Step(s, run[0]), run[1..], t, i);
    }
  }

  /** Once a start has been interrupted, its instance is never the one behind a
      STARTED status, however the run continues. */
  lemma InterruptedStartNeverStarts(before: seq<Label>, s: State, after: seq<Label>, t: State, i: nat)
    requires Runs(Init(), before, s) && Runs(s, after, t) && i < |s.instances| && s.instances[i].cancelled
    requires t.status.Started?
    ensures t.instance != Some(i)
  {
    CancelIsForever(s, after, t, i);
    RunKeeps(Init(), before, s);
    RunKeeps(s, after, t);
    if t.holder.Some? {
      assert Holding(At(t, t.holder.value));
    }
  }

  /** With no call in progress the service is idle, started or failed; only a
      closed one may also be left starting. */
  lemma QuiescentStatus(run: seq<Label>, t: State)
    requires Runs(Init(), run, t) && (forall c :: c in t.callers ==> t.callers[c].Outside?)
    ensures t.status.Idle? || t.status.Started? || t.status.Fatal? || (t.status.Starting? && t.closed)
  {
    RunKeeps(Init(), run, t);
    assert forall c: nat :: !Holding(At(t, c));
  }

  lemma {:induction false} RunsConcat(s: State, a: seq<Label>, t: State, b: seq<Label>, u: State)
    requires Runs(s, a, t) && Runs(t, b, u)
    ensures Runs(s, a + b, u)
    decreases |a|
  {
    if a == [] {
      assert a + b == b;
    } else {
      RunsConcat(Step(s, a[0]), a[1..], t, b, u);
      assert (a + b)[1..] == a[1..] + b;
    }
  }

  lemma OneStep(s: State, l: Label)
    requires Enabled(s, l)
    ensures Runs(s, [l], Step(s, l))
  {
    assert [l][1..] == [];
  }

  /** A start is running: its instance is published. */
  function Launching(): State {
    State(Starting, Some(0), false, false, Some(0), map[0 := ReloadStarting(0)], [Instance(false, false)])
  }

  /** The same start, interrupted by a second reload, on a closed service. */
  function Abandoned(): State {
    State(Starting, Some(0), true, true, Some(0), map[0 := ReloadStarting(0), 1 := ReloadWaiting],
          [Instance(true, false)])
  }

  function Stranded(): State {
    State(Starting, None, false, true, None, map[0 := Outside, 1 := Outside], [Instance(true, true)])
  }

  lemma ReachLaunching() returns (run: seq<Label>)
    ensures Runs(Init(), run, Launching())
  {
    var s1 := Step(Init(), BeginReload(0));
    var s2 := Step(s1, Acquire(0));
    var s3 := Step(s2, Advance(0, true));
    var s4 := Step(s3, Advance(0, true));
    OneStep(Init(), BeginReload(0));
    OneStep(s1, Acquire(0));
    OneStep(s2, Advance(0, true));
    OneStep(s3, Advance(0, true));
    OneStep(s4, Advance(0, true));
    assert Step(s4, Advance(0, true)) == Launching();
    RunsConcat(Init(), [BeginReload(0)], s1, [Acquire(0)], s2);
    RunsConcat(s2, [Advance(0, true)], s3, [Advance(0, true)], s4);
    RunsConcat(s2, [Advance(0, true)] + [Advance(0, true)], s4, [Advance(0, true)], Launching());
    run := [BeginReload(0)] + [Acquire(0)] + ([Advance(0, true)] + [Advance(0, true)] + [Advance(0, true)]);
    RunsConcat(Init(), [BeginReload(0)] + [Acquire(0)], s2,
               [Advance(0, true)] + [Advance(0, true)] + [Advance(0, true)], Launching());
  }

  /** The interrupted reload leaves. */
  lemma AbandonedLeaves(t: State) returns (run: seq<Label>)
    requires t == Abandoned().(callers := map[0 := Outside, 1 := ReloadWaiting], holder := None, instance := None,
                               interrupted := false, instances := [Instance(true, true)])
    ensures Runs(Abandoned(), run, t)
  {
    var s0 := Abandoned();
    var s1 := Step(s0, Advance(0, true));
    var s2 := Step(s1, Advance(0, true));
    OneStep(s0, Advance(0, true));
    OneStep(s1, Advance(0, true));
    OneStep(s2, Advance(0, true));
    assert Step(s2, Advance(0, true)) == t;
    RunsConcat(s0, [Advance(0, true)], s1, [Advance(0, true)], s2);
    run := [Advance(0, true)] + [Advance(0, true)] + [Advance(0, true)];
    RunsConcat(s0, [Advance(0, true)] + [Advance(0, true)], s2, [Advance(0, true)], t);
  }

  lemma ReachStranded() returns (run: seq<Label>)
    ensures Runs(Abandoned(), run, Stranded())
  {
    var s := Abandoned().(callers := map[0 := Outside, 1 := ReloadWaiting], holder := None, instance := None,
                          interrupted := false, instances := [Instance(true, true)]);
    var first := AbandonedLeaves(s);
    var t := Step(s, Acquire(1));
    OneStep(s, Acquire(1));
    OneStep(t, Advance(1, true));
    assert Step(t, Advance(1, true)) == Stranded();
    RunsConcat(s, [Acquire(1)], t, [Advance(1, true)], Stranded());
    run := first + ([Acquire(1)] + [Advance(1, true)]);
    RunsConcat(Abandoned(), first, s, [Acquire(1)] + [Advance(1, true)], Stranded());
  }

  /** The condition that the service is open is needed: closing it while an
      interrupted reload waits leaves the status STARTING behind. */
  lemma ClosedServiceMayHangStarting() returns (run: seq<Label>, t: State)
    ensures Runs(Init(), run, t) && t.closed && t.status.Starting?
    ensures forall c :: c in t.callers ==> t.callers[c].Outside?
  {
    var a := ReachLaunching();
    var s := Step(Launching(), BeginReload(1));
    OneStep(Launching(), BeginReload(1));
    OneStep(s, Close);
    assert Step(s, Close) == Abandoned();
    var b := ReachStranded();
    RunsConcat(Launching(), [BeginReload(1)], s, [Close], Abandoned());
    RunsConcat(Launching(), [BeginReload(1)] + [Close], Abandoned(), b, Stranded());
    RunsConcat(Init(), a, Launching(), [BeginReload(1)] + [Close] + b, Stranded());
    run, t := a + ([BeginReload(1)] + [Close] + b), Stranded();
  }
}

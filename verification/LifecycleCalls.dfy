/** What one call of start-or-reload or stop achieves, whatever else goes on
    while it runs: told from what happened during the call. */
module LifecycleCalls {
  import opened Optional
  import opened Lifecycle

  /** What happened during a reload: whether the service was closed when the call
      got in, whether building succeeded and which instance it made, whether its
      start succeeded, and whether another call came in while the instance was
      published and the service STARTING. */
  datatype Story = Story(refused: bool, built: Option<bool>, own: nat, returned: Option<bool>, interrupted: bool)

  const BLANK: Story := Story(false, None, 0, None, false)

  predicate IsPublished(p: Position) { p.ReloadStarting? || p.ReloadReturned? }

  /** What a label that happens in state s adds to the story of caller c. */
  function Note(s: State, l: Label, c: nat, x: Story): Story {
    match l
    case Advance(d, ok) =>
      if d != c then x
      else if At(s, c).ReloadEntered? then x.(refused := s.closed)
      else if At(s, c).ReloadBuilding? then x.(built := Some(ok), own := |s.instances|)
      else if At(s, c).ReloadStarting? then x.(returned := Some(ok))
      else x
    case BeginReload(_) => if IsPublished(At(s, c)) && s.status.Starting? then x.(interrupted := true) else x
    case BeginStop(_) => if IsPublished(At(s, c)) && s.status.Starting? then x.(interrupted := true) else x
    case _ => x
  }

  function Tell(s: State, run: seq<Label>, c: nat, x: Story): Story
    decreases |run|
  {
    if run == [] || !Enabled(s, run[0]) then x else Tell(Step(s, run[0]), run[1..], c, Note(s, run[0], c, x))
  }

  /** The caller stays inside the lifecycle mutex until the last label of the run. */
  predicate StaysIn(s: State, run: seq<Label>, c: nat)
    decreases |run|
  {
    run != [] && Enabled(s, run[0]) ==> Holding(At(s, c)) && StaysIn(Step(s, run[0]), run[1..], c)
  }

  predicate Reloads(p: Position) {
    || p.ReloadEntered? || p.ReloadClosing? || p.ReloadClosed? || p.ReloadBuilding? || p.ReloadFailed?
    || p.ReloadBuilt? || p.ReloadStarting? || p.ReloadReturned? || p.ReloadDiscarding?
  }

  /** How far the story has come at each position of a reload. */
  predicate Tracks(s: State, p: Position, x: Story) {
    && !x.refused
    && match p
       case ReloadFailed => x == Story(false, Some(false), x.own, None, false)
       case ReloadBuilt(i) => x == Story(false, Some(true), i, None, false)
       case ReloadStarting(i) => x == Story(false, Some(true), i, None, s.interrupted)
       case ReloadReturned(i, ok) => x == Story(false, Some(true), i, Some(ok), s.interrupted)
       case ReloadDiscarding(i) =>
         && x == Story(false, Some(true), i, x.returned, x.interrupted) && x.returned.Some?
         && (x.interrupted || (x.returned == Some(false) && s.status.Fatal?))
       case _ => x == BLANK
  }

  /** What a reload has achieved when it leaves. */
  ghost predicate Achieves(s: State, t: State, x: Story) {
    if x.refused then t.status == s.status && t.instance == s.instance && t.instances == s.instances
    else if x.built == Some(true) && x.returned == Some(true) && !x.interrupted then
      && t.status.Started? && t.instance == Some(x.own) && OnlyLive(t, Some(x.own))
      && !t.instances[x.own].cancelled
    else
      && t.instance.None? && OnlyLive(t, None)
      && (if x.interrupted then t.status.Starting? || t.status.Fatal? else t.status.Fatal?)
  }

  // ---------------------------------------------------------------------
  // One step
  // ---------------------------------------------------------------------

  lemma EnteredTells(s: State, c: nat, ok: bool, x: Story)
    requires Inv(s) && At(s, c).ReloadEntered? && Tracks(s, At(s, c), x)
    ensures var t, y := AdvanceReload(s, c, ok), Note(s, Advance(c, ok), c, x);
            if At(t, c).Outside? then Achieves(s, t, y) else Reloads(At(t, c)) && Tracks(t, At(t, c), y)
  {
  }

  lemma PreparingTells(s: State, c: nat, ok: bool, x: Story)
    requires Inv(s) && InstancesKnown(s, At(s, c)) && Tracks(s, At(s, c), x)
    requires var p := At(s, c);
             p.ReloadClosing? || p.ReloadClosed? || p.ReloadBuilding? || p.ReloadBuilt? || p.ReloadStarting?
    ensures var t, y := AdvanceReload(s, c, ok), Note(s, Advance(c, ok), c, x);
            Reloads(At(t, c)) && Tracks(t, At(t, c), y)
  {
    assert s.holder == Some(c);
  }

  lemma FailedTells(s: State, c: nat, ok: bool, x: Story)
    requires Inv(s) && At(s, c).ReloadFailed? && Tracks(s, At(s, c), x)
    ensures var t, y := AdvanceReload(s, c, ok), Note(s, Advance(c, ok), c, x);
            At(t, c).Outside? && Achieves(s, t, y)
  {
    assert s.holder == Some(c);
    assert forall i: nat :: Live(AdvanceReload(s, c, ok), i) <==> Live(s, i);
  }

  lemma ReturnedTells(s: State, c: nat, ok: bool, x: Story)
    requires Inv(s) && At(s, c).ReloadReturned? && InstancesKnown(s, At(s, c)) && Tracks(s, At(s, c), x)
    ensures var t, y := AdvanceReload(s, c, ok), Note(s, Advance(c, ok), c, x);
            if At(t, c).Outside? then Achieves(s, t, y) else Reloads(At(t, c)) && Tracks(t, At(t, c), y)
  {
    assert s.holder == Some(c);
    assert forall i: nat :: Live(AdvanceReload(s, c, ok), i) <==> Live(s, i);
  }

  lemma DiscardingTells(s: State, c: nat, ok: bool, x: Story)
    requires Inv(s) && At(s, c).ReloadDiscarding? && InstancesKnown(s, At(s, c)) && Tracks(s, At(s, c), x)
    ensures var t, y := AdvanceReload(s, c, ok), Note(s, Advance(c, ok), c, x);
            At(t, c).Outside? && Achieves(s, t, y)
  {
    assert s.holder == Some(c);
    CloseOnly(s, AdvanceReload(s, c, ok), At(s, c).discarded);
  }

  lemma ReloadStep(s: State, c: nat, ok: bool)
    requires Reloads(At(s, c)) && Enabled(s, Advance(c, ok))
    ensures Step(s, Advance(c, ok)) == AdvanceReload(s, c, ok)
  {
  }

  lemma AdvanceTells(s: State, c: nat, ok: bool, x: Story)
    requires Inv(s) && Reloads(At(s, c)) && Enabled(s, Advance(c, ok)) && Tracks(s, At(s, c), x)
    ensures var t, y := Step(s, Advance(c, ok)), Note(s, Advance(c, ok), c, x);
            if At(t, c).Outside? then Achieves(s, t, y) else Reloads(At(t, c)) && Tracks(t, At(t, c), y)
  {
    ReloadStep(s, c, ok);
    match At(s, c)
    case ReloadEntered => EnteredTells(s, c, ok, x);
    case ReloadFailed => FailedTells(s, c, ok, x);
    case ReloadReturned(_, _) => ReturnedTells(s, c, ok, x);
    case ReloadDiscarding(_) => DiscardingTells(s, c, ok, x);
    case _ => PreparingTells(s, c, ok, x);
  }

  /** While the caller is inside, the others can only knock. */
  lemma OthersKnock(s: State, l: Label, c: nat)
    requires Inv(s) && Holding(At(s, c)) && Enabled(s, l)
    ensures (l.Advance? && l.caller == c) || l.BeginReload? || l.BeginStop? || l.SetError? || l.Close?
    ensures !l.Advance? ==> At(Step(s, l), c) == At(s, c)
  {
    assert s.holder == Some(c);
  }

  lemma KnockTells(s: State, l: Label, c: nat, x: Story)
    requires Inv(s) && Reloads(At(s, c)) && Enabled(s, l) && !l.Advance? && Tracks(s, At(s, c), x)
    ensures Reloads(At(Step(s, l), c)) && Tracks(Step(s, l), At(s, c), Note(s, l, c, x))
  {
    OthersKnock(s, l, c);
    assert s.holder == Some(c);
  }

  // ---------------------------------------------------------------------
  // The whole call
  // ---------------------------------------------------------------------

  lemma {:induction false} ReloadTells(s: State, run: seq<Label>, u: State, c: nat, ok: bool, t: State, x: Story)
    requires Inv(s) && Reloads(At(s, c)) && Tracks(s, At(s, c), x)
    requires Runs(s, run, u) && StaysIn(s, run, c) && Holding(At(u, c))
    requires Enabled(u, Advance(c, ok)) && t == Step(u, Advance(c, ok)) && At(t, c).Outside?
    ensures Achieves(u, t, Note(u, Advance(c, ok), c, Tell(s, run, c, x)))
    decreases |run|
  {
    if run == [] {
      AdvanceTells(s, c, ok, x);
    } else {
      var l := run[0];
      var s' := Step(s, l);
      StepKeeps(s, l);
      OthersKnock(s, l, c);
      if l.Advance? {
        AdvanceTells(s, c, l.ok, x);
      } else {
        KnockTells(s, l, c, x);
      }
      ReloadTells(s', run[1..], u, c, ok, t, Note(s, l, c, x));
    }
  }

  /** A call of reload, from the moment it has the lifecycle mutex until it leaves,
      with any number of other calls, errors and closes in between. It ends
      STARTED, and then with its own instance, if and only if the service was
      not closed, the instance was built, its start succeeded and no call came in
      meanwhile; a reload of a closed service changes nothing; every other reload
      ends with no instance and everything closed, FATAL unless it was interrupted. */
  lemma ReloadAchieves(before: seq<Label>, s: State, run: seq<Label>, u: State, c: nat, ok: bool, t: State)
    requires Runs(Init(), before, s) && At(s, c).ReloadEntered?
    requires Runs(s, run, u) && StaysIn(s, run, c) && Holding(At(u, c))
    requires Enabled(u, Advance(c, ok)) && t == Step(u, Advance(c, ok)) && At(t, c).Outside?
    ensures var x := Note(u, Advance(c, ok), c, Tell(s, run, c, BLANK));
            && Achieves(u, t, x)
            && (!x.refused ==>
                  (t.status.Started? <==> x.built == Some(true) && x.returned == Some(true) && !x.interrupted))
  {
    RunKeeps(Init(), before, s);
    ReloadTells(s, run, u, c, ok, t, BLANK);
  }

  // ---------------------------------------------------------------------
  // Stop
  // ---------------------------------------------------------------------

  /** There is something to stop: an instance, or a start that has not ended. */
  predicate Something(s: State) { s.instance.Some? || s.status.Starting? || s.status.Started? }

  predicate Stops(p: Position) { p.StopEntered? || p.StopClosing? || p.StopClosed? }

  /** Whether the stop found something, once its first section is over. */
  function Find(s: State, run: seq<Label>, c: nat, found: bool): bool
    decreases |run|
  {
    if run == [] || !Enabled(s, run[0]) then found
    else Find(Step(s, run[0]), run[1..], c, FindOne(s, run[0], c, found))
  }

  function FindOne(s: State, l: Label, c: nat, found: bool): bool {
    if l.Advance? && l.caller == c && At(s, c).StopEntered? then Something(s) else found
  }

  /** What a stop has achieved when it leaves. */
  ghost predicate Ceases(s: State, t: State, found: bool) {
    && t.instance.None? && OnlyLive(t, None)
    && (if found then t.status.Idle? else t.status == s.status && t.instances == s.instances)
  }

  lemma AdvanceStops(s: State, c: nat, ok: bool, found: bool)
    requires Inv(s) && Stops(At(s, c)) && Enabled(s, Advance(c, ok)) && (At(s, c).StopEntered? || found)
    ensures var t, y := Step(s, Advance(c, ok)), FindOne(s, Advance(c, ok), c, found);
            if At(t, c).Outside? then Ceases(s, t, y) else Stops(At(t, c)) && y && !At(t, c).StopEntered?
  {
    assert s.holder == Some(c);
    assert At(s, c).StopEntered? || At(s, c).StopClosed? ==>
             forall i: nat :: Live(Step(s, Advance(c, ok)), i) <==> Live(s, i);
  }

  lemma {:induction false} StopTells(s: State, run: seq<Label>, u: State, c: nat, ok: bool, t: State, found: bool)
    requires Inv(s) && Stops(At(s, c)) && (At(s, c).StopEntered? || found)
    requires Runs(s, run, u) && StaysIn(s, run, c) && Holding(At(u, c))
    requires Enabled(u, Advance(c, ok)) && t == Step(u, Advance(c, ok)) && At(t, c).Outside?
    ensures Ceases(u, t, FindOne(u, Advance(c, ok), c, Find(s, run, c, found)))
    decreases |run|
  {
    if run == [] {
      AdvanceStops(s, c, ok, found);
    } else {
      var l := run[0];
      StepKeeps(s, l);
      OthersKnock(s, l, c);
      if l.Advance? { AdvanceStops(s, c, l.ok, found); }
      StopTells(Step(s, l), run[1..], u, c, ok, t, FindOne(s, l, c, found));
    }
  }

  /** A call of stop, from the moment it has the lifecycle mutex until it leaves:
      no instance is left and everything is closed. It ends IDLE when its first
      section found something to stop, and otherwise has changed nothing. */
  lemma StopAchieves(before: seq<Label>, s: State, run: seq<Label>, u: State, c: nat, ok: bool, t: State)
    requires Runs(Init(), before, s) && At(s, c).StopEntered?
    requires Runs(s, run, u) && StaysIn(s, run, c) && Holding(At(u, c))
    requires Enabled(u, Advance(c, ok)) && t == Step(u, Advance(c, ok)) && At(t, c).Outside?
    ensures Ceases(u, t, FindOne(u, Advance(c, ok), c, Find(s, run, c, false)))
  {
    RunKeeps(Init(), before, s);
    StopTells(s, run, u, c, ok, t, false);
  }

  // ---------------------------------------------------------------------
  // Errors and closing
  // ---------------------------------------------------------------------

  /** An error reported from outside shows as FATAL until a call gets on with its
      work. */
  lemma {:induction false} ErrorsShow(s: State, run: seq<Label>, t: State)
    requires Runs(Step(s, SetError), run, t) && forall i :: 0 <= i < |run| ==> !run[i].Advance?
    ensures t.status.Fatal?
  {
    StaysFatal(Step(s, SetError), run, t);
  }

  lemma {:induction false} StaysFatal(s: State, run: seq<Label>, t: State)
    requires s.status.Fatal? && Runs(s, run, t) && forall i :: 0 <= i < |run| ==> !run[i].Advance?
    ensures t.status.Fatal?
    decreases |run|
  {
    if run != [] { StaysFatal(Step(s, run[0]), run[1..], t); }
  }

  /** Once closed, a service stays closed, and refuses every reload that gets in. */
  lemma {:induction false} ClosedForGood(s: State, run: seq<Label>, t: State, c: nat, ok: bool)
    requires Runs(Step(s, Close), run, t)
    ensures t.closed
    ensures At(t, c).ReloadEntered? ==>
              var u := Step(t, Advance(c, ok));
              At(u, c).Outside? && u.status == t.status && u.instance == t.instance && u.instances == t.instances
  {
    StaysClosed(Step(s, Close), run, t);
  }

  lemma {:induction false} StaysClosed(s: State, run: seq<Label>, t: State)
    requires s.closed && Runs(s, run, t)
    ensures t.closed
    decreases |run|
  {
    if run != [] { StaysClosed(Step(s, run[0]), run[1..], t); }
  }
}

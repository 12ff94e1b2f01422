/** One rule visit, one sweep and one check keep the invariant of the walk. */
module WalkVisit {
  import opened Optional
  import opened QueryOptions
  import opened RuleWalk
  import opened SequentialRules
  import opened WalkInvariant

  // ---------------------------------------------------------------------
  // The path of the sequential interpreter
  // ---------------------------------------------------------------------

  lemma {:induction false} ArrivalEarlier(e: Env, i: nat, j: nat)
    requires i <= j <= |e.rules| && Arrival(e, j).Some?
    ensures Arrival(e, i).Some?
  {
    if i < j { ArrivalEarlier(e, i, j - 1); }
  }

  /** Switching the race rules off changes no other rule. */
  lemma CalmStep(e: Env, i: nat, q: Memory)
    requires i < |e.rules|
    ensures StepRule(Calm(e), i, q) == if e.rules[i].Armable() then Proceed(q) else StepRule(e, i, q)
  {
    if !e.rules[i].Armable() {
      assert Calm(e).rules[i] == e.rules[i];
    }
  }

  lemma NextArrival(e: Env, i: nat, q: Memory)
    requires i < |e.rules| && Arrival(Calm(e), i) == Some(q)
    ensures Arrival(Calm(e), i + 1) ==
            match StepRule(Calm(e), i, q) { case Decide(_) => None case Proceed(q') => Some(q') }
  {
  }

  /** With no race rule left armed, the decision of the sequential reading is a
      characterised outcome. */
  lemma CalmDecides(e: Env, s: State, o: Outcome)
    requires OnPath(e, s) && RacesAccounted(e, s, s.ruleIndex) && s.armed == []
    requires if s.ruleIndex < |e.rules| then StepRule(Calm(e), s.ruleIndex, Abs(e, s)) == Decide(o)
             else o == Fallback(e, Abs(e, s))
    ensures Characterised(e, o)
  {
    var i := s.ruleIndex;
    ArrivalInterprets(Calm(e), i);
    forall r: nat | Contends(e, r) ensures Contention(e, r) == None {
      if r >= i {
        CalmStep(e, i, Abs(e, s));
        if r > i {
          NextArrival(e, i, Abs(e, s));
          ArrivalEarlier(Calm(e), i + 1, r);
        }
      }
    }
  }

  // ---------------------------------------------------------------------
  // Sweeping
  // ---------------------------------------------------------------------

  predicate Held(e: Env, s: State, bound: nat) {
    && (forall i :: 0 <= i < |s.armed| ==> ArmedOk(e, s, s.armed[i]) && Anchored(e, s, s.armed[i]))
    && (forall r :: r in Indices(s.armed) ==> r < bound)
    && Ascending(s.armed) && RacesAccounted(e, s, bound) && JudgedOnce(s, bound)
  }

  lemma DistinctConcat(a: seq<nat>, b: seq<nat>)
    requires Distinct(a) && Distinct(b) && (forall x :: x in b ==> x !in a)
    ensures Distinct(a + b)
  {
    forall i, j | 0 <= i < j < |a + b| ensures (a + b)[i] != (a + b)[j] {
      if i < |a| <= j { assert b[j - |a|] in b; }
    }
  }

  lemma SweepJudgesOnce(e: Env, s: State, bound: nat)
    requires InRange(e, s.armed) && Held(e, s, bound)
    ensures JudgedOnce(AfterSweep(s, Sweep(e, s, s.armed)), bound)
  {
    SweepSplits(e, s, s.armed);
    var r := Sweep(e, s, s.armed);
    forall x | x in r.judged ensures x in Indices(s.armed) { assert x in Elements(r.judged); }
    forall x | x in s.judged + r.judged ensures x !in Indices(r.kept) {
      if x in r.judged { assert x in Elements(r.judged); }
    }
    DistinctConcat(s.judged, r.judged);
  }

  lemma SweepKeepsHeld(e: Env, s: State, t: State, bound: nat)
    requires WellFormed(e.rules) && Names(s) && Responses(e, s) && AllSettled(s) && Held(e, s, bound)
    requires InRange(e, s.armed) && Sweep(e, s, s.armed).commit.None? && t == AfterSweep(s, Sweep(e, s, s.armed))
    ensures Held(e, t, bound)
  {
    SweepJudgesOnce(e, s, bound);
    SweepSplits(e, s, s.armed);
    SweepKeepsArmed(e, s, s.armed);
    forall i | 0 <= i < |t.armed| ensures ArmedOk(e, t, t.armed[i]) && Anchored(e, t, t.armed[i]) {
      assert t.armed[i] in s.armed;
      SameFuturesArmed(e, s, t, t.armed[i]);
    }
    forall x: nat | x < bound && Contends(e, x)
      ensures x in Indices(t.armed) || Contention(e, x) == None
    {
      if x in Indices(s.armed) { SweepDropSound(e, s, x); }
    }
  }

  // ---------------------------------------------------------------------
  // Where a visit may land
  // ---------------------------------------------------------------------

  ghost predicate PendingOk(e: Env, s: State, p: PendingExchange) {
    && (p.Launched? ==> p.future < |s.futures| && s.terminal == Some(p.future))
    && Planned(e, p) && Characterised(e, OutcomeOf(e, s, p))
  }

  /** The walk may go on, wait, or end with a characterised outcome. */
  ghost predicate Landed(e: Env, s: State) {
    match s.control
    case Visiting => Open(e, s)
    case Sweeping(Await(k)) => Open(e, s) && k < |s.futures|
    case Sweeping(Drain) => Open(e, s)
    case Sweeping(Pending(p)) => Base(e, s) && s.armed == [] && JudgedOnce(s, s.ruleIndex + 1) && PendingOk(e, s, p)
    case Done(o) => Base(e, s) && JudgedOnce(s, s.ruleIndex + 1) && Characterised(e, o)
    case _ => false
  }

  lemma FinishLands(e: Env, s: State, o: Outcome)
    requires Base(e, s) && JudgedOnce(s, s.ruleIndex + 1) && Characterised(e, o)
    ensures Landed(e, Finish(s, o))
  {
    var t := Finish(s, o);
    SamePathKeeps(e, s, t);
    FinishKeepsResponses(e, s, o);
  }

  lemma FinishKeepsResponses(e: Env, s: State, o: Outcome)
    requires Responses(e, s) && Names(s)
    ensures Responses(e, Finish(s, o))
  {
    var t := Finish(s, o);
    forall tag | tag in t.responses
      ensures tag in t.named && IsResolved(t, t.named[tag])
              && t.responses[tag] == View(AnswerOf(e, t.futures[t.named[tag]]))
              && tag in t.responseTransports && t.responseTransports[tag] == t.futures[t.named[tag]].transport
    {
      assert tag in s.responses;
    }
  }

  lemma SameFuturesArmed(e: Env, s: State, t: State, a: Armed)
    requires t.futures == s.futures && t.named == s.named && ArmedOk(e, s, a)
    ensures ArmedOk(e, t, a)
  {
  }

  lemma AdvanceArmory(e: Env, s: State, t: State)
    requires Armory(e, s, s.ruleIndex) && RacesAccounted(e, s, s.ruleIndex) && JudgedOnce(s, s.ruleIndex)
    requires s.ruleIndex < |e.rules| && !Contends(e, s.ruleIndex)
    requires t.futures == s.futures && t.named == s.named && t.armed == s.armed && t.judged == s.judged
    requires t.ruleIndex == s.ruleIndex + 1
    ensures Armory(e, t, t.ruleIndex) && RacesAccounted(e, t, t.ruleIndex) && JudgedOnce(t, t.ruleIndex)
  {
    forall i | 0 <= i < |t.armed| ensures ArmedOk(e, t, t.armed[i]) { SameFuturesArmed(e, s, t, s.armed[i]); }
  }

  lemma AdvanceBase(e: Env, s: State, t: State)
    requires Base(e, s) && s.ruleIndex < |e.rules| && s.terminal.None?
    requires t == Advance(s.(options := t.options, anonymous := t.anonymous))
    requires t.anonymous == s.anonymous || t.anonymous == None
    requires StepRule(Calm(e), s.ruleIndex, Abs(e, s)) == Proceed(Abs(e, t))
    ensures Base(e, t)
  {
    NextArrival(e, s.ruleIndex, Abs(e, s));
    forall k | 0 <= k < |t.futures| ensures LaunchedBy(e, t, k) { assert LaunchedBy(e, s, k); }
  }

  /** Going on to the next rule without launching anything. */
  lemma AdvanceOpen(e: Env, s: State, t: State)
    requires Open(e, s) && s.ruleIndex < |e.rules| && s.terminal.None?
    requires t == Advance(s.(options := t.options, anonymous := t.anonymous))
    requires t.anonymous == s.anonymous || t.anonymous == None
    requires !Contends(e, s.ruleIndex)
    requires StepRule(Calm(e), s.ruleIndex, Abs(e, s)) == Proceed(Abs(e, t))
    ensures Open(e, t)
  {
    AdvanceBase(e, s, t);
    AdvanceArmory(e, s, t);
  }

  // ---------------------------------------------------------------------
  // Launching an evaluate rule
  // ---------------------------------------------------------------------

  /** A speculative exchange was launched for the rule the walk is at, and that
      rule decides. */
  lemma TerminalDecides(e: Env, s: State)
    requires Base(e, s) && s.terminal.Some?
    ensures && s.ruleIndex < |e.rules| && s.terminal.value < |s.futures|
            && var f := s.futures[s.terminal.value];
               var rule := e.rules[s.ruleIndex];
            && !rule.disabled && !rule.Armable() && rule.action.RouteAction? && Holds(rule, Abs(e, s))
            && f.rule == s.ruleIndex == s.terminalIndex
            && ResolveRoute(e, rule.action.server, rule.action.overrides, s.options) == Some((f.transport, f.options))
  {
    assert LaunchedBy(e, s, s.terminal.value);
  }

  lemma FreshTag(e: Env, s: State, tag: string)
    requires WellFormed(e.rules) && Launches(e, s) && Names(s)
    requires s.ruleIndex < |e.rules| && e.rules[s.ruleIndex].Defines(tag)
    ensures tag !in s.named
    ensures forall r :: 0 <= r <= s.ruleIndex ==> tag !in e.rules[r].tags
  {
    forall x | x in s.named ensures x != tag {
      assert LaunchedBy(e, s, s.named[x]);
    }
    forall r, x | 0 <= r <= s.ruleIndex && x in e.rules[r].tags ensures x != tag {
      var j :| 0 <= j < r && e.rules[j].Defines(x);
    }
  }

  /** t is s with the query of the evaluate rule at hand launched. */
  predicate Evaluates(e: Env, s: State, t: State) {
    && s.ruleIndex < |e.rules|
    && var action := e.rules[s.ruleIndex].action;
    && action.EvaluateAction? && action.server in e.transports
    && var f := Future(s.ruleIndex, action.tag, false, e.transports[action.server],
                       Apply(s.options, action.overrides), Running, false, false, false);
       t == s.(ruleIndex := s.ruleIndex + 1, futures := s.futures + [f],
               anonymous := if action.tag == "" then Some(|s.futures|) else s.anonymous,
               named := if action.tag == "" then s.named else s.named[action.tag := |s.futures|])
  }

  lemma AppendImage(e: Env, fs: seq<Future>, f: Future, named: map<string, nat>, tag: string)
    requires forall t :: t in named ==> named[t] < |fs|
    ensures ImageNamed(e, fs + [f], named) == ImageNamed(e, fs, named)
    ensures ImageNamed(e, fs + [f], named[tag := |fs|]) == ImageNamed(e, fs, named)[tag := Image(e, f)]
  {
    forall t | t in named ensures (fs + [f])[named[t]] == fs[named[t]] {}
  }

  lemma EvaluateImage(e: Env, s: State, t: State)
    requires Names(s) && Evaluates(e, s, t)
    ensures Abs(e, t) == Evaluate(e, s.ruleIndex, e.rules[s.ruleIndex].action, Abs(e, s))
  {
    var f := t.futures[|s.futures|];
    AppendImage(e, s.futures, f, s.named, e.rules[s.ruleIndex].action.tag);
  }

  lemma EvaluateLaunches(e: Env, s: State, t: State)
    requires Base(e, s) && s.terminal.None? && Evaluates(e, s, t)
    requires !e.rules[s.ruleIndex].disabled && !e.rules[s.ruleIndex].Armable() && Holds(e.rules[s.ruleIndex], Abs(e, s))
    ensures Launches(e, t)
  {
    var n := |s.futures|;
    forall k | 0 <= k < |t.futures| ensures LaunchedBy(e, t, k) {
      if k < n { assert LaunchedBy(e, s, k) && t.futures[k] == s.futures[k]; }
    }
    forall j, k | 0 <= j < k < |t.futures| ensures t.futures[j].rule < t.futures[k].rule {
      assert LaunchedBy(e, s, j) && t.futures[j] == s.futures[j];
    }
  }

  lemma EvaluateBase(e: Env, s: State, t: State)
    requires WellFormed(e.rules) && Base(e, s) && s.terminal.None? && Evaluates(e, s, t)
    requires !e.rules[s.ruleIndex].disabled && !e.rules[s.ruleIndex].Armable() && Holds(e.rules[s.ruleIndex], Abs(e, s))
    ensures Base(e, t)
  {
    EvaluatePath(e, s, t);
    EvaluateLaunches(e, s, t);
    EvaluateNames(e, s, t);
  }

  lemma EvaluatePath(e: Env, s: State, t: State)
    requires Names(s) && OnPath(e, s) && Evaluates(e, s, t)
    requires !e.rules[s.ruleIndex].disabled && !e.rules[s.ruleIndex].Armable() && Holds(e.rules[s.ruleIndex], Abs(e, s))
    ensures OnPath(e, t)
  {
    EvaluateImage(e, s, t);
    CalmStep(e, s.ruleIndex, Abs(e, s));
    NextArrival(e, s.ruleIndex, Abs(e, s));
  }

  lemma EvaluateNames(e: Env, s: State, t: State)
    requires WellFormed(e.rules) && Launches(e, s) && Names(s) && Responses(e, s) && Evaluates(e, s, t)
    ensures Names(t) && Responses(e, t)
  {
    var tag := e.rules[s.ruleIndex].action.tag;
    if tag != "" { FreshTag(e, s, tag); }
    AppendNames(s, t, tag);
    AppendResponses(e, s, t);
  }

  lemma AppendNames(s: State, t: State, tag: string)
    requires Names(s) && (tag != "" ==> tag !in s.named)
    requires |t.futures| == |s.futures| + 1 && t.futures[..|s.futures|] == s.futures
    requires t.futures[|s.futures|].tag == tag
    requires t.named == (if tag == "" then s.named else s.named[tag := |s.futures|])
    requires t.anonymous == s.anonymous || t.anonymous == Some(|s.futures|)
    ensures Names(t)
  {
    forall k | 0 <= k < |s.futures|
      ensures t.futures[k] == s.futures[k]
    {
      assert t.futures[..|s.futures|][k] == s.futures[k];
    }
  }

  lemma AppendResponses(e: Env, s: State, t: State)
    requires Names(s) && Responses(e, s) && |t.futures| == |s.futures| + 1 && t.futures[..|s.futures|] == s.futures
    requires !t.futures[|s.futures|].settled
    requires t.responses == s.responses && t.responseTransports == s.responseTransports
    requires forall x :: x in s.named ==> x in t.named && t.named[x] == s.named[x]
    ensures Responses(e, t)
  {
    forall k | 0 <= k < |s.futures|
      ensures t.futures[k] == s.futures[k]
    {
      assert t.futures[..|s.futures|][k] == s.futures[k];
    }
  }

  /** A launch does not touch the tags of the rules already passed. */
  lemma EvaluateKeepsTags(e: Env, s: State, t: State, r: nat, x: string)
    requires WellFormed(e.rules) && Launches(e, s) && Names(s) && Evaluates(e, s, t)
    requires r < s.ruleIndex && x in e.rules[r].tags
    ensures Named(Abs(e, t), x) == Named(Abs(e, s), x)
    ensures x in t.named ==> x in s.named && t.named[x] == s.named[x]
  {
    var tag := e.rules[s.ruleIndex].action.tag;
    if tag != "" { FreshTag(e, s, tag); }
    AppendImage(e, s.futures, t.futures[|s.futures|], s.named, tag);
  }

  lemma EvaluateArmed(e: Env, s: State, t: State, a: Armed)
    requires WellFormed(e.rules) && Launches(e, s) && Names(s) && Evaluates(e, s, t)
    requires ArmedOk(e, s, a) && a.ruleIndex < s.ruleIndex
    ensures ArmedOk(e, t, a)
  {
    forall k | 0 <= k < |s.futures| ensures t.futures[k] == s.futures[k] {}
    forall x | x in e.rules[a.ruleIndex].tags
      ensures Named(Abs(e, t), x) == Named(Abs(e, s), x)
      ensures x in t.named ==> x in s.named && t.named[x] == s.named[x]
    {
      EvaluateKeepsTags(e, s, t, a.ruleIndex, x);
    }
  }

  lemma EvaluateOpen(e: Env, s: State, t: State)
    requires WellFormed(e.rules) && Open(e, s) && s.terminal.None? && Evaluates(e, s, t)
    requires !e.rules[s.ruleIndex].disabled && !e.rules[s.ruleIndex].Armable() && Holds(e.rules[s.ruleIndex], Abs(e, s))
    ensures Open(e, t)
  {
    EvaluateBase(e, s, t);
    EvaluateArmory(e, s, t);
    EvaluateAccounts(e, s, t);
  }

  lemma EvaluateArmory(e: Env, s: State, t: State)
    requires WellFormed(e.rules) && Launches(e, s) && Names(s) && Armory(e, s, s.ruleIndex) && Evaluates(e, s, t)
    ensures Armory(e, t, t.ruleIndex)
  {
    InIndices(s.armed);
    forall i | 0 <= i < |t.armed| ensures ArmedOk(e, t, t.armed[i]) { EvaluateArmed(e, s, t, s.armed[i]); }
  }

  lemma EvaluateAccounts(e: Env, s: State, t: State)
    requires RacesAccounted(e, s, s.ruleIndex) && JudgedOnce(s, s.ruleIndex) && s.ruleIndex < |e.rules|
    requires !e.rules[s.ruleIndex].Armable()
    requires t.ruleIndex == s.ruleIndex + 1 && t.armed == s.armed && t.judged == s.judged
    ensures RacesAccounted(e, t, t.ruleIndex) && JudgedOnce(t, t.ruleIndex)
  {
  }

  // ---------------------------------------------------------------------
  // Judging a rule in place
  // ---------------------------------------------------------------------

  /** The walk is at an enabled rule it judges in place, and the rule matched. */
  predicate AtMatch(e: Env, s: State) {
    && Open(e, s) && s.control.Visiting? && s.ruleIndex < |e.rules|
    && !e.rules[s.ruleIndex].disabled && !e.rules[s.ruleIndex].Armable()
    && Holds(e.rules[s.ruleIndex], Abs(e, s))
  }

  lemma OpenLands(e: Env, t: State)
    requires Open(e, t) && (t.control.Visiting? || t.control == Sweeping(Drain))
    ensures Landed(e, t)
  {
  }

  lemma DrainLands(e: Env, s: State)
    requires Open(e, s)
    ensures Landed(e, Suspend(s, Drain))
  {
    OpenKept(e, s, Suspend(s, Drain));
    OpenLands(e, Suspend(s, Drain));
  }

  lemma NoTerminal(e: Env, s: State)
    requires Base(e, s) && s.ruleIndex < |e.rules| && !e.rules[s.ruleIndex].action.RouteAction?
    ensures s.terminal.None?
  {
    if s.terminal.Some? { TerminalDecides(e, s); }
  }

  lemma EvaluateMissing(e: Env, s: State)
    requires AtMatch(e, s) && e.rules[s.ruleIndex].action.EvaluateAction?
    requires e.rules[s.ruleIndex].action.server !in e.transports
    ensures Landed(e, VisitEvaluate(e, s, e.rules[s.ruleIndex].action))
  {
    NoTerminal(e, s);
    CalmStep(e, s.ruleIndex, Abs(e, s));
    var t := VisitEvaluate(e, s, e.rules[s.ruleIndex].action);
    AdvanceOpen(e, s, t);
    OpenLands(e, t);
  }

  lemma EvaluateDoes(e: Env, s: State)
    requires s.ruleIndex < |e.rules| && e.rules[s.ruleIndex].action.EvaluateAction?
    requires e.rules[s.ruleIndex].action.server in e.transports
    requires e.rules[s.ruleIndex].action.speculative || s.armed == []
    ensures Evaluates(e, s, VisitEvaluate(e, s, e.rules[s.ruleIndex].action))
  {
  }

  lemma EvaluateLaunched(e: Env, s: State)
    requires WellFormed(e.rules) && AtMatch(e, s) && e.rules[s.ruleIndex].action.EvaluateAction?
    requires e.rules[s.ruleIndex].action.server in e.transports
    requires e.rules[s.ruleIndex].action.speculative || s.armed == []
    ensures Landed(e, VisitEvaluate(e, s, e.rules[s.ruleIndex].action))
  {
    NoTerminal(e, s);
    var t := VisitEvaluate(e, s, e.rules[s.ruleIndex].action);
    EvaluateDoes(e, s);
    EvaluateOpen(e, s, t);
    OpenLands(e, t);
  }

  lemma EvaluateLands(e: Env, s: State)
    requires WellFormed(e.rules) && AtMatch(e, s) && e.rules[s.ruleIndex].action.EvaluateAction?
    ensures Landed(e, VisitEvaluate(e, s, e.rules[s.ruleIndex].action))
  {
    var action := e.rules[s.ruleIndex].action;
    if action.server !in e.transports {
      EvaluateMissing(e, s);
    } else if !action.speculative && s.armed != [] {
      DrainLands(e, s);
    } else {
      EvaluateLaunched(e, s);
    }
  }

  // Routes

  lemma PendingLands(e: Env, s: State, p: PendingExchange)
    requires Open(e, s) && s.armed == [] && PendingOk(e, s, p)
    ensures Landed(e, Suspend(s, Pending(p)))
  {
    OpenKept(e, s, Suspend(s, Pending(p)));
  }

  /** t is s with the exchange of the route rule at hand sent ahead of time. */
  predicate Speculates(e: Env, s: State, t: State, transport: Transport, options: Options) {
    && s.ruleIndex < |e.rules| && e.rules[s.ruleIndex].action.RouteAction?
    && var action := e.rules[s.ruleIndex].action;
    && ResolveRoute(e, action.server, action.overrides, s.options) == Some((transport, options))
    && t == s.(futures := s.futures + [Future(s.ruleIndex, "", true, transport, options, Running, false, false, false)],
               terminal := Some(|s.futures|), terminalIndex := s.ruleIndex)
  }

  lemma SpeculateLaunches(e: Env, s: State, t: State, transport: Transport, options: Options)
    requires Base(e, s) && s.terminal.None? && Speculates(e, s, t, transport, options)
    requires !e.rules[s.ruleIndex].disabled && !e.rules[s.ruleIndex].Armable() && Holds(e.rules[s.ruleIndex], Abs(e, s))
    ensures Launches(e, t)
  {
    var n := |s.futures|;
    forall k | 0 <= k < |t.futures| ensures LaunchedBy(e, t, k) {
      if k < n { assert LaunchedBy(e, s, k) && t.futures[k] == s.futures[k]; }
    }
    forall j, k | 0 <= j < k < |t.futures| ensures t.futures[j].rule < t.futures[k].rule {
      assert LaunchedBy(e, s, j) && t.futures[j] == s.futures[j];
    }
  }

  lemma SpeculateBase(e: Env, s: State, t: State, transport: Transport, options: Options)
    requires Base(e, s) && s.terminal.None? && Speculates(e, s, t, transport, options)
    requires !e.rules[s.ruleIndex].disabled && !e.rules[s.ruleIndex].Armable() && Holds(e.rules[s.ruleIndex], Abs(e, s))
    ensures Base(e, t) && Abs(e, t) == Abs(e, s)
  {
    SpeculateLaunches(e, s, t, transport, options);
    AppendImage(e, s.futures, t.futures[|s.futures|], s.named, "");
  }

  lemma SpeculateArmed(e: Env, s: State, t: State, transport: Transport, options: Options, a: Armed)
    requires Names(s) && Speculates(e, s, t, transport, options) && ArmedOk(e, s, a)
    ensures ArmedOk(e, t, a)
  {
    AppendImage(e, s.futures, t.futures[|s.futures|], s.named, "");
    forall k | 0 <= k < |s.futures| ensures t.futures[k] == s.futures[k] {}
  }

  lemma SpeculateOpen(e: Env, s: State, t: State, transport: Transport, options: Options)
    requires AtMatch(e, s) && s.terminal.None? && Speculates(e, s, t, transport, options)
    ensures Open(e, t)
  {
    SpeculateBase(e, s, t, transport, options);
    forall i | 0 <= i < |t.armed| ensures ArmedOk(e, t, t.armed[i]) {
      SpeculateArmed(e, s, t, transport, options, s.armed[i]);
    }
  }

  lemma SpeculateLands(e: Env, s: State, t: State, transport: Transport, options: Options)
    requires AtMatch(e, s) && s.terminal.None? && Speculates(e, s, t, transport, options)
    ensures Landed(e, Suspend(t, Drain))
  {
    SpeculateOpen(e, s, t, transport, options);
    DrainLands(e, t);
  }

  /** The exchange that ends the walk is the one the sequential reading ends
      with, whether it is still to be sent or was sent ahead of time. */
  lemma RoutePending(e: Env, s: State, p: PendingExchange)
    requires AtMatch(e, s) && s.armed == [] && e.rules[s.ruleIndex].action.RouteAction?
    requires var action := e.rules[s.ruleIndex].action;
             var route := ResolveRoute(e, action.server, action.overrides, s.options);
             && route.Some?
             && p == if s.terminal.Some? && s.terminalIndex == s.ruleIndex then Launched(s.terminal.value)
                     else Plain(s.ruleIndex, route.value.0, route.value.1)
    ensures PendingOk(e, s, p)
  {
    if s.terminal.Some? { TerminalDecides(e, s); }
    CalmStep(e, s.ruleIndex, Abs(e, s));
    CalmDecides(e, s, OutcomeOf(e, s, p));
  }

  lemma RouteSkipped(e: Env, s: State)
    requires AtMatch(e, s) && e.rules[s.ruleIndex].action.RouteAction?
    requires ResolveRoute(e, e.rules[s.ruleIndex].action.server, e.rules[s.ruleIndex].action.overrides, s.options).None?
    ensures Landed(e, Advance(s))
  {
    if s.terminal.Some? { TerminalDecides(e, s); }
    CalmStep(e, s.ruleIndex, Abs(e, s));
    AdvanceOpen(e, s, Advance(s));
    OpenLands(e, Advance(s));
  }

  lemma RouteLands(e: Env, s: State)
    requires AtMatch(e, s) && e.rules[s.ruleIndex].action.RouteAction?
    ensures Landed(e, VisitRoute(e, s, e.rules[s.ruleIndex].action))
  {
    var action := e.rules[s.ruleIndex].action;
    match ResolveRoute(e, action.server, action.overrides, s.options)
    case None => RouteSkipped(e, s);
    case Some((transport, options)) =>
      if s.armed != [] {
        if action.speculative && s.terminal.None? {
          var f := Future(s.ruleIndex, "", true, transport, options, Running, false, false, false);
          var t := s.(futures := s.futures + [f], terminal := Some(|s.futures|), terminalIndex := s.ruleIndex);
          SpeculateLands(e, s, t, transport, options);
        } else {
          DrainLands(e, s);
        }
      } else {
        var p := if s.terminal.Some? && s.terminalIndex == s.ruleIndex then Launched(s.terminal.value)
                 else Plain(s.ruleIndex, transport, options);
        RoutePending(e, s, p);
        PendingLands(e, s, p);
      }
  }

  // Final actions

  lemma DecisionLands(e: Env, s: State, o: Outcome)
    requires AtMatch(e, s) && s.armed == [] && StepRule(Calm(e), s.ruleIndex, Abs(e, s)) == Decide(o)
    ensures Landed(e, Finish(s, o))
  {
    CalmDecides(e, s, o);
    FinishLands(e, s, o);
  }

  lemma FinalLands(e: Env, s: State, o: Outcome)
    requires AtMatch(e, s) && StepRule(e, s.ruleIndex, Abs(e, s)) == Decide(o)
    ensures Landed(e, FinishOrDrain(s, o))
  {
    if s.armed != [] {
      DrainLands(e, s);
    } else {
      CalmStep(e, s.ruleIndex, Abs(e, s));
      DecisionLands(e, s, o);
    }
  }

  lemma IgnoredLands(e: Env, s: State, t: State)
    requires AtMatch(e, s) && !e.rules[s.ruleIndex].action.RouteAction?
    requires t == Advance(s.(options := t.options)) && StepRule(e, s.ruleIndex, Abs(e, s)) == Proceed(Abs(e, t))
    ensures Landed(e, t)
  {
    NoTerminal(e, s);
    CalmStep(e, s.ruleIndex, Abs(e, s));
    AdvanceOpen(e, s, t);
    OpenLands(e, t);
  }

  lemma AwaitLands(e: Env, s: State, k: nat)
    requires Open(e, s) && k < |s.futures|
    ensures Landed(e, Suspend(s, Await(k)))
  {
    OpenKept(e, s, Suspend(s, Await(k)));
  }

  lemma RespondLands(e: Env, s: State)
    requires WellFormed(e.rules) && AtMatch(e, s) && e.rules[s.ruleIndex].action.RespondAction?
    requires Bindable(s, e.rules[s.ruleIndex]) && (e.rules[s.ruleIndex].HasBindings() ==> AllSettled(s))
    ensures Landed(e, VisitRespond(e, s, e.rules[s.ruleIndex]))
  {
    var rule := e.rules[s.ruleIndex];
    if s.armed != [] {
      DrainLands(e, s);
    } else if rule.respondTag != "" {
      NamedLookup(e, s, rule.respondTag);
      CalmStep(e, s.ruleIndex, Abs(e, s));
      DecisionLands(e, s, RespondNamed(s, rule.respondTag));
    } else if !rule.HasBindings() && UnresolvedAnonymous(s) != [] {
      AwaitLands(e, s, s.anonymous.value);
    } else {
      AnonymousImage(e, s, s.anonymous);
      CalmStep(e, s.ruleIndex, Abs(e, s));
      DecisionLands(e, s, RespondAnonymous(e, s, s.anonymous));
    }
  }

  // A rule that does not match

  lemma UnmatchedLands(e: Env, s: State)
    requires Open(e, s) && s.control.Visiting? && s.ruleIndex < |e.rules|
    requires || e.rules[s.ruleIndex].disabled
             || (!e.rules[s.ruleIndex].Armable() && !Holds(e.rules[s.ruleIndex], Abs(e, s)))
    ensures Landed(e, Advance(s))
  {
    if s.terminal.Some? { TerminalDecides(e, s); }
    CalmStep(e, s.ruleIndex, Abs(e, s));
    AdvanceOpen(e, s, Advance(s));
    OpenLands(e, Advance(s));
  }

  lemma MatchedLands(e: Env, s: State)
    requires WellFormed(e.rules) && AtMatch(e, s) && Bindable(s, e.rules[s.ruleIndex])
    requires e.rules[s.ruleIndex].HasBindings() ==> AllSettled(s)
    requires Matches(e.rules[s.ruleIndex], AnonymousView(e, s, s.anonymous), s.responses)
    ensures Landed(e, Judge(e, s))
  {
    var action := e.rules[s.ruleIndex].action;
    JudgeIs(e, s);
    if action.EvaluateAction? {
      EvaluateLands(e, s);
    } else if action.RespondAction? {
      RespondLands(e, s);
    } else if action.RouteAction? {
      RouteLands(e, s);
    } else {
      MatchedPlainLands(e, s);
    }
  }

  /** What judging comes to for the actions that have a visit of their own. */
  lemma JudgeIs(e: Env, s: State)
    requires s.ruleIndex < |e.rules|
    requires Matches(e.rules[s.ruleIndex], AnonymousView(e, s, s.anonymous), s.responses)
    ensures var rule := e.rules[s.ruleIndex];
            && (rule.action.EvaluateAction? ==> Judge(e, s) == VisitEvaluate(e, s, rule.action))
            && (rule.action.RespondAction? ==> Judge(e, s) == VisitRespond(e, s, rule))
            && (rule.action.RouteAction? ==> Judge(e, s) == VisitRoute(e, s, rule.action))
  {
  }

  lemma MatchedPlainLands(e: Env, s: State)
    requires WellFormed(e.rules) && AtMatch(e, s) && Bindable(s, e.rules[s.ruleIndex])
    requires Matches(e.rules[s.ruleIndex], AnonymousView(e, s, s.anonymous), s.responses)
    requires var a := e.rules[s.ruleIndex].action; !a.EvaluateAction? && !a.RespondAction? && !a.RouteAction?
    ensures Landed(e, Judge(e, s))
  {
    var i := s.ruleIndex;
    match e.rules[i].action
    case NoAction => PassedLands(e, s);
    case RouteOptionsAction(overrides) => OptionsLand(e, s);
    case RejectAction(DefaultReject) => FinalLands(e, s, Rejected(i));
    case RejectAction(DropReject) => FinalLands(e, s, Dropped(i));
    case RejectAction(ReplyReject) => if s.armed != [] { DrainLands(e, s); } else { PassedLands(e, s); }
    case PredefinedAction => FinalLands(e, s, Predefined(i, s.options));
  }

  lemma PassedLands(e: Env, s: State)
    requires AtMatch(e, s)
    requires var a := e.rules[s.ruleIndex].action; a.NoAction? || a == RejectAction(ReplyReject)
    ensures Landed(e, Advance(s))
  {
    IgnoredLands(e, s, Advance(s));
  }

  lemma OptionsLand(e: Env, s: State)
    requires AtMatch(e, s) && e.rules[s.ruleIndex].action.RouteOptionsAction?
    ensures Landed(e, Advance(s.(options := Apply(s.options, e.rules[s.ruleIndex].action.overrides))))
  {
    IgnoredLands(e, s, Advance(s.(options := Apply(s.options, e.rules[s.ruleIndex].action.overrides))));
  }

  /** Judging a rule in place does what the sequential reading does, or waits. */
  lemma JudgeLands(e: Env, s: State)
    requires WellFormed(e.rules) && Open(e, s) && s.control.Visiting? && s.ruleIndex < |e.rules|
    requires !e.rules[s.ruleIndex].disabled && !e.rules[s.ruleIndex].Armable()
    requires Bindable(s, e.rules[s.ruleIndex]) && (e.rules[s.ruleIndex].HasBindings() ==> AllSettled(s))
    ensures Landed(e, Judge(e, s))
  {
    MatchIsHolds(e, s, e.rules[s.ruleIndex]);
    if Holds(e.rules[s.ruleIndex], Abs(e, s)) {
      MatchedLands(e, s);
    } else {
      UnmatchedLands(e, s);
    }
  }
}

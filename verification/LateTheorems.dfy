/** What late completions can and cannot do to a list without race rules. */
module LateTheorems {
  import opened Optional
  import opened QueryOptions
  import opened RuleWalk
  import opened SequentialRules
  import opened WalkInvariant
  import opened LateVisits
  import opened LateRuns
  import WalkRuns

  ghost predicate FineReachable(e: Env, g: Fine)
    requires Raceless(e)
  {
    exists run :: FineRuns(e, Fine(Init(e), map[]), run, g)
  }

  /** Some run ends with the outcome, its context never cancelled. */
  ghost predicate CanEnd(e: Env, o: Outcome)
    requires Raceless(e)
  {
    exists g: Fine :: FineReachable(e, g) && g.state.control == Done(o) && !g.state.contextDone
  }

  /** Every run, whenever its queries complete, ends as the sequential reading
      in which some rules miss some of the responses they bind; and only the
      first rule to bind a response can miss it. */
  lemma EndsWithLosses(e: Env, g: Fine, o: Outcome)
    requires WellFormed(e.rules) && Raceless(e)
    requires FineReachable(e, g) && g.state.control == Done(o) && !g.state.contextDone
    ensures LossesOk(e, g.lost, |e.rules|) && o == LossyReference(e, g.lost)
  {
    var run :| FineRuns(e, Fine(Init(e), map[]), run, g);
    FineInit(e);
    FineRunKeeps(e, Fine(Init(e), map[]), run, g);
    ConclusionIsReference(e, g.lost, g.state.ruleIndex, o);
  }

  /** A run in which no response is missed ends as the sequential interpreter. */
  lemma PunctualRunsRefine(e: Env, g: Fine, o: Outcome)
    requires WellFormed(e.rules) && Raceless(e)
    requires FineReachable(e, g) && g.state.control == Done(o) && !g.state.contextDone && g.lost == map[]
    ensures o == Reference(e)
  {
    EndsWithLosses(e, g, o);
    LosslessInterpret(e, map[], 0, Start(e));
  }

  /** So does every run of a list whose rules bind no tags. */
  lemma UntaggedListsRefine(e: Env, g: Fine, o: Outcome)
    requires WellFormed(e.rules) && Raceless(e)
    requires forall i :: 0 <= i < |e.rules| && !e.rules[i].disabled ==> e.rules[i].tags == []
    requires FineReachable(e, g) && g.state.control == Done(o) && !g.state.contextDone
    ensures o == Reference(e)
  {
    EndsWithLosses(e, g, o);
    forall j: nat ensures LostAt(g.lost, j) == {} {
      assert forall t :: t in LostAt(g.lost, j) ==> Losable(e, j, t);
    }
    LosslessInterpret(e, g.lost, 0, Start(e));
  }

  // ---------------------------------------------------------------------
  // Every loss can happen
  // ---------------------------------------------------------------------

  lemma Prepend(e: Env, f: Fine, l: FineLabel, rest: seq<FineLabel>, h: Fine)
    requires Raceless(e) && FineEnabled(e, f, l) && FineRuns(e, FineStep(e, f, l), rest, h)
    ensures FineRuns(e, f, [l] + rest, h)
  {
    assert ([l] + rest)[0] == l && ([l] + rest)[1..] == rest;
  }

  function Elements(ks: seq<nat>): set<nat> {
    if ks == [] then {} else Elements(ks[1..]) + {ks[0]}
  }

  lemma {:induction false} ElementsOf(ks: seq<nat>)
    ensures forall k :: k in Elements(ks) <==> k in ks
  {
    if ks != [] { ElementsOf(ks[1..]); }
  }

  lemma LandingTwice(fs: seq<Future>, k: nat, late: set<nat>)
    ensures Landing(Landing(fs, {k}), late) == Landing(fs, late + {k})
  {
  }

  lemma CompleteOne(e: Env, f: Fine, k: nat, rest: seq<FineLabel>, g: Fine) returns (run: seq<FineLabel>)
    requires Raceless(e) && k < |f.state.futures|
    requires FineRuns(e, Fine(Arrive(f.state, {k}), f.lost), rest, g)
    ensures FineRuns(e, f, run, g)
  {
    if f.state.futures[k].phase.Running? {
      assert Landing(f.state.futures, {k}) == f.state.futures[k := f.state.futures[k].(phase := Resolved)];
      var l := Coarse(Resolve(k));
      assert FineStep(e, f, l) == Fine(Arrive(f.state, {k}), f.lost);
      Prepend(e, f, l, rest, g);
      run := [l] + rest;
    } else {
      assert Landing(f.state.futures, {k}) == f.state.futures;
      assert Arrive(f.state, {k}) == f.state;
      run := rest;
    }
  }

  /** A run may begin with the completion of the given queries. */
  lemma {:induction false} CompleteAll(e: Env, f: Fine, ks: seq<nat>, rest: seq<FineLabel>, g: Fine)
    returns (run: seq<FineLabel>)
    requires Raceless(e) && forall k :: k in ks ==> k < |f.state.futures|
    requires FineRuns(e, Fine(Arrive(f.state, Elements(ks)), f.lost), rest, g)
    ensures FineRuns(e, f, run, g)
    decreases |ks|
  {
    if ks == [] {
      assert Landing(f.state.futures, {}) == f.state.futures;
      assert Arrive(f.state, {}) == f.state;
      run := rest;
    } else {
      var k := ks[0];
      assert k in ks && forall x :: x in ks[1..] ==> x in ks;
      LandingTwice(f.state.futures, k, Elements(ks[1..]));
      var m := Fine(Arrive(f.state, {k}), f.lost);
      assert Arrive(m.state, Elements(ks[1..])) == Arrive(f.state, Elements(ks));
      var later := CompleteAll(e, m, ks[1..], rest, g);
      run := CompleteOne(e, f, k, later, g);
    }
  }

  /** No enabled rule before rule i binds the tag. */
  predicate UnreadBefore(e: Env, i: nat, t: string) {
    forall j :: 0 <= j < i && j < |e.rules| && !e.rules[j].disabled ==> t !in e.rules[j].tags
  }

  /** Queries are kept running until a rule reads their response. */
  predicate Lazy(e: Env, s: State) {
    && (s.anonymous.Some? ==> s.anonymous.value < |s.futures| && s.futures[s.anonymous.value].tag == "")
    && forall t :: t in s.named && UnreadBefore(e, s.ruleIndex, t) ==>
         s.named[t] < |s.futures| && s.futures[s.named[t]].phase.Running?
  }

  /** The queries to complete before the visit of a rule, except for the given
      tags. */
  function Needed(s: State, tags: seq<string>, lost: set<string>): seq<nat> {
    if tags == [] then (if s.anonymous.Some? then [s.anonymous.value] else [])
    else (if tags[0] in s.named && tags[0] !in lost then [s.named[tags[0]]] else []) + Needed(s, tags[1..], lost)
  }

  lemma {:induction false} NeededAre(s: State, tags: seq<string>, lost: set<string>)
    ensures forall k :: k in Needed(s, tags, lost) ==>
              s.anonymous == Some(k) || exists t :: t in tags && t in s.named && t !in lost && s.named[t] == k
    ensures forall t :: t in tags && t in s.named && t !in lost ==> s.named[t] in Needed(s, tags, lost)
    ensures s.anonymous.Some? ==> s.anonymous.value in Needed(s, tags, lost)
  {
    if tags != [] { NeededAre(s, tags[1..], lost); }
  }

  /** The queries behind the lost tags. */
  function Behind(s: State, lost: set<string>): set<nat> { set t | t in lost && t in s.named :: s.named[t] }

  lemma BehindIs(s: State, lost: set<string>, t: string)
    requires Names(s) && t in s.named
    ensures s.named[t] in Behind(s, lost) <==> t in lost
  {
    if s.named[t] in Behind(s, lost) {
      var x :| x in lost && x in s.named && s.named[x] == s.named[t];
      assert s.futures[s.named[x]].tag == x;
    }
  }

  // ---------------------------------------------------------------------
  // One rule
  // ---------------------------------------------------------------------

  /** The query behind a name is as it was, or new. */
  predicate Undisturbed(t: State, u: State, x: string) {
    && x in u.named && u.named[x] < |u.futures|
    && if x in t.named then
         t.named[x] < |t.futures| && u.named[x] == t.named[x] && u.futures[u.named[x]] == t.futures[t.named[x]]
       else u.futures[u.named[x]].phase.Running?
  }

  /** After a judgement the walk has ended, is about to end, or has moved on;
      the queries behind names known before are as they were. */
  predicate Moved(t: State, u: State) {
    && u.contextDone == t.contextDone
    && (u.control.Done? || u.control.Visiting? || (u.control.Sweeping? && u.control.suspension.Pending?))
    && (!u.control.Visiting? ==> u.ruleIndex == t.ruleIndex)
    && (u.control.Visiting? ==>
          && u.ruleIndex == t.ruleIndex + 1
          && (forall x :: x in u.named ==> Undisturbed(t, u, x))
          && (u.anonymous.Some? ==> u.anonymous.value < |u.futures| && u.futures[u.anonymous.value].tag == ""))
  }

  predicate Fit(t: State) {
    && t.control.Visiting? && t.armed == [] && t.terminal.None? && Names(t)
    && (t.anonymous.Some? ==> IsResolved(t, t.anonymous.value) && t.futures[t.anonymous.value].tag == "")
  }

  lemma AdvanceMoves(t: State, u: State)
    requires Fit(t) && u == t.(ruleIndex := t.ruleIndex + 1, options := u.options, anonymous := u.anonymous)
    requires u.anonymous == t.anonymous || u.anonymous == None
    ensures Moved(t, u)
  {
  }

  lemma FinishMoves(t: State, o: Outcome)
    requires Fit(t)
    ensures Moved(t, Finish(t, o)) && Moved(t, FinishOrDrain(t, o))
  {
  }

  lemma LaunchMoves(t: State, u: State, f: Future, tag: string)
    requires Fit(t) && tag !in t.named && f.phase.Running? && f.tag == tag
    requires u.control.Visiting? && u.contextDone == t.contextDone && u.ruleIndex == t.ruleIndex + 1
    requires u.futures == t.futures + [f]
    requires u.named == if tag == "" then t.named else t.named[tag := |t.futures|]
    requires u.anonymous == if tag == "" then Some(|t.futures|) else t.anonymous
    ensures Moved(t, u)
  {
    forall x | x in u.named ensures Undisturbed(t, u, x) {
      if x in t.named { assert u.futures[t.named[x]] == t.futures[t.named[x]]; }
    }
  }

  lemma EvaluateMoves(e: Env, t: State, action: Action)
    requires Fit(t) && action.EvaluateAction? && action.tag !in t.named
    ensures Moved(t, VisitEvaluate(e, t, action))
  {
    var u := VisitEvaluate(e, t, action);
    if action.server in e.transports {
      LaunchMoves(t, u, u.futures[|t.futures|], action.tag);
    } else {
      AdvanceMoves(t, u);
    }
  }

  lemma RouteMoves(e: Env, t: State, action: Action)
    requires Fit(t) && action.RouteAction?
    ensures Moved(t, VisitRoute(e, t, action))
  {
    if ResolveRoute(e, action.server, action.overrides, t.options).None? { AdvanceMoves(t, Advance(t)); }
  }

  lemma RespondMoves(e: Env, t: State, rule: Rule)
    requires Fit(t)
    ensures Moved(t, VisitRespond(e, t, rule))
  {
    FinishMoves(t, RespondNamed(t, rule.respondTag));
    FinishMoves(t, RespondAnonymous(e, t, t.anonymous));
  }

  lemma JudgeFinalMoves(e: Env, t: State)
    requires Fit(t) && t.ruleIndex < |e.rules|
    requires var a := e.rules[t.ruleIndex].action; !a.EvaluateAction? && !a.RespondAction? && !a.RouteAction?
    requires Matches(e.rules[t.ruleIndex], AnonymousView(e, t, t.anonymous), t.responses)
    ensures Moved(t, Judge(e, t))
  {
    var action := e.rules[t.ruleIndex].action;
    JudgePlain(e, t);
    AdvanceMoves(t, Advance(t));
    FinishMoves(t, FinalOutcome(t.ruleIndex, action, t.options));
    if action.RouteOptionsAction? {
      AdvanceMoves(t, t.(ruleIndex := t.ruleIndex + 1, options := Apply(t.options, action.overrides)));
    }
  }

  lemma JudgeMoves(e: Env, t: State)
    requires Fit(t) && t.ruleIndex < |e.rules|
    requires e.rules[t.ruleIndex].action.EvaluateAction? ==> e.rules[t.ruleIndex].action.tag !in t.named
    ensures Moved(t, Judge(e, t))
  {
    var rule := e.rules[t.ruleIndex];
    if !Matches(rule, AnonymousView(e, t, t.anonymous), t.responses) {
      AdvanceMoves(t, Advance(t));
    } else if rule.action.EvaluateAction? {
      EvaluateMoves(e, t, rule.action);
    } else if rule.action.RespondAction? {
      RespondMoves(e, t, rule);
    } else if rule.action.RouteAction? {
      RouteMoves(e, t, rule.action);
    } else {
      JudgeFinalMoves(e, t);
    }
  }

  // ---------------------------------------------------------------------
  // Arranging the losses at one rule
  // ---------------------------------------------------------------------

  /** A walk on its way to the outcome with the given losses. */
  predicate OnCourse(e: Env, f: Fine, lost: LossMap) {
    && WellFormed(e.rules) && Raceless(e) && LossesOk(e, lost, |e.rules|)
    && f.state.control.Visiting? && FineSound(e, f) && Lazy(e, f.state) && !f.state.contextDone
    && LossyArrival(e, lost, f.state.ruleIndex) == Some(Abs(e, f.state))
  }

  function Tags(e: Env, s: State): seq<string> { if Reading(e, s) then e.rules[s.ruleIndex].tags else [] }

  /** The queries to complete before the visit. */
  function Early(e: Env, s: State, lost: LossMap): seq<nat> { Needed(s, Tags(e, s), LostAt(lost, s.ruleIndex)) }

  /** The state when the bound queries are looked at, with the lost ones
      completing late. */
  function Arranged(e: Env, s: State, lost: LossMap): State {
    AtCheck(e, EarlyState(e, s, lost), Behind(s, LostAt(lost, s.ruleIndex)))
  }

  lemma EarlyIs(e: Env, s: State, lost: LossMap, t: string)
    requires Names(s) && t in s.named && (s.anonymous.Some? ==> s.futures[s.anonymous.value].tag == "")
    ensures s.named[t] in Elements(Early(e, s, lost)) <==> t in Tags(e, s) && t !in LostAt(lost, s.ruleIndex)
  {
    var lostHere := LostAt(lost, s.ruleIndex);
    NeededAre(s, Tags(e, s), lostHere);
    ElementsOf(Early(e, s, lost));
    if s.named[t] in Early(e, s, lost) {
      assert s.anonymous != Some(s.named[t]);
      var x :| x in Tags(e, s) && x in s.named && x !in lostHere && s.named[x] == s.named[t];
      assert s.futures[s.named[x]].tag == x;
    }
  }

  lemma EarlyInRange(e: Env, s: State, lost: LossMap)
    requires Names(s)
    ensures forall k :: k in Early(e, s, lost) ==> k < |s.futures|
    ensures s.anonymous.Some? ==> s.anonymous.value in Elements(Early(e, s, lost))
  {
    NeededAre(s, Tags(e, s), LostAt(lost, s.ruleIndex));
    ElementsOf(Early(e, s, lost));
  }

  /** At the check, a query has resolved if it was resolved before, is needed,
      or is lost; and nothing else changes. */
  lemma ArrangedFutures(e: Env, s: State, lost: LossMap, k: nat)
    requires k < |s.futures|
    ensures var t := Arranged(e, s, lost);
            && |t.futures| == |s.futures| && t.futures[k].tag == s.futures[k].tag
            && (IsResolved(t, k) <==>
                  || IsResolved(s, k) || k in Elements(Early(e, s, lost))
                  || k in Behind(s, LostAt(lost, s.ruleIndex)))
  {
    var early := Elements(Early(e, s, lost));
    var fs := Landing(s.futures, early);
    LandingAt(s.futures, early, k);
    LandingAt(fs, Behind(s, LostAt(lost, s.ruleIndex)), k);
    LandingAt(SettleFutures(fs), Behind(s, LostAt(lost, s.ruleIndex)), k);
  }

  lemma LandingAt(fs: seq<Future>, late: set<nat>, k: nat)
    requires k < |fs|
    ensures Landing(fs, late)[k].tag == fs[k].tag
    ensures Landing(fs, late)[k].phase.Running? <==> fs[k].phase.Running? && k !in late
  {
  }

  lemma ArrangedRest(e: Env, s: State, lost: LossMap)
    ensures var t := Arranged(e, s, lost);
            && t.named == s.named && t.anonymous == s.anonymous && t.ruleIndex == s.ruleIndex
            && t.control == s.control && t.contextDone == s.contextDone
            && t.armed == s.armed && t.terminal == s.terminal
            && Reading(e, t) == Reading(e, s)
  {
  }

  lemma LostOnlyWhereRead(e: Env, s: State, lost: LossMap, t: string)
    requires LossesOk(e, lost, |e.rules|) && t in LostAt(lost, s.ruleIndex)
    ensures Reading(e, s) && t in Tags(e, s) && Losable(e, s.ruleIndex, t)
  {
  }

  lemma {:induction false} NothingAwaited(s: State, tags: seq<string>)
    requires forall t :: t in tags && t in s.named ==> IsResolved(s, s.named[t])
    ensures Unresolved(s, tags) == []
  {
    if tags != [] { NothingAwaited(s, tags[1..]); }
  }

  lemma ArrangedIsReady(e: Env, f: Fine, lost: LossMap)
    requires OnCourse(e, f, lost)
    ensures var t := Arranged(e, f.state, lost);
            Fit(t) && (Reading(e, t) ==> Awaited(t, e.rules[t.ruleIndex]) == [])
  {
    var s := f.state;
    var t := Arranged(e, s, lost);
    ArrangedRest(e, s, lost);
    EarlyInRange(e, s, lost);
    AtCheckNames(e, s, t, lost);
    if s.anonymous.Some? { ArrangedFutures(e, s, lost, s.anonymous.value); }
    if Reading(e, s) {
      var rule := e.rules[s.ruleIndex];
      forall x | x in rule.tags && x in t.named ensures IsResolved(t, t.named[x]) {
        ArrangedFutures(e, s, lost, s.named[x]);
        EarlyIs(e, s, lost, x);
        BehindIs(s, LostAt(lost, s.ruleIndex), x);
      }
      NothingAwaited(t, rule.tags);
    }
  }

  lemma AtCheckNames(e: Env, s: State, t: State, lost: LossMap)
    requires Names(s) && t == Arranged(e, s, lost)
    ensures Names(t)
  {
    forall k: nat | k < |s.futures| ensures t.futures[k].tag == s.futures[k].tag { ArrangedFutures(e, s, lost, k); }
  }

  /** The responses that are settled before the visit. */
  lemma SettledNames(e: Env, s: State, x: string)
    requires Names(s) && Responses(e, s) && x in s.named
    ensures x in Settle(e, s).responses <==> IsResolved(s, s.named[x])
  {
    if IsResolved(s, s.named[x]) { SettledIfResolved(e, s, x); }
    SettleKeepsResponses(e, s);
  }

  function EarlyState(e: Env, s: State, lost: LossMap): State { Arrive(s, Elements(Early(e, s, lost))) }

  lemma EarlySteady(e: Env, s: State, lost: LossMap)
    requires Steady(e, s)
    ensures Steady(e, EarlyState(e, s, lost)) && EarlyState(e, s, lost).named == s.named
    ensures Reading(e, EarlyState(e, s, lost)) == Reading(e, s)
  {
    var early := EarlyState(e, s, lost);
    ArriveSame(s, Elements(Early(e, s, lost)));
    WalkRuns.CancelKeepsResponses(e, s, early);
    SteadyKept(e, s, early);
  }

  /** Of the queries the rule binds, those to be lost are still running. */
  lemma EarlyResolved(e: Env, f: Fine, lost: LossMap, x: string)
    requires OnCourse(e, f, lost) && x in Tags(e, f.state) && x in f.state.named
    ensures IsResolved(EarlyState(e, f.state, lost), f.state.named[x]) <==> x !in LostAt(lost, f.state.ruleIndex)
  {
    var s := f.state;
    EarlyIs(e, s, lost, x);
    if x in LostAt(lost, s.ruleIndex) {
      LostOnlyWhereRead(e, s, lost, x);
      assert s.futures[s.named[x]].phase.Running?;
    }
  }

  /** The rule misses exactly the tags that were to be lost to it. */
  lemma ArrangedMisses(e: Env, f: Fine, lost: LossMap, x: string)
    requires OnCourse(e, f, lost) && x in Tags(e, f.state) && x in f.state.named
    ensures x !in Arranged(e, f.state, lost).responses <==> x in LostAt(lost, f.state.ruleIndex)
  {
    var s := f.state;
    EarlySteady(e, s, lost);
    EarlyResolved(e, f, lost, x);
    SettledNames(e, EarlyState(e, s, lost), x);
    assert Arranged(e, s, lost).responses == Settle(e, EarlyState(e, s, lost)).responses;
  }

  lemma ArrangedLosses(e: Env, f: Fine, lost: LossMap)
    requires OnCourse(e, f, lost) && Reading(e, f.state)
    ensures Missing(Arranged(e, f.state, lost), e.rules[f.state.ruleIndex])
         == set x | x in LostAt(lost, f.state.ruleIndex) && x in f.state.named
  {
    var s := f.state;
    ArrangedRest(e, s, lost);
    forall x | x in Tags(e, s) && x in s.named
      ensures x !in Arranged(e, s, lost).responses <==> x in LostAt(lost, s.ruleIndex)
    {
      ArrangedMisses(e, f, lost, x);
    }
    forall x | x in LostAt(lost, s.ruleIndex) ensures x in Tags(e, s) { LostOnlyWhereRead(e, s, lost, x); }
  }

  /** The visit arranged this way. */
  function Visited(e: Env, f: Fine, lost: LossMap): Fine
    requires f.state.control.Visiting? && f.state.armed == [] && Raceless(e)
  {
    FineStep(e, Fine(EarlyState(e, f.state, lost), f.lost), Late(Behind(f.state, LostAt(lost, f.state.ruleIndex))))
  }

  lemma VisitedIsSound(e: Env, f: Fine, lost: LossMap)
    requires OnCourse(e, f, lost)
    ensures FineSound(e, Visited(e, f, lost))
  {
    var early := Fine(EarlyState(e, f.state, lost), f.lost);
    FineEnvironment(e, f, early.state);
    FineKeeps(e, early, Late(Behind(f.state, LostAt(lost, f.state.ruleIndex))));
  }

  lemma VisitedState(e: Env, f: Fine, lost: LossMap)
    requires OnCourse(e, f, lost) && f.state.ruleIndex < |e.rules|
    ensures var t := Arranged(e, f.state, lost);
            t.ruleIndex == f.state.ruleIndex
            && Visited(e, f, lost).state == if e.rules[t.ruleIndex].disabled then Advance(t) else Judge(e, t)
  {
    var t := Arranged(e, f.state, lost);
    ArrangedRest(e, f.state, lost);
    ArrangedIsReady(e, f, lost);
    EarlySteady(e, f.state, lost);
    var early := EarlyState(e, f.state, lost);
    assert Visited(e, f, lost).state == VisitLate(e, early, Behind(f.state, LostAt(lost, f.state.ruleIndex)));
  }

  /** The tag of the rule at hand, if it is an evaluate rule, is not taken. */
  lemma ArrangedFresh(e: Env, f: Fine, lost: LossMap)
    requires OnCourse(e, f, lost) && f.state.ruleIndex < |e.rules|
    ensures var action := e.rules[f.state.ruleIndex].action;
            action.EvaluateAction? ==> action.tag !in f.state.named
  {
    var action := e.rules[f.state.ruleIndex].action;
    if action.EvaluateAction? && action.tag != "" { FreshTag(e, f.state, action.tag); }
  }

  lemma RuleMoves(e: Env, t: State)
    requires Fit(t) && t.ruleIndex < |e.rules|
    requires e.rules[t.ruleIndex].action.EvaluateAction? ==> e.rules[t.ruleIndex].action.tag !in t.named
    ensures Moved(t, if e.rules[t.ruleIndex].disabled then Advance(t) else Judge(e, t))
  {
    if e.rules[t.ruleIndex].disabled { AdvanceMoves(t, Advance(t)); } else { JudgeMoves(e, t); }
  }

  lemma VisitedMoves(e: Env, f: Fine, lost: LossMap)
    requires OnCourse(e, f, lost) && f.state.ruleIndex < |e.rules|
    ensures Moved(Arranged(e, f.state, lost), Visited(e, f, lost).state)
  {
    ArrangedFresh(e, f, lost);
    ArrangedRest(e, f.state, lost);
    ArrangedIsReady(e, f, lost);
    RuleMoves(e, Arranged(e, f.state, lost));
    VisitedState(e, f, lost);
  }

  /** Queries nobody has read yet are still running. */
  lemma StaysLazy(e: Env, f: Fine, lost: LossMap)
    requires OnCourse(e, f, lost) && f.state.ruleIndex < |e.rules| && Visited(e, f, lost).state.control.Visiting?
    ensures Lazy(e, Visited(e, f, lost).state)
  {
    VisitedMoves(e, f, lost);
    LazyNext(e, f, lost, Visited(e, f, lost).state);
  }

  lemma LazyNext(e: Env, f: Fine, lost: LossMap, u: State)
    requires OnCourse(e, f, lost) && f.state.ruleIndex < |e.rules|
    requires u.control.Visiting? && Moved(Arranged(e, f.state, lost), u)
    ensures Lazy(e, u)
  {
    ArrangedRest(e, f.state, lost);
    forall x | x in u.named && UnreadBefore(e, u.ruleIndex, x)
      ensures u.named[x] < |u.futures| && u.futures[u.named[x]].phase.Running?
    {
      LazyName(e, f, lost, u, x);
    }
  }

  lemma LazyName(e: Env, f: Fine, lost: LossMap, u: State, x: string)
    requires OnCourse(e, f, lost) && f.state.ruleIndex < |e.rules|
    requires Undisturbed(Arranged(e, f.state, lost), u, x)
    requires UnreadBefore(e, f.state.ruleIndex + 1, x)
    ensures u.futures[u.named[x]].phase.Running?
  {
    ArrangedRest(e, f.state, lost);
    if x in f.state.named { UnreadRuns(e, f, lost, x); }
  }

  predicate StillRuns(s: State, k: nat) { k < |s.futures| && s.futures[k].phase.Running? }

  lemma UnreadRuns(e: Env, f: Fine, lost: LossMap, x: string)
    requires OnCourse(e, f, lost) && f.state.ruleIndex < |e.rules| && x in f.state.named
    requires UnreadBefore(e, f.state.ruleIndex + 1, x)
    ensures StillRuns(Arranged(e, f.state, lost), f.state.named[x])
  {
    var s := f.state;
    ArrangedFutures(e, s, lost, s.named[x]);
    EarlyIs(e, s, lost, x);
    BehindIs(s, LostAt(lost, s.ruleIndex), x);
    assert x !in Tags(e, s);
    assert x !in LostAt(lost, s.ruleIndex) by {
      if x in LostAt(lost, s.ruleIndex) { LostOnlyWhereRead(e, s, lost, x); }
    }
    assert s.futures[s.named[x]].phase.Running?;
  }

  lemma NothingToLose(e: Env, s: State, lost: LossMap)
    requires LossesOk(e, lost, |e.rules|) && !Reading(e, s)
    ensures LostAt(lost, s.ruleIndex) == {}
  {
    assert forall x :: x in LostAt(lost, s.ruleIndex) ==> Losable(e, s.ruleIndex, x);
  }

  lemma RecordedLosses(e: Env, f: Fine, lost: LossMap)
    requires OnCourse(e, f, lost) && f.state.ruleIndex < |e.rules|
    ensures Losses(e, EarlyState(e, f.state, lost), Behind(f.state, LostAt(lost, f.state.ruleIndex)))
         == set x | x in LostAt(lost, f.state.ruleIndex) && x in f.state.named
  {
    EarlySteady(e, f.state, lost);
    ArrangedRest(e, f.state, lost);
    if Reading(e, f.state) {
      ArrangedLosses(e, f, lost);
      ArrangedIsReady(e, f, lost);
    } else {
      NothingToLose(e, f.state, lost);
    }
  }

  /** The losses after the visit. */
  function LostNow(e: Env, f: Fine, lost: LossMap): LossMap {
    var recorded := Losses(e, EarlyState(e, f.state, lost), Behind(f.state, LostAt(lost, f.state.ruleIndex)));
    Record(f.lost, f.state.ruleIndex, recorded)
  }

  lemma VisitedLost(e: Env, f: Fine, lost: LossMap)
    requires f.state.control.Visiting? && f.state.armed == [] && Raceless(e)
    ensures Visited(e, f, lost).lost == LostNow(e, f, lost)
  {
  }

  lemma SameStep(e: Env, i: nat, q: Memory, a: set<string>, b: set<string>)
    requires i < |e.rules| && forall x :: x in q.named ==> (x in a <==> x in b)
    ensures LossyStep(e, i, q, a) == LossyStep(e, i, q, b)
  {
    assert q.named - a == q.named - b;
  }

  lemma NamesOfImage(e: Env, s: State)
    requires Names(s)
    ensures Abs(e, s).named.Keys == s.named.Keys
  {
  }

  /** The losses recorded at the rule count as much as the ones wanted. */
  lemma SameLosses(e: Env, f: Fine, lost: LossMap)
    requires OnCourse(e, f, lost) && f.state.ruleIndex < |e.rules|
    ensures var i, q := f.state.ruleIndex, Abs(e, f.state);
            && LossyStep(e, i, q, LostAt(LostNow(e, f, lost), i)) == LossyStep(e, i, q, LostAt(lost, i))
            && LossyArrival(e, LostNow(e, f, lost), i) == Some(q)
  {
    var i := f.state.ruleIndex;
    RecordedLosses(e, f, lost);
    NamesOfImage(e, f.state);
    assert LostAt(f.lost, i) == {};
    SameStep(e, i, Abs(e, f.state), LostAt(LostNow(e, f, lost), i), LostAt(lost, i));
    LossyFrame(e, f.lost, LostNow(e, f, lost), i);
  }

  // ---------------------------------------------------------------------
  // Whole runs
  // ---------------------------------------------------------------------

  lemma FinishPending(e: Env, f: Fine, p: PendingExchange) returns (run: seq<FineLabel>, g: Fine)
    requires Raceless(e) && f.state.control == Sweeping(Pending(p)) && p.Plain? && f.state.armed == []
    requires !f.state.contextDone
    ensures FineRuns(e, f, run, g) && g.state.control == Done(OutcomeOf(e, f.state, p)) && !g.state.contextDone
  {
    var walk := Coarse(Walk);
    var checking := Fine(SweepStep(e, f.state), f.lost);
    var finishing := Fine(CheckStep(checking.state), f.lost);
    g := Fine(Finish(finishing.state, OutcomeOf(e, finishing.state, p)), f.lost);
    SweptAlone(e, f.state, p);
    BegunAlone(checking.state, p);
    assert FineRuns(e, g, [], g);
    Prepend(e, finishing, walk, [], g);
    Prepend(e, checking, walk, [walk] + [], g);
    Prepend(e, f, walk, [walk] + ([walk] + []), g);
    run := [walk] + ([walk] + ([walk] + []));
  }

  lemma SweptAlone(e: Env, s: State, p: PendingExchange)
    requires s.control == Sweeping(Pending(p)) && s.armed == []
    ensures SweepStep(e, s).control == Checking(Pending(p)) && SweepStep(e, s).contextDone == s.contextDone
  {
  }

  lemma BegunAlone(s: State, p: PendingExchange)
    requires s.control == Checking(Pending(p)) && p.Plain?
    ensures CheckStep(s).control == Finishing(p) && CheckStep(s).contextDone == s.contextDone
  {
  }

  /** The conclusion reached is the one with the losses wanted. */
  lemma SameConclusion(e: Env, f: Fine, lost: LossMap, o: Outcome)
    requires OnCourse(e, f, lost) && f.state.ruleIndex < |e.rules|
    requires ConcludesAt(e, LostNow(e, f, lost), f.state.ruleIndex, o)
    ensures LossyReference(e, lost) == o
  {
    SameLosses(e, f, lost);
    ConclusionIsReference(e, lost, f.state.ruleIndex, o);
  }

  lemma CourseGoesOn(e: Env, f: Fine, lost: LossMap, g: Fine)
    requires OnCourse(e, f, lost) && f.state.ruleIndex < |e.rules|
    requires FineSound(e, g) && g.state.control.Visiting? && Lazy(e, g.state) && !g.state.contextDone
    requires g.state.ruleIndex == f.state.ruleIndex + 1 && g.lost == LostNow(e, f, lost)
    ensures OnCourse(e, g, lost)
  {
    SameLosses(e, f, lost);
    assert LossyArrival(e, g.lost, g.state.ruleIndex) == LossyArrival(e, lost, g.state.ruleIndex);
  }

  lemma VisitFirst(e: Env, f: Fine, lost: LossMap, rest: seq<FineLabel>, g: Fine) returns (run: seq<FineLabel>)
    requires OnCourse(e, f, lost) && FineRuns(e, Visited(e, f, lost), rest, g)
    ensures FineRuns(e, f, run, g)
  {
    var early := Fine(EarlyState(e, f.state, lost), f.lost);
    var l := Late(Behind(f.state, LostAt(lost, f.state.ruleIndex)));
    Prepend(e, early, l, rest, g);
    EarlyInRange(e, f.state, lost);
    run := CompleteAll(e, f, Early(e, f.state, lost), [l] + rest, g);
  }

  lemma {:induction false} Realise(e: Env, f: Fine, lost: LossMap) returns (run: seq<FineLabel>, g: Fine)
    requires OnCourse(e, f, lost)
    ensures FineRuns(e, f, run, g) && g.state.control == Done(LossyReference(e, lost)) && !g.state.contextDone
    decreases |e.rules| - f.state.ruleIndex
  {
    var next := Visited(e, f, lost);
    var rest: seq<FineLabel>;
    VisitedIsSound(e, f, lost);
    if f.state.ruleIndex == |e.rules| {
      rest, g := RealiseLast(e, f, lost);
    } else {
      VisitedMoves(e, f, lost);
      VisitedLost(e, f, lost);
      ArrangedRest(e, f.state, lost);
      match next.state.control
      case Visiting =>
        StaysLazy(e, f, lost);
        CourseGoesOn(e, f, lost, next);
        rest, g := Realise(e, next, lost);
      case Done(o) =>
        SameConclusion(e, f, lost, o);
        rest, g := [], next;
      case Sweeping(x) =>
        SameConclusion(e, f, lost, OutcomeOf(e, next.state, x.exchange));
        rest, g := FinishPending(e, next, x.exchange);
    }
    run := VisitFirst(e, f, lost, rest, g);
  }

  lemma RealiseLast(e: Env, f: Fine, lost: LossMap) returns (rest: seq<FineLabel>, g: Fine)
    requires OnCourse(e, f, lost) && f.state.ruleIndex == |e.rules|
    ensures FineRuns(e, Visited(e, f, lost), rest, g) && g.state.control == Done(LossyReference(e, lost))
    ensures !g.state.contextDone
  {
    var next := Visited(e, f, lost);
    var t := Arranged(e, f.state, lost);
    ArrangedRest(e, f.state, lost);
    var p := Plain(|e.rules|, e.defaultTransport, f.state.options);
    assert next.state == Suspend(t, Pending(p));
    rest, g := FinishPending(e, next, p);
    LossyArrivalInterprets(e, lost, |e.rules|);
    assert OutcomeOf(e, next.state, p) == Fallback(e, Abs(e, f.state));
  }

  /** The outcomes a list without race rules can have are exactly those of the
      sequential reading with losses. */
  lemma OutcomesAreLossy(e: Env, o: Outcome)
    requires WellFormed(e.rules) && Raceless(e)
    ensures CanEnd(e, o) <==> exists lost: LossMap :: LossesOk(e, lost, |e.rules|) && LossyReference(e, lost) == o
  {
    if CanEnd(e, o) {
      var g: Fine :| FineReachable(e, g) && g.state.control == Done(o) && !g.state.contextDone;
      EndsWithLosses(e, g, o);
    }
    if lost: LossMap :| LossesOk(e, lost, |e.rules|) && LossyReference(e, lost) == o {
      FineInit(e);
      assert LossyArrival(e, lost, 0) == Some(Start(e)) && Abs(e, Init(e)) == Start(e);
      var run, g := Realise(e, Fine(Init(e), map[]), lost);
      assert FineReachable(e, g);
    }
  }

  /** The walk agrees with the sequential interpreter at every timing exactly
      when no rule that is the first to bind a response can change the outcome
      by missing it. */
  lemma AlwaysRefinesIff(e: Env)
    requires WellFormed(e.rules) && Raceless(e)
    ensures (forall o :: CanEnd(e, o) ==> o == Reference(e)) <==>
            (forall lost: LossMap :: LossesOk(e, lost, |e.rules|) ==> LossyReference(e, lost) == Reference(e))
  {
    forall lost: LossMap | LossesOk(e, lost, |e.rules|) ensures CanEnd(e, LossyReference(e, lost)) {
      OutcomesAreLossy(e, LossyReference(e, lost));
    }
    forall o | CanEnd(e, o)
      ensures exists lost: LossMap :: LossesOk(e, lost, |e.rules|) && LossyReference(e, lost) == o
    {
      OutcomesAreLossy(e, o);
    }
  }

  /** The same list before other servers. */
  function WithAnswers(e: Env, answer: (nat, Transport, Options) -> Answer): Env { e.(answer := answer) }

  /** A list agrees with the sequential interpreter whatever the servers answer
      and whenever they do exactly when no answers make a loss matter. */
  lemma ListAlwaysRefinesIff(e: Env)
    requires WellFormed(e.rules) && Raceless(e)
    ensures (forall answer, o :: CanEnd(WithAnswers(e, answer), o) ==> o == Reference(WithAnswers(e, answer))) <==>
            (forall answer, lost: LossMap :: LossesOk(e, lost, |e.rules|) ==>
               LossyReference(WithAnswers(e, answer), lost) == Reference(WithAnswers(e, answer)))
  {
    forall answer: (nat, Transport, Options) -> Answer, lost: LossMap | LossesOk(e, lost, |e.rules|)
      ensures CanEnd(WithAnswers(e, answer), LossyReference(WithAnswers(e, answer), lost))
    {
      var d := WithAnswers(e, answer);
      assert LossesOk(d, lost, |d.rules|);
      OutcomesAreLossy(d, LossyReference(d, lost));
    }
    forall answer: (nat, Transport, Options) -> Answer, o | CanEnd(WithAnswers(e, answer), o)
      ensures exists lost: LossMap :: LossesOk(e, lost, |e.rules|) && LossyReference(WithAnswers(e, answer), lost) == o
    {
      var d := WithAnswers(e, answer);
      OutcomesAreLossy(d, o);
      var lost: LossMap :| LossesOk(d, lost, |d.rules|) && LossyReference(d, lost) == o;
      assert LossesOk(e, lost, |e.rules|);
    }
  }

  // ---------------------------------------------------------------------
  // Rules that do not mind a loss
  // ---------------------------------------------------------------------

  /** The rule does not return the response, and whether it matches does not
      depend on it. */
  ghost predicate Indifferent(rule: Rule, t: string) {
    && rule.respondTag != t
    && forall b: Bound :: t in b.named ==> rule.matches(b) == rule.matches(Blank(b, {t}))
  }

  /** The responses with the lost ones blanked out. */
  function Blank(b: Bound, lost: set<string>): Bound {
    b.(named := map t | t in b.named :: if t in lost then None else b.named[t])
  }

  lemma BlankTwice(b: Bound, t: string, lost: set<string>)
    ensures Blank(Blank(b, {t}), lost) == Blank(b, lost + {t})
  {
  }

  lemma {:induction false} MindsNothing(rule: Rule, b: Bound, lost: set<string>)
    requires forall t :: t in lost ==> Indifferent(rule, t)
    ensures rule.matches(b) == rule.matches(Blank(b, lost))
    decreases lost
  {
    if lost == {} {
      assert Blank(b, {}) == b;
    } else {
      var t :| t in lost;
      var rest := lost - {t};
      MindsNothing(rule, Blank(b, {t}), rest);
      BlankTwice(b, t, rest);
      assert rest + {t} == lost;
      if t !in b.named { assert Blank(b, {t}) == b; }
    }
  }

  lemma BlankIsLost(rule: Rule, q: Memory, lost: set<string>)
    requires forall t :: t in lost ==> Indifferent(rule, t)
    ensures Holds(rule, q.(named := q.named - lost)) == Holds(rule, q)
  {
    var anonymous := if rule.anonymous then ViewOf(q.anonymous) else None;
    var b := Bound(anonymous, BoundNames(rule, NamedViews(q.named)));
    MindsNothing(rule, b, lost);
    assert BoundNames(rule, NamedViews(q.named - lost)) == Blank(b, lost).named;
  }

  /** A rule that minds none of its losses does what it would do without. */
  lemma IndifferentStep(e: Env, i: nat, q: Memory, lost: set<string>)
    requires i < |e.rules| && forall t :: t in lost ==> Indifferent(e.rules[i], t)
    ensures LossyStep(e, i, q, lost) == LossyStep(e, i, q, {})
  {
    var seen := q.(named := q.named - lost);
    BlankIsLost(e.rules[i], q, lost);
    assert q.named - {} == q.named && q.named + seen.named == q.named + q.named;
    if e.rules[i].action.EvaluateAction? { EvaluateAlike(e, i, e.rules[i].action, q, lost); }
  }

  lemma EvaluateAlike(e: Env, i: nat, action: Action, q: Memory, lost: set<string>)
    requires action.EvaluateAction?
    ensures var a, b := Evaluate(e, i, action, q.(named := q.named - lost)), Evaluate(e, i, action, q);
            a.(named := q.named + a.named) == b.(named := q.named + b.named)
  {
    var a, b := Evaluate(e, i, action, q.(named := q.named - lost)), Evaluate(e, i, action, q);
    assert q.named + a.named == q.named + b.named;
  }

  /** No rule minds what it loses. */
  ghost predicate Unminded(e: Env, lost: LossMap) {
    forall i: nat, t :: i < |e.rules| && t in LostAt(lost, i) ==> Indifferent(e.rules[i], t)
  }

  lemma LossesUnminded(e: Env, lost: LossMap)
    requires LossesOk(e, lost, |e.rules|)
    requires forall j: nat, t :: Losable(e, j, t) ==> Indifferent(e.rules[j], t)
    ensures Unminded(e, lost)
  {
    forall i: nat, t | i < |e.rules| && t in LostAt(lost, i) ensures Indifferent(e.rules[i], t) {
      assert Losable(e, i, t);
    }
  }

  lemma UnmindedStep(e: Env, lost: LossMap, i: nat, q: Memory)
    requires i < |e.rules| && Unminded(e, lost)
    ensures LossyStep(e, i, q, LostAt(lost, i)) == LossyStep(e, i, q, {})
  {
    IndifferentStep(e, i, q, LostAt(lost, i));
  }

  lemma {:induction false} IndifferentInterpret(e: Env, lost: LossMap, i: nat, q: Memory)
    requires i <= |e.rules| && Unminded(e, lost)
    ensures LossyInterpret(e, lost, i, q) == LossyInterpret(e, map[], i, q)
    decreases |e.rules| - i
  {
    if i < |e.rules| {
      UnmindedStep(e, lost, i, q);
      var next := LossyStep(e, i, q, {});
      if next.Proceed? { IndifferentInterpret(e, lost, i + 1, next.memory); }
    }
  }

  /** A condition on the list alone: when no rule that is the first to bind a
      response returns it or depends on it, every run refines the interpreter. */
  lemma IndifferentListsRefine(e: Env, o: Outcome)
    requires WellFormed(e.rules) && Raceless(e) && CanEnd(e, o)
    requires forall j: nat, t :: Losable(e, j, t) ==> Indifferent(e.rules[j], t)
    ensures o == Reference(e)
  {
    OutcomesAreLossy(e, o);
    var lost: LossMap :| LossesOk(e, lost, |e.rules|) && LossyReference(e, lost) == o;
    LossesUnminded(e, lost);
    IndifferentInterpret(e, lost, 0, Start(e));
    LosslessInterpret(e, map[], 0, Start(e));
  }

  // ---------------------------------------------------------------------
  // A list that can end in two ways
  // ---------------------------------------------------------------------

  predicate Always(b: Bound) { true }

  predicate HasAnswered(b: Bound) { "a" in b.named && b.named["a"].Some? }

  /** Query a server under the tag "a"; reject when it answered; otherwise ask
      the default server. */
  function TwoWays(server: Transport, fallback: Transport, initial: Options, overrides: Overrides): Env {
    Env([Rule(false, false, [], false, "", Always, EvaluateAction("s", "a", false, overrides)),
         Rule(false, false, ["a"], false, "", HasAnswered, RejectAction(DefaultReject))],
        map["s" := server], fallback, AsIs, true, initial, (rule, transport, options) => Reply(Message(0)))
  }

  lemma TwoWaysWellFormed(server: Transport, fallback: Transport, initial: Options, overrides: Overrides)
    ensures var e := TwoWays(server, fallback, initial, overrides);
            WellFormed(e.rules) && Raceless(e) && LossesOk(e, map[1 := {"a"}], |e.rules|)
  {
    var e := TwoWays(server, fallback, initial, overrides);
    assert e.rules[0].Defines("a");
  }

  lemma TwoWaysReference(e: Env, q: Memory, server: Transport, fallback: Transport, initial: Options,
                         overrides: Overrides)
    requires e == TwoWays(server, fallback, initial, overrides) && q == Evaluate(e, 0, e.rules[0].action, Start(e))
    ensures StepRule(e, 0, Start(e)) == Proceed(q) && q.named.Keys == {"a"}
    ensures Reference(e) == Rejected(1)
  {
    assert q.named["a"].answer == Reply(Message(0));
    assert NamedViews(q.named)["a"] == Some(Message(0));
    assert BoundNames(e.rules[1], NamedViews(q.named))["a"] == Some(Message(0));
    assert StepRule(e, 1, q) == Decide(Rejected(1));
    assert Interpret(e, 1, q) == Rejected(1);
  }

  lemma LossyTwoWays(e: Env, q: Memory, lost: LossMap, server: Transport, fallback: Transport, initial: Options,
                     overrides: Overrides)
    requires e == TwoWays(server, fallback, initial, overrides) && lost == map[1 := {"a"}]
    requires StepRule(e, 0, Start(e)) == Proceed(q) && q.named.Keys == {"a"}
    ensures LossyReference(e, lost).Exchanged? && LossyReference(e, lost).transport == fallback
  {
    assert Start(e).named - {} == Start(e).named && Start(e).named + q.named == q.named;
    assert LossyStep(e, 0, Start(e), LostAt(lost, 0)) == Proceed(q);
    var seen := q.(named := q.named - {"a"});
    assert "a" !in seen.named;
    assert BoundNames(e.rules[1], NamedViews(seen.named))["a"] == None;
    assert StepRule(e, 1, seen) == Proceed(seen);
    assert LossyStep(e, 1, q, LostAt(lost, 1)) == Proceed(q.(named := q.named + seen.named));
    assert LossyInterpret(e, lost, 1, q) == LossyInterpret(e, lost, 2, q.(named := q.named + seen.named));
  }

  /** The answer arrives, and yet the walk may end either way: with the
      rejection, as the sequential interpreter does, or at the default server. */
  lemma LateAnswerChangesOutcome(e: Env, server: Transport, fallback: Transport, initial: Options, overrides: Overrides)
    requires e == TwoWays(server, fallback, initial, overrides)
    ensures WellFormed(e.rules) && Raceless(e) && Reference(e) == Rejected(1)
    ensures CanEnd(e, Rejected(1)) && exists o :: CanEnd(e, o) && o.Exchanged? && o.transport == fallback
  {
    TwoWaysWellFormed(server, fallback, initial, overrides);
    var q := Evaluate(e, 0, e.rules[0].action, Start(e));
    TwoWaysReference(e, q, server, fallback, initial, overrides);
    BothWays(e, q, server, fallback, initial, overrides);
  }

  lemma BothWays(e: Env, q: Memory, server: Transport, fallback: Transport, initial: Options, overrides: Overrides)
    requires e == TwoWays(server, fallback, initial, overrides) && WellFormed(e.rules) && Raceless(e)
    requires LossesOk(e, map[1 := {"a"}], |e.rules|) && Reference(e) == Rejected(1)
    requires StepRule(e, 0, Start(e)) == Proceed(q) && q.named.Keys == {"a"}
    ensures CanEnd(e, Rejected(1)) && exists o :: CanEnd(e, o) && o.Exchanged? && o.transport == fallback
  {
    CanEndPlainly(e);
    var one: LossMap := map[1 := {"a"}];
    LossyTwoWays(e, q, one, server, fallback, initial, overrides);
    CanEndWith(e, one);
  }

  lemma CanEndWith(e: Env, lost: LossMap)
    requires WellFormed(e.rules) && Raceless(e) && LossesOk(e, lost, |e.rules|)
    ensures CanEnd(e, LossyReference(e, lost))
  {
    OutcomesAreLossy(e, LossyReference(e, lost));
  }

  lemma CanEndPlainly(e: Env)
    requires WellFormed(e.rules) && Raceless(e)
    ensures CanEnd(e, Reference(e))
  {
    LosslessInterpret(e, map[], 0, Start(e));
    CanEndWith(e, map[]);
  }
}

/** What every reachable state of a walk satisfies. */
module WalkInvariant {
  import opened Optional
  import opened QueryOptions
  import opened RuleWalk
  import opened SequentialRules

  // ---------------------------------------------------------------------
  // The sequential memory behind a walk state
  // ---------------------------------------------------------------------

  /** What a future stands for, resolved or not. */
  function Image(e: Env, f: Future): Evaluated { Evaluated(f.rule, f.transport, AnswerOf(e, f)) }

  function ImageAt(e: Env, fs: seq<Future>, a: Option<nat>): Option<Evaluated> {
    if a.Some? && a.value < |fs| then Some(Image(e, fs[a.value])) else None
  }

  function ImageNamed(e: Env, fs: seq<Future>, named: map<string, nat>): map<string, Evaluated> {
    map t | t in named && named[t] < |fs| :: Image(e, fs[named[t]])
  }

  function Abs(e: Env, s: State): Memory {
    Memory(s.options, ImageAt(e, s.futures, s.anonymous), ImageNamed(e, s.futures, s.named))
  }

  /** Futures only grow in number and in phase; what they ask never changes. */
  predicate Kept(f: Future, g: Future) {
    && f.rule == g.rule && f.tag == g.tag && f.terminal == g.terminal
    && f.transport == g.transport && f.options == g.options
    && (!f.phase.Running? ==> !g.phase.Running?)
  }

  predicate Extends(fs: seq<Future>, gs: seq<Future>) {
    |fs| <= |gs| && forall k :: 0 <= k < |fs| ==> Kept(fs[k], gs[k])
  }

  lemma ImageAtKept(e: Env, fs: seq<Future>, gs: seq<Future>, a: Option<nat>)
    requires Extends(fs, gs) && (a.Some? ==> a.value < |fs|)
    ensures ImageAt(e, fs, a) == ImageAt(e, gs, a)
  {
    if a.Some? { assert Kept(fs[a.value], gs[a.value]); }
  }

  lemma ImageNamedKept(e: Env, fs: seq<Future>, gs: seq<Future>, named: map<string, nat>)
    requires Extends(fs, gs) && (forall t :: t in named ==> named[t] < |fs|)
    ensures ImageNamed(e, fs, named) == ImageNamed(e, gs, named)
  {
    forall t | t in named ensures Image(e, fs[named[t]]) == Image(e, gs[named[t]]) {
      assert Kept(fs[named[t]], gs[named[t]]);
    }
  }

  // ---------------------------------------------------------------------
  // The invariant, clause by clause
  // ---------------------------------------------------------------------

  /** The query of future f is the one its rule asks for in the sequential
      reading: an evaluate rule's query, or the exchange of a route rule sent
      ahead of time. */
  predicate Requested(e: Env, f: Future) {
    && f.rule < |e.rules| && Arrival(Calm(e), f.rule).Some?
    && var q := Arrival(Calm(e), f.rule).value;
       var rule := e.rules[f.rule];
    && !rule.disabled && !rule.Armable() && Holds(rule, q)
    && if f.terminal then
         && rule.action.RouteAction? && f.tag == ""
         && ResolveRoute(e, rule.action.server, rule.action.overrides, q.options) == Some((f.transport, f.options))
       else
         && rule.action.EvaluateAction? && f.tag == rule.action.tag
         && rule.action.server in e.transports && f.transport == e.transports[rule.action.server]
         && f.options == Apply(q.options, rule.action.overrides)
  }

  /** An exchange still to be sent is the one its rule asks for in the
      sequential reading, or the one after the last rule. */
  predicate Planned(e: Env, p: PendingExchange) {
    p.Plain? ==>
      && p.rule <= |e.rules| && Arrival(Calm(e), p.rule).Some?
      && var q := Arrival(Calm(e), p.rule).value;
      if p.rule == |e.rules| then p.transport == e.defaultTransport && p.options == q.options
      else
        var rule := e.rules[p.rule];
        && !rule.disabled && Holds(rule, q) && rule.action.RouteAction?
        && ResolveRoute(e, rule.action.server, rule.action.overrides, q.options) == Some((p.transport, p.options))
  }

  /** Future k was launched before the rule the walk is at; the terminal one is
      the last and was launched there. */
  predicate LaunchedBy(e: Env, s: State, k: nat)
    requires k < |s.futures|
  {
    var f := s.futures[k];
    && Requested(e, f)
    && if f.terminal then s.terminal == Some(k) && k == |s.futures| - 1 && f.rule == s.ruleIndex == s.terminalIndex
       else f.rule < s.ruleIndex
  }

  /** Each rule launches at most one future, in rule order. */
  predicate Launches(e: Env, s: State) {
    && (forall k :: 0 <= k < |s.futures| ==> LaunchedBy(e, s, k))
    && (forall j, k :: 0 <= j < k < |s.futures| ==> s.futures[j].rule < s.futures[k].rule)
    && (s.terminal.Some? ==> s.terminal.value < |s.futures| && s.futures[s.terminal.value].terminal)
  }

  predicate Names(s: State) {
    && (forall t :: t in s.named ==> t != "" && s.named[t] < |s.futures| && s.futures[s.named[t]].tag == t)
    && (forall k :: 0 <= k < |s.futures| && s.futures[k].tag != "" ==>
          s.futures[k].tag in s.named && s.named[s.futures[k].tag] == k)
    && (s.anonymous.Some? ==> s.anonymous.value < |s.futures|)
  }

  /** The named responses are the views of settled futures. */
  predicate Responses(e: Env, s: State) {
    && (forall t :: t in s.responses ==>
          && t in s.named && IsResolved(s, s.named[t])
          && s.responses[t] == View(AnswerOf(e, s.futures[s.named[t]]))
          && t in s.responseTransports && s.responseTransports[t] == s.futures[s.named[t]].transport)
    && (forall k :: 0 <= k < |s.futures| && s.futures[k].settled ==>
          !s.futures[k].phase.Running? && (s.futures[k].tag != "" ==> s.futures[k].tag in s.responses))
  }

  predicate AllSettled(s: State) {
    forall k :: 0 <= k < |s.futures| && !s.futures[k].phase.Running? ==> s.futures[k].settled
  }

  predicate OnPath(e: Env, s: State) {
    s.ruleIndex <= |e.rules| && Arrival(Calm(e), s.ruleIndex) == Some(Abs(e, s))
  }

  /** An armed rule holds the options, and reads the responses, that the
      sequential interpreter would give it. */
  predicate ArmedOk(e: Env, s: State, a: Armed) {
    && Contends(e, a.ruleIndex)
    && var q := Arrival(Calm(e), a.ruleIndex).value;
       var rule := e.rules[a.ruleIndex];
    && a.options == q.options && a.bindsAnonymous == rule.anonymous
    && (a.anonymous.Some? ==> rule.anonymous && a.anonymous.value < |s.futures|)
    && (rule.anonymous ==> ImageAt(e, s.futures, a.anonymous) == q.anonymous)
    && (forall t :: t in rule.tags ==> Named(q, t) == Named(Abs(e, s), t))
    && (forall t :: t in rule.tags && t in s.named ==> IsResolved(s, s.named[t]) || s.named[t] in a.waits)
    && (a.anonymous.Some? ==> IsResolved(s, a.anonymous.value) || a.anonymous.value in a.waits)
    && (forall w :: w in a.waits ==> w < |s.futures|)
  }

  /** A respond rule without a tag that stays armed has pinned its response. */
  predicate Pinned(e: Env, a: Armed) {
    a.ruleIndex < |e.rules| && e.rules[a.ruleIndex].action.RespondAction? && e.rules[a.ruleIndex].respondTag == ""
    ==> a.anonymous.Some?
  }

  /** The rules armed, by index. */
  function Indices(armed: seq<Armed>): set<nat> {
    if armed == [] then {} else {armed[0].ruleIndex} + Indices(armed[1..])
  }

  predicate Ascending(armed: seq<Armed>) {
    armed != [] ==>
      (forall r :: r in Indices(armed[1..]) ==> armed[0].ruleIndex < r) && Ascending(armed[1..])
  }

  function Elements(s: seq<nat>): set<nat> { set x | x in s }

  predicate Distinct(s: seq<nat>) { forall i, j :: 0 <= i < j < |s| ==> s[i] != s[j] }

  predicate Armory(e: Env, s: State, bound: nat) {
    && (forall i :: 0 <= i < |s.armed| ==> ArmedOk(e, s, s.armed[i]) && Pinned(e, s.armed[i]))
    && (forall r :: r in Indices(s.armed) ==> r < bound)
    && Ascending(s.armed)
  }

  /** Every race rule passed so far is still armed, or was judged to no effect. */
  predicate RacesAccounted(e: Env, s: State, bound: nat) {
    forall r: nat :: r < bound && Contends(e, r) ==> r in Indices(s.armed) || Contention(e, r) == None
  }

  /** Judged race rules were judged once and are no longer armed. */
  predicate JudgedOnce(s: State, bound: nat) {
    && Distinct(s.judged)
    && (forall r :: r in s.judged ==> r < bound && r !in Indices(s.armed))
  }

  predicate Base(e: Env, s: State) {
    Launches(e, s) && Names(s) && Responses(e, s) && OnPath(e, s)
  }

  // ---------------------------------------------------------------------
  // Settling
  // ---------------------------------------------------------------------

  lemma {:induction false} Collected(e: Env, fs: seq<Future>, m: map<string, Option<Message>>,
                                     x: map<string, Transport>)
    ensures var r, y := CollectResponses(e, fs, m), CollectTransports(fs, x);
      && (forall t :: t in m ==> t in r) && (forall t :: t in x ==> t in y)
      && (forall k :: 0 <= k < |fs| && Unsettled(fs[k]) && fs[k].tag != "" ==> fs[k].tag in r)
      && (forall t :: t in r && !(t in m && r[t] == m[t] && (t in x ==> y[t] == x[t])) ==>
            t in y && exists k :: 0 <= k < |fs| && Unsettled(fs[k]) && fs[k].tag == t
                                  && r[t] == View(AnswerOf(e, fs[k])) && y[t] == fs[k].transport)
  {
    if fs != [] {
      var rest := fs[..|fs| - 1];
      Collected(e, rest, m, x);
      var r, y := CollectResponses(e, fs, m), CollectTransports(fs, x);
      var r', y' := CollectResponses(e, rest, m), CollectTransports(rest, x);
      var last := |fs| - 1;
      forall t | t in r && !(t in m && r[t] == m[t] && (t in x ==> y[t] == x[t]))
        ensures t in y && exists k :: 0 <= k < |fs| && Unsettled(fs[k]) && fs[k].tag == t
                                  && r[t] == View(AnswerOf(e, fs[k])) && y[t] == fs[k].transport
      {
        if Unsettled(fs[last]) && fs[last].tag == t && t != "" {
          assert r[t] == View(AnswerOf(e, fs[last]));
        } else {
          assert r[t] == r'[t] && (t in y' ==> y[t] == y'[t]);
          var k :| 0 <= k < |rest| && Unsettled(rest[k]) && rest[k].tag == t
                   && r'[t] == View(AnswerOf(e, rest[k])) && y'[t] == rest[k].transport;
          assert fs[k] == rest[k];
        }
      }
      forall k | 0 <= k < |fs| && Unsettled(fs[k]) && fs[k].tag != "" ensures fs[k].tag in r {
        if k < last { assert rest[k] == fs[k]; }
      }
    }
  }

  lemma SettleExtends(e: Env, s: State)
    ensures Extends(s.futures, Settle(e, s).futures)
    ensures AllSettled(Settle(e, s))
  {
  }

  lemma SettleKeepsResponses(e: Env, s: State)
    requires Names(s) && Responses(e, s)
    ensures Responses(e, Settle(e, s))
  {
    var t := Settle(e, s);
    Collected(e, s.futures, s.responses, s.responseTransports);
    forall tag | tag in t.responses
      ensures && tag in t.named && IsResolved(t, t.named[tag])
              && t.responses[tag] == View(AnswerOf(e, t.futures[t.named[tag]]))
              && tag in t.responseTransports && t.responseTransports[tag] == t.futures[t.named[tag]].transport
    {
      SettledResponse(e, s, tag);
    }
  }

  /** A response copied by settling, or there before, is the one of its query. */
  lemma SettledResponse(e: Env, s: State, tag: string)
    requires Names(s) && Responses(e, s) && tag in Settle(e, s).responses
    ensures var t := Settle(e, s);
            && tag in t.named && IsResolved(t, t.named[tag])
            && t.responses[tag] == View(AnswerOf(e, t.futures[t.named[tag]]))
            && tag in t.responseTransports && t.responseTransports[tag] == t.futures[t.named[tag]].transport
  {
    var t := Settle(e, s);
    Collected(e, s.futures, s.responses, s.responseTransports);
    if "" in t.responses { EmptyTagNeverCollected(e, s.futures, s.responses); }
    if !(tag in s.responses && t.responses[tag] == s.responses[tag]
         && (tag in s.responseTransports ==> t.responseTransports[tag] == s.responseTransports[tag])) {
      var k :| 0 <= k < |s.futures| && Unsettled(s.futures[k]) && s.futures[k].tag == tag
               && t.responses[tag] == View(AnswerOf(e, s.futures[k]))
               && t.responseTransports[tag] == s.futures[k].transport;
      assert s.named[tag] == k;
    }
  }

  lemma {:induction false} EmptyTagNeverCollected(e: Env, fs: seq<Future>, m: map<string, Option<Message>>)
    requires "" !in m
    ensures "" !in CollectResponses(e, fs, m)
  {
    if fs != [] { EmptyTagNeverCollected(e, fs[..|fs| - 1], m); }
  }

  // ---------------------------------------------------------------------
  // Steps that leave the launches alone
  // ---------------------------------------------------------------------

  /** t differs from s only in what never matters to the path: the progress of
      its futures, its responses, its armed rules and its control. */
  predicate SamePath(s: State, t: State) {
    && t.ruleIndex == s.ruleIndex && t.options == s.options && t.anonymous == s.anonymous
    && t.named == s.named && t.terminal == s.terminal && t.terminalIndex == s.terminalIndex
    && |t.futures| == |s.futures| && Extends(s.futures, t.futures)
  }

  lemma SamePathKeeps(e: Env, s: State, t: State)
    requires Launches(e, s) && Names(s) && SamePath(s, t)
    ensures Launches(e, t) && Names(t) && Abs(e, t) == Abs(e, s)
  {
    forall k | 0 <= k < |t.futures| ensures LaunchedBy(e, t, k) && Kept(s.futures[k], t.futures[k]) {
      assert LaunchedBy(e, s, k) && Kept(s.futures[k], t.futures[k]);
    }
    ImageAtKept(e, s.futures, t.futures, s.anonymous);
    ImageNamedKept(e, s.futures, t.futures, s.named);
  }

  lemma SettleKeepsBase(e: Env, s: State)
    requires Base(e, s)
    ensures Base(e, Settle(e, s)) && AllSettled(Settle(e, s)) && Abs(e, Settle(e, s)) == Abs(e, s)
  {
    SettleExtends(e, s);
    SettleKeepsResponses(e, s);
    SamePathKeeps(e, s, Settle(e, s));
  }

  // ---------------------------------------------------------------------
  // Judging with resolved responses is judging with the sequential memory
  // ---------------------------------------------------------------------

  lemma SameBinding(rule: Rule, a: Option<Message>, m: map<string, Option<Message>>,
                    b: Option<Message>, n: map<string, Option<Message>>)
    requires rule.anonymous ==> a == b
    requires forall t :: t in rule.tags ==> Lookup(m, t) == Lookup(n, t)
    ensures Matches(rule, a, m) == Matches(rule, b, n)
  {
    assert BoundNames(rule, m) == BoundNames(rule, n);
  }

  lemma NamedLookup(e: Env, s: State, t: string)
    requires Names(s) && Responses(e, s) && AllSettled(s)
    requires t in s.named ==> IsResolved(s, s.named[t])
    ensures Lookup(s.responses, t) == ViewOf(Named(Abs(e, s), t))
    ensures RespondNamed(s, t) == Responding(Named(Abs(e, s), t))
  {
    if t in s.named {
      var f := s.futures[s.named[t]];
      assert f.settled && f.tag == t && t in s.responses;
      assert Named(Abs(e, s), t) == Some(Image(e, f));
    }
  }

  lemma AnonymousImage(e: Env, s: State, a: Option<nat>)
    requires a.Some? ==> IsResolved(s, a.value)
    ensures AnonymousView(e, s, a) == ViewOf(ImageAt(e, s.futures, a))
    ensures RespondAnonymous(e, s, a) == Responding(ImageAt(e, s.futures, a))
  {
  }

  predicate Bindable(s: State, rule: Rule) {
    && (forall t :: t in rule.tags && t in s.named ==> IsResolved(s, s.named[t]))
    && (rule.anonymous && s.anonymous.Some? ==> IsResolved(s, s.anonymous.value))
  }

  lemma MatchIsHolds(e: Env, s: State, rule: Rule)
    requires Names(s) && Responses(e, s) && Bindable(s, rule)
    requires rule.HasBindings() ==> AllSettled(s)
    ensures Matches(rule, AnonymousView(e, s, s.anonymous), s.responses) == Holds(rule, Abs(e, s))
  {
    var q := Abs(e, s);
    if rule.anonymous { AnonymousImage(e, s, s.anonymous); }
    forall t | t in rule.tags ensures Lookup(s.responses, t) == Lookup(NamedViews(q.named), t) {
      NamedLookup(e, s, t);
    }
    SameBinding(rule, AnonymousView(e, s, s.anonymous), s.responses, ViewOf(q.anonymous), NamedViews(q.named));
  }

  function CommitOutcome(e: Env, s: State, c: Commit): Outcome {
    match c
    case Result(o) => o
    case Exchange(p) => OutcomeOf(e, s, p)
  }

  /** A commit for race rule r: the outcome is the rule's effect. */
  predicate Effects(e: Env, s: State, judged: Option<Commit>, effect: Option<Outcome>) {
    match effect
    case None => judged.None?
    case Some(o) => judged.Some? && CommitOutcome(e, s, judged.value) == o
                    && (judged.value.Exchange? ==> judged.value.exchange.Plain?)
  }

  predicate Anchored(e: Env, s: State, a: Armed) { Pinned(e, a) || a.anonymous == s.anonymous }

  lemma ReadyBindings(e: Env, s: State, a: Armed)
    requires Names(s) && Responses(e, s) && AllSettled(s) && ArmedOk(e, s, a) && Ready(s, a)
    ensures var q := Arrival(Calm(e), a.ruleIndex).value;
      && (a.anonymous.Some? ==> IsResolved(s, a.anonymous.value))
      && forall t :: t in e.rules[a.ruleIndex].tags ==>
            && Lookup(s.responses, t) == Lookup(NamedViews(q.named), t)
            && RespondNamed(s, t) == Responding(Named(q, t))
  {
    var q := Arrival(Calm(e), a.ruleIndex).value;
    assert forall w :: w in a.waits ==> IsResolved(s, w);
    forall t | t in e.rules[a.ruleIndex].tags
      ensures Lookup(s.responses, t) == Lookup(NamedViews(q.named), t)
      ensures RespondNamed(s, t) == Responding(Named(q, t))
    {
      NamedLookup(e, s, t);
      assert Named(q, t) == Named(Abs(e, s), t);
    }
  }

  lemma ArmedMatchIsHolds(e: Env, s: State, a: Armed)
    requires Names(s) && Responses(e, s) && AllSettled(s) && ArmedOk(e, s, a) && Ready(s, a)
    ensures ArmedMatches(e, s, a) == Holds(e.rules[a.ruleIndex], Arrival(Calm(e), a.ruleIndex).value)
  {
    var q := Arrival(Calm(e), a.ruleIndex).value;
    ReadyBindings(e, s, a);
    AnonymousImage(e, s, a.anonymous);
    SameBinding(e.rules[a.ruleIndex], AnonymousView(e, s, if a.bindsAnonymous then a.anonymous else s.anonymous),
                s.responses, ViewOf(q.anonymous), NamedViews(q.named));
  }

  lemma PerformIsConclude(e: Env, s: State, a: Armed)
    requires WellFormed(e.rules) && Names(s) && Responses(e, s) && AllSettled(s)
    requires ArmedOk(e, s, a) && Anchored(e, s, a) && Ready(s, a)
    ensures Effects(e, s, PerformArmed(e, s, a), Conclude(e, a.ruleIndex, Arrival(Calm(e), a.ruleIndex).value))
  {
    if e.rules[a.ruleIndex].action.RespondAction? {
      ReadyBindings(e, s, a);
      AnonymousImage(e, s, a.anonymous);
    }
  }

  /** An armed rule that is ready does exactly what the sequential reading of
      the list says it would do. */
  lemma JudgeIsEffect(e: Env, s: State, a: Armed)
    requires WellFormed(e.rules) && Names(s) && Responses(e, s) && AllSettled(s)
    requires ArmedOk(e, s, a) && Anchored(e, s, a) && Ready(s, a)
    ensures Effects(e, s, JudgeArmed(e, s, a), Contention(e, a.ruleIndex))
  {
    ArmedMatchIsHolds(e, s, a);
    PerformIsConclude(e, s, a);
  }

  lemma ExchangeIsRoute(e: Env, s: State, a: Armed, p: PendingExchange)
    requires a.ruleIndex < |e.rules| && JudgeArmed(e, s, a) == Some(Exchange(p))
    ensures p.Plain? && p.rule == a.ruleIndex && ArmedMatches(e, s, a)
    ensures var action := e.rules[a.ruleIndex].action;
            && action.RouteAction?
            && ResolveRoute(e, action.server, action.overrides, a.options) == Some((p.transport, p.options))
  {
  }

  /** The exchange an armed rule commits is the one the sequential reading says. */
  lemma JudgeIsPlanned(e: Env, s: State, a: Armed, p: PendingExchange)
    requires Names(s) && Responses(e, s) && AllSettled(s) && ArmedOk(e, s, a) && Ready(s, a)
    requires JudgeArmed(e, s, a) == Some(Exchange(p))
    ensures Planned(e, p)
  {
    ExchangeIsRoute(e, s, a, p);
    ArmedMatchIsHolds(e, s, a);
  }

  // ---------------------------------------------------------------------
  // Sweeping
  // ---------------------------------------------------------------------

  predicate InRange(e: Env, armed: seq<Armed>) {
    forall i :: 0 <= i < |armed| ==> armed[i].ruleIndex < |e.rules|
  }

  /** Armed rule i is the first that is ready and takes effect. */
  predicate FirstEffective(e: Env, s: State, armed: seq<Armed>, i: nat)
    requires InRange(e, armed)
  {
    && i < |armed| && Ready(s, armed[i]) && JudgeArmed(e, s, armed[i]).Some?
    && forall j :: 0 <= j < i && Ready(s, armed[j]) ==> JudgeArmed(e, s, armed[j]).None?
  }

  /** A sweep commits the first armed rule, in rule order, that is ready and
      takes effect, and commits nothing exactly when there is none. */
  lemma {:induction false} SweepCommitsFirst(e: Env, s: State, armed: seq<Armed>)
    requires InRange(e, armed)
    ensures var c := Sweep(e, s, armed).commit;
      && (forall i: nat :: FirstEffective(e, s, armed, i) ==> c == JudgeArmed(e, s, armed[i]))
      && (c.Some? ==> exists i: nat :: FirstEffective(e, s, armed, i))
  {
    if armed != [] {
      var rest := armed[1..];
      SweepCommitsFirst(e, s, rest);
      var c := Sweep(e, s, armed).commit;
      if Ready(s, armed[0]) && JudgeArmed(e, s, armed[0]).Some? {
        assert FirstEffective(e, s, armed, 0);
      } else {
        forall i: nat | FirstEffective(e, s, armed, i) ensures c == JudgeArmed(e, s, armed[i]) {
          assert forall j :: 0 <= j < |rest| ==> rest[j] == armed[j + 1];
          assert FirstEffective(e, s, rest, i - 1);
        }
        if c.Some? {
          var i: nat :| FirstEffective(e, s, rest, i);
          assert forall j :: 0 < j < |armed| ==> rest[j - 1] == armed[j];
          assert FirstEffective(e, s, armed, i + 1);
        }
      }
    }
  }

  /** A sweep without a commit leaves exactly the rules that were not ready;
      the others had no effect. */
  lemma {:induction false} SweepKeepsUnready(e: Env, s: State, armed: seq<Armed>)
    requires InRange(e, armed) && Sweep(e, s, armed).commit.None?
    ensures var r := Sweep(e, s, armed);
      && (forall i :: 0 <= i < |r.kept| ==> !Ready(s, r.kept[i]))
      && (forall i :: 0 <= i < |armed| ==>
            armed[i] in r.kept || (Ready(s, armed[i]) && JudgeArmed(e, s, armed[i]).None?))
  {
    if armed != [] {
      SweepKeepsUnready(e, s, armed[1..]);
      assert forall j :: 0 < j < |armed| ==> armed[1..][j - 1] == armed[j];
    }
  }

  /** The judged rules leave the armed list, once each, and the others stay. */
  lemma {:induction false} SweepSplits(e: Env, s: State, armed: seq<Armed>)
    requires InRange(e, armed) && Ascending(armed)
    ensures var r := Sweep(e, s, armed);
      && Ascending(r.kept) && Distinct(r.judged)
      && Indices(r.kept) + Elements(r.judged) == Indices(armed)
      && Indices(r.kept) !! Elements(r.judged)
  {
    if armed != [] {
      var q := Sweep(e, s, armed[1..]);
      SweepSplits(e, s, armed[1..]);
      if !Ready(s, armed[0]) {
        KeepSplits(armed, q.kept, q.judged);
      } else {
        JudgeSplits(armed, q.kept, q.judged);
        JudgeSplits(armed, armed[1..], []);
      }
    }
  }

  /** The first armed rule stays in front of what is left of the others. */
  lemma KeepSplits(armed: seq<Armed>, kept: seq<Armed>, judged: seq<nat>)
    requires armed != [] && Ascending(armed) && Ascending(kept)
    requires Indices(kept) + Elements(judged) == Indices(armed[1..]) && Indices(kept) !! Elements(judged)
    ensures Ascending([armed[0]] + kept)
    ensures Indices([armed[0]] + kept) + Elements(judged) == Indices(armed)
    ensures Indices([armed[0]] + kept) !! Elements(judged)
  {
    assert ([armed[0]] + kept)[1..] == kept;
    assert Indices([armed[0]] + kept) == {armed[0].ruleIndex} + Indices(kept);
  }

  /** The first armed rule joins those judged. */
  lemma JudgeSplits(armed: seq<Armed>, kept: seq<Armed>, judged: seq<nat>)
    requires armed != [] && Ascending(armed) && Distinct(judged)
    requires Indices(kept) + Elements(judged) == Indices(armed[1..]) && Indices(kept) !! Elements(judged)
    ensures var all := [armed[0].ruleIndex] + judged;
            && Distinct(all) && Indices(kept) + Elements(all) == Indices(armed) && Indices(kept) !! Elements(all)
  {
    var first := armed[0].ruleIndex;
    forall x | x in judged ensures first != x { assert x in Elements(judged); }
    assert Elements([first] + judged) == {first} + Elements(judged);
  }

  lemma {:induction false} SweepKeepsArmed(e: Env, s: State, armed: seq<Armed>)
    requires InRange(e, armed)
    ensures forall i :: 0 <= i < |Sweep(e, s, armed).kept| ==> Sweep(e, s, armed).kept[i] in armed
  {
    if armed != [] {
      SweepKeepsArmed(e, s, armed[1..]);
      assert forall a :: a in armed[1..] ==> a in armed;
    }
  }

  lemma {:induction false} AppendIndices(armed: seq<Armed>, a: Armed)
    ensures Indices(armed + [a]) == Indices(armed) + {a.ruleIndex}
    ensures Ascending(armed) && (forall r :: r in Indices(armed) ==> r < a.ruleIndex) ==> Ascending(armed + [a])
  {
    if armed == [] {
      assert armed + [a] == [a];
      assert [a][1..] == [];
    } else {
      AppendIndices(armed[1..], a);
      assert (armed + [a])[1..] == armed[1..] + [a];
    }
  }

  lemma {:induction false} InIndices(armed: seq<Armed>)
    ensures forall i :: 0 <= i < |armed| ==> armed[i].ruleIndex in Indices(armed)
    ensures forall r :: r in Indices(armed) ==> exists i :: 0 <= i < |armed| && armed[i].ruleIndex == r
  {
    if armed != [] {
      var rest := armed[1..];
      InIndices(rest);
      assert forall i :: 0 < i < |armed| ==> armed[i] == rest[i - 1];
      forall r | r in Indices(armed) ensures exists i :: 0 <= i < |armed| && armed[i].ruleIndex == r {
        if r == armed[0].ruleIndex {
        } else {
          var i :| 0 <= i < |rest| && rest[i].ruleIndex == r;
          assert armed[i + 1].ruleIndex == r;
        }
      }
    }
  }

  // ---------------------------------------------------------------------
  // Undecided walks and characterised outcomes
  // ---------------------------------------------------------------------

  /** Some race rule that the sequential reading reaches has this effect. */
  ghost predicate RaceBacked(e: Env, o: Outcome) {
    exists r: nat :: Contends(e, r) && Contention(e, r) == Some(o)
  }

  /** The outcome of a race rule, or, when no race rule has an effect, the
      outcome of the list without its race rules. */
  ghost predicate Characterised(e: Env, o: Outcome) {
    RaceBacked(e, o)
    || ((forall r: nat :: Contends(e, r) ==> Contention(e, r) == None) && o == Reference(Calm(e)))
  }

  predicate Open(e: Env, s: State) {
    Base(e, s) && Armory(e, s, s.ruleIndex) && RacesAccounted(e, s, s.ruleIndex) && JudgedOnce(s, s.ruleIndex)
  }

  lemma ArmedOkKept(e: Env, s: State, t: State, a: Armed)
    requires Launches(e, s) && Names(s) && SamePath(s, t) && ArmedOk(e, s, a)
    ensures ArmedOk(e, t, a)
  {
    SamePathKeeps(e, s, t);
    ImageAtKept(e, s.futures, t.futures, a.anonymous);
    var rule := e.rules[a.ruleIndex];
    forall x | x in rule.tags && x in t.named ensures IsResolved(t, t.named[x]) || t.named[x] in a.waits {
      assert Kept(s.futures[s.named[x]], t.futures[s.named[x]]);
    }
    if a.anonymous.Some? { assert Kept(s.futures[a.anonymous.value], t.futures[a.anonymous.value]); }
  }

  lemma OpenKept(e: Env, s: State, t: State)
    requires Open(e, s) && SamePath(s, t) && t.armed == s.armed && t.judged == s.judged && Responses(e, t)
    ensures Open(e, t)
  {
    SamePathKeeps(e, s, t);
    forall i | 0 <= i < |t.armed| ensures ArmedOk(e, t, t.armed[i]) { ArmedOkKept(e, s, t, t.armed[i]); }
  }

  lemma SettleKeepsOpen(e: Env, s: State)
    requires Open(e, s)
    ensures Open(e, Settle(e, s)) && AllSettled(Settle(e, s))
  {
    SettleExtends(e, s);
    SettleKeepsResponses(e, s);
    OpenKept(e, s, Settle(e, s));
  }

  predicate Sweepable(e: Env, s: State) {
    && Names(s) && Responses(e, s) && AllSettled(s)
    && forall i :: 0 <= i < |s.armed| ==> ArmedOk(e, s, s.armed[i]) && Anchored(e, s, s.armed[i])
  }

  /** A sweep that commits commits the effect of a race rule. */
  lemma SweepCommitSound(e: Env, s: State)
    requires WellFormed(e.rules) && Sweepable(e, s)
    ensures InRange(e, s.armed)
    ensures var c := Sweep(e, s, s.armed).commit;
      && (c.Some? ==> RaceBacked(e, CommitOutcome(e, s, c.value)))
      && (c.Some? && c.value.Exchange? ==> c.value.exchange.Plain? && Planned(e, c.value.exchange))
  {
    SweepCommitsFirst(e, s, s.armed);
    if Sweep(e, s, s.armed).commit.Some? {
      var i: nat :| FirstEffective(e, s, s.armed, i);
      JudgeIsEffect(e, s, s.armed[i]);
      var c := JudgeArmed(e, s, s.armed[i]).value;
      if c.Exchange? { JudgeIsPlanned(e, s, s.armed[i], c.exchange); }
    }
  }

  /** A sweep that commits nothing drops only rules without effect. */
  lemma SweepDropSound(e: Env, s: State, x: nat)
    requires WellFormed(e.rules) && Sweepable(e, s) && InRange(e, s.armed)
    requires Sweep(e, s, s.armed).commit.None? && x in Indices(s.armed)
    ensures x in Indices(Sweep(e, s, s.armed).kept) || (Contends(e, x) && Contention(e, x) == None)
  {
    var kept := Sweep(e, s, s.armed).kept;
    SweepKeepsUnready(e, s, s.armed);
    InIndices(s.armed);
    InIndices(kept);
    var i :| 0 <= i < |s.armed| && s.armed[i].ruleIndex == x;
    if s.armed[i] in kept {
      var j :| 0 <= j < |kept| && kept[j] == s.armed[i];
    } else {
      JudgeIsEffect(e, s, s.armed[i]);
    }
  }
}

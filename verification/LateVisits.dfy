/** Completions inside the visit of a rule.

    A visit of a rule that binds responses first settles the resolved queries,
    copying their responses under their tags, and then looks which of the bound
    queries have resolved. A query that resolves in between counts as resolved,
    but its response has not been copied: the rule is judged without it. This
    module models such visits for lists without race rules, where they decide
    whether the walk agrees with the sequential interpreter. */
module LateVisits {
  import opened Optional
  import opened QueryOptions
  import opened RuleWalk
  import opened SequentialRules
  import opened WalkInvariant
  import WalkRuns

  predicate Raceless(e: Env) { forall i :: 0 <= i < |e.rules| ==> !e.rules[i].Armable() }

  // ---------------------------------------------------------------------
  // The machine
  // ---------------------------------------------------------------------

  function Landing(fs: seq<Future>, late: set<nat>): (r: seq<Future>)
    ensures |r| == |fs|
  {
    seq(|fs|, k requires 0 <= k < |fs| =>
      if k in late && fs[k].phase.Running? then fs[k].(phase := Resolved) else fs[k])
  }

  /** The futures in `late` resolve. */
  function Arrive(s: State, late: set<nat>): State { s.(futures := Landing(s.futures, late)) }

  /** The rule at hand reads responses. */
  predicate Reading(e: Env, s: State) {
    s.ruleIndex < |e.rules| && !e.rules[s.ruleIndex].disabled && e.rules[s.ruleIndex].HasBindings()
  }

  /** The state in which the bound queries are looked at. */
  function AtCheck(e: Env, s: State, late: set<nat>): State {
    if Reading(e, s) then Arrive(Settle(e, s), late) else Arrive(s, late)
  }

  function VisitLate(e: Env, s: State, late: set<nat>): State
    requires s.control.Visiting? && ArmedInRange(e, s) && Raceless(e)
  {
    var t := AtCheck(e, s, late);
    if !Reading(e, s) then Visit(e, t)
    else
      var waits := Awaited(t, e.rules[s.ruleIndex]);
      if waits != [] then Suspend(t, Await(waits[0])) else Judge(e, t)
  }

  /** Without late completions this is the visit as before. */
  lemma PunctualVisit(e: Env, s: State)
    requires s.control.Visiting? && ArmedInRange(e, s) && Raceless(e)
    ensures VisitLate(e, s, {}) == Visit(e, s)
  {
    assert Landing(s.futures, {}) == s.futures;
    assert Landing(Settle(e, s).futures, {}) == Settle(e, s).futures;
    assert Arrive(s, {}) == s && Arrive(Settle(e, s), {}) == Settle(e, s);
  }

  /** The bound tags whose responses a judged rule does not get to see. */
  function Missing(s: State, rule: Rule): set<string> {
    set t | t in rule.tags && t in s.named && t !in s.responses
  }

  function Losses(e: Env, s: State, late: set<nat>): set<string> {
    var t := AtCheck(e, s, late);
    if Reading(e, s) && Awaited(t, e.rules[s.ruleIndex]) == [] then Missing(t, e.rules[s.ruleIndex]) else {}
  }

  /** A walk with its losses so far, rule by rule. */
  datatype Fine = Fine(state: State, lost: map<nat, set<string>>)

  datatype FineLabel = Coarse(step: Label) | Late(late: set<nat>)

  predicate FineEnabled(e: Env, f: Fine, l: FineLabel) {
    match l
    case Coarse(step) => Enabled(e, f.state, step) && !(step.Walk? && f.state.control.Visiting?)
    case Late(_) => f.state.control.Visiting? && ArmedInRange(e, f.state)
  }

  function Record(lost: map<nat, set<string>>, i: nat, losses: set<string>): map<nat, set<string>> {
    if losses == {} then lost else lost[i := losses]
  }

  function FineStep(e: Env, f: Fine, l: FineLabel): Fine
    requires Raceless(e) && FineEnabled(e, f, l)
  {
    match l
    case Coarse(step) => Fine(Step(e, f.state, step), f.lost)
    case Late(late) =>
      Fine(VisitLate(e, f.state, late), Record(f.lost, f.state.ruleIndex, Losses(e, f.state, late)))
  }

  predicate FineRuns(e: Env, f: Fine, run: seq<FineLabel>, g: Fine)
    requires Raceless(e)
    decreases |run|
  {
    if run == [] then f == g
    else FineEnabled(e, f, run[0]) && FineRuns(e, FineStep(e, f, run[0]), run[1..], g)
  }

  // ---------------------------------------------------------------------
  // The sequential reading with losses
  // ---------------------------------------------------------------------

  type LossMap = map<nat, set<string>>

  function LostAt(lost: LossMap, i: nat): set<string> { if i in lost then lost[i] else {} }

  /** Rule i judged without the responses lost to it. */
  function LossyStep(e: Env, i: nat, q: Memory, lost: set<string>): Progress
    requires i < |e.rules|
  {
    match StepRule(e, i, q.(named := q.named - lost))
    case Decide(o) => Decide(o)
    case Proceed(r) => Proceed(r.(named := q.named + r.named))
  }

  function LossyInterpret(e: Env, lost: LossMap, i: nat, q: Memory): Outcome
    requires i <= |e.rules|
    decreases |e.rules| - i
  {
    if i == |e.rules| then Fallback(e, q)
    else
      match LossyStep(e, i, q, LostAt(lost, i))
      case Decide(o) => o
      case Proceed(r) => LossyInterpret(e, lost, i + 1, r)
  }

  function LossyReference(e: Env, lost: LossMap): Outcome { LossyInterpret(e, lost, 0, Start(e)) }

  function LossyArrival(e: Env, lost: LossMap, i: nat): Option<Memory>
    requires i <= |e.rules|
  {
    if i == 0 then Some(Start(e))
    else
      match LossyArrival(e, lost, i - 1)
      case None => None
      case Some(q) =>
        match LossyStep(e, i - 1, q, LostAt(lost, i - 1))
        case Decide(_) => None
        case Proceed(r) => Some(r)
  }

  lemma {:induction false} LossyArrivalInterprets(e: Env, lost: LossMap, i: nat)
    requires i <= |e.rules| && LossyArrival(e, lost, i).Some?
    ensures LossyReference(e, lost) == LossyInterpret(e, lost, i, LossyArrival(e, lost, i).value)
  {
    if i > 0 { LossyArrivalInterprets(e, lost, i - 1); }
  }

  /** Losses at a rule do not matter before it. */
  lemma {:induction false} LossyFrame(e: Env, lost: LossMap, more: LossMap, i: nat)
    requires i <= |e.rules| && forall j: nat :: j < i ==> LostAt(lost, j) == LostAt(more, j)
    ensures LossyArrival(e, lost, i) == LossyArrival(e, more, i)
  {
    if i > 0 { LossyFrame(e, lost, more, i - 1); }
  }

  /** The lossy reading ends at rule i, or after the last rule, with o. */
  predicate ConcludesAt(e: Env, lost: LossMap, i: nat, o: Outcome) {
    && i <= |e.rules| && LossyArrival(e, lost, i).Some?
    && var q := LossyArrival(e, lost, i).value;
       if i == |e.rules| then o == Fallback(e, q) else LossyStep(e, i, q, LostAt(lost, i)) == Decide(o)
  }

  lemma ConclusionIsReference(e: Env, lost: LossMap, i: nat, o: Outcome)
    requires ConcludesAt(e, lost, i, o)
    ensures LossyReference(e, lost) == o
  {
    LossyArrivalInterprets(e, lost, i);
  }

  lemma StepOnlyAdds(e: Env, i: nat, q: Memory)
    requires i < |e.rules| && StepRule(e, i, q).Proceed?
    ensures q.named.Keys <= StepRule(e, i, q).memory.named.Keys
  {
  }

  /** With nothing lost it is the sequential reading. */
  lemma {:induction false} LosslessInterpret(e: Env, lost: LossMap, i: nat, q: Memory)
    requires i <= |e.rules| && forall j: nat :: LostAt(lost, j) == {}
    ensures LossyInterpret(e, lost, i, q) == Interpret(e, i, q)
    decreases |e.rules| - i
  {
    if i < |e.rules| {
      assert q.named - {} == q.named;
      if StepRule(e, i, q).Proceed? {
        var r := StepRule(e, i, q).memory;
        StepOnlyAdds(e, i, q);
        assert q.named + r.named == r.named;
        LosslessInterpret(e, lost, i + 1, r);
      }
    }
  }

  // ---------------------------------------------------------------------
  // The invariant
  // ---------------------------------------------------------------------

  /** A tag can be lost only to the first enabled rule that binds it. */
  predicate Losable(e: Env, i: nat, t: string) {
    && i < |e.rules| && !e.rules[i].disabled && t in e.rules[i].tags
    && forall j :: 0 <= j < i && !e.rules[j].disabled ==> t !in e.rules[j].tags
  }

  predicate LossesOk(e: Env, lost: LossMap, bound: nat) {
    forall i :: i in lost ==> i < bound && lost[i] != {} && forall t :: t in lost[i] ==> Losable(e, i, t)
  }

  predicate FromRule(e: Env, s: State, f: Future) {
    && !f.terminal && f.rule < s.ruleIndex <= |e.rules|
    && e.rules[f.rule].action.EvaluateAction? && f.tag == e.rules[f.rule].action.tag
  }

  predicate Ordered(e: Env, s: State) {
    && s.ruleIndex <= |e.rules| && s.armed == [] && s.terminal.None?
    && forall k :: 0 <= k < |s.futures| ==> FromRule(e, s, s.futures[k])
  }

  /** What earlier rules read has resolved. */
  predicate HaveRead(e: Env, s: State) {
    forall j, t ::
      0 <= j < s.ruleIndex && j < |e.rules| && !e.rules[j].disabled && t in e.rules[j].tags && t in s.named ==>
      IsResolved(s, s.named[t])
  }

  predicate Steady(e: Env, s: State) { Ordered(e, s) && Names(s) && Responses(e, s) && HaveRead(e, s) }

  predicate OnLossyPath(e: Env, f: Fine) {
    f.state.ruleIndex <= |e.rules| && LossyArrival(e, f.lost, f.state.ruleIndex) == Some(Abs(e, f.state))
  }

  /** The walk is about to judge, or to judge again, the rule at hand. */
  predicate Before(e: Env, f: Fine) {
    Steady(e, f.state) && LossesOk(e, f.lost, f.state.ruleIndex) && OnLossyPath(e, f)
  }

  /** The walk is going to end with the exchange. */
  predicate Decided(e: Env, f: Fine, p: PendingExchange) {
    && Steady(e, f.state) && LossesOk(e, f.lost, |e.rules|)
    && p.Plain? && ConcludesAt(e, f.lost, f.state.ruleIndex, OutcomeOf(e, f.state, p))
  }

  predicate FineSuspended(e: Env, f: Fine, x: Suspension) {
    match x
    case Await(k) => Before(e, f) && k < |f.state.futures|
    case Drain => false
    case Pending(p) => Decided(e, f, p)
  }

  predicate FineSound(e: Env, f: Fine) {
    match f.state.control
    case Visiting => Before(e, f)
    case Sweeping(x) => FineSuspended(e, f, x)
    case Checking(x) => FineSuspended(e, f, x)
    case Blocked(x) => FineSuspended(e, f, x) && !x.Pending?
    case Finishing(p) => Decided(e, f, p)
    case Done(o) =>
      && LossesOk(e, f.lost, |e.rules|) && f.state.ruleIndex <= |e.rules|
      && (ConcludesAt(e, f.lost, f.state.ruleIndex, o) || (o == ContextDone && f.state.contextDone))
  }

  lemma FineInit(e: Env)
    ensures FineSound(e, Fine(Init(e), map[]))
  {
    assert Abs(e, Init(e)) == Start(e);
  }

  lemma SteadyKept(e: Env, s: State, t: State)
    requires Steady(e, s) && SamePath(s, t) && t.armed == [] && Responses(e, t)
    ensures Steady(e, t) && Abs(e, t) == Abs(e, s)
  {
    forall k | 0 <= k < |t.futures| ensures FromRule(e, t, t.futures[k]) {
      assert Kept(s.futures[k], t.futures[k]) && FromRule(e, s, s.futures[k]);
    }
    forall k | 0 <= k < |t.futures|
      ensures t.futures[k].tag == s.futures[k].tag
    {
      assert Kept(s.futures[k], t.futures[k]);
    }
    ImageAtKept(e, s.futures, t.futures, s.anonymous);
    ImageNamedKept(e, s.futures, t.futures, s.named);
    ReadKept(e, s, t);
  }

  lemma ReadKept(e: Env, s: State, t: State)
    requires HaveRead(e, s) && Names(s) && SamePath(s, t)
    ensures HaveRead(e, t)
  {
    forall k: nat | IsResolved(s, k) ensures IsResolved(t, k) { assert Kept(s.futures[k], t.futures[k]); }
  }
}

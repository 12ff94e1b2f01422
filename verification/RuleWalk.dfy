/** The resumable walk over DNS rules outside legacy mode.

    A walk visits the rules in order. An `evaluate` rule launches a query (a
    future) and the walk goes on; a rule that reads a response suspends the walk
    until the future behind that response resolves; a `race` rule is armed and
    may commit later, out of order, once its own responses are there. The
    walker sleeps on a wake channel of capacity one.

    The model is a state machine. One rule visit (with its settling of futures),
    one settle-and-sweep and one check before sleeping are each one atomic step;
    completions of futures happen between steps, and each completion is two
    steps: the result becomes visible, then the wake token is offered. A
    completion inside a visit is the subject of LateVisits; one inside a sweep
    is outside the model.

    What a query will answer is fixed by `Env.answer`, an arbitrary function of
    the rule that sends it, the transport and the options; when it answers is up
    to the environment. */
module RuleWalk {
  import opened Optional
  import opened QueryOptions

  datatype Message = Message(id: int)

  datatype Transport = Transport(tag: string, fakeIP: bool)

  /** How a query ends: `view` below hides failures, as the walk does. */
  datatype Answer = Reply(message: Message) | Failure(error: int)

  function View(a: Answer): Option<Message> {
    match a
    case Reply(m) => Some(m)
    case Failure(_) => None
  }

  datatype RejectMethod = DefaultReject | DropReject | ReplyReject

  datatype Action =
    | NoAction
    | RouteOptionsAction(overrides: Overrides)
    | EvaluateAction(server: string, tag: string, speculative: bool, overrides: Overrides)
    | RespondAction
    | RouteAction(server: string, speculative: bool, overrides: Overrides)
    | RejectAction(rejectMethod: RejectMethod)
    | PredefinedAction

  /** The responses a rule may look at: the anonymous one when it binds it, and
      the named ones it binds. */
  datatype Bound = Bound(anonymous: Option<Message>, named: map<string, Option<Message>>)

  /** `matches` stands for the rule's conditions: an arbitrary function of the
      responses the rule binds (the query is fixed during a walk). */
  datatype Rule = Rule(
    disabled: bool,
    race: bool,
    tags: seq<string>,
    anonymous: bool,
    respondTag: string,
    matches: Bound -> bool,
    action: Action)
  {
    predicate HasBindings() { |tags| > 0 || anonymous }

    /** A race rule that binds a response is armed instead of judged in place. */
    predicate Armable() { race && HasBindings() }

    predicate Defines(tag: string) { action.EvaluateAction? && tag != "" && action.tag == tag }
  }

  datatype Env = Env(
    rules: seq<Rule>,
    transports: map<string, Transport>,
    defaultTransport: Transport,
    defaultStrategy: Strategy,
    allowFakeIP: bool,
    initial: Options,
    answer: (nat, Transport, Options) -> Answer)

  function Send(e: Env, rule: nat, transport: Transport, options: Options): Answer {
    e.answer(rule, transport, Finalize(options, e.defaultStrategy))
  }

  /** Resolving the server of a route action: a missing server and a fakeip
      server where none is allowed both leave the rule without effect. */
  function ResolveRoute(e: Env, server: string, overrides: Overrides, options: Options)
    : Option<(Transport, Options)>
  {
    if server !in e.transports then None
    else
      var transport := e.transports[server];
      if transport.fakeIP && !e.allowFakeIP then None
      else
        var applied := Apply(options, overrides);
        Some((transport, if transport.fakeIP then applied.(disableCache := true) else applied))
  }

  /** What a walk ends with. `Answered` returns the response an evaluate rule
      obtained; `Exchanged` is the answer of the exchange that ends the walk. */
  datatype Outcome =
    | Answered(origin: nat, message: Message, transport: Transport)
    | MissingResponse
    | Rejected(rule: nat)
    | Dropped(rule: nat)
    | Predefined(rule: nat, options: Options)
    | Exchanged(rule: nat, transport: Transport, answer: Answer)
    | ContextDone

  // ---------------------------------------------------------------------
  // State
  // ---------------------------------------------------------------------

  datatype Phase = Running | Resolved | Signalled

  /** A launched query. `cutShort` records that the walk cancelled it before it
      resolved. */
  datatype Future = Future(
    rule: nat,
    tag: string,
    terminal: bool,
    transport: Transport,
    options: Options,
    phase: Phase,
    settled: bool,
    cancelled: bool,
    cutShort: bool)

  function AnswerOf(e: Env, f: Future): Answer { Send(e, f.rule, f.transport, f.options) }

  /** A race rule waiting for its responses, with the options at arming. */
  datatype Armed = Armed(
    ruleIndex: nat,
    waits: seq<nat>,
    anonymous: Option<nat>,
    bindsAnonymous: bool,
    options: Options)

  datatype PendingExchange =
    | Plain(rule: nat, transport: Transport, options: Options)
    | Launched(future: nat)

  datatype Suspension = Await(future: nat) | Drain | Pending(exchange: PendingExchange)

  /** Where the walker is: inside the rule loop, at the top of the resume loop
      (before settling and sweeping), before the decision to sleep, asleep on
      the wake channel, finishing with an exchange, or finished. */
  datatype Control =
    | Visiting
    | Sweeping(suspension: Suspension)
    | Checking(suspension: Suspension)
    | Blocked(suspension: Suspension)
    | Finishing(exchange: PendingExchange)
    | Done(outcome: Outcome)

  /** `seen` and `judged` are history: the futures resolved at the last sweep,
      and the race rules judged so far, in order. */
  datatype State = State(
    ruleIndex: nat,
    options: Options,
    anonymous: Option<nat>,
    named: map<string, nat>,
    responses: map<string, Option<Message>>,
    responseTransports: map<string, Transport>,
    futures: seq<Future>,
    armed: seq<Armed>,
    terminal: Option<nat>,
    terminalIndex: nat,
    token: bool,
    contextDone: bool,
    seen: set<nat>,
    judged: seq<nat>,
    control: Control)

  function Init(e: Env): State {
    State(0, e.initial, None, map[], map[], map[], [], [], None, 0, false, false, {}, [], Visiting)
  }

  predicate IsResolved(s: State, k: nat) {
    k < |s.futures| && !s.futures[k].phase.Running?
  }

  function ResolvedSet(s: State): set<nat> {
    set k | 0 <= k < |s.futures| && IsResolved(s, k)
  }

  function FutureView(e: Env, s: State, k: nat): Option<Message> {
    if IsResolved(s, k) then View(AnswerOf(e, s.futures[k])) else None
  }

  function AnonymousView(e: Env, s: State, a: Option<nat>): Option<Message> {
    match a
    case None => None
    case Some(k) => FutureView(e, s, k)
  }

  function Lookup<T>(m: map<string, Option<T>>, tag: string): Option<T> {
    if tag in m then m[tag] else None
  }

  function BoundNames(rule: Rule, responses: map<string, Option<Message>>): map<string, Option<Message>> {
    map t | t in rule.tags :: Lookup(responses, t)
  }

  predicate Matches(rule: Rule, anonymous: Option<Message>, responses: map<string, Option<Message>>) {
    rule.matches(Bound(if rule.anonymous then anonymous else None, BoundNames(rule, responses)))
  }

  // ---------------------------------------------------------------------
  // Settling and launching
  // ---------------------------------------------------------------------

  /** A future that resolved since the last settling. */
  predicate Unsettled(f: Future) { !f.settled && !f.phase.Running? }

  function SettleFutures(fs: seq<Future>): (r: seq<Future>)
    ensures |r| == |fs|
  {
    seq(|fs|, k requires 0 <= k < |fs| => if Unsettled(fs[k]) then fs[k].(settled := true) else fs[k])
  }

  function CollectResponses(e: Env, fs: seq<Future>, responses: map<string, Option<Message>>)
    : map<string, Option<Message>>
  {
    if fs == [] then responses
    else
      var f := fs[|fs| - 1];
      var rest := CollectResponses(e, fs[..|fs| - 1], responses);
      if Unsettled(f) && f.tag != "" then rest[f.tag := View(AnswerOf(e, f))] else rest
  }

  function CollectTransports(fs: seq<Future>, transports: map<string, Transport>): map<string, Transport> {
    if fs == [] then transports
    else
      var f := fs[|fs| - 1];
      var rest := CollectTransports(fs[..|fs| - 1], transports);
      if Unsettled(f) && f.tag != "" then rest[f.tag := f.transport] else rest
  }

  /** Copy the responses of newly resolved futures into the named responses. */
  function Settle(e: Env, s: State): State {
    s.(futures := SettleFutures(s.futures),
       responses := CollectResponses(e, s.futures, s.responses),
       responseTransports := CollectTransports(s.futures, s.responseTransports))
  }

  function CancelFuture(f: Future): Future {
    f.(cancelled := true, cutShort := f.cutShort || (!f.cancelled && f.phase.Running?))
  }

  /** Cancel every future but the one kept (if any). */
  function CancelExcept(s: State, keep: Option<nat>): (t: State)
    ensures |t.futures| == |s.futures|
  {
    s.(futures := seq(|s.futures|, k requires 0 <= k < |s.futures| =>
      if keep == Some(k) then s.futures[k] else CancelFuture(s.futures[k])))
  }

  function Finish(s: State, o: Outcome): State { CancelExcept(s, None).(control := Done(o)) }

  function Advance(s: State): State { s.(ruleIndex := s.ruleIndex + 1) }

  function Suspend(s: State, suspension: Suspension): State { s.(control := Sweeping(suspension)) }

  // ---------------------------------------------------------------------
  // Sweeping armed race rules
  // ---------------------------------------------------------------------

  predicate Ready(s: State, a: Armed) {
    forall i :: 0 <= i < |a.waits| ==> IsResolved(s, a.waits[i])
  }

  datatype Commit = Result(outcome: Outcome) | Exchange(exchange: PendingExchange)

  predicate ArmedMatches(e: Env, s: State, a: Armed)
    requires a.ruleIndex < |e.rules|
  {
    Matches(e.rules[a.ruleIndex],
            AnonymousView(e, s, if a.bindsAnonymous then a.anonymous else s.anonymous),
            s.responses)
  }

  /** The action of an armed rule that matched: an action that cannot take
      effect leaves the walk running. */
  function PerformArmed(e: Env, s: State, a: Armed): Option<Commit>
    requires a.ruleIndex < |e.rules|
  {
    var rule := e.rules[a.ruleIndex];
    match rule.action
    case RespondAction => Some(Result(RespondArmed(e, s, a, rule)))
    case RouteAction(server, _, overrides) =>
      (match ResolveRoute(e, server, overrides, a.options)
       case None => None
       case Some((transport, options)) => Some(Exchange(Plain(a.ruleIndex, transport, options))))
    case RejectAction(DefaultReject) => Some(Result(Rejected(a.ruleIndex)))
    case RejectAction(DropReject) => Some(Result(Dropped(a.ruleIndex)))
    case PredefinedAction => Some(Result(Predefined(a.ruleIndex, a.options)))
    case _ => None
  }

  /** What an armed rule does once its responses are there. */
  function JudgeArmed(e: Env, s: State, a: Armed): Option<Commit>
    requires a.ruleIndex < |e.rules|
  {
    if e.rules[a.ruleIndex].disabled || !ArmedMatches(e, s, a) then None else PerformArmed(e, s, a)
  }

  function RespondArmed(e: Env, s: State, a: Armed, rule: Rule): Outcome {
    if rule.respondTag != "" then RespondNamed(s, rule.respondTag)
    else if a.anonymous.Some? then RespondAnonymous(e, s, a.anonymous)
    else RespondAnonymous(e, s, s.anonymous)
  }

  function RespondNamed(s: State, tag: string): Outcome {
    match Lookup(s.responses, tag)
    case None => MissingResponse
    case Some(m) =>
      if tag in s.responseTransports && tag in s.named && s.named[tag] < |s.futures|
      then Answered(s.futures[s.named[tag]].rule, m, s.responseTransports[tag])
      else MissingResponse
  }

  function RespondAnonymous(e: Env, s: State, a: Option<nat>): Outcome {
    match AnonymousView(e, s, a)
    case None => MissingResponse
    case Some(m) => Answered(s.futures[a.value].rule, m, s.futures[a.value].transport)
  }

  /** The result of a sweep: the rules still armed, the rules judged, and what
      the first rule that takes effect commits. */
  datatype Swept = Swept(kept: seq<Armed>, judged: seq<nat>, commit: Option<Commit>)

  /** Go through the armed rules in order: a rule that is not ready stays, a
      ready one is removed and judged, and the first that takes effect commits. */
  function Sweep(e: Env, s: State, armed: seq<Armed>): (r: Swept)
    requires forall i :: 0 <= i < |armed| ==> armed[i].ruleIndex < |e.rules|
  {
    if armed == [] then Swept([], [], None)
    else
      var a := armed[0];
      if !Ready(s, a) then
        var r := Sweep(e, s, armed[1..]);
        r.(kept := [a] + r.kept)
      else
        match JudgeArmed(e, s, a)
        case Some(c) => Swept(armed[1..], [a.ruleIndex], Some(c))
        case None =>
          var r := Sweep(e, s, armed[1..]);
          r.(judged := [a.ruleIndex] + r.judged)
  }

  function AfterSweep(s: State, r: Swept): State {
    s.(armed := r.kept, judged := s.judged + r.judged)
  }

  predicate ArmedInRange(e: Env, s: State) {
    forall i :: 0 <= i < |s.armed| ==> s.armed[i].ruleIndex < |e.rules|
  }

  // ---------------------------------------------------------------------
  // Visiting one rule
  // ---------------------------------------------------------------------

  function Unresolved(s: State, tags: seq<string>): seq<nat> {
    if tags == [] then []
    else (if tags[0] in s.named && s.named[tags[0]] < |s.futures| && !IsResolved(s, s.named[tags[0]])
          then [s.named[tags[0]]] else [])
         + Unresolved(s, tags[1..])
  }

  function UnresolvedAnonymous(s: State): seq<nat> {
    if s.anonymous.Some? && s.anonymous.value < |s.futures| && !IsResolved(s, s.anonymous.value)
    then [s.anonymous.value] else []
  }

  /** The unresolved futures behind the responses a rule binds. */
  function Awaited(s: State, rule: Rule): seq<nat> {
    Unresolved(s, rule.tags) + (if rule.anonymous then UnresolvedAnonymous(s) else [])
  }

  /** The armed form of the race rule at hand. */
  function Arm(s: State, rule: Rule): Armed {
    Armed(s.ruleIndex, Awaited(s, rule), if rule.anonymous then s.anonymous else None, rule.anonymous, s.options)
  }

  /** The sweep right after arming a rule that has nothing to wait for. */
  function SweepArmed(e: Env, s: State): State
    requires ArmedInRange(e, s)
  {
    var swept := Sweep(e, s, s.armed);
    var t := AfterSweep(s, swept);
    match swept.commit
    case None => Advance(t)
    case Some(Result(o)) => Finish(t, o)
    case Some(Exchange(p)) => Suspend(t.(armed := []), Pending(p))
  }

  function VisitRace(e: Env, s: State): State
    requires s.ruleIndex < |e.rules| && ArmedInRange(e, s)
  {
    var rule := e.rules[s.ruleIndex];
    var t := s.(armed := s.armed + [Arm(s, rule)]);
    if Awaited(s, rule) != [] then Advance(t) else SweepArmed(e, t)
  }

  function VisitEvaluate(e: Env, s: State, action: Action): State
    requires action.EvaluateAction?
  {
    if action.server !in e.transports then
      s.(ruleIndex := s.ruleIndex + 1, anonymous := if action.tag == "" then None else s.anonymous)
    else if !action.speculative && s.armed != [] then Suspend(s, Drain)
    else
      var f := Future(s.ruleIndex, action.tag, false, e.transports[action.server],
                      Apply(s.options, action.overrides), Running, false, false, false);
      s.(ruleIndex := s.ruleIndex + 1,
         futures := s.futures + [f],
         anonymous := if action.tag == "" then Some(|s.futures|) else s.anonymous,
         named := if action.tag == "" then s.named else s.named[action.tag := |s.futures|])
  }

  function VisitRoute(e: Env, s: State, action: Action): State
    requires action.RouteAction?
  {
    match ResolveRoute(e, action.server, action.overrides, s.options)
    case None => Advance(s)
    case Some((transport, options)) =>
      if s.armed != [] then
        if action.speculative && s.terminal.None? then
          var f := Future(s.ruleIndex, "", true, transport, options, Running, false, false, false);
          s.(futures := s.futures + [f], terminal := Some(|s.futures|), terminalIndex := s.ruleIndex,
             control := Sweeping(Drain))
        else Suspend(s, Drain)
      else if s.terminal.Some? && s.terminalIndex == s.ruleIndex then
        Suspend(s, Pending(Launched(s.terminal.value)))
      else Suspend(s, Pending(Plain(s.ruleIndex, transport, options)))
  }

  function VisitRespond(e: Env, s: State, rule: Rule): State {
    if s.armed != [] then Suspend(s, Drain)
    else if rule.respondTag != "" then Finish(s, RespondNamed(s, rule.respondTag))
    else if !rule.HasBindings() && UnresolvedAnonymous(s) != [] then Suspend(s, Await(s.anonymous.value))
    else Finish(s, RespondAnonymous(e, s, s.anonymous))
  }

  /** The actions that end a walk without an exchange wait for the armed rules. */
  function FinishOrDrain(s: State, o: Outcome): State {
    if s.armed != [] then Suspend(s, Drain) else Finish(s, o)
  }

  /** Match the current rule and perform its action. */
  function Judge(e: Env, s: State): State
    requires s.ruleIndex < |e.rules|
  {
    var rule := e.rules[s.ruleIndex];
    if !Matches(rule, AnonymousView(e, s, s.anonymous), s.responses) then Advance(s)
    else
      match rule.action
      case NoAction => Advance(s)
      case RouteOptionsAction(overrides) => Advance(s.(options := Apply(s.options, overrides)))
      case EvaluateAction(_, _, _, _) => VisitEvaluate(e, s, rule.action)
      case RespondAction => VisitRespond(e, s, rule)
      case RouteAction(_, _, _) => VisitRoute(e, s, rule.action)
      case RejectAction(rejectMethod) =>
        // An armed rule holds back even a reject whose method is not handled.
        (match rejectMethod
         case DefaultReject => FinishOrDrain(s, Rejected(s.ruleIndex))
         case DropReject => FinishOrDrain(s, Dropped(s.ruleIndex))
         case ReplyReject => if s.armed != [] then Suspend(s, Drain) else Advance(s))
      case PredefinedAction => FinishOrDrain(s, Predefined(s.ruleIndex, s.options))
  }

  /** One iteration of the rule loop, or its exit when no rule is left. */
  function Visit(e: Env, s: State): State
    requires s.control.Visiting? && ArmedInRange(e, s)
  {
    if s.ruleIndex >= |e.rules| then
      if s.armed != [] then Suspend(s, Drain)
      else Suspend(s, Pending(Plain(|e.rules|, e.defaultTransport, s.options)))
    else
      var rule := e.rules[s.ruleIndex];
      if rule.disabled then Advance(s)
      else if !rule.HasBindings() then Judge(e, s)
      else
        var t := Settle(e, s);
        if rule.race then VisitRace(e, t)
        else
          var waits := Awaited(t, rule);
          if waits != [] then Suspend(t, Await(waits[0])) else Judge(e, t)
  }

  // ---------------------------------------------------------------------
  // The resume loop and the environment
  // ---------------------------------------------------------------------

  /** Settle, then sweep; a committed rule ends the walk. */
  function SweepStep(e: Env, s: State): State
    requires s.control.Sweeping? && ArmedInRange(e, s)
  {
    var settled := Settle(e, s).(seen := ResolvedSet(s));
    var swept := Sweep(e, settled, settled.armed);
    var t := AfterSweep(settled, swept);
    match swept.commit
    case None => t.(control := Checking(s.control.suspension))
    case Some(Result(o)) => Finish(t, o)
    case Some(Exchange(p)) => Begin(t, p)
  }

  /** Start the final exchange: every other future is cancelled. */
  function Begin(s: State, p: PendingExchange): State {
    CancelExcept(s, if p.Launched? then Some(p.future) else None).(control := Finishing(p))
  }

  function CheckStep(s: State): State
    requires s.control.Checking?
  {
    match s.control.suspension
    case Pending(p) => Begin(s, p)
    case Await(k) => if IsResolved(s, k) then s.(control := Visiting) else s.(control := Blocked(Await(k)))
    case Drain => if s.armed == [] then s.(control := Visiting) else s.(control := Blocked(Drain))
  }

  function OutcomeOf(e: Env, s: State, p: PendingExchange): Outcome {
    match p
    case Plain(rule, transport, options) => Exchanged(rule, transport, Send(e, rule, transport, options))
    case Launched(k) =>
      if k < |s.futures| then Exchanged(s.futures[k].rule, s.futures[k].transport, AnswerOf(e, s.futures[k]))
      else MissingResponse
  }

  datatype Label = Walk | Wake | Abort | Resolve(future: nat) | Signal(future: nat) | CancelContext

  predicate Enabled(e: Env, s: State, l: Label) {
    match l
    case Walk =>
      (match s.control
       case Visiting => ArmedInRange(e, s)
       case Sweeping(_) => ArmedInRange(e, s)
       case Checking(_) => true
       case Finishing(p) => p.Launched? ==> IsResolved(s, p.future)
       case _ => false)
    case Wake => s.control.Blocked? && s.token
    case Abort => s.contextDone && (s.control.Blocked? || (s.control.Finishing? && s.control.exchange.Launched?))
    case Resolve(k) => k < |s.futures| && s.futures[k].phase.Running?
    case Signal(k) => k < |s.futures| && s.futures[k].phase.Resolved?
    case CancelContext => !s.contextDone
  }

  function Step(e: Env, s: State, l: Label): State
    requires Enabled(e, s, l)
  {
    match l
    case Walk =>
      (match s.control
       case Visiting => Visit(e, s)
       case Sweeping(_) => SweepStep(e, s)
       case Checking(_) => CheckStep(s)
       case Finishing(p) => Finish(s, OutcomeOf(e, s, p)))
    case Wake => s.(token := false, control := Sweeping(s.control.suspension))
    case Abort => Finish(s, ContextDone)
    case Resolve(k) => s.(futures := s.futures[k := s.futures[k].(phase := Resolved)])
    case Signal(k) => s.(futures := s.futures[k := s.futures[k].(phase := Signalled)], token := true)
    case CancelContext => s.(contextDone := true)
  }

  /** `run` leads from s to t, one enabled step after another. */
  predicate Runs(e: Env, s: State, run: seq<Label>, t: State)
    decreases |run|
  {
    if run == [] then s == t
    else Enabled(e, s, run[0]) && Runs(e, Step(e, s, run[0]), run[1..], t)
  }
}

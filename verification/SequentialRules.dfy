/** A plain sequential reading of a rule list: every evaluate is answered on
    the spot and every rule is judged in order. The resumable walk is compared
    with it. */
module SequentialRules {
  import opened Optional
  import opened QueryOptions
  import opened RuleWalk

  /** An evaluated response together with the rule that asked for it. */
  datatype Evaluated = Evaluated(origin: nat, transport: Transport, answer: Answer)

  datatype Memory = Memory(options: Options, anonymous: Option<Evaluated>, named: map<string, Evaluated>)

  function Start(e: Env): Memory { Memory(e.initial, None, map[]) }

  function ViewOf(v: Option<Evaluated>): Option<Message> {
    match v
    case None => None
    case Some(x) => View(x.answer)
  }

  function NamedViews(named: map<string, Evaluated>): map<string, Option<Message>> {
    map t | t in named :: View(named[t].answer)
  }

  predicate Holds(rule: Rule, q: Memory) { Matches(rule, ViewOf(q.anonymous), NamedViews(q.named)) }

  function Responding(v: Option<Evaluated>): Outcome {
    match v
    case None => MissingResponse
    case Some(x) =>
      match x.answer
      case Reply(m) => Answered(x.origin, m, x.transport)
      case Failure(_) => MissingResponse
  }

  function Named(q: Memory, tag: string): Option<Evaluated> {
    if tag in q.named then Some(q.named[tag]) else None
  }

  /** The outcome of a final action, if the action takes effect. */
  function Conclude(e: Env, i: nat, q: Memory): Option<Outcome>
    requires i < |e.rules|
  {
    var rule := e.rules[i];
    match rule.action
    case RespondAction =>
      Some(Responding(if rule.respondTag != "" then Named(q, rule.respondTag) else q.anonymous))
    case RouteAction(server, _, overrides) =>
      (match ResolveRoute(e, server, overrides, q.options)
       case None => None
       case Some((transport, options)) => Some(Exchanged(i, transport, Send(e, i, transport, options))))
    case RejectAction(DefaultReject) => Some(Rejected(i))
    case RejectAction(DropReject) => Some(Dropped(i))
    case PredefinedAction => Some(Predefined(i, q.options))
    case _ => None
  }

  function Evaluate(e: Env, i: nat, action: Action, q: Memory): Memory
    requires action.EvaluateAction?
  {
    if action.server !in e.transports then
      if action.tag == "" then q.(anonymous := None) else q
    else
      var transport := e.transports[action.server];
      var v := Evaluated(i, transport, Send(e, i, transport, Apply(q.options, action.overrides)));
      if action.tag == "" then q.(anonymous := Some(v)) else q.(named := q.named[action.tag := v])
  }

  datatype Progress = Proceed(memory: Memory) | Decide(outcome: Outcome)

  function StepRule(e: Env, i: nat, q: Memory): Progress
    requires i < |e.rules|
  {
    var rule := e.rules[i];
    if rule.disabled || !Holds(rule, q) then Proceed(q)
    else if rule.action.RouteOptionsAction? then Proceed(q.(options := Apply(q.options, rule.action.overrides)))
    else if rule.action.EvaluateAction? then Proceed(Evaluate(e, i, rule.action, q))
    else
      match Conclude(e, i, q)
      case None => Proceed(q)
      case Some(o) => Decide(o)
  }

  function Fallback(e: Env, q: Memory): Outcome {
    Exchanged(|e.rules|, e.defaultTransport, Send(e, |e.rules|, e.defaultTransport, q.options))
  }

  /** The sequential interpreter. */
  function Interpret(e: Env, i: nat, q: Memory): Outcome
    requires i <= |e.rules|
    decreases |e.rules| - i
  {
    if i == |e.rules| then Fallback(e, q)
    else
      match StepRule(e, i, q)
      case Decide(o) => o
      case Proceed(q') => Interpret(e, i + 1, q')
  }

  function Reference(e: Env): Outcome { Interpret(e, 0, Start(e)) }

  /** The same list with its race rules switched off. */
  function Calm(e: Env): (c: Env)
    ensures |c.rules| == |e.rules|
  {
    e.(rules := seq(|e.rules|, i requires 0 <= i < |e.rules| =>
      if e.rules[i].Armable() then e.rules[i].(disabled := true) else e.rules[i]))
  }

  /** The memory with which the interpreter arrives at rule i, if it does. */
  function Arrival(e: Env, i: nat): Option<Memory>
    requires i <= |e.rules|
  {
    if i == 0 then Some(Start(e))
    else
      match Arrival(e, i - 1)
      case None => None
      case Some(q) =>
        match StepRule(e, i - 1, q)
        case Decide(_) => None
        case Proceed(q') => Some(q')
  }

  lemma {:induction false} ArrivalInterprets(e: Env, i: nat)
    requires i <= |e.rules| && Arrival(e, i).Some?
    ensures Reference(e) == Interpret(e, i, Arrival(e, i).value)
  {
    if i > 0 { ArrivalInterprets(e, i - 1); }
  }

  /** What race rule r does when judged with the responses and options the
      interpreter has when it arrives there. */
  function RaceEffect(e: Env, r: nat, q: Memory): Option<Outcome>
    requires r < |e.rules|
  {
    if e.rules[r].disabled || !Holds(e.rules[r], q) then None else Conclude(e, r, q)
  }

  /** Rule r is an enabled race rule that the walk reaches. */
  predicate Contends(e: Env, r: nat) {
    r < |e.rules| && e.rules[r].Armable() && !e.rules[r].disabled && Arrival(Calm(e), r).Some?
  }

  function Contention(e: Env, r: nat): Option<Outcome>
    requires Contends(e, r)
  {
    RaceEffect(e, r, Arrival(Calm(e), r).value)
  }

  /** What rule validation guarantees about a compiled list. */
  predicate WellFormed(rules: seq<Rule>) {
    && (forall i, t :: 0 <= i < |rules| && t in rules[i].tags ==>
          t != "" && exists j :: 0 <= j < i && rules[j].Defines(t))
    && (forall i, j :: 0 <= i < j < |rules| && rules[i].action.EvaluateAction? && rules[i].action.tag != "" ==>
          !rules[j].Defines(rules[i].action.tag))
    && (forall i :: 0 <= i < |rules| ==>
          && (rules[i].respondTag != "" ==> rules[i].respondTag in rules[i].tags)
          && (rules[i].action.RespondAction? && rules[i].respondTag == "" ==> rules[i].tags == []))
  }
}

/** The walk as the router performs it: an object whose methods update the walk
    state in place. Every method is specified by the corresponding step of the
    state machine, so the results about runs hold for it. */
module RuleWalker {
  import opened Optional
  import opened QueryOptions
  import opened RuleWalk
  import opened SequentialRules
  import WalkInvariant
  import WalkQueries
  import WalkTheorems

  class Walker {
    const env: Env
    var ruleIndex: nat
    var options: Options
    var anonymous: Option<nat>
    var named: map<string, nat>
    var responses: map<string, Option<Message>>
    var responseTransports: map<string, Transport>
    var futures: seq<Future>
    var armed: seq<Armed>
    var terminal: Option<nat>
    var terminalIndex: nat
    var token: bool
    var contextDone: bool
    var seen: set<nat>
    var judged: seq<nat>
    var control: Control

    function Model(): State
      reads this
    {
      State(ruleIndex, options, anonymous, named, responses, responseTransports, futures, armed,
            terminal, terminalIndex, token, contextDone, seen, judged, control)
    }

    constructor (e: Env)
      ensures env == e && Model() == Init(e)
    {
      env := e;
      ruleIndex, options, anonymous := 0, e.initial, None;
      named, responses, responseTransports := map[], map[], map[];
      futures, armed, terminal, terminalIndex := [], [], None, 0;
      token, contextDone, seen, judged, control := false, false, {}, [], Visiting;
    }

    /** Record one future, if it is newly resolved. */
    method SettleOne(k: nat)
      requires k < |futures|
      modifies this`futures, this`responses, this`responseTransports
      ensures var f := old(futures)[k];
              if Unsettled(f) then
                && futures == old(futures)[k := f.(settled := true)]
                && responses == (if f.tag == "" then old(responses)
                                 else old(responses)[f.tag := View(AnswerOf(env, f))])
                && responseTransports == (if f.tag == "" then old(responseTransports)
                                          else old(responseTransports)[f.tag := f.transport])
              else unchanged(`futures, `responses, `responseTransports)
    {
      var f := futures[k];
      if !f.settled && !f.phase.Running? {
        futures := futures[k := f.(settled := true)];
        if f.tag != "" {
          responses := responses[f.tag := View(AnswerOf(env, f))];
          responseTransports := responseTransports[f.tag := f.transport];
        }
      }
    }

    /** Go over the futures and record the newly resolved ones. */
    method Settle()
      modifies this`futures, this`responses, this`responseTransports
      ensures Model() == RuleWalk.Settle(env, old(Model()))
    {
      ghost var before := futures;
      var k := 0;
      while k < |futures|
        invariant 0 <= k <= |futures| == |before|
        invariant forall i :: 0 <= i < k ==>
                    futures[i] == if Unsettled(before[i]) then before[i].(settled := true) else before[i]
        invariant forall i :: k <= i < |futures| ==> futures[i] == before[i]
        invariant responses == CollectResponses(env, before[..k], old(responses))
        invariant responseTransports == CollectTransports(before[..k], old(responseTransports))
      {
        assert before[..k + 1][..k] == before[..k];
        SettleOne(k);
        k := k + 1;
      }
      assert before[..k] == before;
      assert futures == SettleFutures(before);
    }

    /** Cancel every future but the one kept. */
    method Cancel(keep: Option<nat>)
      modifies this`futures
      ensures Model() == CancelExcept(old(Model()), keep)
    {
      ghost var before := futures;
      var k := 0;
      while k < |futures|
        invariant 0 <= k <= |futures| == |before|
        invariant forall i :: 0 <= i < k ==>
                    futures[i] == if keep == Some(i) then before[i] else CancelFuture(before[i])
        invariant forall i :: k <= i < |futures| ==> futures[i] == before[i]
      {
        if keep != Some(k) {
          futures := futures[k := CancelFuture(futures[k])];
        }
        k := k + 1;
      }
    }

    method Finish(o: Outcome)
      modifies this`futures, this`control
      ensures Model() == RuleWalk.Finish(old(Model()), o)
    {
      Cancel(None);
      control := Done(o);
    }

    method Begin(p: PendingExchange)
      modifies this`futures, this`control
      ensures Model() == RuleWalk.Begin(old(Model()), p)
    {
      Cancel(if p.Launched? then Some(p.future) else None);
      control := Finishing(p);
    }

    /** Whether every future an armed rule waits for has resolved. */
    method IsReady(a: Armed) returns (ready: bool)
      ensures ready == Ready(Model(), a)
    {
      for i := 0 to |a.waits|
        invariant forall j :: 0 <= j < i ==> IsResolved(Model(), a.waits[j])
      {
        if a.waits[i] >= |futures| || futures[a.waits[i]].phase.Running? {
          return false;
        }
      }
      return true;
    }

    /** Remove and judge the armed rules that are ready, until one commits. */
    method SweepArmed() returns (commit: Option<Commit>)
      requires ArmedInRange(env, Model())
      modifies this`armed, this`judged
      ensures var r := Sweep(env, old(Model()), old(armed));
              Model() == AfterSweep(old(Model()), r) && commit == r.commit
    {
      ghost var s := Model();
      ghost var all := Sweep(env, s, s.armed);
      commit := None;
      var index := 0;
      assert armed[..0] == [] && armed[0..] == armed;
      while index < |armed|
        invariant 0 <= index <= |armed| && commit.None?
        invariant WalkInvariant.InRange(env, armed)
        invariant Carry([], s.judged, all) == Carry(armed[..index], judged, Sweep(env, s, armed[index..]))
        decreases |armed| - index
      {
        var ready := IsReady(armed[index]);
        if !ready {
          SweepPasses(env, s, armed, index, judged);
          index := index + 1;
        } else {
          commit := RemoveAndJudge(index, s);
          if commit.Some? {
            assert [] + all.kept == all.kept;
            return;
          }
        }
      }
      assert armed[..index] == armed && armed[index..] == [];
      assert [] + all.kept == all.kept && armed + [] == armed && judged + [] == judged;
    }

    /** Take an armed rule off the list and judge it. */
    method RemoveAndJudge(index: nat, ghost s: State) returns (c: Option<Commit>)
      requires index < |armed| && WalkInvariant.InRange(env, armed)
      requires Model() == s.(armed := armed, judged := judged) && Ready(Model(), armed[index])
      modifies this`armed, this`judged
      ensures c == JudgeArmed(env, s, old(armed)[index])
      ensures armed == old(armed)[..index] + old(armed)[index + 1..] && WalkInvariant.InRange(env, armed)
      ensures judged == old(judged) + [old(armed)[index].ruleIndex]
      ensures Carry(old(armed)[..index], old(judged), Sweep(env, s, old(armed)[index..]))
           == if c.Some? then Swept(armed, judged, c) else Carry(armed[..index], judged, Sweep(env, s, armed[index..]))
    {
      var a := armed[index];
      SameJudgement(env, s, Model(), a);
      c := JudgeArmed(env, Model(), a);
      SweepRemoves(env, s, armed, index, judged);
      armed := armed[..index] + armed[index + 1..];
      judged := judged + [a.ruleIndex];
    }

    /** The unresolved futures behind the responses a rule binds. */
    method CollectAwaited(rule: Rule) returns (waits: seq<nat>)
      ensures waits == Awaited(Model(), rule)
    {
      waits := [];
      assert rule.tags[..0] == [];
      for i := 0 to |rule.tags|
        invariant waits + Unresolved(Model(), rule.tags[i..]) == Unresolved(Model(), rule.tags)
      {
        var tag := rule.tags[i];
        assert rule.tags[i..][1..] == rule.tags[i + 1..];
        if tag in named && named[tag] < |futures| && futures[named[tag]].phase.Running? {
          waits := waits + [named[tag]];
        }
      }
      if rule.anonymous {
        if anonymous.Some? && anonymous.value < |futures| && futures[anonymous.value].phase.Running? {
          waits := waits + [anonymous.value];
        }
      }
    }

    method VisitRace()
      requires ruleIndex < |env.rules| && ArmedInRange(env, Model())
      modifies this
      ensures Model() == RuleWalk.VisitRace(env, old(Model()))
    {
      var rule := env.rules[ruleIndex];
      var waits := CollectAwaited(rule);
      armed := armed + [Armed(ruleIndex, waits, if rule.anonymous then anonymous else None, rule.anonymous, options)];
      if waits != [] {
        ruleIndex := ruleIndex + 1;
      } else {
        SweepAfterArming();
      }
    }

    method SweepAfterArming()
      requires ArmedInRange(env, Model())
      modifies this
      ensures Model() == RuleWalk.SweepArmed(env, old(Model()))
    {
      var commit := SweepArmed();
      match commit
      case None => ruleIndex := ruleIndex + 1;
      case Some(Result(o)) => Finish(o);
      case Some(Exchange(p)) => armed, control := [], Sweeping(Pending(p));
    }

    method VisitEvaluate(action: Action)
      requires action.EvaluateAction?
      modifies this
      ensures Model() == RuleWalk.VisitEvaluate(env, old(Model()), action)
    {
      if action.server !in env.transports {
        if action.tag == "" {
          anonymous := None;
        }
        ruleIndex := ruleIndex + 1;
        return;
      }
      if !action.speculative && armed != [] {
        control := Sweeping(Drain);
        return;
      }
      var k := |futures|;
      futures := futures + [Future(ruleIndex, action.tag, false, env.transports[action.server],
                                   Apply(options, action.overrides), Running, false, false, false)];
      if action.tag == "" {
        anonymous := Some(k);
      } else {
        named := named[action.tag := k];
      }
      ruleIndex := ruleIndex + 1;
    }

    method VisitRoute(action: Action)
      requires action.RouteAction?
      modifies this
      ensures Model() == RuleWalk.VisitRoute(env, old(Model()), action)
    {
      match ResolveRoute(env, action.server, action.overrides, options)
      case None => ruleIndex := ruleIndex + 1;
      case Some((transport, queryOptions)) =>
        if armed != [] {
          if action.speculative && terminal.None? {
            terminal, terminalIndex := Some(|futures|), ruleIndex;
            futures := futures + [Future(ruleIndex, "", true, transport, queryOptions, Running, false, false, false)];
          }
          control := Sweeping(Drain);
        } else if terminal.Some? && terminalIndex == ruleIndex {
          control := Sweeping(Pending(Launched(terminal.value)));
        } else {
          control := Sweeping(Pending(Plain(ruleIndex, transport, queryOptions)));
        }
    }

    method VisitRespond(rule: Rule)
      modifies this
      ensures Model() == RuleWalk.VisitRespond(env, old(Model()), rule)
    {
      if armed != [] {
        control := Sweeping(Drain);
      } else if rule.respondTag != "" {
        Finish(RespondNamed(Model(), rule.respondTag));
      } else if !rule.HasBindings() && anonymous.Some? && anonymous.value < |futures|
                && futures[anonymous.value].phase.Running? {
        control := Sweeping(Await(anonymous.value));
      } else {
        Finish(RespondAnonymous(env, Model(), anonymous));
      }
    }

    method FinishOrDrain(o: Outcome)
      modifies this
      ensures Model() == RuleWalk.FinishOrDrain(old(Model()), o)
    {
      if armed != [] {
        control := Sweeping(Drain);
      } else {
        Finish(o);
      }
    }

    method Judge()
      requires ruleIndex < |env.rules|
      modifies this
      ensures Model() == RuleWalk.Judge(env, old(Model()))
    {
      var rule := env.rules[ruleIndex];
      if !Matches(rule, AnonymousView(env, Model(), anonymous), responses) {
        ruleIndex := ruleIndex + 1;
        return;
      }
      match rule.action
      case NoAction => ruleIndex := ruleIndex + 1;
      case RouteOptionsAction(overrides) =>
        options := Apply(options, overrides);
        ruleIndex := ruleIndex + 1;
      case EvaluateAction(_, _, _, _) => VisitEvaluate(rule.action);
      case RespondAction => VisitRespond(rule);
      case RouteAction(_, _, _) => VisitRoute(rule.action);
      case RejectAction(DefaultReject) => FinishOrDrain(Rejected(ruleIndex));
      case RejectAction(DropReject) => FinishOrDrain(Dropped(ruleIndex));
      case RejectAction(ReplyReject) =>
        if armed != [] { control := Sweeping(Drain); } else { ruleIndex := ruleIndex + 1; }
      case PredefinedAction => FinishOrDrain(Predefined(ruleIndex, options));
    }

    /** One iteration of the rule loop, or its exit. */
    method Visit()
      requires control.Visiting? && ArmedInRange(env, Model())
      modifies this
      ensures Model() == RuleWalk.Visit(env, old(Model()))
    {
      if ruleIndex >= |env.rules| {
        control := Sweeping(if armed != [] then Drain
                            else Pending(Plain(|env.rules|, env.defaultTransport, options)));
        return;
      }
      var rule := env.rules[ruleIndex];
      if rule.disabled {
        ruleIndex := ruleIndex + 1;
      } else if !rule.HasBindings() {
        Judge();
      } else {
        Settle();
        if rule.race {
          VisitRace();
        } else {
          var waits := CollectAwaited(rule);
          if waits != [] { control := Sweeping(Await(waits[0])); } else { Judge(); }
        }
      }
    }

    /** The top of the resume loop. */
    method SettleAndSweep()
      requires control.Sweeping? && ArmedInRange(env, Model())
      modifies this
      ensures Model() == SweepStep(env, old(Model()))
    {
      var suspension := control.suspension;
      seen := ResolvedSet(Model());
      Settle();
      var commit := SweepArmed();
      match commit
      case None => control := Checking(suspension);
      case Some(Result(o)) => Finish(o);
      case Some(Exchange(p)) => Begin(p);
    }

    /** The decision to finish, to sleep or to walk on. */
    method Check()
      requires control.Checking?
      modifies this
      ensures Model() == CheckStep(old(Model()))
    {
      match control.suspension
      case Pending(p) => Begin(p);
      case Await(k) =>
        control := if k < |futures| && !futures[k].phase.Running? then Visiting else Blocked(Await(k));
      case Drain => control := if armed == [] then Visiting else Blocked(Drain);
    }

    /** One step of the walker or of its environment. */
    method Do(l: Label)
      requires Enabled(env, Model(), l)
      modifies this
      ensures Model() == Step(env, old(Model()), l)
    {
      match l
      case Walk =>
        match control {
          case Visiting => Visit();
          case Sweeping(_) => SettleAndSweep();
          case Checking(_) => Check();
          case Finishing(p) => Finish(OutcomeOf(env, Model(), p));
        }
      case Wake => token, control := false, Sweeping(control.suspension);
      case Abort => Finish(ContextDone);
      case Resolve(k) => futures := futures[k := futures[k].(phase := Resolved)];
      case Signal(k) =>
        futures := futures[k := futures[k].(phase := Signalled)];
        token := true;
      case CancelContext => contextDone := true;
    }
  }

  /** A sweep whose first part is done: `kept` and `judged` come before r. */
  ghost function Carry(kept: seq<Armed>, judged: seq<nat>, r: Swept): Swept {
    Swept(kept + r.kept, judged + r.judged, r.commit)
  }

  lemma SweepPasses(e: Env, s: State, armed: seq<Armed>, index: nat, judged: seq<nat>)
    requires index < |armed| && WalkInvariant.InRange(e, armed) && !Ready(s, armed[index])
    ensures Carry(armed[..index], judged, Sweep(e, s, armed[index..]))
         == Carry(armed[..index + 1], judged, Sweep(e, s, armed[index + 1..]))
  {
    var rest := armed[index..];
    assert rest[1..] == armed[index + 1..] && armed[..index + 1] == armed[..index] + [rest[0]];
    var kept := Sweep(e, s, armed[index + 1..]).kept;
    assert armed[..index] + ([rest[0]] + kept) == armed[..index + 1] + kept;
  }

  lemma SweepRemoves(e: Env, s: State, armed: seq<Armed>, index: nat, judged: seq<nat>)
    requires index < |armed| && WalkInvariant.InRange(e, armed) && Ready(s, armed[index])
    ensures var i := armed[index].ruleIndex;
            var left := armed[..index] + armed[index + 1..];
            && |left| == |armed| - 1 && left[..index] == armed[..index] && left[index..] == armed[index + 1..]
            && WalkInvariant.InRange(e, left)
            && Carry(armed[..index], judged, Sweep(e, s, armed[index..]))
               == match JudgeArmed(e, s, armed[index])
                  case Some(c) => Swept(left, judged + [i], Some(c))
                  case None => Carry(left[..index], judged + [i], Sweep(e, s, left[index..]))
  {
    var i := armed[index].ruleIndex;
    var rest := armed[index..];
    assert rest[1..] == armed[index + 1..];
    var r := Sweep(e, s, armed[index + 1..]);
    assert judged + ([i] + r.judged) == (judged + [i]) + r.judged;
  }

  lemma SameJudgement(e: Env, s: State, t: State, a: Armed)
    requires t == s.(armed := t.armed, judged := t.judged) && a.ruleIndex < |e.rules|
    ensures Ready(t, a) == Ready(s, a) && JudgeArmed(e, t, a) == JudgeArmed(e, s, a)
  {
  }

  lemma {:induction false} RunsSnoc(e: Env, s: State, run: seq<Label>, t: State, l: Label)
    requires Runs(e, s, run, t) && Enabled(e, t, l)
    ensures Runs(e, s, run + [l], Step(e, t, l))
    decreases |run|
  {
    if run == [] {
      assert [l][1..] == [];
    } else {
      RunsSnoc(e, Step(e, s, run[0]), run[1..], t, l);
      assert (run + [l])[1..] == run[1..] + [l];
    }
  }

  /** Perform a whole exchange under an arbitrary schedule of completions and
      walker steps; labels that are not enabled are passed over. */
  method ExchangeWithRules(e: Env, schedule: seq<Label>) returns (result: Option<Outcome>)
    requires WellFormed(e.rules)
    ensures result.Some? && result.value != ContextDone ==> WalkInvariant.Characterised(e, result.value)
    ensures result.Some? ==> WalkQueries.Backed(e, result.value)
    ensures (forall i :: 0 <= i < |e.rules| ==> !e.rules[i].Armable()) ==>
              result.None? || result.value == ContextDone || result.value == Reference(e)
  {
    var w := new Walker(e);
    ghost var run: seq<Label> := [];
    for i := 0 to |schedule|
      invariant fresh(w) && w.env == e
      invariant Runs(e, Init(e), run, w.Model())
    {
      if Enabled(e, w.Model(), schedule[i]) {
        ghost var before := w.Model();
        w.Do(schedule[i]);
        RunsSnoc(e, Init(e), run, before, schedule[i]);
        run := run + [schedule[i]];
      }
    }
    if w.control.Done? {
      result := Some(w.control.outcome);
      assert WalkTheorems.Reachable(e, w.Model());
      WalkTheorems.OutcomeCharacterised(e, w.Model(), w.control.outcome);
      WalkQueries.OutcomesCarryTheirOptions(e, w.Model(), w.control.outcome);
      if forall i :: 0 <= i < |e.rules| ==> !e.rules[i].Armable() {
        WalkTheorems.WalkRefinesInterpreter(e, w.Model(), w.control.outcome);
      }
    } else {
      result := None;
    }
  }
}

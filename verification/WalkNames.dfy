/** Where the named futures of a walk are written. */
module WalkNames {
  import opened QueryOptions
  import opened RuleWalk

  /** The named futures change only where an evaluate rule launches its query. */
  predicate Writes(e: Env, s: State, t: State) {
    || t.named == s.named
    || (&& s.ruleIndex < |e.rules| && e.rules[s.ruleIndex].action.EvaluateAction?
        && e.rules[s.ruleIndex].action.tag != ""
        && t.named == s.named[e.rules[s.ruleIndex].action.tag := |s.futures|])
  }

  lemma EvaluateWrites(e: Env, s: State, action: Action)
    requires action.EvaluateAction?
    ensures var t := VisitEvaluate(e, s, action);
            t.named == s.named || (action.tag != "" && t.named == s.named[action.tag := |s.futures|])
  {
    if action.server in e.transports && (action.speculative || s.armed == []) { LaunchWrites(e, s, action); }
  }

  lemma LaunchWrites(e: Env, s: State, action: Action)
    requires action.EvaluateAction? && action.server in e.transports && (action.speculative || s.armed == [])
    ensures VisitEvaluate(e, s, action).named
         == if action.tag == "" then s.named else s.named[action.tag := |s.futures|]
  {
  }

  lemma RouteWrites(e: Env, s: State, action: Action)
    requires action.RouteAction?
    ensures VisitRoute(e, s, action).named == s.named
  {
  }

  lemma RespondWrites(e: Env, s: State, rule: Rule)
    ensures VisitRespond(e, s, rule).named == s.named
  {
  }

  lemma FinishWrites(s: State, o: Outcome)
    ensures Finish(s, o).named == s.named && FinishOrDrain(s, o).named == s.named
  {
  }

  lemma RaceWrites(e: Env, s: State)
    requires s.ruleIndex < |e.rules| && ArmedInRange(e, s)
    ensures VisitRace(e, s).named == s.named
  {
    var t := s.(armed := s.armed + [Arm(s, e.rules[s.ruleIndex])]);
    if Awaited(s, e.rules[s.ruleIndex]) == [] { SweepArmedWrites(e, t); }
  }

  lemma SweepArmedWrites(e: Env, s: State)
    requires ArmedInRange(e, s)
    ensures SweepArmed(e, s).named == s.named
  {
  }

  lemma SweepWrites(e: Env, s: State)
    requires s.control.Sweeping? && ArmedInRange(e, s)
    ensures SweepStep(e, s).named == s.named
  {
  }

  lemma CheckWrites(s: State)
    requires s.control.Checking?
    ensures CheckStep(s).named == s.named
  {
  }

  lemma JudgeEvaluateWrites(e: Env, s: State)
    requires s.ruleIndex < |e.rules| && e.rules[s.ruleIndex].action.EvaluateAction?
    ensures Writes(e, s, Judge(e, s))
  {
    EvaluateWrites(e, s, e.rules[s.ruleIndex].action);
  }

  lemma JudgeRouteWrites(e: Env, s: State)
    requires s.ruleIndex < |e.rules| && e.rules[s.ruleIndex].action.RouteAction?
    ensures Judge(e, s).named == s.named
  {
    RouteWrites(e, s, e.rules[s.ruleIndex].action);
  }

  lemma JudgeRespondWrites(e: Env, s: State)
    requires s.ruleIndex < |e.rules| && e.rules[s.ruleIndex].action.RespondAction?
    ensures Judge(e, s).named == s.named
  {
    RespondWrites(e, s, e.rules[s.ruleIndex]);
  }

  lemma JudgeFinalWrites(e: Env, s: State)
    requires s.ruleIndex < |e.rules|
    requires var a := e.rules[s.ruleIndex].action; a.RejectAction? || a.PredefinedAction?
    ensures Judge(e, s).named == s.named
  {
    FinishWrites(s, Rejected(s.ruleIndex));
    FinishWrites(s, Dropped(s.ruleIndex));
    FinishWrites(s, Predefined(s.ruleIndex, s.options));
  }

  lemma JudgeWrites(e: Env, s: State)
    requires s.ruleIndex < |e.rules|
    ensures Writes(e, s, Judge(e, s))
  {
    var action := e.rules[s.ruleIndex].action;
    if action.EvaluateAction? {
      JudgeEvaluateWrites(e, s);
    } else if action.RouteAction? {
      JudgeRouteWrites(e, s);
    } else if action.RespondAction? {
      JudgeRespondWrites(e, s);
    } else if action.RejectAction? || action.PredefinedAction? {
      JudgeFinalWrites(e, s);
    }
  }

  lemma VisitWrites(e: Env, s: State)
    requires s.control.Visiting? && ArmedInRange(e, s)
    ensures Writes(e, s, Visit(e, s))
  {
    if s.ruleIndex < |e.rules| {
      JudgeWrites(e, s);
      JudgeWrites(e, Settle(e, s));
      RaceWrites(e, Settle(e, s));
    }
  }

  lemma StepWrites(e: Env, s: State, l: Label)
    requires Enabled(e, s, l)
    ensures Writes(e, s, Step(e, s, l))
  {
    match l
    case Walk =>
      match s.control {
        case Visiting => VisitWrites(e, s);
        case Sweeping(_) => SweepWrites(e, s);
        case Checking(_) => CheckWrites(s);
        case Finishing(p) => FinishWrites(s, OutcomeOf(e, s, p));
      }
    case Abort => FinishWrites(s, ContextDone);
    case _ =>
  }
}

/** The results about the walk, stated for configured rules: every list that
    validation accepts and that compiles. */
module ValidatedWalk {
  import opened RuleModes
  import RuleWalk
  import SequentialRules
  import WalkInvariant
  import WalkTheorems

  /** Without race rules a validated list is walked as if every evaluate rule
      were answered on the spot. */
  lemma ValidatedWalkRefines(c: Catalog, rules: seq<RuleOption>, e: RuleWalk.Env, t: RuleWalk.State,
                             o: RuleWalk.Outcome)
    requires Valid(c, rules) && Compiles(rules, e.rules)
    requires forall i :: 0 <= i < |rules| ==> !rules[i].action.race
    requires WalkTheorems.Reachable(e, t) && t.control == RuleWalk.Done(o)
    ensures o == SequentialRules.Reference(e) || (o == RuleWalk.ContextDone && t.contextDone)
  {
    ValidRulesAreWellFormed(c, rules, e.rules);
    WalkTheorems.WalkRefinesInterpreter(e, t, o);
  }

  /** With race rules the walk of a validated list ends with the effect of one
      of them, or, when none has an effect, as the list without them does; and
      no walk is longer than a linear bound. */
  lemma ValidatedWalkEnds(c: Catalog, rules: seq<RuleOption>, e: RuleWalk.Env, run: seq<RuleWalk.Label>,
                          t: RuleWalk.State)
    requires Valid(c, rules) && Compiles(rules, e.rules)
    requires RuleWalk.Runs(e, RuleWalk.Init(e), run, t)
    ensures |run| <= 32 * |rules| + 44
    ensures t.control.Done? ==>
              || (t.control.outcome == RuleWalk.ContextDone && t.contextDone)
              || WalkInvariant.Characterised(e, t.control.outcome)
  {
    ValidRulesAreWellFormed(c, rules, e.rules);
    WalkTheorems.RunsAreShort(e, run, t);
    if t.control.Done? { WalkTheorems.OutcomeCharacterised(e, t, t.control.outcome); }
  }
}

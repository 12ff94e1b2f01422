/** Rule options as configured: which rule lists need legacy mode, and which
    lists validation accepts outside legacy mode.

    Rules form trees: a logical rule holds sub-rules. Rule-set metadata is what
    the router and pending overrides know about a referenced set. */
module RuleModes {
  import opened QueryOptions
  import RuleWalk
  import SequentialRules

  datatype ActionKind =
    | UnsetAction | RouteKind | EvaluateKind | RespondKind | RouteOptionsKind | RejectKind | PredefinedKind

  /** An action carries the options of every kind; its kind says which apply. */
  datatype ActionOptions = ActionOptions(
    kind: ActionKind,
    race: bool,
    routeServer: string, routeSpeculative: bool, routeOverrides: Overrides,
    evaluateServer: string, evaluateTag: string, evaluateSpeculative: bool, evaluateOverrides: Overrides,
    optionsOverrides: Overrides,
    rejectMethod: RuleWalk.RejectMethod)

  /** `match_response` is off, true, or the tag of an evaluate rule. */
  datatype MatchResponse = Off | Latest | Tagged(tag: string) {
    predicate IsEnabled() { !Off? }
    function ResponseTag(): string { if Tagged? then tag else "" }
  }

  datatype Conditions = Conditions(
    matchResponse: MatchResponse,
    hasResponseFields: bool,
    ipAcceptAny: bool, hasIPCIDR: bool, ipIsPrivate: bool,
    ruleSetIPCIDRAcceptEmpty: bool,
    hasIPVersion: bool, hasQueryType: bool,
    ruleSets: seq<string>,
    ruleSetIPCIDRMatchSource: bool)

  datatype RuleOption =
    | DefaultRule(conditions: Conditions, action: ActionOptions)
    | LogicalRule(rules: seq<RuleOption>, action: ActionOptions)
    | UnknownRule

  datatype RuleSetMetadata = RuleSetMetadata(
    containsIPCIDRRule: bool, containsNonIPCIDRRule: bool, containsDNSQueryTypeRule: bool)

  datatype Catalog = Catalog(
    hasRouter: bool,
    sets: map<string, RuleSetMetadata>,
    overrides: map<string, RuleSetMetadata>)

  datatype Result<+T> = Ok(value: T) | Error

  function LookupMetadata(c: Catalog, tag: string): Result<RuleSetMetadata> {
    if tag in c.overrides then Ok(c.overrides[tag])
    else if tag in c.sets then Ok(c.sets[tag])
    else Error
  }

  // ---------------------------------------------------------------------
  // Legacy mode
  // ---------------------------------------------------------------------

  datatype Flags = Flags(disabled: bool, needed: bool, neededFromStrategy: bool)

  function Merge(f: Flags, g: Flags): Flags {
    Flags(f.disabled || g.disabled, f.needed || g.needed, f.neededFromStrategy || g.neededFromStrategy)
  }

  predicate HasStrategy(a: ActionOptions) {
    match a.kind
    case UnsetAction => !a.routeOverrides.strategy.AsIs?
    case RouteKind => !a.routeOverrides.strategy.AsIs?
    case EvaluateKind => !a.evaluateOverrides.strategy.AsIs?
    case RouteOptionsKind => !a.optionsOverrides.strategy.AsIs?
    case _ => false
  }

  predicate ActionDisablesLegacy(a: ActionOptions) {
    a.race ||
    match a.kind
    case UnsetAction => a.routeOverrides.disableOptimisticCache || a.routeSpeculative
    case RouteKind => a.routeOverrides.disableOptimisticCache || a.routeSpeculative
    case EvaluateKind => a.evaluateOverrides.disableOptimisticCache || a.evaluateSpeculative
    case RouteOptionsKind => a.optionsOverrides.disableOptimisticCache
    case _ => false
  }

  predicate ConditionsDisableLegacy(c: Conditions, kind: ActionKind) {
    || c.matchResponse.IsEnabled() || c.hasResponseFields
    || kind.EvaluateKind? || kind.RespondKind?
    || c.hasIPVersion || c.hasQueryType
  }

  predicate ConditionsNeedLegacy(c: Conditions) {
    c.ruleSetIPCIDRAcceptEmpty
    || (!c.matchResponse.IsEnabled() && (c.ipAcceptAny || c.hasIPCIDR || c.ipIsPrivate))
  }

  function RuleSetFlags(c: Catalog, tags: seq<string>, matchSource: bool, f: Flags): Result<Flags> {
    if tags == [] then Ok(f)
    else
      match LookupMetadata(c, tags[0])
      case Error => Error
      case Ok(m) =>
        RuleSetFlags(c, tags[1..], matchSource,
                     f.(disabled := f.disabled || m.containsDNSQueryTypeRule,
                        needed := f.needed || (!matchSource && m.containsIPCIDRRule)))
  }

  function DefaultRequirements(c: Catalog, d: Conditions, a: ActionOptions): Result<Flags> {
    var strategy := HasStrategy(a);
    var f := Flags(ConditionsDisableLegacy(d, a.kind) || ActionDisablesLegacy(a),
                   ConditionsNeedLegacy(d) || strategy, strategy);
    if d.ruleSets == [] then Ok(f)
    else if !c.hasRouter then Error
    else RuleSetFlags(c, d.ruleSets, d.ruleSetIPCIDRMatchSource, f)
  }

  function Requirements(c: Catalog, rule: RuleOption): Result<Flags>
    decreases rule, 1
  {
    match rule
    case DefaultRule(d, a) => DefaultRequirements(c, d, a)
    case LogicalRule(rules, a) =>
      var strategy := HasStrategy(a);
      ListRequirements(c, rules, Flags(a.kind.EvaluateKind? || a.kind.RespondKind? || ActionDisablesLegacy(a),
                                       strategy, strategy))
    case UnknownRule => Ok(Flags(false, false, false))
  }

  /** The flags of a list of rules, merged into f. */
  function ListRequirements(c: Catalog, rules: seq<RuleOption>, f: Flags): Result<Flags>
    decreases rules, 0
  {
    if rules == [] then Ok(f)
    else
      match Requirements(c, rules[0])
      case Error => Error
      case Ok(g) => ListRequirements(c, rules[1..], Merge(f, g))
  }

  /** Whether the list runs in legacy mode. */
  function ResolveMode(c: Catalog, rules: seq<RuleOption>): Result<bool> {
    match ListRequirements(c, rules, Flags(false, false, false))
    case Error => Error
    case Ok(f) =>
      if f.disabled && f.neededFromStrategy then Error
      else if f.disabled then Ok(false)
      else Ok(f.needed)
  }

  // ---------------------------------------------------------------------
  // What decides the mode
  // ---------------------------------------------------------------------

  /** The rule is the tree or lies somewhere in it. */
  predicate Within(tree: RuleOption, rule: RuleOption) {
    rule == tree || (tree.LogicalRule? && exists r :: r in tree.rules && Within(r, rule))
  }

  /** The overrides that apply to an action of its kind. */
  function Applicable(a: ActionOptions): seq<Overrides> {
    match a.kind
    case UnsetAction => [a.routeOverrides]
    case RouteKind => [a.routeOverrides]
    case EvaluateKind => [a.evaluateOverrides]
    case RouteOptionsKind => [a.optionsOverrides]
    case _ => []
  }

  /** The action is one legacy mode does not know: evaluate, respond, race,
      speculative or without the optimistic cache. */
  predicate ModernAction(a: ActionOptions) {
    || a.kind.EvaluateKind? || a.kind.RespondKind? || a.race
    || (a.routeSpeculative && (a.kind.RouteKind? || a.kind.UnsetAction?))
    || (exists o :: o in Applicable(a) && o.disableOptimisticCache)
  }

  predicate SetsStrategy(a: ActionOptions) { exists o :: o in Applicable(a) && o.strategy != AsIs }

  /** m is what is known of a rule set: an override goes before the set itself. */
  predicate KnownAs(c: Catalog, tag: string, m: RuleSetMetadata) {
    (tag in c.overrides && c.overrides[tag] == m) || (tag !in c.overrides && tag in c.sets && c.sets[tag] == m)
  }

  /** What a single rule can say about the mode. */
  datatype Feature = Missing | Modern | Strategic | Needy

  ghost predicate Has(c: Catalog, f: Feature, rule: RuleOption) {
    match f
    case Missing =>
      && rule.DefaultRule? && rule.conditions.ruleSets != []
      && (!c.hasRouter || exists t :: t in rule.conditions.ruleSets && t !in c.overrides && t !in c.sets)
    case Modern =>
      || (!rule.UnknownRule? && ModernAction(rule.action))
      || (rule.DefaultRule? && var d := rule.conditions;
            || d.matchResponse != Off || d.hasResponseFields || d.hasIPVersion || d.hasQueryType
            || exists t, m :: t in d.ruleSets && KnownAs(c, t, m) && m.containsDNSQueryTypeRule)
    case Strategic => !rule.UnknownRule? && SetsStrategy(rule.action)
    case Needy =>
      || (!rule.UnknownRule? && SetsStrategy(rule.action))
      || (rule.DefaultRule? && var d := rule.conditions;
            || d.ruleSetIPCIDRAcceptEmpty
            || (d.matchResponse == Off && (d.ipAcceptAny || d.hasIPCIDR || d.ipIsPrivate))
            || (!d.ruleSetIPCIDRMatchSource
                && exists t, m :: t in d.ruleSets && KnownAs(c, t, m) && m.containsIPCIDRRule))
  }

  /** Some rule of the tree has the feature. */
  ghost predicate Somewhere(c: Catalog, f: Feature, tree: RuleOption) {
    exists r :: Within(tree, r) && Has(c, f, r)
  }

  ghost predicate Anywhere(c: Catalog, f: Feature, rules: seq<RuleOption>) {
    exists r :: r in rules && Somewhere(c, f, r)
  }

  lemma SomewhereIff(c: Catalog, f: Feature, tree: RuleOption)
    ensures Somewhere(c, f, tree) <==> Has(c, f, tree) || (tree.LogicalRule? && Anywhere(c, f, tree.rules))
  {
    if Has(c, f, tree) { assert Within(tree, tree); }
    if tree.LogicalRule? && Anywhere(c, f, tree.rules) {
      var r :| r in tree.rules && Somewhere(c, f, r);
      var x :| Within(r, x) && Has(c, f, x);
      assert Within(tree, x);
    }
  }

  lemma AnywhereIff(c: Catalog, f: Feature, rules: seq<RuleOption>)
    requires rules != []
    ensures Anywhere(c, f, rules) <==> Somewhere(c, f, rules[0]) || Anywhere(c, f, rules[1..])
  {
    assert forall r :: r in rules <==> r == rules[0] || r in rules[1..];
  }

  lemma LookupIs(c: Catalog, tag: string)
    ensures LookupMetadata(c, tag).Error? <==> tag !in c.overrides && tag !in c.sets
    ensures forall m :: KnownAs(c, tag, m) <==> LookupMetadata(c, tag) == Ok(m)
  {
  }

  lemma {:induction false} RuleSetFlagsAre(c: Catalog, tags: seq<string>, matchSource: bool, f: Flags)
    ensures var r := RuleSetFlags(c, tags, matchSource, f);
      && (r.Error? <==> exists t :: t in tags && t !in c.overrides && t !in c.sets)
      && (r.Ok? ==>
            && (r.value.disabled <==>
                  f.disabled || exists t, m :: t in tags && KnownAs(c, t, m) && m.containsDNSQueryTypeRule)
            && (r.value.needed <==>
                  f.needed || (!matchSource && exists t, m :: t in tags && KnownAs(c, t, m) && m.containsIPCIDRRule))
            && r.value.neededFromStrategy == f.neededFromStrategy)
  {
    if tags != [] {
      LookupIs(c, tags[0]);
      assert forall t :: t in tags <==> t == tags[0] || t in tags[1..];
      match LookupMetadata(c, tags[0])
      case Error =>
      case Ok(m) =>
        RuleSetFlagsAre(c, tags[1..], matchSource,
                        f.(disabled := f.disabled || m.containsDNSQueryTypeRule,
                           needed := f.needed || (!matchSource && m.containsIPCIDRRule)));
    }
  }

  lemma ActionFlagsAre(a: ActionOptions)
    ensures HasStrategy(a) <==> SetsStrategy(a)
    ensures a.kind.EvaluateKind? || a.kind.RespondKind? || ActionDisablesLegacy(a) <==> ModernAction(a)
  {
    assert Applicable(a) != [] ==> Applicable(a)[0] in Applicable(a);
  }

  /** The flags of a rule say what the rules of its tree have. */
  ghost predicate FlagsSay(c: Catalog, r: Result<Flags>, tree: RuleOption) {
    && (r.Error? <==> Somewhere(c, Missing, tree))
    && (r.Ok? ==> && (r.value.disabled <==> Somewhere(c, Modern, tree))
                  && (r.value.needed <==> Somewhere(c, Needy, tree))
                  && (r.value.neededFromStrategy <==> Somewhere(c, Strategic, tree)))
  }

  lemma DefaultFlagsAre(c: Catalog, d: Conditions, a: ActionOptions)
    ensures FlagsSay(c, DefaultRequirements(c, d, a), DefaultRule(d, a))
  {
    var rule := DefaultRule(d, a);
    var strategy := HasStrategy(a);
    ActionFlagsAre(a);
    RuleSetFlagsAre(c, d.ruleSets, d.ruleSetIPCIDRMatchSource,
      Flags(ConditionsDisableLegacy(d, a.kind) || ActionDisablesLegacy(a),
            ConditionsNeedLegacy(d) || strategy, strategy));
    SomewhereIff(c, Missing, rule);
    SomewhereIff(c, Modern, rule);
    SomewhereIff(c, Needy, rule);
    SomewhereIff(c, Strategic, rule);
  }

  lemma {:induction false} FlagsAre(c: Catalog, rule: RuleOption)
    ensures FlagsSay(c, Requirements(c, rule), rule)
    decreases rule, 1
  {
    SomewhereIff(c, Missing, rule);
    SomewhereIff(c, Modern, rule);
    SomewhereIff(c, Needy, rule);
    SomewhereIff(c, Strategic, rule);
    match rule
    case DefaultRule(d, a) => DefaultFlagsAre(c, d, a);
    case LogicalRule(rules, a) =>
      var strategy := HasStrategy(a);
      ActionFlagsAre(a);
      ListFlagsAre(c, rules, Flags(a.kind.EvaluateKind? || a.kind.RespondKind? || ActionDisablesLegacy(a),
                                   strategy, strategy));
    case UnknownRule =>
  }

  lemma {:induction false} ListFlagsAre(c: Catalog, rules: seq<RuleOption>, f: Flags)
    ensures var r := ListRequirements(c, rules, f);
      && (r.Error? <==> Anywhere(c, Missing, rules))
      && (r.Ok? ==> && (r.value.disabled <==> f.disabled || Anywhere(c, Modern, rules))
                    && (r.value.needed <==> f.needed || Anywhere(c, Needy, rules))
                    && (r.value.neededFromStrategy <==> f.neededFromStrategy || Anywhere(c, Strategic, rules)))
    decreases rules, 0
  {
    if rules != [] {
      FlagsAre(c, rules[0]);
      AnywhereIff(c, Missing, rules);
      AnywhereIff(c, Modern, rules);
      AnywhereIff(c, Needy, rules);
      AnywhereIff(c, Strategic, rules);
      match Requirements(c, rules[0])
      case Error =>
      case Ok(g) => ListFlagsAre(c, rules[1..], Merge(f, g));
    }
  }

  /** When a list runs in legacy mode: exactly when every rule set it names is
      known, no rule in it, however deep, uses anything legacy mode does not know,
      and some rule needs legacy mode. It is refused exactly when a rule set is
      not known, or when it both uses something new and sets a strategy. */
  lemma ModeIs(c: Catalog, rules: seq<RuleOption>)
    ensures ResolveMode(c, rules) == Ok(true) <==>
              !Anywhere(c, Missing, rules) && !Anywhere(c, Modern, rules) && Anywhere(c, Needy, rules)
    ensures ResolveMode(c, rules) == Error <==>
              Anywhere(c, Missing, rules) || (Anywhere(c, Modern, rules) && Anywhere(c, Strategic, rules))
  {
    ListFlagsAre(c, rules, Flags(false, false, false));
  }

  lemma StrategicIsNeedy(c: Catalog, tree: RuleOption)
    requires Somewhere(c, Strategic, tree)
    ensures Somewhere(c, Needy, tree)
  {
    var x :| Within(tree, x) && Has(c, Strategic, x);
    assert Has(c, Needy, x);
  }

  /** Outside legacy mode no rule, however deep, sets a strategy: applying route
      options may skip the strategy. */
  lemma NonLegacyHasNoStrategy(c: Catalog, rules: seq<RuleOption>, r: RuleOption)
    requires ResolveMode(c, rules) == Ok(false) && r in rules
    ensures !Somewhere(c, Strategic, r)
  {
    ModeIs(c, rules);
    if Somewhere(c, Strategic, r) { StrategicIsNeedy(c, r); }
  }

  // ---------------------------------------------------------------------
  // Validation outside legacy mode
  // ---------------------------------------------------------------------

  /** The responses a rule reads: the anonymous one, and the tagged ones. */
  datatype Use = Use(needsAnonymous: bool, referencedTags: seq<string>)

  predicate PureIPSet(m: RuleSetMetadata) { m.containsIPCIDRRule && !m.containsNonIPCIDRRule }

  /** Every referenced set is known and none holds nothing but addresses. */
  predicate RuleSetsUsable(c: Catalog, tags: seq<string>) {
    forall t :: t in tags ==> LookupMetadata(c, t).Ok? && !PureIPSet(LookupMetadata(c, t).value)
  }

  function ValidateDefault(c: Catalog, d: Conditions, a: ActionOptions): Result<Use> {
    if (d.hasResponseFields || d.hasIPCIDR || d.ipIsPrivate || d.ipAcceptAny) && !d.matchResponse.IsEnabled() then Error
    else if !d.matchResponse.IsEnabled() && !RuleSetsUsable(c, d.ruleSets) then Error
    else if d.ruleSetIPCIDRAcceptEmpty then Error
    else
      var tag := d.matchResponse.ResponseTag();
      Ok(Use((d.matchResponse.IsEnabled() && tag == "") || (a.kind.RespondKind? && tag == ""),
             if d.matchResponse.IsEnabled() && tag != "" then [tag] else []))
  }

  function ValidateTree(c: Catalog, rule: RuleOption): Result<Use>
    decreases rule, 1
  {
    match rule
    case DefaultRule(d, a) => ValidateDefault(c, d, a)
    case LogicalRule(rules, a) =>
      (match ValidateSubRules(c, rules)
       case Error => Error
       case Ok(u) =>
         if !a.kind.RespondKind? then Ok(u)
         else if u.referencedTags != [] then Error
         else Ok(u.(needsAnonymous := true)))
    case UnknownRule => Ok(Use(false, []))
  }

  function ValidateSubRules(c: Catalog, rules: seq<RuleOption>): Result<Use>
    decreases rules, 0
  {
    if rules == [] then Ok(Use(false, []))
    else
      match ValidateTree(c, rules[0])
      case Error => Error
      case Ok(u) =>
        match ValidateSubRules(c, rules[1..])
        case Error => Error
        case Ok(v) => Ok(Use(u.needsAnonymous || v.needsAnonymous, u.referencedTags + v.referencedTags))
  }

  function KindOf(rule: RuleOption): ActionKind {
    match rule
    case UnknownRule => UnsetAction
    case _ => if rule.action.kind.UnsetAction? then RouteKind else rule.action.kind
  }

  predicate EvaluatesAnonymously(rule: RuleOption) { KindOf(rule).EvaluateKind? && rule.action.evaluateTag == "" }

  predicate EvaluatesTag(rule: RuleOption, tag: string) {
    KindOf(rule).EvaluateKind? && tag != "" && rule.action.evaluateTag == tag
  }

  /** The rule reads the response of the evaluate rule with the tag. */
  predicate ReadsTag(rule: RuleOption, tag: string) {
    rule.DefaultRule? && tag != "" && rule.conditions.matchResponse == Tagged(tag)
  }

  /** The rule reads the anonymous response: to match on it, or to respond. */
  predicate ReadsAnonymous(rule: RuleOption) {
    match rule
    case DefaultRule(d, a) =>
      d.matchResponse == Latest || d.matchResponse == Tagged("") || (d.matchResponse == Off && a.kind.RespondKind?)
    case LogicalRule(_, a) => a.kind.RespondKind?
    case UnknownRule => false
  }

  ghost predicate ReadsTagWithin(tree: RuleOption, tag: string) { exists r :: Within(tree, r) && ReadsTag(r, tag) }

  ghost predicate ReadsAnonymousWithin(tree: RuleOption) { exists r :: Within(tree, r) && ReadsAnonymous(r) }

  /** The rule cannot be used outside legacy mode: it filters on the response
      without matching one, by a rule set or otherwise; it accepts an empty
      response; or it is a logical rule that responds although a rule in it
      matches a tagged response. */
  ghost predicate Broken(c: Catalog, rule: RuleOption) {
    match rule
    case DefaultRule(d, _) =>
      || (d.matchResponse == Off && (d.hasResponseFields || d.hasIPCIDR || d.ipIsPrivate || d.ipAcceptAny))
      || (d.matchResponse == Off && exists t :: t in d.ruleSets && !HoldsMore(c, t))
      || d.ruleSetIPCIDRAcceptEmpty
    case LogicalRule(_, a) => a.kind.RespondKind? && exists t :: ReadsTagWithin(rule, t)
    case UnknownRule => false
  }

  /** The rule set is known and holds more than addresses. */
  ghost predicate HoldsMore(c: Catalog, tag: string) {
    exists m :: KnownAs(c, tag, m) && (m.containsNonIPCIDRRule || !m.containsIPCIDRRule)
  }

  ghost predicate BrokenWithin(c: Catalog, tree: RuleOption) { exists r :: Within(tree, r) && Broken(c, r) }

  /** The conditions a list must meet: no rule is broken, every response read at a
      rule is asked for by an earlier evaluate rule, and no two evaluate rules
      share a tag. */
  ghost predicate RuleOk(c: Catalog, rules: seq<RuleOption>, i: nat)
    requires i < |rules|
  {
    && !BrokenWithin(c, rules[i])
    && (ReadsAnonymousWithin(rules[i]) ==> exists j :: 0 <= j < i && EvaluatesAnonymously(rules[j]))
    && (forall t :: ReadsTagWithin(rules[i], t) ==> exists j :: 0 <= j < i && EvaluatesTag(rules[j], t))
    && (forall j :: 0 <= j < i && rules[j] != UnknownRule && rules[j].action.evaluateTag != ""
                    && EvaluatesTag(rules[j], rules[j].action.evaluateTag) ==>
          !EvaluatesTag(rules[i], rules[j].action.evaluateTag))
  }

  // Validation of a tree finds exactly that.

  lemma WithinLogical(tree: RuleOption, r: RuleOption, x: RuleOption)
    requires tree.LogicalRule? && r in tree.rules && Within(r, x)
    ensures Within(tree, x)
  {
  }

  lemma DefaultUseIs(c: Catalog, d: Conditions, a: ActionOptions)
    ensures var v, rule := ValidateDefault(c, d, a), DefaultRule(d, a);
      && (v.Error? <==> Broken(c, rule))
      && (v.Ok? ==> && (v.value.needsAnonymous <==> ReadsAnonymous(rule))
                    && (forall t :: t in v.value.referencedTags <==> ReadsTag(rule, t)))
  {
    forall t ensures LookupMetadata(c, t).Error? <==> forall m :: !KnownAs(c, t, m) { LookupIs(c, t); }
    forall t | LookupMetadata(c, t).Ok? ensures KnownAs(c, t, LookupMetadata(c, t).value) { LookupIs(c, t); }
    forall t, m | KnownAs(c, t, m) ensures LookupMetadata(c, t) == Ok(m) { LookupIs(c, t); }
  }

  /** The verdict on a tree and the responses it reads. */
  ghost predicate UseSays(c: Catalog, v: Result<Use>, tree: RuleOption) {
    && (v.Error? <==> BrokenWithin(c, tree))
    && (v.Ok? ==> && (v.value.needsAnonymous <==> ReadsAnonymousWithin(tree))
                  && (forall t :: t in v.value.referencedTags <==> ReadsTagWithin(tree, t)))
  }

  ghost predicate ListUseSays(c: Catalog, v: Result<Use>, rules: seq<RuleOption>) {
    && (v.Error? <==> exists r :: r in rules && BrokenWithin(c, r))
    && (v.Ok? ==> && (v.value.needsAnonymous <==> exists r :: r in rules && ReadsAnonymousWithin(r))
                  && (forall t :: t in v.value.referencedTags <==> exists r :: r in rules && ReadsTagWithin(r, t)))
  }

  /** What lies in a logical rule is the rule itself or lies in a sub-rule. */
  lemma LogicalWithin(c: Catalog, rules: seq<RuleOption>, a: ActionOptions)
    ensures var tree := LogicalRule(rules, a);
      && (BrokenWithin(c, tree) <==> Broken(c, tree) || exists r :: r in rules && BrokenWithin(c, r))
      && (ReadsAnonymousWithin(tree) <==> a.kind.RespondKind? || exists r :: r in rules && ReadsAnonymousWithin(r))
      && (forall t :: ReadsTagWithin(tree, t) <==> exists r :: r in rules && ReadsTagWithin(r, t))
  {
    var tree := LogicalRule(rules, a);
    assert Within(tree, tree);
    forall r, x | r in rules && Within(r, x) ensures Within(tree, x) { WithinLogical(tree, r, x); }
  }

  lemma {:induction false} TreeUseIs(c: Catalog, rule: RuleOption)
    ensures UseSays(c, ValidateTree(c, rule), rule)
    decreases rule, 1
  {
    match rule
    case DefaultRule(d, a) =>
      DefaultUseIs(c, d, a);
      assert Within(rule, rule);
    case LogicalRule(rules, a) =>
      ListUseIs(c, rules);
      LogicalWithin(c, rules, a);
      LogicalUseIs(c, rules, a);
    case UnknownRule =>
  }

  lemma LogicalUseIs(c: Catalog, rules: seq<RuleOption>, a: ActionOptions)
    requires ListUseSays(c, ValidateSubRules(c, rules), rules)
    ensures UseSays(c, ValidateTree(c, LogicalRule(rules, a)), LogicalRule(rules, a))
  {
    LogicalWithin(c, rules, a);
    var v := ValidateSubRules(c, rules);
    if v.Ok? && v.value.referencedTags != [] {
      assert v.value.referencedTags[0] in v.value.referencedTags;
      assert ReadsTagWithin(LogicalRule(rules, a), v.value.referencedTags[0]);
    } else if v.Ok? {
      forall t ensures !ReadsTagWithin(LogicalRule(rules, a), t) { assert t !in v.value.referencedTags; }
    }
  }

  lemma {:induction false} ListUseIs(c: Catalog, rules: seq<RuleOption>)
    ensures ListUseSays(c, ValidateSubRules(c, rules), rules)
    decreases rules, 0
  {
    if rules != [] {
      TreeUseIs(c, rules[0]);
      ListUseIs(c, rules[1..]);
      assert forall r :: r in rules <==> r == rules[0] || r in rules[1..];
    }
  }

  ghost predicate Valid(c: Catalog, rules: seq<RuleOption>) { forall i :: 0 <= i < |rules| ==> RuleOk(c, rules, i) }

  datatype Verdict = Accepted | Refused(index: nat)

  /** The validator's single pass with its sets of tags seen so far: it accepts
      exactly the valid lists, and refuses at the first offending rule. */
  method ValidateRules(c: Catalog, rules: seq<RuleOption>) returns (v: Verdict)
    ensures v.Accepted? <==> Valid(c, rules)
    ensures v.Refused? ==> v.index < |rules| && !RuleOk(c, rules, v.index) && Valid(c, rules[..v.index])
  {
    var seenAnonymous := false;
    var defined: set<string> := {};
    for i := 0 to |rules|
      invariant seenAnonymous <==> exists j :: 0 <= j < i && EvaluatesAnonymously(rules[j])
      invariant forall t :: t in defined <==> exists j :: 0 <= j < i && EvaluatesTag(rules[j], t)
      invariant forall j :: 0 <= j < i ==> RuleOk(c, rules, j)
    {
      PrefixValid(c, rules, i);
      TreeUseIs(c, rules[i]);
      var use := ValidateTree(c, rules[i]);
      if use.Error? {
        assert !RuleOk(c, rules, i);
        return Refused(i);
      }
      if use.value.needsAnonymous && !seenAnonymous {
        assert !RuleOk(c, rules, i);
        return Refused(i);
      }
      for k := 0 to |use.value.referencedTags|
        invariant forall m :: 0 <= m < k ==> use.value.referencedTags[m] in defined
      {
        if use.value.referencedTags[k] !in defined {
          assert use.value.referencedTags[k] in use.value.referencedTags;
          assert !RuleOk(c, rules, i);
          return Refused(i);
        }
      }
      if KindOf(rules[i]).EvaluateKind? {
        var tag := rules[i].action.evaluateTag;
        if tag == "" {
          assert EvaluatesAnonymously(rules[i]);
          seenAnonymous := true;
        } else {
          assert EvaluatesTag(rules[i], tag);
          if tag in defined {
            ghost var j :| 0 <= j < i && EvaluatesTag(rules[j], tag);
            assert rules[j].action.evaluateTag == tag;
            assert !RuleOk(c, rules, i);
            return Refused(i);
          }
          defined := defined + {tag};
        }
      }
    }
    return Accepted;
  }

  lemma PrefixValid(c: Catalog, rules: seq<RuleOption>, n: nat)
    requires n <= |rules| && forall j :: 0 <= j < n ==> RuleOk(c, rules, j)
    ensures Valid(c, rules[..n])
  {
    forall i | 0 <= i < n ensures RuleOk(c, rules[..n], i) {
      assert RuleOk(c, rules, i);
      if ReadsAnonymousWithin(rules[i]) {
        var j :| 0 <= j < i && EvaluatesAnonymously(rules[j]);
        assert EvaluatesAnonymously(rules[..n][j]);
      }
      forall t | ReadsTagWithin(rules[i], t) ensures exists j :: 0 <= j < i && EvaluatesTag(rules[..n][j], t) {
        var j :| 0 <= j < i && EvaluatesTag(rules[j], t);
        assert EvaluatesTag(rules[..n][j], t);
      }
    }
  }

  // ---------------------------------------------------------------------
  // From options to the rules of a walk
  // ---------------------------------------------------------------------

  function CompileAction(a: ActionOptions): RuleWalk.Action {
    match a.kind
    case UnsetAction => RuleWalk.NoAction
    case RouteKind => RuleWalk.RouteAction(a.routeServer, a.routeSpeculative, a.routeOverrides)
    case EvaluateKind =>
      RuleWalk.EvaluateAction(a.evaluateServer, a.evaluateTag, a.evaluateSpeculative, a.evaluateOverrides)
    case RespondKind => RuleWalk.RespondAction
    case RouteOptionsKind => RuleWalk.RouteOptionsAction(a.optionsOverrides)
    case RejectKind => RuleWalk.RejectAction(a.rejectMethod)
    case PredefinedKind => RuleWalk.PredefinedAction
  }

  /** The tags a compiled rule binds: its own, or those of its sub-rules. */
  function BoundTags(rule: RuleOption): seq<string>
    decreases rule, 1
  {
    match rule
    case DefaultRule(d, _) => if d.matchResponse.ResponseTag() == "" then [] else [d.matchResponse.ResponseTag()]
    case LogicalRule(rules, _) => Uniq(SubTags(rules))
    case UnknownRule => []
  }

  function SubTags(rules: seq<RuleOption>): seq<string>
    decreases rules, 0
  {
    if rules == [] then [] else BoundTags(rules[0]) + SubTags(rules[1..])
  }

  function Uniq(tags: seq<string>): seq<string> {
    if tags == [] then []
    else
      var rest := Uniq(tags[..|tags| - 1]);
      if tags[|tags| - 1] in rest then rest else rest + [tags[|tags| - 1]]
  }

  predicate BindsAnonymous(rule: RuleOption) {
    match rule
    case DefaultRule(d, _) => d.matchResponse.IsEnabled() && d.matchResponse.ResponseTag() == ""
    case LogicalRule(rules, _) => exists r :: r in rules && BindsAnonymous(r)
    case UnknownRule => false
  }

  /** The compiled form of a rule; its conditions and whether it is switched
      off are given. A list with a rule of unknown type does not compile. */
  function Compile(rule: RuleOption, disabled: bool, matches: RuleWalk.Bound -> bool): RuleWalk.Rule
    requires !rule.UnknownRule?
  {
    RuleWalk.Rule(disabled, rule.action.race, BoundTags(rule), BindsAnonymous(rule),
                  if rule.DefaultRule? then rule.conditions.matchResponse.ResponseTag() else "",
                  matches, CompileAction(rule.action))
  }

  ghost predicate Compiles(rules: seq<RuleOption>, compiled: seq<RuleWalk.Rule>) {
    && |compiled| == |rules|
    && forall i :: 0 <= i < |rules| ==>
         !rules[i].UnknownRule? && compiled[i] == Compile(rules[i], compiled[i].disabled, compiled[i].matches)
  }

  lemma {:induction false} UniqElements(tags: seq<string>)
    ensures forall t :: t in Uniq(tags) <==> t in tags
  {
    if tags != [] {
      UniqElements(tags[..|tags| - 1]);
      assert forall t :: t in tags <==> t in tags[..|tags| - 1] || t == tags[|tags| - 1];
    }
  }

  lemma {:induction false} UniqIsDistinct(tags: seq<string>)
    ensures forall i, j :: 0 <= i < j < |Uniq(tags)| ==> Uniq(tags)[i] != Uniq(tags)[j]
  {
    if tags != [] { UniqIsDistinct(tags[..|tags| - 1]); }
  }

  /** The rule matches on the anonymous response. */
  predicate MatchesAnonymous(rule: RuleOption) {
    rule.DefaultRule? && (rule.conditions.matchResponse == Latest || rule.conditions.matchResponse == Tagged(""))
  }

  ghost predicate MatchesAnonymousWithin(tree: RuleOption) { exists r :: Within(tree, r) && MatchesAnonymous(r) }

  lemma LogicalMatches(rules: seq<RuleOption>, a: ActionOptions)
    ensures MatchesAnonymousWithin(LogicalRule(rules, a)) <==> exists r :: r in rules && MatchesAnonymousWithin(r)
  {
    var tree := LogicalRule(rules, a);
    forall r, x | r in rules && Within(r, x) ensures Within(tree, x) { WithinLogical(tree, r, x); }
  }

  /** A compiled rule binds each tag read in its tree, once, and the anonymous
      response exactly when some rule in its tree matches on it. */
  lemma {:induction false} BindingsAre(rule: RuleOption)
    ensures forall t :: t in BoundTags(rule) <==> ReadsTagWithin(rule, t)
    ensures forall i, j :: 0 <= i < j < |BoundTags(rule)| ==> BoundTags(rule)[i] != BoundTags(rule)[j]
    ensures BindsAnonymous(rule) <==> MatchesAnonymousWithin(rule)
    decreases rule, 1
  {
    match rule
    case DefaultRule(_, _) => assert Within(rule, rule);
    case LogicalRule(rules, a) =>
      SubBindingsAre(rules);
      UniqElements(SubTags(rules));
      UniqIsDistinct(SubTags(rules));
      LogicalWithin(Catalog(false, map[], map[]), rules, a);
      LogicalMatches(rules, a);
    case UnknownRule =>
  }

  lemma {:induction false} SubBindingsAre(rules: seq<RuleOption>)
    ensures forall t :: t in SubTags(rules) <==> exists r :: r in rules && ReadsTagWithin(r, t)
    ensures forall r :: r in rules ==> (BindsAnonymous(r) <==> MatchesAnonymousWithin(r))
    decreases rules, 0
  {
    if rules != [] {
      BindingsAre(rules[0]);
      SubBindingsAre(rules[1..]);
      assert forall r :: r in rules <==> r == rules[0] || r in rules[1..];
    }
  }

  /** The compiled action keeps everything its kind has: two actions compile to the
      same action only if they are of one kind and agree on what that kind has. */
  lemma CompiledActionsKeepTheirOptions(a: ActionOptions, b: ActionOptions)
    requires CompileAction(a) == CompileAction(b)
    ensures a.kind == b.kind
    ensures a.kind.RouteKind? ==>
              && a.routeServer == b.routeServer && a.routeSpeculative == b.routeSpeculative
              && Applicable(a) == Applicable(b)
    ensures a.kind.EvaluateKind? ==>
              && a.evaluateServer == b.evaluateServer && a.evaluateTag == b.evaluateTag
              && a.evaluateSpeculative == b.evaluateSpeculative && Applicable(a) == Applicable(b)
    ensures a.kind.RouteOptionsKind? ==> Applicable(a) == Applicable(b)
    ensures a.kind.RejectKind? ==> a.rejectMethod == b.rejectMethod
  {
  }

  /** Validation sees every tag a compiled rule binds. */
  lemma {:induction false} BoundTagsAreReferenced(c: Catalog, rule: RuleOption)
    requires ValidateTree(c, rule).Ok?
    ensures forall t :: t in BoundTags(rule) ==> t != "" && t in ValidateTree(c, rule).value.referencedTags
    decreases rule, 1
  {
    match rule
    case DefaultRule(_, _) =>
    case LogicalRule(rules, _) => SubTagsAreReferenced(c, rules); UniqElements(SubTags(rules));
    case UnknownRule =>
  }

  lemma {:induction false} SubTagsAreReferenced(c: Catalog, rules: seq<RuleOption>)
    requires ValidateSubRules(c, rules).Ok?
    ensures forall t :: t in SubTags(rules) ==> t != "" && t in ValidateSubRules(c, rules).value.referencedTags
    decreases rules, 0
  {
    if rules != [] {
      BoundTagsAreReferenced(c, rules[0]);
      SubTagsAreReferenced(c, rules[1..]);
    }
  }

  lemma CompiledTag(rules: seq<RuleOption>, compiled: seq<RuleWalk.Rule>, i: nat, t: string)
    requires Compiles(rules, compiled) && i < |rules|
    ensures compiled[i].Defines(t) <==> EvaluatesTag(rules[i], t)
  {
  }

  /** Validation supplies what the walk relies on: every tag a rule reads is
      defined by one evaluate rule before it, and a respond rule without a tag
      binds none. */
  lemma ValidRulesAreWellFormed(c: Catalog, rules: seq<RuleOption>, compiled: seq<RuleWalk.Rule>)
    requires Valid(c, rules) && Compiles(rules, compiled)
    ensures SequentialRules.WellFormed(compiled)
  {
    forall i, t | 0 <= i < |compiled| && t in compiled[i].tags
      ensures t != "" && exists j :: 0 <= j < i && compiled[j].Defines(t)
    {
      assert RuleOk(c, rules, i);
      TreeUseIs(c, rules[i]);
      BoundTagsAreReferenced(c, rules[i]);
      var j :| 0 <= j < i && EvaluatesTag(rules[j], t);
      CompiledTag(rules, compiled, j, t);
    }
    forall i, j | 0 <= i < j < |compiled| && compiled[i].action.EvaluateAction? && compiled[i].action.tag != ""
      ensures !compiled[j].Defines(compiled[i].action.tag)
    {
      assert RuleOk(c, rules, j);
      CompiledTag(rules, compiled, i, compiled[i].action.tag);
      CompiledTag(rules, compiled, j, compiled[i].action.tag);
      assert EvaluatesTag(rules[i], rules[i].action.evaluateTag);
    }
    forall i | 0 <= i < |compiled|
      ensures compiled[i].respondTag != "" ==> compiled[i].respondTag in compiled[i].tags
      ensures compiled[i].action.RespondAction? && compiled[i].respondTag == "" ==> compiled[i].tags == []
    {
      assert RuleOk(c, rules, i);
      TreeUseIs(c, rules[i]);
      if rules[i].LogicalRule? { RespondBindsNoTag(c, rules[i]); }
    }
  }

  lemma RespondBindsNoTag(c: Catalog, rule: RuleOption)
    requires ValidateTree(c, rule).Ok? && rule.LogicalRule?
    ensures rule.action.kind.RespondKind? ==> BoundTags(rule) == []
  {
    BoundTagsAreReferenced(c, rule);
    assert BoundTags(rule) != [] ==> BoundTags(rule)[0] in BoundTags(rule);
  }

  // ---------------------------------------------------------------------
  // Skipping the strategy
  // ---------------------------------------------------------------------

  /** Applying overrides including the strategy, as legacy matching does. */
  function ApplyWithStrategy(o: Options, r: Overrides): Options {
    if r.strategy.AsIs? then Apply(o, r) else Apply(o, r).(strategy := r.strategy)
  }

  function ApplyAllWithStrategy(o: Options, rs: seq<Overrides>): Options {
    if rs == [] then o else ApplyWithStrategy(ApplyAllWithStrategy(o, rs[..|rs| - 1]), rs[|rs| - 1])
  }

  predicate Overriding(a: RuleWalk.Action) { a.RouteAction? || a.EvaluateAction? || a.RouteOptionsAction? }

  /** The overrides are those of a compiled rule. */
  predicate OneOf(compiled: seq<RuleWalk.Rule>, r: Overrides) {
    exists i :: 0 <= i < |compiled| && Overriding(compiled[i].action) && compiled[i].action.overrides == r
  }

  /** Outside legacy mode no compiled rule would set a strategy. */
  lemma CompiledRulesSetNoStrategy(c: Catalog, rules: seq<RuleOption>, compiled: seq<RuleWalk.Rule>, i: nat)
    requires ResolveMode(c, rules) == Ok(false) && Compiles(rules, compiled) && i < |compiled|
    ensures Overriding(compiled[i].action) ==> compiled[i].action.overrides.strategy == AsIs
  {
    NonLegacyHasNoStrategy(c, rules, rules[i]);
    var a := rules[i].action;
    assert Within(rules[i], rules[i]) && !Has(c, Strategic, rules[i]);
    if Overriding(compiled[i].action) { assert compiled[i].action.overrides in Applicable(a); }
  }

  /** Outside legacy mode skipping the strategy changes nothing: whatever overrides
      of compiled rules are applied in whatever order, the options are the same as
      with the strategies applied, the strategy of the query among them, and every
      other option is what its last writer says. */
  lemma {:induction false} SkippingStrategyIsSound(c: Catalog, rules: seq<RuleOption>, compiled: seq<RuleWalk.Rule>,
                                                   o: Options, rs: seq<Overrides>)
    requires ResolveMode(c, rules) == Ok(false) && Compiles(rules, compiled)
    requires forall k :: 0 <= k < |rs| ==> OneOf(compiled, rs[k])
    ensures ApplyAllWithStrategy(o, rs) == ApplyAll(o, rs)
    ensures Effective(o, rs, false, ApplyAllWithStrategy(o, rs))
    decreases |rs|
  {
    LastWriterWins(o, rs);
    if rs != [] {
      var n := |rs| - 1;
      SkippingStrategyIsSound(c, rules, compiled, o, rs[..n]);
      assert OneOf(compiled, rs[n]);
      var i :| 0 <= i < |compiled| && Overriding(compiled[i].action) && compiled[i].action.overrides == rs[n];
      CompiledRulesSetNoStrategy(c, rules, compiled, i);
    }
  }
}

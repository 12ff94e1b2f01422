/** Starting DNS transports in dependency order, and naming the problem when
    that is impossible. */
module TransportStart {

  /** A transport, the tags it depends on, whether starting it fails, whether it
      makes up addresses, and a serial number that tells two objects apart. */
  datatype Transport = Transport(tag: string, dependencies: seq<string>, fails: bool, fakeIP: bool, serial: nat)

  predicate UniqueTags(ts: seq<Transport>) { forall i, j :: 0 <= i < j < |ts| ==> ts[i].tag != ts[j].tag }

  function Tags(ts: seq<Transport>): set<string> { set t | t in ts :: t.tag }

  /** The map by tag holds exactly the listed transports, as it does while the
      manager is open. */
  predicate InStep(ts: seq<Transport>, byTag: map<string, Transport>) {
    && (forall t :: t in ts ==> t.tag in byTag && byTag[t.tag] == t)
    && (forall tag :: tag in byTag ==> byTag[tag] in ts && byTag[tag].tag == tag)
  }

  // ---------------------------------------------------------------------
  // The dependency graph
  // ---------------------------------------------------------------------

  predicate DependsOn(byTag: map<string, Transport>, a: string, b: string) {
    a in byTag && b in byTag[a].dependencies
  }

  predicate Closed(byTag: map<string, Transport>) {
    forall a, b :: a in byTag && b in byTag[a].dependencies ==> b in byTag
  }

  /** Each tag of the path depends on the next one. */
  predicate Path(byTag: map<string, Transport>, path: seq<string>) {
    forall i :: 0 <= i < |path| - 1 ==> DependsOn(byTag, path[i], path[i + 1])
  }

  predicate Cycle(byTag: map<string, Transport>, path: seq<string>) {
    path != [] && Path(byTag, path) && DependsOn(byTag, path[|path| - 1], path[0])
  }

  ghost predicate Acyclic(byTag: map<string, Transport>) { forall path :: !Cycle(byTag, path) }

  /** Every tag comes once, after everything it depends on. */
  predicate StartOrder(byTag: map<string, Transport>, order: seq<string>) {
    && (forall i, j :: 0 <= i < j < |order| ==> order[i] != order[j])
    && (forall i :: 0 <= i < |order| ==> order[i] in byTag)
    && (forall i, d :: 0 <= i < |order| && d in byTag[order[i]].dependencies ==> d in order[..i])
  }

  function Position(order: seq<string>, tag: string): nat
    requires tag in order
    ensures Position(order, tag) < |order| && order[Position(order, tag)] == tag
  {
    if order[0] == tag then 0 else 1 + Position(order[1..], tag)
  }

  lemma DependencyComesFirst(byTag: map<string, Transport>, order: seq<string>, a: string, b: string)
    requires StartOrder(byTag, order) && a in order
    ensures DependsOn(byTag, a, b) ==> b in order && Position(order, b) < Position(order, a)
  {
    if DependsOn(byTag, a, b) {
      var i := Position(order, a);
      assert b in order[..i];
      var j :| 0 <= j < i && order[j] == b;
      assert Position(order, b) == j;
    }
  }

  lemma {:induction false} PathDescends(byTag: map<string, Transport>, order: seq<string>, path: seq<string>)
    requires StartOrder(byTag, order) && path != [] && path[0] in order && Path(byTag, path)
    ensures path[|path| - 1] in order && Position(order, path[|path| - 1]) <= Position(order, path[0])
  {
    if |path| > 1 {
      var n := |path| - 1;
      assert forall i :: 0 <= i < n ==> path[..n][i] == path[i];
      PathDescends(byTag, order, path[..n]);
      assert DependsOn(byTag, path[n - 1], path[n]);
      DependencyComesFirst(byTag, order, path[n - 1], path[n]);
    }
  }

  /** A complete start order exists only for a closed graph without cycles. */
  lemma OrderedGraphIsSound(byTag: map<string, Transport>, order: seq<string>)
    requires StartOrder(byTag, order) && (forall tag :: tag in byTag ==> tag in order)
    ensures Closed(byTag) && Acyclic(byTag)
  {
    forall a, b | a in byTag && b in byTag[a].dependencies ensures b in byTag {
      DependencyComesFirst(byTag, order, a, b);
      assert order[Position(order, b)] in byTag;
    }
    forall path ensures !Cycle(byTag, path) {
      if path != [] && Path(byTag, path) && path[0] in order {
        PathDescends(byTag, order, path);
        DependencyComesFirst(byTag, order, path[|path| - 1], path[0]);
      }
      if |path| > 1 && Path(byTag, path) { assert DependsOn(byTag, path[0], path[1]); }
    }
  }

  // ---------------------------------------------------------------------
  // Starting
  // ---------------------------------------------------------------------

  datatype Result =
    | Started
    | StartFailed(tag: string)
    | Circular(tree: seq<string>, problem: string)
    | NotFound(dependency: string, server: string)

  /** The reported problem is real. */
  ghost predicate RealProblem(byTag: map<string, Transport>, r: Result) {
    match r
    case Circular(tree, problem) => exists j :: 0 <= j < |tree| && tree[j] == problem && Cycle(byTag, tree[j..])
    case NotFound(dependency, server) => DependsOn(byTag, server, dependency) && dependency !in byTag
    case _ => true
  }

  method FirstUnstarted(dependencies: seq<string>, started: set<string>) returns (found: bool, tag: string)
    ensures found ==> tag in dependencies && tag !in started
    ensures !found ==> forall d :: d in dependencies ==> d in started
  {
    for i := 0 to |dependencies|
      invariant forall j :: 0 <= j < i ==> dependencies[j] in started
    {
      if dependencies[i] !in started {
        return true, dependencies[i];
      }
    }
    return false, "";
  }

  function Elements(s: seq<string>): set<string> { set x | x in s }

  /** Follow unstarted dependencies from a stuck transport until one repeats or
      does not exist. */
  method Lint(byTag: map<string, Transport>, started: set<string>, tree: seq<string>) returns (r: Result)
    requires tree != [] && tree[|tree| - 1] in byTag && tree[|tree| - 1] !in started && Path(byTag, tree)
    requires forall tag :: tag in byTag && tag !in started ==>
               exists d :: d in byTag[tag].dependencies && d !in started
    ensures r.Circular? || r.NotFound?
    ensures RealProblem(byTag, r)
    decreases byTag.Keys - Elements(tree)
  {
    var current := tree[|tree| - 1];
    var found, problem := FirstUnstarted(byTag[current].dependencies, started);
    assert found;
    if problem in tree {
      var j :| 0 <= j < |tree| && tree[j] == problem;
      assert forall i :: 0 <= i < |tree| - j ==> tree[j..][i] == tree[j + i];
      assert Cycle(byTag, tree[j..]);
      return Circular(tree, problem);
    }
    if problem !in byTag {
      return NotFound(problem, current);
    }
    assert problem in Elements(tree + [problem]) && problem !in Elements(tree);
    assert Elements(tree) <= Elements(tree + [problem]);
    r := Lint(byTag, started, tree + [problem]);
  }

  /** One pass over the list: start whatever has all its dependencies. */
  method StartPass(ts: seq<Transport>, ghost byTag: map<string, Transport>, started: set<string>, order: seq<string>)
    returns (started': set<string>, order': seq<string>, progress: bool, failure: seq<string>)
    requires InStep(ts, byTag) && StartOrder(byTag, order) && started == Elements(order)
    ensures StartOrder(byTag, order') && started' == Elements(order') && started <= started'
    ensures order <= order'
    ensures failure == [] ==> (progress <==> started < started')
    ensures failure == [] && !progress ==>
              forall t :: t in ts && t.tag !in started' ==> exists d :: d in t.dependencies && d !in started'
    ensures failure != [] ==> failure[0] in byTag && byTag[failure[0]].fails
    ensures failure == [] ==> forall tag :: tag in started' - started ==> tag in byTag && !byTag[tag].fails
  {
    started', order', progress, failure := started, order, false, [];
    for i := 0 to |ts|
      invariant StartOrder(byTag, order') && started' == Elements(order') && started <= started' && order <= order'
      invariant failure == [] && (progress <==> started < started')
      invariant forall tag :: tag in started' - started ==> tag in byTag && !byTag[tag].fails
      invariant !progress ==> forall k :: 0 <= k < i && ts[k].tag !in started' ==>
                  exists d :: d in ts[k].dependencies && d !in started'
    {
      var t := ts[i];
      assert t in ts;
      if t.tag in started' {
        continue;
      }
      var missing, _ := FirstUnstarted(t.dependencies, started');
      if missing {
        continue;
      }
      ExtendOrder(byTag, order', t.tag);
      ghost var before := order';
      order' := order' + [t.tag];
      started' := started' + {t.tag};
      assert Elements(order') == Elements(before) + {t.tag};
      assert t.tag !in started;
      progress := true;
      if t.fails {
        failure := [t.tag];
        return;
      }
    }
  }

  lemma ExtendOrder(byTag: map<string, Transport>, order: seq<string>, tag: string)
    requires StartOrder(byTag, order) && tag in byTag && tag !in order
    requires forall d :: d in byTag[tag].dependencies ==> d in order
    ensures StartOrder(byTag, order + [tag])
  {
    var extended := order + [tag];
    forall i | 0 <= i < |extended|
      ensures extended[i] in byTag
      ensures forall d :: d in byTag[extended[i]].dependencies ==> d in extended[..i]
    {
      if i < |order| {
        assert extended[..i] == order[..i];
      } else {
        assert extended[..i] == order;
      }
    }
  }

  /** Start every transport after its dependencies. With distinct tags it succeeds
      exactly when the dependency graph is closed and acyclic and no start fails;
      then every transport has been started once, after all it depends on.
      Otherwise the reported problem is real. */
  method StartTransports(ts: seq<Transport>, byTag: map<string, Transport>) returns (r: Result, order: seq<string>)
    requires UniqueTags(ts) && InStep(ts, byTag)
    ensures StartOrder(byTag, order)
    ensures r.Started? ==> Elements(order) == Tags(ts) && |order| == |ts|
    ensures r.Started? <==> Closed(byTag) && Acyclic(byTag) && forall tag :: tag in byTag ==> !byTag[tag].fails
    ensures RealProblem(byTag, r)
    ensures r.StartFailed? ==> r.tag in byTag && byTag[r.tag].fails
  {
    var started: set<string> := {};
    order := [];
    ghost var all := Tags(ts);
    while true
      invariant StartOrder(byTag, order) && started == Elements(order)
      invariant started <= all
      invariant forall tag :: tag in started ==> tag in byTag && !byTag[tag].fails
      decreases all - started
    {
      ghost var before := started;
      var progress, failure;
      started, order, progress, failure := StartPass(ts, byTag, started, order);
      StartedAreListed(ts, byTag, order);
      if failure != [] {
        return StartFailed(failure[0]), order;
      }
      OrderCount(order);
      TagCount(ts);
      if |started| == |ts| {
        SameSize(started, all);
        forall tag | tag in byTag ensures tag in order { assert byTag[tag] in ts && tag in all; }
        OrderedGraphIsSound(byTag, order);
        return Started, order;
      }
      if progress {
        continue;
      }
      var stuck := FindStuck(ts, started);
      r := Lint(byTag, started, [stuck.tag]);
      ProblemRefutes(byTag, r);
      return;
    }
  }

  method FindStuck(ts: seq<Transport>, started: set<string>) returns (t: Transport)
    requires UniqueTags(ts) && started <= Tags(ts) && |started| != |ts|
    ensures t in ts && t.tag !in started
  {
    SomeStuck(ts, started);
    var i := 0;
    while ts[i].tag in started
      invariant 0 <= i < |ts|
      invariant exists k :: i <= k < |ts| && ts[k].tag !in started
      decreases |ts| - i
    {
      i := i + 1;
    }
    return ts[i];
  }

  lemma SomeStuck(ts: seq<Transport>, started: set<string>)
    requires UniqueTags(ts) && started <= Tags(ts) && |started| != |ts|
    ensures exists k :: 0 <= k < |ts| && ts[k].tag !in started
  {
    TagCount(ts);
    assert started != Tags(ts);
    var tag := Leftover(started, Tags(ts));
    var t :| t in ts && t.tag == tag;
    var k :| 0 <= k < |ts| && ts[k] == t;
  }

  lemma ProblemRefutes(byTag: map<string, Transport>, r: Result)
    requires RealProblem(byTag, r) && (r.Circular? || r.NotFound?)
    ensures !(Closed(byTag) && Acyclic(byTag))
  {
    match r
    case Circular(tree, problem) =>
      var j :| 0 <= j < |tree| && tree[j] == problem && Cycle(byTag, tree[j..]);
    case NotFound(dependency, server) =>
  }

  lemma StartedAreListed(ts: seq<Transport>, byTag: map<string, Transport>, order: seq<string>)
    requires InStep(ts, byTag) && StartOrder(byTag, order)
    ensures Elements(order) <= Tags(ts)
  {
    forall x | x in order ensures x in Tags(ts) {
      var i :| 0 <= i < |order| && order[i] == x;
      assert byTag[x] in ts;
    }
  }

  lemma {:induction false} OrderCount(order: seq<string>)
    requires forall i, j :: 0 <= i < j < |order| ==> order[i] != order[j]
    ensures |Elements(order)| == |order|
  {
    if order != [] {
      var n := |order| - 1;
      OrderCount(order[..n]);
      assert Elements(order) == Elements(order[..n]) + {order[n]};
    }
  }

  lemma {:induction false} TagCount(ts: seq<Transport>)
    requires UniqueTags(ts)
    ensures |Tags(ts)| == |ts|
  {
    if ts != [] {
      var n := |ts| - 1;
      TagCount(ts[..n]);
      assert Tags(ts) == Tags(ts[..n]) + {ts[n].tag} by { assert ts == ts[..n] + [ts[n]]; }
    }
  }

  lemma Leftover(a: set<string>, b: set<string>) returns (x: string)
    requires a <= b && a != b
    ensures x in b && x !in a
  {
    assert b == a + (b - a);
    x :| x in b - a;
  }

  lemma SameSize(a: set<string>, b: set<string>)
    requires a <= b && |a| == |b|
    ensures a == b
  {
    assert b == a + (b - a);
  }
}

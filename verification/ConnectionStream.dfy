/** The connection stream: the server keeps a snapshot per open connection and
    sends snapshots and deltas; a client folds the events into its own view.

    Counters are read while traffic flows, and announcing a connection reads
    them twice. The first batch reads what it sends before what it keeps in the
    snapshot; notices and periodic updates read what they keep first. A reading
    carries both looks in the order they are taken. */
module ConnectionStream {
  import opened Optional

  type Id = nat

  datatype Totals = Totals(up: int, down: int)

  datatype Snapshot = Snapshot(totals: Totals, hadTraffic: bool)

  type Snapshots = map<Id, Snapshot>

  const ZERO: Totals := Totals(0, 0)

  /** A connection as a client shows it: its totals, the traffic last reported, and
      when it closed, 0 while it is open. A server sends no traffic with it. */
  datatype Connection = Connection(totals: Totals, rate: Totals, closedAt: int)

  datatype Event =
    | New(id: Id, connection: Connection)
    | Update(id: Id, delta: Totals)
    | Closed(id: Id, at: int, final: Option<Connection>)

  /** Two looks at the counters of an active connection, one after the other. */
  datatype Reading = Reading(id: Id, first: Totals, second: Totals)

  // ---------------------------------------------------------------------
  // The client
  // ---------------------------------------------------------------------

  type View = map<Id, Connection>

  function Plus(a: Totals, b: Totals): Totals { Totals(a.up + b.up, a.down + b.down) }

  function Minus(a: Totals, b: Totals): Totals { Totals(a.up - b.up, a.down - b.down) }

  function FoldOne(v: View, e: Event): View {
    match e
    case New(id, c) => v[id := c]
    case Update(id, d) => if id in v then v[id := v[id].(totals := Plus(v[id].totals, d), rate := d)] else v
    case Closed(id, at, Some(c)) => v[id := c.(closedAt := at, rate := ZERO)]
    case Closed(id, at, None) => if id in v then v[id := v[id].(closedAt := at, rate := ZERO)] else v
  }

  function Fold(v: View, events: seq<Event>): View {
    if events == [] then v else FoldOne(Fold(v, events[..|events| - 1]), events[|events| - 1])
  }

  function Open(v: View): set<Id> { set id | id in v && v[id].closedAt == 0 }

  /** Old closed connections may be dropped from the view after a batch. */
  predicate Evicts(v: View, w: View) {
    && (forall id :: id in w ==> id in v && w[id] == v[id])
    && (forall id :: id in v && id !in w ==> v[id].closedAt != 0)
  }

  // ---------------------------------------------------------------------
  // The server, one event or one connection at a time
  // ---------------------------------------------------------------------

  datatype Change = Change(snapshots: Snapshots, events: seq<Event>)

  /** A connection found by a notice or a periodic update: the snapshot keeps
      the first look, the event shows the second. */
  function Announce(s: Snapshots, r: Reading): Change {
    Change(s[r.id := Snapshot(r.first, false)], [New(r.id, Connection(r.second, ZERO, 0))])
  }

  /** One connection of a periodic update. */
  function Observe(s: Snapshots, r: Reading): Change {
    if r.id !in s then Announce(s, r)
    else
      var d := Minus(r.first, s[r.id].totals);
      if d.up < 0 || d.down < 0 then
        Change(s[r.id := Snapshot(r.first, false)], if s[r.id].hadTraffic then [Update(r.id, Totals(0, 0))] else [])
      else if d.up > 0 || d.down > 0 then
        Change(s[r.id := Snapshot(r.first, true)], [Update(r.id, d)])
      else if s[r.id].hadTraffic then
        Change(s[r.id := Snapshot(r.first, false)], [Update(r.id, Totals(0, 0))])
      else Change(s, [])
  }

  function ObserveAll(s: Snapshots, active: seq<Reading>): Change {
    if active == [] then Change(s, [])
    else
      var before := ObserveAll(s, active[..|active| - 1]);
      var last := Observe(before.snapshots, active[|active| - 1]);
      Change(last.snapshots, before.events + last.events)
  }

  /** A notice from the traffic manager. */
  datatype Notice = Opened(reading: Reading) | Left(id: Id, at: int, final: Option<Connection>) | Unknown

  function React(s: Snapshots, n: Notice): Change {
    match n
    case Opened(r) => if r.id in s then Change(s, []) else Announce(s, r)
    case Left(id, at, final) => Change(s - {id}, [Closed(id, at, final)])
    case Unknown => Change(s, [])
  }

  function Ids(active: seq<Reading>): set<Id> {
    if active == [] then {} else Ids(active[..|active| - 1]) + {active[|active| - 1].id}
  }

  function EventIds(events: seq<Event>): set<Id> {
    if events == [] then {} else EventIds(events[..|events| - 1]) + {events[|events| - 1].id}
  }

  /** A batch that closes exactly the given connections, each with a time. */
  predicate Closes(events: seq<Event>, ids: set<Id>) {
    (forall i :: 0 <= i < |events| ==> events[i].Closed? && events[i].at != 0) && EventIds(events) == ids
  }

  // ---------------------------------------------------------------------
  // Agreement of the two sides
  // ---------------------------------------------------------------------

  /** What the events so far leave between the two sides: `early`, the
      connections with a snapshot that the client shows as closed; `drift`, how
      far the client's totals are ahead of the snapshot's; `gap`, the part of it
      that comes from the last announcement; and `later`, the connections last
      announced after the first batch. */
  datatype Ledger = Ledger(early: set<Id>, drift: map<Id, Totals>, gap: map<Id, Totals>, later: set<Id>)

  predicate Agree(v: View, s: Snapshots, b: Ledger) {
    && b.early <= s.Keys
    && Open(v) == s.Keys - b.early
    && (forall id :: id in Open(v) ==>
          id in b.drift && id in b.gap && v[id].totals == Plus(s[id].totals, b.drift[id]))
  }

  /** The first batch shows the first look at the counters and keeps the second. */
  function Introduced(b: Ledger, r: Reading): Ledger {
    var d := Minus(r.first, r.second);
    b.(drift := b.drift[r.id := d], gap := b.gap[r.id := d], later := b.later - {r.id})
  }

  /** Later announcements keep the first look and show the second. */
  function Announced(b: Ledger, r: Reading): Ledger {
    var d := Minus(r.second, r.first);
    b.(drift := b.drift[r.id := d], gap := b.gap[r.id := d], later := b.later + {r.id})
  }

  /** The ledger after an observation: a counter that went back is not sent, so
      the client stays ahead by that much. */
  function See(s: Snapshots, b: Ledger, r: Reading): Ledger {
    if r.id !in s then Announced(b, r)
    else
      var d := Minus(r.first, s[r.id].totals);
      if (d.up < 0 || d.down < 0) && r.id in b.drift then b.(drift := b.drift[r.id := Minus(b.drift[r.id], d)]) else b
  }

  function SeeAll(s: Snapshots, b: Ledger, active: seq<Reading>): Ledger {
    if active == [] then b
    else
      var n := |active| - 1;
      See(ObserveAll(s, active[..n]).snapshots, SeeAll(s, b, active[..n]), active[n])
  }

  function Hear(s: Snapshots, b: Ledger, n: Notice): Ledger {
    match n
    case Opened(r) => if r.id in s then b else Announced(b, r)
    case Left(id, _, _) => b.(early := b.early - {id})
    case Unknown => b
  }

  lemma {:induction false} FoldConcat(v: View, a: seq<Event>, b: seq<Event>)
    ensures Fold(v, a + b) == Fold(Fold(v, a), b)
  {
    if b == [] {
      assert a + b == a;
    } else {
      var n := |b| - 1;
      FoldConcat(v, a, b[..n]);
      assert (a + b)[..|a + b| - 1] == a + b[..n];
    }
  }

  lemma FoldSingle(v: View, e: Event)
    ensures Fold(v, [e]) == FoldOne(v, e)
  {
    assert [e][..0] == [];
    assert Fold(v, []) == v;
  }

  lemma AnnounceAgrees(v: View, s: Snapshots, b: Ledger, r: Reading)
    requires Agree(v, s, b) && r.id !in s
    ensures var c := Announce(s, r); Agree(Fold(v, c.events), c.snapshots, Announced(b, r))
  {
    var c := Announce(s, r);
    FoldSingle(v, c.events[0]);
    var w := Fold(v, c.events);
    assert Open(w) == Open(v) + {r.id};
    forall id | id in Open(w) ensures w[id].totals == Plus(c.snapshots[id].totals, Announced(b, r).drift[id]) {
      if id != r.id { assert id in Open(v); }
    }
  }

  lemma ObserveAgrees(v: View, s: Snapshots, b: Ledger, r: Reading)
    requires Agree(v, s, b)
    ensures var c := Observe(s, r); Agree(Fold(v, c.events), c.snapshots, See(s, b, r))
  {
    if r.id !in s {
      AnnounceAgrees(v, s, b, r);
    } else {
      var c := Observe(s, r);
      if c.events != [] { FoldSingle(v, c.events[0]); }
      var w := Fold(v, c.events);
      assert c.snapshots.Keys == s.Keys;
      assert Open(w) == Open(v);
      forall id | id in Open(w)
        ensures id in See(s, b, r).drift && w[id].totals == Plus(c.snapshots[id].totals, See(s, b, r).drift[id])
      {
        assert id in Open(v);
      }
    }
  }

  lemma {:induction false} ObserveAllAgrees(v: View, s: Snapshots, b: Ledger, active: seq<Reading>)
    requires Agree(v, s, b)
    ensures var c := ObserveAll(s, active); Agree(Fold(v, c.events), c.snapshots, SeeAll(s, b, active))
    ensures SeeAll(s, b, active).early == b.early
  {
    if active != [] {
      var n := |active| - 1;
      ObserveAllAgrees(v, s, b, active[..n]);
      var before := ObserveAll(s, active[..n]);
      ObserveAgrees(Fold(v, before.events), before.snapshots, SeeAll(s, b, active[..n]), active[n]);
      FoldConcat(v, before.events, Observe(before.snapshots, active[n]).events);
    }
  }

  lemma {:induction false} ObserveAllKeys(s: Snapshots, active: seq<Reading>)
    ensures ObserveAll(s, active).snapshots.Keys == s.Keys + Ids(active)
  {
    if active != [] {
      var n := |active| - 1;
      ObserveAllKeys(s, active[..n]);
    }
  }

  lemma ReactAgrees(v: View, s: Snapshots, b: Ledger, n: Notice)
    requires Agree(v, s, b) && (n.Left? ==> n.at != 0)
    ensures var c := React(s, n); Agree(Fold(v, c.events), c.snapshots, Hear(s, b, n))
  {
    match n
    case Opened(r) => if r.id !in s { AnnounceAgrees(v, s, b, r); }
    case Left(id, at, final) =>
      FoldSingle(v, Closed(id, at, final));
      CloseOne(v, Closed(id, at, final));
    case Unknown =>
  }

  lemma CloseOne(v: View, e: Event)
    requires e.Closed? && e.at != 0
    ensures Open(FoldOne(v, e)) == Open(v) - {e.id}
    ensures forall id :: id in Open(FoldOne(v, e)) ==> FoldOne(v, e)[id] == v[id]
  {
  }

  lemma {:induction false} FoldCloses(v: View, events: seq<Event>)
    requires forall i :: 0 <= i < |events| ==> events[i].Closed? && events[i].at != 0
    ensures Open(Fold(v, events)) == Open(v) - EventIds(events)
    ensures forall id :: id in Open(Fold(v, events)) ==> Fold(v, events)[id] == v[id]
  {
    if events != [] {
      var n := |events| - 1;
      FoldCloses(v, events[..n]);
      CloseOne(Fold(v, events[..n]), events[n]);
    }
  }

  // ---------------------------------------------------------------------
  // The periodic update
  // ---------------------------------------------------------------------

  /** What a periodic update does: every active connection is observed, and the
      snapshots of connections no longer active are dropped and closed. */
  predicate TicksWith(s: Snapshots, active: seq<Reading>, closing: seq<Event>, t: Snapshots, events: seq<Event>) {
    var c := ObserveAll(s, active);
    && events == c.events + closing && Closes(closing, c.snapshots.Keys - Ids(active))
    && t == c.snapshots - (c.snapshots.Keys - Ids(active))
  }

  function TickLedger(s: Snapshots, b: Ledger, active: seq<Reading>): Ledger {
    var seen := SeeAll(s, b, active);
    seen.(early := seen.early * Ids(active))
  }

  /** A periodic update keeps the two sides in agreement. */
  lemma TickAgrees(v: View, s: Snapshots, b: Ledger, active: seq<Reading>, closing: seq<Event>, t: Snapshots,
                   events: seq<Event>)
    requires Agree(v, s, b) && TicksWith(s, active, closing, t, events)
    ensures Agree(Fold(v, events), t, TickLedger(s, b, active)) && t.Keys == Ids(active)
  {
    var c := ObserveAll(s, active);
    ObserveAllAgrees(v, s, b, active);
    ObserveAllKeys(s, active);
    FoldConcat(v, c.events, closing);
    ClosingAgrees(Fold(v, c.events), c.snapshots, SeeAll(s, b, active), closing, t, Ids(active));
  }

  lemma ClosingAgrees(v: View, s: Snapshots, b: Ledger, closing: seq<Event>, t: Snapshots, ids: set<Id>)
    requires Agree(v, s, b) && ids <= s.Keys && Closes(closing, s.Keys - ids) && t == s - (s.Keys - ids)
    ensures Agree(Fold(v, closing), t, b.(early := b.early * ids)) && t.Keys == ids
  {
    FoldCloses(v, closing);
    var w := Fold(v, closing);
    assert t.Keys == ids;
    forall id | id in Open(w) ensures id in b.drift && id in b.gap && w[id].totals == Plus(t[id].totals, b.drift[id]) {
      assert id in Open(v) && id in ids;
    }
  }

  // ---------------------------------------------------------------------
  // The initial batch
  // ---------------------------------------------------------------------

  datatype ClosedConnection = ClosedConnection(id: Id, totals: Totals, at: int)

  function InitialOpen(active: seq<Reading>): Change {
    if active == [] then Change(map[], [])
    else
      var before := InitialOpen(active[..|active| - 1]);
      var r := active[|active| - 1];
      Change(before.snapshots[r.id := Snapshot(r.second, false)],
             before.events + [New(r.id, Connection(r.first, ZERO, 0))])
  }

  function InitialClosed(closed: seq<ClosedConnection>): seq<Event> {
    if closed == [] then []
    else
      var c := closed[|closed| - 1];
      InitialClosed(closed[..|closed| - 1]) + [New(c.id, Connection(c.totals, ZERO, c.at))]
  }

  function Initial(active: seq<Reading>, closed: seq<ClosedConnection>): Change {
    var c := InitialOpen(active);
    Change(c.snapshots, c.events + InitialClosed(closed))
  }

  function ClosedSet(closed: seq<ClosedConnection>): set<Id> {
    if closed == [] then {} else ClosedSet(closed[..|closed| - 1]) + {closed[|closed| - 1].id}
  }

  function InitialBook(active: seq<Reading>): Ledger {
    if active == [] then Ledger({}, map[], map[], {})
    else Introduced(InitialBook(active[..|active| - 1]), active[|active| - 1])
  }

  /** The connections listed both as active and as closed. */
  function Overlap(active: seq<Reading>, closed: seq<ClosedConnection>): set<Id> { Ids(active) * ClosedSet(closed) }

  function InitialLedger(active: seq<Reading>, closed: seq<ClosedConnection>): Ledger {
    InitialBook(active).(early := Overlap(active, closed))
  }

  lemma NewAgrees(v: View, s: Snapshots, b: Ledger, r: Reading)
    requires Agree(v, s, b) && b.early == {}
    ensures Agree(FoldOne(v, New(r.id, Connection(r.first, ZERO, 0))), s[r.id := Snapshot(r.second, false)],
                  Introduced(b, r))
  {
    var w := FoldOne(v, New(r.id, Connection(r.first, ZERO, 0)));
    assert Open(w) == Open(v) + {r.id};
    forall id | id in Open(w) && id != r.id ensures w[id] == v[id] && id in b.drift { assert id in Open(v); }
  }

  lemma {:induction false} InitialOpenAgrees(active: seq<Reading>)
    ensures var c := InitialOpen(active);
            && Agree(Fold(map[], c.events), c.snapshots, InitialBook(active)) && c.snapshots.Keys == Ids(active)
            && InitialBook(active).early == {}
  {
    if active != [] {
      var n := |active| - 1;
      InitialOpenAgrees(active[..n]);
      var before := InitialOpen(active[..n]);
      var e := New(active[n].id, Connection(active[n].first, ZERO, 0));
      FoldConcat(map[], before.events, [e]);
      FoldSingle(Fold(map[], before.events), e);
      NewAgrees(Fold(map[], before.events), before.snapshots, InitialBook(active[..n]), active[n]);
    }
  }

  lemma {:induction false} FoldInitialClosed(v: View, closed: seq<ClosedConnection>)
    requires forall i :: 0 <= i < |closed| ==> closed[i].at != 0
    ensures var w := Fold(v, InitialClosed(closed));
            Open(w) == Open(v) - ClosedSet(closed) && forall id :: id in Open(w) ==> w[id] == v[id]
  {
    if closed != [] {
      var n := |closed| - 1;
      FoldInitialClosed(v, closed[..n]);
      var e := New(closed[n].id, Connection(closed[n].totals, ZERO, closed[n].at));
      FoldConcat(v, InitialClosed(closed[..n]), [e]);
      FoldSingle(Fold(v, InitialClosed(closed[..n])), e);
      var u, w := Fold(v, InitialClosed(closed[..n])), Fold(v, InitialClosed(closed));
      assert Open(w) == Open(u) - {closed[n].id};
    }
  }

  /** After the initial batch the client agrees with the snapshots but for the
      connections that were listed as active and then as closed. */
  lemma InitialAgrees(active: seq<Reading>, closed: seq<ClosedConnection>)
    requires forall i :: 0 <= i < |closed| ==> closed[i].at != 0
    ensures var c := Initial(active, closed); Agree(Fold(map[], c.events), c.snapshots, InitialLedger(active, closed))
  {
    var c := InitialOpen(active);
    InitialOpenAgrees(active);
    FoldConcat(map[], c.events, InitialClosed(closed));
    FoldInitialClosed(Fold(map[], c.events), closed);
  }

  /** The open set matches the snapshots right after the initial batch exactly
      when no connection was listed both as active and as closed. */
  lemma InitialMatchesIff(active: seq<Reading>, closed: seq<ClosedConnection>)
    requires forall i :: 0 <= i < |closed| ==> closed[i].at != 0
    ensures var c := Initial(active, closed);
            Open(Fold(map[], c.events)) == c.snapshots.Keys <==> Overlap(active, closed) == {}
  {
    InitialAgrees(active, closed);
    var c := Initial(active, closed);
    var both := Overlap(active, closed);
    if both != {} {
      var id :| id in both;
      assert id in c.snapshots.Keys && id !in Open(Fold(map[], c.events));
    }
  }

  // ---------------------------------------------------------------------
  // Every interleaving of notices and periodic updates
  // ---------------------------------------------------------------------

  datatype Session = Session(view: View, snapshots: Snapshots)

  /** A batch of notices, a periodic update (with the closing events of the
      connections that went away), or the client dropping old closed entries. */
  datatype Label =
    | Notices(notices: seq<Notice>)
    | Tick(active: seq<Reading>, closing: seq<Event>)
    | Drop(kept: View)

  function ReactAll(s: Snapshots, notices: seq<Notice>): Change {
    if notices == [] then Change(s, [])
    else
      var before := ReactAll(s, notices[..|notices| - 1]);
      var last := React(before.snapshots, notices[|notices| - 1]);
      Change(last.snapshots, before.events + last.events)
  }

  function HearAll(s: Snapshots, b: Ledger, notices: seq<Notice>): Ledger {
    if notices == [] then b
    else
      var n := |notices| - 1;
      Hear(ReactAll(s, notices[..n]).snapshots, HearAll(s, b, notices[..n]), notices[n])
  }

  predicate CanStep(x: Session, l: Label) {
    match l
    case Notices(notices) => forall i :: 0 <= i < |notices| && notices[i].Left? ==> notices[i].at != 0
    case Tick(active, closing) => Closes(closing, ObserveAll(x.snapshots, active).snapshots.Keys - Ids(active))
    case Drop(kept) => Evicts(x.view, kept)
  }

  /** The events of a batch. */
  function Batch(s: Snapshots, l: Label): seq<Event> {
    match l
    case Notices(notices) => ReactAll(s, notices).events
    case Tick(active, closing) => ObserveAll(s, active).events + closing
    case Drop(_) => []
  }

  function StepSession(x: Session, l: Label): Session {
    match l
    case Notices(notices) => Session(Fold(x.view, Batch(x.snapshots, l)), ReactAll(x.snapshots, notices).snapshots)
    case Tick(active, _) =>
      var c := ObserveAll(x.snapshots, active);
      Session(Fold(x.view, Batch(x.snapshots, l)), c.snapshots - (c.snapshots.Keys - Ids(active)))
    case Drop(kept) => x.(view := kept)
  }

  function StepLedger(s: Snapshots, b: Ledger, l: Label): Ledger {
    match l
    case Notices(notices) => HearAll(s, b, notices)
    case Tick(active, _) => TickLedger(s, b, active)
    case Drop(_) => b
  }

  predicate Runs(x: Session, run: seq<Label>, y: Session)
    decreases |run|
  {
    if run == [] then x == y
    else CanStep(x, run[0]) && Runs(StepSession(x, run[0]), run[1..], y)
  }

  function RunLedger(x: Session, b: Ledger, run: seq<Label>): Ledger
    decreases |run|
  {
    if run == [] then b else RunLedger(StepSession(x, run[0]), StepLedger(x.snapshots, b, run[0]), run[1..])
  }

  lemma {:induction false} ReactAllAgrees(v: View, s: Snapshots, b: Ledger, notices: seq<Notice>)
    requires Agree(v, s, b)
    requires forall i :: 0 <= i < |notices| && notices[i].Left? ==> notices[i].at != 0
    ensures var c := ReactAll(s, notices); Agree(Fold(v, c.events), c.snapshots, HearAll(s, b, notices))
    ensures HearAll(s, b, notices).early <= b.early
  {
    if notices != [] {
      var n := |notices| - 1;
      ReactAllAgrees(v, s, b, notices[..n]);
      var before := ReactAll(s, notices[..n]);
      FoldConcat(v, before.events, React(before.snapshots, notices[n]).events);
      ReactAgrees(Fold(v, before.events), before.snapshots, HearAll(s, b, notices[..n]), notices[n]);
    }
  }

  lemma EvictAgrees(v: View, w: View, s: Snapshots, b: Ledger)
    requires Agree(v, s, b) && Evicts(v, w)
    ensures Agree(w, s, b)
  {
    assert Open(w) == Open(v);
  }

  /** Every batch keeps the two sides in agreement, with the ledger brought
      forward. */
  lemma StepAgrees(x: Session, b: Ledger, l: Label)
    requires Agree(x.view, x.snapshots, b) && CanStep(x, l)
    ensures var y := StepSession(x, l); Agree(y.view, y.snapshots, StepLedger(x.snapshots, b, l))
    ensures StepLedger(x.snapshots, b, l).early <= b.early
  {
    match l
    case Notices(notices) => ReactAllAgrees(x.view, x.snapshots, b, notices);
    case Tick(active, closing) =>
      ObserveAllAgrees(x.view, x.snapshots, b, active);
      TickAgrees(x.view, x.snapshots, b, active, closing, StepSession(x, l).snapshots, Batch(x.snapshots, l));
    case Drop(kept) => EvictAgrees(x.view, kept, x.snapshots, b);
  }

  lemma {:induction false} RunAgrees(x: Session, b: Ledger, run: seq<Label>, y: Session)
    requires Agree(x.view, x.snapshots, b) && Runs(x, run, y)
    ensures Agree(y.view, y.snapshots, RunLedger(x, b, run)) && RunLedger(x, b, run).early <= b.early
    decreases |run|
  {
    if run != [] {
      StepAgrees(x, b, run[0]);
      RunAgrees(StepSession(x, run[0]), StepLedger(x.snapshots, b, run[0]), run[1..], y);
    }
  }

  // ---------------------------------------------------------------------
  // From the initial batch on
  // ---------------------------------------------------------------------

  function Start(active: seq<Reading>, closed: seq<ClosedConnection>): Session {
    var c := Initial(active, closed);
    Session(Fold(map[], c.events), c.snapshots)
  }

  /** The session reached from the initial batch by a run of further batches. */
  predicate Reaches(active: seq<Reading>, closed: seq<ClosedConnection>, run: seq<Label>, y: Session) {
    && (forall i :: 0 <= i < |closed| ==> closed[i].at != 0)
    && Runs(Start(active, closed), run, y)
  }

  /** The ledger of the whole history. */
  function Book(active: seq<Reading>, closed: seq<ClosedConnection>, run: seq<Label>): Ledger {
    RunLedger(Start(active, closed), InitialLedger(active, closed), run)
  }

  lemma HistoryAgrees(active: seq<Reading>, closed: seq<ClosedConnection>, run: seq<Label>, y: Session)
    requires Reaches(active, closed, run, y)
    ensures Agree(y.view, y.snapshots, Book(active, closed, run))
    ensures Book(active, closed, run).early <= Overlap(active, closed)
  {
    InitialAgrees(active, closed);
    RunAgrees(Start(active, closed), InitialLedger(active, closed), run, y);
  }

  /** After every batch of every run the client shows as open exactly the
      snapshots, but for connections it was first told of as active and closed
      at once and that are still listed; without any such the sets are equal. */
  lemma OpenSetFollowsSnapshots(active: seq<Reading>, closed: seq<ClosedConnection>, run: seq<Label>, y: Session)
    requires Reaches(active, closed, run, y)
    ensures Open(y.view) == y.snapshots.Keys - Book(active, closed, run).early
    ensures Book(active, closed, run).early <= Overlap(active, closed) * y.snapshots.Keys
    ensures Open(y.view) == y.snapshots.Keys <==> Book(active, closed, run).early == {}
  {
    HistoryAgrees(active, closed, run, y);
    var early := Book(active, closed, run).early;
    if early != {} {
      var id :| id in early;
      assert id in y.snapshots.Keys && id !in Open(y.view);
    }
  }

  /** After a periodic update in any run the client's open connections are the
      manager's active ones, but for those the client still takes for closed. */
  lemma TickRestoresOpenSet(active: seq<Reading>, closed: seq<ClosedConnection>, run: seq<Label>, x: Session,
                            now: seq<Reading>, closing: seq<Event>)
    requires Reaches(active, closed, run, x) && CanStep(x, Tick(now, closing))
    ensures Open(StepSession(x, Tick(now, closing)).view) == Ids(now) - Book(active, closed, run).early
    ensures Ids(now) !! Overlap(active, closed) ==> Open(StepSession(x, Tick(now, closing)).view) == Ids(now)
  {
    HistoryAgrees(active, closed, run, x);
    var b := Book(active, closed, run);
    ObserveAllAgrees(x.view, x.snapshots, b, now);
    TickAgrees(x.view, x.snapshots, b, now, closing, StepSession(x, Tick(now, closing)).snapshots,
               Batch(x.snapshots, Tick(now, closing)));
  }

  // ---------------------------------------------------------------------
  // Updates
  // ---------------------------------------------------------------------

  lemma {:induction false} UpdatesOfTick(v: View, s: Snapshots, b: Ledger, active: seq<Reading>, i: nat)
    requires Agree(v, s, b)
    requires var events := ObserveAll(s, active).events; i < |events| && events[i].Update?
    ensures var events := ObserveAll(s, active).events;
            events[i].id in Open(Fold(v, events[..i])) <==> events[i].id !in b.early
  {
    var n := |active| - 1;
    var before := ObserveAll(s, active[..n]);
    var events := ObserveAll(s, active).events;
    if i < |before.events| {
      assert events[i] == before.events[i] && events[..i] == before.events[..i];
      UpdatesOfTick(v, s, b, active[..n], i);
    } else {
      ObserveAllAgrees(v, s, b, active[..n]);
      UpdateIsKnown(before.snapshots, active[n], i - |before.events|);
      assert events[..i] == before.events;
    }
  }

  /** Observing a connection sends an update only if it has a snapshot, and then
      nothing before it. */
  lemma UpdateIsKnown(s: Snapshots, r: Reading, i: nat)
    requires i < |Observe(s, r).events| && Observe(s, r).events[i].Update?
    ensures i == 0 && Observe(s, r).events[i].id == r.id && r.id in s
  {
  }

  lemma {:induction false} NoticesSendNoUpdates(s: Snapshots, notices: seq<Notice>)
    ensures forall e :: e in ReactAll(s, notices).events ==> !e.Update?
  {
    if notices != [] { NoticesSendNoUpdates(s, notices[..|notices| - 1]); }
  }

  /** In every batch of every run, an update names a connection that is open in
      the view folded up to that event, except exactly for the connections the
      client still takes for closed since the initial batch. */
  lemma UpdatesGoToOpenConnections(active: seq<Reading>, closed: seq<ClosedConnection>, run: seq<Label>, x: Session,
                                   l: Label, i: nat)
    requires Reaches(active, closed, run, x) && CanStep(x, l)
    requires i < |Batch(x.snapshots, l)| && Batch(x.snapshots, l)[i].Update?
    ensures var e := Batch(x.snapshots, l)[i];
            && (e.id in Open(Fold(x.view, Batch(x.snapshots, l)[..i])) <==> e.id !in Book(active, closed, run).early)
            && (e.id !in Overlap(active, closed) ==> e.id in Open(Fold(x.view, Batch(x.snapshots, l)[..i])))
  {
    HistoryAgrees(active, closed, run, x);
    if l.Notices? {
      NoticesSendNoUpdates(x.snapshots, l.notices);
      assert false;
    } else {
      var events := ObserveAll(x.snapshots, l.active).events;
      assert i < |events| && Batch(x.snapshots, l)[..i] == events[..i];
      UpdatesOfTick(x.view, x.snapshots, Book(active, closed, run), l.active, i);
    }
  }

  // ---------------------------------------------------------------------
  // Totals
  // ---------------------------------------------------------------------

  /** After every batch of every run the client's totals of an open connection
      are the snapshot's plus its drift, so the two are equal exactly when the
      drift is zero: what the announcement showed beyond what it kept, plus what
      the counters went back since. */
  lemma TotalsExactIff(active: seq<Reading>, closed: seq<ClosedConnection>, run: seq<Label>, y: Session, id: Id)
    requires Reaches(active, closed, run, y) && id in Open(y.view)
    ensures id in y.snapshots && id in Book(active, closed, run).drift
    ensures y.view[id].totals == Plus(y.snapshots[id].totals, Book(active, closed, run).drift[id])
    ensures y.view[id].totals == y.snapshots[id].totals <==> Book(active, closed, run).drift[id] == ZERO
  {
    HistoryAgrees(active, closed, run, y);
  }

  predicate AtMost(a: Totals, b: Totals) { a.up <= b.up && a.down <= b.down }

  /** No counter is below its snapshot. */
  predicate Rising(s: Snapshots, r: Reading) {
    r.id in s ==> AtMost(s[r.id].totals, r.first)
  }

  predicate RisingAll(s: Snapshots, active: seq<Reading>) {
    active != [] ==>
      var n := |active| - 1;
      RisingAll(s, active[..n]) && Rising(ObserveAll(s, active[..n]).snapshots, active[n])
  }

  /** Counters never decrease in the run. */
  predicate RisingRun(x: Session, run: seq<Label>)
    decreases |run|
  {
    run != [] ==>
      && (run[0].Tick? ==> RisingAll(x.snapshots, run[0].active))
      && RisingRun(StepSession(x, run[0]), run[1..])
  }

  lemma {:induction false} RisingKeepsGap(s: Snapshots, b: Ledger, active: seq<Reading>)
    requires b.drift == b.gap && RisingAll(s, active)
    ensures SeeAll(s, b, active).drift == SeeAll(s, b, active).gap
  {
    if active != [] { RisingKeepsGap(s, b, active[..|active| - 1]); }
  }

  lemma {:induction false} HearingKeepsGap(s: Snapshots, b: Ledger, notices: seq<Notice>)
    requires b.drift == b.gap
    ensures HearAll(s, b, notices).drift == HearAll(s, b, notices).gap
  {
    if notices != [] { HearingKeepsGap(s, b, notices[..|notices| - 1]); }
  }

  lemma {:induction false} RisingRunKeepsGap(x: Session, b: Ledger, run: seq<Label>)
    requires b.drift == b.gap && RisingRun(x, run)
    ensures RunLedger(x, b, run).drift == RunLedger(x, b, run).gap
    decreases |run|
  {
    if run != [] {
      match run[0] {
        case Notices(notices) => HearingKeepsGap(x.snapshots, b, notices);
        case Tick(now, _) => RisingKeepsGap(x.snapshots, b, now);
        case Drop(_) =>
      }
      RisingRunKeepsGap(StepSession(x, run[0]), StepLedger(x.snapshots, b, run[0]), run[1..]);
    }
  }

  lemma {:induction false} InitialGap(active: seq<Reading>)
    ensures InitialBook(active).drift == InitialBook(active).gap
  {
    if active != [] { InitialGap(active[..|active| - 1]); }
  }

  /** With counters that never decrease, the totals of an open connection equal
      the snapshot's exactly when the two looks of its last announcement, the
      one shown and the one kept, agree. */
  lemma RisingTotalsExactIff(active: seq<Reading>, closed: seq<ClosedConnection>, run: seq<Label>, y: Session, id: Id)
    requires Reaches(active, closed, run, y) && RisingRun(Start(active, closed), run) && id in Open(y.view)
    ensures id in y.snapshots && id in Book(active, closed, run).gap
    ensures y.view[id].totals == y.snapshots[id].totals <==> Book(active, closed, run).gap[id] == ZERO
  {
    TotalsExactIff(active, closed, run, y, id);
    InitialGap(active);
    RisingRunKeepsGap(Start(active, closed), InitialLedger(active, closed), run);
  }

  /** An announcement whose two looks agree. */
  predicate Still(s: Snapshots, r: Reading) { r.id !in s ==> r.first == r.second }

  predicate StillAll(s: Snapshots, active: seq<Reading>) {
    active != [] ==>
      var n := |active| - 1;
      StillAll(s, active[..n]) && Still(ObserveAll(s, active[..n]).snapshots, active[n])
  }

  predicate StillNotices(s: Snapshots, notices: seq<Notice>) {
    notices != [] ==>
      var n := |notices| - 1;
      && StillNotices(s, notices[..n])
      && (notices[n].Opened? ==> Still(ReactAll(s, notices[..n]).snapshots, notices[n].reading))
  }

  /** Every announcement of the run reads the same counters twice. */
  predicate StillRun(x: Session, run: seq<Label>)
    decreases |run|
  {
    run != [] ==>
      && (run[0].Tick? ==> StillAll(x.snapshots, run[0].active))
      && (run[0].Notices? ==> StillNotices(x.snapshots, run[0].notices))
      && StillRun(StepSession(x, run[0]), run[1..])
  }

  predicate NoGap(b: Ledger) { forall id :: id in b.gap ==> b.gap[id] == ZERO }

  lemma {:induction false} StillTick(s: Snapshots, b: Ledger, active: seq<Reading>)
    requires NoGap(b) && StillAll(s, active)
    ensures NoGap(SeeAll(s, b, active))
  {
    if active != [] { StillTick(s, b, active[..|active| - 1]); }
  }

  lemma {:induction false} StillHearing(s: Snapshots, b: Ledger, notices: seq<Notice>)
    requires NoGap(b) && StillNotices(s, notices)
    ensures NoGap(HearAll(s, b, notices))
  {
    if notices != [] { StillHearing(s, b, notices[..|notices| - 1]); }
  }

  lemma {:induction false} StillRunHasNoGap(x: Session, b: Ledger, run: seq<Label>)
    requires NoGap(b) && StillRun(x, run)
    ensures NoGap(RunLedger(x, b, run))
    decreases |run|
  {
    if run != [] {
      match run[0] {
        case Notices(notices) => StillHearing(x.snapshots, b, notices);
        case Tick(now, _) => StillTick(x.snapshots, b, now);
        case Drop(_) =>
      }
      StillRunHasNoGap(StepSession(x, run[0]), StepLedger(x.snapshots, b, run[0]), run[1..]);
    }
  }

  lemma {:induction false} StillStart(active: seq<Reading>)
    requires forall i :: 0 <= i < |active| ==> active[i].first == active[i].second
    ensures NoGap(InitialBook(active))
  {
    if active != [] { StillStart(active[..|active| - 1]); }
  }

  /** When every announcement reads the same counters twice and no counter goes
      back, the client's totals equal the snapshots after every batch. */
  lemma SteadyRunsHaveExactTotals(active: seq<Reading>, closed: seq<ClosedConnection>, run: seq<Label>, y: Session)
    requires Reaches(active, closed, run, y)
    requires forall i :: 0 <= i < |active| ==> active[i].first == active[i].second
    requires StillRun(Start(active, closed), run) && RisingRun(Start(active, closed), run)
    ensures forall id :: id in Open(y.view) ==> id in y.snapshots && y.view[id].totals == y.snapshots[id].totals
  {
    StillStart(active);
    StillRunHasNoGap(Start(active, closed), InitialLedger(active, closed), run);
    forall id | id in Open(y.view) ensures id in y.snapshots && y.view[id].totals == y.snapshots[id].totals {
      RisingTotalsExactIff(active, closed, run, y, id);
    }
  }

  // ---------------------------------------------------------------------
  // Which way the totals drift
  // ---------------------------------------------------------------------

  /** Of two looks the second is no lower. */
  predicate InOrder(r: Reading) { AtMost(r.first, r.second) }

  predicate AllInOrder(rs: seq<Reading>) { forall i :: 0 <= i < |rs| ==> InOrder(rs[i]) }

  predicate NoticesInOrder(notices: seq<Notice>) {
    forall i :: 0 <= i < |notices| && notices[i].Opened? ==> InOrder(notices[i].reading)
  }

  predicate RunInOrder(run: seq<Label>) {
    forall i :: 0 <= i < |run| ==>
      && (run[i].Tick? ==> AllInOrder(run[i].active))
      && (run[i].Notices? ==> NoticesInOrder(run[i].notices))
  }

  /** Connections last announced in the first batch have no gap above zero,
      those announced later none below. */
  predicate Signed(b: Ledger) {
    forall id :: id in b.gap ==> if id in b.later then AtMost(ZERO, b.gap[id]) else AtMost(b.gap[id], ZERO)
  }

  lemma {:induction false} SignedTick(s: Snapshots, b: Ledger, active: seq<Reading>)
    requires Signed(b) && AllInOrder(active)
    ensures Signed(SeeAll(s, b, active))
  {
    if active != [] {
      var n := |active| - 1;
      SignedTick(s, b, active[..n]);
      assert InOrder(active[n]);
    }
  }

  lemma {:induction false} SignedHearing(s: Snapshots, b: Ledger, notices: seq<Notice>)
    requires Signed(b) && NoticesInOrder(notices)
    ensures Signed(HearAll(s, b, notices))
  {
    if notices != [] {
      var n := |notices| - 1;
      SignedHearing(s, b, notices[..n]);
      assert notices[n].Opened? ==> InOrder(notices[n].reading);
    }
  }

  lemma {:induction false} SignedRun(x: Session, b: Ledger, run: seq<Label>)
    requires Signed(b) && RunInOrder(run)
    ensures Signed(RunLedger(x, b, run))
    decreases |run|
  {
    if run != [] {
      match run[0] {
        case Notices(notices) => SignedHearing(x.snapshots, b, notices);
        case Tick(now, _) => SignedTick(x.snapshots, b, now);
        case Drop(_) =>
      }
      SignedRun(StepSession(x, run[0]), StepLedger(x.snapshots, b, run[0]), run[1..]);
    }
  }

  lemma {:induction false} SignedStart(active: seq<Reading>)
    requires AllInOrder(active)
    ensures Signed(InitialBook(active))
  {
    if active != [] {
      var n := |active| - 1;
      SignedStart(active[..n]);
      assert InOrder(active[n]);
    }
  }

  /** With counters that never decrease, the client's totals of a connection
      last announced in the first batch are never above the snapshot's, and
      those of one announced later never below, after every batch. */
  lemma RisingTotalsLean(active: seq<Reading>, closed: seq<ClosedConnection>, run: seq<Label>, y: Session, id: Id)
    requires Reaches(active, closed, run, y) && RisingRun(Start(active, closed), run) && id in Open(y.view)
    requires AllInOrder(active) && RunInOrder(run)
    ensures id in y.snapshots
    ensures if id in Book(active, closed, run).later then AtMost(y.snapshots[id].totals, y.view[id].totals)
            else AtMost(y.view[id].totals, y.snapshots[id].totals)
  {
    TotalsExactIff(active, closed, run, y, id);
    InitialGap(active);
    RisingRunKeepsGap(Start(active, closed), InitialLedger(active, closed), run);
    SignedStart(active);
    SignedRun(Start(active, closed), InitialLedger(active, closed), run);
  }

  /** A connection whose counter goes from three to five between the two looks
      of the first batch: as long as it stays listed and its counters rise, the
      client is two bytes behind after every batch. */
  lemma MovingCountersBreakTotals(run: seq<Label>, y: Session)
    requires Reaches([Reading(0, Totals(3, 0), Totals(5, 0))], [], run, y)
    requires RisingRun(Start([Reading(0, Totals(3, 0), Totals(5, 0))], []), run) && 0 in Open(y.view)
    requires forall i :: 0 <= i < |run| ==> run[i].Tick? && 0 in Ids(run[i].active)
    ensures 0 in y.snapshots && Plus(y.view[0].totals, Totals(2, 0)) == y.snapshots[0].totals
  {
    var active := [Reading(0, Totals(3, 0), Totals(5, 0))];
    InitialGap(active);
    RisingRunKeepsGap(Start(active, []), InitialLedger(active, []), run);
    TotalsExactIff(active, [], run, y, 0);
    assert active[..0] == [];
    InitialOpenAgrees(active);
    assert InitialClosed([]) == [] && Initial(active, []).events == InitialOpen(active).events;
    GapStays(Start(active, []), InitialLedger(active, []), run, 0);
  }

  /** The same counters read by the notice of a new connection: the client is
      two bytes ahead. */
  lemma MovingNoticesBreakTotals(run: seq<Label>, y: Session)
    requires Reaches([], [], [Notices([Opened(Reading(0, Totals(3, 0), Totals(5, 0)))])] + run, y)
    requires RisingRun(Start([], []), [Notices([Opened(Reading(0, Totals(3, 0), Totals(5, 0)))])] + run)
    requires 0 in Open(y.view) && forall i :: 0 <= i < |run| ==> run[i].Tick? && 0 in Ids(run[i].active)
    ensures 0 in y.snapshots && y.view[0].totals == Plus(y.snapshots[0].totals, Totals(2, 0))
  {
    var r := Reading(0, Totals(3, 0), Totals(5, 0));
    var first := Notices([Opened(r)]);
    var whole := [first] + run;
    var x := Start([], []);
    var b := InitialLedger([], []);
    assert whole[0] == first && whole[1..] == run;
    RisingRunKeepsGap(x, b, whole);
    TotalsExactIff([], [], whole, y, 0);
    assert [Opened(r)][..0] == [] && ReactAll(x.snapshots, []) == Change(x.snapshots, []);
    assert HearAll(x.snapshots, b, [Opened(r)]) == Announced(b, r);
    assert 0 in StepSession(x, first).snapshots;
    GapStays(StepSession(x, first), StepLedger(x.snapshots, b, first), run, 0);
  }

  /** The gap of a connection changes only when it is announced again. */
  lemma {:induction false} GapStays(x: Session, b: Ledger, run: seq<Label>, id: Id)
    requires id in x.snapshots && id in b.gap
    requires forall i :: 0 <= i < |run| ==> run[i].Tick? && id in Ids(run[i].active)
    ensures id in RunLedger(x, b, run).gap && RunLedger(x, b, run).gap[id] == b.gap[id]
    decreases |run|
  {
    if run != [] {
      SeenKeepsGap(x.snapshots, b, run[0].active, id);
      ObserveAllKeys(x.snapshots, run[0].active);
      GapStays(StepSession(x, run[0]), StepLedger(x.snapshots, b, run[0]), run[1..], id);
    }
  }

  lemma {:induction false} SeenKeepsGap(s: Snapshots, b: Ledger, active: seq<Reading>, id: Id)
    requires id in s && id in b.gap
    ensures id in SeeAll(s, b, active).gap && SeeAll(s, b, active).gap[id] == b.gap[id]
  {
    if active != [] {
      SeenKeepsGap(s, b, active[..|active| - 1], id);
      ObserveAllKeys(s, active[..|active| - 1]);
    }
  }
}

/** What a client learns about traffic, told from the counters that were read and
    the events that were sent, not from what the server remembers. */
module ConnectionTraffic {
  import opened Optional
  import opened ConnectionStream

  // ---------------------------------------------------------------------
  // The counters last read
  // ---------------------------------------------------------------------

  /** The counters last read for a connection in a periodic update. */
  function LastRead(active: seq<Reading>, id: Id): Totals
    requires id in Ids(active)
  {
    var n := |active| - 1;
    if active[n].id == id then active[n].first else LastRead(active[..n], id)
  }

  lemma {:induction false} SnapshotsAreLastRead(s: Snapshots, active: seq<Reading>, id: Id)
    requires id in Ids(active)
    ensures id in ObserveAll(s, active).snapshots
    ensures ObserveAll(s, active).snapshots[id].totals == LastRead(active, id)
  {
    var n := |active| - 1;
    if active[n].id != id { SnapshotsAreLastRead(s, active[..n], id); }
  }

  lemma AllAreLastRead(s: Snapshots, active: seq<Reading>)
    ensures var t := ObserveAll(s, active).snapshots;
            forall id :: id in Ids(active) ==> id in t && t[id].totals == LastRead(active, id)
  {
    var t := ObserveAll(s, active).snapshots;
    forall id | id in Ids(active) ensures id in t && t[id].totals == LastRead(active, id) {
      SnapshotsAreLastRead(s, active, id);
    }
  }

  lemma {:induction false} UnreadStays(s: Snapshots, active: seq<Reading>, id: Id)
    requires id !in Ids(active)
    ensures id in ObserveAll(s, active).snapshots <==> id in s
    ensures id in s ==> ObserveAll(s, active).snapshots[id] == s[id]
  {
    if active != [] { UnreadStays(s, active[..|active| - 1], id); }
  }

  /** After a periodic update in any run, what the client shows of an open
      connection is the counters last read for it plus the drift of its ledger. */
  lemma TickShowsCounters(active: seq<Reading>, closed: seq<ClosedConnection>, run: seq<Label>, y: Session,
                          now: seq<Reading>, closing: seq<Event>, id: Id)
    requires Reaches(active, closed, run + [Tick(now, closing)], y) && id in Open(y.view)
    ensures id in Ids(now) && id in y.snapshots && y.snapshots[id].totals == LastRead(now, id)
    ensures var b := Book(active, closed, run + [Tick(now, closing)]);
            id in b.drift && y.view[id].totals == Plus(LastRead(now, id), b.drift[id])
  {
    var l := Tick(now, closing);
    var x := LastSession(Start(active, closed), run, l, y);
    TotalsExactIff(active, closed, run + [l], y, id);
    ObserveAllKeys(x.snapshots, now);
    SnapshotsAreLastRead(x.snapshots, now, id);
  }

  /** The session before the last label of a run. */
  lemma {:induction false} LastSession(x: Session, run: seq<Label>, l: Label, y: Session) returns (z: Session)
    requires Runs(x, run + [l], y)
    ensures Runs(x, run, z) && CanStep(z, l) && y == StepSession(z, l)
    decreases |run|
  {
    if run == [] {
      z := x;
      assert [l][1..] == [];
    } else {
      assert (run + [l])[1..] == run[1..] + [l];
      z := LastSession(StepSession(x, run[0]), run[1..], l, y);
    }
  }

  /** In a run in which every announcement reads the same counters twice and no
      counter goes back, the client's totals after a periodic update are the
      manager's counters. */
  lemma SteadyTicksShowCounters(active: seq<Reading>, closed: seq<ClosedConnection>, run: seq<Label>, y: Session,
                                now: seq<Reading>, closing: seq<Event>, id: Id)
    requires Reaches(active, closed, run + [Tick(now, closing)], y) && id in Open(y.view)
    requires forall i :: 0 <= i < |active| ==> active[i].first == active[i].second
    requires var start, all := Start(active, closed), run + [Tick(now, closing)];
             StillRun(start, all) && RisingRun(start, all)
    ensures id in Ids(now) && y.view[id].totals == LastRead(now, id)
  {
    TickShowsCounters(active, closed, run, y, now, closing, id);
    SteadyRunsHaveExactTotals(active, closed, run + [Tick(now, closing)], y);
  }

  // ---------------------------------------------------------------------
  // The events sent
  // ---------------------------------------------------------------------

  /** The last event about a connection. */
  function LastOn(events: seq<Event>, id: Id): Option<Event> {
    if events == [] then None
    else if events[|events| - 1].id == id then Some(events[|events| - 1])
    else LastOn(events[..|events| - 1], id)
  }

  /** The last thing sent about the connection is that it had traffic. */
  predicate Busy(events: seq<Event>, id: Id) {
    var e := LastOn(events, id);
    e.Some? && e.value.Update? && e.value.delta != ZERO
  }

  /** Everything sent, from the initial batch on. */
  function Sent(x: Session, run: seq<Label>): seq<Event>
    decreases |run|
  {
    if run == [] then [] else Batch(x.snapshots, run[0]) + Sent(StepSession(x, run[0]), run[1..])
  }

  lemma {:induction false} LastOnConcat(a: seq<Event>, b: seq<Event>, id: Id)
    ensures LastOn(a + b, id) == if LastOn(b, id).Some? then LastOn(b, id) else LastOn(a, id)
  {
    if b == [] {
      assert a + b == a;
    } else {
      var n := |b| - 1;
      LastOnConcat(a, b[..n], id);
      assert (a + b)[..|a + b| - 1] == a + b[..n];
    }
  }

  lemma LastOnOne(a: seq<Event>, e: Event, id: Id)
    ensures LastOn(a + [e], id) == if e.id == id then Some(e) else LastOn(a, id)
  {
    assert (a + [e])[..|a|] == a;
  }

  /** The server remembers exactly which connections it last reported as busy. */
  ghost predicate Remembers(s: Snapshots, sent: seq<Event>) {
    forall id :: id in s ==> (s[id].hadTraffic <==> Busy(sent, id))
  }

  lemma ObserveRemembers(s: Snapshots, sent: seq<Event>, r: Reading)
    requires Remembers(s, sent)
    ensures var c := Observe(s, r); Remembers(c.snapshots, sent + c.events)
  {
    var c := Observe(s, r);
    if c.events == [] {
      assert sent + c.events == sent;
    } else {
      assert c.events == [c.events[0]] && c.events[0].id == r.id;
      forall id | id in c.snapshots ensures c.snapshots[id].hadTraffic <==> Busy(sent + c.events, id) {
        LastOnOne(sent, c.events[0], id);
      }
    }
  }

  lemma {:induction false} ObserveAllRemembers(s: Snapshots, sent: seq<Event>, active: seq<Reading>)
    requires Remembers(s, sent)
    ensures var c := ObserveAll(s, active); Remembers(c.snapshots, sent + c.events)
  {
    if active == [] {
      assert sent + [] == sent;
    } else {
      var n := |active| - 1;
      var before := ObserveAll(s, active[..n]);
      ObserveAllRemembers(s, sent, active[..n]);
      ObserveRemembers(before.snapshots, sent + before.events, active[n]);
      var more := Observe(before.snapshots, active[n]).events;
      assert sent + (before.events + more) == sent + before.events + more;
    }
  }

  lemma ReactRemembers(s: Snapshots, sent: seq<Event>, n: Notice)
    requires Remembers(s, sent)
    ensures var c := React(s, n); Remembers(c.snapshots, sent + c.events)
  {
    var c := React(s, n);
    if c.events == [] {
      assert sent + c.events == sent;
    } else {
      assert c.events == [c.events[0]];
      forall id | id in c.snapshots ensures c.snapshots[id].hadTraffic <==> Busy(sent + c.events, id) {
        LastOnOne(sent, c.events[0], id);
      }
    }
  }

  lemma {:induction false} ReactAllRemembers(s: Snapshots, sent: seq<Event>, notices: seq<Notice>)
    requires Remembers(s, sent)
    ensures var c := ReactAll(s, notices); Remembers(c.snapshots, sent + c.events)
  {
    if notices == [] {
      assert sent + [] == sent;
    } else {
      var n := |notices| - 1;
      var before := ReactAll(s, notices[..n]);
      ReactAllRemembers(s, sent, notices[..n]);
      ReactRemembers(before.snapshots, sent + before.events, notices[n]);
      var more := React(before.snapshots, notices[n]).events;
      assert sent + (before.events + more) == sent + before.events + more;
    }
  }

  lemma {:induction false} NotMentioned(events: seq<Event>, id: Id)
    requires id !in EventIds(events)
    ensures LastOn(events, id) == None
  {
    if events != [] { NotMentioned(events[..|events| - 1], id); }
  }

  lemma TickRemembers(s: Snapshots, sent: seq<Event>, active: seq<Reading>, closing: seq<Event>, t: Snapshots)
    requires Remembers(s, sent) && TicksWith(s, active, closing, t, ObserveAll(s, active).events + closing)
    ensures Remembers(t, sent + (ObserveAll(s, active).events + closing))
  {
    var c := ObserveAll(s, active);
    ObserveAllRemembers(s, sent, active);
    assert sent + (c.events + closing) == sent + c.events + closing;
    forall id | id in t ensures t[id].hadTraffic <==> Busy(sent + c.events + closing, id) {
      NotMentioned(closing, id);
      LastOnConcat(sent + c.events, closing, id);
    }
  }

  lemma StepRemembers(x: Session, sent: seq<Event>, l: Label)
    requires Remembers(x.snapshots, sent) && CanStep(x, l)
    ensures Remembers(StepSession(x, l).snapshots, sent + Batch(x.snapshots, l))
  {
    match l
    case Notices(notices) => ReactAllRemembers(x.snapshots, sent, notices);
    case Tick(active, closing) =>
      TickRemembers(x.snapshots, sent, active, closing, StepSession(x, l).snapshots);
    case Drop(_) => assert sent + [] == sent;
  }

  lemma {:induction false} RunRemembers(x: Session, sent: seq<Event>, run: seq<Label>, y: Session)
    requires Remembers(x.snapshots, sent) && Runs(x, run, y)
    ensures Remembers(y.snapshots, sent + Sent(x, run))
    decreases |run|
  {
    if run == [] {
      assert sent + [] == sent;
    } else {
      var batch := Batch(x.snapshots, run[0]);
      StepRemembers(x, sent, run[0]);
      RunRemembers(StepSession(x, run[0]), sent + batch, run[1..], y);
      assert sent + (batch + Sent(StepSession(x, run[0]), run[1..]))
          == sent + batch + Sent(StepSession(x, run[0]), run[1..]);
    }
  }

  lemma {:induction false} LastOnIsSent(events: seq<Event>, id: Id)
    ensures LastOn(events, id).Some? ==> LastOn(events, id).value in events
  {
    if events != [] { LastOnIsSent(events[..|events| - 1], id); }
  }

  lemma {:induction false} InitialOpenIsQuiet(active: seq<Reading>)
    ensures forall id :: id in InitialOpen(active).snapshots ==> !InitialOpen(active).snapshots[id].hadTraffic
    ensures forall e :: e in InitialOpen(active).events ==> e.New?
  {
    if active != [] { InitialOpenIsQuiet(active[..|active| - 1]); }
  }

  lemma {:induction false} InitialClosedIsQuiet(closed: seq<ClosedConnection>)
    ensures forall e :: e in InitialClosed(closed) ==> e.New?
  {
    if closed != [] { InitialClosedIsQuiet(closed[..|closed| - 1]); }
  }

  lemma InitialRemembers(active: seq<Reading>, closed: seq<ClosedConnection>)
    ensures var c := Initial(active, closed); Remembers(c.snapshots, c.events)
  {
    var c := Initial(active, closed);
    InitialOpenIsQuiet(active);
    InitialClosedIsQuiet(closed);
    forall id | id in c.snapshots ensures !Busy(c.events, id) { LastOnIsSent(c.events, id); }
  }

  /** Everything a client was sent by a run. */
  function History(active: seq<Reading>, closed: seq<ClosedConnection>, run: seq<Label>): seq<Event> {
    Initial(active, closed).events + Sent(Start(active, closed), run)
  }

  /** The counters went up, and neither went back. */
  predicate Moved(was: Totals, now: Totals) { AtMost(was, now) && was != now }

  /** The counters known of a connection when reading k of an update is taken. */
  function Known(s: Snapshots, active: seq<Reading>, k: nat): Option<Totals>
    requires k < |active|
  {
    var id := active[k].id;
    if id in Ids(active[..k]) then Some(LastRead(active[..k], id))
    else if id in s then Some(s[id].totals)
    else None
  }

  /** What one reading makes the server send: a connection it does not know is
      announced; an update with the difference is sent when the counters moved; an
      update of zero when they did not, but the last thing sent was that they
      had; and nothing otherwise. */
  function Sends(r: Reading, known: Option<Totals>, busy: bool): seq<Event> {
    if known.None? then [New(r.id, Connection(r.second, ZERO, 0))]
    else if Moved(known.value, r.first) then [Update(r.id, Minus(r.first, known.value))]
    else if busy then [Update(r.id, ZERO)]
    else []
  }

  lemma ObserveSends(s: Snapshots, r: Reading, known: Option<Totals>, busy: bool)
    requires if known.None? then r.id !in s else r.id in s && s[r.id] == Snapshot(known.value, busy)
    ensures Observe(s, r).events == Sends(r, known, busy)
  {
  }

  /** A periodic update in any run sends, reading by reading, exactly that. */
  lemma TickSends(active: seq<Reading>, closed: seq<ClosedConnection>, run: seq<Label>, x: Session,
                  now: seq<Reading>, k: nat)
    requires Reaches(active, closed, run, x) && k < |now|
    ensures var before := ObserveAll(x.snapshots, now[..k]).events;
            var busy := Busy(History(active, closed, run) + before, now[k].id);
            ObserveAll(x.snapshots, now[..k + 1]).events == before + Sends(now[k], Known(x.snapshots, now, k), busy)
  {
    var c := ObserveAll(x.snapshots, now[..k]);
    var sent := History(active, closed, run);
    InitialRemembers(active, closed);
    RunRemembers(Start(active, closed), Initial(active, closed).events, run, x);
    ObserveAllRemembers(x.snapshots, sent, now[..k]);
    assert now[..k + 1][..k] == now[..k];
    var id := now[k].id;
    if id in Ids(now[..k]) {
      SnapshotsAreLastRead(x.snapshots, now[..k], id);
    } else {
      UnreadStays(x.snapshots, now[..k], id);
    }
    ObserveSends(c.snapshots, now[k], Known(x.snapshots, now, k), Busy(sent + c.events, id));
  }

  // ---------------------------------------------------------------------
  // What the client makes of the events
  // ---------------------------------------------------------------------

  /** The connection an event carries whole. */
  function Carried(e: Event): Option<Connection> {
    match e
    case New(_, c) => Some(c)
    case Closed(_, at, Some(c)) => Some(Connection(c.totals, ZERO, at))
    case _ => None
  }

  /** The sum of the updates of a connection. */
  function Added(events: seq<Event>, id: Id): Totals {
    if events == [] then ZERO
    else
      var n := |events| - 1;
      var rest := Added(events[..n], id);
      if events[n].id == id && events[n].Update? then Plus(rest, events[n].delta) else rest
  }

  /** When a connection was last closed by an event that carries nothing. */
  function ClosedIn(events: seq<Event>, id: Id, otherwise: int): int {
    if events == [] then otherwise
    else
      var n := |events| - 1;
      if events[n].id == id && events[n].Closed? then events[n].at else ClosedIn(events[..n], id, otherwise)
  }

  /** The traffic last reported of a connection: none once it closed. */
  function RateIn(events: seq<Event>, id: Id, otherwise: Totals): Totals {
    if LastOn(events, id).Some? then RateOf(LastOn(events, id)) else otherwise
  }

  function RateOf(e: Option<Event>): Totals { if e.Some? && e.value.Update? then e.value.delta else ZERO }

  /** No event carries the connection whole. */
  predicate Bare(events: seq<Event>, id: Id) {
    forall i :: 0 <= i < |events| && events[i].id == id ==> Carried(events[i]).None?
  }

  /** Events that carry nothing add up and close. */
  lemma {:induction false} BareFold(v: View, events: seq<Event>, id: Id)
    requires Bare(events, id)
    ensures id in Fold(v, events) <==> id in v
    ensures id in v ==>
              Fold(v, events)[id] == Connection(Plus(v[id].totals, Added(events, id)), RateIn(events, id, v[id].rate),
                                                ClosedIn(events, id, v[id].closedAt))
  {
    if events != [] { BareFold(v, events[..|events| - 1], id); }
  }

  /** The client shows a connection as the last event that carried it whole did,
      plus all updates since, closed when it was last closed since. */
  lemma FoldShows(v: View, events: seq<Event>, i: nat, id: Id)
    requires i < |events| && events[i].id == id && Carried(events[i]).Some? && Bare(events[i + 1..], id)
    ensures var c, rest := Carried(events[i]).value, events[i + 1..];
            && id in Fold(v, events)
            && Fold(v, events)[id] == Connection(Plus(c.totals, Added(rest, id)), RateIn(rest, id, c.rate),
                                                 ClosedIn(rest, id, c.closedAt))
  {
    var first, rest := events[..i + 1], events[i + 1..];
    assert first[..i] == events[..i] && events == first + rest;
    FoldConcat(v, first, rest);
    BareFold(Fold(v, first), rest, id);
  }

  // ---------------------------------------------------------------------
  // Notices
  // ---------------------------------------------------------------------

  predicate Concerns(n: Notice, id: Id) { (n.Opened? && n.reading.id == id) || (n.Left? && n.id == id) }

  /** Notice k is the last of a batch that concerns the connection. */
  predicate LastNotice(notices: seq<Notice>, k: nat, id: Id) {
    k < |notices| && Concerns(notices[k], id) && forall j :: k < j < |notices| ==> !Concerns(notices[j], id)
  }

  lemma OtherNotice(s: Snapshots, n: Notice, id: Id)
    requires !Concerns(n, id)
    ensures var c := React(s, n);
            && (id in c.snapshots <==> id in s) && (id in s ==> c.snapshots[id] == s[id])
            && forall e :: e in c.events ==> e.id != id
  {
  }

  lemma {:induction false} OtherEvents(a: seq<Event>, b: seq<Event>, id: Id)
    requires forall e :: e in b ==> e.id != id
    ensures LastOn(a + b, id) == LastOn(a, id)
  {
    if b == [] {
      assert a + b == a;
    } else {
      var n := |b| - 1;
      OtherEvents(a, b[..n], id);
      assert (a + b)[..|a + b| - 1] == a + b[..n];
    }
  }

  /** What a batch of notices makes of a connection is decided by the last one
      that concerns it: if it left, its snapshot is gone and the last event about
      it closes it; if it opened, it has a snapshot, and if it had none before, the
      last event shows its counters. */
  lemma {:induction false} NoticesDecide(s: Snapshots, notices: seq<Notice>, k: nat, id: Id)
    requires LastNotice(notices, k, id)
    ensures var c, n := ReactAll(s, notices), notices[k];
            match n
            case Left(_, at, final) => id !in c.snapshots && LastOn(c.events, id) == Some(Closed(id, at, final))
            case Opened(r) =>
              && id in c.snapshots
              && (id !in ReactAll(s, notices[..k]).snapshots ==>
                    && c.snapshots[id] == Snapshot(r.first, false)
                    && LastOn(c.events, id) == Some(New(id, Connection(r.second, ZERO, 0))))
            case Unknown => true
    decreases |notices|
  {
    var n := |notices| - 1;
    var before, last := ReactAll(s, notices[..n]), React(ReactAll(s, notices[..n]).snapshots, notices[n]);
    if k == n {
      if last.events != [] {
        assert last.events == [last.events[0]];
        LastOnOne(before.events, last.events[0], id);
      }
    } else {
      assert notices[..n][..k] == notices[..k];
      NoticesDecide(s, notices[..n], k, id);
      OtherNotice(before.snapshots, notices[n], id);
      OtherEvents(before.events, last.events, id);
    }
  }

  /** The last event about a connection, when it carries it whole, is what the
      client shows. */
  lemma {:induction false} LastWordShows(v: View, events: seq<Event>, id: Id)
    requires LastOn(events, id).Some? && Carried(LastOn(events, id).value).Some?
    ensures id in Fold(v, events) && Fold(v, events)[id] == Carried(LastOn(events, id).value).value
  {
    var n := |events| - 1;
    if events[n].id != id { LastWordShows(v, events[..n], id); }
  }

  /** A connection that left in a batch is shown closed, with its final counters
      and the time it left, whatever the client had shown before. */
  lemma ClosedConnectionsShowTheirEnd(x: Session, notices: seq<Notice>, k: nat, id: Id, at: int, c: Connection)
    requires CanStep(x, Notices(notices)) && LastNotice(notices, k, id) && notices[k] == Left(id, at, Some(c))
    ensures var y := StepSession(x, Notices(notices));
            id in y.view && y.view[id] == Connection(c.totals, ZERO, at) && id !in y.snapshots && id !in Open(y.view)
  {
    NoticesDecide(x.snapshots, notices, k, id);
    LastWordShows(x.view, ReactAll(x.snapshots, notices).events, id);
  }

  /** A connection that opened is shown open, with the counters read for it. */
  lemma OpenedConnectionsShow(x: Session, notices: seq<Notice>, k: nat, id: Id, r: Reading)
    requires LastNotice(notices, k, id) && notices[k] == Opened(r)
    requires id !in ReactAll(x.snapshots, notices[..k]).snapshots
    ensures var y := StepSession(x, Notices(notices));
            && id in y.view && y.view[id] == Connection(r.second, ZERO, 0) && id in Open(y.view)
            && id in y.snapshots && y.snapshots[id].totals == r.first
  {
    NoticesDecide(x.snapshots, notices, k, id);
    LastWordShows(x.view, ReactAll(x.snapshots, notices).events, id);
  }

  // ---------------------------------------------------------------------
  // The traffic a client shows
  // ---------------------------------------------------------------------

  /** A server announces connections without traffic. */
  predicate Unrated(events: seq<Event>) {
    forall i :: 0 <= i < |events| && events[i].New? ==> events[i].connection.rate == ZERO
  }

  /** The client shows the traffic last reported. */
  ghost predicate Rated(v: View, sent: seq<Event>) { forall id :: id in v ==> v[id].rate == RateOf(LastOn(sent, id)) }

  lemma {:induction false} FoldRates(v: View, sent: seq<Event>, events: seq<Event>)
    requires Rated(v, sent) && Unrated(events)
    ensures Rated(Fold(v, events), sent + events)
  {
    if events == [] {
      assert sent + events == sent;
    } else {
      var n := |events| - 1;
      FoldRates(v, sent, events[..n]);
      assert sent + events == sent + events[..n] + [events[n]];
      var w := Fold(v, events);
      forall id | id in w ensures w[id].rate == RateOf(LastOn(sent + events, id)) {
        LastOnOne(sent + events[..n], events[n], id);
      }
    }
  }

  lemma {:induction false} ObserveAllUnrated(s: Snapshots, active: seq<Reading>)
    ensures Unrated(ObserveAll(s, active).events)
  {
    if active != [] { ObserveAllUnrated(s, active[..|active| - 1]); }
  }

  lemma {:induction false} ReactAllUnrated(s: Snapshots, notices: seq<Notice>)
    ensures Unrated(ReactAll(s, notices).events)
  {
    if notices != [] { ReactAllUnrated(s, notices[..|notices| - 1]); }
  }

  lemma {:induction false} InitialOpenUnrated(active: seq<Reading>)
    ensures Unrated(InitialOpen(active).events)
  {
    if active != [] { InitialOpenUnrated(active[..|active| - 1]); }
  }

  lemma {:induction false} InitialClosedUnrated(closed: seq<ClosedConnection>)
    ensures Unrated(InitialClosed(closed))
  {
    if closed != [] { InitialClosedUnrated(closed[..|closed| - 1]); }
  }

  lemma BatchUnrated(x: Session, l: Label)
    requires CanStep(x, l)
    ensures Unrated(Batch(x.snapshots, l))
  {
    match l
    case Notices(notices) => ReactAllUnrated(x.snapshots, notices);
    case Tick(active, _) => ObserveAllUnrated(x.snapshots, active);
    case Drop(_) =>
  }

  lemma StepRates(x: Session, sent: seq<Event>, l: Label)
    requires Rated(x.view, sent) && CanStep(x, l)
    ensures Rated(StepSession(x, l).view, sent + Batch(x.snapshots, l))
  {
    if l.Drop? {
      assert sent + [] == sent;
    } else {
      BatchUnrated(x, l);
      FoldRates(x.view, sent, Batch(x.snapshots, l));
    }
  }

  lemma {:induction false} RunRates(x: Session, sent: seq<Event>, run: seq<Label>, y: Session)
    requires Rated(x.view, sent) && Runs(x, run, y)
    ensures Rated(y.view, sent + Sent(x, run))
    decreases |run|
  {
    if run == [] {
      assert sent + [] == sent;
    } else {
      var batch := Batch(x.snapshots, run[0]);
      StepRates(x, sent, run[0]);
      RunRates(StepSession(x, run[0]), sent + batch, run[1..], y);
      assert sent + (batch + Sent(StepSession(x, run[0]), run[1..]))
          == sent + batch + Sent(StepSession(x, run[0]), run[1..]);
    }
  }

  /** After every batch of every run the client shows, of every connection, the
      traffic in the last update sent about it, and none if the last event was not
      an update. */
  lemma ClientShowsLastTraffic(active: seq<Reading>, closed: seq<ClosedConnection>, run: seq<Label>, y: Session)
    requires Reaches(active, closed, run, y)
    ensures Rated(y.view, History(active, closed, run))
  {
    var events := Initial(active, closed).events;
    InitialOpenUnrated(active);
    InitialClosedUnrated(closed);
    FoldRates(map[], [], events);
    assert [] + events == events;
    RunRates(Start(active, closed), events, run, y);
  }

  lemma ObserveIsAbout(s: Snapshots, r: Reading)
    ensures forall e :: e in Observe(s, r).events ==> e.id == r.id
  {
  }

  lemma OtherReading(s: Snapshots, now: seq<Reading>, id: Id, sent: seq<Event>)
    requires now != [] && now[|now| - 1].id != id
    ensures LastOn(sent + ObserveAll(s, now).events, id)
         == LastOn(sent + ObserveAll(s, now[..|now| - 1]).events, id)
  {
    var n := |now| - 1;
    var before := ObserveAll(s, now[..n]);
    var more := Observe(before.snapshots, now[n]).events;
    ObserveIsAbout(before.snapshots, now[n]);
    OtherEvents(sent + before.events, more, id);
    assert sent + (before.events + more) == sent + before.events + more;
  }

  /** What is sent for the readings after the last one of a connection is about
      others. */
  lemma {:induction false} LaterReadings(s: Snapshots, now: seq<Reading>, k: nat, m: nat, sent: seq<Event>)
    requires k < m <= |now| && forall j :: k < j < |now| ==> now[j].id != now[k].id
    ensures LastOn(sent + ObserveAll(s, now[..m]).events, now[k].id)
         == LastOn(sent + ObserveAll(s, now[..k + 1]).events, now[k].id)
  {
    if k + 1 < m {
      LaterReadings(s, now, k, m - 1, sent);
      assert now[..m][..m - 1] == now[..m - 1];
      OtherReading(s, now[..m], now[k].id, sent);
    }
  }

  /** What the last event about a connection reports after the reading of it. */
  lemma SendsRate(sent: seq<Event>, r: Reading, known: Option<Totals>)
    ensures RateOf(LastOn(sent + Sends(r, known, Busy(sent, r.id)), r.id))
         == if known.Some? && Moved(known.value, r.first) then Minus(r.first, known.value) else ZERO
  {
    var more := Sends(r, known, Busy(sent, r.id));
    if more == [] {
      assert sent + more == sent;
    } else {
      assert more == [more[0]];
      LastOnOne(sent, more[0], r.id);
    }
  }

  /** After a periodic update in any run the traffic a client shows of a connection
      is what its counters rose since they were last read: none for one that is
      new, idle or whose counters went back. */
  lemma TickShowsTraffic(active: seq<Reading>, closed: seq<ClosedConnection>, run: seq<Label>, x: Session,
                         now: seq<Reading>, closing: seq<Event>, k: nat)
    requires Reaches(active, closed, run, x) && CanStep(x, Tick(now, closing)) && k < |now|
    requires forall j :: k < j < |now| ==> now[j].id != now[k].id
    ensures var v, known := StepSession(x, Tick(now, closing)).view, Known(x.snapshots, now, k);
            now[k].id in v ==>
              v[now[k].id].rate
                == if known.Some? && Moved(known.value, now[k].first) then Minus(now[k].first, known.value) else ZERO
  {
    var sent, id, l := History(active, closed, run), now[k].id, Tick(now, closing);
    var events := ObserveAll(x.snapshots, now).events;
    ClientShowsLastTraffic(active, closed, run, x);
    StepRates(x, sent, l);
    assert sent + (events + closing) == sent + events + closing;
    ReadIsActive(now, k);
    NotMentioned(closing, id);
    LastOnConcat(sent + events, closing, id);
    LaterReadings(x.snapshots, now, k, |now|, sent);
    assert now[..|now|] == now;
    TickSends(active, closed, run, x, now, k);
    var before := ObserveAll(x.snapshots, now[..k]).events;
    SendsRate(sent + before, now[k], Known(x.snapshots, now, k));
    assert sent + (before + Sends(now[k], Known(x.snapshots, now, k), Busy(sent + before, id)))
        == sent + before + Sends(now[k], Known(x.snapshots, now, k), Busy(sent + before, id));
  }

  lemma {:induction false} ReadIsActive(now: seq<Reading>, k: nat)
    requires k < |now|
    ensures now[k].id in Ids(now)
  {
    if k < |now| - 1 { ReadIsActive(now[..|now| - 1], k); }
  }
}

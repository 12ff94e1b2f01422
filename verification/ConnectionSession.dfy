/** The two ends of the connection stream as they run: the server's snapshots,
    the client's view, and a subscription that drives both. */
module ConnectionSession {
  import opened ConnectionStream
  import ConnectionTraffic
  import opened Optional

  /** The closing events of the given connections, one each, with the time and
      final state that `closing` finds. */
  predicate ClosesWith(events: seq<Event>, ids: set<Id>, closing: Id -> (int, Option<Connection>)) {
    && Closes(events, ids) && |events| == |ids|
    && forall i :: 0 <= i < |events| ==>
         events[i].at == closing(events[i].id).0 && events[i].final == closing(events[i].id).1
  }

  lemma OneMoreClosed(events: seq<Event>, ids: set<Id>, closing: Id -> (int, Option<Connection>), id: Id)
    requires ClosesWith(events, ids, closing) && id !in ids && closing(id).0 != 0
    ensures ClosesWith(events + [Closed(id, closing(id).0, closing(id).1)], ids + {id}, closing)
  {
    var e := Closed(id, closing(id).0, closing(id).1);
    assert (events + [e])[..|events|] == events;
  }

  class Server {
    var snapshots: Snapshots

    constructor ()
      ensures snapshots == map[]
    {
      snapshots := map[];
    }

    method BuildInitialState(active: seq<Reading>, closed: seq<ClosedConnection>) returns (events: seq<Event>)
      requires snapshots == map[]
      modifies this
      ensures Change(snapshots, events) == Initial(active, closed)
    {
      events := [];
      for i := 0 to |active|
        invariant Change(snapshots, events) == InitialOpen(active[..i])
      {
        assert active[..i + 1][..i] == active[..i];
        events := events + [New(active[i].id, Connection(active[i].first, ZERO, 0))];
        snapshots := snapshots[active[i].id := Snapshot(active[i].second, false)];
      }
      assert active[..|active|] == active;
      ghost var announced := events;
      for i := 0 to |closed|
        invariant Change(snapshots, announced) == InitialOpen(active)
        invariant events == announced + InitialClosed(closed[..i])
      {
        assert closed[..i + 1][..i] == closed[..i];
        events := events + [New(closed[i].id, Connection(closed[i].totals, ZERO, closed[i].at))];
      }
      assert closed[..|closed|] == closed;
    }

    method ApplyEvent(n: Notice) returns (events: seq<Event>)
      modifies this
      ensures Change(snapshots, events) == React(old(snapshots), n)
    {
      match n
      case Opened(r) =>
        if r.id in snapshots {
          return [];
        }
        snapshots := snapshots[r.id := Snapshot(r.first, false)];
        events := [New(r.id, Connection(r.second, ZERO, 0))];
      case Left(id, at, final) =>
        snapshots := snapshots - {id};
        events := [Closed(id, at, final)];
      case Unknown => events := [];
    }

    /** The periodic update: a loop over the active connections, then a loop
        over the snapshots that are left, in any order. `closing` looks up the
        time and the final state of a connection that went away. */
    method BuildTrafficUpdates(active: seq<Reading>, closing: Id -> (int, Option<Connection>))
      returns (events: seq<Event>, ghost closed: seq<Event>)
      requires forall id :: closing(id).0 != 0
      modifies this
      ensures TicksWith(old(snapshots), active, closed, snapshots, events)
      ensures ClosesWith(closed, old(snapshots).Keys - Ids(active), closing)
      ensures snapshots.Keys == Ids(active)
      ensures forall id :: id in Ids(active) ==> snapshots[id].totals == ConnectionTraffic.LastRead(active, id)
    {
      var activeIds;
      events, activeIds := ObserveActive(active);
      ObserveAllKeys(old(snapshots), active);
      ConnectionTraffic.AllAreLastRead(old(snapshots), active);
      var missing := CloseMissing(snapshots.Keys - activeIds, closing);
      events, closed := events + missing, missing;
    }

    /** The loop over the active connections. */
    method ObserveActive(active: seq<Reading>) returns (events: seq<Event>, activeIds: set<Id>)
      modifies this
      ensures Change(snapshots, events) == ObserveAll(old(snapshots), active) && activeIds == Ids(active)
    {
      events, activeIds := [], {};
      for i := 0 to |active|
        invariant Change(snapshots, events) == ObserveAll(old(snapshots), active[..i])
        invariant activeIds == Ids(active[..i])
      {
        assert active[..i + 1][..i] == active[..i];
        activeIds := activeIds + {active[i].id};
        var more := ObserveConnection(active[i]);
        events := events + more;
      }
      assert active[..|active|] == active;
    }

    /** Close the snapshots that are left, in any order. */
    method CloseMissing(missing: set<Id>, closing: Id -> (int, Option<Connection>)) returns (closed: seq<Event>)
      requires missing <= snapshots.Keys && forall id :: closing(id).0 != 0
      modifies this
      ensures snapshots == old(snapshots) - missing && ClosesWith(closed, missing, closing)
    {
      closed := [];
      var left := missing;
      ghost var gone: set<Id> := {};
      while left != {}
        invariant gone !! left && gone + left == missing
        invariant snapshots == old(snapshots) - gone
        invariant ClosesWith(closed, gone, closing)
        decreases left
      {
        var id :| id in left;
        var (at, final) := closing(id);
        OneMoreClosed(closed, gone, closing, id);
        closed := closed + [Closed(id, at, final)];
        snapshots := snapshots - {id};
        left, gone := left - {id}, gone + {id};
      }
    }

    method ObserveConnection(r: Reading) returns (events: seq<Event>)
      modifies this
      ensures Change(snapshots, events) == Observe(old(snapshots), r)
    {
      events := [];
      if r.id !in snapshots {
        snapshots := snapshots[r.id := Snapshot(r.first, false)];
        return [New(r.id, Connection(r.second, ZERO, 0))];
      }
      var snapshot := snapshots[r.id];
      var d := Minus(r.first, snapshot.totals);
      if d.up < 0 || d.down < 0 {
        if snapshot.hadTraffic {
          events := [Update(r.id, Totals(0, 0))];
        }
        snapshots := snapshots[r.id := Snapshot(r.first, false)];
      } else if d.up > 0 || d.down > 0 {
        snapshots := snapshots[r.id := Snapshot(r.first, true)];
        events := [Update(r.id, d)];
      } else if snapshot.hadTraffic {
        snapshots := snapshots[r.id := Snapshot(r.first, false)];
        events := [Update(r.id, Totals(0, 0))];
      }
    }
  }

  // ---------------------------------------------------------------------
  // The client as it runs
  // ---------------------------------------------------------------------

  /** How long a closed connection is kept, in milliseconds. */
  const MAX_AGE := 300000

  function Evicted(v: View, now: int): View {
    map id | id in v && (v[id].closedAt == 0 || now - v[id].closedAt <= MAX_AGE) :: v[id]
  }

  class Client {
    var view: View

    constructor ()
      ensures view == map[]
    {
      view := map[];
    }

    method ApplyEvents(reset: bool, events: seq<Event>, now: int)
      modifies this
      ensures var shown := Fold(if reset then map[] else old(view), events);
              forall id :: id in view <==>
                id in shown && (shown[id].closedAt == 0 || now - shown[id].closedAt <= 300000)
      ensures view == Evicted(Fold(if reset then map[] else old(view), events), now)
    {
      if reset {
        view := map[];
      }
      ghost var start := view;
      for i := 0 to |events|
        invariant view == Fold(start, events[..i])
      {
        assert events[..i + 1][..i] == events[..i];
        match events[i]
        case New(id, c) => view := view[id := c];
        case Update(id, d) =>
          if id in view {
            view := view[id := view[id].(totals := Plus(view[id].totals, d), rate := d)];
          }
        case Closed(id, at, final) =>
          if final.Some? {
            view := view[id := final.value.(closedAt := at, rate := ZERO)];
          } else if id in view {
            view := view[id := view[id].(closedAt := at, rate := ZERO)];
          }
      }
      assert events[..|events|] == events;
      Evict(now);
    }

    method Evict(now: int)
      modifies this
      ensures view == Evicted(old(view), now)
    {
      var left := view.Keys;
      while left != {}
        invariant left <= view.Keys
        invariant forall id :: id in view ==> id in old(view) && view[id] == old(view)[id]
        invariant forall id :: id in old(view) && id !in left ==> (id in view <==> id in Evicted(old(view), now))
        decreases left
      {
        var id :| id in left;
        left := left - {id};
        if view[id].closedAt != 0 && now - view[id].closedAt > MAX_AGE {
          view := view - {id};
        }
      }
    }
  }

  // ---------------------------------------------------------------------
  // A subscription
  // ---------------------------------------------------------------------

  /** What the serving loop wakes up for: notices that are waiting, or the
      ticker; `now` is the client's clock when it handles the batch. */
  datatype Wake =
    | Heard(notices: seq<Notice>, now: int)
    | Ticked(active: seq<Reading>, closing: Id -> (int, Option<Connection>), now: int)

  /** Every closing time is set. */
  ghost predicate Timed(w: Wake) {
    match w
    case Heard(notices, _) => forall i :: 0 <= i < |notices| && notices[i].Left? ==> notices[i].at != 0
    case Ticked(_, closing, _) => forall id :: closing(id).0 != 0
  }

  /** A batch that answers a wake. */
  ghost predicate Matches(l: Label, w: Wake) {
    match w
    case Heard(notices, _) => l == Notices(notices)
    case Ticked(active, _, _) => l.Tick? && l.active == active
  }

  /** The batches of a run answer the wakes one by one, whatever was dropped
      from the view in between. */
  ghost predicate Answers(run: seq<Label>, wakes: seq<Wake>)
    decreases |run|
  {
    if run == [] then wakes == []
    else if run[|run| - 1].Drop? then Answers(run[..|run| - 1], wakes)
    else
      && wakes != [] && Matches(run[|run| - 1], wakes[|wakes| - 1])
      && Answers(run[..|run| - 1], wakes[..|wakes| - 1])
  }

  /** A wake makes one batch; the client that gets it drops old entries. */
  ghost predicate OneTurn(labels: seq<Label>, w: Wake) {
    1 <= |labels| <= 2 && Matches(labels[0], w) && (|labels| == 2 ==> labels[1].Drop?)
  }

  lemma AnswersOneMore(run: seq<Label>, wakes: seq<Wake>, labels: seq<Label>, w: Wake)
    requires Answers(run, wakes) && OneTurn(labels, w)
    ensures Answers(run + labels, wakes + [w])
  {
    assert (wakes + [w])[..|wakes|] == wakes && (run + [labels[0]])[..|run|] == run;
    assert Answers(run + [labels[0]], wakes + [w]);
    if |labels| == 1 {
      assert run + labels == run + [labels[0]];
    } else {
      assert (run + labels)[..|run| + 1] == run + [labels[0]];
    }
  }

  lemma {:induction false} RunsOn(x: Session, run: seq<Label>, y: Session, more: seq<Label>, z: Session)
    requires Runs(x, run, y) && Runs(y, more, z)
    ensures Runs(x, run + more, z)
    decreases |run|
  {
    if run == [] {
      assert run + more == more;
    } else {
      RunsOn(StepSession(x, run[0]), run[1..], y, more, z);
      assert (run + more)[1..] == run[1..] + more;
    }
  }

  lemma RunsOnce(x: Session, l: Label)
    requires CanStep(x, l)
    ensures Runs(x, [l], StepSession(x, l))
  {
    assert [l][1..] == [];
  }

  lemma RunsTwice(x: Session, l: Label, m: Label)
    requires CanStep(x, l) && CanStep(StepSession(x, l), m)
    ensures Runs(x, [l, m], StepSession(StepSession(x, l), m))
  {
    assert [l, m][1..] == [m];
    RunsOnce(StepSession(x, l), m);
  }

  lemma EvictedEvicts(v: View, now: int)
    ensures Evicts(v, Evicted(v, now))
  {
  }

  /** One turn of the serving loop on the server's side: a batch for all
      waiting notices, or a periodic update. */
  method Build(server: Server, w: Wake) returns (events: seq<Event>, ghost l: Label)
    requires Timed(w)
    modifies server
    ensures events == Batch(old(server.snapshots), l) && Matches(l, w)
    ensures forall v :: CanStep(Session(v, old(server.snapshots)), l)
                     && StepSession(Session(v, old(server.snapshots)), l) == Session(Fold(v, events), server.snapshots)
  {
    match w
    case Heard(notices, _) =>
      events, l := [], Notices(notices);
      for i := 0 to |notices|
        invariant Change(server.snapshots, events) == ReactAll(old(server.snapshots), notices[..i])
      {
        assert notices[..i + 1][..i] == notices[..i];
        var more := server.ApplyEvent(notices[i]);
        events := events + more;
      }
      assert notices[..|notices|] == notices;
    case Ticked(active, closing, _) =>
      ghost var closed;
      events, closed := server.BuildTrafficUpdates(active, closing);
      l := Tick(active, closed);
  }

  /** One turn on both sides: an empty batch is not sent. */
  method Turn(server: Server, client: Client, w: Wake) returns (ghost labels: seq<Label>)
    requires Timed(w)
    modifies server, client
    ensures OneTurn(labels, w)
    ensures Runs(old(Session(client.view, server.snapshots)), labels, Session(client.view, server.snapshots))
  {
    ghost var before := Session(client.view, server.snapshots);
    var events, l := Build(server, w);
    ghost var sent := Session(Fold(client.view, events), server.snapshots);
    assert StepSession(before, l) == sent;
    if events == [] {
      labels := [l];
      RunsOnce(before, l);
    } else {
      client.ApplyEvents(false, events, w.now);
      EvictedEvicts(sent.view, w.now);
      labels := [l, Drop(client.view)];
      RunsTwice(before, l, Drop(client.view));
    }
  }

  /** A whole subscription: the initial batch, then a turn per wake. The two
      ends follow a run of the session machine that answers exactly these
      wakes, so what is proved of every run holds of them. */
  method Subscribe(active: seq<Reading>, closed: seq<ClosedConnection>, now: int, wakes: seq<Wake>)
    returns (view: View, snapshots: Snapshots, ghost run: seq<Label>)
    requires forall i :: 0 <= i < |closed| ==> closed[i].at != 0
    requires forall i :: 0 <= i < |wakes| ==> Timed(wakes[i])
    ensures Open(view) <= snapshots.Keys && snapshots.Keys - Open(view) <= Overlap(active, closed)
    ensures Reaches(active, closed, run, Session(view, snapshots)) && Answers(run, wakes)
    ensures Open(view) == snapshots.Keys - Book(active, closed, run).early
    ensures forall id :: id in Open(view) ==>
              && id in snapshots && id in Book(active, closed, run).drift
              && view[id].totals == Plus(snapshots[id].totals, Book(active, closed, run).drift[id])
  {
    var server := new Server();
    var client := new Client();
    ghost var start := Start(active, closed);
    var events := server.BuildInitialState(active, closed);
    client.ApplyEvents(true, events, now);
    run := [Drop(client.view)];
    EvictedEvicts(start.view, now);
    RunsOnce(start, Drop(client.view));
    assert Answers([], []) && run[..0] == [];
    for i := 0 to |wakes|
      invariant Runs(start, run, Session(client.view, server.snapshots)) && Answers(run, wakes[..i])
      invariant fresh(server) && fresh(client)
    {
      ghost var before := Session(client.view, server.snapshots);
      ghost var labels := Turn(server, client, wakes[i]);
      RunsOn(start, run, before, labels, Session(client.view, server.snapshots));
      AnswersOneMore(run, wakes[..i], labels, wakes[i]);
      assert wakes[..i + 1] == wakes[..i] + [wakes[i]];
      run := run + labels;
    }
    assert wakes[..|wakes|] == wakes;
    view, snapshots := client.view, server.snapshots;
    HistoryAgrees(active, closed, run, Session(view, snapshots));
  }
}

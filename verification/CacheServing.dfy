/** What the response cache holds and serves, told from the labels of a run
    alone: the replies that came in, the lookups, and what was forgotten. */
module CacheServing {
  import opened Optional
  import opened DnsMessage
  import opened TimeToLive
  import opened DnsCache
  import CacheTheorems
  import RoundRobin

  // ---------------------------------------------------------------------
  // What the labels say about a key
  // ---------------------------------------------------------------------

  /** A reply to the operation is kept under the key: the operation may use the
      cache, the reply is a success or a name error that its checker accepts, its
      time to live is positive, and the key is the operation's, whose environment
      is unknown or still the same. */
  predicate Fit(c: Config, op: Operation, raw: Message, environment: nat, key: Key) {
    && op.cacheable && !c.cacheOff
    && (raw.rcode == RCODE_SUCCESS || raw.rcode == RCODE_NAME_ERROR)
    && (op.checker.Some? ==> c.accepts(op.checker.value, raw))
    && FinalTTL(raw, c.bounds, op.rewrite) > 0
    && (op.key.environment == 0 || op.key.environment == environment)
    && key == op.key.(environment := environment)
  }

  /** The operation a label brings a reply to; s is the state it happens in. */
  function Asker(s: State, l: Label): Option<Operation> {
    match l
    case Finish(op, _, _, _, _) => Some(op)
    case Refreshed(task, _, _, _, _) => if task < |s.tasks| then Some(s.tasks[task].op) else None
    case _ => None
  }

  function Reply(l: Label): Option<Message> {
    match l
    case Finish(_, raw, _, _, _) => Some(raw)
    case Refreshed(_, reply, _, _, _) => reply
    case _ => None
  }

  /** The label brings a reply that is kept under the key. */
  predicate Keeps(c: Config, s: State, l: Label, key: Key) {
    && Asker(s, l).Some? && Reply(l).Some?
    && Fit(c, Asker(s, l).value, Reply(l).value, l.environment, key)
  }

  /** The label is a lookup of the key. */
  predicate Reads(c: Config, l: Label, key: Key) { l.Begin? && l.op.cacheable && !c.cacheOff && l.op.key == key }

  /** What is kept under the key until expireAt is gone by then, as the clock of a
      lookup goes. */
  predicate Over(c: Config, now: int, expireAt: int) {
    !c.disableExpire && now > expireAt && now >= expireAt + c.optimistic
  }

  /** The label takes away what is kept under the key until expireAt. */
  predicate Removes(c: Config, l: Label, key: Key, expireAt: int) {
    (l.Forget? && key in l.keys) || (Reads(c, l, key) && Over(c, l.begun, expireAt))
  }

  /** Label i brought a reply kept under the key, and since then there was no
      other and nothing took it away. */
  predicate Stands(c: Config, labels: seq<Label>, i: nat, key: Key)
    requires Possible(c, labels)
  {
    && i < |labels| && KeptAt(c, labels, i, key)
    && forall j :: i < j < |labels| ==> !KeptAt(c, labels, j, key) && !Removes(c, labels[j], key, labels[i].expireAt)
  }

  predicate KeptAt(c: Config, labels: seq<Label>, i: nat, key: Key)
    requires Possible(c, labels) && i < |labels|
  {
    PrefixPossible(c, labels, i);
    Keeps(c, After(c, labels[..i]), labels[i], key)
  }

  lemma {:induction false} PrefixPossible(c: Config, labels: seq<Label>, i: nat)
    requires Possible(c, labels) && i <= |labels|
    ensures Possible(c, labels[..i])
    decreases |labels|
  {
    if i == |labels| {
      assert labels[..i] == labels;
    } else {
      var n := |labels| - 1;
      PrefixPossible(c, labels[..n], i);
      assert labels[..n][..i] == labels[..i];
    }
  }

  /** The lookups of the key since label i. */
  function ReadsSince(c: Config, labels: seq<Label>, i: nat, key: Key): nat {
    if |labels| <= i + 1 then 0
    else
      var n := |labels| - 1;
      ReadsSince(c, labels[..n], i, key) + if Reads(c, labels[n], key) then 1 else 0
  }

  // ---------------------------------------------------------------------
  // The table, label by label
  // ---------------------------------------------------------------------

  function EntryAt(s: State, key: Key): Option<Entry> { if key in s.cache then Some(s.cache[key]) else None }

  /** The entry a kept reply makes, after so many lookups. */
  function EntryOf(c: Config, op: Operation, raw: Message, expireAt: int, turns: nat): Entry {
    var msg := Stamped(raw, FinalTTL(raw, c.bounds, op.rewrite));
    Entry(msg, expireAt, if c.roundRobin then RoundRobin.After(msg.answer, RoundRobin.Indices(0, 0), turns)
                         else RoundRobin.Indices(0, 0))
  }

  /** What one label does to the entry of a key. */
  function Next(c: Config, s: State, l: Label, key: Key): Option<Entry> {
    var e := EntryAt(s, key);
    if Keeps(c, s, l, key) then Some(EntryOf(c, Asker(s, l).value, Reply(l).value, l.expireAt, 0))
    else if e.None? || Removes(c, l, key, e.value.expireAt) then None
    else if Reads(c, l, key) && c.roundRobin then
      Some(e.value.(indices := RoundRobin.Advanced(e.value.msg.answer, e.value.indices)))
    else e
  }

  lemma StoreNext(c: Config, s: State, op: Operation, raw: Message, environment: nat, now: int, expireAt: int, key: Key)
    requires op.cacheable && !c.cacheOff
    ensures EntryAt(RefreshStore(c, s, op, raw, environment, now, expireAt), key)
         == if Fit(c, op, raw, environment, key) then Some(EntryOf(c, op, raw, expireAt, 0)) else EntryAt(s, key)
  {
  }

  lemma BeginNext(c: Config, s: State, op: Operation, now: int, off: bool, key: Key)
    ensures EntryAt(BeginExchange(c, s, op, now, off).0, key) == Next(c, s, Begin(op, now, off), key)
  {
  }

  lemma FinishNext(c: Config, s: State, l: Label, key: Key)
    requires l.Finish? && Enabled(c, s, l)
    ensures EntryAt(Step(c, s, l), key) == Next(c, s, l, key)
  {
    if l.finished.cacheable && !c.cacheOff {
      StoreNext(c, s, l.finished, l.raw, l.environment, l.now, l.expireAt, key);
      RefreshStoresLikeExchange(c, s, l.finished, l.raw, l.environment, l.now, l.expireAt);
    }
  }

  lemma RefreshedNext(c: Config, s: State, l: Label, key: Key)
    requires CacheTheorems.TasksInv(c, s) && l.Refreshed? && Enabled(c, s, l)
    ensures EntryAt(Step(c, s, l), key) == Next(c, s, l, key)
  {
    var op := s.tasks[l.task].op;
    if l.reply.Some? { StoreNext(c, s, op, l.reply.value, l.environment, l.now, l.expireAt, key); }
  }

  lemma StepNext(c: Config, s: State, l: Label, key: Key)
    requires CacheTheorems.TasksInv(c, s) && Enabled(c, s, l)
    ensures EntryAt(Step(c, s, l), key) == Next(c, s, l, key)
  {
    match l
    case Begin(op, now, off) => BeginNext(c, s, op, now, off, key);
    case Finish(_, _, _, _, _) => FinishNext(c, s, l, key);
    case Refreshed(_, _, _, _, _) => RefreshedNext(c, s, l, key);
    case Forget(_) =>
  }

  // ---------------------------------------------------------------------
  // The table is what the labels say
  // ---------------------------------------------------------------------

  /** What label i left in the table is still there. */
  predicate Written(c: Config, labels: seq<Label>, i: nat, key: Key)
    requires Possible(c, labels) && i < |labels|
  {
    PrefixPossible(c, labels, i);
    var s := After(c, labels[..i]);
    && Asker(s, labels[i]).Some? && Reply(labels[i]).Some?
    && EntryAt(After(c, labels), key) == Some(EntryOf(c, Asker(s, labels[i]).value, Reply(labels[i]).value,
                                                      labels[i].expireAt, ReadsSince(c, labels, i, key)))
  }

  lemma KeptBefore(c: Config, labels: seq<Label>, i: nat, key: Key)
    requires Possible(c, labels) && i < |labels| - 1
    ensures KeptAt(c, labels[..|labels| - 1], i, key) == KeptAt(c, labels, i, key)
  {
    assert labels[..|labels| - 1][..i] == labels[..i];
  }

  /** One more label: what stands goes on standing unless the label replaces it
      or takes it away. */
  lemma StandsOn(c: Config, labels: seq<Label>, i: nat, key: Key)
    requires Possible(c, labels) && i < |labels| - 1
    ensures var n := |labels| - 1;
            Stands(c, labels, i, key) <==>
              && Stands(c, labels[..n], i, key) && !Keeps(c, After(c, labels[..n]), labels[n], key)
              && !Removes(c, labels[n], key, labels[i].expireAt)
  {
    var n := |labels| - 1;
    forall j: nat | j < n ensures KeptAt(c, labels[..n], j, key) == KeptAt(c, labels, j, key) {
      KeptBefore(c, labels, j, key);
    }
    assert KeptAt(c, labels, n, key) == Keeps(c, After(c, labels[..n]), labels[n], key);
  }

  lemma StandsNow(c: Config, labels: seq<Label>, key: Key)
    requires Possible(c, labels) && labels != []
    ensures var n := |labels| - 1;
            Stands(c, labels, n, key) <==> Keeps(c, After(c, labels[..n]), labels[n], key)
  {
  }

  lemma ReadsNext(c: Config, labels: seq<Label>, i: nat, key: Key)
    requires i < |labels|
    ensures var n := |labels| - 1;
            ReadsSince(c, labels, i, key) ==
              if i == n then 0 else ReadsSince(c, labels[..n], i, key) + if Reads(c, labels[n], key) then 1 else 0
  {
  }

  lemma EntryNext(c: Config, s: State, l: Label, key: Key, op: Operation, raw: Message, expireAt: int, turns: nat)
    requires EntryAt(s, key) == Some(EntryOf(c, op, raw, expireAt, turns))
    requires !Keeps(c, s, l, key) && !Removes(c, l, key, expireAt)
    ensures Next(c, s, l, key) == Some(EntryOf(c, op, raw, expireAt, turns + if Reads(c, l, key) then 1 else 0))
  {
  }

  lemma WrittenNext(c: Config, labels: seq<Label>, i: nat, key: Key)
    requires Possible(c, labels) && i < |labels| - 1 && Stands(c, labels, i, key)
    requires Written(c, labels[..|labels| - 1], i, key)
    ensures Written(c, labels, i, key)
  {
    var n := |labels| - 1;
    assert labels[..n][..i] == labels[..i];
    PrefixPossible(c, labels, i);
    var s, before := After(c, labels[..n]), After(c, labels[..i]);
    CacheTheorems.RunKeeps(c, labels[..n]);
    StepNext(c, s, labels[n], key);
    StandsOn(c, labels, i, key);
    ReadsNext(c, labels, i, key);
    EntryNext(c, s, labels[n], key, Asker(before, labels[i]).value, Reply(labels[i]).value, labels[i].expireAt,
              ReadsSince(c, labels[..n], i, key));
  }

  lemma WrittenNow(c: Config, labels: seq<Label>, key: Key)
    requires Possible(c, labels) && labels != [] && Stands(c, labels, |labels| - 1, key)
    ensures Written(c, labels, |labels| - 1, key)
  {
    var n := |labels| - 1;
    CacheTheorems.RunKeeps(c, labels[..n]);
    StepNext(c, After(c, labels[..n]), labels[n], key);
    StandsNow(c, labels, key);
  }

  /** A reply that stands is in the table as it came in, with its final time to
      live, its rotation advanced once per lookup since. */
  lemma {:induction false} StandingIsWritten(c: Config, labels: seq<Label>, i: nat, key: Key)
    requires Possible(c, labels) && Stands(c, labels, i, key)
    ensures Written(c, labels, i, key)
    decreases |labels|
  {
    if i == |labels| - 1 {
      WrittenNow(c, labels, key);
    } else {
      StandsOn(c, labels, i, key);
      StandingIsWritten(c, labels[..|labels| - 1], i, key);
      WrittenNext(c, labels, i, key);
    }
  }

  /** Nothing else is in the table. */
  lemma {:induction false} WrittenStands(c: Config, labels: seq<Label>, key: Key) returns (i: nat)
    requires Possible(c, labels) && key in After(c, labels).cache
    ensures Stands(c, labels, i, key)
    decreases |labels|
  {
    var n := |labels| - 1;
    var s := After(c, labels[..n]);
    CacheTheorems.RunKeeps(c, labels[..n]);
    StepNext(c, s, labels[n], key);
    if Keeps(c, s, labels[n], key) {
      i := n;
      StandsNow(c, labels, key);
    } else {
      i := WrittenStands(c, labels[..n], key);
      StandingIsWritten(c, labels[..n], i, key);
      StandsOn(c, labels, i, key);
    }
  }

  /** After any run the table holds, under a key, exactly the latest reply that was
      fit to be kept under it and was not taken away since. */
  lemma TableIsLatestReplies(c: Config, labels: seq<Label>, key: Key)
    requires Possible(c, labels)
    ensures key in After(c, labels).cache <==> exists i :: Stands(c, labels, i, key)
    ensures forall i :: Stands(c, labels, i, key) ==> Written(c, labels, i, key)
  {
    forall i | Stands(c, labels, i, key) ensures Written(c, labels, i, key) { StandingIsWritten(c, labels, i, key); }
    if key in After(c, labels).cache { var i := WrittenStands(c, labels, key); }
  }

  // ---------------------------------------------------------------------
  // Serving
  // ---------------------------------------------------------------------

  /** The time to live a reply kept until expireAt is served with at a time: what
      is left of it in whole seconds, one second when it is stale, and nothing
      when it is over. */
  function ServedTTL(c: Config, ttl: nat, now: int, expireAt: int): Option<nat> {
    if c.disableExpire then Some(ttl)
    else if now <= expireAt then Some((expireAt - now) / SECOND)
    else if now < expireAt + c.optimistic then Some(1)
    else None
  }

  predicate IsStale(c: Config, now: int, expireAt: int) { !c.disableExpire && now > expireAt }

  function Rotation(raw: Message, turns: nat): RoundRobin.Indices {
    RoundRobin.After(raw.answer, RoundRobin.Indices(0, 0), turns)
  }

  /** The reply with its addresses rotated for the lookup that follows so many
      others, a time to live and an id. */
  function Presented(c: Config, raw: Message, turns: nat, ttl: nat, id: nat): Message {
    var rotated := if c.roundRobin then RoundRobin.Load(raw.answer, Rotation(raw, turns)).0 else raw.answer;
    Stamped(raw.(answer := rotated), ttl).(id := id)
  }

  lemma {:induction false} RotationOfStamped(raw: Message, ttl: nat, turns: nat)
    ensures Rotation(Stamped(raw, ttl), turns) == Rotation(raw, turns)
  {
    CacheTheorems.StampFilters(raw.answer, RoundRobin.IsA, ttl);
    CacheTheorems.StampFilters(raw.answer, RoundRobin.IsAAAA, ttl);
    if turns > 0 { RotationOfStamped(raw, ttl, turns - 1); }
  }

  lemma TurnedIsStamped(c: Config, op: Operation, raw: Message, expireAt: int, turns: nat)
    ensures Turned(c, EntryOf(c, op, raw, expireAt, turns))
         == Presented(c, raw, turns, FinalTTL(raw, c.bounds, op.rewrite), raw.id)
  {
    var final := FinalTTL(raw, c.bounds, op.rewrite);
    RotationOfStamped(raw, final, turns);
    CacheTheorems.StampLoads(raw.answer, Rotation(raw, turns), final);
  }

  lemma TurnedIsPresented(c: Config, op: Operation, raw: Message, expireAt: int, turns: nat, ttl: nat, id: nat)
    ensures var m := Turned(c, EntryOf(c, op, raw, expireAt, turns));
            && Stamped(m, ttl).(id := id) == Presented(c, raw, turns, ttl, id)
            && m.(id := id) == Presented(c, raw, turns, FinalTTL(raw, c.bounds, op.rewrite), id)
  {
    TurnedIsStamped(c, op, raw, expireAt, turns);
  }

  /** The answer is the reply of label i, rotated once more and with what is left
      of its time; or nothing, when that is over, or stale and not wanted so. */
  ghost predicate ServedAs(c: Config, labels: seq<Label>, i: nat, op: Operation, now: int, off: bool,
                           answer: Option<Message>)
    requires Possible(c, labels) && i < |labels|
  {
    PrefixPossible(c, labels, i);
    var asker, reply := Asker(After(c, labels[..i]), labels[i]), Reply(labels[i]);
    && asker.Some? && reply.Some?
    && var ttl := ServedTTL(c, FinalTTL(reply.value, c.bounds, asker.value.rewrite), now, labels[i].expireAt);
       answer == if ttl.None? || (off && IsStale(c, now, labels[i].expireAt)) then None
                 else Some(Presented(c, reply.value, ReadsSince(c, labels, i, op.key), ttl.value, op.id))
  }

  /** What an exchange that may use the cache gets from it is the reply that stands
      under its key. */
  lemma ServesWhatStands(c: Config, labels: seq<Label>, i: nat, op: Operation, now: int, off: bool)
    requires Possible(c, labels) && Stands(c, labels, i, op.key) && op.cacheable
    ensures ServedAs(c, labels, i, op, now, off, BeginExchange(c, After(c, labels), op, now, off).1)
  {
    PrefixPossible(c, labels, i);
    StandingIsWritten(c, labels, i, op.key);
    var asker, raw := Asker(After(c, labels[..i]), labels[i]).value, Reply(labels[i]).value;
    var turns := ReadsSince(c, labels, i, op.key);
    TurnedIsPresented(c, asker, raw, labels[i].expireAt, turns, 1, op.id);
    if now <= labels[i].expireAt {
      TurnedIsPresented(c, asker, raw, labels[i].expireAt, turns, Remaining(labels[i].expireAt, now), op.id);
    }
  }

  /** Without such a reply, or without leave to use the cache, it gets nothing. */
  lemma ServesNothingElse(c: Config, labels: seq<Label>, op: Operation, now: int, off: bool)
    requires Possible(c, labels) && BeginExchange(c, After(c, labels), op, now, off).1.Some?
    ensures op.cacheable && exists i :: Stands(c, labels, i, op.key)
  {
    var i := WrittenStands(c, labels, op.key);
  }

  /** A reply fit to be kept is served to every exchange under its key until it
      expires, as long as no other reply is kept under the key and the key is not
      forgotten: with the same records, and at most the time that is left. */
  lemma KeptRepliesAreServed(c: Config, labels: seq<Label>, i: nat, op: Operation, now: int, off: bool)
    requires Possible(c, labels) && i < |labels| && KeptAt(c, labels, i, op.key) && op.cacheable
    requires forall j :: i < j < |labels| ==>
               && !KeptAt(c, labels, j, op.key) && (labels[j].Forget? ==> op.key !in labels[j].keys)
               && (Reads(c, labels[j], op.key) ==> c.disableExpire || labels[j].begun <= labels[i].expireAt)
    requires c.disableExpire || now <= labels[i].expireAt
    ensures var served := BeginExchange(c, After(c, labels), op, now, off).1;
            && served.Some? && Reply(labels[i]).Some?
            && exists ttl: nat :: served.value
                 == Presented(c, Reply(labels[i]).value, ReadsSince(c, labels, i, op.key), ttl, op.id)
                 && (!c.disableExpire ==> now + ttl * SECOND <= labels[i].expireAt < now + ttl * SECOND + SECOND)
  {
    assert Stands(c, labels, i, op.key);
    ServesWhatStands(c, labels, i, op, now, off);
  }

  /** A lookup that is answered with a stale reply leaves a refresh of the key
      running: the one it starts for its own operation, or one that was already
      running. Any other lookup starts none. */
  lemma StaleAnswersAreRefreshed(c: Config, labels: seq<Label>, i: nat, op: Operation, now: int, off: bool)
    requires Possible(c, labels) && Stands(c, labels, i, op.key) && op.cacheable
    ensures var s := After(c, labels);
            var t := BeginExchange(c, s, op, now, off).0;
            var stale := IsStale(c, now, labels[i].expireAt) && !off && now < labels[i].expireAt + c.optimistic;
            if stale && !(exists k: nat :: k < |s.tasks| && s.tasks[k].running && s.tasks[k].op.key == op.key)
            then t.tasks == s.tasks + [Task(op, true)]
            else t.tasks == s.tasks
  {
    StandingIsWritten(c, labels, i, op.key);
    CacheTheorems.RunKeeps(c, labels);
  }

  /** What a finished exchange, or a refresh, does to the table. */
  ghost predicate Keeping(c: Config, s: State, t: State, op: Operation, raw: Message, environment: nat, expireAt: int) {
    forall key :: EntryAt(t, key)
               == if Fit(c, op, raw, environment, key) then Some(EntryOf(c, op, raw, expireAt, 0)) else EntryAt(s, key)
  }

  lemma ReplyIsKept(c: Config, labels: seq<Label>, l: Label)
    requires Possible(c, labels) && Enabled(c, After(c, labels), l)
    ensures var s := After(c, labels);
            Asker(s, l).Some? && Reply(l).Some? ==>
              Keeping(c, s, Step(c, s, l), Asker(s, l).value, Reply(l).value, l.environment, l.expireAt)
  {
    CacheTheorems.RunKeeps(c, labels);
    forall key ensures EntryAt(Step(c, After(c, labels), l), key) == Next(c, After(c, labels), l, key) {
      StepNext(c, After(c, labels), l, key);
    }
  }

  // ---------------------------------------------------------------------
  // The answer of a finished exchange
  // ---------------------------------------------------------------------

  /** An exchange is refused exactly when it has a checker and the reply is an
      error or not accepted; otherwise the caller gets the reply it came with,
      every record but the OPT record with the final time to live. */
  lemma FinishedAnswer(c: Config, s: State, op: Operation, raw: Message, environment: nat, now: int, expireAt: int)
    ensures var answer := FinishExchange(c, s, op, raw, environment, now, expireAt).1;
            var error := raw.rcode != RCODE_SUCCESS && raw.rcode != RCODE_NAME_ERROR;
            && (answer.Refused? <==> op.checker.Some? && (error || !c.accepts(op.checker.value, raw)))
            && (answer.Answered? ==>
                  && answer.message.id == op.id && answer.message.rcode == raw.rcode
                  && answer.message.question == raw.question
                  && |answer.message.answer| == |raw.answer| && |answer.message.ns| == |raw.ns|
                  && |Records(answer.message)| == |Records(raw)|
                  && forall k :: 0 <= k < |Records(raw)| ==>
                       Records(answer.message)[k] == if Records(raw)[k].rrtype == TYPE_OPT then Records(raw)[k]
                         else Records(raw)[k].(ttl := FinalTTL(raw, c.bounds, op.rewrite)))
  {
  }
}

/** The response cache agrees with a simple timed map. */
module CacheTheorems {
  import opened Optional
  import opened DnsMessage
  import opened TimeToLive
  import opened DnsCache
  import RoundRobin

  // ---------------------------------------------------------------------
  // The reference: a map from keys to the latest stored message
  // ---------------------------------------------------------------------

  predicate Concerns(e: Event, key: Key) { if e.Stored? then e.key == key else key in e.keys }

  /** The last thing that happened to a key. */
  function Latest(history: seq<Event>, key: Key): (r: Option<Event>)
    ensures r.Some? ==> r.value in history && Concerns(r.value, key)
  {
    if history == [] then None
    else if Concerns(history[|history| - 1], key) then Some(history[|history| - 1])
    else Latest(history[..|history| - 1], key)
  }

  predicate Holds(history: seq<Event>, key: Key) {
    Latest(history, key).Some? && Latest(history, key).value.Stored?
  }

  /** How a message stored by an event looks at a given time. */
  datatype View = Gone | Forever | Fresh(ttl: nat) | Stale

  function Timed(c: Config, e: Event, now: int): View
    requires e.Stored?
  {
    if c.disableExpire then Forever
    else if now <= e.expireAt then Fresh(Remaining(e.expireAt, now))
    else if now < e.expireAt + c.optimistic then Stale
    else Gone
  }

  /** The message to expect, before any rotation. */
  function Expected(e: Event, v: View): Message
    requires e.Stored? && !v.Gone?
  {
    match v
    case Forever => Stamped(e.raw, e.ttl)
    case Fresh(ttl) => Stamped(e.raw, ttl)
    case Stale => Stamped(e.raw, 1)
  }

  /** The answer section, possibly with its addresses rotated. */
  ghost predicate Rearranged(c: Config, a: seq<Record>, b: seq<Record>) {
    if c.roundRobin then exists i :: b == RoundRobin.Load(a, i).0 else a == b
  }

  ghost predicate SameButOrder(c: Config, expected: Message, m: Message) {
    m.(answer := expected.answer) == expected && Rearranged(c, expected.answer, m.answer)
  }

  // ---------------------------------------------------------------------
  // The invariant
  // ---------------------------------------------------------------------

  predicate EntryMatches(e: Entry, v: Event) {
    v.Stored? && e.msg == Stamped(v.raw, v.ttl) && e.expireAt == v.expireAt
  }

  /** What is true of everything ever stored. */
  predicate SoundStore(c: Config, e: Event) {
    e.Stored? ==>
      && !c.cacheOff && e.op.cacheable
      && Usable(e.raw) && !Rejected(c, e.op, e.raw)
      && e.ttl == FinalTTL(e.raw, c.bounds, e.op.rewrite) && e.ttl > 0
      && (e.op.key.environment == 0 || e.op.key.environment == e.key.environment)
      && e.key.(environment := 0) == e.op.key.(environment := 0)
      && Expiry(e.now, e.ttl, e.expireAt)
  }

  ghost predicate CacheInv(s: State) {
    forall k: Key ::
      && (k in s.cache <==> Holds(s.history, k))
      && (k in s.cache ==> EntryMatches(s.cache[k], Latest(s.history, k).value))
  }

  predicate StoresInv(c: Config, s: State) { forall e :: e in s.history ==> SoundStore(c, e) }

  predicate TasksInv(c: Config, s: State) {
    && (forall i: nat :: i < |s.tasks| ==> s.tasks[i].op.cacheable)
    && (forall i: nat :: i < |s.tasks| && s.tasks[i].running ==> s.tasks[i].op.key in s.refreshing && !c.cacheOff)
    && (forall i: nat, j: nat :: i < j < |s.tasks| && s.tasks[i].running && s.tasks[j].running ==>
          s.tasks[i].op.key != s.tasks[j].op.key)
    && (forall k :: k in s.refreshing ==>
          exists i: nat :: i < |s.tasks| && s.tasks[i].running && s.tasks[i].op.key == k)
  }

  ghost predicate Inv(c: Config, s: State) { CacheInv(s) && StoresInv(c, s) && TasksInv(c, s) }

  lemma LatestExtends(history: seq<Event>, e: Event, key: Key)
    ensures Latest(history + [e], key) == if Concerns(e, key) then Some(e) else Latest(history, key)
  {
    assert (history + [e])[..|history|] == history;
  }

  lemma DropKeeps(c: Config, s: State, keys: set<Key>)
    requires Inv(c, s)
    ensures Inv(c, Drop(s, keys))
  {
    forall k: Key { LatestExtends(s.history, Dropped(keys), k); }
  }

  lemma StoreKeeps(c: Config, s: State, key: Key, op: Operation, raw: Message, ttl: nat, now: int, expireAt: int)
    requires Inv(c, s)
    requires ttl > 0 && !c.cacheOff ==> SoundStore(c, Stored(key, op, raw, ttl, now, expireAt))
    ensures Inv(c, StoreCache(c, s, key, op, raw, ttl, now, expireAt))
  {
    forall k: Key { LatestExtends(s.history, Stored(key, op, raw, ttl, now, expireAt), k); }
  }

  lemma AdvanceKeeps(c: Config, s: State, key: Key)
    requires Inv(c, s) && key in s.cache
    ensures Inv(c, Advance(c, s, key))
  {
  }

  lemma SpawnKeeps(c: Config, s: State, op: Operation)
    requires Inv(c, s) && op.cacheable && !c.cacheOff
    ensures Inv(c, Spawn(s, op))
  {
    var t := Spawn(s, op);
    if op.key !in s.refreshing {
      var n := |s.tasks|;
      assert t.tasks[n] == Task(op, true);
      forall k | k in t.refreshing
        ensures exists i: nat :: i < |t.tasks| && t.tasks[i].running && t.tasks[i].op.key == k
      {
        if k in s.refreshing {
          var i: nat :| i < |s.tasks| && s.tasks[i].running && s.tasks[i].op.key == k;
          assert t.tasks[i] == s.tasks[i];
        }
      }
    }
  }

  lemma BeginKeeps(c: Config, s: State, op: Operation, now: int, off: bool)
    requires Inv(c, s)
    ensures Inv(c, BeginExchange(c, s, op, now, off).0)
  {
    if op.cacheable && !c.cacheOff && op.key in s.cache {
      AdvanceKeeps(c, s, op.key);
      DropKeeps(c, s, {op.key});
      SpawnKeeps(c, LoadResponse(c, s, op.key, now).0, op);
    }
  }

  lemma RefreshStoreKeeps(c: Config, s: State, op: Operation, raw: Message, environment: nat, now: int, expireAt: int)
    requires Inv(c, s) && op.cacheable && !c.cacheOff
    requires Expiry(now, FinalTTL(raw, c.bounds, op.rewrite), expireAt)
    ensures Inv(c, RefreshStore(c, s, op, raw, environment, now, expireAt))
    ensures RefreshStore(c, s, op, raw, environment, now, expireAt).tasks == s.tasks
    ensures RefreshStore(c, s, op, raw, environment, now, expireAt).refreshing == s.refreshing
  {
    var key := FinishKey(op.key, environment);
    if !Rejected(c, op, raw) && Usable(raw) && key.Some? {
      StoreKeeps(c, s, key.value, op, raw, FinalTTL(raw, c.bounds, op.rewrite), now, expireAt);
    }
  }

  lemma FinishKeeps(c: Config, s: State, op: Operation, raw: Message, environment: nat, now: int, expireAt: int)
    requires Inv(c, s)
    requires Expiry(now, FinalTTL(raw, c.bounds, op.rewrite), expireAt)
    ensures Inv(c, FinishExchange(c, s, op, raw, environment, now, expireAt).0)
  {
    if op.cacheable && !c.cacheOff {
      RefreshStoreKeeps(c, s, op, raw, environment, now, expireAt);
      RefreshStoresLikeExchange(c, s, op, raw, environment, now, expireAt);
    }
  }

  lemma RetireKeeps(c: Config, s: State, task: nat)
    requires Inv(c, s) && task < |s.tasks| && s.tasks[task].running
    ensures var op := s.tasks[task].op;
            Inv(c, s.(refreshing := s.refreshing - {op.key}, tasks := s.tasks[task := Task(op, false)]))
  {
    var op := s.tasks[task].op;
    var t := s.(refreshing := s.refreshing - {op.key}, tasks := s.tasks[task := Task(op, false)]);
    forall k | k in t.refreshing
      ensures exists i: nat :: i < |t.tasks| && t.tasks[i].running && t.tasks[i].op.key == k
    {
      var i: nat :| i < |s.tasks| && s.tasks[i].running && s.tasks[i].op.key == k;
      assert t.tasks[i] == s.tasks[i];
    }
  }

  lemma StepKeeps(c: Config, s: State, l: Label)
    requires Inv(c, s) && Enabled(c, s, l)
    ensures Inv(c, Step(c, s, l))
  {
    match l
    case Begin(op, now, off) => BeginKeeps(c, s, op, now, off);
    case Finish(op, raw, environment, now, expireAt) => FinishKeeps(c, s, op, raw, environment, now, expireAt);
    case Refreshed(task, reply, environment, now, expireAt) =>
      var op := s.tasks[task].op;
      if reply.Some? {
        RefreshStoreKeeps(c, s, op, reply.value, environment, now, expireAt);
        RetireKeeps(c, RefreshStore(c, s, op, reply.value, environment, now, expireAt), task);
      } else {
        RetireKeeps(c, s, task);
      }
    case Forget(keys) => DropKeeps(c, s, keys);
  }

  lemma {:induction false} RunKeeps(c: Config, labels: seq<Label>)
    requires Possible(c, labels)
    ensures Inv(c, After(c, labels))
  {
    if labels != [] {
      RunKeeps(c, labels[..|labels| - 1]);
      StepKeeps(c, After(c, labels[..|labels| - 1]), labels[|labels| - 1]);
    }
  }

  // ---------------------------------------------------------------------
  // Rotation and stamping commute
  // ---------------------------------------------------------------------

  /** The condition does not look at times to live. */
  ghost predicate Timeless(p: Record -> bool) { forall r: Record, ttl: nat :: p(r.(ttl := ttl)) == p(r) }

  lemma {:induction false} StampFilters(s: seq<Record>, p: Record -> bool, ttl: nat)
    requires Timeless(p)
    ensures Filter(Stamp(s, ttl), p) == Stamp(Filter(s, p), ttl)
  {
    if s != [] {
      var n := |s| - 1;
      StampFilters(s[..n], p, ttl);
      assert Stamp(s, ttl)[..n] == Stamp(s[..n], ttl);
      assert s[n].(ttl := s[n].ttl) == s[n];
    }
  }

  lemma StampConcat(a: seq<Record>, b: seq<Record>, ttl: nat)
    ensures Stamp(a + b, ttl) == Stamp(a, ttl) + Stamp(b, ttl)
  {
  }

  lemma StampRotates(s: seq<Record>, steps: nat, ttl: nat)
    ensures RoundRobin.Rotate(Stamp(s, ttl), steps) == Stamp(RoundRobin.Rotate(s, steps), ttl)
  {
  }

  lemma StampRotated4(a: seq<Record>, index: nat, ttl: nat)
    ensures RoundRobin.Rotated4(Stamp(a, ttl), index) == Stamp(RoundRobin.Rotated4(a, index), ttl)
  {
    var group, kept := Filter(a, RoundRobin.IsA), Filter(a, RoundRobin.NotTypeA);
    StampFilters(a, RoundRobin.IsA, ttl);
    StampFilters(a, RoundRobin.NotTypeA, ttl);
    StampRotates(group, RoundRobin.NextIndex(index, |group|), ttl);
    StampConcat(kept, RoundRobin.Rotate(group, RoundRobin.NextIndex(index, |group|)), ttl);
  }

  lemma StampRotated6(a: seq<Record>, current: seq<Record>, index: nat, ttl: nat)
    ensures RoundRobin.Rotated6(Stamp(a, ttl), Stamp(current, ttl), index)
         == Stamp(RoundRobin.Rotated6(a, current, index), ttl)
  {
    var group, kept := Filter(a, RoundRobin.IsAAAA), Filter(current, RoundRobin.NotTypeAAAA);
    StampFilters(a, RoundRobin.IsAAAA, ttl);
    StampFilters(current, RoundRobin.NotTypeAAAA, ttl);
    StampRotates(group, RoundRobin.NextIndex(index, |group|), ttl);
    StampConcat(kept, RoundRobin.Rotate(group, RoundRobin.NextIndex(index, |group|)), ttl);
  }

  /** It does not matter whether the times are written before or after the
      rotation. */
  lemma StampLoads(a: seq<Record>, i: RoundRobin.Indices, ttl: nat)
    ensures RoundRobin.Load(Stamp(a, ttl), i).0 == Stamp(RoundRobin.Load(a, i).0, ttl)
  {
    StampRotated4(a, i.v4, ttl);
    StampRotated6(a, RoundRobin.Rotated4(a, i.v4), i.v6, ttl);
  }

  lemma StampTwice(m: Message, t: nat, u: nat)
    ensures Stamped(Stamped(m, t), u) == Stamped(m, u)
  {
  }

  // ---------------------------------------------------------------------
  // Agreement with the timed map
  // ---------------------------------------------------------------------

  lemma TurnedIsRearranged(c: Config, e: Entry, v: Event, now: int, ttl: nat)
    requires EntryMatches(e, v)
    ensures SameButOrder(c, Stamped(v.raw, v.ttl), Turned(c, e))
    ensures SameButOrder(c, Stamped(v.raw, ttl), Stamped(Turned(c, e), ttl))
  {
    StampTwice(v.raw, v.ttl, ttl);
    if c.roundRobin {
      StampLoads(e.msg.answer, e.indices, ttl);
      assert Turned(c, e).answer == RoundRobin.Load(Stamped(v.raw, v.ttl).answer, e.indices).0;
      assert Stamped(Turned(c, e), ttl).answer == RoundRobin.Load(Stamped(v.raw, ttl).answer, e.indices).0;
    }
  }

  /** A lookup serves exactly what the timed map holds at that time. */
  lemma LoadAgrees(c: Config, s: State, key: Key, now: int)
    requires Inv(c, s)
    ensures var out := LoadResponse(c, s, key, now).1;
            && (out.Some? <==> Holds(s.history, key) && !Timed(c, Latest(s.history, key).value, now).Gone?)
            && (out.Some? ==>
                  var e := Latest(s.history, key).value;
                  var v := Timed(c, e, now);
                  && (out.value.stale <==> v.Stale?)
                  && SameButOrder(c, Expected(e, v), out.value.msg))
  {
    if key in s.cache {
      var e, v := s.cache[key], Latest(s.history, key).value;
      assert SoundStore(c, v);
      TurnedIsRearranged(c, e, v, now, 1);
      if now <= e.expireAt { TurnedIsRearranged(c, e, v, now, Remaining(e.expireAt, now)); }
    }
  }

  /** The last store of a key, if nothing dropped it since. */
  ghost predicate LastStore(labels: seq<Label>, c: Config, key: Key, e: Event)
    requires Possible(c, labels)
  {
    Latest(After(c, labels).history, key) == Some(e) && e.Stored?
  }

  /** The message last stored under the key, up to its id, its times to live
      and the order of its addresses. A fresh one expires no later than the
      stored one did, a stale one is served only inside the optimistic window
      and with a time to live of one second. */
  ghost predicate ServedFrom(c: Config, history: seq<Event>, op: Operation, now: int, off: bool, m: Message) {
    exists e: Event, ttl: nat ::
      && Latest(history, op.key) == Some(e) && e.Stored?
      && SameButOrder(c, Stamped(e.raw, ttl).(id := op.id), m)
      && (c.disableExpire ==> ttl == e.ttl)
      && (!c.disableExpire && now <= e.expireAt ==>
            now + ttl * SECOND <= e.now + e.ttl * SECOND < now + ttl * SECOND + SECOND + MILLISECOND)
      && (!c.disableExpire && now > e.expireAt ==> !off && ttl == 1 && now < e.expireAt + c.optimistic)
  }

  /** Every answer served from the cache, after any run. */
  lemma ServedIsLatestStored(c: Config, labels: seq<Label>, op: Operation, now: int, off: bool)
    requires Possible(c, labels)
    requires BeginExchange(c, After(c, labels), op, now, off).1.Some?
    ensures ServedFrom(c, After(c, labels).history, op, now, off,
              BeginExchange(c, After(c, labels), op, now, off).1.value)
  {
    var s := After(c, labels);
    RunKeeps(c, labels);
    LoadAgrees(c, s, op.key, now);
    var e := Latest(s.history, op.key).value;
    assert SoundStore(c, e);
    var v := Timed(c, e, now);
    var ttl := match v case Forever => e.ttl case Fresh(t) => t case Stale => 1;
    var out := LoadResponse(c, s, op.key, now).1.value.msg;
    assert Expected(e, v) == Stamped(e.raw, ttl);
    assert SameButOrder(c, Stamped(e.raw, ttl).(id := op.id), out.(id := op.id));
  }

  /** An exchange goes to the transport exactly when its request may not use the
      cache, or nothing usable is stored: never stored, dropped since, expired
      beyond the window, or expired with optimistic answers refused. */
  lemma MissesExactly(c: Config, labels: seq<Label>, op: Operation, now: int, off: bool)
    requires Possible(c, labels)
    ensures var s := After(c, labels);
            BeginExchange(c, s, op, now, off).1.None? <==>
              || !op.cacheable
              || !Holds(s.history, op.key)
              || Timed(c, Latest(s.history, op.key).value, now).Gone?
              || (Timed(c, Latest(s.history, op.key).value, now).Stale? && off)
  {
    RunKeeps(c, labels);
    var s := After(c, labels);
    LoadAgrees(c, s, op.key, now);
    if Holds(s.history, op.key) { assert SoundStore(c, Latest(s.history, op.key).value); }
  }

  lemma OneMore(c: Config, labels: seq<Label>, l: Label)
    requires Possible(c, labels) && Enabled(c, After(c, labels), l)
    ensures Possible(c, labels + [l]) && After(c, labels + [l]) == Step(c, After(c, labels), l)
  {
    assert (labels + [l])[..|labels|] == labels;
  }

  /** Whatever sits in the cache after any run came from an operation allowed to
      use the cache, is a positive or a name-error response that passed the
      checker of that operation, lives for a positive time worked out from the
      response, and is keyed by the operation's own key: its environment may
      have been unknown at the start but is otherwise the one stored under. */
  lemma CachedEntriesAreSound(c: Config, labels: seq<Label>, key: Key)
    requires Possible(c, labels) && key in After(c, labels).cache
    ensures exists e: Event ::
              && LastStore(labels, c, key, e) && SoundStore(c, e)
              && After(c, labels).cache[key].msg == Stamped(e.raw, e.ttl)
              && Usable(After(c, labels).cache[key].msg)
  {
    RunKeeps(c, labels);
    var e := Latest(After(c, labels).history, key).value;
    assert LastStore(labels, c, key, e) && SoundStore(c, e);
  }

  /** At any time at most one background refresh runs per key. */
  lemma RefreshesAreUnique(c: Config, labels: seq<Label>, i: nat, j: nat)
    requires Possible(c, labels)
    requires i < |After(c, labels).tasks| && j < |After(c, labels).tasks|
    requires After(c, labels).tasks[i].running && After(c, labels).tasks[j].running
    requires After(c, labels).tasks[i].op.key == After(c, labels).tasks[j].op.key
    ensures i == j
  {
    RunKeeps(c, labels);
  }

  /** What rotation leaves of an answer: the other records in their order and,
      with kinds and types in agreement, the same records overall. */
  lemma RearrangedRecords(c: Config, a: seq<Record>, b: seq<Record>)
    requires Rearranged(c, a, b) && RoundRobin.WellTyped(a)
    ensures multiset(a) == multiset(b)
    ensures Filter(a, RoundRobin.IsOther) == Filter(b, RoundRobin.IsOther)
  {
    if c.roundRobin {
      var i :| b == RoundRobin.Load(a, i).0;
      RoundRobin.WellTypedIsPermuted(a, i);
      RoundRobin.LoadParts(a, i);
    }
  }
}

/** The in-memory response cache of the DNS client.

    The underlying table may forget any entries at any time; everything else it
    does is modelled: what a finished exchange or a background refresh stores,
    what a lookup serves at a given time, and which entries are removed. Times
    are nanoseconds of the wall clock, which may jump in either direction. */
module DnsCache {
  import opened Optional
  import opened DnsMessage
  import opened TimeToLive
  import RoundRobin

  const SECOND: int := 1_000_000_000
  const MILLISECOND: int := 1_000_000

  /** `environment` is a fingerprint of the network the transport works in, 0
      when there is none. */
  datatype Key = Key(question: nat, transport: string, subnet: Option<nat>, environment: nat)

  /** `accepts` says whether a response checker, known by its number, accepts a
      response. */
  datatype Config = Config(
    cacheOff: bool,
    disableExpire: bool,
    optimistic: nat,
    roundRobin: bool,
    bounds: Bounds,
    accepts: (nat, Message) -> bool)

  /** One exchange: whether its request may use the cache at all, its key, its
      checker, the rewritten time to live and the id of its request. */
  datatype Operation = Operation(cacheable: bool, key: Key, checker: Option<nat>, rewrite: Option<nat>, id: nat)

  datatype Entry = Entry(msg: Message, expireAt: int, indices: RoundRobin.Indices)

  datatype Task = Task(op: Operation, running: bool)

  /** What happened to the table, in order. */
  datatype Event =
    | Stored(key: Key, op: Operation, raw: Message, ttl: nat, now: int, expireAt: int)
    | Dropped(keys: set<Key>)

  datatype State = State(
    cache: map<Key, Entry>,
    refreshing: set<Key>,
    tasks: seq<Task>,
    history: seq<Event>)

  function Init(): State { State(map[], {}, [], []) }

  // ---------------------------------------------------------------------
  // Storing
  // ---------------------------------------------------------------------

  predicate Usable(m: Message) { m.rcode == RCODE_SUCCESS || m.rcode == RCODE_NAME_ERROR }

  predicate Rejected(c: Config, op: Operation, m: Message) {
    op.checker.Some? && (!Usable(m) || !c.accepts(op.checker.value, m))
  }

  /** The key to store under: the environment may be filled in, not changed. */
  function FinishKey(key: Key, environment: nat): Option<Key> {
    if environment == key.environment || key.environment == 0 then Some(key.(environment := environment)) else None
  }

  function StoreCache(c: Config, s: State, key: Key, op: Operation, raw: Message, ttl: nat, now: int,
                      expireAt: int): State {
    if ttl == 0 || c.cacheOff then s
    else s.(cache := s.cache[key := Entry(Stamped(raw, ttl), expireAt, RoundRobin.Indices(0, 0))],
            history := s.history + [Stored(key, op, raw, ttl, now, expireAt)])
  }

  datatype Answer = Refused | Answered(message: Message)

  /** The end of an exchange, given the response of the transport, the network
      environment, the time and the expiry time the table works out. */
  function FinishExchange(c: Config, s: State, op: Operation, raw: Message, environment: nat, now: int,
                          expireAt: int): (State, Answer) {
    if Rejected(c, op, raw) then (s, Refused)
    else
      var ttl := FinalTTL(raw, c.bounds, op.rewrite);
      var key := FinishKey(op.key, environment);
      (if op.cacheable && !c.cacheOff && Usable(raw) && key.Some? then
         StoreCache(c, s, key.value, op, raw, ttl, now, expireAt)
       else s,
       Answered(Stamped(raw, ttl).(id := op.id)))
  }

  /** The store of a background refresh. */
  function RefreshStore(c: Config, s: State, op: Operation, raw: Message, environment: nat, now: int,
                        expireAt: int): State {
    if (if op.checker.Some? then Rejected(c, op, raw) else !Usable(raw)) then s
    else
      var key := FinishKey(op.key, environment);
      if key.None? then s
      else StoreCache(c, s, key.value, op, raw, FinalTTL(raw, c.bounds, op.rewrite), now, expireAt)
  }

  /** A background refresh stores what the exchange itself would have stored. */
  lemma RefreshStoresLikeExchange(c: Config, s: State, op: Operation, raw: Message, environment: nat, now: int,
                                  expireAt: int)
    requires op.cacheable && !c.cacheOff
    ensures RefreshStore(c, s, op, raw, environment, now, expireAt)
         == FinishExchange(c, s, op, raw, environment, now, expireAt).0
  {
  }

  // ---------------------------------------------------------------------
  // Loading
  // ---------------------------------------------------------------------

  datatype Served = Served(msg: Message, stale: bool)

  function Turned(c: Config, e: Entry): Message {
    if c.roundRobin then e.msg.(answer := RoundRobin.Load(e.msg.answer, e.indices).0) else e.msg
  }

  /** Reading an entry advances its rotation. */
  function Advance(c: Config, s: State, key: Key): State
    requires key in s.cache
  {
    var e := s.cache[key];
    if c.roundRobin then
      s.(cache := s.cache[key := e.(indices := RoundRobin.Load(e.msg.answer, e.indices).1)])
    else s
  }

  function Drop(s: State, keys: set<Key>): State {
    s.(cache := s.cache - keys, history := s.history + [Dropped(keys)])
  }

  function Remaining(expireAt: int, now: int): nat
    requires now <= expireAt
  {
    (expireAt - now) / SECOND
  }

  function LoadResponse(c: Config, s: State, key: Key, now: int): (State, Option<Served>) {
    if c.cacheOff || key !in s.cache then (s, None)
    else
      var e := s.cache[key];
      if c.disableExpire then (Advance(c, s, key), Some(Served(Turned(c, e), false)))
      else if now > e.expireAt then
        if c.optimistic > 0 && now < e.expireAt + c.optimistic then
          (Advance(c, s, key), Some(Served(Stamped(Turned(c, e), 1), true)))
        else (Drop(s, {key}), None)
      else (Advance(c, s, key), Some(Served(Stamped(Turned(c, e), Remaining(e.expireAt, now)), false)))
  }

  /** Start a background refresh unless one runs for the key. */
  function Spawn(s: State, op: Operation): State {
    if op.key in s.refreshing then s
    else s.(refreshing := s.refreshing + {op.key}, tasks := s.tasks + [Task(op, true)])
  }

  /** The cache part of the beginning of an exchange. */
  function BeginExchange(c: Config, s: State, op: Operation, now: int, optimisticOff: bool): (State, Option<Message>) {
    if !op.cacheable || c.cacheOff then (s, None)
    else
      var (t, served) := LoadResponse(c, s, op.key, now);
      if served.None? || (served.value.stale && optimisticOff) then (t, None)
      else (if served.value.stale then Spawn(t, op) else t, Some(served.value.msg.(id := op.id)))
  }

  function EndRefresh(c: Config, s: State, task: nat, reply: Option<Message>, environment: nat, now: int,
                      expireAt: int): State
    requires task < |s.tasks|
  {
    var op := s.tasks[task].op;
    var t := if reply.Some? then RefreshStore(c, s, op, reply.value, environment, now, expireAt) else s;
    t.(refreshing := t.refreshing - {op.key}, tasks := t.tasks[task := Task(op, false)])
  }

  // ---------------------------------------------------------------------
  // Runs
  // ---------------------------------------------------------------------

  datatype Label =
    | Begin(op: Operation, begun: int, optimisticOff: bool)
    | Finish(finished: Operation, raw: Message, environment: nat, now: int, expireAt: int)
    | Refreshed(task: nat, reply: Option<Message>, environment: nat, now: int, expireAt: int)
    | Forget(keys: set<Key>)

  /** The table rounds expiry times down to milliseconds. */
  predicate Expiry(now: int, ttl: nat, expireAt: int) {
    now + ttl * SECOND - MILLISECOND < expireAt <= now + ttl * SECOND
  }

  predicate Enabled(c: Config, s: State, l: Label) {
    match l
    case Begin(_, _, _) => true
    case Finish(op, raw, _, now, expireAt) => Expiry(now, FinalTTL(raw, c.bounds, op.rewrite), expireAt)
    case Refreshed(task, reply, _, now, expireAt) =>
      && task < |s.tasks| && s.tasks[task].running
      && (reply.Some? ==> Expiry(now, FinalTTL(reply.value, c.bounds, s.tasks[task].op.rewrite), expireAt))
    case Forget(_) => true
  }

  function Step(c: Config, s: State, l: Label): State
    requires Enabled(c, s, l)
  {
    match l
    case Begin(op, now, off) => BeginExchange(c, s, op, now, off).0
    case Finish(op, raw, environment, now, expireAt) => FinishExchange(c, s, op, raw, environment, now, expireAt).0
    case Refreshed(task, reply, environment, now, expireAt) => EndRefresh(c, s, task, reply, environment, now, expireAt)
    case Forget(keys) => Drop(s, keys)
  }

  /** The labels can be performed one after the other from the empty cache. */
  predicate Possible(c: Config, labels: seq<Label>)
    decreases |labels|, 0
  {
    labels == [] ||
    (Possible(c, labels[..|labels| - 1]) && Enabled(c, After(c, labels[..|labels| - 1]), labels[|labels| - 1]))
  }

  function After(c: Config, labels: seq<Label>): State
    requires Possible(c, labels)
    decreases |labels|, 1
  {
    if labels == [] then Init() else Step(c, After(c, labels[..|labels| - 1]), labels[|labels| - 1])
  }
}

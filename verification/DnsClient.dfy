/** The DNS client's cache code, step by step, proved against the model of the
    response cache. `run` records the operations of a client, so what is proved
    of every run holds of what it answers. */
module DnsClient {
  import opened Optional
  import opened DnsMessage
  import opened TimeToLive
  import opened DnsCache
  import CacheServing
  import CacheTheorems
  import RoundRobin

  class Client {
    const config: Config
    var cache: map<Key, Entry>
    var refreshing: set<Key>
    var tasks: seq<Task>
    ghost var history: seq<Event>
    ghost var run: seq<Label>

    ghost function Model(): State
      reads this
    {
      State(cache, refreshing, tasks, history)
    }

    ghost predicate Valid()
      reads this
    {
      Possible(config, run) && Model() == After(config, run)
    }

    constructor (config: Config)
      ensures this.config == config && Valid() && run == []
    {
      this.config := config;
      cache, refreshing, tasks, history, run := map[], {}, [], [], [];
    }

    method Store(key: Key, op: Operation, raw: Message, message: Message, ttl: nat, now: int, expireAt: int)
      requires message == Stamped(raw, ttl)
      modifies this`cache, this`history
      ensures Model() == StoreCache(config, old(Model()), key, op, raw, ttl, now, expireAt)
      ensures cache == if ttl == 0 || config.cacheOff then old(cache)
                       else old(cache)[key := Entry(message, expireAt, RoundRobin.Indices(0, 0))]
    {
      if ttl == 0 {
        return;
      }
      if config.cacheOff {
        return;
      }
      cache := cache[key := Entry(message, expireAt, RoundRobin.Indices(0, 0))];
      history := history + [Stored(key, op, raw, ttl, now, expireAt)];
    }

    method Forget(keys: set<Key>)
      modifies this`cache, this`history
      ensures Model() == Drop(old(Model()), keys)
    {
      cache := cache - keys;
      history := history + [Dropped(keys)];
    }

    /** A copy of the cached message, rotated when configured. */
    method Read(key: Key) returns (m: Message)
      requires key in cache
      modifies this`cache, this`history
      ensures m == Turned(config, old(cache[key]))
      ensures Model() == Advance(config, old(Model()), key)
    {
      var e := cache[key];
      m := e.msg;
      if config.roundRobin {
        var answer, next := RoundRobin.ApplyRoundRobin(m.answer, e.indices);
        m := m.(answer := answer);
        cache := cache[key := e.(indices := next)];
      }
    }

    method Load(key: Key, now: int) returns (served: Option<Served>)
      modifies this`cache, this`history
      ensures (Model(), served) == LoadResponse(config, old(Model()), key, now)
    {
      if config.cacheOff || key !in cache {
        return None;
      }
      var expireAt := cache[key].expireAt;
      if config.disableExpire {
        var m := Read(key);
        return Some(Served(m, false));
      }
      if now > expireAt {
        if config.optimistic > 0 && now < expireAt + config.optimistic {
          var m := Read(key);
          m := Restamp(m, 1);
          return Some(Served(m, true));
        }
        Forget({key});
        return None;
      }
      var m := Read(key);
      m := Restamp(m, (expireAt - now) / SECOND);
      return Some(Served(m, false));
    }

    method BackgroundRefresh(op: Operation)
      modifies this`refreshing, this`tasks
      ensures Model() == Spawn(old(Model()), op)
    {
      if op.key in refreshing {
        return;
      }
      refreshing := refreshing + {op.key};
      tasks := tasks + [Task(op, true)];
    }

    /** The cache part of the beginning of an exchange: the answer is the reply
        that stands under the key, if there is one. */
    method Begin(op: Operation, now: int, optimisticOff: bool) returns (answer: Option<Message>)
      requires Valid()
      modifies this
      ensures Valid() && run == old(run) + [Label.Begin(op, now, optimisticOff)]
      ensures answer == BeginExchange(config, old(Model()), op, now, optimisticOff).1
      ensures answer.Some? ==> CacheTheorems.ServedFrom(config, old(history), op, now, optimisticOff, answer.value)
      ensures answer.Some? ==> op.cacheable && exists i :: CacheServing.Stands(config, old(run), i, op.key)
      ensures forall i :: op.cacheable && CacheServing.Stands(config, old(run), i, op.key) ==>
                CacheServing.ServedAs(config, old(run), i, op, now, optimisticOff, answer)
    {
      forall i | op.cacheable && CacheServing.Stands(config, run, i, op.key)
        ensures CacheServing.ServedAs(config, run, i, op, now, optimisticOff,
                                      BeginExchange(config, Model(), op, now, optimisticOff).1)
      {
        CacheServing.ServesWhatStands(config, run, i, op, now, optimisticOff);
      }
      CacheTheorems.OneMore(config, run, Label.Begin(op, now, optimisticOff));
      answer := Lookup(op, now, optimisticOff);
      if answer.Some? {
        CacheTheorems.ServedIsLatestStored(config, run, op, now, optimisticOff);
        CacheServing.ServesNothingElse(config, run, op, now, optimisticOff);
      }
      run := run + [Label.Begin(op, now, optimisticOff)];
    }

    method Lookup(op: Operation, now: int, optimisticOff: bool) returns (answer: Option<Message>)
      modifies this`cache, this`history, this`refreshing, this`tasks
      ensures (Model(), answer) == BeginExchange(config, old(Model()), op, now, optimisticOff)
    {
      if !op.cacheable || config.cacheOff {
        return None;
      }
      var served := Load(op.key, now);
      if served.Some? {
        if served.value.stale && !optimisticOff {
          BackgroundRefresh(op);
          return Some(served.value.msg.(id := op.id));
        } else if !served.value.stale {
          return Some(served.value.msg.(id := op.id));
        }
      }
      return None;
    }

    /** The table forgets entries, or the cache is cleared. */
    method Clear(keys: set<Key>)
      requires Valid()
      modifies this
      ensures Valid() && run == old(run) + [Label.Forget(keys)]
    {
      CacheTheorems.OneMore(config, run, Label.Forget(keys));
      Forget(keys);
      run := run + [Label.Forget(keys)];
    }

    method Finish(op: Operation, raw: Message, environment: nat, now: int, expireAt: int) returns (answer: Answer)
      requires Valid() && Expiry(now, FinalTTL(raw, config.bounds, op.rewrite), expireAt)
      modifies this
      ensures Valid() && run == old(run) + [Label.Finish(op, raw, environment, now, expireAt)]
      ensures answer == FinishExchange(config, old(Model()), op, raw, environment, now, expireAt).1
      ensures CacheServing.Keeping(config, old(Model()), Model(), op, raw, environment, expireAt)
    {
      CacheServing.ReplyIsKept(config, run, Label.Finish(op, raw, environment, now, expireAt));
      CacheTheorems.OneMore(config, run, Label.Finish(op, raw, environment, now, expireAt));
      run := run + [Label.Finish(op, raw, environment, now, expireAt)];
      var disableCache := !op.cacheable || config.cacheOff || !Usable(raw);
      if op.checker.Some? {
        var rejected := true;
        if Usable(raw) {
          rejected := !config.accepts(op.checker.value, raw);
        }
        if rejected {
          return Refused;
        }
      }
      var ttl, response := ApplyResponseOptions(raw, config.bounds, op.rewrite);
      if !disableCache {
        var key := FinishKey(op.key, environment);
        if key.Some? {
          Store(key.value, op, raw, response, ttl, now, expireAt);
        }
      }
      return Answered(response.(id := op.id));
    }

    method Refresh(task: nat, reply: Option<Message>, environment: nat, now: int, expireAt: int)
      requires Valid() && Enabled(config, Model(), Refreshed(task, reply, environment, now, expireAt))
      modifies this
      ensures Valid() && run == old(run) + [Refreshed(task, reply, environment, now, expireAt)]
      ensures reply.Some? ==>
                CacheServing.Keeping(config, old(Model()), Model(), old(tasks[task].op), reply.value, environment,
                                     expireAt)
      ensures reply.None? ==> cache == old(cache)
    {
      CacheServing.ReplyIsKept(config, run, Refreshed(task, reply, environment, now, expireAt));
      CacheTheorems.OneMore(config, run, Refreshed(task, reply, environment, now, expireAt));
      run := run + [Refreshed(task, reply, environment, now, expireAt)];
      var op := tasks[task].op;
      if reply.Some? {
        RefreshReply(op, reply.value, environment, now, expireAt);
      }
      refreshing := refreshing - {op.key};
      tasks := tasks[task := Task(op, false)];
    }

    method RefreshReply(op: Operation, raw: Message, environment: nat, now: int, expireAt: int)
      modifies this`cache, this`history
      ensures Model() == RefreshStore(config, old(Model()), op, raw, environment, now, expireAt)
    {
      if op.checker.Some? {
        if !Usable(raw) || !config.accepts(op.checker.value, raw) {
          return;
        }
      } else if !Usable(raw) {
        return;
      }
      var key := FinishKey(op.key, environment);
      if key.None? {
        return;
      }
      var ttl, response := ApplyResponseOptions(raw, config.bounds, op.rewrite);
      Store(key.value, op, raw, response, ttl, now, expireAt);
    }
  }
}

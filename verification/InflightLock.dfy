/** The per-key lock that lets one exchange at a time ask the transport while
    others wait for its answer.

    Any number of requests are under way at once. A synchronous request runs on
    its caller's thread. An asynchronous one begins on its caller's thread, which
    calls back itself, or leaves the request to a goroutine that waits, or to the
    callback given to the transport. The lock table maps a key to a channel; the
    thread that put the channel there owns it and, when it is done, first deletes
    the key and then closes the channel. Each access to the table or to a channel
    and each reply is one step. */
module InflightLock {
  import opened Optional

  type Key = nat

  datatype Lock = Lock(key: Key, channel: nat)

  /** How an exchange came to its end: without the transport, or by its error, or
      by its answer. */
  datatype Ending = Early | Failed | Answered

  datatype Phase =
    | Begun                                          // about to consult the lock table
    | Waiting(channel: nat)                          // for the channel to be closed
    | Checking(owned: Option<Lock>)                  // cache, loopback and rejection checks
    | Exchanging(owned: Option<Lock>)                // the transport has the query
    | Releasing(owned: Option<Lock>, ending: Ending) // about to delete the key
    | Closing(lock: Lock, ending: Ending)            // key deleted, channel to be closed
    | Leaving(ending: Ending)                        // about to return or call back
    | Done

  /** The thread of a synchronous call, the caller of an asynchronous one, the
      goroutine that waits in its place, and the transport calling `finish`. */
  datatype Role = Direct | First | Second | Finisher

  datatype Thread = Thread(request: nat, role: Role, phase: Phase)

  /** `bearer` is the thread the request was last left to; `replies` counts
      returns to the caller, or calls of the callback. */
  datatype Request = Request(cacheable: bool, bearer: nat, replies: nat)

  /** A channel: how often it was closed and which request put it in the table. */
  datatype Channel = Channel(closes: nat, maker: nat)

  datatype State = State(locks: map<Key, nat>, channels: seq<Channel>, threads: seq<Thread>, requests: seq<Request>)

  function Init(): State { State(map[], [], [], []) }

  datatype Label =
    | Call(cacheable: bool, async: bool)
    | Acquire(t: nat, key: Key)   // LoadOrStore, or nothing when not cacheable
    | Refuse(t: nat)              // bad question or strategy: answered at once
    | Wake(t: nat)
    | Cancel(t: nat)              // the context of a waiting exchange is done
    | Settle(t: nat)              // served from the cache, loopback or known rejection
    | Send(t: nat)
    | Fail(t: nat)                // the transport failed
    | Answer(t: nat)              // the transport answered
    | Delete(t: nat)
    | Close(t: nat)
    | Return(t: nat)              // a synchronous exchange returns
    | CallEarly(t: nat)           // the asynchronous caller has the answer already
    | CallWaited(t: nat)          // the goroutine's own exchange returned
    | CallFailed(t: nat)          // finish with the transport's error
    | CallAnswered(t: nat)        // finish with the transport's answer

  predicate Replies(l: Label) { l.Return? || l.CallEarly? || l.CallWaited? || l.CallFailed? || l.CallAnswered? }

  predicate Enabled(s: State, l: Label) {
    if l.Call? then true
    else if l.t >= |s.threads| || s.threads[l.t].request >= |s.requests| then false
    else
      var p, role := s.threads[l.t].phase, s.threads[l.t].role;
      match l
      case Acquire(_, _) => p.Begun?
      case Refuse(_) => p.Begun?
      case Wake(_) => p.Waiting? && p.channel < |s.channels| && s.channels[p.channel].closes > 0
      case Cancel(_) => p.Waiting?
      case Settle(_) => p.Checking?
      case Send(_) => p.Checking?
      case Fail(_) => p.Exchanging?
      case Answer(_) => p.Exchanging?
      case Delete(_) => p.Releasing?
      case Close(_) => p.Closing? && p.lock.channel < |s.channels|
      case Return(_) => p.Leaving? && role.Direct?
      case CallEarly(_) => p == Leaving(Early) && role.First?
      case CallWaited(_) => p.Leaving? && role.Second?
      case CallFailed(_) => p == Leaving(Failed) && role.Finisher?
      case CallAnswered(_) => p == Leaving(Answered) && role.Finisher?
  }

  function Move(s: State, t: nat, p: Phase): State
    requires t < |s.threads|
  {
    s.(threads := s.threads[t := s.threads[t].(phase := p)])
  }

  /** The thread ends and leaves its request to a new one. */
  function LeaveTo(s: State, t: nat, role: Role, p: Phase): State
    requires t < |s.threads| && s.threads[t].request < |s.requests|
  {
    var r := s.threads[t].request;
    s.(threads := s.threads[t := s.threads[t].(phase := Done)] + [Thread(r, role, p)],
       requests := s.requests[r := s.requests[r].(bearer := |s.threads|)])
  }

  function CallStep(s: State, cacheable: bool, async: bool): State {
    s.(threads := s.threads + [Thread(|s.requests|, if async then First else Direct, Begun)],
       requests := s.requests + [Request(cacheable, |s.threads|, 0)])
  }

  function StoreStep(s: State, t: nat, key: Key): State
    requires t < |s.threads|
  {
    var n := |s.channels|;
    s.(locks := s.locks[key := n], channels := s.channels + [Channel(0, s.threads[t].request)],
       threads := s.threads[t := s.threads[t].(phase := Checking(Some(Lock(key, n))))])
  }

  function AcquireStep(s: State, t: nat, key: Key): State
    requires t < |s.threads| && s.threads[t].request < |s.requests|
  {
    if !s.requests[s.threads[t].request].cacheable then Move(s, t, Checking(None))
    else if key !in s.locks then StoreStep(s, t, key)
    else if s.threads[t].role.First? then LeaveTo(s, t, Second, Begun)
    else Move(s, t, Waiting(s.locks[key]))
  }

  function SendStep(s: State, t: nat): State
    requires t < |s.threads| && s.threads[t].request < |s.requests| && s.threads[t].phase.Checking?
  {
    var p := Exchanging(s.threads[t].phase.owned);
    if s.threads[t].role.First? then LeaveTo(s, t, Finisher, p) else Move(s, t, p)
  }

  function DeleteStep(s: State, t: nat): State
    requires t < |s.threads| && s.threads[t].phase.Releasing?
  {
    match s.threads[t].phase
    case Releasing(None, ending) => Move(s, t, Leaving(ending))
    case Releasing(Some(lock), ending) => Move(s.(locks := s.locks - {lock.key}), t, Closing(lock, ending))
  }

  function CloseStep(s: State, t: nat): State
    requires t < |s.threads| && s.threads[t].phase.Closing? && s.threads[t].phase.lock.channel < |s.channels|
  {
    var ch := s.threads[t].phase.lock.channel;
    Move(s.(channels := s.channels[ch := s.channels[ch].(closes := s.channels[ch].closes + 1)]),
         t, Leaving(s.threads[t].phase.ending))
  }

  function ReplyStep(s: State, t: nat): State
    requires t < |s.threads| && s.threads[t].request < |s.requests|
  {
    var r := s.threads[t].request;
    Move(s.(requests := s.requests[r := s.requests[r].(replies := s.requests[r].replies + 1)]), t, Done)
  }

  function Step(s: State, l: Label): State
    requires Enabled(s, l)
  {
    match l
    case Call(cacheable, async) => CallStep(s, cacheable, async)
    case Acquire(t, key) => AcquireStep(s, t, key)
    case Refuse(t) => Move(s, t, Leaving(Early))
    case Wake(t) => Move(s, t, Checking(None))
    case Cancel(t) => Move(s, t, Leaving(Early))
    case Settle(t) => Move(s, t, Releasing(s.threads[t].phase.owned, Early))
    case Send(t) => SendStep(s, t)
    case Fail(t) => Move(s, t, Releasing(s.threads[t].phase.owned, Failed))
    case Answer(t) => Move(s, t, Releasing(s.threads[t].phase.owned, Answered))
    case Delete(t) => DeleteStep(s, t)
    case Close(t) => CloseStep(s, t)
    case _ => ReplyStep(s, l.t)
  }

  predicate Possible(labels: seq<Label>)
    decreases |labels|, 0
  {
    labels == [] ||
    (Possible(labels[..|labels| - 1]) && Enabled(After(labels[..|labels| - 1]), labels[|labels| - 1]))
  }

  function After(labels: seq<Label>): State
    requires Possible(labels)
    decreases |labels|, 1
  {
    if labels == [] then Init() else Step(After(labels[..|labels| - 1]), labels[|labels| - 1])
  }

  // ---------------------------------------------------------------------
  // The invariant
  // ---------------------------------------------------------------------

  /** The lock whose key the thread has still to delete. */
  function Held(p: Phase): Option<Lock> {
    match p
    case Checking(owned) => owned
    case Exchanging(owned) => owned
    case Releasing(owned, _) => owned
    case _ => None
  }

  /** The lock whose channel the thread has still to close. */
  function Owed(p: Phase): Option<Lock> { if p.Closing? then Some(p.lock) else Held(p) }

  predicate OwnsKey(s: State, k: Key, t: nat) {
    k in s.locks && t < |s.threads| && Held(s.threads[t].phase) == Some(Lock(k, s.locks[k]))
  }

  predicate OwesChannel(s: State, ch: nat, t: nat) {
    t < |s.threads| && Owed(s.threads[t].phase).Some? && Owed(s.threads[t].phase).value.channel == ch
  }

  /** Where a thread can be, by its role. */
  predicate Fits(role: Role, p: Phase) {
    match role
    case First => !p.Waiting? && !p.Exchanging? && (p.Releasing? || p.Closing? || p.Leaving? ==> p.ending == Early)
    case Finisher => p.Exchanging? || p.Done? || ((p.Releasing? || p.Closing? || p.Leaving?) && p.ending != Early)
    case _ => true
  }

  /** A thread that is not done is the one its request was left to, and nobody
      has replied; what it holds is in the table, and what it owes is an open
      channel of its request. */
  predicate ThreadInv(s: State, t: nat)
    requires t < |s.threads|
  {
    var x := s.threads[t];
    && x.request < |s.requests| && Fits(x.role, x.phase)
    && (!x.phase.Done? ==> s.requests[x.request].bearer == t)
    && (Held(x.phase).Some? ==> OwnsKey(s, Held(x.phase).value.key, t))
    && (Owed(x.phase).Some? ==>
          && Owed(x.phase).value.channel < |s.channels|
          && s.channels[Owed(x.phase).value.channel] == Channel(0, x.request))
    && (x.phase.Waiting? ==> x.phase.channel < |s.channels|)
  }

  /** A request has been replied to, once, when its last thread is done. */
  predicate RequestInv(s: State, r: nat)
    requires r < |s.requests|
  {
    var q := s.requests[r];
    && q.bearer < |s.threads| && s.threads[q.bearer].request == r
    && q.replies == (if s.threads[q.bearer].phase.Done? then 1 else 0)
  }

  /** A channel is closed once or owed by its maker. */
  predicate ChannelInv(s: State, ch: nat)
    requires ch < |s.channels|
  {
    var c := s.channels[ch];
    && c.maker < |s.requests|
    && (c.closes == 1 || (c.closes == 0 && OwesChannel(s, ch, s.requests[c.maker].bearer)))
  }

  /** A key in the table is held by the maker of its channel. */
  predicate TableInv(s: State, k: Key)
    requires k in s.locks
  {
    && s.locks[k] < |s.channels| && s.channels[s.locks[k]].maker < |s.requests|
    && OwnsKey(s, k, s.requests[s.channels[s.locks[k]].maker].bearer)
  }

  predicate Inv(s: State) {
    && (forall t: nat :: t < |s.threads| ==> ThreadInv(s, t))
    && (forall r: nat :: r < |s.requests| ==> RequestInv(s, r))
    && (forall ch: nat :: ch < |s.channels| ==> ChannelInv(s, ch))
    && (forall k :: k in s.locks ==> TableInv(s, k))
  }

  lemma CallKeeps(s: State, cacheable: bool, async: bool)
    requires Inv(s)
    ensures Inv(CallStep(s, cacheable, async))
  {
    var u := CallStep(s, cacheable, async);
    forall t: nat | t < |u.threads| ensures ThreadInv(u, t) { if t < |s.threads| { assert ThreadInv(s, t); } }
    forall r: nat | r < |u.requests| ensures RequestInv(u, r) { if r < |s.requests| { assert RequestInv(s, r); } }
    forall ch: nat | ch < |u.channels| ensures ChannelInv(u, ch) { assert ChannelInv(s, ch); }
    forall k | k in u.locks ensures TableInv(u, k) { assert TableInv(s, k); }
  }

  /** A move that keeps what the thread holds and owes. */
  lemma MoveKeeps(s: State, t: nat, p: Phase)
    requires Inv(s) && t < |s.threads| && !s.threads[t].phase.Done? && !p.Done? && Fits(s.threads[t].role, p)
    requires Held(p) == Held(s.threads[t].phase) && Owed(p) == Owed(s.threads[t].phase)
    requires p.Waiting? ==> p.channel < |s.channels|
    ensures Inv(Move(s, t, p))
  {
    var u := Move(s, t, p);
    forall i: nat | i < |u.threads| ensures ThreadInv(u, i) { assert ThreadInv(s, i); }
    forall r: nat | r < |u.requests| ensures RequestInv(u, r) { assert RequestInv(s, r); }
    forall ch: nat | ch < |u.channels| ensures ChannelInv(u, ch) { assert ChannelInv(s, ch); }
    forall k | k in u.locks ensures TableInv(u, k) { assert TableInv(s, k); }
  }

  lemma LeaveToKeeps(s: State, t: nat, role: Role, p: Phase)
    requires Inv(s) && t < |s.threads| && s.threads[t].request < |s.requests| && !s.threads[t].phase.Done?
    requires !p.Done? && !p.Waiting? && Fits(role, p)
    requires Held(p) == Held(s.threads[t].phase) && Owed(p) == Owed(s.threads[t].phase)
    ensures Inv(LeaveTo(s, t, role, p))
  {
    var u := LeaveTo(s, t, role, p);
    assert ThreadInv(s, t);
    forall i: nat | i < |u.threads| ensures ThreadInv(u, i) { if i < |s.threads| { assert ThreadInv(s, i); } }
    forall r: nat | r < |u.requests| ensures RequestInv(u, r) { assert RequestInv(s, r); }
    forall ch: nat | ch < |u.channels| ensures ChannelInv(u, ch) { assert ChannelInv(s, ch); }
    forall k | k in u.locks ensures TableInv(u, k) { assert TableInv(s, k); }
  }

  lemma ReplyKeeps(s: State, t: nat)
    requires Inv(s) && t < |s.threads| && s.threads[t].request < |s.requests| && s.threads[t].phase.Leaving?
    ensures Inv(ReplyStep(s, t))
  {
    var u := ReplyStep(s, t);
    assert ThreadInv(s, t);
    forall i: nat | i < |u.threads| ensures ThreadInv(u, i) { assert ThreadInv(s, i); }
    forall r: nat | r < |u.requests| ensures RequestInv(u, r) { assert RequestInv(s, r); }
    forall ch: nat | ch < |u.channels| ensures ChannelInv(u, ch) { assert ChannelInv(s, ch); }
    forall k | k in u.locks ensures TableInv(u, k) { assert TableInv(s, k); }
  }

  lemma StoreKeeps(s: State, t: nat, key: Key)
    requires Inv(s) && t < |s.threads| && s.threads[t].phase.Begun? && key !in s.locks
    ensures Inv(StoreStep(s, t, key))
  {
    var u := StoreStep(s, t, key);
    assert ThreadInv(s, t);
    forall i: nat | i < |u.threads| ensures ThreadInv(u, i) { assert ThreadInv(s, i); }
    forall r: nat | r < |u.requests| ensures RequestInv(u, r) { assert RequestInv(s, r); }
    forall ch: nat | ch < |u.channels| ensures ChannelInv(u, ch) { if ch < |s.channels| { assert ChannelInv(s, ch); } }
    forall k | k in u.locks ensures TableInv(u, k) { if k != key { assert TableInv(s, k); } }
  }

  lemma AcquireKeeps(s: State, t: nat, key: Key)
    requires Inv(s) && t < |s.threads| && s.threads[t].request < |s.requests| && s.threads[t].phase.Begun?
    ensures Inv(AcquireStep(s, t, key))
  {
    assert ThreadInv(s, t);
    if !s.requests[s.threads[t].request].cacheable {
      MoveKeeps(s, t, Checking(None));
    } else if key !in s.locks {
      StoreKeeps(s, t, key);
    } else if s.threads[t].role.First? {
      LeaveToKeeps(s, t, Second, Begun);
    } else {
      assert TableInv(s, key);
      MoveKeeps(s, t, Waiting(s.locks[key]));
    }
  }

  lemma SendKeeps(s: State, t: nat)
    requires Inv(s) && t < |s.threads| && s.threads[t].request < |s.requests| && s.threads[t].phase.Checking?
    ensures Inv(SendStep(s, t))
  {
    assert ThreadInv(s, t);
    var p := Exchanging(s.threads[t].phase.owned);
    if s.threads[t].role.First? { LeaveToKeeps(s, t, Finisher, p); } else { MoveKeeps(s, t, p); }
  }

  lemma DeleteKeeps(s: State, t: nat)
    requires Inv(s) && t < |s.threads| && s.threads[t].phase.Releasing?
    ensures Inv(DeleteStep(s, t))
  {
    assert ThreadInv(s, t);
    if s.threads[t].phase.owned.None? {
      MoveKeeps(s, t, Leaving(s.threads[t].phase.ending));
    } else {
      OwnedDeleteKeeps(s, t);
    }
  }

  lemma OwnedDeleteKeeps(s: State, t: nat)
    requires Inv(s) && t < |s.threads| && s.threads[t].phase.Releasing? && s.threads[t].phase.owned.Some?
    ensures Inv(DeleteStep(s, t))
  {
    var u := DeleteStep(s, t);
    assert ThreadInv(s, t);
    forall i: nat | i < |u.threads| ensures ThreadInv(u, i) { assert ThreadInv(s, i); }
    forall r: nat | r < |u.requests| ensures RequestInv(u, r) { assert RequestInv(s, r); }
    forall ch: nat | ch < |u.channels| ensures ChannelInv(u, ch) { assert ChannelInv(s, ch); }
    forall k | k in u.locks ensures TableInv(u, k) { assert TableInv(s, k); }
  }

  lemma CloseKeeps(s: State, t: nat)
    requires Inv(s) && t < |s.threads| && s.threads[t].phase.Closing?
    requires s.threads[t].phase.lock.channel < |s.channels|
    ensures Inv(CloseStep(s, t))
  {
    var u := CloseStep(s, t);
    assert ThreadInv(s, t);
    forall i: nat | i < |u.threads| ensures ThreadInv(u, i) { assert ThreadInv(s, i); }
    forall r: nat | r < |u.requests| ensures RequestInv(u, r) { assert RequestInv(s, r); }
    forall ch: nat | ch < |u.channels| ensures ChannelInv(u, ch) { assert ChannelInv(s, ch); }
    forall k | k in u.locks ensures TableInv(u, k) { assert TableInv(s, k); }
  }

  lemma PlainKeeps(s: State, l: Label)
    requires Inv(s) && Enabled(s, l)
    requires l.Refuse? || l.Wake? || l.Cancel? || l.Settle? || l.Fail? || l.Answer?
    ensures Inv(Step(s, l))
  {
    assert ThreadInv(s, l.t);
    MoveKeeps(s, l.t, Step(s, l).threads[l.t].phase);
  }

  lemma StepKeeps(s: State, l: Label)
    requires Inv(s) && Enabled(s, l)
    ensures Inv(Step(s, l))
  {
    if Replies(l) {
      ReplyKeeps(s, l.t);
    } else if l.Call? {
      CallKeeps(s, l.cacheable, l.async);
    } else if l.Acquire? {
      AcquireKeeps(s, l.t, l.key);
    } else if l.Send? {
      SendKeeps(s, l.t);
    } else if l.Delete? {
      DeleteKeeps(s, l.t);
    } else if l.Close? {
      CloseKeeps(s, l.t);
    } else {
      PlainKeeps(s, l);
    }
  }

  lemma {:induction false} RunKeeps(labels: seq<Label>)
    requires Possible(labels)
    ensures Inv(After(labels))
  {
    if labels != [] {
      RunKeeps(labels[..|labels| - 1]);
      StepKeeps(After(labels[..|labels| - 1]), labels[|labels| - 1]);
    }
  }

  // ---------------------------------------------------------------------
  // Theorems over all runs
  // ---------------------------------------------------------------------

  /** Every key in the lock table has exactly one owner. */
  lemma KeyHasOneOwner(labels: seq<Label>, k: Key)
    requires Possible(labels) && k in After(labels).locks
    ensures exists t: nat :: OwnsKey(After(labels), k, t) && forall i: nat :: OwnsKey(After(labels), k, i) ==> i == t
  {
    var s := After(labels);
    RunKeeps(labels);
    assert TableInv(s, k);
    var t := s.requests[s.channels[s.locks[k]].maker].bearer;
    forall i: nat | OwnsKey(s, k, i) ensures i == t { assert ThreadInv(s, i); }
  }

  /** A channel is closed at most once; it is open exactly as long as some
      thread owes it a close, and that thread works for the request that made
      the channel. */
  lemma ChannelsCloseOnce(labels: seq<Label>, ch: nat)
    requires Possible(labels) && ch < |After(labels).channels|
    ensures After(labels).channels[ch].closes <= 1
    ensures After(labels).channels[ch].closes == 0 <==> exists t: nat :: OwesChannel(After(labels), ch, t)
    ensures forall t: nat :: OwesChannel(After(labels), ch, t) ==>
              After(labels).threads[t].request == After(labels).channels[ch].maker
  {
    var s := After(labels);
    RunKeeps(labels);
    assert ChannelInv(s, ch);
    forall t: nat | OwesChannel(s, ch, t)
      ensures s.threads[t].request == s.channels[ch].maker && s.channels[ch].closes == 0
    {
      assert ThreadInv(s, t);
    }
  }

  /** A request that put a channel in the table has closed it, once, before it
      is replied to, whichever way it ended and whichever thread replies. */
  lemma RepliedOwnerHasClosed(labels: seq<Label>, ch: nat)
    requires Possible(labels) && ch < |After(labels).channels|
    ensures var s := After(labels);
            var c := s.channels[ch];
            && c.maker < |s.requests| && s.requests[c.maker].bearer < |s.threads|
            && (s.requests[c.maker].replies > 0 || s.threads[s.requests[c.maker].bearer].phase.Leaving? ==>
                  c.closes == 1)
  {
    var s := After(labels);
    RunKeeps(labels);
    assert ChannelInv(s, ch);
    assert RequestInv(s, s.channels[ch].maker);
  }

  /** No waiter is forgotten: its channel is closed, or another thread that is
      still under way is going to close it. */
  lemma WaiterIsOwed(labels: seq<Label>, t: nat)
    requires Possible(labels) && t < |After(labels).threads| && After(labels).threads[t].phase.Waiting?
    ensures var s := After(labels);
            var ch := s.threads[t].phase.channel;
            && ch < |s.channels|
            && (s.channels[ch].closes == 1 || exists i: nat :: i != t && OwesChannel(s, ch, i))
  {
    var s := After(labels);
    RunKeeps(labels);
    assert ThreadInv(s, t);
    assert ChannelInv(s, s.threads[t].phase.channel);
  }

  predicate WorksFor(s: State, t: nat, r: nat) {
    t < |s.threads| && s.threads[t].request == r && !s.threads[t].phase.Done?
  }

  /** However a request is passed on between threads, at any moment either one
      thread works for it and nobody has replied, or no thread does and it has
      been replied to exactly once. */
  lemma RepliesOnce(labels: seq<Label>, r: nat)
    requires Possible(labels) && r < |After(labels).requests|
    ensures var s := After(labels);
            && s.requests[r].replies <= 1
            && (s.requests[r].replies == 0 <==> exists t: nat :: WorksFor(s, t, r))
            && (forall t: nat, i: nat :: WorksFor(s, t, r) && WorksFor(s, i, r) ==> t == i)
  {
    var s := After(labels);
    RunKeeps(labels);
    assert RequestInv(s, r);
    assert s.requests[r].replies == 0 ==> WorksFor(s, s.requests[r].bearer, r);
    forall t: nat | WorksFor(s, t, r) ensures t == s.requests[r].bearer { assert ThreadInv(s, t); }
  }

  /** In any reachable state the lock a thread has still to release is in the
      table, and its channel is open. */
  lemma OwnerHoldsOpen(labels: seq<Label>, t: nat)
    requires Possible(labels) && t < |After(labels).threads| && Held(After(labels).threads[t].phase).Some?
    ensures var s := After(labels);
            var lock := Held(s.threads[t].phase).value;
            && lock.channel < |s.channels| && s.channels[lock.channel].closes == 0
            && lock.key in s.locks && s.locks[lock.key] == lock.channel
  {
    RunKeeps(labels);
    assert ThreadInv(After(labels), t);
  }

  // ---------------------------------------------------------------------
  // Progress
  // ---------------------------------------------------------------------

  /** The reply of a thread that is leaving. */
  function ReplyOf(x: Thread, t: nat): Label {
    match x.role
    case Direct => Return(t)
    case First => CallEarly(t)
    case Second => CallWaited(t)
    case Finisher => if x.phase == Leaving(Failed) then CallFailed(t) else CallAnswered(t)
  }

  /** A step a thread can take on its own, if it is not waiting. */
  function Next(x: Thread, t: nat): Label {
    match x.phase
    case Begun => Acquire(t, 0)
    case Waiting(_) => Wake(t)
    case Checking(_) => Settle(t)
    case Exchanging(_) => Answer(t)
    case Releasing(_, _) => Delete(t)
    case Closing(_, _) => Close(t)
    case _ => ReplyOf(x, t)
  }

  /** A step that is neither a new request nor a cancellation. */
  predicate Inner(l: Label) { !l.Call? && !l.Cancel? }

  lemma CanGoOn(s: State, t: nat)
    requires Inv(s) && t < |s.threads| && !s.threads[t].phase.Done? && !s.threads[t].phase.Waiting?
    ensures Inner(Next(s.threads[t], t)) && Enabled(s, Next(s.threads[t], t))
  {
    assert ThreadInv(s, t);
  }

  /** Unless every request has been replied to, some thread can go on without
      any of the waiting ones being cancelled. */
  lemma NeverStuck(labels: seq<Label>, r: nat)
    requires Possible(labels) && r < |After(labels).requests| && After(labels).requests[r].replies == 0
    ensures exists l: Label :: Inner(l) && Enabled(After(labels), l)
  {
    var s := After(labels);
    RunKeeps(labels);
    assert RequestInv(s, r);
    var t := s.requests[r].bearer;
    assert ThreadInv(s, t);
    if s.threads[t].phase.Waiting? {
      var ch := s.threads[t].phase.channel;
      assert ChannelInv(s, ch);
      if s.channels[ch].closes == 0 {
        CanGoOn(s, s.requests[s.channels[ch].maker].bearer);
      } else {
        assert Enabled(s, Wake(t));
      }
    } else {
      CanGoOn(s, t);
    }
  }

  /** A run that cannot go on, except by new requests or cancellations, has
      replied to every request exactly once. */
  lemma FinishedRunsReplied(labels: seq<Label>, r: nat)
    requires Possible(labels) && r < |After(labels).requests|
    requires forall l: Label :: Inner(l) ==> !Enabled(After(labels), l)
    ensures After(labels).requests[r].replies == 1
  {
    RepliesOnce(labels, r);
    if After(labels).requests[r].replies == 0 {
      NeverStuck(labels, r);
      assert false;
    }
  }

  /** How many more steps a thread can take. */
  function Rank(x: Thread): nat {
    match x.phase
    case Begun => if x.role.First? then 8 else 7
    case Waiting(_) => 6
    case Checking(_) => 5
    case Exchanging(_) => 4
    case Releasing(_, _) => 3
    case Closing(_, _) => 2
    case Leaving(_) => 1
    case Done => 0
  }

  function Total(xs: seq<Thread>): nat {
    if xs == [] then 0 else Total(xs[..|xs| - 1]) + Rank(xs[|xs| - 1])
  }

  lemma {:induction false} TotalOfUpdate(xs: seq<Thread>, t: nat, x: Thread)
    requires t < |xs|
    ensures Total(xs[t := x]) == Total(xs) - Rank(xs[t]) + Rank(x)
  {
    var n := |xs| - 1;
    if t == n {
      assert xs[t := x][..n] == xs[..n];
    } else {
      TotalOfUpdate(xs[..n], t, x);
      assert xs[t := x][..n] == xs[..n][t := x];
    }
  }

  lemma TotalOfAppend(xs: seq<Thread>, x: Thread)
    ensures Total(xs + [x]) == Total(xs) + Rank(x)
  {
    assert (xs + [x])[..|xs|] == xs;
  }

  lemma MoveDescends(s: State, t: nat, p: Phase)
    requires t < |s.threads| && Rank(s.threads[t].(phase := p)) < Rank(s.threads[t])
    ensures Total(Move(s, t, p).threads) < Total(s.threads)
  {
    TotalOfUpdate(s.threads, t, s.threads[t].(phase := p));
  }

  lemma LeaveToDescends(s: State, t: nat, role: Role, p: Phase)
    requires t < |s.threads| && s.threads[t].request < |s.requests|
    requires Rank(Thread(s.threads[t].request, role, p)) < Rank(s.threads[t])
    ensures Total(LeaveTo(s, t, role, p).threads) < Total(s.threads)
  {
    var left := s.threads[t].(phase := Done);
    TotalOfUpdate(s.threads, t, left);
    TotalOfAppend(s.threads[t := left], Thread(s.threads[t].request, role, p));
  }

  lemma AcquireDescends(s: State, t: nat, key: Key)
    requires t < |s.threads| && s.threads[t].request < |s.requests| && s.threads[t].phase.Begun?
    ensures Total(AcquireStep(s, t, key).threads) < Total(s.threads)
  {
    if s.requests[s.threads[t].request].cacheable && key in s.locks && s.threads[t].role.First? {
      LeaveToDescends(s, t, Second, Begun);
    } else {
      MoveDescends(s, t, AcquireStep(s, t, key).threads[t].phase);
    }
  }

  lemma SendDescends(s: State, t: nat)
    requires t < |s.threads| && s.threads[t].request < |s.requests| && s.threads[t].phase.Checking?
    ensures Total(SendStep(s, t).threads) < Total(s.threads)
  {
    var p := Exchanging(s.threads[t].phase.owned);
    if s.threads[t].role.First? { LeaveToDescends(s, t, Finisher, p); } else { MoveDescends(s, t, p); }
  }

  lemma PlainDescends(s: State, l: Label)
    requires Enabled(s, l) && !l.Call? && !l.Acquire? && !l.Send?
    ensures Step(s, l).threads == Move(s, l.t, Step(s, l).threads[l.t].phase).threads
    ensures Rank(Step(s, l).threads[l.t]) < Rank(s.threads[l.t])
  {
  }

  lemma StepDescends(s: State, l: Label)
    requires Enabled(s, l) && !l.Call?
    ensures Total(Step(s, l).threads) < Total(s.threads)
  {
    if l.Acquire? {
      AcquireDescends(s, l.t, l.key);
    } else if l.Send? {
      SendDescends(s, l.t);
    } else {
      PlainDescends(s, l);
      MoveDescends(s, l.t, Step(s, l).threads[l.t].phase);
    }
  }

  lemma RequestsStay(s: State, l: Label)
    requires Enabled(s, l) && !l.Call?
    ensures |Step(s, l).requests| == |s.requests|
  {
  }

  /** A run with n requests has at most 9n steps. */
  lemma {:induction false} RunsAreShort(labels: seq<Label>)
    requires Possible(labels)
    ensures |labels| + Total(After(labels).threads) <= 9 * |After(labels).requests|
  {
    if labels != [] {
      var before := labels[..|labels| - 1];
      var l := labels[|labels| - 1];
      RunsAreShort(before);
      if l.Call? {
        TotalOfAppend(After(before).threads, After(labels).threads[|After(before).threads|]);
      } else {
        StepDescends(After(before), l);
        RequestsStay(After(before), l);
      }
    }
  }

  predicate AllReplied(s: State) { forall r: nat :: r < |s.requests| ==> s.requests[r].replies == 1 }

  lemma OneMore(labels: seq<Label>, l: Label)
    requires Possible(labels) && Enabled(After(labels), l)
    ensures Possible(labels + [l]) && After(labels + [l]) == Step(After(labels), l)
  {
    assert (labels + [l])[..|labels|] == labels;
  }

  /** A step towards a reply, while one is missing. */
  lemma Onward(labels: seq<Label>) returns (l: Label)
    requires Possible(labels) && !AllReplied(After(labels))
    ensures Inner(l) && Enabled(After(labels), l)
    ensures |Step(After(labels), l).requests| == |After(labels).requests|
    ensures Total(Step(After(labels), l).threads) < Total(After(labels).threads)
  {
    var s := After(labels);
    var r: nat :| r < |s.requests| && s.requests[r].replies != 1;
    RepliesOnce(labels, r);
    NeverStuck(labels, r);
    l :| Inner(l) && Enabled(s, l);
    StepDescends(s, l);
    RequestsStay(s, l);
  }

  /** Every run can be extended, without new requests or cancellations, to one
      in which all its requests have been replied to, each once. */
  lemma {:induction false} CanFinish(labels: seq<Label>) returns (all: seq<Label>)
    requires Possible(labels)
    ensures labels <= all && Possible(all) && forall i :: |labels| <= i < |all| ==> Inner(all[i])
    ensures |After(all).requests| == |After(labels).requests| && AllReplied(After(all))
    decreases Total(After(labels).threads)
  {
    if AllReplied(After(labels)) {
      all := labels;
    } else {
      var l := Onward(labels);
      OneMore(labels, l);
      all := CanFinish(labels + [l]);
      assert all[|labels|] == l;
    }
  }

  // ---------------------------------------------------------------------
  // The code
  // ---------------------------------------------------------------------

  /** The client's lock table with the threads that use it. `history` records
      the steps taken, so what is proved of every run holds of the client. */
  class Client {
    var cacheLock: map<Key, nat>
    var channels: seq<Channel>
    var threads: seq<Thread>
    var requests: seq<Request>
    ghost var history: seq<Label>

    function Model(): State
      reads this
    {
      State(cacheLock, channels, threads, requests)
    }

    ghost predicate Valid()
      reads this
    {
      Possible(history) && Model() == After(history)
    }

    constructor ()
      ensures Valid() && history == []
    {
      cacheLock, channels, threads, requests, history := map[], [], [], [], [];
    }

    /** A call of Exchange or ExchangeAsync. */
    method Begin(cacheable: bool, async: bool) returns (t: nat)
      requires Valid()
      modifies this
      ensures Valid() && history == old(history) + [Call(cacheable, async)] && t == |old(threads)|
    {
      OneMore(history, Call(cacheable, async));
      t := |threads|;
      threads := threads + [Thread(|requests|, if async then First else Direct, Begun)];
      requests := requests + [Request(cacheable, t, 0)];
      history := history + [Call(cacheable, async)];
    }

    method LoadOrStore(key: Key, request: nat) returns (channel: nat, loaded: bool)
      modifies this`cacheLock, this`channels
      ensures loaded <==> key in old(cacheLock)
      ensures loaded ==> cacheLock == old(cacheLock) && channel == cacheLock[key] && channels == old(channels)
      ensures !loaded ==> && channel == |old(channels)| && cacheLock == old(cacheLock)[key := channel]
                          && channels == old(channels) + [Channel(0, request)]
    {
      if key in cacheLock {
        return cacheLock[key], true;
      }
      channel := |channels|;
      channels := channels + [Channel(0, request)];
      cacheLock := cacheLock[key := channel];
      loaded := false;
    }

    /** Consult the lock table: own the key, wait for its owner, or leave the
        waiting to a goroutine. Afterwards the key is somebody's. */
    method Acquire(t: nat, key: Key)
      requires Valid() && Enabled(Model(), Label.Acquire(t, key))
      modifies this
      ensures Valid() && history == old(history) + [Label.Acquire(t, key)]
      ensures old(requests[threads[t].request].cacheable) ==> key in cacheLock
      ensures t < |threads| && threads[t].phase ==
                if !old(requests[threads[t].request].cacheable) then Checking(None)
                else if key !in old(cacheLock) then Checking(Some(Lock(key, old(|channels|))))
                else if old(threads[t].role.First?) then Done
                else Waiting(old(cacheLock)[key])
    {
      OneMore(history, Label.Acquire(t, key));
      var x := threads[t];
      if !requests[x.request].cacheable {
        threads := threads[t := x.(phase := Checking(None))];
      } else {
        var channel, loaded := LoadOrStore(key, x.request);
        if !loaded {
          threads := threads[t := x.(phase := Checking(Some(Lock(key, channel))))];
        } else if x.role.First? {
          HandOver(t, Second, Begun);
        } else {
          threads := threads[t := x.(phase := Waiting(channel))];
        }
      }
      history := history + [Label.Acquire(t, key)];
    }

    /** Go on in another goroutine, or in the transport's callback. */
    method HandOver(t: nat, role: Role, p: Phase)
      requires t < |threads| && threads[t].request < |requests|
      modifies this`threads, this`requests
      ensures Model() == LeaveTo(old(Model()), t, role, p)
    {
      var r := threads[t].request;
      requests := requests[r := requests[r].(bearer := |threads|)];
      threads := threads[t := threads[t].(phase := Done)] + [Thread(r, role, p)];
    }

    /** Give the query to the transport. */
    method Send(t: nat)
      requires Valid() && Enabled(Model(), Label.Send(t))
      modifies this
      ensures Valid() && history == old(history) + [Label.Send(t)]
    {
      OneMore(history, Label.Send(t));
      var p := Exchanging(threads[t].phase.owned);
      if threads[t].role.First? {
        HandOver(t, Finisher, p);
      } else {
        threads := threads[t := threads[t].(phase := p)];
      }
      history := history + [Label.Send(t)];
    }

    /** The steps that touch neither the table nor a channel: the checks before
        the transport is asked, its outcome, and the end of a wait. */
    method Advance(l: Label)
      requires Valid() && Enabled(Model(), l)
      requires l.Refuse? || l.Wake? || l.Cancel? || l.Settle? || l.Fail? || l.Answer?
      modifies this
      ensures Valid() && history == old(history) + [l]
    {
      OneMore(history, l);
      var p := threads[l.t].phase;
      match l {
        case Wake(_) => p := Checking(None);
        case Settle(_) => p := Releasing(p.owned, Early);
        case Fail(_) => p := Releasing(p.owned, Failed);
        case Answer(_) => p := Releasing(p.owned, Answered);
        case _ => p := Leaving(Early);
      }
      threads := threads[l.t := threads[l.t].(phase := p)];
      history := history + [l];
    }

    /** Take the key out of the table, if it is owned. */
    method DeleteKey(t: nat)
      requires Valid() && Enabled(Model(), Delete(t))
      modifies this
      ensures Valid() && history == old(history) + [Delete(t)] && Model() == DeleteStep(old(Model()), t)
    {
      OneMore(history, Delete(t));
      var p := threads[t].phase;
      history := history + [Delete(t)];
      if p.owned.Some? {
        cacheLock := cacheLock - {p.owned.value.key};
        threads := threads[t := threads[t].(phase := Closing(p.owned.value, p.ending))];
      } else {
        threads := threads[t := threads[t].(phase := Leaving(p.ending))];
      }
    }

    /** Let the waiters go. */
    method CloseChannel(t: nat)
      requires Valid() && Enabled(Model(), Close(t))
      modifies this
      ensures Valid() && history == old(history) + [Close(t)] && Model() == CloseStep(old(Model()), t)
    {
      OneMore(history, Close(t));
      var p := threads[t].phase;
      var ch := p.lock.channel;
      channels := channels[ch := channels[ch].(closes := channels[ch].closes + 1)];
      threads := threads[t := threads[t].(phase := Leaving(p.ending))];
      history := history + [Close(t)];
    }

    /** Release what is owned: delete the key, then close the channel, which was
        open. */
    method Release(t: nat)
      requires Valid() && Enabled(Model(), Delete(t))
      modifies this
      ensures Valid()
      ensures match old(threads[t].phase.owned)
              case None => history == old(history) + [Delete(t)]
              case Some(lock) =>
                && history == old(history) + [Delete(t)] + [Close(t)]
                && lock.key !in cacheLock && lock.channel < |channels| == |old(channels)|
                && old(channels)[lock.channel].closes == 0 && channels[lock.channel].closes == 1
    {
      var owned := threads[t].phase.owned;
      if owned.Some? {
        OwnerHoldsOpen(history, t);
      }
      DeleteKey(t);
      if owned.Some? {
        CloseChannel(t);
      }
    }

    /** Return to the caller or call back: the first and only reply. */
    method Reply(t: nat)
      requires Valid() && t < |threads| && threads[t].phase.Leaving?
      modifies this
      ensures Valid() && history == old(history) + [ReplyOf(old(threads[t]), t)]
      ensures old(threads[t].request) < |requests| == |old(requests)|
      ensures old(requests)[old(threads[t].request)].replies == 0 && requests[old(threads[t].request)].replies == 1
    {
      RunKeeps(history);
      CanGoOn(Model(), t);
      assert ThreadInv(Model(), t) && RequestInv(Model(), threads[t].request);
      ghost var l := ReplyOf(threads[t], t);
      OneMore(history, l);
      var r := threads[t].request;
      requests := requests[r := requests[r].(replies := requests[r].replies + 1)];
      threads := threads[t := threads[t].(phase := Done)];
      history := history + [l];
    }
  }
}

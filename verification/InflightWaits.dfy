/** Who goes on and who waits, told from the labels of a run: a request that may
    use the cache asks the transport only with its key in hand, or after the
    request that had the key was through. */
module InflightWaits {
  import opened Optional
  import opened InflightLock

  lemma {:induction false} PrefixPossible(labels: seq<Label>, i: nat)
    requires Possible(labels) && i <= |labels|
    ensures Possible(labels[..i])
    decreases |labels|
  {
    if i == |labels| {
      assert labels[..i] == labels;
    } else {
      PrefixPossible(labels[..|labels| - 1], i);
      assert labels[..|labels| - 1][..i] == labels[..i];
    }
  }

  /** The table when label i came. */
  function LocksAt(labels: seq<Label>, i: nat): map<Key, nat>
    requires Possible(labels) && i <= |labels|
  {
    PrefixPossible(labels, i);
    After(labels[..i]).locks
  }

  /** At label i thread u consulted the table and found the key under a channel. */
  predicate Found(labels: seq<Label>, i: nat, u: nat, key: Key, channel: nat)
    requires Possible(labels)
  {
    i < |labels| && labels[i] == Acquire(u, key) && key in LocksAt(labels, i) && LocksAt(labels, i)[key] == channel
  }

  /** At label i thread u consulted the table, which had no such key. */
  predicate Took(labels: seq<Label>, i: nat, u: nat, key: Key)
    requires Possible(labels)
  {
    i < |labels| && labels[i] == Acquire(u, key) && key !in LocksAt(labels, i)
  }

  predicate IsClosed(s: State, channel: nat) { channel < |s.channels| && s.channels[channel].closes > 0 }

  predicate WorkedFor(s: State, u: nat, r: nat) { u < |s.threads| && s.threads[u].request == r }

  /** A thread of the request found its key under a channel that is now closed. */
  ghost predicate FoundClosed(labels: seq<Label>, r: nat)
    requires Possible(labels)
  {
    exists i, u, key, channel ::
      Found(labels, i, u, key, channel) && WorkedFor(After(labels), u, r) && IsClosed(After(labels), channel)
  }

  /** A thread of the request put the key in the table. */
  ghost predicate TookKey(labels: seq<Label>, r: nat, key: Key)
    requires Possible(labels)
  {
    exists i, u :: Took(labels, i, u, key) && WorkedFor(After(labels), u, r)
  }

  /** Past the table and not yet released. */
  predicate Inside(p: Phase) { p.Checking? || p.Exchanging? || p.Releasing? }

  /** What the labels say about a thread in a phase. */
  ghost predicate Justified(labels: seq<Label>, t: nat, r: nat, p: Phase)
    requires Possible(labels) && r < |After(labels).requests|
  {
    var cacheable := After(labels).requests[r].cacheable;
    && (p.Waiting? ==> cacheable && exists i, key :: Found(labels, i, t, key, p.channel))
    && (Inside(p) && !cacheable ==> p.owned.None?)
    && (Inside(p) && cacheable ==>
          if p.owned.Some? then TookKey(labels, r, p.owned.value.key) else FoundClosed(labels, r))
  }

  // ---------------------------------------------------------------------
  // What is past stays past
  // ---------------------------------------------------------------------

  /** Threads keep their requests, requests their kind, closed channels stay
      closed. */
  predicate Grows(s: State, t: State) {
    && |s.threads| <= |t.threads| && |s.requests| <= |t.requests| && |s.channels| <= |t.channels|
    && (forall u: nat :: u < |s.threads| ==> t.threads[u].request == s.threads[u].request)
    && (forall r: nat :: r < |s.requests| ==> t.requests[r].cacheable == s.requests[r].cacheable)
    && (forall k: nat :: k < |s.channels| ==> s.channels[k].closes <= t.channels[k].closes)
  }

  lemma StepGrows(s: State, l: Label)
    requires Enabled(s, l)
    ensures Grows(s, Step(s, l))
  {
  }

  lemma LabelKept(labels: seq<Label>, i: nat, u: nat, key: Key, channel: nat)
    requires Possible(labels) && labels != []
    ensures Found(labels[..|labels| - 1], i, u, key, channel) ==> Found(labels, i, u, key, channel)
    ensures Took(labels[..|labels| - 1], i, u, key) ==> Took(labels, i, u, key)
  {
    if i < |labels| - 1 { assert labels[..|labels| - 1][..i] == labels[..i]; }
  }

  lemma FoundClosedKept(labels: seq<Label>, r: nat)
    requires Possible(labels) && labels != [] && FoundClosed(labels[..|labels| - 1], r)
    ensures FoundClosed(labels, r)
  {
    var before := labels[..|labels| - 1];
    StepGrows(After(before), labels[|labels| - 1]);
    var i, u, key, channel :|
      Found(before, i, u, key, channel) && WorkedFor(After(before), u, r) && IsClosed(After(before), channel);
    LabelKept(labels, i, u, key, channel);
    assert Found(labels, i, u, key, channel) && WorkedFor(After(labels), u, r) && IsClosed(After(labels), channel);
  }

  lemma TookKeyKept(labels: seq<Label>, r: nat, key: Key)
    requires Possible(labels) && labels != [] && TookKey(labels[..|labels| - 1], r, key)
    ensures TookKey(labels, r, key)
  {
    var before := labels[..|labels| - 1];
    StepGrows(After(before), labels[|labels| - 1]);
    var i, u :| Took(before, i, u, key) && WorkedFor(After(before), u, r);
    LabelKept(labels, i, u, key, 0);
    assert Took(labels, i, u, key) && WorkedFor(After(labels), u, r);
  }

  lemma JustifiedKept(labels: seq<Label>, t: nat, r: nat, p: Phase)
    requires Possible(labels) && labels != [] && r < |After(labels[..|labels| - 1]).requests|
    requires Justified(labels[..|labels| - 1], t, r, p)
    ensures r < |After(labels).requests| && Justified(labels, t, r, p)
  {
    var before := labels[..|labels| - 1];
    StepGrows(After(before), labels[|labels| - 1]);
    if p.Waiting? {
      var i, key :| Found(before, i, t, key, p.channel);
      LabelKept(labels, i, t, key, p.channel);
    }
    if Inside(p) && p.owned.Some? && After(before).requests[r].cacheable {
      TookKeyKept(labels, r, p.owned.value.key);
    } else if Inside(p) && After(before).requests[r].cacheable {
      FoundClosedKept(labels, r);
    }
  }

  // ---------------------------------------------------------------------
  // One step
  // ---------------------------------------------------------------------

  /** The phase a thread is in after a step is one it was in, or is in the clear,
      or is where the step took it. */
  lemma AcquireJustified(labels: seq<Label>, t: nat, key: Key)
    requires Possible(labels) && labels != [] && labels[|labels| - 1] == Acquire(t, key)
    requires Inv(After(labels[..|labels| - 1]))
    ensures var s := After(labels);
            t < |s.threads| && s.threads[t].request < |s.requests|
            && Justified(labels, t, s.threads[t].request, s.threads[t].phase)
  {
    var n := |labels| - 1;
    var s, u := After(labels[..n]), After(labels);
    assert ThreadInv(s, t);
    var r := s.threads[t].request;
    if s.requests[r].cacheable && key !in s.locks {
      assert Took(labels, n, t, key) && WorkedFor(u, t, r);
    } else if s.requests[r].cacheable {
      assert Found(labels, n, t, key, s.locks[key]);
    }
  }

  lemma WakeJustified(labels: seq<Label>, t: nat)
    requires Possible(labels) && labels != [] && labels[|labels| - 1] == Wake(t)
    requires var s := After(labels[..|labels| - 1]);
             Inv(s) && t < |s.threads| && s.threads[t].request < |s.requests|
             && Justified(labels[..|labels| - 1], t, s.threads[t].request, s.threads[t].phase)
    ensures var s := After(labels);
            t < |s.threads| && s.threads[t].request < |s.requests|
            && Justified(labels, t, s.threads[t].request, s.threads[t].phase)
  {
    var before := labels[..|labels| - 1];
    var s := After(before);
    var ch := s.threads[t].phase.channel;
    var i, key :| Found(before, i, t, key, ch);
    assert Found(before, i, t, key, ch) && WorkedFor(s, t, s.threads[t].request) && IsClosed(s, ch);
    FoundClosedKept(labels, s.threads[t].request);
  }

  ghost predicate AllJustified(labels: seq<Label>)
    requires Possible(labels)
  {
    forall t: nat :: t < |After(labels).threads| ==> JustifiedThread(labels, t)
  }

  ghost predicate JustifiedThread(labels: seq<Label>, t: nat)
    requires Possible(labels) && t < |After(labels).threads|
  {
    var x := After(labels).threads[t];
    x.request < |After(labels).requests| && Justified(labels, t, x.request, x.phase)
  }

  /** A new phase that holds what the one before it held, or is of no account. */
  predicate Follows(p: Phase, q: Phase) {
    !q.Waiting? && (Inside(q) ==> Inside(p) && q.owned == p.owned)
  }

  lemma FollowsJustified(labels: seq<Label>, t: nat, u: nat, r: nat, p: Phase, q: Phase)
    requires Possible(labels) && r < |After(labels).requests| && Justified(labels, t, r, p) && Follows(p, q)
    ensures Justified(labels, u, r, q)
  {
  }

  /** Where a step other than an acquisition or a wake-up takes its thread, and
      whom it leaves the request to. */
  lemma StepFollows(s: State, l: Label)
    requires Enabled(s, l) && !l.Call? && !l.Acquire? && !l.Wake?
    ensures var t := Step(s, l);
            && Follows(s.threads[l.t].phase, t.threads[l.t].phase)
            && (forall u: nat :: u < |s.threads| && u != l.t ==> t.threads[u] == s.threads[u])
            && (|t.threads| > |s.threads| ==>
                  && |t.threads| == |s.threads| + 1
                  && t.threads[|s.threads|].request == s.threads[l.t].request
                  && Follows(s.threads[l.t].phase, t.threads[|s.threads|].phase))
  {
  }

  lemma OtherJustified(labels: seq<Label>, t: nat)
    requires Possible(labels) && labels != [] && AllJustified(labels[..|labels| - 1])
    requires var s := After(labels[..|labels| - 1]);
             t < |s.threads| && t < |After(labels).threads| && After(labels).threads[t] == s.threads[t]
    ensures JustifiedThread(labels, t)
  {
    var s := After(labels[..|labels| - 1]);
    assert JustifiedThread(labels[..|labels| - 1], t);
    JustifiedKept(labels, t, s.threads[t].request, s.threads[t].phase);
  }

  lemma FollowStep(labels: seq<Label>, t: nat)
    requires Possible(labels) && labels != [] && AllJustified(labels[..|labels| - 1]) && t < |After(labels).threads|
    requires var l := labels[|labels| - 1]; !l.Call? && !l.Acquire? && !l.Wake?
    ensures JustifiedThread(labels, t)
  {
    var n := |labels| - 1;
    var s, l := After(labels[..n]), labels[n];
    StepFollows(s, l);
    if t != l.t && t < |s.threads| {
      OtherJustified(labels, t);
    } else {
      assert JustifiedThread(labels[..n], l.t);
      StepGrows(s, l);
      JustifiedKept(labels, l.t, s.threads[l.t].request, s.threads[l.t].phase);
      FollowsJustified(labels, l.t, t, s.threads[l.t].request, s.threads[l.t].phase, After(labels).threads[t].phase);
    }
  }

  /** An acquisition moves its thread, or ends it and begins another. */
  lemma AcquireElsewhere(s: State, t: nat, key: Key, u: nat)
    requires t < |s.threads| && s.threads[t].request < |s.requests| && u != t && u < |AcquireStep(s, t, key).threads|
    ensures var x := AcquireStep(s, t, key).threads[u];
            if u < |s.threads| then x == s.threads[u] else x.phase.Begun? && x.request == s.threads[t].request
  {
  }

  lemma AcquireAll(labels: seq<Label>, t: nat)
    requires Possible(labels) && labels != [] && labels[|labels| - 1].Acquire?
    requires Inv(After(labels[..|labels| - 1])) && AllJustified(labels[..|labels| - 1]) && t < |After(labels).threads|
    ensures JustifiedThread(labels, t)
  {
    var n := |labels| - 1;
    var s, l := After(labels[..n]), labels[n];
    StepGrows(s, l);
    if t == l.t {
      AcquireJustified(labels, l.t, l.key);
    } else {
      AcquireElsewhere(s, l.t, l.key, t);
      if t < |s.threads| { OtherJustified(labels, t); }
    }
  }

  lemma WakeAll(labels: seq<Label>, t: nat)
    requires Possible(labels) && labels != [] && labels[|labels| - 1].Wake?
    requires Inv(After(labels[..|labels| - 1])) && AllJustified(labels[..|labels| - 1]) && t < |After(labels).threads|
    ensures JustifiedThread(labels, t)
  {
    var n := |labels| - 1;
    assert JustifiedThread(labels[..n], labels[n].t);
    if t == labels[n].t { WakeJustified(labels, t); } else { OtherJustified(labels, t); }
  }

  lemma CallAll(labels: seq<Label>, t: nat)
    requires Possible(labels) && labels != [] && labels[|labels| - 1].Call?
    requires AllJustified(labels[..|labels| - 1]) && t < |After(labels).threads|
    ensures JustifiedThread(labels, t)
  {
    if t < |After(labels[..|labels| - 1]).threads| { OtherJustified(labels, t); }
  }

  lemma {:induction false} RunJustified(labels: seq<Label>)
    requires Possible(labels)
    ensures AllJustified(labels)
  {
    if labels != [] {
      var n := |labels| - 1;
      RunJustified(labels[..n]);
      RunKeeps(labels[..n]);
      forall t: nat | t < |After(labels).threads| ensures JustifiedThread(labels, t) {
        if labels[n].Call? {
          CallAll(labels, t);
        } else if labels[n].Acquire? {
          AcquireAll(labels, t);
        } else if labels[n].Wake? {
          WakeAll(labels, t);
        } else {
          FollowStep(labels, t);
        }
      }
    }
  }

  // ---------------------------------------------------------------------
  // The theorems
  // ---------------------------------------------------------------------

  /** In every run a thread past the table, of a request that may use the cache,
      either has its request's key in the table, put there by its own request when
      the key was free; or has none, and then its request found the key taken and
      the channel it found is closed. Other requests hold no key. */
  lemma OwnsOrWaited(labels: seq<Label>, t: nat)
    requires Possible(labels) && t < |After(labels).threads|
    requires var p := After(labels).threads[t].phase; p.Checking? || p.Exchanging?
    ensures var s := After(labels);
            var x := s.threads[t];
            && x.request < |s.requests|
            && (x.phase.owned.Some? ==>
                  && s.requests[x.request].cacheable && x.phase.owned.value.key in s.locks
                  && TookKey(labels, x.request, x.phase.owned.value.key))
            && (x.phase.owned.None? && s.requests[x.request].cacheable ==> FoundClosed(labels, x.request))
  {
    RunJustified(labels);
    RunKeeps(labels);
    assert JustifiedThread(labels, t) && ThreadInv(After(labels), t);
  }

  /** Thread t was cancelled after label i. */
  predicate CancelledSince(labels: seq<Label>, i: nat, t: nat) {
    exists j :: i < j < |labels| && labels[j] == Cancel(t)
  }

  /** A thread that finds its key taken, and is not the caller of an asynchronous
      request, waits at the channel it found until that is closed, or until it is
      cancelled. */
  lemma {:induction false} FinderWaits(labels: seq<Label>, i: nat, t: nat, key: Key, channel: nat)
    requires Possible(labels) && Found(labels, i, t, key, channel) && Possible(labels[..i])
    requires var s := After(labels[..i]);
             && t < |s.threads| && s.threads[t].request < |s.requests|
             && s.requests[s.threads[t].request].cacheable && !s.threads[t].role.First?
    ensures t < |After(labels).threads|
    ensures || After(labels).threads[t].phase == Waiting(channel)
            || IsClosed(After(labels), channel)
            || CancelledSince(labels, i, t)
    decreases |labels|
  {
    var n := |labels| - 1;
    var s, l := After(labels[..n]), labels[n];
    StepGrows(s, l);
    if i < n {
      assert labels[..n][..i] == labels[..i];
      FinderWaits(labels[..n], i, t, key, channel);
      if CancelledSince(labels[..n], i, t) {
        var j :| i < j < n && labels[..n][j] == Cancel(t);
        assert labels[j] == Cancel(t);
      } else if s.threads[t].phase == Waiting(channel) {
        WaiterMoves(s, l, t);
      }
    }
  }

  lemma WaiterMoves(s: State, l: Label, t: nat)
    requires Enabled(s, l) && t < |s.threads| && s.threads[t].phase.Waiting?
    ensures || Step(s, l).threads[t] == s.threads[t]
            || l == Cancel(t)
            || (l == Wake(t) && IsClosed(s, s.threads[t].phase.channel))
  {
  }

  // ---------------------------------------------------------------------
  // Endings
  // ---------------------------------------------------------------------

  /** The labels say how the thread came to its end. */
  predicate Happened(labels: seq<Label>, t: nat, ending: Ending) {
    match ending
    case Early => Settle(t) in labels || Cancel(t) in labels || Refuse(t) in labels
    case Failed => Fail(t) in labels
    case Answered => Answer(t) in labels
  }

  predicate Ends(p: Phase) { p.Releasing? || p.Closing? || p.Leaving? }

  /** A step into an ending is the label of that ending, or keeps it. */
  lemma StepEnds(s: State, l: Label, t: nat)
    requires Enabled(s, l) && t < |Step(s, l).threads| && Ends(Step(s, l).threads[t].phase)
    ensures var p := Step(s, l).threads[t].phase;
            || Happened([l], t, p.ending)
            || (t < |s.threads| && Ends(s.threads[t].phase) && s.threads[t].phase.ending == p.ending)
  {
  }

  /** However a thread ends, it is what happened to it: an answer or a failure of
      the transport, or neither. */
  lemma {:induction false} EndingsHappened(labels: seq<Label>, t: nat)
    requires Possible(labels) && t < |After(labels).threads| && Ends(After(labels).threads[t].phase)
    ensures Happened(labels, t, After(labels).threads[t].phase.ending)
  {
    if labels == [] {
      assert false;
    } else {
      var n := |labels| - 1;
      var ending := After(labels).threads[t].phase.ending;
      StepEnds(After(labels[..n]), labels[n], t);
      if Happened([labels[n]], t, ending) {
        assert forall l :: l in [labels[n]] ==> l in labels;
      } else {
        EndingsHappened(labels[..n], t);
        assert forall l :: l in labels[..n] ==> l in labels;
      }
    }
  }

  /** The callback of an asynchronous request gets the transport's answer only
      after the transport answered, and its error only after it failed. */
  lemma CallbacksTellWhatHappened(labels: seq<Label>, t: nat)
    requires Possible(labels)
    ensures Enabled(After(labels), CallAnswered(t)) ==> Answer(t) in labels
    ensures Enabled(After(labels), CallFailed(t)) ==> Fail(t) in labels
    ensures Enabled(After(labels), CallEarly(t)) ==> Settle(t) in labels || Refuse(t) in labels || Cancel(t) in labels
  {
    var s := After(labels);
    if t < |s.threads| && Ends(s.threads[t].phase) { EndingsHappened(labels, t); }
  }

  // ---------------------------------------------------------------------
  // Synchronous and asynchronous requests
  // ---------------------------------------------------------------------

  /** The calls of a run, in order: request r is the one of call r. */
  function Calls(labels: seq<Label>): seq<Label> {
    if labels == [] then []
    else
      var n := |labels| - 1;
      Calls(labels[..n]) + if labels[n].Call? then [labels[n]] else []
  }

  /** Requests are what they were called for, and only synchronous ones run on
      their caller's thread. */
  predicate AsCalled(s: State, calls: seq<Label>) {
    && |s.requests| == |calls| && (forall r :: 0 <= r < |calls| ==> calls[r].Call?)
    && (forall r :: 0 <= r < |calls| ==> s.requests[r].cacheable == calls[r].cacheable)
    && (forall t :: 0 <= t < |s.threads| ==>
          s.threads[t].request < |calls| && (s.threads[t].role.Direct? <==> !calls[s.threads[t].request].async))
  }

  lemma StepAsCalled(s: State, l: Label, calls: seq<Label>)
    requires AsCalled(s, calls) && Enabled(s, l)
    ensures AsCalled(Step(s, l), calls + if l.Call? then [l] else [])
  {
    if !l.Call? { assert calls + [] == calls; }
  }

  lemma {:induction false} RunAsCalled(labels: seq<Label>)
    requires Possible(labels)
    ensures AsCalled(After(labels), Calls(labels))
  {
    if labels != [] {
      var n := |labels| - 1;
      RunAsCalled(labels[..n]);
      StepAsCalled(After(labels[..n]), labels[n], Calls(labels[..n]));
    }
  }

  /** A synchronous request is replied to by a return and an asynchronous one by a
      callback, never the other way round. */
  lemma RepliesAsCalled(labels: seq<Label>, l: Label)
    requires Possible(labels) && Replies(l) && Enabled(After(labels), l)
    ensures var s := After(labels);
            var r := s.threads[l.t].request;
            r < |Calls(labels)| && Calls(labels)[r].Call? && (l.Return? <==> !Calls(labels)[r].async)
  {
    RunAsCalled(labels);
  }
}

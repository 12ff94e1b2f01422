/** The transport manager: a list of transports and a map by tag, kept in step
    by every create and remove while the manager is open, and the choice of the
    default transport. */
module TransportManager {
  import opened Optional
  import opened TransportStart

  function IndexOf(ts: seq<Transport>, t: Transport): nat
    requires t in ts
    ensures IndexOf(ts, t) < |ts| && ts[IndexOf(ts, t)] == t
  {
    if ts[0] == t then 0 else 1 + IndexOf(ts[1..], t)
  }

  function Without(ts: seq<Transport>, i: nat): (r: seq<Transport>)
    requires i < |ts|
  {
    ts[..i] + ts[i + 1..]
  }

  lemma WithoutAt(ts: seq<Transport>, i: nat, j: nat)
    requires i < |ts| && j < |ts| - 1
    ensures Without(ts, i)[j] == ts[if j < i then j else j + 1]
  {
  }

  lemma RemoveKeepsUnique(ts: seq<Transport>, i: nat)
    requires UniqueTags(ts) && i < |ts|
    ensures UniqueTags(Without(ts, i))
    ensures forall t :: t in Without(ts, i) ==> t in ts && t.tag != ts[i].tag
  {
    var r := Without(ts, i);
    forall j, k | 0 <= j < k < |r| ensures r[j].tag != r[k].tag {
      WithoutAt(ts, i, j);
      WithoutAt(ts, i, k);
    }
    forall j | 0 <= j < |r| ensures r[j] in ts && r[j].tag != ts[i].tag { WithoutAt(ts, i, j); }
  }

  lemma RemoveKeepsRest(ts: seq<Transport>, i: nat, t: Transport)
    requires i < |ts| && t in ts && t != ts[i]
    ensures t in Without(ts, i)
  {
    var j :| 0 <= j < |ts| && ts[j] == t;
    WithoutAt(ts, i, if j < i then j else j - 1);
  }

  /** Taking a transport off the list and its tag off the map keeps them in
      step. */
  lemma RemoveKeepsStep(ts: seq<Transport>, byTag: map<string, Transport>, i: nat)
    requires UniqueTags(ts) && InStep(ts, byTag) && i < |ts|
    ensures UniqueTags(Without(ts, i)) && InStep(Without(ts, i), byTag - {ts[i].tag})
  {
    RemoveKeepsUnique(ts, i);
    assert ts[i] in ts;
    forall tag | tag in byTag - {ts[i].tag} ensures byTag[tag] in Without(ts, i) {
      RemoveKeepsRest(ts, i, byTag[tag]);
    }
  }

  lemma AddKeepsStep(ts: seq<Transport>, byTag: map<string, Transport>, t: Transport)
    requires UniqueTags(ts) && InStep(ts, byTag) && t.tag !in byTag
    ensures UniqueTags(ts + [t]) && InStep(ts + [t], byTag[t.tag := t])
  {
    forall i, j | 0 <= i < j < |ts + [t]| ensures (ts + [t])[i].tag != (ts + [t])[j].tag {
      if j == |ts| { assert ts[i] in ts; }
    }
  }

  /** The list without the transport of a tag, if there is one. */
  function Others(ts: seq<Transport>, byTag: map<string, Transport>, tag: string): seq<Transport>
    requires UniqueTags(ts) && InStep(ts, byTag)
  {
    if tag in byTag then Without(ts, IndexOf(ts, byTag[tag])) else ts
  }

  /** Exactly the transports with other tags are left, in their order. */
  lemma OthersAre(ts: seq<Transport>, byTag: map<string, Transport>, tag: string)
    requires UniqueTags(ts) && InStep(ts, byTag)
    ensures forall t :: t in Others(ts, byTag, tag) <==> t in ts && t.tag != tag
  {
    if tag in byTag {
      var i := IndexOf(ts, byTag[tag]);
      RemoveKeepsUnique(ts, i);
      forall t | t in ts && t.tag != tag ensures t in Without(ts, i) { RemoveKeepsRest(ts, i, t); }
    }
  }

  lemma OthersAndOne(ts: seq<Transport>, byTag: map<string, Transport>, t: Transport)
    requires UniqueTags(ts) && InStep(ts, byTag) && t.fakeIP && forall x :: x in ts ==> x.fakeIP
    ensures forall x :: x in Others(ts, byTag, t.tag) + [t] ==> x.fakeIP
  {
    OthersAre(ts, byTag, t.tag);
  }

  lemma OthersInStep(ts: seq<Transport>, byTag: map<string, Transport>, tag: string)
    requires UniqueTags(ts) && InStep(ts, byTag)
    ensures UniqueTags(Others(ts, byTag, tag)) && InStep(Others(ts, byTag, tag), byTag - {tag})
  {
    if tag in byTag { RemoveKeepsStep(ts, byTag, IndexOf(ts, byTag[tag])); } else { assert byTag - {tag} == byTag; }
  }

  lemma ReplaceKeepsStep(ts: seq<Transport>, byTag: map<string, Transport>, t: Transport)
    requires UniqueTags(ts) && InStep(ts, byTag)
    ensures UniqueTags(Others(ts, byTag, t.tag) + [t]) && InStep(Others(ts, byTag, t.tag) + [t], byTag[t.tag := t])
  {
    OthersInStep(ts, byTag, t.tag);
    AddKeepsStep(Others(ts, byTag, t.tag), byTag - {t.tag}, t);
    assert (byTag - {t.tag})[t.tag := t] == byTag[t.tag := t];
  }

  /** What a create reports. After the last two the transport is registered all
      the same. */
  datatype Creation = Created | EmptyTag | NotStarted | NotClosed | DefaultIsFakeIP | SecondFakeIP {
    predicate Unregistered() { EmptyTag? || NotStarted? || NotClosed? }
  }

  /** What a remove reports, leaving dependents aside. */
  datatype Removal = Removed | UnknownTag | NextIsNotFakeIP

  /** What is settled before the transports are started. */
  datatype Preparation = Ready | NoDefault | NoFallback

  class Manager {
    const defaultTag: string
    var started: bool
    var transports: seq<Transport>
    var byTag: map<string, Transport>
    var default: Option<Transport>
    var fakeIP: Option<Transport>

    /** List and map are in step; and when any transport may be the default but
        none is, only fakeip transports are registered. */
    ghost predicate Valid()
      reads this
    {
      && UniqueTags(transports) && InStep(transports, byTag)
      && (defaultTag == "" && default.None? ==> forall t :: t in transports ==> t.fakeIP)
    }

    constructor (defaultTag: string)
      ensures this.defaultTag == defaultTag && Valid()
      ensures transports == [] && byTag == map[] && !started && default.None? && fakeIP.None?
    {
      this.defaultTag := defaultTag;
      started, transports, byTag, default, fakeIP := false, [], map[], None, None;
    }

    /** The transport takes the place of the default. */
    predicate TakesDefault(t: Transport)
      reads this
    {
      t.tag == defaultTag || (defaultTag == "" && default.None?)
    }

    /** Put a transport at the end of the list, in place of one with its tag. */
    method Register(t: Transport)
      requires Valid() && t.tag != ""
      modifies this`transports, this`byTag
      ensures UniqueTags(transports) && InStep(transports, byTag)
      ensures byTag == old(byTag)[t.tag := t]
      ensures transports == Others(old(transports), old(byTag), t.tag) + [t]
    {
      ReplaceKeepsStep(transports, byTag, t);
      if t.tag in byTag {
        var i := IndexOf(transports, byTag[t.tag]);
        transports := Without(transports, i);
      }
      transports := transports + [t];
      byTag := byTag[t.tag := t];
    }

    /** Make a registered transport the default, or the fakeip transport. */
    method Appoint(t: Transport) returns (r: Creation)
      modifies this`default, this`fakeIP
      ensures !r.Unregistered()
      ensures default == (if old(TakesDefault(t)) && !t.fakeIP then Some(t) else old(default))
      ensures fakeIP == (if r.Created? && t.fakeIP then Some(t) else old(fakeIP))
      ensures r.DefaultIsFakeIP? <==> old(TakesDefault(t)) && t.fakeIP
      ensures r.SecondFakeIP? <==> !old(TakesDefault(t)) && t.fakeIP && old(fakeIP).Some?
    {
      if TakesDefault(t) {
        if t.fakeIP {
          return DefaultIsFakeIP;
        }
        default := Some(t);
      }
      if t.fakeIP {
        if fakeIP.Some? {
          return SecondFakeIP;
        }
        fakeIP := Some(t);
      }
      return Created;
    }

    /** Register a transport, replacing one with the same tag. On a started
        manager the new transport is started and the replaced one closed first;
        either may fail and then nothing changes. */
    method Create(t: Transport, startFails: bool, closeFails: bool) returns (r: Creation)
      requires Valid()
      modifies this`transports, this`byTag, this`default, this`fakeIP
      ensures Valid()
      ensures r.Unregistered() <==> t.tag == "" || (started && (startFails || (t.tag in old(byTag) && closeFails)))
      ensures byTag == (if r.Unregistered() then old(byTag) else old(byTag)[t.tag := t])
      ensures transports == (if r.Unregistered() then old(transports)
                             else Others(old(transports), old(byTag), t.tag) + [t])
      ensures default == (if !r.Unregistered() && old(TakesDefault(t)) && !t.fakeIP then Some(t) else old(default))
      ensures fakeIP == (if r.Created? && t.fakeIP then Some(t) else old(fakeIP))
      ensures !r.Unregistered() ==> (r.DefaultIsFakeIP? <==> old(TakesDefault(t)) && t.fakeIP)
      ensures !r.Unregistered() ==> (r.SecondFakeIP? <==> !old(TakesDefault(t)) && t.fakeIP && old(fakeIP).Some?)
    {
      if t.tag == "" {
        return EmptyTag;
      }
      if started && startFails {
        return NotStarted;
      }
      if t.tag in byTag && started && closeFails {
        return NotClosed;
      }
      Register(t);
      r := Appoint(t);
      if defaultTag == "" && default.None? {
        OthersAndOne(old(transports), old(byTag), t);
      }
    }

    /** Unregister a transport; an unknown tag is refused. If it was the default,
        the first one left takes its place when it is a fakeip transport;
        otherwise an error is reported and the default stays what it was, though
        it is no longer registered. */
    method Remove(tag: string) returns (r: Removal)
      requires Valid()
      modifies this`transports, this`byTag, this`default
      ensures Valid()
      ensures r.UnknownTag? <==> tag !in old(byTag)
      ensures byTag == old(byTag) - {tag}
      ensures transports == Others(old(transports), old(byTag), tag)
      ensures var wasDefault := tag in old(byTag) && old(default) == Some(old(byTag)[tag]);
              && default == (if !wasDefault then old(default)
                             else if transports == [] then None
                             else if transports[0].fakeIP then Some(transports[0])
                             else old(default))
              && (r.NextIsNotFakeIP? <==> wasDefault && transports != [] && !transports[0].fakeIP)
    {
      if tag !in byTag {
        assert byTag - {tag} == byTag;
        return UnknownTag;
      }
      var t := byTag[tag];
      var i := IndexOf(transports, t);
      RemoveKeepsStep(transports, byTag, i);
      OthersAre(transports, byTag, tag);
      transports, byTag := Without(transports, i), byTag - {tag};
      if default == Some(t) {
        if transports != [] {
          if !transports[0].fakeIP {
            return NextIsNotFakeIP;
          }
          default := Some(transports[0]);
        } else {
          default := None;
        }
      }
      return Removed;
    }

    /** Settle the default before the start: a configured one must be there,
        otherwise the fallback is registered. List and map stay in step exactly
        when the fallback's tag is free, and only a fakeip transport can have
        taken it. */
    method Prepare(fallback: Option<Transport>) returns (r: Preparation)
      requires Valid()
      modifies this`started, this`transports, this`byTag, this`default
      ensures started
      ensures r.NoDefault? <==> defaultTag != "" && old(default).None?
      ensures r.NoFallback? <==> defaultTag == "" && old(default).None? && fallback.None?
      ensures r.Ready? ==> default.Some? && default == (if old(default).Some? then old(default) else fallback)
      ensures var appended := r.Ready? && old(default).None?;
              && transports == (if appended then old(transports) + [fallback.value] else old(transports))
              && byTag == (if appended then old(byTag)[fallback.value.tag := fallback.value] else old(byTag))
              && (Valid() <==> (appended ==> fallback.value.tag !in old(byTag)))
              && (appended && fallback.value.tag in old(byTag) ==> old(byTag)[fallback.value.tag].fakeIP)
    {
      started := true;
      if defaultTag != "" && default.None? {
        return NoDefault;
      }
      if default.None? {
        if fallback.None? {
          return NoFallback;
        }
        var f := fallback.value;
        if f.tag !in byTag {
          AddKeepsStep(transports, byTag, f);
        } else {
          Clash(transports, byTag, f);
        }
        transports := transports + [f];
        byTag := byTag[f.tag := f];
        default := Some(f);
      }
      return Ready;
    }

    /** Start everything registered, in dependency order. */
    method Start() returns (r: Result, order: seq<string>)
      requires Valid()
      ensures r.Started? <==> Closed(byTag) && Acyclic(byTag) && forall tag :: tag in byTag ==> !byTag[tag].fails
      ensures StartOrder(byTag, order) && (r.Started? ==> |order| == |transports|)
      ensures RealProblem(byTag, r)
    {
      r, order := StartTransports(transports, byTag);
    }
  }

  /** A second transport with a tag of the list spoils the list. */
  lemma Clash(ts: seq<Transport>, byTag: map<string, Transport>, t: Transport)
    requires InStep(ts, byTag) && t.tag in byTag
    ensures !UniqueTags(ts + [t]) && byTag[t.tag] in ts
  {
    var i :| 0 <= i < |ts| && ts[i] == byTag[t.tag];
    assert (ts + [t])[i].tag == (ts + [t])[|ts|].tag;
  }
}

/** The time to live of a response: how it is computed, clamped and written
    back into the records. */
module TimeToLive {
  import opened Optional
  import opened DnsMessage

  predicate Counts(r: Record) { r.rrtype != TYPE_OPT }

  /** The first SOA record of a section, if any. */
  function FirstSOA(ns: seq<Record>): (r: Option<Record>)
    ensures r.Some? ==> r.value in ns && r.value.kind.KindSOA?
    ensures r.None? ==> forall x :: x in ns ==> !x.kind.KindSOA?
  {
    if ns == [] then None else if ns[0].kind.KindSOA? then Some(ns[0]) else FirstSOA(ns[1..])
  }

  /** No SOA record goes before the one found. */
  lemma {:induction false} FirstSOAIsFirst(ns: seq<Record>, i: nat)
    requires i < |ns| && ns[i].kind.KindSOA? && forall j :: 0 <= j < i ==> !ns[j].kind.KindSOA?
    ensures FirstSOA(ns) == Some(ns[i])
  {
    if i > 0 { FirstSOAIsFirst(ns[1..], i - 1); }
  }

  function Min(a: nat, b: nat): (r: nat)
    ensures r <= a && r <= b && (r == a || r == b)
  {
    if a < b then a else b
  }

  function Max(a: nat, b: nat): (r: nat)
    ensures r >= a && r >= b && (r == a || r == b)
  {
    if a < b then b else a
  }

  /** t is the least positive time to live of the records other than OPT, or 0
      when none is positive. */
  predicate LeastPositive(records: seq<Record>, t: nat) {
    && (forall r :: r in records && r.rrtype != TYPE_OPT && r.ttl > 0 ==> 0 < t <= r.ttl)
    && (t > 0 ==> exists r :: r in records && r.rrtype != TYPE_OPT && r.ttl == t)
  }

  lemma LeastPositiveIsUnique(records: seq<Record>, t: nat, u: nat)
    requires LeastPositive(records, t) && LeastPositive(records, u)
    ensures t == u
  {
    if t > 0 { var r :| r in records && r.rrtype != TYPE_OPT && r.ttl == t; }
    if u > 0 { var r :| r in records && r.rrtype != TYPE_OPT && r.ttl == u; }
  }

  function LeastPositiveOf(records: seq<Record>): (t: nat)
    ensures LeastPositive(records, t)
  {
    if records == [] then 0
    else
      var n := |records| - 1;
      var r, t := records[n], LeastPositiveOf(records[..n]);
      assert records == records[..n] + [r];
      if Counts(r) && r.ttl > 0 && (t == 0 || r.ttl < t) then r.ttl else t
  }

  /** The time to live of a response. */
  function ComputedTTL(m: Message): nat {
    var soa := FirstSOA(m.ns);
    if m.answer == [] && soa.Some? then Min(soa.value.ttl, soa.value.kind.minimum)
    else LeastPositiveOf(Records(m))
  }

  /** The negative-caching time of a response without answers is the smaller of
      the time to live and the minimum of its SOA record (section 5 of RFC
      2308). */
  method NegativeTTL(ns: seq<Record>) returns (found: bool, ttl: nat)
    ensures found <==> FirstSOA(ns).Some?
    ensures found ==> ttl == Min(FirstSOA(ns).value.ttl, FirstSOA(ns).value.kind.minimum)
  {
    assert ns[0..] == ns;
    for i := 0 to |ns|
      invariant FirstSOA(ns) == FirstSOA(ns[i..])
    {
      assert ns[i..][1..] == ns[i + 1..];
      if ns[i].kind.KindSOA? {
        return true, Min(ns[i].ttl, ns[i].kind.minimum);
      }
    }
    return false, 0;
  }

  method ComputeTTL(m: Message) returns (ttl: nat)
    ensures m.answer == [] && FirstSOA(m.ns).Some? ==>
              ttl == Min(FirstSOA(m.ns).value.ttl, FirstSOA(m.ns).value.kind.minimum)
    ensures m.answer != [] || FirstSOA(m.ns).None? ==> LeastPositive(Records(m), ttl)
    ensures ttl == ComputedTTL(m)
  {
    if m.answer == [] {
      var found, negative := NegativeTTL(m.ns);
      if found {
        return negative;
      }
    }
    ttl := 0;
    var sections := [m.answer, m.ns, m.extra];
    ghost var done: seq<Record> := [];
    for i := 0 to 3
      invariant LeastPositive(done, ttl)
      invariant done == if i == 0 then [] else if i == 1 then m.answer
                        else if i == 2 then m.answer + m.ns else Records(m)
    {
      ttl := LowerTTL(sections[i], ttl, done);
      done := done + sections[i];
    }
    LeastPositiveIsUnique(Records(m), ttl, LeastPositiveOf(Records(m)));
  }

  /** One section of the loop: the time so far is that of the records before. */
  method LowerTTL(section: seq<Record>, start: nat, ghost before: seq<Record>) returns (ttl: nat)
    requires LeastPositive(before, start)
    ensures LeastPositive(before + section, ttl)
  {
    ttl := start;
    assert before + section[..0] == before;
    for j := 0 to |section|
      invariant LeastPositive(before + section[..j], ttl)
    {
      var r := section[j];
      ghost var done := before + section[..j];
      assert before + section[..j + 1] == done + [r];
      LeastPositiveNext(done, r, ttl);
      if r.rrtype != TYPE_OPT {
        if ttl == 0 || (r.ttl > 0 && r.ttl < ttl) {
          ttl := r.ttl;
        }
      }
    }
    assert section[..|section|] == section;
  }

  lemma LeastPositiveNext(done: seq<Record>, r: Record, ttl: nat)
    requires LeastPositive(done, ttl)
    ensures LeastPositive(done + [r], if Counts(r) && (ttl == 0 || (r.ttl > 0 && r.ttl < ttl)) then r.ttl else ttl)
  {
    assert r in done + [r];
    assert forall x :: x in done + [r] <==> x in done || x == r;
  }

  // ---------------------------------------------------------------------
  // Writing the time back
  // ---------------------------------------------------------------------

  function StampOne(r: Record, ttl: nat): Record { if Counts(r) then r.(ttl := ttl) else r }

  function Stamp(s: seq<Record>, ttl: nat): (t: seq<Record>)
    ensures |t| == |s|
    ensures forall i :: 0 <= i < |s| ==> t[i] == StampOne(s[i], ttl)
  {
    seq(|s|, i requires 0 <= i < |s| => StampOne(s[i], ttl))
  }

  function Stamped(m: Message, ttl: nat): Message {
    m.(answer := Stamp(m.answer, ttl), ns := Stamp(m.ns, ttl), extra := Stamp(m.extra, ttl))
  }

  /** A response whose records are rewritten in place. */
  class Response {
    var answer: array<Record>
    var ns: array<Record>
    var extra: array<Record>

    constructor (m: Message)
      ensures answer[..] == m.answer && ns[..] == m.ns && extra[..] == m.extra
      ensures fresh(answer) && fresh(ns) && fresh(extra)
      ensures answer != ns && ns != extra && answer != extra
    {
      answer := new Record[|m.answer|](i requires 0 <= i < |m.answer| => m.answer[i]);
      ns := new Record[|m.ns|](i requires 0 <= i < |m.ns| => m.ns[i]);
      extra := new Record[|m.extra|](i requires 0 <= i < |m.extra| => m.extra[i]);
    }

    /** Every record but OPT gets the time to live; nothing else changes. */
    method NormalizeTTL(ttl: nat)
      requires answer != ns && ns != extra && answer != extra
      modifies answer, ns, extra
      ensures answer[..] == Stamp(old(answer[..]), ttl)
      ensures ns[..] == Stamp(old(ns[..]), ttl)
      ensures extra[..] == Stamp(old(extra[..]), ttl)
    {
      StampSection(answer, ttl);
      StampSection(ns, ttl);
      StampSection(extra, ttl);
    }
  }

  method StampSection(records: array<Record>, ttl: nat)
    modifies records
    ensures records[..] == Stamp(old(records[..]), ttl)
  {
    for i := 0 to records.Length
      invariant forall j :: 0 <= j < i ==> records[j] == StampOne(old(records[j]), ttl)
      invariant forall j :: i <= j < records.Length ==> records[j] == old(records[j])
    {
      if records[i].rrtype != TYPE_OPT {
        records[i] := records[i].(ttl := ttl);
      }
    }
  }

  /** A copy of the message with its times rewritten. */
  method Restamp(m: Message, ttl: nat) returns (stamped: Message)
    ensures stamped == Stamped(m, ttl)
  {
    var response := new Response(m);
    response.NormalizeTTL(ttl);
    stamped := m.(answer := response.answer[..], ns := response.ns[..], extra := response.extra[..]);
  }

  // ---------------------------------------------------------------------
  // Clamping
  // ---------------------------------------------------------------------

  /** The bounds a client works with: a maximum below the minimum is raised. */
  datatype Bounds = Bounds(min: nat, max: nat)

  function Repaired(min: nat, max: nat): Bounds {
    Bounds(min, if max > 0 && min > max then min else max)
  }

  function Clamp(b: Bounds, ttl: nat): nat {
    var raised := Max(ttl, b.min);
    if b.max > 0 then Min(raised, b.max) else raised
  }

  function FinalTTL(m: Message, b: Bounds, rewrite: Option<nat>): nat {
    if rewrite.Some? then rewrite.value else Clamp(b, ComputedTTL(m))
  }

  /** Without a rewrite the time to live is the computed one when that lies within
      the repaired bounds, the minimum below them and the maximum, if one is set,
      above. A maximum below the minimum counts as the minimum. */
  lemma ClampWithinBounds(min: nat, max: nat, ttl: nat)
    ensures var t := Clamp(Repaired(min, max), ttl);
            && (ttl < min ==> t == min)
            && (max > 0 && ttl > max ==> t == if min <= max then max else min)
            && (min <= ttl && (max == 0 || ttl <= max) ==> t == ttl)
  {
  }

  /** Compute, clamp or rewrite the time to live and write it back. */
  method ApplyResponseOptions(m: Message, b: Bounds, rewrite: Option<nat>) returns (ttl: nat, stamped: Message)
    ensures rewrite.Some? ==> ttl == rewrite.value
    ensures rewrite.None? && b.max > 0 && b.min <= b.max ==> b.min <= ttl <= b.max
    ensures rewrite.None? && m.answer != [] ==> exists t :: LeastPositive(Records(m), t) && ttl == Clamp(b, t)
    ensures ttl == FinalTTL(m, b, rewrite)
    ensures stamped == Stamped(m, ttl)
  {
    var computed := ComputeTTL(m);
    ttl := Max(computed, b.min);
    if b.max > 0 {
      ttl := Min(ttl, b.max);
    }
    if rewrite.Some? {
      ttl := rewrite.value;
    }
    stamped := Restamp(m, ttl);
  }

  /** What stamping means for a reader of the message: one time to live for all
      records but OPT, which keeps its own (section 6.1.3 of RFC 6891). */
  lemma StampedRecords(m: Message, ttl: nat)
    ensures |Records(Stamped(m, ttl))| == |Records(m)|
    ensures forall i :: 0 <= i < |Records(m)| ==>
              var r, t := Records(m)[i], Records(Stamped(m, ttl))[i];
              t == if r.rrtype == TYPE_OPT then r else r.(ttl := ttl)
    ensures (exists r :: r in Records(m) && Counts(r)) ==> LeastPositive(Records(Stamped(m, ttl)), ttl)
  {
    var s := Stamped(m, ttl);
    forall i | 0 <= i < |Records(m)| ensures Records(s)[i] == StampOne(Records(m)[i], ttl) {}
    if exists r :: r in Records(m) && Counts(r) {
      var i :| 0 <= i < |Records(m)| && Counts(Records(m)[i]);
      assert Records(s)[i] in Records(s);
    }
  }
}

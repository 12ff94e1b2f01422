/** DNS messages as the client sees them.

    A record has a kind (the structure it was decoded into) and a type (the
    number in its header); the two normally agree but are stored separately. */
module DnsMessage {

  const TYPE_A := 1
  const TYPE_AAAA := 28
  const TYPE_OPT := 41

  const RCODE_SUCCESS := 0
  const RCODE_NAME_ERROR := 3

  const TWO_32 := 0x1_0000_0000

  datatype Kind = KindA | KindAAAA | KindSOA(minimum: nat) | KindOther

  datatype Record = Record(kind: Kind, rrtype: nat, ttl: nat, data: nat)

  datatype Message = Message(
    id: nat,
    rcode: nat,
    question: nat,
    answer: seq<Record>,
    ns: seq<Record>,
    extra: seq<Record>)

  /** All records of a message, section after section. */
  function Records(m: Message): seq<Record> { m.answer + m.ns + m.extra }

  function Filter(s: seq<Record>, p: Record -> bool): (r: seq<Record>)
    ensures forall x :: x in r ==> x in s && p(x)
  {
    if s == [] then []
    else
      var rest := Filter(s[..|s| - 1], p);
      if p(s[|s| - 1]) then rest + [s[|s| - 1]] else rest
  }

  lemma {:induction false} FilterConcat(a: seq<Record>, b: seq<Record>, p: Record -> bool)
    ensures Filter(a + b, p) == Filter(a, p) + Filter(b, p)
  {
    if b == [] {
      assert a + b == a;
    } else {
      var n := |b| - 1;
      FilterConcat(a, b[..n], p);
      assert (a + b)[..|a + b| - 1] == a + b[..n];
    }
  }

  lemma {:induction false} FilterCount(s: seq<Record>, p: Record -> bool, x: Record)
    ensures multiset(Filter(s, p))[x] == if p(x) then multiset(s)[x] else 0
  {
    if s != [] {
      var n := |s| - 1;
      FilterCount(s[..n], p, x);
      assert s == s[..n] + [s[n]];
    }
  }

  lemma {:induction false} FilterNone(s: seq<Record>, p: Record -> bool)
    requires forall x :: x in s ==> !p(x)
    ensures Filter(s, p) == []
  {
    if s != [] { FilterNone(s[..|s| - 1], p); }
  }

  lemma {:induction false} FilterAll(s: seq<Record>, p: Record -> bool)
    requires forall x :: x in s ==> p(x)
    ensures Filter(s, p) == s
  {
    if s != [] { FilterAll(s[..|s| - 1], p); }
  }

  /** Filtering twice keeps what both conditions keep. */
  lemma {:induction false} FilterTwice(s: seq<Record>, p: Record -> bool, q: Record -> bool, r: Record -> bool)
    requires forall x :: x in s ==> (r(x) <==> p(x) && q(x))
    ensures Filter(Filter(s, p), q) == Filter(s, r)
  {
    if s != [] {
      var n := |s| - 1;
      FilterTwice(s[..n], p, q, r);
      if p(s[n]) { FilterConcat(Filter(s[..n], p), [s[n]], q); assert [s[n]][..0] == []; }
    }
  }
}

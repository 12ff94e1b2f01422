/** Rotating the address records of a cached answer on every load. */
module RoundRobin {
  import opened DnsMessage

  /** The rotation state kept with a cached answer. */
  datatype Indices = Indices(v4: nat, v6: nat)

  predicate IsA(r: Record) { r.kind.KindA? }
  predicate IsAAAA(r: Record) { r.kind.KindAAAA? }
  predicate NotTypeA(r: Record) { r.rrtype != TYPE_A }
  predicate NotTypeAAAA(r: Record) { r.rrtype != TYPE_AAAA }
  predicate IsOther(r: Record) { !IsA(r) && !IsAAAA(r) }

  /** Move the last k records to the front. */
  function RotateBy(s: seq<Record>, k: nat): seq<Record>
    requires k <= |s|
  {
    s[|s| - k..] + s[..|s| - k]
  }

  /** Move the last `steps` records to the front, going round. */
  function Rotate(s: seq<Record>, steps: nat): seq<Record> {
    if |s| <= 1 then s else RotateBy(s, steps % |s|)
  }

  lemma RemainderOf(a: nat, n: nat, quotient: nat, r: nat)
    requires r < n && a == quotient * n + r
    ensures a % n == r
  {
    var other := a / n;
    assert a == other * n + a % n;
    assert other + 1 <= quotient ==> (other + 1) * n <= quotient * n;
    assert quotient + 1 <= other ==> (quotient + 1) * n <= other * n;
  }

  lemma RotateByKeepsRecords(s: seq<Record>, k: nat)
    requires k <= |s|
    ensures multiset(RotateBy(s, k)) == multiset(s)
  {
    assert s == s[..|s| - k] + s[|s| - k..];
  }

  lemma RotateKeepsRecords(s: seq<Record>, steps: nat)
    ensures multiset(Rotate(s, steps)) == multiset(s)
  {
    if |s| > 1 { RotateByKeepsRecords(s, steps % |s|); }
  }

  /** The index of a group after one more load. */
  function NextIndex(index: nat, group: nat): nat { if group > 1 then (index + 1) % group else index }

  function Rotated4(answer: seq<Record>, index: nat): seq<Record> {
    var group := Filter(answer, IsA);
    if |group| > 1 then Filter(answer, NotTypeA) + Rotate(group, NextIndex(index, |group|)) else answer
  }

  function Rotated6(answer: seq<Record>, current: seq<Record>, index: nat): seq<Record> {
    var group := Filter(answer, IsAAAA);
    if |group| > 1 then Filter(current, NotTypeAAAA) + Rotate(group, NextIndex(index, |group|)) else current
  }

  function Advanced(answer: seq<Record>, i: Indices): Indices {
    Indices(NextIndex(i.v4, |Filter(answer, IsA)|), NextIndex(i.v6, |Filter(answer, IsAAAA)|))
  }

  /** The answer handed out by a load, and the indices afterwards. */
  function Load(answer: seq<Record>, i: Indices): (seq<Record>, Indices) {
    (Rotated6(answer, Rotated4(answer, i.v4), i.v6), Advanced(answer, i))
  }

  // ---------------------------------------------------------------------
  // Permutation
  // ---------------------------------------------------------------------

  function After4(rotates: bool, r: Record, count: nat): nat {
    if rotates then (if NotTypeA(r) then count else 0) + (if IsA(r) then count else 0) else count
  }

  function After6(rotates: bool, r: Record, count: nat, current: nat): nat {
    if rotates then (if NotTypeAAAA(r) then current else 0) + (if IsAAAA(r) then count else 0) else current
  }

  /** How often a record stored `count` times comes back in a load: records are
      gathered by kind but taken out by type. */
  function Copies(rotates4: bool, rotates6: bool, r: Record, count: nat): nat {
    After6(rotates6, r, count, After4(rotates4, r, count))
  }

  predicate Rotates4(answer: seq<Record>) { |Filter(answer, IsA)| > 1 }
  predicate Rotates6(answer: seq<Record>) { |Filter(answer, IsAAAA)| > 1 }

  lemma Count4(answer: seq<Record>, index: nat, r: Record)
    ensures multiset(Rotated4(answer, index))[r] == After4(Rotates4(answer), r, multiset(answer)[r])
  {
    FilterCount(answer, IsA, r);
    FilterCount(answer, NotTypeA, r);
    RotateKeepsRecords(Filter(answer, IsA), NextIndex(index, |Filter(answer, IsA)|));
  }

  lemma Count6(answer: seq<Record>, current: seq<Record>, index: nat, r: Record)
    ensures multiset(Rotated6(answer, current, index))[r]
         == After6(Rotates6(answer), r, multiset(answer)[r], multiset(current)[r])
  {
    FilterCount(answer, IsAAAA, r);
    FilterCount(current, NotTypeAAAA, r);
    RotateKeepsRecords(Filter(answer, IsAAAA), NextIndex(index, |Filter(answer, IsAAAA)|));
  }

  lemma LoadCount(answer: seq<Record>, i: Indices, r: Record)
    ensures multiset(Load(answer, i).0)[r]
         == Copies(Rotates4(answer), Rotates6(answer), r, multiset(answer)[r])
  {
    Count4(answer, i.v4, r);
    Count6(answer, Rotated4(answer, i.v4), i.v6, r);
  }

  predicate TypeA(r: Record) { r.rrtype == TYPE_A }
  predicate TypeAAAA(r: Record) { r.rrtype == TYPE_AAAA }

  /** What the header type of a record may be, given its kind, for the record to
      come back as often as it is stored. It depends on which groups rotate:
      with one group, kind and type must agree about that group; with both, an
      AAAA record may pass for an A record, since it is taken out with the A
      records and put back with the AAAA records. */
  predicate Consistent(rotates4: bool, rotates6: bool, r: Record) {
    if rotates4 && rotates6 then
      if IsA(r) then TypeA(r)
      else if IsAAAA(r) then TypeA(r) || TypeAAAA(r)
      else !TypeA(r) && !TypeAAAA(r)
    else if rotates4 then IsA(r) <==> TypeA(r)
    else if rotates6 then IsAAAA(r) <==> TypeAAAA(r)
    else true
  }

  lemma CopiesIff(rotates4: bool, rotates6: bool, r: Record, count: nat)
    requires count > 0
    ensures Copies(rotates4, rotates6, r, count) == count <==> Consistent(rotates4, rotates6, r)
  {
  }

  lemma OnceIff(answer: seq<Record>, i: Indices, r: Record)
    requires r in answer
    ensures multiset(Load(answer, i).0)[r] == multiset(answer)[r]
       <==> Consistent(Rotates4(answer), Rotates6(answer), r)
  {
    LoadCount(answer, i, r);
    assert r in multiset(answer);
    CopiesIff(Rotates4(answer), Rotates6(answer), r, multiset(answer)[r]);
  }

  lemma AbsentStaysAbsent(answer: seq<Record>, i: Indices, r: Record)
    requires r !in answer
    ensures multiset(Load(answer, i).0)[r] == multiset(answer)[r]
  {
    LoadCount(answer, i, r);
    assert r !in multiset(answer);
  }

  /** A load hands out a permutation of the stored answer exactly when every
      record's type is consistent with its kind. */
  lemma LoadIsPermutationIff(answer: seq<Record>, i: Indices)
    ensures multiset(Load(answer, i).0) == multiset(answer) <==>
            forall r :: r in answer ==> Consistent(Rotates4(answer), Rotates6(answer), r)
  {
    forall r | r in answer
      ensures multiset(Load(answer, i).0)[r] == multiset(answer)[r]
         <==> Consistent(Rotates4(answer), Rotates6(answer), r)
    {
      OnceIff(answer, i, r);
    }
    forall r | r !in answer ensures multiset(Load(answer, i).0)[r] == multiset(answer)[r] {
      AbsentStaysAbsent(answer, i, r);
    }
  }

  /** Kind and type agree, as they do in every message decoded from the wire. */
  predicate WellTyped(answer: seq<Record>) {
    forall r :: r in answer ==> (IsA(r) <==> TypeA(r)) && (IsAAAA(r) <==> TypeAAAA(r))
  }

  lemma WellTypedIsPermuted(answer: seq<Record>, i: Indices)
    requires WellTyped(answer)
    ensures multiset(Load(answer, i).0) == multiset(answer)
  {
    LoadIsPermutationIff(answer, i);
  }

  /** What agreement is needed for: a record of another kind with the type of an
      A record would disappear from an answer with two A records. */
  lemma MistypedRecordIsLost()
    ensures var a, b := Record(KindA, TYPE_A, 60, 1), Record(KindA, TYPE_A, 60, 2);
            var text := Record(KindOther, TYPE_A, 60, 3);
            multiset(Load([a, b, text], Indices(0, 0)).0) != multiset([a, b, text])
  {
    var a, b, text := Record(KindA, TYPE_A, 60, 1), Record(KindA, TYPE_A, 60, 2), Record(KindOther, TYPE_A, 60, 3);
    var answer := [a, b, text];
    assert answer[..2] == [a, b] && answer[..2][..1] == [a] && [a][..0] == [];
    assert Filter([a], IsA) == [a];
    assert Filter([a, b], IsA) == [a, b];
    assert Filter(answer, IsA) == [a, b];
    LoadIsPermutationIff(answer, Indices(0, 0));
    assert text in answer && !Consistent(Rotates4(answer), Rotates6(answer), text);
  }

  // ---------------------------------------------------------------------
  // Order
  // ---------------------------------------------------------------------

  lemma {:induction false} FilterSame(s: seq<Record>, p: Record -> bool, q: Record -> bool)
    requires forall x :: x in s ==> (p(x) <==> q(x))
    ensures Filter(s, p) == Filter(s, q)
  {
    if s != [] { FilterSame(s[..|s| - 1], p, q); }
  }

  lemma RotatedMembers(s: seq<Record>, steps: nat, x: Record)
    requires x in Rotate(s, steps)
    ensures x in s
  {
    RotateKeepsRecords(s, steps);
    assert x in multiset(Rotate(s, steps));
  }

  lemma Rotated4Parts(answer: seq<Record>, index: nat)
    requires WellTyped(answer)
    ensures WellTyped(Rotated4(answer, index))
    ensures Filter(Rotated4(answer, index), IsOther) == Filter(answer, IsOther)
    ensures Filter(Rotated4(answer, index), IsAAAA) == Filter(answer, IsAAAA)
    ensures Filter(Rotated4(answer, index), IsA)
         == Rotate(Filter(answer, IsA), NextIndex(index, |Filter(answer, IsA)|))
  {
    var group := Filter(answer, IsA);
    if |group| > 1 {
      var kept := Filter(answer, NotTypeA);
      var moved := Rotate(group, NextIndex(index, |group|));
      forall x | x in moved ensures IsA(x) && x in answer { RotatedMembers(group, NextIndex(index, |group|), x); }
      FilterConcat(kept, moved, IsOther);
      FilterConcat(kept, moved, IsAAAA);
      FilterConcat(kept, moved, IsA);
      FilterNone(moved, IsOther);
      FilterNone(moved, IsAAAA);
      FilterAll(moved, IsA);
      FilterTwice(answer, NotTypeA, IsOther, IsOther);
      FilterTwice(answer, NotTypeA, IsAAAA, IsAAAA);
      FilterNone(kept, IsA);
    }
  }

  /** Each load keeps the other records in order and hands out each address
      group rotated by its index. */
  lemma LoadParts(answer: seq<Record>, i: Indices)
    requires WellTyped(answer)
    ensures var out := Load(answer, i).0;
      && Filter(out, IsOther) == Filter(answer, IsOther)
      && Filter(out, IsA) == Rotate(Filter(answer, IsA), NextIndex(i.v4, |Filter(answer, IsA)|))
      && Filter(out, IsAAAA) == Rotate(Filter(answer, IsAAAA), NextIndex(i.v6, |Filter(answer, IsAAAA)|))
  {
    var current := Rotated4(answer, i.v4);
    Rotated4Parts(answer, i.v4);
    var group := Filter(answer, IsAAAA);
    if |group| > 1 {
      var kept := Filter(current, NotTypeAAAA);
      var moved := Rotate(group, NextIndex(i.v6, |group|));
      forall x | x in moved ensures IsAAAA(x) { RotatedMembers(group, NextIndex(i.v6, |group|), x); }
      FilterConcat(kept, moved, IsOther);
      FilterConcat(kept, moved, IsA);
      FilterConcat(kept, moved, IsAAAA);
      FilterNone(moved, IsOther);
      FilterNone(moved, IsA);
      FilterAll(moved, IsAAAA);
      FilterTwice(current, NotTypeAAAA, IsOther, IsOther);
      FilterTwice(current, NotTypeAAAA, IsA, IsA);
      FilterNone(kept, IsAAAA);
    }
  }

  // ---------------------------------------------------------------------
  // Fairness
  // ---------------------------------------------------------------------

  /** The rotation state after k loads of an unchanged answer. */
  function After(answer: seq<Record>, i: Indices, k: nat): Indices {
    if k == 0 then i else Advanced(answer, After(answer, i, k - 1))
  }

  function IndexAfter(index: nat, group: nat, k: nat): nat {
    if k == 0 then index else NextIndex(IndexAfter(index, group, k - 1), group)
  }

  lemma {:induction false} AfterIs(answer: seq<Record>, i: Indices, k: nat)
    ensures After(answer, i, k) == Indices(IndexAfter(i.v4, |Filter(answer, IsA)|, k),
                                           IndexAfter(i.v6, |Filter(answer, IsAAAA)|, k))
  {
    if k > 0 { AfterIs(answer, i, k - 1); }
  }

  lemma NextWraps(index: nat, group: nat)
    requires index < group && 1 < group
    ensures NextIndex(index, group) == if index + 1 < group then index + 1 else 0
  {
    if index + 1 < group { RemainderOf(index + 1, group, 0, index + 1); } else { RemainderOf(index + 1, group, 1, 0); }
  }

  lemma {:induction false} IndexWraps(index: nat, group: nat, k: nat)
    requires index < group && 1 < group && k <= group
    ensures IndexAfter(index, group, k) == if index + k < group then index + k else index + k - group
  {
    if k > 0 {
      IndexWraps(index, group, k - 1);
      NextWraps(IndexAfter(index, group, k - 1), group);
    }
  }

  /** The stored position of the record that heads a group rotated by `index`. */
  function HeadPosition(index: nat, group: nat): nat
    requires index < group
  {
    if index == 0 then 0 else group - index
  }

  lemma HeadIsFirst(s: seq<Record>, index: nat)
    requires |s| > 1 && index < |s|
    ensures |Rotate(s, index)| == |s| && Rotate(s, index)[0] == s[HeadPosition(index, |s|)]
  {
    RemainderOf(index, |s|, 0, index);
  }

  /** Where every record of a group goes: each moves on by `index` places, going
      round. */
  lemma RotatePositions(s: seq<Record>, index: nat, j: nat)
    requires |s| > 1 && index < |s| && j < |s|
    ensures |Rotate(s, index)| == |s|
    ensures Rotate(s, index)[if j + index < |s| then j + index else j + index - |s|] == s[j]
  {
    RemainderOf(index, |s|, 0, index);
  }

  /** The load, counted from 1, at which position p heads the group. */
  function Turn(index: nat, group: nat, p: nat): nat
    requires index < group && p < group
  {
    var target := if p == 0 then 0 else group - p;
    if target > index then target - index else target + group - index
  }

  /** Over any n consecutive loads of an unchanged answer with n > 1 records in
      a group, the record at each position heads its group exactly once. */
  lemma EachHeadsOnce(group: nat, index: nat, p: nat, k: nat)
    requires group > 1 && index < group && p < group && 1 <= k <= group
    ensures IndexAfter(index, group, k) < group
    ensures HeadPosition(IndexAfter(index, group, k), group) == p <==> k == Turn(index, group, p)
    ensures 1 <= Turn(index, group, p) <= group
  {
    IndexWraps(index, group, k);
  }

  /** A group of a kind in the answers themselves: among n consecutive loads
      the address stored at position p of its group comes first in the group at
      load number Turn, and any other load puts another position first. */
  lemma GroupTakesTurns(group: seq<Record>, index: nat, p: nat, k: nat)
    requires |group| > 1 && index < |group| && p < |group| && 1 <= k <= |group|
    ensures var n := |group|;
            var out := Rotate(group, IndexAfter(index, n, k));
            && IndexAfter(index, n, k) < n && |out| == n && out[0] == group[HeadPosition(IndexAfter(index, n, k), n)]
            && (HeadPosition(IndexAfter(index, n, k), n) == p <==> k == Turn(index, n, p))
  {
    EachHeadsOnce(|group|, index, p, k);
    HeadIsFirst(group, IndexAfter(index, |group|, k));
  }

  lemma AddressesTakeTurns(answer: seq<Record>, i: Indices, p: nat, k: nat)
    requires WellTyped(answer)
    requires var n := |Filter(answer, IsA)|; n > 1 && i.v4 < n && p < n && 1 <= k <= n
    ensures var group := Filter(answer, IsA);
            var out := Filter(Load(answer, After(answer, i, k - 1)).0, IsA);
            var index := After(answer, i, k).v4;
            && index < |group| == |out| && out[0] == group[HeadPosition(index, |group|)]
            && (HeadPosition(index, |group|) == p <==> k == Turn(i.v4, |group|, p))
  {
    LoadParts(answer, After(answer, i, k - 1));
    AfterIs(answer, i, k);
    AfterIs(answer, i, k - 1);
    GroupTakesTurns(Filter(answer, IsA), i.v4, p, k);
  }

  lemma LongAddressesTakeTurns(answer: seq<Record>, i: Indices, p: nat, k: nat)
    requires WellTyped(answer)
    requires var n := |Filter(answer, IsAAAA)|; n > 1 && i.v6 < n && p < n && 1 <= k <= n
    ensures var group := Filter(answer, IsAAAA);
            var out := Filter(Load(answer, After(answer, i, k - 1)).0, IsAAAA);
            var index := After(answer, i, k).v6;
            && index < |group| == |out| && out[0] == group[HeadPosition(index, |group|)]
            && (HeadPosition(index, |group|) == p <==> k == Turn(i.v6, |group|, p))
  {
    LoadParts(answer, After(answer, i, k - 1));
    AfterIs(answer, i, k);
    AfterIs(answer, i, k - 1);
    GroupTakesTurns(Filter(answer, IsAAAA), i.v6, p, k);
  }

  method CollectAddresses(answer: seq<Record>, four: bool) returns (group: seq<Record>)
    ensures group == Filter(answer, if four then IsA else IsAAAA)
  {
    group := [];
    for i := 0 to |answer|
      invariant group == Filter(answer[..i], if four then IsA else IsAAAA)
    {
      assert answer[..i + 1][..i] == answer[..i];
      if (four && answer[i].kind.KindA?) || (!four && answer[i].kind.KindAAAA?) {
        group := group + [answer[i]];
      }
    }
    assert answer[..|answer|] == answer;
  }

  method RemoveType(answer: seq<Record>, rrtype: nat) returns (kept: seq<Record>)
    requires rrtype == TYPE_A || rrtype == TYPE_AAAA
    ensures kept == Filter(answer, if rrtype == TYPE_A then NotTypeA else NotTypeAAAA)
  {
    kept := [];
    for i := 0 to |answer|
      invariant kept == Filter(answer[..i], if rrtype == TYPE_A then NotTypeA else NotTypeAAAA)
    {
      assert answer[..i + 1][..i] == answer[..i];
      if answer[i].rrtype != rrtype {
        kept := kept + [answer[i]];
      }
    }
    assert answer[..|answer|] == answer;
  }

  /** Rotate the addresses of an answer and advance the indices. */
  method ApplyRoundRobin(answer: seq<Record>, i: Indices) returns (out: seq<Record>, next: Indices)
    ensures (out, next) == Load(answer, i)
  {
    var group4 := CollectAddresses(answer, true);
    var group6 := CollectAddresses(answer, false);
    out, next := answer, i;
    if |group4| > 1 {
      var index := (i.v4 + 1) % |group4|;
      next := next.(v4 := index);
      var kept := RemoveType(out, TYPE_A);
      out := kept + Rotate(group4, index);
    }
    if |group6| > 1 {
      var index := (i.v6 + 1) % |group6|;
      next := next.(v6 := index);
      var kept := RemoveType(out, TYPE_AAAA);
      out := kept + Rotate(group6, index);
    }
  }
}

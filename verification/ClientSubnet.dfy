/** The client subnet option of EDNS(0) in queries (RFC 7871), and the part of
    the cache key that stands for it. */
module ClientSubnet {
  import opened Optional

  type Byte = x: int | 0 <= x < 256

  /** An IP address: four or sixteen bytes. */
  predicate IsAddress(a: seq<Byte>) { |a| == 4 || |a| == 16 }

  /** An address prefix; bits is -1 in an invalid one. */
  datatype RawPrefix = Prefix(addr: seq<Byte>, bits: int)

  type Prefix = p: RawPrefix | -1 <= p.bits && (p.bits >= 0 ==> IsAddress(p.addr) && p.bits <= 8 * |p.addr|)
    witness Prefix([], -1)

  const NO_PREFIX: Prefix := Prefix([], -1)

  predicate Valid(p: Prefix) { p.bits >= 0 }

  predicate Mapped(a: seq<Byte>) {
    |a| == 16 && (forall i :: 0 <= i < 10 ==> a[i] == 0) && a[10] == 255 && a[11] == 255
  }

  function Unmap(a: seq<Byte>): (b: seq<Byte>)
    ensures IsAddress(a) ==> IsAddress(b)
  {
    if Mapped(a) then a[12..] else a
  }

  /** A prefix of so many bits, invalid when the address has fewer. */
  function PrefixFrom(a: seq<Byte>, bits: nat): Prefix
    requires IsAddress(a)
  {
    Prefix(a, if bits <= 8 * |a| then bits else -1)
  }

  // ---------------------------------------------------------------------
  // Messages as values
  // ---------------------------------------------------------------------

  const CODE_SUBNET := 8

  /** `Other` options may carry any code, also the one of the subnet option. */
  datatype OptionValue =
    | Subnet(family: nat, netmask: Byte, scope: nat, address: seq<Byte>)
    | Other(code: nat, data: nat)

  datatype RecordValue = Opt(header: nat, options: seq<OptionValue>) | Plain(content: nat)

  predicate HasSubnetCode(o: OptionValue) { o.Subnet? || o.code == CODE_SUBNET }

  predicate NoSubnet(options: seq<OptionValue>) { forall i :: 0 <= i < |options| ==> !options[i].Subnet? }

  /** The position of the first subnet option. */
  function FirstSubnet(options: seq<OptionValue>): (r: Option<nat>)
    ensures r.Some? ==> r.value < |options| && options[r.value].Subnet? && NoSubnet(options[..r.value])
    ensures r.None? <==> NoSubnet(options)
  {
    if options == [] then None
    else
      var n := |options| - 1;
      var r := FirstSubnet(options[..n]);
      if r.Some? then assert options[..n][..r.value] == options[..r.value]; r
      else if options[n].Subnet? then Some(n)
      else None
  }

  predicate Carries(r: RecordValue) { r.Opt? && !NoSubnet(r.options) }

  predicate NoneCarries(extra: seq<RecordValue>) { forall i :: 0 <= i < |extra| ==> !Carries(extra[i]) }

  /** The position of the first record that carries a subnet option. */
  function FirstCarrier(extra: seq<RecordValue>): (r: Option<nat>)
    ensures r.Some? ==> r.value < |extra| && Carries(extra[r.value]) && NoneCarries(extra[..r.value])
    ensures r.None? <==> NoneCarries(extra)
  {
    if extra == [] then None
    else
      var n := |extra| - 1;
      var r := FirstCarrier(extra[..n]);
      if r.Some? then assert extra[..n][..r.value] == extra[..r.value]; r
      else if Carries(extra[n]) then Some(n)
      else None
  }

  lemma FirstSubnetIs(options: seq<OptionValue>, k: nat)
    requires k < |options| && options[k].Subnet? && NoSubnet(options[..k])
    ensures FirstSubnet(options) == Some(k)
  {
    var r := FirstSubnet(options);
    assert !NoSubnet(options);
    forall i | 0 <= i < k ensures !options[i].Subnet? { assert options[..k][i] == options[i]; }
    forall i | 0 <= i < r.value ensures !options[i].Subnet? { assert options[..r.value][i] == options[i]; }
  }

  lemma FirstCarrierIs(extra: seq<RecordValue>, k: nat)
    requires k < |extra| && Carries(extra[k]) && NoneCarries(extra[..k])
    ensures FirstCarrier(extra) == Some(k)
  {
    var r := FirstCarrier(extra);
    assert !NoneCarries(extra);
    forall i | 0 <= i < k ensures !Carries(extra[i]) { assert extra[..k][i] == extra[i]; }
    forall i | 0 <= i < r.value ensures !Carries(extra[i]) { assert extra[..r.value][i] == extra[i]; }
  }

  /** The subnet a message asks for. */
  function ReadOption(o: OptionValue): Prefix
    requires o.Subnet?
  {
    if IsAddress(o.address) then PrefixFrom(Unmap(o.address), o.netmask) else NO_PREFIX
  }

  function ReadSubnet(extra: seq<RecordValue>): Prefix {
    var r := FirstCarrier(extra);
    if r.None? then NO_PREFIX
    else
      var options := extra[r.value].options;
      ReadOption(options[FirstSubnet(options).value])
  }

  function Family(p: Prefix): nat { if |p.addr| == 4 then 1 else 2 }

  /** A subnet option set to a prefix. */
  function Patched(o: OptionValue, p: Prefix): OptionValue
    requires o.Subnet? && Valid(p)
  {
    Subnet(Family(p), p.bits, o.scope, p.addr)
  }

  function NewOption(p: Prefix): OptionValue
    requires Valid(p)
  {
    Subnet(Family(p), p.bits, 0, p.addr)
  }

  /** The message with its subnet set: in its first subnet option; failing that,
      in a new option of the last record, if that is an OPT record; failing
      that, in a new OPT record. */
  function WithSubnet(extra: seq<RecordValue>, p: Prefix): seq<RecordValue>
    requires Valid(p)
  {
    var r := FirstCarrier(extra);
    var n := |extra|;
    if r.Some? then
      var options := extra[r.value].options;
      var k := FirstSubnet(options).value;
      extra[r.value := Opt(extra[r.value].header, options[k := Patched(options[k], p)])]
    else if n > 0 && extra[n - 1].Opt? then
      extra[n - 1 := Opt(extra[n - 1].header, extra[n - 1].options + [NewOption(p)])]
    else extra + [Opt(0, [NewOption(p)])]
  }

  function WithoutCode(options: seq<OptionValue>): (r: seq<OptionValue>)
    ensures forall o :: o in r <==> o in options && !o.Subnet? && o.code != 8
  {
    if options == [] then []
    else
      var n := |options| - 1;
      var rest := WithoutCode(options[..n]);
      assert options == options[..n] + [options[n]];
      if HasSubnetCode(options[n]) then rest else rest + [options[n]]
  }

  function Cleared(r: RecordValue): RecordValue {
    if r.Opt? then Opt(r.header, WithoutCode(r.options)) else r
  }

  function WithoutSubnet(extra: seq<RecordValue>): (out: seq<RecordValue>)
    ensures |out| == |extra| && forall i :: 0 <= i < |extra| ==> out[i] == Cleared(extra[i])
  {
    seq(|extra|, i requires 0 <= i < |extra| => Cleared(extra[i]))
  }

  // ---------------------------------------------------------------------
  // Preparing a query and its key
  // ---------------------------------------------------------------------

  datatype Options = Options(remove: bool, subnet: Prefix)

  /** The subnet set by the options of the query, else by those of the client. */
  function Override(o: Options, default: Prefix): Prefix { if Valid(o.subnet) then o.subnet else default }

  function Prepared(extra: seq<RecordValue>, o: Options, default: Prefix): seq<RecordValue> {
    if o.remove then WithoutSubnet(extra)
    else if Valid(Override(o, default)) then WithSubnet(extra, Override(o, default))
    else extra
  }

  /** The subnet in the cache key of a message. */
  function KeySubnet(extra: seq<RecordValue>, o: Options, default: Prefix): Prefix {
    if o.remove then NO_PREFIX
    else if Valid(Override(o, default)) then Override(o, default)
    else ReadSubnet(extra)
  }

  lemma ReadAfterRemove(extra: seq<RecordValue>)
    ensures ReadSubnet(WithoutSubnet(extra)) == NO_PREFIX
  {
    var out := WithoutSubnet(extra);
    forall i | 0 <= i < |out| ensures !Carries(out[i]) {
      if out[i].Opt? {
        forall j | 0 <= j < |out[i].options| ensures !out[i].options[j].Subnet? {
          assert out[i].options[j] in out[i].options;
        }
      }
    }
  }

  /** The first subnet option of the message is there and says p. */
  predicate Says(extra: seq<RecordValue>, p: Prefix) {
    var r := FirstCarrier(extra);
    && r.Some?
    && var options := extra[r.value].options;
       var o := options[FirstSubnet(options).value];
       && o.family == (if |p.addr| == 4 then 1 else 2)
       && o.netmask == p.bits && o.address == p.addr
  }

  /** The first subnet option of the message. */
  function FirstOption(extra: seq<RecordValue>): OptionValue
    requires FirstCarrier(extra).Some?
  {
    var options := extra[FirstCarrier(extra).value].options;
    options[FirstSubnet(options).value]
  }

  /** An option that is patched keeps its scope, a new one has none. */
  predicate KeepsScope(extra: seq<RecordValue>, out: seq<RecordValue>) {
    && FirstCarrier(out).Some? && FirstOption(out).Subnet?
    && FirstOption(out).scope == if FirstCarrier(extra).Some? then FirstOption(extra).scope else 0
  }

  lemma PatchSays(extra: seq<RecordValue>, p: Prefix)
    requires Valid(p) && FirstCarrier(extra).Some?
    ensures Says(WithSubnet(extra, p), p) && KeepsScope(extra, WithSubnet(extra, p))
  {
    var r := FirstCarrier(extra).value;
    var options := extra[r].options;
    var k := FirstSubnet(options).value;
    var out := WithSubnet(extra, p);
    var patched := options[k := Patched(options[k], p)];
    assert out[r] == Opt(extra[r].header, patched);
    assert patched[..k] == options[..k];
    FirstSubnetIs(patched, k);
    assert out[..r] == extra[..r];
    FirstCarrierIs(out, r);
  }

  lemma AppendSays(extra: seq<RecordValue>, p: Prefix)
    requires Valid(p) && FirstCarrier(extra).None?
    ensures Says(WithSubnet(extra, p), p) && KeepsScope(extra, WithSubnet(extra, p))
  {
    var out := WithSubnet(extra, p);
    var last := |out| - 1;
    var options := out[last].options;
    var k := |options| - 1;
    if |extra| > 0 && extra[|extra| - 1].Opt? {
      assert options[..k] == extra[last].options;
      assert NoSubnet(extra[last].options);
    } else {
      assert options[..k] == [];
    }
    FirstSubnetIs(options, k);
    forall i | 0 <= i < last ensures !Carries(out[..last][i]) { assert out[i] == extra[i]; }
    FirstCarrierIs(out, last);
  }

  /** After setting a subnet the message says it: the family of the address (1 for
      IPv4 and 2 for IPv6), the length and the address. */
  lemma SetSays(extra: seq<RecordValue>, p: Prefix)
    requires Valid(p)
    ensures Says(WithSubnet(extra, p), p) && KeepsScope(extra, WithSubnet(extra, p))
  {
    if FirstCarrier(extra).Some? { PatchSays(extra, p); } else { AppendSays(extra, p); }
  }

  /** What is read back after setting a subnet: the prefix itself exactly when
      its address is not an IPv4 address written as an IPv6 one. */
  lemma ReadAfterSet(extra: seq<RecordValue>, p: Prefix)
    requires Valid(p)
    ensures ReadSubnet(WithSubnet(extra, p)) == PrefixFrom(Unmap(p.addr), p.bits)
    ensures ReadSubnet(WithSubnet(extra, p)) == p <==> !Mapped(p.addr)
  {
    SetSays(extra, p);
  }

  /** Setting the subnet a message says already changes nothing. */
  lemma SetAgain(out: seq<RecordValue>, p: Prefix)
    requires Valid(p) && Says(out, p)
    ensures WithSubnet(out, p) == out
  {
    var r := FirstCarrier(out).value;
    var options := out[r].options;
    var k := FirstSubnet(options).value;
    assert Patched(options[k], p) == options[k] && options[k := options[k]] == options;
  }

  lemma SetTwice(extra: seq<RecordValue>, p: Prefix)
    requires Valid(p)
    ensures WithSubnet(WithSubnet(extra, p), p) == WithSubnet(extra, p)
  {
    SetSays(extra, p);
    SetAgain(WithSubnet(extra, p), p);
  }

  lemma {:induction false} FilterNothing(options: seq<OptionValue>)
    requires forall o :: o in options ==> !HasSubnetCode(o)
    ensures WithoutCode(options) == options
  {
    if options != [] {
      FilterNothing(options[..|options| - 1]);
      assert options == options[..|options| - 1] + [options[|options| - 1]];
    }
  }

  lemma ClearedTwice(r: RecordValue)
    ensures Cleared(Cleared(r)) == Cleared(r)
  {
    if r.Opt? { FilterNothing(WithoutCode(r.options)); }
  }

  // ---------------------------------------------------------------------
  // What setting and removing leave alone
  // ---------------------------------------------------------------------

  /** The options other than subnet options, in order. */
  function OtherOptions(options: seq<OptionValue>): seq<OptionValue> {
    if options == [] then []
    else
      var n := |options| - 1;
      OtherOptions(options[..n]) + if options[n].Subnet? then [] else [options[n]]
  }

  /** What the records hold besides subnet options, in order. */
  function OtherContent(extra: seq<RecordValue>): (seq<nat>, seq<OptionValue>) {
    if extra == [] then ([], [])
    else
      var n := |extra| - 1;
      var rest := OtherContent(extra[..n]);
      match extra[n]
      case Plain(content) => (rest.0 + [content], rest.1)
      case Opt(_, options) => (rest.0, rest.1 + OtherOptions(options))
  }

  lemma {:induction false} PatchKeepsOthers(options: seq<OptionValue>, k: nat, o: OptionValue)
    requires k < |options| && options[k].Subnet? && o.Subnet?
    ensures OtherOptions(options[k := o]) == OtherOptions(options)
  {
    var n := |options| - 1;
    if k < n {
      PatchKeepsOthers(options[..n], k, o);
      assert options[k := o][..n] == options[..n][k := o];
    } else {
      assert options[k := o][..n] == options[..n];
    }
  }

  lemma AppendKeepsOthers(options: seq<OptionValue>, o: OptionValue)
    requires o.Subnet?
    ensures OtherOptions(options + [o]) == OtherOptions(options)
  {
    assert (options + [o])[..|options|] == options;
  }

  lemma {:induction false} ReplaceKeepsOthers(extra: seq<RecordValue>, r: nat, header: nat, options: seq<OptionValue>)
    requires r < |extra| && extra[r].Opt? && OtherOptions(options) == OtherOptions(extra[r].options)
    ensures OtherContent(extra[r := Opt(header, options)]) == OtherContent(extra)
  {
    var n := |extra| - 1;
    var changed := extra[r := Opt(header, options)];
    if r < n {
      ReplaceKeepsOthers(extra[..n], r, header, options);
      assert changed[..n] == extra[..n][r := Opt(header, options)];
    } else {
      assert changed[..n] == extra[..n];
    }
  }

  lemma PatchedKeepsOthers(extra: seq<RecordValue>, p: Prefix, r: nat, k: nat)
    requires Valid(p) && r < |extra| && extra[r].Opt? && k < |extra[r].options| && extra[r].options[k].Subnet?
    ensures var options := extra[r].options;
            OtherContent(extra[r := Opt(extra[r].header, options[k := Patched(options[k], p)])]) == OtherContent(extra)
  {
    var options := extra[r].options;
    PatchKeepsOthers(options, k, Patched(options[k], p));
    ReplaceKeepsOthers(extra, r, extra[r].header, options[k := Patched(options[k], p)]);
  }

  lemma ExtendedKeepsOthers(extra: seq<RecordValue>, o: OptionValue, r: nat)
    requires r < |extra| && extra[r].Opt? && o.Subnet?
    ensures OtherContent(extra[r := Opt(extra[r].header, extra[r].options + [o])]) == OtherContent(extra)
  {
    AppendKeepsOthers(extra[r].options, o);
    ReplaceKeepsOthers(extra, r, extra[r].header, extra[r].options + [o]);
  }

  lemma AddedKeepsOthers(extra: seq<RecordValue>, o: OptionValue)
    requires o.Subnet?
    ensures OtherContent(extra + [Opt(0, [o])]) == OtherContent(extra)
  {
    AppendKeepsOthers([], o);
    assert [] + [o] == [o];
    assert (extra + [Opt(0, [o])])[..|extra|] == extra;
    assert OtherContent(extra).1 + [] == OtherContent(extra).1;
  }

  /** Setting a subnet changes nothing else in the message: neither the other
      options and records, nor the headers of the OPT records. */
  lemma SetKeepsOthers(extra: seq<RecordValue>, p: Prefix)
    requires Valid(p)
    ensures OtherContent(WithSubnet(extra, p)) == OtherContent(extra)
    ensures |extra| <= |WithSubnet(extra, p)|
    ensures forall i :: 0 <= i < |extra| && extra[i].Opt? ==>
              WithSubnet(extra, p)[i].Opt? && WithSubnet(extra, p)[i].header == extra[i].header
  {
    var r := FirstCarrier(extra);
    var n := |extra|;
    if r.Some? {
      PatchedKeepsOthers(extra, p, r.value, FirstSubnet(extra[r.value].options).value);
    } else if n > 0 && extra[n - 1].Opt? {
      ExtendedKeepsOthers(extra, NewOption(p), n - 1);
    } else {
      AddedKeepsOthers(extra, NewOption(p));
    }
  }

  /** Removing changes nothing else either. */
  lemma RemoveKeepsOthers(extra: seq<RecordValue>, i: nat)
    requires i < |extra|
    ensures var out := WithoutSubnet(extra);
            && |out| == |extra| && (extra[i].Plain? ==> out[i] == extra[i])
            && (extra[i].Opt? ==> out[i].Opt? && out[i].header == extra[i].header)
            && (extra[i].Opt? ==> forall o :: o in out[i].options <==>
                  o in extra[i].options && !o.Subnet? && o.code != CODE_SUBNET)
  {
  }

  /** Removing keeps the order of what stays. */
  lemma {:induction false} RemoveKeepsOrder(a: seq<OptionValue>, b: seq<OptionValue>)
    ensures WithoutCode(a + b) == WithoutCode(a) + WithoutCode(b)
  {
    if b == [] {
      assert a + b == a;
    } else {
      var n := |b| - 1;
      RemoveKeepsOrder(a, b[..n]);
      assert (a + b)[..|a + b| - 1] == a + b[..n];
    }
  }

  /** The key speaks of the subnet that is sent: for every query, whatever its
      records, the subnet in the key is the one a server reads from the prepared
      message, unless the subnet was overridden with a mapped IPv4 address. */
  lemma KeyMatchesQuery(extra: seq<RecordValue>, o: Options, default: Prefix)
    ensures KeySubnet(extra, o, default) == ReadSubnet(Prepared(extra, o, default))
       <==> o.remove || !Valid(Override(o, default)) || !Mapped(Override(o, default).addr)
  {
    if o.remove {
      ReadAfterRemove(extra);
    } else if Valid(Override(o, default)) {
      ReadAfterSet(extra, Override(o, default));
    }
  }

  /** What a server reads from the prepared message: nothing when the subnet is to
      be removed; else the subnet of the query's own options, else that of the
      client's, else what the message said. */
  lemma SubnetSent(extra: seq<RecordValue>, o: Options, default: Prefix)
    ensures var sent := ReadSubnet(Prepared(extra, o, default));
            if o.remove then sent == NO_PREFIX
            else if Valid(o.subnet) then sent == PrefixFrom(Unmap(o.subnet.addr), o.subnet.bits)
            else if Valid(default) then sent == PrefixFrom(Unmap(default.addr), default.bits)
            else sent == ReadSubnet(extra)
  {
    if o.remove {
      ReadAfterRemove(extra);
    } else if Valid(o.subnet) {
      ReadAfterSet(extra, o.subnet);
    } else if Valid(default) {
      ReadAfterSet(extra, default);
    }
  }

  /** The key is the same whether taken from the caller's message or from the
      prepared one, and preparing twice changes nothing more. */
  lemma KeyIsStable(extra: seq<RecordValue>, o: Options, default: Prefix)
    ensures KeySubnet(Prepared(extra, o, default), o, default) == KeySubnet(extra, o, default)
    ensures Prepared(Prepared(extra, o, default), o, default) == Prepared(extra, o, default)
  {
    if o.remove {
      forall i | 0 <= i < |extra| ensures Cleared(Cleared(extra[i])) == Cleared(extra[i]) { ClearedTwice(extra[i]); }
    } else if Valid(Override(o, default)) {
      SetTwice(extra, Override(o, default));
    }
  }

  /** A mapped override: the key names a prefix of 120 bits of an IPv6 address,
      the server is asked for an IPv4 address with an impossible length. */
  lemma MappedOverrideDiffers(a: seq<Byte>)
    requires a == [0, 0, 0, 0, 0, 0, 0, 0, 0, 0, 255, 255, 10, 0, 0, 0]
    ensures var p: Prefix := Prefix(a, 120);
            && KeySubnet([], Options(false, p), NO_PREFIX) == p
            && ReadSubnet(Prepared([], Options(false, p), NO_PREFIX)) == Prefix([10, 0, 0, 0], -1)
  {
    assert Mapped(a) && a[12..] == [10, 0, 0, 0];
    MappedReadsBack(a);
  }

  lemma MappedReadsBack(a: seq<Byte>)
    requires Mapped(a)
    ensures var p: Prefix := Prefix(a, 120);
            && KeySubnet([], Options(false, p), NO_PREFIX) == p
            && ReadSubnet(Prepared([], Options(false, p), NO_PREFIX)) == Prefix(a[12..], -1)
  {
    ReadAfterSet([], Prefix(a, 120));
  }
}

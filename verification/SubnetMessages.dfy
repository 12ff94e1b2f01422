/** The client subnet code on messages in memory: records and options are
    shared objects that are changed in place, and a message handed in by a
    caller must come out as it was. */
module SubnetMessages {
  import opened Optional
  import opened ClientSubnet

  class EdnsOption {
    const isSubnet: bool
    const code: nat
    const data: nat
    var family: nat
    var netmask: Byte
    var scope: nat
    var address: seq<Byte>

    constructor (v: OptionValue)
      ensures Value() == v
    {
      isSubnet := v.Subnet?;
      code := if v.Subnet? then CODE_SUBNET else v.code;
      data := if v.Subnet? then 0 else v.data;
      family := if v.Subnet? then v.family else 0;
      netmask := if v.Subnet? then v.netmask else 0;
      scope := if v.Subnet? then v.scope else 0;
      address := if v.Subnet? then v.address else [];
    }

    function Code(): nat { if isSubnet then CODE_SUBNET else code }

    function Value(): OptionValue
      reads this
    {
      if isSubnet then Subnet(family, netmask, scope, address) else Other(code, data)
    }

    method Set(p: Prefix)
      requires Valid(p) && isSubnet
      modifies this
      ensures Value() == Patched(old(Value()), p)
    {
      if |p.addr| == 4 {
        family := 1;
      } else {
        family := 2;
      }
      netmask := p.bits;
      address := p.addr;
    }
  }

  function OptionValues(os: seq<EdnsOption>): (vs: seq<OptionValue>)
    reads os
    ensures |vs| == |os| && forall i :: 0 <= i < |os| ==> vs[i] == os[i].Value()
  {
    seq(|os|, i requires 0 <= i < |os| reads os => os[i].Value())
  }

  class Record {
    const isOpt: bool
    const header: nat
    var options: seq<EdnsOption>

    constructor (isOpt: bool, header: nat, options: seq<EdnsOption>)
      ensures this.isOpt == isOpt && this.header == header && this.options == options
    {
      this.isOpt := isOpt;
      this.header := header;
      this.options := options;
    }

    function Value(): RecordValue
      reads this, options
    {
      if isOpt then Opt(header, OptionValues(options)) else Plain(header)
    }
  }

  function OptionsOf(rs: seq<Record>): set<EdnsOption>
    reads rs
  {
    set r, o | r in rs && o in r.options :: o
  }

  function Values(rs: seq<Record>): (vs: seq<RecordValue>)
    reads rs, OptionsOf(rs)
    ensures |vs| == |rs| && forall i :: 0 <= i < |rs| ==> vs[i] == rs[i].Value()
  {
    seq(|rs|, i requires 0 <= i < |rs| reads rs, OptionsOf(rs) =>
      assert rs[i] in rs && forall o :: o in rs[i].options ==> o in OptionsOf(rs); rs[i].Value())
  }

  /** `rest` stands for everything but the additional records. */
  class Message {
    const rest: nat
    const extra: seq<Record>

    constructor (rest: nat, extra: seq<Record>)
      ensures this.rest == rest && this.extra == extra
    {
      this.rest := rest;
      this.extra := extra;
    }
  }

  // ---------------------------------------------------------------------
  // Copying
  // ---------------------------------------------------------------------

  predicate Distinct<T(==)>(s: seq<T>) { forall i, j :: 0 <= i < j < |s| ==> s[i] != s[j] }

  /** No object is shared between or within records. */
  predicate Separate(rs: seq<Record>)
    reads rs
  {
    && Distinct(rs)
    && (forall i :: 0 <= i < |rs| ==> Distinct(rs[i].options))
    && (forall i, j, o :: 0 <= i < j < |rs| && o in rs[i].options ==> o !in rs[j].options)
  }

  method CopyOptions(os: seq<EdnsOption>) returns (cs: seq<EdnsOption>)
    ensures |cs| == |os| && OptionValues(cs) == OptionValues(os)
    ensures Distinct(cs) && forall c :: c in cs ==> fresh(c)
  {
    cs := [];
    for i := 0 to |os|
      invariant |cs| == i && forall j :: 0 <= j < i ==> cs[j].Value() == os[j].Value()
      invariant Distinct(cs) && forall c :: c in cs ==> fresh(c)
    {
      var c := new EdnsOption(os[i].Value());
      cs := cs + [c];
    }
  }

  method CopyRecord(r: Record) returns (c: Record)
    ensures fresh(c) && c.Value() == r.Value()
    ensures Distinct(c.options) && forall o :: o in c.options ==> fresh(o)
  {
    var options := CopyOptions(r.options);
    c := new Record(r.isOpt, r.header, options);
  }

  method Copy(rs: seq<Record>) returns (cs: seq<Record>)
    ensures Values(cs) == Values(rs)
    ensures Separate(cs)
    ensures (forall c :: c in cs ==> fresh(c)) && (forall o :: o in OptionsOf(cs) ==> fresh(o))
  {
    cs := [];
    for i := 0 to |rs|
      invariant |cs| == i && forall j :: 0 <= j < i ==> cs[j].Value() == rs[j].Value()
      invariant Separate(cs)
      invariant (forall c :: c in cs ==> fresh(c)) && (forall j, o :: 0 <= j < |cs| && o in cs[j].options ==> fresh(o))
    {
      var c := CopyRecord(rs[i]);
      cs := cs + [c];
    }
  }

  method CopyMessage(m: Message) returns (c: Message)
    ensures fresh(c) && c.rest == m.rest
    ensures Values(c.extra) == Values(m.extra) && Separate(c.extra)
    ensures (forall r :: r in c.extra ==> fresh(r)) && (forall o :: o in OptionsOf(c.extra) ==> fresh(o))
  {
    var extra := Copy(m.extra);
    ghost var vs := Values(extra);
    c := new Message(m.rest, extra);
    assert Values(extra) == vs;
  }

  // ---------------------------------------------------------------------
  // Reading
  // ---------------------------------------------------------------------

  method FindOption(os: seq<EdnsOption>, ghost vs: seq<OptionValue>) returns (k: Option<nat>)
    requires vs == OptionValues(os)
    ensures k == FirstSubnet(vs)
  {
    for i := 0 to |os|
      invariant NoSubnet(vs[..i])
    {
      if os[i].isSubnet {
        FirstSubnetIs(vs, i);
        return Some(i);
      }
    }
    assert vs[..|vs|] == vs;
    return None;
  }

  lemma CarrierFound(vs: seq<RecordValue>, i: nat)
    requires i < |vs| && vs[i].Opt? && FirstSubnet(vs[i].options).Some? && NoneCarries(vs[..i])
    ensures FirstCarrier(vs) == Some(i)
    ensures ReadSubnet(vs) == ReadOption(vs[i].options[FirstSubnet(vs[i].options).value])
  {
    FirstCarrierIs(vs, i);
  }

  lemma CarrierNotFound(vs: seq<RecordValue>, i: nat)
    requires i < |vs| && (vs[i].Opt? ==> FirstSubnet(vs[i].options).None?) && NoneCarries(vs[..i])
    ensures NoneCarries(vs[..i + 1])
  {
    var prefix := vs[..i + 1];
    forall j | 0 <= j < |prefix| ensures !Carries(prefix[j]) {
      assert j < i ==> prefix[j] == vs[..i][j];
    }
  }

  /** What the search for a subnet option finds: the last record looked at, if
      it is an OPT record, and its subnet option, if the search ended there. */
  predicate Found(vs: seq<RecordValue>, record: Option<nat>, option: Option<nat>) {
    var r := FirstCarrier(vs);
    && (r.Some? ==> record == r && option == FirstSubnet(vs[r.value].options))
    && (r.None? ==>
          && option.None?
          && record == if |vs| > 0 && vs[|vs| - 1].Opt? then Some(|vs| - 1) else None)
  }

  method FindExists(rs: seq<Record>, ghost vs: seq<RecordValue>) returns (record: Option<nat>, option: Option<nat>)
    requires vs == Values(rs)
    ensures Found(vs, record, option)
  {
    record, option := None, None;
    for i := 0 to |rs|
      invariant NoneCarries(vs[..i]) && option.None?
      invariant record == if i > 0 && vs[i - 1].Opt? then Some(i - 1) else None
    {
      record := None;
      assert vs[i] == rs[i].Value();
      if rs[i].isOpt {
        record := Some(i);
        option := FindOption(rs[i].options, vs[i].options);
        if option.Some? {
          CarrierFound(vs, i);
          return;
        }
      }
      CarrierNotFound(vs, i);
    }
    assert vs[..|vs|] == vs;
  }

  method ReadFirst(rs: seq<Record>, ghost vs: seq<RecordValue>) returns (p: Prefix)
    requires vs == Values(rs)
    ensures p == ReadSubnet(vs)
  {
    for i := 0 to |rs|
      invariant NoneCarries(vs[..i])
    {
      assert vs[i] == rs[i].Value();
      if rs[i].isOpt {
        var k := FindOption(rs[i].options, vs[i].options);
        if k.Some? {
          var option := rs[i].options[k.value];
          CarrierFound(vs, i);
          assert option.Value() == vs[i].options[k.value];
          if !IsAddress(option.address) {
            return NO_PREFIX;
          }
          return PrefixFrom(Unmap(option.address), option.netmask);
        }
      }
      CarrierNotFound(vs, i);
    }
    assert vs[..|vs|] == vs;
    return NO_PREFIX;
  }

  method ClientSubnetFromMessage(m: Message) returns (p: Prefix)
    ensures p == ReadSubnet(Values(m.extra))
  {
    ghost var vs := Values(m.extra);
    p := ReadFirst(m.extra, vs);
    ghost var same := Values(m.extra);
    forall i | 0 <= i < |vs| ensures same[i] == vs[i] { assert m.extra[i].Value() == vs[i]; }
    assert same == vs;
  }

  // ---------------------------------------------------------------------
  // Setting
  // ---------------------------------------------------------------------

  method PatchOption(rs: seq<Record>, r: nat, k: nat, p: Prefix)
    requires Separate(rs) && Valid(p)
    requires r < |rs| && rs[r].isOpt && k < |rs[r].options| && rs[r].options[k].isSubnet
    modifies rs[r].options[k]
    ensures var was := old(Values(rs));
            Values(rs) == was[r := Opt(was[r].header, was[r].options[k := Patched(was[r].options[k], p)])]
  {
    ghost var was := Values(rs);
    var option := rs[r].options[k];
    option.Set(p);
    forall i | 0 <= i < |rs| && i != r ensures rs[i].Value() == was[i] {
      assert option !in rs[i].options;
    }
    assert OptionValues(rs[r].options) == was[r].options[k := Patched(was[r].options[k], p)];
  }

  method AppendOption(rs: seq<Record>, r: nat, p: Prefix)
    requires Separate(rs) && Valid(p)
    requires r < |rs| && rs[r].isOpt
    modifies rs[r]
    ensures var was := old(Values(rs));
            Values(rs) == was[r := Opt(was[r].header, was[r].options + [NewOption(p)])]
  {
    ghost var was := Values(rs);
    var option := new EdnsOption(Subnet(0, 0, 0, []));
    option.Set(p);
    rs[r].options := rs[r].options + [option];
    forall i | 0 <= i < |rs| && i != r ensures rs[i].Value() == was[i] {}
    assert OptionValues(rs[r].options) == was[r].options + [NewOption(p)];
  }

  method AddRecord(m: Message, p: Prefix) returns (out: Message)
    requires Valid(p)
    ensures fresh(out) && out.rest == m.rest
    ensures Values(out.extra) == Values(m.extra) + [Opt(0, [NewOption(p)])]
  {
    ghost var was := Values(m.extra);
    var created := new EdnsOption(Subnet(0, 0, 0, []));
    created.Set(p);
    var opt := new Record(true, 0, [created]);
    assert OptionValues([created]) == [NewOption(p)];
    var extra := m.extra + [opt];
    forall i | 0 <= i < |was| ensures extra[i].Value() == was[i] {}
    out := new Message(m.rest, extra);
  }

  method SetInPlace(rs: seq<Record>, ghost vs: seq<RecordValue>, p: Prefix)
    requires Valid(p) && Separate(rs) && vs == Values(rs)
    requires FirstCarrier(vs).Some? || (|vs| > 0 && vs[|vs| - 1].Opt?)
    modifies (set r | r in rs), OptionsOf(rs)
    ensures Values(rs) == WithSubnet(vs, p)
  {
    ghost var objects := OptionsOf(rs);
    assert forall r, o :: r in rs && o in r.options ==> o in objects;
    var record, option := FindExists(rs, vs);
    var r := record.value;
    assert rs[r].Value() == vs[r];
    if option.None? {
      AppendOption(rs, r, p);
    } else {
      assert rs[r].options[option.value] in rs[r].options;
      PatchOption(rs, r, option.value, p);
    }
  }

  method SetInCopy(m: Message, ghost was: seq<RecordValue>, p: Prefix) returns (out: Message)
    requires Valid(p) && was == Values(m.extra)
    requires FirstCarrier(was).Some? || (|was| > 0 && was[|was| - 1].Opt?)
    ensures fresh(out) && out.rest == m.rest
    ensures Values(out.extra) == WithSubnet(was, p)
  {
    out := CopyMessage(m);
    SetInPlace(out.extra, was, p);
  }

  /** The message with its subnet set; the one handed in, and everything it
      refers to, stays as it was. */
  method SetClientSubnet(m: Message, p: Prefix) returns (out: Message)
    requires Valid(p)
    ensures fresh(out) && out.rest == m.rest
    ensures Values(out.extra) == WithSubnet(Values(m.extra), p)
  {
    ghost var was := Values(m.extra);
    var record, option := FindExists(m.extra, was);
    if record.None? {
      out := AddRecord(m, p);
    } else {
      out := SetInCopy(m, was, p);
      assert Values(m.extra) == was;
    }
  }

  // ---------------------------------------------------------------------
  // Removing
  // ---------------------------------------------------------------------

  method FilterOptions(os: seq<EdnsOption>) returns (kept: seq<EdnsOption>)
    ensures OptionValues(kept) == WithoutCode(OptionValues(os))
  {
    var vs := OptionValues(os);
    kept := [];
    for i := 0 to |os|
      invariant OptionValues(kept) == WithoutCode(vs[..i])
    {
      assert vs[..i + 1][..i] == vs[..i];
      if os[i].Code() != CODE_SUBNET {
        kept := kept + [os[i]];
      }
    }
    assert vs[..|vs|] == vs;
  }

  method ClearRecord(r: Record)
    modifies r
    ensures r.Value() == Cleared(old(r.Value()))
  {
    if r.isOpt {
      var kept := FilterOptions(r.options);
      r.options := kept;
    }
  }

  method ClearRecords(rs: seq<Record>)
    requires Distinct(rs)
    modifies set r | r in rs
    ensures Values(rs) == WithoutSubnet(old(Values(rs)))
  {
    ghost var was := Values(rs);
    for i := 0 to |rs|
      invariant forall j :: 0 <= j < i ==> rs[j].Value() == Cleared(was[j])
      invariant forall j :: i <= j < |rs| ==> rs[j].Value() == was[j]
    {
      ClearRecord(rs[i]);
    }
  }

  method ContainsSubnet(rs: seq<Record>, ghost vs: seq<RecordValue>) returns (found: bool)
    requires vs == Values(rs)
    ensures !found ==> WithoutSubnet(vs) == vs
  {
    for i := 0 to |rs|
      invariant forall j :: 0 <= j < i ==> Cleared(vs[j]) == vs[j]
    {
      if rs[i].isOpt {
        var options := rs[i].options;
        for k := 0 to |options|
          invariant forall j :: 0 <= j < k ==> !HasSubnetCode(options[j].Value())
        {
          if options[k].Code() == CODE_SUBNET {
            return true;
          }
        }
        assert vs[i] == rs[i].Value();
        FilterNothing(vs[i].options);
      }
    }
    return false;
  }

  method ClearInCopy(m: Message, ghost was: seq<RecordValue>) returns (out: Message)
    requires was == Values(m.extra)
    ensures fresh(out) && out.rest == m.rest
    ensures Values(out.extra) == WithoutSubnet(was)
  {
    out := CopyMessage(m);
    ClearRecords(out.extra);
  }

  /** The message without subnet options; the one handed in stays as it was and
      is handed back itself when it has none. */
  method RemoveClientSubnet(m: Message) returns (out: Message)
    ensures out == m || fresh(out)
    ensures out.rest == m.rest
    ensures Values(out.extra) == WithoutSubnet(Values(m.extra))
  {
    ghost var was := Values(m.extra);
    var found := ContainsSubnet(m.extra, was);
    if !found {
      return m;
    }
    out := ClearInCopy(m, was);
    assert Values(m.extra) == was;
  }

  // ---------------------------------------------------------------------
  // Preparing
  // ---------------------------------------------------------------------

  method PrepareExchangeMessage(m: Message, o: Options, default: Prefix) returns (out: Message)
    ensures out.rest == m.rest
    ensures Values(out.extra) == Prepared(Values(m.extra), o, default)
  {
    if o.remove {
      out := RemoveClientSubnet(m);
      return;
    }
    var subnet := o.subnet;
    if !Valid(subnet) {
      subnet := default;
    }
    out := m;
    if Valid(subnet) {
      out := SetClientSubnet(m, subnet);
    }
  }

  method NewCacheKeySubnet(m: Message, o: Options, default: Prefix) returns (p: Prefix)
    ensures p == KeySubnet(Values(m.extra), o, default)
  {
    p := NO_PREFIX;
    if !o.remove {
      p := o.subnet;
      if !Valid(p) {
        p := default;
      }
      if !Valid(p) {
        p := ClientSubnetFromMessage(m);
      }
    }
  }

  /** Prepare a query and take its key, as at the beginning of an exchange: the
      key speaks of the subnet in the prepared message unless the override is a
      mapped address, it is the key of the caller's message too, and nothing the
      caller's message consists of has changed. */
  method PrepareWithKey(m: Message, o: Options, default: Prefix) returns (out: Message, key: Prefix)
    ensures out.rest == m.rest && Values(m.extra) == old(Values(m.extra))
    ensures Values(out.extra) == Prepared(Values(m.extra), o, default)
    ensures key == KeySubnet(Values(m.extra), o, default)
    ensures key == ReadSubnet(Values(out.extra)) <==>
            o.remove || !Valid(Override(o, default)) || !Mapped(Override(o, default).addr)
  {
    ghost var was := Values(m.extra);
    out := PrepareExchangeMessage(m, o, default);
    ghost var sent := Values(out.extra);
    assert Values(m.extra) == was;
    key := NewCacheKeySubnet(out, o, default);
    assert Values(out.extra) == sent;
    assert Values(m.extra) == was;
    KeyIsStable(was, o, default);
    KeyMatchesQuery(was, o, default);
  }
}

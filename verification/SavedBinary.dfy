/** The versioned binary format of a saved resource: a version byte, then the
    hash, the content, the time of the last update, the entity tag and, from
    version 2 on, the hash of the URL. Lengths are unsigned varints. */
module SavedBinary {

  type Byte = b: nat | b < 256

  datatype Time = Time(seconds: int, nanos: nat)

  const HASH_SIZE := 16
  const TWO_63 := 0x8000_0000_0000_0000
  const TWO_64 := 0x1_0000_0000_0000_0000

  datatype Saved = Saved(
    hash: seq<Byte>,
    content: seq<Byte>,
    lastUpdated: Time,
    lastEtag: seq<Byte>,
    urlHash: seq<Byte>)

  /** What the in-memory structure can hold: a 16-byte hash, lengths that fit
      in 64 bits, and seconds that fit in a signed 64-bit integer. */
  predicate Representable(s: Saved) {
    && |s.hash| == HASH_SIZE
    && |s.content| < TWO_64 && |s.lastEtag| < TWO_64 && |s.urlHash| < TWO_64
    && -TWO_63 <= s.lastUpdated.seconds < TWO_63
  }

  datatype Parsed<+T> = Ok(value: T, rest: seq<Byte>) | Error

  // ---------------------------------------------------------------------
  // Unsigned varints
  // ---------------------------------------------------------------------

  function Uvarint(n: nat): seq<Byte> {
    if n < 128 then [n] else [n % 128 + 128] + Uvarint(n / 128)
  }

  /** A group of seven bits in its place. */
  function Shift(digit: nat, i: nat): nat { if i == 0 then digit else 128 * Shift(digit, i - 1) }

  /** Reading from byte number i on, with the value so far. More than ten bytes,
      or a tenth byte above 1, overflow. */
  function ReadUvarintFrom(data: seq<Byte>, i: nat, value: nat): Parsed<nat>
    requires i <= 10
    decreases |data|
  {
    if i == 10 || data == [] then Error
    else if data[0] < 128 then
      if i == 9 && data[0] > 1 then Error else Ok(value + Shift(data[0], i), data[1..])
    else ReadUvarintFrom(data[1..], i + 1, value + Shift(data[0] - 128, i))
  }

  function ReadUvarint(data: seq<Byte>): Parsed<nat> { ReadUvarintFrom(data, 0, 0) }

  function Power(base: nat, k: nat): nat { if k == 0 then 1 else base * Power(base, k - 1) }

  lemma DivideBound(n: nat, k: nat)
    requires k > 0 && n < 2 * Power(128, k)
    ensures n / 128 < 2 * Power(128, k - 1)
  {
    assert Power(128, k) == 128 * Power(128, k - 1);
  }

  lemma {:induction false} ShiftAdds(a: nat, b: nat, i: nat)
    ensures Shift(a + 128 * b, i) == Shift(a, i) + Shift(b, i + 1)
  {
    if i > 0 { ShiftAdds(a, b, i - 1); } else { assert Shift(b, 1) == 128 * Shift(b, 0); }
  }

  lemma Recombine(n: nat, i: nat)
    ensures Shift(n % 128, i) + Shift(n / 128, i + 1) == Shift(n, i)
  {
    ShiftAdds(n % 128, n / 128, i);
  }

  lemma {:induction false} UvarintRoundTripFrom(n: nat, rest: seq<Byte>, i: nat, value: nat)
    requires i <= 9 && n < 2 * Power(128, 9 - i)
    ensures ReadUvarintFrom(Uvarint(n) + rest, i, value) == Ok(value + Shift(n, i), rest)
    decreases n
  {
    if n < 128 {
      var data := Uvarint(n) + rest;
      assert data[0] == n && data[1..] == rest;
    } else {
      LongIsEarly(n, i);
      DivideBound(n, 9 - i);
      var high, low := n / 128, n % 128;
      UvarintRoundTripFrom(high, rest, i + 1, value + Shift(low, i));
      Recombine(n, i);
      LongUvarint(high, low, rest, i, value);
      assert Uvarint(n) == [low + 128] + Uvarint(high);
    }
  }

  lemma LongIsEarly(n: nat, i: nat)
    requires i <= 9 && 128 <= n < 2 * Power(128, 9 - i)
    ensures i < 9
  {
    assert Power(128, 0) == 1;
  }

  /** Reading a varint of more than one byte. */
  lemma LongUvarint(high: nat, low: nat, rest: seq<Byte>, i: nat, value: nat)
    requires low < 128 && i < 10
    ensures ReadUvarintFrom([low + 128] + Uvarint(high) + rest, i, value)
         == ReadUvarintFrom(Uvarint(high) + rest, i + 1, value + Shift(low, i))
  {
    var data := [low + 128] + Uvarint(high) + rest;
    assert data[0] == low + 128 && data[1..] == Uvarint(high) + rest;
  }

  /** Every 64-bit number is read back from its varint, whatever follows it. */
  lemma UvarintRoundTrip(n: nat, rest: seq<Byte>)
    requires n < TWO_64
    ensures ReadUvarint(Uvarint(n) + rest) == Ok(n, rest)
  {
    PowerOf128();
    UvarintRoundTripFrom(n, rest, 0, 0);
  }

  lemma PowerOf128()
    ensures 2 * Power(128, 9) == TWO_64
  {
    assert Power(128, 3) == 128 * Power(128, 2) == 128 * (128 * Power(128, 1)) == 0x20_0000;
    assert Power(128, 6) == 128 * Power(128, 5) == 128 * (128 * Power(128, 4)) == 0x400_0000_0000;
    assert Power(128, 9) == 128 * Power(128, 8) == 128 * (128 * Power(128, 7));
  }

  // ---------------------------------------------------------------------
  // Fixed-width integers
  // ---------------------------------------------------------------------

  function BigEndian(n: nat, width: nat): (r: seq<Byte>)
    ensures |r| == width
  {
    if width == 0 then [] else BigEndian(n / 256, width - 1) + [n % 256]
  }

  function ValueOf(data: seq<Byte>): nat {
    if data == [] then 0 else ValueOf(data[..|data| - 1]) * 256 + data[|data| - 1]
  }

  lemma {:induction false} BigEndianRoundTrip(n: nat, width: nat)
    requires n < Power(256, width)
    ensures ValueOf(BigEndian(n, width)) == n
    decreases width
  {
    if width > 0 {
      assert Power(256, width) == 256 * Power(256, width - 1);
      BigEndianRoundTrip(n / 256, width - 1);
      assert BigEndian(n, width)[..width - 1] == BigEndian(n / 256, width - 1);
    }
  }

  lemma PowerOf256()
    ensures Power(256, 8) == TWO_64
  {
    assert Power(256, 3) == 256 * Power(256, 2) == 256 * (256 * Power(256, 1)) == 0x100_0000;
    assert Power(256, 6) == 256 * Power(256, 5) == 256 * (256 * Power(256, 4)) == 0x1_0000_0000_0000;
    assert Power(256, 8) == 256 * Power(256, 7) == 256 * (256 * Power(256, 6));
  }

  /** A signed 64-bit integer in two's complement. */
  function Int64(x: int): (r: seq<Byte>)
    requires -TWO_63 <= x < TWO_63
    ensures |r| == 8
  {
    BigEndian(if x < 0 then x + TWO_64 else x, 8)
  }

  function FromInt64(data: seq<Byte>): int {
    var v := ValueOf(data);
    if v >= TWO_63 then v - TWO_64 else v
  }

  lemma Int64RoundTrip(x: int)
    requires -TWO_63 <= x < TWO_63
    ensures FromInt64(Int64(x)) == x
  {
    PowerOf256();
    BigEndianRoundTrip(if x < 0 then x + TWO_64 else x, 8);
  }

  // ---------------------------------------------------------------------
  // The format
  // ---------------------------------------------------------------------

  function Block(data: seq<Byte>): seq<Byte> { Uvarint(|data|) + data }

  /** Everything between the version and the hash of the URL. */
  function Body(s: Saved): seq<Byte>
    requires Representable(s)
  {
    Block(s.hash) + (Block(s.content) + (Int64(s.lastUpdated.seconds) + Block(s.lastEtag)))
  }

  function Encode(s: Saved): seq<Byte>
    requires Representable(s)
  {
    [2] + (Body(s) + Block(s.urlHash))
  }

  function Take(data: seq<Byte>, n: nat): Parsed<seq<Byte>> {
    if n > |data| then Error else Ok(data[..n], data[n..])
  }

  function ReadBlock(data: seq<Byte>): Parsed<seq<Byte>> {
    match ReadUvarint(data)
    case Error => Error
    case Ok(n, rest) => Take(rest, n)
  }

  function ReadHash(data: seq<Byte>): Parsed<seq<Byte>> {
    match ReadBlock(data)
    case Error => Error
    case Ok(hash, rest) => if |hash| == HASH_SIZE then Ok(hash, rest) else Error
  }

  function ReadTimeAndEtag(data: seq<Byte>, hash: seq<Byte>, content: seq<Byte>, before: Saved): Parsed<Saved> {
    match Take(data, 8)
    case Error => Error
    case Ok(seconds, data3) =>
      match ReadBlock(data3)
      case Error => Error
      case Ok(etag, data4) =>
        Ok(Saved(hash, content, Time(FromInt64(seconds), 0), etag, before.urlHash), data4)
  }

  /** The fields of every version; the URL hash stays what it was. */
  function ReadBody(data: seq<Byte>, before: Saved): Parsed<Saved> {
    match ReadHash(data)
    case Error => Error
    case Ok(hash, data1) =>
      match ReadBlock(data1)
      case Error => Error
      case Ok(content, data2) => ReadTimeAndEtag(data2, hash, content, before)
  }

  /** Decoding into a structure that already holds `before`. Bytes after the
      last field are not looked at. */
  function Decode(data: seq<Byte>, before: Saved): Parsed<Saved> {
    match Take(data, 1)
    case Error => Error
    case Ok(version, data0) =>
      match ReadBody(data0, before)
      case Error => Error
      case Ok(s, data1) =>
        if version[0] < 2 then Ok(s, data1)
        else
          match ReadBlock(data1)
          case Error => Error
          case Ok(urlHash, data2) => Ok(s.(urlHash := urlHash), data2)
  }

  /** What is saved: times are kept in whole seconds. */
  function Truncated(s: Saved): Saved { s.(lastUpdated := Time(s.lastUpdated.seconds, 0)) }

  lemma BlockRoundTrip(data: seq<Byte>, rest: seq<Byte>)
    requires |data| < TWO_64
    ensures ReadBlock(Block(data) + rest) == Ok(data, rest)
  {
    UvarintRoundTrip(|data|, data + rest);
    assert Block(data) + rest == Uvarint(|data|) + (data + rest);
    assert (data + rest)[..|data|] == data && (data + rest)[|data|..] == rest;
  }

  lemma BodyRoundTrip(s: Saved, rest: seq<Byte>, before: Saved)
    requires Representable(s)
    ensures ReadBody(Body(s) + rest, before) == Ok(Truncated(s).(urlHash := before.urlHash), rest)
  {
    var time := Int64(s.lastUpdated.seconds);
    var tail3 := Block(s.lastEtag) + rest;
    var tail2 := time + tail3;
    var tail1 := Block(s.content) + tail2;
    assert Body(s) + rest == Block(s.hash) + tail1;
    BlockRoundTrip(s.hash, tail1);
    BlockRoundTrip(s.content, tail2);
    assert tail2[..8] == time && tail2[8..] == tail3;
    Int64RoundTrip(s.lastUpdated.seconds);
    BlockRoundTrip(s.lastEtag, rest);
  }

  /** Decoding an encoding gives back everything, with the time truncated to
      seconds, and consumes it all. */
  lemma RoundTrip(s: Saved, rest: seq<Byte>, before: Saved)
    requires Representable(s)
    ensures Decode(Encode(s) + rest, before) == Ok(Truncated(s), rest)
  {
    var tail := Block(s.urlHash) + rest;
    assert Encode(s) + rest == [2] + (Body(s) + tail);
    assert ([2] + (Body(s) + tail))[1..] == Body(s) + tail;
    BodyRoundTrip(s, tail, before);
    BlockRoundTrip(s.urlHash, rest);
  }

  /** A body of version 0 or 1 is complete without a URL hash, and decoding it
      leaves the URL hash alone. */
  lemma OlderVersions(version: Byte, s: Saved, rest: seq<Byte>, before: Saved)
    requires Representable(s) && version < 2
    ensures Decode([version] + (Body(s) + rest), before) == Ok(Truncated(s).(urlHash := before.urlHash), rest)
  {
    assert ([version] + (Body(s) + rest))[1..] == Body(s) + rest;
    BodyRoundTrip(s, rest, before);
  }

  // ---------------------------------------------------------------------
  // The bytes themselves
  // ---------------------------------------------------------------------

  lemma Regroup(q: nat, p: nat, r: nat, base: nat)
    ensures (q * p + r) * base == q * (base * p) + r * base
  {
    assert (q * p) * base == q * (base * p);
  }

  lemma BelowProduct(r: nat, p: nat, low: nat, base: nat)
    requires r < p && low < base
    ensures r * base + low < base * p
  {
    assert (r + 1) * base <= p * base;
  }

  lemma DivideTwice(n: nat, base: nat, p: nat)
    requires base > 0 && p > 0
    ensures base * p > 0 && n / base / p == n / (base * p)
  {
    Parts(n, base);
    Parts(n / base, p);
    DividedBy(n, base, p, n / base, n % base, n / base / p, n / base % p);
  }

  lemma Parts(n: nat, d: nat)
    requires d > 0
    ensures n == n / d * d + n % d && n % d < d
  {
  }

  lemma DividedBy(n: nat, base: nat, p: nat, m: nat, low: nat, q: nat, r: nat)
    requires n == m * base + low && low < base && m == q * p + r && r < p
    ensures base * p > 0 && n / (base * p) == q
  {
    Regroup(q, p, r, base);
    BelowProduct(r, p, low, base);
    QuotientOf(n, base * p, q, r * base + low);
  }

  lemma QuotientOf(n: nat, d: nat, q: nat, r: nat)
    requires n == q * d + r && r < d
    ensures n / d == q
  {
    var other := n / d;
    assert n == other * d + n % d;
    assert other + 1 <= q ==> (other + 1) * d <= q * d;
    assert q + 1 <= other ==> (q + 1) * d <= other * d;
  }

  lemma {:induction false} PowerPositive(base: nat, k: nat)
    requires base > 0
    ensures Power(base, k) > 0
  {
    if k > 0 { PowerPositive(base, k - 1); }
  }

  /** Fixed-width integers are written most significant byte first. */
  lemma {:induction false} MostSignificantFirst(n: nat, width: nat, i: nat)
    requires i < width
    ensures Power(256, width - 1 - i) > 0
    ensures BigEndian(n, width)[i] == n / Power(256, width - 1 - i) % 256
    decreases width
  {
    PowerPositive(256, width - 1 - i);
    if i < width - 1 {
      MostSignificantFirst(n / 256, width - 1, i);
      PowerPositive(256, width - 2 - i);
      DivideTwice(n, 256, Power(256, width - 2 - i));
    } else {
      assert Power(256, 0) == 1;
    }
  }

  /** Varints are written seven bits at a time, least significant first, with the
      top bit set on all bytes but the last. */
  lemma {:induction false} LeastSignificantFirst(n: nat, i: nat)
    requires i < |Uvarint(n)|
    ensures Power(128, i) > 0
    ensures Uvarint(n)[i] == n / Power(128, i) % 128 + if i < |Uvarint(n)| - 1 then 128 else 0
    decreases n
  {
    PowerPositive(128, i);
    if i > 0 {
      LeastSignificantFirst(n / 128, i - 1);
      PowerPositive(128, i - 1);
      DivideTwice(n, 128, Power(128, i - 1));
    } else {
      assert Power(128, 0) == 1;
      assert n < 128 ==> |Uvarint(n)| == 1;
      assert n >= 128 ==> Uvarint(n / 128) != [];
    }
  }

  /** The encoding as it is written, piece by piece. */
  lemma EncodeFlat(s: Saved)
    requires Representable(s)
    ensures Encode(s) == [2] + Uvarint(|s.hash|) + s.hash + Uvarint(|s.content|) + s.content
                         + Int64(s.lastUpdated.seconds) + Uvarint(|s.lastEtag|) + s.lastEtag
                         + Uvarint(|s.urlHash|) + s.urlHash
  {
    var tail := Int64(s.lastUpdated.seconds) + Block(s.lastEtag);
    var head := [2] + Uvarint(|s.hash|) + s.hash + Uvarint(|s.content|) + s.content;
    assert [2] + Body(s) == head + tail;
    assert Encode(s) == [2] + Body(s) + Block(s.urlHash);
  }

  /** A field after a part of the data lies where that part ends. */
  lemma FieldAt(data: seq<Byte>, part: seq<Byte>, field: seq<Byte>)
    requires part + field <= data
    ensures part <= data && data[|part|..|part| + |field|] == field
  {
  }

  /** Where each field lies: the version, the length and bytes of the hash, the
      length and bytes of the content, eight bytes of seconds, the length and bytes
      of the entity tag, the length and bytes of the URL hash, and nothing more. */
  lemma Layout(s: Saved)
    requires Representable(s)
    ensures var data := Encode(s);
            var content := 18 + |Uvarint(|s.content|)|;
            var time := content + |s.content|;
            var etag := time + 8 + |Uvarint(|s.lastEtag|)|;
            var url := etag + |s.lastEtag| + |Uvarint(|s.urlHash|)|;
            && |data| == url + |s.urlHash|
            && data[0] == 2 && data[1] == HASH_SIZE && data[2..18] == s.hash
            && data[18..content] == Uvarint(|s.content|) && data[content..time] == s.content
            && data[time..time + 8] == Int64(s.lastUpdated.seconds)
            && data[time + 8..etag] == Uvarint(|s.lastEtag|) && data[etag..etag + |s.lastEtag|] == s.lastEtag
            && data[etag + |s.lastEtag|..url] == Uvarint(|s.urlHash|) && data[url..] == s.urlHash
  {
    EncodeFlat(s);
    assert Uvarint(HASH_SIZE) == [HASH_SIZE];
    var data := Encode(s);
    var lead := [2] + Uvarint(|s.hash|);
    var content := lead + s.hash + Uvarint(|s.content|);
    var time := content + s.content;
    var etag := time + Int64(s.lastUpdated.seconds) + Uvarint(|s.lastEtag|);
    var url := etag + s.lastEtag + Uvarint(|s.urlHash|);
    FieldAt(data, url, s.urlHash);
    FieldAt(data, etag + s.lastEtag, Uvarint(|s.urlHash|));
    FieldAt(data, etag, s.lastEtag);
    FieldAt(data, time + Int64(s.lastUpdated.seconds), Uvarint(|s.lastEtag|));
    FieldAt(data, time, Int64(s.lastUpdated.seconds));
    FieldAt(data, content, s.content);
    FieldAt(data, lead + s.hash, Uvarint(|s.content|));
    FieldAt(data, lead, s.hash);
  }

  // ---------------------------------------------------------------------
  // Truncated input
  // ---------------------------------------------------------------------

  lemma {:induction false} UvarintExtends(data: seq<Byte>, more: seq<Byte>, i: nat, value: nat)
    requires i <= 10 && ReadUvarintFrom(data, i, value).Ok?
    ensures var r := ReadUvarintFrom(data, i, value);
            ReadUvarintFrom(data + more, i, value) == Ok(r.value, r.rest + more)
    decreases 10 - i
  {
    var head, tail := data[0], data[1..];
    assert (data + more)[0] == head && (data + more)[1..] == tail + more;
    if head >= 128 { UvarintExtends(tail, more, i + 1, value + Shift(head - 128, i)); }
  }

  lemma BlockExtends(data: seq<Byte>, more: seq<Byte>)
    requires ReadBlock(data).Ok?
    ensures ReadBlock(data + more) == Ok(ReadBlock(data).value, ReadBlock(data).rest + more)
  {
    UvarintExtends(data, more, 0, 0);
    var r := ReadUvarint(data);
    assert (r.rest + more)[..r.value] == r.rest[..r.value];
    assert (r.rest + more)[r.value..] == r.rest[r.value..] + more;
  }

  lemma TimeAndEtagExtends(data: seq<Byte>, more: seq<Byte>, hash: seq<Byte>, content: seq<Byte>, before: Saved)
    requires ReadTimeAndEtag(data, hash, content, before).Ok?
    ensures var r := ReadTimeAndEtag(data, hash, content, before);
            ReadTimeAndEtag(data + more, hash, content, before) == Ok(r.value, r.rest + more)
  {
    assert (data + more)[..8] == data[..8] && (data + more)[8..] == data[8..] + more;
    BlockExtends(data[8..], more);
  }

  lemma BodyExtends(data: seq<Byte>, more: seq<Byte>, before: Saved)
    requires ReadBody(data, before).Ok?
    ensures ReadBody(data + more, before) == Ok(ReadBody(data, before).value, ReadBody(data, before).rest + more)
  {
    BlockExtends(data, more);
    var hash, data1 := ReadBlock(data).value, ReadBlock(data).rest;
    BlockExtends(data1, more);
    TimeAndEtagExtends(ReadBlock(data1).rest, more, hash, ReadBlock(data1).value, before);
  }

  /** What decodes keeps decoding to the same value when bytes are added. */
  lemma DecodeExtends(data: seq<Byte>, more: seq<Byte>, before: Saved)
    requires Decode(data, before).Ok?
    ensures Decode(data + more, before) == Ok(Decode(data, before).value, Decode(data, before).rest + more)
  {
    assert (data + more)[..1] == data[..1] && (data + more)[1..] == data[1..] + more;
    BodyExtends(data[1..], more, before);
    if data[0] >= 2 {
      BlockExtends(ReadBody(data[1..], before).rest, more);
    }
  }

  /** Every strict prefix of an encoding is refused. */
  lemma StrictPrefixRefused(s: Saved, n: nat, before: Saved)
    requires Representable(s) && n < |Encode(s)|
    ensures Decode(Encode(s)[..n], before).Error?
  {
    RoundTrip(s, [], before);
    assert Encode(s) + [] == Encode(s);
    ShortRefused(Encode(s), n, before);
  }

  /** Bytes that are all needed cannot be cut short. */
  lemma ShortRefused(data: seq<Byte>, n: nat, before: Saved)
    requires n < |data| && Decode(data, before).Ok? && Decode(data, before).rest == []
    ensures Decode(data[..n], before).Error?
  {
    var first, more := data[..n], data[n..];
    assert first + more == data && more != [];
    if Decode(first, before).Ok? { DecodeExtends(first, more, before); }
  }

  /** Two structures with the same encoding differ at most below the second. */
  lemma EncodeInjective(s: Saved, t: Saved)
    requires Representable(s) && Representable(t) && Encode(s) == Encode(t)
    ensures Truncated(s) == Truncated(t)
  {
    RoundTrip(s, [], s);
    RoundTrip(t, [], s);
  }

  // ---------------------------------------------------------------------
  // What decodes
  // ---------------------------------------------------------------------

  lemma {:induction false} ShiftBelow(digit: nat, i: nat, most: nat)
    requires digit <= most
    ensures Shift(digit, i) <= most * Power(128, i)
  {
    if i > 0 {
      ShiftBelow(digit, i - 1, most);
      assert 128 * (most * Power(128, i - 1)) == most * (128 * Power(128, i - 1));
    }
  }

  lemma {:induction false} PowerGrows(i: nat, k: nat)
    requires i <= k
    ensures Power(128, i) <= Power(128, k)
    decreases k
  {
    if i < k { PowerGrows(i, k - 1); }
  }

  /** One byte of a varint: it ends here, or the rest is read. */
  lemma ReadOne(data: seq<Byte>, i: nat, value: nat)
    requires i < 10 && ReadUvarintFrom(data, i, value).Ok?
    ensures data != [] && (i == 9 ==> data[0] <= 1)
    ensures ReadUvarintFrom(data, i, value)
         == if data[0] < 128 then Ok(value + Shift(data[0], i), data[1..])
            else ReadUvarintFrom(data[1..], i + 1, value + Shift(data[0] - 128, i))
  {
  }

  /** Every number that is read fits in 64 bits: the tenth byte may only be 1. */
  lemma {:induction false} ReadFits(data: seq<Byte>, i: nat, value: nat, last: nat)
    requires last == 9 && i <= last && value < Power(128, i) && ReadUvarintFrom(data, i, value).Ok?
    ensures ReadUvarintFrom(data, i, value).value < 2 * Power(128, last)
    decreases 9 - i
  {
    ReadOne(data, i, value);
    var head, tail := data[0], data[1..];
    if i == last {
      ShiftBelow(head, i, 1);
    } else if head < 128 {
      DigitFits(value, head, i);
      PowerGrows(i + 1, last);
    } else {
      DigitFits(value, head - 128, i);
      ReadFits(tail, i + 1, value + Shift(head - 128, i), last);
    }
  }

  lemma DigitFits(value: nat, digit: nat, i: nat)
    requires value < Power(128, i) && digit < 128
    ensures value + Shift(digit, i) < Power(128, i + 1)
  {
    ShiftBelow(digit, i, 127);
    assert Power(128, i + 1) == 128 * Power(128, i);
  }

  lemma UvarintFits(data: seq<Byte>)
    requires ReadUvarint(data).Ok?
    ensures ReadUvarint(data).value < TWO_64
  {
    assert Power(128, 0) == 1;
    ReadFits(data, 0, 0, 9);
    PowerOf128();
  }

  lemma BlockFits(data: seq<Byte>)
    requires ReadBlock(data).Ok?
    ensures |ReadBlock(data).value| < TWO_64
  {
    UvarintFits(data);
  }

  lemma {:induction false} ValueFits(data: seq<Byte>)
    ensures ValueOf(data) < Power(256, |data|)
  {
    if data != [] { ValueFits(data[..|data| - 1]); }
  }

  lemma TimeFits(data: seq<Byte>)
    requires |data| == 8
    ensures -TWO_63 <= FromInt64(data) < TWO_63
  {
    ValueFits(data);
    PowerOf256();
  }

  lemma BodyFits(data: seq<Byte>, before: Saved)
    requires |before.urlHash| < TWO_64 && ReadBody(data, before).Ok?
    ensures Representable(ReadBody(data, before).value) && ReadBody(data, before).value.lastUpdated.nanos == 0
  {
    BlockFits(data);
    var data1 := ReadBlock(data).rest;
    BlockFits(data1);
    var data2 := ReadBlock(data1).rest;
    TimeFits(data2[..8]);
    BlockFits(data2[8..]);
  }

  /** Whatever decodes, from any bytes of any version, can be encoded: its hash has
      its size and its lengths and time fit. Encoding and decoding it again gives
      it back. */
  lemma DecodedReencodes(data: seq<Byte>, before: Saved, other: Saved)
    requires |before.urlHash| < TWO_64 && Decode(data, before).Ok?
    ensures var s := Decode(data, before).value;
            Representable(s) && Decode(Encode(s), other) == Ok(s, [])
  {
    BodyFits(data[1..], before);
    var body := ReadBody(data[1..], before);
    if data[0] >= 2 { BlockFits(body.rest); }
    var s := Decode(data, before).value;
    RoundTrip(s, [], other);
    assert Encode(s) + [] == Encode(s);
  }

  // ---------------------------------------------------------------------
  // The codec as it runs
  // ---------------------------------------------------------------------

  /** Append a varint to a buffer. */
  method WriteUvarint(buffer: seq<Byte>, n: nat) returns (buffer': seq<Byte>)
    ensures buffer' == buffer + Uvarint(n)
  {
    var value := n;
    buffer' := buffer;
    while value >= 128
      invariant buffer' + Uvarint(value) == buffer + Uvarint(n)
      decreases value
    {
      var low := value % 128 + 128;
      assert buffer' + ([low] + Uvarint(value / 128)) == (buffer' + [low]) + Uvarint(value / 128);
      buffer' := buffer' + [low];
      value := value / 128;
    }
    buffer' := buffer' + [value];
  }

  /** A reader over the encoded bytes that are left. */
  class Reader {
    var data: seq<Byte>

    constructor (data: seq<Byte>)
      ensures this.data == data
    {
      this.data := data;
    }

    method NextUvarint() returns (ok: bool, n: nat)
      modifies this
      ensures match ReadUvarint(old(data))
              case Ok(value, rest) => ok && n == value && data == rest
              case Error => !ok
    {
      var i: nat := 0;
      n := 0;
      while i < 10
        invariant 0 <= i <= 10
        invariant ReadUvarintFrom(data, i, n) == ReadUvarint(old(data))
      {
        if data == [] {
          return false, 0;
        }
        var b: nat := data[0];
        data := data[1..];
        if b < 128 {
          if i == 9 && b > 1 {
            return false, 0;
          }
          return true, n + Shift(b, i);
        }
        n, i := n + Shift(b - 128, i), i + 1;
      }
      return false, 0;
    }

    method ReadFull(n: nat) returns (ok: bool, bytes: seq<Byte>)
      modifies this
      ensures match Take(old(data), n)
              case Ok(value, rest) => ok && bytes == value && data == rest
              case Error => !ok
    {
      if n > |data| {
        return false, [];
      }
      ok, bytes := true, data[..n];
      data := data[n..];
    }

    method NextBlock() returns (ok: bool, bytes: seq<Byte>)
      modifies this
      ensures match ReadBlock(old(data))
              case Ok(value, rest) => ok && bytes == value && data == rest
              case Error => !ok
    {
      var n;
      ok, n := NextUvarint();
      if !ok {
        return false, [];
      }
      ok, bytes := ReadFull(n);
    }
  }

  class Resource {
    var hash: seq<Byte>
    var content: seq<Byte>
    var lastUpdated: Time
    var lastEtag: seq<Byte>
    var urlHash: seq<Byte>

    function Value(): Saved
      reads this
    {
      Saved(hash, content, lastUpdated, lastEtag, urlHash)
    }

    method MarshalBinary() returns (buffer: seq<Byte>)
      requires Representable(Value())
      ensures buffer == Encode(Value())
    {
      EncodeFlat(Value());
      buffer := [2];
      buffer := WriteUvarint(buffer, |hash|);
      buffer := buffer + hash;
      buffer := WriteUvarint(buffer, |content|);
      buffer := buffer + content;
      buffer := buffer + Int64(lastUpdated.seconds);
      buffer := WriteUvarint(buffer, |lastEtag|);
      buffer := buffer + lastEtag;
      buffer := WriteUvarint(buffer, |urlHash|);
      buffer := buffer + urlHash;
    }

    /** The fields present in every version. */
    method UnmarshalBody(reader: Reader) returns (ok: bool)
      modifies this, reader
      ensures ok <==> ReadBody(old(reader.data), old(Value())).Ok?
      ensures ok ==> Ok(Value(), reader.data) == ReadBody(old(reader.data), old(Value()))
    {
      ghost var before := Value();
      var bytes;
      ok, bytes := reader.NextBlock();
      if !ok || |bytes| != HASH_SIZE {
        return false;
      }
      hash := bytes;
      ok, bytes := reader.NextBlock();
      if !ok {
        return;
      }
      content := bytes;
      ghost var rest := reader.data;
      assert ReadBody(old(reader.data), before) == ReadTimeAndEtag(rest, hash, content, before);
      ok, bytes := reader.ReadFull(8);
      if !ok {
        return;
      }
      lastUpdated := Time(FromInt64(bytes), 0);
      ok, bytes := reader.NextBlock();
      if !ok {
        return;
      }
      lastEtag := bytes;
    }

    /** Decode into this structure; an error may leave it partly overwritten. */
    method UnmarshalBinary(data: seq<Byte>) returns (ok: bool)
      modifies this
      ensures ok <==> Decode(data, old(Value())).Ok?
      ensures ok ==> Value() == Decode(data, old(Value())).value
    {
      var reader := new Reader(data);
      var version, bytes;
      ok, version := reader.ReadFull(1);
      if !ok {
        return;
      }
      ok := UnmarshalBody(reader);
      if !ok || version[0] < 2 {
        return;
      }
      ok, bytes := reader.NextBlock();
      if ok {
        urlHash := bytes;
      }
    }
  }
}

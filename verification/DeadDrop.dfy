/**
 * The dead drop: a payload goes through base64url into 180-character shards, one TXT record each, and a shell
 * script reads the records back.
 */
module DeadDrop {
  import opened Options
  import opened Numbers
  import opened Text
  import opened Bytes
  import opened Base64

  const MAX_SHARDS := 8
  const SHARD_CHARS := 180

  /** The bytes that eight shards hold. */
  const CAPACITY := 1080

  // ----- shards -----

  function Chunks(value: string, size: nat): seq<string>
    requires size > 0
    decreases |value|
  {
    if value == [] then []
    else if |value| <= size then [value]
    else [value[..size]] + Chunks(value[size..], size)
  }

  function Glued(parts: seq<string>): string {
    if parts == [] then [] else parts[0] + Glued(parts[1..])
  }

  method ChunkString(value: string, size: nat) returns (chunks: seq<string>)
    requires size > 0
    ensures chunks == Chunks(value, size)
  {
    chunks := [];
    var index := 0;
    assert value[0..] == value;
    ghost var expected := Chunks(value, size);
    while index < |value|
      invariant 0 <= index && chunks + Chunks(value[Min(index, |value|)..], size) == expected
      decreases |value| - index
    {
      var end := Min(index + size, |value|);
      ghost var rest := value[index..];
      assert rest[..end - index] == value[index..end] && rest[end - index..] == value[end..];
      ChunksStep(rest, size);
      PushChunk(chunks, value[index..end], Chunks(value[end..], size));
      chunks := chunks + [value[index..end]];
      index := index + size;
    }
    assert value[|value|..] == [];
  }

  lemma ChunksStep(rest: string, size: nat)
    requires size > 0 && rest != []
    ensures var n := Min(size, |rest|); Chunks(rest, size) == [rest[..n]] + Chunks(rest[n..], size)
  {
    if |rest| <= size {
      assert rest[..|rest|] == rest && rest[|rest|..] == [];
    }
  }

  lemma PushChunk(chunks: seq<string>, chunk: string, more: seq<string>)
    ensures chunks + ([chunk] + more) == (chunks + [chunk]) + more
  {
  }

  /** The first k chunks hold exactly the first k * size characters, and each fits. */
  lemma {:induction false} FirstChunks(value: string, size: nat, k: nat)
    requires size > 0 && k <= |Chunks(value, size)|
    ensures Glued(Chunks(value, size)[..k]) == value[..Min(k * size, |value|)]
    ensures k < |Chunks(value, size)| ==> k * size < |value|
    ensures k == |Chunks(value, size)| ==> |value| <= k * size
    decreases k
  {
    if k > 0 {
      var c := Chunks(value, size);
      if |value| <= size {
        assert c[..k] == [value];
        assert c[..k][1..] == [];
        assert k * size == size;
      } else {
        var rest := value[size..];
        assert c[1..] == Chunks(rest, size);
        assert c[..k][1..] == c[1..][..k - 1];
        assert k * size == (k - 1) * size + size;
        FirstChunks(rest, size, k - 1);
        assert value[..size] + rest[..Min((k - 1) * size, |rest|)] == value[..Min(k * size, |value|)];
      }
    }
  }

  predicate Shardable(s: string) {
    forall i :: 0 <= i < |s| ==> s[i] != ';'
  }

  lemma {:induction false} ChunksFit(value: string, size: nat)
    requires size > 0 && Shardable(value)
    ensures forall i :: 0 <= i < |Chunks(value, size)| ==>
      |Chunks(value, size)[i]| <= size && Shardable(Chunks(value, size)[i])
    decreases |value|
  {
    if |value| > size {
      ChunksFit(value[size..], size);
      var c, rest := Chunks(value, size), Chunks(value[size..], size);
      forall i | 0 <= i < |c| ensures |c[i]| <= size && Shardable(c[i]) {
        if i > 0 { assert c[i] == rest[i - 1]; }
      }
    }
  }

  /** The shards of a payload: `assembleWhiteHoleDrop`. */
  function Shards(payload: seq<Byte>): seq<string> {
    var chunks := Chunks(ToUrl(payload), SHARD_CHARS);
    chunks[..Min(MAX_SHARDS, |chunks|)]
  }

  function Checksum(payload: seq<Byte>): nat {
    |ToUrl(payload)| % 97
  }

  // ----- record values -----

  function Label(index: nat): string {
    "v13;p" + Dec(index + 1) + "="
  }

  function Trailer(total: nat, checksum: nat): string {
    ";n=" + Dec(total) + ";c=" + Dec(checksum)
  }

  /** `whiteHoleRecordValue`. */
  function RecordValue(index: nat, total: nat, checksum: nat, shard: string): string {
    Label(index) + shard + Trailer(total, checksum)
  }

  /** Every published value is one TXT character-string (section 3.3 of RFC 1035), with room to spare. */
  lemma RecordFits(payload: seq<Byte>, index: nat)
    requires index < |Shards(payload)|
    ensures |RecordValue(index, |Shards(payload)|, Checksum(payload), Shards(payload)[index])| <= 196
  {
    ShardsAreClean(payload);
    DecLength(index + 1);
    DecLength(|Shards(payload)|);
    DecLength(Checksum(payload));
  }

  lemma ShardsAreClean(payload: seq<Byte>)
    ensures forall i :: 0 <= i < |Shards(payload)| ==>
      |Shards(payload)[i]| <= SHARD_CHARS && Shardable(Shards(payload)[i])
  {
    UrlIsShardable(Sextets(payload));
    ChunksFit(ToUrl(payload), SHARD_CHARS);
  }

  lemma UrlIsShardable(x: seq<Six>)
    ensures Shardable(UrlText(x))
  {
  }

  /** A record, field by field: version, place and shard, number of shards, checksum. */
  lemma RecordFields(index: nat, total: nat, checksum: nat, shard: string)
    requires Shardable(shard)
    ensures Split(RecordValue(index, total, checksum, shard), ';')
            == ["v13", "p" + Dec(index + 1) + "=" + shard, "n=" + Dec(total), "c=" + Dec(checksum)]
  {
    var place, n, c := "p" + Dec(index + 1) + "=" + shard, "n=" + Dec(total), "c=" + Dec(checksum);
    assert RecordValue(index, total, checksum, shard) == "v13" + [';'] + (place + [';'] + (n + [';'] + c));
    assert ';' !in place && ';' !in n && ';' !in c;
    SplitFirst("v13", place + [';'] + (n + [';'] + c), ';');
    SplitFirst(place, n + [';'] + c, ';');
    SplitFirst(n, c, ';');
    SplitPlain(c, ';');
  }

  /** The fields of a published record: its place counts from one, and the checksum is the encoded length modulo 97. */
  lemma PublishedFields(txt: Records, domain: string, payload: seq<Byte>, i: nat)
    requires i < |Shards(payload)|
    ensures var z, name := Published(txt, domain, payload), "ghost" + Dec(i + 1) + "." + domain;
      && name in z
      && Split(z[name], ';') == ["v13", "p" + Dec(i + 1) + "=" + Shards(payload)[i], "n=" + Dec(|Shards(payload)|),
                                 "c=" + Dec(|ToUrl(payload)| % 97)]
  {
    ShardsAreClean(payload);
    UpsertedAt(txt, domain, payload, |Shards(payload)|, i + 1);
    RecordFields(i, |Shards(payload)|, Checksum(payload), Shards(payload)[i]);
  }

  function AfterDigits(s: string): string {
    if s != [] && IsDigit(s[0]) then AfterDigits(s[1..]) else s
  }

  /** The reader's first substitution: remove a leading `v13;p<digits>=`. */
  function WithoutHead(s: string): string {
    if "v13;p" <= s then
      var t := AfterDigits(s[5..]);
      if t != [] && t[0] == '=' then t[1..] else s
    else s
  }

  /** The reader's second substitution: cut at the first `;n=`. */
  function WithoutTail(s: string): string {
    if s == [] || ";n=" <= s then [] else [s[0]] + WithoutTail(s[1..])
  }

  function Part(txt: string): string {
    WithoutTail(WithoutHead(txt))
  }

  lemma {:induction false} DigitsSkipped(digits: string, rest: string)
    requires AllDigits(digits) && (rest == [] || !IsDigit(rest[0]))
    ensures AfterDigits(digits + rest) == rest
  {
    if digits == [] {
      assert digits + rest == rest;
    } else {
      assert (digits + rest)[1..] == digits[1..] + rest;
      DigitsSkipped(digits[1..], rest);
    }
  }

  lemma {:induction false} TailCut(shard: string, rest: string)
    requires Shardable(shard) && ";n=" <= rest
    ensures WithoutTail(shard + rest) == shard
  {
    if shard == [] {
      assert shard + rest == rest;
    } else {
      assert (shard + rest)[1..] == shard[1..] + rest;
      TailCut(shard[1..], rest);
    }
  }

  /** The reader takes out of a record exactly the shard that was put in. */
  lemma PartOfRecord(index: nat, total: nat, checksum: nat, shard: string)
    requires Shardable(shard)
    ensures Part(RecordValue(index, total, checksum, shard)) == shard
  {
    var digits, tail := Dec(index + 1), Trailer(total, checksum);
    var body := ['='] + (shard + tail);
    var s := RecordValue(index, total, checksum, shard);
    assert s == "v13;p" + (digits + body);
    assert s[5..] == digits + body;
    DigitsSkipped(digits, body);
    assert body[1..] == shard + tail;
    TailCut(shard, tail);
  }

  // ----- the zone -----

  function Name(i: nat, domain: string): string {
    "ghost" + Dec(i) + "." + domain
  }

  lemma NameDigits(i: nat, domain: string)
    ensures var a, n := Name(i, domain), |Dec(i)|; |a| == 6 + n + |domain| && a[5..5 + n] == Dec(i)
  {
    var head: string := "ghost";
    assert Name(i, domain) == head + Dec(i) + ("." + domain);
    assert |head| == 5;
  }

  lemma NamesDiffer(i: nat, j: nat, domain: string)
    requires Name(i, domain) == Name(j, domain)
    ensures i == j
  {
    NameDigits(i, domain);
    NameDigits(j, domain);
    ParseDecOfDec(i);
    ParseDecOfDec(j);
  }

  type Records = map<string, string>

  /** The zone after the first k upserts of a publication. */
  function Upserted(txt: Records, domain: string, payload: seq<Byte>, k: nat): Records
    requires k <= |Shards(payload)|
  {
    if k == 0 then txt
    else Upserted(txt, domain, payload, k - 1)
      [Name(k, domain) := RecordValue(k - 1, |Shards(payload)|, Checksum(payload), Shards(payload)[k - 1])]
  }

  function Published(txt: Records, domain: string, payload: seq<Byte>): Records {
    Upserted(txt, domain, payload, |Shards(payload)|)
  }

  lemma {:induction false} UpsertedAt(txt: Records, domain: string, payload: seq<Byte>, k: nat, i: nat)
    requires k <= |Shards(payload)|
    ensures var z := Upserted(txt, domain, payload, k);
      var name := Name(i, domain);
      if 1 <= i <= k
      then name in z && z[name] == RecordValue(i - 1, |Shards(payload)|, Checksum(payload), Shards(payload)[i - 1])
      else (name in z <==> name in txt) && (name in txt ==> z[name] == txt[name])
    decreases k
  {
    if k > 0 {
      UpsertedAt(txt, domain, payload, k - 1, i);
      if Name(i, domain) == Name(k, domain) { NamesDiffer(i, k, domain); }
    }
  }

  /** The text the reader gathers from record i on. */
  function Gathered(txt: Records, domain: string, i: nat): string
    decreases MAX_SHARDS + 1 - i
  {
    if i > MAX_SHARDS || Name(i, domain) !in txt || txt[Name(i, domain)] == [] then []
    else Part(txt[Name(i, domain)]) + Gathered(txt, domain, i + 1)
  }

  /** What the reader prints: None when it finds no shards or cannot decode them. */
  function Decoded(text: string): Option<seq<Byte>> {
    if text == [] then None else FromUrl(text)
  }

  /** Through the published records the reader gathers the shards, then whatever follows them. */
  lemma {:induction false} GathersShards(txt: Records, domain: string, payload: seq<Byte>, i: nat)
    requires 1 <= i <= |Shards(payload)| + 1
    ensures var n := |Shards(payload)|; var z := Published(txt, domain, payload);
      Gathered(z, domain, i) == Glued(Shards(payload)[i - 1..]) + Gathered(z, domain, n + 1)
    decreases |Shards(payload)| + 1 - i
  {
    var shards, z := Shards(payload), Published(txt, domain, payload);
    if i <= |shards| {
      UpsertedAt(txt, domain, payload, |shards|, i);
      ShardsAreClean(payload);
      PartOfRecord(i - 1, |shards|, Checksum(payload), shards[i - 1]);
      GathersShards(txt, domain, payload, i + 1);
      GluedNext(shards, i, Gathered(z, domain, |shards| + 1));
    } else {
      assert shards[i - 1..] == [];
    }
  }

  lemma GluedNext(shards: seq<string>, i: nat, rest: string)
    requires 1 <= i <= |shards|
    ensures Glued(shards[i - 1..]) + rest == shards[i - 1] + (Glued(shards[i..]) + rest)
  {
    assert shards[i - 1..][1..] == shards[i..];
  }

  /** From record j on, publication of fewer than j shards changes nothing for the reader. */
  lemma {:induction false} RestUntouched(txt: Records, domain: string, payload: seq<Byte>, j: nat)
    requires |Shards(payload)| < j
    ensures Gathered(Published(txt, domain, payload), domain, j) == Gathered(txt, domain, j)
    decreases MAX_SHARDS + 1 - j
  {
    if j <= MAX_SHARDS {
      UpsertedAt(txt, domain, payload, |Shards(payload)|, j);
      RestUntouched(txt, domain, payload, j + 1);
    }
  }

  /** The shards together are the first 1440 characters of the encoding. */
  lemma ShardsAreThePrefix(payload: seq<Byte>)
    ensures Glued(Shards(payload)) == ToUrl(payload)[..Min(1440, |ToUrl(payload)|)]
    ensures payload != [] ==> Shards(payload) != []
  {
    var value := ToUrl(payload);
    var chunks := Chunks(value, SHARD_CHARS);
    var k := Min(MAX_SHARDS, |chunks|);
    FirstChunks(value, SHARD_CHARS, k);
    SextetsLength(payload);
  }

  /** Over any zone, the reader gathers the new shards followed by the old records beyond them. */
  lemma RepublishReads(txt: Records, domain: string, payload: seq<Byte>)
    ensures var n := |Shards(payload)|;
      Gathered(Published(txt, domain, payload), domain, 1)
        == ToUrl(payload)[..Min(1440, |ToUrl(payload)|)] + Gathered(txt, domain, n + 1)
  {
    GathersShards(txt, domain, payload, 1);
    assert Shards(payload)[0..] == Shards(payload);
    ShardsAreThePrefix(payload);
    RestUntouched(txt, domain, payload, |Shards(payload)| + 1);
  }

  /**
   * The round trip: when no old record follows the new ones, the reader prints exactly the first 1080 bytes; of the
   * empty payload it finds no shards.
   */
  lemma DropRoundTrip(txt: Records, domain: string, payload: seq<Byte>)
    requires |Shards(payload)| == 8 || Name(|Shards(payload)| + 1, domain) !in txt
    ensures Decoded(Gathered(Published(txt, domain, payload), domain, 1))
         == if payload == [] then None else Some(payload[..Min(1080, |payload|)])
  {
    var value := ToUrl(payload);
    var cut := value[..Min(1440, |value|)];
    RepublishReads(txt, domain, payload);
    assert cut + [] == cut;
    DecodesPrefix(payload);
  }

  lemma DecodesPrefix(payload: seq<Byte>)
    ensures var value := ToUrl(payload);
      Decoded(value[..Min(1440, |value|)]) == if payload == [] then None else Some(payload[..Min(CAPACITY, |payload|)])
  {
    var x := Sextets(payload);
    SextetsLength(payload);
    if |payload| <= CAPACITY {
      assert UrlText(x)[..|x|] == UrlText(x) && payload[..|payload|] == payload;
      UrlRoundTrip(payload);
    } else {
      OctetsOfPrefix(payload, 360);
      assert UrlText(x)[..1440] == UrlText(x[..1440]);
      FromSextets(x[..1440]);
    }
  }

  /** Lossless exactly up to 1080 bytes. */
  lemma LosslessUpTo1080(txt: Records, domain: string, payload: seq<Byte>)
    requires |Shards(payload)| == 8 || Name(|Shards(payload)| + 1, domain) !in txt
    ensures var r := Decoded(Gathered(Published(txt, domain, payload), domain, 1));
      r == Some(payload) <==> 0 < |payload| <= 1080
  {
    DropRoundTrip(txt, domain, payload);
    CutIsWhole(payload, Decoded(Gathered(Published(txt, domain, payload), domain, 1)));
  }

  lemma CutIsWhole(payload: seq<Byte>, r: Option<seq<Byte>>)
    requires r == if payload == [] then None else Some(payload[..Min(CAPACITY, |payload|)])
    ensures r == Some(payload) <==> 0 < |payload| <= CAPACITY
  {
    var cut := payload[..Min(CAPACITY, |payload|)];
    if |payload| <= CAPACITY {
      assert cut == payload;
    } else {
      assert |cut| < |payload|;
    }
  }

  class Zone {
    const domain: string
    var txt: Records

    constructor (domain: string)
      ensures this.domain == domain && txt == map[]
    {
      this.domain, txt := domain, map[];
    }

    /** `publishWhiteHoleDrop`: upsert one record per shard. */
    method Publish(payload: seq<Byte>)
      modifies this`txt
      ensures txt == Published(old(txt), domain, payload)
    {
      var encoded := BytesToBase64Url(payload);
      var chunks := ChunkString(encoded, SHARD_CHARS);
      var shards := chunks[..Min(MAX_SHARDS, |chunks|)];
      var i := 0;
      while i < |shards|
        invariant 0 <= i <= |shards| && txt == Upserted(old(txt), domain, payload, i)
      {
        txt := txt[Name(i + 1, domain) := RecordValue(i, |shards|, |encoded| % 97, shards[i])];
        i := i + 1;
      }
    }

    /** `clearWhiteHoleDrop`: delete the eight records, and report how many there were. */
    method Clear() returns (removed: nat)
      modifies this`txt
      ensures forall i :: 1 <= i <= 8 ==> Name(i, domain) !in txt
      ensures forall n :: n in txt ==> n in old(txt) && txt[n] == old(txt)[n]
      ensures forall n :: n in old(txt) && n !in txt ==> exists i :: 1 <= i <= 8 && n == Name(i, domain)
      ensures removed + |txt| == |old(txt)|
    {
      removed := 0;
      var index := 1;
      while index <= MAX_SHARDS
        invariant 1 <= index <= MAX_SHARDS + 1
        invariant forall i :: 1 <= i < index ==> Name(i, domain) !in txt
        invariant forall n :: n in txt ==> n in old(txt) && txt[n] == old(txt)[n]
        invariant forall n :: n in old(txt) && n !in txt ==> exists i :: 1 <= i < index && n == Name(i, domain)
        invariant removed + |txt| == |old(txt)|
      {
        var name := Name(index, domain);
        if name in txt {
          removed := removed + 1;
          CardinalityWithout(txt, name);
        }
        txt := txt - {name};
        index := index + 1;
      }
    }

    /** The shell reader of `renderFetchScript`. */
    method Fetch() returns (r: Option<seq<Byte>>)
      ensures r == Decoded(Gathered(txt, domain, 1))
    {
      var b64, i := "", 1;
      ghost var expected := Gathered(txt, domain, 1);
      while i <= MAX_SHARDS && Name(i, domain) in txt && txt[Name(i, domain)] != []
        invariant 1 <= i <= MAX_SHARDS + 1 && b64 + Gathered(txt, domain, i) == expected
      {
        var part := Part(txt[Name(i, domain)]);
        Assoc(b64, part, Gathered(txt, domain, i + 1));
        b64 := b64 + part;
        i := i + 1;
      }
      assert b64 == expected;
      if b64 == "" { return None; }
      r := FromUrl(b64);
    }
  }

  lemma Assoc(a: string, b: string, c: string)
    ensures a + (b + c) == (a + b) + c
  {
  }

  lemma CardinalityWithout(m: Records, k: string)
    requires k in m
    ensures |m - {k}| == |m| - 1
  {
    assert (m - {k}).Keys == m.Keys - {k};
  }
}

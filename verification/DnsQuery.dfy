/**
 * DNS questions on the wire (section 4.1 of RFC 1035): the scanner's query encoder and the resolver's question
 * parser, and the round trip between them.
 */
module DnsQuery {
  import opened Options
  import opened Text
  import opened Bytes
  import opened Validators

  datatype Question = Question(name: string, qtype: nat)

  const HEADER: seq<Byte> := [0x13, 0x56, 0x01, 0x00, 0, 1, 0, 0, 0, 0, 0, 0]

  // ----- the wire form -----

  function NonEmpty(parts: seq<string>): seq<string> {
    if parts == [] then []
    else if parts[0] == [] then NonEmpty(parts[1..])
    else [parts[0]] + NonEmpty(parts[1..])
  }

  function LabelsOf(name: string): seq<string> {
    NonEmpty(Split(name, '.'))
  }

  function LabelBytes(lab: string): seq<Byte> {
    [|lab| % 256] + Codes(lab)
  }

  function NameBytes(labels: seq<string>): (b: seq<Byte>)
  {
    if labels == [] then [] else NameBytes(labels[..|labels| - 1]) + LabelBytes(labels[|labels| - 1])
  }

  function Ending(qtype: nat): (b: seq<Byte>)
    ensures |b| == 5
  {
    [0] + U16(qtype) + U16(1)
  }

  function QueryBytes(name: string, qtype: nat): seq<Byte> {
    HEADER + NameBytes(LabelsOf(name)) + Ending(qtype)
  }

  // ----- the encoder -----

  function NameLength(labels: seq<string>): nat {
    if labels == [] then 0 else NameLength(labels[..|labels| - 1]) + |labels[|labels| - 1]| + 1
  }

  lemma {:induction false} PrefixIsShorter(labels: seq<string>, k: nat)
    requires k <= |labels|
    ensures NameLength(labels[..k]) <= NameLength(labels)
  {
    if k < |labels| {
      assert labels[..|labels| - 1][..k] == labels[..k];
      PrefixIsShorter(labels[..|labels| - 1], k);
    } else {
      assert labels[..k] == labels;
    }
  }

  /** Write `part` into the buffer at `offset`, one byte at a time. */
  method Put(buf: array<Byte>, offset: nat, part: seq<Byte>)
    requires offset + |part| <= buf.Length
    modifies buf
    ensures buf[..offset + |part|] == old(buf[..offset]) + part
  {
    var i := 0;
    while i < |part|
      invariant 0 <= i <= |part|
      invariant buf[..offset + i] == old(buf[..offset]) + part[..i]
    {
      buf[offset + i] := part[i];
      assert buf[..offset + i + 1] == buf[..offset + i] + [part[i]];
      assert part[..i + 1] == part[..i] + [part[i]];
      i := i + 1;
    }
    assert part[..|part|] == part;
  }

  method QnameLength(labels: seq<string>) returns (n: nat)
    ensures n == NameLength(labels)
  {
    n := 0;
    var k := 0;
    while k < |labels|
      invariant 0 <= k <= |labels| && n == NameLength(labels[..k])
    {
      assert labels[..k + 1][..k] == labels[..k];
      n := n + |labels[k]| + 1;
      k := k + 1;
    }
    assert labels[..|labels|] == labels;
  }

  method PutName(buf: array<Byte>, labels: seq<string>)
    requires 12 + NameLength(labels) <= buf.Length && buf[..12] == HEADER
    modifies buf
    ensures buf[..12 + NameLength(labels)] == HEADER + NameBytes(labels)
  {
    var offset, k := 12, 0;
    assert HEADER + NameBytes(labels[..0]) == HEADER;
    while k < |labels|
      invariant 0 <= k <= |labels| && offset == 12 + NameLength(labels[..k]) <= buf.Length
      invariant buf[..offset] == HEADER + NameBytes(labels[..k])
    {
      ghost var before, part := NameBytes(labels[..k]), LabelBytes(labels[k]);
      assert labels[..k + 1][..k] == labels[..k];
      PrefixIsShorter(labels, k + 1);
      Put(buf, offset, LabelBytes(labels[k]));
      Regroup(HEADER, before, part);
      offset := offset + |labels[k]| + 1;
      k := k + 1;
    }
    assert labels[..|labels|] == labels;
  }

  /** `encodeDnsQuery`. */
  method EncodeDnsQuery(name: string, qtype: nat) returns (buf: array<Byte>)
    ensures fresh(buf) && buf[..] == QueryBytes(name, qtype)
  {
    var labels := LabelsOf(name);
    var qnameLen := QnameLength(labels);
    buf := new Byte[12 + qnameLen + 1 + 4];
    Put(buf, 0, HEADER);
    assert buf[..0] == [];
    PutName(buf, labels);
    Put(buf, 12 + qnameLen, Ending(qtype));
    assert buf[..] == buf[..12 + qnameLen + 5];
  }

  // ----- the parser -----

  function JoinDots(labels: seq<string>): string {
    if labels == [] then [] else Join(labels, '.')
  }

  /** The question read on from `offset`, with `labels` already read. */
  function QuestionFrom(wire: seq<Byte>, offset: nat, labels: seq<string>): Option<Question>
    decreases |wire| - offset
  {
    if offset < |wire| && wire[offset] != 0 then
      if wire[offset] > 63 || offset + 1 + wire[offset] > |wire| then None
      else QuestionFrom(wire, offset + 1 + wire[offset], labels + [Chars(wire[offset + 1..offset + 1 + wire[offset]])])
    else if offset + 5 > |wire| then None
    else Some(Question(Lower(JoinDots(labels)), U16At(wire, offset + 1)))
  }

  /** `parseQuestion`: on every byte string it stays in bounds and stops. */
  method ParseQuestion(wire: seq<Byte>) returns (q: Option<Question>)
    ensures q == QuestionFrom(wire, 12, [])
  {
    var offset, labels := 12, [];
    ghost var expected := QuestionFrom(wire, 12, []);
    while offset < |wire| && wire[offset] != 0
      invariant QuestionFrom(wire, offset, labels) == expected
      decreases |wire| - offset
    {
      var length := wire[offset];
      if length > 63 || offset + 1 + length > |wire| { return None; }
      var text := Chars(wire[offset + 1..offset + 1 + length]);
      labels := labels + [text];
      offset := offset + 1 + length;
    }
    if offset + 5 > |wire| { return None; }
    var name := Lower(JoinDots(labels));
    q := Some(Question(name, U16At(wire, offset + 1)));
  }

  // ----- the round trip -----

  predicate Latin(s: string) {
    forall i :: 0 <= i < |s| ==> s[i] as int < 256
  }

  /** Labels a question can carry. */
  predicate Carried(labels: seq<string>) {
    forall i :: 0 <= i < |labels| ==> 1 <= |labels[i]| <= 63 && Latin(labels[i])
  }

  lemma {:induction false} NameBytesFirst(labels: seq<string>)
    requires labels != []
    ensures NameBytes(labels) == LabelBytes(labels[0]) + NameBytes(labels[1..])
  {
    var n := |labels|;
    if n == 1 {
      assert labels[..0] == [] && labels[1..] == [];
    } else {
      var init, rest := labels[..n - 1], labels[1..];
      NameBytesFirst(init);
      assert init[1..] == rest[..n - 2] && init[0] == labels[0] && rest[n - 2] == labels[n - 1];
      Regroup(LabelBytes(labels[0]), NameBytes(init[1..]), LabelBytes(labels[n - 1]));
    }
  }

  /** From `offset` the bytes are the labels as the encoder writes them, and the end of the question. */
  ghost predicate Carries(wire: seq<Byte>, offset: nat, labels: seq<string>, qtype: nat) {
    Carried(labels) && At(wire, offset, NameBytes(labels) + Ending(qtype))
  }

  /** The parser reads back, one label at a time, whatever the encoder wrote. */
  lemma {:induction false} ReadsLabels(wire: seq<Byte>, offset: nat, done: seq<string>, labels: seq<string>, qtype: nat,
                                       all: seq<string>)
    requires Carries(wire, offset, labels, qtype) && all == done + labels
    ensures QuestionFrom(wire, offset, done) == Some(Question(Lower(JoinDots(all)), qtype % 65536))
    decreases |labels|
  {
    if labels == [] {
      NoLabels(wire, offset, done, qtype, all);
    } else {
      FirstLabel(wire, offset, labels, qtype);
      OneDone(done, labels[0], labels);
      ReadsLabels(wire, offset + 1 + |labels[0]|, done + [labels[0]], labels[1..], qtype, all);
      ReadsLabel(wire, offset, done, labels[0]);
    }
  }

  lemma OneDone(done: seq<string>, lab: string, labels: seq<string>)
    requires labels != [] && lab == labels[0]
    ensures done + [lab] + labels[1..] == done + labels == done + ([lab] + labels[1..])
  {
  }

  lemma NoLabels(wire: seq<Byte>, offset: nat, done: seq<string>, qtype: nat, all: seq<string>)
    requires Carries(wire, offset, [], qtype) && all == done + []
    ensures QuestionFrom(wire, offset, done) == Some(Question(Lower(JoinDots(all)), qtype % 65536))
  {
    assert all == done && NameBytes([]) + Ending(qtype) == Ending(qtype);
    ReadsEnding(wire, offset, done, qtype);
  }

  lemma FirstLabel(wire: seq<Byte>, offset: nat, labels: seq<string>, qtype: nat)
    requires labels != [] && Carries(wire, offset, labels, qtype)
    ensures 1 <= |labels[0]| <= 63 && Latin(labels[0]) && At(wire, offset, LabelBytes(labels[0]))
    ensures Carries(wire, offset + 1 + |labels[0]|, labels[1..], qtype)
  {
    var first, rest := LabelBytes(labels[0]), NameBytes(labels[1..]);
    NameBytesFirst(labels);
    Regroup(first, rest, Ending(qtype));
    AtSplit(wire, offset, first, rest + Ending(qtype));
  }

  lemma ReadsLabel(wire: seq<Byte>, offset: nat, done: seq<string>, lab: string)
    requires 1 <= |lab| <= 63 && Latin(lab) && At(wire, offset, LabelBytes(lab))
    ensures QuestionFrom(wire, offset, done) == QuestionFrom(wire, offset + 1 + |lab|, done + [lab])
  {
    LabelAt(wire, offset, lab);
  }

  lemma LabelAt(wire: seq<Byte>, offset: nat, lab: string)
    requires 1 <= |lab| <= 63 && Latin(lab) && At(wire, offset, LabelBytes(lab))
    ensures offset + 1 + |lab| <= |wire| && wire[offset] == |lab|
    ensures Chars(wire[offset + 1..offset + 1 + |lab|]) == lab
  {
    AtIndex(wire, offset, LabelBytes(lab), 0);
    AtSplit(wire, offset, [|lab| % 256], Codes(lab));
    AtSlice(wire, offset + 1, Codes(lab));
    CharsOfCodes(lab);
  }

  lemma ReadsEnding(wire: seq<Byte>, offset: nat, done: seq<string>, qtype: nat)
    requires At(wire, offset, Ending(qtype))
    ensures QuestionFrom(wire, offset, done) == Some(Question(Lower(JoinDots(done)), qtype % 65536))
  {
    AtIndex(wire, offset, Ending(qtype), 0);
    Regroup([0], U16(qtype), U16(1));
    AtSplit(wire, offset, [0], U16(qtype) + U16(1));
    AtSplit(wire, offset + 1, U16(qtype), U16(1));
    U16Here(wire, offset + 1, qtype);
  }

  /** Every name whose labels fit comes back lower-cased, without its empty labels, and with its 16-bit type. */
  lemma QueryReadsBack(name: string, qtype: nat)
    requires Carried(LabelsOf(name))
    ensures QuestionFrom(QueryBytes(name, qtype), 12, [])
            == Some(Question(Lower(JoinDots(LabelsOf(name))), qtype % 65536))
  {
    ReadsBack(QueryBytes(name, qtype), LabelsOf(name), Lower(JoinDots(LabelsOf(name))), qtype, qtype % 65536);
  }

  lemma ReadsBack(wire: seq<Byte>, labels: seq<string>, text: string, qtype: nat, q: nat)
    requires Carried(labels) && wire == HEADER + NameBytes(labels) + Ending(qtype)
    requires text == Lower(JoinDots(labels)) && q == qtype % 65536
    ensures QuestionFrom(wire, 12, []) == Some(Question(text, q))
  {
    Behind(wire, HEADER, NameBytes(labels), Ending(qtype));
    assert [] + labels == labels;
    ReadsLabels(wire, 12, [], labels, qtype, labels);
  }

  /**
   * What surrounds the name: the header asks for recursion and announces one question and nothing else, and the
   * question ends with the root, its type and the class IN.
   */
  lemma QueryFrame(name: string, qtype: nat)
    ensures var b := QueryBytes(name, qtype);
      var n := |b|;
      && n >= 17 && U16At(b, 0) == 0x1356 && b[2] == 1 && b[3] == 0
      && U16At(b, 4) == 1 && U16At(b, 6) == 0 && U16At(b, 8) == 0 && U16At(b, 10) == 0
      && b[n - 5] == 0 && U16At(b, n - 4) == qtype % 65536 && U16At(b, n - 2) == 1
  {
    var b := QueryBytes(name, qtype);
    FrameOf(b, NameBytes(LabelsOf(name)), Ending(qtype));
    EndingFields(qtype);
  }

  lemma FrameOf(b: seq<Byte>, middle: seq<Byte>, end: seq<Byte>)
    requires b == HEADER + middle + end && |end| == 5
    ensures var n := |b|; n >= 17 && b[..12] == HEADER && b[n - 5..] == end
    ensures var n := |b|;
      && U16At(b, 0) == U16At(HEADER, 0) && b[2] == HEADER[2] && b[3] == HEADER[3] && U16At(b, 4) == U16At(HEADER, 4)
      && U16At(b, 6) == U16At(HEADER, 6) && U16At(b, 8) == U16At(HEADER, 8) && U16At(b, 10) == U16At(HEADER, 10)
      && b[n - 5] == end[0] && U16At(b, n - 4) == U16At(end, 1) && U16At(b, n - 2) == U16At(end, 3)
  {
    var n := |b|;
    assert b[..12] == HEADER && b[n - 5..] == end;
    assert forall i :: 0 <= i < 12 ==> b[i] == b[..12][i];
    var last := b[n - 5..];
    assert forall i :: 0 <= i < 5 ==> last[i] == b[n - 5 + i];
  }

  lemma EndingFields(qtype: nat)
    ensures var e := Ending(qtype); e[0] == 0 && U16At(e, 1) == qtype % 65536 && U16At(e, 3) == 1
  {
    var e, t, one := Ending(qtype), U16(qtype), U16(1);
    assert e[1] == t[0] && e[2] == t[1] && e[3] == one[0] && e[4] == one[1];
    TwoBytes(qtype);
  }

  /** From `offset` the bytes are the labels, the root and two more fields, and the question is what they say. */
  ghost predicate Reads(wire: seq<Byte>, offset: nat, done: seq<string>, labels: seq<string>, q: Question) {
    var end := offset + |NameBytes(labels)|;
    && Carried(labels) && At(wire, offset, NameBytes(labels) + [0])
    && end + 5 <= |wire| && q == Question(Lower(JoinDots(done + labels)), U16At(wire, end + 1))
  }

  /**
   * What is accepted is a question: labels of 1 to 63 bytes, the root, and two more fields, the first of which is the
   * type.
   */
  lemma {:induction false} AcceptedIsQuestion(wire: seq<Byte>, offset: nat, done: seq<string>)
    returns (labels: seq<string>)
    requires offset <= |wire| && QuestionFrom(wire, offset, done).Some?
    ensures Reads(wire, offset, done, labels, QuestionFrom(wire, offset, done).value)
    decreases |wire| - offset
  {
    if offset < |wire| && wire[offset] != 0 {
      var n := wire[offset];
      Fits(wire, offset, done);
      var lab := Chars(wire[offset + 1..offset + 1 + n]);
      OneStep(wire, offset, done, lab);
      var rest := AcceptedIsQuestion(wire, offset + 1 + n, done + [lab]);
      labels := [lab] + rest;
      ReadsOneMore(wire, offset, done, lab, rest, QuestionFrom(wire, offset, done).value);
    } else {
      labels := [];
      ReadsNone(wire, offset, done);
    }
  }

  lemma ReadsNone(wire: seq<Byte>, offset: nat, done: seq<string>)
    requires offset <= |wire| && QuestionFrom(wire, offset, done).Some? && (offset < |wire| ==> wire[offset] == 0)
    ensures Reads(wire, offset, done, [], QuestionFrom(wire, offset, done).value)
  {
    assert done + [] == done && NameBytes([]) + [0] == [0];
  }

  lemma ReadsOneMore(wire: seq<Byte>, offset: nat, done: seq<string>, lab: string, rest: seq<string>, q: Question)
    requires offset < |wire| && 1 <= wire[offset] <= 63 && offset + 1 + wire[offset] <= |wire|
    requires lab == Chars(wire[offset + 1..offset + 1 + wire[offset]])
    requires Reads(wire, offset + 1 + wire[offset], done + [lab], rest, q)
    ensures Reads(wire, offset, done, [lab] + rest, q)
  {
    OneMoreLabel(wire, offset, lab, rest);
    assert ([lab] + rest)[1..] == rest;
    OneDone(done, lab, [lab] + rest);
  }

  lemma Fits(wire: seq<Byte>, offset: nat, done: seq<string>)
    requires offset < |wire| && wire[offset] != 0 && QuestionFrom(wire, offset, done).Some?
    ensures wire[offset] <= 63 && offset + 1 + wire[offset] <= |wire|
  {
  }

  lemma OneStep(wire: seq<Byte>, offset: nat, done: seq<string>, lab: string)
    requires offset < |wire| && wire[offset] != 0 && QuestionFrom(wire, offset, done).Some?
    requires offset + 1 + wire[offset] <= |wire| && lab == Chars(wire[offset + 1..offset + 1 + wire[offset]])
    ensures QuestionFrom(wire, offset, done) == QuestionFrom(wire, offset + 1 + wire[offset], done + [lab])
  {
  }

  lemma OneMoreLabel(wire: seq<Byte>, offset: nat, lab: string, rest: seq<string>)
    requires offset < |wire| && 1 <= wire[offset] <= 63 && offset + 1 + wire[offset] <= |wire|
    requires lab == Chars(wire[offset + 1..offset + 1 + wire[offset]])
    requires Carried(rest) && At(wire, offset + 1 + wire[offset], NameBytes(rest) + [0])
    ensures Carried([lab] + rest) && At(wire, offset, NameBytes([lab] + rest) + [0])
    ensures |NameBytes([lab] + rest)| == 1 + wire[offset] + |NameBytes(rest)|
  {
    LabelIsThere(wire, offset, lab, NameBytes(rest) + [0]);
    NameBytesFirst([lab] + rest);
    assert ([lab] + rest)[1..] == rest;
    Regroup(LabelBytes(lab), NameBytes(rest), [0]);
  }

  lemma LabelIsThere(wire: seq<Byte>, offset: nat, lab: string, rest: seq<Byte>)
    requires offset < |wire| && 1 <= wire[offset] <= 63 && offset + 1 + wire[offset] <= |wire|
    requires lab == Chars(wire[offset + 1..offset + 1 + wire[offset]])
    requires At(wire, offset + 1 + wire[offset], rest)
    ensures |lab| == wire[offset] && Latin(lab) && At(wire, offset, LabelBytes(lab) + rest)
  {
    var part := wire[offset + 1..offset + 1 + wire[offset]];
    CodesOfChars(part);
    assert LabelBytes(lab) == [wire[offset]] + part;
    var whole := LabelBytes(lab) + rest;
    forall i | 0 <= i < |whole| ensures wire[offset + i] == whole[i] {
      if i > |part| { assert whole[i] == rest[i - 1 - |part|]; }
    }
  }

  /** The round trip: a valid hostname and its type come back exactly. */
  lemma HostnameRoundTrip(name: string, qtype: nat)
    requires IsValidHostname(name) && qtype < 65536
    ensures QuestionFrom(QueryBytes(name, qtype), 12, []) == Some(Question(name, qtype))
  {
    HostnameLabels(name);
    ReadsBack(QueryBytes(name, qtype), LabelsOf(name), name, qtype, qtype);
  }

  lemma HostnameLabels(name: string)
    requires IsValidHostname(name)
    ensures Carried(LabelsOf(name)) && Lower(JoinDots(LabelsOf(name))) == name
  {
    var parts := Split(name, '.');
    NothingDropped(parts);
    ValidIsCarried(parts);
    JoinOfSplit(name, '.');
    HostnameIsLower(parts);
    SameWhenLower(name);
  }

  lemma SameWhenLower(s: string)
    requires forall i :: 0 <= i < |s| ==> LowerChar(s[i]) == s[i]
    ensures Lower(s) == s
  {
  }

  lemma ValidIsCarried(parts: seq<string>)
    requires ValidLabels(parts)
    ensures Carried(parts)
  {
    forall i | 0 <= i < |parts| ensures 1 <= |parts[i]| <= 63 && Latin(parts[i]) {
      assert ValidLabel(parts[i]);
    }
  }

  lemma {:induction false} NothingDropped(parts: seq<string>)
    requires ValidLabels(parts)
    ensures NonEmpty(parts) == parts
  {
    if parts != [] {
      assert ValidLabel(parts[0]);
      forall i | 0 <= i < |parts[1..]| ensures ValidLabel(parts[1..][i]) { assert parts[1..][i] == parts[i + 1]; }
      NothingDropped(parts[1..]);
    }
  }

  lemma {:induction false} HostnameIsLower(parts: seq<string>)
    requires parts != [] && ValidLabels(parts)
    ensures forall i :: 0 <= i < |Join(parts, '.')| ==> LowerChar(Join(parts, '.')[i]) == Join(parts, '.')[i]
  {
    assert ValidLabel(parts[0]);
    if |parts| > 1 {
      forall i | 0 <= i < |parts[1..]| ensures ValidLabel(parts[1..][i]) { assert parts[1..][i] == parts[i + 1]; }
      HostnameIsLower(parts[1..]);
    }
  }
}

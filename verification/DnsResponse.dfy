/**
 * The scanner's response parser against an independent encoder of well-formed responses (sections 4.1 and 4.1.4
 * of RFC 1035), and the reassembly of length-prefixed messages from a TCP stream (section 4.2.2).
 */
module DnsResponse {
  import opened Options
  import opened Text
  import opened Cidr
  import opened Bytes

  datatype Reply = Reply(rcode: nat, answers: seq<string>)

  const SHORT := 99

  // ----- what the parser computes -----

  /** The end of the question name at `offset`; pointers end a name. */
  function AfterQuestionName(buf: seq<Byte>, offset: nat): (end: nat)
    ensures end >= offset
    decreases |buf| - offset
  {
    if offset >= |buf| then offset
    else if buf[offset] == 0 then offset + 1
    else if buf[offset] >= 0xC0 then offset + 2
    else AfterQuestionName(buf, offset + 1 + buf[offset])
  }

  function AfterQuestions(buf: seq<Byte>, offset: nat, n: nat): (end: nat)
    decreases n
  {
    if n == 0 then offset else AfterQuestions(buf, AfterQuestionName(buf, offset) + 4, n - 1)
  }

  function AfterLabels(buf: seq<Byte>, offset: nat): (end: nat)
    ensures end >= offset
    decreases |buf| - offset
  {
    if offset >= |buf| then offset
    else if buf[offset] == 0 then offset + 1
    else AfterLabels(buf, offset + 1 + buf[offset])
  }

  /** The end of an answer's name: two bytes for a pointer, otherwise labels. */
  function AfterAnswerName(buf: seq<Byte>, offset: nat): (end: nat)
    requires offset < |buf|
    ensures end >= offset
  {
    if buf[offset] >= 0x40 then offset + 2 else AfterLabels(buf, offset)
  }

  /** The address of the record whose fixed part starts at `offset`, if it is an A record held in the buffer. */
  function AddressesAt(buf: seq<Byte>, offset: nat): seq<seq<Byte>>
    requires offset + 10 <= |buf|
  {
    if U16At(buf, offset) == 1 && U16At(buf, offset + 8) == 4 && offset + 14 <= |buf|
    then [buf[offset + 10..offset + 14]] else []
  }

  /** What the record at `offset` contributes, and where the next one starts; None where the loop breaks off. */
  function FoundAt(buf: seq<Byte>, offset: nat): seq<seq<Byte>>
    requires offset < |buf|
  {
    var o := AfterAnswerName(buf, offset);
    if o + 10 > |buf| then [] else AddressesAt(buf, o)
  }

  function NextAt(buf: seq<Byte>, offset: nat): Option<nat>
    requires offset < |buf|
  {
    var o := AfterAnswerName(buf, offset);
    if o + 10 > |buf| then None else Some(o + 10 + U16At(buf, o + 8))
  }

  /** The addresses, as four bytes each, of at most n answers, after those already read. */
  function AnswersFrom(buf: seq<Byte>, offset: nat, n: nat, read: seq<seq<Byte>>): (found: seq<seq<Byte>>)
    decreases n
  {
    if n == 0 || offset + 12 > |buf| || NextAt(buf, offset).None? then read
    else AnswersFrom(buf, NextAt(buf, offset).value, n - 1, read + FoundAt(buf, offset))
  }

  /** An address as dotted text. */
  function Shown(quad: seq<Byte>): string {
    if |quad| == 4 then QuadText(Dec(quad[0]), Dec(quad[1]), Dec(quad[2]), Dec(quad[3])) else []
  }

  function AllShown(quads: seq<seq<Byte>>): seq<string> {
    if quads == [] then [] else AllShown(quads[..|quads| - 1]) + [Shown(quads[|quads| - 1])]
  }

  function ReplyOf(buf: seq<Byte>): Reply {
    if |buf| < 12 then Reply(SHORT, [])
    else Reply(buf[3] % 16, AllShown(AnswersFrom(buf, AfterQuestions(buf, 12, U16At(buf, 4)), U16At(buf, 6), [])))
  }

  // ----- the loops -----

  method SkipQuestionName(buf: seq<Byte>, start: nat) returns (offset: nat)
    ensures offset == AfterQuestionName(buf, start)
  {
    offset := start;
    while offset < |buf|
      invariant AfterQuestionName(buf, offset) == AfterQuestionName(buf, start)
      decreases |buf| - offset
    {
      var length := buf[offset];
      if length == 0 { return offset + 1; }
      if length >= 0xC0 { return offset + 2; }
      offset := offset + 1 + length;
    }
  }

  method SkipQuestions(buf: seq<Byte>, start: nat, n: nat) returns (offset: nat)
    ensures offset == AfterQuestions(buf, start, n)
  {
    offset := start;
    var question := 0;
    while question < n
      invariant 0 <= question <= n && AfterQuestions(buf, offset, n - question) == AfterQuestions(buf, start, n)
    {
      offset := SkipQuestionName(buf, offset);
      offset := offset + 4;
      question := question + 1;
    }
  }

  method SkipLabels(buf: seq<Byte>, start: nat) returns (offset: nat)
    ensures offset == AfterLabels(buf, start)
  {
    offset := start;
    while offset < |buf|
      invariant AfterLabels(buf, offset) == AfterLabels(buf, start)
      decreases |buf| - offset
    {
      var length := buf[offset];
      if length == 0 { return offset + 1; }
      offset := offset + 1 + length;
    }
  }

  /** One turn of the answer loop, or None where it breaks off. */
  method ReadAnswer(buf: seq<Byte>, start: nat) returns (found: seq<seq<Byte>>, next: Option<nat>)
    requires start + 12 <= |buf|
    ensures found == FoundAt(buf, start) && next == NextAt(buf, start) && |found| <= 1
  {
    var offset := start;
    if buf[offset] >= 0x40 { offset := offset + 2; } else { offset := SkipLabels(buf, offset); }
    if offset + 10 > |buf| { return [], None; }
    var rtype, rdlength := U16At(buf, offset), U16At(buf, offset + 8);
    offset := offset + 10;
    found := [];
    if rtype == 1 && rdlength == 4 && offset + 4 <= |buf| {
      found := [buf[offset..offset + 4]];
    }
    next := Some(offset + rdlength);
  }

  method ReadAnswers(buf: seq<Byte>, start: nat, n: nat) returns (answers: seq<string>)
    ensures answers == AllShown(AnswersFrom(buf, start, n, []))
  {
    answers := [];
    ghost var read: seq<seq<Byte>> := [];
    var offset: nat, index := start, 0;
    ghost var expected := AnswersFrom(buf, start, n, []);
    while index < n && offset + 12 <= |buf|
      invariant 0 <= index <= n && AnswersFrom(buf, offset, n - index, read) == expected
      invariant answers == AllShown(read)
    {
      var found, next := ReadAnswer(buf, offset);
      if next.None? { return; }
      ShowMore(read, found);
      if found != [] { answers := answers + [Shown(found[0])]; }
      read := read + found;
      offset, index := next.value, index + 1;
    }
  }

  lemma ShowMore(read: seq<seq<Byte>>, found: seq<seq<Byte>>)
    requires |found| <= 1
    ensures AllShown(read + found) == AllShown(read) + (if found == [] then [] else [Shown(found[0])])
  {
    if found == [] {
      assert read + found == read;
    } else {
      assert (read + found)[..|read|] == read;
    }
  }

  /** `parseDnsResponse`: it stays in bounds and stops on every byte string. */
  method ParseDnsResponse(buf: seq<Byte>) returns (r: Reply)
    ensures r == ReplyOf(buf)
    ensures |buf| < 12 ==> r == Reply(99, [])
  {
    if |buf| < 12 { return Reply(SHORT, []); }
    var rcode, ancount, qdcount := buf[3] % 16, U16At(buf, 6), U16At(buf, 4);
    var offset := SkipQuestions(buf, 12, qdcount);
    var answers := ReadAnswers(buf, offset, ancount);
    r := Reply(rcode, answers);
  }

  // ----- well-formed responses -----

  type Name = seq<seq<Byte>>

  predicate Labels(name: Name) {
    forall i :: 0 <= i < |name| ==> 1 <= |name[i]| <= 63
  }

  /** How an encoded name ends: at the root, or by a pointer into the message. */
  datatype End = Root | Pointer(target: nat)

  datatype Asked = Asked(name: Name, end: End, qtype: nat, qclass: nat)

  /** An answer, whose name is a bare pointer or plain labels. */
  datatype Owner = Plain(name: Name) | Compressed(target: nat)

  datatype Record = Record(owner: Owner, rtype: nat, rclass: nat, ttl: seq<Byte>, rdata: seq<Byte>)

  /**
   * A message.  `flags` is QR, opcode, AA, TC and RD; `high` is RA, Z, AD and CD, the half byte before the rcode;
   * `tail` is whatever follows the answer section.
   */
  datatype Message = Message(
    id: nat, flags: Byte, high: nat, rcode: nat, asked: seq<Asked>, answers: seq<Record>,
    counts: seq<Byte>, tail: seq<Byte>)

  predicate WellFormedAsked(q: Asked) {
    Labels(q.name) && (q.end.Pointer? ==> q.end.target < 0x4000)
  }

  predicate WellFormedRecord(r: Record) {
    && (r.owner.Plain? ==> Labels(r.owner.name)) && (r.owner.Compressed? ==> r.owner.target < 0x4000)
    && r.rtype < 65536 && |r.ttl| == 4 && |r.rdata| < 65536
  }

  predicate WellFormedQuestions(qs: seq<Asked>) {
    qs == [] || (WellFormedAsked(qs[0]) && WellFormedQuestions(qs[1..]))
  }

  predicate WellFormedRecords(rs: seq<Record>) {
    rs == [] || (WellFormedRecord(rs[0]) && WellFormedRecords(rs[1..]))
  }

  predicate WellFormed(m: Message) {
    && m.high < 16 && m.rcode < 16 && |m.counts| == 4 && |m.asked| < 65536 && |m.answers| < 65536
    && WellFormedQuestions(m.asked) && WellFormedRecords(m.answers)
  }

  function PointerBytes(target: nat): (b: seq<Byte>)
    ensures |b| == 2
  {
    [0xC0 + target / 256 % 64, target % 256]
  }

  function LabelsBytes(name: Name): seq<Byte> {
    if name == [] then [] else [|name[0]| % 256] + name[0] + LabelsBytes(name[1..])
  }

  function EndBytes(end: End): seq<Byte> {
    match end
    case Root => [0]
    case Pointer(target) => PointerBytes(target)
  }

  function AskedBytes(q: Asked): seq<Byte> {
    LabelsBytes(q.name) + EndBytes(q.end) + (U16(q.qtype) + U16(q.qclass))
  }

  function OwnerBytes(o: Owner): seq<Byte> {
    match o
    case Plain(name) => LabelsBytes(name) + [0]
    case Compressed(target) => PointerBytes(target)
  }

  function FixedBytes(r: Record): seq<Byte> {
    U16(r.rtype) + U16(r.rclass) + r.ttl + U16(|r.rdata|)
  }

  function RecordBytes(r: Record): seq<Byte> {
    OwnerBytes(r.owner) + (FixedBytes(r) + r.rdata)
  }

  function AllAsked(qs: seq<Asked>): seq<Byte> {
    if qs == [] then [] else AskedBytes(qs[0]) + AllAsked(qs[1..])
  }

  function AllRecords(rs: seq<Record>): seq<Byte> {
    if rs == [] then [] else RecordBytes(rs[0]) + AllRecords(rs[1..])
  }

  /** The fourth header byte: four flag bits, then the rcode. */
  function FlagByte(high: nat, rcode: nat): Byte {
    high % 16 * 16 + rcode % 16
  }

  function HeaderBytes(m: Message): (b: seq<Byte>)
    requires |m.counts| == 4
    ensures |b| == 12
  {
    U16(m.id) + [m.flags, FlagByte(m.high, m.rcode)] + U16(|m.asked|) + U16(|m.answers|) + m.counts
  }

  function MessageBytes(m: Message): seq<Byte>
    requires |m.counts| == 4
  {
    HeaderBytes(m) + (AllAsked(m.asked) + (AllRecords(m.answers) + m.tail))
  }

  function OwnAddress(r: Record): seq<seq<Byte>> {
    if r.rtype == 1 && |r.rdata| == 4 then [r.rdata] else []
  }

  /** The A addresses of the answer section, in order. */
  function Addresses(rs: seq<Record>): seq<seq<Byte>> {
    if rs == [] then []
    else OwnAddress(rs[0]) + Addresses(rs[1..])
  }

  // ----- reading them back -----

  lemma {:induction false} ReadsQuestionName(buf: seq<Byte>, offset: nat, name: Name, end: End)
    requires Labels(name) && At(buf, offset, LabelsBytes(name) + EndBytes(end))
    ensures AfterQuestionName(buf, offset) == offset + |LabelsBytes(name) + EndBytes(end)|
    decreases |name|
  {
    if name == [] {
      assert LabelsBytes(name) + EndBytes(end) == EndBytes(end);
      AtIndex(buf, offset, EndBytes(end), 0);
    } else {
      FirstLabel(buf, offset, name, EndBytes(end));
      ReadsQuestionName(buf, offset + 1 + |name[0]|, name[1..], end);
    }
  }

  lemma LabelsSplit(name: Name, rest: seq<Byte>)
    requires name != []
    ensures LabelsBytes(name) + rest == ([|name[0]| % 256] + name[0]) + (LabelsBytes(name[1..]) + rest)
  {
    Regroup([|name[0]| % 256] + name[0], LabelsBytes(name[1..]), rest);
  }

  lemma HeadAt(buf: seq<Byte>, offset: nat, lab: seq<Byte>, more: seq<Byte>)
    requires |lab| <= 63 && At(buf, offset, ([|lab| % 256] + lab) + more)
    ensures offset < |buf| && buf[offset] == |lab| && At(buf, offset + 1 + |lab|, more)
  {
    AtSplit(buf, offset, [|lab| % 256] + lab, more);
    AtIndex(buf, offset, [|lab| % 256] + lab, 0);
  }

  lemma FirstLabel(buf: seq<Byte>, offset: nat, name: Name, rest: seq<Byte>)
    requires name != [] && Labels(name) && At(buf, offset, LabelsBytes(name) + rest)
    ensures offset < |buf| && buf[offset] == |name[0]| && Labels(name[1..])
    ensures At(buf, offset + 1 + |name[0]|, LabelsBytes(name[1..]) + rest)
    ensures |LabelsBytes(name) + rest| == 1 + |name[0]| + |LabelsBytes(name[1..]) + rest|
  {
    LabelsSplit(name, rest);
    HeadAt(buf, offset, name[0], LabelsBytes(name[1..]) + rest);
  }

  lemma {:induction false} ReadsLabels(buf: seq<Byte>, offset: nat, name: Name)
    requires Labels(name) && At(buf, offset, LabelsBytes(name) + [0])
    ensures AfterLabels(buf, offset) == offset + |LabelsBytes(name) + [0]|
    decreases |name|
  {
    if name == [] {
      assert LabelsBytes(name) + [0] == [0];
      AtIndex(buf, offset, [0], 0);
    } else {
      FirstLabel(buf, offset, name, [0]);
      ReadsLabels(buf, offset + 1 + |name[0]|, name[1..]);
    }
  }

  lemma {:induction false} LabelsThenPointer(buf: seq<Byte>, offset: nat, name: Name, target: nat)
    requires Labels(name) && At(buf, offset, LabelsBytes(name) + PointerBytes(target))
    ensures AfterLabels(buf, offset) > offset + |LabelsBytes(name) + PointerBytes(target)|
    decreases |name|
  {
    if name == [] {
      assert LabelsBytes(name) + PointerBytes(target) == PointerBytes(target);
      AtIndex(buf, offset, PointerBytes(target), 0);
    } else {
      FirstLabel(buf, offset, name, PointerBytes(target));
      LabelsThenPointer(buf, offset + 1 + |name[0]|, name[1..], target);
    }
  }

  /** Where the parser finds the end of an answer's name: exactly when labels and a pointer are not mixed. */
  lemma AnswerNameEndFound(buf: seq<Byte>, offset: nat, name: Name, end: End)
    requires Labels(name) && At(buf, offset, LabelsBytes(name) + EndBytes(end))
    ensures offset < |buf|
    ensures AfterAnswerName(buf, offset) == offset + |LabelsBytes(name) + EndBytes(end)| <==> name == [] || end.Root?
  {
    if name == [] {
      assert LabelsBytes(name) + EndBytes(end) == EndBytes(end);
      AtIndex(buf, offset, EndBytes(end), 0);
      if end.Root? { ReadsLabels(buf, offset, name); }
    } else {
      FirstLabel(buf, offset, name, EndBytes(end));
      if end.Root? { ReadsLabels(buf, offset, name); } else { LabelsThenPointer(buf, offset, name, end.target); }
    }
  }

  lemma ReadsOwner(buf: seq<Byte>, offset: nat, o: Owner)
    requires (o.Plain? ==> Labels(o.name)) && At(buf, offset, OwnerBytes(o))
    ensures offset < |buf| && AfterAnswerName(buf, offset) == offset + |OwnerBytes(o)|
  {
    if o.Plain? {
      AnswerNameEndFound(buf, offset, o.name, Root);
    } else {
      assert LabelsBytes([]) + PointerBytes(o.target) == PointerBytes(o.target);
      AnswerNameEndFound(buf, offset, [], Pointer(o.target));
    }
  }

  lemma {:induction false} ReadsQuestions(buf: seq<Byte>, offset: nat, qs: seq<Asked>, rest: seq<Byte>)
    requires WellFormedQuestions(qs)
    requires At(buf, offset, AllAsked(qs) + rest)
    ensures AfterQuestions(buf, offset, |qs|) == offset + |AllAsked(qs)|
    ensures At(buf, offset + |AllAsked(qs)|, rest)
    decreases |qs|
  {
    AtSplit(buf, offset, AllAsked(qs), rest);
    if qs != [] {
      var q, more := qs[0], AllAsked(qs[1..]);
      Regroup(AskedBytes(q), more, rest);
      AtSplit(buf, offset, AskedBytes(q), more + rest);
      AtSplit(buf, offset, LabelsBytes(q.name) + EndBytes(q.end), U16(q.qtype) + U16(q.qclass));
      ReadsQuestionName(buf, offset, q.name, q.end);
      ReadsQuestions(buf, offset + |AskedBytes(q)|, qs[1..], rest);
    }
  }

  lemma ReadsFixed(buf: seq<Byte>, o: nat, r: Record)
    requires WellFormedRecord(r) && At(buf, o, FixedBytes(r) + r.rdata)
    ensures o + 10 + |r.rdata| <= |buf| && U16At(buf, o) == r.rtype && U16At(buf, o + 8) == |r.rdata|
    ensures At(buf, o + 10, r.rdata)
  {
    AtSplit(buf, o, FixedBytes(r), r.rdata);
    AtSplit(buf, o, U16(r.rtype) + U16(r.rclass) + r.ttl, U16(|r.rdata|));
    AtSplit(buf, o, U16(r.rtype) + U16(r.rclass), r.ttl);
    AtSplit(buf, o, U16(r.rtype), U16(r.rclass));
    U16Here(buf, o, r.rtype);
    U16Here(buf, o + 8, |r.rdata|);
  }

  /** Too few bytes for the guard of the answer loop means too few for an A record. */
  lemma {:induction false} ShortTailHasNoAddress(rs: seq<Record>)
    requires WellFormedRecords(rs) && |AllRecords(rs)| < 12
    ensures Addresses(rs) == []
    decreases |rs|
  {
    if rs != [] {
      ShortTailHasNoAddress(rs[1..]);
    }
  }

  lemma {:induction false} ReadsAnswers(buf: seq<Byte>, offset: nat, rs: seq<Record>, read: seq<seq<Byte>>)
    requires WellFormedRecords(rs)
    requires At(buf, offset, AllRecords(rs))
    ensures AnswersFrom(buf, offset, |rs|, read) == read + Addresses(rs)
    decreases |rs|
  {
    if rs == [] || offset + 12 > |buf| {
      NothingMore(buf, offset, rs, read);
    } else {
      var next, found := NextRecord(buf, offset, rs, read);
      ReadsAnswers(buf, next, rs[1..], read + found);
      Regrouped(read, found, Addresses(rs[1..]));
    }
  }

  lemma NothingMore(buf: seq<Byte>, offset: nat, rs: seq<Record>, read: seq<seq<Byte>>)
    requires WellFormedRecords(rs)
    requires At(buf, offset, AllRecords(rs)) && (rs == [] || offset + 12 > |buf|)
    ensures AnswersFrom(buf, offset, |rs|, read) == read + Addresses(rs)
  {
    if rs != [] { ShortTailHasNoAddress(rs); }
    assert read + [] == read;
  }

  lemma Regrouped(a: seq<seq<Byte>>, b: seq<seq<Byte>>, c: seq<seq<Byte>>)
    ensures (a + b) + c == a + (b + c)
  {
  }

  lemma NextRecord(buf: seq<Byte>, offset: nat, rs: seq<Record>, read: seq<seq<Byte>>)
    returns (next: nat, found: seq<seq<Byte>>)
    requires rs != [] && WellFormedRecord(rs[0]) && At(buf, offset, AllRecords(rs)) && offset + 12 <= |buf|
    ensures At(buf, next, AllRecords(rs[1..])) && Addresses(rs) == found + Addresses(rs[1..])
    ensures AnswersFrom(buf, offset, |rs|, read) == AnswersFrom(buf, next, |rs| - 1, read + found)
  {
    next := FirstRecord(buf, offset, rs);
    found := ReadsRecord(buf, offset, rs[0]);
  }

  lemma FirstRecord(buf: seq<Byte>, offset: nat, rs: seq<Record>) returns (next: nat)
    requires rs != [] && At(buf, offset, AllRecords(rs))
    ensures At(buf, offset, RecordBytes(rs[0])) && next == offset + |RecordBytes(rs[0])|
    ensures At(buf, next, AllRecords(rs[1..]))
  {
    AtSplit(buf, offset, RecordBytes(rs[0]), AllRecords(rs[1..]));
    next := offset + |RecordBytes(rs[0])|;
  }

  lemma ReadsRecord(buf: seq<Byte>, offset: nat, r: Record) returns (found: seq<seq<Byte>>)
    requires WellFormedRecord(r) && At(buf, offset, RecordBytes(r)) && offset + 12 <= |buf|
    ensures found == OwnAddress(r)
    ensures FoundAt(buf, offset) == found && NextAt(buf, offset) == Some(offset + |RecordBytes(r)|)
  {
    found := OwnAddress(r);
    AtSplit(buf, offset, OwnerBytes(r.owner), FixedBytes(r) + r.rdata);
    ReadsOwner(buf, offset, r.owner);
    var o := offset + |OwnerBytes(r.owner)|;
    ReadsFixed(buf, o, r);
    AtSlice(buf, o + 10, r.rdata);
  }

  lemma BodyReadsBack(buf: seq<Byte>, qs: seq<Asked>, rs: seq<Record>, tail: seq<Byte>)
    requires WellFormedQuestions(qs) && WellFormedRecords(rs)
    requires At(buf, 12, AllAsked(qs) + (AllRecords(rs) + tail))
    ensures AnswersFrom(buf, AfterQuestions(buf, 12, |qs|), |rs|, []) == Addresses(rs)
  {
    ReadsQuestions(buf, 12, qs, AllRecords(rs) + tail);
    var o := AfterQuestions(buf, 12, |qs|);
    AtSplit(buf, o, AllRecords(rs), tail);
    ReadsAnswers(buf, o, rs, []);
    assert [] + Addresses(rs) == Addresses(rs);
  }

  /** The round trip: the code and exactly the A addresses, in order, of every well-formed response. */
  lemma ResponseReadsBack(m: Message)
    requires WellFormed(m)
    ensures ReplyOf(MessageBytes(m)) == Reply(m.rcode, AllShown(Addresses(m.answers)))
  {
    HeaderReadsBack(MessageBytes(m), m);
    BodyReadsBack(MessageBytes(m), m.asked, m.answers, m.tail);
  }

  /** The text spells the four bytes of an address in order, in decimal, between dots. */
  predicate Spells(text: string, quad: seq<Byte>) {
    var parts := Split(text, '.');
    |quad| == 4 && |parts| == 4
    && forall k :: 0 <= k < 4 ==> AllDigits(parts[k]) && ParseDec(parts[k]) == quad[k] && parts[k] == Dec(quad[k])
  }

  lemma ShownSpells(quad: seq<Byte>)
    requires |quad| == 4
    ensures Spells(Shown(quad), quad)
  {
    forall k | 0 <= k < 4 ensures '.' !in Dec(quad[k]) && ParseDec(Dec(quad[k])) == quad[k] {
      NoDot(quad[k]);
      ParseDecOfDec(quad[k]);
    }
    QuadSplits(Dec(quad[0]), Dec(quad[1]), Dec(quad[2]), Dec(quad[3]));
  }

  lemma {:induction false} AllShownSpell(quads: seq<seq<Byte>>)
    requires forall i :: 0 <= i < |quads| ==> |quads[i]| == 4
    ensures |AllShown(quads)| == |quads| && forall i :: 0 <= i < |quads| ==> Spells(AllShown(quads)[i], quads[i])
  {
    if quads != [] {
      AllShownSpell(quads[..|quads| - 1]);
      ShownSpells(quads[|quads| - 1]);
    }
  }

  /** The positions are those of the A records with four bytes, in order, and the quads are their data. */
  ghost predicate Lists(rs: seq<Record>, at: seq<nat>, quads: seq<seq<Byte>>) {
    && |at| == |quads|
    && (forall i :: 0 <= i < |at| ==>
          at[i] < |rs| && rs[at[i]].rtype == 1 && |rs[at[i]].rdata| == 4 && quads[i] == rs[at[i]].rdata)
    && (forall i, j :: 0 <= i < j < |at| ==> at[i] < at[j])
    && (forall n :: 0 <= n < |rs| && rs[n].rtype == 1 && |rs[n].rdata| == 4 ==> n in at)
  }

  function Later(at: seq<nat>): (r: seq<nat>)
    ensures |r| == |at| && forall i :: 0 <= i < |at| ==> r[i] == at[i] + 1
  {
    if at == [] then [] else [at[0] + 1] + Later(at[1..])
  }

  lemma {:induction false} AddressesListed(rs: seq<Record>) returns (at: seq<nat>)
    ensures Lists(rs, at, Addresses(rs))
  {
    if rs == [] {
      at := [];
    } else {
      var rest := AddressesListed(rs[1..]);
      LaterLists(rs, rest, Addresses(rs[1..]));
      at := WithFirst(rs, Later(rest), Addresses(rs[1..]));
    }
  }

  lemma WithFirst(rs: seq<Record>, later: seq<nat>, quads: seq<seq<Byte>>) returns (at: seq<nat>)
    requires rs != [] && ListsAfterFirst(rs, later, quads)
    ensures Lists(rs, at, OwnAddress(rs[0]) + quads)
  {
    if rs[0].rtype == 1 && |rs[0].rdata| == 4 {
      at := [0] + later;
      FirstLists(rs, later, quads);
    } else {
      at := later;
      NoFirstLists(rs, later, quads);
      assert [] + quads == quads;
    }
  }

  lemma NoFirstLists(rs: seq<Record>, at: seq<nat>, quads: seq<seq<Byte>>)
    requires rs != [] && ListsAfterFirst(rs, at, quads) && !(rs[0].rtype == 1 && |rs[0].rdata| == 4)
    ensures Lists(rs, at, quads)
  {
  }

  /** The positions in the whole section of what the records after the first one list. */
  ghost predicate ListsAfterFirst(rs: seq<Record>, at: seq<nat>, quads: seq<seq<Byte>>) {
    && |at| == |quads|
    && (forall i :: 0 <= i < |at| ==>
          0 < at[i] < |rs| && rs[at[i]].rtype == 1 && |rs[at[i]].rdata| == 4 && quads[i] == rs[at[i]].rdata)
    && (forall i, j :: 0 <= i < j < |at| ==> at[i] < at[j])
    && (forall n :: 1 <= n < |rs| && rs[n].rtype == 1 && |rs[n].rdata| == 4 ==> n in at)
  }

  lemma LaterLists(rs: seq<Record>, rest: seq<nat>, quads: seq<seq<Byte>>)
    requires rs != [] && Lists(rs[1..], rest, quads)
    ensures ListsAfterFirst(rs, Later(rest), quads)
  {
    var at, tail := Later(rest), rs[1..];
    forall i | 0 <= i < |at|
      ensures 0 < at[i] < |rs| && rs[at[i]].rtype == 1 && |rs[at[i]].rdata| == 4 && quads[i] == rs[at[i]].rdata
    {
      assert tail[rest[i]] == rs[at[i]];
    }
    forall n | 1 <= n < |rs| && rs[n].rtype == 1 && |rs[n].rdata| == 4 ensures n in at {
      assert tail[n - 1] == rs[n] && n - 1 in rest;
      var i :| 0 <= i < |rest| && rest[i] == n - 1;
      assert at[i] == n;
    }
  }

  lemma FirstLists(rs: seq<Record>, at: seq<nat>, quads: seq<seq<Byte>>)
    requires rs != [] && ListsAfterFirst(rs, at, quads) && OwnAddress(rs[0]) == [rs[0].rdata]
    requires rs[0].rtype == 1 && |rs[0].rdata| == 4
    ensures Lists(rs, [0] + at, [rs[0].rdata] + quads)
  {
    var all := [0] + at;
    assert forall i :: 1 <= i < |all| ==> all[i] == at[i - 1];
    forall n | 0 <= n < |rs| && rs[n].rtype == 1 && |rs[n].rdata| == 4 ensures n in all {
      if n == 0 { assert all[0] == 0; } else { assert n in at; }
    }
  }

  /**
   * What the answers say: on every well-formed response there is one for each A record of four bytes, in order, and it
   * spells that record's data.
   */
  lemma AnswersSpell(m: Message) returns (at: seq<nat>)
    requires WellFormed(m)
    ensures var texts := ReplyOf(MessageBytes(m)).answers;
      && |texts| == |at| && (forall i, j :: 0 <= i < j < |at| ==> at[i] < at[j])
      && (forall i :: 0 <= i < |at| ==> at[i] < |m.answers| && Spells(texts[i], m.answers[at[i]].rdata))
      && (forall n :: 0 <= n < |m.answers| ==>
            (n in at <==> m.answers[n].rtype == 1 && |m.answers[n].rdata| == 4))
  {
    ResponseReadsBack(m);
    at := AddressesListed(m.answers);
    AllShownSpell(Addresses(m.answers));
  }

  lemma HeaderReadsBack(buf: seq<Byte>, m: Message)
    requires WellFormed(m) && buf == MessageBytes(m)
    ensures |buf| >= 12 && buf[3] % 16 == m.rcode && U16At(buf, 4) == |m.asked| && U16At(buf, 6) == |m.answers|
    ensures At(buf, 12, AllAsked(m.asked) + (AllRecords(m.answers) + m.tail))
  {
    var rest := AllAsked(m.asked) + (AllRecords(m.answers) + m.tail);
    Whole(buf, HeaderBytes(m), rest);
    HeaderFields(buf, m);
  }

  lemma Whole(buf: seq<Byte>, h: seq<Byte>, rest: seq<Byte>)
    requires buf == h + rest
    ensures At(buf, 0, h) && At(buf, |h|, rest)
  {
    assert buf[0..|buf|] == h + rest;
    AtSplit(buf, 0, h, rest);
  }

  lemma RcodeOf(high: nat, rcode: nat)
    requires rcode < 16
    ensures FlagByte(high, rcode) % 16 == rcode
  {
  }

  lemma HeaderFields(buf: seq<Byte>, m: Message)
    requires WellFormed(m) && At(buf, 0, HeaderBytes(m))
    ensures buf[3] % 16 == m.rcode && U16At(buf, 4) == |m.asked| && U16At(buf, 6) == |m.answers|
  {
    HeaderLayout(buf, U16(m.id), m.flags, FlagByte(m.high, m.rcode), |m.asked|, |m.answers|, m.counts);
    RcodeOf(m.high, m.rcode);
  }

  lemma HeaderLayout(buf: seq<Byte>, id: seq<Byte>, flags: Byte, last: Byte, asked: nat, answers: nat,
                     counts: seq<Byte>)
    requires |id| == 2 && asked < 65536 && answers < 65536
    requires At(buf, 0, id + [flags, last] + U16(asked) + U16(answers) + counts)
    ensures |buf| >= 8 && buf[3] == last && U16At(buf, 4) == asked && U16At(buf, 6) == answers
  {
    var a, b, c := id + [flags, last], U16(asked), U16(answers);
    AtSplit(buf, 0, a + b + c, counts);
    AtSplit(buf, 0, a + b, c);
    AtSplit(buf, 0, a, b);
    AtIndex(buf, 0, a, 3);
    U16Here(buf, 4, asked);
    U16Here(buf, 6, answers);
  }

  // ----- TCP framing -----

  /** The framed message a byte stream begins with, if all of it is there. */
  function Framed(stream: seq<Byte>): Option<seq<Byte>> {
    if |stream| < 2 || |stream| < U16At(stream, 0) + 2 then None
    else Some(stream[2..U16At(stream, 0) + 2])
  }

  function Concatenated(chunks: seq<seq<Byte>>): seq<Byte> {
    if chunks == [] then [] else Concatenated(chunks[..|chunks| - 1]) + chunks[|chunks| - 1]
  }

  /** What has arrived decides as soon as it is complete. */
  lemma FramedIsStable(a: seq<Byte>, b: seq<Byte>)
    requires Framed(a).Some?
    ensures Framed(a + b) == Framed(a)
  {
    assert (a + b)[0] == a[0] && (a + b)[1] == a[1];
    var n := U16At(a, 0) + 2;
    assert (a + b)[2..n] == a[2..n];
  }

  lemma {:induction false} LaterChunks(chunks: seq<seq<Byte>>, k: nat)
    requires k <= |chunks| && Framed(Concatenated(chunks[..k])).Some?
    ensures Framed(Concatenated(chunks)) == Framed(Concatenated(chunks[..k]))
  {
    var n := |chunks|;
    if k == n {
      assert chunks[..k] == chunks;
    } else {
      assert chunks[..n - 1][..k] == chunks[..k];
      LaterChunks(chunks[..n - 1], k);
      FramedIsStable(Concatenated(chunks[..n - 1]), chunks[n - 1]);
    }
  }

  /** The reassembly loop of `tcpDnsQuery`: the result depends on the bytes alone, not on how they were chunked. */
  method Reassemble(chunks: seq<seq<Byte>>) returns (r: Option<seq<Byte>>)
    ensures r == Framed(Concatenated(chunks))
  {
    var buffer: seq<Byte> := [];
    var k := 0;
    while k < |chunks|
      invariant 0 <= k <= |chunks| && buffer == Concatenated(chunks[..k]) && Framed(buffer).None?
    {
      assert chunks[..k + 1][..k] == chunks[..k];
      buffer := buffer + chunks[k];
      k := k + 1;
      if |buffer| >= 2 {
        var expected := U16At(buffer, 0);
        if |buffer| >= expected + 2 {
          LaterChunks(chunks, k);
          return Some(buffer[2..expected + 2]);
        }
      }
    }
    assert chunks[..|chunks|] == chunks;
    r := None;
  }

  /** The sender's length prefix. */
  function Frame(wire: seq<Byte>): seq<Byte> {
    U16(|wire|) + wire
  }

  /** A framed message is recovered whole, whatever follows it, exactly when its length fits the prefix. */
  lemma FrameRoundTrip(wire: seq<Byte>, more: seq<Byte>)
    ensures Framed(Frame(wire) + more) == Some(wire) <==> |wire| < 65536
  {
    var s := Frame(wire) + more;
    assert s[0..|s|] == U16(|wire|) + (wire + more);
    AtSplit(s, 0, U16(|wire|), wire + more);
    U16Here(s, 0, |wire|);
    if |wire| < 65536 {
      AtSplit(s, 2, wire, more);
      AtSlice(s, 2, wire);
    }
  }
}

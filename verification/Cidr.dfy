/**
 * The scan-range generator.  `RangeOf` says in plain arithmetic which block an accepted text names;
 * `ParseCidr` computes it the way the source does, through JavaScript's signed 32-bit operators.
 */
module Cidr {
  import opened Options
  import opened Numbers
  import opened Text
  import opened Js

  const MIN_PREFIX := 24

  datatype Match = Match(a: nat, b: nat, c: nat, d: nat, prefix: nat)

  datatype Range = Range(cidr: string, ips: seq<string>)

  predicate NumberText(s: string, max: nat) {
    1 <= |s| <= max && AllDigits(s)
  }

  /** The regular expression `d{1,3}.d{1,3}.d{1,3}.d{1,3}(/d{1,2})?` over the whole text. */
  function MatchText(raw: string): Option<Match> {
    var parts := Split(raw, '.');
    if |parts| != 4 then None
    else
      var tail := Split(parts[3], '/');
      if |tail| > 2 then None
      else MatchParts(parts[0], parts[1], parts[2], tail[0], if |tail| == 1 then None else Some(tail[1]))
  }

  /** Four numbers, and perhaps a prefix length. */
  function MatchParts(a: string, b: string, c: string, d: string, p: Option<string>): Option<Match> {
    if NumberText(a, 3) && NumberText(b, 3) && NumberText(c, 3) && NumberText(d, 3)
       && (p.Some? ==> NumberText(p.value, 2))
    then Some(Match(ParseDec(a), ParseDec(b), ParseDec(c), ParseDec(d), if p.None? then 32 else ParseDec(p.value)))
    else None
  }

  predicate Accepted(m: Match) {
    m.a <= 255 && m.b <= 255 && m.c <= 255 && m.d <= 255 && MIN_PREFIX <= m.prefix <= 32
  }

  // ----- what a range is -----

  function Value(m: Match): nat {
    m.a * 0x100_0000 + m.b * 0x1_0000 + m.c * 0x100 + m.d
  }

  /** 2^(32 - prefix), for the accepted prefixes. */
  function Size(prefix: nat): (n: nat)
    ensures 1 <= n <= 256
  {
    match prefix
    case 24 => 256 case 25 => 128 case 26 => 64 case 27 => 32 case 28 => 16
    case 29 => 8 case 30 => 4 case 31 => 2 case _ => 1
  }

  function Start(m: Match): nat {
    RoundDown(Value(m), Size(m.prefix))
  }

  function QuadText(a: string, b: string, c: string, d: string): string {
    a + "." + b + "." + c + "." + d
  }

  function Dotted(v: nat): string {
    QuadText(Dec(v / 0x100_0000 % 256), Dec(v / 0x1_0000 % 256), Dec(v / 0x100 % 256), Dec(v % 256))
  }

  /** The addresses start, start + 1, ... as text. */
  function Block(start: nat, count: nat): (ips: seq<string>)
    ensures |ips| == count
  {
    if count == 0 then [] else Block(start, count - 1) + [Dotted(start + count - 1)]
  }

  function RangeOf(m: Match): Range {
    Range(Dotted(Start(m)) + "/" + Dec(m.prefix), Block(Start(m), Size(m.prefix)))
  }

  function CidrOf(input: string): Option<Range> {
    var found := MatchText(Trim(input));
    if found.None? || !Accepted(found.value) then None else Some(RangeOf(found.value))
  }

  // ----- the source's computation -----

  method ParseCidr(input: string) returns (r: Option<Range>)
    ensures r == CidrOf(input)
  {
    var found := MatchText(Trim(input));
    if found.None? { return None; }
    var m := found.value;
    CidrOfMatched(input, m);
    if m.a > 255 || m.b > 255 || m.c > 255 || m.d > 255 || m.prefix < MIN_PREFIX || m.prefix > 32 { return None; }
    var aligned := AlignedBase(m);
    var count := Pow2(32 - m.prefix);
    SizeIsPower(m.prefix);
    BlockInSpace(m);
    var ips := ListAddresses(aligned, Start(m), count);
    FirstOfBlock(Start(m), count);
    r := Some(Range(ips[0] + "/" + Dec(m.prefix), ips));
  }

  method AlignedBase(m: Match) returns (aligned: int)
    requires Accepted(m)
    ensures ToUint32(aligned) == Start(m)
  {
    var base := Or(Or(Or(Shl(m.a, 24), Shl(m.b, 16)), Shl(m.c, 8)), m.d);
    aligned := Shl(UShr(base, 32 - m.prefix), 32 - m.prefix);
    BaseValue(m.a, m.b, m.c, m.d);
    SizeIsPower(m.prefix);
    AlignedValue(base, Value(m), 32 - m.prefix, Size(m.prefix));
  }

  method ListAddresses(aligned: int, ghost start: nat, count: nat) returns (ips: seq<string>)
    requires ToUint32(aligned) == start && start + count <= B32
    ensures ips == Block(start, count)
  {
    ips := [];
    var index := 0;
    while index < count
      invariant 0 <= index <= count
      invariant ips == Block(start, index)
    {
      CountUp(aligned, start, index);
      var text := AddressText(ToUint32(aligned + index));
      ips := ips + [text];
      index := index + 1;
    }
  }

  method AddressText(value: nat) returns (text: string)
    requires value < B32
    ensures text == Dotted(value)
  {
    var a := ByteAt(value, 24);
    var b := ByteAt(value, 16);
    var c := ByteAt(value, 8);
    var d := ByteAt(value, 0);
    text := QuadText(Dec(a), Dec(b), Dec(c), Dec(d));
  }

  method ByteAt(value: nat, k: nat) returns (o: nat)
    requires value < B32 && k in {0, 8, 16, 24}
    ensures o == if k == 24 then value / 0x100_0000 % 256 else if k == 16 then value / 0x1_0000 % 256
                 else if k == 8 then value / 0x100 % 256 else value % 256
  {
    if k == 24 { Byte24(value); }
    else if k == 16 { Byte16(value); }
    else if k == 8 { Byte8(value); }
    else { Byte0(value); }
    o := And(UShr(value, k), 255);
  }

  // ----- the 32-bit arithmetic -----

  lemma UShrValue(v: nat, k: nat, p: nat)
    requires v < B32 && p == Pow2(k)
    ensures UShr(v, k) == v / p
  {
  }

  lemma Byte24(v: nat)
    requires v < B32
    ensures And(UShr(v, 24), 255) == v / 0x100_0000 % 256
  {
    assert UShr(v, 24) == v / 0x100_0000 by {
      Pow2Values();
      UShrValue(v, 24, 0x100_0000);
    }
    ByteMaskOf(UShr(v, 24), v / 0x100_0000);
  }

  lemma Byte16(v: nat)
    requires v < B32
    ensures And(UShr(v, 16), 255) == v / 0x1_0000 % 256
  {
    assert UShr(v, 16) == v / 0x1_0000 by {
      Pow2Values();
      UShrValue(v, 16, 0x1_0000);
    }
    ByteMaskOf(UShr(v, 16), v / 0x1_0000);
  }

  lemma Byte8(v: nat)
    requires v < B32
    ensures And(UShr(v, 8), 255) == v / 0x100 % 256
  {
    assert UShr(v, 8) == v / 0x100 by {
      Pow2Values();
      UShrValue(v, 8, 0x100);
    }
    ByteMaskOf(UShr(v, 8), v / 0x100);
  }

  lemma Byte0(v: nat)
    requires v < B32
    ensures And(UShr(v, 0), 255) == v % 256
  {
    assert UShr(v, 0) == v by { UShrValue(v, 0, 1); }
    ByteMaskOf(UShr(v, 0), v);
  }

  lemma BaseValue(a: nat, b: nat, c: nat, d: nat)
    requires a < 256 && b < 256 && c < 256 && d < 256
    ensures ToUint32(Or(Or(Or(Shl(a, 24), Shl(b, 16)), Shl(c, 8)), d))
         == a * 0x100_0000 + b * 0x1_0000 + c * 0x100 + d < B32
  {
    Pow2Values();
    ShiftFits(a, 24, 0x100_0000);
    ShiftFits(b, 16, 0x1_0000);
    ShiftFits(c, 8, 0x100);
    var x, y, z := Shl(a, 24), Shl(b, 16), Shl(c, 8);
    OrThree(a, b, c, d, x, y, z);
  }

  lemma OrThree(a: nat, b: nat, c: nat, d: nat, x: int, y: int, z: int)
    requires a < 256 && b < 256 && c < 256 && d < 256
    requires ToUint32(x) == a * 0x100_0000 && ToUint32(y) == b * 0x1_0000 && ToUint32(z) == c * 0x100
    ensures ToUint32(Or(Or(Or(x, y), z), d)) == a * 0x100_0000 + b * 0x1_0000 + c * 0x100 + d
  {
    OrSecond(x, y, a, b);
    OrThird(Or(x, y), z, a * 0x100 + b, c);
    OrFourth(Or(Or(x, y), z), d, a * 0x1_0000 + b * 0x100 + c);
  }

  lemma OrSecond(x: int, y: int, a: nat, b: nat)
    requires a < 256 && b < 256 && ToUint32(x) == a * 0x100_0000 && ToUint32(y) == b * 0x1_0000
    ensures ToUint32(Or(x, y)) == (a * 0x100 + b) * 0x1_0000
  {
    Pow2Values();
    OrAdds(x, y, a * 0x100_0000, b * 0x1_0000, 24, 0x100_0000, a);
  }

  lemma OrThird(x: int, y: int, q: nat, c: nat)
    requires q < 0x1_0000 && c < 256 && ToUint32(x) == q * 0x1_0000 && ToUint32(y) == c * 0x100
    ensures ToUint32(Or(x, y)) == (q * 0x100 + c) * 0x100
  {
    Pow2Values();
    OrAdds(x, y, q * 0x1_0000, c * 0x100, 16, 0x1_0000, q);
  }

  lemma OrFourth(x: int, d: nat, q: nat)
    requires q < 0x100_0000 && d < 256 && ToUint32(x) == q * 0x100
    ensures ToUint32(Or(x, d)) == q * 0x100 + d
  {
    Pow2Values();
    OrAdds(x, d, q * 0x100, d, 8, 0x100, q);
  }

  lemma SizeIsPower(prefix: nat)
    requires MIN_PREFIX <= prefix <= 32
    ensures Pow2(32 - prefix) == Size(prefix)
  {
    assert Pow2(3) == 8 && Pow2(4) == 16;
    assert Pow2(5) == 32 && Pow2(6) == 64;
    assert Pow2(7) == 128 && Pow2(8) == 256;
  }

  lemma AlignedValue(base: int, n: nat, k: nat, p: nat)
    requires ToUint32(base) == n && p == Pow2(k)
    ensures ToUint32(Shl(UShr(base, k), k)) == RoundDown(n, p)
  {
    var q := UShr(base, k);
    assert q * p == RoundDown(n, p);
    ShiftFits(q, k, p);
  }

  /** No wrap-around: counting up from a signed start inside 32 bits gives consecutive addresses. */
  lemma CountUp(aligned: int, start: nat, i: nat)
    requires ToUint32(aligned) == start && start + i < B32
    ensures ToUint32(aligned + i) == start + i
  {
    DivModUnique(aligned + i, B32, aligned / B32, start + i);
  }

  lemma BlockInSpace(m: Match)
    requires Accepted(m)
    ensures Start(m) <= Value(m) < Start(m) + Size(m.prefix) <= B32 && Start(m) % Size(m.prefix) == 0
    ensures RoundDown(Start(m), Size(m.prefix)) == Start(m)
  {
    var p := Size(m.prefix);
    var top := B32 / p;
    assert top * p == B32;
    assert Value(m) < B32;
    RoundDownFits(Value(m), p, top);
  }

  // ----- the text -----

  lemma {:induction false} BlockAt(start: nat, count: nat, i: nat)
    requires i < count
    ensures Block(start, count)[i] == Dotted(start + i)
  {
    if i < count - 1 { BlockAt(start, count - 1, i); }
  }

  lemma FirstOfBlock(start: nat, count: nat)
    requires count > 0
    ensures Block(start, count)[0] == Dotted(start)
  {
    BlockAt(start, count, 0);
  }

  lemma DigitsHaveNo(s: string, c: char)
    requires AllDigits(s) && !IsDigit(c)
    ensures c !in s
  {
  }

  lemma QuadSplits(a: string, b: string, c: string, d: string)
    requires '.' !in a && '.' !in b && '.' !in c && '.' !in d
    ensures Split(QuadText(a, b, c, d), '.') == [a, b, c, d]
  {
    assert QuadText(a, b, c, d) == a + ['.'] + (b + ['.'] + (c + ['.'] + d));
    SplitFirst(a, b + ['.'] + (c + ['.'] + d), '.');
    SplitFirst(b, c + ['.'] + d, '.');
    SplitFirst(c, d, '.');
    SplitPlain(d, '.');
  }

  lemma NoDot(n: nat)
    ensures '.' !in Dec(n)
  {
  }

  lemma DecInjective(m: nat, n: nat)
    requires Dec(m) == Dec(n)
    ensures m == n
  {
    ParseDecOfDec(m);
    ParseDecOfDec(n);
  }

  function Numerals(v: nat): seq<string> {
    [Dec(v / 0x100_0000 % 256), Dec(v / 0x1_0000 % 256), Dec(v / 0x100 % 256), Dec(v % 256)]
  }

  lemma DottedSplits(v: nat)
    ensures Split(Dotted(v), '.') == Numerals(v)
  {
    NoDot(v / 0x100_0000 % 256);
    NoDot(v / 0x1_0000 % 256);
    NoDot(v / 0x100 % 256);
    NoDot(v % 256);
    QuadSplits(Dec(v / 0x100_0000 % 256), Dec(v / 0x1_0000 % 256), Dec(v / 0x100 % 256), Dec(v % 256));
  }

  lemma NumeralsInjective(v: nat, w: nat)
    requires v < B32 && w < B32
    requires Numerals(v)[0] == Numerals(w)[0] && Numerals(v)[1] == Numerals(w)[1]
    requires Numerals(v)[2] == Numerals(w)[2] && Numerals(v)[3] == Numerals(w)[3]
    ensures v == w
  {
    DecInjective(v / 0x100_0000 % 256, w / 0x100_0000 % 256);
    DecInjective(v / 0x1_0000 % 256, w / 0x1_0000 % 256);
    DecInjective(v / 0x100 % 256, w / 0x100 % 256);
    DecInjective(v % 256, w % 256);
    Base256(v);
    Base256(w);
  }

  lemma DottedInjective(v: nat, w: nat)
    requires v < B32 && w < B32 && Dotted(v) == Dotted(w)
    ensures v == w
  {
    DottedSplits(v);
    DottedSplits(w);
    NumeralsInjective(v, w);
  }

  // ----- main results -----

  /** `ips` are the `count` addresses from `start` on, in order and all different. */
  ghost predicate Consecutive(ips: seq<string>, start: nat, count: nat) {
    && |ips| == count
    && (forall i :: 0 <= i < count ==> ips[i] == Dotted(start + i))
    && (forall i, j :: 0 <= i < j < count ==> ips[i] != ips[j])
  }

  lemma BlockIsConsecutive(start: nat, count: nat)
    requires start + count <= B32
    ensures Consecutive(Block(start, count), start, count)
  {
    var ips := Block(start, count);
    forall i | 0 <= i < count ensures ips[i] == Dotted(start + i) { BlockAt(start, count, i); }
    forall i, j | 0 <= i < j < count ensures ips[i] != ips[j] { BlockDiffers(start, count, i, j); }
  }

  lemma BlockDiffers(start: nat, count: nat, i: nat, j: nat)
    requires i < j < count && start + count <= B32
    ensures Block(start, count)[i] != Block(start, count)[j]
  {
    BlockAt(start, count, i);
    BlockAt(start, count, j);
    if Block(start, count)[i] == Block(start, count)[j] { DottedInjective(start + i, start + j); }
  }

  lemma CidrOfMatched(input: string, m: Match)
    requires MatchText(Trim(input)) == Some(m)
    ensures CidrOf(input) == if Accepted(m) then Some(RangeOf(m)) else None
  {
  }

  lemma RangeIsAlignedBlock(m: Match)
    requires Accepted(m)
    ensures var count := Pow2(32 - m.prefix);
      && Start(m) <= Value(m) < Start(m) + count <= B32 && Start(m) % count == 0
      && Consecutive(RangeOf(m).ips, Start(m), count)
  {
    SizeIsPower(m.prefix);
    BlockInSpace(m);
    BlockIsConsecutive(Start(m), Size(m.prefix));
  }

  /**
   * Every accepted input yields exactly the aligned block around its address: consecutive, inside the
   * address space, and all different.
   */
  lemma CidrIsAlignedBlock(input: string)
    requires CidrOf(input).Some?
    ensures var m := MatchText(Trim(input)).value;
      var count := Pow2(32 - m.prefix);
      && Start(m) <= Value(m) < Start(m) + count <= B32 && Start(m) % count == 0
      && Consecutive(CidrOf(input).value.ips, Start(m), count)
  {
    var m := MatchText(Trim(input)).value;
    CidrOfMatched(input, m);
    RangeIsAlignedBlock(m);
  }

  lemma CanonicalTrimmed(a: string, b: string, c: string, last: string)
    requires a != [] && AllDigits(a) && last != [] && IsDigit(last[|last| - 1])
    ensures Trim(QuadText(a, b, c, last)) == QuadText(a, b, c, last)
  {
    var text := QuadText(a, b, c, last);
    assert text[0] == a[0] && text[|text| - 1] == last[|last| - 1];
    TrimOfTrimmed(text);
  }

  /** The range's own text matches as its first address, which starts the same range. */
  lemma RangeReparses(m: Match) returns (m': Match)
    requires Accepted(m)
    ensures MatchText(Trim(RangeOf(m).cidr)) == Some(m') && Accepted(m') && RangeOf(m') == RangeOf(m)
  {
    BlockInSpace(m);
    var v := Start(m);
    var a, b, c, d := v / 0x100_0000 % 256, v / 0x1_0000 % 256, v / 0x100 % 256, v % 256;
    PrefixedText(a, b, c, d, m.prefix);
    Base256(v);
    m' := Match(a, b, c, d, m.prefix);
    assert Value(m') == v;
    assert Start(m') == Start(m);
  }

  /** Parsing the stored text gives back the same range, so a stored cursor keeps its meaning. */
  lemma ReparseIsIdentity(input: string)
    requires CidrOf(input).Some?
    ensures CidrOf(CidrOf(input).value.cidr) == CidrOf(input)
  {
    var m := MatchText(Trim(input)).value;
    CidrOfMatched(input, m);
    var m' := RangeReparses(m);
    CidrOfMatched(RangeOf(m).cidr, m');
  }

  // ----- which texts are accepted -----

  /** Four runs of digits match exactly if none has more than three, and a prefix length if it has no more than two. */
  lemma DigitsMatch(a: string, b: string, c: string, d: string)
    requires AllDigits(a) && AllDigits(b) && AllDigits(c) && AllDigits(d) && a != [] && b != [] && c != [] && d != []
    ensures MatchText(QuadText(a, b, c, d))
         == if |a| <= 3 && |b| <= 3 && |c| <= 3 && |d| <= 3
            then Some(Match(ParseDec(a), ParseDec(b), ParseDec(c), ParseDec(d), 32)) else None
  {
    NoMarks(a); NoMarks(b); NoMarks(c); NoMarks(d);
    QuadSplits(a, b, c, d);
    SplitPlain(d, '/');
  }

  lemma DigitsMatchPrefix(a: string, b: string, c: string, d: string, p: string, last: string)
    requires AllDigits(a) && AllDigits(b) && AllDigits(c) && AllDigits(d) && AllDigits(p)
    requires a != [] && b != [] && c != [] && d != [] && p != [] && last == d + ['/'] + p
    ensures MatchText(QuadText(a, b, c, last)).Some?
       <==> |a| <= 3 && |b| <= 3 && |c| <= 3 && |d| <= 3 && |p| <= 2
  {
    PrefixParts(a, b, c, d, p, last);
    PartsFit(a, b, c, d, p);
  }

  lemma PrefixParts(a: string, b: string, c: string, d: string, p: string, last: string)
    requires AllDigits(a) && AllDigits(b) && AllDigits(c) && AllDigits(d) && AllDigits(p)
    requires last == d + ['/'] + p
    ensures MatchText(QuadText(a, b, c, last)) == MatchParts(a, b, c, d, Some(p))
  {
    NoMarks(a); NoMarks(b); NoMarks(c);
    PrefixSplits(d, p);
    assert '.' !in last;
    QuadSplits(a, b, c, last);
    PartsMatch(QuadText(a, b, c, last), a, b, c, last, d, p);
  }

  lemma PrefixSplits(d: string, p: string)
    requires AllDigits(d) && AllDigits(p)
    ensures Split(d + ['/'] + p, '/') == [d, p] && '.' !in d + ['/'] + p
  {
    NoMarks(d); NoMarks(p);
    SplitFirst(d, p, '/');
    SplitPlain(p, '/');
  }

  lemma PartsMatch(raw: string, a: string, b: string, c: string, last: string, d: string, p: string)
    requires Split(raw, '.') == [a, b, c, last] && Split(last, '/') == [d, p]
    ensures MatchText(raw) == MatchParts(a, b, c, d, Some(p))
  {
  }

  lemma PartsFit(a: string, b: string, c: string, d: string, p: string)
    requires AllDigits(a) && AllDigits(b) && AllDigits(c) && AllDigits(d) && AllDigits(p)
    requires a != [] && b != [] && c != [] && d != [] && p != []
    ensures MatchParts(a, b, c, d, Some(p)).Some?
       <==> |a| <= 3 && |b| <= 3 && |c| <= 3 && |d| <= 3 && |p| <= 2
  {
  }

  lemma NoMarks(s: string)
    requires AllDigits(s)
    ensures '.' !in s && '/' !in s
  {
  }

  /** Four numbers of at most three digits and no prefix length. */
  lemma BareText(a: nat, b: nat, c: nat, d: nat)
    requires a < 1000 && b < 1000 && c < 1000 && d < 1000
    ensures var text := QuadText(Dec(a), Dec(b), Dec(c), Dec(d));
      Trim(text) == text && MatchText(text) == Some(Match(a, b, c, d, 32))
  {
    ShortNumeral(a); ShortNumeral(b); ShortNumeral(c); ShortNumeral(d);
    CanonicalTrimmed(Dec(a), Dec(b), Dec(c), Dec(d));
    DigitsMatch(Dec(a), Dec(b), Dec(c), Dec(d));
  }

  lemma ShortNumeral(n: nat)
    requires n < 1000
    ensures |Dec(n)| <= 3 && (n < 100 ==> |Dec(n)| <= 2) && ParseDec(Dec(n)) == n
  {
    ParseDecOfDec(n);
    DecLength(n);
  }

  lemma PrefixedText(a: nat, b: nat, c: nat, d: nat, prefix: nat)
    requires a < 1000 && b < 1000 && c < 1000 && d < 1000 && prefix < 100
    ensures var text := QuadText(Dec(a), Dec(b), Dec(c), Dec(d)) + "/" + Dec(prefix);
      Trim(text) == text && MatchText(text) == Some(Match(a, b, c, d, prefix))
  {
    ShortNumeral(a); ShortNumeral(b); ShortNumeral(c); ShortNumeral(d); ShortNumeral(prefix);
    var last := Dec(d) + ['/'] + Dec(prefix);
    var text := QuadText(Dec(a), Dec(b), Dec(c), Dec(d)) + "/" + Dec(prefix);
    assert text == QuadText(Dec(a), Dec(b), Dec(c), last);
    CanonicalTrimmed(Dec(a), Dec(b), Dec(c), last);
    PrefixParts(Dec(a), Dec(b), Dec(c), Dec(d), Dec(prefix), last);
  }

  /** 2^(32 - prefix) addresses, the given one among them. */
  predicate NamesBlock(ips: seq<string>, text: string, prefix: nat) {
    prefix <= 32 && |ips| == Pow2(32 - prefix) && text in ips
  }

  /** A bare address is accepted exactly if its numbers are octets, and names itself alone. */
  lemma BareAddress(a: nat, b: nat, c: nat, d: nat, text: string)
    requires a < 1000 && b < 1000 && c < 1000 && d < 1000
    requires text == QuadText(Dec(a), Dec(b), Dec(c), Dec(d))
    ensures CidrOf(text)
         == if a <= 255 && b <= 255 && c <= 255 && d <= 255 then Some(Range(text + "/" + Dec(32), [text])) else None
  {
    BareText(a, b, c, d);
    BareRange(text, Match(a, b, c, d, 32));
  }

  lemma BareRange(text: string, m: Match)
    requires MatchText(Trim(text)) == Some(m) && m.prefix == 32
    requires text == QuadText(Dec(m.a), Dec(m.b), Dec(m.c), Dec(m.d))
    ensures CidrOf(text) == if m.a <= 255 && m.b <= 255 && m.c <= 255 && m.d <= 255
                            then Some(Range(text + "/" + Dec(32), [text])) else None
  {
    CidrOfMatched(text, m);
    if Accepted(m) {
      OneAddress(m);
      ValueDigits(m);
    }
  }

  lemma OneAddress(m: Match)
    requires m.prefix == 32
    ensures RangeOf(m) == Range(Dotted(Value(m)) + "/" + Dec(32), [Dotted(Value(m))])
  {
    RoundDownByOne(Value(m));
    assert Block(Value(m), 0) == [] && Block(Value(m), 1) == [Dotted(Value(m))];
  }

  lemma RoundDownByOne(v: nat)
    ensures RoundDown(v, 1) == v
  {
  }

  lemma ValueDigits(m: Match)
    requires m.a <= 255 && m.b <= 255 && m.c <= 255 && m.d <= 255
    ensures Dotted(Value(m)) == QuadText(Dec(m.a), Dec(m.b), Dec(m.c), Dec(m.d))
  {
    HighOctets(Value(m), m.a, m.b, m.c, m.d);
    LowOctets(Value(m), m.a, m.b, m.c, m.d);
  }

  lemma HighOctets(v: nat, a: nat, b: nat, c: nat, d: nat)
    requires a <= 255 && b <= 255 && c <= 255 && d <= 255
    requires v == a * 0x100_0000 + b * 0x1_0000 + c * 0x100 + d
    ensures v / 0x100_0000 % 256 == a && v / 0x1_0000 % 256 == b
  {
    DivModUnique(v, 0x100_0000, a, b * 0x1_0000 + c * 0x100 + d);
    DivModUnique(v, 0x1_0000, a * 0x100 + b, c * 0x100 + d);
    DivModUnique(a, 256, 0, a);
    DivModUnique(a * 0x100 + b, 256, a, b);
  }

  lemma LowOctets(v: nat, a: nat, b: nat, c: nat, d: nat)
    requires a <= 255 && b <= 255 && c <= 255 && d <= 255
    requires v == a * 0x100_0000 + b * 0x1_0000 + c * 0x100 + d
    ensures v / 0x100 % 256 == c && v % 256 == d
  {
    DivModUnique(v, 0x100, a * 0x1_0000 + b * 0x100 + c, d);
    DivModUnique(a * 0x1_0000 + b * 0x100 + c, 256, a * 0x100 + b, c);
  }

  /** With a prefix length: accepted exactly for octets and 24 to 32, and then of 2^(32 - prefix) addresses. */
  lemma PrefixedAddress(a: nat, b: nat, c: nat, d: nat, prefix: nat, text: string, input: string)
    requires a < 1000 && b < 1000 && c < 1000 && d < 1000 && prefix < 100
    requires text == QuadText(Dec(a), Dec(b), Dec(c), Dec(d)) && input == text + "/" + Dec(prefix)
    ensures var r := CidrOf(input);
      && (r.Some? <==> a <= 255 && b <= 255 && c <= 255 && d <= 255 && 24 <= prefix <= 32)
      && (r.Some? ==> NamesBlock(r.value.ips, text, prefix))
  {
    PrefixedText(a, b, c, d, prefix);
    PrefixedRange(input, text, Match(a, b, c, d, prefix));
  }

  lemma PrefixedRange(input: string, text: string, m: Match)
    requires MatchText(Trim(input)) == Some(m) && text == QuadText(Dec(m.a), Dec(m.b), Dec(m.c), Dec(m.d))
    ensures var r := CidrOf(input);
      && (r.Some? <==> m.a <= 255 && m.b <= 255 && m.c <= 255 && m.d <= 255 && 24 <= m.prefix <= 32)
      && (r.Some? ==> NamesBlock(r.value.ips, text, m.prefix))
  {
    CidrOfMatched(input, m);
    if Accepted(m) {
      ValueDigits(m);
      OwnAddressListed(input, m);
    }
  }

  lemma OwnAddressListed(input: string, m: Match)
    requires MatchText(Trim(input)) == Some(m) && Accepted(m)
    ensures CidrOf(input).Some? && |CidrOf(input).value.ips| == Pow2(32 - m.prefix)
    ensures Dotted(Value(m)) in CidrOf(input).value.ips
  {
    CidrOfMatched(input, m);
    RangeIsAlignedBlock(m);
    assert RangeOf(m).ips[Value(m) - Start(m)] == Dotted(Value(m));
  }
}

/**
 * Base64 with the URL alphabet (section 5 of RFC 4648), as the sources build it from `btoa` and `atob`:
 * the control plane's codec, and the data plane's decoder, whose second replacement is reversed.
 */
module Base64 {
  import opened Options
  import opened Bytes
  import opened Numbers

  type Six = x: int | 0 <= x < 64

  // ----- groups -----

  function Sextets(b: seq<Byte>): seq<Six> {
    if |b| == 0 then []
    else if |b| == 1 then [b[0] / 4, b[0] % 4 * 16]
    else if |b| == 2 then [b[0] / 4, b[0] % 4 * 16 + b[1] / 16, b[1] % 16 * 4]
    else [b[0] / 4, b[0] % 4 * 16 + b[1] / 16, b[1] % 16 * 4 + b[2] / 64, b[2] % 64] + Sextets(b[3..])
  }

  function Byte0(a: int, b: int): int { a * 4 + b / 16 }
  function Byte1(b: int, c: int): int { b % 16 * 16 + c / 4 }
  function Byte2(c: int, d: int): int { c % 4 * 64 + d }

  /** Leftover bits are dropped, as the forgiving decoder does. */
  function Octets(x: seq<Six>): seq<Byte> {
    if |x| < 2 then []
    else if |x| == 2 then [Byte0(x[0], x[1])]
    else if |x| == 3 then [Byte0(x[0], x[1]), Byte1(x[1], x[2])]
    else [Byte0(x[0], x[1]), Byte1(x[1], x[2]), Byte2(x[2], x[3])] + Octets(x[4..])
  }

  lemma {:induction false} OctetsOfSextets(b: seq<Byte>)
    ensures Octets(Sextets(b)) == b
    decreases |b|
  {
    if |b| >= 3 {
      SextetsSplit(b);
      OctetsSplit(Sextets(b));
      OctetsOfSextets(b[3..]);
      assert b[..3] + b[3..] == b;
    } else if |b| == 2 {
      TwoBack(b, b[0], b[1]);
    } else if |b| == 1 {
      OneBack(b, b[0]);
    }
  }

  /** Cutting the encoding after whole groups cuts the bytes after whole triples. */
  lemma {:induction false} OctetsOfPrefix(b: seq<Byte>, k: nat)
    requires 3 * k <= |b|
    ensures 4 * k <= |Sextets(b)| && Octets(Sextets(b)[..4 * k]) == b[..3 * k]
    decreases k
  {
    if k > 0 {
      var s, rest := Sextets(b), Sextets(b[3..]);
      OctetsOfPrefix(b[3..], k - 1);
      SextetsSplit(b);
      var cut := s[..4 * k];
      assert cut[4..] == rest[..4 * (k - 1)] && cut[..4] == s[..4];
      OctetsSplit(cut);
      assert Octets(s[..4]) == b[..3] && b[..3] + b[3..][..3 * (k - 1)] == b[..3 * k];
    }
  }

  /** A whole triple is a whole group, and the rest follows it. */
  lemma SextetsSplit(b: seq<Byte>)
    requires |b| >= 3
    ensures |Sextets(b)| >= 4 && Sextets(b)[4..] == Sextets(b[3..]) && Octets(Sextets(b)[..4]) == b[..3]
  {
    var s := Sextets(b);
    var group := s[..4];
    assert group[4..] == [];
    GroupBack(b[0], b[1], b[2]);
    assert Octets(group) == [Byte0(s[0], s[1]), Byte1(s[1], s[2]), Byte2(s[2], s[3])];
    assert b[..3] == [b[0], b[1], b[2]];
  }

  lemma OneBack(b: seq<Byte>, a: Byte)
    requires b == [a]
    ensures Octets(Sextets(b)) == b
  {
    assert Byte0(a / 4, a % 4 * 16) == a;
  }

  lemma TwoBack(b: seq<Byte>, a: Byte, c: Byte)
    requires b == [a, c]
    ensures Octets(Sextets(b)) == b
  {
    PairBack(a, c);
    var s := Sextets(b);
    assert s == [a / 4, a % 4 * 16 + c / 16, c % 16 * 4];
    assert Octets(s) == [Byte0(s[0], s[1]), Byte1(s[1], s[2])];
  }

  lemma PairBack(a: Byte, b: Byte)
    ensures var s1 := a % 4 * 16 + b / 16; Byte0(a / 4, s1) == a && Byte1(s1, b % 16 * 4) == b
  {
    DivModUnique(a % 4 * 16 + b / 16, 16, a % 4, b / 16);
    DivModUnique(b % 16 * 4, 4, b % 16, 0);
  }

  lemma GroupBack(a: Byte, b: Byte, c: Byte)
    ensures var s1, s2 := a % 4 * 16 + b / 16, b % 16 * 4 + c / 64;
      Byte0(a / 4, s1) == a && Byte1(s1, s2) == b && Byte2(s2, c % 64) == c
  {
    DivModUnique(a % 4 * 16 + b / 16, 16, a % 4, b / 16);
    DivModUnique(b % 16 * 4 + c / 64, 4, b % 16, c / 64);
  }

  lemma OctetsSplit(x: seq<Six>)
    requires |x| >= 4
    ensures Octets(x) == Octets(x[..4]) + Octets(x[4..])
  {
    assert x[..4][4..] == [];
  }

  lemma {:induction false} SextetsLength(b: seq<Byte>)
    ensures |Sextets(b)| == (4 * |b| + 2) / 3
    decreases |b|
  {
    if |b| >= 3 { SextetsLength(b[3..]); }
  }

  // ----- alphabets -----

  function StdChar(v: Six): char {
    if v < 26 then ('A' as int + v) as char
    else if v < 52 then ('a' as int + (v - 26)) as char
    else if v < 62 then ('0' as int + (v - 52)) as char
    else if v == 62 then '+' else '/'
  }

  /** The two alphabets (tables 1 and 2 of RFC 4648): capitals, small letters, digits, and the two that differ. */
  lemma AlphabetsAre(v: Six)
    ensures v < 26 ==> 'A' <= StdChar(v) <= 'Z' && (StdChar(v) - 'A') as int == v
    ensures 26 <= v < 52 ==> 'a' <= StdChar(v) <= 'z' && (StdChar(v) - 'a') as int == v - 26
    ensures 52 <= v < 62 ==> '0' <= StdChar(v) <= '9' && (StdChar(v) - '0') as int == v - 52
    ensures v < 62 ==> UrlChar(v) == StdChar(v)
    ensures StdChar(62) == '+' && StdChar(63) == '/' && UrlChar(62) == '-' && UrlChar(63) == '_'
  {
  }

  function StdValue(c: char): Option<Six> {
    if 'A' <= c <= 'Z' then Some(c as int - 'A' as int)
    else if 'a' <= c <= 'z' then Some(c as int - 'a' as int + 26)
    else if '0' <= c <= '9' then Some(c as int - '0' as int + 52)
    else if c == '+' then Some(62) else if c == '/' then Some(63) else None
  }

  function UrlChar(v: Six): char {
    if v == 62 then '-' else if v == 63 then '_' else StdChar(v)
  }

  function StdText(x: seq<Six>): (s: string)
    ensures |s| == |x| && forall i :: 0 <= i < |x| ==> s[i] == StdChar(x[i])
  {
    if x == [] then [] else [StdChar(x[0])] + StdText(x[1..])
  }

  function UrlText(x: seq<Six>): (s: string)
    ensures |s| == |x| && forall i :: 0 <= i < |x| ==> s[i] == UrlChar(x[i])
  {
    if x == [] then [] else [UrlChar(x[0])] + UrlText(x[1..])
  }

  function StdValues(s: string): (r: Option<seq<Six>>)
  {
    if s == [] then Some([])
    else if StdValue(s[0]).None? || StdValues(s[1..]).None? then None
    else Some([StdValue(s[0]).value] + StdValues(s[1..]).value)
  }

  lemma {:induction false} ValuesOfText(x: seq<Six>)
    ensures StdValues(StdText(x)) == Some(x)
  {
    if x != [] {
      assert StdText(x)[1..] == StdText(x[1..]);
      ValuesOfText(x[1..]);
      ValueOfChar(x[0]);
      assert [x[0]] + x[1..] == x;
    }
  }

  lemma ValueOfChar(v: Six)
    ensures StdValue(StdChar(v)) == Some(v)
  {
  }

  /** One character outside the alphabet spoils the whole text. */
  lemma {:induction false} ForeignCharFails(s: string, i: nat)
    requires i < |s| && StdValue(s[i]).None?
    ensures StdValues(s).None?
  {
    if i > 0 { ForeignCharFails(s[1..], i - 1); }
  }

  // ----- btoa and atob -----

  function Pad(n: nat): (s: string)
    ensures |s| == n && forall i :: 0 <= i < n ==> s[i] == '='
  {
    if n == 0 then [] else ['='] + Pad(n - 1)
  }

  function Missing(length: nat): (n: nat)
    ensures n < 4 && (length + n) % 4 == 0
  {
    (4 - length % 4) % 4
  }

  function Btoa(b: seq<Byte>): string {
    StdText(Sextets(b)) + Pad(Missing(|Sextets(b)|))
  }

  predicate IsSpace(c: char) {
    c == ' ' || c == '\t' || c == '\n' || c == '\r' || c as int == 12
  }

  /** The blanks that forgiving decoding skips: tab, line feed, form feed, carriage return and space. */
  lemma SpacesAre(c: char)
    ensures IsSpace(c) <==> c as int in {0x09, 0x0A, 0x0C, 0x0D, 0x20}
  {
  }

  function Squeezed(s: string): string {
    if s == [] then [] else (if IsSpace(s[0]) then [] else [s[0]]) + Squeezed(s[1..])
  }

  /** Drop one or two trailing pad characters from a text of whole groups. */
  function Unpadded(s: string): string {
    if |s| % 4 != 0 || s == [] || s[|s| - 1] != '=' then s
    else if s[|s| - 2] != '=' then s[..|s| - 1]
    else s[..|s| - 2]
  }

  /** The forgiving decoder; None where `atob` throws. */
  function Atob(s: string): Option<seq<Byte>> {
    var t := Unpadded(Squeezed(s));
    if |t| % 4 == 1 || StdValues(t).None? then None else Some(Octets(StdValues(t).value))
  }

  lemma {:induction false} NothingSqueezed(s: string)
    requires forall i :: 0 <= i < |s| ==> !IsSpace(s[i])
    ensures Squeezed(s) == s
  {
    if s != [] { NothingSqueezed(s[1..]); }
  }

  predicate Clean(t: string) {
    forall i :: 0 <= i < |t| ==> t[i] != '=' && !IsSpace(t[i])
  }

  lemma UnpadsWhole(t: string, n: nat)
    requires Clean(t) && |t| % 4 != 1 && n == Missing(|t|)
    ensures Unpadded(t + Pad(n)) == t
  {
    var s := t + Pad(n);
    if n == 0 {
      assert s == t;
    } else if n == 1 {
      assert s[|s| - 2] == t[|t| - 1] && s[..|s| - 1] == t;
    } else {
      assert n == 2 && s[..|s| - 2] == t;
    }
  }

  /** Padding a text to whole groups changes nothing for the decoder. */
  lemma AtobOfPadded(t: string, n: nat)
    requires Clean(t) && |t| % 4 != 1 && n == Missing(|t|)
    ensures Atob(t + Pad(n)) == if StdValues(t).None? then None else Some(Octets(StdValues(t).value))
  {
    var s := t + Pad(n);
    NothingSqueezed(s);
    UnpadsWhole(t, n);
  }

  lemma AtobOfText(x: seq<Six>, n: nat)
    requires |x| % 4 != 1 && n == Missing(|x|)
    ensures Atob(StdText(x) + Pad(n)) == Some(Octets(x))
  {
    AtobOfPadded(StdText(x), n);
    ValuesOfText(x);
  }

  // ----- the URL form -----

  function Replaced(s: string, from: char, to: char): (r: string)
    ensures |r| == |s| && forall i :: 0 <= i < |s| ==> r[i] == if s[i] == from then to else s[i]
  {
    if s == [] then [] else [if s[0] == from then to else s[0]] + Replaced(s[1..], from, to)
  }

  function Stripped(s: string): string {
    if s != [] && s[|s| - 1] == '=' then Stripped(s[..|s| - 1]) else s
  }

  function ToUrl(b: seq<Byte>): string {
    UrlText(Sextets(b))
  }

  lemma {:induction false} StrippedPad(s: string, n: nat)
    requires s == [] || s[|s| - 1] != '='
    ensures Stripped(s + Pad(n)) == s
    decreases n
  {
    if n == 0 {
      assert s + Pad(0) == s;
    } else {
      assert (s + Pad(n))[..|s| + n - 1] == s + Pad(n - 1);
      StrippedPad(s, n - 1);
    }
  }

  /** `bytesToBase64Url`, also `base64UrlSafe` of the dead drop and `b64url` of the data plane. */
  method BytesToBase64Url(data: seq<Byte>) returns (s: string)
    ensures s == ToUrl(data)
  {
    s := Stripped(Replaced(Replaced(Btoa(data), '+', '-'), '/', '_'));
    EncodedForm(Sextets(data), Missing(|Sextets(data)|));
  }

  lemma EncodedForm(x: seq<Six>, n: nat)
    ensures Stripped(Replaced(Replaced(StdText(x) + Pad(n), '+', '-'), '/', '_')) == UrlText(x)
  {
    UrlOfStd(x, n);
    NoPadInside(x);
    StrippedPad(UrlText(x), n);
  }

  lemma NoPadInside(x: seq<Six>)
    ensures UrlText(x) == [] || UrlText(x)[|UrlText(x)| - 1] != '='
  {
    if x != [] { assert UrlText(x)[|x| - 1] == UrlChar(x[|x| - 1]); }
  }

  /** The two replacements on one character of either text. */
  lemma UrlOfStdChar(v: Six)
    ensures UrlChar(v) == if StdChar(v) == '+' then '-' else if StdChar(v) == '/' then '_' else StdChar(v)
    ensures StdChar(v) != '-'
  {
  }

  lemma UrlOfStd(x: seq<Six>, n: nat)
    ensures Replaced(Replaced(StdText(x) + Pad(n), '+', '-'), '/', '_') == UrlText(x) + Pad(n)
  {
    var s, p, u := StdText(x), Pad(n), UrlText(x);
    var m := Replaced(s + p, '+', '-');
    var r := Replaced(m, '/', '_');
    forall i | 0 <= i < |x| ensures r[i] == u[i] {
      UrlOfStdChar(x[i]);
      assert (s + p)[i] == s[i] == StdChar(x[i]);
    }
    forall i | |x| <= i < |x| + n ensures r[i] == '=' { assert (s + p)[i] == p[i - |x|]; }
    SameText(r, u, p);
  }

  lemma SameText(r: string, u: string, p: string)
    requires |r| == |u| + |p| && forall i :: 0 <= i < |u| ==> r[i] == u[i]
    requires (forall i :: |u| <= i < |r| ==> r[i] == '=') && forall i :: 0 <= i < |p| ==> p[i] == '='
    ensures r == u + p
  {
  }

  function FromUrl(s: string): Option<seq<Byte>> {
    Atob(Replaced(Replaced(s, '-', '+'), '_', '/') + Pad(Missing(|s|)))
  }

  /** `base64UrlToBytes`; None where it throws. */
  method Base64UrlToBytes(value: string) returns (output: Option<seq<Byte>>)
    ensures output == FromUrl(value)
    ensures forall b :: value == ToUrl(b) ==> output == Some(b)
  {
    forall b | value == ToUrl(b) ensures FromUrl(value) == Some(b) { UrlRoundTrip(b); }
    var normalized := Replaced(Replaced(value, '-', '+'), '_', '/');
    output := Atob(normalized + Pad(Missing(|normalized|)));
  }

  /** The control plane's round trip, on every byte string. */
  lemma UrlRoundTrip(b: seq<Byte>)
    ensures FromUrl(ToUrl(b)) == Some(b)
  {
    var x := Sextets(b);
    SextetsLength(b);
    FromSextets(x);
    OctetsOfSextets(b);
  }

  lemma FromSextets(x: seq<Six>)
    requires |x| % 4 != 1
    ensures FromUrl(UrlText(x)) == Some(Octets(x))
  {
    StdOfUrl(x);
    AtobOfText(x, Missing(|x|));
  }

  lemma StdOfUrl(x: seq<Six>)
    ensures Replaced(Replaced(UrlText(x), '-', '+'), '_', '/') == StdText(x)
  {
    var u, t := UrlText(x), StdText(x);
    var r := Replaced(Replaced(u, '-', '+'), '_', '/');
    forall i | 0 <= i < |x| ensures r[i] == t[i] {
      assert u[i] == UrlChar(x[i]);
    }
  }

  // ----- the data plane's decoder -----

  /** `b64urlDecode`: the second replacement turns '/' into '_' instead of '_' into '/'. */
  function DataPlaneDecode(s: string): Option<seq<Byte>> {
    Atob(Replaced(Replaced(s, '-', '+'), '/', '_') + Pad(if |s| % 4 == 1 then 3 else Missing(|s|)))
  }

  lemma SwappedText(x: seq<Six>)
    ensures var t := Replaced(Replaced(UrlText(x), '-', '+'), '/', '_');
      |t| == |x| && forall i :: 0 <= i < |x| ==> t[i] == if x[i] == 63 then '_' else StdChar(x[i])
  {
  }

  lemma UnderscoreIsLast(x: seq<Six>)
    ensures '_' in UrlText(x) <==> 63 in x
  {
    if 63 in x {
      var i :| 0 <= i < |x| && x[i] == 63;
      assert UrlText(x)[i] == '_';
    }
  }

  lemma {:induction false} SwappedValues(x: seq<Six>, t: string)
    requires |t| == |x| && forall i :: 0 <= i < |x| ==> t[i] == if x[i] == 63 then '_' else StdChar(x[i])
    ensures Clean(t) && StdValues(t) == if 63 in x then None else Some(x)
  {
    if x != [] {
      SwappedValues(x[1..], t[1..]);
      assert x == [x[0]] + x[1..];
    }
  }

  /** A DoH query survives the data plane's decoder exactly when its encoding has no underscore; otherwise it throws. */
  lemma DataPlaneRoundTrip(b: seq<Byte>)
    ensures DataPlaneDecode(ToUrl(b)) == if '_' in ToUrl(b) then None else Some(b)
  {
    SextetsLength(b);
    DecodesUnlessSwapped(Sextets(b), ToUrl(b));
    OctetsOfSextets(b);
    UnderscoreIsLast(Sextets(b));
  }

  /** The failing case exists: the single byte 255 is encoded as `_w`, which the data plane's decoder refuses. */
  lemma DataPlaneRefuses()
    ensures ToUrl([255]) == "_w" && DataPlaneDecode(ToUrl([255])) == None
  {
    DataPlaneRoundTrip([255]);
    assert ToUrl([255])[0] == '_';
  }

  lemma DecodesUnlessSwapped(x: seq<Six>, s: string)
    requires |x| % 4 != 1 && s == UrlText(x)
    ensures DataPlaneDecode(s) == if 63 in x then None else Some(Octets(x))
  {
    SwappedText(x);
    var t := Replaced(Replaced(s, '-', '+'), '/', '_');
    SwappedValues(x, t);
    AtobOfPadded(t, Missing(|s|));
  }
}

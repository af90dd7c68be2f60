/** The syntax checks in other words: printed numbers, reserved blocks, and alphabets. */
module ValidatorForms {
  import opened Text
  import opened Validators

  // ----- alphabets -----

  const LETTERS := "abcdefghijklmnopqrstuvwxyz"
  const DIGITS := "0123456789"

  lemma Letter(c: char)
    ensures 'a' <= c <= 'z' <==> c in LETTERS
  {
    if 'a' <= c <= 'z' { assert LETTERS[c as int - 97] == c; }
  }

  lemma Numeric(c: char)
    ensures IsDigit(c) <==> c in DIGITS
  {
    if IsDigit(c) { assert DIGITS[c as int - 48] == c; }
  }

  lemma Alphabets(c: char)
    ensures IsAlnum(c) <==> c in LETTERS || c in DIGITS
  {
    Letter(c);
    Numeric(c);
  }

  lemma HexDigits(c: char)
    ensures IsHex(c) <==> c in "abcdef" || c in DIGITS
  {
    Numeric(c);
    if 'a' <= c <= 'f' { assert "abcdef"[c as int - 97] == c; }
  }

  /** The characters are of the alphabet, apart from hyphens. */
  predicate Spelled(s: string, hyphens: bool) {
    forall i :: 0 <= i < |s| ==> s[i] in LETTERS || s[i] in DIGITS || (hyphens && s[i] == '-')
  }

  lemma LabelIff(lab: string)
    ensures ValidLabel(lab) <==>
      1 <= |lab| < 64 && Spelled(lab, true) && Spelled(lab[..1], false) && Spelled(lab[|lab| - 1..], false)
  {
    forall i | 0 <= i < |lab| ensures IsAlnum(lab[i]) <==> lab[i] in LETTERS || lab[i] in DIGITS { Alphabets(lab[i]); }
    if 1 <= |lab| {
      assert lab[..1] == [lab[0]] && lab[|lab| - 1..] == [lab[|lab| - 1]];
      assert Spelled(lab[..1], false) <==> IsAlnum(lab[0]) by { assert lab[..1][0] == lab[0]; }
      assert Spelled(lab[|lab| - 1..], false) <==> IsAlnum(lab[|lab| - 1]) by {
        assert lab[|lab| - 1..][0] == lab[|lab| - 1];
      }
    }
  }

  lemma WorkerNameIff(s: string)
    ensures IsValidWorkerName(s) <==>
      2 < |s| < 65 && s[0] in LETTERS && Spelled(s, true) && Spelled(s[|s| - 1..], false)
  {
    forall i | 0 <= i < |s| ensures IsAlnum(s[i]) <==> s[i] in LETTERS || s[i] in DIGITS { Alphabets(s[i]); }
    if |s| > 2 {
      Letter(s[0]);
      assert Spelled(s[|s| - 1..], false) <==> IsAlnum(s[|s| - 1]) by { assert s[|s| - 1..][0] == s[|s| - 1]; }
    }
  }

  // ----- addresses -----

  /** An octet is what a number up to 255 is printed as. */
  lemma OctetIff(part: string)
    ensures ValidOctet(part) <==> exists n: nat :: n <= 255 && part == Dec(n)
  {
    if n: nat :| n <= 255 && part == Dec(n) {
      ParseDecOfDec(n);
      DecLength(n);
    }
  }

  function DottedQuad(a: nat, b: nat, c: nat, d: nat): string {
    Join([Dec(a), Dec(b), Dec(c), Dec(d)], '.')
  }

  lemma QuadParts(a: nat, b: nat, c: nat, d: nat)
    ensures Split(DottedQuad(a, b, c, d), '.') == [Dec(a), Dec(b), Dec(c), Dec(d)]
  {
    SplitOfJoin([Dec(a), Dec(b), Dec(c), Dec(d)], '.');
  }

  /** A valid IPv4 text is four octets printed between dots. */
  lemma Ipv4Iff(s: string)
    ensures IsValidIpv4(s) <==>
      exists a: nat, b: nat, c: nat, d: nat ::
        a <= 255 && b <= 255 && c <= 255 && d <= 255 && s == DottedQuad(a, b, c, d)
  {
    if IsValidIpv4(s) {
      var a, b, c, d := OctetsOf(s);
    }
    if a: nat, b: nat, c: nat, d: nat
      :| a <= 255 && b <= 255 && c <= 255 && d <= 255 && s == DottedQuad(a, b, c, d)
    {
      QuadIsValid(a, b, c, d);
    }
  }

  lemma OctetsOf(s: string) returns (a: nat, b: nat, c: nat, d: nat)
    requires IsValidIpv4(s)
    ensures a <= 255 && b <= 255 && c <= 255 && d <= 255 && s == DottedQuad(a, b, c, d)
  {
    var parts := Split(s, '.');
    assert ValidOctet(parts[0]) && ValidOctet(parts[1]) && ValidOctet(parts[2]) && ValidOctet(parts[3]);
    a, b, c, d := ParseDec(parts[0]), ParseDec(parts[1]), ParseDec(parts[2]), ParseDec(parts[3]);
    assert parts == [Dec(a), Dec(b), Dec(c), Dec(d)];
    JoinOfSplit(s, '.');
  }

  lemma QuadIsValid(a: nat, b: nat, c: nat, d: nat)
    requires a <= 255 && b <= 255 && c <= 255 && d <= 255
    ensures IsValidIpv4(DottedQuad(a, b, c, d))
  {
    QuadParts(a, b, c, d);
    OctetIff(Dec(a));
    OctetIff(Dec(b));
    OctetIff(Dec(c));
    OctetIff(Dec(d));
  }

  /** A reserved block of addresses: its first one and how many there are. */
  datatype Reserved = Reserved(first: nat, size: nat)

  /** The reserved blocks by their usual names, from 0/8 to 224/3. */
  const RESERVED: seq<Reserved> := [
    Reserved(0, 0x100_0000), Reserved(10 * 0x100_0000, 0x100_0000), Reserved(127 * 0x100_0000, 0x100_0000),
    Reserved(0x6440_0000, 0x40_0000), Reserved(0xA9FE_0000, 0x1_0000), Reserved(0xAC10_0000, 0x10_0000),
    Reserved(0xC0A8_0000, 0x1_0000), Reserved(0xC612_0000, 0x2_0000), Reserved(0xC000_0000, 0x100),
    Reserved(0xC000_0200, 0x100), Reserved(0xC633_6400, 0x100), Reserved(0xCB00_7100, 0x100),
    Reserved(0xE000_0000, 0x2000_0000)]

  predicate IsReserved(v: nat) {
    exists i :: 0 <= i < |RESERVED| && RESERVED[i].first <= v < RESERVED[i].first + RESERVED[i].size
  }

  /** The comparisons octet by octet leave out exactly the reserved blocks. */
  lemma PublicIffNotReserved(a: nat, b: nat, c: nat, d: nat)
    requires a <= 255 && b <= 255 && c <= 255 && d <= 255
    ensures PublicQuad(a, b, c) <==> !IsReserved(a * 0x100_0000 + b * 0x1_0000 + c * 0x100 + d)
  {
    var v := a * 0x100_0000 + b * 0x1_0000 + c * 0x100 + d;
    assert |RESERVED| == 13;
    if !PublicQuad(a, b, c) {
      var i := if a == 0 then 0 else if a == 10 then 1 else if a == 127 then 2 else if a >= 224 then 12
               else if a == 100 then 3 else if a == 169 then 4 else if a == 172 then 5
               else if a == 192 && b == 168 then 6 else if a == 198 && b < 51 then 7
               else if a == 192 && c == 0 then 8 else if a == 192 then 9 else if a == 198 then 10 else 11;
      assert RESERVED[i].first <= v < RESERVED[i].first + RESERVED[i].size;
    }
  }

  /** It is public exactly outside the reserved blocks. */
  lemma PublicIff(a: nat, b: nat, c: nat, d: nat)
    requires a <= 255 && b <= 255 && c <= 255 && d <= 255
    ensures IsPublicIpv4(DottedQuad(a, b, c, d)) <==> !IsReserved(a * 0x100_0000 + b * 0x1_0000 + c * 0x100 + d)
  {
    QuadIsValid(a, b, c, d);
    QuadParts(a, b, c, d);
    ParseDecOfDec(a);
    ParseDecOfDec(b);
    ParseDecOfDec(c);
    PublicIffNotReserved(a, b, c, d);
  }

  /** An address of electronic mail: something, an at sign, something, a dot, something, without blanks. */
  lemma EmailIff(s: string)
    ensures IsValidEmail(s) <==> |s| < 255 && NoBlank(s) && exists a, b, c :: IsMail(s, a, b, c)
  {
    if |s| < 255 && NoBlank(s) {
      if IsValidEmail(s) {
        var parts := Split(s, '@');
        var i :| 0 < i < |parts[1]| - 1 && parts[1][i] == '.';
        JoinOfSplit(s, '@');
        SplitHasNoSeparator(s, '@');
        assert parts[1] == parts[1][..i] + "." + parts[1][i + 1..];
        assert IsMail(s, parts[0], parts[1][..i], parts[1][i + 1..]);
      }
      if a, b, c :| IsMail(s, a, b, c) {
        var domain := b + "." + c;
        SplitFirst(a, domain, '@');
        SplitPlain(domain, '@');
        assert s == a + ['@'] + domain && domain[|b|] == '.';
      }
    }
  }

  predicate IsMail(s: string, a: string, b: string, c: string) {
    s == a + "@" + (b + "." + c) && a != [] && b != [] && c != [] && '@' !in a && '@' !in b && '@' !in c
  }
}

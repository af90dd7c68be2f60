/** The syntax checks of src/security.ts. */
module Validators {
  import opened Text

  predicate IsAlnum(c: char) {
    'a' <= c <= 'z' || IsDigit(c)
  }

  predicate AllLabelChars(s: string) {
    forall i :: 0 <= i < |s| ==> IsAlnum(s[i]) || s[i] == '-'
  }

  predicate ValidLabel(lab: string) {
    && 1 <= |lab| <= 63 && AllLabelChars(lab)
    && IsAlnum(lab[0]) && IsAlnum(lab[|lab| - 1])
  }

  predicate ValidLabels(labels: seq<string>) {
    forall i :: 0 <= i < |labels| ==> ValidLabel(labels[i])
  }

  predicate IsValidHostname(s: string) {
    |s| <= 253 && '.' in s && ValidLabels(Split(s, '.'))
  }

  predicate ValidOctet(part: string) {
    1 <= |part| <= 3 && AllDigits(part) && ParseDec(part) <= 255 && Dec(ParseDec(part)) == part
  }

  predicate ValidOctets(parts: seq<string>) {
    forall i :: 0 <= i < |parts| ==> ValidOctet(parts[i])
  }

  predicate IsValidIpv4(s: string) {
    |Split(s, '.')| == 4 && ValidOctets(Split(s, '.'))
  }

  predicate PublicQuad(a: nat, b: nat, c: nat) {
    && !(a == 0 || a == 10 || a == 127 || a >= 224)
    && !(a == 100 && 64 <= b <= 127)
    && !(a == 169 && b == 254)
    && !(a == 172 && 16 <= b <= 31)
    && !(a == 192 && b == 168)
    && !(a == 198 && (b == 18 || b == 19))
    && !(a == 192 && b == 0 && c == 0)
    && !(a == 192 && b == 0 && c == 2)
    && !(a == 198 && b == 51 && c == 100)
    && !(a == 203 && b == 0 && c == 113)
  }

  predicate IsPublicIpv4(s: string) {
    && IsValidIpv4(s)
    && (assert ValidOctet(Split(s, '.')[0]) && ValidOctet(Split(s, '.')[1]) && ValidOctet(Split(s, '.')[2]);
        PublicQuad(ParseDec(Split(s, '.')[0]), ParseDec(Split(s, '.')[1]), ParseDec(Split(s, '.')[2])))
  }

  predicate NoBlank(s: string) {
    forall i :: 0 <= i < |s| ==> !IsBlank(s[i])
  }

  predicate InnerDot(s: string) {
    exists i :: 0 < i < |s| - 1 && s[i] == '.'
  }

  predicate IsValidEmail(s: string) {
    && |s| <= 254 && NoBlank(s) && |Split(s, '@')| == 2
    && Split(s, '@')[0] != [] && InnerDot(Split(s, '@')[1])
  }

  predicate IsHex(c: char) {
    IsDigit(c) || 'a' <= c <= 'f'
  }

  predicate IsValidCloudflareId(s: string) {
    |s| == 32 && forall i :: 0 <= i < |s| ==> IsHex(s[i])
  }

  predicate IsValidConnectionId(s: string) {
    |s| == 36 && forall i :: 0 <= i < |s| ==> IsHex(s[i]) || s[i] == '-'
  }

  predicate IsValidWorkerName(s: string) {
    && 3 <= |s| <= 64 && 'a' <= s[0] <= 'z' && AllLabelChars(s) && IsAlnum(s[|s| - 1])
  }

  // ----- what valid texts look like -----

  /** Already trimmed and in lower case. */
  predicate Settled(s: string) {
    Trimmed(s) && forall i :: 0 <= i < |s| ==> LowerChar(s[i]) == s[i]
  }

  lemma SettledStays(s: string)
    requires Settled(s)
    ensures Lower(Trim(s)) == s
  {
    TrimOfTrimmed(s);
  }

  lemma NormalizedIsSettled(s: string)
    ensures Settled(Lower(Trim(s)))
  {
    TrimTrims(s);
    LowerKeepsTrimmed(Trim(s));
  }

  predicate DigitsAndDots(s: string) {
    forall i :: 0 <= i < |s| ==> IsDigit(s[i]) || s[i] == '.'
  }

  lemma JoinedOctets(parts: seq<string>)
    requires |parts| == 4 && ValidOctets(parts)
    ensures DigitsAndDots(Join(parts, '.')) && 7 <= |Join(parts, '.')| <= 15
  {
    assert ValidOctet(parts[0]) && ValidOctet(parts[1]) && ValidOctet(parts[2]) && ValidOctet(parts[3]);
    var two := parts[2..];
    assert two[1..] == [parts[3]] && Join(two[1..], '.') == parts[3];
    var c := Join(two, '.');
    assert c == parts[2] + ['.'] + parts[3];
    var three := parts[1..];
    assert three[1..] == two;
    var b := Join(three, '.');
    assert b == parts[1] + ['.'] + c;
    assert DigitsAndDots(b);
  }

  lemma Ipv4IsSettled(s: string)
    requires IsValidIpv4(s)
    ensures Settled(s) && 7 <= |s| <= 15
  {
    JoinOfSplit(s, '.');
    JoinedOctets(Split(s, '.'));
  }
}

/** The string operations the sources use: decimal numerals, split and join, trim and lower case. */
module Text {

  // ----- decimal numerals -----

  predicate IsDigit(c: char) {
    '0' <= c <= '9'
  }

  predicate AllDigits(s: string) {
    forall i :: 0 <= i < |s| ==> IsDigit(s[i])
  }

  function Digit(d: nat): (c: char)
    requires d < 10
    ensures IsDigit(c) && c as int - '0' as int == d
  {
    ('0' as int + d) as char
  }

  /** `String(n)`. */
  function Dec(n: nat): (s: string)
    ensures s != [] && AllDigits(s)
  {
    if n < 10 then [Digit(n)] else Dec(n / 10) + [Digit(n % 10)]
  }

  /** `Number(s)` on a non-empty run of digits. */
  function ParseDec(s: string): nat
    requires AllDigits(s)
  {
    if s == [] then 0 else ParseDec(s[..|s| - 1]) * 10 + (s[|s| - 1] as int - '0' as int)
  }

  lemma {:induction false} ParseDecOfDec(n: nat)
    ensures ParseDec(Dec(n)) == n
  {
    if n >= 10 {
      ParseDecOfDec(n / 10);
      var s := Dec(n);
      assert s[..|s| - 1] == Dec(n / 10) && s[|s| - 1] == Digit(n % 10);
    } else {
      assert Dec(n)[..0] == [];
    }
  }

  lemma DecLength(n: nat)
    ensures n < 10 ==> |Dec(n)| == 1
    ensures n < 100 ==> |Dec(n)| <= 2
    ensures n < 1000 ==> |Dec(n)| <= 3
  {
    if n >= 10 {
      assert |Dec(n)| == |Dec(n / 10)| + 1;
      if n >= 100 {
        assert |Dec(n / 10)| == |Dec(n / 10 / 10)| + 1;
      }
    }
  }

  // ----- split and join -----

  /** `s.split(c)`: always at least one part. */
  function Split(s: string, c: char): (parts: seq<string>)
    ensures parts != []
  {
    if s == [] then [[]]
    else if s[0] == c then [[]] + Split(s[1..], c)
    else
      var rest := Split(s[1..], c);
      [[s[0]] + rest[0]] + rest[1..]
  }

  /** `parts.join(c)`. */
  function Join(parts: seq<string>, c: char): string
    requires parts != []
  {
    if |parts| == 1 then parts[0] else parts[0] + [c] + Join(parts[1..], c)
  }

  lemma JoinPrepend(x: char, rest: seq<string>, c: char)
    requires rest != []
    ensures Join([[x] + rest[0]] + rest[1..], c) == [x] + Join(rest, c)
  {
    var parts := [[x] + rest[0]] + rest[1..];
    assert parts[1..] == rest[1..];
    if |rest| > 1 {
      var tail := Join(rest[1..], c);
      assert ([x] + rest[0]) + [c] + tail == [x] + (rest[0] + [c] + tail);
    }
  }

  lemma JoinSeparated(rest: seq<string>, c: char)
    requires rest != []
    ensures Join([[]] + rest, c) == [c] + Join(rest, c)
  {
    assert ([[]] + rest)[1..] == rest;
  }

  lemma {:induction false} JoinOfSplit(s: string, c: char)
    ensures Join(Split(s, c), c) == s
  {
    if s != [] {
      JoinOfSplit(s[1..], c);
      var rest := Split(s[1..], c);
      if s[0] == c { JoinSeparated(rest, c); } else { JoinPrepend(s[0], rest, c); }
      assert [s[0]] + s[1..] == s;
    }
  }

  lemma {:induction false} SplitPlain(s: string, c: char)
    requires c !in s
    ensures Split(s, c) == [s]
  {
    if s != [] {
      SplitPlain(s[1..], c);
      assert [s[0]] + s[1..] == s;
    }
  }

  lemma {:induction false} SplitFirst(a: string, b: string, c: char)
    requires c !in a
    ensures Split(a + [c] + b, c) == [a] + Split(b, c)
  {
    var s := a + [c] + b;
    if a == [] {
      assert s[1..] == b;
    } else {
      assert s[1..] == a[1..] + [c] + b;
      SplitFirst(a[1..], b, c);
      assert [a[0]] + a[1..] == a;
      var rest := Split(s[1..], c);
      assert rest[0] == a[1..] && rest[1..] == Split(b, c);
      assert Split(s, c) == [[s[0]] + rest[0]] + rest[1..];
    }
  }

  lemma {:induction false} SplitOfJoin(parts: seq<string>, c: char)
    requires parts != [] && forall i :: 0 <= i < |parts| ==> c !in parts[i]
    ensures Split(Join(parts, c), c) == parts
  {
    if |parts| == 1 {
      SplitPlain(parts[0], c);
    } else {
      SplitOfJoin(parts[1..], c);
      SplitFirst(parts[0], Join(parts[1..], c), c);
      assert [parts[0]] + parts[1..] == parts;
    }
  }

  /** The parts of a split never contain the separator. */
  lemma {:induction false} SplitHasNoSeparator(s: string, c: char)
    ensures forall i :: 0 <= i < |Split(s, c)| ==> c !in Split(s, c)[i]
  {
    if s != [] {
      SplitHasNoSeparator(s[1..], c);
      var rest, parts := Split(s[1..], c), Split(s, c);
      forall i | 0 <= i < |parts| ensures c !in parts[i] {
        if s[0] == c {
          if i > 0 { assert parts[i] == rest[i - 1]; }
        } else if i > 0 {
          assert parts[i] == rest[i];
        }
      }
    }
  }

  // ----- trim and lower case -----

  /** Blanks that `trim` removes and `\s` matches. */
  predicate IsBlank(c: char) {
    var n := c as int;
    || n == 0x20 || 9 <= n <= 13 || n == 0xA0 || n == 0x1680 || 0x2000 <= n <= 0x200A
    || n == 0x2028 || n == 0x2029 || n == 0x202F || n == 0x205F || n == 0x3000 || n == 0xFEFF
  }

  function TrimLeft(s: string): string {
    if s != [] && IsBlank(s[0]) then TrimLeft(s[1..]) else s
  }

  function TrimRight(s: string): string {
    if s != [] && IsBlank(s[|s| - 1]) then TrimRight(s[..|s| - 1]) else s
  }

  function Trim(s: string): string {
    TrimRight(TrimLeft(s))
  }

  /** Neither end is blank. */
  predicate Trimmed(s: string) {
    s == [] || (!IsBlank(s[0]) && !IsBlank(s[|s| - 1]))
  }

  lemma TrimOfTrimmed(s: string)
    requires Trimmed(s)
    ensures Trim(s) == s
  {
  }

  lemma {:induction false} TrimRightTrims(s: string)
    requires s == [] || !IsBlank(s[0])
    ensures Trimmed(TrimRight(s)) && |TrimRight(s)| <= |s|
  {
    if s != [] && IsBlank(s[|s| - 1]) {
      TrimRightTrims(s[..|s| - 1]);
    }
  }

  lemma {:induction false} TrimLeftTrims(s: string)
    ensures TrimLeft(s) == [] || !IsBlank(TrimLeft(s)[0])
  {
    if s != [] && IsBlank(s[0]) {
      TrimLeftTrims(s[1..]);
    }
  }

  lemma TrimTrims(s: string)
    ensures Trimmed(Trim(s))
  {
    TrimLeftTrims(s);
    TrimRightTrims(TrimLeft(s));
  }

  predicate AllBlank(s: string) {
    forall i :: 0 <= i < |s| ==> IsBlank(s[i])
  }

  lemma {:induction false} TrimLeftCuts(s: string) returns (front: string)
    ensures AllBlank(front) && s == front + TrimLeft(s)
  {
    front := [];
    if s != [] && IsBlank(s[0]) {
      var rest := TrimLeftCuts(s[1..]);
      front := [s[0]] + rest;
    }
  }

  lemma {:induction false} TrimRightCuts(s: string) returns (back: string)
    ensures AllBlank(back) && s == TrimRight(s) + back
  {
    back := [];
    if s != [] && IsBlank(s[|s| - 1]) {
      var rest := TrimRightCuts(s[..|s| - 1]);
      back := rest + [s[|s| - 1]];
    }
  }

  /** Trimming takes away blanks at both ends, all of them and nothing else. */
  lemma TrimCuts(s: string) returns (front: string, back: string)
    ensures AllBlank(front) && AllBlank(back) && s == front + Trim(s) + back && Trimmed(Trim(s))
  {
    front := TrimLeftCuts(s);
    back := TrimRightCuts(TrimLeft(s));
    TrimTrims(s);
  }

  /** The white space and line terminators of ECMAScript (sections 12.2 and 12.3 of ECMA-262). */
  lemma BlanksAre(c: char)
    ensures IsBlank(c) <==>
      c as int in {0x09, 0x0A, 0x0B, 0x0C, 0x0D, 0x20, 0xA0, 0x1680, 0x2000, 0x2001, 0x2002, 0x2003, 0x2004, 0x2005,
                   0x2006, 0x2007, 0x2008, 0x2009, 0x200A, 0x2028, 0x2029, 0x202F, 0x205F, 0x3000, 0xFEFF}
  {
  }

  /** Lower case for the letters of Latin-1; other characters are left alone. */
  function LowerChar(c: char): char {
    var n := c as int;
    if 0x41 <= n <= 0x5A || (0xC0 <= n <= 0xDE && n != 0xD7) then (n + 32) as char else c
  }

  function Lower(s: string): (r: string)
    ensures |r| == |s| && forall i :: 0 <= i < |s| ==> r[i] == LowerChar(s[i])
  {
    if s == [] then [] else [LowerChar(s[0])] + Lower(s[1..])
  }

  /** Letter by letter: each capital becomes the small letter at the same place, and nothing else changes. */
  lemma LowerLetters(c: char)
    ensures 'A' <= c <= 'Z' ==> 'a' <= LowerChar(c) <= 'z' && LowerChar(c) - 'a' == c - 'A'
    ensures 'À' <= c <= 'Ö' ==> 'à' <= LowerChar(c) <= 'ö' && LowerChar(c) - 'à' == c - 'À'
    ensures 'Ø' <= c <= 'Þ' ==> 'ø' <= LowerChar(c) <= 'þ' && LowerChar(c) - 'ø' == c - 'Ø'
    ensures !('A' <= c <= 'Z' || 'À' <= c <= 'Ö' || 'Ø' <= c <= 'Þ') ==> LowerChar(c) == c
  {
  }

  lemma LowerKeepsTrimmed(s: string)
    requires Trimmed(s)
    ensures Trimmed(Lower(s))
  {
  }
}

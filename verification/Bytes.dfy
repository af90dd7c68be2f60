/** Byte strings and the big-endian pieces of wire formats. */
module Bytes {

  type Byte = x: int | 0 <= x < 256

  /** A 16-bit field as `setUint16` writes it. */
  function U16(n: nat): (s: seq<Byte>)
    ensures |s| == 2
  {
    [n / 256 % 256, n % 256]
  }

  function U16At(buf: seq<Byte>, offset: nat): nat
    requires offset + 2 <= |buf|
  {
    var hi: nat, lo: nat := buf[offset], buf[offset + 1];
    hi * 256 + lo
  }

  /** `part` stands in `buf` at `offset`. */
  ghost predicate At(buf: seq<Byte>, offset: nat, part: seq<Byte>) {
    offset + |part| <= |buf| && forall i :: 0 <= i < |part| ==> buf[offset + i] == part[i]
  }

  lemma AtSplit(buf: seq<Byte>, offset: nat, a: seq<Byte>, b: seq<Byte>)
    requires At(buf, offset, a + b)
    ensures At(buf, offset, a) && At(buf, offset + |a|, b)
  {
    var whole := a + b;
    forall i | 0 <= i < |a| ensures buf[offset + i] == a[i] { assert whole[i] == a[i]; }
    forall i | 0 <= i < |b| ensures buf[offset + |a| + i] == b[i] { assert whole[|a| + i] == b[i]; }
  }

  lemma AtIndex(buf: seq<Byte>, offset: nat, part: seq<Byte>, i: nat)
    requires At(buf, offset, part) && i < |part|
    ensures buf[offset + i] == part[i]
  {
  }

  lemma AtSlice(buf: seq<Byte>, offset: nat, part: seq<Byte>)
    requires At(buf, offset, part)
    ensures buf[offset..offset + |part|] == part
  {
  }

  lemma Behind(buf: seq<Byte>, front: seq<Byte>, b: seq<Byte>, c: seq<Byte>)
    requires buf == front + b + c
    ensures At(buf, |front|, b + c)
  {
    var tail := b + c;
    forall i | 0 <= i < |tail| ensures buf[|front| + i] == tail[i] {
    }
  }

  lemma TwoBytes(n: nat)
    ensures n / 256 % 256 * 256 + n % 256 == n % 65536
  {
  }

  lemma Regroup(a: seq<Byte>, b: seq<Byte>, c: seq<Byte>)
    ensures (a + b) + c == a + (b + c)
  {
  }

  lemma U16Here(buf: seq<Byte>, offset: nat, n: nat)
    requires At(buf, offset, U16(n))
    ensures U16At(buf, offset) == n % 65536
  {
    AtIndex(buf, offset, U16(n), 0);
    AtIndex(buf, offset, U16(n), 1);
    TwoBytes(n);
  }

  /** Characters of Latin-1 text and back: `charCodeAt` stored in a byte array, and `String.fromCharCode`. */
  function Codes(s: string): (r: seq<Byte>)
    ensures |r| == |s| && forall i :: 0 <= i < |s| ==> r[i] == s[i] as int % 256
  {
    if s == [] then [] else [s[0] as int % 256] + Codes(s[1..])
  }

  function Chars(b: seq<Byte>): (r: string)
    ensures |r| == |b| && forall i :: 0 <= i < |b| ==> r[i] == b[i] as char
  {
    if b == [] then [] else [b[0] as char] + Chars(b[1..])
  }

  lemma CodesOfChars(b: seq<Byte>)
    ensures Codes(Chars(b)) == b
  {
    var t := Codes(Chars(b));
    forall i | 0 <= i < |b| ensures t[i] == b[i] { assert Chars(b)[i] == b[i] as char; }
  }

  lemma {:induction false} CharsOfCodes(s: string)
    requires forall i :: 0 <= i < |s| ==> s[i] as int < 256
    ensures Chars(Codes(s)) == s
  {
    var t := Chars(Codes(s));
    forall i | 0 <= i < |s| ensures t[i] == s[i] {
      assert Codes(s)[i] == s[i] as int;
    }
  }
}

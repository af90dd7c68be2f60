/**
 * The sleeper window, computed twice: by the control plane in JavaScript's 32-bit arithmetic and by the agent in
 * Python's unbounded integers.  Both must name the same hour of the day, and the agent must wake in it.
 */
module Sleeper {
  import opened Numbers
  import opened Js

  const OFFSET := 0x811C9DC5
  const PRIME := 0x01000193
  const DAY := 1440
  const SPAN := 60
  const JITTER := 9

  // ----- the hash -----

  /** FNV-1a over character or byte codes. */
  function Fnv(codes: seq<nat>): (h: nat)
    ensures h < B32
  {
    if codes == [] then OFFSET else BitXor(Fnv(codes[..|codes| - 1]), codes[|codes| - 1]) * PRIME % B32
  }

  /** One binary digit of each argument. */
  lemma XorBit(a: nat, b: nat, c: nat, d: nat, r: nat, bit: nat)
    requires a / 2 == c && b / 2 == d && BitXor(c, d) == r && bit == (if a % 2 != b % 2 then 1 else 0)
    ensures BitXor(a, b) == 2 * r + bit
  {
  }

  lemma {:induction false} XorZero(a: nat)
    ensures BitXor(a, 0) == a
  {
    if a > 0 { XorZero(a / 2); }
  }

  lemma OffsetXorA(a: nat, b: nat)
    requires a == 0x811C_9DC5 && b == 97
    ensures BitXor(a, b) == 0x811C_9DA4
  {
    var a1, a2, a3, a4 := a / 2, a / 4, a / 8, a / 16;
    var a5, a6, a7 := a / 32, a / 64, a / 128;
    var b1, b2, b3, b4, b5, b6 := b / 2, b / 4, b / 8, b / 16, b / 32, b / 64;
    XorZero(a7);
    XorBit(a6, b6, a7, 0, 0x102393B, 0);
    XorBit(a5, b5, a6, b6, 0x2047276, 1);
    XorBit(a4, b4, a5, b5, 0x408E4ED, 0);
    XorBit(a3, b3, a4, b4, 0x811C9DA, 0);
    XorBit(a2, b2, a3, b3, 0x102393B4, 1);
    XorBit(a1, b1, a2, b2, 0x20472769, 0);
    XorBit(a, b, a1, b1, 0x408E4ED2, 0);
  }

  /** The published 32-bit test vectors of the empty text and of "a". */
  lemma FnvVectors(a: nat)
    requires a == 97
    ensures Fnv([]) == 0x811C_9DC5 && Fnv([a]) == 0xE40C_292C
  {
    OffsetXorA(OFFSET, a);
    assert [a][..0] == [];
  }

  /** JavaScript's code units: a character beyond U+FFFF is a surrogate pair. */
  function Units(c: char): (u: seq<nat>)
    ensures forall i :: 0 <= i < |u| ==> u[i] < 0x1_0000
  {
    var n := c as int;
    if n < 0x1_0000 then [n] else [0xD800 + (n - 0x1_0000) / 0x400, 0xDC00 + (n - 0x1_0000) % 0x400]
  }

  /** What `charCodeAt` gives at each index. */
  function Utf16(s: string): (u: seq<nat>)
    ensures forall i :: 0 <= i < |u| ==> u[i] < 0x1_0000
  {
    if s == [] then [] else Utf16(s[..|s| - 1]) + Units(s[|s| - 1])
  }

  /** UTF-8, the default of Python's `encode`. */
  function Utf8Char(c: char): seq<nat> {
    var n := c as int;
    if n < 0x80 then [n]
    else if n < 0x800 then [0xC0 + n / 0x40, 0x80 + n % 0x40]
    else if n < 0x1_0000 then [0xE0 + n / 0x1000, 0x80 + n / 0x40 % 0x40, 0x80 + n % 0x40]
    else [0xF0 + n / 0x4_0000, 0x80 + n / 0x1000 % 0x40, 0x80 + n / 0x40 % 0x40, 0x80 + n % 0x40]
  }

  function Utf8(s: string): seq<nat> {
    if s == [] then [] else Utf8(s[..|s| - 1]) + Utf8Char(s[|s| - 1])
  }

  /** One unit, or a high and a low surrogate that spell the character (section 3.9 of the Unicode standard). */
  lemma UnitsSpell(c: char)
    ensures var n, u := c as int, Units(c);
      || (n < 0x1_0000 && u == [n])
      || (0x1_0000 <= n && |u| == 2 && 0xD800 <= u[0] < 0xDC00 && 0xDC00 <= u[1] < 0xE000
          && n == 0x1_0000 + (u[0] - 0xD800) * 0x400 + (u[1] - 0xDC00))
  {
  }

  predicate Continues(b: nat) {
    0x80 <= b < 0xC0
  }

  /** One to four bytes that spell the character, none longer than needed (section 3 of RFC 3629). */
  lemma Utf8Spells(c: char)
    ensures var n, b := c as int, Utf8Char(c);
      || (n < 0x80 && b == [n])
      || (0x80 <= n < 0x800 && |b| == 2 && 0xC0 <= b[0] < 0xE0 && Continues(b[1])
          && n == (b[0] - 0xC0) * 0x40 + (b[1] - 0x80))
      || (0x800 <= n < 0x1_0000 && |b| == 3 && 0xE0 <= b[0] < 0xF0 && Continues(b[1]) && Continues(b[2])
          && n == (b[0] - 0xE0) * 0x1000 + (b[1] - 0x80) * 0x40 + (b[2] - 0x80))
      || (0x1_0000 <= n && |b| == 4 && 0xF0 <= b[0] < 0xF8 && Continues(b[1]) && Continues(b[2]) && Continues(b[3])
          && n == (b[0] - 0xF0) * 0x4_0000 + (b[1] - 0x80) * 0x1000 + (b[2] - 0x80) * 0x40 + (b[3] - 0x80))
  {
    var n := c as int;
    assert n == n / 0x40 * 0x40 + n % 0x40;
    assert n / 0x40 == n / 0x1000 * 0x40 + n / 0x40 % 0x40;
    assert n / 0x1000 == n / 0x4_0000 * 0x40 + n / 0x1000 % 0x40;
  }

  predicate Ascii(s: string) {
    forall i :: 0 <= i < |s| ==> s[i] as int < 0x80
  }

  lemma {:induction false} Utf8OfAscii(s: string)
    requires Ascii(s)
    ensures Utf8(s) == Utf16(s)
  {
    if s != [] { Utf8OfAscii(s[..|s| - 1]); }
  }

  /** One signed 32-bit step of the JavaScript loop is one step of the hash. */
  lemma JsStep(hash: nat, code: nat)
    requires hash < B32 && code < B32
    ensures ToUint32(Imul(Xor(hash, code), PRIME)) == BitXor(hash, code) * PRIME % B32
  {
    var u := BitXor(hash, code);
    assert ToUint32(hash) == hash && ToUint32(code) == code;
    SignedTwice(u);
    LowBitsOfProduct(u, PRIME);
    SignIsLost(ToInt32(u) * PRIME);
  }

  lemma SignedTwice(u: int)
    ensures ToInt32(ToInt32(u)) == ToInt32(u)
  {
    SignIsLost(u);
  }

  /** `fnv1a` of the control plane. */
  method JsFnv1a(value: string) returns (hash: nat)
    ensures hash == Fnv(Utf16(value))
  {
    hash := OFFSET;
    var codes := Utf16(value);
    var index := 0;
    while index < |codes|
      invariant 0 <= index <= |codes| && hash == Fnv(codes[..index])
    {
      assert codes[..index + 1][..index] == codes[..index];
      JsStep(hash, codes[index]);
      hash := ToUint32(Imul(Xor(hash, codes[index]), PRIME));
      index := index + 1;
    }
    assert codes[..|codes|] == codes;
  }

  lemma PyStep(x: nat)
    ensures BitAnd(x, 0xFFFF_FFFF) == x % B32
  {
    Pow2Values();
    AndMask(x, 32);
  }

  /** `fnv1a` of the agent. */
  method PyFnv1a(text: string) returns (h: nat)
    ensures h == Fnv(Utf8(text))
  {
    h := OFFSET;
    var bytes := Utf8(text);
    var i := 0;
    while i < |bytes|
      invariant 0 <= i <= |bytes| && h == Fnv(bytes[..i])
    {
      assert bytes[..i + 1][..i] == bytes[..i];
      PyStep(BitXor(h, bytes[i]) * PRIME);
      h := BitAnd(BitXor(h, bytes[i]) * PRIME, 0xFFFF_FFFF);
      i := i + 1;
    }
    assert bytes[..|bytes|] == bytes;
  }

  // ----- the window -----

  /** JavaScript's remainder, which takes the sign of the dividend. */
  function JsRem(a: int, m: nat): int
    requires m > 0
  {
    if a >= 0 then a % m else -((-a) % m)
  }

  function Jitter(hash: nat): (j: int)
    ensures -9 <= j <= 9 && (hash - (j + 9)) % 19 == 0
  {
    hash % 19 - JITTER
  }

  /** The first minute of the window. */
  function StartOf(hash: nat, anchor: int): (start: nat)
    ensures start < DAY
  {
    (anchor * 60 + Jitter(hash)) % DAY
  }

  method SleeperWindowFor(id: string, anchor: int, day: string) returns (startMinute: nat, endMinute: nat)
    ensures startMinute == StartOf(Fnv(Utf16(id + "|" + day)), anchor)
    ensures endMinute == (startMinute + 60) % 1440
  {
    var hash := JsFnv1a(id + "|" + day);
    var jitter := hash % (JITTER * 2 + 1) - JITTER;
    var raw := anchor * 60 + jitter;
    FloorOfRem(raw);
    startMinute := JsRem(JsRem(raw, DAY) + DAY, DAY);
    endMinute := (startMinute + SPAN) % DAY;
  }

  lemma FloorOfRem(raw: int)
    ensures JsRem(raw, DAY) + DAY >= 0 && JsRem(JsRem(raw, DAY) + DAY, DAY) == raw % DAY
  {
    if raw < 0 {
      var q, r := (-raw) / DAY, (-raw) % DAY;
      assert raw == -q * DAY - r;
      if r == 0 { DivModUnique(raw, DAY, -q, 0); } else { DivModUnique(raw, DAY, -q - 1, DAY - r); }
    }
  }

  /** The agent's membership test, as written. */
  predicate InWindow(start: nat, now: nat) {
    (start <= now < (start + SPAN) % DAY) || (start + SPAN > DAY && now < (start + SPAN) % DAY)
  }

  method AgentWakes(id: string, anchor: int, day: string, now: nat) returns (wakes: bool)
    ensures wakes == InWindow(StartOf(Fnv(Utf8(id + "|" + day)), anchor), now)
  {
    var h := PyFnv1a(id + "|" + day);
    wakes := AgentTest(h, anchor, now);
  }

  method AgentTest(h: nat, anchor: int, now: nat) returns (wakes: bool)
    ensures wakes == InWindow(StartOf(h, anchor), now)
  {
    var jitter := h % 19 - 9;
    var start := (anchor * 60 + jitter) % DAY;
    wakes := (start <= now < (start + 60) % DAY) || (start + 60 > DAY && now < (start + 60) % DAY);
  }

  /** Both sides compute the same window for every ASCII id and day, and every anchor. */
  lemma WindowsAgree(id: string, anchor: int, day: string)
    requires Ascii(id) && Ascii(day)
    ensures StartOf(Fnv(Utf8(id + "|" + day)), anchor) == StartOf(Fnv(Utf16(id + "|" + day)), anchor)
  {
    Utf8OfAscii(id + "|" + day);
  }

  /** The sixty minutes from the start, around midnight if need be. */
  predicate Meant(start: nat, now: nat) {
    (now - start) % 1440 < 60
  }

  /** What the agent's test accepts, exactly: the meant hour, but only its minutes past midnight from 23:00 on. */
  lemma AcceptedMinutes(start: nat, now: nat)
    requires start < DAY && now < DAY
    ensures InWindow(start, now) <==> if start < DAY - SPAN then Meant(start, now) else now < start - (DAY - SPAN)
  {
    if start < DAY - SPAN {
      if now < start { DivModUnique(now - start, DAY, -1, now - start + DAY); }
    }
  }

  /** The test is right at every minute of the day if and only if the window does not reach midnight. */
  lemma TestIsRightIff(start: nat)
    requires start < DAY
    ensures (forall now :: 0 <= now < DAY ==> (InWindow(start, now) <==> Meant(start, now))) <==> start < 23 * 60
  {
    if start < DAY - SPAN {
      forall now | 0 <= now < DAY ensures InWindow(start, now) <==> Meant(start, now) { AcceptedMinutes(start, now); }
    } else {
      AcceptedMinutes(start, start);
      assert Meant(start, start) && !InWindow(start, start);
    }
  }

  /** Which anchors are safe: 1 to 22 always, 0 unless the jitter is negative, 23 only if it is. */
  lemma SafeAnchors(hash: nat, anchor: int)
    requires 0 <= anchor <= 23
    ensures var safe := (anchor == 0 ==> Jitter(hash) >= 0) && (anchor == 23 ==> Jitter(hash) < 0);
      StartOf(hash, anchor) < 23 * 60 <==> safe
  {
    var raw := anchor * 60 + Jitter(hash);
    if raw < 0 { DivModUnique(raw, DAY, -1, raw + DAY); }
  }

  // ----- hourly polling -----

  /** How many of the first n polls of the day, at `phase` past each hour, fall in the window. */
  function Wakes(start: nat, phase: nat, n: nat): nat {
    if n == 0 then 0 else Wakes(start, phase, n - 1) + (if InWindow(start, phase + 60 * (n - 1)) then 1 else 0)
  }

  lemma {:induction false} CountsThePoll(start: nat, phase: nat, n: nat, hit: int)
    requires forall k :: 0 <= k < n ==> (InWindow(start, phase + 60 * k) <==> k == hit)
    ensures Wakes(start, phase, n) == if 0 <= hit < n then 1 else 0
    decreases n
  {
    if n > 0 { CountsThePoll(start, phase, n - 1, hit); }
  }

  /**
   * Polling at any fixed minute past each hour wakes exactly once a day, or never when the window is lost to
   * midnight.
   */
  lemma HourlyPollingWakesOnce(start: nat, phase: nat)
    requires start < DAY && phase < 60
    ensures Wakes(start, phase, 24) == if start < 23 * 60 || phase < start - 23 * 60 then 1 else 0
  {
    var late := start - (DAY - SPAN);
    var hit := if late < 0 then (start - phase + 59) / 60 else if phase < late then 0 else -1;
    forall k | 0 <= k < 24 ensures InWindow(start, phase + 60 * k) <==> k == hit {
      AcceptedMinutes(start, phase + 60 * k);
    }
    CountsThePoll(start, phase, 24, hit);
  }
}

/**
 * The fixed-window limiter.  A call is two database steps, an upsert that counts it and a later read of the
 * bucket; calls of any number of clients interleave between the two.
 */
module RateLimiter {
  import opened Numbers

  datatype Bucket = Bucket(window: int, hits: nat)

  /** A call between its upsert and its read. `rank` is the hit count its own upsert produced. */
  datatype Call = Call(key: string, now: int, window: int, rank: nat)

  datatype State = State(table: map<string, Bucket>, open: map<nat, Call>)

  datatype Event =
    | Upsert(id: nat, key: string, now: int)
    | Read(id: nat)

  const INIT := State(map[], map[])

  /** The window a time falls in; clocks are non-negative, so the remainder is the usual one. */
  function WindowOf(now: int, length: nat): int
    requires length > 0
  {
    now - now % length
  }

  /** The upsert: continue the stored window or start over at one hit. */
  function Hit(table: map<string, Bucket>, key: string, window: int): map<string, Bucket> {
    if key in table && table[key].window == window
    then table[key := Bucket(window, table[key].hits + 1)]
    else table[key := Bucket(window, 1)]
  }

  /** The answer a call computes from the row it reads back. */
  predicate Allowed(table: map<string, Bucket>, key: string, window: int, limit: nat) {
    key in table && table[key].window == window && table[key].hits <= limit
  }

  predicate Enabled(s: State, e: Event) {
    match e
    case Upsert(id, _, _) => id !in s.open
    case Read(id) => id in s.open
  }

  function Count(s: State, id: nat, key: string, now: int, window: int): State {
    var table := Hit(s.table, key, window);
    State(table, s.open[id := Call(key, now, window, table[key].hits)])
  }

  function Next(s: State, e: Event, length: nat): State
    requires length > 0 && Enabled(s, e)
  {
    match e
    case Upsert(id, key, now) => Count(s, id, key, now, WindowOf(now, length))
    case Read(id) => State(s.table, s.open - {id})
  }

  /** Upserts on a key reach the database in non-decreasing window order. */
  predicate InOrder(s: State, e: Event, length: nat)
    requires length > 0
  {
    e.Upsert? && e.key in s.table ==> s.table[e.key].window <= WindowOf(e.now, length)
  }

  /** Any interleaving. */
  predicate Run(s: State, es: seq<Event>, length: nat)
    requires length > 0
    decreases |es|
  {
    es == [] || (Enabled(s, es[0]) && Run(Next(s, es[0], length), es[1..], length))
  }

  predicate Ordered(s: State, es: seq<Event>, length: nat)
    requires length > 0 && Run(s, es, length)
    decreases |es|
  {
    es == [] || (InOrder(s, es[0], length) && Ordered(Next(s, es[0], length), es[1..], length))
  }

  /** The call read by this event belongs to `key` and one of the given windows and is allowed. */
  predicate Grants(s: State, e: Event, key: string, windows: set<int>, limit: nat)
    requires Enabled(s, e)
  {
    e.Read? && s.open[e.id].key == key && s.open[e.id].window in windows
    && Allowed(s.table, key, s.open[e.id].window, limit)
  }

  function GrantCount(s: State, es: seq<Event>, length: nat, key: string, windows: set<int>, limit: nat): nat
    requires length > 0 && Run(s, es, length)
    decreases |es|
  {
    if es == [] then 0
    else (if Grants(s, es[0], key, windows, limit) then 1 else 0)
         + GrantCount(Next(s, es[0], length), es[1..], length, key, windows, limit)
  }

  // ----- at most `limit` per window -----

  /** An open call's row is still at least as far as the call left it. */
  ghost predicate Inv(s: State) {
    forall id :: id in s.open ==>
      var c := s.open[id];
      c.key in s.table && c.window <= s.table[c.key].window
      && (s.table[c.key].window == c.window ==> c.rank <= s.table[c.key].hits)
  }

  /** Open calls that may still be granted: those ranked within the limit. */
  function Hopeful(s: State, key: string, w: int, limit: nat): set<nat> {
    set id | id in s.open && s.open[id].key == key && s.open[id].window == w && s.open[id].rank <= limit
  }

  /** Ranks within the limit that no upsert has taken yet. */
  function Untaken(s: State, key: string, w: int, limit: nat): nat {
    if key !in s.table || s.table[key].window < w then limit
    else if s.table[key].window == w && s.table[key].hits <= limit then limit - s.table[key].hits
    else 0
  }

  function Room(s: State, key: string, w: int, limit: nat): nat {
    |Hopeful(s, key, w, limit)| + Untaken(s, key, w, limit)
  }

  lemma InvStep(s: State, e: Event, length: nat)
    requires length > 0 && Enabled(s, e) && InOrder(s, e, length) && Inv(s)
    ensures Inv(Next(s, e, length))
  {
  }

  lemma HopefulAfterCount(s: State, id: nat, k: string, now: int, window: int, key: string, w: int, limit: nat)
    requires id !in s.open
    ensures var s' := Count(s, id, k, now, window);
      Hopeful(s', key, w, limit) == Hopeful(s, key, w, limit)
        + (if k == key && window == w && s'.table[k].hits <= limit then {id} else {})
  {
    var s' := Count(s, id, k, now, window);
    forall i
      ensures i in Hopeful(s', key, w, limit) <==>
        (i in Hopeful(s, key, w, limit) || (i == id && k == key && window == w && s'.table[k].hits <= limit))
    {
      if i != id && i in s'.open { assert s'.open[i] == s.open[i]; }
    }
  }

  /** Counting a call spends the rank it takes, so it never makes room. */
  lemma RoomAfterCount(s: State, id: nat, k: string, now: int, window: int, key: string, w: int, limit: nat)
    requires id !in s.open && (k in s.table ==> s.table[k].window <= window)
    ensures Room(Count(s, id, k, now, window), key, w, limit) <= Room(s, key, w, limit)
  {
    HopefulAfterCount(s, id, k, now, window, key, w, limit);
    assert id !in Hopeful(s, key, w, limit);
  }

  lemma HopefulAfterRead(s: State, id: nat, key: string, w: int, limit: nat)
    requires id in s.open
    ensures Hopeful(State(s.table, s.open - {id}), key, w, limit) == Hopeful(s, key, w, limit) - {id}
  {
  }

  lemma RoomAfterRead(s: State, e: Event, length: nat, key: string, w: int, limit: nat)
    requires length > 0 && Enabled(s, e) && Inv(s) && e.Read?
    ensures Room(Next(s, e, length), key, w, limit) + (if Grants(s, e, key, {w}, limit) then 1 else 0)
         <= Room(s, key, w, limit)
  {
    HopefulAfterRead(s, e.id, key, w, limit);
  }

  lemma {:induction false} GrantsFitRoom(s: State, es: seq<Event>, length: nat, key: string, w: int, limit: nat)
    requires length > 0 && Run(s, es, length) && Ordered(s, es, length) && Inv(s)
    ensures GrantCount(s, es, length, key, {w}, limit) <= Room(s, key, w, limit)
    decreases |es|
  {
    if es != [] {
      InvStep(s, es[0], length);
      if es[0].Upsert? {
        RoomAfterCount(s, es[0].id, es[0].key, es[0].now, WindowOf(es[0].now, length), key, w, limit);
      }
      else { RoomAfterRead(s, es[0], length, key, w, limit); }
      GrantsFitRoom(Next(s, es[0], length), es[1..], length, key, w, limit);
    }
  }

  /** Whatever the interleaving, at most `limit` calls per key and window answer true. */
  lemma AtMostLimitPerWindow(es: seq<Event>, length: nat, key: string, w: int, limit: nat)
    requires length > 0 && Run(INIT, es, length) && Ordered(INIT, es, length)
    ensures GrantCount(INIT, es, length, key, {w}, limit) <= limit
  {
    GrantsFitRoom(INIT, es, length, key, w, limit);
    assert Hopeful(INIT, key, w, limit) == {};
  }

  // ----- at most twice `limit` in any span of one window length -----

  /** Allowed calls whose clock reading lies in [from, from + length). */
  predicate GrantsInSpan(s: State, e: Event, length: nat, key: string, from: int, limit: nat)
    requires Enabled(s, e)
  {
    e.Read? && s.open[e.id].key == key && from <= s.open[e.id].now < from + length
    && Allowed(s.table, key, s.open[e.id].window, limit)
  }

  function SpanCount(s: State, es: seq<Event>, length: nat, key: string, from: int, limit: nat): nat
    requires length > 0 && Run(s, es, length)
    decreases |es|
  {
    if es == [] then 0
    else (if GrantsInSpan(s, es[0], length, key, from, limit) then 1 else 0)
         + SpanCount(Next(s, es[0], length), es[1..], length, key, from, limit)
  }

  ghost predicate Clocked(s: State, length: nat)
    requires length > 0
  {
    forall id :: id in s.open ==> s.open[id].window == WindowOf(s.open[id].now, length)
  }

  lemma SpanTouchesTwoWindows(now: int, from: int, length: nat)
    requires length > 0 && from <= now < from + length
    ensures WindowOf(now, length) == WindowOf(from, length) || WindowOf(now, length) == WindowOf(from, length) + length
  {
    var q, r, k := from / length, from % length, now - from;
    assert from == q * length + r;
    if r + k < length {
      DivModUnique(now, length, q, r + k);
    } else {
      assert now == (q + 1) * length + (r + k - length);
      DivModUnique(now, length, q + 1, r + k - length);
    }
  }

  lemma {:induction false} SpanSplits(s: State, es: seq<Event>, length: nat, key: string, from: int, limit: nat)
    requires length > 0 && Run(s, es, length) && Clocked(s, length)
    ensures var w := WindowOf(from, length);
      SpanCount(s, es, length, key, from, limit)
        <= GrantCount(s, es, length, key, {w}, limit) + GrantCount(s, es, length, key, {w + length}, limit)
    decreases |es|
  {
    if es != [] {
      if GrantsInSpan(s, es[0], length, key, from, limit) {
        SpanTouchesTwoWindows(s.open[es[0].id].now, from, length);
      }
      SpanSplits(Next(s, es[0], length), es[1..], length, key, from, limit);
    }
  }

  lemma AtMostTwiceLimitPerSpan(es: seq<Event>, length: nat, key: string, from: int, limit: nat)
    requires length > 0 && Run(INIT, es, length) && Ordered(INIT, es, length)
    ensures SpanCount(INIT, es, length, key, from, limit) <= 2 * limit
  {
    var w := WindowOf(from, length);
    SpanSplits(INIT, es, length, key, from, limit);
    AtMostLimitPerWindow(es, length, key, w, limit);
    AtMostLimitPerWindow(es, length, key, w + length, limit);
  }

  // ----- without the order -----

  /** The upsert takes the row of `key` into window `w` from elsewhere. */
  predicate Enters(s: State, e: Event, length: nat, key: string, w: int)
    requires length > 0
  {
    e.Upsert? && e.key == key && WindowOf(e.now, length) == w && !(key in s.table && s.table[key].window == w)
  }

  function EntryCount(s: State, es: seq<Event>, length: nat, key: string, w: int): nat
    requires length > 0 && Run(s, es, length)
    decreases |es|
  {
    if es == [] then 0
    else (if Enters(s, es[0], length, key, w) then 1 else 0)
         + EntryCount(Next(s, es[0], length), es[1..], length, key, w)
  }

  /** Whenever the window is entered, no call of it still waits for its read. */
  ghost predicate Drained(s: State, es: seq<Event>, length: nat, key: string, w: int)
    requires length > 0 && Run(s, es, length)
    decreases |es|
  {
    es == []
    || ((Enters(s, es[0], length, key, w) ==> Waiting(s, key, w) == {})
        && Drained(Next(s, es[0], length), es[1..], length, key, w))
  }

  function Waiting(s: State, key: string, w: int): set<nat> {
    set id | id in s.open && s.open[id].key == key && s.open[id].window == w
  }

  /** An open call of the window ranks no higher than the row's hits while the row is in the window. */
  ghost predicate Ranked(s: State, key: string, w: int) {
    key in s.table && s.table[key].window == w ==>
      forall id :: id in Waiting(s, key, w) ==> s.open[id].rank <= s.table[key].hits
  }

  /** Ranks still to be taken before the row leaves the window. */
  function LeftNow(s: State, key: string, w: int, limit: nat): nat {
    if key in s.table && s.table[key].window == w && s.table[key].hits <= limit then limit - s.table[key].hits else 0
  }

  lemma RankedStep(s: State, e: Event, length: nat, key: string, w: int)
    requires length > 0 && Enabled(s, e) && Ranked(s, key, w)
    requires Enters(s, e, length, key, w) ==> Waiting(s, key, w) == {}
    ensures Ranked(Next(s, e, length), key, w)
  {
    var t := Next(s, e, length);
    forall id | id in Waiting(t, key, w) && key in t.table && t.table[key].window == w
      ensures t.open[id].rank <= t.table[key].hits
    {
      if id in s.open && (e.Upsert? ==> id != e.id) { assert t.open[id] == s.open[id] && id in Waiting(s, key, w); }
    }
  }

  lemma LeftStep(s: State, e: Event, length: nat, key: string, w: int, limit: nat)
    requires length > 0 && Enabled(s, e) && Ranked(s, key, w)
    ensures var t := Next(s, e, length);
      |Hopeful(t, key, w, limit)| + LeftNow(t, key, w, limit) + (if Grants(s, e, key, {w}, limit) then 1 else 0)
        <= |Hopeful(s, key, w, limit)| + LeftNow(s, key, w, limit)
           + (if Enters(s, e, length, key, w) then limit else 0)
  {
    if e.Upsert? {
      HopefulAfterCount(s, e.id, e.key, e.now, WindowOf(e.now, length), key, w, limit);
      assert e.id !in Hopeful(s, key, w, limit);
    } else {
      HopefulAfterRead(s, e.id, key, w, limit);
      if Grants(s, e, key, {w}, limit) { assert e.id in Waiting(s, key, w) && e.id in Hopeful(s, key, w, limit); }
    }
  }

  lemma EntriesAdd(limit: nat, n: nat)
    ensures limit * (n + 1) == limit * n + limit
  {
  }

  lemma {:induction false} GrantsPerEntryFrom(s: State, es: seq<Event>, length: nat, key: string, w: int, limit: nat)
    requires length > 0 && Run(s, es, length) && Drained(s, es, length, key, w) && Ranked(s, key, w)
    ensures GrantCount(s, es, length, key, {w}, limit)
         <= |Hopeful(s, key, w, limit)| + LeftNow(s, key, w, limit) + limit * EntryCount(s, es, length, key, w)
    decreases |es|
  {
    if es != [] {
      RankedStep(s, es[0], length, key, w);
      LeftStep(s, es[0], length, key, w, limit);
      GrantsPerEntryFrom(Next(s, es[0], length), es[1..], length, key, w, limit);
      EntriesAdd(limit, EntryCount(Next(s, es[0], length), es[1..], length, key, w));
    }
  }

  /**
   * Without the order, if calls are read before their window is entered anew, at most `limit` calls pass for every time
   * it is entered.
   */
  lemma GrantsPerEntry(es: seq<Event>, length: nat, key: string, w: int, limit: nat)
    requires length > 0 && Run(INIT, es, length) && Drained(INIT, es, length, key, w)
    ensures GrantCount(INIT, es, length, key, {w}, limit) <= limit * EntryCount(INIT, es, length, key, w)
  {
    GrantsPerEntryFrom(INIT, es, length, key, w, limit);
    assert Hopeful(INIT, key, w, limit) == {};
  }

  /** Reads of the calls below m. */
  function Reads(m: nat): seq<Event> {
    if m == 0 then [] else [Read(m - 1)] + Reads(m - 1)
  }

  /** Calls i to n - 1 are counted, then a late call of another window, then one more; the first n are read. */
  function Flood(i: nat, n: nat, key: string, now: int, late: int): seq<Event>
    requires i <= n
    decreases n - i
  {
    if i < n then [Upsert(i, key, now)] + Flood(i + 1, n, key, now, late)
    else [Upsert(n, key, late)] + ([Upsert(n + 1, key, now)] + Reads(n))
  }

  /** The calls below m are open, in window w. */
  ghost predicate AllOpen(s: State, m: nat, key: string, w: int) {
    forall id: nat :: id < m ==> id in s.open && s.open[id].key == key && s.open[id].window == w
  }

  /** A run in which n calls pass although the window is entered `entries` times. */
  ghost predicate Passes(s: State, es: seq<Event>, length: nat, key: string, w: int, limit: nat, n: nat, entries: nat)
    requires length > 0
  {
    && Run(s, es, length)
    && GrantCount(s, es, length, key, {w}, limit) == n && EntryCount(s, es, length, key, w) == entries
  }

  lemma {:induction false} ReadsPass(s: State, m: nat, length: nat, key: string, w: int, limit: nat)
    requires length > 0 && AllOpen(s, m, key, w) && Allowed(s.table, key, w, limit)
    ensures Passes(s, Reads(m), length, key, w, limit, m, 0)
    decreases m
  {
    if m > 0 {
      assert Reads(m)[1..] == Reads(m - 1);
      ReadsPass(Next(s, Read(m - 1), length), m - 1, length, key, w, limit);
    }
  }

  lemma Upserts(s: State, e: Event, es: seq<Event>, length: nat, key: string, w: int, limit: nat, n: nat, entries: nat)
    requires length > 0 && Enabled(s, e) && e.Upsert?
    requires Passes(Next(s, e, length), es, length, key, w, limit, n, entries)
    ensures Passes(s, [e] + es, length, key, w, limit, n, entries + (if Enters(s, e, length, key, w) then 1 else 0))
  {
    assert ([e] + es)[1..] == es;
  }

  lemma FloodEnds(s: State, n: nat, length: nat, key: string, now: int, late: int, limit: nat)
    requires length > 0 && limit > 0 && WindowOf(late, length) != WindowOf(now, length)
    requires AllOpen(s, n, key, WindowOf(now, length)) && n !in s.open && n + 1 !in s.open
    ensures Passes(s, Flood(n, n, key, now, late), length, key, WindowOf(now, length), limit, n, 1)
  {
    var w := WindowOf(now, length);
    var t := Next(s, Upsert(n, key, late), length);
    var u := Next(t, Upsert(n + 1, key, now), length);
    ReadsPass(u, n, length, key, w, limit);
    Upserts(t, Upsert(n + 1, key, now), Reads(n), length, key, w, limit, n, 0);
    Upserts(s, Upsert(n, key, late), [Upsert(n + 1, key, now)] + Reads(n), length, key, w, limit, n, 1);
  }

  lemma {:induction false} Floods(s: State, i: nat, n: nat, length: nat, key: string, now: int, late: int, limit: nat)
    requires i <= n && n > 0 && length > 0 && limit > 0 && WindowOf(late, length) != WindowOf(now, length)
    requires AllOpen(s, i, key, WindowOf(now, length)) && forall id :: id in s.open ==> id < i
    requires key in s.table && s.table[key].window == WindowOf(now, length) <==> i > 0
    ensures Passes(s, Flood(i, n, key, now, late), length, key, WindowOf(now, length), limit, n, if i > 0 then 1 else 2)
    decreases n - i
  {
    if i < n {
      var e := Upsert(i, key, now);
      Floods(Next(s, e, length), i + 1, n, length, key, now, late, limit);
      Upserts(s, e, Flood(i + 1, n, key, now, late), length, key, WindowOf(now, length), limit, n, 1);
    } else {
      FloodEnds(s, n, length, key, now, late, limit);
    }
  }

  /**
   * The hypotheses are needed, and no bound is left without them: with one late upsert, any number n of calls that
   * still wait for their reads pass in one window, whatever the limit, though the window is entered only twice.
   */
  lemma LateUpsertDefeatsLimit(n: nat, length: nat, key: string, now: int, late: int, limit: nat)
    requires n > 0 && length > 0 && limit > 0 && WindowOf(late, length) != WindowOf(now, length)
    ensures Passes(INIT, Flood(0, n, key, now, late), length, key, WindowOf(now, length), limit, n, 2)
  {
    Floods(INIT, 0, n, length, key, now, late, limit);
  }

  // ----- the object and sequential use -----

  class Limiter {
    var table: map<string, Bucket>

    constructor ()
      ensures table == map[]
    {
      table := map[];
    }

    method UpsertRow(key: string, window: int)
      modifies this
      ensures table == Hit(old(table), key, window)
    {
      if key in table {
        var row := table[key];
        table := table[key := Bucket(if row.window == window then row.window else window,
                                     if row.window == window then row.hits + 1 else 1)];
      } else {
        table := table[key := Bucket(window, 1)];
      }
    }

    method RateLimit(key: string, limit: nat, length: nat, now: int) returns (ok: bool)
      requires length > 0
      modifies this
      ensures table == Hit(old(table), key, WindowOf(now, length))
      ensures ok == Allowed(table, key, WindowOf(now, length), limit)
    {
      var window := now - now % length;
      UpsertRow(key, window);
      ok := key in table && table[key].window == window && table[key].hits <= limit;
    }

    /** `n` calls one after the other in one window no earlier call has used: exactly min(n, limit) pass. */
    method Sequence(key: string, limit: nat, length: nat, times: seq<int>) returns (granted: nat)
      requires length > 0 && times != []
      requires forall i :: 0 <= i < |times| ==> WindowOf(times[i], length) == WindowOf(times[0], length)
      requires key in table ==> table[key].window != WindowOf(times[0], length)
      modifies this
      ensures granted == if |times| <= limit then |times| else limit
    {
      granted := 0;
      var w := WindowOf(times[0], length);
      var i := 0;
      while i < |times|
        invariant 0 <= i <= |times|
        invariant granted == if i <= limit then i else limit
        invariant if i == 0 then key in table ==> table[key].window != w
                  else key in table && table[key] == Bucket(w, i)
      {
        var ok := RateLimit(key, limit, length, times[i]);
        if ok { granted := granted + 1; }
        i := i + 1;
      }
    }
  }
}

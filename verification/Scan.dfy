/**
 * The resumable resolver scan: bounded ticks move a stored cursor through the range, sixteen addresses a
 * wave, until a time budget runs out.  It refines "probe the next addresses, each once, in order".
 */
module Scan {
  import opened Options
  import opened Numbers
  import opened Cidr

  const WAVE := 16

  datatype Verdict = Healthy | Fake | Wrong | Unreachable

  datatype Probe = Probe(verdict: Verdict, rtt: Option<nat>)

  datatype Row = Row(ip: string, probe: Probe)

  datatype Counts = Counts(healthy: nat, fake: nat, wrong: nat, unreachable: nat)
  {
    function Sum(): nat { healthy + fake + wrong + unreachable }
  }

  datatype Progress = Progress(scanned: nat, total: nat, counts: Counts)

  datatype TickReport = TickReport(done: bool, progress: Progress)

  /** One tick: how many waves its budget covers, and what the network answers for the i-th address meanwhile. */
  datatype Tick = Tick(waves: nat, net: nat -> Probe)

  // ----- the abstract scan -----

  /** The rows of the addresses lo to hi, each probed once. */
  function Probed(ips: seq<string>, net: nat -> Probe, lo: nat, hi: nat): (rows: seq<Row>)
    requires lo <= hi <= |ips|
    ensures |rows| == hi - lo
    decreases hi
  {
    if lo == hi then [] else Probed(ips, net, lo, hi - 1) + [Row(ips[hi - 1], net(hi - 1))]
  }

  lemma {:induction false} ProbedAt(ips: seq<string>, net: nat -> Probe, lo: nat, hi: nat, i: nat)
    requires lo <= i < hi <= |ips|
    ensures Probed(ips, net, lo, hi)[i - lo] == Row(ips[i], net(i))
    decreases hi
  {
    if i < hi - 1 { ProbedAt(ips, net, lo, hi - 1, i); }
  }

  lemma {:induction false} ProbedJoin(ips: seq<string>, net: nat -> Probe, lo: nat, mid: nat, hi: nat)
    requires lo <= mid <= hi <= |ips|
    ensures Probed(ips, net, lo, mid) + Probed(ips, net, mid, hi) == Probed(ips, net, lo, hi)
    decreases hi
  {
    if mid < hi {
      ProbedJoin(ips, net, lo, mid, hi - 1);
    }
  }

  /** Rows of the present round; a finished round starts over. */
  function Opened(rows: seq<Row>, total: nat): seq<Row> {
    if |rows| == total then [] else rows
  }

  /** Probe the next addresses, each once, in order. */
  function Advance(rows: seq<Row>, ips: seq<string>, t: Tick): (r: seq<Row>)
    requires |rows| <= |ips|
    ensures |r| <= |ips|
  {
    var open := Opened(rows, |ips|);
    open + Probed(ips, t.net, |open|, Min(|ips|, |open| + WAVE * t.waves))
  }

  function AdvanceAll(rows: seq<Row>, ips: seq<string>, ticks: seq<Tick>): (r: seq<Row>)
    requires |rows| <= |ips|
    ensures |r| <= |ips|
    decreases |ticks|
  {
    if ticks == [] then rows else AdvanceAll(Advance(rows, ips, ticks[0]), ips, ticks[1..])
  }

  function Counted(c: Counts, v: Verdict): Counts {
    match v
    case Healthy => c.(healthy := c.healthy + 1)
    case Fake => c.(fake := c.fake + 1)
    case Wrong => c.(wrong := c.wrong + 1)
    case Unreachable => c.(unreachable := c.unreachable + 1)
  }

  function Tally(rows: seq<Row>): Counts {
    if rows == [] then Counts(0, 0, 0, 0)
    else Counted(Tally(rows[..|rows| - 1]), rows[|rows| - 1].probe.verdict)
  }

  function Having(rows: seq<Row>, v: Verdict): seq<Row> {
    if rows == [] then []
    else Having(rows[..|rows| - 1], v) + (if rows[|rows| - 1].probe.verdict == v then [rows[|rows| - 1]] else [])
  }

  /** The four counters together count every row once. */
  lemma {:induction false} TallySums(rows: seq<Row>)
    ensures Tally(rows).Sum() == |rows|
  {
    if rows != [] { TallySums(rows[..|rows| - 1]); }
  }

  function CountFor(c: Counts, v: Verdict): nat {
    match v
    case Healthy => c.healthy
    case Fake => c.fake
    case Wrong => c.wrong
    case Unreachable => c.unreachable
  }

  /** Each counter is the number of rows with its verdict. */
  lemma {:induction false} TallyCounts(rows: seq<Row>, v: Verdict)
    ensures CountFor(Tally(rows), v) == |Having(rows, v)|
  {
    if rows != [] {
      TallyCounts(rows[..|rows| - 1], v);
    }
  }

  lemma TallyPush(rows: seq<Row>, row: Row)
    ensures Tally(rows + [row]) == Counted(Tally(rows), row.probe.verdict)
  {
    assert (rows + [row])[..|rows|] == rows;
  }

  /** The stored rows name the addresses below the cursor, each once and in order. */
  ghost predicate InOrder(rows: seq<Row>, ips: seq<string>) {
    |rows| <= |ips| && forall i :: 0 <= i < |rows| ==> rows[i].ip == ips[i]
  }

  lemma OneTickInOrder(rows: seq<Row>, ips: seq<string>, t: Tick)
    requires InOrder(rows, ips)
    ensures InOrder(Advance(rows, ips, t), ips)
  {
    var open, next := Opened(rows, |ips|), Advance(rows, ips, t);
    forall i | 0 <= i < |next| ensures next[i].ip == ips[i] {
      if i >= |open| { ProbedAt(ips, t.net, |open|, |next|, i); }
    }
  }

  /** Any sequence of ticks with any budgets keeps rows and addresses in one-to-one correspondence. */
  lemma {:induction false} RowsMatchAddresses(rows: seq<Row>, ips: seq<string>, ticks: seq<Tick>)
    requires InOrder(rows, ips)
    ensures InOrder(AdvanceAll(rows, ips, ticks), ips)
    decreases |ticks|
  {
    if ticks != [] {
      OneTickInOrder(rows, ips, ticks[0]);
      RowsMatchAddresses(Advance(rows, ips, ticks[0]), ips, ticks[1..]);
    }
  }

  /** Against a network that answers steadily, any slicing into ticks gives the rows of a single pass. */
  lemma {:induction false} SlicingIsInvisible(n: nat, ips: seq<string>, ticks: seq<Tick>, net: nat -> Probe)
    requires n <= |ips|
    requires forall k :: 0 <= k < |ticks| ==> ticks[k].net == net
    ensures var r := AdvanceAll(Probed(ips, net, 0, n), ips, ticks); r == Probed(ips, net, 0, |r|)
    decreases |ticks|
  {
    if ticks != [] {
      var rows := Probed(ips, net, 0, n);
      var open, next := Opened(rows, |ips|), Advance(rows, ips, ticks[0]);
      ProbedJoin(ips, net, 0, |open|, |next|);
      SlicingIsInvisible(|next|, ips, ticks[1..], net);
    }
  }

  lemma AddWave(ips: seq<string>, net: nat -> Probe, open: seq<Row>, at: nat, rows: seq<Row>, wave: seq<Row>)
    requires |open| <= at && at + |wave| <= |ips|
    requires rows == open + Probed(ips, net, |open|, at) && wave == Probed(ips, net, at, at + |wave|)
    ensures rows + wave == open + Probed(ips, net, |open|, at + |wave|)
  {
    ProbedJoin(ips, net, |open|, at, at + |wave|);
  }

  // ----- the stored range -----

  /** One wave: probe its addresses and count them, building the rows of one batch insert. */
  method ProbeWave(ips: seq<string>, net: nat -> Probe, from: nat, p0: Progress, ghost before: seq<Row>)
    returns (wave: seq<Row>, p: Progress)
    requires from < |ips| && p0.counts == Tally(before)
    ensures from + |wave| == Min(|ips|, from + 16) && wave == Probed(ips, net, from, from + |wave|)
    ensures p.counts == Tally(before + wave) && p.scanned == p0.scanned + |wave| && p.total == p0.total
  {
    wave, p := [], p0;
    assert before + wave == before;
    var end := Min(|ips|, from + WAVE);
    var at := from;
    while at < end
      invariant from <= at <= end
      invariant wave == Probed(ips, net, from, at)
      invariant p.counts == Tally(before + wave) && p.scanned == p0.scanned + (at - from) && p.total == p0.total
    {
      var row := Row(ips[at], net(at));
      TallyPush(before + wave, row);
      assert before + wave + [row] == before + (wave + [row]);
      wave := wave + [row];
      p := Progress(p.scanned + 1, p.total, Counted(p.counts, row.probe.verdict));
      at := at + 1;
    }
  }

  method ParseStable(input: string) returns (parsed: Option<Range>)
    ensures parsed == CidrOf(input) && (parsed.Some? ==> CidrOf(parsed.value.cidr) == parsed)
  {
    parsed := ParseCidr(input);
    if parsed.Some? { ReparseIsIdentity(input); }
  }

  class Scanner {
    var cidr: string
    var cursor: nat
    var results: seq<Row>

    /** The table stores exactly the round's rows below the cursor, and the cursor is 0 between rounds. */
    ghost predicate Stores(ips: seq<string>, rows: seq<Row>)
      reads this
    {
      |rows| <= |ips| && results == rows && cursor == if |rows| == |ips| then 0 else |rows|
    }

    /** `replaceScanRange`: the canonical text is stored, and names the same addresses in the same order. */
    method Replace(input: string) returns (parsed: Option<Range>)
      modifies this
      ensures parsed == CidrOf(input)
      ensures if parsed.Some? then Stores(parsed.value.ips, []) && CidrOf(cidr) == parsed else unchanged(this)
    {
      parsed := ParseStable(input);
      if parsed.Some? { cidr, cursor, results := parsed.value.cidr, 0, []; }
    }

    /** The tally of the stored rows, as the `GROUP BY verdict` query and its loop give it. */
    method TallyStored() returns (c: Counts)
      ensures c == Tally(results)
    {
      c := Counts(0, 0, 0, 0);
      var i := 0;
      while i < |results|
        invariant 0 <= i <= |results|
        invariant c == Tally(results[..i])
      {
        TallyPush(results[..i], results[i]);
        assert results[..i + 1] == results[..i] + [results[i]];
        c := Counted(c, results[i].probe.verdict);
        i := i + 1;
      }
      assert results[..|results|] == results;
    }

    /**
     * A tick by the only ticker.  It stores the next rows, reports a tally that adds up, and says `done`
     * exactly when every address of the range has its row.
     */
    method ScanSlice(ips: seq<string>, t: Tick, ghost rows: seq<Row>) returns (done: bool, p: Progress)
      requires Stores(ips, rows)
      modifies this`cursor, this`results
      ensures Stores(ips, Advance(rows, ips, t))
      ensures done <==> |Advance(rows, ips, t)| == |ips|
      ensures p == Progress(|results|, |ips|, Tally(results)) && p.counts.Sum() == p.scanned
    {
      if cursor == 0 { results := []; }
      ghost var open := Opened(rows, |ips|);
      var counts := TallyStored();
      p := RunWaves(ips, t, Progress(cursor, |ips|, counts), open);
      done := cursor >= |ips|;
      if done { cursor := 0; }
      TallySums(results);
    }

    /** The loop of waves: `cursor` follows every batch. */
    method RunWaves(ips: seq<string>, t: Tick, p0: Progress, ghost open: seq<Row>) returns (p: Progress)
      requires results == open && cursor == |open| <= |ips| && p0 == Progress(|open|, |ips|, Tally(open))
      modifies this`cursor, this`results
      ensures cursor == Min(|ips|, |open| + WAVE * t.waves) && |open| <= cursor
      ensures results == open + Probed(ips, t.net, |open|, cursor)
      ensures p == Progress(cursor, |ips|, Tally(results))
    {
      p := p0;
      var at, left := cursor, t.waves;
      while at < |ips| && left > 0
        invariant 0 <= left <= t.waves && |open| <= at == Min(|ips|, |open| + WAVE * (t.waves - left))
        invariant cursor == at && results == open + Probed(ips, t.net, |open|, at)
        invariant p.counts == Tally(results) && p.scanned == at && p.total == |ips|
        decreases left
      {
        var wave;
        wave, p := ProbeWave(ips, t.net, at, p, results);
        AddWave(ips, t.net, open, at, results, wave);
        results := results + wave;
        at, left := at + |wave|, left - 1;
        cursor := at;
      }
    }

    /**
     * `runScanTick`: parse the stored text, then scan its slice; None where a stored text that names no range
     * throws.
     */
    method RunScanTick(t: Tick, ghost rows: seq<Row>) returns (r: Option<TickReport>)
      requires CidrOf(cidr).Some? ==> Stores(CidrOf(cidr).value.ips, rows)
      modifies this`cursor, this`results
      ensures r.Some? <==> CidrOf(cidr).Some?
      ensures r.None? ==> cursor == old(cursor) && results == old(results)
      ensures r.Some? ==>
        var ips := CidrOf(cidr).value.ips;
        && |rows| <= |ips| && Stores(ips, Advance(rows, ips, t))
        && (r.value.done <==> |Advance(rows, ips, t)| == |ips|)
        && r.value.progress == Progress(|results|, |ips|, Tally(results))
        && r.value.progress.counts.Sum() == r.value.progress.scanned
    {
      var parsed := ParseCidr(cidr);
      if parsed.None? { return None; }
      var done, p := ScanSlice(parsed.value.ips, t, rows);
      r := Some(TickReport(done, p));
    }

    /** One range of `scanDueRanges`: groups of eight, each row inserted by itself, and no row ever deleted. */
    method ProbeDue(ips: seq<string>, net: nat -> Probe)
      requires cursor < |ips|
      modifies this`cursor, this`results
      ensures results == old(results) + Probed(ips, net, old(cursor), Min(|ips|, old(cursor) + 128))
      ensures cursor == AfterPass(ips, old(cursor)) == if old(cursor) + 128 < |ips| then old(cursor) + 128 else 0
    {
      var at, end := cursor, Min(|ips|, cursor + CHUNK);
      assert old(results) + [] == old(results);
      while at < end
        invariant cursor == old(cursor) <= at <= end
        invariant results == old(results) + Probed(ips, net, old(cursor), at)
      {
        var group := Min(end, at + 8);
        while at < group
          invariant cursor == old(cursor) <= at <= group <= end
          invariant results == old(results) + Probed(ips, net, old(cursor), at)
        {
          InsertRow(ips, net, old(results), old(cursor), at);
          results := results + [Row(ips[at], net(at))];
          at := at + 1;
        }
      }
      cursor := if end >= |ips| then 0 else end;
    }
  }

  const CHUNK := 128

  function DueEnd(ips: seq<string>, cursor: nat): nat
    requires cursor < |ips|
  {
    Min(|ips|, cursor + CHUNK)
  }

  /** The stored cursor after a cron pass. */
  function AfterPass(ips: seq<string>, cursor: nat): (next: nat)
    requires cursor < |ips|
    ensures next < |ips|
  {
    if DueEnd(ips, cursor) == |ips| then 0 else DueEnd(ips, cursor)
  }

  lemma InsertRow(ips: seq<string>, net: nat -> Probe, before: seq<Row>, lo: nat, at: nat)
    requires lo <= at < |ips|
    ensures before + Probed(ips, net, lo, at + 1) == before + Probed(ips, net, lo, at) + [Row(ips[at], net(at))]
  {
  }
}

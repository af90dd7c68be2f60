/**
 * Two whole-round views of the scan: the summary read back from the table, and the step machine of ticks that
 * may be cut off between any two database writes.
 */
module ScanRounds {
  import opened Options
  import opened Numbers
  import opened Sorting
  import opened Scan

  // ----- the summary of a stored round -----

  const TOP := 8
  const NO_RTT := 9999

  datatype Summary = Summary(total: nat, counts: Counts, top: seq<Row>)

  /** The sort key: the round-trip time, or 9999 where there is none. */
  function Key(row: Row): real {
    match row.probe.rtt
    case Some(ms) => ms as real
    case None => NO_RTT as real
  }

  /** By round-trip time, one that is missing counting as 9999 ms. */
  predicate NotSlower(a: Probe, b: Probe) {
    match (a.rtt, b.rtt)
    case (Some(x), Some(y)) => x <= y
    case (Some(x), None) => x <= 9999
    case (None, Some(y)) => 9999 <= y
    case (None, None) => true
  }

  ghost predicate InOrderOfTime(top: seq<Row>) {
    forall i, j :: 0 <= i < j < |top| ==> NotSlower(top[i].probe, top[j].probe)
  }

  ghost predicate AllNotSlower(top: seq<Row>, rest: seq<Row>) {
    forall i, j :: 0 <= i < |top| && 0 <= j < |rest| ==> NotSlower(top[i].probe, rest[j].probe)
  }

  lemma ByTime(top: seq<Row>, rest: seq<Row>)
    requires Sorted(top, Key) && Slower(top, rest)
    ensures InOrderOfTime(top) && AllNotSlower(top, rest)
  {
    forall i, j | 0 <= i < j < |top| ensures NotSlower(top[i].probe, top[j].probe) {
      assert Key(top[i]) <= Key(top[j]);
    }
    forall i, j | 0 <= i < |top| && 0 <= j < |rest| ensures NotSlower(top[i].probe, rest[j].probe) {
      assert Key(top[i]) <= Key(rest[j]);
    }
  }

  /** `rangeRoundSummary`: tally the rows, and keep the eight fastest healthy ones. */
  method RangeRoundSummary(stored: seq<Row>) returns (s: Summary, ghost rest: seq<Row>)
    ensures s.total == |stored| == s.counts.Sum()
    ensures forall v :: CountFor(s.counts, v) == |Having(stored, v)|
    ensures |s.top| == Min(8, s.counts.healthy)
    ensures multiset(s.top) + multiset(rest) == multiset(Having(stored, Healthy))
    ensures InOrderOfTime(s.top) && AllNotSlower(s.top, rest)
  {
    var counts, top := Counts(0, 0, 0, 0), [];
    var i := 0;
    while i < |stored|
      invariant 0 <= i <= |stored|
      invariant counts == Tally(stored[..i]) && top == Having(stored[..i], Healthy)
    {
      assert stored[..i + 1][..i] == stored[..i];
      if stored[i].probe.verdict == Healthy { top := top + [stored[i]]; }
      counts := Counted(counts, stored[i].probe.verdict);
      i := i + 1;
    }
    assert stored[..|stored|] == stored;
    CountsOfRows(stored);
    assert CountFor(counts, Healthy) == |top|;
    var best;
    best, rest := Fastest(top);
    s := Summary(|stored|, counts, best);
  }

  lemma CountsOfRows(rows: seq<Row>)
    ensures Tally(rows).Sum() == |rows|
    ensures forall v :: CountFor(Tally(rows), v) == |Having(rows, v)|
  {
    TallySums(rows);
    forall v ensures CountFor(Tally(rows), v) == |Having(rows, v)| { TallyCounts(rows, v); }
  }

  /** The sort and the cut. */
  method Fastest(rows: seq<Row>) returns (top: seq<Row>, ghost rest: seq<Row>)
    ensures |top| == Min(8, |rows|) && multiset(top) + multiset(rest) == multiset(rows)
    ensures InOrderOfTime(top) && AllNotSlower(top, rest)
  {
    SortSorts(rows, Key);
    var sorted := Sort(rows, Key);
    var n := Min(TOP, |sorted|);
    SplitSorted(sorted, n);
    top, rest := sorted[..n], sorted[n..];
    ByTime(top, rest);
  }

  ghost predicate Slower(top: seq<Row>, rest: seq<Row>) {
    forall i, j :: 0 <= i < |top| && 0 <= j < |rest| ==> Key(top[i]) <= Key(rest[j])
  }

  lemma SplitSorted(rows: seq<Row>, n: nat)
    requires n <= |rows| && Sorted(rows, Key)
    ensures Sorted(rows[..n], Key) && Slower(rows[..n], rows[n..])
    ensures multiset(rows[..n]) + multiset(rows[n..]) == multiset(rows)
  {
    assert rows == rows[..n] + rows[n..];
  }

  // ----- ticks that may be cut off -----

  /** The ticker between two database calls: reading, or holding an inserted wave whose cursor is not yet stored. */
  datatype Ticker = Idle | Probing(at: nat) | Landed(from: nat, at: nat)

  /** `covered` and `orphans` are bookkeeping: addresses committed this round, and rows of waves never committed. */
  datatype Store = Store(cursor: nat, table: seq<Row>, ticker: Ticker, covered: nat, orphans: int)

  datatype Step = Open | Batch(net: nat -> Probe) | Commit | Pause | Finish | Kill

  predicate Enabled(s: Store, n: nat, a: Step) {
    match a
    case Open => s.ticker.Idle?
    case Batch(_) => s.ticker.Probing? && s.ticker.at < n
    case Commit => s.ticker.Landed?
    case Pause => s.ticker.Probing? && s.ticker.at < n
    case Finish => s.ticker.Probing? && s.ticker.at >= n
    case Kill => !s.ticker.Idle?
  }

  function Do(s: Store, ips: seq<string>, a: Step): Store
    requires Enabled(s, |ips|, a)
  {
    match a
    case Open =>
      if s.cursor == 0 then Store(0, [], Probing(0), 0, 0) else s.(ticker := Probing(s.cursor))
    case Batch(net) =>
      var end := Min(|ips|, s.ticker.at + WAVE);
      s.(table := s.table + Probed(ips, net, s.ticker.at, end), ticker := Landed(s.ticker.at, end))
    case Commit => s.(cursor := s.ticker.at, covered := s.ticker.at, ticker := Probing(s.ticker.at))
    case Pause => s.(ticker := Idle)
    case Finish => s.(cursor := 0, ticker := Idle)
    case Kill =>
      if s.ticker.Landed? then s.(ticker := Idle, orphans := s.orphans + (s.ticker.at - s.ticker.from))
      else s.(ticker := Idle)
  }

  predicate ValidRun(s: Store, ips: seq<string>, run: seq<Step>)
    decreases |run|
  {
    run == [] || (Enabled(s, |ips|, run[0]) && ValidRun(Do(s, ips, run[0]), ips, run[1..]))
  }

  function Final(s: Store, ips: seq<string>, run: seq<Step>): Store
    requires ValidRun(s, ips, run)
    decreases |run|
  {
    if run == [] then s else Final(Do(s, ips, run[0]), ips, run[1..])
  }

  const INITIAL := Store(0, [], Idle, 0, 0)

  function InFlight(s: Store): int {
    if s.ticker.Landed? then s.ticker.at - s.ticker.from else 0
  }

  predicate Balanced(s: Store, n: nat) {
    && s.orphans >= 0 && |s.table| == s.covered + s.orphans + InFlight(s)
    && s.covered <= n && (s.cursor == s.covered || (s.cursor == 0 && s.ticker.Idle?))
    && match s.ticker {
         case Idle => true
         case Probing(at) => at == s.cursor == s.covered
         case Landed(from, at) => from == s.cursor == s.covered && from < at <= from + WAVE && at <= n
       }
  }

  lemma StepBalances(s: Store, ips: seq<string>, a: Step)
    requires Balanced(s, |ips|) && Enabled(s, |ips|, a)
    ensures Balanced(Do(s, ips, a), |ips|)
  {
  }

  /**
   * Over every run of ticks, cut off anywhere: what a tick reports as its four counters exceeds what it reports as
   * scanned by exactly the rows of waves whose cursor update was lost this round.  Untorn rounds always add up.
   */
  lemma {:induction false} CountersExceedScannedByOrphans(s: Store, ips: seq<string>, run: seq<Step>)
    requires Balanced(s, |ips|) && ValidRun(s, ips, run)
    ensures var f := Final(s, ips, run);
      && Balanced(f, |ips|)
      && (f.ticker.Probing? ==> Tally(f.table).Sum() == f.ticker.at + f.orphans)
    decreases |run|
  {
    if run == [] {
      TallySums(s.table);
    } else {
      StepBalances(s, ips, run[0]);
      CountersExceedScannedByOrphans(Do(s, ips, run[0]), ips, run[1..]);
    }
  }

  ghost predicate Has(table: seq<Row>, ip: string) {
    exists i :: 0 <= i < |table| && table[i].ip == ip
  }

  /** Every committed address has a row; with no orphans it has exactly its own. */
  ghost predicate Covers(s: Store, ips: seq<string>) {
    && s.covered <= |ips|
    && (forall k :: 0 <= k < s.covered + InFlight(s) && k < |ips| ==> Has(s.table, ips[k]))
    && (s.orphans == 0 ==> InOrder(s.table, ips))
  }

  lemma BatchCovers(s: Store, ips: seq<string>, net: nat -> Probe)
    requires Balanced(s, |ips|) && Covers(s, ips) && Enabled(s, |ips|, Batch(net))
    ensures Covers(Do(s, ips, Batch(net)), ips)
  {
    var at, end := s.ticker.at, Min(|ips|, s.ticker.at + WAVE);
    var wave := Probed(ips, net, at, end);
    forall k | 0 <= k < end ensures Has(s.table + wave, ips[k]) {
      if k < at {
        HasKept(s.table, wave, ips[k]);
      } else {
        ProbedAt(ips, net, at, end, k);
        HasNew(s.table, wave, k - at);
      }
    }
    if s.orphans == 0 { WaveInOrder(s.table, ips, net, end); }
  }

  lemma HasKept(table: seq<Row>, wave: seq<Row>, ip: string)
    requires Has(table, ip)
    ensures Has(table + wave, ip)
  {
    var i :| 0 <= i < |table| && table[i].ip == ip;
    assert (table + wave)[i].ip == ip;
  }

  lemma HasNew(table: seq<Row>, wave: seq<Row>, i: nat)
    requires i < |wave|
    ensures Has(table + wave, wave[i].ip)
  {
    assert (table + wave)[|table| + i].ip == wave[i].ip;
  }

  lemma WaveInOrder(table: seq<Row>, ips: seq<string>, net: nat -> Probe, end: nat)
    requires InOrder(table, ips) && |table| <= end <= |ips|
    ensures InOrder(table + Probed(ips, net, |table|, end), ips)
  {
    var all := table + Probed(ips, net, |table|, end);
    forall i | 0 <= i < |all| ensures all[i].ip == ips[i] {
      if i >= |table| { ProbedAt(ips, net, |table|, end, i); }
    }
  }

  /** No cut-off loses an address, and without a torn wave every committed address has exactly one row, in order. */
  lemma {:induction false} NoAddressIsLost(s: Store, ips: seq<string>, run: seq<Step>)
    requires Balanced(s, |ips|) && Covers(s, ips) && ValidRun(s, ips, run)
    ensures Covers(Final(s, ips, run), ips)
    decreases |run|
  {
    if run != [] {
      var a := run[0];
      StepBalances(s, ips, a);
      if a.Batch? { BatchCovers(s, ips, a.net); }
      NoAddressIsLost(Do(s, ips, a), ips, run[1..]);
    }
  }

  /** From a new range: nothing lost, and the counters exceed `scanned` by exactly the orphans. */
  lemma EveryRunAccounted(ips: seq<string>, run: seq<Step>)
    requires ValidRun(INITIAL, ips, run)
    ensures var f := Final(INITIAL, ips, run);
      && Covers(f, ips)
      && (f.ticker.Probing? ==> Tally(f.table).Sum() == f.ticker.at + f.orphans)
  {
    CountersExceedScannedByOrphans(INITIAL, ips, run);
    NoAddressIsLost(INITIAL, ips, run);
  }

  lemma Prepend(s: Store, ips: seq<string>, a: Step, next: Store, rest: seq<Step>)
    requires Enabled(s, |ips|, a) && next == Do(s, ips, a) && ValidRun(next, ips, rest)
    ensures ValidRun(s, ips, [a] + rest) && Final(s, ips, [a] + rest) == Final(next, ips, rest)
  {
    assert ([a] + rest)[1..] == rest;
  }

  /**
   * The tear, exactly: a tick cut off between a wave's batch and its cursor update leaves the whole wave counted
   * twice, unless it was the first wave of the round, whose rows the next tick deletes.
   */
  lemma TornWaveOvercounts(s: Store, ips: seq<string>, net: nat -> Probe)
    requires Balanced(s, |ips|) && s.ticker.Probing? && s.ticker.at < |ips|
    ensures var run := [Batch(net)] + ([Kill] + ([Open] + []));
      && ValidRun(s, ips, run)
      && var f := Final(s, ips, run);
         && f.ticker == s.ticker
         && Tally(f.table).Sum() ==
            if s.ticker.at == 0 then 0 else s.ticker.at + s.orphans + Min(|ips| - s.ticker.at, WAVE)
  {
    var s1 := Do(s, ips, Batch(net));
    var s2 := Do(s1, ips, Kill);
    var s3 := Do(s2, ips, Open);
    Prepend(s2, ips, Open, s3, []);
    Prepend(s1, ips, Kill, s2, [Open] + []);
    Prepend(s, ips, Batch(net), s1, [Kill] + ([Open] + []));
    TallySums(s3.table);
  }

  // ----- the cron pass -----

  /** The cursor after n cron passes over a new range. */
  function CronCursor(ips: seq<string>, n: nat): (cursor: nat)
    requires ips != []
    ensures cursor < |ips|
  {
    if n == 0 then 0 else AfterPass(ips, CronCursor(ips, n - 1))
  }

  /** The rows that as many passes leave, each with the answers of its own time. */
  function CronRows(ips: seq<string>, nets: seq<nat -> Probe>): seq<Row>
    requires ips != []
  {
    if nets == [] then []
    else
      var n := |nets| - 1;
      var cursor := CronCursor(ips, n);
      CronRows(ips, nets[..n]) + Probed(ips, nets[n], cursor, DueEnd(ips, cursor))
  }

  /** How many rounds they finished. */
  function CronRounds(ips: seq<string>, n: nat): nat
    requires ips != []
  {
    if n == 0 then 0
    else CronRounds(ips, n - 1) + (if DueEnd(ips, CronCursor(ips, n - 1)) == |ips| then 1 else 0)
  }

  function Copies(ips: seq<string>, n: nat): seq<string> {
    if n == 0 then [] else Copies(ips, n - 1) + ips
  }

  function Addresses(rows: seq<Row>): (ips: seq<string>)
    ensures |ips| == |rows| && forall i :: 0 <= i < |rows| ==> ips[i] == rows[i].ip
  {
    if rows == [] then [] else Addresses(rows[..|rows| - 1]) + [rows[|rows| - 1].ip]
  }

  lemma AddressesOfPass(rows: seq<Row>, ips: seq<string>, net: nat -> Probe, lo: nat, hi: nat)
    requires lo <= hi <= |ips|
    ensures Addresses(rows + Probed(ips, net, lo, hi)) == Addresses(rows) + ips[lo..hi]
  {
    var added := Probed(ips, net, lo, hi);
    forall i | 0 <= i < |added| ensures added[i].ip == ips[lo..hi][i] { ProbedAt(ips, net, lo, hi, lo + i); }
  }

  /** Whatever is answered, the table names the range once for every round finished so far, then up to the cursor. */
  lemma {:induction false} CronKeepsEveryRound(ips: seq<string>, nets: seq<nat -> Probe>)
    requires ips != []
    ensures Addresses(CronRows(ips, nets))
         == Copies(ips, CronRounds(ips, |nets|)) + ips[..CronCursor(ips, |nets|)]
    decreases |nets|
  {
    if nets != [] {
      var n := |nets| - 1;
      var cursor, rounds := CronCursor(ips, n), CronRounds(ips, n);
      CronKeepsEveryRound(ips, nets[..n]);
      AddressesOfPass(CronRows(ips, nets[..n]), ips, nets[n], cursor, DueEnd(ips, cursor));
      PassAdds(Copies(ips, rounds), ips, cursor, DueEnd(ips, cursor));
      CursorAfter(ips, n);
    }
  }

  lemma CursorAfter(ips: seq<string>, n: nat)
    requires ips != []
    ensures var end := DueEnd(ips, CronCursor(ips, n));
      && CronCursor(ips, n + 1) == (if end == |ips| then 0 else end)
      && Copies(ips, CronRounds(ips, n + 1))
         == (if end == |ips| then Copies(ips, CronRounds(ips, n)) + ips else Copies(ips, CronRounds(ips, n)))
  {
  }

  lemma PassAdds(before: seq<string>, ips: seq<string>, cursor: nat, end: nat)
    requires cursor <= end <= |ips|
    ensures before + ips[..cursor] + ips[cursor..end] == before + ips[..end]
    ensures end == |ips| ==> before + ips[..end] == before + ips + ips[..0]
  {
  }

  lemma {:induction false} CopiesCount(ips: seq<string>, n: nat)
    ensures |Copies(ips, n)| == n * |ips|
  {
    if n > 0 { CopiesCount(ips, n - 1); }
  }

  /**
   * So the summary of a range the cron pass scans counts each address once per finished round, and equals the range
   * only until the second round begins.
   */
  lemma CronSummaryTotal(ips: seq<string>, nets: seq<nat -> Probe>)
    requires ips != []
    ensures Tally(CronRows(ips, nets)).Sum() == CronRounds(ips, |nets|) * |ips| + CronCursor(ips, |nets|)
  {
    var rows, rounds := CronRows(ips, nets), CronRounds(ips, |nets|);
    CronKeepsEveryRound(ips, nets);
    CopiesCount(ips, rounds);
    assert |Addresses(rows)| == |Copies(ips, rounds)| + CronCursor(ips, |nets|);
    TallySums(rows);
  }

  // ----- a finished round -----

  /** The slice of tick k reaches address number i: it was not stored before the tick, and is after it. */
  predicate Reaches(ips: seq<string>, ticks: seq<Tick>, k: nat, i: nat)
    requires k < |ticks|
  {
    |Opened(AdvanceAll([], ips, ticks[..k]), |ips|)| <= i < |AdvanceAll([], ips, ticks[..k + 1])|
  }

  /** The answer is what address number i gave to the last tick that reaches it. */
  ghost predicate AnswerGiven(ips: seq<string>, ticks: seq<Tick>, i: nat, answer: Probe) {
    exists k: nat :: LastReach(ips, ticks, k, i) && ticks[k].net(i) == answer
  }

  ghost predicate LastReach(ips: seq<string>, ticks: seq<Tick>, k: nat, i: nat) {
    k < |ticks| && Reaches(ips, ticks, k, i) && forall m :: k < m < |ticks| ==> !Reaches(ips, ticks, m, i)
  }

  lemma {:induction false} AdvanceSnoc(rows: seq<Row>, ips: seq<string>, ticks: seq<Tick>, t: Tick)
    requires |rows| <= |ips|
    ensures AdvanceAll(rows, ips, ticks + [t]) == Advance(AdvanceAll(rows, ips, ticks), ips, t)
    decreases |ticks|
  {
    if ticks == [] {
      assert ticks + [t] == [t] && [t][1..] == [];
    } else {
      assert (ticks + [t])[1..] == ticks[1..] + [t];
      AdvanceSnoc(Advance(rows, ips, ticks[0]), ips, ticks[1..], t);
    }
  }

  /** Each stored row is what its address answered to the last tick that reaches it. */
  lemma {:induction false} RoundIsAnswered(ips: seq<string>, ticks: seq<Tick>, i: nat)
    requires i < |AdvanceAll([], ips, ticks)|
    ensures var row := AdvanceAll([], ips, ticks)[i]; row.ip == ips[i] && AnswerGiven(ips, ticks, i, row.probe)
    decreases |ticks|
  {
    var n := |ticks| - 1;
    var front := ticks[..n];
    assert ticks == front + [ticks[n]];
    AdvanceSnoc([], ips, front, ticks[n]);
    if i < |Opened(AdvanceAll([], ips, front), |ips|)| {
      RoundIsAnswered(ips, front, i);
      AnswerStays(ips, ticks, i, AdvanceAll([], ips, front)[i].probe);
    } else {
      ProbedNow(AdvanceAll([], ips, front), ips, ticks[n], i);
      assert ticks[..n + 1] == ticks;
      assert LastReach(ips, ticks, n, i);
    }
  }

  lemma ProbedNow(rows: seq<Row>, ips: seq<string>, t: Tick, i: nat)
    requires |rows| <= |ips| && |Opened(rows, |ips|)| <= i < |Advance(rows, ips, t)|
    ensures Advance(rows, ips, t)[i] == Row(ips[i], t.net(i))
  {
    ProbedAt(ips, t.net, |Opened(rows, |ips|)|, |Advance(rows, ips, t)|, i);
  }

  lemma AnswerStays(ips: seq<string>, ticks: seq<Tick>, i: nat, answer: Probe)
    requires ticks != [] && AnswerGiven(ips, ticks[..|ticks| - 1], i, answer)
    requires !Reaches(ips, ticks, |ticks| - 1, i)
    ensures AnswerGiven(ips, ticks, i, answer)
  {
    var front := ticks[..|ticks| - 1];
    var k: nat :| LastReach(ips, front, k, i) && front[k].net(i) == answer;
    ReachOfFront(ips, ticks, k, i);
    assert ticks[k] == front[k];
  }

  /** A last tick that does not reach the address leaves the last one that does as it was. */
  lemma ReachOfFront(ips: seq<string>, ticks: seq<Tick>, k: nat, i: nat)
    requires ticks != [] && LastReach(ips, ticks[..|ticks| - 1], k, i)
    requires !Reaches(ips, ticks, |ticks| - 1, i)
    ensures LastReach(ips, ticks, k, i)
  {
    var front := ticks[..|ticks| - 1];
    forall m | 0 <= m < |front| ensures Reaches(ips, ticks, m, i) <==> Reaches(ips, front, m, i) {
      assert front[..m] == ticks[..m] && front[..m + 1] == ticks[..m + 1];
    }
  }

  /** How many of the answers have the verdict. */
  function Answering(answers: seq<Probe>, v: Verdict): nat {
    if answers == [] then 0
    else Answering(answers[..|answers| - 1], v) + (if answers[|answers| - 1].verdict == v then 1 else 0)
  }

  lemma {:induction false} HavingCounts(rows: seq<Row>, answers: seq<Probe>, v: Verdict)
    requires |rows| == |answers| && forall i :: 0 <= i < |rows| ==> rows[i].probe == answers[i]
    ensures |Having(rows, v)| == Answering(answers, v)
  {
    if rows != [] { HavingCounts(rows[..|rows| - 1], answers[..|answers| - 1], v); }
  }

  /**
   * A finished round of live ticks with any budgets and answers that may change: every address of the range has one
   * answer, the one to the last tick whose slice reaches it, and the summary's counters are those of these answers.
   */
  lemma FinishedRoundSummary(ips: seq<string>, ticks: seq<Tick>, rows: seq<Row>) returns (answers: seq<Probe>)
    requires rows == AdvanceAll([], ips, ticks) && |rows| == |ips|
    ensures |answers| == |ips| && forall i :: 0 <= i < |ips| ==> AnswerGiven(ips, ticks, i, answers[i])
    ensures forall v :: CountFor(Tally(rows), v) == Answering(answers, v)
    ensures Tally(rows).Sum() == |ips|
  {
    answers := CountedAnswers(rows);
    forall i | 0 <= i < |ips| ensures AnswerGiven(ips, ticks, i, answers[i]) { RoundIsAnswered(ips, ticks, i); }
  }

  lemma CountedAnswers(rows: seq<Row>) returns (answers: seq<Probe>)
    ensures |answers| == |rows| && forall i :: 0 <= i < |rows| ==> answers[i] == rows[i].probe
    ensures forall v :: CountFor(Tally(rows), v) == Answering(answers, v)
    ensures Tally(rows).Sum() == |rows|
  {
    answers := seq(|rows|, i requires 0 <= i < |rows| => rows[i].probe);
    forall v ensures CountFor(Tally(rows), v) == Answering(answers, v) {
      TallyCounts(rows, v);
      HavingCounts(rows, answers, v);
    }
    TallySums(rows);
  }
}

/**
 * The clean-address radar: client reports blended into one row per address, operator and city, and the ranking
 * that puts every measured address before every unmeasured one.
 */
module CleanIp {
  import opened Options
  import opened Numbers
  import opened Sorting
  import opened Text

  const MAX_LATENCY := 10000
  const MAX_ROWS := 48
  const UNKNOWN := -1
  const HOUR := 3_600_000
  const FRESH := 24 * HOUR

  /** Loss percentages are kept in tenths. */
  datatype Report = Report(ip: string, operator: string, city: string, latency: int, loss: int, ok: bool)

  datatype Key = Key(ip: string, operator: string, city: string)

  datatype Row = Row(latency: int, loss: int, okCount: nat, count: nat, updatedAt: int)

  // ----- parsing -----

  /** The reported latency: None where the source refuses it; a value that is no finite number is "unknown". */
  function ParseLatency(raw: Option<real>): (r: Option<int>)
    ensures r.Some? ==> UNKNOWN <= r.value <= MAX_LATENCY
    ensures r.None? <==> raw.Some? && (raw.value + 0.5).Floor > 10_000
    ensures raw.None? || (raw.Some? && raw.value < -1.0) ==> r == Some(-1)
    ensures r.Some? && raw.Some? && raw.value >= -1.0 ==> -0.5 <= raw.value - r.value as real < 0.5
  {
    var rounded := match raw { case Some(x) => (x + 0.5).Floor case None => UNKNOWN };
    if rounded > MAX_LATENCY then None else Some(if rounded < UNKNOWN then UNKNOWN else rounded)
  }

  function Clamped(x: real): real {
    if x < 0.0 then 0.0 else if x > 100.0 then 100.0 else x
  }

  /** The reported loss, clamped to a percentage and rounded to tenths. */
  function ParseLoss(raw: Option<real>): (tenths: int)
    ensures 0 <= tenths <= 1000
    ensures raw.Some? && 0.0 <= raw.value <= 100.0 ==> -0.5 <= raw.value * 10.0 - tenths as real < 0.5
    ensures raw.None? || raw.value < 0.0 ==> tenths == 0
    ensures raw.Some? && raw.value > 100.0 ==> tenths == 1000
  {
    match raw
    case Some(x) => (Clamped(x) * 10.0 + 0.5).Floor
    case None => 0
  }

  // ----- the blended rows -----

  /** n fifths, rounded to the nearest integer; fifths are never half way. */
  function RoundFifths(n: int): int {
    (n + 2) / 5
  }

  /** `ROUND(old * 0.6 + new * 0.4)`. */
  function Blend(old_: int, new_: int): int {
    RoundFifths(3 * old_ + 2 * new_)
  }

  lemma BlendIsBetween(a: int, b: int, lo: int, hi: int)
    requires lo <= a <= hi && lo <= b <= hi
    ensures lo <= Blend(a, b) <= hi
  {
  }

  /** Three fifths of the stored value and two of the reported one, to the nearest integer. */
  lemma BlendIsNearest(a: int, b: int)
    ensures -2 <= 5 * Blend(a, b) - (3 * a + 2 * b) <= 2
  {
  }

  function KeyOf(r: Report): Key {
    Key(r.ip, r.operator, r.city)
  }

  function One(ok: bool): nat {
    if ok then 1 else 0
  }

  /** The row after one more report, and the row of a first report. */
  function Blended(row: Row, r: Report, now: int): Row {
    Row(Blend(row.latency, r.latency), Blend(row.loss, r.loss), row.okCount + One(r.ok), row.count + 1, now)
  }

  function First(r: Report, now: int): Row {
    Row(r.latency, r.loss, One(r.ok), 1, now)
  }

  function Upserted(table: map<Key, Row>, r: Report, now: int): map<Key, Row> {
    table[KeyOf(r) := if KeyOf(r) in table then Blended(table[KeyOf(r)], r, now) else First(r, now)]
  }

  datatype Timed = Timed(report: Report, now: int)

  function RecordAll(reports: seq<Timed>): map<Key, Row> {
    if reports == [] then map[]
    else Upserted(RecordAll(reports[..|reports| - 1]), reports[|reports| - 1].report, reports[|reports| - 1].now)
  }

  /** The reports on one key, in order. */
  function About(reports: seq<Timed>, k: Key): seq<Report> {
    if reports == [] then []
    else
      var last := reports[|reports| - 1].report;
      About(reports[..|reports| - 1], k) + (if KeyOf(last) == k then [last] else [])
  }

  function Successes(reports: seq<Report>): (n: nat)
    ensures n <= |reports|
  {
    if reports == [] then 0 else Successes(reports[..|reports| - 1]) + (if reports[|reports| - 1].ok then 1 else 0)
  }

  ghost predicate LatencyWithin(reports: seq<Report>, lo: int, hi: int) {
    forall i :: 0 <= i < |reports| ==> lo <= reports[i].latency <= hi
  }

  ghost predicate LossWithin(reports: seq<Report>, lo: int, hi: int) {
    forall i :: 0 <= i < |reports| ==> lo <= reports[i].loss <= hi
  }

  lemma SuccessesPush(reports: seq<Report>, r: Report)
    ensures Successes(reports + [r]) == Successes(reports) + (if r.ok then 1 else 0)
  {
    assert (reports + [r])[..|reports|] == reports;
  }

  /** A key has a row exactly when it was reported, and the row counts its reports and its successes. */
  lemma {:induction false} RowCounts(reports: seq<Timed>, k: Key)
    ensures k in RecordAll(reports) <==> About(reports, k) != []
    ensures k in RecordAll(reports) ==>
      var row, mine := RecordAll(reports)[k], About(reports, k);
      row.count == |mine| && row.okCount == Successes(mine) && row.okCount <= row.count
  {
    if reports != [] {
      var init, last := reports[..|reports| - 1], reports[|reports| - 1].report;
      RowCounts(init, k);
      if KeyOf(last) == k {
        assert About(reports, k) == About(init, k) + [last];
        SuccessesPush(About(init, k), last);
      } else {
        assert About(reports, k) == About(init, k);
      }
    }
  }

  /** After any reports, a row's latency and loss lie between the least and the greatest reported on its key. */
  lemma {:induction false} RowStaysBetween(reports: seq<Timed>, k: Key, lo: int, hi: int, low: int, high: int)
    requires LatencyWithin(About(reports, k), lo, hi) && LossWithin(About(reports, k), low, high)
    ensures k in RecordAll(reports) ==>
      var row := RecordAll(reports)[k]; lo <= row.latency <= hi && low <= row.loss <= high
  {
    if reports != [] {
      var init, last := reports[..|reports| - 1], reports[|reports| - 1].report;
      var mine, before := About(reports, k), About(init, k);
      assert forall i :: 0 <= i < |before| ==> before[i] == mine[i];
      RowStaysBetween(init, k, lo, hi, low, high);
      if KeyOf(last) == k {
        assert mine[|mine| - 1] == last;
        if k in RecordAll(init) {
          BlendIsBetween(RecordAll(init)[k].latency, last.latency, lo, hi);
          BlendIsBetween(RecordAll(init)[k].loss, last.loss, low, high);
        }
      }
    }
  }

  /** A row's time is that of the last report on its key. */
  lemma {:induction false} RowTime(reports: seq<Timed>, k: Key) returns (i: nat)
    requires k in RecordAll(reports)
    ensures i < |reports| && RecordAll(reports)[k].updatedAt == reports[i].now
    ensures var r := reports[i].report; r.ip == k.ip && r.operator == k.operator && r.city == k.city
    ensures forall j :: i < j < |reports| ==> KeyOf(reports[j].report) != k
  {
    var n := |reports| - 1;
    if KeyOf(reports[n].report) == k { i := n; } else { i := RowTime(reports[..n], k); }
  }

  /** One report after another on one key: latency and loss are the first report's, blended with the later ones. */
  lemma RowIsBlend(reports: seq<Timed>, r: Report, now: int)
    ensures var k, next := KeyOf(r), RecordAll(reports + [Timed(r, now)]);
      k in next
      && (if k in RecordAll(reports)
          then next[k].latency == Blend(RecordAll(reports)[k].latency, r.latency)
               && next[k].loss == Blend(RecordAll(reports)[k].loss, r.loss)
          else next[k].latency == r.latency && next[k].loss == r.loss)
  {
    assert (reports + [Timed(r, now)])[..|reports|] == reports;
  }

  predicate Parsed(r: Report) {
    UNKNOWN <= r.latency <= MAX_LATENCY && 0 <= r.loss <= 1000
  }

  predicate InRange(row: Row) {
    UNKNOWN <= row.latency <= MAX_LATENCY && 0 <= row.loss <= 1000 && row.okCount <= row.count && row.count > 0
  }

  lemma {:induction false} StoredInRange(reports: seq<Timed>, k: Key)
    requires forall i :: 0 <= i < |reports| ==> Parsed(reports[i].report)
    requires k in RecordAll(reports)
    ensures InRange(RecordAll(reports)[k])
  {
    AboutAreParsed(reports, k);
    RowStaysBetween(reports, k, UNKNOWN, MAX_LATENCY, 0, 1000);
    RowCounts(reports, k);
  }

  lemma {:induction false} AboutAreParsed(reports: seq<Timed>, k: Key)
    requires forall i :: 0 <= i < |reports| ==> Parsed(reports[i].report)
    ensures forall i :: 0 <= i < |About(reports, k)| ==> Parsed(About(reports, k)[i])
  {
    if reports != [] {
      AboutAreParsed(reports[..|reports| - 1], k);
      assert Parsed(reports[|reports| - 1].report);
    }
  }

  /**
   * The "unknown" marker is averaged like a latency: a stored one survives only another unknown or a zero, a known
   * latency never becomes unknown, and an unknown followed by 50 ms is stored as 19 ms.
   */
  lemma UnknownIsBlended(a: int, b: int)
    requires UNKNOWN <= a <= MAX_LATENCY && UNKNOWN <= b <= MAX_LATENCY
    ensures Blend(a, b) == UNKNOWN <==> a == UNKNOWN && b <= 0
    ensures Blend(UNKNOWN, 50) == 19
  {
  }

  // ----- the ranking -----

  datatype Ranked = Ranked(ip: string, score: real, measured: bool)

  function OctetSum(parts: seq<string>): nat {
    if parts == [] then 0
    else (if AllDigits(parts[0]) then ParseDec(parts[0]) else 0) + OctetSum(parts[1..])
  }

  function RoundTenth(x: real): real {
    (x * 10.0 + 0.5).Floor as real / 10.0
  }

  predicate IsFresh(row: Row, now: int) {
    row.updatedAt > now - FRESH
  }

  /** Hours since the last report, never negative. */
  function AgeHours(row: Row, now: int): real {
    if now < row.updatedAt then 0.0 else (now - row.updatedAt) as real / HOUR as real
  }

  function MeasuredScore(row: Row, now: int): real {
    (if row.latency < 0 then 60.0 else row.latency as real * 0.5) + row.loss as real * 2.5 + AgeHours(row, now) * 2.0
  }

  function RankedRow(ip: string, row: Option<Row>, now: int): Ranked {
    if row.Some? && IsFresh(row.value, now)
    then Ranked(ip, RoundTenth(MeasuredScore(row.value, now)), true)
    else Ranked(ip, RoundTenth(1_000_000.0 + OctetSum(Split(ip, '.')) as real), false)
  }

  predicate WellScored(r: Ranked) {
    if r.measured then r.score < 8000.0 else r.score >= 1_000_000.0
  }

  lemma RoundTenthBounds(x: real)
    ensures x - 0.05 <= RoundTenth(x) <= x + 0.05
    ensures x >= 1_000_000.0 ==> RoundTenth(x) >= 1_000_000.0
  {
    var f := (x * 10.0 + 0.5).Floor;
    assert f as real <= x * 10.0 + 0.5 < f as real + 1.0;
    if x >= 1_000_000.0 { assert f >= 10_000_000; }
  }

  lemma AgeIsSmall(row: Row, now: int)
    requires IsFresh(row, now)
    ensures 0.0 <= AgeHours(row, now) <= 24.0
  {
    if now >= row.updatedAt {
      var d := now - row.updatedAt;
      assert 0 <= d <= 24 * HOUR;
      assert d as real <= 24.0 * HOUR as real;
    }
  }

  lemma ScoresSeparate(ip: string, row: Option<Row>, now: int)
    requires row.Some? ==> InRange(row.value)
    ensures WellScored(RankedRow(ip, row, now))
  {
    if row.Some? && IsFresh(row.value, now) {
      AgeIsSmall(row.value, now);
      RoundTenthBounds(MeasuredScore(row.value, now));
    } else {
      RoundTenthBounds(1_000_000.0 + OctetSum(Split(ip, '.')) as real);
    }
  }

  function Score(r: Ranked): real {
    r.score
  }

  ghost predicate AllWellScored(rows: seq<Ranked>) {
    forall i :: 0 <= i < |rows| ==> WellScored(rows[i])
  }

  ghost predicate MeasuredFirst(rows: seq<Ranked>) {
    forall i, j :: 0 <= i < j < |rows| && rows[j].measured ==> rows[i].measured
  }

  lemma SortedIsMeasuredFirst(rows: seq<Ranked>)
    requires Sorted(rows, Score) && AllWellScored(rows)
    ensures MeasuredFirst(rows)
  {
    forall i, j | 0 <= i < j < |rows| && rows[j].measured ensures rows[i].measured {
      assert WellScored(rows[i]) && WellScored(rows[j]);
    }
  }

  function Having(rows: seq<Ranked>, measured: bool): seq<Ranked> {
    if rows == [] then []
    else
      Having(rows[..|rows| - 1], measured)
      + (if rows[|rows| - 1].measured == measured then [rows[|rows| - 1]] else [])
  }

  lemma {:induction false} NoneMeasured(rows: seq<Ranked>)
    requires forall i :: 0 <= i < |rows| ==> rows[i].measured
    ensures Having(rows, false) == [] && Having(rows, true) == rows
  {
    if rows != [] { NoneMeasured(rows[..|rows| - 1]); }
  }

  /** The dead drop's measured-first partition of any ranking leaves its order unchanged. */
  lemma {:induction false} PartitionChangesNothing(rows: seq<Ranked>)
    requires MeasuredFirst(rows)
    ensures Having(rows, true) + Having(rows, false) == rows
  {
    if rows != [] {
      var init, last := rows[..|rows| - 1], rows[|rows| - 1];
      if last.measured {
        assert forall i :: 0 <= i < |rows| ==> rows[i].measured;
        NoneMeasured(rows);
      } else {
        PartitionChangesNothing(init);
        assert rows == init + [last];
      }
    }
  }

  // ----- filling the maps and sorting -----

  /** The stored rows of a segment: one per address and city. */
  datatype Entry = Entry(ip: string, row: Row)

  /** For exactly the reported addresses, a row of the segment that no other row of the address is newer than. */
  ghost predicate Latest(byIp: map<string, Row>, segment: seq<Entry>) {
    && (forall ip :: ip in byIp <==> exists i :: 0 <= i < |segment| && segment[i].ip == ip)
    && (forall ip :: ip in byIp ==> Entry(ip, byIp[ip]) in segment)
    && (forall i :: 0 <= i < |segment| ==> segment[i].row.updatedAt <= byIp[segment[i].ip].updatedAt)
  }

  /** The most recent row of each address. */
  method LatestByIp(segment: seq<Entry>) returns (byIp: map<string, Row>)
    ensures Latest(byIp, segment)
  {
    byIp := map[];
    var n := 0;
    while n < |segment|
      invariant 0 <= n <= |segment|
      invariant forall ip :: ip in byIp <==> exists i :: 0 <= i < n && segment[i].ip == ip
      invariant forall ip :: ip in byIp ==> Entry(ip, byIp[ip]) in segment
      invariant forall i :: 0 <= i < n ==> segment[i].row.updatedAt <= byIp[segment[i].ip].updatedAt
    {
      var e := segment[n];
      assert Entry(e.ip, e.row) == e;
      if e.ip !in byIp || e.row.updatedAt > byIp[e.ip].updatedAt { byIp := byIp[e.ip := e.row]; }
      n := n + 1;
    }
  }

  /** One scored row per address of the pool. */
  method ScorePool(pool: seq<string>, byIp: map<string, Row>, now: int) returns (rows: seq<Ranked>)
    requires forall ip :: ip in byIp ==> InRange(byIp[ip])
    ensures rows == Scored(pool, byIp, now) && |rows| == |pool| && AllWellScored(rows)
  {
    rows := [];
    var n := 0;
    while n < |pool|
      invariant 0 <= n <= |pool| && |rows| == n && rows == Scored(pool[..n], byIp, now) && AllWellScored(rows)
    {
      assert pool[..n + 1][..n] == pool[..n];
      var row := if pool[n] in byIp then Some(byIp[pool[n]]) else None;
      ScoresSeparate(pool[n], row, now);
      rows := rows + [RankedRow(pool[n], row, now)];
      n := n + 1;
    }
    assert pool[..|pool|] == pool;
  }

  /** Where the locale puts a row's address. */
  function Place(locale: string -> real): Ranked -> real {
    (r: Ranked) => locale(r.ip)
  }

  /**
   * The rows are one scored row per address of the pool, best first and so measured before unmeasured, equal scores in
   * the locale's order of addresses.
   */
  ghost predicate IsRanking(rows: seq<Ranked>, pool: seq<string>, byIp: map<string, Row>, now: int,
                            locale: string -> real)
  {
    && multiset(rows) == multiset(Scored(pool, byIp, now))
    && SortedBoth(rows, Score, Place(locale)) && Sorted(rows, Score) && MeasuredFirst(rows) && AllWellScored(rows)
  }

  /** The rows of the pool, scored and sorted: by address first and then stably by score, which is by both. */
  method RankPool(pool: seq<string>, byIp: map<string, Row>, now: int, locale: string -> real)
    returns (rows: seq<Ranked>)
    requires forall ip :: ip in byIp ==> InRange(byIp[ip])
    ensures |rows| == |pool| && IsRanking(rows, pool, byIp, now, locale)
  {
    var scored := ScorePool(pool, byIp, now);
    var placed := Sort(scored, Place(locale));
    SortSorts(scored, Place(locale));
    rows := Sort(placed, Score);
    SortSorts(placed, Score);
    SortIsStable(placed, Score, Place(locale));
    SortedScores(scored, rows);
    SortedIsMeasuredFirst(rows);
  }

  lemma SortedScores(scored: seq<Ranked>, rows: seq<Ranked>)
    requires multiset(rows) == multiset(scored) && AllWellScored(scored)
    ensures AllWellScored(rows)
  {
    forall i | 0 <= i < |rows| ensures WellScored(rows[i]) {
      assert rows[i] in multiset(rows);
    }
  }

  function Scored(pool: seq<string>, byIp: map<string, Row>, now: int): seq<Ranked> {
    if pool == [] then []
    else
      var ip := pool[|pool| - 1];
      Scored(pool[..|pool| - 1], byIp, now) + [RankedRow(ip, if ip in byIp then Some(byIp[ip]) else None, now)]
  }

  /** What a row's place is decided by: its latency, an unknown one counting as 120 ms. */
  function Delay(row: Row): int {
    if row.latency < 0 then 120 else row.latency
  }

  /**
   * Better in one of latency, loss (by a tenth of a percent) and age (by three minutes), and worse in none.  A row of
   * the future is as old as one of now.
   */
  predicate Beats(a: Row, b: Row, now: int) {
    && Delay(a) <= Delay(b) && a.loss <= b.loss && Seen(a, now) >= Seen(b, now)
    && (Delay(a) < Delay(b) || a.loss < b.loss || Seen(a, now) >= Seen(b, now) + 180_000)
  }

  function Seen(row: Row, now: int): int {
    if row.updatedAt > now then now else row.updatedAt
  }

  lemma RoundTenthKeepsOrder(x: real, y: real)
    requires x + 0.1 <= y
    ensures RoundTenth(x) < RoundTenth(y)
  {
    var f, g := (x * 10.0 + 0.5).Floor, (y * 10.0 + 0.5).Floor;
    assert x * 10.0 + 1.0 <= y * 10.0;
    assert f as real <= x * 10.0 + 0.5 && y * 10.0 + 0.5 < g as real + 1.0;
    assert f < g;
    assert f as real / 10.0 < g as real / 10.0;
  }

  /** An hour of age is worth two points. */
  lemma AgeScore(row: Row, now: int)
    ensures AgeHours(row, now) * 2.0 == (now - Seen(row, now)) as real / 1_800_000.0
  {
  }

  lemma {:induction false} ScoredRow(r: Ranked, pool: seq<string>, byIp: map<string, Row>, now: int)
    requires r in Scored(pool, byIp, now)
    ensures r.ip in pool && r == RankedRow(r.ip, if r.ip in byIp then Some(byIp[r.ip]) else None, now)
  {
    var init, last := pool[..|pool| - 1], pool[|pool| - 1];
    if r in Scored(init, byIp, now) { ScoredRow(r, init, byIp, now); }
  }

  lemma RankedIsScored(rows: seq<Ranked>, pool: seq<string>, byIp: map<string, Row>, now: int, i: nat)
    requires multiset(rows) == multiset(Scored(pool, byIp, now)) && i < |rows|
    ensures rows[i].ip in pool
    ensures rows[i] == RankedRow(rows[i].ip, if rows[i].ip in byIp then Some(byIp[rows[i].ip]) else None, now)
  {
    assert rows[i] in multiset(rows);
    ScoredRow(rows[i], pool, byIp, now);
  }

  /** Measured are exactly the addresses with a report of the last 24 hours. */
  lemma MeasuredIff(rows: seq<Ranked>, pool: seq<string>, byIp: map<string, Row>, now: int,
                    locale: string -> real, i: nat)
    requires IsRanking(rows, pool, byIp, now, locale) && i < |rows|
    ensures rows[i].measured <==> rows[i].ip in byIp && now - byIp[rows[i].ip].updatedAt < 24 * 60 * 60 * 1000
  {
    RankedIsScored(rows, pool, byIp, now, i);
  }

  /**
   * What a measured row costs, in milliseconds: a tenth of a percent of loss counts as five of them, and a quarter of
   * an hour of age as one.
   */
  function Cost(row: Row, now: int): real {
    (Delay(row) + 5 * row.loss) as real + (now - Seen(row, now)) as real / 900_000.0
  }

  lemma ScoreIsHalfCost(row: Row, now: int)
    ensures MeasuredScore(row, now) == Cost(row, now) / 2.0
  {
    AgeScore(row, now);
  }

  /** Of two measured addresses, the one that costs at least a fifth of a millisecond less stands first. */
  lemma CheaperFirst(rows: seq<Ranked>, pool: seq<string>, byIp: map<string, Row>, now: int, locale: string -> real,
                     i: nat, j: nat)
    requires IsRanking(rows, pool, byIp, now, locale) && i < |rows| && j < |rows|
    requires rows[i].measured && rows[j].measured
    ensures rows[i].ip in byIp && rows[j].ip in byIp
    ensures Cost(byIp[rows[i].ip], now) + 0.2 <= Cost(byIp[rows[j].ip], now) ==> i < j
  {
    RankedIsScored(rows, pool, byIp, now, i);
    RankedIsScored(rows, pool, byIp, now, j);
    var a, b := byIp[rows[i].ip], byIp[rows[j].ip];
    ScoreIsHalfCost(a, now);
    ScoreIsHalfCost(b, now);
    if Cost(a, now) + 0.2 <= Cost(b, now) {
      RoundTenthKeepsOrder(MeasuredScore(a, now), MeasuredScore(b, now));
      assert Score(rows[i]) < Score(rows[j]);
    }
  }

  /** Of two measured addresses, one whose stored row beats the other's stands before it. */
  lemma BetterFirst(rows: seq<Ranked>, pool: seq<string>, byIp: map<string, Row>, now: int, locale: string -> real,
                    i: nat, j: nat)
    requires IsRanking(rows, pool, byIp, now, locale) && i < |rows| && j < |rows|
    requires rows[i].measured && rows[j].measured
    ensures rows[i].ip in byIp && rows[j].ip in byIp
    ensures Beats(byIp[rows[i].ip], byIp[rows[j].ip], now) ==> i < j
  {
    CheaperFirst(rows, pool, byIp, now, locale, i, j);
    if Beats(byIp[rows[i].ip], byIp[rows[j].ip], now) { BeatsCostsLess(byIp[rows[i].ip], byIp[rows[j].ip], now); }
  }

  lemma BeatsCostsLess(a: Row, b: Row, now: int)
    requires Beats(a, b, now)
    ensures Cost(a, now) + 0.2 <= Cost(b, now)
  {
    var da, db := (now - Seen(a, now)) as real, (now - Seen(b, now)) as real;
    assert da <= db && da / 900_000.0 <= db / 900_000.0;
    if Seen(a, now) >= Seen(b, now) + 180_000 {
      assert da + 180_000.0 <= db;
      assert da / 900_000.0 + 0.2 <= db / 900_000.0;
    }
  }

  /** Of two unmeasured addresses, the one with the smaller sum of octets stands first. */
  lemma SmallerSumFirst(rows: seq<Ranked>, pool: seq<string>, byIp: map<string, Row>, now: int,
                        locale: string -> real, i: nat, j: nat)
    requires IsRanking(rows, pool, byIp, now, locale) && i < |rows| && j < |rows|
    requires !rows[i].measured && !rows[j].measured
    requires OctetSum(Split(rows[i].ip, '.')) < OctetSum(Split(rows[j].ip, '.'))
    ensures i < j
  {
    RankedIsScored(rows, pool, byIp, now, i);
    RankedIsScored(rows, pool, byIp, now, j);
    RoundTenthKeepsOrder(1_000_000.0 + OctetSum(Split(rows[i].ip, '.')) as real,
                         1_000_000.0 + OctetSum(Split(rows[j].ip, '.')) as real);
    assert Score(rows[i]) < Score(rows[j]);
  }

  lemma OctetSumPrepend(n: nat, rest: seq<string>)
    ensures OctetSum([Dec(n)] + rest) == n + OctetSum(rest)
  {
    ParseDecOfDec(n);
    assert ([Dec(n)] + rest)[1..] == rest;
  }

  lemma OctetSumOfFour(a: nat, b: nat, c: nat, d: nat)
    ensures OctetSum([Dec(a), Dec(b), Dec(c), Dec(d)]) == a + b + c + d
  {
    OctetSumPrepend(d, []);
    OctetSumPrepend(c, [Dec(d)] + []);
    OctetSumPrepend(b, [Dec(c)] + ([Dec(d)] + []));
    OctetSumPrepend(a, [Dec(b)] + ([Dec(c)] + ([Dec(d)] + [])));
    assert [Dec(a), Dec(b), Dec(c), Dec(d)] == [Dec(a)] + ([Dec(b)] + ([Dec(c)] + ([Dec(d)] + [])));
  }

  /** The payload's addresses, measured rows and then the others, cut to any limit: the same as the ranking cut. */
  lemma PayloadFollowsRanking(rows: seq<Ranked>, limit: nat)
    requires Sorted(rows, Score) && AllWellScored(rows)
    ensures var ordered, n := Having(rows, true) + Having(rows, false), Min(limit, |rows|);
      |ordered| == |rows| && ordered[..n] == rows[..n]
  {
    SortedIsMeasuredFirst(rows);
    PartitionChangesNothing(rows);
  }

  /** A `Map` keyed by address keeps the first of several equal ones, in order. */
  function Distinct(ips: seq<string>): seq<string> {
    if ips == [] then []
    else
      var before := Distinct(ips[..|ips| - 1]);
      if ips[|ips| - 1] in before then before else before + [ips[|ips| - 1]]
  }

  lemma {:induction false} DistinctKeepsAll(ips: seq<string>)
    ensures var d := Distinct(ips);
      && (forall ip :: ip in d <==> ip in ips)
      && (forall i, j :: 0 <= i < j < |d| ==> d[i] != d[j])
  {
    if ips != [] {
      var front, last := ips[..|ips| - 1], ips[|ips| - 1];
      var before, d := Distinct(front), Distinct(ips);
      DistinctKeepsAll(front);
      assert ips == front + [last];
      forall ip ensures ip in d <==> ip in ips { assert ip in ips <==> ip in front || ip == last; }
      forall i, j | 0 <= i < j < |d| ensures d[i] != d[j] {
        assert d[i] == before[i];
        if j < |before| { assert d[j] == before[j]; }
      }
    }
  }

  /** The addresses of the pool and of the segment, in the order they are looked at. */
  function Candidates(pool: seq<string>, segment: seq<Entry>): seq<string> {
    if segment == [] then pool else Candidates(pool, segment[..|segment| - 1]) + [segment[|segment| - 1].ip]
  }

  lemma {:induction false} CandidatesHold(pool: seq<string>, segment: seq<Entry>, ip: string)
    ensures ip in Candidates(pool, segment) <==> ip in pool || exists i :: 0 <= i < |segment| && segment[i].ip == ip
  {
    if segment != [] {
      var n := |segment| - 1;
      CandidatesHold(pool, segment[..n], ip);
      assert segment == segment[..n] + [segment[n]];
      assert forall i :: 0 <= i < n ==> segment[..n][i] == segment[i];
    }
  }

  /** What is ranked, once each: the addresses of the pool and those with a stored row of the segment. */
  lemma RankedAddresses(pool: seq<string>, segment: seq<Entry>, ip: string)
    ensures ip in Distinct(Candidates(pool, segment)) <==>
              ip in pool || exists i :: 0 <= i < |segment| && segment[i].ip == ip
  {
    DistinctKeepsAll(Candidates(pool, segment));
    CandidatesHold(pool, segment, ip);
  }

  method MergePool(pool: seq<string>, segment: seq<Entry>) returns (all: seq<string>)
    ensures all == Distinct(Candidates(pool, segment))
  {
    all := [];
    var n := 0;
    while n < |pool|
      invariant 0 <= n <= |pool| && all == Distinct(pool[..n])
    {
      assert pool[..n + 1][..n] == pool[..n];
      if pool[n] !in all { all := all + [pool[n]]; }
      n := n + 1;
    }
    assert pool[..|pool|] == pool;
    n := 0;
    while n < |segment|
      invariant 0 <= n <= |segment| && all == Distinct(Candidates(pool, segment[..n]))
    {
      assert segment[..n + 1][..n] == segment[..n];
      var before, now := Candidates(pool, segment[..n]), Candidates(pool, segment[..n + 1]);
      assert now[..|now| - 1] == before && now[|now| - 1] == segment[n].ip;
      if segment[n].ip !in all { all := all + [segment[n].ip]; }
      n := n + 1;
    }
    assert segment[..|segment|] == segment;
  }

  lemma RecordPush(reports: seq<Timed>, r: Report, now: int)
    ensures RecordAll(reports + [Timed(r, now)]) == Upserted(RecordAll(reports), r, now)
  {
    assert (reports + [Timed(r, now)])[..|reports|] == reports;
  }

  class Radar {
    var table: map<Key, Row>
    ghost var history: seq<Timed>

    ghost predicate Valid()
      reads this
    {
      table == RecordAll(history)
    }

    constructor ()
      ensures Valid() && history == []
    {
      table, history := map[], [];
    }

    /** `recordCleanIpReport`. */
    method Record(r: Report, now: int)
      requires Valid()
      modifies this
      ensures Valid() && history == old(history) + [Timed(r, now)]
    {
      RecordPush(history, r, now);
      var k := Key(r.ip, r.operator, r.city);
      var row := First(r, now);
      if k in table { row := Blended(table[k], r, now); }
      table := table[k := row];
      history := history + [Timed(r, now)];
    }

    /** The rows a query of the table gives: each entry is a stored row of its address. */
    ghost predicate Selected(segment: seq<Entry>)
      reads this
    {
      forall i :: 0 <= i < |segment| ==> exists k :: k in table && k.ip == segment[i].ip && table[k] == segment[i].row
    }

    /**
     * `rankCleanIps`, from the table any parsed reports have left: a sorted permutation of one row per address of the
     * pool and of the segment, cut to between 1 and 48 rows, every measured one before every unmeasured one.
     */
    method RankCleanIps(segment: seq<Entry>, pool: seq<string>, limit: int, now: int, locale: string -> real)
      returns (rows: seq<Ranked>, ghost rest: seq<Ranked>, ghost byIp: map<string, Row>)
      requires Valid() && Selected(segment) && forall i :: 0 <= i < |history| ==> Parsed(history[i].report)
      ensures Latest(byIp, segment)
      ensures IsRanking(rows + rest, Distinct(Candidates(pool, segment)), byIp, now, locale)
      ensures |rows| == Min(Min(48, if limit < 1 then 1 else limit), |Distinct(Candidates(pool, segment))|)
    {
      var latest := LatestByIp(segment);
      byIp := latest;
      StoredRowsInRange(segment, latest);
      var all := MergePool(pool, segment);
      var ranked := RankPool(all, latest, now, locale);
      var n := Min(Min(MAX_ROWS, if limit < 1 then 1 else limit), |ranked|);
      rows, rest := ranked[..n], ranked[n..];
      assert rows + rest == ranked;
    }

    lemma StoredRowsInRange(segment: seq<Entry>, latest: map<string, Row>)
      requires Valid() && Selected(segment) && forall i :: 0 <= i < |history| ==> Parsed(history[i].report)
      requires Latest(latest, segment)
      ensures forall ip :: ip in latest ==> InRange(latest[ip])
    {
      forall ip | ip in latest ensures InRange(latest[ip]) {
        var i :| 0 <= i < |segment| && segment[i] == Entry(ip, latest[ip]);
        var k :| k in table && k.ip == segment[i].ip && table[k] == segment[i].row;
        StoredInRange(history, k);
      }
    }
  }
}

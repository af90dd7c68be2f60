/**
 * The censorship map: grouped report rows accumulated into cells, per-cell transports and global transports.
 * Every figure is a plain sum over the rows, so nothing is lost, merged or order-dependent.
 */
module CensorshipMap {
  import opened Options
  import opened Sorting

  const ISPS := [
    "همراه‌اول", "ایرانسل", "رایتل", "مخابرات", "شاتل",
    "های‌وب", "آسیاتک", "مبین‌نت", "زیتل", "پارس‌آنلاین", "سایر"
  ]

  datatype Row = Row(isp: string, city: string, transport: string, n: nat, ok: nat, rtts: seq<int>)

  datatype Stat = Stat(reports: nat, ok: nat)

  const ZERO := Stat(0, 0)

  function Plus(a: Stat, b: Stat): Stat {
    Stat(a.reports + b.reports, a.ok + b.ok)
  }

  predicate Same(a: Stat, b: Stat) {
    a.reports == b.reports && a.ok == b.ok
  }

  // ----- insertion-ordered tables -----

  /** A JavaScript `Map` of counters: its keys in insertion order, and their values. */
  datatype Table = Table(order: seq<string>, at: map<string, Stat>)

  const EMPTY := Table([], map[])

  function Get(t: Table, key: string): Stat {
    if key in t.at then t.at[key] else ZERO
  }

  function Bump(t: Table, key: string, more: Stat): Table {
    Table(if key in t.at then t.order else t.order + [key], t.at[key := Plus(Get(t, key), more)])
  }

  ghost predicate ValidTable(t: Table) {
    && (forall i, j :: 0 <= i < j < |t.order| ==> t.order[i] != t.order[j])
    && (forall key :: key in t.at <==> key in t.order)
  }

  function Total(order: seq<string>, at: map<string, Stat>): Stat {
    if order == [] then ZERO
    else
      var key := order[|order| - 1];
      Plus(Total(order[..|order| - 1], at), if key in at then at[key] else ZERO)
  }

  lemma {:induction false} TotalUnaffected(order: seq<string>, at: map<string, Stat>, key: string, v: Stat)
    requires key !in order
    ensures Same(Total(order, at[key := v]), Total(order, at))
  {
    if order != [] { TotalUnaffected(order[..|order| - 1], at, key, v); }
  }

  lemma {:induction false} TotalReplaced(order: seq<string>, at: map<string, Stat>, key: string, more: Stat)
    requires forall i, j :: 0 <= i < j < |order| ==> order[i] != order[j]
    requires key in order && key in at
    ensures Same(Total(order, at[key := Plus(at[key], more)]), Plus(Total(order, at), more))
  {
    var init, last := order[..|order| - 1], order[|order| - 1];
    if last == key {
      TotalUnaffected(init, at, key, Plus(at[key], more));
    } else {
      TotalReplaced(init, at, key, more);
    }
  }

  lemma BumpValid(t: Table, key: string, more: Stat)
    requires ValidTable(t)
    ensures ValidTable(Bump(t, key, more))
  {
  }

  lemma BumpTotal(t: Table, key: string, more: Stat)
    requires ValidTable(t)
    ensures ValidTable(Bump(t, key, more))
    ensures var b := Bump(t, key, more); Same(Total(b.order, b.at), Plus(Total(t.order, t.at), more))
  {
    BumpValid(t, key, more);
    BumpAdds(t.order, t.at, key, more);
  }

  lemma BumpAdds(order: seq<string>, at: map<string, Stat>, key: string, more: Stat)
    requires forall i, j :: 0 <= i < j < |order| ==> order[i] != order[j]
    requires key in at <==> key in order
    ensures var b := Bump(Table(order, at), key, more); Same(Total(b.order, b.at), Plus(Total(order, at), more))
  {
    if key in at { TotalReplaced(order, at, key, more); } else { TotalExtended(order, at, key, Plus(ZERO, more)); }
  }

  /** A new key at the end adds its value. */
  lemma TotalExtended(order: seq<string>, at: map<string, Stat>, key: string, v: Stat)
    requires key !in order
    ensures Total(order + [key], at[key := v]) == Plus(Total(order, at), v)
  {
    TotalUnaffected(order, at, key, v);
    assert (order + [key])[..|order|] == order;
  }

  // ----- the aggregation -----

  /** `cells` and `shares` hold, under one key, a cell's totals and its transports. */
  datatype Aggregate = Aggregate(
    cells: Table, shares: map<string, Table>, rtts: map<string, seq<int>>, transports: Table, total: nat)

  /** The provider, a bar, the city. */
  function CellKey(isp: string, city: string): string {
    if isp == [] then ['|'] + city else [isp[0]] + CellKey(isp[1..], city)
  }

  function Share(shares: map<string, Table>, key: string): Table {
    if key in shares then shares[key] else EMPTY
  }

  function Heard(rtts: map<string, seq<int>>, key: string): seq<int> {
    if key in rtts then rtts[key] else []
  }

  function Own(row: Row): Stat {
    Stat(row.n, row.ok)
  }

  function RowKey(row: Row): string {
    CellKey(row.isp, row.city)
  }

  function CellsOf(rows: seq<Row>): Table {
    if rows == [] then EMPTY
    else var row := rows[|rows| - 1]; Bump(CellsOf(rows[..|rows| - 1]), RowKey(row), Own(row))
  }

  function SharesOf(rows: seq<Row>): map<string, Table> {
    if rows == [] then map[]
    else
      var row, shares := rows[|rows| - 1], SharesOf(rows[..|rows| - 1]);
      shares[RowKey(row) := Bump(Share(shares, RowKey(row)), row.transport, Own(row))]
  }

  function RttsOf(rows: seq<Row>): map<string, seq<int>> {
    if rows == [] then map[]
    else
      var row, rtts := rows[|rows| - 1], RttsOf(rows[..|rows| - 1]);
      rtts[RowKey(row) := Heard(rtts, RowKey(row)) + row.rtts]
  }

  function TransportsOf(rows: seq<Row>): Table {
    if rows == [] then EMPTY
    else var row := rows[|rows| - 1]; Bump(TransportsOf(rows[..|rows| - 1]), row.transport, Own(row))
  }

  function TotalOf(rows: seq<Row>): nat {
    if rows == [] then 0 else TotalOf(rows[..|rows| - 1]) + rows[|rows| - 1].n
  }

  /** `aggregateMap`, on the grouped rows. */
  method AggregateMap(rows: seq<Row>) returns (a: Aggregate)
    ensures a == Aggregate(CellsOf(rows), SharesOf(rows), RttsOf(rows), TransportsOf(rows), TotalOf(rows))
  {
    var cells, shares, rtts, transports, total: nat := EMPTY, map[], map[], EMPTY, 0;
    var i := 0;
    while i < |rows|
      invariant 0 <= i <= |rows|
      invariant cells == CellsOf(rows[..i]) && shares == SharesOf(rows[..i]) && rtts == RttsOf(rows[..i])
      invariant transports == TransportsOf(rows[..i]) && total == TotalOf(rows[..i])
    {
      assert rows[..i + 1][..i] == rows[..i];
      var row := rows[i];
      var key, more := CellKey(row.isp, row.city), Stat(row.n, row.ok);
      cells := Bump(cells, key, more);
      rtts := rtts[key := Heard(rtts, key) + row.rtts];
      shares := shares[key := Bump(Share(shares, key), row.transport, more)];
      transports := Bump(transports, row.transport, more);
      total := total + row.n;
      i := i + 1;
    }
    assert rows[..|rows|] == rows;
    a := Aggregate(cells, shares, rtts, transports, total);
  }

  // ----- what each figure is -----

  /** A question about the rows: one cell, one transport, a transport of a cell, or everything. */
  datatype Query =
    | Anything
    | Cell(isp: string, city: string)
    | Lane(transport: string)
    | CellLane(isp: string, city: string, transport: string)

  predicate Matches(q: Query, row: Row) {
    match q
    case Anything => true
    case Cell(isp, city) => row.isp == isp && row.city == city
    case Lane(transport) => row.transport == transport
    case CellLane(isp, city, transport) => row.isp == isp && row.city == city && row.transport == transport
  }

  function Weight(q: Query, row: Row): Stat {
    if Matches(q, row) then Stat(row.n, row.ok) else ZERO
  }

  function Sum(rows: seq<Row>, q: Query): Stat {
    if rows == [] then ZERO else Plus(Sum(rows[..|rows| - 1], q), Weight(q, rows[|rows| - 1]))
  }

  predicate NoBar(s: string) {
    forall i :: 0 <= i < |s| ==> s[i] != '|'
  }

  /** No listed provider contains the separator. */
  lemma ListedProvidersHaveNoBar(i: nat)
    requires i < |ISPS|
    ensures NoBar(ISPS[i])
  {
  }

  /** So a cell's key names its provider and city. */
  lemma {:induction false} KeyIsInjective(isp: string, city: string, isp': string, city': string)
    requires NoBar(isp) && NoBar(isp') && CellKey(isp, city) == CellKey(isp', city')
    ensures isp == isp' && city == city'
  {
    var k := CellKey(isp, city);
    if isp == [] {
      assert k[0] == '|' && k[1..] == city;
      assert isp' == [];
    } else {
      assert k[0] == isp[0] && k[1..] == CellKey(isp[1..], city);
      assert isp' != [] && k[0] == isp'[0] && k[1..] == CellKey(isp'[1..], city');
      KeyIsInjective(isp[1..], city, isp'[1..], city');
    }
  }

  ghost predicate Listed(rows: seq<Row>) {
    forall i :: 0 <= i < |rows| ==> NoBar(rows[i].isp)
  }

  lemma GetBump(t: Table, key: string, more: Stat, k: string)
    ensures Get(Bump(t, key, more), k).reports == Get(t, k).reports + (if k == key then more.reports else 0)
    ensures Get(Bump(t, key, more), k).ok == Get(t, k).ok + (if k == key then more.ok else 0)
  {
  }

  lemma SumStep(init: seq<Row>, row: Row, rows: seq<Row>, q: Query)
    requires rows == init + [row]
    ensures Sum(rows, q).reports == Sum(init, q).reports + (if Matches(q, row) then row.n else 0)
    ensures Sum(rows, q).ok == Sum(init, q).ok + (if Matches(q, row) then row.ok else 0)
  {
    assert rows[..|rows| - 1] == init;
  }

  /** Every transport's global counter is the sum of its rows. */
  lemma {:induction false} TransportIsSum(rows: seq<Row>, transport: string)
    ensures Same(Get(TransportsOf(rows), transport), Sum(rows, Lane(transport)))
  {
    if rows != [] {
      var init, row := rows[..|rows| - 1], rows[|rows| - 1];
      TransportIsSum(init, transport);
      SumStep(init, row, rows, Lane(transport));
      GetBump(TransportsOf(init), row.transport, Own(row), transport);
    }
  }

  /** Every cell is the sum of exactly its own rows. */
  lemma {:induction false} CellIsSum(rows: seq<Row>, isp: string, city: string)
    requires Listed(rows) && NoBar(isp)
    ensures Same(Get(CellsOf(rows), CellKey(isp, city)), Sum(rows, Cell(isp, city)))
  {
    if rows != [] {
      var init, row := rows[..|rows| - 1], rows[|rows| - 1];
      CellIsSum(init, isp, city);
      SumStep(init, row, rows, Cell(isp, city));
      GetBump(CellsOf(init), RowKey(row), Own(row), CellKey(isp, city));
      SameCell(row, isp, city);
    }
  }

  lemma SameCell(row: Row, isp: string, city: string)
    requires NoBar(row.isp) && NoBar(isp)
    ensures RowKey(row) == CellKey(isp, city) <==> row.isp == isp && row.city == city
  {
    if RowKey(row) == CellKey(isp, city) { KeyIsInjective(row.isp, row.city, isp, city); }
  }

  lemma ShareStep(shares: map<string, Table>, cell: string, lane: string, more: Stat, key: string, transport: string)
    ensures var next := shares[cell := Bump(Share(shares, cell), lane, more)];
      var hit := cell == key && lane == transport;
      && Get(Share(next, key), transport).reports
         == Get(Share(shares, key), transport).reports + (if hit then more.reports else 0)
      && Get(Share(next, key), transport).ok == Get(Share(shares, key), transport).ok + (if hit then more.ok else 0)
  {
    GetBump(Share(shares, cell), lane, more, transport);
  }

  /** So is every transport inside a cell. */
  lemma {:induction false} ShareIsSum(rows: seq<Row>, isp: string, city: string, transport: string)
    requires Listed(rows) && NoBar(isp)
    ensures Same(Get(Share(SharesOf(rows), CellKey(isp, city)), transport), Sum(rows, CellLane(isp, city, transport)))
  {
    if rows != [] {
      var init, row, key := rows[..|rows| - 1], rows[|rows| - 1], CellKey(isp, city);
      ShareIsSum(init, isp, city, transport);
      SumStep(init, row, rows, CellLane(isp, city, transport));
      ShareStep(SharesOf(init), RowKey(row), row.transport, Own(row), key, transport);
      SameCell(row, isp, city);
    }
  }

  // ----- conservation -----

  ghost predicate Counted(rows: seq<Row>) {
    forall i :: 0 <= i < |rows| ==> rows[i].ok <= rows[i].n
  }

  lemma {:induction false} ShareTotal(rows: seq<Row>, key: string)
    ensures var s := Share(SharesOf(rows), key); ValidTable(s) && Same(Total(s.order, s.at), Get(CellsOf(rows), key))
  {
    if rows != [] {
      var init, row := rows[..|rows| - 1], rows[|rows| - 1];
      ShareTotal(init, key);
      BumpTotal(Share(SharesOf(init), key), row.transport, Own(row));
    }
  }

  lemma {:induction false} CellsTotal(rows: seq<Row>)
    ensures ValidTable(CellsOf(rows)) && Same(Total(CellsOf(rows).order, CellsOf(rows).at), Sum(rows, Anything))
  {
    if rows != [] {
      var init, row := rows[..|rows| - 1], rows[|rows| - 1];
      CellsTotal(init);
      BumpTotal(CellsOf(init), RowKey(row), Own(row));
    }
  }

  lemma {:induction false} TransportsTotal(rows: seq<Row>)
    ensures ValidTable(TransportsOf(rows))
    ensures Same(Total(TransportsOf(rows).order, TransportsOf(rows).at), Sum(rows, Anything))
  {
    if rows != [] {
      var init, row := rows[..|rows| - 1], rows[|rows| - 1];
      TransportsTotal(init);
      BumpTotal(TransportsOf(init), row.transport, Own(row));
    }
  }

  lemma {:induction false} GrandTotal(rows: seq<Row>)
    ensures TotalOf(rows) == Sum(rows, Anything).reports
  {
    if rows != [] { GrandTotal(rows[..|rows| - 1]); }
  }

  /**
   * Counts are conserved: the cells sum to the grand total, the global transports sum to it too, and the transports
   * of every cell sum to that cell, all with their successes.
   */
  lemma CountsAreConserved(rows: seq<Row>, key: string)
    ensures var cells, transports, share := CellsOf(rows), TransportsOf(rows), Share(SharesOf(rows), key);
      && Total(cells.order, cells.at).reports == TotalOf(rows) == Total(transports.order, transports.at).reports
      && Total(cells.order, cells.at).ok == Total(transports.order, transports.at).ok
      && Same(Total(share.order, share.at), Get(cells, key))
  {
    CellsTotal(rows);
    TransportsTotal(rows);
    GrandTotal(rows);
    ShareTotal(rows, key);
  }

  lemma {:induction false} OkNeverExceedsReports(rows: seq<Row>, q: Query)
    requires Counted(rows)
    ensures Sum(rows, q).ok <= Sum(rows, q).reports
  {
    if rows != [] {
      OkNeverExceedsReports(rows[..|rows| - 1], q);
    }
  }

  /** In every cell, every transport of a cell and every global transport. */
  lemma OkWithinReports(rows: seq<Row>, isp: string, city: string, transport: string)
    requires Counted(rows) && Listed(rows) && NoBar(isp)
    ensures var cell := Get(CellsOf(rows), CellKey(isp, city)); cell.ok <= cell.reports
    ensures var share := Get(Share(SharesOf(rows), CellKey(isp, city)), transport); share.ok <= share.reports
    ensures var lane := Get(TransportsOf(rows), transport); lane.ok <= lane.reports
  {
    CellIsSum(rows, isp, city);
    OkNeverExceedsReports(rows, Cell(isp, city));
    ShareIsSum(rows, isp, city, transport);
    OkNeverExceedsReports(rows, CellLane(isp, city, transport));
    TransportIsSum(rows, transport);
    OkNeverExceedsReports(rows, Lane(transport));
  }

  // ----- order -----

  lemma {:induction false} SumWithout(rows: seq<Row>, q: Query, i: nat)
    requires i < |rows|
    ensures Sum(rows, q).reports
            == Sum(rows[..i] + rows[i + 1..], q).reports + (if Matches(q, rows[i]) then rows[i].n else 0)
    ensures Sum(rows, q).ok == Sum(rows[..i] + rows[i + 1..], q).ok + (if Matches(q, rows[i]) then rows[i].ok else 0)
    decreases |rows|
  {
    var n := |rows| - 1;
    if i == n {
      assert rows[..i] + rows[i + 1..] == rows[..n];
    } else {
      SumWithout(rows[..n], q, i);
      var init, rest := rows[..n][..i] + rows[..n][i + 1..], rows[..i] + rows[i + 1..];
      SumStep(rows[..n], rows[n], rows, q);
      SumStep(init, rows[n], rest, q);
    }
  }

  lemma Removal(b: seq<Row>, x: Row) returns (i: nat, rest: seq<Row>)
    requires x in multiset(b)
    ensures i < |b| && b[i] == x && rest == b[..i] + b[i + 1..] && multiset(rest) == multiset(b) - multiset{x}
  {
    i :| 0 <= i < |b| && b[i] == x;
    rest := b[..i] + b[i + 1..];
    assert b == b[..i] + [b[i]] + b[i + 1..];
  }

  /** A sum ignores the order of the rows. */
  lemma {:induction false} SumIgnoresOrder(a: seq<Row>, b: seq<Row>, q: Query)
    requires multiset(a) == multiset(b)
    ensures Same(Sum(a, q), Sum(b, q))
    decreases |a|
  {
    if a == [] {
      assert |b| == |multiset(b)| == 0;
    } else {
      var last, init := a[|a| - 1], a[..|a| - 1];
      assert a == init + [last];
      var i, rest := Removal(b, last);
      SumIgnoresOrder(init, rest, q);
      SumStep(init, last, a, q);
      SumWithout(b, q, i);
    }
  }

  /** The database may return the groups in any order: every figure of the map is the same. */
  lemma AggregationIgnoresOrder(a: seq<Row>, b: seq<Row>, isp: string, city: string, transport: string)
    requires multiset(a) == multiset(b) && Listed(a) && Listed(b) && NoBar(isp)
    ensures Same(Get(CellsOf(a), CellKey(isp, city)), Get(CellsOf(b), CellKey(isp, city)))
    ensures Same(Get(Share(SharesOf(a), CellKey(isp, city)), transport),
                 Get(Share(SharesOf(b), CellKey(isp, city)), transport))
    ensures Same(Get(TransportsOf(a), transport), Get(TransportsOf(b), transport))
    ensures TotalOf(a) == TotalOf(b)
  {
    CellIsSum(a, isp, city);
    CellIsSum(b, isp, city);
    SumIgnoresOrder(a, b, Cell(isp, city));
    ShareIsSum(a, isp, city, transport);
    ShareIsSum(b, isp, city, transport);
    SumIgnoresOrder(a, b, CellLane(isp, city, transport));
    TransportIsSum(a, transport);
    TransportIsSum(b, transport);
    SumIgnoresOrder(a, b, Lane(transport));
    GrandTotal(a);
    GrandTotal(b);
    SumIgnoresOrder(a, b, Anything);
  }

  // ----- medians -----

  function Itself(x: int): real {
    x as real
  }

  function Median(values: seq<int>): Option<int> {
    SortSorts(values, Itself);
    if values == [] then None else Some(Sort(values, Itself)[|values| / 2])
  }

  ghost predicate Ascending(s: seq<int>) {
    forall i, j :: 0 <= i < j < |s| ==> s[i] <= s[j]
  }

  lemma SortedIsAscending(s: seq<int>)
    requires Sorted(s, Itself)
    ensures Ascending(s)
  {
    forall i, j | 0 <= i < j < |s| ensures s[i] <= s[j] {
      assert Itself(s[i]) <= Itself(s[j]);
    }
  }

  lemma LastIsGreatest(s: seq<int>, x: int)
    requires Ascending(s) && x in multiset(s)
    ensures s != [] && x <= s[|s| - 1]
  {
    var i :| 0 <= i < |s| && s[i] == x;
  }

  lemma WithoutLast(s: seq<int>)
    requires s != []
    ensures multiset(s[..|s| - 1]) == multiset(s) - multiset{s[|s| - 1]}
    ensures Ascending(s) ==> Ascending(s[..|s| - 1])
  {
    assert s == s[..|s| - 1] + [s[|s| - 1]];
  }

  lemma SameLast(a: seq<int>, b: seq<int>)
    requires Ascending(a) && Ascending(b) && multiset(a) == multiset(b) && a != []
    ensures |a| == |b| && a[|a| - 1] == b[|b| - 1]
  {
    assert |a| == |multiset(a)| == |multiset(b)| == |b|;
    assert a[|a| - 1] in multiset(a) && b[|b| - 1] in multiset(b);
    LastIsGreatest(a, b[|b| - 1]);
    LastIsGreatest(b, a[|a| - 1]);
  }

  lemma Rebuilt(a: seq<int>, b: seq<int>)
    requires |a| == |b| > 0 && a[..|a| - 1] == b[..|b| - 1] && a[|a| - 1] == b[|b| - 1]
    ensures a == b
  {
    assert a == a[..|a| - 1] + [a[|a| - 1]] == b;
  }

  /** Only one ascending sequence has given elements. */
  lemma {:induction false} AscendingIsUnique(a: seq<int>, b: seq<int>)
    requires Ascending(a) && Ascending(b) && multiset(a) == multiset(b)
    ensures a == b
    decreases |a|
  {
    if a == [] {
      assert |b| == |multiset(b)| == 0;
    } else {
      var n := |a| - 1;
      SameLast(a, b);
      WithoutLast(a);
      WithoutLast(b);
      AscendingIsUnique(a[..n], b[..n]);
      Rebuilt(a, b);
    }
  }

  function Below(s: seq<int>, v: int): nat {
    if s == [] then 0 else Below(s[..|s| - 1], v) + (if s[|s| - 1] < v then 1 else 0)
  }

  function Above(s: seq<int>, v: int): nat {
    if s == [] then 0 else Above(s[..|s| - 1], v) + (if s[|s| - 1] > v then 1 else 0)
  }

  lemma {:induction false} CountsOfBag(a: seq<int>, b: seq<int>, v: int)
    requires multiset(a) == multiset(b)
    ensures Below(a, v) == Below(b, v) && Above(a, v) == Above(b, v)
    decreases |a|
  {
    if a == [] {
      assert |b| == |multiset(b)| == 0;
    } else {
      var last, init := a[|a| - 1], a[..|a| - 1];
      var i := PlaceOf(a, b);
      CountsOfBag(init, b[..i] + b[i + 1..], v);
      CountsWithout(b, i, v);
    }
  }

  /** Where the last element of one stands in the other, and that both agree without it. */
  lemma PlaceOf(a: seq<int>, b: seq<int>) returns (i: nat)
    requires a != [] && multiset(a) == multiset(b)
    ensures i < |b| && b[i] == a[|a| - 1] && multiset(a[..|a| - 1]) == multiset(b[..i] + b[i + 1..])
  {
    assert a == a[..|a| - 1] + [a[|a| - 1]];
    assert a[|a| - 1] in multiset(b);
    i :| 0 <= i < |b| && b[i] == a[|a| - 1];
    WithoutAt(b, i);
  }

  lemma WithoutAt(b: seq<int>, i: nat)
    requires i < |b|
    ensures multiset(b[..i] + b[i + 1..]) == multiset(b) - multiset{b[i]}
  {
    assert b == b[..i] + [b[i]] + b[i + 1..];
  }

  lemma {:induction false} CountsWithout(b: seq<int>, i: nat, v: int)
    requires i < |b|
    ensures Below(b, v) == Below(b[..i] + b[i + 1..], v) + (if b[i] < v then 1 else 0)
    ensures Above(b, v) == Above(b[..i] + b[i + 1..], v) + (if b[i] > v then 1 else 0)
    decreases |b|
  {
    var n := |b| - 1;
    if i == n {
      assert b[..i] + b[i + 1..] == b[..n];
    } else {
      var rest := b[..i] + b[i + 1..];
      CountsWithout(b[..n], i, v);
      assert rest[..|rest| - 1] == b[..n][..i] + b[..n][i + 1..];
    }
  }

  /** In an ascending sequence at most k elements are less than the one at k, and none up to it is greater. */
  lemma {:induction false} CountsAscending(s: seq<int>, k: nat)
    requires Ascending(s) && k < |s|
    ensures Below(s, s[k]) <= k && Above(s, s[k]) <= |s| - 1 - k
    decreases |s|
  {
    var n := |s| - 1;
    if k < n {
      CountsAscending(s[..n], k);
    } else {
      NoneAbove(s, s[k]);
      BelowAtMost(s[..n], s[k]);
    }
  }

  lemma {:induction false} NoneAbove(s: seq<int>, v: int)
    requires forall i :: 0 <= i < |s| ==> s[i] <= v
    ensures Above(s, v) == 0
  {
    if s != [] { NoneAbove(s[..|s| - 1], v); }
  }

  lemma {:induction false} BelowAtMost(s: seq<int>, v: int)
    ensures Below(s, v) <= |s|
  {
    if s != [] { BelowAtMost(s[..|s| - 1], v); }
  }

  /** The median is one of the values, with at most half of them below it and less than half above. */
  lemma MedianIsMiddle(values: seq<int>)
    ensures Median(values).None? <==> values == []
    ensures values != [] ==>
      var m := Median(values).value;
      m in values && 2 * Below(values, m) <= |values| && 2 * Above(values, m) < |values|
  {
    if values != [] {
      var s := Sort(values, Itself);
      SortSorts(values, Itself);
      SortedIsAscending(s);
      var m := s[|s| / 2];
      CountsAscending(s, |s| / 2);
      CountsOfBag(s, values, m);
      assert m in multiset(s);
    }
  }

  /** How often a cell heard the round-trip time v. */
  function Times(row: Row, key: string, v: int): nat {
    if RowKey(row) == key then multiset(row.rtts)[v] else 0
  }

  function HowOften(rows: seq<Row>, key: string, v: int): nat {
    if rows == [] then 0 else HowOften(rows[..|rows| - 1], key, v) + Times(rows[|rows| - 1], key, v)
  }

  lemma {:induction false} HeardOften(rows: seq<Row>, key: string, v: int)
    ensures multiset(Heard(RttsOf(rows), key))[v] == HowOften(rows, key, v)
  {
    if rows != [] { HeardOften(rows[..|rows| - 1], key, v); }
  }

  lemma {:induction false} OftenWithout(rows: seq<Row>, key: string, v: int, i: nat)
    requires i < |rows|
    ensures HowOften(rows, key, v) == HowOften(rows[..i] + rows[i + 1..], key, v) + Times(rows[i], key, v)
    decreases |rows|
  {
    var n := |rows| - 1;
    if i == n {
      assert rows[..i] + rows[i + 1..] == rows[..n];
    } else {
      OftenWithout(rows[..n], key, v, i);
      var rest := rows[..i] + rows[i + 1..];
      assert rest[..|rest| - 1] == rows[..n][..i] + rows[..n][i + 1..];
    }
  }

  lemma {:induction false} OftenIgnoresOrder(a: seq<Row>, b: seq<Row>, key: string, v: int)
    requires multiset(a) == multiset(b)
    ensures HowOften(a, key, v) == HowOften(b, key, v)
    decreases |a|
  {
    if a == [] {
      assert |b| == |multiset(b)| == 0;
    } else {
      var last, init := a[|a| - 1], a[..|a| - 1];
      assert a == init + [last];
      var i, rest := Removal(b, last);
      OftenIgnoresOrder(init, rest, key, v);
      OftenWithout(b, key, v, i);
    }
  }

  /** A cell's median does not depend on the order of the groups either. */
  lemma MedianIgnoresOrder(a: seq<Row>, b: seq<Row>, key: string)
    requires multiset(a) == multiset(b)
    ensures Median(Heard(RttsOf(a), key)) == Median(Heard(RttsOf(b), key))
  {
    var x, y := Heard(RttsOf(a), key), Heard(RttsOf(b), key);
    forall v ensures multiset(x)[v] == multiset(y)[v] {
      HeardOften(a, key, v);
      HeardOften(b, key, v);
      OftenIgnoresOrder(a, b, key, v);
    }
    MedianOfBag(x, y);
  }

  lemma MedianOfBag(x: seq<int>, y: seq<int>)
    requires multiset(x) == multiset(y)
    ensures Median(x) == Median(y)
  {
    SortSorts(x, Itself);
    SortSorts(y, Itself);
    SortedIsAscending(Sort(x, Itself));
    SortedIsAscending(Sort(y, Itself));
    AscendingIsUnique(Sort(x, Itself), Sort(y, Itself));
  }
}

/**
 * The node's traffic ledger: reports gather in `dirty`, a flush takes them all and writes them in batches of
 * one hundred statements, and a failed batch puts the whole flush back.  Reports and several flushes
 * interleave at every await.
 */
module Ledger {
  import opened Numbers

  /** Usernames and days are used only as keys. */
  type User = nat
  type Day = nat

  datatype Usage = Usage(up: nat, down: nat, conns: nat)

  /** The three quantities a ledger row counts. */
  datatype Field = Up | Down | Conns

  const NONE := Usage(0, 0, 0)

  function Plus(a: Usage, b: Usage): Usage {
    Usage(a.up + b.up, a.down + b.down, a.conns + b.conns)
  }

  function Get(u: Usage, f: Field): nat {
    match f
    case Up => u.up
    case Down => u.down
    case Conns => u.conns
  }

  datatype Entry = Entry(user: User, usage: Usage)

  datatype DailyRow = DailyRow(day: Day, user: User, usage: Usage)

  /** The tables: `used_bytes` of the users that exist, and the daily rows, unique per day and user. */
  datatype Database = Database(used: map<User, nat>, daily: seq<DailyRow>)

  datatype Statement =
    | AddUsed(bytes: nat, user: User)
    | AddDaily(day: Day, user: User, usage: Usage)

  // ----- what the statements do -----

  function UpsertDaily(rows: seq<DailyRow>, day: Day, user: User, usage: Usage): seq<DailyRow> {
    if rows == [] then [DailyRow(day, user, usage)]
    else if rows[0].day == day && rows[0].user == user then
      [DailyRow(day, user, Plus(rows[0].usage, usage))] + rows[1..]
    else [rows[0]] + UpsertDaily(rows[1..], day, user, usage)
  }

  function Execute(db: Database, st: Statement): Database {
    match st
    case AddUsed(bytes, user) => if user in db.used then db.(used := db.used[user := db.used[user] + bytes]) else db
    case AddDaily(day, user, usage) => db.(daily := UpsertDaily(db.daily, day, user, usage))
  }

  function ExecuteAll(db: Database, sts: seq<Statement>): Database
    decreases |sts|
  {
    if sts == [] then db else ExecuteAll(Execute(db, sts[0]), sts[1..])
  }

  /** The statement list of a flush: two statements per entry, side by side. */
  function Statements(entries: seq<Entry>, day: Day): (sts: seq<Statement>)
    ensures |sts| == 2 * |entries|
  {
    if entries == [] then []
    else [AddUsed(entries[0].usage.up + entries[0].usage.down, entries[0].user),
          AddDaily(day, entries[0].user, entries[0].usage)] + Statements(entries[1..], day)
  }

  /** `r.slice(100 * n, 100 * n + 100)`. */
  function Batch(entries: seq<Entry>, day: Day, n: nat): seq<Statement>
    requires 50 * n <= |entries|
  {
    Statements(entries, day)[100 * n .. Min(100 * n + 100, 2 * |entries|)]
  }

  /** The entries whose statements batch `n` holds. */
  function BatchEntries(entries: seq<Entry>, n: nat): seq<Entry>
    requires 50 * n <= |entries|
  {
    entries[50 * n .. Min(50 * n + 50, |entries|)]
  }

  /** Statements 2i and 2i + 1 are those of entry i. */
  lemma {:induction false} StatementsAt(entries: seq<Entry>, day: Day, i: nat)
    requires i < |entries|
    ensures Statements(entries, day)[2 * i] == AddUsed(entries[i].usage.up + entries[i].usage.down, entries[i].user)
    ensures Statements(entries, day)[2 * i + 1] == AddDaily(day, entries[i].user, entries[i].usage)
    decreases i
  {
    if i > 0 {
      StatementsAt(entries[1..], day, i - 1);
      var all, rest := Statements(entries, day), Statements(entries[1..], day);
      assert all[2..] == rest;
      assert all[2 * i] == rest[2 * (i - 1)] && all[2 * i + 1] == rest[2 * (i - 1) + 1];
    }
  }

  lemma StatementsSlice(entries: seq<Entry>, day: Day, lo: nat, hi: nat)
    requires lo <= hi <= |entries|
    ensures Statements(entries, day)[2 * lo .. 2 * hi] == Statements(entries[lo..hi], day)
  {
    var part, whole := Statements(entries[lo..hi], day), Statements(entries, day);
    forall k | 0 <= k < 2 * (hi - lo) ensures whole[2 * lo + k] == part[k] {
      StatementsAt(entries, day, lo + k / 2);
      StatementsAt(entries[lo..hi], day, k / 2);
      assert k == 2 * (k / 2) || k == 2 * (k / 2) + 1;
    }
  }

  /** A user's two statements never straddle a batch. */
  lemma BatchIsWholeEntries(entries: seq<Entry>, day: Day, n: nat)
    requires 50 * n <= |entries|
    ensures Batch(entries, day, n) == Statements(BatchEntries(entries, n), day)
  {
    StatementsSlice(entries, day, 50 * n, Min(50 * n + 50, |entries|));
  }

  // ----- totals -----

  /** What `usage` booked for `of` contributes to `user`. */
  function Share(of: User, usage: Usage, user: User, f: Field): nat {
    if of == user then Get(usage, f) else 0
  }

  function DailyTotal(rows: seq<DailyRow>, user: User, f: Field): nat {
    if rows == [] then 0 else Share(rows[0].user, rows[0].usage, user, f) + DailyTotal(rows[1..], user, f)
  }

  function EntryTotal(entries: seq<Entry>, user: User, f: Field): nat {
    if entries == [] then 0 else Share(entries[0].user, entries[0].usage, user, f) + EntryTotal(entries[1..], user, f)
  }

  function DirtyOf(dirty: map<User, Usage>, user: User, f: Field): nat {
    if user in dirty then Get(dirty[user], f) else 0
  }

  lemma {:induction false} UpsertDailyAdds(rows: seq<DailyRow>, day: Day, u: User, usage: Usage, user: User, f: Field)
    ensures DailyTotal(UpsertDaily(rows, day, u, usage), user, f)
         == DailyTotal(rows, user, f) + Share(u, usage, user, f)
  {
    var rows' := UpsertDaily(rows, day, u, usage);
    if rows == [] {
      assert rows' == [DailyRow(day, u, usage)] && rows'[1..] == [];
    } else if rows[0].day == day && rows[0].user == u {
      assert rows'[0] == DailyRow(day, u, Plus(rows[0].usage, usage)) && rows'[1..] == rows[1..];
    } else {
      UpsertDailyAdds(rows[1..], day, u, usage, user, f);
      assert rows'[0] == rows[0] && rows'[1..] == UpsertDaily(rows[1..], day, u, usage);
    }
  }

  function AfterEntry(db: Database, e: Entry, day: Day): Database {
    Database(if e.user in db.used then db.used[e.user := db.used[e.user] + (e.usage.up + e.usage.down)] else db.used,
             UpsertDaily(db.daily, day, e.user, e.usage))
  }

  lemma ExecuteEntry(db: Database, entries: seq<Entry>, day: Day)
    requires entries != []
    ensures ExecuteAll(db, Statements(entries, day))
         == ExecuteAll(AfterEntry(db, entries[0], day), Statements(entries[1..], day))
  {
    var e, sts := entries[0], Statements(entries, day);
    var first, second := AddUsed(e.usage.up + e.usage.down, e.user), AddDaily(day, e.user, e.usage);
    assert sts[0] == first && sts[1..][0] == second && sts[1..][1..] == Statements(entries[1..], day);
    assert ExecuteAll(db, sts) == ExecuteAll(Execute(db, first), sts[1..]);
    assert Execute(Execute(db, first), second) == AfterEntry(db, e, day);
  }

  /** Entry by entry instead of statement by statement. */
  function Book(db: Database, entries: seq<Entry>, day: Day): Database
    decreases |entries|
  {
    if entries == [] then db else Book(AfterEntry(db, entries[0], day), entries[1..], day)
  }

  lemma {:induction false} ExecutingStatementsBooks(db: Database, entries: seq<Entry>, day: Day)
    ensures ExecuteAll(db, Statements(entries, day)) == Book(db, entries, day)
    decreases |entries|
  {
    if entries != [] {
      ExecuteEntry(db, entries, day);
      ExecutingStatementsBooks(AfterEntry(db, entries[0], day), entries[1..], day);
    }
  }

  /** Booking some entries adds exactly those entries to the daily rows ... */
  lemma {:induction false} BookAddsDaily(db: Database, entries: seq<Entry>, day: Day, user: User, f: Field)
    ensures DailyTotal(Book(db, entries, day).daily, user, f)
         == DailyTotal(db.daily, user, f) + EntryTotal(entries, user, f)
    decreases |entries|
  {
    if entries != [] {
      UpsertDailyAdds(db.daily, day, entries[0].user, entries[0].usage, user, f);
      BookAddsDaily(AfterEntry(db, entries[0], day), entries[1..], day, user, f);
    }
  }

  /** ... and their bytes to `used_bytes` of every user that exists. */
  lemma {:induction false} BookAddsUsed(db: Database, entries: seq<Entry>, day: Day, user: User)
    ensures var db' := Book(db, entries, day);
      && db'.used.Keys == db.used.Keys
      && (user in db.used ==>
            db'.used[user] == db.used[user] + EntryTotal(entries, user, Up) + EntryTotal(entries, user, Down))
    decreases |entries|
  {
    if entries != [] {
      var db1 := AfterEntry(db, entries[0], day);
      assert db1.used.Keys == db.used.Keys;
      BookAddsUsed(db1, entries[1..], day, user);
    }
  }

  // ----- totals of one day -----

  /** What the rows of one day hold for one user. */
  function DayTotal(rows: seq<DailyRow>, day: Day, user: User, f: Field): nat {
    if rows == [] then 0
    else (if rows[0].day == day then Share(rows[0].user, rows[0].usage, user, f) else 0)
         + DayTotal(rows[1..], day, user, f)
  }

  /** `UNIQUE (day, username)`. */
  ghost predicate UniqueRows(rows: seq<DailyRow>) {
    forall i, j :: 0 <= i < j < |rows| ==> rows[i].day != rows[j].day || rows[i].user != rows[j].user
  }

  lemma {:induction false} UpsertDayAdds(rows: seq<DailyRow>, on: Day, u: User, usage: Usage, day: Day, user: User,
                                         f: Field)
    ensures DayTotal(UpsertDaily(rows, on, u, usage), day, user, f)
         == DayTotal(rows, day, user, f) + (if on == day then Share(u, usage, user, f) else 0)
  {
    var rows' := UpsertDaily(rows, on, u, usage);
    if rows == [] {
      assert rows' == [DailyRow(on, u, usage)] && rows'[1..] == [];
    } else if rows[0].day == on && rows[0].user == u {
      assert rows'[0] == DailyRow(on, u, Plus(rows[0].usage, usage)) && rows'[1..] == rows[1..];
    } else {
      UpsertDayAdds(rows[1..], on, u, usage, day, user, f);
      assert rows'[0] == rows[0] && rows'[1..] == UpsertDaily(rows[1..], on, u, usage);
    }
  }

  /** A flush of one day adds its entries to that day, and nothing to any other. */
  lemma {:induction false} BookAddsDay(db: Database, entries: seq<Entry>, on: Day, day: Day, user: User, f: Field)
    ensures DayTotal(Book(db, entries, on).daily, day, user, f)
         == DayTotal(db.daily, day, user, f) + (if on == day then EntryTotal(entries, user, f) else 0)
    decreases |entries|
  {
    if entries != [] {
      UpsertDayAdds(db.daily, on, entries[0].user, entries[0].usage, day, user, f);
      BookAddsDay(AfterEntry(db, entries[0], on), entries[1..], on, day, user, f);
    }
  }

  /** The upsert names no row that was not there, but for its own. */
  lemma {:induction false} UpsertNames(rows: seq<DailyRow>, on: Day, u: User, usage: Usage, i: nat)
    requires i < |UpsertDaily(rows, on, u, usage)|
    ensures var r := UpsertDaily(rows, on, u, usage)[i];
      (r.day == on && r.user == u) || exists k :: 0 <= k < |rows| && rows[k].day == r.day && rows[k].user == r.user
  {
    if rows != [] && !(rows[0].day == on && rows[0].user == u) && i > 0 {
      UpsertNames(rows[1..], on, u, usage, i - 1);
      var r := UpsertDaily(rows, on, u, usage)[i];
      if k :| 0 <= k < |rows[1..]| && rows[1..][k].day == r.day && rows[1..][k].user == r.user {
        assert rows[k + 1] == rows[1..][k];
      }
    } else if rows != [] {
      var r := UpsertDaily(rows, on, u, usage)[i];
      assert r == rows[i] || (r.day == on && r.user == u);
    }
  }

  lemma {:induction false} UpsertKeepsUnique(rows: seq<DailyRow>, on: Day, u: User, usage: Usage)
    requires UniqueRows(rows)
    ensures UniqueRows(UpsertDaily(rows, on, u, usage))
  {
    var rows' := UpsertDaily(rows, on, u, usage);
    if rows != [] && !(rows[0].day == on && rows[0].user == u) {
      var rest := UpsertDaily(rows[1..], on, u, usage);
      UpsertKeepsUnique(rows[1..], on, u, usage);
      forall j | 0 <= j < |rest| ensures rest[j].day != rows[0].day || rest[j].user != rows[0].user {
        UpsertNames(rows[1..], on, u, usage, j);
      }
      assert rows' == [rows[0]] + rest;
    }
  }

  lemma {:induction false} BookKeepsUnique(db: Database, entries: seq<Entry>, on: Day)
    requires UniqueRows(db.daily)
    ensures UniqueRows(Book(db, entries, on).daily)
    decreases |entries|
  {
    if entries != [] {
      UpsertKeepsUnique(db.daily, on, entries[0].user, entries[0].usage);
      BookKeepsUnique(AfterEntry(db, entries[0], on), entries[1..], on);
    }
  }

  lemma {:induction false} EntryTotalSplit(entries: seq<Entry>, cut: nat, user: User, f: Field)
    requires cut <= |entries|
    ensures EntryTotal(entries, user, f) == EntryTotal(entries[..cut], user, f) + EntryTotal(entries[cut..], user, f)
  {
    if cut > 0 {
      EntryTotalSplit(entries[1..], cut - 1, user, f);
      assert entries[..cut][1..] == entries[1..][..cut - 1];
      assert entries[1..][cut - 1..] == entries[cut..];
    } else {
      assert entries[0..] == entries;
    }
  }
}

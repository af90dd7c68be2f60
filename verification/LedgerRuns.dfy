/** Traffic conservation over every interleaving of reports, flushes and batch failures. */
module LedgerRuns {
  import opened Numbers
  import opened Ledger

  /** A flush between two awaits: what it took from `dirty`, and how many of its batches are committed. */
  datatype Flight = Flight(entries: seq<Entry>, day: Day, done: nat)

  datatype State = State(dirty: map<User, Usage>, db: Database, flights: seq<Flight>)

  datatype Event =
    | Report(user: User, up: nat, down: nat)
    | Start(order: seq<User>, day: Day)   // `[...this.dirty.entries()]` in insertion order, then `clear()`
    | BatchOk(i: nat)
    | BatchFail(i: nat)

  // ----- steps -----

  function AddDirty(dirty: map<User, Usage>, user: User, usage: Usage): map<User, Usage> {
    dirty[user := Plus(if user in dirty then dirty[user] else NONE, usage)]
  }

  /** The catch branch: every entry of the flush goes back, committed or not. */
  function Requeue(dirty: map<User, Usage>, entries: seq<Entry>): map<User, Usage>
    decreases |entries|
  {
    if entries == [] then dirty else Requeue(AddDirty(dirty, entries[0].user, entries[0].usage), entries[1..])
  }

  ghost predicate Enumerates(order: seq<User>, keys: set<User>) {
    && (forall i, j :: 0 <= i < j < |order| ==> order[i] != order[j])
    && (forall u :: u in order <==> u in keys)
  }

  function Taken(dirty: map<User, Usage>, order: seq<User>): seq<Entry>
    requires forall u :: u in order ==> u in dirty
  {
    if order == [] then [] else [Entry(order[0], dirty[order[0]])] + Taken(dirty, order[1..])
  }

  predicate Open(s: State, i: nat) {
    i < |s.flights| && 50 * s.flights[i].done < |s.flights[i].entries|
  }

  ghost predicate Enabled(s: State, e: Event) {
    match e
    case Report(_, _, _) => true
    case Start(order, _) => s.dirty != map[] && Enumerates(order, s.dirty.Keys)
    case BatchOk(i) => Open(s, i)
    case BatchFail(i) => Open(s, i)
  }

  function Without(fs: seq<Flight>, i: nat): seq<Flight>
    requires i < |fs|
  {
    fs[..i] + fs[i + 1..]
  }

  function Next(s: State, e: Event): State
    requires Enabled(s, e)
  {
    match e
    case Report(user, up, down) => s.(dirty := AddDirty(s.dirty, user, Usage(up, down, 1)))
    case Start(order, day) => State(map[], s.db, s.flights + [Flight(Taken(s.dirty, order), day, 0)])
    case BatchOk(i) =>
      var fl := s.flights[i];
      s.(db := ExecuteAll(s.db, Batch(fl.entries, fl.day, fl.done)),
         flights := s.flights[i := fl.(done := fl.done + 1)])
    case BatchFail(i) =>
      State(Requeue(s.dirty, s.flights[i].entries), s.db, Without(s.flights, i))
  }

  ghost predicate Run(s: State, es: seq<Event>)
    decreases |es|
  {
    es == [] || (Enabled(s, es[0]) && Run(Next(s, es[0]), es[1..]))
  }

  ghost function Final(s: State, es: seq<Event>): State
    requires Run(s, es)
    decreases |es|
  {
    if es == [] then s else Final(Next(s, es[0]), es[1..])
  }

  // ----- what the ledger holds -----

  function Committed(fl: Flight): seq<Entry> {
    fl.entries[..Min(50 * fl.done, |fl.entries|)]
  }

  function Pending(fl: Flight): seq<Entry> {
    fl.entries[Min(50 * fl.done, |fl.entries|)..]
  }

  function InFlight(fs: seq<Flight>, user: User, f: Field): nat {
    if fs == [] then 0 else EntryTotal(Pending(fs[0]), user, f) + InFlight(fs[1..], user, f)
  }

  /** Committed to the daily rows, in flight and not yet committed, or dirty. */
  function Held(s: State, user: User, f: Field): nat {
    DailyTotal(s.db.daily, user, f) + InFlight(s.flights, user, f) + DirtyOf(s.dirty, user, f)
  }

  function ReportedBy(e: Event, user: User, f: Field): nat {
    if e.Report? then Share(e.user, Usage(e.up, e.down, 1), user, f) else 0
  }

  /** A failing batch re-queues what earlier batches of its flush had already committed. */
  ghost function DuplicatedBy(s: State, e: Event, user: User, f: Field): nat
    requires Enabled(s, e)
  {
    if e.BatchFail? then EntryTotal(Committed(s.flights[e.i]), user, f) else 0
  }

  function Reported(es: seq<Event>, user: User, f: Field): nat {
    if es == [] then 0 else ReportedBy(es[0], user, f) + Reported(es[1..], user, f)
  }

  ghost function Duplicated(s: State, es: seq<Event>, user: User, f: Field): nat
    requires Run(s, es)
    decreases |es|
  {
    if es == [] then 0 else DuplicatedBy(s, es[0], user, f) + Duplicated(Next(s, es[0]), es[1..], user, f)
  }

  // ----- step lemmas -----

  lemma {:induction false} RequeueAdds(dirty: map<User, Usage>, entries: seq<Entry>, user: User, f: Field)
    ensures DirtyOf(Requeue(dirty, entries), user, f) == DirtyOf(dirty, user, f) + EntryTotal(entries, user, f)
    decreases |entries|
  {
    if entries != [] {
      RequeueAdds(AddDirty(dirty, entries[0].user, entries[0].usage), entries[1..], user, f);
    }
  }

  lemma {:induction false} TakenTotal(dirty: map<User, Usage>, order: seq<User>, user: User, f: Field)
    requires forall u :: u in order ==> u in dirty
    requires forall i, j :: 0 <= i < j < |order| ==> order[i] != order[j]
    ensures EntryTotal(Taken(dirty, order), user, f) == if user in order then DirtyOf(dirty, user, f) else 0
    decreases |order|
  {
    if order != [] {
      var rest := order[1..];
      assert forall i, j :: 0 <= i < j < |rest| ==> rest[i] == order[i + 1] && rest[j] == order[j + 1];
      assert order[0] !in rest;
      assert user in order <==> user == order[0] || user in rest;
      TakenTotal(dirty, rest, user, f);
      assert Taken(dirty, order)[1..] == Taken(dirty, rest);
    }
  }

  lemma {:induction false} InFlightAppend(fs: seq<Flight>, fl: Flight, user: User, f: Field)
    ensures InFlight(fs + [fl], user, f) == InFlight(fs, user, f) + EntryTotal(Pending(fl), user, f)
  {
    if fs == [] {
      assert (fs + [fl])[1..] == [];
    } else {
      InFlightAppend(fs[1..], fl, user, f);
      assert (fs + [fl])[1..] == fs[1..] + [fl];
    }
  }

  lemma {:induction false} InFlightUpdate(fs: seq<Flight>, i: nat, fl: Flight, user: User, f: Field)
    requires i < |fs|
    ensures InFlight(fs[i := fl], user, f) + EntryTotal(Pending(fs[i]), user, f)
         == InFlight(fs, user, f) + EntryTotal(Pending(fl), user, f)
  {
    if i == 0 {
      assert fs[0 := fl][1..] == fs[1..];
    } else {
      InFlightUpdate(fs[1..], i - 1, fl, user, f);
      assert fs[i := fl][1..] == fs[1..][i - 1 := fl];
    }
  }

  lemma {:induction false} InFlightRemove(fs: seq<Flight>, i: nat, user: User, f: Field)
    requires i < |fs|
    ensures InFlight(Without(fs, i), user, f) + EntryTotal(Pending(fs[i]), user, f) == InFlight(fs, user, f)
  {
    if i == 0 {
      assert Without(fs, 0) == fs[1..];
    } else {
      InFlightRemove(fs[1..], i - 1, user, f);
      assert Without(fs, i)[1..] == Without(fs[1..], i - 1);
    }
  }

  /** A committed batch moves its entries from in flight to the daily rows. */
  lemma BatchMoves(s: State, i: nat, user: User, f: Field)
    requires Open(s, i)
    ensures Held(Next(s, BatchOk(i)), user, f) == Held(s, user, f)
  {
    var fl := s.flights[i];
    var fl' := fl.(done := fl.done + 1);
    var now := BatchEntries(fl.entries, fl.done);
    BatchIsWholeEntries(fl.entries, fl.day, fl.done);
    ExecutingStatementsBooks(s.db, now, fl.day);
    BookAddsDaily(s.db, now, fl.day, user, f);
    EntryTotalSplit(Pending(fl), |now|, user, f);
    assert Pending(fl)[..|now|] == now && Pending(fl)[|now|..] == Pending(fl');
    InFlightUpdate(s.flights, i, fl', user, f);
  }

  lemma FailureReturns(s: State, i: nat, user: User, f: Field)
    requires Open(s, i)
    ensures Held(Next(s, BatchFail(i)), user, f) == Held(s, user, f) + DuplicatedBy(s, BatchFail(i), user, f)
  {
    var fl := s.flights[i];
    RequeueAdds(s.dirty, fl.entries, user, f);
    EntryTotalSplit(fl.entries, 50 * fl.done, user, f);
    InFlightRemove(s.flights, i, user, f);
  }

  lemma StartTakes(s: State, order: seq<User>, day: Day, user: User, f: Field)
    requires Enabled(s, Start(order, day))
    ensures Held(Next(s, Start(order, day)), user, f) == Held(s, user, f)
  {
    var entries := Taken(s.dirty, order);
    TakenTotal(s.dirty, order, user, f);
    InFlightAppend(s.flights, Flight(entries, day, 0), user, f);
    assert Pending(Flight(entries, day, 0)) == entries;
  }

  lemma HeldStep(s: State, e: Event, user: User, f: Field)
    requires Enabled(s, e)
    ensures Held(Next(s, e), user, f) == Held(s, user, f) + ReportedBy(e, user, f) + DuplicatedBy(s, e, user, f)
  {
    match e {
      case Report(_, _, _) =>
      case Start(order, day) => StartTakes(s, order, day, user, f);
      case BatchOk(i) => BatchMoves(s, i, user, f);
      case BatchFail(i) => FailureReturns(s, i, user, f);
    }
  }

  // ----- conservation -----

  /**
   * The exact law of every run: what is held grows by what was reported plus what failing flushes
   * counted twice.  Nothing is ever lost.
   */
  lemma {:induction false} TrafficConservation(s: State, es: seq<Event>, user: User, f: Field)
    requires Run(s, es)
    ensures Held(Final(s, es), user, f)
         == Held(s, user, f) + Reported(es, user, f) + Duplicated(s, es, user, f)
    decreases |es|
  {
    if es != [] {
      HeldStep(s, es[0], user, f);
      TrafficConservation(Next(s, es[0]), es[1..], user, f);
    }
  }

  ghost predicate Small(s: State) {
    forall i :: 0 <= i < |s.flights| ==> |s.flights[i].entries| <= 50
  }

  /** No flush ever takes more than fifty users. */
  ghost predicate SmallRun(s: State, es: seq<Event>)
    requires Run(s, es)
    decreases |es|
  {
    Small(s) && (es != [] ==> SmallRun(Next(s, es[0]), es[1..]))
  }

  /** One batch per flush leaves nothing committed when it fails, so nothing is counted twice. */
  lemma {:induction false} SmallFlushesCountOnce(s: State, es: seq<Event>, user: User, f: Field)
    requires Run(s, es) && SmallRun(s, es)
    ensures Duplicated(s, es, user, f) == 0
    decreases |es|
  {
    if es != [] {
      if es[0].BatchFail? {
        assert Committed(s.flights[es[0].i]) == [];
      }
      SmallFlushesCountOnce(Next(s, es[0]), es[1..], user, f);
    }
  }

  /**
   * A flush of more than fifty users whose second batch is refused: what its first fifty users had is in the daily rows
   * and dirty again.
   */
  lemma LateFailureDuplicates(s: State, i: nat, user: User, f: Field)
    requires i < |s.flights| && s.flights[i].done == 0 && |s.flights[i].entries| > 50
    ensures Run(s, [BatchOk(i), BatchFail(i)])
    ensures var twice := EntryTotal(s.flights[i].entries[..50], user, f);
      && Duplicated(s, [BatchOk(i), BatchFail(i)], user, f) == twice
      && Held(Final(s, [BatchOk(i), BatchFail(i)]), user, f) == Held(s, user, f) + twice
  {
    var es := [BatchOk(i), BatchFail(i)];
    var s1 := Next(s, BatchOk(i));
    assert es[1..] == [BatchFail(i)] && [BatchFail(i)][1..] == [];
    assert Run(s1, es[1..]);
    assert Reported(es[1..], user, f) == 0;
    TrafficConservation(s, es, user, f);
    assert Duplicated(s1, es[1..], user, f) == DuplicatedBy(s1, BatchFail(i), user, f);
  }

  /** From an empty ledger: reported traffic never exceeds what is held, and equals it while flushes stay small. */
  lemma ReportedIsHeld(db: Database, es: seq<Event>, user: User, f: Field)
    requires Run(State(map[], db, []), es)
    ensures var s := State(map[], db, []);
      && DailyTotal(db.daily, user, f) + Reported(es, user, f) <= Held(Final(s, es), user, f)
      && (SmallRun(s, es) ==>
            DailyTotal(db.daily, user, f) + Reported(es, user, f) == Held(Final(s, es), user, f))
  {
    var s := State(map[], db, []);
    TrafficConservation(s, es, user, f);
    if SmallRun(s, es) {
      SmallFlushesCountOnce(s, es, user, f);
    }
  }

  /** `used_bytes` and the daily rows move together, whatever fails. */
  lemma {:induction false} UsedFollowsDaily(s: State, es: seq<Event>, user: User)
    requires Run(s, es) && user in s.db.used
    ensures var db := Final(s, es).db;
      && user in db.used
      && db.used[user] - DailyTotal(db.daily, user, Up) - DailyTotal(db.daily, user, Down)
         == s.db.used[user] - DailyTotal(s.db.daily, user, Up) - DailyTotal(s.db.daily, user, Down)
    decreases |es|
  {
    if es != [] {
      if es[0].BatchOk? {
        var fl := s.flights[es[0].i];
        var now := BatchEntries(fl.entries, fl.done);
        BatchIsWholeEntries(fl.entries, fl.day, fl.done);
        ExecutingStatementsBooks(s.db, now, fl.day);
        BookAddsDaily(s.db, now, fl.day, user, Up);
        BookAddsDaily(s.db, now, fl.day, user, Down);
        BookAddsUsed(s.db, now, fl.day, user);
      }
      UsedFollowsDaily(Next(s, es[0]), es[1..], user);
    }
  }

  // ----- day by day -----

  /** What the batches that the database accepted during the run held for the user, of flushes of the given day. */
  ghost function CommittedOn(s: State, es: seq<Event>, day: Day, user: User, f: Field): nat
    requires Run(s, es)
    decreases |es|
  {
    if es == [] then 0 else AcceptedOn(s, es[0], day, user, f) + CommittedOn(Next(s, es[0]), es[1..], day, user, f)
  }

  ghost function AcceptedOn(s: State, e: Event, day: Day, user: User, f: Field): nat
    requires Enabled(s, e)
  {
    if e.BatchOk? && s.flights[e.i].day == day
    then EntryTotal(BatchEntries(s.flights[e.i].entries, s.flights[e.i].done), user, f)
    else 0
  }

  /**
   * Over every run the total of each day and user grows by exactly what was accepted of that day's flushes, in one row
   * per day and user.
   */
  lemma {:induction false} DailyFollowsBatches(s: State, es: seq<Event>, day: Day, user: User, f: Field)
    requires Run(s, es)
    ensures DayTotal(Final(s, es).db.daily, day, user, f)
         == DayTotal(s.db.daily, day, user, f) + CommittedOn(s, es, day, user, f)
    ensures UniqueRows(s.db.daily) ==> UniqueRows(Final(s, es).db.daily)
    decreases |es|
  {
    if es != [] {
      if es[0].BatchOk? {
        var fl := s.flights[es[0].i];
        var now := BatchEntries(fl.entries, fl.done);
        BatchIsWholeEntries(fl.entries, fl.day, fl.done);
        ExecutingStatementsBooks(s.db, now, fl.day);
        BookAddsDay(s.db, now, fl.day, day, user, f);
        if UniqueRows(s.db.daily) { BookKeepsUnique(s.db, now, fl.day); }
      }
      DailyFollowsBatches(Next(s, es[0]), es[1..], day, user, f);
    }
  }
}

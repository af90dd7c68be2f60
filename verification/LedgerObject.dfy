/** The ledger object: `report`, the re-queueing loop, and a flush that nothing interrupts. */
module LedgerObject {
  import opened Numbers
  import opened Ledger
  import opened LedgerRuns

  lemma {:induction false} BookAppend(db: Database, a: seq<Entry>, b: seq<Entry>, day: Day)
    ensures Book(db, a + b, day) == Book(Book(db, a, day), b, day)
    decreases |a|
  {
    if a == [] {
      assert a + b == b;
    } else {
      assert (a + b)[1..] == a[1..] + b;
      BookAppend(AfterEntry(db, a[0], day), a[1..], b, day);
    }
  }

  class Keeper {
    var dirty: map<User, Usage>
    var db: Database

    method Report(user: User, up: nat, down: nat)
      modifies this`dirty
      ensures dirty == AddDirty(old(dirty), user, Usage(up, down, 1))
    {
      var usage := if user in dirty then dirty[user] else NONE;
      dirty := dirty[user := Usage(usage.up + up, usage.down + down, usage.conns + 1)];
    }

    method PutBack(entries: seq<Entry>)
      modifies this`dirty
      ensures dirty == Requeue(old(dirty), entries)
    {
      var i := 0;
      while i < |entries|
        invariant 0 <= i <= |entries|
        invariant Requeue(dirty, entries[i..]) == Requeue(old(dirty), entries)
      {
        var e := entries[i];
        var usage := if e.user in dirty then dirty[e.user] else NONE;
        assert entries[i..][1..] == entries[i + 1..];
        dirty := dirty[e.user := Usage(usage.up + e.usage.up, usage.down + e.usage.down, usage.conns + e.usage.conns)];
        i := i + 1;
      }
    }

    /**
     * `order` is the insertion order of `dirty` and `broken` the number of the batch the database refuses
     * (any number past the last batch: none).  The database gets exactly the batches before it, and
     * `dirty` is empty again or holds the whole flush.
     */
    method Flush(order: seq<User>, day: Day, broken: nat) returns (ok: bool)
      requires Enumerates(order, dirty.Keys)
      modifies this
      ensures var entries := Taken(old(dirty), order);
        && (ok <==> |entries| <= 50 * broken)
        && db == Book(old(db), if ok then entries else entries[..50 * broken], day)
        && dirty == if ok then map[] else Requeue(map[], entries)
    {
      var entries := Taken(dirty, order);
      dirty := map[];
      var statements := Statements(entries, day);
      var n := 0;
      while 100 * n < |statements|
        invariant 50 * (n - 1) <= |entries| && n <= broken
        invariant n > 0 ==> 50 * (n - 1) < |entries|
        invariant db == Book(old(db), entries[..Min(50 * n, |entries|)], day)
        invariant dirty == map[]
        decreases |statements| - 100 * n
      {
        if n == broken {
          PutBack(entries);
          return false;
        }
        BatchIsWholeEntries(entries, day, n);
        ExecutingStatementsBooks(db, BatchEntries(entries, n), day);
        BookAppend(old(db), entries[..50 * n], BatchEntries(entries, n), day);
        assert entries[..50 * n] + BatchEntries(entries, n) == entries[..Min(50 * (n + 1), |entries|)];
        db := ExecuteAll(db, statements[100 * n .. Min(100 * n + 100, |statements|)]);
        n := n + 1;
      }
      assert entries[..|entries|] == entries;
      return true;
    }
  }
}

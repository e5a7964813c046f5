/** The journal sink as an object over its two tables (src/persist/sqlite.rs:31-203). */
module Sqlite {
  import opened Wrappers
  import opened Qso
  import opened Operation
  import opened StoreModel
  import opened History
  import opened Journal
  import opened Store

  class SqliteOpSink {
    var events: seq<StoredOp>
    var snapshots: seq<SnapshotRow>

    ghost function CurrentTables(): Tables
      reads this
    {
      Tables(events, snapshots)
    }

    constructor ()
      ensures CurrentTables() == EMPTY_TABLES
    {
      events, snapshots := [], [];
    }

    /** One transaction: either every row goes in, or the table is left as it was. */
    method AppendOps(ops: seq<StoredOp>) returns (result: Result<OpSeq, PersistError>)
      modifies this`events
      ensures InsertRows(old(events), ops).Failure? ==>
        events == old(events) && result == Failure(InsertRows(events, ops).error)
      ensures InsertRows(old(events), ops).Success? ==>
        events == InsertRows(old(events), ops).value &&
        result == Success(if ops == [] then NewestSeq(events) else ops[|ops| - 1].opSeq)
    {
      if |ops| == 0 {
        var latest := LatestSeq();
        return Success(latest);
      }
      var uncommitted := events;
      for i := 0 to |ops|
        invariant InsertRows(events, ops[..i]) == Success(uncommitted)
        invariant events == old(events)
      {
        assert ops[..i + 1][..i] == ops[..i];
        var inserted := InsertRow(uncommitted, ops[i]);
        if inserted.Failure? {
          FailureIsFinal(events, ops, i + 1);
          return Failure(inserted.error);
        }
        uncommitted := inserted.value;
      }
      assert ops[..|ops|] == ops;
      events := uncommitted;
      result := Success(ops[|ops| - 1].opSeq);
    }

    method LatestSeq() returns (latest: OpSeq)
      ensures latest == NewestSeq(events)
      ensures if events == [] then latest == 0 else HasSeq(events, latest)
      ensures forall i :: 0 <= i < |events| ==> events[i].opSeq <= latest
    {
      NewestSeqIsGreatest(events);
      latest := 0;
      for i := 0 to |events|
        invariant latest == NewestSeq(events[..i])
      {
        assert events[..i + 1][..i] == events[..i];
        latest := Max(latest, events[i].opSeq);
      }
      assert events[..|events|] == events;
    }

    method LoadEventsAfter(after: OpSeq) returns (out: seq<StoredOp>)
      ensures out == EventsAfter(events, after)
    {
      out := [];
      for i := 0 to |events|
        invariant out == EventsAfter(events[..i], after)
      {
        assert events[..i + 1][..i] == events[..i];
        if events[i].opSeq > after { out := out + [events[i]]; }
      }
      assert events[..|events|] == events;
    }

    method WriteSnapshot(snapshot: StoreSnapshot, lastSeq: OpSeq)
      modifies this`snapshots
      ensures CurrentTables() == Journal.WriteSnapshot(old(CurrentTables()), snapshot, lastSeq)
    {
      snapshots := snapshots + [SnapshotRow(lastSeq, snapshot)];
    }

    method CompactThrough(through: OpSeq) returns (removed: int)
      modifies this`events
      ensures CurrentTables() == Journal.CompactThrough(old(CurrentTables()), through)
      ensures removed == |old(events)| - |events|
    {
      var kept := LoadEventsAfter(through);
      removed := |events| - |kept|;
      events := kept;
    }

    /** Replays the tail over the newest snapshot; the store that comes back is consistent. */
    method LoadStore() returns (result: Result<QsoStore, StoreError>)
      requires |snapshots| > 0 ==> WellFormedSnapshot(snapshots[|snapshots| - 1].snapshot)
      ensures match result
        case Success(store) => fresh(store) && store.Valid() && Load(CurrentTables()) == Success(store.State())
        case Failure(e) => Load(CurrentTables()) == Failure(e)
    {
      hide ReplayOp, Consistent, Lines, OrderedRecords, FileRecords;
      var store: QsoStore;
      if |snapshots| > 0 {
        store := new QsoStore.FromSnapshot(snapshots[|snapshots| - 1].snapshot);
      } else {
        store := new QsoStore();
      }
      var exported := store.ExportSnapshot();
      var startSeq := if exported.nextOpSeq == 0 then 0 else exported.nextOpSeq - 1;
      var tail := LoadEventsAfter(startSeq);
      var replayed := ReplayTail(store, tail);
      if replayed.Failure? { return Failure(replayed.error); }
      result := Success(store);
    }

    static method ReplayTail(store: QsoStore, tail: seq<StoredOp>) returns (result: Result<(), StoreError>)
      requires store.Valid()
      modifies store
      ensures store.Valid() && Outcome(store.State(), result) == ReplayAll(old(store.State()), tail)
    {
      hide ReplayOp, Consistent;
      ghost var start := store.State();
      result := Success(());
      for i := 0 to |tail|
        invariant store.Valid() && result.Success?
        invariant ReplayAll(start, tail[..i]) == Outcome(store.State(), result)
      {
        assert tail[..i + 1][..i] == tail[..i];
        result := store.ApplyReplayedOp(tail[i]);
        assert ReplayAll(start, tail[..i + 1]) == Outcome(store.State(), result);
        if result.Failure? {
          ReplayFailureIsFinal(start, tail, i + 1);
          return;
        }
      }
      assert tail[..|tail|] == tail;
    }
  }

  /** `SELECT MAX(seq)`, or 0 for an empty table. */
  function NewestSeq(events: seq<StoredOp>): OpSeq {
    if events == [] then 0 else Max(NewestSeq(events[..|events| - 1]), events[|events| - 1].opSeq)
  }

  /** It is the number of some row, and no row is above it. */
  lemma {:induction false} NewestSeqIsGreatest(events: seq<StoredOp>)
    ensures events == [] ==> NewestSeq(events) == 0
    ensures events != [] ==> HasSeq(events, NewestSeq(events))
    ensures forall i :: 0 <= i < |events| ==> events[i].opSeq <= NewestSeq(events)
  {
    if |events| > 1 {
      var n := |events| - 1;
      NewestSeqIsGreatest(events[..n]);
      var i :| 0 <= i < n && events[..n][i].opSeq == NewestSeq(events[..n]);
      assert events[i].opSeq == NewestSeq(events[..n]);
      assert forall k :: 0 <= k < n ==> events[..n][k] == events[k];
    } else if events != [] {
      assert NewestSeq(events[..0]) == 0;
    }
  }

  lemma {:induction false} FailureIsFinal(events: seq<StoredOp>, ops: seq<StoredOp>, n: nat)
    requires n <= |ops| && InsertRows(events, ops[..n]).Failure?
    ensures InsertRows(events, ops) == InsertRows(events, ops[..n])
    decreases |ops|
  {
    if n < |ops| {
      assert ops[..|ops| - 1][..n] == ops[..n];
      FailureIsFinal(events, ops[..|ops| - 1], n);
    } else {
      assert ops[..n] == ops;
    }
  }

  lemma {:induction false} ReplayFailureIsFinal(s: StoreState, ops: seq<StoredOp>, n: nat)
    requires n <= |ops| && ReplayAll(s, ops[..n]).result.Failure?
    ensures ReplayAll(s, ops) == ReplayAll(s, ops[..n])
    decreases |ops|
  {
    hide ReplayOp;
    if n < |ops| {
      assert ops[..|ops| - 1][..n] == ops[..n];
      ReplayFailureIsFinal(s, ops[..|ops| - 1], n);
    } else {
      assert ops[..n] == ops;
    }
  }
}

/**
 * The durable tables and what loading them means (src/persist/sqlite.rs:58-160, schema.sql).
 * `events` is the table in primary-key order; `snapshots` is in insertion order.
 */
module Journal {
  import opened Wrappers
  import opened Qso
  import opened Operation
  import opened StoreModel
  import opened History

  datatype SnapshotRow = SnapshotRow(lastSeq: OpSeq, snapshot: StoreSnapshot)

  datatype Tables = Tables(events: seq<StoredOp>, snapshots: seq<SnapshotRow>)

  datatype PersistError = ConstraintViolation(opSeq: OpSeq) | StoreFailure(error: StoreError) | SinkFailure

  const EMPTY_TABLES: Tables := Tables([], [])

  // ---- table operations -------------------------------------------------

  /** Inserts a row at its primary-key place; a second row with the same key is refused. */
  function InsertRow(events: seq<StoredOp>, row: StoredOp): Result<seq<StoredOp>, PersistError> {
    if events == [] then Success([row]) else
    var n := |events| - 1;
    if events[n].opSeq < row.opSeq then Success(events + [row])
    else if events[n].opSeq == row.opSeq then Failure(ConstraintViolation(row.opSeq))
    else match InsertRow(events[..n], row)
      case Failure(e) => Failure(e)
      case Success(rows) => Success(rows + [events[n]])
  }

  function InsertRows(events: seq<StoredOp>, ops: seq<StoredOp>): Result<seq<StoredOp>, PersistError> {
    if ops == [] then Success(events) else
    var n := |ops| - 1;
    match InsertRows(events, ops[..n])
    case Failure(e) => Failure(e)
    case Success(rows) => InsertRow(rows, ops[n])
  }

  function EventsAfter(events: seq<StoredOp>, after: OpSeq): seq<StoredOp> {
    if events == [] then [] else
    var n := |events| - 1;
    EventsAfter(events[..n], after) + (if events[n].opSeq > after then [events[n]] else [])
  }

  function WriteSnapshot(t: Tables, snapshot: StoreSnapshot, lastSeq: OpSeq): Tables {
    t.(snapshots := t.snapshots + [SnapshotRow(lastSeq, snapshot)])
  }

  function CompactThrough(t: Tables, through: OpSeq): Tables {
    t.(events := EventsAfter(t.events, through))
  }

  /** Where loading starts: the newest snapshot, or an empty store. */
  function StartState(t: Tables): StoreState {
    if t.snapshots == [] then EMPTY_STORE else FromSnapshot(t.snapshots[|t.snapshots| - 1].snapshot)
  }

  function ReplayAll(s: StoreState, ops: seq<StoredOp>): Outcome<()> {
    if ops == [] then Outcome(s, Success(())) else
    var n := |ops| - 1;
    var o := ReplayAll(s, ops[..n]);
    if o.result.Failure? then o else ReplayOp(o.state, ops[n])
  }

  /** `next_op_seq.saturating_sub(1)` */
  function LastSeq(s: StoreState): OpSeq {
    if s.nextOpSeq == 0 then 0 else s.nextOpSeq - 1
  }

  function Load(t: Tables): Result<StoreState, StoreError> {
    var start := StartState(t);
    var o := ReplayAll(start, EventsAfter(t.events, LastSeq(start)));
    match o.result
    case Failure(e) => Failure(e)
    case Success(_) => Success(o.state)
  }

  // ---- the key-ordered table --------------------------------------------

  ghost predicate HasSeq(events: seq<StoredOp>, opSeq: OpSeq) {
    exists i :: 0 <= i < |events| && events[i].opSeq == opSeq
  }

  /** Insertion keeps key order, adds exactly the new row, and fails exactly on a duplicate key. */
  lemma {:induction false} InsertRowKeepsKeyOrder(events: seq<StoredOp>, row: StoredOp)
    requires Increasing(events)
    ensures InsertRow(events, row).Failure? <==> HasSeq(events, row.opSeq)
    ensures match InsertRow(events, row)
      case Success(rows) =>
        Increasing(rows) && |rows| == |events| + 1 && (forall e :: e in rows <==> e in events || e == row)
      case Failure(e) => e == ConstraintViolation(row.opSeq)
  {
    if events != [] {
      var n := |events| - 1;
      assert forall e :: e in events <==> e in events[..n] || e == events[n];
      if events[n].opSeq > row.opSeq {
        InsertRowKeepsKeyOrder(events[..n], row);
        if InsertRow(events[..n], row).Success? {
          var rows := InsertRow(events[..n], row).value;
          forall i | 0 <= i < |rows| ensures rows[i].opSeq < events[n].opSeq { assert rows[i] in rows; }
          assert forall i :: 0 <= i < n ==> events[..n][i] == events[i];
        } else {
          var i :| 0 <= i < n && events[..n][i].opSeq == row.opSeq;
          assert events[i].opSeq == row.opSeq;
        }
      }
    }
  }

  /** Rows above everything present go to the end: for the runtime, append is concatenation. */
  lemma {:induction false} AppendAbove(events: seq<StoredOp>, ops: seq<StoredOp>)
    requires Increasing(events + ops)
    ensures InsertRows(events, ops) == Success(events + ops)
  {
    if ops == [] {
      assert events + ops == events;
    } else {
      var n := |ops| - 1;
      var all := events + ops;
      assert all[..|all| - 1] == events + ops[..n];
      AppendAbove(events, ops[..n]);
      if events + ops[..n] != [] {
        assert all[|events| + n - 1].opSeq < all[|events| + n].opSeq;
      }
      assert events + ops[..n] + [ops[n]] == events + ops;
    }
  }

  lemma {:induction false} EventsAfterAppend(a: seq<StoredOp>, b: seq<StoredOp>, after: OpSeq)
    ensures EventsAfter(a + b, after) == EventsAfter(a, after) + EventsAfter(b, after)
  {
    if b == [] {
      assert a + b == a;
    } else {
      assert (a + b)[..|a + b| - 1] == a + b[..|b| - 1];
      EventsAfterAppend(a, b[..|b| - 1], after);
    }
  }

  lemma {:induction false} EventsAfterAll(ops: seq<StoredOp>, after: OpSeq)
    requires forall i :: 0 <= i < |ops| ==> ops[i].opSeq > after
    ensures EventsAfter(ops, after) == ops
  {
    if ops != [] {
      EventsAfterAll(ops[..|ops| - 1], after);
      assert ops == ops[..|ops| - 1] + [ops[|ops| - 1]];
    }
  }

  lemma {:induction false} EventsAfterNone(ops: seq<StoredOp>, after: OpSeq)
    requires forall i :: 0 <= i < |ops| ==> ops[i].opSeq <= after
    ensures EventsAfter(ops, after) == []
  {
    if ops != [] {
      EventsAfterNone(ops[..|ops| - 1], after);
    }
  }

  lemma {:induction false} EventsAfterSelects(ops: seq<StoredOp>, after: OpSeq)
    ensures forall e :: e in EventsAfter(ops, after) <==> e in ops && e.opSeq > after
    ensures Increasing(ops) ==> Increasing(EventsAfter(ops, after))
  {
    if ops != [] {
      var n := |ops| - 1;
      EventsAfterSelects(ops[..n], after);
      assert forall e :: e in ops <==> e in ops[..n] || e == ops[n];
      var rest := EventsAfter(ops[..n], after);
      if Increasing(ops) {
        forall i | 0 <= i < |rest| ensures rest[i].opSeq < ops[n].opSeq {
          assert rest[i] in ops[..n];
        }
      }
    }
  }

  // ---- replay -----------------------------------------------------------

  /** Replay is the fold of the ops over the view, and raises the next number above every op. */
  lemma {:induction false} ReplayIsFold(s: StoreState, ops: seq<StoredOp>)
    ensures var o := ReplayAll(s, ops);
      match Fold(s.view, ops) {
        case Success(v) => o.result.Success? && o.state.view == v
        case Failure(e) => o.result == Failure(e)
      }
    ensures s.nextOpSeq <= ReplayAll(s, ops).state.nextOpSeq
    ensures ReplayAll(s, ops).result.Success? ==>
      forall i :: 0 <= i < |ops| ==> ops[i].opSeq < ReplayAll(s, ops).state.nextOpSeq
    ensures s.undo == s.redo == [] ==> ReplayAll(s, ops).state.undo == ReplayAll(s, ops).state.redo == []
    ensures ReplayAll(s, ops).state.pending == s.pending
  {
    hide ApplyToView;
    if ops != [] {
      ReplayIsFold(s, ops[..|ops| - 1]);
    }
  }

  /** The next number after replay is no more than what the journal justifies. */
  lemma {:induction false} ReplayStaysBelow(s: StoreState, ops: seq<StoredOp>, bound: OpSeq)
    requires s.nextOpSeq <= bound && forall i :: 0 <= i < |ops| ==> ops[i].opSeq < bound
    ensures ReplayAll(s, ops).state.nextOpSeq <= bound
  {
    hide ApplyToView;
    if ops != [] {
      ReplayStaysBelow(s, ops[..|ops| - 1], bound);
    }
  }

  lemma {:induction false} ExportListsRecords(order: seq<QsoId>, records: map<QsoId, QsoRecord>)
    requires forall id :: id in order ==> id in records
    ensures |OrderedRecords(order, records)| == |order|
    ensures forall i :: 0 <= i < |order| ==> OrderedRecords(order, records)[i] == records[order[i]]
  {
    if order != [] {
      ExportListsRecords(order[..|order| - 1], records);
      assert order[|order| - 1] in order;
    }
  }

  /** Filing records with distinct ids loses none of them. */
  lemma {:induction false} FileRecordsKeeps(recs: seq<QsoRecord>)
    requires forall i, j :: 0 <= i < j < |recs| ==> recs[i].id != recs[j].id
    ensures forall i :: 0 <= i < |recs| ==> recs[i].id in FileRecords(recs) && FileRecords(recs)[recs[i].id] == recs[i]
    ensures forall id :: id in FileRecords(recs) ==> exists i :: 0 <= i < |recs| && recs[i].id == id
  {
    if recs != [] {
      var n := |recs| - 1;
      FileRecordsKeeps(recs[..n]);
      forall id | id in FileRecords(recs) ensures exists i :: 0 <= i < |recs| && recs[i].id == id {
        if id != recs[n].id {
          var i :| 0 <= i < n && recs[..n][i].id == id;
          assert recs[i].id == id;
        }
      }
    }
  }

  /** An export is the order, the record of each listed id in that order, and both counters. */
  lemma {:induction false} ExportIsFaithful(s: StoreState)
    requires WellFormed(s.view)
    ensures var snap := Export(s);
      && snap.nextQsoId == s.view.nextQsoId && snap.nextOpSeq == s.nextOpSeq && snap.order == s.view.order
      && |snap.records| == |snap.order|
      && forall i :: 0 <= i < |snap.order| ==> snap.records[i] == s.view.records[snap.order[i]]
  {
    ExportListsRecords(s.view.order, s.view.records);
  }

  /** A well-formed snapshot loads with each listed record under its id, both counters, and nothing else. */
  lemma {:induction false} SnapshotFilesRecords(snap: StoreSnapshot)
    requires WellFormedSnapshot(snap)
    ensures var s := FromSnapshot(snap);
      && s.view.order == snap.order && s.view.nextQsoId == snap.nextQsoId && s.nextOpSeq == snap.nextOpSeq
      && s.undo == s.redo == [] && s.pending == []
      && (forall i :: 0 <= i < |snap.order| ==>
            snap.order[i] in s.view.records && s.view.records[snap.order[i]] == snap.records[i])
      && (forall id :: id in s.view.records ==> id in snap.order)
  {
    hide FileRecords;
    FileRecordsKeeps(snap.records);
    forall id | id in FileRecords(snap.records) ensures id in snap.order {
      var i :| 0 <= i < |snap.records| && snap.records[i].id == id;
      assert snap.order[i] == id;
    }
    forall i | 0 <= i < |snap.order|
      ensures snap.order[i] in FileRecords(snap.records) && FileRecords(snap.records)[snap.order[i]] == snap.records[i]
    {
      assert snap.records[i].id == snap.order[i];
    }
  }

  /** Loading an exported snapshot gives back the view and the counters, with empty stacks. */
  lemma {:induction false} SnapshotRoundTrip(s: StoreState)
    requires WellFormed(s.view)
    ensures WellFormedSnapshot(Export(s))
    ensures FromSnapshot(Export(s)) == StoreState(s.view, [], [], [], s.nextOpSeq)
  {
    hide OrderedRecords, FileRecords;
    FilingExports(s.view.order, s.view.records);
  }

  lemma {:induction false} FilingExports(order: seq<QsoId>, records: map<QsoId, QsoRecord>)
    requires WellFormed(View(records, order, 0))
    ensures Lines(order, OrderedRecords(order, records))
    ensures FileRecords(OrderedRecords(order, records)) == records
  {
    hide OrderedRecords, FileRecords;
    var recs := OrderedRecords(order, records);
    ExportListsRecords(order, records);
    assert forall i :: 0 <= i < |order| ==> order[i] in order;
    FileRecordsKeeps(recs);
    var filed := FileRecords(recs);
    forall id | id in records ensures id in filed && filed[id] == records[id] {
      assert id in order;
      var i :| 0 <= i < |order| && order[i] == id;
      assert recs[i].id == id;
    }
    forall id | id in filed ensures id in records {
      var i :| 0 <= i < |recs| && recs[i].id == id;
      assert order[i] in order;
    }
  }

  // ---- loading ----------------------------------------------------------

  /** Loading is the fold of the tail events over the starting view. */
  lemma {:induction false} LoadIsFold(t: Tables)
    ensures var tail := EventsAfter(t.events, LastSeq(StartState(t)));
      match Fold(StartState(t).view, tail) {
        case Success(v) => Load(t).Success? && Load(t).value.view == v
        case Failure(e) => Load(t) == Failure(e)
      }
  {
    ReplayIsFold(StartState(t), EventsAfter(t.events, LastSeq(StartState(t))));
  }

  /** A loaded store numbers its next op above everything persisted, whatever the tables hold. */
  lemma {:induction false} LoadStartsAboveEvents(t: Tables)
    requires Load(t).Success? && StartState(t).nextOpSeq > 0
    ensures StartState(t).nextOpSeq <= Load(t).value.nextOpSeq
    ensures forall i :: 0 <= i < |t.events| ==> t.events[i].opSeq < Load(t).value.nextOpSeq
    ensures Load(t).value.undo == Load(t).value.redo == [] && Load(t).value.pending == []
  {
    var start := StartState(t);
    var tail := EventsAfter(t.events, LastSeq(start));
    ReplayIsFold(start, tail);
    EventsAfterSelects(t.events, LastSeq(start));
    forall i | 0 <= i < |t.events| ensures t.events[i].opSeq < Load(t).value.nextOpSeq {
      var e := t.events[i];
      assert e in t.events;
      if e.opSeq > LastSeq(start) {
        assert e in tail;
        var j :| 0 <= j < |tail| && tail[j] == e;
      }
    }
  }

  /** Ops appended above the starting point extend what is loaded by exactly those ops. */
  lemma {:induction false} LoadAfterAppend(t: Tables, ops: seq<StoredOp>)
    requires forall i :: 0 <= i < |ops| ==> ops[i].opSeq > LastSeq(StartState(t))
    requires Load(t).Success? && Fold(Load(t).value.view, ops).Success?
    ensures var t' := t.(events := t.events + ops);
      Load(t').Success? && Load(t').value.view == Fold(Load(t).value.view, ops).value
  {
    var start := StartState(t);
    var tail := EventsAfter(t.events, LastSeq(start));
    EventsAfterAppend(t.events, ops, LastSeq(start));
    EventsAfterAll(ops, LastSeq(start));
    LoadIsFold(t);
    LoadIsFold(t.(events := t.events + ops));
    FoldAppend(start.view, tail, ops);
  }

  /** Once a snapshot covers every event, loading gives the snapshot's store, whatever the events were. */
  lemma {:induction false} LoadAfterSnapshot(t: Tables, s: StoreState, lastSeq: OpSeq)
    requires WellFormed(s.view)
    requires forall i :: 0 <= i < |t.events| ==> t.events[i].opSeq < s.nextOpSeq
    ensures Load(WriteSnapshot(t, Export(s), lastSeq)) == Success(StoreState(s.view, [], [], [], s.nextOpSeq))
  {
    SnapshotRoundTrip(s);
    EventsAfterNone(t.events, LastSeq(s));
  }

  /** Compaction through the newest snapshot's own horizon never changes what is loaded. */
  lemma {:induction false} EventsAfterCompaction(events: seq<StoredOp>, low: OpSeq, high: OpSeq)
    requires low <= high
    ensures EventsAfter(EventsAfter(events, low), high) == EventsAfter(events, high)
  {
    if events != [] {
      var n := |events| - 1;
      EventsAfterCompaction(events[..n], low, high);
      if events[n].opSeq > low {
        var rest := EventsAfter(events[..n], low);
        assert (rest + [events[n]])[..|rest|] == rest;
      } else {
        assert EventsAfter(events[..n], low) + [] == EventsAfter(events[..n], low);
      }
    }
  }

  lemma {:induction false} LoadAfterCompaction(t: Tables, through: OpSeq)
    requires through <= LastSeq(StartState(t))
    ensures Load(CompactThrough(t, through)) == Load(t)
  {
    EventsAfterCompaction(t.events, through, LastSeq(StartState(t)));
  }

  // ---- histories --------------------------------------------------------

  /** The state `s` is what the first `cut` ops of `ops` made of an empty store. */
  ghost predicate CutAt(ops: seq<StoredOp>, cut: nat, s: StoreState) {
    && cut <= |ops|
    && Fold(EMPTY_VIEW, ops[..cut]) == Success(s.view)
    && s.nextOpSeq > 0
    && (forall i :: 0 <= i < cut ==> ops[i].opSeq < s.nextOpSeq)
    && (forall i :: cut <= i < |ops| ==> s.nextOpSeq <= ops[i].opSeq)
  }

  lemma {:induction false} CutSplitsEvents(ops: seq<StoredOp>, cut: nat, s: StoreState)
    requires CutAt(ops, cut, s)
    ensures EventsAfter(ops, LastSeq(s)) == ops[cut..]
    ensures Fold(EMPTY_VIEW, ops) == Fold(s.view, ops[cut..])
    ensures WellFormed(s.view)
  {
    hide ApplyToView, WellFormed;
    assert ops == ops[..cut] + ops[cut..];
    EventsAfterAppend(ops[..cut], ops[cut..], LastSeq(s));
    EventsAfterNone(ops[..cut], LastSeq(s));
    EventsAfterAll(ops[cut..], LastSeq(s));
    FoldAppend(EMPTY_VIEW, ops[..cut], ops[cut..]);
    EmptyIsReachable();
    FoldKeepsWellFormed(EMPTY_VIEW, ops[..cut]);
  }

  lemma {:induction false} EmptyIsReachable()
    ensures Reachable(EMPTY_STORE)
  {
  }

  /**
   * For any history and any cut point, a snapshot taken at the cut plus the later events loads
   * the same view as replaying everything, with or without compaction through the cut.
   */
  lemma {:induction false} SnapshotPlusTailIsFullReplay(ops: seq<StoredOp>, cut: nat, s: StoreState)
    requires Fold(EMPTY_VIEW, ops).Success? && forall i :: 0 <= i < |ops| ==> ops[i].opSeq > 0
    requires CutAt(ops, cut, s)
    ensures Load(Tables(ops, [])).Success? && Load(Tables(ops, [])).value.view == Fold(EMPTY_VIEW, ops).value
    ensures Load(WriteSnapshot(Tables(ops, []), Export(s), LastSeq(s))).Success?
    ensures Load(WriteSnapshot(Tables(ops, []), Export(s), LastSeq(s))).value.view == Fold(EMPTY_VIEW, ops).value
    ensures CompactThrough(Tables(ops, []), LastSeq(s)).events == ops[cut..]
    ensures Load(CompactThrough(WriteSnapshot(Tables(ops, []), Export(s), LastSeq(s)), LastSeq(s)))
         == Load(WriteSnapshot(Tables(ops, []), Export(s), LastSeq(s)))
  {
    hide ApplyToView, WellFormed, Load, CutAt, Fold, Export, FromSnapshot;
    CutSplitsEvents(ops, cut, s);
    FullReplay(ops);
    LoadFromSnapshot(Tables(ops, []), s);
    LoadAfterCompaction(WriteSnapshot(Tables(ops, []), Export(s), LastSeq(s)), LastSeq(s))
      by { SnapshotRoundTrip(s); }
  }

  lemma {:induction false} FullReplay(ops: seq<StoredOp>)
    requires Fold(EMPTY_VIEW, ops).Success? && forall i :: 0 <= i < |ops| ==> ops[i].opSeq > 0
    ensures Load(Tables(ops, [])).Success? && Load(Tables(ops, [])).value.view == Fold(EMPTY_VIEW, ops).value
  {
    hide Fold, ReplayAll;
    EventsAfterAll(ops, 0);
    LoadIsFold(Tables(ops, []));
  }

  /** Loading with a fresh snapshot of `s` replays the events numbered after it. */
  lemma {:induction false} LoadFromSnapshot(t: Tables, s: StoreState)
    requires WellFormed(s.view) && Fold(s.view, EventsAfter(t.events, LastSeq(s))).Success?
    ensures var loaded := Load(WriteSnapshot(t, Export(s), LastSeq(s)));
      loaded.Success? && loaded.value.view == Fold(s.view, EventsAfter(t.events, LastSeq(s))).value
  {
    hide WellFormed, Load, Export, FromSnapshot, Fold;
    SnapshotRoundTrip(s);
    LoadIsFold(WriteSnapshot(t, Export(s), LastSeq(s)));
  }

  /** Every run leaves a journal that loads without error and gives back the live view. */
  lemma {:induction false} ReplayIsFaithful(cmds: seq<Command>)
    ensures var s, ops := Run(EMPTY_STORE, cmds), Emitted(EMPTY_STORE, cmds);
      && InsertRows([], ops) == Success(ops)
      && Load(Tables(ops, [])).Success?
      && var r := Load(Tables(ops, [])).value;
         r.view == s.view && r.undo == r.redo == [] && r.nextOpSeq <= s.nextOpSeq
  {
    hide Run, Emitted, Fold, ReplayAll, InsertRows, Exec, Increasing;
    var s, ops := Run(EMPTY_STORE, cmds), Emitted(EMPTY_STORE, cmds);
    RunIsFold(EMPTY_STORE, cmds);
    RunNumbersIncrease(EMPTY_STORE, cmds);
    assert [] + ops == ops;
    AppendAbove([], ops);
    EventsAfterAll(ops, 0);
    LoadIsFold(Tables(ops, []));
    LoadStartsAboveEvents(Tables(ops, []));
    ReplayStaysBelow(EMPTY_STORE, ops, s.nextOpSeq);
  }

  /** The cut-point theorem for runs: stop after `first`, snapshot, go on with `second`. */
  lemma {:induction false} SnapshotDuringRun(first: seq<Command>, second: seq<Command>)
    ensures var s, t := Run(EMPTY_STORE, first), Run(Run(EMPTY_STORE, first), second);
      var ops := Emitted(EMPTY_STORE, first) + Emitted(s, second);
      var snap := WriteSnapshot(Tables(ops, []), Export(s), LastSeq(s));
      && Load(snap).Success? && Load(snap).value.view == t.view
      && Load(CompactThrough(snap, LastSeq(s))) == Load(snap)
  {
    var s := Run(EMPTY_STORE, first);
    var a, b := Emitted(EMPTY_STORE, first), Emitted(s, second);
    RunKeepsReachable(EMPTY_STORE, first);
    RunIsFold(EMPTY_STORE, first);
    RunIsFold(s, second);
    RunNumbersIncrease(EMPTY_STORE, first);
    RunNumbersIncrease(s, second);
    FoldAppend(EMPTY_VIEW, a, b);
    assert (a + b)[..|a|] == a;
    assert CutAt(a + b, |a|, s);
    SnapshotPlusTailIsFullReplay(a + b, |a|, s);
  }
}

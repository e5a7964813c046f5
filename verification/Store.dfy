/** The authoritative mutable store (src/core/store.rs). */
module Store {
  import opened Wrappers
  import opened Qso
  import opened Operation
  import opened StoreModel
  import opened Indices

  function CallKeys(records: map<QsoId, QsoRecord>): map<QsoId, string> {
    map id | id in records :: records[id].callsignNorm
  }

  function ContestKeys(records: map<QsoId, QsoRecord>): map<QsoId, ContestInstanceId> {
    map id | id in records :: records[id].contestInstanceId
  }

  /** `pos` inverts `order`, and both indices are sorted, complete and free of empty buckets. */
  ghost predicate Consistent(records: map<QsoId, QsoRecord>, order: seq<QsoId>, pos: map<QsoId, nat>,
                             byCall: Index<string>, byContest: Index<ContestInstanceId>)
  {
    && Filed(records, order)
    && Inverts(pos, order)
    && Indexed(byCall, pos, CallKeys(records))
    && Indexed(byContest, pos, ContestKeys(records))
  }

  ghost predicate Filed(records: map<QsoId, QsoRecord>, order: seq<QsoId>) {
    WellFormed(View(records, order, 0))
  }

  lemma {:induction false} KeysAfterUpdate(records: map<QsoId, QsoRecord>, id: QsoId, rec: QsoRecord)
    ensures CallKeys(records[id := rec]) == CallKeys(records)[id := rec.callsignNorm]
    ensures ContestKeys(records[id := rec]) == ContestKeys(records)[id := rec.contestInstanceId]
    ensures id in records && records[id].callsignNorm == rec.callsignNorm ==>
      CallKeys(records[id := rec]) == CallKeys(records)
    ensures id in records && records[id].contestInstanceId == rec.contestInstanceId ==>
      ContestKeys(records[id := rec]) == ContestKeys(records)
  {
  }

  lemma {:induction false} KeysAfterRemoval(records: map<QsoId, QsoRecord>, id: QsoId)
    ensures CallKeys(records - {id}) == CallKeys(records) - {id}
    ensures ContestKeys(records - {id}) == ContestKeys(records) - {id}
  {
  }

  lemma {:induction false} FiledAfterUpdate(records: map<QsoId, QsoRecord>, order: seq<QsoId>, id: QsoId,
                                            rec: QsoRecord)
    requires Filed(records, order) && id in records && rec.id == id
    ensures Filed(records[id := rec], order)
  {
    var r := records[id := rec];
    forall x ensures x in order <==> x in r { assert x in order <==> x in records; }
  }

  lemma {:induction false} FiledAfterAppend(records: map<QsoId, QsoRecord>, order: seq<QsoId>, pos: map<QsoId, nat>,
                                            rec: QsoRecord)
    requires Filed(records, order) && Inverts(pos, order) && rec.id !in records
    ensures rec.id !in pos && Filed(records[rec.id := rec], order + [rec.id])
    ensures Inverts(pos[rec.id := |order|], order + [rec.id])
  {
    var id := rec.id;
    assert id !in order;
    forall x | x in pos ensures x in order { assert order[pos[x]] == x; }
    var order', r := order + [id], records[id := rec];
    forall x ensures x in order' <==> x in r { assert x in order <==> x in records; }
  }

  /** Positions and both indices are functions of records and order: equal views have equal indices. */
  lemma {:induction false} IndicesAreDetermined(
    records: map<QsoId, QsoRecord>, order: seq<QsoId>,
    pos: map<QsoId, nat>, byCall: Index<string>, byContest: Index<ContestInstanceId>,
    pos': map<QsoId, nat>, byCall': Index<string>, byContest': Index<ContestInstanceId>)
    requires Consistent(records, order, pos, byCall, byContest) && Consistent(records, order, pos', byCall', byContest')
    ensures pos == pos' && byCall == byCall' && byContest == byContest'
  {
    forall id ensures id in pos <==> id in pos' {
      assert id in pos ==> order[pos[id]] == id;
      assert id in pos' ==> order[pos'[id]] == id;
    }
    assert pos == pos';
    hide Indexed;
    forall id | id in records ensures id in pos { assert id in order; }
    IndexedMeansScan(byCall, order, pos, CallKeys(records));
    IndexedMeansScan(byCall', order, pos, CallKeys(records));
    IndexedMeansScan(byContest, order, pos, ContestKeys(records));
    IndexedMeansScan(byContest', order, pos, ContestKeys(records));
    SameScans(byCall, byCall', order, CallKeys(records));
    SameScans(byContest, byContest', order, ContestKeys(records));
  }

  lemma {:induction false} SameScans<K(!new)>(index: Index<K>, index': Index<K>, order: seq<QsoId>, keys: map<QsoId, K>)
    requires MatchesScan(index, order, keys) && MatchesScan(index', order, keys)
    ensures index == index'
  {
    forall k ensures k in index <==> k in index' {
      assert k in index <==> Scan(order, keys, k) != [];
    }
  }

  /** Appending a record that is not filed yet. */
  lemma {:induction false} ConsistentAfterAppend(records: map<QsoId, QsoRecord>, order: seq<QsoId>,
                                                 pos: map<QsoId, nat>,
                              byCall: Index<string>, byContest: Index<ContestInstanceId>, rec: QsoRecord)
    requires Consistent(records, order, pos, byCall, byContest) && rec.id !in records
    ensures Consistent(records[rec.id := rec], order + [rec.id], pos[rec.id := |order|],
                       Push(byCall, rec.callsignNorm, rec.id), Push(byContest, rec.contestInstanceId, rec.id))
  {
    FiledAfterAppend(records, order, pos, rec);
    KeysAfterUpdate(records, rec.id, rec);
    PushKeepsIndexed(byCall, pos, CallKeys(records), rec.callsignNorm, rec.id, |order|);
    PushKeepsIndexed(byContest, pos, ContestKeys(records), rec.contestInstanceId, rec.id, |order|);
  }

  /** Every filed id has a place in the order, and `pos` knows it. */
  lemma {:induction false} Located(records: map<QsoId, QsoRecord>, order: seq<QsoId>, pos: map<QsoId, nat>,
                byCall: Index<string>, byContest: Index<ContestInstanceId>, id: QsoId)
    requires Consistent(records, order, pos, byCall, byContest) && id in records
    ensures Distinct(order) && records[id].id == id
    ensures id in pos && pos[id] < |order| && order[pos[id]] == id
    ensures forall j :: 0 <= j < |order| ==> order[j] in pos && pos[order[j]] == j
  {
    assert id in order;
  }

  lemma {:induction false} PositionsAfterRemoval(order: seq<QsoId>, pos: map<QsoId, nat>, idx: nat,
                                                 order': seq<QsoId>, pos': map<QsoId, nat>)
    requires Inverts(pos, order) && idx < |order|
    requires order' == order[..idx] + order[idx + 1..]
    requires pos'.Keys == pos.Keys - {order[idx]}
    requires forall j :: 0 <= j < |order'| ==> order'[j] in pos' && pos'[order'[j]] == j
    ensures Inverts(pos', order')
    ensures forall x :: x in order' <==> x in order && x != order[idx]
    ensures forall a, b :: a in pos' && b in pos' && pos[a] < pos[b] ==> pos'[a] < pos'[b]
  {
    assert forall j :: 0 <= j < |order'| ==> order'[j] == order[if j < idx then j else j + 1];
    forall x | x in pos'
      ensures pos'[x] == (if pos[x] < idx then pos[x] else pos[x] - 1) && pos'[x] < |order'| && order'[pos'[x]] == x
    {
      var j := if pos[x] < idx then pos[x] else pos[x] - 1;
      assert pos[x] != idx;
      assert order'[j] == x;
    }
    forall x ensures x in order' <==> x in order && x != order[idx] {
      if x in order' { var j :| 0 <= j < |order'| && order'[j] == x; }
      if x in order && x != order[idx] { var j :| 0 <= j < |order| && order[j] == x; assert x in pos'; }
    }
  }

  lemma {:induction false} FiledAfterRemoval(records: map<QsoId, QsoRecord>, order: seq<QsoId>, idx: nat)
    requires Filed(records, order) && idx < |order|
    ensures Filed(records - {order[idx]}, order[..idx] + order[idx + 1..])
  {
    var order' := order[..idx] + order[idx + 1..];
    RemovalMembers(order, idx);
    assert forall x :: x in order <==> x in records;
  }

  lemma {:induction false} RemovalMembers(order: seq<QsoId>, idx: nat)
    requires Distinct(order) && idx < |order|
    ensures Distinct(order[..idx] + order[idx + 1..])
    ensures forall x :: x in order[..idx] + order[idx + 1..] <==> x in order && x != order[idx]
  {
    var order' := order[..idx] + order[idx + 1..];
    assert forall j :: 0 <= j < |order'| ==> order'[j] == order[if j < idx then j else j + 1];
    forall x | x in order && x != order[idx] ensures x in order' {
      var j :| 0 <= j < |order| && order[j] == x;
      assert order'[if j < idx then j else j - 1] == x;
    }
  }

  /** Removing the record at `idx` and shifting the positions behind it. */
  lemma {:induction false} ConsistentAfterRemoval(records: map<QsoId, QsoRecord>, order: seq<QsoId>,
                                                  pos: map<QsoId, nat>, byCall: Index<string>,
                                                  byContest: Index<ContestInstanceId>, idx: nat,
                                                  pos': map<QsoId, nat>)
    requires Consistent(records, order, pos, byCall, byContest) && idx < |order|
    requires var order' := order[..idx] + order[idx + 1..];
      pos'.Keys == pos.Keys - {order[idx]} &&
      forall j :: 0 <= j < |order'| ==> order'[j] in pos' && pos'[order'[j]] == j
    ensures order[idx] in records
    ensures var rec := records[order[idx]];
      Consistent(records - {order[idx]}, order[..idx] + order[idx + 1..], pos',
                 Drop(byCall, rec.callsignNorm, order[idx]), Drop(byContest, rec.contestInstanceId, order[idx]))
  {
    var id := order[idx];
    var order', records' := order[..idx] + order[idx + 1..], records - {id};
    assert id in order;
    PositionsAfterRemoval(order, pos, idx, order', pos');
    FiledAfterRemoval(records, order, idx);
    KeysAfterRemoval(records, id);
    DropKeepsIndexed(byCall, pos, CallKeys(records), id);
    DropKeepsIndexed(byContest, pos, ContestKeys(records), id);
    forall x | x in records' ensures x in pos && x in pos' { assert x in order' && x in order; }
    ShiftKeepsIndexed(Drop(byCall, records[id].callsignNorm, id), pos, pos', CallKeys(records'));
    ShiftKeepsIndexed(Drop(byContest, records[id].contestInstanceId, id), pos, pos', ContestKeys(records'));
  }

  /** Snapshot load after `n` records: the first `n` listed ids are filed and indexed. */
  ghost predicate PartlyFiled(records: map<QsoId, QsoRecord>, order: seq<QsoId>, pos: map<QsoId, nat>,
                              byCall: Index<string>, byContest: Index<ContestInstanceId>, n: nat)
  {
    && (forall id :: id in records <==> id in pos && pos[id] < n)
    && (forall id :: id in records ==> records[id].id == id)
    && Indexed(byCall, FirstPositions(pos, n), CallKeys(records))
    && Indexed(byContest, FirstPositions(pos, n), ContestKeys(records))
  }

  lemma {:induction false} PartlyFiledStart(order: seq<QsoId>, pos: map<QsoId, nat>)
    ensures PartlyFiled(map[], order, pos, map[], map[], 0)
  {
  }

  lemma {:induction false} PartlyFiledStep(records: map<QsoId, QsoRecord>, order: seq<QsoId>, pos: map<QsoId, nat>,
                        byCall: Index<string>, byContest: Index<ContestInstanceId>, n: nat, rec: QsoRecord)
    requires n < |order| && order[n] == rec.id && Inverts(pos, order)
    requires PartlyFiled(records, order, pos, byCall, byContest, n)
    ensures PartlyFiled(records[rec.id := rec], order, pos, Push(byCall, rec.callsignNorm, rec.id),
                        Push(byContest, rec.contestInstanceId, rec.id), n + 1)
  {
    hide Indexed;
    var first := FirstPositions(pos, n);
    assert FirstPositions(pos, n + 1) == first[rec.id := n];
    KeysAfterUpdate(records, rec.id, rec);
    PushKeepsIndexed(byCall, first, CallKeys(records), rec.callsignNorm, rec.id, n);
    PushKeepsIndexed(byContest, first, ContestKeys(records), rec.contestInstanceId, rec.id, n);
  }

  lemma {:induction false} PartlyFiledWhole(records: map<QsoId, QsoRecord>, order: seq<QsoId>, pos: map<QsoId, nat>,
                         byCall: Index<string>, byContest: Index<ContestInstanceId>)
    requires Inverts(pos, order) && PartlyFiled(records, order, pos, byCall, byContest, |order|)
    ensures Consistent(records, order, pos, byCall, byContest)
  {
    assert FirstPositions(pos, |order|) == pos;
    forall id ensures id in order <==> id in records {
      if id in order { var i :| 0 <= i < |order| && order[i] == id; }
    }
  }

  class QsoStore {
    var records: map<QsoId, QsoRecord>
    var order: seq<QsoId>
    var pos: map<QsoId, nat>
    var byCall: Index<string>
    var byContest: Index<ContestInstanceId>
    var undo: seq<Op>
    var redo: seq<Op>
    var pendingOps: seq<StoredOp>
    var nextOpSeq: OpSeq
    var nextQsoId: QsoId

    ghost function CurrentView(): View
      reads this
    {
      View(records, order, nextQsoId)
    }

    ghost function State(): StoreState
      reads this
    {
      StoreState(CurrentView(), undo, redo, pendingOps, nextOpSeq)
    }

    ghost predicate Valid()
      reads this
    {
      Consistent(records, order, pos, byCall, byContest)
    }

    /** The index refinement: in a valid store both indices agree with a scan of the canonical order. */
    lemma {:induction false} IndicesMatchScan()
      requires Valid()
      ensures MatchesScan(byCall, order, CallKeys(records))
      ensures MatchesScan(byContest, order, ContestKeys(records))
    {
      forall id | id in records ensures id in pos { assert id in order; }
      IndexedMeansScan(byCall, order, pos, CallKeys(records));
      IndexedMeansScan(byContest, order, pos, ContestKeys(records));
    }

    lemma {:induction false} CallBucketIsScan(callNorm: string)
      requires Valid()
      ensures Bucket(byCall, callNorm) == Scan(order, CallKeys(records), callNorm)
    {
      hide Consistent;
      IndicesMatchScan();
    }

    constructor ()
      ensures Valid() && State() == EMPTY_STORE
    {
      records, order, pos, byCall, byContest := map[], [], map[], map[], map[];
      undo, redo, pendingOps := [], [], [];
      nextOpSeq, nextQsoId := 1, 1;
    }

    /** Restores a store; an ill-formed snapshot is accepted too, but its indices mean nothing. */
    constructor FromSnapshot(snapshot: StoreSnapshot)
      ensures State() == StoreModel.FromSnapshot(snapshot)
      ensures WellFormedSnapshot(snapshot) ==> Valid()
    {
      hide PartlyFiled, Consistent;
      nextQsoId, nextOpSeq, order := snapshot.nextQsoId, snapshot.nextOpSeq, snapshot.order;
      records, pos, byCall, byContest := map[], map[], map[], map[];
      undo, redo, pendingOps := [], [], [];
      new;
      LoadPositions();
      LoadRecords(snapshot.records);
    }

    method LoadPositions()
      requires pos == map[]
      modifies this`pos
      ensures Distinct(order) ==> Inverts(pos, order)
    {
      ghost var good := Distinct(order);
      for idx := 0 to |order|
        invariant good ==> Inverts(pos, order[..idx])
      {
        pos := pos[order[idx] := idx];
      }
      assert order[..|order|] == order;
    }

    method LoadRecords(loaded: seq<QsoRecord>)
      requires records == map[] && byCall == map[] && byContest == map[]
      requires Distinct(order) ==> Inverts(pos, order)
      modifies this`records, this`byCall, this`byContest
      ensures records == FileRecords(loaded)
      ensures Lines(order, loaded) ==> Valid()
    {
      hide PartlyFiled, Consistent, Inverts;
      ghost var good := Lines(order, loaded);
      PartlyFiledStart(order, pos);
      for i := 0 to |loaded|
        invariant records == FileRecords(loaded[..i])
        invariant good ==> PartlyFiled(records, order, pos, byCall, byContest, i)
      {
        var rec := loaded[i];
        assert loaded[..i + 1][..i] == loaded[..i];
        if good { PartlyFiledStep(records, order, pos, byCall, byContest, i, rec); }
        InsertIndices(rec);
        records := records[rec.id := rec];
      }
      assert loaded[..|loaded|] == loaded;
      if good { PartlyFiledWhole(records, order, pos, byCall, byContest); }
    }

    method ExportSnapshot() returns (snapshot: StoreSnapshot)
      ensures snapshot == Export(State())
    {
      var out := [];
      for i := 0 to |order|
        invariant out == OrderedRecords(order[..i], records)
      {
        assert order[..i + 1][..i] == order[..i];
        if order[i] in records { out := out + [records[order[i]]]; }
      }
      assert order[..|order|] == order;
      snapshot := StoreSnapshot(nextQsoId, nextOpSeq, order, out);
    }

    // ---- public mutations -----------------------------------------------

    method Insert(draft: QsoDraft) returns (result: Result<StoredOp, StoreError>)
      requires Valid()
      modifies this
      ensures Valid() && Outcome(State(), result) == StoreModel.Insert(old(State()), draft)
    {
      hide Consistent;
      var id := nextQsoId;
      nextQsoId := nextQsoId + 1;
      var applied := ApplyInsert(draft.Materialize(id));
      result := CommitMutation(applied);
    }

    method Patch(id: QsoId, patch: QsoPatch) returns (result: Result<StoredOp, StoreError>)
      requires Valid()
      modifies this
      ensures Valid() && Outcome(State(), result) == StoreModel.Patch(old(State()), id, patch)
    {
      var applied := ApplyPatch(id, patch);
      result := CommitMutation(applied);
    }

    method Void(id: QsoId) returns (result: Result<StoredOp, StoreError>)
      requires Valid()
      modifies this
      ensures Valid() && Outcome(State(), result) == StoreModel.Void(old(State()), id)
    {
      hide Consistent;
      if id !in records { return Failure(MissingQso(id)); }
      var applied := ApplyVoid(id, records[id].flags.isVoid);
      result := CommitMutation(applied);
    }

    method Undo() returns (result: Result<StoredOp, StoreError>)
      requires Valid()
      modifies this
      ensures Valid() && Outcome(State(), result) == StoreModel.Undo(old(State()))
    {
      hide Consistent;
      if |undo| == 0 { return Failure(NothingToUndo); }
      var op := undo[|undo| - 1];
      undo := undo[..|undo| - 1];
      var applied := ApplyOp(op);
      if applied.Failure? { return Failure(applied.error); }
      redo := redo + [applied.value.inverse];
      pendingOps := pendingOps + [applied.value.stored];
      result := Success(applied.value.stored);
    }

    method Redo() returns (result: Result<StoredOp, StoreError>)
      requires Valid()
      modifies this
      ensures Valid() && Outcome(State(), result) == StoreModel.Redo(old(State()))
    {
      hide Consistent;
      if |redo| == 0 { return Failure(NothingToRedo); }
      var op := redo[|redo| - 1];
      redo := redo[..|redo| - 1];
      var applied := ApplyOp(op);
      if applied.Failure? { return Failure(applied.error); }
      undo := undo + [applied.value.inverse];
      pendingOps := pendingOps + [applied.value.stored];
      result := Success(applied.value.stored);
    }

    method Execute(cmd: Command) returns (result: Result<StoredOp, StoreError>)
      requires Valid()
      modifies this
      ensures Valid() && Outcome(State(), result) == Exec(old(State()), cmd)
    {
      match cmd
      case CmdInsert(draft) => result := Insert(draft);
      case CmdPatch(id, patch) => result := Patch(id, patch);
      case CmdVoid(id) => result := Void(id);
      case CmdUndo => result := Undo();
      case CmdRedo => result := Redo();
    }

    /** Replay clears the undo and redo stacks after each op. */
    method ApplyReplayedOp(stored: StoredOp) returns (result: Result<(), StoreError>)
      requires Valid()
      modifies this
      ensures Valid() && Outcome(State(), result) == ReplayOp(old(State()), stored)
    {
      hide Consistent;
      var applied;
      match stored.op {
        case OpInsert(qso) => applied := ApplyInsertWithSeq(qso, stored.opSeq);
        case OpPatch(id, patch, _) => applied := ApplyPatchWithSeq(id, patch, stored.opSeq);
        case OpVoid(id, prevIsVoid) => applied := ApplyVoidWithSeq(id, prevIsVoid, stored.opSeq);
      }
      if applied.Failure? { return Failure(applied.error); }
      undo, redo := [], [];
      result := Success(());
    }

    method ClearPendingOps()
      modifies this`pendingOps
      ensures pendingOps == []
    {
      pendingOps := [];
    }

    // ---- queries --------------------------------------------------------

    /** All records of a normalized callsign: what a full scan in insertion order would return. */
    method ByCall(callNorm: string) returns (found: seq<QsoRecord>)
      requires Valid()
      ensures found == OrderedRecords(Scan(order, CallKeys(records), callNorm), records)
    {
      hide Consistent, MatchesScan;
      CallBucketIsScan(callNorm);
      var ids := Bucket(byCall, callNorm);
      found := [];
      for i := 0 to |ids|
        invariant found == OrderedRecords(ids[..i], records)
      {
        assert ids[..i + 1][..i] == ids[..i];
        if ids[i] in records { found := found + [records[ids[i]]]; }
      }
      assert ids[..|ids|] == ids;
    }

    // ---- rollback -------------------------------------------------------

    method MutationCheckpoint() returns (checkpoint: StoreModel.MutationCheckpoint)
      ensures checkpoint == Checkpoint(State())
    {
      checkpoint := StoreModel.MutationCheckpoint(|undo|, |redo|, |pendingOps|, nextOpSeq, nextQsoId);
    }

    method RollbackMutation(checkpoint: StoreModel.MutationCheckpoint,
                            stored: StoredOp) returns (result: Result<(), StoreError>)
      requires Valid()
      modifies this
      ensures Valid() && Outcome(State(), result) == Rollback(old(State()), checkpoint, stored)
    {
      hide Consistent;
      match stored.op {
        case OpInsert(qso) => result := RollbackInsert(qso.id);
        case OpPatch(id, _, prev) => result := RollbackPatch(id, prev);
        case OpVoid(id, prevIsVoid) => result := RollbackVoid(id, prevIsVoid);
      }
      if result.Failure? { return; }
      nextOpSeq, nextQsoId := checkpoint.nextOpSeq, checkpoint.nextQsoId;
      undo := Truncate(undo, checkpoint.undoLen);
      redo := Truncate(redo, checkpoint.redoLen);
      pendingOps := Truncate(pendingOps, checkpoint.pendingLen);
    }

    // ---- shared steps ---------------------------------------------------

    method CommitMutation(applied: Result<Effect, StoreError>) returns (result: Result<StoredOp, StoreError>)
      modifies this`undo, this`redo, this`pendingOps
      ensures Outcome(State(), result) == Commit(Outcome(old(State()), applied))
    {
      if applied.Failure? { return Failure(applied.error); }
      undo := undo + [applied.value.inverse];
      redo := [];
      pendingOps := pendingOps + [applied.value.stored];
      result := Success(applied.value.stored);
    }

    method ApplyOp(op: Op) returns (result: Result<Effect, StoreError>)
      requires Valid()
      modifies this
      ensures Valid() && Outcome(State(), result) == ApplyNext(old(State()), op)
    {
      match op
      case OpInsert(qso) => result := ApplyInsert(qso);
      case OpPatch(id, patch, _) => result := ApplyPatch(id, patch);
      case OpVoid(id, prevIsVoid) => result := ApplyVoid(id, prevIsVoid);
    }

    method TakeNextOpSeq() returns (taken: OpSeq)
      modifies this`nextOpSeq
      ensures taken == old(nextOpSeq) && nextOpSeq == old(nextOpSeq) + 1
    {
      taken := nextOpSeq;
      nextOpSeq := nextOpSeq + 1;
    }

    method ApplyInsert(qso: QsoRecord) returns (result: Result<Effect, StoreError>)
      requires Valid()
      modifies this
      ensures Valid() && Outcome(State(), result) == ApplyNext(old(State()), OpInsert(qso))
    {
      var taken := TakeNextOpSeq();
      result := ApplyInsertWithSeq(qso, taken);
    }

    method ApplyInsertWithSeq(qso: QsoRecord, taken: OpSeq) returns (result: Result<Effect, StoreError>)
      requires Valid()
      modifies this
      ensures Valid() && Outcome(State(), result) == ApplyWithSeq(old(State()), OpInsert(qso), taken)
    {
      hide Consistent;
      if qso.id in records { return Failure(AlreadyExists(qso.id)); }
      ConsistentAfterAppend(records, order, pos, byCall, byContest, qso);
      nextQsoId := Max(nextQsoId, qso.id + 1);
      InsertIndices(qso);
      pos := pos[qso.id := |order|];
      order := order + [qso.id];
      records := records[qso.id := qso];
      nextOpSeq := Max(nextOpSeq, taken + 1);
      result := Success(Effect(StoredOp(taken, OpInsert(qso)), OpVoid(qso.id, false)));
    }

    method ApplyPatch(id: QsoId, patch: QsoPatch) returns (result: Result<Effect, StoreError>)
      requires Valid()
      modifies this
      ensures Valid()
      ensures forall prev :: Outcome(State(), result) == ApplyNext(old(State()), OpPatch(id, patch, prev))
    {
      var taken := TakeNextOpSeq();
      result := ApplyPatchWithSeq(id, patch, taken);
    }

    method ApplyPatchWithSeq(id: QsoId, patch: QsoPatch, taken: OpSeq) returns (result: Result<Effect, StoreError>)
      requires Valid()
      modifies this
      ensures Valid()
      ensures forall prev :: Outcome(State(), result) == ApplyWithSeq(old(State()), OpPatch(id, patch, prev), taken)
    {
      hide Consistent;
      if id !in records { return Failure(MissingQso(id)); }
      var prev := patch.CaptureInverseFor(records[id]);
      Overwrite(id, patch);
      IndicesMatchScan();
      nextOpSeq := Max(nextOpSeq, taken + 1);
      result := Success(Effect(StoredOp(taken, OpPatch(id, patch, prev)), OpPatch(id, prev, patch)));
    }

    /** Rewrites a record in place and moves its id between buckets where a key changed. */
    method Overwrite(id: QsoId, patch: QsoPatch)
      requires Valid() && id in records
      modifies this`records, this`byCall, this`byContest
      ensures Valid() && records == old(records)[id := patch.Patched(old(records)[id])]
    {
      hide Indexed, Filed;
      var original := records[id];
      var rec := patch.ApplyTo(original);
      ghost var before := records;
      Located(records, order, pos, byCall, byContest, id);
      FiledAfterUpdate(records, order, id, rec);
      KeysAfterUpdate(records, id, rec);
      records := records[id := rec];
      if original.callsignNorm != rec.callsignNorm {
        UpdateCallIndex(id, original.callsignNorm, rec.callsignNorm, CallKeys(before));
      }
      if original.contestInstanceId != rec.contestInstanceId {
        UpdateContestIndex(id, original.contestInstanceId, rec.contestInstanceId, ContestKeys(before));
      }
    }

    method ApplyVoid(id: QsoId, prevIsVoid: bool) returns (result: Result<Effect, StoreError>)
      requires Valid()
      modifies this
      ensures Valid() && Outcome(State(), result) == ApplyNext(old(State()), OpVoid(id, prevIsVoid))
    {
      var taken := TakeNextOpSeq();
      result := ApplyVoidWithSeq(id, prevIsVoid, taken);
    }

    method ApplyVoidWithSeq(id: QsoId, prevIsVoid: bool, taken: OpSeq) returns (result: Result<Effect, StoreError>)
      requires Valid()
      modifies this
      ensures Valid() && Outcome(State(), result) == ApplyWithSeq(old(State()), OpVoid(id, prevIsVoid), taken)
    {
      hide Consistent;
      if id !in records { return Failure(MissingQso(id)); }
      SetVoid(id, !prevIsVoid);
      var newIsVoid := records[id].flags.isVoid;
      nextOpSeq := Max(nextOpSeq, taken + 1);
      result := Success(Effect(StoredOp(taken, OpVoid(id, prevIsVoid)), OpVoid(id, newIsVoid)));
    }

    method SetVoid(id: QsoId, isVoid: bool)
      requires Valid() && id in records
      modifies this`records
      ensures Valid() && records == old(records)[id := old(records)[id].WithVoid(isVoid)]
    {
      var rec := records[id].WithVoid(isVoid);
      FiledAfterUpdate(records, order, id, rec);
      KeysAfterUpdate(records, id, rec);
      records := records[id := rec];
    }

    method RollbackInsert(id: QsoId) returns (result: Result<(), StoreError>)
      requires Valid()
      modifies this`records, this`order, this`pos, this`byCall, this`byContest
      ensures Valid()
      ensures id !in old(records) ==> result == Failure(MissingQso(id)) && State() == old(State())
      ensures id in old(records) ==>
        result == Success(()) && records == old(records) - {id} && order == Without(old(order), id)
    {
      hide Consistent;
      if id !in records { return Failure(MissingQso(id)); }
      var rec := records[id];
      records := records - {id};
      RemoveIndices(rec);
      Located(old(records), order, pos, old(byCall), old(byContest), id);
      if id !in pos { return Failure(MissingQso(id)); }
      var idx := pos[id];
      pos := pos - {id};
      order := order[..idx] + order[idx + 1..];
      RemovalIsWithout(old(order), idx);
      for i := idx to |order|
        invariant forall j :: 0 <= j < i ==> order[j] in pos && pos[order[j]] == j
        invariant forall j :: i <= j < |order| ==> order[j] in pos && pos[order[j]] == j + 1
        invariant pos.Keys == old(pos).Keys - {id}
        modifies this`pos
      {
        pos := pos[order[i] := i];
      }
      ConsistentAfterRemoval(old(records), old(order), old(pos), old(byCall), old(byContest), idx, pos);
      result := Success(());
    }

    method RollbackPatch(id: QsoId, prev: QsoPatch) returns (result: Result<(), StoreError>)
      requires Valid()
      modifies this`records, this`byCall, this`byContest
      ensures Valid()
      ensures id !in old(records) ==> result == Failure(MissingQso(id)) && State() == old(State())
      ensures id in old(records) ==>
        result == Success(()) && records == old(records)[id := prev.Patched(old(records)[id])]
    {
      hide Consistent;
      if id !in records { return Failure(MissingQso(id)); }
      Overwrite(id, prev);
      IndicesMatchScan();
      result := Success(());
    }

    method RollbackVoid(id: QsoId, prevIsVoid: bool) returns (result: Result<(), StoreError>)
      requires Valid()
      modifies this`records
      ensures Valid()
      ensures id !in old(records) ==> result == Failure(MissingQso(id)) && State() == old(State())
      ensures id in old(records) ==>
        result == Success(()) && records == old(records)[id := old(records)[id].WithVoid(prevIsVoid)]
    {
      if id !in records { return Failure(MissingQso(id)); }
      SetVoid(id, prevIsVoid);
      result := Success(());
    }

    // ---- index maintenance ----------------------------------------------

    method InsertIndices(rec: QsoRecord)
      modifies this`byCall, this`byContest
      ensures byCall == Push(old(byCall), rec.callsignNorm, rec.id)
      ensures byContest == Push(old(byContest), rec.contestInstanceId, rec.id)
    {
      byCall := byCall[rec.callsignNorm := Bucket(byCall, rec.callsignNorm) + [rec.id]];
      byContest := byContest[rec.contestInstanceId := Bucket(byContest, rec.contestInstanceId) + [rec.id]];
    }

    method RemoveIndices(rec: QsoRecord)
      modifies this`byCall, this`byContest
      ensures byCall == Drop(old(byCall), rec.callsignNorm, rec.id)
      ensures byContest == Drop(old(byContest), rec.contestInstanceId, rec.id)
    {
      if rec.callsignNorm in byCall {
        byCall := byCall[rec.callsignNorm := Without(byCall[rec.callsignNorm], rec.id)];
        if byCall[rec.callsignNorm] == [] { byCall := byCall - {rec.callsignNorm}; }
      }
      if rec.contestInstanceId in byContest {
        byContest := byContest[rec.contestInstanceId := Without(byContest[rec.contestInstanceId], rec.id)];
        if byContest[rec.contestInstanceId] == [] { byContest := byContest - {rec.contestInstanceId}; }
      }
    }

    method UpdateCallIndex(id: QsoId, oldCall: string, newCall: string, ghost keys: map<QsoId, string>)
      requires Inverts(pos, order) && id in pos && Indexed(byCall, pos, keys)
      requires id in keys && keys[id] == oldCall != newCall
      modifies this`byCall
      ensures Indexed(byCall, pos, keys[id := newCall])
    {
      hide Indexed, Inverts, SortedByPos, InsertedInOrder;
      DropKeepsIndexed(byCall, pos, keys, id);
      if oldCall in byCall {
        byCall := byCall[oldCall := Without(byCall[oldCall], id)];
        if byCall[oldCall] == [] { byCall := byCall - {oldCall}; }
      }
      assert byCall == Drop(old(byCall), oldCall, id);
      var ids := Bucket(byCall, newCall);
      BucketWithout(byCall, order, pos, keys - {id}, newCall, id);
      var moved := InsertIdOrdered(ids, id, pos);
      InsertKeepsIndexed(byCall, pos, keys - {id}, newCall, id, moved);
      byCall := byCall[newCall := moved];
      assert (keys - {id})[id := newCall] == keys[id := newCall];
    }

    method UpdateContestIndex(id: QsoId, oldId: ContestInstanceId, newId: ContestInstanceId,
                              ghost keys: map<QsoId, ContestInstanceId>)
      requires Inverts(pos, order) && id in pos && Indexed(byContest, pos, keys)
      requires id in keys && keys[id] == oldId != newId
      modifies this`byContest
      ensures Indexed(byContest, pos, keys[id := newId])
    {
      hide Indexed, Inverts, SortedByPos, InsertedInOrder;
      DropKeepsIndexed(byContest, pos, keys, id);
      if oldId in byContest {
        byContest := byContest[oldId := Without(byContest[oldId], id)];
        if byContest[oldId] == [] { byContest := byContest - {oldId}; }
      }
      assert byContest == Drop(old(byContest), oldId, id);
      var ids := Bucket(byContest, newId);
      BucketWithout(byContest, order, pos, keys - {id}, newId, id);
      var moved := InsertIdOrdered(ids, id, pos);
      InsertKeepsIndexed(byContest, pos, keys - {id}, newId, id, moved);
      byContest := byContest[newId := moved];
      assert (keys - {id})[id := newId] == keys[id := newId];
    }
  }

  /** The positions below `n`: what a snapshot load has indexed after `n` records. */
  ghost function FirstPositions(pos: map<QsoId, nat>, n: nat): map<QsoId, nat> {
    map id | id in pos && pos[id] < n :: pos[id]
  }

  lemma {:induction false} WithoutAbsent(ids: seq<QsoId>, id: QsoId)
    requires id !in ids
    ensures Without(ids, id) == ids
  {
    if ids != [] {
      WithoutAbsent(ids[..|ids| - 1], id);
      assert ids == ids[..|ids| - 1] + [ids[|ids| - 1]];
    }
  }

  lemma {:induction false} WithoutAppended(ids: seq<QsoId>, id: QsoId)
    requires id !in ids
    ensures Without(ids + [id], id) == ids
  {
    WithoutAbsent(ids, id);
    assert (ids + [id])[..|ids|] == ids;
  }

  /** `Vec::remove(idx)` on a list without repeats removes that id and nothing else. */
  lemma {:induction false} RemovalIsWithout(ids: seq<QsoId>, idx: nat)
    requires Distinct(ids) && idx < |ids|
    ensures Without(ids, ids[idx]) == ids[..idx] + ids[idx + 1..]
  {
    var n := |ids| - 1;
    if idx == n {
      WithoutAbsent(ids[..n], ids[idx]);
    } else {
      RemovalIsWithout(ids[..n], idx);
      assert ids[..n][..idx] + ids[..n][idx + 1..] + [ids[n]] == ids[..idx] + ids[idx + 1..];
    }
  }
}

/**
 * What the operations of the in-memory store do, as functions on values (src/core/store.rs).
 * The class `Store.QsoStore` updates its fields in place and is proved to compute these
 * functions; the theorems about undo, rejection, replay and crashes are about them too.
 */
module StoreModel {
  import opened Wrappers
  import opened Qso
  import opened Operation

  datatype StoreError = MissingQso(id: QsoId) | AlreadyExists(id: QsoId) | NothingToUndo | NothingToRedo

  /** The part of the store that its indices are derived from. */
  datatype View = View(records: map<QsoId, QsoRecord>, order: seq<QsoId>, nextQsoId: QsoId)

  datatype StoreState = StoreState(
    view: View, undo: seq<Op>, redo: seq<Op>, pending: seq<StoredOp>, nextOpSeq: OpSeq)

  datatype StoreSnapshot = StoreSnapshot(
    nextQsoId: QsoId, nextOpSeq: OpSeq, order: seq<QsoId>, records: seq<QsoRecord>)

  datatype MutationCheckpoint = MutationCheckpoint(
    undoLen: nat, redoLen: nat, pendingLen: nat, nextOpSeq: OpSeq, nextQsoId: QsoId)

  datatype Outcome<+T> = Outcome(state: StoreState, result: Result<T, StoreError>)

  const EMPTY_VIEW: View := View(map[], [], 1)
  const EMPTY_STORE: StoreState := StoreState(EMPTY_VIEW, [], [], [], 1)

  ghost predicate Distinct(order: seq<QsoId>) {
    forall i, j :: 0 <= i < j < |order| ==> order[i] != order[j]
  }

  /** `order` lists every record exactly once, and records are filed under their own id. */
  ghost predicate WellFormed(v: View) {
    && Distinct(v.order)
    && (forall id :: id in v.order <==> id in v.records)
    && (forall id :: id in v.records ==> v.records[id].id == id)
  }

  ghost predicate FreshIds(v: View) {
    forall id :: id in v.records ==> id < v.nextQsoId
  }

  // ---- one operation ----------------------------------------------------

  function ApplyToView(v: View, op: Op): Result<View, StoreError> {
    match op
    case OpInsert(qso) =>
      if qso.id in v.records then Failure(AlreadyExists(qso.id))
      else Success(View(v.records[qso.id := qso], v.order + [qso.id], Max(v.nextQsoId, qso.id + 1)))
    case OpPatch(id, patch, _) =>
      if id !in v.records then Failure(MissingQso(id))
      else Success(v.(records := v.records[id := patch.Patched(v.records[id])]))
    case OpVoid(id, prevIsVoid) =>
      if id !in v.records then Failure(MissingQso(id))
      else Success(v.(records := v.records[id := v.records[id].WithVoid(!prevIsVoid)]))
  }

  predicate Applicable(v: View, op: Op) {
    ApplyToView(v, op).Success?
  }

  function Applied(v: View, op: Op): View
    requires Applicable(v, op)
  {
    ApplyToView(v, op).value
  }

  /** The op as journaled: a patch re-captures its inverse from the record it meets. */
  function Recorded(v: View, op: Op): Op
    requires Applicable(v, op)
  {
    if op.OpPatch? then op.(prev := op.patch.CaptureInverseFor(v.records[op.id])) else op
  }

  /** The compensating op pushed on the opposite stack. */
  function InverseOf(v: View, op: Op): Op
    requires Applicable(v, op)
  {
    match op
    case OpInsert(qso) => OpVoid(qso.id, false)
    case OpPatch(id, patch, _) => OpPatch(id, patch.CaptureInverseFor(v.records[id]), patch)
    case OpVoid(id, prevIsVoid) => OpVoid(id, !prevIsVoid)
  }

  datatype Effect = Effect(stored: StoredOp, inverse: Op)

  function ApplyWithSeq(s: StoreState, op: Op, opSeq: OpSeq): Outcome<Effect> {
    match ApplyToView(s.view, op)
    case Failure(e) => Outcome(s, Failure(e))
    case Success(v) =>
      Outcome(s.(view := v, nextOpSeq := Max(s.nextOpSeq, opSeq + 1)),
              Success(Effect(StoredOp(opSeq, Recorded(s.view, op)), InverseOf(s.view, op))))
  }

  /** `apply_op` and its relatives: the sequence number is taken even when the op then fails. */
  function ApplyNext(s: StoreState, op: Op): Outcome<Effect> {
    ApplyWithSeq(s.(nextOpSeq := s.nextOpSeq + 1), op, s.nextOpSeq)
  }

  // ---- public mutations -------------------------------------------------

  datatype Command =
    | CmdInsert(draft: QsoDraft)
    | CmdPatch(id: QsoId, patch: QsoPatch)
    | CmdVoid(id: QsoId)
    | CmdUndo
    | CmdRedo

  function Commit(o: Outcome<Effect>): Outcome<StoredOp> {
    match o.result
    case Failure(e) => Outcome(o.state, Failure(e))
    case Success(eff) =>
      Outcome(o.state.(undo := o.state.undo + [eff.inverse], redo := [],
                       pending := o.state.pending + [eff.stored]),
              Success(eff.stored))
  }

  function Insert(s: StoreState, draft: QsoDraft): Outcome<StoredOp> {
    var id := s.view.nextQsoId;
    Commit(ApplyNext(s.(view := s.view.(nextQsoId := id + 1)), OpInsert(draft.Materialize(id))))
  }

  function Patch(s: StoreState, id: QsoId, patch: QsoPatch): Outcome<StoredOp> {
    Commit(ApplyNext(s, OpPatch(id, patch, patch)))
  }

  function Void(s: StoreState, id: QsoId): Outcome<StoredOp> {
    if id !in s.view.records then Outcome(s, Failure(MissingQso(id)))
    else Commit(ApplyNext(s, OpVoid(id, s.view.records[id].flags.isVoid)))
  }

  function Undo(s: StoreState): Outcome<StoredOp> {
    if s.undo == [] then Outcome(s, Failure(NothingToUndo)) else
    var n := |s.undo| - 1;
    var o := ApplyNext(s.(undo := s.undo[..n]), s.undo[n]);
    match o.result
    case Failure(e) => Outcome(o.state, Failure(e))
    case Success(eff) =>
      Outcome(o.state.(redo := o.state.redo + [eff.inverse], pending := o.state.pending + [eff.stored]),
              Success(eff.stored))
  }

  function Redo(s: StoreState): Outcome<StoredOp> {
    if s.redo == [] then Outcome(s, Failure(NothingToRedo)) else
    var n := |s.redo| - 1;
    var o := ApplyNext(s.(redo := s.redo[..n]), s.redo[n]);
    match o.result
    case Failure(e) => Outcome(o.state, Failure(e))
    case Success(eff) =>
      Outcome(o.state.(undo := o.state.undo + [eff.inverse], pending := o.state.pending + [eff.stored]),
              Success(eff.stored))
  }

  function Exec(s: StoreState, cmd: Command): Outcome<StoredOp> {
    match cmd
    case CmdInsert(draft) => Insert(s, draft)
    case CmdPatch(id, patch) => Patch(s, id, patch)
    case CmdVoid(id) => Void(s, id)
    case CmdUndo => Undo(s)
    case CmdRedo => Redo(s)
  }

  // ---- rejection --------------------------------------------------------

  function Checkpoint(s: StoreState): MutationCheckpoint {
    MutationCheckpoint(|s.undo|, |s.redo|, |s.pending|, s.nextOpSeq, s.view.nextQsoId)
  }

  function Without(ids: seq<QsoId>, id: QsoId): seq<QsoId> {
    if ids == [] then []
    else if ids[|ids| - 1] == id then Without(ids[..|ids| - 1], id)
    else Without(ids[..|ids| - 1], id) + [ids[|ids| - 1]]
  }

  function RevertView(v: View, op: Op): Result<View, StoreError> {
    if op.Target() !in v.records then Failure(MissingQso(op.Target())) else
    match op
    case OpInsert(qso) => Success(v.(records := v.records - {qso.id}, order := Without(v.order, qso.id)))
    case OpPatch(id, _, prev) => Success(v.(records := v.records[id := prev.Patched(v.records[id])]))
    case OpVoid(id, prevIsVoid) => Success(v.(records := v.records[id := v.records[id].WithVoid(prevIsVoid)]))
  }

  function Rollback(s: StoreState, cp: MutationCheckpoint, stored: StoredOp): Outcome<()> {
    match RevertView(s.view, stored.op)
    case Failure(e) => Outcome(s, Failure(e))
    case Success(v) =>
      Outcome(StoreState(v.(nextQsoId := cp.nextQsoId), Truncate(s.undo, cp.undoLen), Truncate(s.redo, cp.redoLen),
                         Truncate(s.pending, cp.pendingLen), cp.nextOpSeq),
              Success(()))
  }

  // ---- replay and snapshots ---------------------------------------------

  function ReplayOp(s: StoreState, stored: StoredOp): Outcome<()> {
    var o := ApplyWithSeq(s, stored.op, stored.opSeq);
    match o.result
    case Failure(e) => Outcome(o.state, Failure(e))
    case Success(_) => Outcome(o.state.(undo := [], redo := []), Success(()))
  }

  function OrderedRecords(order: seq<QsoId>, records: map<QsoId, QsoRecord>): seq<QsoRecord> {
    if order == [] then [] else
    var n := |order| - 1;
    OrderedRecords(order[..n], records) + (if order[n] in records then [records[order[n]]] else [])
  }

  function Export(s: StoreState): StoreSnapshot {
    StoreSnapshot(s.view.nextQsoId, s.nextOpSeq, s.view.order, OrderedRecords(s.view.order, s.view.records))
  }

  function FileRecords(records: seq<QsoRecord>): map<QsoId, QsoRecord> {
    if records == [] then map[] else
    var n := |records| - 1;
    FileRecords(records[..n])[records[n].id := records[n]]
  }

  function FromSnapshot(snap: StoreSnapshot): StoreState {
    StoreState(View(FileRecords(snap.records), snap.order, snap.nextQsoId), [], [], [], snap.nextOpSeq)
  }

  /** The shape `export_snapshot` produces: one record per listed id, in the listed order. */
  ghost predicate WellFormedSnapshot(snap: StoreSnapshot) {
    Lines(snap.order, snap.records)
  }

  ghost predicate Lines(order: seq<QsoId>, records: seq<QsoRecord>) {
    && Distinct(order)
    && |records| == |order|
    && forall i :: 0 <= i < |order| ==> records[i].id == order[i]
  }
}

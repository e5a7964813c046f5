/**
 * Rejecting a mutation after it was applied: `mutation_checkpoint` before, `rollback_mutation`
 * after (src/core/store.rs:277-304, 537-585; src/runtime/handle.rs:432-454).
 */
module Rejection {
  import opened Wrappers
  import opened Qso
  import opened Operation
  import opened StoreModel
  import opened History
  import opened UndoRedo
  import Store

  /** The rollback of a command that succeeded, with the checkpoint taken just before it. */
  function Rejected(s: StoreState, cmd: Command): Outcome<()>
    requires Exec(s, cmd).result.Success?
  {
    Rollback(Exec(s, cmd).state, Checkpoint(s), Exec(s, cmd).result.value)
  }

  /**
   * Reverting an op restores the view exactly when the op is not a void with a stale belief:
   * inserts and patches carry what was really there.
   */
  lemma {:induction false} RevertRestoresIff(v: View, op: Op)
    requires WellFormed(v) && Applicable(v, op)
    ensures var r := RevertView(Applied(v, op), Recorded(v, op));
      r.Success? &&
      (r.value.(nextQsoId := v.nextQsoId) == v <==> (op.OpVoid? ==> v.records[op.id].flags.isVoid == op.prevIsVoid))
  {
    match op {
      case OpInsert(qso) => RevertInsert(v, qso);
      case OpPatch(id, patch, _) => RevertPatch(v, id, patch);
      case OpVoid(id, prevIsVoid) => RevertVoid(v, id, prevIsVoid);
    }
  }

  lemma {:induction false} RevertInsert(v: View, qso: QsoRecord)
    requires WellFormed(v) && qso.id !in v.records
    ensures RevertView(Applied(v, OpInsert(qso)), OpInsert(qso))
         == Success(v.(nextQsoId := Max(v.nextQsoId, qso.id + 1)))
  {
    hide Without;
    assert qso.id !in v.order;
    Store.WithoutAppended(v.order, qso.id);
    assert v.records[qso.id := qso] - {qso.id} == v.records;
  }

  lemma {:induction false} RevertPatch(v: View, id: QsoId, patch: QsoPatch)
    requires id in v.records
    ensures var prev := patch.CaptureInverseFor(v.records[id]);
      forall any :: RevertView(Applied(v, OpPatch(id, patch, any)), OpPatch(id, patch, prev)) == Success(v)
  {
    InverseUndoesPatch(patch, v.records[id]);
    var prev := patch.CaptureInverseFor(v.records[id]);
    assert v.records[id := patch.Patched(v.records[id])][id := prev.Patched(patch.Patched(v.records[id]))] == v.records;
  }

  lemma {:induction false} RevertVoid(v: View, id: QsoId, prevIsVoid: bool)
    requires id in v.records
    ensures var r := RevertView(Applied(v, OpVoid(id, prevIsVoid)), OpVoid(id, prevIsVoid));
      r.Success? && r.value.order == v.order && r.value.nextQsoId == v.nextQsoId &&
      (r.value == v <==> v.records[id].flags.isVoid == prevIsVoid)
  {
    var r := RevertView(Applied(v, OpVoid(id, prevIsVoid)), OpVoid(id, prevIsVoid)).value;
    assert r.records[id].flags.isVoid == prevIsVoid;
    if v.records[id].flags.isVoid == prevIsVoid { assert r.records == v.records; }
  }

  lemma {:induction false} RejectedIsRevert(s: StoreState, cmd: Command)
    requires Reachable(s) && Exec(s, cmd).result.Success?
    ensures var o, r := Exec(s, cmd), Rejected(s, cmd);
      var back := RevertView(o.state.view, o.result.value.op);
      back.Success? && r.result == Success(()) &&
      r.state.view == back.value.(nextQsoId := s.view.nextQsoId) &&
      r.state.nextOpSeq == s.nextOpSeq && r.state.pending == s.pending
  {
    ExecIsOneOp(s, cmd);
    var o := Exec(s, cmd);
    var op := o.result.value.op;
    RevertRestoresIff(s.view, op);
    assert Truncate(o.state.pending, |s.pending|) == s.pending;
  }

  /** What the journaled op says about the flag it met. */
  predicate Stale(v: View, op: Op) {
    op.OpVoid? && op.id in v.records && v.records[op.id].flags.isVoid != op.prevIsVoid
  }

  /** Undo would apply, or redo would, a void entry whose belief about the flag is wrong. */
  predicate TopStale(s: StoreState, cmd: Command) {
    match cmd
    case CmdUndo => s.undo != [] && Stale(s.view, s.undo[|s.undo| - 1])
    case CmdRedo => s.redo != [] && Stale(s.view, s.redo[|s.redo| - 1])
    case _ => false
  }

  /** Inserts, patches and voids carry the flag they met: only undo and redo can be stale. */
  lemma {:induction false} EmittedIsStaleIffTopIs(s: StoreState, cmd: Command)
    requires Reachable(s) && Exec(s, cmd).result.Success?
    ensures Stale(s.view, Exec(s, cmd).result.value.op) <==> TopStale(s, cmd)
  {
  }

  /**
   * For every command: the rejected view is the old one exactly when the command was not the undo or
   * redo of a stale void.
   */
  lemma {:induction false} RejectionRestoresViewIff(s: StoreState, cmd: Command)
    requires Reachable(s) && Exec(s, cmd).result.Success?
    ensures Rejected(s, cmd).result == Success(())
    ensures Rejected(s, cmd).state.view == s.view <==> !TopStale(s, cmd)
    ensures Rejected(s, cmd).state.view == s.view <==> !Stale(s.view, Exec(s, cmd).result.value.op)
    ensures Rejected(s, cmd).state.nextOpSeq == s.nextOpSeq
  {
    hide WellFormed, FreshIds;
    ExecIsOneOp(s, cmd);
    RejectedIsRevert(s, cmd);
    RecordedAgain(s, cmd);
    RevertRestoresIff(s.view, Exec(s, cmd).result.value.op);
    EmittedIsStaleIffTopIs(s, cmd);
  }

  lemma {:induction false} RecordedAgain(s: StoreState, cmd: Command)
    requires Reachable(s) && Exec(s, cmd).result.Success?
    ensures Applicable(s.view, Exec(s, cmd).result.value.op)
    ensures Recorded(s.view, Exec(s, cmd).result.value.op) == Exec(s, cmd).result.value.op
  {
    ExecIsOneOp(s, cmd);
  }

  /**
   * A rejected insert, patch or void leaves no trace except that the redo stack is gone: the
   * whole state is restored if and only if there was nothing to redo.
   */
  lemma {:induction false} RejectionLeavesNoTrace(s: StoreState, cmd: Command)
    requires Reachable(s) && Exec(s, cmd).result.Success? && !cmd.CmdUndo? && !cmd.CmdRedo?
    ensures Rejected(s, cmd) == Outcome(s.(redo := []), Success(()))
    ensures Rejected(s, cmd).state == s <==> s.redo == []
  {
    RejectionRestoresViewIff(s, cmd);
    RejectedIsRevert(s, cmd);
    assert Truncate(Exec(s, cmd).state.undo, |s.undo|) == s.undo;
  }

  /** A rejected undo keeps the redo stack but loses the popped entry; the view is safe when the stack was coherent. */
  lemma {:induction false} RejectedUndoLosesItsEntry(s: StoreState)
    requires Reachable(s) && Coherent(s) && s.undo != []
    ensures Exec(s, CmdUndo).result.Success?
    ensures Rejected(s, CmdUndo) == Outcome(s.(undo := s.undo[..|s.undo| - 1]), Success(()))
  {
    ExactRoundTrip(s.view, s.undo[|s.undo| - 1]);
  }

  lemma {:induction false} RejectedRedoLosesItsEntry(s: StoreState)
    requires Reachable(s) && Coherent(s) && s.redo != []
    ensures Exec(s, CmdRedo).result.Success?
    ensures Rejected(s, CmdRedo) == Outcome(s.(redo := s.redo[..|s.redo| - 1]), Success(()))
  {
    ExactRoundTrip(s.view, s.redo[|s.redo| - 1]);
  }

  /**
   * The promise fails for repeated rejected undos: insert and void one record, reject two undos,
   * and the record is no longer void although no mutation was accepted since.
   */
  lemma {:induction false} TwoRejectedUndosLeaveATrace(draft: QsoDraft)
    requires !draft.flags.isVoid
    ensures var s := Run(EMPTY_STORE, [CmdInsert(draft), CmdVoid(1)]);
      Exec(s, CmdUndo).result.Success? &&
      var s1 := Rejected(s, CmdUndo).state;
      s1.view == s.view && Exec(s1, CmdUndo).result.Success? &&
      var s2 := Rejected(s1, CmdUndo).state;
      1 in s.view.records && 1 in s2.view.records &&
      s.view.records[1].flags.isVoid && !s2.view.records[1].flags.isVoid
  {
    var cmds := [CmdInsert(draft), CmdVoid(1)];
    assert cmds[..1] == [CmdInsert(draft)] && cmds[..1][..0] == [];
    var s0 := Insert(EMPTY_STORE, draft).state;
    assert Run(EMPTY_STORE, cmds[..1]) == s0;
    var s := Run(EMPTY_STORE, cmds);
    assert s == Void(s0, 1).state;
    assert s.undo == [OpVoid(1, false), OpVoid(1, true)];
    RunKeepsCoherent(EMPTY_STORE, cmds);
    RejectedUndoLosesItsEntry(s);
    var s1 := Rejected(s, CmdUndo).state;
    assert s1.undo == [OpVoid(1, false)];
    RejectionRestoresViewIff(s1, CmdUndo);
    assert Exec(s1, CmdUndo).result.value.op == OpVoid(1, false);
  }

}

/**
 * What each command does to the store, in terms of records and their fields, and exactly when and how
 * it fails (src/core/store.rs:116-183, 306-437; src/qso.rs:136-173).
 */
module Commands {
  import opened Wrappers
  import opened Qso
  import opened Operation
  import opened StoreModel
  import opened History

  /** The record holds what the draft says, under the given id. */
  predicate Holds(rec: QsoRecord, id: QsoId, draft: QsoDraft) {
    && rec.id == id
    && rec.contestInstanceId == draft.contestInstanceId
    && rec.callsignRaw == draft.callsignRaw
    && rec.callsignNorm == draft.callsignNorm
    && rec.band == draft.band
    && rec.mode == draft.mode
    && rec.freqHz == draft.freqHz
    && rec.tsMs == draft.tsMs
    && rec.radioId == draft.radioId
    && rec.operatorId == draft.operatorId
    && rec.exchange == draft.exchange
    && rec.flags == draft.flags
  }

  /** The records differ in the void flag at most, and it is as given. */
  predicate Flagged(old_: QsoRecord, new_: QsoRecord, isVoid: bool) {
    new_ == old_.(flags := QsoFlags(isVoid, old_.flags.dupeOverride))
  }

  /** `w` is `v` with the one record `id` rewritten. */
  ghost predicate OnlyRewritten(v: View, w: View, id: QsoId) {
    && w.order == v.order && w.nextQsoId == v.nextQsoId
    && w.records.Keys == v.records.Keys && id in v.records
    && forall other :: other in v.records && other != id ==> w.records[other] == v.records[other]
  }

  /** What an op that applies does, whoever issues it: a mutation, undo, redo or replay. */
  ghost predicate Effected(v: View, op: Op, w: View) {
    match op
    case OpInsert(qso) =>
      && qso.id !in v.records
      && w.records == v.records[qso.id := qso] && w.order == v.order + [qso.id]
      && w.nextQsoId == (if v.nextQsoId > qso.id then v.nextQsoId else qso.id + 1)
    case OpPatch(id, patch, _) => OnlyRewritten(v, w, id) && patch.Rewrites(v.records[id], w.records[id])
    case OpVoid(id, prevIsVoid) => OnlyRewritten(v, w, id) && Flagged(v.records[id], w.records[id], !prevIsVoid)
  }

  /** An op applies unless it inserts an id that is there or targets one that is not; then it has its effect. */
  lemma {:induction false} ApplyIsExact(v: View, op: Op)
    ensures match ApplyToView(v, op)
      case Success(w) => Effected(v, op, w)
      case Failure(e) =>
        if op.OpInsert? then op.qso.id in v.records && e == AlreadyExists(op.qso.id)
        else op.id !in v.records && e == MissingQso(op.id)
  {
  }

  /** Insert never fails: the draft is filed under the next id, at the end of the order. */
  lemma {:induction false} InsertFilesDraft(s: StoreState, draft: QsoDraft)
    requires Reachable(s)
    ensures var o, id := Exec(s, CmdInsert(draft)), s.view.nextQsoId;
      && o.result.Success? && o.result.value.opSeq == s.nextOpSeq
      && id !in s.view.records && id in o.state.view.records
      && Holds(o.state.view.records[id], id, draft)
      && o.state.view == View(s.view.records[id := o.state.view.records[id]], s.view.order + [id], id + 1)
      && o.result.value.op == OpInsert(o.state.view.records[id])
      && o.state.undo == s.undo + [OpVoid(id, false)] && o.state.redo == []
  {
    assert s.view.nextQsoId !in s.view.records;
  }

  /** Patch fails exactly on a missing id, and then takes a number; else it rewrites one record's set fields. */
  lemma {:induction false} PatchRewritesSetFields(s: StoreState, id: QsoId, patch: QsoPatch)
    ensures var o := Exec(s, CmdPatch(id, patch));
      if id !in s.view.records then
        o.result == Failure(MissingQso(id)) && o.state == s.(nextOpSeq := s.nextOpSeq + 1)
      else
        && o.result.Success? && o.result.value.opSeq == s.nextOpSeq
        && OnlyRewritten(s.view, o.state.view, id)
        && patch.Rewrites(s.view.records[id], o.state.view.records[id])
        && o.result.value.op.OpPatch? && o.result.value.op.id == id && o.result.value.op.patch == patch
        && o.result.value.op.prev.Rewrites(o.state.view.records[id], s.view.records[id])
        && o.state.undo == s.undo + [OpPatch(id, o.result.value.op.prev, patch)] && o.state.redo == []
  {
    if id in s.view.records { InverseUndoesPatch(patch, s.view.records[id]); }
  }

  /** Void fails exactly on a missing id, and then changes nothing; else it flips one record's void flag. */
  lemma {:induction false} VoidFlipsFlag(s: StoreState, id: QsoId)
    ensures var o := Exec(s, CmdVoid(id));
      if id !in s.view.records then
        o.result == Failure(MissingQso(id)) && o.state == s
      else
        var was := s.view.records[id].flags.isVoid;
        && o.result == Success(StoredOp(s.nextOpSeq, OpVoid(id, was)))
        && OnlyRewritten(s.view, o.state.view, id)
        && Flagged(s.view.records[id], o.state.view.records[id], !was)
        && o.state.undo == s.undo + [OpVoid(id, !was)] && o.state.redo == []
  {
  }

  /** Undo fails exactly on an empty stack, and then changes nothing; else the top entry takes effect. */
  lemma {:induction false} UndoAppliesTop(s: StoreState)
    requires StacksFiled(s)
    ensures var o := Exec(s, CmdUndo);
      if s.undo == [] then
        o == Outcome(s, Failure(NothingToUndo))
      else
        var n := |s.undo| - 1;
        && o.result.Success? && o.result.value.opSeq == s.nextOpSeq
        && Effected(s.view, s.undo[n], o.state.view)
        && o.state.undo == s.undo[..n] && |o.state.redo| == |s.redo| + 1 && o.state.redo[..|s.redo|] == s.redo
  {
    if s.undo != [] {
      assert s.undo[|s.undo| - 1] in s.undo;
      ApplyIsExact(s.view, s.undo[|s.undo| - 1]);
    }
  }

  /** Redo likewise. */
  lemma {:induction false} RedoAppliesTop(s: StoreState)
    requires StacksFiled(s)
    ensures var o := Exec(s, CmdRedo);
      if s.redo == [] then
        o == Outcome(s, Failure(NothingToRedo))
      else
        var n := |s.redo| - 1;
        && o.result.Success? && o.result.value.opSeq == s.nextOpSeq
        && Effected(s.view, s.redo[n], o.state.view)
        && o.state.redo == s.redo[..n] && |o.state.undo| == |s.undo| + 1 && o.state.undo[..|s.undo|] == s.undo
  {
    if s.redo != [] {
      assert s.redo[|s.redo| - 1] in s.redo;
      ApplyIsExact(s.view, s.redo[|s.redo| - 1]);
    }
  }

  /**
   * Replaying an op has its effect, raises the next number above it, and clears both stacks; or it
   * fails and changes nothing.
   */
  lemma {:induction false} ReplayIsExact(s: StoreState, stored: StoredOp)
    ensures var o := ReplayOp(s, stored);
      match o.result {
        case Success(_) =>
          && Effected(s.view, stored.op, o.state.view) && o.state.undo == o.state.redo == []
          && o.state.pending == s.pending
          && o.state.nextOpSeq == (if s.nextOpSeq > stored.opSeq then s.nextOpSeq else stored.opSeq + 1)
        case Failure(e) =>
          && o.state == s
          && (if stored.op.OpInsert? then stored.op.qso.id in s.view.records && e == AlreadyExists(stored.op.qso.id)
              else stored.op.id !in s.view.records && e == MissingQso(stored.op.id))
      }
  {
    ApplyIsExact(s.view, stored.op);
  }

  /** In every run from a fresh or loaded store a command fails exactly for these reasons. */
  lemma {:induction false} RunFailsExactly(start: StoreState, cmds: seq<Command>, cmd: Command)
    requires Reachable(start) && start.undo == start.redo == []
    ensures var s := Run(start, cmds);
      var result := Exec(s, cmd).result;
      match cmd {
        case CmdInsert(_) => result.Success?
        case CmdPatch(id, _) => if id in s.view.records then result.Success? else result == Failure(MissingQso(id))
        case CmdVoid(id) => if id in s.view.records then result.Success? else result == Failure(MissingQso(id))
        case CmdUndo => if s.undo != [] then result.Success? else result == Failure(NothingToUndo)
        case CmdRedo => if s.redo != [] then result.Success? else result == Failure(NothingToRedo)
      }
  {
    hide Exec, Run, Reachable, StacksFiled;
    var s := Run(start, cmds);
    RunKeepsReachable(start, cmds);
    RunKeepsStacksFiled(start, cmds) by { EmptyStacksAreFiled(start); }
    match cmd {
      case CmdInsert(draft) => InsertFilesDraft(s, draft);
      case CmdPatch(id, patch) => PatchRewritesSetFields(s, id, patch);
      case CmdVoid(id) => VoidFlipsFlag(s, id);
      case CmdUndo => UndoAppliesTop(s);
      case CmdRedo => RedoAppliesTop(s);
    }
  }

  lemma {:induction false} EmptyStacksAreFiled(s: StoreState)
    requires s.undo == s.redo == []
    ensures StacksFiled(s)
  {
  }
}

/**
 * What a public mutation does to the view, in terms of the single op it emits, and the
 * invariants every reachable store state satisfies (src/core/store.rs:116-205).
 */
module History {
  import opened Wrappers
  import opened Qso
  import opened Operation
  import opened StoreModel

  /** Runs commands one after the other, whether or not they succeed. */
  function Run(s: StoreState, cmds: seq<Command>): StoreState {
    if cmds == [] then s else Exec(Run(s, cmds[..|cmds| - 1]), cmds[|cmds| - 1]).state
  }

  /** The ops the successful commands of a run emit, in order. */
  function Emitted(s: StoreState, cmds: seq<Command>): seq<StoredOp> {
    if cmds == [] then [] else
    var n := |cmds| - 1;
    var o := Exec(Run(s, cmds[..n]), cmds[n]);
    Emitted(s, cmds[..n]) + (if o.result.Success? then [o.result.value] else [])
  }

  /** The view after a list of ops, when each can be applied in turn. */
  function Fold(v: View, ops: seq<StoredOp>): Result<View, StoreError> {
    if ops == [] then Success(v) else
    var n := |ops| - 1;
    match Fold(v, ops[..n])
    case Failure(e) => Failure(e)
    case Success(w) => ApplyToView(w, ops[n].op)
  }

  ghost predicate Increasing(ops: seq<StoredOp>) {
    forall i, j :: 0 <= i < j < |ops| ==> ops[i].opSeq < ops[j].opSeq
  }

  ghost predicate Reachable(s: StoreState) {
    WellFormed(s.view) && FreshIds(s.view)
  }

  lemma {:induction false} ApplyKeepsWellFormed(v: View, op: Op)
    requires WellFormed(v) && Applicable(v, op)
    ensures WellFormed(Applied(v, op))
    ensures FreshIds(v) ==> FreshIds(Applied(v, op))
  {
    var w := Applied(v, op);
    if op.OpInsert? {
      forall x ensures x in w.order <==> x in w.records {
        assert x in v.order <==> x in v.records;
      }
    } else {
      assert w.order == v.order && w.records.Keys == v.records.Keys;
      assert forall x :: x in w.order <==> x in v.records;
    }
  }

  /**
   * A mutation that succeeds is exactly one application of the op it emits, numbered with the
   * next sequence number; one that fails leaves the view alone.
   */
  lemma {:induction false} ExecIsOneOp(s: StoreState, cmd: Command)
    requires Reachable(s)
    ensures var o := Exec(s, cmd);
      match o.result {
        case Success(stored) =>
          && ApplyToView(s.view, stored.op) == Success(o.state.view)
          && stored.opSeq == s.nextOpSeq
          && o.state.nextOpSeq == s.nextOpSeq + 1
          && o.state.pending == s.pending + [stored]
        case Failure(_) =>
          && o.state.view == s.view
          && o.state.pending == s.pending
          && s.nextOpSeq <= o.state.nextOpSeq <= s.nextOpSeq + 1
      }
  {
    if cmd.CmdInsert? {
      assert s.view.nextQsoId !in s.view.records;
    }
  }

  lemma {:induction false} ExecKeepsReachable(s: StoreState, cmd: Command)
    requires Reachable(s)
    ensures Reachable(Exec(s, cmd).state)
  {
    ExecIsOneOp(s, cmd);
    var o := Exec(s, cmd);
    if o.result.Success? { ApplyKeepsWellFormed(s.view, o.result.value.op); }
  }

  lemma {:induction false} RunKeepsReachable(s: StoreState, cmds: seq<Command>)
    requires Reachable(s)
    ensures Reachable(Run(s, cmds))
  {
    if cmds != [] {
      RunKeepsReachable(s, cmds[..|cmds| - 1]);
      ExecKeepsReachable(Run(s, cmds[..|cmds| - 1]), cmds[|cmds| - 1]);
    }
  }

  /** Folding the emitted ops reproduces the view. */
  lemma {:induction false} RunIsFold(s: StoreState, cmds: seq<Command>)
    requires Reachable(s)
    ensures Fold(s.view, Emitted(s, cmds)) == Success(Run(s, cmds).view)
  {
    hide Exec, ApplyToView, WellFormed, FreshIds;
    if cmds != [] {
      var n := |cmds| - 1;
      RunIsFold(s, cmds[..n]);
      RunKeepsReachable(s, cmds[..n]);
      ExecIsOneOp(Run(s, cmds[..n]), cmds[n]);
      var before, o := Emitted(s, cmds[..n]), Exec(Run(s, cmds[..n]), cmds[n]);
      if o.result.Success? {
        assert (before + [o.result.value])[..|before|] == before;
      } else {
        assert before + [] == before;
      }
    }
  }

  ghost predicate NumbersWithin(ops: seq<StoredOp>, low: OpSeq, high: OpSeq) {
    && low <= high
    && Increasing(ops)
    && forall i :: 0 <= i < |ops| ==> low <= ops[i].opSeq < high
  }

  /** The numbers a run hands out increase strictly and stay within the range it took. */
  lemma {:induction false} RunNumbersIncrease(s: StoreState, cmds: seq<Command>)
    requires Reachable(s)
    ensures NumbersWithin(Emitted(s, cmds), s.nextOpSeq, Run(s, cmds).nextOpSeq)
  {
    hide Exec, ApplyToView, WellFormed, FreshIds;
    if cmds != [] {
      var n := |cmds| - 1;
      RunNumbersIncrease(s, cmds[..n]);
      RunKeepsReachable(s, cmds[..n]);
      ExecIsOneOp(Run(s, cmds[..n]), cmds[n]);
    }
  }

  lemma {:induction false} FoldAppend(v: View, a: seq<StoredOp>, b: seq<StoredOp>)
    ensures Fold(v, a + b) == match Fold(v, a) { case Success(w) => Fold(w, b) case Failure(e) => Failure(e) }
  {
    if b == [] {
      assert a + b == a;
    } else {
      var n := |b| - 1;
      FoldAppend(v, a, b[..n]);
      assert (a + b)[..|a + b| - 1] == a + b[..n];
    }
  }

  lemma {:induction false} FoldKeepsWellFormed(v: View, ops: seq<StoredOp>)
    requires WellFormed(v) && Fold(v, ops).Success?
    ensures WellFormed(Fold(v, ops).value)
    ensures FreshIds(v) ==> FreshIds(Fold(v, ops).value)
  {
    if ops != [] {
      var n := |ops| - 1;
      FoldKeepsWellFormed(v, ops[..n]);
      ApplyKeepsWellFormed(Fold(v, ops[..n]).value, ops[n].op);
    }
  }

  // ---- what the stacks hold ---------------------------------------------

  /** Compensating ops never insert, and their targets are filed: undo and redo fail only on empty stacks. */
  ghost predicate StacksFiled(s: StoreState) {
    forall op :: op in s.undo || op in s.redo ==> !op.OpInsert? && op.Target() in s.view.records
  }

  lemma {:induction false} ExecKeepsStacksFiled(s: StoreState, cmd: Command)
    requires Reachable(s) && StacksFiled(s)
    ensures StacksFiled(Exec(s, cmd).state)
    ensures Exec(s, cmd).result.Failure? ==>
      Exec(s, cmd).state.nextOpSeq == s.nextOpSeq + (if cmd.CmdPatch? then 1 else 0)
  {
    hide WellFormed, Undo, Redo;
    match cmd {
      case CmdInsert(_) => assert s.view.nextQsoId !in s.view.records;
      case CmdUndo => UndoKeepsStacksFiled(s);
      case CmdRedo => RedoKeepsStacksFiled(s);
      case _ =>
    }
  }

  lemma {:induction false} UndoKeepsStacksFiled(s: StoreState)
    requires StacksFiled(s)
    ensures StacksFiled(Undo(s).state)
    ensures Undo(s).result.Failure? ==> Undo(s).state == s
  {
    assert s.undo != [] ==> s.undo[|s.undo| - 1] in s.undo;
  }

  lemma {:induction false} RedoKeepsStacksFiled(s: StoreState)
    requires StacksFiled(s)
    ensures StacksFiled(Redo(s).state)
    ensures Redo(s).result.Failure? ==> Redo(s).state == s
  {
    assert s.redo != [] ==> s.redo[|s.redo| - 1] in s.redo;
  }

  lemma {:induction false} RunKeepsStacksFiled(s: StoreState, cmds: seq<Command>)
    requires Reachable(s) && StacksFiled(s)
    ensures StacksFiled(Run(s, cmds))
  {
    hide Exec, WellFormed, FreshIds, StacksFiled;
    if cmds != [] {
      var n := |cmds| - 1;
      RunKeepsStacksFiled(s, cmds[..n]);
      RunKeepsReachable(s, cmds[..n]);
      ExecKeepsStacksFiled(Run(s, cmds[..n]), cmds[n]);
    }
  }

  // ---- canonical order --------------------------------------------------

  /** Ids have been handed out one by one: `order` is 1, 2, 3, ... and the next id follows. */
  ghost predicate Counting(v: View) {
    v.nextQsoId == |v.order| + 1 && forall i :: 0 <= i < |v.order| ==> v.order[i] == i + 1
  }

  /** No command reorders or removes: the order grows at the end, by the next id, and only on insert. */
  lemma {:induction false} ExecAppendsToOrder(s: StoreState, cmd: Command)
    requires Reachable(s) && (forall op :: op in s.undo || op in s.redo ==> !op.OpInsert?)
    ensures var o := Exec(s, cmd);
      && o.state.view.order == s.view.order +
           (if cmd.CmdInsert? && o.result.Success? then [s.view.nextQsoId] else [])
      && o.state.view.nextQsoId == s.view.nextQsoId + (if cmd.CmdInsert? then 1 else 0)
      && (cmd.CmdInsert? ==> o.result.Success?)
      && (forall op :: op in o.state.undo || op in o.state.redo ==> !op.OpInsert?)
  {
    assert s.view.order + [] == s.view.order;
    assert s.undo != [] ==> s.undo[|s.undo| - 1] in s.undo;
    assert s.redo != [] ==> s.redo[|s.redo| - 1] in s.redo;
  }

  /** Insertion order is canonical over every run from an empty store, undo and redo included. */
  lemma {:induction false} OrderIsInsertionOrder(cmds: seq<Command>)
    ensures Counting(Run(EMPTY_STORE, cmds).view)
    ensures forall op :: op in Run(EMPTY_STORE, cmds).undo || op in Run(EMPTY_STORE, cmds).redo ==> !op.OpInsert?
  {
    hide Exec;
    if cmds != [] {
      var n := |cmds| - 1;
      OrderIsInsertionOrder(cmds[..n]);
      RunKeepsReachable(EMPTY_STORE, cmds[..n]);
      ExecAppendsToOrder(Run(EMPTY_STORE, cmds[..n]), cmds[n]);
    }
  }

  /** `void` toggles: it flips one flag and nothing else, so doing it twice restores the view. */
  lemma {:induction false} VoidToggles(s: StoreState, id: QsoId)
    requires id in s.view.records
    ensures var once := Void(s, id);
      && once.result.Success? && id in once.state.view.records
      && once.state.view.records[id].flags.isVoid != s.view.records[id].flags.isVoid
      && Void(once.state, id).result.Success? && Void(once.state, id).state.view == s.view
  {
    assert Void(Void(s, id).state, id).state.view.records == s.view.records;
  }
}

/**
 * Undo and redo by compensating ops (src/core/store.rs:168-183, 306-437): when they are exact,
 * why the stacks stay exact over whole runs, and what a deep undo leaves behind.
 */
module UndoRedo {
  import opened Wrappers
  import opened Qso
  import opened Operation
  import opened StoreModel
  import opened History

  /** A stack entry remembers the truth: applying it to `v` and then its inverse restores `v`. */
  predicate Exact(v: View, op: Op) {
    match op
    case OpInsert(_) => false
    case OpPatch(id, patch, prev) => id in v.records && patch.CaptureInverseFor(v.records[id]) == prev
    case OpVoid(id, prevIsVoid) => id in v.records && v.records[id].flags.isVoid == prevIsVoid
  }

  /** Every entry is exact at the view where it becomes the top of the stack. */
  predicate CoherentStack(v: View, stack: seq<Op>)
    decreases |stack|
  {
    if stack == [] then true else
    var n := |stack| - 1;
    Exact(v, stack[n]) && CoherentStack(Applied(v, stack[n]), stack[..n])
  }

  predicate Coherent(s: StoreState) {
    CoherentStack(s.view, s.undo) && CoherentStack(s.view, s.redo)
  }

  /** Inserting an already void draft is the one mutation whose compensating op is wrong. */
  predicate NonVoidDraft(cmd: Command) {
    cmd.CmdInsert? ==> !cmd.draft.flags.isVoid
  }

  lemma {:induction false} ExactRoundTrip(v: View, op: Op)
    requires Exact(v, op)
    ensures Recorded(v, op) == op
    ensures Exact(Applied(v, op), InverseOf(v, op))
    ensures Applied(Applied(v, op), InverseOf(v, op)) == v
    ensures InverseOf(Applied(v, op), InverseOf(v, op)) == op
    ensures Applied(v, op).order == v.order && Applied(v, op).records.Keys == v.records.Keys
  {
    if op.OpPatch? { InverseUndoesPatch(op.patch, v.records[op.id]); }
    var w := Applied(Applied(v, op), InverseOf(v, op));
    assert w.records == v.records;
  }

  /** `w` has all records of `v`, unchanged, and perhaps more. */
  ghost predicate Extends(v: View, w: View) {
    forall id :: id in v.records ==> id in w.records && w.records[id] == v.records[id]
  }

  lemma {:induction false} CoherentUnderExtension(v: View, w: View, stack: seq<Op>)
    requires Extends(v, w) && CoherentStack(v, stack)
    ensures CoherentStack(w, stack)
    decreases |stack|
  {
    if stack != [] {
      var n := |stack| - 1;
      CoherentUnderExtension(Applied(v, stack[n]), Applied(w, stack[n]), stack[..n]);
    }
  }

  lemma {:induction false} PushIsCoherent(v: View, stack: seq<Op>, op: Op)
    requires Exact(v, op) && CoherentStack(Applied(v, op), stack)
    ensures CoherentStack(v, stack + [op])
  {
    assert (stack + [op])[..|stack|] == stack;
  }

  lemma {:induction false} InsertKeepsCoherent(s: StoreState, draft: QsoDraft)
    requires Reachable(s) && Coherent(s) && !draft.flags.isVoid
    ensures Coherent(Insert(s, draft).state)
  {
    var v, w := s.view, Insert(s, draft).state.view;
    var inverse := OpVoid(v.nextQsoId, false);
    assert v.nextQsoId !in v.records;
    CoherentUnderExtension(v, Applied(w, inverse), s.undo);
    PushIsCoherent(w, s.undo, inverse);
  }

  /** The inductive step over runs: every mutation with a non-void draft keeps both stacks exact. */
  lemma {:induction false} ExecKeepsCoherent(s: StoreState, cmd: Command)
    requires Reachable(s) && Coherent(s) && NonVoidDraft(cmd)
    ensures Coherent(Exec(s, cmd).state)
  {
    hide Insert, Patch, Void, Undo, Redo, CoherentStack, WellFormed, FreshIds;
    match cmd {
      case CmdInsert(draft) => InsertKeepsCoherent(s, draft);
      case CmdPatch(id, patch) => PatchKeepsCoherent(s, id, patch);
      case CmdVoid(id) => VoidKeepsCoherent(s, id);
      case CmdUndo => UndoKeepsCoherent(s);
      case CmdRedo => RedoKeepsCoherent(s);
    }
  }

  lemma {:induction false} PatchKeepsCoherent(s: StoreState, id: QsoId, patch: QsoPatch)
    requires Coherent(s)
    ensures Coherent(Patch(s, id, patch).state)
  {
    if id in s.view.records {
      var w := Patch(s, id, patch).state.view;
      InverseUndoesPatch(patch, s.view.records[id]);
      var inverse := OpPatch(id, patch.CaptureInverseFor(s.view.records[id]), patch);
      assert Applied(w, inverse).records == s.view.records;
      PushIsCoherent(w, s.undo, inverse);
    }
  }

  lemma {:induction false} VoidKeepsCoherent(s: StoreState, id: QsoId)
    requires Coherent(s)
    ensures Coherent(Void(s, id).state)
  {
    if id in s.view.records {
      var w := Void(s, id).state.view;
      var inverse := OpVoid(id, !s.view.records[id].flags.isVoid);
      assert Applied(w, inverse).records == s.view.records;
      PushIsCoherent(w, s.undo, inverse);
    }
  }

  lemma {:induction false} UndoKeepsCoherent(s: StoreState)
    requires Coherent(s)
    ensures Coherent(Undo(s).state)
  {
    if s.undo != [] {
      ExactRoundTrip(s.view, s.undo[|s.undo| - 1]);
      PushIsCoherent(Undo(s).state.view, s.redo, InverseOf(s.view, s.undo[|s.undo| - 1]));
    }
  }

  lemma {:induction false} RedoKeepsCoherent(s: StoreState)
    requires Coherent(s)
    ensures Coherent(Redo(s).state)
  {
    if s.redo != [] {
      ExactRoundTrip(s.view, s.redo[|s.redo| - 1]);
      PushIsCoherent(Redo(s).state.view, s.undo, InverseOf(s.view, s.redo[|s.redo| - 1]));
    }
  }

  lemma {:induction false} RunKeepsCoherent(s: StoreState, cmds: seq<Command>)
    requires Reachable(s) && Coherent(s)
    requires forall i :: 0 <= i < |cmds| ==> NonVoidDraft(cmds[i])
    ensures Reachable(Run(s, cmds)) && Coherent(Run(s, cmds))
  {
    if cmds != [] {
      var n := |cmds| - 1;
      RunKeepsCoherent(s, cmds[..n]);
      ExecKeepsReachable(Run(s, cmds[..n]), cmds[n]);
      ExecKeepsCoherent(Run(s, cmds[..n]), cmds[n]);
    }
  }

  // ---- k undos, then k redos --------------------------------------------

  function UndoMany(s: StoreState, k: nat): Result<StoreState, StoreError>
    decreases k
  {
    if k == 0 then Success(s) else
    var o := Undo(s);
    if o.result.Failure? then Failure(o.result.error) else UndoMany(o.state, k - 1)
  }

  function RedoMany(s: StoreState, k: nat): Result<StoreState, StoreError>
    decreases k
  {
    if k == 0 then Success(s) else
    match RedoMany(s, k - 1)
    case Failure(e) => Failure(e)
    case Success(t) =>
      var o := Redo(t);
      if o.result.Failure? then Failure(o.result.error) else Success(o.state)
  }

  /** Equal up to the journal counters, which undo and redo advance by design. */
  predicate SameContent(s: StoreState, t: StoreState) {
    s.view == t.view && s.undo == t.undo && s.redo == t.redo
  }

  lemma {:induction false} RedoReversesUndo(s: StoreState, t: StoreState)
    requires Coherent(s) && s.undo != [] && SameContent(t, Undo(s).state)
    ensures Undo(s).result.Success? && Redo(t).result.Success?
    ensures SameContent(Redo(t).state, s)
    ensures |Undo(s).state.undo| == |s.undo| - 1 && |Undo(s).state.redo| == |s.redo| + 1
  {
    var n := |s.undo| - 1;
    ExactRoundTrip(s.view, s.undo[n]);
    assert s.undo == s.undo[..n] + [s.undo[n]];
    assert (s.redo + [InverseOf(s.view, s.undo[n])])[..|s.redo|] == s.redo;
  }

  /** From a coherent state any depth of undo can be walked back, restoring view and both stacks. */
  lemma {:induction false} UndoRedoRoundTrip(s: StoreState, k: nat)
    requires Reachable(s) && Coherent(s) && k <= |s.undo|
    ensures UndoMany(s, k).Success? && RedoMany(UndoMany(s, k).value, k).Success?
    ensures SameContent(RedoMany(UndoMany(s, k).value, k).value, s)
    decreases k
  {
    hide Undo, Redo, CoherentStack, WellFormed, FreshIds;
    if k > 0 {
      var s1 := Undo(s).state;
      RedoReversesUndo(s, s1);
      ExecKeepsCoherent(s, CmdUndo);
      ExecKeepsReachable(s, CmdUndo);
      UndoRedoRoundTrip(s1, k - 1);
      RedoReversesUndo(s, RedoMany(UndoMany(s1, k - 1).value, k - 1).value);
    }
  }

  /**
   * The same over whole runs, from a fresh store or one just loaded (both have empty stacks):
   * every depth of the undo stack round-trips.
   */
  lemma {:induction false} EveryRunRoundTrips(start: StoreState, cmds: seq<Command>, k: nat)
    requires Reachable(start) && start.undo == start.redo == []
    requires forall i :: 0 <= i < |cmds| ==> NonVoidDraft(cmds[i])
    requires k <= |Run(start, cmds).undo|
    ensures var s := Run(start, cmds);
      UndoMany(s, k).Success? && RedoMany(UndoMany(s, k).value, k).Success? &&
      SameContent(RedoMany(UndoMany(s, k).value, k).value, s)
  {
    RunKeepsCoherent(start, cmds);
    UndoRedoRoundTrip(Run(start, cmds), k);
  }

  /**
   * A draft that is already void breaks the promise: one undo and one redo restore the view
   * exactly when the draft was not void.
   */
  lemma {:induction false} InsertRoundTripsIffNotVoid(s: StoreState, draft: QsoDraft)
    requires Reachable(s)
    ensures var s1 := Insert(s, draft).state;
      var s2 := Undo(s1).state;
      var s3 := Redo(s2).state;
      (Undo(s1).result.Success? && Redo(s2).result.Success?) &&
      (s3.view == s1.view <==> !draft.flags.isVoid)
  {
    assert s.view.nextQsoId !in s.view.records;
  }

  // ---- what a deep undo means -------------------------------------------

  /** `w` is `v` plus records that are all void: what remains of inserts that were undone. */
  ghost predicate OnlyVoidedExtras(v: View, w: View) {
    Extends(v, w) && forall id :: id in w.records && id !in v.records ==> w.records[id].flags.isVoid
  }

  lemma {:induction false} UndoOnceIgnoresExtras(s: StoreState, t: StoreState)
    requires CoherentStack(s.view, s.undo) && s.undo != []
    requires s.undo == t.undo && OnlyVoidedExtras(s.view, t.view)
    ensures Undo(s).result.Success? && Undo(t).result.Success?
    ensures var s1, t1 := Undo(s).state, Undo(t).state;
      s1.undo == t1.undo == s.undo[..|s.undo| - 1] && CoherentStack(s1.view, s1.undo) &&
      OnlyVoidedExtras(s1.view, t1.view) && s1.view.records.Keys == s.view.records.Keys
  {
    ExactRoundTrip(s.view, s.undo[|s.undo| - 1]);
  }

  /** Undo never looks at records its stack does not name. */
  lemma {:induction false} UndoManyIgnoresExtras(s: StoreState, t: StoreState, k: nat)
    requires CoherentStack(s.view, s.undo) && k <= |s.undo|
    requires s.undo == t.undo && OnlyVoidedExtras(s.view, t.view)
    ensures UndoMany(s, k).Success? && UndoMany(t, k).Success?
    ensures OnlyVoidedExtras(UndoMany(s, k).value.view, UndoMany(t, k).value.view)
    ensures UndoMany(s, k).value.view.records.Keys == s.view.records.Keys
    decreases k
  {
    hide Undo, CoherentStack, OnlyVoidedExtras;
    if k > 0 {
      UndoOnceIgnoresExtras(s, t);
      UndoManyIgnoresExtras(Undo(s).state, Undo(t).state, k - 1);
    }
  }

  predicate AllSucceed(s: StoreState, cmds: seq<Command>) {
    cmds == [] ||
    (AllSucceed(s, cmds[..|cmds| - 1]) && Exec(Run(s, cmds[..|cmds| - 1]), cmds[|cmds| - 1]).result.Success?)
  }

  lemma {:induction false} UndoInsert(s: StoreState, draft: QsoDraft)
    requires Reachable(s)
    ensures var t := Undo(Insert(s, draft).state);
      t.result.Success? && t.state.undo == s.undo && OnlyVoidedExtras(s.view, t.state.view)
  {
    assert s.view.nextQsoId !in s.view.records;
    var s1 := Insert(s, draft).state;
    assert s1.undo[..|s1.undo| - 1] == s.undo;
  }

  lemma {:induction false} UndoPatch(s: StoreState, id: QsoId, patch: QsoPatch)
    requires id in s.view.records
    ensures var t := Undo(Patch(s, id, patch).state);
      t.result.Success? && t.state.undo == s.undo && t.state.view == s.view
  {
    var s1 := Patch(s, id, patch).state;
    assert s1.undo[..|s1.undo| - 1] == s.undo;
    InverseUndoesPatch(patch, s.view.records[id]);
    assert Undo(s1).state.view.records == s.view.records;
  }

  lemma {:induction false} UndoVoid(s: StoreState, id: QsoId)
    requires id in s.view.records
    ensures var t := Undo(Void(s, id).state);
      t.result.Success? && t.state.undo == s.undo && t.state.view == s.view
  {
    var s1 := Void(s, id).state;
    assert s1.undo[..|s1.undo| - 1] == s.undo;
    assert Undo(s1).state.view.records == s.view.records;
  }

  /** One mutation, undone: records from before are as before, and a new record is void. */
  lemma {:induction false} UndoOneMutation(s: StoreState, cmd: Command)
    requires Reachable(s) && !cmd.CmdUndo? && !cmd.CmdRedo?
    requires Exec(s, cmd).result.Success?
    ensures var t := Undo(Exec(s, cmd).state);
      t.result.Success? && t.state.undo == s.undo && OnlyVoidedExtras(s.view, t.state.view)
  {
    hide Undo, Insert;
    match cmd {
      case CmdInsert(draft) => UndoInsert(s, draft);
      case CmdPatch(id, patch) => UndoPatch(s, id, patch);
      case CmdVoid(id) => UndoVoid(s, id);
    }
  }

  /**
   * Undoing as many steps as mutations were made gives back every earlier record exactly as it
   * was, and leaves each record inserted since in place but void.
   */
  lemma {:induction false} UndoingARunVoidsItsInserts(s: StoreState, cmds: seq<Command>)
    requires Reachable(s) && Coherent(s)
    requires forall i :: 0 <= i < |cmds| ==> NonVoidDraft(cmds[i]) && !cmds[i].CmdUndo? && !cmds[i].CmdRedo?
    requires AllSucceed(s, cmds)
    ensures |Run(s, cmds).undo| == |s.undo| + |cmds|
    ensures UndoMany(Run(s, cmds), |cmds|).Success?
    ensures OnlyVoidedExtras(s.view, UndoMany(Run(s, cmds), |cmds|).value.view)
  {
    hide Exec, WellFormed, FreshIds, CoherentStack;
    if cmds != [] {
      var n := |cmds| - 1;
      var s1 := Run(s, cmds[..n]);
      RunKeepsCoherent(s, cmds[..n]);
      UndoingARunVoidsItsInserts(s, cmds[..n]);
      UndoOneMutation(s1, cmds[n]);
      var t := Undo(Exec(s1, cmds[n]).state).state;
      UndoManyIgnoresExtras(s1, t, n);
      var a, b := UndoMany(s1, n).value.view, UndoMany(t, n).value.view;
      forall id | id in b.records && id !in s.view.records ensures b.records[id].flags.isVoid {
        if id in a.records { assert a.records[id].flags.isVoid; }
      }
    }
  }
}

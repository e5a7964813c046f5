/**
 * Exactly when k undos and k redos restore the view, void drafts and all (src/core/store.rs:168-183,
 * 341-344): nothing but void flags can come out wrong, and those only where the topmost entry that
 * touches the flag remembers it wrongly.
 */
module RoundTrips {
  import opened Wrappers
  import opened Qso
  import opened Operation
  import opened StoreModel
  import opened History
  import opened UndoRedo
  import opened Rejection

  /** Applying the op writes the void flag of `id`. */
  predicate Flags(op: Op, id: QsoId) {
    match op
    case OpInsert(_) => false
    case OpPatch(target, patch, _) => target == id && patch.isVoid.Some?
    case OpVoid(target, _) => target == id
  }

  /** Among the top `k` entries, the topmost that writes the flag of `id` is not a stale void. */
  predicate TopmostTrue(v: View, stack: seq<Op>, k: nat, id: QsoId)
    requires k <= |stack|
    decreases k
  {
    if k == 0 then true else
    var n := |stack| - 1;
    if Flags(stack[n], id) then !Stale(v, stack[n]) else TopmostTrue(v, stack[..n], k - 1, id)
  }

  ghost predicate FlagsTrue(v: View, stack: seq<Op>, k: nat)
    requires k <= |stack|
  {
    forall id :: id in v.records ==> TopmostTrue(v, stack, k, id)
  }

  /** Every entry is a patch or void of a filed record, so it applies wherever that record is filed. */
  ghost predicate Filed(v: View, stack: seq<Op>) {
    forall op :: op in stack ==> !op.OpInsert? && op.Target() in v.records
  }

  /** The view after undoing the top `k` entries and redoing them. */
  function ThereAndBack(v: View, stack: seq<Op>, k: nat): View
    requires k <= |stack| && Filed(v, stack)
    ensures ThereAndBack(v, stack, k).records.Keys == v.records.Keys
    decreases k
  {
    if k == 0 then v else
    var n := |stack| - 1;
    assert stack[n] in stack;
    var down := Applied(v, stack[n]);
    assert down.records.Keys == v.records.Keys;
    Applied(ThereAndBack(down, stack[..n], k - 1), InverseOf(v, stack[n]))
  }

  /** Equal but for void flags. */
  ghost predicate SameButFlags(v: View, w: View) {
    && w.order == v.order && w.nextQsoId == v.nextQsoId && w.records.Keys == v.records.Keys
    && forall id :: id in v.records ==> w.records[id] == v.records[id].WithVoid(w.records[id].flags.isVoid)
  }

  /** One entry down and back up over a view that differs in flags only. */
  lemma {:induction false} EntryRoundTrip(v: View, op: Op, back: View)
    requires !op.OpInsert? && op.Target() in v.records && SameButFlags(Applied(v, op), back)
    ensures var w := Applied(back, InverseOf(v, op));
      && SameButFlags(v, w)
      && forall id :: id in v.records ==>
           if Flags(op, id) then w.records[id].flags.isVoid == v.records[id].flags.isVoid <==> !Stale(v, op)
           else Applied(v, op).records[id].flags.isVoid == v.records[id].flags.isVoid &&
                w.records[id].flags.isVoid == back.records[id].flags.isVoid
  {
    if op.OpPatch? {
      PatchRoundTrip(op.patch, v.records[op.id], back.records[op.id]);
    }
  }

  lemma {:induction false} PatchRoundTrip(patch: QsoPatch, rec: QsoRecord, back: QsoRecord)
    requires back == patch.Patched(rec).WithVoid(back.flags.isVoid)
    ensures var again := patch.CaptureInverseFor(rec).Patched(back);
      && again == rec.WithVoid(again.flags.isVoid)
      && again.flags.isVoid == if patch.isVoid.Some? then rec.flags.isVoid else back.flags.isVoid
  {
    InverseUndoesPatch(patch, rec);
  }

  lemma {:induction false} FlagsComeBackIff(v: View, stack: seq<Op>, k: nat)
    requires k <= |stack| && Filed(v, stack)
    ensures var w := ThereAndBack(v, stack, k);
      && SameButFlags(v, w)
      && forall id :: id in v.records ==>
           (w.records[id].flags.isVoid == v.records[id].flags.isVoid <==> TopmostTrue(v, stack, k, id))
    decreases k
  {
    hide Applied, InverseOf, Stale, Flags, ThereAndBack, TopmostTrue, SameButFlags, ApplyToView, Filed;
    if k == 0 {
      NothingToWalk(v, stack);
    } else {
      var n := |stack| - 1;
      Unfolded(v, stack, k);
      var down := Applied(v, stack[n]);
      var back := ThereAndBack(down, stack[..n], k - 1);
      FlagsComeBackIff(down, stack[..n], k - 1);
      EntryRoundTrip(v, stack[n], back);
      var w := Applied(back, InverseOf(v, stack[n]));
      SameKeys(v, w);
      SameKeys(down, back);
      forall id | id in v.records
        ensures id in w.records &&
          (w.records[id].flags.isVoid == v.records[id].flags.isVoid <==> TopmostTrue(v, stack, k, id))
      {
        FlagComesBackIff(v, stack, k, down, back, w, id);
      }
    }
  }

  lemma {:induction false} SameKeys(v: View, w: View)
    requires SameButFlags(v, w)
    ensures v.records.Keys == w.records.Keys
  {
  }

  lemma {:induction false} NothingToWalk(v: View, stack: seq<Op>)
    requires Filed(v, stack)
    ensures ThereAndBack(v, stack, 0) == v && SameButFlags(v, v)
    ensures forall id :: id in v.records ==> TopmostTrue(v, stack, 0, id)
  {
  }

  lemma {:induction false} FlagComesBackIff(v: View, stack: seq<Op>, k: nat, down: View, back: View, w: View, id: QsoId)
    requires 0 < k <= |stack| && id in v.records && SameButFlags(v, w)
    requires v.records.Keys == down.records.Keys == back.records.Keys
    requires back.records[id].flags.isVoid == down.records[id].flags.isVoid <==>
      TopmostTrue(down, stack[..|stack| - 1], k - 1, id)
    requires
      if Flags(stack[|stack| - 1], id) then
        w.records[id].flags.isVoid == v.records[id].flags.isVoid <==> !Stale(v, stack[|stack| - 1])
      else
        down.records[id].flags.isVoid == v.records[id].flags.isVoid &&
        w.records[id].flags.isVoid == back.records[id].flags.isVoid
    ensures id in w.records
    ensures w.records[id].flags.isVoid == v.records[id].flags.isVoid <==> TopmostTrue(v, stack, k, id)
  {
    hide Stale, Flags;
    if !Flags(stack[|stack| - 1], id) {
      SameFlagSameTruth(v, down, stack[..|stack| - 1], k - 1, id);
    }
  }

  lemma {:induction false} StepDown(v: View, stack: seq<Op>)
    requires stack != [] && Filed(v, stack)
    ensures var n := |stack| - 1;
      && stack[n] in stack && Applied(v, stack[n]).records.Keys == v.records.Keys
      && Filed(Applied(v, stack[n]), stack[..n])
      && Filed(v, stack[..n])
  {
    assert stack[|stack| - 1] in stack;
  }

  lemma {:induction false} SameFlagSameTruth(v: View, w: View, stack: seq<Op>, k: nat, id: QsoId)
    requires k <= |stack| && id in v.records && id in w.records
    requires v.records[id].flags.isVoid == w.records[id].flags.isVoid
    ensures TopmostTrue(v, stack, k, id) <==> TopmostTrue(w, stack, k, id)
    decreases k
  {
    if k > 0 { SameFlagSameTruth(v, w, stack[..|stack| - 1], k - 1, id); }
  }

  lemma {:induction false} ViewComesBackIff(v: View, stack: seq<Op>, k: nat)
    requires k <= |stack| && Filed(v, stack)
    ensures ThereAndBack(v, stack, k) == v <==> FlagsTrue(v, stack, k)
  {
    hide ThereAndBack, TopmostTrue;
    FlagsComeBackIff(v, stack, k);
    var w := ThereAndBack(v, stack, k);
    if FlagsTrue(v, stack, k) { assert w.records == v.records; }
  }

  // ---- of the store ---------------------------------------------------------------------

  /** k undos and k redos of a store walk its undo stack down and back up. */
  lemma {:induction false} UndoRedoIsThereAndBack(s: StoreState, k: nat)
    requires k <= |s.undo| && Filed(s.view, s.undo)
    ensures UndoMany(s, k).Success? && RedoMany(UndoMany(s, k).value, k).Success?
    ensures var t := RedoMany(UndoMany(s, k).value, k).value;
      t.view == ThereAndBack(s.view, s.undo, k) && t.redo == s.redo
    decreases k
  {
    hide Undo, Redo, Applied, InverseOf, ThereAndBack, ApplyToView, Filed;
    if k == 0 {
      NothingToWalk(s.view, s.undo);
    } else {
      var n := |s.undo| - 1;
      StepDown(s.view, s.undo);
      UndoOne(s);
      var s1 := Undo(s).state;
      UndoRedoIsThereAndBack(s1, k - 1);
      var t := RedoMany(UndoMany(s1, k - 1).value, k - 1).value;
      Unfolded(s.view, s.undo, k);
      RedoOne(t, s.redo, InverseOf(s.view, s.undo[n]));
    }
  }

  lemma {:induction false} Unfolded(v: View, stack: seq<Op>, k: nat)
    requires 0 < k <= |stack| && Filed(v, stack)
    ensures var n := |stack| - 1;
      && !stack[n].OpInsert? && stack[n].Target() in v.records
      && Applicable(v, stack[n]) && Applied(v, stack[n]).records.Keys == v.records.Keys
      && Filed(Applied(v, stack[n]), stack[..n])
      && Applicable(ThereAndBack(Applied(v, stack[n]), stack[..n], k - 1), InverseOf(v, stack[n]))
      && ThereAndBack(v, stack, k)
         == Applied(ThereAndBack(Applied(v, stack[n]), stack[..n], k - 1), InverseOf(v, stack[n]))
  {
    StepDown(v, stack);
  }

  lemma {:induction false} UndoOne(s: StoreState)
    requires s.undo != [] && Filed(s.view, s.undo)
    ensures var n, u := |s.undo| - 1, Undo(s);
      && s.undo[n] in s.undo && Applicable(s.view, s.undo[n])
      && u.result.Success? && u.state.view == Applied(s.view, s.undo[n])
      && u.state.undo == s.undo[..n] && u.state.redo == s.redo + [InverseOf(s.view, s.undo[n])]
      && Filed(u.state.view, u.state.undo)
  {
    StepDown(s.view, s.undo);
  }

  lemma {:induction false} RedoOne(t: StoreState, below: seq<Op>, op: Op)
    requires t.redo == below + [op] && Applicable(t.view, op)
    ensures Redo(t).result.Success? && Redo(t).state.view == Applied(t.view, op) && Redo(t).state.redo == below
  {
    assert (below + [op])[..|below|] == below;
  }

  /**
   * From any state of any run, void drafts included, every depth of undo and redo succeeds, and it
   * restores the view if and only if no void flag is remembered wrongly by the topmost of the
   * undone entries that writes it.
   */
  lemma {:induction false} RoundTripsIffFlagsTrue(start: StoreState, cmds: seq<Command>, k: nat)
    requires Reachable(start) && start.undo == start.redo == [] && k <= |Run(start, cmds).undo|
    ensures var s := Run(start, cmds);
      && UndoMany(s, k).Success? && RedoMany(UndoMany(s, k).value, k).Success?
      && (RedoMany(UndoMany(s, k).value, k).value.view == s.view <==> FlagsTrue(s.view, s.undo, k))
  {
    hide ThereAndBack, FlagsTrue;
    var s := Run(start, cmds);
    RunKeepsStacksFiled(start, cmds);
    UndoRedoIsThereAndBack(s, k);
    ViewComesBackIff(s.view, s.undo, k);
  }

  /** One step deep: it is the top entry that decides. */
  lemma {:induction false} OneStepRoundTripsIff(start: StoreState, cmds: seq<Command>)
    requires Reachable(start) && start.undo == start.redo == [] && Run(start, cmds).undo != []
    ensures var s := Run(start, cmds);
      && Undo(s).result.Success? && Redo(Undo(s).state).result.Success?
      && (Redo(Undo(s).state).state.view == s.view <==> !TopStale(s, CmdUndo))
  {
    hide Run, Undo, Redo, ThereAndBack;
    var s := Run(start, cmds);
    RoundTripsIffFlagsTrue(start, cmds, 1);
    assert UndoMany(s, 1) == UndoMany(Undo(s).state, 0);
    assert RedoMany(Undo(s).state, 1).value == Redo(RedoMany(Undo(s).state, 0).value).state;
    RunKeepsStacksFiled(start, cmds);
    var top := s.undo[|s.undo| - 1];
    assert top in s.undo;
    assert TopmostTrue(s.view, s.undo, 1, top.Target()) <==> !Flags(top, top.Target()) || !Stale(s.view, top);
    assert forall id :: id in s.view.records && id != top.Target() ==> TopmostTrue(s.view, s.undo, 1, id);
  }
}

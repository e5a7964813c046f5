/**
 * The exact conditions of loading (src/persist/sqlite.rs:59-72, src/core/store.rs:188-205): when
 * tables load at all, and when a loaded store is numbered like the live one.
 */
module Loading {
  import opened Wrappers
  import opened Qso
  import opened Operation
  import opened StoreModel
  import opened History
  import opened Journal

  // ---- when tables load -------------------------------------------------------------

  /** The start view holds the id, or one of the first `n` ops inserts it. */
  predicate HeldBefore(v: View, ops: seq<StoredOp>, n: nat, id: QsoId)
    requires n <= |ops|
  {
    id in v.records || exists j :: 0 <= j < n && ops[j].op.OpInsert? && ops[j].op.qso.id == id
  }

  /** Inserts bring new ids; patches and voids target ids held by then. */
  predicate Fitting(v: View, ops: seq<StoredOp>) {
    forall i :: 0 <= i < |ops| ==> (ops[i].op.OpInsert? <==> !HeldBefore(v, ops, i, ops[i].op.Target()))
  }

  lemma {:induction false} FoldHolds(v: View, ops: seq<StoredOp>)
    requires Fold(v, ops).Success?
    ensures forall id :: id in Fold(v, ops).value.records <==> HeldBefore(v, ops, |ops|, id)
  {
    if ops != [] {
      var n := |ops| - 1;
      FoldHolds(v, ops[..n]);
      forall id ensures id in Fold(v, ops).value.records <==> HeldBefore(v, ops, |ops|, id) {
        HeldByPrefix(v, ops, n, id);
      }
    }
  }

  lemma {:induction false} HeldByPrefix(v: View, ops: seq<StoredOp>, n: nat, id: QsoId)
    requires n < |ops|
    ensures HeldBefore(v, ops[..n], n, id) <==> HeldBefore(v, ops, n, id)
    ensures HeldBefore(v, ops, n + 1, id) <==>
      HeldBefore(v, ops, n, id) || (ops[n].op.OpInsert? && ops[n].op.qso.id == id)
  {
    assert forall j :: 0 <= j < n ==> ops[..n][j] == ops[j];
  }

  lemma {:induction false} FittingPrefix(v: View, ops: seq<StoredOp>, n: nat)
    requires n < |ops|
    ensures Fitting(v, ops[..n]) <==>
      forall i :: 0 <= i < n ==> (ops[i].op.OpInsert? <==> !HeldBefore(v, ops, i, ops[i].op.Target()))
  {
    forall i | 0 <= i < n
      ensures ops[..n][i] == ops[i]
      ensures HeldBefore(v, ops[..n], i, ops[i].op.Target()) <==> HeldBefore(v, ops, i, ops[i].op.Target())
    {
      assert forall j :: 0 <= j < i ==> ops[..n][j] == ops[j];
    }
  }

  /** A list of ops applies if and only if it fits. */
  lemma {:induction false} FoldSucceedsIffFitting(v: View, ops: seq<StoredOp>)
    ensures Fold(v, ops).Success? <==> Fitting(v, ops)
  {
    hide Fitting, HeldBefore;
    if ops == [] {
      assert Fitting(v, ops) by { NothingFits(v); }
    } else {
      var n := |ops| - 1;
      FoldSucceedsIffFitting(v, ops[..n]);
      if Fold(v, ops[..n]).Success? {
        FoldHolds(v, ops[..n]);
        HeldByPrefix(v, ops, n, ops[n].op.Target());
      }
      FittingSplits(v, ops);
    }
  }

  lemma {:induction false} NothingFits(v: View)
    ensures Fitting(v, [])
  {
  }

  lemma {:induction false} FittingSplits(v: View, ops: seq<StoredOp>)
    requires ops != []
    ensures var n := |ops| - 1;
      Fitting(v, ops) <==>
        Fitting(v, ops[..n]) && (ops[n].op.OpInsert? <==> !HeldBefore(v, ops, n, ops[n].op.Target()))
  {
    hide HeldBefore;
    FittingPrefix(v, ops, |ops| - 1);
  }

  /**
   * Tables load if and only if, among the events after the newest snapshot, no insert repeats an id
   * and no patch or void targets an id that neither the snapshot nor an earlier insert holds.
   */
  lemma {:induction false} LoadsIffFitting(t: Tables)
    ensures Load(t).Success? <==> Fitting(StartState(t).view, EventsAfter(t.events, LastSeq(StartState(t))))
  {
    hide Load, Fitting, StartState, Fold;
    LoadIsFold(t);
    FoldSucceedsIffFitting(StartState(t).view, EventsAfter(t.events, LastSeq(StartState(t))));
  }

  // ---- how a loaded store is numbered ---------------------------------------------------

  /** Patches of missing ids since the last command that succeeded. */
  function MissesSinceSuccess(s: StoreState, cmds: seq<Command>): nat {
    if cmds == [] then 0 else
    var n := |cmds| - 1;
    var o := Exec(Run(s, cmds[..n]), cmds[n]);
    if o.result.Success? then 0
    else MissesSinceSuccess(s, cmds[..n]) + (if cmds[n].CmdPatch? then 1 else 0)
  }

  /** One above the last number in the list; the start when the list is empty. */
  function NumberAfter(start: OpSeq, ops: seq<StoredOp>): OpSeq {
    if ops == [] then start else ops[|ops| - 1].opSeq + 1
  }

  lemma {:induction false} RunNumber(s: StoreState, cmds: seq<Command>)
    requires Reachable(s) && StacksFiled(s)
    ensures Run(s, cmds).nextOpSeq == NumberAfter(s.nextOpSeq, Emitted(s, cmds)) + MissesSinceSuccess(s, cmds)
  {
    hide Exec, WellFormed, FreshIds, StacksFiled;
    if cmds != [] {
      var n := |cmds| - 1;
      var t := Run(s, cmds[..n]);
      RunNumber(s, cmds[..n]);
      RunKeepsReachable(s, cmds[..n]);
      RunKeepsStacksFiled(s, cmds[..n]);
      ExecIsOneOp(t, cmds[n]);
      ExecKeepsStacksFiled(t, cmds[n]);
      assert Emitted(s, cmds[..n]) + [] == Emitted(s, cmds[..n]);
    }
  }

  lemma {:induction false} ReplayNumber(s: StoreState, ops: seq<StoredOp>)
    requires Increasing(ops) && forall i :: 0 <= i < |ops| ==> s.nextOpSeq <= ops[i].opSeq
    requires ReplayAll(s, ops).result.Success?
    ensures ReplayAll(s, ops).state.nextOpSeq == NumberAfter(s.nextOpSeq, ops)
  {
    hide ApplyToView;
    if ops != [] {
      var n := |ops| - 1;
      ReplayNumber(s, ops[..n]);
      assert n > 0 ==> ops[n - 1].opSeq < ops[n].opSeq;
    }
  }

  /**
   * How far the numbering of a replayed store lags behind the live one: by the patches of missing
   * ids since the last success. It is the same if and only if there were none.
   */
  lemma {:induction false} ReplayedNumberLagsByMisses(cmds: seq<Command>)
    ensures var s, t := Run(EMPTY_STORE, cmds), Tables(Emitted(EMPTY_STORE, cmds), []);
      && Load(t).Success?
      && s.nextOpSeq == Load(t).value.nextOpSeq + MissesSinceSuccess(EMPTY_STORE, cmds)
      && (Load(t).value.nextOpSeq == s.nextOpSeq <==> MissesSinceSuccess(EMPTY_STORE, cmds) == 0)
  {
    hide Run, Emitted, ReplayAll, Fold;
    var ops := Emitted(EMPTY_STORE, cmds);
    ReplayIsFaithful(cmds);
    RunNumbersIncrease(EMPTY_STORE, cmds);
    EventsAfterAll(ops, 0);
    RunNumber(EMPTY_STORE, cmds) by { EmptyIsReachable(); }
    ReplayNumber(EMPTY_STORE, ops);
  }

  /** An insert, then a patch of an id that is not there: the live store is one ahead. */
  lemma {:induction false} MissedPatchTakesNumber(draft: QsoDraft, patch: QsoPatch)
    ensures var cmds := [CmdInsert(draft), CmdPatch(2, patch)];
      && Run(EMPTY_STORE, cmds).nextOpSeq == 3
      && Load(Tables(Emitted(EMPTY_STORE, cmds), [])).Success?
      && Load(Tables(Emitted(EMPTY_STORE, cmds), [])).value.nextOpSeq == 2
  {
    var cmds := [CmdInsert(draft), CmdPatch(2, patch)];
    assert cmds[..1] == [CmdInsert(draft)] && cmds[..1][..0] == [];
    var s := Insert(EMPTY_STORE, draft).state;
    assert Run(EMPTY_STORE, cmds[..1]) == s && s.nextOpSeq == 2;
    assert Exec(s, cmds[1]).result == Failure(MissingQso(2));
    assert MissesSinceSuccess(EMPTY_STORE, cmds[..1]) == 0;
    ReplayedNumberLagsByMisses(cmds);
  }
}

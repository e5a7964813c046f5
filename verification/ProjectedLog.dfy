/**
 * Store and projector side by side, as the repository's own property test drives them
 * (tests/engine_incremental.rs:136-153, 237-291): every command runs against the store, every
 * emitted op goes to the projector, and the result is compared with a full recompute.
 */
module ProjectedLog {
  import opened Wrappers
  import opened Qso
  import opened Operation
  import opened StoreModel
  import opened History
  import opened UndoRedo
  import opened Rejection
  import opened Store
  import opened Engine
  import opened Projection
  import opened ProjectionProof
  import opened ReconcileProof
  import opened ProjectionTheorems
  import opened Projector

  /** The simple algorithm: a fresh engine state, and every non-void record once, in order. */
  method FullRecomputeProjection<Eval>(engine: ContestEngine<Eval>, store: QsoStore) returns (out: Results<Eval>)
    requires store.Valid()
    ensures out == Recompute(engine, store.CurrentView())
  {
    hide CountsOf, Consistent, Increment, WellFormed;
    OrderIsFiled(store);
    var state: Counts := map[];
    out := map[];
    assert state == CountsOf(out) by { EmptyCounts<Eval>(); }
    for i := 0 to |store.order|
      invariant out == RecomputePrefix(engine, store.CurrentView(), i) && state == CountsOf(out)
    {
      var id := store.order[i];
      if id in store.records && !store.records[id].flags.isVoid {
        RecomputeIsProjection(engine, store.CurrentView(), i);
        assert id !in store.order[..i];
        ApplyEvaluates(engine, out, store.records[id]);
        var (next, result) := Apply(engine, state, store.records[id]);
        CachesAfterApply(out, id, result);
        state := next;
        out := out[id := result];
      }
    }
  }

  lemma {:induction false} EmptyCounts<Eval>()
    ensures var none: Results<Eval> := map[]; CountsOf(none) == map[]
  {
  }

  /** From a coherent state no emitted op carries a wrong belief about a void flag. */
  lemma {:induction false} EmittedIsNotStale(s: StoreState, cmd: Command)
    requires Reachable(s) && Coherent(s) && Exec(s, cmd).result.Success?
    ensures !Stale(s.view, Exec(s, cmd).result.value.op)
  {
  }

  /** The records the engine was given are the store's current ones. */
  predicate UpToDate(given: map<QsoId, QsoRecord>, v: View) {
    forall id :: id in given ==> id in v.records && given[id] == v.records[id]
  }

  /** After a command that was not stale, the op tells the projector the truth about the old record. */
  lemma {:induction false} EmittedOpIsPaired(s: StoreState, cmd: Command, given: map<QsoId, QsoRecord>)
    requires Reachable(s) && Exec(s, cmd).result.Success? && UpToDate(given, s.view)
    requires !Stale(s.view, Exec(s, cmd).result.value.op)
    ensures Paired(given, Exec(s, cmd).state.view.records, Exec(s, cmd).result.value.op)
    ensures Exec(s, cmd).result.value.op.OpInsert? || Exec(s, cmd).result.value.op.id in Exec(s, cmd).state.view.records
  {
    hide Exec, Rebuilt;
    var op, w := Exec(s, cmd).result.value.op, Exec(s, cmd).state.view;
    ExecIsOneOp(s, cmd);
    RecordedAgain(s, cmd);
    StepIsOneChange(s, cmd);
    if !op.OpInsert? {
      RebuiltIsOldIff(s.view, op);
    }
  }

  /**
   * Whatever the engine law, the projector ends with the recomputed results; with non-void drafts
   * every retract is paired.
   */
  method RunActions<Eval(==,!new)>(engine: ContestEngine<Eval>, actions: seq<Command>)
    returns (store: QsoStore, projector: Projector<Eval>)
    requires Lawful(engine)
    ensures fresh(store) && store.Valid() && store.State() == Run(EMPTY_STORE, actions)
    ensures fresh(projector) && projector.Valid()
    ensures projector.applied == Recompute(engine, store.CurrentView())
    ensures (forall i :: 0 <= i < |actions| ==> NonVoidDraft(actions[i])) ==> projector.paired
  {
    hide Consistent, CountsOf, IndexOf, Exec, Recompute, Project, Transitive, Revealing, Coherent, WellFormed, FreshIds,
      Paired, Distinct;
    store := new QsoStore();
    projector := new Projector(engine);
    ghost var careful := forall i :: 0 <= i < |actions| ==> NonVoidDraft(actions[i]);
    StartsRight(engine);
    for i := 0 to |actions|
      invariant fresh(store) && fresh(projector) && store.Valid() && projector.Valid() && projector.engine == engine
      invariant store.State() == Run(EMPTY_STORE, actions[..i])
      invariant Reachable(store.State()) && (careful ==> Coherent(store.State()))
      invariant projector.applied == Recompute(engine, store.CurrentView())
      invariant careful ==> projector.paired && UpToDate(projector.given, store.CurrentView())
    {
      ghost var s := store.State();
      assert actions[..i + 1][..i] == actions[..i];
      var result := store.Execute(actions[i]);
      ExecKeepsReachable(s, actions[i]);
      ExecIsOneOp(s, actions[i]);
      if careful { ExecKeepsCoherent(s, actions[i]); }
      if result.Success? {
        TellProjector(engine, s, actions[i], projector.given);
        var fed := projector.ApplyStoredOp(store, result.value);
        if careful { StaysUpToDate(engine, store, projector, result.value.op.Target()); }
      }
    }
    assert actions[..|actions|] == actions;
  }

  lemma {:induction false} StartsRight<Eval>(engine: ContestEngine<Eval>)
    ensures Reachable(EMPTY_STORE) && Coherent(EMPTY_STORE)
    ensures Recompute(engine, EMPTY_STORE.view) == map[]
  {
  }

  lemma {:induction false} TellProjector<Eval(!new)>(engine: ContestEngine<Eval>, s: StoreState, cmd: Command,
                                                     given: map<QsoId, QsoRecord>)
    requires Reachable(s) && Lawful(engine) && Exec(s, cmd).result.Success?
    ensures var o := Exec(s, cmd);
      && (o.result.value.op.OpInsert? || o.result.value.op.id in o.state.view.records)
      && Project(engine, Recompute(engine, s.view), o.state.view, o.result.value.op.Target()).results
         == Recompute(engine, o.state.view)
      && (Coherent(s) && UpToDate(given, s.view) ==> Paired(given, o.state.view.records, o.result.value.op))
  {
    hide Recompute, Project, Transitive, Revealing;
    var o := Exec(s, cmd);
    StepIsOneChange(s, cmd);
    IncrementalIsFull(engine, s.view, o.state.view, o.result.value.op.Target());
    ExecIsOneOp(s, cmd);
    if Coherent(s) && UpToDate(given, s.view) {
      EmittedIsNotStale(s, cmd);
      EmittedOpIsPaired(s, cmd, given);
    }
  }

  lemma {:induction false} StaysUpToDate<Eval>(engine: ContestEngine<Eval>, store: QsoStore,
                                               projector: Projector<Eval>, changed: QsoId)
    requires store.Valid() && projector.Valid() && projector.applied == Recompute(engine, store.CurrentView())
    requires Remembers(projector.given, store.CurrentView(), changed, None)
    ensures UpToDate(projector.given, store.CurrentView())
  {
    hide CountsOf, IndexOf, Recompute;
    forall id | id in projector.given ensures id in store.records {
      RecomputeApplies(engine, store.CurrentView(), id);
    }
  }
}

/**
 * The projector's promise (src/engine/projector.rs:48-125; tests/engine_incremental.rs:136-291):
 * after every emitted op the incremental results equal a full recompute, for engines whose keys
 * are shared transitively and for engines whose evaluations reveal the counts they see.
 */
module ProjectionTheorems {
  import opened Wrappers
  import opened Qso
  import opened Operation
  import opened StoreModel
  import opened History
  import opened Engine
  import opened Projection
  import opened ProjectionProof
  import opened ReconcileProof

  // ---- transitive sharing: only sharers of the changed record are impacted --------

  /** `id` shares a key with the changed record as it was before or as it is after the op. */
  ghost predicate NearChange<Eval>(eng: ContestEngine<Eval>, before: View, after: View, c: QsoId, id: QsoId) {
    id in after.records &&
    ((Live(before, c) && Shares(eng.deps, after.records[id], before.records[c])) ||
     (Live(after, c) && Shares(eng.deps, after.records[id], after.records[c])))
  }

  ghost predicate OnlyNear<Eval>(eng: ContestEngine<Eval>, before: View, after: View, c: QsoId,
                                 a: Results<Eval>, impacted: set<QsoId>)
  {
    forall id :: id in a && id in impacted && id != c ==> NearChange(eng, before, after, c, id)
  }

  lemma {:induction false} NearInitially<Eval>(eng: ContestEngine<Eval>, before: View, after: View, c: QsoId)
    requires OneChange(before, after, c)
    ensures var a := Recompute(eng, before); OnlyNear(eng, before, after, c, a, InitialImpact(a, c))
  {
    hide Recompute;
    var a := Recompute(eng, before);
    RecomputeApplies(eng, before, c);
    forall id | id in a && id in InitialImpact(a, c) && id != c ensures NearChange(eng, before, after, c, id) {
      RecomputeApplies(eng, before, id);
      var k :| k in a[id].deps && k in a[c].deps;
    }
  }

  /** A changed key belongs to an impacted record, as it was applied before or after the pass. */
  lemma {:induction false} WhoChanged<Eval>(a: Results<Eval>, b: Results<Eval>, order: seq<QsoId>,
                                            impacted: set<QsoId>, j: QsoId)
    returns (i: QsoId, k: DepKey)
    requires j in Touching(b, ChangedKeys(a, b, order, impacted))
    ensures i in impacted && k in b[j].deps && ((i in a && k in a[i].deps) || (i in b && k in b[i].deps))
  {
    k :| k in b[j].deps && k in ChangedKeys(a, b, order, impacted);
    i :| i in impacted && k in KeysChanged(Lookup(a, order, i), Lookup(b, order, i));
  }

  /** A sharer of a record near the change is near the change itself. */
  lemma {:induction false} NearCarriesOver<Eval>(eng: ContestEngine<Eval>, before: View, after: View, c: QsoId,
                                                 i: QsoId, id: QsoId)
    requires OneChange(before, after, c) && Transitive(eng.deps)
    requires i != c && id != c && Live(after, i) && Live(after, id)
    requires NearChange(eng, before, after, c, i) && Shares(eng.deps, after.records[id], after.records[i])
    ensures NearChange(eng, before, after, c, id)
  {
    if i != id {
      var x := if Live(before, c) && Shares(eng.deps, after.records[i], before.records[c])
        then before.records[c] else after.records[c];
      assert LiveTriple(after.records[id], after.records[i], x);
    }
  }

  lemma {:induction false} NearStep<Eval>(eng: ContestEngine<Eval>, before: View, after: View, c: QsoId,
                                          a: Results<Eval>, b: Results<Eval>, impacted: set<QsoId>, first: bool)
    requires OneChange(before, after, c) && Transitive(eng.deps)
    requires Inv(eng, Recompute(eng, before), after, c, a, impacted, first) && Passed(eng, after, a, b, impacted)
    requires OnlyNear(eng, before, after, c, a, impacted)
    ensures OnlyNear(eng, before, after, c, b, Expand(a, b, after.order, impacted))
  {
    hide Recompute, RecomputePrefix, WellFormed, Transitive, NearChange;
    var old_ := Recompute(eng, before);
    PassKnows(eng, old_, after, c, a, b, impacted, first);
    RecomputeApplies(eng, before, c);
    forall id | id in b && id in Expand(a, b, after.order, impacted) && id != c
      ensures NearChange(eng, before, after, c, id)
    {
      assert AppliedRight(eng, after, a, id) && AppliedRight(eng, after, b, id);
      if id !in impacted {
        var i, k := WhoChanged(a, b, after.order, impacted, id);
        if i == c {
          NearByKey(eng, before, after, c, a, b, first, id, k);
        } else {
          assert AppliedRight(eng, after, a, i) && AppliedRight(eng, after, b, i);
          assert k in eng.deps(after.records[id]) && k in eng.deps(after.records[i]);
          NearCarriesOver(eng, before, after, c, i, id);
        }
      }
    }
  }

  lemma {:induction false} NearByKey<Eval>(eng: ContestEngine<Eval>, before: View, after: View, c: QsoId,
                                           a: Results<Eval>, b: Results<Eval>, first: bool, id: QsoId, k: DepKey)
    requires AppliedRight(eng, before, Recompute(eng, before), c) && AppliedRight(eng, after, b, c)
    requires if first then a == Recompute(eng, before) else AppliedRight(eng, after, a, c)
    requires (c in a && k in a[c].deps) || (c in b && k in b[c].deps)
    requires id in after.records && k in eng.deps(after.records[id])
    ensures NearChange(eng, before, after, c, id)
  {
    hide Recompute;
  }

  /** Whatever shares a key with an impacted record is impacted, once the change itself is accounted for. */
  lemma {:induction false} NearCloses<Eval>(eng: ContestEngine<Eval>, before: View, after: View, c: QsoId,
                                            b: Results<Eval>, impacted: set<QsoId>, id: QsoId)
    requires OneChange(before, after, c) && Transitive(eng.deps)
    requires Inv(eng, Recompute(eng, before), after, c, b, impacted, false)
    requires OnlyNear(eng, before, after, c, b, impacted)
    requires id in b && id in impacted
    ensures Closed(b, impacted, id)
  {
    hide Recompute, WellFormed, Transitive;
    RecomputeApplies(eng, before, c);
    if id != c {
      assert AppliedRight(eng, after, b, id);
      forall j | j in Touching(b, b[id].deps) && j != c ensures j in impacted {
        assert AppliedRight(eng, after, b, j);
        var k :| k in b[j].deps && k in b[id].deps;
        NearCarriesOver(eng, before, after, c, id, j);
        NearIsImpacted(eng, before, after, c, b, impacted, j);
      }
    }
  }

  lemma {:induction false} NearIsImpacted<Eval>(eng: ContestEngine<Eval>, before: View, after: View, c: QsoId,
                                                b: Results<Eval>, impacted: set<QsoId>, j: QsoId)
    requires Inv(eng, Recompute(eng, before), after, c, b, impacted, false)
    requires AppliedRight(eng, before, Recompute(eng, before), c) && AppliedRight(eng, after, b, j)
    requires j in b && j != c && NearChange(eng, before, after, c, j)
    ensures j in impacted
  {
    hide Recompute;
    if Live(before, c) && Shares(eng.deps, after.records[j], before.records[c]) {
      var k :| k in eng.deps(after.records[j]) && k in eng.deps(before.records[c]);
      assert k in b[j].deps * Recompute(eng, before)[c].deps;
    } else {
      var k :| k in eng.deps(after.records[j]) && k in eng.deps(after.records[c]);
      assert k in b[j].deps * b[c].deps;
      assert j in Touching(b, b[c].deps);
    }
  }

  /** With transitive sharing the second pass never grows the impacted set. */
  lemma {:induction false} TransitiveStops<Eval>(eng: ContestEngine<Eval>, before: View, after: View, c: QsoId,
                                                 a: Results<Eval>, b: Results<Eval>, impacted: set<QsoId>)
    requires OneChange(before, after, c) && Transitive(eng.deps)
    requires Inv(eng, Recompute(eng, before), after, c, a, impacted, false) && Passed(eng, after, a, b, impacted)
    requires OnlyNear(eng, before, after, c, a, impacted)
    ensures Expand(a, b, after.order, impacted) == impacted
  {
    hide Recompute, WellFormed, Transitive, OnlyNear;
    PassKnows(eng, Recompute(eng, before), after, c, a, b, impacted, false);
    forall j | j in Touching(b, ChangedKeys(a, b, after.order, impacted)) ensures j in impacted {
      var i, k := WhoChanged(a, b, after.order, impacted, j);
      assert AppliedRight(eng, after, a, i) && AppliedRight(eng, after, b, i);
      assert AppliedRight(eng, after, a, j) && AppliedRight(eng, after, b, j);
      NearCloses(eng, before, after, c, a, impacted, i);
      assert k in a[j].deps * a[i].deps;
      assert j in Touching(a, a[i].deps);
    }
  }

  // ---- the loop ---------------------------------------------------------------

  ghost predicate Lawful<Eval(!new)>(eng: ContestEngine<Eval>) {
    Transitive(eng.deps) || Revealing(eng)
  }

  lemma {:induction false} ReconcileIsRecompute<Eval(!new)>(
    eng: ContestEngine<Eval>, before: View, after: View, c: QsoId,
    a: Results<Eval>, impacted: set<QsoId>, first: bool)
    requires OneChange(before, after, c) && Lawful(eng)
    requires Inv(eng, Recompute(eng, before), after, c, a, impacted, first)
    requires Transitive(eng.deps) ==> OnlyNear(eng, before, after, c, a, impacted)
    ensures var r := Reconcile(eng, a, after, impacted);
      r.results == Recompute(eng, after) && (Transitive(eng.deps) ==> r.passes <= if first then 2 else 1)
    decreases |a.Keys + IdsOf(after.order) - impacted|
  {
    hide Recompute, RecomputePrefix, Inv, OnlyNear, Transitive, Revealing, Pass, Passed, Expand, OneChange, Distinct;
    var old_ := Recompute(eng, before);
    var b := Pass(eng, a, after, impacted);
    var grown := Expand(a, b, after.order, impacted);
    AppliedIsOrdered(eng, before, after, c, a, impacted, first);
    PassIsPassed(eng, a, after, impacted);
    InvStep(eng, old_, after, c, a, b, impacted, first);
    if Transitive(eng.deps) {
      NearStep(eng, before, after, c, a, b, impacted, first);
      if !first { TransitiveStops(eng, before, after, c, a, b, impacted); }
    }
    if grown == impacted {
      if Transitive(eng.deps) {
        forall id | id in b && id in impacted ensures Closed(b, impacted, id) {
          NearCloses(eng, before, after, c, b, impacted, id);
        }
      }
      ExitIsRight(eng, before, after, c, a, b, impacted);
    } else {
      NotYetImpactedShrinks(eng, a, after, impacted);
      ReconcileIsRecompute(eng, before, after, c, b, grown, false);
    }
  }

  lemma {:induction false} AppliedIsOrdered<Eval>(eng: ContestEngine<Eval>, before: View, after: View, c: QsoId,
                                                  a: Results<Eval>, impacted: set<QsoId>, first: bool)
    requires OneChange(before, after, c) && Inv(eng, Recompute(eng, before), after, c, a, impacted, first)
    ensures WellFormed(before) && WellFormed(after) && Distinct(after.order)
    ensures forall id :: id in a ==> id in after.order
  {
  }

  /**
   * Incremental equals full, for one op: starting from the right results, the projector arrives at
   * the right results, and with transitive sharing within two passes.
   */
  lemma {:induction false} IncrementalIsFull<Eval(!new)>(eng: ContestEngine<Eval>, before: View, after: View, c: QsoId)
    requires OneChange(before, after, c) && Lawful(eng)
    ensures Project(eng, Recompute(eng, before), after, c).results == Recompute(eng, after)
    ensures Transitive(eng.deps) ==> Project(eng, Recompute(eng, before), after, c).passes <= 2
  {
    InvInitially(eng, before, after, c);
    if Transitive(eng.deps) { NearInitially(eng, before, after, c); }
    ReconcileIsRecompute(eng, before, after, c, Recompute(eng, before), InitialImpact(Recompute(eng, before), c), true);
  }

  // ---- whole runs ---------------------------------------------------------------

  lemma {:induction false} OpIsOneChange(v: View, op: Op)
    requires WellFormed(v) && Applicable(v, op)
    ensures OneChange(v, Applied(v, op), op.Target())
  {
    ApplyKeepsWellFormed(v, op);
  }

  /** The results of a fresh projector that is fed every op a run emits. */
  function ProjectRun<Eval(==)>(eng: ContestEngine<Eval>, s: StoreState, cmds: seq<Command>): Results<Eval> {
    if cmds == [] then map[] else
    var n := |cmds| - 1;
    var a := ProjectRun(eng, s, cmds[..n]);
    var o := Exec(Run(s, cmds[..n]), cmds[n]);
    if o.result.Failure? then a else Project(eng, a, o.state.view, o.result.value.op.Target()).results
  }

  /** A projector starts empty, so it has to start with a store that has nothing to project. */
  ghost predicate NothingLive(v: View) {
    forall id :: id in v.records ==> v.records[id].flags.isVoid
  }

  lemma {:induction false} NothingToProject<Eval>(eng: ContestEngine<Eval>, v: View)
    requires WellFormed(v) && NothingLive(v)
    ensures Recompute(eng, v) == map[]
  {
    forall id | id in Recompute(eng, v) ensures false {
      RecomputeApplies(eng, v, id);
    }
  }

  /**
   * For every run of insert, patch, void, undo and redo, failing commands included, the projection
   * equals a recompute of the live view. No assumption on drafts is needed.
   */
  lemma {:induction false} ProjectionTracksEveryRun<Eval(!new)>(eng: ContestEngine<Eval>, s: StoreState,
                                                               cmds: seq<Command>)
    requires Lawful(eng) && Reachable(s) && NothingLive(s.view)
    ensures ProjectRun(eng, s, cmds) == Recompute(eng, Run(s, cmds).view)
  {
    hide Recompute, Project, Exec, Transitive, Revealing, WellFormed, FreshIds, NothingLive;
    if cmds == [] {
      NothingToProject(eng, s.view);
    } else {
      var n := |cmds| - 1;
      var t := Run(s, cmds[..n]);
      ProjectionTracksEveryRun(eng, s, cmds[..n]);
      RunKeepsReachable(s, cmds[..n]);
      ExecIsOneOp(t, cmds[n]);
      var o := Exec(t, cmds[n]);
      if o.result.Success? {
        StepIsOneChange(t, cmds[n]);
        IncrementalIsFull(eng, t.view, o.state.view, o.result.value.op.Target());
      }
    }
  }

  lemma {:induction false} StepIsOneChange(s: StoreState, cmd: Command)
    requires Reachable(s) && Exec(s, cmd).result.Success?
    ensures OneChange(s.view, Exec(s, cmd).state.view, Exec(s, cmd).result.value.op.Target())
  {
    ExecIsOneOp(s, cmd);
    OpIsOneChange(s.view, Exec(s, cmd).result.value.op);
  }

  /** The engine of the repository's tests is covered. */
  lemma {:induction false} ToyProjectionTracksEveryRun(cmds: seq<Command>)
    ensures ProjectRun(TOY, EMPTY_STORE, cmds) == Recompute(TOY, Run(EMPTY_STORE, cmds).view)
  {
    ToyIsTransitive();
    ProjectionTracksEveryRun(TOY, EMPTY_STORE, cmds);
  }
}

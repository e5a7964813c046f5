/**
 * For which engines incremental equals full (src/engine/projector.rs:103-122). The trait leaves the
 * evaluation free; whatever it is, the projector is right if and only if keys are shared
 * transitively. Where sharing is not transitive, voiding one of three records goes wrong.
 */
module ProjectionLimits {
  import opened Wrappers
  import opened Qso
  import opened Operation
  import opened StoreModel
  import opened History
  import opened Engine
  import opened Projection
  import opened ProjectionProof
  import opened ReconcileProof
  import opened ProjectionTheorems

  type Keys = QsoRecord -> set<DepKey>

  /** Incremental equals full for every op on every view. */
  ghost predicate AlwaysFull<Eval(!new)>(eng: ContestEngine<Eval>) {
    forall before, after, c :: OneChange(before, after, c) ==>
      Project(eng, Recompute(eng, before), after, c).results == Recompute(eng, after)
  }

  // ---- an evaluation that goes wrong -----------------------------------------------

  predicate AnySeen(keys: set<DepKey>, seen: Counts) {
    exists k :: k in keys && Count(seen, k) > 0
  }

  /** The evaluation that only says whether any of the record's keys was seen before. */
  function Lossy(deps: Keys): ContestEngine<bool> {
    ContestEngine(deps, (rec: QsoRecord, seen: Counts) => AnySeen(deps(rec), seen))
  }

  lemma {:induction false} EvaluateLossy(deps: Keys, a: Results<bool>, rec: QsoRecord)
    ensures Evaluate(Lossy(deps), a, rec).deps == deps(rec)
    ensures Evaluate(Lossy(deps), a, rec).eval <==> exists k :: k in deps(rec) && Users(a, k) != {}
  {
    var seen := map k | k in deps(rec) :: |Users(a, k)|;
    forall k | k in deps(rec) ensures Count(seen, k) > 0 <==> Users(a, k) != {} {
      assert seen[k] == |Users(a, k)|;
    }
  }

  /** Sharing leads from `r` to `s` and from `s` to `t`, but not from `r` to `t`. */
  ghost predicate Chain(deps: Keys, r: QsoRecord, s: QsoRecord, t: QsoRecord) {
    LiveTriple(r, s, t) && Shares(deps, r, s) && Shares(deps, s, t) && !Shares(deps, r, t)
  }

  /** Three records in the order r, s, t, the first one void or not. */
  function Three(r: QsoRecord, s: QsoRecord, t: QsoRecord, next: QsoId): View {
    View(map[r.id := r, s.id := s, t.id := t], [r.id, s.id, t.id], next)
  }

  function Flag(seen: bool, deps: set<DepKey>): EngineApplied<bool> {
    EngineApplied(seen, deps)
  }

  function AllApplied(deps: Keys, r: QsoRecord, s: QsoRecord, t: QsoRecord): Results<bool> {
    map[r.id := Flag(false, deps(r)), s.id := Flag(true, deps(s)), t.id := Flag(true, deps(t))]
  }

  lemma {:induction false} RecomputedBefore(deps: Keys, r: QsoRecord, s: QsoRecord, t: QsoRecord, next: QsoId)
    requires Chain(deps, r, s, t)
    ensures Recompute(Lossy(deps), Three(r, s, t, next)) == AllApplied(deps, r, s, t)
  {
    var eng, v := Lossy(deps), Three(r, s, t, next);
    var v0, v1 := RecomputePrefix(eng, v, 0), RecomputePrefix(eng, v, 1);
    var v2, v3 := RecomputePrefix(eng, v, 2), RecomputePrefix(eng, v, 3);
    EvaluateLossy(deps, v0, r);
    assert v1 == map[r.id := Flag(false, deps(r))];
    EvaluateLossy(deps, v1, s);
    var k :| k in deps(r) && k in deps(s);
    assert r.id in Users(v1, k);
    assert v2 == v1[s.id := Flag(true, deps(s))];
    EvaluateLossy(deps, v2, t);
    var l :| l in deps(s) && l in deps(t);
    assert s.id in Users(v2, l);
    assert v3 == v2[t.id := Flag(true, deps(t))];
  }

  /** With the first record void, the second one is the first to be seen. */
  lemma {:induction false} RecomputedAfter(deps: Keys, r: QsoRecord, s: QsoRecord, t: QsoRecord, next: QsoId)
    requires Chain(deps, r, s, t)
    ensures var a := Recompute(Lossy(deps), Three(r.WithVoid(true), s, t, next)); s.id in a && !a[s.id].eval
  {
    var eng, w := Lossy(deps), Three(r.WithVoid(true), s, t, next);
    var w1, w2, w3 := RecomputePrefix(eng, w, 1), RecomputePrefix(eng, w, 2), RecomputePrefix(eng, w, 3);
    assert RecomputePrefix(eng, w, 0) == map[] == w1;
    EvaluateLossy(deps, w1, s);
    assert w2[s.id].eval == false && w3[s.id] == w2[s.id];
  }

  /** In the one pass the second record is evaluated again while the third, which comes later, still counts. */
  lemma {:induction false} PassKeepsFlag(deps: Keys, r: QsoRecord, s: QsoRecord, t: QsoRecord, next: QsoId)
    requires Chain(deps, r, s, t)
    ensures var a := AllApplied(deps, r, s, t);
      Pass(Lossy(deps), a, Three(r.WithVoid(true), s, t, next), {r.id, s.id}) == map[t.id := a[t.id], s.id := a[s.id]]
  {
    var eng, w, a := Lossy(deps), Three(r.WithVoid(true), s, t, next), AllApplied(deps, r, s, t);
    var impacted := {r.id, s.id};
    var u := Unapply(a, w.order, impacted);
    assert w.order[0] == r.id && w.order[1] == s.id && w.order[2] == t.id;
    assert u == map[t.id := a[t.id]];
    assert ReapplyPrefix(eng, u, w, impacted, 0) == u == ReapplyPrefix(eng, u, w, impacted, 1);
    EvaluateLossy(deps, u, s);
    var l :| l in deps(s) && l in deps(t);
    assert t.id in Users(u, l);
    assert ReapplyPrefix(eng, u, w, impacted, 2) == u[s.id := a[s.id]] == ReapplyPrefix(eng, u, w, impacted, 3);
  }

  lemma {:induction false} ImpactIsTwo(deps: Keys, r: QsoRecord, s: QsoRecord, t: QsoRecord)
    requires Chain(deps, r, s, t)
    ensures InitialImpact(AllApplied(deps, r, s, t), r.id) == {r.id, s.id}
  {
    var a := AllApplied(deps, r, s, t);
    var k :| k in deps(r) && k in deps(s);
    assert k in a[s.id].deps * a[r.id].deps;
    assert forall l :: l in deps(t) ==> l !in deps(r);
    assert a[t.id].deps * a[r.id].deps == {};
  }

  /** Nothing but the first record changed, and its keys reach no further. */
  lemma {:induction false} ImpactStays(deps: Keys, r: QsoRecord, s: QsoRecord, t: QsoRecord)
    requires Chain(deps, r, s, t)
    ensures var a, order, impacted := AllApplied(deps, r, s, t), [r.id, s.id, t.id], {r.id, s.id};
      Expand(a, map[t.id := a[t.id], s.id := a[s.id]], order, impacted) == impacted
  {
    var a, order, impacted := AllApplied(deps, r, s, t), [r.id, s.id, t.id], {r.id, s.id};
    var b := map[t.id := a[t.id], s.id := a[s.id]];
    forall k | k in ChangedKeys(a, b, order, impacted) ensures k in deps(r) {
      var id :| id in impacted && k in KeysChanged(Lookup(a, order, id), Lookup(b, order, id));
      assert order[0] == r.id && order[1] == s.id;
      assert id == r.id || id == s.id;
    }
    assert forall l :: l in deps(t) ==> l !in deps(r);
    assert b[t.id].deps * ChangedKeys(a, b, order, impacted) == {};
  }

  lemma {:induction false} ReconciledWrong(deps: Keys, r: QsoRecord, s: QsoRecord, t: QsoRecord, next: QsoId)
    requires Chain(deps, r, s, t)
    ensures var a := Project(Lossy(deps), AllApplied(deps, r, s, t), Three(r.WithVoid(true), s, t, next), r.id).results;
      s.id in a && a[s.id].eval
  {
    hide Pass, Expand, Chain, InitialImpact;
    ImpactIsTwo(deps, r, s, t);
    PassKeepsFlag(deps, r, s, t, next);
    ImpactStays(deps, r, s, t);
  }

  lemma {:induction false} IsOneVoid(r: QsoRecord, s: QsoRecord, t: QsoRecord, next: QsoId)
    requires LiveTriple(r, s, t)
    ensures OneChange(Three(r, s, t, next), Three(r.WithVoid(true), s, t, next), r.id)
  {
    var v, w := Three(r, s, t, next), Three(r.WithVoid(true), s, t, next);
    assert v.order[0] == r.id && v.order[1] == s.id && v.order[2] == t.id;
    assert forall id :: id in v.order <==> id == r.id || id == s.id || id == t.id;
    assert w.records == v.records[r.id := v.records[r.id].WithVoid(true)];
    OpIsOneChange(v, OpVoid(r.id, false));
  }

  /** Void `r` of a chain, and the incremental result of `s` is wrong. */
  lemma {:induction false} ChainFails(deps: Keys, r: QsoRecord, s: QsoRecord, t: QsoRecord, next: QsoId)
    requires Chain(deps, r, s, t)
    ensures var eng, v, w := Lossy(deps), Three(r, s, t, next), Three(r.WithVoid(true), s, t, next);
      OneChange(v, w, r.id) && Project(eng, Recompute(eng, v), w, r.id).results != Recompute(eng, w)
  {
    hide Project, Recompute, OneChange, Lossy, Three;
    RecomputedBefore(deps, r, s, t, next);
    RecomputedAfter(deps, r, s, t, next);
    ReconciledWrong(deps, r, s, t, next);
    IsOneVoid(r, s, t, next);
  }

  // ---- the exact condition -----------------------------------------------------------

  /**
   * Incremental equals full whatever the evaluation computes from the counts if and only if sharing
   * a key is transitive among different live records.
   */
  lemma {:induction false} AlwaysFullIffTransitive(deps: Keys)
    ensures Transitive(deps) <==> forall eval: (QsoRecord, Counts) -> bool :: AlwaysFull(ContestEngine(deps, eval))
  {
    hide Shares, LiveTriple, OneChange, Project, Recompute;
    if Transitive(deps) {
      forall eval: (QsoRecord, Counts) -> bool ensures AlwaysFull(ContestEngine(deps, eval)) {
        LawfulIsAlwaysFull(ContestEngine(deps, eval));
      }
    } else {
      var r, s, t :| LiveTriple(r, s, t) && Shares(deps, r, s) && Shares(deps, s, t) && !Shares(deps, r, t);
      ChainFails(deps, r, s, t, 0);
      assert !AlwaysFull(ContestEngine(deps, Lossy(deps).eval));
    }
  }

  /** Evaluations of any type are covered, and a revealing one needs no condition on the keys. */
  lemma {:induction false} LawfulIsAlwaysFull<Eval(!new)>(eng: ContestEngine<Eval>)
    requires Lawful(eng)
    ensures AlwaysFull(eng)
  {
    hide OneChange, Project, Recompute, Lawful;
    forall before, after, c | OneChange(before, after, c)
      ensures Project(eng, Recompute(eng, before), after, c).results == Recompute(eng, after)
    {
      IncrementalIsFull(eng, before, after, c);
    }
  }

  /** The rooted-key law is one way to get there. */
  lemma {:induction false} RootedIsAlwaysFull<Eval(!new)>(eng: ContestEngine<Eval>, root: QsoRecord -> DepKey)
    requires Rooted(eng, root)
    ensures AlwaysFull(eng)
  {
    RootedIsTransitive(eng, root);
    LawfulIsAlwaysFull(eng);
  }

  // ---- the exact condition for runs ----------------------------------------------------

  ghost predicate IgnoresIds(deps: Keys) {
    forall rec: QsoRecord, id: QsoId :: deps(rec.(id := id)) == deps(rec)
  }

  /** A fresh projector ends every run from an empty store with the recomputed results. */
  ghost predicate EveryRunFull<Eval(!new)>(eng: ContestEngine<Eval>) {
    forall cmds :: ProjectRun(eng, EMPTY_STORE, cmds) == Recompute(eng, Run(EMPTY_STORE, cmds).view)
  }

  function DraftOf(rec: QsoRecord): QsoDraft {
    QsoDraft(rec.contestInstanceId, rec.callsignRaw, rec.callsignNorm, rec.band, rec.mode, rec.freqHz, rec.tsMs,
             rec.radioId, rec.operatorId, rec.exchange, rec.flags)
  }

  function InsertAll(r: QsoRecord, s: QsoRecord, t: QsoRecord): seq<Command> {
    [CmdInsert(DraftOf(r)), CmdInsert(DraftOf(s)), CmdInsert(DraftOf(t))]
  }

  lemma {:induction false} InsertedThree(r: QsoRecord, s: QsoRecord, t: QsoRecord)
    ensures Run(EMPTY_STORE, InsertAll(r, s, t)).view == Three(r.(id := 1), s.(id := 2), t.(id := 3), 4)
  {
    var cmds := InsertAll(r, s, t);
    assert cmds[..2][..1] == cmds[..1] && cmds[..1][..0] == [];
    var s1 := Insert(EMPTY_STORE, DraftOf(r)).state;
    assert Run(EMPTY_STORE, cmds[..1]) == s1 && s1.view == View(map[1 := r.(id := 1)], [1], 2);
    var s2 := Insert(s1, DraftOf(s)).state;
    assert Run(EMPTY_STORE, cmds[..2]) == s2 && s2.view == View(map[1 := r.(id := 1), 2 := s.(id := 2)], [1, 2], 3);
    var s3 := Insert(s2, DraftOf(t)).state;
    assert Run(EMPTY_STORE, cmds) == s3;
  }

  /** The failing void is the fourth command of a run. */
  lemma {:induction false} ChainFailsInRun(deps: Keys, r: QsoRecord, s: QsoRecord, t: QsoRecord)
    requires IgnoresIds(deps) && Chain(deps, r, s, t)
    ensures !EveryRunFull(Lossy(deps))
  {
    hide Project, Recompute, OneChange, Exec, Chain;
    var eng, first := Lossy(deps), InsertAll(r, s, t);
    var cmds := first + [CmdVoid(1)];
    var r1, s2, t3 := r.(id := 1), s.(id := 2), t.(id := 3);
    assert cmds[..3] == first;
    InsertedThree(r, s, t);
    VoidsFirst(Run(EMPTY_STORE, first), r1, s2, t3, 4) by { ChainRenumbered(deps, r, s, t); }
    ChainRenumbered(deps, r, s, t);
    ChainFails(deps, r1, s2, t3, 4);
    assert Run(EMPTY_STORE, cmds).view == Three(r1.WithVoid(true), s2, t3, 4);
    assert ProjectRun(eng, EMPTY_STORE, cmds)
        == Project(eng, ProjectRun(eng, EMPTY_STORE, first), Three(r1.WithVoid(true), s2, t3, 4), 1).results;
  }

  lemma {:induction false} ChainRenumbered(deps: Keys, r: QsoRecord, s: QsoRecord, t: QsoRecord)
    requires IgnoresIds(deps) && Chain(deps, r, s, t)
    ensures Chain(deps, r.(id := 1), s.(id := 2), t.(id := 3))
  {
    assert deps(r.(id := 1)) == deps(r) && deps(s.(id := 2)) == deps(s) && deps(t.(id := 3)) == deps(t);
  }

  lemma {:induction false} VoidsFirst(st: StoreState, r: QsoRecord, s: QsoRecord, t: QsoRecord, next: QsoId)
    requires st.view == Three(r, s, t, next) && LiveTriple(r, s, t)
    ensures var o := Exec(st, CmdVoid(r.id));
      o.result.Success? && o.result.value.op.Target() == r.id && o.state.view == Three(r.WithVoid(true), s, t, next)
  {
    assert st.view.records[r.id := r.WithVoid(true)] == Three(r.WithVoid(true), s, t, next).records;
  }

  /** For keys that do not depend on ids the condition is exact for runs too. */
  lemma {:induction false} EveryRunFullIffTransitive(deps: Keys)
    requires IgnoresIds(deps)
    ensures Transitive(deps) <==> forall eval: (QsoRecord, Counts) -> bool :: EveryRunFull(ContestEngine(deps, eval))
  {
    hide Shares, LiveTriple, ProjectRun, Recompute, Run, IgnoresIds;
    if Transitive(deps) {
      forall eval: (QsoRecord, Counts) -> bool ensures EveryRunFull(ContestEngine(deps, eval)) {
        forall cmds ensures ProjectRun(ContestEngine(deps, eval), EMPTY_STORE, cmds)
                         == Recompute(ContestEngine(deps, eval), Run(EMPTY_STORE, cmds).view) {
          ProjectionTracksEveryRun(ContestEngine(deps, eval), EMPTY_STORE, cmds);
        }
      }
    } else {
      var r, s, t :| LiveTriple(r, s, t) && Shares(deps, r, s) && Shares(deps, s, t) && !Shares(deps, r, t);
      ChainFailsInRun(deps, r, s, t);
      assert !EveryRunFull(ContestEngine(deps, Lossy(deps).eval));
    }
  }
}

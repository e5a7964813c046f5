/**
 * Incremental equals full: for an engine with either law, reconciling after one op gives the
 * projection that recomputing everything would give (tests/engine_incremental.rs:136-291).
 */
module ProjectionProof {
  import opened Wrappers
  import opened Qso
  import opened Operation
  import opened StoreModel
  import opened Engine
  import opened Projection

  // ---- the reference, pointwise --------------------------------------------

  /** Live records before position `n` that carry `k`. */
  function Earlier<Eval>(eng: ContestEngine<Eval>, v: View, n: nat, k: DepKey): set<QsoId>
    requires n <= |v.order|
  {
    set id | id in v.order[..n] && Live(v, id) && k in eng.deps(v.records[id])
  }

  /** The result the record at position `p` should have. */
  function RightValue<Eval>(eng: ContestEngine<Eval>, v: View, p: nat): EngineApplied<Eval>
    requires p < |v.order| && v.order[p] in v.records
  {
    var rec := v.records[v.order[p]];
    EngineApplied(eng.eval(rec, map k | k in eng.deps(rec) :: |Earlier(eng, v, p, k)|), eng.deps(rec))
  }

  /** `a` holds the right value for every live record among the first `n`, and nothing else. */
  ghost predicate IsProjection<Eval>(eng: ContestEngine<Eval>, v: View, n: nat, a: Results<Eval>)
    requires n <= |v.order|
  {
    && (forall id :: id in a <==> id in v.order[..n] && Live(v, id))
    && (forall p :: 0 <= p < n && Live(v, v.order[p]) ==> a[v.order[p]] == RightValue(eng, v, p))
  }

  lemma {:induction false} SameSizes<Eval>(eng: ContestEngine<Eval>, v: View, a: Results<Eval>, p: nat)
    requires p < |v.order| && v.order[p] in v.records
    requires forall k :: k in eng.deps(v.records[v.order[p]]) ==> |Users(a, k)| == |Earlier(eng, v, p, k)|
    ensures Evaluate(eng, a, v.records[v.order[p]]) == RightValue(eng, v, p)
  {
    var rec := v.records[v.order[p]];
    assert (map k | k in eng.deps(rec) :: |Users(a, k)|) == (map k | k in eng.deps(rec) :: |Earlier(eng, v, p, k)|);
  }

  lemma {:induction false} RecomputeIsProjection<Eval>(eng: ContestEngine<Eval>, v: View, n: nat)
    requires Distinct(v.order) && n <= |v.order|
    ensures IsProjection(eng, v, n, RecomputePrefix(eng, v, n))
  {
    if n > 0 {
      var a, id := RecomputePrefix(eng, v, n - 1), v.order[n - 1];
      RecomputeIsProjection(eng, v, n - 1);
      assert v.order[..n] == v.order[..n - 1] + [id];
      assert id !in v.order[..n - 1];
      if Live(v, id) {
        forall k ensures Users(a, k) == Earlier(eng, v, n - 1, k) {
          UsersAreEarlier(eng, v, n - 1, a, k);
        }
        SameSizes(eng, v, a, n - 1);
      }
    }
  }

  lemma {:induction false} UsersAreEarlier<Eval>(eng: ContestEngine<Eval>, v: View, n: nat, a: Results<Eval>, k: DepKey)
    requires n <= |v.order| && IsProjection(eng, v, n, a)
    ensures Users(a, k) == Earlier(eng, v, n, k)
  {
    forall id | id in a ensures a[id].deps == eng.deps(v.records[id]) {
      var p :| 0 <= p < n && v.order[p] == id;
    }
  }

  lemma {:induction false} ProjectionIsUnique<Eval>(eng: ContestEngine<Eval>, v: View, a: Results<Eval>,
                                                    b: Results<Eval>)
    requires IsProjection(eng, v, |v.order|, a) && IsProjection(eng, v, |v.order|, b)
    ensures a == b
  {
    assert v.order[..|v.order|] == v.order;
    forall id | id in a ensures a[id] == b[id] {
      var p :| 0 <= p < |v.order| && v.order[p] == id;
    }
  }

  // ---- one pass, pointwise ---------------------------------------------------

  /**
   * What a re-applied record at position `p` sees under `k`: impacted records before it, but
   * non-impacted records wherever they stand.
   */
  function Mixed<Eval>(a: Results<Eval>, impacted: set<QsoId>, order: seq<QsoId>, p: nat, k: DepKey): set<QsoId>
    requires p <= |order|
  {
    set id | id in a && k in a[id].deps && (id !in impacted || id in order[..p])
  }

  function MixedValue<Eval>(eng: ContestEngine<Eval>, v: View, a: Results<Eval>, impacted: set<QsoId>,
                            p: nat): EngineApplied<Eval>
    requires p < |v.order| && v.order[p] in v.records
  {
    var rec := v.records[v.order[p]];
    EngineApplied(eng.eval(rec, map k | k in eng.deps(rec) :: |Mixed(a, impacted, v.order, p, k)|), eng.deps(rec))
  }

  ghost predicate PassedPrefix<Eval>(a: Results<Eval>, b: Results<Eval>, v: View, impacted: set<QsoId>, n: nat)
    requires n <= |v.order|
  {
    && (forall id :: id in b <==> if id in impacted then id in v.order[..n] && Live(v, id) else id in a)
    && (forall id :: id in a && id !in impacted ==> b[id] == a[id])
  }

  lemma {:induction false} ReapplyStep<Eval>(eng: ContestEngine<Eval>, a: Results<Eval>, v: View,
                                             impacted: set<QsoId>, n: nat)
    requires Distinct(v.order) && n <= |v.order| && (forall id :: id in a ==> id in v.order)
    ensures PassedPrefix(a, ReapplyPrefix(eng, Unapply(a, v.order, impacted), v, impacted, n), v, impacted, n)
  {
    if n > 0 {
      ReapplyStep(eng, a, v, impacted, n - 1);
      assert v.order[..n] == v.order[..n - 1] + [v.order[n - 1]];
      assert v.order[n - 1] !in v.order[..n - 1];
    }
  }

  ghost predicate Within<Eval>(a: Results<Eval>, b: Results<Eval>) {
    forall id :: id in a ==> id in b && b[id] == a[id]
  }

  lemma {:induction false} ReapplyIsStable<Eval>(eng: ContestEngine<Eval>, a: Results<Eval>, v: View,
                                                 impacted: set<QsoId>, p: nat, n: nat)
    requires Distinct(v.order) && p <= n <= |v.order| && (forall id :: id in a ==> id in v.order)
    ensures var u := Unapply(a, v.order, impacted);
      Within(ReapplyPrefix(eng, u, v, impacted, p), ReapplyPrefix(eng, u, v, impacted, n))
    decreases n
  {
    if p < n {
      ReapplyIsStable(eng, a, v, impacted, p, n - 1);
      ReapplyStep(eng, a, v, impacted, n - 1);
      assert v.order[n - 1] !in v.order[..n - 1];
    }
  }

  /** The outcome of a pass: who is applied, who is untouched, and what the others saw. */
  ghost predicate Passed<Eval>(eng: ContestEngine<Eval>, v: View, a: Results<Eval>, b: Results<Eval>,
                               impacted: set<QsoId>) {
    && (forall id :: id in b <==> if id in impacted then id in v.order && Live(v, id) else id in a)
    && (forall id :: id in a && id !in impacted ==> b[id] == a[id])
    && (forall p :: 0 <= p < |v.order| && v.order[p] in impacted && Live(v, v.order[p]) ==>
          b[v.order[p]] == MixedValue(eng, v, b, impacted, p))
  }

  /** The prefix at `p` and the finished pass show position `p` the same users. */
  lemma {:induction false} UsersAreMixed<Eval>(
    a: Results<Eval>, b: Results<Eval>, final: Results<Eval>, v: View, impacted: set<QsoId>, p: nat, k: DepKey)
    requires p <= |v.order|
    requires PassedPrefix(a, b, v, impacted, p) && PassedPrefix(a, final, v, impacted, |v.order|)
    requires Within(b, final)
    ensures Users(b, k) == Mixed(final, impacted, v.order, p, k)
  {
    forall x ensures x in Users(b, k) <==> x in Mixed(final, impacted, v.order, p, k) {
      assert x in b <==> x in final && (x !in impacted || x in v.order[..p]);
    }
  }

  lemma {:induction false} PassValue<Eval>(eng: ContestEngine<Eval>, a: Results<Eval>, v: View, impacted: set<QsoId>,
                                           p: nat)
    requires Distinct(v.order) && p < |v.order| && (forall id :: id in a ==> id in v.order)
    requires v.order[p] in impacted && Live(v, v.order[p])
    ensures v.order[p] in Pass(eng, a, v, impacted)
    ensures Pass(eng, a, v, impacted)[v.order[p]] == MixedValue(eng, v, Pass(eng, a, v, impacted), impacted, p)
  {
    hide PassedPrefix, Distinct;
    var u := Unapply(a, v.order, impacted);
    var b, next := ReapplyPrefix(eng, u, v, impacted, p), ReapplyPrefix(eng, u, v, impacted, p + 1);
    var final := ReapplyPrefix(eng, u, v, impacted, |v.order|);
    var id, rec := v.order[p], v.records[v.order[p]];
    ReapplyStep(eng, a, v, impacted, p);
    ReapplyStep(eng, a, v, impacted, |v.order|);
    ReapplyIsStable(eng, a, v, impacted, p, |v.order|);
    ReapplyIsStable(eng, a, v, impacted, p + 1, |v.order|);
    assert next == b[id := Evaluate(eng, b, rec)];
    assert id in final && final[id] == Evaluate(eng, b, rec);
    forall k {
      UsersAreMixed(a, b, final, v, impacted, p, k);
    }
    assert (map k | k in eng.deps(rec) :: |Users(b, k)|)
        == (map k | k in eng.deps(rec) :: |Mixed(final, impacted, v.order, p, k)|);
  }

  lemma {:induction false} PassIsPassed<Eval>(eng: ContestEngine<Eval>, a: Results<Eval>, v: View, impacted: set<QsoId>)
    requires Distinct(v.order) && (forall id :: id in a ==> id in v.order)
    ensures Passed(eng, v, a, Pass(eng, a, v, impacted), impacted)
  {
    var b := Pass(eng, a, v, impacted);
    ReapplyStep(eng, a, v, impacted, |v.order|);
    assert v.order[..|v.order|] == v.order;
    forall p | 0 <= p < |v.order| && v.order[p] in impacted && Live(v, v.order[p])
      ensures b[v.order[p]] == MixedValue(eng, v, b, impacted, p)
    {
      PassValue(eng, a, v, impacted, p);
    }
  }
}

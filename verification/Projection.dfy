/**
 * What the incremental projector computes, as functions on the map of applied results
 * (src/engine/projector.rs:77-210), and the projection it should agree with.
 */
module Projection {
  import opened Wrappers
  import opened Qso
  import opened StoreModel
  import opened Engine

  type Results<Eval> = map<QsoId, EngineApplied<Eval>>

  predicate Live(v: View, id: QsoId) {
    id in v.records && !v.records[id].flags.isVoid
  }

  function IdsOf(order: seq<QsoId>): set<QsoId> {
    set i | 0 <= i < |order| :: order[i]
  }

  // ---- engine state and dependency index, as functions of the results -----

  /** The applied ids that carry key `k`. */
  function Users<Eval>(a: Results<Eval>, k: DepKey): set<QsoId> {
    set id | id in a && k in a[id].deps
  }

  function AllDeps<Eval>(a: Results<Eval>): set<DepKey> {
    set id, k | id in a && k in a[id].deps :: k
  }

  function IndexOf<Eval>(a: Results<Eval>): map<DepKey, set<QsoId>> {
    map k | k in AllDeps(a) :: Users(a, k)
  }

  function CountsOf<Eval>(a: Results<Eval>): Counts {
    map k | k in AllDeps(a) :: |Users(a, k)|
  }

  // ---- the reference: recompute everything in insertion order --------------

  /** The result of applying `rec` after exactly the records in `a`. */
  function Evaluate<Eval>(eng: ContestEngine<Eval>, a: Results<Eval>, rec: QsoRecord): EngineApplied<Eval> {
    EngineApplied(eng.eval(rec, map k | k in eng.deps(rec) :: |Users(a, k)|), eng.deps(rec))
  }

  /** `full_recompute_projection` of the first `n` ids. */
  function RecomputePrefix<Eval>(eng: ContestEngine<Eval>, v: View, n: nat): Results<Eval>
    requires n <= |v.order|
  {
    if n == 0 then map[] else
    var a := RecomputePrefix(eng, v, n - 1);
    var id := v.order[n - 1];
    if Live(v, id) then a[id := Evaluate(eng, a, v.records[id])] else a
  }

  function Recompute<Eval>(eng: ContestEngine<Eval>, v: View): Results<Eval> {
    RecomputePrefix(eng, v, |v.order|)
  }

  // ---- the incremental algorithm -------------------------------------------

  /** After the retraction loop: impacted ids of the order are gone. */
  function Unapply<V>(a: map<QsoId, V>, order: seq<QsoId>, impacted: set<QsoId>): map<QsoId, V> {
    map id | id in a && !(id in impacted && id in order) :: a[id]
  }

  /** After the first `n` steps of the re-application loop. */
  function ReapplyPrefix<Eval>(eng: ContestEngine<Eval>, a: Results<Eval>, v: View, impacted: set<QsoId>,
                               n: nat): Results<Eval>
    requires n <= |v.order|
  {
    if n == 0 then a else
    var b := ReapplyPrefix(eng, a, v, impacted, n - 1);
    var id := v.order[n - 1];
    if id in impacted && Live(v, id) then b[id := Evaluate(eng, b, v.records[id])] else b
  }

  function Pass<Eval>(eng: ContestEngine<Eval>, a: Results<Eval>, v: View, impacted: set<QsoId>): Results<Eval> {
    ReapplyPrefix(eng, Unapply(a, v.order, impacted), v, impacted, |v.order|)
  }

  function Lookup<Eval>(a: Results<Eval>, order: seq<QsoId>, id: QsoId): Option<EngineApplied<Eval>> {
    if id in order && id in a then Some(a[id]) else None
  }

  /** Keys one impacted id contributes to the changed set. */
  function KeysChanged<Eval(==)>(before: Option<EngineApplied<Eval>>, after: Option<EngineApplied<Eval>>): set<DepKey> {
    match (before, after)
    case (Some(b), Some(a)) => if b != a then DiffInvalidation(b, a) else {}
    case (Some(b), None) => b.deps
    case (None, Some(a)) => a.deps
    case (None, None) => {}
  }

  function ChangedKeys<Eval(==)>(before: Results<Eval>, after: Results<Eval>, order: seq<QsoId>,
                                 impacted: set<QsoId>): set<DepKey> {
    set id, k | id in impacted && k in KeysChanged(Lookup(before, order, id), Lookup(after, order, id)) :: k
  }

  /** The ids a set of keys reaches through the dependency index. */
  function Touching<Eval>(a: Results<Eval>, keys: set<DepKey>): set<QsoId> {
    set id | id in a && a[id].deps * keys != {}
  }

  function InitialImpact<Eval>(a: Results<Eval>, changed: QsoId): set<QsoId> {
    {changed} + (if changed in a then Touching(a, a[changed].deps) else {})
  }

  function Expand<Eval(==)>(before: Results<Eval>, after: Results<Eval>, order: seq<QsoId>,
                            impacted: set<QsoId>): set<QsoId> {
    impacted + Touching(after, ChangedKeys(before, after, order, impacted))
  }

  datatype Reconciled<Eval> = Reconciled(results: Results<Eval>, passes: nat)

  /** Pass after pass until the impacted set stops growing; terminates for every engine. */
  function Reconcile<Eval(==)>(eng: ContestEngine<Eval>, a: Results<Eval>, v: View,
                               impacted: set<QsoId>): Reconciled<Eval>
    decreases |a.Keys + IdsOf(v.order) - impacted|
  {
    var a' := Pass(eng, a, v, impacted);
    var grown := Expand(a, a', v.order, impacted);
    if grown == impacted then Reconciled(a', 1) else
    NotYetImpactedShrinks(eng, a, v, impacted);
    var rest := Reconcile(eng, a', v, grown);
    Reconciled(rest.results, rest.passes + 1)
  }

  function Project<Eval(==)>(eng: ContestEngine<Eval>, a: Results<Eval>, v: View, changed: QsoId): Reconciled<Eval> {
    Reconcile(eng, a, v, InitialImpact(a, changed))
  }

  lemma {:induction false} ReapplyKeys<Eval>(eng: ContestEngine<Eval>, a: Results<Eval>, v: View,
                                             impacted: set<QsoId>, n: nat)
    requires n <= |v.order|
    ensures forall id :: id in ReapplyPrefix(eng, a, v, impacted, n) <==>
      id in a || (id in v.order[..n] && id in impacted && Live(v, id))
  {
    if n > 0 {
      ReapplyKeys(eng, a, v, impacted, n - 1);
      assert v.order[..n] == v.order[..n - 1] + [v.order[n - 1]];
    }
  }

  lemma {:induction false} ProperSubsetIsSmaller<T>(a: set<T>, b: set<T>, x: T)
    requires a <= b && x in b && x !in a
    ensures |a| < |b|
  {
    SubsetIsNoLarger(a, b - {x});
  }

  lemma {:induction false} SubsetIsNoLarger<T>(a: set<T>, b: set<T>)
    requires a <= b
    ensures |a| <= |b|
    decreases a
  {
    if a != {} {
      var x :| x in a;
      SubsetIsNoLarger(a - {x}, b - {x});
    }
  }

  /** The termination measure of the reconcile loop: known ids not yet impacted. */
  lemma {:induction false} NotYetImpactedShrinks<Eval>(eng: ContestEngine<Eval>, a: Results<Eval>, v: View,
                                                       impacted: set<QsoId>)
    requires var a' := Pass(eng, a, v, impacted); Expand(a, a', v.order, impacted) != impacted
    ensures var a' := Pass(eng, a, v, impacted);
      |a'.Keys + IdsOf(v.order) - Expand(a, a', v.order, impacted)| < |a.Keys + IdsOf(v.order) - impacted|
  {
    var a' := Pass(eng, a, v, impacted);
    var grown := Expand(a, a', v.order, impacted);
    ReapplyKeys(eng, Unapply(a, v.order, impacted), v, impacted, |v.order|);
    assert v.order[..|v.order|] == v.order;
    assert a'.Keys <= a.Keys + IdsOf(v.order);
    var x :| x in grown && x !in impacted;
    ProperSubsetIsSmaller(a'.Keys + IdsOf(v.order) - grown, a.Keys + IdsOf(v.order) - impacted, x);
  }
}

/**
 * Why the reconcile loop stops at the right answer (src/engine/projector.rs:77-210). The loop is
 * followed through an invariant that says what is known about impacted and other records; each
 * engine law then closes the argument at loop exit.
 */
module ReconcileProof {
  import opened Wrappers
  import opened Qso
  import opened StoreModel
  import opened Engine
  import opened Projection
  import opened ProjectionProof

  /** `after` is `before` with at most the record `c` inserted or rewritten. */
  ghost predicate OneChange(before: View, after: View, c: QsoId) {
    && WellFormed(before) && WellFormed(after)
    && c in after.records
    && (after.order == before.order || (c !in before.records && after.order == before.order + [c]))
    && (forall id :: id != c ==>
          (id in before.records <==> id in after.records) &&
          (id in after.records ==> after.records[id] == before.records[id]))
  }

  /** Applied ids are the live ones, with the keys of their records. */
  ghost predicate AppliedRight<Eval>(eng: ContestEngine<Eval>, v: View, a: Results<Eval>, id: QsoId) {
    (id in a <==> Live(v, id)) && (id in a ==> a[id].deps == eng.deps(v.records[id]))
  }

  ghost predicate Known<Eval>(eng: ContestEngine<Eval>, v: View, a: Results<Eval>, c: QsoId) {
    && (forall id :: id in a ==> id in v.order)
    && (forall id :: id != c ==> AppliedRight(eng, v, a, id))
  }

  ghost predicate Kept<Eval>(old_: Results<Eval>, a: Results<Eval>, id: QsoId) {
    id in a && id in old_ && a[id] == old_[id]
  }

  /** Every applied record that shares a key with `id` is impacted. */
  ghost predicate Closed<Eval>(a: Results<Eval>, impacted: set<QsoId>, id: QsoId)
    requires id in a
  {
    Touching(a, a[id].deps) <= impacted
  }

  /**
   * The loop invariant. Records outside the impacted set are as they were; inside, a record is as
   * it was or all its sharers are impacted; sharers of the changed record's old keys, and after the
   * first pass of its new keys, are impacted.
   */
  ghost predicate Inv<Eval>(eng: ContestEngine<Eval>, old_: Results<Eval>, v: View, c: QsoId,
                            a: Results<Eval>, impacted: set<QsoId>, first: bool)
  {
    && Known(eng, v, a, c)
    && c in impacted
    && (forall id :: id in a && id !in impacted ==> Kept(old_, a, id))
    && (forall id :: id in a && id in impacted && id != c ==> Kept(old_, a, id) || Closed(a, impacted, id))
    && (forall id :: id in a && id != c && c in old_ && a[id].deps * old_[c].deps != {} ==> id in impacted)
    && (if first then a == old_ else AppliedRight(eng, v, a, c) && (c in a ==> Closed(a, impacted, c)))
  }

  lemma {:induction false} RecomputeApplies<Eval>(eng: ContestEngine<Eval>, v: View, id: QsoId)
    requires WellFormed(v)
    ensures AppliedRight(eng, v, Recompute(eng, v), id)
    ensures id in Recompute(eng, v) ==> id in v.order
  {
    RecomputeIsProjection(eng, v, |v.order|);
    assert v.order[..|v.order|] == v.order;
    assert id in v.order <==> id in v.records;
    if id in v.order { var p :| 0 <= p < |v.order| && v.order[p] == id; }
  }

  lemma {:induction false} InvInitially<Eval>(eng: ContestEngine<Eval>, before: View, after: View, c: QsoId)
    requires OneChange(before, after, c)
    ensures Inv(eng, Recompute(eng, before), after, c, Recompute(eng, before),
                InitialImpact(Recompute(eng, before), c), true)
  {
    hide Recompute, WellFormed;
    var a := Recompute(eng, before);
    forall id | id in a ensures id in after.order {
      RecomputeApplies(eng, before, id);
    }
    forall id | id != c ensures AppliedRight(eng, after, a, id) {
      RecomputeApplies(eng, before, id);
    }
  }

  // ---- one iteration ---------------------------------------------------------

  lemma {:induction false} ChangeReaches<Eval>(a: Results<Eval>, b: Results<Eval>, order: seq<QsoId>,
                                               impacted: set<QsoId>,
                                               id: QsoId, k: DepKey, j: QsoId)
    requires id in impacted && id in order
    requires k in KeysChanged(Lookup(a, order, id), Lookup(b, order, id))
    requires j in b && k in b[j].deps
    ensures j in Expand(a, b, order, impacted)
  {
    assert k in ChangedKeys(a, b, order, impacted);
    assert k in b[j].deps * ChangedKeys(a, b, order, impacted);
  }

  /** An impacted record that no longer is as it was pulls in all its sharers. */
  lemma {:induction false} StepOther<Eval>(eng: ContestEngine<Eval>, old_: Results<Eval>, v: View, c: QsoId,
                                           a: Results<Eval>, b: Results<Eval>, impacted: set<QsoId>, first: bool,
                                           id: QsoId)
    requires Inv(eng, old_, v, c, a, impacted, first) && Passed(eng, v, a, b, impacted) && Known(eng, v, b, c)
    requires id in b && id in impacted && id != c && !Kept(old_, b, id)
    ensures Closed(b, Expand(a, b, v.order, impacted), id)
  {
    assert AppliedRight(eng, v, a, id) && AppliedRight(eng, v, b, id);
    forall j | j in Touching(b, b[id].deps) ensures j in Expand(a, b, v.order, impacted) {
      if Kept(old_, a, id) {
        var k :| k in b[j].deps && k in b[id].deps;
        assert k in DiffInvalidation(a[id], b[id]);
        ChangeReaches(a, b, v.order, impacted, id, k, j);
      } else if j != c {
        assert AppliedRight(eng, v, a, j) && AppliedRight(eng, v, b, j);
        assert j in Touching(a, a[id].deps);
      }
    }
  }

  /** The changed record's new keys pull in their sharers by the end of the first pass. */
  lemma {:induction false} StepChanged<Eval>(eng: ContestEngine<Eval>, old_: Results<Eval>, v: View, c: QsoId,
                                             a: Results<Eval>, b: Results<Eval>, impacted: set<QsoId>, first: bool)
    requires Inv(eng, old_, v, c, a, impacted, first) && Passed(eng, v, a, b, impacted) && Known(eng, v, b, c)
    requires c in b && AppliedRight(eng, v, b, c)
    ensures Closed(b, Expand(a, b, v.order, impacted), c)
  {
    forall j | j in Touching(b, b[c].deps) && j != c ensures j in Expand(a, b, v.order, impacted) {
      assert AppliedRight(eng, v, a, j) && AppliedRight(eng, v, b, j);
      var k :| k in b[j].deps && k in b[c].deps;
      if first {
        if c in old_ && k in old_[c].deps {
          assert k in a[j].deps * old_[c].deps;
        } else {
          assert k in KeysChanged(Lookup(a, v.order, c), Lookup(b, v.order, c));
          ChangeReaches(a, b, v.order, impacted, c, k, j);
        }
      } else {
        assert c in a && k in a[j].deps * a[c].deps;
        assert j in Touching(a, a[c].deps);
      }
    }
  }

  lemma {:induction false} PassKnows<Eval>(eng: ContestEngine<Eval>, old_: Results<Eval>, v: View, c: QsoId,
                                           a: Results<Eval>, b: Results<Eval>, impacted: set<QsoId>, first: bool)
    requires WellFormed(v) && Inv(eng, old_, v, c, a, impacted, first) && Passed(eng, v, a, b, impacted)
    ensures Known(eng, v, b, c) && AppliedRight(eng, v, b, c)
  {
    forall id ensures AppliedRight(eng, v, b, id) {
      if id in impacted {
        assert id in v.order <==> id in v.records;
        if id in b { var p :| 0 <= p < |v.order| && v.order[p] == id; }
      } else {
        assert AppliedRight(eng, v, a, id);
      }
    }
  }

  lemma {:induction false} InvStep<Eval>(eng: ContestEngine<Eval>, old_: Results<Eval>, v: View, c: QsoId,
                                         a: Results<Eval>, b: Results<Eval>, impacted: set<QsoId>, first: bool)
    requires WellFormed(v) && Inv(eng, old_, v, c, a, impacted, first) && Passed(eng, v, a, b, impacted)
    ensures Inv(eng, old_, v, c, b, Expand(a, b, v.order, impacted), false)
  {
    var grown := Expand(a, b, v.order, impacted);
    PassKnows(eng, old_, v, c, a, b, impacted, first);
    forall id | id in b && id !in impacted ensures Kept(old_, b, id) {
      assert Kept(old_, a, id);
    }
    forall id | id in b && id in grown && id != c ensures Kept(old_, b, id) || Closed(b, grown, id) {
      if id in impacted && !Kept(old_, b, id) {
        StepOther(eng, old_, v, c, a, b, impacted, first, id);
      }
    }
    forall id | id in b && id != c && c in old_ && b[id].deps * old_[c].deps != {} ensures id in grown {
      assert AppliedRight(eng, v, a, id) && AppliedRight(eng, v, b, id);
    }
    if c in b { StepChanged(eng, old_, v, c, a, b, impacted, first); }
  }

  // ---- loop exit --------------------------------------------------------------

  /** Non-impacted records share no key with the changed record, old or new. */
  ghost predicate Apart<Eval>(old_: Results<Eval>, b: Results<Eval>, c: QsoId, keys: set<DepKey>) {
    (c in old_ ==> keys * old_[c].deps == {}) && (c in b ==> keys * b[c].deps == {})
  }

  lemma {:induction false} ApartFromOne<Eval>(old_: Results<Eval>, b: Results<Eval>, c: QsoId, keys: set<DepKey>,
                                              k: DepKey)
    requires Apart(old_, b, c, keys) && k in keys
    ensures Apart(old_, b, c, {k})
  {
    assert forall s: set<DepKey> :: keys * s == {} ==> {k} * s == {};
  }

  lemma {:induction false} OutsidersAreApart<Eval>(eng: ContestEngine<Eval>, old_: Results<Eval>, v: View, c: QsoId,
                                                   b: Results<Eval>, impacted: set<QsoId>, j: QsoId)
    requires Inv(eng, old_, v, c, b, impacted, false) && j in b && j !in impacted
    ensures Apart(old_, b, c, b[j].deps)
  {
    assert c in b ==> (j in Touching(b, b[c].deps) <==> b[j].deps * b[c].deps != {});
  }

  /** A key the changed record never carried has the same earlier users before and after the op. */
  lemma {:induction false} EarlierUnchanged<Eval>(eng: ContestEngine<Eval>, before: View, after: View, c: QsoId,
                                                  b: Results<Eval>, p: nat, k: DepKey)
    requires OneChange(before, after, c) && p < |after.order| && after.order[p] != c
    requires AppliedRight(eng, after, b, c)
    requires Apart(Recompute(eng, before), b, c, {k})
    ensures p < |before.order| && before.order[p] == after.order[p]
    ensures Earlier(eng, before, p, k) == Earlier(eng, after, p, k)
  {
    hide Recompute;
    assert c in after.order;
    assert p < |before.order| && after.order[..p] == before.order[..p];
    RecomputeApplies(eng, before, c);
    CarriesNot(eng, before, after, c, Recompute(eng, before), b, k);
    forall x ensures x in Earlier(eng, before, p, k) <==> x in Earlier(eng, after, p, k) {
      if x != c { assert Live(before, x) <==> Live(after, x); }
    }
  }

  lemma {:induction false} CarriesNot<Eval>(eng: ContestEngine<Eval>, before: View, after: View, c: QsoId,
                                            old_: Results<Eval>, b: Results<Eval>, k: DepKey)
    requires AppliedRight(eng, before, old_, c) && AppliedRight(eng, after, b, c) && Apart(old_, b, c, {k})
    ensures Live(before, c) ==> k !in eng.deps(before.records[c])
    ensures Live(after, c) ==> k !in eng.deps(after.records[c])
  {
    assert forall s: set<DepKey> :: k in s <==> k in {k} * s;
  }

  /** The results before the op were right, position by position. */
  lemma {:induction false} WasRight<Eval>(eng: ContestEngine<Eval>, before: View, after: View, c: QsoId, p: nat)
    requires OneChange(before, after, c) && p < |after.order| && after.order[p] != c
    requires after.order[p] in Recompute(eng, before)
    ensures p < |before.order| && before.order[p] == after.order[p] && after.order[p] in before.records
    ensures before.records[before.order[p]] == after.records[after.order[p]]
    ensures Recompute(eng, before)[after.order[p]] == RightValue(eng, before, p)
  {
    hide Recompute, RecomputePrefix;
    RecomputeApplies(eng, before, after.order[p]);
    assert after.order[p] in before.order && p < |before.order|;
    RecomputeAt(eng, before, p);
  }

  lemma {:induction false} RecomputeAt<Eval>(eng: ContestEngine<Eval>, v: View, p: nat)
    requires Distinct(v.order) && p < |v.order| && Live(v, v.order[p])
    ensures v.order[p] in Recompute(eng, v) && Recompute(eng, v)[v.order[p]] == RightValue(eng, v, p)
  {
    RecomputeIsProjection(eng, v, |v.order|);
    assert v.order[..|v.order|] == v.order;
  }

  /** A kept record saw, when it was right before the op, what it should see now. */
  lemma {:induction false} OutsiderIsRight<Eval>(eng: ContestEngine<Eval>, before: View, after: View, c: QsoId,
                                                 b: Results<Eval>, p: nat)
    requires OneChange(before, after, c) && p < |after.order|
    requires var id := after.order[p];
      id != c && Kept(Recompute(eng, before), b, id) && AppliedRight(eng, after, b, c) &&
      Apart(Recompute(eng, before), b, c, b[id].deps)
    ensures after.order[p] in after.records && b[after.order[p]] == RightValue(eng, after, p)
  {
    hide Recompute, WellFormed, Earlier, AppliedRight;
    var id := after.order[p];
    WasRight(eng, before, after, c, p);
    var deps := eng.deps(after.records[id]);
    assert b[id] == RightValue(eng, before, p);
    forall k | k in deps ensures Earlier(eng, before, p, k) == Earlier(eng, after, p, k) {
      ApartFromOne(Recompute(eng, before), b, c, b[id].deps, k);
      EarlierUnchanged(eng, before, after, c, b, p, k);
    }
    assert (map k | k in deps :: |Earlier(eng, before, p, k)|) == (map k | k in deps :: |Earlier(eng, after, p, k)|);
  }

  /** A closed impacted record sees exactly its earlier users: no later outsider shares its keys. */
  lemma {:induction false} ClosedSeesEarlier<Eval>(eng: ContestEngine<Eval>, v: View, c: QsoId, b: Results<Eval>,
                                                   impacted: set<QsoId>, p: nat, k: DepKey)
    requires WellFormed(v) && p < |v.order| && Known(eng, v, b, c) && AppliedRight(eng, v, b, c)
    requires v.order[p] in b && k in b[v.order[p]].deps
    requires forall j :: j in b && k in b[j].deps ==> j in impacted
    ensures Mixed(b, impacted, v.order, p, k) == Earlier(eng, v, p, k)
  {
    forall x ensures x in Mixed(b, impacted, v.order, p, k) <==> x in Earlier(eng, v, p, k) {
      assert AppliedRight(eng, v, b, x);
    }
  }

  lemma {:induction false} ClosedIsRight<Eval>(eng: ContestEngine<Eval>, v: View, c: QsoId, b: Results<Eval>,
                                               impacted: set<QsoId>, p: nat)
    requires WellFormed(v) && p < |v.order| && Known(eng, v, b, c) && AppliedRight(eng, v, b, c)
    requires v.order[p] in b && v.order[p] in v.records && Closed(b, impacted, v.order[p])
    requires b[v.order[p]] == MixedValue(eng, v, b, impacted, p)
    ensures b[v.order[p]] == RightValue(eng, v, p)
  {
    var id := v.order[p];
    var deps := eng.deps(v.records[id]);
    forall k | k in deps ensures Mixed(b, impacted, v.order, p, k) == Earlier(eng, v, p, k) {
      forall j | j in b && k in b[j].deps ensures j in impacted {
        assert k in b[j].deps * b[id].deps;
        assert j in Touching(b, b[id].deps);
      }
      ClosedSeesEarlier(eng, v, c, b, impacted, p, k);
    }
    assert (map k | k in deps :: |Mixed(b, impacted, v.order, p, k)|) == (map k | k in deps :: |Earlier(eng, v, p, k)|);
  }

  /**
   * The heart of law (L): a kept record that shares key `k` with an outsider saw under `k` the same
   * count as before the op, and that count was and is right.
   */
  lemma {:induction false} RevealedCount<Eval(!new)>(eng: ContestEngine<Eval>, before: View, after: View, c: QsoId,
                                                     b: Results<Eval>, impacted: set<QsoId>, p: nat, k: DepKey)
    requires OneChange(before, after, c) && Revealing(eng) && p < |after.order| && after.order[p] in after.records
    requires after.order[p] != c && Kept(Recompute(eng, before), b, after.order[p])
    requires b[after.order[p]] == MixedValue(eng, after, b, impacted, p)
    requires AppliedRight(eng, after, b, c) && Apart(Recompute(eng, before), b, c, {k})
    requires k in eng.deps(after.records[after.order[p]])
    ensures |Mixed(b, impacted, after.order, p, k)| == |Earlier(eng, after, p, k)|
  {
    hide Recompute, WellFormed, Earlier, Mixed, AppliedRight;
    var id := after.order[p];
    var rec := after.records[id];
    WasRight(eng, before, after, c, p);
    EarlierUnchanged(eng, before, after, c, b, p, k);
    var seen := map x | x in eng.deps(rec) :: |Mixed(b, impacted, after.order, p, x)|;
    var then_ := map x | x in eng.deps(rec) :: |Earlier(eng, before, p, x)|;
    assert eng.eval(rec, seen) == eng.eval(rec, then_);
    assert seen == then_;
    assert seen[k] == then_[k];
  }

  /** Under (L) an impacted record is right at exit whether or not it is closed. */
  lemma {:induction false} RevealingIsRight<Eval(!new)>(eng: ContestEngine<Eval>, before: View, after: View, c: QsoId,
                                                        b: Results<Eval>, impacted: set<QsoId>, p: nat)
    requires OneChange(before, after, c) && Revealing(eng) && p < |after.order| && after.order[p] in after.records
    requires Inv(eng, Recompute(eng, before), after, c, b, impacted, false)
    requires after.order[p] != c && Kept(Recompute(eng, before), b, after.order[p])
    requires b[after.order[p]] == MixedValue(eng, after, b, impacted, p)
    ensures b[after.order[p]] == RightValue(eng, after, p)
  {
    var old_, id := Recompute(eng, before), after.order[p];
    var deps := eng.deps(after.records[id]);
    forall k | k in deps ensures |Mixed(b, impacted, after.order, p, k)| == |Earlier(eng, after, p, k)| {
      if j :| j in b && k in b[j].deps && j !in impacted {
        OutsidersAreApart(eng, old_, after, c, b, impacted, j);
        ApartFromOne(old_, b, c, b[j].deps, k);
        RevealedCount(eng, before, after, c, b, impacted, p, k);
      } else {
        ClosedSeesEarlier(eng, after, c, b, impacted, p, k);
      }
    }
    assert (map k | k in deps :: |Mixed(b, impacted, after.order, p, k)|)
        == (map k | k in deps :: |Earlier(eng, after, p, k)|);
  }

  /** Every impacted record is closed, or the engine reveals what it sees. */
  ghost predicate Settled<Eval(!new)>(eng: ContestEngine<Eval>, b: Results<Eval>, impacted: set<QsoId>) {
    Revealing(eng) || forall id :: id in b && id in impacted ==> Closed(b, impacted, id)
  }

  lemma {:induction false} ExitIsRight<Eval(!new)>(eng: ContestEngine<Eval>, before: View, after: View, c: QsoId,
                                                   a: Results<Eval>, b: Results<Eval>, impacted: set<QsoId>)
    requires OneChange(before, after, c)
    requires Inv(eng, Recompute(eng, before), after, c, b, impacted, false)
    requires Passed(eng, after, a, b, impacted) && Settled(eng, b, impacted)
    ensures b == Recompute(eng, after)
  {
    hide Recompute, RecomputePrefix, Passed, RightValue, Revealing, WellFormed;
    assert after.order[..|after.order|] == after.order;
    ExitKeys(eng, before, after, c, b, impacted);
    forall p | 0 <= p < |after.order| && Live(after, after.order[p])
      ensures b[after.order[p]] == RightValue(eng, after, p)
    {
      ExitValue(eng, before, after, c, a, b, impacted, p);
    }
    assert IsProjection(eng, after, |after.order|, b);
    AfterIsDistinct(before, after, c);
    RecomputeIsProjection(eng, after, |after.order|) by { AfterIsDistinct(before, after, c); }
    ProjectionIsUnique(eng, after, b, Recompute(eng, after)) by { RecomputeUnfolds(eng, after); }
  }

  lemma {:induction false} RecomputeUnfolds<Eval>(eng: ContestEngine<Eval>, v: View)
    ensures Recompute(eng, v) == RecomputePrefix(eng, v, |v.order|)
  {
  }

  lemma {:induction false} AfterIsDistinct(before: View, after: View, c: QsoId)
    requires OneChange(before, after, c)
    ensures Distinct(after.order) && forall id :: id in after.order <==> id in after.records
  {
  }

  lemma {:induction false} ExitKeys<Eval>(eng: ContestEngine<Eval>, before: View, after: View, c: QsoId,
                                          b: Results<Eval>, impacted: set<QsoId>)
    requires OneChange(before, after, c)
    requires Inv(eng, Recompute(eng, before), after, c, b, impacted, false)
    ensures forall id :: id in b <==> id in after.order && Live(after, id)
  {
    hide Recompute, WellFormed;
    AfterIsDistinct(before, after, c);
    forall id ensures id in b <==> id in after.order && Live(after, id) {
      assert AppliedRight(eng, after, b, id);
    }
  }

  lemma {:induction false} ExitValue<Eval(!new)>(eng: ContestEngine<Eval>, before: View, after: View, c: QsoId,
                                                 a: Results<Eval>, b: Results<Eval>, impacted: set<QsoId>, p: nat)
    requires OneChange(before, after, c)
    requires Inv(eng, Recompute(eng, before), after, c, b, impacted, false)
    requires Passed(eng, after, a, b, impacted) && Settled(eng, b, impacted)
    requires p < |after.order| && Live(after, after.order[p])
    ensures after.order[p] in b && b[after.order[p]] == RightValue(eng, after, p)
  {
    hide Recompute, RightValue, MixedValue, Revealing;
    var id := after.order[p];
    assert AppliedRight(eng, after, b, id);
    if id !in impacted {
      assert Kept(Recompute(eng, before), b, id);
      OutsidersAreApart(eng, Recompute(eng, before), after, c, b, impacted, id);
      OutsiderIsRight(eng, before, after, c, b, p);
    } else if Closed(b, impacted, id) {
      ClosedIsRight(eng, after, c, b, impacted, p);
    } else {
      RevealingIsRight(eng, before, after, c, b, impacted, p);
    }
  }
}

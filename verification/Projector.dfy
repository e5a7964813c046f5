/**
 * The projector as an object (src/engine/projector.rs:24-228). Its engine state and dependency
 * index are caches: in a valid projector both are determined by the applied results.
 */
module Projector {
  import opened Wrappers
  import opened Qso
  import opened Operation
  import opened StoreModel
  import opened Store
  import opened Engine
  import opened Projection

  datatype ProjectorError = MissingRecord(id: QsoId)

  // ---- the caches under one retract or one apply -------------------------------

  function AddLinks(index: map<DepKey, set<QsoId>>, id: QsoId, deps: set<DepKey>): map<DepKey, set<QsoId>> {
    map k | k in index.Keys + deps ::
      if k !in deps then index[k] else if k in index then index[k] + {id} else {id}
  }

  function RemoveLinks(index: map<DepKey, set<QsoId>>, id: QsoId, deps: set<DepKey>): map<DepKey, set<QsoId>> {
    map k | k in index && !(k in deps && index[k] - {id} == {}) :: if k in deps then index[k] - {id} else index[k]
  }

  lemma {:induction false} DepsAreUsed<Eval>(a: Results<Eval>, k: DepKey)
    ensures k in AllDeps(a) <==> Users(a, k) != {}
  {
    if x :| x in Users(a, k) {
      assert k in AllDeps(a);
    }
    if k in AllDeps(a) {
      var x :| x in a && k in a[x].deps;
      assert x in Users(a, k);
    }
  }

  /** The cached entries of one key: present exactly when the key is used, and exact. */
  lemma {:induction false} CacheEntry<Eval>(a: Results<Eval>, k: DepKey)
    ensures k in CountsOf(a) <==> Users(a, k) != {}
    ensures k in CountsOf(a) ==> CountsOf(a)[k] == |Users(a, k)|
    ensures k in IndexOf(a) <==> Users(a, k) != {}
    ensures k in IndexOf(a) ==> IndexOf(a)[k] == Users(a, k)
  {
    DepsAreUsed(a, k);
  }

  lemma {:induction false} UsersAfterApply<Eval>(a: Results<Eval>, id: QsoId, ap: EngineApplied<Eval>, k: DepKey)
    requires id !in a
    ensures id !in Users(a, k)
    ensures Users(a[id := ap], k) == if k in ap.deps then Users(a, k) + {id} else Users(a, k)
  {
  }

  lemma {:induction false} UsersAfterRetract<Eval>(a: Results<Eval>, id: QsoId, k: DepKey)
    requires id in a
    ensures k in a[id].deps <==> id in Users(a, k)
    ensures Users(a - {id}, k) == Users(a, k) - {id}
    ensures |Users(a - {id}, k)| == |Users(a, k)| - (if k in a[id].deps then 1 else 0)
  {
    assert k !in a[id].deps ==> Users(a - {id}, k) == Users(a, k);
  }

  /** Applying one more record: counts go up by one per key, links appear, and the caches stay exact. */
  lemma {:induction false} CachesAfterApply<Eval>(a: Results<Eval>, id: QsoId, ap: EngineApplied<Eval>)
    requires id !in a
    ensures CountsOf(a[id := ap]) == Increment(CountsOf(a), ap.deps)
    ensures IndexOf(a[id := ap]) == AddLinks(IndexOf(a), id, ap.deps)
  {
    hide CountsOf, IndexOf, Users;
    var a' := a[id := ap];
    forall k
      ensures k in CountsOf(a') <==> k in Increment(CountsOf(a), ap.deps)
      ensures k in CountsOf(a') ==> CountsOf(a')[k] == Increment(CountsOf(a), ap.deps)[k]
    {
      CacheEntry(a, k);
      CacheEntry(a', k);
      UsersAfterApply(a, id, ap, k);
    }
    forall k
      ensures k in IndexOf(a') <==> k in AddLinks(IndexOf(a), id, ap.deps)
      ensures k in IndexOf(a') ==> IndexOf(a')[k] == AddLinks(IndexOf(a), id, ap.deps)[k]
    {
      CacheEntry(a, k);
      CacheEntry(a', k);
      UsersAfterApply(a, id, ap, k);
    }
  }

  /**
   * Retracting an applied record: its keys are all counted, so the saturating decrement never
   * saturates, and the caches stay exact with no zero count and no empty link set left behind.
   */
  lemma {:induction false} CachesAfterRetract<Eval>(a: Results<Eval>, id: QsoId)
    requires id in a
    ensures forall k :: k in a[id].deps ==> k in CountsOf(a) && CountsOf(a)[k] > 0
    ensures CountsOf(a - {id}) == Decrement(CountsOf(a), a[id].deps)
    ensures IndexOf(a - {id}) == RemoveLinks(IndexOf(a), id, a[id].deps)
  {
    hide CountsOf, IndexOf, Users;
    var a', deps := a - {id}, a[id].deps;
    forall k
      ensures k in deps ==> k in CountsOf(a) && CountsOf(a)[k] > 0
      ensures k in CountsOf(a') <==> k in Decrement(CountsOf(a), deps)
      ensures k in CountsOf(a') ==> CountsOf(a')[k] == Decrement(CountsOf(a), deps)[k]
    {
      CacheEntry(a, k);
      CacheEntry(a', k);
      UsersAfterRetract(a, id, k);
    }
    forall k
      ensures k in IndexOf(a') <==> k in RemoveLinks(IndexOf(a), id, deps)
      ensures k in IndexOf(a') ==> IndexOf(a')[k] == RemoveLinks(IndexOf(a), id, deps)[k]
    {
      CacheEntry(a, k);
      CacheEntry(a', k);
      UsersAfterRetract(a, id, k);
    }
  }

  /** An engine application on exact counts is an evaluation against the applied results. */
  lemma {:induction false} ApplyEvaluates<Eval>(eng: ContestEngine<Eval>, a: Results<Eval>, rec: QsoRecord)
    ensures Apply(eng, CountsOf(a), rec).1 == Evaluate(eng, a, rec)
    ensures Apply(eng, CountsOf(a), rec).0 == Increment(CountsOf(a), eng.deps(rec))
  {
    forall k ensures Count(CountsOf(a), k) == |Users(a, k)| {
      CacheEntry(a, k);
    }
    assert Seen(CountsOf(a), eng.deps(rec)) == map k | k in eng.deps(rec) :: |Users(a, k)|;
  }

  /** Following a key through the index reaches the applied ids that carry it. */
  lemma {:induction false} IndexReaches<Eval>(a: Results<Eval>, k: DepKey)
    ensures (if k in IndexOf(a) then IndexOf(a)[k] else {}) == Touching(a, {k})
  {
    DepsAreUsed(a, k);
    forall id ensures id in Users(a, k) <==> id in Touching(a, {k}) {
      if id in Users(a, k) { assert k in a[id].deps * {k}; }
    }
  }

  lemma {:induction false} TouchingUnion<Eval>(a: Results<Eval>, s: set<DepKey>, t: set<DepKey>)
    ensures Touching(a, s + t) == Touching(a, s) + Touching(a, t)
    ensures Touching(a, {}) == {}
  {
    forall id | id in a ensures a[id].deps * (s + t) != {} <==> a[id].deps * s != {} || a[id].deps * t != {} {
      assert a[id].deps * (s + t) == a[id].deps * s + a[id].deps * t;
    }
  }

  // ---- retract pairing -----------------------------------------------------------

  /** The record a first-pass retract rebuilds from the op for the changed id. */
  function Rebuilt(op: Op, current: QsoRecord): QsoRecord {
    match op
    case OpInsert(_) => current
    case OpPatch(_, _, prev) => prev.Patched(current)
    case OpVoid(_, prevIsVoid) => current.WithVoid(prevIsVoid)
  }

  /**
   * The rebuilt record is the one from before the op exactly when the op is not a void whose
   * belief about the flag was wrong.
   */
  lemma {:induction false} RebuiltIsOldIff(v: View, op: Op)
    requires WellFormed(v) && Applicable(v, op) && Recorded(v, op) == op && !op.OpInsert?
    ensures op.id in v.records
    ensures Rebuilt(op, Applied(v, op).records[op.id]) == v.records[op.id]
       <==> (op.OpVoid? ==> v.records[op.id].flags.isVoid == op.prevIsVoid)
  {
    if op.OpPatch? { InverseUndoesPatch(op.patch, v.records[op.id]); }
  }

  /** What the projector must have been given for its next retracts to be paired. */
  predicate Remembers(given: map<QsoId, QsoRecord>, v: View, changed: QsoId, old_: Option<QsoRecord>) {
    forall id :: id in given && id in v.records ==>
      given[id] == if id == changed && old_.Some? then old_.value else v.records[id]
  }

  // ---- the object -----------------------------------------------------------------

  class Projector<Eval(==)> {
    const engine: ContestEngine<Eval>
    var state: Counts
    var applied: Results<Eval>
    var depIndex: map<DepKey, set<QsoId>>
    /** The record handed to the last `apply` of each applied id. */
    ghost var given: map<QsoId, QsoRecord>
    /** Whether every `retract` so far received the record of its matching `apply`. */
    ghost var paired: bool

    ghost predicate Valid()
      reads this
    {
      state == CountsOf(applied) && depIndex == IndexOf(applied) && given.Keys == applied.Keys
    }

    constructor (engine: ContestEngine<Eval>)
      ensures Valid() && this.engine == engine && applied == map[] && paired
    {
      this.engine := engine;
      state, applied, depIndex := map[], map[], map[];
      given, paired := map[], true;
    }

    method AddDepLinks(id: QsoId, deps: set<DepKey>)
      modifies this`depIndex
      ensures depIndex == AddLinks(old(depIndex), id, deps)
    {
      var todo := deps;
      assert deps - todo == {};
      while todo != {}
        invariant todo <= deps
        invariant depIndex == AddLinks(old(depIndex), id, deps - todo)
        decreases todo
      {
        var k :| k in todo;
        depIndex := depIndex[k := if k in depIndex then depIndex[k] + {id} else {id}];
        todo := todo - {k};
      }
      assert deps - todo == deps;
    }

    method RemoveDepLinks(id: QsoId, deps: set<DepKey>)
      modifies this`depIndex
      ensures depIndex == RemoveLinks(old(depIndex), id, deps)
    {
      var todo := deps;
      assert deps - todo == {};
      while todo != {}
        invariant todo <= deps
        invariant depIndex == RemoveLinks(old(depIndex), id, deps - todo)
        decreases todo
      {
        var k :| k in todo;
        if k in depIndex {
          depIndex := depIndex[k := depIndex[k] - {id}];
          if depIndex[k] == {} { depIndex := depIndex - {k}; }
        }
        todo := todo - {k};
      }
      assert deps - todo == deps;
    }

    /** Removes one applied id from results, engine state and index. */
    method RetractOne(id: QsoId, rec: QsoRecord)
      requires Valid() && id in applied
      modifies this
      ensures Valid() && applied == old(applied) - {id}
      ensures given == old(given) - {id}
      ensures paired == (old(paired) && rec == old(given)[id])
    {
      hide CountsOf, IndexOf, Decrement, RemoveLinks;
      CachesAfterRetract(applied, id);
      var oldApplied := applied[id];
      applied := applied - {id};
      paired := paired && rec == given[id];
      given := given - {id};
      state := Decrement(state, oldApplied.deps);
      RemoveDepLinks(id, oldApplied.deps);
    }

    method ApplyOne(id: QsoId, rec: QsoRecord)
      requires Valid() && id !in applied
      modifies this
      ensures Valid() && applied == old(applied)[id := Evaluate(engine, old(applied), rec)]
      ensures given == old(given)[id := rec] && paired == old(paired)
    {
      hide CountsOf, IndexOf, Increment, AddLinks;
      ApplyEvaluates(engine, applied, rec);
      var (next, result) := Apply(engine, state, rec);
      CachesAfterApply(applied, id, result);
      state := next;
      AddDepLinks(id, result.deps);
      applied := applied[id := result];
      given := given[id := rec];
    }

    /** First loop of a pass: takes every applied impacted id out, in canonical order. */
    method RetractImpacted(store: QsoStore, impacted: set<QsoId>, changed: QsoId, oldRecord: Option<QsoRecord>)
      returns (removed: Results<Eval>)
      requires Valid() && store.Valid()
      modifies this
      ensures Valid() && applied == Unapply(old(applied), store.order, impacted)
      ensures removed == Taken(old(applied), store.order, impacted)
      ensures given == Unapply(old(given), store.order, impacted)
      ensures old(paired) && Remembers(old(given), store.CurrentView(), changed, oldRecord) ==> paired
    {
      hide CountsOf, IndexOf, Consistent, Unapply, Taken, Distinct;
      OrderIsFiled(store);
      UnapplyStart(old(applied), impacted);
      UnapplyStart(old(given), impacted);
      removed := map[];
      for i := 0 to |store.order|
        invariant Valid()
        invariant applied == Unapply(old(applied), store.order[..i], impacted)
        invariant removed == Taken(old(applied), store.order[..i], impacted)
        invariant given == Unapply(old(given), store.order[..i], impacted)
        invariant old(paired) && Remembers(old(given), store.CurrentView(), changed, oldRecord) ==> paired
      {
        var id := store.order[i];
        UnapplyStep(old(applied), store.order, i, impacted);
        UnapplyStep(old(given), store.order, i, impacted);
        if id in impacted && id in applied {
          var rec := if id == changed && oldRecord.Some? then oldRecord.value else store.records[id];
          removed := removed[id := applied[id]];
          RetractOne(id, rec);
        }
      }
      assert store.order[..|store.order|] == store.order;
    }

    /** Second loop of a pass: applies every live impacted record again, in canonical order. */
    method ReapplyImpacted(store: QsoStore, impacted: set<QsoId>) returns (added: Results<Eval>)
      requires Valid() && store.Valid()
      requires forall id :: id in store.order && id in impacted ==> id !in applied
      modifies this
      ensures Valid() && paired == old(paired)
      ensures applied == ReapplyPrefix(engine, old(applied), store.CurrentView(), impacted, |store.order|)
      ensures added == Taken(applied, store.order, impacted)
      ensures GivenAgain(old(given), given, store.records, store.order, impacted)
    {
      hide CountsOf, IndexOf, Consistent, Taken, ReapplyPrefix, Distinct, Evaluate;
      OrderIsFiled(store);
      ReapplyNone(engine, applied, store.CurrentView(), impacted);
      added := map[];
      UnapplyStart(applied, impacted);
      for i := 0 to |store.order|
        invariant Valid() && paired == old(paired)
        invariant applied == ReapplyPrefix(engine, old(applied), store.CurrentView(), impacted, i)
        invariant added == Taken(applied, store.order[..i], impacted)
        invariant GivenAgain(old(given), given, store.records, store.order[..i], impacted)
      {
        var id := store.order[i];
        assert store.order[..i + 1] == store.order[..i] + [id];
        ReapplyNext(engine, old(applied), store.CurrentView(), impacted, i);
        TakenStep(applied, Evaluate(engine, applied, store.records[id]), store.order, i, impacted);
        if id in impacted && !store.records[id].flags.isVoid {
          ApplyOne(id, store.records[id]);
          added := added[id := applied[id]];
        }
      }
      assert store.order[..|store.order|] == store.order;
    }

    /** Third loop of a pass: what each impacted id's old and new result say has changed. */
    method CollectChangedKeys(removed: Results<Eval>, added: Results<Eval>,
                              impacted: set<QsoId>) returns (keys: set<DepKey>)
      ensures keys == KeysBetween(removed, added, impacted)
    {
      keys := {};
      var todo := impacted;
      while todo != {}
        invariant todo <= impacted
        invariant keys == KeysBetween(removed, added, impacted - todo)
        decreases todo
      {
        var id :| id in todo;
        KeysBetweenStep(removed, added, impacted - todo, id);
        var newKeys := KeysChanged(Get(removed, id), Get(added, id));
        keys := keys + newKeys;
        assert impacted - (todo - {id}) == impacted - todo + {id};
        todo := todo - {id};
      }
      assert impacted - todo == impacted;
    }

    method RecomputeImpacted(store: QsoStore, impacted: set<QsoId>, changed: QsoId, oldRecord: Option<QsoRecord>)
      returns (changedKeys: set<DepKey>)
      requires Valid() && store.Valid()
      modifies this
      ensures Valid() && applied == Pass(engine, old(applied), store.CurrentView(), impacted)
      ensures changedKeys == ChangedKeys(old(applied), applied, store.order, impacted)
      ensures GivenAgain(old(given), given, store.records, store.order, impacted)
      ensures old(paired) && Remembers(old(given), store.CurrentView(), changed, oldRecord) ==> paired
    {
      hide CountsOf, IndexOf, Consistent, KeysBetween, ChangedKeys, Taken;
      var removed := RetractImpacted(store, impacted, changed, oldRecord);
      var added := ReapplyImpacted(store, impacted);
      changedKeys := CollectChangedKeys(removed, added, impacted);
      ChangedKeysBetween(old(applied), applied, store.order, impacted);
    }

    /** Adds everything the keys reach through the index. */
    method Reach(keys: set<DepKey>, impacted: set<QsoId>) returns (grown: set<QsoId>)
      requires Valid()
      ensures grown == impacted + Touching(applied, keys)
    {
      hide Touching, IndexOf;
      grown := impacted;
      var todo := keys;
      TouchingUnion(applied, {}, {});
      assert keys - todo == {};
      while todo != {}
        invariant todo <= keys
        invariant grown == impacted + Touching(applied, keys - todo)
        decreases todo
      {
        var k :| k in todo;
        IndexReaches(applied, k);
        TouchingUnion(applied, keys - todo, {k});
        assert keys - (todo - {k}) == keys - todo + {k};
        if k in depIndex { grown := grown + depIndex[k]; }
        todo := todo - {k};
      }
      assert keys - todo == keys;
    }

    method IncrementalReconcile(store: QsoStore, changed: QsoId, oldRecord: Option<QsoRecord>)
      requires Valid() && store.Valid()
      modifies this
      ensures Valid() && applied == Project(engine, old(applied), store.CurrentView(), changed).results
      ensures old(paired) && Remembers(old(given), store.CurrentView(), changed, oldRecord) ==> paired
      ensures Remembers(old(given), store.CurrentView(), changed, oldRecord) ==>
        Remembers(given, store.CurrentView(), changed, None)
    {
      hide CountsOf, IndexOf, Consistent, Expand, Touching, Pass, Remembers, Reconcile, Project, IdsOf;
      ghost var v, target := store.CurrentView(), Project(engine, applied, store.CurrentView(), changed).results;
      ProjectStarts(engine, applied, v, changed);
      var impacted := {changed};
      if changed in applied {
        impacted := Reach(applied[changed].deps, impacted);
      }
      ghost var first := Remembers(given, store.CurrentView(), changed, oldRecord);
      var oldRecordOnce := oldRecord;
      var growing := true;
      while growing
        invariant Valid() && changed in impacted
        invariant (if growing then Reconcile(engine, applied, v, impacted).results else applied) == target
        invariant first ==> Remembers(given, store.CurrentView(), changed, if growing then oldRecordOnce else None)
        invariant first && old(paired) ==> paired
        decreases growing, |applied.Keys + IdsOf(store.order) - impacted|
      {
        ReconcileOnce(engine, applied, v, impacted);
        var grown := PassAndGrow(store, impacted, changed, oldRecordOnce);
        oldRecordOnce := None;
        growing := grown != impacted;
        impacted := grown;
      }
    }

    /** One round of the loop: a pass, and what its changed keys reach. */
    method PassAndGrow(store: QsoStore, impacted: set<QsoId>, changed: QsoId, oldRecord: Option<QsoRecord>)
      returns (grown: set<QsoId>)
      requires Valid() && store.Valid() && changed in impacted
      modifies this
      ensures Valid() && applied == Pass(engine, old(applied), store.CurrentView(), impacted)
      ensures grown == Expand(old(applied), applied, store.order, impacted)
      ensures changed in grown
      ensures Remembers(old(given), store.CurrentView(), changed, oldRecord) ==>
        Remembers(given, store.CurrentView(), changed, None) && (old(paired) ==> paired)
    {
      hide CountsOf, IndexOf, Consistent, ChangedKeys, Touching, Pass, GivenAgain, Remembers, Distinct;
      OrderIsFiled(store);
      var changedKeys := RecomputeImpacted(store, impacted, changed, oldRecord);
      GivenIsCurrent(old(given), given, store.CurrentView(), impacted, changed, oldRecord);
      grown := Reach(changedKeys, impacted);
    }

    /** Applies one stored op; a patch or void of an id the store does not hold is an error. */
    method ApplyStoredOp(store: QsoStore, stored: StoredOp) returns (result: Result<(), ProjectorError>)
      requires Valid() && store.Valid()
      modifies this
      ensures Valid()
      ensures !stored.op.OpInsert? && stored.op.id !in store.records ==>
        result == Failure(MissingRecord(stored.op.id)) && applied == old(applied) && paired == old(paired)
      ensures stored.op.OpInsert? || stored.op.id in store.records ==>
        result.Success? && applied == Project(engine, old(applied), store.CurrentView(), stored.op.Target()).results
      ensures Paired(old(given), store.records, stored.op) && old(paired) ==>
        paired && (result.Success? ==> Remembers(given, store.CurrentView(), stored.op.Target(), None))
    {
      hide CountsOf, IndexOf, Consistent, Project;
      var oldRecord: Option<QsoRecord> := None;
      match stored.op {
        case OpInsert(_) =>
        case OpPatch(id, _, prev) =>
          if id !in store.records { return Failure(MissingRecord(id)); }
          var rebuilt := prev.ApplyTo(store.records[id]);
          oldRecord := Some(rebuilt);
        case OpVoid(id, prevIsVoid) =>
          if id !in store.records { return Failure(MissingRecord(id)); }
          oldRecord := Some(store.records[id].WithVoid(prevIsVoid));
      }
      IncrementalReconcile(store, stored.op.Target(), oldRecord);
      result := Success(());
    }
  }

  lemma {:induction false} ReapplyNone<Eval>(eng: ContestEngine<Eval>, a: Results<Eval>, v: View, impacted: set<QsoId>)
    ensures ReapplyPrefix(eng, a, v, impacted, 0) == a
  {
  }

  /** One step of the re-application loop; the id it meets is not applied yet. */
  lemma {:induction false} ReapplyNext<Eval>(eng: ContestEngine<Eval>, a: Results<Eval>, v: View,
                                             impacted: set<QsoId>, i: nat)
    requires Distinct(v.order) && i < |v.order|
    requires v.order[i] in impacted ==> v.order[i] !in a
    ensures var b, id := ReapplyPrefix(eng, a, v, impacted, i), v.order[i];
      && (id in impacted ==> id !in b)
      && ReapplyPrefix(eng, a, v, impacted, i + 1)
         == if id in impacted && Live(v, id) then b[id := Evaluate(eng, b, v.records[id])] else b
  {
    ReapplyKeys(eng, a, v, impacted, i);
    assert v.order[i] !in v.order[..i];
  }

  lemma {:induction false} ProjectStarts<Eval>(eng: ContestEngine<Eval>, a: Results<Eval>, v: View, changed: QsoId)
    ensures Project(eng, a, v, changed) ==
      Reconcile(eng, a, v, {changed} + (if changed in a then Touching(a, a[changed].deps) else {}))
    ensures {changed} + {} == {changed}
  {
  }

  /** One unfolding of the reconcile loop, and why it comes to an end. */
  lemma {:induction false} ReconcileOnce<Eval>(eng: ContestEngine<Eval>, a: Results<Eval>, v: View,
                                               impacted: set<QsoId>)
    ensures var b := Pass(eng, a, v, impacted);
      var grown := Expand(a, b, v.order, impacted);
      Reconcile(eng, a, v, impacted).results == if grown == impacted then b else Reconcile(eng, b, v, grown).results
    ensures var b := Pass(eng, a, v, impacted);
      var grown := Expand(a, b, v.order, impacted);
      grown != impacted ==> |b.Keys + IdsOf(v.order) - grown| < |a.Keys + IdsOf(v.order) - impacted|
  {
    hide Pass, Expand;
    if Expand(a, Pass(eng, a, v, impacted), v.order, impacted) != impacted {
      NotYetImpactedShrinks(eng, a, v, impacted);
    }
  }

  /**
   * The records given to the engine are the current ones, except that the target's is the one
   * the op says it was.
   */
  predicate Paired(given: map<QsoId, QsoRecord>, records: map<QsoId, QsoRecord>, op: Op) {
    forall id :: id in given && id in records ==>
      given[id] == if id == op.Target() then Rebuilt(op, records[id]) else records[id]
  }

  lemma {:induction false} GivenIsCurrent(before: map<QsoId, QsoRecord>, given: map<QsoId, QsoRecord>, v: View,
                                          impacted: set<QsoId>, changed: QsoId, old_: Option<QsoRecord>)
    requires GivenAgain(before, given, v.records, v.order, impacted) && changed in impacted
    requires forall id :: id in v.records ==> id in v.order
    ensures Remembers(before, v, changed, old_) ==> Remembers(given, v, changed, None)
  {
  }

  function Get<V>(m: map<QsoId, V>, id: QsoId): Option<V> {
    if id in m then Some(m[id]) else None
  }

  function KeysBetween<Eval(==)>(removed: Results<Eval>, added: Results<Eval>, impacted: set<QsoId>): set<DepKey> {
    set id, k | id in impacted && k in KeysChanged(Get(removed, id), Get(added, id)) :: k
  }

  lemma {:induction false} KeysBetweenStep<Eval>(removed: Results<Eval>, added: Results<Eval>, done: set<QsoId>,
                                                 id: QsoId)
    ensures KeysBetween(removed, added, done + {id})
         == KeysBetween(removed, added, done) + KeysChanged(Get(removed, id), Get(added, id))
    ensures KeysBetween(removed, added, {}) == {}
  {
    hide KeysChanged;
  }

  lemma {:induction false} ChangedKeysBetween<Eval>(a: Results<Eval>, b: Results<Eval>, order: seq<QsoId>,
                                                    impacted: set<QsoId>)
    ensures ChangedKeys(a, b, order, impacted)
         == KeysBetween(Taken(a, order, impacted), Taken(b, order, impacted), impacted)
  {
    hide KeysChanged;
    forall id | id in impacted
      ensures Lookup(a, order, id) == Get(Taken(a, order, impacted), id)
      ensures Lookup(b, order, id) == Get(Taken(b, order, impacted), id)
    {
    }
  }

  function Taken<V>(a: map<QsoId, V>, order: seq<QsoId>, impacted: set<QsoId>): map<QsoId, V> {
    map id | id in a && id in impacted && id in order :: a[id]
  }

  lemma {:induction false} UnapplyStart<V>(a: map<QsoId, V>, impacted: set<QsoId>)
    ensures Unapply(a, [], impacted) == a && Taken(a, [], impacted) == map[]
  {
  }

  lemma {:induction false} UnapplyStep<V>(a: map<QsoId, V>, order: seq<QsoId>, i: nat, impacted: set<QsoId>)
    requires Distinct(order) && i < |order|
    ensures var id, u, t := order[i], Unapply(a, order[..i], impacted), Taken(a, order[..i], impacted);
      && (id in u <==> id in a) && (id in a ==> u[id] == a[id])
      && Unapply(a, order[..i + 1], impacted) == (if id in impacted && id in a then u - {id} else u)
      && Taken(a, order[..i + 1], impacted) == (if id in impacted && id in a then t[id := a[id]] else t)
  {
    assert order[..i + 1] == order[..i] + [order[i]];
    assert order[i] !in order[..i];
  }

  lemma {:induction false} TakenStep<V>(a: map<QsoId, V>, x: V, order: seq<QsoId>, i: nat, impacted: set<QsoId>)
    requires Distinct(order) && i < |order| && (order[i] in impacted ==> order[i] !in a)
    ensures Taken(a, order[..i + 1], impacted) == Taken(a, order[..i], impacted)
    ensures order[i] in impacted ==>
      Taken(a[order[i] := x], order[..i + 1], impacted) == Taken(a, order[..i], impacted)[order[i] := x]
  {
    assert order[..i + 1] == order[..i] + [order[i]];
    assert order[i] !in order[..i];
  }

  /** After re-applying the listed impacted ids: they carry the current record, others what they had. */
  ghost predicate GivenAgain(before: map<QsoId, QsoRecord>, given: map<QsoId, QsoRecord>,
                             records: map<QsoId, QsoRecord>, order: seq<QsoId>, impacted: set<QsoId>)
  {
    forall id :: id in given ==>
      if id in impacted && id in order then id in records && given[id] == records[id]
      else id in before && given[id] == before[id]
  }

  lemma {:induction false} OrderIsFiled(store: QsoStore)
    requires store.Valid()
    ensures Distinct(store.order)
    ensures forall i :: 0 <= i < |store.order| ==> store.order[i] in store.records
    ensures forall id :: id in store.order <==> id in store.records
  {
  }
}

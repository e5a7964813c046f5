/**
 * Contest engines that count dependency keys (src/engine/traits.rs, tests/engine_incremental.rs:14-118).
 *
 * The trait leaves state and laws open; the projector is wrong for some engines. An engine here is
 * given by the keys of a record and by an evaluation that sees, for each of those keys, how many
 * records applied before it carry the key.
 */
module Engine {
  import opened Wrappers
  import opened Qso

  datatype DepKey =
    | Dupe(call: string, band: Band, mode: Mode)
    | Mult(key: string)
    | Serial(key: string)
    | Custom(key: string)

  type Counts = map<DepKey, nat>

  datatype EngineApplied<Eval> = EngineApplied(eval: Eval, deps: set<DepKey>)

  datatype ContestEngine<Eval> = ContestEngine(deps: QsoRecord -> set<DepKey>, eval: (QsoRecord, Counts) -> Eval)

  function Count(counts: Counts, k: DepKey): nat {
    if k in counts then counts[k] else 0
  }

  /** What an evaluation may look at: the counts of the record's own keys. */
  function Seen(counts: Counts, deps: set<DepKey>): Counts {
    map k | k in deps :: Count(counts, k)
  }

  function Increment(counts: Counts, deps: set<DepKey>): Counts {
    map k | k in counts.Keys + deps :: Count(counts, k) + (if k in deps then 1 else 0)
  }

  /** Saturating decrement; a key whose count reaches zero is removed. */
  function Decrement(counts: Counts, deps: set<DepKey>): Counts {
    map k | k in counts && !(k in deps && counts[k] <= 1) :: if k in deps then counts[k] - 1 else counts[k]
  }

  function Apply<Eval>(eng: ContestEngine<Eval>, counts: Counts, rec: QsoRecord): (Counts, EngineApplied<Eval>) {
    var deps := eng.deps(rec);
    (Increment(counts, deps), EngineApplied(eng.eval(rec, Seen(counts, deps)), deps))
  }

  /** The symmetric difference of the keys, and all keys when the evaluation changed. */
  function DiffInvalidation<Eval(==)>(old_: EngineApplied<Eval>, new_: EngineApplied<Eval>): set<DepKey> {
    (old_.deps - new_.deps) + (new_.deps - old_.deps) +
    (if old_.eval != new_.eval then old_.deps + new_.deps else {})
  }

  /** A key is invalidated when it comes or goes, or when the record has it and is evaluated differently. */
  lemma {:induction false} InvalidationIsExact<Eval>(old_: EngineApplied<Eval>, new_: EngineApplied<Eval>, k: DepKey)
    ensures k in DiffInvalidation(old_, new_) <==>
      (k in old_.deps && k !in new_.deps) || (k !in old_.deps && k in new_.deps) ||
      (k in old_.deps && k in new_.deps && old_.eval != new_.eval)
  {
  }

  // ---- the laws ---------------------------------------------------------

  ghost predicate Shares(deps: QsoRecord -> set<DepKey>, r: QsoRecord, s: QsoRecord) {
    exists k :: k in deps(r) && k in deps(s)
  }

  /** Sharing a key carries over: among different live records, a sharer of a sharer is a sharer. */
  ghost predicate Transitive(deps: QsoRecord -> set<DepKey>) {
    forall r, s, t :: LiveTriple(r, s, t) && Shares(deps, r, s) && Shares(deps, s, t) ==> Shares(deps, r, t)
  }

  predicate LiveTriple(r: QsoRecord, s: QsoRecord, t: QsoRecord) {
    && !r.flags.isVoid && !s.flags.isVoid && !t.flags.isVoid
    && r.id != s.id && s.id != t.id && r.id != t.id
  }

  /** (H) Records that share any key share a designated root key. */
  ghost predicate Rooted<Eval(!new)>(eng: ContestEngine<Eval>, root: QsoRecord -> DepKey) {
    forall r, s, k :: k in eng.deps(r) && k in eng.deps(s) ==>
      root(r) == root(s) && root(r) in eng.deps(r) && root(s) in eng.deps(s)
  }

  /** (L) For a fixed record, the evaluation determines the counts it saw. */
  ghost predicate Revealing<Eval(!new)>(eng: ContestEngine<Eval>) {
    forall r: QsoRecord, m: Counts, n: Counts ::
      m.Keys == n.Keys == eng.deps(r) && eng.eval(r, m) == eng.eval(r, n) ==> m == n
  }

  // ---- engines that satisfy them ----------------------------------------

  datatype ToyEval = ToyEval(points: nat, isDupe: bool, isNewMult: bool)

  function BandName(b: Band): string {
    match b
    case B160m => "B160m" case B80m => "B80m" case B40m => "B40m" case B20m => "B20m"
    case B15m => "B15m" case B10m => "B10m" case OtherBand => "Other"
  }

  function ToyDupe(rec: QsoRecord): DepKey {
    Dupe(rec.callsignNorm, rec.band, rec.mode)
  }

  function ToyMult(rec: QsoRecord): DepKey {
    Mult(BandName(rec.band) + ":" + (if rec.callsignNorm == "" then "_" else rec.callsignNorm[..1]))
  }

  function ToyDeps(rec: QsoRecord): set<DepKey> {
    {ToyDupe(rec), ToyMult(rec)}
  }

  function ToyEvaluate(rec: QsoRecord, seen: Counts): ToyEval {
    ToyEval(if Count(seen, ToyDupe(rec)) > 0 then 0 else 1,
            Count(seen, ToyDupe(rec)) > 0,
            Count(seen, ToyMult(rec)) == 0)
  }

  const TOY: ContestEngine<ToyEval> := ContestEngine(ToyDeps, ToyEvaluate)

  /** Equal dupe keys imply equal mult keys, so the mult key is a root. */
  lemma {:induction false} ToyIsRooted()
    ensures Rooted(TOY, ToyMult)
  {
    forall r, s, k | k in TOY.deps(r) && k in TOY.deps(s)
      ensures ToyMult(r) == ToyMult(s)
    {
      if k == ToyDupe(r) {
        assert k == ToyDupe(s);
      } else {
        assert k == ToyMult(r) == ToyMult(s);
      }
    }
  }

  /** An engine that reports what it sees: one key per band, one per call, sharing freely. */
  function SerialDeps(rec: QsoRecord): set<DepKey> {
    {Serial(BandName(rec.band)), Custom(rec.callsignNorm)}
  }

  function SerialEvaluate(rec: QsoRecord, seen: Counts): Counts {
    Seen(seen, SerialDeps(rec))
  }

  const SERIAL_NUMBERS: ContestEngine<Counts> := ContestEngine(SerialDeps, SerialEvaluate)

  lemma {:induction false} SerialNumbersIsRevealing()
    ensures Revealing(SERIAL_NUMBERS)
  {
    forall r, m: Counts, n: Counts |
      m.Keys == n.Keys == SERIAL_NUMBERS.deps(r) && SERIAL_NUMBERS.eval(r, m) == SERIAL_NUMBERS.eval(r, n)
      ensures m == n
    {
      assert Seen(m, SerialDeps(r)) == m;
      assert Seen(n, SerialDeps(r)) == n;
    }
  }

  /** A root key makes sharing transitive. */
  lemma {:induction false} RootedIsTransitive<Eval(!new)>(eng: ContestEngine<Eval>, root: QsoRecord -> DepKey)
    requires Rooted(eng, root)
    ensures Transitive(eng.deps)
  {
    forall r, s, t | LiveTriple(r, s, t) && Shares(eng.deps, r, s) && Shares(eng.deps, s, t)
      ensures Shares(eng.deps, r, t)
    {
      var k :| k in eng.deps(r) && k in eng.deps(s);
      var l :| l in eng.deps(s) && l in eng.deps(t);
      assert root(r) == root(t) && root(r) in eng.deps(r) && root(t) in eng.deps(t);
    }
  }

  lemma {:induction false} ToyIsTransitive()
    ensures Transitive(TOY.deps)
  {
    ToyIsRooted();
    RootedIsTransitive(TOY, ToyMult);
  }

  /** Pairs out of three keys: any two records share one, and no key is common to all. */
  function PairDeps(rec: QsoRecord): set<DepKey> {
    if rec.callsignNorm == "A" then {Custom("x"), Custom("y")}
    else if rec.callsignNorm == "B" then {Custom("y"), Custom("z")}
    else {Custom("x"), Custom("z")}
  }

  lemma {:induction false} TransitiveWithoutRoot<Eval(!new)>(eval: (QsoRecord, Counts) -> Eval, rec: QsoRecord,
                                                            root: QsoRecord -> DepKey)
    ensures Transitive(PairDeps)
    ensures !Rooted(ContestEngine(PairDeps, eval), root)
  {
    forall r, s ensures Shares(PairDeps, r, s) {
      assert Custom("x") in PairDeps(r) * PairDeps(s) ||
             Custom("y") in PairDeps(r) * PairDeps(s) ||
             Custom("z") in PairDeps(r) * PairDeps(s);
    }
    var eng := ContestEngine(PairDeps, eval);
    var a, b, c := rec.(callsignNorm := "A"), rec.(callsignNorm := "B"), rec.(callsignNorm := "C");
    assert Custom("y") in eng.deps(a) && Custom("y") in eng.deps(b);
    assert Custom("x") in eng.deps(a) && Custom("x") in eng.deps(c);
    assert root(a) == root(b) && root(a) in eng.deps(a) && root(b) in eng.deps(b) ==>
      !(root(a) == root(c) && root(c) in eng.deps(c));
  }

  /** Neither law subsumes the other. */
  lemma {:induction false} LawsAreIndependent(rec: QsoRecord)
    ensures Transitive(TOY.deps) && !Revealing(TOY)
    ensures Revealing(SERIAL_NUMBERS) && !Transitive(SERIAL_NUMBERS.deps)
  {
    ToyIsTransitive();
    SerialNumbersIsRevealing();
    var one := map k | k in ToyDeps(rec) :: 1 as nat;
    var two := map k | k in ToyDeps(rec) :: 2 as nat;
    assert TOY.eval(rec, one) == TOY.eval(rec, two);
    assert one[ToyMult(rec)] != two[ToyMult(rec)];

    var live := rec.WithVoid(false);
    var a := live.(id := 1, band := B160m, callsignNorm := "A");
    var b := live.(id := 2, band := B160m, callsignNorm := "B");
    var c := live.(id := 3, band := B80m, callsignNorm := "B");
    assert Serial("B160m") in SERIAL_NUMBERS.deps(a) && Serial("B160m") in SERIAL_NUMBERS.deps(b);
    assert Custom("B") in SERIAL_NUMBERS.deps(b) && Custom("B") in SERIAL_NUMBERS.deps(c);
    assert SERIAL_NUMBERS.deps(a) !! SERIAL_NUMBERS.deps(c);
    assert LiveTriple(a, b, c) && Shares(SERIAL_NUMBERS.deps, a, b) && Shares(SERIAL_NUMBERS.deps, b, c);
  }
}

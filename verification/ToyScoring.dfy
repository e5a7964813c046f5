/**
 * What the repository's toy contest scores (tests/engine_incremental.rs:38-66), in terms of records
 * alone: after any run the incremental results mark exactly the dupes and the new multipliers.
 */
module ToyScoring {
  import opened Wrappers
  import opened Qso
  import opened StoreModel
  import opened History
  import opened Engine
  import opened Projection
  import opened ProjectionProof
  import opened ReconcileProof
  import opened ProjectionTheorems

  /** Same station on the same band in the same mode. */
  predicate SameContact(r: QsoRecord, s: QsoRecord) {
    r.callsignNorm == s.callsignNorm && r.band == s.band && r.mode == s.mode
  }

  function FirstChar(call: string): char {
    if call == "" then '_' else call[0]
  }

  /** Same band, and calls that begin alike. */
  predicate SameMultiplier(r: QsoRecord, s: QsoRecord) {
    r.band == s.band && FirstChar(r.callsignNorm) == FirstChar(s.callsignNorm)
  }

  ghost predicate ContactBefore(v: View, p: nat)
    requires p < |v.order| && v.order[p] in v.records
  {
    exists q :: 0 <= q < p && Live(v, v.order[q]) && SameContact(v.records[v.order[q]], v.records[v.order[p]])
  }

  ghost predicate MultiplierBefore(v: View, p: nat)
    requires p < |v.order| && v.order[p] in v.records
  {
    exists q :: 0 <= q < p && Live(v, v.order[q]) && SameMultiplier(v.records[v.order[q]], v.records[v.order[p]])
  }

  // ---- keys and what they stand for ------------------------------------------------------

  /** Bands have different names, and none is the beginning of another. */
  lemma {:induction false} BandNamesDiffer(b: Band, c: Band, x: char, y: char)
    ensures BandName(b) + ":" + [x] == BandName(c) + ":" + [y] <==> b == c && x == y
  {
    var m, n := BandName(b) + ":" + [x], BandName(c) + ":" + [y];
    assert m[..3] == BandName(b)[..3] && n[..3] == BandName(c)[..3];
    assert m[|m| - 1] == x && n[|n| - 1] == y;
    BandNameStarts(b);
    BandNameStarts(c);
  }

  lemma {:induction false} BandNameStarts(b: Band)
    ensures |BandName(b)| == (match b case B160m => 5 case OtherBand => 5 case _ => 4)
    ensures BandName(b)[..3] == match b {
      case B160m => "B16" case B80m => "B80" case B40m => "B40" case B20m => "B20"
      case B15m => "B15" case B10m => "B10" case OtherBand => "Oth" }
  {
  }

  lemma {:induction false} MultKeyIsMultiplier(r: QsoRecord, s: QsoRecord)
    ensures ToyMult(r) == ToyMult(s) <==> SameMultiplier(r, s)
    ensures ToyMult(r) != ToyDupe(s) && ToyMult(s) != ToyDupe(r)
  {
    hide BandName;
    var x, y := FirstChar(r.callsignNorm), FirstChar(s.callsignNorm);
    assert ToyMult(r) == Mult(BandName(r.band) + ":" + [x]) && ToyMult(s) == Mult(BandName(s.band) + ":" + [y]);
    BandNamesDiffer(r.band, s.band, x, y);
  }

  // ---- what the counts mean ----------------------------------------------------------------

  lemma {:induction false} ContactsCounted(v: View, p: nat)
    requires p < |v.order| && v.order[p] in v.records
    ensures |Earlier(TOY, v, p, ToyDupe(v.records[v.order[p]]))| > 0 <==> ContactBefore(v, p)
  {
    var rec := v.records[v.order[p]];
    var users := Earlier(TOY, v, p, ToyDupe(rec));
    if id :| id in users {
      var q :| 0 <= q < p && v.order[q] == id;
      assert SameContact(v.records[v.order[q]], rec);
    }
    if ContactBefore(v, p) {
      var q :| 0 <= q < p && Live(v, v.order[q]) && SameContact(v.records[v.order[q]], rec);
      assert v.order[q] in v.order[..p] && v.order[q] in users;
    }
  }

  lemma {:induction false} MultipliersCounted(v: View, p: nat)
    requires p < |v.order| && v.order[p] in v.records
    ensures |Earlier(TOY, v, p, ToyMult(v.records[v.order[p]]))| > 0 <==> MultiplierBefore(v, p)
  {
    hide ToyMult, SameMultiplier;
    var rec := v.records[v.order[p]];
    var users := Earlier(TOY, v, p, ToyMult(rec));
    if id :| id in users {
      var q :| 0 <= q < p && v.order[q] == id;
      MultKeyIsMultiplier(v.records[v.order[q]], rec);
    }
    if MultiplierBefore(v, p) {
      var q :| 0 <= q < p && Live(v, v.order[q]) && SameMultiplier(v.records[v.order[q]], rec);
      MultKeyIsMultiplier(v.records[v.order[q]], rec);
      assert v.order[q] in v.order[..p] && v.order[q] in users;
    }
  }

  lemma {:induction false} RightToyValue(v: View, p: nat)
    requires p < |v.order| && v.order[p] in v.records
    ensures RightValue(TOY, v, p).eval
         == ToyEval(if ContactBefore(v, p) then 0 else 1, ContactBefore(v, p), !MultiplierBefore(v, p))
  {
    ContactsCounted(v, p);
    MultipliersCounted(v, p);
    hide ToyMult, ToyDupe, Earlier, ContactBefore, MultiplierBefore;
  }

  /**
   * After any run the toy contest has a result for exactly the live records, and it is what a judge
   * reading the log in order would say: a repeated contact is a dupe and scores nothing, any other
   * scores a point; a first call of its kind on its band is a new multiplier.
   */
  lemma {:induction false} ToyScoresTheLog(cmds: seq<Command>)
    ensures var v, a := Run(EMPTY_STORE, cmds).view, ProjectRun(TOY, EMPTY_STORE, cmds);
      && (forall id :: id in a <==> id in v.order && Live(v, id))
      && (forall p :: 0 <= p < |v.order| && Live(v, v.order[p]) ==>
            var e := a[v.order[p]].eval;
            && (e.isDupe <==> ContactBefore(v, p))
            && (e.isNewMult <==> !MultiplierBefore(v, p))
            && e.points == if e.isDupe then 0 else 1)
  {
    hide Run, ProjectRun, Recompute, RightValue;
    var v := Run(EMPTY_STORE, cmds).view;
    ToyProjectionTracksEveryRun(cmds);
    RunKeepsReachable(EMPTY_STORE, cmds);
    forall id ensures id in Recompute(TOY, v) <==> id in v.order && Live(v, id) {
      RecomputeApplies(TOY, v, id);
    }
    forall p | 0 <= p < |v.order| && Live(v, v.order[p])
      ensures Recompute(TOY, v)[v.order[p]].eval
           == ToyEval(if ContactBefore(v, p) then 0 else 1, ContactBefore(v, p), !MultiplierBefore(v, p))
    {
      RecomputeAt(TOY, v, p);
      RightToyValue(v, p);
    }
  }
}

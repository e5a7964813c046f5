/** Records, drafts and sparse patches (src/qso.rs, src/types.rs). */
module Qso {
  import opened Wrappers

  type QsoId = nat
  type OpSeq = nat
  type ContestInstanceId = nat
  newtype Byte = x: int | 0 <= x < 256

  datatype Band = B160m | B80m | B40m | B20m | B15m | B10m | OtherBand

  datatype Mode = CW | SSB | Digital | OtherMode

  datatype QsoFlags = QsoFlags(isVoid: bool, dupeOverride: bool)

  datatype QsoRecord = QsoRecord(
    id: QsoId,
    contestInstanceId: ContestInstanceId,
    callsignRaw: string,
    callsignNorm: string,
    band: Band,
    mode: Mode,
    freqHz: nat,
    tsMs: nat,
    radioId: nat,
    operatorId: nat,
    exchange: seq<Byte>,
    flags: QsoFlags)
  {
    function WithVoid(isVoid: bool): QsoRecord {
      this.(flags := flags.(isVoid := isVoid))
    }
  }

  datatype QsoDraft = QsoDraft(
    contestInstanceId: ContestInstanceId,
    callsignRaw: string,
    callsignNorm: string,
    band: Band,
    mode: Mode,
    freqHz: nat,
    tsMs: nat,
    radioId: nat,
    operatorId: nat,
    exchange: seq<Byte>,
    flags: QsoFlags)
  {
    /** The record that `insert` builds from this draft. */
    function Materialize(id: QsoId): QsoRecord {
      QsoRecord(id, contestInstanceId, callsignRaw, callsignNorm, band, mode,
                freqHz, tsMs, radioId, operatorId, exchange, flags)
    }
  }

  /** Each `Some` field of a patch overwrites the record's value. */
  datatype QsoPatch = QsoPatch(
    contestInstanceId: Option<ContestInstanceId>,
    callsignRaw: Option<string>,
    callsignNorm: Option<string>,
    band: Option<Band>,
    mode: Option<Mode>,
    freqHz: Option<nat>,
    tsMs: Option<nat>,
    radioId: Option<nat>,
    operatorId: Option<nat>,
    exchange: Option<seq<Byte>>,
    isVoid: Option<bool>,
    dupeOverride: Option<bool>)
  {
    function CaptureInverseFor(rec: QsoRecord): QsoPatch {
      QsoPatch(
        Was(contestInstanceId, rec.contestInstanceId),
        Was(callsignRaw, rec.callsignRaw),
        Was(callsignNorm, rec.callsignNorm),
        Was(band, rec.band),
        Was(mode, rec.mode),
        Was(freqHz, rec.freqHz),
        Was(tsMs, rec.tsMs),
        Was(radioId, rec.radioId),
        Was(operatorId, rec.operatorId),
        Was(exchange, rec.exchange),
        Was(isVoid, rec.flags.isVoid),
        Was(dupeOverride, rec.flags.dupeOverride))
    }

    /** The record this patch produces; `ApplyTo` computes it by assignments in place. */
    function Patched(rec: QsoRecord): QsoRecord {
      QsoRecord(
        rec.id,
        Over(contestInstanceId, rec.contestInstanceId),
        Over(callsignRaw, rec.callsignRaw),
        Over(callsignNorm, rec.callsignNorm),
        Over(band, rec.band),
        Over(mode, rec.mode),
        Over(freqHz, rec.freqHz),
        Over(tsMs, rec.tsMs),
        Over(radioId, rec.radioId),
        Over(operatorId, rec.operatorId),
        Over(exchange, rec.exchange),
        QsoFlags(Over(isVoid, rec.flags.isVoid), Over(dupeOverride, rec.flags.dupeOverride)))
    }

    /** Field by field: what the patch sets it sets, and what it leaves alone stays. */
    predicate Rewrites(original: QsoRecord, rec: QsoRecord) {
      && rec.id == original.id
      && rec.contestInstanceId ==
           (if contestInstanceId.Some? then contestInstanceId.value else original.contestInstanceId)
      && rec.callsignRaw == (if callsignRaw.Some? then callsignRaw.value else original.callsignRaw)
      && rec.callsignNorm == (if callsignNorm.Some? then callsignNorm.value else original.callsignNorm)
      && rec.band == (if band.Some? then band.value else original.band)
      && rec.mode == (if mode.Some? then mode.value else original.mode)
      && rec.freqHz == (if freqHz.Some? then freqHz.value else original.freqHz)
      && rec.tsMs == (if tsMs.Some? then tsMs.value else original.tsMs)
      && rec.radioId == (if radioId.Some? then radioId.value else original.radioId)
      && rec.operatorId == (if operatorId.Some? then operatorId.value else original.operatorId)
      && rec.exchange == (if exchange.Some? then exchange.value else original.exchange)
      && rec.flags.isVoid == (if isVoid.Some? then isVoid.value else original.flags.isVoid)
      && rec.flags.dupeOverride == (if dupeOverride.Some? then dupeOverride.value else original.flags.dupeOverride)
    }

    lemma {:induction false} PatchedRewrites(original: QsoRecord)
      ensures Rewrites(original, Patched(original))
    {
    }

    /** Overwrites one field after the other; `Over` is the source's `if let Some`. */
    method ApplyTo(original: QsoRecord) returns (rec: QsoRecord)
      ensures Rewrites(original, rec)
      ensures rec == Patched(original)
    {
      hide Rewrites;
      rec := original;
      rec := rec.(contestInstanceId := Over(contestInstanceId, rec.contestInstanceId));
      rec := rec.(callsignRaw := Over(callsignRaw, rec.callsignRaw));
      rec := rec.(callsignNorm := Over(callsignNorm, rec.callsignNorm));
      rec := rec.(band := Over(band, rec.band));
      rec := rec.(mode := Over(mode, rec.mode));
      rec := rec.(freqHz := Over(freqHz, rec.freqHz));
      rec := rec.(tsMs := Over(tsMs, rec.tsMs));
      rec := rec.(radioId := Over(radioId, rec.radioId));
      rec := rec.(operatorId := Over(operatorId, rec.operatorId));
      rec := rec.(exchange := Over(exchange, rec.exchange));
      rec := rec.(flags := rec.flags.(isVoid := Over(isVoid, rec.flags.isVoid)));
      rec := rec.(flags := rec.flags.(dupeOverride := Over(dupeOverride, rec.flags.dupeOverride)));
      PatchedRewrites(original);
    }
  }

  function Was<T>(patch: Option<T>, current: T): Option<T> {
    if patch.Some? then Some(current) else None
  }

  function Over<T>(patch: Option<T>, current: T): T {
    if patch.Some? then patch.value else current
  }

  /** One field: the captured value undoes the overwrite, and capturing on the way back recovers the patch field. */
  lemma {:induction false} FieldInverse<T>(patch: Option<T>, current: T)
    ensures Over(Was(patch, current), Over(patch, current)) == current
    ensures Was(Was(patch, current), Over(patch, current)) == patch
  {
  }

  /** The captured inverse undoes the patch, and capturing again on the way back recovers the patch itself. */
  lemma {:induction false} InverseUndoesPatch(patch: QsoPatch, rec: QsoRecord)
    ensures patch.CaptureInverseFor(rec).Patched(patch.Patched(rec)) == rec
    ensures patch.CaptureInverseFor(rec).CaptureInverseFor(patch.Patched(rec)) == patch
  {
    FieldInverse(patch.contestInstanceId, rec.contestInstanceId);
    FieldInverse(patch.callsignRaw, rec.callsignRaw);
    FieldInverse(patch.callsignNorm, rec.callsignNorm);
    FieldInverse(patch.band, rec.band);
    FieldInverse(patch.mode, rec.mode);
    FieldInverse(patch.freqHz, rec.freqHz);
    FieldInverse(patch.tsMs, rec.tsMs);
    FieldInverse(patch.radioId, rec.radioId);
    FieldInverse(patch.operatorId, rec.operatorId);
    FieldInverse(patch.exchange, rec.exchange);
    FieldInverse(patch.isVoid, rec.flags.isVoid);
    FieldInverse(patch.dupeOverride, rec.flags.dupeOverride);
  }
}

/** Journaled operations (src/op.rs). */
module Operation {
  import opened Qso

  datatype Op =
    | OpInsert(qso: QsoRecord)
    | OpPatch(id: QsoId, patch: QsoPatch, prev: QsoPatch)
    | OpVoid(id: QsoId, prevIsVoid: bool)
  {
    function Target(): QsoId {
      if OpInsert? then qso.id else id
    }
  }

  datatype StoredOp = StoredOp(opSeq: OpSeq, op: Op)
}

/** The volume and snapshot ids of the qnap backend. */
module QnapId {
  import opened Text
  import opened Driver

  datatype ExternalID = ExternalID(lunIndex: int, targetIndex: int, ownTarget: bool, lunName: string)
  datatype SnapshotID = SnapshotID(lunIndex: int, snapshotID: int)

  predicate Int64(n: int)
  {
    MIN_INT64 <= n <= MAX_INT64
  }

  function OwnFlag(own: bool): string
  {
    if own then "t" else "s"
  }

  function PrintExternalID(e: ExternalID): string
  {
    Join(["qnap", "v1", Itoa(e.lunIndex), Itoa(e.targetIndex), OwnFlag(e.ownTarget), e.lunName], '/')
  }

  function ParseExternalID(id: string): Result<ExternalID>
  {
    var parts := Split(id, '/');
    if |parts| != 6 || parts[0] != "qnap" || parts[1] != "v1" then Err(CodeInvalidArgument)
    else match (Atoi(parts[2]), Atoi(parts[3]))
      case (Some(lun), Some(tgt)) => Ok(ExternalID(lun, tgt, parts[4] == "t", parts[5]))
      case _ => Err(CodeInvalidArgument)
  }

  function PrintSnapshotID(s: SnapshotID): string
  {
    Join(["qnaps", "v1", Itoa(s.lunIndex), Itoa(s.snapshotID)], '/')
  }

  function ParseSnapshotID(id: string): Result<SnapshotID>
  {
    var parts := Split(id, '/');
    if |parts| != 4 || parts[0] != "qnaps" || parts[1] != "v1" then Err(CodeInvalidArgument)
    else match (Atoi(parts[2]), Atoi(parts[3]))
      case (Some(lun), Some(snap)) => Ok(SnapshotID(lun, snap))
      case _ => Err(CodeInvalidArgument)
  }

  ghost predicate GoodExternalID(e: ExternalID)
  {
    Int64(e.lunIndex) && Int64(e.targetIndex) && Free(e.lunName, '/')
  }

  lemma SplitExternal(e: ExternalID)
    requires Free(e.lunName, '/')
    ensures Split(PrintExternalID(e), '/')
         == ["qnap", "v1", Itoa(e.lunIndex), Itoa(e.targetIndex), OwnFlag(e.ownTarget), e.lunName]
  {
    ItoaFree(e.lunIndex, '/');
    ItoaFree(e.targetIndex, '/');
    SplitJoin(["qnap", "v1", Itoa(e.lunIndex), Itoa(e.targetIndex), OwnFlag(e.ownTarget), e.lunName], '/');
  }

  /** Parsing undoes printing for every 64-bit index and slash-free name. */
  lemma ExternalIDRoundTrip(e: ExternalID)
    requires GoodExternalID(e)
    ensures ParseExternalID(PrintExternalID(e)) == Ok(e)
  {
    SplitExternal(e);
    ItoaRoundTrip(e.lunIndex);
    ItoaRoundTrip(e.targetIndex);
  }

  /** Every accepted id has a canonical form, its reprint, that means the same. */
  lemma AcceptedIdIsCanonicalised(id: string)
    requires ParseExternalID(id).Ok?
    ensures GoodExternalID(ParseExternalID(id).value)
    ensures ParseExternalID(PrintExternalID(ParseExternalID(id).value)) == ParseExternalID(id)
  {
    SplitFree(id, '/', 5);
    ExternalIDRoundTrip(ParseExternalID(id).value);
  }

  lemma PrintExternalIDInjective(a: ExternalID, b: ExternalID)
    requires GoodExternalID(a) && GoodExternalID(b) && PrintExternalID(a) == PrintExternalID(b)
    ensures a == b
  {
    ExternalIDRoundTrip(a);
    ExternalIDRoundTrip(b);
  }

  lemma SnapshotIDRoundTrip(s: SnapshotID)
    requires Int64(s.lunIndex) && Int64(s.snapshotID)
    ensures ParseSnapshotID(PrintSnapshotID(s)) == Ok(s)
    ensures ParseExternalID(PrintSnapshotID(s)).Err?
  {
    ItoaFree(s.lunIndex, '/');
    ItoaFree(s.snapshotID, '/');
    SplitJoin(["qnaps", "v1", Itoa(s.lunIndex), Itoa(s.snapshotID)], '/');
    ItoaRoundTrip(s.lunIndex);
    ItoaRoundTrip(s.snapshotID);
  }
}

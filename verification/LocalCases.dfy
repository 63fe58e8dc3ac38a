/** Inputs on which the limits of the local backend's create show. */
module LocalCases {
  import opened Base
  import opened Driver
  import opened LocalId
  import opened Zfs
  import opened LocalOps
  import opened LocalRuns
  import opened LocalCapacity
  import opened LocalClones
  import opened LocalHalfway
  import opened LocalRetry
  import opened LocalReserve

  const NODE := NodeConfig("n", map[], 0, map[], "csi")

  /** One volume of 16 bytes, and room for more. */
  const SMALL := Z(map["p/csi/a" := Vol(16, 8, "")], map[], map["p" := Pool(true, 100, 84)], 0, [])

  const CLONE := CreateArgs("b", "p", 8, 8, "", "local/v1/n/p/csi/a")

  lemma SourceIsValid()
    ensures GoodExternalID(ExternalID("n", "p/csi/a"))
  {
    var ds := "p/csi/a";
    assert ds[1] == '/';
    assert forall i :: 0 <= i < |ds| - 1 ==> ds[i] != '.' && !(ds[i] == '/' && ds[i + 1] == '/');
  }

  lemma SourcePrints()
    ensures PrintExternalID(ExternalID("n", "p/csi/a")) == CLONE.volumeID
  {
    PrintedExternal(ExternalID("n", "p/csi/a"));
    assert "local" + "/" + ("v1" + "/" + ("n" + "/" + "p/csi/a")) == "local/v1/n/p/csi/a";
  }

  lemma CloneNames()
    ensures ParseExternalID(CLONE.volumeID) == Ok(ExternalID("n", "p/csi/a"))
    ensures DatasetFor(NODE, CLONE.pool, CLONE.name) == "p/csi/b" && PoolOf("p/csi/b") == "p"
  {
    hide ParseExternalID, PrintExternalID, GoodExternalID, PoolOf;
    SourceIsValid();
    SourcePrints();
    ExternalIDCodec(CLONE.volumeID, ExternalID("n", "p/csi/a"));
    assert DatasetFor(NODE, "p", "b") == "p/csi/b";
    PoolOfDataset(NODE, "p", "b");
  }

  lemma NoAts()
    ensures '@' !in TransientName(CLONE) && '@' !in "p/csi/b" && "p/csi/b" !in SMALL.vols
  {
  }

  /** The same host with a tape. */
  function Taped(faults: seq<Fault>): Z
  {
    SMALL.(faults := faults)
  }

  lemma SmallIsSound(faults: seq<Fault>)
    ensures Inv(Taped(faults))
  {
  }

  lemma CloneFits(faults: seq<Fault>)
    ensures Fits(Taped(faults), "p/csi/b", 16)
  {
    hide PoolOf, ParseExternalID, DatasetFor;
    CloneNames();
    NoAts();
  }

  /** With the two looks and the two capacity queries answered, the clone starts. */
  lemma CloneStarts(faults: seq<Fault>)
    requires |faults| >= 4 && faults[0].Fine? && faults[1].Fine? && faults[2].Fine? && faults[3].Fine?
    ensures forall size :: 0 < size <= 16 ==> GetsToMake(NODE, Taped(faults), CLONE.(size := size))
    ensures forall size :: 0 < size <= 16 ==> CapacityOk(NODE, Later(Taped(faults), 2), "p", size)
  {
    hide DatasetFor, ParseExternalID;
    CloneNames();
    NoAts();
  }

  lemma CopyArrives()
    ensures var (z', r) := CopyVolumeDo(SMALL, "p/csi/a", TransientName(CLONE), "p/csi/b");
            r.Ok? && z'.faults == [] && "p/csi/b" in z'.vols && z'.vols["p/csi/b"] == Vol(16, 8, "")
  {
    hide CopyVolumeDo, FullName, TransientName, Fits, Inv;
    NoAts();
    CloneFits([]);
    SmallIsSound([]);
    assert Taped([]) == SMALL;
    CopyLands(SMALL, "p/csi/a", TransientName(CLONE), "p/csi/b");
  }

  lemma CloneSucceeds()
    ensures CreateDo(NODE, SMALL, CLONE).1.Ok?
  {
    hide CopyVolumeDo, DatasetFor, ParseExternalID, TransientName, PrintExternalID, RoundUp, PoolOf, RestoreDo, FreshDo;
    CloneNames();
    CopyArrives();
    NoAts();
  }

  lemma CloneIsLarger()
    ensures !Repeatable(NODE, SMALL, CLONE)
  {
    hide ParseExternalID, DatasetFor;
    CloneNames();
    NoAts();
  }

  /** Cloning a 16-byte volume into an 8-byte one succeeds, with 16 bytes, and asking for it again is
      refused. */
  lemma LargerSourceIsRefusedOnRepeat()
    ensures var (z', r) := CreateDo(NODE, SMALL, CLONE);
            r.Ok? && CreateDo(NODE, Clean(z'), CLONE) == (Clean(z'), Err(CodeAlreadyExists))
  {
    hide CreateDo, Repeatable, Inv;
    SmallIsSound([]);
    assert Taped([]) == SMALL;
    CloneSucceeds();
    CloneIsLarger();
    RetryExactlyWhen(NODE, SMALL, CLONE);
  }

  /** A clone of the right size whose recording fails is left without a source. */
  const UNRECORDED := [Fine, Fine, Fine, Fine, Fine, Fine, Fine, Fine, Before]

  const SAME_SIZE := CLONE.(size := 16)

  lemma LeftUnrecorded()
    ensures LeftBy(NODE, Taped(UNRECORDED), SAME_SIZE) == Some(Vol(16, 8, ""))
  {
    hide GetsToMake, CapacityOk, DatasetFor, ParseExternalID, Fits, FullName, PoolOf, RoundUp;
    CloneNames();
    CloneStarts(UNRECORDED);
    CloneFits(UNRECORDED);
    NoAts();
    assert TransientName(SAME_SIZE) == TransientName(CLONE);
    assert Taped(UNRECORDED).vols["p/csi/a"] == Vol(16, 8, "");
  }

  /** It fails, and is refused from then on, though its size is right. */
  lemma UnrecordedCloneIsRefused()
    ensures var z' := Clean(CreateDo(NODE, Taped(UNRECORDED), SAME_SIZE).0);
            CreateDo(NODE, z', SAME_SIZE) == (z', Err(CodeAlreadyExists))
  {
    hide CreateDo, LeftBy, Inv, DatasetFor, ParseExternalID;
    CloneNames();
    NoAts();
    LeftUnrecorded();
    SmallIsSound(UNRECORDED);
    RepeatRefusedExactly(NODE, Taped(UNRECORDED), SAME_SIZE);
  }

  /** The snapshot command of a clone fails after its effect. */
  const SNAPPED := [Fine, Fine, Fine, Fine, After]

  /** The transient snapshot stays on the source. */
  lemma TransientCanStay()
    ensures FullName("p/csi/a", TransientName(CLONE)) in CreateDo(NODE, Taped(SNAPPED), CLONE).0.snaps
  {
    hide CreateDo, GetsToMake, CapacityOk, DatasetFor, ParseExternalID, FullName, Inv, TransientName, Receives;
    CloneNames();
    CloneStarts(SNAPPED);
    NoAts();
    SmallIsSound(SNAPPED);
    assert CLONE.(size := 8) == CLONE;
    assert FaultAt(Later(Taped(SNAPPED), 4), 0).After?;
    CloneSpares(NODE, Taped(SNAPPED), CLONE);
  }

  /** A tenth of the pool is kept in reserve, and 20 of its 100 bytes are free. */
  const KEEPS := NODE.(defaultReserve := 10)

  const TIGHT := SMALL.(pools := map["p" := Pool(true, 100, 20)])

  lemma LeftTight()
    ensures LeftBy(KEEPS, TIGHT, CLONE).Some? && LeftBy(KEEPS, TIGHT, CLONE).value.size == 16
  {
    hide ParseExternalID, FullName, PoolOf, RoundUp, DatasetFor;
    CloneNames();
    NoAts();
    assert DatasetFor(KEEPS, "p", "b") == DatasetFor(NODE, "p", "b") by {
      SameDataset();
    }
    assert TIGHT.vols["p/csi/a"] == Vol(16, 8, "");
  }

  lemma SameDataset()
    ensures DatasetFor(KEEPS, "p", "b") == DatasetFor(NODE, "p", "b")
  {
  }

  /** Asking for 8 bytes passes the guard, but the clone of a 16-byte volume takes 16 and leaves 4. */
  lemma LargerCloneSpendsReserve()
    ensures AboveReserve(KEEPS, TIGHT, "p") && !AboveReserve(KEEPS, CreateDo(KEEPS, TIGHT, CLONE).0, "p")
  {
    hide CreateDo, LeftBy, Inv, PoolOf, DatasetFor, ParseExternalID;
    CloneNames();
    SameDataset();
    LeftTight();
    TightIsSound();
    CreateSpendsExactly(KEEPS, TIGHT, CLONE, "p");
  }

  lemma TightIsSound()
    ensures Inv(TIGHT)
  {
  }
}

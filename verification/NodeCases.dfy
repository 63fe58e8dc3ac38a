/** Inputs on which the node's limits show: one for each condition the theorems about it carry. */
module NodeCases {
  import opened Base
  import opened Text
  import opened Driver
  import opened Portals
  import opened IscsiSessions
  import opened Mounts
  import opened QnapId
  import opened QnapIdentity
  import opened Teardown
  import opened TeardownTheorems
  import opened Attach
  import opened NodeRuns

  const NODE := Config({}, true)

  /** Two LUNs of one target over one portal. */
  const FIRST := Session("i", "h:1", 0, "sda")
  const SECOND := Session("i", "h:1", 1, "sdb")

  /** Every command works; findmnt names nothing, and there is no SAN client. */
  const WORKS := Answers(None, true, true, None, true, true, true, true, true, {})

  lemma PortalIsNormal()
    ensures NormalizePortal("h:1") == "h:1" && NormalizePortal("h:2") == "h:2"
  {
    hide NormalizePortal;
    NormalizedHostPort("h", "1");
    NormalizedHostPort("h", "2");
    assert "h" + ":" + "1" == "h:1" && "h" + ":" + "2" == "h:2";
  }

  // ----- A shared target -----

  /** The sessions cannot be counted, so tearing down the first LUN ends the second's session. */
  lemma UncountedTeardownCutsNeighbour()
    ensures var n := Node(map["v" := StageMeta(["h:1"], "i", 0, "")], Host([FIRST, SECOND], [], "", {}, {}));
            var (n', r) := UnstageDo(NODE, n, "v", "/s", WORKS.(refcountLists := false));
            r.Ok? && SECOND !in n'.host.sessions
  {
    hide NormalizePortal, FromMount, FromSan, LogoutAll;
    PortalIsNormal();
    var n := Node(map["v" := StageMeta(["h:1"], "i", 0, "")], Host([FIRST, SECOND], [], "", {}, {}));
    var a := WORKS.(refcountLists := false);
    assert "h:1" in Elems(["h:1"]) - a.stuck;
    SharedLunSurvivesExactlyWhenCounted(NODE, n, "v", "/s", a, SECOND);
    PrematureUnstageChangesNothing(NODE, n, "v", "/s", a);
  }

  /** Target 3 serves LUNs 5 and 7; LUN 7 is called "other". */
  const SAN := Identity(map[3 := TargetRow(3, "t", "i", [5, 7])], map[7 := LunRow(7, "other", 1)], map[])

  const OTHER := ExternalID(7, 3, false, "other")

  lemma SanKnowsOther()
    ensures SanIqn(WORKS.(san := Some(SAN)), PrintExternalID(OTHER)) == Some("i")
  {
    hide ParseExternalID, PrintExternalID;
    ExternalIDRoundTrip(OTHER);
  }

  /** Only the first LUN is attached. A restarted node asked to unstage another volume of the target,
      which was never attached here, logs the first LUN out, with every command working. */
  lemma ColdUnstageCutsForeignLun()
    ensures var n := Node(map[], Host([FIRST], [], "", {}, {}));
            var (n', r) := UnstageDo(NODE, n, PrintExternalID(OTHER), "/s", WORKS.(san := Some(SAN)));
            r.Ok? && FIRST !in n'.host.sessions
  {
    hide NormalizePortal, PrintExternalID, SanIqn, UnstageDo, PathRows, BaseName;
    PortalIsNormal();
    SanKnowsOther();
    var n := Node(map[], Host([FIRST], [], "", {}, {}));
    var a := WORKS.(san := Some(SAN));
    assert OnlyLun(n.host.sessions, "i", 0);
    var p := OnTarget(NODE, "i");
    assert p(FIRST) && LastMatch([FIRST], p) == Some(FIRST);
    ColdUnstageEndsForeignSessionExactly(NODE, n, PrintExternalID(OTHER), "/s", a, FIRST);
    NeverFails(NODE, n, PrintExternalID(OTHER), "/s", a);
  }

  lemma NeverFails(c: Config, n: Node, v: string, staging: string, a: Answers)
    requires n.host.mounts == [] && n.host.held == {} && a.unmounts
    ensures UnstageDo(c, n, v, staging, a).1.Ok?
  {
    hide Resolved, UnmountDo, Detached;
  }

  /** The same, but the first LUN is mounted: its map is found in use, and its session stays. */
  lemma MountedLunIsSpared()
    ensures var n := Node(map[], Host([FIRST], [Mount("/other", "/dev/mapper/w")], "sda w", {}, {"w"}));
            var (n', r) := UnstageDo(NODE, n, PrintExternalID(OTHER), "/s", WORKS.(san := Some(SAN)));
            r == Err(CodeFailedPrecondition) && FIRST in n'.host.sessions
  {
    hide NormalizePortal, PrintExternalID, SanIqn, UnstageDo, BaseName, PathRows;
    SanKnowsOther();
    OneRow();
    BareBase("sda");
    var m := Mount("/other", "/dev/mapper/w");
    var n := Node(map[], Host([FIRST], [m], "sda w", {}, {"w"}));
    var a := WORKS.(san := Some(SAN));
    var p := OnTarget(NODE, "i");
    assert p(FIRST) && LastMatch([FIRST], p) == Some(FIRST);
    assert WwidOf([["sda", "w"]], "sda") == "w";
    assert n.host.mounts[0] == m && MAPPER + "w" == "/dev/mapper/w";
    PrematureUnstageChangesNothing(NODE, n, PrintExternalID(OTHER), "/s", a);
  }

  const CTX: VolumeContext := map[PORTAL := "h:1", IQN := "i", LUN := "0"]

  /** Portals come up; no device appears. */
  const NO_DEVICE := StageAnswers([], None, {}, map[("h:1", "i") := [FIRST]], None, None, None, true, {}, true, true)

  lemma ContextIsRead()
    ensures AttachIdentity([], None, "v", CTX) == Ok(Endpoint(["h:1"], "i", 0))
  {
    hide Trimmed, TrimSpace, Split, Atoi, ParseExternalID;
    assert Free("h:1", ',');
    SolidEnds("h:1");
    SplitLast("h:1", ',');
    TrimmedAsIs(["h:1"]);
    ZeroParses();
  }

  lemma NoDeviceCleansUp()
    ensures CleansUp(NODE, "v", CTX, NO_DEVICE) == Some(("i", Normals({"h:1"})))
    ensures ActivePortals(["h:1"], {}) == ["h:1"]
  {
    hide NormalizePortal, AttachIdentity;
    ContextIsRead();
    assert ActivePortals(["h:1"], {}) == ["h:1"];
    assert Elems(["h:1"]) - NO_DEVICE.stuck == {"h:1"};
  }

  /** A stage of the first LUN that finds no device ends the second LUN's session. */
  lemma FailedStageCutsNeighbour()
    ensures var n := Node(map[], Host([SECOND], [], "", {}, {}));
            var (n', r) := StageDo(NODE, n, "v", "/s", CTX, false, NO_DEVICE);
            r.Err? && SECOND !in n'.host.sessions
  {
    hide NormalizePortal, AttachIdentity, StageDo, CleansUp, ActivePortals, LoggedIn, Recorded;
    PortalIsNormal();
    ContextIsRead();
    NoDeviceCleansUp();
    var n := Node(map[], Host([SECOND], [], "", {}, {}));
    StageKeepsExactly(NODE, n, "v", "/s", CTX, false, NO_DEVICE, SECOND);
    StageOutcome(NODE, n, "v", "/s", CTX, false, NO_DEVICE);
  }

  /** Everything appears, but the device cannot be formatted. */
  const NO_FORMAT := NO_DEVICE.(raw := Some("sda"), wwid := Some("w"), mapper := Some("dm-0"), formats := false)

  /** Such a stage fails, leaves its session, and is on record. */
  lemma FailedFormatLeavesSession()
    ensures var n := Node(map[], Host([], [], "", {}, {}));
            var (n', r) := StageDo(NODE, n, "v", "/s", CTX, false, NO_FORMAT);
            r.Err? && "v" in n'.meta && FIRST in n'.host.sessions
  {
    hide AttachIdentity, StageDo, ActivePortals, LoggedIn;
    ContextIsRead();
    NoDeviceCleansUp();
    var n := Node(map[], Host([], [], "", {}, {}));
    assert AttachIdentity(NO_FORMAT.own, NO_FORMAT.san, "v", CTX) == Ok(Endpoint(["h:1"], "i", 0));
    assert Attaches(NODE, ActivePortals(["h:1"], NO_FORMAT.down), NO_FORMAT);
    LoginBrings(n.host.sessions, ["h:1"], "i", NO_FORMAT, "h:1", FIRST);
    StageOutcome(NODE, n, "v", "/s", CTX, false, NO_FORMAT);
    var (n', r) := StageDo(NODE, n, "v", "/s", CTX, false, NO_FORMAT);
    assert r.Err?;
    assert "v" in n'.meta;
    assert FIRST in n'.host.sessions;
  }

  // ----- After a restart -----

  lemma BareBase(name: string)
    requires Bare(name)
    ensures BaseName(name) == name
  {
    hide StripSlashes;
    StripBare(name);
  }

  /** A row of a path device and its map. */
  lemma RowFields(dev: string, wwid: string)
    requires NoSpace(dev) && NoSpace(wwid) && dev != [] && wwid != []
    ensures Fields(dev + " " + wwid) == [dev, wwid]
  {
    hide Fields;
    FieldsToken("", dev, " " + wwid);
    FieldsToken(" ", wwid, "");
    FieldsBlank("");
    assert "" + dev + (" " + wwid) == dev + " " + wwid && " " + wwid + "" == " " + wwid;
  }

  lemma OneRow()
    ensures PathRows("sda w") == [["sda", "w"]]
  {
    hide TrimSpace, Split, Fields;
    SolidEnds("sda w");
    SplitLast("sda w", '\n');
    RowFields("sda", "w");
    assert "sda" + " " + "w" == "sda w";
  }

  const RECORD := StageMeta(["h:1"], "i", 0, "w")

  const ATTACHED := Host([FIRST], [], "sda w", {}, {"w"})

  lemma RecordIsAttached()
    ensures Attached(NODE, ATTACHED, RECORD) && Mapped(ATTACHED, RECORD)
  {
    hide NormalizePortal, BaseName, PathRows;
    PortalIsNormal();
    OneRow();
    BareBase("sda");
    assert FIRST in ATTACHED.sessions && OfLun(RECORD, FIRST);
    assert MembersOf([["sda", "w"]], "w") == ["sda"];
  }

  /** The mount is listed under its resolved name: the restarted node finds nothing to detach. */
  lemma ResolvedNameIsNotFound()
    ensures FromMount(NODE, ATTACHED, WORKS.(source := Some("dm-0"))).None?
  {
    hide NormalizePortal, BaseName, PathRows, FromMount;
    RecordIsAttached();
    BareBase("sda");
    BareBase("dm-0");
    ColdMatchesWarmExactlyForMapperNames(NODE, ATTACHED, RECORD, WORKS.(source := Some("dm-0")));
  }

  /** Without multipath and with two portals, a restarted node finds one of them. */
  lemma SecondPortalIsForgotten()
    ensures var h := Host([FIRST, Session("i", "h:2", 0, "sdc")], [], "", {}, {});
            var m := StageMeta(["h:1", "h:2"], "i", 0, "");
            && Attached(Config({}, false), h, m)
            && FromMount(Config({}, false), h, WORKS.(source := Some("sda"))) == Some(Id("i", 0, "", {"h:1"}))
            && MetaId(m).portals == {"h:1", "h:2"}
  {
    hide NormalizePortal, BaseName, FromMount;
    PortalIsNormal();
    BareBase("sda");
    BareBase("sdc");
    var c := Config({}, false);
    var twin := Session("i", "h:2", 0, "sdc");
    var h := Host([FIRST, twin], [], "", {}, {});
    var m := StageMeta(["h:1", "h:2"], "i", 0, "");
    assert FIRST in h.sessions && twin in h.sessions && OfLun(m, FIRST) && OfLun(m, twin);
    ColdWithoutMultipathExactlyForOnePortal(c, h, m, WORKS.(source := Some("sda")), FIRST);
  }

  lemma TwoRows()
    ensures PathRows("sda w\nsdb x") == [["sda", "w"], ["sdb", "x"]]
  {
    hide TrimSpace, Split, Fields;
    SolidEnds("sda w\nsdb x");
    SplitPart("sda w", '\n', "sdb x");
    SplitLast("sdb x", '\n');
    assert "sda w" + ['\n'] + "sdb x" == "sda w\nsdb x";
    RowFields("sda", "w");
    RowFields("sdb", "x");
    assert "sda" + " " + "w" == "sda w" && "sdb" + " " + "x" == "sdb x";
  }

  /** Both LUNs of the target are attached and the second is listed last: whichever volume of the
      target a restarted node is to unstage, it takes the second's LUN and map. */
  lemma SanTierTakesNeighbour()
    ensures var h := Host([FIRST, SECOND], [], "sda w\nsdb x", {}, {"w", "x"});
            var a := WORKS.(san := Some(SAN));
            FromSan(NODE, h, a, PrintExternalID(OTHER)) == Some(Id("i", 1, "x", {"h:1"}))
  {
    hide NormalizePortal, BaseName, PathRows, PrintExternalID, SanIqn;
    PortalIsNormal();
    TwoRows();
    BareBase("sdb");
    SanKnowsOther();
    var ss := [FIRST, SECOND];
    var p := OnTarget(NODE, "i");
    assert p(FIRST) && p(SECOND);
    assert MatchPortals(ss, p) == {"h:1"} by {
      assert FIRST in ss;
    }
    assert WwidOf([["sda", "w"], ["sdb", "x"]], "sdb") == "x";
  }
}

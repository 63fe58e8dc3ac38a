/**
  The destructive operations of the qnap controller against an appliance that reuses LUN and
  target indices: what they may touch, from any appliance state and with any call failing.
*/
module QnapController {
  import opened Base
  import opened Driver
  import opened QnapId

  /** How the next appliance call goes: it works, fails with an API code before or after taking
      effect, or fails because the session expired. */
  datatype Fault = Fine | Fails(code: int) | FailsAfter(code: int) | Expired

  /** A removed index may still show as a ghost row with an empty name. */
  datatype Lun = Lun(name: string, capacity: int)
  datatype Target = Target(alias: string, iqn: string, luns: set<int>)

  /** `snaps` gives the LUN index of every snapshot. */
  datatype App = App(luns: map<int, Lun>, targets: map<int, Target>, snaps: map<int, int>, nextSnap: int,
                     faults: seq<Fault>)

  datatype Out<+T> = Done(value: T) | Failed(code: int) | AuthFailed

  const NOT_FOUND: int := -22

  function Next(app: App): Fault
  {
    if app.faults == [] then Fine else app.faults[0]
  }

  function Tick(app: App): App
  {
    if app.faults == [] then app else app.(faults := app.faults[1..])
  }

  function Query<T>(app: App, answer: Option<T>): Out<T>
  {
    match Next(app)
    case Fails(code) => Failed(code)
    case FailsAfter(code) => Failed(code)
    case Expired => AuthFailed
    case Fine => if answer.Some? then Done(answer.value) else Failed(NOT_FOUND)
  }

  function Change(app: App, allowed: bool, effect: App): (App, Out<()>)
  {
    match Next(app)
    case Fine => if allowed then (Tick(effect), Done(())) else (Tick(app), Failed(NOT_FOUND))
    case Fails(code) => (Tick(app), Failed(code))
    case FailsAfter(code) => (Tick(if allowed then effect else app), Failed(code))
    case Expired => (Tick(app), AuthFailed)
  }

  /** mapQNAPError. */
  function Mapped<T>(o: Out<T>): Code
  {
    match o
    case AuthFailed => CodeUnavailable
    case Failed(code) =>
      if code == -22 || code == -17 then CodeAlreadyExists
      else if code == -34 then CodeFailedPrecondition
      else CodeInternal
    case Done(_) => CodeUnknown
  }

  // ----- Appliance calls -----

  function GetLunOut(app: App, idx: int): Out<Lun>
  {
    Query(app, if idx in app.luns then Some(app.luns[idx]) else None)
  }

  function GetTargetOut(app: App, idx: int): Out<Target>
  {
    Query(app, if idx in app.targets then Some(app.targets[idx]) else None)
  }

  function SnapshotsOf(snaps: map<int, int>, idx: int): set<int>
  {
    set s | s in snaps && snaps[s] == idx
  }

  function ListSnapshotsOut(app: App, idx: int): Out<set<int>>
  {
    Query(app, Some(SnapshotsOf(app.snaps, idx)))
  }

  function LoginOut(app: App): Out<()>
  {
    Query(app, Some(()))
  }

  function UnmapDo(app: App, lun: int, target: int): App
  {
    if target !in app.targets then Tick(app)
    else
      var t := app.targets[target];
      Change(app, true, app.(targets := app.targets[target := t.(luns := t.luns - {lun})])).0
  }

  function DeleteLunDo(app: App, idx: int): (App, Out<()>)
  {
    Change(app, idx in app.luns && app.luns[idx].name != "", app.(luns := app.luns - {idx}))
  }

  function DeleteTargetDo(app: App, idx: int): (App, Out<()>)
  {
    Change(app, true, app.(targets := app.targets - {idx}))
  }

  function ResizeDo(app: App, idx: int, bytes: int): (App, Out<()>)
  {
    if idx !in app.luns then Change(app, false, app)
    else Change(app, true, app.(luns := app.luns[idx := app.luns[idx].(capacity := bytes)]))
  }

  function SnapshotDo(app: App, idx: int): (App, Out<()>)
  {
    Change(app, idx in app.luns, app.(snaps := app.snaps[app.nextSnap := idx], nextSnap := app.nextSnap + 1))
  }

  // ----- What the controller does -----

  type Status = Result<()>

  const OK: Status := Driver.Ok(())

  /** sessionManager.do around a GetLUN: one retry with a fresh login when the session expired. */
  function GetLunRetried(app: App, idx: int): (App, Out<Lun>)
  {
    var login := LoginOut(app);
    var a1 := Tick(app);
    if !login.Done? then (a1, Failed(0))
    else
      var first := GetLunOut(a1, idx);
      var a2 := Tick(a1);
      if !first.AuthFailed? then (a2, first)
      else
        var again := LoginOut(a2);
        var a3 := Tick(a2);
        if !again.Done? then (a3, Failed(0)) else (Tick(a3), GetLunOut(a3, idx))
  }

  /** ensureLUNIsOurs; an id without a name skips the check. */
  function EnsureOursDo(app: App, eid: ExternalID): (App, Status)
  {
    if eid.lunName == "" then (app, OK)
    else
      var (a1, lun) := GetLunRetried(app, eid.lunIndex);
      if !lun.Done? || lun.value.name != eid.lunName then (a1, Err(CodeNotFound)) else (a1, OK)
  }

  function LunGone(o: Out<Lun>): bool
  {
    !o.Done? || o.value.name == "" || o.value.capacity == 0
  }

  /** Our own LUN: refused while it has snapshots, else unmapped and deleted. */
  function RemoveLunDo(app: App, eid: ExternalID): (App, Status)
  {
    var snaps := ListSnapshotsOut(app, eid.lunIndex);
    var a1 := Tick(app);
    if !snaps.Done? then (a1, Err(Mapped(snaps)))
    else if snaps.value != {} then (a1, Err(CodeFailedPrecondition))
    else
      var a2 := UnmapDo(a1, eid.lunIndex, eid.targetIndex);
      var (a3, deleted) := DeleteLunDo(a2, eid.lunIndex);
      if deleted.Done? then
        var wait := LoginOut(a3);
        (Tick(a3), if wait.Done? then OK else Err(Mapped(wait)))
      else if LunGone(GetLunOut(a3, eid.lunIndex)) then (Tick(a3), OK)
      else (Tick(a3), Err(Mapped(deleted)))
  }

  /** An owned target goes only while its alias is still the LUN name it was made for. */
  function RemoveTargetDo(app: App, eid: ExternalID): App
  {
    if !eid.ownTarget || eid.lunName == "" then app
    else
      var tgt := GetTargetOut(app, eid.targetIndex);
      var a1 := Tick(app);
      if tgt.Done? && tgt.value.alias == eid.lunName then DeleteTargetDo(a1, eid.targetIndex).0 else a1
  }

  function DeleteDo(app: App, eid: ExternalID): (App, Status)
  {
    var login := LoginOut(app);
    var a1 := Tick(app);
    if !login.Done? then (a1, Err(CodeUnknown))
    else
      var lun := GetLunOut(a1, eid.lunIndex);
      var a2 := Tick(a1);
      var keep := !lun.Done? || lun.value.name == "" || (eid.lunName != "" && lun.value.name != eid.lunName);
      var (a3, r) := if keep then (a2, OK) else RemoveLunDo(a2, eid);
      if r.Err? then (a3, r) else (RemoveTargetDo(a3, eid), OK)
  }

  /** A resize and the wait for it to show. */
  function ResizeAndWait(app: App, idx: int, bytes: int): (App, Out<()>)
  {
    var (a1, resized) := ResizeDo(app, idx, bytes);
    if !resized.Done? then (a1, resized) else (Tick(a1), LoginOut(a1))
  }

  function ResizeRetried(app: App, idx: int, bytes: int): (App, Out<()>)
  {
    var login := LoginOut(app);
    if !login.Done? then (Tick(app), login)
    else
      var (a1, first) := ResizeAndWait(Tick(app), idx, bytes);
      if !first.AuthFailed? then (a1, first)
      else if !LoginOut(a1).Done? then (Tick(a1), LoginOut(a1))
      else ResizeAndWait(Tick(a1), idx, bytes)
  }

  function SnapshotRetried(app: App, idx: int): (App, Out<()>)
  {
    var login := LoginOut(app);
    if !login.Done? then (Tick(app), login)
    else
      var (a1, first) := SnapshotDo(Tick(app), idx);
      if !first.AuthFailed? then (a1, first)
      else if !LoginOut(a1).Done? then (Tick(a1), LoginOut(a1))
      else SnapshotDo(Tick(a1), idx)
  }

  function ExpandDo(app: App, eid: ExternalID, bytes: int): (App, Status)
  {
    var (a1, ours) := EnsureOursDo(app, eid);
    if ours.Err? then (a1, ours)
    else
      var (a2, o) := ResizeRetried(a1, eid.lunIndex, bytes);
      (a2, if o.Done? then OK else Err(Mapped(o)))
  }

  function SnapshotVolumeDo(app: App, eid: ExternalID): (App, Status)
  {
    var (a1, ours) := EnsureOursDo(app, eid);
    if ours.Err? then (a1, ours)
    else
      var (a2, o) := SnapshotRetried(a1, eid.lunIndex);
      (a2, if o.Done? then OK else Err(Mapped(o)))
  }

  // ----- Nobody else's LUN -----

  /** New snapshots get unused numbers. */
  ghost predicate Sound(app: App)
  {
    forall s :: s in app.snaps ==> s < app.nextSnap
  }

  /** The LUN at index `i` is the one of that name. */
  predicate Named(app: App, i: int, name: string)
  {
    i in app.luns && app.luns[i].name == name
  }

  /** The target keeps its alias and IQN, gains no LUN, and every LUN of another name stays mapped. */
  ghost predicate KeepsMappings(app: App, before: Target, after: Target, name: string)
  {
    && after == before.(luns := after.luns) && after.luns <= before.luns
    && forall i :: i in before.luns && !Named(app, i, name) ==> i in after.luns
  }

  /** Every LUN of another name keeps its index, its size and its snapshots; every target of another
      alias stays; and on every target that stays, every LUN of another name stays mapped. */
  ghost predicate SparesOthers(app: App, app': App, name: string)
  {
    && (forall i :: i in app.luns && app.luns[i].name != name ==>
          && i in app'.luns && app'.luns[i] == app.luns[i]
          && SnapshotsOf(app'.snaps, i) == SnapshotsOf(app.snaps, i))
    && (forall t :: t in app.targets && app.targets[t].alias != name ==> t in app'.targets)
    && (forall t :: t in app.targets && t in app'.targets ==> KeepsMappings(app, app.targets[t], app'.targets[t], name))
  }

  ghost predicate Like(app: App, e: App)
  {
    app == e.(faults := app.faults)
  }

  lemma ChangeIs(app: App, allowed: bool, effect: App)
    requires effect.faults == app.faults
    ensures var (a, o) := Change(app, allowed, effect);
            (Like(a, app) && !o.Done?) || (Like(a, effect) && allowed)
  {
  }

  lemma TickLike(app: App)
    ensures Like(Tick(app), app)
  {
  }

  lemma LunOutMeans(app: App, idx: int)
    ensures GetLunOut(app, idx).Done? ==> idx in app.luns && GetLunOut(app, idx).value == app.luns[idx]
  {
  }

  /** At most `lun` was unmapped from the target. */
  ghost predicate UnmapsOnly(before: Target, after: Target, lun: int)
  {
    after == before.(luns := after.luns) && before.luns - {lun} <= after.luns <= before.luns
  }

  lemma UnmapSpares(app: App, lun: int, target: int)
    ensures var a := UnmapDo(app, lun, target);
            && a == app.(targets := a.targets, faults := a.faults) && a.targets.Keys == app.targets.Keys
            && forall t :: t in app.targets ==> UnmapsOnly(app.targets[t], a.targets[t], lun)
  {
  }

  /** Only the LUN at `idx` may be gone. */
  ghost predicate OnlyLun(app: App, a: App, idx: int)
  {
    && a == app.(luns := a.luns, faults := a.faults)
    && forall i :: i != idx ==> (i in a.luns <==> i in app.luns) && (i in app.luns ==> a.luns[i] == app.luns[i])
  }

  lemma DeleteLunTouches(app: App, idx: int)
    ensures OnlyLun(app, DeleteLunDo(app, idx).0, idx)
  {
  }

  lemma RemoveLunTouches(app: App, eid: ExternalID)
    ensures var a := RemoveLunDo(app, eid).0;
            && OnlyLun(app.(targets := a.targets), a, eid.lunIndex) && a.targets.Keys == app.targets.Keys
            && forall t :: t in app.targets ==> UnmapsOnly(app.targets[t], a.targets[t], eid.lunIndex)
  {
    hide UnmapDo, DeleteLunDo, ListSnapshotsOut, GetLunOut, LoginOut, LunGone, Mapped, Tick;
    TickLike(app);
    UnmapSpares(Tick(app), eid.lunIndex, eid.targetIndex);
    var a2 := UnmapDo(Tick(app), eid.lunIndex, eid.targetIndex);
    DeleteLunTouches(a2, eid.lunIndex);
    TickLike(DeleteLunDo(a2, eid.lunIndex).0);
  }

  lemma RemoveTargetTouches(app: App, eid: ExternalID)
    ensures var a := RemoveTargetDo(app, eid);
            && a == app.(targets := a.targets, faults := a.faults)
            && (forall t :: t in app.targets && app.targets[t].alias != eid.lunName ==> t in a.targets)
            && forall t :: t in a.targets ==> t in app.targets && a.targets[t] == app.targets[t]
  {
  }

  lemma DeleteSpares(app: App, eid: ExternalID)
    requires eid.lunName != ""
    ensures SparesOthers(app, DeleteDo(app, eid).0, eid.lunName)
  {
    hide RemoveLunDo, RemoveTargetDo, SnapshotsOf, GetLunOut, LoginOut, Tick;
    TickLike(app);
    TickLike(Tick(app));
    LunOutMeans(Tick(app), eid.lunIndex);
    var a2 := Tick(Tick(app));
    RemoveLunTouches(a2, eid);
    RemoveTargetTouches(a2, eid);
    RemoveTargetTouches(RemoveLunDo(a2, eid).0, eid);
  }

  lemma GetLunMeans(app: App, idx: int)
    ensures var (a, lun) := GetLunRetried(app, idx);
            Like(a, app) && (lun.Done? ==> idx in app.luns && lun.value == app.luns[idx])
  {
  }

  lemma EnsureOursMeans(app: App, eid: ExternalID)
    ensures var (a, r) := EnsureOursDo(app, eid);
            && Like(a, app)
            && (r.Ok? && eid.lunName != "" ==> eid.lunIndex in app.luns && app.luns[eid.lunIndex].name == eid.lunName)
  {
    hide GetLunRetried;
    GetLunMeans(app, eid.lunIndex);
  }

  lemma ResizeTouches(app: App, idx: int, bytes: int)
    ensures OnlyLun(app, ResizeAndWait(app, idx, bytes).0, idx)
    ensures idx in ResizeAndWait(app, idx, bytes).0.luns <==> idx in app.luns
  {
  }

  lemma ExpandSpares(app: App, eid: ExternalID, bytes: int)
    requires eid.lunName != ""
    ensures SparesOthers(app, ExpandDo(app, eid, bytes).0, eid.lunName)
  {
    hide EnsureOursDo, ResizeAndWait, SnapshotsOf, LoginOut, Tick, Mapped;
    EnsureOursMeans(app, eid);
    TickLike(EnsureOursDo(app, eid).0);
    var a1 := Tick(EnsureOursDo(app, eid).0);
    ResizeTouches(a1, eid.lunIndex, bytes);
    TickLike(ResizeAndWait(a1, eid.lunIndex, bytes).0);
    ResizeTouches(Tick(ResizeAndWait(a1, eid.lunIndex, bytes).0), eid.lunIndex, bytes);
  }

  /** New snapshots, if any, are on the LUN at `idx`. */
  ghost predicate OnlySnapshots(app: App, a: App, idx: int)
  {
    && a == app.(snaps := a.snaps, nextSnap := a.nextSnap, faults := a.faults)
    && (Sound(app) ==> Sound(a) && forall i :: i != idx ==> SnapshotsOf(a.snaps, i) == SnapshotsOf(app.snaps, i))
  }

  lemma SnapshotTouches(app: App, idx: int)
    ensures OnlySnapshots(app, SnapshotDo(app, idx).0, idx)
  {
  }

  lemma SnapshotVolumeSpares(app: App, eid: ExternalID)
    requires eid.lunName != "" && Sound(app)
    ensures SparesOthers(app, SnapshotVolumeDo(app, eid).0, eid.lunName)
    ensures Sound(SnapshotVolumeDo(app, eid).0)
  {
    hide EnsureOursDo, SnapshotDo, SnapshotsOf, LoginOut, Tick, Mapped;
    EnsureOursMeans(app, eid);
    TickLike(EnsureOursDo(app, eid).0);
    var a1 := Tick(EnsureOursDo(app, eid).0);
    SnapshotTouches(a1, eid.lunIndex);
    TickLike(SnapshotDo(a1, eid.lunIndex).0);
    SnapshotTouches(Tick(SnapshotDo(a1, eid.lunIndex).0), eid.lunIndex);
  }

  // ----- Whole runs -----

  /** A driver call, or anything at all done to the appliance from outside between calls. */
  datatype Event =
    | Delete(eid: ExternalID)
    | Expand(eid: ExternalID, bytes: int)
    | Snapshot(eid: ExternalID)
    | Outside(app: App)

  ghost function Apply(app: App, ev: Event): App
  {
    match ev
    case Delete(eid) => DeleteDo(app, eid).0
    case Expand(eid, bytes) => ExpandDo(app, eid, bytes).0
    case Snapshot(eid) => SnapshotVolumeDo(app, eid).0
    case Outside(after) => after
  }

  ghost function StateAt(app: App, evs: seq<Event>, n: nat): App
    requires n <= |evs|
  {
    if n == 0 then app else Apply(StateAt(app, evs, n - 1), evs[n - 1])
  }

  ghost predicate SoundOutside(ev: Event)
  {
    ev.Outside? ==> Sound(ev.app)
  }

  lemma CallsStaySound(app: App, ev: Event)
    requires Sound(app) && SoundOutside(ev)
    ensures Sound(Apply(app, ev))
  {
    hide DeleteDo, ExpandDo, SnapshotVolumeDo, SnapshotsOf;
    match ev
    case Delete(eid) => DeleteKeepsSnapshots(app, eid);
    case Expand(eid, bytes) => ExpandKeepsSnapshots(app, eid, bytes);
    case Snapshot(eid) => SnapshotStaysSound(app, eid);
    case Outside(after) =>
  }

  lemma DeleteKeepsSnapshots(app: App, eid: ExternalID)
    ensures DeleteDo(app, eid).0.snaps == app.snaps && DeleteDo(app, eid).0.nextSnap == app.nextSnap
  {
    hide RemoveLunDo, RemoveTargetDo, GetLunOut, LoginOut, Tick;
    TickLike(app);
    TickLike(Tick(app));
    var a2 := Tick(Tick(app));
    RemoveLunTouches(a2, eid);
    RemoveTargetTouches(a2, eid);
    RemoveTargetTouches(RemoveLunDo(a2, eid).0, eid);
  }

  lemma ExpandKeepsSnapshots(app: App, eid: ExternalID, bytes: int)
    ensures ExpandDo(app, eid, bytes).0.snaps == app.snaps && ExpandDo(app, eid, bytes).0.nextSnap == app.nextSnap
  {
    hide EnsureOursDo, ResizeAndWait, LoginOut, Tick, Mapped;
    EnsureOursMeans(app, eid);
    TickLike(EnsureOursDo(app, eid).0);
    var a1 := Tick(EnsureOursDo(app, eid).0);
    ResizeTouches(a1, eid.lunIndex, bytes);
    TickLike(ResizeAndWait(a1, eid.lunIndex, bytes).0);
    ResizeTouches(Tick(ResizeAndWait(a1, eid.lunIndex, bytes).0), eid.lunIndex, bytes);
  }

  lemma SnapshotStaysSound(app: App, eid: ExternalID)
    requires Sound(app)
    ensures Sound(SnapshotVolumeDo(app, eid).0)
  {
    hide EnsureOursDo, SnapshotDo, SnapshotsOf, LoginOut, Tick, Mapped;
    EnsureOursMeans(app, eid);
    TickLike(EnsureOursDo(app, eid).0);
    var a1 := Tick(EnsureOursDo(app, eid).0);
    SnapshotTouches(a1, eid.lunIndex);
    TickLike(SnapshotDo(a1, eid.lunIndex).0);
    SnapshotTouches(Tick(SnapshotDo(a1, eid.lunIndex).0), eid.lunIndex);
  }

  lemma {:induction false} RunStaysSound(app: App, evs: seq<Event>, n: nat)
    requires Sound(app) && n <= |evs| && forall i :: 0 <= i < |evs| ==> SoundOutside(evs[i])
    ensures Sound(StateAt(app, evs, n))
  {
    hide Apply;
    if n > 0 {
      RunStaysSound(app, evs, n - 1);
      assert SoundOutside(evs[n - 1]);
      CallsStaySound(StateAt(app, evs, n - 1), evs[n - 1]);
    }
  }

  /** Over every run that mixes driver calls with outside reuse of indices between them, and with
      any appliance call failing: a call on an id with a name leaves every LUN of another name
      with its size and snapshots, and every target of another alias in place. */
  lemma CallsSpareOtherVolumes(app: App, evs: seq<Event>, n: nat)
    requires Sound(app) && n < |evs| && forall i :: 0 <= i < |evs| ==> SoundOutside(evs[i])
    requires !evs[n].Outside? && evs[n].eid.lunName != ""
    ensures SparesOthers(StateAt(app, evs, n), StateAt(app, evs, n + 1), evs[n].eid.lunName)
  {
    hide DeleteDo, ExpandDo, SnapshotVolumeDo, SnapshotsOf, SparesOthers;
    RunStaysSound(app, evs, n);
    var a := StateAt(app, evs, n);
    match evs[n]
    case Delete(eid) => DeleteSpares(a, eid);
    case Expand(eid, bytes) => ExpandSpares(a, eid, bytes);
    case Snapshot(eid) => SnapshotVolumeSpares(a, eid);
  }

  // ----- What a delete does to its own volume -----

  /** Without failures, a delete of a named id removes exactly its own LUN, when the index still
      holds it without snapshots, and its own target, when the alias still matches. */
  lemma DeleteRemovesItsOwn(app: App, eid: ExternalID)
    requires app.faults == [] && eid.lunName != ""
    ensures var (a, r) := DeleteDo(app, eid);
            var ours := eid.lunIndex in app.luns && app.luns[eid.lunIndex].name == eid.lunName;
            var held := ours && SnapshotsOf(app.snaps, eid.lunIndex) != {};
            && (r.Ok? <==> !held)
            && (eid.lunIndex in app.luns && eid.lunIndex !in a.luns <==> ours && !held)
            && (eid.targetIndex in app.targets && eid.targetIndex !in a.targets <==>
                  !held && eid.ownTarget && eid.targetIndex in app.targets
                      && app.targets[eid.targetIndex].alias == eid.lunName)
  {
    hide SnapshotsOf;
  }

  /** The one way a delete reaches another LUN: when that LUN is mapped on the target the id owns,
      and the alias still matches. Without failures it loses that mapping if and only if the id
      owns the target and no snapshot holds the delete back. */
  lemma OtherLunOnOwnTarget(app: App, eid: ExternalID, i: int)
    requires app.faults == [] && eid.lunName != "" && eid.targetIndex in app.targets
    requires app.targets[eid.targetIndex].alias == eid.lunName
    requires i in app.targets[eid.targetIndex].luns && i in app.luns && app.luns[i].name != eid.lunName
    ensures var a := DeleteDo(app, eid).0;
            var held := Named(app, eid.lunIndex, eid.lunName) && SnapshotsOf(app.snaps, eid.lunIndex) != {};
            eid.targetIndex in a.targets && i in a.targets[eid.targetIndex].luns <==> !eid.ownTarget || held
  {
    hide DeleteDo, SnapshotsOf;
    DeleteRemovesItsOwn(app, eid);
    DeleteSpares(app, eid);
  }

  /** An id without a name has no guard: whatever LUN holds the index by now is deleted. A LUN of
      another name survives the delete exactly when the id carries a name. */
  lemma NameIsTheGuard(app: App, eid: ExternalID)
    requires app.faults == [] && eid.lunIndex in app.luns
    requires app.luns[eid.lunIndex].name != "" && app.luns[eid.lunIndex].name != eid.lunName
    requires SnapshotsOf(app.snaps, eid.lunIndex) == {}
    ensures eid.lunIndex in DeleteDo(app, eid).0.luns <==> eid.lunName != ""
  {
    hide SnapshotsOf;
  }

  /** The fault of the k-th appliance call from here. */
  function FaultAt(app: App, k: nat): Fault
  {
    if k < |app.faults| then app.faults[k] else Fine
  }

  lemma RemoveLunOutcome(app: App, eid: ExternalID)
    requires eid.lunIndex in app.luns && app.luns[eid.lunIndex].name != "" && app.luns[eid.lunIndex].capacity != 0
    requires RemoveLunDo(app, eid).1.Ok?
    ensures eid.lunIndex in RemoveLunDo(app, eid).0.luns <==>
            !FaultAt(app, 2).Fine? && !FaultAt(app, 2).FailsAfter? && !FaultAt(app, 3).Fine?
  {
    hide UnmapDo, Mapped, SnapshotsOf;
    UnmapSpares(Tick(app), eid.lunIndex, eid.targetIndex);
    UnmapTicks(Tick(app), eid.lunIndex, eid.targetIndex);
  }

  lemma UnmapTicks(app: App, lun: int, target: int)
    ensures UnmapDo(app, lun, target).faults == Tick(app).faults
  {
  }

  /** A delete that reports success has removed its LUN, except exactly when the first read of the
      LUN failed, or the delete command failed before its effect and the confirming read failed
      too: in both cases a failed read is taken for a LUN that is already gone. */
  lemma SuccessfulDeleteKeepsLunExactlyWhen(app: App, eid: ExternalID)
    requires eid.lunName != "" && eid.lunIndex in app.luns && app.luns[eid.lunIndex].name == eid.lunName
    requires app.luns[eid.lunIndex].capacity != 0 && DeleteDo(app, eid).1.Ok?
    ensures eid.lunIndex in DeleteDo(app, eid).0.luns <==>
            || !FaultAt(app, 1).Fine?
            || (!FaultAt(app, 4).Fine? && !FaultAt(app, 4).FailsAfter? && !FaultAt(app, 5).Fine?)
  {
    hide RemoveLunDo, RemoveTargetDo, SnapshotsOf;
    var a2 := Tick(Tick(app));
    RemoveTargetTouches(a2, eid);
    RemoveTargetTouches(RemoveLunDo(a2, eid).0, eid);
    if RemoveLunDo(a2, eid).1.Ok? {
      RemoveLunOutcome(a2, eid);
    }
  }

  /** For instance: one failed read, and the delete reports success over a LUN that is still there. */
  lemma FailedReadPassesForGone()
    ensures var app := App(map[1 := Lun("v", 1)], map[], map[], 0, [Fine, Fails(-1)]);
            var (a, r) := DeleteDo(app, ExternalID(1, 2, false, "v"));
            r.Ok? && a.luns == app.luns
  {
    var app := App(map[1 := Lun("v", 1)], map[], map[], 0, [Fine, Fails(-1)]);
    assert Tick(app).faults == [Fails(-1)];
    assert !GetLunOut(Tick(app), 1).Done?;
  }

  // ----- The clone path -----

  /** CloneLUN: the appliance copies whatever LUN holds the index, to a new one at `fresh`. */
  function CloneLunDo(app: App, src: int, name: string, at: int): (App, Out<Lun>)
  {
    if src !in app.luns then (Tick(app), if Next(app).Expired? then AuthFailed else Failed(NOT_FOUND))
    else
      var copied := app.luns[src];
      var (a1, o) := Change(app, true, app.(luns := app.luns[at := Lun(name, copied.capacity)]));
      (a1, if o.Done? then Done(copied) else if o.AuthFailed? then AuthFailed else Failed(o.code))
  }

  /** provisionLUN's clone: a copy of the LUN at the id's index, with no look at its name. */
  function CloneVolumeDo(app: App, eid: ExternalID, name: string, at: int): (App, Out<Lun>)
  {
    if !LoginOut(app).Done? then (Tick(app), Failed(0))
    else
      var (a1, first) := CloneLunDo(Tick(app), eid.lunIndex, name, at);
      if !first.AuthFailed? then (a1, first)
      else if !LoginOut(a1).Done? then (Tick(a1), Failed(0))
      else CloneLunDo(Tick(a1), eid.lunIndex, name, at)
  }

  /** A clone that succeeds, retried session included, has copied the volume its source id names if
      and only if the index still holds that name; a snapshot of the same id is taken only then. */
  lemma CloneCopiesNamedExactly(app: App, eid: ExternalID, name: string, at: int)
    requires CloneVolumeDo(app, eid, name, at).1.Done?
    ensures CloneVolumeDo(app, eid, name, at).1.value.name == eid.lunName <==> Named(app, eid.lunIndex, eid.lunName)
    ensures eid.lunName != "" && SnapshotVolumeDo(app, eid).1.Ok? ==> Named(app, eid.lunIndex, eid.lunName)
  {
    hide SnapshotVolumeDo;
    SnapshotNeedsName(app, eid);
    TickLike(app);
    CloneLunMeans(Tick(app), eid.lunIndex, name, at);
    var a1 := CloneLunDo(Tick(app), eid.lunIndex, name, at).0;
    TickLike(a1);
    CloneLunMeans(Tick(a1), eid.lunIndex, name, at);
  }

  lemma SnapshotNeedsName(app: App, eid: ExternalID)
    ensures eid.lunName != "" && SnapshotVolumeDo(app, eid).1.Ok? ==> Named(app, eid.lunIndex, eid.lunName)
  {
    hide SnapshotRetried, EnsureOursDo, Mapped;
    EnsureOursMeans(app, eid);
    var (a1, ours) := EnsureOursDo(app, eid);
    assert ours.Err? ==> SnapshotVolumeDo(app, eid).1 == ours;
  }

  lemma CloneLunMeans(app: App, src: int, name: string, at: int)
    ensures var (a, o) := CloneLunDo(app, src, name, at);
            && (o.Done? ==> src in app.luns && o.value == app.luns[src])
            && (o.AuthFailed? ==> Like(a, app))
  {
  }

  /** For instance: the index was reused, and the clone is of the other volume. */
  lemma CloneCopiesReusedIndex()
    ensures var app := App(map[1 := Lun("other", 4)], map[], map[], 0, []);
            CloneVolumeDo(app, ExternalID(1, 2, false, "v"), "copy", 9).1 == Done(Lun("other", 4))
  {
    var app := App(map[1 := Lun("other", 4)], map[], map[], 0, []);
    assert Tick(app) == app && LoginOut(app).Done?;
    assert CloneLunDo(app, 1, "copy", 9).1 == Done(Lun("other", 4));
  }
}

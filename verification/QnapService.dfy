/** The qnap controller's calls as code: DeleteVolume, ExpandVolume and CreateSnapshot. */
module QnapService {
  import opened Driver
  import opened QnapId
  import opened QnapController

  const GIB: int := 0x4000_0000

  /** sizeGiBExact: whole GiB only. */
  function SizeExact(required: int, limit: int): Result<int>
  {
    if required <= 0 || required % GIB != 0 then Err(CodeInvalidArgument)
    else if limit > 0 && required > limit then Err(CodeOutOfRange)
    else Ok(required)
  }

  class Appliance {
    var st: App

    constructor (st: App)
      ensures this.st == st
    {
      this.st := st;
    }

    /** Logging in, or waiting for a state the appliance reports. */
    method Login() returns (o: Out<()>)
      modifies this
      ensures o == LoginOut(old(st)) && st == Tick(old(st))
    {
      o := LoginOut(st);
      st := Tick(st);
    }

    method GetLUN(idx: int) returns (o: Out<Lun>)
      modifies this
      ensures o == GetLunOut(old(st), idx) && st == Tick(old(st))
    {
      o := GetLunOut(st, idx);
      st := Tick(st);
    }

    method GetTarget(idx: int) returns (o: Out<Target>)
      modifies this
      ensures o == GetTargetOut(old(st), idx) && st == Tick(old(st))
    {
      o := GetTargetOut(st, idx);
      st := Tick(st);
    }

    method ListSnapshots(idx: int) returns (o: Out<set<int>>)
      modifies this
      ensures o == ListSnapshotsOut(old(st), idx) && st == Tick(old(st))
    {
      o := ListSnapshotsOut(st, idx);
      st := Tick(st);
    }

    method UnmapLUN(lun: int, target: int)
      modifies this
      ensures st == UnmapDo(old(st), lun, target)
    {
      st := UnmapDo(st, lun, target);
    }

    method DeleteLUN(idx: int) returns (o: Out<()>)
      modifies this
      ensures (st, o) == DeleteLunDo(old(st), idx)
    {
      var r := DeleteLunDo(st, idx);
      st, o := r.0, r.1;
    }

    method DeleteTarget(idx: int) returns (o: Out<()>)
      modifies this
      ensures (st, o) == DeleteTargetDo(old(st), idx)
    {
      var r := DeleteTargetDo(st, idx);
      st, o := r.0, r.1;
    }

    method ResizeLUN(idx: int, bytes: int) returns (o: Out<()>)
      modifies this
      ensures (st, o) == ResizeDo(old(st), idx, bytes)
    {
      var r := ResizeDo(st, idx, bytes);
      st, o := r.0, r.1;
    }

    method CreateSnapshot(idx: int) returns (o: Out<()>)
      modifies this
      ensures (st, o) == SnapshotDo(old(st), idx)
    {
      var r := SnapshotDo(st, idx);
      st, o := r.0, r.1;
    }
  }

  class Service {
    const cl: Appliance

    constructor (cl: Appliance)
      ensures this.cl == cl
    {
      this.cl := cl;
    }

    method EnsureLUNIsOurs(eid: ExternalID) returns (r: QnapController.Status)
      modifies cl
      ensures (cl.st, r) == EnsureOursDo(old(cl.st), eid)
    {
      if eid.lunName == "" {
        return QnapController.OK;
      }
      var login := cl.Login();
      if !login.Done? {
        return Err(CodeNotFound);
      }
      var lun := cl.GetLUN(eid.lunIndex);
      if lun.AuthFailed? {
        login := cl.Login();
        if !login.Done? {
          return Err(CodeNotFound);
        }
        lun := cl.GetLUN(eid.lunIndex);
      }
      if !lun.Done? || lun.value.name != eid.lunName {
        return Err(CodeNotFound);
      }
      return QnapController.OK;
    }

    method RemoveLUN(eid: ExternalID) returns (r: QnapController.Status)
      modifies cl
      ensures (cl.st, r) == RemoveLunDo(old(cl.st), eid)
    {
      hide SnapshotsOf;
      var snaps := cl.ListSnapshots(eid.lunIndex);
      if !snaps.Done? {
        return Err(Mapped(snaps));
      }
      if snaps.value != {} {
        return Err(CodeFailedPrecondition);
      }
      cl.UnmapLUN(eid.lunIndex, eid.targetIndex);
      var deleted := cl.DeleteLUN(eid.lunIndex);
      if deleted.Done? {
        var wait := cl.Login();
        return if wait.Done? then QnapController.OK else Err(Mapped(wait));
      }
      var left := cl.GetLUN(eid.lunIndex);
      return if LunGone(left) then QnapController.OK else Err(Mapped(deleted));
    }

    method DeleteVolume(id: string) returns (r: QnapController.Status)
      modifies cl
      ensures ParseExternalID(id).Ok? ==> (cl.st, r) == DeleteDo(old(cl.st), ParseExternalID(id).value)
      ensures ParseExternalID(id).Err? ==> cl.st == old(cl.st) && r == Err(CodeInvalidArgument)
    {
      hide ParseExternalID, RemoveLunDo;
      var parsed := ParseExternalID(id);
      if parsed.Err? {
        MalformedIsInvalid(id);
        return Err(parsed.code);
      }
      var eid := parsed.value;
      var login := cl.Login();
      if !login.Done? {
        return Err(CodeUnknown);
      }
      var lun := cl.GetLUN(eid.lunIndex);
      if !lun.Done? || lun.value.name == "" {
        // already gone: nothing to delete
      } else if eid.lunName != "" && lun.value.name != eid.lunName {
        // a different LUN holds the index now: leave it alone
      } else {
        r := RemoveLUN(eid);
        if r.Err? {
          return;
        }
      }
      if eid.ownTarget && eid.lunName != "" {
        var tgt := cl.GetTarget(eid.targetIndex);
        if tgt.Done? && tgt.value.alias == eid.lunName {
          var ignored := cl.DeleteTarget(eid.targetIndex);
        }
      }
      return QnapController.OK;
    }

    method ExpandVolume(id: string, required: int, limit: int) returns (r: Result<int>)
      modifies cl
      ensures ParseExternalID(id).Err? || SizeExact(required, limit).Err? ==> cl.st == old(cl.st) && r.Err?
      ensures ParseExternalID(id).Ok? && SizeExact(required, limit).Ok? ==>
                && cl.st == ExpandDo(old(cl.st), ParseExternalID(id).value, required).0
                && r == if ExpandDo(old(cl.st), ParseExternalID(id).value, required).1.Ok? then Ok(required)
                        else Err(ExpandDo(old(cl.st), ParseExternalID(id).value, required).1.code)
    {
      hide ParseExternalID, EnsureOursDo;
      var parsed := ParseExternalID(id);
      if parsed.Err? {
        return Err(parsed.code);
      }
      var size := SizeExact(required, limit);
      if size.Err? {
        return Err(size.code);
      }
      var eid := parsed.value;
      var ours := EnsureLUNIsOurs(eid);
      if ours.Err? {
        return Err(ours.code);
      }
      var o := ResizeWithRetry(eid.lunIndex, required);
      r := if o.Done? then Ok(required) else Err(Mapped(o));
    }

    method ResizeOnce(idx: int, bytes: int) returns (o: Out<()>)
      modifies cl
      ensures (cl.st, o) == ResizeAndWait(old(cl.st), idx, bytes)
    {
      o := cl.ResizeLUN(idx, bytes);
      if o.Done? {
        o := cl.Login();
      }
    }

    method ResizeWithRetry(idx: int, bytes: int) returns (o: Out<()>)
      modifies cl
      ensures (cl.st, o) == ResizeRetried(old(cl.st), idx, bytes)
    {
      hide ResizeAndWait;
      o := cl.Login();
      if !o.Done? {
        return;
      }
      o := ResizeOnce(idx, bytes);
      if o.AuthFailed? {
        o := cl.Login();
        if !o.Done? {
          return;
        }
        o := ResizeOnce(idx, bytes);
      }
    }

    method CreateSnapshot(source: string) returns (r: QnapController.Status)
      modifies cl
      ensures ParseExternalID(source).Ok? ==> (cl.st, r) == SnapshotVolumeDo(old(cl.st), ParseExternalID(source).value)
      ensures ParseExternalID(source).Err? ==> cl.st == old(cl.st) && r.Err?
    {
      hide ParseExternalID, EnsureOursDo, SnapshotDo;
      var parsed := ParseExternalID(source);
      if parsed.Err? {
        return Err(parsed.code);
      }
      r := EnsureLUNIsOurs(parsed.value);
      if r.Err? {
        return;
      }
      var o := cl.Login();
      if !o.Done? {
        return Err(Mapped(o));
      }
      o := cl.CreateSnapshot(parsed.value.lunIndex);
      if o.AuthFailed? {
        o := cl.Login();
        if !o.Done? {
          return Err(Mapped(o));
        }
        o := cl.CreateSnapshot(parsed.value.lunIndex);
      }
      r := if o.Done? then QnapController.OK else Err(Mapped(o));
    }
  }

  lemma MalformedIsInvalid(id: string)
    requires ParseExternalID(id).Err?
    ensures ParseExternalID(id).code == CodeInvalidArgument
  {
  }
}

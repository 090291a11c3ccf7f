/** The yoda node server (pkg/yoda/nodeserver.go together with the mount
    code of pkg/yoda/mount.go): publishing dispatches on the volume type
    to one of the three mount procedures, unpublishing unmounts a mounted
    target, and the node reports itself under the yoda host-name topology
    key. */
module YodaNode {
  import opened Wrappers
  import opened GoInt
  import opened Csi
  import opened YodaUtils
  import opened YodaMount

  /** NodeGetInfo's answer. */
  datatype NodeInfo = NodeInfo(nodeId: string, topology: map<string, string>)

  /** Node service capabilities (CSI NodeServiceCapability.RPC.Type). */
  datatype NodeCapability = UnknownCapability | StageUnstageVolume | GetVolumeStats | ExpandVolume

  /** NodePublishVolume: a target path is required; the volume type picks
      the mount procedure. */
  function PublishEffect(answer: Action -> Reply, capacity: string -> Option<int64>, req: PublishRequest): Effect<()> {
    if req.targetPath == "" then Effect([], Err(Status(Internal, "targetPath is empty")))
    else
      var volumeType := Lookup(req.volumeContext, VolumeTypeTag);
      if volumeType == LvmVolumeType then MountLvmEffect(answer, capacity(req.volumeId), req)
      else if volumeType == LocalVolumeType then MountLocalEffect(answer, req)
      else if volumeType == DeviceVolumeType then MountDeviceEffect(answer, req)
      else Effect([], Err(Status(Internal, "volumeType is not support " + volumeType)))
  }

  /** Publishing runs exactly the mount procedure of the volume's type;
      without a target path or for any other type it touches nothing on
      the host and fails with Internal. */
  lemma PublishDispatch(answer: Action -> Reply, capacity: string -> Option<int64>, req: PublishRequest)
    ensures var e := PublishEffect(answer, capacity, req);
      var volumeType := Lookup(req.volumeContext, VolumeTypeTag);
      && (req.targetPath == "" ==> e == Effect([], Err(Status(Internal, "targetPath is empty"))))
      && (req.targetPath != "" ==>
        && (volumeType == LvmVolumeType ==> e == MountLvmEffect(answer, capacity(req.volumeId), req))
        && (volumeType == LocalVolumeType ==> e == MountLocalEffect(answer, req))
        && (volumeType == DeviceVolumeType ==> e == MountDeviceEffect(answer, req))
        && (volumeType !in {LvmVolumeType, LocalVolumeType, DeviceVolumeType} ==>
          e.actions == [] && e.result.Err? && e.result.error.Status? && e.result.error.code == Internal))
  {
  }

  /** NodeUnpublishVolume: unmounts the target when it is mounted. */
  function UnpublishEffect(answer: Action -> Reply, targetPath: string): Effect<()> {
    var m := answer(IsMounted(targetPath));
    if m.err.Some? then
      var s := answer(Stat(targetPath));
      Effect([IsMounted(targetPath), Stat(targetPath)],
        Err(if NotExist(s) then Status(NotFound, "TargetPath not found") else Status(Internal, m.err.value)))
    else if !m.yes then Effect([IsMounted(targetPath)], Ok(()))
    else
      var u := answer(Unmount(targetPath));
      Effect([IsMounted(targetPath), Unmount(targetPath)], if u.err.Some? then Err(Status(Internal, u.err.value)) else Ok(()))
  }

  /** A target that is not mounted is left alone and the call succeeds; a
      mount check that fails on a missing target is NotFound; a mounted
      target is unmounted once, and nothing else is ever unmounted. */
  lemma UnpublishCases(answer: Action -> Reply, targetPath: string)
    ensures var e := UnpublishEffect(answer, targetPath);
      var m := answer(IsMounted(targetPath));
      && (m.err.None? && !m.yes ==> e == Effect([IsMounted(targetPath)], Ok(())))
      && (m.err.Some? && NotExist(answer(Stat(targetPath))) ==> e.result == Err(Status(NotFound, "TargetPath not found")))
      && (Unmount(targetPath) in e.actions <==> m.err.None? && m.yes)
      && (forall a :: a in e.actions && a.Unmount? ==> a.path == targetPath)
  {
  }

  /** The capabilities NodeGetCapabilities reports. */
  function NodeCapabilities(): (r: seq<NodeCapability>)
    ensures |r| == 2 && StageUnstageVolume in r && ExpandVolume in r
  {
    [StageUnstageVolume, ExpandVolume]
  }

  class NodeServer {
    const nodeId: string
    const host: Host
    /** The PV lookup getPvSize makes: the storage capacity of the PV of that
        name, or None when the lookup fails. */
    const pvCapacity: string -> Option<int64>

    constructor (nodeId: string, host: Host, pvCapacity: string -> Option<int64>)
      ensures this.nodeId == nodeId && this.host == host && this.pvCapacity == pvCapacity
    {
      this.nodeId := nodeId;
      this.host := host;
      this.pvCapacity := pvCapacity;
    }

    /** NodeGetInfo: the node, reachable under the yoda host-name key. */
    function NodeGetInfo(): (r: NodeInfo)
      ensures r.nodeId == nodeId
      ensures r.topology.Keys == {TopologyNodeKey} && r.topology[TopologyNodeKey] == nodeId
    {
      NodeInfo(nodeId, map[TopologyNodeKey := nodeId])
    }

    method NodeGetCapabilities() returns (r: seq<NodeCapability>)
      ensures r == NodeCapabilities()
    {
      r := [StageUnstageVolume, ExpandVolume];
    }

    /** NodeStageVolume, NodeUnstageVolume and NodeExpandVolume succeed
        without touching the host. */
    method NodeStageVolume() returns (r: Result<(), Error>)
      ensures r == Ok(())
    {
      r := Ok(());
    }

    method NodeUnstageVolume() returns (r: Result<(), Error>)
      ensures r == Ok(())
    {
      r := Ok(());
    }

    method NodeExpandVolume() returns (r: Result<(), Error>)
      ensures r == Ok(())
    {
      r := Ok(());
    }

    /** createVolume (node side). */
    method CreateVolume(volumeId: string, vgName: string, lvmType: string) returns (r: Result<(), Error>)
      modifies host
      ensures host.actions == old(host.actions) + CreateEffect(host.answer, pvCapacity(volumeId), volumeId, vgName, lvmType).actions
      ensures r == CreateEffect(host.answer, pvCapacity(volumeId), volumeId, vgName, lvmType).result
    {
      var p := PvSize(pvCapacity(volumeId));
      var pvNumber := 0;
      var ck := host.Do(Run(VgckLine(vgName)));
      if ck.err.Some? {
        return Err(HostError(ck));
      }
      if lvmType == StripingType {
        assert Strings.IntToString(pvNumber) == "0";
        var o := host.Do(Run(StripedCreateLine(volumeId, p.0, p.1, vgName)));
        if o.err.Some? {
          return Err(HostError(o));
        }
      } else if lvmType == LinearType {
        var o := host.Do(Run(LinearCreateLine(volumeId, p.0, p.1, vgName)));
        if o.err.Some? {
          return Err(HostError(o));
        }
      }
      return Ok(());
    }

    /** resizeVolume. */
    method ResizeVolume(volumeId: string, vgName: string, targetPath: string) returns (r: Result<(), Error>)
      modifies host
      ensures host.actions == old(host.actions) + ResizeEffect(host.answer, pvCapacity(volumeId), volumeId, vgName, targetPath).actions
      ensures r == ResizeEffect(host.answer, pvCapacity(volumeId), volumeId, vgName, targetPath).result
    {
      var p := PvSize(pvCapacity(volumeId));
      var dev := DevicePath(vgName, volumeId);
      var show := host.Do(Run(LvdisplayLine(dev)));
      if show.err.Some? {
        return Err(HostError(show));
      }
      if show.out == "" {
        return Err(Status(Internal, "Get lvm size error"));
      }
      var sizeStr := Strings.Split(show.out, ".")[0];
      var parsed := Strings.ParseInt64(Strings.TrimSpace(sizeStr));
      if parsed.None? {
        return Err(Plain(Strings.ParseIntError(Strings.TrimSpace(sizeStr))));
      }
      if parsed.value >= p.0 {
        return Ok(());
      }
      r := ExtendLv(p.0, p.1, dev, targetPath);
      AppendAssoc(old(host.actions), [Run(LvdisplayLine(dev))], ExtendEffect(host.answer, p.0, p.1, dev, targetPath).actions);
    }

    /** The tail of resizeVolume: `lvextend` to the PV's size, then the
        file-system resize. */
    method ExtendLv(size: int, unit: string, devicePath: string, targetPath: string) returns (r: Result<(), Error>)
      modifies host
      ensures host.actions == old(host.actions) + ExtendEffect(host.answer, size, unit, devicePath, targetPath).actions
      ensures r == ExtendEffect(host.answer, size, unit, devicePath, targetPath).result
    {
      var extend := host.Do(Run(LvextendLine(size, unit, devicePath)));
      if extend.err.Some? {
        return Err(HostError(extend));
      }
      var resize := host.Do(ResizeFs(devicePath, targetPath));
      if resize.err.Some? {
        return Err(HostError(resize));
      }
      if !resize.yes {
        return Err(Status(Internal, "Fail to resize volume fs"));
      }
      return Ok(());
    }

    /** mountLvm, with the target check as corrected in PrepareTarget. */
    method MountLvm(req: PublishRequest) returns (r: Result<(), Error>)
      modifies host
      ensures host.actions == old(host.actions) + MountLvmEffect(host.answer, pvCapacity(req.volumeId), req).actions
      ensures r == MountLvmEffect(host.answer, pvCapacity(req.volumeId), req).result
    {
      var vgName := "";
      if VgNameTag in req.volumeContext {
        vgName := req.volumeContext[VgNameTag];
      }
      if vgName == "" {
        return Err(Status(Internal, "error with input vgName is empty"));
      }
      var lvmType := LinearType;
      if LvmTypeTag in req.volumeContext {
        lvmType := req.volumeContext[LvmTypeTag];
      }
      var fsType := DefaultFs;
      if FsTypeTag in req.volumeContext {
        fsType := req.volumeContext[FsTypeTag];
      }
      var dev := DevicePath(vgName, req.volumeId);
      ghost var start := host.actions;
      ghost var created := NotExist(host.answer(Stat(dev)));
      ghost var c := if created then CreateEffect(host.answer, pvCapacity(req.volumeId), req.volumeId, vgName, lvmType) else Effect([], Ok(()));
      ghost var p := PublishLvmDevice(host.answer, pvCapacity(req.volumeId), req, vgName, fsType, created);
      var volumeNewCreated := false;
      var st := host.Do(Stat(dev));
      if NotExist(st) {
        volumeNewCreated := true;
        var cr := CreateVolume(req.volumeId, vgName, lvmType);
        AppendAssoc(start, [Stat(dev)], c.actions);
        if cr.Err? {
          return Err(Status(Internal, ErrorText(cr.error)));
        }
      }
      assert host.actions == start + ([Stat(dev)] + c.actions);
      r := PublishDevice(req, vgName, fsType, volumeNewCreated);
      AppendAssoc(start, [Stat(dev)] + c.actions, p.actions);
    }

    /** The part of mountLvm after the device exists. */
    method PublishDevice(req: PublishRequest, vgName: string, fsType: string, volumeNewCreated: bool) returns (r: Result<(), Error>)
      modifies host
      ensures host.actions == old(host.actions) + PublishLvmDevice(host.answer, pvCapacity(req.volumeId), req, vgName, fsType, volumeNewCreated).actions
      ensures r == PublishLvmDevice(host.answer, pvCapacity(req.volumeId), req, vgName, fsType, volumeNewCreated).result
    {
      var dev := DevicePath(vgName, req.volumeId);
      ghost var start := host.actions;
      ghost var t := PrepareTarget(host.answer, req.targetPath);
      ghost var f := FormatEffect(host.answer, dev, fsType);
      ghost var e := PublishLvmDevice(host.answer, pvCapacity(req.volumeId), req, vgName, fsType, volumeNewCreated);
      var isMnt := CheckTarget(req.targetPath);
      if isMnt.Err? {
        assert e == Effect(t.actions, Err(isMnt.error));
        return Err(isMnt.error);
      }
      assert host.actions == start + t.actions;
      var fs := EnsureFilesystem(dev, fsType);
      AppendAssoc(start, t.actions, f.actions);
      if fs.Err? {
        assert e == After(t.actions, f);
        return fs;
      }
      ghost var m := MountEffect(host.answer, dev, req, fsType, isMnt.value);
      var mnt := MountIfNeeded(dev, req, fsType, isMnt.value);
      AppendAssoc(start, t.actions + f.actions, m.actions);
      if mnt.Err? || volumeNewCreated {
        assert e == After(t.actions + f.actions, m);
        return mnt;
      }
      ghost var z := ResizeEffect(host.answer, pvCapacity(req.volumeId), req.volumeId, vgName, req.targetPath);
      var rs := ResizeVolume(req.volumeId, vgName, req.targetPath);
      AppendAssoc(start, t.actions + f.actions + m.actions, z.actions);
      assert e == Effect(t.actions + f.actions + m.actions + z.actions,
        if z.result.Err? then Err(Status(Internal, ErrorText(z.result.error))) else Ok(()));
      if rs.Err? {
        return Err(Status(Internal, ErrorText(rs.error)));
      }
      return Ok(());
    }

    /** The target check of mountLvm: whether the target is mounted;
        a missing target is created. */
    method CheckTarget(targetPath: string) returns (r: Result<bool, Error>)
      modifies host
      ensures host.actions == old(host.actions) + PrepareTarget(host.answer, targetPath).actions
      ensures r == PrepareTarget(host.answer, targetPath).result
    {
      var isMnt := false;
      var m := host.Do(IsMounted(targetPath));
      if m.err.Some? {
        var s := host.Do(Stat(targetPath));
        if NotExist(s) {
          var k := host.Do(MkdirAll(targetPath));
          if k.err.Some? {
            return Err(Status(Internal, k.err.value));
          }
          isMnt := false;
        } else {
          return Err(Status(Internal, m.err.value));
        }
      } else {
        isMnt := m.yes;
      }
      return Ok(isMnt);
    }

    /** Probe the device, and format it when it holds no file system. */
    method EnsureFilesystem(dev: string, fsType: string) returns (r: Result<(), Error>)
      modifies host
      ensures host.actions == old(host.actions) + FormatEffect(host.answer, dev, fsType).actions
      ensures r == FormatEffect(host.answer, dev, fsType).result
    {
      var existing := host.CheckFSType(dev);
      if existing.Err? {
        return Err(Status(Internal, "check fs type err: " + ErrorText(existing.error)));
      }
      if existing.value == "" {
        var f := host.FormatDevice(dev, fsType);
        if f.Some? {
          return Err(Status(Internal, "format fstype failed: err=" + ErrorText(f.value)));
        }
      }
      return Ok(());
    }

    /** Mount the device unless the target is already mounted. */
    method MountIfNeeded(dev: string, req: PublishRequest, fsType: string, isMnt: bool) returns (r: Result<(), Error>)
      modifies host
      ensures host.actions == old(host.actions) + MountEffect(host.answer, dev, req, fsType, isMnt).actions
      ensures r == MountEffect(host.answer, dev, req, fsType, isMnt).result
    {
      if !isMnt {
        var options := [if req.readonly then "ro" else "rw"];
        options := options + req.mountFlags;
        var o := host.Do(Mount(dev, req.targetPath, fsType, options));
        if o.err.Some? {
          return Err(Status(Internal, o.err.value));
        }
      }
      return Ok(());
    }

    method MountLocalVolume(req: PublishRequest) returns (r: Result<(), Error>)
      modifies host
      ensures host.actions == old(host.actions) + MountLocalEffect(host.answer, req).actions
      ensures r == MountLocalEffect(host.answer, req).result
    {
      var sourcePath := "";
      if "localVolume" in req.volumeContext {
        sourcePath := req.volumeContext["localVolume"];
      }
      if sourcePath == "" {
        return Err(Status(Internal, "Mount LocalVolume with empty source path " + req.volumeId));
      }
      var notMounted := host.Do(IsLikelyNotMountPoint(req.targetPath));
      if notMounted.err.Some? {
        return Err(Status(Internal, notMounted.err.value));
      }
      if !notMounted.yes {
        return Ok(());
      }
      var options := req.mountFlags + ["bind"];
      if req.readonly {
        options := options + ["ro"];
      }
      assert options == LocalMountOptions(req.mountFlags, req.readonly);
      var fsType := "ext4";
      if req.fsType != "" {
        fsType := req.fsType;
      }
      var o := host.Do(KubeMount(sourcePath, req.targetPath, fsType, options));
      if o.err.Some? {
        return Err(Status(Internal, o.err.value));
      }
      return Ok(());
    }

    method MountDeviceVolume(req: PublishRequest) returns (r: Result<(), Error>)
      modifies host
      ensures host.actions == old(host.actions) + MountDeviceEffect(host.answer, req).actions
      ensures r == MountDeviceEffect(host.answer, req).result
    {
      var sourceDevice := "";
      if "device" in req.volumeContext {
        sourceDevice := req.volumeContext["device"];
      }
      if sourceDevice == "" {
        return Err(Status(Internal, "Mount Device with empty source path " + req.volumeId));
      }
      var options := req.mountFlags + ["shared"];
      var fsType := "ext4";
      if req.fsType != "" {
        fsType := req.fsType;
      }
      var o := host.Do(FormatAndMount(sourceDevice, req.targetPath, fsType, options));
      if o.err.Some? {
        return Err(Status(Internal, o.err.value));
      }
      return Ok(());
    }

    method NodePublishVolume(req: PublishRequest) returns (r: Result<(), Error>)
      modifies host
      ensures host.actions == old(host.actions) + PublishEffect(host.answer, pvCapacity, req).actions
      ensures r == PublishEffect(host.answer, pvCapacity, req).result
    {
      if req.targetPath == "" {
        return Err(Status(Internal, "targetPath is empty"));
      }
      var volumeType := "";
      if VolumeTypeTag in req.volumeContext {
        volumeType := req.volumeContext[VolumeTypeTag];
      }
      if volumeType == LvmVolumeType {
        r := MountLvm(req);
      } else if volumeType == LocalVolumeType {
        r := MountLocalVolume(req);
      } else if volumeType == DeviceVolumeType {
        r := MountDeviceVolume(req);
      } else {
        return Err(Status(Internal, "volumeType is not support " + volumeType));
      }
    }

    method NodeUnpublishVolume(targetPath: string) returns (r: Result<(), Error>)
      modifies host
      ensures host.actions == old(host.actions) + UnpublishEffect(host.answer, targetPath).actions
      ensures r == UnpublishEffect(host.answer, targetPath).result
    {
      var m := host.Do(IsMounted(targetPath));
      if m.err.Some? {
        var s := host.Do(Stat(targetPath));
        if NotExist(s) {
          return Err(Status(NotFound, "TargetPath not found"));
        }
        return Err(Status(Internal, m.err.value));
      }
      if !m.yes {
        return Ok(());
      }
      var u := host.Do(Unmount(targetPath));
      if u.err.Some? {
        return Err(Status(Internal, u.err.value));
      }
      return Ok(());
    }
  }
}

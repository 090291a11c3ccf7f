/** How the yoda node plugin makes a volume usable on its node
    (pkg/yoda/mount.go): it creates the LVM logical volume when its device
    is missing, formats a device that holds no file system, mounts it when
    the target is not mounted yet and grows an existing LV to its PV's size.
    Local-path volumes are bind-mounted and raw devices formatted and
    mounted.

    Each operation is described by the calls it makes on the node host and
    what it returns (an `Effect`); the node server's methods are proved to
    make exactly those calls. */
module YodaMount {
  import opened Wrappers
  import opened GoInt
  import opened Csi
  import opened YodaUtils
  import Strings

  /** The parts of a NodePublishVolume request the plugin reads. The mount
      flags and file-system type are those of the request's mount
      capability. */
  datatype PublishRequest = PublishRequest(
    volumeId: string,
    targetPath: string,
    volumeContext: map<string, string>,
    readonly: bool,
    mountFlags: seq<string>,
    fsType: string)

  // ---------------------------------------------------------------------
  // Shell lines

  /** A shell line run in the host's mount namespace. */
  function NsenterLine(rest: string): string {
    NsenterCmd + " " + rest
  }

  lemma NsenterLineInjective(a: string, b: string)
    requires NsenterLine(a) == NsenterLine(b)
    ensures a == b
  {
    assert a == NsenterLine(a)[|NsenterCmd| + 1..];
    assert b == NsenterLine(b)[|NsenterCmd| + 1..];
  }

  /** `filepath.Join("/dev", vg, volumeID)` for names that need no cleaning. */
  function DevicePath(vgName: string, volumeId: string): string {
    "/dev/" + vgName + "/" + volumeId
  }

  function VgckLine(vgName: string): string {
    NsenterLine("vgck " + vgName)
  }

  function StripedCreateLine(volumeId: string, size: int, unit: string, vgName: string): string {
    NsenterLine("lvcreate -i 0 -n " + volumeId + " -L " + Strings.IntToString(size) + unit + " " + vgName)
  }

  function LinearCreateLine(volumeId: string, size: int, unit: string, vgName: string): string {
    NsenterLine("lvcreate -n " + volumeId + " -L " + Strings.IntToString(size) + unit + " " + vgName)
  }

  function LvdisplayLine(devicePath: string): string {
    NsenterLine("lvdisplay " + devicePath + " | grep 'LV Size' | awk '{print $3}'")
  }

  function LvextendLine(size: int, unit: string, devicePath: string): string {
    NsenterLine("lvextend -L" + Strings.IntToString(size) + unit + " " + devicePath)
  }

  /** Character `k` of what follows the nsenter prefix. */
  lemma NsenterLineAt(rest: string, k: nat)
    requires k < |rest|
    ensures NsenterLine(rest)[|NsenterCmd| + 1 + k] == rest[k]
  {
  }

  /** The `vgck` line is none of the lines that resize an LV. */
  lemma VgckIsNotResize(vgName: string, devicePath: string, size: int, unit: string)
    ensures VgckLine(vgName) != LvdisplayLine(devicePath)
    ensures VgckLine(vgName) != LvextendLine(size, unit, devicePath)
  {
    NsenterLineAt("vgck " + vgName, 0);
    NsenterLineAt("lvdisplay " + devicePath + " | grep 'LV Size' | awk '{print $3}'", 0);
    NsenterLineAt("lvextend -L" + Strings.IntToString(size) + unit + " " + devicePath, 0);
  }

  /** Neither `lvcreate` line is the `lvdisplay` line. */
  lemma CreateIsNotDisplay(volumeId: string, size: int, unit: string, vgName: string, devicePath: string)
    ensures StripedCreateLine(volumeId, size, unit, vgName) != LvdisplayLine(devicePath)
    ensures LinearCreateLine(volumeId, size, unit, vgName) != LvdisplayLine(devicePath)
  {
    NsenterLineAt("lvcreate -i 0 -n " + volumeId + " -L " + Strings.IntToString(size) + unit + " " + vgName, 2);
    NsenterLineAt("lvcreate -n " + volumeId + " -L " + Strings.IntToString(size) + unit + " " + vgName, 2);
    NsenterLineAt("lvdisplay " + devicePath + " | grep 'LV Size' | awk '{print $3}'", 2);
  }

  // ---------------------------------------------------------------------
  // getPvSize (pkg/yoda/mount.go:209-224)

  /** The PV's capacity in the unit `lvcreate`/`lvextend` are given: whole
      GiB ("g") from 1 GiB on, whole MiB ("m") below; (0, "") when the PV
      cannot be read. `capacity` is the PV lookup: its storage quantity, or
      None when the lookup fails. */
  function PvSize(capacity: Option<int64>): (r: (int, string))
    ensures r.1 == "g" || r.1 == "m" || r == (0, "")
  {
    match capacity
    case None => (0, "")
    case Some(size) =>
      var gb := GoDiv(size, GiB);
      if gb == 0 then (GoDiv(size, MiB), "m") else (gb, "g")
  }

  /** The unit is chosen by size, and the amount is the size rounded down
      to that unit. */
  lemma PvSizeRoundsDown(size: int64)
    requires size >= 0
    ensures var r := PvSize(Some(size));
      && (size >= GiB ==> r.1 == "g" && r.0 >= 1 && r.0 * GiB <= size < (r.0 + 1) * GiB)
      && (size < GiB ==> r.1 == "m" && r.0 * MiB <= size < (r.0 + 1) * MiB)
  {
  }

  // ---------------------------------------------------------------------
  // createVolume (pkg/yoda/mount.go:226-258)

  /** Node-side LV creation: `vgck` must pass, then one `lvcreate` for a
      striped or linear LV; any other type creates nothing. */
  function CreateEffect(answer: Action -> Reply, capacity: Option<int64>, volumeId: string, vgName: string, lvmType: string): Effect<()> {
    var p := PvSize(capacity);
    var ck := answer(Run(VgckLine(vgName)));
    if ck.err.Some? then Effect([Run(VgckLine(vgName))], Err(HostError(ck)))
    else if lvmType == StripingType || lvmType == LinearType then
      var line := if lvmType == StripingType then StripedCreateLine(volumeId, p.0, p.1, vgName)
        else LinearCreateLine(volumeId, p.0, p.1, vgName);
      var o := answer(Run(line));
      Effect([Run(VgckLine(vgName)), Run(line)], if o.err.Some? then Err(HostError(o)) else Ok(()))
    else Effect([Run(VgckLine(vgName))], Ok(()))
  }

  /** createVolume runs `vgck` first and stops when it fails; it then runs
      at most one `lvcreate`, chosen by the LVM type. */
  lemma CreateEffectShape(answer: Action -> Reply, capacity: Option<int64>, volumeId: string, vgName: string, lvmType: string)
    ensures var e := CreateEffect(answer, capacity, volumeId, vgName, lvmType);
      var p := PvSize(capacity);
      && e.actions[0] == Run(VgckLine(vgName))
      && (answer(Run(VgckLine(vgName))).err.Some? ==> e.actions == [Run(VgckLine(vgName))] && e.result.Err?)
      && (answer(Run(VgckLine(vgName))).err.None? ==>
        && (lvmType == StripingType ==> e.actions == [Run(VgckLine(vgName)), Run(StripedCreateLine(volumeId, p.0, p.1, vgName))])
        && (lvmType == LinearType ==> e.actions == [Run(VgckLine(vgName)), Run(LinearCreateLine(volumeId, p.0, p.1, vgName))])
        && (lvmType != StripingType && lvmType != LinearType ==> e == Effect([Run(VgckLine(vgName))], Ok(()))))
  {
  }

  // ---------------------------------------------------------------------
  // resizeVolume (pkg/yoda/mount.go:162-207)

  /** The LV's current size as `lvdisplay` prints it: the integer part,
      before the first ".". */
  function LvSizeText(out: string): string {
    Strings.TrimSpace(Strings.Split(out, ".")[0])
  }

  /** A printed size `<n>.<fraction>` is read as `n`. */
  lemma LvSizeIntegerPart(n: nat, fraction: string)
    requires n <= MaxInt64
    ensures Strings.ParseInt64(LvSizeText(Strings.NatToString(n) + "." + fraction)) == Some(n)
  {
    var digits := Strings.NatToString(n);
    LvSizeTextOfDigits(digits, fraction);
    Strings.ParseInt64ToString(n);
  }

  lemma LvSizeTextOfDigits(digits: string, fraction: string)
    requires |digits| >= 1 && Strings.AllDigits(digits)
    ensures LvSizeText(digits + "." + fraction) == digits
  {
    Strings.DigitsHaveNoDot(digits);
    Strings.SplitHead(digits, ".", fraction);
    assert !Strings.IsSpace(digits[0]) && !Strings.IsSpace(digits[|digits| - 1]);
    Strings.TrimSpaceOfTrimmed(digits);
  }

  /** The LV's size read from the `lvdisplay` reply. */
  function ReadLvSize(show: Reply): (r: Result<int, Error>)
    ensures r.Ok? ==> show.err.None? && show.out != "" && Strings.ParseInt64(LvSizeText(show.out)) == Some(r.value)
    ensures show.err.None? && show.out == "" ==> r == Err(Status(Internal, "Get lvm size error"))
  {
    if show.err.Some? then Err(HostError(show))
    else if show.out == "" then Err(Status(Internal, "Get lvm size error"))
    else
      match Strings.ParseInt64(LvSizeText(show.out))
      case None => Err(Plain(Strings.ParseIntError(LvSizeText(show.out))))
      case Some(current) => Ok(current)
  }

  /** Extending an LV to `size` `unit`, then its file system. */
  function ExtendEffect(answer: Action -> Reply, size: int, unit: string, devicePath: string, targetPath: string): (r: Effect<()>)
    ensures |r.actions| >= 1 && r.actions[0] == Run(LvextendLine(size, unit, devicePath))
    ensures answer(Run(LvextendLine(size, unit, devicePath))).err.None? ==>
      && r.actions == [Run(LvextendLine(size, unit, devicePath)), ResizeFs(devicePath, targetPath)]
      && (r.result.Ok? <==> answer(ResizeFs(devicePath, targetPath)).err.None? && answer(ResizeFs(devicePath, targetPath)).yes)
  {
    var extend := answer(Run(LvextendLine(size, unit, devicePath)));
    if extend.err.Some? then Effect([Run(LvextendLine(size, unit, devicePath))], Err(HostError(extend)))
    else
      var all := [Run(LvextendLine(size, unit, devicePath)), ResizeFs(devicePath, targetPath)];
      var resize := answer(ResizeFs(devicePath, targetPath));
      if resize.err.Some? then Effect(all, Err(HostError(resize)))
      else if !resize.yes then Effect(all, Err(Status(Internal, "Fail to resize volume fs")))
      else Effect(all, Ok(()))
  }

  /** resizeVolume: grows the LV to the PV's size and then its file system;
      an LV at least that large is left alone. */
  function ResizeEffect(answer: Action -> Reply, capacity: Option<int64>, volumeId: string, vgName: string, targetPath: string): (r: Effect<()>)
    ensures |r.actions| >= 1 && r.actions[0] == Run(LvdisplayLine(DevicePath(vgName, volumeId)))
  {
    var p := PvSize(capacity);
    var dev := DevicePath(vgName, volumeId);
    var shown := [Run(LvdisplayLine(dev))];
    match ReadLvSize(answer(Run(LvdisplayLine(dev))))
    case Err(e) => Effect(shown, Err(e))
    case Ok(current) =>
      if current >= p.0 then Effect(shown, Ok(()))
      else After(shown, ExtendEffect(answer, p.0, p.1, dev, targetPath))
  }

  /** Grow only: an LV whose size is read and is at least the PV's is not
      extended; a smaller one is extended to exactly the PV's size and its
      file system resized, and nothing runs after that, whatever the
      resize reports. */
  lemma ResizeGrowsOnly(answer: Action -> Reply, capacity: Option<int64>, volumeId: string, vgName: string, targetPath: string)
    requires var show := answer(Run(LvdisplayLine(DevicePath(vgName, volumeId))));
      show.err.None? && show.out != "" && Strings.ParseInt64(LvSizeText(show.out)).Some?
    ensures var e := ResizeEffect(answer, capacity, volumeId, vgName, targetPath);
      var dev := DevicePath(vgName, volumeId);
      var current := Strings.ParseInt64(LvSizeText(answer(Run(LvdisplayLine(dev))).out)).value;
      var p := PvSize(capacity);
      && (current >= p.0 ==> e == Effect([Run(LvdisplayLine(dev))], Ok(())))
      && (current < p.0 ==>
        && e.actions[..2] == [Run(LvdisplayLine(dev)), Run(LvextendLine(p.0, p.1, dev))]
        && (answer(Run(LvextendLine(p.0, p.1, dev))).err.None? ==>
          && e.actions == [Run(LvdisplayLine(dev)), Run(LvextendLine(p.0, p.1, dev)), ResizeFs(dev, targetPath)]
          && (e.result.Ok? <==> answer(ResizeFs(dev, targetPath)).err.None? && answer(ResizeFs(dev, targetPath)).yes)))
  {
    var dev := DevicePath(vgName, volumeId);
    var p := PvSize(capacity);
    var current := Strings.ParseInt64(LvSizeText(answer(Run(LvdisplayLine(dev))).out)).value;
    ResizeOnSize(answer, capacity, volumeId, vgName, targetPath);
    if current < p.0 {
      var x := ExtendEffect(answer, p.0, p.1, dev, targetPath);
      ShownFirst(Run(LvdisplayLine(dev)), x);
    }
  }

  /** An effect run after one action starts with that action and then its
      own first action. */
  lemma ShownFirst(first: Action, x: Effect<()>)
    requires |x.actions| >= 1
    ensures After([first], x).actions[..2] == [first, x.actions[0]]
  {
    assert ([first] + x.actions)[1] == x.actions[0];
  }

  /** Once a size is read, resizeVolume either stops or extends. */
  lemma ResizeOnSize(answer: Action -> Reply, capacity: Option<int64>, volumeId: string, vgName: string, targetPath: string)
    requires var show := answer(Run(LvdisplayLine(DevicePath(vgName, volumeId))));
      show.err.None? && show.out != "" && Strings.ParseInt64(LvSizeText(show.out)).Some?
    ensures var dev := DevicePath(vgName, volumeId);
      var current := Strings.ParseInt64(LvSizeText(answer(Run(LvdisplayLine(dev))).out)).value;
      var p := PvSize(capacity);
      ResizeEffect(answer, capacity, volumeId, vgName, targetPath) ==
        if current >= p.0 then Effect([Run(LvdisplayLine(dev))], Ok(()))
        else After([Run(LvdisplayLine(dev))], ExtendEffect(answer, p.0, p.1, dev, targetPath))
  {
    var show := answer(Run(LvdisplayLine(DevicePath(vgName, volumeId))));
    assert ReadLvSize(show) == Ok(Strings.ParseInt64(LvSizeText(show.out)).value);
  }

  /** Output from which no size can be read is an error, and nothing is
      extended. */
  lemma ResizeNeedsSize(answer: Action -> Reply, capacity: Option<int64>, volumeId: string, vgName: string, targetPath: string)
    requires var show := answer(Run(LvdisplayLine(DevicePath(vgName, volumeId))));
      show.err.None? && (show.out == "" || Strings.ParseInt64(LvSizeText(show.out)).None?)
    ensures var e := ResizeEffect(answer, capacity, volumeId, vgName, targetPath);
      e.result.Err? && e.actions == [Run(LvdisplayLine(DevicePath(vgName, volumeId)))]
    ensures answer(Run(LvdisplayLine(DevicePath(vgName, volumeId)))).out == "" ==>
      ResizeEffect(answer, capacity, volumeId, vgName, targetPath).result == Err(Status(Internal, "Get lvm size error"))
  {
  }

  // ---------------------------------------------------------------------
  // mountLvm (pkg/yoda/mount.go:20-96)

  /** The target check of mountLvm as the source writes it. When the mount
      check fails, the source stats the target in an `if` whose `else`
      branch sees the stat's own error variable; for a target that exists
      that error is nil, and `err.Error()` dereferences it. */
  datatype TargetCheck = Checked(e: Effect<bool>) | NilErrorPanic(actions: seq<Action>)

  function PrepareTargetAsWritten(answer: Action -> Reply, targetPath: string): TargetCheck {
    var m := answer(IsMounted(targetPath));
    if m.err.None? then Checked(Effect([IsMounted(targetPath)], Ok(m.yes)))
    else
      var s := answer(Stat(targetPath));
      if NotExist(s) then
        var k := answer(MkdirAll(targetPath));
        var all := [IsMounted(targetPath), Stat(targetPath), MkdirAll(targetPath)];
        Checked(Effect(all, if k.err.Some? then Err(Status(Internal, k.err.value)) else Ok(false)))
      else if s.err.Some? then Checked(Effect([IsMounted(targetPath), Stat(targetPath)], Err(Status(Internal, s.err.value))))
      else NilErrorPanic([IsMounted(targetPath), Stat(targetPath)])
  }

  /** The target check as intended: a missing target is created and counts
      as not mounted; any other failure of the mount check is reported with
      that check's error, as NodeUnpublishVolume does. The result is
      whether the target is mounted. */
  function PrepareTarget(answer: Action -> Reply, targetPath: string): (r: Effect<bool>)
    ensures NoRun(r.actions)
  {
    var m := answer(IsMounted(targetPath));
    if m.err.None? then Effect([IsMounted(targetPath)], Ok(m.yes))
    else
      var s := answer(Stat(targetPath));
      if NotExist(s) then
        var k := answer(MkdirAll(targetPath));
        var all := [IsMounted(targetPath), Stat(targetPath), MkdirAll(targetPath)];
        Effect(all, if k.err.Some? then Err(Status(Internal, k.err.value)) else Ok(false))
      else Effect([IsMounted(targetPath), Stat(targetPath)], Err(Status(Internal, m.err.value)))
  }

  /** As written, a target whose mount check fails but which exists makes
      the handler panic. */
  lemma PrepareTargetAsWrittenPanics(answer: Action -> Reply, targetPath: string)
    requires answer(IsMounted(targetPath)).err.Some? && answer(Stat(targetPath)).err.None?
    ensures PrepareTargetAsWritten(answer, targetPath).NilErrorPanic?
  {
  }

  /** The corrected check reports the mount check's error for a target
      that exists, and agrees with the source everywhere the source does
      not panic on a nil error or report a stat error instead. */
  lemma PrepareTargetReportsMountError(answer: Action -> Reply, targetPath: string)
    ensures var m := answer(IsMounted(targetPath));
      m.err.Some? && !NotExist(answer(Stat(targetPath))) ==>
        PrepareTarget(answer, targetPath) == Effect([IsMounted(targetPath), Stat(targetPath)], Err(Status(Internal, m.err.value)))
    ensures answer(IsMounted(targetPath)).err.None? || NotExist(answer(Stat(targetPath))) ==>
      PrepareTargetAsWritten(answer, targetPath) == Checked(PrepareTarget(answer, targetPath))
    ensures PrepareTarget(answer, targetPath).result.Ok? ==>
      PrepareTarget(answer, targetPath).result.value == (answer(IsMounted(targetPath)).err.None? && answer(IsMounted(targetPath)).yes)
  {
  }

  /** The file-system step: probe the device and format it only when it
      holds no file system. */
  function FormatEffect(answer: Action -> Reply, devicePath: string, fsType: string): (r: Effect<()>)
    ensures NoRun(r.actions)
  {
    var probe := CheckFSTypeEffect(answer, devicePath);
    match probe.result
    case Err(e) => Effect(probe.actions, Err(Status(Internal, "check fs type err: " + ErrorText(e))))
    case Ok(existing) =>
      if existing != "" then Effect(probe.actions, Ok(()))
      else
        var o := answer(Exec(MkfsCommand(fsType, devicePath)));
        NoRunConcat(probe.actions, [Exec(MkfsCommand(fsType, devicePath))]);
        Effect(probe.actions + [Exec(MkfsCommand(fsType, devicePath))],
          if o.err.Some? then Err(Status(Internal, "format fstype failed: err=" + ErrorText(FormatError(o)))) else Ok(()))
  }

  /** The options mountLvm mounts with: the access mode, then the flags. */
  function LvmMountOptions(readonly: bool, mountFlags: seq<string>): seq<string> {
    [if readonly then "ro" else "rw"] + mountFlags
  }

  /** The mount step: mounts only a target that is not mounted yet. */
  function MountEffect(answer: Action -> Reply, devicePath: string, req: PublishRequest, fsType: string, mounted: bool): (r: Effect<()>)
    ensures NoRun(r.actions)
  {
    if mounted then Effect([], Ok(()))
    else
      var a := Mount(devicePath, req.targetPath, fsType, LvmMountOptions(req.readonly, req.mountFlags));
      var o := answer(a);
      Effect([a], if o.err.Some? then Err(Status(Internal, o.err.value)) else Ok(()))
  }

  /** What mountLvm does once the device exists. */
  function PublishLvmDevice(answer: Action -> Reply, capacity: Option<int64>, req: PublishRequest, vgName: string, fsType: string, created: bool): Effect<()> {
    var dev := DevicePath(vgName, req.volumeId);
    var t := PrepareTarget(answer, req.targetPath);
    match t.result
    case Err(e) => Effect(t.actions, Err(e))
    case Ok(mounted) =>
      var f := FormatEffect(answer, dev, fsType);
      if f.result.Err? then After(t.actions, f)
      else
        var m := MountEffect(answer, dev, req, fsType, mounted);
        if m.result.Err? || created then After(t.actions + f.actions, m)
        else
          var r := ResizeEffect(answer, capacity, req.volumeId, vgName, req.targetPath);
          Effect(t.actions + f.actions + m.actions + r.actions,
            if r.result.Err? then Err(Status(Internal, ErrorText(r.result.error))) else Ok(()))
  }

  /** mountLvm: create the LV if its device is missing, then probe, format,
      mount and (for an LV that already existed) grow it. */
  function MountLvmEffect(answer: Action -> Reply, capacity: Option<int64>, req: PublishRequest): Effect<()> {
    var vgName := Lookup(req.volumeContext, VgNameTag);
    if vgName == "" then Effect([], Err(Status(Internal, "error with input vgName is empty")))
    else
      var lvmType := LookupOr(req.volumeContext, LvmTypeTag, LinearType);
      var fsType := LookupOr(req.volumeContext, FsTypeTag, DefaultFs);
      var dev := DevicePath(vgName, req.volumeId);
      var created := NotExist(answer(Stat(dev)));
      var c := if created then CreateEffect(answer, capacity, req.volumeId, vgName, lvmType) else Effect([], Ok(()));
      if c.result.Err? then Effect([Stat(dev)] + c.actions, Err(Status(Internal, ErrorText(c.result.error))))
      else After([Stat(dev)] + c.actions, PublishLvmDevice(answer, capacity, req, vgName, fsType, created))
  }

  /** Without a volume group nothing is done on the host. */
  lemma MountLvmNeedsVg(answer: Action -> Reply, capacity: Option<int64>, req: PublishRequest)
    requires Lookup(req.volumeContext, VgNameTag) == ""
    ensures MountLvmEffect(answer, capacity, req) == Effect([], Err(Status(Internal, "error with input vgName is empty")))
  {
  }

  /** The LV is created, with the requested or the linear layout, exactly
      when its device is missing. */
  lemma MountLvmCreatesMissing(answer: Action -> Reply, capacity: Option<int64>, req: PublishRequest)
    requires Lookup(req.volumeContext, VgNameTag) != ""
    ensures var vgName := Lookup(req.volumeContext, VgNameTag);
      var dev := DevicePath(vgName, req.volumeId);
      var e := MountLvmEffect(answer, capacity, req);
      && e.actions[0] == Stat(dev)
      && (NotExist(answer(Stat(dev))) ==>
        e.actions[1..] == CreateEffect(answer, capacity, req.volumeId, vgName, LookupOr(req.volumeContext, LvmTypeTag, LinearType)).actions
          + e.actions[1 + |CreateEffect(answer, capacity, req.volumeId, vgName, LookupOr(req.volumeContext, LvmTypeTag, LinearType)).actions|..])
      && (!NotExist(answer(Stat(dev))) ==> e.actions[1..] == PublishLvmDevice(answer, capacity, req, vgName, LookupOr(req.volumeContext, FsTypeTag, DefaultFs), false).actions)
  {
  }

  /** The device is formatted only when the probe finds no file system, and
      with the requested or the default type. */
  lemma FormatOnlyBlank(answer: Action -> Reply, devicePath: string, fsType: string)
    ensures var e := FormatEffect(answer, devicePath, fsType);
      var probe := CheckFSTypeEffect(answer, devicePath);
      && (probe.result == Ok("") ==> e.actions == probe.actions + [Exec(MkfsCommand(fsType, devicePath))])
      && (probe.result != Ok("") ==> e.actions == probe.actions)
      && (probe.result.Ok? && probe.result.value != "" ==> e.result == Ok(()))
  {
  }

  /** A target that is already mounted is not mounted again; otherwise the
      device is mounted once, read-only or read-write, then the flags. */
  lemma MountOnlyUnmounted(answer: Action -> Reply, devicePath: string, req: PublishRequest, fsType: string, mounted: bool)
    ensures var e := MountEffect(answer, devicePath, req, fsType, mounted);
      && (mounted ==> e == Effect([], Ok(())))
      && (!mounted ==> e.actions == [Mount(devicePath, req.targetPath, fsType, LvmMountOptions(req.readonly, req.mountFlags))])
      && LvmMountOptions(req.readonly, req.mountFlags)[1..] == req.mountFlags
      && (LvmMountOptions(req.readonly, req.mountFlags)[0] == "ro" <==> req.readonly)
  {
  }

  /** A newly created LV is never resized; an existing one is, once it is
      probed, formatted and mounted. */
  lemma NewVolumeNotResized(answer: Action -> Reply, capacity: Option<int64>, req: PublishRequest, vgName: string, fsType: string, created: bool)
    ensures var dev := DevicePath(vgName, req.volumeId);
      var e := PublishLvmDevice(answer, capacity, req, vgName, fsType, created);
      && (created ==> Run(LvdisplayLine(dev)) !in e.actions)
      && (!created && e.result.Ok? ==> Run(LvdisplayLine(dev)) in e.actions)
  {
    var dev := DevicePath(vgName, req.volumeId);
    var e := PublishLvmDevice(answer, capacity, req, vgName, fsType, created);
    var t := PrepareTarget(answer, req.targetPath);
    if t.result.Err? {
      assert e.actions == t.actions;
    } else {
      var f := FormatEffect(answer, dev, fsType);
      var m := MountEffect(answer, dev, req, fsType, t.result.value);
      NoRunConcat(t.actions, f.actions);
      NoRunConcat(t.actions + f.actions, m.actions);
      if f.result.Err? {
        assert e.actions == t.actions + f.actions;
      } else if m.result.Err? || created {
        assert e.actions == t.actions + f.actions + m.actions;
      } else {
        var r := ResizeEffect(answer, capacity, req.volumeId, vgName, req.targetPath);
        assert e.actions == t.actions + f.actions + m.actions + r.actions;
        assert e.actions[|t.actions| + |f.actions| + |m.actions|] == r.actions[0];
      }
    }
  }

  // ---------------------------------------------------------------------
  // mountLocalVolume and mountDeviceVolume (pkg/yoda/mount.go:98-160)

  /** The file system a capability asks for; ext4 when it names none. */
  function CapabilityFs(fsType: string): string {
    if fsType != "" then fsType else "ext4"
  }

  /** The options of a local-path bind mount: the flags, "bind", then "ro"
      for a read-only volume. */
  function LocalMountOptions(mountFlags: seq<string>, readonly: bool): seq<string> {
    mountFlags + ["bind"] + (if readonly then ["ro"] else [])
  }

  /** The options of a device mount: the flags, then "shared". */
  function DeviceMountOptions(mountFlags: seq<string>): seq<string> {
    mountFlags + ["shared"]
  }

  function MountLocalEffect(answer: Action -> Reply, req: PublishRequest): Effect<()> {
    var source := Lookup(req.volumeContext, "localVolume");
    if source == "" then Effect([], Err(Status(Internal, "Mount LocalVolume with empty source path " + req.volumeId)))
    else
      var check := answer(IsLikelyNotMountPoint(req.targetPath));
      if check.err.Some? then Effect([IsLikelyNotMountPoint(req.targetPath)], Err(Status(Internal, check.err.value)))
      else if !check.yes then Effect([IsLikelyNotMountPoint(req.targetPath)], Ok(()))
      else
        var a := KubeMount(source, req.targetPath, CapabilityFs(req.fsType), LocalMountOptions(req.mountFlags, req.readonly));
        var o := answer(a);
        Effect([IsLikelyNotMountPoint(req.targetPath), a], if o.err.Some? then Err(Status(Internal, o.err.value)) else Ok(()))
  }

  /** A local-path volume needs a source; a target that is already a mount
      point succeeds without a mount; otherwise the source is bind-mounted
      with the flags, "bind" and, read-only, "ro". */
  lemma MountLocalCases(answer: Action -> Reply, req: PublishRequest)
    ensures var e := MountLocalEffect(answer, req);
      var check := answer(IsLikelyNotMountPoint(req.targetPath));
      && (Lookup(req.volumeContext, "localVolume") == "" ==> e.actions == [] && e.result.Err?)
      && (Lookup(req.volumeContext, "localVolume") != "" && check.err.None? && !check.yes ==>
        e == Effect([IsLikelyNotMountPoint(req.targetPath)], Ok(())))
      && (forall a :: a in e.actions && a.KubeMount? ==>
        && a.source == req.volumeContext["localVolume"]
        && a.options[..|req.mountFlags|] == req.mountFlags && a.options[|req.mountFlags|] == "bind"
        && (|a.options| == |req.mountFlags| + 2 <==> req.readonly)
        && a.fsType != "")
  {
  }

  function MountDeviceEffect(answer: Action -> Reply, req: PublishRequest): Effect<()> {
    var source := Lookup(req.volumeContext, "device");
    if source == "" then Effect([], Err(Status(Internal, "Mount Device with empty source path " + req.volumeId)))
    else
      var a := FormatAndMount(source, req.targetPath, CapabilityFs(req.fsType), DeviceMountOptions(req.mountFlags));
      var o := answer(a);
      Effect([a], if o.err.Some? then Err(Status(Internal, o.err.value)) else Ok(()))
  }

  /** A device volume needs a source device, which is formatted if need be
      and mounted with the flags and "shared", as ext4 unless the
      capability names a file system. */
  lemma MountDeviceCases(answer: Action -> Reply, req: PublishRequest)
    ensures var e := MountDeviceEffect(answer, req);
      && (Lookup(req.volumeContext, "device") == "" ==> e.actions == [] && e.result.Err?)
      && (Lookup(req.volumeContext, "device") != "" ==>
        && |e.actions| == 1 && e.actions[0].FormatAndMount?
        && e.actions[0].source == req.volumeContext["device"]
        && e.actions[0].options[..|req.mountFlags|] == req.mountFlags && e.actions[0].options[|req.mountFlags|..] == ["shared"]
        && (req.fsType == "" ==> e.actions[0].fsType == "ext4"))
  {
  }
}

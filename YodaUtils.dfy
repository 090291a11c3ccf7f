/** The helpers of the yoda driver (pkg/yoda/utils.go) and the node host
    that they, the mount code and the node server act on.

    The host is a `Host` object: every call the driver makes on the node
    (a command run with `exec`, a shell line run with `utils.Run`, a stat,
    a mount check, a mount, ...) is an `Action`, recorded in order; what the
    host answers is given by a function of the action (`answer`). */
module YodaUtils {
  import opened Wrappers
  import opened Csi
  import Strings

  // ---------------------------------------------------------------------
  // Constants of the yoda package (pkg/yoda/nodeserver.go:34-63)

  /** Runs a shell line in the host's mount namespace (no trailing space). */
  const NsenterCmd := "/nsenter --mount=/proc/1/ns/mnt"
  const VgNameTag := "vgName"
  const VolumeTypeTag := "volumeType"
  const FsTypeTag := "fsType"
  const LvmTypeTag := "lvmType"
  const LvmVolumeType := "LVM"
  const LocalVolumeType := "LocalVolume"
  const DeviceVolumeType := "Device"
  const LinearType := "linear"
  const StripingType := "striping"
  const DefaultFs := "ext4"
  const TopologyNodeKey := "topology.yodaplugin.csi.alibabacloud.com/hostname"

  /** The ECS metadata server. */
  const MetadataURL := "http://100.100.100.200/latest/meta-data/"

  /** The error checkFSType reports for `blkid` output it cannot read. */
  const ErrParse := Plain("Cannot parse output of blkid")

  // ---------------------------------------------------------------------
  // The node host

  /** One call on the node host. */
  datatype Action =
    | Exec(args: seq<string>)            // exec.Command(args...).CombinedOutput()
    | Run(line: string)                  // utils.Run: a shell line
    | Stat(path: string)                 // os.Stat
    | MkdirAll(path: string)             // os.MkdirAll(path, 0750)
    | IsMounted(path: string)            // the driver's mounter
    | IsLikelyNotMountPoint(path: string) // the Kubernetes mounter
    | Mount(source: string, target: string, fsType: string, options: seq<string>)
    | KubeMount(source: string, target: string, fsType: string, options: seq<string>)
    | FormatAndMount(source: string, target: string, fsType: string, options: seq<string>)
    | Unmount(path: string)
    | ResizeFs(device: string, volumePath: string)

  /** What the host answers: the command output, the boolean the call
      returns (the path is mounted / is likely not a mount point / the
      resize took effect; for a failed stat, that the path does not exist),
      and the error text when the call failed. */
  datatype Reply = Reply(out: string, yes: bool, err: Option<string>)

  /** `os.IsNotExist` of a stat's error. */
  predicate NotExist(r: Reply) {
    r.err.Some? && r.yes
  }

  /** No call in `s` is a shell line. */
  predicate NoRun(s: seq<Action>) {
    forall i :: 0 <= i < |s| ==> !s[i].Run?
  }

  lemma NoRunConcat(s: seq<Action>, t: seq<Action>)
    requires NoRun(s) && NoRun(t)
    ensures NoRun(s + t)
  {
    forall i | 0 <= i < |s + t|
      ensures !(s + t)[i].Run?
    {
      if i >= |s| {
        assert (s + t)[i] == t[i - |s|];
      }
    }
  }

  /** The calls a piece of code makes on the host, in order, and what it
      returns. */
  datatype Effect<T> = Effect(actions: seq<Action>, result: Result<T, Error>)

  /** `e`, preceded by the calls in `pre`. */
  function After<T>(pre: seq<Action>, e: Effect<T>): (r: Effect<T>)
    ensures r.result == e.result && r.actions == pre + e.actions
  {
    Effect(pre + e.actions, e.result)
  }


  /** The Go error an `exec` or shell failure is passed on as. */
  function HostError(r: Reply): Error
    requires r.err.Some?
  {
    Plain(r.err.value)
  }

  // ---------------------------------------------------------------------
  // checkFSType (pkg/yoda/utils.go:70-100)

  function FileCommand(devicePath: string): seq<string> {
    ["file", "-bsL", devicePath]
  }

  function BlkidCommand(devicePath: string): seq<string> {
    ["blkid", "-c", "/dev/null", "-o", "export", devicePath]
  }

  /** The `=`-separated fields of a trimmed `blkid` line. */
  function Fields(line: string): seq<string> {
    Strings.Split(Strings.TrimSpace(line), "=")
  }

  /** The fields of a `TYPE=<fs>` line. */
  predicate TypeFields(f: seq<string>) {
    |f| == 2 && f[0] == "TYPE"
  }

  /** The fields of a well-formed `KEY=value` line for a key other than TYPE. */
  predicate OtherFields(f: seq<string>) {
    |f| == 2 && f[0] != "TYPE"
  }

  /** A `TYPE=<fs>` line. */
  predicate TypeLine(line: string) {
    TypeFields(Fields(line))
  }

  /** A well-formed `KEY=value` line for a key other than TYPE. */
  predicate OtherLine(line: string) {
    OtherFields(Fields(line))
  }

  /** The fields of each line, in order. */
  function FieldsOf(lines: seq<string>): (r: seq<seq<string>>)
    ensures |r| == |lines| && forall k :: 0 <= k < |lines| ==> r[k] == Fields(lines[k])
  {
    seq(|lines|, k requires 0 <= k < |lines| => Fields(lines[k]))
  }

  /** The scan of the lines' fields, in order. */
  function ScanFields(fields: seq<seq<string>>): Result<string, Error> {
    if fields == [] then Err(ErrParse)
    else if |fields[0]| != 2 then Err(ErrParse)
    else if fields[0][0] == "TYPE" then Ok(fields[0][1])
    else ScanFields(fields[1..])
  }

  /** The scan of the `blkid` lines. */
  function BlkidType(lines: seq<string>): Result<string, Error> {
    ScanFields(FieldsOf(lines))
  }

  lemma {:induction false} ScanFieldsFound(fields: seq<seq<string>>, k: nat)
    requires k < |fields| && TypeFields(fields[k])
    requires forall j :: 0 <= j < k ==> OtherFields(fields[j])
    ensures ScanFields(fields) == Ok(fields[k][1])
  {
    if k > 0 {
      assert OtherFields(fields[0]);
      var rest := fields[1..];
      assert forall j :: 0 <= j < k - 1 ==> rest[j] == fields[j + 1];
      ScanFieldsFound(rest, k - 1);
    }
  }

  lemma {:induction false} ScanFieldsMalformed(fields: seq<seq<string>>, k: nat)
    requires k < |fields| && |fields[k]| != 2
    requires forall j :: 0 <= j < k ==> OtherFields(fields[j])
    ensures ScanFields(fields) == Err(ErrParse)
  {
    if k > 0 {
      assert OtherFields(fields[0]);
      var rest := fields[1..];
      assert forall j :: 0 <= j < k - 1 ==> rest[j] == fields[j + 1];
      ScanFieldsMalformed(rest, k - 1);
    }
  }

  lemma {:induction false} ScanFieldsResult(fields: seq<seq<string>>)
    ensures ScanFields(fields).Err? ==> ScanFields(fields) == Err(ErrParse)
    ensures ScanFields(fields).Ok? ==>
      exists k :: 0 <= k < |fields| && TypeFields(fields[k])
        && (forall j :: 0 <= j < k ==> OtherFields(fields[j]))
        && ScanFields(fields).value == fields[k][1]
  {
    if fields != [] && |fields[0]| == 2 && fields[0][0] != "TYPE" {
      var rest := fields[1..];
      ScanFieldsResult(rest);
      if ScanFields(rest).Ok? {
        var k :| 0 <= k < |rest| && TypeFields(rest[k])
          && (forall j :: 0 <= j < k ==> OtherFields(rest[j]))
          && ScanFields(rest).value == rest[k][1];
        assert forall j :: 0 <= j < k + 1 ==> OtherFields(fields[j]) by {
          forall j | 0 <= j < k + 1
            ensures OtherFields(fields[j])
          {
            if j > 0 {
              assert fields[j] == rest[j - 1];
            }
          }
        }
        assert fields[k + 1] == rest[k];
      }
    }
  }

  /** The first TYPE line, reached through well-formed lines only, gives
      the file-system type. */
  lemma BlkidTypeFound(lines: seq<string>, k: nat)
    requires k < |lines| && TypeLine(lines[k])
    requires forall j :: 0 <= j < k ==> OtherLine(lines[j])
    ensures BlkidType(lines) == Ok(Fields(lines[k])[1])
  {
    ScanFieldsFound(FieldsOf(lines), k);
  }

  /** A malformed line met before any TYPE line is a parse error. */
  lemma BlkidTypeMalformed(lines: seq<string>, k: nat)
    requires k < |lines| && |Fields(lines[k])| != 2
    requires forall j :: 0 <= j < k ==> OtherLine(lines[j])
    ensures BlkidType(lines) == Err(ErrParse)
  {
    ScanFieldsMalformed(FieldsOf(lines), k);
  }

  /** Every answer of the scan is a first TYPE line's value or ErrParse. */
  lemma BlkidTypeResult(lines: seq<string>)
    ensures BlkidType(lines).Err? ==> BlkidType(lines) == Err(ErrParse)
    ensures BlkidType(lines).Ok? ==>
      exists k :: 0 <= k < |lines| && TypeLine(lines[k])
        && (forall j :: 0 <= j < k ==> OtherLine(lines[j]))
        && BlkidType(lines).value == Fields(lines[k])[1]
  {
    var fields := FieldsOf(lines);
    ScanFieldsResult(fields);
    if ScanFields(fields).Ok? {
      var k :| 0 <= k < |fields| && TypeFields(fields[k])
        && (forall j :: 0 <= j < k ==> OtherFields(fields[j]))
        && ScanFields(fields).value == fields[k][1];
      assert TypeLine(lines[k]);
      assert forall j :: 0 <= j < k ==> OtherLine(lines[j]) by {
        forall j | 0 <= j < k ensures OtherLine(lines[j]) {
          assert OtherFields(fields[j]);
        }
      }
    }
  }

  /** What checkFSType does on the host and returns: "" for a device that
      holds no file system, the `blkid` TYPE otherwise. */
  function CheckFSTypeEffect(answer: Action -> Reply, devicePath: string): (r: Effect<string>)
    ensures NoRun(r.actions)
    ensures 1 <= |r.actions| <= 2 && r.actions[0] == Exec(FileCommand(devicePath))
    ensures var file := answer(Exec(FileCommand(devicePath)));
      |r.actions| == 2 <==> file.err.None? && Strings.TrimSpace(file.out) != "data"
    ensures |r.actions| == 2 ==> r.actions[1] == Exec(BlkidCommand(devicePath))
  {
    var file := answer(Exec(FileCommand(devicePath)));
    if file.err.Some? then Effect([Exec(FileCommand(devicePath))], Err(HostError(file)))
    else if Strings.TrimSpace(file.out) == "data" then Effect([Exec(FileCommand(devicePath))], Ok(""))
    else
      var blkid := answer(Exec(BlkidCommand(devicePath)));
      var actions := [Exec(FileCommand(devicePath)), Exec(BlkidCommand(devicePath))];
      if blkid.err.Some? then Effect(actions, Err(HostError(blkid)))
      else Effect(actions, BlkidType(Strings.Split(blkid.out, "\n")))
  }

  /** When `file` reports plain data, `blkid` is not run and the device
      has no file system. */
  lemma CheckFSTypeData(answer: Action -> Reply, devicePath: string)
    requires answer(Exec(FileCommand(devicePath))).err.None?
    requires Strings.TrimSpace(answer(Exec(FileCommand(devicePath))).out) == "data"
    ensures CheckFSTypeEffect(answer, devicePath) == Effect([Exec(FileCommand(devicePath))], Ok(""))
  {
  }

  /** The scan of `blkid` as the source writes it: a loop over the lines
      that returns at the first malformed or TYPE line. */
  method ScanBlkid(lines: seq<string>) returns (r: Result<string, Error>)
    ensures r == BlkidType(lines)
  {
    ghost var all := FieldsOf(lines);
    var i := 0;
    while i < |lines|
      invariant 0 <= i <= |lines|
      invariant ScanFields(all[i..]) == BlkidType(lines)
    {
      assert all[i..][1..] == all[i + 1..];
      assert all[i..][0] == Fields(lines[i]);
      var fields := Strings.Split(Strings.TrimSpace(lines[i]), "=");
      if |fields| != 2 {
        return Err(ErrParse);
      }
      if fields[0] == "TYPE" {
        return Ok(fields[1]);
      }
      i := i + 1;
    }
    return Err(ErrParse);
  }

  // ---------------------------------------------------------------------
  // formatDevice and isVgExist (pkg/yoda/utils.go:62-68, 102-112)

  function MkfsCommand(fsType: string, devicePath: string): seq<string> {
    ["mkfs", "-t", fsType, devicePath]
  }

  /** The error formatDevice reports: the command's output, not its error. */
  function FormatError(r: Reply): Error {
    Plain("FormatDevice error: " + r.out)
  }

  function VgExistLine(vgName: string): string {
    NsenterCmd + " vgdisplay " + vgName + " | grep 'VG Name' | grep " + vgName + " | grep -v grep | wc -l"
  }

  // ---------------------------------------------------------------------
  // getLvmSpec (pkg/yoda/utils.go:114-150)

  /** The PV pins its volume to a node by host name: the first
      match expression of its first required node-selector term is on
      TopologyNodeKey and lists at least one node. */
  predicate PinnedToNode(pv: PersistentVolume) {
    && pv.nodeAffinity.Some?
    && pv.nodeAffinity.value.required.Some?
    && |pv.nodeAffinity.value.required.value| > 0
    && |pv.nodeAffinity.value.required.value[0].matchExpressions| > 0
    && pv.nodeAffinity.value.required.value[0].matchExpressions[0].key == TopologyNodeKey
    && |pv.nodeAffinity.value.required.value[0].matchExpressions[0].values| > 0
  }

  /** The first node that pin lists. */
  function PinnedNode(pv: PersistentVolume): string
    requires PinnedToNode(pv)
  {
    pv.nodeAffinity.value.required.value[0].matchExpressions[0].values[0]
  }

  /** getLvmSpec: the node and the volume group of an LVM volume, read from
      its PV; ("", "") when the PV does not pin a node. */
  function LvmSpec(pv: Result<PersistentVolume, Error>, volumeId: string): (r: Result<(string, string), Error>)
    ensures pv.Err? ==> r == Err(pv.error)
    ensures pv.Ok? && !PinnedToNode(pv.value) ==> r == Ok(("", ""))
    ensures pv.Ok? && PinnedToNode(pv.value) && VgNameTag !in Attributes(pv.value) ==>
      r == Err(Plain("vgName not exist for " + volumeId))
    ensures pv.Ok? && PinnedToNode(pv.value) && VgNameTag in Attributes(pv.value) ==>
      r == Ok((PinnedNode(pv.value), Attributes(pv.value)[VgNameTag]))
  {
    match pv
    case Err(e) => Err(e)
    case Ok(p) =>
      if p.nodeAffinity.None? then Ok(("", ""))
      else if p.nodeAffinity.value.required.None? || |p.nodeAffinity.value.required.value| == 0 then Ok(("", ""))
      else
        var term := p.nodeAffinity.value.required.value[0];
        if |term.matchExpressions| == 0 then Ok(("", ""))
        else if term.matchExpressions[0].key != TopologyNodeKey then Ok(("", ""))
        else if |term.matchExpressions[0].values| == 0 then Ok(("", ""))
        else if VgNameTag !in Attributes(p) then Err(Plain("vgName not exist for " + volumeId))
        else Ok((term.matchExpressions[0].values[0], Attributes(p)[VgNameTag]))
  }

  // ---------------------------------------------------------------------
  // GetNodeIP and getLvmdAddr (pkg/yoda/utils.go:156-182)

  const NodeInternalIP := "InternalIP"
  const NodeExternalIP := "ExternalIP"

  /** One entry of a node's status addresses. */
  datatype Address = Address(kind: string, address: string)

  /** The addresses of one kind, in order. */
  function OfKind(addresses: seq<Address>, kind: string): (r: seq<Address>)
    ensures |r| <= |addresses|
    ensures forall k :: 0 <= k < |r| ==> r[k].kind == kind && r[k] in addresses
    ensures forall j :: 0 <= j < |addresses| && addresses[j].kind == kind ==> addresses[j] in r
  {
    if addresses == [] then []
    else
      var last := addresses[|addresses| - 1];
      OfKind(addresses[..|addresses| - 1], kind) + (if last.kind == kind then [last] else [])
  }

  /** `k` is the first index of an address of `kind`. */
  predicate FirstOfKind(addresses: seq<Address>, kind: string, k: int) {
    && 0 <= k < |addresses| && addresses[k].kind == kind
    && forall j :: 0 <= j < k ==> addresses[j].kind != kind
  }

  /** The addresses of a kind are empty exactly when there is none of that
      kind, and otherwise start with the first of that kind. */
  lemma {:induction false} OfKindFirst(addresses: seq<Address>, kind: string)
    ensures OfKind(addresses, kind) == [] <==> forall j :: 0 <= j < |addresses| ==> addresses[j].kind != kind
    ensures OfKind(addresses, kind) != [] ==>
      exists k :: FirstOfKind(addresses, kind, k) && OfKind(addresses, kind)[0] == addresses[k]
    decreases |addresses|
  {
    if addresses != [] {
      var init := addresses[..|addresses| - 1];
      OfKindFirst(init, kind);
      assert forall j :: 0 <= j < |init| ==> init[j] == addresses[j];
      if OfKind(init, kind) != [] {
        var k :| FirstOfKind(init, kind, k) && OfKind(init, kind)[0] == init[k];
        assert FirstOfKind(addresses, kind, k);
      } else if addresses[|addresses| - 1].kind == kind {
        assert FirstOfKind(addresses, kind, |addresses| - 1);
      }
    }
  }

  /** `%v` of a slice of node addresses. */
  function AddressesText(addresses: seq<Address>): string {
    "[" + Strings.Join(AddressTexts(addresses), " ") + "]"
  }

  function AddressTexts(addresses: seq<Address>): (r: seq<string>)
    ensures |r| == |addresses|
  {
    if addresses == [] then []
    else ["{" + addresses[0].kind + " " + addresses[0].address + "}"] + AddressTexts(addresses[1..])
  }

  /** The address GetNodeIP picks from a node's addresses. */
  function NodeIP(addresses: seq<Address>): Result<string, Error> {
    var internal := OfKind(addresses, NodeInternalIP);
    var external := OfKind(addresses, NodeExternalIP);
    if internal != [] then Ok(internal[0].address)
    else if external != [] then Ok(external[0].address)
    else Err(Plain("Node IP unknown; known addresses: " + AddressesText(addresses)))
  }

  /** GetNodeIP prefers the first internal IP, then the first external IP,
      and fails when the node has neither. */
  lemma NodeIPPreference(addresses: seq<Address>)
    ensures (exists k :: FirstOfKind(addresses, NodeInternalIP, k)) ==>
      exists k :: FirstOfKind(addresses, NodeInternalIP, k) && NodeIP(addresses) == Ok(addresses[k].address)
    ensures (forall j :: 0 <= j < |addresses| ==> addresses[j].kind != NodeInternalIP) ==>
      (exists k :: FirstOfKind(addresses, NodeExternalIP, k)) ==>
      exists k :: FirstOfKind(addresses, NodeExternalIP, k) && NodeIP(addresses) == Ok(addresses[k].address)
    ensures NodeIP(addresses).Err? <==>
      forall j :: 0 <= j < |addresses| ==> addresses[j].kind != NodeInternalIP && addresses[j].kind != NodeExternalIP
  {
    OfKindFirst(addresses, NodeInternalIP);
    OfKindFirst(addresses, NodeExternalIP);
  }

  /** The source's `addressMap`: a node's addresses grouped by kind, each
      group in order; kinds without an address have no entry. */
  method GroupByKind(addresses: seq<Address>) returns (addressMap: map<string, seq<Address>>)
    ensures forall t :: t in addressMap ==> addressMap[t] == OfKind(addresses, t) && addressMap[t] != []
    ensures forall t :: t !in addressMap ==> OfKind(addresses, t) == []
  {
    addressMap := map[];
    var i := 0;
    while i < |addresses|
      invariant 0 <= i <= |addresses|
      invariant forall t :: t in addressMap ==> addressMap[t] == OfKind(addresses[..i], t) && addressMap[t] != []
      invariant forall t :: t !in addressMap ==> OfKind(addresses[..i], t) == []
    {
      var seen := addresses[..i + 1];
      assert seen[..i] == addresses[..i] && seen[i] == addresses[i];
      var t := addresses[i].kind;
      ghost var m := addressMap;
      addressMap := addressMap[t := (if t in addressMap then addressMap[t] else []) + [addresses[i]]];
      forall u | u in addressMap
        ensures addressMap[u] == OfKind(seen, u) && addressMap[u] != []
      {
        if u != t {
          assert u in m && addressMap[u] == m[u];
        }
      }
      forall u | u !in addressMap
        ensures OfKind(seen, u) == []
      {
        assert u !in m && u != t;
      }
      i := i + 1;
    }
    assert addresses[..i] == addresses;
  }

  /** GetNodeIP: groups the node's addresses by kind, as the source does
      with its `addressMap`, then picks one. */
  method GetNodeIP(node: Result<seq<Address>, Error>) returns (r: Result<string, Error>)
    ensures node.Err? ==> r == Err(node.error)
    ensures node.Ok? ==> r == NodeIP(node.value)
  {
    if node.Err? {
      return Err(node.error);
    }
    var addresses := node.value;
    var addressMap: map<string, seq<Address>> := GroupByKind(addresses);
    if NodeInternalIP in addressMap {
      return Ok(addressMap[NodeInternalIP][0].address);
    }
    if NodeExternalIP in addressMap {
      return Ok(addressMap[NodeExternalIP][0].address);
    }
    return Err(Plain("Node IP unknown; known addresses: " + AddressesText(addresses)));
  }

  /** getLvmdAddr: the node daemon's address, `<ip>:<port>`. */
  function LvmdAddr(ip: Result<string, Error>, port: string): (r: Result<string, Error>)
    ensures ip.Err? ==> r == Err(ip.error)
    ensures ip.Ok? ==> r.Ok? && Strings.HasPrefix(r.value, ip.value) && Strings.HasSuffix(r.value, ":" + port)
  {
    match ip
    case Err(e) => Err(e)
    case Ok(a) => Ok(a + ":" + port)
  }

  // ---------------------------------------------------------------------
  // The host object

  class Host {
    const answer: Action -> Reply
    /** Every call made on the host so far, in order. */
    var actions: seq<Action>

    constructor (answer: Action -> Reply)
      ensures this.answer == answer && actions == []
    {
      this.answer := answer;
      actions := [];
    }

    method Do(a: Action) returns (r: Reply)
      modifies this
      ensures actions == old(actions) + [a] && r == answer(a)
    {
      actions := actions + [a];
      r := answer(a);
    }

    /** checkFSType: "" when the device holds no file system. */
    method CheckFSType(devicePath: string) returns (r: Result<string, Error>)
      modifies this
      ensures actions == old(actions) + CheckFSTypeEffect(answer, devicePath).actions
      ensures r == CheckFSTypeEffect(answer, devicePath).result
    {
      var file := Do(Exec(FileCommand(devicePath)));
      if file.err.Some? {
        return Err(HostError(file));
      }
      if Strings.TrimSpace(file.out) == "data" {
        return Ok("");
      }
      var blkid := Do(Exec(BlkidCommand(devicePath)));
      if blkid.err.Some? {
        return Err(HostError(blkid));
      }
      r := ScanBlkid(Strings.Split(blkid.out, "\n"));
    }

    /** formatDevice: runs `mkfs`; on failure the error carries its output. */
    method FormatDevice(devicePath: string, fsType: string) returns (err: Option<Error>)
      modifies this
      ensures actions == old(actions) + [Exec(MkfsCommand(fsType, devicePath))]
      ensures var o := answer(Exec(MkfsCommand(fsType, devicePath)));
        err == if o.err.Some? then Some(FormatError(o)) else None
    {
      var o := Do(Exec(MkfsCommand(fsType, devicePath)));
      if o.err.Some? {
        return Some(FormatError(o));
      }
      return None;
    }

    /** isVgExist: true exactly when the counting pipeline prints "1". */
    method IsVgExist(vgName: string) returns (r: Result<bool, Error>)
      modifies this
      ensures actions == old(actions) + [Run(VgExistLine(vgName))]
      ensures var o := answer(Run(VgExistLine(vgName)));
        && (o.err.Some? ==> r == Err(HostError(o)))
        && (o.err.None? ==> r.Ok? && (r.value <==> Strings.TrimSpace(o.out) == "1"))
    {
      var o := Do(Run(VgExistLine(vgName)));
      if o.err.Some? {
        return Err(HostError(o));
      }
      return Ok(Strings.TrimSpace(o.out) == "1");
    }
  }
}

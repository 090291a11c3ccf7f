/** The local-volume control plane of pkg/local/controllerserver.go: the CSI
    controller that places LVM, PMEM, QuotaPath, MountPoint and Device
    volumes on nodes, provisions them through the node agents, caches the
    volumes it created, and removes volumes and LVM snapshots again.

    The Kubernetes API, the snapshot API, the scheduler extender, the
    volume generator and the per-node gRPC agents are not part of this
    model; they are described by an `Env` (answers that depend only on the
    question) and by the `Agent` store of each node (state that the calls
    change). Every node connection and every agent call is recorded, in
    order, in `World.rpcs`; every call to the cluster-side generators in
    `World.calls`. */
module LocalController {
  import opened Wrappers
  import opened GoInt
  import opened Csi
  import Strings

  // ---------------------------------------------------------------------
  // Constants

  const LvmVolumeType := "LVM"
  const PmemVolumeType := "PMEM"
  const QuotaPathVolumeType := "QuotaPath"
  const MountPointType := "MountPoint"
  const DeviceVolumeType := "Device"
  const VolumeTypeKey := "volumeType"
  const TopologyNodeKey := "kubernetes.io/hostname"
  const TopologyYodaNodeKey := "topology.yodaplugin.csi.alibabacloud.com/hostname"
  const PvcNameTag := "csi.storage.k8s.io/pvc/name"
  const PvcNsTag := "csi.storage.k8s.io/pvc/namespace"
  const NodeSchedueTag := "volume.kubernetes.io/selected-node"
  const StorageSchedueTag := "volume.kubernetes.io/selected-storage"
  const LastAppliyAnnotationTag := "kubectl.kubernetes.io/last-applied-configuration"
  const CsiProvisionerIdentity := "storage.kubernetes.io/csiProvisionerIdentity"
  const CsiProvisionerTag := "volume.beta.kubernetes.io/storage-provisioner"
  const QuotaRootPath := "rootPath"
  const PmemRegionKey := "pmemRegion"
  const PmemNameSpaceKey := "pmemNameSpace"
  const PmemBlockDevKey := "pmemBlockDev"
  const ReclaimDelete := "Delete"

  /** The volume types CreateVolume accepts, in the order it tries them. */
  const SupportVolumeTypes := [LvmVolumeType, PmemVolumeType, QuotaPathVolumeType, MountPointType, DeviceVolumeType]

  /** The keys CreateVolume strips from the returned volume context. */
  const RemovedLabels := {LastAppliyAnnotationTag, CsiProvisionerTag, CsiProvisionerIdentity}

  // Constants defined in files of the package that are not part of this
  // model. Their values are left open: nothing below depends on them,
  // nor on their being distinct from one another.

  /** The volume attribute naming the snapshot a volume was made from. */
  const SnapshotTag: string
  /** The vendor tag marking a snapshot class read-only. */
  const SnapshotReadonlyTag: string
  /** The scheduler's key for the chosen volume group. */
  const VgNameTag: string
  /** The parameter key and the value that ask for a striped LV. */
  const LvmTypeTag: string
  const StripingType: string
  /** The attribute holding the full path of a QuotaPath volume. */
  const ProjQuotaFullPath: string
  /** The name of the yoda driver, the one that expands through the adapter. */
  const YodaDriverName: string
  /** The PMEM region used when neither the PVC nor the class names one. */
  const PmemRegionNameDefault: string
  /** The generator's lifecycle and spec labels. */
  const VolumeLifecycleLabel: string
  const VolumeLifecycleCreating: string
  const VolumeLifecycleDeleting: string
  const VolumeSpecLabel: string

  // ---------------------------------------------------------------------
  // The node agents

  datatype Lv = Lv(size: uint64, striping: bool, origin: Option<string>)
  datatype NameSpace = NameSpace(region: string, size: uint64, dev: string, blockDev: string)
  datatype Quota = Quota(name: string, size: string, softLimit: string, hardLimit: string)

  datatype LvmOptions = LvmOptions(name: string, volumeGroup: string, size: uint64, striping: bool)
  datatype NameSpaceOptions = NameSpaceOptions(name: string, region: string, size: uint64)

  /** The calls a node agent serves. */
  datatype AgentOp =
    | GetLvmOp | CreateLvmOp | DeleteLvmOp | CreateSnapshotOp | DeleteSnapshotOp
    | GetNameSpaceOp | CreateNameSpaceOp | DeleteNameSpaceOp
    | CreateQuotaOp | SetQuotaOp | RemoveQuotaOp | CleanPathOp

  /** What one node's agent holds: its LVs by (volume group, name), its PMEM
      namespaces by name, its project-quota subpaths by path, the paths it
      has cleaned, and the calls that fail on it (with their error). A call
      that fails changes nothing. */
  datatype Agent = Agent(
    lvs: map<(string, string), Lv>,
    namespaces: map<string, NameSpace>,
    quotas: map<string, Quota>,
    cleaned: seq<string>,
    faults: map<AgentOp, Error>)
  {
    /** The LV's name when it exists, "" when it does not. */
    function GetLvm(vg: string, name: string): Result<string, Error> {
      if GetLvmOp in faults then Err(faults[GetLvmOp])
      else if (vg, name) in lvs then Ok(name) else Ok("")
    }

    function CreateLvm(o: LvmOptions): Result<Agent, Error> {
      if CreateLvmOp in faults then Err(faults[CreateLvmOp])
      else Ok(this.(lvs := lvs[(o.volumeGroup, o.name) := Lv(o.size, o.striping, None)]))
    }

    function DeleteLvm(vg: string, name: string): Result<Agent, Error> {
      if DeleteLvmOp in faults then Err(faults[DeleteLvmOp])
      else Ok(this.(lvs := lvs - {(vg, name)}))
    }

    function CreateSnapshot(vg: string, name: string, source: string, size: uint64): Result<Agent, Error> {
      if CreateSnapshotOp in faults then Err(faults[CreateSnapshotOp])
      else Ok(this.(lvs := lvs[(vg, name) := Lv(size, false, Some(source))]))
    }

    function DeleteSnapshot(vg: string, name: string): Result<Agent, Error> {
      if DeleteSnapshotOp in faults then Err(faults[DeleteSnapshotOp])
      else Ok(this.(lvs := lvs - {(vg, name)}))
    }

    /** The namespace's name when it exists, "" when it does not; the agent
        finds namespaces by name, whatever the region asked for. */
    function GetNameSpace(region: string, name: string): Result<string, Error> {
      if GetNameSpaceOp in faults then Err(faults[GetNameSpaceOp])
      else if name in namespaces then Ok(name) else Ok("")
    }

    /** Creates the namespace; the devices it gets are the host's choice. */
    function CreateNameSpace(o: NameSpaceOptions, devices: (string, string)): Result<(Agent, NameSpace), Error> {
      if CreateNameSpaceOp in faults then Err(faults[CreateNameSpaceOp])
      else
        var ns := NameSpace(o.region, o.size, devices.0, devices.1);
        Ok((this.(namespaces := namespaces[o.name := ns]), ns))
    }

    /** Removes the namespaces on the given device. */
    function DeleteNameSpace(dev: string): Result<Agent, Error> {
      if DeleteNameSpaceOp in faults then Err(faults[DeleteNameSpaceOp])
      else Ok(this.(namespaces := map n | n in namespaces && namespaces[n].dev != dev :: namespaces[n]))
    }

    /** Creates the subpath (at the path the host chooses) with its size. */
    function CreateProjQuotaSubpath(name: string, size: string, path: string): Result<Agent, Error> {
      if CreateQuotaOp in faults then Err(faults[CreateQuotaOp])
      else Ok(this.(quotas := quotas[path := Quota(name, size, "", "")]))
    }

    function SetSubpathProjQuota(path: string, soft: string, hard: string): Result<Agent, Error> {
      if SetQuotaOp in faults then Err(faults[SetQuotaOp])
      else
        var q := if path in quotas then quotas[path] else Quota("", "", "", "");
        Ok(this.(quotas := quotas[path := q.(softLimit := soft, hardLimit := hard)]))
    }

    function RemoveProjQuotaSubpath(path: string): Result<Agent, Error> {
      if RemoveQuotaOp in faults then Err(faults[RemoveQuotaOp])
      else Ok(this.(quotas := quotas - {path}))
    }

    function CleanPath(path: string): Result<Agent, Error> {
      if CleanPathOp in faults then Err(faults[CleanPathOp])
      else Ok(this.(cleaned := cleaned + [path]))
    }
  }

  const EmptyAgent := Agent(map[], map[], map[], [], map[])

  // ---------------------------------------------------------------------
  // The environment

  /** What `getPvSpec` reports for a volume: its node, its volume group, the
      PV itself, and `pv.Size()` (the value the snapshot response reports). */
  datatype PvSpec = PvSpec(node: string, vg: string, pv: PersistentVolume, objectSize: int64)

  /** The parts of a VolumeSnapshotContent the controller reads. */
  datatype SnapshotContent = SnapshotContent(volumeHandle: string, className: string, refName: string, refNamespace: string)

  /** The three volume kinds the scheduler extender places. */
  datatype Kind = LvmKind | MountPointKind | DeviceKind

  /** A call to the cluster-side volume generator or the expansion adapter. */
  datatype ClusterCall =
    | CreateWithAnnotations(namespace: string, pvc: string, labels: map<string, string>)
    | DeleteWithAnnotations(volumeId: string, labels: map<string, string>)
    | ExpandVolume(namespace: string, pvc: string, sizeGB: int)

  /** The answers of the services the controller asks and does not own. */
  datatype Env = Env(
    pvSpec: string -> Result<PvSpec, Error>,
    pvObj: string -> Result<PersistentVolume, Error>,
    snapshotContent: string -> Result<SnapshotContent, Error>,
    snapshotClass: string -> Result<map<string, string>, Error>,
    snapshot: (string, string) -> Result<map<string, string>, Error>,
    initialSize: map<string, string> -> Result<uint64, Error>,
    usedByPV: string -> Result<bool, Error>,
    scheduled: (Kind, string, map<string, string>) -> Result<map<string, string>, Error>,
    partScheduled: (Kind, string, string, string, map<string, string>) -> Result<map<string, string>, Error>,
    noScheduled: (Kind, map<string, string>) -> Result<(string, map<string, string>), Error>,
    connect: string -> Option<Error>,
    marshal: LvmOptions -> Result<string, Error>,
    cluster: ClusterCall -> Option<Error>,
    namespaceDevices: NameSpaceOptions -> (string, string),
    quotaSubpath: (string, string) -> string,
    /** The driver's ValidateControllerServiceRequest answer for volume
        creation and deletion. */
    validate: Option<Error>)

  /** A node connection or an agent call, as the controller issues it. */
  datatype Rpc = Connect(node: string) | Call(node: string, op: AgentOp)

  /** The node agents, the node calls issued so far and the cluster calls
      issued so far. */
  datatype World = World(agents: map<string, Agent>, rpcs: seq<Rpc>, calls: seq<ClusterCall>)

  /** The controller's cache of created volumes, with the world around it. */
  datatype State = State(cache: map<string, Volume>, world: World)

  /** The new state after a handler and what the handler returned. */
  datatype Outcome<T> = Outcome(state: State, result: Result<T, Error>)

  /** An agent as the controller finds it; a node never used holds nothing. */
  function AgentAt(w: World, node: string): Agent {
    if node in w.agents then w.agents[node] else EmptyAgent
  }

  /** `getNodeConn`: connects to the node's agent. */
  function Dial(env: Env, w: World, node: string): (World, Option<Error>) {
    (w.(rpcs := w.rpcs + [Connect(node)]), env.connect(node))
  }

  function Invoke(w: World, node: string, op: AgentOp): World {
    w.(rpcs := w.rpcs + [Call(node, op)])
  }

  function Install(w: World, node: string, a: Agent): World {
    w.(agents := w.agents[node := a])
  }

  /** Issues an agent call that changes the agent: the call is recorded and
      the agent replaced when it succeeds. */
  function Mutate(w: World, node: string, op: AgentOp, r: Result<Agent, Error>): (World, Option<Error>) {
    var w1 := Invoke(w, node, op);
    match r
    case Ok(a) => (Install(w1, node, a), None)
    case Err(e) => (w1, Some(e))
  }

  function Issue(env: Env, w: World, call: ClusterCall): (World, Option<Error>) {
    (w.(calls := w.calls + [call]), env.cluster(call))
  }

  /** The message both handlers give for a snapshot that is not read-only. */
  function ReadonlyMsg(handler: string): string {
    handler + ": only support readonly snapshot now, you must set " + SnapshotReadonlyTag + " parameter in volumesnapshotclass"
  }

  // ---------------------------------------------------------------------
  // CreateVolume

  datatype CreateVolumeRequest = CreateVolumeRequest(
    name: string,
    hasCapabilities: bool,
    parameters: map<string, string>,
    requiredBytes: int64,
    contentSource: Option<ContentSource>)

  /** The `volumeType` parameter when it is one of the supported types,
      otherwise "". */
  function VolumeTypeOf(parameters: map<string, string>): (t: string)
    ensures t == "" || t in SupportVolumeTypes
    ensures t != "" <==> VolumeTypeKey in parameters && parameters[VolumeTypeKey] in SupportVolumeTypes
    ensures t != "" ==> t == parameters[VolumeTypeKey]
  {
    if VolumeTypeKey in parameters && parameters[VolumeTypeKey] in SupportVolumeTypes then parameters[VolumeTypeKey] else ""
  }

  /** Where a volume goes: the (possibly updated) parameters, the extra
      parameters the scheduler returned, the node and the storage chosen,
      and whether the volume is a snapshot of another. */
  datatype Placement = Placement(
    parameters: map<string, string>,
    paraList: map<string, string>,
    node: string,
    storage: string,
    isSnapshot: bool)

  /** The message of a scheduler failure, per kind and tier (0: node and
      storage given, 1: node only, 2: neither). */
  function ScheduleErrorMsg(kind: Kind, tier: nat): string {
    match kind
    case LvmKind =>
      if tier == 0 then "Parse lvm all schedule info error "
      else if tier == 1 then "Parse lvm part schedule info error "
      else "Parse lvm schedule info error "
    case MountPointKind =>
      if tier == 0 then "CreateVolume: Parse mountpoint all scheduled info error "
      else if tier == 1 then "Parse mountpoint part schedule info error "
      else "Parse mountpoint schedule info error "
    case DeviceKind =>
      if tier == 0 then "Parse Device all scheduled info error "
      else if tier == 1 then "Parse Device part schedule info error "
      else "Parse Device schedule info error "
  }

  /** For LVM, a non-empty volume group from the scheduler wins. */
  function PreferVg(kind: Kind, paraList: map<string, string>, storage: string): string {
    if kind == LvmKind && VgNameTag in paraList && paraList[VgNameTag] != "" then paraList[VgNameTag] else storage
  }

  /** The three scheduling tiers of LVM, MountPoint and Device volumes. */
  function Schedule(env: Env, kind: Kind, parameters: map<string, string>, pvcName: string, pvcNamespace: string,
                    node: string, storage: string): Result<Placement, Error>
  {
    if storage != "" && node != "" then
      match env.scheduled(kind, storage, parameters)
      case Err(e) => Err(Status(InvalidArgument, ScheduleErrorMsg(kind, 0) + ErrorText(e)))
      case Ok(pl) => Ok(Placement(parameters, pl, node, PreferVg(kind, pl, storage), false))
    else if node != "" then
      match env.partScheduled(kind, node, pvcName, pvcNamespace, parameters)
      case Err(e) => Err(Status(InvalidArgument, ScheduleErrorMsg(kind, 1) + ErrorText(e)))
      case Ok(pl) => Ok(Placement(parameters, pl, node, PreferVg(kind, pl, storage), false))
    else
      match env.noScheduled(kind, parameters)
      case Err(e) => Err(Status(InvalidArgument, ScheduleErrorMsg(kind, 2) + ErrorText(e)))
      case Ok(answer) => Ok(Placement(parameters, answer.1, answer.0, PreferVg(kind, answer.1, storage), false))
  }

  /** An LVM volume made from a snapshot goes where the snapshot's source
      volume is; only read-only snapshots are supported. */
  function SnapshotPlacement(env: Env, parameters: map<string, string>, source: ContentSource): Result<Placement, Error> {
    match source
    case FromVolume(_) => Err(Status(InvalidArgument, "CreateVolume: unsupported volumeContentSource type"))
    case FromSnapshot(None) => Err(Status(InvalidArgument, "CreateVolume: error retrieving snapshot from the volumeContentSource"))
    case FromSnapshot(Some(snapshotId)) =>
      match env.snapshotContent(snapshotId)
      case Err(e) => Err(Status(InvalidArgument, "CreateVolume: get snapshot content failed: " + ErrorText(e)))
      case Ok(content) =>
        match env.snapshotClass(content.className)
        case Err(e) => Err(Status(InvalidArgument, "get snapshot class failed: " + ErrorText(e)))
        case Ok(classParameters) =>
          if Lookup(classParameters, SnapshotReadonlyTag) != "true" then
            Err(Status(Unimplemented, ReadonlyMsg("CreateVolume")))
          else
            match env.pvSpec(content.volumeHandle)
            case Err(e) => Err(Status(Internal, "CreateVolume: get pv spec failed: " + ErrorText(e)))
            case Ok(spec) =>
              var paraList := map[VgNameTag := spec.vg][SnapshotTag := snapshotId][SnapshotReadonlyTag := "true"];
              Ok(Placement(parameters[NodeSchedueTag := spec.node], paraList, spec.node, spec.vg, true))
  }

  /** Placement per volume type; PMEM and QuotaPath keep the requested node
      and storage. */
  function Place(env: Env, volumeType: string, req: CreateVolumeRequest, pvcName: string, pvcNamespace: string,
                 node: string, storage: string): Result<Placement, Error>
  {
    if volumeType == LvmVolumeType then
      if req.contentSource.Some? then SnapshotPlacement(env, req.parameters, req.contentSource.value)
      else Schedule(env, LvmKind, req.parameters, pvcName, pvcNamespace, node, storage)
    else if volumeType == MountPointType then Schedule(env, MountPointKind, req.parameters, pvcName, pvcNamespace, node, storage)
    else if volumeType == DeviceVolumeType then Schedule(env, DeviceKind, req.parameters, pvcName, pvcNamespace, node, storage)
    else Ok(Placement(req.parameters, map[], node, storage, false))
  }

  /** What provisioning leaves: the world, the parameters (PMEM and
      QuotaPath add to them) and the error, if any. */
  datatype Step = Step(world: World, parameters: map<string, string>, err: Option<Error>)

  function LvmOptionsFor(req: CreateVolumeRequest, p: Placement): LvmOptions {
    LvmOptions(req.name, p.storage, ToUint64(req.requiredBytes),
               LvmTypeTag in p.parameters && p.parameters[LvmTypeTag] == StripingType)
  }

  /** LVM provisioning: over gRPC, get-before-create on the node's agent;
      otherwise an annotation for the volume generator. Nothing happens
      while the node or the volume group is unknown. */
  function ProvisionLvm(env: Env, grpc: bool, w: World, req: CreateVolumeRequest, p: Placement,
                        pvcName: string, pvcNamespace: string): Step
  {
    var opts := LvmOptionsFor(req, p);
    if grpc && p.node != "" && p.storage != "" then
      var (w1, connErr) := Dial(env, w, p.node);
      if connErr.Some? then Step(w1, p.parameters, connErr)
      else
        var w2 := Invoke(w1, p.node, GetLvmOp);
        match AgentAt(w, p.node).GetLvm(p.storage, req.name)
        case Err(e) => Step(w2, p.parameters, Some(e))
        case Ok(found) =>
          if found != "" then Step(w2, p.parameters, None)
          else
            var (w3, createErr) := Mutate(w2, p.node, CreateLvmOp, AgentAt(w, p.node).CreateLvm(opts));
            if createErr.Some? then Step(w3, p.parameters, Some(Plain("Create Lvm with error " + ErrorText(createErr.value))))
            else Step(w3, p.parameters, None)
    else if !grpc && p.node != "" && p.storage != "" then
      match env.marshal(opts)
      case Err(e) => Step(w, p.parameters, Some(e))
      case Ok(spec) =>
        var labels := map[VolumeLifecycleLabel := VolumeLifecycleCreating][VolumeSpecLabel := spec];
        var (w1, err) := Issue(env, w, CreateWithAnnotations(pvcNamespace, pvcName, labels));
        Step(w1, p.parameters, err)
    else Step(w, p.parameters, None)
  }

  /** The PMEM region: the selected storage, else the class's `pmemRegion`
      parameter, else the default region. */
  function PmemRegion(parameters: map<string, string>, storage: string): string {
    if storage != "" then storage
    else if PmemRegionKey in parameters then parameters[PmemRegionKey]
    else PmemRegionNameDefault
  }

  /** PMEM provisioning: get-before-create of a namespace on the node. */
  function ProvisionPmem(env: Env, w: World, req: CreateVolumeRequest, p: Placement): Step {
    if p.node == "" then Step(w, p.parameters, Some(Plain("CreateVolume: PMEMDirect type nodeselected must not be None")))
    else
      var (w1, connErr) := Dial(env, w, p.node);
      if connErr.Some? then Step(w1, p.parameters, connErr)
      else
        var opts := NameSpaceOptions(req.name, PmemRegion(p.parameters, p.storage), ToUint64(req.requiredBytes));
        var a := AgentAt(w, p.node);
        var w2 := Invoke(w1, p.node, GetNameSpaceOp);
        match a.GetNameSpace(opts.region, req.name)
        case Err(e) => Step(w2, p.parameters, Some(e))
        case Ok(found) =>
          if found != "" then Step(w2, p.parameters, None)
          else
            var w3 := Invoke(w2, p.node, CreateNameSpaceOp);
            match a.CreateNameSpace(opts, env.namespaceDevices(opts))
            case Err(e) => Step(w3, p.parameters, Some(Plain("Create Pmem direct with error " + ErrorText(e))))
            case Ok(created) =>
              var parameters := p.parameters[PmemRegionKey := opts.region][PmemNameSpaceKey := created.1.dev][PmemBlockDevKey := created.1.blockDev];
              Step(Install(w3, p.node, created.0), parameters, None)
  }

  /** The root of a QuotaPath volume: the class's `rootPath` when set and no
      storage was selected, otherwise the selected storage. */
  function QuotaRoot(parameters: map<string, string>, storage: string): string {
    if QuotaRootPath in parameters && parameters[QuotaRootPath] != "" && storage == "" then parameters[QuotaRootPath] else storage
  }

  /** QuotaPath provisioning: a subpath with the size in bytes, then soft
      and hard project quotas of the size in KiB. */
  function ProvisionQuota(env: Env, w: World, req: CreateVolumeRequest, p: Placement): Step {
    if p.node == "" then Step(w, p.parameters, Some(Plain("CreateVolume: QuotaPath type nodeselected must not be None")))
    else
      var (w1, connErr) := Dial(env, w, p.node);
      if connErr.Some? then Step(w1, p.parameters, connErr)
      else
        var size := Strings.IntToString(req.requiredBytes);
        var kSize := Strings.IntToString(GoDiv(req.requiredBytes, 1024));
        var root := QuotaRoot(p.parameters, p.storage);
        var path := env.quotaSubpath(req.name, root);
        var (w2, createErr) := Mutate(w1, p.node, CreateQuotaOp, AgentAt(w1, p.node).CreateProjQuotaSubpath(req.name, size, path));
        if createErr.Some? then Step(w2, p.parameters, createErr)
        else
          var (w3, setErr) := Mutate(w2, p.node, SetQuotaOp, AgentAt(w2, p.node).SetSubpathProjQuota(path, kSize, kSize));
          if setErr.Some? then Step(w3, p.parameters, setErr)
          else Step(w3, p.parameters[ProjQuotaFullPath := path], None)
  }

  /** Provisioning per volume type; MountPoint, Device and LVM snapshots
      need nothing on the node. */
  function Provision(env: Env, grpc: bool, volumeType: string, w: World, req: CreateVolumeRequest, p: Placement,
                     pvcName: string, pvcNamespace: string): Step
  {
    if volumeType == LvmVolumeType then
      if p.isSnapshot then Step(w, p.parameters, None) else ProvisionLvm(env, grpc, w, req, p, pvcName, pvcNamespace)
    else if volumeType == PmemVolumeType then ProvisionPmem(env, w, req, p)
    else if volumeType == QuotaPathVolumeType then ProvisionQuota(env, w, req, p)
    else Step(w, p.parameters, None)
  }

  /** The volume CreateVolume returns: the parameters merged with the
      scheduler's, less the provisioner and last-applied keys, with the
      selected node (and its hostname topology) when there is one. */
  function BuildVolume(req: CreateVolumeRequest, parameters: map<string, string>, paraList: map<string, string>,
                       node: string, isSnapshot: bool): (v: Volume)
    ensures v.volumeId == req.name && v.capacityBytes == req.requiredBytes
    ensures forall k :: k != NodeSchedueTag || node == "" ==>
      (k in v.volumeContext <==> (k in parameters || k in paraList) && k !in RemovedLabels)
    ensures forall k :: k in v.volumeContext && (k != NodeSchedueTag || node == "") ==>
      v.volumeContext[k] == if k in paraList then paraList[k] else parameters[k]
    ensures node != "" ==> NodeSchedueTag in v.volumeContext && v.volumeContext[NodeSchedueTag] == node
    ensures node == "" ==> v.accessibleTopology == []
    ensures node != "" ==> v.accessibleTopology == [map[TopologyNodeKey := node]]
    ensures isSnapshot <==> v.contentSource.Some?
    ensures isSnapshot ==> v.contentSource == Some(FromSnapshot(Some(Lookup(paraList, SnapshotTag))))
  {
    var context := (parameters + paraList) - RemovedLabels;
    var source := if isSnapshot then Some(FromSnapshot(Some(Lookup(paraList, SnapshotTag)))) else None;
    if node == "" then Volume(req.name, req.requiredBytes, context, [], source)
    else Volume(req.name, req.requiredBytes, context[NodeSchedueTag := node], [map[TopologyNodeKey := node]], source)
  }

  /** CreateVolume: validation, the cache, placement, provisioning and the
      response, which is cached on success. */
  function CreateVolumeOutcome(env: Env, grpc: bool, s: State, req: CreateVolumeRequest): Outcome<Volume> {
    if env.validate.Some? then Outcome(s, Err(env.validate.value))
    else if req.name == "" then Outcome(s, Err(Status(InvalidArgument, "CreateVolume: local Volume Name cannot be empty")))
    else if !req.hasCapabilities then Outcome(s, Err(Status(InvalidArgument, "Volume Capabilities cannot be empty")))
    else
      var volumeType := VolumeTypeOf(req.parameters);
      if volumeType == "" then
        Outcome(s, Err(Status(InvalidArgument, "Local driver only support LVM/MountPoint/Device/PmemDirect/PmemQuotaPath volume type, no " + volumeType)))
      else if req.name in s.cache then Outcome(s, Ok(s.cache[req.name]))
      else CreateNew(env, grpc, s, req, volumeType)
  }

  /** CreateVolume for a valid request that is not cached: placement,
      provisioning and the response. */
  function CreateNew(env: Env, grpc: bool, s: State, req: CreateVolumeRequest, volumeType: string): Outcome<Volume> {
    var pvcName := Lookup(req.parameters, PvcNameTag);
    var pvcNamespace := Lookup(req.parameters, PvcNsTag);
    var node := Lookup(req.parameters, NodeSchedueTag);
    var storage := Lookup(req.parameters, StorageSchedueTag);
    match Place(env, volumeType, req, pvcName, pvcNamespace, node, storage)
    case Err(e) => Outcome(s, Err(e))
    case Ok(p) => Respond(s, req, p, Provision(env, grpc, volumeType, s.world, req, p, pvcName, pvcNamespace))
  }

  /** The end of CreateVolume: a provisioning error is returned; otherwise
      the volume is built and cached. */
  function Respond(s: State, req: CreateVolumeRequest, p: Placement, st: Step): (o: Outcome<Volume>)
    ensures o.state.world == st.world
    ensures o.result.Ok? <==> st.err.None?
    ensures o.result.Ok? ==> o.state.cache == s.cache[req.name := o.result.value]
    ensures o.result.Err? ==> o.state.cache == s.cache && o.result.error == st.err.value
  {
    if st.err.Some? then Outcome(State(s.cache, st.world), Err(st.err.value))
    else
      var v := BuildVolume(req, st.parameters, p.paraList, p.node, p.isSnapshot);
      Outcome(State(s.cache[req.name := v], st.world), Ok(v))
  }

  // ---------------------------------------------------------------------
  // DeleteVolume

  /** The node a MountPoint PV is pinned to by its node affinity. */
  function MountPointNode(pv: PersistentVolume, volumeId: string): Result<string, Error> {
    if pv.nodeAffinity.None? then Err(Plain("Get Lvm Spec for volume " + volumeId + ", with nil nodeAffinity"))
    else
      var required := pv.nodeAffinity.value.required;
      if required.None? || |required.value| == 0 then Err(Plain("Get Lvm Spec for volume " + volumeId + ", with nil Required"))
      else if |required.value[0].matchExpressions| == 0 then
        Err(Plain("Get Lvm Spec for volume " + volumeId + ", with nil MatchExpressions"))
      else
        var expr := required.value[0].matchExpressions[0];
        if expr.key != TopologyNodeKey && expr.key != TopologyYodaNodeKey then
          Err(Plain("Get Lvm Spec for volume " + volumeId + ", with key" + expr.key))
        else if |expr.values| == 0 then Err(Plain("MountPoint Pv is illegal, No node info"))
        else Ok(expr.values[0])
  }

  /** The errors of a GetLvm that mean the LV is already gone. */
  predicate LvMissing(text: string, vg: string) {
    Strings.Contains(text, "Failed to find logical volume") || Strings.Contains(text, "Volume group \"" + vg + "\" not found")
  }

  /** LVM removal; read-only snapshot volumes own no LV. */
  function RemoveLvm(env: Env, grpc: bool, w: World, volumeId: string, spec: PvSpec): (World, Option<Error>) {
    var attributes := Attributes(spec.pv);
    if Lookup(attributes, SnapshotTag) != "" then
      if Lookup(attributes, SnapshotReadonlyTag) == "true" then (w, None)
      else (w, Some(Status(Unimplemented, ReadonlyMsg("DeleteVolume"))))
    else if grpc && spec.node != "" then
      var (w1, connErr) := Dial(env, w, spec.node);
      if connErr.Some? then (w1, connErr)
      else
        var a := AgentAt(w, spec.node);
        var w2 := Invoke(w1, spec.node, GetLvmOp);
        match a.GetLvm(spec.vg, volumeId)
        case Ok(found) =>
          if found == "" then (w2, None)
          else
            var (w3, err) := Mutate(w2, spec.node, DeleteLvmOp, a.DeleteLvm(spec.vg, volumeId));
            if err.Some? then (w3, Some(Plain("DeleteVolume: Remove Lvm " + volumeId + " with error " + ErrorText(err.value))))
            else (w3, None)
        case Err(e) => if LvMissing(ErrorText(e), spec.vg) then (w2, None) else (w2, Some(e))
    else if !grpc && spec.node != "" then
      var labels := map[VolumeLifecycleLabel := VolumeLifecycleDeleting][VolumeSpecLabel := spec.vg + "/" + volumeId];
      Issue(env, w, DeleteWithAnnotations(volumeId, labels))
    else (w, None)
  }

  /** MountPoint removal cleans the path on the pinned node, and only for
      PVs whose reclaim policy is Delete. */
  function RemoveMountPoint(env: Env, w: World, volumeId: string, spec: PvSpec): (World, Option<Error>) {
    if spec.pv.reclaimPolicy != ReclaimDelete then (w, None)
    else
      match MountPointNode(spec.pv, volumeId)
      case Err(e) => (w, Some(e))
      case Ok(node) =>
        var (w1, connErr) := Dial(env, w, node);
        if connErr.Some? then (w1, connErr)
        else
          var path := Lookup(Attributes(spec.pv), MountPointType);
          if path == "" then (w1, Some(Plain("MountPoint Path is empty")))
          else
            var (w2, err) := Mutate(w1, node, CleanPathOp, AgentAt(w, node).CleanPath(path));
            if err.Some? then (w2, Some(Plain("DeleteVolume: Delete mountpoint Failed: " + ErrorText(err.value))))
            else (w2, None)
  }

  /** PMEM removal deletes the namespace when the agent still has it. */
  function RemovePmem(env: Env, w: World, volumeId: string, spec: PvSpec): (World, Option<Error>) {
    if spec.node == "" then (w, Some(Plain("DeleteVolume: failed to delete volume without nodeAffinity " + volumeId)))
    else
      var (w1, connErr) := Dial(env, w, spec.node);
      if connErr.Some? then (w1, connErr)
      else
        var attributes := Attributes(spec.pv);
        if PmemNameSpaceKey !in attributes then
          (w1, Some(Plain("DeleteVolume Direct PMEM volume can not found NameSpace " + volumeId)))
        else
          var a := AgentAt(w, spec.node);
          var w2 := Invoke(w1, spec.node, GetNameSpaceOp);
          match a.GetNameSpace("", volumeId)
          case Err(e) => (w2, Some(e))
          case Ok(found) =>
            if found == "" then (w2, None)
            else
              var (w3, err) := Mutate(w2, spec.node, DeleteNameSpaceOp, a.DeleteNameSpace(attributes[PmemNameSpaceKey]));
              if err.Some? then (w3, Some(Plain("DeleteVolume: Remove Pmem namespace with error " + ErrorText(err.value))))
              else (w3, None)
  }

  /** QuotaPath removal removes the subpath recorded in the PV. */
  function RemoveQuota(env: Env, w: World, volumeId: string, spec: PvSpec): (World, Option<Error>) {
    if spec.node == "" then (w, Some(Plain("DeleteVolume: delete quotapath volume without nodeAffinity " + volumeId)))
    else
      var (w1, connErr) := Dial(env, w, spec.node);
      if connErr.Some? then (w1, connErr)
      else
        var attributes := Attributes(spec.pv);
        if ProjQuotaFullPath !in attributes then
          (w1, Some(Plain("DeleteVolume: QuotaPath volume " + volumeId + " not have projQuotaFullPath parameter")))
        else
          var path := attributes[ProjQuotaFullPath];
          Mutate(w1, spec.node, RemoveQuotaOp, AgentAt(w, spec.node).RemoveProjQuotaSubpath(path))
  }

  function RemoveVolume(env: Env, grpc: bool, w: World, volumeId: string, volumeType: string, spec: PvSpec): (World, Option<Error>) {
    if volumeType == LvmVolumeType then RemoveLvm(env, grpc, w, volumeId, spec)
    else if volumeType == MountPointType then RemoveMountPoint(env, w, volumeId, spec)
    else if volumeType == DeviceVolumeType then (w, None)
    else if volumeType == PmemVolumeType then RemovePmem(env, w, volumeId, spec)
    else if volumeType == QuotaPathVolumeType then RemoveQuota(env, w, volumeId, spec)
    else (w, Some(Status(InvalidArgument, "Local driver only support LVM volume type, no " + volumeType)))
  }

  /** DeleteVolume: removal per the PV's volume type; on success the volume
      leaves the cache. */
  function DeleteVolumeOutcome(env: Env, grpc: bool, s: State, volumeId: string): Outcome<()> {
    match env.pvSpec(volumeId)
    case Err(e) => Outcome(s, Err(e))
    case Ok(spec) =>
      var volumeType := Lookup(Attributes(spec.pv), VolumeTypeKey);
      var (w, err) := RemoveVolume(env, grpc, s.world, volumeId, volumeType, spec);
      if err.Some? then Outcome(State(s.cache, w), Err(err.value))
      else Outcome(State(s.cache - {volumeId}, w), Ok(()))
  }

  // ---------------------------------------------------------------------
  // ControllerExpandVolume

  datatype ExpandResponse = ExpandResponse(capacityBytes: int64, nodeExpansionRequired: bool)

  /** The request in whole GiB, rounded up, with Go's `int64` arithmetic. */
  function SizeInGiB(bytes: int64): int {
    GoDiv(WrapInt64(bytes + GiB - 1), GiB)
  }

  function ExpandOutcome(env: Env, driverName: string, s: State, volumeId: string, bytes: int64): Outcome<ExpandResponse> {
    if driverName != YodaDriverName then Outcome(s, Ok(ExpandResponse(bytes, true)))
    else
      match env.pvObj(volumeId)
      case Err(e) => Outcome(s, Err(e))
      case Ok(pv) =>
        if pv.csi.None? then Outcome(s, Err(Plain("ControllerExpandVolume: volume is not csi type: " + volumeId)))
        else
          var attributes := pv.csi.value.volumeAttributes;
          var call := ExpandVolume(Lookup(attributes, PvcNsTag), Lookup(attributes, PvcNameTag), SizeInGiB(bytes));
          var (w, err) := Issue(env, s.world, call);
          if err.Some? then Outcome(s.(world := w), Err(Plain("ControllerExpandVolume: expand volume error " + ErrorText(err.value))))
          else Outcome(s.(world := w), Ok(ExpandResponse(bytes, true)))
  }

  // ---------------------------------------------------------------------
  // CreateSnapshot and DeleteSnapshot

  datatype Snapshot = Snapshot(snapshotId: string, sourceVolumeId: string, sizeBytes: int64, readyToUse: bool)

  /** The snapshot's initial size, lowered to the PV's size when that is
      smaller (with Go's conversions between `int64` and `uint64`). */
  function SnapshotSize(initial: uint64, pvSize: int64): uint64 {
    if pvSize < ToInt64(initial) then ToUint64(pvSize) else initial
  }

  function InternalError(msg: string, e: Error): Error {
    Status(Internal, msg + ErrorText(e))
  }

  /** `newCreateSnapshotResponse`: the source PV is read again. */
  function SnapshotResponse(env: Env, s: State, name: string, sourceId: string): Outcome<Snapshot> {
    match env.pvSpec(sourceId)
    case Err(e) => Outcome(s, Err(InternalError("newCreateSnapshotResponse: get pv " + sourceId + " error: ", e)))
    case Ok(spec) => Outcome(s, Ok(Snapshot(name, sourceId, spec.objectSize, true)))
  }

  function CreateSnapshotOutcome(env: Env, s: State, name: string, sourceId: string): Outcome<Snapshot> {
    if name == "" then Outcome(s, Err(Status(InvalidArgument, "CreateSnapshot: snapshot name not provided")))
    else if sourceId == "" then Outcome(s, Err(Status(InvalidArgument, "CreateSnapshot: snapshot volume source ID not provided")))
    else
      match env.snapshotContent(name)
      case Err(e) => Outcome(s, Err(InternalError("CreateSnapshot: get snapContent " + name + " error: ", e)))
      case Ok(content) =>
        var ref := content.refNamespace + "/" + content.refName;
        match env.snapshot(content.refName, content.refNamespace)
        case Err(e) => Outcome(s, Err(InternalError("CreateSnapshot: get snapshot " + ref + " error: ", e)))
        case Ok(annotations) =>
          match env.initialSize(annotations)
          case Err(e) => Outcome(s, Err(InternalError("CreateSnapshot: get snapshot " + ref + " initial info error: ", e)))
          case Ok(initial) =>
            match env.pvSpec(sourceId)
            case Err(e) => Outcome(s, Err(InternalError("CreateSnapshot: get pv " + sourceId + " error: ", e)))
            case Ok(spec) =>
              var size := SnapshotSize(initial, spec.pv.capacityBytes);
              var (w1, connErr) := Dial(env, s.world, spec.node);
              if connErr.Some? then
                Outcome(s.(world := w1), Err(InternalError("CreateSnapshot: get grpc client at node " + spec.node + " error: ", connErr.value)))
              else
                var a := AgentAt(s.world, spec.node);
                var w2 := Invoke(w1, spec.node, GetLvmOp);
                match a.GetLvm(spec.vg, name)
                case Err(e) => Outcome(s.(world := w2), Err(InternalError("CreateSnapshot: get lvm snapshot " + name + " failed: ", e)))
                case Ok(found) =>
                  if found != "" then SnapshotResponse(env, s.(world := w2), name, sourceId)
                  else
                    var (w3, err) := Mutate(w2, spec.node, CreateSnapshotOp, a.CreateSnapshot(spec.vg, name, sourceId, size));
                    if err.Some? then
                      Outcome(s.(world := w3), Err(InternalError("CreateSnapshot: create lvm snapshot " + name + " failed: ", err.value)))
                    else SnapshotResponse(env, s.(world := w3), name, sourceId)
  }

  function DeleteSnapshotOutcome(env: Env, s: State, snapshotId: string): Outcome<()> {
    if snapshotId == "" then Outcome(s, Err(Status(InvalidArgument, "DeleteSnapshot: Snapshot ID not provided")))
    else
      match env.usedByPV(snapshotId)
      case Err(e) => Outcome(s, Err(InternalError("DeleteSnapshot: check if snapshot can be deleted failed: ", e)))
      case Ok(used) =>
        if used then Outcome(s, Err(Status(Aborted, "DeleteSnapshot: Snapshot is used by PV!")))
        else
          match env.snapshotContent(snapshotId)
          case Err(e) => Outcome(s, Err(InternalError("DeleteSnapshot: get snapContent " + snapshotId + " error: ", e)))
          case Ok(content) =>
            var volumeId := content.volumeHandle;
            match env.pvSpec(volumeId)
            case Err(e) => Outcome(s, Err(InternalError("DeleteSnapshot: get pv " + volumeId + " error: ", e)))
            case Ok(spec) =>
              var (w1, connErr) := Dial(env, s.world, spec.node);
              if connErr.Some? then
                Outcome(s.(world := w1), Err(InternalError("DeleteSnapshot: get grpc client at node " + spec.node + " error: ", connErr.value)))
              else
                var a := AgentAt(s.world, spec.node);
                var w2 := Invoke(w1, spec.node, GetLvmOp);
                match a.GetLvm(spec.vg, snapshotId)
                case Err(e) => Outcome(s.(world := w2), Err(InternalError("DeleteSnapshot: get lvm snapshot " + snapshotId + " failed: ", e)))
                case Ok(found) =>
                  if found == "" then Outcome(s.(world := w2), Ok(()))
                  else
                    var (w3, err) := Mutate(w2, spec.node, DeleteSnapshotOp, a.DeleteSnapshot(spec.vg, snapshotId));
                    if err.Some? then
                      Outcome(s.(world := w3), Err(InternalError("DeleteSnapshot: delete lvm snapshot " + snapshotId + " failed: ", err.value)))
                    else Outcome(s.(world := w3), Ok(()))
  }

  // ---------------------------------------------------------------------
  // Properties of CreateVolume

  /** A driver that refuses the request's capability has it rejected with
      its own error before anything else is looked at, and nothing
      changes. */
  lemma ValidatedFirst(env: Env, grpc: bool, s: State, req: CreateVolumeRequest)
    requires env.validate.Some?
    ensures CreateVolumeOutcome(env, grpc, s, req) == Outcome(s, Err(env.validate.value))
  {
  }

  /** An unsupported or missing volume type is rejected before the cache is
      consulted, even for a name that is cached, and nothing changes. */
  lemma TypeCheckedBeforeCache(env: Env, grpc: bool, s: State, req: CreateVolumeRequest)
    requires env.validate.None? && req.name != "" && req.hasCapabilities
    requires VolumeTypeKey !in req.parameters || req.parameters[VolumeTypeKey] !in SupportVolumeTypes
    ensures var o := CreateVolumeOutcome(env, grpc, s, req);
      o.state == s && o.result.Err? && o.result.error.Status? && o.result.error.code == InvalidArgument
  {
    assert VolumeTypeOf(req.parameters) == "";
  }

  /** A cached name returns the cached volume, with no node or cluster call
      and no change. */
  lemma CachedVolumeReturned(env: Env, grpc: bool, s: State, req: CreateVolumeRequest)
    requires env.validate.None? && req.name != "" && req.hasCapabilities && VolumeTypeOf(req.parameters) != ""
    requires req.name in s.cache
    ensures CreateVolumeOutcome(env, grpc, s, req) == Outcome(s, Ok(s.cache[req.name]))
  {
  }

  /** The cache changes only when CreateVolume succeeds, and then holds the
      returned volume under the request's name. */
  lemma CacheWrittenOnSuccess(env: Env, grpc: bool, s: State, req: CreateVolumeRequest)
    ensures var o := CreateVolumeOutcome(env, grpc, s, req);
      && (o.result.Ok? ==> req.name != "" && o.state.cache == s.cache[req.name := o.result.value])
      && (o.result.Err? ==> o.state.cache == s.cache)
  {
    var volumeType := VolumeTypeOf(req.parameters);
    if env.validate.Some? || req.name == "" || !req.hasCapabilities || volumeType == "" {
      CreateRejected(env, grpc, s, req);
    } else if req.name in s.cache {
      CachedVolumeReturned(env, grpc, s, req);
    } else {
      CreateReachesNew(env, grpc, s, req);
      CreateNewCache(env, grpc, s, req, volumeType);
    }
  }

  /** A request refused by a check leaves everything as it was. */
  lemma CreateRejected(env: Env, grpc: bool, s: State, req: CreateVolumeRequest)
    requires env.validate.Some? || req.name == "" || !req.hasCapabilities || VolumeTypeOf(req.parameters) == ""
    ensures CreateVolumeOutcome(env, grpc, s, req).state == s && CreateVolumeOutcome(env, grpc, s, req).result.Err?
  {
  }

  /** A valid request for a name not cached is a new volume. */
  lemma CreateReachesNew(env: Env, grpc: bool, s: State, req: CreateVolumeRequest)
    requires env.validate.None? && req.name != "" && req.hasCapabilities && VolumeTypeOf(req.parameters) != ""
    requires req.name !in s.cache
    ensures CreateVolumeOutcome(env, grpc, s, req) == CreateNew(env, grpc, s, req, VolumeTypeOf(req.parameters))
  {
  }

  /** Creating a new volume caches it on success and only then. */
  lemma CreateNewCache(env: Env, grpc: bool, s: State, req: CreateVolumeRequest, volumeType: string)
    ensures var o := CreateNew(env, grpc, s, req, volumeType);
      && (o.result.Ok? ==> o.state.cache == s.cache[req.name := o.result.value])
      && (o.result.Err? ==> o.state.cache == s.cache)
  {
    var pvcName := Lookup(req.parameters, PvcNameTag);
    var pvcNamespace := Lookup(req.parameters, PvcNsTag);
    var placed := Place(env, volumeType, req, pvcName, pvcNamespace,
                        Lookup(req.parameters, NodeSchedueTag), Lookup(req.parameters, StorageSchedueTag));
    if placed.Ok? {
      var st := Provision(env, grpc, volumeType, s.world, req, placed.value, pvcName, pvcNamespace);
      assert CreateNew(env, grpc, s, req, volumeType) == Respond(s, req, placed.value, st);
    }
  }

  /** Repeating a successful CreateVolume returns the same volume and
      changes nothing. */
  lemma CreateVolumeIdempotent(env: Env, grpc: bool, s: State, req: CreateVolumeRequest)
    requires CreateVolumeOutcome(env, grpc, s, req).result.Ok?
    ensures var o := CreateVolumeOutcome(env, grpc, s, req);
      CreateVolumeOutcome(env, grpc, o.state, req) == Outcome(o.state, o.result)
  {
    var o := CreateVolumeOutcome(env, grpc, s, req);
    CacheWrittenOnSuccess(env, grpc, s, req);
    CachedVolumeReturned(env, grpc, o.state, req);
  }

  /** The three scheduling tiers: node and storage given asks `scheduled`,
      node only asks `partScheduled`, neither asks `noScheduled` (whose node
      is then used); for LVM a volume group in the answer overrides the
      storage. Failures are InvalidArgument. */
  lemma ScheduleTiers(env: Env, kind: Kind, parameters: map<string, string>, pvcName: string, pvcNamespace: string,
                      node: string, storage: string)
    ensures var r := Schedule(env, kind, parameters, pvcName, pvcNamespace, node, storage);
      && (node != "" && storage != "" ==>
            var a := env.scheduled(kind, storage, parameters);
            (r.Ok? <==> a.Ok?) && (r.Ok? ==> r.value.paraList == a.value && r.value.node == node))
      && (node != "" && storage == "" ==>
            var a := env.partScheduled(kind, node, pvcName, pvcNamespace, parameters);
            (r.Ok? <==> a.Ok?) && (r.Ok? ==> r.value.paraList == a.value && r.value.node == node))
      && (node == "" ==>
            var a := env.noScheduled(kind, parameters);
            (r.Ok? <==> a.Ok?) && (r.Ok? ==> r.value.paraList == a.value.1 && r.value.node == a.value.0))
      && (r.Ok? ==> r.value.parameters == parameters && !r.value.isSnapshot)
      && (r.Ok? && kind == LvmKind ==>
            r.value.storage == if VgNameTag in r.value.paraList && r.value.paraList[VgNameTag] != "" then r.value.paraList[VgNameTag] else storage)
      && (r.Ok? && kind != LvmKind ==> r.value.storage == storage)
      && (r.Err? ==> r.error.Status? && r.error.code == InvalidArgument)
  {
  }

  /** LVM create is get-before-create: the create call is issued exactly
      when the node is reachable and GetLvm answers "" without error; a
      GetLvm error is returned; a created LV has the request's size and is
      striped iff the class asks for striping; without gRPC the generator
      is told instead; with no node or volume group nothing happens. */
  lemma LvmGetBeforeCreate(env: Env, grpc: bool, w: World, req: CreateVolumeRequest, p: Placement, pvcName: string, pvcNamespace: string)
    ensures var st := ProvisionLvm(env, grpc, w, req, p, pvcName, pvcNamespace);
      && st.parameters == p.parameters
      && (st.world.rpcs == w.rpcs + [Connect(p.node), Call(p.node, GetLvmOp), Call(p.node, CreateLvmOp)] <==>
            grpc && p.node != "" && p.storage != "" && env.connect(p.node).None? && AgentAt(w, p.node).GetLvm(p.storage, req.name) == Ok(""))
      && (grpc && p.node != "" && p.storage != "" && env.connect(p.node).None? && AgentAt(w, p.node).GetLvm(p.storage, req.name).Err? ==>
            st.err == Some(AgentAt(w, p.node).GetLvm(p.storage, req.name).error))
      && (req.name != "" && (p.storage, req.name) in AgentAt(w, p.node).lvs ==> st.world.agents == w.agents)
      && (grpc && p.node != "" && p.storage != "" && st.err.None? && (p.storage, req.name) !in AgentAt(w, p.node).lvs ==>
            (p.storage, req.name) in AgentAt(st.world, p.node).lvs &&
            AgentAt(st.world, p.node).lvs[(p.storage, req.name)] ==
              Lv(ToUint64(req.requiredBytes), LvmTypeTag in p.parameters && p.parameters[LvmTypeTag] == StripingType, None))
      && (!grpc ==> st.world.rpcs == w.rpcs && st.world.agents == w.agents)
      && (!grpc && p.node != "" && p.storage != "" && env.marshal(LvmOptionsFor(req, p)).Ok? ==>
            var labels := map[VolumeLifecycleLabel := VolumeLifecycleCreating][VolumeSpecLabel := env.marshal(LvmOptionsFor(req, p)).value];
            st.world.calls == w.calls + [CreateWithAnnotations(pvcNamespace, pvcName, labels)])
      && (p.node == "" || p.storage == "" ==> st == Step(w, p.parameters, None))
  {
  }

  /** PMEM needs a node. A namespace is created only when the agent has
      none of that name, in the region chosen from the selected storage,
      else the class's `pmemRegion`, else the default, and its region and
      devices are added to the parameters. */
  lemma PmemProvisioning(env: Env, w: World, req: CreateVolumeRequest, p: Placement)
    ensures var st := ProvisionPmem(env, w, req, p);
      && (p.node == "" ==> st == Step(w, p.parameters, Some(Plain("CreateVolume: PMEMDirect type nodeselected must not be None"))))
      && (req.name != "" && req.name in AgentAt(w, p.node).namespaces ==> st.world.agents == w.agents && st.parameters == p.parameters)
      && (p.node != "" && st.err.None? && req.name !in AgentAt(w, p.node).namespaces ==>
            req.name in AgentAt(st.world, p.node).namespaces &&
            var ns := AgentAt(st.world, p.node).namespaces[req.name];
            && ns.size == ToUint64(req.requiredBytes)
            && ns.region == (if p.storage != "" then p.storage
                             else if PmemRegionKey in p.parameters then p.parameters[PmemRegionKey]
                             else PmemRegionNameDefault)
            && st.parameters == p.parameters[PmemRegionKey := ns.region][PmemNameSpaceKey := ns.dev][PmemBlockDevKey := ns.blockDev])
  {
  }

  /** QuotaPath needs a node. The subpath is made under `rootPath` only
      when no storage was selected, sized in bytes, with soft and hard
      limits both the size in KiB (integer division), and its path is
      added to the parameters. */
  lemma QuotaProvisioning(env: Env, w: World, req: CreateVolumeRequest, p: Placement)
    ensures var st := ProvisionQuota(env, w, req, p);
      && (p.node == "" ==> st == Step(w, p.parameters, Some(Plain("CreateVolume: QuotaPath type nodeselected must not be None"))))
      && (p.node != "" && st.err.None? ==>
            var root := if QuotaRootPath in p.parameters && p.parameters[QuotaRootPath] != "" && p.storage == ""
                        then p.parameters[QuotaRootPath] else p.storage;
            var path := env.quotaSubpath(req.name, root);
            var kSize := Strings.IntToString(GoDiv(req.requiredBytes, 1024));
            && path in AgentAt(st.world, p.node).quotas
            && AgentAt(st.world, p.node).quotas[path] == Quota(req.name, Strings.IntToString(req.requiredBytes), kSize, kSize)
            && st.parameters == p.parameters[ProjQuotaFullPath := path])
      && (req.requiredBytes >= 0 ==> GoDiv(req.requiredBytes, 1024) == req.requiredBytes / 1024)
  {
  }

  /** Every LV and PMEM namespace of `w` is still in `w'`, unchanged. */
  ghost predicate KeepsVolumes(w: World, w': World) {
    && (forall n, k :: k in AgentAt(w, n).lvs ==> k in AgentAt(w', n).lvs && AgentAt(w', n).lvs[k] == AgentAt(w, n).lvs[k])
    && (forall n, k :: k in AgentAt(w, n).namespaces ==>
          k in AgentAt(w', n).namespaces && AgentAt(w', n).namespaces[k] == AgentAt(w, n).namespaces[k])
  }

  /** Replacing one agent by one that keeps its volumes keeps all volumes. */
  lemma InstallKeeps(w: World, w1: World, node: string, a: Agent)
    requires w1.agents - {node} == w.agents - {node}
    requires forall k :: k in AgentAt(w, node).lvs ==> k in a.lvs && a.lvs[k] == AgentAt(w, node).lvs[k]
    requires forall k :: k in AgentAt(w, node).namespaces ==> k in a.namespaces && a.namespaces[k] == AgentAt(w, node).namespaces[k]
    ensures KeepsVolumes(w, Install(w1, node, a))
  {
    var w' := Install(w1, node, a);
    forall n | n != node
      ensures AgentAt(w', n) == AgentAt(w, n)
    {
      assert n in w1.agents <==> n in w1.agents - {node};
      assert n in w.agents <==> n in w.agents - {node};
    }
  }

  /** Calls that leave the agents alone keep all volumes. */
  lemma SameAgentsKeep(w: World, w1: World)
    requires w1.agents == w.agents
    ensures KeepsVolumes(w, w1)
  {
    forall n
      ensures AgentAt(w1, n) == AgentAt(w, n)
    {
    }
  }

  lemma LvmKeeps(env: Env, grpc: bool, w: World, req: CreateVolumeRequest, p: Placement, pvcName: string, pvcNamespace: string)
    requires req.name != ""
    ensures KeepsVolumes(w, ProvisionLvm(env, grpc, w, req, p, pvcName, pvcNamespace).world)
  {
    var st := ProvisionLvm(env, grpc, w, req, p, pvcName, pvcNamespace);
    var a := AgentAt(w, p.node);
    var created := a.CreateLvm(LvmOptionsFor(req, p));
    if grpc && p.node != "" && p.storage != "" && env.connect(p.node).None? && a.GetLvm(p.storage, req.name) == Ok("") && created.Ok? {
      var w2 := Invoke(Dial(env, w, p.node).0, p.node, GetLvmOp);
      var w3 := Invoke(w2, p.node, CreateLvmOp);
      assert st.world == Install(w3, p.node, created.value);
      InstallKeeps(w, w3, p.node, created.value);
    } else {
      assert st.world.agents == w.agents;
      SameAgentsKeep(w, st.world);
    }
  }

  lemma PmemKeeps(env: Env, w: World, req: CreateVolumeRequest, p: Placement)
    requires req.name != ""
    ensures KeepsVolumes(w, ProvisionPmem(env, w, req, p).world)
  {
    var a := AgentAt(w, p.node);
    var opts := NameSpaceOptions(req.name, PmemRegion(p.parameters, p.storage), ToUint64(req.requiredBytes));
    var created := a.CreateNameSpace(opts, env.namespaceDevices(opts));
    if p.node != "" && env.connect(p.node).None? && a.GetNameSpace(opts.region, req.name) == Ok("") && created.Ok? {
      InstallKeeps(w, Invoke(Invoke(Dial(env, w, p.node).0, p.node, GetNameSpaceOp), p.node, CreateNameSpaceOp), p.node, created.value.0);
    }
  }

  lemma QuotaKeeps(env: Env, w: World, req: CreateVolumeRequest, p: Placement)
    ensures KeepsVolumes(w, ProvisionQuota(env, w, req, p).world)
  {
    if p.node != "" && env.connect(p.node).None? {
      var w1 := Dial(env, w, p.node).0;
      var size := Strings.IntToString(req.requiredBytes);
      var kSize := Strings.IntToString(GoDiv(req.requiredBytes, 1024));
      var path := env.quotaSubpath(req.name, QuotaRoot(p.parameters, p.storage));
      var created := AgentAt(w1, p.node).CreateProjQuotaSubpath(req.name, size, path);
      if created.Ok? {
        InstallKeeps(w, Invoke(w1, p.node, CreateQuotaOp), p.node, created.value);
        var w2 := Mutate(w1, p.node, CreateQuotaOp, created).0;
        var limited := AgentAt(w2, p.node).SetSubpathProjQuota(path, kSize, kSize);
        if limited.Ok? {
          InstallKeeps(w, Invoke(w2, p.node, SetQuotaOp), p.node, limited.value);
        }
      }
    }
  }

  lemma ProvisionKeeps(env: Env, grpc: bool, volumeType: string, w: World, req: CreateVolumeRequest, p: Placement,
                       pvcName: string, pvcNamespace: string)
    requires req.name != ""
    ensures KeepsVolumes(w, Provision(env, grpc, volumeType, w, req, p, pvcName, pvcNamespace).world)
  {
    if volumeType == LvmVolumeType && !p.isSnapshot {
      LvmKeeps(env, grpc, w, req, p, pvcName, pvcNamespace);
    } else if volumeType == PmemVolumeType {
      PmemKeeps(env, w, req, p);
    } else if volumeType == QuotaPathVolumeType {
      QuotaKeeps(env, w, req, p);
    }
  }

  /** CreateVolume never removes or overwrites an existing LV or PMEM
      namespace on any node. */
  lemma CreateKeepsVolumes(env: Env, grpc: bool, s: State, req: CreateVolumeRequest)
    ensures KeepsVolumes(s.world, CreateVolumeOutcome(env, grpc, s, req).state.world)
  {
    var volumeType := VolumeTypeOf(req.parameters);
    if env.validate.Some? || req.name == "" || !req.hasCapabilities || volumeType == "" {
      CreateRejected(env, grpc, s, req);
    } else if req.name in s.cache {
      CachedVolumeReturned(env, grpc, s, req);
    } else {
      CreateReachesNew(env, grpc, s, req);
      CreateNewKeeps(env, grpc, s, req, volumeType);
    }
  }

  /** Creating a new volume keeps every existing one. */
  lemma CreateNewKeeps(env: Env, grpc: bool, s: State, req: CreateVolumeRequest, volumeType: string)
    requires req.name != ""
    ensures KeepsVolumes(s.world, CreateNew(env, grpc, s, req, volumeType).state.world)
  {
    var pvcName := Lookup(req.parameters, PvcNameTag);
    var pvcNamespace := Lookup(req.parameters, PvcNsTag);
    var placed := Place(env, volumeType, req, pvcName, pvcNamespace,
                        Lookup(req.parameters, NodeSchedueTag), Lookup(req.parameters, StorageSchedueTag));
    if placed.Ok? {
      ProvisionKeeps(env, grpc, volumeType, s.world, req, placed.value, pvcName, pvcNamespace);
    }
  }

  // ---------------------------------------------------------------------
  // Properties of DeleteVolume

  /** The cache loses the volume exactly when DeleteVolume succeeds. */
  lemma DeleteClearsCache(env: Env, grpc: bool, s: State, volumeId: string)
    ensures var o := DeleteVolumeOutcome(env, grpc, s, volumeId);
      && (o.result.Ok? ==> o.state.cache == s.cache - {volumeId})
      && (o.result.Err? ==> o.state.cache == s.cache)
  {
  }

  /** A PV of an unknown type is refused, and nothing changes. */
  lemma DeleteUnknownTypeRejected(env: Env, grpc: bool, s: State, volumeId: string)
    requires env.pvSpec(volumeId).Ok?
    requires Lookup(Attributes(env.pvSpec(volumeId).value.pv), VolumeTypeKey) !in SupportVolumeTypes
    ensures var o := DeleteVolumeOutcome(env, grpc, s, volumeId);
      o.state == s && o.result.Err? && o.result.error.Status? && o.result.error.code == InvalidArgument
  {
  }

  /** An LVM volume made from a read-only snapshot is deleted without any
      call; one made from another snapshot is Unimplemented. */
  lemma DeleteSnapshotVolume(env: Env, grpc: bool, s: State, volumeId: string)
    requires env.pvSpec(volumeId).Ok?
    requires var attributes := Attributes(env.pvSpec(volumeId).value.pv);
      Lookup(attributes, VolumeTypeKey) == LvmVolumeType && Lookup(attributes, SnapshotTag) != ""
    ensures var attributes := Attributes(env.pvSpec(volumeId).value.pv);
      var o := DeleteVolumeOutcome(env, grpc, s, volumeId);
      && (Lookup(attributes, SnapshotReadonlyTag) == "true" ==> o == Outcome(State(s.cache - {volumeId}, s.world), Ok(())))
      && (Lookup(attributes, SnapshotReadonlyTag) != "true" ==>
            o == Outcome(s, Err(Status(Unimplemented, ReadonlyMsg("DeleteVolume")))))
  {
  }

  /** LVM delete over gRPC: an LV the agent reports is removed; an empty
      answer, or an error saying the LV or its volume group is missing,
      counts as success with nothing removed; any other error is returned. */
  lemma DeleteLvmCases(env: Env, s: State, volumeId: string)
    requires env.pvSpec(volumeId).Ok?
    requires var spec := env.pvSpec(volumeId).value;
      var attributes := Attributes(spec.pv);
      && Lookup(attributes, VolumeTypeKey) == LvmVolumeType && Lookup(attributes, SnapshotTag) == ""
      && spec.node != "" && env.connect(spec.node).None?
    ensures var spec := env.pvSpec(volumeId).value;
      var o := DeleteVolumeOutcome(env, true, s, volumeId);
      var found := AgentAt(s.world, spec.node).GetLvm(spec.vg, volumeId);
      && o.state.world.rpcs[..|s.world.rpcs| + 2] == s.world.rpcs + [Connect(spec.node), Call(spec.node, GetLvmOp)]
      && (found == Ok("") ==> o.result == Ok(()) && o.state.world.agents == s.world.agents)
      && (found.Err? && LvMissing(ErrorText(found.error), spec.vg) ==> o.result == Ok(()) && o.state.world.agents == s.world.agents)
      && (found.Err? && !LvMissing(ErrorText(found.error), spec.vg) ==> o.result == Err(found.error))
      && (found.Ok? && found.value != "" && DeleteLvmOp !in AgentAt(s.world, spec.node).faults ==>
            o.result == Ok(()) && (spec.vg, volumeId) !in AgentAt(o.state.world, spec.node).lvs)
  {
    var spec := env.pvSpec(volumeId).value;
    var o := DeleteVolumeOutcome(env, true, s, volumeId);
    assert |o.state.world.rpcs| >= |s.world.rpcs| + 2;
  }

  // ---------------------------------------------------------------------
  // Properties of ControllerExpandVolume

  /** Expansion always answers the requested bytes and asks for node
      expansion; only the yoda driver calls the adapter, with the request
      in whole GiB; it never touches the cache or the nodes. */
  lemma ExpandAnswersRequest(env: Env, driverName: string, s: State, volumeId: string, bytes: int64)
    ensures var o := ExpandOutcome(env, driverName, s, volumeId, bytes);
      && (o.result.Ok? ==> o.result.value == ExpandResponse(bytes, true))
      && (driverName != YodaDriverName ==> o == Outcome(s, Ok(ExpandResponse(bytes, true))))
      && o.state.cache == s.cache && o.state.world.agents == s.world.agents && o.state.world.rpcs == s.world.rpcs
      && (driverName == YodaDriverName && o.result.Ok? ==>
            exists ns, pvc :: o.state.world.calls == s.world.calls + [ExpandVolume(ns, pvc, SizeInGiB(bytes))])
  {
    var o := ExpandOutcome(env, driverName, s, volumeId, bytes);
    if driverName == YodaDriverName && o.result.Ok? {
      var attributes := env.pvObj(volumeId).value.csi.value.volumeAttributes;
      var ns, pvc := Lookup(attributes, PvcNsTag), Lookup(attributes, PvcNameTag);
      assert o.state.world.calls == s.world.calls + [ExpandVolume(ns, pvc, SizeInGiB(bytes))];
    }
  }

  /** Requests that do not overflow are rounded up to whole GiB. */
  lemma SizeInGiBRoundsUp(bytes: int64)
    requires 0 <= bytes <= MaxInt64 - GiB + 1
    ensures var g := SizeInGiB(bytes);
      g >= 0 && bytes <= g * GiB < bytes + GiB
  {
  }

  /** Within GiB - 1 bytes of the largest int64 the rounding wraps around
      and the adapter is asked for a negative size. */
  lemma SizeInGiBWraps()
    ensures SizeInGiB(MaxInt64 as int64) < 0
  {
  }

  // ---------------------------------------------------------------------
  // Properties of CreateSnapshot and DeleteSnapshot

  /** The initial size is the smaller of the requested initial size and the
      PV's size, whenever both fit in an int64 and the PV size is not
      negative. */
  lemma SnapshotSizeIsMin(initial: uint64, pvSize: int64)
    requires initial <= MaxInt64 && pvSize >= 0
    ensures SnapshotSize(initial, pvSize) == if pvSize < initial then pvSize else initial
  {
  }

  /** CreateSnapshot never changes the cache, never removes or overwrites
      an LV or namespace, and a snapshot LV it creates has the clamped
      initial size and the source volume as origin. */
  lemma CreateSnapshotEffects(env: Env, s: State, name: string, sourceId: string)
    ensures var o := CreateSnapshotOutcome(env, s, name, sourceId);
      o.state.cache == s.cache && KeepsVolumes(s.world, o.state.world)
    ensures var o := CreateSnapshotOutcome(env, s, name, sourceId);
      forall content, annotations, initial, spec ::
        && name != "" && sourceId != ""
        && env.snapshotContent(name) == Ok(content)
        && env.snapshot(content.refName, content.refNamespace) == Ok(annotations)
        && env.initialSize(annotations) == Ok(initial)
        && env.pvSpec(sourceId) == Ok(spec)
        && (spec.vg, name) !in AgentAt(s.world, spec.node).lvs
        && o.result.Ok?
        ==> (spec.vg, name) in AgentAt(o.state.world, spec.node).lvs &&
            AgentAt(o.state.world, spec.node).lvs[(spec.vg, name)] ==
              Lv(SnapshotSize(initial, spec.pv.capacityBytes), false, Some(sourceId))
  {
    var o := CreateSnapshotOutcome(env, s, name, sourceId);
    if name != "" && sourceId != "" && env.snapshotContent(name).Ok? {
      var content := env.snapshotContent(name).value;
      var annotations := env.snapshot(content.refName, content.refNamespace);
      if annotations.Ok? && env.initialSize(annotations.value).Ok? && env.pvSpec(sourceId).Ok? {
        var spec := env.pvSpec(sourceId).value;
        var a := AgentAt(s.world, spec.node);
        var created := a.CreateSnapshot(spec.vg, name, sourceId, SnapshotSize(env.initialSize(annotations.value).value, spec.pv.capacityBytes));
        if env.connect(spec.node).None? && a.GetLvm(spec.vg, name) == Ok("") && created.Ok? {
          InstallKeeps(s.world, Invoke(Invoke(Dial(env, s.world, spec.node).0, spec.node, GetLvmOp), spec.node, CreateSnapshotOp), spec.node, created.value);
        }
      }
    }
  }

  /** A snapshot in use is refused with Aborted before any node call. */
  lemma DeleteSnapshotInUse(env: Env, s: State, snapshotId: string)
    requires snapshotId != "" && env.usedByPV(snapshotId) == Ok(true)
    ensures DeleteSnapshotOutcome(env, s, snapshotId) == Outcome(s, Err(Status(Aborted, "DeleteSnapshot: Snapshot is used by PV!")))
  {
  }

  /** A snapshot whose LV is gone is deleted successfully without change;
      one whose LV is there loses it. */
  lemma DeleteSnapshotCases(env: Env, s: State, snapshotId: string)
    requires snapshotId != "" && env.usedByPV(snapshotId) == Ok(false) && env.snapshotContent(snapshotId).Ok?
    requires env.pvSpec(env.snapshotContent(snapshotId).value.volumeHandle).Ok?
    requires var spec := env.pvSpec(env.snapshotContent(snapshotId).value.volumeHandle).value;
      env.connect(spec.node).None? && GetLvmOp !in AgentAt(s.world, spec.node).faults
    ensures var spec := env.pvSpec(env.snapshotContent(snapshotId).value.volumeHandle).value;
      var o := DeleteSnapshotOutcome(env, s, snapshotId);
      && o.state.cache == s.cache
      && ((spec.vg, snapshotId) !in AgentAt(s.world, spec.node).lvs ==> o.result == Ok(()) && o.state.world.agents == s.world.agents)
      && ((spec.vg, snapshotId) in AgentAt(s.world, spec.node).lvs && DeleteSnapshotOp !in AgentAt(s.world, spec.node).faults ==>
            o.result == Ok(()) && (spec.vg, snapshotId) !in AgentAt(o.state.world, spec.node).lvs)
  {
  }

  // ---------------------------------------------------------------------
  // The controller

  /** The controller server: its configuration, the `createdVolumeMap`
      cache, and the world it acts on. */
  class ControllerServer {
    const env: Env
    /** `types.GlobalConfigVar.GrpcProvision`. */
    const grpcProvision: bool
    /** `types.GlobalConfigVar.DriverName`. */
    const driverName: string
    var createdVolumeMap: map<string, Volume>
    var agents: map<string, Agent>
    var rpcs: seq<Rpc>
    var clusterCalls: seq<ClusterCall>

    function CurrentWorld(): World
      reads this
    {
      World(agents, rpcs, clusterCalls)
    }

    function Current(): State
      reads this
    {
      State(createdVolumeMap, CurrentWorld())
    }

    constructor (env: Env, grpcProvision: bool, driverName: string, agents: map<string, Agent>)
      ensures this.env == env && this.grpcProvision == grpcProvision && this.driverName == driverName
      ensures Current() == State(map[], World(agents, [], []))
    {
      this.env := env;
      this.grpcProvision := grpcProvision;
      this.driverName := driverName;
      this.agents := agents;
      createdVolumeMap := map[];
      rpcs := [];
      clusterCalls := [];
    }

    // --- node and cluster calls

    method GetNodeConn(node: string) returns (err: Option<Error>)
      modifies this`rpcs
      ensures (CurrentWorld(), err) == Dial(env, old(CurrentWorld()), node)
    {
      rpcs := rpcs + [Connect(node)];
      err := env.connect(node);
    }

    method GetLvm(node: string, vg: string, name: string) returns (r: Result<string, Error>)
      modifies this`rpcs
      ensures CurrentWorld() == Invoke(old(CurrentWorld()), node, GetLvmOp)
      ensures r == AgentAt(old(CurrentWorld()), node).GetLvm(vg, name)
    {
      r := AgentAt(CurrentWorld(), node).GetLvm(vg, name);
      rpcs := rpcs + [Call(node, GetLvmOp)];
    }

    method GetNameSpace(node: string, region: string, name: string) returns (r: Result<string, Error>)
      modifies this`rpcs
      ensures CurrentWorld() == Invoke(old(CurrentWorld()), node, GetNameSpaceOp)
      ensures r == AgentAt(old(CurrentWorld()), node).GetNameSpace(region, name)
    {
      r := AgentAt(CurrentWorld(), node).GetNameSpace(region, name);
      rpcs := rpcs + [Call(node, GetNameSpaceOp)];
    }

    /** An agent call that changes the agent, given the agent's answer. */
    method Commit(node: string, op: AgentOp, r: Result<Agent, Error>) returns (err: Option<Error>)
      modifies this`rpcs, this`agents
      ensures (CurrentWorld(), err) == Mutate(old(CurrentWorld()), node, op, r)
    {
      rpcs := rpcs + [Call(node, op)];
      if r.Ok? {
        agents := agents[node := r.value];
        err := None;
      } else {
        err := Some(r.error);
      }
    }

    method CallCluster(call: ClusterCall) returns (err: Option<Error>)
      modifies this`clusterCalls
      ensures (CurrentWorld(), err) == Issue(env, old(CurrentWorld()), call)
    {
      clusterCalls := clusterCalls + [call];
      err := env.cluster(call);
    }

    // --- CreateVolume

    /** The loop over the supported types that picks the requested one. */
    method PickVolumeType(parameters: map<string, string>) returns (volumeType: string)
      ensures volumeType == VolumeTypeOf(parameters)
    {
      volumeType := "";
      if VolumeTypeKey in parameters {
        var value := parameters[VolumeTypeKey];
        var i := 0;
        while i < |SupportVolumeTypes|
          invariant 0 <= i <= |SupportVolumeTypes|
          invariant volumeType == (if value in SupportVolumeTypes[..i] then value else "")
        {
          if SupportVolumeTypes[i] == value {
            volumeType := value;
          }
          i := i + 1;
        }
        assert SupportVolumeTypes[..i] == SupportVolumeTypes;
      }
    }

    method PlaceSnapshot(parameters: map<string, string>, source: ContentSource) returns (r: Result<Placement, Error>)
      ensures r == SnapshotPlacement(env, parameters, source)
    {
      if !source.FromSnapshot? {
        return Err(Status(InvalidArgument, "CreateVolume: unsupported volumeContentSource type"));
      }
      if source.snapshotId.None? {
        return Err(Status(InvalidArgument, "CreateVolume: error retrieving snapshot from the volumeContentSource"));
      }
      var snapshotId := source.snapshotId.value;
      var content := env.snapshotContent(snapshotId);
      if content.Err? {
        return Err(Status(InvalidArgument, "CreateVolume: get snapshot content failed: " + ErrorText(content.error)));
      }
      var snapshotClass := env.snapshotClass(content.value.className);
      if snapshotClass.Err? {
        return Err(Status(InvalidArgument, "get snapshot class failed: " + ErrorText(snapshotClass.error)));
      }
      if SnapshotReadonlyTag !in snapshotClass.value || snapshotClass.value[SnapshotReadonlyTag] != "true" {
        return Err(Status(Unimplemented, ReadonlyMsg("CreateVolume")));
      }
      var spec := env.pvSpec(content.value.volumeHandle);
      if spec.Err? {
        return Err(Status(Internal, "CreateVolume: get pv spec failed: " + ErrorText(spec.error)));
      }
      var nodeSelected, storageSelected := spec.value.node, spec.value.vg;
      var params := parameters[NodeSchedueTag := nodeSelected];
      var paraList: map<string, string> := map[];
      paraList := paraList[VgNameTag := storageSelected];
      paraList := paraList[SnapshotTag := snapshotId];
      paraList := paraList[SnapshotReadonlyTag := "true"];
      return Ok(Placement(params, paraList, nodeSelected, storageSelected, true));
    }

    /** The scheduling switch: the node and storage start as requested and
        are reassigned by the tier that applies. */
    method PlaceVolume(volumeType: string, req: CreateVolumeRequest, pvcName: string, pvcNamespace: string,
                       node: string, storage: string) returns (r: Result<Placement, Error>)
      ensures r == Place(env, volumeType, req, pvcName, pvcNamespace, node, storage)
    {
      var parameters := req.parameters;
      var nodeSelected, storageSelected := node, storage;
      var kind: Kind;
      if volumeType == LvmVolumeType {
        if req.contentSource.Some? {
          r := PlaceSnapshot(parameters, req.contentSource.value);
          return;
        }
        kind := LvmKind;
      } else if volumeType == MountPointType {
        kind := MountPointKind;
      } else if volumeType == DeviceVolumeType {
        kind := DeviceKind;
      } else {
        return Ok(Placement(parameters, map[], nodeSelected, storageSelected, false));
      }
      var paraList: map<string, string>;
      if storageSelected != "" && nodeSelected != "" {
        var answer := env.scheduled(kind, storageSelected, parameters);
        if answer.Err? {
          return Err(Status(InvalidArgument, ScheduleErrorMsg(kind, 0) + ErrorText(answer.error)));
        }
        paraList := answer.value;
      } else if nodeSelected != "" {
        var answer := env.partScheduled(kind, nodeSelected, pvcName, pvcNamespace, parameters);
        if answer.Err? {
          return Err(Status(InvalidArgument, ScheduleErrorMsg(kind, 1) + ErrorText(answer.error)));
        }
        paraList := answer.value;
      } else {
        var answer := env.noScheduled(kind, parameters);
        if answer.Err? {
          return Err(Status(InvalidArgument, ScheduleErrorMsg(kind, 2) + ErrorText(answer.error)));
        }
        nodeSelected := answer.value.0;
        paraList := answer.value.1;
      }
      if kind == LvmKind && VgNameTag in paraList && paraList[VgNameTag] != "" {
        storageSelected := paraList[VgNameTag];
      }
      return Ok(Placement(parameters, paraList, nodeSelected, storageSelected, false));
    }

    method ProvisionLvmVolume(req: CreateVolumeRequest, p: Placement, pvcName: string, pvcNamespace: string)
      returns (err: Option<Error>)
      modifies this`rpcs, this`agents, this`clusterCalls
      ensures Step(CurrentWorld(), p.parameters, err) == ProvisionLvm(env, grpcProvision, old(CurrentWorld()), req, p, pvcName, pvcNamespace)
    {
      var options := LvmOptionsFor(req, p);
      if grpcProvision && p.node != "" && p.storage != "" {
        err := GetNodeConn(p.node);
        if err.Some? {
          return;
        }
        var found := GetLvm(p.node, p.storage, req.name);
        if found.Ok? && found.value == "" {
          var created := Commit(p.node, CreateLvmOp, AgentAt(CurrentWorld(), p.node).CreateLvm(options));
          if created.Some? {
            return Some(Plain("Create Lvm with error " + ErrorText(created.value)));
          }
          return None;
        } else if found.Err? {
          return Some(found.error);
        }
        return None;
      } else if !grpcProvision && p.node != "" && p.storage != "" {
        var spec := env.marshal(options);
        if spec.Err? {
          return Some(spec.error);
        }
        var labels: map<string, string> := map[];
        labels := labels[VolumeLifecycleLabel := VolumeLifecycleCreating];
        labels := labels[VolumeSpecLabel := spec.value];
        err := CallCluster(CreateWithAnnotations(pvcNamespace, pvcName, labels));
        return;
      }
      return None;
    }

    method ProvisionPmemVolume(req: CreateVolumeRequest, p: Placement) returns (parameters: map<string, string>, err: Option<Error>)
      modifies this`rpcs, this`agents
      ensures Step(CurrentWorld(), parameters, err) == ProvisionPmem(env, old(CurrentWorld()), req, p)
    {
      parameters := p.parameters;
      if p.node == "" {
        return parameters, Some(Plain("CreateVolume: PMEMDirect type nodeselected must not be None"));
      }
      err := GetNodeConn(p.node);
      if err.Some? {
        return;
      }
      var region := PmemRegionNameDefault;
      if PmemRegionKey in parameters {
        region := parameters[PmemRegionKey];
      }
      if p.storage != "" {
        region := p.storage;
      }
      var options := NameSpaceOptions(req.name, region, ToUint64(req.requiredBytes));
      var found := GetNameSpace(p.node, options.region, req.name);
      if found.Ok? && found.value == "" {
        var created := AgentAt(CurrentWorld(), p.node).CreateNameSpace(options, env.namespaceDevices(options));
        rpcs := rpcs + [Call(p.node, CreateNameSpaceOp)];
        if created.Err? {
          return parameters, Some(Plain("Create Pmem direct with error " + ErrorText(created.error)));
        }
        agents := agents[p.node := created.value.0];
        parameters := parameters[PmemRegionKey := options.region];
        parameters := parameters[PmemNameSpaceKey := created.value.1.dev];
        parameters := parameters[PmemBlockDevKey := created.value.1.blockDev];
        return parameters, None;
      } else if found.Err? {
        return parameters, Some(found.error);
      }
      return parameters, None;
    }

    method ProvisionQuotaVolume(req: CreateVolumeRequest, p: Placement) returns (parameters: map<string, string>, err: Option<Error>)
      modifies this`rpcs, this`agents
      ensures Step(CurrentWorld(), parameters, err) == ProvisionQuota(env, old(CurrentWorld()), req, p)
    {
      parameters := p.parameters;
      if p.node == "" {
        return parameters, Some(Plain("CreateVolume: QuotaPath type nodeselected must not be None"));
      }
      err := GetNodeConn(p.node);
      if err.Some? {
        return;
      }
      var size := Strings.IntToString(req.requiredBytes);
      var kSize := Strings.IntToString(GoDiv(req.requiredBytes, 1024));
      var storageSelected := p.storage;
      if QuotaRootPath in parameters && parameters[QuotaRootPath] != "" && storageSelected == "" {
        storageSelected := parameters[QuotaRootPath];
      }
      var path := env.quotaSubpath(req.name, storageSelected);
      err := Commit(p.node, CreateQuotaOp, AgentAt(CurrentWorld(), p.node).CreateProjQuotaSubpath(req.name, size, path));
      if err.Some? {
        return;
      }
      err := Commit(p.node, SetQuotaOp, AgentAt(CurrentWorld(), p.node).SetSubpathProjQuota(path, kSize, kSize));
      if err.Some? {
        return;
      }
      parameters := parameters[ProjQuotaFullPath := path];
    }

    method ProvisionVolume(volumeType: string, req: CreateVolumeRequest, p: Placement, pvcName: string, pvcNamespace: string)
      returns (parameters: map<string, string>, err: Option<Error>)
      modifies this`rpcs, this`agents, this`clusterCalls
      ensures Step(CurrentWorld(), parameters, err) == Provision(env, grpcProvision, volumeType, old(CurrentWorld()), req, p, pvcName, pvcNamespace)
    {
      parameters, err := p.parameters, None;
      if volumeType == LvmVolumeType {
        if !p.isSnapshot {
          err := ProvisionLvmVolume(req, p, pvcName, pvcNamespace);
        }
      } else if volumeType == PmemVolumeType {
        parameters, err := ProvisionPmemVolume(req, p);
      } else if volumeType == QuotaPathVolumeType {
        parameters, err := ProvisionQuotaVolume(req, p);
      }
    }

    /** Copies the scheduler's parameters over the request's. */
    method MergeParameters(parameters: map<string, string>, paraList: map<string, string>) returns (r: map<string, string>)
      ensures r == parameters + paraList
    {
      r := parameters;
      var keys := paraList.Keys;
      while keys != {}
        invariant keys <= paraList.Keys
        invariant forall k :: k in r <==> k in parameters || (k in paraList && k !in keys)
        invariant forall k :: k in r ==> r[k] == if k in paraList && k !in keys then paraList[k] else parameters[k]
        decreases keys
      {
        var k :| k in keys;
        r := r[k := paraList[k]];
        keys := keys - {k};
      }
    }

    /** Deletes the provisioner and last-applied keys. */
    method RemoveLabels(parameters: map<string, string>) returns (r: map<string, string>)
      ensures r == parameters - RemovedLabels
    {
      r := parameters;
      var keys := parameters.Keys;
      while keys != {}
        invariant keys <= parameters.Keys
        invariant forall k :: k in r <==> k in parameters && (k in keys || k !in RemovedLabels)
        invariant forall k :: k in r ==> r[k] == parameters[k]
        decreases keys
      {
        var k :| k in keys;
        if k == LastAppliyAnnotationTag {
          r := r - {k};
        } else if k == CsiProvisionerTag {
          r := r - {k};
        } else if k == CsiProvisionerIdentity {
          r := r - {k};
        }
        keys := keys - {k};
      }
    }

    method CreateVolume(req: CreateVolumeRequest) returns (r: Result<Volume, Error>)
      modifies this
      ensures Outcome(Current(), r) == CreateVolumeOutcome(env, grpcProvision, old(Current()), req)
    {
      if env.validate.Some? {
        return Err(env.validate.value);
      }
      if req.name == "" {
        return Err(Status(InvalidArgument, "CreateVolume: local Volume Name cannot be empty"));
      }
      if !req.hasCapabilities {
        return Err(Status(InvalidArgument, "Volume Capabilities cannot be empty"));
      }
      var volumeType := PickVolumeType(req.parameters);
      if volumeType == "" {
        return Err(Status(InvalidArgument, "Local driver only support LVM/MountPoint/Device/PmemDirect/PmemQuotaPath volume type, no " + volumeType));
      }
      if req.name in createdVolumeMap {
        return Ok(createdVolumeMap[req.name]);
      }
      r := CreateNewVolume(req, volumeType);
    }

    /** The rest of CreateVolume, once the request is valid and not cached. */
    method CreateNewVolume(req: CreateVolumeRequest, volumeType: string) returns (r: Result<Volume, Error>)
      modifies this
      ensures Outcome(Current(), r) == CreateNew(env, grpcProvision, old(Current()), req, volumeType)
    {
      var pvcName, pvcNamespace, nodeSelected, storageSelected := "", "", "", "";
      if PvcNameTag in req.parameters {
        pvcName := req.parameters[PvcNameTag];
      }
      if PvcNsTag in req.parameters {
        pvcNamespace := req.parameters[PvcNsTag];
      }
      if NodeSchedueTag in req.parameters {
        nodeSelected := req.parameters[NodeSchedueTag];
      }
      if StorageSchedueTag in req.parameters {
        storageSelected := req.parameters[StorageSchedueTag];
      }
      var placed := PlaceVolume(volumeType, req, pvcName, pvcNamespace, nodeSelected, storageSelected);
      if placed.Err? {
        return Err(placed.error);
      }
      var p := placed.value;
      var parameters, err := ProvisionVolume(volumeType, req, p, pvcName, pvcNamespace);
      if err.Some? {
        return Err(err.value);
      }
      var volume := NewVolume(req, p, parameters);
      createdVolumeMap := createdVolumeMap[req.name := volume];
      return Ok(volume);
    }

    /** The response of a provisioned volume: the parameters merged with the
        scheduler's, less the removed keys, with the selected node. */
    method NewVolume(req: CreateVolumeRequest, p: Placement, provisioned: map<string, string>) returns (volume: Volume)
      ensures volume == BuildVolume(req, provisioned, p.paraList, p.node, p.isSnapshot)
    {
      var parameters := MergeParameters(provisioned, p.paraList);
      parameters := RemoveLabels(parameters);
      var source: Option<ContentSource> := None;
      if p.isSnapshot {
        source := Some(FromSnapshot(Some(Lookup(p.paraList, SnapshotTag))));
      }
      if p.node == "" {
        volume := Volume(req.name, req.requiredBytes, parameters, [], source);
      } else {
        parameters := parameters[NodeSchedueTag := p.node];
        volume := Volume(req.name, req.requiredBytes, parameters, [map[TopologyNodeKey := p.node]], source);
      }
    }

    // --- DeleteVolume

    method RemoveLvmVolume(volumeId: string, spec: PvSpec) returns (err: Option<Error>)
      modifies this`rpcs, this`agents, this`clusterCalls
      ensures (CurrentWorld(), err) == RemoveLvm(env, grpcProvision, old(CurrentWorld()), volumeId, spec)
    {
      var isSnapshot, isSnapshotReadOnly := false, false;
      var attributes := Attributes(spec.pv);
      if SnapshotTag in attributes && attributes[SnapshotTag] != "" {
        isSnapshot := true;
      }
      if SnapshotReadonlyTag in attributes && attributes[SnapshotReadonlyTag] == "true" {
        isSnapshotReadOnly := true;
      }
      if isSnapshot {
        if isSnapshotReadOnly {
          return None;
        }
        return Some(Status(Unimplemented, ReadonlyMsg("DeleteVolume")));
      }
      if grpcProvision && spec.node != "" {
        err := GetNodeConn(spec.node);
        if err.Some? {
          return;
        }
        var found := GetLvm(spec.node, spec.vg, volumeId);
        if found.Ok? && found.value != "" {
          var removed := Commit(spec.node, DeleteLvmOp, AgentAt(CurrentWorld(), spec.node).DeleteLvm(spec.vg, volumeId));
          if removed.Some? {
            return Some(Plain("DeleteVolume: Remove Lvm " + volumeId + " with error " + ErrorText(removed.value)));
          }
        } else if found.Ok? && found.value == "" {
        } else if Strings.Contains(ErrorText(found.error), "Failed to find logical volume") {
        } else if Strings.Contains(ErrorText(found.error), "Volume group \"" + spec.vg + "\" not found") {
        } else {
          return Some(found.error);
        }
        return None;
      } else if !grpcProvision && spec.node != "" {
        var labels: map<string, string> := map[];
        labels := labels[VolumeLifecycleLabel := VolumeLifecycleDeleting];
        labels := labels[VolumeSpecLabel := spec.vg + "/" + volumeId];
        err := CallCluster(DeleteWithAnnotations(volumeId, labels));
        return;
      }
      return None;
    }

    method RemoveMountPointVolume(volumeId: string, spec: PvSpec) returns (err: Option<Error>)
      modifies this`rpcs, this`agents
      ensures (CurrentWorld(), err) == RemoveMountPoint(env, old(CurrentWorld()), volumeId, spec)
    {
      if spec.pv.reclaimPolicy != ReclaimDelete {
        return None;
      }
      var node := MountPointNode(spec.pv, volumeId);
      if node.Err? {
        return Some(node.error);
      }
      err := GetNodeConn(node.value);
      if err.Some? {
        return;
      }
      var path := "";
      var attributes := Attributes(spec.pv);
      if MountPointType in attributes {
        path := attributes[MountPointType];
      }
      if path == "" {
        return Some(Plain("MountPoint Path is empty"));
      }
      var cleaned := Commit(node.value, CleanPathOp, AgentAt(CurrentWorld(), node.value).CleanPath(path));
      if cleaned.Some? {
        return Some(Plain("DeleteVolume: Delete mountpoint Failed: " + ErrorText(cleaned.value)));
      }
      return None;
    }

    method RemovePmemVolume(volumeId: string, spec: PvSpec) returns (err: Option<Error>)
      modifies this`rpcs, this`agents
      ensures (CurrentWorld(), err) == RemovePmem(env, old(CurrentWorld()), volumeId, spec)
    {
      if spec.node == "" {
        return Some(Plain("DeleteVolume: failed to delete volume without nodeAffinity " + volumeId));
      }
      err := GetNodeConn(spec.node);
      if err.Some? {
        return;
      }
      var attributes := Attributes(spec.pv);
      if PmemNameSpaceKey !in attributes {
        return Some(Plain("DeleteVolume Direct PMEM volume can not found NameSpace " + volumeId));
      }
      var namespace := attributes[PmemNameSpaceKey];
      var found := GetNameSpace(spec.node, "", volumeId);
      if found.Ok? && found.value != "" {
        var removed := Commit(spec.node, DeleteNameSpaceOp, AgentAt(CurrentWorld(), spec.node).DeleteNameSpace(namespace));
        if removed.Some? {
          return Some(Plain("DeleteVolume: Remove Pmem namespace with error " + ErrorText(removed.value)));
        }
      } else if found.Err? {
        return Some(found.error);
      }
      return None;
    }

    method RemoveQuotaVolume(volumeId: string, spec: PvSpec) returns (err: Option<Error>)
      modifies this`rpcs, this`agents
      ensures (CurrentWorld(), err) == RemoveQuota(env, old(CurrentWorld()), volumeId, spec)
    {
      if spec.node == "" {
        return Some(Plain("DeleteVolume: delete quotapath volume without nodeAffinity " + volumeId));
      }
      err := GetNodeConn(spec.node);
      if err.Some? {
        return;
      }
      var attributes := Attributes(spec.pv);
      if ProjQuotaFullPath !in attributes {
        return Some(Plain("DeleteVolume: QuotaPath volume " + volumeId + " not have projQuotaFullPath parameter"));
      }
      var quotaPath := attributes[ProjQuotaFullPath];
      err := Commit(spec.node, RemoveQuotaOp, AgentAt(CurrentWorld(), spec.node).RemoveProjQuotaSubpath(quotaPath));
    }

    method DeleteVolume(volumeId: string) returns (r: Result<(), Error>)
      modifies this
      ensures Outcome(Current(), r) == DeleteVolumeOutcome(env, grpcProvision, old(Current()), volumeId)
    {
      var spec := env.pvSpec(volumeId);
      if spec.Err? {
        return Err(spec.error);
      }
      var volumeType := "";
      var attributes := Attributes(spec.value.pv);
      if VolumeTypeKey in attributes {
        volumeType := attributes[VolumeTypeKey];
      }
      var err: Option<Error>;
      if volumeType == LvmVolumeType {
        err := RemoveLvmVolume(volumeId, spec.value);
      } else if volumeType == MountPointType {
        err := RemoveMountPointVolume(volumeId, spec.value);
      } else if volumeType == DeviceVolumeType {
        err := None;
      } else if volumeType == PmemVolumeType {
        err := RemovePmemVolume(volumeId, spec.value);
      } else if volumeType == QuotaPathVolumeType {
        err := RemoveQuotaVolume(volumeId, spec.value);
      } else {
        return Err(Status(InvalidArgument, "Local driver only support LVM volume type, no " + volumeType));
      }
      if err.Some? {
        return Err(err.value);
      }
      createdVolumeMap := createdVolumeMap - {volumeId};
      return Ok(());
    }

    // --- ControllerExpandVolume

    method ControllerExpandVolume(volumeId: string, requiredBytes: int64) returns (r: Result<ExpandResponse, Error>)
      modifies this`clusterCalls
      ensures Outcome(Current(), r) == ExpandOutcome(env, driverName, old(Current()), volumeId, requiredBytes)
    {
      var volSizeBytes := requiredBytes;
      if driverName == YodaDriverName {
        var volSizeGB := GoDiv(WrapInt64(volSizeBytes + GiB - 1), GiB);
        var pv := env.pvObj(volumeId);
        if pv.Err? {
          return Err(pv.error);
        }
        if pv.value.csi.None? {
          return Err(Plain("ControllerExpandVolume: volume is not csi type: " + volumeId));
        }
        var attributes := pv.value.csi.value.volumeAttributes;
        var pvcName, pvcNamespace := "", "";
        if PvcNameTag in attributes {
          pvcName := attributes[PvcNameTag];
        }
        if PvcNsTag in attributes {
          pvcNamespace := attributes[PvcNsTag];
        }
        var err := CallCluster(ExpandVolume(pvcNamespace, pvcName, volSizeGB));
        if err.Some? {
          return Err(Plain("ControllerExpandVolume: expand volume error " + ErrorText(err.value)));
        }
      }
      return Ok(ExpandResponse(volSizeBytes, true));
    }

    // --- CreateSnapshot and DeleteSnapshot

    method NewCreateSnapshotResponse(name: string, sourceId: string) returns (r: Result<Snapshot, Error>)
      ensures Outcome(Current(), r) == SnapshotResponse(env, Current(), name, sourceId)
    {
      var spec := env.pvSpec(sourceId);
      if spec.Err? {
        return Err(InternalError("newCreateSnapshotResponse: get pv " + sourceId + " error: ", spec.error));
      }
      return Ok(Snapshot(name, sourceId, spec.value.objectSize, true));
    }

    method CreateSnapshot(name: string, sourceId: string) returns (r: Result<Snapshot, Error>)
      modifies this`rpcs, this`agents
      ensures Outcome(Current(), r) == CreateSnapshotOutcome(env, old(Current()), name, sourceId)
    {
      if |name| == 0 {
        return Err(Status(InvalidArgument, "CreateSnapshot: snapshot name not provided"));
      }
      if |sourceId| == 0 {
        return Err(Status(InvalidArgument, "CreateSnapshot: snapshot volume source ID not provided"));
      }
      var content := env.snapshotContent(name);
      if content.Err? {
        return Err(InternalError("CreateSnapshot: get snapContent " + name + " error: ", content.error));
      }
      var ref := content.value.refNamespace + "/" + content.value.refName;
      var snap := env.snapshot(content.value.refName, content.value.refNamespace);
      if snap.Err? {
        return Err(InternalError("CreateSnapshot: get snapshot " + ref + " error: ", snap.error));
      }
      var initial := env.initialSize(snap.value);
      if initial.Err? {
        return Err(InternalError("CreateSnapshot: get snapshot " + ref + " initial info error: ", initial.error));
      }
      var initialSize := initial.value;
      var spec := env.pvSpec(sourceId);
      if spec.Err? {
        return Err(InternalError("CreateSnapshot: get pv " + sourceId + " error: ", spec.error));
      }
      var pvSize := spec.value.pv.capacityBytes;
      if pvSize < ToInt64(initialSize) {
        initialSize := ToUint64(pvSize);
      }
      var node, vg := spec.value.node, spec.value.vg;
      var connErr := GetNodeConn(node);
      if connErr.Some? {
        return Err(InternalError("CreateSnapshot: get grpc client at node " + node + " error: ", connErr.value));
      }
      var found := GetLvm(node, vg, name);
      if found.Err? {
        return Err(InternalError("CreateSnapshot: get lvm snapshot " + name + " failed: ", found.error));
      }
      if found.value == "" {
        var err := Commit(node, CreateSnapshotOp, AgentAt(CurrentWorld(), node).CreateSnapshot(vg, name, sourceId, initialSize));
        if err.Some? {
          return Err(InternalError("CreateSnapshot: create lvm snapshot " + name + " failed: ", err.value));
        }
      }
      r := NewCreateSnapshotResponse(name, sourceId);
    }

    method DeleteSnapshot(snapshotId: string) returns (r: Result<(), Error>)
      modifies this`rpcs, this`agents
      ensures Outcome(Current(), r) == DeleteSnapshotOutcome(env, old(Current()), snapshotId)
    {
      if |snapshotId| == 0 {
        return Err(Status(InvalidArgument, "DeleteSnapshot: Snapshot ID not provided"));
      }
      var used := env.usedByPV(snapshotId);
      if used.Err? {
        return Err(InternalError("DeleteSnapshot: check if snapshot can be deleted failed: ", used.error));
      }
      if used.value {
        return Err(Status(Aborted, "DeleteSnapshot: Snapshot is used by PV!"));
      }
      var content := env.snapshotContent(snapshotId);
      if content.Err? {
        return Err(InternalError("DeleteSnapshot: get snapContent " + snapshotId + " error: ", content.error));
      }
      var volumeId := content.value.volumeHandle;
      var spec := env.pvSpec(volumeId);
      if spec.Err? {
        return Err(InternalError("DeleteSnapshot: get pv " + volumeId + " error: ", spec.error));
      }
      var node, vg := spec.value.node, spec.value.vg;
      var connErr := GetNodeConn(node);
      if connErr.Some? {
        return Err(InternalError("DeleteSnapshot: get grpc client at node " + node + " error: ", connErr.value));
      }
      var found := GetLvm(node, vg, snapshotId);
      if found.Err? {
        return Err(InternalError("DeleteSnapshot: get lvm snapshot " + snapshotId + " failed: ", found.error));
      }
      if found.value != "" {
        var err := Commit(node, DeleteSnapshotOp, AgentAt(CurrentWorld(), node).DeleteSnapshot(vg, snapshotId));
        if err.Some? {
          return Err(InternalError("DeleteSnapshot: delete lvm snapshot " + snapshotId + " failed: ", err.value));
        }
      } else {
        return Ok(());
      }
      return Ok(());
    }
  }
}

/** The yoda controller server (pkg/yoda/controllerserver.go): node choice
    from a topology requirement, volume creation with a call to the
    scheduler extender, deletion of LVM volumes through the node's daemon,
    and expansion.

    Lookups in the cluster (the PV of a volume, the addresses of a node)
    and the node daemon's answers are functions given to the server. */
module YodaController {
  import opened Wrappers
  import opened GoInt
  import opened Csi
  import opened YodaUtils
  import opened YodaHttp

  const PvcNameTag := "csi.storage.k8s.io/pvc/name"
  const PvcNamespaceTag := "csi.storage.k8s.io/pvc/namespace"

  // ---------------------------------------------------------------------
  // pickNodeID (pkg/yoda/controllerserver.go:167-196)

  /** A CSI topology requirement: each topology is its segments. */
  datatype TopologyRequirement = TopologyRequirement(requisite: seq<map<string, string>>, preferred: seq<map<string, string>>)

  /** The node names the topologies carry under the host-name key, in order. */
  function NodesOf(topologies: seq<map<string, string>>): (r: seq<string>)
    ensures |r| <= |topologies|
  {
    if topologies == [] then []
    else
      var init := NodesOf(topologies[..|topologies| - 1]);
      var last := topologies[|topologies| - 1];
      if TopologyNodeKey in last then init + [last[TopologyNodeKey]] else init
  }

  /** No topology names a node exactly when the list of nodes is empty. */
  lemma {:induction false} NodesOfEmpty(topologies: seq<map<string, string>>)
    ensures NodesOf(topologies) == [] <==> forall j :: 0 <= j < |topologies| ==> TopologyNodeKey !in topologies[j]
    decreases |topologies|
  {
    if topologies != [] {
      var init := topologies[..|topologies| - 1];
      NodesOfEmpty(init);
      assert forall j :: 0 <= j < |init| ==> init[j] == topologies[j];
    }
  }

  /** Topology `i` is the only one that names a node. */
  predicate OnlyCarrier(topologies: seq<map<string, string>>, i: nat) {
    && i < |topologies| && TopologyNodeKey in topologies[i]
    && forall j :: 0 <= j < |topologies| && j != i ==> TopologyNodeKey !in topologies[j]
  }

  /** When only topology `i` names a node, that node is the only one. */
  lemma {:induction false} NodesOfSingle(topologies: seq<map<string, string>>, i: nat)
    requires OnlyCarrier(topologies, i)
    ensures NodesOf(topologies) == [topologies[i][TopologyNodeKey]]
    decreases |topologies|
  {
    var init := topologies[..|topologies| - 1];
    assert forall j :: 0 <= j < |init| ==> init[j] == topologies[j];
    if i == |topologies| - 1 {
      NodesOfEmpty(init);
    } else {
      NodesOfSingle(init, i);
    }
  }

  /** Two topologies that name a node give at least two nodes. */
  lemma {:induction false} NodesOfTwo(topologies: seq<map<string, string>>, i: nat, k: nat)
    requires i < k < |topologies| && TopologyNodeKey in topologies[i] && TopologyNodeKey in topologies[k]
    ensures |NodesOf(topologies)| >= 2
    decreases |topologies|
  {
    var init := topologies[..|topologies| - 1];
    assert forall j :: 0 <= j < |init| ==> init[j] == topologies[j];
    if k == |topologies| - 1 {
      NodesOfEmpty(init);
      assert init[i] == topologies[i];
    } else {
      NodesOfTwo(init, i, k);
    }
  }

  /** The node pickNodeID chooses: a single preferred node, else nothing
      when several are preferred, else a single node over the preferred and
      required topologies. */
  function PickNode(requirement: Option<TopologyRequirement>): string {
    if requirement.None? then ""
    else
      var preferred := NodesOf(requirement.value.preferred);
      if |preferred| == 1 then preferred[0]
      else if |preferred| > 1 then ""
      else
        var all := preferred + NodesOf(requirement.value.requisite);
        if |all| != 1 then "" else all[0]
  }

  /** pickNodeID. */
  method PickNodeID(requirement: Option<TopologyRequirement>) returns (nodeId: string)
    ensures nodeId == PickNode(requirement)
  {
    if requirement.None? {
      return "";
    }
    var preferred := requirement.value.preferred;
    var nodeList: seq<string> := [];
    var i := 0;
    while i < |preferred|
      invariant 0 <= i <= |preferred|
      invariant nodeList == NodesOf(preferred[..i])
    {
      assert preferred[..i + 1][..i] == preferred[..i];
      if TopologyNodeKey in preferred[i] {
        nodeList := nodeList + [preferred[i][TopologyNodeKey]];
      }
      i := i + 1;
    }
    assert preferred[..i] == preferred;
    if |nodeList| == 1 {
      return nodeList[0];
    }
    if |nodeList| > 1 {
      return "";
    }
    var requisite := requirement.value.requisite;
    i := 0;
    while i < |requisite|
      invariant 0 <= i <= |requisite|
      invariant nodeList == NodesOf(preferred) + NodesOf(requisite[..i])
    {
      assert requisite[..i + 1][..i] == requisite[..i];
      if TopologyNodeKey in requisite[i] {
        nodeList := nodeList + [requisite[i][TopologyNodeKey]];
      }
      i := i + 1;
    }
    assert requisite[..i] == requisite;
    if |nodeList| != 1 {
      return "";
    }
    return nodeList[0];
  }

  /** A single preferred topology naming a node decides, whatever the
      required ones say. */
  lemma PickSinglePreferred(r: TopologyRequirement, i: nat)
    requires OnlyCarrier(r.preferred, i)
    ensures PickNode(Some(r)) == r.preferred[i][TopologyNodeKey]
  {
    NodesOfSingle(r.preferred, i);
  }

  /** Two preferred topologies naming nodes leave the node open, without a
      look at the required ones. */
  lemma PickAmbiguousPreferred(r: TopologyRequirement, i: nat, k: nat)
    requires i < k < |r.preferred| && TopologyNodeKey in r.preferred[i] && TopologyNodeKey in r.preferred[k]
    ensures PickNode(Some(r)) == ""
  {
    NodesOfTwo(r.preferred, i, k);
  }

  /** With no preferred node, a node is picked exactly when one required
      topology names one: the one it names. */
  lemma PickFromRequisite(r: TopologyRequirement)
    requires forall j :: 0 <= j < |r.preferred| ==> TopologyNodeKey !in r.preferred[j]
    ensures forall i: nat :: OnlyCarrier(r.requisite, i) ==>
      PickNode(Some(r)) == r.requisite[i][TopologyNodeKey]
    ensures (forall j :: 0 <= j < |r.requisite| ==> TopologyNodeKey !in r.requisite[j]) ==> PickNode(Some(r)) == ""
    ensures forall i, k :: 0 <= i < k < |r.requisite| && TopologyNodeKey in r.requisite[i] && TopologyNodeKey in r.requisite[k] ==>
      PickNode(Some(r)) == ""
  {
    NodesOfEmpty(r.preferred);
    NodesOfEmpty(r.requisite);
    forall i: nat | OnlyCarrier(r.requisite, i)
      ensures PickNode(Some(r)) == r.requisite[i][TopologyNodeKey]
    {
      NodesOfSingle(r.requisite, i);
    }
    forall i, k | 0 <= i < k < |r.requisite| && TopologyNodeKey in r.requisite[i] && TopologyNodeKey in r.requisite[k]
      ensures PickNode(Some(r)) == ""
    {
      NodesOfTwo(r.requisite, i, k);
    }
  }

  // ---------------------------------------------------------------------
  // CreateVolume (pkg/yoda/controllerserver.go:72-165)

  /** The parts of a CreateVolumeRequest the handler reads; `capabilities`
      is None when the request leaves them unset, `requiredBytes` when it
      has no capacity range. */
  datatype CreateRequest = CreateRequest(
    name: string,
    capabilities: Option<seq<AccessMode>>,
    parameters: map<string, string>,
    requiredBytes: Option<int64>,
    requirement: Option<TopologyRequirement>)

  /** The scheduler as the controller sees it: its answer for a volume
      type, a claim (name, namespace) and a node. */
  type Schedule = (string, string, string, string) -> Result<BindingInfo, Error>

  /** The request checks that come before any scheduling, in order. */
  function CreateCheck(validate: Option<Error>, req: CreateRequest): (r: Option<Error>)
    ensures r.None? ==>
      && req.name != "" && req.capabilities.Some?
      && Lookup(req.parameters, VolumeTypeTag) in {LvmVolumeType, LocalVolumeType, DeviceVolumeType}
      && Lookup(req.parameters, PvcNameTag) != "" && Lookup(req.parameters, PvcNamespaceTag) != ""
    ensures validate.Some? ==> r == validate
    ensures validate.None? && r.Some? ==> r.value.Status? && r.value.code == InvalidArgument
  {
    var volumeType := Lookup(req.parameters, VolumeTypeTag);
    if validate.Some? then validate
    else if |req.name| == 0 then Some(Status(InvalidArgument, "Volume Name cannot be empty"))
    else if req.capabilities.None? then Some(Status(InvalidArgument, "Volume Capabilities cannot be empty"))
    else if volumeType != LvmVolumeType && volumeType != LocalVolumeType && volumeType != DeviceVolumeType then
      Some(Status(InvalidArgument, "Yoda only support localVolume/lvm/device volume type"))
    else if Lookup(req.parameters, PvcNameTag) == "" || Lookup(req.parameters, PvcNamespaceTag) == "" then
      Some(Status(InvalidArgument, "Create LocalVolume with empty pvc info"))
    else None
  }

  /** The LVM placement: the volume group and node, and whether the
      scheduler was asked. */
  datatype LvmPlacement = LvmPlacement(vgName: string, nodeId: string, scheduled: bool, result: Result<(), Error>)

  /** The LVM branch as written: the `vgName` parameter is assigned to
      `volumeType`, so the volume group stays empty and the scheduler is
      asked every time; its answer replaces the picked node. */
  function LvmPlacementAsWritten(parameters: map<string, string>, nodeId: string, pvc: (string, string), schedule: Schedule): LvmPlacement {
    var vgName := "";
    if vgName == "" || nodeId == "" then
      var info := schedule(LvmVolumeType, pvc.0, pvc.1, nodeId);
      if info.Err? then LvmPlacement(vgName, nodeId, true, Err(Status(InvalidArgument, "lvm schedule with error " + ErrorText(info.error))))
      else LvmPlacement(info.value.vgName, info.value.nodeId, true, Ok(()))
    else LvmPlacement(vgName, nodeId, false, Ok(()))
  }

  /** The LVM branch as intended: the scheduler is asked only when the
      volume group or the node is not known yet. */
  function LvmPlacementOf(parameters: map<string, string>, nodeId: string, pvc: (string, string), schedule: Schedule): (r: LvmPlacement)
    ensures r.scheduled <==> Lookup(parameters, VgNameTag) == "" || nodeId == ""
    ensures !r.scheduled ==> r == LvmPlacement(Lookup(parameters, VgNameTag), nodeId, false, Ok(()))
    ensures r.scheduled ==>
      var info := schedule(LvmVolumeType, pvc.0, pvc.1, nodeId);
      && (info.Ok? ==> r == LvmPlacement(info.value.vgName, info.value.nodeId, true, Ok(())))
      && (info.Err? ==> r.result.Err? && r.result.error.Status? && r.result.error.code == InvalidArgument)
  {
    var vgName := Lookup(parameters, VgNameTag);
    if vgName == "" || nodeId == "" then
      var info := schedule(LvmVolumeType, pvc.0, pvc.1, nodeId);
      if info.Err? then LvmPlacement(vgName, nodeId, true, Err(Status(InvalidArgument, "lvm schedule with error " + ErrorText(info.error))))
      else LvmPlacement(info.value.vgName, info.value.nodeId, true, Ok(()))
    else LvmPlacement(vgName, nodeId, false, Ok(()))
  }

  /** As written, every LVM request goes to the scheduler, and its answer
      decides the volume group and the node whatever the request named; as
      intended, a request that names its volume group and is placed on a
      node keeps both and the scheduler is not asked. */
  lemma LvmPlacementIgnoresVgName(parameters: map<string, string>, nodeId: string, pvc: (string, string), schedule: Schedule)
    ensures var asWritten := LvmPlacementAsWritten(parameters, nodeId, pvc, schedule);
      var info := schedule(LvmVolumeType, pvc.0, pvc.1, nodeId);
      && asWritten.scheduled
      && (info.Ok? ==> asWritten == LvmPlacement(info.value.vgName, info.value.nodeId, true, Ok(())))
      && (info.Err? ==> asWritten.result.Err? && asWritten.result.error.Status? && asWritten.result.error.code == InvalidArgument)
    ensures Lookup(parameters, VgNameTag) != "" && nodeId != "" ==>
      LvmPlacementOf(parameters, nodeId, pvc, schedule) == LvmPlacement(Lookup(parameters, VgNameTag), nodeId, false, Ok(())) &&
      LvmPlacementOf(parameters, nodeId, pvc, schedule) != LvmPlacementAsWritten(parameters, nodeId, pvc, schedule)
  {
  }

  /** An example: a request for "vg-a" on "node-a" ends up on the
      scheduler's "vg-b" and "node-b" as written. */
  lemma LvmPlacementExample(schedule: Schedule)
    requires schedule(LvmVolumeType, "pvc", "ns", "node-a") == Ok(BindingInfo("vg-b", "node-b", "", ""))
    ensures var parameters := map[VgNameTag := "vg-a"];
      && LvmPlacementAsWritten(parameters, "node-a", ("pvc", "ns"), schedule) == LvmPlacement("vg-b", "node-b", true, Ok(()))
      && LvmPlacementOf(parameters, "node-a", ("pvc", "ns"), schedule) == LvmPlacement("vg-a", "node-a", false, Ok(()))
  {
    assert Lookup(map[VgNameTag := "vg-a"], VgNameTag) == "vg-a";
  }

  /** Both readings agree whenever the request names no volume group or no
      node was picked. */
  lemma LvmPlacementAgreesWhenScheduling(parameters: map<string, string>, nodeId: string, pvc: (string, string), schedule: Schedule)
    requires Lookup(parameters, VgNameTag) == "" || nodeId == ""
    ensures LvmPlacementAsWritten(parameters, nodeId, pvc, schedule).result == LvmPlacementOf(parameters, nodeId, pvc, schedule).result
    ensures LvmPlacementAsWritten(parameters, nodeId, pvc, schedule).result.Ok? ==>
      LvmPlacementAsWritten(parameters, nodeId, pvc, schedule) == LvmPlacementOf(parameters, nodeId, pvc, schedule)
  {
  }

  /** The volume CreateVolume returns, on the node the placement chose. */
  function CreatedVolume(req: CreateRequest, context: map<string, string>, nodeId: string): Volume {
    Volume(req.name, req.requiredBytes.GetOr(0), context, [map[TopologyNodeKey := nodeId]], None)
  }

  /** What CreateVolume returns (with the LVM branch as intended), and
      whether it asked the scheduler. */
  function CreateResult(validate: Option<Error>, req: CreateRequest, schedule: Schedule): (bool, Result<Volume, Error>) {
    var check := CreateCheck(validate, req);
    if check.Some? then (false, Err(check.value))
    else
      var volumeType := Lookup(req.parameters, VolumeTypeTag);
      var pvc := (Lookup(req.parameters, PvcNameTag), Lookup(req.parameters, PvcNamespaceTag));
      PlaceResult(req, volumeType, pvc, PickNode(req.requirement), schedule)
  }

  /** The placement part of CreateVolume, once the request passed its
      checks: which scheduler asks are made and the volume built. */
  function PlaceResult(req: CreateRequest, volumeType: string, pvc: (string, string), nodeId: string, schedule: Schedule)
    : (bool, Result<Volume, Error>)
  {
    var parameters := req.parameters;
    if volumeType == LvmVolumeType then
      var p := LvmPlacementOf(parameters, nodeId, pvc, schedule);
      if p.result.Err? then (p.scheduled, Err(p.result.error))
      else (p.scheduled, Ok(CreatedVolume(req, parameters[VgNameTag := p.vgName], p.nodeId)))
    else if volumeType == LocalVolumeType then
      var info := schedule(LocalVolumeType, pvc.0, pvc.1, nodeId);
      if info.Err? then (true, Err(Status(InvalidArgument, "local volume schedule with error " + ErrorText(info.error))))
      else (true, Ok(CreatedVolume(req, parameters["localVolume" := info.value.mntPoint], nodeId)))
    else
      var info := schedule(DeviceVolumeType, pvc.0, pvc.1, nodeId);
      if info.Err? then (true, Err(Status(InvalidArgument, "device schedule with error " + ErrorText(info.error))))
      else (true, Ok(CreatedVolume(req, parameters["device" := info.value.device], nodeId)))
  }

  /** A request that fails its checks never reaches the scheduler; a
      created volume has the request's name and size and one topology, on
      the host-name key; its context keeps every parameter and adds only
      the placement's key. */
  lemma CreateResultShape(validate: Option<Error>, req: CreateRequest, schedule: Schedule)
    ensures var c := CreateResult(validate, req, schedule);
      && (CreateCheck(validate, req).Some? ==> c == (false, Err(CreateCheck(validate, req).value)))
      && (c.1.Ok? ==>
        var v := c.1.value;
        && v.volumeId == req.name && v.capacityBytes == req.requiredBytes.GetOr(0)
        && |v.accessibleTopology| == 1 && v.accessibleTopology[0].Keys == {TopologyNodeKey}
        && v.volumeContext.Keys >= req.parameters.Keys
        && (forall k :: k in req.parameters && k !in {VgNameTag, "localVolume", "device"} ==> v.volumeContext[k] == req.parameters[k]))
  {
  }

  /** For local and device volumes the scheduler is always asked, but the
      volume stays on the picked node. */
  lemma CreateKeepsPickedNode(validate: Option<Error>, req: CreateRequest, schedule: Schedule)
    requires CreateCheck(validate, req).None?
    requires Lookup(req.parameters, VolumeTypeTag) != LvmVolumeType
    ensures CreateResult(validate, req, schedule).0
    ensures CreateResult(validate, req, schedule).1.Ok? ==>
      CreateResult(validate, req, schedule).1.value.accessibleTopology == [map[TopologyNodeKey := PickNode(req.requirement)]]
  {
  }

  // ---------------------------------------------------------------------
  // DeleteVolume (pkg/yoda/controllerserver.go:198-247)

  /** One call on a node's LVM daemon. */
  datatype LvmdCall = Connect(addr: string) | GetLvm(addr: string, vgName: string, volumeId: string) | DeleteLvm(addr: string, vgName: string, volumeId: string)

  /** The node daemons' answers: a connection error, the volume lookup, the
      removal error. */
  datatype Lvmd = Lvmd(
    connect: string -> Option<Error>,
    getLvm: (string, string, string) -> Result<string, Error>,
    deleteLvm: (string, string, string) -> Option<Error>)

  /** The cluster as the controller sees it. */
  datatype Cluster = Cluster(
    pvObj: string -> Result<PersistentVolume, Error>,
    nodeAddresses: string -> Result<seq<Address>, Error>,
    lvmdPort: string)

  /** The daemon calls for removing an LVM volume on its node. */
  function RemoveLvm(lvmd: Lvmd, addr: string, vgName: string, volumeId: string): (r: (seq<LvmdCall>, Result<(), Error>))
    ensures |r.0| >= 1 && r.0[0] == Connect(addr)
  {
    if lvmd.connect(addr).Some? then ([Connect(addr)], Err(lvmd.connect(addr).value))
    else
      var got := lvmd.getLvm(addr, vgName, volumeId);
      if got.Err? then ([Connect(addr), GetLvm(addr, vgName, volumeId)], Err(got.error))
      else
        var del := lvmd.deleteLvm(addr, vgName, volumeId);
        ([Connect(addr), GetLvm(addr, vgName, volumeId), DeleteLvm(addr, vgName, volumeId)],
          if del.Some? then Err(Plain("Remove Lvm Failed: " + ErrorText(del.value))) else Ok(()))
  }

  /** What DeleteVolume does on the node daemons and returns. */
  function DeleteResult(cluster: Cluster, lvmd: Lvmd, volumeId: string): (seq<LvmdCall>, Result<(), Error>) {
    var pv := cluster.pvObj(volumeId);
    if pv.Err? then ([], Err(pv.error))
    else if pv.value.csi.None? then ([], Err(Plain("Remove Lvm Failed: volume is not csi type: " + volumeId)))
    else if Lookup(pv.value.csi.value.volumeAttributes, VolumeTypeTag) != LvmVolumeType then ([], Ok(()))
    else
      var spec := LvmSpec(pv, volumeId);
      if spec.Err? then ([], Err(spec.error))
      else if spec.value.0 == "" then ([], Ok(()))
      else
        var addr := LvmdAddr(NodeIP'(cluster.nodeAddresses(spec.value.0)), cluster.lvmdPort);
        if addr.Err? then ([], Err(addr.error))
        else RemoveLvm(lvmd, addr.value, spec.value.1, volumeId)
  }

  /** GetNodeIP on a node lookup. */
  function NodeIP'(node: Result<seq<Address>, Error>): Result<string, Error> {
    if node.Err? then Err(node.error) else NodeIP(node.value)
  }

  /** Only an LVM volume pinned to a node reaches a daemon; the volume is
      removed only after the daemon has found it, and a failed lookup is
      returned as it is. */
  lemma DeleteCases(cluster: Cluster, lvmd: Lvmd, volumeId: string)
    ensures var pv := cluster.pvObj(volumeId);
      var d := DeleteResult(cluster, lvmd, volumeId);
      && (pv.Ok? && pv.value.csi.None? ==> d.0 == [] && d.1 == Err(Plain("Remove Lvm Failed: volume is not csi type: " + volumeId)))
      && (pv.Ok? && pv.value.csi.Some? && Lookup(pv.value.csi.value.volumeAttributes, VolumeTypeTag) != LvmVolumeType ==> d == ([], Ok(())))
      && (pv.Ok? && pv.value.csi.Some? && !PinnedToNode(pv.value) ==> d.0 == [] && d.1.Ok?)
      && (d.0 != [] ==> pv.Ok? && PinnedToNode(pv.value) && VgNameTag in Attributes(pv.value))
      && (forall i :: 0 <= i < |d.0| && d.0[i].DeleteLvm? ==>
        i == 2 && d.0[1] == GetLvm(d.0[i].addr, d.0[i].vgName, volumeId) && lvmd.getLvm(d.0[i].addr, d.0[i].vgName, volumeId).Ok?)
      && (|d.0| == 2 ==> d.1 == Err(lvmd.getLvm(d.0[1].addr, d.0[1].vgName, volumeId).error))
  {
  }

  /** A volume the daemon still has is removed from its pinned node's daemon
      and its volume group. */
  lemma DeleteRemovesFound(cluster: Cluster, lvmd: Lvmd, volumeId: string)
    requires cluster.pvObj(volumeId).Ok?
    requires var pv := cluster.pvObj(volumeId).value;
      pv.csi.Some? && Lookup(pv.csi.value.volumeAttributes, VolumeTypeTag) == LvmVolumeType
      && PinnedToNode(pv) && PinnedNode(pv) != "" && VgNameTag in Attributes(pv)
    requires NodeIP'(cluster.nodeAddresses(PinnedNode(cluster.pvObj(volumeId).value))).Ok?
    requires var addr := NodeIP'(cluster.nodeAddresses(PinnedNode(cluster.pvObj(volumeId).value))).value + ":" + cluster.lvmdPort;
      lvmd.connect(addr).None? && lvmd.getLvm(addr, Attributes(cluster.pvObj(volumeId).value)[VgNameTag], volumeId).Ok?
    ensures var pv := cluster.pvObj(volumeId).value;
      var addr := NodeIP'(cluster.nodeAddresses(PinnedNode(pv))).value + ":" + cluster.lvmdPort;
      DeleteLvm(addr, Attributes(pv)[VgNameTag], volumeId) in DeleteResult(cluster, lvmd, volumeId).0
  {
    var pv := cluster.pvObj(volumeId).value;
    var addr := NodeIP'(cluster.nodeAddresses(PinnedNode(pv))).value + ":" + cluster.lvmdPort;
    assert LvmSpec(cluster.pvObj(volumeId), volumeId) == Ok((PinnedNode(pv), Attributes(pv)[VgNameTag]));
    assert DeleteResult(cluster, lvmd, volumeId).0[2] == DeleteLvm(addr, Attributes(pv)[VgNameTag], volumeId);
  }

  // ---------------------------------------------------------------------
  // The server

  class ControllerServer {
    /** The driver's answer to ValidateControllerServiceRequest for
        CREATE_DELETE_VOLUME. */
    const validate: Option<Error>
    const scheduler: Scheduler
    const cluster: Cluster
    const lvmd: Lvmd
    /** Every call made on a node daemon so far. */
    var lvmdCalls: seq<LvmdCall>

    constructor (validate: Option<Error>, scheduler: Scheduler, cluster: Cluster, lvmd: Lvmd)
      ensures this.validate == validate && this.scheduler == scheduler && this.cluster == cluster && this.lvmd == lvmd
      ensures lvmdCalls == []
    {
      this.validate := validate;
      this.scheduler := scheduler;
      this.cluster := cluster;
      this.lvmd := lvmd;
      lvmdCalls := [];
    }

    /** The scheduler's answer, on its state before the call. */
    ghost function Scheduled(urlHost: string): Schedule
      reads scheduler
    {
      (t, pvc, ns, node) => ScheduleResult(urlHost, scheduler.env, scheduler.transport, scheduler.decode, t, pvc, ns, node)
    }

    /** CreateVolume: checks the request, asks the scheduler for a
        placement (for LVM only when it is not known) and returns the
        volume. */
    method CreateVolume(req: CreateRequest) returns (r: Result<Volume, Error>)
      modifies scheduler
      ensures r == CreateResult(validate, req, Scheduled(old(scheduler.urlHost))).1
      ensures CreateResult(validate, req, Scheduled(old(scheduler.urlHost))).0 ==> |scheduler.requests| == |old(scheduler.requests)| + 1
      ensures !CreateResult(validate, req, Scheduled(old(scheduler.urlHost))).0 ==> unchanged(scheduler)
    {
      ghost var schedule := Scheduled(scheduler.urlHost);
      if validate.Some? {
        return Err(validate.value);
      }
      if |req.name| == 0 {
        return Err(Status(InvalidArgument, "Volume Name cannot be empty"));
      }
      if req.capabilities.None? {
        return Err(Status(InvalidArgument, "Volume Capabilities cannot be empty"));
      }
      var pvcName, pvcNamespace, volumeType := "", "", "";
      var parameters := req.parameters;
      if VolumeTypeTag in parameters {
        volumeType := parameters[VolumeTypeTag];
      }
      if volumeType != LvmVolumeType && volumeType != LocalVolumeType && volumeType != DeviceVolumeType {
        return Err(Status(InvalidArgument, "Yoda only support localVolume/lvm/device volume type"));
      }
      if PvcNameTag in parameters {
        pvcName := parameters[PvcNameTag];
      }
      if PvcNamespaceTag in parameters {
        pvcNamespace := parameters[PvcNamespaceTag];
      }
      if pvcName == "" || pvcNamespace == "" {
        return Err(Status(InvalidArgument, "Create LocalVolume with empty pvc info"));
      }
      var nodeId := PickNodeID(req.requirement);
      r := PlaceVolume(req, volumeType, pvcName, pvcNamespace, nodeId);
    }

    /** The placement part of CreateVolume: the scheduler asks and the
        volume built from their answers. */
    method PlaceVolume(req: CreateRequest, volumeType: string, pvcName: string, pvcNamespace: string, nodeId: string)
      returns (r: Result<Volume, Error>)
      modifies scheduler
      ensures r == PlaceResult(req, volumeType, (pvcName, pvcNamespace), nodeId, Scheduled(old(scheduler.urlHost))).1
      ensures PlaceResult(req, volumeType, (pvcName, pvcNamespace), nodeId, Scheduled(old(scheduler.urlHost))).0 ==>
        |scheduler.requests| == |old(scheduler.requests)| + 1
      ensures !PlaceResult(req, volumeType, (pvcName, pvcNamespace), nodeId, Scheduled(old(scheduler.urlHost))).0 ==>
        unchanged(scheduler)
    {
      var nodeId := nodeId;
      var parameters := req.parameters;
      if volumeType == LvmVolumeType {
        var vgName := "";
        if VgNameTag in parameters {
          vgName := parameters[VgNameTag];
        }
        if vgName == "" || nodeId == "" {
          var info := scheduler.ScheduleVolume(LvmVolumeType, pvcName, pvcNamespace, nodeId);
          if info.Err? {
            return Err(Status(InvalidArgument, "lvm schedule with error " + ErrorText(info.error)));
          }
          vgName := info.value.vgName;
          nodeId := info.value.nodeId;
        }
        parameters := parameters[VgNameTag := vgName];
      } else if volumeType == LocalVolumeType {
        var info := scheduler.ScheduleVolume(LocalVolumeType, pvcName, pvcNamespace, nodeId);
        if info.Err? {
          return Err(Status(InvalidArgument, "local volume schedule with error " + ErrorText(info.error)));
        }
        parameters := parameters["localVolume" := info.value.mntPoint];
      } else {
        var info := scheduler.ScheduleVolume(DeviceVolumeType, pvcName, pvcNamespace, nodeId);
        if info.Err? {
          return Err(Status(InvalidArgument, "device schedule with error " + ErrorText(info.error)));
        }
        parameters := parameters["device" := info.value.device];
      }
      return Ok(CreatedVolume(req, parameters, nodeId));
    }

    /** DeleteVolume: removes an LVM volume through its node's daemon. */
    method DeleteVolume(volumeId: string) returns (r: Result<(), Error>)
      modifies this
      ensures lvmdCalls == old(lvmdCalls) + DeleteResult(cluster, lvmd, volumeId).0
      ensures r == DeleteResult(cluster, lvmd, volumeId).1
    {
      var pv := cluster.pvObj(volumeId);
      if pv.Err? {
        return Err(pv.error);
      }
      if pv.value.csi.None? {
        return Err(Plain("Remove Lvm Failed: volume is not csi type: " + volumeId));
      }
      var volumeType := "";
      if VolumeTypeTag in pv.value.csi.value.volumeAttributes {
        volumeType := pv.value.csi.value.volumeAttributes[VolumeTypeTag];
      }
      if volumeType == LvmVolumeType {
        var spec := LvmSpec(cluster.pvObj(volumeId), volumeId);
        if spec.Err? {
          return Err(spec.error);
        }
        var (nodeName, vgName) := spec.value;
        if nodeName != "" {
          var ip := GetNodeIP(cluster.nodeAddresses(nodeName));
          var addr := LvmdAddr(ip, cluster.lvmdPort);
          if addr.Err? {
            return Err(addr.error);
          }
          lvmdCalls := lvmdCalls + [Connect(addr.value)];
          var c := lvmd.connect(addr.value);
          if c.Some? {
            return Err(c.value);
          }
          lvmdCalls := lvmdCalls + [GetLvm(addr.value, vgName, volumeId)];
          var got := lvmd.getLvm(addr.value, vgName, volumeId);
          if got.Ok? {
            lvmdCalls := lvmdCalls + [DeleteLvm(addr.value, vgName, volumeId)];
            var del := lvmd.deleteLvm(addr.value, vgName, volumeId);
            if del.Some? {
              return Err(Plain("Remove Lvm Failed: " + ErrorText(del.value)));
            }
          } else {
            return Err(got.error);
          }
        }
      }
      return Ok(());
    }

    /** ControllerExpandVolume: the requested size, to be grown on the node. */
    method ControllerExpandVolume(requiredBytes: Option<int64>) returns (capacityBytes: int64, nodeExpansionRequired: bool)
      ensures capacityBytes == requiredBytes.GetOr(0) && nodeExpansionRequired
    {
      return requiredBytes.GetOr(0), true;
    }
  }
}

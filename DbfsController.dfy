/** The DBFS controller server (pkg/dbfs/controllerserver.go): CreateVolume
    derives the DBFS options from the request, creates the file system
    through the cloud API and remembers the volume under the request's
    name, so that a repeated request is answered from memory;
    DeleteVolume deletes the file system and forgets the volume;
    ValidateVolumeCapabilities confirms only multi-node multi-writer
    access; publishing attaches the file system to an instance.

    The cloud is a function from a request to the file-system id it
    returns or the text of its error; the node's zone (from the metadata
    server) and the region are parameters. */
module DbfsController {
  import opened Wrappers
  import opened GoInt
  import opened Csi

  /** The driver's name, set in pkg/dbfs/dbfs.go, which is not part of
      this model. */
  const DriverName: string
  const TopologyZoneKey := "topology." + DriverName + "/zone"
  /** The endpoint every DBFS request names. */
  const DbfsDomain := "dbfs.cn-hangzhou.aliyuncs.com"
  const DefaultCategory := "cloud_essd"

  // ---------------------------------------------------------------------
  // getDbfsVolumeOptions (pkg/dbfs/controllerserver.go:200-220)

  /** The DBFS parameters of a new volume. */
  datatype DbfsOptions = DbfsOptions(category: string, fsName: string, regionId: string, zoneId: string, size: int64)

  /** CreateVolume's request; `requiredBytes` is 0 when the request has no
      capacity range, and `contentSource` is None when it has no source. */
  datatype CreateRequest = CreateRequest(
    name: string, parameters: map<string, string>, requiredBytes: int64, contentSource: Option<ContentSource>)

  /** The size in GiB, computed in int64 as `(bytes + GiB - 1) / GiB`: up to
      the largest size whose rounding does not overflow, the least whole
      number of GiB that holds the bytes. */
  function SizeGiB(bytes: int64): (g: int64)
    ensures 0 <= bytes <= MaxInt64 - GiB + 1 ==> g >= 0 && (g - 1) * GiB < bytes <= g * GiB
  {
    GoDiv(WrapInt64(bytes + GiB - 1), GiB)
  }

  /** Within 1 GiB of the int64 maximum the rounding overflows and the
      size comes out negative. */
  lemma SizeGiBWrapsAtTheTop()
    ensures SizeGiB(MaxInt64 as int64) < 0
  {
    assert WrapInt64(MaxInt64 + GiB - 1) == MaxInt64 + GiB - 1 - TwoTo64;
  }

  /** getDbfsVolumeOptions: the category and zone from the parameters,
      defaulting to "cloud_essd" and to the node's zone; the request's name
      as the file-system name; the size in whole GiB, rounded up. */
  function VolumeOptions(req: CreateRequest, region: string, nodeZone: string): (r: DbfsOptions)
    ensures "Category" in req.parameters ==> r.category == req.parameters["Category"]
    ensures "Category" !in req.parameters ==> r.category == DefaultCategory
    ensures "zoneId" in req.parameters ==> r.zoneId == req.parameters["zoneId"]
    ensures "zoneId" !in req.parameters ==> r.zoneId == nodeZone
    ensures r.fsName == req.name && r.regionId == region
    ensures 0 <= req.requiredBytes <= MaxInt64 - GiB + 1 ==>
      r.size >= 0 && (r.size - 1) * GiB < req.requiredBytes <= r.size * GiB
  {
    DbfsOptions(
      LookupOr(req.parameters, "Category", DefaultCategory),
      req.name,
      region,
      LookupOr(req.parameters, "zoneId", nodeZone),
      SizeGiB(req.requiredBytes))
  }

  // ---------------------------------------------------------------------
  // The cloud

  /** One call on the DBFS API. */
  datatype CloudCall =
    | CreateDbfs(category: string, fsName: string, zoneId: string, regionId: string, sizeG: int64,
                 clientToken: string, domain: string)
    | DeleteDbfs(fsId: string, regionId: string, domain: string)
    | AttachDbfs(regionId: string, instanceId: string, fsId: string, domain: string)
    | DetachDbfs(regionId: string, fsId: string, domain: string)

  /** What the cloud answers a call with: the file system's id, or the text
      of the error. */
  type Cloud = CloudCall -> Result<string, string>

  /** The calls a handler makes, the remembered volumes afterwards, and
      what it returns. */
  datatype Outcome<T> = Outcome(calls: seq<CloudCall>, cache: map<string, Volume>, result: Result<T, Error>)

  // ---------------------------------------------------------------------
  // CreateVolume (pkg/dbfs/controllerserver.go:102-176)

  /** The snapshot a request restores from: "" without a source; an error
      for a source that is not a snapshot or a snapshot source left
      unset. */
  function SnapshotOf(source: Option<ContentSource>): (r: Result<string, Error>)
    ensures source.None? ==> r == Ok("")
    ensures source.Some? && source.value.FromVolume? ==>
      r == Err(Status(InvalidArgument, "CreateVolume: unsupported volumeContentSource type"))
    ensures source == Some(FromSnapshot(None)) ==>
      r == Err(Status(InvalidArgument, "CreateVolume: get empty snapshot from volumeContentSource"))
    ensures r.Ok? && r.value != "" ==> source == Some(FromSnapshot(Some(r.value)))
  {
    match source
    case None => Ok("")
    case Some(FromVolume(_)) => Err(Status(InvalidArgument, "CreateVolume: unsupported volumeContentSource type"))
    case Some(FromSnapshot(None)) => Err(Status(InvalidArgument, "CreateVolume: get empty snapshot from volumeContentSource"))
    case Some(FromSnapshot(Some(id))) => Ok(id)
  }

  /** The creation request for the options, with the request's name as
      the idempotency token. */
  function CreateCall(opts: DbfsOptions, name: string): CloudCall {
    CreateDbfs(opts.category, opts.fsName, opts.zoneId, opts.regionId, opts.size, name, DbfsDomain)
  }

  /** The volume a successful creation returns: the file system's id, the
      requested bytes, the zone as its topology, and the snapshot it was
      restored from, if any. */
  function CreatedVolume(fsId: string, req: CreateRequest, zoneId: string, snapshotId: string): Volume {
    Volume(fsId, req.requiredBytes, map[], [map[TopologyZoneKey := zoneId]],
      if snapshotId != "" then Some(FromSnapshot(Some(snapshotId))) else None)
  }

  /** CreateVolume, from the volumes remembered so far. */
  function CreateOutcome(cache: map<string, Volume>, cloud: Cloud, region: string, nodeZone: string,
                         req: CreateRequest): Outcome<Volume> {
    if req.name in cache then Outcome([], cache, Ok(cache[req.name]))
    else
      var opts := VolumeOptions(req, region, nodeZone);
      var snapshot := SnapshotOf(req.contentSource);
      if snapshot.Err? then Outcome([], cache, Err(snapshot.error))
      else
        var call := CreateCall(opts, req.name);
        var answer := cloud(call);
        if answer.Err? then
          Outcome([call], cache, Err(Status(InvalidArgument,
            "Invalid parameters from input: " + req.name + ", with error: " + answer.error)))
        else
          var v := CreatedVolume(answer.value, req, opts.zoneId, snapshot.value);
          Outcome([call], cache[req.name := v], Ok(v))
  }

  /** A name created before is answered with the remembered volume and
      nothing is asked of the cloud; otherwise the cloud is asked once,
      for a file system named after the request, with the request's name
      as the token, and only a success is remembered, under that name. */
  lemma CreateCases(cache: map<string, Volume>, cloud: Cloud, region: string, nodeZone: string, req: CreateRequest)
    ensures var o := CreateOutcome(cache, cloud, region, nodeZone, req);
      && (req.name in cache ==> o == Outcome([], cache, Ok(cache[req.name])))
      && (req.name !in cache ==>
        && (o.result.Err? ==> o.cache == cache)
        && (|o.calls| <= 1)
        && (o.calls != [] ==> o.calls[0].CreateDbfs? && o.calls[0].fsName == req.name && o.calls[0].clientToken == req.name
                              && o.calls[0].domain == DbfsDomain)
        && (o.result.Ok? ==>
          && o.calls != [] && cloud(o.calls[0]).Ok?
          && o.result.value.volumeId == cloud(o.calls[0]).value
          && o.result.value.capacityBytes == req.requiredBytes
          && o.result.value.accessibleTopology == [map[TopologyZoneKey := o.calls[0].zoneId]]
          && o.cache == cache[req.name := o.result.value]))
  {
  }

  /** A request whose source is not a usable snapshot is refused with
      InvalidArgument before the cloud is asked. */
  lemma CreateRefusesBadSource(cache: map<string, Volume>, cloud: Cloud, region: string, nodeZone: string, req: CreateRequest)
    requires req.name !in cache
    requires req.contentSource.Some? && (req.contentSource.value.FromVolume? || req.contentSource.value == FromSnapshot(None))
    ensures var o := CreateOutcome(cache, cloud, region, nodeZone, req);
      o.calls == [] && o.cache == cache && o.result.Err? && o.result.error.Status? && o.result.error.code == InvalidArgument
  {
  }

  /** Creating twice under one name asks the cloud at most once and gives
      the same volume both times. */
  lemma CreateIdempotent(cache: map<string, Volume>, cloud: Cloud, region: string, nodeZone: string, req: CreateRequest)
    ensures var first := CreateOutcome(cache, cloud, region, nodeZone, req);
      var second := CreateOutcome(first.cache, cloud, region, nodeZone, req);
      first.result.Ok? ==> second == Outcome([], first.cache, first.result)
  {
  }

  // ---------------------------------------------------------------------
  // DeleteVolume (pkg/dbfs/controllerserver.go:179-198)

  /** The volumes left remembered after deleting `volumeId`, as written:
      the entry keyed by the volume id goes, but entries are keyed by the
      request name. */
  function ForgetAsWritten(cache: map<string, Volume>, volumeId: string): (r: map<string, Volume>)
    ensures volumeId !in r && r.Keys <= cache.Keys
    ensures forall name :: name in cache && name != volumeId ==> name in r && r[name] == cache[name]
  {
    if volumeId in cache then cache - {volumeId} else cache
  }

  /** As written, whatever file system the cloud creates, the deleted
      volume stays remembered under its name unless its id happens to be
      that name; a new request with that name is then answered with the
      deleted volume and the cloud is not asked. */
  lemma ForgetAsWrittenKeepsDeleted(cloud: Cloud, region: string, nodeZone: string, req: CreateRequest)
    requires req.contentSource.None?
    requires cloud(CreateCall(VolumeOptions(req, region, nodeZone), req.name)).Ok?
    ensures var created := CreateOutcome(map[], cloud, region, nodeZone, req);
      var after := ForgetAsWritten(created.cache, created.result.value.volumeId);
      && created.result.Ok?
      && (req.name in after <==> created.result.value.volumeId != req.name)
      && (req.name in after ==> CreateOutcome(after, cloud, region, nodeZone, req) == Outcome([], after, created.result))
  {
    var created := CreateOutcome(map[], cloud, region, nodeZone, req);
    assert created.cache == map[req.name := created.result.value];
  }

  /** An example: a cloud that names file systems "dbfs-<name>". */
  lemma ForgetAsWrittenExample(cloud: Cloud, region: string, nodeZone: string, req: CreateRequest)
    requires req.contentSource.None?
    requires cloud(CreateCall(VolumeOptions(req, region, nodeZone), req.name)) == Ok("dbfs-" + req.name)
    ensures var created := CreateOutcome(map[], cloud, region, nodeZone, req);
      req.name in ForgetAsWritten(created.cache, created.result.value.volumeId)
  {
    ForgetAsWrittenKeepsDeleted(cloud, region, nodeZone, req);
    assert |"dbfs-" + req.name| > |req.name|;
  }

  /** The volumes left remembered after deleting `volumeId`: every entry
      for that volume goes, whatever name it was created under, and the
      others stay. */
  function Forget(cache: map<string, Volume>, volumeId: string): (r: map<string, Volume>)
    ensures forall name :: name in r ==> r[name].volumeId != volumeId
    ensures forall name :: name in cache && cache[name].volumeId != volumeId ==> name in r && r[name] == cache[name]
    ensures r.Keys <= cache.Keys
  {
    map name | name in cache && cache[name].volumeId != volumeId :: cache[name]
  }

  /** The %v rendering of a delete request for a volume id. */
  type Describe = string -> string

  /** DeleteVolume: the file system is deleted, then forgotten. */
  function DeleteOutcome(cache: map<string, Volume>, cloud: Cloud, region: string, describe: Describe,
                         volumeId: string): Outcome<()> {
    var call := DeleteDbfs(volumeId, region, DbfsDomain);
    if cloud(call).Err? then
      Outcome([call], cache, Err(Status(InvalidArgument, "DeleteVolume: invalid delete volume req: " + describe(volumeId))))
    else Outcome([call], Forget(cache, volumeId), Ok(()))
  }

  /** After a volume is created and deleted, a request with its name
      creates a new file system. */
  lemma CreateAfterDelete(cloud: Cloud, region: string, nodeZone: string, describe: Describe, req: CreateRequest)
    requires req.contentSource.None?
    requires cloud(CreateCall(VolumeOptions(req, region, nodeZone), req.name)).Ok?
    requires cloud(DeleteDbfs(cloud(CreateCall(VolumeOptions(req, region, nodeZone), req.name)).value, region, DbfsDomain)).Ok?
    ensures var created := CreateOutcome(map[], cloud, region, nodeZone, req);
      var deleted := DeleteOutcome(created.cache, cloud, region, describe, created.result.value.volumeId);
      && deleted.result.Ok?
      && req.name !in deleted.cache
      && CreateOutcome(deleted.cache, cloud, region, nodeZone, req).calls == [CreateCall(VolumeOptions(req, region, nodeZone), req.name)]
  {
    var created := CreateOutcome(map[], cloud, region, nodeZone, req);
    assert created.cache == map[req.name := created.result.value];
  }

  // ---------------------------------------------------------------------
  // ValidateVolumeCapabilities (pkg/dbfs/controllerserver.go:222-233)

  /** The capabilities are confirmed when every one of them asks for
      multi-node multi-writer access; otherwise nothing is confirmed. */
  method ValidateVolumeCapabilities(modes: seq<AccessMode>) returns (confirmed: Option<seq<AccessMode>>)
    ensures confirmed.Some? <==> forall i :: 0 <= i < |modes| ==> modes[i] == MultiNodeMultiWriter
    ensures confirmed.Some? ==> confirmed.value == modes
  {
    var i := 0;
    while i < |modes|
      invariant 0 <= i <= |modes|
      invariant forall j :: 0 <= j < i ==> modes[j] == MultiNodeMultiWriter
    {
      if modes[i] != MultiNodeMultiWriter {
        return None;
      }
      i := i + 1;
    }
    return Some(modes);
  }

  // ---------------------------------------------------------------------
  // The controller server

  class ControllerServer {
    const cloud: Cloud
    /** GlobalConfigVar.Region. */
    const region: string
    /** The node's zone, from the metadata server. */
    const nodeZone: string
    const describe: Describe
    /** pvcProcessSuccess: the volumes created so far, by request name. */
    var pvcProcessSuccess: map<string, Volume>
    /** Every cloud call made so far, in order. */
    var calls: seq<CloudCall>

    constructor (cloud: Cloud, region: string, nodeZone: string, describe: Describe)
      ensures this.cloud == cloud && this.region == region && this.nodeZone == nodeZone && this.describe == describe
      ensures pvcProcessSuccess == map[] && calls == []
    {
      this.cloud := cloud;
      this.region := region;
      this.nodeZone := nodeZone;
      this.describe := describe;
      pvcProcessSuccess := map[];
      calls := [];
    }

    /** CreateVolume: a remembered name is answered from memory; a new one
        creates a file system and is remembered when that succeeds. */
    method CreateVolume(req: CreateRequest) returns (r: Result<Volume, Error>)
      modifies this
      ensures var o := CreateOutcome(old(pvcProcessSuccess), cloud, region, nodeZone, req);
        && calls == old(calls) + o.calls && pvcProcessSuccess == o.cache && r == o.result
    {
      if req.name in pvcProcessSuccess {
        return Ok(pvcProcessSuccess[req.name]);
      }
      var pvName := req.name;
      var opts := VolumeOptions(req, region, nodeZone);
      var snapshotId := "";
      if req.contentSource.Some? {
        match req.contentSource.value
        case FromVolume(_) =>
          return Err(Status(InvalidArgument, "CreateVolume: unsupported volumeContentSource type"));
        case FromSnapshot(s) =>
          if s.None? {
            return Err(Status(InvalidArgument, "CreateVolume: get empty snapshot from volumeContentSource"));
          }
          snapshotId := s.value;
      }
      var call := CreateCall(opts, req.name);
      calls := calls + [call];
      var response := cloud(call);
      if response.Err? {
        return Err(Status(InvalidArgument, "Invalid parameters from input: " + req.name + ", with error: " + response.error));
      }
      var source: Option<ContentSource> := None;
      if snapshotId != "" {
        source := Some(FromSnapshot(Some(snapshotId)));
      }
      var volume := Volume(response.value, req.requiredBytes, map[], [map[TopologyZoneKey := opts.zoneId]], source);
      pvcProcessSuccess := pvcProcessSuccess[pvName := volume];
      return Ok(volume);
    }

    method DeleteVolume(volumeId: string) returns (r: Result<(), Error>)
      modifies this
      ensures var o := DeleteOutcome(old(pvcProcessSuccess), cloud, region, describe, volumeId);
        && calls == old(calls) + o.calls && pvcProcessSuccess == o.cache && r == o.result
    {
      var call := DeleteDbfs(volumeId, region, DbfsDomain);
      calls := calls + [call];
      if cloud(call).Err? {
        return Err(Status(InvalidArgument, "DeleteVolume: invalid delete volume req: " + describe(volumeId)));
      }
      pvcProcessSuccess := Forget(pvcProcessSuccess, volumeId);
      return Ok(());
    }

    /** ControllerPublishVolume: attaches the file system to the node's
        instance. */
    method ControllerPublishVolume(volumeId: string, nodeId: string) returns (r: Result<(), Error>)
      modifies this
      ensures pvcProcessSuccess == old(pvcProcessSuccess)
      ensures calls == old(calls) + [AttachDbfs(region, nodeId, volumeId, DbfsDomain)]
      ensures r.Ok? <==> cloud(AttachDbfs(region, nodeId, volumeId, DbfsDomain)).Ok?
      ensures r.Err? ==> r.error == Status(InvalidArgument, "ControllerPublishVolume missing VolumeId/NodeId in request")
    {
      var call := AttachDbfs(region, nodeId, volumeId, DbfsDomain);
      calls := calls + [call];
      if cloud(call).Err? {
        return Err(Status(InvalidArgument, "ControllerPublishVolume missing VolumeId/NodeId in request"));
      }
      return Ok(());
    }

    /** ControllerUnpublishVolume: detaches the file system; its error
        message is the one of ControllerPublishVolume. */
    method ControllerUnpublishVolume(volumeId: string) returns (r: Result<(), Error>)
      modifies this
      ensures pvcProcessSuccess == old(pvcProcessSuccess)
      ensures calls == old(calls) + [DetachDbfs(region, volumeId, DbfsDomain)]
      ensures r.Ok? <==> cloud(DetachDbfs(region, volumeId, DbfsDomain)).Ok?
      ensures r.Err? ==> r.error == Status(InvalidArgument, "ControllerPublishVolume missing VolumeId/NodeId in request")
    {
      var call := DetachDbfs(region, volumeId, DbfsDomain);
      calls := calls + [call];
      if cloud(call).Err? {
        return Err(Status(InvalidArgument, "ControllerPublishVolume missing VolumeId/NodeId in request"));
      }
      return Ok(());
    }
  }
}

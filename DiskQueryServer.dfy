/** The BDF query server of the disk node plugin
    (pkg/disk/nodeQueryServer.go): given a JSON list of disk ids, it
    answers with one entry per disk naming the disk's PCI address (BDF)
    and its device on this node; a node without VF disks answers that it
    is to be ignored.

    The node's lookups (`findBdf`, `GetDeviceByBdf`) and the JSON coding
    are parameters. */
module DiskQueryServer {
  import opened Wrappers
  import Strings

  const DefaultEbsdPort := "1737"
  const BdfDiskInfoUrl := "/api/v1/bdfdiskinfo"
  /** The disk id that asks for every device; it gets no entry. */
  const AllVolumeDisk := "allvolumedisk"
  const NotBdfNodeReply := "ignore: not bdf node"

  /** One entry of the answer. */
  datatype BdfInfo = BdfInfo(bdf: string, device: string, diskId: string, instanceId: string, nodeId: string, error: string)

  /** GetEBSDPort: the EBSD_PORT environment value when set, else 1737. */
  function EbsdPort(env: string): (r: string)
    ensures env != "" ==> r == env
    ensures env == "" ==> r == DefaultEbsdPort
    ensures r != ""
  {
    if env != "" then env else DefaultEbsdPort
  }

  /** The node's lookups: the BDF of a disk, and the device at a BDF. */
  datatype Lookups = Lookups(findBdf: string -> Result<string, string>, deviceByBdf: string -> (string, Option<string>))

  /** getBdfDeviceByID: the device and the BDF of a disk, with the error of
      the BDF lookup; a disk without a BDF has neither, and the device
      lookup's error is dropped. */
  function BdfDevice(lookups: Lookups, diskId: string): (r: (string, string, Option<string>))
    ensures lookups.findBdf(diskId).Err? ==> r == ("", "", Some(lookups.findBdf(diskId).error))
    ensures lookups.findBdf(diskId) == Ok("") ==> r == ("", "", None)
    ensures r.1 != "" ==> lookups.findBdf(diskId) == Ok(r.1) && r.0 == lookups.deviceByBdf(r.1).0 && r.2.None?
  {
    var bdf := lookups.findBdf(diskId);
    if bdf.Err? then ("", "", Some(bdf.error))
    else if bdf.value == "" then ("", "", None)
    else (lookups.deviceByBdf(bdf.value).0, bdf.value, None)
  }

  /** The entry of one disk. */
  function Entry(lookups: Lookups, nodeId: string, diskId: string): (r: BdfInfo)
    ensures r.diskId == diskId && r.instanceId == "" && r.nodeId == nodeId && r.error == ""
    ensures lookups.findBdf(diskId).Err? ==> r.device == "" && r.bdf == ""
  {
    var (device, bdf, _) := BdfDevice(lookups, diskId);
    BdfInfo(bdf, device, diskId, "", nodeId, "")
  }

  /** The disks that get an entry, in order. */
  function Kept(diskIds: seq<string>): (r: seq<string>)
    ensures |r| <= |diskIds|
    ensures forall k :: 0 <= k < |r| ==> r[k] != AllVolumeDisk
  {
    if |diskIds| == 0 then []
    else
      var rest := Kept(diskIds[..|diskIds| - 1]);
      if diskIds[|diskIds| - 1] == AllVolumeDisk then rest else rest + [diskIds[|diskIds| - 1]]
  }

  /** buildBdfInfoResponse, defined by the disks read so far. */
  function Response(lookups: Lookups, nodeId: string, diskIds: seq<string>): seq<BdfInfo> {
    if |diskIds| == 0 then []
    else
      var rest := Response(lookups, nodeId, diskIds[..|diskIds| - 1]);
      var id := diskIds[|diskIds| - 1];
      if id == AllVolumeDisk then rest else rest + [Entry(lookups, nodeId, id)]
  }

  /** The answer has one entry per disk other than "allvolumedisk", in the
      order asked, each the entry of its disk. */
  lemma {:induction false} ResponseEntries(lookups: Lookups, nodeId: string, diskIds: seq<string>)
    ensures var r := Response(lookups, nodeId, diskIds);
      var kept := Kept(diskIds);
      |r| == |kept| && forall k :: 0 <= k < |r| ==> r[k] == Entry(lookups, nodeId, kept[k])
    decreases |diskIds|
  {
    if |diskIds| > 0 {
      ResponseEntries(lookups, nodeId, diskIds[..|diskIds| - 1]);
    }
  }

  /** Asking for "allvolumedisk" alone gets an empty answer; a disk asked
      twice gets two entries. */
  lemma ResponseExamples(lookups: Lookups, nodeId: string, id: string)
    requires id != AllVolumeDisk
    ensures Response(lookups, nodeId, [AllVolumeDisk]) == []
    ensures Response(lookups, nodeId, [id, AllVolumeDisk, id]) == [Entry(lookups, nodeId, id), Entry(lookups, nodeId, id)]
  {
    assert [AllVolumeDisk][..0] == [];
    assert [id, AllVolumeDisk, id][..2] == [id, AllVolumeDisk];
    assert [id, AllVolumeDisk][..1] == [id];
    assert [id][..0] == [];
    assert Response(lookups, nodeId, [id]) == [Entry(lookups, nodeId, id)];
    assert Response(lookups, nodeId, [id, AllVolumeDisk]) == [Entry(lookups, nodeId, id)];
  }

  /** The loop of buildBdfInfoResponse. */
  method BuildBdfInfoResponse(lookups: Lookups, nodeId: string, diskIds: seq<string>) returns (r: seq<BdfInfo>)
    ensures r == Response(lookups, nodeId, diskIds)
  {
    r := [];
    var i := 0;
    while i < |diskIds|
      invariant 0 <= i <= |diskIds|
      invariant r == Response(lookups, nodeId, diskIds[..i])
    {
      var diskId := diskIds[i];
      assert diskIds[..i + 1][..i] == diskIds[..i];
      if diskId != AllVolumeDisk {
        var (device, bdf, _) := BdfDevice(lookups, diskId);
        r := r + [BdfInfo(bdf, device, diskId, "", nodeId, "")];
      }
      i := i + 1;
    }
    assert diskIds[..|diskIds|] == diskIds;
  }

  /** The JSON coding the handler uses: the request body into disk ids,
      and the answer into text. */
  datatype Json = Json(unmarshal: string -> Result<seq<string>, string>, marshal: seq<BdfInfo> -> Result<string, string>)

  /** What bdfHandler did: whether it read the request body, and what it
      wrote back. */
  datatype HandlerOutcome = HandlerOutcome(bodyRead: bool, reply: string)

  /** bdfHandler: a node without VF disks answers "ignore: ..." without
      reading the request; any failure is answered "error: <text>";
      otherwise the answer is the JSON of the entries. */
  function Handler(isVFNode: bool, body: Result<string, string>, json: Json, lookups: Lookups, nodeId: string): HandlerOutcome {
    if !isVFNode then HandlerOutcome(false, NotBdfNodeReply)
    else if body.Err? then HandlerOutcome(true, "error: " + body.error)
    else
      var request := json.unmarshal(body.value);
      if request.Err? then HandlerOutcome(true, "error: " + request.error)
      else
        var info := json.marshal(Response(lookups, nodeId, request.value));
        if info.Err? then HandlerOutcome(true, "error: " + info.error)
        else HandlerOutcome(true, info.value)
  }

  /** The handler's answers are of three kinds, and the kind follows from
      the node and the request. */
  lemma HandlerCases(isVFNode: bool, body: Result<string, string>, json: Json, lookups: Lookups, nodeId: string)
    ensures var o := Handler(isVFNode, body, json, lookups, nodeId);
      && (!isVFNode ==> !o.bodyRead && Strings.HasPrefix(o.reply, "ignore:"))
      && (isVFNode ==> o.bodyRead)
      && (isVFNode && (body.Err? || json.unmarshal(body.value).Err?) ==> Strings.HasPrefix(o.reply, "error:"))
      && (isVFNode && body.Ok? && json.unmarshal(body.value).Ok? &&
          json.marshal(Response(lookups, nodeId, json.unmarshal(body.value).value)).Ok? ==>
        o.reply == json.marshal(Response(lookups, nodeId, json.unmarshal(body.value).value)).value)
  {
    var o := Handler(isVFNode, body, json, lookups, nodeId);
    if !isVFNode {
      assert o.reply[..7] == "ignore:";
    } else if body.Err? || json.unmarshal(body.value).Err? {
      assert o.reply[..6] == "error:";
    }
  }
}

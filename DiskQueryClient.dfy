/** The BDF query client of the disk controller
    (pkg/disk/nodeQueryClient.go): it posts a list of disk ids to a node's
    BDF query server and reads the answer, and it finds a node's IP
    address from the ECS description of its instance.

    The HTTP transport, the ECS API and the JSON coding are parameters. */
module DiskQueryClient {
  import opened Wrappers
  import Strings
  import opened DiskQueryServer

  /** The address of a node's BDF query server. */
  function QueryUrl(nodeIP: string, port: string): (r: string)
    ensures Strings.HasPrefix(r, "http://" + nodeIP + ":" + port)
    ensures Strings.HasSuffix(r, BdfDiskInfoUrl)
  {
    var r := "http://" + nodeIP + ":" + port + BdfDiskInfoUrl;
    assert r[..|"http://" + nodeIP + ":" + port|] == "http://" + nodeIP + ":" + port;
    assert r[|r| - |BdfDiskInfoUrl|..] == BdfDiskInfoUrl;
    r
  }

  /** The single entry that stands for a marked answer. */
  function Marker(error: string): BdfInfo {
    BdfInfo("", "", "", "", "", error)
  }

  /** How bdfInfoQuery reads an answer: one "ignore" entry for an answer
      starting "ignore:", one "error" entry for one starting "error:", and
      otherwise the decoded JSON, whose failure is an error. */
  function Classify(body: string, decode: string -> Result<seq<BdfInfo>, string>): (r: Result<seq<BdfInfo>, string>)
    ensures Strings.HasPrefix(body, "ignore:") ==> r == Ok([Marker("ignore")])
    ensures !Strings.HasPrefix(body, "ignore:") && Strings.HasPrefix(body, "error:") ==> r == Ok([Marker("error")])
    ensures !Strings.HasPrefix(body, "ignore:") && !Strings.HasPrefix(body, "error:") ==> r == decode(body)
  {
    if Strings.HasPrefix(body, "ignore:") then Ok([Marker("ignore")])
    else if Strings.HasPrefix(body, "error:") then Ok([Marker("error")])
    else decode(body)
  }

  /** The transport and coding of the client: `post` sends a body to a URL
      and returns the answer's body or an error. */
  datatype Wire = Wire(
    encode: seq<string> -> string,
    post: (string, string) -> Result<string, string>,
    decode: string -> Result<seq<BdfInfo>, string>)

  /** bdfInfoQuery. */
  function BdfInfoQuery(wire: Wire, env: string, nodeIP: string, diskIds: seq<string>): Result<seq<BdfInfo>, string> {
    var body := wire.post(QueryUrl(nodeIP, EbsdPort(env)), wire.encode(diskIds));
    if body.Err? then Err(body.error) else Classify(body.value, wire.decode)
  }

  /** What a client makes of a server's answer, connected end to end: a
      node without VF disks is read as one "ignore" entry and a failing
      server as one "error" entry, whatever their text goes on with; a
      successful answer is whatever the decoder makes of its JSON. */
  lemma QueryReadsHandler(isVFNode: bool, body: Result<string, string>, json: Json, lookups: Lookups, nodeId: string,
                          decode: string -> Result<seq<BdfInfo>, string>)
    ensures var o := Handler(isVFNode, body, json, lookups, nodeId);
      && (!isVFNode ==> Classify(o.reply, decode) == Ok([Marker("ignore")]))
      && (isVFNode && (body.Err? || json.unmarshal(body.value).Err?) ==> Classify(o.reply, decode) == Ok([Marker("error")]))
  {
    HandlerCases(isVFNode, body, json, lookups, nodeId);
    var o := Handler(isVFNode, body, json, lookups, nodeId);
    if isVFNode && (body.Err? || json.unmarshal(body.value).Err?) {
      assert !Strings.HasPrefix(o.reply, "ignore:") by {
        assert o.reply[0] == 'e';
      }
    }
  }

  // ---------------------------------------------------------------------
  // GetInstanceIP (pkg/disk/nodeQueryClient.go:53-73)

  /** The DescribeInstances request for one instance. */
  datatype DescribeRequest = DescribeRequest(regionId: string, instanceIds: string)

  /** The parts of an instance's description that are read. */
  datatype Instance = Instance(vpcPrivateIps: seq<string>, innerIps: seq<string>)

  datatype DescribeResponse = DescribeResponse(requestId: string, instances: seq<Instance>)

  function InstanceRequest(region: string, instanceId: string): DescribeRequest {
    DescribeRequest(region, "[\"" + instanceId + "\"]")
  }

  /** The instance's address: exactly one instance must be described; its
      first VPC private address, else its first inner address. */
  function InstanceIP(response: Result<DescribeResponse, string>): (r: Result<string, string>)
    ensures response.Err? ==> r == Err(response.error)
    ensures response.Ok? && |response.value.instances| != 1 ==>
      r == Err("Get Instance with error response: " + response.value.requestId)
    ensures response.Ok? && |response.value.instances| == 1 ==>
      var instance := response.value.instances[0];
      && (|instance.vpcPrivateIps| > 0 ==> r == Ok(instance.vpcPrivateIps[0]))
      && (|instance.vpcPrivateIps| == 0 && |instance.innerIps| > 0 ==> r == Ok(instance.innerIps[0]))
      && (|instance.vpcPrivateIps| == 0 && |instance.innerIps| == 0 ==> r == Err("Net InnerIpAddress found "))
  {
    if response.Err? then Err(response.error)
    else if |response.value.instances| != 1 then Err("Get Instance with error response: " + response.value.requestId)
    else
      var instance := response.value.instances[0];
      if |instance.vpcPrivateIps| > 0 then Ok(instance.vpcPrivateIps[0])
      else if |instance.innerIps| > 0 then Ok(instance.innerIps[0])
      else Err("Net InnerIpAddress found ")
  }

  /** A VPC address, when there is one, is preferred to every inner
      address; an answer is always one of the instance's addresses. */
  lemma InstanceIPPreference(response: Result<DescribeResponse, string>)
    ensures var r := InstanceIP(response);
      r.Ok? ==> (
        && response.Ok? && |response.value.instances| == 1
        && var instance := response.value.instances[0];
          if |instance.vpcPrivateIps| > 0 then r.value == instance.vpcPrivateIps[0] else r.value in instance.innerIps)
  {
  }

  /** GetInstanceIP: the first VPC address, else the first inner
      address (each loop of the source returns on its first element). */
  method GetInstanceIP(describe: DescribeRequest -> Result<DescribeResponse, string>, region: string, instanceId: string)
    returns (r: Result<string, string>)
    ensures r == InstanceIP(describe(InstanceRequest(region, instanceId)))
  {
    var response := describe(DescribeRequest(region, "[\"" + instanceId + "\"]"));
    if response.Err? {
      return Err(response.error);
    }
    if |response.value.instances| != 1 {
      return Err("Get Instance with error response: " + response.value.requestId);
    }
    var instance := response.value.instances[0];
    if |instance.vpcPrivateIps| > 0 {
      return Ok(instance.vpcPrivateIps[0]);
    }
    if |instance.innerIps| > 0 {
      return Ok(instance.innerIps[0]);
    }
    return Err("Net InnerIpAddress found ");
  }
}

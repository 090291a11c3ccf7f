/** The client of the yoda scheduler extender (pkg/yoda/http.go): the
    scheduling URL, the host override from the environment, and the rule
    that only a 200 answer is read and decoded.

    The transport and the JSON decoder are parameters of the `Scheduler`
    object: `transport` answers a request with a response or an error,
    `decode` turns a body into a binding or an error. */
module YodaHttp {
  import opened Wrappers
  import opened Csi
  import Strings

  /** The scheduler's address when the environment does not name one. */
  const DefaultUrlHost := "http://yoda-scheduler-extender-service:23000"
  const SchedulerHostTag := "SCHEDULER_HOST"

  /** The placement the scheduler answers with. */
  datatype BindingInfo = BindingInfo(vgName: string, nodeId: string, mntPoint: string, device: string)

  /** A request as DoRequest builds it. */
  datatype Request = Request(verb: string, url: string, contentType: string, host: string)

  /** A response: its status code, its body (or the error reading it), and
      the `%+v` rendering of the response object. */
  datatype HttpResponse = HttpResponse(statusCode: int, body: Result<string, Error>, dump: string)

  /** The URL host after ScheduleVolume's override: a non-empty
      SCHEDULER_HOST replaces the current one. */
  function HostAfter(urlHost: string, env: string): (r: string)
    ensures env != "" ==> r == env
    ensures env == "" ==> r == urlHost
  {
    if env != "" then env else urlHost
  }

  /** The path of the claim's scheduling resource, before the query. */
  function ClaimPath(pvcName: string, pvcNamespace: string): string {
    "/apis/scheduling/" + pvcNamespace + "/persistentvolumeclaims/" + pvcName
  }

  /** The scheduling path with its query; the node is named only when it
      is known. */
  function SchedulePath(volumeType: string, pvcName: string, pvcNamespace: string, nodeId: string): string {
    if nodeId == "" then ClaimPath(pvcName, pvcNamespace) + "?volumeType=" + volumeType
    else ClaimPath(pvcName, pvcNamespace) + "?nodeName=" + nodeId + "&volumeType=" + volumeType
  }

  /** Both forms address the claim's resource and end with the volume
      type; the form with a node is the form without one with
      `nodeName=<node>&` put in front of the query. */
  lemma SchedulePathShape(volumeType: string, pvcName: string, pvcNamespace: string, nodeId: string)
    ensures var path := SchedulePath(volumeType, pvcName, pvcNamespace, nodeId);
      var base := ClaimPath(pvcName, pvcNamespace) + "?";
      && Strings.HasPrefix(path, base)
      && Strings.HasSuffix(path, "volumeType=" + volumeType)
      && (nodeId == "" ==> path[|base|..] == "volumeType=" + volumeType)
      && (nodeId != "" ==>
        path == base + "nodeName=" + nodeId + "&" + SchedulePath(volumeType, pvcName, pvcNamespace, "")[|base|..])
  {
    var path := SchedulePath(volumeType, pvcName, pvcNamespace, nodeId);
    var base := ClaimPath(pvcName, pvcNamespace) + "?";
    var tail := "volumeType=" + volumeType;
    assert SchedulePath(volumeType, pvcName, pvcNamespace, "") == base + tail;
    if nodeId == "" {
      assert path == base + tail;
    } else {
      assert path == base + ("nodeName=" + nodeId + "&" + tail);
    }
    assert path[|path| - |tail|..] == tail;
  }

  /** The request DoRequest sends: a JSON POST with the URL host as the
      Host header. */
  function PostRequest(url: string, urlHost: string): Request {
    Request("POST", url, "application/json", urlHost)
  }

  /** DoRequest's status rule: the body of a 200 answer; any other status
      is an error naming it, and the body is not read. */
  function ResponseBody(resp: Result<HttpResponse, Error>): (r: Result<string, Error>)
    ensures resp.Err? ==> r == Err(resp.error)
    ensures resp.Ok? && resp.value.statusCode != 200 ==>
      r.Err? && r.error.Plain? && Strings.HasPrefix(r.error.msg, "Get Response StatusCode " + Strings.IntToString(resp.value.statusCode))
    ensures r.Ok? <==> resp.Ok? && resp.value.statusCode == 200 && resp.value.body.Ok?
    ensures r.Ok? ==> r.value == resp.value.body.value
  {
    match resp
    case Err(e) => Err(e)
    case Ok(p) =>
      if p.statusCode != 200 then
        Err(Plain("Get Response StatusCode " + Strings.IntToString(p.statusCode) + ", Response: " + p.dump))
      else p.body
  }

  /** What ScheduleVolume returns. */
  function ScheduleResult(urlHost: string, env: string, transport: Request -> Result<HttpResponse, Error>,
                          decode: string -> Result<BindingInfo, Error>,
                          volumeType: string, pvcName: string, pvcNamespace: string, nodeId: string): Result<BindingInfo, Error> {
    var host := HostAfter(urlHost, env);
    var url := host + SchedulePath(volumeType, pvcName, pvcNamespace, nodeId);
    var body := ResponseBody(transport(PostRequest(url, host)));
    if body.Err? then Err(body.error) else decode(body.value)
  }

  /** An answer other than 200 is an error whatever the decoder would make
      of it; a decoding error is returned as it is. */
  lemma ScheduleStatusRule(urlHost: string, env: string, transport: Request -> Result<HttpResponse, Error>,
                           decode: string -> Result<BindingInfo, Error>, decode': string -> Result<BindingInfo, Error>,
                           volumeType: string, pvcName: string, pvcNamespace: string, nodeId: string)
    ensures var host := HostAfter(urlHost, env);
      var resp := transport(PostRequest(host + SchedulePath(volumeType, pvcName, pvcNamespace, nodeId), host));
      && (resp.Ok? && resp.value.statusCode != 200 ==>
        && ScheduleResult(urlHost, env, transport, decode, volumeType, pvcName, pvcNamespace, nodeId).Err?
        && ScheduleResult(urlHost, env, transport, decode, volumeType, pvcName, pvcNamespace, nodeId)
          == ScheduleResult(urlHost, env, transport, decode', volumeType, pvcName, pvcNamespace, nodeId))
      && (resp.Ok? && resp.value.statusCode == 200 && resp.value.body.Ok? ==>
        ScheduleResult(urlHost, env, transport, decode, volumeType, pvcName, pvcNamespace, nodeId) == decode(resp.value.body.value))
  {
  }

  class Scheduler {
    /** The package-level UrlHost. */
    var urlHost: string
    /** Every request sent so far, in order. */
    var requests: seq<Request>
    /** The value of SCHEDULER_HOST in the environment. */
    const env: string
    const transport: Request -> Result<HttpResponse, Error>
    const decode: string -> Result<BindingInfo, Error>

    constructor (env: string, transport: Request -> Result<HttpResponse, Error>, decode: string -> Result<BindingInfo, Error>)
      ensures urlHost == DefaultUrlHost && requests == []
      ensures this.env == env && this.transport == transport && this.decode == decode
    {
      urlHost := DefaultUrlHost;
      requests := [];
      this.env := env;
      this.transport := transport;
      this.decode := decode;
    }

    /** DoRequest: posts to the URL and returns the body of a 200 answer. */
    method DoRequest(url: string) returns (r: Result<string, Error>)
      modifies this
      ensures urlHost == old(urlHost)
      ensures requests == old(requests) + [PostRequest(url, urlHost)]
      ensures r == ResponseBody(transport(PostRequest(url, urlHost)))
    {
      var req := PostRequest(url, urlHost);
      requests := requests + [req];
      var resp := transport(req);
      if resp.Err? {
        return Err(resp.error);
      }
      if resp.value.statusCode != 200 {
        var msg := "Get Response StatusCode " + Strings.IntToString(resp.value.statusCode) + ", Response: " + resp.value.dump;
        return Err(Plain(msg));
      }
      var body := resp.value.body;
      if body.Err? {
        return Err(body.error);
      }
      return Ok(body.value);
    }

    /** ScheduleVolume: applies the host override, then sends one request
      for the claim, whose URL starts with the Host header it carries. */
    method ScheduleVolume(volumeType: string, pvcName: string, pvcNamespace: string, nodeId: string) returns (r: Result<BindingInfo, Error>)
      modifies this
      ensures urlHost == HostAfter(old(urlHost), env)
      ensures requests == old(requests) + [PostRequest(urlHost + SchedulePath(volumeType, pvcName, pvcNamespace, nodeId), urlHost)]
      ensures Strings.HasPrefix(requests[|requests| - 1].url, requests[|requests| - 1].host)
      ensures r == ScheduleResult(old(urlHost), env, transport, decode, volumeType, pvcName, pvcNamespace, nodeId)
    {
      if env != "" {
        urlHost := env;
      }
      var urlPath := ClaimPath(pvcName, pvcNamespace) + "?nodeName=" + nodeId + "&volumeType=" + volumeType;
      if nodeId == "" {
        urlPath := ClaimPath(pvcName, pvcNamespace) + "?volumeType=" + volumeType;
      }
      var url := urlHost + urlPath;
      var body := DoRequest(url);
      if body.Err? {
        return Err(body.error);
      }
      r := decode(body.value);
    }
  }
}

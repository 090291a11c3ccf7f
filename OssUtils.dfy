/** The helpers of the OSS driver (pkg/oss/utils.go): the bucket endpoint
    of a region, the credentials an OSS client is built with, the checks
    that count ossfs mounts on the node, the RAM-role mount option, and the
    tagging of a mounted bucket with `k8s.aliyun.com=true`.

    The node and the cloud are consulted through `answer`, a function from
    a call to its reply; the default access key of the node is a
    parameter. */
module OssUtils {
  import opened Wrappers
  import Strings

  const MetadataURL := "http://100.100.100.200/latest/meta-data/"
  const RAMRoleResource := "ram/security-credentials/"
  /** The tag a bucket mounted by the driver carries. */
  const OssTagKey := "k8s.aliyun.com"
  const OssTagValue := "true"
  /** The oss package's nsenter prefix and the ossfs type name, defined in
      a file of pkg/oss that is not part of this model. */
  const NsenterCmd: string
  const OssFsType: string

  // ---------------------------------------------------------------------
  // getOssEndpoint (pkg/oss/utils.go:110-117)

  /** The bucket endpoint: the internal one for a VPC network. */
  function Endpoint(networkType: string, regionId: string): (r: string)
    ensures networkType == "vpc" ==> r == "oss-" + regionId + "-internal.aliyuncs.com"
    ensures networkType != "vpc" ==> r == "oss-" + regionId + ".aliyuncs.com"
  {
    if networkType == "vpc" then "oss-" + regionId + "-internal.aliyuncs.com"
    else "oss-" + regionId + ".aliyuncs.com"
  }

  /** On one kind of network, different regions have different endpoints;
      the internal endpoint of a region is the public endpoint of the
      region name with "-internal" appended. */
  lemma EndpointRegion(networkType: string, r1: string, r2: string)
    ensures Endpoint(networkType, r1) == Endpoint(networkType, r2) ==> r1 == r2
    ensures Endpoint("vpc", r1) == Endpoint("classic", r1 + "-internal")
  {
    var tail := if networkType == "vpc" then "-internal.aliyuncs.com" else ".aliyuncs.com";
    assert Endpoint(networkType, r1) == "oss-" + r1 + tail;
    assert Endpoint(networkType, r2) == "oss-" + r2 + tail;
    if Endpoint(networkType, r1) == Endpoint(networkType, r2) {
      assert |r1| == |r2|;
      assert r1 == Endpoint(networkType, r1)[4..4 + |r1|];
      assert r2 == Endpoint(networkType, r2)[4..4 + |r2|];
    }
    assert "oss-" + r1 + "-internal.aliyuncs.com" == "oss-" + (r1 + "-internal") + ".aliyuncs.com";
  }

  // ---------------------------------------------------------------------
  // newOSSClient (pkg/oss/utils.go:94-108)

  /** An access key, with its security token when it has one. */
  datatype Credential = Credential(id: string, secret: string, token: Option<string>)

  /** The key a client is built with: the custom key when its id and
      secret are both given (with its token when that is given too),
      otherwise the node's default key and token. */
  function ClientCredential(id: string, secret: string, token: string, defaultAK: (string, string, string)): (r: Credential)
    ensures id != "" && secret != "" && token == "" ==> r == Credential(id, secret, None)
    ensures id != "" && secret != "" && token != "" ==> r == Credential(id, secret, Some(token))
    ensures id == "" || secret == "" ==> r == Credential(defaultAK.0, defaultAK.1, Some(defaultAK.2))
  {
    if id != "" && secret != "" && token == "" then Credential(id, secret, None)
    else if id != "" && secret != "" && token != "" then Credential(id, secret, Some(token))
    else Credential(defaultAK.0, defaultAK.1, Some(defaultAK.2))
  }

  /** A client: its endpoint and its key. */
  datatype Client = Client(endpoint: string, credential: Credential)

  // ---------------------------------------------------------------------
  // GetRAMRoleOption (pkg/oss/utils.go:63-68)

  /** The mount command with the RAM role's credentials URL as its
      `ram_role` option. */
  function RamRoleOption(mntCmd: string, ramRole: string): (r: string)
    ensures Strings.HasPrefix(r, mntCmd)
    ensures r[|mntCmd|..] == " -oram_role=" + MetadataURL + RAMRoleResource + ramRole
  {
    var r := mntCmd + " -oram_role=" + MetadataURL + RAMRoleResource + ramRole;
    assert r[..|mntCmd|] == mntCmd;
    r
  }

  // ---------------------------------------------------------------------
  // The node and the cloud

  /** A bucket tag. */
  datatype Tag = Tag(key: string, value: string)

  /** The tag of a bucket mounted by the driver. */
  const K8sTag := Tag(OssTagKey, OssTagValue)

  /** One call on the node, the metadata server or OSS. */
  datatype Call =
    | Run(line: string)                          // utils.Run
    | GetMetaData(resource: string)              // GET MetadataURL + resource
    | NewClient(client: Client)                  // oss.New
    | GetBucketTagging(bucket: string)
    | SetBucketTagging(bucket: string, tags: seq<Tag>)

  /** A reply: the output or body, the tags of a bucket, and the error
      text when the call failed. */
  datatype Reply = Reply(out: string, tags: seq<Tag>, err: Option<string>)

  /** The shell line that counts the ossfs mounts whose line matches
      `pattern`. */
  function MountCountLine(pattern: string): string {
    NsenterCmd + " mount | grep " + pattern + " | grep " + OssFsType + " | grep -v grep | wc -l"
  }

  /** The pattern of a volume's shared mount path. */
  function SharedPathPattern(pvName: string): string {
    "volumes/kubernetes.io~csi/" + pvName + "/mount"
  }

  /** The options of an OSS volume that the tagging reads. */
  datatype Options = Options(bucket: string, url: string, authType: string, akId: string, akSecret: string)

  /** Whether a tag list holds the driver's tag. */
  predicate HasK8sTag(tags: seq<Tag>) {
    exists i :: 0 <= i < |tags| && tags[i] == K8sTag
  }

  /** The loop over the bucket's tags: true exactly when one of them is
      the driver's tag. */
  method FindK8sTag(tags: seq<Tag>) returns (found: bool)
    ensures found <==> HasK8sTag(tags)
  {
    var i := 0;
    while i < |tags|
      invariant 0 <= i <= |tags|
      invariant forall j :: 0 <= j < i ==> tags[j] != K8sTag
    {
      if tags[i].key == OssTagKey && tags[i].value == OssTagValue {
        return true;
      }
      i := i + 1;
    }
    return false;
  }

  /** The calls tagOssAsK8sMounted makes, and the client it leaves in the
      global configuration (None when building it failed). */
  datatype Tagging = Tagging(calls: seq<Call>, client: Option<Client>)

  /** tagOssAsK8sMounted: an STS volume uses the node's key; the bucket is
      tagged unless it carries the tag already, keeping its other tags. */
  function TagEffect(answer: Call -> Reply, defaultAK: (string, string, string), option: Options): Tagging {
    var credential :=
      if option.authType == "sts" then ClientCredential("", "", "", defaultAK)
      else ClientCredential(option.akId, option.akSecret, "", defaultAK);
    var c0 := NewClient(Client(option.url, credential));
    if answer(c0).err.Some? then Tagging([c0], None)
    else
      var client := Some(Client(option.url, credential));
      var c1 := GetBucketTagging(option.bucket);
      var tagging := answer(c1);
      if tagging.err.Some? || HasK8sTag(tagging.tags) then Tagging([c0, c1], client)
      else Tagging([c0, c1, SetBucketTagging(option.bucket, tagging.tags + [K8sTag])], client)
  }

  /** A bucket that carries the tag is not written; otherwise it is set
      to its tags with the driver's tag after them, and that list carries
      the tag. An STS volume is never built with a custom key. */
  lemma TagMerge(answer: Call -> Reply, defaultAK: (string, string, string), option: Options)
    ensures var t := TagEffect(answer, defaultAK, option);
      var tags := answer(GetBucketTagging(option.bucket)).tags;
      && (forall i :: 0 <= i < |t.calls| ==> !t.calls[i].SetBucketTagging? || i == 2)
      && (|t.calls| == 3 <==> answer(t.calls[0]).err.None? && answer(GetBucketTagging(option.bucket)).err.None? && !HasK8sTag(tags))
      && (|t.calls| == 3 ==>
        && t.calls[2] == SetBucketTagging(option.bucket, tags + [K8sTag])
        && t.calls[2].tags[..|tags|] == tags
        && HasK8sTag(t.calls[2].tags))
      && (option.authType == "sts" ==> t.calls[0].client.credential == Credential(defaultAK.0, defaultAK.1, Some(defaultAK.2)))
  {
    var t := TagEffect(answer, defaultAK, option);
    var tags := answer(GetBucketTagging(option.bucket)).tags;
    if |t.calls| == 3 {
      assert (tags + [K8sTag])[|tags|] == K8sTag;
      assert (tags + [K8sTag])[..|tags|] == tags;
    }
  }

  class Oss {
    const answer: Call -> Reply
    /** utils.GetDefaultAK: the access key, secret and token of the node. */
    const defaultAK: (string, string, string)
    /** Every call made so far, in order. */
    var calls: seq<Call>
    /** GlobalConfigVar.OssClient. */
    var ossClient: Option<Client>

    constructor (answer: Call -> Reply, defaultAK: (string, string, string))
      ensures this.answer == answer && this.defaultAK == defaultAK && calls == [] && ossClient == None
    {
      this.answer := answer;
      this.defaultAK := defaultAK;
      calls := [];
      ossClient := None;
    }

    method Do(c: Call) returns (r: Reply)
      modifies this
      ensures calls == old(calls) + [c] && r == answer(c) && ossClient == old(ossClient)
    {
      calls := calls + [c];
      r := answer(c);
    }

    /** GetMetaData: the body of the metadata resource, "" on any error. */
    method GetMetaDataOf(resource: string) returns (r: string)
      modifies this
      ensures calls == old(calls) + [GetMetaData(resource)] && ossClient == old(ossClient)
      ensures r == if answer(GetMetaData(resource)).err.Some? then "" else answer(GetMetaData(resource)).out
    {
      var reply := Do(GetMetaData(resource));
      if reply.err.Some? {
        return "";
      }
      return reply.out;
    }

    /** GetRAMRoleOption: the node's RAM role, as the metadata server names
        it, appended to the mount command. */
    method GetRAMRoleOption(mntCmd: string) returns (r: string)
      modifies this
      ensures calls == old(calls) + [GetMetaData(RAMRoleResource)] && ossClient == old(ossClient)
      ensures var role := answer(GetMetaData(RAMRoleResource));
        r == RamRoleOption(mntCmd, if role.err.Some? then "" else role.out)
    {
      var ramRole := GetMetaDataOf(RAMRoleResource);
      r := RamRoleOption(mntCmd, ramRole);
    }

    /** IsOssfsMounted: false when the count fails or is "0". */
    method IsOssfsMounted(mountPath: string) returns (r: bool)
      modifies this
      ensures calls == old(calls) + [Run(MountCountLine(mountPath))] && ossClient == old(ossClient)
      ensures var o := answer(Run(MountCountLine(mountPath)));
        r <==> o.err.None? && Strings.TrimSpace(o.out) != "0"
    {
      var o := Do(Run(MountCountLine(mountPath)));
      if o.err.Some? {
        return false;
      }
      if Strings.TrimSpace(o.out) == "0" {
        return false;
      }
      return true;
    }

    /** IsLastSharedVol: the count of the volume's shared mounts, "0" with
        the error when counting fails. */
    method IsLastSharedVol(pvName: string) returns (count: string, err: Option<string>)
      modifies this
      ensures calls == old(calls) + [Run(MountCountLine(SharedPathPattern(pvName)))] && ossClient == old(ossClient)
      ensures var o := answer(Run(MountCountLine(SharedPathPattern(pvName))));
        && (o.err.Some? ==> count == "0" && err == o.err)
        && (o.err.None? ==> count == Strings.TrimSpace(o.out) && err.None?)
    {
      var o := Do(Run(MountCountLine(SharedPathPattern(pvName))));
      if o.err.Some? {
        return "0", o.err;
      }
      return Strings.TrimSpace(o.out), None;
    }

    /** newOSSClient. */
    method NewOSSClient(id: string, secret: string, token: string, endpoint: string) returns (r: Option<Client>)
      modifies this
      ensures var c := Client(endpoint, ClientCredential(id, secret, token, defaultAK));
        && calls == old(calls) + [NewClient(c)] && ossClient == old(ossClient)
        && r == if answer(NewClient(c)).err.Some? then None else Some(c)
    {
      var credential: Credential;
      if id != "" && secret != "" && token == "" {
        credential := Credential(id, secret, None);
      } else if id != "" && secret != "" && token != "" {
        credential := Credential(id, secret, Some(token));
      } else {
        credential := Credential(defaultAK.0, defaultAK.1, Some(defaultAK.2));
      }
      var c := Client(endpoint, credential);
      var reply := Do(NewClient(c));
      if reply.err.Some? {
        return None;
      }
      return Some(c);
    }

    method TagOssAsK8sMounted(option: Options)
      modifies this
      ensures calls == old(calls) + TagEffect(answer, defaultAK, option).calls
      ensures ossClient == TagEffect(answer, defaultAK, option).client
    {
      if option.authType == "sts" {
        ossClient := NewOSSClient("", "", "", option.url);
      } else {
        ossClient := NewOSSClient(option.akId, option.akSecret, "", option.url);
      }
      if ossClient.None? {
        return;
      }
      var tagging := Do(GetBucketTagging(option.bucket));
      if tagging.err.Some? {
        return;
      }
      var found := FindK8sTag(tagging.tags);
      if found {
        return;
      }
      var _ := Do(SetBucketTagging(option.bucket, tagging.tags + [K8sTag]));
    }
  }
}

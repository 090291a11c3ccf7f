/** The NAS node server (pkg/nas/nodeserver.go): NodePublishVolume reads
    the NFS options from the volume attributes and the mount flags,
    normalises the export path, the NFS version and the mount options, and
    mounts the export unless the target is mounted already;
    NodeUnpublishVolume unmounts; NodeExpandVolume sets a directory quota
    of whole GiB on the file system named by the server address.

    The node is consulted through `answer`, which gives the reply to a call
    from the calls made before it (the target is not mounted before the
    mount and is after it). */
module NasNode {
  import opened Wrappers
  import opened GoInt
  import opened Csi
  import Strings

  // ---------------------------------------------------------------------
  // Constants of the nas package (pkg/nas/nodeserver.go:75-90)

  const NasPortnum := "2049"
  /** The runtime class of a node that runs both runc and runv pods. */
  const MixRunTimeMode := "runc-runv"
  const RunvRunTimeMode := "runv"
  const PodNameKey := "csi.storage.k8s.io/pod.name"
  const PodNamespaceKey := "csi.storage.k8s.io/pod.namespace"
  const SecurityContextKey := "securityContext"
  const VolumeCapacityKey := "volumeCapacity"
  /** Servers in this domain are Extreme NAS, which speaks NFS v3 only. */
  const ExtremeDomain := "extreme.nas.aliyuncs.com"
  /** The mount options used for NFS v3 when none are given. */
  const DefaultV3Options := "nolock,proto=tcp,rsize=1048576,wsize=1048576,hard,timeo=600,retrans=2,noresvport"
  /** The mount options used for other versions when none are given. */
  const DefaultOtherOptions := "noresvport"
  /** utils.CsiPluginRunTimeFlagFile; pkg/utils is not part of this model. */
  const RunTimeFlagFile: string

  // ---------------------------------------------------------------------
  // The mount options

  /** The `Options` record NodePublishVolume fills. */
  datatype Options = Options(
    server: string, path: string, vers: string, mode: string, options: string, modeType: string,
    podName: string, podNamespace: string, securityContext: string, volumeCapacity: string)

  /** The options as the volume attributes give them: each field is the
      attribute of its name, "" when absent. */
  function ContextOptions(ctx: map<string, string>): Options {
    Options(
      Lookup(ctx, "server"), Lookup(ctx, "path"), Lookup(ctx, "vers"), Lookup(ctx, "mode"),
      Lookup(ctx, "options"), Lookup(ctx, "modeType"), Lookup(ctx, PodNameKey),
      Lookup(ctx, PodNamespaceKey), Lookup(ctx, SecurityContextKey), Lookup(ctx, VolumeCapacityKey))
  }

  /** The attribute `key` once the keys in `rest` are still to be read. */
  function Read(ctx: map<string, string>, rest: set<string>, key: string): string {
    if key in ctx && key !in rest then ctx[key] else ""
  }

  /** The options after reading every attribute but those in `rest`. */
  function ReadSoFar(ctx: map<string, string>, rest: set<string>): Options {
    Options(
      Read(ctx, rest, "server"), Read(ctx, rest, "path"), Read(ctx, rest, "vers"), Read(ctx, rest, "mode"),
      Read(ctx, rest, "options"), Read(ctx, rest, "modeType"), Read(ctx, rest, PodNameKey),
      Read(ctx, rest, PodNamespaceKey), Read(ctx, rest, SecurityContextKey), Read(ctx, rest, VolumeCapacityKey))
  }

  /** The loop over the volume attributes: whatever order the map is
      visited in, each field ends up holding the attribute of its name. */
  method ParseContext(ctx: map<string, string>) returns (opt: Options)
    ensures opt == ContextOptions(ctx)
  {
    opt := Options("", "", "", "", "", "", "", "", "", "");
    var rest := ctx.Keys;
    while rest != {}
      invariant rest <= ctx.Keys
      invariant opt == ReadSoFar(ctx, rest)
      decreases |rest|
    {
      var key :| key in rest;
      var value := ctx[key];
      if key == "server" {
        opt := opt.(server := value);
      } else if key == "path" {
        opt := opt.(path := value);
      } else if key == "vers" {
        opt := opt.(vers := value);
      } else if key == "mode" {
        opt := opt.(mode := value);
      } else if key == "options" {
        opt := opt.(options := value);
      } else if key == "modeType" {
        opt := opt.(modeType := value);
      } else if key == PodNameKey {
        opt := opt.(podName := value);
      } else if key == PodNamespaceKey {
        opt := opt.(podNamespace := value);
      } else if key == SecurityContextKey {
        opt := opt.(securityContext := value);
      } else if key == VolumeCapacityKey {
        opt := opt.(volumeCapacity := value);
      }
      rest := rest - {key};
    }
  }

  /** The version and the options parsed from the mount flags (when the
      capability is a mount) take the place of the attributes' values,
      each one only when it is not empty. */
  function FlagOptions(opt: Options, mountFlags: Option<seq<string>>, parse: seq<string> -> (string, string)): (r: Options)
    ensures mountFlags.None? ==> r == opt
    ensures mountFlags.Some? ==>
      var (vers, options) := parse(mountFlags.value);
      && r.vers == (if vers != "" then vers else opt.vers)
      && r.options == (if options != "" then options else opt.options)
    ensures r.(vers := opt.vers, options := opt.options) == opt
  {
    if mountFlags.None? then opt
    else
      var (vers, options) := parse(mountFlags.value);
      var o := if vers != "" then opt.(vers := vers) else opt;
      if options != "" then o.(options := options) else o
  }

  /** The export path: "/" when empty, otherwise one trailing "/" dropped
      unless the path is the root. */
  function NormalPath(path: string): (r: string)
    ensures r != ""
    ensures path == "" ==> r == "/"
    ensures path != "" && path != "/" && Strings.HasSuffix(path, "/") ==> r == path[..|path| - 1]
    ensures path != "" && (path == "/" || !Strings.HasSuffix(path, "/")) ==> r == path
  {
    var p := if path == "" then "/" else path;
    if p != "/" && Strings.HasSuffix(p, "/") then p[..|p| - 1] else p
  }

  /** Only one trailing "/" is dropped: "<p>//" becomes "<p>/", and a
      non-empty "<p>/" becomes "<p>". */
  lemma NormalPathDropsOneSlash(p: string)
    ensures NormalPath(p + "//") == p + "/"
    ensures p != "" ==> NormalPath(p + "/") == p
  {
    var twice := p + "//";
    assert twice[|twice| - 1..] == "/";
    assert twice[..|twice| - 1] == p + "/";
    var once := p + "/";
    assert once[|once| - 1..] == "/";
    assert once[..|once| - 1] == p;
  }

  /** The NFS version: "" and "3.0" mean "3", and "4" means "4.0". */
  function NormalVers(vers: string): (r: string)
    ensures vers in {"", "3", "3.0"} ==> r == "3"
    ensures vers == "4" ==> r == "4.0"
    ensures vers !in {"", "3.0", "4"} ==> r == vers
  {
    var v := if vers == "" then "3" else vers;
    if v == "3.0" then "3" else if v == "4" then "4.0" else v
  }

  /** Normalising a normalised version changes nothing. */
  lemma NormalVersIdempotent(vers: string)
    ensures NormalVers(NormalVers(vers)) == NormalVers(vers)
  {
  }

  /** The mount options: the default of the version when empty, and
      nothing at all when they are "none" in any letter case. */
  function DefaultedOptions(options: string, vers: string): (r: string)
    ensures options == "" && vers == "3" ==> r == DefaultV3Options
    ensures options == "" && vers != "3" ==> r == DefaultOtherOptions
    ensures options != "" && Strings.ToLower(options) == "none" ==> r == ""
    ensures options != "" && Strings.ToLower(options) != "none" ==> r == options
  {
    if options == "" then (if vers == "3" then DefaultV3Options else DefaultOtherOptions)
    else if Strings.ToLower(options) == "none" then ""
    else options
  }

  /** The options that reach the mount never spell "none". */
  lemma DefaultedOptionsNeverNone(options: string, vers: string)
    ensures Strings.ToLower(DefaultedOptions(options, vers)) != "none"
  {
    var r := DefaultedOptions(options, vers);
    if options == "" {
      assert |Strings.ToLower(r)| == |r| && |r| > 4;
    } else if Strings.ToLower(options) == "none" {
      assert |Strings.ToLower(r)| == 0;
    }
  }

  /** The checks and rewrites that follow the connection check. */
  function Normalized(opt: Options): (r: Result<Options, Error>)
    ensures var path := NormalPath(opt.path);
      var vers := NormalVers(opt.vers);
      && (r.Err? <==>
        (path == "/" && opt.mode != "") || !Strings.HasPrefix(path, "/")
        || (Strings.Contains(opt.server, ExtremeDomain) && vers != "3"))
      && (path == "/" && opt.mode != "" ==> r == Err(Plain("NAS: root directory cannot set mode: " + opt.mode)))
      && (r.Ok? ==>
        && r.value == opt.(path := path, vers := vers, options := DefaultedOptions(opt.options, vers))
        && Strings.HasPrefix(r.value.path, "/")
        && (r.value.path == "/" ==> r.value.mode == "")
        && (Strings.Contains(r.value.server, ExtremeDomain) ==> r.value.vers == "3"))
  {
    var path := NormalPath(opt.path);
    var vers := NormalVers(opt.vers);
    if path == "/" && opt.mode != "" then Err(Plain("NAS: root directory cannot set mode: " + opt.mode))
    else if !Strings.HasPrefix(path, "/") then Err(Plain("the path format is illegal"))
    else if Strings.Contains(opt.server, ExtremeDomain) && vers != "3" then
      Err(Plain("Extreme nas only support nfs v3 " + opt.server))
    else Ok(opt.(path := path, vers := vers, options := DefaultedOptions(opt.options, vers)))
  }

  /** The in-place rewrites of NodePublishVolume, one after the other. */
  method NormalizeOptions(opt: Options) returns (r: Result<Options, Error>)
    ensures r == Normalized(opt)
  {
    var o := opt;
    if o.path == "" {
      o := o.(path := "/");
    }
    if o.path != "/" && Strings.HasSuffix(o.path, "/") {
      o := o.(path := o.path[..|o.path| - 1]);
    }
    if o.path == "/" && o.mode != "" {
      return Err(Plain("NAS: root directory cannot set mode: " + o.mode));
    }
    if !Strings.HasPrefix(o.path, "/") {
      return Err(Plain("the path format is illegal"));
    }
    if o.vers == "" {
      o := o.(vers := "3");
    }
    if o.vers == "3.0" {
      o := o.(vers := "3");
    } else if o.vers == "4" {
      o := o.(vers := "4.0");
    }
    if Strings.Contains(o.server, ExtremeDomain) {
      if o.vers != "3" {
        return Err(Plain("Extreme nas only support nfs v3 " + o.server));
      }
    }
    if o.options == "" {
      if o.vers == "3" {
        o := o.(options := DefaultV3Options);
      } else {
        o := o.(options := DefaultOtherOptions);
      }
    } else if Strings.ToLower(o.options) == "none" {
      o := o.(options := "");
    }
    return Ok(o);
  }

  // ---------------------------------------------------------------------
  // The node host

  /** What the runv branch writes into the target for the runv runtime. */
  datatype RunvOptions = RunvOptions(
    options: string, server: string, modeType: string, mode: string, vers: string, path: string,
    runTime: string, volumeType: string, mountFile: string)

  /** The SetDirQuota request of resizeNasVolume. */
  datatype QuotaRequest = QuotaRequest(
    fileSystemId: string, path: string, userType: string, quotaType: string, sizeLimit: string, regionId: string)

  /** One call on the node or on the cloud. */
  datatype Action =
    | PodRunTime(volumeContext: map<string, string>)  // utils.GetPodRunTime
    | CreateDest(path: string)                         // utils.CreateDest
    | WriteRunvFile(file: string, runv: RunvOptions)   // utils.WriteJosnFile
    | Dial(address: string)                            // net.DialTimeout("tcp", ...)
    | IsMounted(path: string)                          // utils.IsMounted
    | CheckNasConfig                                   // checkSystemNasConfig
    | NfsMount(server: string, path: string, vers: string, options: string, mountPath: string, volumeId: string)
    | Run(line: string)                                // utils.Run
    | IsMountPointRunv(path: string)                   // utils.IsMountPointRunv
    | Remove(path: string)                             // os.Remove
    | SetDirQuota(request: QuotaRequest)               // nasClient.SetDirQuota

  /** A reply: the text a call returns (the pod's runtime), the boolean it
      returns, and the error text when it failed. */
  datatype Reply = Reply(out: string, yes: bool, err: Option<string>)

  /** The reply to a call, given the calls made before it. */
  type Answer = (seq<Action>, Action) -> Reply

  /** The calls a piece of code makes, in order, and what it returns. */
  datatype Effect = Effect(actions: seq<Action>, result: Result<(), Error>)

  /** The calls a stage makes, and the handler's answer when the stage
      ends the call (None when the handler goes on). */
  datatype Stage = Stage(actions: seq<Action>, done: Option<Result<(), Error>>)

  /** No call in `s` mounts anything or creates a directory. */
  predicate NoMount(s: seq<Action>) {
    forall i :: 0 <= i < |s| ==> !s[i].NfsMount? && !s[i].CreateDest?
  }

  lemma NoMountConcat(s: seq<Action>, t: seq<Action>)
    requires NoMount(s) && NoMount(t)
    ensures NoMount(s + t)
  {
    forall i | 0 <= i < |s + t|
      ensures !(s + t)[i].NfsMount? && !(s + t)[i].CreateDest?
    {
      if i >= |s| {
        assert (s + t)[i] == t[i - |s|];
      }
    }
  }

  /** `filepath.Join` of a directory and a file name. */
  function PathJoin(dir: string, name: string): string {
    dir + "/" + name
  }

  /** The runv record: the options as given, before any normalisation. */
  function RunvOf(opt: Options, file: string): (r: RunvOptions)
    ensures r.server == opt.server && r.path == opt.path && r.vers == opt.vers && r.options == opt.options
    ensures r.mode == opt.mode && r.modeType == opt.modeType
    ensures r.runTime == RunvRunTimeMode && r.volumeType == "nfs" && r.mountFile == file
  {
    RunvOptions(opt.options, opt.server, opt.modeType, opt.mode, opt.vers, opt.path, "runv", "nfs", file)
  }

  /** The chmod line for a volume with a mode. */
  function ChmodLine(mode: string, modeType: string, mountPath: string): string {
    if modeType == "recursive" then "chmod -R " + mode + " " + mountPath
    else "chmod " + mode + " " + mountPath
  }

  // ---------------------------------------------------------------------
  // NodePublishVolume (pkg/nas/nodeserver.go:109-287)

  /** The publish request, as far as the handler reads it; `mountFlags` is
      None unless the capability is a mount. */
  datatype PublishRequest = PublishRequest(
    volumeId: string, targetPath: string, volumeContext: map<string, string>, mountFlags: Option<seq<string>>)

  /** The runv branch: on a mixed-runtime node a runv pod gets a file of
      options in its target instead of a mount. */
  function RunvStage(answer: Answer, h: seq<Action>, mixed: bool, req: PublishRequest, opt: Options): (r: Stage)
    ensures NoMount(r.actions) || (mixed && r.done.Some?)
  {
    if !mixed then Stage([], None)
    else
      var a0 := PodRunTime(req.volumeContext);
      var rt := answer(h, a0);
      if rt.err.Some? then
        Stage([a0], Some(Err(Status(Internal, "NodePublishVolume: cannot get pod runtime: " + rt.err.value))))
      else if rt.out != RunvRunTimeMode then Stage([a0], None)
      else
        var a1 := CreateDest(req.targetPath);
        var cd := answer(h + [a0], a1);
        if cd.err.Some? then
          Stage([a0, a1], Some(Err(Plain("NodePublishVolume: create dest directory error: " + cd.err.value))))
        else
          var file := PathJoin(req.targetPath, RunTimeFlagFile);
          var a2 := WriteRunvFile(file, RunvOf(opt, file));
          var w := answer(h + [a0, a1], a2);
          Stage([a0, a1, a2],
            Some(if w.err.Some? then Err(Plain("NodePublishVolume: Write Josn File error: " + w.err.value)) else Ok(())))
  }

  /** The target and server checks, then the connection check on the NFS
      port. */
  function ConnectStage(answer: Answer, h: seq<Action>, mountPath: string, server: string): (r: Stage)
    ensures NoMount(r.actions)
  {
    if mountPath == "" then Stage([], Some(Err(Plain("mountPath is empty"))))
    else if server == "" then Stage([], Some(Err(Plain("host is empty, should input nas domain"))))
    else
      var a := Dial(server + ":" + NasPortnum);
      if answer(h, a).err.Some? then Stage([a], Some(Err(Plain("NAS: Cannot connect to nas host: " + server))))
      else Stage([a], None)
  }

  /** The mount itself, for normalised options. */
  function MountStage(answer: Answer, h: seq<Action>, req: PublishRequest, opt: Options): Effect {
    var mp := req.targetPath;
    var a0 := IsMounted(mp);
    if answer(h, a0).yes then Effect([a0], Ok(()))
    else
      var a1 := CheckNasConfig;
      var a2 := CreateDest(mp);
      var cd := answer(h + [a0, a1], a2);
      if cd.err.Some? then Effect([a0, a1, a2], Err(Plain("Nas, Mount error with create Path fail: " + mp)))
      else
        var a3 := NfsMount(opt.server, opt.path, opt.vers, opt.options, mp, req.volumeId);
        var m := answer(h + [a0, a1, a2], a3);
        if m.err.Some? then Effect([a0, a1, a2, a3], Err(Plain("Nas, Mount Nfs error: " + m.err.value)))
        else
          var chmod := if opt.mode != "" && opt.path != "/" then [Run(ChmodLine(opt.mode, opt.modeType, mp))] else [];
          var pre := [a0, a1, a2, a3] + chmod;
          if !answer(h + pre, a0).yes then Effect(pre + [a0], Err(Plain("Check mount fail after mount:" + mp)))
          else Effect(pre + [a0], Ok(()))
  }

  /** NodePublishVolume. */
  function PublishEffect(answer: Answer, h: seq<Action>, mixed: bool, parse: seq<string> -> (string, string),
                         req: PublishRequest): Effect {
    var opt := FlagOptions(ContextOptions(req.volumeContext), req.mountFlags, parse);
    var s1 := RunvStage(answer, h, mixed, req, opt);
    if s1.done.Some? then Effect(s1.actions, s1.done.value)
    else
      var s2 := ConnectStage(answer, h + s1.actions, req.targetPath, opt.server);
      if s2.done.Some? then Effect(s1.actions + s2.actions, s2.done.value)
      else
        var n := Normalized(opt);
        if n.Err? then Effect(s1.actions + s2.actions, Err(n.error))
        else
          var m := MountStage(answer, h + s1.actions + s2.actions, req, n.value);
          Effect(s1.actions + s2.actions + m.actions, m.result)
  }

  /** A target found mounted is reported published with nothing mounted
      or created; otherwise the export is mounted with the normalised
      options. */
  lemma PublishAlreadyMounted(answer: Answer, h: seq<Action>, mixed: bool, parse: seq<string> -> (string, string),
                              req: PublishRequest)
    requires !mixed
    requires var opt := FlagOptions(ContextOptions(req.volumeContext), req.mountFlags, parse);
      && req.targetPath != "" && opt.server != ""
      && answer(h, Dial(opt.server + ":" + NasPortnum)).err.None?
      && Normalized(opt).Ok?
    ensures var e := PublishEffect(answer, h, mixed, parse, req);
      var opt := FlagOptions(ContextOptions(req.volumeContext), req.mountFlags, parse);
      var pre := h + [Dial(opt.server + ":" + NasPortnum)];
      && (answer(pre, IsMounted(req.targetPath)).yes ==> e.result == Ok(()) && NoMount(e.actions))
      && (!answer(pre, IsMounted(req.targetPath)).yes && answer(pre + [IsMounted(req.targetPath), CheckNasConfig], CreateDest(req.targetPath)).err.None? ==>
        var o := Normalized(opt).value;
        |e.actions| > 4 && e.actions[4] == NfsMount(o.server, o.path, o.vers, o.options, req.targetPath, req.volumeId))
  {
    var opt := FlagOptions(ContextOptions(req.volumeContext), req.mountFlags, parse);
    var d := Dial(opt.server + ":" + NasPortnum);
    var pre := h + [d];
    var m := MountStage(answer, pre, req, Normalized(opt).value);
    PublishReachesMount(answer, h, parse, req);
    MountStageShape(answer, pre, req, Normalized(opt).value);
    if answer(pre, IsMounted(req.targetPath)).yes {
      NoMountConcat([d], m.actions);
    } else if answer(pre + [IsMounted(req.targetPath), CheckNasConfig], CreateDest(req.targetPath)).err.None? {
      assert ([d] + m.actions)[4] == m.actions[3];
    }
  }

  /** A mounted target ends the mount stage at once; otherwise, once the
      target directory exists, the fourth call is the NFS mount. */
  lemma MountStageShape(answer: Answer, h: seq<Action>, req: PublishRequest, o: Options)
    ensures var m := MountStage(answer, h, req, o);
      && (answer(h, IsMounted(req.targetPath)).yes ==> m == Effect([IsMounted(req.targetPath)], Ok(())))
      && (!answer(h, IsMounted(req.targetPath)).yes && answer(h + [IsMounted(req.targetPath), CheckNasConfig], CreateDest(req.targetPath)).err.None? ==>
            |m.actions| >= 4 && m.actions[3] == NfsMount(o.server, o.path, o.vers, o.options, req.targetPath, req.volumeId))
  {
  }

  /** With a target, a reachable server and options that normalise, a node
      that is not mixed-runtime dials and then runs the mount stage. */
  lemma PublishReachesMount(answer: Answer, h: seq<Action>, parse: seq<string> -> (string, string), req: PublishRequest)
    requires var opt := FlagOptions(ContextOptions(req.volumeContext), req.mountFlags, parse);
      && req.targetPath != "" && opt.server != ""
      && answer(h, Dial(opt.server + ":" + NasPortnum)).err.None?
      && Normalized(opt).Ok?
    ensures var opt := FlagOptions(ContextOptions(req.volumeContext), req.mountFlags, parse);
      var d := Dial(opt.server + ":" + NasPortnum);
      var m := MountStage(answer, h + [d], req, Normalized(opt).value);
      PublishEffect(answer, h, false, parse, req) == Effect([d] + m.actions, m.result)
  {
    var opt := FlagOptions(ContextOptions(req.volumeContext), req.mountFlags, parse);
    var s1 := RunvStage(answer, h, false, req, opt);
    assert s1.actions == [] && h + s1.actions == h;
    var s2 := ConnectStage(answer, h, req.targetPath, opt.server);
    assert s2.actions == [Dial(opt.server + ":" + NasPortnum)];
    assert s1.actions + s2.actions == s2.actions;
  }

  /** The checks come in the source's order: a missing target, then a
      missing server, then an unreachable server, each before anything is
      dialled or mounted; on a node that is not mixed-runtime that is the
      first thing that can fail. */
  lemma PublishCheckOrder(answer: Answer, h: seq<Action>, parse: seq<string> -> (string, string), req: PublishRequest)
    ensures var e := PublishEffect(answer, h, false, parse, req);
      var opt := FlagOptions(ContextOptions(req.volumeContext), req.mountFlags, parse);
      && (req.targetPath == "" ==> e == Effect([], Err(Plain("mountPath is empty"))))
      && (req.targetPath != "" && opt.server == "" ==> e == Effect([], Err(Plain("host is empty, should input nas domain"))))
      && (req.targetPath != "" && opt.server != "" && answer(h, Dial(opt.server + ":" + NasPortnum)).err.Some? ==>
        e == Effect([Dial(opt.server + ":" + NasPortnum)], Err(Plain("NAS: Cannot connect to nas host: " + opt.server))))
      && (NoMount(e.actions) || e.result.Ok? || (e.result.Err? && e.result.error.Plain? &&
        (Strings.HasPrefix(e.result.error.msg, "Nas, Mount") || Strings.HasPrefix(e.result.error.msg, "Check mount"))))
  {
    PublishEarlyChecks(answer, h, parse, req);
    PublishMountFailures(answer, h, parse, req);
  }

  /** The checks before any mount, in order, on a node that is not
      mixed-runtime. */
  lemma PublishEarlyChecks(answer: Answer, h: seq<Action>, parse: seq<string> -> (string, string), req: PublishRequest)
    ensures var e := PublishEffect(answer, h, false, parse, req);
      var opt := FlagOptions(ContextOptions(req.volumeContext), req.mountFlags, parse);
      && (req.targetPath == "" ==> e == Effect([], Err(Plain("mountPath is empty"))))
      && (req.targetPath != "" && opt.server == "" ==> e == Effect([], Err(Plain("host is empty, should input nas domain"))))
      && (req.targetPath != "" && opt.server != "" && answer(h, Dial(opt.server + ":" + NasPortnum)).err.Some? ==>
        e == Effect([Dial(opt.server + ":" + NasPortnum)], Err(Plain("NAS: Cannot connect to nas host: " + opt.server))))
  {
    var opt := FlagOptions(ContextOptions(req.volumeContext), req.mountFlags, parse);
    var s1 := RunvStage(answer, h, false, req, opt);
    assert s1.actions == [] && h + s1.actions == h;
    var s2 := ConnectStage(answer, h, req.targetPath, opt.server);
    assert s1.actions + s2.actions == s2.actions;
  }

  /** Every failure of the mount stage is a mount error. */
  lemma MountStageFailures(answer: Answer, h: seq<Action>, req: PublishRequest, opt: Options)
    ensures var m := MountStage(answer, h, req, opt);
      m.result.Err? ==>
        m.result.error.Plain? &&
        (Strings.HasPrefix(m.result.error.msg, "Nas, Mount") || Strings.HasPrefix(m.result.error.msg, "Check mount"))
  {
    var m := MountStage(answer, h, req, opt);
    if m.result.Err? {
      var msg := m.result.error.msg;
      assert msg[..10] == "Nas, Mount" || msg[..11] == "Check mount";
    }
  }

  /** Once a mount has been issued, Publish fails only with a mount error. */
  lemma PublishMountFailures(answer: Answer, h: seq<Action>, parse: seq<string> -> (string, string), req: PublishRequest)
    ensures var e := PublishEffect(answer, h, false, parse, req);
      NoMount(e.actions) || e.result.Ok? || (e.result.Err? && e.result.error.Plain? &&
        (Strings.HasPrefix(e.result.error.msg, "Nas, Mount") || Strings.HasPrefix(e.result.error.msg, "Check mount")))
  {
    var opt := FlagOptions(ContextOptions(req.volumeContext), req.mountFlags, parse);
    var e := PublishEffect(answer, h, false, parse, req);
    var s1 := RunvStage(answer, h, false, req, opt);
    assert s1.actions == [] && h + s1.actions == h;
    var s2 := ConnectStage(answer, h, req.targetPath, opt.server);
    assert s1.actions + s2.actions == s2.actions;
    if s2.done.None? && Normalized(opt).Ok? {
      MountStageFailures(answer, h + s2.actions, req, Normalized(opt).value);
      assert e.result == MountStage(answer, h + s2.actions, req, Normalized(opt).value).result;
    } else {
      assert e.actions == s2.actions;
    }
  }

  /** A runv pod on a mixed-runtime node gets the options as given (the
      mount flags applied, nothing normalised) and is never dialled or
      mounted. */
  lemma PublishRunv(answer: Answer, h: seq<Action>, parse: seq<string> -> (string, string), req: PublishRequest)
    requires answer(h, PodRunTime(req.volumeContext)) == Reply(RunvRunTimeMode, answer(h, PodRunTime(req.volumeContext)).yes, None)
    requires answer(h + [PodRunTime(req.volumeContext)], CreateDest(req.targetPath)).err.None?
    ensures var e := PublishEffect(answer, h, true, parse, req);
      var opt := FlagOptions(ContextOptions(req.volumeContext), req.mountFlags, parse);
      var file := PathJoin(req.targetPath, RunTimeFlagFile);
      && e.actions == [PodRunTime(req.volumeContext), CreateDest(req.targetPath), WriteRunvFile(file, RunvOf(opt, file))]
      && e.actions[2].runv.path == Lookup(req.volumeContext, "path")
      && e.actions[2].runv.server == Lookup(req.volumeContext, "server")
  {
  }

  // ---------------------------------------------------------------------
  // NodeUnpublishVolume (pkg/nas/nodeserver.go:289-314)

  /** Unmounting a target that is an NFS mount point. */
  function UmountEffect(answer: Answer, h: seq<Action>, targetPath: string): Effect {
    var a0 := IsMounted(targetPath);
    if !answer(h, a0).yes then Effect([a0], Ok(()))
    else
      var a1 := Run("umount " + targetPath);
      var u := answer(h + [a0], a1);
      Effect([a0, a1], if u.err.Some? then Err(Plain("Nas, Umount nfs Fail: " + u.err.value)) else Ok(()))
  }

  /** NodeUnpublishVolume: a runv target on a mixed-runtime node has its
      options file removed; any other target is unmounted when mounted. */
  function UnpublishEffect(answer: Answer, h: seq<Action>, mixed: bool, targetPath: string): (r: Effect)
    ensures !mixed ==> r == UmountEffect(answer, h, targetPath)
  {
    if mixed && answer(h, IsMountPointRunv(targetPath)).yes then
      var a0 := IsMountPointRunv(targetPath);
      var a1 := Remove(PathJoin(targetPath, RunTimeFlagFile));
      var rm := answer(h + [a0], a1);
      Effect([a0, a1],
        if rm.err.Some? then Err(Status(InvalidArgument, "NodeUnpublishVolume(runv): Remove local file with error " + rm.err.value))
        else Ok(()))
    else if mixed then After([IsMountPointRunv(targetPath)], UmountEffect(answer, h + [IsMountPointRunv(targetPath)], targetPath))
    else UmountEffect(answer, h, targetPath)
  }

  /** `e`, preceded by the calls in `pre`. */
  function After(pre: seq<Action>, e: Effect): (r: Effect)
    ensures r.result == e.result && r.actions == pre + e.actions
  {
    Effect(pre + e.actions, e.result)
  }

  /** An unmounted target is left alone; a mounted one is unmounted once,
      by its own path, and nothing else runs. */
  lemma UnpublishCases(answer: Answer, h: seq<Action>, targetPath: string)
    ensures var e := UnpublishEffect(answer, h, false, targetPath);
      && (!answer(h, IsMounted(targetPath)).yes ==> e == Effect([IsMounted(targetPath)], Ok(())))
      && (answer(h, IsMounted(targetPath)).yes ==> e.actions == [IsMounted(targetPath), Run("umount " + targetPath)])
      && (e.result.Err? ==> e.result.error.Plain? && Strings.HasPrefix(e.result.error.msg, "Nas, Umount nfs Fail: "))
  {
    var e := UnpublishEffect(answer, h, false, targetPath);
    if e.result.Err? {
      var m := e.result.error.msg;
      assert m[..22] == "Nas, Umount nfs Fail: ";
    }
  }

  // ---------------------------------------------------------------------
  // NodeExpandVolume and resizeNasVolume (pkg/nas/nodeserver.go:330-385)

  /** The file system id: the server address before its first "-". */
  function FsId(server: string): string {
    Strings.Split(server, "-")[0]
  }

  /** A server "<id>-<rest>" with a dash-free id names file system <id>;
      a server without a dash names itself. */
  lemma FsIdBeforeDash(id: string, rest: string)
    ensures !Strings.Contains(id, "-") ==> FsId(id + "-" + rest) == id && FsId(id) == id
  {
    if !Strings.Contains(id, "-") {
      Strings.SplitHead(id, "-", rest);
    }
  }

  /** resizeNasVolume: the PV must be a CSI volume with `server` and `path`
      attributes; the quota is set on the directory of the export. */
  function ResizeEffect(answer: Answer, h: seq<Action>, pv: Result<PersistentVolume, Error>, sizeGB: int, region: string): Effect {
    if pv.Err? then Effect([], Err(pv.error))
    else if pv.value.csi.None? then Effect([], Err(Plain("CSI empty")))
    else
      var attrs := pv.value.csi.value.volumeAttributes;
      if "server" !in attrs then Effect([], Err(Plain("Pv object no server")))
      else if "path" !in attrs then Effect([], Err(Plain("Pv object no path")))
      else
        var fsList := Strings.Split(attrs["server"], "-");
        if |fsList| < 1 then Effect([], Err(Plain("error nas endpoint")))
        else
          var q := QuotaRequest(fsList[0], attrs["path"], "AllUsers", "Enforcement", Strings.IntToString(sizeGB), region);
          var a := SetDirQuota(q);
          Effect([a], if answer(h, a).err.Some? then Err(Plain("error nas set quota")) else Ok(()))
  }

  /** NodeExpandVolume: the size in whole GiB, rounded toward zero; any
      error of the resize is returned as Internal. */
  function ExpandEffect(answer: Answer, h: seq<Action>, pv: Result<PersistentVolume, Error>,
                        requiredBytes: int64, region: string): Effect {
    var e := ResizeEffect(answer, h, pv, GoDiv(requiredBytes, GiB), region);
    Effect(e.actions, if e.result.Err? then Err(Status(Internal, ErrorText(e.result.error))) else Ok(()))
  }

  /** Expanding a PV without `server` or `path` fails before any cloud call;
      otherwise exactly one quota of floor(bytes / GiB) GiB is set on the
      file system before the first "-" of the server, at the attribute
      path; every failure is Internal. */
  lemma ExpandQuota(answer: Answer, h: seq<Action>, pv: Result<PersistentVolume, Error>, requiredBytes: int64, region: string)
    requires requiredBytes >= 0
    ensures var e := ExpandEffect(answer, h, pv, requiredBytes, region);
      && (e.result.Err? ==> e.result.error.Status? && e.result.error.code == Internal)
      && (pv.Ok? && pv.value.csi.Some? && ("server" !in pv.value.csi.value.volumeAttributes || "path" !in pv.value.csi.value.volumeAttributes) ==>
        e.actions == [] && e.result.Err?)
      && (pv.Ok? && pv.value.csi.Some? && "server" in pv.value.csi.value.volumeAttributes && "path" in pv.value.csi.value.volumeAttributes ==>
        var attrs := pv.value.csi.value.volumeAttributes;
        var gb := requiredBytes / GiB;
        && gb * GiB <= requiredBytes < (gb + 1) * GiB
        && e.actions == [SetDirQuota(QuotaRequest(FsId(attrs["server"]), attrs["path"], "AllUsers", "Enforcement", Strings.IntToString(gb), region))])
  {
  }

  // ---------------------------------------------------------------------
  // The node server

  /** Node service capabilities (CSI NodeServiceCapability.RPC.Type). */
  datatype NodeCapability = GetVolumeStats | ExpandVolume

  /** The capabilities NodeGetCapabilities reports: expansion, and volume
      statistics as well when metrics are enabled. */
  function NodeCapabilities(metricEnable: bool): (r: seq<NodeCapability>)
    ensures ExpandVolume in r && |r| == if metricEnable then 2 else 1
    ensures GetVolumeStats in r <==> metricEnable
  {
    if metricEnable then [GetVolumeStats, ExpandVolume] else [ExpandVolume]
  }

  class NodeServer {
    const answer: Answer
    /** GlobalConfigVar.RunTimeClass. */
    const runTimeClass: string
    /** GlobalConfigVar.MetricEnable. */
    const metricEnable: bool
    /** ParseMountFlags: the version and the options in a list of mount
        flags (defined outside pkg/nas/nodeserver.go). */
    const parseMountFlags: seq<string> -> (string, string)
    /** getPvObj: the PersistentVolume of a volume id. */
    const pvObj: string -> Result<PersistentVolume, Error>
    /** The node's region, from the metadata server. */
    const region: string
    /** Every call made so far, in order. */
    var actions: seq<Action>

    constructor (answer: Answer, runTimeClass: string, metricEnable: bool, parseMountFlags: seq<string> -> (string, string),
                 pvObj: string -> Result<PersistentVolume, Error>, region: string)
      ensures this.answer == answer && this.runTimeClass == runTimeClass && this.metricEnable == metricEnable
      ensures this.parseMountFlags == parseMountFlags && this.pvObj == pvObj && this.region == region
      ensures actions == []
    {
      this.answer := answer;
      this.runTimeClass := runTimeClass;
      this.metricEnable := metricEnable;
      this.parseMountFlags := parseMountFlags;
      this.pvObj := pvObj;
      this.region := region;
      actions := [];
    }

    predicate Mixed() {
      runTimeClass == MixRunTimeMode
    }

    method Do(a: Action) returns (r: Reply)
      modifies this
      ensures actions == old(actions) + [a] && r == answer(old(actions), a)
    {
      r := answer(actions, a);
      actions := actions + [a];
    }

    method NodePublishVolume(req: PublishRequest) returns (r: Result<(), Error>)
      modifies this
      ensures actions == old(actions) + PublishEffect(answer, old(actions), Mixed(), parseMountFlags, req).actions
      ensures r == PublishEffect(answer, old(actions), Mixed(), parseMountFlags, req).result
    {
      ghost var start := actions;
      var opt := ParseContext(req.volumeContext);
      if req.mountFlags.Some? {
        var (vers, options) := parseMountFlags(req.mountFlags.value);
        if vers != "" {
          opt := opt.(vers := vers);
        }
        if options != "" {
          opt := opt.(options := options);
        }
      }
      assert opt == FlagOptions(ContextOptions(req.volumeContext), req.mountFlags, parseMountFlags);
      ghost var s1 := RunvStage(answer, start, Mixed(), req, opt);
      var d1 := RunvBranch(req, opt);
      if d1.Some? {
        return d1.value;
      }
      ghost var s2 := ConnectStage(answer, start + s1.actions, req.targetPath, opt.server);
      var d2 := CheckConnection(req.targetPath, opt.server);
      AppendAssoc(start, s1.actions, s2.actions);
      if d2.Some? {
        return d2.value;
      }
      var n := NormalizeOptions(opt);
      if n.Err? {
        return Err(n.error);
      }
      ghost var m := MountStage(answer, start + s1.actions + s2.actions, req, n.value);
      r := MountNfs(req, n.value);
      AppendAssoc(start, s1.actions + s2.actions, m.actions);
    }

    method RunvBranch(req: PublishRequest, opt: Options) returns (d: Option<Result<(), Error>>)
      modifies this
      ensures actions == old(actions) + RunvStage(answer, old(actions), Mixed(), req, opt).actions
      ensures d == RunvStage(answer, old(actions), Mixed(), req, opt).done
    {
      if runTimeClass != MixRunTimeMode {
        return None;
      }
      ghost var start := actions;
      var rt := Do(PodRunTime(req.volumeContext));
      if rt.err.Some? {
        return Some(Err(Status(Internal, "NodePublishVolume: cannot get pod runtime: " + rt.err.value)));
      }
      if rt.out != RunvRunTimeMode {
        return None;
      }
      var cd := Do(CreateDest(req.targetPath));
      if cd.err.Some? {
        return Some(Err(Plain("NodePublishVolume: create dest directory error: " + cd.err.value)));
      }
      var file := PathJoin(req.targetPath, RunTimeFlagFile);
      var runv := RunvOf(opt, file);
      assert actions == start + [PodRunTime(req.volumeContext), CreateDest(req.targetPath)];
      var w := Do(WriteRunvFile(file, runv));
      if w.err.Some? {
        return Some(Err(Plain("NodePublishVolume: Write Josn File error: " + w.err.value)));
      }
      return Some(Ok(()));
    }

    method CheckConnection(mountPath: string, server: string) returns (d: Option<Result<(), Error>>)
      modifies this
      ensures actions == old(actions) + ConnectStage(answer, old(actions), mountPath, server).actions
      ensures d == ConnectStage(answer, old(actions), mountPath, server).done
    {
      if mountPath == "" {
        return Some(Err(Plain("mountPath is empty")));
      }
      if server == "" {
        return Some(Err(Plain("host is empty, should input nas domain")));
      }
      var conn := Do(Dial(server + ":" + NasPortnum));
      if conn.err.Some? {
        return Some(Err(Plain("NAS: Cannot connect to nas host: " + server)));
      }
      return None;
    }

    method MountNfs(req: PublishRequest, opt: Options) returns (r: Result<(), Error>)
      modifies this
      ensures actions == old(actions) + MountStage(answer, old(actions), req, opt).actions
      ensures r == MountStage(answer, old(actions), req, opt).result
    {
      ghost var start := actions;
      var mountPath := req.targetPath;
      var mounted := Do(IsMounted(mountPath));
      if mounted.yes {
        return Ok(());
      }
      var _ := Do(CheckNasConfig);
      assert actions == start + [IsMounted(mountPath), CheckNasConfig];
      var cd := Do(CreateDest(mountPath));
      if cd.err.Some? {
        return Err(Plain("Nas, Mount error with create Path fail: " + mountPath));
      }
      ghost var pre3 := [IsMounted(mountPath), CheckNasConfig, CreateDest(mountPath)];
      assert actions == start + pre3;
      var m := Do(NfsMount(opt.server, opt.path, opt.vers, opt.options, mountPath, req.volumeId));
      if m.err.Some? {
        return Err(Plain("Nas, Mount Nfs error: " + m.err.value));
      }
      ghost var pre := pre3 + [NfsMount(opt.server, opt.path, opt.vers, opt.options, mountPath, req.volumeId)];
      assert actions == start + pre;
      if opt.mode != "" && opt.path != "/" {
        var _ := Do(Run(ChmodLine(opt.mode, opt.modeType, mountPath)));
        pre := pre + [Run(ChmodLine(opt.mode, opt.modeType, mountPath))];
      }
      assert actions == start + pre;
      assert pre == [IsMounted(mountPath), CheckNasConfig, CreateDest(mountPath),
                     NfsMount(opt.server, opt.path, opt.vers, opt.options, mountPath, req.volumeId)]
        + (if opt.mode != "" && opt.path != "/" then [Run(ChmodLine(opt.mode, opt.modeType, mountPath))] else []);
      var after := Do(IsMounted(mountPath));
      AppendAssoc(start, pre, [IsMounted(mountPath)]);
      if !after.yes {
        return Err(Plain("Check mount fail after mount:" + mountPath));
      }
      return Ok(());
    }

    method NodeUnpublishVolume(targetPath: string) returns (r: Result<(), Error>)
      modifies this
      ensures actions == old(actions) + UnpublishEffect(answer, old(actions), Mixed(), targetPath).actions
      ensures r == UnpublishEffect(answer, old(actions), Mixed(), targetPath).result
    {
      ghost var start := actions;
      if runTimeClass == MixRunTimeMode {
        var runv := Do(IsMountPointRunv(targetPath));
        if runv.yes {
          var rm := Do(Remove(PathJoin(targetPath, RunTimeFlagFile)));
          if rm.err.Some? {
            return Err(Status(InvalidArgument, "NodeUnpublishVolume(runv): Remove local file with error " + rm.err.value));
          }
          return Ok(());
        }
      }
      ghost var mid := actions;
      r := Umount(targetPath);
      AppendAssoc(start, mid[|start|..], UmountEffect(answer, mid, targetPath).actions);
      assert mid == start + mid[|start|..];
    }

    method Umount(mountPoint: string) returns (r: Result<(), Error>)
      modifies this
      ensures actions == old(actions) + UmountEffect(answer, old(actions), mountPoint).actions
      ensures r == UmountEffect(answer, old(actions), mountPoint).result
    {
      var mounted := Do(IsMounted(mountPoint));
      if !mounted.yes {
        return Ok(());
      }
      var u := Do(Run("umount " + mountPoint));
      if u.err.Some? {
        return Err(Plain("Nas, Umount nfs Fail: " + u.err.value));
      }
      return Ok(());
    }

    method NodeStageVolume() returns (r: Result<(), Error>)
      ensures r == Err(Status(Unimplemented, ""))
    {
      return Err(Status(Unimplemented, ""));
    }

    method NodeUnstageVolume() returns (r: Result<(), Error>)
      ensures r == Err(Status(Unimplemented, ""))
    {
      return Err(Status(Unimplemented, ""));
    }

    method NodeExpandVolume(volumeId: string, requiredBytes: int64) returns (r: Result<(), Error>)
      modifies this
      ensures actions == old(actions) + ExpandEffect(answer, old(actions), pvObj(volumeId), requiredBytes, region).actions
      ensures r == ExpandEffect(answer, old(actions), pvObj(volumeId), requiredBytes, region).result
    {
      var expectSizeGB := GoDiv(requiredBytes, GiB);
      var err := ResizeNasVolume(expectSizeGB, volumeId);
      if err.Some? {
        return Err(Status(Internal, ErrorText(err.value)));
      }
      return Ok(());
    }

    method ResizeNasVolume(expectSizeGB: int, volumeId: string) returns (err: Option<Error>)
      modifies this
      ensures var e := ResizeEffect(answer, old(actions), pvObj(volumeId), expectSizeGB, region);
        && actions == old(actions) + e.actions
        && err == if e.result.Err? then Some(e.result.error) else None
    {
      var pv := pvObj(volumeId);
      if pv.Err? {
        return Some(pv.error);
      }
      if pv.value.csi.None? {
        return Some(Plain("CSI empty"));
      }
      var attrs := pv.value.csi.value.volumeAttributes;
      if "server" !in attrs {
        return Some(Plain("Pv object no server"));
      }
      if "path" !in attrs {
        return Some(Plain("Pv object no path"));
      }
      var fsList := Strings.Split(attrs["server"], "-");
      if |fsList| < 1 {
        return Some(Plain("error nas endpoint"));
      }
      var q := QuotaRequest(fsList[0], attrs["path"], "AllUsers", "Enforcement", Strings.IntToString(expectSizeGB), region);
      var rep := Do(SetDirQuota(q));
      if rep.err.Some? {
        return Some(Plain("error nas set quota"));
      }
      return None;
    }

    method NodeGetCapabilities() returns (r: seq<NodeCapability>)
      ensures r == NodeCapabilities(metricEnable)
    {
      r := [ExpandVolume];
      if metricEnable {
        r := [GetVolumeStats, ExpandVolume];
      }
    }
  }
}

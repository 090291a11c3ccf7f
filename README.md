# A Dafny model of the Alibaba Cloud CSI driver's core

The Alibaba Cloud CSI driver is a set of Container Storage Interface
plugins for Kubernetes. This project models the plugins' request
handlers and helpers in Dafny, and proves properties about what those
handlers do. The modelled parts are:

- **local**: the controller for local volumes (LVM, PMEM, QuotaPath,
  MountPoint, Device). It covers validation, the cache of created
  volumes, the three scheduling tiers, provisioning on the node agents,
  deletion, expansion and LVM snapshots.
- **yoda**: the LVM command layer (`lvs`, `lvcreate`, `lvremove`, tags).
  It also covers the yoda helpers (file-system probe, node IP, the LVM
  spec of a PV), the scheduler-extender client, the node-side mount
  procedures and the yoda controller and node servers.
- **om**: the repair of orphaned pod directories that the kubelet
  complains about.
- **nas**: the NAS node server. It covers option parsing and
  normalisation, the runv branch, the NFS mount, unmount and quota
  expansion.
- **dbfs**: the DBFS controller's create, delete, attach and detach
  calls, and its capability check.
- **oss**: the OSS helpers. These are endpoints, credentials, the RAM
  role option, mount counting and bucket tagging.
- **disk**: the BDF query server and its client, and GetInstanceIP.

Everything the handlers do outside their own code becomes either a
parameter or a recorded action. This covers the host, the kubelet, the
Kubernetes API, the cloud APIs, HTTP and JSON:

- A class keeps the sequence of actions it has issued.
- Each handler method is proved to issue exactly the actions of a
  specification function, and to return exactly that function's result.
- The properties are lemmas about those functions.

Where the host's answer can depend on what was done before, as in the
file system of the orphan repair or the NAS mount check, the answer is a
function of the history as well as of the call.

Go's integer semantics are written out where they matter:

- `GoDiv` is Go's truncating division.
- `WrapInt64` is the wrap-around of `int64` arithmetic.
- `ToUint64` and `ToInt64` are Go's conversions between the two types.

Constants defined in files this model does not include are declared
without a value, so nothing here depends on their values.

Files: `Wrappers.dfy`, `GoInt.dfy`, `Strings.dfy` and `Csi.dfy` hold
shared definitions. There is one module per source file:

| module | source file |
|---|---|
| `LocalController` | pkg/local/controllerserver.go |
| `LvmCommands` | pkg/yoda/lvmd/commands/commands.go |
| `YodaUtils` | pkg/yoda/utils.go |
| `YodaHttp` | pkg/yoda/http.go |
| `YodaMount` | pkg/yoda/mount.go |
| `YodaNode` | pkg/yoda/nodeserver.go |
| `YodaController` | pkg/yoda/controllerserver.go |
| `Orphaned` | pkg/om/orphaned.go |
| `NasNode` | pkg/nas/nodeserver.go |
| `DbfsController` | pkg/dbfs/controllerserver.go |
| `OssUtils` | pkg/oss/utils.go |
| `DiskQueryServer` | pkg/disk/nodeQueryServer.go |
| `DiskQueryClient` | pkg/disk/nodeQueryClient.go |

## Model

| member | source | states |
|---|---|---|
| Strings.TrimSpace | pkg/yoda/lvmd/commands/commands.go:52 | the trimmed string is no longer than the input and has no white space at either end |
| Strings.TrimSpaceIdempotent | pkg/yoda/lvmd/commands/commands.go:52-56 | trimming an already trimmed line changes nothing (each listing line is trimmed twice) |
| Strings.Split | pkg/yoda/lvmd/commands/commands.go:53 | `strings.Split` gives at least one piece, and the whole string when the separator does not occur |
| Strings.JoinSplit | pkg/yoda/lvmd/commands/commands.go:53 | joining the pieces of a split with the same separator gives the string back |
| Strings.SplitJoin | pkg/om/orphaned.go:37 | splitting the join of separator-free pieces gives the pieces back |
| Strings.SplitPiecesFree | pkg/om/orphaned.go:26-37 | no piece of a split contains the separator |
| Strings.ParseInt64ToString | pkg/yoda/mount.go:173-174 | `strconv.ParseInt` of `%d` of a 64-bit integer gives the integer back |
| GoInt.GoDiv | pkg/nas/nodeserver.go:336 | Go's `/` truncates toward zero: for a non-negative dividend it is the Euclidean quotient, for a negative one the negated quotient of its magnitude, and the remainder is less than the divisor in magnitude |
| GoInt.WrapInt64 | pkg/dbfs/controllerserver.go:216 | an int64 value is kept as it is; any other value wraps to the int64 value congruent to it modulo 2^64 |
| Csi.ErrorText | pkg/nas/nodeserver.go:340 | a plain error's text is its message; a status error's text contains its message |
| LvmCommands.TagArgs | pkg/yoda/lvmd/commands/commands.go:81-83 | one flag/tag pair per tag: twice as many arguments as tags |
| LvmCommands.TagArgsAt | pkg/yoda/lvmd/commands/commands.go:81-83 | argument 2k is the flag and argument 2k+1 is tag k |
| LvmCommands.CreateLVCommandShape | pkg/yoda/lvmd/commands/commands.go:77-86 | `lvcreate -v -n <name> -L <size>b`, the mirror options only when there are mirrors, one `--add-tag` pair per tag, and the VG last |
| LvmCommands.LvChangeCommandShape | pkg/yoda/lvmd/commands/commands.go:226-234 | nsenter, `lvchange`, one flag pair per tag, then `<vg>/<name>` last |
| LvmCommands.OutputLines | pkg/yoda/lvmd/commands/commands.go:52-53 | a listing has at least one output line |
| LvmCommands.ParseEachOk | pkg/yoda/lvmd/commands/commands.go:55-63 | a listing succeeds iff every trimmed line parses, and then has one entry per line, in order |
| LvmCommands.ParseEachFirstError | pkg/yoda/lvmd/commands/commands.go:57-60 | a failing listing reports the error of its first unparsable line |
| LvmCommands.ParseLines | pkg/yoda/lvmd/commands/commands.go:54-63 | the indexed loop over the lines returns exactly what ParseEach returns |
| LvmCommands.FirstNamed | pkg/yoda/lvmd/commands/commands.go:184-190 | the index found names the VG and no earlier VG has that name; None iff no VG has it |
| LvmCommands.FindVG | pkg/yoda/lvmd/commands/commands.go:184-190 | the loop with `break` finds the first VG of the name (equals FirstNamed) |
| LvmCommands.IsProtected | pkg/yoda/lvmd/commands/commands.go:103-107 | true iff the tag list contains "protected" |
| LvmCommands.AppendTags | pkg/yoda/lvmd/commands/commands.go:229-231 | the loop appends exactly TagArgs(flag, tags) |
| LvmCommands.RemoveLVRunsRemove | pkg/yoda/lvmd/commands/commands.go:95-119 | the listing runs first; `lvremove` runs iff exactly one LV is listed and it is not protected |
| LvmCommands.RemoveLVProtected | pkg/yoda/lvmd/commands/commands.go:103-106 | a protected LV is never removed and the error is "volume is protected" |
| LvmCommands.RemoveVGRunsRemove | pkg/yoda/lvmd/commands/commands.go:179-210 | `vgremove` runs iff the first VG of that name is unprotected; a missing name is refused with "could not find vg to delete" |
| LvmCommands.LvChangeNeedsOne | pkg/yoda/lvmd/commands/commands.go:218-235 | the tag change runs iff the listing names exactly one LV; otherwise "expected 1 LV, got n" |
| LvmCommands.Shell.constructor | pkg/yoda/lvmd/commands/commands.go:47 | a shell over a host starts with no commands run |
| LvmCommands.Shell.Run | pkg/yoda/lvmd/commands/commands.go:47 | records the command and returns the host's output |
| LvmCommands.Shell.ListLV | pkg/yoda/lvmd/commands/commands.go:38-64 | runs exactly the `lvs` command and returns the parsed listing |
| LvmCommands.Shell.ListVG | pkg/yoda/lvmd/commands/commands.go:136-161 | runs exactly the `vgs` command and returns the parsed listing |
| LvmCommands.Shell.CreateLV | pkg/yoda/lvmd/commands/commands.go:67-89 | size 0 is refused with nothing run; otherwise one `lvcreate` runs and its output is returned |
| LvmCommands.Shell.RemoveLV | pkg/yoda/lvmd/commands/commands.go:95-119 | the commands and result are those of RemoveLVTrace |
| LvmCommands.Shell.CloneLV | pkg/yoda/lvmd/commands/commands.go:122-134 | runs exactly the `dd` command and returns its output |
| LvmCommands.Shell.CreateVG | pkg/yoda/lvmd/commands/commands.go:163-177 | runs exactly `vgcreate` with one `--add-tag` pair per tag |
| LvmCommands.Shell.RemoveVG | pkg/yoda/lvmd/commands/commands.go:179-210 | the commands and result are those of RemoveVGTrace |
| LvmCommands.Shell.RemoveListedVG | pkg/yoda/lvmd/commands/commands.go:184-210 | once the VGs are listed, `vgremove` runs only for a found, unprotected VG, and the result is that of RemoveVGFrom |
| LvmCommands.Shell.AddTagLV | pkg/yoda/lvmd/commands/commands.go:212-238 | the commands and result are those of LvChangeTrace with `--addtag` |
| LvmCommands.Shell.RemoveTagLV | pkg/yoda/lvmd/commands/commands.go:240-265 | the commands and result are those of LvChangeTrace with `--deltag` |
| LvmCommands.Shell.ChangeTags | pkg/yoda/lvmd/commands/commands.go:218-237 | the shared body of the two tag changes follows LvChangeTrace |
| YodaUtils.BlkidTypeFound | pkg/yoda/utils.go:89-97 | the first TYPE line, reached through well-formed lines only, gives the file-system type |
| YodaUtils.BlkidTypeMalformed | pkg/yoda/utils.go:91-94 | a line without exactly one "=" met before any TYPE line gives ErrParse |
| YodaUtils.BlkidTypeResult | pkg/yoda/utils.go:89-99 | every answer is ErrParse or the value of the first TYPE line, with only well-formed lines before it |
| YodaUtils.CheckFSTypeEffect | pkg/yoda/utils.go:70-100 | `file` runs first; `blkid` runs after it iff `file` succeeded and did not print "data"; nothing else runs, and no shell line is used |
| YodaUtils.CheckFSTypeData | pkg/yoda/utils.go:81-83 | when `file` prints "data", only `file` runs and the answer is "" |
| YodaUtils.ScanBlkid | pkg/yoda/utils.go:89-99 | the loop with early returns computes the scan BlkidType |
| YodaUtils.LvmSpec | pkg/yoda/utils.go:114-150 | a lookup error is passed on; a pinned PV whose attributes lack `vgName` is an error; an unpinned PV gives ("", ""); otherwise the first node of the host-name pin and the VG |
| YodaUtils.OfKind | pkg/yoda/utils.go:170-173 | the addresses of one kind, in order: every kept address has that kind, and none of that kind is dropped |
| YodaUtils.OfKindFirst | pkg/yoda/utils.go:170-181 | the group of a kind is empty iff no address has that kind, and otherwise starts with the first one |
| YodaUtils.AddressTexts | pkg/yoda/utils.go:175-181 | one text per address, in order |
| YodaUtils.NodeIPPreference | pkg/yoda/utils.go:165-182 | GetNodeIP gives the first InternalIP, else the first ExternalIP, else an error |
| YodaUtils.GroupByKind | pkg/yoda/utils.go:171-174 | the address map holds, for each kind that occurs, exactly that kind's addresses in order, and no entry for a kind that does not occur |
| YodaUtils.GetNodeIP | pkg/yoda/utils.go:165-182 | the loop that builds the address map returns NodeIP of the node's addresses, or the lookup error |
| YodaUtils.LvmdAddr | pkg/yoda/utils.go:156-162 | the daemon address is `<ip>:<port>`; a failed IP lookup is returned as it is |
| YodaUtils.Host.constructor | pkg/yoda/utils.go:62-112 | a host starts with no calls made |
| YodaUtils.Host.Do | pkg/yoda/utils.go:63 | records the call and returns the host's answer |
| YodaUtils.Host.CheckFSType | pkg/yoda/utils.go:70-100 | issues exactly the calls of CheckFSTypeEffect and returns its result |
| YodaUtils.Host.FormatDevice | pkg/yoda/utils.go:62-68 | runs `mkfs -t <fs> <dev>` once; on failure the error is "FormatDevice error: " plus the output |
| YodaUtils.Host.IsVgExist | pkg/yoda/utils.go:102-112 | runs the counting pipeline once; true iff the trimmed output is "1"; a failure is an error |
| YodaHttp.HostAfter | pkg/yoda/http.go:41-44 | a non-empty SCHEDULER_HOST replaces the URL host; an empty one keeps it |
| YodaHttp.SchedulePathShape | pkg/yoda/http.go:45-51 | both paths address the claim's resource and end with the volume type; the node form only adds `nodeName=<node>&` to the query |
| YodaHttp.ResponseBody | pkg/yoda/http.go:85-97 | the body of a status-200 answer; any other status is an error naming it; transport errors pass through |
| YodaHttp.ScheduleStatusRule | pkg/yoda/http.go:52-68 | a status other than 200 is an error whatever the decoder would say; a 200 answer with a readable body gives what the decoder makes of it |
| YodaHttp.Scheduler.constructor | pkg/yoda/http.go:34-38 | the URL host starts at the default and no request has been sent |
| YodaHttp.Scheduler.DoRequest | pkg/yoda/http.go:72-98 | sends one JSON POST whose Host header is the URL host, and returns ResponseBody of the answer |
| YodaHttp.Scheduler.ScheduleVolume | pkg/yoda/http.go:40-69 | applies the host override, then sends one request whose URL starts with its Host header, and returns ScheduleResult |
| YodaMount.NsenterLineInjective | pkg/yoda/mount.go:165-187 | different shell lines stay different behind the nsenter prefix |
| YodaMount.VgckIsNotResize | pkg/yoda/mount.go:234 | the `vgck` line of createVolume is neither the `lvdisplay` nor an `lvextend` line |
| YodaMount.CreateIsNotDisplay | pkg/yoda/mount.go:243-250 | neither `lvcreate` line is the `lvdisplay` line of resizeVolume |
| YodaMount.PvSize | pkg/yoda/mount.go:209-224 | the size is a number of GiB with unit "g" or of MiB with unit "m", or (0, "") when the PV has no capacity |
| YodaMount.PvSizeRoundsDown | pkg/yoda/mount.go:216-223 | the amount times the unit is at most the size, and the size is less than the amount plus one, times the unit |
| YodaMount.CreateEffectShape | pkg/yoda/mount.go:227-258 | `vgck` runs first and a failure stops; then at most one `lvcreate`, striped or linear by type, and nothing for other types |
| YodaMount.LvSizeIntegerPart | pkg/yoda/mount.go:173 | the printed size "<n>.<fraction>" is read as n |
| YodaMount.ReadLvSize | pkg/yoda/mount.go:166-177 | a size is read only from successful, non-empty output whose integer part parses, and is that integer; empty output is "Get lvm size error" |
| YodaMount.ExtendEffect | pkg/yoda/mount.go:187-206 | `lvextend -L<size><unit>` is the first call; when it succeeds, only the file-system resize follows, and the result is Ok iff the resize succeeds and reports true |
| YodaMount.ResizeEffect | pkg/yoda/mount.go:162-207 | `lvdisplay` of the LV is always the first call (the cases are stated by ResizeGrowsOnly and ResizeNeedsSize) |
| YodaMount.ResizeGrowsOnly | pkg/yoda/mount.go:179-206 | an LV at least as large as the PV is not extended; a smaller one is extended to exactly the PV size, then its file system resized, and nothing runs after |
| YodaMount.ResizeNeedsSize | pkg/yoda/mount.go:166-177 | output from which no size can be read is an error, and nothing is extended |
| YodaMount.PrepareTarget | pkg/yoda/mount.go:49-59 | (corrected) uses only direct host calls, never a shell line; what it reports is stated by PrepareTargetReportsMountError |
| YodaMount.PrepareTargetAsWrittenPanics | pkg/yoda/mount.go:49-58 | as written, a mount check that fails on an existing target dereferences a nil error |
| YodaMount.PrepareTargetReportsMountError | pkg/yoda/mount.go:49-59 | a failing mount check on an existing target is reported as Internal with that check's error, after the mount check and the stat; wherever the source neither panics nor takes a stat error, the corrected check agrees with it; a successful check answers whether the target is mounted |
| YodaMount.FormatEffect | pkg/yoda/mount.go:61-70 | uses only direct host calls, never a shell line; its cases are stated by FormatOnlyBlank |
| YodaMount.MountEffect | pkg/yoda/mount.go:72-87 | uses only direct host calls, never a shell line; its cases are stated by MountOnlyUnmounted |
| YodaMount.MountLvmNeedsVg | pkg/yoda/mount.go:21-27 | without a `vgName` nothing is done on the host, and the error is "error with input vgName is empty" |
| YodaMount.MountLvmCreatesMissing | pkg/yoda/mount.go:29-47 | the device is checked first; a missing device is created, with the requested LVM type or linear by default, before anything else; an existing one goes straight to publishing it |
| YodaMount.FormatOnlyBlank | pkg/yoda/mount.go:61-70 | `mkfs` with the given type runs after the probe iff the probe finds no file system; a device that has one is left as it is, and that succeeds |
| YodaMount.MountOnlyUnmounted | pkg/yoda/mount.go:72-87 | a mounted target is left alone; otherwise exactly one mount with the access mode, then the flags |
| YodaMount.NewVolumeNotResized | pkg/yoda/mount.go:38-95 | a newly created LV never has its size read; an existing one always does when publishing succeeds |
| YodaMount.MountLocalCases | pkg/yoda/mount.go:98-132 | without a `localVolume` source nothing is called and it fails; a target that is already a mount point succeeds after one check; every bind mount takes that source, then the flags, "bind" and, only when read-only, one more option |
| YodaMount.MountDeviceCases | pkg/yoda/mount.go:134-160 | without a `device` source nothing is called and it fails; otherwise exactly one format-and-mount of that device, with the flags then "shared", as ext4 when no file system is asked for |
| YodaNode.PublishDispatch | pkg/yoda/nodeserver.go:107-141 | publishing runs exactly the mount procedure of the volume type; an empty target or another type touches nothing and is Internal |
| YodaNode.UnpublishCases | pkg/yoda/nodeserver.go:143-162 | an unmounted target is left alone after one check; a mount check failing on a missing target is NotFound; the target is unmounted iff the check says it is mounted, and no other path is unmounted |
| YodaNode.NodeCapabilities | pkg/yoda/nodeserver.go:172-193 | exactly two capabilities: staging and unstaging, and volume expansion |
| YodaNode.NodeServer.constructor | pkg/yoda/nodeserver.go:81-101 | a server over a host, a node id and the PV lookup |
| YodaNode.NodeServer.NodeGetInfo | pkg/yoda/nodeserver.go:201-211 | the node id, with a single topology segment under the yoda host-name key |
| YodaNode.NodeServer.NodeGetCapabilities | pkg/yoda/nodeserver.go:172-193 | returns NodeCapabilities |
| YodaNode.NodeServer.NodeStageVolume | pkg/yoda/nodeserver.go:168-170 | succeeds without touching the host |
| YodaNode.NodeServer.NodeUnstageVolume | pkg/yoda/nodeserver.go:164-166 | succeeds without touching the host |
| YodaNode.NodeServer.NodeExpandVolume | pkg/yoda/nodeserver.go:195-199 | succeeds without touching the host |
| YodaNode.NodeServer.CreateVolume | pkg/yoda/mount.go:227-258 | issues exactly the host calls of CreateEffect and returns its result |
| YodaNode.NodeServer.ResizeVolume | pkg/yoda/mount.go:162-207 | issues exactly the host calls of ResizeEffect and returns its result |
| YodaNode.NodeServer.ExtendLv | pkg/yoda/mount.go:187-206 | issues exactly the host calls of ExtendEffect (lvextend, then the file-system resize only if lvextend succeeded) and returns its result |
| YodaNode.NodeServer.MountLvm | pkg/yoda/mount.go:20-96 | issues exactly the calls of MountLvmEffect, using the corrected target check |
| YodaNode.NodeServer.PublishDevice | pkg/yoda/mount.go:49-95 | (corrected) issues exactly the calls of PublishLvmDevice, whose target check is the corrected PrepareTarget |
| YodaNode.NodeServer.CheckTarget | pkg/yoda/mount.go:49-59 | issues exactly the calls of PrepareTarget |
| YodaNode.NodeServer.EnsureFilesystem | pkg/yoda/mount.go:61-70 | issues exactly the calls of FormatEffect |
| YodaNode.NodeServer.MountIfNeeded | pkg/yoda/mount.go:72-87 | issues exactly the calls of MountEffect |
| YodaNode.NodeServer.MountLocalVolume | pkg/yoda/mount.go:98-132 | issues exactly the calls of MountLocalEffect |
| YodaNode.NodeServer.MountDeviceVolume | pkg/yoda/mount.go:134-160 | issues exactly the calls of MountDeviceEffect |
| YodaNode.NodeServer.NodePublishVolume | pkg/yoda/nodeserver.go:107-141 | issues exactly the calls of PublishEffect and returns its result |
| YodaNode.NodeServer.NodeUnpublishVolume | pkg/yoda/nodeserver.go:143-162 | issues exactly the calls of UnpublishEffect and returns its result |
| YodaController.NodesOf | pkg/yoda/controllerserver.go:174-179 | at most one node per topology (NodesOfEmpty, NodesOfSingle and NodesOfTwo state which) |
| YodaController.NodesOfEmpty | pkg/yoda/controllerserver.go:174-179 | the node list is empty iff no topology carries the key |
| YodaController.NodesOfSingle | pkg/yoda/controllerserver.go:174-182 | when only topology i carries the key, the list is exactly its node |
| YodaController.NodesOfTwo | pkg/yoda/controllerserver.go:174-185 | two topologies carrying the key give at least two nodes |
| YodaController.PickNodeID | pkg/yoda/controllerserver.go:169-196 | the two loops with early returns compute PickNode |
| YodaController.PickSinglePreferred | pkg/yoda/controllerserver.go:180-182 | a single preferred node decides, whatever the requisite topologies say |
| YodaController.PickAmbiguousPreferred | pkg/yoda/controllerserver.go:183-185 | two preferred nodes give "" without looking at the requisite topologies |
| YodaController.PickFromRequisite | pkg/yoda/controllerserver.go:186-195 | with no preferred node, a node is picked iff exactly one requisite topology names one, and it is that node |
| YodaController.CreateCheck | pkg/yoda/controllerserver.go:73-109 | in order: the driver check, an empty name, missing capabilities, an unsupported type, missing PVC data; the first failure is returned |
| YodaController.LvmPlacementOf | pkg/yoda/controllerserver.go:113-126 | (corrected) the scheduler is asked iff the VG or the node is unknown; otherwise both are kept as given; a scheduler answer supplies both, and a scheduler failure is InvalidArgument |
| YodaController.LvmPlacementIgnoresVgName | pkg/yoda/controllerserver.go:113-126 | as written, every LVM request asks the scheduler: its answer supplies both the VG and the node whatever the request named, and its failure is InvalidArgument; the corrected branch keeps a named VG on a picked node without asking, so the two differ on every such request |
| YodaController.LvmPlacementExample | pkg/yoda/controllerserver.go:114-126 | a request for "vg-a" on "node-a" ends on the scheduler's "vg-b" and "node-b" as written, and stays on "vg-a" and "node-a" as intended |
| YodaController.LvmPlacementAgreesWhenScheduling | pkg/yoda/controllerserver.go:113-126 | the as-written and corrected branches agree when no VG is named or no node was picked |
| YodaController.CreateResultShape | pkg/yoda/controllerserver.go:72-165 | a failed check is returned without asking the scheduler; a created volume has the request's name and size and one host-name topology, and keeps every parameter key and every value except those of `vgName`, `localVolume` and `device` |
| YodaController.CreateKeepsPickedNode | pkg/yoda/controllerserver.go:128-160 | local and device volumes always ask the scheduler but stay on the picked node |
| YodaController.RemoveLvm | pkg/yoda/controllerserver.go:222-237 | connecting to the node's daemon is always the first call (DeleteCases states what follows) |
| YodaController.DeleteCases | pkg/yoda/controllerserver.go:198-247 | a PV without CSI fails with no daemon call; a non-LVM or unpinned volume succeeds with none; a daemon is reached only for a pinned PV with a VG; DeleteLvm is only ever the third call, right after a successful GetLvm; a failed lookup is returned |
| YodaController.DeleteRemovesFound | pkg/yoda/controllerserver.go:212-238 | a volume the daemon has is deleted from its pinned node's daemon and VG |
| YodaController.ControllerServer.constructor | pkg/yoda/controllerserver.go:54-70 | a server over its collaborators, with no daemon call made |
| YodaController.ControllerServer.CreateVolume | pkg/yoda/controllerserver.go:72-165 | (corrected LVM placement) returns CreateResult; the scheduler gets exactly one request when CreateResult asks it, and is untouched otherwise |
| YodaController.ControllerServer.PlaceVolume | pkg/yoda/controllerserver.go:110-164 | (corrected LVM placement) returns PlaceResult for the checked request; the scheduler gets exactly one request when PlaceResult asks it, and is untouched otherwise |
| YodaController.ControllerServer.DeleteVolume | pkg/yoda/controllerserver.go:198-247 | issues exactly the daemon calls of DeleteResult and returns its result |
| YodaController.ControllerServer.ControllerExpandVolume | pkg/yoda/controllerserver.go:259-263 | answers the requested size (0 without a range) and asks for node expansion |
| Orphaned.OrphanUid | pkg/om/orphaned.go:26-36 | a UID taken from a line never contains a quote; a line without "rphaned pod" yields none |
| Orphaned.OrphanUidOfLine | pkg/om/orphaned.go:26-36 | a kubelet line `...orphaned pod "<uid>"...` yields the quoted UID |
| Orphaned.ValidUidParts | pkg/om/orphaned.go:37-40 | a valid UID is its dash-split parts joined back, the first five free of dashes; five dash-free parts joined by dashes always make a valid UID |
| Orphaned.CleanVolume | pkg/om/orphaned.go:54-81 | every call stays inside the volume directory; the directory is removed only as the last call, right after an emptiness check that found it empty |
| Orphaned.CleanVolumes | pkg/om/orphaned.go:54-82 | every call of the loop stays inside the pod's CSI directory |
| Orphaned.FixOrphanedResult | pkg/om/orphaned.go:25-91 | true iff the UID is well formed and the pod is already fixed or its volume directory can be listed; bad lines and fixed pods touch nothing |
| Orphaned.FixOrphanedMarks | pkg/om/orphaned.go:42-89 | the fixed list is kept or gains this pod only; it gains it only when the last two calls found the pod directory gone or empty |
| Orphaned.FixOrphanedStaysInPod | pkg/om/orphaned.go:48-89 | every file-system call of a repair has the pod's CSI volume directory as a textual prefix (paths are joined without cleaning) |
| Orphaned.CleanSubpaths | pkg/om/orphaned.go:140-148 | one unmount per sub-path, in order, whatever each unmount returns |
| Orphaned.CleanContainersStop | pkg/om/orphaned.go:133-139 | once a container fails to list, the remaining containers are not visited |
| Orphaned.SubpathVolumesStop | pkg/om/orphaned.go:126-132 | once a volume fails to list, the remaining volumes are not visited |
| Orphaned.FixSubPathResult | pkg/om/orphaned.go:96-177 | bad lines and fixed pods touch nothing; an unlistable sub-path directory fails after one call; otherwise true iff every volume was cleaned through; the pod is marked in its own list only when the last call found the sub-path directory gone |
| Orphaned.Om.constructor | pkg/om/orphaned.go:25-177 | no calls made, and both fixed lists empty |
| Orphaned.Om.Do | pkg/om/orphaned.go:49 | records the call and returns the answer for the history so far; the fixed lists are unchanged |
| Orphaned.Om.FixOrphanedPodIssue | pkg/om/orphaned.go:25-91 | calls, fixed list and answer are those of FixOrphaned; the sub-path list is unchanged |
| Orphaned.Om.RepairPod | pkg/om/orphaned.go:47-90 | calls, fixed list and answer are those of RepairOutcome |
| Orphaned.Om.CleanVolumesAt | pkg/om/orphaned.go:54-82 | issues exactly the calls of CleanVolumes for the listed volumes, in order, and leaves both fixed lists alone |
| Orphaned.Om.CleanVolumeAt | pkg/om/orphaned.go:55-81 | issues exactly the calls of CleanVolume |
| Orphaned.Om.FixSubPathOrphanedPodIssue | pkg/om/orphaned.go:96-177 | calls, sub-path list and answer are those of FixSubPath; the other list is unchanged |
| Orphaned.Om.RepairSubPaths | pkg/om/orphaned.go:118-176 | calls, list and answer are those of SubPathRepair |
| Orphaned.Om.CleanSubpathVolume | pkg/om/orphaned.go:127-163 | issues exactly the calls of SubpathVolume and returns whether it got through |
| Orphaned.Om.CleanContainerAt | pkg/om/orphaned.go:134-155 | issues exactly the calls of CleanContainer and returns whether it got through |
| LocalController.VolumeTypeOf | pkg/local/controllerserver.go:133-147 | the `volumeType` parameter when it is one of the five supported types, else "" |
| LocalController.BuildVolume | pkg/local/controllerserver.go:437-487 | the request's id and size; the parameters with the scheduler's over them, minus the three removed keys; the node and host-name topology iff a node is selected; the snapshot source when there is one |
| LocalController.Respond | pkg/local/controllerserver.go:437-491 | a provisioning error is returned with the cache unchanged; otherwise the built volume is returned and cached under the request name |
| LocalController.ValidatedFirst | pkg/local/controllerserver.go:118-121 | a request the driver refuses is answered with the driver's error before any other check, and nothing changes |
| LocalController.TypeCheckedBeforeCache | pkg/local/controllerserver.go:133-151 | an unsupported or missing type is InvalidArgument before the cache is read, even for a cached name, and nothing changes |
| LocalController.CachedVolumeReturned | pkg/local/controllerserver.go:149-152 | a cached name returns the cached volume with no node or cluster call |
| LocalController.CacheWrittenOnSuccess | pkg/local/controllerserver.go:489 | the cache changes only on success, and then maps the request name to the returned volume |
| LocalController.CreateVolumeIdempotent | pkg/local/controllerserver.go:149-489 | repeating a successful CreateVolume returns the same volume and changes nothing |
| LocalController.ScheduleTiers | pkg/local/controllerserver.go:224-355 | node and storage given asks `scheduled`, node only asks `partScheduled`, neither asks `noScheduled`; an LVM VG in the answer overrides the storage; failures are InvalidArgument |
| LocalController.LvmGetBeforeCreate | pkg/local/controllerserver.go:256-305 | CreateLvm is issued iff the node connects and GetLvm answers "" without error; the LV has the request's size and is striped iff asked; without gRPC the generator is told; nothing happens without node and VG |
| LocalController.PmemProvisioning | pkg/local/controllerserver.go:356-400 | needs a node; a namespace is created only when none of that name exists, in the selected, class or default region, and its devices are added to the parameters |
| LocalController.QuotaProvisioning | pkg/local/controllerserver.go:401-433 | needs a node; the subpath is under `rootPath` only when no storage was selected, sized in bytes, with both limits in KiB, and its path is recorded |
| LocalController.LvmKeeps | pkg/local/controllerserver.go:271-305 | LVM provisioning never removes or overwrites an existing LV or namespace |
| LocalController.PmemKeeps | pkg/local/controllerserver.go:356-400 | PMEM provisioning never removes or overwrites an existing LV or namespace |
| LocalController.QuotaKeeps | pkg/local/controllerserver.go:401-433 | QuotaPath provisioning never removes or overwrites an existing LV or namespace |
| LocalController.ProvisionKeeps | pkg/local/controllerserver.go:171-436 | provisioning of any type keeps every existing LV and namespace |
| LocalController.CreateKeepsVolumes | pkg/local/controllerserver.go:118-492 | CreateVolume never removes or overwrites an LV or PMEM namespace on any node |
| LocalController.DeleteClearsCache | pkg/local/controllerserver.go:681 | the cache loses the volume iff DeleteVolume succeeds, and nothing else leaves it |
| LocalController.DeleteUnknownTypeRejected | pkg/local/controllerserver.go:677-680 | a PV of an unknown type is InvalidArgument, and nothing changes |
| LocalController.DeleteSnapshotVolume | pkg/local/controllerserver.go:519-541 | a volume from a read-only snapshot is deleted with no call; one from another snapshot is Unimplemented |
| LocalController.DeleteLvmCases | pkg/local/controllerserver.go:543-578 | over gRPC, a reported LV is removed; an empty answer or a "not found" error is success with nothing removed; other errors are returned |
| LocalController.ExpandAnswersRequest | pkg/local/controllerserver.go:699-730 | answers the requested bytes and asks for node expansion; only the yoda driver calls the adapter, with the size in GiB; cache and nodes are untouched |
| LocalController.SizeInGiBRoundsUp | pkg/local/controllerserver.go:702 | without overflow the size is the ceiling of bytes / GiB |
| LocalController.SizeInGiBWraps | pkg/local/controllerserver.go:702 | at the int64 maximum the int64 sum wraps and the size is negative |
| LocalController.SnapshotSizeIsMin | pkg/local/controllerserver.go:770-773 | the initial size is the minimum of the requested size and the PV size, when both fit and the PV size is not negative |
| LocalController.CreateSnapshotEffects | pkg/local/controllerserver.go:733-797 | the cache is unchanged; no LV or namespace is removed or overwritten; a new snapshot LV has the clamped size and the source volume as origin |
| LocalController.DeleteSnapshotInUse | pkg/local/controllerserver.go:810-818 | a snapshot in use is Aborted before any node call |
| LocalController.DeleteSnapshotCases | pkg/local/controllerserver.go:840-858 | a snapshot whose LV is gone succeeds without change; one whose LV exists loses it |
| LocalController.ControllerServer.constructor | pkg/local/controllerserver.go:95-115 | a server with an empty cache and no calls made |
| LocalController.ControllerServer.GetNodeConn | pkg/local/controllerserver.go:494-502 | the recorded connection and its error are those of Dial |
| LocalController.ControllerServer.GetLvm | pkg/local/controllerserver.go:278 | records the call and returns the agent's answer |
| LocalController.ControllerServer.GetNameSpace | pkg/local/controllerserver.go:381 | records the call and returns the agent's answer |
| LocalController.ControllerServer.Commit | pkg/local/controllerserver.go:279-283 | an agent call that changes the agent: recorded, and the agent replaced on success |
| LocalController.ControllerServer.CallCluster | pkg/local/controllerserver.go:291-304 | a call to the generator or the adapter, recorded, with its answer |
| LocalController.ControllerServer.PickVolumeType | pkg/local/controllerserver.go:136-143 | the loop over the supported types returns VolumeTypeOf |
| LocalController.ControllerServer.PlaceSnapshot | pkg/local/controllerserver.go:173-223 | returns SnapshotPlacement |
| LocalController.ControllerServer.PlaceVolume | pkg/local/controllerserver.go:171-355 | the scheduling switch returns Place |
| LocalController.ControllerServer.ProvisionLvmVolume | pkg/local/controllerserver.go:271-305 | the new world and error are those of ProvisionLvm |
| LocalController.ControllerServer.ProvisionPmemVolume | pkg/local/controllerserver.go:356-400 | the new world, parameters and error are those of ProvisionPmem |
| LocalController.ControllerServer.ProvisionQuotaVolume | pkg/local/controllerserver.go:401-433 | the new world, parameters and error are those of ProvisionQuota |
| LocalController.ControllerServer.ProvisionVolume | pkg/local/controllerserver.go:171-436 | the new world, parameters and error are those of Provision |
| LocalController.ControllerServer.MergeParameters | pkg/local/controllerserver.go:438-440 | the scheduler's parameters overwrite the request's |
| LocalController.ControllerServer.RemoveLabels | pkg/local/controllerserver.go:442-450 | the three provisioner and last-applied keys are removed, and nothing else |
| LocalController.ControllerServer.CreateVolume | pkg/local/controllerserver.go:118-492 | the new cache, world and result are those of CreateVolumeOutcome |
| LocalController.ControllerServer.CreateNewVolume | pkg/local/controllerserver.go:154-492 | for a valid request that is not cached, the new cache, world and result are those of CreateNew (placement, provisioning, response) |
| LocalController.ControllerServer.NewVolume | pkg/local/controllerserver.go:437-487 | builds exactly the response BuildVolume describes from the provisioned parameters and the placement, and changes nothing |
| LocalController.ControllerServer.RemoveLvmVolume | pkg/local/controllerserver.go:519-578 | the new world and error are those of RemoveLvm |
| LocalController.ControllerServer.RemoveMountPointVolume | pkg/local/controllerserver.go:579-623 | the new world and error are those of RemoveMountPoint |
| LocalController.ControllerServer.RemovePmemVolume | pkg/local/controllerserver.go:626-653 | the new world and error are those of RemovePmem |
| LocalController.ControllerServer.RemoveQuotaVolume | pkg/local/controllerserver.go:654-676 | the new world and error are those of RemoveQuota |
| LocalController.ControllerServer.DeleteVolume | pkg/local/controllerserver.go:505-684 | the new state and result are those of DeleteVolumeOutcome |
| LocalController.ControllerServer.ControllerExpandVolume | pkg/local/controllerserver.go:699-730 | the new state and result are those of ExpandOutcome |
| LocalController.ControllerServer.NewCreateSnapshotResponse | pkg/local/controllerserver.go:860-880 | the result is that of SnapshotResponse |
| LocalController.ControllerServer.CreateSnapshot | pkg/local/controllerserver.go:733-797 | the new state and result are those of CreateSnapshotOutcome |
| LocalController.ControllerServer.DeleteSnapshot | pkg/local/controllerserver.go:800-859 | the new state and result are those of DeleteSnapshotOutcome |
| NasNode.ParseContext | pkg/nas/nodeserver.go:114-137 | the loop over the attributes, in any order, gives each field of the attribute of its name, or "" |
| NasNode.FlagOptions | pkg/nas/nodeserver.go:140-155 | with mount flags, a non-empty parsed version or option string overrides the attribute; without flags nothing changes |
| NasNode.NormalPath | pkg/nas/nodeserver.go:199-205 | "" becomes "/"; one trailing "/" is dropped from any other path |
| NasNode.NormalPathDropsOneSlash | pkg/nas/nodeserver.go:203-205 | for every path p, only one trailing slash is dropped: "<p>//" becomes "<p>/", and a non-empty "<p>/" becomes "<p>" |
| NasNode.NormalVers | pkg/nas/nodeserver.go:213-220 | "" and "3.0" become "3", "4" becomes "4.0", any other version is kept |
| NasNode.NormalVersIdempotent | pkg/nas/nodeserver.go:213-220 | normalising a normalised version changes nothing |
| NasNode.DefaultedOptions | pkg/nas/nodeserver.go:228-236 | empty options get the v3 default or "noresvport"; "none", in any ASCII case, becomes ""; others are kept |
| NasNode.DefaultedOptionsNeverNone | pkg/nas/nodeserver.go:228-236 | the options that reach the mount never read "none" |
| NasNode.Normalized | pkg/nas/nodeserver.go:199-236 | an error iff the root path has a mode, the path is not absolute, or Extreme NAS is asked for a version other than 3; otherwise path, version and options are normalised and the rest kept |
| NasNode.NormalizeOptions | pkg/nas/nodeserver.go:199-236 | the in-place rewrites give Normalized |
| NasNode.RunvOf | pkg/nas/nodeserver.go:165-175 | the runv record carries the options as given, runtime "runv", type "nfs" and the flag file |
| NasNode.RunvStage | pkg/nas/nodeserver.go:158-182 | creates no mount directory and issues no NFS mount unless the node is mixed-runtime and the stage ends the handler (PublishRunv states that case) |
| NasNode.ConnectStage | pkg/nas/nodeserver.go:185-197 | creates no mount directory and issues no NFS mount (PublishCheckOrder states its cases) |
| NasNode.PublishAlreadyMounted | pkg/nas/nodeserver.go:238-241 | a target found mounted is published with no mount and no directory created; an unmounted one whose directory is created gets, as the fifth call, the NFS mount with the normalised server, path, version and options |
| NasNode.PublishCheckOrder | pkg/nas/nodeserver.go:185-212 | a missing target, then a missing server, is refused with no call; an unreachable server fails after the one dial; a handler that creates a directory or mounts either succeeds or fails with a "Nas, Mount..." or "Check mount..." error |
| NasNode.PublishRunv | pkg/nas/nodeserver.go:158-182 | a runv pod on a mixed node gets the options as given, before any check or normalisation, and nothing is mounted |
| NasNode.UnpublishEffect | pkg/nas/nodeserver.go:289-314 | off a mixed-runtime node, unpublishing is exactly the unmount procedure |
| NasNode.UnpublishCases | pkg/nas/nodeserver.go:301-313 | an unmounted target is left alone after one check; a mounted one gets the check and then `umount <target>`, nothing else; every failure reads "Nas, Umount nfs Fail: ..." |
| NasNode.FsIdBeforeDash | pkg/nas/nodeserver.go:365-369 | the file system id of "<id>-<rest>" is <id> when <id> has no dash |
| NasNode.ExpandQuota | pkg/nas/nodeserver.go:330-385 | every failure is Internal; a PV without `server` or `path` fails with no call; otherwise exactly one SetDirQuota with the file system id, the path, the size in whole GiB rounded down and the region |
| NasNode.NodeCapabilities | pkg/nas/nodeserver.go:388-414 | expansion always; volume stats iff metrics are enabled; nothing else |
| NasNode.NodeServer.constructor | pkg/nas/nodeserver.go:93-107 | a server over its configuration, with no calls made |
| NasNode.NodeServer.Do | pkg/nas/nodeserver.go:192 | records the call and returns the answer for the history so far |
| NasNode.NodeServer.NodePublishVolume | pkg/nas/nodeserver.go:109-287 | issues exactly the calls of PublishEffect and returns its result |
| NasNode.NodeServer.RunvBranch | pkg/nas/nodeserver.go:158-182 | issues exactly the calls of RunvStage |
| NasNode.NodeServer.CheckConnection | pkg/nas/nodeserver.go:185-197 | issues exactly the calls of ConnectStage |
| NasNode.NodeServer.MountNfs | pkg/nas/nodeserver.go:238-286 | issues exactly the calls of MountStage |
| NasNode.NodeServer.NodeUnpublishVolume | pkg/nas/nodeserver.go:289-314 | issues exactly the calls of UnpublishEffect and returns its result |
| NasNode.NodeServer.Umount | pkg/nas/nodeserver.go:301-313 | issues exactly the calls of UmountEffect |
| NasNode.NodeServer.NodeStageVolume | pkg/nas/nodeserver.go:316-321 | always Unimplemented |
| NasNode.NodeServer.NodeUnstageVolume | pkg/nas/nodeserver.go:323-328 | always Unimplemented |
| NasNode.NodeServer.NodeExpandVolume | pkg/nas/nodeserver.go:330-345 | issues exactly the calls of ExpandEffect and returns its result |
| NasNode.NodeServer.ResizeNasVolume | pkg/nas/nodeserver.go:347-385 | issues exactly the calls of ResizeEffect |
| NasNode.NodeServer.NodeGetCapabilities | pkg/nas/nodeserver.go:388-414 | returns NodeCapabilities |
| DbfsController.SizeGiB | pkg/dbfs/controllerserver.go:215-217 | the int64 computation is the ceiling of bytes / GiB for every size that cannot overflow |
| DbfsController.SizeGiBWrapsAtTheTop | pkg/dbfs/controllerserver.go:216 | at the int64 maximum the sum wraps and the size is negative |
| DbfsController.VolumeOptions | pkg/dbfs/controllerserver.go:200-220 | the `Category` parameter, default "cloud_essd"; the `zoneId` parameter, default the node's zone; the request name and the region; the size rounded up to whole GiB whenever that cannot overflow |
| DbfsController.SnapshotOf | pkg/dbfs/controllerserver.go:120-131 | "" without a source; the snapshot id of a snapshot source; InvalidArgument for another source type or an empty snapshot |
| DbfsController.CreateCases | pkg/dbfs/controllerserver.go:102-176 | a remembered name returns the remembered volume with no call; otherwise one CreateDbfs call, whose volume is remembered on success |
| DbfsController.CreateRefusesBadSource | pkg/dbfs/controllerserver.go:122-131 | an unusable source is refused before any cloud call, and nothing is remembered |
| DbfsController.CreateIdempotent | pkg/dbfs/controllerserver.go:105-173 | creating twice under one name asks the cloud at most once and gives the same volume |
| DbfsController.ForgetAsWritten | pkg/dbfs/controllerserver.go:193-196 | as written: no entry is left under the volume id, and every entry under another name is kept as it is, whatever volume it holds |
| DbfsController.ForgetAsWrittenKeepsDeleted | pkg/dbfs/controllerserver.go:173-196 | as written, for every cloud answer, a created name stays remembered after its volume is deleted iff the file system's id differs from the name, and re-creating that name then returns the deleted volume with no cloud call |
| DbfsController.ForgetAsWrittenExample | pkg/dbfs/controllerserver.go:173-196 | with a cloud that names file systems "dbfs-<name>", the deleted volume stays remembered under its name |
| DbfsController.Forget | pkg/dbfs/controllerserver.go:193-196 | (corrected) every entry whose volume is the deleted one is removed, and every other entry is kept |
| DbfsController.CreateAfterDelete | pkg/dbfs/controllerserver.go:102-198 | (corrected delete) after create then delete, the same name creates a new file system |
| DbfsController.ValidateVolumeCapabilities | pkg/dbfs/controllerserver.go:222-233 | the capabilities are confirmed, as given, iff every one asks for multi-node multi-writer |
| DbfsController.ControllerServer.constructor | pkg/dbfs/controllerserver.go:77-95 | nothing remembered and no calls made |
| DbfsController.ControllerServer.CreateVolume | pkg/dbfs/controllerserver.go:102-176 | the cloud calls, the remembered volumes and the result are those of CreateOutcome |
| DbfsController.ControllerServer.DeleteVolume | pkg/dbfs/controllerserver.go:179-198 | (corrected: forgets with Forget) the cloud calls, the remembered volumes and the result are those of DeleteOutcome |
| DbfsController.ControllerServer.ControllerPublishVolume | pkg/dbfs/controllerserver.go:249-263 | exactly one AttachDbfs call; succeeds iff the cloud does, otherwise the fixed InvalidArgument message; the remembered volumes are unchanged |
| DbfsController.ControllerServer.ControllerUnpublishVolume | pkg/dbfs/controllerserver.go:235-247 | exactly one DetachDbfs call; succeeds iff the cloud does, otherwise the fixed InvalidArgument message; the remembered volumes are unchanged |
| OssUtils.Endpoint | pkg/oss/utils.go:110-117 | network type "vpc" gives the internal endpoint of the region; anything else gives the public one |
| OssUtils.EndpointRegion | pkg/oss/utils.go:110-117 | endpoints of different regions differ, and the VPC endpoint of r is the public endpoint of "r-internal" |
| OssUtils.ClientCredential | pkg/oss/utils.go:94-102 | the custom key without token, the custom key with token, or otherwise the node's default key and token |
| OssUtils.RamRoleOption | pkg/oss/utils.go:63-68 | the mount command followed by the RAM role's credentials URL option |
| OssUtils.FindK8sTag | pkg/oss/utils.go:138-142 | the loop is true iff some tag is `k8s.aliyun.com=true` |
| OssUtils.TagMerge | pkg/oss/utils.go:120-154 | tags are written only as the third call, which happens iff the client is made, the tags are read and none is `k8s.aliyun.com=true`; the write keeps the old tags and appends that tag; an `sts` mount uses the node's default key |
| OssUtils.Oss.constructor | pkg/oss/utils.go:94-154 | no calls made and no client |
| OssUtils.Oss.Do | pkg/oss/utils.go:74 | records the call and returns its answer |
| OssUtils.Oss.GetMetaDataOf | pkg/oss/utils.go:49-60 | one metadata request; the body, or "" on any error |
| OssUtils.Oss.GetRAMRoleOption | pkg/oss/utils.go:63-68 | asks the metadata server for the RAM role and returns RamRoleOption of it |
| OssUtils.Oss.IsOssfsMounted | pkg/oss/utils.go:71-81 | runs the mount count once; false when it fails or prints "0" |
| OssUtils.Oss.IsLastSharedVol | pkg/oss/utils.go:84-92 | runs the shared-path count once; "0" and the error on failure, else the trimmed count |
| OssUtils.Oss.NewOSSClient | pkg/oss/utils.go:94-108 | one client request with ClientCredential; the client, or None on error |
| OssUtils.Oss.TagOssAsK8sMounted | pkg/oss/utils.go:120-154 | issues exactly the calls of TagEffect and ends with its client |
| DiskQueryServer.EbsdPort | pkg/disk/nodeQueryServer.go:35-41 | EBSD_PORT when set, else "1737"; never empty |
| DiskQueryServer.BdfDevice | pkg/disk/nodeQueryServer.go:94-104 | a failed BDF lookup gives its error and no device; an empty BDF gives neither; a BDF found comes with the device at it and no error |
| DiskQueryServer.Entry | pkg/disk/nodeQueryServer.go:79-88 | the entry names the disk and the node, with no instance and no error; a disk whose BDF lookup fails has no BDF and no device |
| DiskQueryServer.Kept | pkg/disk/nodeQueryServer.go:76-78 | no more disks than asked, and none of them is "allvolumedisk" |
| DiskQueryServer.ResponseEntries | pkg/disk/nodeQueryServer.go:72-92 | one entry per disk other than "allvolumedisk", in the order asked, each that disk's entry |
| DiskQueryServer.ResponseExamples | pkg/disk/nodeQueryServer.go:76-78 | "allvolumedisk" alone gets an empty answer; a disk asked twice gets two entries |
| DiskQueryServer.BuildBdfInfoResponse | pkg/disk/nodeQueryServer.go:72-92 | the loop builds exactly Response of the disks |
| DiskQueryServer.HandlerCases | pkg/disk/nodeQueryServer.go:43-70 | a non-VF node answers "ignore: ..." without reading the body; a read or decode failure answers "error:"; otherwise the answer is the JSON of the entries |
| DiskQueryClient.QueryUrl | pkg/disk/nodeQueryClient.go:15 | the URL starts `http://<ip>:<port>` and ends with the BDF info path |
| DiskQueryClient.Classify | pkg/disk/nodeQueryClient.go:33-50 | "ignore:" gives one ignore entry; otherwise "error:" gives one error entry; otherwise the decoded JSON |
| DiskQueryClient.QueryReadsHandler | pkg/disk/nodeQueryClient.go:33-44 | the client reads a non-VF node's answer as one ignore entry and a failing server's as one error entry |
| DiskQueryClient.InstanceIP | pkg/disk/nodeQueryClient.go:53-73 | a lookup error passes through; not exactly one instance is "Get Instance with error response: <id>"; the first VPC address, else the first inner one, else "Net InnerIpAddress found " |
| DiskQueryClient.InstanceIPPreference | pkg/disk/nodeQueryClient.go:60-72 | an answer always comes from the single described instance: its first VPC address when it has one, otherwise one of its inner addresses |
| DiskQueryClient.GetInstanceIP | pkg/disk/nodeQueryClient.go:53-73 | asks for the one instance and returns InstanceIP of the answer |

## Left out

- Logging, tracing spans and Kubernetes events are not modelled; they do not affect any result.
- The host, the kubelet, the Kubernetes API, the cloud SDKs, HTTP and JSON are parameters or recorded actions, so their own behaviour is not modelled.
- `filepath.Join` is modelled as joining with "/": the model assumes names that need no cleaning.
- Timeouts and concurrency are not modelled. This covers the 3-second NFS dial, the 10-second HTTP client, the NAS chmod goroutine and `waitTimeout`, and the deferred `Close` calls.
- NasNode.MountStage: the chmod runs in a goroutine in the source, so its order relative to the final mount check is not fixed; the model places it before that check.
- ParseMountFlags, GetPodRunTime, DoNfsMount, checkSystemNasConfig, utils.Run, IsMounted and CreateDest are host actions with their answers as parameters.
- NAS NodeGetVolumeStats is not modelled; the metric code it calls is not part of this model.
- NasNode.NodeServer.NodeExpandVolume: takes the required bytes directly, so a request without a capacity range, which makes the source panic, is not modelled.
- updateNasClient, updateDbfsClient and the GetMetaData calls for region and zone become the parameters `region` and `nodeZone`.
- The `%v` rendering of a DBFS delete request, which DeleteVolume's error text embeds, is the parameter `describe`.
- DbfsController.VolumeOptions: getDbfsVolumeOptions never returns a non-nil error, so the model has no error case.
- DBFS CreateSnapshot, DeleteSnapshot and ControllerExpandVolume do nothing and succeed; they are not modelled. The global maps storageClassServerPos, pvcFileSystemIDMap and pvcMountTargetMap are never used by the modelled code.
- OssUtils.RamRoleOption: the source passes the mount command to Sprintf as the format, so a `%` in it would be read as a verb; the model assumes the command has none.
- utils.GetDefaultAK is the parameter `defaultAK`; oss.New's errors are the answer of the client call.
- The errors and warnings tagOssAsK8sMounted only logs are not returned, as in the source; the model records the calls only.
- The yoda mounts read a missing volume capability as empty; in the source a nil mount capability panics.
- The yoda node's GetLvmdPort is a parameter, and `net.ParseIP` leaves an address unchanged.
- ValidateControllerServiceRequest is the driver's answer: the parameter `validate` of the yoda controller and the field `Env.validate` of the local controller.
- http.NewRequest errors are folded into the transport; the response `%+v` dump is not modelled.
- The yoda controller's ControllerPublishVolume and ControllerUnpublishVolume only log and succeed; they are not modelled.
- The unreachable "Create with no support type" branch of the yoda controller is omitted; the type check before it rules it out.
- The orphan repair ignores the error of utils.IsDirEmpty, as the source does, so only its boolean is modelled.
- `strconv.ParseInt` errors carry the input without `%q` quoting; they tell "value out of range" from "invalid syntax" as Go does.
- The disk plugin's JSON coding, HTTP transport, ECS API, IsVFNode, findBdf and GetDeviceByBdf are parameters; json.Marshal of the request ids is `encode`.
- The disk query HTTP server start-up (QueryServerStart) is left out: it only registers the handler and listens.
- The local controller's constructor, which builds the Kubernetes and snapshot clients, is modelled only as the initial state.
- PlaceVolume: YodaController.ControllerServer.PlaceVolume follows the corrected LVM placement of Findings row 2, so it keeps a named VG on a picked node without asking the scheduler; the source always asks it and adopts its VG and node (LvmPlacementIgnoresVgName states that behaviour).
- YodaController.ControllerServer.CreateVolume: uses PlaceVolume, so the same LVM difference applies; the source's "ScheduleVolume is always called" holds in the model only for requests without a named VG or a picked node.
- YodaNode.NodeServer.MountLvm: uses the corrected target check of Findings row 1, so a target that exists but whose mount check fails gives Internal with the mount check's error, where the source panics; a stat failure other than "not exist" is also reported with the mount check's error, where the source reports the stat's (mount.go:56-57).
- PublishDevice: YodaNode.NodeServer.PublishDevice performs the same corrected target check, with the same two differences as MountLvm.
- DbfsController.ControllerServer.DeleteVolume: forgets with the corrected Forget of Findings row 3, which drops every entry holding the deleted volume; the source drops only an entry whose key equals the volume id, so the name stays remembered (ForgetAsWrittenKeepsDeleted states that behaviour).
- CreateAfterDelete: holds for the corrected delete only; as written the re-create returns the deleted volume.
- LocalController.ControllerServer.DeleteVolume: a PV without a CSI section is read as having no attributes and is refused as an unknown volume type; the source dereferences the nil section (controllerserver.go:514) and panics.
- YodaUtils.LvmSpec: a pinned PV without a CSI section is read as having no attributes and gives the "vgName not exist" error; the source dereferences the nil section (utils.go:143) and panics. DeleteResult refuses such a PV before it reaches LvmSpec.
- Orphaned.FixOrphanedStaysInPod: the containment is textual, because paths are joined without cleaning; a UID from the log that contains "/" or ".." elements, such as "../../x-a-b-c-d", passes ValidUid, and `filepath.Join` would clean it to a path outside the pods directory.

## Findings

| source | as written | input that shows it | evidently intended | confidence | as-written member | corrected member |
|---|---|---|---|---|---|---|
| pkg/yoda/mount.go:49-58 | when the mount check fails on a target that exists, the handler returns `err.Error()` of the shadowed stat error, which is nil | a target path that exists but whose mount check fails | report the mount check's error, as NodeUnpublishVolume does | not executed | YodaMount.PrepareTargetAsWrittenPanics | YodaMount.PrepareTargetReportsMountError |
| pkg/yoda/controllerserver.go:114-117 | the `vgName` parameter is assigned to `volumeType`, so `vgName` stays "" and the scheduler is always asked | an LVM request with `vgName` set and a preferred node | use the requested VG and node without asking the scheduler | not executed | YodaController.LvmPlacementIgnoresVgName | YodaController.LvmPlacementOf |
| pkg/dbfs/controllerserver.go:173-196 | CreateVolume remembers a volume under the request name, but DeleteVolume removes the entry keyed by the volume id | create "pv1", delete the file system it returns, then create "pv1" again | forget the deleted volume, so the re-create makes a new file system | not executed | DbfsController.ForgetAsWrittenKeepsDeleted | DbfsController.CreateAfterDelete |

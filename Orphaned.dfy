/** The orphaned-pod repair of the om package (pkg/om/orphaned.go): a
    kubelet log line naming an orphaned pod is parsed for the pod's UID,
    the pod's leftover CSI volume directories (or volume sub-paths) are
    unmounted and removed, and a pod found clean is remembered so that
    later lines about it touch nothing.

    The node's file system is consulted through `answer`, which gives the
    reply to a call from the calls made before it: a removal may change
    what a later emptiness check sees. */
module Orphaned {
  import opened Wrappers
  import Strings

  const PodsDir := "/var/lib/kubelet/pods"
  /** The mark a repaired pod gets in the fixed lists. */
  const FixedMark := "fixed"

  // ---------------------------------------------------------------------
  // The pod UID of a log line (pkg/om/orphaned.go:26-40)

  /** The pod UID: the second `"`-separated field of the text after
      "rphaned pod"; None when either split has fewer than two pieces. */
  function OrphanUid(line: string): (r: Option<string>)
    ensures r.Some? ==> !Strings.Contains(r.value, "\"")
    ensures !Strings.Contains(line, "rphaned pod") ==> r == None
  {
    var split := Strings.Split(line, "rphaned pod");
    if |split| < 2 then None
    else
      var part := Strings.Split(split[1], "\"");
      if |part| < 2 then None
      else
        Strings.SplitPiecesFree(split[1], "\"");
        Some(part[1])
  }

  /** The kubelet's message: the quoted UID after "orphaned pod". */
  lemma OrphanUidOfLine(a: string, b: string, uid: string, c: string)
    requires !Strings.Contains(a + "rphaned po", "rphaned pod")
    requires !Strings.Contains(b + "\"" + uid + "\"" + c, "rphaned pod")
    requires !Strings.Contains(b, "\"") && !Strings.Contains(uid, "\"")
    ensures OrphanUid(a + "rphaned pod" + b + "\"" + uid + "\"" + c) == Some(uid)
  {
    var rest := b + "\"" + uid + "\"" + c;
    assert a + "rphaned pod" + b + "\"" + uid + "\"" + c == a + "rphaned pod" + rest;
    AfterMarker(a, rest);
    QuotedPart(b, uid, c);
  }

  /** The text after the first "rphaned pod" is the second piece. */
  lemma AfterMarker(a: string, rest: string)
    requires !Strings.Contains(a + "rphaned po", "rphaned pod")
    requires !Strings.Contains(rest, "rphaned pod")
    ensures var split := Strings.Split(a + "rphaned pod" + rest, "rphaned pod");
      |split| == 2 && split[1] == rest
  {
    assert "rphaned pod"[..|"rphaned pod"| - 1] == "rphaned po";
    Strings.SplitCons(a, "rphaned pod", rest);
    assert Strings.Split(rest, "rphaned pod") == [rest];
  }

  /** The second `"`-separated piece of `b"uid"c` is `uid`. */
  lemma QuotedPart(b: string, uid: string, c: string)
    requires !Strings.Contains(b, "\"") && !Strings.Contains(uid, "\"")
    ensures var part := Strings.Split(b + "\"" + uid + "\"" + c, "\"");
      |part| >= 2 && part[1] == uid
  {
    assert "\""[..0] == [];
    assert b + "\""[..0] == b && uid + "\""[..0] == uid;
    assert b + "\"" + uid + "\"" + c == b + "\"" + (uid + "\"" + c);
    Strings.SplitCons(b, "\"", uid + "\"" + c);
    Strings.SplitCons(uid, "\"", c);
  }

  /** A pod UID has exactly five `-`-separated parts. */
  predicate ValidUid(uid: string) {
    |Strings.Split(uid, "-")| == 5
  }

  /** The accepted UIDs are exactly the joins of five dash-free parts. */
  lemma ValidUidParts(uid: string, parts: seq<string>)
    ensures ValidUid(uid) ==>
      var p := Strings.Split(uid, "-");
      Strings.Join(p, "-") == uid && forall k :: 0 <= k < 5 ==> !Strings.Contains(p[k], "-")
    ensures |parts| == 5 && (forall k :: 0 <= k < 5 ==> !Strings.Contains(parts[k], "-")) ==>
      ValidUid(Strings.Join(parts, "-"))
  {
    Strings.JoinSplit(uid, "-");
    Strings.SplitPiecesFree(uid, "-");
    if |parts| == 5 && (forall k :: 0 <= k < 5 ==> !Strings.Contains(parts[k], "-")) {
      Strings.SplitJoin(parts, "-");
    }
  }

  // ---------------------------------------------------------------------
  // The node's file system

  /** One call on the file system. */
  datatype FsAction =
    | ReadDir(path: string)            // ioutil.ReadDir
    | FileExists(path: string)         // IsFileExisting
    | DirEmpty(path: string)           // utils.IsDirEmpty
    | CleanupMountPoint(path: string)  // k8smount.CleanupMountPoint
    | Remove(path: string)             // os.Remove

  /** A reply: the names a listing returns, the boolean a check returns,
      and whether the call failed. */
  datatype FsReply = FsReply(names: seq<string>, yes: bool, failed: bool)

  /** The reply to a call, given the calls made before it. */
  type Answer = (seq<FsAction>, FsAction) -> FsReply

  /** `filepath.Join` of two clean, non-empty elements. */
  function PathJoin(dir: string, name: string): string {
    dir + "/" + name
  }

  /** Every call in `actions` is on a path under `dir`. */
  predicate Under(actions: seq<FsAction>, dir: string) {
    forall i :: 0 <= i < |actions| ==> Strings.HasPrefix(actions[i].path, dir)
  }

  lemma UnderConcat(s: seq<FsAction>, t: seq<FsAction>, dir: string)
    requires Under(s, dir) && Under(t, dir)
    ensures Under(s + t, dir)
  {
    forall i | 0 <= i < |s + t|
      ensures Strings.HasPrefix((s + t)[i].path, dir)
    {
      if i >= |s| {
        assert (s + t)[i] == t[i - |s|];
      }
    }
  }

  /** A path inside `dir + "/" + name` is inside `dir + "/"`. */
  lemma UnderChild(actions: seq<FsAction>, dir: string, name: string)
    requires Under(actions, PathJoin(dir, name))
    ensures Under(actions, dir + "/")
  {
    forall i | 0 <= i < |actions|
      ensures Strings.HasPrefix(actions[i].path, dir + "/")
    {
      var p := actions[i].path;
      assert p[..|dir + "/"|] == p[..|PathJoin(dir, name)|][..|dir + "/"|];
    }
  }

  lemma JoinUnder(dir: string, name: string)
    ensures Strings.HasPrefix(PathJoin(dir, name), dir) && Strings.HasPrefix(PathJoin(dir, name), dir + "/")
  {
    assert PathJoin(dir, name)[..|dir|] == dir;
    assert PathJoin(dir, name)[..|dir + "/"|] == dir + "/";
  }

  /** The calls made, and whether the step got through. */
  datatype Steps = Steps(actions: seq<FsAction>, ok: bool)

  // ---------------------------------------------------------------------
  // FixOrphanedPodIssue (pkg/om/orphaned.go:25-91)

  /** The pod's CSI volume directory. */
  function CsiPodPath(uid: string): string {
    PathJoin(PathJoin(PodsDir, uid), "volumes/kubernetes.io~csi")
  }

  /** The repair of one volume directory: unmount a leftover mount point
      (giving up on this volume when that fails), remove the volume's
      JSON file, then the directory if it is empty. */
  function CleanVolume(answer: Answer, h: seq<FsAction>, volumePath: string): (r: seq<FsAction>)
    ensures Under(r, volumePath)
    ensures Remove(volumePath) in r ==>
      |r| >= 2 && r[|r| - 1] == Remove(volumePath) && r[|r| - 2] == DirEmpty(volumePath)
      && answer(h + r[..|r| - 2], DirEmpty(volumePath)).yes
  {
    var mount := PathJoin(volumePath, "mount");
    var json := PathJoin(volumePath, "vol_data.json");
    JoinUnder(volumePath, "mount");
    JoinUnder(volumePath, "vol_data.json");
    assert Strings.HasPrefix(volumePath, volumePath);
    var a1 := [FileExists(mount)];
    var mounted := answer(h, FileExists(mount)).yes;
    var a2 := if mounted then a1 + [CleanupMountPoint(mount)] else a1;
    if mounted && answer(h + a1, CleanupMountPoint(mount)).failed then
      assert Remove(volumePath) !in a2 by {
        assert forall i :: 0 <= i < |a2| ==> a2[i].path != volumePath;
      }
      a2
    else
      var a3 := a2 + [FileExists(json)];
      var a4 := if answer(h + a2, FileExists(json)).yes then a3 + [Remove(json)] else a3;
      var a5 := a4 + [DirEmpty(volumePath)];
      assert forall i :: 0 <= i < |a4| ==> a4[i].path != volumePath;
      if answer(h + a4, DirEmpty(volumePath)).yes then
        var r := a5 + [Remove(volumePath)];
        assert r[..|r| - 2] == a4;
        r
      else a5
  }

  /** The repair of the listed volume directories, in order. */
  function CleanVolumes(answer: Answer, h: seq<FsAction>, podPath: string, names: seq<string>): (r: seq<FsAction>)
    ensures Under(r, podPath + "/")
  {
    if names == [] then []
    else
      var pre := CleanVolumes(answer, h, podPath, names[..|names| - 1]);
      var step := CleanVolume(answer, h + pre, PathJoin(podPath, names[|names| - 1]));
      UnderChild(step, podPath, names[|names| - 1]);
      UnderConcat(pre, step, podPath + "/");
      pre + step
  }

  /** What a repair does: the calls made, the fixed list after it, and the
      answer. */
  datatype FixOutcome = FixOutcome(actions: seq<FsAction>, fixed: map<string, string>, ok: bool)

  /** A pod already marked fixed. */
  predicate IsFixed(fixed: map<string, string>, uid: string) {
    uid in fixed && fixed[uid] == FixedMark
  }

  /** FixOrphanedPodIssue. */
  function FixOrphaned(answer: Answer, h: seq<FsAction>, fixed: map<string, string>, line: string): FixOutcome {
    var uid := OrphanUid(line);
    if uid.None? || !ValidUid(uid.value) then FixOutcome([], fixed, false)
    else if IsFixed(fixed, uid.value) then FixOutcome([], fixed, true)
    else RepairOutcome(answer, h, fixed, uid.value)
  }

  /** The repair of a pod not marked fixed yet. */
  function RepairOutcome(answer: Answer, h: seq<FsAction>, fixed: map<string, string>, uid: string): FixOutcome {
    var podPath := CsiPodPath(uid);
    var listing := answer(h, ReadDir(podPath));
    if listing.failed then FixOutcome([ReadDir(podPath)], fixed, false)
    else
      var cleaned := [ReadDir(podPath)] + CleanVolumes(answer, h + [ReadDir(podPath)], podPath, listing.names);
      var gone := !answer(h + cleaned, FileExists(podPath)).yes;
      var empty := answer(h + cleaned + [FileExists(podPath)], DirEmpty(podPath)).yes;
      FixOutcome(cleaned + [FileExists(podPath), DirEmpty(podPath)],
        if gone || empty then fixed[uid := FixedMark] else fixed, true)
  }

  /** The answer is true exactly for a well-formed UID of a pod that is
      already fixed or whose volume directory could be listed; failures of
      the individual clean-ups do not change it. A line without a valid
      UID, or a pod already fixed, touches nothing. */
  lemma FixOrphanedResult(answer: Answer, h: seq<FsAction>, fixed: map<string, string>, line: string)
    ensures var o := FixOrphaned(answer, h, fixed, line);
      var uid := OrphanUid(line);
      && (o.ok <==>
        && uid.Some? && ValidUid(uid.value)
        && (IsFixed(fixed, uid.value) || !answer(h, ReadDir(CsiPodPath(uid.value))).failed))
      && (uid.None? || !ValidUid(uid.value) ==> o == FixOutcome([], fixed, false))
      && (uid.Some? && ValidUid(uid.value) && IsFixed(fixed, uid.value) ==> o == FixOutcome([], fixed, true))
  {
  }

  /** The fixed list only grows, by the pod of the line, and a pod is
      marked only when its volume directory is gone or empty after the
      repair. */
  lemma FixOrphanedMarks(answer: Answer, h: seq<FsAction>, fixed: map<string, string>, line: string)
    ensures var o := FixOrphaned(answer, h, fixed, line);
      var uid := OrphanUid(line);
      && (o.fixed == fixed || (uid.Some? && o.fixed == fixed[uid.value := FixedMark]))
      && (o.fixed != fixed ==>
        && uid.Some?
        && var p := CsiPodPath(uid.value);
        var n := |o.actions|;
        && n >= 2 && o.actions[n - 2] == FileExists(p) && o.actions[n - 1] == DirEmpty(p)
        && (!answer(h + o.actions[..n - 2], FileExists(p)).yes || answer(h + o.actions[..n - 1], DirEmpty(p)).yes))
  {
    var o := FixOrphaned(answer, h, fixed, line);
    var uid := OrphanUid(line);
    if o.fixed != fixed {
      var p := CsiPodPath(uid.value);
      var listing := answer(h, ReadDir(p));
      var cleaned := [ReadDir(p)] + CleanVolumes(answer, h + [ReadDir(p)], p, listing.names);
      assert o.actions == cleaned + [FileExists(p), DirEmpty(p)];
      var n := |o.actions|;
      assert o.actions[..n - 2] == cleaned;
      assert o.actions[..n - 1] == cleaned + [FileExists(p)];
      AppendAssoc(h, cleaned, [FileExists(p)]);
    }
  }

  /** Every call of a repair is inside the pod's CSI volume directory. */
  lemma FixOrphanedStaysInPod(answer: Answer, h: seq<FsAction>, fixed: map<string, string>, line: string)
    requires OrphanUid(line).Some?
    ensures Under(FixOrphaned(answer, h, fixed, line).actions, CsiPodPath(OrphanUid(line).value))
  {
    var uid := OrphanUid(line).value;
    if ValidUid(uid) && !IsFixed(fixed, uid) {
      RepairStaysInPod(answer, h, fixed, uid);
    }
  }

  /** Every call of a pod's repair is inside its CSI volume directory. */
  lemma RepairStaysInPod(answer: Answer, h: seq<FsAction>, fixed: map<string, string>, uid: string)
    ensures Under(RepairOutcome(answer, h, fixed, uid).actions, CsiPodPath(uid))
  {
    var p := CsiPodPath(uid);
    var listing := answer(h, ReadDir(p));
    assert Strings.HasPrefix(p, p);
    assert Under([ReadDir(p)], p);
    if !listing.failed {
      var vols := CleanVolumes(answer, h + [ReadDir(p)], p, listing.names);
      UnderParent(vols, p);
      UnderConcat([ReadDir(p)], vols, p);
      UnderConcat([ReadDir(p)] + vols, [FileExists(p), DirEmpty(p)], p);
    }
  }

  /** A call inside `dir + "/"` is inside `dir`. */
  lemma UnderParent(actions: seq<FsAction>, dir: string)
    requires Under(actions, dir + "/")
    ensures Under(actions, dir)
  {
    forall i | 0 <= i < |actions|
      ensures Strings.HasPrefix(actions[i].path, dir)
    {
      assert actions[i].path[..|dir|] == actions[i].path[..|dir + "/"|][..|dir|];
    }
  }

  // ---------------------------------------------------------------------
  // FixSubPathOrphanedPodIssue (pkg/om/orphaned.go:96-177)

  /** The pod's volume sub-path directory. */
  function SubPathPodPath(uid: string): string {
    PathJoin(PathJoin(PodsDir, uid), "volume-subpaths")
  }

  /** Unmount each listed sub-path; a failure only moves on to the next. */
  function CleanSubpaths(containerPath: string, names: seq<string>): (r: seq<FsAction>)
    ensures |r| == |names|
    ensures forall i :: 0 <= i < |r| ==> r[i] == CleanupMountPoint(PathJoin(containerPath, names[i]))
  {
    if names == [] then []
    else CleanSubpaths(containerPath, names[..|names| - 1]) + [CleanupMountPoint(PathJoin(containerPath, names[|names| - 1]))]
  }

  /** One container directory: list it (a failure ends the repair),
      unmount its sub-paths, remove it if empty. */
  function CleanContainer(answer: Answer, h: seq<FsAction>, containerPath: string): Steps {
    var listing := answer(h, ReadDir(containerPath));
    if listing.failed then Steps([ReadDir(containerPath)], false)
    else
      var a := [ReadDir(containerPath)] + CleanSubpaths(containerPath, listing.names) + [DirEmpty(containerPath)];
      if answer(h + a[..|a| - 1], DirEmpty(containerPath)).yes then Steps(a + [Remove(containerPath)], true)
      else Steps(a, true)
  }

  /** The listed container directories, in order, up to the first failure. */
  function CleanContainers(answer: Answer, h: seq<FsAction>, volumePath: string, names: seq<string>): Steps {
    if names == [] then Steps([], true)
    else
      var pre := CleanContainers(answer, h, volumePath, names[..|names| - 1]);
      if !pre.ok then pre
      else
        var step := CleanContainer(answer, h + pre.actions, PathJoin(volumePath, names[|names| - 1]));
        Steps(pre.actions + step.actions, step.ok)
  }

  /** One volume directory of sub-paths: list it, repair its containers,
      remove it if empty. */
  function SubpathVolume(answer: Answer, h: seq<FsAction>, volumePath: string): Steps {
    var listing := answer(h, ReadDir(volumePath));
    if listing.failed then Steps([ReadDir(volumePath)], false)
    else
      var c := CleanContainers(answer, h + [ReadDir(volumePath)], volumePath, listing.names);
      if !c.ok then Steps([ReadDir(volumePath)] + c.actions, false)
      else
        var a := [ReadDir(volumePath)] + c.actions + [DirEmpty(volumePath)];
        if answer(h + a[..|a| - 1], DirEmpty(volumePath)).yes then Steps(a + [Remove(volumePath)], true)
        else Steps(a, true)
  }

  /** The listed volume directories, in order, up to the first failure. */
  function SubpathVolumes(answer: Answer, h: seq<FsAction>, podPath: string, names: seq<string>): Steps {
    if names == [] then Steps([], true)
    else
      var pre := SubpathVolumes(answer, h, podPath, names[..|names| - 1]);
      if !pre.ok then pre
      else
        var step := SubpathVolume(answer, h + pre.actions, PathJoin(podPath, names[|names| - 1]));
        Steps(pre.actions + step.actions, step.ok)
  }

  /** Once a container fails, the remaining ones are not visited. */
  lemma {:induction false} CleanContainersStop(answer: Answer, h: seq<FsAction>, volumePath: string, names: seq<string>, i: nat)
    requires i < |names| && !CleanContainers(answer, h, volumePath, names[..i + 1]).ok
    ensures CleanContainers(answer, h, volumePath, names) == CleanContainers(answer, h, volumePath, names[..i + 1])
    decreases |names|
  {
    if i + 1 < |names| {
      var init := names[..|names| - 1];
      assert init[..i + 1] == names[..i + 1];
      CleanContainersStop(answer, h, volumePath, init, i);
    } else {
      assert names[..i + 1] == names;
    }
  }

  /** Once a volume fails, the remaining ones are not visited. */
  lemma {:induction false} SubpathVolumesStop(answer: Answer, h: seq<FsAction>, podPath: string, names: seq<string>, i: nat)
    requires i < |names| && !SubpathVolumes(answer, h, podPath, names[..i + 1]).ok
    ensures SubpathVolumes(answer, h, podPath, names) == SubpathVolumes(answer, h, podPath, names[..i + 1])
    decreases |names|
  {
    if i + 1 < |names| {
      var init := names[..|names| - 1];
      assert init[..i + 1] == names[..i + 1];
      SubpathVolumesStop(answer, h, podPath, init, i);
    } else {
      assert names[..i + 1] == names;
    }
  }

  /** FixSubPathOrphanedPodIssue. */
  function FixSubPath(answer: Answer, h: seq<FsAction>, fixed: map<string, string>, line: string): FixOutcome {
    var uid := OrphanUid(line);
    if uid.None? || !ValidUid(uid.value) then FixOutcome([], fixed, false)
    else if IsFixed(fixed, uid.value) then FixOutcome([], fixed, true)
    else SubPathRepair(answer, h, fixed, uid.value)
  }

  /** The sub-path repair of a pod not marked fixed yet. */
  function SubPathRepair(answer: Answer, h: seq<FsAction>, fixed: map<string, string>, uid: string): FixOutcome {
    var podPath := SubPathPodPath(uid);
    var listing := answer(h, ReadDir(podPath));
    if listing.failed then FixOutcome([ReadDir(podPath)], fixed, false)
    else
      var v := SubpathVolumes(answer, h + [ReadDir(podPath)], podPath, listing.names);
      var a := [ReadDir(podPath)] + v.actions;
      if !v.ok then FixOutcome(a, fixed, false)
      else
        var b := a + [DirEmpty(podPath)] + (if answer(h + a, DirEmpty(podPath)).yes then [Remove(podPath)] else []);
        var gone := !answer(h + b, FileExists(podPath)).yes;
        FixOutcome(b + [FileExists(podPath)], if gone then fixed[uid := FixedMark] else fixed, true)
  }

  /** The sub-path repair parses the line the same way, answers true only
      when every listing succeeded, and marks the pod, in its own list,
      only when the sub-path directory is gone at the end. */
  lemma FixSubPathResult(answer: Answer, h: seq<FsAction>, fixed: map<string, string>, line: string)
    ensures var o := FixSubPath(answer, h, fixed, line);
      var uid := OrphanUid(line);
      && (uid.None? || !ValidUid(uid.value) ==> o == FixOutcome([], fixed, false))
      && (uid.Some? && ValidUid(uid.value) && IsFixed(fixed, uid.value) ==> o == FixOutcome([], fixed, true))
      && (uid.Some? && ValidUid(uid.value) && !IsFixed(fixed, uid.value) ==>
        var p := SubPathPodPath(uid.value);
        var listing := answer(h, ReadDir(p));
        && (listing.failed ==> o == FixOutcome([ReadDir(p)], fixed, false))
        && (!listing.failed ==> (o.ok <==> SubpathVolumes(answer, h + [ReadDir(p)], p, listing.names).ok)))
      && (o.fixed == fixed || (uid.Some? && o.fixed == fixed[uid.value := FixedMark]))
      && (o.fixed != fixed ==>
        && uid.Some?
        && var n := |o.actions|;
        n >= 1 && o.actions[n - 1] == FileExists(SubPathPodPath(uid.value))
        && !answer(h + o.actions[..n - 1], FileExists(SubPathPodPath(uid.value))).yes)
  {
    var o := FixSubPath(answer, h, fixed, line);
    if o.fixed != fixed {
      assert o.actions[..|o.actions| - 1] + [o.actions[|o.actions| - 1]] == o.actions;
    }
  }

  // ---------------------------------------------------------------------
  // The package state

  class Om {
    const answer: Answer
    /** Every file-system call made so far. */
    var fs: seq<FsAction>
    /** FixedPodList and FixedSubPathPodList. */
    var fixedPodList: map<string, string>
    var fixedSubPathPodList: map<string, string>

    constructor (answer: Answer)
      ensures this.answer == answer && fs == [] && fixedPodList == map[] && fixedSubPathPodList == map[]
    {
      this.answer := answer;
      fs := [];
      fixedPodList := map[];
      fixedSubPathPodList := map[];
    }

    method Do(a: FsAction) returns (r: FsReply)
      modifies this
      ensures fs == old(fs) + [a] && r == answer(old(fs), a)
      ensures fixedPodList == old(fixedPodList) && fixedSubPathPodList == old(fixedSubPathPodList)
    {
      r := answer(fs, a);
      fs := fs + [a];
    }

    /** FixOrphanedPodIssue. */
    method FixOrphanedPodIssue(line: string) returns (ok: bool)
      modifies this
      ensures var o := FixOrphaned(answer, old(fs), old(fixedPodList), line);
        fs == old(fs) + o.actions && fixedPodList == o.fixed && ok == o.ok
      ensures fixedSubPathPodList == old(fixedSubPathPodList)
    {
      var splitStr := Strings.Split(line, "rphaned pod");
      if |splitStr| < 2 {
        return false;
      }
      var partStr := Strings.Split(splitStr[1], "\"");
      if |partStr| < 2 {
        return false;
      }
      var orphanUid := partStr[1];
      if |Strings.Split(orphanUid, "-")| != 5 {
        return false;
      }
      if orphanUid in fixedPodList && fixedPodList[orphanUid] == FixedMark {
        return true;
      }
      ok := RepairPod(orphanUid);
    }

    /** FixOrphanedPodIssue for a pod not yet fixed: list the pod's CSI
        volumes, repair each, and mark the pod when nothing is left. */
    method RepairPod(orphanUid: string) returns (ok: bool)
      modifies this
      ensures var o := RepairOutcome(answer, old(fs), old(fixedPodList), orphanUid);
        fs == old(fs) + o.actions && fixedPodList == o.fixed && ok == o.ok
      ensures fixedSubPathPodList == old(fixedSubPathPodList)
    {
      var csiPodPath := CsiPodPath(orphanUid);
      ghost var start := fs;
      var volumes := Do(ReadDir(csiPodPath));
      if volumes.failed {
        return false;
      }
      ghost var listed := fs;
      CleanVolumesAt(csiPodPath, volumes.names);
      ghost var cleaned := [ReadDir(csiPodPath)] + CleanVolumes(answer, listed, csiPodPath, volumes.names);
      AppendAssoc(start, [ReadDir(csiPodPath)], CleanVolumes(answer, listed, csiPodPath, volumes.names));
      assert fs == start + cleaned;
      var exists_ := Do(FileExists(csiPodPath));
      if !exists_.yes {
        fixedPodList := fixedPodList[orphanUid := FixedMark];
      }
      var empty := Do(DirEmpty(csiPodPath));
      AppendAssoc(start, cleaned, [FileExists(csiPodPath)]);
      AppendAssoc(start, cleaned + [FileExists(csiPodPath)], [DirEmpty(csiPodPath)]);
      assert cleaned + [FileExists(csiPodPath)] + [DirEmpty(csiPodPath)] == cleaned + [FileExists(csiPodPath), DirEmpty(csiPodPath)];
      if empty.yes {
        fixedPodList := fixedPodList[orphanUid := FixedMark];
      }
      return true;
    }

    /** The volume loop of FixOrphanedPodIssue: each listed volume of the
        pod is cleaned, in order. */
    method CleanVolumesAt(csiPodPath: string, names: seq<string>)
      modifies this
      ensures fs == old(fs) + CleanVolumes(answer, old(fs), csiPodPath, names)
      ensures fixedPodList == old(fixedPodList) && fixedSubPathPodList == old(fixedSubPathPodList)
    {
      var i := 0;
      while i < |names|
        invariant 0 <= i <= |names|
        invariant fs == old(fs) + CleanVolumes(answer, old(fs), csiPodPath, names[..i])
        invariant fixedPodList == old(fixedPodList) && fixedSubPathPodList == old(fixedSubPathPodList)
      {
        ghost var pre := CleanVolumes(answer, old(fs), csiPodPath, names[..i]);
        assert names[..i + 1][..i] == names[..i];
        CleanVolumeAt(PathJoin(csiPodPath, names[i]));
        AppendAssoc(old(fs), pre, CleanVolume(answer, old(fs) + pre, PathJoin(csiPodPath, names[i])));
        i := i + 1;
      }
      assert names[..i] == names;
    }

    /** The body of the volume loop of FixOrphanedPodIssue. */
    method CleanVolumeAt(volumePath: string)
      modifies this
      ensures fs == old(fs) + CleanVolume(answer, old(fs), volumePath)
      ensures fixedPodList == old(fixedPodList) && fixedSubPathPodList == old(fixedSubPathPodList)
    {
      var mount := PathJoin(volumePath, "mount");
      var json := PathJoin(volumePath, "vol_data.json");
      ghost var h := fs;
      ghost var a1 := [FileExists(mount)];
      var m := Do(FileExists(mount));
      if m.yes {
        var c := Do(CleanupMountPoint(mount));
        AppendAssoc(h, a1, [CleanupMountPoint(mount)]);
        if c.failed {
          return;
        }
      }
      ghost var a2 := fs[|h|..];
      assert fs == h + a2;
      var j := Do(FileExists(json));
      AppendAssoc(h, a2, [FileExists(json)]);
      if j.yes {
        var rm := Do(Remove(json));
        AppendAssoc(h, a2 + [FileExists(json)], [Remove(json)]);
      }
      ghost var a4 := fs[|h|..];
      assert fs == h + a4;
      var e := Do(DirEmpty(volumePath));
      AppendAssoc(h, a4, [DirEmpty(volumePath)]);
      if e.yes {
        var rm := Do(Remove(volumePath));
        AppendAssoc(h, a4 + [DirEmpty(volumePath)], [Remove(volumePath)]);
      }
    }

    /** FixSubPathOrphanedPodIssue. */
    method FixSubPathOrphanedPodIssue(line: string) returns (ok: bool)
      modifies this
      ensures var o := FixSubPath(answer, old(fs), old(fixedSubPathPodList), line);
        fs == old(fs) + o.actions && fixedSubPathPodList == o.fixed && ok == o.ok
      ensures fixedPodList == old(fixedPodList)
    {
      var splitStr := Strings.Split(line, "rphaned pod");
      if |splitStr| < 2 {
        return false;
      }
      var partStr := Strings.Split(splitStr[1], "\"");
      if |partStr| < 2 {
        return false;
      }
      var orphanUid := partStr[1];
      if |Strings.Split(orphanUid, "-")| != 5 {
        return false;
      }
      if orphanUid in fixedSubPathPodList && fixedSubPathPodList[orphanUid] == FixedMark {
        return true;
      }
      ok := RepairSubPaths(orphanUid);
    }

    /** FixSubPathOrphanedPodIssue for a pod not yet fixed. */
    method RepairSubPaths(orphanUid: string) returns (ok: bool)
      modifies this
      ensures var o := SubPathRepair(answer, old(fs), old(fixedSubPathPodList), orphanUid);
        fs == old(fs) + o.actions && fixedSubPathPodList == o.fixed && ok == o.ok
      ensures fixedPodList == old(fixedPodList)
    {
      var podPath := SubPathPodPath(orphanUid);
      ghost var start := fs;
      var volumes := Do(ReadDir(podPath));
      if volumes.failed {
        return false;
      }
      ghost var listed := fs;
      var i := 0;
      while i < |volumes.names|
        invariant 0 <= i <= |volumes.names|
        invariant SubpathVolumes(answer, listed, podPath, volumes.names[..i]).ok
        invariant fs == listed + SubpathVolumes(answer, listed, podPath, volumes.names[..i]).actions
        invariant fixedPodList == old(fixedPodList) && fixedSubPathPodList == old(fixedSubPathPodList)
      {
        ghost var pre := SubpathVolumes(answer, listed, podPath, volumes.names[..i]);
        assert volumes.names[..i + 1][..i] == volumes.names[..i];
        var v := CleanSubpathVolume(PathJoin(podPath, volumes.names[i]));
        ghost var step := SubpathVolume(answer, listed + pre.actions, PathJoin(podPath, volumes.names[i]));
        AppendAssoc(listed, pre.actions, step.actions);
        if !v {
          SubpathVolumesStop(answer, listed, podPath, volumes.names, i);
          AppendAssoc(start, [ReadDir(podPath)], SubpathVolumes(answer, listed, podPath, volumes.names).actions);
          return false;
        }
        i := i + 1;
      }
      assert volumes.names[..i] == volumes.names;
      ghost var a := [ReadDir(podPath)] + SubpathVolumes(answer, listed, podPath, volumes.names).actions;
      AppendAssoc(start, [ReadDir(podPath)], SubpathVolumes(answer, listed, podPath, volumes.names).actions);
      assert fs == start + a;
      var empty := Do(DirEmpty(podPath));
      AppendAssoc(start, a, [DirEmpty(podPath)]);
      ghost var b := a + [DirEmpty(podPath)] + (if empty.yes then [Remove(podPath)] else []);
      if empty.yes {
        var rm := Do(Remove(podPath));
        AppendAssoc(start, a + [DirEmpty(podPath)], [Remove(podPath)]);
      }
      assert fs == start + b;
      var exists_ := Do(FileExists(podPath));
      AppendAssoc(start, b, [FileExists(podPath)]);
      if !exists_.yes {
        fixedSubPathPodList := fixedSubPathPodList[orphanUid := FixedMark];
      }
      assert SubPathRepair(answer, start, old(fixedSubPathPodList), orphanUid).actions == b + [FileExists(podPath)];
      return true;
    }

    /** One volume directory of the sub-path repair. */
    method CleanSubpathVolume(volumePath: string) returns (ok: bool)
      modifies this
      ensures fs == old(fs) + SubpathVolume(answer, old(fs), volumePath).actions
      ensures ok == SubpathVolume(answer, old(fs), volumePath).ok
      ensures fixedPodList == old(fixedPodList) && fixedSubPathPodList == old(fixedSubPathPodList)
    {
      ghost var start := fs;
      var containers := Do(ReadDir(volumePath));
      if containers.failed {
        return false;
      }
      ghost var listed := fs;
      var i := 0;
      while i < |containers.names|
        invariant 0 <= i <= |containers.names|
        invariant CleanContainers(answer, listed, volumePath, containers.names[..i]).ok
        invariant fs == listed + CleanContainers(answer, listed, volumePath, containers.names[..i]).actions
        invariant fixedPodList == old(fixedPodList) && fixedSubPathPodList == old(fixedSubPathPodList)
      {
        ghost var pre := CleanContainers(answer, listed, volumePath, containers.names[..i]);
        assert containers.names[..i + 1][..i] == containers.names[..i];
        var c := CleanContainerAt(PathJoin(volumePath, containers.names[i]));
        ghost var step := CleanContainer(answer, listed + pre.actions, PathJoin(volumePath, containers.names[i]));
        AppendAssoc(listed, pre.actions, step.actions);
        if !c {
          CleanContainersStop(answer, listed, volumePath, containers.names, i);
          AppendAssoc(start, [ReadDir(volumePath)], CleanContainers(answer, listed, volumePath, containers.names).actions);
          return false;
        }
        i := i + 1;
      }
      assert containers.names[..i] == containers.names;
      ghost var c := CleanContainers(answer, listed, volumePath, containers.names);
      AppendAssoc(start, [ReadDir(volumePath)], c.actions);
      var empty := Do(DirEmpty(volumePath));
      ghost var a := [ReadDir(volumePath)] + c.actions + [DirEmpty(volumePath)];
      AppendAssoc(start, [ReadDir(volumePath)] + c.actions, [DirEmpty(volumePath)]);
      assert a[..|a| - 1] == [ReadDir(volumePath)] + c.actions;
      if empty.yes {
        var rm := Do(Remove(volumePath));
        AppendAssoc(start, a, [Remove(volumePath)]);
      }
      return true;
    }

    /** One container directory of the sub-path repair. */
    method CleanContainerAt(containerPath: string) returns (ok: bool)
      modifies this
      ensures fs == old(fs) + CleanContainer(answer, old(fs), containerPath).actions
      ensures ok == CleanContainer(answer, old(fs), containerPath).ok
      ensures fixedPodList == old(fixedPodList) && fixedSubPathPodList == old(fixedSubPathPodList)
    {
      ghost var start := fs;
      var subpaths := Do(ReadDir(containerPath));
      if subpaths.failed {
        return false;
      }
      var i := 0;
      while i < |subpaths.names|
        invariant 0 <= i <= |subpaths.names|
        invariant fs == start + [ReadDir(containerPath)] + CleanSubpaths(containerPath, subpaths.names[..i])
        invariant fixedPodList == old(fixedPodList) && fixedSubPathPodList == old(fixedSubPathPodList)
      {
        assert subpaths.names[..i + 1][..i] == subpaths.names[..i];
        var c := Do(CleanupMountPoint(PathJoin(containerPath, subpaths.names[i])));
        i := i + 1;
      }
      assert subpaths.names[..i] == subpaths.names;
      ghost var a := [ReadDir(containerPath)] + CleanSubpaths(containerPath, subpaths.names) + [DirEmpty(containerPath)];
      AppendAssoc(start, [ReadDir(containerPath)], CleanSubpaths(containerPath, subpaths.names));
      var empty := Do(DirEmpty(containerPath));
      AppendAssoc(start, [ReadDir(containerPath)] + CleanSubpaths(containerPath, subpaths.names), [DirEmpty(containerPath)]);
      assert a[..|a| - 1] == [ReadDir(containerPath)] + CleanSubpaths(containerPath, subpaths.names);
      if empty.yes {
        var rm := Do(Remove(containerPath));
        AppendAssoc(start, a, [Remove(containerPath)]);
      }
      return true;
    }
  }

}

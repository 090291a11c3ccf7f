/** The LVM command layer of the yoda node daemon: it turns requests on
    logical volumes (LVs) and volume groups (VGs) into `lvs`, `lvcreate`,
    `lvremove`, `vgs`, `vgcreate`, `vgremove`, `lvchange` and `dd` command
    lines and runs them on the host.

    A command is kept as its argument list; the shell is handed the
    arguments joined by single spaces (`CommandLine`). The host is a `Host`
    value: what the shell prints for a command, and what the (separate)
    output parser makes of one line of `lvs`/`vgs` output. A `Shell` object
    records every command it runs, in order. */
module LvmCommands {
  import opened Wrappers
  import opened GoInt
  import opened Strings

  /** Prefix that runs a command in the host's mount namespace; note the
      trailing space, which `CommandLine` keeps. */
  const NsenterCmd := "/nsenter --mount=/proc/1/ns/mnt "

  /** A tag that stops RemoveLV and RemoveVG from removing a volume. */
  const ProtectedTagName := "protected"

  /** The parsed fields of one LV or VG line that this layer looks at. */
  datatype LV = LV(name: string, size: nat, tags: seq<string>)
  datatype VG = VG(name: string, size: nat, tags: seq<string>)

  /** What one command run gives back: its output and, when it failed, an error. */
  datatype Output = Output(out: string, err: Option<string>)

  /** A command as its argument list. */
  type Command = seq<string>

  /** The line the shell is given for a command. */
  function CommandLine(c: Command): string {
    Join(c, " ")
  }

  datatype Host = Host(
    run: Command -> Output,
    parseLV: string -> Result<LV, string>,
    parseVG: string -> Result<VG, string>)

  // ---------------------------------------------------------------------
  // Command lines

  /** The output format shared by `lvs` and `vgs`: sizes in bytes, fields
      separated by `<:SEP:>`, no header. */
  const ListFormat: seq<string> := ["--units=b", "--separator=\"<:SEP:>\"", "--nosuffix", "--noheadings"]
  const LvsFields := "lv_name,lv_size,lv_uuid,lv_attr,copy_percent,lv_kernel_major,lv_kernel_minor,lv_tags"
  const VgsFields := "vg_name,vg_size,vg_free,vg_uuid,vg_tags"

  function LvsCommand(listspec: string): Command {
    [NsenterCmd, "lvs"] + ListFormat + ["-o", LvsFields, "--nameprefixes", "-a", listspec]
  }

  function VgsCommand(): Command {
    [NsenterCmd, "vgs"] + ListFormat + ["-o", VgsFields, "--nameprefixes", "-a"]
  }

  /** One `flag tag` pair per tag, in the order of the tags. */
  function TagArgs(flag: string, tags: seq<string>): (r: seq<string>)
    ensures |r| == 2 * |tags|
  {
    if tags == [] then [] else [flag, tags[0]] + TagArgs(flag, tags[1..])
  }

  /** Pair `k` of the tag arguments is `flag` and tag `k`. */
  lemma {:induction false} TagArgsAt(flag: string, tags: seq<string>, k: nat)
    requires k < |tags|
    ensures TagArgs(flag, tags)[2 * k] == flag && TagArgs(flag, tags)[2 * k + 1] == tags[k]
  {
    if k > 0 {
      TagArgsAt(flag, tags[1..], k - 1);
      assert TagArgs(flag, tags) == [flag, tags[0]] + TagArgs(flag, tags[1..]);
    }
  }

  lemma {:induction false} TagArgsSnoc(flag: string, tags: seq<string>, i: nat)
    requires i < |tags|
    ensures TagArgs(flag, tags[..i + 1]) == TagArgs(flag, tags[..i]) + [flag, tags[i]]
  {
    if i == 0 {
      assert tags[..1] == [tags[0]] && tags[..0] == [];
      assert TagArgs(flag, [tags[0]]) == [flag, tags[0]] + TagArgs(flag, []);
    } else {
      TagArgsSnoc(flag, tags[1..], i - 1);
      assert tags[..i + 1][1..] == tags[1..][..i];
      assert tags[..i][1..] == tags[1..][..i - 1];
      assert tags[1..][i - 1] == tags[i];
    }
  }

  /** The `lvcreate` arguments: name, size in bytes, mirrors only when
      asked for, the tags in order, and the VG last. Unlike the other
      commands it does not enter the host's mount namespace. */
  function CreateLVCommand(vg: string, name: string, size: uint64, mirrors: uint32, tags: seq<string>): Command {
    ["lvcreate", "-v", "-n", name, "-L", NatToString(size) + "b"]
    + (if mirrors > 0 then ["-m", NatToString(mirrors), "--nosync"] else [])
    + TagArgs("--add-tag", tags)
    + [vg]
  }

  /** The shape of an `lvcreate` command, position by position. */
  lemma CreateLVCommandShape(vg: string, name: string, size: uint64, mirrors: uint32, tags: seq<string>)
    ensures var c := CreateLVCommand(vg, name, size, mirrors, tags);
      var base := if mirrors > 0 then 9 else 6;
      && |c| == base + 2 * |tags| + 1
      && c[..6] == ["lvcreate", "-v", "-n", name, "-L", NatToString(size) + "b"]
      && (mirrors > 0 ==> c[6..9] == ["-m", NatToString(mirrors), "--nosync"])
      && (forall k :: 0 <= k < |tags| ==> c[base + 2 * k] == "--add-tag" && c[base + 2 * k + 1] == tags[k])
      && c[|c| - 1] == vg
  {
    var c := CreateLVCommand(vg, name, size, mirrors, tags);
    var mid := TagArgs("--add-tag", tags);
    Layout(["lvcreate", "-v", "-n", name, "-L", NatToString(size) + "b"],
           if mirrors > 0 then ["-m", NatToString(mirrors), "--nosync"] else [], mid, vg);
    forall k | 0 <= k < |tags|
      ensures c[|c| - 1 - 2 * |tags| + 2 * k] == "--add-tag" && c[|c| - 1 - 2 * |tags| + 2 * k + 1] == tags[k]
    {
      TagArgsAt("--add-tag", tags, k);
    }
  }

  /** The positions of a command made of a head, options, arguments and a
      last word. */
  lemma Layout(head: seq<string>, options: seq<string>, args: seq<string>, last: string)
    ensures var c := head + options + args + [last];
      && |c| == |head| + |options| + |args| + 1
      && c[..|head|] == head
      && c[|head|..|head| + |options|] == options
      && (forall j :: 0 <= j < |args| ==> c[|head| + |options| + j] == args[j])
      && c[|c| - 1] == last
  {
    var c := head + options + args + [last];
    assert c[..|head|] == head;
    assert c[|head|..|head| + |options|] == options;
  }

  function LvRemoveCommand(vg: string, name: string): Command {
    [NsenterCmd, "lvremove", "-v", "-f", vg + "/" + name]
  }

  function VgRemoveCommand(name: string): Command {
    [NsenterCmd, "vgremove", "-v", "-f", name]
  }

  function CloneCommand(src: string, dest: string): Command {
    [NsenterCmd, "dd", "if=" + src, "of=" + dest, "bs=4M"]
  }

  function VgCreateCommand(name: string, physicalVolume: string, tags: seq<string>): Command {
    [NsenterCmd, "vgcreate", name, physicalVolume, "-v"] + TagArgs("--add-tag", tags)
  }

  function LvChangeCommand(vg: string, name: string, flag: string, tags: seq<string>): Command {
    [NsenterCmd, "lvchange"] + TagArgs(flag, tags) + [vg + "/" + name]
  }

  /** The shape of an `lvchange` command: one `flag tag` pair per tag after
      the command name, and the volume path last. */
  lemma LvChangeCommandShape(vg: string, name: string, flag: string, tags: seq<string>)
    ensures var c := LvChangeCommand(vg, name, flag, tags);
      && |c| == 2 * |tags| + 3 && c[..2] == [NsenterCmd, "lvchange"]
      && (forall k :: 0 <= k < |tags| ==> c[2 + 2 * k] == flag && c[3 + 2 * k] == tags[k])
      && c[|c| - 1] == vg + "/" + name
  {
    var c := LvChangeCommand(vg, name, flag, tags);
    var mid := TagArgs(flag, tags);
    forall k | 0 <= k < |tags| ensures c[2 + 2 * k] == flag && c[3 + 2 * k] == tags[k] {
      TagArgsAt(flag, tags, k);
      assert c[2 + 2 * k] == mid[2 * k];
      assert c[3 + 2 * k] == mid[2 * k + 1];
    }
  }

  // ---------------------------------------------------------------------
  // Listing

  /** The output lines of a listing: the trimmed output, split on newlines. */
  function OutputLines(out: string): (lines: seq<string>)
    ensures |lines| >= 1
  {
    Split(TrimSpace(out), "\n")
  }

  /** Parses each trimmed line in order, stopping at the first error. */
  function ParseEach<T>(lines: seq<string>, parse: string -> Result<T, string>): Result<seq<T>, string> {
    if lines == [] then Ok([])
    else
      match parse(TrimSpace(lines[0]))
      case Err(e) => Err(e)
      case Ok(v) =>
        match ParseEach(lines[1..], parse)
        case Err(e) => Err(e)
        case Ok(rest) => Ok([v] + rest)
  }

  /** A listing succeeds exactly when every line parses, and then it has one
      entry per line, in the order of the lines. */
  lemma {:induction false} ParseEachOk<T>(lines: seq<string>, parse: string -> Result<T, string>)
    ensures ParseEach(lines, parse).Ok? <==> forall i :: 0 <= i < |lines| ==> parse(TrimSpace(lines[i])).Ok?
    ensures ParseEach(lines, parse).Ok? ==>
      |ParseEach(lines, parse).value| == |lines| &&
      forall i :: 0 <= i < |lines| ==> parse(TrimSpace(lines[i])) == Ok(ParseEach(lines, parse).value[i])
  {
    if lines != [] {
      var rest := lines[1..];
      ParseEachOk(rest, parse);
      var h := parse(TrimSpace(lines[0]));
      var tail := ParseEach(rest, parse);
      if h.Err? {
        assert ParseEach(lines, parse) == Err(h.error);
      } else if tail.Err? {
        assert ParseEach(lines, parse) == Err(tail.error);
        var j :| 0 <= j < |rest| && parse(TrimSpace(rest[j])).Err?;
        assert rest[j] == lines[j + 1];
      } else {
        var all := [h.value] + tail.value;
        assert ParseEach(lines, parse) == Ok(all);
        forall i | 0 <= i < |lines| ensures parse(TrimSpace(lines[i])) == Ok(all[i]) {
          if i > 0 {
            assert lines[i] == rest[i - 1];
          }
        }
      }
    }
  }

  /** A listing that fails reports the error of its first unparsable line. */
  lemma {:induction false} ParseEachFirstError<T>(lines: seq<string>, parse: string -> Result<T, string>, i: nat)
    requires i < |lines| && parse(TrimSpace(lines[i])).Err?
    requires forall j :: 0 <= j < i ==> parse(TrimSpace(lines[j])).Ok?
    ensures ParseEach(lines, parse) == Err(parse(TrimSpace(lines[i])).error)
  {
    if i > 0 {
      var rest := lines[1..];
      assert parse(TrimSpace(lines[0])).Ok?;
      forall j | 0 <= j < i - 1 ensures parse(TrimSpace(rest[j])).Ok? {
        assert rest[j] == lines[j + 1];
      }
      assert rest[i - 1] == lines[i];
      ParseEachFirstError(rest, parse, i - 1);
      assert ParseEach(rest, parse).Err?;
    }
  }

  function ListLVResult(host: Host, listspec: string): Result<seq<LV>, string> {
    var o := host.run(LvsCommand(listspec));
    if o.err.Some? then Err(o.err.value) else ParseEach(OutputLines(o.out), host.parseLV)
  }

  function ListVGResult(host: Host): Result<seq<VG>, string> {
    var o := host.run(VgsCommand());
    if o.err.Some? then Err(o.err.value) else ParseEach(OutputLines(o.out), host.parseVG)
  }

  // ---------------------------------------------------------------------
  // Scans

  /** The first VG in the list with the given name. */
  function FirstNamed(vgs: seq<VG>, name: string): (r: Option<nat>)
    ensures r.Some? ==> r.value < |vgs| && vgs[r.value].name == name
    ensures r.Some? ==> forall j :: 0 <= j < r.value ==> vgs[j].name != name
    ensures r.None? ==> forall j :: 0 <= j < |vgs| ==> vgs[j].name != name
  {
    if vgs == [] then None
    else if vgs[0].name == name then Some(0)
    else match FirstNamed(vgs[1..], name)
      case None => None
      case Some(i) => Some(i + 1)
  }

  /** The scan over a volume's tags for the protected tag. */
  method IsProtected(tags: seq<string>) returns (p: bool)
    ensures p <==> ProtectedTagName in tags
  {
    for i := 0 to |tags|
      invariant ProtectedTagName !in tags[..i]
    {
      if tags[i] == ProtectedTagName {
        return true;
      }
    }
    assert tags[..|tags|] == tags;
    return false;
  }

  /** The scan over the listed VGs for the first with the given name. */
  method FindVG(vgs: seq<VG>, name: string) returns (r: Option<nat>)
    ensures r == FirstNamed(vgs, name)
  {
    for i := 0 to |vgs|
      invariant forall j :: 0 <= j < i ==> vgs[j].name != name
    {
      if vgs[i].name == name {
        return Some(i);
      }
    }
    return None;
  }

  /** Appends one `flag tag` pair per tag. */
  method AppendTags(args: seq<string>, flag: string, tags: seq<string>) returns (r: seq<string>)
    ensures r == args + TagArgs(flag, tags)
  {
    r := args;
    for i := 0 to |tags|
      invariant r == args + TagArgs(flag, tags[..i])
    {
      TagArgsSnoc(flag, tags, i);
      r := r + [flag, tags[i]];
    }
    assert tags[..|tags|] == tags;
  }

  /** The loop of ListLV and ListVG: each trimmed output line is parsed
      into the slot of the result array with the same index, and the first
      line that does not parse ends the listing with its error. */
  method ParseLines<T(0)>(outLines: seq<string>, parse: string -> Result<T, string>) returns (r: Result<seq<T>, string>)
    ensures r == ParseEach(outLines, parse)
  {
    var entries := new T[|outLines|];
    for i := 0 to |outLines|
      invariant forall k :: 0 <= k < i ==> parse(TrimSpace(outLines[k])) == Ok(entries[k])
    {
      var entry := parse(TrimSpace(outLines[i]));
      if entry.Err? {
        ParseEachFirstError(outLines, parse, i);
        return Err(entry.error);
      }
      entries[i] := entry.value;
    }
    ParseEachOk(outLines, parse);
    var parsed := ParseEach(outLines, parse).value;
    assert forall k :: 0 <= k < |outLines| ==> entries[k] == parsed[k];
    assert entries[..] == parsed;
    return Ok(entries[..]);
  }

  // ---------------------------------------------------------------------
  // Requests

  /** What a request did on the host: the commands it ran, in order, and
      what it returned. */
  datatype Trace = Trace(runs: seq<Command>, out: string, err: Option<string>)

  function ExpectedOne(n: nat): string {
    "expected 1 LV, got " + NatToString(n)
  }

  function RemoveLVTrace(host: Host, vg: string, name: string): Trace {
    var listed := ListLVResult(host, vg + "/" + name);
    var list := [LvsCommand(vg + "/" + name)];
    if listed.Err? then Trace(list, "", Some("failed to list LVs: " + listed.error))
    else if |listed.value| != 1 then Trace(list, "", Some(ExpectedOne(|listed.value|)))
    else if ProtectedTagName in listed.value[0].tags then Trace(list, "", Some("volume is protected"))
    else
      var o := host.run(LvRemoveCommand(vg, name));
      Trace(list + [LvRemoveCommand(vg, name)], o.out, o.err)
  }

  /** The listing always runs first; `lvremove` runs exactly when the
      listing names one LV and that LV is not protected. */
  lemma RemoveLVRunsRemove(host: Host, vg: string, name: string)
    ensures var t := RemoveLVTrace(host, vg, name);
      var listed := ListLVResult(host, vg + "/" + name);
      && |t.runs| >= 1 && t.runs[0] == LvsCommand(vg + "/" + name)
      && (LvRemoveCommand(vg, name) in t.runs <==>
            listed.Ok? && |listed.value| == 1 && ProtectedTagName !in listed.value[0].tags)
  {
    var listed := ListLVResult(host, vg + "/" + name);
    var t := RemoveLVTrace(host, vg, name);
    var list := [LvsCommand(vg + "/" + name)];
    assert LvRemoveCommand(vg, name) !in list by {
      assert LvRemoveCommand(vg, name)[1] != LvsCommand(vg + "/" + name)[1];
    }
    if listed.Ok? && |listed.value| == 1 && ProtectedTagName !in listed.value[0].tags {
      assert t.runs == list + [LvRemoveCommand(vg, name)];
    } else {
      assert t.runs == list;
    }
  }

  /** A protected LV is never removed, and the caller learns why. */
  lemma RemoveLVProtected(host: Host, vg: string, name: string)
    requires var listed := ListLVResult(host, vg + "/" + name);
      listed.Ok? && |listed.value| == 1 && ProtectedTagName in listed.value[0].tags
    ensures RemoveLVTrace(host, vg, name) == Trace([LvsCommand(vg + "/" + name)], "", Some("volume is protected"))
  {
  }

  function RemoveVGTrace(host: Host, name: string): Trace {
    RemoveVGFrom(ListVGResult(host), name, host.run(VgRemoveCommand(name)))
  }

  /** RemoveVG's decisions, given what `vgs` listed and what `vgremove`
      would answer. */
  function RemoveVGFrom(listed: Result<seq<VG>, string>, name: string, removed: Output): (r: Trace)
    ensures |r.runs| >= 1 && r.runs[0] == VgsCommand()
  {
    if listed.Err? then Trace([VgsCommand()], "", Some("failed to list VGs: " + listed.error))
    else match FirstNamed(listed.value, name)
      case None => Trace([VgsCommand()], "", Some("could not find vg to delete"))
      case Some(i) =>
        if ProtectedTagName in listed.value[i].tags then Trace([VgsCommand()], "", Some("volume is protected"))
        else Trace([VgsCommand(), VgRemoveCommand(name)], removed.out, removed.err)
  }

  /** `vgremove` runs exactly when the first listed VG of that name is not
      protected; a name that is not listed is an error. */
  lemma RemoveVGRunsRemove(host: Host, name: string)
    ensures var t := RemoveVGTrace(host, name);
      var listed := ListVGResult(host);
      && (VgRemoveCommand(name) in t.runs <==>
            listed.Ok? && FirstNamed(listed.value, name).Some?
            && ProtectedTagName !in listed.value[FirstNamed(listed.value, name).value].tags)
      && (listed.Ok? && (forall i :: 0 <= i < |listed.value| ==> listed.value[i].name != name) ==>
            t == Trace([VgsCommand()], "", Some("could not find vg to delete")))
  {
    var listed := ListVGResult(host);
    var t := RemoveVGFrom(listed, name, host.run(VgRemoveCommand(name)));
    assert VgRemoveCommand(name) !in [VgsCommand()] by {
      assert VgRemoveCommand(name)[1] != VgsCommand()[1];
    }
    if listed.Ok? {
      var first := FirstNamed(listed.value, name);
      if first.Some? {
        assert listed.value[first.value].name == name;
      }
    }
  }

  function LvChangeTrace(host: Host, vg: string, name: string, flag: string, tags: seq<string>): Trace {
    var listed := ListLVResult(host, vg + "/" + name);
    var list := [LvsCommand(vg + "/" + name)];
    if listed.Err? then Trace(list, "", Some("failed to list LVs: " + listed.error))
    else if |listed.value| != 1 then Trace(list, "", Some(ExpectedOne(|listed.value|)))
    else
      var o := host.run(LvChangeCommand(vg, name, flag, tags));
      Trace(list + [LvChangeCommand(vg, name, flag, tags)], o.out, o.err)
  }

  /** The tag change runs exactly when the listing names one LV. */
  lemma LvChangeNeedsOne(host: Host, vg: string, name: string, flag: string, tags: seq<string>)
    ensures var t := LvChangeTrace(host, vg, name, flag, tags);
      var listed := ListLVResult(host, vg + "/" + name);
      && (LvChangeCommand(vg, name, flag, tags) in t.runs <==> listed.Ok? && |listed.value| == 1)
      && (listed.Ok? && |listed.value| != 1 ==> t.err == Some(ExpectedOne(|listed.value|)))
  {
    assert LvChangeCommand(vg, name, flag, tags)[1] != LvsCommand(vg + "/" + name)[1];
  }

  class Shell {
    const host: Host
    /** Every command run so far, in order. */
    var commands: seq<Command>

    constructor (host: Host)
      ensures this.host == host && commands == []
    {
      this.host := host;
      commands := [];
    }

    method Run(cmd: Command) returns (o: Output)
      modifies this
      ensures commands == old(commands) + [cmd] && o == host.run(cmd)
    {
      commands := commands + [cmd];
      o := host.run(cmd);
    }

    /** ListLV: runs `lvs` and parses its output lines. */
    method ListLV(listspec: string) returns (r: Result<seq<LV>, string>)
      modifies this
      ensures commands == old(commands) + [LvsCommand(listspec)]
      ensures r == ListLVResult(host, listspec)
    {
      var o := Run(LvsCommand(listspec));
      if o.err.Some? {
        return Err(o.err.value);
      }
      r := ParseLines(Split(TrimSpace(o.out), "\n"), host.parseLV);
    }

    /** ListVG: as ListLV, for `vgs`. */
    method ListVG() returns (r: Result<seq<VG>, string>)
      modifies this
      ensures commands == old(commands) + [VgsCommand()]
      ensures r == ListVGResult(host)
    {
      var o := Run(VgsCommand());
      if o.err.Some? {
        return Err(o.err.value);
      }
      r := ParseLines(Split(TrimSpace(o.out), "\n"), host.parseVG);
    }

    /** CreateLV: a zero size is refused before anything runs. */
    method CreateLV(vg: string, name: string, size: uint64, mirrors: uint32, tags: seq<string>)
      returns (out: string, err: Option<string>)
      modifies this
      ensures size == 0 ==> commands == old(commands) && out == "" && err == Some("size must be greater than 0")
      ensures size > 0 ==> var c := CreateLVCommand(vg, name, size, mirrors, tags);
        commands == old(commands) + [c] && Output(out, err) == host.run(c)
    {
      if size == 0 {
        return "", Some("size must be greater than 0");
      }
      var args := ["lvcreate", "-v", "-n", name, "-L", NatToString(size) + "b"];
      if mirrors > 0 {
        args := args + ["-m", NatToString(mirrors), "--nosync"];
      }
      args := AppendTags(args, "--add-tag", tags);
      args := args + [vg];
      assert args == CreateLVCommand(vg, name, size, mirrors, tags) by {
        if mirrors == 0 {
          assert ["lvcreate", "-v", "-n", name, "-L", NatToString(size) + "b"] + [] ==
            ["lvcreate", "-v", "-n", name, "-L", NatToString(size) + "b"];
        }
      }
      var o := Run(args);
      out, err := o.out, o.err;
    }

    method RemoveLV(vg: string, name: string) returns (out: string, err: Option<string>)
      modifies this
      ensures var t := RemoveLVTrace(host, vg, name);
        commands == old(commands) + t.runs && out == t.out && err == t.err
    {
      ghost var before := commands;
      var lvs := ListLV(vg + "/" + name);
      if lvs.Err? {
        return "", Some("failed to list LVs: " + lvs.error);
      }
      if |lvs.value| != 1 {
        return "", Some(ExpectedOne(|lvs.value|));
      }
      var p := IsProtected(lvs.value[0].tags);
      if p {
        return "", Some("volume is protected");
      }
      var o := Run(LvRemoveCommand(vg, name));
      AppendAssoc(before, [LvsCommand(vg + "/" + name)], [LvRemoveCommand(vg, name)]);
      out, err := o.out, o.err;
    }

    method CloneLV(src: string, dest: string) returns (out: string, err: Option<string>)
      modifies this
      ensures commands == old(commands) + [CloneCommand(src, dest)]
      ensures Output(out, err) == host.run(CloneCommand(src, dest))
    {
      var o := Run(CloneCommand(src, dest));
      out, err := o.out, o.err;
    }

    method CreateVG(name: string, physicalVolume: string, tags: seq<string>) returns (out: string, err: Option<string>)
      modifies this
      ensures var c := VgCreateCommand(name, physicalVolume, tags);
        commands == old(commands) + [c] && Output(out, err) == host.run(c)
    {
      var args := AppendTags([NsenterCmd, "vgcreate", name, physicalVolume, "-v"], "--add-tag", tags);
      var o := Run(args);
      out, err := o.out, o.err;
    }

    method RemoveVG(name: string) returns (out: string, err: Option<string>)
      modifies this
      ensures var t := RemoveVGTrace(host, name);
        commands == old(commands) + t.runs && out == t.out && err == t.err
    {
      ghost var before := commands;
      var vgs := ListVG();
      out, err := RemoveListedVG(vgs, name);
      ghost var t := RemoveVGFrom(vgs, name, host.run(VgRemoveCommand(name)));
      assert t == RemoveVGTrace(host, name);
      assert t.runs == [VgsCommand()] + t.runs[1..];
      AppendAssoc(before, [VgsCommand()], t.runs[1..]);
    }

    /** The rest of RemoveVG, once `vgs` has listed the VGs. */
    method RemoveListedVG(vgs: Result<seq<VG>, string>, name: string) returns (out: string, err: Option<string>)
      modifies this
      ensures var t := RemoveVGFrom(vgs, name, host.run(VgRemoveCommand(name)));
        commands == old(commands) + t.runs[1..] && out == t.out && err == t.err
    {
      if vgs.Err? {
        return "", Some("failed to list VGs: " + vgs.error);
      }
      var found := FindVG(vgs.value, name);
      if found.None? {
        return "", Some("could not find vg to delete");
      }
      var p := IsProtected(vgs.value[found.value].tags);
      if p {
        return "", Some("volume is protected");
      }
      var o := Run(VgRemoveCommand(name));
      out, err := o.out, o.err;
    }

    method AddTagLV(vg: string, name: string, tags: seq<string>) returns (out: string, err: Option<string>)
      modifies this
      ensures var t := LvChangeTrace(host, vg, name, "--addtag", tags);
        commands == old(commands) + t.runs && out == t.out && err == t.err
    {
      out, err := ChangeTags(vg, name, "--addtag", tags);
    }

    method RemoveTagLV(vg: string, name: string, tags: seq<string>) returns (out: string, err: Option<string>)
      modifies this
      ensures var t := LvChangeTrace(host, vg, name, "--deltag", tags);
        commands == old(commands) + t.runs && out == t.out && err == t.err
    {
      out, err := ChangeTags(vg, name, "--deltag", tags);
    }

    /** The body shared by AddTagLV and RemoveTagLV, which differ only in
        the `lvchange` flag. */
    method ChangeTags(vg: string, name: string, flag: string, tags: seq<string>) returns (out: string, err: Option<string>)
      modifies this
      ensures var t := LvChangeTrace(host, vg, name, flag, tags);
        commands == old(commands) + t.runs && out == t.out && err == t.err
    {
      ghost var before := commands;
      var lvs := ListLV(vg + "/" + name);
      if lvs.Err? {
        return "", Some("failed to list LVs: " + lvs.error);
      }
      if |lvs.value| != 1 {
        return "", Some(ExpectedOne(|lvs.value|));
      }
      var args := AppendTags([NsenterCmd, "lvchange"], flag, tags);
      args := args + [vg + "/" + name];
      assert args == LvChangeCommand(vg, name, flag, tags);
      var o := Run(args);
      AppendAssoc(before, [LvsCommand(vg + "/" + name)], [args]);
      out, err := o.out, o.err;
    }
  }
}

/**
 * bin/generate_kayobe_commands.py: the host names of a host-list file and
 * the three deployment commands built from them.
 */
module KayobeCommands {
  import opened PyStr
  import opened HvException
  import opened HostFile

  /** The host names `read_hostnames` keeps: the first column of every kept
      line, in file order. */
  function FirstColumns(lines: seq<string>): seq<string> {
    if lines == [] then []
    else
      var init := FirstColumns(lines[..|lines| - 1]);
      var parts := Columns(lines[|lines| - 1]);
      if Kept(lines[|lines| - 1]) && |parts| > 0 then init + [parts[0]] else init
  }

  /** One host name per kept line: its first column, whatever follows it,
      so lines with extra columns are read, not rejected. */
  lemma {:induction false} FirstColumnsSpec(lines: seq<string>)
    ensures var kept := KeptLines(lines); var r := FirstColumns(lines);
      |r| == |kept| && forall k :: 0 <= k < |kept| ==> (|Split(kept[k])| >= 1 && r[k] == Split(kept[k])[0])
  {
    if lines != [] {
      var last := lines[|lines| - 1];
      FirstColumnsSpec(lines[..|lines| - 1]);
      if Kept(last) {
        KeptHasColumn(last);
      }
    }
  }

  /** One more line of the file. */
  lemma FirstColumnsStep(lines: seq<string>, i: nat)
    requires i < |lines|
    ensures var parts := Columns(lines[i]);
      FirstColumns(lines[..i + 1])
        == FirstColumns(lines[..i]) + (if Kept(lines[i]) && |parts| > 0 then [parts[0]] else [])
  {
    assert lines[..i + 1][..i] == lines[..i];
  }

  /** `read_hostnames(file_path)` on the lines of the file. */
  method ReadHostnames(lines: seq<string>) returns (hostnames: seq<string>)
    ensures hostnames == FirstColumns(lines)
  {
    hostnames := [];
    var i := 0;
    while i < |lines|
      invariant 0 <= i <= |lines| && hostnames == FirstColumns(lines[..i])
    {
      FirstColumnsStep(lines, i);
      var stripped := Strip(lines[i]);
      if stripped == [] {
        i := i + 1;
        continue;
      }
      if StartsWith(stripped, "#") {
        i := i + 1;
        continue;
      }
      var parts := Split(stripped);
      assert Kept(lines[i]) && parts == Columns(lines[i]);
      if |parts| > 0 {
        hostnames := hostnames + [parts[0]];
      }
      i := i + 1;
    }
    assert lines[..i] == lines;
  }

  /** The `-i` inventory: the comma list with a trailing comma. */
  function Inventory(hostnames: seq<string>): string {
    Join(",", hostnames) + ","
  }

  function PxeCommand(inventory: string, colonHosts: string): string {
    "ansible-playbook ansible/mellanox-enable-uefi-pxe.yml -i " + inventory
    + " --extra-vars \"pxe_target=" + colonHosts + "\""
  }

  function ConfigureCommand(colonHosts: string): string {
    "kayobe overcloud host configure -e selinux_do_reboot=true -kl " + colonHosts + " --limit " + colonHosts
  }

  function DeployCommand(colonHosts: string): string {
    "kayobe overcloud service deploy -kl " + colonHosts + " --limit " + colonHosts
  }

  /** `build_commands(hostnames)`: the PXE playbook, the host configure
      and the service deploy commands. */
  function BuildCommands(hostnames: seq<string>): (r: seq<string>)
    ensures |r| == 3
  {
    var colonHosts := Join(":", hostnames);
    [PxeCommand(Inventory(hostnames), colonHosts), ConfigureCommand(colonHosts), DeployCommand(colonHosts)]
  }

  /** Both host lists the commands carry read back as the hosts: the colon
      list exactly, the inventory with one empty item after its trailing
      comma. */
  lemma HostListsReadBack(hostnames: seq<string>)
    requires |hostnames| >= 1 && forall h :: h in hostnames ==> ':' !in h && ',' !in h
    ensures SplitOn(Join(":", hostnames), ':') == hostnames
    ensures SplitOn(Inventory(hostnames), ',') == hostnames + [""]
  {
    SplitOnOfJoin(hostnames, ':');
    JoinSnoc(",", hostnames, "");
    assert Inventory(hostnames) == Join(",", hostnames + [""]);
    SplitOnOfJoin(hostnames + [""], ',');
  }

  /** `main()` given the lines of the input file: an empty host list exits
      with status 1 before any command is built; otherwise the three
      commands are printed. */
  function Generate(lines: seq<string>): (o: Outcome<seq<string>>)
  {
    var hostnames := FirstColumns(lines);
    if hostnames == [] then Raise(PyError("SystemExit", "1")) else Ok(BuildCommands(hostnames))
  }

  /** The script exits exactly when the file names no host, and otherwise
      prints three commands over the file's hosts. */
  lemma GenerateExits(lines: seq<string>)
    ensures Generate(lines).Raise? <==> KeptLines(lines) == []
    ensures Generate(lines).Ok? ==> Generate(lines).value == BuildCommands(FirstColumns(lines))
  {
    FirstColumnsSpec(lines);
  }
}

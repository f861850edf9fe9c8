/**
 * `HVOpenstack` (lib/hvopenstack.py): the OpenStack commands run for one
 * hypervisor through the local shell, and the parse of the server table
 * `openstack server list` prints. The local shell is an oracle: `local(cmd)`
 * is what running `cmd` produces.
 */
module HvOpenstack {
  import opened PyStr
  import opened HvException
  import opened HvLocal
  import opened HvJira

  /** The local shell behind `lib.hvlocal.run`. */
  type Local = string -> Raw

  /** A `Server` object: a virtual machine known by its id. */
  datatype Server = Server(serverId: string)

  /** The disable reason recorded in OpenStack. */
  function Reason(initials: string): string {
    "Migration to Rocky 9 - " + initials
  }

  /** `"{text}"`. */
  function Quoted(text: string): string {
    "\"" + text + "\""
  }

  function DisableCmd(cloud: string, initials: string, hostname: string): string {
    "openstack --os-cloud " + cloud + " compute service set --disable --disable-reason "
      + Quoted(Reason(initials)) + " " + hostname + " nova-compute"
  }

  function EnableCmd(cloud: string, hostname: string): string {
    "openstack --os-cloud " + cloud + " compute service set --enable " + hostname + " nova-compute"
  }

  function ShowCmd(cloud: string, hostname: string): string {
    "openstack --os-cloud " + cloud + " hypervisor show " + hostname
  }

  function ListCmd(cloud: string, hostname: string): string {
    "openstack --os-cloud " + cloud + " server list --host " + hostname + " --all-projects"
  }

  /** The disable command names the cloud, carries the quoted reason with
      the operator's initials, and names the hypervisor. */
  lemma DisableCmdEmbeds(cloud: string, initials: string, hostname: string)
    ensures Contains(DisableCmd(cloud, initials, hostname), cloud)
    ensures Contains(DisableCmd(cloud, initials, hostname), Quoted(Reason(initials)))
    ensures Contains(DisableCmd(cloud, initials, hostname), hostname)
  {
    var a := "openstack --os-cloud ";
    var mid := " compute service set --disable --disable-reason ";
    var q := Quoted(Reason(initials));
    var tail := " nova-compute";
    ContainsMiddle(a, cloud, mid);
    ContainsExtend(a + cloud + mid, q, cloud);
    ContainsExtend(a + cloud + mid + q, " ", cloud);
    ContainsExtend(a + cloud + mid + q + " ", hostname, cloud);
    ContainsExtend(a + cloud + mid + q + " " + hostname, tail, cloud);
    ContainsMiddle(a + cloud + mid, q, " ");
    ContainsExtend(a + cloud + mid + q + " ", hostname, q);
    ContainsExtend(a + cloud + mid + q + " " + hostname, tail, q);
    ContainsMiddle(a + cloud + mid + q + " ", hostname, tail);
  }

  /** `fields[1].strip()` of one table row, or the `IndexError` of a row
      without a `|`. */
  function RowId(line: string): Outcome<string> {
    var fields := SplitOn(line, '|');
    if |fields| < 2 then Raise(PyError("IndexError", "list index out of range"))
    else Ok(Strip(fields[1]))
  }

  /** The ids of the rows, in order; the first bad row raises. */
  function RowIds(rows: seq<string>): Outcome<seq<string>>
  {
    if rows == [] then Ok([])
    else
      var ids :- RowIds(rows[..|rows| - 1]);
      var id :- RowId(rows[|rows| - 1]);
      Ok(ids + [id])
  }

  /** The ids `list_servers` reads from the (stripped) output of the
      server listing. */
  function ServerTable(stdout: string): Outcome<seq<string>> {
    if stdout == "" then Ok([]) else RowIds(SliceToLast(SplitOn(stdout, '\n'), 3))
  }

  /** A row has a second field exactly when it holds a `|`. */
  lemma RowIdOk(line: string)
    ensures RowId(line).Ok? <==> '|' in line
  {
  }

  /** The rows parse exactly when each holds a `|`; then there is one id
      per row, in row order, each the stripped second field. */
  lemma {:induction false} RowIdsSpec(rows: seq<string>)
    ensures RowIds(rows).Ok? <==> forall k :: 0 <= k < |rows| ==> '|' in rows[k]
    ensures RowIds(rows).Ok? ==> (|RowIds(rows).value| == |rows|
      && forall k :: 0 <= k < |rows| ==> RowIds(rows).value[k] == Strip(SplitOn(rows[k], '|')[1]))
    ensures RowIds(rows).Raise? ==> RowIds(rows).exc == PyError("IndexError", "list index out of range")
  {
    if rows != [] {
      var init := rows[..|rows| - 1];
      RowIdsSpec(init);
      RowIdOk(rows[|rows| - 1]);
      assert forall k :: 0 <= k < |init| ==> init[k] == rows[k];
    }
  }

  /** An empty listing has no servers; otherwise the servers are the rows
      between the three header lines and the closing rule, so there are
      `max(0, lines - 4)` of them, in table order. */
  lemma ServerTableRows(stdout: string)
    ensures stdout == "" ==> ServerTable(stdout) == Ok([])
    ensures stdout != "" && ServerTable(stdout).Ok? ==>
      var lines := SplitOn(stdout, '\n');
      |ServerTable(stdout).value| == (if |lines| > 4 then |lines| - 4 else 0)
      && forall k :: 0 <= k < |lines| - 4 ==> RowId(lines[3 + k]) == Ok(ServerTable(stdout).value[k])
  {
    if stdout != "" {
      RowIdsSpec(SliceToLast(SplitOn(stdout, '\n'), 3));
    }
  }

  /** A row as OpenStack prints it: the id padded by one blank in the
      first cell, then the other cells. */
  function Row(id: string, cells: string): string {
    "|" + (" " + id + " " + ("|" + cells))
  }

  /** A row's id is read back from it. */
  lemma RowRoundTrip(id: string, cells: string)
    requires '|' !in id
    requires id == [] || (!IsSpace(id[0]) && !IsSpace(id[|id| - 1]))
    ensures RowId(Row(id, cells)) == Ok(id)
  {
    RowCells(id, cells);
    StripPadded(id);
  }

  /** The first cell of a row is the padded id. */
  lemma RowCells(id: string, cells: string)
    requires '|' !in id
    ensures |SplitOn(Row(id, cells), '|')| >= 2 && SplitOn(Row(id, cells), '|')[1] == " " + id + " "
  {
    var cell := " " + id + " ";
    var tail := cell + ("|" + cells);
    assert "" + ("|" + tail) == Row(id, cells);
    SplitOnPrefix("", '|', tail);
    SplitOnPrefix(cell, '|', cells);
  }

  /** The rows built from ids give back those ids. */
  lemma {:induction false} RowIdsRoundTrip(ids: seq<string>, cells: seq<string>, rows: seq<string>)
    requires |cells| == |ids| && |rows| == |ids|
    requires forall k :: 0 <= k < |ids| ==> rows[k] == Row(ids[k], cells[k])
    requires forall k :: 0 <= k < |ids| ==> '|' !in ids[k]
    requires forall k :: 0 <= k < |ids| ==> ids[k] == [] || (!IsSpace(ids[k][0]) && !IsSpace(ids[k][|ids[k]| - 1]))
    ensures RowIds(rows) == Ok(ids)
  {
    if ids != [] {
      var n := |ids| - 1;
      RowIdsRoundTrip(ids[..n], cells[..n], rows[..n]);
      RowRoundTrip(ids[n], cells[n]);
      assert ids[..n] + [ids[n]] == ids;
    }
  }

  /** A listing of three header lines, the rows and a closing rule, with no
      line break inside a line, is read back as the rows' ids. */
  lemma ListingRoundTrip(header: seq<string>, ids: seq<string>, cells: seq<string>, rows: seq<string>, rule: string)
    requires |header| == 3 && |cells| == |ids| && |rows| == |ids|
    requires forall k :: 0 <= k < |ids| ==> rows[k] == Row(ids[k], cells[k])
    requires forall k :: 0 <= k < |ids| ==> '|' !in ids[k] && '\n' !in ids[k] && '\n' !in cells[k]
    requires forall k :: 0 <= k < |ids| ==> ids[k] == [] || (!IsSpace(ids[k][0]) && !IsSpace(ids[k][|ids[k]| - 1]))
    requires forall t :: t in header ==> '\n' !in t
    requires '\n' !in rule
    ensures ServerTable(Join("\n", header + rows + [rule])) == Ok(ids)
  {
    var lines := header + rows + [rule];
    forall t | t in lines
      ensures '\n' !in t
    {
      if t in rows {
        var k :| 0 <= k < |rows| && rows[k] == t;
        assert t == "|" + (" " + ids[k] + " " + ("|" + cells[k]));
      }
    }
    SplitOnOfJoin(lines, '\n');
    var stdout := Join("\n", lines);
    assert stdout != "" by {
      assert stdout == lines[0] + ("\n" + Join("\n", lines[1..]));
    }
    assert SliceToLast(lines, 3) == rows;
    RowIdsRoundTrip(ids, cells, rows);
  }

  class HVOpenstack {
    const hostname: string
    /** `creds_handler.openstack.cloud`. */
    const cloud: string
    /** `creds_handler.general.initials`, or `None` when the credentials
        file has no `general` section: nothing reads it until `disable_hv`. */
    const initials: Option<string>
    const jira: HVJira
    const local: Local
    /** The commands run through the local shell, oldest first. */
    var ran: seq<string>

    constructor (hostname: string, cloud: string, initials: Option<string>, jira: HVJira, local: Local)
      ensures this.hostname == hostname && this.cloud == cloud && this.initials == initials
      ensures this.jira == jira && this.local == local && ran == []
    {
      this.hostname := hostname;
      this.cloud := cloud;
      this.initials := initials;
      this.jira := jira;
      this.local := local;
      ran := [];
    }

    /** `run(cmd)` of lib/hvlocal.py: the command's `Results`, whatever its
        return code. */
    method RunLocal(cmd: string) returns (r: Results)
      modifies this
      ensures ran == old(ran) + [cmd] && r == FromRaw(cmd, local(cmd))
    {
      r := FromRaw(cmd, local(cmd));
      ran := ran + [cmd];
    }

    /** A command logged under a title and sent. */
    method Logged(title: string, cmd: string) returns (r: Results)
      requires jira.Valid()
      modifies this, jira
      ensures jira.Valid() && jira.buffer == Header
      ensures ran == old(ran) + [cmd] && r == FromRaw(cmd, local(cmd))
      ensures jira.log == old(jira.log) + [Add(title), Add(ReportToJira(r)), Send]
    {
      jira.Add(title);
      r := RunLocal(cmd);
      jira.Add(ReportToJira(r));
      jira.SendBuffer();
    }

    /** `disable_hv()`: the return code is not looked at. Building the
        command reads the operator's initials, so without a `general`
        section it raises `AttributeError` before anything is logged or
        run. */
    method DisableHv() returns (o: Outcome<()>)
      requires jira.Valid()
      modifies this, jira
      ensures jira.Valid()
      ensures o.Raise? <==> initials.None?
      ensures initials.None? ==> o.exc == NoneAttribute("initials") && ran == old(ran)
      ensures initials.None? ==> jira.log == old(jira.log) && jira.buffer == old(jira.buffer)
      ensures initials.Some? ==> jira.buffer == Header
      ensures initials.Some? ==> (var cmd := DisableCmd(cloud, initials.value, hostname);
        ran == old(ran) + [cmd]
        && jira.log == old(jira.log) + [Add("disabling HV"), Add(ReportToJira(FromRaw(cmd, local(cmd)))), Send])
    {
      if initials.None? {
        return Raise(NoneAttribute("initials"));
      }
      var cmd := DisableCmd(cloud, initials.value, hostname);
      var results := Logged("disabling HV", cmd);
      o := Ok(());
    }

    /** `enable_hv()`. */
    method EnableHv()
      requires jira.Valid()
      modifies this, jira
      ensures jira.Valid() && jira.buffer == Header
      ensures var cmd := EnableCmd(cloud, hostname);
        ran == old(ran) + [cmd]
        && jira.log == old(jira.log) + [Add("enabling HV"), Add(ReportToJira(FromRaw(cmd, local(cmd)))), Send]
    {
      var cmd := EnableCmd(cloud, hostname);
      var results := Logged("enabling HV", cmd);
    }

    /** `show_hv()`. */
    method ShowHv()
      requires jira.Valid()
      modifies this, jira
      ensures jira.Valid() && jira.buffer == Header
      ensures var cmd := ShowCmd(cloud, hostname);
        ran == old(ran) + [cmd]
        && jira.log == old(jira.log) + [Add("full status of the HV"), Add(ReportToJira(FromRaw(cmd, local(cmd)))), Send]
    {
      var cmd := ShowCmd(cloud, hostname);
      var results := Logged("full status of the HV", cmd);
    }

    /** The stripped output of the server listing. */
    function ListingOutput(): string {
      FromRaw(ListCmd(cloud, hostname), local(ListCmd(cloud, hostname))).stdout
    }

    /** `list_servers()`: one `Server` per table row, in order. */
    method ListServers() returns (o: Outcome<seq<Server>>)
      requires jira.Valid()
      modifies this, jira
      ensures jira.Valid() && jira.buffer == Header
      ensures var cmd := ListCmd(cloud, hostname);
        ran == old(ran) + [cmd]
        && jira.log == old(jira.log) + [Add("listing servers in HV"), Add(ReportToJira(FromRaw(cmd, local(cmd)))), Send]
      ensures o.Ok? <==> ServerTable(ListingOutput()).Ok?
      ensures o.Ok? ==> (|o.value| == |ServerTable(ListingOutput()).value|
        && forall k :: 0 <= k < |o.value| ==> o.value[k].serverId == ServerTable(ListingOutput()).value[k])
      ensures o.Raise? ==> (ServerTable(ListingOutput()) == Raise(o.exc)
        && o.exc == PyError("IndexError", "list index out of range"))
    {
      var results := Logged("listing servers in HV", ListCmd(cloud, hostname));
      var servers: seq<Server> := [];
      var out := results.stdout;
      if out != "" {
        var lines := SplitOn(out, '\n');
        var rows := SliceToLast(lines, 3);
        var i := 0;
        while i < |rows|
          invariant 0 <= i <= |rows|
          invariant RowIds(rows[..i]).Ok?
          invariant |servers| == |RowIds(rows[..i]).value|
          invariant forall k :: 0 <= k < |servers| ==> servers[k].serverId == RowIds(rows[..i]).value[k]
        {
          var fields := SplitOn(rows[i], '|');
          assert rows[..i + 1][..i] == rows[..i];
          if |fields| < 2 {
            RowIdsPrefixFails(rows, i);
            assert rows[..|rows|] == rows;
            return Raise(PyError("IndexError", "list index out of range"));
          }
          var serverId := Strip(fields[1]);
          servers := servers + [Server(serverId)];
          i := i + 1;
        }
        assert rows[..i] == rows;
      }
      o := Ok(servers);
    }

    /** `ensure_hv_has_no_servers()`: `HVException` is not imported in
        this file, so a non-empty listing raises `NameError` instead. */
    method EnsureHvHasNoServers() returns (o: Outcome<()>)
      requires jira.Valid()
      modifies this, jira
      ensures jira.Valid() && jira.buffer == Header
      ensures ran == old(ran) + [ListCmd(cloud, hostname)]
      ensures o == (match ServerTable(ListingOutput())
                    case Raise(e) => Raise(e)
                    case Ok(ids) => if ids != [] then Raise(PyError("NameError", "name 'HVException' is not defined"))
                                    else Ok(()))
    {
      var servers :- ListServers();
      if servers != [] {
        return Raise(PyError("NameError", "name 'HVException' is not defined"));
      }
      o := Ok(());
    }
  }

  /** A row without a `|` makes every longer prefix of the rows fail with
      `IndexError`. */
  lemma {:induction false} RowIdsPrefixFails(rows: seq<string>, i: nat)
    requires i < |rows| && |SplitOn(rows[i], '|')| < 2
    requires RowIds(rows[..i]).Ok?
    ensures forall j :: i < j <= |rows| ==> RowIds(rows[..j]) == Raise(PyError("IndexError", "list index out of range"))
  {
    forall j | i < j <= |rows|
      ensures RowIds(rows[..j]) == Raise(PyError("IndexError", "list index out of range"))
    {
      RowIdsFailsFrom(rows, i, j);
    }
  }

  lemma {:induction false} RowIdsFailsFrom(rows: seq<string>, i: nat, j: nat)
    requires i < j <= |rows| && |SplitOn(rows[i], '|')| < 2
    requires RowIds(rows[..i]).Ok?
    ensures RowIds(rows[..j]) == Raise(PyError("IndexError", "list index out of range"))
    decreases j
  {
    assert rows[..j][..j - 1] == rows[..j - 1];
    if j == i + 1 {
      assert rows[..j][j - 1] == rows[i];
    } else {
      RowIdsFailsFrom(rows, i, j - 1);
    }
  }
}

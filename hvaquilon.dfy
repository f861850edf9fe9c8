/**
 * `HVAquilon` (lib/hvaquilon.py): actions run on the Aquilon server for a
 * host, each a script called with the host name. Every command is sent
 * behind a fixed environment prefix; the server is an oracle answering the
 * command line as sent.
 */
module HvAquilon {
  import opened PyStr
  import opened HvException
  import opened HvLocal
  import opened HvJira

  /** The Aquilon server: what a command line sent to it produces. */
  type AqServer = string -> Raw

  /** The environment `_run` sets up before every command. */
  const Prefix: string :=
    "export AQHOST=aquilon.gridpp.rl.ac.uk; export AQSERVICE=aqd;"
    + "export PATH=/opt/aquilon/bin/:$PATH;"
    + "export PATH=/var/quattor/bin/:$PATH;"

  /** The command line `_run` sends for `cmd`. */
  function AqLine(cmd: string): string {
    Prefix + cmd
  }

  /** The prefix is the only addition: the command can be read back from
      the line sent, so different commands are sent as different lines. */
  lemma AqLineReadBack(cmd: string)
    ensures StartsWith(AqLine(cmd), Prefix) && AqLine(cmd)[|Prefix|..] == cmd
  {
  }

  const ModelScript: string := "myaq-get-model"
  const RemoveInterfacesScript: string := "python3 ./no_way_i_am_doing_this_manually/scripts/remove_interfaces.py"
  const ReimportScript: string := "./no_way_i_am_doing_this_manually/scripts/reimport-host.sh"
  const SandboxScript: string := "python3 ./no_way_i_am_doing_this_manually/scripts/manage_hv_to_sandbox.py"
  const SataScript: string := "python3 ./no_way_i_am_doing_this_manually/scripts/remove_sata_disk.py"
  const MakeHostScript: string := "python3 ./no_way_i_am_doing_this_manually/scripts/make_host.py"
  const PxeswitchScript: string := "python3 ./no_way_i_am_doing_this_manually/scripts/pxeswitch_host.py"

  const RemoveInterfacesTitle: string := "Removing unnecessary interfaces from the host on Aquilon"
  const ReimportTitle: string := "Executing script to re-import the host on Aquilon"
  const SandboxTitle: string := "Manage the host to David's Sandbox on Aquilon"
  const MakeHostTitle: string := "Recompiling the HV on Aquilon"
  const PxeswitchTitle: string := "PXE-switching the HV on Aquilon"
  const SataTitle: string := "Checking if any SATA disk needs to be removed from aquilon"

  /** `f"{script} {hostname}"`: every action's command. */
  function ScriptCmd(script: string, hostname: string): string {
    script + " " + hostname
  }

  /** The host name is everything after the script and one space, so one
      script's commands for different hosts differ. */
  lemma ScriptCmdHost(script: string, hostname: string, other: string)
    ensures ScriptCmd(script, hostname)[|script|] == ' '
    ensures ScriptCmd(script, hostname)[|script| + 1..] == hostname
    ensures ScriptCmd(script, hostname) == ScriptCmd(script, other) ==> hostname == other
  {
    assert ScriptCmd(script, hostname) == script + (" " + hostname);
    assert ScriptCmd(script, other) == script + (" " + other);
    assert ScriptCmd(script, other)[|script| + 1..] == other;
  }

  /** The `remove_sata_disk` rule. */
  predicate IsA100(hostname: string) {
    Contains(hostname, "a100")
  }

  /** What `run` adds to Jira when the command failed, before raising. */
  function FailureLog(r: Results): seq<JiraAction> {
    [Add("Aquilon command failed"), Add("Info from execution"), Add(ReportToJira(r)), Add("raising Exception"), Send]
  }

  /** The log of an action whose `_run` gave `a`: its title, then the
      report of its command or the failure report; only the title when
      `_run` itself raised. */
  function ActionLog(title: string, a: Outcome<Results>): seq<JiraAction> {
    [Add(title)]
    + (if a.Raise? then [] else if a.value.rc != 0 then FailureLog(a.value) else [Add(ReportToJira(a.value)), Send])
  }

  /** What an action whose `_run` gave `a` raises: the error of `_run`
      itself, or `HVException` for a failed command. */
  function RunVerdict(a: Outcome<Results>): Outcome<()> {
    if a.Raise? then Raise(a.exc)
    else if a.value.rc != 0 then Raise(HVException("aquilon command failed"))
    else Ok(())
  }

  /** An action raises exactly when `_run` raised or its command failed;
      when the command ran, its report is in the log, which ends with a
      send; when `_run` raised, only the title was added and nothing sent. */
  lemma ActionLogReports(title: string, a: Outcome<Results>)
    ensures RunVerdict(a).Raise? <==> a.Raise? || a.value.rc != 0
    ensures a.Raise? ==> RunVerdict(a) == Raise(a.exc) && ActionLog(title, a) == [Add(title)]
    ensures a.Ok? ==> Add(ReportToJira(a.value)) in ActionLog(title, a)
    ensures a.Ok? ==> ActionLog(title, a)[|ActionLog(title, a)| - 1] == Send
  {
    if a.Ok? && a.value.rc != 0 {
      assert ActionLog(title, a)[3] == Add(ReportToJira(a.value));
    } else if a.Ok? {
      assert ActionLog(title, a)[1] == Add(ReportToJira(a.value));
    }
  }

  /** The user name and password of the `aquilon` credential section. */
  datatype Login = Login(username: string, password: string)

  class HVAquilon {
    const hostname: string
    /** `creds_handler.aquilon`, or `None` when the credentials file has no
        `aquilon` section: nothing reads it until a command is run. */
    const login: Option<Login>
    const jira: HVJira
    const server: AqServer
    /** The command lines sent to the server, oldest first. */
    var executed: seq<string>

    constructor (hostname: string, login: Option<Login>, jira: HVJira, server: AqServer)
      ensures this.hostname == hostname && this.login == login
      ensures this.jira == jira && this.server == server && executed == []
    {
      this.hostname := hostname;
      this.login := login;
      this.jira := jira;
      this.server := server;
      executed := [];
    }

    /** The `Results` of `cmd`: recorded under the command without the
        prefix, with both streams stripped. */
    function Answer(cmd: string): Results {
      var raw := server(AqLine(cmd));
      MakeResults(cmd, Strip(raw.stdout), Strip(raw.stderr), raw.rc)
    }

    /** What `_run(cmd)` gives: connecting reads the Aquilon user name, so
        without an `aquilon` section it raises `AttributeError`. */
    function Attempt(cmd: string): Outcome<Results>
      reads this
    {
      if login.None? then Raise(NoneAttribute("username")) else Ok(Answer(cmd))
    }

    /** The lines `_run(cmd)` sends: the prefixed line once connected. */
    function Sent(cmd: string): seq<string>
      reads this
    {
      if login.None? then [] else [AqLine(cmd)]
    }

    /** `_run(cmd)`: the prefixed line is sent; the results name `cmd`. */
    method RawRun(cmd: string) returns (o: Outcome<Results>)
      modifies this
      ensures executed == old(executed) + Sent(cmd)
      ensures o == Attempt(cmd)
      ensures o.Raise? <==> login.None?
      ensures o.Ok? ==> o.value.cmd == cmd && executed == old(executed) + [AqLine(cmd)]
    {
      if login.None? {
        return Raise(NoneAttribute("username"));
      }
      var aqcmd := "export AQHOST=aquilon.gridpp.rl.ac.uk; export AQSERVICE=aqd;";
      aqcmd := aqcmd + "export PATH=/opt/aquilon/bin/:$PATH;";
      aqcmd := aqcmd + "export PATH=/var/quattor/bin/:$PATH;";
      aqcmd := aqcmd + cmd;
      var raw := server(aqcmd);
      var output := Strip(raw.stdout);
      var error := Strip(raw.stderr);
      executed := executed + [aqcmd];
      o := Ok(MakeResults(cmd, output, error, raw.rc));
    }

    /** `run(cmd)`: the results when the command succeeded, otherwise the
        failure is logged and sent and `HVException` raised; an error of
        `_run` passes through unlogged. */
    method Run(cmd: string) returns (o: Outcome<Results>)
      requires jira.Valid()
      modifies this, jira
      ensures jira.Valid()
      ensures var a := Attempt(cmd);
        executed == old(executed) + Sent(cmd)
        && o == (if a.Raise? then a else if a.value.rc != 0 then Raise(HVException("aquilon command failed")) else a)
        && jira.log == old(jira.log) + (if a.Ok? && a.value.rc != 0 then FailureLog(a.value) else [])
    {
      var results :- RawRun(cmd);
      if results.rc != 0 {
        jira.Add("Aquilon command failed");
        jira.Add("Info from execution");
        jira.Add(ReportToJira(results));
        jira.Add("raising Exception");
        jira.SendBuffer();
        return Raise(HVException("aquilon command failed"));
      }
      return Ok(results);
    }

    /** The `model` property: the stdout of `myaq-get-model`. */
    method Model() returns (o: Outcome<string>)
      requires jira.Valid()
      modifies this, jira
      ensures jira.Valid()
      ensures var cmd := ScriptCmd(ModelScript, hostname); var a := Attempt(cmd);
        executed == old(executed) + Sent(cmd)
        && o == (if a.Raise? then Raise(a.exc)
                 else if a.value.rc != 0 then Raise(HVException("aquilon command failed"))
                 else Ok(a.value.stdout))
        && jira.log == old(jira.log) + (if a.Ok? && a.value.rc != 0 then FailureLog(a.value) else [])
    {
      var results :- Run(ScriptCmd(ModelScript, hostname));
      o := Ok(results.stdout);
    }

    /** An action ran `script` for this host once, logged under `title`. */
    ghost predicate ActionDone(title: string, script: string, wasExecuted: seq<string>,
                               wasLog: seq<JiraAction>, o: Outcome<()>)
      reads this, jira
    {
      var cmd := ScriptCmd(script, hostname);
      executed == wasExecuted + Sent(cmd)
      && jira.log == wasLog + ActionLog(title, Attempt(cmd))
      && o == RunVerdict(Attempt(cmd))
    }

    /** The shape every action shares: title, command, report, send. */
    method Action(title: string, script: string) returns (o: Outcome<()>)
      requires jira.Valid()
      modifies this, jira
      ensures jira.Valid() && ActionDone(title, script, old(executed), old(jira.log), o)
    {
      jira.Add(title);
      var results :- Run(ScriptCmd(script, hostname));
      jira.Add(ReportToJira(results));
      jira.SendBuffer();
      o := Ok(());
    }

    /** `remove_interfaces()`. */
    method RemoveInterfaces() returns (o: Outcome<()>)
      requires jira.Valid()
      modifies this, jira
      ensures jira.Valid() && ActionDone(RemoveInterfacesTitle, RemoveInterfacesScript, old(executed), old(jira.log), o)
    {
      o := Action(RemoveInterfacesTitle, RemoveInterfacesScript);
    }

    /** `reimport()`. */
    method Reimport() returns (o: Outcome<()>)
      requires jira.Valid()
      modifies this, jira
      ensures jira.Valid() && ActionDone(ReimportTitle, ReimportScript, old(executed), old(jira.log), o)
    {
      o := Action(ReimportTitle, ReimportScript);
    }

    /** `manage_to_sandbox()`. */
    method ManageToSandbox() returns (o: Outcome<()>)
      requires jira.Valid()
      modifies this, jira
      ensures jira.Valid() && ActionDone(SandboxTitle, SandboxScript, old(executed), old(jira.log), o)
    {
      o := Action(SandboxTitle, SandboxScript);
    }

    /** `make_host()`. */
    method MakeHost() returns (o: Outcome<()>)
      requires jira.Valid()
      modifies this, jira
      ensures jira.Valid() && ActionDone(MakeHostTitle, MakeHostScript, old(executed), old(jira.log), o)
    {
      o := Action(MakeHostTitle, MakeHostScript);
    }

    /** `pxeswitch_host()`. */
    method PxeswitchHost() returns (o: Outcome<()>)
      requires jira.Valid()
      modifies this, jira
      ensures jira.Valid() && ActionDone(PxeswitchTitle, PxeswitchScript, old(executed), old(jira.log), o)
    {
      o := Action(PxeswitchTitle, PxeswitchScript);
    }

    /** `remove_sata_disk()`: the removal script runs only for a host whose
        name contains "a100"; any other host runs nothing. */
    method RemoveSataDisk() returns (o: Outcome<()>)
      requires jira.Valid()
      modifies this, jira
      ensures jira.Valid()
      ensures IsA100(hostname) ==>
        ActionDone("HV hostname includes string a100, proceeding", SataScript, old(executed),
                   old(jira.log) + [Add(SataTitle)], o)
      ensures !IsA100(hostname) ==> (o == Ok(()) && executed == old(executed)
        && jira.log == old(jira.log) + [Add(SataTitle), Add("HV hostname does not include string a100, nothing to do"), Send])
    {
      jira.Add(SataTitle);
      if Contains(hostname, "a100") {
        o := Action("HV hostname includes string a100, proceeding", SataScript);
      } else {
        jira.Add("HV hostname does not include string a100, nothing to do");
        jira.SendBuffer();
        o := Ok(());
      }
    }
  }
}

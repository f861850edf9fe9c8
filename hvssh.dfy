/**
 * `HVSSH` (lib/hvssh.py): checks run on the hypervisor over SSH, each
 * logging to the host's Jira helper and raising `HVException` when the
 * check fails. The SSH connection is an oracle: `remote(username, cmd)` is
 * what running `cmd` as `username` produces. The probe behind
 * `has_root_access` and the public key file are parameters.
 */
module HvSsh {
  import opened PyStr
  import opened HvException
  import opened HvLocal
  import opened HvJira

  /** The remote host: what a command run under an account produces. */
  type Remote = (string, string) -> Raw

  /** One command executed through `_run`: the account and the command line. */
  datatype Exec = Exec(username: string, cmd: string)

  const OsReleaseCmd: string := "cat /etc/os-release | grep VERSION_ID | awk -F= '{print $2}'"
  const VirshCmd: string := "virsh list --all"
  const LsblkCmd: string := "lsblk"
  const NvidiaCmd: string := "lspci | grep -i nvidia"
  const MellanoxCmd: string := "lspci | grep -i mellanox"
  const EfiCmd: string := "ls /sys/firmware/ | grep efi"
  const QemuCmd: string := "dnf -y update qemu-kvm"
  const ResolvCmd: string := "cat /etc/resolv.conf"

  /** The command `ensure_root_access` runs to append the public key to
      root's authorized keys unless it is already there. */
  function KeyCommand(key: string): string {
    "\n        sudo -S su -c 'grep -qF \"" + key + "\" /root/.ssh/authorized_keys || echo \""
      + key + "\" >> /root/.ssh/authorized_keys'\n        "
  }

  /** `if not username: username = ssh.username`. */
  function EffectiveUser(username: Option<string>, default: string): (u: string)
    ensures username.Some? && username.value != "" ==> u == username.value
    ensures username.None? || username.value == "" ==> u == default
  {
    if username.None? || username.value == "" then default else username.value
  }

  /** `f"{b}"` for a boolean. */
  function PyBool(b: bool): string {
    if b then "True" else "False"
  }

  /** What `run` adds to Jira when the command failed, before raising. */
  function FailureLog(r: Results): seq<JiraAction> {
    [Add("Remote command failed"), Add("Info from execution"), Add(ReportToJira(r)), Add("raising Exception"), Send]
  }

  // ---------------------------------------------------------------------
  // Output interpreters
  // ---------------------------------------------------------------------

  /** `stdout[1:-1].startswith(major)`: the `VERSION_ID` value inside its
      quotes starts with the major version. */
  predicate IsRocky(stdout: string, major: char) {
    StartsWith(TrimEnds(stdout), [major])
  }

  /** On a quoted value, the check looks at the value: `"8.10"` is Rocky 8,
      `"9.4"` is not. */
  lemma IsRockyQuoted(v: string, major: char)
    ensures IsRocky("\"" + v + "\"", major) <==> StartsWith(v, [major])
  {
    var s := "\"" + v + "\"";
    if |s| > 2 {
      assert s[1..|s| - 1] == v;
    }
  }

  /** `len(stdout.split('\n')) == 2`. */
  predicate VirshEmpty(stdout: string) {
    |SplitOn(stdout, '\n')| == 2
  }

  /** `virsh list --all` counts as empty exactly when its (stripped)
      output holds one line break. */
  lemma VirshEmptyOneBreak(stdout: string)
    ensures VirshEmpty(stdout) <==> Count(stdout, '\n') == 1
  {
    SplitOnJoin(stdout, '\n');
  }

  /** For a listing made of lines, it is empty exactly when it has two
      lines: the column header and the rule under it. */
  lemma VirshEmptyLines(lines: seq<string>)
    requires |lines| >= 1
    requires forall t :: t in lines ==> '\n' !in t
    ensures VirshEmpty(Join("\n", lines)) <==> |lines| == 2
  {
    SplitOnOfJoin(lines, '\n');
  }

  /** A hardware model's fix. */
  datatype Fix = Lenovo2022 | XmaA100

  /** The messages of the Rocky checks. */
  function RockyMsg(hostname: string, major: char, ready: string): string {
    "the hypervisor " + hostname + " is Rocky " + [major] + ". " + ready
  }

  function NotRockyMsg(hostname: string, major: char): string {
    "the hypervisor " + hostname + " is not Rocky " + [major] + ". Aborting"
  }

  function ReleaseTitle(major: char): string {
    "Checking the OS is Rocky " + [major]
  }

  /** How a Rocky check ends once the query succeeded. */
  function ReleaseVerdict(r: Results, hostname: string, major: char): Outcome<()> {
    if IsRocky(r.stdout, major) then Ok(()) else Raise(HVException(NotRockyMsg(hostname, major)))
  }

  /** What a Rocky check logs once the query succeeded. */
  function ReleaseLog(r: Results, hostname: string, major: char, ready: string): seq<JiraAction> {
    [Add(ReportToJira(r)),
     Add(if IsRocky(r.stdout, major) then RockyMsg(hostname, major, ready) else NotRockyMsg(hostname, major)),
     Send]
  }

  const EmptyTitle: string := "checking if HV is empty from within the host"

  /** How `is_empty` ends once the listing ran. */
  function EmptyVerdict(r: Results): Outcome<()> {
    if VirshEmpty(r.stdout) then Ok(()) else Raise(HVException("hypervisor still not empty"))
  }

  /** What `is_empty` logs once the listing ran. */
  function EmptyLog(r: Results): seq<JiraAction> {
    [Add(ReportToJira(r)), Add("is HV empty? " + PyBool(VirshEmpty(r.stdout)))]
    + (if VirshEmpty(r.stdout) then [] else [Add("Hypervisor still not empty. Raising an Exception")])
    + [Send]
  }

  const EfiTitle: string := "checking if the HV is EFI"

  /** How `verify_is_efi` ends once the listing ran. */
  function EfiVerdict(r: Results): Outcome<()> {
    if r.stdout != "" then Ok(()) else Raise(HVException("the hypervisor is not EFI enabled"))
  }

  /** What `verify_is_efi` logs once the listing ran. */
  function EfiLog(r: Results): seq<JiraAction> {
    [Add(ReportToJira(r)),
     Add(if r.stdout != "" then "the hypervisor is EFI enabled" else "the hypervisor is not EFI enabled. Raising an Exception"),
     Send]
  }

  function RootTitle(): string { "ensuring SSH as root to the hypervisor" }

  function AlreadyRootMsg(user: string, hostname: string): string {
    "user " + user + " already has root access to hypervisor " + hostname
  }

  function NotYetRootMsg(user: string, hostname: string): string {
    "user " + user + " does not have yet root access to hypervisor " + hostname
  }

  function NowRootMsg(user: string, hostname: string): string {
    "user " + user + " now has root access to hypervisor " + hostname
  }

  /** `update_qemu_kvm()` as written, from the update's results: `run` has
      already raised on a failed update, so only its exception is seen. */
  function QemuAsWritten(r: Results): Outcome<()> {
    if r.rc != 0 then Raise(HVException("Remote command failed")) else Ok(())
  }

  /** `update_qemu_kvm()` as meant, from the update's and the diagnostic's
      results. */
  function QemuIntended(r: Results, resolv: Results): Outcome<()> {
    if r.rc == 0 then Ok(())
    else if resolv.rc != 0 then Raise(HVException("Remote command failed"))
    else Raise(HVException("updating qemu failed"))
  }

  /** A failed update never reaches "updating qemu failed" as written, and
      always does as meant when the diagnostic itself succeeds. */
  lemma QemuFailureUnreported(r: Results, resolv: Results)
    requires r.rc != 0 && resolv.rc == 0
    ensures QemuAsWritten(r) != Raise(HVException("updating qemu failed"))
    ensures QemuIntended(r, resolv) == Raise(HVException("updating qemu failed"))
  {
    assert "Remote command failed" != "updating qemu failed" by {
      assert "Remote command failed"[0] != "updating qemu failed"[0];
    }
  }

  class HVSSH {
    const hostname: string
    /** `creds_handler.ssh.username`. */
    const sshUsername: string
    const jira: HVJira
    const remote: Remote
    /** The commands run through `_run`, oldest first. */
    var executed: seq<Exec>

    constructor (hostname: string, sshUsername: string, jira: HVJira, remote: Remote)
      ensures this.hostname == hostname && this.sshUsername == sshUsername
      ensures this.jira == jira && this.remote == remote && executed == []
    {
      this.hostname := hostname;
      this.sshUsername := sshUsername;
      this.jira := jira;
      this.remote := remote;
      executed := [];
    }

    /** The `Results` of running `cmd` as `user`. */
    function Answer(cmd: string, user: string): Results {
      var raw := remote(user, cmd);
      MakeResults(cmd, Strip(raw.stdout), Strip(raw.stderr), raw.rc)
    }

    /** `_run(cmd, username)`. */
    method RawRun(cmd: string, username: Option<string>) returns (r: Results)
      modifies this
      ensures executed == old(executed) + [Exec(EffectiveUser(username, sshUsername), cmd)]
      ensures r == Answer(cmd, EffectiveUser(username, sshUsername))
    {
      var user := username;
      if user.None? || user.value == "" {
        user := Some(sshUsername);
      }
      var raw := remote(user.value, cmd);
      var output := Strip(raw.stdout);
      var error := Strip(raw.stderr);
      executed := executed + [Exec(user.value, cmd)];
      r := MakeResults(cmd, output, error, raw.rc);
    }

    /** `run(cmd, username)`: the results when the command succeeded,
        otherwise the failure is logged and sent and `HVException` raised. */
    method Run(cmd: string, username: Option<string>) returns (o: Outcome<Results>)
      requires jira.Valid()
      modifies this, jira
      ensures jira.Valid()
      ensures var u := EffectiveUser(username, sshUsername); var r := Answer(cmd, u);
        executed == old(executed) + [Exec(u, cmd)]
        && o == (if r.rc != 0 then Raise(HVException("Remote command failed")) else Ok(r))
        && jira.log == old(jira.log) + (if r.rc != 0 then FailureLog(r) else [])
        && (r.rc != 0 ==> jira.buffer == Header)
    {
      var results := RawRun(cmd, username);
      if results.rc != 0 {
        jira.Add("Remote command failed");
        jira.Add("Info from execution");
        jira.Add(ReportToJira(results));
        jira.Add("raising Exception");
        jira.SendBuffer();
        return Raise(HVException("Remote command failed"));
      }
      return Ok(results);
    }

    /** What a Rocky check did: it ran the os-release query as root and
        logged it; it succeeds exactly when the query succeeded and the
        version has the major number. Every path ends with the buffer sent. */
    ghost predicate ReleaseChecked(major: char, ready: string, o: Outcome<()>,
                                   wasExecuted: seq<Exec>, wasLog: seq<JiraAction>)
      reads this, jira
    {
      var r := Answer(OsReleaseCmd, "root");
      executed == wasExecuted + [Exec("root", OsReleaseCmd)]
      && jira.buffer == Header
      && (o.Ok? <==> r.rc == 0 && IsRocky(r.stdout, major))
      && (r.rc != 0 ==> (o == Raise(HVException("Remote command failed"))
                         && jira.log == wasLog + [Add(ReleaseTitle(major))] + FailureLog(r)))
      && (r.rc == 0 ==> (o == ReleaseVerdict(r, hostname, major)
                         && jira.log == wasLog + [Add(ReleaseTitle(major))] + ReleaseLog(r, hostname, major, ready)))
    }

    method CheckRelease(major: char, ready: string) returns (o: Outcome<()>)
      requires jira.Valid()
      modifies this, jira
      ensures jira.Valid()
      ensures ReleaseChecked(major, ready, o, old(executed), old(jira.log))
    {
      jira.Add(ReleaseTitle(major));
      var results :- Run(OsReleaseCmd, Some("root"));
      o := ReportRelease(results, major, ready);
    }

    /** The end of a Rocky check, once the query succeeded. */
    method ReportRelease(results: Results, major: char, ready: string) returns (o: Outcome<()>)
      requires jira.Valid()
      modifies jira
      ensures jira.Valid() && jira.buffer == Header
      ensures o == ReleaseVerdict(results, hostname, major)
      ensures jira.log == old(jira.log) + ReleaseLog(results, hostname, major, ready)
    {
      jira.Add(ReportToJira(results));
      var version := TrimEnds(results.stdout);
      if StartsWith(version, [major]) {
        var msg := RockyMsg(hostname, major, ready);
        jira.Add(msg);
        jira.SendBuffer();
        o := Ok(());
      } else {
        var msg := NotRockyMsg(hostname, major);
        jira.Add(msg);
        jira.SendBuffer();
        o := Raise(HVException(msg));
      }
    }

    /** `is_rocky_8()`. */
    method IsRocky8() returns (o: Outcome<()>)
      requires jira.Valid()
      modifies this, jira
      ensures jira.Valid()
      ensures ReleaseChecked('8', "Ready to start.", o, old(executed), old(jira.log))
    {
      o := CheckRelease('8', "Ready to start.");
    }

    /** `is_rocky_9()`. */
    method IsRocky9() returns (o: Outcome<()>)
      requires jira.Valid()
      modifies this, jira
      ensures jira.Valid()
      ensures ReleaseChecked('9', "Ready to continue.", o, old(executed), old(jira.log))
    {
      o := CheckRelease('9', "Ready to continue.");
    }

    /** `is_empty()`: succeeds exactly when `virsh list --all` ran and
        printed two lines; the buffer is sent on every path. */
    method IsEmpty() returns (o: Outcome<()>)
      requires jira.Valid()
      modifies this, jira
      ensures jira.Valid() && jira.buffer == Header
      ensures executed == old(executed) + [Exec("root", VirshCmd)]
      ensures var r := Answer(VirshCmd, "root");
        (o.Ok? <==> r.rc == 0 && VirshEmpty(r.stdout))
        && (r.rc != 0 ==> (o == Raise(HVException("Remote command failed"))
                           && jira.log == old(jira.log) + [Add(EmptyTitle)] + FailureLog(r)))
        && (r.rc == 0 ==> (o == EmptyVerdict(r) && jira.log == old(jira.log) + [Add(EmptyTitle)] + EmptyLog(r)))
    {
      jira.Add(EmptyTitle);
      var results :- Run(VirshCmd, Some("root"));
      o := ReportEmpty(results);
    }

    /** The end of `is_empty()`, once the listing ran. */
    method ReportEmpty(results: Results) returns (o: Outcome<()>)
      requires jira.Valid()
      modifies jira
      ensures jira.Valid() && jira.buffer == Header
      ensures o == EmptyVerdict(results) && jira.log == old(jira.log) + EmptyLog(results)
    {
      jira.Add(ReportToJira(results));
      var outL := SplitOn(results.stdout, '\n');
      var empty := |outL| == 2;
      jira.Add("is HV empty? " + PyBool(empty));
      if empty {
        jira.SendBuffer();
      }
      if !empty {
        jira.Add("Hypervisor still not empty. Raising an Exception");
        jira.SendBuffer();
        return Raise(HVException("hypervisor still not empty"));
      }
      o := Ok(());
    }

    /** What an information step did: it ran `cmd` as root, logged it
        under `title` and sent the buffer; it fails only when the command
        failed. */
    ghost predicate InfoLogged(title: string, cmd: string, ok: bool,
                               wasExecuted: seq<Exec>, wasLog: seq<JiraAction>)
      reads this, jira
    {
      var r := Answer(cmd, "root");
      executed == wasExecuted + [Exec("root", cmd)]
      && jira.buffer == Header
      && (ok <==> r.rc == 0)
      && jira.log == wasLog + [Add(title)] + (if r.rc != 0 then FailureLog(r) else [Add(ReportToJira(r)), Send])
    }

    method LogCommand(title: string, cmd: string) returns (o: Outcome<Results>)
      requires jira.Valid()
      modifies this, jira
      ensures jira.Valid()
      ensures InfoLogged(title, cmd, o.Ok?, old(executed), old(jira.log))
      ensures o.Ok? ==> o.value == Answer(cmd, "root")
      ensures o.Raise? ==> o.exc == HVException("Remote command failed")
    {
      jira.Add(title);
      var results :- Run(cmd, Some("root"));
      jira.Add(ReportToJira(results));
      jira.SendBuffer();
      o := Ok(results);
    }

    /** `virsh_info()`. */
    method VirshInfo() returns (o: Outcome<()>)
      requires jira.Valid()
      modifies this, jira
      ensures jira.Valid()
      ensures InfoLogged("checking the number of running VMs", VirshCmd, o.Ok?, old(executed), old(jira.log))
    {
      var r :- LogCommand("checking the number of running VMs", VirshCmd);
      o := Ok(());
    }

    /** `blocks_info()`. */
    method BlocksInfo() returns (o: Outcome<()>)
      requires jira.Valid()
      modifies this, jira
      ensures jira.Valid()
      ensures InfoLogged("checking the block devices on the HV", LsblkCmd, o.Ok?, old(executed), old(jira.log))
    {
      var r :- LogCommand("checking the block devices on the HV", LsblkCmd);
      o := Ok(());
    }

    /** `gpus_info()`. */
    method GpusInfo() returns (o: Outcome<()>)
      requires jira.Valid()
      modifies this, jira
      ensures jira.Valid()
      ensures InfoLogged("checking the nvidia cards on the HV", NvidiaCmd, o.Ok?, old(executed), old(jira.log))
    {
      var r :- LogCommand("checking the nvidia cards on the HV", NvidiaCmd);
      o := Ok(());
    }

    /** `mellanox_info()`: the (stripped) output of the Mellanox query. */
    method MellanoxInfo() returns (o: Outcome<string>)
      requires jira.Valid()
      modifies this, jira
      ensures jira.Valid()
      ensures InfoLogged("checking the presence of mellanox cards on the HV", MellanoxCmd, o.Ok?, old(executed), old(jira.log))
      ensures o.Ok? ==> o.value == Strip(remote("root", MellanoxCmd).stdout)
    {
      var r :- LogCommand("checking the presence of mellanox cards on the HV", MellanoxCmd);
      StripIdempotent(remote("root", MellanoxCmd).stdout);
      o := Ok(r.stdout);
    }

    /** `verify_is_efi()`: succeeds exactly when the firmware listing ran
        and printed something. */
    method VerifyIsEfi() returns (o: Outcome<()>)
      requires jira.Valid()
      modifies this, jira
      ensures jira.Valid() && jira.buffer == Header
      ensures executed == old(executed) + [Exec("root", EfiCmd)]
      ensures var r := Answer(EfiCmd, "root");
        (o.Ok? <==> r.rc == 0 && r.stdout != "")
        && (r.rc != 0 ==> (o == Raise(HVException("Remote command failed"))
                           && jira.log == old(jira.log) + [Add(EfiTitle)] + FailureLog(r)))
        && (r.rc == 0 ==> (o == EfiVerdict(r) && jira.log == old(jira.log) + [Add(EfiTitle)] + EfiLog(r)))
    {
      jira.Add(EfiTitle);
      var results :- Run(EfiCmd, Some("root"));
      o := ReportEfi(results);
    }

    /** The end of `verify_is_efi()`, once the listing ran. */
    method ReportEfi(results: Results) returns (o: Outcome<()>)
      requires jira.Valid()
      modifies jira
      ensures jira.Valid() && jira.buffer == Header
      ensures o == EfiVerdict(results) && jira.log == old(jira.log) + EfiLog(results)
    {
      jira.Add(ReportToJira(results));
      if results.stdout != "" {
        jira.Add("the hypervisor is EFI enabled");
        jira.SendBuffer();
        o := Ok(());
      } else {
        jira.Add("the hypervisor is not EFI enabled. Raising an Exception");
        jira.SendBuffer();
        o := Raise(HVException("the hypervisor is not EFI enabled"));
      }
    }

    /** `ensure_root_access()`: when root access already works nothing is
        run; otherwise the key is appended as the regular user. */
    method EnsureRootAccess(hasRootAccess: bool, publicKeyFile: string) returns (o: Outcome<()>)
      requires jira.Valid()
      modifies this, jira
      ensures jira.Valid() && jira.buffer == Header
      ensures hasRootAccess ==> (o == Ok(()) && executed == old(executed)
        && jira.log == old(jira.log) + [Add(RootTitle()), Add(AlreadyRootMsg(sshUsername, hostname)), Send])
      ensures !hasRootAccess ==>
        var cmd := KeyCommand(Strip(publicKeyFile)); var r := Answer(cmd, sshUsername);
        executed == old(executed) + [Exec(sshUsername, cmd)]
        && (o.Ok? <==> r.rc == 0)
        && (o.Raise? ==> o.exc == HVException("Remote command failed"))
        && jira.log == old(jira.log) + [Add(RootTitle()), Add(NotYetRootMsg(sshUsername, hostname))]
             + (if r.rc != 0 then FailureLog(r)
                else [Add(ReportToJira(r)), Add(NowRootMsg(sshUsername, hostname)), Send])
    {
      jira.Add(RootTitle());
      if hasRootAccess {
        jira.Add(AlreadyRootMsg(sshUsername, hostname));
        jira.SendBuffer();
        return Ok(());
      }
      jira.Add(NotYetRootMsg(sshUsername, hostname));
      o := GrantRootAccess(publicKeyFile);
    }

    /** The second half of `ensure_root_access()`: the key read from the
        file, stripped, appended to root's authorized keys. */
    method GrantRootAccess(publicKeyFile: string) returns (o: Outcome<()>)
      requires jira.Valid()
      modifies this, jira
      ensures jira.Valid() && jira.buffer == Header
      ensures var cmd := KeyCommand(Strip(publicKeyFile)); var r := Answer(cmd, sshUsername);
        executed == old(executed) + [Exec(sshUsername, cmd)]
        && (o.Ok? <==> r.rc == 0)
        && (o.Raise? ==> o.exc == HVException("Remote command failed"))
        && jira.log == old(jira.log)
             + (if r.rc != 0 then FailureLog(r)
                else [Add(ReportToJira(r)), Add(NowRootMsg(sshUsername, hostname)), Send])
    {
      var publicKey := Strip(publicKeyFile);
      var command := KeyCommand(publicKey);
      var results :- Run(command, None);
      jira.Add(ReportToJira(results));
      jira.Add(NowRootMsg(sshUsername, hostname));
      jira.SendBuffer();
      o := Ok(());
    }

    /** `update_qemu_kvm()` as written: `run` has already raised when the
        update failed, so the branch that shows `/etc/resolv.conf` and
        raises "updating qemu failed" is dead. */
    method UpdateQemuKvm() returns (o: Outcome<()>)
      requires jira.Valid()
      modifies this, jira
      ensures jira.Valid() && jira.buffer == Header
      ensures var r := Answer(QemuCmd, "root");
        executed == old(executed) + [Exec("root", QemuCmd)]
        && o == QemuAsWritten(r)
        && jira.log == old(jira.log) + [Add("updating qemu")]
             + (if r.rc != 0 then FailureLog(r) else [Add(ReportToJira(r)), Send])
    {
      jira.Add("updating qemu");
      var results :- Run(QemuCmd, Some("root"));
      jira.Add(ReportToJira(results));
      if results.rc != 0 {
        assert false;
      }
      jira.SendBuffer();
      o := Ok(());
    }

    /** `update_qemu_kvm()` as its second half means it: the update is run
        without `run`'s own check, a failure shows `/etc/resolv.conf` and
        raises "updating qemu failed". */
    method UpdateQemuKvmIntended() returns (o: Outcome<()>)
      requires jira.Valid()
      modifies this, jira
      ensures jira.Valid() && jira.buffer == Header
      ensures var r := Answer(QemuCmd, "root"); var resolv := Answer(ResolvCmd, "root");
        o == QemuIntended(r, resolv)
        && executed == old(executed) + [Exec("root", QemuCmd)] + (if r.rc != 0 then [Exec("root", ResolvCmd)] else [])
    {
      jira.Add("updating qemu");
      var results := RawRun(QemuCmd, Some("root"));
      jira.Add(ReportToJira(results));
      if results.rc != 0 {
        jira.Add("command failed. Checking the content of file /etc/resolv.conf");
        var resultsResolv :- Run(ResolvCmd, Some("root"));
        jira.Add(ReportToJira(resultsResolv));
      }
      jira.SendBuffer();
      if results.rc != 0 {
        return Raise(HVException("updating qemu failed"));
      }
      o := Ok(());
    }

    /** `hardware_specific()` given the model Aquilon reports: the fix for
        that model, and none for any other model. */
    method HardwareSpecific(model: string) returns (applied: seq<Fix>)
      ensures model == "hv-2022-lenovo" <==> applied == [Lenovo2022]
      ensures model == "xma-hv-2022-a100" <==> applied == [XmaA100]
      ensures model != "hv-2022-lenovo" && model != "xma-hv-2022-a100" <==> applied == []
    {
      var lenovo := "hv-2022-lenovo";
      var a100 := "xma-hv-2022-a100";
      assert lenovo != a100 by {
        assert |lenovo| != |a100|;
      }
      applied := [];
      if model == lenovo {
        applied := applied + [Lenovo2022];
      }
      if model == a100 {
        applied := applied + [XmaA100];
        assert applied == [XmaA100];
      }
      assert applied == [Lenovo2022] ==> applied[0] == Lenovo2022;
    }
  }
}

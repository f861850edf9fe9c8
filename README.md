# Hypervisor reinstall automation, modelled in Dafny

This project models the automation library that moves a fleet of OpenStack
hypervisors from Rocky 8 to Rocky 9. It also models the three helper
scripts that prepare and follow up such a migration.

A migration reads a roster file of `hostname issue-key` lines. It builds one
`HyperVisorManager` per host and runs a named step on every host:

- `setup`
- `pre_drain`
- `pre_reinstall`
- `post_reinstall`
- `noops`

Each step is a fixed sequence of adapter calls inside one `try`. The
adapters reach SSH, OpenStack, NetBox, Aquilon and Alertmanager. The first
exception stops the sequence. Only `HVException` is handled, and each step
handles it differently:

- `setup` only prints the message; nothing is added to Jira or sent.
- `pre_drain` adds the message to the host's Jira issue and sends it. It then
  calls `move_to_pre_reinstall_failed`, which the Jira helper does not
  define, so that call raises `AttributeError` and no transition happens.
- `pre_reinstall` adds and sends the message, then moves the ticket to
  "Pre Bios Failed".
- `post_reinstall` adds and sends the message, with no transition.

Every adapter reports what it does into a per-host Jira comment buffer,
which is posted by `send_buffer`.

Modules, one per source file:

| module | models |
|---|---|
| `PyStr` | the Python `str` operations the code relies on (`strip`, `split`, `split(c)`, `join`, `startswith`, `in`, `lower`, `str(int)`, slices) |
| `HvException` | exceptions and `None` as values (`Outcome`, `Option`) |
| `HvLocal` | `lib/hvlocal.py`: the `Results` record and its Jira rendering |
| `TimeInterval` | `lib/timeinterval.py`: the silence window and its timestamps |
| `Credentials` | `lib/credentialshandler.py`: the credential sections of a parsed YAML document |
| `HvJira` | `lib/hvjira.py`: the comment buffer and the workflow transitions |
| `HvSsh` | `lib/hvssh.py`: the checks run over SSH |
| `HvOpenstack` | `lib/hvopenstack.py`: the OpenStack CLI calls and the server listing |
| `HvNetbox` | `lib/hvnetbox.py`: the NetBox record checks and changes |
| `HvAquilon` | `lib/hvaquilon.py`: the Aquilon actions |
| `HvAlertmanager` | `lib/hvalertmanager.py`: the two silences |
| `HyperVisorManager` | `lib/hypervisormanager.py`: the steps of one host |
| `HyperVisorGroup` | `lib/hypervisorgroup.py`: a step run over all hosts |
| `HostFile` | the host-list line format the roster and the scripts share |
| `MigrationManager` | `lib/migrationmanager.py`: roster parsing and construction |
| `KayobeCommands` | `bin/generate_kayobe_commands.py` |
| `CreateJiraTickets` | `bin/create_jira_tickets.py` |
| `UpdateJiraTickets` | `bin/update_jira_tickets.py` |

The objects that the source updates in place are classes whose methods
state the new state:

- the Jira helper;
- the adapters, which record the commands they ran;
- the host manager, which records its adapter calls and what it printed;
- the group, whose list of hosts the parser appends to;
- the Jira connection of `create_jira_tickets`.

Loops in the source are `while` loops with invariants, proved against a
specification function:

- roster parsing;
- `read_hostnames`;
- `get_list_of_jira_tickets`;
- the ticket-creation loop;
- `list_servers`;
- `_change_state`;
- `_change`;
- the group's series and parallel runners.

Every remote service is an oracle passed in as a function value:

- the SSH host, the local shell and the Aquilon server answer a command
  line;
- NetBox, Alertmanager and Jira answer a request;
- the host manager's `World` answers each adapter call given every call
  made on that host before it.

## Model

| member | source | states |
|---|---|---|
| `HvLocal.MakeResultsStrips` | lib/hvlocal.py:5-23 | `Results` keeps the command and return code, strips surrounding whitespace from both outputs, and rebuilding a `Results` from its own fields changes nothing |
| `HvLocal.ReportIsJoin` | lib/hvlocal.py:26-61 | the report is nine pieces joined by `{`: the four section labels and the four values, each inside a `{code}` block |
| `HvLocal.ReportLayout` | lib/hvlocal.py:26-61 | when no field holds a `{`, the report splits back into its pieces and its four code blocks read back as command, stdout, stderr and `str(rc)`, in that order |
| `TimeInterval.CivilRoundTrip` | lib/timeinterval.py:17 | every day count since 1970 names a valid calendar date, and counting the days up to that date gives the count back |
| `TimeInterval.StampRoundTrip` | lib/timeinterval.py:17 | an instant is exactly its date plus its time of day |
| `TimeInterval.ZeroPadRoundTrip` | lib/timeinterval.py:17 | a zero-padded field of the timestamp reads back as the number it renders |
| `TimeInterval.FormatLayout` | lib/timeinterval.py:17 | a `%Y-%m-%dT%H:%M:%SZ` timestamp is 20 characters with its separators in place, digits elsewhere, and its six numbers are the instant's year, month, day, hour, minute and second |
| `TimeInterval.FormatInjective` | lib/timeinterval.py:13-18 | two instants with the same timestamp are the same instant |
| `TimeInterval.ShiftLandsMidweek` | lib/timeinterval.py:27-39 | the shift is 1, 4, 3 or 2 days for Monday, Friday, Saturday or Sunday and none otherwise, and the shifted date is a Tuesday, Wednesday or Thursday |
| `TimeInterval.WindowShape` | lib/timeinterval.py:21-41 | the window ends on a Tuesday, Wednesday or Thursday, 28 to 32 whole days after it starts, at the same time of day |
| `TimeInterval.IntervalStrings` | lib/timeinterval.py:12-41 | `start_str` is a 20-character timestamp; `end_str` fails with `OverflowError` exactly when the end passes year 9999, and otherwise is a 20-character timestamp |
| `Credentials.SectionPresence` | lib/credentialshandler.py:80-87 | a section is `None` exactly when its key is absent or holds a non-mapping; it is set, to that mapping, exactly when the mapping has the dataclass's fields; otherwise `TypeError` |
| `Credentials.SectionIndependent` | lib/credentialshandler.py:80-87 | a section does not depend on what any other key of the document holds |
| `Credentials.LoadedSections` | lib/credentialshandler.py:69-97 | once loaded, the OpenStack, NetBox, Jira and SSH sections are what `load_section` gave for them |
| `Credentials.EmptyDocument` | lib/credentialshandler.py:75-77 | an empty or falsy document leaves all eight sections `None` |
| `Credentials.LoadOutcome` | lib/credentialshandler.py:69-97 | construction fails exactly when the document is a truthy non-mapping or some present section's mapping does not match its dataclass; otherwise each of the eight sections is what `load_section` gives for it |
| `HvJira.StepKeepsHeaded` | lib/hvjira.py:23-54 | every buffer call keeps the buffer and all comments starting with the header; only `send_buffer` posts a comment, and it posts the buffer |
| `HvJira.ApplyKeepsHeaded` | lib/hvjira.py:21-54 | after any sequence of calls, the buffer and every posted comment start with the header; there is one comment per `send_buffer`, and earlier comments are never changed |
| `HvJira.ApplyAppend` | lib/hvjira.py:23-54 | running two sequences of calls one after the other is running their concatenation |
| `HvJira.FirstMatchIsFirst` | lib/hvjira.py:104-109 | the transition chosen is the earliest allowed one into the state, and none is chosen exactly when no allowed transition leads there |
| `HvJira.LookupFinds` | lib/hvjira.py:60-90 | a `move_to_*` name resolves exactly when the class defines it, and to that method's state |
| `HvJira.PreReinstallFailedMissing` | lib/hvjira.py:60-93 | `move_to_pre_reinstall_failed` is not a method of `HVJira` |
| `HvJira.PreBiosFailedPresent` | lib/hvjira.py:63-64 | `move_to_pre_bios_failed` exists and moves to "Pre Bios Failed" |
| `HvJira.HVJira.ValidHeaded` | lib/hvjira.py:21-54 | a helper's buffer and posted comments all open with the header |
| `HvJira.HVJira.constructor` | lib/hvjira.py:4-21 | a new helper holds only the header, has posted nothing and performed no transition |
| `HvJira.HVJira.Add` | lib/hvjira.py:23-32 | the buffer grows by a newline and the text; the posted comments and transitions are unchanged; the helper stays consistent with its call log |
| `HvJira.HVJira.AddBlock` | lib/hvjira.py:34-47 | the buffer grows by a newline and the text inside `{code}` tags; nothing else changes |
| `HvJira.HVJira.SendBuffer` | lib/hvjira.py:49-54 | the buffer is posted as one more comment and reset to the header |
| `HvJira.HVJira.Absorb` | lib/hvjira.py:23-54 | the calls an adapter made land in the buffer exactly as if made one by one |
| `HvJira.HVJira.ChangeState` | lib/hvjira.py:96-109 | performs the first allowed transition into the state, or none; the buffer and comments are unchanged |
| `HvJira.HVJira.MoveTo` | lib/hvjira.py:60-93 | `getattr(jira, name)()`: `AttributeError` for a name the class lacks, otherwise the transition to the method's state |
| `HvSsh.EffectiveUser` | lib/hvssh.py:287-291 | a non-empty user name is used as given; a missing or empty one falls back to the configured SSH user |
| `HvSsh.IsRockyQuoted` | lib/hvssh.py:37-38 | on a quoted `VERSION_ID`, the check looks at the value inside the quotes: `"8.10"` passes for 8, `"9.4"` does not |
| `HvSsh.VirshEmptyOneBreak` | lib/hvssh.py:122-123 | the host counts as empty exactly when the stripped `virsh list --all` output holds one line break |
| `HvSsh.VirshEmptyLines` | lib/hvssh.py:80-130 | a listing made of lines is empty exactly when it has two lines, the header and the rule |
| `HvSsh.QemuFailureUnreported` | lib/hvssh.py:212-225 | a failed update never raises "updating qemu failed" as written, and always does as intended when the diagnostic succeeds |
| `HvSsh.HVSSH.constructor` | lib/hvssh.py:8-27 | the helper knows its host, SSH user, Jira helper and remote host, and has run nothing |
| `HvSsh.HVSSH.RawRun` | lib/hvssh.py:287-299 | one command is run under the effective user, and its stripped results are returned |
| `HvSsh.HVSSH.Run` | lib/hvssh.py:276-285 | a command that returned non-zero is reported, sent and raised as `HVException`; otherwise its results are returned |
| `HvSsh.HVSSH.CheckRelease` | lib/hvssh.py:29-65 | the os-release query runs as root; the check passes exactly when it succeeded and the version starts with the major number; the buffer is sent on every path |
| `HvSsh.HVSSH.ReportRelease` | lib/hvssh.py:36-46 | once the query ran, the verdict and the messages are those of the version found |
| `HvSsh.HVSSH.IsRocky8` | lib/hvssh.py:29-46 | `is_rocky_8` is the release check for major version 8 |
| `HvSsh.HVSSH.IsRocky9` | lib/hvssh.py:48-65 | `is_rocky_9` is the release check for major version 9 |
| `HvSsh.HVSSH.IsEmpty` | lib/hvssh.py:80-130 | runs `virsh list --all` as root and succeeds exactly when it ran and printed two lines; the buffer is sent on every path |
| `HvSsh.HVSSH.ReportEmpty` | lib/hvssh.py:121-130 | once the listing ran, the verdict and the messages follow the line count |
| `HvSsh.HVSSH.LogCommand` | lib/hvssh.py:132-167 | an information step runs its command as root, logs it under its title and sends it; it fails only when the command failed |
| `HvSsh.HVSSH.VirshInfo` | lib/hvssh.py:132-139 | logs `virsh list --all` |
| `HvSsh.HVSSH.BlocksInfo` | lib/hvssh.py:141-148 | logs `lsblk` |
| `HvSsh.HVSSH.GpusInfo` | lib/hvssh.py:150-157 | logs the NVIDIA devices |
| `HvSsh.HVSSH.MellanoxInfo` | lib/hvssh.py:159-167 | logs the Mellanox devices and returns the stripped output |
| `HvSsh.HVSSH.VerifyIsEfi` | lib/hvssh.py:169-183 | succeeds exactly when the firmware listing ran and printed something |
| `HvSsh.HVSSH.ReportEfi` | lib/hvssh.py:176-183 | once the listing ran, the verdict and the messages follow whether it was empty |
| `HvSsh.HVSSH.EnsureRootAccess` | lib/hvssh.py:186-210 | with root access nothing is run; otherwise the stripped public key is appended as the regular user, and the step fails exactly when that command failed |
| `HvSsh.HVSSH.GrantRootAccess` | lib/hvssh.py:197-210 | the key command is built from the stripped key file and run once as the regular user |
| `HvSsh.HVSSH.UpdateQemuKvm` | lib/hvssh.py:212-225 | as written: the update runs as root, and a failure ends in `run`'s "Remote command failed"; the resolv.conf branch is never reached |
| `HvSsh.HVSSH.UpdateQemuKvmIntended` | lib/hvssh.py:212-225 | as intended: a failed update shows `/etc/resolv.conf` and raises "updating qemu failed" |
| `HvSsh.HVSSH.HardwareSpecific` | lib/hvssh.py:228-233 | the Lenovo fix is chosen exactly for `hv-2022-lenovo`, the A100 fix exactly for `xma-hv-2022-a100`, and none for any other model |
| `HvOpenstack.DisableCmdEmbeds` | lib/hvopenstack.py:112 | the disable command names the cloud, the host and the quoted reason |
| `HvOpenstack.RowIdOk` | lib/hvopenstack.py:161-162 | a row has an id exactly when it holds a `|` |
| `HvOpenstack.RowIdsSpec` | lib/hvopenstack.py:160-163 | the rows parse exactly when each holds a `|`; then there is one stripped id per row, in order; otherwise `IndexError` |
| `HvOpenstack.ServerTableRows` | lib/hvopenstack.py:156-164 | an empty listing has no servers; otherwise the servers are the rows between the three header lines and the closing rule |
| `HvOpenstack.RowRoundTrip` | lib/hvopenstack.py:161-162 | the id of a row as OpenStack prints it is read back from that row |
| `HvOpenstack.RowCells` | lib/hvopenstack.py:161 | the first cell of a printed row is the blank-padded id |
| `HvOpenstack.RowIdsRoundTrip` | lib/hvopenstack.py:160-163 | rows printed from ids read back as those ids |
| `HvOpenstack.ListingRoundTrip` | lib/hvopenstack.py:148-164 | a whole table printed from ids, with three header lines and a closing rule, reads back as those ids |
| `HvOpenstack.RowIdsPrefixFails` | lib/hvopenstack.py:160-163 | once a row lacks a `|`, every longer run of rows fails with `IndexError` |
| `HvOpenstack.HVOpenstack.constructor` | lib/hvopenstack.py:77-99 | the adapter knows its host, cloud, Jira helper and local shell, and the initials or their absence, and has run nothing |
| `HvOpenstack.HVOpenstack.RunLocal` | lib/hvlocal.py:64-79 | one local command is run and its results returned, whatever its return code |
| `HvOpenstack.HVOpenstack.Logged` | lib/hvopenstack.py:113-116 | a command is run once, logged under its title and sent |
| `HvOpenstack.HVOpenstack.DisableHv` | lib/hvopenstack.py:108-116 | without a `general` section, raises `AttributeError` on the initials before logging or running anything; otherwise runs the disable command once and reports it, ignoring the return code |
| `HvOpenstack.HVOpenstack.EnableHv` | lib/hvopenstack.py:118-126 | runs the enable command once and reports it |
| `HvOpenstack.HVOpenstack.ShowHv` | lib/hvopenstack.py:128-136 | runs the show command once and reports it |
| `HvOpenstack.HVOpenstack.ListServers` | lib/hvopenstack.py:138-164 | one server per table row, in table order, with the ids the table reads as; a row without a `|` raises `IndexError` |
| `HvOpenstack.HVOpenstack.EnsureHvHasNoServers` | lib/hvopenstack.py:101-106 | an empty listing passes; a non-empty one raises `NameError`, because `HVException` is not imported in that file |
| `HvNetbox.UrlLayout` | lib/hvnetbox.py:130-135 | the device URL has a doubled slash before `dcim/devices/` and ends with the device id and a slash |
| `HvNetbox.GpuAnyCase` | lib/hvnetbox.py:146-152 | the GPU test ignores case: a description containing "GPU" or "gpu" passes |
| `HvNetbox.FirstNamedIsFirst` | lib/hvnetbox.py:125-128 | the interface chosen is the earliest one named so, and none is chosen exactly when no interface has that name |
| `HvNetbox.HostPartPrefix` | lib/hvnetbox.py:128 | the IPMI address is the address up to its first `/`, or all of it |
| `HvNetbox.RunChangesRelevant` | lib/hvnetbox.py:84-88 | items whose key is neither "role" nor "status" change nothing |
| `HvNetbox.UnknownRoleNoop` | lib/hvnetbox.py:94-96 | a role NetBox does not know changes nothing: nothing saved or reported |
| `HvNetbox.RunChangesStops` | lib/hvnetbox.py:84-88 | once a change has failed, the later items are not attempted |
| `HvNetbox.IpmiLookupSpec` | lib/hvnetbox.py:120-128 | the address is `None` exactly when no interface is named "bmc0"; a found address has no prefix length; the only failure is `StopIteration` |
| `HvNetbox.HVNetbox.constructor` | lib/hvnetbox.py:7-25 | the adapter holds the device record fetched by host name, or none, and has saved nothing |
| `HvNetbox.HVNetbox.HvInNetbox` | lib/hvnetbox.py:28-38 | raises exactly when NetBox has no record of the host; both paths report and send |
| `HvNetbox.HVNetbox.CheckStatusPreDrain` | lib/hvnetbox.py:40-64 | returns the lower-cased status when it is "active" or "offline", otherwise raises; both paths report the status and URL; without a record, `TypeError` |
| `HvNetbox.HVNetbox.ChangeRole` | lib/hvnetbox.py:90-105 | an unknown role changes nothing; a known one is set, saved and reported |
| `HvNetbox.HVNetbox.ChangeStatus` | lib/hvnetbox.py:107-117 | the status is set, saved and reported |
| `HvNetbox.HVNetbox.ChangeItems` | lib/hvnetbox.py:80-88 | the items are applied in order up to the first exception, which is the result |
| `HvNetbox.HVNetbox.Change` | lib/hvnetbox.py:66-78 | a failure of any item is reported and re-raised as `HVException("Exception captured: ...")`; otherwise the changes' reports are the whole log |
| `HvNetbox.HVNetbox.IpmiAddress` | lib/hvnetbox.py:120-128 | the loop over the interfaces computes the IPMI lookup |
| `HvNetbox.HVNetbox.ReportIpmiAddress` | lib/hvnetbox.py:137-143 | the address, or `None`, is reported in one comment; a failed lookup raises before anything is added |
| `HvAquilon.AqLineReadBack` | lib/hvaquilon.py:121-124 | the environment prefix is the only addition to a command, so the command can be read back from the line sent |
| `HvAquilon.ScriptCmdHost` | lib/hvaquilon.py:24-95 | every action command is the script, one space and the host name, so different hosts get different commands |
| `HvAquilon.ActionLogReports` | lib/hvaquilon.py:101-120 | an action raises exactly when `_run` raised or its command failed; when the command ran, its report is in the log, which ends with a send; when `_run` raised, only the title was logged |
| `HvAquilon.HVAquilon.constructor` | lib/hvaquilon.py:6-17 | the adapter knows its host, Jira helper and server, and the Aquilon login or its absence, and has sent nothing |
| `HvAquilon.HVAquilon.RawRun` | lib/hvaquilon.py:115-131 | without an `aquilon` section, raises `AttributeError` on the user name and sends nothing; otherwise the prefixed line is sent once and the results name the bare command |
| `HvAquilon.HVAquilon.Run` | lib/hvaquilon.py:101-113 | an error of `_run` passes through unlogged; a failed command is reported, sent and raised as "aquilon command failed"; otherwise its results are returned |
| `HvAquilon.HVAquilon.Model` | lib/hvaquilon.py:19-26 | the hardware model is the output of `myaq-get-model` for the host; `_run` errors and failed commands raise as in `run` |
| `HvAquilon.HVAquilon.Action` | lib/hvaquilon.py:28-98 | an action logs its title, runs its script for the host once and logs and sends its results; without an `aquilon` section only the title is logged and `AttributeError` is raised |
| `HvAquilon.HVAquilon.RemoveInterfaces` | lib/hvaquilon.py:28-36 | runs the interface-removal script for the host |
| `HvAquilon.HVAquilon.Reimport` | lib/hvaquilon.py:39-48 | runs the reimport script for the host |
| `HvAquilon.HVAquilon.ManageToSandbox` | lib/hvaquilon.py:51-59 | runs the sandbox script for the host |
| `HvAquilon.HVAquilon.MakeHost` | lib/hvaquilon.py:79-87 | runs the recompile script for the host |
| `HvAquilon.HVAquilon.PxeswitchHost` | lib/hvaquilon.py:90-98 | runs the PXE-switch script for the host |
| `HvAquilon.HVAquilon.RemoveSataDisk` | lib/hvaquilon.py:62-76 | the SATA-removal script runs exactly for a host whose name contains "a100"; any other host runs nothing |
| `HvAlertmanager.PayloadsDiffer` | lib/hvalertmanager.py:39-60 | the two silences match the host name exactly, one under the `hostname` label and one under `instance`, and share the window and comment |
| `HvAlertmanager.SuccessMsgLinks` | lib/hvalertmanager.py:62-68 | the success comment links both silences |
| `HvAlertmanager.PostVerdict` | lib/hvalertmanager.py:84-93 | a post succeeds exactly on status 200; otherwise the response text is raised |
| `HvAlertmanager.SilenceIdOf` | lib/hvalertmanager.py:62 | reading the silence id fails exactly when the response has none |
| `HvAlertmanager.PostRunPosts` | lib/hvalertmanager.py:35-70 | the hostname silence is posted first; the instance silence is posted exactly when the first was accepted with an id; every silence posted covers the window |
| `HvAlertmanager.PostRunSucceeds` | lib/hvalertmanager.py:35-70 | creation succeeds exactly when both posts were accepted with ids, and the one comment then links both |
| `HvAlertmanager.CreateRunNeeds` | lib/hvalertmanager.py:35-82 | a silence is posted only when the window ends by year 9999 and the `general` and `alertmanager` sections are set; otherwise creation raises before posting or logging, with `OverflowError` from `end_str`, then `AttributeError` on the initials, then on the AlertManager user name, in that order; with all three it is the posting run |
| `HvAlertmanager.HVAlertManager.constructor` | lib/hvalertmanager.py:9-20 | the adapter knows its host, Jira helper and service, the initials and AlertManager login or their absence, and the window's `start_str` and `end_str` (which may be an `OverflowError`), and has posted nothing |
| `HvAlertmanager.HVAlertManager.CreateSilenceMatcher` | lib/hvalertmanager.py:73-93 | without an `alertmanager` section, raises `AttributeError` on the user name before posting; otherwise one post, and a rejection is reported, sent and raised |
| `HvAlertmanager.HVAlertManager.CreateSilences` | lib/hvalertmanager.py:35-70 | the posts, log and exception are those of the creation run, including the failures of `end_str` and of the missing sections |
| `HvAlertmanager.HVAlertManager.CreateSilence` | lib/hvalertmanager.py:22-33 | any failure of the creation run, including `OverflowError` and the missing sections' `AttributeError`, is reported and re-raised as `HVException("Exception captured: ...")` |
| `HyperVisorManager.ThenFromLastCall` | lib/hypervisormanager.py:38-97 | within a step, an exception in flight is what the last call made raised: nothing is called after it |
| `HyperVisorManager.WhenRunsBody` | lib/hypervisormanager.py:57-92 | a guarded call makes its test call, then its body exactly when the test returned a value that passes the guard |
| `HyperVisorManager.DoPrefix` | lib/hypervisormanager.py:39-46 | each plain call extends the prefix of the step's calls by one, until something raises |
| `HyperVisorManager.PreDrainOrder` | lib/hypervisormanager.py:39-46 | `pre_drain` calls a prefix of its seven checks in the order written, and all seven when nothing was raised |
| `HyperVisorManager.PreDrainFromLastCall` | lib/hypervisormanager.py:39-47 | the exception `pre_drain`'s body leaves in flight came from the last call it made |
| `HyperVisorManager.PostReinstallOrder` | lib/hypervisormanager.py:85-91 | the calls `post_reinstall` made are a prefix of its calls in the order written, with `gpus_info` exactly when `has_gpu` was true; all of them when nothing was raised |
| `HyperVisorManager.PostReinstallFromLastCall` | lib/hypervisormanager.py:85-91 | a raised `post_reinstall` stopped at its last call: what it raised is that call's error |
| `HyperVisorManager.PreReinstallOrder` | lib/hypervisormanager.py:58-73 | the calls `pre_reinstall` made are a prefix of its calls in the order written, with `gpus_info` exactly when `has_gpu` was true and the Mellanox playbook exactly when the second `mellanox_info` returned something other than ""; all of them when nothing was raised |
| `HyperVisorManager.PreReinstallFromLastCall` | lib/hypervisormanager.py:58-73 | a raised `pre_reinstall` stopped at its last call: what it raised is that call's error |
| `HyperVisorManager.HelperCredentialsSpec` | lib/hypervisormanager.py:22-27 | building the helpers succeeds exactly when the Jira, NetBox, OpenStack and SSH sections are all set; otherwise it raises `AttributeError` for the first unset one, in that order (lib/hvjira.py:18, lib/hvnetbox.py:22, lib/hvopenstack.py:94, lib/hvssh.py:19) |
| `HyperVisorManager.HelperCredentialsOfDocument` | lib/credentialshandler.py:80-87 | for a loaded credentials file, the helpers can be built exactly when the file holds a mapping under each of `jira`, `netbox`, `openstack` and `ssh` |
| `HyperVisorManager.HyperVisorManager.constructor` | lib/hypervisormanager.py:11-28 | once the helpers' sections are set, a host shares the migration's window and credentials and gets a fresh Jira helper on its own issue |
| `HyperVisorManager.NewHyperVisorManager` | lib/hypervisormanager.py:11-28 | building a host raises exactly the helpers' `AttributeError` when a section they read is unset; otherwise a fresh host on its name and issue, with no call made |
| `HyperVisorManager.HyperVisorManager.Invoke` | lib/hypervisormanager.py:31-97 | one adapter call: its Jira calls land in the host's buffer and its result is the world's answer |
| `HyperVisorManager.HyperVisorManager.Perform` | lib/hypervisormanager.py:38-97 | one statement of a step, plain or guarded, has the effect the step semantics gives it |
| `HyperVisorManager.HyperVisorManager.Setup` | lib/hypervisormanager.py:31-36 | an `HVException` from `ensure_root_access` is printed and swallowed; any other exception escapes |
| `HyperVisorManager.HyperVisorManager.PreDrainBody` | lib/hypervisormanager.py:39-46 | the body stops at the first exception |
| `HyperVisorManager.HyperVisorManager.Report` | lib/hypervisormanager.py:47-51 | only an `HVException` is caught; its message is printed, added and sent |
| `HyperVisorManager.HyperVisorManager.PreDrain` | lib/hypervisormanager.py:38-52 | a caught error is reported, then `AttributeError` escapes from the missing `move_to_pre_reinstall_failed`; any other exception escapes as it is |
| `HyperVisorManager.HyperVisorManager.PreReinstallBody` | lib/hypervisormanager.py:57-74 | the body stops at the first exception |
| `HyperVisorManager.HyperVisorManager.PreReinstall` | lib/hypervisormanager.py:55-80 | a caught error is reported and the issue moved to "Pre Bios Failed" when Jira offers it; any other exception escapes |
| `HyperVisorManager.HyperVisorManager.PostReinstallBody` | lib/hypervisormanager.py:84-92 | the body stops at the first exception |
| `HyperVisorManager.HyperVisorManager.PostReinstall` | lib/hypervisormanager.py:82-97 | a caught error is reported and no transition is made; any other exception escapes |
| `HyperVisorManager.HyperVisorManager.RunStep` | lib/hypervisormanager.py:31-104 | each step name runs its step; the result is what escapes that step's handler |
| `HyperVisorManager.HyperVisorManager.Noops` | lib/hypervisormanager.py:100-104 | prints the host name and calls no adapter |
| `HyperVisorGroup.HyperVisorGroup.constructor` | lib/hypervisorgroup.py:5-7 | a new group is an empty list |
| `HyperVisorGroup.HyperVisorGroup.Append` | lib/hypervisorgroup.py:3 | the new host goes last; the others keep their places |
| `HyperVisorGroup.HyperVisorGroup.Run` | lib/hypervisorgroup.py:9-19 | each of the five step names is started once on every host, in list order; any other name changes no host |
| `HyperVisorGroup.HyperVisorGroup.StartOn` | lib/hypervisorgroup.py:21-38 | `getattr(hv, step)()` on one host: that host's calls and result are those of its step, and one dispatch is recorded |
| `HyperVisorGroup.HyperVisorGroup.RunSeries` | lib/hypervisorgroup.py:21-26 | hosts are run in list order; the run ends normally exactly when every host's step did; an exception stops it at that host and escapes |
| `HyperVisorGroup.HyperVisorGroup.RunParallel` | lib/hypervisorgroup.py:28-38 | one thread per host, started in list order; every host's step is run once, whatever the others raise |
| `HostFile.KeptHasColumn` | lib/migrationmanager.py:23-28 | a kept line has at least one whitespace column |
| `MigrationManager.RosterSpec` | lib/migrationmanager.py:16-31 | the roster parses exactly when every kept line has two tokens, and then holds one (host name, issue key) pair per kept line, in file order |
| `MigrationManager.RosterOk` | lib/migrationmanager.py:21-30 | parsing succeeds exactly when every kept line has two tokens |
| `MigrationManager.RosterValues` | lib/migrationmanager.py:21-30 | a parsed roster holds each kept line's two tokens, in file order |
| `MigrationManager.SkippedLines` | lib/migrationmanager.py:23-26 | blank and comment lines add no host, wherever they are |
| `MigrationManager.RosterFirstError` | lib/migrationmanager.py:28 | a failing roster fails with the `ValueError` of its first kept line that does not have two tokens |
| `MigrationManager.RosterRaisedStays` | lib/migrationmanager.py:21-28 | once a line fails, parsing stops with that error |
| `MigrationManager.MigrationManager.constructor` | lib/migrationmanager.py:7-13 | the manager holds its window and credentials and an empty group |
| `MigrationManager.ParseUsable` | lib/migrationmanager.py:16-31 | when hosts can be built, the file parses exactly as the roster does |
| `MigrationManager.ParseRefused` | lib/migrationmanager.py:16-31 | when no host can be built, only a file without hosts parses; a well-formed roster naming a host fails with the building error; an ill-formed one fails with that error or its own |
| `MigrationManager.ParseSkip` | lib/migrationmanager.py:25-26 | a blank or comment line leaves the parse as it was |
| `MigrationManager.ParseAdd` | lib/migrationmanager.py:28-30 | a kept line of two tokens whose host is built adds its (host name, issue key) entry |
| `MigrationManager.ParseFail` | lib/migrationmanager.py:28-29 | a kept line without two tokens fails the file with its `ValueError`; one whose host cannot be built fails it with the building error |
| `MigrationManager.ParseRaisedStays` | lib/migrationmanager.py:21-30 | once a line fails, the whole file fails with that error |
| `MigrationManager.MissingJiraRefusesHosts` | lib/migrationmanager.py:29 | a credentials file without a `jira` mapping loads, but a roster naming a host then fails with `AttributeError` on the Jira user name |
| `MigrationManager.MigrationManager.ParseHypervisorsFile` | lib/migrationmanager.py:16-31 | a new group holds one host per roster entry, in file order, each sharing the window and credentials; it fails exactly when the first failing line fails, with a `ValueError` for a line without two tokens or the building error for a host that cannot be built |
| `MigrationManager.MigrationManager.AddHost` | lib/migrationmanager.py:29-30 | a new host with this name and issue key, sharing the window and credentials, is appended; when the host cannot be built the building error is returned and the group is left as it was |
| `MigrationManager.MigrationManager.Run` | lib/migrationmanager.py:33-34 | the step is handed to the group unchanged |
| `MigrationManager.NewMigrationManager` | lib/migrationmanager.py:7-14 | the window starts now; a credentials error comes first, then a roster or host-building error; otherwise the manager holds the parsed group |
| `KayobeCommands.FirstColumnsSpec` | bin/generate_kayobe_commands.py:43-60 | one host name per kept line, its first column, in file order; extra columns are ignored |
| `KayobeCommands.ReadHostnames` | bin/generate_kayobe_commands.py:43-60 | the loop collects the first column of every kept line |
| `KayobeCommands.BuildCommands` | bin/generate_kayobe_commands.py:63-88 | three commands are built |
| `KayobeCommands.HostListsReadBack` | bin/generate_kayobe_commands.py:65-67 | the colon list reads back as the hosts, and the inventory as the hosts followed by one empty item, when no name holds `:` or `,` |
| `KayobeCommands.GenerateExits` | bin/generate_kayobe_commands.py:91-103 | the script exits with status 1 exactly when the file has no kept line; otherwise it builds the commands over the file's hosts |
| `CreateJiraTickets.Connection.constructor` | bin/create_jira_tickets.py:38-46 | a connection has sent no request |
| `CreateJiraTickets.Connection.SearchIssues` | bin/create_jira_tickets.py:76 | one search is sent and answered |
| `CreateJiraTickets.Connection.CreateIssue` | bin/create_jira_tickets.py:95 | one creation is sent and answered |
| `CreateJiraTickets.NonEmptyLinesInOrder` | bin/create_jira_tickets.py:51 | the lines read are each line's stripped text when not empty, in file order |
| `CreateJiraTickets.NonEmptyLinesMembers` | bin/create_jira_tickets.py:51 | a text is read exactly when it is the non-empty stripped form of some line of the file, and no more texts are read than lines |
| `CreateJiraTickets.NonEmptyLinesAppend` | bin/create_jira_tickets.py:51 | reading more lines adds their kept texts after those already kept |
| `CreateJiraTickets.NonEmptyLines` | bin/create_jira_tickets.py:51 | no line read is empty |
| `CreateJiraTickets.ProcessLines` | bin/create_jira_tickets.py:64-104 | one output line per input line, each the word or the word, a space and a key; a line with a space passes unchanged and sends nothing; at most two requests per line; earlier requests are kept |
| `CreateJiraTickets.FileTextReadBack` | bin/create_jira_tickets.py:106-110 | the file written reads back, split on newlines, as the lines and one empty item |
| `CreateJiraTickets.FileTextJoin` | bin/create_jira_tickets.py:109-110 | the file is the lines joined by newlines, with a final newline |
| `CreateJiraTickets.CreateJiraIssuesFromFile` | bin/create_jira_tickets.py:48-115 | a file with no non-empty line gives `False` and writes nothing; otherwise each line is resolved in order, the file is rewritten with the resolved lines and the result is `True` |
| `CreateJiraTickets.ResolveLine` | bin/create_jira_tickets.py:66-104 | a line with a space is kept; otherwise the first key found, else the created key, is appended, and the word stays bare when both fail |
| `CreateJiraTickets.WriteLines` | bin/create_jira_tickets.py:108-110 | the text written is every line followed by a newline |
| `UpdateJiraTickets.TicketsSpec` | bin/update_jira_tickets.py:3-18 | the list is read exactly when every kept line has a second column, and then holds those columns in file order; otherwise `IndexError` |
| `UpdateJiraTickets.TicketsOk` | bin/update_jira_tickets.py:6-17 | reading succeeds exactly when every kept line has a second column |
| `UpdateJiraTickets.TicketsValues` | bin/update_jira_tickets.py:6-17 | a read list holds each kept line's second column, in file order |
| `UpdateJiraTickets.TicketsError` | bin/update_jira_tickets.py:17 | the only failure is `IndexError` |
| `UpdateJiraTickets.TicketsRaisedStays` | bin/update_jira_tickets.py:6-17 | once a line fails, reading stops with that error |
| `UpdateJiraTickets.GetListOfJiraTickets` | bin/update_jira_tickets.py:3-18 | the loop computes the ticket list or its error |
| `UpdateJiraTickets.UpdateJiraTicketsFromFile` | bin/update_jira_tickets.py:20-33 | one internal comment per ticket, in file order, each with the given text; a bad file fails before any comment |

## Left out

- `HyperVisorManager.HyperVisorManager.constructor`: requires the Jira, NetBox, OpenStack and SSH sections to be set, because a Dafny constructor cannot return an error; `NewHyperVisorManager` models the `AttributeError` path and is what the migration manager calls.
- Network and process I/O is not modelled. This covers paramiko, `subprocess`, `requests`, `pynetbox`, the OpenStack SDK and the Jira client. Each becomes an oracle parameter.
- The key-file read of `HVSSH.__init__` and the connection failures of any client are not modelled.
- `datetime.now` is the parameter `now` (seconds since the epoch). Sub-second precision and time zones other than UTC are not modelled.
- Threads are not modelled as interleavings. In `_run_parallel`, each host's step is modelled as running to completion when its thread is joined. That is one schedule the threads can take.
- Parsing of the credentials file is not modelled; the parsed YAML document is the parameter. A missing or unreadable file is not modelled either.
- `HyperVisorManager`: the adapters are reached through a `World` oracle. The adapters' own behaviour is proved in their modules, but the two are not connected by a lemma.
- `HyperVisorManager`: the migration's `TimeInterval` and `CredentialsHandler` objects are shared by every host. They are modelled as equal values, not as one shared object.
- `HvSsh.HVSSH.EnsureRootAccess`: the `has_root_access` probe is a parameter, and the public key file's contents are a parameter.
- The bodies of `_hardware_fix_2022_lenovo` and `_hardware_fix_xma_hv_2022_a100` (lib/hvssh.py:235-269) are not modelled. They use the undefined names `results` and `sel`, so they raise `UnboundLocalError` or `NameError`. `HvSsh.HVSSH.HardwareSpecific` states only which fix is chosen.
- `HvSsh.HVSSH.UpdateQemuKvmIntended`: its contract leaves out what it adds to Jira.
- `HvNetbox`: the device lookup at construction is a parameter. `save()` is recorded, not sent.
- `PyStr.Lower`: `lower()` is modelled on ASCII letters only.
- `HyperVisorGroup.HyperVisorGroup.Run`: states the order and number of dispatches, not each host's result. `StartOn` states the per-host result.
- `HyperVisorGroup.HyperVisorGroup.RunParallel`: same as `Run`; exceptions raised inside threads are printed by the thread machinery, which is not modelled.
- `KayobeCommands.BuildCommands`: its contract states only the count. The host lists the commands carry are stated by `HostListsReadBack`.
- `_run_series` is not reached from `run` in the source. It is modelled for completeness.
- `Server.status` and `Server.hypervisor` (lib/hvopenstack.py:20-29) are not modelled. Neither are the commented-out `migrate` and `migrate_servers`.
- `remove_silence` only raises `NotImplementedError` and is not modelled.
- `response.json()` is modelled as a response's optional `silenceID`. Malformed JSON is not modelled.
- lib/hvkayobe.py is not part of this model. `run_mellanox_playbook` appears as one adapter call.
- `run.py`, `scripts/` and `attic/` are not part of this model.
- `create_jira_tickets`: the connection and `myself()` failures are not modelled, and neither are a missing input file or a failed write. Its per-line prints are not modelled either.
- `update_jira_tickets`: connection and `add_comment` failures are not modelled.
- `generate_kayobe_commands`: argument parsing and the missing-file exit are not modelled.
- bin/update_jira_tickets.py has syntax errors: the `def` on line 3 has no colon, and line 61 is unclosed. So does lib/hvssh.py, whose `def` on line 132 has no colon. The model follows the evident intent of those lines.

## Findings

| source | as written | input that shows it | evidently intended | confidence | as-written member | corrected member |
|---|---|---|---|---|---|---|
| lib/hvssh.py:212-225 | `update_qemu_kvm` calls `run`, which already raises "Remote command failed" when the update returns non-zero, so the `/etc/resolv.conf` diagnostic and "updating qemu failed" are never reached | `dnf -y update qemu-kvm` returning rc 1 | a failed update shows `/etc/resolv.conf` and raises "updating qemu failed" | not executed | `HvSsh.HVSSH.UpdateQemuKvm` | `HvSsh.HVSSH.UpdateQemuKvmIntended` |

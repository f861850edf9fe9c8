/**
 * `HyperVisorManager` (lib/hypervisormanager.py): the steps of one host's
 * migration. Each step is a fixed sequence of adapter calls inside one
 * `try`; the first exception stops the sequence, and only `HVException` is
 * handled. `setup` only prints it. `pre_drain` reports it to the host's
 * issue and then calls the undefined `move_to_pre_reinstall_failed`, which
 * raises `AttributeError`. `pre_reinstall` reports it and moves the ticket
 * to "Pre Bios Failed". `post_reinstall` reports it with no transition.
 *
 * The adapter calls are opaque here: a `World` answers each call given
 * every call made on the host before it, with what the call added to the
 * host's Jira buffer and what it returned or raised. The adapters' own
 * behaviour is modelled in their modules.
 */
module HyperVisorManager {
  import opened HvException
  import opened HvJira
  import TimeInterval
  import Credentials

  /** The adapter calls the steps make. */
  datatype Op =
    | EnsureRootAccess
    | IsRocky8 | IsRocky9 | UpdateQemuKvm | IsEmpty | BlocksInfo | GpusInfo | MellanoxInfo
    | VirshInfo | VerifyIsEfi | HardwareSpecific
    | HvInNetbox | CheckStatusPreDrain | HasGpu | Change(changes: seq<(string, string)>) | ReportIpmiAddress
    | DisableHv | ShowHv | EnsureHvHasNoServers
    | CreateSilence
    | Reimport | RemoveInterfaces | RemoveSataDisk | MakeHost | PxeswitchHost
    | RunMellanoxPlaybook

  /** What an adapter call returns: nothing of interest, a boolean
      (`has_gpu`) or a string (`mellanox_info`). */
  datatype Value = NoValue | Flag(flag: bool) | Text(text: string)

  /** An adapter call's answer: what it added to the Jira buffer, then what
      it returned or raised. */
  datatype Reply = Reply(effects: seq<JiraAction>, result: Outcome<Value>)

  /** The adapters, seen from the manager. */
  type World = (seq<Op>, Op) -> Reply

  /** The two tests the steps make on a returned value. */
  datatype Guard = Truthy | NotEmptyString

  /** `if value:` and `if value != "":`. */
  predicate Holds(g: Guard, v: Value) {
    match g
    case Truthy => (v.Flag? && v.flag) || (v.Text? && v.text != [])
    case NotEmptyString => v != Text("")
  }

  /** The call returned a value that passes the guard. */
  predicate Passes(g: Guard, o: Outcome<Value>) {
    o.Ok? && Holds(g, o.value)
  }

  /** One statement of a step: a call, or a call whose returned value
      decides whether a second call is made. */
  datatype Instr = Do(op: Op) | When(test: Op, guard: Guard, body: Op)

  /** Where a step got to: the calls made on the host, the Jira calls made,
      and the exception in flight, if any. */
  datatype Trace = Trace(calls: seq<Op>, log: seq<JiraAction>, error: Option<Exc>)

  function ErrorOf<T>(o: Outcome<T>): Option<Exc> {
    if o.Raise? then Some(o.exc) else None
  }

  /** One adapter call. */
  function Call(w: World, s: Trace, op: Op): Trace {
    var r := w(s.calls, op);
    Trace(s.calls + [op], s.log + r.effects, ErrorOf(r.result))
  }

  /** One statement; nothing happens once an exception is in flight. */
  function Then(w: World, s: Trace, i: Instr): Trace {
    if s.error.Some? then s
    else match i
      case Do(op) => Call(w, s, op)
      case When(test, guard, body) =>
        var t := Call(w, s, test);
        if !Passes(guard, w(s.calls, test).result) then t
        else Call(w, t, body)
  }

  const PlannedStatus: seq<(string, string)> := [("status", "planned")]
  const ProductionStatus: seq<(string, string)> := [("status", "active"), ("role", "Openstack Prod Kolla_Compute")]

  /** `pre_drain`'s `try` body, statement by statement. */
  function PreDrainRun(w: World, s: Trace): Trace {
    var s1 := Then(w, s, Do(IsRocky8));
    var s2 := Then(w, s1, Do(UpdateQemuKvm));
    var s3 := Then(w, s2, Do(HvInNetbox));
    var s4 := Then(w, s3, Do(CheckStatusPreDrain));
    var s5 := Then(w, s4, Do(DisableHv));
    var s6 := Then(w, s5, Do(ShowHv));
    Then(w, s6, Do(VirshInfo))
  }

  /** `pre_reinstall`'s `try` body, statement by statement: the checks
      that the host is empty, then the rebuild. */
  function PreReinstallRun(w: World, s: Trace): Trace {
    PreReinstallRebuild(w, PreReinstallChecks(w, s))
  }

  /** The first four statements of `pre_reinstall`. */
  function PreReinstallChecks(w: World, s: Trace): Trace {
    var s1 := Then(w, s, Do(EnsureHvHasNoServers));
    var s2 := Then(w, s1, Do(IsEmpty));
    var s3 := Then(w, s2, Do(BlocksInfo));
    Then(w, s3, When(HasGpu, Truthy, GpusInfo))
  }

  /** The remaining statements of `pre_reinstall`. */
  function PreReinstallRebuild(w: World, s4: Trace): Trace {
    var s5 := Then(w, s4, Do(CreateSilence));
    var s6 := Then(w, s5, Do(Change(PlannedStatus)));
    var s7 := Then(w, s6, Do(MellanoxInfo));
    var s8 := Then(w, s7, Do(Reimport));
    var s9 := Then(w, s8, Do(RemoveInterfaces));
    var s10 := Then(w, s9, Do(RemoveSataDisk));
    var s11 := Then(w, s10, Do(MakeHost));
    var s12 := Then(w, s11, Do(PxeswitchHost));
    var s13 := Then(w, s12, When(MellanoxInfo, NotEmptyString, RunMellanoxPlaybook));
    Then(w, s13, Do(ReportIpmiAddress))
  }

  /** `post_reinstall`'s `try` body, statement by statement. */
  function PostReinstallRun(w: World, s: Trace): Trace {
    var s1 := Then(w, s, Do(IsRocky9));
    var s2 := Then(w, s1, Do(BlocksInfo));
    var s3 := Then(w, s2, When(HasGpu, Truthy, GpusInfo));
    var s4 := Then(w, s3, Do(VerifyIsEfi));
    var s5 := Then(w, s4, Do(HardwareSpecific));
    Then(w, s5, Do(Change(ProductionStatus)))
  }

  /** `f"An ERROR occurred {ex}. Aborting automation for hypervisor {hostname}"`. */
  function ErrorMsg(ex: Exc, hostname: string): string {
    "An ERROR occurred " + Str(ex) + ". Aborting automation for hypervisor " + hostname
  }

  /** The exception in flight is one `except HVException` catches. */
  predicate Caught(error: Option<Exc>) {
    error.Some? && error.value.HVException?
  }

  /** What the handler of a reporting step adds to Jira. */
  function HandlerLog(error: Option<Exc>, hostname: string): seq<JiraAction> {
    if Caught(error) then [Add(ErrorMsg(error.value, hostname)), Send] else []
  }

  /** What the handler prints. */
  function HandlerPrint(error: Option<Exc>, hostname: string): seq<string> {
    if Caught(error) then [ErrorMsg(error.value, hostname)] else []
  }

  /** The exception that leaves a step whose handler returns normally:
      any exception but `HVException`. */
  function Escaping(error: Option<Exc>): Outcome<()> {
    if error.Some? && !Caught(error) then Raise(error.value) else Ok(())
  }

  // ---------------------------------------------------------------------
  // Properties of the step semantics
  // ---------------------------------------------------------------------

  /** The exception in flight, if any, is what the last call made raised. */
  predicate FromLastCall(w: World, s: Trace) {
    s.error.Some? ==> |s.calls| > 0 && w(s.calls[..|s.calls| - 1], s.calls[|s.calls| - 1]).result == Raise(s.error.value)
  }

  /** Every statement keeps `FromLastCall`: a statement makes no call once
      an exception is in flight, and one that raises makes no call after. */
  lemma ThenFromLastCall(w: World, s: Trace, i: Instr)
    requires FromLastCall(w, s)
    ensures FromLastCall(w, Then(w, s, i))
  {
    if s.error.None? {
      var op := if i.Do? then i.op else i.test;
      var t := Call(w, s, op);
      assert t.calls[..|t.calls| - 1] == s.calls;
      if i.When? && Passes(i.guard, w(s.calls, i.test).result) {
        var u := Call(w, t, i.body);
        assert u.calls[..|u.calls| - 1] == t.calls;
      }
    }
  }

  /** A guarded call makes its test call, then its body exactly when the
      test returned a value that passes the guard. */
  lemma WhenRunsBody(w: World, s: Trace, test: Op, guard: Guard, body: Op)
    requires s.error.None?
    ensures var t := w(s.calls, test); var r := Then(w, s, When(test, guard, body));
      (Passes(guard, t.result) ==> r.calls == s.calls + [test, body] && r.error == ErrorOf(w(s.calls + [test], body).result))
      && (!Passes(guard, t.result) ==> r.calls == s.calls + [test] && r.error == ErrorOf(t.result))
  {
    assert s.calls + [test] + [body] == s.calls + [test, body];
  }

  /** The calls of a step so far are the first `n` of `order`, all `i`
      statements so far when nothing was raised. */
  predicate Prefix(start: Trace, t: Trace, order: seq<Op>, i: nat) {
    var n := |t.calls| - |start.calls|;
    0 <= n <= i <= |order| && t.calls == start.calls + order[..n] && (t.error.None? ==> n == i)
  }

  /** A plain call keeps `Prefix` with one more statement. */
  lemma DoPrefix(w: World, start: Trace, t: Trace, order: seq<Op>, i: nat)
    requires Prefix(start, t, order, i) && i < |order|
    ensures Prefix(start, Then(w, t, Do(order[i])), order, i + 1)
  {
    if t.error.None? {
      assert order[..i + 1] == order[..i] + [order[i]];
    }
  }

  /** A guarded call keeps `Prefix` with one more statement, or two when
      the test passed and the body was made too. */
  lemma WhenPrefix(w: World, start: Trace, t: Trace, order: seq<Op>, i: nat, test: Op, guard: Guard, body: Op)
    requires Prefix(start, t, order, i) && i < |order| && order[i] == test
    requires var passes := Passes(guard, w(start.calls + order[..i], test).result);
      passes ==> i + 1 < |order| && order[i + 1] == body
    ensures var passes := Passes(guard, w(start.calls + order[..i], test).result);
      Prefix(start, Then(w, t, When(test, guard, body)), order, if passes then i + 2 else i + 1)
  {
    if t.error.None? {
      WhenRunsBody(w, t, test, guard, body);
      assert order[..i + 1] == order[..i] + [test];
      if Passes(guard, w(t.calls, test).result) {
        assert order[..i + 2] == order[..i] + [test, body];
      }
    }
  }

  /** A step whose calls keep `Prefix` to the end made a prefix of its
      calls in order, all of them when nothing was raised. */
  lemma PrefixCalls(start: Trace, r: Trace, order: seq<Op>)
    requires Prefix(start, r, order, |order|)
    ensures start.calls <= r.calls <= start.calls + order
    ensures r.error.None? ==> r.calls == start.calls + order
  {
    var n := |r.calls| - |start.calls|;
    assert (start.calls + order)[..|r.calls|] == start.calls + order[..n];
    assert order[..|order|] == order;
  }

  /** In `pre_drain` the checks come in this order, and none is made once
      one has raised: the calls made are a prefix of the seven, all of them
      when nothing was raised. */
  lemma PreDrainOrder(w: World, s: Trace)
    requires s.error.None?
    ensures var r := PreDrainRun(w, s); var n := |r.calls| - |s.calls|;
      var order := [IsRocky8, UpdateQemuKvm, HvInNetbox, CheckStatusPreDrain, DisableHv, ShowHv, VirshInfo];
      0 <= n <= 7 && r.calls == s.calls + order[..n] && (r.error.None? ==> n == 7)
  {
    var order := [IsRocky8, UpdateQemuKvm, HvInNetbox, CheckStatusPreDrain, DisableHv, ShowHv, VirshInfo];
    assert Prefix(s, s, order, 0);
    var s1 := Then(w, s, Do(IsRocky8));
    DoPrefix(w, s, s, order, 0);
    var s2 := Then(w, s1, Do(UpdateQemuKvm));
    DoPrefix(w, s, s1, order, 1);
    var s3 := Then(w, s2, Do(HvInNetbox));
    DoPrefix(w, s, s2, order, 2);
    var s4 := Then(w, s3, Do(CheckStatusPreDrain));
    DoPrefix(w, s, s3, order, 3);
    var s5 := Then(w, s4, Do(DisableHv));
    DoPrefix(w, s, s4, order, 4);
    var s6 := Then(w, s5, Do(ShowHv));
    DoPrefix(w, s, s5, order, 5);
    DoPrefix(w, s, s6, order, 6);
  }

  /** An exception in flight after `pre_drain`'s body came from the last
      call it made. */
  lemma PreDrainFromLastCall(w: World, s: Trace)
    requires s.error.None?
    ensures FromLastCall(w, PreDrainRun(w, s))
  {
    var s1 := Then(w, s, Do(IsRocky8));
    ThenFromLastCall(w, s, Do(IsRocky8));
    var s2 := Then(w, s1, Do(UpdateQemuKvm));
    ThenFromLastCall(w, s1, Do(UpdateQemuKvm));
    var s3 := Then(w, s2, Do(HvInNetbox));
    ThenFromLastCall(w, s2, Do(HvInNetbox));
    var s4 := Then(w, s3, Do(CheckStatusPreDrain));
    ThenFromLastCall(w, s3, Do(CheckStatusPreDrain));
    var s5 := Then(w, s4, Do(DisableHv));
    ThenFromLastCall(w, s4, Do(DisableHv));
    var s6 := Then(w, s5, Do(ShowHv));
    ThenFromLastCall(w, s5, Do(ShowHv));
    ThenFromLastCall(w, s6, Do(VirshInfo));
  }

  /** `post_reinstall` makes its calls in this order, `gpus_info` exactly
      when `has_gpu` returned true: the calls made are a prefix of that
      order, all of it when nothing was raised. */
  lemma PostReinstallOrder(w: World, s: Trace)
    requires s.error.None?
    ensures var r := PostReinstallRun(w, s);
      var gpu := Passes(Truthy, w(s.calls + [IsRocky9, BlocksInfo], HasGpu).result);
      var full := s.calls + [IsRocky9, BlocksInfo, HasGpu] + (if gpu then [GpusInfo] else [])
        + [VerifyIsEfi, HardwareSpecific, Change(ProductionStatus)];
      s.calls <= r.calls <= full && (r.error.None? ==> r.calls == full)
  {
    var gpu := Passes(Truthy, w(s.calls + [IsRocky9, BlocksInfo], HasGpu).result);
    var mid := s.calls + [IsRocky9, BlocksInfo, HasGpu] + (if gpu then [GpusInfo] else []);
    var full := mid + [VerifyIsEfi, HardwareSpecific, Change(ProductionStatus)];
    var s1 := Then(w, s, Do(IsRocky9));
    var s2 := Then(w, s1, Do(BlocksInfo));
    var s3 := Then(w, s2, When(HasGpu, Truthy, GpusInfo));
    var s4 := Then(w, s3, Do(VerifyIsEfi));
    var s5 := Then(w, s4, Do(HardwareSpecific));
    var r := Then(w, s5, Do(Change(ProductionStatus)));
    assert s1.calls <= full;
    assert s2.calls <= full && (s2.error.None? ==> s2.calls == s.calls + [IsRocky9, BlocksInfo]);
    if s2.error.None? {
      WhenRunsBody(w, s2, HasGpu, Truthy, GpusInfo);
      assert s3.calls <= mid && (s3.error.None? ==> s3.calls == mid);
    }
    assert s3.calls <= mid && (s3.error.None? ==> s3.calls == mid);
    assert s4.calls <= full && (s4.error.None? ==> s4.calls == mid + [VerifyIsEfi]);
    assert s5.calls <= full && (s5.error.None? ==> s5.calls == mid + [VerifyIsEfi, HardwareSpecific]);
  }

  /** An exception in flight after `post_reinstall`'s body came from the
      last call it made. */
  lemma PostReinstallFromLastCall(w: World, s: Trace)
    requires s.error.None?
    ensures FromLastCall(w, PostReinstallRun(w, s))
  {
    var s1 := Then(w, s, Do(IsRocky9));
    ThenFromLastCall(w, s, Do(IsRocky9));
    var s2 := Then(w, s1, Do(BlocksInfo));
    ThenFromLastCall(w, s1, Do(BlocksInfo));
    var s3 := Then(w, s2, When(HasGpu, Truthy, GpusInfo));
    ThenFromLastCall(w, s2, When(HasGpu, Truthy, GpusInfo));
    var s4 := Then(w, s3, Do(VerifyIsEfi));
    ThenFromLastCall(w, s3, Do(VerifyIsEfi));
    var s5 := Then(w, s4, Do(HardwareSpecific));
    ThenFromLastCall(w, s4, Do(HardwareSpecific));
    ThenFromLastCall(w, s5, Do(Change(ProductionStatus)));
  }

  /** The calls of `pre_reinstall`'s checks: `gpus_info` exactly when
      `has_gpu` returned true. */
  function PreReinstallCheckCalls(gpu: bool): seq<Op> {
    [EnsureHvHasNoServers, IsEmpty, BlocksInfo, HasGpu] + (if gpu then [GpusInfo] else [])
  }

  /** The calls of `pre_reinstall`'s rebuild: `run_mellanox_playbook`
      exactly when the second `mellanox_info` call returned something other
      than "". */
  function PreReinstallRebuildCalls(mellanox: bool): seq<Op> {
    [CreateSilence, Change(PlannedStatus), MellanoxInfo, Reimport, RemoveInterfaces, RemoveSataDisk,
     MakeHost, PxeswitchHost, MellanoxInfo]
    + (if mellanox then [RunMellanoxPlaybook] else []) + [ReportIpmiAddress]
  }

  /** The calls `pre_reinstall` makes when nothing raises, after the
      calls `before`. */
  function PreReinstallCalls(w: World, before: seq<Op>): seq<Op> {
    var gpu := Passes(Truthy, w(before + [EnsureHvHasNoServers, IsEmpty, BlocksInfo], HasGpu).result);
    var checks := PreReinstallCheckCalls(gpu);
    var mid := before + checks + PreReinstallRebuildCalls(false)[..8];
    checks + PreReinstallRebuildCalls(Passes(NotEmptyString, w(mid, MellanoxInfo).result))
  }

  /** `pre_reinstall` makes its calls in the order written: the calls made
      are a prefix of `PreReinstallCalls`, all of them when nothing was
      raised. */
  lemma PreReinstallOrder(w: World, s: Trace)
    requires s.error.None?
    ensures var r := PreReinstallRun(w, s);
      s.calls <= r.calls <= s.calls + PreReinstallCalls(w, s.calls)
      && (r.error.None? ==> r.calls == s.calls + PreReinstallCalls(w, s.calls))
  {
    var gpu := Passes(Truthy, w(s.calls + [EnsureHvHasNoServers, IsEmpty, BlocksInfo], HasGpu).result);
    var checks := PreReinstallCheckCalls(gpu);
    var s4 := PreReinstallChecks(w, s);
    PreReinstallChecksPrefix(w, s);
    var mellanox := Passes(NotEmptyString, w(s.calls + checks + PreReinstallRebuildCalls(false)[..8], MellanoxInfo).result);
    var rebuild := PreReinstallRebuildCalls(mellanox);
    if s4.error.None? {
      PreReinstallRebuildPrefix(w, s4);
      assert s4.calls == s.calls + checks;
    }
    PrefixCompose(s, s4, PreReinstallRebuild(w, s4), checks, rebuild);
    PrefixCalls(s, PreReinstallRun(w, s), checks + rebuild);
  }

  /** The checks keep `Prefix` to their end. */
  lemma PreReinstallChecksPrefix(w: World, s: Trace)
    requires s.error.None?
    ensures var checks := PreReinstallCheckCalls(Passes(Truthy, w(s.calls + [EnsureHvHasNoServers, IsEmpty, BlocksInfo], HasGpu).result));
      Prefix(s, PreReinstallChecks(w, s), checks, |checks|)
  {
    var checks := PreReinstallCheckCalls(Passes(Truthy, w(s.calls + [EnsureHvHasNoServers, IsEmpty, BlocksInfo], HasGpu).result));
    assert checks[..3] == [EnsureHvHasNoServers, IsEmpty, BlocksInfo];
    assert Prefix(s, s, checks, 0);
    var s1 := Then(w, s, Do(EnsureHvHasNoServers));
    DoPrefix(w, s, s, checks, 0);
    var s2 := Then(w, s1, Do(IsEmpty));
    DoPrefix(w, s, s1, checks, 1);
    var s3 := Then(w, s2, Do(BlocksInfo));
    DoPrefix(w, s, s2, checks, 2);
    WhenPrefix(w, s, s3, checks, 3, HasGpu, Truthy, GpusInfo);
  }

  /** The rebuild keeps `Prefix` to its end. */
  lemma PreReinstallRebuildPrefix(w: World, m: Trace)
    requires m.error.None?
    ensures var rebuild := PreReinstallRebuildCalls(false)[..8];
      var order := PreReinstallRebuildCalls(Passes(NotEmptyString, w(m.calls + rebuild, MellanoxInfo).result));
      Prefix(m, PreReinstallRebuild(w, m), order, |order|)
  {
    var rebuild := PreReinstallRebuildCalls(false)[..8];
    var order := PreReinstallRebuildCalls(Passes(NotEmptyString, w(m.calls + rebuild, MellanoxInfo).result));
    assert order[..8] == rebuild;
    var s12 := Then(w, Then(w, Then(w, Then(w, Then(w, Then(w, Then(w, Then(w, m,
                 Do(CreateSilence)), Do(Change(PlannedStatus))), Do(MellanoxInfo)), Do(Reimport)),
                 Do(RemoveInterfaces)), Do(RemoveSataDisk)), Do(MakeHost)), Do(PxeswitchHost));
    RebuildMovesPrefix(w, m, order);
    PlaybookPrefix(w, m, s12, order);
  }

  /** The rebuild's eight plain calls keep `Prefix`. */
  lemma RebuildMovesPrefix(w: World, m: Trace, order: seq<Op>)
    requires m.error.None? && |order| >= 8 && order[..8] == PreReinstallRebuildCalls(false)[..8]
    ensures Prefix(m, Then(w, Then(w, Then(w, Then(w, Then(w, Then(w, Then(w, Then(w, m,
              Do(CreateSilence)), Do(Change(PlannedStatus))), Do(MellanoxInfo)), Do(Reimport)),
              Do(RemoveInterfaces)), Do(RemoveSataDisk)), Do(MakeHost)), Do(PxeswitchHost)), order, 8)
  {
    assert order[0] == CreateSilence && order[1] == Change(PlannedStatus) && order[2] == MellanoxInfo
      && order[3] == Reimport && order[4] == RemoveInterfaces && order[5] == RemoveSataDisk
      && order[6] == MakeHost && order[7] == PxeswitchHost;
    assert Prefix(m, m, order, 0);
    var s4 := Then(w, Then(w, Then(w, Then(w, m, Do(CreateSilence)), Do(Change(PlannedStatus))),
                            Do(MellanoxInfo)), Do(Reimport));
    FourDoPrefix(w, m, m, order, 0);
    FourDoPrefix(w, m, s4, order, 4);
  }

  /** The second `mellanox_info`, the playbook when it returned something
      other than "", and `report_ipmi_address` keep `Prefix` to the end. */
  lemma PlaybookPrefix(w: World, m: Trace, t: Trace, order: seq<Op>)
    requires Prefix(m, t, order, 8) && |order| >= 10 && order[8] == MellanoxInfo
    requires var mellanox := Passes(NotEmptyString, w(m.calls + order[..8], MellanoxInfo).result);
      |order| == (if mellanox then 11 else 10) && (mellanox ==> order[9] == RunMellanoxPlaybook)
      && order[|order| - 1] == ReportIpmiAddress
    ensures Prefix(m, Then(w, Then(w, t, When(MellanoxInfo, NotEmptyString, RunMellanoxPlaybook)),
                           Do(ReportIpmiAddress)), order, |order|)
  {
    var t1 := Then(w, t, When(MellanoxInfo, NotEmptyString, RunMellanoxPlaybook));
    WhenPrefix(w, m, t, order, 8, MellanoxInfo, NotEmptyString, RunMellanoxPlaybook);
    DoPrefix(w, m, t1, order, |order| - 1);
  }

  /** A step run in two parts, the second only when the first raised
      nothing, keeps `Prefix` over both parts' calls. */
  lemma PrefixCompose(s: Trace, m: Trace, r: Trace, first: seq<Op>, second: seq<Op>)
    requires Prefix(s, m, first, |first|)
    requires m.error.Some? ==> r == m
    requires m.error.None? ==> Prefix(m, r, second, |second|)
    ensures Prefix(s, r, first + second, |first + second|)
  {
    if m.error.None? {
      var n := |r.calls| - |m.calls|;
      assert first[..|first|] == first;
      assert (first + second)[..|first| + n] == first + second[..n];
    } else {
      var n := |m.calls| - |s.calls|;
      assert (first + second)[..n] == first[..n];
    }
  }

  /** Four plain calls keep `Prefix` with four more statements. */
  lemma FourDoPrefix(w: World, start: Trace, t: Trace, order: seq<Op>, i: nat)
    requires Prefix(start, t, order, i) && i + 4 <= |order|
    ensures Prefix(start, Then(w, Then(w, Then(w, Then(w, t, Do(order[i])), Do(order[i + 1])),
                                        Do(order[i + 2])), Do(order[i + 3])), order, i + 4)
  {
    var t1 := Then(w, t, Do(order[i]));
    DoPrefix(w, start, t, order, i);
    var t2 := Then(w, t1, Do(order[i + 1]));
    DoPrefix(w, start, t1, order, i + 1);
    var t3 := Then(w, t2, Do(order[i + 2]));
    DoPrefix(w, start, t2, order, i + 2);
    DoPrefix(w, start, t3, order, i + 3);
  }

  /** An exception in flight after `pre_reinstall`'s body came from the
      last call it made. */
  lemma PreReinstallFromLastCall(w: World, s: Trace)
    requires s.error.None?
    ensures FromLastCall(w, PreReinstallRun(w, s))
  {
    var s1 := Then(w, s, Do(EnsureHvHasNoServers));
    ThenFromLastCall(w, s, Do(EnsureHvHasNoServers));
    var s2 := Then(w, s1, Do(IsEmpty));
    ThenFromLastCall(w, s1, Do(IsEmpty));
    var s3 := Then(w, s2, Do(BlocksInfo));
    ThenFromLastCall(w, s2, Do(BlocksInfo));
    var s4 := Then(w, s3, When(HasGpu, Truthy, GpusInfo));
    ThenFromLastCall(w, s3, When(HasGpu, Truthy, GpusInfo));
    var s5 := Then(w, s4, Do(CreateSilence));
    ThenFromLastCall(w, s4, Do(CreateSilence));
    var s6 := Then(w, s5, Do(Change(PlannedStatus)));
    ThenFromLastCall(w, s5, Do(Change(PlannedStatus)));
    var s7 := Then(w, s6, Do(MellanoxInfo));
    ThenFromLastCall(w, s6, Do(MellanoxInfo));
    var s8 := Then(w, s7, Do(Reimport));
    ThenFromLastCall(w, s7, Do(Reimport));
    var s9 := Then(w, s8, Do(RemoveInterfaces));
    ThenFromLastCall(w, s8, Do(RemoveInterfaces));
    var s10 := Then(w, s9, Do(RemoveSataDisk));
    ThenFromLastCall(w, s9, Do(RemoveSataDisk));
    var s11 := Then(w, s10, Do(MakeHost));
    ThenFromLastCall(w, s10, Do(MakeHost));
    var s12 := Then(w, s11, Do(PxeswitchHost));
    ThenFromLastCall(w, s11, Do(PxeswitchHost));
    var s13 := Then(w, s12, When(MellanoxInfo, NotEmptyString, RunMellanoxPlaybook));
    ThenFromLastCall(w, s12, When(MellanoxInfo, NotEmptyString, RunMellanoxPlaybook));
    ThenFromLastCall(w, s13, Do(ReportIpmiAddress));
  }

  /** The step names a host answers to. */
  const StepNames: set<string> := {"setup", "pre_drain", "pre_reinstall", "post_reinstall", "noops"}

  /** The adapter calls of the named step. */
  function StepRun(w: World, name: string, s: Trace): Trace {
    if name == "setup" then Call(w, s, EnsureRootAccess)
    else if name == "pre_drain" then PreDrainRun(w, s)
    else if name == "pre_reinstall" then PreReinstallRun(w, s)
    else if name == "post_reinstall" then PostReinstallRun(w, s)
    else s
  }

  /** How the named step ends, given the exception its calls left in
      flight: `pre_drain`'s handler raises `AttributeError`, every other
      step lets through only what it does not catch. */
  function StepOutcome(name: string, error: Option<Exc>): Outcome<()> {
    if name == "pre_drain" && Caught(error) then Raise(NoMethod("move_to_pre_reinstall_failed"))
    else Escaping(error)
  }

  /** What building a host's helpers reads from the credentials, in the
      order `__init__` builds them: `HVJira` reads the Jira user name,
      `HVAlertManager` nothing, `HVNetbox` the NetBox token, `HVOpenstack`
      the OpenStack user name, `HVAquilon` nothing, `HVSSH` the key path. */
  function HelperCredentials(c: Credentials.Handler): Outcome<()> {
    if c.jira.None? then Raise(NoneAttribute("username"))
    else if c.netbox.None? then Raise(NoneAttribute("api_token"))
    else if c.openstack.None? then Raise(NoneAttribute("username"))
    else if c.ssh.None? then Raise(NoneAttribute("key_path"))
    else Ok(())
  }

  /** A host can be built exactly when the Jira, NetBox, OpenStack and SSH
      sections are all set; otherwise `AttributeError` names the field read
      from the first missing one. */
  lemma HelperCredentialsSpec(c: Credentials.Handler)
    ensures HelperCredentials(c).Ok? <==> c.jira.Some? && c.netbox.Some? && c.openstack.Some? && c.ssh.Some?
    ensures HelperCredentials(c).Raise? ==> HelperCredentials(c).exc.kind == "AttributeError"
    ensures c.jira.None? ==> HelperCredentials(c) == Raise(NoneAttribute("username"))
  {
  }

  /** For a credentials file that loads, a host can be built exactly when
      the document holds a mapping under each of `jira`, `netbox`,
      `openstack` and `ssh`: a missing section loads as `None` without
      complaint and fails only here. */
  lemma HelperCredentialsOfDocument(doc: Credentials.Yaml)
    requires Credentials.Load(doc).Ok?
    ensures var data := Credentials.Document(doc).value;
      (HelperCredentials(Credentials.Load(doc).value).Ok? <==>
         HoldsMapping(data, "jira") && HoldsMapping(data, "netbox")
         && HoldsMapping(data, "openstack") && HoldsMapping(data, "ssh"))
  {
    var data := Credentials.Document(doc).value;
    Credentials.LoadedSections(doc);
    SectionLoaded(data, "jira", Credentials.JiraFields);
    SectionLoaded(data, "netbox", Credentials.NetboxFields);
    SectionLoaded(data, "openstack", Credentials.OpenstackFields);
    SectionLoaded(data, "ssh", Credentials.SshFields);
  }

  /** The key holds a mapping. */
  predicate HoldsMapping(data: map<string, Credentials.Yaml>, key: string) {
    key in data && data[key].YMap?
  }

  /** A section that loaded is set exactly when its key holds a mapping. */
  lemma SectionLoaded(data: map<string, Credentials.Yaml>, key: string, fields: set<string>)
    requires Credentials.LoadSection(data, key, fields).Ok?
    ensures Credentials.LoadSection(data, key, fields).value.Some? <==> HoldsMapping(data, key)
  {
  }

  class HyperVisorManager {
    const hostname: string
    const jiraIssueKey: string
    /** The migration's window and credentials, the same for every host. */
    const interval: TimeInterval.Interval
    const credentials: Credentials.Handler
    const jira: HVJira
    const world: World
    /** The transitions Jira offers on the host's issue. */
    const transitions: seq<Transition>
    /** The adapter calls made on the host, oldest first. */
    var calls: seq<Op>
    /** What the manager printed, oldest first. */
    var printed: seq<string>

    /** `HyperVisorManager(migration_manager, hostname, jira_issue_key)`
        once its helpers could read their credentials (`NewHyperVisorManager`
        models the case where they cannot): the window and credentials are
        the migration's; the host gets a Jira helper of its own on its
        issue. */
    constructor (hostname: string, jiraIssueKey: string, interval: TimeInterval.Interval,
                 credentials: Credentials.Handler, world: World, transitions: seq<Transition>)
      requires HelperCredentials(credentials).Ok?
      ensures this.hostname == hostname && this.jiraIssueKey == jiraIssueKey
      ensures this.interval == interval && this.credentials == credentials
      ensures fresh(jira) && jira.Valid() && jira.issueKey == jiraIssueKey && jira.log == [] && jira.performed == []
      ensures this.world == world && this.transitions == transitions && calls == [] && printed == []
    {
      this.hostname := hostname;
      this.jiraIssueKey := jiraIssueKey;
      this.interval := interval;
      this.credentials := credentials;
      this.jira := new HVJira(jiraIssueKey);
      this.world := world;
      this.transitions := transitions;
      calls := [];
      printed := [];
    }

    /** The calls and the Jira calls so far. */
    ghost function Now(): Trace
      reads this, jira
    {
      Trace(calls, jira.log, None)
    }

    /** One adapter call: its Jira calls land in the host's buffer. */
    method Invoke(op: Op) returns (o: Outcome<Value>)
      requires jira.Valid()
      modifies this, jira
      ensures jira.Valid() && jira.performed == old(jira.performed) && printed == old(printed)
      ensures o == world(old(calls), op).result
      ensures Trace(calls, jira.log, ErrorOf(o)) == Call(world, old(Now()), op)
    {
      var reply := world(calls, op);
      calls := calls + [op];
      jira.Absorb(reply.effects);
      o := reply.result;
    }

    /** One statement of a step, with nothing in flight. */
    method Perform(i: Instr) returns (o: Outcome<()>)
      requires jira.Valid()
      modifies this, jira
      ensures jira.Valid() && jira.performed == old(jira.performed) && printed == old(printed)
      ensures Trace(calls, jira.log, ErrorOf(o)) == Then(world, old(Now()), i)
    {
      if i.Do? {
        var r := Invoke(i.op);
        if r.Raise? {
          return Raise(r.exc);
        }
      } else {
        var v := Invoke(i.test);
        if v.Raise? {
          return Raise(v.exc);
        }
        if Passes(i.guard, v) {
          var r := Invoke(i.body);
          if r.Raise? {
            return Raise(r.exc);
          }
        }
      }
      o := Ok(());
    }

    /** `setup()`: an `HVException` from `ensure_root_access` is printed,
        nothing more; any other exception escapes. */
    method Setup() returns (o: Outcome<()>)
      requires jira.Valid()
      modifies this, jira
      ensures jira.Valid() && jira.performed == old(jira.performed)
      ensures var s := Call(world, old(Now()), EnsureRootAccess);
        calls == s.calls && jira.log == s.log
        && (s.error.Some? && s.error.value.HVException? ==>
              o == Ok(()) && printed == old(printed) + [ErrorMsg(s.error.value, hostname)])
        && (!(s.error.Some? && s.error.value.HVException?) ==>
              o == (if s.error.Some? then Raise(s.error.value) else Ok(())) && printed == old(printed))
    {
      var r := Invoke(EnsureRootAccess);
      if r.Raise? && r.exc.HVException? {
        var msg := ErrorMsg(r.exc, hostname);
        printed := printed + [msg];
        return Ok(());
      }
      if r.Raise? {
        return Raise(r.exc);
      }
      o := Ok(());
    }

    /** The `try` body of `pre_drain`. */
    method PreDrainBody() returns (o: Outcome<()>)
      requires jira.Valid()
      modifies this, jira
      ensures jira.Valid() && jira.performed == old(jira.performed) && printed == old(printed)
      ensures Trace(calls, jira.log, ErrorOf(o)) == PreDrainRun(world, old(Now()))
    {
      var _ :- Perform(Do(IsRocky8));
      var _ :- Perform(Do(UpdateQemuKvm));
      var _ :- Perform(Do(HvInNetbox));
      var _ :- Perform(Do(CheckStatusPreDrain));
      var _ :- Perform(Do(DisableHv));
      var _ :- Perform(Do(ShowHv));
      var _ :- Perform(Do(VirshInfo));
      o := Ok(());
    }

    /** The `except HVException` clause shared by the reporting steps:
        the message is printed, added and sent. */
    method Report(e: Outcome<()>) returns (caught: bool)
      requires jira.Valid()
      modifies this, jira
      ensures jira.Valid() && jira.performed == old(jira.performed) && calls == old(calls)
      ensures caught == Caught(ErrorOf(e))
      ensures jira.log == old(jira.log) + HandlerLog(ErrorOf(e), hostname)
      ensures printed == old(printed) + HandlerPrint(ErrorOf(e), hostname)
    {
      caught := e.Raise? && e.exc.HVException?;
      if caught {
        var msg := ErrorMsg(e.exc, hostname);
        printed := printed + [msg];
        jira.Add(msg);
        jira.SendBuffer();
      }
    }

    /** `pre_drain()`: on `HVException` the error is reported and the
        handler asks for `move_to_pre_reinstall_failed`, which `HVJira`
        lacks, so an `AttributeError` escapes; any other exception escapes
        as it is. */
    method PreDrain() returns (o: Outcome<()>)
      requires jira.Valid()
      modifies this, jira
      ensures jira.Valid() && jira.performed == old(jira.performed)
      ensures var s := PreDrainRun(world, old(Now()));
        calls == s.calls && jira.log == s.log + HandlerLog(s.error, hostname)
        && printed == old(printed) + HandlerPrint(s.error, hostname)
        && o == (if Caught(s.error)
                 then Raise(NoMethod("move_to_pre_reinstall_failed"))
                 else Escaping(s.error))
    {
      var e := PreDrainBody();
      var caught := Report(e);
      if caught {
        PreReinstallFailedMissing();
        var moved := jira.MoveTo("move_to_pre_reinstall_failed", transitions);
        o := moved;
      } else {
        o := if e.Raise? then Raise(e.exc) else Ok(());
      }
    }

    /** The `try` body of `pre_reinstall`. */
    method PreReinstallBody() returns (o: Outcome<()>)
      requires jira.Valid()
      modifies this, jira
      ensures jira.Valid() && jira.performed == old(jira.performed) && printed == old(printed)
      ensures Trace(calls, jira.log, ErrorOf(o)) == PreReinstallRun(world, old(Now()))
    {
      var _ :- Perform(Do(EnsureHvHasNoServers));
      var _ :- Perform(Do(IsEmpty));
      var _ :- Perform(Do(BlocksInfo));
      var _ :- Perform(When(HasGpu, Truthy, GpusInfo));
      var _ :- Perform(Do(CreateSilence));
      var _ :- Perform(Do(Change(PlannedStatus)));
      var _ :- Perform(Do(MellanoxInfo));
      var _ :- Perform(Do(Reimport));
      var _ :- Perform(Do(RemoveInterfaces));
      var _ :- Perform(Do(RemoveSataDisk));
      var _ :- Perform(Do(MakeHost));
      var _ :- Perform(Do(PxeswitchHost));
      var _ :- Perform(When(MellanoxInfo, NotEmptyString, RunMellanoxPlaybook));
      var _ :- Perform(Do(ReportIpmiAddress));
      o := Ok(());
    }

    /** `pre_reinstall()`: on `HVException` the error is reported and the
        issue moved to "Pre Bios Failed" when Jira offers that transition;
        any other exception escapes. */
    method PreReinstall() returns (o: Outcome<()>)
      requires jira.Valid()
      modifies this, jira
      ensures jira.Valid()
      ensures var s := PreReinstallRun(world, old(Now()));
        calls == s.calls && jira.log == s.log + HandlerLog(s.error, hostname)
        && printed == old(printed) + HandlerPrint(s.error, hostname)
        && jira.performed == old(jira.performed)
             + (if Caught(s.error) then Performs(FirstMatch(transitions, "Pre Bios Failed")) else [])
        && o == Escaping(s.error)
    {
      var e := PreReinstallBody();
      var caught := Report(e);
      if caught {
        PreBiosFailedPresent();
        var moved := jira.MoveTo("move_to_pre_bios_failed", transitions);
        o := moved;
      } else {
        o := if e.Raise? then Raise(e.exc) else Ok(());
      }
    }

    /** The `try` body of `post_reinstall`. */
    method PostReinstallBody() returns (o: Outcome<()>)
      requires jira.Valid()
      modifies this, jira
      ensures jira.Valid() && jira.performed == old(jira.performed) && printed == old(printed)
      ensures Trace(calls, jira.log, ErrorOf(o)) == PostReinstallRun(world, old(Now()))
    {
      var _ :- Perform(Do(IsRocky9));
      var _ :- Perform(Do(BlocksInfo));
      var _ :- Perform(When(HasGpu, Truthy, GpusInfo));
      var _ :- Perform(Do(VerifyIsEfi));
      var _ :- Perform(Do(HardwareSpecific));
      var _ :- Perform(Do(Change(ProductionStatus)));
      o := Ok(());
    }

    /** `post_reinstall()`: on `HVException` the error is reported and no
        transition is made; any other exception escapes. */
    method PostReinstall() returns (o: Outcome<()>)
      requires jira.Valid()
      modifies this, jira
      ensures jira.Valid() && jira.performed == old(jira.performed)
      ensures var s := PostReinstallRun(world, old(Now()));
        calls == s.calls && jira.log == s.log + HandlerLog(s.error, hostname)
        && printed == old(printed) + HandlerPrint(s.error, hostname)
        && o == Escaping(s.error)
    {
      var e := PostReinstallBody();
      var caught := Report(e);
      if caught {
        o := Ok(());
      } else {
        o := if e.Raise? then Raise(e.exc) else Ok(());
      }
    }

    /** `getattr(hv, name)()` for a step name. */
    method RunStep(name: string) returns (o: Outcome<()>)
      requires name in StepNames && jira.Valid()
      modifies this, jira
      ensures jira.Valid()
      ensures var s := StepRun(world, name, old(Now()));
        calls == s.calls && jira.log == s.log + (if name == "setup" then [] else HandlerLog(s.error, hostname))
        && o == StepOutcome(name, s.error)
    {
      if name == "setup" {
        o := Setup();
      } else if name == "pre_drain" {
        o := PreDrain();
      } else if name == "pre_reinstall" {
        o := PreReinstall();
      } else if name == "post_reinstall" {
        o := PostReinstall();
      } else {
        Noops();
        o := Ok(());
      }
    }

    /** `noops()`: prints the host name and calls no adapter. */
    method Noops()
      modifies this
      ensures calls == old(calls) && printed == old(printed) + [hostname]
    {
      printed := printed + [hostname];
    }
  }

  /** `HyperVisorManager(migration_manager, hostname, jira_issue_key)`:
      building the helpers raises `AttributeError` when a section they read
      is `None`, and nothing is built; otherwise the new host. */
  method NewHyperVisorManager(hostname: string, jiraIssueKey: string, interval: TimeInterval.Interval,
                              credentials: Credentials.Handler, world: World, transitions: seq<Transition>)
    returns (o: Outcome<HyperVisorManager>)
    ensures o.Raise? <==> HelperCredentials(credentials).Raise?
    ensures o.Raise? ==> o.exc == HelperCredentials(credentials).exc
    ensures o.Ok? ==> fresh(o.value) && fresh(o.value.jira) && o.value.jira.Valid()
    ensures o.Ok? ==> o.value.hostname == hostname && o.value.jiraIssueKey == jiraIssueKey
    ensures o.Ok? ==> o.value.interval == interval && o.value.credentials == credentials
    ensures o.Ok? ==> o.value.jira.issueKey == jiraIssueKey && o.value.jira.log == [] && o.value.jira.performed == []
    ensures o.Ok? ==> o.value.world == world && o.value.transitions == transitions
    ensures o.Ok? ==> o.value.calls == [] && o.value.printed == []
  {
    var _ :- HelperCredentials(credentials);
    var hv := new HyperVisorManager(hostname, jiraIssueKey, interval, credentials, world, transitions);
    o := Ok(hv);
  }
}

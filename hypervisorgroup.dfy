/**
 * `HyperVisorGroup` (lib/hypervisorgroup.py): the ordered list of hosts of
 * a migration and the routing of a step name to every host.
 *
 * Threads are not modelled as interleavings: in the parallel path each
 * host's step is modelled as running to completion by the time its thread
 * is joined, which is one schedule the threads can take. A ghost history
 * records every step started on a host and how it ended.
 */
module HyperVisorGroup {
  import opened HvException
  import opened HyperVisorManager

  /** One step started on a host, and how it ended. */
  datatype Dispatch = Dispatch(host: HyperVisorManager, step: string, result: Outcome<()>)

  class HyperVisorGroup {
    /** The list's items, in insertion order. */
    var hosts: seq<HyperVisorManager>
    /** The steps started on hosts, oldest first. */
    ghost var history: seq<Dispatch>

    /** The hosts of the group. */
    function Hosts(): set<HyperVisorManager>
      reads this
    {
      set k | 0 <= k < |hosts| :: hosts[k]
    }

    /** The hosts' Jira helpers. */
    function Jiras(): set<object>
      reads this
    {
      set k | 0 <= k < |hosts| :: hosts[k].jira
    }

    /** Every host's Jira helper is consistent. */
    ghost predicate Valid()
      reads this, Jiras()
    {
      forall k :: 0 <= k < |hosts| ==> hosts[k].jira.Valid()
    }

    /** The entries of `history` from `from` on started `step` on the
        hosts, one each, in list order. */
    ghost predicate StartedInOrder(from: nat, step: string)
      reads this
    {
      from <= |history| && |history| - from <= |hosts|
      && forall k :: from <= k < |history| ==> history[k].host == hosts[k - from] && history[k].step == step
    }

    /** The steps recorded from `upto` on, except possibly the last,
        returned normally. */
    ghost predicate EndedNormally(from: nat, upto: int)
      reads this
    {
      forall k :: from <= k < upto && 0 <= k < |history| ==> history[k].result.Ok?
    }

    constructor ()
      ensures hosts == [] && history == [] && Valid()
    {
      hosts := [];
      history := [];
    }

    /** `append(hv)`: the new host goes last; the others keep their
        places. */
    method Append(hv: HyperVisorManager)
      requires Valid() && hv.jira.Valid()
      modifies this
      ensures Valid() && history == old(history)
      ensures hosts == old(hosts) + [hv]
    {
      hosts := hosts + [hv];
    }

    /** `run(step)`: each of the five step names goes to `_run_parallel`
        under the same name; any other string does nothing. */
    method Run(step: string)
      requires Valid()
      modifies this, Hosts(), Jiras()
      ensures Valid() && hosts == old(hosts)
      ensures step in StepNames ==> StartedInOrder(|old(history)|, step) && |history| == |old(history)| + |hosts|
      ensures step !in StepNames ==> history == old(history)
      ensures step !in StepNames ==> forall k :: 0 <= k < |hosts| ==> unchanged(hosts[k], hosts[k].jira)
    {
      if step == "setup" {
        RunParallel(step);
      } else if step == "pre_drain" {
        RunParallel(step);
      } else if step == "pre_reinstall" {
        RunParallel(step);
      } else if step == "post_reinstall" {
        RunParallel(step);
      } else if step == "noops" {
        RunParallel(step);
      }
    }

    /** `getattr(hv, step)()` on the `i`-th host, recorded: the hosts
        before it were started from `from` on. */
    method StartOn(ghost from: nat, i: nat, step: string) returns (o: Outcome<()>)
      requires Valid() && i < |hosts| && step in StepNames
      requires StartedInOrder(from, step) && |history| == from + i
      modifies this, hosts[i], hosts[i].jira
      ensures Valid() && hosts == old(hosts)
      ensures history == old(history) + [Dispatch(hosts[i], step, o)]
      ensures StartedInOrder(from, step)
      ensures old(EndedNormally(from, |history|)) ==> EndedNormally(from, |history| - 1)
      ensures old(EndedNormally(from, |history|)) && o.Ok? ==> EndedNormally(from, |history|)
      ensures var s := StepRun(hosts[i].world, step, old(hosts[i].Now()));
        hosts[i].calls == s.calls && o == StepOutcome(step, s.error)
    {
      var hv := hosts[i];
      o := hv.RunStep(step);
      history := history + [Dispatch(hv, step, o)];
    }

    /** `_run_series(step)`: the hosts in list order, one at a time; an
        exception escaping a host's step leaves the loop and `run`, so the
        hosts after it are not started. */
    method RunSeries(step: string) returns (o: Outcome<()>)
      requires Valid() && step in StepNames
      modifies this, Hosts(), Jiras()
      ensures Valid() && hosts == old(hosts)
      ensures StartedInOrder(|old(history)|, step)
      ensures EndedNormally(|old(history)|, |history| - 1)
      ensures o.Ok? <==> |history| == |old(history)| + |hosts| && EndedNormally(|old(history)|, |history|)
      ensures o.Raise? ==> |history| > |old(history)| && history[|history| - 1].result == o
    {
      var i := 0;
      while i < |hosts|
        invariant 0 <= i <= |hosts| && hosts == old(hosts) && Valid()
        invariant |history| == |old(history)| + i && StartedInOrder(|old(history)|, step)
        invariant EndedNormally(|old(history)|, |history|)
      {
        var r := StartOn(|old(history)|, i, step);
        if r.Raise? {
          return r;
        }
        i := i + 1;
      }
      o := Ok(());
    }

    /** `_run_parallel(step)`: one thread per host, started in list order,
        then every thread joined before returning. An exception in a
        thread ends that thread only. */
    method RunParallel(step: string)
      requires Valid() && step in StepNames
      modifies this, Hosts(), Jiras()
      ensures Valid() && hosts == old(hosts)
      ensures StartedInOrder(|old(history)|, step) && |history| == |old(history)| + |hosts|
    {
      var threads: seq<HyperVisorManager> := [];
      var i := 0;
      while i < |hosts|
        invariant 0 <= i <= |hosts| && threads == hosts[..i]
      {
        threads := threads + [hosts[i]];
        i := i + 1;
      }
      var joined := 0;
      ghost var from := |history|;
      while joined < |threads|
        invariant 0 <= joined <= |threads| && threads == hosts && hosts == old(hosts) && Valid()
        invariant |history| == from + joined && StartedInOrder(from, step)
      {
        var _ := StartOn(from, joined, step);
        joined := joined + 1;
      }
    }
  }
}

/**
 * The per-host Jira helper `HVJira` (lib/hvjira.py): a comment buffer that
 * `add` and `add_block` grow and `send_buffer` posts and resets, and the
 * workflow transitions chosen from the list the Jira server offers. The Jira
 * connection is not modelled: the comments posted and the transitions
 * performed are recorded in the object, and the server's list of allowed
 * transitions is a parameter.
 */
module HvJira {
  import opened PyStr
  import opened HvException

  /** What a fresh or just-sent buffer holds. */
  const Header: string := "Message from automation library:\n"

  /** The Jira server the helper connects to. */
  const Endpoint: string := "https://stfc.atlassian.net/"

  // ---------------------------------------------------------------------
  // The buffer as a value
  // ---------------------------------------------------------------------

  /** What the helper has said so far: the unsent buffer and the comments
      already posted on the host's issue, oldest first. */
  datatype Sink = Sink(buffer: string, posted: seq<string>)

  /** A call on the helper that touches the buffer. */
  datatype JiraAction = Add(text: string) | AddBlock(text: string) | Send

  /** The helper right after construction. */
  function FreshSink(): Sink { Sink(Header, []) }

  /** One call on the helper. */
  function Step(s: Sink, a: JiraAction): Sink {
    match a
    case Add(t) => Sink(s.buffer + "\n" + t, s.posted)
    case AddBlock(t) => Sink(s.buffer + "\n" + "{code}" + t + "{code}", s.posted)
    case Send => Sink(Header, s.posted + [s.buffer])
  }

  /** The calls, oldest first. */
  function Apply(s: Sink, actions: seq<JiraAction>): Sink
    decreases |actions|
  {
    if actions == [] then s else Apply(Step(s, actions[0]), actions[1..])
  }

  /** The number of `send_buffer` calls among the actions. */
  function Sends(actions: seq<JiraAction>): nat {
    if actions == [] then 0 else (if actions[0].Send? then 1 else 0) + Sends(actions[1..])
  }

  /** Every comment and the pending buffer open with the header. */
  predicate Headed(s: Sink) {
    StartsWith(s.buffer, Header) && forall i :: 0 <= i < |s.posted| ==> StartsWith(s.posted[i], Header)
  }

  lemma StartsWithAppend(s: string, p: string, t: string)
    requires StartsWith(s, p)
    ensures StartsWith(s + t, p)
  {
    assert (s + t)[..|p|] == s[..|p|];
  }

  /** Each call keeps every comment and the buffer headed, and only
      `send_buffer` posts, exactly one comment: the old buffer. */
  lemma StepKeepsHeaded(s: Sink, a: JiraAction)
    requires Headed(s)
    ensures Headed(Step(s, a))
    ensures Step(s, a).posted == s.posted + (if a.Send? then [s.buffer] else [])
  {
    match a
    case Add(t) =>
      StartsWithAppend(s.buffer, Header, "\n" + t);
      assert s.buffer + "\n" + t == s.buffer + ("\n" + t);
    case AddBlock(t) =>
      StartsWithAppend(s.buffer, Header, "\n" + "{code}" + t + "{code}");
      assert s.buffer + "\n" + "{code}" + t + "{code}" == s.buffer + ("\n" + "{code}" + t + "{code}");
    case Send =>
  }

  /** Any sequence of calls keeps the sink headed; the comments already
      posted stay as they are and one more is posted per `send_buffer`. */
  lemma {:induction false} ApplyKeepsHeaded(s: Sink, actions: seq<JiraAction>)
    requires Headed(s)
    ensures Headed(Apply(s, actions))
    ensures |Apply(s, actions).posted| == |s.posted| + Sends(actions)
    ensures Apply(s, actions).posted[..|s.posted|] == s.posted
    decreases |actions|
  {
    if actions != [] {
      StepKeepsHeaded(s, actions[0]);
      var s1 := Step(s, actions[0]);
      ApplyKeepsHeaded(s1, actions[1..]);
      assert Apply(s, actions).posted[..|s1.posted|] == s1.posted;
      assert s1.posted[..|s.posted|] == s.posted;
    }
  }

  /** Applying two runs of calls one after the other is applying their
      concatenation. */
  lemma {:induction false} ApplyAppend(s: Sink, a: seq<JiraAction>, b: seq<JiraAction>)
    ensures Apply(s, a + b) == Apply(Apply(s, a), b)
    decreases |a|
  {
    if a != [] {
      assert a + b != [];
      assert Apply(s, a) == Apply(Step(s, a[0]), a[1..]);
      assert (a + b)[0] == a[0];
      assert (a + b)[1..] == a[1..] + b;
      ApplyAppend(Step(s, a[0]), a[1..], b);
    } else {
      assert a + b == b;
    }
  }

  /** One more call after a run of calls. */
  lemma ApplySnoc(s: Sink, a: seq<JiraAction>, x: JiraAction)
    ensures Apply(s, a + [x]) == Step(Apply(s, a), x)
  {
    ApplyAppend(s, a, [x]);
    assert Apply(Apply(s, a), [x]) == Apply(Step(Apply(s, a), x), []);
  }

  // ---------------------------------------------------------------------
  // Transitions
  // ---------------------------------------------------------------------

  /** One entry of `conn.transitions(issue_key)`: its id and the name of
      the state it leads to. */
  datatype Transition = Transition(id: string, toName: string)

  /** The first allowed transition into `newState`, if any. */
  function FirstMatch(allowed: seq<Transition>, newState: string): Option<Transition>
  {
    if allowed == [] then None
    else if allowed[0].toName == newState then Some(allowed[0])
    else FirstMatch(allowed[1..], newState)
  }

  /** `FirstMatch` finds a transition exactly when one leads to the state,
      and then it is the earliest such one in the list. */
  lemma {:induction false} FirstMatchIsFirst(allowed: seq<Transition>, newState: string)
    ensures FirstMatch(allowed, newState).None? ==>
      forall i :: 0 <= i < |allowed| ==> allowed[i].toName != newState
    ensures FirstMatch(allowed, newState).Some? ==>
      exists i :: 0 <= i < |allowed| && allowed[i] == FirstMatch(allowed, newState).value
        && allowed[i].toName == newState
        && forall j :: 0 <= j < i ==> allowed[j].toName != newState
  {
    if allowed != [] && allowed[0].toName != newState {
      FirstMatchIsFirst(allowed[1..], newState);
      var r := FirstMatch(allowed[1..], newState);
      if r.Some? {
        var i :| 0 <= i < |allowed[1..]| && allowed[1..][i] == r.value
          && allowed[1..][i].toName == newState
          && forall j :: 0 <= j < i ==> allowed[1..][j].toName != newState;
        assert allowed[i + 1] == r.value;
        assert forall j :: 0 < j < i + 1 ==> allowed[j] == allowed[1..][j - 1];
      } else {
        assert forall i :: 0 < i < |allowed| ==> allowed[i] == allowed[1..][i - 1];
      }
    }
  }

  /** The ids `_change_state` hands to `transition_issue`. */
  function Performs(m: Option<Transition>): seq<string> {
    if m.Some? then [m.value.id] else []
  }

  /** The `move_to_*` methods `HVJira` defines and the state each moves to. */
  const MoveTable: seq<(string, string)> := [
    ("move_to_working_on_pre_bios", "Working On Pre Bios"),
    ("move_to_pre_bios_failed", "Pre Bios Failed"),
    ("move_to_draining", "Draining"),
    ("move_to_drained", "Drained"),
    ("move_to_ready_for_reinstall", "Ready For Reinstall"),
    ("move_to_working_on_reinstall", "Working On Reinstall"),
    ("move_to_working_on_post_reinstall", "Working On Post Reinstall"),
    ("move_to_ready_for_adoption", "Ready For Adoption"),
    ("move_to_working_on_adoption", "Working On Adoption"),
    ("move_to_ready_for_test", "Ready For Test")
  ]

  function Lookup(table: seq<(string, string)>, name: string): Option<string> {
    if table == [] then None
    else if table[0].0 == name then Some(table[0].1)
    else Lookup(table[1..], name)
  }

  /** The state `getattr(jira, name)()` moves to, or `None` when `HVJira`
      has no such method. */
  function MoveTarget(name: string): Option<string> {
    Lookup(MoveTable, name)
  }

  /** A lookup finds an entry exactly when the name is in the table, and
      what it finds is an entry of the table. */
  lemma {:induction false} LookupFinds(table: seq<(string, string)>, name: string)
    ensures Lookup(table, name).None? <==> forall k :: 0 <= k < |table| ==> table[k].0 != name
    ensures Lookup(table, name).Some? ==>
      exists k :: 0 <= k < |table| && table[k] == (name, Lookup(table, name).value)
  {
    if table != [] && table[0].0 != name {
      LookupFinds(table[1..], name);
      assert forall k :: 0 < k < |table| ==> table[k] == table[1..][k - 1];
      if Lookup(table, name).Some? {
        var k :| 0 <= k < |table[1..]| && table[1..][k] == (name, Lookup(table, name).value);
        assert table[k + 1] == table[1..][k];
      }
    }
  }

  /** The failure handler of `pre_drain` asks for
      `move_to_pre_reinstall_failed`, which is not a method of `HVJira`. */
  lemma PreReinstallFailedMissing()
    ensures MoveTarget("move_to_pre_reinstall_failed") == None
  {
  }

  /** `move_to_pre_bios_failed`, asked for by `pre_reinstall`, is. */
  lemma PreBiosFailedPresent()
    ensures MoveTarget("move_to_pre_bios_failed") == Some("Pre Bios Failed")
  {
  }

  /** The `AttributeError` of `getattr(jira, name)` for a missing method. */
  function NoMethod(name: string): Exc {
    PyError("AttributeError", "'HVJira' object has no attribute '" + name + "'")
  }

  // ---------------------------------------------------------------------
  // The helper object
  // ---------------------------------------------------------------------

  class HVJira {
    /** The key of the host's issue. */
    const issueKey: string
    /** The text not yet posted. */
    var buffer: string
    /** The comments posted on the issue, oldest first. */
    var posted: seq<string>
    /** The ids of the transitions performed on the issue, oldest first. */
    var performed: seq<string>
    /** Every call made on the buffer so far, oldest first. */
    ghost var log: seq<JiraAction>

    /** The buffer and the posted comments as a value. */
    function State(): Sink reads this { Sink(buffer, posted) }

    /** The buffer and the comments are what the calls so far made of a
        fresh helper. */
    ghost predicate Valid() reads this { State() == Apply(FreshSink(), log) }

    /** A valid helper's comments and buffer all open with the header. */
    lemma ValidHeaded()
      requires Valid()
      ensures Headed(State())
    {
      ApplyKeepsHeaded(FreshSink(), log);
    }

    constructor (issueKey: string)
      ensures this.issueKey == issueKey && State() == FreshSink() && performed == [] && log == []
      ensures Valid()
    {
      this.issueKey := issueKey;
      buffer := Header;
      posted := [];
      performed := [];
      log := [];
    }

    /** `add(text)`. */
    method Add(text: string)
      requires Valid()
      modifies this
      ensures Valid() && log == old(log) + [JiraAction.Add(text)]
      ensures buffer == old(buffer) + "\n" + text
      ensures posted == old(posted) && performed == old(performed)
    {
      buffer := buffer + "\n";
      buffer := buffer + text;
      ApplySnoc(FreshSink(), log, JiraAction.Add(text));
      log := log + [JiraAction.Add(text)];
    }

    /** `add_block(text)`. */
    method AddBlock(text: string)
      requires Valid()
      modifies this
      ensures Valid() && log == old(log) + [JiraAction.AddBlock(text)]
      ensures buffer == old(buffer) + "\n" + "{code}" + text + "{code}"
      ensures posted == old(posted) && performed == old(performed)
    {
      buffer := buffer + "\n";
      buffer := buffer + ("{code}" + text + "{code}");
      ApplySnoc(FreshSink(), log, JiraAction.AddBlock(text));
      log := log + [JiraAction.AddBlock(text)];
    }

    /** `send_buffer()`: the buffer becomes one comment on the issue and is
        reset to the header. */
    method SendBuffer()
      requires Valid()
      modifies this
      ensures Valid() && log == old(log) + [Send]
      ensures posted == old(posted) + [old(buffer)]
      ensures buffer == Header && performed == old(performed)
    {
      posted := posted + [buffer];
      buffer := Header;
      ApplySnoc(FreshSink(), log, Send);
      log := log + [Send];
    }

    /** The calls an adapter made on the helper, replayed on it. */
    method Absorb(actions: seq<JiraAction>)
      requires Valid()
      modifies this
      ensures Valid() && log == old(log) + actions
      ensures State() == Apply(old(State()), actions)
      ensures performed == old(performed)
    {
      var s := Apply(State(), actions);
      buffer := s.buffer;
      posted := s.posted;
      ApplyAppend(FreshSink(), log, actions);
      log := log + actions;
    }

    /** `_change_state(new_state)` given the server's allowed transitions:
        the first one into `newState` is performed, and nothing when none
        leads there. */
    method ChangeState(allowed: seq<Transition>, newState: string)
      modifies this
      ensures performed == old(performed) + Performs(FirstMatch(allowed, newState))
      ensures State() == old(State()) && log == old(log)
    {
      var i := 0;
      while i < |allowed|
        invariant 0 <= i <= |allowed|
        invariant FirstMatch(allowed, newState) == FirstMatch(allowed[i..], newState)
        invariant performed == old(performed) && State() == old(State()) && log == old(log)
      {
        if allowed[i].toName == newState {
          performed := performed + [allowed[i].id];
          break;
        }
        assert allowed[i..][1..] == allowed[i + 1..];
        i := i + 1;
      }
    }

    /** `getattr(self, name)()` for a `move_to_*` name: an `AttributeError`
        when the method does not exist, else the transition to its state. */
    method MoveTo(name: string, allowed: seq<Transition>) returns (o: Outcome<()>)
      modifies this
      ensures o == if MoveTarget(name).None? then Raise(NoMethod(name)) else Ok(())
      ensures performed == old(performed) +
        (if MoveTarget(name).Some? then Performs(FirstMatch(allowed, MoveTarget(name).value)) else [])
      ensures State() == old(State()) && log == old(log)
    {
      var target := MoveTarget(name);
      if target.None? {
        o := Raise(NoMethod(name));
      } else {
        ChangeState(allowed, target.value);
        o := Ok(());
      }
    }
  }
}

/**
 * `MigrationManager` (lib/migrationmanager.py): builds the migration's
 * window, its credentials and the group of hosts read from the roster,
 * in that order, and hands every step to the group.
 *
 * The roster file is given as its lines, the credentials file as its
 * parsed document, and the current instant as seconds since the epoch.
 * Each host's adapters are the oracle the environment assigns it.
 */
module MigrationManager {
  import opened PyStr
  import opened HostFile
  import opened HvException
  import opened HvJira
  import opened TimeInterval
  import opened Credentials
  import opened HyperVisorManager
  import opened HyperVisorGroup

  // ---------------------------------------------------------------------
  // The roster
  // ---------------------------------------------------------------------

  /** `(hostname, jira_issue_key) = tokens` with the wrong number of tokens. */
  function UnpackError(n: nat): Exc {
    if n < 2 then PyError("ValueError", "not enough values to unpack (expected 2, got " + NatToString(n) + ")")
    else PyError("ValueError", "too many values to unpack (expected 2)")
  }

  /** `_parse_hypervisors_file` on the lines of the roster: the host name
      and issue key of each kept line, or the error of the first line that
      does not hold exactly two tokens. */
  function Roster(lines: seq<string>): Outcome<seq<(string, string)>> {
    if lines == [] then Ok([])
    else
      var init :- Roster(lines[..|lines| - 1]);
      if !Kept(lines[|lines| - 1]) then Ok(init)
      else
        var tokens := Columns(lines[|lines| - 1]);
        if |tokens| != 2 then Raise(UnpackError(|tokens|))
        else Ok(init + [(tokens[0], tokens[1])])
  }

  /** Every kept line holds exactly two tokens. */
  predicate WellFormed(kept: seq<string>) {
    forall k :: 0 <= k < |kept| ==> |Split(kept[k])| == 2
  }

  /** The roster parses exactly when every kept line holds two tokens, and
      then holds one entry per kept line, in file order: the first token
      is the host name, the second the issue key. Nothing else is checked,
      so a host name may come twice. */
  lemma {:induction false} RosterSpec(lines: seq<string>)
    ensures var kept := KeptLines(lines);
      (Roster(lines).Ok? <==> WellFormed(kept))
      && (Roster(lines).Ok? ==>
            |Roster(lines).value| == |kept|
            && forall k :: 0 <= k < |kept| ==>
                 (|Split(kept[k])| == 2 && Roster(lines).value[k] == (Split(kept[k])[0], Split(kept[k])[1])))
  {
    RosterOk(lines);
    if Roster(lines).Ok? {
      RosterValues(lines);
    }
  }

  lemma {:induction false} RosterOk(lines: seq<string>)
    ensures Roster(lines).Ok? <==> WellFormed(KeptLines(lines))
  {
    if lines != [] {
      var init := lines[..|lines| - 1];
      var last := lines[|lines| - 1];
      RosterOk(init);
      var kept := KeptLines(init);
      var all := KeptLines(lines);
      if Kept(last) {
        assert all == kept + [Strip(last)];
        assert forall k :: 0 <= k < |kept| ==> all[k] == kept[k];
        assert WellFormed(all) <==> WellFormed(kept) && |Split(all[|kept|])| == 2;
        assert Roster(lines).Ok? <==> Roster(init).Ok? && |Columns(last)| == 2;
      } else {
        assert all == kept;
        assert Roster(lines).Ok? <==> Roster(init).Ok?;
      }
    }
  }

  lemma {:induction false} RosterValues(lines: seq<string>)
    requires Roster(lines).Ok?
    ensures var kept := KeptLines(lines);
      |Roster(lines).value| == |kept|
      && forall k :: 0 <= k < |kept| ==>
           (|Split(kept[k])| == 2 && Roster(lines).value[k] == (Split(kept[k])[0], Split(kept[k])[1]))
  {
    if lines != [] {
      var init := lines[..|lines| - 1];
      var last := lines[|lines| - 1];
      RosterValues(init);
      var kept := KeptLines(init);
      if Kept(last) {
        var all := KeptLines(lines);
        assert all == kept + [Strip(last)];
        assert forall k :: 0 <= k < |kept| ==> all[k] == kept[k];
      }
    }
  }

  /** Blank and comment lines add no host, wherever they are. */
  lemma {:induction false} SkippedLines(lines: seq<string>, extra: seq<string>)
    requires forall k :: 0 <= k < |extra| ==> !Kept(extra[k])
    ensures Roster(lines + extra) == Roster(lines)
    ensures KeptLines(lines + extra) == KeptLines(lines)
    decreases |extra|
  {
    if extra != [] {
      var init := extra[..|extra| - 1];
      assert (lines + extra)[..|lines + extra| - 1] == lines + init;
      SkippedLines(lines, init);
    } else {
      assert lines + extra == lines;
    }
  }

  /** A roster that fails, fails on its first ill-formed kept line. */
  lemma {:induction false} RosterFirstError(lines: seq<string>)
    requires Roster(lines).Raise?
    ensures exists k :: (0 <= k < |KeptLines(lines)| && WellFormed(KeptLines(lines)[..k])
                         && Roster(lines).exc == UnpackError(|Split(KeptLines(lines)[k])|))
  {
    var init := lines[..|lines| - 1];
    var kept := KeptLines(init);
    if Roster(init).Raise? {
      RosterFirstError(init);
      var k :| 0 <= k < |kept| && WellFormed(kept[..k]) && Roster(init).exc == UnpackError(|Split(kept[k])|);
      assert KeptLines(lines)[..k] == kept[..k];
    } else {
      RosterOk(init);
      assert KeptLines(lines) == kept + [Strip(lines[|lines| - 1])];
      assert KeptLines(lines)[..|kept|] == kept;
    }
  }

  // ---------------------------------------------------------------------
  // The roster with its hosts built
  // ---------------------------------------------------------------------

  /** `_parse_hypervisors_file` when building a host gives `build` (every
      host shares the credentials, so building succeeds for all or for
      none): the roster's entries, or the error of the first kept line
      that does not hold two tokens or whose host cannot be built. */
  function Parse(lines: seq<string>, build: Outcome<()>): Outcome<seq<(string, string)>> {
    if lines == [] then Ok([])
    else
      var init :- Parse(lines[..|lines| - 1], build);
      if !Kept(lines[|lines| - 1]) then Ok(init)
      else
        var tokens := Columns(lines[|lines| - 1]);
        if |tokens| != 2 then Raise(UnpackError(|tokens|))
        else
          var _ :- build;
          Ok(init + [(tokens[0], tokens[1])])
  }

  /** When hosts can be built, the file parses as the roster does. */
  lemma {:induction false} ParseUsable(lines: seq<string>, build: Outcome<()>)
    requires build.Ok?
    ensures Parse(lines, build) == Roster(lines)
  {
    if lines != [] {
      ParseUsable(lines[..|lines| - 1], build);
    }
  }

  /** When no host can be built, only a roster without hosts parses; a
      well-formed roster with a host fails with the building error, and an
      ill-formed one with that error or its own, whichever line comes
      first. */
  lemma {:induction false} ParseRefused(lines: seq<string>, build: Outcome<()>)
    requires build.Raise?
    ensures Parse(lines, build).Ok? <==> Roster(lines) == Ok([])
    ensures Parse(lines, build).Ok? ==> Parse(lines, build).value == []
    ensures Roster(lines).Ok? && Roster(lines).value != [] ==> Parse(lines, build) == Raise(build.exc)
    ensures Parse(lines, build).Raise? ==> Parse(lines, build).exc == build.exc || Parse(lines, build) == Roster(lines)
  {
    if lines != [] {
      ParseRefused(lines[..|lines| - 1], build);
    }
  }

  /** A blank or comment line leaves the parse as it was. */
  lemma ParseSkip(lines: seq<string>, i: nat, build: Outcome<()>)
    requires i < |lines| && !Kept(lines[i])
    ensures Parse(lines[..i + 1], build) == Parse(lines[..i], build)
  {
    assert lines[..i + 1][..i] == lines[..i];
  }

  /** A kept line of two tokens whose host is built adds its entry. */
  lemma ParseAdd(lines: seq<string>, i: nat, build: Outcome<()>)
    requires i < |lines| && Kept(lines[i]) && |Columns(lines[i])| == 2
    requires Parse(lines[..i], build).Ok? && build.Ok?
    ensures Parse(lines[..i + 1], build)
      == Ok(Parse(lines[..i], build).value + [(Columns(lines[i])[0], Columns(lines[i])[1])])
  {
    assert lines[..i + 1][..i] == lines[..i];
  }

  /** A kept line that is not two tokens, or whose host cannot be built,
      makes the whole file fail with its error. */
  lemma ParseFail(lines: seq<string>, i: nat, build: Outcome<()>)
    requires i < |lines| && Kept(lines[i]) && Parse(lines[..i], build).Ok?
    requires |Columns(lines[i])| != 2 || build.Raise?
    ensures |Columns(lines[i])| != 2 ==> Parse(lines, build) == Raise(UnpackError(|Columns(lines[i])|))
    ensures |Columns(lines[i])| == 2 ==> Parse(lines, build) == Raise(build.exc)
  {
    assert lines[..i + 1][..i] == lines[..i];
    ParseRaisedStays(lines, i + 1, build);
  }

  /** Once a prefix of the file fails, the whole file fails the same way. */
  lemma {:induction false} ParseRaisedStays(lines: seq<string>, n: nat, build: Outcome<()>)
    requires n <= |lines| && Parse(lines[..n], build).Raise?
    ensures Parse(lines, build) == Parse(lines[..n], build)
    decreases |lines| - n
  {
    if n < |lines| {
      assert lines[..n + 1][..n] == lines[..n];
      ParseRaisedStays(lines, n + 1, build);
    } else {
      assert lines[..n] == lines;
    }
  }

  /** A credentials file without a `jira` mapping loads, yet a roster
      naming a host fails: building it raises `AttributeError` when
      `HVJira` reads the Jira user name. */
  lemma MissingJiraRefusesHosts(lines: seq<string>, doc: Yaml)
    requires Load(doc).Ok? && "jira" !in Document(doc).value
    requires Roster(lines).Ok? && Roster(lines).value != []
    ensures Parse(lines, HelperCredentials(Load(doc).value)) == Raise(NoneAttribute("username"))
  {
    LoadedSections(doc);
    SectionPresence(Document(doc).value, "jira", JiraFields);
    ParseRefused(lines, HelperCredentials(Load(doc).value));
  }

  // ---------------------------------------------------------------------
  // The manager
  // ---------------------------------------------------------------------

  /** The adapters each host is given, by host name, and the transitions
      Jira offers, by issue key. */
  datatype Environment = Environment(worldOf: string -> World, transitionsOf: string -> seq<Transition>)

  /** The host names and issue keys of a group's hosts. */
  function Entries(hosts: seq<HyperVisorManager>): (r: seq<(string, string)>)
    ensures |r| == |hosts|
    ensures forall k :: 0 <= k < |hosts| ==> r[k] == (hosts[k].hostname, hosts[k].jiraIssueKey)
  {
    if hosts == [] then [] else Entries(hosts[..|hosts| - 1]) + [(hosts[|hosts| - 1].hostname, hosts[|hosts| - 1].jiraIssueKey)]
  }

  class MigrationManager {
    const timeInterval: Interval
    const credentialsHandler: Handler
    const env: Environment
    var hvgroup: HyperVisorGroup

    /** Every host was built with this manager's window and credentials. */
    predicate Shared(hosts: seq<HyperVisorManager>) {
      forall k :: 0 <= k < |hosts| ==>
        hosts[k].interval == timeInterval && hosts[k].credentials == credentialsHandler
    }

    /** The window and the credentials, with no host yet. */
    constructor (timeInterval: Interval, credentialsHandler: Handler, env: Environment)
      ensures this.timeInterval == timeInterval && this.credentialsHandler == credentialsHandler && this.env == env
      ensures fresh(hvgroup) && hvgroup.hosts == [] && hvgroup.Valid()
    {
      this.timeInterval := timeInterval;
      this.credentialsHandler := credentialsHandler;
      this.env := env;
      hvgroup := new HyperVisorGroup();
    }

    /** `_parse_hypervisors_file(hypervisors_file)`: a new group holding, in
        roster order, one new host per kept line, all sharing this
        manager's window and credentials; the first line that does not
        hold two tokens, or whose host cannot be built, ends parsing with
        its error. */
    method ParseHypervisorsFile(lines: seq<string>) returns (o: Outcome<HyperVisorGroup>)
      ensures var p := Parse(lines, HelperCredentials(credentialsHandler));
        (o.Ok? <==> p.Ok?) && (o.Raise? ==> o.exc == p.exc)
      ensures o.Ok? ==> (fresh(o.value) && o.value.Valid()
        && Entries(o.value.hosts) == Parse(lines, HelperCredentials(credentialsHandler)).value
        && Shared(o.value.hosts))
    {
      ghost var build := HelperCredentials(credentialsHandler);
      var hvgroup := new HyperVisorGroup();
      var i := 0;
      while i < |lines|
        invariant 0 <= i <= |lines| && fresh(hvgroup) && hvgroup.Valid()
        invariant Parse(lines[..i], build) == Ok(Entries(hvgroup.hosts))
        invariant Shared(hvgroup.hosts)
      {
        var strippedLine := Strip(lines[i]);
        if strippedLine == [] || StartsWith(strippedLine, "#") {
          ParseSkip(lines, i, build);
          i := i + 1;
          continue;
        }
        var tokens := Split(strippedLine);
        assert Kept(lines[i]) && tokens == Columns(lines[i]);
        if |tokens| != 2 {
          ParseFail(lines, i, build);
          return Raise(UnpackError(|tokens|));
        }
        var added := AddHost(hvgroup, tokens[0], tokens[1]);
        if added.Raise? {
          ParseFail(lines, i, build);
          return Raise(added.exc);
        }
        ParseAdd(lines, i, build);
        i := i + 1;
      }
      assert lines[..i] == lines;
      o := Ok(hvgroup);
    }

    /** `HyperVisorManager(self, hostname, jira_issue_key)` appended to the
        group; when building it raises, the group is left as it was. */
    method AddHost(group: HyperVisorGroup, hostname: string, jiraIssueKey: string) returns (o: Outcome<()>)
      requires group.Valid()
      modifies group
      ensures o == HelperCredentials(credentialsHandler)
      ensures group.Valid() && group.history == old(group.history)
      ensures o.Raise? ==> group.hosts == old(group.hosts)
      ensures o.Ok? ==> Entries(group.hosts) == Entries(old(group.hosts)) + [(hostname, jiraIssueKey)]
      ensures o.Ok? ==> |group.hosts| == |old(group.hosts)| + 1 && group.hosts[..|old(group.hosts)|] == old(group.hosts)
      ensures o.Ok? ==> var hv := group.hosts[|group.hosts| - 1];
        hv.interval == timeInterval && hv.credentials == credentialsHandler
      ensures Shared(old(group.hosts)) ==> Shared(group.hosts)
    {
      var hv :- NewHyperVisorManager(hostname, jiraIssueKey, timeInterval, credentialsHandler,
                                     env.worldOf(hostname), env.transitionsOf(jiraIssueKey));
      EntriesAppend(group.hosts, hv);
      group.Append(hv);
      assert group.hosts[..|old(group.hosts)|] == old(group.hosts);
      o := Ok(());
    }

    /** `run(step)`: handed to the group unchanged. */
    method Run(step: string)
      requires hvgroup.Valid()
      modifies hvgroup, hvgroup.Hosts(), hvgroup.Jiras()
      ensures hvgroup.Valid() && hvgroup.hosts == old(hvgroup.hosts)
      ensures step in StepNames ==>
        hvgroup.StartedInOrder(|old(hvgroup.history)|, step) && |hvgroup.history| == |old(hvgroup.history)| + |hvgroup.hosts|
      ensures step !in StepNames ==> hvgroup.history == old(hvgroup.history)
    {
      hvgroup.Run(step);
    }
  }

  lemma EntriesAppend(hosts: seq<HyperVisorManager>, hv: HyperVisorManager)
    ensures Entries(hosts + [hv]) == Entries(hosts) + [(hv.hostname, hv.jiraIssueKey)]
  {
    assert (hosts + [hv])[..|hosts|] == hosts;
  }

  /** Once a prefix of the roster fails, the whole roster fails the same way. */
  lemma {:induction false} RosterRaisedStays(lines: seq<string>, n: nat)
    requires n <= |lines| && Roster(lines[..n]).Raise?
    ensures Roster(lines) == Roster(lines[..n])
    decreases |lines| - n
  {
    if n < |lines| {
      assert lines[..n + 1][..n] == lines[..n];
      RosterRaisedStays(lines, n + 1);
    } else {
      assert lines[..n] == lines;
    }
  }

  /** `MigrationManager(creds_file, hypervisors_file)` at instant `now`:
      the window first, then the credentials, then the roster with its
      hosts built; the first failure propagates, so a bad credentials file
      is reported before any roster line is read. */
  method NewMigrationManager(now: nat, credsDoc: Yaml, lines: seq<string>, env: Environment)
    returns (o: Outcome<MigrationManager>)
    ensures o.Ok? <==> Load(credsDoc).Ok? && Parse(lines, HelperCredentials(Load(credsDoc).value)).Ok?
    ensures Load(credsDoc).Raise? ==> o == Raise(Load(credsDoc).exc)
    ensures Load(credsDoc).Ok? && Parse(lines, HelperCredentials(Load(credsDoc).value)).Raise? ==>
      o == Raise(Parse(lines, HelperCredentials(Load(credsDoc).value)).exc)
    ensures o.Ok? ==> (fresh(o.value) && o.value.timeInterval == Interval(now)
      && o.value.credentialsHandler == Load(credsDoc).value && o.value.hvgroup.Valid()
      && Entries(o.value.hvgroup.hosts) == Parse(lines, HelperCredentials(Load(credsDoc).value)).value)
  {
    var timeInterval := Interval(now);
    var credentialsHandler :- Load(credsDoc);
    var mm := new MigrationManager(timeInterval, credentialsHandler, env);
    var group :- mm.ParseHypervisorsFile(lines);
    mm.hvgroup := group;
    o := Ok(mm);
  }
}

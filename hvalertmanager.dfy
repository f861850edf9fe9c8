/**
 * `HVAlertManager` (lib/hvalertmanager.py): the two AlertManager silences
 * set up for the maintenance window of a host. The HTTP service is an
 * oracle answering each posted silence. The window's two time stamps, the
 * operator's initials and the AlertManager account are the object's
 * constants; the initials and the account are `None` when the credentials
 * file lacks their section, and the end stamp may be an `OverflowError`.
 * None of them is read before a silence is created.
 */
module HvAlertmanager {
  import opened PyStr
  import opened HvException
  import opened HvJira
  import TimeInterval

  const AlertmanagerUrl: string := "https://openstack.stfc.ac.uk:9093"

  /** One label matcher of a silence. */
  datatype Matcher = Matcher(name: string, value: string, isRegex: bool)

  /** The JSON body of a silence. */
  datatype Silence = Silence(matchers: seq<Matcher>, startsAt: string, endsAt: string, createdBy: string, comment: string)

  /** A response: its status code, its text and the `silenceID` of its JSON
      body, when it has one. */
  datatype Response = Response(status: int, text: string, silenceId: Option<string>)

  /** The silences endpoint: the response to posting a silence. */
  type Service = Silence -> Response

  /** `f"RL9 Reinstall {start_str} - {initials}"`. */
  function Comment(start: string, initials: string): string {
    "RL9 Reinstall " + start + " - " + initials
  }

  /** The silence for one label of the host. */
  function Payload(matchName: string, hostname: string, start: string, end: string, initials: string): Silence {
    Silence([Matcher(matchName, hostname, false)], start, end, "admin", Comment(start, initials))
  }

  /** The two silences match the host name exactly under the labels
      "hostname" and "instance" and differ in nothing else. */
  lemma PayloadsDiffer(hostname: string, start: string, end: string, initials: string)
    ensures var h := Payload("hostname", hostname, start, end, initials);
      var i := Payload("instance", hostname, start, end, initials);
      h != i && h.(matchers := i.matchers) == i
      && h.matchers[0].name == "hostname" && i.matchers[0].name == "instance"
      && h.matchers[0].value == hostname && !h.matchers[0].isRegex
  {
    assert "hostname"[0] != "instance"[0];
  }

  /** `f"{alertmanager_url}/#/silences/{id}"`. */
  function SilenceLink(id: string): string {
    AlertmanagerUrl + "/#/silences/" + id
  }

  function HostnameLine(id: string): string {
    "Silence for hostname: " + SilenceLink(id)
  }

  function InstanceLine(id: string): string {
    "Silence for instance: " + SilenceLink(id)
  }

  function Summary(start: string, end: string): string {
    "silence created in AlertManager successfully, from " + start + " to " + end
  }

  /** The comment added when both silences were created. */
  function SuccessMsg(start: string, end: string, hostnameId: string, instanceId: string): string {
    Summary(start, end) + "\n" + HostnameLine(hostnameId) + "\n" + InstanceLine(instanceId)
  }

  /** The comment links both silences. */
  lemma SuccessMsgLinks(start: string, end: string, hostnameId: string, instanceId: string)
    ensures Contains(SuccessMsg(start, end, hostnameId, instanceId), SilenceLink(hostnameId))
    ensures Contains(SuccessMsg(start, end, hostnameId, instanceId), SilenceLink(instanceId))
  {
    var head := Summary(start, end) + "\n";
    ContainsSuffix("Silence for hostname: ", SilenceLink(hostnameId));
    ContainsPrepend(head, HostnameLine(hostnameId), SilenceLink(hostnameId));
    ContainsExtend(head + HostnameLine(hostnameId), "\n", SilenceLink(hostnameId));
    ContainsExtend(head + HostnameLine(hostnameId) + "\n", InstanceLine(instanceId), SilenceLink(hostnameId));
    ContainsSuffix("Silence for instance: ", SilenceLink(instanceId));
    ContainsPrepend(head + HostnameLine(hostnameId) + "\n", InstanceLine(instanceId), SilenceLink(instanceId));
  }

  /** What `_create_silence_matcher` adds to Jira for a rejected post. */
  function RejectLog(r: Response): seq<JiraAction> {
    [Add("Failed to create silence. Response status code: " + IntToString(r.status)), AddBlock(r.text), Send]
  }

  /** `_create_silence_matcher`'s rule: a post succeeds exactly on status
      200; otherwise the response text is raised. */
  function PostVerdict(r: Response): (o: Outcome<Response>)
    ensures o.Ok? <==> r.status == 200
    ensures o.Ok? ==> o.value == r
    ensures o.Raise? ==> o.exc == HVException(r.text)
  {
    if r.status != 200 then Raise(HVException(r.text)) else Ok(r)
  }

  /** `response.json()['silenceID']`. */
  function SilenceIdOf(r: Response): (o: Outcome<string>)
    ensures o.Ok? <==> r.silenceId.Some?
  {
    if r.silenceId.None? then Raise(PyError("KeyError", "'silenceID'")) else Ok(r.silenceId.value)
  }

  /** Where `_create_silence` got to: the silences posted, what it logged
      and the exception that stopped it, if any. */
  datatype SilenceRun = SilenceRun(posted: seq<Silence>, log: seq<JiraAction>, error: Option<Exc>)

  /** `_create_silence` against the service, once the payloads are built. */
  function PostRun(service: Service, hostname: string, start: string, end: string, initials: string): SilenceRun {
    var h := Payload("hostname", hostname, start, end, initials);
    var rh := service(h);
    if rh.status != 200 then SilenceRun([h], RejectLog(rh), Some(HVException(rh.text)))
    else if rh.silenceId.None? then SilenceRun([h], [], Some(PyError("KeyError", "'silenceID'")))
    else
      var i := Payload("instance", hostname, start, end, initials);
      var ri := service(i);
      if ri.status != 200 then SilenceRun([h, i], RejectLog(ri), Some(HVException(ri.text)))
      else if ri.silenceId.None? then SilenceRun([h, i], [], Some(PyError("KeyError", "'silenceID'")))
      else SilenceRun([h, i], [Add(SuccessMsg(start, end, rh.silenceId.value, ri.silenceId.value)), Send], None)
  }

  /** The hostname silence is posted first; the instance silence only when
      the first was accepted with an id. Every silence posted covers the
      window and carries the comment. */
  lemma PostRunPosts(service: Service, hostname: string, start: string, end: string, initials: string)
    ensures var run := PostRun(service, hostname, start, end, initials);
      var h := Payload("hostname", hostname, start, end, initials);
      var i := Payload("instance", hostname, start, end, initials);
      (run.posted == [h] <==> PostVerdict(service(h)).Raise? || SilenceIdOf(service(h)).Raise?)
      && (run.posted == [h] || run.posted == [h, i])
      && (forall k :: 0 <= k < |run.posted| ==>
            run.posted[k].startsAt == start && run.posted[k].endsAt == end
            && run.posted[k].createdBy == "admin" && run.posted[k].comment == Comment(start, initials))
  {
    var h := Payload("hostname", hostname, start, end, initials);
    var i := Payload("instance", hostname, start, end, initials);
    assert [h] != [h, i];
  }

  /** Success means both silences were accepted with ids, and then one
      comment links both. */
  lemma PostRunSucceeds(service: Service, hostname: string, start: string, end: string, initials: string)
    ensures var run := PostRun(service, hostname, start, end, initials);
      var rh := service(Payload("hostname", hostname, start, end, initials));
      var ri := service(Payload("instance", hostname, start, end, initials));
      (run.error.None? <==> PostVerdict(rh).Ok? && SilenceIdOf(rh).Ok? && PostVerdict(ri).Ok? && SilenceIdOf(ri).Ok?)
      && (run.error.None? ==> (|run.log| == 2 && Contains(run.log[0].text, SilenceLink(rh.silenceId.value))
                              && Contains(run.log[0].text, SilenceLink(ri.silenceId.value))))
  {
    var run := PostRun(service, hostname, start, end, initials);
    if run.error.None? {
      var rh := service(Payload("hostname", hostname, start, end, initials));
      var ri := service(Payload("instance", hostname, start, end, initials));
      SuccessMsgLinks(start, end, rh.silenceId.value, ri.silenceId.value);
    }
  }

  /** The user name and password of the `alertmanager` credential section. */
  datatype Login = Login(username: string, password: string)

  /** `_create_silence` in full: building the hostname payload reads
      `end_str` and then the initials; posting it reads the AlertManager
      user name. The first of these that fails raises before anything is
      posted or logged. */
  function CreateRun(service: Service, hostname: string, start: string, end: Outcome<string>,
                     initials: Option<string>, login: Option<Login>): SilenceRun {
    if end.Raise? then SilenceRun([], [], Some(end.exc))
    else if initials.None? then SilenceRun([], [], Some(NoneAttribute("initials")))
    else if login.None? then SilenceRun([], [], Some(NoneAttribute("username")))
    else PostRun(service, hostname, start, end.value, initials.value)
  }

  /** A silence is posted only for a window ending by year 9999, with the
      operator's initials and the AlertManager account configured; when
      one is missing, creation raises before posting, with `OverflowError`
      or the `AttributeError` of the first missing section. Otherwise it is
      the posting run. */
  lemma CreateRunNeeds(service: Service, hostname: string, window: TimeInterval.Interval,
                       initials: Option<string>, login: Option<Login>)
    requires TimeInterval.Representable(window.utcNow)
    ensures var end := TimeInterval.EndStr(window);
      var run := CreateRun(service, hostname, TimeInterval.StartStr(window), end, initials, login);
      (run.posted != [] ==> TimeInterval.Representable(TimeInterval.EndInstant(window.utcNow))
                            && initials.Some? && login.Some?)
      && (end.Raise? ==> run.error == Some(PyError("OverflowError", "date value out of range")) && run.log == [])
      && (end.Ok? && initials.None? ==> run.error == Some(NoneAttribute("initials")) && run.log == [])
      && (end.Ok? && initials.Some? && login.None? ==> run.error == Some(NoneAttribute("username")) && run.log == [])
      && (end.Ok? && initials.Some? && login.Some? ==>
            run == PostRun(service, hostname, TimeInterval.StartStr(window), end.value, initials.value))
  {
    TimeInterval.IntervalStrings(window);
    var end := TimeInterval.EndStr(window);
    if end.Ok? && initials.Some? && login.Some? {
      PostRunPosts(service, hostname, TimeInterval.StartStr(window), end.value, initials.value);
    }
  }

  class HVAlertManager {
    const hostname: string
    /** `creds_handler.general.initials`, or `None` without that section. */
    const initials: Option<string>
    /** `creds_handler.alertmanager`, or `None` without that section. */
    const login: Option<Login>
    /** `time_interval.start_str` and `time_interval.end_str`. */
    const start: string
    const end: Outcome<string>
    const jira: HVJira
    const service: Service
    /** The silences posted, oldest first. */
    var posted: seq<Silence>

    constructor (hostname: string, initials: Option<string>, login: Option<Login>, window: TimeInterval.Interval,
                 jira: HVJira, service: Service)
      requires TimeInterval.Representable(window.utcNow)
      ensures this.hostname == hostname && this.initials == initials && this.login == login
      ensures start == TimeInterval.StartStr(window) && end == TimeInterval.EndStr(window)
      ensures this.jira == jira && this.service == service && posted == []
    {
      this.hostname := hostname;
      this.initials := initials;
      this.login := login;
      start := TimeInterval.StartStr(window);
      end := TimeInterval.EndStr(window);
      this.jira := jira;
      this.service := service;
      posted := [];
    }

    /** `_create_silence_matcher(data)`: one post; a rejection is logged
        and sent, then raised. Without an AlertManager account it raises
        before posting. */
    method CreateSilenceMatcher(data: Silence) returns (o: Outcome<Response>)
      requires jira.Valid()
      modifies this, jira
      ensures jira.Valid()
      ensures login.None? ==> o == Raise(NoneAttribute("username")) && posted == old(posted) && jira.log == old(jira.log)
      ensures login.Some? ==> posted == old(posted) + [data] && o == PostVerdict(service(data))
      ensures login.Some? ==> jira.log == old(jira.log) + (if o.Raise? then RejectLog(service(data)) else [])
    {
      if login.None? {
        return Raise(NoneAttribute("username"));
      }
      var response := service(data);
      posted := posted + [data];
      if response.status != 200 {
        var msg := "Failed to create silence. Response status code: " + IntToString(response.status);
        jira.Add(msg);
        jira.AddBlock(response.text);
        jira.SendBuffer();
        return Raise(HVException(response.text));
      }
      o := Ok(response);
    }

    /** `_create_silence()`. */
    method CreateSilences() returns (o: Outcome<()>)
      requires jira.Valid()
      modifies this, jira
      ensures jira.Valid()
      ensures var run := CreateRun(service, hostname, start, end, initials, login);
        posted == old(posted) + run.posted && jira.log == old(jira.log) + run.log
        && (o.Raise? <==> run.error.Some?) && (o.Raise? ==> run.error == Some(o.exc))
    {
      var endStr :- end;
      if initials.None? {
        return Raise(NoneAttribute("initials"));
      }
      var response := CreateSilenceMatcher(Payload("hostname", hostname, start, endStr, initials.value));
      if response.Raise? {
        return Raise(response.exc);
      }
      var hostnameId :- SilenceIdOf(response.value);
      var outMsg := HostnameLine(hostnameId);
      response := CreateSilenceMatcher(Payload("instance", hostname, start, endStr, initials.value));
      if response.Raise? {
        return Raise(response.exc);
      }
      var instanceId :- SilenceIdOf(response.value);
      outMsg := outMsg + "\n";
      outMsg := outMsg + InstanceLine(instanceId);
      var msg := Summary(start, endStr);
      msg := msg + "\n";
      msg := msg + outMsg;
      assert msg == SuccessMsg(start, endStr, hostnameId, instanceId);
      jira.Add(msg);
      jira.SendBuffer();
      o := Ok(());
    }

    /** `create_silence()`: any exception from `_create_silence` is reported
        and raised again as `HVException("Exception captured: ...")`. */
    method CreateSilence() returns (o: Outcome<()>)
      requires jira.Valid()
      modifies this, jira
      ensures jira.Valid()
      ensures var run := CreateRun(service, hostname, start, end, initials, login);
        posted == old(posted) + run.posted
        && (run.error.None? ==> o == Ok(()) && jira.log == old(jira.log) + run.log)
        && (run.error.Some? ==> (o == Raise(Captured(run.error.value))
              && jira.log == old(jira.log) + run.log + [Add("Exception captured"), AddBlock(Str(run.error.value)), Send]))
      ensures o.Raise? ==> o.exc.HVException?
    {
      var res := CreateSilences();
      if res.Raise? {
        var msg := "Exception captured: " + Str(res.exc);
        jira.Add("Exception captured");
        jira.AddBlock(Str(res.exc));
        jira.SendBuffer();
        return Raise(HVException(msg));
      }
      o := Ok(());
    }
  }
}

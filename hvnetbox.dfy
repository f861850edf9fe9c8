/**
 * `HVNetbox` (lib/hvnetbox.py): the host's NetBox device record, the
 * checks made on it and the changes saved back to it. The NetBox service
 * is an oracle (`Api`); the device record fetched at construction is the
 * object's `device` field, `None` when NetBox does not know the host.
 */
module HvNetbox {
  import opened PyStr
  import opened HvException
  import opened HvJira

  const NetboxUrl: string := "https://netbox.esc.rl.ac.uk/"

  /** The fields of a device record the automation reads or writes. */
  datatype Device = Device(id: int, status: string, role: string, description: string)

  /** A network interface of a device. */
  datatype Interface = Interface(id: int, name: string)

  /** The NetBox service: whether a device role of that name exists,
      whether a save of a record is accepted, the interfaces of a device
      and the addresses assigned to an interface. */
  datatype Api = Api(
    roleExists: string -> bool,
    accepts: Device -> bool,
    interfacesOf: int -> seq<Interface>,
    addressesOf: int -> seq<string>)

  /** The `url` property: the NetBox URL ends in `/`, so the path follows a
      double slash. */
  function Url(id: int): string {
    NetboxUrl + "/dcim/devices/" + IntToString(id) + "/"
  }

  /** The device's page sits under a doubled slash after the host name,
      and the id is its last path segment. */
  lemma UrlLayout(id: int)
    ensures OccursAt(Url(id), "//dcim/devices/", |NetboxUrl| - 1)
    ensures Url(id)[|NetboxUrl| + |"/dcim/devices/"|..] == IntToString(id) + "/"
  {
    var u := Url(id);
    var p := NetboxUrl + "/dcim/devices/";
    assert u == p + (IntToString(id) + "/");
    assert u[|NetboxUrl| - 1..|NetboxUrl| + |"/dcim/devices/"|] == "//dcim/devices/" by {
      assert u[..|p|] == p;
      assert p[|NetboxUrl| - 1..] == "//dcim/devices/";
    }
  }

  /** `"gpu" in description.lower()`. */
  predicate GpuDescription(description: string) {
    Contains(Lower(description), "gpu")
  }

  /** The test ignores case: a description naming a "GPU" in capitals
      counts. */
  lemma GpuAnyCase(description: string)
    requires Contains(description, "GPU") || Contains(description, "gpu")
    ensures GpuDescription(description)
  {
    ContainsAt(description, "GPU");
    ContainsAt(description, "gpu");
    var i: nat, sub: string :| (sub == "GPU" || sub == "gpu") && OccursAt(description, sub, i);
    LowerOccurs(description, sub, i);
    assert Lower(sub) == "gpu" by {
      assert Lower(sub)[0] == 'g' && Lower(sub)[1] == 'p' && Lower(sub)[2] == 'u';
    }
    ContainsAt(Lower(description), "gpu");
  }

  /** The `has_gpu` property; without a device record the attribute
      access raises. */
  function HasGpu(device: Option<Device>): (o: Outcome<bool>)
  {
    if device.None? then Raise(PyError("AttributeError", "'NoneType' object has no attribute 'device_type'"))
    else Ok(GpuDescription(device.value.description))
  }

  /** The first interface with the given name. */
  function FirstNamed(interfaces: seq<Interface>, name: string): Option<Interface>
  {
    if interfaces == [] then None
    else if interfaces[0].name == name then Some(interfaces[0])
    else FirstNamed(interfaces[1..], name)
  }

  /** `FirstNamed` finds the earliest interface of that name, and none
      exactly when no interface has it. */
  lemma {:induction false} FirstNamedIsFirst(interfaces: seq<Interface>, name: string)
    ensures FirstNamed(interfaces, name).None? <==> forall k :: 0 <= k < |interfaces| ==> interfaces[k].name != name
    ensures FirstNamed(interfaces, name).Some? ==>
      exists k :: 0 <= k < |interfaces| && interfaces[k] == FirstNamed(interfaces, name).value
        && interfaces[k].name == name && forall j :: 0 <= j < k ==> interfaces[j].name != name
  {
    if interfaces != [] && interfaces[0].name != name {
      FirstNamedIsFirst(interfaces[1..], name);
      if FirstNamed(interfaces, name).Some? {
        var k :| 0 <= k < |interfaces[1..]| && interfaces[1..][k] == FirstNamed(interfaces, name).value
          && interfaces[1..][k].name == name && forall j :: 0 <= j < k ==> interfaces[1..][j].name != name;
        assert interfaces[k + 1] == interfaces[1..][k];
        assert forall j :: 0 <= j < k + 1 ==> interfaces[j].name != name by {
          forall j | 0 <= j < k + 1
            ensures interfaces[j].name != name
          {
            if j > 0 {
              assert interfaces[j] == interfaces[1..][j - 1];
            }
          }
        }
      }
    } else if interfaces != [] {
      assert interfaces[0] == FirstNamed(interfaces, name).value;
    }
  }

  /** `address.split('/')[0]`: the address without its prefix length. */
  function HostPart(address: string): string {
    SplitOn(address, '/')[0]
  }

  /** The host part is the address up to its first `/`, or all of it. */
  lemma HostPartPrefix(address: string)
    ensures StartsWith(address, HostPart(address)) && '/' !in HostPart(address)
    ensures |HostPart(address)| == |address| || address[|HostPart(address)|] == '/'
  {
    if '/' in address {
      var i := IndexOf(address, '/');
      assert HostPart(address) == address[..i];
    }
  }

  /** The messages of the checks. */
  function InNetboxMsg(hostname: string, id: int): string {
    "Confirmed that hypervisor " + hostname + " is registered in Netbox: " + Url(id)
  }

  const NotInNetboxMsg: string := "there is no info in NetBox for this hypervisor"

  function StatusOkMsg(hostname: string, status: string): string {
    "status of hypervisor " + hostname + " in Netbox is " + status + ", Ready to start."
  }

  function StatusBadMsg(hostname: string): string {
    "status of hypervisor " + hostname + " in Netbox is neither Active nor Offline. Aborting."
  }

  /** `status in ["active", "offline"]`. */
  predicate ReadyStatus(status: string) {
    status == "active" || status == "offline"
  }

  function RoleMsg(hostname: string, role: string, id: int): string {
    "Successfully updated role for device '" + hostname + "' to '" + role + "' in Netbox:" + "\n" + Url(id)
  }

  function StatusMsg(hostname: string, status: string, id: int): string {
    "Successfully updated status for device '" + hostname + "' to '" + status + "' in Netbox:" + "\n" + Url(id)
  }

  function NoDevice(attribute: string): Exc {
    PyError("AttributeError", "'NoneType' object has no attribute '" + attribute + "'")
  }

  const SaveRejected: Exc := PyError("RequestError", "the device could not be saved")

  // ---------------------------------------------------------------------
  // `_change` as a value
  // ---------------------------------------------------------------------

  /** Where a sequence of changes got to: the device record (as changed in
      memory), the records saved, what was logged, and the exception that
      stopped it, if any. */
  datatype ChangeRun = ChangeRun(device: Option<Device>, saved: seq<Device>, log: seq<JiraAction>, error: Option<Exc>)

  /** `_change_role(role)`: nothing when NetBox has no such role; otherwise
      the record's role is set, then saved, then the change is reported. */
  function RoleStep(api: Api, hostname: string, r: ChangeRun, role: string): ChangeRun {
    if !api.roleExists(role) then r
    else if r.device.None? then r.(error := Some(NoDevice("role")))
    else
      var d := r.device.value.(role := role);
      if !api.accepts(d) then r.(device := Some(d), error := Some(SaveRejected))
      else ChangeRun(Some(d), r.saved + [d], r.log + [Add(RoleMsg(hostname, role, d.id)), Send], None)
  }

  /** `_change_status(status)`: the record's status is set, saved and the
      change reported. */
  function StatusStep(api: Api, hostname: string, r: ChangeRun, status: string): ChangeRun {
    if r.device.None? then r.(error := Some(NoDevice("status")))
    else
      var d := r.device.value.(status := status);
      if !api.accepts(d) then r.(device := Some(d), error := Some(SaveRejected))
      else ChangeRun(Some(d), r.saved + [d], r.log + [Add(StatusMsg(hostname, status, d.id)), Send], None)
  }

  /** One item of the mapping: only "role" and "status" do anything. */
  function ChangeStep(api: Api, hostname: string, r: ChangeRun, key: string, value: string): ChangeRun {
    if key == "role" then RoleStep(api, hostname, r, value)
    else if key == "status" then StatusStep(api, hostname, r, value)
    else r
  }

  /** `_change(changes)` over the mapping's items in iteration order,
      stopping at the first exception. */
  function RunChanges(api: Api, hostname: string, start: ChangeRun, changes: seq<(string, string)>): ChangeRun
  {
    if changes == [] then start
    else
      var r := RunChanges(api, hostname, start, changes[..|changes| - 1]);
      if r.error.Some? then r
      else ChangeStep(api, hostname, r, changes[|changes| - 1].0, changes[|changes| - 1].1)
  }

  /** The items `_change` acts on. */
  function Relevant(changes: seq<(string, string)>): seq<(string, string)>
  {
    if changes == [] then []
    else
      var last := changes[|changes| - 1];
      Relevant(changes[..|changes| - 1]) + (if last.0 == "role" || last.0 == "status" then [last] else [])
  }

  /** Items with any other key are ignored: the run is the same without
      them. */
  lemma {:induction false} RunChangesRelevant(api: Api, hostname: string, start: ChangeRun, changes: seq<(string, string)>)
    requires start.error.None?
    ensures RunChanges(api, hostname, start, changes) == RunChanges(api, hostname, start, Relevant(changes))
  {
    if changes != [] {
      var init := changes[..|changes| - 1];
      var last := changes[|changes| - 1];
      RunChangesRelevant(api, hostname, start, init);
      if last.0 == "role" || last.0 == "status" {
        var rel := Relevant(init) + [last];
        assert rel[..|rel| - 1] == Relevant(init);
      } else {
        assert Relevant(changes) == Relevant(init) + [];
        assert Relevant(init) + [] == Relevant(init);
      }
    }
  }

  /** A role NetBox does not know changes nothing: nothing is saved or
      logged. */
  lemma UnknownRoleNoop(api: Api, hostname: string, start: ChangeRun, role: string)
    requires !api.roleExists(role)
    ensures RunChanges(api, hostname, start, [("role", role)]) == start
  {
    assert [("role", role)][..0] == [];
  }

  /** Once a change has failed, later items are not attempted. */
  lemma {:induction false} RunChangesStops(api: Api, hostname: string, start: ChangeRun,
                                           changes: seq<(string, string)>, i: nat)
    requires i <= |changes| && RunChanges(api, hostname, start, changes[..i]).error.Some?
    ensures RunChanges(api, hostname, start, changes) == RunChanges(api, hostname, start, changes[..i])
    decreases |changes| - i
  {
    if i < |changes| {
      assert changes[..i + 1][..i] == changes[..i];
      RunChangesStops(api, hostname, start, changes, i + 1);
    } else {
      assert changes[..i] == changes;
    }
  }

  class HVNetbox {
    const hostname: string
    const jira: HVJira
    const api: Api
    /** `self.device`: the record fetched at construction, changed in
        memory by `_change_role`/`_change_status`. */
    var device: Option<Device>
    /** The records saved to NetBox, oldest first. */
    var saved: seq<Device>

    constructor (hostname: string, jira: HVJira, api: Api, device: Option<Device>)
      ensures this.hostname == hostname && this.jira == jira && this.api == api
      ensures this.device == device && saved == []
    {
      this.hostname := hostname;
      this.jira := jira;
      this.api := api;
      this.device := device;
      saved := [];
    }

    /** `hv_in_netbox()`: raises exactly when NetBox has no record of the
        host; either way one comment is sent. */
    method HvInNetbox() returns (o: Outcome<()>)
      requires jira.Valid()
      modifies jira
      ensures jira.Valid() && jira.buffer == Header
      ensures o.Raise? <==> device.None?
      ensures device.Some? ==> o == Ok(()) && jira.log == old(jira.log) + [Add(InNetboxMsg(hostname, device.value.id)), Send]
      ensures device.None? ==> o == Raise(HVException(NotInNetboxMsg)) && jira.log == old(jira.log) + [Add(NotInNetboxMsg), Send]
    {
      if device.Some? {
        jira.Add(InNetboxMsg(hostname, device.value.id));
        jira.SendBuffer();
        o := Ok(());
      } else {
        jira.Add(NotInNetboxMsg);
        jira.SendBuffer();
        o := Raise(HVException(NotInNetboxMsg));
      }
    }

    /** `check_status_pre_drain()`: the lower-cased status when it is
        "active" or "offline"; otherwise `HVException`. */
    method CheckStatusPreDrain() returns (o: Outcome<string>)
      requires jira.Valid()
      modifies jira
      ensures jira.Valid()
      ensures device.None? ==> o == Raise(PyError("TypeError", "'NoneType' object is not iterable")) && jira.log == old(jira.log)
      ensures device.Some? ==> var status := Lower(device.value.status); var url := Url(device.value.id);
        jira.buffer == Header
        && (ReadyStatus(status) ==> (o == Ok(status)
              && jira.log == old(jira.log) + [Add(StatusOkMsg(hostname, status)), Add(url), Send]))
        && (!ReadyStatus(status) ==> (o == Raise(HVException(StatusBadMsg(hostname)))
              && jira.log == old(jira.log) + [Add(StatusBadMsg(hostname)), Add(url), Send]))
    {
      if device.None? {
        return Raise(PyError("TypeError", "'NoneType' object is not iterable"));
      }
      var status := Lower(device.value.status);
      if status == "active" || status == "offline" {
        jira.Add(StatusOkMsg(hostname, status));
        jira.Add(Url(device.value.id));
        jira.SendBuffer();
        return Ok(status);
      }
      var msg := StatusBadMsg(hostname);
      jira.Add(msg);
      jira.Add(Url(device.value.id));
      jira.SendBuffer();
      o := Raise(HVException(msg));
    }

    /** `_change_role(role)`, continuing a run of changes. */
    method ChangeRole(role: string, ghost base: seq<JiraAction>, ghost r: ChangeRun) returns (o: Outcome<()>)
      requires jira.Valid() && r.error.None?
      requires device == r.device && saved == r.saved && jira.log == base + r.log
      modifies this, jira
      ensures jira.Valid()
      ensures var n := RoleStep(api, hostname, r, role);
        device == n.device && saved == n.saved && jira.log == base + n.log
        && (o.Raise? <==> n.error.Some?) && (o.Raise? ==> n.error == Some(o.exc))
    {
      if !api.roleExists(role) {
        return Ok(());
      }
      if device.None? {
        return Raise(NoDevice("role"));
      }
      var d := device.value.(role := role);
      device := Some(d);
      if !api.accepts(d) {
        return Raise(SaveRejected);
      }
      saved := saved + [d];
      var msg := "Successfully updated role for device '" + hostname + "' to '" + role + "' in Netbox:";
      msg := msg + "\n";
      msg := msg + Url(d.id);
      jira.Add(msg);
      jira.SendBuffer();
      o := Ok(());
    }

    /** `_change_status(status)`, continuing a run of changes. */
    method ChangeStatus(status: string, ghost base: seq<JiraAction>, ghost r: ChangeRun) returns (o: Outcome<()>)
      requires jira.Valid() && r.error.None?
      requires device == r.device && saved == r.saved && jira.log == base + r.log
      modifies this, jira
      ensures jira.Valid()
      ensures var n := StatusStep(api, hostname, r, status);
        device == n.device && saved == n.saved && jira.log == base + n.log
        && (o.Raise? <==> n.error.Some?) && (o.Raise? ==> n.error == Some(o.exc))
    {
      if device.None? {
        return Raise(NoDevice("status"));
      }
      var d := device.value.(status := status);
      device := Some(d);
      if !api.accepts(d) {
        return Raise(SaveRejected);
      }
      saved := saved + [d];
      var msg := "Successfully updated status for device '" + hostname + "' to '" + status + "' in Netbox:";
      msg := msg + "\n";
      msg := msg + Url(d.id);
      jira.Add(msg);
      jira.SendBuffer();
      o := Ok(());
    }

    /** `_change(changes)`: the items in order, up to the first exception. */
    method ChangeItems(changes: seq<(string, string)>) returns (o: Outcome<()>)
      requires jira.Valid()
      modifies this, jira
      ensures jira.Valid()
      ensures var n := RunChanges(api, hostname, ChangeRun(old(device), old(saved), [], None), changes);
        device == n.device && saved == n.saved && jira.log == old(jira.log) + n.log
        && (o.Raise? <==> n.error.Some?) && (o.Raise? ==> n.error == Some(o.exc))
    {
      ghost var start := ChangeRun(device, saved, [], None);
      ghost var base := jira.log;
      var i := 0;
      while i < |changes|
        invariant 0 <= i <= |changes| && jira.Valid()
        invariant var n := RunChanges(api, hostname, start, changes[..i]);
          n.error.None? && device == n.device && saved == n.saved && jira.log == base + n.log
      {
        ghost var n := RunChanges(api, hostname, start, changes[..i]);
        assert changes[..i + 1][..i] == changes[..i];
        var (k, v) := changes[i];
        if k == "role" {
          var res := ChangeRole(v, base, n);
          if res.Raise? {
            RunChangesStops(api, hostname, start, changes, i + 1);
            return res;
          }
        }
        if k == "status" {
          var res := ChangeStatus(v, base, n);
          if res.Raise? {
            RunChangesStops(api, hostname, start, changes, i + 1);
            return res;
          }
        }
        i := i + 1;
      }
      assert changes[..i] == changes;
      o := Ok(());
    }

    /** `change(changes)`: any exception from `_change` is reported and
        raised again as `HVException("Exception captured: ...")`. */
    method Change(changes: seq<(string, string)>) returns (o: Outcome<()>)
      requires jira.Valid()
      modifies this, jira
      ensures jira.Valid()
      ensures var n := RunChanges(api, hostname, ChangeRun(old(device), old(saved), [], None), changes);
        device == n.device && saved == n.saved
        && (n.error.None? ==> o == Ok(()) && jira.log == old(jira.log) + n.log)
        && (n.error.Some? ==> (o == Raise(Captured(n.error.value))
              && jira.log == old(jira.log) + n.log + [Add("Exception captured"), AddBlock(Str(n.error.value)), Send]))
      ensures o.Raise? ==> o.exc.HVException?
    {
      var res := ChangeItems(changes);
      if res.Raise? {
        var msg := "Exception captured: " + Str(res.exc);
        jira.Add("Exception captured");
        jira.AddBlock(Str(res.exc));
        jira.SendBuffer();
        return Raise(HVException(msg));
      }
      o := Ok(());
    }

    /** The `ipmi_address` property, computed by walking the interfaces. */
    method IpmiAddress() returns (o: Outcome<Option<string>>)
      ensures o == IpmiLookup(api, device)
    {
      if device.None? {
        return Raise(NoDevice("id"));
      }
      var interfaces := api.interfacesOf(device.value.id);
      var i := 0;
      while i < |interfaces|
        invariant 0 <= i <= |interfaces|
        invariant FirstNamed(interfaces, "bmc0") == FirstNamed(interfaces[i..], "bmc0")
      {
        if interfaces[i].name == "bmc0" {
          var assignments := api.addressesOf(interfaces[i].id);
          if assignments == [] {
            return Raise(PyError("StopIteration", ""));
          }
          return Ok(Some(SplitOn(assignments[0], '/')[0]));
        }
        assert interfaces[i..][1..] == interfaces[i + 1..];
        i := i + 1;
      }
      o := Ok(None);
    }

    /** `report_ipmi_address()`: the address (or `None`) reported in one
        comment; a failed lookup reports nothing. */
    method ReportIpmiAddress() returns (o: Outcome<()>)
      requires jira.Valid()
      modifies jira
      ensures jira.Valid()
      ensures var lookup := IpmiLookup(api, device);
        (lookup.Raise? ==> o == Raise(lookup.exc) && jira.log == old(jira.log))
        && (lookup.Ok? ==> o == Ok(()) && jira.log == old(jira.log) + [Add(IpmiMsg(hostname, lookup.value)), Send])
    {
      var address :- IpmiAddress();
      jira.Add(IpmiMsg(hostname, address));
      jira.SendBuffer();
      o := Ok(());
    }
  }

  /** What `ipmi_address` evaluates to: the host part of the first address
      of the first interface named "bmc0"; `None` when there is no such
      interface, `StopIteration` when it has no address. */
  function IpmiLookup(api: Api, device: Option<Device>): Outcome<Option<string>> {
    if device.None? then Raise(NoDevice("id"))
    else
      var bmc := FirstNamed(api.interfacesOf(device.value.id), "bmc0");
      if bmc.None? then Ok(None)
      else if api.addressesOf(bmc.value.id) == [] then Raise(PyError("StopIteration", ""))
      else Ok(Some(HostPart(api.addressesOf(bmc.value.id)[0])))
  }

  /** A successful lookup is `None` exactly when no interface is named
      "bmc0", and otherwise an address with no prefix length. */
  lemma IpmiLookupSpec(api: Api, device: Device)
    ensures var o := IpmiLookup(api, Some(device)); var ifs := api.interfacesOf(device.id);
      (o == Ok(None) <==> forall k :: 0 <= k < |ifs| ==> ifs[k].name != "bmc0")
      && (o.Ok? && o.value.Some? ==> '/' !in o.value.value)
      && (o.Raise? ==> o.exc == PyError("StopIteration", ""))
  {
    var bmc := FirstNamed(api.interfacesOf(device.id), "bmc0");
    FirstNamedIsFirst(api.interfacesOf(device.id), "bmc0");
    if bmc.Some? && api.addressesOf(bmc.value.id) != [] {
      HostPartPrefix(api.addressesOf(bmc.value.id)[0]);
    }
  }

  /** The report of the IPMI address; `None` prints as "None". */
  function IpmiMsg(hostname: string, address: Option<string>): string {
    "IPMI address for device " + hostname + " according to Netbox: "
      + (if address.Some? then address.value else "None")
  }
}

/**
 * `CredentialsHandler` (lib/credentialshandler.py): the eight credential
 * sections read from a parsed YAML document. Reading and parsing the file
 * is not modelled; the parsed document is the parameter.
 */
module Credentials {
  import opened HvException

  /** A parsed YAML value; mapping keys are strings. */
  datatype Yaml =
    | YNull
    | YBool(b: bool)
    | YInt(i: int)
    | YStr(s: string)
    | YList(items: seq<Yaml>)
    | YMap(entries: map<string, Yaml>)

  /** Python truthiness of a parsed value. */
  predicate Truthy(v: Yaml) {
    match v
    case YNull => false
    case YBool(b) => b
    case YInt(i) => i != 0
    case YStr(s) => s != ""
    case YList(items) => items != []
    case YMap(entries) => entries != map[]
  }

  /** A section built from its mapping: the dataclass's keyword arguments. */
  type Section = map<string, Yaml>

  /** The fields of each credential dataclass. */
  const OpenstackFields: set<string> := {"username", "password", "cloud"}
  const AlertmanagerFields: set<string> := {"username", "password"}
  const NetboxFields: set<string> := {"api_token"}
  const JiraFields: set<string> := {"username", "api_token"}
  const SshFields: set<string> := {"key_path", "username", "passphrase"}
  const AquilonFields: set<string> := {"username", "password"}
  const KayobeFields: set<string> := {"nopassfile", "username", "hostname", "prod_env_path"}
  const GeneralFields: set<string> := {"initials"}

  /** `yaml.safe_load(f) or {}`: a falsy document reads as the empty mapping.
      Any other non-mapping document has no `get`, so the first section
      lookup raises `AttributeError`. */
  function Document(doc: Yaml): (o: Outcome<map<string, Yaml>>)
  {
    if !Truthy(doc) then Ok(map[])
    else if doc.YMap? then Ok(doc.entries)
    else Raise(PyError("AttributeError", "object has no attribute 'get'"))
  }

  /** `load_section(key, cls)`: `None` unless the key holds a mapping;
      `cls(**section)` then needs exactly the dataclass's fields (none has a
      default), else it raises `TypeError`. */
  function LoadSection(data: map<string, Yaml>, key: string, fields: set<string>): (o: Outcome<Option<Section>>)
  {
    if key !in data || !data[key].YMap? then Ok(None)
    else if data[key].entries.Keys != fields then
      Raise(PyError("TypeError", "__init__() got unexpected or missing keyword arguments"))
    else Ok(Some(data[key].entries))
  }

  /** A section whose mapping does not have exactly the dataclass's fields. */
  predicate Mismatched(data: map<string, Yaml>, key: string, fields: set<string>) {
    key in data && data[key].YMap? && data[key].entries.Keys != fields
  }

  /** The handler after `__init__`: each section or `None`. */
  datatype Handler = Handler(
    openstack: Option<Section>, alertmanager: Option<Section>, netbox: Option<Section>,
    jira: Option<Section>, ssh: Option<Section>, aquilon: Option<Section>,
    kayobe: Option<Section>, general: Option<Section>)

  /** `CredentialsHandler(yaml_path)` given the parsed document: the eight
      sections are loaded in order, and the first failure propagates. */
  function Load(doc: Yaml): (o: Outcome<Handler>)
  {
    var data :- Document(doc);
    var openstack :- LoadSection(data, "openstack", OpenstackFields);
    var alertmanager :- LoadSection(data, "alertmanager", AlertmanagerFields);
    var netbox :- LoadSection(data, "netbox", NetboxFields);
    var jira :- LoadSection(data, "jira", JiraFields);
    var ssh :- LoadSection(data, "ssh", SshFields);
    var aquilon :- LoadSection(data, "aquilon", AquilonFields);
    var kayobe :- LoadSection(data, "kayobe", KayobeFields);
    var general :- LoadSection(data, "general", GeneralFields);
    Ok(Handler(openstack, alertmanager, netbox, jira, ssh, aquilon, kayobe, general))
  }

  /** A section is set exactly when its key holds a mapping with the
      dataclass's fields, and then it holds that mapping; it is `None`
      exactly when the key is absent or holds something else. */
  lemma SectionPresence(data: map<string, Yaml>, key: string, fields: set<string>)
    ensures LoadSection(data, key, fields) == Ok(None) <==> key !in data || !data[key].YMap?
    ensures LoadSection(data, key, fields).Ok? && LoadSection(data, key, fields).value.Some? <==>
      key in data && data[key].YMap? && data[key].entries.Keys == fields
    ensures LoadSection(data, key, fields).Ok? && LoadSection(data, key, fields).value.Some? ==>
      LoadSection(data, key, fields).value.value == data[key].entries
    ensures LoadSection(data, key, fields).Raise? <==> Mismatched(data, key, fields)
  {
  }

  /** One section does not depend on what any other key holds. */
  lemma SectionIndependent(data: map<string, Yaml>, key: string, fields: set<string>, other: string, v: Yaml)
    requires other != key
    ensures LoadSection(data[other := v], key, fields) == LoadSection(data, key, fields)
  {
    assert key in data[other := v] <==> key in data;
  }

  /** Once loaded, the sections a host's helpers read are what
      `load_section` gave for them. */
  lemma LoadedSections(doc: Yaml)
    requires Load(doc).Ok?
    ensures var h := Load(doc).value; var d := Document(doc).value;
      h.openstack == LoadSection(d, "openstack", OpenstackFields).value
      && h.netbox == LoadSection(d, "netbox", NetboxFields).value
      && h.jira == LoadSection(d, "jira", JiraFields).value
      && h.ssh == LoadSection(d, "ssh", SshFields).value
  {
  }

  /** An empty (or otherwise falsy) document leaves all eight sections
      `None`. */
  lemma EmptyDocument(doc: Yaml)
    requires !Truthy(doc)
    ensures Load(doc) == Ok(Handler(None, None, None, None, None, None, None, None))
  {
  }

  /** Construction fails exactly when the document is a truthy non-mapping
      or some section's mapping does not match its dataclass; otherwise
      every section is what `load_section` gives for it. */
  lemma LoadOutcome(doc: Yaml)
    ensures Load(doc).Raise? <==>
      (Truthy(doc) && !doc.YMap?)
      || (doc.YMap? && (Mismatched(doc.entries, "openstack", OpenstackFields)
        || Mismatched(doc.entries, "alertmanager", AlertmanagerFields)
        || Mismatched(doc.entries, "netbox", NetboxFields)
        || Mismatched(doc.entries, "jira", JiraFields)
        || Mismatched(doc.entries, "ssh", SshFields)
        || Mismatched(doc.entries, "aquilon", AquilonFields)
        || Mismatched(doc.entries, "kayobe", KayobeFields)
        || Mismatched(doc.entries, "general", GeneralFields)))
    ensures Load(doc).Ok? && doc.YMap? ==> var h := Load(doc).value; var d := doc.entries;
      h.openstack == LoadSection(d, "openstack", OpenstackFields).value
      && h.alertmanager == LoadSection(d, "alertmanager", AlertmanagerFields).value
      && h.netbox == LoadSection(d, "netbox", NetboxFields).value
      && h.jira == LoadSection(d, "jira", JiraFields).value
      && h.ssh == LoadSection(d, "ssh", SshFields).value
      && h.aquilon == LoadSection(d, "aquilon", AquilonFields).value
      && h.kayobe == LoadSection(d, "kayobe", KayobeFields).value
      && h.general == LoadSection(d, "general", GeneralFields).value
  {
    if doc.YMap? && doc.entries == map[] {
      assert !Truthy(doc);
    }
  }
}

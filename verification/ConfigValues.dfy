/** The configuration as a value: maps and slices may be nil (None), which is not the same as empty. Operations
    are applied one at a time; None is an error, which abandons the whole transaction. */
module ConfigValues {
  import opened Text

  type Strings = Option<map<string, string>>
  type Slice = Option<seq<string>>
  type Slices = Option<map<string, Slice>>

  datatype LogConfig = LogConfig(format: string, level: string)

  datatype APIConfig = APIConfig(user: bool, group: bool, pages: bool, access: bool, service: bool, log: bool,
                                 network: bool)

  datatype ServiceValue = ServiceValue(restart: string, runAsUser: string, checksum: string, allow: Slice,
                                       params: Strings)

  type Services = Option<map<string, ServiceValue>>

  datatype ConfigValue = ConfigValue(
    listen: string, tls: bool, log: LogConfig, api: APIConfig,
    users: Strings, groups: Slices, allow: Slices,
    serviceDir: string, serviceTempDir: string, services: Services, pages: Strings)

  const NO_LOG := LogConfig("", "")
  const NO_API := APIConfig(false, false, false, false, false, false, false)
  const NO_SERVICE := ServiceValue("", "", "", None, None)
  const NO_CONFIG := ConfigValue("", false, NO_LOG, NO_API, None, None, None, "", "", None, None)

  /** What an operation carries. Foreign is a value of any other Go type. */
  datatype Value =
    | Text(s: string)
    | Flag(b: bool)
    | Log(log: LogConfig)
    | API(api: APIConfig)
    | StringMap(strings: Strings)
    | Array(slice: Slice)
    | SliceMap(slices: Slices)
    | Route(allow: Slices)
    | Service(service: ServiceValue)
    | ServiceMap(services: Services)
    | Foreign

  datatype Operation = Set(value: Value) | Remove | Unknown

  // ---------- Leaves and maps ----------

  function EditText(op: Operation): Option<string> {
    match op
    case Set(Text(s)) => Some(s)
    case Remove => Some("")
    case _ => None
  }

  function EditFlag(op: Operation): Option<bool> {
    match op
    case Set(Flag(b)) => Some(b)
    case Remove => Some(false)
    case _ => None
  }

  function EditArray(op: Operation): Option<Slice> {
    match op
    case Set(Array(slice)) => Some(slice)
    case Remove => Some(None)
    case _ => None
  }

  function EditStrings(op: Operation): Option<Strings> {
    match op
    case Set(StringMap(strings)) => Some(strings)
    case Remove => Some(None)
    case _ => None
  }

  function EditSlices(op: Operation): Option<Slices> {
    match op
    case Set(SliceMap(slices)) => Some(slices)
    case Remove => Some(None)
    case _ => None
  }

  function Entries<V>(m: Option<map<string, V>>): map<string, V> {
    if m.Some? then m.value else map[]
  }

  /** Removing a key that is not there leaves the map as it is, nil or not. */
  function Without<V>(m: Option<map<string, V>>, key: string): Option<map<string, V>> {
    if key in Entries(m) then Some(m.value - {key}) else m
  }

  function EditStringsAt(m: Strings, key: string, op: Operation): Option<Strings> {
    match op
    case Set(Text(s)) => Some(Some(Entries(m)[key := s]))
    case Remove => Some(Without(m, key))
    case _ => None
  }

  function EditSlicesAt(m: Slices, key: string, op: Operation): Option<Slices> {
    match op
    case Set(Array(slice)) => Some(Some(Entries(m)[key := slice]))
    case Remove => Some(Without(m, key))
    case _ => None
  }

  // ---------- One operation at a decoded path ----------

  function EditLog(log: LogConfig, op: Operation, path: seq<string>): Option<LogConfig> {
    if path == [] then
      match op
      case Set(Log(value)) => Some(value)
      case Remove => Some(NO_LOG)
      case _ => None
    else if |path| != 1 then None
    else if path[0] == "Format" then
      var s := EditText(op);
      if s.None? then None else Some(log.(format := s.value))
    else if path[0] == "Level" then
      var s := EditText(op);
      if s.None? then None else Some(log.(level := s.value))
    else None
  }

  function WithCapability(api: APIConfig, capability: string, b: bool): Option<APIConfig> {
    if capability == "User" then Some(api.(user := b))
    else if capability == "Group" then Some(api.(group := b))
    else if capability == "Pages" then Some(api.(pages := b))
    else if capability == "Access" then Some(api.(access := b))
    else if capability == "Service" then Some(api.(service := b))
    else if capability == "Log" then Some(api.(log := b))
    else if capability == "Network" then Some(api.(network := b))
    else None
  }

  function EditAPI(api: APIConfig, op: Operation, path: seq<string>): Option<APIConfig> {
    if path == [] then
      match op
      case Set(API(value)) => Some(value)
      case Remove => Some(NO_API)
      case _ => None
    else if |path| != 1 then None
    else
      var b := EditFlag(op);
      if b.None? then None else WithCapability(api, path[0], b.value)
  }

  /** Users and Pages: a map of strings. */
  function EditStringsPath(m: Strings, op: Operation, path: seq<string>): Option<Strings> {
    if path == [] then EditStrings(op)
    else if |path| != 1 || path[0] == "" then None
    else EditStringsAt(m, path[0], op)
  }

  /** Groups, and Allow inside Route: a map of string slices. */
  function EditSlicesPath(m: Slices, op: Operation, path: seq<string>): Option<Slices> {
    if path == [] then EditSlices(op)
    else if |path| != 1 || path[0] == "" then None
    else EditSlicesAt(m, path[0], op)
  }

  function EditRoute(m: Slices, op: Operation, path: seq<string>): Option<Slices> {
    if path == [] then
      match op
      case Set(Route(allow)) => Some(allow)
      case Remove => Some(None)
      case _ => None
    else if path[0] != "Allow" then None
    else EditSlicesPath(m, op, path[1..])
  }

  function EditServiceField(s: ServiceValue, op: Operation, path: seq<string>): Option<ServiceValue>
    requires path != []
  {
    if path[0] == "Restart" || path[0] == "RunAsUser" || path[0] == "Checksum" then
      var t := EditText(op);
      if |path| != 1 || t.None? then None
      else if path[0] == "Restart" then Some(s.(restart := t.value))
      else if path[0] == "RunAsUser" then Some(s.(runAsUser := t.value))
      else Some(s.(checksum := t.value))
    else if path[0] == "Allow" then
      var slice := EditArray(op);
      if |path| != 1 || slice.None? then None else Some(s.(allow := slice.value))
    else if path[0] == "Params" then
      var m := EditStringsPath(s.params, op, path[1..]);
      if m.None? then None else Some(s.(params := m.value))
    else None
  }

  function ServiceAt(m: Services, name: string): ServiceValue {
    if name in Entries(m) then m.value[name] else NO_SERVICE
  }

  function EditServices(m: Services, op: Operation, path: seq<string>): Option<Services> {
    if path == [] then
      match op
      case Set(ServiceMap(services)) => Some(services)
      case Remove => Some(None)
      case _ => None
    else if path[0] == "" then None
    else if |path| == 1 then
      match op
      case Set(Service(service)) => Some(Some(Entries(m)[path[0] := service]))
      case Remove => Some(Without(m, path[0]))
      case _ => None
    else if op.Remove? && path[0] !in Entries(m) then Some(m)
    else
      var s := EditServiceField(ServiceAt(m, path[0]), op, path[1..]);
      if s.None? then None else Some(Some(Entries(m)[path[0] := s.value]))
  }

  /** configEditor.apply on values. */
  function Apply(c: ConfigValue, op: Operation, path: seq<string>): Option<ConfigValue> {
    if path == [] || path[0] == "" then None
    else if path[0] == "Listen" || path[0] == "ServiceDir" || path[0] == "ServiceTempDir" then
      var t := EditText(op);
      if |path| != 1 || t.None? then None
      else if path[0] == "Listen" then Some(c.(listen := t.value))
      else if path[0] == "ServiceDir" then Some(c.(serviceDir := t.value))
      else Some(c.(serviceTempDir := t.value))
    else if path[0] == "TLS" then
      var b := EditFlag(op);
      if |path| != 1 || b.None? then None else Some(c.(tls := b.value))
    else if path[0] == "Log" then
      var log := EditLog(c.log, op, path[1..]);
      if log.None? then None else Some(c.(log := log.value))
    else if path[0] == "API" then
      var api := EditAPI(c.api, op, path[1..]);
      if api.None? then None else Some(c.(api := api.value))
    else if path[0] == "Users" then
      var m := EditStringsPath(c.users, op, path[1..]);
      if m.None? then None else Some(c.(users := m.value))
    else if path[0] == "Groups" then
      var m := EditSlicesPath(c.groups, op, path[1..]);
      if m.None? then None else Some(c.(groups := m.value))
    else if path[0] == "Route" then
      var m := EditRoute(c.allow, op, path[1..]);
      if m.None? then None else Some(c.(allow := m.value))
    else if path[0] == "Services" then
      var m := EditServices(c.services, op, path[1..]);
      if m.None? then None else Some(c.(services := m.value))
    else if path[0] == "Pages" then
      var m := EditStringsPath(c.pages, op, path[1..]);
      if m.None? then None else Some(c.(pages := m.value))
    else None
  }

  /** A transaction: every operation in order, each on the result of those before it. */
  function ApplyAll(c: ConfigValue, ops: seq<(Operation, seq<string>)>): Option<ConfigValue> {
    if ops == [] then Some(c)
    else
      var before := ApplyAll(c, ops[..|ops| - 1]);
      if before.None? then None else Apply(before.value, ops[|ops| - 1].0, ops[|ops| - 1].1)
  }

  // ---------- The language of paths ----------

  const CAPABILITIES := {"User", "Group", "Pages", "Access", "Service", "Log", "Network"}

  /** conf.validTOMLKey: the keys that the loader of the file accepts. */
  predicate ValidTOMLKey(key: seq<string>) {
    |key| == 0 ||
    if key[0] in {"Listen", "TLS", "ServiceDir", "ServiceTempDir"} then |key| == 1
    else if key[0] == "Log" then |key| == 1 || (|key| == 2 && key[1] in {"Format", "Level"})
    else if key[0] == "API" then |key| == 1 || (|key| == 2 && key[1] in CAPABILITIES)
    else if key[0] in {"Users", "Groups", "Pages"} then |key| == 1 || |key| == 2
    else if key[0] == "Route" then |key| == 1 || (key[1] == "Allow" && (|key| == 2 || |key| == 3))
    else if key[0] == "Services" then
      |key| <= 2 ||
      if key[2] in {"Restart", "RunAsUser", "Checksum", "Allow"} then |key| == 3
      else key[2] == "Params" && (|key| == 3 || |key| == 4)
    else false
  }

  /** The segments of a path that name an entry of a map must not be empty. */
  predicate DynamicKeysOk(path: seq<string>) {
    && path != [] && path[0] != ""
    && (path[0] in {"Users", "Groups", "Pages", "Services"} && |path| >= 2 ==> path[1] != "")
    && (path[0] == "Route" && |path| >= 3 ==> path[2] != "")
    && (path[0] == "Services" && |path| >= 4 ==> path[3] != "")
  }

  /** The kind of value that lives at a path, judged from its shape alone. */
  predicate WellTyped(path: seq<string>, v: Value) {
    && path != []
    && if path[0] in {"Listen", "ServiceDir", "ServiceTempDir"} then v.Text?
       else if path[0] == "TLS" then v.Flag?
       else if path[0] == "Log" then (if |path| == 1 then v.Log? else v.Text?)
       else if path[0] == "API" then (if |path| == 1 then v.API? else v.Flag?)
       else if path[0] in {"Users", "Pages"} then (if |path| == 1 then v.StringMap? else v.Text?)
       else if path[0] == "Groups" then (if |path| == 1 then v.SliceMap? else v.Array?)
       else if path[0] == "Route" then (if |path| == 1 then v.Route? else if |path| == 2 then v.SliceMap? else v.Array?)
       else if path[0] == "Services" then
         if |path| == 1 then v.ServiceMap? else if |path| == 2 then v.Service?
         else if path[2] == "Allow" then v.Array?
         else if path[2] == "Params" then (if |path| == 3 then v.StringMap? else v.Text?)
         else v.Text?
       else true
  }

  /** The editor and the loader speak the same language: a Set is accepted, on any configuration, exactly when the
      loader accepts the key, its dynamic segments are non-empty and the value is of the kind that belongs there. */
  lemma SetAcceptedIff(c: ConfigValue, path: seq<string>, v: Value)
    ensures Apply(c, Set(v), path).Some? <==> ValidTOMLKey(path) && DynamicKeysOk(path) && WellTyped(path, v)
  {
  }

  /** A Remove is accepted on the same paths, and besides anywhere below a service that is not configured. */
  lemma RemoveAcceptedIff(c: ConfigValue, path: seq<string>)
    ensures Apply(c, Remove, path).Some? <==>
      || (ValidTOMLKey(path) && DynamicKeysOk(path))
      || (|path| >= 3 && path[0] == "Services" && path[1] != "" && path[1] !in Entries(c.services))
  {
  }

  // ---------- What an operation means ----------

  /** What a reader finds at a path; Absent is a missing entry of a map. A field of a service that is not
      configured reads as its zero value, as in Go. */
  datatype Found = Absent | Is(value: Value)

  function At<V>(m: Option<map<string, V>>, key: string, wrap: V -> Value): Found {
    if key in Entries(m) then Is(wrap(m.value[key])) else Absent
  }

  function Read(c: ConfigValue, path: seq<string>): Found
    requires path != []
  {
    if path[0] == "Listen" then Is(Text(c.listen))
    else if path[0] == "TLS" then Is(Flag(c.tls))
    else if path[0] == "ServiceDir" then Is(Text(c.serviceDir))
    else if path[0] == "ServiceTempDir" then Is(Text(c.serviceTempDir))
    else if path[0] == "Log" then
      if |path| == 1 then Is(Log(c.log)) else if path[1] == "Format" then Is(Text(c.log.format))
          else Is(Text(c.log.level))
    else if path[0] == "API" then
      if |path| == 1 then Is(API(c.api)) else Is(Flag(Capability(c.api, path[1])))
    else if path[0] == "Users" then
      if |path| == 1 then Is(StringMap(c.users)) else At(c.users, path[1], s => Text(s))
    else if path[0] == "Groups" then
      if |path| == 1 then Is(SliceMap(c.groups)) else At(c.groups, path[1], s => Array(s))
    else if path[0] == "Pages" then
      if |path| == 1 then Is(StringMap(c.pages)) else At(c.pages, path[1], s => Text(s))
    else if path[0] == "Route" then
      if |path| == 1 then Is(Route(c.allow)) else if |path| == 2 then Is(SliceMap(c.allow))
          else At(c.allow, path[2], s => Array(s))
    else if path[0] == "Services" then
      if |path| == 1 then Is(ServiceMap(c.services)) else if |path| == 2 then At(c.services, path[1], s => Service(s))
      else ReadField(ServiceAt(c.services, path[1]), path[2..])
    else Absent
  }

  function ReadField(s: ServiceValue, path: seq<string>): Found
    requires path != []
  {
    if path[0] == "Restart" then Is(Text(s.restart))
    else if path[0] == "RunAsUser" then Is(Text(s.runAsUser))
    else if path[0] == "Checksum" then Is(Text(s.checksum))
    else if path[0] == "Allow" then Is(Array(s.allow))
    else if |path| == 1 then Is(StringMap(s.params))
    else At(s.params, path[1], t => Text(t))
  }

  function Capability(api: APIConfig, capability: string): bool {
    if capability == "User" then api.user
    else if capability == "Group" then api.group
    else if capability == "Pages" then api.pages
    else if capability == "Access" then api.access
    else if capability == "Service" then api.service
    else if capability == "Log" then api.log
    else api.network
  }

  predicate Addressable(path: seq<string>) {
    ValidTOMLKey(path) && DynamicKeysOk(path)
  }

  /** A file may have entries under empty keys, which no operation addresses. */
  predicate Readable(path: seq<string>) {
    ValidTOMLKey(path) && path != []
  }

  /** What was set is found. */
  lemma SetThenRead(c: ConfigValue, path: seq<string>, v: Value)
    requires Addressable(path) && WellTyped(path, v)
    ensures Apply(c, Set(v), path).Some?
    ensures Read(Apply(c, Set(v), path).value, path) == Is(v)
  {
  }

  /** What a reader finds where nothing was ever set. */
  function Nothing(path: seq<string>): Found
    requires path != []
  {
    Read(NO_CONFIG, path)
  }

  /** What was removed is gone. */
  lemma RemoveThenRead(c: ConfigValue, path: seq<string>)
    requires Addressable(path)
    ensures Apply(c, Remove, path).Some?
    ensures Read(Apply(c, Remove, path).value, path) == Nothing(path)
  {
  }

  /** Neither path addresses a part of what the other addresses. */
  predicate Apart(p: seq<string>, q: seq<string>) {
    !(p <= q) && !(q <= p)
  }

  /** c and c' differ at most in the top-level field of that name. */
  predicate SameOutside(c: ConfigValue, c': ConfigValue, field: string) {
    && (field != "Listen" ==> c'.listen == c.listen) && (field != "TLS" ==> c'.tls == c.tls)
    && (field != "Log" ==> c'.log == c.log) && (field != "API" ==> c'.api == c.api)
    && (field != "Users" ==> c'.users == c.users) && (field != "Groups" ==> c'.groups == c.groups)
    && (field != "Route" ==> c'.allow == c.allow) && (field != "Pages" ==> c'.pages == c.pages)
    && (field != "ServiceDir" ==> c'.serviceDir == c.serviceDir)
    && (field != "ServiceTempDir" ==> c'.serviceTempDir == c.serviceTempDir)
    && (field != "Services" ==> c'.services == c.services)
  }

  lemma OtherFieldKept(c: ConfigValue, op: Operation, path: seq<string>)
    requires Apply(c, op, path).Some?
    ensures path != [] && SameOutside(c, Apply(c, op, path).value, path[0])
  {
  }

  lemma OtherFieldUnchanged(c: ConfigValue, c': ConfigValue, field: string, other: seq<string>)
    requires Readable(other) && field != other[0] && SameOutside(c, c', field)
    ensures Read(c', other) == Read(c, other)
  {
  }

  lemma OtherServiceUnchanged(m: Services, op: Operation, path: seq<string>, other: string)
    requires path != [] && other != path[0] && EditServices(m, op, path).Some?
    ensures other in Entries(EditServices(m, op, path).value) <==> other in Entries(m)
    ensures ServiceAt(EditServices(m, op, path).value, other) == ServiceAt(m, other)
  {
  }

  lemma SameServiceUnchanged(m: Services, op: Operation, path: seq<string>, other: seq<string>)
    requires |path| >= 2 && |other| >= 2 && other[0] == path[0] && Apart(path, other) && EditServices(m, op, path).Some?
    requires Addressable(["Services"] + path) && Readable(["Services"] + other)
    ensures ReadField(ServiceAt(EditServices(m, op, path).value, other[0]), other[1..])
            == ReadField(ServiceAt(m, other[0]), other[1..])
  {
    var key := ["Services"] + other;
    assert key[1..] == other && key[2] == other[1];
    assert (["Services"] + path)[2] == path[1];
  }

  lemma ServicesElsewhere(c: ConfigValue, op: Operation, path: seq<string>, other: seq<string>)
    requires Addressable(path) && Readable(other) && Apart(path, other) && path[0] == other[0] == "Services"
    requires Apply(c, op, path).Some?
    ensures Read(Apply(c, op, path).value, other) == Read(c, other)
  {
    var p, o := path[1..], other[1..];
    assert path == ["Services"] + p && other == ["Services"] + o;
    assert other[2..] == o[1..];
    if p[0] != o[0] {
      OtherServiceUnchanged(c.services, op, p, o[0]);
    } else {
      SameServiceUnchanged(c.services, op, p, o);
    }
  }

  lemma RouteElsewhere(c: ConfigValue, op: Operation, path: seq<string>, other: seq<string>)
    requires Addressable(path) && Readable(other) && Apart(path, other) && path[0] == other[0] == "Route"
    requires Apply(c, op, path).Some?
    ensures Read(Apply(c, op, path).value, other) == Read(c, other)
  {
    assert path[1..][1..] == path[2..];
    assert |path| == |other| == 3 && path[2] != other[2];
  }

  lemma CapabilitiesElsewhere(c: ConfigValue, op: Operation, path: seq<string>, other: seq<string>)
    requires Addressable(path) && Readable(other) && Apart(path, other) && path[0] == other[0] == "API"
    requires Apply(c, op, path).Some?
    ensures Read(Apply(c, op, path).value, other) == Read(c, other)
  {
    assert |path| == |other| == 2 && path[1] != other[1];
    OtherCapabilityKept(c.api, path[1], EditFlag(op).value, other[1]);
  }

  lemma CapabilitiesKept(api: APIConfig, capability: string, b: bool)
    requires capability in CAPABILITIES
    ensures WithCapability(api, capability, b).Some?
    ensures var r := WithCapability(api, capability, b).value;
            && (capability != "User" ==> r.user == api.user) && (capability != "Group" ==> r.group == api.group)
            && (capability != "Pages" ==> r.pages == api.pages) && (capability != "Access" ==> r.access == api.access)
            && (capability != "Service" ==> r.service == api.service) && (capability != "Log" ==> r.log == api.log)
            && (capability != "Network" ==> r.network == api.network)
  {
    if capability == "User" {
    } else if capability == "Group" {
    } else if capability == "Pages" {
    } else if capability == "Access" {
    } else if capability == "Service" {
    } else if capability == "Log" {
    } else {
      assert capability == "Network";
    }
  }

  lemma OtherCapabilityKept(api: APIConfig, capability: string, b: bool, other: string)
    requires capability in CAPABILITIES && other in CAPABILITIES && capability != other
    ensures WithCapability(api, capability, b).Some?
    ensures Capability(WithCapability(api, capability, b).value, other) == Capability(api, other)
  {
    CapabilitiesKept(api, capability, b);
  }

  lemma MapsElsewhere(c: ConfigValue, op: Operation, path: seq<string>, other: seq<string>)
    requires Addressable(path) && Readable(other) && Apart(path, other)
    requires path[0] == other[0] && path[0] !in {"Services", "Route", "API"}
    requires Apply(c, op, path).Some?
    ensures Read(Apply(c, op, path).value, other) == Read(c, other)
  {
  }

  /** An operation changes nothing that its path does not contain or belong to. */
  lemma ElsewhereUnchanged(c: ConfigValue, op: Operation, path: seq<string>, other: seq<string>)
    requires Addressable(path) && Readable(other) && Apart(path, other)
    requires Apply(c, op, path).Some?
    ensures Read(Apply(c, op, path).value, other) == Read(c, other)
  {
    if path[0] != other[0] {
      OtherFieldKept(c, op, path);
      OtherFieldUnchanged(c, Apply(c, op, path).value, path[0], other);
    } else if path[0] == "Services" { ServicesElsewhere(c, op, path, other); }
    else if path[0] == "Route" { RouteElsewhere(c, op, path, other); }
    else if path[0] == "API" { CapabilitiesElsewhere(c, op, path, other); }
    else { MapsElsewhere(c, op, path, other); }
  }
}

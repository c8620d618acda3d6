/** The copy-on-write editor. A configuration holds maps by reference, as in Go; the editor starts out sharing every
    map with the configuration it edits and copies a map the first time it writes to it. */
module ConfigEditor {
  import opened Text
  import V = ConfigValues

  class StringMap {
    var m: map<string, string>

    constructor (m: map<string, string>)
      ensures this.m == m
    {
      this.m := m;
    }
  }

  /** A list of strings. It is shared by reference and never written to. */
  class StringList {
    const items: seq<string>

    constructor (items: seq<string>)
      ensures this.items == items
    {
      this.items := items;
    }
  }

  class SliceMap {
    var m: map<string, StringList?>

    constructor (m: map<string, StringList?>)
      ensures this.m == m
    {
      this.m := m;
    }
  }

  datatype Service = Service(restart: string, runAsUser: string, checksum: string, allow: StringList?,
                             params: StringMap?)

  class ServiceMap {
    var m: map<string, Service>

    constructor (m: map<string, Service>)
      ensures this.m == m
    {
      this.m := m;
    }
  }

  datatype Config = Config(
    listen: string, tls: bool, log: V.LogConfig, api: V.APIConfig,
    users: StringMap?, groups: SliceMap?, allow: SliceMap?,
    serviceDir: string, serviceTempDir: string, services: ServiceMap?, pages: StringMap?)

  datatype Value =
    | Text(s: string)
    | Flag(b: bool)
    | Log(log: V.LogConfig)
    | API(api: V.APIConfig)
    | Strings(strings: StringMap?)
    | Array(slice: StringList?)
    | Slices(slices: SliceMap?)
    | Route(allow: SliceMap?)
    | AService(service: Service)
    | Services(services: ServiceMap?)
    | Foreign

  datatype Operation = Set(value: Value) | Remove | Unknown

  // ---------- The value behind the references ----------

  function StringsOf(p: StringMap?): V.Strings
    reads p
  {
    if p == null then None else Some(p.m)
  }

  function SliceOf(l: StringList?): V.Slice {
    if l == null then None else Some(l.items)
  }

  function SliceValues(m: map<string, StringList?>): map<string, V.Slice> {
    map g | g in m :: SliceOf(m[g])
  }

  function SlicesOf(p: SliceMap?): V.Slices
    reads p
  {
    if p == null then None else Some(SliceValues(p.m))
  }

  function ServiceOf(s: Service): V.ServiceValue
    reads s.params
  {
    V.ServiceValue(s.restart, s.runAsUser, s.checksum, SliceOf(s.allow), StringsOf(s.params))
  }

  ghost function ParamsOf(m: map<string, Service>): set<StringMap> {
    set n | n in m && m[n].params != null :: m[n].params
  }

  function ValuesOf(m: map<string, Service>): map<string, V.ServiceValue>
    reads ParamsOf(m)
  {
    map n | n in m :: ServiceOf(m[n])
  }

  function EntriesOf(p: ServiceMap?): map<string, Service>
    reads p
  {
    if p == null then map[] else p.m
  }

  ghost function ParamsIn(p: ServiceMap?): set<StringMap>
    reads p
  {
    ParamsOf(EntriesOf(p))
  }

  function ServicesOf(p: ServiceMap?): V.Services
    reads p, ParamsIn(p)
  {
    if p == null then None else Some(ValuesOf(p.m))
  }

  lemma EntriesAgree(p: ServiceMap?)
    ensures V.Entries(ServicesOf(p)) == ValuesOf(EntriesOf(p))
  {
    if p == null { assert ValuesOf(map[]) == map[]; }
  }

  ghost function Just(o: object?): set<object> {
    if o == null then {} else {o}
  }

  /** Every map that can be reached from a configuration. */
  ghost function Maps(c: Config): set<object>
    reads c.services
  {
    Just(c.users) + Just(c.groups) + Just(c.allow) + Just(c.services) + Just(c.pages) + ParamsIn(c.services)
  }

  function ValueOf(c: Config): V.ConfigValue
    reads Maps(c), c.services
  {
    V.ConfigValue(c.listen, c.tls, c.log, c.api, StringsOf(c.users), SlicesOf(c.groups), SlicesOf(c.allow),
                  c.serviceDir, c.serviceTempDir, ServicesOf(c.services), StringsOf(c.pages))
  }

  ghost function ListsIn(p: SliceMap?): set<StringList>
    reads p
  {
    if p == null then {} else set g | g in p.m && p.m[g] != null :: p.m[g]
  }

  ghost function AllowOf(m: map<string, Service>): set<StringList> {
    set n | n in m && m[n].allow != null :: m[n].allow
  }

  ghost function AllowIn(p: ServiceMap?): set<StringList>
    reads p
  {
    AllowOf(EntriesOf(p))
  }

  lemma AllowPut(m: map<string, Service>, name: string, service: Service)
    ensures forall l :: l in AllowOf(m[name := service]) ==> l in AllowOf(m) || l == service.allow
    ensures name in m && m[name].allow != null ==> m[name].allow in AllowOf(m)
  {
  }

  /** Every list that can be reached from a configuration. */
  ghost function ListsOf(c: Config): set<StringList>
    reads c.groups, c.allow, c.services
  {
    ListsIn(c.groups) + ListsIn(c.allow) + AllowIn(c.services)
  }

  /** Everything that can be reached from a configuration. */
  ghost function Parts(c: Config): set<object>
    reads c.groups, c.allow, c.services
  {
    Maps(c) + ListsOf(c)
  }

  ghost function Carried(op: Operation): ServiceMap? {
    if op.Set? && op.value.Services? then op.value.services else null
  }

  /** Every map that can be reached from an operation. */
  ghost function OpMaps(op: Operation): set<object>
    reads Carried(op)
  {
    match op
    case Set(Strings(p)) => Just(p)
    case Set(Slices(p)) => Just(p)
    case Set(Route(p)) => Just(p)
    case Set(AService(s)) => Just(s.params)
    case Set(Services(p)) => Just(p) + ParamsIn(p)
    case _ => {}
  }

  function OpValue(op: Operation): V.Operation
    reads OpMaps(op), Carried(op)
  {
    match op
    case Remove => V.Remove
    case Unknown => V.Unknown
    case Set(Text(s)) => V.Set(V.Text(s))
    case Set(Flag(b)) => V.Set(V.Flag(b))
    case Set(Log(log)) => V.Set(V.Log(log))
    case Set(API(api)) => V.Set(V.API(api))
    case Set(Strings(p)) => V.Set(V.StringMap(StringsOf(p)))
    case Set(Array(l)) => V.Set(V.Array(SliceOf(l)))
    case Set(Slices(p)) => V.Set(V.SliceMap(SlicesOf(p)))
    case Set(Route(p)) => V.Set(V.Route(SlicesOf(p)))
    case Set(AService(s)) => V.Set(V.Service(ServiceOf(s)))
    case Set(Services(p)) => V.Set(V.ServiceMap(ServicesOf(p)))
    case Set(Foreign) => V.Set(V.Foreign)
  }

  /** What an operation carries stays what it is as long as nobody writes to its maps. */
  twostate lemma OpStays(op: Operation)
    requires unchanged(old(OpMaps(op)))
    ensures OpMaps(op) == old(OpMaps(op)) && OpValue(op) == old(OpValue(op))
  {
    if op.Set? && op.value.Services? {
      assert ValuesOf(EntriesOf(op.value.services)) == old(ValuesOf(EntriesOf(op.value.services)));
    }
  }

  // ---------- Copies ----------

  method CloneStrings(p: StringMap?) returns (q: StringMap?)
    ensures StringsOf(q) == StringsOf(p) && (q != null ==> fresh(q))
  {
    if p == null { return null; }
    q := new StringMap(p.m);
  }

  method CloneSlice(l: StringList?) returns (k: StringList?)
    ensures SliceOf(k) == SliceOf(l) && (k != null ==> fresh(k))
  {
    if l == null { return null; }
    k := new StringList(l.items);
  }

  method CloneSlices(p: SliceMap?) returns (q: SliceMap?)
    ensures SlicesOf(q) == SlicesOf(p) && (q != null ==> fresh(q))
    ensures q != null ==> forall g :: g in q.m && q.m[g] != null ==> fresh(q.m[g])
  {
    if p == null { return null; }
    var out: map<string, StringList?> := map[];
    var todo := p.m.Keys;
    while todo != {}
      invariant todo <= p.m.Keys && out.Keys == p.m.Keys - todo
      invariant forall g :: g in out ==> SliceOf(out[g]) == SliceOf(p.m[g]) && (out[g] != null ==> fresh(out[g]))
    {
      var g :| g in todo;
      var copy := CloneSlice(p.m[g]);
      out := out[g := copy];
      todo := todo - {g};
    }
    q := new SliceMap(out);
    assert SliceValues(out) == SliceValues(p.m);
  }

  method CloneService(s: Service) returns (t: Service)
    ensures ServiceOf(t) == ServiceOf(s) && (t.params != null ==> fresh(t.params))
            && (t.allow != null ==> fresh(t.allow))
  {
    var params := CloneStrings(s.params);
    var allow := CloneSlice(s.allow);
    t := s.(params := params, allow := allow);
  }

  method CloneServices(p: ServiceMap?) returns (q: ServiceMap?)
    ensures ServicesOf(q) == ServicesOf(p) && (q == null <==> p == null)
    ensures q != null ==> fresh(q) && fresh(ParamsIn(q)) && q.m.Keys == p.m.Keys
    ensures q != null ==> Distinct(q.m) && forall n :: n in q.m && q.m[n].allow != null ==> fresh(q.m[n].allow)
  {
    if p == null { return null; }
    var out: map<string, Service> := map[];
    var todo := p.m.Keys;
    while todo != {}
      invariant todo <= p.m.Keys && out.Keys == p.m.Keys - todo
      invariant forall n :: n in out ==>
                  && ServiceOf(out[n]) == ServiceOf(p.m[n])
                  && (out[n].params != null ==> fresh(out[n].params)) && (out[n].allow != null ==> fresh(out[n].allow))
      invariant Distinct(out)
    {
      var name :| name in todo;
      var copy := CloneService(p.m[name]);
      out := out[name := copy];
      todo := todo - {name};
    }
    q := new ServiceMap(out);
    assert q.m == out;
    assert ValuesOf(out) == ValuesOf(p.m);
  }

  // ---------- The body shared by applyUsers and applyPages, and by applyGroups and applyRoute ----------

  ghost predicate Grown(before: object?, owned: bool, after: object?, nowOwned: bool)
  {
    (owned ==> nowOwned) && (!nowOwned ==> after == before)
  }

  method EditStrings(p: StringMap?, owned: bool, op: Operation, path: seq<string>)
    returns (ok: bool, q: StringMap?, nowOwned: bool)
    requires owned && p != null ==> p !in OpMaps(op)
    modifies if owned then Just(p) else {}
    ensures Grown(p, owned, q, nowOwned) && (q == p || q == null || fresh(q))
            && (nowOwned && !owned && q != null ==> fresh(q))
    ensures V.EditStringsPath(old(StringsOf(p)), old(OpValue(op)), path) == if ok then Some(StringsOf(q)) else None
  {
    q, nowOwned := p, owned;
    if path == [] {
      match op
      case Set(Strings(value)) =>
        q := CloneStrings(value);
        return true, q, true;
      case Remove => return true, null, true;
      case _ => return false, q, nowOwned;
    }
    if |path| != 1 || path[0] == "" { return false, q, nowOwned; }
    var key := path[0];
    if op.Remove? && (q == null || key !in q.m) { return true, q, nowOwned; }
    if !nowOwned {
      q := CloneStrings(q);
      nowOwned := true;
    }
    if q == null { q := new StringMap(map[]); }
    match op
    case Set(Text(value)) =>
      q.m := q.m[key := value];
      ok := true;
    case Remove =>
      q.m := q.m - {key};
      ok := true;
    case _ => ok := false;
  }

  method EditSlices(p: SliceMap?, owned: bool, op: Operation, path: seq<string>)
    returns (ok: bool, q: SliceMap?, nowOwned: bool)
    requires owned && p != null ==> p !in OpMaps(op)
    modifies if owned then Just(p) else {}
    ensures Grown(p, owned, q, nowOwned) && (q == p || q == null || fresh(q))
            && (nowOwned && !owned && q != null ==> fresh(q))
    ensures V.EditSlicesPath(old(SlicesOf(p)), old(OpValue(op)), path) == if ok then Some(SlicesOf(q)) else None
    ensures forall l :: l in ListsIn(q) ==> l in old(ListsIn(p)) || fresh(l)
  {
    q, nowOwned := p, owned;
    if path == [] {
      match op
      case Set(Slices(value)) =>
        q := CloneSlices(value);
        return true, q, true;
      case Remove => return true, null, true;
      case _ => return false, q, nowOwned;
    }
    if |path| != 1 || path[0] == "" { return false, q, nowOwned; }
    var key := path[0];
    if op.Remove? && (q == null || key !in q.m) { return true, q, nowOwned; }
    if !nowOwned {
      q := CloneSlices(q);
      nowOwned := true;
    }
    if q == null { q := new SliceMap(map[]); }
    match op
    case Set(Array(value)) =>
      var copy := CloneSlice(value);
      assert SliceValues(q.m[key := copy]) == SliceValues(q.m)[key := SliceOf(copy)];
      q.m := q.m[key := copy];
      ok := true;
    case Remove =>
      assert SliceValues(q.m - {key}) == SliceValues(q.m) - {key};
      q.m := q.m - {key};
      ok := true;
    case _ => ok := false;
  }

  // ---------- The editor ----------

  /** The places of a configuration that hold a map. */
  datatype Place = InUsers | InGroups | InAllow | InServices | InPages | InParams(name: string)

  ghost function MapAt(c: Config, entries: map<string, Service>, place: Place): object? {
    match place
    case InUsers => c.users
    case InGroups => c.groups
    case InAllow => c.allow
    case InServices => c.services
    case InPages => c.pages
    case InParams(n) => if n in entries then entries[n].params else null
  }

  type Ledger = map<object, Place>

  /** A map is the editor's own, made for the place it is in, exactly when it is flagged so; otherwise it is still
      one of the configuration the editor started from. */
  ghost predicate Slot(p: object?, owned: bool, place: Place, made: Ledger, shared: set<object>) {
    p != null ==> if owned then p in made && made[p] == place else p in shared && p !in made
  }

  ghost predicate Distinct(m: map<string, Service>) {
    forall n, k :: n in m && k in m && n != k && m[n].params != null ==> m[n].params != m[k].params
  }

  ghost function ParamLedger(m: map<string, Service>): (params: Ledger)
    requires Distinct(m)
    ensures params.Keys == ParamsOf(m)
    ensures forall n :: n in m && m[n].params != null ==> params[m[n].params] == InParams(n)
  {
    map n | n in m && m[n].params != null :: m[n].params as object := InParams(n)
  }

  predicate SameMaps(c: Config, d: Config) {
    c.users == d.users && c.groups == d.groups && c.allow == d.allow && c.services == d.services && c.pages == d.pages
  }

  function WithText(c: Config, field: string, s: string): Config {
    if field == "Listen" then c.(listen := s)
    else if field == "ServiceDir" then c.(serviceDir := s)
    else c.(serviceTempDir := s)
  }

  class Editor {
    var next: Config
    var usersOwned: bool
    var groupsOwned: bool
    var allowOwned: bool
    var servicesOwned: bool
    var pagesOwned: bool
    var paramsOwned: set<string>
    ghost var made: Ledger             // every map the editor has made, and what for
    ghost const shared: set<object>    // every map of the configuration it started from

    ghost predicate Owns(place: Place)
      reads this
    {
      match place
      case InUsers => usersOwned
      case InGroups => groupsOwned
      case InAllow => allowOwned
      case InServices => servicesOwned
      case InPages => pagesOwned
      case InParams(n) => n in paramsOwned
    }

    ghost predicate Holds(place: Place)
      reads this, next.services
    {
      Slot(MapAt(next, EntriesOf(next.services), place), Owns(place), place, made, shared)
    }

    ghost predicate Valid()
      reads this, next.services
    {
      this !in made && this !in shared && forall place :: Holds(place)
    }

    /** newEditor. */
    constructor (current: Config)
      ensures Valid() && next == current && made == map[] && shared == Maps(current)
    {
      next := current;
      usersOwned, groupsOwned, allowOwned, servicesOwned, pagesOwned := false, false, false, false, false;
      paramsOwned := {};
      made := map[];
      shared := Maps(current);
    }

    /** The editor is as good as before, and whatever it has made since is new. */
    twostate predicate Kept()
      reads this, next.services, next.groups, next.allow
    {
      && Valid() && old(made.Keys) <= made.Keys && fresh(made.Keys - old(made.Keys))
      && forall l :: l in ListsOf(next) ==> l in old(ListsOf(next)) || fresh(l)
    }

    /** A place may be given back its own map, null, or a map that is new to the editor. */
    ghost predicate Replaces(p: object?, wasOwned: bool, q: object?, owned: bool)
      reads this
    {
      && (wasOwned ==> owned)
      && (q != null ==> if q == p then owned == wasOwned else owned && q !in made && q !in shared)
    }

    method PutUsers(p: StringMap?, owned: bool)
      requires Valid() && Replaces(next.users, usersOwned, p, owned)
      modifies `next, `usersOwned, `made
      ensures Valid() && next == old(next).(users := p)
      ensures made.Keys == old(made.Keys) + (if p == old(next.users) then {} else Just(p))
    {
      if p != null && p != next.users { made := made[p as object := InUsers]; }
      next := next.(users := p);
      usersOwned := owned;
      forall place ensures Holds(place) { assert old(Holds(place)); }
    }

    method EditUsers(op: Operation, path: seq<string>) returns (ok: bool, p: StringMap?, owned: bool)
      requires Valid() && OpMaps(op) !! made.Keys
      modifies if usersOwned then Just(next.users) else {}
      ensures Valid() && Replaces(next.users, usersOwned, p, owned)
      ensures V.EditStringsPath(old(StringsOf(next.users)), old(OpValue(op)), path)
              == if ok then Some(StringsOf(p)) else None
      ensures ListsOf(next) == old(ListsOf(next))
      ensures p == next.users || p == null || fresh(p)
    {
      assert Holds(InUsers);
      ok, p, owned := EditStrings(next.users, usersOwned, op, path);
      forall place ensures Holds(place) { assert old(Holds(place)); }
    }

    method ApplyUsers(op: Operation, path: seq<string>) returns (ok: bool)
      requires Valid() && OpMaps(op) !! made.Keys
      modifies this, if usersOwned then Just(next.users) else {}
      ensures V.EditStringsPath(old(StringsOf(next.users)), old(OpValue(op)), path)
              == if ok then Some(StringsOf(next.users)) else None
      ensures next == old(next).(users := next.users) && Kept()
    {
      var users, owned;
      ok, users, owned := EditUsers(op, path);
      PutUsers(users, owned);
    }

    method PutPages(p: StringMap?, owned: bool)
      requires Valid() && Replaces(next.pages, pagesOwned, p, owned)
      modifies `next, `pagesOwned, `made
      ensures Valid() && next == old(next).(pages := p)
      ensures made.Keys == old(made.Keys) + (if p == old(next.pages) then {} else Just(p))
    {
      if p != null && p != next.pages { made := made[p as object := InPages]; }
      next := next.(pages := p);
      pagesOwned := owned;
      forall place ensures Holds(place) { assert old(Holds(place)); }
    }

    method EditPages(op: Operation, path: seq<string>) returns (ok: bool, p: StringMap?, owned: bool)
      requires Valid() && OpMaps(op) !! made.Keys
      modifies if pagesOwned then Just(next.pages) else {}
      ensures Valid() && Replaces(next.pages, pagesOwned, p, owned)
      ensures V.EditStringsPath(old(StringsOf(next.pages)), old(OpValue(op)), path)
              == if ok then Some(StringsOf(p)) else None
      ensures ListsOf(next) == old(ListsOf(next))
      ensures p == next.pages || p == null || fresh(p)
    {
      assert Holds(InPages);
      ok, p, owned := EditStrings(next.pages, pagesOwned, op, path);
      forall place ensures Holds(place) { assert old(Holds(place)); }
    }

    method ApplyPages(op: Operation, path: seq<string>) returns (ok: bool)
      requires Valid() && OpMaps(op) !! made.Keys
      modifies this, if pagesOwned then Just(next.pages) else {}
      ensures V.EditStringsPath(old(StringsOf(next.pages)), old(OpValue(op)), path)
              == if ok then Some(StringsOf(next.pages)) else None
      ensures next == old(next).(pages := next.pages) && Kept()
    {
      var pages, owned;
      ok, pages, owned := EditPages(op, path);
      PutPages(pages, owned);
    }

    method PutGroups(p: SliceMap?, owned: bool)
      requires Valid() && Replaces(next.groups, groupsOwned, p, owned)
      modifies `next, `groupsOwned, `made
      ensures Valid() && next == old(next).(groups := p)
      ensures made.Keys == old(made.Keys) + (if p == old(next.groups) then {} else Just(p))
    {
      if p != null && p != next.groups { made := made[p as object := InGroups]; }
      next := next.(groups := p);
      groupsOwned := owned;
      forall place ensures Holds(place) { assert old(Holds(place)); }
    }

    method EditGroups(op: Operation, path: seq<string>) returns (ok: bool, p: SliceMap?, owned: bool)
      requires Valid() && OpMaps(op) !! made.Keys
      modifies if groupsOwned then Just(next.groups) else {}
      ensures Valid() && Replaces(next.groups, groupsOwned, p, owned)
      ensures V.EditSlicesPath(old(SlicesOf(next.groups)), old(OpValue(op)), path)
              == if ok then Some(SlicesOf(p)) else None
      ensures ListsIn(next.allow) == old(ListsIn(next.allow))
      ensures forall l :: l in ListsIn(p) ==> l in old(ListsIn(next.groups)) || fresh(l)
      ensures p == next.groups || p == null || fresh(p)
    {
      assert Holds(InGroups) && Holds(InAllow);
      ok, p, owned := EditSlices(next.groups, groupsOwned, op, path);
      forall place ensures Holds(place) { assert old(Holds(place)); }
    }

    method ApplyGroups(op: Operation, path: seq<string>) returns (ok: bool)
      requires Valid() && OpMaps(op) !! made.Keys
      modifies this, if groupsOwned then Just(next.groups) else {}
      ensures V.EditSlicesPath(old(SlicesOf(next.groups)), old(OpValue(op)), path)
              == if ok then Some(SlicesOf(next.groups)) else None
      ensures next == old(next).(groups := next.groups) && Kept()
    {
      var groups, owned;
      ok, groups, owned := EditGroups(op, path);
      PutGroups(groups, owned);
    }

    method PutAllow(p: SliceMap?, owned: bool)
      requires Valid() && Replaces(next.allow, allowOwned, p, owned)
      modifies `next, `allowOwned, `made
      ensures Valid() && next == old(next).(allow := p)
      ensures made.Keys == old(made.Keys) + (if p == old(next.allow) then {} else Just(p))
    {
      if p != null && p != next.allow { made := made[p as object := InAllow]; }
      next := next.(allow := p);
      allowOwned := owned;
      forall place ensures Holds(place) { assert old(Holds(place)); }
    }

    method EditAllow(op: Operation, path: seq<string>) returns (ok: bool, p: SliceMap?, owned: bool)
      requires Valid() && OpMaps(op) !! made.Keys
      modifies if allowOwned then Just(next.allow) else {}
      ensures Valid() && Replaces(next.allow, allowOwned, p, owned)
      ensures V.EditSlicesPath(old(SlicesOf(next.allow)), old(OpValue(op)), path)
              == if ok then Some(SlicesOf(p)) else None
      ensures ListsIn(next.groups) == old(ListsIn(next.groups))
      ensures forall l :: l in ListsIn(p) ==> l in old(ListsIn(next.allow)) || fresh(l)
      ensures p == next.allow || p == null || fresh(p)
    {
      assert Holds(InAllow) && Holds(InGroups);
      ok, p, owned := EditSlices(next.allow, allowOwned, op, path);
      forall place ensures Holds(place) { assert old(Holds(place)); }
    }

    method ApplyAllow(op: Operation, path: seq<string>) returns (ok: bool)
      requires Valid() && OpMaps(op) !! made.Keys
      modifies this, if allowOwned then Just(next.allow) else {}
      ensures V.EditSlicesPath(old(SlicesOf(next.allow)), old(OpValue(op)), path)
              == if ok then Some(SlicesOf(next.allow)) else None
      ensures next == old(next).(allow := next.allow) && Kept()
    {
      var allow, owned;
      ok, allow, owned := EditAllow(op, path);
      PutAllow(allow, owned);
    }

    /** The services' own map, or a shallow copy of it if the editor does not own it. */
    method WritableServices() returns (services: ServiceMap)
      requires Valid()
      ensures services.m == EntriesOf(next.services)
      ensures fresh(services) || (servicesOwned && services == next.services)
    {
      if next.services != null && servicesOwned {
        return next.services;
      }
      services := new ServiceMap(EntriesOf(next.services));
    }

    /** A new map of services goes into the ledger. */
    ghost method OwnServices(services: ServiceMap)
      requires Valid()
      requires (services == next.services && servicesOwned) || (services !in made && services !in shared)
      modifies `made
      ensures Valid() && services in made && made[services] == InServices
      ensures made.Keys == old(made.Keys) + (if services == next.services then {} else {services})
    {
      assert Holds(InServices);
      if services != next.services {
        Enter(map[services as object := InServices]);
      }
    }

    method PutServices(services: ServiceMap)
      requires Valid() && services.m == EntriesOf(next.services)
      requires services in made && made[services] == InServices
      modifies `next, `servicesOwned
      ensures Valid() && servicesOwned && next == old(next).(services := services)
    {
      next := next.(services := services);
      servicesOwned := true;
      forall place ensures Holds(place) { assert old(Holds(place)); }
    }

    method EnsureServices()
      requires Valid()
      modifies this
      ensures Kept() && next == old(next).(services := next.services) && next.services != null
      ensures EntriesOf(next.services) == old(EntriesOf(next.services))
      ensures servicesOwned && paramsOwned == old(paramsOwned)
      ensures ValuesOf(next.services.m) == old(ValuesOf(EntriesOf(next.services)))
      ensures fresh(next.services) || (old(servicesOwned) && next.services == old(next.services))
    {
      var services := WritableServices();
      OwnServices(services);
      PutServices(services);
    }

    /** The parameters that service `name` is about to get, in the ledger. */
    method NoteParams(name: string, before: StringMap?, params: StringMap?, owned: bool)
      requires Valid() && before == MapAt(next, EntriesOf(next.services), InParams(name))
      requires Replaces(before, name in paramsOwned, params, owned)
      modifies `made, `paramsOwned
      ensures Slot(params, Owns(InParams(name)), InParams(name), made, shared)
      ensures forall place :: place != InParams(name) ==> Owns(place) == old(Owns(place)) && Holds(place)
      ensures this !in made && made.Keys == old(made.Keys) + (if params == before then {} else Just(params))
    {
      assert Holds(InParams(name));
      if params != null && params != before { made := made[params as object := InParams(name)]; }
      if owned { paramsOwned := paramsOwned + {name}; }
      forall place | place != InParams(name) ensures Owns(place) == old(Owns(place)) && Holds(place) {
        assert old(Holds(place));
      }
    }

    /** applyParams: works on a copy of the service that the caller writes back only on success. */
    method ApplyParams(name: string, service: Service, op: Operation, path: seq<string>)
      returns (ok: bool, edited: Service)
      requires Valid() && OpMaps(op) !! made.Keys
      requires service.params == MapAt(next, EntriesOf(next.services), InParams(name))
      modifies this, if name in paramsOwned then Just(service.params) else {}
      ensures V.EditStringsPath(old(StringsOf(service.params)), old(OpValue(op)), path)
              == if ok then Some(StringsOf(edited.params)) else None
      ensures edited == service.(params := edited.params) && next == old(next)
      ensures EntriesOf(next.services) == old(EntriesOf(next.services))
      ensures Slot(edited.params, Owns(InParams(name)), InParams(name), made, shared)
      ensures forall place :: place != InParams(name) ==> Owns(place) == old(Owns(place)) && Holds(place)
      ensures this !in made && this !in shared && old(made.Keys) <= made.Keys && fresh(made.Keys - old(made.Keys))
    {
      assert Holds(InParams(name));
      var params, owned;
      ok, params, owned := EditStrings(service.params, name in paramsOwned, op, path);
      assert EntriesOf(next.services) == old(EntriesOf(next.services));
      forall place ensures Holds(place) { assert old(Holds(place)); }
      NoteParams(name, service.params, params, owned);
      edited := service.(params := params);
    }

    /** The rest of applyServiceField once the service is at hand. */
    method ApplyField(name: string, service: Service, op: Operation, path: seq<string>)
      returns (ok: bool, edited: Service)
      requires Valid() && OpMaps(op) !! made.Keys && path != []
      requires service.params == MapAt(next, EntriesOf(next.services), InParams(name))
      modifies this, if name in paramsOwned then Just(service.params) else {}
      ensures V.EditServiceField(old(ServiceOf(service)), old(OpValue(op)), path)
              == if ok then Some(ServiceOf(edited)) else None
      ensures edited.allow != null ==> edited.allow == service.allow || fresh(edited.allow)
      ensures next == old(next) && EntriesOf(next.services) == old(EntriesOf(next.services))
      ensures Slot(edited.params, Owns(InParams(name)), InParams(name), made, shared)
      ensures forall place :: place != InParams(name) ==> Owns(place) == old(Owns(place)) && Holds(place)
      ensures this !in made && this !in shared && old(made.Keys) <= made.Keys && fresh(made.Keys - old(made.Keys))
    {
      assert Holds(InParams(name));
      if path[0] == "Params" {
        ok, edited := ApplyParams(name, service, op, path[1..]);
      } else {
        ok, edited := EditPlainField(service, op, path);
        assert EntriesOf(next.services) == old(EntriesOf(next.services));
      }
    }

    /** Puts a service into the editor's own map of services. */
    method PutService(name: string, service: Service)
      requires this !in made && this !in shared && forall place :: place != InParams(name) ==> Holds(place)
      requires Slot(service.params, Owns(InParams(name)), InParams(name), made, shared)
      requires servicesOwned && next.services != null
      modifies next.services
      ensures Valid()
      ensures next.services.m == old(next.services.m)[name := service]
      ensures ValuesOf(next.services.m) == old(ValuesOf(next.services.m)[name := ServiceOf(service)])
    {
      next.services.m := next.services.m[name := service];
      forall place ensures Holds(place) { assert place != InParams(name) ==> old(Holds(place)); }
    }

    /** Drops a service from the editor's own map of services. */
    method DropService(name: string)
      requires Valid() && servicesOwned && next.services != null
      modifies this, next.services
      ensures Valid() && made == old(made) && next == old(next)
      ensures next.services.m == old(next.services.m) - {name}
      ensures ValuesOf(next.services.m) == old(ValuesOf(next.services.m)) - {name}
    {
      next.services.m := next.services.m - {name};
      paramsOwned := paramsOwned - {name};
      forall place ensures Holds(place) { assert old(Holds(place)); }
    }

    /** The maps of the services that the editor may write to. */
    ghost function ServiceMaps(): set<object>
      reads this, next.services
    {
      (if servicesOwned then Just(next.services) else {}) +
      (set n | n in paramsOwned && n in EntriesOf(next.services) && EntriesOf(next.services)[n].params != null
         :: EntriesOf(next.services)[n].params as object)
    }

    /** Distinct services have distinct parameters, if the editor owns them. */
    lemma ParamsApart(name: string, params: StringMap)
      requires Valid() && next.services != null && name in paramsOwned
      requires params == MapAt(next, next.services.m, InParams(name))
      ensures forall n :: n in next.services.m && n != name ==> next.services.m[n].params != params
    {
      forall n | n in next.services.m && n != name ensures next.services.m[n].params != params {
        assert Holds(InParams(n)) && Holds(InParams(name));
      }
    }

    /** The edit of one service, seen from the others. */
    method EditApart(name: string, service: Service, op: Operation, path: seq<string>)
      returns (ok: bool, edited: Service)
      requires Valid() && OpMaps(op) !! made.Keys && path != [] && servicesOwned && next.services != null
      requires service.params == MapAt(next, next.services.m, InParams(name))
      modifies this, if name in paramsOwned then Just(service.params) else {}
      ensures V.EditServiceField(old(ServiceOf(service)), old(OpValue(op)), path)
              == if ok then Some(ServiceOf(edited)) else None
      ensures edited.allow != null ==> edited.allow == service.allow || fresh(edited.allow)
      ensures next == old(next) && next.services.m == old(next.services.m) && servicesOwned
      ensures forall n :: n in next.services.m && n != name ==>
              ServiceOf(next.services.m[n]) == old(ServiceOf(next.services.m[n]))
      ensures ListsOf(next) == old(ListsOf(next))
      ensures Slot(edited.params, Owns(InParams(name)), InParams(name), made, shared)
      ensures forall place :: place != InParams(name) ==> Holds(place)
      ensures this !in made && this !in shared && old(made.Keys) <= made.Keys && fresh(made.Keys - old(made.Keys))
    {
      if name in paramsOwned && service.params != null {
        ParamsApart(name, service.params);
      }
      assert Owns(InServices);
      ok, edited := ApplyField(name, service, op, path);
      assert EntriesOf(next.services) == next.services.m;
      assert Owns(InServices);
    }

    /** Puts an edited service back, whose list is the one it had or a new one. */
    method PutEdited(name: string, allow: StringList?, service: Service)
      requires this !in made && this !in shared && forall place :: place != InParams(name) ==> Holds(place)
      requires Slot(service.params, Owns(InParams(name)), InParams(name), made, shared)
      requires servicesOwned && next.services != null
      requires name in next.services.m ==> next.services.m[name].allow == allow
      requires name !in next.services.m ==> allow == null
      modifies next.services
      ensures Valid()
      ensures ValuesOf(next.services.m) == old(ValuesOf(next.services.m)[name := ServiceOf(service)])
      ensures forall l :: l in ListsOf(next) ==> l in old(ListsOf(next)) || (l == service.allow && l != allow)
    {
      AllowPut(next.services.m, name, service);
      PutService(name, service);
    }

    lemma SameElsewhere(before: map<string, V.ServiceValue>, now: map<string, V.ServiceValue>, name: string,
                        v: V.ServiceValue)
      requires now.Keys == before.Keys && forall n :: n in before && n != name ==> now[n] == before[n]
      ensures now[name := v] == before[name := v]
    {
    }

    method EditService(name: string, op: Operation, path: seq<string>) returns (ok: bool)
      requires Valid() && OpMaps(op) !! made.Keys && path != [] && servicesOwned && next.services != null
      modifies this, next.services, if name in paramsOwned
               then Just(MapAt(next, EntriesOf(next.services), InParams(name))) else {}
      ensures next == old(next) && (ok ==> Kept())
      ensures var values := old(ValuesOf(next.services.m));
        match V.EditServiceField(V.ServiceAt(Some(values), name), old(OpValue(op)), path)
        case None => !ok
        case Some(s) => ok && ValuesOf(next.services.m) == values[name := s]
    {
      ghost var values := ValuesOf(next.services.m);
      var service := if name in next.services.m then next.services.m[name] else Service("", "", "", null, null);
      assert V.ServiceAt(Some(values), name) == ServiceOf(service);
      var edited;
      ok, edited := EditApart(name, service, op, path);
      if ok {
        SameElsewhere(values, ValuesOf(next.services.m), name, ServiceOf(edited));
        PutEdited(name, service.allow, edited);
      }
    }

    method ApplyServiceField(op: Operation, path: seq<string>) returns (ok: bool)
      requires Valid() && OpMaps(op) !! made.Keys && |path| >= 2 && path[0] != ""
      modifies this, ServiceMaps()
      ensures V.EditServices(old(ServicesOf(next.services)), old(OpValue(op)), path)
              == if ok then Some(ServicesOf(next.services)) else None
      ensures next == old(next).(services := next.services)
      ensures ok ==> Kept()
    {
      EntriesAgree(next.services);
      if op.Remove? && (next.services == null || path[0] !in next.services.m) { return true; }
      ok := EnsureAndEdit(path[0], op, path[1..]);
    }

    method EnsureAndEdit(name: string, op: Operation, path: seq<string>) returns (ok: bool)
      requires Valid() && OpMaps(op) !! made.Keys && path != []
      modifies this, if servicesOwned then Just(next.services) else {},
               if name in paramsOwned then Just(MapAt(next, EntriesOf(next.services), InParams(name))) else {}
      ensures next == old(next).(services := next.services) && next.services != null && (ok ==> Kept())
      ensures var values := old(ValuesOf(EntriesOf(next.services)));
        match V.EditServiceField(V.ServiceAt(Some(values), name), old(OpValue(op)), path)
        case None => !ok
        case Some(s) => ok && ValuesOf(next.services.m) == values[name := s]
    {
      EnsureServices();
      OpStays(op);
      ok := EditService(name, op, path);
    }

    method ReplaceServices(value: ServiceMap?)
      requires Valid()
      modifies this
      ensures ServicesOf(next.services) == old(ServicesOf(value))
      ensures next == old(next).(services := next.services) && Kept()
    {
      ghost var values := ServicesOf(value);
      var services := CloneServices(value);
      assert services != null ==> ValuesOf(services.m) == values.value;
      Install(services);
      assert services != null ==> ValuesOf(services.m) == values.value;
    }

    ghost method Enter(more: Ledger)
      requires Valid() && this !in more && more.Keys !! made.Keys && more.Keys !! shared
      modifies `made
      ensures Valid() && made == old(made) + more
    {
      made := made + more;
      forall place ensures Holds(place) { assert old(Holds(place)); }
    }

    /** Enters a new map of services in the ledger, with all that it holds. */
    ghost method Record(services: ServiceMap?)
      requires Valid() && Distinct(EntriesOf(services))
      requires services != null ==> services !in made && services !in shared
      requires ParamsIn(services) !! made.Keys && ParamsIn(services) !! shared
      modifies `made
      ensures Valid() && made.Keys == old(made.Keys) + Just(services) + ParamsIn(services)
      ensures services != null ==> made[services] == InServices
      ensures forall n :: n in EntriesOf(services) && EntriesOf(services)[n].params != null ==>
                made[EntriesOf(services)[n].params] == InParams(n)
    {
      Enter(ParamLedger(EntriesOf(services)));
      if services != null {
        Enter(map[services as object := InServices]);
      }
    }

    /** Takes over a copy of a whole map of services, with all that it holds. */
    method Install(services: ServiceMap?)
      requires Valid() && Distinct(EntriesOf(services))
      requires services != null ==> services !in made && services !in shared
      requires ParamsIn(services) !! made.Keys && ParamsIn(services) !! shared
      modifies this
      ensures Valid() && next == old(next).(services := services)
      ensures made.Keys == old(made.Keys) + Just(services) + ParamsIn(services)
    {
      Record(services);
      label recorded:
      next := next.(services := services);
      paramsOwned := EntriesOf(services).Keys;
      servicesOwned := true;
      forall place ensures Holds(place) {
        if !place.InParams? && !place.InServices? { assert old@recorded(Holds(place)); }
      }
    }

    method SetService(name: string, value: Service)
      requires Valid() && (value.params != null ==> value.params !in made)
      modifies this, if servicesOwned then Just(next.services) else {}
      ensures next == old(next).(services := next.services) && Kept() && next.services != null
      ensures ValuesOf(next.services.m) == old(ValuesOf(EntriesOf(next.services)))[name := old(ServiceOf(value))]
    {
      EnsureServices();
      AdoptCopy(name, value);
    }

    method Own(name: string, params: StringMap?)
      requires Valid() && (params != null ==> params !in made && params !in shared)
      modifies `made, `paramsOwned
      ensures forall place :: place != InParams(name) ==> Holds(place) && Owns(place) == old(Owns(place))
      ensures name in paramsOwned && Slot(params, true, InParams(name), made, shared)
      ensures this !in made && made.Keys == old(made.Keys) + Just(params)
    {
      if params != null { made := made[params as object := InParams(name)]; }
      paramsOwned := paramsOwned + {name};
      forall place | place != InParams(name) ensures Holds(place) { assert old(Holds(place)); }
    }

    method AdoptCopy(name: string, value: Service)
      requires Valid() && servicesOwned && next.services != null && (value.params != null ==> value.params !in made)
      modifies this, next.services
      ensures Kept() && next == old(next)
      ensures ValuesOf(next.services.m) == old(ValuesOf(next.services.m)[name := ServiceOf(value)])
    {
      var service := CloneService(value);
      AllowPut(next.services.m, name, service);
      Adopt(name, service);
    }

    /** Takes over a copy of one service. */
    method Adopt(name: string, service: Service)
      requires Valid() && servicesOwned && next.services != null
      requires service.params != null ==> service.params !in made && service.params !in shared
      modifies this, next.services
      ensures Valid() && next == old(next) && made.Keys == old(made.Keys) + Just(service.params)
      ensures next.services.m == old(next.services.m)[name := service]
      ensures ValuesOf(next.services.m) == old(ValuesOf(next.services.m)[name := ServiceOf(service)])
    {
      Own(name, service.params);
      PutService(name, service);
    }

    method RemoveService(name: string)
      requires Valid()
      modifies this, if servicesOwned then Just(next.services) else {}
      ensures next == old(next).(services := next.services) && Kept() && next.services != null
      ensures ValuesOf(next.services.m) == old(ValuesOf(EntriesOf(next.services))) - {name}
    {
      EnsureServices();
      DropService(name);
    }

    method ApplyService(op: Operation, name: string) returns (ok: bool)
      requires Valid() && OpMaps(op) !! made.Keys && name != ""
      modifies this, if servicesOwned then Just(next.services) else {}
      ensures V.EditServices(old(ServicesOf(next.services)), old(OpValue(op)), [name])
              == if ok then Some(ServicesOf(next.services)) else None
      ensures next == old(next).(services := next.services)
      ensures ok ==> Kept()
    {
      EntriesAgree(next.services);
      if op.Remove? && (next.services == null || name !in next.services.m) { return true; }
      match op
      case Set(AService(value)) =>
        SetService(name, value);
        ok := true;
      case Remove =>
        RemoveService(name);
        ok := true;
      case _ =>
        EnsureServices();
        ok := false;
    }

    method ApplyServices(op: Operation, path: seq<string>) returns (ok: bool)
      requires Valid() && OpMaps(op) !! made.Keys
      modifies this, ServiceMaps()
      ensures V.EditServices(old(ServicesOf(next.services)), old(OpValue(op)), path)
              == if ok then Some(ServicesOf(next.services)) else None
      ensures next == old(next).(services := next.services)
      ensures ok ==> Kept()
    {
      if path == [] {
        match op
        case Set(Services(value)) =>
          ReplaceServices(value);
          return true;
        case Remove =>
          next := next.(services := null);
          paramsOwned := {};
          servicesOwned := true;
          forall place ensures Holds(place) { assert old(Holds(place)); }
          return true;
        case _ => return false;
      }
      if path[0] == "" { return false; }
      if |path| == 1 {
        ok := ApplyService(op, path[0]);
      } else {
        ok := ApplyServiceField(op, path);
      }
    }

    method ApplyLog(op: Operation, path: seq<string>) returns (ok: bool)
      requires Valid() && OpMaps(op) !! made.Keys
      modifies `next
      ensures Kept() && next == old(next).(log := next.log)
      ensures V.EditLog(old(next).log, old(OpValue(op)), path) == if ok then Some(next.log) else None
    {
      ok := false;
      if path == [] {
        match op {
          case Set(Log(value)) =>
            next := next.(log := value);
            ok := true;
          case Remove =>
            next := next.(log := V.NO_LOG);
            ok := true;
          case _ =>
        }
      } else if |path| == 1 && path[0] == "Format" {
        var s;
        ok, s := ApplyString(op);
        if ok { next := next.(log := next.log.(format := s)); }
      } else if |path| == 1 && path[0] == "Level" {
        var s;
        ok, s := ApplyString(op);
        if ok { next := next.(log := next.log.(level := s)); }
      }
      forall place ensures Holds(place) { assert old(Holds(place)); }
    }

    method ApplyAPI(op: Operation, path: seq<string>) returns (ok: bool)
      requires Valid() && OpMaps(op) !! made.Keys
      modifies `next
      ensures Kept() && next == old(next).(api := next.api)
      ensures V.EditAPI(old(next).api, old(OpValue(op)), path) == if ok then Some(next.api) else None
    {
      ok := false;
      if path == [] {
        match op {
          case Set(API(value)) =>
            next := next.(api := value);
            ok := true;
          case Remove =>
            next := next.(api := V.NO_API);
            ok := true;
          case _ =>
        }
      } else if |path| == 1 {
        var api;
        ok, api := EditCapability(next.api, op, path[0]);
        next := next.(api := api);
      }
      forall place ensures Holds(place) { assert old(Holds(place)); }
    }

    method ApplyRoute(op: Operation, path: seq<string>) returns (ok: bool)
      requires Valid() && OpMaps(op) !! made.Keys
      modifies this, if allowOwned then Just(next.allow) else {}
      ensures Kept() && next == old(next).(allow := next.allow)
      ensures V.EditRoute(old(SlicesOf(next.allow)), old(OpValue(op)), path)
              == if ok then Some(SlicesOf(next.allow)) else None
    {
      if path == [] {
        match op
        case Set(Route(value)) =>
          var allow := CloneSlices(value);
          forall place ensures Holds(place) { assert old(Holds(place)); }
          PutAllow(allow, true);
          return true;
        case Remove =>
          PutAllow(null, true);
          return true;
        case _ => return false;
      }
      if path[0] != "Allow" { return false; }
      ok := ApplyAllow(op, path[1..]);
    }

    ghost function Owned(place: Place): set<object>
      reads this, next.services
    {
      if Owns(place) then Just(MapAt(next, EntriesOf(next.services), place)) else {}
    }

    /** What the editor writes to in one place is its own and is in no other place. */
    lemma OwnedApart(place: Place)
      requires Valid()
      ensures Owned(place) <= made.Keys
      ensures place != InUsers ==> Owned(place) !! Just(next.users)
      ensures place != InPages ==> Owned(place) !! Just(next.pages)
      ensures place != InGroups ==> Owned(place) !! Just(next.groups)
      ensures place != InAllow ==> Owned(place) !! Just(next.allow)
      ensures place != InServices ==> Owned(place) !! Just(next.services)
      ensures !place.InParams? ==> Owned(place) !! ParamsIn(next.services)
    {
      assert Holds(place) && Holds(InUsers) && Holds(InPages) && Holds(InGroups) && Holds(InAllow) && Holds(InServices);
      if !place.InParams? {
        forall n | n in EntriesOf(next.services) && EntriesOf(next.services)[n].params != null
          ensures EntriesOf(next.services)[n].params as object !in Owned(place)
        {
          assert Holds(InParams(n));
        }
      }
    }

    method ApplyToUsers(op: Operation, path: seq<string>) returns (ok: bool)
      requires Valid() && OpMaps(op) !! made.Keys && path != [] && path[0] == "Users"
      modifies this, Owned(InUsers)
      ensures V.Apply(old(ValueOf(next)), old(OpValue(op)), path) == if ok then Some(ValueOf(next)) else None
      ensures Kept()
    {
      OwnedApart(InUsers);
      ok := ApplyUsers(op, path[1..]);
      assert next.services == old(next.services) && EntriesOf(next.services) == old(EntriesOf(next.services));
      assert ValuesOf(EntriesOf(next.services)) == old(ValuesOf(EntriesOf(next.services)));
    }

    method ApplyToPages(op: Operation, path: seq<string>) returns (ok: bool)
      requires Valid() && OpMaps(op) !! made.Keys && path != [] && path[0] == "Pages"
      modifies this, Owned(InPages)
      ensures V.Apply(old(ValueOf(next)), old(OpValue(op)), path) == if ok then Some(ValueOf(next)) else None
      ensures Kept()
    {
      OwnedApart(InPages);
      ok := ApplyPages(op, path[1..]);
      assert next.services == old(next.services) && EntriesOf(next.services) == old(EntriesOf(next.services));
      assert ValuesOf(EntriesOf(next.services)) == old(ValuesOf(EntriesOf(next.services)));
    }

    method ApplyToGroups(op: Operation, path: seq<string>) returns (ok: bool)
      requires Valid() && OpMaps(op) !! made.Keys && path != [] && path[0] == "Groups"
      modifies this, Owned(InGroups)
      ensures V.Apply(old(ValueOf(next)), old(OpValue(op)), path) == if ok then Some(ValueOf(next)) else None
      ensures Kept()
    {
      OwnedApart(InGroups);
      ok := ApplyGroups(op, path[1..]);
      assert next.services == old(next.services) && EntriesOf(next.services) == old(EntriesOf(next.services));
      assert ValuesOf(EntriesOf(next.services)) == old(ValuesOf(EntriesOf(next.services)));
    }

    method ApplyToRoute(op: Operation, path: seq<string>) returns (ok: bool)
      requires Valid() && OpMaps(op) !! made.Keys && path != [] && path[0] == "Route"
      modifies this, Owned(InAllow)
      ensures V.Apply(old(ValueOf(next)), old(OpValue(op)), path) == if ok then Some(ValueOf(next)) else None
      ensures Kept()
    {
      OwnedApart(InAllow);
      ok := ApplyRoute(op, path[1..]);
      assert next.services == old(next.services) && EntriesOf(next.services) == old(EntriesOf(next.services));
      assert ValuesOf(EntriesOf(next.services)) == old(ValuesOf(EntriesOf(next.services)));
    }

    method ApplyToServices(op: Operation, path: seq<string>) returns (ok: bool)
      requires Valid() && OpMaps(op) !! made.Keys && path != [] && path[0] == "Services"
      modifies this, ServiceMaps()
      ensures V.Apply(old(ValueOf(next)), old(OpValue(op)), path) == if ok then Some(ValueOf(next)) else None
      ensures ok ==> Kept()
    {
      ServiceMapsApart();
      ok := ApplyServices(op, path[1..]);
    }

    lemma ServiceMapsApart()
      requires Valid()
      ensures ServiceMaps() <= made.Keys
      ensures ServiceMaps() !! Just(next.users) + Just(next.pages) + Just(next.groups) + Just(next.allow)
    {
      OwnedApart(InServices);
      forall n | n in paramsOwned && n in EntriesOf(next.services) ensures Owned(InParams(n)) <= made.Keys
        && Owned(InParams(n)) !! Just(next.users) + Just(next.pages) + Just(next.groups) + Just(next.allow)
      {
        OwnedApart(InParams(n));
      }
    }

    method ApplyToLog(op: Operation, path: seq<string>) returns (ok: bool)
      requires Valid() && OpMaps(op) !! made.Keys && path != [] && path[0] == "Log"
      modifies `next
      ensures V.Apply(old(ValueOf(next)), old(OpValue(op)), path) == if ok then Some(ValueOf(next)) else None
      ensures Kept()
    {
      ok := ApplyLog(op, path[1..]);
      assert ValuesOf(EntriesOf(next.services)) == old(ValuesOf(EntriesOf(next.services)));
    }

    method ApplyToAPI(op: Operation, path: seq<string>) returns (ok: bool)
      requires Valid() && OpMaps(op) !! made.Keys && path != [] && path[0] == "API"
      modifies `next
      ensures V.Apply(old(ValueOf(next)), old(OpValue(op)), path) == if ok then Some(ValueOf(next)) else None
      ensures Kept()
    {
      ok := ApplyAPI(op, path[1..]);
      assert ValuesOf(EntriesOf(next.services)) == old(ValuesOf(EntriesOf(next.services)));
    }

    method ApplyToTLS(op: Operation, path: seq<string>) returns (ok: bool)
      requires Valid() && OpMaps(op) !! made.Keys && path != [] && path[0] == "TLS"
      modifies `next
      ensures V.Apply(old(ValueOf(next)), old(OpValue(op)), path) == if ok then Some(ValueOf(next)) else None
      ensures Kept()
    {
      var b;
      ok, b := ApplyBool(op);
      ok := ok && |path| == 1;
      assert ValuesOf(EntriesOf(next.services)) == old(ValuesOf(EntriesOf(next.services)));
      PutScalars(if ok then next.(tls := b) else next);
    }

    /** Sets the fields that hold no map. */
    method PutScalars(c: Config)
      requires Valid() && SameMaps(c, next)
      modifies `next
      ensures next == c && Kept() && ValueOf(next) == old(ValueOf(c))
    {
      next := c;
      assert ValuesOf(EntriesOf(next.services)) == old(ValuesOf(EntriesOf(next.services)));
      forall place ensures Holds(place) { assert old(Holds(place)); }
    }

    method ApplyToText(op: Operation, path: seq<string>) returns (ok: bool)
      requires Valid() && OpMaps(op) !! made.Keys && path != [] && path[0] in {"Listen", "ServiceDir", "ServiceTempDir"}
      modifies `next
      ensures V.Apply(old(ValueOf(next)), old(OpValue(op)), path) == if ok then Some(ValueOf(next)) else None
      ensures Kept()
    {
      var s;
      ok, s := ApplyString(op);
      ok := ok && |path| == 1;
      assert ValuesOf(EntriesOf(next.services)) == old(ValuesOf(EntriesOf(next.services)));
      PutScalars(if ok then WithText(next, path[0], s) else next);
    }

    /** configEditor.apply. On success the editor's configuration reads as the value the operation stands for; in any
        case nothing is written to but the editor and the maps it has made itself. */
    method Apply(op: Operation, path: seq<string>) returns (ok: bool)
      requires Valid() && OpMaps(op) !! made.Keys
      modifies this, made.Keys
      ensures V.Apply(old(ValueOf(next)), old(OpValue(op)), path) == if ok then Some(ValueOf(next)) else None
      ensures ok ==> Kept()
    {
      if path == [] || path[0] == "" { return false; }
      if path[0] == "Users" {
        OwnedApart(InUsers);
        ok := ApplyToUsers(op, path);
      } else if path[0] == "Pages" {
        OwnedApart(InPages);
        ok := ApplyToPages(op, path);
      } else if path[0] == "Groups" {
        OwnedApart(InGroups);
        ok := ApplyToGroups(op, path);
      } else if path[0] == "Route" {
        OwnedApart(InAllow);
        ok := ApplyToRoute(op, path);
      } else if path[0] == "Services" {
        ServiceMapsApart();
        ok := ApplyToServices(op, path);
      } else if path[0] == "Log" {
        ok := ApplyToLog(op, path);
      } else if path[0] == "API" {
        ok := ApplyToAPI(op, path);
      } else if path[0] == "TLS" {
        ok := ApplyToTLS(op, path);
      } else if path[0] == "Listen" || path[0] == "ServiceDir" || path[0] == "ServiceTempDir" {
        ok := ApplyToText(op, path);
      } else {
        ok := false;
      }
    }
  }

  /** The fields of a service that hold no map. */
  method EditPlainField(service: Service, op: Operation, path: seq<string>) returns (ok: bool, edited: Service)
    requires path != [] && path[0] != "Params"
    ensures V.EditServiceField(ServiceOf(service), OpValue(op), path) == if ok then Some(ServiceOf(edited)) else None
    ensures edited.params == service.params
    ensures edited.allow != null ==> edited.allow == service.allow || fresh(edited.allow)
  {
    ok, edited := false, service;
    if |path| != 1 {
      return;
    }
    if path[0] == "Allow" {
      ok, edited := EditServiceAllow(service, op);
      return;
    }
    var s;
    ok, s := ApplyString(op);
    if path[0] == "Restart" {
      edited := service.(restart := s);
    } else if path[0] == "RunAsUser" {
      edited := service.(runAsUser := s);
    } else if path[0] == "Checksum" {
      edited := service.(checksum := s);
    } else {
      ok := false;
    }
  }

  method EditServiceAllow(service: Service, op: Operation) returns (ok: bool, edited: Service)
    ensures V.EditArray(OpValue(op)) == if ok then Some(SliceOf(edited.allow)) else None
    ensures edited == service.(allow := edited.allow)
    ensures edited.allow != null ==> edited.allow == service.allow || fresh(edited.allow)
  {
    match op
    case Set(Array(value)) =>
      var copy := CloneSlice(value);
      return true, service.(allow := copy);
    case Remove => return true, service.(allow := null);
    case _ => return false, service;
  }

  method ApplyString(op: Operation) returns (ok: bool, s: string)
    ensures V.EditText(OpValue(op)) == if ok then Some(s) else None
  {
    match op
    case Set(Text(value)) => return true, value;
    case Remove => return true, "";
    case _ => return false, "";
  }

  method EditCapability(api: V.APIConfig, op: Operation, capability: string) returns (ok: bool, edited: V.APIConfig)
    ensures V.EditAPI(api, OpValue(op), [capability]) == if ok then Some(edited) else None
    ensures !ok ==> edited == api
  {
    edited := api;
    var b;
    ok, b := ApplyBool(op);
    if !ok { return; }
    assert V.EditAPI(api, OpValue(op), [capability]) == V.WithCapability(api, capability, b);
    match capability
    case "User" => edited := api.(user := b);
    case "Group" => edited := api.(group := b);
    case "Pages" => edited := api.(pages := b);
    case "Access" => edited := api.(access := b);
    case "Service" => edited := api.(service := b);
    case "Log" => edited := api.(log := b);
    case "Network" => edited := api.(network := b);
    case _ => ok := false;
  }

  method ApplyBool(op: Operation) returns (ok: bool, b: bool)
    ensures V.EditFlag(OpValue(op)) == if ok then Some(b) else None
  {
    match op
    case Set(Flag(value)) => return true, value;
    case Remove => return true, false;
    case _ => return false, false;
  }
}

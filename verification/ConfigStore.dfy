/** The live configuration and its file. */
module ConfigStore {
  import opened Text
  import opened ConfigEditor
  import opened ConfigTransaction
  import Pointer
  import GroupIndex
  import V = ConfigValues

  /** The group table as the index reads it: a nil list has no users. */
  function GroupsOf(s: V.Slices): GroupIndex.Groups {
    match s
    case None => map[]
    case Some(m) => map g | g in m :: if m[g].Some? then m[g].value else []
  }

  method MakeStrings(s: V.Strings) returns (p: StringMap?)
    ensures StringsOf(p) == s && fresh(Just(p))
  {
    if s.None? { return null; }
    p := new StringMap(s.value);
  }

  method MakeSlice(s: V.Slice) returns (l: StringList?)
    ensures SliceOf(l) == s && fresh(Just(l))
  {
    if s.None? { return null; }
    l := new StringList(s.value);
  }

  method MakeSlices(s: V.Slices) returns (p: SliceMap?)
    ensures SlicesOf(p) == s && fresh(Just(p)) && fresh(ListsIn(p))
  {
    if s.None? { return null; }
    var out: map<string, StringList?> := map[];
    var todo := s.value.Keys;
    while todo != {}
      invariant todo <= s.value.Keys && out.Keys == s.value.Keys - todo
      invariant forall g :: g in out ==> SliceOf(out[g]) == s.value[g] && (out[g] != null ==> fresh(out[g]))
    {
      var g :| g in todo;
      var list := MakeSlice(s.value[g]);
      out := out[g := list];
      todo := todo - {g};
    }
    p := new SliceMap(out);
    assert SliceValues(out) == s.value;
  }

  method MakeServices(s: V.Services) returns (p: ServiceMap?)
    ensures ServicesOf(p) == s && fresh(Just(p)) && fresh(ParamsIn(p)) && fresh(AllowIn(p))
  {
    if s.None? { return null; }
    var out: map<string, Service> := map[];
    var todo := s.value.Keys;
    while todo != {}
      invariant todo <= s.value.Keys && out.Keys == s.value.Keys - todo
      invariant forall n :: n in out ==>
                  && ServiceOf(out[n]) == s.value[n]
                  && (out[n].params != null ==> fresh(out[n].params)) && (out[n].allow != null ==> fresh(out[n].allow))
    {
      var name :| name in todo;
      var v := s.value[name];
      var params := MakeStrings(v.params);
      var allow := MakeSlice(v.allow);
      out := out[name := Service(v.restart, v.runAsUser, v.checksum, allow, params)];
      todo := todo - {name};
    }
    p := new ServiceMap(out);
    assert p.m == out;
    assert ValuesOf(out) == s.value;
  }

  /** New services, beside a configuration without any. */
  method MakeServicesBeside(s: V.Services, ghost c: Config) returns (p: ServiceMap?)
    requires c.services == null
    ensures ServicesOf(p) == s && fresh(Just(p)) && fresh(ParamsIn(p)) && fresh(AllowIn(p))
    ensures ValueOf(c) == old(ValueOf(c)) && Parts(c) == old(Parts(c))
  {
    p := MakeServices(s);
  }

  method MakeTwoSlices(s: V.Slices, t: V.Slices) returns (p: SliceMap?, q: SliceMap?)
    ensures SlicesOf(p) == s && fresh(Just(p)) && fresh(ListsIn(p))
    ensures SlicesOf(q) == t && fresh(Just(q)) && fresh(ListsIn(q))
  {
    p := MakeSlices(s);
    q := MakeSlices(t);
  }

  method MaterialiseFlat(v: V.ConfigValue) returns (c: Config)
    ensures c.services == null && ValueOf(c) == v.(services := None) && fresh(Parts(c))
  {
    var users := MakeStrings(v.users);
    var pages := MakeStrings(v.pages);
    var groups, allow := MakeTwoSlices(v.groups, v.allow);
    c := Config(v.listen, v.tls, v.log, v.api, users, groups, allow, v.serviceDir, v.serviceTempDir, null, pages);
  }

  /** A decoded configuration, all of whose maps are new. */
  method Materialise(v: V.ConfigValue) returns (c: Config)
    ensures ValueOf(c) == v && fresh(Parts(c))
  {
    var flat := MaterialiseFlat(v);
    var services := MakeServicesBeside(v.services, flat);
    c := flat.(services := services);
  }

  /** The files, which other programs may change between calls. */
  class Disk {
    var files: map<string, Bytes>

    constructor (files: map<string, Bytes>)
      ensures this.files == files
    {
      this.files := files;
    }
  }

  datatype Request = Request(op: Operation, path: string)

  /** Every map that the requests carry. */
  ghost function RequestMaps(rs: seq<Request>): set<object>
    reads set r | r in rs :: Carried(r.op)
  {
    set r, o | r in rs && o in OpMaps(r.op) :: o
  }

  /** What the requests mean. */
  ghost function EditsOf(rs: seq<Request>): (es: seq<Edit>)
    reads set r | r in rs :: Carried(r.op)
    reads RequestMaps(rs)
    ensures |es| == |rs|
    ensures forall i :: 0 <= i < |rs| ==> es[i] == Edit(OpValue(rs[i].op), rs[i].path)
  {
    if rs == [] then [] else EditsOf(rs[..|rs| - 1]) + [Edit(OpValue(rs[|rs| - 1].op), rs[|rs| - 1].path)]
  }

  /** The editor's configuration consists of maps that it has made and maps that it has been given. */
  lemma MadeOrShared(editor: Editor)
    requires editor.Valid()
    ensures Maps(editor.next) <= editor.made.Keys + editor.shared
  {
    assert editor.Holds(InUsers) && editor.Holds(InGroups) && editor.Holds(InAllow);
    assert editor.Holds(InServices) && editor.Holds(InPages);
    forall o | o in ParamsIn(editor.next.services) ensures o in editor.made.Keys + editor.shared {
      var n :| n in EntriesOf(editor.next.services) && EntriesOf(editor.next.services)[n].params == o;
      assert editor.Holds(InParams(n));
    }
  }

  twostate lemma {:induction false} EditsStay(rs: seq<Request>)
    requires unchanged(old(RequestMaps(rs)))
    ensures EditsOf(rs) == old(EditsOf(rs))
  {
    if rs != [] {
      var front, last := rs[..|rs| - 1], rs[|rs| - 1];
      assert old(RequestMaps(front)) <= old(RequestMaps(rs)) && old(OpMaps(last.op)) <= old(RequestMaps(rs));
      EditsStay(front);
      OpStays(last.op);
    }
  }

  class Store<Doc(!new)> {
    const toml: Toml<Doc>
    const disk: Disk
    var path: string
    var current: Config
    var groupsByUser: GroupIndex.Groups
    ghost var live: V.ConfigValue       // what current reads as

    ghost function View(): State
      reads this, disk
    {
      State(path, disk.files, live)
    }

    /** Nobody has written to the maps of the live configuration, and the index is the reverse of its groups. */
    ghost predicate Valid()
      reads this, Maps(current), current.services
    {
      ValueOf(current) == live && GroupIndex.IsReverse(groupsByUser, GroupsOf(live.groups))
    }

    constructor (toml: Toml<Doc>, disk: Disk)
      ensures Valid() && this.toml == toml && this.disk == disk
      ensures View() == State("", disk.files, V.NO_CONFIG) && Maps(current) == {}
    {
      this.toml, this.disk, path := toml, disk, "";
      current := Config("", false, V.NO_LOG, V.NO_API, null, null, null, "", "", null, null);
      groupsByUser, live := map[], V.NO_CONFIG;
    }

    /** publishLocked. */
    method Publish(next: Config)
      modifies this`current, this`groupsByUser, this`live
      ensures Valid() && current == next && live == old(ValueOf(next))
    {
      ghost var value := ValueOf(next);
      current := next;
      live := value;
      groupsByUser := GroupIndex.IndexGroupsByUser(GroupsOf(SlicesOf(next.groups)));
      assert ValuesOf(EntriesOf(next.services)) == old(ValuesOf(EntriesOf(next.services)));
    }

    /** readConfigLocked. */
    method Read(w: World) returns (source: Option<Bytes>)
      ensures source == Source(View(), w)
    {
      if Trim(path) == "" || path !in disk.files || !w.readable { return None; }
      source := Some(disk.files[path]);
    }

    /** Reload, under the lock. */
    method Reload(w: World) returns (ok: bool)
      requires Valid()
      modifies this`current, this`groupsByUser, this`live
      ensures Valid()
      ensures Reloaded(toml, old(View()), w) == if ok then Some(View()) else None
      ensures if ok then fresh(Parts(current)) else View() == old(View()) && current == old(current)
    {
      var source := Read(w);
      var decoded := if source.None? then None else toml.decode(source.value);
      if decoded.None? {
        assert ValuesOf(EntriesOf(current.services)) == old(ValuesOf(EntriesOf(current.services)));
        return false;
      }
      var next := Materialise(decoded.value);
      Publish(next);
      ok := true;
    }

    /** The branch of LoadConfig for a file that is there. */
    method Select(newPath: string, w: World) returns (ok: bool)
      requires Valid()
      modifies this
      ensures Valid()
      ensures Reloaded(toml, old(View()).(path := newPath), w) == if ok then Some(View()) else None
      ensures if ok then fresh(Parts(current)) else View() == old(View()) && current == old(current)
    {
      var previous := path;
      path := newPath;
      assert ValuesOf(EntriesOf(current.services)) == old(ValuesOf(EntriesOf(current.services)));
      ok := Reload(w);
      if !ok {
        path := previous;
        assert ValuesOf(EntriesOf(current.services)) == old(ValuesOf(EntriesOf(current.services)));
      }
    }

    /** The branch of LoadConfig for a file that is not. */
    method Create(newPath: string, w: World) returns (ok: bool)
      requires Valid() && newPath !in disk.files
      modifies this, disk
      ensures Valid()
      ensures ok <==> w.creatable && w.closable
      ensures disk.files == if w.creatable then old(disk.files)[newPath := []] else old(disk.files)
      ensures if ok then path == newPath && live == V.NO_CONFIG && fresh(Parts(current))
              else path == old(path) && live == old(live) && current == old(current)
    {
      if !w.creatable { return false; }
      disk.files := disk.files[newPath := []];
      assert ValuesOf(EntriesOf(current.services)) == old(ValuesOf(EntriesOf(current.services)));
      if !w.closable { return false; }
      path := newPath;
      var empty := Materialise(V.NO_CONFIG);
      Publish(empty);
      ok := true;
    }

    method LoadConfig(newPath: string, w: World) returns (ok: bool)
      requires Valid()
      modifies this, disk
      ensures Valid()
      ensures (View(), ok) == Loaded(toml, old(View()), w, newPath)
      ensures if ok then fresh(Parts(current)) else current == old(current)
    {
      if !w.statable {
        return false;
      }
      if newPath !in disk.files {
        if w.raced.None? {
          ok := Create(newPath, w);
          return;
        }
        disk.files := disk.files[newPath := w.raced.value];
        assert ValuesOf(EntriesOf(current.services)) == old(ValuesOf(EntriesOf(current.services)));
      }
      ok := Select(newPath, w);
    }

    /** One round of Update's loop. */
    method ApplyRequest(editor: Editor, doc: Doc, request: Request) returns (ok: bool, edited: Doc)
      requires editor.Valid() && OpMaps(request.op) !! editor.made.Keys
      modifies editor, editor.made.Keys
      ensures EditOne(toml, old(ValueOf(editor.next)), doc, Edit(old(OpValue(request.op)), request.path))
              == if ok then Some((ValueOf(editor.next), edited)) else None
      ensures ok ==> editor.Kept()
    {
      edited := doc;
      var op := OpValue(request.op);
      if op.Set? && IsNil(op.value) {
        return false, doc;
      }
      var parsed := Pointer.ParsePointer(request.path);
      assert ValuesOf(EntriesOf(editor.next.services)) == old(ValuesOf(EntriesOf(editor.next.services)));
      OpStays(request.op);
      if !parsed.Segments? {
        return false, doc;
      }
      ok := editor.Apply(request.op, parsed.segments);
      if !ok {
        return;
      }
      var next := toml.edit(doc, op, parsed.segments);
      if next.None? {
        return false, doc;
      }
      edited := next.value;
    }

    /** Update's loop over the operations. */
    method ApplyEach(editor: Editor, doc: Doc, requests: seq<Request>) returns (ok: bool, edited: Doc)
      requires editor.Valid() && editor.made == map[]
      modifies editor
      ensures EditAll(toml, old(ValueOf(editor.next)), doc, old(EditsOf(requests)))
              == if ok then Some((ValueOf(editor.next), edited)) else None
      ensures ok ==> editor.Kept()
    {
      ghost var value, edits := ValueOf(editor.next), EditsOf(requests);
      edited := doc;
      for n := 0 to |requests|
        invariant editor.Kept()
        invariant EditAll(toml, value, doc, edits[..n]) == Some((ValueOf(editor.next), edited))
      {
        OpStays(requests[n].op);
        ok, edited := ApplyNext(editor, edited, requests[n], value, doc, edits, n);
        if !ok {
          return;
        }
      }
      assert edits[..|requests|] == edits;
      ok := true;
    }

    method ApplyNext(editor: Editor, sofar: Doc, request: Request,
                     ghost value: V.ConfigValue, ghost doc: Doc, ghost edits: seq<Edit>, ghost n: nat)
      returns (ok: bool, edited: Doc)
      requires editor.Valid() && OpMaps(request.op) !! editor.made.Keys
      requires n < |edits| && edits[n] == Edit(OpValue(request.op), request.path)
      requires EditAll(toml, value, doc, edits[..n]) == Some((ValueOf(editor.next), sofar))
      modifies editor, editor.made.Keys
      ensures ok ==> editor.Kept() && EditAll(toml, value, doc, edits[..n + 1]) == Some((ValueOf(editor.next), edited))
      ensures !ok ==> EditAll(toml, value, doc, edits).None?
    {
      assert edits[..n + 1][..n] == edits[..n];
      ok, edited := ApplyRequest(editor, sofar, request);
      if !ok {
        FailsForGood(toml, value, doc, edits, n + 1);
      }
    }

    /** The editor at work: what it hands over consists of maps it was given and maps it has made. */
    method ApplyAndTake(editor: Editor, doc: Doc, requests: seq<Request>) returns (ok: bool, next: Config, edited: Doc)
      requires editor.Valid() && editor.made == map[]
      modifies editor
      ensures EditAll(toml, old(ValueOf(editor.next)), doc, old(EditsOf(requests)))
              == if ok then Some((ValueOf(next), edited)) else None
      ensures ok ==> forall o :: o in Parts(next) ==> o in editor.shared || o in old(ListsOf(editor.next)) || fresh(o)
    {
      ok, edited := ApplyEach(editor, doc, requests);
      next := editor.next;
      if ok {
        MadeOrShared(editor);
      }
    }

    /** A new editor at work on a configuration: it writes to nothing that was there before. */
    method ApplyRequests(base: Config, doc: Doc, requests: seq<Request>) returns (ok: bool, next: Config, edited: Doc)
      ensures EditAll(toml, old(ValueOf(base)), doc, old(EditsOf(requests)))
              == if ok then Some((ValueOf(next), edited)) else None
      ensures ok ==> forall o :: o in Parts(next) ==> o in old(Parts(base)) || fresh(o)
    {
      var editor := StartEditor(base, requests);
      ok, next, edited := ApplyAndTake(editor, doc, requests);
    }

    method StartEditor(base: Config, ghost requests: seq<Request>) returns (editor: Editor)
      ensures fresh(editor) && editor.Valid() && editor.next == base && editor.made == map[]
      ensures editor.shared == old(Maps(base)) && ValueOf(base) == old(ValueOf(base))
      ensures ListsOf(base) == old(ListsOf(base))
      ensures EditsOf(requests) == old(EditsOf(requests))
    {
      editor := NewEditor(base, RequestMaps(requests));
      EditsStay(requests);
    }

    method NewEditor(base: Config, ghost maps: set<object>) returns (editor: Editor)
      ensures unchanged(maps)
      ensures fresh(editor) && editor.Valid() && editor.next == base && editor.made == map[]
      ensures editor.shared == old(Maps(base)) && ValueOf(base) == old(ValueOf(base))
      ensures ListsOf(base) == old(ListsOf(base))
    {
      editor := new Editor(base);
      assert ValuesOf(EntriesOf(base.services)) == old(ValuesOf(EntriesOf(base.services)));
    }

    /** Update: all of the operations or none. It writes to the file and to the store itself; no map that was there
        before is changed or, unless the live configuration already had it, taken over. */
    method Update(requests: seq<Request>, w: World) returns (ok: bool)
      requires Valid()
      modifies this, disk
      ensures Valid()
      ensures Updated(toml, old(View()), w, old(EditsOf(requests))) == if ok then Some(View()) else None
      ensures !ok ==> View() == old(View()) && current == old(current)
      ensures forall o :: o in Parts(current) ==> o in old(Parts(current)) || fresh(o)
    {
      var source := Read(w);
      EditsStay(requests);
      var next: Config, persisted: Bytes;
      ok, next, persisted := Prepare(source, requests);
      assert ValuesOf(EntriesOf(current.services)) == old(ValuesOf(EntriesOf(current.services)));
      if ok {
        ok := Commit(source.value, next, persisted, w);
      }
    }

    method PublishIfNew(next: Config)
      requires Valid()
      modifies this`current, this`groupsByUser, this`live
      ensures Valid() && live == old(ValueOf(next)) && (current == old(current) || current == next)
      ensures Parts(current) == old(Parts(current)) || Parts(current) == old(Parts(next))
    {
      if ValueOf(current) != ValueOf(next) {
        Publish(next);
      }
    }

    /** persistLocked, unless the file says so already. */
    method WriteFile(source: Bytes, persisted: Bytes, w: World) returns (ok: bool)
      requires path in disk.files && disk.files[path] == source
      modifies disk
      ensures ok <==> source == persisted || w.writable
      ensures disk.files == if ok then old(disk.files)[path := persisted] else old(disk.files)
    {
      if source != persisted {
        if !w.writable {
          return false;
        }
        disk.files := disk.files[path := persisted];
      }
      ok := true;
    }

    /** The file is not a part of any configuration. */
    method Persist(source: Bytes, ghost next: Config, persisted: Bytes, w: World) returns (ok: bool)
      requires Valid() && path in disk.files && disk.files[path] == source
      modifies disk
      ensures Valid()
      ensures ok <==> source == persisted || w.writable
      ensures disk.files == if ok then old(disk.files)[path := persisted] else old(disk.files)
      ensures Parts(current) == old(Parts(current)) && Parts(next) == old(Parts(next))
      ensures ValueOf(next) == old(ValueOf(next))
    {
      ok := WriteFile(source, persisted, w);
      assert ValuesOf(EntriesOf(current.services)) == old(ValuesOf(EntriesOf(current.services)));
      assert ValuesOf(EntriesOf(next.services)) == old(ValuesOf(EntriesOf(next.services)));
    }

    /** The part of Update that writes. */
    method Commit(source: Bytes, next: Config, persisted: Bytes, w: World) returns (ok: bool)
      requires Valid() && path in disk.files && disk.files[path] == source
      modifies this`current, this`groupsByUser, this`live, disk
      ensures Valid()
      ensures ok <==> source == persisted || w.writable
      ensures View() == if ok then State(path, old(disk.files)[path := persisted], old(ValueOf(next))) else old(View())
      ensures current == old(current) || (ok && current == next)
      ensures Parts(current) == old(Parts(current)) || Parts(current) == old(Parts(next))
    {
      ok := Persist(source, next, persisted, w);
      if ok {
        PublishIfNew(next);
      }
    }

    /** The part of Update before anything is written. */
    method Prepare(source: Option<Bytes>, requests: seq<Request>) returns (ok: bool, next: Config, persisted: Bytes)
      ensures (if source.None? then None else Edited(toml, source.value, old(EditsOf(requests))))
              == if ok then Some((ValueOf(next), persisted)) else None
      ensures ok ==> forall o :: o in Parts(next) ==> o in old(Parts(current)) || fresh(o)
    {
      ok, next, persisted := false, current, [];
      if source.None? {
        return;
      }
      var decoded, doc := toml.decode(source.value), toml.parse(source.value);
      if decoded.None? || doc.None? {
        return;
      }
      var edited;
      ok, next, edited := EditDecoded(decoded.value, doc.value, requests);
      if ok {
        persisted := toml.render(edited);
        ok := toml.valid(ValueOf(next)) && toml.decode(persisted) == Some(ValueOf(next));
      }
    }

    method MaterialiseBeside(decoded: V.ConfigValue, ghost maps: set<object>) returns (base: Config)
      ensures ValueOf(base) == decoded && fresh(Parts(base)) && unchanged(maps)
    {
      base := Materialise(decoded);
    }

    method MaterialiseFor(decoded: V.ConfigValue, ghost requests: seq<Request>) returns (base: Config)
      ensures ValueOf(base) == decoded && fresh(Parts(base)) && EditsOf(requests) == old(EditsOf(requests))
    {
      base := MaterialiseBeside(decoded, RequestMaps(requests));
      EditsStay(requests);
    }

    method EditAfresh(decoded: V.ConfigValue, doc: Doc, requests: seq<Request>)
      returns (ok: bool, next: Config, edited: Doc)
      ensures EditAll(toml, decoded, doc, old(EditsOf(requests))) == if ok then Some((ValueOf(next), edited)) else None
      ensures ok ==> fresh(Parts(next))
    {
      var base := MaterialiseFor(decoded, requests);
      ok, next, edited := ApplyRequests(base, doc, requests);
    }

    /** The editor starts from the live configuration if that is what the file says. */
    method EditDecoded(decoded: V.ConfigValue, doc: Doc, requests: seq<Request>)
      returns (ok: bool, next: Config, edited: Doc)
      ensures EditAll(toml, decoded, doc, old(EditsOf(requests))) == if ok then Some((ValueOf(next), edited)) else None
      ensures ok ==> forall o :: o in Parts(next) ==> o in old(Parts(current)) || fresh(o)
    {
      var known := ValueOf(current) == decoded;
      if known {
        ok, next, edited := ApplyRequests(current, doc, requests);
      } else {
        ok, next, edited := EditAfresh(decoded, doc, requests);
      }
    }
  }
}

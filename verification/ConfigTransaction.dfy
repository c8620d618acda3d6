/** What a configuration transaction comes to: the file and the live configuration before and after. The decoder and
    the document editor are arbitrary functions. */
module ConfigTransaction {
  import opened Text
  import Pointer
  import V = ConfigValues

  type Bytes = seq<bv8>

  /** The text side: what a file decodes to, if it is a valid configuration, and how a document is edited. */
  datatype Toml<!Doc(!new)> = Toml(
    decode: Bytes -> Option<V.ConfigValue>,
    parse: Bytes -> Option<Doc>,
    edit: (Doc, V.Operation, seq<string>) -> Option<Doc>,
    render: Doc -> Bytes,
    valid: V.ConfigValue -> bool)

  datatype Edit = Edit(op: V.Operation, path: string)

  /** isNil for what an operation carries. */
  predicate IsNil(v: V.Value) {
    match v
    case StringMap(m) => m.None?
    case Array(a) => a.None?
    case SliceMap(m) => m.None?
    case ServiceMap(m) => m.None?
    case _ => false
  }

  function EditOne<Doc(!new)>(toml: Toml<Doc>, config: V.ConfigValue, doc: Doc, e: Edit): Option<(V.ConfigValue, Doc)> {
    if e.op.Set? && IsNil(e.op.value) then None
    else
      match Pointer.Parse(e.path)
      case Segments(segments) =>
        (match (V.Apply(config, e.op, segments), toml.edit(doc, e.op, segments))
         case (Some(c), Some(d)) => Some((c, d))
         case _ => None)
      case _ => None
  }

  function EditAll<Doc(!new)>(toml: Toml<Doc>, config: V.ConfigValue, doc: Doc,
                              edits: seq<Edit>): Option<(V.ConfigValue, Doc)> {
    if edits == [] then Some((config, doc))
    else
      match EditAll(toml, config, doc, edits[..|edits| - 1])
      case None => None
      case Some((c, d)) => EditOne(toml, c, d, edits[|edits| - 1])
  }

  /** A transaction that has failed stays failed. */
  lemma {:induction false} FailsForGood<Doc(!new)>(toml: Toml<Doc>, config: V.ConfigValue, doc: Doc, edits: seq<Edit>,
                                                   n: nat)
    requires n <= |edits| && EditAll(toml, config, doc, edits[..n]).None?
    ensures EditAll(toml, config, doc, edits).None?
  {
    if n < |edits| {
      assert edits[..|edits| - 1][..n] == edits[..n];
      FailsForGood(toml, config, doc, edits[..|edits| - 1], n);
    } else {
      assert edits[..n] == edits;
    }
  }

  /** The state that a transaction is about. */
  datatype State = State(path: string, files: map<string, Bytes>, current: V.ConfigValue)

  /** The world a call meets: whether the file can be read, created and replaced. A file that appears between the
      look for it and its creation is raced. */
  datatype World = World(readable: bool, writable: bool, statable: bool, creatable: bool, closable: bool,
                         raced: Option<Bytes>)

  function Source(s: State, w: World): Option<Bytes> {
    if Trim(s.path) == "" || s.path !in s.files || !w.readable then None else Some(s.files[s.path])
  }

  /** What the edits make of the file: its new bytes and the configuration. */
  function Edited<Doc(!new)>(toml: Toml<Doc>, source: Bytes, edits: seq<Edit>): Option<(V.ConfigValue, Bytes)> {
    match (toml.decode(source), toml.parse(source))
    case (Some(config), Some(doc)) =>
      (match EditAll(toml, config, doc, edits)
       case Some((next, d)) =>
         if toml.valid(next) && toml.decode(toml.render(d)) == Some(next) then Some((next, toml.render(d))) else None
       case None => None)
    case _ => None
  }

  /** Update. Nothing, when it fails. */
  function Updated<Doc(!new)>(toml: Toml<Doc>, s: State, w: World, edits: seq<Edit>): Option<State> {
    match Source(s, w)
    case None => None
    case Some(source) =>
      match Edited(toml, source, edits)
      case None => None
      case Some((next, persisted)) =>
        if source != persisted && !w.writable then None
        else Some(s.(files := s.files[s.path := persisted], current := next))
  }

  /** Reload. */
  function Reloaded<Doc(!new)>(toml: Toml<Doc>, s: State, w: World): Option<State> {
    match Source(s, w)
    case None => None
    case Some(source) =>
      match toml.decode(source)
      case None => None
      case Some(next) => Some(s.(current := next))
  }

  /** LoadConfig: the state it leaves, and whether it succeeds. A new file stays behind even if closing it fails. */
  function Loaded<Doc(!new)>(toml: Toml<Doc>, s: State, w: World, path: string): (State, bool) {
    if !w.statable then (s, false)
    else if path in s.files then
      match Reloaded(toml, s.(path := path), w)
      case None => (s, false)
      case Some(t) => (t, true)
    else if w.raced.Some? then
      var appeared := s.(files := s.files[path := w.raced.value]);
      match Reloaded(toml, appeared.(path := path), w)
      case None => (appeared, false)
      case Some(t) => (t, true)
    else if !w.creatable then (s, false)
    else
      var created := s.(files := s.files[path := []]);
      if !w.closable then (created, false) else (created.(path := path, current := V.NO_CONFIG), true)
  }

  // All or nothing.

  function PathsOf(edits: seq<Edit>): Option<seq<(V.Operation, seq<string>)>> {
    if edits == [] then Some([])
    else
      match (PathsOf(edits[..|edits| - 1]), Pointer.Parse(edits[|edits| - 1].path))
      case (Some(before), Segments(segments)) => Some(before + [(edits[|edits| - 1].op, segments)])
      case _ => None
  }

  /** What the edits make of the configuration does not depend on the document. */
  lemma {:induction false} EditsAreOperations<Doc(!new)>(toml: Toml<Doc>, config: V.ConfigValue, doc: Doc,
                                                         edits: seq<Edit>)
    requires EditAll(toml, config, doc, edits).Some?
    ensures PathsOf(edits).Some?
    ensures V.ApplyAll(config, PathsOf(edits).value) == Some(EditAll(toml, config, doc, edits).value.0)
  {
    if edits != [] {
      var n := |edits| - 1;
      EditsAreOperations(toml, config, doc, edits[..n]);
      var (c, d) := EditAll(toml, config, doc, edits[..n]).value;
      EditIsOperation(toml, c, d, edits[n]);
      PathsNext(edits, config);
    }
  }

  lemma EditIsOperation<Doc(!new)>(toml: Toml<Doc>, config: V.ConfigValue, doc: Doc, e: Edit)
    requires EditOne(toml, config, doc, e).Some?
    ensures Pointer.Parse(e.path).Segments?
    ensures V.Apply(config, e.op, Pointer.Parse(e.path).segments) == Some(EditOne(toml, config, doc, e).value.0)
  {
  }

  /** What the document editor makes of a document, operation by operation. */
  function EditDocument<Doc(!new)>(toml: Toml<Doc>, doc: Doc, ops: seq<(V.Operation, seq<string>)>): Option<Doc> {
    if ops == [] then Some(doc)
    else
      match EditDocument(toml, doc, ops[..|ops| - 1])
      case None => None
      case Some(d) => toml.edit(d, ops[|ops| - 1].0, ops[|ops| - 1].1)
  }

  const NIL_VALUES := {V.StringMap(None), V.Array(None), V.SliceMap(None), V.ServiceMap(None)}

  /** No map or list may be set to nil. */
  predicate NoneSetsNil(edits: seq<Edit>) {
    forall e :: e in edits && e.op.Set? ==> e.op.value !in NIL_VALUES
  }

  lemma EditSucceedsIff<Doc(!new)>(toml: Toml<Doc>, config: V.ConfigValue, doc: Doc, e: Edit)
    ensures var parsed, r := Pointer.Parse(e.path), EditOne(toml, config, doc, e);
            && (r.Some? <==> && parsed.Segments? && !(e.op.Set? && e.op.value in NIL_VALUES)
                             && V.Apply(config, e.op, parsed.segments).Some?
                             && toml.edit(doc, e.op, parsed.segments).Some?)
            && (r.Some? ==> && Some(r.value.0) == V.Apply(config, e.op, parsed.segments)
                            && Some(r.value.1) == toml.edit(doc, e.op, parsed.segments))
  {
  }

  lemma DocumentNext<Doc(!new)>(toml: Toml<Doc>, doc: Doc, edits: seq<Edit>)
    requires edits != [] && PathsOf(edits).Some?
    ensures PathsOf(edits[..|edits| - 1]).Some? && Pointer.Parse(edits[|edits| - 1].path).Segments?
    ensures var before, last := EditDocument(toml, doc, PathsOf(edits[..|edits| - 1]).value), edits[|edits| - 1];
            EditDocument(toml, doc, PathsOf(edits).value)
            == if before.None? then None else toml.edit(before.value, last.op, Pointer.Parse(last.path).segments)
  {
    var all := PathsOf(edits).value;
    assert all[..|all| - 1] == PathsOf(edits[..|edits| - 1]).value;
  }

  /** The edits succeed iff all of their pointers can be read, none sets nil, and both the configuration and the
      document go through the same operations; then these are the result. */
  lemma {:induction false} EditsSucceedIff<Doc(!new)>(toml: Toml<Doc>, config: V.ConfigValue, doc: Doc,
                                                      edits: seq<Edit>)
    ensures EditAll(toml, config, doc, edits).Some? <==>
            && PathsOf(edits).Some? && NoneSetsNil(edits)
            && V.ApplyAll(config, PathsOf(edits).value).Some?
            && EditDocument(toml, doc, PathsOf(edits).value).Some?
    ensures EditAll(toml, config, doc, edits).Some? ==>
            && V.ApplyAll(config, PathsOf(edits).value) == Some(EditAll(toml, config, doc, edits).value.0)
            && EditDocument(toml, doc, PathsOf(edits).value) == Some(EditAll(toml, config, doc, edits).value.1)
  {
    if edits != [] {
      var n := |edits| - 1;
      EditsSucceedIff(toml, config, doc, edits[..n]);
      NoneSetsNilNext(edits);
      if EditAll(toml, config, doc, edits[..n]).Some? {
        var (c, d) := EditAll(toml, config, doc, edits[..n]).value;
        EditSucceedsIff(toml, c, d, edits[n]);
      }
      if PathsOf(edits).Some? {
        PathsNext(edits, config);
        DocumentNext(toml, doc, edits);
      }
    }
  }

  lemma NoneSetsNilNext(edits: seq<Edit>)
    requires edits != []
    ensures var last := edits[|edits| - 1];
      NoneSetsNil(edits) <==> NoneSetsNil(edits[..|edits| - 1]) && !(last.op.Set? && last.op.value in NIL_VALUES)
  {
    assert edits == edits[..|edits| - 1] + [edits[|edits| - 1]];
  }

  lemma PathsNext(edits: seq<Edit>, config: V.ConfigValue)
    requires edits != [] && PathsOf(edits[..|edits| - 1]).Some? && Pointer.Parse(edits[|edits| - 1].path).Segments?
    ensures PathsOf(edits).Some?
    ensures var before, last := V.ApplyAll(config, PathsOf(edits[..|edits| - 1]).value), edits[|edits| - 1];
            V.ApplyAll(config, PathsOf(edits).value)
            == if before.None? then None else V.Apply(before.value, last.op, Pointer.Parse(last.path).segments)
  {
    var all := PathsOf(edits).value;
    assert all[..|all| - 1] == PathsOf(edits[..|edits| - 1]).value;
  }

  /** After a successful update the file decodes to the live configuration, which is what the operations, in order,
      make of the file as it was; no other file has changed. */
  lemma UpdateIsTheOperations<Doc(!new)>(toml: Toml<Doc>, s: State, w: World, edits: seq<Edit>)
    requires Updated(toml, s, w, edits).Some?
    ensures var t := Updated(toml, s, w, edits).value;
            && s.path in s.files && toml.decode(s.files[s.path]).Some? && PathsOf(edits).Some?
            && t.path == s.path && t.files.Keys == s.files.Keys
            && toml.decode(t.files[t.path]) == Some(t.current)
            && V.ApplyAll(toml.decode(s.files[s.path]).value, PathsOf(edits).value) == Some(t.current)
            && forall p :: p in s.files && p != s.path ==> t.files[p] == s.files[p]
  {
    var source := s.files[s.path];
    EditsAreOperations(toml, toml.decode(source).value, toml.parse(source).value, edits);
  }

  /** Of two updates in a row the second one works on what the first one has made, provided nobody else writes to the
      file: the configuration is then what the operations of both make of the first file. */
  lemma UpdatesCompose<Doc(!new)>(toml: Toml<Doc>, s: State, w1: World, w2: World, first: seq<Edit>, second: seq<Edit>)
    requires Updated(toml, s, w1, first).Some?
    requires Updated(toml, Updated(toml, s, w1, first).value, w2, second).Some?
    ensures s.path in s.files && toml.decode(s.files[s.path]).Some? && PathsOf(first).Some? && PathsOf(second).Some?
    ensures V.ApplyAll(toml.decode(s.files[s.path]).value, PathsOf(first).value + PathsOf(second).value)
            == Some(Updated(toml, Updated(toml, s, w1, first).value, w2, second).value.current)
  {
    var t := Updated(toml, s, w1, first).value;
    UpdateIsTheOperations(toml, s, w1, first);
    UpdateIsTheOperations(toml, t, w2, second);
    ApplyAllConcat(toml.decode(s.files[s.path]).value, PathsOf(first).value, PathsOf(second).value);
  }

  lemma {:induction false} ApplyAllConcat(c: V.ConfigValue, a: seq<(V.Operation, seq<string>)>,
                                          b: seq<(V.Operation, seq<string>)>)
    requires V.ApplyAll(c, a).Some?
    ensures V.ApplyAll(c, a + b) == V.ApplyAll(V.ApplyAll(c, a).value, b)
  {
    if b == [] {
      assert a + b == a;
    } else {
      ApplyAllConcat(c, a, b[..|b| - 1]);
      assert (a + b)[..|a + b| - 1] == a + b[..|b| - 1];
    }
  }

  // Runs.

  datatype Call = Load(path: string) | Reload | Update(edits: seq<Edit>)

  function Next<Doc(!new)>(toml: Toml<Doc>, s: State, w: World, call: Call): State {
    match call
    case Load(path) => Loaded(toml, s, w, path).0
    case Reload => (match Reloaded(toml, s, w) case None => s case Some(t) => t)
    case Update(edits) => (match Updated(toml, s, w, edits) case None => s case Some(t) => t)
  }

  function Run<Doc(!new)>(toml: Toml<Doc>, s: State, calls: seq<(World, Call)>): State {
    if calls == [] then s
    else Next(toml, Run(toml, s, calls[..|calls| - 1]), calls[|calls| - 1].0, calls[|calls| - 1].1)
  }

  predicate InStep<Doc(!new)>(toml: Toml<Doc>, s: State) {
    s.path in s.files && toml.decode(s.files[s.path]) == Some(s.current)
  }

  /** As long as only these calls write to the files, the live configuration is what its file decodes to, whatever
      fails on the way. An empty file has to decode to the empty configuration. */
  lemma {:induction false} LiveIsWhatIsOnDisk<Doc(!new)>(toml: Toml<Doc>, s: State, calls: seq<(World, Call)>)
    requires InStep(toml, s) && toml.decode([]) == Some(V.NO_CONFIG)
    ensures InStep(toml, Run(toml, s, calls))
  {
    if calls != [] {
      LiveIsWhatIsOnDisk(toml, s, calls[..|calls| - 1]);
      NextKeepsStep(toml, Run(toml, s, calls[..|calls| - 1]), calls[|calls| - 1].0, calls[|calls| - 1].1);
    }
  }

  lemma NextKeepsStep<Doc(!new)>(toml: Toml<Doc>, s: State, w: World, call: Call)
    requires InStep(toml, s) && toml.decode([]) == Some(V.NO_CONFIG)
    ensures InStep(toml, Next(toml, s, w, call))
  {
  }

  /** A load that succeeds brings the live configuration and its file into step, whatever was before. */
  lemma LoadBringsIntoStep<Doc(!new)>(toml: Toml<Doc>, s: State, w: World, path: string)
    requires Loaded(toml, s, w, path).1 && toml.decode([]) == Some(V.NO_CONFIG)
    ensures InStep(toml, Loaded(toml, s, w, path).0)
    ensures Loaded(toml, s, w, path).0.path == path
  {
  }

  /** A path of white space can be loaded, once, by creating its file; after that the configuration can neither be
      reloaded nor updated. */
  lemma BlankPathIsADeadEnd<Doc(!new)>(toml: Toml<Doc>, s: State, w: World, path: string, v: World, edits: seq<Edit>)
    requires Trim(path) == ""
    ensures Loaded(toml, s, w, path).1 <==>
            w.statable && path !in s.files && w.raced.None? && w.creatable && w.closable
    ensures Loaded(toml, s, w, path).1 ==> Reloaded(toml, Loaded(toml, s, w, path).0, v).None?
    ensures Loaded(toml, s, w, path).1 ==> Updated(toml, Loaded(toml, s, w, path).0, v, edits).None?
  {
  }

  /** A reload succeeds iff the file is there, under a name that is not blank, and can be read and decoded; it changes
      the live configuration and nothing else. */
  lemma ReloadsIff<Doc(!new)>(toml: Toml<Doc>, s: State, w: World, t: State)
    ensures Reloaded(toml, s, w) == Some(t) <==>
            && Trim(s.path) != "" && s.path in s.files && w.readable
            && toml.decode(s.files[s.path]) == Some(t.current) && t == s.(current := t.current)
  {
  }

  /** A path that was loaded can be loaded again, by a Reload that can read the file, iff it is not blank. */
  lemma ReloadableIff<Doc(!new)>(toml: Toml<Doc>, s: State, w: World, path: string, v: World)
    requires Loaded(toml, s, w, path).1 && toml.decode([]) == Some(V.NO_CONFIG)
    ensures Reloaded(toml, Loaded(toml, s, w, path).0, v).Some? <==> v.readable && Trim(path) != ""
  {
  }

  /** What an update of the file comes to: the operations on what it says, and on the document. The document may not
      say anything else in the end, and only a document that differs has to be written. */
  ghost predicate UpdatesTo<Doc(!new)>(toml: Toml<Doc>, file: Bytes, edits: seq<Edit>, next: V.ConfigValue,
                                       written: Bytes)
  {
    && PathsOf(edits).Some? && NoneSetsNil(edits)
    && toml.decode(file).Some? && toml.parse(file).Some?
    && V.ApplyAll(toml.decode(file).value, PathsOf(edits).value) == Some(next) && toml.valid(next)
    && EditDocument(toml, toml.parse(file).value, PathsOf(edits).value).Some?
    && written == toml.render(EditDocument(toml, toml.parse(file).value, PathsOf(edits).value).value)
    && toml.decode(written) == Some(next)
  }

  /** An update succeeds, and leaves exactly this, iff its file is there and can be read, the operations come to
      something valid, and the file says it already or can be written. */
  lemma UpdatesIff<Doc(!new)>(toml: Toml<Doc>, s: State, w: World, edits: seq<Edit>, t: State)
    ensures Updated(toml, s, w, edits) == Some(t) <==>
            && Trim(s.path) != "" && s.path in s.files && w.readable
            && s.path in t.files && UpdatesTo(toml, s.files[s.path], edits, t.current, t.files[s.path])
            && t == s.(files := s.files[s.path := t.files[s.path]], current := t.current)
            && (t.files[s.path] == s.files[s.path] || w.writable)
  {
    if s.path in s.files && toml.decode(s.files[s.path]).Some? && toml.parse(s.files[s.path]).Some? {
      EditsSucceedIff(toml, toml.decode(s.files[s.path]).value, toml.parse(s.files[s.path]).value, edits);
    }
  }

  /** A path that was loaded can be updated iff it is not blank either and the operations come to something. */
  lemma UpdatableIff<Doc(!new)>(toml: Toml<Doc>, s: State, w: World, path: string, v: World, edits: seq<Edit>)
    requires Loaded(toml, s, w, path).1 && toml.decode([]) == Some(V.NO_CONFIG)
    ensures path in Loaded(toml, s, w, path).0.files
    ensures var t := Loaded(toml, s, w, path).0;
            Updated(toml, t, v, edits).Some? <==>
              && v.readable && Trim(path) != ""
              && exists next, written :: && UpdatesTo(toml, t.files[path], edits, next, written)
                                         && (written == t.files[path] || v.writable)
  {
    var t := Loaded(toml, s, w, path).0;
    if Updated(toml, t, v, edits).Some? {
      UpdatesIff(toml, t, v, edits, Updated(toml, t, v, edits).value);
    }
    forall next, written | && UpdatesTo(toml, t.files[path], edits, next, written) && v.readable && Trim(path) != ""
                           && (written == t.files[path] || v.writable)
      ensures Updated(toml, t, v, edits).Some?
    {
      UpdatesIff(toml, t, v, edits, t.(files := t.files[path := written], current := next));
    }
  }

  /** What LoadConfig reads or makes of a path. */
  function Content(s: State, w: World, path: string): Option<Bytes> {
    if path in s.files then Some(s.files[path]) else w.raced
  }

  /** A path can be loaded iff its file is there, under a name that is not blank, can be read and decoded, or is not
      there and can be created; then it is the path of the live configuration, which is what the file says. */
  lemma LoadableIff<Doc(!new)>(toml: Toml<Doc>, s: State, w: World, path: string)
    requires toml.decode([]) == Some(V.NO_CONFIG)
    ensures Loaded(toml, s, w, path).1 <==>
            && w.statable
            && match Content(s, w, path)
               case Some(file) => Trim(path) != "" && w.readable && toml.decode(file).Some?
               case None => w.creatable && w.closable
    ensures var t := Loaded(toml, s, w, path).0;
            Loaded(toml, s, w, path).1 ==>
              && t.path == path
              && t.files == s.files[path := if Content(s, w, path).Some? then Content(s, w, path).value else []]
              && toml.decode(t.files[path]) == Some(t.current)
  {
    assert path in s.files ==> s.files[path := s.files[path]] == s.files;
  }

  /** Whether it succeeds or not, a load leaves every file as it was, except that the one it is about may be there only
      now; and if it fails, path and live configuration are as they were. */
  lemma LoadLeaves<Doc(!new)>(toml: Toml<Doc>, s: State, w: World, path: string)
    ensures var t := Loaded(toml, s, w, path).0;
            && (!Loaded(toml, s, w, path).1 ==> t.path == s.path && t.current == s.current)
            && t.files == if path in s.files || !w.statable then s.files
                          else if w.raced.Some? then s.files[path := w.raced.value]
                          else if w.creatable then s.files[path := []]
                          else s.files
  {
  }
}

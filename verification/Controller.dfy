// The controller, the only component that spans the registries. Each method is proved to be steps of the control
// plane's state machine.
module Controllers {
  import opened Text
  import opened Services
  import opened ControlPlane
  import Transports
  import Routing
  import RouteRegistry

  datatype Error = OwnerRequired | StateRequired | AlreadyAttached | NoSession | TransportInUse
                 | Transport(transport: Transports.Error)

  datatype Failure = Failure(id: string, error: Routing.Error)

  datatype Result = Result(registered: seq<string>, failures: seq<Failure>, degraded: bool, error: Option<Error>)

  /** A declared route, and whether the Socket.IO server could create its namespace. */
  type Declared = (RouteDecl, bool)

  function Registrations(owner: string, ds: seq<Declared>): (r: seq<Action>)
    ensures |r| == |ds|
    ensures forall j :: 0 <= j < |ds| ==> r[j] == RegisterRoute(owner, ds[j].0, ds[j].1)
  {
    seq(|ds|, j requires 0 <= j < |ds| => RegisterRoute(owner, ds[j].0, ds[j].1))
  }

  function Unregistrations(owner: string, ids: seq<string>): (r: seq<Action>)
    ensures |r| == |ids|
    ensures forall j :: 0 <= j < |ids| ==> r[j] == UnregisterRoute(owner, ids[j])
  {
    seq(|ids|, j requires 0 <= j < |ids| => UnregisterRoute(owner, ids[j]))
  }

  /** The ids without an error, in order. */
  function Successes(ids: seq<string>, errors: seq<Option<Routing.Error>>): seq<string>
    requires |ids| == |errors|
  {
    if ids == [] then []
    else Successes(ids[..|ids| - 1], errors[..|ids| - 1]) + if errors[|ids| - 1].None? then [ids[|ids| - 1]] else []
  }

  /** The ids with an error, in order. */
  function Failures(ids: seq<string>, errors: seq<Option<Routing.Error>>): seq<Failure>
    requires |ids| == |errors|
  {
    if ids == [] then []
    else Failures(ids[..|ids| - 1], errors[..|ids| - 1])
         + if errors[|ids| - 1].Some? then [Failure(ids[|ids| - 1], errors[|ids| - 1].value)] else []
  }

  function DeclaredIds(ds: seq<Declared>): (r: seq<string>)
    ensures |r| == |ds| && forall j :: 0 <= j < |ds| ==> r[j] == ds[j].0.id
  {
    seq(|ds|, j requires 0 <= j < |ds| => ds[j].0.id)
  }

  function FailedIds(fs: seq<Failure>): (r: seq<string>)
    ensures |r| == |fs| && forall j :: 0 <= j < |fs| ==> r[j] == fs[j].id
  {
    seq(|fs|, j requires 0 <= j < |fs| => fs[j].id)
  }

  /** A batch is split: every declaration is either among the successes or among the failures, and just once. */
  lemma {:induction false} BatchIsSplit(ids: seq<string>, errors: seq<Option<Routing.Error>>)
    requires |ids| == |errors|
    ensures multiset(Successes(ids, errors)) + multiset(FailedIds(Failures(ids, errors))) == multiset(ids)
  {
    if ids != [] {
      var n := |ids| - 1;
      BatchIsSplit(ids[..n], errors[..n]);
      SplitStep(ids, errors);
      LastCounts(ids);
    }
  }

  lemma LastCounts(ids: seq<string>)
    requires ids != []
    ensures multiset(ids) == multiset(ids[..|ids| - 1]) + multiset{ids[|ids| - 1]}
  {
    assert ids == ids[..|ids| - 1] + [ids[|ids| - 1]];
  }

  lemma SplitStep(ids: seq<string>, errors: seq<Option<Routing.Error>>)
    requires |ids| == |errors| && ids != []
    ensures var n := |ids| - 1;
            && multiset(Successes(ids, errors)) == multiset(Successes(ids[..n], errors[..n]))
                 + (if errors[n].None? then multiset{ids[n]} else multiset{})
            && multiset(FailedIds(Failures(ids, errors))) == multiset(FailedIds(Failures(ids[..n], errors[..n])))
                 + (if errors[n].Some? then multiset{ids[n]} else multiset{})
  {
    var n := |ids| - 1;
    var s, f := Successes(ids[..n], errors[..n]), Failures(ids[..n], errors[..n]);
    if errors[n].Some? {
      FailedIdsNext(f, Failure(ids[n], errors[n].value));
      assert Failures(ids, errors) == f + [Failure(ids[n], errors[n].value)];
      assert Successes(ids, errors) == s;
    } else {
      assert Successes(ids, errors) == s + [ids[n]];
      assert Failures(ids, errors) == f;
    }
  }

  lemma FailedIdsNext(fs: seq<Failure>, f: Failure)
    ensures FailedIds(fs + [f]) == FailedIds(fs) + [f.id]
  {
  }

  /** A batch fails in part exactly when one of its declarations does. */
  lemma {:induction false} NoFailuresIff(ids: seq<string>, errors: seq<Option<Routing.Error>>)
    requires |ids| == |errors|
    ensures Failures(ids, errors) == [] <==> forall j :: 0 <= j < |ids| ==> errors[j].None?
  {
    if ids != [] {
      var n := |ids| - 1;
      NoFailuresIff(ids[..n], errors[..n]);
    }
  }

  /** A batch of registrations, each judged in the state that its predecessors leave. */
  ghost function RoutesRegistered(p: Plane, owner: string, ds: seq<Declared>): (q: Plane)
    requires Recorded(p)
    ensures Recorded(q)
  {
    if ds == [] then p
    else
      var d := ds[|ds| - 1];
      RouteRegistered(RoutesRegistered(p, owner, ds[..|ds| - 1]), owner, d.0, d.1)
  }

  ghost function RegistrationVerdicts(p: Plane, owner: string, ds: seq<Declared>): (r: seq<Option<Routing.Error>>)
    requires Recorded(p)
    ensures |r| == |ds|
  {
    if ds == [] then []
    else
      var before, d := ds[..|ds| - 1], ds[|ds| - 1];
      RegistrationVerdicts(p, owner, before) + [RouteRefusal(RoutesRegistered(p, owner, before), owner, d.0, d.1)]
  }

  ghost function RoutesUnregistered(p: Plane, owner: string, ids: seq<string>): (q: Plane)
    requires Recorded(p)
    ensures Recorded(q)
  {
    if ids == [] then p
    else RouteUnregistered(RoutesUnregistered(p, owner, ids[..|ids| - 1]), owner, ids[|ids| - 1])
  }

  ghost function UnregistrationVerdict(p: Plane, owner: string, id: string): Option<Routing.Error> {
    if Routing.RouteKey(owner, Trim(id)) in p.routing.byID then None else Some(Routing.NotRegistered)
  }

  ghost function UnregistrationVerdicts(p: Plane, owner: string, ids: seq<string>): (r: seq<Option<Routing.Error>>)
    requires Recorded(p)
    ensures |r| == |ids|
  {
    if ids == [] then []
    else
      var before := ids[..|ids| - 1];
      UnregistrationVerdicts(p, owner, before)
      + [UnregistrationVerdict(RoutesUnregistered(p, owner, before), owner, ids[|ids| - 1])]
  }

  /** A batch is a run of single steps. */
  lemma {:induction false} RegistrationsAreARun(p: Plane, owner: string, ds: seq<Declared>)
    requires Recorded(p)
    ensures RoutesRegistered(p, owner, ds) == Exec(p, Registrations(owner, ds))
  {
    if ds != [] {
      var n := |ds| - 1;
      RegistrationsAreARun(p, owner, ds[..n]);
      assert Registrations(owner, ds)[..n] == Registrations(owner, ds[..n]);
    }
  }

  lemma {:induction false} UnregistrationsAreARun(p: Plane, owner: string, ids: seq<string>)
    requires Recorded(p)
    ensures RoutesUnregistered(p, owner, ids) == Exec(p, Unregistrations(owner, ids))
  {
    if ids != [] {
      var n := |ids| - 1;
      UnregistrationsAreARun(p, owner, ids[..n]);
      assert Unregistrations(owner, ids)[..n] == Unregistrations(owner, ids[..n]);
    }
  }

  ghost predicate IsSplit(r: Result, ids: seq<string>, errors: seq<Option<Routing.Error>>)
    requires |errors| == |ids|
  {
    r.registered == Successes(ids, errors) && r.failures == Failures(ids, errors) && r.error.None?
  }

  function WithOutcome(r: Result, id: string, error: Option<Routing.Error>): Result {
    if error.Some? then r.(failures := r.failures + [Failure(id, error.value)])
    else r.(registered := r.registered + [id])
  }

  lemma SplitNext(r: Result, ids: seq<string>, errors: seq<Option<Routing.Error>>, id: string,
                  error: Option<Routing.Error>)
    requires |errors| == |ids| && IsSplit(r, ids, errors)
    ensures IsSplit(WithOutcome(r, id, error), ids + [id], errors + [error])
  {
    assert (ids + [id])[..|ids|] == ids && (errors + [error])[..|ids|] == errors;
  }

  lemma RegistrationsNext(p: Plane, owner: string, ds: seq<Declared>, n: nat)
    requires Recorded(p) && n < |ds|
    ensures RoutesRegistered(p, owner, ds[..n + 1])
            == RouteRegistered(RoutesRegistered(p, owner, ds[..n]), owner, ds[n].0, ds[n].1)
    ensures RegistrationVerdicts(p, owner, ds[..n + 1])
            == RegistrationVerdicts(p, owner, ds[..n])
               + [RouteRefusal(RoutesRegistered(p, owner, ds[..n]), owner, ds[n].0, ds[n].1)]
    ensures DeclaredIds(ds[..n + 1]) == DeclaredIds(ds[..n]) + [ds[n].0.id]
  {
    assert ds[..n + 1][..n] == ds[..n];
  }

  lemma UnregistrationsNext(p: Plane, owner: string, ids: seq<string>, n: nat)
    requires Recorded(p) && n < |ids|
    ensures RoutesUnregistered(p, owner, ids[..n + 1])
            == RouteUnregistered(RoutesUnregistered(p, owner, ids[..n]), owner, ids[n])
    ensures UnregistrationVerdicts(p, owner, ids[..n + 1])
            == UnregistrationVerdicts(p, owner, ids[..n])
               + [UnregistrationVerdict(RoutesUnregistered(p, owner, ids[..n]), owner, ids[n])]
    ensures ids[..n + 1] == ids[..n] + [ids[n]]
  {
    assert ids[..n + 1][..n] == ids[..n];
  }

  lemma BatchKeeps(p: Plane, batch: seq<Action>, owner: string)
    requires Inv(p)
    ensures forall degraded :: Inv(Finished(Exec(p, batch), owner, degraded))
  {
    RunKeeps(p, batch);
    forall degraded ensures Inv(Finished(Exec(p, batch), owner, degraded)) {
      StepKeeps(Exec(p, batch), Finish(owner, degraded));
    }
  }

  class Controller {
    var sessions: map<string, Instance>
    const transports: Transports.Registry
    const routes: RouteRegistry.Registry
    /** What the instances that were ever attached show of themselves, and who was published, in order. */
    ghost var records: map<Instance, Record>
    ghost var published: seq<Instance>

    ghost function View(): Plane
      reads this, transports, routes, routes.socket
    {
      Plane(sessions, transports.View(), routes.View(), records, published)
    }

    /** The registries work on the same transports, and the records are those of the instances. */
    ghost predicate Ready()
      reads this, transports, routes, routes.socket, records.Keys
    {
      && routes.transports == transports && routes.Valid() && transports.Valid()
      && (forall o :: o in sessions ==> sessions[o] in records)
      && Shown()
    }

    ghost predicate Shown()
      reads this, records.Keys
    {
      forall i :: i in records ==> records[i] == i.View()
    }

    ghost predicate Valid()
      reads this, transports, routes, routes.socket, records.Keys
    {
      Ready() && Inv(View())
    }

    constructor (transports: Transports.Registry, routes: RouteRegistry.Registry)
      requires transports.transports == map[] && routes.transports == transports
      requires routes.Valid() && routes.byID == map[]
      ensures Valid() && this.transports == transports && this.routes == routes
      ensures sessions == map[] && records == map[] && published == []
    {
      this.transports, this.routes := transports, routes;
      sessions, records, published := map[], map[], [];
    }

    method Attach(owner: string, state: Instance?) returns (error: Option<Error>)
      requires Valid()
      modifies this
      ensures Valid()
      ensures View() == Attached(old(View()), owner, state, if state == null then NEW_RECORD else state.View())
      ensures error == if Trim(owner) == "" then Some(OwnerRequired)
                       else if state == null then Some(StateRequired)
                       else if Trim(owner) in old(sessions) then Some(AlreadyAttached)
                       else None
    {
      AttachKeeps(View(), owner, state, if state == null then NEW_RECORD else state.View());
      var owner := Trim(owner);
      if owner == "" {
        return Some(OwnerRequired);
      }
      if state == null {
        return Some(StateRequired);
      }
      if owner in sessions {
        return Some(AlreadyAttached);
      }
      sessions := sessions[owner := state];
      records := records[state := state.View()];
      error := None;
    }

    method Detach(owner: string)
      requires Valid()
      modifies this, transports, routes, routes.socket
      ensures Valid()
      ensures View() == Detached(old(View()), owner)
    {
      DetachKeeps(View(), owner);
      RemoveOwner(owner);
    }

    method RemoveOwner(owner: string)
      requires Ready()
      modifies this`sessions, transports, routes, routes.socket
      ensures Ready()
      ensures View() == Detached(old(View()), owner)
    {
      routes.RemoveOwner(owner);
      transports.RemoveOwner(owner);
      sessions := sessions - {owner};
    }

    /** What publishOwner calls back with. */
    method PublishOwner(i: Instance)
      modifies this`published
      ensures published == old(published) + [i]
    {
      published := published + [i];
    }

    method NoteTransport(i: Instance, declaration: TransportDecl)
      requires Shown() && i in records
      modifies this`records, records.Keys
      ensures Shown() && records == old(records)[i := TransportAdded(i, old(records)[i], declaration)]
    {
      i.AddTransport(declaration);
      records := records[i := i.View()];
    }

    method NoteNoTransport(i: Instance, id: string)
      requires Shown() && i in records
      modifies this`records, records.Keys
      ensures Shown() && records == old(records)[i := TransportRemoved(i, old(records)[i], id)]
    {
      i.RemoveTransport(id);
      records := records[i := i.View()];
    }

    method NoteRoute(i: Instance, declaration: RouteDecl)
      requires Shown() && i in records
      modifies this`records, records.Keys
      ensures Shown() && records == old(records)[i := RouteAdded(i, old(records)[i], declaration)]
    {
      i.AddRoute(declaration);
      records := records[i := i.View()];
    }

    method NoteNoRoute(i: Instance, id: string)
      requires Shown() && i in records
      modifies this`records, records.Keys
      ensures Shown() && records == old(records)[i := RouteRemoved(i, old(records)[i], id)]
    {
      i.RemoveRoute(id);
      records := records[i := i.View()];
    }

    method ShowTransport(i: Instance, declaration: TransportDecl)
      requires Ready() && i in records
      modifies this`records, this`published, records.Keys
      ensures Ready()
      ensures View() == old(View()).(records := old(records)[i := TransportAdded(i, old(records)[i], declaration)],
                                     published := old(published) + [i])
    {
      NoteTransport(i, declaration);
      PublishOwner(i);
    }

    method ShowNoTransport(i: Instance, id: string)
      requires Ready() && i in records
      modifies this`records, this`published, records.Keys
      ensures Ready()
      ensures View() == old(View()).(records := old(records)[i := TransportRemoved(i, old(records)[i], id)],
                                     published := old(published) + [i])
    {
      NoteNoTransport(i, id);
      PublishOwner(i);
    }

    method ShowRoute(i: Instance, declaration: RouteDecl)
      requires Ready() && i in records
      modifies this`records, records.Keys
      ensures Ready()
      ensures View() == old(View()).(records := old(records)[i := RouteAdded(i, old(records)[i], declaration)])
    {
      NoteRoute(i, declaration);
    }

    method ShowNoRoute(i: Instance, id: string)
      requires Ready() && i in records
      modifies this`records, records.Keys
      ensures Ready()
      ensures View() == old(View()).(records := old(records)[i := RouteRemoved(i, old(records)[i], id)])
    {
      NoteNoRoute(i, id);
    }

    method RegisterTransport(owner: string, declaration: TransportDecl, probe: Transports.Probe)
      returns (error: Option<Error>, ghost made: Option<Transports.Binding>)
      requires Valid()
      modifies this, transports, records.Keys
      ensures Valid()
      ensures made.None? <==> owner !in old(sessions)
                              || Transports.Unprepared(owner, declaration, old(sessions)[owner], probe).Some?
      ensures made.None? ==> View() == old(View())
      ensures made.Some? ==> && fresh(made.value)
                             && Prepares(old(View()), owner, declaration, probe, made.value)
                             && View() == TransportRegistered(old(View()), owner, declaration, probe, made.value)
      ensures error == if owner !in old(sessions) then Some(NoSession)
                       else if made.None?
                       then Some(Transport(Transports.Unprepared(owner, declaration, old(sessions)[owner],
                           probe).value))
                       else if Transports.KeyOf(made.value) in old(transports.transports)
                       then Some(Transport(Transports.AlreadyRegistered))
                       else None
    {
      if owner !in sessions {
        return Some(NoSession), None;
      }
      ghost var before := View();
      error, made := AddTransport(owner, declaration, probe);
      if made.Some? {
        RegisterTransportKeeps(before, owner, declaration, probe, made.value);
      }
    }

    method Offer(owner: string, declaration: TransportDecl, i: Instance, probe: Transports.Probe)
      returns (refused: Option<Transports.Error>, ghost made: Option<Transports.Binding>)
      requires Ready()
      modifies transports
      ensures Ready()
      ensures made.None? <==> Transports.Unprepared(owner, declaration, i, probe).Some?
      ensures made.None? ==> refused == Transports.Unprepared(owner, declaration, i, probe) && View() == old(View())
      ensures made.Some? ==>
                && fresh(made.value)
                && Transports.IsPrepared(made.value, Trim(owner), declaration.(id := Trim(declaration.id)), i, probe)
                && View() == old(View()).(transports := Transports.Offered(old(View()).transports, made.value))
                && refused == if Transports.KeyOf(made.value) in old(transports.transports)
                              then Some(Transports.AlreadyRegistered) else None
    {
      refused, made := transports.Register(owner, declaration, i, probe);
    }

    method AddTransport(owner: string, declaration: TransportDecl, probe: Transports.Probe)
      returns (error: Option<Error>, ghost made: Option<Transports.Binding>)
      requires Ready() && owner in sessions
      modifies this`records, this`published, transports, records.Keys
      ensures Ready()
      ensures made.None? <==> Transports.Unprepared(owner, declaration, sessions[owner], probe).Some?
      ensures made.None? ==> View() == old(View())
      ensures made.Some? ==> && fresh(made.value)
                             && Prepares(old(View()), owner, declaration, probe, made.value)
                             && View() == TransportRegistered(old(View()), owner, declaration, probe, made.value)
      ensures error == if made.None?
                       then Some(Transport(Transports.Unprepared(owner, declaration, sessions[owner], probe).value))
                       else if Transports.KeyOf(made.value) in old(transports.transports)
                       then Some(Transport(Transports.AlreadyRegistered))
                       else None
    {
      var i := sessions[owner];
      var refused;
      refused, made := Offer(owner, declaration, i, probe);
      if refused.Some? {
        return Some(Transport(refused.value)), made;
      }
      ShowTransport(i, declaration);
      error := None;
    }

    method UnregisterTransport(owner: string, id: string) returns (error: Option<Error>)
      requires Valid()
      modifies this, transports, records.Keys
      ensures Valid()
      ensures View() == TransportUnregistered(old(View()), owner, id)
      ensures error == if owner !in old(sessions) then Some(NoSession)
                       else if Uses(old(routes.byID), owner, Trim(id)) then Some(TransportInUse)
                       else if Transports.Key(owner, Trim(id)) !in old(transports.transports)
                       then Some(Transport(Transports.NotRegistered))
                       else None
    {
      UnregisterTransportKeeps(View(), owner, id);
      if owner !in sessions {
        return Some(NoSession);
      }
      error := DropTransport(owner, id);
    }

    method Discard(owner: string, id: string) returns (refused: Option<Transports.Error>)
      requires Ready()
      modifies transports
      ensures Ready()
      ensures View() == old(View()).(transports :=
                          Transports.Unregistered(old(View()).transports, Transports.Key(owner, Trim(id))))
      ensures refused == if Transports.Key(owner, Trim(id)) in old(transports.transports) then None
                         else Some(Transports.NotRegistered)
    {
      refused := transports.Unregister(owner, id);
    }

    method DropTransport(owner: string, id: string) returns (error: Option<Error>)
      requires Ready() && owner in sessions
      modifies this`records, this`published, transports, records.Keys
      ensures Ready()
      ensures View() == TransportUnregistered(old(View()), owner, id)
      ensures error == if Uses(old(routes.byID), owner, Trim(id)) then Some(TransportInUse)
                       else if Transports.Key(owner, Trim(id)) !in old(transports.transports)
                       then Some(Transport(Transports.NotRegistered))
                       else None
    {
      var used := routes.UsesTransport(owner, Trim(id));
      if used {
        return Some(TransportInUse);
      }
      var i := sessions[owner];
      var refused := Discard(owner, id);
      if refused.Some? {
        return Some(Transport(refused.value));
      }
      ShowNoTransport(i, Trim(id));
      error := None;
    }

    method RegisterRoutes(owner: string, declarations: seq<Declared>) returns (r: Result)
      requires Valid()
      modifies this, routes, routes.socket, records.Keys
      ensures Valid()
      ensures owner !in old(sessions) ==> r == Result([], [], true, Some(NoSession)) && View() == old(View())
      ensures owner in old(sessions) ==>
                && IsSplit(r, DeclaredIds(declarations), RegistrationVerdicts(old(View()), owner, declarations))
                && (r.degraded <==> r.failures != [])
                && View() == Finished(RoutesRegistered(old(View()), owner, declarations), owner, r.degraded)
    {
      if owner !in sessions {
        return Result([], [], true, Some(NoSession));
      }
      RegistrationsAreARun(View(), owner, declarations);
      BatchKeeps(View(), Registrations(owner, declarations), owner);
      r := RegisterBatch(owner, declarations);
    }

    method RegisterBatch(owner: string, declarations: seq<Declared>) returns (r: Result)
      requires Ready() && owner in sessions
      modifies this`records, this`published, routes, routes.socket, records.Keys
      ensures Ready()
      ensures IsSplit(r, DeclaredIds(declarations), RegistrationVerdicts(old(View()), owner, declarations))
      ensures r.degraded <==> r.failures != []
      ensures View() == Finished(RoutesRegistered(old(View()), owner, declarations), owner, r.degraded)
    {
      r := RegisterEach(owner, declarations);
      FinishBatch(owner, r.degraded);
    }

    method RegisterNext(ghost before: Plane, owner: string, declarations: seq<Declared>, n: nat, sofar: Result)
      returns (r: Result)
      requires Ready() && owner in sessions && n < |declarations|
      requires Recorded(before) && View() == RoutesRegistered(before, owner, declarations[..n])
      requires IsSplit(sofar, DeclaredIds(declarations[..n]), RegistrationVerdicts(before, owner, declarations[..n]))
      requires sofar.degraded <==> sofar.failures != []
      modifies this`records, routes, routes.socket, records.Keys
      ensures Ready() && records.Keys == old(records).Keys
      ensures View() == RoutesRegistered(before, owner, declarations[..n + 1])
      ensures IsSplit(r, DeclaredIds(declarations[..n + 1]), RegistrationVerdicts(before, owner, declarations[..n + 1]))
      ensures r.degraded <==> r.failures != []
    {
      var declaration := declarations[n].0;
      RegistrationsNext(before, owner, declarations, n);
      var error := RegisterOne(owner, declaration, declarations[n].1);
      SplitNext(sofar, DeclaredIds(declarations[..n]), RegistrationVerdicts(before, owner, declarations[..n]),
                declaration.id, error);
      r := WithOutcome(sofar, declaration.id, error);
      if error.Some? {
        r := r.(degraded := true);
      }
    }

    method RegisterEach(owner: string, declarations: seq<Declared>) returns (r: Result)
      requires Ready() && owner in sessions
      modifies this`records, routes, routes.socket, records.Keys
      ensures Ready() && records.Keys == old(records).Keys
      ensures IsSplit(r, DeclaredIds(declarations), RegistrationVerdicts(old(View()), owner, declarations))
      ensures r.degraded <==> r.failures != []
      ensures View() == RoutesRegistered(old(View()), owner, declarations)
    {
      ghost var before := View();
      r := Result([], [], false, None);
      for n := 0 to |declarations|
        invariant Ready() && owner in sessions && records.Keys == before.records.Keys
        invariant View() == RoutesRegistered(before, owner, declarations[..n])
        invariant IsSplit(r, DeclaredIds(declarations[..n]), RegistrationVerdicts(before, owner, declarations[..n]))
        invariant r.degraded <==> r.failures != []
      {
        r := RegisterNext(before, owner, declarations, n, r);
      }
      assert declarations[..|declarations|] == declarations;
    }

    method Bind(owner: string, declaration: RouteDecl, creatable: bool) returns (error: Option<Routing.Error>)
      requires Ready()
      modifies routes, routes.socket
      ensures Ready()
      ensures error == RouteRefusal(old(View()), owner, declaration, creatable)
      ensures View() == old(View()).(routing := Routing.Registered(old(View()).routing, old(View()).transports.live,
                                                                    owner, declaration, creatable))
    {
      error := routes.Register(owner, declaration, creatable);
    }

    method RegisterOne(owner: string, declaration: RouteDecl, creatable: bool) returns (error: Option<Routing.Error>)
      requires Ready() && owner in sessions
      modifies this`records, routes, routes.socket, records.Keys
      ensures Ready() && records.Keys == old(records).Keys
      ensures error == RouteRefusal(old(View()), owner, declaration, creatable)
      ensures View() == RouteRegistered(old(View()), owner, declaration, creatable)
    {
      var i := sessions[owner];
      error := Bind(owner, declaration, creatable);
      if error.None? {
        ShowRoute(i, declaration);
      }
    }

    method FinishBatch(owner: string, degraded: bool)
      requires Ready() && owner in sessions
      modifies this`records, this`published, records.Keys
      ensures Ready()
      ensures View() == Finished(old(View()), owner, degraded)
    {
      var i := sessions[owner];
      if degraded {
        i.MarkDegraded();
      }
      records := records[i := i.View()];
      PublishOwner(i);
    }

    method UnregisterRoutes(owner: string, ids: seq<string>) returns (r: Result)
      requires Valid()
      modifies this, routes, routes.socket, records.Keys
      ensures Valid()
      ensures owner !in old(sessions) ==> r == Result([], [], false, Some(NoSession)) && View() == old(View())
      ensures owner in old(sessions) ==>
                && IsSplit(r, ids, UnregistrationVerdicts(old(View()), owner, ids))
                && !r.degraded
                && View() == Finished(RoutesUnregistered(old(View()), owner, ids), owner, false)
    {
      if owner !in sessions {
        return Result([], [], false, Some(NoSession));
      }
      UnregistrationsAreARun(View(), owner, ids);
      BatchKeeps(View(), Unregistrations(owner, ids), owner);
      r := UnregisterBatch(owner, ids);
    }

    method UnregisterBatch(owner: string, ids: seq<string>) returns (r: Result)
      requires Ready() && owner in sessions
      modifies this`records, this`published, routes, routes.socket, records.Keys
      ensures Ready()
      ensures IsSplit(r, ids, UnregistrationVerdicts(old(View()), owner, ids)) && !r.degraded
      ensures View() == Finished(RoutesUnregistered(old(View()), owner, ids), owner, false)
    {
      r := UnregisterEach(owner, ids);
      FinishBatch(owner, false);
    }

    method UnregisterNext(ghost before: Plane, owner: string, ids: seq<string>, n: nat, sofar: Result)
      returns (r: Result)
      requires Ready() && owner in sessions && n < |ids|
      requires Recorded(before) && View() == RoutesUnregistered(before, owner, ids[..n])
      requires IsSplit(sofar, ids[..n], UnregistrationVerdicts(before, owner, ids[..n]))
      modifies this`records, routes, routes.socket, records.Keys
      ensures Ready() && records.Keys == old(records).Keys
      ensures View() == RoutesUnregistered(before, owner, ids[..n + 1])
      ensures IsSplit(r, ids[..n + 1], UnregistrationVerdicts(before, owner, ids[..n + 1]))
              && r.degraded == sofar.degraded
    {
      UnregistrationsNext(before, owner, ids, n);
      var error := UnregisterOne(owner, ids[n]);
      SplitNext(sofar, ids[..n], UnregistrationVerdicts(before, owner, ids[..n]), ids[n], error);
      r := WithOutcome(sofar, ids[n], error);
    }

    method UnregisterEach(owner: string, ids: seq<string>) returns (r: Result)
      requires Ready() && owner in sessions
      modifies this`records, routes, routes.socket, records.Keys
      ensures Ready() && records.Keys == old(records).Keys
      ensures IsSplit(r, ids, UnregistrationVerdicts(old(View()), owner, ids)) && !r.degraded
      ensures View() == RoutesUnregistered(old(View()), owner, ids)
    {
      ghost var before := View();
      r := Result([], [], false, None);
      for n := 0 to |ids|
        invariant Ready() && owner in sessions && records.Keys == before.records.Keys
        invariant View() == RoutesUnregistered(before, owner, ids[..n])
        invariant IsSplit(r, ids[..n], UnregistrationVerdicts(before, owner, ids[..n])) && !r.degraded
      {
        r := UnregisterNext(before, owner, ids, n, r);
      }
      assert ids[..|ids|] == ids;
    }

    method Unbind(owner: string, id: string) returns (error: Option<Routing.Error>)
      requires Ready()
      modifies routes, routes.socket
      ensures Ready()
      ensures error == UnregistrationVerdict(old(View()), owner, id)
      ensures View() == old(View()).(routing := Routing.Unregistered(old(View()).routing, owner, id))
    {
      error := routes.Unregister(owner, id);
    }

    method UnregisterOne(owner: string, id: string) returns (error: Option<Routing.Error>)
      requires Ready() && owner in sessions
      modifies this`records, routes, routes.socket, records.Keys
      ensures Ready() && records.Keys == old(records).Keys
      ensures error == UnregistrationVerdict(old(View()), owner, id)
      ensures View() == RouteUnregistered(old(View()), owner, id)
    {
      var i := sessions[owner];
      error := Unbind(owner, id);
      if error.None? {
        ShowNoRoute(i, Trim(id));
      }
    }
  }
}

// The binding control plane as one state machine: sessions, transports, routes and the services' own records.
module ControlPlane {
  import opened Text
  import opened Services
  import Transports
  import Sockets
  import Routing

  datatype Plane = Plane(
    sessions: map<string, Instance>,
    transports: Transports.Table,
    routing: Routing.Table,
    records: map<Instance, Record>,
    published: seq<Instance>)

  /** The control plane's steps. A batch of routes is its routes one by one and then a Finish. The object b is the
      transport that gets prepared, creatable says whether the Socket.IO server could create the namespace. */
  datatype Action =
    | Attach(owner: string, instance: Instance?, record: Record)
    | Detach(owner: string)
    | RegisterTransport(owner: string, transport: TransportDecl, probe: Transports.Probe, b: Transports.Binding)
    | UnregisterTransport(owner: string, id: string)
    | RegisterRoute(owner: string, route: RouteDecl, creatable: bool)
    | UnregisterRoute(owner: string, id: string)
    | Finish(owner: string, degraded: bool)
    | Reserve(owner: string, patterns: seq<string>)

  ghost function Init(withSockets: bool): Plane {
    Plane(map[], Transports.Table(map[], multiset{}),
          Routing.Table(map[], map[], map[], if withSockets then Some(Sockets.Table(map[], {})) else None), map[], [])
  }

  /** Every attached instance has a record here. */
  ghost predicate Recorded(p: Plane) {
    forall o :: o in p.sessions ==> p.sessions[o] in p.records
  }

  function Attached(p: Plane, owner: string, i: Instance?, r: Record): Plane {
    if Trim(owner) == "" || i == null || Trim(owner) in p.sessions then p
    else p.(sessions := p.sessions[Trim(owner) := i], records := p.records[i := r])
  }

  ghost function Detached(p: Plane, owner: string): Plane {
    p.(routing := Routing.OwnerRemoved(p.routing, owner),
       transports := Transports.OwnerRemoved(p.transports, owner),
       sessions := p.sessions - {owner})
  }

  ghost predicate Prepares(p: Plane, owner: string, d: TransportDecl, probe: Transports.Probe, b: Transports.Binding) {
    && owner in p.sessions
    && Transports.Unprepared(owner, d, p.sessions[owner], probe).None?
    && Transports.IsPrepared(b, Trim(owner), d.(id := Trim(d.id)), p.sessions[owner], probe)
  }

  ghost function TransportRegistered(p: Plane, owner: string, d: TransportDecl, probe: Transports.Probe,
                                     b: Transports.Binding): Plane
    requires Recorded(p)
  {
    if !Prepares(p, owner, d, probe, b) then p
    else if Transports.KeyOf(b) in p.transports.live then p.(transports := Transports.Offered(p.transports, b))
    else
      var i := p.sessions[owner];
      p.(transports := Transports.Offered(p.transports, b),
         records := p.records[i := TransportAdded(i, p.records[i], d)],
         published := p.published + [i])
  }

  ghost predicate Uses(byID: map<Routing.RouteKey, Routing.Binding>, owner: string, id: string) {
    exists k :: k in byID && byID[k].owner == owner && byID[k].route.transportID == id
  }

  ghost function TransportUnregistered(p: Plane, owner: string, id: string): Plane
    requires Recorded(p)
  {
    var k := Transports.Key(owner, Trim(id));
    if owner !in p.sessions || Uses(p.routing.byID, owner, Trim(id)) || k !in p.transports.live then p
    else
      var i := p.sessions[owner];
      p.(transports := Transports.Unregistered(p.transports, k),
         records := p.records[i := TransportRemoved(i, p.records[i], Trim(id))],
         published := p.published + [i])
  }

  ghost function RouteRefusal(p: Plane, owner: string, d: RouteDecl, creatable: bool): Option<Routing.Error> {
    Routing.Refusal(p.routing, p.transports.live, owner, d, creatable)
  }

  ghost function RouteRegistered(p: Plane, owner: string, d: RouteDecl, creatable: bool): Plane
    requires Recorded(p)
  {
    if owner !in p.sessions || RouteRefusal(p, owner, d, creatable).Some? then p
    else
      var i := p.sessions[owner];
      p.(routing := Routing.Registered(p.routing, p.transports.live, owner, d, creatable),
         records := p.records[i := RouteAdded(i, p.records[i], d)])
  }

  ghost function RouteUnregistered(p: Plane, owner: string, id: string): Plane
    requires Recorded(p)
  {
    if owner !in p.sessions || Routing.RouteKey(owner, Trim(id)) !in p.routing.byID then p
    else
      var i := p.sessions[owner];
      p.(routing := Routing.Unregistered(p.routing, owner, id),
         records := p.records[i := RouteRemoved(i, p.records[i], Trim(id))])
  }

  ghost function Finished(p: Plane, owner: string, degraded: bool): Plane
    requires Recorded(p)
  {
    if owner !in p.sessions then p
    else
      var i := p.sessions[owner];
      var r := p.records[i];
      p.(records := p.records[i := r.(degraded := r.degraded || degraded)], published := p.published + [i])
  }

  ghost function Step(p: Plane, a: Action): (q: Plane)
    requires Recorded(p)
    ensures Recorded(q)
  {
    match a
    case Attach(owner, i, r) => Attached(p, owner, i, r)
    case Detach(owner) => Detached(p, owner)
    case RegisterTransport(owner, d, probe, b) => TransportRegistered(p, owner, d, probe, b)
    case UnregisterTransport(owner, id) => TransportUnregistered(p, owner, id)
    case RegisterRoute(owner, d, creatable) => RouteRegistered(p, owner, d, creatable)
    case UnregisterRoute(owner, id) => RouteUnregistered(p, owner, id)
    case Finish(owner, degraded) => Finished(p, owner, degraded)
    case Reserve(owner, patterns) => p.(routing := Routing.Reserved(p.routing, owner, patterns))
  }

  ghost function Exec(p: Plane, run: seq<Action>): (q: Plane)
    requires Recorded(p)
    ensures Recorded(q)
  {
    if run == [] then p else Step(Exec(p, run[..|run| - 1]), run[|run| - 1])
  }

  // No binding dangles.

  ghost predicate RoutesHold(p: Plane) {
    forall k :: k in p.routing.byID ==>
      && k.owner in p.sessions
      && Transports.Key(k.owner, p.routing.byID[k].route.transportID) in p.transports.live
      && p.transports.live[Transports.Key(k.owner, p.routing.byID[k].route.transportID)] == p.routing.byID[k].transport
  }

  ghost predicate TransportsHold(p: Plane) {
    forall k :: k in p.transports.live ==>
      k.owner in p.sessions && p.transports.live[k].endpoint == p.sessions[k.owner]
  }

  ghost predicate NamesTrimmed(p: Plane) {
    && (forall o :: o in p.sessions ==> Trimmed(o) && o != "")
    && (forall k :: k in p.transports.live ==> Trimmed(k.id))
    && (forall k :: k in p.routing.byID ==> Trimmed(k.id))
  }

  ghost predicate Inv(p: Plane) {
    && Recorded(p)
    && Routing.Valid(p.routing)
    && Transports.Keyed(p.transports.live)
    && RoutesHold(p) && TransportsHold(p)
    && NamesTrimmed(p)
  }

  lemma AttachKeeps(p: Plane, owner: string, i: Instance?, r: Record)
    requires Inv(p)
    ensures Inv(Attached(p, owner, i, r))
  {
    TrimIdempotent(owner);
  }

  /** Exactly what belongs to others is still there. */
  ghost predicate OnlyOthers(p: Plane, q: Plane, owner: string) {
    && (forall o :: o in q.sessions <==> o in p.sessions && o != owner)
    && (forall o :: o in q.sessions ==> q.sessions[o] == p.sessions[o])
    && (forall k :: k in q.transports.live <==> k in p.transports.live && k.owner != owner)
    && (forall k :: k in q.transports.live ==> q.transports.live[k] == p.transports.live[k])
    && (forall k :: k in q.routing.byID ==> k in p.routing.byID && k.owner != owner
                                            && q.routing.byID[k] == p.routing.byID[k])
  }

  lemma DetachedOnlyOthers(p: Plane, owner: string)
    requires forall k :: k in p.routing.byID ==> Routing.RouteKeyOf(p.routing.byID[k]) == k
    ensures OnlyOthers(p, Detached(p, owner), owner)
  {
    assert forall k :: k in p.routing.byID ==> p.routing.byID[k].owner == k.owner;
  }

  lemma OthersHold(p: Plane, q: Plane, owner: string)
    requires RoutesHold(p) && TransportsHold(p) && NamesTrimmed(p) && Transports.Keyed(p.transports.live)
    requires OnlyOthers(p, q, owner)
    ensures RoutesHold(q) && TransportsHold(q) && NamesTrimmed(q) && Transports.Keyed(q.transports.live)
  {
  }

  lemma DetachKeeps(p: Plane, owner: string)
    requires Inv(p)
    ensures Inv(Detached(p, owner))
  {
    Routing.OwnerRemovedKeeps(p.routing, owner);
    DetachedOnlyOthers(p, owner);
    OthersHold(p, Detached(p, owner), owner);
  }

  lemma RegisterTransportKeeps(p: Plane, owner: string, d: TransportDecl, probe: Transports.Probe,
                               b: Transports.Binding)
    requires Inv(p)
    ensures Inv(TransportRegistered(p, owner, d, probe, b))
  {
    if Prepares(p, owner, d, probe, b) {
      TrimIdempotent(d.id);
      MoreTransportsKeep(p, TransportRegistered(p, owner, d, probe, b), b);
    }
  }

  lemma MoreTransportsHold(p: Plane, q: Plane, b: Transports.Binding)
    requires RoutesHold(p) && TransportsHold(p) && NamesTrimmed(p) && Transports.Keyed(p.transports.live)
    requires q.sessions == p.sessions && q.routing == p.routing
    requires b.owner in p.sessions && b.endpoint == p.sessions[b.owner] && Trimmed(b.decl.id)
    requires q.transports == Transports.Offered(p.transports, b)
    ensures RoutesHold(q) && TransportsHold(q) && NamesTrimmed(q) && Transports.Keyed(q.transports.live)
  {
  }

  lemma MoreTransportsKeep(p: Plane, q: Plane, b: Transports.Binding)
    requires Inv(p) && Recorded(q) && q.sessions == p.sessions && q.routing == p.routing
    requires b.owner in p.sessions && b.endpoint == p.sessions[b.owner] && Trimmed(b.decl.id)
    requires q.transports == Transports.Offered(p.transports, b)
    ensures Inv(q)
  {
    MoreTransportsHold(p, q, b);
  }

  lemma FewerTransportsHold(p: Plane, q: Plane, k: Transports.Key)
    requires RoutesHold(p) && TransportsHold(p) && NamesTrimmed(p) && Transports.Keyed(p.transports.live)
    requires q.sessions == p.sessions && q.routing == p.routing && q.transports.live == p.transports.live - {k}
    requires forall r :: r in p.routing.byID ==> Transports.Key(r.owner, p.routing.byID[r].route.transportID) != k
    ensures RoutesHold(q) && TransportsHold(q) && NamesTrimmed(q) && Transports.Keyed(q.transports.live)
  {
  }

  lemma UnregisterTransportKeeps(p: Plane, owner: string, id: string)
    requires Inv(p)
    ensures Inv(TransportUnregistered(p, owner, id))
  {
    var k := Transports.Key(owner, Trim(id));
    if owner in p.sessions && !Uses(p.routing.byID, owner, Trim(id)) && k in p.transports.live {
      forall r | r in p.routing.byID ensures Transports.Key(r.owner, p.routing.byID[r].route.transportID) != k {
        assert p.routing.byID[r].owner == r.owner;
      }
      FewerTransportsHold(p, TransportUnregistered(p, owner, id), k);
    }
  }

  lemma RegisterRouteKeeps(p: Plane, owner: string, d: RouteDecl, creatable: bool)
    requires Inv(p)
    ensures Inv(RouteRegistered(p, owner, d, creatable))
  {
    if owner in p.sessions && RouteRefusal(p, owner, d, creatable).None? {
      var b := Routing.Bound(p.transports.live, owner, d);
      Routing.RegisteredKeeps(p.routing, p.transports.live, owner, d, creatable);
      Routing.AcceptedIsAdmissible(p.routing, p.transports.live, owner, d, creatable);
      TrimIdempotent(d.id);
      assert RouteRegistered(p, owner, d, creatable).routing.byID == p.routing.byID[Routing.RouteKeyOf(b) := b];
    }
  }

  lemma FewerRoutesKeep(p: Plane, q: Plane, k: Routing.RouteKey)
    requires Inv(p) && Recorded(q) && Routing.Valid(q.routing)
    requires q.sessions == p.sessions && q.transports == p.transports && q.routing.byID == p.routing.byID - {k}
    ensures Inv(q)
  {
  }

  lemma UnregisterKeepsRouting(t: Routing.Table, owner: string, id: string)
    requires Routing.Valid(t)
    ensures Routing.Valid(Routing.Unregistered(t, owner, id))
    ensures Routing.Unregistered(t, owner, id).byID == t.byID - {Routing.RouteKey(owner, Trim(id))}
  {
    if Routing.RouteKey(owner, Trim(id)) in t.byID {
      Routing.RemovedKeeps(t, Routing.RouteKey(owner, Trim(id)));
    }
  }

  lemma UnregisterRouteKeeps(p: Plane, owner: string, id: string)
    requires Inv(p)
    ensures Inv(RouteUnregistered(p, owner, id))
  {
    var k := Routing.RouteKey(owner, Trim(id));
    if owner in p.sessions && k in p.routing.byID {
      UnregisterKeepsRouting(p.routing, owner, id);
      FewerRoutesKeep(p, RouteUnregistered(p, owner, id), k);
    }
  }

  lemma StepKeeps(p: Plane, a: Action)
    requires Inv(p)
    ensures Inv(Step(p, a))
  {
    match a
    case Attach(owner, i, r) => AttachKeeps(p, owner, i, r);
    case Detach(owner) => DetachKeeps(p, owner);
    case RegisterTransport(owner, d, probe, b) => RegisterTransportKeeps(p, owner, d, probe, b);
    case UnregisterTransport(owner, id) => UnregisterTransportKeeps(p, owner, id);
    case RegisterRoute(owner, d, creatable) => RegisterRouteKeeps(p, owner, d, creatable);
    case UnregisterRoute(owner, id) => UnregisterRouteKeeps(p, owner, id);
    case Finish(owner, degraded) =>
    case Reserve(owner, patterns) => Routing.ReservedKeeps(p.routing, owner, patterns);
  }

  lemma {:induction false} RunKeeps(p: Plane, run: seq<Action>)
    requires Inv(p)
    ensures Inv(Exec(p, run))
  {
    if run != [] {
      RunKeeps(p, run[..|run| - 1]);
      StepKeeps(Exec(p, run[..|run| - 1]), run[|run| - 1]);
    }
  }

  /** In every reachable state every binding holds on to something that is there: a route to the very transport that
      is registered, a transport and a namespace to the instance of the owner's session. */
  lemma NothingDangles(withSockets: bool, run: seq<Action>)
    ensures Recorded(Init(withSockets))
    ensures var p := Exec(Init(withSockets), run); RoutesHold(p) && TransportsHold(p)
    ensures var p := Exec(Init(withSockets), run);
            forall n :: Routing.NamespaceOwner(p.routing, n).service != "" ==>
              && Routing.NamespaceOwner(p.routing, n).service in p.sessions
              && Routing.NamespaceOwner(p.routing, n).endpoint
                  == p.sessions[Routing.NamespaceOwner(p.routing, n).service]
  {
    RunKeeps(Init(withSockets), run);
    var p := Exec(Init(withSockets), run);
    forall n | Routing.NamespaceOwner(p.routing, n).service != ""
      ensures Routing.NamespaceOwner(p.routing, n).service in p.sessions
      ensures Routing.NamespaceOwner(p.routing, n).endpoint == p.sessions[Routing.NamespaceOwner(p.routing, n).service]
    {
      var o := Routing.NamespaceOwner(p.routing, n);
      assert p.routing.byID[Routing.RouteKey(o.service, o.routeID)].route.socket == Some(n);
    }
  }

  /** In every reachable state the two tables of HTTP routes hold the same bindings, every owned namespace is claimed by
      exactly its route, and the routes at one pattern are allowed to be there together. */
  lemma TablesAlwaysAgree(withSockets: bool, run: seq<Action>)
    ensures Recorded(Init(withSockets))
    ensures Routing.Valid(Exec(Init(withSockets), run).routing)
  {
    RunKeeps(Init(withSockets), run);
  }
}

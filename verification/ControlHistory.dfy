// What holds over whole runs of the control plane.
module ControlHistory {
  import opened Text
  import opened Services
  import opened ControlPlane
  import Controllers
  import Transports
  import Sockets
  import Routing
  import RouteRegistry

  // Detach.

  /** Detaching an owner takes exactly what is its own and leaves all else as it was. */
  lemma DetachRemovesExactly(p: Plane, owner: string)
    requires Inv(p)
    ensures var q := Detached(p, owner);
            && (forall k :: k in q.routing.byID <==> k in p.routing.byID && k.owner != owner)
            && (forall k :: k in q.routing.byID ==> q.routing.byID[k] == p.routing.byID[k])
            && (forall k :: k in q.transports.live <==> k in p.transports.live && k.owner != owner)
            && (forall k :: k in q.transports.live ==> q.transports.live[k] == p.transports.live[k])
            && (forall o :: o in q.sessions <==> o in p.sessions && o != owner)
            && (forall o :: o in q.sessions ==> q.sessions[o] == p.sessions[o])
            && q.records == p.records && q.published == p.published && q.routing.reserved == p.routing.reserved
  {
    forall k | k in p.routing.byID ensures p.routing.byID[k].owner == k.owner {
      assert Routing.RouteKeyOf(p.routing.byID[k]) == k;
    }
  }

  lemma DetachReleasesExactly(p: Plane, owner: string)
    requires Inv(p)
    ensures var q := Detached(p, owner);
            && (forall h :: h in q.routing.http <==> h in p.routing.http && p.routing.http[h].owner != owner)
            && (forall h :: h in q.routing.http ==> q.routing.http[h] == p.routing.http[h])
            && (forall n :: Routing.NamespaceOwner(q.routing, n) ==
                            if Routing.NamespaceOwner(p.routing, n).service == owner then Sockets.NO_OWNER
                            else Routing.NamespaceOwner(p.routing, n))
  {
    forall n ensures Routing.NamespaceOwner(Detached(p, owner).routing, n) ==
                     if Routing.NamespaceOwner(p.routing, n).service == owner then Sockets.NO_OWNER
                     else Routing.NamespaceOwner(p.routing, n)
    {
      Routing.OwnerRemovedNamespace(p.routing, owner, n);
    }
  }

  /** Attach trims the owner and Detach does not: a detach by the name of the attach ends the session exactly when
      that name is trimmed, and otherwise it changes nothing. */
  lemma DetachReleasesIff(p: Plane, name: string)
    requires Inv(p) && Trim(name) in p.sessions
    ensures Trim(name) !in Detached(p, name).sessions <==> Trimmed(name)
    ensures !Trimmed(name) ==> Routing.Same(Detached(p, name).routing, p.routing)
                               && Detached(p, name).transports == p.transports
                                   && Detached(p, name).sessions == p.sessions
  {
    var q := Detached(p, name);
    if !Trimmed(name) {
      TrimmedIff(name);
      DetachOfStranger(p, name);
    }
  }

  lemma DetachOfStranger(p: Plane, name: string)
    requires Inv(p) && name !in p.sessions && name != ""
    ensures Routing.Same(Detached(p, name).routing, p.routing)
    ensures Detached(p, name).transports == p.transports && Detached(p, name).sessions == p.sessions
  {
    NoTransportsOfStranger(p, name);
    NoRoutesOfStranger(p, name);
    forall n ensures Routing.NamespaceOwner(Detached(p, name).routing, n) == Routing.NamespaceOwner(p.routing, n) {
      Routing.OwnerRemovedNamespace(p.routing, name, n);
      NoNamespacesOfStranger(p, name, n);
    }
  }

  lemma NoTransportsOfStranger(p: Plane, name: string)
    requires Inv(p) && name !in p.sessions
    ensures Transports.OwnerRemoved(p.transports, name) == p.transports
  {
    assert forall k :: k in p.transports.live ==> k.owner != name;
    assert Transports.OwnedBy(p.transports.live, name) == {};
    assert Transports.OwnerRemoved(p.transports, name).live == p.transports.live;
  }

  lemma NoRoutesOfStranger(p: Plane, name: string)
    requires Inv(p) && name !in p.sessions
    ensures Routing.OwnerRemoved(p.routing, name).byID == p.routing.byID
    ensures Routing.OwnerRemoved(p.routing, name).http == p.routing.http
  {
    NoRouteOfStranger(p, name);
    RemovesNothing(p.routing, name);
  }

  lemma RemovesNothing(t: Routing.Table, name: string)
    requires forall k :: k in t.byID ==> t.byID[k].owner != name
    requires forall h :: h in t.http ==> t.http[h].owner != name
    ensures Routing.OwnerRemoved(t, name).byID == t.byID
    ensures Routing.OwnerRemoved(t, name).http == t.http
  {
  }

  lemma NoRouteOfStranger(p: Plane, name: string)
    requires Inv(p) && name !in p.sessions
    ensures forall k :: k in p.routing.byID ==> p.routing.byID[k].owner != name
    ensures forall h :: h in p.routing.http ==> p.routing.http[h].owner != name
  {
    forall k | k in p.routing.byID ensures p.routing.byID[k].owner != name {
      assert Routing.RouteKeyOf(p.routing.byID[k]) == k;
    }
    forall h | h in p.routing.http ensures p.routing.http[h].owner != name {
      assert p.routing.byID[Routing.RouteKeyOf(p.routing.http[h])] == p.routing.http[h];
    }
  }

  lemma NoNamespacesOfStranger(p: Plane, name: string, n: string)
    requires Inv(p) && name !in p.sessions && name != ""
    ensures Routing.NamespaceOwner(p.routing, n).service != name
  {
    var o := Routing.NamespaceOwner(p.routing, n);
    assert o.service != "" ==> Routing.RouteKey(o.service, o.routeID) in p.routing.byID;
  }

  // Requests.

  /** A request that a route is chosen for reaches a live session through a transport that is still registered. */
  lemma ChosenRouteIsLive(p: Plane, verb: string, path: string, b: Routing.Binding)
    requires Inv(p) && RouteRegistry.IsAnswer(p.routing.http, verb, path, RouteRegistry.Chosen(b))
    ensures b.owner in p.sessions && b.transport.endpoint == p.sessions[b.owner]
    ensures Transports.Key(b.owner, b.route.transportID) in p.transports.live
    ensures p.transports.live[Transports.Key(b.owner, b.route.transportID)] == b.transport
  {
    ChosenIsRegistered(p.routing.http, verb, path, b);
    RegisteredIsLive(p, b);
  }

  lemma RegisteredIsLive(p: Plane, b: Routing.Binding)
    requires Inv(p) && exists h :: h in p.routing.http && p.routing.http[h] == b
    ensures b.owner in p.sessions && b.transport.endpoint == p.sessions[b.owner]
    ensures Transports.Key(b.owner, b.route.transportID) in p.transports.live
    ensures p.transports.live[Transports.Key(b.owner, b.route.transportID)] == b.transport
  {
    assert Routing.RouteKeyOf(b) in p.routing.byID && p.routing.byID[Routing.RouteKeyOf(b)] == b;
  }

  lemma ChosenIsRegistered(http: map<Routing.HttpKey, Routing.Binding>, verb: string, path: string, b: Routing.Binding)
    requires RouteRegistry.IsAnswer(http, verb, path, RouteRegistry.Chosen(b))
    ensures exists h :: h in http && http[h] == b
  {
    var pattern :| RouteRegistry.IsLongest(http, path, pattern)
                   && RouteRegistry.IsAnswerAt(http, pattern, NormalizeMethod(verb), RouteRegistry.Chosen(b));
    if Routing.HttpKey(pattern, NormalizeMethod(verb)) in http {
      assert http[Routing.HttpKey(pattern, NormalizeMethod(verb))] == b;
    } else {
      assert http[Routing.HttpKey(pattern, "")] == b;
    }
  }

  /** The route names the namespace and its owner's instance is connected. */
  predicate Serves(p: Plane, k: Routing.RouteKey, n: string) {
    && k in p.routing.byID && p.routing.byID[k].route.http.None? && p.routing.byID[k].route.socket == Some(n)
    && k.owner in p.sessions && p.sessions[k.owner].connected
  }

  /** An event in a namespace has someone to be delivered to iff a registered route names the namespace and its
      owner's instance is connected: what ownerForNamespace answers. */
  lemma NamespaceLiveIff(p: Plane, n: string)
    requires Inv(p)
    ensures Sockets.Live(Routing.NamespaceOwner(p.routing, n)) <==> exists k :: Serves(p, k, n)
  {
    var o := Routing.NamespaceOwner(p.routing, n);
    if Sockets.Live(o) {
      OwnedNamespaceIsLive(p, n);
      assert Serves(p, Routing.RouteKey(o.service, o.routeID), n);
    }
    forall k | Serves(p, k, n) ensures Sockets.Live(o) {
      ServingIsOwner(p, k, n);
    }
  }

  lemma ServingIsOwner(p: Plane, k: Routing.RouteKey, n: string)
    requires Inv(p) && Serves(p, k, n)
    ensures Routing.NamespaceOwner(p.routing, n) == Sockets.Owner(k.owner, p.sessions[k.owner], k.id) && k.owner != ""
  {
    RouteReachesSession(p, k);
  }

  lemma RouteReachesSession(p: Plane, k: Routing.RouteKey)
    requires Inv(p) && k in p.routing.byID
    ensures k.owner in p.sessions && p.routing.byID[k].transport.endpoint == p.sessions[k.owner]
  {
    var key := Transports.Key(k.owner, p.routing.byID[k].route.transportID);
    assert p.transports.live[key] == p.routing.byID[k].transport;
  }

  /** An owned namespace leads to the instance of its owner's session, through the route that names it. */
  lemma OwnedNamespaceIsLive(p: Plane, n: string)
    requires Inv(p) && Routing.NamespaceOwner(p.routing, n).service != ""
    ensures var o := Routing.NamespaceOwner(p.routing, n);
            && o.service in p.sessions && o.endpoint == p.sessions[o.service]
            && Routing.RouteKey(o.service, o.routeID) in p.routing.byID
            && p.routing.byID[Routing.RouteKey(o.service, o.routeID)].route.http.None?
            && p.routing.byID[Routing.RouteKey(o.service, o.routeID)].route.socket == Some(n)
  {
    var o := Routing.NamespaceOwner(p.routing, n);
    var k := Routing.RouteKey(o.service, o.routeID);
    assert k in p.routing.byID && !Routing.IsHttp(p.routing.byID[k]);
    RouteReachesSession(p, k);
  }

  /** The bridge answers accordingly, and names the instance that the route's owner is attached as. */
  method Recipient(c: Controllers.Controller, namespace: string) returns (owner: Sockets.Owner, live: bool)
    requires c.Valid() && c.routes.socket != null
    ensures live <==> exists k :: Serves(c.View(), k, namespace)
    ensures live ==> var k := Routing.RouteKey(owner.service, owner.routeID);
                     Serves(c.View(), k, namespace) && owner.endpoint == c.sessions[k.owner]
  {
    owner, live := c.routes.socket.OwnerForNamespace(namespace);
    ghost var p := c.View();
    NamespaceLiveIff(p, namespace);
    if live {
      OwnedNamespaceIsLive(p, namespace);
    }
  }

  // Prepared transports.

  /** The transports that were prepared in the course of a run. */
  ghost function Made(p: Plane, run: seq<Action>): set<Transports.Binding>
    requires Recorded(p)
  {
    if run == [] then {}
    else
      var n := |run| - 1;
      var a := run[n];
      Made(p, run[..n]) +
      if a.RegisterTransport? && Prepares(Exec(p, run[..n]), a.owner, a.transport, a.probe, a.b) then {a.b} else {}
  }

  /** A transport is prepared as a new object every time. */
  ghost predicate PreparedAnew(run: seq<Action>) {
    forall i, j :: 0 <= i < j < |run| && run[i].RegisterTransport? && run[j].RegisterTransport? ==> run[i].b != run[j].b
  }

  /** Every transport that was made is either registered or has been closed, and closed only once. */
  ghost predicate Accounted(t: Transports.Table, made: set<Transports.Binding>) {
    && (forall b :: b in made ==> t.closed[b] + (if IsLive(t, b) then 1 else 0) == 1)
    && (forall b :: b in t.closed ==> b in made)
    && (forall k :: k in t.live ==> t.live[k] in made)
  }

  ghost predicate IsLive(t: Transports.Table, b: Transports.Binding) {
    Transports.KeyOf(b) in t.live && t.live[Transports.KeyOf(b)] == b
  }

  lemma OfferAccounted(t: Transports.Table, made: set<Transports.Binding>, b: Transports.Binding)
    requires Accounted(t, made) && b !in made
    ensures Accounted(Transports.Offered(t, b), made + {b})
  {
    assert t.closed[b] == 0 && !IsLive(t, b);
  }

  lemma UnregisterAccounted(t: Transports.Table, made: set<Transports.Binding>, k: Transports.Key)
    requires Accounted(t, made) && Transports.Keyed(t.live)
    ensures Accounted(Transports.Unregistered(t, k), made)
  {
  }

  lemma RemoveOwnerAccounted(t: Transports.Table, made: set<Transports.Binding>, owner: string)
    requires Accounted(t, made) && Transports.Keyed(t.live)
    ensures Accounted(Transports.OwnerRemoved(t, owner), made)
  {
    forall b | b in made ensures b in Transports.OwnedBy(t.live, owner) <==> IsLive(t, b) && b.owner == owner {
    }
  }

  lemma {:induction false} MadeInRun(p: Plane, run: seq<Action>, b: Transports.Binding)
    requires Recorded(p) && b in Made(p, run)
    ensures exists i :: 0 <= i < |run| && run[i].RegisterTransport? && run[i].b == b
  {
    var n := |run| - 1;
    if b in Made(p, run[..n]) {
      MadeInRun(p, run[..n], b);
      var i :| 0 <= i < n && run[..n][i].RegisterTransport? && run[..n][i].b == b;
      assert run[i].b == b;
    } else {
      assert run[n].b == b;
    }
  }

  /** No prepared transport is lost, and none is closed twice or while it is registered. */
  lemma {:induction false} TransportsAreAccountedFor(withSockets: bool, run: seq<Action>)
    requires PreparedAnew(run)
    ensures Recorded(Init(withSockets))
    ensures Accounted(Exec(Init(withSockets), run).transports, Made(Init(withSockets), run))
  {
    if run != [] {
      var n := |run| - 1;
      var p, made := Exec(Init(withSockets), run[..n]), Made(Init(withSockets), run[..n]);
      TransportsAreAccountedFor(withSockets, run[..n]);
      RunKeeps(Init(withSockets), run[..n]);
      forall b | b in made ensures run[n].RegisterTransport? ==> b != run[n].b {
        MadeInRun(Init(withSockets), run[..n], b);
        var i :| 0 <= i < n && run[..n][i].RegisterTransport? && run[..n][i].b == b;
        assert run[i] == run[..n][i];
      }
      StepAccounted(p, run[n], made);
    }
  }

  lemma StepAccounted(p: Plane, a: Action, made: set<Transports.Binding>)
    requires Inv(p) && Accounted(p.transports, made) && (a.RegisterTransport? ==> a.b !in made)
    ensures Accounted(Step(p, a).transports,
                      made + if a.RegisterTransport?
                          && Prepares(p, a.owner, a.transport, a.probe, a.b) then {a.b} else {})
  {
    assert made + {} == made;
    if a.RegisterTransport? {
      OfferAccounted(p.transports, made, a.b);
    } else if a.UnregisterTransport? {
      UnregisterAccounted(p.transports, made, Transports.Key(a.owner, Trim(a.id)));
    } else if a.Detach? {
      RemoveOwnerAccounted(p.transports, made, a.owner);
    }
  }

  // Publication.

  ghost predicate HasSession(p: Plane, i: Instance) {
    exists o :: o in p.sessions && p.sessions[o] == i
  }

  /** An instance without a session is not published any more, until it is attached again. */
  lemma {:induction false} DetachedIsSilent(p: Plane, run: seq<Action>, i: Instance)
    requires Recorded(p) && !HasSession(p, i)
    requires forall n :: 0 <= n < |run| && run[n].Attach? ==> run[n].instance != i
    ensures var q := Exec(p, run);
            !HasSession(q, i) && p.published <= q.published
            && forall n :: |p.published| <= n < |q.published| ==> q.published[n] != i
  {
    if run != [] {
      var m := |run| - 1;
      DetachedIsSilent(p, run[..m], i);
      StepIsSilent(Exec(p, run[..m]), run[m], i);
    }
  }

  lemma StepIsSilent(p: Plane, a: Action, i: Instance)
    requires Recorded(p) && !HasSession(p, i) && (a.Attach? ==> a.instance != i)
    ensures var q := Step(p, a);
            !HasSession(q, i) && (q.published == p.published
                                  || exists other: Instance :: other != i && q.published == p.published + [other])
  {
    var q := Step(p, a);
    forall o | o in q.sessions ensures q.sessions[o] != i {
      assert o in p.sessions ==> p.sessions[o] != i;
    }
    if a.RegisterTransport? && a.owner in p.sessions {
      assert p.sessions[a.owner] != i;
    } else if a.UnregisterTransport? && a.owner in p.sessions {
      assert p.sessions[a.owner] != i;
    } else if a.Finish? && a.owner in p.sessions {
      assert p.sessions[a.owner] != i;
    }
  }
}

// What the control plane's answers mean: which transports can be registered, what a batch of routes comes to, when a
// service is degraded and when it is published.
module ControlLaws {
  import opened Text
  import opened Services
  import opened ControlPlane
  import opened Controllers
  import Transports
  import Routing

  // Transports.

  /** The transport leads somewhere: to a connected service, to files that are there, or to another server. */
  predicate Leads(d: TransportDecl, endpoint: Instance, probe: Transports.Probe) {
    match d.kind
    case HTTP => endpoint.connected
    case SocketIO => endpoint.connected
    case Static => probe != Transports.Unusable
    case Proxy => probe != Transports.Unusable
    case Unsupported(_) => false
  }

  /** A transport is refused for want of an owner, then of an id, then because it leads nowhere, and otherwise not
      before the table of transports is looked at. */
  lemma UnpreparedIff(owner: string, d: TransportDecl, endpoint: Instance, probe: Transports.Probe)
    ensures var refusal := Transports.Unprepared(owner, d, endpoint, probe);
      && (refusal == Some(Transports.OwnerRequired) <==> Trim(owner) == "")
      && (refusal == Some(Transports.IdRequired) <==> Trim(owner) != "" && Trim(d.id) == "")
      && (refusal == Some(Transports.CannotPrepare) <==>
            Trim(owner) != "" && Trim(d.id) != "" && !Leads(d, endpoint, probe))
      && (refusal.None? <==> Trim(owner) != "" && Trim(d.id) != "" && Leads(d, endpoint, probe))
  {
  }

  /** What holds of a transport for as long as it lives. */
  predicate Usable(b: Transports.Binding) {
    && !b.decl.kind.Unsupported?
    && (b.decl.kind.HTTP? || b.decl.kind.SocketIO? ==> b.endpoint.connected)
    && (b.directory ==> b.decl.kind.Static?)
  }

  ghost predicate AllUsable(p: Plane) {
    forall k :: k in p.transports.live ==> Usable(p.transports.live[k])
  }

  lemma StepKeepsUsable(p: Plane, a: Action)
    requires Recorded(p) && AllUsable(p)
    ensures AllUsable(Step(p, a))
  {
    if a.RegisterTransport? && Prepares(p, a.owner, a.transport, a.probe, a.b) {
      UnpreparedIff(a.owner, a.transport, p.sessions[a.owner], a.probe);
    }
  }

  /** In every reachable state every registered transport can be used. */
  lemma {:induction false} RunsAreUsable(withSockets: bool, run: seq<Action>)
    ensures AllUsable(Exec(Init(withSockets), run))
  {
    if run != [] {
      var before := run[..|run| - 1];
      RunsAreUsable(withSockets, before);
      StepKeepsUsable(Exec(Init(withSockets), before), run[|run| - 1]);
    }
  }

  /** A registration adds the one transport that was declared, under a trimmed id, iff its owner has a session, it leads
      somewhere and the id is new. */
  lemma TransportRegisteredIff(p: Plane, owner: string, d: TransportDecl, probe: Transports.Probe,
                               b: Transports.Binding)
    requires Inv(p) && owner in p.sessions
    requires Transports.IsPrepared(b, Trim(owner), d.(id := Trim(d.id)), p.sessions[owner], probe)
    ensures var q, k := TransportRegistered(p, owner, d, probe, b), Transports.Key(owner, Trim(d.id));
      && b.decl.kind == d.kind && (b.directory <==> d.kind.Static? && probe == Transports.Usable(true))
      && q.transports.live ==
         if Trim(d.id) != "" && Leads(d, p.sessions[owner], probe) && k !in p.transports.live
         then p.transports.live[k := b] else p.transports.live
  {
    UnpreparedIff(owner, d, p.sessions[owner], probe);
  }

  // Batches.

  /** The outcome of a batch keeps the order of its declarations, and each failure has its own reason. */
  lemma {:induction false} BatchInOrder(ids: seq<string>, errors: seq<Option<Routing.Error>>,
                                        more: seq<string>, others: seq<Option<Routing.Error>>)
    requires |ids| == |errors| && |more| == |others|
    ensures Successes(ids + more, errors + others) == Successes(ids, errors) + Successes(more, others)
    ensures Failures(ids + more, errors + others) == Failures(ids, errors) + Failures(more, others)
  {
    if more == [] {
      assert ids + more == ids && errors + others == errors;
    } else {
      var n := |more| - 1;
      BatchInOrder(ids, errors, more[..n], others[..n]);
      assert (ids + more)[..|ids + more| - 1] == ids + more[..n];
      assert (errors + others)[..|errors + others| - 1] == errors + others[..n];
    }
  }

  lemma BatchOfOne(id: string, error: Option<Routing.Error>)
    ensures Successes([id], [error]) == if error.None? then [id] else []
    ensures Failures([id], [error]) == if error.None? then [] else [Failure(id, error.value)]
  {
  }

  /** A batch leaves its service degraded iff that was so before or one of the declarations is refused, and publishes
      it last. */
  lemma BatchDegradesIff(p: Plane, owner: string, ds: seq<Declared>, degraded: bool)
    requires Inv(p) && owner in p.sessions
    requires degraded <==> Failures(DeclaredIds(ds), RegistrationVerdicts(p, owner, ds)) != []
    ensures var i, q := p.sessions[owner], Finished(RoutesRegistered(p, owner, ds), owner, degraded);
      && i in q.records && q.published == p.published + [i]
      && (q.records[i].degraded <==>
            p.records[i].degraded || exists j :: 0 <= j < |ds| && RegistrationVerdicts(p, owner, ds)[j].Some?)
  {
    NoFailuresIff(DeclaredIds(ds), RegistrationVerdicts(p, owner, ds));
    RoutesKeepRest(p, owner, ds);
  }

  lemma {:induction false} RoutesKeepRest(p: Plane, owner: string, ds: seq<Declared>)
    requires Recorded(p) && owner in p.sessions
    ensures var q := RoutesRegistered(p, owner, ds);
      && q.sessions == p.sessions && q.published == p.published
      && q.records[q.sessions[owner]].degraded == p.records[p.sessions[owner]].degraded
  {
    if ds != [] {
      RoutesKeepRest(p, owner, ds[..|ds| - 1]);
    }
  }

  // Degraded, over runs.

  predicate Attaches(p: Plane, a: Action, i: Instance) {
    a.Attach? && a.instance == i && Trim(a.owner) != "" && Trim(a.owner) !in p.sessions
  }

  /** The instance was degraded when it was last attached, or a batch that its session registered since has failed in
      part. */
  ghost predicate HasFailed(p: Plane, run: seq<Action>, i: Instance)
    requires Recorded(p)
  {
    if run == [] then i in p.records && p.records[i].degraded
    else
      var before, a := Exec(p, run[..|run| - 1]), run[|run| - 1];
      if Attaches(before, a, i) then a.record.degraded
      else HasFailed(p, run[..|run| - 1], i)
           || (a.Finish? && a.degraded && a.owner in before.sessions && before.sessions[a.owner] == i)
  }

  lemma DegradedFollows(p: Plane, a: Action, i: Instance)
    requires Recorded(p)
    ensures i in Step(p, a).records <==> i in p.records || Attaches(p, a, i)
    ensures i in Step(p, a).records ==>
      Step(p, a).records[i].degraded ==
      if Attaches(p, a, i) then a.record.degraded
      else p.records[i].degraded || (a.Finish? && a.degraded && a.owner in p.sessions && p.sessions[a.owner] == i)
  {
  }

  lemma {:induction false} DegradedIff(p: Plane, run: seq<Action>, i: Instance)
    requires Recorded(p)
    ensures i !in Exec(p, run).records ==> !HasFailed(p, run, i)
    ensures i in Exec(p, run).records ==> (Exec(p, run).records[i].degraded <==> HasFailed(p, run, i))
  {
    if run != [] {
      var before := run[..|run| - 1];
      DegradedIff(p, before, i);
      DegradedFollows(Exec(p, before), run[|run| - 1], i);
    }
  }

  // Publication.

  lemma OneMoreIsPublished(p: Plane, owner: string, d: TransportDecl, probe: Transports.Probe, b: Transports.Binding)
    requires Inv(p)
    ensures var q := TransportRegistered(p, owner, d, probe, b);
      q.published ==
      if owner in p.sessions && q.transports.live != p.transports.live then p.published + [p.sessions[owner]]
      else p.published
  {
    assert Transports.KeyOf(b) !in p.transports.live ==>
        Transports.KeyOf(b) in Transports.Offered(p.transports, b).live;
  }

  lemma OneLessIsPublished(p: Plane, owner: string, id: string)
    requires Inv(p)
    ensures var q := TransportUnregistered(p, owner, id);
      q.published ==
      if owner in p.sessions && q.transports.live != p.transports.live then p.published + [p.sessions[owner]]
      else p.published
  {
    var k := Transports.Key(owner, Trim(id));
    if k in p.transports.live {
      assert k !in (p.transports.live - {k});
    }
  }

  /** Of the ids of a batch of removals, those without an error are the ones that name a route of the service, and that
      route is all that goes. */
  lemma UnregisteredIff(p: Plane, owner: string, id: string)
    requires Inv(p) && owner in p.sessions
    ensures var q, k := RouteUnregistered(p, owner, id), Routing.RouteKey(owner, Trim(id));
      && (UnregistrationVerdict(p, owner, id).None? <==> k in p.routing.byID)
      && (UnregistrationVerdict(p, owner, id).Some? ==> q == p)
      && q.routing.byID == p.routing.byID - {k}
      && q.transports == p.transports && q.sessions == p.sessions && q.published == p.published
  {
    UnregisterKeepsRouting(p.routing, owner, id);
  }

  /** An instance is published exactly when its transports have changed and when a batch of its routes has ended. */
  lemma PublishedFollows(p: Plane, a: Action)
    requires Inv(p)
    ensures var q := Step(p, a);
      q.published ==
      if a.Finish? && a.owner in p.sessions then p.published + [p.sessions[a.owner]]
      else if (a.RegisterTransport? || a.UnregisterTransport?) && a.owner in p.sessions
              && q.transports.live != p.transports.live then p.published + [p.sessions[a.owner]]
      else p.published
  {
    if a.RegisterTransport? {
      OneMoreIsPublished(p, a.owner, a.transport, a.probe, a.b);
    } else if a.UnregisterTransport? {
      OneLessIsPublished(p, a.owner, a.id);
    }
  }
}

/** The lifecycle and the control plane together: what the operations on services mean for the bindings that requests
    are dispatched through. */
module Kernel {
  import opened Text
  import Services
  import Supervisor
  import Protocol
  import Ownership
  import ControlPlane
  import ControlHistory
  import Routing
  import Transports

  /** An instance of the lifecycle is a number; objects says which object it is for the control plane. */
  datatype System = System(life: Protocol.State, plane: ControlPlane.Plane, objects: seq<Services.Instance>)

  /** A step of a service operation, with the object that its loader has made in case it attaches one; or a step of a
      service that registers or unregisters something while it runs. */
  datatype Move =
    | Lifecycle(a: Protocol.Action, made: Services.Instance, record: Services.Record)
    | Binding(b: ControlPlane.Action)

  ghost function Init(withSockets: bool): System {
    System(Protocol.INIT, ControlPlane.Init(withSockets), [])
  }

  /** The action calls the controller's Attach. */
  predicate CallsAttach(s: Protocol.State, a: Protocol.Action) {
    s.callback.Free? && a.AttachSession? && a.t in s.tasks && s.tasks[a.t].Starter? && s.tasks[a.t].start.Loading?
  }

  /** The action calls the controller's Detach. */
  predicate CallsDetach(s: Protocol.State, a: Protocol.Action) {
    || (s.callback.Free? && a.LoaderDetach? && a.t in s.tasks && s.tasks[a.t].Starter? && s.tasks[a.t].start.Attached?)
    || (s.callback.Free? && a.CleanupDetach? && a.t in s.tasks && Protocol.CleanupOf(s.tasks[a.t]).Some?
        && Protocol.CleanupOf(s.tasks[a.t]).value.1 == Protocol.Bound)
  }

  ghost function Step(s: System, m: Move): (t: System)
    requires ControlPlane.Recorded(s.plane)
    ensures ControlPlane.Recorded(t.plane)
  {
    match m
    case Lifecycle(a, made, record) =>
      var life := Protocol.Step(s.life, a);
      System(life,
             if CallsAttach(s.life, a) then ControlPlane.Attached(s.plane, s.life.tasks[a.t].name, made, record)
             else if CallsDetach(s.life, a) then ControlPlane.Detached(s.plane, s.life.tasks[a.t].name)
             else s.plane,
             if |life.instances| > |s.life.instances| then s.objects + [made] else s.objects)
    case Binding(b) => if b.Attach? || b.Detach? then s else s.(plane := ControlPlane.Step(s.plane, b))
  }

  ghost function Exec(withSockets: bool, run: seq<Move>): (s: System)
    ensures ControlPlane.Recorded(s.plane)
  {
    if run == [] then Init(withSockets) else Step(Exec(withSockets, run[..|run| - 1]), run[|run| - 1])
  }

  /** The sessions of the control plane are those of the lifecycle. */
  ghost predicate Coupled(s: System) {
    && |s.objects| == |s.life.instances|
    && s.plane.sessions.Keys == s.life.sessions.Keys
    && forall n :: n in s.life.sessions ==>
         s.life.sessions[n] < |s.objects| && s.plane.sessions[n] == s.objects[s.life.sessions[n]]
  }

  // What the steps of the lifecycle do to the sessions.

  ghost predicate SameSessions(s: Protocol.State, t: Protocol.State) {
    t.sessions == s.sessions && |t.instances| == |s.instances|
  }

  lemma AttachSessions(s: Protocol.State, a: Protocol.Action)
    requires CallsAttach(s, a)
    ensures var t, owner := Protocol.Step(s, a), Trim(s.tasks[a.t].name);
            if owner == "" || owner in s.sessions then SameSessions(s, t)
            else t.sessions == s.sessions[owner := |s.instances|] && |t.instances| == |s.instances| + 1
  {
  }

  lemma DetachSessions(s: Protocol.State, a: Protocol.Action)
    requires CallsDetach(s, a)
    ensures Protocol.Step(s, a).sessions == s.sessions - {s.tasks[a.t].name}
    ensures |Protocol.Step(s, a).instances| == |s.instances|
  {
  }

  lemma StarterSessions(s: Protocol.State, a: Protocol.Action)
    requires Protocol.OfStarter(a)
    requires a.t in s.tasks && s.tasks[a.t].Starter? && !CallsAttach(s, a) && !CallsDetach(s, a)
    ensures SameSessions(s, Protocol.StarterStep(s, a))
  {
  }

  lemma CleanupSessions(s: Protocol.State, a: Protocol.Action)
    requires Protocol.OfCleanup(a)
    requires a.t in s.tasks && Protocol.CleanupOf(s.tasks[a.t]).Some? && !CallsDetach(s, a)
    ensures SameSessions(s, Protocol.CleanupStep(s, a))
  {
  }

  lemma OtherSessions(s: Protocol.State, a: Protocol.Action)
    requires !CallsAttach(s, a) && !CallsDetach(s, a)
    ensures SameSessions(s, Protocol.Step(s, a))
  {
    if Protocol.OfCleanup(a) {
      if a.t in s.tasks && Protocol.CleanupOf(s.tasks[a.t]).Some? {
        CleanupSessions(s, a);
      }
    } else if Protocol.OfStarter(a) {
      if a.t in s.tasks && s.tasks[a.t].Starter? {
        StarterSessions(s, a);
      }
    }
  }

  lemma PlaneSessions(p: ControlPlane.Plane, b: ControlPlane.Action)
    requires ControlPlane.Recorded(p) && !b.Attach? && !b.Detach?
    ensures ControlPlane.Step(p, b).sessions == p.sessions
  {
  }

  lemma StepCoupled(s: System, m: Move)
    requires Coupled(s) && ControlPlane.Recorded(s.plane)
    ensures Coupled(Step(s, m))
  {
    if m.Lifecycle? {
      if CallsAttach(s.life, m.a) {
        AttachSessions(s.life, m.a);
      } else if CallsDetach(s.life, m.a) {
        DetachSessions(s.life, m.a);
      } else {
        OtherSessions(s.life, m.a);
      }
    } else if !m.b.Attach? && !m.b.Detach? {
      PlaneSessions(s.plane, m.b);
    }
  }

  /** The steps of service operations in a run. */
  function Actions(run: seq<Move>): seq<Protocol.Action> {
    if run == [] then []
    else
      var n := |run| - 1;
      Actions(run[..n]) + if run[n].Lifecycle? then [run[n].a] else []
  }

  lemma PlaneKept(s: System, m: Move)
    requires ControlPlane.Inv(s.plane)
    ensures ControlPlane.Inv(Step(s, m).plane)
  {
    if m.Lifecycle? {
      if CallsAttach(s.life, m.a) {
        ControlPlane.AttachKeeps(s.plane, s.life.tasks[m.a.t].name, m.made, m.record);
      } else if CallsDetach(s.life, m.a) {
        ControlPlane.DetachKeeps(s.plane, s.life.tasks[m.a.t].name);
      }
    } else {
      ControlPlane.StepKeeps(s.plane, m.b);
    }
  }

  lemma {:induction false} RunCoupled(withSockets: bool, run: seq<Move>)
    ensures var s := Exec(withSockets, run);
            Coupled(s) && ControlPlane.Inv(s.plane) && s.life == Protocol.Exec(Protocol.INIT, Actions(run))
  {
    if run != [] {
      var n := |run| - 1;
      var s := Exec(withSockets, run[..n]);
      RunCoupled(withSockets, run[..n]);
      StepCoupled(s, run[n]);
      PlaneKept(s, run[n]);
      if run[n].Lifecycle? {
        assert (Actions(run[..n]) + [run[n].a])[..|Actions(run[..n])|] == Actions(run[..n]);
      } else {
        assert Actions(run) == Actions(run[..n]);
      }
    }
  }

  // The theorems.

  /** The session of that name belongs to an open instance of that name, which is the object given. */
  ghost predicate ReachesOpen(s: System, name: string, endpoint: Services.Instance?) {
    && name in s.life.sessions
    && s.life.sessions[name] < |s.life.instances| == |s.objects|
    && endpoint == s.objects[s.life.sessions[name]]
    && s.life.instances[s.life.sessions[name]].name == name
    && s.life.instances[s.life.sessions[name]].closes == 0
  }

  /** The service of that name is loaded, and its instance is the object given. */
  ghost predicate ReachesLoaded(s: System, name: string, endpoint: Services.Instance?) {
    && name in s.life.services && s.life.services[name].loaded.Some?
    && s.life.services[name].loaded.value < |s.objects|
    && endpoint == s.objects[s.life.services[name].loaded.value]
  }

  lemma SessionIsOpen(withSockets: bool, run: seq<Move>, name: string)
    requires Ownership.ProperRun(Actions(run)) && name in Exec(withSockets, run).plane.sessions
    ensures ReachesOpen(Exec(withSockets, run), name, Exec(withSockets, run).plane.sessions[name])
  {
    RunCoupled(withSockets, run);
    var s := Exec(withSockets, run);
    Ownership.ExactlyOneHolder(Actions(run), s.life.sessions[name]);
  }

  lemma SessionIsLoaded(withSockets: bool, run: seq<Move>, name: string)
    requires Ownership.ProperRun(Actions(run)) && Exec(withSockets, run).life.tasks == map[]
    requires name in Exec(withSockets, run).plane.sessions
    ensures ReachesLoaded(Exec(withSockets, run), name, Exec(withSockets, run).plane.sessions[name])
  {
    RunCoupled(withSockets, run);
    Ownership.QuietMeansConsistent(Actions(run));
  }

  /** Whatever operations are under way, a registered route leads to an instance that is attached under the owner's
      name and that nobody has closed. */
  lemma NoRouteToAClosedInstance(withSockets: bool, run: seq<Move>, k: Routing.RouteKey)
    requires Ownership.ProperRun(Actions(run)) && k in Exec(withSockets, run).plane.routing.byID
    ensures var s := Exec(withSockets, run);
            ReachesOpen(s, k.owner, s.plane.routing.byID[k].transport.endpoint)
  {
    RunCoupled(withSockets, run);
    ControlHistory.RouteReachesSession(Exec(withSockets, run).plane, k);
    SessionIsOpen(withSockets, run, k.owner);
  }

  /** And so do a registered transport and an owned namespace. */
  lemma NoTransportToAClosedInstance(withSockets: bool, run: seq<Move>, k: Transports.Key)
    requires Ownership.ProperRun(Actions(run)) && k in Exec(withSockets, run).plane.transports.live
    ensures var s := Exec(withSockets, run);
            ReachesOpen(s, k.owner, s.plane.transports.live[k].endpoint)
  {
    RunCoupled(withSockets, run);
    SessionIsOpen(withSockets, run, k.owner);
  }

  lemma NoNamespaceToAClosedInstance(withSockets: bool, run: seq<Move>, n: string)
    requires Ownership.ProperRun(Actions(run))
    requires Routing.NamespaceOwner(Exec(withSockets, run).plane.routing, n).service != ""
    ensures var s := Exec(withSockets, run);
            var o := Routing.NamespaceOwner(s.plane.routing, n);
            ReachesOpen(s, o.service, o.endpoint)
  {
    RunCoupled(withSockets, run);
    var p := Exec(withSockets, run).plane;
    ControlHistory.OwnedNamespaceIsLive(p, n);
    SessionIsOpen(withSockets, run, Routing.NamespaceOwner(p.routing, n).service);
  }

  /** With no operation under way, every route belongs to a service that is loaded, and leads to the very instance
      that is loaded. */
  lemma QuietRoutesAreLoaded(withSockets: bool, run: seq<Move>, k: Routing.RouteKey)
    requires Ownership.ProperRun(Actions(run)) && Exec(withSockets, run).life.tasks == map[]
    requires k in Exec(withSockets, run).plane.routing.byID
    ensures var s := Exec(withSockets, run);
            ReachesLoaded(s, k.owner, s.plane.routing.byID[k].transport.endpoint)
  {
    RunCoupled(withSockets, run);
    ControlHistory.RouteReachesSession(Exec(withSockets, run).plane, k);
    SessionIsLoaded(withSockets, run, k.owner);
  }

  /** And so does every transport, and every owned namespace. */
  lemma QuietTransportsAreLoaded(withSockets: bool, run: seq<Move>, k: Transports.Key)
    requires Ownership.ProperRun(Actions(run)) && Exec(withSockets, run).life.tasks == map[]
    requires k in Exec(withSockets, run).plane.transports.live
    ensures var s := Exec(withSockets, run);
            ReachesLoaded(s, k.owner, s.plane.transports.live[k].endpoint)
  {
    RunCoupled(withSockets, run);
    SessionIsLoaded(withSockets, run, k.owner);
  }

  lemma QuietNamespacesAreLoaded(withSockets: bool, run: seq<Move>, n: string)
    requires Ownership.ProperRun(Actions(run)) && Exec(withSockets, run).life.tasks == map[]
    requires Routing.NamespaceOwner(Exec(withSockets, run).plane.routing, n).service != ""
    ensures var s := Exec(withSockets, run);
            var o := Routing.NamespaceOwner(s.plane.routing, n);
            ReachesLoaded(s, o.service, o.endpoint)
  {
    RunCoupled(withSockets, run);
    var p := Exec(withSockets, run).plane;
    ControlHistory.OwnedNamespaceIsLive(p, n);
    SessionIsLoaded(withSockets, run, Routing.NamespaceOwner(p.routing, n).service);
  }

  /** Once a service is neither loaded nor in any operation under way, nothing of it is left in the control plane. */
  lemma StoppedLeavesNothing(withSockets: bool, run: seq<Move>, name: string)
    requires Ownership.ProperRun(Actions(run)) && Exec(withSockets, run).life.tasks == map[]
    requires name in Exec(withSockets, run).life.services ==> Exec(withSockets, run).life.services[name].loaded.None?
    ensures var p := Exec(withSockets, run).plane;
            && name !in p.sessions
            && (forall k :: k in p.routing.byID ==> k.owner != name)
            && (forall h :: h in p.routing.http ==> p.routing.http[h].owner != name)
            && (forall k :: k in p.transports.live ==> k.owner != name)
            && (name != "" ==> forall n :: Routing.NamespaceOwner(p.routing, n).service != name)
  {
    RunCoupled(withSockets, run);
    Ownership.QuietMeansConsistent(Actions(run));
    NothingOfStranger(Exec(withSockets, run).plane, name);
  }

  lemma NothingOfStranger(p: ControlPlane.Plane, name: string)
    requires ControlPlane.Inv(p) && name !in p.sessions
    ensures forall k :: k in p.routing.byID ==> k.owner != name
    ensures forall h :: h in p.routing.http ==> p.routing.http[h].owner != name
    ensures forall k :: k in p.transports.live ==> k.owner != name
    ensures name != "" ==> forall n :: Routing.NamespaceOwner(p.routing, n).service != name
  {
    ControlHistory.NoRouteOfStranger(p, name);
    forall k | k in p.routing.byID ensures k.owner != name {
      assert Routing.RouteKeyOf(p.routing.byID[k]) == k;
    }
    forall n | name != "" ensures Routing.NamespaceOwner(p.routing, n).service != name {
      ControlHistory.NoNamespacesOfStranger(p, name, n);
    }
  }
}

// The services' own records list what the registries hold, in the order of registration.
module ServiceRecords {
  import opened Text
  import opened Services
  import opened ControlPlane
  import Transports
  import Routing

  /** A registered id and its owner, for routes and for transports alike. */
  datatype Entry = Entry(owner: string, id: string)

  function RouteEntries(p: Plane): set<Entry> {
    set k | k in p.routing.byID :: Entry(k.owner, k.id)
  }

  function TransportEntries(p: Plane): set<Entry> {
    set k | k in p.transports.live :: Entry(k.owner, k.id)
  }

  type Listed = map<Instance, seq<string>>

  function RoutesListed(p: Plane): Listed {
    map i | i in p.records :: RouteIds(p.records[i].routes)
  }

  function TransportsListed(p: Plane): Listed {
    map i | i in p.records :: TransportIds(p.records[i].transports)
  }

  // The order of registration, told from the registries alone.

  function Kept(order: seq<Entry>, now: set<Entry>): seq<Entry> {
    if order == [] then []
    else
      var n := |order| - 1;
      Kept(order[..n], now) + if order[n] in now then [order[n]] else []
  }

  /** What is still there stays in place and what is new comes last. */
  function NextOrder(order: seq<Entry>, now: set<Entry>, candidate: Option<Entry>): seq<Entry> {
    Kept(order, now) +
    if candidate.Some? && candidate.value in now && candidate.value !in order then [candidate.value] else []
  }

  function NewRoute(a: Action): Option<Entry> {
    if a.RegisterRoute? then Some(Entry(a.owner, Trim(a.route.id))) else None
  }

  function NewTransport(a: Action): Option<Entry> {
    if a.RegisterTransport? then Some(Entry(a.owner, Trim(a.transport.id))) else None
  }

  ghost function RouteOrder(p: Plane, run: seq<Action>): seq<Entry>
    requires Recorded(p)
  {
    if run == [] then []
    else NextOrder(RouteOrder(p, run[..|run| - 1]), RouteEntries(Exec(p, run)), NewRoute(run[|run| - 1]))
  }

  ghost function TransportOrder(p: Plane, run: seq<Action>): seq<Entry>
    requires Recorded(p)
  {
    if run == [] then []
    else NextOrder(TransportOrder(p, run[..|run| - 1]), TransportEntries(Exec(p, run)), NewTransport(run[|run| - 1]))
  }

  /** The ids of one owner, in order. */
  function IdsOf(order: seq<Entry>, owner: string): seq<string> {
    if order == [] then []
    else
      var n := |order| - 1;
      IdsOf(order[..n], owner) + if order[n].owner == owner then [order[n].id] else []
  }

  ghost predicate Exact(order: seq<Entry>, entries: set<Entry>) {
    && (forall i, j :: 0 <= i < j < |order| ==> order[i] != order[j])
    && (forall e :: e in order <==> e in entries)
  }

  /** The record of every attached service lists the owner's ids in the order of registration. */
  ghost predicate Lists(order: seq<Entry>, sessions: map<string, Instance>, listed: Listed) {
    forall o :: o in sessions && sessions[o].recorded ==>
      sessions[o] in listed && listed[sessions[o]] == IdsOf(order, o)
  }

  ghost predicate OneEach(sessions: map<string, Instance>) {
    forall a, b :: a in sessions && b in sessions && a != b ==> sessions[a] != sessions[b]
  }

  // Facts about orders.

  lemma {:induction false} KeptAll(order: seq<Entry>, now: set<Entry>)
    requires forall e :: e in order ==> e in now
    ensures Kept(order, now) == order
  {
    if order != [] {
      KeptAll(order[..|order| - 1], now);
    }
  }

  lemma {:induction false} KeptIn(order: seq<Entry>, now: set<Entry>)
    ensures forall e :: e in Kept(order, now) <==> e in order && e in now
    ensures (forall i, j :: 0 <= i < j < |order| ==> order[i] != order[j]) ==>
              forall i, j :: 0 <= i < j < |Kept(order, now)| ==> Kept(order, now)[i] != Kept(order, now)[j]
  {
    if order != [] {
      var n := |order| - 1;
      KeptIn(order[..n], now);
      assert order == order[..n] + [order[n]];
      assert forall i :: 0 <= i < n ==> order[..n][i] == order[i];
    }
  }

  lemma {:induction false} IdsIn(order: seq<Entry>, owner: string)
    ensures forall id :: id in IdsOf(order, owner) <==> Entry(owner, id) in order
    ensures (forall i, j :: 0 <= i < j < |order| ==> order[i] != order[j]) ==>
              forall i, j :: 0 <= i < j < |IdsOf(order, owner)| ==> IdsOf(order, owner)[i] != IdsOf(order, owner)[j]
  {
    if order != [] {
      var n := |order| - 1;
      IdsIn(order[..n], owner);
      assert order == order[..n] + [order[n]];
      assert forall i :: 0 <= i < n ==> order[..n][i] == order[i];
      forall id ensures id in IdsOf(order, owner) <==> Entry(owner, id) in order {
        assert Entry(owner, id) in order <==> Entry(owner, id) in order[..n] || Entry(owner, id) == order[n];
      }
    }
  }

  /** Taking out what belongs to one owner leaves the others' ids alone. */
  lemma {:induction false} KeptElsewhere(order: seq<Entry>, now: set<Entry>, owner: string)
    requires forall e :: e in order && e.owner == owner ==> e in now
    ensures IdsOf(Kept(order, now), owner) == IdsOf(order, owner)
  {
    if order != [] {
      var n := |order| - 1;
      KeptElsewhere(order[..n], now, owner);
      var kept := Kept(order[..n], now);
      assert (kept + [order[n]])[..|kept|] == kept;
      assert kept + [] == kept;
    }
  }

  lemma IndexOfNext(ids: seq<string>, last: string, id: string)
    ensures id in ids ==> IndexOf(ids + [last], id) == IndexOf(ids, id) < |ids|
    ensures id !in ids ==> IndexOf(ids + [last], id) == |ids| + if last == id then 0 else 1
  {
    IndexIsFirst(ids + [last], id, if id in ids then IndexOf(ids, id) else |ids| + if last == id then 0 else 1);
  }

  lemma IdsNext(order: seq<Entry>, e: Entry, owner: string)
    ensures IdsOf(order + [e], owner) == if e.owner == owner then IdsOf(order, owner) + [e.id] else IdsOf(order, owner)
  {
    assert (order + [e])[..|order|] == order;
  }

  lemma KeptNext(order: seq<Entry>, e: Entry, now: set<Entry>)
    ensures Kept(order + [e], now) == if e in now then Kept(order, now) + [e] else Kept(order, now)
  {
    assert (order + [e])[..|order|] == order;
  }

  /** Without the entry out, the owner's ids are what they were with its id taken out. */
  ghost predicate IdTakenOut(order: seq<Entry>, now: set<Entry>, out: Entry) {
    var ids := IdsOf(order, out.owner);
    IdsOf(Kept(order, now), out.owner) == Spliced(ids, IndexOf(ids, out.id))
  }

  lemma TakenOutLast(order: seq<Entry>, now: set<Entry>, out: Entry)
    requires out !in order && out !in now && forall e :: e in order ==> e in now
    ensures IdTakenOut(order + [out], now, out)
  {
    KeptNext(order, out, now);
    KeptAll(order, now);
    IdsNext(order, out, out.owner);
    NotListed(order, out);
    SplicedLast(IdsOf(order, out.owner), out.id);
  }

  lemma TakenOutBefore(order: seq<Entry>, now: set<Entry>, out: Entry, last: Entry)
    requires IdTakenOut(order, now, out) && last != out && last in now
    ensures IdTakenOut(order + [last], now, out)
  {
    KeptNext(order, last, now);
    IdsNext(order, last, out.owner);
    IdsNext(Kept(order, now), last, out.owner);
    if last.owner == out.owner {
      SplicedFront(IdsOf(order, out.owner), last.id, out.id);
    }
  }

  /** Taking out one entry takes its id out of its owner's ids, where it stands. */
  lemma {:induction false} KeptWithout(order: seq<Entry>, now: set<Entry>, out: Entry)
    requires forall e :: e in order ==> (e in now <==> e != out)
    requires forall i, j :: 0 <= i < j < |order| ==> order[i] != order[j]
    requires out !in now
    ensures IdTakenOut(order, now, out)
  {
    if order != [] {
      var n := |order| - 1;
      assert order == order[..n] + [order[n]];
      if order[n] == out {
        TakenOutLast(order[..n], now, out);
      } else {
        KeptWithout(order[..n], now, out);
        TakenOutBefore(order[..n], now, out, order[n]);
      }
    }
  }

  lemma NotListed(order: seq<Entry>, e: Entry)
    requires e !in order
    ensures e.id !in IdsOf(order, e.owner)
  {
    IdsIn(order, e.owner);
  }

  lemma SplicedLast(ids: seq<string>, id: string)
    requires id !in ids
    ensures Spliced(ids, IndexOf(ids, id)) == ids == Spliced(ids + [id], IndexOf(ids + [id], id))
  {
    IndexIsFirst(ids, id, |ids|);
    IndexOfNext(ids, id, id);
  }

  lemma SplicedFront(ids: seq<string>, last: string, id: string)
    requires last != id
    ensures Spliced(ids, IndexOf(ids, id)) + [last] == Spliced(ids + [last], IndexOf(ids + [last], id))
  {
    IndexOfNext(ids, last, id);
    if id !in ids {
      IndexIsFirst(ids, id, |ids|);
    }
    SplicedNext(ids, last, IndexOf(ids, id));
  }

  lemma SplicedNext(ids: seq<string>, last: string, k: nat)
    ensures k < |ids| ==> Spliced(ids + [last], k) == Spliced(ids, k) + [last]
    ensures k >= |ids| ==> Spliced(ids + [last], k + 1) == Spliced(ids, k) + [last]
  {
  }

  // How one step changes what is registered and what is listed.

  lemma OrderStaysExact(order: seq<Entry>, entries: set<Entry>, now: set<Entry>, candidate: Option<Entry>)
    requires Exact(order, entries)
    requires forall e :: e in now && e !in entries ==> candidate == Some(e)
    ensures Exact(NextOrder(order, now, candidate), now)
  {
    KeptIn(order, now);
  }

  /** Nothing of the attached owners changes; others may leave. */
  lemma ListsKept(order: seq<Entry>, entries: set<Entry>, now: set<Entry>, candidate: Option<Entry>,
                  sessions: map<string, Instance>, listed: Listed)
    requires Exact(order, entries) && now <= entries && Lists(order, sessions, listed)
    requires forall e :: e in entries && e.owner in sessions ==> e in now
    ensures Lists(NextOrder(order, now, candidate), sessions, listed)
  {
    assert Kept(order, now) + [] == Kept(order, now);
    forall o | o in sessions && sessions[o].recorded
      ensures IdsOf(NextOrder(order, now, candidate), o) == IdsOf(order, o)
    {
      KeptElsewhere(order, now, o);
    }
  }

  lemma ListsAdded(order: seq<Entry>, entries: set<Entry>, e: Entry, sessions: map<string, Instance>,
                   listed: Listed, next: Listed)
    requires Exact(order, entries) && Lists(order, sessions, listed) && OneEach(sessions)
    requires e !in entries && e.owner in sessions && sessions[e.owner] in listed
    requires next == listed[sessions[e.owner] := if sessions[e.owner].recorded then listed[sessions[e.owner]] + [e.id]
                                                 else listed[sessions[e.owner]]]
    ensures Lists(NextOrder(order, entries + {e}, Some(e)), sessions, next)
  {
    KeptAll(order, entries + {e});
    assert (order + [e])[..|order|] == order;
    assert forall o :: IdsOf(order, o) + [] == IdsOf(order, o);
  }

  lemma ListsRemoved(order: seq<Entry>, entries: set<Entry>, e: Entry, sessions: map<string, Instance>,
                     listed: Listed, next: Listed)
    requires Exact(order, entries) && Lists(order, sessions, listed) && OneEach(sessions)
    requires e in entries && e.owner in sessions && sessions[e.owner] in listed
    requires var ids := listed[sessions[e.owner]];
             next == listed[sessions[e.owner] := if sessions[e.owner].recorded then Spliced(ids, IndexOf(ids, e.id))
                 else ids]
    ensures Lists(NextOrder(order, entries - {e}, None), sessions, next)
  {
    var now := entries - {e};
    assert Kept(order, now) + [] == Kept(order, now);
    KeptWithout(order, now, e);
    forall o | o in sessions && o != e.owner ensures IdsOf(Kept(order, now), o) == IdsOf(order, o) {
      KeptElsewhere(order, now, o);
    }
  }

  /** An owner that was just attached has nothing yet. */
  lemma ListsAttached(order: seq<Entry>, entries: set<Entry>, owner: string, i: Instance,
                      sessions: map<string, Instance>, listed: Listed)
    requires Exact(order, entries) && Lists(order, sessions, listed)
    requires owner !in sessions && i !in listed && forall e :: e in entries ==> e.owner in sessions
    ensures Lists(NextOrder(order, entries, None), sessions[owner := i], listed[i := []])
  {
    KeptAll(order, entries);
    assert NextOrder(order, entries, None) == order;
    IdsIn(order, owner);
    NonEmpty(IdsOf(order, owner));
    forall o | o in sessions && sessions[o].recorded ensures sessions[o] != i {
      assert sessions[o] in listed;
    }
  }

  lemma NonEmpty(s: seq<string>)
    ensures s != [] ==> exists x :: x in s
  {
    if s != [] {
      assert s[0] in s;
    }
  }

  // Whole runs.

  /** The records agree with the registries in one kind of binding. */
  ghost predicate Agree(order: seq<Entry>, entries: set<Entry>, sessions: map<string, Instance>, listed: Listed) {
    Exact(order, entries) && Lists(order, sessions, listed)
  }

  ghost predicate Consistent(p: Plane, routes: seq<Entry>, transports: seq<Entry>) {
    && OneEach(p.sessions)
    && Agree(routes, RouteEntries(p), p.sessions, RoutesListed(p))
    && Agree(transports, TransportEntries(p), p.sessions, TransportsListed(p))
  }

  /** A new instance for every attach, and no white space around the ids that are declared. */
  ghost predicate CleanStep(p: Plane, a: Action) {
    && (a.Attach? && a.instance != null ==> a.instance !in p.records && a.record == NEW_RECORD)
    && (a.RegisterTransport? ==> Trimmed(a.transport.id))
    && (a.RegisterRoute? ==> Trimmed(a.route.id))
  }

  ghost predicate CleanRun(p: Plane, run: seq<Action>)
    requires Recorded(p)
  {
    run == [] || (CleanRun(p, run[..|run| - 1]) && CleanStep(Exec(p, run[..|run| - 1]), run[|run| - 1]))
  }

  lemma AgreeKept(order: seq<Entry>, entries: set<Entry>, candidate: Option<Entry>,
                  sessions: map<string, Instance>, listed: Listed)
    requires Agree(order, entries, sessions, listed)
    ensures Agree(NextOrder(order, entries, candidate), entries, sessions, listed)
  {
    OrderStaysExact(order, entries, entries, candidate);
    ListsKept(order, entries, entries, candidate, sessions, listed);
  }

  lemma AgreeAdded(order: seq<Entry>, entries: set<Entry>, e: Entry, sessions: map<string, Instance>,
                   listed: Listed, next: Listed)
    requires Agree(order, entries, sessions, listed) && OneEach(sessions)
    requires e !in entries && e.owner in sessions && sessions[e.owner] in listed
    requires next == listed[sessions[e.owner] := if sessions[e.owner].recorded then listed[sessions[e.owner]] + [e.id]
                                                 else listed[sessions[e.owner]]]
    ensures Agree(NextOrder(order, entries + {e}, Some(e)), entries + {e}, sessions, next)
  {
    OrderStaysExact(order, entries, entries + {e}, Some(e));
    ListsAdded(order, entries, e, sessions, listed, next);
  }

  lemma AgreeRemoved(order: seq<Entry>, entries: set<Entry>, e: Entry, sessions: map<string, Instance>,
                     listed: Listed, next: Listed)
    requires Agree(order, entries, sessions, listed) && OneEach(sessions)
    requires e in entries && e.owner in sessions && sessions[e.owner] in listed
    requires var ids := listed[sessions[e.owner]];
             next == listed[sessions[e.owner] := if sessions[e.owner].recorded then Spliced(ids, IndexOf(ids, e.id))
                 else ids]
    ensures Agree(NextOrder(order, entries - {e}, None), entries - {e}, sessions, next)
  {
    OrderStaysExact(order, entries, entries - {e}, None);
    ListsRemoved(order, entries, e, sessions, listed, next);
  }

  lemma AgreeAttached(order: seq<Entry>, entries: set<Entry>, owner: string, i: Instance,
                      sessions: map<string, Instance>, listed: Listed)
    requires Agree(order, entries, sessions, listed)
    requires owner !in sessions && i !in listed && forall e :: e in entries ==> e.owner in sessions
    ensures Agree(NextOrder(order, entries, None), entries, sessions[owner := i], listed[i := []])
  {
    OrderStaysExact(order, entries, entries, None);
    ListsAttached(order, entries, owner, i, sessions, listed);
  }

  lemma AgreeDetached(order: seq<Entry>, entries: set<Entry>, now: set<Entry>, owner: string,
                      sessions: map<string, Instance>, listed: Listed)
    requires Agree(order, entries, sessions, listed)
    requires forall e :: e in now <==> e in entries && e.owner != owner
    ensures Agree(NextOrder(order, now, None), now, sessions - {owner}, listed)
  {
    OrderStaysExact(order, entries, now, None);
    ListsKept(order, entries, now, None, sessions - {owner}, listed);
  }

  /** One record of p replaced by r. */
  predicate Rerecorded(p: Plane, q: Plane, i: Instance, r: Record) {
    q.sessions == p.sessions && i in p.records && q.records == p.records[i := r]
  }

  lemma RoutesRelisted(p: Plane, q: Plane, i: Instance, r: Record)
    requires Rerecorded(p, q, i, r)
    ensures RoutesListed(q) == RoutesListed(p)[i := RouteIds(r.routes)]
  {
  }

  lemma TransportsRelisted(p: Plane, q: Plane, i: Instance, r: Record)
    requires Rerecorded(p, q, i, r)
    ensures TransportsListed(q) == TransportsListed(p)[i := TransportIds(r.transports)]
  {
  }

  lemma RoutesStay(p: Plane, q: Plane, order: seq<Entry>, candidate: Option<Entry>)
    requires Agree(order, RouteEntries(p), p.sessions, RoutesListed(p))
    requires RouteEntries(q) == RouteEntries(p) && q.sessions == p.sessions && RoutesListed(q) == RoutesListed(p)
    ensures Agree(NextOrder(order, RouteEntries(q), candidate), RouteEntries(q), q.sessions, RoutesListed(q))
  {
    AgreeKept(order, RouteEntries(p), candidate, p.sessions, RoutesListed(p));
  }

  lemma TransportsStay(p: Plane, q: Plane, order: seq<Entry>, candidate: Option<Entry>)
    requires Agree(order, TransportEntries(p), p.sessions, TransportsListed(p))
    requires TransportEntries(q) == TransportEntries(p) && q.sessions == p.sessions
             && TransportsListed(q) == TransportsListed(p)
    ensures Agree(NextOrder(order, TransportEntries(q), candidate), TransportEntries(q), q.sessions,
            TransportsListed(q))
  {
    AgreeKept(order, TransportEntries(p), candidate, p.sessions, TransportsListed(p));
  }

  lemma SameListing(listed: Listed, i: Instance)
    requires i in listed
    ensures listed[i := listed[i]] == listed
  {
  }

  lemma RoutesUntouched(p: Plane, q: Plane, i: Instance, r: Record, order: seq<Entry>, candidate: Option<Entry>)
    requires Agree(order, RouteEntries(p), p.sessions, RoutesListed(p)) && Rerecorded(p, q, i, r)
    requires RouteEntries(q) == RouteEntries(p) && r.routes == p.records[i].routes
    ensures Agree(NextOrder(order, RouteEntries(q), candidate), RouteEntries(q), q.sessions, RoutesListed(q))
  {
    RoutesRelisted(p, q, i, r);
    SameListing(RoutesListed(p), i);
    RoutesStay(p, q, order, candidate);
  }

  lemma TransportsUntouched(p: Plane, q: Plane, i: Instance, r: Record, order: seq<Entry>, candidate: Option<Entry>)
    requires Agree(order, TransportEntries(p), p.sessions, TransportsListed(p)) && Rerecorded(p, q, i, r)
    requires TransportEntries(q) == TransportEntries(p) && r.transports == p.records[i].transports
    ensures Agree(NextOrder(order, TransportEntries(q), candidate), TransportEntries(q), q.sessions,
            TransportsListed(q))
  {
    TransportsRelisted(p, q, i, r);
    SameListing(TransportsListed(p), i);
    TransportsStay(p, q, order, candidate);
  }

  lemma RoutesGain(p: Plane, q: Plane, owner: string, d: RouteDecl, order: seq<Entry>)
    requires Agree(order, RouteEntries(p), p.sessions, RoutesListed(p)) && OneEach(p.sessions)
    requires owner in p.sessions && p.sessions[owner] in p.records
    requires Rerecorded(p, q, p.sessions[owner], RouteAdded(p.sessions[owner], p.records[p.sessions[owner]], d))
    requires Entry(owner, d.id) !in RouteEntries(p) && RouteEntries(q) == RouteEntries(p) + {Entry(owner, d.id)}
    ensures Agree(NextOrder(order, RouteEntries(q), Some(Entry(owner, d.id))), RouteEntries(q), q.sessions,
            RoutesListed(q))
  {
    var i, e := p.sessions[owner], Entry(owner, d.id);
    RoutesRelisted(p, q, i, RouteAdded(i, p.records[i], d));
    assert RouteIds(p.records[i].routes + [d]) == RouteIds(p.records[i].routes) + [d.id];
    AgreeAdded(order, RouteEntries(p), e, p.sessions, RoutesListed(p), RoutesListed(q));
  }

  lemma TransportsGain(p: Plane, q: Plane, owner: string, d: TransportDecl, order: seq<Entry>)
    requires Agree(order, TransportEntries(p), p.sessions, TransportsListed(p)) && OneEach(p.sessions)
    requires owner in p.sessions && p.sessions[owner] in p.records
    requires Rerecorded(p, q, p.sessions[owner], TransportAdded(p.sessions[owner], p.records[p.sessions[owner]], d))
    requires Entry(owner, d.id) !in TransportEntries(p)
             && TransportEntries(q) == TransportEntries(p) + {Entry(owner, d.id)}
    ensures Agree(NextOrder(order, TransportEntries(q), Some(Entry(owner, d.id))), TransportEntries(q), q.sessions,
                  TransportsListed(q))
  {
    var i, e := p.sessions[owner], Entry(owner, d.id);
    TransportsRelisted(p, q, i, TransportAdded(i, p.records[i], d));
    assert TransportIds(p.records[i].transports + [d]) == TransportIds(p.records[i].transports) + [d.id];
    AgreeAdded(order, TransportEntries(p), e, p.sessions, TransportsListed(p), TransportsListed(q));
  }

  lemma RoutesLose(p: Plane, q: Plane, owner: string, id: string, order: seq<Entry>)
    requires Agree(order, RouteEntries(p), p.sessions, RoutesListed(p)) && OneEach(p.sessions)
    requires owner in p.sessions && p.sessions[owner] in p.records
    requires Rerecorded(p, q, p.sessions[owner], RouteRemoved(p.sessions[owner], p.records[p.sessions[owner]], id))
    requires Entry(owner, id) in RouteEntries(p) && RouteEntries(q) == RouteEntries(p) - {Entry(owner, id)}
    ensures Agree(NextOrder(order, RouteEntries(q), None), RouteEntries(q), q.sessions, RoutesListed(q))
  {
    var i, e := p.sessions[owner], Entry(owner, id);
    RoutesRelisted(p, q, i, RouteRemoved(i, p.records[i], id));
    SplicedRoutes(p.records[i].routes, IndexOf(RouteIds(p.records[i].routes), id));
    AgreeRemoved(order, RouteEntries(p), e, p.sessions, RoutesListed(p), RoutesListed(q));
  }

  lemma TransportsLose(p: Plane, q: Plane, owner: string, id: string, order: seq<Entry>)
    requires Agree(order, TransportEntries(p), p.sessions, TransportsListed(p)) && OneEach(p.sessions)
    requires owner in p.sessions && p.sessions[owner] in p.records
    requires Rerecorded(p, q, p.sessions[owner], TransportRemoved(p.sessions[owner], p.records[p.sessions[owner]], id))
    requires Entry(owner, id) in TransportEntries(p) && TransportEntries(q) == TransportEntries(p) - {Entry(owner, id)}
    ensures Agree(NextOrder(order, TransportEntries(q), None), TransportEntries(q), q.sessions, TransportsListed(q))
  {
    var i, e := p.sessions[owner], Entry(owner, id);
    TransportsRelisted(p, q, i, TransportRemoved(i, p.records[i], id));
    SplicedTransports(p.records[i].transports, IndexOf(TransportIds(p.records[i].transports), id));
    AgreeRemoved(order, TransportEntries(p), e, p.sessions, TransportsListed(p), TransportsListed(q));
  }

  ghost predicate Next(p: Plane, q: Plane, routes: seq<Entry>, transports: seq<Entry>, a: Action) {
    Consistent(q, NextOrder(routes, RouteEntries(q), NewRoute(a)),
        NextOrder(transports, TransportEntries(q), NewTransport(a)))
  }

  lemma AttachedListings(p: Plane, q: Plane, i: Instance)
    requires q.records == p.records[i := NEW_RECORD]
    ensures RoutesListed(q) == RoutesListed(p)[i := []]
    ensures TransportsListed(q) == TransportsListed(p)[i := []]
  {
  }

  lemma AttachConsistent(p: Plane, routes: seq<Entry>, transports: seq<Entry>, a: Action)
    requires Inv(p) && Consistent(p, routes, transports) && a.Attach? && CleanStep(p, a)
    ensures Next(p, Step(p, a), routes, transports, a)
  {
    var q := Step(p, a);
    if q == p {
      RoutesStay(p, q, routes, None);
      TransportsStay(p, q, transports, None);
    } else {
      EntriesAreOwned(p);
      AttachedListings(p, q, a.instance);
      AgreeAttached(routes, RouteEntries(p), Trim(a.owner), a.instance, p.sessions, RoutesListed(p));
      AgreeAttached(transports, TransportEntries(p), Trim(a.owner), a.instance, p.sessions, TransportsListed(p));
    }
  }

  lemma EntriesAreOwned(p: Plane)
    requires RoutesHold(p) && TransportsHold(p)
    ensures forall e :: e in RouteEntries(p) ==> e.owner in p.sessions
    ensures forall e :: e in TransportEntries(p) ==> e.owner in p.sessions
  {
  }

  lemma DetachConsistent(p: Plane, routes: seq<Entry>, transports: seq<Entry>, a: Action)
    requires Inv(p) && Consistent(p, routes, transports) && a.Detach?
    ensures Next(p, Step(p, a), routes, transports, a)
  {
    var q := Step(p, a);
    DetachedEntries(p, a.owner);
    AgreeDetached(routes, RouteEntries(p), RouteEntries(q), a.owner, p.sessions, RoutesListed(p));
    AgreeDetached(transports, TransportEntries(p), TransportEntries(q), a.owner, p.sessions, TransportsListed(p));
  }

  lemma DetachedEntries(p: Plane, owner: string)
    requires Inv(p)
    ensures var q := Detached(p, owner);
            && (forall e :: e in RouteEntries(q) <==> e in RouteEntries(p) && e.owner != owner)
            && (forall e :: e in TransportEntries(q) <==> e in TransportEntries(p) && e.owner != owner)
  {
    forall k | k in p.routing.byID ensures p.routing.byID[k].owner == k.owner {
      assert Routing.RouteKeyOf(p.routing.byID[k]) == k;
    }
  }

  lemma OfferedEntries(p: Plane, q: Plane, b: Transports.Binding)
    requires Transports.KeyOf(b) !in p.transports.live && q.transports == Transports.Offered(p.transports, b)
    ensures TransportEntries(q) == TransportEntries(p) + {Entry(b.owner, b.decl.id)}
    ensures Entry(b.owner, b.decl.id) !in TransportEntries(p)
  {
  }

  lemma RegisterTransportConsistent(p: Plane, routes: seq<Entry>, transports: seq<Entry>, a: Action)
    requires Inv(p) && Consistent(p, routes, transports) && a.RegisterTransport? && CleanStep(p, a)
    ensures Next(p, Step(p, a), routes, transports, a)
  {
    var q := Step(p, a);
    if !Prepares(p, a.owner, a.transport, a.probe, a.b) || Transports.KeyOf(a.b) in p.transports.live {
      RoutesStay(p, q, routes, None);
      TransportsStay(p, q, transports, NewTransport(a));
    } else {
      var i := p.sessions[a.owner];
      OfferedEntries(p, q, a.b);
      RoutesUntouched(p, q, i, TransportAdded(i, p.records[i], a.transport), routes, None);
      TransportsGain(p, q, a.owner, a.transport, transports);
    }
  }

  lemma TransportDropped(p: Plane, q: Plane, routes: seq<Entry>, transports: seq<Entry>, owner: string, id: string)
    requires Recorded(p) && Consistent(p, routes, transports)
    requires owner in p.sessions && Transports.Key(owner, id) in p.transports.live
    requires q.transports.live == p.transports.live - {Transports.Key(owner, id)}
    requires q.routing == p.routing
    requires Rerecorded(p, q, p.sessions[owner], TransportRemoved(p.sessions[owner], p.records[p.sessions[owner]], id))
    ensures Agree(NextOrder(routes, RouteEntries(q), None), RouteEntries(q), q.sessions, RoutesListed(q))
    ensures Agree(NextOrder(transports, TransportEntries(q), None), TransportEntries(q), q.sessions,
            TransportsListed(q))
  {
    FewerTransportEntries(p, q, Transports.Key(owner, id));
    RoutesUntouched(p, q, p.sessions[owner], q.records[p.sessions[owner]], routes, None);
    TransportsLose(p, q, owner, id, transports);
  }

  lemma FewerTransportEntries(p: Plane, q: Plane, k: Transports.Key)
    requires k in p.transports.live && q.transports.live == p.transports.live - {k}
    ensures TransportEntries(q) == TransportEntries(p) - {Entry(k.owner, k.id)}
    ensures Entry(k.owner, k.id) in TransportEntries(p)
  {
  }

  lemma UnregisterTransportConsistent(p: Plane, routes: seq<Entry>, transports: seq<Entry>, a: Action)
    requires Inv(p) && Consistent(p, routes, transports) && a.UnregisterTransport?
    ensures Next(p, Step(p, a), routes, transports, a)
  {
    var q := Step(p, a);
    if a.owner !in p.sessions || Uses(p.routing.byID, a.owner, Trim(a.id))
       || Transports.Key(a.owner, Trim(a.id)) !in p.transports.live {
      RoutesStay(p, q, routes, None);
      TransportsStay(p, q, transports, None);
    } else {
      TransportDropped(p, q, routes, transports, a.owner, Trim(a.id));
    }
  }

  lemma SplicedTransports(ds: seq<TransportDecl>, k: nat)
    ensures TransportIds(Spliced(ds, k)) == Spliced(TransportIds(ds), k)
  {
  }

  lemma SplicedRoutes(ds: seq<RouteDecl>, k: nat)
    ensures RouteIds(Spliced(ds, k)) == Spliced(RouteIds(ds), k)
  {
  }

  lemma RegisterRouteConsistent(p: Plane, routes: seq<Entry>, transports: seq<Entry>, a: Action)
    requires Inv(p) && Consistent(p, routes, transports) && a.RegisterRoute? && CleanStep(p, a)
    ensures Next(p, Step(p, a), routes, transports, a)
  {
    var q := Step(p, a);
    if a.owner !in p.sessions || RouteRefusal(p, a.owner, a.route, a.creatable).Some? {
      RoutesStay(p, q, routes, NewRoute(a));
      TransportsStay(p, q, transports, None);
    } else {
      var i := p.sessions[a.owner];
      RegisteredEntries(p, a.owner, a.route, a.creatable);
      TransportsUntouched(p, q, i, RouteAdded(i, p.records[i], a.route), transports, None);
      RoutesGain(p, q, a.owner, a.route, routes);
    }
  }

  lemma RegisteredEntries(p: Plane, owner: string, d: RouteDecl, creatable: bool)
    requires Inv(p) && owner in p.sessions && RouteRefusal(p, owner, d, creatable).None?
    ensures RouteEntries(RouteRegistered(p, owner, d, creatable)) == RouteEntries(p) + {Entry(owner, Trim(d.id))}
    ensures Entry(owner, Trim(d.id)) !in RouteEntries(p)
  {
    Routing.AcceptedIsAdmissible(p.routing, p.transports.live, owner, d, creatable);
    var b := Routing.Bound(p.transports.live, owner, d);
    assert RouteRegistered(p, owner, d, creatable).routing.byID == p.routing.byID[Routing.RouteKeyOf(b) := b];
  }

  lemma UnregisteredEntries(p: Plane, owner: string, id: string)
    requires Inv(p) && owner in p.sessions && Routing.RouteKey(owner, Trim(id)) in p.routing.byID
    ensures RouteEntries(RouteUnregistered(p, owner, id)) == RouteEntries(p) - {Entry(owner, Trim(id))}
    ensures Entry(owner, Trim(id)) in RouteEntries(p)
  {
    UnregisterKeepsRouting(p.routing, owner, id);
    var k := Routing.RouteKey(owner, Trim(id));
    FewerRouteEntries(p, RouteUnregistered(p, owner, id), k);
  }

  lemma FewerRouteEntries(p: Plane, q: Plane, k: Routing.RouteKey)
    requires k in p.routing.byID && q.routing.byID == p.routing.byID - {k}
    ensures RouteEntries(q) == RouteEntries(p) - {Entry(k.owner, k.id)} && Entry(k.owner, k.id) in RouteEntries(p)
  {
  }

  lemma UnregisterRouteConsistent(p: Plane, routes: seq<Entry>, transports: seq<Entry>, a: Action)
    requires Inv(p) && Consistent(p, routes, transports) && a.UnregisterRoute?
    ensures Next(p, Step(p, a), routes, transports, a)
  {
    var q := Step(p, a);
    if a.owner !in p.sessions || Routing.RouteKey(a.owner, Trim(a.id)) !in p.routing.byID {
      RoutesStay(p, q, routes, None);
      TransportsStay(p, q, transports, None);
    } else {
      var i := p.sessions[a.owner];
      UnregisteredEntries(p, a.owner, a.id);
      TransportsUntouched(p, q, i, RouteRemoved(i, p.records[i], Trim(a.id)), transports, None);
      RoutesLose(p, q, a.owner, Trim(a.id), routes);
    }
  }

  lemma FinishConsistent(p: Plane, routes: seq<Entry>, transports: seq<Entry>, a: Action)
    requires Inv(p) && Consistent(p, routes, transports) && (a.Finish? || a.Reserve?)
    ensures Next(p, Step(p, a), routes, transports, a)
  {
    var q := Step(p, a);
    if a.Finish? && a.owner in p.sessions {
      var i := p.sessions[a.owner];
      RoutesUntouched(p, q, i, q.records[i], routes, None);
      TransportsUntouched(p, q, i, q.records[i], transports, None);
    } else {
      RoutesStay(p, q, routes, None);
      TransportsStay(p, q, transports, None);
    }
  }

  lemma StepConsistent(p: Plane, routes: seq<Entry>, transports: seq<Entry>, a: Action)
    requires Inv(p) && Consistent(p, routes, transports) && CleanStep(p, a)
    ensures Next(p, Step(p, a), routes, transports, a)
  {
    match a
    case Attach(_, _, _) => AttachConsistent(p, routes, transports, a);
    case Detach(_) => DetachConsistent(p, routes, transports, a);
    case RegisterTransport(_, _, _, _) => RegisterTransportConsistent(p, routes, transports, a);
    case UnregisterTransport(_, _) => UnregisterTransportConsistent(p, routes, transports, a);
    case RegisterRoute(_, _, _) => RegisterRouteConsistent(p, routes, transports, a);
    case UnregisterRoute(_, _) => UnregisterRouteConsistent(p, routes, transports, a);
    case Finish(_, _) => FinishConsistent(p, routes, transports, a);
    case Reserve(_, _) => FinishConsistent(p, routes, transports, a);
  }

  lemma {:induction false} RunConsistent(withSockets: bool, run: seq<Action>)
    requires Recorded(Init(withSockets)) && CleanRun(Init(withSockets), run)
    ensures Consistent(Exec(Init(withSockets), run), RouteOrder(Init(withSockets), run),
            TransportOrder(Init(withSockets), run))
  {
    if run != [] {
      var n := |run| - 1;
      var p := Exec(Init(withSockets), run[..n]);
      RunConsistent(withSockets, run[..n]);
      RunKeeps(Init(withSockets), run[..n]);
      StepConsistent(p, RouteOrder(Init(withSockets), run[..n]), TransportOrder(Init(withSockets), run[..n]), run[n]);
    }
  }

  /** The record of every attached service lists exactly the routes and transports that the registries hold for it,
      each once, in the order in which they were registered. */
  lemma RecordsAreExact(withSockets: bool, run: seq<Action>, o: string)
    requires Recorded(Init(withSockets)) && CleanRun(Init(withSockets), run)
    requires o in Exec(Init(withSockets), run).sessions && Exec(Init(withSockets), run).sessions[o].recorded
    ensures var p := Exec(Init(withSockets), run);
            var r := p.records[p.sessions[o]];
            && RouteIds(r.routes) == IdsOf(RouteOrder(Init(withSockets), run), o)
            && TransportIds(r.transports) == IdsOf(TransportOrder(Init(withSockets), run), o)
            && (forall id :: id in RouteIds(r.routes) <==> Routing.RouteKey(o, id) in p.routing.byID)
            && (forall id :: id in TransportIds(r.transports) <==> Transports.Key(o, id) in p.transports.live)
            && (forall i, j :: 0 <= i < j < |r.routes| ==> r.routes[i].id != r.routes[j].id)
            && (forall i, j :: 0 <= i < j < |r.transports| ==> r.transports[i].id != r.transports[j].id)
  {
    RunConsistent(withSockets, run);
    var p := Exec(Init(withSockets), run);
    RunKeeps(Init(withSockets), run);
    RoutesExact(p, RouteOrder(Init(withSockets), run), o);
    TransportsExact(p, TransportOrder(Init(withSockets), run), o);
  }

  lemma RoutesExact(p: Plane, order: seq<Entry>, o: string)
    requires Agree(order, RouteEntries(p), p.sessions, RoutesListed(p)) && Recorded(p)
    requires o in p.sessions && p.sessions[o].recorded
    ensures var r := p.records[p.sessions[o]];
            && RouteIds(r.routes) == IdsOf(order, o)
            && (forall id :: id in RouteIds(r.routes) <==> Entry(o, id) in RouteEntries(p))
            && (forall id :: id in RouteIds(r.routes) <==> Routing.RouteKey(o, id) in p.routing.byID)
            && (forall i, j :: 0 <= i < j < |r.routes| ==> r.routes[i].id != r.routes[j].id)
  {
    IdsIn(order, o);
    var ids := RouteIds(p.records[p.sessions[o]].routes);
    forall id ensures Entry(o, id) in RouteEntries(p) <==> Routing.RouteKey(o, id) in p.routing.byID {
      if Routing.RouteKey(o, id) in p.routing.byID {
        var k := Routing.RouteKey(o, id);
        assert Entry(k.owner, k.id) in RouteEntries(p);
      }
    }
    forall i, j | 0 <= i < j < |ids| ensures ids[i] != ids[j] {
    }
  }

  lemma TransportsExact(p: Plane, order: seq<Entry>, o: string)
    requires Agree(order, TransportEntries(p), p.sessions, TransportsListed(p)) && Recorded(p)
    requires o in p.sessions && p.sessions[o].recorded
    ensures var r := p.records[p.sessions[o]];
            && TransportIds(r.transports) == IdsOf(order, o)
            && (forall id :: id in TransportIds(r.transports) <==> Transports.Key(o, id) in p.transports.live)
            && (forall i, j :: 0 <= i < j < |r.transports| ==> r.transports[i].id != r.transports[j].id)
  {
    IdsIn(order, o);
    var ids := TransportIds(p.records[p.sessions[o]].transports);
    forall id ensures Entry(o, id) in TransportEntries(p) <==> Transports.Key(o, id) in p.transports.live {
      if Transports.Key(o, id) in p.transports.live {
        var k := Transports.Key(o, id);
        assert Entry(k.owner, k.id) in TransportEntries(p);
      }
    }
    forall i, j | 0 <= i < j < |ids| ensures ids[i] != ids[j] {
    }
  }

  /** The record keeps ids as declared and forgets them trimmed: registering a route and unregistering it by the same
      id leaves the record as it was exactly when the id is trimmed. */
  lemma RecordRestoredIff(p: Plane, routes: seq<Entry>, owner: string, d: RouteDecl, creatable: bool)
    requires Inv(p) && Agree(routes, RouteEntries(p), p.sessions, RoutesListed(p))
    requires owner in p.sessions && p.sessions[owner].recorded && RouteRefusal(p, owner, d, creatable).None?
    ensures var q := RouteUnregistered(RouteRegistered(p, owner, d, creatable), owner, d.id);
            q.records[p.sessions[owner]] == p.records[p.sessions[owner]] <==> Trimmed(d.id)
  {
    var i := p.sessions[owner];
    var u := RouteRegistered(p, owner, d, creatable);
    RegisteredEntries(p, owner, d, creatable);
    assert Entry(owner, Trim(d.id)) in RouteEntries(u);
    RoutesExact(p, routes, owner);
    var ds := p.records[i].routes;
    assert RouteIds(ds + [d]) == RouteIds(ds) + [d.id];
    SpliceBack(ds, RouteIds(ds), d, d.id);
  }

  lemma SpliceBack<D>(ds: seq<D>, ids: seq<string>, d: D, id: string)
    requires |ids| == |ds| && Trim(id) !in ids
    ensures Spliced(ds + [d], IndexOf(ids + [id], Trim(id))) == ds <==> Trimmed(id)
  {
    IndexOfNext(ids, id, Trim(id));
    if Trimmed(id) {
      assert Spliced(ds + [d], |ds|) == ds;
    } else {
      assert |Spliced(ds + [d], |ds| + 1)| == |ds| + 1;
    }
  }

  /** The same of transports. */
  lemma TransportRecordRestoredIff(p: Plane, transports: seq<Entry>, owner: string, d: TransportDecl,
                                   probe: Transports.Probe, b: Transports.Binding)
    requires Inv(p) && Agree(transports, TransportEntries(p), p.sessions, TransportsListed(p))
    requires owner in p.sessions && p.sessions[owner].recorded && Prepares(p, owner, d, probe, b)
    requires Transports.KeyOf(b) !in p.transports.live
    ensures var q := TransportUnregistered(TransportRegistered(p, owner, d, probe, b), owner, d.id);
            q.records[p.sessions[owner]] == p.records[p.sessions[owner]] <==> Trimmed(d.id)
  {
    TransportsExact(p, transports, owner);
    UnusedWhenAbsent(p, owner, Trim(d.id));
    var ds := p.records[p.sessions[owner]].transports;
    assert TransportIds(ds + [d]) == TransportIds(ds) + [d.id];
    SpliceBack(ds, TransportIds(ds), d, d.id);
  }

  /** No route uses a transport that is not registered. */
  lemma UnusedWhenAbsent(p: Plane, owner: string, id: string)
    requires Inv(p) && Transports.Key(owner, id) !in p.transports.live
    ensures !Uses(p.routing.byID, owner, id)
  {
    forall k | k in p.routing.byID ensures Transports.Key(p.routing.byID[k].owner, p.routing.byID[k].route.transportID)
                                           in p.transports.live
    {
      assert Routing.RouteKeyOf(p.routing.byID[k]) == k;
    }
  }
}

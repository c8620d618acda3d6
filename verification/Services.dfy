// What a service declares, and the state of one running service.
module Services {
  import opened Text

  datatype Kind = HTTP | SocketIO | Static | Proxy | Unsupported(name: string)

  datatype TransportDecl = TransportDecl(id: string, kind: Kind)

  datatype Rewrite = Rewrite(prefix: bool, location: bool)

  datatype HTTPRoute = HTTPRoute(pattern: string, verb: string, rewrite: Option<Rewrite>)

  datatype RouteDecl = RouteDecl(id: string, transportID: string, http: Option<HTTPRoute>, socket: Option<string>)

  /** The projection of a service's bindings that the rest of the kernel is shown. */
  datatype Record = Record(transports: seq<TransportDecl>, routes: seq<RouteDecl>, degraded: bool)

  const NEW_RECORD := Record([], [], false)

  function Ids<D>(ds: seq<D>, idOf: D -> string): (r: seq<string>)
    ensures |r| == |ds| && forall i :: 0 <= i < |ds| ==> r[i] == idOf(ds[i])
  {
    seq(|ds|, i requires 0 <= i < |ds| => idOf(ds[i]))
  }

  function TransportIds(ds: seq<TransportDecl>): seq<string> {
    Ids(ds, (d: TransportDecl) => d.id)
  }

  function RouteIds(ds: seq<RouteDecl>): seq<string> {
    Ids(ds, (d: RouteDecl) => d.id)
  }

  /** The first position of an id, or the length when there is none. */
  function IndexOf(ids: seq<string>, id: string): (r: nat)
    ensures r <= |ids|
    ensures r < |ids| ==> ids[r] == id
    ensures forall j :: 0 <= j < r ==> ids[j] != id
  {
    if ids == [] || ids[0] == id then 0 else 1 + IndexOf(ids[1..], id)
  }

  lemma IndexIsFirst(ids: seq<string>, id: string, k: nat)
    requires k <= |ids| && (k < |ids| ==> ids[k] == id)
    requires forall j :: 0 <= j < k ==> ids[j] != id
    ensures IndexOf(ids, id) == k
  {
  }

  /** A sequence without its element at k; a k past the end takes nothing away. */
  function Spliced<T>(s: seq<T>, k: nat): seq<T> {
    if k < |s| then s[..k] + s[k + 1..] else s
  }

  /** One running service. A service without a record keeps none, and a static one has no connection. */
  class Instance {
    const connected: bool
    const recorded: bool
    var transports: seq<TransportDecl>
    var routes: seq<RouteDecl>
    var degraded: bool

    constructor (connected: bool, recorded: bool)
      ensures this.connected == connected && this.recorded == recorded && View() == NEW_RECORD
    {
      this.connected, this.recorded := connected, recorded;
      transports, routes, degraded := [], [], false;
    }

    function View(): Record
      reads this
    {
      Record(transports, routes, degraded)
    }

    method AddTransport(declaration: TransportDecl)
      modifies this
      ensures View() == TransportAdded(this, old(View()), declaration)
      ensures transports == old(transports) + if recorded then [declaration] else []
    {
      if recorded {
        transports := transports + [declaration];
      }
    }

    method RemoveTransport(id: string)
      modifies this
      ensures View() == TransportRemoved(this, old(View()), id)
    {
      if !recorded {
        return;
      }
      ghost var ids := TransportIds(transports);
      for index := 0 to |transports|
        invariant View() == old(View())
        invariant forall j :: 0 <= j < index ==> ids[j] != id
      {
        if transports[index].id == id {
          transports := transports[..index] + transports[index + 1..];
          IndexIsFirst(ids, id, index);
          return;
        }
      }
      IndexIsFirst(ids, id, |ids|);
    }

    method AddRoute(declaration: RouteDecl)
      modifies this
      ensures View() == RouteAdded(this, old(View()), declaration)
      ensures routes == old(routes) + if recorded then [declaration] else []
    {
      if recorded {
        routes := routes + [declaration];
      }
    }

    method RemoveRoute(id: string)
      modifies this
      ensures View() == RouteRemoved(this, old(View()), id)
    {
      if !recorded {
        return;
      }
      ghost var ids := RouteIds(routes);
      for index := 0 to |routes|
        invariant View() == old(View())
        invariant forall j :: 0 <= j < index ==> ids[j] != id
      {
        if routes[index].id == id {
          routes := routes[..index] + routes[index + 1..];
          IndexIsFirst(ids, id, index);
          return;
        }
      }
      IndexIsFirst(ids, id, |ids|);
    }

    method MarkDegraded()
      modifies this
      ensures View() == old(View()).(degraded := true)
    {
      degraded := true;
    }
  }

  function TransportAdded(i: Instance, r: Record, d: TransportDecl): Record {
    if i.recorded then r.(transports := r.transports + [d]) else r
  }

  function TransportRemoved(i: Instance, r: Record, id: string): Record {
    if i.recorded then r.(transports := Spliced(r.transports, IndexOf(TransportIds(r.transports), id))) else r
  }

  function RouteAdded(i: Instance, r: Record, d: RouteDecl): Record {
    if i.recorded then r.(routes := r.routes + [d]) else r
  }

  function RouteRemoved(i: Instance, r: Record, id: string): Record {
    if i.recorded then r.(routes := Spliced(r.routes, IndexOf(RouteIds(r.routes), id))) else r
  }
}

// The owners table of the Socket.IO bridge.
module Sockets {
  import opened Text
  import opened Services

  datatype Owner = Owner(service: string, endpoint: Instance?, routeID: string)

  const NO_OWNER := Owner("", null, "")

  datatype Error = NamespaceRequired | ConnectionRequired | CannotCreate | AlreadyOwned(service: string)

  /** The owners of namespaces, and the namespaces whose handlers are installed. */
  datatype Table = Table(owners: map<string, Owner>, installed: set<string>)

  function OwnerOf(t: Table, namespace: string): Owner {
    if namespace in t.owners then t.owners[namespace] else NO_OWNER
  }

  predicate Live(o: Owner) {
    o.service != "" && o.endpoint != null && o.endpoint.connected
  }

  function Refusal(t: Table, namespace: string, endpoint: Instance?, creatable: bool): Option<Error> {
    if namespace == "" then Some(NamespaceRequired)
    else if endpoint == null || !endpoint.connected then Some(ConnectionRequired)
    else if !creatable then Some(CannotCreate)
    else if OwnerOf(t, namespace).service != "" then Some(AlreadyOwned(OwnerOf(t, namespace).service))
    else None
  }

  function Taken(t: Table, namespace: string, o: Owner): Table {
    Table(t.owners[namespace := o], t.installed + {namespace})
  }

  function Released(t: Table, service: string, namespace: string): Table {
    if OwnerOf(t, namespace).service == service then t.(owners := t.owners[namespace := NO_OWNER]) else t
  }

  function ServiceReleased(t: Table, service: string): Table {
    t.(owners := map n | n in t.owners :: if t.owners[n].service == service then NO_OWNER else t.owners[n])
  }

  class Bridge {
    var owners: map<string, Owner>
    var installed: set<string>

    constructor ()
      ensures View() == Table(map[], {})
    {
      owners, installed := map[], {};
    }

    function View(): Table
      reads this
    {
      Table(owners, installed)
    }

    /** The parameter creatable says whether the Socket.IO server could create the namespace. */
    method Register(service: string, routeID: string, namespace: string, endpoint: Instance?, creatable: bool)
      returns (error: Option<Error>)
      modifies this
      ensures error == Refusal(old(View()), namespace, endpoint, creatable)
      ensures View() == if error.Some? then old(View())
                        else Taken(old(View()), namespace, Owner(service, endpoint, routeID))
    {
      if namespace == "" {
        return Some(NamespaceRequired);
      }
      if endpoint == null || !endpoint.connected {
        return Some(ConnectionRequired);
      }
      if !creatable {
        return Some(CannotCreate);
      }
      if namespace in owners && owners[namespace].service != "" {
        return Some(AlreadyOwned(owners[namespace].service));
      }
      if namespace !in installed {
        installed := installed + {namespace};
      }
      owners := owners[namespace := Owner(service, endpoint, routeID)];
      error := None;
    }

    method Unregister(service: string, namespace: string)
      modifies this
      ensures View() == Released(old(View()), service, namespace)
    {
      var current := if namespace in owners then owners[namespace] else NO_OWNER;
      if current.service == service {
        owners := owners[namespace := NO_OWNER];
      }
    }

    method RemoveOwner(service: string)
      modifies this
      ensures View() == ServiceReleased(old(View()), service)
    {
      ghost var before := owners;
      var left := owners.Keys;
      while left != {}
        invariant left <= before.Keys && owners.Keys == before.Keys && installed == old(installed)
        invariant forall n :: n in owners ==>
                    owners[n] == if n !in left && before[n].service == service then NO_OWNER else before[n]
      {
        var n :| n in left;
        left := left - {n};
        if owners[n].service == service {
          owners := owners[n := NO_OWNER];
        }
      }
    }

    /** ownerForNamespace: whom an event in the namespace is delivered to, and whether to anyone. */
    method OwnerForNamespace(namespace: string) returns (owner: Owner, live: bool)
      ensures owner == OwnerOf(View(), namespace) && live == Live(owner)
    {
      owner := if namespace in owners then owners[namespace] else NO_OWNER;
      live := owner.service != "" && owner.endpoint != null && owner.endpoint.connected;
    }
  }
}

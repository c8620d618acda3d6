// The transport registry: prepared transports by owner and id.
module Transports {
  import opened Text
  import opened Services

  datatype Key = Key(owner: string, id: string)

  datatype Error = OwnerRequired | IdRequired | CannotPrepare | AlreadyRegistered | NotRegistered

  /** What looking at the outside world says of a declaration: the static source is there, and is a directory or
      a file, or the proxy target can be reached; or not. */
  datatype Probe = Unusable | Usable(directory: bool)

  /** A prepared transport. It never changes, and two of them with the same declaration are still two. */
  class Binding {
    const owner: string
    const decl: TransportDecl
    const endpoint: Instance
    const directory: bool

    constructor (owner: string, decl: TransportDecl, endpoint: Instance, probe: Probe)
      ensures IsPrepared(this, owner, decl, endpoint, probe)
    {
      this.owner, this.decl, this.endpoint := owner, decl, endpoint;
      this.directory := decl.kind.Static? && probe == Usable(true);
    }
  }

  predicate IsPrepared(b: Binding, owner: string, decl: TransportDecl, endpoint: Instance, probe: Probe) {
    b.owner == owner && b.decl == decl && b.endpoint == endpoint
    && b.directory == (decl.kind.Static? && probe == Usable(true))
  }

  function KeyOf(b: Binding): Key {
    Key(b.owner, b.decl.id)
  }

  predicate CanPrepare(decl: TransportDecl, endpoint: Instance, probe: Probe) {
    match decl.kind
    case HTTP => endpoint.connected
    case SocketIO => endpoint.connected
    case Static => probe.Usable?
    case Proxy => probe.Usable?
    case Unsupported(_) => false
  }

  /** The registered transports, and every transport that was prepared and has been closed again. */
  datatype Table = Table(live: map<Key, Binding>, closed: multiset<Binding>)

  predicate Keyed(live: map<Key, Binding>) {
    forall k :: k in live ==> KeyOf(live[k]) == k
  }

  /** Why a registration fails before a transport is prepared for it. */
  function Unprepared(owner: string, decl: TransportDecl, endpoint: Instance, probe: Probe): Option<Error> {
    if Trim(owner) == "" then Some(OwnerRequired)
    else if Trim(decl.id) == "" then Some(IdRequired)
    else if !CanPrepare(decl.(id := Trim(decl.id)), endpoint, probe) then Some(CannotPrepare)
    else None
  }

  /** The registry once the prepared transport b was offered to it. */
  function Offered(t: Table, b: Binding): Table {
    if KeyOf(b) in t.live then t.(closed := t.closed + multiset{b}) else t.(live := t.live[KeyOf(b) := b])
  }

  function Unregistered(t: Table, k: Key): Table {
    if k in t.live then Table(t.live - {k}, t.closed + multiset{t.live[k]}) else t
  }

  ghost function OwnedBy(live: map<Key, Binding>, owner: string): set<Binding> {
    set k | k in live && k.owner == owner :: live[k]
  }

  ghost function OwnerRemoved(t: Table, owner: string): Table {
    Table(map k | k in t.live && k.owner != owner :: t.live[k], t.closed + multiset(OwnedBy(t.live, owner)))
  }

  class Registry {
    var transports: map<Key, Binding>
    ghost var closed: multiset<Binding>

    constructor ()
      ensures View() == Table(map[], multiset{})
    {
      transports, closed := map[], multiset{};
    }

    ghost function View(): Table
      reads this
    {
      Table(transports, closed)
    }

    ghost predicate Valid()
      reads this
    {
      Keyed(transports)
    }

    method Close(b: Binding)
      modifies this`closed
      ensures View() == old(View()).(closed := old(closed) + multiset{b})
    {
      closed := closed + multiset{b};
    }

    method Register(owner: string, declaration: TransportDecl, endpoint: Instance, probe: Probe)
      returns (error: Option<Error>, ghost made: Option<Binding>)
      requires Valid()
      modifies this
      ensures Valid()
      ensures made.None? <==> Unprepared(owner, declaration, endpoint, probe).Some?
      ensures made.None? ==> error == Unprepared(owner, declaration, endpoint, probe) && View() == old(View())
      ensures made.Some? ==>
                && fresh(made.value)
                && IsPrepared(made.value, Trim(owner), declaration.(id := Trim(declaration.id)), endpoint, probe)
                && View() == Offered(old(View()), made.value)
                && error == if KeyOf(made.value) in old(transports) then Some(AlreadyRegistered) else None
    {
      made := None;
      var owner, decl := Trim(owner), declaration.(id := Trim(declaration.id));
      if owner == "" {
        return Some(OwnerRequired), None;
      }
      if decl.id == "" {
        return Some(IdRequired), None;
      }
      if !CanPrepare(decl, endpoint, probe) {
        return Some(CannotPrepare), None;
      }
      var b := new Binding(owner, decl, endpoint, probe);
      made := Some(b);
      var k := Key(owner, decl.id);
      if k in transports {
        Close(b);
        return Some(AlreadyRegistered), made;
      }
      transports := transports[k := b];
      error := None;
    }

    method Unregister(owner: string, id: string) returns (error: Option<Error>)
      requires Valid()
      modifies this
      ensures Valid()
      ensures View() == Unregistered(old(View()), Key(owner, Trim(id)))
      ensures error == if Key(owner, Trim(id)) in old(transports) then None else Some(NotRegistered)
    {
      var k := Key(owner, Trim(id));
      if k !in transports {
        return Some(NotRegistered);
      }
      var b := transports[k];
      transports := transports - {k};
      Close(b);
      error := None;
    }

    method Lookup(owner: string, id: string) returns (b: Option<Binding>)
      ensures b == if Key(owner, id) in transports then Some(transports[Key(owner, id)]) else None
    {
      b := if Key(owner, id) in transports then Some(transports[Key(owner, id)]) else None;
    }

    method RemoveOwner(owner: string)
      requires Valid()
      modifies this
      ensures Valid()
      ensures View() == OwnerRemoved(old(View()), owner)
    {
      ghost var live := transports;
      var left := transports.Keys;
      var removed: set<Binding> := {};
      while left != {}
        invariant left <= live.Keys && closed == old(closed)
        invariant forall k :: k in transports <==> k in live && (k in left || k.owner != owner)
        invariant forall k :: k in transports ==> transports[k] == live[k]
        invariant removed == set k | k in live && k !in left && k.owner == owner :: live[k]
      {
        var k :| k in left;
        left := left - {k};
        if k.owner == owner {
          removed := removed + {transports[k]};
          transports := transports - {k};
        }
      }
      assert removed == OwnedBy(live, owner);
      CloseAll(removed);
    }

    method CloseAll(removed: set<Binding>)
      modifies this`closed
      ensures View() == old(View()).(closed := old(closed) + multiset(removed))
    {
      var left := removed;
      while left != {}
        invariant left <= removed && transports == old(transports)
        invariant closed == old(closed) + multiset(removed - left)
      {
        var b :| b in left;
        assert removed - (left - {b}) == (removed - left) + {b};
        left := left - {b};
        Close(b);
      }
      assert removed - left == removed;
    }
  }
}

// Route declarations, the policy that admits them, and what it keeps true of the route tables.
module Routing {
  import opened Text
  import opened Services
  import opened PathPatterns
  import Transports
  import Sockets

  datatype RouteKey = RouteKey(owner: string, id: string)

  datatype HttpKey = HttpKey(pattern: string, verb: string)

  datatype Binding = Binding(owner: string, route: RouteDecl, transport: Transports.Binding)

  datatype Error =
    | OwnerRequired | IdRequired | TransportRequired | ExactlyOneKind | NoTransport | DuplicateId
    | InvalidPattern | WrongTransport | LocationNeedsPrefix | PatternReserved(owner: string)
    | StaticMethod | StaticDirectory | StaticFile
    | OwnerConflict | StaticConflict | MethodConflict
    | NotASocketTransport | NoSocketRegistry | Namespace(reason: Sockets.Error)
    | NotRegistered

  /** The tables of the route registry, with the bridge's when it has one. */
  datatype Table = Table(
    byID: map<RouteKey, Binding>,
    http: map<HttpKey, Binding>,
    reserved: map<string, string>,
    sockets: Option<Sockets.Table>)

  function RouteKeyOf(b: Binding): RouteKey {
    RouteKey(b.owner, b.route.id)
  }

  predicate IsHttp(b: Binding) {
    b.route.http.Some?
  }

  function HttpKeyOf(b: Binding): HttpKey
    requires IsHttp(b)
  {
    HttpKey(b.route.http.value.pattern, NormalizeMethod(b.route.http.value.verb))
  }

  predicate IsStatic(b: Binding) {
    b.transport.decl.kind.Static?
  }

  predicate MethodsConflict(a: string, b: string) {
    a == b || a == "" || b == ""
  }

  function NamespaceOwner(t: Table, namespace: string): Sockets.Owner {
    if t.sockets.Some? then Sockets.OwnerOf(t.sockets.value, namespace) else Sockets.NO_OWNER
  }

  function Normalized(http: Option<HTTPRoute>): Option<HTTPRoute> {
    match http
    case None => None
    case Some(h) => Some(h.(verb := NormalizeMethod(h.verb)))
  }

  /** The declaration as it is stored: ids trimmed and the method normalized. */
  function Stored(d: RouteDecl): RouteDecl {
    RouteDecl(Trim(d.id), Trim(d.transportID), Normalized(d.http), d.socket)
  }

  /** What is wrong with a declaration before the tables are consulted. */
  function Malformed(owner: string, d: RouteDecl): Option<Error> {
    if Trim(owner) == "" then Some(OwnerRequired)
    else if Trim(d.id) == "" then Some(IdRequired)
    else if Trim(d.transportID) == "" then Some(TransportRequired)
    else if d.http.None? == d.socket.None? then Some(ExactlyOneKind)
    else None
  }

  /** What is wrong with one HTTP route by itself. */
  function HttpMalformed(reserved: map<string, string>, b: Binding): Option<Error>
    requires IsHttp(b)
  {
    if DeclarationMalformed(reserved, b).Some? then DeclarationMalformed(reserved, b) else StaticMalformed(b)
  }

  function DeclarationMalformed(reserved: map<string, string>, b: Binding): Option<Error>
    requires IsHttp(b)
  {
    var h := b.route.http.value;
    if !ValidPath(h.pattern) then Some(InvalidPattern)
    else if b.transport.decl.kind.SocketIO? || b.transport.decl.kind.Unsupported? then Some(WrongTransport)
    else if h.rewrite.Some? && h.rewrite.value.location && !h.rewrite.value.prefix then Some(LocationNeedsPrefix)
    else if h.pattern in reserved then Some(PatternReserved(reserved[h.pattern]))
    else None
  }

  function StaticMalformed(b: Binding): Option<Error>
    requires IsHttp(b)
  {
    var h := b.route.http.value;
    if !IsStatic(b) then None
    else if h.verb != "" && h.verb != "GET" then Some(StaticMethod)
    else if b.transport.directory && !HasSuffix(h.pattern, "/") then Some(StaticDirectory)
    else if !b.transport.directory && HasSuffix(h.pattern, "/") then Some(StaticFile)
    else None
  }

  /** How b collides with the route that is registered at key. */
  function Collision(key: HttpKey, current: Binding, b: Binding): Option<Error>
    requires IsHttp(b)
  {
    if key.pattern != HttpKeyOf(b).pattern then None
    else if current.owner != b.owner then Some(OwnerConflict)
    else if IsStatic(current) || IsStatic(b) then Some(StaticConflict)
    else if MethodsConflict(key.verb, HttpKeyOf(b).verb) then Some(MethodConflict)
    else None
  }

  ghost predicate Collides(http: map<HttpKey, Binding>, b: Binding, e: Error)
    requires IsHttp(b)
  {
    exists key :: key in http && Collision(key, http[key], b) == Some(e)
  }

  ghost function Conflict(http: map<HttpKey, Binding>, b: Binding): Option<Error>
    requires IsHttp(b)
  {
    if Collides(http, b, OwnerConflict) then Some(OwnerConflict)
    else if Collides(http, b, StaticConflict) then Some(StaticConflict)
    else if Collides(http, b, MethodConflict) then Some(MethodConflict)
    else None
  }

  /** Two routes may share a pattern only if one service answers for both, neither is static, and each names a
      method of its own. */
  ghost predicate Shareable(http: map<HttpKey, Binding>) {
    forall g, h :: g in http && h in http && g != h && g.pattern == h.pattern ==>
      http[g].owner == http[h].owner && !IsStatic(http[g]) && !IsStatic(http[h]) && g.verb != "" && h.verb != ""
  }

  ghost predicate NoneReserved(http: map<HttpKey, Binding>, reserved: map<string, string>) {
    forall h :: h in http ==> h.pattern !in reserved
  }

  /** Which collision is met first cannot matter: in an admissible table all collisions of a route are of one kind. */
  lemma OneKindOfCollision(http: map<HttpKey, Binding>, b: Binding, e: Error)
    requires Shareable(http) && IsHttp(b) && Collides(http, b, e)
    ensures Conflict(http, b) == Some(e)
  {
    var key :| key in http && Collision(key, http[key], b) == Some(e);
    forall other | other in http && Collision(other, http[other], b).Some?
      ensures Collision(other, http[other], b) == Some(e)
    {
    }
  }

  lemma NoConflictIff(http: map<HttpKey, Binding>, b: Binding)
    requires IsHttp(b)
    ensures Conflict(http, b).None? <==> forall key :: key in http ==> Collision(key, http[key], b).None?
  {
    if key :| key in http && Collision(key, http[key], b).Some? {
      assert Collides(http, b, Collision(key, http[key], b).value);
    }
  }

  type Live = map<Transports.Key, Transports.Binding>

  /** The binding a declaration becomes, once its transport is found. */
  function Bound(live: Live, owner: string, d: RouteDecl): Binding
    requires Transports.Key(Trim(owner), Trim(d.transportID)) in live
  {
    Binding(Trim(owner), Stored(d), live[Transports.Key(Trim(owner), Trim(d.transportID))])
  }

  function SocketRefusal(sockets: Option<Sockets.Table>, b: Binding, creatable: bool): Option<Error>
    requires b.route.socket.Some?
  {
    if !b.transport.decl.kind.SocketIO? then Some(NotASocketTransport)
    else if sockets.None? then Some(NoSocketRegistry)
    else
      match Sockets.Refusal(sockets.value, b.route.socket.value, b.transport.endpoint, creatable)
      case None => None
      case Some(reason) => Some(Namespace(reason))
  }

  /** What the tables say against a binding. */
  ghost function BoundRefusal(t: Table, b: Binding, creatable: bool): Option<Error>
    requires IsHttp(b) || b.route.socket.Some?
  {
    if IsHttp(b) then
      if HttpMalformed(t.reserved, b).Some? then HttpMalformed(t.reserved, b) else Conflict(t.http, b)
    else SocketRefusal(t.sockets, b, creatable)
  }

  ghost function Refusal(t: Table, live: Live, owner: string, d: RouteDecl, creatable: bool): Option<Error> {
    if Malformed(owner, d).Some? then Malformed(owner, d)
    else if Transports.Key(Trim(owner), Trim(d.transportID)) !in live then Some(NoTransport)
    else if RouteKey(Trim(owner), Trim(d.id)) in t.byID then Some(DuplicateId)
    else BoundRefusal(t, Bound(live, owner, d), creatable)
  }

  /** The tables with one more binding. */
  function Added(t: Table, b: Binding): Table {
    if IsHttp(b) then t.(byID := t.byID[RouteKeyOf(b) := b], http := t.http[HttpKeyOf(b) := b])
    else if b.route.socket.Some? && t.sockets.Some? then
      t.(byID := t.byID[RouteKeyOf(b) := b],
         sockets := Some(Sockets.Taken(t.sockets.value, b.route.socket.value,
                                       Sockets.Owner(b.owner, b.transport.endpoint, b.route.id))))
    else t
  }

  ghost function Registered(t: Table, live: Live, owner: string, d: RouteDecl, creatable: bool): Table {
    if Refusal(t, live, owner, d, creatable).Some? then t else Added(t, Bound(live, owner, d))
  }

  /** removeLocked. */
  function Removed(t: Table, k: RouteKey): Table
    requires k in t.byID
  {
    var b := t.byID[k];
    var t := t.(byID := t.byID - {k});
    if IsHttp(b) then t.(http := t.http - {HttpKeyOf(b)})
    else if b.route.socket.Some? && t.sockets.Some? then
      t.(sockets := Some(Sockets.Released(t.sockets.value, b.owner, b.route.socket.value)))
    else t
  }

  function Unregistered(t: Table, owner: string, id: string): Table {
    if RouteKey(owner, Trim(id)) in t.byID then Removed(t, RouteKey(owner, Trim(id))) else t
  }

  /** Everything of one service taken out. */
  ghost function OwnerRemoved(t: Table, owner: string): Table {
    Table(map k | k in t.byID && t.byID[k].owner != owner :: t.byID[k],
          map h | h in t.http && t.http[h].owner != owner :: t.http[h],
          t.reserved,
          match t.sockets
          case None => None
          case Some(s) => Some(Sockets.ServiceReleased(s, owner)))
  }

  datatype ReserveError = InvalidReserved | ReservedBy(owner: string) | OwnedBy(owner: string)

  ghost predicate Claimed(http: map<HttpKey, Binding>, pattern: string) {
    exists h :: h in http && h.pattern == pattern
  }

  /** Why a pattern cannot be set aside for owner. All routes at a pattern are of one owner, so any will do. */
  ghost function PatternRefusal(t: Table, owner: string, pattern: string): Option<ReserveError> {
    if !ValidPath(pattern) then Some(InvalidReserved)
    else if pattern in t.reserved && t.reserved[pattern] != owner then Some(ReservedBy(t.reserved[pattern]))
    else if Claimed(t.http, pattern) then
      var h :| h in t.http && h.pattern == pattern;
      Some(OwnedBy(t.http[h].owner))
    else None
  }

  ghost predicate Reservable(t: Table, owner: string, pattern: string) {
    PatternRefusal(t, owner, pattern).None?
  }

  /** The reason against the first of the patterns that cannot be set aside. */
  ghost function ReserveRefusal(t: Table, owner: string, patterns: seq<string>): Option<ReserveError> {
    if patterns == [] then None
    else if !Reservable(t, owner, patterns[0]) then PatternRefusal(t, owner, patterns[0])
    else ReserveRefusal(t, owner, patterns[1..])
  }

  lemma AllReservedNext(reserved: map<string, string>, owner: string, patterns: seq<string>, i: nat)
    requires i < |patterns|
    ensures AllReserved(reserved, owner, patterns[..i + 1])
            == AllReserved(reserved, owner, patterns[..i])[patterns[i] := owner]
  {
    assert patterns[..i + 1] == patterns[..i] + [patterns[i]];
  }

  lemma {:induction false} FirstRefusal(t: Table, owner: string, patterns: seq<string>, n: nat)
    requires n <= |patterns| && forall i :: 0 <= i < n ==> Reservable(t, owner, patterns[i])
    requires n < |patterns| ==> !Reservable(t, owner, patterns[n])
    ensures ReserveRefusal(t, owner, patterns) == if n < |patterns| then PatternRefusal(t, owner, patterns[n]) else None
  {
    if n > 0 {
      FirstRefusal(t, owner, patterns[1..], n - 1);
    }
  }

  function AllReserved(reserved: map<string, string>, owner: string, patterns: seq<string>): map<string, string> {
    reserved + map p | p in patterns :: owner
  }

  ghost function Reserved(t: Table, owner: string, patterns: seq<string>): Table {
    if ReserveRefusal(t, owner, patterns).None?
    then t.(reserved := AllReserved(t.reserved, owner, patterns)) else t
  }

  // The invariant.

  /** Both tables of HTTP routes hold the same bindings, one to one. */
  ghost predicate TablesAgree(byID: map<RouteKey, Binding>, http: map<HttpKey, Binding>) {
    && (forall k :: k in byID ==> RouteKeyOf(byID[k]) == k)
    && (forall k :: k in byID && IsHttp(byID[k]) ==> HttpKeyOf(byID[k]) in http && http[HttpKeyOf(byID[k])] == byID[k])
    && (forall h :: h in http ==> IsHttp(http[h]) && HttpKeyOf(http[h]) == h
                                  && RouteKeyOf(http[h]) in byID && byID[RouteKeyOf(http[h])] == http[h])
  }

  /** A namespace's owner is on record with exactly the route that claims the namespace. */
  ghost predicate NamespacesAgree(t: Table) {
    && (forall k :: k in t.byID && !IsHttp(t.byID[k]) ==>
          && t.byID[k].route.socket.Some?
          && NamespaceOwner(t, t.byID[k].route.socket.value)
              == Sockets.Owner(k.owner, t.byID[k].transport.endpoint, k.id))
    && (forall n :: NamespaceOwner(t, n).service != "" ==>
          var o := NamespaceOwner(t, n);
          && RouteKey(o.service, o.routeID) in t.byID
          && !IsHttp(t.byID[RouteKey(o.service, o.routeID)])
          && t.byID[RouteKey(o.service, o.routeID)].route.socket == Some(n))
  }

  ghost predicate OwnersNamed(byID: map<RouteKey, Binding>) {
    forall k :: k in byID ==> k.owner != ""
  }

  /** A namespace without a service has no endpoint and no route, either. */
  ghost predicate UnownedIsBlank(t: Table) {
    forall n :: NamespaceOwner(t, n).service == "" ==> NamespaceOwner(t, n) == Sockets.NO_OWNER
  }

  ghost predicate Valid(t: Table) {
    && TablesAgree(t.byID, t.http)
    && NamespacesAgree(t)
    && OwnersNamed(t.byID)
    && UnownedIsBlank(t)
    && Shareable(t.http)
    && NoneReserved(t.http, t.reserved)
  }

  // One more binding.

  /** What Refusal leaves open to a binding. */
  ghost predicate Admissible(t: Table, b: Binding) {
    && b.owner != "" && RouteKeyOf(b) !in t.byID
    && (IsHttp(b) ==>
          && HttpKeyOf(b).pattern !in t.reserved
          && forall key :: key in t.http ==> Collision(key, t.http[key], b).None?)
    && (!IsHttp(b) ==>
          && b.route.socket.Some? && t.sockets.Some?
          && NamespaceOwner(t, b.route.socket.value).service == "")
  }

  lemma FreeNamespace(t: Table, b: Binding, creatable: bool)
    requires b.route.socket.Some? && SocketRefusal(t.sockets, b, creatable).None?
    ensures t.sockets.Some? && NamespaceOwner(t, b.route.socket.value).service == ""
  {
  }

  lemma AcceptedIsAdmissible(t: Table, live: Live, owner: string, d: RouteDecl, creatable: bool)
    requires Refusal(t, live, owner, d, creatable).None?
    ensures Transports.Key(Trim(owner), Trim(d.transportID)) in live
    ensures Admissible(t, Bound(live, owner, d))
  {
    var b := Bound(live, owner, d);
    if IsHttp(b) {
      NoConflictIff(t.http, b);
    } else {
      FreeNamespace(t, b, creatable);
    }
  }

  lemma AddedTablesAgree(t: Table, b: Binding)
    requires TablesAgree(t.byID, t.http) && Admissible(t, b)
    ensures TablesAgree(Added(t, b).byID, Added(t, b).http)
  {
    if IsHttp(b) {
      FreshHttpKey(t, b);
    }
  }

  lemma FreshHttpKey(t: Table, b: Binding)
    requires Admissible(t, b) && IsHttp(b)
    ensures HttpKeyOf(b) !in t.http
  {
    var h := HttpKeyOf(b);
    assert h in t.http ==> Collision(h, t.http[h], b).Some?;
  }

  lemma AddedNamespace(t: Table, b: Binding, n: string)
    requires Admissible(t, b)
    ensures NamespaceOwner(Added(t, b), n) ==
            if !IsHttp(b) && b.route.socket == Some(n) then Sockets.Owner(b.owner, b.transport.endpoint, b.route.id)
            else NamespaceOwner(t, n)
  {
  }

  lemma AddedNamespacesAgree(t: Table, b: Binding)
    requires NamespacesAgree(t) && UnownedIsBlank(t) && OwnersNamed(t.byID) && Admissible(t, b)
    ensures NamespacesAgree(Added(t, b)) && UnownedIsBlank(Added(t, b))
  {
    forall n ensures NamespaceOwner(Added(t, b), n) ==
                     if !IsHttp(b)
                         && b.route.socket == Some(n) then Sockets.Owner(b.owner, b.transport.endpoint, b.route.id)
                     else NamespaceOwner(t, n)
    {
      AddedNamespace(t, b, n);
    }
    assert Added(t, b).byID == t.byID[RouteKeyOf(b) := b];
  }

  lemma AddedShareable(t: Table, b: Binding)
    requires Shareable(t.http) && NoneReserved(t.http, t.reserved) && Admissible(t, b)
    ensures Shareable(Added(t, b).http) && NoneReserved(Added(t, b).http, t.reserved)
  {
    if IsHttp(b) {
      forall g | g in t.http && g.pattern == HttpKeyOf(b).pattern
        ensures t.http[g].owner == b.owner && !IsStatic(t.http[g]) && !IsStatic(b)
                && g.verb != "" && HttpKeyOf(b).verb != ""
      {
        assert Collision(g, t.http[g], b).None?;
      }
    }
  }

  lemma AddedKeeps(t: Table, b: Binding)
    requires Valid(t) && Admissible(t, b)
    ensures Valid(Added(t, b))
  {
    AddedTablesAgree(t, b);
    AddedNamespacesAgree(t, b);
    AddedShareable(t, b);
  }

  // One binding fewer.

  lemma RemovedNamespace(t: Table, k: RouteKey, n: string)
    requires Valid(t) && k in t.byID
    ensures NamespaceOwner(Removed(t, k), n) ==
            if !IsHttp(t.byID[k]) && t.byID[k].route.socket == Some(n) then Sockets.NO_OWNER else NamespaceOwner(t, n)
  {
  }

  lemma DropHttp(byID: map<RouteKey, Binding>, http: map<HttpKey, Binding>, k: RouteKey)
    requires TablesAgree(byID, http) && k in byID && IsHttp(byID[k])
    ensures TablesAgree(byID - {k}, http - {HttpKeyOf(byID[k])})
  {
    var fewer := http - {HttpKeyOf(byID[k])};
    forall j | j in byID - {k} && IsHttp(byID[j]) ensures HttpKeyOf(byID[j]) in fewer {
      assert http[HttpKeyOf(byID[j])] == byID[j];
    }
    forall h | h in fewer ensures RouteKeyOf(fewer[h]) != k {
      assert http[h] == fewer[h];
    }
  }

  lemma DropSocket(byID: map<RouteKey, Binding>, http: map<HttpKey, Binding>, k: RouteKey)
    requires TablesAgree(byID, http) && k in byID && !IsHttp(byID[k])
    ensures TablesAgree(byID - {k}, http)
  {
  }

  lemma RemovedTablesAgree(t: Table, k: RouteKey)
    requires TablesAgree(t.byID, t.http) && k in t.byID
    ensures TablesAgree(Removed(t, k).byID, Removed(t, k).http)
    ensures Removed(t, k).http.Keys <= t.http.Keys && forall h :: h in Removed(t, k).http ==>
            Removed(t, k).http[h] == t.http[h]
  {
    if IsHttp(t.byID[k]) {
      DropHttp(t.byID, t.http, k);
    } else {
      DropSocket(t.byID, t.http, k);
    }
  }

  lemma RemovedNamespacesAgree(t: Table, k: RouteKey)
    requires Valid(t) && k in t.byID
    ensures NamespacesAgree(Removed(t, k)) && UnownedIsBlank(Removed(t, k))
  {
    forall n ensures NamespaceOwner(Removed(t, k), n) ==
                     if !IsHttp(t.byID[k])
                         && t.byID[k].route.socket == Some(n) then Sockets.NO_OWNER else NamespaceOwner(t, n)
    {
      RemovedNamespace(t, k, n);
    }
    assert Removed(t, k).byID == t.byID - {k};
  }

  lemma FewerShareable(http: map<HttpKey, Binding>, fewer: map<HttpKey, Binding>, reserved: map<string, string>)
    requires Shareable(http) && NoneReserved(http, reserved)
    requires fewer.Keys <= http.Keys && forall h :: h in fewer ==> fewer[h] == http[h]
    ensures Shareable(fewer) && NoneReserved(fewer, reserved)
  {
  }

  lemma RemovedKeeps(t: Table, k: RouteKey)
    requires Valid(t) && k in t.byID
    ensures Valid(Removed(t, k))
  {
    RemovedTablesAgree(t, k);
    RemovedNamespacesAgree(t, k);
    FewerShareable(t.http, Removed(t, k).http, t.reserved);
  }

  lemma OwnerRemovedNamespace(t: Table, owner: string, n: string)
    ensures NamespaceOwner(OwnerRemoved(t, owner), n) ==
            if NamespaceOwner(t, n).service == owner then Sockets.NO_OWNER else NamespaceOwner(t, n)
  {
  }

  lemma OwnerRemovedTablesAgree(t: Table, owner: string)
    requires TablesAgree(t.byID, t.http)
    ensures TablesAgree(OwnerRemoved(t, owner).byID, OwnerRemoved(t, owner).http)
  {
  }

  lemma OwnerRemovedNamespacesAgree(t: Table, owner: string)
    requires Valid(t)
    ensures NamespacesAgree(OwnerRemoved(t, owner)) && UnownedIsBlank(OwnerRemoved(t, owner))
  {
    forall n ensures NamespaceOwner(OwnerRemoved(t, owner), n) ==
                     if NamespaceOwner(t, n).service == owner then Sockets.NO_OWNER else NamespaceOwner(t, n)
    {
      OwnerRemovedNamespace(t, owner, n);
    }
  }

  lemma OwnerRemovedKeeps(t: Table, owner: string)
    requires Valid(t)
    ensures Valid(OwnerRemoved(t, owner))
  {
    OwnerRemovedTablesAgree(t, owner);
    OwnerRemovedNamespacesAgree(t, owner);
  }

  /** All of the patterns are set aside exactly when there is nothing against any of them. */
  lemma {:induction false} NoneRefusedIff(t: Table, owner: string, patterns: seq<string>)
    ensures ReserveRefusal(t, owner, patterns).None? <==> forall p :: p in patterns ==> Reservable(t, owner, p)
  {
    if patterns != [] {
      NoneRefusedIff(t, owner, patterns[1..]);
      assert forall p :: p in patterns <==> p == patterns[0] || p in patterns[1..];
    }
  }

  lemma ReservedKeeps(t: Table, owner: string, patterns: seq<string>)
    requires Valid(t)
    ensures Valid(Reserved(t, owner, patterns))
  {
    if ReserveRefusal(t, owner, patterns).None? {
      NoneRefusedIff(t, owner, patterns);
      MoreReserved(t, AllReserved(t.reserved, owner, patterns));
    }
  }

  lemma MoreReserved(t: Table, reserved: map<string, string>)
    requires Valid(t) && forall p :: p in reserved && p !in t.reserved ==> !Claimed(t.http, p)
    ensures Valid(t.(reserved := reserved))
  {
    var u := t.(reserved := reserved);
    assert forall n :: NamespaceOwner(u, n) == NamespaceOwner(t, n);
    assert NamespacesAgree(u);
    forall h | h in u.http ensures h.pattern !in u.reserved {
      assert Claimed(t.http, h.pattern);
    }
  }

  lemma RegisteredKeeps(t: Table, live: Live, owner: string, d: RouteDecl, creatable: bool)
    requires Valid(t)
    ensures Valid(Registered(t, live, owner, d, creatable))
  {
    if Refusal(t, live, owner, d, creatable).None? {
      AcceptedIsAdmissible(t, live, owner, d, creatable);
      AddedKeeps(t, Bound(live, owner, d));
    }
  }

  // What the operations undo.

  /** The same tables, up to namespaces that nobody owns being on record or not. */
  ghost predicate Same(t: Table, u: Table) {
    t.byID == u.byID && t.http == u.http && t.reserved == u.reserved && t.sockets.None? == u.sockets.None?
    && forall n :: NamespaceOwner(t, n) == NamespaceOwner(u, n)
  }

  /** Unregistering a route that was just registered restores the tables. */
  lemma UnregisterUndoesRegister(t: Table, live: Live, owner: string, d: RouteDecl, creatable: bool)
    requires Valid(t) && Refusal(t, live, owner, d, creatable).None?
    ensures Same(Unregistered(Registered(t, live, owner, d, creatable), Trim(owner), d.id), t)
  {
    AcceptedIsAdmissible(t, live, owner, d, creatable);
    RemovedUndoesAdded(t, Bound(live, owner, d));
  }

  lemma RemovedUndoesAdded(t: Table, b: Binding)
    requires Valid(t) && Admissible(t, b)
    ensures RouteKeyOf(b) in Added(t, b).byID
    ensures Same(Removed(Added(t, b), RouteKeyOf(b)), t)
  {
    var u := Added(t, b);
    assert u.byID == t.byID[RouteKeyOf(b) := b];
    AddedKeeps(t, b);
    forall n ensures NamespaceOwner(Removed(u, RouteKeyOf(b)), n) == NamespaceOwner(t, n) {
      AddedNamespace(t, b, n);
      RemovedNamespace(u, RouteKeyOf(b), n);
    }
    RestoredTables(t, b);
  }

  lemma RestoredTables(t: Table, b: Binding)
    requires Admissible(t, b) && RouteKeyOf(b) in Added(t, b).byID
    ensures Removed(Added(t, b), RouteKeyOf(b)).byID == t.byID
    ensures Removed(Added(t, b), RouteKeyOf(b)).http == t.http
  {
    if IsHttp(b) {
      FreshHttpKey(t, b);
      assert t.http[HttpKeyOf(b) := b] - {HttpKeyOf(b)} == t.http;
    }
    assert t.byID[RouteKeyOf(b) := b] - {RouteKeyOf(b)} == t.byID;
  }

  /** Exactly one Socket.IO route claims each owned namespace. */
  lemma OneRoutePerNamespace(t: Table, n: string, service: string)
    requires Valid(t) && service != ""
    ensures NamespaceOwner(t, n).service == service <==>
            exists k :: k in t.byID && k.owner == service && t.byID[k].route.http.None?
                && t.byID[k].route.socket == Some(n)
    ensures forall k, l :: && k in t.byID && l in t.byID && t.byID[k].route.http.None? && t.byID[l].route.http.None?
                           && t.byID[k].route.socket == t.byID[l].route.socket
                           ==> k == l
  {
    if NamespaceOwner(t, n).service == service {
      var k := RouteKey(service, NamespaceOwner(t, n).routeID);
      assert k in t.byID;
    }
  }
}

// The route registry, and the choice of the route for a request.
module RouteRegistry {
  import opened Text
  import opened Services
  import opened PathPatterns
  import opened Routing
  import Transports
  import Sockets
  import GroupIndex

  datatype Match = NoRoute | Chosen(route: Binding) | NotAllowed(allowed: seq<string>)

  function RootModeOf(b: Binding): RootMode {
    if b.transport.decl.kind.Proxy? || (b.transport.decl.kind.Static? && b.transport.directory)
    then RootSubtree else RootExact
  }

  predicate Covers(http: map<HttpKey, Binding>, h: HttpKey, path: string)
    requires h in http
  {
    MatchPath(path, h.pattern, RootModeOf(http[h]))
  }

  /** The pattern is one that covers the path, and no longer pattern does. */
  ghost predicate IsLongest(http: map<HttpKey, Binding>, path: string, pattern: string) {
    && (exists h :: h in http && h.pattern == pattern && Covers(http, h, path))
    && forall h :: h in http && Covers(http, h, path) ==> |h.pattern| <= |pattern|
  }

  ghost function VerbsAt(http: map<HttpKey, Binding>, pattern: string): set<string> {
    set h | h in http && h.pattern == pattern :: h.verb
  }

  ghost predicate IsAnswerAt(http: map<HttpKey, Binding>, pattern: string, verb: string, m: Match) {
    if HttpKey(pattern, verb) in http then m == Chosen(http[HttpKey(pattern, verb)])
    else if HttpKey(pattern, "") in http then m == Chosen(http[HttpKey(pattern, "")])
    else
      && m.NotAllowed? && GroupIndex.StrictlySorted(m.allowed)
      && forall v :: v in m.allowed <==> v in VerbsAt(http, pattern)
  }

  /** What the answer to a request is, without a word about how the table is visited. */
  ghost predicate IsAnswer(http: map<HttpKey, Binding>, verb: string, path: string, m: Match) {
    if exists h :: h in http && Covers(http, h, path)
    then exists pattern :: IsLongest(http, path, pattern) && IsAnswerAt(http, pattern, NormalizeMethod(verb), m)
    else m == NoRoute
  }

  lemma LongestIsUnique(http: map<HttpKey, Binding>, path: string, p: string, q: string)
    requires IsLongest(http, path, p) && IsLongest(http, path, q)
    ensures p == q
  {
    var g :| g in http && g.pattern == p && Covers(http, g, path);
    var h :| h in http && h.pattern == q && Covers(http, h, path);
    MatchesOfOneLength(path, p, q, RootModeOf(http[g]), RootModeOf(http[h]));
  }

  /** There is one answer only, so the order in which the table is visited cannot matter. */
  lemma AnswerIsUnique(http: map<HttpKey, Binding>, verb: string, path: string, m: Match, n: Match)
    requires IsAnswer(http, verb, path, m) && IsAnswer(http, verb, path, n)
    ensures m == n
  {
    if exists h :: h in http && Covers(http, h, path) {
      var p :| IsLongest(http, path, p) && IsAnswerAt(http, p, NormalizeMethod(verb), m);
      var q :| IsLongest(http, path, q) && IsAnswerAt(http, q, NormalizeMethod(verb), n);
      LongestIsUnique(http, path, p, q);
      AnswerAtIsUnique(http, p, NormalizeMethod(verb), m, n);
    }
  }

  lemma AnswerAtIsUnique(http: map<HttpKey, Binding>, pattern: string, verb: string, m: Match, n: Match)
    requires IsAnswerAt(http, pattern, verb, m) && IsAnswerAt(http, pattern, verb, n)
    ensures m == n
  {
    if m.NotAllowed? && n.NotAllowed? {
      GroupIndex.SortedIsUnique(m.allowed, n.allowed);
    }
  }

  /** In an admissible table a route for every method is alone at its pattern, and a service that answers at a
      pattern is the only one that does. */
  lemma OneServiceAnswers(http: map<HttpKey, Binding>, pattern: string, verb: string, b: Binding, h: HttpKey)
    requires Shareable(http) && IsAnswerAt(http, pattern, verb, Chosen(b))
    requires h in http && h.pattern == pattern
    ensures http[h].owner == b.owner
    ensures HttpKey(pattern, verb) !in http ==> http[h] == b
  {
  }

  /** A chosen route covers the path itself, unless its pattern is "/" and it is one that stands for the root alone. */
  lemma ChosenCoversIff(http: map<HttpKey, Binding>, pattern: string, verb: string, path: string, b: Binding)
    requires IsLongest(http, path, pattern) && IsAnswerAt(http, pattern, verb, Chosen(b))
    ensures MatchPath(path, pattern, RootModeOf(b)) <==> pattern != "/" || path == "/" || RootModeOf(b) == RootSubtree
  {
    var h :| h in http && h.pattern == pattern && Covers(http, h, path);
    if pattern != "/" {
      MatchMeaning(path, pattern, RootModeOf(http[h]));
      MatchMeaning(path, pattern, RootModeOf(b));
    }
  }

  /** The exception occurs: beside a proxy for one method, a plain route for another method answers under "/" for
      every path, which it does not cover. */
  lemma RootRoutesMix(plain: Binding, proxy: Binding, path: string)
    requires plain.owner == proxy.owner && plain.transport.decl.kind.HTTP? && proxy.transport.decl.kind.Proxy?
    requires HasPrefix(path, "/") && path != "/"
    ensures var http := map[HttpKey("/", "GET") := plain, HttpKey("/", "POST") := proxy];
            && Shareable(http)
            && IsAnswer(http, "GET", path, Chosen(plain))
            && !MatchPath(path, "/", RootModeOf(plain))
  {
    var http := map[HttpKey("/", "GET") := plain, HttpKey("/", "POST") := proxy];
    assert Covers(http, HttpKey("/", "POST"), path);
    assert NormalizeMethod("GET") == "GET" by {
      TrimmedIff("GET");
    }
    assert IsLongest(http, path, "/") && IsAnswerAt(http, "/", "GET", Chosen(plain));
  }

  class Registry {
    var byID: map<RouteKey, Binding>
    var http: map<HttpKey, Binding>
    var reserved: map<string, string>
    const transports: Transports.Registry
    const socket: Sockets.Bridge?

    constructor (transports: Transports.Registry, socket: Sockets.Bridge?)
      requires socket != null ==> socket.View() == Sockets.Table(map[], {})
      ensures Valid() && this.transports == transports && this.socket == socket
      ensures byID == map[] && http == map[] && reserved == map[]
    {
      this.transports, this.socket := transports, socket;
      byID, http, reserved := map[], map[], map[];
    }

    ghost function View(): Table
      reads this, socket
    {
      Table(byID, http, reserved, if socket == null then None else Some(socket.View()))
    }

    ghost predicate Valid()
      reads this, socket
    {
      Routing.Valid(View())
    }

    method Reserve(owner: string, patterns: seq<string>) returns (error: Option<ReserveError>)
      requires Valid()
      modifies this`reserved
      ensures Valid()
      ensures error == ReserveRefusal(old(View()), owner, patterns)
      ensures View() == Reserved(old(View()), owner, patterns)
    {
      for i := 0 to |patterns|
        invariant View() == old(View())
        invariant forall j :: 0 <= j < i ==> Reservable(View(), owner, patterns[j])
      {
        error := CheckPattern(owner, patterns[i]);
        if error.Some? {
          FirstRefusal(View(), owner, patterns, i);
          return;
        }
      }
      FirstRefusal(View(), owner, patterns, |patterns|);
      ReservedKeeps(View(), owner, patterns);
      SetAside(owner, patterns);
      error := None;
    }

    method CheckPattern(owner: string, pattern: string) returns (error: Option<ReserveError>)
      requires Shareable(http)
      ensures error == PatternRefusal(View(), owner, pattern)
    {
      if !ValidPath(pattern) {
        return Some(InvalidReserved);
      }
      if pattern in reserved && reserved[pattern] != owner {
        return Some(ReservedBy(reserved[pattern]));
      }
      var left := http.Keys;
      while left != {}
        invariant left <= http.Keys
        invariant forall h :: h in http && h !in left ==> h.pattern != pattern
      {
        var key :| key in left;
        if key.pattern == pattern {
          assert Claimed(http, pattern);
          return Some(OwnedBy(http[key].owner));
        }
        left := left - {key};
      }
      error := None;
    }

    method SetAside(owner: string, patterns: seq<string>)
      modifies this`reserved
      ensures View() == old(View()).(reserved := AllReserved(old(reserved), owner, patterns))
    {
      for i := 0 to |patterns|
        invariant byID == old(byID) && http == old(http)
        invariant reserved == AllReserved(old(reserved), owner, patterns[..i])
      {
        AllReservedNext(old(reserved), owner, patterns, i);
        reserved := reserved[patterns[i] := owner];
      }
      assert patterns[..|patterns|] == patterns;
    }

    /** The parameter creatable says whether the Socket.IO server could create the route's namespace. */
    method Register(owner: string, declaration: RouteDecl, creatable: bool) returns (error: Option<Error>)
      requires Valid()
      modifies this, socket
      ensures Valid()
      ensures error == Refusal(old(View()), old(transports.transports), owner, declaration, creatable)
      ensures View() == Registered(old(View()), old(transports.transports), owner, declaration, creatable)
      ensures transports.transports == old(transports.transports)
    {
      RegisteredKeeps(View(), transports.transports, owner, declaration, creatable);
      var prepared;
      error, prepared := Prepare(owner, declaration);
      if error.Some? {
        return;
      }
      error := Bind(prepared.value, creatable);
    }

    method Bind(prepared: Binding, creatable: bool) returns (error: Option<Error>)
      requires Shareable(http) && (IsHttp(prepared) || prepared.route.socket.Some?)
      modifies this, socket
      ensures error == BoundRefusal(old(View()), InStoredForm(prepared), creatable)
      ensures View() == if error.Some? then old(View()) else Added(old(View()), InStoredForm(prepared))
    {
      var stored := prepared;
      if prepared.route.http.Some? {
        error, stored := RegisterHTTP(prepared);
      } else {
        error := RegisterSocket(prepared, creatable);
      }
      if error.None? {
        byID := byID[RouteKeyOf(stored) := stored];
      }
    }

    function InStoredForm(b: Binding): Binding {
      b.(route := b.route.(http := Normalized(b.route.http)))
    }

    method Prepare(owner: string, declaration: RouteDecl) returns (error: Option<Error>, prepared: Option<Binding>)
      ensures error == if Malformed(owner, declaration).Some? then Malformed(owner, declaration)
                       else if Transports.Key(Trim(owner), Trim(declaration.transportID)) !in transports.transports
                       then Some(NoTransport)
                       else if RouteKey(Trim(owner), Trim(declaration.id)) in byID then Some(DuplicateId)
                       else None
      ensures error.None? ==> prepared == Some(Binding(Trim(owner),
                RouteDecl(Trim(declaration.id), Trim(declaration.transportID), declaration.http, declaration.socket),
                transports.transports[Transports.Key(Trim(owner), Trim(declaration.transportID))]))
    {
      prepared := None;
      var owner, id, transportID := Trim(owner), Trim(declaration.id), Trim(declaration.transportID);
      if owner == "" {
        return Some(OwnerRequired), None;
      }
      if id == "" {
        return Some(IdRequired), None;
      }
      if transportID == "" {
        return Some(TransportRequired), None;
      }
      if declaration.http.None? == declaration.socket.None? {
        return Some(ExactlyOneKind), None;
      }
      var resolved := transports.Lookup(owner, transportID);
      if resolved.None? {
        return Some(NoTransport), None;
      }
      if RouteKey(owner, id) in byID {
        return Some(DuplicateId), None;
      }
      error := None;
      prepared := Some(Binding(owner, declaration.(id := id, transportID := transportID), resolved.value));
    }

    method RegisterSocket(prepared: Binding, creatable: bool) returns (error: Option<Error>)
      requires prepared.route.socket.Some?
      modifies socket
      ensures error == SocketRefusal(old(View()).sockets, prepared, creatable)
      ensures error.Some? ==> View() == old(View())
      ensures error.None? ==> && old(View()).sockets.Some?
                              && View() == old(View()).(sockets := Some(Sockets.Taken(old(View()).sockets.value,
                                   prepared.route.socket.value,
                                   Sockets.Owner(prepared.owner, prepared.transport.endpoint, prepared.route.id))))
    {
      if !prepared.transport.decl.kind.SocketIO? {
        return Some(NotASocketTransport);
      }
      if socket == null {
        return Some(NoSocketRegistry);
      }
      var refused := socket.Register(prepared.owner, prepared.route.id, prepared.route.socket.value,
                                     prepared.transport.endpoint, creatable);
      error := if refused.Some? then Some(Namespace(refused.value)) else None;
    }

    method RegisterHTTP(prepared: Binding) returns (error: Option<Error>, stored: Binding)
      requires Shareable(http) && IsHttp(prepared)
      modifies this`http
      ensures stored == InStoredForm(prepared)
      ensures error == if HttpMalformed(reserved, stored).Some? then HttpMalformed(reserved, stored)
                       else Conflict(old(http), stored)
      ensures http == if error.Some? then old(http) else old(http)[HttpKeyOf(stored) := stored]
    {
      stored := prepared.(route := prepared.route.(http := Normalized(prepared.route.http)));
      NormalizeIdempotent(prepared.route.http.value.verb);
      error := CheckDeclaration(stored);
      if error.Some? {
        return;
      }
      if stored.transport.decl.kind.Static? {
        error := CheckStatic(stored);
        if error.Some? {
          return;
        }
      }
      error := FindConflict(stored);
      if error.None? {
        http := http[HttpKeyOf(stored) := stored];
      }
    }

    /** The checks that any HTTP route has to pass. */
    method CheckDeclaration(b: Binding) returns (error: Option<Error>)
      requires IsHttp(b)
      ensures error == DeclarationMalformed(reserved, b)
    {
      var declaration := b.route.http.value;
      if !HasPrefix(declaration.pattern, "/") || HasSuffix(declaration.pattern, "/*") {
        return Some(InvalidPattern);
      }
      match b.transport.decl.kind {
        case HTTP | Static | Proxy =>
        case SocketIO | Unsupported(_) => return Some(WrongTransport);
      }
      match declaration.rewrite {
        case Some(rewrite) =>
          if rewrite.location && !rewrite.prefix {
            return Some(LocationNeedsPrefix);
          }
        case None =>
      }
      if declaration.pattern in reserved {
        return Some(PatternReserved(reserved[declaration.pattern]));
      }
      error := None;
    }

    /** The checks that a static route has to pass besides. */
    method CheckStatic(b: Binding) returns (error: Option<Error>)
      requires IsHttp(b) && IsStatic(b)
      ensures error == StaticMalformed(b)
    {
      var declaration := b.route.http.value;
      if declaration.verb != "" && declaration.verb != "GET" {
        return Some(StaticMethod);
      }
      if b.transport.directory && !HasSuffix(declaration.pattern, "/") {
        return Some(StaticDirectory);
      }
      if !b.transport.directory && HasSuffix(declaration.pattern, "/") {
        return Some(StaticFile);
      }
      error := None;
    }

    method FindConflict(b: Binding) returns (error: Option<Error>)
      requires Shareable(http) && IsHttp(b)
      ensures error == Conflict(http, b)
    {
      var left := http.Keys;
      while left != {}
        invariant left <= http.Keys
        invariant forall key :: key in http && key !in left ==> Collision(key, http[key], b).None?
      {
        var key :| key in left;
        left := left - {key};
        if key.pattern != b.route.http.value.pattern {
          continue;
        }
        error := CollisionWith(key, http[key], b);
        if error.Some? {
          assert Collides(http, b, error.value);
          OneKindOfCollision(http, b, error.value);
          return;
        }
      }
      NoConflictIff(http, b);
      error := None;
    }

    method CollisionWith(key: HttpKey, current: Binding, prepared: Binding) returns (error: Option<Error>)
      requires IsHttp(prepared) && key.pattern == HttpKeyOf(prepared).pattern
      ensures error == Collision(key, current, prepared)
    {
      if current.owner != prepared.owner {
        return Some(OwnerConflict);
      }
      if IsStatic(current) || IsStatic(prepared) {
        return Some(StaticConflict);
      }
      if MethodsConflict(key.verb, NormalizeMethod(prepared.route.http.value.verb)) {
        return Some(MethodConflict);
      }
      error := None;
    }

    method Unregister(owner: string, id: string) returns (error: Option<Error>)
      requires Valid()
      modifies this, socket
      ensures Valid()
      ensures error == if RouteKey(owner, Trim(id)) in old(byID) then None else Some(NotRegistered)
      ensures View() == Unregistered(old(View()), owner, id)
    {
      var k := RouteKey(owner, Trim(id));
      if k !in byID {
        return Some(NotRegistered);
      }
      RemovedKeeps(View(), k);
      RemoveLocked(k);
      error := None;
    }

    method RemoveLocked(k: RouteKey)
      requires k in byID
      modifies this, socket
      ensures View() == Removed(old(View()), k)
    {
      var current := byID[k];
      byID := byID - {k};
      if current.route.http.Some? {
        http := http - {HttpKeyOf(current)};
        return;
      }
      if current.route.socket.Some? && socket != null {
        socket.Unregister(current.owner, current.route.socket.value);
      }
    }

    /** The routes of owner that are visited last are still there; its namespaces are in part released. */
    ghost predicate PartlyRemoved(before: Table, now: Table, owner: string, left: set<RouteKey>) {
      && PartlyByID(before.byID, now.byID, owner, left)
      && PartlyHttp(before.http, now.http, owner, left)
      && now.reserved == before.reserved
      && now.sockets.None? == before.sockets.None?
      && (now.sockets.Some? ==> PartlyReleased(before.sockets.value, now.sockets.value, owner))
    }

    ghost predicate PartlyByID(before: map<RouteKey, Binding>, now: map<RouteKey, Binding>, owner: string,
                               left: set<RouteKey>) {
      && (forall k :: k in now <==> k in before && (k in left || before[k].owner != owner))
      && (forall k :: k in now ==> now[k] == before[k])
    }

    ghost predicate PartlyHttp(before: map<HttpKey, Binding>, now: map<HttpKey, Binding>, owner: string,
                               left: set<RouteKey>) {
      && (forall h :: h in now <==> h in before && (RouteKeyOf(before[h]) in left || before[h].owner != owner))
      && (forall h :: h in now ==> now[h] == before[h])
    }

    ghost predicate PartlyReleased(before: Sockets.Table, now: Sockets.Table, owner: string) {
      && now.installed == before.installed && now.owners.Keys == before.owners.Keys
      && forall n :: n in now.owners ==> now.owners[n] == before.owners[n]
                                         || (before.owners[n].service == owner && now.owners[n] == Sockets.NO_OWNER)
    }

    method RemoveOwner(owner: string)
      requires Valid()
      modifies this, socket
      ensures Valid()
      ensures View() == OwnerRemoved(old(View()), owner)
    {
      ghost var before := View();
      OwnerRemovedKeeps(before, owner);
      RemoveRoutes(owner);
      FinishesRemoval(before, View(), owner);
      if socket != null {
        socket.RemoveOwner(owner);
      }
    }

    method RemoveRoutes(owner: string)
      requires Valid()
      modifies this, socket
      ensures PartlyRemoved(old(View()), View(), owner, {})
    {
      ghost var before := View();
      var left := byID.Keys;
      while left != {}
        invariant left <= before.byID.Keys
        invariant PartlyRemoved(before, View(), owner, left)
      {
        var k :| k in left;
        VisitForRemoval(before, owner, left, k);
        left := left - {k};
      }
    }

    lemma FinishesRemoval(before: Table, now: Table, owner: string)
      requires PartlyRemoved(before, now, owner, {})
      ensures OwnerRemoved(before, owner) ==
              if now.sockets.None? then now
              else now.(sockets := Some(Sockets.ServiceReleased(now.sockets.value, owner)))
    {
      assert OwnerRemoved(before, owner).byID == now.byID;
      assert OwnerRemoved(before, owner).http == now.http;
      if now.sockets.Some? {
        FinishesRelease(before.sockets.value, now.sockets.value, owner);
      }
    }

    method VisitForRemoval(ghost before: Table, owner: string, ghost left: set<RouteKey>, k: RouteKey)
      requires Routing.Valid(before) && PartlyRemoved(before, View(), owner, left)
      requires k in left && left <= before.byID.Keys
      modifies this, socket
      ensures PartlyRemoved(before, View(), owner, left - {k})
    {
      if k in byID && byID[k].owner == owner {
        StepsRemoval(before, View(), owner, left, k);
        RemoveLocked(k);
      } else {
        SkipsRemoval(before, View(), owner, left, k);
      }
    }

    lemma FinishesRelease(before: Sockets.Table, now: Sockets.Table, owner: string)
      requires PartlyReleased(before, now, owner)
      ensures Sockets.ServiceReleased(now, owner) == Sockets.ServiceReleased(before, owner)
    {
    }

    lemma SkipsRemoval(before: Table, now: Table, owner: string, left: set<RouteKey>, k: RouteKey)
      requires Routing.Valid(before) && PartlyRemoved(before, now, owner, left)
      requires k in left && k in before.byID && (k in now.byID ==> now.byID[k].owner != owner)
      ensures PartlyRemoved(before, now, owner, left - {k})
    {
      StaysHttp(before, now.http, owner, left, k);
    }

    lemma StepsRemoval(before: Table, now: Table, owner: string, left: set<RouteKey>, k: RouteKey)
      requires Routing.Valid(before) && PartlyRemoved(before, now, owner, left)
      requires k in left && k in now.byID && now.byID[k].owner == owner
      ensures PartlyRemoved(before, Removed(now, k), owner, left - {k})
    {
      var fewer := Removed(now, k);
      assert fewer.byID == now.byID - {k};
      if IsHttp(now.byID[k]) {
        StepsHttp(before, now.http, owner, left, k);
      } else {
        StaysHttp(before, now.http, owner, left, k);
        if now.sockets.Some? {
          StepsRelease(before.sockets.value, now.sockets.value, owner, now.byID[k].route.socket);
        }
      }
    }

    lemma StepsHttp(before: Table, now: map<HttpKey, Binding>, owner: string, left: set<RouteKey>, k: RouteKey)
      requires TablesAgree(before.byID, before.http) && PartlyHttp(before.http, now, owner, left)
      requires k in left && k in before.byID && before.byID[k].owner == owner && IsHttp(before.byID[k])
      ensures PartlyHttp(before.http, now - {HttpKeyOf(before.byID[k])}, owner, left - {k})
    {
      forall h | h in before.http && RouteKeyOf(before.http[h]) == k ensures h == HttpKeyOf(before.byID[k]) {
        assert before.byID[k] == before.http[h];
      }
      assert before.http[HttpKeyOf(before.byID[k])] == before.byID[k];
    }

    lemma StaysHttp(before: Table, now: map<HttpKey, Binding>, owner: string, left: set<RouteKey>, k: RouteKey)
      requires TablesAgree(before.byID, before.http) && PartlyHttp(before.http, now, owner, left)
      requires k in before.byID && (before.byID[k].owner == owner ==> !IsHttp(before.byID[k]))
      ensures PartlyHttp(before.http, now, owner, left - {k})
    {
      forall h | h in before.http && RouteKeyOf(before.http[h]) == k ensures before.http[h].owner != owner {
        assert before.byID[k] == before.http[h];
      }
    }

    lemma StepsRelease(before: Sockets.Table, now: Sockets.Table, owner: string, namespace: Option<string>)
      requires PartlyReleased(before, now, owner) && owner != ""
      ensures namespace.Some? ==> PartlyReleased(before, Sockets.Released(now, owner, namespace.value), owner)
    {
    }

    method UsesTransport(owner: string, id: string) returns (used: bool)
      ensures used <==> exists k :: k in byID && byID[k].owner == owner && byID[k].route.transportID == id
    {
      var left := byID.Keys;
      while left != {}
        invariant left <= byID.Keys
        invariant forall k :: k in byID && k !in left ==> !(byID[k].owner == owner && byID[k].route.transportID == id)
      {
        var k :| k in left;
        left := left - {k};
        if byID[k].owner == owner && byID[k].route.transportID == id {
          return true;
        }
      }
      used := false;
    }

    method MatchHTTP(verb: string, path: string) returns (m: Match)
      ensures IsAnswer(http, verb, path, m)
    {
      var best := LongestMatch(path);
      if best == "" {
        return NoRoute;
      }
      var wanted := NormalizeMethod(verb);
      var allowed: set<string> := {};
      var wildcard: Option<Binding> := None;
      var left := http.Keys;
      while left != {}
        invariant left <= http.Keys
        invariant forall h :: h in http && h !in left && h.pattern == best ==>
                    h.verb != wanted && (h.verb == "" ==> wildcard == Some(http[h]))
                        && (h.verb != "" ==> h.verb in allowed)
        invariant wildcard.Some? ==> HttpKey(best, "") in http && wildcard.value == http[HttpKey(best, "")]
        invariant forall v :: v in allowed ==> v != "" && HttpKey(best, v) in http
      {
        var key :| key in left;
        left := left - {key};
        if key.pattern != best {
          continue;
        }
        if key.verb == wanted {
          return Chosen(http[key]);
        }
        if key.verb == "" {
          wildcard := Some(http[key]);
        } else {
          allowed := allowed + {key.verb};
        }
      }
      if wildcard.Some? {
        return Chosen(wildcard.value);
      }
      var sorted := SortedMethods(allowed);
      forall v ensures v in sorted <==> v in VerbsAt(http, best) {
        assert v in allowed ==> HttpKey(best, v).verb == v;
      }
      m := NotAllowed(sorted);
      assert IsAnswerAt(http, best, wanted, m);
    }

    method LongestMatch(path: string) returns (best: string)
      ensures best == "" <==> !exists h :: h in http && Covers(http, h, path)
      ensures best != "" ==> IsLongest(http, path, best)
    {
      best := "";
      var left := http.Keys;
      while left != {}
        invariant left <= http.Keys
        invariant best != "" ==> exists h :: h in http && h.pattern == best && Covers(http, h, path)
        invariant forall h :: h in http && h !in left && Covers(http, h, path) ==>
                  h.pattern != "" && |h.pattern| <= |best|
      {
        var key :| key in left;
        left := left - {key};
        if Covers(http, key, path) && |key.pattern| > |best| {
          best := key.pattern;
        }
      }
    }

    static method SortedMethods(verbs: set<string>) returns (sorted: seq<string>)
      ensures GroupIndex.StrictlySorted(sorted) && forall v :: v in sorted <==> v in verbs
    {
      var list: seq<string> := [];
      var left := verbs;
      while left != {}
        invariant left <= verbs
        invariant forall v :: v in list <==> v in verbs - left
        invariant forall i, j :: 0 <= i < j < |list| ==> list[i] != list[j]
      {
        var v :| v in left;
        assert v !in list;
        assert forall i :: 0 <= i < |list| ==> list[i] in list;
        left := left - {v};
        list := list + [v];
      }
      sorted := GroupIndex.Sort(list);
    }
  }
}

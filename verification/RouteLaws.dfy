// Which routes are admitted and which one answers, told in the terms of a declaration and of a request.
module RouteLaws {
  import opened Text
  import opened Services
  import opened PathPatterns
  import opened Routing
  import opened RouteRegistry
  import Transports
  import Sockets
  import ControlPlane

  // Every registered route is sound.

  predicate SoundHttp(b: Binding)
    requires IsHttp(b)
  {
    var h, kind := b.route.http.value, b.transport.decl.kind;
    && (kind.HTTP? || kind.Static? || kind.Proxy?)
    && HasPrefix(h.pattern, "/") && !HasSuffix(h.pattern, "/*")
    && NormalizeMethod(h.verb) == h.verb
    && (h.rewrite.Some? && h.rewrite.value.location ==> h.rewrite.value.prefix)
    && (kind.Static? ==> (h.verb == "" || h.verb == "GET") && (HasSuffix(h.pattern, "/") <==> b.transport.directory))
  }

  predicate SoundSocket(b: Binding) {
    && b.route.socket.Some? && b.route.socket.value != ""
    && b.transport.decl.kind.SocketIO? && b.transport.endpoint.connected
  }

  /** A static directory is mounted at a subtree and a static file at a path of its own; the transport is of a kind that
      can serve the route. */
  predicate Sound(b: Binding) {
    if IsHttp(b) then SoundHttp(b) else SoundSocket(b)
  }

  ghost predicate AllSound(t: Table) {
    forall k :: k in t.byID ==> Sound(t.byID[k])
  }

  lemma AcceptedIsSound(t: Table, live: Live, owner: string, d: RouteDecl, creatable: bool)
    requires Refusal(t, live, owner, d, creatable).None?
    ensures Transports.Key(Trim(owner), Trim(d.transportID)) in live
    ensures Sound(Bound(live, owner, d))
  {
    if d.http.Some? {
      NormalizeIdempotent(d.http.value.verb);
    }
  }

  lemma RegisteredKeepsSound(t: Table, live: Live, owner: string, d: RouteDecl, creatable: bool)
    requires AllSound(t)
    ensures AllSound(Registered(t, live, owner, d, creatable))
  {
    if Refusal(t, live, owner, d, creatable).None? {
      AcceptedIsSound(t, live, owner, d, creatable);
    }
  }

  lemma StepKeepsSound(p: ControlPlane.Plane, a: ControlPlane.Action)
    requires ControlPlane.Recorded(p) && AllSound(p.routing)
    ensures AllSound(ControlPlane.Step(p, a).routing)
  {
    if a.RegisterRoute? {
      RegisteredKeepsSound(p.routing, p.transports.live, a.owner, a.route, a.creatable);
    }
  }

  /** In every reachable state every route is sound. */
  lemma {:induction false} RunsAreSound(withSockets: bool, run: seq<ControlPlane.Action>)
    ensures AllSound(ControlPlane.Exec(ControlPlane.Init(withSockets), run).routing)
  {
    if run != [] {
      var before := run[..|run| - 1];
      RunsAreSound(withSockets, before);
      StepKeepsSound(ControlPlane.Exec(ControlPlane.Init(withSockets), before), run[|run| - 1]);
    }
  }

  // And every sound route is admitted, unless it is in the way of another.

  /** The declaration has names and is of one kind, its transport is there, and its id is new. */
  predicate Complete(t: Table, live: Live, owner: string, d: RouteDecl) {
    && Trim(owner) != "" && Trim(d.id) != "" && Trim(d.transportID) != ""
    && (d.http.Some? <==> d.socket.None?)
    && Transports.Key(Trim(owner), Trim(d.transportID)) in live
    && RouteKey(Trim(owner), Trim(d.id)) !in t.byID
  }

  /** The route may share its pattern with the routes that are there, or has its namespace to itself. */
  ghost predicate Fits(t: Table, b: Binding, creatable: bool) {
    if IsHttp(b) then
      && HttpKeyOf(b).pattern !in t.reserved
      && HttpKeyOf(b) !in t.http && Shareable(t.http[HttpKeyOf(b) := b])
    else
      b.route.socket.Some? && t.sockets.Some? && creatable && NamespaceOwner(t, b.route.socket.value).service == ""
  }

  lemma NoConflictIfShareable(http: map<HttpKey, Binding>, b: Binding)
    requires Shareable(http) && IsHttp(b)
    ensures Conflict(http, b).None? <==> HttpKeyOf(b) !in http && Shareable(http[HttpKeyOf(b) := b])
  {
    var h := HttpKeyOf(b);
    NoConflictIff(http, b);
    if Conflict(http, b).None? {
      assert h in http ==> Collision(h, http[h], b).Some?;
      assert forall g :: g in http && g.pattern == h.pattern ==> Collision(g, http[g], b).None?;
    } else {
      var g :| g in http && Collision(g, http[g], b).Some?;
      assert g.pattern == h.pattern;
      if h !in http {
        var more := http[h := b];
        assert more[g] == http[g] && more[h] == b && g != h;
      }
    }
  }

  lemma CompleteIff(t: Table, live: Live, owner: string, d: RouteDecl, creatable: bool)
    ensures Refusal(t, live, owner, d, creatable).None? <==>
            Complete(t, live, owner, d) && BoundRefusal(t, Bound(live, owner, d), creatable).None?
  {
  }

  lemma HttpAcceptedIff(t: Table, b: Binding, creatable: bool)
    requires Shareable(t.http) && IsHttp(b) && NormalizeMethod(b.route.http.value.verb) == b.route.http.value.verb
    ensures BoundRefusal(t, b, creatable).None? <==> Sound(b) && Fits(t, b, creatable)
  {
    NoConflictIfShareable(t.http, b);
  }

  lemma SocketAcceptedIff(t: Table, b: Binding, creatable: bool)
    requires !IsHttp(b) && b.route.socket.Some?
    ensures BoundRefusal(t, b, creatable).None? <==> Sound(b) && Fits(t, b, creatable)
  {
  }

  lemma AcceptedIff(t: Table, live: Live, owner: string, d: RouteDecl, creatable: bool)
    requires Shareable(t.http)
    ensures Refusal(t, live, owner, d, creatable).None? <==>
            Complete(t, live, owner, d) && Sound(Bound(live, owner, d)) && Fits(t, Bound(live, owner, d), creatable)
  {
    CompleteIff(t, live, owner, d, creatable);
    if Complete(t, live, owner, d) {
      if d.http.Some? {
        NormalizeIdempotent(d.http.value.verb);
        HttpAcceptedIff(t, Bound(live, owner, d), creatable);
      } else {
        SocketAcceptedIff(t, Bound(live, owner, d), creatable);
      }
    }
  }

  // What is stored, and which error is returned.

  /** An accepted route is on record as it was declared, under trimmed names and with its method in upper case, and
      nothing else has changed. */
  lemma RegisteredAsDeclared(t: Table, live: Live, owner: string, d: RouteDecl, creatable: bool)
    requires Refusal(t, live, owner, d, creatable).None?
    ensures var u, k := Registered(t, live, owner, d, creatable), RouteKey(Trim(owner), Trim(d.id));
            && u.byID.Keys == t.byID.Keys + {k} && (forall j :: j in t.byID ==> u.byID[j] == t.byID[j])
            && u.byID[k].owner == k.owner && u.byID[k].route.id == k.id
            && u.byID[k].route.transportID == Trim(d.transportID) && u.byID[k].route.socket == d.socket
            && Transports.Key(k.owner, Trim(d.transportID)) in live
            && u.byID[k].transport == live[Transports.Key(k.owner, Trim(d.transportID))]
            && u.byID[k].route.http.None? == d.http.None?
            && (d.http.Some? ==>
                  && u.byID[k].route.http.value.pattern == d.http.value.pattern
                  && u.byID[k].route.http.value.rewrite == d.http.value.rewrite
                  && u.byID[k].route.http.value.verb == NormalizeMethod(d.http.value.verb))
            && u.reserved == t.reserved
  {
    AcceptedIsAdmissible(t, live, owner, d, creatable);
  }

  /** The order in which reasons against a route are found. */
  function Rank(e: Error): nat {
    match e
    case OwnerRequired => 0
    case IdRequired => 1
    case TransportRequired => 2
    case ExactlyOneKind => 3
    case NoTransport => 4
    case DuplicateId => 5
    case InvalidPattern => 6
    case WrongTransport => 7
    case LocationNeedsPrefix => 8
    case PatternReserved(_) => 9
    case StaticMethod => 10
    case StaticDirectory => 11
    case StaticFile => 12
    case OwnerConflict => 13
    case StaticConflict => 14
    case MethodConflict => 15
    case NotASocketTransport => 6
    case NoSocketRegistry => 7
    case Namespace(NamespaceRequired) => 8
    case Namespace(ConnectionRequired) => 9
    case Namespace(CannotCreate) => 10
    case Namespace(AlreadyOwned(_)) => 11
    case NotRegistered => 16
  }

  /** Another route at the pattern belongs to somebody else; one of the two is static; they claim a method both. */
  ghost predicate Collide(http: map<HttpKey, Binding>, g: HttpKey, b: Binding, e: Error)
    requires IsHttp(b)
  {
    var h := b.route.http.value;
    && g in http && g.pattern == h.pattern
    && match e
       case OwnerConflict => http[g].owner != b.owner
       case StaticConflict => http[g].transport.decl.kind.Static? || b.transport.decl.kind.Static?
       case MethodConflict => g.verb == "" || h.verb == "" || g.verb == h.verb
       case _ => false
  }

  /** The reason holds against an HTTP route. */
  ghost predicate HttpReason(t: Table, b: Binding, e: Error)
    requires IsHttp(b)
  {
    var h, kind := b.route.http.value, b.transport.decl.kind;
    match e
    case InvalidPattern => !HasPrefix(h.pattern, "/") || HasSuffix(h.pattern, "/*")
    case WrongTransport => !kind.HTTP? && !kind.Static? && !kind.Proxy?
    case LocationNeedsPrefix => h.rewrite.Some? && h.rewrite.value.location && !h.rewrite.value.prefix
    case PatternReserved(owner) => h.pattern in t.reserved && t.reserved[h.pattern] == owner
    case StaticMethod => kind.Static? && h.verb != "" && h.verb != "GET"
    case StaticDirectory => kind.Static? && b.transport.directory && !HasSuffix(h.pattern, "/")
    case StaticFile => kind.Static? && !b.transport.directory && HasSuffix(h.pattern, "/")
    case OwnerConflict => exists g :: Collide(t.http, g, b, e)
    case StaticConflict => exists g :: Collide(t.http, g, b, e)
    case MethodConflict => exists g :: Collide(t.http, g, b, e)
    case _ => false
  }

  /** The reason holds against a Socket.IO route. */
  predicate SocketReason(t: Table, b: Binding, creatable: bool, e: Error)
    requires b.route.socket.Some?
  {
    var n := b.route.socket.value;
    match e
    case NotASocketTransport => !b.transport.decl.kind.SocketIO?
    case NoSocketRegistry => t.sockets.None?
    case Namespace(NamespaceRequired) => n == ""
    case Namespace(ConnectionRequired) => !b.transport.endpoint.connected
    case Namespace(CannotCreate) => !creatable
    case Namespace(AlreadyOwned(service)) => service != "" && NamespaceOwner(t, n).service == service
    case _ => false
  }

  ghost predicate Reason(t: Table, live: Live, owner: string, d: RouteDecl, creatable: bool, e: Error) {
    match e
    case OwnerRequired => Trim(owner) == ""
    case IdRequired => Trim(d.id) == ""
    case TransportRequired => Trim(d.transportID) == ""
    case ExactlyOneKind => d.http.Some? <==> d.socket.Some?
    case NoTransport => Transports.Key(Trim(owner), Trim(d.transportID)) !in live
    case DuplicateId => RouteKey(Trim(owner), Trim(d.id)) in t.byID
    case _ =>
      && Transports.Key(Trim(owner), Trim(d.transportID)) in live
      && if d.http.Some? then HttpReason(t, Bound(live, owner, d), e)
         else d.socket.Some? && SocketReason(t, Bound(live, owner, d), creatable, e)
  }

  lemma CollisionIs(http: map<HttpKey, Binding>, g: HttpKey, b: Binding)
    requires g in http && IsHttp(b) && NormalizeMethod(b.route.http.value.verb) == b.route.http.value.verb
    ensures Collision(g, http[g], b) ==
            if Collide(http, g, b, OwnerConflict) then Some(OwnerConflict)
            else if Collide(http, g, b, StaticConflict) then Some(StaticConflict)
            else if Collide(http, g, b, MethodConflict) then Some(MethodConflict)
            else None
  {
  }

  lemma ConflictIsFirst(http: map<HttpKey, Binding>, b: Binding, e: Error)
    requires IsHttp(b) && NormalizeMethod(b.route.http.value.verb) == b.route.http.value.verb
    requires e in {OwnerConflict, StaticConflict, MethodConflict}
    ensures Conflict(http, b) == Some(e) <==>
            && (exists g :: Collide(http, g, b, e))
            && forall f, g :: f in {OwnerConflict, StaticConflict, MethodConflict} && Collide(http, g, b, f) ==>
                 Rank(e) <= Rank(f)
  {
    forall g | g in http ensures Collision(g, http[g], b) ==
      if Collide(http, g, b, OwnerConflict) then Some(OwnerConflict)
      else if Collide(http, g, b, StaticConflict) then Some(StaticConflict)
      else if Collide(http, g, b, MethodConflict) then Some(MethodConflict)
      else None
    {
      CollisionIs(http, g, b);
    }
    assert forall f :: Collides(http, b, f) ==> exists g :: Collide(http, g, b, f);
  }

  ghost predicate FirstOfHttp(t: Table, b: Binding, e: Error)
    requires IsHttp(b)
  {
    HttpReason(t, b, e) && forall f :: HttpReason(t, b, f) ==> Rank(e) <= Rank(f)
  }

  lemma GeneralIsFirst(t: Table, b: Binding, e: Error)
    requires IsHttp(b) && DeclarationMalformed(t.reserved, b) == Some(e)
    ensures FirstOfHttp(t, b, e)
  {
  }

  lemma NothingGeneral(t: Table, b: Binding, f: Error)
    requires IsHttp(b) && DeclarationMalformed(t.reserved, b).None? && Rank(f) <= 9
    ensures !HttpReason(t, b, f)
  {
    match f
    case InvalidPattern =>
    case WrongTransport =>
    case LocationNeedsPrefix =>
    case PatternReserved(_) =>
    case _ =>
  }

  lemma StaticIsFirst(t: Table, b: Binding, e: Error)
    requires IsHttp(b) && DeclarationMalformed(t.reserved, b).None? && StaticMalformed(b) == Some(e)
    ensures FirstOfHttp(t, b, e)
  {
    match e {
      case StaticMethod => assert HttpReason(t, b, e);
      case StaticDirectory => assert HttpReason(t, b, e);
      case StaticFile => assert HttpReason(t, b, e);
    }
    forall f | HttpReason(t, b, f) ensures Rank(e) <= Rank(f) {
      if Rank(f) <= 9 {
        NothingGeneral(t, b, f);
      }
    }
  }

  lemma DeclarationIsFirst(t: Table, b: Binding, e: Error)
    requires IsHttp(b) && NormalizeMethod(b.route.http.value.verb) == b.route.http.value.verb
    requires HttpMalformed(t.reserved, b) == Some(e)
    ensures FirstOfHttp(t, b, e)
  {
    if DeclarationMalformed(t.reserved, b).Some? {
      GeneralIsFirst(t, b, e);
    } else {
      StaticIsFirst(t, b, e);
    }
  }

  lemma CollisionIsFirst(t: Table, b: Binding, e: Error)
    requires IsHttp(b) && NormalizeMethod(b.route.http.value.verb) == b.route.http.value.verb
    requires HttpMalformed(t.reserved, b).None? && Conflict(t.http, b) == Some(e)
    ensures FirstOfHttp(t, b, e)
  {
    ConflictIsFirst(t.http, b, e);
    forall f | HttpReason(t, b, f) ensures Rank(e) <= Rank(f) {
      if f in {OwnerConflict, StaticConflict, MethodConflict} {
        var g :| Collide(t.http, g, b, f);
      }
    }
  }

  lemma NothingCollides(http: map<HttpKey, Binding>, b: Binding, e: Error, g: HttpKey)
    requires IsHttp(b) && NormalizeMethod(b.route.http.value.verb) == b.route.http.value.verb
    requires Conflict(http, b).None?
    ensures !Collide(http, g, b, e)
  {
    NoConflictIff(http, b);
    if g in http {
      CollisionIs(http, g, b);
    }
  }

  lemma NoHttpReason(t: Table, b: Binding, e: Error)
    requires IsHttp(b) && NormalizeMethod(b.route.http.value.verb) == b.route.http.value.verb
    requires HttpMalformed(t.reserved, b).None? && Conflict(t.http, b).None?
    ensures !HttpReason(t, b, e)
  {
    forall g ensures !Collide(t.http, g, b, e) {
      NothingCollides(t.http, b, e, g);
    }
  }

  lemma SocketIsFirst(t: Table, b: Binding, creatable: bool, e: Error)
    requires b.route.socket.Some? && SocketRefusal(t.sockets, b, creatable) == Some(e)
    ensures SocketReason(t, b, creatable, e) && forall f :: SocketReason(t, b, creatable, f) ==> Rank(e) <= Rank(f)
  {
  }

  lemma NoSocketReason(t: Table, b: Binding, creatable: bool, e: Error)
    requires b.route.socket.Some? && SocketRefusal(t.sockets, b, creatable).None?
    ensures !SocketReason(t, b, creatable, e)
  {
  }

  lemma HttpReasonsDiffer(t: Table, b: Binding, e: Error, f: Error)
    requires IsHttp(b) && HttpReason(t, b, e) && HttpReason(t, b, f) && Rank(e) == Rank(f)
    ensures e == f
  {
  }

  lemma SocketReasonsDiffer(t: Table, b: Binding, creatable: bool, e: Error, f: Error)
    requires b.route.socket.Some? && SocketReason(t, b, creatable, e) && SocketReason(t, b, creatable, f)
    requires Rank(e) == Rank(f)
    ensures e == f
  {
  }

  /** Reasons of one rank exclude each other. */
  lemma ReasonsDiffer(t: Table, live: Live, owner: string, d: RouteDecl, creatable: bool, e: Error, f: Error)
    requires Reason(t, live, owner, d, creatable, e) && Reason(t, live, owner, d, creatable, f) && Rank(e) == Rank(f)
    ensures e == f
  {
    if Rank(e) >= 6 {
      if d.http.Some? {
        HttpReasonsDiffer(t, Bound(live, owner, d), e, f);
      } else {
        SocketReasonsDiffer(t, Bound(live, owner, d), creatable, e, f);
      }
    }
  }

  lemma RefusalIsFirst(t: Table, live: Live, owner: string, d: RouteDecl, creatable: bool, e: Error)
    requires Refusal(t, live, owner, d, creatable) == Some(e)
    ensures Reason(t, live, owner, d, creatable, e)
    ensures forall f :: Reason(t, live, owner, d, creatable, f) ==> Rank(e) <= Rank(f)
  {
    if Complete(t, live, owner, d) {
      var b := Bound(live, owner, d);
      if d.http.Some? {
        NormalizeIdempotent(d.http.value.verb);
        if HttpMalformed(t.reserved, b).Some? {
          DeclarationIsFirst(t, b, e);
        } else {
          CollisionIsFirst(t, b, e);
        }
      } else {
        SocketIsFirst(t, b, creatable, e);
      }
    }
  }

  lemma NothingAgainst(t: Table, live: Live, owner: string, d: RouteDecl, creatable: bool, e: Error)
    requires Refusal(t, live, owner, d, creatable).None?
    ensures !Reason(t, live, owner, d, creatable, e)
  {
    var b := Bound(live, owner, d);
    if d.http.Some? {
      NormalizeIdempotent(d.http.value.verb);
      NoHttpReason(t, b, e);
    } else {
      NoSocketReason(t, b, creatable, e);
    }
  }

  /** A route is refused for the first reason that holds against it, in the order of ranks, and for no other. */
  lemma FirstReason(t: Table, live: Live, owner: string, d: RouteDecl, creatable: bool, e: Error)
    ensures Refusal(t, live, owner, d, creatable) == Some(e) <==>
            && Reason(t, live, owner, d, creatable, e)
            && forall f :: Reason(t, live, owner, d, creatable, f) ==> Rank(e) <= Rank(f)
  {
    if Refusal(t, live, owner, d, creatable).None? {
      NothingAgainst(t, live, owner, d, creatable, e);
    } else {
      var f := Refusal(t, live, owner, d, creatable).value;
      RefusalIsFirst(t, live, owner, d, creatable, f);
      if && Reason(t, live, owner, d, creatable, e)
         && forall g :: Reason(t, live, owner, d, creatable, g) ==> Rank(e) <= Rank(g) {
        ReasonsDiffer(t, live, owner, d, creatable, e, f);
      }
    }
  }

  // Patterns that are set aside.

  /** A pattern can be set aside iff it is well-formed, nobody else has set it aside and no route is there. */
  lemma ReservableIff(t: Table, owner: string, pattern: string)
    ensures Reservable(t, owner, pattern) <==>
            && HasPrefix(pattern, "/") && !HasSuffix(pattern, "/*")
            && (pattern in t.reserved ==> t.reserved[pattern] == owner)
            && forall h :: h in t.http ==> h.pattern != pattern
  {
  }

  /** Afterwards it is the owner's: he may set it aside again, nobody else can, and no route is admitted there. */
  lemma ReservationHolds(t: Table, owner: string, patterns: seq<string>, p: string)
    requires ReserveRefusal(t, owner, patterns).None?
    ensures var u := Reserved(t, owner, patterns);
            && (p in u.reserved <==> p in t.reserved || p in patterns)
            && (p in u.reserved ==> u.reserved[p] == if p in patterns then owner else t.reserved[p])
            && (p in patterns ==> Reservable(u, owner, p))
            && (p in patterns ==> forall other :: other != owner ==>
                  PatternRefusal(u, other, p) == Some(ReservedBy(owner)))
            && u.byID == t.byID && u.http == t.http && u.sockets == t.sockets
  {
    NoneRefusedIff(t, owner, patterns);
  }

  lemma ReservedIsRefused(t: Table, live: Live, owner: string, d: RouteDecl, creatable: bool)
    requires d.http.Some? && d.http.value.pattern in t.reserved
    ensures Refusal(t, live, owner, d, creatable).Some?
  {
  }

  // Requests.

  /** Methods are the same but for white space around them and the case of letters. */
  predicate SameMethod(a: string, b: string) {
    var x, y := Trim(a), Trim(b);
    |x| == |y| && forall i :: 0 <= i < |x| ==> SameLetter(x[i], y[i])
  }

  predicate SameLetter(c: char, d: char) {
    || c == d
    || ('a' <= c <= 'z' && d as int == c as int - 32)
    || ('a' <= d <= 'z' && c as int == d as int - 32)
  }

  lemma SameMethodIff(a: string, b: string)
    ensures NormalizeMethod(a) == NormalizeMethod(b) <==> SameMethod(a, b)
  {
    var x, y := Trim(a), Trim(b);
    assert forall c, d :: UpperChar(c) == UpperChar(d) <==> SameLetter(c, d);
    if ToUpper(x) == ToUpper(y) {
      forall i | 0 <= i < |x| ensures SameLetter(x[i], y[i]) {
        assert ToUpper(x)[i] == ToUpper(y)[i];
      }
    }
  }

  /** The whole tree below "/" is served by a proxy or a static directory there. */
  predicate ServesTree(b: Binding) {
    b.transport.decl.kind.Proxy? || (b.transport.decl.kind.Static? && b.transport.directory)
  }

  /** A route is for the path itself and, if its pattern ends in a slash, for what is below it; but "/" alone stands for
      the whole tree only if the transport serves one. */
  predicate IsFor(h: HttpKey, b: Binding, path: string) {
    || path == h.pattern
    || (HasSuffix(h.pattern, "/") && HasPrefix(path, h.pattern) && (h.pattern == "/" ==> ServesTree(b)))
  }

  lemma CoversIff(http: map<HttpKey, Binding>, h: HttpKey, path: string)
    requires h in http && h.pattern != ""
    ensures Covers(http, h, path) <==> IsFor(h, http[h], path)
  {
  }

  /** As the table of a registry is: every route is under its own pattern and method, and its pattern is not empty. */
  ghost predicate Keyed(http: map<HttpKey, Binding>) {
    forall h :: h in http ==> IsHttp(http[h]) && HttpKeyOf(http[h]) == h && h.pattern != ""
  }

  lemma SoundIsKeyed(t: Table)
    requires TablesAgree(t.byID, t.http) && AllSound(t)
    ensures Keyed(t.http)
  {
    forall h | h in t.http ensures h.pattern != "" {
      assert Sound(t.byID[RouteKeyOf(t.http[h])]);
    }
  }

  /** Nobody answers iff no route is for the path. */
  lemma NoRouteIff(http: map<HttpKey, Binding>, verb: string, path: string, m: Match)
    requires Keyed(http) && IsAnswer(http, verb, path, m)
    ensures m.NoRoute? <==> forall h :: h in http ==> !IsFor(h, http[h], path)
  {
    forall h | h in http ensures Covers(http, h, path) <==> IsFor(h, http[h], path) {
      CoversIff(http, h, path);
    }
  }

  lemma PrefixOfPrefix(p: string, q: string, path: string)
    requires p <= path && q <= path && |p| <= |q|
    ensures p <= q
  {
    assert p == path[..|p|] && q == path[..|q|];
    assert path[..|q|][..|p|] == path[..|p|];
  }

  /** The longest pattern is that of a route for the path, and any other such pattern is a beginning of it. */
  lemma LongestIsMostSpecific(http: map<HttpKey, Binding>, path: string, pattern: string)
    requires Keyed(http) && IsLongest(http, path, pattern)
    ensures exists h :: h in http && h.pattern == pattern && IsFor(h, http[h], path)
    ensures pattern <= path && forall h :: h in http && IsFor(h, http[h], path) ==> h.pattern <= pattern
  {
    var g :| g in http && g.pattern == pattern && Covers(http, g, path);
    CoversIff(http, g, path);
    assert pattern <= path;
    forall h | h in http && IsFor(h, http[h], path) ensures h.pattern <= pattern {
      CoversIff(http, h, path);
      PrefixOfPrefix(h.pattern, pattern, path);
    }
  }

  /** The chosen route is for the method that was asked for or for all; its pattern is that of a route for the path, and
      any other pattern that is for the path is a beginning of it. */
  lemma ChosenIsMostSpecific(http: map<HttpKey, Binding>, verb: string, path: string, b: Binding)
    requires Keyed(http) && IsAnswer(http, verb, path, Chosen(b))
    ensures IsHttp(b) && HttpKeyOf(b) in http && http[HttpKeyOf(b)] == b
    ensures HttpKeyOf(b).verb == "" || HttpKeyOf(b).verb == NormalizeMethod(verb)
    ensures exists h :: h in http && h.pattern == HttpKeyOf(b).pattern && IsFor(h, http[h], path)
    ensures forall h :: h in http && IsFor(h, http[h], path) ==> h.pattern <= HttpKeyOf(b).pattern
  {
    var pattern :| IsLongest(http, path, pattern) && IsAnswerAt(http, pattern, NormalizeMethod(verb), Chosen(b));
    LongestIsMostSpecific(http, path, pattern);
    assert HttpKeyOf(b).pattern == pattern;
  }

  lemma ExactIsLongest(http: map<HttpKey, Binding>, h: HttpKey)
    requires Keyed(http) && h in http
    ensures IsLongest(http, h.pattern, h.pattern)
  {
    CoversIff(http, h, h.pattern);
    forall g | g in http && Covers(http, g, h.pattern) ensures |g.pattern| <= |h.pattern| {
      CoversIff(http, g, h.pattern);
    }
  }

  /** A route whose pattern is the path itself answers for its method, whatever else is registered. */
  lemma ExactRouteWins(http: map<HttpKey, Binding>, verb: string, path: string, m: Match)
    requires Keyed(http) && IsAnswer(http, verb, path, m) && HttpKey(path, NormalizeMethod(verb)) in http
    ensures m == Chosen(http[HttpKey(path, NormalizeMethod(verb))])
  {
    var v := NormalizeMethod(verb);
    ExactIsLongest(http, HttpKey(path, v));
    var pattern :| IsLongest(http, path, pattern) && IsAnswerAt(http, pattern, v, m);
    LongestIsUnique(http, path, pattern, path);
  }

  lemma AnswerHere(http: map<HttpKey, Binding>, path: string, pattern: string, verb: string, m: Match)
    requires IsLongest(http, path, pattern) && IsAnswerAt(http, pattern, NormalizeMethod(verb), m)
    ensures IsAnswer(http, verb, path, m)
  {
    var h :| h in http && h.pattern == pattern && Covers(http, h, path);
  }

  /** The pattern is that of a route for the path, and any other such pattern is a beginning of it. */
  ghost predicate IsMostSpecific(http: map<HttpKey, Binding>, path: string, pattern: string) {
    && (exists h :: h in http && h.pattern == pattern && IsFor(h, http[h], path))
    && forall h :: h in http && IsFor(h, http[h], path) ==> h.pattern <= pattern
  }

  lemma MostSpecificIsLongest(http: map<HttpKey, Binding>, path: string, pattern: string)
    requires Keyed(http) && IsMostSpecific(http, path, pattern)
    ensures IsLongest(http, path, pattern)
  {
    var h :| h in http && h.pattern == pattern && IsFor(h, http[h], path);
    CoversIff(http, h, path);
    forall g | g in http && Covers(http, g, path) ensures |g.pattern| <= |pattern| {
      CoversIff(http, g, path);
    }
  }

  /** At that pattern the route for the method answers, else the one for all methods, and else none. */
  lemma AnswerIff(http: map<HttpKey, Binding>, verb: string, path: string, pattern: string, m: Match)
    requires Keyed(http) && IsMostSpecific(http, path, pattern) && IsAnswer(http, verb, path, m)
    ensures var v := NormalizeMethod(verb);
      if HttpKey(pattern, v) in http then m == Chosen(http[HttpKey(pattern, v)])
      else if HttpKey(pattern, "") in http then m == Chosen(http[HttpKey(pattern, "")])
      else m.NotAllowed?
  {
    MostSpecificIsLongest(http, path, pattern);
    var p :| IsLongest(http, path, p) && IsAnswerAt(http, p, NormalizeMethod(verb), m);
    LongestIsUnique(http, path, p, pattern);
  }

  /** The methods named to a client whose own is not allowed are exactly those for which the path would be answered. */
  lemma AllowedIff(http: map<HttpKey, Binding>, verb: string, path: string, allowed: seq<string>, other: string)
    requires Keyed(http) && IsAnswer(http, verb, path, NotAllowed(allowed))
    ensures NormalizeMethod(other) in allowed <==> exists b :: IsAnswer(http, other, path, Chosen(b))
    ensures NormalizeMethod(verb) !in allowed
  {
    var p :| IsLongest(http, path, p) && IsAnswerAt(http, p, NormalizeMethod(verb), NotAllowed(allowed));
    var v := NormalizeMethod(other);
    VerbsAtIff(http, p, v);
    VerbsAtIff(http, p, NormalizeMethod(verb));
    if v in allowed {
      AnswerHere(http, path, p, other, Chosen(http[HttpKey(p, v)]));
    } else {
      forall b ensures !IsAnswer(http, other, path, Chosen(b)) {
        if IsAnswer(http, other, path, Chosen(b)) {
          var q :| IsLongest(http, path, q) && IsAnswerAt(http, q, v, Chosen(b));
          LongestIsUnique(http, path, p, q);
        }
      }
    }
  }

  lemma VerbsAtIff(http: map<HttpKey, Binding>, pattern: string, verb: string)
    ensures verb in VerbsAt(http, pattern) <==> HttpKey(pattern, verb) in http
  {
    assert HttpKey(pattern, verb).verb == verb;
  }
}

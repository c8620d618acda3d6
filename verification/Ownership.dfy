/** Who is responsible for an instance: in every run, under every interleaving and with Close at any moment. */
module Ownership {
  import opened Text
  import opened Supervisor
  import opened Protocol

  /** A place that can be responsible for an instance: the entry of a service or a task in flight. */
  datatype Holder = InEntry(name: string) | InTask(t: TaskId)

  function TaskHolds(task: Task): Option<InstanceId> {
    match task
    case Starter(_, _, Attached(i)) => Some(i)
    case Starter(_, _, Unbound(i)) => Some(i)
    case Starter(_, _, Loaded(i, _)) => Some(i)
    case Starter(_, _, Rejected(i, _)) => Some(i)
    case Stopper(_, i, _) => Some(i)
    case _ => None
  }

  function Held(s: State, h: Holder): Option<InstanceId> {
    match h
    case InEntry(n) => if n in s.services then s.services[n].loaded else None
    case InTask(t) => if t in s.tasks then TaskHolds(s.tasks[t]) else None
  }

  predicate TaskBound(task: Task) {
    match task
    case Starter(_, _, Attached(_)) => true
    case Starter(_, _, Loaded(_, _)) => true
    case Starter(_, _, Rejected(_, c)) => c == Bound
    case Stopper(_, _, c) => c == Bound
    case _ => false
  }

  /** The holder has not yet detached the session of the instance it holds. */
  predicate StillBound(s: State, h: Holder) {
    match h
    case InEntry(_) => true
    case InTask(t) => t in s.tasks && TaskBound(s.tasks[t])
  }

  function HolderName(s: State, h: Holder): string {
    match h
    case InEntry(n) => n
    case InTask(t) => if t in s.tasks then s.tasks[t].name else ""
  }

  /** The starter has yet to report to the supervisor whether it succeeded. */
  predicate Pending(task: Task) {
    task.Starter? && !task.start.Publishing?
  }

  /** Who holds each open instance. */
  type Ledger = map<InstanceId, Holder>

  predicate Proper(name: string) {
    Trimmed(name) && name != ""
  }

  ghost predicate LedgerOk(s: State, c: Ledger) {
    && (forall i :: i in c ==> i < |s.instances| && Held(s, c[i]) == Some(i))
    && (forall h :: Held(s, h).Some? ==> Held(s, h).value in c && c[Held(s, h).value] == h)
    && (forall i :: 0 <= i < |s.instances| ==> s.instances[i].closes == if i in c then 0 else 1)
    && (forall i :: i in c ==> HolderName(s, c[i]) == s.instances[i].name)
  }

  ghost predicate SessionsOk(s: State, c: Ledger) {
    && (forall n :: n in s.sessions ==> s.sessions[n] in c && StillBound(s, c[s.sessions[n]])
                                        && HolderName(s, c[s.sessions[n]]) == n)
    && (forall i :: i in c && StillBound(s, c[i]) ==>
          HolderName(s, c[i]) in s.sessions && s.sessions[HolderName(s, c[i])] == i)
  }

  ghost predicate TasksOk(s: State) {
    && (forall t :: t in s.tasks && t.Start? ==> t.serial < s.starts && s.tasks[t].Starter?)
    && (forall t :: t in s.tasks && t.Stop? ==> !s.tasks[t].Starter? && s.tasks[t].i == t.i && t.i < |s.instances|)
    && (forall t :: t in s.tasks && s.tasks[t].Stopped? ==> s.instances[t.i].closes == 1)
  }

  /** The names that tasks and instances work for. */
  ghost function Names(s: State): set<string> {
    (set t | t in s.tasks :: s.tasks[t].name) + (set i | 0 <= i < |s.instances| :: s.instances[i].name)
  }

  ghost predicate NamesOk(s: State) {
    forall n :: n in Names(s) ==> Proper(n)
  }

  /** Task t is a start of service n that has yet to report. */
  predicate IsPendingStart(s: State, t: TaskId, n: string) {
    t in s.tasks && s.tasks[t].name == n && Pending(s.tasks[t])
  }

  predicate IsStop(s: State, t: TaskId, n: string) {
    t in s.tasks && s.tasks[t].name == n && !s.tasks[t].Starter?
  }

  ghost predicate StatusOk(s: State) {
    && (forall n :: n in s.services ==> (IsRunning(s.services[n].status) <==> s.services[n].loaded.Some?))
    && (forall n :: n in s.services && s.services[n].status == Starting ==> exists t :: IsPendingStart(s, t, n))
    && (forall n :: n in s.services && s.services[n].status == Stopping ==> exists t :: IsStop(s, t, n))
    && (forall t, n :: IsStop(s, t, n) ==> n in s.services && s.services[n].status == Stopping)
    && (forall t, u, n :: IsStop(s, t, n) && IsStop(s, u, n) ==> t == u)
  }

  ghost predicate Inv(s: State, c: Ledger) {
    LedgerOk(s, c) && SessionsOk(s, c) && TasksOk(s) && StatusOk(s)
  }

  /** How a step moves an instance from holder to holder. */
  ghost function NextLedger(s: State, a: Action, c: Ledger): Ledger {
    match a
    case AttachSession(t) =>
      if s.callback.Free? && t in s.tasks && s.tasks[t].Starter? && s.tasks[t].start.Loading?
         && s.tasks[t].name !in s.sessions
      then c[|s.instances| := InTask(t)] else c
    case FinishStart(t) =>
      if t in s.tasks && s.tasks[t].Starter? && s.tasks[t].start.Loaded?
          && AcceptsStart(s.services, Flags(s), s.tasks[t].name)
      then c[s.tasks[t].start.i := InEntry(s.tasks[t].name)] else c
    case LoaderClose(t) =>
      if t in s.tasks && s.tasks[t].Starter? && s.tasks[t].start.Unbound? then c - {s.tasks[t].start.i} else c
    case CleanupClose(t, _) =>
      if t in s.tasks && CleanupOf(s.tasks[t]).Some? && CleanupOf(s.tasks[t]).value.1 == Removed
      then c - {CleanupOf(s.tasks[t]).value.0} else c
    case StopByName(raw) =>
      var outcome := StopOutcomeOf(s.services, Flags(s), Trim(raw));
      if Trim(raw) != "" && outcome.Draining? then c[outcome.instance := InTask(Stop(outcome.instance))] else c
    case CloseAll => map i | i in c :: if c[i].InEntry? then InTask(Stop(i)) else c[i]
    case _ => c
  }

  /** The one hypothesis on the environment: a package loaded by path has a name without surrounding whitespace. */
  predicate ProperLoad(a: Action) {
    a.Load? ==> Trimmed(a.name)
  }

  // ---------- What a step may do to the holders ----------

  /** The instances differ at most in their degraded flags. */
  ghost predicate SameInstances(s: State, s': State) {
    && |s'.instances| == |s.instances|
    && forall i :: 0 <= i < |s.instances| ==>
        s'.instances[i].name == s.instances[i].name && s'.instances[i].closes == s.instances[i].closes
  }

  ghost predicate SameHolder(s: State, s': State, h: Holder) {
    && Held(s', h) == Held(s, h)
    && (Held(s, h).Some? ==> StillBound(s', h) == StillBound(s, h) && HolderName(s', h) == HolderName(s, h))
  }

  lemma HoldersFramed(s: State, s': State, c: Ledger)
    requires LedgerOk(s, c) && SessionsOk(s, c)
    requires s'.sessions == s.sessions && SameInstances(s, s')
    requires forall h :: SameHolder(s, s', h)
    ensures LedgerOk(s', c) && SessionsOk(s', c)
  {
    assert forall h :: Held(s', h) == Held(s, h) by {
      forall h ensures Held(s', h) == Held(s, h) { assert SameHolder(s, s', h); }
    }
    assert forall i :: i in c ==> SameHolder(s, s', c[i]);
  }

  /** The other holders, seen from the instances they hold. */
  lemma OthersFramed(s: State, s': State, c: Ledger, i: InstanceId, to: Holder)
    requires LedgerOk(s, c) && Held(s, to) in {None, Some(i)}
    requires forall h :: h != to && Held(s, h) != Some(i) ==> SameHolder(s, s', h)
    ensures forall j :: j in c && j != i ==> c[j] != to && SameHolder(s, s', c[j])
  {
    forall j | j in c && j != i ensures c[j] != to && SameHolder(s, s', c[j]) {
      assert Held(s, c[j]) == Some(j);
    }
  }

  /** The instance i passes from its holder to another place, bound as before. */
  lemma HolderMoved(s: State, s': State, c: Ledger, i: InstanceId, to: Holder)
    requires LedgerOk(s, c) && SessionsOk(s, c)
    requires s'.sessions == s.sessions && SameInstances(s, s')
    requires i in c && c[i] != to && Held(s, to).None?
    requires Held(s', c[i]).None? && Held(s', to) == Some(i)
    requires StillBound(s, c[i]) && StillBound(s', to) && HolderName(s', to) == HolderName(s, c[i])
    requires forall h :: h != c[i] && h != to ==> SameHolder(s, s', h)
    ensures LedgerOk(s', c[i := to]) && SessionsOk(s', c[i := to])
  {
    OthersFramed(s, s', c, i, to);
    LedgerFollows(s, s', c, i, to);
    SessionsFollow(s, s', c, i, to);
  }

  lemma LedgerFollows(s: State, s': State, c: Ledger, i: InstanceId, to: Holder)
    requires LedgerOk(s, c) && SameInstances(s, s') && i in c && c[i] != to
    requires Held(s', c[i]).None? && Held(s', to) == Some(i) && HolderName(s', to) == HolderName(s, c[i])
    requires forall h :: h != c[i] && h != to ==> SameHolder(s, s', h)
    requires forall j :: j in c && j != i ==> c[j] != to && SameHolder(s, s', c[j])
    ensures LedgerOk(s', c[i := to])
  {
    forall h | Held(s', h).Some? ensures Held(s', h).value in c[i := to] && c[i := to][Held(s', h).value] == h {
      if h != to { assert SameHolder(s, s', h); }
    }
  }

  lemma SessionsFollow(s: State, s': State, c: Ledger, i: InstanceId, to: Holder)
    requires SessionsOk(s, c) && s'.sessions == s.sessions && i in c
    requires StillBound(s, c[i]) && StillBound(s', to) && HolderName(s', to) == HolderName(s, c[i])
    requires forall j :: j in c ==> Held(s, c[j]) == Some(j)
    requires forall j :: j in c && j != i ==> c[j] != to && SameHolder(s, s', c[j])
    ensures SessionsOk(s', c[i := to])
  {
  }

  /** The holder of i detaches the session of the instance. */
  lemma HolderUnbound(s: State, s': State, c: Ledger, i: InstanceId)
    requires LedgerOk(s, c) && SessionsOk(s, c)
    requires i in c && StillBound(s, c[i])
    requires s'.sessions == s.sessions - {HolderName(s, c[i])} && SameInstances(s, s')
    requires Held(s', c[i]) == Some(i) && !StillBound(s', c[i]) && HolderName(s', c[i]) == HolderName(s, c[i])
    requires forall h :: h != c[i] ==> SameHolder(s, s', h)
    ensures LedgerOk(s', c) && SessionsOk(s', c)
  {
    forall j | j in c && j != i ensures c[j] != c[i] && SameHolder(s, s', c[j]) {
      assert Held(s, c[j]) == Some(j);
    }
    LedgerUnbound(s, s', c, i);
    SessionsUnbound(s, s', c, i);
  }

  lemma LedgerUnbound(s: State, s': State, c: Ledger, i: InstanceId)
    requires LedgerOk(s, c) && i in c && SameInstances(s, s')
    requires Held(s', c[i]) == Some(i) && HolderName(s', c[i]) == HolderName(s, c[i])
    requires forall h :: h != c[i] ==> SameHolder(s, s', h)
    requires forall j :: j in c && j != i ==> c[j] != c[i] && SameHolder(s, s', c[j])
    ensures LedgerOk(s', c)
  {
    forall h | Held(s', h).Some? ensures Held(s', h).value in c && c[Held(s', h).value] == h {
      if h != c[i] { assert SameHolder(s, s', h); }
    }
  }

  lemma SessionsUnbound(s: State, s': State, c: Ledger, i: InstanceId)
    requires SessionsOk(s, c) && i in c && StillBound(s, c[i]) && !StillBound(s', c[i])
    requires s'.sessions == s.sessions - {HolderName(s, c[i])}
    requires forall j :: j in c ==> Held(s, c[j]) == Some(j)
    requires forall j :: j in c && j != i ==> c[j] != c[i] && SameHolder(s, s', c[j])
    ensures SessionsOk(s', c)
  {
  }

  /** The holder of i, already unbound, closes the instance and forgets it. */
  lemma HolderReleased(s: State, s': State, c: Ledger, i: InstanceId)
    requires LedgerOk(s, c) && SessionsOk(s, c)
    requires i in c && !StillBound(s, c[i])
    requires s'.sessions == s.sessions && |s'.instances| == |s.instances|
    requires s'.instances == s.instances[i := s.instances[i].(closes := s.instances[i].closes + 1)]
    requires Held(s', c[i]).None?
    requires forall h :: h != c[i] ==> SameHolder(s, s', h)
    ensures LedgerOk(s', c - {i}) && SessionsOk(s', c - {i})
  {
    forall j | j in c && j != i ensures c[j] != c[i] && SameHolder(s, s', c[j]) {
      assert Held(s, c[j]) == Some(j);
    }
    forall h | Held(s', h).Some? ensures Held(s', h).value in c - {i} && (c - {i})[Held(s', h).value] == h {
      assert SameHolder(s, s', h);
    }
  }

  /** A new instance is attached under a name that has no session. */
  lemma HolderAdded(s: State, s': State, c: Ledger, name: string, h0: Holder)
    requires LedgerOk(s, c) && SessionsOk(s, c)
    requires name !in s.sessions && Held(s, h0).None?
    requires s'.sessions == s.sessions[name := |s.instances|]
    requires |s'.instances| == |s.instances| + 1 && s'.instances[..|s.instances|] == s.instances
    requires s'.instances[|s.instances|].name == name && s'.instances[|s.instances|].closes == 0
    requires Held(s', h0) == Some(|s.instances|) && StillBound(s', h0) && HolderName(s', h0) == name
    requires forall h :: h != h0 ==> SameHolder(s, s', h)
    ensures LedgerOk(s', c[|s.instances| := h0]) && SessionsOk(s', c[|s.instances| := h0])
  {
    var i := |s.instances|;
    assert forall h :: Held(s, h) != Some(i);
    OthersFramed(s, s', c, i, h0);
    assert LedgerOk(s', c[i := h0]) by {
      assert forall j :: 0 <= j < i ==> s'.instances[j] == s'.instances[..i][j] == s.instances[j];
      forall h | Held(s', h).Some? ensures Held(s', h).value in c[i := h0] && c[i := h0][Held(s', h).value] == h {
        if h != h0 { assert SameHolder(s, s', h); }
      }
    }
    SessionsGrow(s, s', c, i, h0);
  }

  lemma SessionsGrow(s: State, s': State, c: Ledger, i: InstanceId, h0: Holder)
    requires SessionsOk(s, c) && i !in c && HolderName(s', h0) !in s.sessions
    requires s'.sessions == s.sessions[HolderName(s', h0) := i] && StillBound(s', h0)
    requires forall j :: j in c ==> Held(s, c[j]) == Some(j)
    requires forall j :: j in c ==> c[j] != h0 && SameHolder(s, s', c[j])
    ensures SessionsOk(s', c[i := h0])
  {
  }

  /** The entries keep their statuses and every stop and pending start stays what it was. */
  lemma StatusFramed(s: State, s': State)
    requires StatusOk(s) && s'.services == s.services
    requires forall t, n :: IsStop(s', t, n) == IsStop(s, t, n)
    requires forall t, n :: IsPendingStart(s', t, n) == IsPendingStart(s, t, n)
    ensures StatusOk(s')
  {
    forall n | n in s.services && s.services[n].status == Starting ensures exists t :: IsPendingStart(s', t, n) {
      var t :| IsPendingStart(s, t, n);
      assert IsPendingStart(s', t, n);
    }
    forall n | n in s.services && s.services[n].status == Stopping ensures exists t :: IsStop(s', t, n) {
      var t :| IsStop(s, t, n);
      assert IsStop(s', t, n);
    }
  }

  /** Only the entry `name` changes, to a status that no stop is behind. */
  lemma StatusSet(s: State, s': State, name: string)
    requires StatusOk(s)
    requires name in s'.services && s'.services.Keys == s.services.Keys + {name}
    requires forall n :: n in s.services && n != name ==> s'.services[n] == s.services[n]
    requires IsRunning(s'.services[name].status) <==> s'.services[name].loaded.Some?
    requires s'.services[name].status != Stopping && forall t :: !IsStop(s', t, name)
    requires s'.services[name].status == Starting ==> exists t :: IsPendingStart(s', t, name)
    requires forall t, n :: n != name ==> IsStop(s', t, n) == IsStop(s, t, n)
    requires forall t, n :: n != name ==> IsPendingStart(s', t, n) == IsPendingStart(s, t, n)
    ensures StatusOk(s')
  {
    forall n | n in s'.services && s'.services[n].status == Starting ensures exists t :: IsPendingStart(s', t, n) {
      if n != name {
        var t :| IsPendingStart(s, t, n);
        assert IsPendingStart(s', t, n);
      }
    }
    forall n | n in s'.services && s'.services[n].status == Stopping ensures exists t :: IsStop(s', t, n) {
      var t :| IsStop(s, t, n);
      assert IsStop(s', t, n);
    }
  }

  // ---------- Every step keeps the invariant ----------

  lemma BeginKeeps(s: State, e: Entry, name: string, tempDir: string, c: Ledger)
    requires Inv(s, c)
    requires e.status == Starting && e.loaded.None?
    requires name in s.services ==> s.services[name].loaded.None? && s.services[name].status != Stopping
    ensures Inv(Begin(s, s.services[name := e], name, tempDir), c)
  {
    var s' := Begin(s, s.services[name := e], name, tempDir);
    assert Start(s.starts) !in s.tasks;
    HoldersFramed(s, s', c);
    BeginKeepsStatus(s, e, name, tempDir);
  }

  lemma BeginKeepsStatus(s: State, e: Entry, name: string, tempDir: string)
    requires StatusOk(s) && Start(s.starts) !in s.tasks
    requires e.status == Starting && e.loaded.None?
    requires name in s.services ==> s.services[name].status != Stopping
    ensures StatusOk(Begin(s, s.services[name := e], name, tempDir))
  {
    var s' := Begin(s, s.services[name := e], name, tempDir);
    assert forall t, n :: IsStop(s', t, n) == IsStop(s, t, n);
    assert IsPendingStart(s', Start(s.starts), name);
    StatusSet(s, s', name);
  }

  lemma ScanKeeps(s: State, found: set<string>, c: Ledger)
    requires Inv(s, c)
    ensures Inv(Step(s, Scan(found)), c)
  {
    var s' := Step(s, Scan(found));
    HoldersFramed(s, s', c);
    ScanKeepsStatus(s, found);
  }

  lemma ScanKeepsStatus(s: State, found: set<string>)
    requires StatusOk(s)
    ensures StatusOk(Step(s, Scan(found)))
  {
    var s' := Step(s, Scan(found));
    assert forall t, n :: IsStop(s', t, n) == IsStop(s, t, n);
    forall n | n in s'.services && s'.services[n].status == Starting ensures exists t :: IsPendingStart(s', t, n) {
      var t :| IsPendingStart(s, t, n);
      assert IsPendingStart(s', t, n);
    }
    forall n | n in s'.services && s'.services[n].status == Stopping ensures exists t :: IsStop(s', t, n) {
      var t :| IsStop(s, t, n);
      assert IsStop(s', t, n);
    }
  }

  /** Nothing changes but task t and, perhaps, sessions, records and instances. */
  ghost predicate OnlyTask(s: State, s': State, t: TaskId) {
    && s'.services == s.services && s'.starts == s.starts
    && forall u :: u != t ==> (u in s'.tasks <==> u in s.tasks) && (u in s.tasks ==> s'.tasks[u] == s.tasks[u])
  }

  lemma OneTask(s: State, s': State, t: TaskId)
    requires OnlyTask(s, s', t)
    ensures forall h :: h != InTask(t) ==> SameHolder(s, s', h)
  {
  }

  lemma OneTaskStatus(s: State, s': State, t: TaskId)
    requires StatusOk(s) && OnlyTask(s, s', t)
    requires forall n :: IsStop(s', t, n) == IsStop(s, t, n) && IsPendingStart(s', t, n) == IsPendingStart(s, t, n)
    ensures StatusOk(s')
  {
    assert forall u, n :: IsStop(s', u, n) == IsStop(s, u, n);
    assert forall u, n :: IsPendingStart(s', u, n) == IsPendingStart(s, u, n);
    StatusFramed(s, s');
  }

  /** Task t moves on, holding what it held and bound as it was. */
  lemma TaskHolders(s: State, s': State, t: TaskId, c: Ledger)
    requires LedgerOk(s, c) && SessionsOk(s, c) && OnlyTask(s, s', t) && t in s.tasks
    requires s'.sessions == s.sessions && SameInstances(s, s') && SameHolder(s, s', InTask(t))
    ensures LedgerOk(s', c) && SessionsOk(s', c)
  {
    OneTask(s, s', t);
    HoldersFramed(s, s', c);
  }

  /** A starter moves to a phase with the same instance, bound as before and as pending as before. */
  lemma PhaseMoved(s: State, t: TaskId, phase: StartPhase, c: Ledger)
    requires Inv(s, c) && t in s.tasks && s.tasks[t].Starter?
    requires var task := s.tasks[t].(start := phase);
      TaskHolds(task) == TaskHolds(s.tasks[t]) && TaskBound(task) == TaskBound(s.tasks[t])
          && Pending(task) == Pending(s.tasks[t])
    ensures Inv(To(s, t, phase), c)
  {
    var s' := To(s, t, phase);
    TaskHolders(s, s', t, c);
    OneTaskStatus(s, s', t);
  }

  lemma AttachKeeps(s: State, t: TaskId, c: Ledger)
    requires Inv(s, c) && InPhase(s, t, Loading) && s.tasks[t].name !in s.sessions
    ensures var i := |s.instances|; var task := s.tasks[t];
      Inv(To(s.(sessions := s.sessions[task.name := i],
          instances := s.instances + [Instance(task.name, task.tempDir, false, 0)]),
             t, Attached(i)), c[i := InTask(t)])
  {
    var i := |s.instances|;
    var task := s.tasks[t];
    var s' := To(s.(sessions := s.sessions[task.name := i],
        instances := s.instances + [Instance(task.name, task.tempDir, false, 0)]),
                 t, Attached(i));
    OneTask(s, s', t);
    HolderAdded(s, s', c, task.name, InTask(t));
    OneTaskStatus(s, s', t);
  }

  lemma LoaderDetachKeeps(s: State, t: TaskId, i: InstanceId, c: Ledger)
    requires Inv(s, c) && InPhase(s, t, Attached(i))
    ensures Inv(To(s.(sessions := s.sessions - {s.tasks[t].name}), t, Unbound(i)), c)
  {
    var s' := To(s.(sessions := s.sessions - {s.tasks[t].name}), t, Unbound(i));
    assert Held(s, InTask(t)) == Some(i);
    OneTask(s, s', t);
    HolderUnbound(s, s', c, i);
    OneTaskStatus(s, s', t);
  }

  /** Task t closes the instance it held unbound. */
  lemma TaskReleases(s: State, s': State, t: TaskId, i: InstanceId, c: Ledger)
    requires LedgerOk(s, c) && SessionsOk(s, c) && OnlyTask(s, s', t)
    requires Held(s, InTask(t)) == Some(i) && !StillBound(s, InTask(t)) && Held(s', InTask(t)).None?
    requires s'.sessions == s.sessions && i < |s.instances|
    requires s'.instances == s.instances[i := s.instances[i].(closes := s.instances[i].closes + 1)]
    ensures LedgerOk(s', c - {i}) && SessionsOk(s', c - {i})
  {
    OneTask(s, s', t);
    HolderReleased(s, s', c, i);
  }

  lemma LoaderCloseHolders(s: State, t: TaskId, i: InstanceId, c: Ledger)
    requires LedgerOk(s, c) && SessionsOk(s, c) && InPhase(s, t, Unbound(i))
    ensures var s' := To(CloseInstance(s, i), t, LoadFailed); LedgerOk(s', c - {i}) && SessionsOk(s', c - {i})
  {
    assert Held(s, InTask(t)) == Some(i);
    TaskReleases(s, To(CloseInstance(s, i), t, LoadFailed), t, i, c);
  }

  lemma LoaderCloseKeeps(s: State, t: TaskId, i: InstanceId, c: Ledger)
    requires Inv(s, c) && InPhase(s, t, Unbound(i))
    ensures Inv(To(CloseInstance(s, i), t, LoadFailed), c - {i})
  {
    LoaderCloseHolders(s, t, i, c);
    OneTaskStatus(s, To(CloseInstance(s, i), t, LoadFailed), t);
  }

  lemma AcceptHolders(s: State, s': State, t: TaskId, i: InstanceId, name: string, c: Ledger)
    requires LedgerOk(s, c) && SessionsOk(s, c) && t in s.tasks && s.tasks[t].Starter? && s.tasks[t].start.Loaded?
    requires s.tasks[t].name == name && s.tasks[t].start.i == i && name in s.services && s.services[name].loaded.None?
    requires s'.tasks == s.tasks[t := s.tasks[t].(start := Publishing(i))]
    requires s'.sessions == s.sessions && s'.instances == s.instances
    requires s'.services.Keys == s.services.Keys && s'.services[name].loaded == Some(i)
    requires forall n :: n in s.services && n != name ==> s'.services[n] == s.services[n]
    ensures LedgerOk(s', c[i := InEntry(name)]) && SessionsOk(s', c[i := InEntry(name)])
  {
    assert Held(s, InTask(t)) == Some(i);
    forall h | h != InTask(t) && h != InEntry(name) ensures SameHolder(s, s', h) {}
    HolderMoved(s, s', c, i, InEntry(name));
  }

  lemma AcceptKeeps(s: State, t: TaskId, i: InstanceId, degraded: bool, c: Ledger)
    requires Inv(s, c) && InPhase(s, t, Loaded(i, degraded)) && AcceptsStart(s.services, Flags(s), s.tasks[t].name)
    ensures Inv(To(s.(services := AfterFinishStart(s.services, Flags(s), s.tasks[t].name, i, degraded)), t,
            Publishing(i)),
                c[i := InEntry(s.tasks[t].name)])
  {
    var name := s.tasks[t].name;
    var s' := To(s.(services := AfterFinishStart(s.services, Flags(s), name, i, degraded)), t, Publishing(i));
    assert s.services[name].loaded.None?;
    AcceptHolders(s, s', t, i, name, c);
    AcceptStatus(s, t, i, degraded);
  }

  lemma AcceptStatus(s: State, t: TaskId, i: InstanceId, degraded: bool)
    requires StatusOk(s) && InPhase(s, t, Loaded(i, degraded)) && AcceptsStart(s.services, Flags(s), s.tasks[t].name)
    ensures StatusOk(To(s.(services := AfterFinishStart(s.services, Flags(s), s.tasks[t].name, i, degraded)), t,
            Publishing(i)))
  {
    var name := s.tasks[t].name;
    var s' := To(s.(services := AfterFinishStart(s.services, Flags(s), name, i, degraded)), t, Publishing(i));
    assert forall u, n :: IsStop(s', u, n) == IsStop(s, u, n);
    assert forall u :: !IsStop(s, u, name);
    assert forall u, n :: n != name ==> IsPendingStart(s', u, n) == IsPendingStart(s, u, n);
    StatusSet(s, s', name);
  }

  lemma RejectKeeps(s: State, t: TaskId, i: InstanceId, degraded: bool, c: Ledger)
    requires Inv(s, c) && InPhase(s, t, Loaded(i, degraded)) && !AcceptsStart(s.services, Flags(s), s.tasks[t].name)
    ensures Inv(To(s.(services := AfterFinishStart(s.services, Flags(s), s.tasks[t].name, i, degraded)), t,
            Rejected(i, Bound)), c)
  {
    var s' := To(s.(services := AfterFinishStart(s.services, Flags(s), s.tasks[t].name, i, degraded)), t,
        Rejected(i, Bound));
    forall h ensures SameHolder(s, s', h) {}
    HoldersFramed(s, s', c);
    RejectStatus(s, t, i, degraded);
  }

  lemma RejectStatus(s: State, t: TaskId, i: InstanceId, degraded: bool)
    requires StatusOk(s) && InPhase(s, t, Loaded(i, degraded)) && !AcceptsStart(s.services, Flags(s), s.tasks[t].name)
    ensures StatusOk(To(s.(services := AfterFinishStart(s.services, Flags(s), s.tasks[t].name, i, degraded)), t,
            Rejected(i, Bound)))
  {
    var name := s.tasks[t].name;
    var s' := To(s.(services := AfterFinishStart(s.services, Flags(s), name, i, degraded)), t, Rejected(i, Bound));
    assert forall u, n :: IsStop(s', u, n) == IsStop(s, u, n);
    assert forall u, n :: IsPendingStart(s', u, n) == IsPendingStart(s, u, n);
    if name in s.services { StatusFramed(s, s'); } else { StatusSet(s, s', name); }
  }

  lemma FinishFailureKeeps(s: State, t: TaskId, c: Ledger)
    requires Inv(s, c) && InPhase(s, t, LoadFailed)
    ensures Inv(s.(services := AfterFinishFailure(s.services, Flags(s), s.tasks[t].name), tasks := s.tasks - {t}), c)
  {
    var s' := s.(services := AfterFinishFailure(s.services, Flags(s), s.tasks[t].name), tasks := s.tasks - {t});
    forall h ensures SameHolder(s, s', h) {}
    HoldersFramed(s, s', c);
    FinishFailureStatus(s, t);
  }

  lemma FinishFailureStatus(s: State, t: TaskId)
    requires StatusOk(s) && InPhase(s, t, LoadFailed)
    ensures StatusOk(s.(services := AfterFinishFailure(s.services, Flags(s), s.tasks[t].name), tasks := s.tasks - {t}))
  {
    var name := s.tasks[t].name;
    var s' := s.(services := AfterFinishFailure(s.services, Flags(s), name), tasks := s.tasks - {t});
    assert forall u, n :: IsStop(s', u, n) == IsStop(s, u, n);
    assert forall u, n :: n != name ==> IsPendingStart(s', u, n) == IsPendingStart(s, u, n);
    if name in s.services && s.services[name].status != Stopping {
      assert forall u :: !IsStop(s, u, name);
      StatusSet(s, s', name);
    } else {
      StatusElsewhere(s, s', name);
    }
  }

  /** The tasks of `name` change, but nothing that its entry, if any, depends on. */
  lemma StatusElsewhere(s: State, s': State, name: string)
    requires StatusOk(s) && s'.services == s.services && (name in s.services ==> s.services[name].status != Starting)
    requires forall t, n :: IsStop(s', t, n) == IsStop(s, t, n)
    requires forall t, n :: n != name ==> IsPendingStart(s', t, n) == IsPendingStart(s, t, n)
    ensures StatusOk(s')
  {
    forall n | n in s.services && s.services[n].status == Starting ensures exists u :: IsPendingStart(s', u, n) {
      var u :| IsPendingStart(s, u, n);
      assert IsPendingStart(s', u, n);
    }
    forall n | n in s.services && s.services[n].status == Stopping ensures exists u :: IsStop(s', u, n) {
      var u :| IsStop(s, u, n);
      assert IsStop(s', u, n);
    }
  }

  lemma PublishKeeps(s: State, t: TaskId, i: InstanceId, c: Ledger)
    requires Inv(s, c) && InPhase(s, t, Publishing(i))
    ensures Inv(s.(records := s.records[s.tasks[t].name := i], tasks := s.tasks - {t}), c)
  {
    var s' := s.(records := s.records[s.tasks[t].name := i], tasks := s.tasks - {t});
    OneTask(s, s', t);
    HoldersFramed(s, s', c);
    OneTaskStatus(s, s', t);
  }

  lemma StopOthers(s: State, s': State, name: string, i: InstanceId)
    requires name in s.services
    requires s'.services == s.services[name := s.services[name].(loaded := None, status := Stopping)]
    requires s'.tasks == s.tasks[Stop(i) := Stopper(name, i, Bound)]
    ensures forall h :: h != InTask(Stop(i)) && h != InEntry(name) ==> SameHolder(s, s', h)
  {
  }

  lemma StopTasks(s: State, s': State, i: InstanceId, name: string, c: Ledger)
    requires TasksOk(s) && LedgerOk(s, c) && Held(s, InEntry(name)) == Some(i) && Stop(i) !in s.tasks
    requires s'.tasks == s.tasks[Stop(i) := Stopper(name, i, Bound)] && s'.instances == s.instances
             && s'.starts == s.starts
    ensures TasksOk(s')
  {
  }

  lemma StopKeeps(s: State, name: string, c: Ledger)
    requires Inv(s, c) && name in s.services && s.services[name].loaded.Some?
    ensures var i := s.services[name].loaded.value;
      Inv(s.(services := s.services[name := s.services[name].(loaded := None, status := Stopping)],
             tasks := s.tasks[Stop(i) := Stopper(name, i, Bound)]), c[i := InTask(Stop(i))])
  {
    var i := s.services[name].loaded.value;
    var s' := s.(services := s.services[name := s.services[name].(loaded := None, status := Stopping)],
                 tasks := s.tasks[Stop(i) := Stopper(name, i, Bound)]);
    StopIsFree(s, i, c, name);
    StopLedger(s, s', name, i, c);
    StopStatus(s, s', name, i);
    StopTasks(s, s', i, name, c);
  }

  lemma StopLedger(s: State, s': State, name: string, i: InstanceId, c: Ledger)
    requires LedgerOk(s, c) && SessionsOk(s, c) && Held(s, InEntry(name)) == Some(i) && Stop(i) !in s.tasks
    requires s'.services == s.services[name := s.services[name].(loaded := None, status := Stopping)]
    requires s'.tasks == s.tasks[Stop(i) := Stopper(name, i, Bound)] && s'.instances == s.instances
             && s'.sessions == s.sessions
    ensures LedgerOk(s', c[i := InTask(Stop(i))]) && SessionsOk(s', c[i := InTask(Stop(i))])
  {
    StopOthers(s, s', name, i);
    HolderMoved(s, s', c, i, InTask(Stop(i)));
  }

  /** No earlier task stops an instance that an entry still holds. */
  lemma StopIsFree(s: State, i: InstanceId, c: Ledger, name: string)
    requires Inv(s, c) && Held(s, InEntry(name)) == Some(i)
    ensures Stop(i) !in s.tasks
  {
    assert Held(s, InTask(Stop(i))) != Some(i);
  }

  /** The entry `name` turns Stopping while a stop of its own begins. */
  lemma StopStatus(s: State, s': State, name: string, i: InstanceId)
    requires StatusOk(s) && name in s.services && s.services[name].status != Stopping && Stop(i) !in s.tasks
    requires s'.services == s.services[name := s.services[name].(loaded := None, status := Stopping)]
    requires s'.tasks == s.tasks[Stop(i) := Stopper(name, i, Bound)]
    ensures StatusOk(s')
  {
    assert IsStop(s', Stop(i), name);
    assert forall t :: !IsStop(s, t, name);
    assert forall t, n :: IsStop(s', t, n) <==> IsStop(s, t, n) || (t == Stop(i) && n == name);
    forall n | n in s'.services && s'.services[n].status == Starting ensures exists u :: IsPendingStart(s', u, n) {
      var u :| IsPendingStart(s, u, n);
      assert IsPendingStart(s', u, n);
    }
    forall n | n in s'.services && s'.services[n].status == Stopping ensures exists u :: IsStop(s', u, n) {
      if n != name {
        var u :| IsStop(s, u, n);
        assert IsStop(s', u, n);
      }
    }
  }

  predicate InCleanup(s: State, t: TaskId, i: InstanceId, c: Cleanup) {
    t in s.tasks && CleanupOf(s.tasks[t]) == Some((i, c))
  }

  /** Task t is replaced by one of the same kind for the same name: a fact about tasks and statuses only. */
  lemma TaskReplaced(s: State, s': State, t: TaskId)
    requires TasksOk(s) && StatusOk(s) && OnlyTask(s, s', t) && t in s.tasks && t in s'.tasks
    requires s'.tasks[t].name == s.tasks[t].name && Pending(s'.tasks[t]) == Pending(s.tasks[t])
    requires s'.tasks[t].Starter? == s.tasks[t].Starter?
    requires !s.tasks[t].Starter? ==> s'.tasks[t].i == s.tasks[t].i
    requires |s'.instances| == |s.instances| && forall i :: 0 <= i < |s.instances| && s.instances[i].closes == 1 ==>
             s'.instances[i].closes == 1
    requires s'.tasks[t].Stopped? ==> s'.tasks[t].i < |s.instances| && s'.instances[s'.tasks[t].i].closes == 1
    ensures TasksOk(s') && StatusOk(s')
  {
    OneTaskStatus(s, s', t);
  }

  lemma CleanupDetachKeeps(s: State, t: TaskId, i: InstanceId, c: Ledger)
    requires Inv(s, c) && InCleanup(s, t, i, Bound)
    ensures Inv(s.(sessions := s.sessions - {s.tasks[t].name},
            tasks := s.tasks[t := WithCleanup(s.tasks[t], Detached)]), c)
  {
    var s' := s.(sessions := s.sessions - {s.tasks[t].name}, tasks := s.tasks[t := WithCleanup(s.tasks[t], Detached)]);
    assert Held(s, InTask(t)) == Some(i);
    OneTask(s, s', t);
    TaskReplaced(s, s', t);
    HolderUnbound(s, s', c, i);
  }

  lemma CleanupRemoveKeeps(s: State, t: TaskId, i: InstanceId, c: Ledger)
    requires Inv(s, c) && InCleanup(s, t, i, Detached)
    ensures Inv(s.(records := s.records - {s.tasks[t].name}, tasks := s.tasks[t := WithCleanup(s.tasks[t], Removed)]),
            c)
  {
    var s' := s.(records := s.records - {s.tasks[t].name}, tasks := s.tasks[t := WithCleanup(s.tasks[t], Removed)]);
    TaskReplaced(s, s', t);
    TaskHolders(s, s', t, c);
  }

  lemma CleanupCloseKeeps(s: State, t: TaskId, i: InstanceId, task': Task, c: Ledger)
    requires Inv(s, c) && InCleanup(s, t, i, Removed)
    requires if s.tasks[t].Starter? then task' == s.tasks[t].(start := LoadFailed)
             else task'.Stopped? && task'.name == s.tasks[t].name && task'.i == i
    ensures Inv(CloseInstance(s, i).(tasks := s.tasks[t := task']), c - {i})
  {
    var s' := CloseInstance(s, i).(tasks := s.tasks[t := task']);
    assert Held(s, InTask(t)) == Some(i);
    TaskReleases(s, s', t, i, c);
    TaskReplaced(s, s', t);
  }

  lemma FinishStopHolders(s: State, s': State, t: TaskId, name: string, status: Status, c: Ledger)
    requires LedgerOk(s, c) && SessionsOk(s, c) && t in s.tasks && s.tasks[t].Stopped?
    requires name in s.services ==> s.services[name].loaded.None?
    requires s' == s.(services := AfterFinishStop(s.services, Flags(s), name, status), tasks := s.tasks - {t})
    ensures LedgerOk(s', c) && SessionsOk(s', c)
  {
    forall h ensures SameHolder(s, s', h) {}
    HoldersFramed(s, s', c);
  }

  lemma FinishStopKeeps(s: State, t: TaskId, c: Ledger)
    requires Inv(s, c) && t in s.tasks && s.tasks[t].Stopped?
    ensures Inv(Step(s, FinishStop(t)), c)
  {
    var s' := Step(s, FinishStop(t));
    var name := s.tasks[t].name;
    assert IsStop(s, t, name);
    FinishStopHolders(s, s', t, name, if s.tasks[t].failed then Failed else Discovered, c);
    FinishStopStatus(s, s', t, name, if s.tasks[t].failed then Failed else Discovered);
  }

  lemma FinishStopStatus(s: State, s': State, t: TaskId, name: string, status: Status)
    requires StatusOk(s) && IsStop(s, t, name) && status in {Failed, Discovered}
    requires s'.services == AfterFinishStop(s.services, Flags(s), name, status) && s'.tasks == s.tasks - {t}
    ensures StatusOk(s')
  {
    assert forall u :: IsStop(s', u, name) ==> IsStop(s, u, name) && u != t;
    assert forall u, n :: n != name ==> IsStop(s', u, n) == IsStop(s, u, n);
    assert forall u, n :: IsPendingStart(s', u, n) == IsPendingStart(s, u, n);
    StatusSet(s, s', name);
  }

  lemma CloseAllTasks(s: State, s': State, c: Ledger)
    requires TasksOk(s) && LedgerOk(s, c) && TakesAll(s, s', c)
    ensures TasksOk(s')
  {
  }

  lemma CloseAllKeeps(s: State, c: Ledger)
    requires Inv(s, c)
    ensures Inv(CloseStep(s), NextLedger(s, CloseAll, c))
  {
    var s' := CloseStep(s);
    CloseTakesAll(s, c);
    CloseAllLedger(s, s', c);
    CloseAllTasks(s, s', c);
    CloseAllStatus(s, s', c);
  }

  ghost predicate TakesAll(s: State, s': State, c: Ledger) {
    && s'.services == AfterClose(s.services, Flags(s)) && s'.sessions == s.sessions && s'.instances == s.instances
    && s'.starts == s.starts
    && (forall i :: i in c && c[i].InEntry? ==> Stop(i) !in s.tasks)
    && (forall t :: t in s'.tasks <==> t in s.tasks || (t.Stop? && t.i in c && c[t.i].InEntry?))
    && (forall t :: t in s.tasks ==> s'.tasks[t] == s.tasks[t])
    && (forall i :: i in c && c[i].InEntry? ==> s'.tasks[Stop(i)] == Stopper(c[i].name, i, Bound))
  }

  lemma CloseTaken(s: State, c: Ledger)
    requires LedgerOk(s, c)
    ensures forall i :: i in LoadedInstances(s.services) <==> i in c && c[i].InEntry?
  {
    var taken := LoadedInstances(s.services);
    forall i ensures i in taken <==> i in c && c[i].InEntry? {
      if i in taken {
        var n :| n in s.services && s.services[n].loaded == Some(i);
        assert Held(s, InEntry(n)) == Some(i);
      }
      if i in c && c[i].InEntry? { assert s.services[c[i].name].loaded == Some(i); }
    }
  }

  lemma CloseStopsAreFree(s: State, c: Ledger)
    requires Inv(s, c)
    ensures forall i :: i in c && c[i].InEntry? ==> Stop(i) !in s.tasks && s.instances[i].name == c[i].name
  {
    forall i | i in c && c[i].InEntry? ensures Stop(i) !in s.tasks {
      StopIsFree(s, i, c, c[i].name);
    }
  }

  lemma CloseTakesAll(s: State, c: Ledger)
    requires Inv(s, c)
    ensures TakesAll(s, CloseStep(s), c)
  {
    CloseTaken(s, c);
    CloseStopsAreFree(s, c);
  }

  lemma CloseAllLedger(s: State, s': State, c: Ledger)
    requires LedgerOk(s, c) && SessionsOk(s, c) && TakesAll(s, s', c)
    ensures LedgerOk(s', NextLedger(s, CloseAll, c)) && SessionsOk(s', NextLedger(s, CloseAll, c))
  {
    var c' := NextLedger(s, CloseAll, c);
    CloseAllSessions(s, s', c);
    CloseAllHolders(s, s', c);
    forall h | Held(s', h).Some? ensures Held(s', h).value in c' && c'[Held(s', h).value] == h {
      CloseAllInverse(s, s', c, h);
    }
  }

  lemma CloseAllSessions(s: State, s': State, c: Ledger)
    requires LedgerOk(s, c) && SessionsOk(s, c) && TakesAll(s, s', c)
    ensures SessionsOk(s', NextLedger(s, CloseAll, c))
  {
    CloseAllHolders(s, s', c);
    var c' := NextLedger(s, CloseAll, c);
    assert forall i :: i in c ==>
        HolderName(s', c'[i]) == HolderName(s, c[i]) && StillBound(s', c'[i]) == StillBound(s, c[i]);
  }

  lemma CloseAllInverse(s: State, s': State, c: Ledger, h: Holder)
    requires LedgerOk(s, c) && TakesAll(s, s', c) && Held(s', h).Some?
    ensures var i := Held(s', h).value; i in c && h == if c[i].InEntry? then InTask(Stop(i)) else c[i]
  {
    if h.InTask? && h.t in s.tasks { assert Held(s, h) == Held(s', h); }
  }

  lemma CloseAllHolders(s: State, s': State, c: Ledger)
    requires LedgerOk(s, c) && TakesAll(s, s', c)
    ensures forall i :: i in c ==> var h := if c[i].InEntry? then InTask(Stop(i)) else c[i];
      Held(s', h) == Some(i) && HolderName(s', h) == HolderName(s, c[i]) && StillBound(s', h) == StillBound(s, c[i])
  {
    forall i | i in c ensures Held(s, c[i]) == Some(i) {}
  }

  lemma CloseAllStops(s: State, s': State, c: Ledger, u: TaskId, n: string)
    requires LedgerOk(s, c) && StatusOk(s) && TakesAll(s, s', c) && IsStop(s', u, n)
    ensures n in s'.services && s'.services[n].status == Stopping
    ensures IsStop(s, u, n) || (s.services[n].loaded.Some? && u == Stop(s.services[n].loaded.value))
  {
    if !IsStop(s, u, n) { assert Held(s, c[u.i]) == Some(u.i); }
  }

  lemma CloseAllStopping(s: State, s': State, c: Ledger)
    requires LedgerOk(s, c) && StatusOk(s) && TakesAll(s, s', c)
    ensures forall n :: n in s'.services && s'.services[n].status == Stopping ==> exists u :: IsStop(s', u, n)
  {
    forall n | n in s'.services && s'.services[n].status == Stopping ensures exists u :: IsStop(s', u, n) {
      if s.services[n].loaded.Some? {
        assert Held(s, InEntry(n)).Some?;
        assert IsStop(s', Stop(s.services[n].loaded.value), n);
      } else {
        var u :| IsStop(s, u, n);
        assert IsStop(s', u, n);
      }
    }
  }

  lemma OneStopEach(s: State, s': State)
    requires StatusOk(s) && s'.services.Keys == s.services.Keys
    requires forall u, n :: IsStop(s', u, n) ==>
               && n in s.services
               && (IsStop(s, u, n) || (s.services[n].loaded.Some? && u == Stop(s.services[n].loaded.value)))
    ensures forall t, u, n :: IsStop(s', t, n) && IsStop(s', u, n) ==> t == u
  {
  }

  lemma CloseAllStopped(s: State, s': State, c: Ledger)
    requires LedgerOk(s, c) && StatusOk(s) && TakesAll(s, s', c)
    ensures forall u, n :: IsStop(s', u, n) ==>
              && n in s'.services && s'.services[n].status == Stopping
              && (IsStop(s, u, n) || (s.services[n].loaded.Some? && u == Stop(s.services[n].loaded.value)))
  {
    forall u, n | IsStop(s', u, n)
      ensures n in s'.services && s'.services[n].status == Stopping
      ensures IsStop(s, u, n) || (s.services[n].loaded.Some? && u == Stop(s.services[n].loaded.value))
    {
      CloseAllStops(s, s', c, u, n);
    }
  }

  lemma CloseAllStarting(s: State, s': State)
    requires StatusOk(s) && s'.services == AfterClose(s.services, Flags(s))
    ensures forall n :: n in s'.services ==>
              && s'.services[n].status != Starting
              && (IsRunning(s'.services[n].status) <==> s'.services[n].loaded.Some?)
  {
  }

  lemma CloseAllStatus(s: State, s': State, c: Ledger)
    requires LedgerOk(s, c) && StatusOk(s) && TakesAll(s, s', c)
    ensures StatusOk(s')
  {
    CloseAllStopping(s, s', c);
    CloseAllStopped(s, s', c);
    OneStopEach(s, s');
    CloseAllStarting(s, s');
  }

  /** Only the degraded flags of instances and the records change. */
  lemma DegradedKeeps(s: State, s': State, c: Ledger)
    requires Inv(s, c) && SameInstances(s, s')
    requires s'.services == s.services && s'.tasks == s.tasks && s'.sessions == s.sessions && s'.starts == s.starts
    ensures Inv(s', c)
  {
    DegradedHolders(s, s', c);
    assert forall t, n :: IsStop(s', t, n) == IsStop(s, t, n) && IsPendingStart(s', t, n) == IsPendingStart(s, t, n);
    StatusFramed(s, s');
  }

  lemma DegradedHolders(s: State, s': State, c: Ledger)
    requires LedgerOk(s, c) && SessionsOk(s, c) && SameInstances(s, s')
    requires s'.services == s.services && s'.tasks == s.tasks && s'.sessions == s.sessions
    ensures LedgerOk(s', c) && SessionsOk(s', c)
  {
    assert forall h :: SameHolder(s, s', h);
    HoldersFramed(s, s', c);
  }

  lemma MarkDegradedKeeps(s: State, name: string, c: Ledger)
    requires Inv(s, c) && name in s.sessions
    ensures Inv(Step(s, MarkDegraded(name)), c)
  {
    DegradedKeeps(s, Step(s, MarkDegraded(name)), c);
  }

  /** Only the records and the callback differ, neither of which holds anything. */
  lemma RelistedKeeps(s: State, s': State, c: Ledger)
    requires Inv(s, c) && s' == s.(records := s'.records, callback := s'.callback)
    ensures Inv(s', c)
  {
    DegradedKeeps(s, s', c);
  }

  lemma ServiceKeeps(s: State, a: Action, c: Ledger)
    requires Inv(s, c) && OfService(a)
    ensures Inv(Step(s, a), NextLedger(s, a, c))
  {
    match a
    case Scan(found) => ScanKeeps(s, found, c);
    case StartByName(raw, tempDir) =>
      var name := Trim(raw);
      if name != "" && StartByNameOutcome(s.services, Flags(s), name) == Begun {
        BeginKeeps(s, s.services[name].(status := Starting, tempDir := tempDir), name, tempDir, c);
      }
    case Load(name, tempDir) =>
      if Trim(name) != "" && LoadOutcome(s.services, Flags(s), name) == Begun {
        BeginKeeps(s, Entry(true, None, tempDir, Starting), name, tempDir, c);
      }
    case StopByName(raw) =>
      if Trim(raw) != "" && StopOutcomeOf(s.services, Flags(s), Trim(raw)).Draining? { StopKeeps(s, Trim(raw), c); }
  }

  lemma LoadingKeeps(s: State, a: Action, c: Ledger)
    requires Inv(s, c) && OfLoader(a) && InPhase(s, a.t, Loading)
    requires a.AttachSession? ==> Proper(s.tasks[a.t].name)
    ensures Inv(StarterStep(s, a), NextLedger(s, a, c))
  {
    if a.AbortLoad? || (a.AttachSession? && s.callback.Free? && s.tasks[a.t].name in s.sessions) {
      PhaseMoved(s, a.t, LoadFailed, c);
    } else if a.AttachSession? && s.callback.Free? {
      AttachKeeps(s, a.t, c);
    }
  }

  lemma AttachedKeeps(s: State, a: Action, i: InstanceId, c: Ledger)
    requires Inv(s, c) && OfLoader(a) && InPhase(s, a.t, Attached(i))
    ensures Inv(StarterStep(s, a), NextLedger(s, a, c))
  {
    if a.LoaderReturn? {
      PhaseMoved(s, a.t, Loaded(i, i in Flags(s)), c);
    } else if a.LoaderDetach? && s.callback.Free? {
      LoaderDetachKeeps(s, a.t, i, c);
    }
  }

  lemma LoaderKeeps(s: State, a: Action, c: Ledger)
    requires Inv(s, c) && OfLoader(a)
    requires a.t in s.tasks && s.tasks[a.t].Starter?
    requires a.AttachSession? ==> Trim(s.tasks[a.t].name) == s.tasks[a.t].name && s.tasks[a.t].name != ""
    ensures Inv(StarterStep(s, a), NextLedger(s, a, c))
  {
    match s.tasks[a.t].start
    case Loading => LoadingKeeps(s, a, c);
    case Attached(i) => AttachedKeeps(s, a, i, c);
    case Unbound(i) => if a.LoaderClose? { LoaderCloseKeeps(s, a.t, i, c); }
    case _ =>
  }

  lemma AcceptedStep(s: State, t: TaskId, i: InstanceId, degraded: bool, c: Ledger)
    requires InPhase(s, t, Loaded(i, degraded)) && AcceptsStart(s.services, Flags(s), s.tasks[t].name)
    ensures StarterStep(s, FinishStart(t)) ==
            To(s.(services := AfterFinishStart(s.services, Flags(s), s.tasks[t].name, i, degraded)), t, Publishing(i))
    ensures NextLedger(s, FinishStart(t), c) == c[i := InEntry(s.tasks[t].name)]
  {
  }

  lemma FinishAccepted(s: State, t: TaskId, i: InstanceId, degraded: bool, c: Ledger)
    requires Inv(s, c) && InPhase(s, t, Loaded(i, degraded)) && AcceptsStart(s.services, Flags(s), s.tasks[t].name)
    ensures Inv(StarterStep(s, FinishStart(t)), NextLedger(s, FinishStart(t), c))
  {
    AcceptedStep(s, t, i, degraded, c);
    AcceptKeeps(s, t, i, degraded, c);
  }

  lemma FinishRejected(s: State, t: TaskId, i: InstanceId, degraded: bool, c: Ledger)
    requires Inv(s, c) && InPhase(s, t, Loaded(i, degraded)) && !AcceptsStart(s.services, Flags(s), s.tasks[t].name)
    ensures Inv(StarterStep(s, FinishStart(t)), NextLedger(s, FinishStart(t), c))
  {
    RejectKeeps(s, t, i, degraded, c);
  }

  lemma FinishStartKeeps(s: State, t: TaskId, c: Ledger)
    requires Inv(s, c) && t in s.tasks && s.tasks[t].Starter?
    ensures Inv(StarterStep(s, FinishStart(t)), NextLedger(s, FinishStart(t), c))
  {
    if s.tasks[t].start.Loaded? {
      if AcceptsStart(s.services, Flags(s), s.tasks[t].name) {
        FinishAccepted(s, t, s.tasks[t].start.i, s.tasks[t].start.degraded, c);
      } else {
        FinishRejected(s, t, s.tasks[t].start.i, s.tasks[t].start.degraded, c);
      }
    }
  }

  lemma ReportKeeps(s: State, a: Action, c: Ledger)
    requires Inv(s, c) && (a.FinishFailure? || a.Publish?)
    requires a.t in s.tasks && s.tasks[a.t].Starter?
    ensures Inv(StarterStep(s, a), c)
  {
    var phase := s.tasks[a.t].start;
    if a.FinishFailure? && phase.LoadFailed? { FinishFailureKeeps(s, a.t, c); }
    else if a.Publish? && phase.Publishing? { PublishKeeps(s, a.t, phase.i, c); }
  }

  lemma CleanupClosed(s: State, a: Action, i: InstanceId, c: Ledger)
    requires Inv(s, c) && a.CleanupClose? && InCleanup(s, a.t, i, Removed)
    ensures Inv(CleanupStep(s, a), NextLedger(s, a, c))
  {
    var task := s.tasks[a.t];
    var after := if task.Starter? then task.(start := LoadFailed) else Stopped(task.name, i, a.failed);
    assert CleanupStep(s, a) == CloseInstance(s, i).(tasks := s.tasks[a.t := after]);
    CleanupCloseKeeps(s, a.t, i, after, c);
  }

  lemma CleanupMoved(s: State, a: Action, i: InstanceId, c: Ledger)
    requires Inv(s, c) && (a.CleanupDetach? || a.CleanupRemove?) && a.t in s.tasks
    requires a.CleanupDetach? ==> InCleanup(s, a.t, i, Bound) && s.callback.Free?
    requires a.CleanupRemove? ==> InCleanup(s, a.t, i, Detached)
    ensures Inv(CleanupStep(s, a), c)
  {
    if a.CleanupDetach? {
      CleanupDetachKeeps(s, a.t, i, c);
    } else {
      CleanupRemoveKeeps(s, a.t, i, c);
    }
  }

  lemma CleanupKeeps(s: State, a: Action, c: Ledger)
    requires Inv(s, c)
    requires OfCleanup(a) && a.t in s.tasks && CleanupOf(s.tasks[a.t]).Some?
    ensures Inv(CleanupStep(s, a), NextLedger(s, a, c))
  {
    var (i, at) := CleanupOf(s.tasks[a.t]).value;
    if (a.CleanupDetach? && at.Bound? && s.callback.Free?) || (a.CleanupRemove? && at.Detached?) {
      CleanupMoved(s, a, i, c);
    } else if a.CleanupClose? && at.Removed? {
      CleanupClosed(s, a, i, c);
    } else {
      assert CleanupStep(s, a) == s;
    }
  }

  lemma StarterKeeps(s: State, a: Action, c: Ledger)
    requires Inv(s, c) && OfStarter(a) && a.t in s.tasks && s.tasks[a.t].Starter?
    requires a.AttachSession? ==> Proper(s.tasks[a.t].name)
    ensures Inv(StarterStep(s, a), NextLedger(s, a, c))
  {
    if OfLoader(a) {
      LoaderKeeps(s, a, c);
    } else if a.FinishStart? {
      FinishStartKeeps(s, a.t, c);
    } else {
      ReportKeeps(s, a, c);
    }
  }

  lemma RestKeeps(s: State, a: Action, c: Ledger)
    requires Inv(s, c) && (a.CloseAll? || a.FinishStop? || a.MarkDegraded? || a.Look? || a.Relist?)
    ensures Inv(Step(s, a), NextLedger(s, a, c))
  {
    match a
    case CloseAll => CloseAllKeeps(s, c);
    case FinishStop(t) => if t in s.tasks && s.tasks[t].Stopped? { FinishStopKeeps(s, t, c); }
    case MarkDegraded(name) => if name in s.sessions { MarkDegradedKeeps(s, name, c); }
    case Look(_) => RelistedKeeps(s, Step(s, a), c);
    case Relist => RelistedKeeps(s, Step(s, a), c);
  }

  /** Every step, enabled or not, keeps the invariant. */
  lemma StepKeeps(s: State, a: Action, c: Ledger)
    requires Inv(s, c) && (a.AttachSession? && a.t in s.tasks ==> Proper(s.tasks[a.t].name))
    ensures Inv(Step(s, a), NextLedger(s, a, c))
  {
    if OfService(a) {
      ServiceKeeps(s, a, c);
    } else if OfStarter(a) {
      StepOfStarter(s, a);
      if a.t in s.tasks && s.tasks[a.t].Starter? {
        StarterKeeps(s, a, c);
      }
    } else if OfCleanup(a) {
      StepOfCleanup(s, a);
      if a.t in s.tasks && CleanupOf(s.tasks[a.t]).Some? {
        CleanupKeeps(s, a, c);
      }
    } else {
      RestKeeps(s, a, c);
    }
  }

  /** The name that an action brings into play, if any. */
  function NewNames(a: Action): set<string> {
    match a
    case StartByName(raw, _) => if Trim(raw) != "" then {Trim(raw)} else {}
    case StopByName(raw) => if Trim(raw) != "" then {Trim(raw)} else {}
    case Load(name, _) => if Trim(name) != "" then {name} else {}
    case _ => {}
  }

  /** Tasks and instances take their names from what was there or from the action. */
  ghost predicate NamesFrom(s: State, s': State, more: set<string>) {
    && (forall t :: t in s'.tasks ==> (t in s.tasks && s'.tasks[t].name == s.tasks[t].name) || s'.tasks[t].name in more)
    && (forall i :: 0 <= i < |s'.instances| ==>
          (i < |s.instances| && s'.instances[i].name == s.instances[i].name) || s'.instances[i].name in more)
  }

  lemma NamesWithin(s: State, s': State, more: set<string>)
    requires NamesFrom(s, s', more)
    ensures Names(s') <= Names(s) + more
  {
    forall n | n in Names(s') ensures n in Names(s) + more {
      if t :| t in s'.tasks && s'.tasks[t].name == n {
        assert n in more || (t in s.tasks && s.tasks[t].name == n);
      } else {
        var i :| 0 <= i < |s'.instances| && s'.instances[i].name == n;
        assert n in more || s.instances[i].name == n;
      }
    }
  }

  lemma StarterTasks(s: State, a: Action)
    requires OfStarter(a) && a.t in s.tasks && s.tasks[a.t].Starter?
    ensures var r := StarterStep(s, a);
      && (forall t :: t != a.t ==> (t in r.tasks <==> t in s.tasks) && (t in s.tasks ==> r.tasks[t] == s.tasks[t]))
      && (a.t in r.tasks ==> r.tasks[a.t].Starter? && r.tasks[a.t].name == s.tasks[a.t].name)
  {
  }

  lemma StarterInstances(s: State, a: Action)
    requires OfStarter(a) && a.t in s.tasks && s.tasks[a.t].Starter?
    ensures var r := StarterStep(s, a);
      && |s.instances| <= |r.instances|
      && forall i :: 0 <= i < |r.instances| ==>
           r.instances[i].name == if i < |s.instances| then s.instances[i].name else s.tasks[a.t].name
  {
  }

  /** A starter's step touches no other task and renames nothing. */
  lemma StarterShape(s: State, a: Action)
    requires OfStarter(a)
    requires a.t in s.tasks && s.tasks[a.t].Starter?
    ensures var r := StarterStep(s, a);
      && (forall t :: t != a.t ==> (t in r.tasks <==> t in s.tasks) && (t in s.tasks ==> r.tasks[t] == s.tasks[t]))
      && (a.t in r.tasks ==> r.tasks[a.t].Starter? && r.tasks[a.t].name == s.tasks[a.t].name)
      && |s.instances| <= |r.instances|
      && forall i :: 0 <= i < |r.instances| ==>
           r.instances[i].name == if i < |s.instances| then s.instances[i].name else s.tasks[a.t].name
  {
    StarterTasks(s, a);
    StarterInstances(s, a);
  }

  lemma StarterNames(s: State, a: Action)
    requires OfStarter(a)
    requires a.t in s.tasks && s.tasks[a.t].Starter?
    ensures Names(StarterStep(s, a)) <= Names(s)
  {
    var s' := StarterStep(s, a);
    StarterShape(s, a);
    NamesWithin(s, s', {s.tasks[a.t].name});
  }

  lemma CleanupNames(s: State, a: Action)
    requires OfCleanup(a) && a.t in s.tasks && CleanupOf(s.tasks[a.t]).Some?
    ensures Names(CleanupStep(s, a)) <= Names(s)
  {
    NamesWithin(s, CleanupStep(s, a), {});
  }

  lemma ServiceNames(s: State, a: Action)
    requires OfService(a)
    ensures Names(Step(s, a)) <= Names(s) + NewNames(a)
  {
    NamesWithin(s, Step(s, a), NewNames(a));
  }

  lemma CloseNames(s: State, c: Ledger)
    requires Inv(s, c)
    ensures Names(CloseStep(s)) <= Names(s)
  {
    CloseTakesAll(s, c);
    NamesWithin(s, CloseStep(s), set i | 0 <= i < |s.instances| :: s.instances[i].name);
  }

  lemma NamesGrow(s: State, a: Action, c: Ledger)
    requires Inv(s, c)
    ensures Names(Step(s, a)) <= Names(s) + NewNames(a)
  {
    if OfService(a) {
      ServiceNames(s, a);
    } else if OfStarter(a) {
      StepOfStarter(s, a);
      if a.t in s.tasks && s.tasks[a.t].Starter? {
        StarterNames(s, a);
      }
    } else if OfCleanup(a) {
      StepOfCleanup(s, a);
      if a.t in s.tasks && CleanupOf(s.tasks[a.t]).Some? {
        CleanupNames(s, a);
      }
    } else if a.CloseAll? {
      CloseNames(s, c);
    } else {
      NamesWithin(s, Step(s, a), {});
    }
  }

  lemma NamesKeep(s: State, a: Action, c: Ledger)
    requires Inv(s, c) && NamesOk(s) && ProperLoad(a)
    ensures NamesOk(Step(s, a))
  {
    if a.StartByName? || a.StopByName? { TrimIdempotent(a.name); }
    NamesGrow(s, a, c);
  }

  // ---------- The theorems, over every run ----------

  ghost predicate ProperRun(actions: seq<Action>) {
    forall a :: a in actions ==> ProperLoad(a)
  }

  lemma {:induction false} RunKeeps(actions: seq<Action>) returns (c: Ledger)
    requires ProperRun(actions)
    ensures Inv(Exec(INIT, actions), c) && NamesOk(Exec(INIT, actions))
  {
    if actions == [] {
      c := map[];
    } else {
      var before := actions[..|actions| - 1];
      var c0 := RunKeeps(before);
      var s, a := Exec(INIT, before), actions[|actions| - 1];
      if a.AttachSession? && a.t in s.tasks { assert s.tasks[a.t].name in Names(s); }
      StepKeeps(s, a, c0);
      NamesKeep(s, a, c0);
      c := NextLedger(s, a, c0);
    }
  }

  /** Everyone responsible for instance i. */
  ghost function Holders(s: State, i: InstanceId): set<Holder> {
    (set n | n in s.services && Held(s, InEntry(n)) == Some(i) :: InEntry(n)) +
    (set t | t in s.tasks && Held(s, InTask(t)) == Some(i) :: InTask(t))
  }

  lemma OneHolder(s: State, c: Ledger, i: InstanceId)
    requires LedgerOk(s, c) && SessionsOk(s, c) && i < |s.instances|
    ensures |Holders(s, i)| + s.instances[i].closes == 1
    ensures forall n :: n in s.sessions && s.sessions[n] == i ==> n == s.instances[i].name && s.instances[i].closes == 0
    ensures forall h :: h in Holders(s, i) && StillBound(s, h) <==>
              h in Holders(s, i) && s.instances[i].name in s.sessions && s.sessions[s.instances[i].name] == i
  {
    if i in c {
      OnlyHolder(s, c, i);
    } else {
      assert forall h :: Held(s, h) != Some(i);
      assert Holders(s, i) == {};
    }
  }

  lemma OnlyHolder(s: State, c: Ledger, i: InstanceId)
    requires LedgerOk(s, c) && i in c
    ensures Holders(s, i) == {c[i]}
  {
    forall h ensures h in Holders(s, i) <==> h == c[i] {
      assert Held(s, c[i]) == Some(i);
      if h in Holders(s, i) { assert Held(s, h) == Some(i); }
    }
  }

  /** Conservation: at every moment of every run an instance is either open, with exactly one holder, or closed
      exactly once, with none. It has a session exactly while its holder has not detached it, under its own name. */
  lemma ExactlyOneHolder(actions: seq<Action>, i: InstanceId)
    requires ProperRun(actions) && i < |Exec(INIT, actions).instances|
    ensures var s := Exec(INIT, actions);
      && |Holders(s, i)| + s.instances[i].closes == 1
      && (forall n :: n in s.sessions && s.sessions[n] == i ==> n == s.instances[i].name && s.instances[i].closes == 0)
      && (forall h :: h in Holders(s, i) && StillBound(s, h) <==>
            h in Holders(s, i) && s.instances[i].name in s.sessions && s.sessions[s.instances[i].name] == i)
  {
    var s := Exec(INIT, actions);
    var c := RunKeeps(actions);
    OneHolder(s, c, i);
  }

  /** No instance is ever in two entries, so that Close takes none twice. */
  lemma LoadedInOneEntry(actions: seq<Action>)
    requires ProperRun(actions)
    ensures DistinctlyLoaded(Exec(INIT, actions).services)
  {
    var s := Exec(INIT, actions);
    var c := RunKeeps(actions);
    forall n | n in s.services && s.services[n].loaded.Some?
      ensures s.services[n].loaded.value in c && c[s.services[n].loaded.value] == InEntry(n)
    {
      assert Held(s, InEntry(n)) == s.services[n].loaded;
    }
  }

  /** With nothing in flight, the attached sessions are exactly the loaded services, and every instance that is
      not loaded has been closed exactly once. */
  lemma QuietMeansConsistent(actions: seq<Action>)
    requires ProperRun(actions) && Exec(INIT, actions).tasks == map[]
    ensures var s := Exec(INIT, actions);
      && s.sessions == (map n | n in s.services && s.services[n].loaded.Some? :: s.services[n].loaded.value)
      && (forall i :: 0 <= i < |s.instances| ==>
            s.instances[i].closes
                == if s.instances[i].name in s.sessions && s.sessions[s.instances[i].name] == i then 0 else 1)
      && (forall n :: n in s.services ==> s.services[n].status !in {Starting, Stopping})
  {
    var s := Exec(INIT, actions);
    var c := RunKeeps(actions);
    forall i | i in c ensures c[i].InEntry? && StillBound(s, c[i]) { assert Held(s, c[i]) == Some(i); }
    forall n | n in s.services && s.services[n].loaded.Some?
      ensures n in s.sessions && s.sessions[n] == s.services[n].loaded.value
    {
      assert Held(s, InEntry(n)).Some?;
    }
    forall n | n in s.sessions ensures n in s.services && s.services[n].loaded == Some(s.sessions[n]) {
      assert Held(s, c[s.sessions[n]]) == Some(s.sessions[n]);
    }
    assert forall t, n :: !IsStop(s, t, n) && !IsPendingStart(s, t, n);
  }

  ghost function Stops(s: State, n: string): set<TaskId> {
    set t | t in s.tasks && IsStop(s, t, n)
  }

  /** No status outlives its cause: running or degraded exactly while an instance is loaded, Stopping exactly
      while exactly one stop of that name is in flight,
          Starting only while some start of that name has yet to report. */
  lemma StatusHasACause(actions: seq<Action>, n: string)
    requires ProperRun(actions)
    ensures var s := Exec(INIT, actions);
      && (n in s.services ==> (IsRunning(s.services[n].status) <==> s.services[n].loaded.Some?))
      && |Stops(s, n)| == (if n in s.services && s.services[n].status == Stopping then 1 else 0)
      && (n in s.services && s.services[n].status == Starting ==> exists t :: IsPendingStart(s, t, n))
  {
    var s := Exec(INIT, actions);
    var c := RunKeeps(actions);
    if n in s.services && s.services[n].status == Stopping {
      var t :| IsStop(s, t, n);
      assert Stops(s, n) == {t};
    } else {
      assert Stops(s, n) == {};
    }
  }
}

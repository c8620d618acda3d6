/** Runs in which the supervisor is never closed while an entry is Starting: no start is refused, the read model misses
    no service whose start has returned, and every loaded service remembers the directory it was extracted to. */
module Orderly {
  import opened Text
  import opened Supervisor
  import opened Protocol
  import opened Ownership
  import opened Steps

  /** A start that has yet to report owns the Starting status of its entry, alone. */
  ghost predicate StartsOk(s: State) {
    && (forall t, n :: IsPendingStart(s, t, n) ==>
          n in s.services && s.services[n].status == Starting && s.services[n].tempDir == s.tasks[t].tempDir)
    && (forall t, u, n :: IsPendingStart(s, t, n) && IsPendingStart(s, u, n) ==> t == u)
  }

  ghost predicate NoneRejected(s: State) {
    forall t :: t in s.tasks && s.tasks[t].Starter? ==> !s.tasks[t].start.Rejected?
  }

  /** The instance that a starter will hand to its entry, if it succeeds. */
  function Carried(task: Task): Option<InstanceId> {
    match task
    case Starter(_, _, Attached(i)) => Some(i)
    case Starter(_, _, Loaded(i, _)) => Some(i)
    case _ => None
  }

  ghost predicate DirsOk(s: State) {
    && (forall n :: n in s.services && s.services[n].loaded.Some? ==>
          s.services[n].loaded.value < |s.instances|
              && s.instances[s.services[n].loaded.value].tempDir == s.services[n].tempDir)
    && (forall t :: t in s.tasks && Carried(s.tasks[t]).Some? ==>
          Carried(s.tasks[t]).value < |s.instances|
              && s.instances[Carried(s.tasks[t]).value].tempDir == s.tasks[t].tempDir)
  }

  predicate IsPublishing(s: State, t: TaskId, n: string, i: InstanceId) {
    t in s.tasks && s.tasks[t].name == n && s.tasks[t].Starter? && s.tasks[t].start == Publishing(i)
  }

  ghost predicate RecordsOk(s: State) {
    forall n :: n in s.services && s.services[n].loaded.Some? && n !in s.records ==>
      exists t :: IsPublishing(s, t, n, s.services[n].loaded.value)
  }

  ghost predicate Order(s: State) {
    StartsOk(s) && NoneRejected(s) && DirsOk(s) && RecordsOk(s)
  }

  // ---------- Begin, Scan, Stop ----------

  lemma RecordsKept(s: State, s': State)
    requires RecordsOk(s) && s'.services == s.services && s.records.Keys <= s'.records.Keys
    requires forall u, n, i :: IsPublishing(s, u, n, i) ==> IsPublishing(s', u, n, i)
    ensures RecordsOk(s')
  {
    forall n | n in s'.services && s'.services[n].loaded.Some? && n !in s'.records
      ensures exists u :: IsPublishing(s', u, n, s'.services[n].loaded.value)
    {
      var u :| IsPublishing(s, u, n, s.services[n].loaded.value);
      assert IsPublishing(s', u, n, s'.services[n].loaded.value);
    }
  }

  /** The starts that have yet to report are the same or fewer, and so are their entries. */
  lemma StartsKept(s: State, s': State)
    requires StartsOk(s)
    requires forall t, n :: IsPendingStart(s', t, n) ==>
               && IsPendingStart(s, t, n) && s'.tasks[t].tempDir == s.tasks[t].tempDir
               && n in s'.services && s'.services[n] == s.services[n]
    ensures StartsOk(s')
  {
  }

  /** Services and tasks are the same, instances keep their directories, and no record is lost. */
  lemma Unaffected(s: State, s': State)
    requires Order(s) && s'.services == s.services && s'.tasks == s.tasks && s.records.Keys <= s'.records.Keys
    requires |s'.instances| == |s.instances|
    requires forall i :: 0 <= i < |s.instances| ==> s'.instances[i].tempDir == s.instances[i].tempDir
    ensures Order(s')
  {
    assert forall u, n :: IsPendingStart(s', u, n) == IsPendingStart(s, u, n);
    StartsKept(s, s');
    RecordsKept(s, s');
  }

  lemma BeginStarts(s: State, s': State, e: Entry, name: string, tempDir: string)
    requires StartsOk(s) && Start(s.starts) !in s.tasks && e.status == Starting && e.tempDir == tempDir
    requires name in s.services ==> s.services[name].status != Starting
    requires s'.services == s.services[name := e]
    requires s'.tasks == s.tasks[Start(s.starts) := Starter(name, tempDir, Loading)]
    ensures StartsOk(s')
  {
    assert forall t, n :: IsPendingStart(s', t, n) <==> IsPendingStart(s, t, n) || (t == Start(s.starts) && n == name);
    assert forall t :: !IsPendingStart(s, t, name);
  }

  lemma BeginOrder(s: State, e: Entry, name: string, tempDir: string)
    requires Order(s) && Start(s.starts) !in s.tasks
    requires e.status == Starting && e.loaded.None? && e.tempDir == tempDir
    requires name in s.services ==> s.services[name].status != Starting
    ensures Order(Begin(s, s.services[name := e], name, tempDir))
  {
    var s' := Begin(s, s.services[name := e], name, tempDir);
    assert forall t, n :: IsPendingStart(s', t, n) <==> IsPendingStart(s, t, n) || (t == Start(s.starts) && n == name);
    BeginStarts(s, s', e, name, tempDir);
    RecordsFramed(s, s', name);
  }

  /** Only the entry `name` changes, and it holds no instance afterwards; no publication is lost. */
  lemma RecordsFramed(s: State, s': State, name: string)
    requires RecordsOk(s) && s'.records == s.records
    requires forall n :: n in s'.services && s'.services[n].loaded.Some? ==>
      n != name && n in s.services && s'.services[n].loaded == s.services[n].loaded
    requires forall t, i, n :: n != name && IsPublishing(s, t, n, i) ==> IsPublishing(s', t, n, i)
    ensures RecordsOk(s')
  {
    forall n | n in s'.services && s'.services[n].loaded.Some? && n !in s'.records
      ensures exists t :: IsPublishing(s', t, n, s'.services[n].loaded.value)
    {
      var t :| IsPublishing(s, t, n, s.services[n].loaded.value);
      assert IsPublishing(s', t, n, s'.services[n].loaded.value);
    }
  }

  lemma ScanStarts(s: State, s': State, found: set<string>)
    requires StartsOk(s) && s'.tasks == s.tasks && s'.services == AfterScan(s.services, Flags(s), found)
    ensures StartsOk(s')
  {
    assert forall t, n :: IsPendingStart(s', t, n) == IsPendingStart(s, t, n);
  }

  lemma ScanRecords(s: State, s': State, found: set<string>)
    requires RecordsOk(s) && s'.tasks == s.tasks && s'.records == s.records
    requires s'.services == AfterScan(s.services, Flags(s), found)
    ensures RecordsOk(s')
  {
    forall n | n in s'.services && s'.services[n].loaded.Some? && n !in s'.records
      ensures exists t :: IsPublishing(s', t, n, s'.services[n].loaded.value)
    {
      var t :| IsPublishing(s, t, n, s.services[n].loaded.value);
      assert IsPublishing(s', t, n, s'.services[n].loaded.value);
    }
  }

  lemma ScanOrder(s: State, found: set<string>)
    requires Order(s)
    ensures Order(Step(s, Scan(found)))
  {
    var s' := Step(s, Scan(found));
    assert forall t, n :: IsPendingStart(s', t, n) == IsPendingStart(s, t, n);
    ScanStarts(s, s', found);
    ScanRecords(s, s', found);
  }

  lemma StoppedDirs(s: State, s': State, name: string, i: InstanceId)
    requires DirsOk(s) && NoneRejected(s) && name in s.services
    requires s' == s.(services := s.services[name := s.services[name].(loaded := None, status := Stopping)],
                      tasks := s.tasks[Stop(i) := Stopper(name, i, Bound)])
    ensures DirsOk(s') && NoneRejected(s')
  {
  }

  lemma StoppedOrder(s: State, name: string)
    requires Order(s) && name in s.services && s.services[name].loaded.Some?
    requires Stop(s.services[name].loaded.value) !in s.tasks && forall t :: !IsPendingStart(s, t, name)
    ensures var i := s.services[name].loaded.value;
      Order(s.(services := s.services[name := s.services[name].(loaded := None, status := Stopping)],
               tasks := s.tasks[Stop(i) := Stopper(name, i, Bound)]))
  {
    var i := s.services[name].loaded.value;
    var s' := s.(services := s.services[name := s.services[name].(loaded := None, status := Stopping)],
                 tasks := s.tasks[Stop(i) := Stopper(name, i, Bound)]);
    assert forall t, n :: IsPendingStart(s', t, n) == IsPendingStart(s, t, n);
    StartsKept(s, s');
    StoppedDirs(s, s', name, i);
    RecordsFramed(s, s', name);
  }

  lemma StopOrder(s: State, name: string)
    requires StatusOk(s) && Order(s) && name in s.services && s.services[name].loaded.Some?
    requires Stop(s.services[name].loaded.value) !in s.tasks
    ensures var i := s.services[name].loaded.value;
      Order(s.(services := s.services[name := s.services[name].(loaded := None, status := Stopping)],
               tasks := s.tasks[Stop(i) := Stopper(name, i, Bound)]))
  {
    assert forall t :: !IsPendingStart(s, t, name);
    StoppedOrder(s, name);
  }

  // ---------- The steps of a starter ----------

  /** A starter moves among phases before its report: the entries and records stay. */
  lemma PhaseOrder(s: State, s': State, t: TaskId, phase: StartPhase)
    requires Order(s) && t in s.tasks && s.tasks[t].Starter? && Pending(s.tasks[t])
    requires s'.services == s.services && s'.records == s.records
    requires s'.tasks == s.tasks[t := s.tasks[t].(start := phase)] && !phase.Publishing? && !phase.Rejected?
    requires |s.instances| <= |s'.instances|
    requires forall i :: 0 <= i < |s.instances| ==> s'.instances[i].tempDir == s.instances[i].tempDir
    requires Carried(s'.tasks[t]).Some? ==>
      Carried(s'.tasks[t]).value < |s'.instances|
          && s'.instances[Carried(s'.tasks[t]).value].tempDir == s.tasks[t].tempDir
    ensures Order(s')
  {
    assert forall u, n :: IsPendingStart(s', u, n) == IsPendingStart(s, u, n);
    StartsKept(s, s');
    RecordsKept(s, s');
  }

  lemma UnboundOrder(s: State, s': State, t: TaskId, a: Action)
    requires Order(s) && t in s.tasks && s.tasks[t].Starter? && s.tasks[t].start.Unbound?
    requires OfLoader(a) && a.t == t && s' == StarterStep(s, a)
    ensures Order(s')
  {
    if s' != s {
      PhaseOrder(s, s', t, LoadFailed);
    }
  }

  /** What the loader brings along was extracted to the directory of its start. */
  lemma LoaderPhase(s: State, a: Action)
    requires DirsOk(s) && OfLoader(a) && a.t in s.tasks && s.tasks[a.t].Starter? && StarterStep(s, a) != s
    requires s.tasks[a.t].start.Loading? || s.tasks[a.t].start.Attached?
    ensures var s', task := StarterStep(s, a), s.tasks[a.t];
            && s'.services == s.services && s'.records == s.records
            && a.t in s'.tasks && s'.tasks[a.t].Starter?
                && s'.tasks == s.tasks[a.t := task.(start := s'.tasks[a.t].start)]
            && !s'.tasks[a.t].start.Publishing? && !s'.tasks[a.t].start.Rejected?
            && |s.instances| <= |s'.instances|
            && (forall i :: 0 <= i < |s.instances| ==> s'.instances[i].tempDir == s.instances[i].tempDir)
            && (Carried(s'.tasks[a.t]).Some? ==>
                  && Carried(s'.tasks[a.t]).value < |s'.instances|
                  && s'.instances[Carried(s'.tasks[a.t]).value].tempDir == task.tempDir)
  {
    assert s.tasks[a.t].start.Attached? ==> Carried(s.tasks[a.t]) == Some(s.tasks[a.t].start.i);
  }

  lemma LoaderOrder(s: State, a: Action)
    requires Order(s) && OfLoader(a)
    requires a.t in s.tasks && s.tasks[a.t].Starter?
    ensures Order(StarterStep(s, a))
  {
    var s' := StarterStep(s, a);
    if s.tasks[a.t].start.Unbound? {
      UnboundOrder(s, s', a.t, a);
    } else if s' != s {
      LoaderPhase(s, a);
      PhaseOrder(s, s', a.t, s'.tasks[a.t].start);
    }
  }

  /** A start that comes to report is never refused. */
  lemma PendingIsAccepted(s: State, c: Ledger, t: TaskId)
    requires Inv(s, c) && StartsOk(s) && t in s.tasks && Pending(s.tasks[t])
    ensures AcceptsStart(s.services, Flags(s), s.tasks[t].name)
  {
    assert IsPendingStart(s, t, s.tasks[t].name);
  }

  lemma AcceptOrder(s: State, c: Ledger, t: TaskId, i: InstanceId, degraded: bool)
    requires Inv(s, c) && Order(s) && InPhase(s, t, Loaded(i, degraded))
    ensures Order(StarterStep(s, FinishStart(t)))
  {
    PendingIsAccepted(s, c, t);
    Accepts(s, t, i, degraded);
    var s' := StarterStep(s, FinishStart(t));
    AcceptStarts(s, s', t, i);
    AcceptDirs(s, s', t, i);
    AcceptRecords(s, s', t, i, s.tasks[t].name);
  }

  /** The start at t has handed its instance to its entry and has yet to publish it. */
  ghost predicate Accepted(s: State, s': State, t: TaskId, i: InstanceId) {
    && t in s.tasks && s.tasks[t].Starter? && s.tasks[t].start.Loaded? && s.tasks[t].start.i == i
    && s'.tasks == Entered(s, t, Publishing(i)) && s'.instances == s.instances && s'.records == s.records
    && var n := s.tasks[t].name;
       n in s.services && s'.services.Keys == s.services.Keys
       && s'.services[n].loaded == Some(i) && s'.services[n].tempDir == s.services[n].tempDir
       && forall m :: m in s.services && m != n ==> s'.services[m] == s.services[m]
  }

  lemma AcceptStarts(s: State, s': State, t: TaskId, i: InstanceId)
    requires StartsOk(s) && NoneRejected(s) && Accepted(s, s', t, i)
    ensures StartsOk(s') && NoneRejected(s')
  {
    assert IsPendingStart(s, t, s.tasks[t].name);
    assert forall u, n :: IsPendingStart(s', u, n) <==> IsPendingStart(s, u, n) && u != t;
    StartsKept(s, s');
  }

  lemma AcceptDirs(s: State, s': State, t: TaskId, i: InstanceId)
    requires StartsOk(s) && DirsOk(s) && Accepted(s, s', t, i)
    ensures DirsOk(s')
  {
    assert IsPendingStart(s, t, s.tasks[t].name);
    assert Carried(s.tasks[t]) == Some(i);
  }

  lemma AcceptRecords(s: State, s': State, t: TaskId, i: InstanceId, name: string)
    requires RecordsOk(s) && s'.records == s.records && t in s.tasks && Pending(s.tasks[t])
    requires IsPublishing(s', t, name, i) && name in s'.services && s'.services[name].loaded == Some(i)
    requires forall n :: n in s'.services && n != name ==> n in s.services && s'.services[n] == s.services[n]
    requires forall u :: u in s.tasks && u != t ==> u in s'.tasks && s'.tasks[u] == s.tasks[u]
    ensures RecordsOk(s')
  {
    forall n | n in s'.services && s'.services[n].loaded.Some? && n !in s'.records
      ensures exists u :: IsPublishing(s', u, n, s'.services[n].loaded.value)
    {
      if n != name {
        var u :| IsPublishing(s, u, n, s.services[n].loaded.value);
        assert IsPublishing(s', u, n, s'.services[n].loaded.value);
      }
    }
  }

  lemma FailedOrder(s: State, s': State, t: TaskId)
    requires Order(s) && InPhase(s, t, LoadFailed) && s.tasks[t].name in s.services
    requires var n := s.tasks[t].name;
             s' == s.(services := s.services[n := s.services[n].(loaded := None, tempDir := "", status := Failed)],
                      tasks := s.tasks - {t})
    ensures Order(s')
  {
    assert IsPendingStart(s, t, s.tasks[t].name);
    assert forall u, n :: IsPendingStart(s', u, n) <==> IsPendingStart(s, u, n) && u != t;
    StartsKept(s, s');
    RecordsFramed(s, s', s.tasks[t].name);
  }

  lemma FailureOrder(s: State, c: Ledger, t: TaskId)
    requires Inv(s, c) && Order(s) && InPhase(s, t, LoadFailed)
    ensures Order(StarterStep(s, FinishFailure(t)))
  {
    PendingIsAccepted(s, c, t);
    FailsStarting(s, t);
    FailedOrder(s, StarterStep(s, FinishFailure(t)), t);
  }

  lemma PublishRecords(s: State, s': State, t: TaskId, i: InstanceId)
    requires RecordsOk(s) && InPhase(s, t, Publishing(i))
    requires s' == s.(records := s.records[s.tasks[t].name := i], tasks := s.tasks - {t})
    ensures RecordsOk(s')
  {
    forall n | n in s'.services && s'.services[n].loaded.Some? && n !in s'.records
      ensures exists u :: IsPublishing(s', u, n, s'.services[n].loaded.value)
    {
      var u :| IsPublishing(s, u, n, s.services[n].loaded.value);
      assert IsPublishing(s', u, n, s'.services[n].loaded.value);
    }
  }

  lemma PublishOrder(s: State, t: TaskId, i: InstanceId)
    requires Order(s) && InPhase(s, t, Publishing(i))
    ensures Order(StarterStep(s, Publish(t)))
  {
    Publishes(s, t, i);
    var s' := StarterStep(s, Publish(t));
    assert forall u, n :: IsPendingStart(s', u, n) == IsPendingStart(s, u, n);
    StartsKept(s, s');
    PublishRecords(s, s', t, i);
  }

  // ---------- Cleanup ----------

  lemma CleanupOrder(s: State, a: Action)
    requires TasksOk(s) && StatusOk(s) && Order(s) && OfCleanup(a)
    requires a.t in s.tasks && CleanupOf(s.tasks[a.t]).Some?
    ensures Order(CleanupStep(s, a))
  {
    var s' := CleanupStep(s, a);
    if s' != s { StopperOrder(s, s', a.t, s'.tasks[a.t]); }
  }

  lemma StopperRecords(s: State, s': State, t: TaskId, task': Task)
    requires RecordsOk(s) && StatusOk(s) && t in s.tasks && !s.tasks[t].Starter? && !task'.Starter?
    requires s'.services == s.services && s'.tasks == s.tasks[t := task']
    requires s'.records in {s.records, s.records - {s.tasks[t].name}}
    ensures RecordsOk(s')
  {
    assert IsStop(s, t, s.tasks[t].name);
    forall n | n in s'.services && s'.services[n].loaded.Some? && n !in s'.records
      ensures exists u :: IsPublishing(s', u, n, s'.services[n].loaded.value)
    {
      assert n != s.tasks[t].name;
      var u :| IsPublishing(s, u, n, s.services[n].loaded.value);
      assert IsPublishing(s', u, n, s'.services[n].loaded.value);
    }
  }

  /** A stop advances: it may take its own record with it, and nobody else's. */
  lemma StopperOrder(s: State, s': State, t: TaskId, task': Task)
    requires Order(s) && StatusOk(s) && t in s.tasks && !s.tasks[t].Starter? && !task'.Starter?
    requires s'.services == s.services && s'.tasks == s.tasks[t := task']
    requires s'.records in {s.records, s.records - {s.tasks[t].name}}
    requires |s'.instances| == |s.instances| && forall i :: 0 <= i < |s.instances| ==>
             s'.instances[i].tempDir == s.instances[i].tempDir
    ensures Order(s')
  {
    assert IsStop(s, t, s.tasks[t].name);
    assert forall u, n :: IsPendingStart(s', u, n) == IsPendingStart(s, u, n);
    StartsKept(s, s');
    StopperRecords(s, s', t, task');
  }

  lemma RestedEntry(s: State, name: string, status: Status)
    requires name in s.services && s.services[name].status == Stopping
    ensures AfterFinishStop(s.services, Flags(s), name, status)
            == s.services[name := s.services[name].(loaded := None, tempDir := "", status := status)]
  {
  }

  lemma FinishStopOrder(s: State, t: TaskId)
    requires StatusOk(s) && Order(s) && t in s.tasks && s.tasks[t].Stopped?
    ensures Order(Step(s, FinishStop(t)))
  {
    var name := s.tasks[t].name;
    assert IsStop(s, t, name);
    var status := if s.tasks[t].failed then Failed else Discovered;
    RestedEntry(s, name, status);
    EntryRestsOrder(s, t, name, s.services[name].(loaded := None, tempDir := "", status := status));
  }

  /** A stop leaves, its entry at rest. */
  lemma EntryRestsOrder(s: State, t: TaskId, name: string, e: Entry)
    requires Order(s) && StatusOk(s) && IsStop(s, t, name) && e.loaded.None?
    ensures Order(s.(services := s.services[name := e], tasks := s.tasks - {t}))
  {
    var s' := s.(services := s.services[name := e], tasks := s.tasks - {t});
    assert forall u, n :: IsPendingStart(s', u, n) == IsPendingStart(s, u, n);
    assert forall u :: !IsPendingStart(s, u, name);
    StartsKept(s, s');
    RecordsFramed(s, s', name);
  }

  lemma EnvironmentOrder(s: State, a: Action)
    requires Order(s) && (a.MarkDegraded? || a.Look? || a.Relist?)
    ensures Order(Step(s, a))
  {
    Unaffected(s, Step(s, a));
  }

  lemma StartOrder(s: State, c: Ledger, name: string, tempDir: string)
    requires Inv(s, c) && Order(s)
    ensures name != "" && StartByNameOutcome(s.services, Flags(s), name) == Begun ==>
              Order(Begin(s, AfterStartByName(s.services, Flags(s), name, tempDir), name, tempDir))
  {
    if name != "" && StartByNameOutcome(s.services, Flags(s), name) == Begun {
      BeginOrder(s, s.services[name].(status := Starting, tempDir := tempDir), name, tempDir);
    }
  }

  lemma LoadOrder(s: State, c: Ledger, name: string, tempDir: string)
    requires Inv(s, c) && Order(s)
    ensures Trim(name) != "" && LoadOutcome(s.services, Flags(s), name) == Begun ==>
              Order(Begin(s, AfterLoad(s.services, Flags(s), name, tempDir), name, tempDir))
  {
    if Trim(name) != "" && LoadOutcome(s.services, Flags(s), name) == Begun {
      BeginOrder(s, Entry(true, None, tempDir, Starting), name, tempDir);
    }
  }

  lemma StopByNameOrder(s: State, c: Ledger, name: string)
    requires Inv(s, c) && Order(s)
    ensures name != "" && StopOutcomeOf(s.services, Flags(s), name).Draining? ==>
              var i := StopOutcomeOf(s.services, Flags(s), name).instance;
              Order(s.(services := AfterStop(s.services, Flags(s), name),
                       tasks := s.tasks[Stop(i) := Stopper(name, i, Bound)]))
  {
    if name != "" && StopOutcomeOf(s.services, Flags(s), name).Draining? {
      StopIsFree(s, s.services[name].loaded.value, c, name);
      StopOrder(s, name);
    }
  }

  lemma ServiceOrder(s: State, c: Ledger, a: Action)
    requires Inv(s, c) && Order(s) && OfService(a)
    ensures Order(Step(s, a))
  {
    match a
    case Scan(found) => ScanOrder(s, found);
    case StartByName(raw, tempDir) => StartOrder(s, c, Trim(raw), tempDir);
    case Load(name, tempDir) => LoadOrder(s, c, name, tempDir);
    case StopByName(raw) => StopByNameOrder(s, c, Trim(raw));
  }

  // ---------- A Close that overtakes no start ----------

  /** No entry is Starting, so that Close turns none to Failed. */
  ghost predicate AtRest(s: State) {
    forall n :: n in s.services ==> s.services[n].status != Starting
  }

  /** An entry is Starting exactly while a start of it has yet to report. */
  lemma AtRestIff(s: State)
    requires StatusOk(s) && StartsOk(s)
    ensures AtRest(s) <==> forall t :: t in s.tasks ==> !Pending(s.tasks[t])
  {
    forall t | t in s.tasks && Pending(s.tasks[t])
      ensures s.tasks[t].name in s.services && s.services[s.tasks[t].name].status == Starting
    {
      assert IsPendingStart(s, t, s.tasks[t].name);
    }
  }

  /** Close adds tasks, but no starts. */
  lemma CloseStarters(s: State)
    ensures forall t :: t in CloseStep(s).tasks && CloseStep(s).tasks[t].Starter? ==>
              t in s.tasks && CloseStep(s).tasks[t] == s.tasks[t]
  {
  }

  /** After a Close at rest there is no start that has yet to report, and none was rejected. */
  lemma NobodyPending(s: State)
    requires StatusOk(s) && StartsOk(s) && NoneRejected(s) && AtRest(s)
    ensures (forall t, n :: !IsPendingStart(CloseStep(s), t, n)) && NoneRejected(CloseStep(s))
  {
    AtRestIff(s);
    CloseStarters(s);
  }

  lemma NobodyLoaded(s: State)
    ensures forall n :: n in CloseStep(s).services ==> CloseStep(s).services[n].loaded.None?
  {
  }

  lemma RestIsOrder(s: State)
    requires (forall t, n :: !IsPendingStart(s, t, n)) && NoneRejected(s)
    requires forall n :: n in s.services ==> s.services[n].loaded.None?
    ensures Order(s)
  {
    forall t | t in s.tasks ensures Carried(s.tasks[t]).None? {
      assert !IsPendingStart(s, t, s.tasks[t].name);
    }
  }

  lemma CloseOrder(s: State)
    requires StatusOk(s) && StartsOk(s) && NoneRejected(s) && AtRest(s)
    ensures Order(CloseStep(s))
  {
    NobodyPending(s);
    NobodyLoaded(s);
    RestIsOrder(CloseStep(s));
  }

  lemma StarterOrder(s: State, c: Ledger, a: Action)
    requires Inv(s, c) && Order(s) && OfStarter(a) && a.t in s.tasks && s.tasks[a.t].Starter?
    ensures Order(StarterStep(s, a))
  {
    var phase := s.tasks[a.t].start;
    if OfLoader(a) {
      LoaderOrder(s, a);
    } else if a.FinishStart? && phase.Loaded? {
      AcceptOrder(s, c, a.t, phase.i, phase.degraded);
    } else if a.FinishFailure? && phase.LoadFailed? {
      FailureOrder(s, c, a.t);
    } else if a.Publish? && phase.Publishing? {
      PublishOrder(s, a.t, phase.i);
    } else {
      assert StarterStep(s, a) == s;
    }
  }

  lemma StepOrder(s: State, c: Ledger, a: Action)
    requires Inv(s, c) && Order(s) && (a.CloseAll? ==> AtRest(s))
    ensures Order(Step(s, a))
  {
    if OfService(a) {
      ServiceOrder(s, c, a);
    } else if OfStarter(a) {
      StepOfStarter(s, a);
      if a.t in s.tasks && s.tasks[a.t].Starter? {
        StarterOrder(s, c, a);
      }
    } else if OfCleanup(a) {
      StepOfCleanup(s, a);
      if a.t in s.tasks && CleanupOf(s.tasks[a.t]).Some? {
        CleanupOrder(s, a);
      }
    } else if a.CloseAll? {
      CloseOrder(s);
    } else if a.FinishStop? {
      if a.t in s.tasks && s.tasks[a.t].Stopped? {
        FinishStopOrder(s, a.t);
      }
    } else {
      EnvironmentOrder(s, a);
    }
  }

  // ---------- The theorems, over every run in which Close overtakes no start ----------

  /** Whenever the supervisor is closed, no entry is Starting. */
  ghost predicate ClosesAtRest(actions: seq<Action>) {
    actions == [] ||
    var before, last := actions[..|actions| - 1], actions[|actions| - 1];
    ClosesAtRest(before) && (last.CloseAll? ==> AtRest(Exec(INIT, before)))
  }

  lemma {:induction false} RunOrder(actions: seq<Action>) returns (c: Ledger)
    requires ProperRun(actions) && ClosesAtRest(actions)
    ensures Inv(Exec(INIT, actions), c) && NamesOk(Exec(INIT, actions)) && Order(Exec(INIT, actions))
  {
    c := RunKeeps(actions);
    if actions != [] {
      var before := actions[..|actions| - 1];
      var c0 := RunOrder(before);
      StepOrder(Exec(INIT, before), c0, actions[|actions| - 1]);
    }
  }

  /** A start that has yet to report is the only one of its name and will be accepted; nothing was ever rejected. */
  lemma NoStartIsRefused(actions: seq<Action>, t: TaskId)
    requires ProperRun(actions) && ClosesAtRest(actions)
    requires var s := Exec(INIT, actions); t in s.tasks && s.tasks[t].Starter?
    ensures var s := Exec(INIT, actions);
      && !s.tasks[t].start.Rejected?
      && (Pending(s.tasks[t]) ==>
            && AcceptsStart(s.services, Flags(s), s.tasks[t].name)
            && forall u :: IsPendingStart(s, u, s.tasks[t].name) ==> u == t)
  {
    var s := Exec(INIT, actions);
    var c := RunOrder(actions);
    if Pending(s.tasks[t]) {
      PendingIsAccepted(s, c, t);
      assert IsPendingStart(s, t, s.tasks[t].name);
    }
  }

  /** A loaded service is in the read model unless the very start that loaded it has yet to publish. */
  lemma LoadedIsPublished(actions: seq<Action>, n: string)
    requires ProperRun(actions) && ClosesAtRest(actions)
    requires n in Exec(INIT, actions).services && Exec(INIT, actions).services[n].loaded.Some?
    ensures var s := Exec(INIT, actions);
      n in s.records || exists t :: IsPublishing(s, t, n, s.services[n].loaded.value)
  {
    var c := RunOrder(actions);
  }

  /** The directory kept for a loaded service is the one its instance was loaded with, which is what
      TempDirRequiresRestart compares. */
  lemma DirectoryIsTheLoadedOne(actions: seq<Action>, n: string)
    requires ProperRun(actions) && ClosesAtRest(actions)
    requires n in Exec(INIT, actions).services && Exec(INIT, actions).services[n].loaded.Some?
    ensures var s := Exec(INIT, actions); var i := s.services[n].loaded.value;
      i < |s.instances| && s.services[n].tempDir == s.instances[i].tempDir
  {
    var c := RunOrder(actions);
  }
}

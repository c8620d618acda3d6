/** Under which instance a loaded service is listed. A start publishes its record after it has released the supervisor's
    lock: if the instance is taken by a stop before that, the record comes late and may replace that of a later instance
    of the same name. In runs in which that never happens every loaded service is listed as itself. */
module Listing {
  import opened Text
  import opened Supervisor
  import opened Protocol
  import opened Ownership
  import opened Orderly
  import opened Shutdown
  import opened Steps
  import opened Overtaken

  // ---------- Taking an instance before it is published ----------

  /** The start that loaded the service has been accepted and has yet to publish it. */
  ghost predicate Unpublished(s: State, n: string) {
    exists t, i :: IsPublishing(s, t, n, i) && LoadedAs(s, n, i)
  }

  /** The action takes the instance of a service from its entry before the service has been published. */
  ghost predicate TakesUnpublished(s: State, a: Action) {
    match a
    case StopByName(raw) => Unpublished(s, Trim(raw))
    case CloseAll => exists n :: Unpublished(s, n)
    case _ => false
  }

  ghost predicate Patient(actions: seq<Action>) {
    actions == [] ||
    var before, last := actions[..|actions| - 1], actions[|actions| - 1];
    Patient(before) && !TakesUnpublished(Exec(INIT, before), last)
  }

  // ---------- What patience keeps ----------

  /** Whoever is about to publish an instance is the only one to do so for that service, which is loaded as it. */
  ghost predicate PublishersOk(s: State) {
    && (forall t, n, i :: IsPublishing(s, t, n, i) ==> LoadedAs(s, n, i))
    && (forall t, u, n, i, j :: IsPublishing(s, t, n, i) && IsPublishing(s, u, n, j) ==> t == u)
  }

  /** A stop of the instance has yet to remove its record. */
  predicate Unlists(s: State, n: string, i: InstanceId) {
    && Stop(i) in s.tasks && s.tasks[Stop(i)].Stopper?
    && s.tasks[Stop(i)].name == n && !s.tasks[Stop(i)].cleanup.Removed?
  }

  ghost predicate ListedOk(s: State) {
    forall n :: n in s.records ==> LoadedAs(s, n, s.records[n]) || Unlists(s, n, s.records[n])
  }

  /** A callback holds what is listed already. */
  predicate CallbackOk(s: State) {
    s.callback.Holding? ==>
      var n := s.callback.name;
      n in s.sessions && n in s.records && s.sessions[n] == s.callback.i == s.records[n]
  }

  ghost predicate ListOk(s: State) {
    PublishersOk(s) && ListedOk(s) && CallbackOk(s)
  }

  /** The records stay, and whatever is taken from an entry passes to a stop. */
  lemma ListFramed(s: State, s': State)
    requires ListOk(s) && s'.records == s.records && s'.callback == s.callback
    requires s.callback.Holding? ==> s'.sessions == s.sessions
    requires forall n, i :: LoadedAs(s, n, i) ==> LoadedAs(s', n, i) || Unlists(s', n, i)
    requires forall n, i :: Unlists(s, n, i) ==> Unlists(s', n, i)
    requires forall t, n, i :: IsPublishing(s', t, n, i) ==> IsPublishing(s, t, n, i) && LoadedAs(s', n, i)
    ensures ListOk(s')
  {
  }

  // ---------- Scan, starts, Stop and Close ----------

  lemma ScanList(s: State, found: set<string>)
    requires ListOk(s)
    ensures ListOk(Step(s, Scan(found)))
  {
    var s' := Step(s, Scan(found));
    assert forall n, i :: LoadedAs(s, n, i) ==> LoadedAs(s', n, i);
    ListFramed(s, s');
  }

  lemma BeginList(s: State, e: Entry, name: string, tempDir: string)
    requires ListOk(s) && Start(s.starts) !in s.tasks && (name in s.services ==> s.services[name].loaded.None?)
    ensures ListOk(Begin(s, s.services[name := e], name, tempDir))
  {
    var s' := Begin(s, s.services[name := e], name, tempDir);
    assert forall n, i :: LoadedAs(s, n, i) ==> n != name && LoadedAs(s', n, i);
    ListFramed(s, s');
  }

  lemma StartList(s: State, c: Ledger, name: string, tempDir: string)
    requires Inv(s, c) && ListOk(s)
    ensures name != "" && StartByNameOutcome(s.services, Flags(s), name) == Begun ==>
              ListOk(Begin(s, AfterStartByName(s.services, Flags(s), name, tempDir), name, tempDir))
  {
    if name != "" && StartByNameOutcome(s.services, Flags(s), name) == Begun {
      BeginList(s, s.services[name].(status := Starting, tempDir := tempDir), name, tempDir);
    }
  }

  lemma LoadList(s: State, c: Ledger, name: string, tempDir: string)
    requires Inv(s, c) && ListOk(s)
    ensures Trim(name) != "" && LoadOutcome(s.services, Flags(s), name) == Begun ==>
              ListOk(Begin(s, AfterLoad(s.services, Flags(s), name, tempDir), name, tempDir))
  {
    if Trim(name) != "" && LoadOutcome(s.services, Flags(s), name) == Begun {
      BeginList(s, Entry(true, None, tempDir, Starting), name, tempDir);
    }
  }

  lemma TakenList(s: State, name: string, i: InstanceId)
    requires ListOk(s) && LoadedAs(s, name, i) && Stop(i) !in s.tasks && !Unpublished(s, name)
    ensures ListOk(s.(services := s.services[name := s.services[name].(loaded := None, status := Stopping)],
                      tasks := s.tasks[Stop(i) := Stopper(name, i, Bound)]))
  {
    var s' := s.(services := s.services[name := s.services[name].(loaded := None, status := Stopping)],
                 tasks := s.tasks[Stop(i) := Stopper(name, i, Bound)]);
    assert forall n, j :: LoadedAs(s, n, j) && n != name ==> LoadedAs(s', n, j);
    ListFramed(s, s');
  }

  lemma StopByNameList(s: State, c: Ledger, name: string)
    requires Inv(s, c) && ListOk(s) && !Unpublished(s, name)
    ensures name != "" && StopOutcomeOf(s.services, Flags(s), name).Draining? ==>
              var i := StopOutcomeOf(s.services, Flags(s), name).instance;
              ListOk(s.(services := AfterStop(s.services, Flags(s), name),
                        tasks := s.tasks[Stop(i) := Stopper(name, i, Bound)]))
  {
    if name != "" && StopOutcomeOf(s.services, Flags(s), name).Draining? {
      StopIsFree(s, s.services[name].loaded.value, c, name);
      TakenList(s, name, s.services[name].loaded.value);
    }
  }

  lemma ServiceList(s: State, c: Ledger, a: Action)
    requires Inv(s, c) && ListOk(s) && OfService(a) && !TakesUnpublished(s, a)
    ensures ListOk(Step(s, a))
  {
    match a
    case Scan(found) => ScanList(s, found);
    case StartByName(raw, tempDir) => StartList(s, c, Trim(raw), tempDir);
    case Load(name, tempDir) => LoadList(s, c, name, tempDir);
    case StopByName(raw) => StopByNameList(s, c, Trim(raw));
  }

  /** Close hands over what is loaded, and nobody is about to publish. */
  lemma CloseList(s: State, c: Ledger)
    requires Inv(s, c) && ListOk(s) && !TakesUnpublished(s, CloseAll)
    ensures ListOk(CloseStep(s))
  {
    CloseTakesAll(s, c);
    ClosePublishers(s);
    TakenAllList(s, CloseStep(s), c);
  }

  lemma ClosePublishers(s: State)
    requires PublishersOk(s) && !TakesUnpublished(s, CloseAll)
    ensures forall t, n, i :: !IsPublishing(s, t, n, i)
  {
    forall t, n, i ensures !IsPublishing(s, t, n, i) {
      if IsPublishing(s, t, n, i) {
        assert Unpublished(s, n);
      }
    }
  }

  lemma TakenAllList(s: State, s': State, c: Ledger)
    requires LedgerOk(s, c) && ListOk(s) && TakesAll(s, s', c)
    requires s'.records == s.records && s'.callback == s.callback
    requires forall t, n, i :: !IsPublishing(s, t, n, i)
    ensures ListOk(s')
  {
    forall n, i: InstanceId | LoadedAs(s, n, i) ensures Unlists(s', n, i) {
      assert Held(s, InEntry(n)) == Some(i);
    }
    forall t, n, i ensures !IsPublishing(s', t, n, i) {
      assert t in s'.tasks && t !in s.tasks ==> t == Stop(t.i);
      assert !IsPublishing(s, t, n, i);
    }
    ListFramed(s, s');
  }

  // ---------- The steps of a starter ----------

  lemma LoaderPublishes(s: State, a: Action)
    requires OfLoader(a) && a.t in s.tasks && s.tasks[a.t].Starter?
    ensures forall n, i :: IsPublishing(StarterStep(s, a), a.t, n, i) == IsPublishing(s, a.t, n, i)
    ensures StarterStep(s, a).services == s.services && StarterStep(s, a).records == s.records
    ensures StarterStep(s, a).callback == s.callback
    ensures s.callback.Holding? ==> StarterStep(s, a).sessions == s.sessions
  {
  }

  lemma LoaderList(s: State, a: Action)
    requires ListOk(s) && TasksOk(s) && OfLoader(a) && a.t in s.tasks && s.tasks[a.t].Starter?
    ensures ListOk(StarterStep(s, a))
  {
    var s' := StarterStep(s, a);
    StarterTasks(s, a);
    LoaderPublishes(s, a);
    assert forall u, n, i :: IsPublishing(s', u, n, i) == IsPublishing(s, u, n, i);
    ListFramed(s, s');
  }

  /** An accepted start becomes the only one to publish its service, which is not listed. */
  lemma AcceptList(s: State, s': State, c: Ledger, t: TaskId, i: InstanceId)
    requires Inv(s, c) && StartsOk(s) && ListOk(s) && Accepted(s, s', t, i) && t.Start?
    requires s'.sessions == s.sessions && s'.callback == s.callback
    ensures ListOk(s')
  {
    var name := s.tasks[t].name;
    assert IsPendingStart(s, t, name);
    forall j: InstanceId ensures !Unlists(s, name, j) && !LoadedAs(s, name, j) {
      assert !IsStop(s, Stop(j), name);
    }
    AcceptedList(s, s', t, i);
  }

  lemma AcceptedList(s: State, s': State, t: TaskId, i: InstanceId)
    requires ListOk(s) && Accepted(s, s', t, i) && t.Start? && s'.sessions == s.sessions && s'.callback == s.callback
    requires forall j :: !Unlists(s, s.tasks[t].name, j) && !LoadedAs(s, s.tasks[t].name, j)
    ensures ListOk(s')
  {
    var name := s.tasks[t].name;
    assert forall n, j :: LoadedAs(s', n, j) <==> if n == name then j == i else LoadedAs(s, n, j);
    assert forall n, j :: Unlists(s', n, j) == Unlists(s, n, j);
    assert forall u, n, j :: IsPublishing(s', u, n, j) <==>
      if u == t then n == name && j == i else IsPublishing(s, u, n, j);
  }

  lemma FailureList(s: State, t: TaskId)
    requires StatusOk(s) && ListOk(s) && InPhase(s, t, LoadFailed) && t.Start?
    ensures ListOk(StarterStep(s, FinishFailure(t)))
  {
    var s' := StarterStep(s, FinishFailure(t));
    assert forall n, j :: LoadedAs(s, n, j) ==> LoadedAs(s', n, j);
    ListFramed(s, s');
  }

  /** A start publishes what its service is loaded as, which is what a callback would list. */
  lemma PublishList(s: State, c: Ledger, t: TaskId, i: InstanceId)
    requires SessionsOk(s, c) && LedgerOk(s, c) && ListOk(s) && InPhase(s, t, Publishing(i)) && t.Start?
    ensures ListOk(s.(records := s.records[s.tasks[t].name := i], tasks := s.tasks - {t}))
  {
    var n, s' := s.tasks[t].name, s.(records := s.records[s.tasks[t].name := i], tasks := s.tasks - {t});
    assert IsPublishing(s, t, n, i);
    assert Held(s, InEntry(n)) == Some(i);
    assert forall u, m, j :: IsPublishing(s', u, m, j) ==> IsPublishing(s, u, m, j);
    assert forall m, j :: LoadedAs(s', m, j) == LoadedAs(s, m, j);
    assert forall m, j :: Unlists(s', m, j) == Unlists(s, m, j);
  }

  lemma StarterList(s: State, c: Ledger, a: Action)
    requires Inv(s, c) && Order(s) && ListOk(s) && OfStarter(a) && a.t in s.tasks && s.tasks[a.t].Starter?
    ensures ListOk(StarterStep(s, a))
  {
    var phase := s.tasks[a.t].start;
    if OfLoader(a) {
      LoaderList(s, a);
    } else if a.FinishStart? && phase.Loaded? {
      PendingIsAccepted(s, c, a.t);
      Accepts(s, a.t, phase.i, phase.degraded);
      AcceptList(s, StarterStep(s, a), c, a.t, phase.i);
    } else if a.FinishFailure? && phase.LoadFailed? {
      FailureList(s, a.t);
    } else if a.Publish? && phase.Publishing? {
      Publishes(s, a.t, phase.i);
      PublishList(s, c, a.t, phase.i);
    } else {
      assert StarterStep(s, a) == s;
    }
  }

  // ---------- Cleanup ----------

  /** A session is that of a loaded instance, of a start that has yet to report or of a stop that has yet to detach. */
  lemma SessionHolder(s: State, c: Ledger, n: string)
    requires LedgerOk(s, c) && SessionsOk(s, c) && n in s.sessions
    ensures LoadedAs(s, n, s.sessions[n]) || exists t :: HoldsSession(s, t, n)
  {
    var h := c[s.sessions[n]];
    if h.InTask? {
      assert HoldsSession(s, h.t, n);
    }
  }

  predicate HoldsSession(s: State, t: TaskId, n: string) {
    IsPendingStart(s, t, n) || (IsStop(s, t, n) && s.tasks[t].Stopper? && s.tasks[t].cleanup.Bound?)
  }

  /** Once a stop has detached its instance, its service has no session. */
  lemma DetachedHasNoSession(s: State, c: Ledger, t: TaskId)
    requires Inv(s, c) && StartsOk(s) && NoneRejected(s)
    requires t in s.tasks && s.tasks[t].Stopper? && !s.tasks[t].cleanup.Bound?
    ensures s.tasks[t].name !in s.sessions
  {
    var n := s.tasks[t].name;
    assert IsStop(s, t, n);
    if n in s.sessions {
      SessionHolder(s, c, n);
      assert false;
    }
  }

  lemma RemoveList(s: State, c: Ledger, t: TaskId)
    requires Inv(s, c) && StartsOk(s) && NoneRejected(s) && ListOk(s)
    requires t in s.tasks && s.tasks[t].Stopper? && s.tasks[t].cleanup.Detached?
    ensures ListOk(CleanupStep(s, CleanupRemove(t)))
  {
    DetachedHasNoSession(s, c, t);
    var n, s' := s.tasks[t].name, CleanupStep(s, CleanupRemove(t));
    assert s'.tasks == s.tasks[t := s.tasks[t].(cleanup := Removed)];
    assert forall u, m, i :: IsPublishing(s', u, m, i) == IsPublishing(s, u, m, i);
    assert forall m, i :: LoadedAs(s', m, i) == LoadedAs(s, m, i);
    assert forall m, i :: m != n && Unlists(s, m, i) ==> Unlists(s', m, i);
  }

  lemma StopperList(s: State, a: Action)
    requires ListOk(s) && TasksOk(s) && (a.CleanupDetach? || a.CleanupClose?)
    requires a.t in s.tasks && s.tasks[a.t].Stopper?
    ensures ListOk(CleanupStep(s, a))
  {
    var s' := CleanupStep(s, a);
    assert forall u, n, i :: IsPublishing(s', u, n, i) == IsPublishing(s, u, n, i);
    ListFramed(s, s');
  }

  lemma CleanupList(s: State, c: Ledger, a: Action)
    requires Inv(s, c) && StartsOk(s) && NoneRejected(s) && ListOk(s) && OfCleanup(a)
    requires a.t in s.tasks && CleanupOf(s.tasks[a.t]).Some?
    ensures ListOk(CleanupStep(s, a))
  {
    if !a.CleanupRemove? {
      StopperList(s, a);
    } else if s.tasks[a.t].cleanup.Detached? {
      RemoveList(s, c, a.t);
    }
  }

  lemma FinishStopList(s: State, t: TaskId)
    requires StatusOk(s) && TasksOk(s) && ListOk(s) && t in s.tasks && s.tasks[t].Stopped?
    ensures ListOk(Step(s, FinishStop(t)))
  {
    var s' := Step(s, FinishStop(t));
    assert IsStop(s, t, s.tasks[t].name);
    assert forall n, i :: LoadedAs(s, n, i) ==> LoadedAs(s', n, i);
    ListFramed(s, s');
  }

  // ---------- The callback ----------

  /** What is listed and has a session is listed as the instance of that session. */
  lemma ListedIsAttached(s: State, c: Ledger, n: string)
    requires Inv(s, c) && StartsOk(s) && NoneRejected(s) && ListOk(s) && n in s.sessions && n in s.records
    ensures s.sessions[n] == s.records[n]
  {
    var i := s.records[n];
    if LoadedAs(s, n, i) {
      assert Held(s, InEntry(n)) == Some(i);
    } else {
      assert Held(s, InTask(Stop(i))) == Some(i);
      if !s.tasks[Stop(i)].cleanup.Bound? {
        DetachedHasNoSession(s, c, Stop(i));
      }
    }
  }

  /** Services, tasks and records are the same. */
  lemma ListUnaffected(s: State, s': State)
    requires ListOk(s) && s'.services == s.services && s'.tasks == s.tasks && s'.records == s.records && CallbackOk(s')
    ensures ListOk(s')
  {
    assert forall n, i :: LoadedAs(s', n, i) == LoadedAs(s, n, i);
    assert forall n, i :: Unlists(s', n, i) == Unlists(s, n, i);
    assert forall t, n, i :: IsPublishing(s', t, n, i) == IsPublishing(s, t, n, i);
  }

  lemma LookList(s: State, c: Ledger, name: string)
    requires Inv(s, c) && StartsOk(s) && NoneRejected(s) && ListOk(s)
    ensures ListOk(Step(s, Look(name)))
  {
    if name in s.sessions && name in s.records {
      ListedIsAttached(s, c, name);
    }
    ListUnaffected(s, Step(s, Look(name)));
  }

  lemma RelistList(s: State)
    requires ListOk(s)
    ensures ListOk(Step(s, Relist))
  {
    if s.callback.Holding? {
      assert s.records[s.callback.name := s.callback.i] == s.records;
    }
    ListUnaffected(s, Step(s, Relist));
  }

  lemma MarkDegradedList(s: State, name: string)
    requires ListOk(s)
    ensures ListOk(Step(s, MarkDegraded(name)))
  {
    ListUnaffected(s, Step(s, MarkDegraded(name)));
  }

  lemma StepList(s: State, c: Ledger, a: Action)
    requires Inv(s, c) && Order(s) && ListOk(s) && !TakesUnpublished(s, a)
    ensures ListOk(Step(s, a))
  {
    if OfService(a) {
      ServiceList(s, c, a);
    } else if OfStarter(a) {
      StepOfStarter(s, a);
      if a.t in s.tasks && s.tasks[a.t].Starter? {
        StarterList(s, c, a);
      }
    } else if OfCleanup(a) {
      StepOfCleanup(s, a);
      if a.t in s.tasks && CleanupOf(s.tasks[a.t]).Some? {
        CleanupList(s, c, a);
      }
    } else if a.CloseAll? {
      CloseList(s, c);
    } else if a.FinishStop? {
      if a.t in s.tasks && s.tasks[a.t].Stopped? {
        FinishStopList(s, a.t);
      }
    } else {
      match a
      case Look(name) => LookList(s, c, name);
      case Relist => RelistList(s);
      case MarkDegraded(name) => MarkDegradedList(s, name);
    }
  }

  lemma {:induction false} RunList(actions: seq<Action>) returns (c: Ledger)
    requires ProperRun(actions) && ClosesAtRest(actions) && Patient(actions)
    ensures var s := Exec(INIT, actions); Inv(s, c) && NamesOk(s) && Order(s) && ListOk(s)
  {
    c := RunOrder(actions);
    if actions != [] {
      var before := actions[..|actions| - 1];
      var c0 := RunList(before);
      StepList(Exec(INIT, before), c0, actions[|actions| - 1]);
    }
  }

  // ---------- The theorems, over every patient run in which Close overtakes no start ----------

  /** A loaded service is listed as itself, or its own start has yet to list it. */
  lemma ListedAsItself(actions: seq<Action>, n: string, i: InstanceId)
    requires ProperRun(actions) && ClosesAtRest(actions) && Patient(actions) && LoadedAs(Exec(INIT, actions), n, i)
    ensures var s := Exec(INIT, actions);
      && (n in s.records ==> s.records[n] == i)
      && (n in s.records || exists t :: IsPublishing(s, t, n, i))
  {
    var s := Exec(INIT, actions);
    var c := RunList(actions);
    if n in s.records && !LoadedAs(s, n, s.records[n]) {
      assert IsStop(s, Stop(s.records[n]), n);
      assert false;
    }
  }

  lemma QuietRecords(s: State)
    requires s.tasks == map[] && RecordsOk(s) && ListedOk(s)
    ensures s.records == (map n | n in s.services && s.services[n].loaded.Some? :: s.services[n].loaded.value)
  {
    assert forall n :: n in s.records ==> LoadedAs(s, n, s.records[n]);
    assert forall t, n, i :: !IsPublishing(s, t, n, i);
  }

  /** With nothing in flight, the read model lists the loaded services and nothing else, each as itself. */
  lemma QuietMeansListed(actions: seq<Action>)
    requires ProperRun(actions) && ClosesAtRest(actions) && Patient(actions) && Exec(INIT, actions).tasks == map[]
    ensures var s := Exec(INIT, actions);
      && s.records == s.sessions
      && s.records == (map n | n in s.services && s.services[n].loaded.Some? :: s.services[n].loaded.value)
  {
    var c := RunList(actions);
    QuietRecords(Exec(INIT, actions));
    QuietMeansConsistent(actions);
  }

  // ---------- What a Stop or Close costs that takes an unpublished instance ----------

  predicate ListedAsAnother(s: State, n: string) {
    n in s.services && s.services[n].loaded.Some? && n in s.records && s.records[n] != s.services[n].loaded.value
  }

  /** A loaded service is listed as another instance, and nobody is about to list it again. */
  ghost predicate SomeMislisted(s: State) {
    exists n :: ListedAsAnother(s, n) && NoPublisher(s, n)
  }

  lemma {:induction false} UnhinderedKeepsPatient(before: seq<Action>, a: Action, after: seq<Action>)
    requires ClosesAtRest(before) && Patient(before) && Unhindered(after)
    requires a.CloseAll? ==> AtRest(Exec(INIT, before))
    requires !TakesUnpublished(Exec(INIT, before), a)
    ensures ClosesAtRest(before + [a] + after) && Patient(before + [a] + after)
  {
    if after == [] {
      assert (before + [a])[..|before|] == before;
      assert before + [a] + after == before + [a];
    } else {
      var n := |after| - 1;
      UnhinderedKeepsPatient(before, a, after[..n]);
      var run := before + [a] + after;
      assert run[..|run| - 1] == before + [a] + after[..n] && run[|run| - 1] == after[n];
    }
  }

  lemma PatienceMislistsNone(before: seq<Action>, a: Action, after: seq<Action>)
    requires ProperRun(before) && ClosesAtRest(before) && Patient(before) && ProperLoad(a) && Unhindered(after)
    requires a.CloseAll? ==> AtRest(Exec(INIT, before))
    requires !TakesUnpublished(Exec(INIT, before), a)
    ensures !SomeMislisted(Exec(INIT, before + [a] + after))
  {
    var run := before + [a] + after;
    UnhinderedKeepsPatient(before, a, after);
    forall n ensures !ListedAsAnother(Exec(INIT, run), n) {
      if ListedAsAnother(Exec(INIT, run), n) {
        ListedAsItself(run, n, Exec(INIT, run).services[n].loaded.value);
      }
    }
  }

  /** The instance has been taken from its entry while its start, alone, is still about to publish it. */
  ghost predicate Overrun(s: State, t: TaskId, n: string, i: InstanceId) {
    && Numbered(s) && Proper(n) && i < |s.instances|
    && t.Start? && IsPublishing(s, t, n, i) && (forall u, j :: IsPublishing(s, u, n, j) ==> u == t)
    && Stop(i) in s.tasks && s.tasks[Stop(i)] == Stopper(n, i, Bound)
    && n in s.services && s.services[n].loaded.None? && s.services[n].status == Stopping
  }

  lemma TakenOverruns(s: State, t: TaskId, n: string, i: InstanceId)
    requires PublishersOk(s) && Numbered(s) && Proper(n) && t.Start? && Stop(i) !in s.tasks
    requires IsPublishing(s, t, n, i) && LoadedAs(s, n, i)
    ensures Overrun(s.(services := s.services[n := s.services[n].(loaded := None, status := Stopping)],
                       tasks := s.tasks[Stop(i) := Stopper(n, i, Bound)]), t, n, i)
  {
    var s' := s.(services := s.services[n := s.services[n].(loaded := None, status := Stopping)],
                 tasks := s.tasks[Stop(i) := Stopper(n, i, Bound)]);
    assert forall u, j :: IsPublishing(s', u, n, j) == IsPublishing(s, u, n, j);
  }

  lemma StopOverruns(s: State, c: Ledger, t: TaskId, n: string, i: InstanceId, raw: string)
    requires Inv(s, c) && NamesOk(s) && ListOk(s) && Numbered(s) && Trim(raw) == n
    requires IsPublishing(s, t, n, i) && LoadedAs(s, n, i)
    ensures Overrun(Step(s, StopByName(raw)), t, n, i)
  {
    assert n in Names(s);
    StopIsFree(s, i, c, n);
    assert Held(s, InEntry(n)) == Some(i);
    StopBegins(s, raw, i);
    TakenOverruns(s, t, n, i);
  }

  lemma CloseOverruns(s: State, c: Ledger, t: TaskId, n: string, i: InstanceId)
    requires Inv(s, c) && NamesOk(s) && ListOk(s) && Numbered(s)
    requires IsPublishing(s, t, n, i) && LoadedAs(s, n, i)
    ensures Overrun(CloseStep(s), t, n, i)
  {
    assert n in Names(s);
    var s' := CloseStep(s);
    CloseTakesAll(s, c);
    CloseKeepsNumbers(s);
    assert Held(s, InEntry(n)) == Some(i);
    assert IsPublishing(s', t, n, i);
    forall u, j ensures IsPublishing(s', u, n, j) ==> u == t {
      assert u in s'.tasks && u !in s.tasks ==> u.Stop? && u == Stop(u.i);
      assert IsPublishing(s', u, n, j) ==> IsPublishing(s, u, n, j);
    }
  }

  lemma RelistKeepsOverrun(s: State, t: TaskId, n: string, i: InstanceId) returns (s': State)
    requires Overrun(s, t, n, i)
    ensures s' == Step(s, Relist) && Overrun(s', t, n, i) && s'.callback.Free?
  {
    s' := Step(s, Relist);
    assert forall u, j :: IsPublishing(s', u, n, j) == IsPublishing(s, u, n, j);
  }

  /** The stop completes, and the start has still not published. */
  lemma OverrunStops(s0: State, s: State, t: TaskId, n: string, i: InstanceId) returns (s': State)
    requires Reaches(s0, s) && Overrun(s, t, n, i) && s.callback.Free?
    ensures Reaches(s0, s') && s'.tasks == s.tasks - {Stop(i)} && Numbered(s') && s'.callback.Free?
    ensures n !in s'.sessions && |s'.instances| == |s.instances|
    ensures n in s'.services && s'.services[n].loaded.None? && s'.services[n].status == Discovered
  {
    var u := Stop(i);
    StopperDetaches(s, u, n, i);
    ReachesNext(s0, s, CleanupDetach(u));
    var s1 := Step(s, CleanupDetach(u));
    StopperRemoves(s1, u, n, i);
    ReachesNext(s0, s1, CleanupRemove(u));
    var s2 := Step(s1, CleanupRemove(u));
    StopperCloses(s2, u, n, i);
    ReachesNext(s0, s2, CleanupClose(u, false));
    var s3 := Step(s2, CleanupClose(u, false));
    StopRests(s3, u, n, i);
    ReachesNext(s0, s3, FinishStop(u));
    s' := Step(s3, FinishStop(u));
    assert s'.tasks == s.tasks - {u};
  }

  /** The last start to publish a service that is loaded as another instance by now. */
  lemma LatePublication(s: State, t: TaskId, n: string, i: InstanceId)
    requires IsPublishing(s, t, n, i) && (forall u, j :: IsPublishing(s, u, n, j) ==> u == t) && s.callback.Free?
    requires n in s.services && s.services[n].loaded.Some? && s.services[n].loaded.value != i
    ensures ListedAsAnother(Step(s, Publish(t)), n) && NoPublisher(Step(s, Publish(t)), n)
  {
    Publishes(s, t, i);
    forall u | u in s.tasks && u != t && s.tasks[u].name == n && s.tasks[u].Starter?
      ensures !s.tasks[u].start.Publishing?
    {
      assert s.tasks[u].start.Publishing? ==> IsPublishing(s, u, n, s.tasks[u].start.i);
    }
  }

  /** A second start loads and publishes the service... */
  lemma IdleReloads(s0: State, s: State, n: string) returns (s': State)
    requires Reaches(s0, s) && Numbered(s) && Proper(n) && s.callback.Free? && n !in s.sessions
    requires n in s.services && s.services[n].loaded.None? && s.services[n].status == Discovered
    ensures Reaches(s0, s') && s'.tasks == s.tasks && s'.callback.Free? && LoadedAs(s', n, |s.instances|)
  {
    var u := Start(s.starts);
    Begins(s, n, "");
    ReachesNext(s0, s, Load(n, ""));
    var s1 := Step(s, Load(n, ""));
    s' := ReplacementLoads(s0, s1, u, n);
    assert s1.tasks - {u} == s.tasks;
  }

  /** ...before the first one publishes. */
  lemma OverrunIsMislisted(s0: State, s: State, t: TaskId, n: string, i: InstanceId) returns (s': State)
    requires Reaches(s0, s) && Overrun(s, t, n, i) && s.callback.Free?
    ensures Reaches(s0, s') && SomeMislisted(s')
  {
    var s1 := OverrunStops(s0, s, t, n, i);
    var s2 := IdleReloads(s0, s1, n);
    assert forall r, j :: IsPublishing(s2, r, n, j) ==> IsPublishing(s, r, n, j);
    ReachesNext(s0, s2, Publish(t));
    s' := Step(s2, Publish(t));
    LatePublication(s2, t, n, i);
  }

  lemma TakingMislists(s: State, c: Ledger, a: Action) returns (s': State)
    requires Inv(s, c) && NamesOk(s) && ListOk(s) && Numbered(s) && TakesUnpublished(s, a)
    ensures Reaches(Step(s, a), s') && SomeMislisted(s')
  {
    var n :| Unpublished(s, n) && (a.StopByName? ==> n == Trim(a.name));
    var t, i :| IsPublishing(s, t, n, i) && LoadedAs(s, n, i);
    if a.StopByName? {
      StopOverruns(s, c, t, n, i, a.name);
    } else {
      CloseOverruns(s, c, t, n, i);
    }
    ReachesItself(Step(s, a));
    ReachesNext(Step(s, a), Step(s, a), Relist);
    var s1 := RelistKeepsOverrun(Step(s, a), t, n, i);
    s' := OverrunIsMislisted(Step(s, a), s1, t, n, i);
  }

  /** A Stop, or a Close that overtakes no start, can lead to a loaded service that stays listed as another instance iff
      it takes an instance before that is published. */
  lemma CanMislistIff(before: seq<Action>, a: Action)
    requires ProperRun(before) && ClosesAtRest(before) && Patient(before)
    requires a.StopByName? || (a.CloseAll? && AtRest(Exec(INIT, before)))
    ensures (exists after :: Unhindered(after) && SomeMislisted(Exec(INIT, before + [a] + after)))
            <==> TakesUnpublished(Exec(INIT, before), a)
  {
    if TakesUnpublished(Exec(INIT, before), a) {
      var c := RunList(before);
      RunNumbered(before);
      var s' := TakingMislists(Exec(INIT, before), c, a);
      var after := AsOneRun(before, a, s');
    } else {
      forall after | Unhindered(after) ensures !SomeMislisted(Exec(INIT, before + [a] + after)) {
        PatienceMislistsNone(before, a, after);
      }
    }
  }
}

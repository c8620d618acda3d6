/** The life of one entry, as an observer sees it: which status follows which, when a service can be started or stopped,
    what makes it discovered, and that it forgets its directory when it comes to rest. */
module Lifecycle {
  import opened Text
  import opened Supervisor
  import opened Protocol
  import opened Ownership
  import opened Orderly
  import opened Steps
  import opened Overtaken

  // ---------- Statuses ----------

  function Shown(s: State, n: string): Option<Status> {
    if n in s.services then Some(CurrentStatus(s.services[n], Flags(s))) else None
  }

  predicate AtIdle(status: Option<Status>) {
    status == Some(Discovered) || status == Some(Failed)
  }

  predicate AtWork(status: Option<Status>) {
    status == Some(Running) || status == Some(Degraded)
  }

  /** The task is of that service. */
  predicate IsTaskOf(s: State, t: TaskId, n: string) {
    t in s.tasks && s.tasks[t].name == n
  }

  /** The status that an action leads to, from the one that is shown. */
  function NextStatus(s: State, a: Action, n: string): Option<Status> {
    var now := Shown(s, n);
    match a
    case Scan(found) =>
      if n in found && now.None? then Some(Discovered) else if n !in found && AtIdle(now) then None else now
    case StartByName(raw, _) =>
      if Trim(raw) == n && n != "" && AtIdle(now) && s.services[n].discovered then Some(Starting) else now
    case Load(name, _) =>
      if name == n && Trim(name) != "" && (now.None? || AtIdle(now)) then Some(Starting) else now
    case FinishStart(t) =>
      if IsTaskOf(s, t, n) && s.tasks[t].Starter? && s.tasks[t].start.Loaded? then
        var degraded := s.tasks[t].start.degraded || s.tasks[t].start.i in Flags(s);
        if now == Some(Starting) then Some(if degraded then Degraded else Running)
        else if now.None? then Some(Discovered) else now
      else now
    case FinishFailure(t) =>
      if IsTaskOf(s, t, n) && InPhase(s, t, LoadFailed) && now == Some(Starting) then Some(Failed) else now
    case StopByName(raw) => if Trim(raw) == n && n != "" && AtWork(now) then Some(Stopping) else now
    case CloseAll => if AtWork(now) then Some(Stopping) else if now == Some(Starting) then Some(Failed) else now
    case FinishStop(t) =>
      if IsTaskOf(s, t, n) && s.tasks[t].Stopped? && now == Some(Stopping)
      then Some(if s.tasks[t].failed then Failed else Discovered) else now
    case MarkDegraded(name) =>
      if now == Some(Running) && name in s.sessions && s.sessions[name] < |s.instances|
         && LoadedAs(s, n, s.sessions[name])
      then Some(Degraded) else now
    case _ => now
  }

  /** Steps that leave the flags of instances alone, and the other way round. */
  lemma FlagsKept(s: State, s': State)
    requires |s.instances| <= |s'.instances|
    requires forall i :: 0 <= i < |s'.instances| ==>
               s'.instances[i].degraded == (i < |s.instances| && s.instances[i].degraded)
    ensures Flags(s') == Flags(s)
  {
  }

  lemma StarterKeepsFlags(s: State, a: Action)
    requires OfStarter(a) && a.t in s.tasks && s.tasks[a.t].Starter?
    ensures Flags(StarterStep(s, a)) == Flags(s)
  {
    FlagsKept(s, StarterStep(s, a));
  }

  lemma CleanupKeepsFlags(s: State, a: Action)
    requires OfCleanup(a) && a.t in s.tasks && CleanupOf(s.tasks[a.t]).Some?
    ensures Flags(CleanupStep(s, a)) == Flags(s) && CleanupStep(s, a).services == s.services
  {
    FlagsKept(s, CleanupStep(s, a));
  }

  lemma ReportStatus(s: State, a: Action, n: string)
    requires StatusOk(s) && (a.FinishStart? || a.FinishFailure?) && a.t in s.tasks && s.tasks[a.t].Starter?
    requires Flags(StarterStep(s, a)) == Flags(s)
    ensures Shown(StarterStep(s, a), n) == NextStatus(s, a, n)
  {
  }

  lemma StarterStatus(s: State, a: Action, n: string)
    requires StatusOk(s) && OfStarter(a) && a.t in s.tasks && s.tasks[a.t].Starter?
    ensures Shown(StarterStep(s, a), n) == NextStatus(s, a, n)
  {
    StarterKeepsFlags(s, a);
    if a.FinishStart? || a.FinishFailure? {
      ReportStatus(s, a, n);
    } else {
      assert StarterStep(s, a).services == s.services;
    }
  }

  lemma ScanStatus(s: State, found: set<string>, n: string)
    requires StatusOk(s)
    ensures Shown(Step(s, Scan(found)), n) == NextStatus(s, Scan(found), n)
  {
    if n in s.services && n in AfterScan(s.services, Flags(s), found) {
      ScanKeepsEveryEntry(s.services, Flags(s), found, n);
    }
  }

  lemma StartStatus(s: State, raw: string, tempDir: string, n: string)
    requires StatusOk(s)
    ensures Shown(Step(s, StartByName(raw, tempDir)), n) == NextStatus(s, StartByName(raw, tempDir), n)
  {
  }

  lemma LoadStatus(s: State, name: string, tempDir: string, n: string)
    requires StatusOk(s)
    ensures Shown(Step(s, Load(name, tempDir)), n) == NextStatus(s, Load(name, tempDir), n)
  {
  }

  lemma StopStatus(s: State, raw: string, n: string)
    requires StatusOk(s)
    ensures Shown(Step(s, StopByName(raw)), n) == NextStatus(s, StopByName(raw), n)
  {
  }

  lemma ServiceStatus(s: State, a: Action, n: string)
    requires StatusOk(s) && OfService(a)
    ensures Shown(Step(s, a), n) == NextStatus(s, a, n)
  {
    match a
    case Scan(found) => ScanStatus(s, found, n);
    case StartByName(raw, tempDir) => StartStatus(s, raw, tempDir, n);
    case Load(name, tempDir) => LoadStatus(s, name, tempDir, n);
    case StopByName(raw) => StopStatus(s, raw, n);
  }

  lemma CloseStatus(s: State, n: string)
    requires StatusOk(s)
    ensures Shown(CloseStep(s), n) == NextStatus(s, CloseAll, n)
  {
  }

  lemma FinishStopStatus(s: State, t: TaskId, n: string)
    requires StatusOk(s)
    ensures Shown(Step(s, FinishStop(t)), n) == NextStatus(s, FinishStop(t), n)
  {
  }

  lemma DegradedStatus(s: State, name: string, n: string)
    requires StatusOk(s)
    ensures Shown(Step(s, MarkDegraded(name)), n) == NextStatus(s, MarkDegraded(name), n)
  {
    if name in s.sessions && s.sessions[name] < |s.instances| {
      assert Flags(Step(s, MarkDegraded(name))) == Flags(s) + {s.sessions[name]};
    }
  }

  lemma StatusFollows(s: State, a: Action, n: string)
    requires StatusOk(s)
    ensures Shown(Step(s, a), n) == NextStatus(s, a, n)
  {
    if OfService(a) {
      ServiceStatus(s, a, n);
    } else if OfStarter(a) {
      StepOfStarter(s, a);
      if a.t in s.tasks && s.tasks[a.t].Starter? {
        StarterStatus(s, a, n);
      }
    } else if OfCleanup(a) {
      StepOfCleanup(s, a);
      if a.t in s.tasks && CleanupOf(s.tasks[a.t]).Some? {
        CleanupKeepsFlags(s, a);
      }
    } else {
      match a
      case CloseAll => CloseStatus(s, n);
      case FinishStop(t) => FinishStopStatus(s, t, n);
      case MarkDegraded(name) => DegradedStatus(s, name, n);
      case Look(_) => FlagsKept(s, Step(s, a));
      case Relist => FlagsKept(s, Step(s, a));
    }
  }

  /** In every run, each step leads every entry from the status shown to the one that follows. */
  lemma StatusAlwaysFollows(actions: seq<Action>, a: Action, n: string)
    requires ProperRun(actions)
    ensures Shown(Step(Exec(INIT, actions), a), n) == NextStatus(Exec(INIT, actions), a, n)
  {
    var c := RunKeeps(actions);
    StatusFollows(Exec(INIT, actions), a, n);
  }

  // ---------- When a service can be started or stopped ----------

  /** A Stop takes an instance iff that is the one the entry holds. */
  lemma StoppableIff(actions: seq<Action>, n: string, i: InstanceId)
    requires ProperRun(actions)
    ensures var s := Exec(INIT, actions);
      StopOutcomeOf(s.services, Flags(s), n) == StopOutcome.Draining(i) <==> LoadedAs(s, n, i)
  {
    var c := RunKeeps(actions);
  }

  /** If Close never finds an entry Starting, a service can be loaded iff it is not loaded already and no start or stop
      of it is under way; to be started by its name it has to be discovered besides. */
  lemma StartableIff(actions: seq<Action>, n: string)
    requires ProperRun(actions) && ClosesAtRest(actions)
    ensures var s := Exec(INIT, actions);
      && (LoadOutcome(s.services, Flags(s), n) == Begun <==>
            && (n in s.services ==> s.services[n].loaded.None?)
            && forall t :: !IsPendingStart(s, t, n) && !IsStop(s, t, n))
      && (StartByNameOutcome(s.services, Flags(s), n) == Begun <==>
            n in s.services && s.services[n].discovered && LoadOutcome(s.services, Flags(s), n) == Begun)
  {
    var c := RunOrder(actions);
    var s := Exec(INIT, actions);
    if t :| IsPendingStart(s, t, n) {
      assert s.services[n].status == Starting;
    }
  }

  /** What is told to somebody who starts a service by its name, loads it or stops it. */
  lemma AnswersIff(actions: seq<Action>, n: string)
    requires ProperRun(actions)
    ensures var s, now := Exec(INIT, actions), Shown(Exec(INIT, actions), n);
            var start, stop := StartByNameOutcome(s.services, Flags(s), n), StopOutcomeOf(s.services, Flags(s), n);
      && (start.NotFound? <==> now.None?)
      && (start.NotAvailable? <==> now.Some? && !s.services[n].discovered)
      && (forall status :: start == NotStartable(status) <==>
            now == Some(status) && s.services[n].discovered && !AtIdle(now))
      && (forall status :: LoadOutcome(s.services, Flags(s), n) == NotStartable(status) <==>
            now == Some(status) && !AtIdle(now))
      && (stop.Unknown? <==> now.None?)
      && (forall status :: stop == InTransition(status) <==> now == Some(status) && status in {Starting, Stopping})
      && (stop.NotRunning? <==> AtIdle(now))
  {
    var c := RunKeeps(actions);
  }

  // ---------- Discovered ----------

  /** The last scan found the service, or a load of it has begun or ended well since. */
  ghost predicate Known(actions: seq<Action>, n: string) {
    if actions == [] then false
    else
      var before, s, s' := actions[..|actions| - 1], Exec(INIT, actions[..|actions| - 1]), Exec(INIT, actions);
      match actions[|actions| - 1]
      case Scan(found) => n in found
      case Load(name, _) => (name == n && s'.starts > s.starts) || Known(before, n)
      case FinishStart(t) =>
        (IsTaskOf(s, t, n) && HasLoaded(s, t) && IsPublishing(s', t, n, s.tasks[t].start.i)) || Known(before, n)
      case _ => Known(before, n)
  }

  predicate IsDiscovered(s: State, n: string) {
    n in s.services && s.services[n].discovered
  }

  lemma StarterDiscovers(s: State, a: Action, n: string)
    requires OfStarter(a) && a.t in s.tasks && s.tasks[a.t].Starter?
    ensures var s' := StarterStep(s, a);
      IsDiscovered(s', n) <==>
      || IsDiscovered(s, n)
      || (a.FinishStart? && IsTaskOf(s, a.t, n) && HasLoaded(s, a.t) && IsPublishing(s', a.t, n, s.tasks[a.t].start.i))
  {
  }

  lemma ServiceDiscovers(s: State, a: Action, n: string)
    requires OfService(a)
    ensures IsDiscovered(Step(s, a), n) <==>
            if a.Scan? then n in a.found
            else IsDiscovered(s, n) || (a.Load? && a.name == n && Step(s, a).starts > s.starts)
  {
  }

  lemma DiscoveredFollows(s: State, a: Action, n: string)
    ensures IsDiscovered(Step(s, a), n) <==>
            if a.Scan? then n in a.found
            else if a.Load? then IsDiscovered(s, n) || (a.name == n && Step(s, a).starts > s.starts)
            else if a.FinishStart? then
              IsDiscovered(s, n) || (IsTaskOf(s, a.t, n) && HasLoaded(s, a.t)
                                     && IsPublishing(Step(s, a), a.t, n, s.tasks[a.t].start.i))
            else IsDiscovered(s, n)
  {
    if OfService(a) {
      ServiceDiscovers(s, a, n);
    } else if OfStarter(a) {
      StepOfStarter(s, a);
      if a.t in s.tasks && s.tasks[a.t].Starter? {
        StarterDiscovers(s, a, n);
      }
    } else if OfCleanup(a) {
      StepOfCleanup(s, a);
    }
  }

  lemma {:induction false} DiscoveredIff(actions: seq<Action>, n: string)
    ensures IsDiscovered(Exec(INIT, actions), n) <==> Known(actions, n)
  {
    if actions != [] {
      var before := actions[..|actions| - 1];
      DiscoveredIff(before, n);
      DiscoveredFollows(Exec(INIT, before), actions[|actions| - 1], n);
    }
  }

  // ---------- Directories ----------

  function Directory(s: State, n: string): string {
    if n in s.services then s.services[n].tempDir else ""
  }

  /** A start that begins brings a directory with it; one that fails, a stop that ends and a Close that takes an
      instance drop it. */
  function NextDirectory(s: State, a: Action, n: string): string {
    var now, next := Shown(s, n), NextStatus(s, a, n);
    if next.None? then ""
    else if now == next then Directory(s, n)
    else if next == Some(Starting) && (a.Load? || a.StartByName?) then a.tempDir
    else if a.FinishFailure? || a.FinishStop? || (a.CloseAll? && AtWork(now)) then ""
    else Directory(s, n)
  }

  lemma StarterDirectory(s: State, a: Action, n: string)
    requires StatusOk(s) && OfStarter(a) && a.t in s.tasks && s.tasks[a.t].Starter?
    ensures Directory(StarterStep(s, a), n) == NextDirectory(s, a, n)
  {
  }

  lemma BeginsDirectory(s: State, a: Action, n: string)
    requires StatusOk(s) && (a.StartByName? || a.Load?)
    ensures Directory(Step(s, a), n) == NextDirectory(s, a, n)
  {
  }

  lemma ServiceDirectory(s: State, a: Action, n: string)
    requires StatusOk(s) && (a.Scan? || a.StopByName?)
    ensures Directory(Step(s, a), n) == NextDirectory(s, a, n)
  {
  }

  lemma EndsDirectory(s: State, a: Action, n: string)
    requires StatusOk(s) && (a.CloseAll? || a.FinishStop?)
    ensures Directory(Step(s, a), n) == NextDirectory(s, a, n)
  {
  }

  lemma DirectoryFollows(s: State, a: Action, n: string)
    requires StatusOk(s)
    ensures Directory(Step(s, a), n) == NextDirectory(s, a, n)
  {
    if a.StartByName? || a.Load? {
      BeginsDirectory(s, a, n);
    } else if a.CloseAll? || a.FinishStop? {
      EndsDirectory(s, a, n);
    } else if OfService(a) {
      ServiceDirectory(s, a, n);
    } else if OfStarter(a) {
      StepOfStarter(s, a);
      if a.t in s.tasks && s.tasks[a.t].Starter? {
        StarterDirectory(s, a, n);
      }
    } else if OfCleanup(a) {
      StepOfCleanup(s, a);
    }
  }

  /** In every run, each step leaves every entry with the directory that goes with its change of status. */
  lemma DirectoryAlwaysFollows(actions: seq<Action>, a: Action, n: string)
    requires ProperRun(actions)
    ensures Directory(Step(Exec(INIT, actions), a), n) == NextDirectory(Exec(INIT, actions), a, n)
  {
    var c := RunKeeps(actions);
    DirectoryFollows(Exec(INIT, actions), a, n);
  }

  /** An entry at rest has no directory. */
  ghost predicate Forgotten(s: State) {
    forall n :: n in s.services && s.services[n].status in {Unset, Discovered, Failed} ==> s.services[n].tempDir == ""
  }

  lemma StarterForgets(s: State, a: Action)
    requires Forgotten(s) && OfStarter(a) && a.t in s.tasks && s.tasks[a.t].Starter?
    ensures Forgotten(StarterStep(s, a))
  {
  }

  lemma ServiceForgets(s: State, a: Action)
    requires StatusOk(s) && Forgotten(s) && OfService(a)
    ensures Forgotten(Step(s, a))
  {
  }

  lemma StepForgets(s: State, a: Action)
    requires StatusOk(s) && Forgotten(s) && (a.CloseAll? ==> AtRest(s))
    ensures Forgotten(Step(s, a))
  {
    if OfService(a) {
      ServiceForgets(s, a);
    } else if OfStarter(a) {
      StepOfStarter(s, a);
      if a.t in s.tasks && s.tasks[a.t].Starter? {
        StarterForgets(s, a);
      }
    } else if OfCleanup(a) {
      StepOfCleanup(s, a);
    }
  }

  lemma {:induction false} RunForgets(actions: seq<Action>)
    requires ProperRun(actions) && ClosesAtRest(actions)
    ensures Forgotten(Exec(INIT, actions))
  {
    if actions != [] {
      var before := actions[..|actions| - 1];
      var c := RunKeeps(before);
      RunForgets(before);
      StepForgets(Exec(INIT, before), actions[|actions| - 1]);
    }
  }

  /** If Close never finds an entry Starting, an entry that is neither loaded nor in transition remembers no
      directory. */
  lemma IdleRemembersNothing(actions: seq<Action>, n: string)
    requires ProperRun(actions) && ClosesAtRest(actions) && AtIdle(Shown(Exec(INIT, actions), n))
    ensures var s := Exec(INIT, actions); s.services[n].loaded.None? && s.services[n].tempDir == ""
  {
    var c := RunKeeps(actions);
    RunForgets(actions);
  }
}

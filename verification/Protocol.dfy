/** The service lifecycle as a protocol: any number of starts, loads, stops, scans and closes in flight at once,
    each cut into steps at the places where it takes or releases a lock. A step that is not enabled does nothing,
    so a run is any sequence of actions whatsoever. */
module Protocol {
  import opened Text
  import opened Supervisor

  /** An instance whose binding session was attached at some point. `closes` counts the calls of its Close. */
  datatype Instance = Instance(name: string, tempDir: string, degraded: bool, closes: nat)

  /** How far cleanupLoaded has come: detach the bindings, remove the record, close the instance. */
  datatype Cleanup = Bound | Detached | Removed

  datatype StartPhase =
    | Loading                                      // the loader runs, nothing attached yet
    | Attached(i: InstanceId)                      // the loader runs, its instance is attached
    | Unbound(i: InstanceId)                       // the loader failed and detached its instance
    | LoadFailed                                   // about to record the failure
    | Loaded(i: InstanceId, degraded: bool)        // the loader returned
    | Rejected(i: InstanceId, cleanup: Cleanup)    // finishStartSuccess refused the instance
    | Publishing(i: InstanceId)                    // accepted, the record is not yet published

  datatype Task =
    | Starter(name: string, tempDir: string, start: StartPhase)
    | Stopper(name: string, i: InstanceId, cleanup: Cleanup)
    | Stopped(name: string, i: InstanceId, failed: bool)

  /** A start is known by a serial number, a stop by the instance it took. */
  datatype TaskId = Start(serial: nat) | Stop(i: InstanceId)

  /** The controller's lock, as far as it matters here: a callback that has found its service listed holds it until it
      has added the record, and no session comes or goes meanwhile. */
  datatype Callback = Free | Holding(name: string, i: InstanceId)

  datatype State = State(
    services: Services,
    sessions: map<string, InstanceId>,   // binding.Controller.sessions
    records: map<string, InstanceId>,    // the read model: whose snapshot was added last
    instances: seq<Instance>,
    tasks: map<TaskId, Task>,
    starts: nat,
    callback: Callback)

  datatype Action =
    | Scan(found: set<string>)
    | StartByName(name: string, tempDir: string)
    | Load(name: string, tempDir: string)
    | StopByName(name: string)
    | CloseAll
    | AbortLoad(t: TaskId)
    | AttachSession(t: TaskId)
    | LoaderDetach(t: TaskId)
    | LoaderClose(t: TaskId)
    | LoaderReturn(t: TaskId)
    | FinishStart(t: TaskId)
    | FinishFailure(t: TaskId)
    | Publish(t: TaskId)
    | CleanupDetach(t: TaskId)
    | CleanupRemove(t: TaskId)
    | CleanupClose(t: TaskId, failed: bool)
    | FinishStop(t: TaskId)
    | MarkDegraded(name: string)         // a failed registration through the session of `name`
    | Look(name: string)                 // publishOwner through the session of `name`: is it listed?
    | Relist                             // it was, and its record is added again

  predicate OfService(a: Action) {
    a.Scan? || a.StartByName? || a.Load? || a.StopByName?
  }

  predicate OfLoader(a: Action) {
    a.AbortLoad? || a.AttachSession? || a.LoaderDetach? || a.LoaderClose? || a.LoaderReturn?
  }

  predicate OfStarter(a: Action) {
    OfLoader(a) || a.FinishStart? || a.FinishFailure? || a.Publish?
  }

  predicate OfCleanup(a: Action) {
    a.CleanupDetach? || a.CleanupRemove? || a.CleanupClose?
  }

  const INIT := State(map[], map[], map[], [], map[], 0, Free)

  predicate InPhase(s: State, t: TaskId, phase: StartPhase) {
    t in s.tasks && s.tasks[t].Starter? && s.tasks[t].start == phase
  }

  function Flags(s: State): set<InstanceId> {
    set i: InstanceId | i < |s.instances| && s.instances[i].degraded
  }

  function Begin(s: State, services: Services, name: string, tempDir: string): State {
    s.(services := services, tasks := s.tasks[Start(s.starts) := Starter(name, tempDir, Loading)],
        starts := s.starts + 1)
  }

  function To(s: State, t: TaskId, phase: StartPhase): State
    requires t in s.tasks && s.tasks[t].Starter?
  {
    s.(tasks := s.tasks[t := s.tasks[t].(start := phase)])
  }

  function CloseInstance(s: State, i: InstanceId): State {
    if i < |s.instances| then s.(instances := s.instances[i := s.instances[i].(closes := s.instances[i].closes + 1)])
    else s
  }

  function AttachStep(s: State, t: TaskId): State
    requires t in s.tasks && s.tasks[t].Starter?
  {
    var task := s.tasks[t];
    var owner := Trim(task.name);
    if owner == "" || owner in s.sessions then To(s, t, LoadFailed)
    else
      var i := |s.instances|;
      To(s.(sessions := s.sessions[owner := i],
          instances := s.instances + [Instance(task.name, task.tempDir, false, 0)]),
         t, Attached(i))
  }

  function StarterStep(s: State, a: Action): State
    requires OfStarter(a)
    requires a.t in s.tasks && s.tasks[a.t].Starter?
  {
    var t := a.t;
    var task := s.tasks[t];
    match task.start
    case Loading =>
      if a.AttachSession? && s.callback.Free? then AttachStep(s, t)
      else if a.AbortLoad? then To(s, t, LoadFailed)
      else s
    case Attached(i) =>
      if a.LoaderReturn? then To(s, t, Loaded(i, i in Flags(s)))
      else if a.LoaderDetach? && s.callback.Free? then To(s.(sessions := s.sessions - {task.name}), t, Unbound(i))
      else s
    case Unbound(i) => if a.LoaderClose? then To(CloseInstance(s, i), t, LoadFailed) else s
    case LoadFailed =>
      if a.FinishFailure?
      then s.(services := AfterFinishFailure(s.services, Flags(s), task.name), tasks := s.tasks - {t})
      else s
    case Loaded(i, degraded) =>
      if a.FinishStart?
      then To(s.(services := AfterFinishStart(s.services, Flags(s), task.name, i, degraded)), t,
              if AcceptsStart(s.services, Flags(s), task.name) then Publishing(i) else Rejected(i, Bound))
      else s
    case Rejected(_, _) => s
    case Publishing(i) => if a.Publish? then s.(records := s.records[task.name := i], tasks := s.tasks - {t}) else s
  }

  /** The cleanup that a task is in, if any: the instance and how far it has come. */
  function CleanupOf(task: Task): Option<(InstanceId, Cleanup)> {
    match task
    case Starter(_, _, Rejected(i, c)) => Some((i, c))
    case Stopper(_, i, c) => Some((i, c))
    case _ => None
  }

  function WithCleanup(task: Task, c: Cleanup): Task
    requires CleanupOf(task).Some?
  {
    if task.Starter? then task.(start := Rejected(task.start.i, c)) else task.(cleanup := c)
  }

  function CleanupStep(s: State, a: Action): State
    requires OfCleanup(a) && a.t in s.tasks && CleanupOf(s.tasks[a.t]).Some?
  {
    var t := a.t;
    var task := s.tasks[t];
    var (i, c) := CleanupOf(task).value;
    match (a, c)
    case (CleanupDetach(_), Bound) =>
      if s.callback.Holding? then s
      else s.(sessions := s.sessions - {task.name}, tasks := s.tasks[t := WithCleanup(task, Detached)])
    case (CleanupRemove(_), Detached) =>
      s.(records := s.records - {task.name}, tasks := s.tasks[t := WithCleanup(task, Removed)])
    case (CleanupClose(_, failed), Removed) =>
      CloseInstance(s, i).(tasks := s.tasks[t := if task.Starter? then task.(start := LoadFailed)
          else Stopped(task.name, i, failed)])
    case _ => s
  }

  /** Close hands every loaded instance to a stopper named after the instance. */
  ghost function CloseStep(s: State): State {
    var stoppers := map t | t in set i | i in LoadedInstances(s.services) :: Stop(i) ::
      Stopper(if t.i < |s.instances| then s.instances[t.i].name else "", t.i, Bound);
    s.(services := AfterClose(s.services, Flags(s)), tasks := s.tasks + stoppers)
  }

  ghost function Step(s: State, a: Action): State {
    match a
    case Scan(found) => s.(services := AfterScan(s.services, Flags(s), found))
    case StartByName(raw, tempDir) =>
      var name := Trim(raw);
      if name != "" && StartByNameOutcome(s.services, Flags(s), name) == Begun
      then Begin(s, AfterStartByName(s.services, Flags(s), name, tempDir), name, tempDir) else s
    case Load(name, tempDir) =>
      if Trim(name) != "" && LoadOutcome(s.services, Flags(s), name) == Begun
      then Begin(s, AfterLoad(s.services, Flags(s), name, tempDir), name, tempDir) else s
    case StopByName(raw) =>
      var name := Trim(raw);
      var outcome := StopOutcomeOf(s.services, Flags(s), name);
      if name != "" && outcome.Draining?
      then s.(services := AfterStop(s.services, Flags(s), name),
              tasks := s.tasks[Stop(outcome.instance) := Stopper(name, outcome.instance, Bound)])
      else s
    case CloseAll => CloseStep(s)
    case CleanupDetach(t) => if t in s.tasks && CleanupOf(s.tasks[t]).Some? then CleanupStep(s, a) else s
    case CleanupRemove(t) => if t in s.tasks && CleanupOf(s.tasks[t]).Some? then CleanupStep(s, a) else s
    case CleanupClose(t, _) => if t in s.tasks && CleanupOf(s.tasks[t]).Some? then CleanupStep(s, a) else s
    case FinishStop(t) =>
      if t in s.tasks && s.tasks[t].Stopped?
      then s.(services := AfterFinishStop(s.services, Flags(s), s.tasks[t].name, if s.tasks[t].failed then Failed
          else Discovered),
              tasks := s.tasks - {t})
      else s
    case MarkDegraded(name) =>
      if name in s.sessions && s.sessions[name] < |s.instances|
      then s.(instances := s.instances[s.sessions[name] := s.instances[s.sessions[name]].(degraded := true)]) else s
    case Look(name) =>
      if s.callback.Free? && name in s.sessions && name in s.records
      then s.(callback := Holding(name, s.sessions[name])) else s
    case Relist =>
      if s.callback.Holding? then s.(records := s.records[s.callback.name := s.callback.i], callback := Free) else s
    case _ => if a.t in s.tasks && s.tasks[a.t].Starter? then StarterStep(s, a) else s
  }

  ghost function Exec(s: State, actions: seq<Action>): State {
    if actions == [] then s else Step(Exec(s, actions[..|actions| - 1]), actions[|actions| - 1])
  }

  /** A step of a start that is not there, or past that step, does nothing. */
  lemma StepOfStarter(s: State, a: Action)
    requires OfStarter(a)
    ensures Step(s, a) == if a.t in s.tasks && s.tasks[a.t].Starter? then StarterStep(s, a) else s
  {
  }

  lemma StepOfCleanup(s: State, a: Action)
    requires OfCleanup(a)
    ensures Step(s, a) == if a.t in s.tasks && CleanupOf(s.tasks[a.t]).Some? then CleanupStep(s, a) else s
  {
  }
}

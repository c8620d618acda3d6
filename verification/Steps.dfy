/** What the steps of one operation make of a state, spelled out. */
module Steps {
  import opened Text
  import opened Supervisor
  import opened Protocol

  function Entered(s: State, t: TaskId, phase: StartPhase): map<TaskId, Task>
    requires t in s.tasks && s.tasks[t].Starter?
  {
    s.tasks[t := s.tasks[t].(start := phase)]
  }

  lemma Attaches(s: State, t: TaskId)
    requires InPhase(s, t, Loading) && s.callback.Free?
    requires Trimmed(s.tasks[t].name) && s.tasks[t].name != "" && s.tasks[t].name !in s.sessions
    ensures var task, i := s.tasks[t], |s.instances|;
            Step(s, AttachSession(t)) ==
            s.(sessions := s.sessions[task.name := i],
               instances := s.instances + [Instance(task.name, task.tempDir, false, 0)],
               tasks := Entered(s, t, Attached(i)))
  {
  }

  lemma Returns(s: State, t: TaskId, i: InstanceId)
    requires InPhase(s, t, Attached(i))
    ensures Step(s, LoaderReturn(t)) == s.(tasks := Entered(s, t, Loaded(i, i in Flags(s))))
  {
  }

  lemma Refuses(s: State, t: TaskId, i: InstanceId, degraded: bool)
    requires InPhase(s, t, Loaded(i, degraded)) && s.tasks[t].name in s.services
    requires !AcceptsStart(s.services, Flags(s), s.tasks[t].name)
    ensures Step(s, FinishStart(t)) == s.(tasks := Entered(s, t, Rejected(i, Bound)))
  {
  }

  lemma Accepts(s: State, t: TaskId, i: InstanceId, degraded: bool)
    requires InPhase(s, t, Loaded(i, degraded)) && AcceptsStart(s.services, Flags(s), s.tasks[t].name)
    ensures var n := s.tasks[t].name;
            Step(s, FinishStart(t)) ==
            s.(services := s.services[n := Entry(true, Some(i), s.services[n].tempDir, if degraded then Degraded
                else Running)],
               tasks := Entered(s, t, Publishing(i)))
  {
  }

  lemma Publishes(s: State, t: TaskId, i: InstanceId)
    requires InPhase(s, t, Publishing(i))
    ensures Step(s, Publish(t)) == s.(records := s.records[s.tasks[t].name := i], tasks := s.tasks - {t})
  {
  }

  lemma DetachesRefused(s: State, t: TaskId, i: InstanceId)
    requires InPhase(s, t, Rejected(i, Bound)) && s.callback.Free?
    ensures Step(s, CleanupDetach(t)) ==
            s.(sessions := s.sessions - {s.tasks[t].name}, tasks := Entered(s, t, Rejected(i, Detached)))
  {
  }

  lemma RemovesRefused(s: State, t: TaskId, i: InstanceId)
    requires InPhase(s, t, Rejected(i, Detached))
    ensures Step(s, CleanupRemove(t)) ==
            s.(records := s.records - {s.tasks[t].name}, tasks := Entered(s, t, Rejected(i, Removed)))
  {
  }

  lemma ClosesUnbound(s: State, t: TaskId, i: InstanceId)
    requires InPhase(s, t, Unbound(i))
    ensures Step(s, LoaderClose(t)) == CloseInstance(s, i).(tasks := Entered(s, t, LoadFailed))
  {
  }

  /** A load begins where the entry is idle. */
  lemma Begins(s: State, name: string, tempDir: string)
    requires Trim(name) != "" && (name in s.services ==> AllowsStart(CurrentStatus(s.services[name], Flags(s))))
    ensures var loaded := if name in s.services then s.services[name].loaded else None;
            Step(s, Load(name, tempDir)) ==
            Begin(s, s.services[name := Entry(true, loaded, tempDir, Starting)], name, tempDir)
  {
  }

  lemma FailsStarting(s: State, t: TaskId)
    requires InPhase(s, t, LoadFailed) && AcceptsStart(s.services, Flags(s), s.tasks[t].name)
    ensures var n := s.tasks[t].name;
            Step(s, FinishFailure(t)) ==
            s.(services := s.services[n := s.services[n].(loaded := None, tempDir := "", status := Failed)],
               tasks := s.tasks - {t})
  {
  }

  lemma Fails(s: State, t: TaskId)
    requires InPhase(s, t, LoadFailed)
    ensures Step(s, FinishFailure(t)) ==
            s.(services := AfterFinishFailure(s.services, Flags(s), s.tasks[t].name), tasks := s.tasks - {t})
  {
  }

  lemma StopperDetaches(s: State, t: TaskId, n: string, i: InstanceId)
    requires t in s.tasks && s.tasks[t] == Stopper(n, i, Bound) && s.callback.Free?
    ensures Step(s, CleanupDetach(t)) ==
            s.(sessions := s.sessions - {n}, tasks := s.tasks[t := Stopper(n, i, Detached)])
  {
  }

  lemma StopperRemoves(s: State, t: TaskId, n: string, i: InstanceId)
    requires t in s.tasks && s.tasks[t] == Stopper(n, i, Detached)
    ensures Step(s, CleanupRemove(t)) == s.(records := s.records - {n}, tasks := s.tasks[t := Stopper(n, i, Removed)])
  {
  }

  lemma StopperCloses(s: State, t: TaskId, n: string, i: InstanceId)
    requires t in s.tasks && s.tasks[t] == Stopper(n, i, Removed)
    ensures Step(s, CleanupClose(t, false)) == CloseInstance(s, i).(tasks := s.tasks[t := Stopped(n, i, false)])
  {
  }

  lemma StopRests(s: State, t: TaskId, n: string, i: InstanceId)
    requires t in s.tasks && s.tasks[t] == Stopped(n, i, false)
    requires n in s.services && s.services[n].status == Stopping
    ensures var e := s.services[n].(loaded := None, tempDir := "", status := Discovered);
            Step(s, FinishStop(t)) == s.(services := s.services[n := e], tasks := s.tasks - {t})
  {
  }

  lemma StopBegins(s: State, raw: string, i: InstanceId)
    requires Trim(raw) != "" && Trim(raw) in s.services
    requires IsRunning(s.services[Trim(raw)].status) && s.services[Trim(raw)].loaded == Some(i)
    ensures var n := Trim(raw);
            Step(s, StopByName(raw)) ==
            s.(services := s.services[n := s.services[n].(loaded := None, status := Stopping)],
               tasks := s.tasks[Stop(i) := Stopper(n, i, Bound)])
  {
  }
}

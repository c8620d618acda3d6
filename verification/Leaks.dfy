/** Why package names must be trimmed. Attach trims the name of its owner and Detach does not: a package loaded by path
    under a name with white space around it can leave a session behind, and that session lasts. */
module Leaks {
  import opened Text
  import opened Supervisor
  import opened Protocol
  import opened Ownership
  import opened Shutdown
  import opened Steps

  /** Session n belongs to an instance that was attached under another name, and nothing is held under its own. */
  ghost predicate Leaked(s: State, n: string, i: InstanceId) {
    && Proper(n) && n in s.sessions && s.sessions[n] == i
    && (forall k :: 0 <= k < |s.instances| ==> s.instances[k].name != n)
    && (forall t :: t in s.tasks && s.tasks[t].name == n ==> HoldsNothing(s.tasks[t]))
    && (n in s.services ==> s.services[n].loaded.None?)
  }

  predicate HoldsNothing(task: Task) {
    task.Starter? && (task.start.Loading? || task.start.LoadFailed?)
  }

  /** A start of that name gets nowhere, and the sessions of others are of other names. */
  lemma StarterHoldsNothing(s: State, a: Action, n: string)
    requires OfStarter(a) && a.t in s.tasks && s.tasks[a.t].Starter? && n in s.sessions && Proper(n)
    requires s.tasks[a.t].name == n ==> HoldsNothing(s.tasks[a.t])
    ensures var s', task := StarterStep(s, a), s.tasks[a.t];
            && n in s'.sessions && s'.sessions[n] == s.sessions[n]
            && (task.name == n ==>
                  && (a.t in s'.tasks ==> HoldsNothing(s'.tasks[a.t]))
                  && |s'.instances| == |s.instances|)
            && (n in s'.services && s'.services[n].loaded.Some? ==> n in s.services && s.services[n].loaded.Some?)
  {
  }

  lemma StarterLeaked(s: State, a: Action, n: string, i: InstanceId)
    requires Leaked(s, n, i)
    requires OfStarter(a)
    requires a.t in s.tasks && s.tasks[a.t].Starter?
    ensures Leaked(StarterStep(s, a), n, i)
  {
    StarterShape(s, a);
    StarterHoldsNothing(s, a, n);
  }

  lemma CleanupLeaked(s: State, a: Action, n: string, i: InstanceId)
    requires Leaked(s, n, i) && OfCleanup(a)
    requires a.t in s.tasks && CleanupOf(s.tasks[a.t]).Some?
    ensures Leaked(CleanupStep(s, a), n, i)
  {
  }

  lemma ServiceLeaked(s: State, a: Action, n: string, i: InstanceId)
    requires Leaked(s, n, i) && OfService(a)
    ensures Leaked(Step(s, a), n, i)
  {
  }

  lemma CloseLeaked(s: State, n: string, i: InstanceId)
    requires Leaked(s, n, i)
    ensures Leaked(CloseStep(s), n, i)
  {
  }

  lemma StepLeaked(s: State, a: Action, n: string, i: InstanceId)
    requires Leaked(s, n, i)
    ensures Leaked(Step(s, a), n, i)
  {
    if OfService(a) {
      ServiceLeaked(s, a, n, i);
    } else if a.CloseAll? {
      CloseLeaked(s, n, i);
    } else if OfCleanup(a) {
      if a.t in s.tasks && CleanupOf(s.tasks[a.t]).Some? {
        CleanupLeaked(s, a, n, i);
      }
    } else if OfStarter(a) {
      if a.t in s.tasks && s.tasks[a.t].Starter? {
        StarterLeaked(s, a, n, i);
      }
    }
  }

  /** A leaked session stays, whatever happens, and no service of that name is ever loaded again. */
  lemma {:induction false} LeakBlocksEveryStart(s: State, actions: seq<Action>, n: string, i: InstanceId)
    requires Leaked(s, n, i)
    ensures Leaked(Exec(s, actions), n, i)
  {
    if actions != [] {
      LeakBlocksEveryStart(s, actions[..|actions| - 1], n, i);
      StepLeaked(Exec(s, actions[..|actions| - 1]), actions[|actions| - 1], n, i);
    }
  }

  /** The name is free: nothing was ever attached under it and nothing is about to be. */
  ghost predicate Unused(s: State, n: string) {
    && n !in s.sessions
    && (forall k :: 0 <= k < |s.instances| ==> s.instances[k].name != n)
    && (forall t :: t in s.tasks && s.tasks[t].name == n ==> HoldsNothing(s.tasks[t]))
    && (n in s.services ==> s.services[n].loaded.None?)
  }

  /** Every load under a name that is not trimmed can leak the session of the trimmed name, whenever that is free: its
      loader need only fail after it has attached, when a callback in progress has returned. The instance is closed and
      the session is still there. */
  lemma UntrimmedLoadCanLeak(s: State, name: string, tempDir: string) returns (s': State)
    requires Trim(name) != "" && !Trimmed(name) && Unused(s, Trim(name)) && Start(s.starts) !in s.tasks
    requires LoadOutcome(s.services, Flags(s), name) == Begun
    ensures s' == Exec(s, [Relist] + FailingLoad(name, tempDir, Start(s.starts)))
    ensures Leaked(s', Trim(name), |s.instances|) && s'.tasks == s.tasks
    ensures |s'.instances| == |s.instances| + 1 && s'.instances[|s.instances|] == Instance(name, tempDir, false, 1)
  {
    s' := LoadLeaks(Step(s, Relist), name, tempDir);
    ExecAppend(s, [], Relist);
    assert [] + [Relist] == [Relist];
    ExecConcat(s, [Relist], FailingLoad(name, tempDir, Start(s.starts)));
  }

  lemma LoadLeaks(s: State, name: string, tempDir: string) returns (s': State)
    requires Trim(name) != "" && !Trimmed(name) && Unused(s, Trim(name)) && Start(s.starts) !in s.tasks
    requires LoadOutcome(s.services, Flags(s), name) == Begun && s.callback.Free?
    ensures s' == Exec(s, FailingLoad(name, tempDir, Start(s.starts)))
    ensures Leaked(s', Trim(name), |s.instances|) && s'.tasks == s.tasks
    ensures |s'.instances| == |s.instances| + 1 && s'.instances[|s.instances|] == Instance(name, tempDir, false, 1)
  {
    var t := Start(s.starts);
    var s1, s2, s3, s4 := LoadUnwinds(s, name, tempDir);
    s' := Step(s4, FinishFailure(t));
    FailureLeaks(s, s4, t, name);
    FiveSteps(s, FailingLoad(name, tempDir, t), s1, s2, s3, s4, s');
  }

  /** The first four of these steps. */
  lemma LoadUnwinds(s: State, name: string, tempDir: string) returns (s1: State, s2: State, s3: State, s4: State)
    requires Trim(name) != "" && !Trimmed(name) && Unused(s, Trim(name)) && Start(s.starts) !in s.tasks
    requires LoadOutcome(s.services, Flags(s), name) == Begun && s.callback.Free?
    ensures var run := FailingLoad(name, tempDir, Start(s.starts));
      s1 == Step(s, run[0]) && s2 == Step(s1, run[1]) && s3 == Step(s2, run[2]) && s4 == Step(s3, run[3])
    ensures InPhase(s4, Start(s.starts), LoadFailed) && s4.tasks[Start(s.starts)].name == name
    ensures s4.tasks - {Start(s.starts)} == s.tasks
    ensures s4.sessions == s.sessions[Trim(name) := |s.instances|] - {name}
    ensures s4.instances == s.instances + [Instance(name, tempDir, false, 1)]
    ensures Trim(name) in s4.services ==> Trim(name) in s.services && s4.services[Trim(name)] == s.services[Trim(name)]
  {
    var t, i := Start(s.starts), |s.instances|;
    Begins(s, name, tempDir);
    s1 := Step(s, Load(name, tempDir));
    s2 := UntrimmedAttaches(s1, t);
    s3, s4 := UntrimmedUnwinds(s2, t, i);
  }

  function FailingLoad(name: string, tempDir: string, t: TaskId): seq<Action> {
    [Load(name, tempDir), AttachSession(t), LoaderDetach(t), LoaderClose(t), FinishFailure(t)]
  }

  lemma FailureLeaks(s: State, s4: State, t: TaskId, name: string)
    requires Trim(name) != "" && !Trimmed(name) && Unused(s, Trim(name))
    requires InPhase(s4, t, LoadFailed) && s4.tasks[t].name == name && s4.tasks - {t} == s.tasks
    requires s4.sessions == s.sessions[Trim(name) := |s.instances|] - {name}
    requires |s4.instances| == |s.instances| + 1 && s4.instances[..|s.instances|] == s.instances
    requires s4.instances[|s.instances|].name == name
    requires Trim(name) in s4.services ==> Trim(name) in s.services && s4.services[Trim(name)] == s.services[Trim(name)]
    ensures Leaked(Step(s4, FinishFailure(t)), Trim(name), |s.instances|)
    ensures Step(s4, FinishFailure(t)).tasks == s.tasks && Step(s4, FinishFailure(t)).instances == s4.instances
  {
    TrimIdempotent(name);
    Fails(s4, t);
  }

  lemma UntrimmedAttaches(s: State, t: TaskId) returns (s': State)
    requires InPhase(s, t, Loading) && s.callback.Free?
    requires Trim(s.tasks[t].name) != "" && Trim(s.tasks[t].name) !in s.sessions
    ensures s' == Step(s, AttachSession(t))
    ensures var task, i := s.tasks[t], |s.instances|;
            s' == s.(sessions := s.sessions[Trim(task.name) := i],
                     instances := s.instances + [Instance(task.name, task.tempDir, false, 0)],
                     tasks := Entered(s, t, Attached(i)))
  {
    s' := Step(s, AttachSession(t));
  }

  lemma UntrimmedUnwinds(s: State, t: TaskId, i: InstanceId) returns (s1: State, s2: State)
    requires InPhase(s, t, Attached(i)) && i < |s.instances| && s.callback.Free?
    ensures s1 == Step(s, LoaderDetach(t)) && s2 == Step(s1, LoaderClose(t))
    ensures s2 == s.(sessions := s.sessions - {s.tasks[t].name},
                     instances := s.instances[i := s.instances[i].(closes := s.instances[i].closes + 1)],
                     tasks := Entered(s, t, LoadFailed))
  {
    s1 := Step(s, LoaderDetach(t));
    assert s1 == s.(sessions := s.sessions - {s.tasks[t].name}, tasks := Entered(s, t, Unbound(i)));
    ClosesUnbound(s1, t, i);
    s2 := Step(s1, LoaderClose(t));
  }

  /** The least of these runs: " a" is loaded by path and fails, and the session "a" remains. */
  lemma UntrimmedLoadLeaksItsSession() returns (run: seq<Action>)
    ensures forall a :: a in run && a.Load? ==> a.name == " a"
    ensures var s := Exec(INIT, run);
      s.tasks == map[] && s.sessions == map["a" := 0] && s.instances == [Instance(" a", "d", false, 1)]
  {
    assert TrimLeft(" a") == TrimLeft("a") == "a";
    assert Trim(" a") == "a";
    var t := Start(0);
    run := FailingLoad(" a", "d", t);
    var s1, s2, s3, s4 := LoadUnwinds(INIT, " a", "d");
    assert s4.sessions == map["a" := 0];
    Fails(s4, t);
    assert s4.tasks - {t} == map[];
    FiveSteps(INIT, run, s1, s2, s3, s4, Step(s4, FinishFailure(t)));
  }

  lemma FiveSteps(s: State, run: seq<Action>, s1: State, s2: State, s3: State, s4: State, s5: State)
    requires |run| == 5 && s1 == Step(s, run[0]) && s2 == Step(s1, run[1]) && s3 == Step(s2, run[2])
    requires s4 == Step(s3, run[3]) && s5 == Step(s4, run[4])
    ensures Exec(s, run) == s5
  {
    ExecAppend(s, [], run[0]);
    assert run[..1] == [] + [run[0]];
    ExecAppend(s, run[..1], run[1]);
    assert run[..2] == run[..1] + [run[1]];
    ExecAppend(s, run[..2], run[2]);
    assert run[..3] == run[..2] + [run[2]];
    ExecAppend(s, run[..3], run[3]);
    assert run[..4] == run[..3] + [run[3]];
    ExecAppend(s, run[..4], run[4]);
    assert run == run[..4] + [run[4]];
  }
}

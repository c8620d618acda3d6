/** How runs end: every operation in flight can be completed, a Close leaves nothing behind, and what Close costs
    the operations it overtakes. */
module Shutdown {
  import opened Text
  import opened Supervisor
  import opened Protocol
  import opened Ownership
  import opened Steps

  // ---------- No operation is ever blocked ----------

  /** The cleanup is about to detach, and a callback holds the controller's lock. */
  predicate Waits(s: State, task: Task) {
    s.callback.Holding? && CleanupOf(task).Some? && CleanupOf(task).value.1.Bound?
  }

  /** How many steps a task needs at most, if its loader gives up at the first opportunity. */
  function StepsLeft(s: State, task: Task): nat {
    TaskLeft(task) + if Waits(s, task) then 1 else 0
  }

  function TaskLeft(task: Task): nat {
    match task
    case Starter(_, _, Loading) => 2
    case Starter(_, _, Attached(_)) => 7
    case Starter(_, _, Unbound(_)) => 2
    case Starter(_, _, LoadFailed) => 1
    case Starter(_, _, Loaded(_, _)) => 6
    case Starter(_, _, Rejected(_, c)) => CleanupLeft(c)
    case Starter(_, _, Publishing(_)) => 1
    case Stopper(_, _, c) => CleanupLeft(c)
    case Stopped(_, _, _) => 1
  }

  function CleanupLeft(c: Cleanup): nat {
    match c case Bound => 4 case Detached => 3 case Removed => 2
  }

  predicate IsNewStart(a: Action) {
    a.StartByName? || a.Load?
  }

  predicate BeginsNothing(a: Action) {
    !IsNewStart(a) && !a.StopByName? && !a.CloseAll? && !a.Look?
  }

  function NextOfCleanup(t: TaskId, c: Cleanup): Action {
    match c case Bound => CleanupDetach(t) case Detached => CleanupRemove(t) case Removed => CleanupClose(t, false)
  }

  function NextOfTask(t: TaskId, task: Task): (a: Action)
    ensures BeginsNothing(a)
  {
    match task
    case Starter(_, _, Loading) => AbortLoad(t)
    case Starter(_, _, Attached(_)) => LoaderReturn(t)
    case Starter(_, _, Unbound(_)) => LoaderClose(t)
    case Starter(_, _, LoadFailed) => FinishFailure(t)
    case Starter(_, _, Loaded(_, _)) => FinishStart(t)
    case Starter(_, _, Rejected(_, c)) => NextOfCleanup(t, c)
    case Starter(_, _, Publishing(_)) => Publish(t)
    case Stopper(_, _, c) => NextOfCleanup(t, c)
    case Stopped(_, _, _) => FinishStop(t)
  }

  /** What brings the task forward: its own next step, or that of the callback that it waits for. */
  function NextOf(s: State, t: TaskId, task: Task): (a: Action)
    ensures BeginsNothing(a)
  {
    if Waits(s, task) then Relist else NextOfTask(t, task)
  }

  /** A step brings task t closer to its end and moves no other task. */
  ghost predicate Advances(s: State, s': State, t: TaskId)
    requires t in s.tasks
  {
    && s'.tasks - {t} == s.tasks - {t}
    && (t in s'.tasks ==> StepsLeft(s', s'.tasks[t]) < StepsLeft(s, s.tasks[t]))
  }

  lemma StarterLess(s: State, t: TaskId, a: Action)
    requires t in s.tasks && s.tasks[t].Starter? && a == NextOfTask(t, s.tasks[t]) && OfStarter(a)
    ensures var s' := StarterStep(s, a);
      t in s'.tasks ==> StepsLeft(s', s'.tasks[t]) < StepsLeft(s, s.tasks[t])
  {
  }

  lemma StarterAdvances(s: State, t: TaskId)
    requires t in s.tasks && s.tasks[t].Starter? && !s.tasks[t].start.Rejected?
    ensures Advances(s, Step(s, NextOf(s, t, s.tasks[t])), t)
  {
    var a := NextOfTask(t, s.tasks[t]);
    StepOfStarter(s, a);
    StarterTasks(s, a);
    StarterLess(s, t, a);
  }

  lemma CleanupAdvances(s: State, t: TaskId)
    requires t in s.tasks && CleanupOf(s.tasks[t]).Some?
    ensures Advances(s, Step(s, NextOf(s, t, s.tasks[t])), t)
  {
    var a := NextOf(s, t, s.tasks[t]);
    if !Waits(s, s.tasks[t]) {
      assert Step(s, a) == CleanupStep(s, a);
    }
  }

  /** Whatever the state, the next step of a task is enabled. */
  lemma NextAdvances(s: State, t: TaskId)
    requires t in s.tasks
    ensures Advances(s, Step(s, NextOf(s, t, s.tasks[t])), t)
  {
    if CleanupOf(s.tasks[t]).Some? { CleanupAdvances(s, t); }
    else if s.tasks[t].Starter? { StarterAdvances(s, t); }
  }

  lemma ExecAppend(s: State, actions: seq<Action>, a: Action)
    ensures Exec(s, actions + [a]) == Step(Exec(s, actions), a)
  {
    assert (actions + [a])[..|actions|] == actions;
  }

  lemma {:induction false} ExecConcat(s: State, xs: seq<Action>, ys: seq<Action>)
    ensures Exec(s, xs + ys) == Exec(Exec(s, xs), ys)
  {
    if ys == [] {
      assert xs + ys == xs;
    } else {
      var init, a := ys[..|ys| - 1], ys[|ys| - 1];
      ExecConcat(s, xs, init);
      ExecAppend(s, xs + init, a);
      ExecAppend(Exec(s, xs), init, a);
      assert xs + ys == (xs + init) + [a] && ys == init + [a];
    }
  }

  ghost predicate StartsNothing(actions: seq<Action>) {
    forall a :: a in actions ==> BeginsNothing(a)
  }

  lemma FewerTasks(tasks: map<TaskId, Task>, t: TaskId)
    requires t in tasks
    ensures |tasks - {t}| < |tasks|
  {
    assert (tasks - {t}).Keys == tasks.Keys - {t};
    assert |tasks - {t}| == |tasks.Keys - {t}| && |tasks| == |tasks.Keys|;
  }

  /** The operations in flight, left to themselves, run to completion: from any state, by steps of those operations
      alone, to one with nothing in flight. */
  lemma OperationsCanComplete(s: State) returns (more: seq<Action>)
    ensures Exec(s, more).tasks == map[] && Exec(s, more).callback.Free? && StartsNothing(more)
  {
    var first := TasksCanComplete(s);
    ExecAppend(s, first, Relist);
    more := first + [Relist];
  }

  lemma {:induction false} TasksCanComplete(s: State) returns (more: seq<Action>)
    ensures Exec(s, more).tasks == map[] && StartsNothing(more)
    decreases |s.tasks|
  {
    if s.tasks == map[] {
      more := [];
    } else {
      var t :| t in s.tasks;
      var first := CompleteOne(s, t);
      FewerTasks(s.tasks, t);
      var rest := TasksCanComplete(Exec(s, first));
      ExecConcat(s, first, rest);
      more := first + rest;
    }
  }

  lemma {:induction false} CompleteOne(s: State, t: TaskId) returns (more: seq<Action>)
    requires t in s.tasks
    ensures Exec(s, more).tasks == s.tasks - {t} && StartsNothing(more)
    decreases StepsLeft(s, s.tasks[t])
  {
    var a := NextOf(s, t, s.tasks[t]);
    var s' := Step(s, a);
    NextAdvances(s, t);
    assert Exec(s, [a]) == s' by { ExecAppend(s, [], a); assert [] + [a] == [a]; }
    if t in s'.tasks {
      var rest := CompleteOne(s', t);
      ExecConcat(s, [a], rest);
      more := [a] + rest;
    } else {
      assert s'.tasks == s'.tasks - {t};
      more := [a];
    }
  }

  // ---------- Close leaves nothing behind ----------

  /** No instance is loaded and no start would be accepted. */
  ghost predicate Down(s: State) {
    forall n :: n in s.services ==> s.services[n].loaded.None? && s.services[n].status != Starting
  }

  lemma ServiceStaysDown(s: State, a: Action)
    requires Down(s) && (a.Scan? || a.StopByName?)
    ensures Down(Step(s, a))
  {
  }

  lemma StarterStaysDown(s: State, a: Action)
    requires Down(s) && OfStarter(a) && a.t in s.tasks && s.tasks[a.t].Starter?
    ensures Down(StarterStep(s, a))
  {
    assert !AcceptsStart(s.services, Flags(s), s.tasks[a.t].name);
  }

  lemma StepStaysDown(s: State, a: Action)
    requires Down(s) && !IsNewStart(a)
    ensures Down(Step(s, a))
  {
    if OfService(a) {
      ServiceStaysDown(s, a);
    } else if OfStarter(a) {
      StepOfStarter(s, a);
      if a.t in s.tasks && s.tasks[a.t].Starter? {
        StarterStaysDown(s, a);
      }
    } else if OfCleanup(a) {
      StepOfCleanup(s, a);
    }
  }

  lemma CloseGoesDown(s: State, c: Ledger)
    requires Inv(s, c)
    ensures Down(CloseStep(s))
  {
  }

  lemma {:induction false} DownAfterClose(before: seq<Action>, after: seq<Action>)
    requires ProperRun(before)
    requires forall a :: a in after ==> !IsNewStart(a)
    ensures Down(Exec(INIT, before + [CloseAll] + after))
  {
    if after == [] {
      var c := RunKeeps(before);
      assert before + [CloseAll] + after == before + [CloseAll];
      ExecAppend(INIT, before, CloseAll);
      CloseGoesDown(Exec(INIT, before), c);
    } else {
      var init := after[..|after| - 1];
      DownAfterClose(before, init);
      assert before + [CloseAll] + after == (before + [CloseAll] + init) + [after[|after| - 1]];
      ExecAppend(INIT, before + [CloseAll] + init, after[|after| - 1]);
      StepStaysDown(Exec(INIT, before + [CloseAll] + init), after[|after| - 1]);
    }
  }

  /** Close at any moment of any run, whatever it overtakes: if no start begins afterwards, then once nothing is in
      flight no session is left and every instance ever attached has been closed exactly once. */
  lemma CloseLeavesNothingBehind(before: seq<Action>, after: seq<Action>)
    requires ProperRun(before) && forall a :: a in after ==> !IsNewStart(a)
    requires Exec(INIT, before + [CloseAll] + after).tasks == map[]
    ensures var s := Exec(INIT, before + [CloseAll] + after);
      s.sessions == map[] && forall i :: 0 <= i < |s.instances| ==> s.instances[i].closes == 1
  {
    DownAfterClose(before, after);
    QuietMeansConsistent(before + [CloseAll] + after);
  }

  // ---------- What Close costs the operations it overtakes ----------

  lemma Extend(run: seq<Action>, a: Action) returns (longer: seq<Action>)
    requires ProperRun(run) && ProperLoad(a)
    ensures ProperRun(longer) && Exec(INIT, longer) == Step(Exec(INIT, run), a)
  {
    longer := run + [a];
    ExecAppend(INIT, run, a);
  }

  lemma StartedRun() returns (run: seq<Action>)
    ensures ProperRun(run) && Exec(INIT, run) ==
      State(map["a" := Entry(true, None, "d", Starting)], map[], map[], [],
          map[Start(0) := Starter("a", "d", Loading)], 1, Free)
  {
    run := Extend([], Scan({"a"}));
    assert Exec(INIT, run).services == map["a" := FRESH];
    assert Trim("a") == "a";
    run := Extend(run, StartByName("a", "d"));
  }

  lemma AttachedRun() returns (run: seq<Action>)
    ensures ProperRun(run) && Exec(INIT, run) ==
      State(map["a" := Entry(true, None, "d", Starting)], map["a" := 0], map[], [Instance("a", "d", false, 0)],
            map[Start(0) := Starter("a", "d", Attached(0))], 1, Free)
  {
    run := StartedRun();
    assert Trim("a") == "a";
    Attaches(Exec(INIT, run), Start(0));
    run := Extend(run, AttachSession(Start(0)));
  }

  /** The service "a" is found and started; its instance is attached and the loader has returned. */
  lemma LoadedRun() returns (run: seq<Action>)
    ensures ProperRun(run) && Exec(INIT, run) ==
      State(map["a" := Entry(true, None, "d", Starting)], map["a" := 0], map[], [Instance("a", "d", false, 0)],
            map[Start(0) := Starter("a", "d", Loaded(0, false))], 1, Free)
  {
    run := AttachedRun();
    Returns(Exec(INIT, run), Start(0), 0);
    run := Extend(run, LoaderReturn(Start(0)));
  }

  /** Close finds nothing loaded and flips the entry to Failed. */
  lemma ClosedRun() returns (run: seq<Action>)
    ensures ProperRun(run) && Exec(INIT, run) ==
      State(map["a" := Entry(true, None, "d", Failed)], map["a" := 0], map[], [Instance("a", "d", false, 0)],
            map[Start(0) := Starter("a", "d", Loaded(0, false))], 1, Free)
  {
    run := LoadedRun();
    var s := Exec(INIT, run);
    run := Extend(run, CloseAll);
    assert LoadedInstances(s.services) == {};
    assert Exec(INIT, run).services == map["a" := Entry(true, None, "d", Failed)];
    assert Exec(INIT, run).tasks == s.tasks;
  }

  /** A second start, under another directory, begins before the first has reported. */
  lemma OvertakenRun() returns (run: seq<Action>)
    ensures ProperRun(run) && Exec(INIT, run) ==
      State(map["a" := Entry(true, None, "e", Starting)], map["a" := 0], map[], [Instance("a", "d", false, 0)],
            map[Start(0) := Starter("a", "d", Loaded(0, false)), Start(1) := Starter("a", "e", Loading)], 2, Free)
  {
    run := ClosedRun();
    assert Trim("a") == "a";
    run := Extend(run, StartByName("a", "e"));
  }

  /** With Close, a start can be refused although nothing went wrong. */
  lemma CloseRefusesAStart() returns (run: seq<Action>)
    ensures ProperRun(run)
    ensures var s := Exec(INIT, run);
      Start(0) in s.tasks && s.tasks[Start(0)] == Starter("a", "d", Rejected(0, Bound))
  {
    run := RefusedRun();
  }

  /** With Close, an entry can keep the directory of a later start than the one it loaded. */
  lemma CloseMixesUpDirectories() returns (run: seq<Action>)
    ensures ProperRun(run)
    ensures var s := Exec(INIT, run);
      "a" in s.services && s.services["a"] == Entry(true, Some(0), "e", Running)
          && s.instances == [Instance("a", "d", false, 0)]
  {
    run := OvertakenRun();
    Accepts(Exec(INIT, run), Start(0), 0, false);
    run := Extend(run, FinishStart(Start(0)));
  }

  lemma RefusedRun() returns (run: seq<Action>)
    ensures ProperRun(run) && Exec(INIT, run) ==
      State(map["a" := Entry(true, None, "d", Failed)], map["a" := 0], map[], [Instance("a", "d", false, 0)],
            map[Start(0) := Starter("a", "d", Rejected(0, Bound))], 1, Free)
  {
    run := ClosedRun();
    Refuses(Exec(INIT, run), Start(0), 0, false);
    run := Extend(run, FinishStart(Start(0)));
  }

  lemma DetachedRun() returns (run: seq<Action>)
    ensures ProperRun(run) && Exec(INIT, run) ==
      State(map["a" := Entry(true, None, "d", Failed)], map[], map[], [Instance("a", "d", false, 0)],
            map[Start(0) := Starter("a", "d", Rejected(0, Detached))], 1, Free)
  {
    run := RefusedRun();
    DetachesRefused(Exec(INIT, run), Start(0), 0);
    run := Extend(run, CleanupDetach(Start(0)));
    assert Exec(INIT, run).sessions == map[];
  }

  /** The refused start detaches its session, so that a second start can attach an instance of its own... */
  lemma ReplacingRun() returns (run: seq<Action>)
    ensures ProperRun(run) && Exec(INIT, run) ==
      State(map["a" := Entry(true, None, "e", Starting)], map[], map[], [Instance("a", "d", false, 0)],
            map[Start(0) := Starter("a", "d", Rejected(0, Detached)), Start(1) := Starter("a", "e", Loading)], 2, Free)
  {
    run := DetachedRun();
    assert Trim("a") == "a";
    run := Extend(run, StartByName("a", "e"));
  }

  lemma ReplacedRun() returns (run: seq<Action>)
    ensures ProperRun(run) && Exec(INIT, run) ==
      State(map["a" := Entry(true, None, "e", Starting)], map["a" := 1], map[],
            [Instance("a", "d", false, 0), Instance("a", "e", false, 0)],
            map[Start(0) := Starter("a", "d", Rejected(0, Detached)), Start(1) := Starter("a", "e", Attached(1))],
            2, Free)
  {
    run := ReplacingRun();
    assert Trim("a") == "a";
    Attaches(Exec(INIT, run), Start(1));
    run := Extend(run, AttachSession(Start(1)));
  }

  lemma ReturnedRun() returns (run: seq<Action>)
    ensures ProperRun(run) && Exec(INIT, run) ==
      State(map["a" := Entry(true, None, "e", Starting)], map["a" := 1], map[],
            [Instance("a", "d", false, 0), Instance("a", "e", false, 0)],
            map[Start(0) := Starter("a", "d", Rejected(0, Detached)),
                Start(1) := Starter("a", "e", Loaded(1, false))], 2, Free)
  {
    run := ReplacedRun();
    Returns(Exec(INIT, run), Start(1), 1);
    run := Extend(run, LoaderReturn(Start(1)));
  }

  /** ...which is accepted... */
  lemma AcceptedRun() returns (run: seq<Action>)
    ensures ProperRun(run) && Exec(INIT, run) ==
      State(map["a" := Entry(true, Some(1), "e", Running)], map["a" := 1], map[],
            [Instance("a", "d", false, 0), Instance("a", "e", false, 0)],
            map[Start(0) := Starter("a", "d", Rejected(0, Detached)), Start(1) := Starter("a", "e", Publishing(1))],
            2, Free)
  {
    run := ReturnedRun();
    Accepts(Exec(INIT, run), Start(1), 1, false);
    run := Extend(run, FinishStart(Start(1)));
  }

  lemma PublishedRun() returns (run: seq<Action>)
    ensures ProperRun(run) && Exec(INIT, run) ==
      State(map["a" := Entry(true, Some(1), "e", Running)], map["a" := 1], map["a" := 1],
            [Instance("a", "d", false, 0), Instance("a", "e", false, 0)],
            map[Start(0) := Starter("a", "d", Rejected(0, Detached))], 2, Free)
  {
    run := AcceptedRun();
    Publishes(Exec(INIT, run), Start(1), 1);
    run := Extend(run, Publish(Start(1)));
  }

  /** ...and published, before the refused start removes the record by name: with Close, a loaded service whose
      start has returned can be missing from the read model. */
  lemma CloseUnpublishesALoadedService() returns (run: seq<Action>)
    ensures ProperRun(run)
    ensures var s := Exec(INIT, run);
      && "a" in s.services && s.services["a"].loaded == Some(1) && s.sessions == map["a" := 1]
      && s.records == map[] && s.tasks == map[Start(0) := Starter("a", "d", Rejected(0, Removed))]
  {
    run := PublishedRun();
    RemovesRefused(Exec(INIT, run), Start(0), 0);
    run := Extend(run, CleanupRemove(Start(0)));
  }
}

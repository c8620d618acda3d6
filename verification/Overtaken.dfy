/** What a Close costs that overtakes a start: from any state in which an entry is Starting, a Close can lead to a start
    that is refused, to a service that remembers the wrong directory, and to one that the read model misses. If no
    entry is Starting, it can lead to none of these. */
module Overtaken {
  import opened Text
  import opened Supervisor
  import opened Protocol
  import opened Ownership
  import opened Orderly
  import opened Shutdown
  import opened Steps

  // ---------- What may go wrong ----------

  ghost predicate SomeRefused(s: State) {
    exists t :: t in s.tasks && s.tasks[t].Starter? && s.tasks[t].start.Rejected?
  }

  predicate RemembersAnother(s: State, n: string) {
    && n in s.services && s.services[n].loaded.Some? && s.services[n].loaded.value < |s.instances|
    && s.services[n].tempDir != s.instances[s.services[n].loaded.value].tempDir
  }

  ghost predicate SomeMisplaced(s: State) {
    exists n :: RemembersAnother(s, n)
  }

  ghost predicate IsMissed(s: State, n: string) {
    && n in s.services && s.services[n].loaded.Some? && n !in s.records
    && (s.callback.Holding? ==> s.callback.name != n)
    && forall t :: !IsPublishing(s, t, n, s.services[n].loaded.value)
  }

  ghost predicate SomeMissed(s: State) {
    exists n :: IsMissed(s, n)
  }

  lemma OrderMeans(s: State)
    requires Order(s)
    ensures !SomeRefused(s) && !SomeMisplaced(s) && !SomeMissed(s)
  {
    forall n ensures !IsMissed(s, n) {
      if n in s.services && s.services[n].loaded.Some? && n !in s.records {
        var t :| IsPublishing(s, t, n, s.services[n].loaded.value);
      }
    }
  }

  // ---------- Reaching a state without another Close or Stop ----------

  ghost predicate Calm(actions: seq<Action>) {
    ProperRun(actions) && forall a :: a in actions ==> !a.CloseAll?
  }

  /** Nor is anything stopped. */
  ghost predicate Unhindered(actions: seq<Action>) {
    Calm(actions) && forall a :: a in actions ==> !a.StopByName?
  }

  ghost predicate Reaches(s: State, s': State) {
    exists more :: Unhindered(more) && Exec(s, more) == s'
  }

  lemma ReachesItself(s: State)
    ensures Reaches(s, s)
  {
    assert Unhindered([]) && Exec(s, []) == s;
  }

  lemma ReachesNext(s: State, s': State, a: Action)
    requires Reaches(s, s') && ProperLoad(a) && !a.CloseAll? && !a.StopByName?
    ensures Reaches(s, Step(s', a))
  {
    var more :| Unhindered(more) && Exec(s, more) == s';
    ExecAppend(s, more, a);
    assert Unhindered(more + [a]);
  }

  // ---------- A start that Close has overtaken ----------

  /** Serial numbers and instances are handed out in order. */
  ghost predicate Numbered(s: State) {
    && (forall t :: t in s.tasks && t.Start? ==> t.serial < s.starts)
    && (forall t :: t in s.tasks && s.tasks[t].Starter? && s.tasks[t].start.Publishing? ==>
          s.tasks[t].start.i < |s.instances|)
  }

  /** What the start brings with it, if anything, was loaded from its own directory; otherwise it can still attach. */
  predicate CanLoad(s: State, task: Task) {
    && task.Starter?
    && match task.start
       case Loading => task.name !in s.sessions
       case Attached(i) => i < |s.instances| && s.instances[i].tempDir == task.tempDir
       case Loaded(i, _) => i < |s.instances| && s.instances[i].tempDir == task.tempDir
       case _ => false
  }

  /** A start that can still succeed, though its entry has been given up. */
  ghost predicate Orphan(s: State, t: TaskId, n: string) {
    && Numbered(s) && Proper(n) && s.callback.Free?
    && t.Start? && t in s.tasks && s.tasks[t].name == n && CanLoad(s, s.tasks[t])
    && n in s.services && s.services[n].loaded.None? && s.services[n].status == Failed
  }

  predicate HasLoaded(s: State, t: TaskId) {
    t in s.tasks && s.tasks[t].Starter? && s.tasks[t].start.Loaded?
  }

  lemma OrphanAttaches(s: State, t: TaskId, n: string) returns (s': State)
    requires Orphan(s, t, n) && s.tasks[t].start.Loading?
    ensures s' == Step(s, AttachSession(t)) && Orphan(s', t, n) && s'.tasks[t].start.Attached?
  {
    Attaches(s, t);
    s' := Step(s, AttachSession(t));
  }

  lemma OrphanReturns(s: State, t: TaskId, n: string) returns (s': State)
    requires Orphan(s, t, n) && s.tasks[t].start.Attached?
    ensures s' == Step(s, LoaderReturn(t)) && Orphan(s', t, n) && s'.tasks[t].start.Loaded?
  {
    Returns(s, t, s.tasks[t].start.i);
    s' := Step(s, LoaderReturn(t));
  }

  /** Its loader may well return. */
  lemma OrphanLoads(s0: State, s: State, t: TaskId, n: string) returns (s': State)
    requires Reaches(s0, s) && Orphan(s, t, n)
    ensures Reaches(s0, s') && Orphan(s', t, n) && HasLoaded(s', t)
  {
    s' := s;
    if s'.tasks[t].start.Loading? {
      ReachesNext(s0, s', AttachSession(t));
      s' := OrphanAttaches(s', t, n);
    }
    if s'.tasks[t].start.Attached? {
      ReachesNext(s0, s', LoaderReturn(t));
      s' := OrphanReturns(s', t, n);
    }
  }

  /** The entry has been given up, so the start is refused. */
  lemma OrphanIsRefused(s0: State, s: State, t: TaskId, n: string) returns (s': State)
    requires Reaches(s0, s) && Orphan(s, t, n) && HasLoaded(s, t)
    ensures Reaches(s0, s') && t in s'.tasks
    ensures s' == s.(tasks := Entered(s, t, Rejected(s.tasks[t].start.i, Bound)))
  {
    Refuses(s, t, s.tasks[t].start.i, s.tasks[t].start.degraded);
    ReachesNext(s0, s, FinishStart(t));
    s' := Step(s, FinishStart(t));
  }

  /** Or a second start, from another directory, makes the entry Starting once more, and the first one is accepted. */
  lemma OrphanIsMisplaced(s0: State, s: State, t: TaskId, n: string) returns (s': State)
    requires Reaches(s0, s) && Orphan(s, t, n) && HasLoaded(s, t)
    ensures Reaches(s0, s') && SomeMisplaced(s')
  {
    var task, other := s.tasks[t], s.tasks[t].tempDir + "x";
    Begins(s, n, other);
    ReachesNext(s0, s, Load(n, other));
    var s1 := Step(s, Load(n, other));
    Accepts(s1, t, task.start.i, task.start.degraded);
    ReachesNext(s0, s1, FinishStart(t));
    s' := Step(s1, FinishStart(t));
    assert RemembersAnother(s', n);
  }

  /** Or the first start is refused and a second one takes its place, and is published before the first removes the
      record. */
  lemma OrphanIsReplaced(s0: State, s: State, t: TaskId, n: string) returns (s': State)
    requires Reaches(s0, s) && Orphan(s, t, n) && HasLoaded(s, t)
    ensures Reaches(s0, s') && Numbered(s') && Proper(n) && s'.callback.Free?
    ensures s'.instances == s.instances && n !in s'.sessions
    ensures t.Start? && InPhase(s', t, Rejected(s.tasks[t].start.i, Detached)) && s'.tasks[t].name == n
    ensures n in s'.services && s'.services[n].loaded.None? && s'.services[n].status == Starting
    ensures t != Start(s.starts) && InPhase(s', Start(s.starts), Loading) && s'.tasks[Start(s.starts)].name == n
  {
    var i := s.tasks[t].start.i;
    var s1 := OrphanIsRefused(s0, s, t, n);
    DetachesRefused(s1, t, i);
    ReachesNext(s0, s1, CleanupDetach(t));
    var s2 := Step(s1, CleanupDetach(t));
    Begins(s2, n, "");
    ReachesNext(s0, s2, Load(n, ""));
    s' := Step(s2, Load(n, ""));
  }

  /** The second start succeeds and is published. */
  lemma ReplacementLoads(s0: State, s: State, u: TaskId, n: string) returns (s': State)
    requires Reaches(s0, s) && Numbered(s) && Proper(n) && s.callback.Free? && n !in s.sessions
    requires u.Start? && InPhase(s, u, Loading) && s.tasks[u].name == n
    requires n in s.services && s.services[n].loaded.None? && s.services[n].status == Starting
    ensures Reaches(s0, s') && s'.tasks == s.tasks - {u} && s'.callback.Free?
    ensures n in s'.services && s'.services[n].loaded == Some(|s.instances|)
  {
    var i := |s.instances|;
    var s2 := ReplacementReturns(s0, s, u, n);
    Accepts(s2, u, i, s2.tasks[u].start.degraded);
    ReachesNext(s0, s2, FinishStart(u));
    var s3 := Step(s2, FinishStart(u));
    Publishes(s3, u, i);
    ReachesNext(s0, s3, Publish(u));
    s' := Step(s3, Publish(u));
  }

  lemma ReplacementReturns(s0: State, s: State, u: TaskId, n: string) returns (s': State)
    requires Reaches(s0, s) && Proper(n) && s.callback.Free? && n !in s.sessions
    requires InPhase(s, u, Loading) && s.tasks[u].name == n
    ensures Reaches(s0, s') && s'.tasks.Keys == s.tasks.Keys && s'.tasks - {u} == s.tasks - {u}
    ensures HasLoaded(s', u) && s'.tasks[u].start.i == |s.instances| && s'.tasks[u].name == n
    ensures s'.services == s.services && s'.callback == s.callback
  {
    var i := |s.instances|;
    Attaches(s, u);
    ReachesNext(s0, s, AttachSession(u));
    var s1 := Step(s, AttachSession(u));
    Returns(s1, u, i);
    ReachesNext(s0, s1, LoaderReturn(u));
    s' := Step(s1, LoaderReturn(u));
  }

  lemma OrphanIsMissed(s0: State, s: State, t: TaskId, n: string) returns (s': State)
    requires Reaches(s0, s) && Orphan(s, t, n) && HasLoaded(s, t)
    ensures Reaches(s0, s') && SomeMissed(s')
  {
    var i, u := s.tasks[t].start.i, Start(s.starts);
    var s1 := OrphanIsReplaced(s0, s, t, n);
    var s2 := ReplacementLoads(s0, s1, u, n);
    RemovesRefused(s2, t, i);
    ReachesNext(s0, s2, CleanupRemove(t));
    s' := Step(s2, CleanupRemove(t));
    assert forall r :: !IsPublishing(s', r, n, |s1.instances|);
    assert IsMissed(s', n);
  }

  // ---------- What Close makes of a start that has yet to report ----------

  /** The session of a service that is being started is that of the start. */
  lemma SessionOfTheStart(s: State, c: Ledger, n: string)
    requires Inv(s, c) && Order(s) && n in s.sessions
    ensures forall t :: IsPendingStart(s, t, n) ==> TaskBound(s.tasks[t])
  {
    var h := c[s.sessions[n]];
    assert StillBound(s, h) && HolderName(s, h) == n && Held(s, h).Some?;
    forall t | IsPendingStart(s, t, n) ensures h == InTask(t) {
      if h.InTask? {
        assert !IsStop(s, h.t, n);
        assert IsPendingStart(s, h.t, n);
      }
    }
  }

  /** After Close, the entry of a start has been given up and nothing else that the start depends on has changed. */
  ghost predicate GivenUp(s: State, t: TaskId, n: string) {
    && Numbered(s) && Proper(n)
    && t.Start? && t in s.tasks && s.tasks[t].name == n && s.tasks[t].Starter?
    && n in s.services && s.services[n].loaded.None? && s.services[n].status == Failed
    && match s.tasks[t].start
       case Unbound(_) => n !in s.sessions
       case LoadFailed => n !in s.sessions
       case _ => CanLoad(s, s.tasks[t])
  }

  lemma CloseGivesUp(s: State, c: Ledger, t: TaskId, n: string)
    requires Inv(s, c) && NamesOk(s) && Order(s) && Numbered(s) && IsPendingStart(s, t, n)
    ensures GivenUp(CloseStep(s), t, n)
  {
    var s' := CloseStep(s);
    assert n in Names(s);
    if n in s.sessions {
      SessionOfTheStart(s, c, n);
    }
    assert TaskBound(s.tasks[t]) ==> Carried(s.tasks[t]).Some?;
    assert s'.tasks[t] == s.tasks[t];
    CloseKeepsNumbers(s);
  }

  lemma CloseKeepsNumbers(s: State)
    requires Numbered(s)
    ensures Numbered(CloseStep(s))
  {
  }

  /** A loader that has failed and detached closes its instance. */
  lemma UnboundFails(s: State, t: TaskId, n: string) returns (s': State)
    requires GivenUp(s, t, n) && s.callback.Free? && s.tasks[t].start.Unbound?
    ensures s' == Step(s, LoaderClose(t)) && GivenUp(s', t, n) && s'.callback.Free? && s'.tasks[t].start.LoadFailed?
  {
    ClosesUnbound(s, t, s.tasks[t].start.i);
    s' := Step(s, LoaderClose(t));
  }

  /** A start that has failed brings down the one that follows it. */
  lemma FailureOrphans(s: State, t: TaskId, n: string) returns (s1: State, s2: State)
    requires GivenUp(s, t, n) && s.callback.Free? && s.tasks[t].start.LoadFailed?
    ensures s1 == Step(s, Load(n, "")) && s2 == Step(s1, FinishFailure(t)) && Orphan(s2, Start(s.starts), n)
  {
    Begins(s, n, "");
    s1 := Step(s, Load(n, ""));
    FailsStarting(s1, t);
    s2 := Step(s1, FinishFailure(t));
  }

  /** Either way there can be an orphan whose loader has returned. */
  lemma GivenUpLeadsToOrphan(s: State, t: TaskId, n: string) returns (s': State, u: TaskId)
    requires GivenUp(s, t, n)
    ensures Reaches(s, s') && Orphan(s', u, n) && HasLoaded(s', u)
  {
    ReachesItself(s);
    ReachesNext(s, s, Relist);
    s', u := Step(s, Relist), t;
    assert GivenUp(s', t, n);
    if s'.tasks[t].start.Unbound? {
      ReachesNext(s, s', LoaderClose(t));
      s' := UnboundFails(s', t, n);
    }
    if s'.tasks[t].start.LoadFailed? {
      u := Start(s'.starts);
      ReachesNext(s, s', Load(n, ""));
      var s1, s2 := FailureOrphans(s', t, n);
      ReachesNext(s, s1, FinishFailure(t));
      s' := s2;
    }
    s' := OrphanLoads(s, s', u, n);
  }

  // ---------- Numbers, over every run ----------

  lemma StarterNumbered(s: State, c: Ledger, a: Action)
    requires LedgerOk(s, c) && Numbered(s)
    requires OfStarter(a)
    requires a.t in s.tasks && s.tasks[a.t].Starter?
    ensures Numbered(StarterStep(s, a))
  {
    if s.tasks[a.t].start.Loaded? {
      assert Held(s, InTask(a.t)) == Some(s.tasks[a.t].start.i);
    }
  }

  lemma CleanupNumbered(s: State, a: Action)
    requires Numbered(s) && OfCleanup(a) && a.t in s.tasks && CleanupOf(s.tasks[a.t]).Some?
    ensures Numbered(CleanupStep(s, a))
  {
  }

  lemma StepNumbered(s: State, c: Ledger, a: Action)
    requires LedgerOk(s, c) && Numbered(s)
    ensures Numbered(Step(s, a))
  {
    if a.CloseAll? {
      CloseKeepsNumbers(s);
    } else if OfStarter(a) {
      StepOfStarter(s, a);
      if a.t in s.tasks && s.tasks[a.t].Starter? {
        StarterNumbered(s, c, a);
      }
    } else if OfCleanup(a) {
      StepOfCleanup(s, a);
      if a.t in s.tasks && CleanupOf(s.tasks[a.t]).Some? {
        CleanupNumbered(s, a);
      }
    }
  }

  lemma {:induction false} RunNumbered(actions: seq<Action>)
    requires ProperRun(actions)
    ensures Numbered(Exec(INIT, actions))
  {
    if actions != [] {
      var before := actions[..|actions| - 1];
      var c := RunKeeps(before);
      RunNumbered(before);
      StepNumbered(Exec(INIT, before), c, actions[|actions| - 1]);
    }
  }

  // ---------- For how long ----------

  /** Nobody is about to publish a record of that name. */
  ghost predicate NoPublisher(s: State, n: string) {
    && (s.callback.Holding? ==> s.callback.name != n)
    && forall t :: t in s.tasks && s.tasks[t].name == n && s.tasks[t].Starter? ==> !s.tasks[t].start.Publishing?
  }

  predicate LoadedAs(s: State, n: string, i: InstanceId) {
    n in s.services && s.services[n].loaded == Some(i)
  }

  lemma StarterPublishes(s: State, a: Action, n: string)
    requires OfStarter(a) && a.t in s.tasks && s.tasks[a.t].Starter? && n !in s.records
    requires s.tasks[a.t].name == n ==> !s.tasks[a.t].start.Publishing? && !AcceptsStart(s.services, Flags(s), n)
    ensures n !in StarterStep(s, a).records
    ensures a.t in StarterStep(s, a).tasks && s.tasks[a.t].name == n ==> !StarterStep(s, a).tasks[a.t].start.Publishing?
  {
  }

  lemma StarterStaysMissed(s: State, a: Action, n: string, i: InstanceId)
    requires StatusOk(s) && LoadedAs(s, n, i) && n !in s.records && NoPublisher(s, n)
    requires OfStarter(a)
    requires a.t in s.tasks && s.tasks[a.t].Starter?
    ensures n !in StarterStep(s, a).records && NoPublisher(StarterStep(s, a), n)
  {
    StarterShape(s, a);
    assert !AcceptsStart(s.services, Flags(s), n);
    StarterPublishes(s, a, n);
  }

  lemma StepStaysMissed(s: State, a: Action, n: string, i: InstanceId)
    requires StatusOk(s) && LoadedAs(s, n, i) && n !in s.records && NoPublisher(s, n)
    ensures n !in Step(s, a).records && NoPublisher(Step(s, a), n)
  {
    if OfStarter(a) {
      StepOfStarter(s, a);
      if a.t in s.tasks && s.tasks[a.t].Starter? {
        StarterStaysMissed(s, a, n, i);
      }
    }
  }

  /** Before each of the later steps the entry of n still holds instance i. */
  ghost predicate StaysLoaded(before: seq<Action>, after: seq<Action>, n: string, i: InstanceId) {
    after == [] ||
    var front := after[..|after| - 1];
    StaysLoaded(before, front, n, i) && LoadedAs(Exec(INIT, before + front), n, i)
  }

  /** A loaded service that the read model misses while nobody is about to publish it is missed for good: until that
      instance is taken from its entry, nothing brings the record back, not even a registration. */
  lemma {:induction false} MissedForGood(before: seq<Action>, after: seq<Action>, n: string, i: InstanceId)
    requires ProperRun(before) && ProperRun(after) && StaysLoaded(before, after, n, i)
    requires n !in Exec(INIT, before).records && NoPublisher(Exec(INIT, before), n)
    ensures n !in Exec(INIT, before + after).records && NoPublisher(Exec(INIT, before + after), n)
  {
    if after == [] {
      assert before + after == before;
    } else {
      var front, last := after[..|after| - 1], after[|after| - 1];
      ProperParts(before, after);
      MissedForGood(before, front, n, i);
      MissedNext(before + front, last, n, i);
    }
  }

  lemma ProperParts(before: seq<Action>, after: seq<Action>)
    requires ProperRun(before) && ProperRun(after) && after != []
    ensures ProperRun(after[..|after| - 1]) && ProperRun(before + after[..|after| - 1])
    ensures before + after == before + after[..|after| - 1] + [after[|after| - 1]]
  {
  }

  lemma MissedNext(run: seq<Action>, a: Action, n: string, i: InstanceId)
    requires ProperRun(run) && LoadedAs(Exec(INIT, run), n, i)
    requires n !in Exec(INIT, run).records && NoPublisher(Exec(INIT, run), n)
    ensures n !in Exec(INIT, run + [a]).records && NoPublisher(Exec(INIT, run + [a]), n)
  {
    var c := RunKeeps(run);
    StepStaysMissed(Exec(INIT, run), a, n, i);
    ExecAppend(INIT, run, a);
  }

  // ---------- The theorems ----------

  /** In a run that ends with a Close and calm steps after it. */
  lemma {:induction false} CalmKeepsAtRest(before: seq<Action>, after: seq<Action>)
    requires ClosesAtRest(before) && AtRest(Exec(INIT, before)) && Calm(after)
    ensures ClosesAtRest(before + [CloseAll] + after)
  {
    if after == [] {
      assert (before + [CloseAll])[..|before|] == before;
      assert before + [CloseAll] + after == before + [CloseAll];
    } else {
      var n := |after| - 1;
      CalmKeepsAtRest(before, after[..n]);
      var run := before + [CloseAll] + after;
      assert run[..|run| - 1] == before + [CloseAll] + after[..n] && run[|run| - 1] == after[n];
    }
  }

  lemma HarmlessAtRest(before: seq<Action>, after: seq<Action>)
    requires ProperRun(before) && ClosesAtRest(before) && AtRest(Exec(INIT, before)) && Calm(after)
    ensures var s := Exec(INIT, before + [CloseAll] + after);
            !SomeRefused(s) && !SomeMisplaced(s) && !SomeMissed(s)
  {
    CalmKeepsAtRest(before, after);
    var c := RunOrder(before + [CloseAll] + after);
    OrderMeans(Exec(INIT, before + [CloseAll] + after));
  }

  /** Close overtakes a start: afterwards there can be an orphan. */
  lemma CloseLeadsToOrphan(before: seq<Action>) returns (s: State, t: TaskId, n: string)
    requires ProperRun(before) && ClosesAtRest(before) && !AtRest(Exec(INIT, before))
    ensures Reaches(CloseStep(Exec(INIT, before)), s) && Orphan(s, t, n) && HasLoaded(s, t)
  {
    var c := RunOrder(before);
    RunNumbered(before);
    var s0 := Exec(INIT, before);
    n :| n in s0.services && s0.services[n].status == Starting;
    t :| IsPendingStart(s0, t, n);
    CloseGivesUp(s0, c, t, n);
    s, t := GivenUpLeadsToOrphan(CloseStep(s0), t, n);
  }

  lemma AsOneRun(before: seq<Action>, a: Action, s: State) returns (after: seq<Action>)
    requires Reaches(Step(Exec(INIT, before), a), s)
    ensures Unhindered(after) && Exec(INIT, before + [a] + after) == s
  {
    after :| Unhindered(after) && Exec(Step(Exec(INIT, before), a), after) == s;
    ExecAppend(INIT, before, a);
    ExecConcat(INIT, before + [a], after);
  }

  lemma AsOneRunWithClose(before: seq<Action>, s: State) returns (after: seq<Action>)
    requires Reaches(CloseStep(Exec(INIT, before)), s)
    ensures Unhindered(after) && Exec(INIT, before + [CloseAll] + after) == s
  {
    assert Step(Exec(INIT, before), CloseAll) == CloseStep(Exec(INIT, before));
    after := AsOneRun(before, CloseAll, s);
  }

  /** A Close can lead to a refused start iff it overtakes one. */
  lemma CloseCanRefuseIff(before: seq<Action>)
    requires ProperRun(before) && ClosesAtRest(before)
    ensures (exists after :: Calm(after) && SomeRefused(Exec(INIT, before + [CloseAll] + after)))
            <==> !AtRest(Exec(INIT, before))
  {
    if AtRest(Exec(INIT, before)) {
      forall after | Calm(after) ensures !SomeRefused(Exec(INIT, before + [CloseAll] + after)) {
        HarmlessAtRest(before, after);
      }
    } else {
      var s, t, n := CloseLeadsToOrphan(before);
      var s' := OrphanIsRefused(CloseStep(Exec(INIT, before)), s, t, n);
      assert s'.tasks[t].start.Rejected?;
      var after := AsOneRunWithClose(before, s');
    }
  }

  /** It can lead to a service that remembers another directory than its own iff it overtakes a start. */
  lemma CloseCanMisplaceIff(before: seq<Action>)
    requires ProperRun(before) && ClosesAtRest(before)
    ensures (exists after :: Calm(after) && SomeMisplaced(Exec(INIT, before + [CloseAll] + after)))
            <==> !AtRest(Exec(INIT, before))
  {
    if AtRest(Exec(INIT, before)) {
      forall after | Calm(after) ensures !SomeMisplaced(Exec(INIT, before + [CloseAll] + after)) {
        HarmlessAtRest(before, after);
      }
    } else {
      var s, t, n := CloseLeadsToOrphan(before);
      var s' := OrphanIsMisplaced(CloseStep(Exec(INIT, before)), s, t, n);
      var after := AsOneRunWithClose(before, s');
    }
  }

  /** It can lead to a loaded service that the read model misses, with nothing left to publish it, iff it overtakes a
      start. */
  lemma CloseCanUnpublishIff(before: seq<Action>)
    requires ProperRun(before) && ClosesAtRest(before)
    ensures (exists after :: Calm(after) && SomeMissed(Exec(INIT, before + [CloseAll] + after)))
            <==> !AtRest(Exec(INIT, before))
  {
    if AtRest(Exec(INIT, before)) {
      forall after | Calm(after) ensures !SomeMissed(Exec(INIT, before + [CloseAll] + after)) {
        HarmlessAtRest(before, after);
      }
    } else {
      var s, t, n := CloseLeadsToOrphan(before);
      var s' := OrphanIsMissed(CloseStep(Exec(INIT, before)), s, t, n);
      var after := AsOneRunWithClose(before, s');
    }
  }
}

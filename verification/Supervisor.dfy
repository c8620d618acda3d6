/** The supervisor's table of services. Every method below is one critical section of its mutex: the slow
    work between two of them (loading, cleaning up) happens with the mutex released, and is the business of
    module Protocol. `flags` is the set of instances whose atomic degraded flag is set at that moment. */
module Supervisor {
  import opened Text

  type InstanceId = nat

  // Unset is the zero value of the status string.
  datatype Status = Unset | Discovered | Starting | Running | Degraded | Stopping | Failed

  datatype Entry = Entry(discovered: bool, loaded: Option<InstanceId>, tempDir: string, status: Status)

  type Services = map<string, Entry>

  predicate IsRunning(status: Status) {
    status == Running || status == Degraded
  }

  predicate AllowsStart(status: Status) {
    status == Discovered || status == Failed
  }

  function CurrentStatus(e: Entry, flags: set<InstanceId>): Status {
    if e.loaded.Some? && e.loaded.value in flags && IsRunning(e.status) then Degraded
    else if e.status != Unset then e.status
    else if e.loaded.Some? then Running
    else Discovered
  }

  // ---------- What each critical section does to the table ----------

  predicate SurvivesScan(e: Entry) {
    e.loaded.Some? || e.status == Starting || e.status == Stopping
  }

  function Rescanned(e: Entry, flags: set<InstanceId>, found: bool): Entry {
    if found then Entry(true, e.loaded, e.tempDir, CurrentStatus(e, flags))
    else if e.loaded.Some? then e.(discovered := false, status := CurrentStatus(e, flags))
    else e.(discovered := false)
  }

  const FRESH := Entry(true, None, "", Discovered)

  ghost function AfterScan(services: Services, flags: set<InstanceId>, found: set<string>): Services {
    map n | n in found + services.Keys && (n in found || SurvivesScan(services[n])) ::
      if n in services then Rescanned(services[n], flags, n in found) else FRESH
  }

  datatype StartOutcome = NotFound | NotAvailable | NotStartable(status: Status) | Begun

  function StartByNameOutcome(services: Services, flags: set<InstanceId>, name: string): StartOutcome {
    if name !in services then NotFound
    else if !services[name].discovered then NotAvailable
    else if !AllowsStart(CurrentStatus(services[name], flags)) then NotStartable(CurrentStatus(services[name], flags))
    else Begun
  }

  function AfterStartByName(services: Services, flags: set<InstanceId>, name: string, tempDir: string): Services {
    if StartByNameOutcome(services, flags, name) == Begun
    then services[name := services[name].(status := Starting, tempDir := tempDir)]
    else services
  }

  function LoadOutcome(services: Services, flags: set<InstanceId>, name: string): StartOutcome {
    if name in services && !AllowsStart(CurrentStatus(services[name], flags))
    then NotStartable(CurrentStatus(services[name], flags))
    else Begun
  }

  function AfterLoad(services: Services, flags: set<InstanceId>, name: string, tempDir: string): Services {
    if LoadOutcome(services, flags, name) == Begun
    then services[name := Entry(true, if name in services then services[name].loaded else None, tempDir, Starting)]
    else services
  }

  /** finishStartSuccess refuses a start whose entry is no longer Starting. */
  predicate AcceptsStart(services: Services, flags: set<InstanceId>, name: string) {
    name in services && CurrentStatus(services[name], flags) == Starting
  }

  function AfterFinishStart(services: Services, flags: set<InstanceId>, name: string, i: InstanceId, degraded: bool)
    : Services
  {
    if AcceptsStart(services, flags, name)
    then services[name := Entry(true, Some(i), services[name].tempDir, if degraded then Degraded else Running)]
    else if name in services then services
    else services[name := Entry(false, None, "", Unset)]
  }

  function AfterFinishFailure(services: Services, flags: set<InstanceId>, name: string): Services {
    if AcceptsStart(services, flags, name)
    then services[name := services[name].(loaded := None, tempDir := "", status := Failed)]
    else services
  }

  datatype StopOutcome = Unknown | InTransition(status: Status) | NotRunning | Draining(instance: InstanceId)

  function StopOutcomeOf(services: Services, flags: set<InstanceId>, name: string): StopOutcome {
    if name !in services then Unknown
    else
      var e := services[name];
      var status := CurrentStatus(e, flags);
      if status == Starting || status == Stopping then InTransition(status)
      else if !IsRunning(status) || e.loaded.None? then NotRunning
      else StopOutcome.Draining(e.loaded.value)
  }

  function AfterStop(services: Services, flags: set<InstanceId>, name: string): Services {
    if StopOutcomeOf(services, flags, name).Draining?
    then services[name := services[name].(loaded := None, status := Stopping)]
    else services
  }

  function AfterFinishStop(services: Services, flags: set<InstanceId>, name: string, status: Status): Services {
    if name in services && CurrentStatus(services[name], flags) == Stopping
    then services[name := services[name].(loaded := None, tempDir := "", status := status)]
    else services
  }

  function Closed(e: Entry, flags: set<InstanceId>): Entry {
    if e.loaded.Some? then e.(loaded := None, tempDir := "", status := Stopping)
    else if CurrentStatus(e, flags) == Starting then e.(status := Failed)
    else e
  }

  function AfterClose(services: Services, flags: set<InstanceId>): Services {
    map n | n in services :: Closed(services[n], flags)
  }

  ghost function LoadedInstances(services: Services): set<InstanceId> {
    set n | n in services && services[n].loaded.Some? :: services[n].loaded.value
  }

  /** No instance is in two entries. */
  ghost predicate DistinctlyLoaded(services: Services) {
    forall m, n :: m in services && n in services && m != n && services[m].loaded.Some? ==>
      services[m].loaded != services[n].loaded
  }

  // ---------- The object ----------

  class Supervisor {
    var services: Services

    constructor ()
      ensures services == map[]
    {
      services := map[];
    }

    /** Scan, from building the next table to swapping it in. */
    method Scan(found: seq<string>, flags: set<InstanceId>)
      modifies this
      ensures services == AfterScan(old(services), flags, set n | n in found)
    {
      var next: Services := map[];
      for k := 0 to |found|
        invariant forall n :: n in next <==> n in found[..k]
        invariant forall n :: n in next ==> next[n] == FRESH
      {
        next := next[found[k] := FRESH];
      }
      ghost var names := set n | n in found;
      var todo := services.Keys;
      while todo != {}
        invariant todo <= services.Keys && services == old(services)
        invariant forall n :: n in next <==> n in names || (n in services && n !in todo && SurvivesScan(services[n]))
        invariant forall n :: n in next && (n !in services || n in todo) ==> next[n] == FRESH
        invariant forall n :: n in next && n in services && n !in todo ==>
          next[n] == Rescanned(services[n], flags, n in names)
      {
        var name :| name in todo;
        var entry := services[name];
        if name in next {
          next := next[name := next[name].(loaded := entry.loaded, tempDir := entry.tempDir,
                                           status := CurrentStatus(entry, flags))];
        } else if entry.loaded.Some? {
          next := next[name := entry.(discovered := false, status := CurrentStatus(entry, flags))];
        } else if CurrentStatus(entry, flags) == Starting || CurrentStatus(entry, flags) == Stopping {
          next := next[name := entry.(discovered := false)];
        }
        todo := todo - {name};
      }
      services := next;
    }

    method BeginStartByName(rawName: string, tempDir: string, flags: set<InstanceId>) returns (outcome: StartOutcome)
      modifies this
      ensures Trim(rawName) == "" ==> services == old(services) && outcome == NotFound
      ensures Trim(rawName) != "" ==>
        && outcome == StartByNameOutcome(old(services), flags, Trim(rawName))
        && services == AfterStartByName(old(services), flags, Trim(rawName), tempDir)
    {
      var name := Trim(rawName);
      if name == "" || name !in services { return NotFound; }
      var entry := services[name];
      if !entry.discovered { return NotAvailable; }
      var status := CurrentStatus(entry, flags);
      if !AllowsStart(status) { return NotStartable(status); }
      entry := entry.(status := Starting, tempDir := tempDir);
      services := services[name := entry];
      return Begun;
    }

    method BeginLoad(name: string, tempDir: string, flags: set<InstanceId>) returns (outcome: StartOutcome)
      modifies this
      ensures outcome == LoadOutcome(old(services), flags, name)
      ensures services == AfterLoad(old(services), flags, name, tempDir)
    {
      var entry := if name in services then services[name] else FRESH;
      var status := CurrentStatus(entry, flags);
      if !AllowsStart(status) { return NotStartable(status); }
      services := services[name := entry.(discovered := true, status := Starting, tempDir := tempDir)];
      return Begun;
    }

    method FinishStartSuccess(name: string, i: InstanceId, degraded: bool, flags: set<InstanceId>) returns (ok: bool)
      modifies this
      ensures ok == AcceptsStart(old(services), flags, name)
      ensures services == AfterFinishStart(old(services), flags, name, i, degraded)
    {
      if name !in services {
        services := services[name := Entry(false, None, "", Unset)];
      }
      var entry := services[name];
      if CurrentStatus(entry, flags) != Starting { return false; }
      entry := entry.(discovered := true, loaded := Some(i));
      entry := if degraded then entry.(status := Degraded) else entry.(status := Running);
      services := services[name := entry];
      return true;
    }

    method FinishStartFailure(name: string, flags: set<InstanceId>)
      modifies this
      ensures services == AfterFinishFailure(old(services), flags, name)
    {
      if name in services && CurrentStatus(services[name], flags) == Starting {
        services := services[name := services[name].(loaded := None, tempDir := "", status := Failed)];
      }
    }

    method BeginStop(rawName: string, flags: set<InstanceId>) returns (outcome: StopOutcome)
      modifies this
      ensures Trim(rawName) == "" ==> services == old(services) && outcome == Unknown
      ensures Trim(rawName) != "" ==>
        && outcome == StopOutcomeOf(old(services), flags, Trim(rawName))
        && services == AfterStop(old(services), flags, Trim(rawName))
    {
      var name := Trim(rawName);
      if name == "" || name !in services { return Unknown; }
      var entry := services[name];
      var status := CurrentStatus(entry, flags);
      if status == Starting || status == Stopping { return InTransition(status); }
      if !IsRunning(status) || entry.loaded.None? { return NotRunning; }
      services := services[name := entry.(loaded := None, status := Stopping)];
      return StopOutcome.Draining(entry.loaded.value);
    }

    method FinishStop(name: string, status: Status, flags: set<InstanceId>)
      modifies this
      ensures services == AfterFinishStop(old(services), flags, name, status)
    {
      if name in services && CurrentStatus(services[name], flags) == Stopping {
        services := services[name := services[name].(loaded := None, tempDir := "", status := status)];
      }
    }

    /** The first half of Close: takes every loaded instance out of the table. */
    method BeginClose(flags: set<InstanceId>) returns (taken: seq<InstanceId>)
      modifies this
      ensures services == AfterClose(old(services), flags)
      ensures (set i | i in taken) == LoadedInstances(old(services))
      ensures DistinctlyLoaded(old(services)) ==> forall j, k :: 0 <= j < k < |taken| ==> taken[j] != taken[k]
    {
      taken := [];
      var todo := services.Keys;
      while todo != {}
        invariant todo <= services.Keys == old(services).Keys
        invariant forall n :: n in todo ==> services[n] == old(services)[n]
        invariant forall n :: n in services && n !in todo ==> services[n] == Closed(old(services)[n], flags)
        invariant forall i :: i in taken <==>
          exists n :: n in old(services).Keys - todo && old(services)[n].loaded == Some(i)
        invariant DistinctlyLoaded(old(services)) ==> forall j, k :: 0 <= j < k < |taken| ==> taken[j] != taken[k]
      {
        var name :| name in todo;
        var entry := services[name];
        ghost var before := taken;
        if entry.loaded.Some? {
          assert DistinctlyLoaded(old(services)) ==> entry.loaded.value !in taken;
          taken := taken + [entry.loaded.value];
          services := services[name := entry.(loaded := None, tempDir := "", status := Stopping)];
        } else if CurrentStatus(entry, flags) == Starting {
          services := services[name := entry.(status := Failed)];
        }
        forall i | i in taken
          ensures exists n :: n in old(services).Keys - (todo - {name}) && old(services)[n].loaded == Some(i)
        {
          if i in before {
            var n :| n in old(services).Keys - todo && old(services)[n].loaded == Some(i);
          } else {
            assert old(services)[name].loaded == Some(i);
          }
        }
        todo := todo - {name};
      }
    }
  }

  // ---------- Scan loses no live entry ----------

  /** A scan drops no entry that is loaded or in transition and keeps its instance, its directory, and its
      status as an observer sees it, whatever was found. */
  lemma ScanKeepsLiveEntries(services: Services, flags: set<InstanceId>, found: set<string>, n: string)
    requires n in services && SurvivesScan(services[n]) && services[n].status != Unset
    ensures n in AfterScan(services, flags, found)
    ensures var e := AfterScan(services, flags, found)[n];
      && e.loaded == services[n].loaded && e.tempDir == services[n].tempDir
      && CurrentStatus(e, flags) == CurrentStatus(services[n], flags)
      && (e.discovered <==> n in found)
  {
  }

  /** Conversely, an entry disappears exactly when it was not found and is neither loaded nor in transition. */
  lemma ScanDropsExactly(services: Services, flags: set<InstanceId>, found: set<string>, n: string)
    requires n in services
    ensures n !in AfterScan(services, flags, found) <==> n !in found && !SurvivesScan(services[n])
  {
  }

  /** Every entry that a scan does not drop keeps its instance, its directory and the status an observer sees, a failure
      included; it is discovered iff it was found. */
  lemma ScanKeepsEveryEntry(services: Services, flags: set<InstanceId>, found: set<string>, n: string)
    requires n in services && n in AfterScan(services, flags, found)
    ensures var e := AfterScan(services, flags, found)[n];
      && e.loaded == services[n].loaded && e.tempDir == services[n].tempDir
      && (e.discovered <==> n in found)
      && (services[n].status != Unset || services[n].loaded.None? ==>
            CurrentStatus(e, flags) == CurrentStatus(services[n], flags))
  {
  }

  /** A name that is seen for the first time can be started. */
  lemma ScanFindsNew(services: Services, flags: set<InstanceId>, found: set<string>, n: string)
    requires n !in services
    ensures n in AfterScan(services, flags, found) <==> n in found
    ensures n in found ==> && AfterScan(services, flags, found)[n].loaded.None?
                           && CurrentStatus(AfterScan(services, flags, found)[n], flags) == Discovered
                           && StartByNameOutcome(AfterScan(services, flags, found), flags, n) == Begun
  {
  }
}

/** What the read model says of one service while it is loaded. The start that loaded the service takes a snapshot of
    its record and adds it, outside every lock; whenever the service registers something, the controller calls back
    under its own lock to take a snapshot and add it, but only if the service is listed already. Meanwhile other
    starts of the same name may still be busy: one that was accepted before adds the record of its own instance late,
    and one that was refused removes whatever is listed. */
module Publication {

  /** What is listed under the service's id: nothing, what an earlier instance has left, or a version of the record. */
  datatype Listing = Absent | Leftover | Shows(version: nat)

  datatype StartPhase = Unpublished | Snapshotted(version: nat) | Published

  /** How far the controller has come with a registration. One is under way at a time. */
  datatype Callback = Idle | Registered | Looking(version: nat) | Adding(version: nat)

  /** The version counts the registrations and unregistrations that have changed the record. */
  datatype State = State(version: nat, listing: Listing, start: StartPhase, callback: Callback)

  datatype Event =
    | Snapshot     // the start takes its snapshot...
    | Publish      // ...and adds it
    | Change       // a registration or unregistration changes the record...
    | Take         // ...the controller takes a snapshot...
    | Look         // ...looks whether the service is listed...
    | Add          // ...and adds it
    | Stale        // a start accepted before adds the record of its own instance, closed by now
    | Drop         // a start that was refused removes the record in its cleanup

  predicate Enabled(s: State, e: Event) {
    match e
    case Snapshot => s.start.Unpublished?
    case Publish => s.start.Snapshotted?
    case Change => s.callback.Idle?
    case Take => s.callback.Registered?
    case Look => s.callback.Looking?
    case Add => s.callback.Adding?
    case Stale => true
    case Drop => true
  }

  function Step(s: State, e: Event): State
    requires Enabled(s, e)
  {
    match e
    case Snapshot => s.(start := Snapshotted(s.version))
    case Publish => s.(listing := Shows(s.start.version), start := Published)
    case Change => s.(version := s.version + 1, callback := Registered)
    case Take => s.(callback := Looking(s.version))
    case Look => s.(callback := if s.listing.Absent? then Idle else Adding(s.callback.version))
    case Add => s.(listing := Shows(s.callback.version), callback := Idle)
    case Stale => s.(listing := Leftover)
    case Drop => s.(listing := Absent)
  }

  predicate Possible(leftover: bool, run: seq<Event>)
    decreases |run|, 0
  {
    run == [] || (Possible(leftover, run[..|run| - 1]) && Enabled(Exec(leftover, run[..|run| - 1]), run[|run| - 1]))
  }

  /** The service is attached while the id may still be listed for an earlier instance. */
  function Exec(leftover: bool, run: seq<Event>): State
    requires Possible(leftover, run)
    decreases |run|, 1
  {
    if run == [] then State(0, if leftover then Leftover else Absent, Unpublished, Idle)
    else Step(Exec(leftover, run[..|run| - 1]), run[|run| - 1])
  }

  /** An event e has happened, and later than any of the others. */
  predicate Latest(run: seq<Event>, e: Event, others: set<Event>) {
    run != [] &&
    var last := run[|run| - 1];
    last == e || (last !in others && Latest(run[..|run| - 1], e, others))
  }

  predicate Current(s: State) {
    s.listing == Shows(s.version)
  }

  /** The start has returned and no registration is under way. */
  predicate Quiet(s: State) {
    s.start.Published? && s.callback.Idle?
  }

  /** No version is ahead of the record, and what the controller is about to add is the record as it is. */
  predicate InRange(s: State) {
    && (s.listing.Shows? ==> s.listing.version <= s.version)
    && (s.start.Snapshotted? ==> s.start.version <= s.version)
    && (s.callback.Looking? || s.callback.Adding? ==> s.callback.version == s.version)
  }

  ghost predicate Explained(s: State, run: seq<Event>) {
    && InRange(s)
    && (s.start.Unpublished? ==> !Latest(run, Snapshot, {Change}))
    && (!s.start.Published? ==> !Latest(run, Publish, {Stale, Drop}))
    && (s.start.Snapshotted? ==> (s.start.version == s.version <==> Latest(run, Snapshot, {Change})))
    && (Current(s) <==> ShownByAdd(run) || ShownByStart(run))
  }

  /** The controller's addition came after the last change and after every other change of the listing. */
  predicate ShownByAdd(run: seq<Event>) {
    Latest(run, Add, {Change, Publish, Stale, Drop})
  }

  /** The start took its snapshot after the last change and added it after the last interference. */
  predicate ShownByStart(run: seq<Event>) {
    Latest(run, Snapshot, {Change}) && Latest(run, Publish, {Stale, Drop})
  }

  /** Nothing was listed since a refused start removed the record. */
  predicate Dropped(run: seq<Event>) {
    Latest(run, Drop, {Publish, Add, Stale})
  }

  lemma {:induction false} RunExplained(leftover: bool, run: seq<Event>)
    requires Possible(leftover, run)
    ensures Explained(Exec(leftover, run), run)
  {
    if run != [] {
      RunExplained(leftover, run[..|run| - 1]);
    }
  }

  /** Exactly when the read model shows the record of a loaded service as it is: when the start took its snapshot after
      the last change of the record and added it after the last interference of another start, or the controller's
      addition came after all of these and the start's own. */
  lemma CurrentIff(leftover: bool, run: seq<Event>)
    requires Possible(leftover, run) && Quiet(Exec(leftover, run))
    ensures Current(Exec(leftover, run)) <==>
            (Latest(run, Snapshot, {Change}) && Latest(run, Publish, {Stale, Drop}))
            || Latest(run, Add, {Change, Publish, Stale, Drop})
  {
    RunExplained(leftover, run);
  }

  lemma ExecNext(leftover: bool, run: seq<Event>, e: Event)
    requires Possible(leftover, run) && Enabled(Exec(leftover, run), e)
    ensures Possible(leftover, run + [e]) && Exec(leftover, run + [e]) == Step(Exec(leftover, run), e)
  {
    assert (run + [e])[..|run|] == run;
  }

  /** A registration between the start's snapshot and its addition is lost if the service is not listed yet, whatever
      was registered before. */
  lemma RegistrationIsLost(leftover: bool, run: seq<Event>)
    requires Possible(leftover, run)
    requires Exec(leftover, run).start.Unpublished? && Exec(leftover, run).callback.Idle?
             && Exec(leftover, run).listing.Absent?
    ensures var after := run + [Snapshot] + [Change] + [Take] + [Look] + [Publish];
            Possible(leftover, after) && Quiet(Exec(leftover, after)) && !Current(Exec(leftover, after))
  {
    ExecNext(leftover, run, Snapshot);
    ExecNext(leftover, run + [Snapshot], Change);
    ExecNext(leftover, run + [Snapshot] + [Change], Take);
    ExecNext(leftover, run + [Snapshot] + [Change] + [Take], Look);
    ExecNext(leftover, run + [Snapshot] + [Change] + [Take] + [Look], Publish);
  }

  /** Once the start has returned, the next registration makes up for whatever went wrong before, unless a refused start
      has removed the record and nothing was added since: then it is not listed either. */
  lemma NextChangeMakesUp(leftover: bool, run: seq<Event>)
    requires Possible(leftover, run) && Quiet(Exec(leftover, run))
    ensures var looked := run + [Change] + [Take] + [Look];
            && Possible(leftover, looked)
            && (Dropped(run) ==> Quiet(Exec(leftover, looked)) && Exec(leftover, looked).listing.Absent?)
            && (!Dropped(run) ==> Possible(leftover, looked + [Add]) && Quiet(Exec(leftover, looked + [Add]))
                                  && Current(Exec(leftover, looked + [Add])))
  {
    AbsentIff(leftover, run);
    ExecNext(leftover, run, Change);
    ExecNext(leftover, run + [Change], Take);
    ExecNext(leftover, run + [Change] + [Take], Look);
    if !Dropped(run) {
      ExecNext(leftover, run + [Change] + [Take] + [Look], Add);
    }
  }

  /** After its start has published it, a service is unlisted iff it has been dropped. */
  lemma {:induction false} AbsentIff(leftover: bool, run: seq<Event>)
    requires Possible(leftover, run) && Exec(leftover, run).start.Published?
    ensures Exec(leftover, run).listing.Absent? <==> Dropped(run)
  {
    if Exec(leftover, run[..|run| - 1]).start.Published? {
      AbsentIff(leftover, run[..|run| - 1]);
    }
  }
}

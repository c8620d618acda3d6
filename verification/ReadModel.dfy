/** The read model of running services and its mirror in the key-value store. An addition or a removal takes the
    registry's lock for the records and lets go of it before it writes the mirror. */
module ReadModel {
  import opened Text

  /** A record goes by its instance id; what else it says is in its text. */
  datatype ServiceRecord = ServiceRecord(instanceID: string, text: string)

  datatype Change = Add(record: ServiceRecord) | Remove(id: string)

  function IdOf(c: Change): string {
    if c.Add? then c.record.instanceID else c.id
  }

  type Table = map<string, ServiceRecord>

  function Changed(t: Table, c: Change): Table {
    match c
    case Add(r) => t[r.instanceID := r]
    case Remove(id) => t - {id}
  }

  /** The registry, with the store's entries under the prefix for services. */
  class Registry {
    var records: Table
    var mirror: Table

    constructor ()
      ensures records == map[] && mirror == map[]
    {
      records, mirror := map[], map[];
    }

    /** The locked part of Add and Remove. */
    method ChangeRecords(c: Change)
      modifies this`records
      ensures records == Changed(old(records), c)
    {
      match c
      case Add(r) => records := records[r.instanceID := r];
      case Remove(id) => records := records - {id};
    }

    /** The rest of them. */
    method ChangeMirror(c: Change)
      modifies this`mirror
      ensures mirror == Changed(old(mirror), c)
    {
      match c
      case Add(r) => mirror := mirror[r.instanceID := r];
      case Remove(id) => mirror := mirror - {id};
    }

    method Has(id: string) returns (found: bool)
      ensures found <==> id in records
    {
      found := id in records;
    }

    method Change(c: Change)
      modifies this
      ensures records == Changed(old(records), c) && mirror == Changed(old(mirror), c)
    {
      ChangeRecords(c);
      ChangeMirror(c);
    }

    /** What the controller calls back with when a service has registered something: an instance that is listed is
        listed anew, one that is not stays unlisted. */
    method Republish(record: Option<ServiceRecord>)
      modifies this
      ensures records.Keys == old(records).Keys
      ensures forall id :: id in records ==>
                records[id] == if record.Some? && record.value.instanceID == id then record.value else old(records)[id]
      ensures old(records == mirror) ==> records == mirror
    {
      if record.Some? {
        var listed := Has(record.value.instanceID);
        if listed {
          Change(Add(record.value));
        }
      }
    }
  }

  // Any number of changes at once.

  datatype State = State(records: Table, mirror: Table, pending: map<nat, Change>)

  /** The two halves of a change; calls tell changes apart that are under way together. */
  datatype Event = Begin(call: nat, change: Change) | End(call: nat)

  const EMPTY := State(map[], map[], map[])

  predicate Enabled(s: State, e: Event) {
    match e
    case Begin(call, _) => call !in s.pending
    case End(call) => call in s.pending
  }

  function Step(s: State, e: Event): State
    requires Enabled(s, e)
  {
    match e
    case Begin(call, c) => State(Changed(s.records, c), s.mirror, s.pending[call := c])
    case End(call) => State(s.records, Changed(s.mirror, s.pending[call]), s.pending - {call})
  }

  predicate Possible(run: seq<Event>)
    decreases |run|, 0
  {
    run == [] || (Possible(run[..|run| - 1]) && Enabled(Exec(run[..|run| - 1]), run[|run| - 1]))
  }

  function Exec(run: seq<Event>): State
    requires Possible(run)
    decreases |run|, 1
  {
    if run == [] then EMPTY else Step(Exec(run[..|run| - 1]), run[|run| - 1])
  }

  ghost predicate Busy(s: State, id: string) {
    exists call :: call in s.pending && IdOf(s.pending[call]) == id
  }

  /** Changes of one instance do not overlap; those of different instances may. */
  ghost predicate Serial(run: seq<Event>, id: string)
    requires Possible(run)
  {
    run == [] ||
    (var n := |run| - 1;
     Serial(run[..n], id) && (run[n].Begin? && IdOf(run[n].change) == id ==> !Busy(Exec(run[..n]), id)))
  }

  predicate Agree(records: Table, mirror: Table, id: string) {
    (id in records <==> id in mirror) && (id in records ==> records[id] == mirror[id])
  }

  /** What a change leaves on record for its instance. */
  function Left(c: Option<Change>): Option<ServiceRecord> {
    if c.Some? && c.value.Add? then Some(c.value.record) else None
  }

  function Lookup(t: Table, id: string): Option<ServiceRecord> {
    if id in t then Some(t[id]) else None
  }

  /** The last change of an instance to begin, if any. */
  function LastBegun(run: seq<Event>, id: string): Option<Change> {
    if run == [] then None
    else
      var e := run[|run| - 1];
      if e.Begin? && IdOf(e.change) == id then Some(e.change) else LastBegun(run[..|run| - 1], id)
  }

  /** The last change of an instance to end, if any. */
  function LastEnded(run: seq<Event>, id: string): Option<Change>
    requires Possible(run)
  {
    if run == [] then None
    else
      var before, e := run[..|run| - 1], run[|run| - 1];
      if e.End? && IdOf(Exec(before).pending[e.call]) == id then Some(Exec(before).pending[e.call])
      else LastEnded(before, id)
  }

  /** The records follow the last change to begin, the mirror follows the last to end. */
  lemma {:induction false} TablesFollow(run: seq<Event>, id: string)
    requires Possible(run)
    ensures Lookup(Exec(run).records, id) == Left(LastBegun(run, id))
    ensures Lookup(Exec(run).mirror, id) == Left(LastEnded(run, id))
    ensures Keyed(Exec(run))
  {
    if run != [] {
      TablesFollow(run[..|run| - 1], id);
    }
  }

  ghost predicate Keyed(s: State) {
    && (forall id :: id in s.records ==> s.records[id].instanceID == id)
    && (forall id :: id in s.mirror ==> s.mirror[id].instanceID == id)
  }

  /** Exactly when the mirror shows an instance as the records have it: when the last change of it to begin and the
      last one to end leave the same. */
  lemma AgreeIff(run: seq<Event>, id: string)
    requires Possible(run)
    ensures Agree(Exec(run).records, Exec(run).mirror, id) <==> Left(LastBegun(run, id)) == Left(LastEnded(run, id))
  {
    TablesFollow(run, id);
  }

  /** Without overlap at most one change is pending, and it is the last to have begun. */
  ghost predicate OneAtATime(run: seq<Event>, id: string)
    requires Possible(run)
  {
    var s := Exec(run);
    && (!Busy(s, id) ==> LastBegun(run, id) == LastEnded(run, id))
    && (forall a :: a in s.pending && IdOf(s.pending[a]) == id ==> LastBegun(run, id) == Some(s.pending[a]))
    && (forall a, b :: a in s.pending && b in s.pending && IdOf(s.pending[a]) == id == IdOf(s.pending[b]) ==> a == b)
  }

  lemma {:induction false} SerialIsOneAtATime(run: seq<Event>, id: string)
    requires Possible(run) && Serial(run, id)
    ensures OneAtATime(run, id)
  {
    if run != [] {
      var before, e := run[..|run| - 1], run[|run| - 1];
      SerialIsOneAtATime(before, id);
      var s, t := Exec(before), Exec(run);
      if e.Begin? {
        assert t.pending[e.call] == e.change;
        assert forall a :: a in s.pending ==> a in t.pending && t.pending[a] == s.pending[a];
        assert IdOf(e.change) != id && Busy(s, id) ==> Busy(t, id) by {
          StaysBusy(s, t, id, e.call);
        }
      } else {
        assert forall a :: a in t.pending ==> a in s.pending && t.pending[a] == s.pending[a];
        if IdOf(s.pending[e.call]) != id {
          StaysBusy(s, t, id, e.call);
        }
      }
    }
  }

  lemma StaysBusy(s: State, t: State, id: string, call: nat)
    requires forall a :: a in s.pending && a != call ==> a in t.pending && t.pending[a] == s.pending[a]
    requires call in s.pending ==>
             IdOf(s.pending[call]) != id || (call in t.pending && t.pending[call] == s.pending[call])
    ensures Busy(s, id) ==> Busy(t, id)
  {
    if Busy(s, id) {
      var a :| a in s.pending && IdOf(s.pending[a]) == id;
      assert a in t.pending && IdOf(t.pending[a]) == id;
    }
  }

  /** The mirror is up to date, but for a single change that is still to reach it. */
  ghost predicate UpToDate(s: State, id: string) {
    && (!Busy(s, id) ==> Agree(s.records, s.mirror, id))
    && (forall call :: call in s.pending && IdOf(s.pending[call]) == id ==>
          Agree(s.records, Changed(s.mirror, s.pending[call]), id))
    && (forall a, b :: a in s.pending && b in s.pending && IdOf(s.pending[a]) == id == IdOf(s.pending[b]) ==> a == b)
  }

  /** The mirror shows an instance as the records have it whenever no change of that instance is under way, if its
      changes have not overlapped. */
  lemma SerialChangesAgree(run: seq<Event>, id: string)
    requires Possible(run) && Serial(run, id)
    ensures UpToDate(Exec(run), id)
  {
    SerialIsOneAtATime(run, id);
    TablesFollow(run, id);
  }

  /** A removal that overtakes an addition leaves the instance in the mirror for good. */
  lemma OvertakenAddStaysVisible(r: ServiceRecord)
    ensures var run := [Begin(0, Add(r)), Begin(1, Remove(r.instanceID)), End(1), End(0)];
            && Possible(run) && Exec(run).pending == map[]
            && r.instanceID !in Exec(run).records && r.instanceID in Exec(run).mirror
  {
    var add, remove := Add(r), Remove(r.instanceID);
    assert Possible([]) && Exec([]) == EMPTY;
    ExecNext([], Begin(0, add));
    ExecNext([] + [Begin(0, add)], Begin(1, remove));
    ExecNext([] + [Begin(0, add)] + [Begin(1, remove)], End(1));
    ExecNext([] + [Begin(0, add)] + [Begin(1, remove)] + [End(1)], End(0));
    assert [] + [Begin(0, add)] + [Begin(1, remove)] + [End(1)] + [End(0)]
           == [Begin(0, add), Begin(1, remove), End(1), End(0)];
  }

  lemma ExecNext(run: seq<Event>, e: Event)
    requires Possible(run) && Enabled(Exec(run), e)
    ensures Possible(run + [e]) && Exec(run + [e]) == Step(Exec(run), e)
  {
    assert (run + [e])[..|run|] == run;
  }
}

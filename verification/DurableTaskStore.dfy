/**
 * The durable adapter (agent/travel_agent/a2a/postgres_store.py) over three tables, and its
 * refinement of the reference store: each method is specified by the reference operation on the
 * abstraction `Abs` of the tables.  A method is one transaction; an error leaves the tables as they were.
 */
module DurableTaskStore {
  import opened Common
  import opened TaskTypes
  import opened TaskStore

  // ---------------------------------------------------------------------------------------------
  // Tables

  /** A row of v1_agent_tasks; `status` and `artifacts` are the content of task_proto. */
  datatype TaskRow = TaskRow(
    header: Header,
    state: TaskState,
    status: Status,
    artifacts: seq<Artifact>,
    version: int,
    eventCount: int,
    updatedAt: Time,
    pendingInput: Option<string>,
    executionInput: Option<InputResponse>,
    messages: map<string, string>,
    leaseOwner: Option<string>,
    leaseUntil: Option<Time>,
    attempt: int)

  /** A row of v1_agent_task_events. */
  datatype EventRow = EventRow(seqNo: int, version: int, event: Event)

  /** A row of v1_agent_dispatch_inbox. */
  datatype InboxRow = InboxRow(task: string, fingerprint: string)

  /** The events of one Task are listed in the order of their primary key. */
  datatype Tables = Tables(
    tasks: map<TaskKey, TaskRow>,
    events: map<TaskKey, seq<EventRow>>,
    inbox: map<InboxKey, InboxRow>)

  const MAX_EVENTS := 512
  const MAX_REFERENCES := 10
  const MAX_LEASE := 300000

  // ---------------------------------------------------------------------------------------------
  // Record validation

  predicate Bounded(s: string, limit: int) {
    0 < |s| <= limit
  }

  predicate LowerHex(c: char) {
    '0' <= c <= '9' || 'a' <= c <= 'f'
  }

  predicate Sha256(s: string) {
    |s| == 64 && forall i :: 0 <= i < |s| ==> LowerHex(s[i])
  }

  predicate CanonicalUuid(s: string) {
    && |s| == 36
    && forall i :: 0 <= i < 36 ==>
         if i == 8 || i == 13 || i == 18 || i == 23 then s[i] == '-' else LowerHex(s[i]) || 'A' <= s[i] <= 'F'
  }

  predicate HeaderValid(h: Header) {
    && Bounded(h.tenant, 128) && Bounded(h.interface, 128) && Bounded(h.task, 96) && Bounded(h.context, 96)
    && CanonicalUuid(h.dispatch) && Bounded(h.actor, 128) && Bounded(h.run, 160) && Sha256(h.fingerprint)
    && |h.references| <= MAX_REFERENCES && (forall r :: r in h.references ==> Bounded(r, 96))
  }

  predicate MessagesValid(messages: map<string, string>) {
    forall m :: m in messages ==> Bounded(m, 128) && Sha256(messages[m])
  }

  /** Event versions never decrease and lie in 1..version. */
  predicate EventsOrdered(events: seq<VersionedEvent>, version: int) {
    && (forall i :: 0 <= i < |events| ==> 1 <= events[i].version <= version)
    && (forall i, j :: 0 <= i < j < |events| ==> events[i].version <= events[j].version)
  }

  predicate RecordValid(r: Record) {
    && HeaderValid(r.header)
    && r.version >= 1
    && |r.events| <= MAX_EVENTS
    && EventsOrdered(r.events, r.version)
    && MessagesValid(r.messages)
  }

  /** `_validate_record`, with its running `previous_version`. */
  method ValidateRecord(r: Record) returns (ok: bool)
    ensures ok <==> RecordValid(r)
  {
    if !HeaderValid(r.header) || r.version < 1 || |r.events| > MAX_EVENTS {
      return false;
    }
    var previous := 0;
    for i := 0 to |r.events|
      invariant EventsOrdered(r.events[..i], r.version)
      invariant previous == if i == 0 then 0 else r.events[i - 1].version
    {
      var item := r.events[i];
      if item.version < 1 || item.version < previous || item.version > r.version {
        assert !EventsOrdered(r.events, r.version) by {
          if i > 0 && item.version < previous {
            assert r.events[i - 1].version > r.events[i].version;
          }
        }
        return false;
      }
      previous := item.version;
    }
    assert r.events[..|r.events|] == r.events;
    return MessagesValid(r.messages);
  }

  /** `_assert_event_prefix`: the retained events are a prefix of the replacement's. */
  method AssertEventPrefix(current: seq<VersionedEvent>, replacement: seq<VersionedEvent>) returns (ok: bool)
    ensures ok <==> current <= replacement
  {
    if |replacement| < |current| {
      return false;
    }
    for i := 0 to |current|
      invariant current[..i] == replacement[..i]
    {
      if current[i].version != replacement[i].version || current[i].event != replacement[i].event {
        return false;
      }
    }
    return true;
  }

  // ---------------------------------------------------------------------------------------------
  // Rows and records

  function EventsOf(rows: seq<EventRow>): seq<VersionedEvent> {
    seq(|rows|, i requires 0 <= i < |rows| => VersionedEvent(rows[i].version, rows[i].event))
  }

  /** `_event_rows` from `start` on. */
  function EventRows(events: seq<VersionedEvent>, start: nat): seq<EventRow>
    requires start <= |events|
  {
    seq(|events| - start, i requires 0 <= i < |events| - start =>
      EventRow(start + i + 1, events[start + i].version, events[start + i].event))
  }

  function RecordOf(row: TaskRow, rows: seq<EventRow>): Record {
    Record(row.header, row.status, row.artifacts, row.version, row.updatedAt, row.pendingInput, row.executionInput,
           row.messages, EventsOf(rows))
  }

  /** `_record_values`: the columns written for a record; the lease columns are not among them. */
  function RowOf(r: Record, leaseOwner: Option<string>, leaseUntil: Option<Time>, attempt: int): TaskRow {
    TaskRow(r.header, r.State(), r.status, r.artifacts, r.version, |r.events|, r.updatedAt, r.pendingInput,
            r.executionInput, r.messages, leaseOwner, leaseUntil, attempt)
  }

  /** The event rows of a Task are numbered 1, 2, 3, ... without a gap. */
  predicate Contiguous(rows: seq<EventRow>) {
    forall i :: 0 <= i < |rows| ==> rows[i].seqNo == i + 1
  }

  /** What `_load_tx` demands of a stored row before it hands out the record. */
  predicate Loadable(row: TaskRow, rows: seq<EventRow>) {
    && row.eventCount == |rows|
    && row.state == row.status.state
    && Contiguous(rows)
    && RecordValid(RecordOf(row, rows))
  }

  lemma RowsRoundTrip(r: Record, owner: Option<string>, until: Option<Time>, attempt: int)
    ensures RecordOf(RowOf(r, owner, until, attempt), EventRows(r.events, 0)) == r
    ensures Contiguous(EventRows(r.events, 0))
  {
  }

  /** Appending only the new rows stores the whole new log. */
  lemma AppendRows(rows: seq<EventRow>, events: seq<VersionedEvent>)
    requires Contiguous(rows) && EventsOf(rows) <= events
    ensures |rows| <= |events|
    ensures rows + EventRows(events, |rows|) == EventRows(events, 0)
  {
  }

  // ---------------------------------------------------------------------------------------------
  // Abstraction

  ghost function LeaseOf(k: TaskKey, row: TaskRow): Lease
    requires row.leaseOwner.Some?
  {
    Lease(k, row.leaseOwner.value, row.attempt, if row.leaseUntil.Some? then row.leaseUntil.value else 0)
  }

  ghost predicate RowOk(k: TaskKey, row: TaskRow, rows: seq<EventRow>) {
    && row.header.tenant == k.tenant && row.header.interface == k.interface && row.header.task == k.task
    && Loadable(row, rows)
    && (row.leaseOwner.Some? <==> row.leaseUntil.Some?)
    && (row.leaseOwner.Some? ==> Executable(row.state) && row.attempt >= 1)
    && row.attempt >= 0
  }

  function InboxTask(d: InboxKey, row: InboxRow): TaskKey {
    TaskKey(d.tenant, d.interface, row.task)
  }

  function HeaderInbox(h: Header): InboxKey {
    InboxKey(h.tenant, h.interface, h.dispatch)
  }

  /** The inbox names an existing Task of the same dispatch, with that Task's never-changing fingerprint. */
  ghost predicate InboxOk(db: Tables) {
    && (forall d :: d in db.inbox ==>
          && InboxTask(d, db.inbox[d]) in db.tasks
          && HeaderInbox(db.tasks[InboxTask(d, db.inbox[d])].header) == d
          && db.inbox[d].fingerprint == db.tasks[InboxTask(d, db.inbox[d])].header.fingerprint)
    && (forall k :: k in db.tasks ==> HeaderInbox(db.tasks[k].header) in db.inbox)
  }

  ghost predicate RowsOk(db: Tables) {
    db.events.Keys == db.tasks.Keys && forall k :: k in db.tasks ==> RowOk(k, db.tasks[k], db.events[k])
  }

  ghost predicate TablesOk(db: Tables) {
    RowsOk(db) && InboxOk(db)
  }

  ghost function AbsRecords(db: Tables): map<TaskKey, Record>
    requires db.events.Keys == db.tasks.Keys
  {
    map k | k in db.tasks :: RecordOf(db.tasks[k], db.events[k])
  }

  ghost function AbsLeases(tasks: map<TaskKey, TaskRow>): map<TaskKey, Lease> {
    map k | k in tasks && tasks[k].leaseOwner.Some? :: LeaseOf(k, tasks[k])
  }

  ghost function AbsAttempts(tasks: map<TaskKey, TaskRow>): map<TaskKey, int> {
    map k | k in tasks && tasks[k].attempt > 0 :: tasks[k].attempt
  }

  ghost function AbsInbox(inbox: map<InboxKey, InboxRow>): map<InboxKey, TaskKey> {
    map d | d in inbox :: InboxTask(d, inbox[d])
  }

  ghost function Abs(db: Tables): Store
    requires db.events.Keys == db.tasks.Keys
  {
    Store(AbsRecords(db), AbsInbox(db.inbox), AbsLeases(db.tasks), AbsAttempts(db.tasks))
  }

  lemma PutRows(db: Tables, db': Tables, k: TaskKey, row: TaskRow, rows: seq<EventRow>)
    requires RowsOk(db) && RowOk(k, row, rows)
    requires db'.tasks == db.tasks[k := row] && db'.events == db.events[k := rows]
    ensures RowsOk(db')
  {
  }

  lemma PutLeases(tasks: map<TaskKey, TaskRow>, k: TaskKey, row: TaskRow)
    ensures AbsLeases(tasks[k := row]) == if row.leaseOwner.Some? then AbsLeases(tasks)[k := LeaseOf(k, row)] else AbsLeases(tasks) - {k}
    ensures AbsAttempts(tasks[k := row]) == if row.attempt > 0 then AbsAttempts(tasks)[k := row.attempt] else AbsAttempts(tasks) - {k}
  {
    hide LeaseOf;
  }

  lemma PutRecords(db: Tables, db': Tables, k: TaskKey, row: TaskRow, rows: seq<EventRow>)
    requires db.events.Keys == db.tasks.Keys
    requires db'.tasks == db.tasks[k := row] && db'.events == db.events[k := rows]
    ensures db'.events.Keys == db'.tasks.Keys
    ensures AbsRecords(db') == AbsRecords(db)[k := RecordOf(row, rows)]
  {
  }

  /** Writing one Task's rows changes the abstraction at that key only. */
  lemma AbsPut(db: Tables, db': Tables, k: TaskKey, row: TaskRow, rows: seq<EventRow>)
    requires RowsOk(db) && RowOk(k, row, rows)
    requires db'.tasks == db.tasks[k := row] && db'.events == db.events[k := rows]
    ensures RowsOk(db')
    ensures Abs(db').records == Abs(db).records[k := RecordOf(row, rows)]
    ensures Abs(db').leases == if row.leaseOwner.Some? then Abs(db).leases[k := LeaseOf(k, row)] else Abs(db).leases - {k}
    ensures Abs(db').attempts == if row.attempt > 0 then Abs(db).attempts[k := row.attempt] else Abs(db).attempts - {k}
  {
    PutRows(db, db', k, row, rows);
    PutLeases(db.tasks, k, row);
    PutRecords(db, db', k, row, rows);
    hide RowOk, RowsOk, RecordOf, LeaseOf, AbsRecords, AbsLeases, AbsAttempts, AbsInbox;
  }

  /** What the abstraction shows of one stored Task. */
  lemma AbsAt(db: Tables, k: TaskKey)
    requires RowsOk(db)
    ensures k in Abs(db).records <==> k in db.tasks
    ensures k in db.tasks ==>
              && Abs(db).records[k] == RecordOf(db.tasks[k], db.events[k])
              && Abs(db).records[k].Key() == k
              && Abs(db).Attempt(k) == db.tasks[k].attempt
              && (k in Abs(db).leases <==> db.tasks[k].leaseOwner.Some?)
              && (k in Abs(db).leases ==> Abs(db).leases[k] == LeaseOf(k, db.tasks[k]))
              && (db.tasks[k].attempt > 0 <==> k in Abs(db).attempts)
  {
    hide RecordValid, InboxOk;
  }

  lemma RowFacts(db: Tables, k: TaskKey)
    requires RowsOk(db) && k in db.tasks
    ensures k in db.events && Contiguous(db.events[k]) && RowOk(k, db.tasks[k], db.events[k])
  {
  }

  lemma RowLeaseOk(k: TaskKey, row: TaskRow, rows: seq<EventRow>)
    requires RowOk(k, row, rows)
    ensures row.attempt >= 0 && row.state == row.status.state
    ensures row.leaseOwner.Some? <==> row.leaseUntil.Some?
    ensures row.leaseOwner.Some? ==> Executable(row.state) && row.attempt >= 1
  {
  }

  lemma AbsAbsent(db: Tables, k: TaskKey)
    requires RowsOk(db) && k !in db.tasks
    ensures k !in Abs(db).records && k !in Abs(db).leases && k !in Abs(db).attempts
  {
  }

  lemma InboxInsert(db: Tables, db': Tables, r: Record)
    requires InboxOk(db) && r.Inbox() !in db.inbox && r.Key() !in db.tasks
    requires db'.tasks == db.tasks[r.Key() := RowOf(r, None, None, 0)]
    requires db'.inbox == db.inbox[r.Inbox() := InboxRow(r.header.task, r.header.fingerprint)]
    ensures InboxOk(db')
  {
    var row := RowOf(r, None, None, 0);
    assert HeaderInbox(row.header) == r.Inbox() && InboxTask(r.Inbox(), db'.inbox[r.Inbox()]) == r.Key();
    hide RowOf;
    forall k | k in db'.tasks
      ensures HeaderInbox(db'.tasks[k].header) in db'.inbox
    {
      assert k != r.Key() ==> db'.tasks[k] == db.tasks[k];
    }
  }

  lemma AbsInboxInsert(inbox: map<InboxKey, InboxRow>, r: Record)
    ensures r.Inbox() in AbsInbox(inbox) <==> r.Inbox() in inbox
    ensures AbsInbox(inbox[r.Inbox() := InboxRow(r.header.task, r.header.fingerprint)]) == AbsInbox(inbox)[r.Inbox() := r.Key()]
  {
  }

  /** New lease columns on a consistent row. */
  lemma LeaseRowOk(k: TaskKey, row: TaskRow, rows: seq<EventRow>, owner: Option<string>, until: Option<Time>, attempt: int)
    requires RowOk(k, row, rows) && (owner.Some? <==> until.Some?) && attempt >= row.attempt
    requires owner.Some? ==> Executable(row.state) && attempt >= 1
    ensures var row' := row.(leaseOwner := owner, leaseUntil := until, attempt := attempt);
            RowOk(k, row', rows) && RecordOf(row', rows) == RecordOf(row, rows)
  {
  }

  lemma ReplacedRowOk(k: TaskKey, row: TaskRow, rows: seq<EventRow>, r: Record)
    requires RowOk(k, row, rows) && RecordValid(r) && r.header == row.header
    ensures RowOk(k, ReplacedRow(row, r), EventRows(r.events, 0))
    ensures RecordOf(ReplacedRow(row, r), EventRows(r.events, 0)) == r
  {
  }

  lemma CreatedRowOk(r: Record)
    requires RecordValid(r)
    ensures RowOk(r.Key(), RowOf(r, None, None, 0), EventRows(r.events, 0))
    ensures RecordOf(RowOf(r, None, None, 0), EventRows(r.events, 0)) == r
  {
  }

  /** Rows of one Task whose header does not change keep the inbox consistent. */
  lemma InboxKept(db: Tables, db': Tables, k: TaskKey, row: TaskRow)
    requires InboxOk(db) && k in db.tasks && row.header == db.tasks[k].header
    requires db'.tasks == db.tasks[k := row] && db'.inbox == db.inbox
    ensures InboxOk(db')
  {
  }

  // ---------------------------------------------------------------------------------------------
  // Refinement, operation by operation

  predicate RowLeaseLive(row: TaskRow, l: Lease, now: Time) {
    && row.leaseOwner == Some(l.owner)
    && row.attempt == l.attempt
    && row.leaseUntil.Some? && row.leaseUntil.value > now
  }

  lemma LeaseLiveRefines(db: Tables, k: TaskKey, l: Lease, now: Time)
    requires RowsOk(db) && k in db.tasks
    ensures Abs(db).LeaseLive(k, l, now) <==> RowLeaseLive(db.tasks[k], l, now)
  {
  }

  /** The row a replacement leaves: new columns, and no lease unless the Task stays executable. */
  function ReplacedRow(row: TaskRow, r: Record): TaskRow {
    if Executable(r.State()) then RowOf(r, row.leaseOwner, row.leaseUntil, row.attempt) else RowOf(r, None, None, row.attempt)
  }

  lemma ReplaceRefines(db: Tables, db': Tables, r: Record, expected: int, lease: Option<Lease>, now: Time)
    requires TablesOk(db) && RecordValid(r) && r.version == expected + 1
    requires var k := r.Key();
             && k in db.tasks
             && db.tasks[k].version == expected
             && db.tasks[k].header == r.header
             && EventsOf(db.events[k]) <= r.events
             && (lease.Some? ==> RowLeaseLive(db.tasks[k], lease.value, now))
             && db'.tasks == db.tasks[k := ReplacedRow(db.tasks[k], r)]
             && db'.events == db.events[k := EventRows(r.events, 0)]
    requires db'.inbox == db.inbox
    ensures TablesOk(db')
    ensures (Abs(db'), Ok(r)) == Replaced(Abs(db), r, expected, lease, now)
  {
    hide RowOk, InboxOk, RecordValid, EventsOf, EventRows, AbsRecords, AbsLeases, AbsAttempts, AbsInbox;
    var k := r.Key();
    var row := db.tasks[k];
    var row' := ReplacedRow(row, r);
    RowFacts(db, k);
    ReplacedRowOk(k, row, db.events[k], r);
    AbsPut(db, db', k, row', EventRows(r.events, 0));
    InboxKept(db, db', k, row');
    AbsAt(db, k);
    if lease.Some? {
      LeaseLiveRefines(db, k, lease.value, now);
    }
    RowLeaseOk(k, row, db.events[k]);
    assert Abs(db').leases == if Executable(r.State()) then Abs(db).leases else Abs(db).leases - {k};
    assert Abs(db').attempts == Abs(db).attempts;
  }

  lemma CreateRefines(db: Tables, db': Tables, r: Record)
    requires TablesOk(db) && RecordValid(r)
    requires r.Inbox() !in db.inbox && r.Key() !in db.tasks
    requires db'.tasks == db.tasks[r.Key() := RowOf(r, None, None, 0)]
    requires db'.events == db.events[r.Key() := EventRows(r.events, 0)]
    requires db'.inbox == db.inbox[r.Inbox() := InboxRow(r.header.task, r.header.fingerprint)]
    ensures TablesOk(db')
    ensures (Abs(db'), Ok((r, true))) == Created(Abs(db), r)
  {
    hide RowOk, InboxOk, RecordValid, EventsOf, EventRows, AbsRecords, AbsLeases, AbsAttempts, AbsInbox;
    var k := r.Key();
    CreatedRowOk(r);
    AbsPut(db, db', k, RowOf(r, None, None, 0), EventRows(r.events, 0));
    InboxInsert(db, db', r);
    AbsInboxInsert(db.inbox, r);
    AbsAbsent(db, k);
    assert Abs(db).leases - {k} == Abs(db).leases && Abs(db).attempts - {k} == Abs(db).attempts;
  }

  lemma ClaimRefines(db: Tables, db': Tables, k: TaskKey, owner: string, duration: int, now: Time)
    requires TablesOk(db) && k in db.tasks && Executable(db.tasks[k].state)
    requires db.tasks[k].leaseOwner.None? || (db.tasks[k].leaseUntil.Some? && db.tasks[k].leaseUntil.value <= now)
    requires db'.tasks == db.tasks[k := db.tasks[k].(leaseOwner := Some(owner), leaseUntil := Some(now + LeaseDuration(duration)),
                                                     attempt := db.tasks[k].attempt + 1)]
    requires db'.events == db.events && db'.inbox == db.inbox
    ensures TablesOk(db')
    ensures (Abs(db'), Ok(Some(Lease(k, owner, db.tasks[k].attempt + 1, now + LeaseDuration(duration)))))
            == Claimed(Abs(db), k, owner, duration, now)
  {
    hide RowOk, InboxOk, RecordValid, EventsOf, EventRows, AbsRecords, AbsLeases, AbsAttempts, AbsInbox;
    var row := db.tasks[k];
    var row' := db'.tasks[k];
    RowFacts(db, k);
    RowLeaseOk(k, row, db.events[k]);
    LeaseRowOk(k, row, db.events[k], row'.leaseOwner, row'.leaseUntil, row'.attempt);
    assert db'.events == db.events[k := db.events[k]];
    AbsPut(db, db', k, row', db.events[k]);
    InboxKept(db, db', k, row');
    AbsAt(db, k);
    assert Abs(db').records == Abs(db).records;
  }

  /** Changing only the expiry, or only dropping the lease, of one row. */
  lemma LeaseColumnsRefine(db: Tables, db': Tables, k: TaskKey, owner: Option<string>, until: Option<Time>)
    requires TablesOk(db) && k in db.tasks
    requires owner.Some? <==> until.Some?
    requires owner.Some? ==> owner == db.tasks[k].leaseOwner
    requires db'.tasks == db.tasks[k := db.tasks[k].(leaseOwner := owner, leaseUntil := until)]
    requires db'.events == db.events && db'.inbox == db.inbox
    ensures TablesOk(db')
    ensures Abs(db') == Abs(db).(leases := if owner.Some? then Abs(db).leases[k := Lease(k, owner.value, db.tasks[k].attempt, until.value)]
                                           else Abs(db).leases - {k})
  {
    hide RowOk, InboxOk, RecordValid, EventsOf, EventRows, AbsRecords, AbsLeases, AbsAttempts, AbsInbox;
    var row := db.tasks[k];
    var row' := db'.tasks[k];
    RowFacts(db, k);
    RowLeaseOk(k, row, db.events[k]);
    LeaseRowOk(k, row, db.events[k], owner, until, row.attempt);
    assert db'.events == db.events[k := db.events[k]];
    AbsPut(db, db', k, row', db.events[k]);
    InboxKept(db, db', k, row');
    AbsAt(db, k);
    assert Abs(db').records == Abs(db).records;
  }

  /** The answer of the durable replace, test by test, in terms of the abstraction. */
  function DurablyReplaced(s: Store, r: Record, expected: int, lease: Option<Lease>, now: Time): Result<Record, StoreError> {
    if r.version != expected + 1 then Err(TaskVersionConflict)
    else if !RecordValid(r) then Err(TaskStoreError)
    else if r.Key() !in s.records then Err(TaskMissing)
    else
      var current := s.records[r.Key()];
      if current.version != expected then Err(TaskVersionConflict)
      else if current.header != r.header || !(current.events <= r.events) then Err(TaskStoreError)
      else if lease.Some? && !s.LeaseLive(r.Key(), lease.value, now) then Err(TaskExecutionLeaseLost)
      else Ok(r)
  }

  // ---------------------------------------------------------------------------------------------
  // The adapter

  class PostgresAgentTaskStore {
    var tasks: map<TaskKey, TaskRow>
    var events: map<TaskKey, seq<EventRow>>
    var inbox: map<InboxKey, InboxRow>

    ghost function View(): Tables
      reads this
    {
      Tables(tasks, events, inbox)
    }

    ghost predicate Valid()
      reads this
    {
      TablesOk(View())
    }

    constructor ()
      ensures Valid() && Abs(View()) == EMPTY
    {
      tasks, events, inbox := map[], map[], map[];
    }

    /** `_load_tx`: a stored Task always loads, and loads as the abstraction shows it. */
    method Load(k: TaskKey) returns (out: Result<Record, StoreError>)
      requires Valid()
      ensures out == if k in Abs(View()).records then Ok(Abs(View()).records[k]) else Err(TaskMissing)
    {
      hide InboxOk, RecordValid;
      ghost var db := View();
      AbsAt(db, k);
      if k !in tasks {
        return Err(TaskMissing);
      }
      assert RowOk(k, tasks[k], events[k]);
      var loaded := LoadRow(tasks[k], events[k]);
      return loaded;
    }

    method CreateOrGet(r: Record) returns (out: Result<(Record, bool), StoreError>)
      requires Valid()
      modifies this
      ensures Valid()
      ensures (Abs(View()), out) == if RecordValid(r) then Created(old(Abs(View())), r) else (old(Abs(View())), Err(TaskStoreError))
    {
      hide RecordValid;
      var ok := ValidateRecord(r);
      if !ok {
        return Err(TaskStoreError);
      }
      ghost var db := View();
      AbsAt(db, r.Key());
      if r.Inbox() in inbox {
        var k := InboxTask(r.Inbox(), inbox[r.Inbox()]);
        AbsAt(db, k);
        assert Abs(db).dispatches[r.Inbox()] == k;
        if inbox[r.Inbox()].fingerprint != r.header.fingerprint {
          return Err(DispatchConflict);
        }
        var loaded := Load(k);
        return Ok((loaded.value, false));
      }
      if r.Key() in tasks {
        return Err(DispatchConflict);
      }
      tasks := tasks[r.Key() := RowOf(r, None, None, 0)];
      inbox := inbox[r.Inbox() := InboxRow(r.header.task, r.header.fingerprint)];
      events := events[r.Key() := EventRows(r.events, 0)];
      CreateRefines(db, View(), r);
      return Ok((r, true));
    }

    method Replace(r: Record, expected: int, lease: Option<Lease>, now: Time) returns (out: Result<Record, StoreError>)
      requires Valid()
      modifies this
      ensures Valid()
      ensures out == DurablyReplaced(old(Abs(View())), r, expected, lease, now)
      ensures out.Ok? ==> (Abs(View()), out) == Replaced(old(Abs(View())), r, expected, lease, now)
      ensures out.Err? ==> View() == old(View())
      ensures out.Ok? <==>
                && Replaced(old(Abs(View())), r, expected, lease, now).1.Ok?
                && RecordValid(r)
                && var current := old(Abs(View())).records[r.Key()];
                   current.header == r.header && current.events <= r.events
      ensures out == Err(TaskExecutionLeaseLost) ==> Replaced(old(Abs(View())), r, expected, lease, now).1 == out
    {
      hide RecordValid, RowsOk, InboxOk, AbsRecords, AbsLeases, AbsAttempts;
      if r.version != expected + 1 {
        return Err(TaskVersionConflict);
      }
      var ok := ValidateRecord(r);
      if !ok {
        return Err(TaskStoreError);
      }
      ghost var db := View();
      var k := r.Key();
      AbsAt(db, k);
      var loaded := Load(k);
      if loaded.Err? {
        return Err(TaskMissing);
      }
      var current := loaded.value;
      if current.version != expected {
        return Err(TaskVersionConflict);
      }
      if current.header != r.header {
        return Err(TaskStoreError);
      }
      var kept := AssertEventPrefix(current.events, r.events);
      if !kept {
        return Err(TaskStoreError);
      }
      if lease.Some? {
        LeaseLiveRefines(db, k, lease.value, now);
        if !RowLeaseLive(tasks[k], lease.value, now) {
          return Err(TaskExecutionLeaseLost);
        }
      }
      RowFacts(db, k);
      AppendRows(events[k], r.events);
      tasks := tasks[k := ReplacedRow(tasks[k], r)];
      events := events[k := events[k] + EventRows(r.events, |events[k]|)];
      ReplaceRefines(db, View(), r, expected, lease, now);
      return Ok(r);
    }

    method ClaimExecution(k: TaskKey, owner: string, duration: int, now: Time) returns (out: Result<Option<Lease>, StoreError>)
      requires Valid()
      modifies this
      ensures Valid()
      ensures (Abs(View()), out) == if Bounded(owner, 128) then Claimed(old(Abs(View())), k, owner, Min(duration, MAX_LEASE), now)
                                    else (old(Abs(View())), Err(TaskStoreError))
    {
      hide RecordValid, InboxOk, AbsRecords, AbsLeases, AbsAttempts;
      if !Bounded(owner, 128) {
        return Err(TaskStoreError);
      }
      ghost var db := View();
      AbsAt(db, k);
      if k !in tasks {
        return Err(TaskMissing);
      }
      assert RowOk(k, tasks[k], events[k]);
      var row := tasks[k];
      if !Executable(row.state) || !(row.leaseOwner.None? || (row.leaseUntil.Some? && row.leaseUntil.value <= now)) {
        return Ok(None);
      }
      var until := now + LeaseDuration(Min(duration, MAX_LEASE));
      tasks := tasks[k := row.(leaseOwner := Some(owner), leaseUntil := Some(until), attempt := row.attempt + 1)];
      ClaimRefines(db, View(), k, owner, Min(duration, MAX_LEASE), now);
      return Ok(Some(Lease(k, owner, row.attempt + 1, until)));
    }

    method RenewExecution(l: Lease, duration: int, now: Time) returns (out: Option<Lease>)
      requires Valid()
      modifies this
      ensures Valid()
      ensures (Abs(View()), out) == Renewed(old(Abs(View())), l, Min(duration, MAX_LEASE), now)
    {
      hide RecordValid, InboxOk, AbsRecords, AbsLeases, AbsAttempts;
      ghost var db := View();
      AbsAt(db, l.key);
      if l.key !in tasks {
        return None;
      }
      assert RowOk(l.key, tasks[l.key], events[l.key]);
      LeaseLiveRefines(db, l.key, l, now);
      var row := tasks[l.key];
      if !Executable(row.state) || !RowLeaseLive(row, l, now) {
        return None;
      }
      var until := now + LeaseDuration(Min(duration, MAX_LEASE));
      tasks := tasks[l.key := row.(leaseUntil := Some(until))];
      LeaseColumnsRefine(db, View(), l.key, Some(l.owner), Some(until));
      return Some(Lease(l.key, l.owner, l.attempt, until));
    }

    method ReleaseExecution(l: Lease)
      requires Valid()
      modifies this
      ensures Valid()
      ensures Abs(View()) == Released(old(Abs(View())), l)
    {
      hide RecordValid, InboxOk, AbsRecords, AbsAttempts;
      ghost var db := View();
      AbsAt(db, l.key);
      if l.key !in tasks {
        return;
      }
      assert RowOk(l.key, tasks[l.key], events[l.key]);
      var row := tasks[l.key];
      if row.leaseOwner == Some(l.owner) && row.attempt == l.attempt {
        tasks := tasks[l.key := row.(leaseOwner := None, leaseUntil := None)];
        LeaseColumnsRefine(db, View(), l.key, None, None);
      }
    }
  }

  /** The checks of `_load_tx` on one row and its event rows: they pass exactly on loadable rows. */
  method LoadRow(row: TaskRow, rows: seq<EventRow>) returns (out: Result<Record, StoreError>)
    ensures out == if Loadable(row, rows) then Ok(RecordOf(row, rows)) else Err(TaskStoreError)
  {
    if row.eventCount < 0 || row.eventCount > MAX_EVENTS || |rows| != row.eventCount {
      return Err(TaskStoreError);
    }
    if row.status.state != row.state {
      return Err(TaskStoreError);
    }
    var log: seq<VersionedEvent> := [];
    var priorSeq, priorVersion := 0, 0;
    for i := 0 to |rows|
      invariant |log| == i && priorSeq == i
      invariant Contiguous(rows[..i])
      invariant log == EventsOf(rows)[..i]
      invariant priorVersion == if i == 0 then 0 else rows[i - 1].version
    {
      if rows[i].seqNo != priorSeq + 1 {
        return Err(TaskStoreError);
      }
      if rows[i].version < priorVersion || rows[i].version > row.version {
        assert !EventsOrdered(EventsOf(rows), row.version) by {
          assert EventsOf(rows)[i].version == rows[i].version;
          if i > 0 {
            assert EventsOf(rows)[i - 1].version == priorVersion;
          }
        }
        return Err(TaskStoreError);
      }
      log := log + [VersionedEvent(rows[i].version, rows[i].event)];
      priorSeq, priorVersion := rows[i].seqNo, rows[i].version;
    }
    assert rows[..|rows|] == rows && log == EventsOf(rows);
    var r := Record(row.header, row.status, row.artifacts, row.version, row.updatedAt, row.pendingInput,
                    row.executionInput, row.messages, log);
    var ok := ValidateRecord(r);
    if !ok {
      return Err(TaskStoreError);
    }
    return Ok(r);
  }
}

/**
 * The writes of the Task service against the two stores: when the durable store answers as the
 * reference store does, and the Tasks on which it does not.
 */
module DurableService {
  import opened Common
  import opened TaskTypes
  import opened TaskStore
  import opened TaskProtocol
  import D = DurableTaskStore

  // ---------------------------------------------------------------------------------------------
  // Which drafts the durable store takes

  /** The log has room for the events of the write. */
  predicate LogHasRoom(i: Intent, r: Record) {
    |r.events| + |NewArtifacts(i)| + 1 <= D.MAX_EVENTS
  }

  predicate MessageFits(i: Intent) {
    i.Resume? ==> D.Bounded(i.messageId, 128) && D.Sha256(i.fingerprint)
  }

  lemma DraftEventsOrdered(i: Intent, r: Record, now: Time)
    requires r.version >= 1 && D.EventsOrdered(r.events, r.version)
    ensures D.EventsOrdered(Draft(i, r, now).events, r.version + 1)
    ensures |Draft(i, r, now).events| == |r.events| + |NewArtifacts(i)| + 1
  {
    var d := Draft(i, r, now);
    forall j | 0 <= j < |d.events|
      ensures if j < |r.events| then d.events[j] == r.events[j] else d.events[j].version == r.version + 1
    {
    }
  }

  lemma DraftMessagesValid(i: Intent, r: Record, now: Time)
    requires D.MessagesValid(r.messages)
    ensures D.MessagesValid(Draft(i, r, now).messages) <==> MessageFits(i)
  {
    hide D.Sha256, D.Bounded, ArtifactEvents;
    if i.Resume? {
      assert i.messageId in Draft(i, r, now).messages;
    }
  }

  /** A draft of a valid record is valid exactly when the log has room and a resume carries a proper message. */
  lemma DraftValidIff(i: Intent, r: Record, now: Time)
    requires D.RecordValid(r)
    ensures D.RecordValid(Draft(i, r, now)) <==> LogHasRoom(i, r) && MessageFits(i)
  {
    DraftEventsOrdered(i, r, now);
    DraftMessagesValid(i, r, now);
    hide D.HeaderValid, D.EventsOrdered, D.MessagesValid, ArtifactEvents;
  }

  // ---------------------------------------------------------------------------------------------
  // When the stores agree

  function Reference(s: Store, i: Intent, r: Record, at: Time, now: Time): Result<Record, StoreError> {
    Replaced(s, Draft(i, r, at), r.version, Fence(i), now).1
  }

  function Durable(s: Store, i: Intent, r: Record, at: Time, now: Time): Result<Record, StoreError> {
    D.DurablyReplaced(s, Draft(i, r, at), r.version, Fence(i), now)
  }

  /** The Task has moved on and the lease of the write is gone: one store names the lease, the other the version. */
  predicate LateAndFenced(s: Store, i: Intent, r: Record, now: Time) {
    && r.Key() in s.records && s.records[r.Key()].version != r.version
    && Fence(i).Some? && !s.LeaseLive(r.Key(), Fence(i).value, now)
  }

  lemma DraftShape(i: Intent, r: Record, at: Time)
    ensures var d := Draft(i, r, at); d.Key() == r.Key() && d.header == r.header && d.version == r.version + 1 && r.events <= d.events
  {
  }

  /** The two answers to a write of the service, on a snapshot that the stored record is not behind. */
  lemma StoresAgreeIff(s: Store, i: Intent, r: Record, at: Time, now: Time)
    requires r.Key() in s.records ==> Later(r, s.records[r.Key()])
    ensures Durable(s, i, r, at, now) == Reference(s, i, r, at, now) <==> D.RecordValid(Draft(i, r, at)) && !LateAndFenced(s, i, r, now)
    ensures Durable(s, i, r, at, now).Ok? <==> Reference(s, i, r, at, now).Ok? && D.RecordValid(Draft(i, r, at))
  {
    DraftShape(i, r, at);
    hide Draft, Fence, D.RecordValid;
  }

  /** In every reachable state, for every prepared write of a valid snapshot. */
  lemma StoresAgreeOnEveryWrite(run: seq<Action>, w: nat, now: Time)
    requires w in Exec(INIT, run).pending && D.RecordValid(Exec(INIT, run).pending[w].snapshot)
    ensures var s := Exec(INIT, run).store;
            var p := Exec(INIT, run).pending[w];
            var fits := LogHasRoom(p.intent, p.snapshot) && MessageFits(p.intent);
            && (Durable(s, p.intent, p.snapshot, p.at, now).Ok? <==> Reference(s, p.intent, p.snapshot, p.at, now).Ok? && fits)
            && (Durable(s, p.intent, p.snapshot, p.at, now) == Reference(s, p.intent, p.snapshot, p.at, now)
                <==> fits && !LateAndFenced(s, p.intent, p.snapshot, now))
  {
    hide Exec, Durable, Reference, D.RecordValid, LogHasRoom, MessageFits, LateAndFenced, RecordOk, StoreOk;
    ReachableInv(run);
    var p := Exec(INIT, run).pending[w];
    assert SnapshotOk(Exec(INIT, run).store, p);
    StoresAgreeIff(Exec(INIT, run).store, p.intent, p.snapshot, p.at, now);
    DraftValidIff(p.intent, p.snapshot, p.at);
  }

  /** A Task whose log is full takes no further write in the durable store, of whatever kind. */
  lemma FullLogTakesNoWrite(s: Store, i: Intent, r: Record, at: Time, now: Time)
    requires |r.events| == D.MAX_EVENTS
    ensures Durable(s, i, r, at, now) == Err(TaskStoreError)
  {
    DraftShape(i, r, at);
    var d := Draft(i, r, at);
    assert |d.events| > D.MAX_EVENTS by {
      DraftIsLonger(i, r, at);
    }
    hide Draft, D.HeaderValid, D.EventsOrdered, D.MessagesValid;
  }

  lemma DraftIsLonger(i: Intent, r: Record, at: Time)
    ensures |Draft(i, r, at).events| == |r.events| + |NewArtifacts(i)| + 1
  {
  }

  // ---------------------------------------------------------------------------------------------
  // A run that fills the log of a Task

  function Zeros(n: nat): string {
    seq(n, _ => '0')
  }

  function Dashed(s: string): string
    requires |s| == 36
  {
    s[8 := '-'][13 := '-'][18 := '-'][23 := '-']
  }

  const FINGERPRINT := Zeros(64)
  const HEADER := Header("t", "a", "i", "r", Dashed(Zeros(36)), FINGERPRINT, "k", "c", "p", 0, [], 0)
  const KEY := TaskKey("t", "i", "k")
  const LEASE := Lease(KEY, "o", 1, 50)
  const ANSWER := InputResponse("q", "")

  lemma HeaderIsValid()
    ensures D.HeaderValid(HEADER) && D.Sha256(FINGERPRINT) && D.Bounded("m", 128)
  {
    assert |Dashed(Zeros(36))| == 36;
  }

  /** The Task has `n` events and no lease, and works or waits for input. */
  predicate Grown(s: System, n: nat) {
    KEY in s.store.records && KEY !in s.store.leases && GrownRecord(s.store.records[KEY], n)
  }

  predicate GrownRecord(r: Record, n: nat) {
    r.header == HEADER && |r.events| == n && (r.State().Working? || r.State().InputRequired?) && D.MessagesValid(r.messages)
  }

  /** Answer the question when one is open, and otherwise claim the Task and ask one. */
  function Growth(s: System): seq<Action>
    requires KEY in s.store.records
  {
    if s.store.records[KEY].State().InputRequired? then [Read(0, KEY, Resume("m", FINGERPRINT, ANSWER), 0), Write(0, 0)]
    else
      [ClaimLease(KEY, "o", 50, 0), Read(0, KEY, AskInput(Lease(KEY, "o", s.store.Attempt(KEY) + 1, 50), "", "q"), 0), Write(0, 0)]
  }

  lemma TwoSteps(s: System, a: Action, b: Action)
    ensures Exec(s, [a, b]) == Step(Step(s, a), b)
  {
    hide Step;
    assert [a, b][1..] == [b] && [b][1..] == [];
    assert Exec(Step(s, a), [b]) == Step(Step(s, a), b);
  }

  lemma ThreeSteps(s: System, a: Action, b: Action, c: Action)
    ensures Exec(s, [a, b, c]) == Step(Step(Step(s, a), b), c)
  {
    hide Step;
    assert [a, b, c][1..] == [b, c];
    TwoSteps(Step(s, a), b, c);
  }

  /** A read and the write after it, when nothing refuses the write. */
  lemma ReadThenWrite(s: System, i: Intent)
    requires KEY in s.store.records && s.store.records[KEY].header == HEADER && Allowed(i, s.store.records[KEY].State()) && WellFormed(i)
    requires Fence(i).Some? ==> s.store.LeaseLive(KEY, Fence(i).value, 0)
    ensures var d := Draft(i, s.store.records[KEY], 0);
            var t := Step(Step(s, Read(0, KEY, i, 0)), Write(0, 0));
            && t.store.records == s.store.records[KEY := d]
            && t.store.leases == (if Executable(d.State()) then s.store.leases else s.store.leases - {KEY})
  {
    DraftShape(i, s.store.records[KEY], 0);
    hide Draft, Fence;
  }

  lemma Answered(s: System, n: nat)
    requires Grown(s, n) && s.store.records[KEY].State().InputRequired?
    ensures Grown(Exec(s, Growth(s)), n + 1)
  {
    var i := Resume("m", FINGERPRINT, ANSWER);
    var r := s.store.records[KEY];
    TwoSteps(s, Read(0, KEY, i, 0), Write(0, 0));
    ReadThenWrite(s, i);
    HeaderIsValid();
    DraftMessagesValid(i, r, 0);
    DraftIsLonger(i, r, 0);
    DraftShape(i, r, 0);
    hide Exec, Step, D.MessagesValid, D.Sha256, D.Bounded;
  }

  lemma AskedAgain(s: System, n: nat)
    requires Grown(s, n) && s.store.records[KEY].State().Working?
    ensures Grown(Exec(s, Growth(s)), n + 1)
  {
    var r := s.store.records[KEY];
    var lease := Lease(KEY, "o", s.store.Attempt(KEY) + 1, 50);
    var claim, i := ClaimLease(KEY, "o", 50, 0), AskInput(lease, "", "q");
    var claimed := Step(s, claim);
    assert claimed.store.records == s.store.records && claimed.store.LeaseLive(KEY, lease, 0);
    ThreeSteps(s, claim, Read(0, KEY, i, 0), Write(0, 0));
    ReadThenWrite(claimed, i);
    DraftMessagesValid(i, r, 0);
    DraftIsLonger(i, r, 0);
    DraftShape(i, r, 0);
    hide Exec, Step, D.MessagesValid, D.Sha256, D.Bounded;
  }

  /** The Task is created, claimed, started and released. */
  function FirstSteps(): seq<Action> {
    [Create(HEADER, "m"), ClaimLease(KEY, "o", 50, 0)] + [Read(0, KEY, Start(LEASE), 0), Write(0, 0), ReleaseLease(LEASE)]
  }

  lemma Started()
    ensures Grown(Exec(INIT, FirstSteps()), 1)
  {
    var first := NewRecord(HEADER, "m");
    var create, claim := Create(HEADER, "m"), ClaimLease(KEY, "o", 50, 0);
    CreatedAndClaimed();
    var s := Exec(INIT, [create, claim]);
    ExecConcat(INIT, [create, claim], [Read(0, KEY, Start(LEASE), 0), Write(0, 0), ReleaseLease(LEASE)]);
    ThreeSteps(s, Read(0, KEY, Start(LEASE), 0), Write(0, 0), ReleaseLease(LEASE));
    ReadThenWrite(s, Start(LEASE));
    HeaderIsValid();
    DraftMessagesValid(Start(LEASE), first, 0);
    DraftIsLonger(Start(LEASE), first, 0);
    DraftShape(Start(LEASE), first, 0);
    hide Exec, Created, Claimed, Replaced, D.Sha256, D.Bounded;
  }

  lemma {:induction false} Grows(n: nat) returns (run: seq<Action>)
    requires n >= 1
    ensures Grown(Exec(INIT, run), n)
  {
    hide Grown, Growth, Exec;
    if n == 1 {
      run := FirstSteps();
      Started();
    } else {
      var shorter := Grows(n - 1);
      var s := Exec(INIT, shorter);
      GrownStates(s, n - 1);
      if s.store.records[KEY].State().InputRequired? {
        Answered(s, n - 1);
      } else {
        AskedAgain(s, n - 1);
      }
      run := shorter + Growth(s);
      ExecConcat(INIT, shorter, Growth(s));
    }
  }

  lemma GrownStates(s: System, n: nat)
    requires Grown(s, n)
    ensures KEY in s.store.records && (s.store.records[KEY].State().Working? || s.store.records[KEY].State().InputRequired?)
  {
  }

  lemma GrownIsValid(run: seq<Action>, n: nat)
    requires Grown(Exec(INIT, run), n) && n <= D.MAX_EVENTS
    ensures D.RecordValid(Exec(INIT, run).store.records[KEY])
  {
    LogRebuildsTask(run, KEY);
    ReachableInv(run);
    HeaderIsValid();
    hide Exec, D.HeaderValid, D.MessagesValid, Replay, LeasesOk, DispatchesOk, SnapshotOk;
  }

  /**
   * Some run of the protocol reaches a valid Task with a full log.  The reference store cancels it;
   * the durable store refuses that and every other write of the service to it.
   */
  lemma FullLogSplitsTheStores() returns (run: seq<Action>)
    ensures var s := Exec(INIT, run).store;
            && KEY in s.records && D.RecordValid(s.records[KEY]) && |s.records[KEY].events| == D.MAX_EVENTS
            && Reference(s, Cancel, s.records[KEY], 0, 0).Ok?
            && (forall i: Intent, at, now :: Durable(s, i, s.records[KEY], at, now) == Err(TaskStoreError))
  {
    run := Grows(D.MAX_EVENTS);
    GrownIsValid(run, D.MAX_EVENTS);
    hide Exec, Draft, D.RecordValid;
    var s := Exec(INIT, run).store;
    DraftShape(Cancel, s.records[KEY], 0);
    forall i: Intent, at, now
      ensures Durable(s, i, s.records[KEY], at, now) == Err(TaskStoreError)
    {
      FullLogTakesNoWrite(s, i, s.records[KEY], at, now);
    }
  }

  // ---------------------------------------------------------------------------------------------
  // A refused write with two different errors

  /** A worker claims the Task and prepares its start; the Task is canceled before it writes. */
  function OvertakenStart(): seq<Action> {
    [Create(HEADER, "m"), ClaimLease(KEY, "o", 50, 0)]
    + ([Read(1, KEY, Start(LEASE), 0)] + [Read(0, KEY, Cancel, 0), Write(0, 0)])
  }

  lemma CreatedAndClaimed()
    ensures var s := Exec(INIT, [Create(HEADER, "m"), ClaimLease(KEY, "o", 50, 0)]);
            s.store.records == map[KEY := NewRecord(HEADER, "m")] && s.store.leases == map[KEY := LEASE]
  {
    var create, claim := Create(HEADER, "m"), ClaimLease(KEY, "o", 50, 0);
    TwoSteps(INIT, create, claim);
    assert Step(INIT, create).store.records == map[KEY := NewRecord(HEADER, "m")];
    hide Exec;
  }

  lemma Overtaken()
    ensures var s := Exec(INIT, OvertakenStart());
            && 1 in s.pending && s.pending[1] == Pending(Start(LEASE), NewRecord(HEADER, "m"), 0)
            && KEY in s.store.records && s.store.records[KEY] == Draft(Cancel, NewRecord(HEADER, "m"), 0) && KEY !in s.store.leases
  {
    var create, claim, start := Create(HEADER, "m"), ClaimLease(KEY, "o", 50, 0), Read(1, KEY, Start(LEASE), 0);
    var cancel, write := Read(0, KEY, Cancel, 0), Write(0, 0);
    CreatedAndClaimed();
    var claimed := Exec(INIT, [create, claim]);
    ExecConcat(INIT, [create, claim], [start] + [cancel, write]);
    ExecConcat(claimed, [start], [cancel, write]);
    var reading := Step(claimed, start);
    assert Exec(claimed, [start]) == reading by {
      assert [start][1..] == [];
    }
    TwoSteps(reading, cancel, write);
    hide Exec, Draft;
    ReadThenWrite(reading, Cancel);
  }

  lemma ErrorsDiffer()
    ensures var s := Exec(INIT, OvertakenStart());
            && 1 in s.pending
            && var p := s.pending[1];
               && Reference(s.store, p.intent, p.snapshot, p.at, 0) == Err(TaskExecutionLeaseLost)
               && Durable(s.store, p.intent, p.snapshot, p.at, 0) == Err(TaskVersionConflict)
  {
    Overtaken();
    DraftShape(Start(LEASE), NewRecord(HEADER, "m"), 0);
    DraftShape(Cancel, NewRecord(HEADER, "m"), 0);
    ValidStart();
    hide Exec, Draft, D.RecordValid, OvertakenStart;
  }

  lemma ValidStart()
    ensures D.RecordValid(Draft(Start(LEASE), NewRecord(HEADER, "m"), 0))
  {
    HeaderIsValid();
    hide D.HeaderValid;
    DraftValidIff(Start(LEASE), NewRecord(HEADER, "m"), 0);
  }
}

/**
 * The A2A Task protocol as an interleaving system.
 *
 * Any number of workers share one store.  A worker reads a snapshot, tests the allowed states on
 * it and prepares a replacement; the write is a later, separate step, so any other steps may fall
 * in between.  Clock readings are free inputs of the steps that take one.
 */
module TaskProtocol {
  import opened Common
  import opened TaskTypes
  import opened TaskStore

  // ---------------------------------------------------------------------------------------------
  // The writes of agent/travel_agent/a2a/service.py

  datatype Intent =
    | Start(lease: Lease)
    | Complete(lease: Lease, artifacts: seq<Artifact>)
    | AskInput(lease: Lease, message: string, request: string)
    | AskAuth(lease: Lease, message: string)
    | Fail(maybeLease: Option<Lease>, message: string)
    | Cancel
    | Resume(messageId: string, fingerprint: string, response: InputResponse)

  /** `CompletedExecution.artifacts` has at least one element. */
  predicate WellFormed(i: Intent) {
    i.Complete? ==> i.artifacts != []
  }

  predicate Allowed(i: Intent, s: TaskState) {
    match i
    case Start(_) => s == Submitted
    case Complete(_, _) => s == Working
    case AskInput(_, _, _) => s == Working
    case AskAuth(_, _) => s == Working
    case Fail(_, _) => s.Working? || s.Submitted?
    case Cancel => Cancelable(s)
    case Resume(_, _, _) => s == InputRequired
  }

  function Target(i: Intent): TaskState {
    match i
    case Start(_) => Working
    case Complete(_, _) => Completed
    case AskInput(_, _, _) => InputRequired
    case AskAuth(_, _) => AuthRequired
    case Fail(_, _) => Failed
    case Cancel => Canceled
    case Resume(_, _, _) => Working
  }

  /** The execution lease that accompanies the write, if any. */
  function Fence(i: Intent): Option<Lease> {
    match i
    case Start(l) => Some(l)
    case Complete(l, _) => Some(l)
    case AskInput(l, _, _) => Some(l)
    case AskAuth(l, _) => Some(l)
    case Fail(l, _) => l
    case Cancel => None
    case Resume(_, _, _) => None
  }

  function StatusMessage(i: Intent): Option<string> {
    match i
    case AskInput(_, m, _) => Some(m)
    case AskAuth(_, m) => Some(m)
    case Fail(_, m) => Some(m)
    case _ => None
  }

  function ArtifactEvents(version: int, artifacts: seq<Artifact>): seq<VersionedEvent> {
    seq(|artifacts|, i requires 0 <= i < |artifacts| => VersionedEvent(version, ArtifactUpdate(artifacts[i])))
  }

  function NewArtifacts(i: Intent): seq<Artifact> {
    if i.Complete? then i.artifacts else []
  }

  /** The replacement record that `_transition` or `_resume_input` builds from a snapshot. */
  function Draft(i: Intent, r: Record, now: Time): Record {
    var version := r.version + 1;
    var status := Status(Target(i), StatusMessage(i), now);
    Record(
      r.header,
      status,
      r.artifacts + NewArtifacts(i),
      version,
      now,
      if i.AskInput? then Some(i.request) else None,
      match i { case Resume(_, _, response) => Some(response) case Start(_) => r.executionInput case _ => None },
      if i.Resume? then r.messages[i.messageId := i.fingerprint] else r.messages,
      r.events + ArtifactEvents(version, NewArtifacts(i)) + [VersionedEvent(version, StatusUpdate(status))])
  }

  /** The record that `send_message` hands to `create_or_get`. */
  function NewRecord(h: Header, messageId: string): Record {
    Record(h, Status(Submitted, None, h.createdAt), [], 1, h.createdAt, None, None, map[messageId := h.fingerprint], [])
  }

  // ---------------------------------------------------------------------------------------------
  // The system

  datatype Pending = Pending(intent: Intent, snapshot: Record, at: Time)

  datatype System = System(store: Store, pending: map<nat, Pending>)

  const INIT := System(EMPTY, map[])

  datatype Action =
    | Create(header: Header, messageId: string)
    | Read(worker: nat, key: TaskKey, intent: Intent, now: Time)
    | Write(worker: nat, now: Time)
    | Abandon(worker: nat)
    | ClaimLease(key: TaskKey, owner: string, duration: int, now: Time)
    | RenewLease(lease: Lease, duration: int, now: Time)
    | ReleaseLease(lease: Lease)

  function Step(s: System, a: Action): System {
    match a
    case Create(h, m) => s.(store := Created(s.store, NewRecord(h, m)).0)
    case Read(w, k, i, now) =>
      if k in s.store.records && Allowed(i, s.store.records[k].State()) && WellFormed(i)
      then s.(pending := s.pending[w := Pending(i, s.store.records[k], now)])
      else s.(pending := s.pending - {w})
    case Write(w, now) =>
      if w !in s.pending then s
      else
        var p := s.pending[w];
        System(
          Replaced(s.store, Draft(p.intent, p.snapshot, p.at), p.snapshot.version, Fence(p.intent), now).0,
          s.pending - {w})
    case Abandon(w) => s.(pending := s.pending - {w})
    case ClaimLease(k, o, d, now) => s.(store := Claimed(s.store, k, o, d, now).0)
    case RenewLease(l, d, now) => s.(store := Renewed(s.store, l, d, now).0)
    case ReleaseLease(l) => s.(store := Released(s.store, l))
  }

  function Exec(s: System, run: seq<Action>): System
    decreases |run|
  {
    if run == [] then s else Exec(Step(s, run[0]), run[1..])
  }

  lemma {:induction false} ExecConcat(s: System, a: seq<Action>, b: seq<Action>)
    ensures Exec(s, a + b) == Exec(Exec(s, a), b)
    decreases |a|
  {
    if a == [] {
      assert a + b == b;
    } else {
      assert (a + b)[1..] == a[1..] + b;
      ExecConcat(Step(s, a[0]), a[1..], b);
    }
  }

  // ---------------------------------------------------------------------------------------------
  // The invariant

  ghost predicate HasVersion(es: seq<VersionedEvent>, v: int) {
    exists i :: 0 <= i < |es| && es[i].version == v
  }

  /** Versions never decrease, lie in 2..version, and none of 2..version is missing. */
  ghost predicate LogComplete(r: Record) {
    && (forall i :: 0 <= i < |r.events| ==> 2 <= r.events[i].version <= r.version)
    && (forall i, j :: 0 <= i < j < |r.events| ==> r.events[i].version <= r.events[j].version)
    && (forall v :: 2 <= v <= r.version ==> HasVersion(r.events, v))
  }

  /** What every stored record satisfies. */
  ghost predicate RecordOk(r: Record) {
    && r.version >= 1
    && (r.pendingInput.Some? <==> r.State() == InputRequired)
    && (r.executionInput.Some? ==> r.State() == Working)
    && (r.artifacts != [] <==> r.State() == Completed)
    && r.State() != Rejected
    && Replay(InitialView(r.header), r.events) == ViewOf(r)
    && LogComplete(r)
  }

  ghost predicate LeasesOk(s: Store) {
    && (forall k :: k in s.leases ==>
          && k in s.records
          && Executable(s.records[k].State())
          && s.leases[k].key == k
          && s.leases[k].attempt == s.Attempt(k))
    && (forall k :: k in s.attempts ==> k in s.records && s.attempts[k] >= 1)
  }

  ghost predicate DispatchesOk(s: Store) {
    && (forall d :: d in s.dispatches ==> s.dispatches[d] in s.records && s.records[s.dispatches[d]].Inbox() == d)
    && (forall k :: k in s.records ==> s.records[k].Inbox() in s.dispatches && s.dispatches[s.records[k].Inbox()] == k)
  }

  ghost predicate RecordsOk(s: Store) {
    forall k :: k in s.records ==> s.records[k].Key() == k && RecordOk(s.records[k])
  }

  ghost predicate StoreOk(s: Store) {
    && RecordsOk(s)
    && LeasesOk(s)
    && DispatchesOk(s)
  }

  /** A snapshot is never ahead of the store, and equal versions mean equal records. */
  ghost predicate SnapshotOk(s: Store, p: Pending) {
    && p.snapshot.Key() in s.records
    && RecordOk(p.snapshot)
    && Allowed(p.intent, p.snapshot.State())
    && WellFormed(p.intent)
    && Later(p.snapshot, s.records[p.snapshot.Key()])
  }

  ghost predicate Inv(s: System) {
    StoreOk(s.store) && forall w :: w in s.pending ==> SnapshotOk(s.store, s.pending[w])
  }

  /** `b` is the same Task at the same or a later version. */
  ghost predicate Later(a: Record, b: Record) {
    && a.header == b.header
    && a.version <= b.version
    && (a.version == b.version ==> a == b)
    && a.events <= b.events
    && (forall i :: |a.events| <= i < |b.events| ==> b.events[i].version > a.version)
    && (Terminal(a.State()) ==> a == b)
  }

  /** One stored change: a legal edge, the next version, and new events of that version only. */
  ghost predicate Advance(a: Record, b: Record) {
    && Edge(a.State(), b.State())
    && b.version == a.version + 1
    && a.header == b.header
    && a.events < b.events
    && (forall i :: |a.events| <= i < |b.events| ==> b.events[i].version == b.version)
  }

  // ---------------------------------------------------------------------------------------------
  // What a write stores

  /** The stored record shows what the write was given: its state, message, artifacts, request and response. */
  predicate Shows(i: Intent, r: Record) {
    match i
    case Start(_) => r.status.state == Working && r.status.message.None? && r.artifacts == [] && r.pendingInput.None? && r.executionInput.None?
    case Complete(_, artifacts) =>
      r.status.state == Completed && r.status.message.None? && r.artifacts == artifacts && r.pendingInput.None? && r.executionInput.None?
    case AskInput(_, message, request) =>
      r.status.state == InputRequired && r.status.message == Some(message) && r.artifacts == [] && r.pendingInput == Some(request)
      && r.executionInput.None?
    case AskAuth(_, message) =>
      r.status.state == AuthRequired && r.status.message == Some(message) && r.artifacts == [] && r.pendingInput.None? && r.executionInput.None?
    case Fail(_, message) =>
      r.status.state == Failed && r.status.message == Some(message) && r.artifacts == [] && r.pendingInput.None? && r.executionInput.None?
    case Cancel =>
      r.status.state == Canceled && r.status.message.None? && r.artifacts == [] && r.pendingInput.None? && r.executionInput.None?
    case Resume(_, _, response) =>
      r.status.state == Working && r.status.message.None? && r.artifacts == [] && r.pendingInput.None? && r.executionInput == Some(response)
  }

  /** A write keeps the identity, takes the next version and its own time, and only a resume records a message. */
  predicate Follows(i: Intent, from: Record, to: Record, at: Time) {
    && to.header == from.header && to.version == from.version + 1
    && to.updatedAt == at && to.status.timestamp == at
    && to.messages == match i { case Resume(id, fingerprint, _) => from.messages[id := fingerprint] case _ => from.messages }
  }

  lemma DraftFollows(i: Intent, from: Record, at: Time)
    ensures Follows(i, from, Draft(i, from, at), at)
  {
  }

  lemma DraftShows(i: Intent, from: Record, at: Time)
    requires RecordOk(from) && Allowed(i, from.State()) && WellFormed(i)
    ensures Shows(i, Draft(i, from, at))
  {
  }

  // ---------------------------------------------------------------------------------------------
  // One step

  lemma {:induction false} ReplayArtifacts(v: TaskView, version: int, artifacts: seq<Artifact>)
    ensures Replay(v, ArtifactEvents(version, artifacts)) == v.(artifacts := v.artifacts + artifacts)
    decreases |artifacts|
  {
    var es := ArtifactEvents(version, artifacts);
    if artifacts == [] {
      assert v.artifacts + artifacts == v.artifacts;
    } else {
      assert es[1..] == ArtifactEvents(version, artifacts[1..]);
      ReplayArtifacts(Apply(v, es[0].event), version, artifacts[1..]);
      assert (v.artifacts + [artifacts[0]]) + artifacts[1..] == v.artifacts + artifacts;
    }
  }

  /** The events a draft adds replay to exactly the change it makes. */
  lemma DraftReplays(i: Intent, r: Record, now: Time)
    requires Replay(InitialView(r.header), r.events) == ViewOf(r)
    ensures Replay(InitialView(r.header), Draft(i, r, now).events) == ViewOf(Draft(i, r, now))
  {
    var d := Draft(i, r, now);
    var art := ArtifactEvents(d.version, NewArtifacts(i));
    var last := [VersionedEvent(d.version, StatusUpdate(d.status))];
    ReplayConcat(InitialView(r.header), r.events + art, last);
    ReplayConcat(InitialView(r.header), r.events, art);
    ReplayArtifacts(ViewOf(r), d.version, NewArtifacts(i));
    var v := ViewOf(r).(artifacts := r.artifacts + NewArtifacts(i));
    assert Replay(v, last) == Apply(v, last[0].event) by {
      assert last[1..] == [];
    }
  }

  lemma DraftLog(i: Intent, r: Record, now: Time)
    requires r.version >= 1 && LogComplete(r)
    ensures LogComplete(Draft(i, r, now))
    ensures r.events < Draft(i, r, now).events
    ensures forall j :: |r.events| <= j < |Draft(i, r, now).events| ==> Draft(i, r, now).events[j].version == r.version + 1
  {
    var d := Draft(i, r, now);
    var added := ArtifactEvents(d.version, NewArtifacts(i)) + [VersionedEvent(d.version, StatusUpdate(d.status))];
    assert d.events == r.events + added;
    assert forall j :: 0 <= j < |added| ==> added[j].version == d.version;
    assert d.version == r.version + 1;
    hide Draft, ArtifactEvents, NewArtifacts;
    assert forall j :: |r.events| <= j < |d.events| ==> d.events[j] == added[j - |r.events|];
    forall v | 2 <= v <= d.version
      ensures HasVersion(d.events, v)
    {
      if v == d.version {
        assert d.events[|r.events|].version == v;
      } else {
        assert HasVersion(r.events, v);
        var j :| 0 <= j < |r.events| && r.events[j].version == v;
        assert d.events[j].version == v;
      }
    }
  }

  /** A write built on an allowed snapshot is one legal change of that snapshot. */
  lemma DraftAdvances(i: Intent, r: Record, now: Time)
    requires RecordOk(r) && Allowed(i, r.State()) && WellFormed(i)
    ensures RecordOk(Draft(i, r, now))
    ensures Advance(r, Draft(i, r, now))
  {
    DraftReplays(i, r, now);
    DraftLog(i, r, now);
  }

  lemma LaterAdvance(a: Record, b: Record, c: Record)
    requires Later(a, b) && Advance(b, c)
    ensures Later(a, c)
  {
  }

  /** A write either changes nothing or replaces exactly the snapshot it was built on, by its draft. */
  lemma WriteEffect(s: Store, p: Pending, now: Time)
    requires StoreOk(s) && SnapshotOk(s, p)
    ensures var k := p.snapshot.Key();
            var d := Draft(p.intent, p.snapshot, p.at);
            var t := Replaced(s, d, p.snapshot.version, Fence(p.intent), now).0;
            || t == s
            || (&& s.records[k] == p.snapshot
                && t.records == s.records[k := d]
                && RecordOk(d)
                && d.header == p.snapshot.header
                && Advance(p.snapshot, d)
                && t.leases == (if Executable(d.State()) then s.leases else s.leases - {k})
                && t.attempts == s.attempts
                && t.dispatches == s.dispatches
                && (Fence(p.intent).Some? ==> s.LeaseLive(k, Fence(p.intent).value, now)))
  {
    hide RecordOk, LeasesOk, DispatchesOk, Advance, ArtifactEvents;
    DraftAdvances(p.intent, p.snapshot, p.at);
  }

  /** Replacing a record by one with the same header keeps the dispatch index. */
  lemma UpdateKeepsDispatches(s: Store, t: Store, k: TaskKey, r: Record)
    requires DispatchesOk(s) && k in s.records && r.header == s.records[k].header
    requires t.records == s.records[k := r] && t.dispatches == s.dispatches
    ensures DispatchesOk(t)
  {
  }

  lemma InsertKeepsDispatches(s: Store, t: Store, r: Record)
    requires RecordsOk(s) && DispatchesOk(s)
    requires r.Key() !in s.records && r.Inbox() !in s.dispatches
    requires t.records == s.records[r.Key() := r] && t.dispatches == s.dispatches[r.Inbox() := r.Key()]
    ensures DispatchesOk(t)
  {
  }

  lemma WriteKeepsStore(s: Store, p: Pending, now: Time)
    requires StoreOk(s) && SnapshotOk(s, p)
    ensures StoreOk(Replaced(s, Draft(p.intent, p.snapshot, p.at), p.snapshot.version, Fence(p.intent), now).0)
  {
    hide RecordOk, Draft, Fence, Advance, Later, DispatchesOk, LeasesOk;
    var d := Draft(p.intent, p.snapshot, p.at);
    var t := Replaced(s, d, p.snapshot.version, Fence(p.intent), now).0;
    WriteEffect(s, p, now);
    if t != s {
      RecordStepKeepsLeases(s, t, p.snapshot.Key(), d);
      UpdateKeepsDispatches(s, t, p.snapshot.Key(), d);
    }
  }

  lemma NewRecordOk(h: Header, m: string)
    ensures RecordOk(NewRecord(h, m))
  {
  }

  /** A lease survives any step that keeps its record executable. */
  lemma RecordStepKeepsLeases(s: Store, t: Store, k: TaskKey, r: Record)
    requires LeasesOk(s) && t.attempts == s.attempts
    requires t.records == s.records[k := r]
    requires t.leases == if Executable(r.State()) then s.leases else s.leases - {k}
    ensures LeasesOk(t)
  {
  }

  lemma CreateKeepsStore(s: Store, h: Header, m: string)
    requires StoreOk(s)
    ensures StoreOk(Created(s, NewRecord(h, m)).0)
  {
    hide RecordOk, DispatchesOk, LeasesOk;
    var r := NewRecord(h, m);
    var t := Created(s, r).0;
    if t != s {
      NewRecordOk(h, m);
      RecordStepKeepsLeases(s, t, r.Key(), r);
      InsertKeepsDispatches(s, t, r);
    }
  }

  /** Claim, renew and release touch neither records nor dispatches. */
  lemma LeaseStepKeepsStore(s: Store, t: Store)
    requires StoreOk(s) && LeasesOk(t)
    requires t.records == s.records && t.dispatches == s.dispatches
    ensures StoreOk(t)
  {
  }

  lemma LeaseStepsKeepLeases(s: Store, k: TaskKey, o: string, l: Lease, d: int, now: Time)
    requires LeasesOk(s)
    ensures LeasesOk(Claimed(s, k, o, d, now).0)
    ensures LeasesOk(Renewed(s, l, d, now).0)
    ensures LeasesOk(Released(s, l))
  {
  }

  /** The effect of one step on one stored record. */
  lemma StepEffect(s: System, a: Action, k: TaskKey)
    requires Inv(s) && k in s.store.records
    ensures k in Step(s, a).store.records
    ensures Step(s, a).store.records[k] == s.store.records[k]
            || Advance(s.store.records[k], Step(s, a).store.records[k])
    ensures Step(s, a).store.records[k] != s.store.records[k] ==>
              && a.Write? && a.worker in s.pending
              && var p := s.pending[a.worker];
                 && p.snapshot == s.store.records[k]
                 && Step(s, a).store.records[k] == Draft(p.intent, p.snapshot, p.at)
                 && (Fence(p.intent).Some? ==> s.store.LeaseLive(k, Fence(p.intent).value, a.now))
  {
    hide RecordOk, Draft, Fence, Later, LeasesOk, DispatchesOk;
    if a.Write? && a.worker in s.pending {
      WriteEffect(s.store, s.pending[a.worker], a.now);
    }
  }

  lemma StepKeepsStore(s: System, a: Action)
    requires Inv(s)
    ensures StoreOk(Step(s, a).store)
  {
    hide RecordsOk, LeasesOk, DispatchesOk, SnapshotOk, Draft, Fence;
    match a
    case Create(h, m) => CreateKeepsStore(s.store, h, m);
    case Write(w, now) =>
      if w in s.pending {
        WriteKeepsStore(s.store, s.pending[w], now);
      }
    case ClaimLease(k, o, d, now) =>
      LeaseStepsKeepLeases(s.store, k, o, Lease(k, o, 0, 0), d, now);
      LeaseStepKeepsStore(s.store, Step(s, a).store);
    case RenewLease(l, d, now) =>
      LeaseStepsKeepLeases(s.store, l.key, "", l, d, now);
      LeaseStepKeepsStore(s.store, Step(s, a).store);
    case ReleaseLease(l) =>
      LeaseStepsKeepLeases(s.store, l.key, "", l, 0, 0);
      LeaseStepKeepsStore(s.store, Step(s, a).store);
    case _ =>
  }

  lemma StepKeepsInv(s: System, a: Action)
    requires Inv(s)
    ensures Inv(Step(s, a))
  {
    hide RecordOk, LeasesOk, DispatchesOk, Draft, Fence, Advance;
    var t := Step(s, a);
    StepKeepsStore(s, a);
    forall w | w in t.pending
      ensures SnapshotOk(t.store, t.pending[w])
    {
      if w in s.pending && t.pending[w] == s.pending[w] {
        var k := s.pending[w].snapshot.Key();
        StepEffect(s, a, k);
        if t.store.records[k] != s.store.records[k] {
          LaterAdvance(s.pending[w].snapshot, s.store.records[k], t.store.records[k]);
        }
      }
    }
  }

  // ---------------------------------------------------------------------------------------------
  // Whole runs

  lemma {:induction false} ExecKeepsInv(s: System, run: seq<Action>)
    requires Inv(s)
    ensures Inv(Exec(s, run))
    decreases |run|
  {
    if run != [] {
      StepKeepsInv(s, run[0]);
      ExecKeepsInv(Step(s, run[0]), run[1..]);
    }
  }

  /** In every reachable state every stored record, lease and dispatch entry is consistent. */
  lemma ReachableInv(run: seq<Action>)
    ensures Inv(Exec(INIT, run))
  {
    ExecKeepsInv(INIT, run);
  }

  /** Every stored change of every run follows an edge of the A2A state machine. */
  lemma EveryChangeFollowsAnEdge(run: seq<Action>, a: Action, k: TaskKey)
    requires k in Exec(INIT, run).store.records
    ensures k in Exec(INIT, run + [a]).store.records
    ensures var r, r' := Exec(INIT, run).store.records[k], Exec(INIT, run + [a]).store.records[k];
            r == r' || Advance(r, r')
  {
    ReachableInv(run);
    ExecConcat(INIT, run, [a]);
    StepEffect(Exec(INIT, run), a, k);
    assert Exec(Exec(INIT, run), [a]) == Step(Exec(INIT, run), a);
  }

  lemma {:induction false} ExecLater(s: System, run: seq<Action>, k: TaskKey)
    requires Inv(s) && k in s.store.records
    ensures k in Exec(s, run).store.records
    ensures Later(s.store.records[k], Exec(s, run).store.records[k])
    decreases |run|
  {
    hide StoreOk, SnapshotOk, Advance;
    if run != [] {
      var before := run[..|run| - 1];
      assert run == before + [run[|run| - 1]];
      ExecConcat(s, before, [run[|run| - 1]]);
      ExecLater(s, before, k);
      ExecKeepsInv(s, before);
      var m := Exec(s, before);
      StepEffect(m, run[|run| - 1], k);
      var t := Step(m, run[|run| - 1]);
      assert Exec(m, [run[|run| - 1]]) == t;
      if t.store.records[k] != m.store.records[k] {
        LaterAdvance(s.store.records[k], m.store.records[k], t.store.records[k]);
      }
    }
  }

  /** A completed, failed or canceled Task never changes again, whatever happens next. */
  lemma TerminalForever(run: seq<Action>, more: seq<Action>, k: TaskKey)
    requires k in Exec(INIT, run).store.records
    requires Terminal(Exec(INIT, run).store.records[k].State())
    ensures k in Exec(INIT, run + more).store.records
    ensures Exec(INIT, run + more).store.records[k] == Exec(INIT, run).store.records[k]
  {
    ReachableInv(run);
    ExecConcat(INIT, run, more);
    ExecLater(Exec(INIT, run), more, k);
  }

  /** Folding the stored events over the submitted Task rebuilds what is stored, in every reachable state. */
  lemma LogRebuildsTask(run: seq<Action>, k: TaskKey)
    requires k in Exec(INIT, run).store.records
    ensures var r := Exec(INIT, run).store.records[k];
            Replay(InitialView(r.header), r.events) == ViewOf(r) && LogComplete(r)
  {
    ReachableInv(run);
  }

  // ---------------------------------------------------------------------------------------------
  // Fencing

  lemma {:induction false} ExecAttempts(s: System, run: seq<Action>, k: TaskKey)
    ensures Exec(s, run).store.Attempt(k) >= s.store.Attempt(k)
    decreases |run|
  {
    if run != [] {
      ExecAttempts(Step(s, run[0]), run[1..], k);
    }
  }

  /** A claim that succeeds is numbered above every attempt granted before. */
  lemma ClaimsIncrease(run: seq<Action>, more: seq<Action>, k: TaskKey, o1: string, o2: string, d1: int, d2: int, t1: Time, t2: Time)
    requires var s1 := Exec(INIT, run);
             && Claimed(s1.store, k, o1, d1, t1).1.Ok?
             && Claimed(s1.store, k, o1, d1, t1).1.value.Some?
    requires var s2 := Exec(Step(Exec(INIT, run), ClaimLease(k, o1, d1, t1)), more);
             && Claimed(s2.store, k, o2, d2, t2).1.Ok?
             && Claimed(s2.store, k, o2, d2, t2).1.value.Some?
    ensures var s1 := Exec(INIT, run);
            var s2 := Exec(Step(Exec(INIT, run), ClaimLease(k, o1, d1, t1)), more);
            Claimed(s1.store, k, o1, d1, t1).1.value.value.attempt < Claimed(s2.store, k, o2, d2, t2).1.value.value.attempt
  {
    var s1 := Exec(INIT, run);
    ExecAttempts(Step(s1, ClaimLease(k, o1, d1, t1)), more, k);
  }

  /** Once a later attempt was granted, nothing that carries an earlier one takes effect, at any clock reading. */
  lemma StaleAttemptIsFenced(run: seq<Action>, more: seq<Action>, l: Lease, r: Record, expected: int, d: int, now: Time)
    requires l.attempt < Exec(INIT, run).store.Attempt(l.key)
    requires r.Key() == l.key
    ensures var s := Exec(INIT, run + more).store;
            && Replaced(s, r, expected, Some(l), now).0 == s
            && (Replaced(s, r, expected, Some(l), now).1 == Err(TaskMissing) || Replaced(s, r, expected, Some(l), now).1 == Err(TaskExecutionLeaseLost))
            && Renewed(s, l, d, now) == (s, None)
            && Released(s, l) == s
  {
    ReachableInv(run + more);
    ExecConcat(INIT, run, more);
    ExecAttempts(Exec(INIT, run), more, l.key);
  }

  /** Completed, input-required and auth-required are written only by the holder of the latest attempt. */
  lemma ResultsNeedTheLatestAttempt(run: seq<Action>, a: Action, k: TaskKey)
    requires k in Exec(INIT, run).store.records
    requires k in Exec(INIT, run + [a]).store.records
    requires Exec(INIT, run).store.records[k] != Exec(INIT, run + [a]).store.records[k]
    requires var b := Exec(INIT, run + [a]).store.records[k].State();
             b.Completed? || b.InputRequired? || b.AuthRequired?
    ensures a.Write? && a.worker in Exec(INIT, run).pending
    ensures var s := Exec(INIT, run);
            var fence := Fence(s.pending[a.worker].intent);
            && fence.Some?
            && s.store.LeaseLive(k, fence.value, a.now)
            && fence.value.attempt == s.store.Attempt(k)
  {
    hide RecordOk, Advance, Later, DispatchesOk;
    ReachableInv(run);
    ExecConcat(INIT, run, [a]);
    assert Exec(Exec(INIT, run), [a]) == Step(Exec(INIT, run), a);
    StepEffect(Exec(INIT, run), a, k);
  }

  // ---------------------------------------------------------------------------------------------
  // The values behind a run

  lemma ExecLast(run: seq<Action>)
    requires run != []
    ensures Exec(INIT, run) == Step(Exec(INIT, run[..|run| - 1]), run[|run| - 1])
  {
    hide Step;
    var n := |run| - 1;
    assert run == run[..n] + [run[n]];
    ExecConcat(INIT, run[..n], [run[n]]);
    assert [run[n]][1..] == [];
  }

  /** The write that gave the Task its present record, if any did since it was created. */
  function LastWrite(run: seq<Action>, k: TaskKey): Option<Pending> {
    if run == [] then None
    else
      var before, a := Exec(INIT, run[..|run| - 1]), run[|run| - 1];
      if k in before.store.records && a.Write? && a.worker in before.pending
         && k in Step(before, a).store.records && Step(before, a).store.records[k] != before.store.records[k]
      then Some(before.pending[a.worker])
      else LastWrite(run[..|run| - 1], k)
  }

  lemma StepCreates(s: System, a: Action, k: TaskKey)
    requires Inv(s) && k !in s.store.records && k in Step(s, a).store.records
    ensures a.Create? && Step(s, a).store.records[k] == NewRecord(a.header, a.messageId)
  {
    hide RecordOk, LeasesOk, DispatchesOk, Draft, Later;
    if a.Write? && a.worker in s.pending {
      WriteEffect(s.store, s.pending[a.worker], a.now);
    }
  }

  /** A Task as it was created: submitted, and with the message that created it. */
  ghost predicate AsCreated(r: Record) {
    && r.status == Status(Submitted, None, r.header.createdAt) && r.artifacts == [] && r.version == 1 && r.updatedAt == r.header.createdAt
    && r.pendingInput.None? && r.executionInput.None? && r.events == []
    && exists id :: r.messages == map[id := r.header.fingerprint]
  }

  /**
   * In every reachable state a Task shows the last write to it, or its creation: a working Task
   * holds the response of the resume that made it work, an input-required one the request that was
   * asked, a completed one the artifacts of its result, and each the message it was given.
   */
  lemma {:induction false} TaskShowsItsLastWrite(run: seq<Action>, k: TaskKey)
    requires k in Exec(INIT, run).store.records
    ensures var r := Exec(INIT, run).store.records[k];
            match LastWrite(run, k)
            case None => AsCreated(r)
            case Some(p) => Shows(p.intent, r) && r.status.timestamp == p.at && r.updatedAt == p.at
  {
    if run != [] {
      var n := |run| - 1;
      var s, a := Exec(INIT, run[..n]), run[n];
      hide Exec, Draft, RecordOk, Shows, Advance, Later, AsCreated, NewRecord, StoreOk;
      ExecLast(run);
      ReachableInv(run[..n]);
      if k in s.store.records {
        StepEffect(s, a, k);
        TaskShowsItsLastWrite(run[..n], k);
        if Step(s, a).store.records[k] != s.store.records[k] {
          var p := s.pending[a.worker];
          assert SnapshotOk(s.store, p);
          DraftShows(p.intent, p.snapshot, p.at);
          DraftFollows(p.intent, p.snapshot, p.at);
        }
      } else {
        StepCreates(s, a, k);
        CreatedShows(a.header, a.messageId);
        NoWriteBeforeCreation(run[..n], k);
      }
    }
  }

  lemma CreatedShows(h: Header, id: string)
    ensures AsCreated(NewRecord(h, id))
  {
    assert NewRecord(h, id).messages == map[id := h.fingerprint];
  }

  lemma {:induction false} NoWriteBeforeCreation(run: seq<Action>, k: TaskKey)
    requires k !in Exec(INIT, run).store.records
    ensures LastWrite(run, k).None?
  {
    if run != [] {
      hide Step, Exec, StoreOk, SnapshotOk;
      var n := |run| - 1;
      ExecLast(run);
      ReachableInv(run[..n]);
      if k in Exec(INIT, run[..n]).store.records {
        StepEffect(Exec(INIT, run[..n]), run[n], k);
      }
      NoWriteBeforeCreation(run[..n], k);
    }
  }

  /** While a Task stays working it keeps its record, and with it the response it was resumed with. */
  lemma WorkingKeepsItsResponse(run: seq<Action>, a: Action, k: TaskKey)
    requires k in Exec(INIT, run).store.records && Exec(INIT, run).store.records[k].State().Working?
    ensures k in Exec(INIT, run + [a]).store.records
    ensures var r, t := Exec(INIT, run).store.records[k], Exec(INIT, run + [a]).store.records[k];
            t == r || !t.State().Working?
  {
    hide Exec, StoreOk, SnapshotOk, RecordOk;
    EveryChangeFollowsAnEdge(run, a, k);
  }

  // ---------------------------------------------------------------------------------------------
  // Accepted messages

  /** The action stores a resume of the Task under this message id. */
  predicate ResumesWith(s: System, a: Action, k: TaskKey, id: string, fingerprint: string) {
    && a.Write? && a.worker in s.pending
    && s.pending[a.worker].intent.Resume?
    && s.pending[a.worker].intent.messageId == id && s.pending[a.worker].intent.fingerprint == fingerprint
    && k in s.store.records && k in Step(s, a).store.records && Step(s, a).store.records[k] != s.store.records[k]
  }

  /** An accepted message stays recorded; its fingerprint is kept unless a resume under the same id stores another. */
  lemma MessageKeptIff(run: seq<Action>, a: Action, k: TaskKey, id: string)
    requires k in Exec(INIT, run).store.records && id in Exec(INIT, run).store.records[k].messages
    ensures var s := Exec(INIT, run); var t := Step(s, a).store;
            && k in t.records && id in t.records[k].messages
            && (t.records[k].messages[id] == s.store.records[k].messages[id]
                <==> forall f :: ResumesWith(s, a, k, id, f) ==> f == s.store.records[k].messages[id])
  {
    hide Exec, RecordOk, Advance, Later, StoreOk, Draft;
    var s := Exec(INIT, run);
    ReachableInv(run);
    StepEffect(s, a, k);
    if Step(s, a).store.records[k] != s.store.records[k] {
      var p := s.pending[a.worker];
      DraftFollows(p.intent, p.snapshot, p.at);
      if p.intent.Resume? && p.intent.messageId == id {
        assert ResumesWith(s, a, k, id, p.intent.fingerprint);
      }
    }
  }

  lemma {:induction false} MessagesAreNeverDropped(run: seq<Action>, more: seq<Action>, k: TaskKey, id: string)
    requires k in Exec(INIT, run).store.records && id in Exec(INIT, run).store.records[k].messages
    ensures k in Exec(INIT, run + more).store.records && id in Exec(INIT, run + more).store.records[k].messages
  {
    hide Step, Exec;
    if more == [] {
      assert run + more == run;
    } else {
      var n := |more| - 1;
      MessagesAreNeverDropped(run, more[..n], k, id);
      MessageKeptIff(run + more[..n], more[n], k, id);
      assert run + more == (run + more[..n]) + [more[n]];
      assert (run + more)[..|run + more| - 1] == run + more[..n];
      ExecLast(run + more);
    }
  }

  /** A resume of the Task is begun under this message id only with this fingerprint. */
  predicate KeepsId(a: Action, k: TaskKey, id: string, fingerprint: string) {
    a.Read? && a.key == k && a.intent.Resume? && a.intent.messageId == id ==> a.intent.fingerprint == fingerprint
  }

  ghost predicate PendingKeepsId(s: System, k: TaskKey, id: string, fingerprint: string) {
    forall w :: w in s.pending && s.pending[w].snapshot.Key() == k && s.pending[w].intent.Resume? && s.pending[w].intent.messageId == id ==>
      s.pending[w].intent.fingerprint == fingerprint
  }

  lemma StepKeepsIds(s: System, a: Action, k: TaskKey, id: string, fingerprint: string)
    requires Inv(s) && KeepsId(a, k, id, fingerprint) && PendingKeepsId(s, k, id, fingerprint)
    ensures PendingKeepsId(Step(s, a), k, id, fingerprint)
  {
    hide Inv, Draft, Created, Replaced, Claimed, Renewed, Released, Allowed, WellFormed, Fence;
    if a.Read? {
      if a.key in s.store.records {
        KeyOfRecord(s, a.key);
      }
    } else {
      hide KeepsId;
      assert forall w :: w in Step(s, a).pending ==> w in s.pending && Step(s, a).pending[w] == s.pending[w];
      hide Step;
    }
  }

  lemma {:induction false} PendingIdsAreKept(run: seq<Action>, k: TaskKey, id: string, fingerprint: string)
    requires forall i :: 0 <= i < |run| ==> KeepsId(run[i], k, id, fingerprint)
    ensures PendingKeepsId(Exec(INIT, run), k, id, fingerprint)
  {
    if run != [] {
      hide Exec, Step, Inv, KeepsId, PendingKeepsId;
      var n := |run| - 1;
      PendingIdsAreKept(run[..n], k, id, fingerprint);
      ReachableInv(run[..n]);
      ExecLast(run);
      StepKeepsIds(Exec(INIT, run[..n]), run[n], k, id, fingerprint);
    }
  }

  /** Where callers do not reuse a message id for another message, no accepted message is ever changed. */
  lemma {:induction false} MessagesAreKept(run: seq<Action>, more: seq<Action>, k: TaskKey, id: string)
    requires k in Exec(INIT, run).store.records && id in Exec(INIT, run).store.records[k].messages
    requires forall i :: 0 <= i < |run + more| ==> KeepsId((run + more)[i], k, id, Exec(INIT, run).store.records[k].messages[id])
    ensures var s := Exec(INIT, run + more).store;
            k in s.records && id in s.records[k].messages && s.records[k].messages[id] == Exec(INIT, run).store.records[k].messages[id]
  {
    hide Step, Exec, KeepsId, Draft, Inv;
    var f := Exec(INIT, run).store.records[k].messages[id];
    if more == [] {
      assert run + more == run;
    } else {
      var n := |more| - 1;
      var before := run + more[..n];
      assert run + more == before + [more[n]];
      assert (run + more)[..|run + more| - 1] == before;
      assert forall i :: 0 <= i < |before| ==> before[i] == (run + more)[i];
      MessagesAreKept(run, more[..n], k, id);
      PendingIdsAreKept(before, k, id, f);
      ReachableInv(before);
      StepEffect(Exec(INIT, before), more[n], k);
      KeyOfRecord(Exec(INIT, before), k);
      MessageKeptIff(before, more[n], k, id);
      ExecLast(run + more);
    }
  }

  lemma KeyOfRecord(s: System, k: TaskKey)
    requires Inv(s) && k in s.store.records
    ensures s.store.records[k].Key() == k
  {
  }

  // ---------------------------------------------------------------------------------------------
  // Creation and claims

  /** A lease is granted exactly on an executable Task without a live lease, for at least 50 milliseconds. */
  lemma ClaimGrantedIff(s: Store, k: TaskKey, owner: string, duration: int, now: Time)
    ensures var c := Claimed(s, k, owner, duration, now);
            && (c.1.Ok? && c.1.value.Some? <==>
                  k in s.records && Executable(s.records[k].State()) && (k in s.leases ==> s.leases[k].until <= now))
            && (c.1.Ok? && c.1.value.Some? ==>
                  && c.1.value.value.key == k && c.1.value.value.owner == owner
                  && c.1.value.value.until == now + (if duration < 50 then 50 else duration)
                  && c.0.leases == s.leases[k := c.1.value.value])
            && (!(c.1.Ok? && c.1.value.Some?) ==> c.0 == s)
  {
  }

  /** A renewal succeeds exactly for the live lease of an executable Task, and moves only its end. */
  lemma RenewalGrantedIff(s: Store, l: Lease, duration: int, now: Time)
    ensures var c := Renewed(s, l, duration, now);
            && (c.1.Some? <==>
                  && l.key in s.records && Executable(s.records[l.key].State()) && l.key in s.leases
                  && s.leases[l.key].owner == l.owner && s.leases[l.key].attempt == l.attempt && s.leases[l.key].until > now)
            && (c.1.Some? ==> c.0.leases[l.key] == s.leases[l.key].(until := now + if duration < 50 then 50 else duration) == c.1.value)
            && (c.1.None? ==> c.0 == s)
  {
  }

  /**
   * A replacement is accepted exactly at the expected version and under the live lease when one is
   * given; it stores the record and ends the lease of a Task that is no longer executable.
   */
  lemma ReplacementAcceptedIff(s: Store, r: Record, expected: int, lease: Option<Lease>, now: Time)
    ensures var c := Replaced(s, r, expected, lease, now); var k := r.Key();
            && (c.1.Ok? <==>
                  && k in s.records && s.records[k].version == expected && r.version == expected + 1
                  && (lease.Some? ==> k in s.leases && s.leases[k].owner == lease.value.owner
                                      && s.leases[k].attempt == lease.value.attempt && s.leases[k].until > now))
            && (c.1.Ok? ==>
                  && c.1.value == r && c.0.records == s.records[k := r]
                  && c.0.dispatches == s.dispatches && c.0.attempts == s.attempts
                  && (k in c.0.leases <==> k in s.leases && (r.State().Submitted? || r.State().Working?))
                  && forall l :: l != k ==> (l in c.0.leases <==> l in s.leases) && (l in s.leases ==> c.0.leases[l] == s.leases[l]))
            && (c.1.Err? ==> c.0 == s)
  {
  }

  /** A release ends exactly the lease with its owner and attempt, and nothing else. */
  lemma ReleaseEndsIff(s: Store, l: Lease)
    ensures var t := Released(s, l);
            && t.records == s.records && t.dispatches == s.dispatches && t.attempts == s.attempts
            && (forall k :: k in t.leases <==>
                  k in s.leases && !(k == l.key && s.leases[k].owner == l.owner && s.leases[k].attempt == l.attempt))
            && forall k :: k in t.leases ==> t.leases[k] == s.leases[k]
  {
  }

  /**
   * One dispatch creates one Task: after it was created, the same dispatch is answered with that
   * Task as it is then, another fingerprint or task id under it is refused or ignored, and nothing
   * changes.
   */
  lemma DispatchCreatesOneTask(run: seq<Action>, more: seq<Action>, k: TaskKey, again: Record)
    requires k in Exec(INIT, run).store.records && again.Inbox() == Exec(INIT, run).store.records[k].Inbox()
    ensures var s := Exec(INIT, run + more).store;
            && k in s.records
            && Created(s, again) == (s, if again.header.fingerprint == s.records[k].header.fingerprint then Ok((s.records[k], false)) else Err(DispatchConflict))
            && s.records[k].header == Exec(INIT, run).store.records[k].header
  {
    hide RecordOk, LeasesOk, SnapshotOk, Exec;
    ReachableInv(run);
    ReachableInv(run + more);
    ExecConcat(INIT, run, more);
    ExecLater(Exec(INIT, run), more, k);
  }
}

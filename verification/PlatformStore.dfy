/**
 * The transactions of backend/moyuan_web/v1/postgres_store.py. Each is given as a function from
 * the tables to a commit or an error, and as a method of `PostgresPlatformStore` that changes the
 * tables one statement after another.
 */
module PlatformStore {
  import opened Common
  import opened PlatformTypes

  // ---------------------------------------------------------------------------------------------
  // Reads and their authorization

  function TripAccess(db: Db, p: Principal, t: string, write: bool): Result<Trip, Error> {
    if t !in db.trips || db.trips[t].tenant != p.tenant then Err(NotFound)
    else
      var trip := db.trips[t];
      if trip.owner == p.user || p.admin then Ok(trip)
      else if p.user !in trip.members || (write && trip.members[p.user] != Editor) then Err(Forbidden)
      else Ok(trip)
  }

  function RunAccess(db: Db, p: Principal, r: string): Result<Run, Error> {
    if r !in db.runs || db.runs[r].tenant != p.tenant then Err(NotFound)
    else
      var access := TripAccess(db, p, db.runs[r].trip, false);
      if access.Err? then Err(access.error) else Ok(db.runs[r])
  }

  predicate HasVersion(a: Artifact, v: int) {
    1 <= v <= |a.versions|
  }

  function ViewOf(db: Db, id: VersionId): ArtifactView
    requires id.artifact in db.artifacts && HasVersion(db.artifacts[id.artifact], id.version)
  {
    var a := db.artifacts[id.artifact];
    ArtifactView(id, a.trip, a.tenant, a.kind, a.createdBy, a.versions[id.version - 1])
  }

  /** One version of an artifact, the newest when none is asked for. */
  function ArtifactAccess(db: Db, p: Principal, a: string, version: Option<int>, write: bool): (r: Result<ArtifactView, Error>)
    ensures r.Ok? ==> r.value.id.artifact == a && a in db.artifacts && HasVersion(db.artifacts[a], r.value.id.version)
                      && r.value == ViewOf(db, r.value.id)
                      && db.artifacts[a].tenant == p.tenant && TripAccess(db, p, db.artifacts[a].trip, write).Ok?
                      && (version.None? ==> r.value.id.version == |db.artifacts[a].versions|)
  {
    if a !in db.artifacts || db.artifacts[a].tenant != p.tenant then Err(NotFound)
    else
      var access := TripAccess(db, p, db.artifacts[a].trip, write);
      if access.Err? then Err(access.error)
      else
        var v := if version.Some? then version.value else |db.artifacts[a].versions|;
        if HasVersion(db.artifacts[a], v) then Ok(ViewOf(db, VersionId(a, v))) else Err(NotFound)
  }

  /** The contracts of packages/python/routepilot_contracts, which are all at schema version 1. */
  predicate Registered(kind: string, schema: int) {
    && schema == 1
    && (kind == "TravelQuestion" || kind == "TravelAnswer" || kind == "TripBrief" || kind == "EvidenceBundle"
        || kind == "CandidateSet" || kind == "ItineraryPlan" || kind == "ConstraintReport"
        || kind == "SemanticRiskReport" || kind == "ValidationReport" || kind == SNAPSHOT || kind == "ShareSnapshot")
  }

  /** The lease test against the locked run row, by database time. */
  predicate LeaseHeld(run: Run, l: RunLease, now: Time) {
    && run.leaseOwner == Some(l.owner)
    && run.attempt == l.attempt
    && run.leaseUntil.Some? && run.leaseUntil.value > now
    && Active(run.state)
  }

  predicate LeaseRequestOk(owner: string, duration: int) {
    1 <= |owner| <= 128 && 50 <= duration <= 3600000
  }

  // ---------------------------------------------------------------------------------------------
  // Statements

  function SetStatus(artifacts: map<string, Artifact>, id: VersionId, status: Status): map<string, Artifact> {
    if id.artifact in artifacts && HasVersion(artifacts[id.artifact], id.version) then
      var a := artifacts[id.artifact];
      artifacts[id.artifact := a.(versions := a.versions[id.version - 1 := a.versions[id.version - 1].(status := status)])]
    else artifacts
  }

  function StatusOf(artifacts: map<string, Artifact>, id: VersionId): Option<Status> {
    if id.artifact in artifacts && HasVersion(artifacts[id.artifact], id.version)
    then Some(artifacts[id.artifact].versions[id.version - 1].status) else None
  }

  function Supersede(artifacts: map<string, Artifact>, id: VersionId): map<string, Artifact> {
    if StatusOf(artifacts, id) == Some(Published) then SetStatus(artifacts, id, Superseded) else artifacts
  }

  function SupersedeRows(name: string, versions: seq<Version>, keep: VersionId): seq<Version> {
    seq(|versions|, i requires 0 <= i < |versions| =>
      if versions[i].status.Published? && VersionId(name, i + 1) != keep
      then versions[i].(status := Superseded) else versions[i])
  }

  /** Supersede every published version of the trip's artifacts except `keep`. */
  function SupersedeTrip(artifacts: map<string, Artifact>, tenant: string, trip: string, keep: VersionId): map<string, Artifact> {
    map a | a in artifacts ::
      if artifacts[a].tenant == tenant && artifacts[a].trip == trip
      then artifacts[a].(versions := SupersedeRows(a, artifacts[a].versions, keep))
      else artifacts[a]
  }

  function PutRun(db: Db, r: string, run: Run): Db {
    db.(runs := db.runs[r := run])
  }

  /** A public event and its outbox row. */
  function Emit(db: Db, tenant: string, e: Event): Db {
    db.(events := db.events + [e], outbox := db.outbox + [RunNote(tenant, e)])
  }

  function Note(db: Db, row: OutboxRow): Db {
    db.(outbox := db.outbox + [row])
  }

  function DispatchOf(r: string, run: Run): OutboxRow {
    DispatchNote(run.tenant, run.actor, run.trip, r, run.control)
  }

  function SetPointer(db: Db, t: string, pointer: Option<VersionId>): Db
    requires t in db.trips
  {
    db.(trips := db.trips[t := db.trips[t].(pointer := pointer, version := db.trips[t].version + 1)])
  }

  // ---------------------------------------------------------------------------------------------
  // Trips and members

  function CreateTripTx(db: Db, p: Principal, t: string): Result<Commit<()>, Error> {
    if t in db.trips then Err(DuplicateKey)
    else
      var trip := Trip(p.tenant, p.user, map[p.user := Owner], true, 1, None);
      Ok(Commit(Note(db.(trips := db.trips[t := trip]), TripNote(p.tenant, t, "trip.created")), ()))
  }

  /** `patch_trip` (which leaves the status) and `set_trip_status`. */
  function UpdateTripTx(db: Db, p: Principal, t: string, active: Option<bool>): Result<Commit<()>, Error> {
    var access := TripAccess(db, p, t, true);
    if access.Err? then Err(access.error)
    else
      var trip := access.value;
      var updated := trip.(version := trip.version + 1, active := if active.Some? then active.value else trip.active);
      Ok(Commit(Note(db.(trips := db.trips[t := updated]), TripNote(p.tenant, t, "trip.updated")), ()))
  }

  /** `upsert_trip_member`, and `remove_trip_member` when no role is given. */
  function MemberTx(db: Db, p: Principal, t: string, user: string, editor: Option<bool>): Result<Commit<()>, Error> {
    var access := TripAccess(db, p, t, true);
    if editor.Some? && !(1 <= |user| <= 128) then Err(NotFound)
    else if access.Err? then Err(access.error)
    else
      var trip := access.value;
      if trip.owner != p.user && !p.admin then Err(Forbidden)
      else if user == trip.owner then Err(VersionConflict(trip.version))
      else if editor.None? && user !in trip.members then Err(NotFound)
      else
        var members := if editor.Some? then trip.members[user := if editor.value then Editor else Viewer] else trip.members - {user};
        Ok(Commit(Note(db.(trips := db.trips[t := trip.(members := members)]), TripNote(p.tenant, t, "trip.member")), ()))
  }

  // ---------------------------------------------------------------------------------------------
  // Runs

  datatype RunRequest = RunRequest(
    trip: string, command: RunCommand, baseId: Option<string>, baseVersion: Option<int>, key: string, requestHash: string)

  datatype RunResult = RunResult(id: string, run: Run, replayed: bool)

  /** The base conditions of plan and replan commands against the trip's current artifact. */
  function BaseConflict(trip: Trip, current: Option<ArtifactView>, req: RunRequest): Option<Error> {
    var live := current.Some? && current.value.kind == SNAPSHOT && current.value.row.status.Published?;
    if req.command.kind.Plan? && live then Some(VersionConflict(current.value.id.version))
    else if req.command.kind.Replan?
            && !(live && Some(current.value.id.artifact) == req.baseId && Some(current.value.id.version) == req.baseVersion)
    then Some(VersionConflict(if trip.pointer.Some? && trip.pointer.value.version != 0 then trip.pointer.value.version else 1))
    else None
  }

  function CurrentArtifact(db: Db, p: Principal, trip: Trip): Result<Option<ArtifactView>, Error> {
    if trip.pointer.None? then Ok(None)
    else
      var view := ArtifactAccess(db, p, trip.pointer.value.artifact, Some(trip.pointer.value.version), false);
      if view.Err? then Err(view.error) else Ok(Some(view.value))
  }

  function NewRun(p: Principal, req: RunRequest): Run {
    Run(req.trip, p.tenant, p.user, Queued, "accepted", 1, req.command, None, None, None, None, None, 0)
  }

  function ReplayRun(db: Db, p: Principal, r: string): Result<Commit<RunResult>, Error> {
    var run := RunAccess(db, p, r);
    if run.Err? then Err(run.error) else Ok(Commit(db, RunResult(r, run.value, true)))
  }

  function InsertRun(db: Db, p: Principal, r: string, req: RunRequest): Commit<RunResult> {
    var run := NewRun(p, req);
    var db1 := PutRun(db.(keys := db.keys[IdemKey(p.tenant, p.user, RunCreate, req.key) := IdemRow(req.requestHash, r)]), r, run);
    Commit(Note(Emit(db1, run.tenant, Event(r, 1, "run.accepted", "")), DispatchOf(r, run)), RunResult(r, run, false))
  }

  function CreateRunTx(db: Db, p: Principal, r: string, req: RunRequest): Result<Commit<RunResult>, Error> {
    var access := TripAccess(db, p, req.trip, true);
    var key := IdemKey(p.tenant, p.user, RunCreate, req.key);
    if access.Err? then Err(access.error)
    else if !access.value.active then Err(VersionConflict(access.value.version))
    else if key in db.keys then
      if db.keys[key].requestHash != req.requestHash then Err(IdempotencyConflict) else ReplayRun(db, p, db.keys[key].run)
    else
      var current := CurrentArtifact(db, p, access.value);
      if current.Err? then Err(current.error)
      else
        var conflict := BaseConflict(access.value, current.value, req);
        if conflict.Some? then Err(conflict.value)
        else if r in db.runs then Err(DuplicateKey)
        else Ok(InsertRun(db, p, r, req))
  }

  function ClaimRunTx(db: Db, p: Principal, r: string, owner: string, duration: int, now: Time): Result<Commit<Option<RunLease>>, Error> {
    var access := RunAccess(db, p, r);
    if !LeaseRequestOk(owner, duration) then Err(BadLeaseRequest)
    else if access.Err? then Err(access.error)
    else
      var run := access.value;
      if !Active(run.state) then Ok(Commit(db, None))
      else if run.leaseOwner.Some? && run.leaseUntil.Some? && run.leaseUntil.value > now then Ok(Commit(db, None))
      else
        var claimed := run.(leaseOwner := Some(owner), leaseUntil := Some(now + duration), attempt := run.attempt + 1);
        Ok(Commit(PutRun(db, r, claimed), Some(RunLease(r, owner, claimed.attempt, now + duration))))
  }

  function RenewRunTx(db: Db, p: Principal, l: RunLease, duration: int, now: Time): Result<Commit<Option<RunLease>>, Error> {
    var access := RunAccess(db, p, l.run);
    if !LeaseRequestOk(l.owner, duration) then Err(BadLeaseRequest)
    else if access.Err? then Err(access.error)
    else if !LeaseHeld(access.value, l, now) then Ok(Commit(db, None))
    else Ok(Commit(PutRun(db, l.run, access.value.(leaseUntil := Some(now + duration))), Some(l.(until := now + duration))))
  }

  function ReleaseRunTx(db: Db, p: Principal, l: RunLease): Result<Commit<bool>, Error> {
    var access := RunAccess(db, p, l.run);
    if access.Err? then Err(access.error)
    else if access.value.leaseOwner != Some(l.owner) || access.value.attempt != l.attempt then Ok(Commit(db, false))
    else Ok(Commit(PutRun(db, l.run, access.value.(leaseOwner := None, leaseUntil := None)), true))
  }

  datatype ResultRef = ResultRef(id: VersionId, kind: string)

  datatype Mutation = Mutation(
    expected: int, state: Option<Lifecycle>, phase: Option<string>, pending: Option<Pending>, result: Option<ResultRef>,
    errorCode: Option<string>, lease: Option<RunLease>, kind: string, data: string)

  /** A run that finishes, waits or is asked to stop gives up its execution lease. */
  predicate DropsLease(state: Option<Lifecycle>) {
    state.Some? && (Terminal(state.value) || state.value.CancelRequested? || state.value.WaitingInput?)
  }

  function Mutated(run: Run, m: Mutation): Run {
    run.(control := run.control + 1,
      state := if m.state.Some? then m.state.value else run.state,
      phase := if m.phase.Some? then m.phase.value else run.phase,
      pending := if m.pending.Some? then m.pending else run.pending,
      errorCode := if m.errorCode.Some? then m.errorCode else run.errorCode,
      leaseOwner := if DropsLease(m.state) then None else run.leaseOwner,
      leaseUntil := if DropsLease(m.state) then None else run.leaseUntil,
      result := if m.result.Some? then Some(m.result.value.id) else run.result)
  }

  /** Publish a result of a run; a trip snapshot also replaces what the trip pointed to. */
  function PublishResult(db: Db, t: string, ref: ResultRef): Db
    requires t in db.trips
  {
    var published := SetStatus(db.artifacts, ref.id, Published);
    if ref.kind != SNAPSHOT then db.(artifacts := published)
    else
      var pointer := db.trips[t].pointer;
      var replaced := if pointer.Some? && pointer.value != ref.id then Supersede(published, pointer.value) else published;
      SetPointer(db.(artifacts := replaced), t, Some(ref.id))
  }

  predicate OwnsVersion(db: Db, tenant: string, t: string, id: VersionId) {
    && id.artifact in db.artifacts
    && db.artifacts[id.artifact].trip == t
    && db.artifacts[id.artifact].tenant == tenant
    && HasVersion(db.artifacts[id.artifact], id.version)
  }

  /** The publication part of a mutation. */
  function ResultTx(db: Db, p: Principal, t: string, result: Option<ResultRef>): Result<Db, Error> {
    if result.None? then Ok(db)
    else
      var access := TripAccess(db, p, t, true);
      if access.Err? then Err(access.error)
      else if !OwnsVersion(db, p.tenant, t, result.value.id) then Err(NotFound)
      else Ok(PublishResult(db, t, result.value))
  }

  function MutateRunTx(db: Db, p: Principal, r: string, m: Mutation, now: Time): Result<Commit<Run>, Error> {
    var access := RunAccess(db, p, r);
    if access.Err? then Err(access.error)
    else
      var run := access.value;
      if m.lease.Some? && (m.lease.value.run != r || !LeaseHeld(run, m.lease.value, now)) then Err(LeaseLost)
      else if run.control != m.expected then Err(VersionConflict(run.control))
      else
        var published := ResultTx(db, p, run.trip, m.result);
        if published.Err? then Err(published.error)
        else
          var updated := Mutated(run, m);
          Ok(Commit(Emit(PutRun(published.value, r, updated), run.tenant, Event(r, updated.control, m.kind, m.data)), updated))
  }

  datatype ResumeRequest = ResumeRequest(expected: int, request: string, values: Option<string>, key: string, requestHash: string)

  function Resumed(run: Run, req: ResumeRequest): Run
    requires req.values.Some?
  {
    run.(state := Queued, phase := "accepted", control := run.control + 1, pending := None,
      command := run.command.(resumeInput := Some((req.request, req.values.value))))
  }

  function ResumeConflict(run: Run, req: ResumeRequest, now: Time): Option<Error> {
    if run.control != req.expected then Some(VersionConflict(run.control))
    else if !run.state.WaitingInput? || run.pending.None? then Some(InputInvalid)
    else if run.pending.value.request != req.request then Some(InputInvalid)
    else if run.pending.value.expires <= now then Some(InputExpired)
    else if req.values.None? then Some(InputInvalid)
    else None
  }

  function InsertResume(db: Db, key: IdemKey, r: string, run: Run, req: ResumeRequest): Commit<RunResult>
    requires req.values.Some?
  {
    var updated := Resumed(run, req);
    var db1 := PutRun(db.(keys := db.keys[key := IdemRow(req.requestHash, r)]), r, updated);
    Commit(Note(Emit(db1, run.tenant, Event(r, updated.control, "run.lifecycle_changed", "INPUT_SUPPLIED")), DispatchOf(r, updated)),
           RunResult(r, updated, false))
  }

  /** `values` stands for the outcome of validating the supplied values against the pending schema. */
  function ResumeRunTx(db: Db, p: Principal, r: string, req: ResumeRequest, now: Time): Result<Commit<RunResult>, Error> {
    var access := RunAccess(db, p, r);
    if access.Err? then Err(access.error)
    else
      var run := access.value;
      var writable := TripAccess(db, p, run.trip, true);
      var key := IdemKey(p.tenant, p.user, RunResume, req.key);
      if writable.Err? then Err(writable.error)
      else if key in db.keys then
        if db.keys[key].requestHash != req.requestHash || db.keys[key].run != r then Err(IdempotencyConflict)
        else ReplayRun(db, p, r)
      else
        var conflict := ResumeConflict(run, req, now);
        if conflict.Some? then Err(conflict.value) else Ok(InsertResume(db, key, r, run, req))
  }

  // ---------------------------------------------------------------------------------------------
  // Artifacts

  datatype ArtifactRequest = ArtifactRequest(
    trip: string, kind: string, row: Version, lease: Option<RunLease>)

  /** The lease a worker presents must be live and belong to a run of the same trip. */
  function LeaseTx(db: Db, p: Principal, req: ArtifactRequest, now: Time): Option<Error> {
    if req.lease.None? then None
    else
      var run := RunAccess(db, p, req.lease.value.run);
      if run.Err? then Some(run.error)
      else if run.value.trip != req.trip || !LeaseHeld(run.value, req.lease.value, now) then Some(LeaseLost)
      else None
  }

  function CreateArtifactTx(db: Db, p: Principal, a: string, req: ArtifactRequest, now: Time): Result<Commit<ArtifactView>, Error> {
    var lost := LeaseTx(db, p, req, now);
    var access := TripAccess(db, p, req.trip, true);
    if lost.Some? then Err(lost.value)
    else if access.Err? then Err(access.error)
    else if a in db.artifacts then Err(DuplicateKey)
    else
      var artifact := Artifact(req.trip, p.tenant, req.kind, p.user, [req.row]);
      Ok(Commit(
        Note(db.(artifacts := db.artifacts[a := artifact]), ArtifactNote(p.tenant, a, "artifact.created", 1, req.row.status, None)),
        ArtifactView(VersionId(a, 1), req.trip, p.tenant, req.kind, p.user, req.row)))
  }

  /** `content` stands for the outcome of validating the patch against its contract. */
  function PatchArtifactTx(db: Db, p: Principal, a: string, base: int, content: Option<string>): Result<Commit<ArtifactView>, Error> {
    var access := ArtifactAccess(db, p, a, None, true);
    if access.Err? then Err(access.error)
    else
      var current := access.value;
      if !Registered(current.kind, current.row.schema) then Err(ReadOnly)
      else if current.id.version != base then Err(VersionConflict(current.id.version))
      else if content.None? then Err(ContentInvalid)
      else
        var row := Version(current.row.schema, Candidate, content.value, Some(current.id.version));
        var artifact := db.artifacts[a];
        Ok(Commit(
          Note(db.(artifacts := db.artifacts[a := artifact.(versions := artifact.versions + [row])]),
               ArtifactNote(p.tenant, a, "artifact.version_created", base + 1, Candidate, None)),
          current.(id := VersionId(a, base + 1), row := row)))
  }

  datatype ArtifactCommand = Select | Publish | Revoke

  function Required(c: ArtifactCommand): Status {
    match c case Select => Candidate case Publish => Validated case Revoke => Published
  }

  function Target(c: ArtifactCommand): Status {
    match c case Select => Selected case Publish => Published case Revoke => Revoked
  }

  datatype CommandResult = CommandResult(artifact: ArtifactView, replayed: bool)

  datatype CommandRequest = CommandRequest(command: ArtifactCommand, base: int, key: string, requestHash: string)

  function FingerprintOf(p: Principal, a: string, key: string): Fingerprint {
    Fingerprint(p.tenant, p.user, a, key)
  }

  function ReplayCommand(db: Db, p: Principal, a: string, j: Journal, requestHash: string): Result<Commit<CommandResult>, Error> {
    if j.requestHash != requestHash then Err(IdempotencyConflict)
    else
      var access := ArtifactAccess(db, p, a, Some(j.version), true);
      if access.Err? then Err(access.error)
      else Ok(Commit(db, CommandResult(access.value.(row := access.value.row.(status := j.status)), true)))
  }

  /** The status change of a command, with the pointer and the versions it affects. */
  function Transition(db: Db, current: ArtifactView, c: ArtifactCommand): Db
    requires current.trip in db.trips
  {
    match c
    case Select => db.(artifacts := SetStatus(db.artifacts, current.id, Selected))
    case Publish =>
      var cleared := SupersedeTrip(db.artifacts, current.tenant, current.trip, current.id);
      SetPointer(db.(artifacts := SetStatus(cleared, current.id, Published)), current.trip, Some(current.id))
    case Revoke =>
      var revoked := db.(artifacts := SetStatus(db.artifacts, current.id, Revoked));
      if db.trips[current.trip].pointer == Some(current.id) then SetPointer(revoked, current.trip, None) else revoked
  }

  function CommandNote(p: Principal, a: string, req: CommandRequest, v: int): OutboxRow {
    ArtifactNote(p.tenant, a, "artifact.command", v, Target(req.command),
      Some(Journal(FingerprintOf(p, a, req.key), req.requestHash, v, Target(req.command))))
  }

  function ApplyCommand(db: Db, p: Principal, current: ArtifactView, req: CommandRequest): Result<Commit<CommandResult>, Error>
    requires current.trip in db.trips
  {
    if current.id.version != req.base then Err(VersionConflict(current.id.version))
    else if current.row.status != Required(req.command) then Err(TransitionConflict)
    else
      Ok(Commit(
        Note(Transition(db, current, req.command), CommandNote(p, current.id.artifact, req, current.id.version)),
        CommandResult(current.(row := current.row.(status := Target(req.command))), false)))
  }

  function CommandArtifactTx(db: Db, p: Principal, a: string, req: CommandRequest): Result<Commit<CommandResult>, Error> {
    var access := ArtifactAccess(db, p, a, None, true);
    if access.Err? then Err(access.error)
    else if !Registered(access.value.kind, access.value.row.schema) then Err(ReadOnly)
    else
      var journal := FindJournal(db.outbox, FingerprintOf(p, a, req.key));
      if journal.Some? then ReplayCommand(db, p, a, journal.value, req.requestHash)
      else ApplyCommand(db, p, access.value, req)
  }

  // ---------------------------------------------------------------------------------------------
  // The store object

  /** The tables after a transaction: its commit, or what they were before it. */
  function Committed<T>(db: Db, r: Result<Commit<T>, Error>): Db {
    if r.Ok? then r.value.db else db
  }

  function Answer<T>(r: Result<Commit<T>, Error>): Result<T, Error> {
    if r.Ok? then Ok(r.value.out) else Err(r.error)
  }

  class PostgresPlatformStore {
    var trips: map<string, Trip>
    var artifacts: map<string, Artifact>
    var runs: map<string, Run>
    var events: seq<Event>
    var outbox: seq<OutboxRow>
    var keys: map<IdemKey, IdemRow>

    function View(): Db
      reads this
    {
      Db(trips, artifacts, runs, events, outbox, keys)
    }

    constructor ()
      ensures View() == EMPTY
    {
      trips, artifacts, runs, events, outbox, keys := map[], map[], map[], [], [], map[];
    }

    /** What leaving the transaction block with an exception does. */
    method Rollback(saved: Db)
      modifies this
      ensures View() == saved
    {
      trips, artifacts, runs := saved.trips, saved.artifacts, saved.runs;
      events, outbox, keys := saved.events, saved.outbox, saved.keys;
    }

    method InsertEvent(tenant: string, e: Event)
      modifies this`events, this`outbox
      ensures View() == Emit(old(View()), tenant, e)
    {
      events := events + [e];
      outbox := outbox + [RunNote(tenant, e)];
    }

    method CreateRun(p: Principal, r: string, req: RunRequest) returns (out: Result<RunResult, Error>)
      modifies this
      ensures var tx := CreateRunTx(old(View()), p, r, req);
              View() == Committed(old(View()), tx) && out == Answer(tx)
    {
      hide TripAccess, RunAccess, ArtifactAccess, BaseConflict;
      var saved := View();
      var access := TripAccess(View(), p, req.trip, true);
      if access.Err? {
        return Err(access.error);
      }
      var trip := access.value;
      if !trip.active {
        return Err(VersionConflict(trip.version));
      }
      var key := IdemKey(p.tenant, p.user, RunCreate, req.key);
      if key in keys {
        if keys[key].requestHash != req.requestHash {
          return Err(IdempotencyConflict);
        }
        var replayed := RunAccess(View(), p, keys[key].run);
        if replayed.Err? {
          return Err(replayed.error);
        }
        return Ok(RunResult(keys[key].run, replayed.value, true));
      }
      var current: Option<ArtifactView> := None;
      if trip.pointer.Some? {
        var view := ArtifactAccess(View(), p, trip.pointer.value.artifact, Some(trip.pointer.value.version), false);
        if view.Err? {
          return Err(view.error);
        }
        current := Some(view.value);
      }
      keys := keys[key := IdemRow(req.requestHash, r)];
      var conflict := BaseConflict(trip, current, req);
      if conflict.Some? {
        Rollback(saved);
        return Err(conflict.value);
      }
      if r in runs {
        Rollback(saved);
        return Err(DuplicateKey);
      }
      var run := NewRun(p, req);
      runs := runs[r := run];
      InsertEvent(run.tenant, Event(r, 1, "run.accepted", ""));
      outbox := outbox + [DispatchOf(r, run)];
      return Ok(RunResult(r, run, false));
    }

    method ClaimRunExecution(p: Principal, r: string, owner: string, duration: int, now: Time) returns (out: Result<Option<RunLease>, Error>)
      modifies this`runs
      ensures var tx := ClaimRunTx(old(View()), p, r, owner, duration, now);
              View() == Committed(old(View()), tx) && out == Answer(tx)
    {
      hide RunAccess, LeaseRequestOk;
      if !LeaseRequestOk(owner, duration) {
        return Err(BadLeaseRequest);
      }
      var access := RunAccess(View(), p, r);
      if access.Err? {
        return Err(access.error);
      }
      var run := access.value;
      if !Active(run.state) {
        return Ok(None);
      }
      if run.leaseOwner.Some? && run.leaseUntil.Some? && run.leaseUntil.value > now {
        return Ok(None);
      }
      runs := runs[r := run.(leaseOwner := Some(owner), leaseUntil := Some(now + duration), attempt := run.attempt + 1)];
      return Ok(Some(RunLease(r, owner, run.attempt + 1, now + duration)));
    }

    method RenewRunExecution(p: Principal, l: RunLease, duration: int, now: Time) returns (out: Result<Option<RunLease>, Error>)
      modifies this`runs
      ensures var tx := RenewRunTx(old(View()), p, l, duration, now);
              View() == Committed(old(View()), tx) && out == Answer(tx)
    {
      hide RunAccess, LeaseRequestOk, LeaseHeld;
      if !LeaseRequestOk(l.owner, duration) {
        return Err(BadLeaseRequest);
      }
      var access := RunAccess(View(), p, l.run);
      if access.Err? {
        return Err(access.error);
      }
      if !LeaseHeld(access.value, l, now) {
        return Ok(None);
      }
      runs := runs[l.run := access.value.(leaseUntil := Some(now + duration))];
      return Ok(Some(l.(until := now + duration)));
    }

    method ReleaseRunExecution(p: Principal, l: RunLease) returns (out: Result<bool, Error>)
      modifies this`runs
      ensures var tx := ReleaseRunTx(old(View()), p, l);
              View() == Committed(old(View()), tx) && out == Answer(tx)
    {
      hide RunAccess;
      var access := RunAccess(View(), p, l.run);
      if access.Err? {
        return Err(access.error);
      }
      var run := access.value;
      if run.leaseOwner != Some(l.owner) || run.attempt != l.attempt {
        return Ok(false);
      }
      runs := runs[l.run := run.(leaseOwner := None, leaseUntil := None)];
      return Ok(true);
    }

    /** The statements that publish a run result; they run inside `MutateRun`. */
    method PublishRunResult(p: Principal, t: string, ref: ResultRef) returns (failure: Option<Error>)
      modifies this`artifacts, this`trips
      ensures var tx := ResultTx(old(View()), p, t, Some(ref));
              if tx.Ok? then View() == tx.value && failure.None? else View() == old(View()) && failure == Some(tx.error)
    {
      hide SetStatus, StatusOf, OwnsVersion;
      var access := TripAccess(View(), p, t, true);
      if access.Err? {
        return Some(access.error);
      }
      var trip := access.value;
      if !OwnsVersion(View(), p.tenant, t, ref.id) {
        return Some(NotFound);
      }
      artifacts := SetStatus(artifacts, ref.id, Published);
      if ref.kind == SNAPSHOT {
        if trip.pointer.Some? && trip.pointer.value != ref.id {
          if StatusOf(artifacts, trip.pointer.value) == Some(Published) {
            artifacts := SetStatus(artifacts, trip.pointer.value, Superseded);
          }
        }
        trips := trips[t := trip.(pointer := Some(ref.id), version := trip.version + 1)];
      }
      return None;
    }

    method MutateRun(p: Principal, r: string, m: Mutation, now: Time) returns (out: Result<Run, Error>)
      modifies this
      ensures var tx := MutateRunTx(old(View()), p, r, m, now);
              View() == Committed(old(View()), tx) && out == Answer(tx)
    {
      hide RunAccess, LeaseHeld, TripAccess, PublishResult, OwnsVersion;
      var access := RunAccess(View(), p, r);
      if access.Err? {
        return Err(access.error);
      }
      var run := access.value;
      if m.lease.Some? && (m.lease.value.run != r || !LeaseHeld(run, m.lease.value, now)) {
        return Err(LeaseLost);
      }
      if run.control != m.expected {
        return Err(VersionConflict(run.control));
      }
      if m.result.Some? {
        var failure := PublishRunResult(p, run.trip, m.result.value);
        if failure.Some? {
          return Err(failure.value);
        }
      }
      var updated := Mutated(run, m);
      runs := runs[r := updated];
      InsertEvent(run.tenant, Event(r, updated.control, m.kind, m.data));
      return Ok(updated);
    }

    method ResumeRun(p: Principal, r: string, req: ResumeRequest, now: Time) returns (out: Result<RunResult, Error>)
      modifies this
      ensures var tx := ResumeRunTx(old(View()), p, r, req, now);
              View() == Committed(old(View()), tx) && out == Answer(tx)
    {
      hide RunAccess, TripAccess;
      var saved := View();
      var access := RunAccess(View(), p, r);
      if access.Err? {
        return Err(access.error);
      }
      var run := access.value;
      var writable := TripAccess(View(), p, run.trip, true);
      if writable.Err? {
        return Err(writable.error);
      }
      var key := IdemKey(p.tenant, p.user, RunResume, req.key);
      if key in keys {
        if keys[key].requestHash != req.requestHash || keys[key].run != r {
          return Err(IdempotencyConflict);
        }
        return Ok(RunResult(r, run, true));
      }
      keys := keys[key := IdemRow(req.requestHash, r)];
      var failure :=
        if run.control != req.expected then Some(VersionConflict(run.control))
        else if !run.state.WaitingInput? || run.pending.None? then Some(InputInvalid)
        else if run.pending.value.request != req.request then Some(InputInvalid)
        else if run.pending.value.expires <= now then Some(InputExpired)
        else if req.values.None? then Some(InputInvalid)
        else None;
      if failure.Some? {
        Rollback(saved);
        return Err(failure.value);
      }
      var updated := Resumed(run, req);
      runs := runs[r := updated];
      InsertEvent(run.tenant, Event(r, updated.control, "run.lifecycle_changed", "INPUT_SUPPLIED"));
      outbox := outbox + [DispatchOf(r, updated)];
      return Ok(RunResult(r, updated, false));
    }

    method CreateArtifact(p: Principal, a: string, req: ArtifactRequest, now: Time) returns (out: Result<ArtifactView, Error>)
      modifies this`artifacts, this`outbox
      ensures var tx := CreateArtifactTx(old(View()), p, a, req, now);
              View() == Committed(old(View()), tx) && out == Answer(tx)
    {
      hide RunAccess, TripAccess, LeaseHeld;
      if req.lease.Some? {
        var run := RunAccess(View(), p, req.lease.value.run);
        if run.Err? {
          return Err(run.error);
        }
        if run.value.trip != req.trip || !LeaseHeld(run.value, req.lease.value, now) {
          return Err(LeaseLost);
        }
      }
      var access := TripAccess(View(), p, req.trip, true);
      if access.Err? {
        return Err(access.error);
      }
      if a in artifacts {
        return Err(DuplicateKey);
      }
      artifacts := artifacts[a := Artifact(req.trip, p.tenant, req.kind, p.user, [req.row])];
      outbox := outbox + [ArtifactNote(p.tenant, a, "artifact.created", 1, req.row.status, None)];
      return Ok(ArtifactView(VersionId(a, 1), req.trip, p.tenant, req.kind, p.user, req.row));
    }

    method PatchArtifact(p: Principal, a: string, base: int, content: Option<string>) returns (out: Result<ArtifactView, Error>)
      modifies this`artifacts, this`outbox
      ensures var tx := PatchArtifactTx(old(View()), p, a, base, content);
              View() == Committed(old(View()), tx) && out == Answer(tx)
    {
      hide TripAccess, Registered;
      var access := ArtifactAccess(View(), p, a, None, true);
      if access.Err? {
        return Err(access.error);
      }
      var current := access.value;
      if !Registered(current.kind, current.row.schema) {
        return Err(ReadOnly);
      }
      if current.id.version != base {
        return Err(VersionConflict(current.id.version));
      }
      if content.None? {
        return Err(ContentInvalid);
      }
      var row := Version(current.row.schema, Candidate, content.value, Some(current.id.version));
      artifacts := artifacts[a := artifacts[a].(versions := artifacts[a].versions + [row])];
      outbox := outbox + [ArtifactNote(p.tenant, a, "artifact.version_created", base + 1, Candidate, None)];
      return Ok(current.(id := VersionId(a, base + 1), row := row));
    }

    /** The statements of an accepted command; they run inside `CommandArtifact`. */
    method ApplyTransition(current: ArtifactView, c: ArtifactCommand)
      requires current.trip in trips
      modifies this`artifacts, this`trips
      ensures View() == Transition(old(View()), current, c)
    {
      hide SetStatus, SupersedeTrip;
      var trip := trips[current.trip];
      if c.Publish? {
        artifacts := SupersedeTrip(artifacts, current.tenant, current.trip, current.id);
      }
      artifacts := SetStatus(artifacts, current.id, Target(c));
      if c.Publish? {
        trips := trips[current.trip := trip.(pointer := Some(current.id), version := trip.version + 1)];
      } else if c.Revoke? && trip.pointer == Some(current.id) {
        trips := trips[current.trip := trip.(pointer := None, version := trip.version + 1)];
      }
    }

    method CommandArtifact(p: Principal, a: string, req: CommandRequest) returns (out: Result<CommandResult, Error>)
      modifies this`artifacts, this`trips, this`outbox
      ensures var tx := CommandArtifactTx(old(View()), p, a, req);
              View() == Committed(old(View()), tx) && out == Answer(tx)
    {
      hide Registered, FindJournal, Transition;
      var access := ArtifactAccess(View(), p, a, None, true);
      if access.Err? {
        return Err(access.error);
      }
      var current := access.value;
      if !Registered(current.kind, current.row.schema) {
        return Err(ReadOnly);
      }
      var journal := FindJournal(outbox, FingerprintOf(p, a, req.key));
      if journal.Some? {
        if journal.value.requestHash != req.requestHash {
          return Err(IdempotencyConflict);
        }
        var replayed := ArtifactAccess(View(), p, a, Some(journal.value.version), true);
        if replayed.Err? {
          return Err(replayed.error);
        }
        return Ok(CommandResult(replayed.value.(row := replayed.value.row.(status := journal.value.status)), true));
      }
      if current.id.version != req.base {
        return Err(VersionConflict(current.id.version));
      }
      if current.row.status != Required(req.command) {
        return Err(TransitionConflict);
      }
      ApplyTransition(current, req.command);
      outbox := outbox + [CommandNote(p, a, req, current.id.version)];
      return Ok(CommandResult(current.(row := current.row.(status := Target(req.command))), false));
    }
  }
}

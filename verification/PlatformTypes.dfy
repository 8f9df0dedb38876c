/**
 * The tables of the durable control plane (backend/moyuan_web/v1/sql_tables.py) as values:
 * trips, runs, public run events, artifacts with their versions, idempotency keys and the outbox.
 */
module PlatformTypes {
  import opened Common

  datatype Principal = Principal(tenant: string, user: string, admin: bool)

  datatype Role = Owner | Editor | Viewer

  /** A version of an artifact; versions are numbered from 1. */
  datatype VersionId = VersionId(artifact: string, version: int)

  datatype Trip = Trip(
    tenant: string, owner: string, members: map<string, Role>, active: bool, version: int, pointer: Option<VersionId>)

  datatype Status = Candidate | Selected | Validated | Published | Superseded | Revoked

  datatype Version = Version(schema: int, status: Status, content: string, parent: Option<int>)

  /** An artifact with its version rows in order: row `i` is version `i + 1`. */
  datatype Artifact = Artifact(trip: string, tenant: string, kind: string, createdBy: string, versions: seq<Version>)

  datatype ArtifactView = ArtifactView(
    id: VersionId, trip: string, tenant: string, kind: string, createdBy: string, row: Version)

  const SNAPSHOT := "TripSnapshot"

  datatype Lifecycle = Queued | Running | WaitingInput | CancelRequested | Completed | Failed | Canceled

  predicate Terminal(s: Lifecycle) {
    s.Completed? || s.Failed? || s.Canceled?
  }

  /** The states in which a run may be executed. */
  predicate Active(s: Lifecycle) {
    s.Queued? || s.Running?
  }

  datatype CommandKind = Ask | Plan | Replan | Other

  datatype RunCommand = RunCommand(kind: CommandKind, message: string, resumeInput: Option<(string, string)>)

  datatype Pending = Pending(request: string, expires: Time)

  datatype Run = Run(
    trip: string, tenant: string, actor: string, state: Lifecycle, phase: string, control: int, command: RunCommand,
    pending: Option<Pending>, result: Option<VersionId>, errorCode: Option<string>,
    leaseOwner: Option<string>, leaseUntil: Option<Time>, attempt: int)

  datatype RunLease = RunLease(run: string, owner: string, attempt: int, until: Time)

  /** A browser-safe event; `run` and `number` are unique together. */
  datatype Event = Event(run: string, number: int, kind: string, data: string)

  /** The digest of tenant, actor, artifact and key, taken as injective. */
  datatype Fingerprint = Fingerprint(tenant: string, user: string, artifact: string, key: string)

  datatype Journal = Journal(fingerprint: Fingerprint, requestHash: string, version: int, status: Status)

  datatype OutboxRow =
    | RunNote(tenant: string, event: Event)
    | DispatchNote(tenant: string, actor: string, trip: string, run: string, version: int)
    | ArtifactNote(tenant: string, artifact: string, kind: string, version: int, status: Status, journal: Option<Journal>)
    | TripNote(tenant: string, trip: string, kind: string)

  datatype Operation = RunCreate | RunResume

  datatype IdemKey = IdemKey(tenant: string, actor: string, operation: Operation, key: string)

  datatype IdemRow = IdemRow(requestHash: string, run: string)

  datatype Db = Db(
    trips: map<string, Trip>,
    artifacts: map<string, Artifact>,
    runs: map<string, Run>,
    events: seq<Event>,
    outbox: seq<OutboxRow>,
    keys: map<IdemKey, IdemRow>)

  const EMPTY := Db(map[], map[], map[], [], [], map[])

  datatype Error =
    | NotFound | Forbidden | VersionConflict(current: int) | IdempotencyConflict | LeaseLost | BadLeaseRequest
    | InputInvalid | InputExpired | ReadOnly | ContentInvalid | TransitionConflict | DuplicateKey

  /** What a committed transaction leaves behind and returns. */
  datatype Commit<T> = Commit(db: Db, out: T)

  // ---------------------------------------------------------------------------------------------
  // Rows of one run, in insertion order

  function EventsOf(es: seq<Event>, r: string): seq<Event> {
    if es == [] then []
    else
      var last := es[|es| - 1];
      EventsOf(es[..|es| - 1], r) + if last.run == r then [last] else []
  }

  predicate OfRun(row: OutboxRow, r: string) {
    match row
    case RunNote(_, e) => e.run == r
    case DispatchNote(_, _, _, id, _) => id == r
    case _ => false
  }

  function RowsOf(rows: seq<OutboxRow>, r: string): seq<OutboxRow> {
    if rows == [] then []
    else
      var last := rows[|rows| - 1];
      RowsOf(rows[..|rows| - 1], r) + if OfRun(last, r) then [last] else []
  }

  lemma EventsAppend(es: seq<Event>, e: Event, r: string)
    ensures EventsOf(es + [e], r) == EventsOf(es, r) + if e.run == r then [e] else []
  {
  }

  lemma RowsAppend(rows: seq<OutboxRow>, row: OutboxRow, r: string)
    ensures RowsOf(rows + [row], r) == RowsOf(rows, r) + if OfRun(row, r) then [row] else []
  {
  }

  // ---------------------------------------------------------------------------------------------
  // The replay journal kept in the outbox

  predicate JournalOf(row: OutboxRow, f: Fingerprint) {
    row.ArtifactNote? && row.tenant == f.tenant && row.artifact == f.artifact && row.journal.Some? && row.journal.value.fingerprint == f
  }

  /** The newest journal row for a fingerprint. */
  function FindJournal(rows: seq<OutboxRow>, f: Fingerprint): (j: Option<Journal>)
    ensures j.None? <==> forall i :: 0 <= i < |rows| ==> !JournalOf(rows[i], f)
  {
    if rows == [] then None
    else
      var last := rows[|rows| - 1];
      if JournalOf(last, f) then last.journal else FindJournal(rows[..|rows| - 1], f)
  }

  lemma FindAppend(rows: seq<OutboxRow>, row: OutboxRow, f: Fingerprint)
    ensures FindJournal(rows + [row], f) == if JournalOf(row, f) then row.journal else FindJournal(rows, f)
  {
  }
}

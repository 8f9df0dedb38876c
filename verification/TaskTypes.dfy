/** The values stored for one A2A Task (agent/travel_agent/a2a/store.py and the protobuf types it holds). */
module TaskTypes {
  import opened Common

  /** TaskState of the A2A Protocol 1.0 specification, section 4.1.3. */
  datatype TaskState =
    | Submitted
    | Working
    | Completed
    | Failed
    | Canceled
    | InputRequired
    | Rejected
    | AuthRequired

  /** States 1 and 2: the only ones in which an execution lease may exist. */
  predicate Executable(s: TaskState) {
    s.Submitted? || s.Working?
  }

  predicate Terminal(s: TaskState) {
    s.Completed? || s.Failed? || s.Canceled? || s.Rejected?
  }

  predicate Settled(s: TaskState) {
    Terminal(s) || s.InputRequired? || s.AuthRequired?
  }

  predicate Cancelable(s: TaskState) {
    s.Submitted? || s.Working? || s.InputRequired? || s.AuthRequired?
  }

  /** The state changes a Task may ever make. */
  predicate Edge(a: TaskState, b: TaskState) {
    match a
    case Submitted => b.Working? || b.Failed? || b.Canceled?
    case Working => b.Completed? || b.Failed? || b.Canceled? || b.InputRequired? || b.AuthRequired?
    case InputRequired => b.Working? || b.Canceled?
    case AuthRequired => b.Canceled?
    case _ => false
  }

  datatype Status = Status(state: TaskState, message: Option<string>, timestamp: Time)

  datatype Artifact = Artifact(id: string, content: string)

  datatype Event = StatusUpdate(status: Status) | ArtifactUpdate(artifact: Artifact)

  datatype VersionedEvent = VersionedEvent(version: int, event: Event)

  datatype InputResponse = InputResponse(requestId: string, values: string)

  /** (tenant_id, agent_interface_id, task_id). */
  datatype TaskKey = TaskKey(tenant: string, interface: string, task: string)

  /** (tenant_id, agent_interface_id, dispatch_id). */
  datatype InboxKey = InboxKey(tenant: string, interface: string, dispatch: string)

  /** The fields of a TaskRecord that `_assert_immutable_fields` compares. */
  datatype Header = Header(
    tenant: string,
    actor: string,
    interface: string,
    run: string,
    dispatch: string,
    fingerprint: string,
    task: string,
    context: string,
    invocation: string,
    deadline: Time,
    references: seq<string>,
    createdAt: Time)

  datatype Record = Record(
    header: Header,
    status: Status,
    artifacts: seq<Artifact>,
    version: int,
    updatedAt: Time,
    pendingInput: Option<string>,
    executionInput: Option<InputResponse>,
    messages: map<string, string>,
    events: seq<VersionedEvent>)
  {
    function Key(): TaskKey {
      TaskKey(header.tenant, header.interface, header.task)
    }

    function Inbox(): InboxKey {
      InboxKey(header.tenant, header.interface, header.dispatch)
    }

    function State(): TaskState {
      status.state
    }
  }

  datatype Lease = Lease(key: TaskKey, owner: string, attempt: int, until: Time)

  datatype StoreError = TaskMissing | TaskVersionConflict | TaskExecutionLeaseLost | DispatchConflict | TaskStoreError

  // What a client rebuilds from a stream of events.

  datatype TaskView = TaskView(status: Status, artifacts: seq<Artifact>)

  function ViewOf(r: Record): TaskView {
    TaskView(r.status, r.artifacts)
  }

  /** The Task that `send_message` creates: submitted, without artifacts. */
  function InitialView(h: Header): TaskView {
    TaskView(Status(Submitted, None, h.createdAt), [])
  }

  function Apply(v: TaskView, e: Event): TaskView {
    match e
    case StatusUpdate(s) => v.(status := s)
    case ArtifactUpdate(a) => v.(artifacts := v.artifacts + [a])
  }

  /** Fold a log of events over a Task. */
  function Replay(v: TaskView, es: seq<VersionedEvent>): TaskView
    decreases |es|
  {
    if es == [] then v else Replay(Apply(v, es[0].event), es[1..])
  }

  lemma {:induction false} ReplayConcat(v: TaskView, a: seq<VersionedEvent>, b: seq<VersionedEvent>)
    ensures Replay(v, a + b) == Replay(Replay(v, a), b)
    decreases |a|
  {
    if a == [] {
      assert a + b == b;
    } else {
      assert (a + b)[1..] == a[1..] + b;
      ReplayConcat(Apply(v, a[0].event), a[1..], b);
    }
  }
}

/**
 * The compare-and-swap loops and the subscription loop of agent/travel_agent/a2a/service.py,
 * run against the in-place store while other workers interfere between a read and a write.
 */
module TaskService {
  import opened Common
  import opened TaskTypes
  import opened TaskStore
  import opened TaskProtocol

  /** Anything another worker may do to the store. */
  datatype StoreOp =
    | CreateOp(record: Record)
    | ReplaceOp(record: Record, expected: int, lease: Option<Lease>, now: Time)
    | ClaimOp(key: TaskKey, owner: string, duration: int, now: Time)
    | RenewOp(held: Lease, duration: int, now: Time)
    | ReleaseOp(held: Lease)

  function ApplyOp(s: Store, op: StoreOp): Store {
    match op
    case CreateOp(r) => Created(s, r).0
    case ReplaceOp(r, e, l, now) => Replaced(s, r, e, l, now).0
    case ClaimOp(k, o, d, now) => Claimed(s, k, o, d, now).0
    case RenewOp(l, d, now) => Renewed(s, l, d, now).0
    case ReleaseOp(l) => Released(s, l)
  }

  function ApplyOps(s: Store, ops: seq<StoreOp>): Store {
    if ops == [] then s else ApplyOp(ApplyOps(s, ops[..|ops| - 1]), ops[|ops| - 1])
  }

  lemma {:induction false} ApplyOpsConcat(s: Store, a: seq<StoreOp>, b: seq<StoreOp>)
    ensures ApplyOps(s, a + b) == ApplyOps(ApplyOps(s, a), b)
  {
    if b == [] {
      assert a + b == a;
    } else {
      assert (a + b)[..|a + b| - 1] == a + b[..|b| - 1];
      ApplyOpsConcat(s, a, b[..|b| - 1]);
    }
  }

  /** Under any store operations a version number identifies the record it was stored with. */
  lemma {:induction false} VersionIdentifiesRecord(s: Store, ops: seq<StoreOp>, k: TaskKey)
    requires k in s.records
    ensures k in ApplyOps(s, ops).records
    ensures ApplyOps(s, ops).records[k].version >= s.records[k].version
    ensures ApplyOps(s, ops).records[k].version == s.records[k].version ==> ApplyOps(s, ops).records[k] == s.records[k]
  {
    if ops != [] {
      VersionIdentifiesRecord(s, ops[..|ops| - 1], k);
    }
  }

  method Interfere(store: InMemoryAgentTaskStore, ops: seq<StoreOp>)
    modifies store
    ensures store.View() == ApplyOps(old(store.View()), ops)
  {
    for i := 0 to |ops|
      invariant store.View() == ApplyOps(old(store.View()), ops[..i])
    {
      assert ops[..i + 1][..i] == ops[..i];
      match ops[i] {
        case CreateOp(r) => var _ := store.CreateOrGet(r);
        case ReplaceOp(r, e, l, now) => var _ := store.Replace(r, e, l, now);
        case ClaimOp(k, o, d, now) => var _ := store.ClaimExecution(k, o, d, now);
        case RenewOp(l, d, now) => var _ := store.RenewExecution(l, d, now);
        case ReleaseOp(l) => store.ReleaseExecution(l);
      }
    }
    assert ops[..|ops|] == ops;
  }

  /** One turn of a retry loop: the draft's timestamp, what others do meanwhile, the clock at the write. */
  datatype Turn = Turn(at: Time, others: seq<StoreOp>, now: Time)

  datatype Outcome =
    | Missing
    | NotAllowed(current: Record)
    | LeaseLost
    | Written(stored: Record, from: Record, at: Time)

  /** What a finished transition says about the store just before its last step (`before`) and now (`after`). */
  ghost predicate Explains(out: Outcome, k: TaskKey, i: Intent, before: Store, after: Store, now: Time) {
    match out
    case Missing => after == before && k !in before.records
    case NotAllowed(c) => after == before && k in before.records && before.records[k] == c && !Allowed(i, c.State())
    case LeaseLost => after == before && Fence(i).Some? && !before.LeaseLive(k, Fence(i).value, now)
    case Written(stored, from, at) =>
      && k in before.records && before.records[k] == from
      && Allowed(i, from.State())
      && stored == Draft(i, from, at) && Follows(i, from, stored, at)
      && (Fence(i).Some? ==> before.LeaseLive(k, Fence(i).value, now))
      && after.records == before.records[k := stored]
      && after == Replaced(before, stored, from.version, Fence(i), now).0
  }

  ghost predicate Keyed(s: Store) {
    forall k :: k in s.records ==> s.records[k].Key() == k
  }

  lemma {:induction false} OpsKeepKeyed(s: Store, ops: seq<StoreOp>)
    requires Keyed(s)
    ensures Keyed(ApplyOps(s, ops))
  {
    if ops != [] {
      OpsKeepKeyed(s, ops[..|ops| - 1]);
    }
  }

  /** The compare-and-swap against a store in which versions identify records. */
  lemma SwapExplains(s: Store, k: TaskKey, i: Intent, current: Record, at: Time, now: Time)
    requires Keyed(s) && k in s.records && current.Key() == k && Allowed(i, current.State())
    requires s.records[k].version == current.version ==> s.records[k] == current
    ensures var t := Replaced(s, Draft(i, current, at), current.version, Fence(i), now);
            && Keyed(t.0)
            && (t.1.Ok? ==> Explains(Written(Draft(i, current, at), current, at), k, i, s, t.0, now))
            && (t.1 == Err(TaskExecutionLeaseLost) ==> Explains(LeaseLost, k, i, s, t.0, now))
            && (t.1.Err? ==> t.0 == s)
            && (t.1.Err? && t.1.error != TaskExecutionLeaseLost ==> s.records[k] != current)
  {
  }

  /** One turn of the loop of `_transition`; no outcome means a version conflict. */
  method Attempt(store: InMemoryAgentTaskStore, k: TaskKey, i: Intent, turn: Turn)
    returns (out: Option<Outcome>, ghost seen: seq<StoreOp>)
    requires Keyed(store.View())
    modifies store
    ensures Keyed(store.View())
    ensures seen == [] || seen == turn.others
    ensures out.Some? ==> Explains(out.value, k, i, ApplyOps(old(store.View()), seen), store.View(), turn.now)
    ensures out.Some? && out.value.Written? ==> out.value.at == turn.at
    ensures out.None? ==> store.View() == ApplyOps(old(store.View()), seen) && seen == turn.others != []
  {
    hide Draft, Allowed, Fence, Replaced;
    var got := store.Get(k);
    if got.Err? {
      return Some(Missing), [];
    }
    var current := got.value;
    if !Allowed(i, current.State()) {
      return Some(NotAllowed(current)), [];
    }
    var updated := Draft(i, current, turn.at);
    ghost var read := store.View();
    Interfere(store, turn.others);
    VersionIdentifiesRecord(read, turn.others, k);
    OpsKeepKeyed(read, turn.others);
    SwapExplains(store.View(), k, i, current, turn.at, turn.now);
    seen := turn.others;
    var stored := store.Replace(updated, current.version, Fence(i), turn.now);
    if stored.Ok? {
      return Some(Written(updated, current, turn.at)), seen;
    }
    if stored.error == TaskExecutionLeaseLost {
      return Some(LeaseLost), seen;
    }
    return None, seen;
  }

  /** Everything that others do in these turns. */
  function Meanwhile(turns: seq<Turn>): seq<StoreOp> {
    if turns == [] then [] else Meanwhile(turns[..|turns| - 1]) + turns[|turns| - 1].others
  }

  lemma MeanwhileNext(turns: seq<Turn>, n: nat)
    requires n < |turns|
    ensures Meanwhile(turns[..n + 1]) == Meanwhile(turns[..n]) + turns[n].others
  {
    assert turns[..n + 1][..n] == turns[..n];
  }

  /**
   * `_transition`: read, test, draft, compare-and-swap, and start over on a version conflict.
   * Others act before every write of `turns`; in the turn after those nobody interferes, and the
   * loop ends there at the latest.  Up to its end, after `n` of the turns, only the others changed the
   * store; whatever it then wrote, in turn `turn`, was drafted from the record it replaced.
   */
  method Transition(store: InMemoryAgentTaskStore, k: TaskKey, i: Intent, turns: seq<Turn>, at: Time, now: Time)
    returns (out: Outcome, ghost n: nat, ghost turn: Turn)
    requires Keyed(store.View())
    modifies store
    ensures Keyed(store.View())
    ensures n <= |turns| && (turn in turns || turn == Turn(at, [], now))
    ensures Explains(out, k, i, ApplyOps(old(store.View()), Meanwhile(turns[..n])), store.View(), turn.now)
    ensures out.Written? ==> out.at == turn.at
  {
    hide Keyed, Explains, Meanwhile;
    var m := 0;
    assert turns[..0] == [];
    assert Meanwhile([]) == [] by {
      NothingMeanwhile();
    }
    while true
      invariant 0 <= m <= |turns|
      invariant Keyed(store.View())
      invariant store.View() == ApplyOps(old(store.View()), Meanwhile(turns[..m]))
      decreases |turns| - m
    {
      var next := if m < |turns| then turns[m] else Turn(at, [], now);
      var attempted, more := Attempt(store, k, i, next);
      ApplyOpsConcat(old(store.View()), Meanwhile(turns[..m]), more);
      assert Meanwhile(turns[..m]) + [] == Meanwhile(turns[..m]);
      if m < |turns| {
        MeanwhileNext(turns, m);
      }
      if attempted.Some? {
        return attempted.value, if more == [] then m else m + 1, next;
      }
      m := m + 1;
    }
  }

  lemma NothingMeanwhile()
    ensures Meanwhile([]) == []
  {
  }

  datatype ResumeError = NotFound | MessageReused | NotWaiting | ContextMismatch | DispatchMismatch | RequestMismatch

  /** The Task waited, and now works with the response of this message, which is recorded beside the others. */
  predicate Answers(from: Record, to: Record, messageId: string, fingerprint: string, response: InputResponse) {
    && from.State() == InputRequired && to.State() == Working
    && to.executionInput == Some(response) && to.pendingInput.None?
    && to.messages == from.messages[messageId := fingerprint]
    && to.header == from.header && to.artifacts == from.artifacts && to.version == from.version + 1
  }

  /**
   * `_resume_input`: a message that was already accepted is answered from the record and changes
   * nothing; an accepted message is recorded; a refused one leaves the store to the others. Others
   * act between the read that validates the message and the loop (`gap`), and before every write.
   */
  method ResumeInput(
    store: InMemoryAgentTaskStore, k: TaskKey, messageId: string, fingerprint: string, context: string,
    dispatch: string, run: string, response: InputResponse, gap: seq<StoreOp>, turns: seq<Turn>, at: Time, now: Time)
    returns (out: Result<Record, ResumeError>, ghost seen: seq<StoreOp>, ghost n: nat, ghost turn: Turn)
    requires Keyed(store.View())
    modifies store
    ensures n <= |turns| && (turn in turns || turn == Turn(at, [], now))
    ensures seen == [] || seen == gap + Meanwhile(turns[..n])
    ensures k in old(store.records) && messageId in old(store.records)[k].messages ==>
              && store.View() == old(store.View())
              && out == if old(store.records)[k].messages[messageId] == fingerprint then Ok(old(store.records)[k]) else Err(MessageReused)
    ensures out.Ok? ==> k in store.records && store.records[k] == out.value
                        && messageId in out.value.messages && out.value.messages[messageId] == fingerprint
    ensures out.Err? ==> store.View() == ApplyOps(old(store.View()), seen)
    ensures out.Ok? ==>
              || store.View() == ApplyOps(old(store.View()), seen)
              || (&& store.View() == Replaced(ApplyOps(old(store.View()), seen), out.value, out.value.version - 1, None, turn.now).0
                  && k in ApplyOps(old(store.View()), seen).records
                  && Answers(ApplyOps(old(store.View()), seen).records[k], out.value, messageId, fingerprint, response))
    ensures out.Ok? ==> k in old(store.records)
    ensures out.Ok? && messageId !in old(store.records)[k].messages ==>
              old(store.records)[k].State() == InputRequired && old(store.records)[k].pendingInput == Some(response.requestId)
  {
    hide Meanwhile, Replaced, ApplyOps;
    NoOps(store.View());
    seen, n, turn := [], 0, Turn(at, [], now);
    var got := store.Get(k);
    if got.Err? {
      return Err(NotFound), seen, n, turn;
    }
    var current := got.value;
    if messageId in current.messages {
      if current.messages[messageId] != fingerprint {
        return Err(MessageReused), seen, n, turn;
      }
      return Ok(current), seen, n, turn;
    }
    if current.State() != InputRequired {
      return Err(NotWaiting), seen, n, turn;
    }
    if context == "" || context != current.header.context {
      return Err(ContextMismatch), seen, n, turn;
    }
    if dispatch != current.header.dispatch || run != current.header.run {
      return Err(DispatchMismatch), seen, n, turn;
    }
    if Some(response.requestId) != current.pendingInput {
      return Err(RequestMismatch), seen, n, turn;
    }
    ghost var validated := store.View();
    Interfere(store, gap);
    OpsKeepKeyed(validated, gap);
    var outcome;
    outcome, n, turn := Transition(store, k, Resume(messageId, fingerprint, response), turns, at, now);
    ApplyOpsConcat(validated, gap, Meanwhile(turns[..n]));
    seen := gap + Meanwhile(turns[..n]);
    match outcome {
      case Missing => return Err(NotFound), seen, n, turn;
      case NotAllowed(c) =>
        if messageId in c.messages && c.messages[messageId] == fingerprint {
          return Ok(c), seen, n, turn;
        }
        return Err(NotWaiting), seen, n, turn;
      case LeaseLost => return Err(NotWaiting), seen, n, turn;
      case Written(stored, from, writtenAt) =>
        return Ok(stored), seen, n, turn;
    }
  }

  lemma NoOps(s: Store)
    ensures ApplyOps(s, []) == s
  {
  }

  /** The store operations of a finished transition: what others did, then its own write. */
  function History(out: Outcome, i: Intent, seen: seq<StoreOp>, now: Time): seq<StoreOp> {
    if out.Written? then seen + [ReplaceOp(out.stored, out.from.version, Fence(i), now)] else seen
  }

  lemma HistoryExplains(out: Outcome, k: TaskKey, i: Intent, s: Store, seen: seq<StoreOp>, after: Store, now: Time)
    requires Explains(out, k, i, ApplyOps(s, seen), after, now)
    ensures after == ApplyOps(s, History(out, i, seen, now))
  {
    if out.Written? {
      var h := History(out, i, seen, now);
      assert h[..|h| - 1] == seen;
    }
  }

  /** The write of a cancel: the canceled record over the version before it. */
  predicate OwnWrite(op: StoreOp, end: Record) {
    op.ReplaceOp? && op.record == end && op.expected == end.version - 1 && op.lease.None? && end.State() == Canceled
  }

  /** What others did in some of the turns, then at most the cancel's own write. */
  ghost predicate CancelOps(turns: seq<Turn>, ops: seq<StoreOp>, end: Record) {
    exists n :: 0 <= n <= |turns| && (ops == Meanwhile(turns[..n]) || Appends(Meanwhile(turns[..n]), ops, end))
  }

  predicate Appends(others: seq<StoreOp>, ops: seq<StoreOp>, end: Record) {
    |ops| == |others| + 1 && ops[..|others|] == others && OwnWrite(ops[|others|], end)
  }

  /** A transition to canceled, whatever others do meanwhile: the Task it returns is stored and terminal. */
  method CancelOne(store: InMemoryAgentTaskStore, k: TaskKey, turns: seq<Turn>, at: Time, now: Time)
    returns (end: Record, ghost history: seq<StoreOp>)
    requires Keyed(store.View()) && k in store.records
    modifies store
    ensures Keyed(store.View()) && store.View() == ApplyOps(old(store.View()), history) && CancelOps(turns, history, end)
    ensures k in store.records && store.records[k] == end && Terminal(end.State())
    ensures turns == [] ==> store.records == old(store.records)[k := end]
    ensures turns == [] && Terminal(old(store.records)[k].State()) ==> end == old(store.records)[k]
  {
    hide Draft, Keyed, Replaced, Meanwhile;
    ghost var before := store.View();
    var outcome, n, turn := Transition(store, k, Cancel, turns, at, now);
    ghost var seen := Meanwhile(turns[..n]);
    VersionIdentifiesRecord(before, seen, k);
    history := History(outcome, Cancel, seen, turn.now);
    HistoryExplains(outcome, k, Cancel, before, seen, store.View(), turn.now);
    assert turns == [] ==> ApplyOps(before, seen) == before by {
      NothingMeanwhile();
    }
    if outcome.Written? {
      DraftState(Cancel, outcome.from, outcome.at);
      end := outcome.stored;
      assert Appends(seen, history, end);
    } else {
      end := outcome.current;
    }
  }

  datatype CancelError = TaskNotFound | TaskNotCancelable

  /** What others did first, then a cancel. */
  ghost predicate GapThenCancel(gap: seq<StoreOp>, turns: seq<Turn>, ops: seq<StoreOp>, end: Record) {
    |gap| <= |ops| && ops[..|gap|] == gap && CancelOps(turns, ops[|gap|..], end)
  }

  /** `cancel_task`: refused without change unless the first read is cancelable; otherwise the Task ends terminal. */
  method CancelTask(store: InMemoryAgentTaskStore, k: TaskKey, gap: seq<StoreOp>, turns: seq<Turn>, at: Time, now: Time)
    returns (out: Result<Record, CancelError>, ghost history: seq<StoreOp>)
    requires Keyed(store.View())
    modifies store
    ensures Keyed(store.View()) && store.View() == ApplyOps(old(store.View()), history)
    ensures out == Err(TaskNotFound) <==> k !in old(store.records)
    ensures out == Err(TaskNotCancelable) <==> k in old(store.records) && Terminal(old(store.records)[k].State())
    ensures out.Err? ==> history == []
    ensures out.Ok? ==> GapThenCancel(gap, turns, history, out.value)
    ensures out.Ok? ==> k in store.records && store.records[k] == out.value && Terminal(out.value.State())
  {
    hide Keyed, CancelOps;
    ghost var before := store.View();
    var got := store.Get(k);
    if got.Err? {
      return Err(TaskNotFound), [];
    }
    if !Cancelable(got.value.State()) {
      return Err(TaskNotCancelable), [];
    }
    Interfere(store, gap);
    OpsKeepKeyed(before, gap);
    VersionIdentifiesRecord(before, gap, k);
    var end, more := CancelOne(store, k, turns, at, now);
    ApplyOpsConcat(before, gap, more);
    assert (gap + more)[|gap|..] == more;
    return Ok(end), gap + more;
  }

  /** The keys of the records that are canceled, in order. */
  function CanceledKeys(ends: seq<Record>): seq<TaskKey> {
    if ends == [] then []
    else
      var last := ends[|ends| - 1];
      CanceledKeys(ends[..|ends| - 1]) + if last.State() == Canceled then [last.Key()] else []
  }

  /** `r` was stored after some of the operations. */
  ghost predicate StoredDuring(s: Store, ops: seq<StoreOp>, r: Record) {
    exists n :: 0 <= n <= |ops| && r.Key() in ApplyOps(s, ops[..n]).records && ApplyOps(s, ops[..n]).records[r.Key()] == r
  }

  lemma StoredLonger(s: Store, ops: seq<StoreOp>, more: seq<StoreOp>, r: Record)
    requires StoredDuring(s, ops, r)
    ensures StoredDuring(s, ops + more, r)
  {
    var n :| 0 <= n <= |ops| && r.Key() in ApplyOps(s, ops[..n]).records && ApplyOps(s, ops[..n]).records[r.Key()] == r;
    assert (ops + more)[..n] == ops[..n];
  }

  lemma StoredNow(s: Store, ops: seq<StoreOp>, r: Record)
    requires r.Key() in ApplyOps(s, ops).records && ApplyOps(s, ops).records[r.Key()] == r
    ensures StoredDuring(s, ops, r)
  {
    assert ops[..|ops|] == ops;
  }

  /** The operations of one round of `cancel_run_tasks`. */
  ghost predicate RoundOps(record: Record, gap: seq<StoreOp>, turns: seq<Turn>, ops: seq<StoreOp>, end: Record) {
    if Terminal(record.State()) then ops == gap else GapThenCancel(gap, turns, ops, end)
  }

  function Flat(rounds: seq<seq<StoreOp>>): seq<StoreOp> {
    if rounds == [] then [] else Flat(rounds[..|rounds| - 1]) + rounds[|rounds| - 1]
  }

  /** One round of `cancel_run_tasks`: a record listed as cancelable is canceled, after what others did first. */
  method CancelListed(store: InMemoryAgentTaskStore, record: Record, gap: seq<StoreOp>, turns: seq<Turn>, at: Time, now: Time)
    returns (end: Record, ghost history: seq<StoreOp>)
    requires Keyed(store.View()) && record.Key() in store.records
    modifies store
    ensures Keyed(store.View()) && store.View() == ApplyOps(old(store.View()), history)
    ensures end.Key() == record.Key() && Terminal(end.State())
    ensures RoundOps(record, gap, turns, history, end)
    ensures if Terminal(record.State()) then end == record else record.Key() in store.records && store.records[record.Key()] == end
  {
    hide Keyed, CancelOps;
    ghost var before := store.View();
    Interfere(store, gap);
    OpsKeepKeyed(before, gap);
    VersionIdentifiesRecord(before, gap, record.Key());
    end, history := record, gap;
    if Cancelable(record.State()) {
      ghost var more;
      end, more := CancelOne(store, record.Key(), turns, at, now);
      ApplyOpsConcat(before, gap, more);
      history := gap + more;
      assert history[|gap|..] == more;
      KeyedAt(store.View(), record.Key());
    }
  }

  /** The records that the rounds so far ended with. */
  ghost predicate EndsOk(s: Store, history: seq<StoreOp>, listed: seq<Record>, ends: seq<Record>) {
    && |ends| <= |listed|
    && forall n :: 0 <= n < |ends| ==>
         && ends[n].Key() == listed[n].Key() && Terminal(ends[n].State())
         && (Terminal(listed[n].State()) ==> ends[n] == listed[n])
         && StoredDuring(s, history, ends[n])
  }

  lemma OneMoreEnd(s: Store, history: seq<StoreOp>, more: seq<StoreOp>, listed: seq<Record>, ends: seq<Record>, end: Record)
    requires EndsOk(s, history, listed, ends) && |ends| < |listed|
    requires var record := listed[|ends|];
             && end.Key() == record.Key() && Terminal(end.State())
             && record.Key() in s.records && s.records[record.Key()] == record
             && if Terminal(record.State()) then end == record
                else end.Key() in ApplyOps(s, history + more).records && ApplyOps(s, history + more).records[end.Key()] == end
    ensures EndsOk(s, history + more, listed, ends + [end])
  {
    hide StoredDuring, ApplyOps;
    forall n | 0 <= n < |ends|
      ensures StoredDuring(s, history + more, ends[n])
    {
      StoredLonger(s, history, more, ends[n]);
    }
    if Terminal(listed[|ends|].State()) {
      StoredFirst(s, history + more, end);
    } else {
      StoredNow(s, history + more, end);
    }
  }

  lemma StoredFirst(s: Store, ops: seq<StoreOp>, r: Record)
    requires r.Key() in s.records && s.records[r.Key()] == r
    ensures StoredDuring(s, ops, r)
  {
    assert ops[..0] == [];
    assert ApplyOps(s, ops[..0]) == s;
  }

  /** The rounds so far: their operations, and the records they ended with. */
  ghost predicate RunProgress(
      s: Store, listed: seq<Record>, gaps: seq<seq<StoreOp>>, turns: seq<seq<Turn>>, rounds: seq<seq<StoreOp>>, ends: seq<Record>) {
    && |rounds| == |ends| <= |listed| == |gaps| == |turns|
    && EndsOk(s, Flat(rounds), listed, ends)
    && forall n :: 0 <= n < |rounds| ==> RoundOps(listed[n], gaps[n], turns[n], rounds[n], ends[n])
  }

  lemma OneMoreRound(
      s: Store, listed: seq<Record>, gaps: seq<seq<StoreOp>>, turns: seq<seq<Turn>>, rounds: seq<seq<StoreOp>>, ends: seq<Record>,
      more: seq<StoreOp>, end: Record)
    requires RunProgress(s, listed, gaps, turns, rounds, ends) && |ends| < |listed|
    requires RoundOps(listed[|ends|], gaps[|ends|], turns[|ends|], more, end)
    requires var record := listed[|ends|];
             && end.Key() == record.Key() && Terminal(end.State())
             && record.Key() in s.records && s.records[record.Key()] == record
             && if Terminal(record.State()) then end == record
                else end.Key() in ApplyOps(s, Flat(rounds) + more).records && ApplyOps(s, Flat(rounds) + more).records[end.Key()] == end
    ensures RunProgress(s, listed, gaps, turns, rounds + [more], ends + [end])
    ensures Flat(rounds + [more]) == Flat(rounds) + more
    ensures CanceledKeys(ends + [end]) == CanceledKeys(ends) + if end.State() == Canceled then [end.Key()] else []
  {
    hide EndsOk, RoundOps, ApplyOps;
    assert (rounds + [more])[..|rounds|] == rounds && (ends + [end])[..|ends|] == ends;
    OneMoreEnd(s, Flat(rounds), more, listed, ends, end);
  }

  /**
   * `cancel_run_tasks` on the listed records, while others act during and between the cancels: for
   * every listed Task a terminal record is or was stored, and exactly the canceled ones are returned.
   */
  method CancelRunTasks(store: InMemoryAgentTaskStore, listed: seq<Record>, gaps: seq<seq<StoreOp>>, turns: seq<seq<Turn>>, at: Time, now: Time)
    returns (canceled: seq<TaskKey>, ghost ends: seq<Record>, ghost rounds: seq<seq<StoreOp>>)
    requires Keyed(store.View()) && |turns| == |listed| && |gaps| == |listed|
    requires forall n :: 0 <= n < |listed| ==> listed[n].Key() in store.records && store.records[listed[n].Key()] == listed[n]
    modifies store
    ensures store.View() == ApplyOps(old(store.View()), Flat(rounds))
    ensures |ends| == |listed| && RunProgress(old(store.View()), listed, gaps, turns, rounds, ends)
    ensures canceled == CanceledKeys(ends)
  {
    ghost var before := store.View();
    canceled, ends, rounds := [], [], [];
    NoOps(before);
    assert Flat([]) == [];
    hide Keyed, EndsOk, ApplyOps, RoundOps, RunProgress, Flat;
    for n := 0 to |listed|
      invariant Keyed(store.View()) && store.View() == ApplyOps(before, Flat(rounds))
      invariant |ends| == n && RunProgress(before, listed, gaps, turns, rounds, ends)
      invariant canceled == CanceledKeys(ends)
    {
      VersionIdentifiesRecord(before, Flat(rounds), listed[n].Key());
      var current, more := CancelListed(store, listed[n], gaps[n], turns[n], at, now);
      ApplyOpsConcat(before, Flat(rounds), more);
      OneMoreRound(before, listed, gaps, turns, rounds, ends, more, current);
      if current.State() == Canceled {
        canceled := canceled + [current.Key()];
      }
      ends, rounds := ends + [current], rounds + [more];
    }
  }

  lemma KeyedAt(s: Store, k: TaskKey)
    requires Keyed(s) && k in s.records
    ensures s.records[k].Key() == k
  {
  }

  lemma DraftState(i: Intent, r: Record, at: Time)
    ensures Draft(i, r, at).State() == Target(i) && Draft(i, r, at).version == r.version + 1
  {
  }

  // ---------------------------------------------------------------------------------------------
  // Subscriptions

  /** The events of a log past version `v`, in log order. */
  function After(es: seq<VersionedEvent>, v: int): seq<VersionedEvent> {
    if es == [] then [] else (if es[0].version > v then [es[0]] else []) + After(es[1..], v)
  }

  predicate AllAbove(es: seq<VersionedEvent>, v: int) {
    forall i :: 0 <= i < |es| ==> es[i].version > v
  }

  predicate AllUpTo(es: seq<VersionedEvent>, v: int) {
    forall i :: 0 <= i < |es| ==> es[i].version <= v
  }

  lemma {:induction false} AfterConcat(a: seq<VersionedEvent>, b: seq<VersionedEvent>, v: int)
    ensures After(a + b, v) == After(a, v) + After(b, v)
  {
    if a == [] {
      assert a + b == b;
    } else {
      assert (a + b)[1..] == a[1..] + b;
      AfterConcat(a[1..], b, v);
    }
  }

  lemma {:induction false} AfterAll(es: seq<VersionedEvent>, v: int)
    requires AllAbove(es, v)
    ensures After(es, v) == es
  {
    if es != [] {
      AfterAll(es[1..], v);
    }
  }

  lemma {:induction false} AfterNone(es: seq<VersionedEvent>, v: int)
    requires AllUpTo(es, v)
    ensures After(es, v) == []
  {
    if es != [] {
      AfterNone(es[1..], v);
    }
  }

  /** The cursor of a subscriber that has just streamed what lies past `cursor`. */
  function Advanced(es: seq<VersionedEvent>, cursor: int): int {
    if After(es, cursor) == [] then cursor else MaxVersion(After(es, cursor))
  }

  function MaxVersion(es: seq<VersionedEvent>): int
    requires es != []
  {
    if |es| == 1 then es[0].version else Max(es[0].version, MaxVersion(es[1..]))
  }

  lemma {:induction false} AdvancedBounds(es: seq<VersionedEvent>, cursor: int, top: int)
    requires AllUpTo(es, top)
    ensures AllUpTo(es, Advanced(es, cursor))
    ensures Advanced(es, cursor) == cursor || cursor < Advanced(es, cursor) <= top
  {
    if es != [] {
      var rest := After(es[1..], cursor);
      AdvancedBounds(es[1..], cursor, top);
      if es[0].version > cursor {
        assert After(es, cursor) == [es[0]] + rest;
        assert After(es, cursor)[1..] == rest;
      } else {
        assert After(es, cursor) == rest;
      }
      assert Advanced(es, cursor) >= Advanced(es[1..], cursor) && es[0].version <= Advanced(es, cursor);
      forall i | 0 < i < |es|
        ensures es[i].version <= Advanced(es, cursor)
      {
        assert es[i] == es[1..][i - 1];
      }
    }
  }

  /** Versions in the log of a stored record never exceed the record's version. */
  predicate Bounded(r: Record) {
    AllUpTo(r.events, r.version)
  }

  lemma RestIsNewer(r: Record, s: Record)
    requires Later(r, s)
    ensures r.events <= s.events && s.events == r.events + s.events[|r.events|..]
    ensures AllAbove(s.events[|r.events|..], r.version)
  {
  }

  /** A later record adds, past any cursor between `after` and the old log, exactly what it adds past `after`. */
  lemma PollAddsTheRest(r: Record, s: Record, after: int, cursor: int)
    requires Later(r, s) && AllUpTo(r.events, cursor)
    requires cursor == after || after < cursor <= r.version
    ensures After(s.events, after) == After(r.events, after) + After(s.events, cursor)
  {
    RestIsNewer(r, s);
    hide After, AllAbove, AllUpTo, Later;
    var rest := s.events[|r.events|..];
    AfterConcat(r.events, rest, after);
    AfterConcat(r.events, rest, cursor);
    AfterNone(r.events, cursor);
    assert After(s.events, cursor) == After(rest, cursor);
    if cursor != after {
      AfterAll(rest, after);
      AfterAll(rest, cursor);
    }
    assert After(rest, after) == After(rest, cursor);
  }

  /**
   * `subscribe`: each poll is nothing (the wait timed out) or the record as it was stored then.
   * What has been streamed is always every event past `after` of the last record seen, once and
   * in log order, however many versions passed between two polls.
   */
  method Subscribe(record: Record, after: int, polls: seq<Option<Record>>)
    returns (stream: seq<VersionedEvent>, last: Record, ended: bool)
    requires Bounded(record)
    requires forall i :: 0 <= i < |polls| && polls[i].Some? ==> Bounded(polls[i].value) && Later(record, polls[i].value)
    requires forall i, j :: 0 <= i < j < |polls| && polls[i].Some? && polls[j].Some? ==> Later(polls[i].value, polls[j].value)
    ensures stream == After(last.events, after)
    ensures last == record || exists i :: 0 <= i < |polls| && polls[i] == Some(last)
    ensures ended <==> Settled(last.State())
    ensures !ended ==> forall i :: 0 <= i < |polls| && polls[i].Some? ==> Later(polls[i].value, last)
  {
    hide Later, Settled, After, AllUpTo, MaxVersion, Advanced;
    var cursor := after;
    last := record;
    stream := [];
    var n := 0;
    while true
      invariant 0 <= n <= |polls|
      invariant Bounded(last)
      invariant last == record || exists i :: 0 <= i < n && polls[i] == Some(last)
      invariant After(last.events, after) == stream + After(last.events, cursor)
      invariant cursor == after || after < cursor <= last.version
      invariant forall i :: n <= i < |polls| && polls[i].Some? ==> Later(last, polls[i].value)
      invariant forall i :: 0 <= i < n && polls[i].Some? ==> Later(polls[i].value, last)
      decreases |polls| - n
    {
      AdvancedBounds(last.events, cursor, last.version);
      stream, cursor := stream + After(last.events, cursor), Advanced(last.events, cursor);
      if Settled(last.State()) {
        return stream, last, true;
      }
      if n == |polls| {
        return stream, last, false;
      }
      var changed := polls[n];
      n := n + 1;
      if changed.None? {
        AfterNone(last.events, cursor);
      } else {
        PollAddsTheRest(last, changed.value, after, cursor);
        LaterBounds(last, changed.value);
        last := changed.value;
      }
    }
  }

  lemma LaterBounds(a: Record, b: Record)
    requires Later(a, b)
    ensures a.version <= b.version && Later(b, b)
  {
  }

  // ---------------------------------------------------------------------------------------------
  // Subscriptions over runs of the protocol

  /** Every record that a reachable state stores can be polled: it is bounded, and later states store later records. */
  lemma PollsOfARun(run: seq<Action>, more: seq<Action>, k: TaskKey)
    requires k in Exec(INIT, run).store.records
    ensures k in Exec(INIT, run + more).store.records
    ensures Bounded(Exec(INIT, run).store.records[k])
    ensures Later(Exec(INIT, run).store.records[k], Exec(INIT, run + more).store.records[k])
  {
    ReachableInv(run);
    ExecConcat(INIT, run, more);
    ExecLater(Exec(INIT, run), more, k);
  }

  /** The snapshot a subscriber starts from, plus its stream, is the stored Task where the stream stands. */
  lemma SnapshotPlusStreamIsStored(run: seq<Action>, more: seq<Action>, k: TaskKey)
    requires k in Exec(INIT, run).store.records && k in Exec(INIT, run + more).store.records
    ensures var r, s := Exec(INIT, run).store.records[k], Exec(INIT, run + more).store.records[k];
            Replay(ViewOf(r), After(s.events, r.version)) == ViewOf(s)
  {
    PollsOfARun(run, more, k);
    LogRebuildsTask(run, k);
    LogRebuildsTask(run + more, k);
    RestReplays(Exec(INIT, run).store.records[k], Exec(INIT, run + more).store.records[k]);
  }

  lemma RestReplays(r: Record, s: Record)
    requires Later(r, s) && Bounded(r)
    requires Replay(InitialView(r.header), r.events) == ViewOf(r)
    requires Replay(InitialView(s.header), s.events) == ViewOf(s)
    ensures Replay(ViewOf(r), After(s.events, r.version)) == ViewOf(s)
  {
    assert s.header == r.header;
    RestIsNewer(r, s);
    hide After, AllAbove, AllUpTo, Later, Replay;
    var rest := s.events[|r.events|..];
    ReplayConcat(InitialView(r.header), r.events, rest);
    AfterNone(r.events, r.version);
    AfterConcat(r.events, rest, r.version);
    AfterAll(rest, r.version);
    assert [] + rest == rest;
  }

  /** The record of `k` after the run and `n` more actions. */
  function StoredAt(run: seq<Action>, more: seq<Action>, n: nat, k: TaskKey): Record
    requires n <= |more| && k in Exec(INIT, run + more[..n]).store.records
  {
    Exec(INIT, run + more[..n]).store.records[k]
  }

  lemma StoredAtLater(run: seq<Action>, more: seq<Action>, m: nat, n: nat, k: TaskKey)
    requires k in Exec(INIT, run).store.records && m <= n <= |more|
    ensures k in Exec(INIT, run + more[..m]).store.records && k in Exec(INIT, run + more[..n]).store.records
    ensures Bounded(StoredAt(run, more, m, k)) && Later(StoredAt(run, more, m, k), StoredAt(run, more, n, k))
    ensures Later(Exec(INIT, run).store.records[k], StoredAt(run, more, n, k))
  {
    hide Later, Bounded, Exec;
    PollsOfARun(run, more[..m], k);
    PollsOfARun(run, more[..n], k);
    PollsOfARun(run + more[..m], more[m..n], k);
    assert run + more[..m] + more[m..n] == run + more[..n];
  }

  /**
   * A subscription along a run: it starts from the Task stored after `run`, and poll `i` either
   * times out or returns the Task stored `times[i]` actions later.  The snapshot with the streamed
   * events folds to the Task last seen, and the stream ends exactly when that one is settled.
   */
  method SubscribeAlongARun(run: seq<Action>, more: seq<Action>, k: TaskKey, times: seq<Option<nat>>)
    returns (stream: seq<VersionedEvent>, last: Record, ended: bool)
    requires k in Exec(INIT, run).store.records
    requires forall i :: 0 <= i < |times| && times[i].Some? ==> times[i].value <= |more|
    requires forall i, j :: 0 <= i < j < |times| && times[i].Some? && times[j].Some? ==> times[i].value <= times[j].value
    ensures Replay(ViewOf(Exec(INIT, run).store.records[k]), stream) == ViewOf(last)
    ensures ended <==> Settled(last.State())
    ensures exists n: nat :: n <= |more| && k in Exec(INIT, run + more[..n]).store.records && last == StoredAt(run, more, n, k)
  {
    var snapshot := Exec(INIT, run).store.records[k];
    var polls: seq<Option<Record>> := [];
    assert run + more[..0] == run;
    hide Exec, Later, Bounded, Settled;
    StoredAtLater(run, more, 0, 0, k);
    for i := 0 to |times|
      invariant |polls| == i
      invariant forall j :: 0 <= j < i ==> (polls[j].Some? <==> times[j].Some?)
      invariant forall j :: 0 <= j < i && times[j].Some? ==>
                  k in Exec(INIT, run + more[..times[j].value]).store.records && polls[j].value == StoredAt(run, more, times[j].value, k)
    {
      if times[i].Some? {
        StoredAtLater(run, more, times[i].value, times[i].value, k);
        polls := polls + [Some(StoredAt(run, more, times[i].value, k))];
      } else {
        polls := polls + [None];
      }
    }
    forall i, j | 0 <= i <= j < |polls| && polls[i].Some? && polls[j].Some?
      ensures Bounded(polls[i].value) && Later(snapshot, polls[j].value) && Later(polls[i].value, polls[j].value)
    {
      StoredAtLater(run, more, times[i].value, times[j].value, k);
    }
    stream, last, ended := Subscribe(snapshot, snapshot.version, polls);
    ghost var n: nat := 0;
    if last != snapshot {
      ghost var i :| 0 <= i < |polls| && polls[i] == Some(last);
      n := times[i].value;
    }
    assert last == StoredAt(run, more, n, k);
    SnapshotPlusStreamIsStored(run, more[..n], k);
  }

  // ---------------------------------------------------------------------------------------------
  // Cancellation over runs of the protocol

  /** One turn of a cancel loop: what happens before its read, and between its read and its write. */
  datatype CancelTry = CancelTry(before: seq<Action>, at: Time, between: seq<Action>, now: Time)

  /** None of the actions is the worker's own. */
  predicate LeavesAlone(w: nat, run: seq<Action>) {
    forall i :: 0 <= i < |run| ==>
      match run[i]
      case Read(x, _, _, _) => x != w
      case Write(x, _) => x != w
      case Abandon(x) => x != w
      case _ => true
  }

  function TryRun(w: nat, k: TaskKey, t: CancelTry): seq<Action> {
    t.before + ([Read(w, k, Cancel, t.at)] + (t.between + [Write(w, t.now)]))
  }

  /** The loop ends with this turn: it reads a state that is not cancelable, or its write is not a conflict. */
  ghost predicate EndsLoop(s: System, w: nat, k: TaskKey, t: CancelTry) {
    var reading := Exec(s, t.before);
    var writing := Exec(Step(reading, Read(w, k, Cancel, t.at)), t.between);
    && LeavesAlone(w, t.between)
    && k in reading.store.records
    && (Cancelable(reading.store.records[k].State()) ==>
          k in writing.store.records && writing.store.records[k].version == reading.store.records[k].version)
  }

  /** What a worker has prepared stays prepared while it does nothing. */
  lemma {:induction false} PendingStays(s: System, run: seq<Action>, w: nat)
    requires LeavesAlone(w, run) && w in s.pending
    ensures w in Exec(s, run).pending && Exec(s, run).pending[w] == s.pending[w]
    decreases |run|
  {
    if run != [] {
      hide Draft, Created, Claimed, Renewed, Released, Replaced;
      assert LeavesAlone(w, run[..1]);
      PendingStays(Step(s, run[0]), run[1..], w);
    }
  }

  lemma TryRunSteps(s: System, w: nat, k: TaskKey, t: CancelTry)
    ensures var reading := Exec(s, t.before);
            var writing := Exec(Step(reading, Read(w, k, Cancel, t.at)), t.between);
            Exec(s, TryRun(w, k, t)) == Step(writing, Write(w, t.now))
  {
    var read, write := Read(w, k, Cancel, t.at), Write(w, t.now);
    var reading := Exec(s, t.before);
    ExecConcat(s, t.before, [read] + (t.between + [write]));
    assert ([read] + (t.between + [write]))[1..] == t.between + [write];
    ExecConcat(Step(reading, read), t.between, [write]);
    assert [write][1..] == [];
    hide Step;
  }

  /** A write of a cancel whose snapshot is still stored takes effect. */
  lemma CancelWrites(s: System, w: nat, k: TaskKey, now: Time)
    requires Inv(s) && w in s.pending && s.pending[w].intent == Cancel && s.pending[w].snapshot.Key() == k
    requires k in s.store.records && s.store.records[k].version == s.pending[w].snapshot.version
    ensures k in Step(s, Write(w, now)).store.records && Terminal(Step(s, Write(w, now)).store.records[k].State())
  {
    hide RecordOk, LeasesOk, DispatchesOk, ArtifactEvents;
    assert SnapshotOk(s.store, s.pending[w]);
  }

  lemma TerminalStays(s: System, run: seq<Action>, k: TaskKey)
    requires Inv(s) && k in s.store.records && Terminal(s.store.records[k].State())
    ensures k in Exec(s, run).store.records && Exec(s, run).store.records[k] == s.store.records[k]
  {
    ExecLater(s, run, k);
  }

  /** A cancel reads without changing the store, and prepares its write when the state is cancelable. */
  lemma CancelReads(s: System, w: nat, k: TaskKey, at: Time)
    requires Inv(s) && k in s.store.records
    ensures var t := Step(s, Read(w, k, Cancel, at));
            && Inv(t) && t.store == s.store
            && (Cancelable(s.store.records[k].State()) ==> w in t.pending && t.pending[w] == Pending(Cancel, s.store.records[k], at))
  {
    hide Inv, Draft, Replaced, Created, Claimed, Renewed, Released;
    StepKeepsInv(s, Read(w, k, Cancel, at));
  }

  lemma OneStep(s: System, a: Action)
    ensures Exec(s, [a]) == Step(s, a)
  {
    hide Step;
    assert [a][1..] == [];
  }

  /** Whichever way the loop ends, the Task is terminal from then on. */
  lemma EndedLoopIsTerminal(s: System, w: nat, k: TaskKey, t: CancelTry)
    requires Inv(s) && EndsLoop(s, w, k, t)
    ensures k in Exec(s, TryRun(w, k, t)).store.records && Terminal(Exec(s, TryRun(w, k, t)).store.records[k].State())
  {
    hide Inv, Exec, Step, TryRun, LeavesAlone;
    var reading := Exec(s, t.before);
    var prepared := Step(reading, Read(w, k, Cancel, t.at));
    var writing := Exec(prepared, t.between);
    ExecKeepsInv(s, t.before);
    CancelReads(reading, w, k, t.at);
    ExecKeepsInv(prepared, t.between);
    TryRunSteps(s, w, k, t);
    if Cancelable(reading.store.records[k].State()) {
      InvKeys(reading, k);
      PendingStays(prepared, t.between, w);
      CancelWrites(writing, w, k, t.now);
    } else {
      TerminalStays(prepared, t.between, k);
      TerminalStays(writing, [Write(w, t.now)], k);
      OneStep(writing, Write(w, t.now));
    }
  }

  lemma InvKeys(s: System, k: TaskKey)
    requires Inv(s) && k in s.store.records
    ensures s.store.records[k].Key() == k
  {
  }

  /** The turns of one loop, the last of which ends it. */
  datatype CancelLoop = CancelLoop(key: TaskKey, tries: seq<CancelTry>)

  function LoopRun(w: nat, k: TaskKey, tries: seq<CancelTry>): seq<Action> {
    if tries == [] then [] else LoopRun(w, k, tries[..|tries| - 1]) + TryRun(w, k, tries[|tries| - 1])
  }

  ghost predicate LoopEnds(s: System, w: nat, l: CancelLoop) {
    l.tries != [] && EndsLoop(Exec(s, LoopRun(w, l.key, l.tries[..|l.tries| - 1])), w, l.key, l.tries[|l.tries| - 1])
  }

  /** The loops of `cancel_run_tasks`, one listed Task after another. */
  function LoopsRun(w: nat, loops: seq<CancelLoop>): seq<Action> {
    if loops == [] then []
    else LoopsRun(w, loops[..|loops| - 1]) + LoopRun(w, loops[|loops| - 1].key, loops[|loops| - 1].tries)
  }

  ghost predicate LoopsEnd(s: System, w: nat, loops: seq<CancelLoop>) {
    loops == []
    || (LoopsEnd(s, w, loops[..|loops| - 1]) && LoopEnds(Exec(s, LoopsRun(w, loops[..|loops| - 1])), w, loops[|loops| - 1]))
  }

  lemma EndedLoop(s: System, w: nat, l: CancelLoop)
    requires Inv(s) && LoopEnds(s, w, l)
    ensures var t := Exec(s, LoopRun(w, l.key, l.tries));
            l.key in t.store.records && Terminal(t.store.records[l.key].State())
  {
    hide Exec, TryRun, EndsLoop, Inv;
    var init, last := l.tries[..|l.tries| - 1], l.tries[|l.tries| - 1];
    ExecKeepsInv(s, LoopRun(w, l.key, init));
    EndedLoopIsTerminal(Exec(s, LoopRun(w, l.key, init)), w, l.key, last);
    ExecConcat(s, LoopRun(w, l.key, init), TryRun(w, l.key, last));
  }

  lemma {:induction false} EndedLoops(s: System, w: nat, loops: seq<CancelLoop>, n: nat)
    requires Inv(s) && LoopsEnd(s, w, loops) && n < |loops|
    ensures var t := Exec(s, LoopsRun(w, loops));
            loops[n].key in t.store.records && Terminal(t.store.records[loops[n].key].State())
  {
    hide Exec, LoopRun, LoopEnds, Inv;
    var init, last := loops[..|loops| - 1], loops[|loops| - 1];
    var before := LoopsRun(w, init);
    ExecConcat(s, before, LoopRun(w, last.key, last.tries));
    ExecKeepsInv(s, before);
    if n == |loops| - 1 {
      EndedLoop(Exec(s, before), w, last);
    } else {
      EndedLoops(s, w, init, n);
      TerminalStays(Exec(s, before), LoopRun(w, last.key, last.tries), loops[n].key);
    }
  }

  /**
   * Canceling the Tasks of a run against running workers: once the cancel loops have ended, every
   * listed Task is terminal, and stays so in every later state.
   */
  lemma CanceledTasksStayTerminal(run: seq<Action>, w: nat, loops: seq<CancelLoop>, more: seq<Action>, n: nat)
    requires LoopsEnd(Exec(INIT, run), w, loops) && n < |loops|
    ensures var s := Exec(Exec(Exec(INIT, run), LoopsRun(w, loops)), more);
            && loops[n].key in s.store.records
            && Terminal(s.store.records[loops[n].key].State())
  {
    hide Exec, LoopsEnd, LoopsRun, Inv;
    var s := Exec(INIT, run);
    ReachableInv(run);
    EndedLoops(s, w, loops, n);
    ExecKeepsInv(s, LoopsRun(w, loops));
    TerminalStays(Exec(s, LoopsRun(w, loops)), more, loops[n].key);
  }

  /** A turn that does not end its loop was overtaken: the Task has moved to a later version meanwhile. */
  lemma ConflictMeansProgress(s: System, w: nat, k: TaskKey, t: CancelTry)
    requires Inv(s) && k in s.store.records && LeavesAlone(w, t.between) && !EndsLoop(s, w, k, t)
    ensures k in Exec(s, TryRun(w, k, t)).store.records
    ensures Exec(s, TryRun(w, k, t)).store.records[k].version > s.store.records[k].version
  {
    hide RecordOk, LeasesOk, DispatchesOk;
    var reading := Exec(s, t.before);
    var read := Read(w, k, Cancel, t.at);
    ExecKeepsInv(s, t.before);
    ExecLater(s, t.before, k);
    StepKeepsInv(reading, read);
    ExecLater(Step(reading, read), t.between, k);
    ExecKeepsInv(Step(reading, read), t.between);
    StepEffect(Exec(Step(reading, read), t.between), Write(w, t.now), k);
    TryRunSteps(s, w, k, t);
  }
}

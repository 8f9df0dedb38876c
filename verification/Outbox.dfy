/**
 * The transactional outbox and its two ends: the dispatcher of backend/moyuan_web/v1/outbox.py
 * that claims rows and puts them on a stream, and the worker of backend/moyuan_web/v1/worker.py
 * that executes streamed dispatches and acknowledges them.
 */
module Outbox {
  import opened Common

  /** The decoded payload of a dispatch; `Malformed` is anything the message model refuses. */
  datatype Payload = Malformed | Dispatch(tenant: string, actor: string, trip: string, run: string, trace: string, control: int)

  datatype Message = Message(eventType: string, payload: Payload)

  const DISPATCH := "run.dispatch.requested"

  datatype Row = Row(
    message: Message, available: Time, published: Option<Time>, lockedAt: Option<Time>, lockedBy: Option<string>, attempts: nat)

  /** A claimed row: its place in the table and the attempt number it was claimed with. */
  datatype Record = Record(row: nat, attempts: nat)

  function LeaseMillis(seconds: int): (millis: int)
    ensures millis >= 10000 && (seconds >= 10 ==> millis == 1000 * seconds)
  {
    1000 * Max(10, seconds)
  }

  function BatchSize(limit: int): (n: nat)
    ensures 1 <= n <= 500 && (1 <= limit <= 500 ==> n == limit) && (limit > 500 ==> n == 500)
  {
    Max(1, Min(limit, 500))
  }

  function Pow2(n: nat): nat {
    if n == 0 then 1 else 2 * Pow2(n - 1)
  }

  /** The back-off after a failed publication. */
  function Delay(attempts: nat): int {
    1000 * Min(300, Pow2(Min(attempts, 8)))
  }

  lemma {:induction false} Pow2Grows(n: nat, m: nat)
    requires n <= m
    ensures 1 <= Pow2(n) <= Pow2(m)
    decreases m
  {
    if n < m {
      Pow2Grows(n, m - 1);
    } else if n > 0 {
      Pow2Grows(n - 1, n - 1);
    }
  }

  const MAX_DELAY := 256000

  /** The exponent is capped first, so the longest delay is 256 seconds and the cap of 300 never binds. */
  lemma DelayBounds(attempts: nat)
    ensures 1000 <= Delay(attempts) <= MAX_DELAY
  {
    Pow2Grows(Min(attempts, 8), 8);
    assert Pow2(8) == 256;
  }

  /** The first delay is one second, it doubles with every attempt, and stays at 256 seconds from the eighth on. */
  lemma DelayDoubles(attempts: nat)
    ensures Delay(0) == 1000
    ensures attempts < 8 ==> Delay(attempts + 1) == 2 * Delay(attempts)
    ensures attempts >= 8 ==> Delay(attempts) == 256000
  {
    assert Pow2(8) == 256;
    if attempts < 8 {
      Pow2Grows(attempts, 8);
      Pow2Grows(attempts + 1, 8);
    }
  }

  predicate Eligible(r: Row, now: Time, lease: int) {
    r.published.None? && r.available <= now && (r.lockedAt.Some? ==> r.lockedAt.value < now - lease)
  }

  function Lock(r: Row, worker: string, now: Time): Row {
    r.(lockedAt := Some(now), lockedBy := Some(worker), attempts := r.attempts + 1)
  }

  /** The row update both marks share: it applies only while `worker` holds the row unpublished. */
  predicate Holds(r: Row, worker: string) {
    r.lockedBy == Some(worker) && r.published.None?
  }

  function MarkPublished(r: Row, worker: string, now: Time): Row {
    if Holds(r, worker) then r.(published := Some(now), lockedAt := None, lockedBy := None) else r
  }

  function MarkFailed(r: Row, worker: string, attempts: nat, now: Time): Row {
    if Holds(r, worker) then r.(available := now + Delay(attempts), lockedAt := None, lockedBy := None) else r
  }

  function Mark(r: Row, worker: string, attempts: nat, ok: bool, now: Time): Row {
    if ok then MarkPublished(r, worker, now) else MarkFailed(r, worker, attempts, now)
  }

  // ---------------------------------------------------------------------------------------------
  // Consuming one stream entry

  /** What the store says about the run of a dispatch; `Unreadable` is any error of the lookup. */
  datatype Lookup = Unreadable | Found(trip: string, trace: string, actor: string, control: int)

  /** How the execution of a run ended for this worker. */
  datatype Execution = Finished | Busy | LeaseLost | Faulted

  datatype Verdict = Verdict(ack: bool, dead: bool, executed: bool)

  predicate FenceOk(p: Payload, run: Lookup)
    requires p.Dispatch? && run.Found?
  {
    run.trip == p.trip && run.trace == p.trace && run.actor == p.actor && run.control >= p.control
  }

  /** `process_entry`. */
  function Process(m: Message, run: Lookup, execution: Execution): (v: Verdict)
    ensures v.ack <==> m.eventType != DISPATCH || v.executed || v.dead
    ensures !(v.executed && v.dead)
    ensures v.executed ==> m.payload.Dispatch? && run.Found?
    ensures m.payload.Dispatch? && run.Found? ==>
              var same := run.trip == m.payload.trip && run.trace == m.payload.trace && run.actor == m.payload.actor;
              && (v.executed <==> m.eventType == DISPATCH && same && m.payload.control <= run.control && execution.Finished?)
              && (v.dead <==> m.eventType == DISPATCH && !(same && m.payload.control <= run.control))
    ensures m.payload.Malformed? ==> (v.dead <==> m.eventType == DISPATCH)
    ensures m.payload.Dispatch? && run.Unreadable? ==> !v.dead
  {
    if m.eventType != DISPATCH then Verdict(true, false, false)
    else if m.payload.Malformed? then Verdict(true, true, false)
    else if run.Unreadable? then Verdict(false, false, false)
    else if !FenceOk(m.payload, run) then Verdict(true, true, false)
    else if execution.Finished? then Verdict(true, false, true)
    else Verdict(false, false, false)
  }

  // ---------------------------------------------------------------------------------------------
  // The whole system

  datatype Stage = Publishing | Marking(ok: bool)

  /** What a dispatcher process holds in memory. */
  datatype Flight = Flight(queue: seq<Record>, stage: Stage)

  /** What a worker process holds: an entry, and the verdict once it has one. */
  datatype Task = Task(entry: nat, verdict: Option<Verdict>)

  /** `stream[e]` is the table row that entry `e` came from; the group has been handed the first `read` entries. */
  datatype World = World(
    now: Time, rows: seq<Row>, stream: seq<nat>, flights: map<string, Flight>,
    read: nat, acked: set<nat>, executed: set<nat>, dead: set<nat>, tasks: map<string, Task>)

  const START := World(0, [], [], map[], 0, {}, {}, {}, map[])

  datatype Action =
    | Advance(millis: nat)
    | Insert(message: Message)
    | Claim(worker: string, lease: int, chosen: seq<nat>)
    | Publish(worker: string, arrived: bool, ok: bool)
    | Settle(worker: string)
    | CrashDispatcher(worker: string)
    | Deliver(count: nat)
    | Take(worker: string, entry: nat)
    | Handle(worker: string, run: Lookup, execution: Execution)
    | Acknowledge(worker: string)
    | CrashWorker(worker: string)

  predicate Distinct(s: seq<nat>) {
    forall i, j :: 0 <= i < j < |s| ==> s[i] != s[j]
  }

  /** Any batch of eligible rows: rows locked by concurrent transactions are skipped. */
  predicate Claimable(w: World, lease: int, chosen: seq<nat>) {
    && Distinct(chosen)
    && forall i :: 0 <= i < |chosen| ==> chosen[i] < |w.rows| && Eligible(w.rows[chosen[i]], w.now, LeaseMillis(lease))
  }

  function LockAll(rows: seq<Row>, chosen: seq<nat>, worker: string, now: Time): seq<Row> {
    seq(|rows|, i requires 0 <= i < |rows| => if i in chosen then Lock(rows[i], worker, now) else rows[i])
  }

  function RecordsOf(rows: seq<Row>, chosen: seq<nat>): seq<Record> {
    seq(|chosen|, i requires 0 <= i < |chosen| => Record(chosen[i], if chosen[i] < |rows| then rows[chosen[i]].attempts + 1 else 0))
  }

  /** The publication attempt on the first record; a failed call may still have reached the stream. */
  function Published(w: World, worker: string, arrived: bool, ok: bool): World {
    if worker in w.flights && w.flights[worker].queue != [] && w.flights[worker].stage.Publishing? && (ok ==> arrived) then
      var f := w.flights[worker];
      w.(stream := if arrived then w.stream + [f.queue[0].row] else w.stream,
         flights := w.flights[worker := f.(stage := Marking(ok))])
    else w
  }

  function Settled(w: World, worker: string): World {
    if worker in w.flights && w.flights[worker].queue != [] && w.flights[worker].stage.Marking? then
      var f := w.flights[worker];
      var record := f.queue[0];
      w.(flights := w.flights[worker := Flight(f.queue[1..], Publishing)],
         rows := if record.row < |w.rows|
                 then w.rows[record.row := Mark(w.rows[record.row], worker, record.attempts, f.stage.ok, w.now)] else w.rows)
    else w
  }

  function Handled(w: World, worker: string, run: Lookup, execution: Execution): World {
    if worker in w.tasks && w.tasks[worker].verdict.None? && w.tasks[worker].entry < |w.stream| && w.stream[w.tasks[worker].entry] < |w.rows| then
      var e := w.tasks[worker].entry;
      var v := Process(w.rows[w.stream[e]].message, run, execution);
      w.(executed := if v.executed then w.executed + {e} else w.executed,
         dead := if v.dead then w.dead + {e} else w.dead,
         tasks := w.tasks[worker := Task(e, Some(v))])
    else w
  }

  function Acknowledged(w: World, worker: string): World {
    if worker in w.tasks && w.tasks[worker].verdict.Some? then
      w.(acked := if w.tasks[worker].verdict.value.ack then w.acked + {w.tasks[worker].entry} else w.acked,
         tasks := w.tasks - {worker})
    else w
  }

  /** One step; an action that is not enabled does nothing. */
  function Next(w: World, a: Action): World {
    match a
    case Advance(millis) => w.(now := w.now + millis)
    case Insert(message) => w.(rows := w.rows + [Row(message, w.now, None, None, None, 0)])
    case Claim(worker, lease, chosen) =>
      if worker !in w.flights && Claimable(w, lease, chosen) then
        w.(rows := LockAll(w.rows, chosen, worker, w.now),
           flights := w.flights[worker := Flight(RecordsOf(w.rows, chosen), Publishing)])
      else w
    case Publish(worker, arrived, ok) => Published(w, worker, arrived, ok)
    case Settle(worker) => Settled(w, worker)
    case CrashDispatcher(worker) => w.(flights := w.flights - {worker})
    case Deliver(count) => w.(read := Min(w.read + count, Max(w.read, |w.stream|)))
    case Take(worker, entry) =>
      if worker !in w.tasks && entry < w.read && entry !in w.acked then w.(tasks := w.tasks[worker := Task(entry, None)]) else w
    case Handle(worker, run, execution) => Handled(w, worker, run, execution)
    case Acknowledge(worker) => Acknowledged(w, worker)
    case CrashWorker(worker) => w.(tasks := w.tasks - {worker})
  }

  function After(w: World, actions: seq<Action>): World {
    if actions == [] then w else Next(After(w, actions[..|actions| - 1]), actions[|actions| - 1])
  }

  // ---------------------------------------------------------------------------------------------
  // Invariants of the dispatching end

  predicate Streamed(w: World, i: nat) {
    exists e :: 0 <= e < |w.stream| && w.stream[e] == i
  }

  /** A published row is on the stream, and so is a record about to be marked published. */
  ghost predicate PublishedIsStreamed(w: World) {
    && (forall i :: 0 <= i < |w.rows| && w.rows[i].published.Some? ==> Streamed(w, i))
    && (forall d :: d in w.flights && w.flights[d].queue != [] && w.flights[d].stage == Marking(true) ==> Streamed(w, w.flights[d].queue[0].row))
  }

  /** Records in flight and stream entries name rows that exist. */
  ghost predicate InTable(w: World) {
    && (forall d, i :: d in w.flights && 0 <= i < |w.flights[d].queue| ==> w.flights[d].queue[i].row < |w.rows|)
    && (forall e :: 0 <= e < |w.stream| ==> w.stream[e] < |w.rows|)
  }

  /** How long a row that is not published can stay unavailable. */
  ghost predicate SoonAvailable(w: World) {
    forall i :: 0 <= i < |w.rows| ==>
      w.rows[i].available <= w.now + MAX_DELAY && (w.rows[i].lockedAt.Some? ==> w.rows[i].lockedAt.value <= w.now)
  }

  /** A dispatch is acknowledged only after it was executed or dead-lettered. */
  ghost predicate AckedIsHandled(w: World) {
    && (forall e :: e in w.acked ==> e < |w.stream| && w.stream[e] < |w.rows|)
    && (forall e :: e in w.acked && w.rows[w.stream[e]].message.eventType == DISPATCH ==> e in w.executed || e in w.dead)
    && w.read <= |w.stream|
    && (forall c :: c in w.tasks ==> w.tasks[c].entry < w.read)
    && (forall c :: c in w.tasks && w.tasks[c].verdict.Some? ==> VerdictOk(w, w.tasks[c].entry, w.tasks[c].verdict.value))
  }

  predicate VerdictOk(w: World, e: nat, v: Verdict) {
    && e < |w.stream| && w.stream[e] < |w.rows|
    && (v.ack && w.rows[w.stream[e]].message.eventType == DISPATCH ==> e in w.executed || e in w.dead)
  }

  /** What no step undoes: publication, messages, the stream, and what was handled or acknowledged. */
  ghost predicate Forward(w: World, x: World) {
    && w.now <= x.now
    && |w.rows| <= |x.rows|
    && (forall i :: 0 <= i < |w.rows| ==> x.rows[i].message == w.rows[i].message)
    && (forall i :: 0 <= i < |w.rows| && w.rows[i].published.Some? ==> x.rows[i].published == w.rows[i].published)
    && w.stream <= x.stream
    && w.executed <= x.executed && w.dead <= x.dead && w.acked <= x.acked
  }

  ghost predicate Inv(w: World) {
    InTable(w) && PublishedIsStreamed(w) && SoonAvailable(w) && AckedIsHandled(w)
  }

  lemma StreamedLater(w: World, x: World, i: nat)
    requires w.stream <= x.stream && Streamed(w, i)
    ensures Streamed(x, i)
  {
  }

  lemma NextForward(w: World, a: Action)
    ensures Forward(w, Next(w, a))
  {
  }

  lemma NextInTable(w: World, a: Action)
    requires InTable(w)
    ensures InTable(Next(w, a))
  {
  }

  lemma MarkSettles(r: Row, worker: string, attempts: nat, ok: bool, now: Time)
    ensures var x := Mark(r, worker, attempts, ok, now);
            && (x.published.Some? && r.published.None? ==> ok)
            && x.message == r.message
            && (r.published.Some? ==> x == r)
            && (x.available == r.available || x.available <= now + MAX_DELAY)
            && (x.lockedAt.Some? ==> x.lockedAt == r.lockedAt)
  {
    DelayBounds(attempts);
  }

  lemma SettleStreamed(w: World, worker: string)
    requires PublishedIsStreamed(w)
    ensures PublishedIsStreamed(Settled(w, worker))
  {
  }

  lemma PublishStreamed(w: World, worker: string, arrived: bool, ok: bool)
    requires PublishedIsStreamed(w)
    ensures PublishedIsStreamed(Published(w, worker, arrived, ok))
  {
    var x := Published(w, worker, arrived, ok);
    if x != w && arrived {
      assert x.stream[|w.stream|] == w.flights[worker].queue[0].row;
    }
    forall i | 0 <= i < |x.rows| && x.rows[i].published.Some?
      ensures Streamed(x, i)
    {
      StreamedLater(w, x, i);
    }
    forall d | d in x.flights && x.flights[d].queue != [] && x.flights[d].stage == Marking(true)
      ensures Streamed(x, x.flights[d].queue[0].row)
    {
      if d in w.flights && x.flights[d] == w.flights[d] {
        StreamedLater(w, x, x.flights[d].queue[0].row);
      }
    }
  }

  lemma NextStreamed(w: World, a: Action)
    requires PublishedIsStreamed(w)
    ensures PublishedIsStreamed(Next(w, a))
  {
    if a.Publish? {
      PublishStreamed(w, a.worker, a.arrived, a.ok);
    } else if a.Settle? {
      SettleStreamed(w, a.worker);
    } else {
      hide Process, Claimable, RecordsOf, Streamed;
      var x := Next(w, a);
      assert x.stream == w.stream;
      forall i: nat | Streamed(w, i)
        ensures Streamed(x, i)
      {
        StreamedLater(w, x, i);
      }
      forall i | 0 <= i < |x.rows| && x.rows[i].published.Some?
        ensures Streamed(x, i)
      {
        assert i < |w.rows| && w.rows[i].published.Some?;
      }
    }
  }

  lemma NextSoonAvailable(w: World, a: Action)
    requires SoonAvailable(w)
    ensures SoonAvailable(Next(w, a))
  {
    hide Process, Claimable, RecordsOf, Mark;
    var x := Next(w, a);
    if a.Settle? && x != w {
      var record := w.flights[a.worker].queue[0];
      if record.row < |w.rows| {
        MarkSettles(w.rows[record.row], a.worker, record.attempts, w.flights[a.worker].stage.ok, w.now);
      }
    }
  }

  lemma HandleAcked(w: World, a: Action)
    requires AckedIsHandled(w) && a.Handle?
    ensures AckedIsHandled(Next(w, a))
  {
  }

  lemma NextAcked(w: World, a: Action)
    requires AckedIsHandled(w)
    ensures AckedIsHandled(Next(w, a))
  {
    if a.Handle? {
      HandleAcked(w, a);
    } else if a.Take? || a.Acknowledge? || a.CrashWorker? {
    } else {
      NextForward(w, a);
      hide Forward, AckedIsHandled, Process, Claimable, RecordsOf, LockAll, Mark;
    }
  }

  lemma {:induction false} AlwaysInv(actions: seq<Action>)
    ensures Inv(After(START, actions))
  {
    if actions != [] {
      hide Next, InTable, PublishedIsStreamed, SoonAvailable, AckedIsHandled;
      var before := After(START, actions[..|actions| - 1]);
      var a := actions[|actions| - 1];
      AlwaysInv(actions[..|actions| - 1]);
      NextInTable(before, a);
      NextStreamed(before, a);
      NextSoonAvailable(before, a);
      NextAcked(before, a);
    }
  }

  lemma {:induction false} AlwaysForward(w: World, actions: seq<Action>)
    ensures Forward(w, After(w, actions))
  {
    if actions != [] {
      hide Next, Forward;
      var before := After(w, actions[..|actions| - 1]);
      AlwaysForward(w, actions[..|actions| - 1]);
      NextForward(before, actions[|actions| - 1]);
    } else {
      assert Forward(w, w);
    }
  }

  // ---------------------------------------------------------------------------------------------
  // Main results

  /** A row marked published is on the stream, and it is published with the same mark ever after. */
  lemma PublishedRowsAreStreamedForGood(actions: seq<Action>, more: seq<Action>, i: nat)
    requires i < |After(START, actions).rows| && After(START, actions).rows[i].published.Some?
    ensures Streamed(After(START, actions), i)
    ensures var later := After(After(START, actions), more);
            && i < |later.rows| && later.rows[i].published == After(START, actions).rows[i].published
            && Streamed(later, i)
  {
    hide After, InTable, SoonAvailable, AckedIsHandled, Streamed;
    var w := After(START, actions);
    AlwaysInv(actions);
    AlwaysForward(w, more);
    StreamedLater(w, After(w, more), i);
  }

  /** Once its delay and its lock are over, an unpublished row can be claimed by any idle dispatcher. */
  lemma UnpublishedRowIsClaimable(w: World, i: nat, worker: string, lease: int)
    requires i < |w.rows| && w.rows[i].published.None? && worker !in w.flights
    requires w.rows[i].available <= w.now && (w.rows[i].lockedAt.Some? ==> w.rows[i].lockedAt.value + LeaseMillis(lease) < w.now)
    ensures var x := Next(w, Claim(worker, lease, [i]));
            && x.rows[i] == Lock(w.rows[i], worker, w.now)
            && x.flights[worker].queue == [Record(i, w.rows[i].attempts + 1)]
            && forall j :: 0 <= j < |w.rows| && j != i ==> x.rows[j] == w.rows[j]
  {
  }

  lemma TwoSteps(w: World, a: Action, b: Action)
    ensures After(w, [a, b]) == Next(Next(w, a), b)
  {
    hide Next;
    assert [a, b][..1] == [a] && [a][..0] == [];
    assert After(w, [a]) == Next(w, a);
  }

  lemma AdvanceOnly(w: World, wait: nat)
    ensures Next(w, Advance(wait)) == w.(now := w.now + wait)
  {
  }

  /** No row is held back for good: with the passing of 256 seconds and one lease it is claimable again. */
  lemma EveryUnpublishedRowBecomesClaimable(actions: seq<Action>, i: nat, worker: string, lease: int, wait: nat)
    requires var w := After(START, actions); i < |w.rows| && w.rows[i].published.None? && worker !in w.flights
    requires wait >= MAX_DELAY && wait > LeaseMillis(lease)
    ensures var w := After(START, actions);
            var x := After(w, [Advance(wait), Claim(worker, lease, [i])]);
            i < |x.rows| && x.rows[i] == Lock(w.rows[i], worker, w.now + wait)
  {
    hide Next, InTable, PublishedIsStreamed, AckedIsHandled, Lock;
    var w := After(START, actions);
    AlwaysInv(actions);
    TwoSteps(w, Advance(wait), Claim(worker, lease, [i]));
    hide After;
    var later := Next(w, Advance(wait));
    assert later == w.(now := w.now + wait) by {
      AdvanceOnly(w, wait);
    }
    UnpublishedRowIsClaimable(later, i, worker, lease);
    NextForward(later, Claim(worker, lease, [i]));
  }

  /** The actions that leave `worker`'s lock on a row alone: nothing of its own, and no claim past the lease. */
  predicate Respects(a: Action, worker: string, expiry: Time, held: Time) {
    && (a.Settle? ==> a.worker != worker)
    && (a.Claim? ==> expiry <= held + LeaseMillis(a.lease))
  }

  /** Within the lease a row stays with the dispatcher that claimed it, whatever the others do. */
  lemma {:induction false} LockProtectsTheRow(w: World, actions: seq<Action>, i: nat, worker: string)
    requires i < |w.rows| && Holds(w.rows[i], worker) && w.rows[i].lockedAt.Some?
    requires forall k :: 0 <= k < |actions| ==>
                         Respects(actions[k], worker, After(w, actions).now, w.rows[i].lockedAt.value)
    ensures i < |After(w, actions).rows| && After(w, actions).rows[i] == w.rows[i]
  {
    if actions != [] {
      var init := actions[..|actions| - 1];
      var before := After(w, init);
      var a := actions[|actions| - 1];
      NextForward(before, a);
      forall k | 0 <= k < |init|
        ensures Respects(init[k], worker, before.now, w.rows[i].lockedAt.value)
      {
        assert Respects(actions[k], worker, After(w, actions).now, w.rows[i].lockedAt.value);
      }
      LockProtectsTheRow(w, init, i, worker);
    }
  }

  /** So a dispatcher that streams and marks its row within the lease publishes it. */
  lemma MarkWithinLeasePublishes(w: World, actions: seq<Action>, i: nat, worker: string)
    requires i < |w.rows| && Holds(w.rows[i], worker) && w.rows[i].lockedAt.Some?
    requires forall k :: 0 <= k < |actions| ==>
                         Respects(actions[k], worker, After(w, actions).now, w.rows[i].lockedAt.value)
    requires var x := After(w, actions);
             && worker in x.flights && x.flights[worker].queue != [] && x.flights[worker].queue[0].row == i
             && x.flights[worker].stage == Marking(true)
    ensures var y := Next(After(w, actions), Settle(worker));
            i < |y.rows| && y.rows[i].published == Some(After(w, actions).now)
  {
    hide After;
    LockProtectsTheRow(w, actions, i, worker);
  }

  /** A dispatch that is acknowledged was executed or dead-lettered, and stays so. */
  lemma AcknowledgedDispatchWasHandled(actions: seq<Action>, e: nat)
    requires var w := After(START, actions);
             e in w.acked && e < |w.stream| && w.stream[e] < |w.rows| && w.rows[w.stream[e]].message.eventType == DISPATCH
    ensures e in After(START, actions).executed || e in After(START, actions).dead
  {
    hide After, InTable, SoonAvailable, PublishedIsStreamed;
    AlwaysInv(actions);
  }

  /** Any idle worker can take the entry. */
  predicate Available(w: World, e: nat) {
    e < w.read && e !in w.acked
  }

  /**
   * A published dispatch is never lost: some entry of it is still to be delivered, or pending and
   * open to every worker, or it was executed or dead-lettered.
   */
  lemma PublishedDispatchIsNeverLost(actions: seq<Action>, i: nat)
    requires var w := After(START, actions);
             i < |w.rows| && w.rows[i].published.Some? && w.rows[i].message.eventType == DISPATCH
    ensures var w := After(START, actions);
            exists e :: 0 <= e < |w.stream| && w.stream[e] == i
                        && (w.read <= e || Available(w, e) || e in w.executed || e in w.dead)
  {
    hide After, InTable, SoonAvailable;
    var w := After(START, actions);
    AlwaysInv(actions);
    assert Streamed(w, i);
    var e :| 0 <= e < |w.stream| && w.stream[e] == i;
    assert e in w.acked ==> e in w.executed || e in w.dead;
  }

  // ---------------------------------------------------------------------------------------------
  // The dispatcher's own code

  /** The first `n` eligible rows from index `k` on, in table order. */
  function FirstEligible(rows: seq<Row>, now: Time, lease: int, n: nat, k: nat): (c: seq<nat>)
    requires k <= |rows|
    ensures |c| <= n && forall x :: 0 <= x < |c| ==> k <= c[x] < |rows| && Eligible(rows[c[x]], now, lease)
    decreases |rows| - k
  {
    if k == |rows| || n == 0 then []
    else if Eligible(rows[k], now, lease) then [k] + FirstEligible(rows, now, lease, n - 1, k + 1)
    else FirstEligible(rows, now, lease, n, k + 1)
  }

  lemma {:induction false} FirstEligibleDistinct(rows: seq<Row>, now: Time, lease: int, n: nat, k: nat)
    requires k <= |rows|
    ensures Distinct(FirstEligible(rows, now, lease, n, k))
    decreases |rows| - k
  {
    hide Eligible;
    if k < |rows| && n > 0 {
      if Eligible(rows[k], now, lease) {
        var rest := FirstEligible(rows, now, lease, n - 1, k + 1);
        FirstEligibleDistinct(rows, now, lease, n - 1, k + 1);
      } else {
        FirstEligibleDistinct(rows, now, lease, n, k + 1);
      }
    }
  }

  /** The batch passes over an eligible row only when it is full of earlier rows. */
  lemma {:induction false} FirstEligibleSkipsNothing(rows: seq<Row>, now: Time, lease: int, n: nat, k: nat, i: nat)
    requires k <= i < |rows| && Eligible(rows[i], now, lease)
    ensures var c := FirstEligible(rows, now, lease, n, k);
            i in c || (|c| == n && forall x :: 0 <= x < |c| ==> c[x] < i)
    decreases |rows| - k
  {
    hide Eligible;
    if n > 0 {
      var c := FirstEligible(rows, now, lease, n, k);
      if !Eligible(rows[k], now, lease) {
        FirstEligibleSkipsNothing(rows, now, lease, n, k + 1, i);
      } else if k < i {
        var rest := FirstEligible(rows, now, lease, n - 1, k + 1);
        FirstEligibleSkipsNothing(rows, now, lease, n - 1, k + 1, i);
        assert forall x :: 1 <= x < |c| ==> c[x] == rest[x - 1];
        assert i in rest ==> i in c;
      } else {
        assert c[0] == i;
      }
    }
  }

  /** The table behind one dispatcher; its methods change the rows in place. */
  class PostgresOutboxRepository {
    const worker: string
    const lease: int
    var rows: seq<Row>

    constructor (worker: string, leaseSeconds: int, rows: seq<Row>)
      ensures this.worker == worker && lease == LeaseMillis(leaseSeconds) && this.rows == rows
    {
      this.worker := worker;
      this.lease := LeaseMillis(leaseSeconds);
      this.rows := rows;
    }

    method ClaimBatch(limit: int, now: Time) returns (records: seq<Record>)
      modifies this
      ensures var chosen := FirstEligible(old(rows), now, lease, BatchSize(limit), 0);
              rows == LockAll(old(rows), chosen, worker, now) && records == RecordsOf(old(rows), chosen)
    {
      var chosen := FirstEligible(rows, now, lease, BatchSize(limit), 0);
      records := RecordsOf(rows, chosen);
      if chosen == [] {
        return;
      }
      rows := LockAll(rows, chosen, worker, now);
    }

    method MarkPublished(record: Record, now: Time)
      modifies this
      ensures rows == MarkRow(old(rows), record, Attempt(true, now), worker)
    {
      if record.row < |rows| && rows[record.row].lockedBy == Some(worker) && rows[record.row].published.None? {
        rows := rows[record.row := rows[record.row].(published := Some(now), lockedAt := None, lockedBy := None)];
      }
    }

    method MarkFailed(record: Record, now: Time)
      modifies this
      ensures rows == MarkRow(old(rows), record, Attempt(false, now), worker)
    {
      var delay := 1000 * Min(300, Pow2(Min(record.attempts, 8)));
      if record.row < |rows| && rows[record.row].lockedBy == Some(worker) && rows[record.row].published.None? {
        rows := rows[record.row := rows[record.row].(available := now + delay, lockedAt := None, lockedBy := None)];
      }
    }
  }

  /** How one publication call went, and when the row was marked. */
  datatype Attempt = Attempt(ok: bool, now: Time)

  function MarkRow(rows: seq<Row>, record: Record, attempt: Attempt, worker: string): (r: seq<Row>)
    ensures |r| == |rows|
  {
    if record.row < |rows|
    then rows[record.row := Mark(rows[record.row], worker, record.attempts, attempt.ok, attempt.now)]
    else rows
  }

  function MarkAll(rows: seq<Row>, records: seq<Record>, attempts: seq<Attempt>, worker: string): (r: seq<Row>)
    requires |attempts| >= |records|
    ensures |r| == |rows|
  {
    if records == [] then rows
    else
      var k := |records| - 1;
      MarkRow(MarkAll(rows, records[..k], attempts, worker), records[k], attempts[k], worker)
  }

  /** The rows whose publication succeeded, in order. */
  function Succeeded(records: seq<Record>, attempts: seq<Attempt>): seq<nat>
    requires |attempts| >= |records|
  {
    if records == [] then []
    else
      var k := |records| - 1;
      Succeeded(records[..k], attempts) + if attempts[k].ok then [records[k].row] else []
  }

  class OutboxDispatcher {
    const repository: PostgresOutboxRepository
    var stream: seq<nat>

    constructor (repository: PostgresOutboxRepository, stream: seq<nat>)
      ensures this.repository == repository && this.stream == stream
    {
      this.repository := repository;
      this.stream := stream;
    }

    method DispatchOnce(limit: int, now: Time, attempts: seq<Attempt>) returns (n: nat)
      requires |attempts| >= BatchSize(limit)
      modifies this`stream, repository
      ensures var was := old(repository.rows);
              var chosen := FirstEligible(was, now, repository.lease, BatchSize(limit), 0);
              var records := RecordsOf(was, chosen);
              && n == |chosen|
              && repository.rows == MarkAll(LockAll(was, chosen, repository.worker, now), records, attempts, repository.worker)
              && stream == old(stream) + Succeeded(records, attempts)
    {
      hide FirstEligible, LockAll, Mark, MarkRow;
      var records := repository.ClaimBatch(limit, now);
      ghost var locked := repository.rows;
      for k := 0 to |records|
        invariant repository.rows == MarkAll(locked, records[..k], attempts, repository.worker)
        invariant stream == old(stream) + Succeeded(records[..k], attempts)
      {
        if attempts[k].ok {
          stream := stream + [records[k].row];
          repository.MarkPublished(records[k], attempts[k].now);
        } else {
          repository.MarkFailed(records[k], attempts[k].now);
        }
        assert attempts[k] == Attempt(attempts[k].ok, attempts[k].now);
        assert records[..k + 1][..k] == records[..k];
      }
      assert records[..|records|] == records;
      return |records|;
    }
  }

  predicate RowsDistinct(records: seq<Record>) {
    forall x, y :: 0 <= x < y < |records| ==> records[x].row != records[y].row
  }

  lemma {:induction false} MarkAllMeaning(rows: seq<Row>, records: seq<Record>, attempts: seq<Attempt>, worker: string, i: nat)
    requires |attempts| >= |records| && i < |rows|
    requires RowsDistinct(records)
    ensures var after := MarkAll(rows, records, attempts, worker);
            && (forall k :: 0 <= k < |records| && records[k].row == i ==>
                            after[i] == Mark(rows[i], worker, records[k].attempts, attempts[k].ok, attempts[k].now))
            && ((forall k :: 0 <= k < |records| ==> records[k].row != i) ==> after[i] == rows[i])
  {
    hide Mark;
    if records != [] {
      var n := |records| - 1;
      MarkAllMeaning(rows, records[..n], attempts, worker, i);
      assert forall k :: 0 <= k < n ==> records[..n][k] == records[k];
    }
  }

  lemma {:induction false} SucceededMeaning(records: seq<Record>, attempts: seq<Attempt>, k: nat)
    requires |attempts| >= |records| && k < |records| && attempts[k].ok
    ensures records[k].row in Succeeded(records, attempts)
  {
    if k < |records| - 1 {
      SucceededMeaning(records[..|records| - 1], attempts, k);
    }
  }

  /**
   * After an undisturbed dispatch every claimed row is published and on the stream, or it is
   * unlocked and delayed by its back-off, according to how its publication went; other rows are as
   * they were.
   */
  lemma DispatchSettlesEveryRow(rows: seq<Row>, now: Time, lease: int, limit: int, attempts: seq<Attempt>, worker: string, i: nat)
    requires |attempts| >= BatchSize(limit) && i < |rows|
    ensures var chosen := FirstEligible(rows, now, lease, BatchSize(limit), 0);
            var records := RecordsOf(rows, chosen);
            var after := MarkAll(LockAll(rows, chosen, worker, now), records, attempts, worker)[i];
            if i in chosen then
              exists k :: 0 <= k < |chosen| && chosen[k] == i
                          && SettledAs(rows[i], after, attempts[k])
                          && (attempts[k].ok ==> i in Succeeded(records, attempts))
            else after == rows[i]
  {
    var chosen := FirstEligible(rows, now, lease, BatchSize(limit), 0);
    var records := RecordsOf(rows, chosen);
    var locked := LockAll(rows, chosen, worker, now);
    FirstEligibleDistinct(rows, now, lease, BatchSize(limit), 0);
    hide FirstEligible, Delay, MarkAll, SettledAs, Mark;
    assert RowsDistinct(records);
    MarkAllMeaning(locked, records, attempts, worker, i);
    if i in chosen {
      var k :| 0 <= k < |chosen| && chosen[k] == i;
      assert Eligible(rows[i], now, lease);
      assert records[k] == Record(i, rows[i].attempts + 1);
      LockThenMark(rows[i], worker, now, attempts[k]);
      if attempts[k].ok {
        SucceededMeaning(records, attempts, k);
      }
    }
  }

  /** Published, or unlocked and delayed by its back-off. */
  predicate SettledAs(was: Row, after: Row, attempt: Attempt) {
    && after.lockedBy.None? && after.lockedAt.None? && after.attempts == was.attempts + 1 && after.message == was.message
    && if attempt.ok then after.published == Some(attempt.now)
       else after.published.None? && after.available == attempt.now + Delay(was.attempts + 1)
  }

  lemma LockThenMark(r: Row, worker: string, now: Time, attempt: Attempt)
    requires r.published.None?
    ensures SettledAs(r, Mark(Lock(r, worker, now), worker, r.attempts + 1, attempt.ok, attempt.now), attempt)
  {
  }

  // ---------------------------------------------------------------------------------------------
  // The worker's own code

  datatype Entry = Entry(id: nat, message: Message)

  datatype Reply = Reply(run: Lookup, execution: Execution)

  class RedisRunWorker {
    var acked: set<nat>
    var dead: set<nat>
    var executed: set<nat>

    constructor ()
      ensures acked == {} && dead == {} && executed == {}
    {
      acked, dead, executed := {}, {}, {};
    }

    method ProcessEntry(entry: Entry, reply: Reply) returns (acknowledge: bool)
      modifies this`dead, this`executed
      ensures var v := Process(entry.message, reply.run, reply.execution);
              && acknowledge == v.ack
              && dead == old(dead) + (if v.dead then {entry.id} else {})
              && executed == old(executed) + (if v.executed then {entry.id} else {})
    {
      if entry.message.eventType != DISPATCH {
        return true;
      }
      if entry.message.payload.Malformed? {
        dead := dead + {entry.id};
        return true;
      }
      var p := entry.message.payload;
      if reply.run.Unreadable? {
        return false;
      }
      if reply.run.trip != p.trip || reply.run.trace != p.trace || reply.run.actor != p.actor || reply.run.control < p.control {
        dead := dead + {entry.id};
        return true;
      }
      if !reply.execution.Finished? {
        return false;
      }
      executed := executed + {entry.id};
      return true;
    }

    /** Exactly the entries with an acknowledging verdict are acknowledged, and every dispatch among them is handled. */
    method ProcessEntries(entries: seq<Entry>, replies: seq<Reply>) returns (processed: nat)
      requires |replies| == |entries|
      modifies this
      ensures processed == |entries|
      ensures forall id :: id in acked <==> id in old(acked) || Acks(entries, replies, id)
      ensures old(executed) <= executed && old(dead) <= dead
      ensures forall k :: 0 <= k < |entries| && entries[k].message.eventType == DISPATCH && Process(entries[k].message, replies[k].run, replies[k].execution).ack
                          ==> entries[k].id in executed || entries[k].id in dead
    {
      processed := 0;
      for k := 0 to |entries|
        invariant processed == k
        invariant forall id :: id in acked <==> id in old(acked) || Acks(entries[..k], replies[..k], id)
        invariant old(executed) <= executed && old(dead) <= dead
        invariant forall j :: 0 <= j < k && entries[j].message.eventType == DISPATCH && Process(entries[j].message, replies[j].run, replies[j].execution).ack
                              ==> entries[j].id in executed || entries[j].id in dead
      {
        hide Process;
        ghost var before := acked;
        var acknowledge := ProcessEntry(entries[k], replies[k]);
        if acknowledge {
          acked := acked + {entries[k].id};
        }
        processed := processed + 1;
      }
      assert entries[..|entries|] == entries && replies[..|replies|] == replies;
    }
  }

  ghost predicate Acks(entries: seq<Entry>, replies: seq<Reply>, id: nat)
    requires |replies| == |entries|
  {
    exists k :: 0 <= k < |entries| && entries[k].id == id && Process(entries[k].message, replies[k].run, replies[k].execution).ack
  }

}

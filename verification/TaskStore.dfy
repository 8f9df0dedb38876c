/**
 * The reference persistence adapter (agent/travel_agent/a2a/store.py).
 *
 * Every operation is given twice: as a function on the value `Store`, which the protocol proofs
 * use, and as a method of `InMemoryAgentTaskStore` that changes the four dictionaries in place.
 */
module TaskStore {
  import opened Common
  import opened TaskTypes

  datatype Store = Store(
    records: map<TaskKey, Record>,
    dispatches: map<InboxKey, TaskKey>,
    leases: map<TaskKey, Lease>,
    attempts: map<TaskKey, int>)
  {
    function Attempt(k: TaskKey): int {
      if k in attempts then attempts[k] else 0
    }

    predicate LeaseLive(k: TaskKey, l: Lease, now: Time) {
      && k in leases
      && leases[k].owner == l.owner
      && leases[k].attempt == l.attempt
      && leases[k].until > now
    }
  }

  const EMPTY := Store(map[], map[], map[], map[])

  function LeaseDuration(requested: int): int {
    Max(50, requested)
  }

  function Created(s: Store, r: Record): (Store, Result<(Record, bool), StoreError>) {
    if r.Inbox() in s.dispatches then
      var k := s.dispatches[r.Inbox()];
      if k !in s.records then (s, Err(TaskMissing))
      else if s.records[k].header.fingerprint != r.header.fingerprint then (s, Err(DispatchConflict))
      else (s, Ok((s.records[k], false)))
    else if r.Key() in s.records then (s, Err(DispatchConflict))
    else
      (s.(records := s.records[r.Key() := r], dispatches := s.dispatches[r.Inbox() := r.Key()]),
       Ok((r, true)))
  }

  function Replaced(s: Store, r: Record, expected: int, lease: Option<Lease>, now: Time): (Store, Result<Record, StoreError>) {
    var k := r.Key();
    if k !in s.records then (s, Err(TaskMissing))
    else if lease.Some? && !s.LeaseLive(k, lease.value, now) then (s, Err(TaskExecutionLeaseLost))
    else if s.records[k].version != expected || r.version != expected + 1 then (s, Err(TaskVersionConflict))
    else
      (s.(records := s.records[k := r], leases := if Executable(r.State()) then s.leases else s.leases - {k}), Ok(r))
  }

  function Claimed(s: Store, k: TaskKey, owner: string, duration: int, now: Time): (Store, Result<Option<Lease>, StoreError>) {
    if k !in s.records then (s, Err(TaskMissing))
    else if !Executable(s.records[k].State()) then (s, Ok(None))
    else if k in s.leases && s.leases[k].until > now then (s, Ok(None))
    else
      var l := Lease(k, owner, s.Attempt(k) + 1, now + LeaseDuration(duration));
      (s.(leases := s.leases[k := l], attempts := s.attempts[k := l.attempt]), Ok(Some(l)))
  }

  function Renewed(s: Store, l: Lease, duration: int, now: Time): (Store, Option<Lease>) {
    if l.key !in s.records || !Executable(s.records[l.key].State()) || !s.LeaseLive(l.key, l, now) then (s, None)
    else
      var renewed := s.leases[l.key].(until := now + LeaseDuration(duration));
      (s.(leases := s.leases[l.key := renewed]), Some(renewed))
  }

  function Released(s: Store, l: Lease): Store {
    if l.key in s.leases && s.leases[l.key].owner == l.owner && s.leases[l.key].attempt == l.attempt
    then s.(leases := s.leases - {l.key})
    else s
  }

  /** The adapter object: four dictionaries that its methods change in place. */
  class InMemoryAgentTaskStore {
    var records: map<TaskKey, Record>
    var dispatches: map<InboxKey, TaskKey>
    var leases: map<TaskKey, Lease>
    var attempts: map<TaskKey, int>

    ghost function View(): Store
      reads this
    {
      Store(records, dispatches, leases, attempts)
    }

    constructor ()
      ensures View() == EMPTY
    {
      records, dispatches, leases, attempts := map[], map[], map[], map[];
    }

    method CreateOrGet(r: Record) returns (out: Result<(Record, bool), StoreError>)
      modifies this
      ensures (View(), out) == Created(old(View()), r)
    {
      if r.Inbox() in dispatches {
        var existing := dispatches[r.Inbox()];
        if existing !in records {
          return Err(TaskMissing);
        }
        if records[existing].header.fingerprint != r.header.fingerprint {
          return Err(DispatchConflict);
        }
        return Ok((records[existing], false));
      }
      if r.Key() in records {
        return Err(DispatchConflict);
      }
      records := records[r.Key() := r];
      dispatches := dispatches[r.Inbox() := r.Key()];
      return Ok((r, true));
    }

    method Get(k: TaskKey) returns (out: Result<Record, StoreError>)
      ensures out == if k in records then Ok(records[k]) else Err(TaskMissing)
    {
      if k !in records {
        return Err(TaskMissing);
      }
      return Ok(records[k]);
    }

    method Replace(r: Record, expected: int, lease: Option<Lease>, now: Time) returns (out: Result<Record, StoreError>)
      modifies this
      ensures (View(), out) == Replaced(old(View()), r, expected, lease, now)
    {
      var k := r.Key();
      if k !in records {
        return Err(TaskMissing);
      }
      if lease.Some? {
        if k !in leases || leases[k].owner != lease.value.owner
           || leases[k].attempt != lease.value.attempt || leases[k].until <= now {
          return Err(TaskExecutionLeaseLost);
        }
      }
      if records[k].version != expected || r.version != expected + 1 {
        return Err(TaskVersionConflict);
      }
      records := records[k := r];
      if !Executable(r.State()) {
        leases := leases - {k};
      }
      return Ok(r);
    }

    method ClaimExecution(k: TaskKey, owner: string, duration: int, now: Time) returns (out: Result<Option<Lease>, StoreError>)
      modifies this
      ensures (View(), out) == Claimed(old(View()), k, owner, duration, now)
    {
      if k !in records {
        return Err(TaskMissing);
      }
      if !Executable(records[k].State()) {
        return Ok(None);
      }
      if k in leases && leases[k].until > now {
        return Ok(None);
      }
      var attempt := (if k in attempts then attempts[k] else 0) + 1;
      var lease := Lease(k, owner, attempt, now + LeaseDuration(duration));
      attempts := attempts[k := attempt];
      leases := leases[k := lease];
      return Ok(Some(lease));
    }

    method RenewExecution(l: Lease, duration: int, now: Time) returns (out: Option<Lease>)
      modifies this
      ensures (View(), out) == Renewed(old(View()), l, duration, now)
    {
      if l.key !in records || !Executable(records[l.key].State()) || l.key !in leases
         || leases[l.key].owner != l.owner || leases[l.key].attempt != l.attempt || leases[l.key].until <= now {
        return None;
      }
      var renewed := leases[l.key].(until := now + LeaseDuration(duration));
      leases := leases[l.key := renewed];
      return Some(renewed);
    }

    method ReleaseExecution(l: Lease)
      modifies this
      ensures View() == Released(old(View()), l)
    {
      if l.key in leases && leases[l.key].owner == l.owner && leases[l.key].attempt == l.attempt {
        leases := leases - {l.key};
      }
    }
  }
}

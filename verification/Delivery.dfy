/**
 * From the store to the worker: the dispatch rows that backend/moyuan_web/v1/postgres_store.py
 * writes, as the messages that backend/moyuan_web/v1/worker.py later checks against the run.
 */
module Delivery {
  import opened Common
  import opened PlatformTypes
  import opened PlatformStore
  import opened PlatformProtocol
  import A = PlatformArtifacts
  import O = Outbox

  // ---------------------------------------------------------------------------------------------
  // Dispatch rows name their run

  lemma {:induction false} RowIsFound(rows: seq<OutboxRow>, i: nat, r: string)
    requires i < |rows| && OfRun(rows[i], r)
    ensures rows[i] in RowsOf(rows, r)
  {
    if i < |rows| - 1 {
      RowIsFound(rows[..|rows| - 1], i, r);
    }
  }

  lemma {:induction false} LedgerDispatches(es: seq<Event>, dispatched: set<int>, r: string, run: Run, row: OutboxRow)
    requires row in Ledger(es, dispatched, r, run) && row.DispatchNote?
    ensures row == DispatchNote(run.tenant, run.actor, run.trip, r, row.version) && row.version in dispatched
  {
    var n := |es| - 1;
    if row in Ledger(es[..n], dispatched, r, run) {
      LedgerDispatches(es[..n], dispatched, r, run, row);
    }
  }

  /** The dispatch names its run's tenant, actor and trip, at a version the run has reached. */
  predicate NamesItsRun(db: Db, row: OutboxRow)
    requires row.DispatchNote?
  {
    && row.run in db.runs
    && row.tenant == db.runs[row.run].tenant && row.actor == db.runs[row.run].actor && row.trip == db.runs[row.run].trip
    && 1 <= row.version <= db.runs[row.run].control
  }

  lemma EveryDispatchNamesItsRun(actions: seq<Action>, i: nat)
    requires i < |After(EMPTY, actions).outbox| && After(EMPTY, actions).outbox[i].DispatchNote?
    ensures NamesItsRun(After(EMPTY, actions), After(EMPTY, actions).outbox[i])
  {
    hide After, Ledger, RowsOf, EventsOf, Dispatched;
    var db := After(EMPTY, actions);
    var row := db.outbox[i];
    var r := row.run;
    EventsAndOutboxAgree(actions, r);
    RowIsFound(db.outbox, i, r);
    if r in db.runs {
      LedgerDispatches(EventsOf(db.events, r), Dispatched(EMPTY, actions, r), r, db.runs[r], row);
    }
  }

  // ---------------------------------------------------------------------------------------------
  // The outbox only grows

  lemma NextOutbox(db: Db, a: Action)
    ensures db.outbox <= Next(db, a).outbox
  {
    hide Next;
    if a.CommandArtifact? {
      hide CommandArtifactTx, ArtifactAccess, Transition, A.FitsTrip, FindJournal;
      A.CommandTables(db, a.p, a.artifact, a.command);
    } else {
      var rows;
      if a.CreateTrip? || a.UpdateTrip? || a.SetMember? || a.CreateArtifact? || a.PatchArtifact? {
        rows := A.PlainRows(db, a);
      } else if a.MutateRun? {
        rows := A.MutateRows(db, a);
      } else {
        rows := A.RunActionRows(db, a);
      }
    }
  }

  lemma {:induction false} OutboxGrows(db: Db, actions: seq<Action>)
    ensures db.outbox <= After(db, actions).outbox
  {
    if actions != [] {
      hide Next;
      OutboxGrows(db, actions[..|actions| - 1]);
      NextOutbox(After(db, actions[..|actions| - 1]), actions[|actions| - 1]);
    }
  }

  lemma {:induction false} AfterConcat(db: Db, a: seq<Action>, b: seq<Action>)
    ensures After(db, a + b) == After(After(db, a), b)
  {
    hide Next;
    if b == [] {
      assert a + b == a;
    } else {
      AfterConcat(db, a, b[..|b| - 1]);
      assert (a + b)[..|a + b| - 1] == a + b[..|b| - 1];
    }
  }

  // ---------------------------------------------------------------------------------------------
  // At the worker

  /** The stream message of a dispatch row; the trace of the run is carried along unchanged. */
  function MessageOf(row: OutboxRow, trace: string): O.Message
    requires row.DispatchNote?
  {
    O.Message(O.DISPATCH, O.Dispatch(row.tenant, row.actor, row.trip, row.run, trace, row.version))
  }

  /** What the worker's lookup of the run finds, as the run's own actor. */
  function LookupOf(db: Db, row: OutboxRow, trace: string): O.Lookup
    requires row.DispatchNote?
  {
    var run := RunAccess(db, Principal(row.tenant, row.actor, false), row.run);
    if run.Err? then O.Unreadable else O.Found(run.value.trip, trace, run.value.actor, run.value.control)
  }

  /**
   * A dispatch that the store wrote is never dead-lettered, however much later it is processed: it
   * is executed when the run can be read and its execution finishes, and otherwise left for another
   * worker.
   */
  lemma DispatchIsNeverDeadLettered(actions: seq<Action>, more: seq<Action>, i: nat, trace: string, execution: O.Execution)
    requires i < |After(EMPTY, actions).outbox| && After(EMPTY, actions).outbox[i].DispatchNote?
    ensures var row := After(EMPTY, actions).outbox[i];
            var lookup := LookupOf(After(EMPTY, actions + more), row, trace);
            var v := O.Process(MessageOf(row, trace), lookup, execution);
            !v.dead && v.ack == v.executed && (v.executed <==> lookup.Found? && execution.Finished?)
  {
    hide After, RunAccess, TripAccess;
    var db, later := After(EMPTY, actions), After(EMPTY, actions + more);
    var row := db.outbox[i];
    AfterConcat(EMPTY, actions, more);
    OutboxGrows(db, more);
    assert later.outbox[i] == row;
    EveryDispatchNamesItsRun(actions + more, i);
    RunFound(later, Principal(row.tenant, row.actor, false), row.run);
  }
}

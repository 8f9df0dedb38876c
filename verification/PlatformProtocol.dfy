/**
 * Whole runs of the control plane: every transaction, by any principal, in any order, with any
 * clock readings. A transaction that fails leaves the tables as they were.
 */
module PlatformProtocol {
  import opened Common
  import opened PlatformTypes
  import opened PlatformStore

  datatype Action =
    | CreateTrip(p: Principal, trip: string)
    | UpdateTrip(p: Principal, trip: string, active: Option<bool>)
    | SetMember(p: Principal, trip: string, user: string, editor: Option<bool>)
    | CreateRun(p: Principal, run: string, runRequest: RunRequest)
    | ClaimRun(p: Principal, run: string, owner: string, duration: int, now: Time)
    | RenewRun(p: Principal, lease: RunLease, duration: int, now: Time)
    | ReleaseRun(p: Principal, lease: RunLease)
    | MutateRun(p: Principal, run: string, mutation: Mutation, now: Time)
    | ResumeRun(p: Principal, run: string, resume: ResumeRequest, now: Time)
    | CreateArtifact(p: Principal, artifact: string, artifactRequest: ArtifactRequest, now: Time)
    | PatchArtifact(p: Principal, artifact: string, base: int, content: Option<string>)
    | CommandArtifact(p: Principal, artifact: string, command: CommandRequest)

  function Next(db: Db, a: Action): Db {
    match a
    case CreateTrip(p, t) => Committed(db, CreateTripTx(db, p, t))
    case UpdateTrip(p, t, active) => Committed(db, UpdateTripTx(db, p, t, active))
    case SetMember(p, t, user, editor) => Committed(db, MemberTx(db, p, t, user, editor))
    case CreateRun(p, r, req) => Committed(db, CreateRunTx(db, p, r, req))
    case ClaimRun(p, r, owner, duration, now) => Committed(db, ClaimRunTx(db, p, r, owner, duration, now))
    case RenewRun(p, l, duration, now) => Committed(db, RenewRunTx(db, p, l, duration, now))
    case ReleaseRun(p, l) => Committed(db, ReleaseRunTx(db, p, l))
    case MutateRun(p, r, m, now) => Committed(db, MutateRunTx(db, p, r, m, now))
    case ResumeRun(p, r, req, now) => Committed(db, ResumeRunTx(db, p, r, req, now))
    case CreateArtifact(p, id, req, now) => Committed(db, CreateArtifactTx(db, p, id, req, now))
    case PatchArtifact(p, id, base, content) => Committed(db, PatchArtifactTx(db, p, id, base, content))
    case CommandArtifact(p, id, req) => Committed(db, CommandArtifactTx(db, p, id, req))
  }

  function After(db: Db, actions: seq<Action>): Db {
    if actions == [] then db else Next(After(db, actions[..|actions| - 1]), actions[|actions| - 1])
  }

  // ---------------------------------------------------------------------------------------------
  // Leases and attempts of runs

  /** A lease exists only on a queued or running run. */
  predicate LeaseOk(run: Run) {
    && (run.leaseOwner.Some? ==> Active(run.state))
    && (run.leaseOwner.Some? <==> run.leaseUntil.Some?)
    && run.attempt >= 0
  }

  /** What every transaction keeps of a run that exists. */
  predicate RunStep(run: Run, next: Run) {
    && next.trip == run.trip && next.tenant == run.tenant && next.actor == run.actor
    && next.attempt >= run.attempt
    && (next.attempt == run.attempt && run.leaseOwner.None? ==> next.leaseOwner.None?)
    && (LeaseOk(run) ==> LeaseOk(next))
  }

  ghost predicate RunsStep(db: Db, next: Db) {
    && (forall r :: r in db.runs ==> r in next.runs && RunStep(db.runs[r], next.runs[r]))
    && (forall r :: r in next.runs && r !in db.runs ==> LeaseOk(next.runs[r]))
  }

  lemma NextRuns(db: Db, a: Action)
    ensures RunsStep(db, Next(db, a))
  {
    hide TripAccess, RunAccess, ArtifactAccess, SetStatus, SupersedeTrip, Supersede, Registered, FindJournal, CurrentArtifact, BaseConflict;
    match a
    case CreateRun(p, r, req) => CreateRunRuns(db, p, r, req);
    case ClaimRun(p, r, owner, duration, now) => ClaimRuns(db, p, r, owner, duration, now);
    case RenewRun(p, l, duration, now) => RenewRuns(db, p, l, duration, now);
    case ReleaseRun(p, l) => ReleaseRuns(db, p, l);
    case MutateRun(p, r, m, now) => MutateRuns(db, p, r, m, now);
    case ResumeRun(p, r, req, now) => ResumeRuns(db, p, r, req, now);
    case CommandArtifact(p, id, req) => CommandRuns(db, p, id, req);
    case _ => {}
  }

  lemma RunFound(db: Db, p: Principal, r: string)
    ensures RunAccess(db, p, r).Ok? ==> r in db.runs && RunAccess(db, p, r).value == db.runs[r]
                                        && db.runs[r].tenant == p.tenant && db.runs[r].trip in db.trips && db.trips[db.runs[r].trip].tenant == p.tenant
  {
  }

  lemma CreateRunRuns(db: Db, p: Principal, r: string, req: RunRequest)
    ensures RunsStep(db, Committed(db, CreateRunTx(db, p, r, req)))
  {
  }

  lemma ClaimRuns(db: Db, p: Principal, r: string, owner: string, duration: int, now: Time)
    ensures RunsStep(db, Committed(db, ClaimRunTx(db, p, r, owner, duration, now)))
  {
  }

  lemma RenewRuns(db: Db, p: Principal, l: RunLease, duration: int, now: Time)
    ensures RunsStep(db, Committed(db, RenewRunTx(db, p, l, duration, now)))
  {
  }

  lemma ReleaseRuns(db: Db, p: Principal, l: RunLease)
    ensures RunsStep(db, Committed(db, ReleaseRunTx(db, p, l)))
  {
  }

  lemma MutateRuns(db: Db, p: Principal, r: string, m: Mutation, now: Time)
    ensures RunsStep(db, Committed(db, MutateRunTx(db, p, r, m, now)))
  {
  }

  lemma ResumeRuns(db: Db, p: Principal, r: string, req: ResumeRequest, now: Time)
    ensures RunsStep(db, Committed(db, ResumeRunTx(db, p, r, req, now)))
  {
  }

  lemma CommandRuns(db: Db, p: Principal, a: string, req: CommandRequest)
    ensures RunsStep(db, Committed(db, CommandArtifactTx(db, p, a, req)))
  {
  }

  ghost predicate LeasesOk(db: Db) {
    forall r :: r in db.runs ==> LeaseOk(db.runs[r])
  }

  /** In every reachable state a run holds a lease only while it is queued or running. */
  lemma {:induction false} LeaseOnlyWhileActive(actions: seq<Action>)
    ensures LeasesOk(After(EMPTY, actions))
  {
    if actions != [] {
      hide Next, LeaseOk;
      var before := After(EMPTY, actions[..|actions| - 1]);
      LeaseOnlyWhileActive(actions[..|actions| - 1]);
      NextRuns(before, actions[|actions| - 1]);
    }
  }

  /** No lease numbered `n` or less is, or ever again will be, the current one of run `r`. */
  predicate Lost(db: Db, r: string, n: int) {
    r in db.runs && (db.runs[r].attempt > n || (db.runs[r].attempt == n && db.runs[r].leaseOwner.None?))
  }

  lemma {:induction false} LostForever(db: Db, actions: seq<Action>, r: string, n: int)
    requires Lost(db, r, n)
    ensures Lost(After(db, actions), r, n)
  {
    if actions != [] {
      hide Next, LeaseOk;
      var before := After(db, actions[..|actions| - 1]);
      LostForever(db, actions[..|actions| - 1], r, n);
      NextRuns(before, actions[|actions| - 1]);
    }
  }

  /** Every call that carries the lease `l` is refused and changes nothing. */
  ghost predicate Refused(db: Db, l: RunLease) {
    && (forall p, r, m: Mutation, now :: m.lease == Some(l) ==> MutateRunTx(db, p, r, m, now).Err?)
    && (forall p, a, req: ArtifactRequest, now :: req.lease == Some(l) ==> CreateArtifactTx(db, p, a, req, now).Err?)
    && (forall p, duration, now :: Committed(db, RenewRunTx(db, p, l, duration, now)) == db)
    && (forall p :: Committed(db, ReleaseRunTx(db, p, l)) == db)
  }

  lemma LostIsRefused(db: Db, l: RunLease)
    requires Lost(db, l.run, l.attempt)
    ensures Refused(db, l)
  {
  }

  /**
   * Once a run is canceled, made to wait or finished, every lease granted so far is refused in all
   * later states, whatever happens in between and whatever the clocks read.
   */
  lemma StoppedRunFencesItsWorkers(db: Db, p: Principal, r: string, m: Mutation, now: Time, actions: seq<Action>, l: RunLease)
    requires MutateRunTx(db, p, r, m, now).Ok? && DropsLease(m.state)
    requires l.run == r && r in db.runs && l.attempt <= db.runs[r].attempt
    ensures Refused(After(Next(db, MutateRun(p, r, m, now)), actions), l)
  {
    var next := Next(db, MutateRun(p, r, m, now));
    LostForever(next, actions, r, db.runs[r].attempt);
    LostIsRefused(After(next, actions), l);
  }

  /** A granted lease carries a number above every earlier one, and refuses all of those from then on. */
  lemma ClaimFencesEarlierLeases(
      db: Db, p: Principal, r: string, owner: string, duration: int, now: Time, actions: seq<Action>, l: RunLease)
    requires var c := ClaimRunTx(db, p, r, owner, duration, now); c.Ok? && c.value.out.Some?
    requires l.run == r && r in db.runs && l.attempt <= db.runs[r].attempt
    ensures ClaimRunTx(db, p, r, owner, duration, now).value.out.value.attempt == db.runs[r].attempt + 1
    ensures Refused(After(Next(db, ClaimRun(p, r, owner, duration, now)), actions), l)
  {
    RunFound(db, p, r);
    var next := Next(db, ClaimRun(p, r, owner, duration, now));
    assert Lost(next, r, l.attempt) by {
      hide RunAccess, Active, LeaseRequestOk;
    }
    LostForever(next, actions, r, l.attempt);
    LostIsRefused(After(next, actions), l);
  }

  // ---------------------------------------------------------------------------------------------
  // Events and outbox rows of a run

  /** The outbox rows of a run: its events in order, those numbered in `dispatched` followed by a dispatch. */
  function Ledger(es: seq<Event>, dispatched: set<int>, r: string, run: Run): seq<OutboxRow> {
    if es == [] then []
    else
      var e := es[|es| - 1];
      Ledger(es[..|es| - 1], dispatched, r, run)
      + [RunNote(run.tenant, e)]
      + if e.number in dispatched then [DispatchNote(run.tenant, run.actor, run.trip, r, e.number)] else []
  }

  predicate Numbered(es: seq<Event>) {
    forall i :: 0 <= i < |es| ==> es[i].number == i + 1
  }

  ghost predicate LedgerOk(db: Db, r: string, dispatched: set<int>) {
    var es := EventsOf(db.events, r);
    var rows := RowsOf(db.outbox, r);
    if r in db.runs then
      && |es| == db.runs[r].control
      && Numbered(es)
      && (forall n :: n in dispatched ==> 1 <= n <= |es|)
      && rows == Ledger(es, dispatched, r, db.runs[r])
    else es == [] && rows == [] && dispatched == {}
  }

  /** The dispatch a transaction owes: one for an accepted creation, one for an accepted resume. */
  function Owed(db: Db, a: Action, r: string): set<int> {
    match a
    case CreateRun(p, id, req) =>
      var c := CreateRunTx(db, p, id, req);
      if id == r && c.Ok? && !c.value.out.replayed then {1} else {}
    case ResumeRun(p, id, req, now) =>
      var c := ResumeRunTx(db, p, id, req, now);
      if id == r && c.Ok? && !c.value.out.replayed then {c.value.out.run.control} else {}
    case _ => {}
  }

  function Dispatched(db: Db, actions: seq<Action>, r: string): set<int> {
    if actions == [] then {}
    else
      var init := actions[..|actions| - 1];
      Dispatched(db, init, r) + Owed(After(db, init), actions[|actions| - 1], r)
  }

  lemma {:induction false} LedgerIgnores(es: seq<Event>, dispatched: set<int>, n: int, r: string, run: Run, next: Run)
    requires forall i :: 0 <= i < |es| ==> es[i].number != n
    requires next.tenant == run.tenant && next.actor == run.actor && next.trip == run.trip
    ensures Ledger(es, dispatched + {n}, r, next) == Ledger(es, dispatched, r, run)
  {
    if es != [] {
      LedgerIgnores(es[..|es| - 1], dispatched, n, r, run, next);
    }
  }

  lemma {:induction false} LedgerSameRun(es: seq<Event>, dispatched: set<int>, r: string, run: Run, next: Run)
    requires next.tenant == run.tenant && next.actor == run.actor && next.trip == run.trip
    ensures Ledger(es, dispatched, r, next) == Ledger(es, dispatched, r, run)
  {
    if es != [] {
      LedgerSameRun(es[..|es| - 1], dispatched, r, run, next);
    }
  }

  /** A transaction that emits no event for `r`. */
  ghost predicate Quiet(db: Db, next: Db, r: string) {
    && (r in next.runs <==> r in db.runs)
    && (r in db.runs ==> RunStep(db.runs[r], next.runs[r]) && next.runs[r].control == db.runs[r].control)
    && EventsOf(next.events, r) == EventsOf(db.events, r)
    && RowsOf(next.outbox, r) == RowsOf(db.outbox, r)
  }

  lemma QuietKeepsLedger(db: Db, next: Db, r: string, dispatched: set<int>)
    requires LedgerOk(db, r, dispatched) && Quiet(db, next, r)
    ensures LedgerOk(next, r, dispatched)
  {
    hide EventsOf, RowsOf, LeaseOk;
    if r in db.runs {
      LedgerSameRun(EventsOf(db.events, r), dispatched, r, db.runs[r], next.runs[r]);
    }
  }

  function ControlOf(db: Db, r: string): int {
    if r in db.runs then db.runs[r].control else 0
  }

  function DispatchRows(r: string, run: Run, owed: bool): seq<OutboxRow> {
    if owed then [DispatchOf(r, run)] else []
  }

  /** A transaction that emits the next event for `r`, followed by a dispatch when one is owed. */
  ghost predicate Emits(db: Db, next: Db, r: string, e: Event, owed: bool) {
    && r in next.runs && e.run == r
    && (r in db.runs ==> RunStep(db.runs[r], next.runs[r]))
    && next.runs[r].control == ControlOf(db, r) + 1 == e.number
    && EventsOf(next.events, r) == EventsOf(db.events, r) + [e]
    && RowsOf(next.outbox, r) == RowsOf(db.outbox, r) + [RunNote(next.runs[r].tenant, e)] + DispatchRows(r, next.runs[r], owed)
  }

  lemma EmitExtendsLedger(db: Db, next: Db, r: string, dispatched: set<int>, e: Event, owed: bool)
    requires LedgerOk(db, r, dispatched) && Emits(db, next, r, e, owed)
    ensures LedgerOk(next, r, if owed then dispatched + {e.number} else dispatched)
  {
    hide EventsOf, RowsOf, LeaseOk;
    var es := EventsOf(db.events, r);
    var run := next.runs[r];
    var more := if owed then dispatched + {e.number} else dispatched;
    assert (es + [e])[..|es|] == es;
    if r in db.runs {
      if owed {
        LedgerIgnores(es, dispatched, e.number, r, db.runs[r], run);
      } else {
        LedgerSameRun(es, dispatched, r, db.runs[r], run);
      }
    }
    assert Ledger(es, more, r, run) == RowsOf(db.outbox, r);
    assert (e.number in more) == owed;
  }

  lemma SideNoteIsQuiet(db: Db, next: Db, r: string, row: OutboxRow)
    requires next.runs == db.runs && next.events == db.events && !OfRun(row, r)
    requires next.outbox == db.outbox || next.outbox == db.outbox + [row]
    ensures Quiet(db, next, r)
  {
  }

  lemma RunUpdateIsQuiet(db: Db, next: Db, r: string)
    requires RunsStep(db, next) && next.runs.Keys == db.runs.Keys && next.events == db.events && next.outbox == db.outbox
    requires r in db.runs ==> next.runs[r].control == db.runs[r].control
    ensures Quiet(db, next, r)
  {
  }

  lemma EmitEffect(db: Db, next: Db, id: string, run: Run, e: Event, owed: bool, r: string)
    requires e.run == id && run.control == ControlOf(db, id) + 1 == e.number
    requires next.runs == db.runs[id := run] && next.events == db.events + [e]
    requires next.outbox == db.outbox + [RunNote(run.tenant, e)] + DispatchRows(id, run, owed)
    requires id in db.runs ==> RunStep(db.runs[id], run)
    ensures if r == id then Emits(db, next, r, e, owed) else Quiet(db, next, r)
  {
    hide EventsOf, RowsOf, LeaseOk;
    EventsAppend(db.events, e, r);
    RowsAppend(db.outbox, RunNote(run.tenant, e), r);
    if owed {
      RowsAppend(db.outbox + [RunNote(run.tenant, e)], DispatchOf(id, run), r);
    } else {
      assert next.outbox == db.outbox + [RunNote(run.tenant, e)];
    }
  }

  lemma CreateRunLedger(db: Db, p: Principal, id: string, req: RunRequest, r: string, dispatched: set<int>)
    requires LedgerOk(db, r, dispatched)
    ensures LedgerOk(Next(db, CreateRun(p, id, req)), r, dispatched + Owed(db, CreateRun(p, id, req), r))
  {
    hide TripAccess, RunAccess, CurrentArtifact, BaseConflict, LedgerOk, EventsOf, RowsOf;
    var c := CreateRunTx(db, p, id, req);
    var next := Next(db, CreateRun(p, id, req));
    if c.Ok? && !c.value.out.replayed {
      var e := Event(id, 1, "run.accepted", "");
      EmitEffect(db, next, id, NewRun(p, req), e, true, r);
      if r == id {
        EmitExtendsLedger(db, next, r, dispatched, e, true);
      } else {
        QuietKeepsLedger(db, next, r, dispatched);
        assert dispatched + {} == dispatched;
      }
    } else {
      assert next == db;
      assert dispatched + {} == dispatched;
    }
  }

  lemma MutateRunLedger(db: Db, p: Principal, id: string, m: Mutation, now: Time, r: string, dispatched: set<int>)
    requires LedgerOk(db, r, dispatched)
    ensures LedgerOk(Next(db, MutateRun(p, id, m, now)), r, dispatched)
  {
    hide TripAccess, RunAccess, LedgerOk, EventsOf, RowsOf, SetStatus, Supersede, OwnsVersion, LeaseHeld, Mutated;
    var c := MutateRunTx(db, p, id, m, now);
    var next := Next(db, MutateRun(p, id, m, now));
    if c.Ok? {
      RunFound(db, p, id);
      MutatedStep(db.runs[id], m);
      var run := Mutated(db.runs[id], m);
      var e := Event(id, run.control, m.kind, m.data);
      EmitEffect(db, next, id, run, e, false, r);
      if r == id {
        EmitExtendsLedger(db, next, r, dispatched, e, false);
      } else {
        QuietKeepsLedger(db, next, r, dispatched);
      }
    }
  }

  lemma MutatedStep(run: Run, m: Mutation)
    ensures RunStep(run, Mutated(run, m)) && Mutated(run, m).control == run.control + 1
  {
  }

  lemma ResumeRunLedger(db: Db, p: Principal, id: string, req: ResumeRequest, now: Time, r: string, dispatched: set<int>)
    requires LedgerOk(db, r, dispatched)
    ensures LedgerOk(Next(db, ResumeRun(p, id, req, now)), r, dispatched + Owed(db, ResumeRun(p, id, req, now), r))
  {
    hide TripAccess, RunAccess, LedgerOk, EventsOf, RowsOf, LeaseOk;
    var c := ResumeRunTx(db, p, id, req, now);
    var next := Next(db, ResumeRun(p, id, req, now));
    if c.Ok? && !c.value.out.replayed {
      RunFound(db, p, id);
      var run := c.value.out.run;
      ResumedStep(db.runs[id], req, now);
      var e := Event(id, run.control, "run.lifecycle_changed", "INPUT_SUPPLIED");
      EmitEffect(db, next, id, run, e, true, r);
      if r == id {
        EmitExtendsLedger(db, next, r, dispatched, e, true);
      } else {
        QuietKeepsLedger(db, next, r, dispatched);
        assert dispatched + {} == dispatched;
      }
    } else {
      assert next == db;
      assert dispatched + {} == dispatched;
    }
  }

  lemma ResumedStep(run: Run, req: ResumeRequest, now: Time)
    requires ResumeConflict(run, req, now).None?
    ensures RunStep(run, Resumed(run, req)) && Resumed(run, req).control == run.control + 1
  {
  }

  lemma LeaseActionQuiet(db: Db, a: Action, r: string)
    requires a.ClaimRun? || a.RenewRun? || a.ReleaseRun?
    ensures Quiet(db, Next(db, a), r)
  {
    hide RunAccess, EventsOf, RowsOf, RunsStep, LeaseRequestOk, LeaseHeld;
    NextRuns(db, a);
    RunFound(db, a.p, if a.ClaimRun? then a.run else a.lease.run);
    RunUpdateIsQuiet(db, Next(db, a), r);
  }

  lemma CommandQuiet(db: Db, p: Principal, a: string, req: CommandRequest, r: string)
    ensures Quiet(db, Next(db, CommandArtifact(p, a, req)), r)
  {
    hide SetStatus, SupersedeTrip, Registered, FindJournal, EventsOf, RowsOf;
    var c := CommandArtifactTx(db, p, a, req);
    SideNoteIsQuiet(db, Next(db, CommandArtifact(p, a, req)), r,
                    if c.Ok? then CommandNote(p, a, req, c.value.out.artifact.id.version) else TripNote("", "", ""));
  }

  lemma ArtifactWriteQuiet(db: Db, a: Action, r: string)
    requires a.CreateArtifact? || a.PatchArtifact?
    ensures Quiet(db, Next(db, a), r)
  {
    hide TripAccess, RunAccess, LeaseHeld, Registered, EventsOf, RowsOf;
    var row :=
      if a.CreateArtifact? then ArtifactNote(a.p.tenant, a.artifact, "artifact.created", 1, a.artifactRequest.row.status, None)
      else ArtifactNote(a.p.tenant, a.artifact, "artifact.version_created", a.base + 1, Candidate, None);
    SideNoteIsQuiet(db, Next(db, a), r, row);
  }

  lemma TripActionQuiet(db: Db, a: Action, r: string)
    requires a.CreateTrip? || a.UpdateTrip? || a.SetMember?
    ensures Quiet(db, Next(db, a), r)
  {
    hide TripAccess, EventsOf, RowsOf;
    var kind := if a.CreateTrip? then "trip.created" else if a.UpdateTrip? then "trip.updated" else "trip.member";
    SideNoteIsQuiet(db, Next(db, a), r, TripNote(a.p.tenant, a.trip, kind));
  }

  lemma NextLedger(db: Db, a: Action, r: string, dispatched: set<int>)
    requires LedgerOk(db, r, dispatched)
    ensures LedgerOk(Next(db, a), r, dispatched + Owed(db, a, r))
  {
    hide Next, LedgerOk, CreateRunTx, ResumeRunTx, Quiet;
    if a.CreateRun? {
      CreateRunLedger(db, a.p, a.run, a.runRequest, r, dispatched);
    } else if a.ResumeRun? {
      ResumeRunLedger(db, a.p, a.run, a.resume, a.now, r, dispatched);
    } else {
      assert dispatched + Owed(db, a, r) == dispatched;
      if a.MutateRun? {
        MutateRunLedger(db, a.p, a.run, a.mutation, a.now, r, dispatched);
      } else {
        if a.ClaimRun? || a.RenewRun? || a.ReleaseRun? {
          LeaseActionQuiet(db, a, r);
        } else if a.CreateArtifact? || a.PatchArtifact? {
          ArtifactWriteQuiet(db, a, r);
        } else if a.CommandArtifact? {
          CommandQuiet(db, a.p, a.artifact, a.command, r);
        } else {
          TripActionQuiet(db, a, r);
        }
        QuietKeepsLedger(db, Next(db, a), r, dispatched);
      }
    }
  }

  /**
   * In every reachable state the public events of a run are numbered 1 to its control version, and
   * its outbox rows are those events in the same order, with one dispatch right after the event of
   * its creation and of each accepted resume.
   */
  lemma {:induction false} EventsAndOutboxAgree(actions: seq<Action>, r: string)
    ensures LedgerOk(After(EMPTY, actions), r, Dispatched(EMPTY, actions, r))
  {
    if actions != [] {
      hide Next, LedgerOk, Owed;
      EventsAndOutboxAgree(actions[..|actions| - 1], r);
      NextLedger(After(EMPTY, actions[..|actions| - 1]), actions[|actions| - 1], r, Dispatched(EMPTY, actions[..|actions| - 1], r));
    }
  }
}

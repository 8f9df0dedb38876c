/**
 * What the transactions on runs promise their callers: who may use them, what they leave in the
 * tables, and that a repeated request is answered by the first one.  The statements speak of the
 * tables before and after a transaction, not of how it computes them.
 */
module PlatformRuns {
  import opened Common
  import opened PlatformTypes
  import opened PlatformStore
  import opened PlatformProtocol
  import PlatformArtifacts

  // ---------------------------------------------------------------------------------------------
  // Authorization

  predicate Belongs(db: Db, p: Principal, t: string) {
    t in db.trips && db.trips[t].tenant == p.tenant
  }

  /** The owner, an administrator of the tenant, or any member. */
  predicate MayRead(db: Db, p: Principal, t: string) {
    Belongs(db, p, t) && (db.trips[t].owner == p.user || p.admin || p.user in db.trips[t].members)
  }

  /** Of the members only editors. */
  predicate MayWrite(db: Db, p: Principal, t: string) {
    && Belongs(db, p, t)
    && (|| db.trips[t].owner == p.user || p.admin
        || (p.user in db.trips[t].members && db.trips[t].members[p.user] == Editor))
  }

  lemma AccessIff(db: Db, p: Principal, t: string, write: bool)
    ensures var access := TripAccess(db, p, t, write);
            && (access.Ok? <==> if write then MayWrite(db, p, t) else MayRead(db, p, t))
            && (access.Ok? ==> access.value == db.trips[t])
            && (access == Err(NotFound) <==> !Belongs(db, p, t))
            && (access.Err? ==> access.error == NotFound || access.error == Forbidden)
  {
  }

  lemma RunAccessIff(db: Db, p: Principal, r: string)
    ensures RunAccess(db, p, r).Ok? <==> r in db.runs && db.runs[r].tenant == p.tenant && MayRead(db, p, db.runs[r].trip)
    ensures RunAccess(db, p, r).Ok? ==> RunAccess(db, p, r).value == db.runs[r]
  {
    if r in db.runs {
      AccessIff(db, p, db.runs[r].trip, false);
    }
  }

  predicate Accepted(db: Db, a: Action) {
    match a
    case CreateTrip(p, t) => CreateTripTx(db, p, t).Ok?
    case UpdateTrip(p, t, active) => UpdateTripTx(db, p, t, active).Ok?
    case SetMember(p, t, user, editor) => MemberTx(db, p, t, user, editor).Ok?
    case CreateRun(p, r, req) => CreateRunTx(db, p, r, req).Ok?
    case ClaimRun(p, r, owner, duration, now) => ClaimRunTx(db, p, r, owner, duration, now).Ok?
    case RenewRun(p, l, duration, now) => RenewRunTx(db, p, l, duration, now).Ok?
    case ReleaseRun(p, l) => ReleaseRunTx(db, p, l).Ok?
    case MutateRun(p, r, m, now) => MutateRunTx(db, p, r, m, now).Ok?
    case ResumeRun(p, r, req, now) => ResumeRunTx(db, p, r, req, now).Ok?
    case CreateArtifact(p, id, req, now) => CreateArtifactTx(db, p, id, req, now).Ok?
    case PatchArtifact(p, id, base, content) => PatchArtifactTx(db, p, id, base, content).Ok?
    case CommandArtifact(p, id, req) => CommandArtifactTx(db, p, id, req).Ok?
  }

  predicate ReadsRun(db: Db, p: Principal, r: string) {
    r in db.runs && db.runs[r].tenant == p.tenant && MayRead(db, p, db.runs[r].trip)
  }

  predicate WritesArtifact(db: Db, p: Principal, a: string) {
    a in db.artifacts && db.artifacts[a].tenant == p.tenant && MayWrite(db, p, db.artifacts[a].trip)
  }

  /** The rights that the action needs. */
  predicate Authorized(db: Db, a: Action) {
    match a
    case CreateTrip(_, _) => true
    case UpdateTrip(p, t, _) => MayWrite(db, p, t)
    case SetMember(p, t, user, _) => MayWrite(db, p, t) && (db.trips[t].owner == p.user || p.admin) && user != db.trips[t].owner
    case CreateRun(p, _, req) => MayWrite(db, p, req.trip)
    case ClaimRun(p, r, _, _, _) => ReadsRun(db, p, r)
    case RenewRun(p, l, _, _) => ReadsRun(db, p, l.run)
    case ReleaseRun(p, l) => ReadsRun(db, p, l.run)
    case MutateRun(p, r, m, _) => ReadsRun(db, p, r) && (m.result.Some? ==> MayWrite(db, p, db.runs[r].trip))
    case ResumeRun(p, r, _, _) => ReadsRun(db, p, r) && MayWrite(db, p, db.runs[r].trip)
    case CreateArtifact(p, _, req, _) => MayWrite(db, p, req.trip)
    case PatchArtifact(p, id, _, _) => WritesArtifact(db, p, id)
    case CommandArtifact(p, id, _) => WritesArtifact(db, p, id)
  }

  /** No transaction is accepted from somebody without the rights for it, and a refused one changes nothing. */
  lemma AcceptedIsAuthorized(db: Db, a: Action)
    ensures Accepted(db, a) ==> Authorized(db, a)
    ensures !Accepted(db, a) ==> Next(db, a) == db
  {
    hide TripAccess, RunAccess, CurrentArtifact, BaseConflict, LeaseHeld, Registered, FindJournal, SetStatus, SupersedeTrip, PublishResult, MayRead, MayWrite;
    match a
    case UpdateTrip(p, t, _) => AccessIff(db, p, t, true);
    case SetMember(p, t, _, _) => AccessIff(db, p, t, true);
    case CreateRun(p, _, req) => AccessIff(db, p, req.trip, true);
    case ClaimRun(p, r, _, _, _) => RunAccessIff(db, p, r);
    case RenewRun(p, l, _, _) => RunAccessIff(db, p, l.run);
    case ReleaseRun(p, l) => RunAccessIff(db, p, l.run);
    case MutateRun(p, r, _, _) =>
      RunAccessIff(db, p, r);
      if r in db.runs {
        AccessIff(db, p, db.runs[r].trip, true);
      }
    case ResumeRun(p, r, _, _) =>
      RunAccessIff(db, p, r);
      if r in db.runs {
        AccessIff(db, p, db.runs[r].trip, true);
      }
    case CreateArtifact(p, _, req, _) => AccessIff(db, p, req.trip, true);
    case PatchArtifact(p, id, _, _) => ArtifactWriter(db, p, id);
    case CommandArtifact(p, id, _) => ArtifactWriter(db, p, id);
    case _ =>
  }

  lemma ArtifactWriter(db: Db, p: Principal, a: string)
    ensures ArtifactAccess(db, p, a, None, true).Ok? ==> WritesArtifact(db, p, a)
  {
    if a in db.artifacts {
      AccessIff(db, p, db.artifacts[a].trip, true);
    }
  }

  // ---------------------------------------------------------------------------------------------
  // Trips and members

  /** A change of members sets or removes exactly the named user, and leaves the trip otherwise as it was. */
  lemma MemberEffect(db: Db, p: Principal, t: string, user: string, editor: Option<bool>)
    requires MemberTx(db, p, t, user, editor).Ok?
    ensures var next := Next(db, SetMember(p, t, user, editor));
            && t in db.trips && next.trips == db.trips[t := db.trips[t].(members := next.trips[t].members)]
            && next.runs == db.runs && next.artifacts == db.artifacts && next.keys == db.keys && next.events == db.events
            && (forall u :: u != user ==> (u in next.trips[t].members <==> u in db.trips[t].members))
            && (forall u :: u != user && u in db.trips[t].members ==> next.trips[t].members[u] == db.trips[t].members[u])
            && (user in next.trips[t].members <==> editor.Some?)
            && (editor.Some? ==> next.trips[t].members[user] == if editor.value then Editor else Viewer)
            && (editor.None? ==> user in db.trips[t].members)
  {
    AccessIff(db, p, t, true);
    hide TripAccess;
  }

  /** A created trip is active, at version 1, owned by its creator, and points to nothing. */
  lemma TripCreated(db: Db, p: Principal, t: string)
    ensures CreateTripTx(db, p, t).Ok? <==> t !in db.trips
    ensures t !in db.trips ==>
              var next := Next(db, CreateTrip(p, t));
              && next.trips == db.trips[t := Trip(p.tenant, p.user, map[p.user := Owner], true, 1, None)]
              && next.runs == db.runs && next.artifacts == db.artifacts && next.keys == db.keys
  {
  }

  lemma TripEffect(db: Db, p: Principal, t: string, active: Option<bool>)
    requires UpdateTripTx(db, p, t, active).Ok?
    ensures var next := Next(db, UpdateTrip(p, t, active));
            && t in db.trips && next.trips.Keys == db.trips.Keys && forall u :: u in db.trips && u != t ==> next.trips[u] == db.trips[u]
    ensures var was, after := db.trips[t], Next(db, UpdateTrip(p, t, active)).trips[t];
            && after.version == was.version + 1 && after.active == (if active.Some? then active.value else was.active)
            && after.tenant == was.tenant && after.owner == was.owner && after.members == was.members && after.pointer == was.pointer
  {
    AccessIff(db, p, t, true);
    hide TripAccess;
  }

  // ---------------------------------------------------------------------------------------------
  // Creating a run

  /** The trip's current artifact is a published snapshot. */
  predicate HasPlan(db: Db, t: string)
    requires t in db.trips
  {
    var pointer := db.trips[t].pointer;
    && pointer.Some? && pointer.value.artifact in db.artifacts
    && 1 <= pointer.value.version <= |db.artifacts[pointer.value.artifact].versions|
    && db.artifacts[pointer.value.artifact].kind == SNAPSHOT
    && db.artifacts[pointer.value.artifact].versions[pointer.value.version - 1].status == Published
  }

  /** Planning needs a trip without a plan; replanning names exactly the current plan. */
  predicate BaseFits(db: Db, req: RunRequest)
    requires req.trip in db.trips
  {
    && (req.command.kind.Plan? ==> !HasPlan(db, req.trip))
    && (req.command.kind.Replan? ==>
          && HasPlan(db, req.trip)
          && req.baseId == Some(db.trips[req.trip].pointer.value.artifact)
          && req.baseVersion == Some(db.trips[req.trip].pointer.value.version))
  }

  /** The pointer of the trip, if set, names a version that its readers can see. */
  predicate PointerStored(db: Db, t: string)
    requires t in db.trips
  {
    db.trips[t].pointer.Some? ==> OwnsVersion(db, db.trips[t].tenant, t, db.trips[t].pointer.value)
  }

  lemma BaseConflictIff(db: Db, p: Principal, req: RunRequest)
    requires MayWrite(db, p, req.trip) && PointerStored(db, req.trip)
    ensures var current := CurrentArtifact(db, p, db.trips[req.trip]);
            current.Ok? && (BaseConflict(db.trips[req.trip], current.value, req).None? <==> BaseFits(db, req))
  {
    AccessIff(db, p, req.trip, false);
    hide TripAccess;
  }

  /** A new run is created exactly by a writer of an active trip, under an unused key and id, on a fitting base. */
  lemma CreationAcceptedIff(db: Db, p: Principal, r: string, req: RunRequest)
    requires req.trip in db.trips ==> PointerStored(db, req.trip)
    ensures var c := CreateRunTx(db, p, r, req);
            (c.Ok? && !c.value.out.replayed) <==>
              && MayWrite(db, p, req.trip) && db.trips[req.trip].active
              && IdemKey(p.tenant, p.user, RunCreate, req.key) !in db.keys
              && BaseFits(db, req) && r !in db.runs
  {
    hide TripAccess, RunAccess, CurrentArtifact, BaseConflict, BaseFits, MayWrite, PointerStored, InsertRun;
    AccessIff(db, p, req.trip, true);
    InsertIsNew(db, p, r, req);
    if MayWrite(db, p, req.trip) {
      BaseConflictIff(db, p, req);
    }
  }

  /** The same in every reachable state, where all pointers are stored. */
  lemma NewRunsAreAcceptedIff(actions: seq<Action>, p: Principal, r: string, req: RunRequest)
    ensures var db := After(EMPTY, actions); var c := CreateRunTx(db, p, r, req);
            (c.Ok? && !c.value.out.replayed) <==>
              && MayWrite(db, p, req.trip) && db.trips[req.trip].active
              && IdemKey(p.tenant, p.user, RunCreate, req.key) !in db.keys
              && BaseFits(db, req) && r !in db.runs
  {
    hide After, CreateRunTx, MayWrite, BaseFits;
    PlatformArtifacts.PointersAlwaysPublished(actions);
    CreationAcceptedIff(After(EMPTY, actions), p, r, req);
  }

  lemma InsertIsNew(db: Db, p: Principal, r: string, req: RunRequest)
    ensures !InsertRun(db, p, r, req).out.replayed
  {
  }

  /** A created run is queued with its command, for its requester, and its key names it. */
  lemma CreationEffect(db: Db, p: Principal, r: string, req: RunRequest)
    requires var c := CreateRunTx(db, p, r, req); c.Ok? && !c.value.out.replayed
    ensures var next := Next(db, CreateRun(p, r, req)); var c := CreateRunTx(db, p, r, req).value.out;
            && r !in db.runs && r in next.runs && c.id == r && c.run == next.runs[r]
            && (forall s :: s in db.runs ==> s in next.runs && next.runs[s] == db.runs[s])
            && (forall s :: s in next.runs ==> s == r || s in db.runs)
            && next.keys == db.keys[IdemKey(p.tenant, p.user, RunCreate, req.key) := IdemRow(req.requestHash, r)]
            && next.trips == db.trips && next.artifacts == db.artifacts && next.events == db.events + [Event(r, 1, "run.accepted", "")]
    ensures var run := Next(db, CreateRun(p, r, req)).runs[r];
            && run.trip == req.trip && run.tenant == p.tenant && run.actor == p.user
            && run.state == Queued && run.phase == "accepted" && run.control == 1 && run.command == req.command
            && run.pending.None? && run.result.None? && run.errorCode.None?
            && run.leaseOwner.None? && run.leaseUntil.None? && run.attempt == 0
  {
    hide TripAccess, RunAccess, CurrentArtifact, BaseConflict;
  }

  // ---------------------------------------------------------------------------------------------
  // Idempotency keys

  /** No transaction changes or removes a key. */
  lemma NextKeys(db: Db, a: Action, k: IdemKey)
    requires k in db.keys
    ensures k in Next(db, a).keys && Next(db, a).keys[k] == db.keys[k]
  {
    hide TripAccess, RunAccess, CurrentArtifact, BaseConflict, LeaseHeld, Registered, FindJournal, SetStatus, SupersedeTrip, Supersede, OwnsVersion;
    match a
    case CommandArtifact(p, id, req) => CommandKeepsKeys(db, p, id, req);
    case _ =>
  }

  lemma CommandKeepsKeys(db: Db, p: Principal, a: string, req: CommandRequest)
    ensures Next(db, CommandArtifact(p, a, req)).keys == db.keys
  {
    hide SetStatus, SupersedeTrip, Registered, FindJournal;
  }

  lemma {:induction false} KeysForever(db: Db, actions: seq<Action>, k: IdemKey)
    requires k in db.keys
    ensures k in After(db, actions).keys && After(db, actions).keys[k] == db.keys[k]
  {
    if actions != [] {
      hide Next;
      KeysForever(db, actions[..|actions| - 1], k);
      NextKeys(After(db, actions[..|actions| - 1]), actions[|actions| - 1], k);
    }
  }

  lemma {:induction false} RunsForever(db: Db, actions: seq<Action>, r: string)
    requires r in db.runs
    ensures r in After(db, actions).runs
    ensures After(db, actions).runs[r].trip == db.runs[r].trip && After(db, actions).runs[r].tenant == db.runs[r].tenant
    ensures After(db, actions).runs[r].actor == db.runs[r].actor
  {
    if actions != [] {
      hide Next, LeaseOk;
      RunsForever(db, actions[..|actions| - 1], r);
      NextRuns(After(db, actions[..|actions| - 1]), actions[|actions| - 1]);
    }
  }

  /** What an accepted creation leaves for repetitions: its key names the run it answered with. */
  lemma CreationKeyed(db: Db, p: Principal, r: string, req: RunRequest)
    requires CreateRunTx(db, p, r, req).Ok?
    ensures var next := Next(db, CreateRun(p, r, req)); var c := CreateRunTx(db, p, r, req).value.out;
            var key := IdemKey(p.tenant, p.user, RunCreate, req.key);
            && key in next.keys && next.keys[key] == IdemRow(req.requestHash, c.id)
            && c.id in next.runs && next.runs[c.id] == c.run && c.run.tenant == p.tenant
            && (!c.replayed ==> c.run.trip == req.trip)
  {
    hide TripAccess, RunAccess, CurrentArtifact, BaseConflict;
    RunFound(db, p, CreateRunTx(db, p, r, req).value.out.id);
  }

  /** How a creation under a key that is already used is answered, whatever else it asks for. */
  lemma UsedKeyAnswers(db: Db, p: Principal, r: string, req: RunRequest)
    requires IdemKey(p.tenant, p.user, RunCreate, req.key) in db.keys
    ensures var c := CreateRunTx(db, p, r, req); var row := db.keys[IdemKey(p.tenant, p.user, RunCreate, req.key)];
            if !MayWrite(db, p, req.trip) then c == Err(if Belongs(db, p, req.trip) then Forbidden else NotFound)
            else if !db.trips[req.trip].active then c == Err(VersionConflict(db.trips[req.trip].version))
            else if row.requestHash != req.requestHash then c == Err(IdempotencyConflict)
            else if ReadsRun(db, p, row.run) then c == Ok(Commit(db, RunResult(row.run, db.runs[row.run], true)))
            else c.Err?
  {
    AccessIff(db, p, req.trip, true);
    RunAccessIff(db, p, db.keys[IdemKey(p.tenant, p.user, RunCreate, req.key)].run);
    hide TripAccess, RunAccess, MayRead;
  }

  /**
   * Repeating an accepted creation, after any other transactions and under whatever new id, gives
   * the first run as it is then and changes nothing, as long as the trip is active and writable; the
   * same key with another hash is a conflict.  No second run is ever created under the key.
   */
  lemma RepeatedCreationReplays(db: Db, p: Principal, r: string, req: RunRequest, actions: seq<Action>, s: string, again: RunRequest)
    requires CreateRunTx(db, p, r, req).Ok? && again.key == req.key
    ensures var later := After(Next(db, CreateRun(p, r, req)), actions);
            var first := CreateRunTx(db, p, r, req).value.out;
            var c := CreateRunTx(later, p, s, again);
            && first.id in later.runs
            && (c.Ok? ==> c.value.out == RunResult(first.id, later.runs[first.id], true) && c.value.db == later)
            && (MayWrite(later, p, again.trip) && later.trips[again.trip].active && again.requestHash != req.requestHash ==>
                  c == Err(IdempotencyConflict))
            && (!first.replayed && again.trip == req.trip && again.requestHash == req.requestHash ==>
                  (c.Ok? <==> MayWrite(later, p, req.trip) && later.trips[req.trip].active))
  {
    var next := Next(db, CreateRun(p, r, req));
    var later := After(next, actions);
    CreationKeyed(db, p, r, req);
    hide CreateRunTx, Next, After;
    var first := CreateRunTx(db, p, r, req).value.out;
    KeysForever(next, actions, IdemKey(p.tenant, p.user, RunCreate, req.key));
    RunsForever(next, actions, first.id);
    UsedKeyAnswers(later, p, s, again);
  }

  // ---------------------------------------------------------------------------------------------
  // Resuming a run

  /** A run is resumed exactly when it waits at the expected version for this request, which has not expired, with valid values. */
  lemma ResumeAcceptedIff(db: Db, p: Principal, r: string, req: ResumeRequest, now: Time)
    ensures var c := ResumeRunTx(db, p, r, req, now);
            (c.Ok? && !c.value.out.replayed) <==>
              && ReadsRun(db, p, r) && MayWrite(db, p, db.runs[r].trip)
              && IdemKey(p.tenant, p.user, RunResume, req.key) !in db.keys
              && db.runs[r].control == req.expected && db.runs[r].state == WaitingInput
              && db.runs[r].pending.Some? && db.runs[r].pending.value.request == req.request && db.runs[r].pending.value.expires > now
              && req.values.Some?
  {
    RunAccessIff(db, p, r);
    if r in db.runs {
      AccessIff(db, p, db.runs[r].trip, true);
    }
    hide TripAccess, RunAccess, MayRead, MayWrite;
  }

  /** A resumed run is queued with the values of its request, and otherwise as it was. */
  lemma ResumeEffect(db: Db, p: Principal, r: string, req: ResumeRequest, now: Time)
    requires var c := ResumeRunTx(db, p, r, req, now); c.Ok? && !c.value.out.replayed
    ensures var next := Next(db, ResumeRun(p, r, req, now));
            && r in db.runs && r in next.runs && ResumeRunTx(db, p, r, req, now).value.out == RunResult(r, next.runs[r], false)
            && next.runs == db.runs[r := next.runs[r]]
            && next.keys == db.keys[IdemKey(p.tenant, p.user, RunResume, req.key) := IdemRow(req.requestHash, r)]
            && next.trips == db.trips && next.artifacts == db.artifacts
            && next.events == db.events + [Event(r, db.runs[r].control + 1, "run.lifecycle_changed", "INPUT_SUPPLIED")]
    ensures var was, after := db.runs[r], Next(db, ResumeRun(p, r, req, now)).runs[r];
            && after.state == Queued && after.phase == "accepted" && after.control == was.control + 1 && after.pending.None?
            && req.values.Some? && after.command == was.command.(resumeInput := Some((req.request, req.values.value)))
            && after.trip == was.trip && after.tenant == was.tenant && after.actor == was.actor && after.result == was.result
            && after.errorCode == was.errorCode && after.attempt == was.attempt && after.leaseOwner == was.leaseOwner && after.leaseUntil == was.leaseUntil
  {
    hide TripAccess, RunAccess;
    RunFound(db, p, r);
  }

  lemma ResumeKeyed(db: Db, p: Principal, r: string, req: ResumeRequest, now: Time)
    requires ResumeRunTx(db, p, r, req, now).Ok?
    ensures var next := Next(db, ResumeRun(p, r, req, now)); var key := IdemKey(p.tenant, p.user, RunResume, req.key);
            && key in next.keys && next.keys[key] == IdemRow(req.requestHash, r)
            && r in next.runs && next.runs[r].tenant == p.tenant
            && ResumeRunTx(db, p, r, req, now).value.out.id == r
  {
    hide TripAccess, RunAccess;
    RunFound(db, p, r);
  }

  /** Repeating an accepted resume gives the run as it is then and changes nothing; another hash or run under the key is a conflict. */
  lemma RepeatedResumeReplays(
      db: Db, p: Principal, r: string, req: ResumeRequest, now: Time, actions: seq<Action>, s: string, again: ResumeRequest, laterNow: Time)
    requires ResumeRunTx(db, p, r, req, now).Ok? && again.key == req.key
    ensures var later := After(Next(db, ResumeRun(p, r, req, now)), actions);
            var c := ResumeRunTx(later, p, s, again, laterNow);
            && r in later.runs
            && if !(ReadsRun(later, p, s) && MayWrite(later, p, later.runs[s].trip)) then c.Err?
               else if again.requestHash != req.requestHash || s != r then c == Err(IdempotencyConflict)
               else c == Ok(Commit(later, RunResult(r, later.runs[r], true)))
  {
    var next := Next(db, ResumeRun(p, r, req, now));
    var later := After(next, actions);
    ResumeKeyed(db, p, r, req, now);
    KeysForever(next, actions, IdemKey(p.tenant, p.user, RunResume, req.key));
    RunsForever(next, actions, r);
    hide Next, After;
    RunAccessIff(later, p, s);
    if s in later.runs {
      AccessIff(later, p, later.runs[s].trip, true);
    }
    hide TripAccess, RunAccess, MayRead, MayWrite, ResumeConflict;
  }

  // ---------------------------------------------------------------------------------------------
  // Mutating a run

  predicate HoldsLease(run: Run, l: RunLease, now: Time) {
    && run.leaseOwner == Some(l.owner) && run.attempt == l.attempt
    && run.leaseUntil.Some? && run.leaseUntil.value > now
    && (run.state.Queued? || run.state.Running?)
  }

  predicate StoredInTrip(db: Db, tenant: string, t: string, id: VersionId) {
    && id.artifact in db.artifacts && db.artifacts[id.artifact].trip == t && db.artifacts[id.artifact].tenant == tenant
    && 1 <= id.version <= |db.artifacts[id.artifact].versions|
  }

  /** A mutation is accepted exactly at the expected version, under the live lease it names, with a result of the run's own trip. */
  lemma MutationAcceptedIff(db: Db, p: Principal, r: string, m: Mutation, now: Time)
    ensures MutateRunTx(db, p, r, m, now).Ok? <==>
              && ReadsRun(db, p, r)
              && (m.lease.Some? ==> m.lease.value.run == r && HoldsLease(db.runs[r], m.lease.value, now))
              && db.runs[r].control == m.expected
              && (m.result.Some? ==> MayWrite(db, p, db.runs[r].trip) && StoredInTrip(db, p.tenant, db.runs[r].trip, m.result.value.id))
  {
    RunAccessIff(db, p, r);
    if r in db.runs {
      AccessIff(db, p, db.runs[r].trip, true);
    }
    hide TripAccess, RunAccess, MayRead, MayWrite, SetStatus, Supersede, Mutated;
  }

  /** What is given is stored, what is not given stays, and a run that stops, waits or is asked to stop loses its lease. */
  predicate MutatedAs(was: Run, m: Mutation, after: Run) {
    && after.control == was.control + 1
    && after.state == (if m.state.Some? then m.state.value else was.state)
    && after.phase == (if m.phase.Some? then m.phase.value else was.phase)
    && after.pending == (if m.pending.Some? then m.pending else was.pending)
    && after.errorCode == (if m.errorCode.Some? then m.errorCode else was.errorCode)
    && after.result == (if m.result.Some? then Some(m.result.value.id) else was.result)
    && after.trip == was.trip && after.tenant == was.tenant && after.actor == was.actor && after.command == was.command
    && after.attempt == was.attempt
    && if m.state.Some? && !m.state.value.Queued? && !m.state.value.Running? then after.leaseOwner.None? && after.leaseUntil.None?
       else after.leaseOwner == was.leaseOwner && after.leaseUntil == was.leaseUntil
  }

  lemma MutationEffect(db: Db, p: Principal, r: string, m: Mutation, now: Time)
    requires MutateRunTx(db, p, r, m, now).Ok?
    ensures var next := Next(db, MutateRun(p, r, m, now));
            && r in db.runs && r in next.runs && next.runs == db.runs[r := next.runs[r]]
            && MutateRunTx(db, p, r, m, now).value.out == next.runs[r]
            && MutatedAs(db.runs[r], m, next.runs[r])
            && next.events == db.events + [Event(r, db.runs[r].control + 1, m.kind, m.data)]
            && next.keys == db.keys
  {
    hide TripAccess, RunAccess, SetStatus, Supersede, OwnsVersion, LeaseHeld;
    RunFound(db, p, r);
  }

  /** The action is an accepted mutation or a new resume of the run. */
  predicate Changes(db: Db, a: Action, r: string) {
    || (a.MutateRun? && a.run == r && MutateRunTx(db, a.p, r, a.mutation, a.now).Ok?)
    || (a.ResumeRun? && a.run == r && ResumeRunTx(db, a.p, r, a.resume, a.now).Ok?
        && !ResumeRunTx(db, a.p, r, a.resume, a.now).value.out.replayed)
  }

  /** The same run, up to its execution lease. */
  predicate SameButLease(was: Run, after: Run) {
    after.(leaseOwner := was.leaseOwner, leaseUntil := was.leaseUntil, attempt := was.attempt) == was
  }

  lemma OtherActionsKeepRuns(db: Db, a: Action)
    requires a.CreateTrip? || a.UpdateTrip? || a.SetMember? || a.CreateArtifact? || a.PatchArtifact?
    ensures Next(db, a).runs == db.runs
  {
    hide TripAccess, LeaseTx, Registered;
  }

  lemma LeaseActionsKeepRun(db: Db, a: Action, r: string)
    requires r in db.runs && (a.ClaimRun? || a.RenewRun? || a.ReleaseRun?)
    ensures r in Next(db, a).runs && SameButLease(db.runs[r], Next(db, a).runs[r])
  {
    hide RunAccess, LeaseHeld, LeaseRequestOk, Active;
    RunFound(db, a.p, if a.ClaimRun? then a.run else a.lease.run);
  }

  lemma NextUnchanged(db: Db, a: Action, r: string)
    requires r in db.runs && !Changes(db, a, r)
    ensures r in Next(db, a).runs && SameButLease(db.runs[r], Next(db, a).runs[r])
  {
    if a.CommandArtifact? {
      CommandKeepsRuns(db, a.p, a.artifact, a.command);
    } else if a.ClaimRun? || a.RenewRun? || a.ReleaseRun? {
      LeaseActionsKeepRun(db, a, r);
    } else if a.CreateRun? {
      hide TripAccess, RunAccess, CurrentArtifact, BaseConflict;
    } else if a.MutateRun? {
      if MutateRunTx(db, a.p, a.run, a.mutation, a.now).Ok? {
        MutationEffect(db, a.p, a.run, a.mutation, a.now);
      }
      hide MutateRunTx;
    } else if a.ResumeRun? {
      if ResumeRunTx(db, a.p, a.run, a.resume, a.now).Ok? && !ResumeRunTx(db, a.p, a.run, a.resume, a.now).value.out.replayed {
        ResumeEffect(db, a.p, a.run, a.resume, a.now);
      }
      hide TripAccess, RunAccess;
    } else {
      OtherActionsKeepRuns(db, a);
    }
  }

  lemma CommandKeepsRuns(db: Db, p: Principal, a: string, req: CommandRequest)
    ensures Next(db, CommandArtifact(p, a, req)).runs == db.runs
  {
    hide SetStatus, SupersedeTrip, Registered, FindJournal;
  }

  ghost predicate NeverChanges(db: Db, actions: seq<Action>, r: string) {
    forall i :: 0 <= i < |actions| ==> !Changes(After(db, actions[..i]), actions[i], r)
  }

  /** Between its mutations and resumes a run stays as it is, up to its lease. */
  lemma {:induction false} RunStaysAsItIs(db: Db, actions: seq<Action>, r: string)
    requires r in db.runs && NeverChanges(db, actions, r)
    ensures r in After(db, actions).runs && SameButLease(db.runs[r], After(db, actions).runs[r])
  {
    if actions != [] {
      hide Next, Changes;
      var n := |actions| - 1;
      forall i | 0 <= i < n
        ensures !Changes(After(db, actions[..n][..i]), actions[..n][i], r)
      {
        assert actions[..n][..i] == actions[..i];
      }
      RunStaysAsItIs(db, actions[..n], r);
      NextUnchanged(After(db, actions[..n]), actions[n], r);
    }
  }

  /**
   * A run mutated to a state shows that state, and what else the mutation gave, until its next
   * accepted mutation or resume; if it is not queued or running, every claim of it until then is
   * answered with no lease and changes nothing.
   */
  lemma MutationLasts(db: Db, p: Principal, r: string, m: Mutation, now: Time, actions: seq<Action>)
    requires MutateRunTx(db, p, r, m, now).Ok? && NeverChanges(Next(db, MutateRun(p, r, m, now)), actions, r)
    ensures var next := Next(db, MutateRun(p, r, m, now)); var later := After(next, actions);
            && r in db.runs && r in next.runs && r in later.runs
            && MutatedAs(db.runs[r], m, next.runs[r]) && SameButLease(next.runs[r], later.runs[r])
            && (m.state.Some? ==> later.runs[r].state == m.state.value)
            && (m.state.Some? && !m.state.value.Queued? && !m.state.value.Running? ==>
                  forall q, owner, duration, at :: ClaimRunTx(later, q, r, owner, duration, at).Ok? ==>
                    ClaimRunTx(later, q, r, owner, duration, at).value == Commit(later, None))
  {
    var next := Next(db, MutateRun(p, r, m, now));
    MutationEffect(db, p, r, m, now);
    hide Next, NeverChanges, MutateRunTx;
    RunStaysAsItIs(next, actions, r);
    hide After;
    forall q, owner, duration, at
      ensures ClaimRunTx(After(next, actions), q, r, owner, duration, at).Ok? ==>
                ClaimRunTx(After(next, actions), q, r, owner, duration, at).value.out.None?
                || After(next, actions).runs[r].state.Queued? || After(next, actions).runs[r].state.Running?
    {
      ClaimAcceptedIff(After(next, actions), q, r, owner, duration, at);
    }
    forall q, owner, duration, at | ClaimRunTx(After(next, actions), q, r, owner, duration, at).Ok?
                                      && ClaimRunTx(After(next, actions), q, r, owner, duration, at).value.out.None?
      ensures ClaimRunTx(After(next, actions), q, r, owner, duration, at).value.db == After(next, actions)
    {
      ClaimAcceptedIff(After(next, actions), q, r, owner, duration, at);
    }
  }

  // ---------------------------------------------------------------------------------------------
  // Execution leases of runs

  /** A lease is granted exactly on a queued or running run that no live lease holds, with the next attempt. */
  lemma ClaimAcceptedIff(db: Db, p: Principal, r: string, owner: string, duration: int, now: Time)
    ensures var c := ClaimRunTx(db, p, r, owner, duration, now);
            && (c.Ok? <==> 1 <= |owner| <= 128 && 50 <= duration <= 3600000 && ReadsRun(db, p, r))
            && (c.Ok? ==>
                  (c.value.out.Some? <==>
                     && (db.runs[r].state.Queued? || db.runs[r].state.Running?)
                     && !(db.runs[r].leaseOwner.Some? && db.runs[r].leaseUntil.Some? && db.runs[r].leaseUntil.value > now)))
            && (c.Ok? && c.value.out.Some? ==>
                  && c.value.out == Some(RunLease(r, owner, db.runs[r].attempt + 1, now + duration))
                  && c.value.db == db.(runs := db.runs[r := db.runs[r].(
                                    leaseOwner := Some(owner), leaseUntil := Some(now + duration), attempt := db.runs[r].attempt + 1)]))
            && (c.Ok? && c.value.out.None? ==> c.value.db == db)
  {
    RunAccessIff(db, p, r);
    hide RunAccess, MayRead;
  }

  /** A renewal moves the end of the lease it holds, and a release clears it; neither touches a lease of another owner or attempt. */
  lemma RenewalAndReleaseIff(db: Db, p: Principal, l: RunLease, duration: int, now: Time)
    ensures var c := RenewRunTx(db, p, l, duration, now);
            && (c.Ok? <==> 1 <= |l.owner| <= 128 && 50 <= duration <= 3600000 && ReadsRun(db, p, l.run))
            && (c.Ok? ==> (c.value.out.Some? <==> HoldsLease(db.runs[l.run], l, now)))
            && (c.Ok? && c.value.out.Some? ==>
                  && c.value.out == Some(l.(until := now + duration))
                  && c.value.db == db.(runs := db.runs[l.run := db.runs[l.run].(leaseUntil := Some(now + duration))]))
            && (c.Ok? && c.value.out.None? ==> c.value.db == db)
    ensures var c := ReleaseRunTx(db, p, l);
            && (c.Ok? <==> ReadsRun(db, p, l.run))
            && (c.Ok? ==> (c.value.out <==> db.runs[l.run].leaseOwner == Some(l.owner) && db.runs[l.run].attempt == l.attempt))
            && (c.Ok? ==> c.value.db == if c.value.out
                            then db.(runs := db.runs[l.run := db.runs[l.run].(leaseOwner := None, leaseUntil := None)]) else db)
  {
    RunAccessIff(db, p, l.run);
    hide RunAccess, MayRead;
  }

  // ---------------------------------------------------------------------------------------------
  // Artifacts

  /** A worker's artifact needs the live lease of a run of the same trip. */
  lemma ArtifactCreatedIff(db: Db, p: Principal, a: string, req: ArtifactRequest, now: Time)
    ensures CreateArtifactTx(db, p, a, req, now).Ok? <==>
              && MayWrite(db, p, req.trip) && a !in db.artifacts
              && (req.lease.Some? ==>
                    && ReadsRun(db, p, req.lease.value.run) && db.runs[req.lease.value.run].trip == req.trip
                    && HoldsLease(db.runs[req.lease.value.run], req.lease.value, now))
    ensures CreateArtifactTx(db, p, a, req, now).Ok? ==>
              var next := Next(db, CreateArtifact(p, a, req, now));
              && next.artifacts == db.artifacts[a := Artifact(req.trip, p.tenant, req.kind, p.user, [req.row])]
              && CreateArtifactTx(db, p, a, req, now).value.out == ArtifactView(VersionId(a, 1), req.trip, p.tenant, req.kind, p.user, req.row)
              && next.trips == db.trips && next.runs == db.runs
  {
    AccessIff(db, p, req.trip, true);
    if req.lease.Some? {
      RunAccessIff(db, p, req.lease.value.run);
    }
    hide TripAccess, RunAccess, MayRead, MayWrite;
  }

  /** A patch is accepted exactly on the newest version of an editable artifact, and adds the next version with the given content. */
  lemma PatchAcceptedIff(db: Db, p: Principal, a: string, base: int, content: Option<string>)
    ensures PatchArtifactTx(db, p, a, base, content).Ok? <==>
              && WritesArtifact(db, p, a) && |db.artifacts[a].versions| == base >= 1
              && Registered(db.artifacts[a].kind, db.artifacts[a].versions[base - 1].schema) && content.Some?
    ensures PatchArtifactTx(db, p, a, base, content).Ok? ==>
              var was := db.artifacts[a]; var next := Next(db, PatchArtifact(p, a, base, content));
              var row := Version(was.versions[base - 1].schema, Candidate, content.value, Some(base));
              && next.artifacts == db.artifacts[a := was.(versions := was.versions + [row])]
              && PatchArtifactTx(db, p, a, base, content).value.out == ArtifactView(VersionId(a, base + 1), was.trip, was.tenant, was.kind, was.createdBy, row)
              && next.trips == db.trips && next.runs == db.runs
  {
    if a in db.artifacts {
      AccessIff(db, p, db.artifacts[a].trip, true);
    }
    hide TripAccess, MayRead, MayWrite, Registered;
  }

  /** Select takes a candidate to selected, publish a validated version to published, revoke a published one to revoked. */
  predicate Moves(c: ArtifactCommand, before: Status, after: Status) {
    match c
    case Select => before == Candidate && after == Selected
    case Publish => before == Validated && after == Published
    case Revoke => before == Published && after == Revoked
  }

  predicate StartsFrom(c: ArtifactCommand, before: Status) {
    match c
    case Select => before == Candidate
    case Publish => before == Validated
    case Revoke => before == Published
  }

  /** A command under a new key is accepted exactly on the newest version, named as its base, in the status it starts from. */
  lemma CommandAcceptedIff(db: Db, p: Principal, a: string, req: CommandRequest)
    ensures var c := CommandArtifactTx(db, p, a, req);
            (c.Ok? && !c.value.out.replayed) <==>
              && WritesArtifact(db, p, a) && |db.artifacts[a].versions| == req.base >= 1
              && Registered(db.artifacts[a].kind, db.artifacts[a].versions[req.base - 1].schema)
              && FindJournal(db.outbox, Fingerprint(p.tenant, p.user, a, req.key)).None?
              && StartsFrom(req.command, db.artifacts[a].versions[req.base - 1].status)
  {
    if a in db.artifacts {
      AccessIff(db, p, db.artifacts[a].trip, true);
    }
    hide TripAccess, MayRead, MayWrite, Registered, FindJournal, Transition;
  }

  /** An accepted command answers with its version in the new status, which is what is stored, and moves the pointer of the trip with it. */
  lemma CommandEffect(db: Db, p: Principal, a: string, req: CommandRequest)
    requires var c := CommandArtifactTx(db, p, a, req); c.Ok? && !c.value.out.replayed
    ensures var next := Next(db, CommandArtifact(p, a, req)); var view := CommandArtifactTx(db, p, a, req).value.out.artifact;
            && a in db.artifacts && a in next.artifacts && 1 <= req.base <= |db.artifacts[a].versions| == |next.artifacts[a].versions|
            && view == ArtifactView(VersionId(a, req.base), db.artifacts[a].trip, db.artifacts[a].tenant, db.artifacts[a].kind,
                                    db.artifacts[a].createdBy, next.artifacts[a].versions[req.base - 1])
            && Moves(req.command, db.artifacts[a].versions[req.base - 1].status, view.row.status)
            && var t := db.artifacts[a].trip;
               && t in db.trips && t in next.trips
               && next.trips[t].pointer ==
                  (match req.command
                   case Select => db.trips[t].pointer
                   case Publish => Some(VersionId(a, req.base))
                   case Revoke => if db.trips[t].pointer == Some(VersionId(a, req.base)) then None else db.trips[t].pointer)
  {
    hide Registered, FindJournal;
  }
}

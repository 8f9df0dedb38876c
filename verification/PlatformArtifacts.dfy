/**
 * Publication: the trip pointer, the published snapshot of a trip, and the replay of artifact
 * commands, over every run of the control plane.
 */
module PlatformArtifacts {
  import opened Common
  import opened PlatformTypes
  import opened PlatformStore
  import opened PlatformProtocol

  type Artifacts = map<string, Artifact>

  // ---------------------------------------------------------------------------------------------
  // What every transaction keeps of an artifact

  predicate Uniform(a: Artifact) {
    a.versions != [] && forall i :: 0 <= i < |a.versions| ==> a.versions[i].schema == a.versions[0].schema
  }

  /** The same version row, up to its status. */
  predicate SameContent(v: Version, w: Version) {
    w.(status := v.status) == v
  }

  /** Identity and content never change; versions are only added. */
  ghost predicate Kept(a: Artifact, b: Artifact) {
    && b.trip == a.trip && b.tenant == a.tenant && b.kind == a.kind && b.createdBy == a.createdBy
    && |a.versions| <= |b.versions|
    && (forall i :: 0 <= i < |a.versions| ==> SameContent(a.versions[i], b.versions[i]))
    && (Uniform(a) ==> Uniform(b))
  }

  ghost predicate AllKept(x: Artifacts, y: Artifacts) {
    forall a :: a in x ==> a in y && Kept(x[a], y[a])
  }

  lemma AllKeptTrans(x: Artifacts, y: Artifacts, z: Artifacts)
    requires AllKept(x, y) && AllKept(y, z)
    ensures AllKept(x, z)
  {
  }

  // ---------------------------------------------------------------------------------------------
  // The statements, by their effect on every version

  lemma KeptByStatus(a: Artifact, vs: seq<Version>)
    requires |vs| == |a.versions| && forall i :: 0 <= i < |vs| ==> SameContent(a.versions[i], vs[i])
    ensures Kept(a, a.(versions := vs))
  {
  }

  lemma SetStatusEffect(x: Artifacts, id: VersionId, s: Status)
    ensures SetStatus(x, id, s).Keys == x.Keys && AllKept(x, SetStatus(x, id, s))
    ensures forall v :: StatusOf(SetStatus(x, id, s), v) == if v == id && StatusOf(x, id).Some? then Some(s) else StatusOf(x, v)
  {
  }

  lemma SupersedeEffect(x: Artifacts, id: VersionId)
    ensures Supersede(x, id).Keys == x.Keys && AllKept(x, Supersede(x, id))
    ensures forall v :: StatusOf(Supersede(x, id), v) == if v == id && StatusOf(x, v) == Some(Published) then Some(Superseded) else StatusOf(x, v)
  {
  }

  lemma AllKeptRefl(x: Artifacts)
    ensures AllKept(x, x)
  {
  }

  predicate InTrip(x: Artifacts, v: VersionId, tenant: string, trip: string) {
    v.artifact in x && x[v.artifact].tenant == tenant && x[v.artifact].trip == trip
  }

  lemma SupersedeTripEffect(x: Artifacts, tenant: string, trip: string, keep: VersionId)
    ensures SupersedeTrip(x, tenant, trip, keep).Keys == x.Keys && AllKept(x, SupersedeTrip(x, tenant, trip, keep))
    ensures forall v :: StatusOf(SupersedeTrip(x, tenant, trip, keep), v) ==
                        if InTrip(x, v, tenant, trip) && v != keep && StatusOf(x, v) == Some(Published) then Some(Superseded) else StatusOf(x, v)
  {
    var y := SupersedeTrip(x, tenant, trip, keep);
    forall a | a in x
      ensures a in y && Kept(x[a], y[a])
    {
      KeptByStatus(x[a], y[a].versions);
    }
    forall v: VersionId
      ensures StatusOf(y, v) == if InTrip(x, v, tenant, trip) && v != keep && StatusOf(x, v) == Some(Published) then Some(Superseded) else StatusOf(x, v)
    {
      SupersedeRowsEffect(x, tenant, trip, keep, v);
    }
  }

  lemma SupersedeRowsEffect(x: Artifacts, tenant: string, trip: string, keep: VersionId, v: VersionId)
    ensures StatusOf(SupersedeTrip(x, tenant, trip, keep), v) ==
            if InTrip(x, v, tenant, trip) && v != keep && StatusOf(x, v) == Some(Published) then Some(Superseded) else StatusOf(x, v)
  {
  }

  // ---------------------------------------------------------------------------------------------
  // Publication by a command or by a run

  /** What the publication operations do, seen through the status of every version. */
  ghost predicate Restatus(db: Db, next: Db) {
    && next.artifacts.Keys == db.artifacts.Keys
    && AllKept(db.artifacts, next.artifacts)
    && next.trips.Keys == db.trips.Keys
  }

  lemma PublishEffect(db: Db, t: string, ref: ResultRef)
    requires t in db.trips && OwnsVersion(db, db.trips[t].tenant, t, ref.id)
    ensures var next := PublishResult(db, t, ref);
            && Restatus(db, next)
            && next.trips == (if ref.kind == SNAPSHOT
                              then db.trips[t := db.trips[t].(pointer := Some(ref.id), version := db.trips[t].version + 1)]
                              else db.trips)
            && forall v :: StatusOf(next.artifacts, v) ==
                           if v == ref.id then Some(Published)
                           else if ref.kind == SNAPSHOT && db.trips[t].pointer == Some(v) && StatusOf(db.artifacts, v) == Some(Published)
                           then Some(Superseded)
                           else StatusOf(db.artifacts, v)
  {
    hide SetStatus, Supersede, Kept;
    var published := SetStatus(db.artifacts, ref.id, Published);
    SetStatusEffect(db.artifacts, ref.id, Published);
    assert StatusOf(db.artifacts, ref.id).Some?;
    var pointer := db.trips[t].pointer;
    if pointer.Some? {
      SupersedeEffect(published, pointer.value);
      AllKeptTrans(db.artifacts, published, Supersede(published, pointer.value));
    }
  }

  predicate FitsTrip(db: Db, current: ArtifactView) {
    && current.trip in db.trips
    && OwnsVersion(db, db.trips[current.trip].tenant, current.trip, current.id)
    && current == ViewOf(db, current.id)
  }

  lemma TransitionEffect(db: Db, current: ArtifactView, c: ArtifactCommand)
    requires FitsTrip(db, current)
    ensures var next := Transition(db, current, c);
            && Restatus(db, next)
            && next.trips == (if c.Publish? || (c.Revoke? && db.trips[current.trip].pointer == Some(current.id))
                              then db.trips[current.trip := db.trips[current.trip].(
                                     pointer := if c.Publish? then Some(current.id) else None, version := db.trips[current.trip].version + 1)]
                              else db.trips)
            && forall v :: StatusOf(next.artifacts, v) ==
                           if v == current.id then Some(Target(c))
                           else if c.Publish? && InTrip(db.artifacts, v, current.tenant, current.trip) && StatusOf(db.artifacts, v) == Some(Published)
                           then Some(Superseded)
                           else StatusOf(db.artifacts, v)
  {
    hide SetStatus, SupersedeTrip, Kept;
    assert StatusOf(db.artifacts, current.id).Some?;
    if c.Publish? {
      var cleared := SupersedeTrip(db.artifacts, current.tenant, current.trip, current.id);
      SupersedeTripEffect(db.artifacts, current.tenant, current.trip, current.id);
      assert StatusOf(cleared, current.id).Some?;
      SetStatusEffect(cleared, current.id, Published);
      AllKeptTrans(db.artifacts, cleared, SetStatus(cleared, current.id, Published));
    } else {
      SetStatusEffect(db.artifacts, current.id, Target(c));
    }
  }

  // ---------------------------------------------------------------------------------------------
  // The invariants

  /** Every artifact belongs to a trip of its own tenant and has versions of one schema. */
  ghost predicate Homed(db: Db) {
    forall a :: a in db.artifacts ==>
      && Uniform(db.artifacts[a])
      && db.artifacts[a].trip in db.trips
      && db.trips[db.artifacts[a].trip].tenant == db.artifacts[a].tenant
  }

  /** The pointer of a trip names a stored, published version of that trip. */
  predicate PointerOk(db: Db, t: string)
    requires t in db.trips
  {
    db.trips[t].pointer.Some? ==>
      && OwnsVersion(db, db.trips[t].tenant, t, db.trips[t].pointer.value)
      && StatusOf(db.artifacts, db.trips[t].pointer.value) == Some(Published)
  }

  ghost predicate PointersOk(db: Db) {
    forall t :: t in db.trips ==> PointerOk(db, t)
  }

  ghost predicate Inv(db: Db) {
    Homed(db) && PointersOk(db)
  }

  predicate LiveSnapshot(x: Artifacts, v: VersionId) {
    v.artifact in x && x[v.artifact].kind == SNAPSHOT && StatusOf(x, v) == Some(Published)
  }

  predicate IsPointer(db: Db, t: string, v: VersionId) {
    t in db.trips && db.trips[t].pointer == Some(v)
  }

  /** Every published snapshot version is what its trip points to. */
  ghost predicate SnapshotsOk(db: Db) {
    forall v :: LiveSnapshot(db.artifacts, v) ==> IsPointer(db, db.artifacts[v.artifact].trip, v)
  }

  lemma OwnsKept(db: Db, next: Db, tenant: string, t: string, v: VersionId)
    requires AllKept(db.artifacts, next.artifacts) && OwnsVersion(db, tenant, t, v)
    ensures OwnsVersion(next, tenant, t, v)
  {
  }

  lemma HomedKept(db: Db, next: Db)
    requires Homed(db) && Restatus(db, next)
    requires forall t :: t in db.trips ==> next.trips[t].tenant == db.trips[t].tenant
    ensures Homed(next)
  {
  }

  /** A pointer that a step leaves alone stays good when its target stays published. */
  lemma PointerKept(db: Db, next: Db, t: string)
    requires t in db.trips && t in next.trips && PointerOk(db, t) && AllKept(db.artifacts, next.artifacts)
    requires next.trips[t].tenant == db.trips[t].tenant && next.trips[t].pointer == db.trips[t].pointer
    requires next.trips[t].pointer.Some? ==> StatusOf(next.artifacts, next.trips[t].pointer.value) == Some(Published)
    ensures PointerOk(next, t)
  {
  }

  lemma PublishKeepsInv(db: Db, t: string, ref: ResultRef)
    requires Inv(db) && t in db.trips && OwnsVersion(db, db.trips[t].tenant, t, ref.id)
    ensures Inv(PublishResult(db, t, ref))
  {
    hide PublishResult, StatusOf, AllKept, Uniform;
    var next := PublishResult(db, t, ref);
    PublishEffect(db, t, ref);
    HomedKept(db, next);
    OwnsKept(db, next, db.trips[t].tenant, t, ref.id);
    forall u | u in next.trips
      ensures PointerOk(next, u)
    {
      assert u in next.trips.Keys;
      assert PointerOk(db, u);
      if !(u == t && ref.kind == SNAPSHOT) {
        PointerKept(db, next, u);
      }
    }
  }

  /** A transition of one trip's artifact leaves the pointers of other trips good. */
  lemma TransitionElsewhere(db: Db, current: ArtifactView, c: ArtifactCommand, u: string)
    requires PointersOk(db) && FitsTrip(db, current) && u in db.trips && u != current.trip
    ensures u in Transition(db, current, c).trips && PointerOk(Transition(db, current, c), u)
  {
    var next := Transition(db, current, c);
    TransitionEffect(db, current, c);
    assert PointerOk(db, u);
    hide Transition, StatusOf, AllKept, PointersOk;
    PointerKept(db, next, u);
  }

  lemma TransitionHere(db: Db, current: ArtifactView, c: ArtifactCommand)
    requires PointersOk(db) && FitsTrip(db, current) && current.row.status == Required(c)
    ensures current.trip in Transition(db, current, c).trips && PointerOk(Transition(db, current, c), current.trip)
  {
    var next, t := Transition(db, current, c), current.trip;
    TransitionEffect(db, current, c);
    assert StatusOf(db.artifacts, current.id) == Some(Required(c));
    assert PointerOk(db, t);
    hide Transition, StatusOf, AllKept, PointersOk;
    OwnsKept(db, next, db.trips[t].tenant, t, current.id);
    if next.trips[t].pointer == db.trips[t].pointer && next.trips[t].pointer != Some(current.id) {
      PointerKept(db, next, t);
    }
  }

  lemma TransitionKeepsInv(db: Db, current: ArtifactView, c: ArtifactCommand)
    requires Inv(db) && FitsTrip(db, current) && current.row.status == Required(c)
    ensures Inv(Transition(db, current, c))
  {
    var next := Transition(db, current, c);
    TransitionEffect(db, current, c);
    hide Transition, StatusOf, AllKept, Homed, PointerOk, FitsTrip;
    HomedKept(db, next);
    forall u | u in next.trips
      ensures PointerOk(next, u)
    {
      assert u in next.trips.Keys;
      if u == current.trip {
        TransitionHere(db, current, c);
      } else {
        TransitionElsewhere(db, current, c, u);
      }
    }
  }

  // ---------------------------------------------------------------------------------------------
  // The published snapshot

  lemma PublishSnapshots(db: Db, t: string, ref: ResultRef)
    requires Inv(db) && SnapshotsOk(db) && t in db.trips && OwnsVersion(db, db.trips[t].tenant, t, ref.id)
    ensures SnapshotsOk(PublishResult(db, t, ref)) <==>
            (ref.kind != SNAPSHOT && db.artifacts[ref.id.artifact].kind == SNAPSHOT ==> db.trips[t].pointer == Some(ref.id))
  {
    hide PublishResult, StatusOf, Uniform;
    var next := PublishResult(db, t, ref);
    PublishEffect(db, t, ref);
    assert Kept(db.artifacts[ref.id.artifact], next.artifacts[ref.id.artifact]);
    forall v | LiveSnapshot(next.artifacts, v) && v != ref.id
      ensures IsPointer(next, next.artifacts[v.artifact].trip, v)
    {
      PublishOtherSnapshot(db, t, ref, v);
    }
    if ref.kind != SNAPSHOT && db.artifacts[ref.id.artifact].kind == SNAPSHOT {
      assert LiveSnapshot(next.artifacts, ref.id);
    }
  }

  lemma PublishOtherSnapshot(db: Db, t: string, ref: ResultRef, v: VersionId)
    requires SnapshotsOk(db) && t in db.trips && OwnsVersion(db, db.trips[t].tenant, t, ref.id)
    requires var next := PublishResult(db, t, ref); LiveSnapshot(next.artifacts, v) && v != ref.id
    ensures var next := PublishResult(db, t, ref); IsPointer(next, next.artifacts[v.artifact].trip, v)
  {
    hide PublishResult, StatusOf, Uniform;
    var next := PublishResult(db, t, ref);
    PublishEffect(db, t, ref);
    assert v.artifact in next.artifacts.Keys;
    assert Kept(db.artifacts[v.artifact], next.artifacts[v.artifact]);
    assert LiveSnapshot(db.artifacts, v);
  }

  lemma TransitionSnapshots(db: Db, current: ArtifactView, c: ArtifactCommand)
    requires Inv(db) && SnapshotsOk(db) && FitsTrip(db, current) && current.row.status == Required(c)
    ensures SnapshotsOk(Transition(db, current, c))
  {
    var next := Transition(db, current, c);
    TransitionEffect(db, current, c);
    hide Transition, StatusOf, Uniform;
    forall v | LiveSnapshot(next.artifacts, v)
      ensures IsPointer(next, next.artifacts[v.artifact].trip, v)
    {
      assert v.artifact in next.artifacts.Keys;
      assert Kept(db.artifacts[v.artifact], next.artifacts[v.artifact]);
      if v != current.id {
        assert LiveSnapshot(db.artifacts, v);
        assert IsPointer(db, db.artifacts[v.artifact].trip, v);
      }
    }
  }

  // ---------------------------------------------------------------------------------------------
  // Every transaction

  predicate SameTables(db: Db, next: Db) {
    next.trips == db.trips && next.artifacts == db.artifacts
  }

  lemma SameTablesInv(db: Db, next: Db)
    requires SameTables(db, next)
    ensures Inv(db) ==> Inv(next)
    ensures SnapshotsOk(db) <==> SnapshotsOk(next)
    ensures AllKept(db.artifacts, next.artifacts)
  {
  }

  lemma RunActionTables(db: Db, a: Action)
    requires a.CreateRun? || a.ClaimRun? || a.RenewRun? || a.ReleaseRun? || a.ResumeRun?
    ensures SameTables(db, Next(db, a))
  {
    hide TripAccess, RunAccess, CurrentArtifact, BaseConflict, LeaseHeld, LeaseRequestOk, Active;
  }

  /** The database a mutation's publication starts the rest of the transaction from. */
  lemma MutateTables(db: Db, p: Principal, r: string, m: Mutation, now: Time)
    ensures var c := MutateRunTx(db, p, r, m, now);
            var next := Next(db, MutateRun(p, r, m, now));
            if c.Ok? && m.result.Some? then
              && r in db.runs && db.runs[r].trip in db.trips
              && OwnsVersion(db, db.trips[db.runs[r].trip].tenant, db.runs[r].trip, m.result.value.id)
              && SameTables(PublishResult(db, db.runs[r].trip, m.result.value), next)
            else SameTables(db, next)
  {
  }

  lemma CommandTables(db: Db, p: Principal, a: string, req: CommandRequest)
    ensures var c := CommandArtifactTx(db, p, a, req);
            var next := Next(db, CommandArtifact(p, a, req));
            if c.Ok? && !c.value.out.replayed then
              var current := ArtifactAccess(db, p, a, None, true);
              && current.Ok?
              && FitsTrip(db, current.value) && current.value.row.status == Required(req.command)
              && SameTables(Transition(db, current.value, req.command), next)
              && next.outbox == db.outbox + [CommandNote(p, a, req, current.value.id.version)]
              && c.value.out.artifact == current.value.(row := current.value.row.(status := Target(req.command)))
              && FindJournal(db.outbox, FingerprintOf(p, a, req.key)).None?
            else next == db
  {
  }

  /**
   * What an accepted mutation publishes: its result and nothing else, where a snapshot also becomes
   * the trip's plan and supersedes the one before.
   */
  lemma MutationPublishes(db: Db, p: Principal, r: string, m: Mutation, now: Time)
    requires MutateRunTx(db, p, r, m, now).Ok?
    ensures var next := Next(db, MutateRun(p, r, m, now));
            if m.result.None? then next.trips == db.trips && next.artifacts == db.artifacts
            else
              && r in db.runs && db.runs[r].trip in db.trips
              && var t, id := db.runs[r].trip, m.result.value.id;
                 && next.trips == (if m.result.value.kind == "TripSnapshot"
                                   then db.trips[t := db.trips[t].(pointer := Some(id), version := db.trips[t].version + 1)] else db.trips)
                 && forall v :: StatusOf(next.artifacts, v) ==
                                if v == id then Some(Published)
                                else if m.result.value.kind == "TripSnapshot" && db.trips[t].pointer == Some(v) && StatusOf(db.artifacts, v) == Some(Published)
                                then Some(Superseded)
                                else StatusOf(db.artifacts, v)
  {
    MutateTables(db, p, r, m, now);
    hide Next, MutateRunTx, PublishResult, StatusOf, OwnsVersion;
    if m.result.Some? {
      PublishEffect(db, db.runs[r].trip, m.result.value);
    }
  }

  /** The status of every version, and every trip, after an accepted command. */
  lemma CommandSettles(db: Db, p: Principal, a: string, req: CommandRequest)
    requires var c := CommandArtifactTx(db, p, a, req); c.Ok? && !c.value.out.replayed
    ensures var next := Next(db, CommandArtifact(p, a, req)); var id := VersionId(a, req.base);
            && a in db.artifacts && db.artifacts[a].trip in db.trips
            && var t := db.artifacts[a].trip;
               && next.trips == (if req.command.Publish?
                                 then db.trips[t := db.trips[t].(pointer := Some(id), version := db.trips[t].version + 1)]
                                 else if req.command.Revoke? && db.trips[t].pointer == Some(id)
                                 then db.trips[t := db.trips[t].(pointer := None, version := db.trips[t].version + 1)]
                                 else db.trips)
               && forall v :: StatusOf(next.artifacts, v) ==
                              if v == id then Some(match req.command case Select => Selected case Publish => Published case Revoke => Revoked)
                              else if req.command.Publish? && v.artifact in db.artifacts && db.artifacts[v.artifact].trip == t
                                      && db.artifacts[v.artifact].tenant == p.tenant && StatusOf(db.artifacts, v) == Some(Published)
                              then Some(Superseded)
                              else StatusOf(db.artifacts, v)
  {
    hide Next, CommandArtifactTx, ArtifactAccess, Transition, StatusOf, FitsTrip, Restatus, FindJournal, CommandNote;
    CommandTables(db, p, a, req);
    CommandTarget(db, p, a, req);
    var current := ArtifactAccess(db, p, a, None, true).value;
    TransitionEffect(db, current, req.command);
    var next := Next(db, CommandArtifact(p, a, req));
    assert next.artifacts == Transition(db, current, req.command).artifacts && next.trips == Transition(db, current, req.command).trips;
  }

  lemma CommandTarget(db: Db, p: Principal, a: string, req: CommandRequest)
    requires var c := CommandArtifactTx(db, p, a, req); c.Ok? && !c.value.out.replayed
    ensures var current := ArtifactAccess(db, p, a, None, true);
            && current.Ok? && current.value.id == VersionId(a, req.base) && current.value.tenant == p.tenant
            && a in db.artifacts && current.value.trip == db.artifacts[a].trip && db.artifacts[a].trip in db.trips
  {
    hide Transition, FindJournal, Registered;
  }

  lemma TripActionKeeps(db: Db, a: Action)
    requires a.CreateTrip? || a.UpdateTrip? || a.SetMember?
    ensures Next(db, a).artifacts == db.artifacts
    ensures forall t :: t in db.trips ==> t in Next(db, a).trips && Next(db, a).trips[t].tenant == db.trips[t].tenant && Next(db, a).trips[t].pointer == db.trips[t].pointer
    ensures forall t :: t in Next(db, a).trips && t !in db.trips ==> Next(db, a).trips[t].pointer.None?
  {
    TripFound(db, a.p, a.trip, true);
    hide TripAccess, Note;
  }

  lemma TripActionInv(db: Db, a: Action)
    requires a.CreateTrip? || a.UpdateTrip? || a.SetMember?
    ensures Inv(db) ==> Inv(Next(db, a))
    ensures Inv(db) ==> (SnapshotsOk(db) ==> SnapshotsOk(Next(db, a)))
    ensures AllKept(db.artifacts, Next(db, a).artifacts)
  {
    hide Next, StatusOf, Uniform, AllKept;
    var next := Next(db, a);
    TripActionKeeps(db, a);
    AllKeptRefl(db.artifacts);
    if Inv(db) {
      forall t | t in next.trips
        ensures PointerOk(next, t)
      {
        if t in db.trips {
          assert PointerOk(db, t);
          PointerKept(db, next, t);
        }
      }
      forall v | SnapshotsOk(db) && LiveSnapshot(next.artifacts, v)
        ensures IsPointer(next, next.artifacts[v.artifact].trip, v)
      {
        assert IsPointer(db, db.artifacts[v.artifact].trip, v);
      }
    }
  }

  /** Adding an artifact, or a version to one. */
  ghost predicate Adds(db: Db, next: Db, a: string, v: VersionId) {
    && next.trips == db.trips
    && AllKept(db.artifacts, next.artifacts)
    && v.artifact == a && a in next.artifacts && StatusOf(db.artifacts, v).None?
    && Uniform(next.artifacts[a]) && next.artifacts[a].trip in db.trips
    && db.trips[next.artifacts[a].trip].tenant == next.artifacts[a].tenant
    && (forall b :: b in next.artifacts && b != a ==> b in db.artifacts)
    && (forall w :: w != v ==> StatusOf(next.artifacts, w) == StatusOf(db.artifacts, w))
  }

  lemma AddsKeepsInv(db: Db, next: Db, a: string, v: VersionId)
    requires Inv(db) && Adds(db, next, a, v)
    ensures Inv(next)
    ensures SnapshotsOk(db) ==> (SnapshotsOk(next) <==> !LiveSnapshot(next.artifacts, v))
  {
  }

  lemma TripFound(db: Db, p: Principal, t: string, write: bool)
    ensures TripAccess(db, p, t, write).Ok? ==> t in db.trips && db.trips[t].tenant == p.tenant && TripAccess(db, p, t, write).value == db.trips[t]
  {
  }

  lemma CreateArtifactTables(db: Db, p: Principal, a: string, req: ArtifactRequest, now: Time)
    ensures var next := Next(db, CreateArtifact(p, a, req, now));
            if CreateArtifactTx(db, p, a, req, now).Ok? then
              && Adds(db, next, a, VersionId(a, 1))
              && next.artifacts == db.artifacts[a := Artifact(req.trip, p.tenant, req.kind, p.user, [req.row])]
            else next == db
  {
  }

  lemma PatchTables(db: Db, p: Principal, a: string, base: int, content: Option<string>)
    requires Homed(db)
    ensures var next := Next(db, PatchArtifact(p, a, base, content));
            if PatchArtifactTx(db, p, a, base, content).Ok? then
              Adds(db, next, a, VersionId(a, base + 1)) && StatusOf(next.artifacts, VersionId(a, base + 1)) == Some(Candidate)
            else next == db
  {
    var next := Next(db, PatchArtifact(p, a, base, content));
    if PatchArtifactTx(db, p, a, base, content).Ok? {
      TripFound(db, p, db.artifacts[a].trip, true);
      hide TripAccess, Registered;
      AllKeptRefl(db.artifacts);
      assert Kept(db.artifacts[a], next.artifacts[a]);
    }
  }

  /**
   * The only two ways to leave a published snapshot that its trip does not point to: creating a
   * snapshot already published, and publishing a stored snapshot as a run result of another type.
   */
  predicate Strays(db: Db, a: Action) {
    match a
    case CreateArtifact(p, id, req, now) =>
      CreateArtifactTx(db, p, id, req, now).Ok? && req.kind == SNAPSHOT && req.row.status.Published?
    case MutateRun(p, r, m, now) =>
      && MutateRunTx(db, p, r, m, now).Ok? && m.result.Some?
      && m.result.value.kind != SNAPSHOT
      && m.result.value.id.artifact in db.artifacts && db.artifacts[m.result.value.id.artifact].kind == SNAPSHOT
      && r in db.runs && !IsPointer(db, db.runs[r].trip, m.result.value.id)
    case _ => false
  }

  ghost predicate StepOk(db: Db, a: Action) {
    && Inv(Next(db, a))
    && AllKept(db.artifacts, Next(db, a).artifacts)
    && (SnapshotsOk(db) ==> (SnapshotsOk(Next(db, a)) <==> !Strays(db, a)))
  }

  lemma CreateArtifactStep(db: Db, p: Principal, id: string, req: ArtifactRequest, now: Time)
    requires Inv(db)
    ensures StepOk(db, CreateArtifact(p, id, req, now))
  {
    hide Inv, SnapshotsOk, AllKept, CreateArtifactTx;
    var next := Next(db, CreateArtifact(p, id, req, now));
    CreateArtifactTables(db, p, id, req, now);
    if CreateArtifactTx(db, p, id, req, now).Ok? {
      hide Next;
      AddsKeepsInv(db, next, id, VersionId(id, 1));
    } else {
      SameTablesInv(db, next);
    }
  }

  lemma PatchStep(db: Db, p: Principal, id: string, base: int, content: Option<string>)
    requires Inv(db)
    ensures StepOk(db, PatchArtifact(p, id, base, content))
  {
    hide SnapshotsOk, AllKept, PatchArtifactTx, PointersOk;
    var next := Next(db, PatchArtifact(p, id, base, content));
    PatchTables(db, p, id, base, content);
    if PatchArtifactTx(db, p, id, base, content).Ok? {
      AddsKeepsInv(db, next, id, VersionId(id, base + 1));
    } else {
      SameTablesInv(db, next);
    }
  }

  lemma MutateStep(db: Db, p: Principal, r: string, m: Mutation, now: Time)
    requires Inv(db)
    ensures StepOk(db, MutateRun(p, r, m, now))
  {
    hide Inv, SnapshotsOk, AllKept, MutateRunTx, PublishResult, OwnsVersion;
    var next := Next(db, MutateRun(p, r, m, now));
    MutateTables(db, p, r, m, now);
    if MutateRunTx(db, p, r, m, now).Ok? && m.result.Some? {
      var t := db.runs[r].trip;
      var ref := m.result.value;
      var mid := PublishResult(db, t, ref);
      PublishKeepsInv(db, t, ref);
      PublishEffect(db, t, ref);
      SameTablesInv(mid, next);
      if SnapshotsOk(db) {
        PublishSnapshots(db, t, ref);
      }
    } else {
      SameTablesInv(db, next);
    }
  }

  lemma CommandStep(db: Db, p: Principal, id: string, req: CommandRequest)
    requires Inv(db)
    ensures StepOk(db, CommandArtifact(p, id, req))
  {
    hide Inv, SnapshotsOk, AllKept, CommandArtifactTx, Transition, FitsTrip, ArtifactAccess, FindJournal;
    var next := Next(db, CommandArtifact(p, id, req));
    CommandTables(db, p, id, req);
    var c := CommandArtifactTx(db, p, id, req);
    if c.Ok? && !c.value.out.replayed {
      var current := ArtifactAccess(db, p, id, None, true).value;
      var mid := Transition(db, current, req.command);
      TransitionKeepsInv(db, current, req.command);
      TransitionEffect(db, current, req.command);
      SameTablesInv(mid, next);
      if SnapshotsOk(db) {
        TransitionSnapshots(db, current, req.command);
      }
    } else {
      SameTablesInv(db, next);
    }
  }

  lemma EveryStep(db: Db, a: Action)
    requires Inv(db)
    ensures StepOk(db, a)
  {
    match a
    case CreateArtifact(p, id, req, now) => CreateArtifactStep(db, p, id, req, now);
    case PatchArtifact(p, id, base, content) => PatchStep(db, p, id, base, content);
    case MutateRun(p, r, m, now) => MutateStep(db, p, r, m, now);
    case CommandArtifact(p, id, req) => CommandStep(db, p, id, req);
    case _ => {
      hide Next, Inv, SnapshotsOk, AllKept, SameTables;
      if a.CreateTrip? || a.UpdateTrip? || a.SetMember? {
        TripActionInv(db, a);
      } else {
        RunActionTables(db, a);
        SameTablesInv(db, Next(db, a));
      }
    }
  }

  /** In every reachable state a set pointer names a stored, published version of its own trip. */
  lemma {:induction false} PointersAlwaysPublished(actions: seq<Action>)
    ensures Inv(After(EMPTY, actions))
  {
    if actions != [] {
      hide Next, Inv, AllKept, SnapshotsOk, Strays;
      PointersAlwaysPublished(actions[..|actions| - 1]);
      EveryStep(After(EMPTY, actions[..|actions| - 1]), actions[|actions| - 1]);
    }
  }

  /** No transaction of the run publishes a snapshot past its trip's pointer. */
  ghost predicate NeverStrays(actions: seq<Action>) {
    forall i :: 0 <= i < |actions| ==> !Strays(After(EMPTY, actions[..i]), actions[i])
  }

  lemma {:induction false} SnapshotsFollowPointers(actions: seq<Action>)
    requires NeverStrays(actions)
    ensures SnapshotsOk(After(EMPTY, actions))
  {
    if actions != [] {
      hide Next, Inv, AllKept, SnapshotsOk, Strays;
      var n := |actions| - 1;
      assert NeverStrays(actions[..n]) by {
        forall i | 0 <= i < n
          ensures !Strays(After(EMPTY, actions[..n][..i]), actions[..n][i])
        {
          assert actions[..n][..i] == actions[..i];
        }
      }
      SnapshotsFollowPointers(actions[..n]);
      PointersAlwaysPublished(actions[..n]);
      EveryStep(After(EMPTY, actions[..n]), actions[n]);
    } else {
      assert SnapshotsOk(EMPTY);
    }
  }

  /** Then a trip has at most one published snapshot version, and it is the pointer's target. */
  lemma AtMostOnePublishedSnapshot(actions: seq<Action>, v: VersionId, w: VersionId)
    requires NeverStrays(actions)
    requires var x := After(EMPTY, actions).artifacts;
             LiveSnapshot(x, v) && LiveSnapshot(x, w) && x[v.artifact].trip == x[w.artifact].trip
    ensures v == w && IsPointer(After(EMPTY, actions), After(EMPTY, actions).artifacts[v.artifact].trip, v)
  {
    hide After, NeverStrays;
    SnapshotsFollowPointers(actions);
  }

  /** The condition is exact: the first straying transaction breaks the property. */
  lemma StrayingBreaksIt(actions: seq<Action>, a: Action)
    requires NeverStrays(actions) && Strays(After(EMPTY, actions), a)
    ensures !SnapshotsOk(After(EMPTY, actions + [a]))
  {
    hide Next, Inv, AllKept, SnapshotsOk, Strays, NeverStrays;
    SnapshotsFollowPointers(actions);
    PointersAlwaysPublished(actions);
    EveryStep(After(EMPTY, actions), a);
    assert (actions + [a])[..|actions|] == actions;
  }

  lemma NeverStraysBefore(actions: seq<Action>, n: nat)
    requires NeverStrays(actions) && n <= |actions|
    ensures NeverStrays(actions[..n])
  {
    hide Strays, After;
    forall i | 0 <= i < n
      ensures !Strays(After(EMPTY, actions[..n][..i]), actions[..n][i])
    {
      assert actions[..n][..i] == actions[..i];
    }
  }

  lemma AfterNext(db: Db, actions: seq<Action>, n: nat)
    requires n < |actions|
    ensures After(db, actions[..n + 1]) == Next(After(db, actions[..n]), actions[n])
  {
    hide Next;
    assert actions[..n + 1][..n] == actions[..n];
  }

  /** Published snapshots stay at their pointers throughout a run exactly when none of its transactions strays. */
  lemma NeverStraysIff(actions: seq<Action>)
    ensures NeverStrays(actions) <==> forall n :: 0 <= n <= |actions| ==> SnapshotsOk(After(EMPTY, actions[..n]))
  {
    hide Next, After, Inv, AllKept, SnapshotsOk, Strays;
    if NeverStrays(actions) {
      forall n | 0 <= n <= |actions|
        ensures SnapshotsOk(After(EMPTY, actions[..n]))
      {
        NeverStraysBefore(actions, n);
        SnapshotsFollowPointers(actions[..n]);
      }
    }
    if forall n :: 0 <= n <= |actions| ==> SnapshotsOk(After(EMPTY, actions[..n])) {
      forall i | 0 <= i < |actions|
        ensures !Strays(After(EMPTY, actions[..i]), actions[i])
      {
        assert SnapshotsOk(After(EMPTY, actions[..i])) && SnapshotsOk(After(EMPTY, actions[..i + 1]));
        PointersAlwaysPublished(actions[..i]);
        EveryStep(After(EMPTY, actions[..i]), actions[i]);
        AfterNext(EMPTY, actions, i);
      }
    }
  }

  /** A concrete stray: a snapshot created as already published. */
  lemma PublishedAtCreationStrays()
    ensures var p := Principal("tenant", "user", false);
            var create := CreateArtifact(p, "a", ArtifactRequest("t", SNAPSHOT, Version(1, Published, "", None), None), 0);
            NeverStrays([CreateTrip(p, "t")]) && Strays(After(EMPTY, [CreateTrip(p, "t")]), create)
  {
  }

  const SAMPLE_USER := Principal("tenant", "user", false)

  /** A trip, a validated snapshot in it, and a run of it. */
  function SampleActions(): seq<Action> {
    [CreateTrip(SAMPLE_USER, "t"),
     CreateArtifact(SAMPLE_USER, "a", ArtifactRequest("t", SNAPSHOT, Version(1, Validated, "", None), None), 0),
     CreateRun(SAMPLE_USER, "r", RunRequest("t", RunCommand(Ask, "", None), None, None, "", ""))]
  }

  /** The run publishes the snapshot as a result of another type. */
  function SamplePublication(): Action {
    MutateRun(SAMPLE_USER, "r",
              Mutation(1, None, None, None, Some(ResultRef(VersionId("a", 1), "TravelAnswer")), None, None, "artifact.published", ""), 0)
  }

  lemma SampleTables()
    ensures var db := After(EMPTY, SampleActions());
            && "t" in db.trips && db.trips["t"].tenant == "tenant" && db.trips["t"].owner == "user" && db.trips["t"].pointer.None?
            && "r" in db.runs && db.runs["r"].trip == "t" && db.runs["r"].tenant == "tenant" && db.runs["r"].control == 1
            && "a" in db.artifacts && db.artifacts["a"] == Artifact("t", "tenant", SNAPSHOT, "user", [Version(1, Validated, "", None)])
    ensures NeverStrays(SampleActions())
  {
    var actions := SampleActions();
    assert actions[..0] == [] && After(EMPTY, actions[..0]) == EMPTY;
    AfterNext(EMPTY, actions, 0);
    AfterNext(EMPTY, actions, 1);
    AfterNext(EMPTY, actions, 2);
    assert actions[..3] == actions;
    hide After;
    var one := Next(EMPTY, actions[0]);
    assert one.trips == map["t" := Trip("tenant", "user", map["user" := Owner], true, 1, None)] && one.runs == map[] && one.keys == map[];
    var two := Next(one, actions[1]);
    assert two.trips == one.trips && two.runs == map[] && two.keys == map[];
    assert two.artifacts == map["a" := Artifact("t", "tenant", SNAPSHOT, "user", [Version(1, Validated, "", None)])];
    var three := Next(two, actions[2]);
    assert three.runs == map["r" := NewRun(SAMPLE_USER, actions[2].runRequest)];
    assert three.trips == two.trips && three.artifacts == two.artifacts;
    assert !Strays(EMPTY, actions[0]) && !Strays(one, actions[1]) && !Strays(two, actions[2]);
  }

  /** A concrete stray of the second kind. */
  lemma WrongTypeStrays()
    ensures NeverStrays(SampleActions()) && Strays(After(EMPTY, SampleActions()), SamplePublication())
  {
    SampleTables();
    hide After, NeverStrays, SampleActions;
  }

  // ---------------------------------------------------------------------------------------------
  // Replaying artifact commands

  predicate Unjournaled(rows: seq<OutboxRow>) {
    forall i :: 0 <= i < |rows| ==> !(rows[i].ArtifactNote? && rows[i].journal.Some?)
  }

  lemma {:induction false} UnjournaledRowsKeepTheJournal(rows: seq<OutboxRow>, more: seq<OutboxRow>, f: Fingerprint)
    requires Unjournaled(more)
    ensures FindJournal(rows + more, f) == FindJournal(rows, f)
  {
    if more == [] {
      assert rows + more == rows;
    } else {
      var n := |more| - 1;
      UnjournaledRowsKeepTheJournal(rows, more[..n], f);
      FindAppend(rows + more[..n], more[n], f);
      assert rows + more == (rows + more[..n]) + [more[n]];
    }
  }

  lemma RunActionRows(db: Db, a: Action) returns (rows: seq<OutboxRow>)
    requires a.CreateRun? || a.ClaimRun? || a.RenewRun? || a.ReleaseRun? || a.ResumeRun?
    ensures Next(db, a).outbox == db.outbox + rows && Unjournaled(rows)
  {
    if a.CreateRun? || a.ResumeRun? {
      rows := InsertingRows(db, a);
    } else {
      hide RunAccess, LeaseHeld, LeaseRequestOk, Active;
      rows := [];
    }
  }

  lemma InsertingRows(db: Db, a: Action) returns (rows: seq<OutboxRow>)
    requires a.CreateRun? || a.ResumeRun?
    ensures Next(db, a).outbox == db.outbox + rows && Unjournaled(rows)
  {
    hide TripAccess, RunAccess, CurrentArtifact, BaseConflict;
    rows := Next(db, a).outbox[|db.outbox|..];
  }

  lemma MutateRows(db: Db, a: Action) returns (rows: seq<OutboxRow>)
    requires a.MutateRun?
    ensures Next(db, a).outbox == db.outbox + rows && Unjournaled(rows)
  {
    hide TripAccess, RunAccess, LeaseHeld, SetStatus, Supersede, OwnsVersion, Mutated;
    rows := Next(db, a).outbox[|db.outbox|..];
  }

  lemma PlainRows(db: Db, a: Action) returns (rows: seq<OutboxRow>)
    requires a.CreateTrip? || a.UpdateTrip? || a.SetMember? || a.CreateArtifact? || a.PatchArtifact?
    ensures Next(db, a).outbox == db.outbox + rows && Unjournaled(rows)
  {
    hide TripAccess, LeaseTx, Registered;
    rows := Next(db, a).outbox[|db.outbox|..];
  }

  /** A journal row, once written, is the one every later lookup finds. */
  lemma NextJournal(db: Db, a: Action, f: Fingerprint)
    requires FindJournal(db.outbox, f).Some?
    ensures FindJournal(Next(db, a).outbox, f) == FindJournal(db.outbox, f)
  {
    hide Next, FindJournal;
    if a.CommandArtifact? {
      hide CommandArtifactTx, ArtifactAccess, Transition, FitsTrip;
      CommandTables(db, a.p, a.artifact, a.command);
      var c := CommandArtifactTx(db, a.p, a.artifact, a.command);
      if c.Ok? && !c.value.out.replayed {
        FindAppend(db.outbox, CommandNote(a.p, a.artifact, a.command, ArtifactAccess(db, a.p, a.artifact, None, true).value.id.version), f);
      }
    } else {
      var rows;
      if a.CreateTrip? || a.UpdateTrip? || a.SetMember? || a.CreateArtifact? || a.PatchArtifact? {
        rows := PlainRows(db, a);
      } else if a.MutateRun? {
        rows := MutateRows(db, a);
      } else {
        rows := RunActionRows(db, a);
      }
      UnjournaledRowsKeepTheJournal(db.outbox, rows, f);
    }
  }

  /** At most one outbox row answers a lookup, so the order in which rows are searched does not matter. */
  ghost predicate OneRowPerKey(rows: seq<OutboxRow>) {
    forall f, i, j :: 0 <= i < j < |rows| && JournalOf(rows[i], f) ==> !JournalOf(rows[j], f)
  }

  lemma AppendOneRow(rows: seq<OutboxRow>, row: OutboxRow)
    requires OneRowPerKey(rows) && forall f :: JournalOf(row, f) ==> FindJournal(rows, f).None?
    ensures OneRowPerKey(rows + [row])
  {
  }

  lemma {:induction false} AppendUnjournaled(rows: seq<OutboxRow>, more: seq<OutboxRow>)
    requires OneRowPerKey(rows) && Unjournaled(more)
    ensures OneRowPerKey(rows + more)
  {
  }

  lemma NextOneRowPerKey(db: Db, a: Action)
    requires OneRowPerKey(db.outbox)
    ensures OneRowPerKey(Next(db, a).outbox)
  {
    hide Next, OneRowPerKey;
    if a.CommandArtifact? {
      hide CommandArtifactTx, ArtifactAccess, Transition, FitsTrip, FindJournal;
      CommandTables(db, a.p, a.artifact, a.command);
      var c := CommandArtifactTx(db, a.p, a.artifact, a.command);
      if c.Ok? && !c.value.out.replayed {
        AppendOneRow(db.outbox, CommandNote(a.p, a.artifact, a.command, ArtifactAccess(db, a.p, a.artifact, None, true).value.id.version));
      }
    } else {
      var rows;
      if a.CreateTrip? || a.UpdateTrip? || a.SetMember? || a.CreateArtifact? || a.PatchArtifact? {
        rows := PlainRows(db, a);
      } else if a.MutateRun? {
        rows := MutateRows(db, a);
      } else {
        rows := RunActionRows(db, a);
      }
      AppendUnjournaled(db.outbox, rows);
    }
  }

  lemma {:induction false} OneJournalRowPerKey(actions: seq<Action>)
    ensures OneRowPerKey(After(EMPTY, actions).outbox)
  {
    if actions != [] {
      hide Next, OneRowPerKey;
      OneJournalRowPerKey(actions[..|actions| - 1]);
      NextOneRowPerKey(After(EMPTY, actions[..|actions| - 1]), actions[|actions| - 1]);
    }
  }

  lemma {:induction false} JournalForever(db: Db, actions: seq<Action>, f: Fingerprint)
    requires FindJournal(db.outbox, f).Some?
    ensures FindJournal(After(db, actions).outbox, f) == FindJournal(db.outbox, f)
  {
    if actions != [] {
      hide Next, FindJournal;
      JournalForever(db, actions[..|actions| - 1], f);
      NextJournal(After(db, actions[..|actions| - 1]), actions[|actions| - 1], f);
    }
  }

  lemma {:induction false} ContentForever(db: Db, actions: seq<Action>)
    requires Inv(db)
    ensures Inv(After(db, actions)) && AllKept(db.artifacts, After(db, actions).artifacts)
  {
    hide Next, AllKept, Inv, Strays, SnapshotsOk;
    if actions == [] {
      AllKeptRefl(db.artifacts);
    } else {
      var before := After(db, actions[..|actions| - 1]);
      ContentForever(db, actions[..|actions| - 1]);
      EveryStep(before, actions[|actions| - 1]);
      AllKeptTrans(db.artifacts, before.artifacts, Next(before, actions[|actions| - 1]).artifacts);
    }
  }

  /** The journal row of an answered command records its version and status. */
  predicate Answered(db: Db, p: Principal, a: string, req: CommandRequest, answer: ArtifactView) {
    && a in db.artifacts && HasVersion(db.artifacts[a], answer.id.version) && answer.id.artifact == a
    && SameContent(answer.row, ViewOf(db, answer.id).row)
    && answer.(row := ViewOf(db, answer.id).row) == ViewOf(db, answer.id)
    && db.artifacts[a].tenant == p.tenant && Registered(answer.kind, answer.row.schema)
    && FindJournal(db.outbox, FingerprintOf(p, a, req.key))
       == Some(Journal(FingerprintOf(p, a, req.key), req.requestHash, answer.id.version, answer.row.status))
  }

  /** Every row a lookup returns carries the fingerprint that was looked up. */
  lemma {:induction false} FoundJournalMatches(rows: seq<OutboxRow>, f: Fingerprint)
    ensures FindJournal(rows, f).Some? ==> FindJournal(rows, f).value.fingerprint == f
  {
    if rows != [] {
      FoundJournalMatches(rows[..|rows| - 1], f);
    }
  }

  lemma FreshAnswer(db: Db, p: Principal, a: string, req: CommandRequest)
    requires Inv(db)
    requires var c := CommandArtifactTx(db, p, a, req); c.Ok? && !c.value.out.replayed
    ensures Answered(Next(db, CommandArtifact(p, a, req)), p, a, req, CommandArtifactTx(db, p, a, req).value.out.artifact)
  {
    hide Transition, FindJournal, Homed, PointersOk, SnapshotsOk, Strays;
    var next := Next(db, CommandArtifact(p, a, req));
    CommandTables(db, p, a, req);
    EveryStep(db, CommandArtifact(p, a, req));
    var v := ArtifactAccess(db, p, a, None, true).value.id.version;
    FindAppend(db.outbox, CommandNote(p, a, req, v), FingerprintOf(p, a, req.key));
    hide Next;
    assert Kept(db.artifacts[a], next.artifacts[a]);
  }

  lemma ReplayedAnswer(db: Db, p: Principal, a: string, req: CommandRequest)
    requires Inv(db)
    requires var c := CommandArtifactTx(db, p, a, req); c.Ok? && c.value.out.replayed
    ensures Answered(db, p, a, req, CommandArtifactTx(db, p, a, req).value.out.artifact)
  {
    hide Transition, FindJournal, PointersOk, Registered;
    FoundJournalMatches(db.outbox, FingerprintOf(p, a, req.key));
    assert Uniform(db.artifacts[a]);
  }

  lemma AnsweredForever(db: Db, p: Principal, a: string, req: CommandRequest, answer: ArtifactView, actions: seq<Action>)
    requires Inv(db) && Answered(db, p, a, req, answer)
    ensures Answered(After(db, actions), p, a, req, answer)
  {
    hide After, FindJournal, Inv, Registered;
    ContentForever(db, actions);
    JournalForever(db, actions, FingerprintOf(p, a, req.key));
    assert Kept(db.artifacts[a], After(db, actions).artifacts[a]);
    assert SameContent(db.artifacts[a].versions[answer.id.version - 1], After(db, actions).artifacts[a].versions[answer.id.version - 1]);
  }

  /** In a state that holds the answer, the command gives it again to exactly the actors who may write to the trip. */
  lemma AnsweredReplays(db: Db, p: Principal, a: string, req: CommandRequest, answer: ArtifactView)
    requires Inv(db) && Answered(db, p, a, req, answer)
    ensures var c := CommandArtifactTx(db, p, a, req);
            if TripAccess(db, p, db.artifacts[a].trip, true).Ok?
            then c == Ok(Commit(db, CommandResult(answer, true)))
            else c.Err?
  {
  }

  /**
   * Repeating an artifact command gives exactly the first answer and changes nothing, whatever
   * happened in between, as long as the actor may still write to the trip; otherwise it fails.
   */
  lemma RepeatedCommandReplays(db: Db, p: Principal, a: string, req: CommandRequest, actions: seq<Action>)
    requires Inv(db) && CommandArtifactTx(db, p, a, req).Ok?
    ensures var later := After(Next(db, CommandArtifact(p, a, req)), actions);
            var again := CommandArtifactTx(later, p, a, req);
            && a in later.artifacts
            && if TripAccess(later, p, later.artifacts[a].trip, true).Ok?
               then again == Ok(Commit(later, CommandResult(CommandArtifactTx(db, p, a, req).value.out.artifact, true)))
               else again.Err?
  {
    var c := CommandArtifactTx(db, p, a, req);
    var next := Next(db, CommandArtifact(p, a, req));
    var later := After(next, actions);
    hide CommandArtifactTx, Inv, Strays, SnapshotsOk, AllKept;
    CommandTables(db, p, a, req);
    EveryStep(db, CommandArtifact(p, a, req));
    hide Next, After, TripAccess, ArtifactAccess, FitsTrip, Transition;
    if c.value.out.replayed {
      ReplayedAnswer(db, p, a, req);
    } else {
      FreshAnswer(db, p, a, req);
    }
    AnsweredForever(next, p, a, req, c.value.out.artifact, actions);
    ContentForever(next, actions);
    AnsweredReplays(later, p, a, req, c.value.out.artifact);
  }
}

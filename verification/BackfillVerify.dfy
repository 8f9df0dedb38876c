/**
 * The reconciliation of scripts/migration_v1/core.py: an independent reading of the target tables,
 * the manifest, the inventory records and the owner mapping that lists everything it finds wrong.
 */
module BackfillVerify {
  import opened Common
  import opened Backfill

  datatype Issue =
    | Integrity(code: string, count: nat)
    | Unresolved(key: nat)
    | ReferenceMissing(key: nat)
    | CrossTenantReference(key: nat)
    | OwnerMismatch(key: nat)
    | ArtifactTripOrphan(key: nat)
    | CurrentRefMismatch(key: nat)
    | ContractMismatch(key: nat)
    | ContentHashMismatch(key: nat)
    | ManifestSourceHashMismatch(key: nat)
    | ManifestTargetHashMismatch(key: nat)

  /** The issues by the part of the reconciliation that finds them. */
  datatype Report = Report(missing: set<nat>, orphans: set<nat>, integrity: seq<Issue>, records: seq<Issue>, countMismatch: bool)

  predicate Clean(r: Report) {
    r.missing == {} && r.orphans == {} && r.integrity == [] && r.records == [] && !r.countMismatch
  }

  function Flag(found: bool, issue: Issue): seq<Issue> {
    if found then [issue] else []
  }

  // ---------------------------------------------------------------------------------------------
  // Counts over whole tables

  function OrphanMembers(t: Tables): set<MemberKey> {
    set k | k in t.members && k.trip !in t.trips
  }

  function OrphanArtifacts(t: Tables): set<Id> {
    set k | k in t.artifacts && t.artifacts[k].trip !in t.trips
  }

  function OrphanVersions(t: Tables): set<VersionKey> {
    set k | k in t.versions && k.artifact !in t.artifacts
  }

  function CrossTenantMembers(t: Tables): set<MemberKey> {
    set k | k in t.members && k.trip in t.trips && t.members[k].tenant != t.trips[k.trip].tenant
  }

  function CrossTenantArtifacts(t: Tables): set<Id> {
    set k | k in t.artifacts && t.artifacts[k].trip in t.trips && t.artifacts[k].tenant != t.trips[t.artifacts[k].trip].tenant
  }

  function CrossTenantVersions(t: Tables): set<VersionKey> {
    set k | k in t.versions && k.artifact in t.artifacts && t.versions[k].tenant != t.artifacts[k.artifact].tenant
  }

  function InvalidCurrentRefs(t: Tables): set<Id> {
    set k | k in t.trips && t.trips[k].current.Some? && VersionKey(t.trips[k].current.value.0, t.trips[k].current.value.1) !in t.versions
  }

  function Counted(code: string, count: nat): seq<Issue> {
    Flag(count > 0, Integrity(code, count))
  }

  function IntegrityIssues(t: Tables): seq<Issue> {
    Counted("orphan_trip_members", |OrphanMembers(t)|)
    + Counted("orphan_artifacts", |OrphanArtifacts(t)|)
    + Counted("orphan_artifact_versions", |OrphanVersions(t)|)
    + Counted("cross_tenant_members", |CrossTenantMembers(t)|)
    + Counted("cross_tenant_artifacts", |CrossTenantArtifacts(t)|)
    + Counted("cross_tenant_artifact_versions", |CrossTenantVersions(t)|)
    + Counted("invalid_current_artifact_refs", |InvalidCurrentRefs(t)|)
  }

  // ---------------------------------------------------------------------------------------------
  // One record

  function RowIssues(t: Tables, e: Entry, r: Source, o: Owner): seq<Issue>
    requires TripId(r) in t.trips && MemberKeyOf(r, o) in t.members && ArtifactId(r) in t.artifacts && VersionKeyOf(r) in t.versions
  {
    var trip := t.trips[TripId(r)];
    var member := t.members[MemberKeyOf(r, o)];
    var artifact := t.artifacts[ArtifactId(r)];
    var version := t.versions[VersionKeyOf(r)];
    Flag(!(trip.tenant == member.tenant == artifact.tenant == version.tenant == o.tenant), CrossTenantReference(r.key))
    + Flag(trip.owner != o.user || member.role != "owner", OwnerMismatch(r.key))
    + Flag(artifact.trip != TripId(r), ArtifactTripOrphan(r.key))
    + Flag(trip.current != Some((ArtifactId(r), 1)), CurrentRefMismatch(r.key))
    + Flag(artifact.kind != ARCHIVE || version.status != "published", ContractMismatch(r.key))
    + Flag(version.content != ArchivedOf(r), ContentHashMismatch(r.key))
    + Flag(e.checksum != r.content, ManifestSourceHashMismatch(r.key))
    + Flag(e.contentChecksum != version.content, ManifestTargetHashMismatch(r.key))
  }

  function RecordIssues(t: Tables, m: map<nat, Entry>, owners: map<nat, Owner>, r: Source): seq<Issue> {
    if r.key !in m || r.key !in owners then [Unresolved(r.key)]
    else
      var o := owners[r.key];
      if TripId(r) !in t.trips || MemberKeyOf(r, o) !in t.members || ArtifactId(r) !in t.artifacts || VersionKeyOf(r) !in t.versions
      then [ReferenceMissing(r.key)]
      else RowIssues(t, m[r.key], r, o)
  }

  function AllRecordIssues(t: Tables, m: map<nat, Entry>, q: Request, n: nat): seq<Issue>
    requires n <= |q.records|
  {
    if n == 0 then [] else AllRecordIssues(t, m, q, n - 1) + RecordIssues(t, m, q.owners, q.records[n - 1])
  }

  // ---------------------------------------------------------------------------------------------
  // The report

  function Keys(q: Request): set<nat> {
    set i | 0 <= i < |q.records| :: q.records[i].key
  }

  function TripIds(m: map<nat, Entry>, q: Request): set<Id> {
    set k | k in Keys(q) && k in m :: m[k].trip
  }

  function ArtifactIds(m: map<nat, Entry>, q: Request): set<Id> {
    set k | k in Keys(q) && k in m :: m[k].artifact
  }

  function TargetTrips(t: Tables, ids: set<Id>): set<Id> {
    set k | k in t.trips && k in ids
  }

  function TargetArtifacts(t: Tables, ids: set<Id>): set<Id> {
    set k | k in t.artifacts && k in ids
  }

  function TargetVersions(t: Tables, ids: set<Id>): set<VersionKey> {
    set k | k in t.versions && k.artifact in ids && k.version == 1
  }

  function OwnerMemberships(t: Tables, ids: set<Id>): set<MemberKey> {
    set k | k in t.members && k.trip in ids && t.members[k].role == "owner"
  }

  predicate CountsAgree(t: Tables, m: map<nat, Entry>, q: Request) {
    && |TargetTrips(t, TripIds(m, q))| == |q.records|
    && |TargetArtifacts(t, ArtifactIds(m, q))| == |q.records|
    && |TargetVersions(t, ArtifactIds(m, q))| == |q.records|
    && |OwnerMemberships(t, TripIds(m, q))| == |q.records|
  }

  function Verify(t: Tables, m: map<nat, Entry>, q: Request): Report {
    Report(Keys(q) - m.Keys, m.Keys - Keys(q), IntegrityIssues(t), AllRecordIssues(t, m, q, |q.records|), !CountsAgree(t, m, q))
  }

  /** `verify`, whose loop appends the issues of one record after another. */
  method VerifyTarget(t: Tables, m: map<nat, Entry>, q: Request) returns (report: Report)
    ensures report == Verify(t, m, q)
    ensures Clean(report) <==> Sound(t, m, q)
  {
    hide IntegrityIssues, RecordIssues, CountsAgree, Sound, Clean;
    CleanIffSound(t, m, q);
    var expected := Keys(q);
    var issues: seq<Issue> := [];
    for i := 0 to |q.records|
      invariant issues == AllRecordIssues(t, m, q, i)
    {
      issues := issues + RecordIssues(t, m, q.owners, q.records[i]);
    }
    report := Report(expected - m.Keys, m.Keys - expected, IntegrityIssues(t), issues, !CountsAgree(t, m, q));
  }

  // ---------------------------------------------------------------------------------------------
  // A complete backfill reconciles

  /** What a completed backfill of empty tables leaves behind. */
  ghost predicate Done(q: Request, h: Host)
    requires Ready(q)
  {
    && Full(q, NO_ROWS, h.tables)
    && DoneUpTo(q, h, |q.records|)
    && forall k :: k in h.manifest ==> k in Keys(q)
  }

  lemma RecordIsClean(q: Request, h: Host, i: nat)
    requires Ready(q) && Done(q, h) && i < |q.records|
    ensures RecordIssues(h.tables, h.manifest, q.owners, q.records[i]) == []
  {
  }

  lemma {:induction false} RecordsAreClean(q: Request, h: Host, n: nat)
    requires Ready(q) && Done(q, h) && n <= |q.records|
    ensures AllRecordIssues(h.tables, h.manifest, q, n) == []
  {
    hide Done, RecordIssues;
    if n > 0 {
      RecordsAreClean(q, h, n - 1);
      RecordIsClean(q, h, n - 1);
    }
  }

  lemma ManifestIsExact(q: Request, h: Host)
    requires Ready(q) && Done(q, h)
    ensures h.manifest.Keys == Keys(q)
  {
  }

  lemma TablesAreWhole(q: Request, t: Tables)
    requires Ready(q) && Full(q, NO_ROWS, t)
    ensures IntegrityIssues(t) == []
  {
  }

  // ---------------------------------------------------------------------------------------------
  // Counting

  ghost predicate NoRepeats<T>(s: seq<T>) {
    forall i, j :: 0 <= i < j < |s| ==> s[i] != s[j]
  }

  lemma {:induction false} DistinctCount<T>(s: seq<T>, found: set<T>)
    requires NoRepeats(s)
    requires forall i :: 0 <= i < |s| ==> s[i] in found
    requires forall x :: x in found ==> x in s
    ensures |found| == |s|
  {
    if s == [] {
      assert found == {};
    } else {
      var n := |s| - 1;
      forall x | x in found - {s[n]}
        ensures x in s[..n]
      {
        assert x in s;
      }
      DistinctCount(s[..n], found - {s[n]});
    }
  }

  ghost function Trips(q: Request): seq<Id> {
    seq(|q.records|, i requires 0 <= i < |q.records| => TripId(q.records[i]))
  }

  ghost function Artifacts(q: Request): seq<Id> {
    seq(|q.records|, i requires 0 <= i < |q.records| => ArtifactId(q.records[i]))
  }

  ghost function Versions(q: Request): seq<VersionKey> {
    seq(|q.records|, i requires 0 <= i < |q.records| => VersionKeyOf(q.records[i]))
  }

  ghost function Members(q: Request): seq<MemberKey>
    requires Ready(q)
  {
    seq(|q.records|, i requires 0 <= i < |q.records| => MemberKeyOf(q.records[i], OwnerOf(q, q.records[i])))
  }

  lemma NoTwoAlike(q: Request)
    requires Ready(q)
    ensures NoRepeats(Trips(q)) && NoRepeats(Artifacts(q)) && NoRepeats(Versions(q)) && NoRepeats(Members(q))
  {
  }

  lemma KeyIndex(q: Request, k: nat) returns (i: nat)
    requires k in Keys(q)
    ensures i < |q.records| && q.records[i].key == k
  {
    i :| 0 <= i < |q.records| && q.records[i].key == k;
  }

  lemma EntryFound(q: Request, h: Host, i: nat)
    requires Ready(q) && Done(q, h) && i < |q.records|
    ensures q.records[i].key in h.manifest && EntryOk(h.manifest[q.records[i].key], q.records[i])
    ensures HasRows(h.tables, q.records[i], OwnerOf(q, q.records[i]))
  {
  }

  lemma IdsListed(q: Request, h: Host, i: nat)
    requires Ready(q) && Done(q, h) && i < |q.records|
    ensures TripId(q.records[i]) in TripIds(h.manifest, q) && ArtifactId(q.records[i]) in ArtifactIds(h.manifest, q)
  {
  }

  lemma TripIdsAreTrips(q: Request, h: Host, x: Id)
    requires Ready(q) && Done(q, h) && x in TripIds(h.manifest, q)
    ensures x in Trips(q)
  {
    hide Done, HasRows, Keys;
    var k :| k in Keys(q) && k in h.manifest && h.manifest[k].trip == x;
    var i := KeyIndex(q, k);
    EntryFound(q, h, i);
    assert Trips(q)[i] == x;
  }

  lemma ArtifactIdsAreArtifacts(q: Request, h: Host, x: Id)
    requires Ready(q) && Done(q, h) && x in ArtifactIds(h.manifest, q)
    ensures x in Artifacts(q)
  {
    hide Done, HasRows, Keys;
    var k :| k in Keys(q) && k in h.manifest && h.manifest[k].artifact == x;
    var i := KeyIndex(q, k);
    EntryFound(q, h, i);
    assert Artifacts(q)[i] == x;
  }

  lemma TripCount(q: Request, h: Host)
    requires Ready(q) && Done(q, h)
    ensures |TargetTrips(h.tables, TripIds(h.manifest, q))| == |q.records|
  {
    hide Done, TripIds, NoRepeats, Ready;
    NoTwoAlike(q);
    var found := TargetTrips(h.tables, TripIds(h.manifest, q));
    forall i | 0 <= i < |q.records|
      ensures Trips(q)[i] in found
    {
      EntryFound(q, h, i);
      IdsListed(q, h, i);
    }
    forall x | x in found
      ensures x in Trips(q)
    {
      TripIdsAreTrips(q, h, x);
    }
    DistinctCount(Trips(q), found);
  }

  lemma ArtifactCount(q: Request, h: Host)
    requires Ready(q) && Done(q, h)
    ensures |TargetArtifacts(h.tables, ArtifactIds(h.manifest, q))| == |q.records|
  {
    hide Done, ArtifactIds, NoRepeats, Ready;
    NoTwoAlike(q);
    var found := TargetArtifacts(h.tables, ArtifactIds(h.manifest, q));
    forall i | 0 <= i < |q.records|
      ensures Artifacts(q)[i] in found
    {
      EntryFound(q, h, i);
      IdsListed(q, h, i);
    }
    forall x | x in found
      ensures x in Artifacts(q)
    {
      ArtifactIdsAreArtifacts(q, h, x);
    }
    DistinctCount(Artifacts(q), found);
  }

  lemma VersionCount(q: Request, h: Host)
    requires Ready(q) && Done(q, h)
    ensures |TargetVersions(h.tables, ArtifactIds(h.manifest, q))| == |q.records|
  {
    hide Done, ArtifactIds, NoRepeats, Ready;
    NoTwoAlike(q);
    var found := TargetVersions(h.tables, ArtifactIds(h.manifest, q));
    forall i | 0 <= i < |q.records|
      ensures Versions(q)[i] in found
    {
      EntryFound(q, h, i);
      IdsListed(q, h, i);
    }
    forall x | x in found
      ensures x in Versions(q)
    {
      ArtifactIdsAreArtifacts(q, h, x.artifact);
      var i :| 0 <= i < |q.records| && Artifacts(q)[i] == x.artifact;
      assert Versions(q)[i] == x;
    }
    DistinctCount(Versions(q), found);
  }

  lemma MemberOfRecord(q: Request, t: Tables, k: MemberKey)
    requires Ready(q) && Full(q, NO_ROWS, t) && k in t.members
    ensures k in Members(q)
  {
    hide TargetTrip, TargetArtifact, TargetVersion, HasRows;
    assert TargetMember(q, k, t.members[k]);
    var i :| 0 <= i < |q.records| && q.records[i].key in q.owners && k == MemberKeyOf(q.records[i], q.owners[q.records[i].key])
             && t.members[k] == MemberOf(q.records[i], q.owners[q.records[i].key]);
    assert Members(q)[i] == k;
  }

  lemma MembershipCount(q: Request, h: Host)
    requires Ready(q) && Done(q, h)
    ensures |OwnerMemberships(h.tables, TripIds(h.manifest, q))| == |q.records|
  {
    hide Done, TripIds, NoRepeats, Full;
    NoTwoAlike(q);
    DoneIsFull(q, h);
    var found := OwnerMemberships(h.tables, TripIds(h.manifest, q));
    forall i | 0 <= i < |q.records|
      ensures Members(q)[i] in found
    {
      EntryFound(q, h, i);
      IdsListed(q, h, i);
    }
    forall x | x in found
      ensures x in Members(q)
    {
      MemberOfRecord(q, h.tables, x);
    }
    DistinctCount(Members(q), found);
  }

  lemma DoneIsClean(q: Request, h: Host)
    requires Ready(q) && Done(q, h)
    ensures Clean(Verify(h.tables, h.manifest, q))
  {
    hide Done, AllRecordIssues, IntegrityIssues, TargetTrips, TargetArtifacts, TargetVersions, OwnerMemberships, TripIds, ArtifactIds;
    ManifestIsExact(q, h);
    DoneIsFull(q, h);
    TablesAreWhole(q, h.tables);
    RecordsAreClean(q, h, |q.records|);
    TripCount(q, h);
    ArtifactCount(q, h);
    VersionCount(q, h);
    MembershipCount(q, h);
  }

  lemma DoneIsFull(q: Request, h: Host)
    requires Ready(q) && Done(q, h)
    ensures Full(q, NO_ROWS, h.tables)
  {
  }

  // ---------------------------------------------------------------------------------------------
  // What a clean report guarantees

  /** The rows, the owner and the manifest entry of one record agree. */
  predicate RecordSound(t: Tables, m: map<nat, Entry>, owners: map<nat, Owner>, r: Source) {
    var trip, artifact := Migrated("trip", r.key), Migrated("artifact", r.key);
    var archived := Archived(r.content, r.key, r.content, r.content);
    && r.key in m && m[r.key].checksum == r.content && m[r.key].contentChecksum == archived
    && r.key in owners
    && var o := owners[r.key];
       && trip in t.trips && MemberKey(trip, o.user) in t.members && artifact in t.artifacts && VersionKey(artifact, 1) in t.versions
       && t.trips[trip].tenant == o.tenant && t.members[MemberKey(trip, o.user)].tenant == o.tenant
       && t.artifacts[artifact].tenant == o.tenant && t.versions[VersionKey(artifact, 1)].tenant == o.tenant
       && t.trips[trip].owner == o.user && t.members[MemberKey(trip, o.user)].role == "owner"
       && t.artifacts[artifact].trip == trip && t.trips[trip].current == Some((artifact, 1))
       && t.artifacts[artifact].kind == "ImportedTripArchive" && t.versions[VersionKey(artifact, 1)].status == "published"
       && t.versions[VersionKey(artifact, 1)].content == archived
  }

  /** No row of any table is an orphan, crosses tenants or has a dangling current reference. */
  predicate TablesSound(t: Tables) {
    && (forall k :: k in t.members ==> k.trip in t.trips && t.members[k].tenant == t.trips[k.trip].tenant)
    && (forall k :: k in t.artifacts ==> t.artifacts[k].trip in t.trips && t.artifacts[k].tenant == t.trips[t.artifacts[k].trip].tenant)
    && (forall k :: k in t.versions ==> k.artifact in t.artifacts && t.versions[k].tenant == t.artifacts[k.artifact].tenant)
    && (forall k :: k in t.trips && t.trips[k].current.Some? ==>
          VersionKey(t.trips[k].current.value.0, t.trips[k].current.value.1) in t.versions)
  }

  /** The manifest lists exactly the records. */
  predicate ManifestLists(m: map<nat, Entry>, q: Request) {
    && (forall i :: 0 <= i < |q.records| ==> q.records[i].key in m)
    && (forall k :: k in m ==> exists i :: 0 <= i < |q.records| && q.records[i].key == k)
  }

  /** The manifest names different trips and artifacts for different records, all of which exist. */
  predicate NamesExist(t: Tables, m: map<nat, Entry>, q: Request)
    requires ManifestLists(m, q)
  {
    && (forall i, j :: 0 <= i < j < |q.records| ==>
          m[q.records[i].key].trip != m[q.records[j].key].trip && m[q.records[i].key].artifact != m[q.records[j].key].artifact)
    && (forall i :: 0 <= i < |q.records| ==>
          && m[q.records[i].key].trip in t.trips && m[q.records[i].key].artifact in t.artifacts
          && VersionKey(m[q.records[i].key].artifact, 1) in t.versions)
  }

  /** The owner memberships of the trips that the manifest names are as many as the records. */
  predicate OwnersCounted(t: Tables, m: map<nat, Entry>, q: Request)
    requires ManifestLists(m, q)
  {
    var memberships :=
      set k | k in t.members && t.members[k].role == "owner" && exists i :: 0 <= i < |q.records| && m[q.records[i].key].trip == k.trip;
    |memberships| == |q.records|
  }

  predicate Sound(t: Tables, m: map<nat, Entry>, q: Request) {
    && ManifestLists(m, q)
    && (forall i :: 0 <= i < |q.records| ==> RecordSound(t, m, q.owners, q.records[i]))
    && TablesSound(t)
    && NamesExist(t, m, q) && OwnersCounted(t, m, q)
  }

  lemma RecordSoundIff(t: Tables, m: map<nat, Entry>, owners: map<nat, Owner>, r: Source)
    ensures RecordIssues(t, m, owners, r) == [] <==> RecordSound(t, m, owners, r)
  {
  }

  lemma TablesSoundIff(t: Tables)
    ensures IntegrityIssues(t) == [] <==> TablesSound(t)
  {
    assert IntegrityIssues(t) == [] <==>
      && |OrphanMembers(t)| == 0 && |OrphanArtifacts(t)| == 0 && |OrphanVersions(t)| == 0
      && |CrossTenantMembers(t)| == 0 && |CrossTenantArtifacts(t)| == 0 && |CrossTenantVersions(t)| == 0
      && |InvalidCurrentRefs(t)| == 0 by {
      hide OrphanMembers, OrphanArtifacts, OrphanVersions, CrossTenantMembers, CrossTenantArtifacts, CrossTenantVersions, InvalidCurrentRefs;
    }
    hide IntegrityIssues;
    MembersSoundIff(t);
    ArtifactsSoundIff(t);
    VersionsSoundIff(t);
    CurrentSoundIff(t);
    hide OrphanMembers, OrphanArtifacts, OrphanVersions, CrossTenantMembers, CrossTenantArtifacts, CrossTenantVersions, InvalidCurrentRefs;
  }

  lemma MembersSoundIff(t: Tables)
    ensures |OrphanMembers(t)| == 0 && |CrossTenantMembers(t)| == 0 <==>
            forall k :: k in t.members ==> k.trip in t.trips && t.members[k].tenant == t.trips[k.trip].tenant
  {
    if |OrphanMembers(t)| == 0 && |CrossTenantMembers(t)| == 0 {
      forall k | k in t.members
        ensures k.trip in t.trips && t.members[k].tenant == t.trips[k.trip].tenant
      {
        assert k !in OrphanMembers(t) && k !in CrossTenantMembers(t);
      }
    }
    if forall k :: k in t.members ==> k.trip in t.trips && t.members[k].tenant == t.trips[k.trip].tenant {
      assert OrphanMembers(t) == {} && CrossTenantMembers(t) == {};
    }
  }

  lemma ArtifactsSoundIff(t: Tables)
    ensures |OrphanArtifacts(t)| == 0 && |CrossTenantArtifacts(t)| == 0 <==>
            forall k :: k in t.artifacts ==> t.artifacts[k].trip in t.trips && t.artifacts[k].tenant == t.trips[t.artifacts[k].trip].tenant
  {
    if |OrphanArtifacts(t)| == 0 && |CrossTenantArtifacts(t)| == 0 {
      forall k | k in t.artifacts
        ensures t.artifacts[k].trip in t.trips && t.artifacts[k].tenant == t.trips[t.artifacts[k].trip].tenant
      {
        assert k !in OrphanArtifacts(t) && k !in CrossTenantArtifacts(t);
      }
    }
    if forall k :: k in t.artifacts ==> t.artifacts[k].trip in t.trips && t.artifacts[k].tenant == t.trips[t.artifacts[k].trip].tenant {
      assert OrphanArtifacts(t) == {} && CrossTenantArtifacts(t) == {};
    }
  }

  lemma VersionsSoundIff(t: Tables)
    ensures |OrphanVersions(t)| == 0 && |CrossTenantVersions(t)| == 0 <==>
            forall k :: k in t.versions ==> k.artifact in t.artifacts && t.versions[k].tenant == t.artifacts[k.artifact].tenant
  {
    if |OrphanVersions(t)| == 0 && |CrossTenantVersions(t)| == 0 {
      forall k | k in t.versions
        ensures k.artifact in t.artifacts && t.versions[k].tenant == t.artifacts[k.artifact].tenant
      {
        assert k !in OrphanVersions(t) && k !in CrossTenantVersions(t);
      }
    }
    if forall k :: k in t.versions ==> k.artifact in t.artifacts && t.versions[k].tenant == t.artifacts[k.artifact].tenant {
      assert OrphanVersions(t) == {} && CrossTenantVersions(t) == {};
    }
  }

  lemma CurrentSoundIff(t: Tables)
    ensures |InvalidCurrentRefs(t)| == 0 <==>
            forall k :: k in t.trips && t.trips[k].current.Some? ==>
              VersionKey(t.trips[k].current.value.0, t.trips[k].current.value.1) in t.versions
  {
    if |InvalidCurrentRefs(t)| == 0 {
      forall k | k in t.trips && t.trips[k].current.Some?
        ensures VersionKey(t.trips[k].current.value.0, t.trips[k].current.value.1) in t.versions
      {
        assert k !in InvalidCurrentRefs(t);
      }
    }
    if forall k :: k in t.trips && t.trips[k].current.Some? ==>
         VersionKey(t.trips[k].current.value.0, t.trips[k].current.value.1) in t.versions {
      assert InvalidCurrentRefs(t) == {};
    }
  }

  /** A set drawn from a list is as large as the list exactly when the list has no repeats and lies in the set. */
  lemma {:induction false} CountMeansDistinct<T>(s: seq<T>, found: set<T>)
    requires forall x :: x in found ==> x in s
    ensures |found| <= |s|
    ensures |found| == |s| <==> NoRepeats(s) && forall i :: 0 <= i < |s| ==> s[i] in found
  {
    if s == [] {
      assert found == {};
    } else {
      var n := |s| - 1;
      var smaller := found - {s[n]};
      forall x | x in smaller
        ensures x in s[..n]
      {
        assert x in s;
      }
      CountMeansDistinct(s[..n], smaller);
      assert |found| == |smaller| + if s[n] in found then 1 else 0;
      if |found| == |s| {
        assert forall i :: 0 <= i < n ==> s[..n][i] == s[i];
        forall i | 0 <= i < n
          ensures s[i] != s[n]
        {
          assert s[..n][i] in smaller;
        }
      }
      if NoRepeats(s) && forall i :: 0 <= i < |s| ==> s[i] in found {
        DistinctCount(s, found);
      }
    }
  }

  ghost function NamedTrips(m: map<nat, Entry>, q: Request): seq<Id>
    requires ManifestLists(m, q)
  {
    seq(|q.records|, i requires 0 <= i < |q.records| => m[q.records[i].key].trip)
  }

  ghost function NamedArtifacts(m: map<nat, Entry>, q: Request): seq<Id>
    requires ManifestLists(m, q)
  {
    seq(|q.records|, i requires 0 <= i < |q.records| => m[q.records[i].key].artifact)
  }

  ghost function NamedVersions(m: map<nat, Entry>, q: Request): seq<VersionKey>
    requires ManifestLists(m, q)
  {
    seq(|q.records|, i requires 0 <= i < |q.records| => VersionKey(m[q.records[i].key].artifact, 1))
  }

  lemma NamedIds(m: map<nat, Entry>, q: Request)
    requires ManifestLists(m, q)
    ensures forall x :: x in TripIds(m, q) <==> x in NamedTrips(m, q)
    ensures forall x :: x in ArtifactIds(m, q) <==> x in NamedArtifacts(m, q)
  {
    forall i | 0 <= i < |q.records|
      ensures NamedTrips(m, q)[i] in TripIds(m, q) && NamedArtifacts(m, q)[i] in ArtifactIds(m, q)
    {
      hide Keys;
    }
    forall x | x in TripIds(m, q)
      ensures x in NamedTrips(m, q)
    {
      hide Keys, ManifestLists;
      var k :| k in Keys(q) && k in m && m[k].trip == x;
      var i := KeyIndex(q, k);
      assert NamedTrips(m, q)[i] == x;
    }
    forall x | x in ArtifactIds(m, q)
      ensures x in NamedArtifacts(m, q)
    {
      hide Keys, ManifestLists;
      var k :| k in Keys(q) && k in m && m[k].artifact == x;
      var i := KeyIndex(q, k);
      assert NamedArtifacts(m, q)[i] == x;
    }
    hide Keys, ManifestLists, TripIds, ArtifactIds, NamedTrips, NamedArtifacts;
  }

  lemma TripsCounted(t: Tables, m: map<nat, Entry>, q: Request)
    requires ManifestLists(m, q)
    ensures |TargetTrips(t, TripIds(m, q))| == |q.records| <==>
            NoRepeats(NamedTrips(m, q)) && forall i :: 0 <= i < |q.records| ==> m[q.records[i].key].trip in t.trips
  {
    NamedIds(m, q);
    hide TripIds, ArtifactIds, Keys, ManifestLists, NoRepeats;
    var names, found := NamedTrips(m, q), TargetTrips(t, TripIds(m, q));
    CountMeansDistinct(names, found);
    assert forall i :: 0 <= i < |names| ==> names[i] == m[q.records[i].key].trip && names[i] in TripIds(m, q);
  }

  lemma ArtifactsCounted(t: Tables, m: map<nat, Entry>, q: Request)
    requires ManifestLists(m, q)
    ensures |TargetArtifacts(t, ArtifactIds(m, q))| == |q.records| <==>
            NoRepeats(NamedArtifacts(m, q)) && forall i :: 0 <= i < |q.records| ==> m[q.records[i].key].artifact in t.artifacts
  {
    NamedIds(m, q);
    hide TripIds, ArtifactIds, Keys, ManifestLists, NoRepeats;
    var names, found := NamedArtifacts(m, q), TargetArtifacts(t, ArtifactIds(m, q));
    CountMeansDistinct(names, found);
    assert forall i :: 0 <= i < |names| ==> names[i] == m[q.records[i].key].artifact && names[i] in ArtifactIds(m, q);
  }

  lemma VersionsCounted(t: Tables, m: map<nat, Entry>, q: Request)
    requires ManifestLists(m, q)
    ensures |TargetVersions(t, ArtifactIds(m, q))| == |q.records| <==>
            NoRepeats(NamedVersions(m, q)) && forall i :: 0 <= i < |q.records| ==> VersionKey(m[q.records[i].key].artifact, 1) in t.versions
  {
    NamedIds(m, q);
    hide TripIds, ArtifactIds, Keys, ManifestLists, NoRepeats;
    var names, found := NamedVersions(m, q), TargetVersions(t, ArtifactIds(m, q));
    forall x | x in found
      ensures x in names
    {
      assert x.artifact in NamedArtifacts(m, q);
      var i :| 0 <= i < |q.records| && NamedArtifacts(m, q)[i] == x.artifact;
      assert names[i] == x;
    }
    CountMeansDistinct(names, found);
    assert forall i :: 0 <= i < |names| ==> names[i] == VersionKey(m[q.records[i].key].artifact, 1);
    assert forall i :: 0 <= i < |names| ==> NamedArtifacts(m, q)[i] in ArtifactIds(m, q);
  }

  lemma OwnersCountedIff(t: Tables, m: map<nat, Entry>, q: Request)
    requires ManifestLists(m, q)
    ensures |OwnerMemberships(t, TripIds(m, q))| == |q.records| <==> OwnersCounted(t, m, q)
  {
    NamedIds(m, q);
    hide TripIds, Keys;
    forall x: Id
      ensures x in TripIds(m, q) <==> exists i :: 0 <= i < |q.records| && m[q.records[i].key].trip == x
    {
      if x in NamedTrips(m, q) {
        var i :| 0 <= i < |q.records| && NamedTrips(m, q)[i] == x;
        assert m[q.records[i].key].trip == x;
      }
      if i :| 0 <= i < |q.records| && m[q.records[i].key].trip == x {
        assert NamedTrips(m, q)[i] == x;
      }
    }
    assert OwnerMemberships(t, TripIds(m, q)) ==
      set k | k in t.members && t.members[k].role == "owner" && exists i :: 0 <= i < |q.records| && m[q.records[i].key].trip == k.trip;
  }

  lemma NoRepeatsIff(m: map<nat, Entry>, q: Request)
    requires ManifestLists(m, q)
    ensures NoRepeats(NamedTrips(m, q)) && NoRepeats(NamedArtifacts(m, q)) <==>
            forall i, j :: 0 <= i < j < |q.records| ==>
              m[q.records[i].key].trip != m[q.records[j].key].trip && m[q.records[i].key].artifact != m[q.records[j].key].artifact
    ensures NoRepeats(NamedVersions(m, q)) <==> NoRepeats(NamedArtifacts(m, q))
  {
    KeysDiffer(NamedArtifacts(m, q), NamedVersions(m, q));
    var trips, artifacts := NamedTrips(m, q), NamedArtifacts(m, q);
    assert forall i :: 0 <= i < |q.records| ==>
      q.records[i].key in m && trips[i] == m[q.records[i].key].trip && artifacts[i] == m[q.records[i].key].artifact;
    hide NoRepeats, ManifestLists, NamedTrips, NamedArtifacts, NamedVersions;
  }

  lemma KeysDiffer(ids: seq<Id>, keys: seq<VersionKey>)
    requires |ids| == |keys| && forall i :: 0 <= i < |ids| ==> keys[i] == VersionKey(ids[i], 1)
    ensures NoRepeats(keys) <==> NoRepeats(ids)
  {
  }

  lemma CountsAgreeIff(t: Tables, m: map<nat, Entry>, q: Request)
    requires ManifestLists(m, q)
    ensures CountsAgree(t, m, q) <==> NamesExist(t, m, q) && OwnersCounted(t, m, q)
  {
    hide TripIds, ArtifactIds, TargetTrips, TargetArtifacts, TargetVersions, OwnerMemberships, OwnersCounted, NoRepeats, ManifestLists;
    TripsCounted(t, m, q);
    ArtifactsCounted(t, m, q);
    VersionsCounted(t, m, q);
    OwnersCountedIff(t, m, q);
    NoRepeatsIff(m, q);
  }

  lemma ManifestListsIff(m: map<nat, Entry>, q: Request)
    ensures Keys(q) == m.Keys <==> ManifestLists(m, q)
  {
    if Keys(q) == m.Keys {
      forall k | k in m
        ensures exists i :: 0 <= i < |q.records| && q.records[i].key == k
      {
        assert k in Keys(q);
      }
      forall i | 0 <= i < |q.records|
        ensures q.records[i].key in m
      {
        assert q.records[i].key in Keys(q);
      }
    }
  }

  lemma {:induction false} AllRecordsSoundIff(t: Tables, m: map<nat, Entry>, q: Request, n: nat)
    requires n <= |q.records|
    ensures AllRecordIssues(t, m, q, n) == [] <==> forall i :: 0 <= i < n ==> RecordSound(t, m, q.owners, q.records[i])
  {
    hide RecordIssues, RecordSound;
    if n > 0 {
      AllRecordsSoundIff(t, m, q, n - 1);
      RecordSoundIff(t, m, q.owners, q.records[n - 1]);
    }
  }

  /** A report is clean exactly on sound tables and manifest. */
  lemma CleanIffSound(t: Tables, m: map<nat, Entry>, q: Request)
    ensures Clean(Verify(t, m, q)) <==> Sound(t, m, q)
  {
    hide IntegrityIssues, AllRecordIssues, CountsAgree, TablesSound, RecordSound, NamesExist, OwnersCounted, ManifestLists, Keys;
    ManifestListsIff(m, q);
    assert Keys(q) == m.Keys <==> Keys(q) - m.Keys == {} && m.Keys - Keys(q) == {};
    TablesSoundIff(t);
    AllRecordsSoundIff(t, m, q, |q.records|);
    if ManifestLists(m, q) {
      CountsAgreeIff(t, m, q);
    }
  }

  const FRESH := Host(NO_ROWS, map[], None, false, false)

  /**
   * A backfill that completes on empty tables with a fresh manifest, through any earlier stops and
   * with any batch sizes, reconciles without a single issue.
   */
  lemma CompleteBackfillReconciles(q: Request, specs: seq<Spec>, last: Spec)
    requires Ready(q) && Run(Runs(FRESH, q, specs), q, last).1.Complete?
    ensures var h := Run(Runs(FRESH, q, specs), q, last).0;
            Clean(Verify(h.tables, h.manifest, q))
  {
    hide Runs, Run, Full, Clean, Verify;
    var h := Run(Runs(FRESH, q, specs), q, last).0;
    CompleteIsFull(q, FRESH, specs, last);
    assert forall k :: k in h.manifest ==> k in Keys(q) by {
      hide DoneUpTo, Between;
    }
    DoneIsClean(q, h);
  }

  /** On empty tables a run that is not stopped always completes, and then reconciles, however often it was stopped before. */
  lemma FreshBackfillEndsReconciled(q: Request, specs: seq<Spec>, last: Spec)
    requires Ready(q) && 1 <= last.size <= 10000 && last.budget >= 3 * |q.records| + 2
    ensures var out := Run(Runs(FRESH, q, specs), q, last);
            out.1.Complete? && Clean(Verify(out.0.tables, out.0.manifest, q))
  {
    assert Compatible(q, FRESH.tables);
    hide Runs, Run, Compatible, Verify, Clean;
    CompletesIffCompatible(q, FRESH, specs, last);
    CompleteBackfillReconciles(q, specs, last);
  }
}

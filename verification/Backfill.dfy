/**
 * The offline backfill of scripts/migration_v1/core.py: deterministic target rows, batches that
 * commit on their own, a manifest and a cursor that are written afterwards, and a stop after any
 * of these writes.
 *
 * Digests are taken as injective, so a checksum is the value it digests and a deterministic
 * identifier is its prefix with the source key. A source key is its rank in cursor order.
 */
module Backfill {
  import opened Common

  datatype Content = Content(title: string, body: string)

  /** A legacy record; `created` is in its payload but not in its public content. */
  datatype Source = Source(key: nat, content: Content, created: Time)

  datatype Owner = Owner(tenant: string, user: string, locale: string, timezone: string)

  datatype Id = Migrated(prefix: string, key: nat) | Existing(name: string)

  datatype TripRow = TripRow(
    tenant: string, owner: string, title: string, locale: string, timezone: string, status: string, version: int,
    current: Option<(Id, int)>, created: Time, updated: Time)

  datatype MemberRow = MemberRow(tenant: string, role: string, version: int, created: Time, updated: Time)

  datatype ArtifactRow = ArtifactRow(trip: Id, tenant: string, kind: string, createdBy: string, created: Time)

  /** The public content with the three provenance checksums. */
  datatype Archived = Archived(content: Content, sourceRef: nat, sourceChecksum: Content, projectionChecksum: Content)

  datatype VersionRow = VersionRow(
    tenant: string, schema: int, status: string, content: Archived, parent: Option<int>, created: Time)

  datatype MemberKey = MemberKey(trip: Id, user: string)

  datatype VersionKey = VersionKey(artifact: Id, version: int)

  datatype Tables = Tables(
    trips: map<Id, TripRow>, members: map<MemberKey, MemberRow>, artifacts: map<Id, ArtifactRow>, versions: map<VersionKey, VersionRow>)

  const NO_ROWS := Tables(map[], map[], map[], map[])

  const ARCHIVE := "ImportedTripArchive"

  // ---------------------------------------------------------------------------------------------
  // Target rows

  function TripId(r: Source): Id {
    Migrated("trip", r.key)
  }

  function ArtifactId(r: Source): Id {
    Migrated("artifact", r.key)
  }

  function Title(c: Content): string {
    var t := if c.title != "" then c.title else "Legacy trip";
    if |t| <= 160 then t else t[..160]
  }

  function ArchivedOf(r: Source): Archived {
    Archived(r.content, r.key, r.content, r.content)
  }

  function TripOf(r: Source, o: Owner): TripRow {
    TripRow(o.tenant, o.user, Title(r.content), o.locale, o.timezone, "active", 1, Some((ArtifactId(r), 1)), r.created, r.created)
  }

  function MemberOf(r: Source, o: Owner): MemberRow {
    MemberRow(o.tenant, "owner", 1, r.created, r.created)
  }

  function ArtifactOf(r: Source, o: Owner): ArtifactRow {
    ArtifactRow(TripId(r), o.tenant, ARCHIVE, o.user, r.created)
  }

  function VersionOf(r: Source, o: Owner): VersionRow {
    VersionRow(o.tenant, 1, "published", ArchivedOf(r), None, r.created)
  }

  function MemberKeyOf(r: Source, o: Owner): MemberKey {
    MemberKey(TripId(r), o.user)
  }

  function VersionKeyOf(r: Source): VersionKey {
    VersionKey(ArtifactId(r), 1)
  }

  // ---------------------------------------------------------------------------------------------
  // Applying records

  /** `_insert_or_validate`: a new row, the same row again, or a refusal. */
  function Put<K, V(==)>(m: map<K, V>, k: K, v: V): Option<map<K, V>> {
    if k !in m then Some(m[k := v]) else if m[k] == v then Some(m) else None
  }

  function ApplyRecord(t: Tables, r: Source, o: Owner): Option<Tables> {
    var trips := Put(t.trips, TripId(r), TripOf(r, o));
    if trips.None? then None
    else
      var members := Put(t.members, MemberKeyOf(r, o), MemberOf(r, o));
      if members.None? then None
      else
        var artifacts := Put(t.artifacts, ArtifactId(r), ArtifactOf(r, o));
        if artifacts.None? then None
        else
          var versions := Put(t.versions, VersionKeyOf(r), VersionOf(r, o));
          if versions.None? then None else Some(Tables(trips.value, members.value, artifacts.value, versions.value))
  }

  predicate HasRows(t: Tables, r: Source, o: Owner) {
    && TripId(r) in t.trips && t.trips[TripId(r)] == TripOf(r, o)
    && MemberKeyOf(r, o) in t.members && t.members[MemberKeyOf(r, o)] == MemberOf(r, o)
    && ArtifactId(r) in t.artifacts && t.artifacts[ArtifactId(r)] == ArtifactOf(r, o)
    && VersionKeyOf(r) in t.versions && t.versions[VersionKeyOf(r)] == VersionOf(r, o)
  }

  /** One backfill request: the records of the inventory in cursor order, and their owners. */
  datatype Request = Request(records: seq<Source>, owners: map<nat, Owner>)

  predicate Ascending(rs: seq<Source>) {
    forall i, j :: 0 <= i < j < |rs| ==> rs[i].key < rs[j].key
  }

  /** What the checks before the first batch establish. */
  predicate Ready(q: Request) {
    Ascending(q.records) && forall i :: 0 <= i < |q.records| ==> q.records[i].key in q.owners
  }

  function OwnerOf(q: Request, r: Source): Owner
    requires r.key in q.owners
  {
    q.owners[r.key]
  }

  /** The rows of the records `lo..hi`, one record after another. */
  function ApplyRange(t: Tables, q: Request, lo: nat, hi: nat): Option<Tables>
    requires Ready(q) && lo <= hi <= |q.records|
    decreases hi
  {
    if lo == hi then Some(t)
    else
      var before := ApplyRange(t, q, lo, hi - 1);
      if before.None? then None else ApplyRecord(before.value, q.records[hi - 1], OwnerOf(q, q.records[hi - 1]))
  }

  datatype Entry = Entry(
    key: nat, checksum: Content, trip: Id, artifact: Id, version: int, contentChecksum: Archived, inserted: bool)

  function EntryOf(r: Source, inserted: bool): Entry {
    Entry(r.key, r.content, TripId(r), ArtifactId(r), 1, ArchivedOf(r), inserted)
  }

  /** The manifest entries of the same records; an entry tells whether any of the four rows was new. */
  function EntriesRange(t: Tables, q: Request, lo: nat, hi: nat): map<nat, Entry>
    requires Ready(q) && lo <= hi <= |q.records|
    decreases hi
  {
    if lo == hi then map[]
    else
      var r := q.records[hi - 1];
      var before := ApplyRange(t, q, lo, hi - 1);
      var after := ApplyRange(t, q, lo, hi);
      EntriesRange(t, q, lo, hi - 1)[r.key := EntryOf(r, after != before)]
  }

  // ---------------------------------------------------------------------------------------------
  // The run

  /** What survives a stop: the target tables, the manifest file and the state file. */
  datatype Host = Host(tables: Tables, manifest: map<nat, Entry>, cursor: Option<nat>, stateDone: bool, manifestDone: bool)

  datatype Outcome = Complete | Stopped | Refused

  /** The number of records at or below the saved cursor, counting on from `k`. */
  function Passed(rs: seq<Source>, cursor: Option<nat>, k: nat): (n: nat)
    requires k <= |rs|
    ensures k <= n <= |rs|
    ensures forall i :: k <= i < n ==> cursor.Some? && rs[i].key <= cursor.value
    ensures n < |rs| && cursor.Some? ==> rs[n].key > cursor.value
    ensures cursor.None? ==> n == k
    decreases |rs| - k
  {
    if k < |rs| && cursor.Some? && rs[k].key <= cursor.value then Passed(rs, cursor, k + 1) else k
  }

  /** The batch loop from record `lo` on, stopped after `budget` durable writes. */
  function Batches(h: Host, q: Request, lo: nat, size: nat, budget: nat): (Host, Outcome)
    requires Ready(q) && lo <= |q.records| && size >= 1
    decreases |q.records| - lo
  {
    if lo == |q.records| then Finish(h, budget)
    else if budget == 0 then (h, Stopped)
    else
      var hi := Min(lo + size, |q.records|);
      var t := ApplyRange(h.tables, q, lo, hi);
      if t.None? then (h, Refused)
      else
        var committed := h.(tables := t.value);
        var listed := committed.(manifest := h.manifest + EntriesRange(h.tables, q, lo, hi), manifestDone := false);
        var saved := listed.(cursor := Some(q.records[hi - 1].key), stateDone := false);
        if budget == 1 then (committed, Stopped)
        else if budget == 2 then (listed, Stopped)
        else Batches(saved, q, hi, size, budget - 3)
  }

  /** The two final writes: the state file, then the manifest. */
  function Finish(h: Host, budget: nat): (Host, Outcome) {
    if budget == 0 then (h, Stopped)
    else if budget == 1 then (h.(stateDone := true), Stopped)
    else (h.(stateDone := true, manifestDone := true), Complete)
  }

  datatype Spec = Spec(size: int, budget: nat)

  function Run(h: Host, q: Request, s: Spec): (Host, Outcome)
    requires Ready(q)
  {
    if s.size < 1 || s.size > 10000 then (h, Refused)
    else Batches(h, q, Passed(q.records, h.cursor, 0), s.size, s.budget)
  }

  function Runs(h: Host, q: Request, specs: seq<Spec>): Host
    requires Ready(q)
  {
    if specs == [] then h else Run(Runs(h, q, specs[..|specs| - 1]), q, specs[|specs| - 1]).0
  }

  // ---------------------------------------------------------------------------------------------
  // What applying a record does

  ghost predicate Sub<K, V>(m: map<K, V>, n: map<K, V>) {
    forall k :: k in m ==> k in n && n[k] == m[k]
  }

  /** No row of `t` is changed or removed in `u`. */
  ghost predicate Extends(t: Tables, u: Tables) {
    Sub(t.trips, u.trips) && Sub(t.members, u.members) && Sub(t.artifacts, u.artifacts) && Sub(t.versions, u.versions)
  }

  /** The rows of `u` that `t` does not have are rows of `r`. */
  ghost predicate OnlyAdds(t: Tables, u: Tables, r: Source, o: Owner) {
    && (forall k :: k in u.trips && k !in t.trips ==> k == TripId(r))
    && (forall k :: k in u.members && k !in t.members ==> k == MemberKeyOf(r, o))
    && (forall k :: k in u.artifacts && k !in t.artifacts ==> k == ArtifactId(r))
    && (forall k :: k in u.versions && k !in t.versions ==> k == VersionKeyOf(r))
  }

  /** Some row of the record is in the table with other values. */
  predicate Conflicts(t: Tables, r: Source, o: Owner) {
    || (TripId(r) in t.trips && t.trips[TripId(r)] != TripOf(r, o))
    || (MemberKeyOf(r, o) in t.members && t.members[MemberKeyOf(r, o)] != MemberOf(r, o))
    || (ArtifactId(r) in t.artifacts && t.artifacts[ArtifactId(r)] != ArtifactOf(r, o))
    || (VersionKeyOf(r) in t.versions && t.versions[VersionKeyOf(r)] != VersionOf(r, o))
  }

  lemma ApplyRecordEffect(t: Tables, r: Source, o: Owner)
    ensures ApplyRecord(t, r, o).None? <==> Conflicts(t, r, o)
    ensures ApplyRecord(t, r, o).Some? ==>
              var u := ApplyRecord(t, r, o).value; Extends(t, u) && HasRows(u, r, o) && OnlyAdds(t, u, r, o)
  {
  }

  lemma ExtendsTrans(t: Tables, u: Tables, v: Tables)
    requires Extends(t, u) && Extends(u, v)
    ensures Extends(t, v)
  {
  }

  lemma RowsStay(t: Tables, u: Tables, r: Source, o: Owner)
    requires HasRows(t, r, o) && Extends(t, u)
    ensures HasRows(u, r, o)
  {
  }

  // ---------------------------------------------------------------------------------------------
  // Between the rows before the first run and those rows with every target row

  ghost predicate TargetTrip(q: Request, k: Id, v: TripRow) {
    exists i :: 0 <= i < |q.records| && q.records[i].key in q.owners && k == TripId(q.records[i]) && v == TripOf(q.records[i], q.owners[q.records[i].key])
  }

  ghost predicate TargetMember(q: Request, k: MemberKey, v: MemberRow) {
    exists i :: 0 <= i < |q.records| && q.records[i].key in q.owners
                && k == MemberKeyOf(q.records[i], q.owners[q.records[i].key]) && v == MemberOf(q.records[i], q.owners[q.records[i].key])
  }

  ghost predicate TargetArtifact(q: Request, k: Id, v: ArtifactRow) {
    exists i :: 0 <= i < |q.records| && q.records[i].key in q.owners && k == ArtifactId(q.records[i]) && v == ArtifactOf(q.records[i], q.owners[q.records[i].key])
  }

  ghost predicate TargetVersion(q: Request, k: VersionKey, v: VersionRow) {
    exists i :: 0 <= i < |q.records| && q.records[i].key in q.owners && k == VersionKeyOf(q.records[i]) && v == VersionOf(q.records[i], q.owners[q.records[i].key])
  }

  /** Every row is an old one or a target row of the request, and no old one is changed. */
  ghost predicate Between(q: Request, old0: Tables, t: Tables) {
    && Extends(old0, t)
    && (forall k :: k in t.trips ==> k in old0.trips || TargetTrip(q, k, t.trips[k]))
    && (forall k :: k in t.members ==> k in old0.members || TargetMember(q, k, t.members[k]))
    && (forall k :: k in t.artifacts ==> k in old0.artifacts || TargetArtifact(q, k, t.artifacts[k]))
    && (forall k :: k in t.versions ==> k in old0.versions || TargetVersion(q, k, t.versions[k]))
  }

  lemma RecordStaysBetween(q: Request, old0: Tables, t: Tables, n: nat)
    requires Ready(q) && n < |q.records| && Between(q, old0, t)
    ensures var r := q.records[n]; var u := ApplyRecord(t, r, OwnerOf(q, r));
            u.Some? ==> Between(q, old0, u.value) && Extends(t, u.value) && HasRows(u.value, r, OwnerOf(q, r))
  {
    var r := q.records[n];
    var o := OwnerOf(q, r);
    ApplyRecordEffect(t, r, o);
    if ApplyRecord(t, r, o).Some? {
      hide ApplyRecord, TripOf, MemberOf, ArtifactOf, VersionOf, TripId, ArtifactId, MemberKeyOf, VersionKeyOf;
      var u := ApplyRecord(t, r, o).value;
      ExtendsTrans(old0, t, u);
      TargetsOf(q, n);
      assert HasRows(u, r, o);
    }
  }

  lemma TargetsOf(q: Request, n: nat)
    requires n < |q.records| && q.records[n].key in q.owners
    ensures var r := q.records[n]; var o := q.owners[r.key];
            && TargetTrip(q, TripId(r), TripOf(r, o)) && TargetMember(q, MemberKeyOf(r, o), MemberOf(r, o))
            && TargetArtifact(q, ArtifactId(r), ArtifactOf(r, o)) && TargetVersion(q, VersionKeyOf(r), VersionOf(r, o))
  {
  }

  lemma {:induction false} RangeStaysBetween(q: Request, old0: Tables, t: Tables, lo: nat, hi: nat)
    requires Ready(q) && lo <= hi <= |q.records| && Between(q, old0, t)
    ensures var u := ApplyRange(t, q, lo, hi);
            u.Some? ==> && Between(q, old0, u.value) && Extends(t, u.value)
                        && (forall i :: lo <= i < hi ==> HasRows(u.value, q.records[i], OwnerOf(q, q.records[i])))
    decreases hi
  {
    hide Between, ApplyRecord, HasRows;
    if lo < hi {
      RangeStaysBetween(q, old0, t, lo, hi - 1);
      var before := ApplyRange(t, q, lo, hi - 1);
      if before.Some? {
        RecordStaysBetween(q, old0, before.value, hi - 1);
        var u := ApplyRange(t, q, lo, hi);
        if u.Some? {
          ExtendsTrans(t, before.value, u.value);
          forall i | lo <= i < hi - 1
            ensures HasRows(u.value, q.records[i], OwnerOf(q, q.records[i]))
          {
            RowsStay(before.value, u.value, q.records[i], OwnerOf(q, q.records[i]));
          }
        }
      }
    }
  }

  /** `k` is the key of one of the records `lo..hi`. */
  ghost predicate Lists(q: Request, lo: nat, hi: nat, k: nat) {
    exists i :: lo <= i < hi && i < |q.records| && q.records[i].key == k
  }

  predicate EntryOk(e: Entry, r: Source) {
    e == EntryOf(r, e.inserted)
  }

  /** The entries of the records `lo..hi`, and no other key. */
  ghost predicate EntriesOk(q: Request, m: map<nat, Entry>, lo: nat, hi: nat) {
    && (forall i :: lo <= i < hi && i < |q.records| ==> q.records[i].key in m && EntryOk(m[q.records[i].key], q.records[i]))
    && (forall k :: k in m ==> Lists(q, lo, hi, k))
  }

  lemma OneMoreEntry(q: Request, m: map<nat, Entry>, lo: nat, hi: nat, e: Entry)
    requires Ready(q) && lo < hi <= |q.records| && EntriesOk(q, m, lo, hi - 1) && EntryOk(e, q.records[hi - 1])
    ensures EntriesOk(q, m[q.records[hi - 1].key := e], lo, hi)
  {
  }

  lemma {:induction false} EntriesOfRange(t: Tables, q: Request, lo: nat, hi: nat)
    requires Ready(q) && lo <= hi <= |q.records|
    ensures EntriesOk(q, EntriesRange(t, q, lo, hi), lo, hi)
    decreases hi
  {
    hide ApplyRange, OwnerOf, Ready;
    if lo < hi {
      hide EntriesOk;
      EntriesOfRange(t, q, lo, hi - 1);
      var r := q.records[hi - 1];
      OneMoreEntry(q, EntriesRange(t, q, lo, hi - 1), lo, hi, EntryOf(r, ApplyRange(t, q, lo, hi) != ApplyRange(t, q, lo, hi - 1)));
    }
  }

  // ---------------------------------------------------------------------------------------------
  // The invariant of every run

  /** A manifest entry is one that was there before the first run, or the entry of a selected record. */
  ghost predicate ManifestOk(q: Request, was: map<nat, Entry>, m: map<nat, Entry>) {
    && (forall k :: k in was ==> k in m)
    && (forall k :: k in m && (k !in was || m[k] != was[k]) ==> exists i :: 0 <= i < |q.records| && q.records[i].key == k && EntryOk(m[k], q.records[i]))
  }

  /** The first `n` records have their four rows and their manifest entry. */
  ghost predicate DoneUpTo(q: Request, h: Host, n: nat)
    requires Ready(q)
  {
    forall i :: 0 <= i < n && i < |q.records| ==>
      && HasRows(h.tables, q.records[i], OwnerOf(q, q.records[i]))
      && q.records[i].key in h.manifest && EntryOk(h.manifest[q.records[i].key], q.records[i])
  }

  ghost predicate Inv(q: Request, start: Host, h: Host)
    requires Ready(q)
  {
    && Between(q, start.tables, h.tables)
    && ManifestOk(q, start.manifest, h.manifest)
    && DoneUpTo(q, h, Passed(q.records, h.cursor, 0))
  }

  lemma {:induction false} PassedExactly(rs: seq<Source>, cursor: nat, k: nat, hi: nat)
    requires k <= hi <= |rs|
    requires forall i :: k <= i < hi ==> rs[i].key <= cursor
    requires hi < |rs| ==> rs[hi].key > cursor
    ensures Passed(rs, Some(cursor), k) == hi
    decreases hi - k
  {
  }

  lemma CursorCounts(q: Request, hi: nat)
    requires Ready(q) && 0 < hi <= |q.records|
    ensures Passed(q.records, Some(q.records[hi - 1].key), 0) == hi
  {
    PassedExactly(q.records, q.records[hi - 1].key, 0, hi);
  }

  lemma ManifestGrows(q: Request, was: map<nat, Entry>, m: map<nat, Entry>, t: Tables, lo: nat, hi: nat)
    requires Ready(q) && lo <= hi <= |q.records| && ManifestOk(q, was, m)
    ensures ManifestOk(q, was, m + EntriesRange(t, q, lo, hi))
  {
    hide EntriesRange, EntryOk;
    var more := EntriesRange(t, q, lo, hi);
    EntriesOfRange(t, q, lo, hi);
    forall k | k in m + more && (k !in was || (m + more)[k] != was[k])
      ensures exists i :: 0 <= i < |q.records| && q.records[i].key == k && EntryOk((m + more)[k], q.records[i])
    {
      if k in more {
        assert Lists(q, lo, hi, k);
        var i :| lo <= i < hi && q.records[i].key == k;
        assert EntryOk(more[k], q.records[i]);
      }
    }
  }

  /** Records done stay done when rows are only added and their entries are only rewritten. */
  lemma DoneStays(q: Request, h: Host, g: Host, n: nat, t: Tables, lo: nat, hi: nat)
    requires Ready(q) && lo <= hi <= |q.records| && DoneUpTo(q, h, n) && Extends(h.tables, g.tables)
    requires g.manifest == h.manifest || g.manifest == h.manifest + EntriesRange(t, q, lo, hi)
    ensures DoneUpTo(q, g, n)
  {
    hide HasRows, EntriesRange, Extends;
    EntriesOfRange(t, q, lo, hi);
    forall i | 0 <= i < n && i < |q.records|
      ensures HasRows(g.tables, q.records[i], OwnerOf(q, q.records[i]))
      ensures q.records[i].key in g.manifest && EntryOk(g.manifest[q.records[i].key], q.records[i])
    {
      RowsStay(h.tables, g.tables, q.records[i], OwnerOf(q, q.records[i]));
      var more := EntriesRange(t, q, lo, hi);
      if q.records[i].key in more {
        assert Lists(q, lo, hi, q.records[i].key);
        var j :| lo <= j < hi && q.records[j].key == q.records[i].key;
        assert i == j;
      }
    }
  }

  /** Once a batch is listed, the records up to its end are done. */
  lemma BatchDone(q: Request, h: Host, g: Host, lo: nat, hi: nat)
    requires Ready(q) && lo <= hi <= |q.records| && DoneUpTo(q, h, lo)
    requires Extends(h.tables, g.tables) && g.manifest == h.manifest + EntriesRange(h.tables, q, lo, hi)
    requires forall i :: lo <= i < hi ==> HasRows(g.tables, q.records[i], OwnerOf(q, q.records[i]))
    ensures DoneUpTo(q, g, hi)
  {
    hide HasRows, EntriesRange, Extends;
    DoneStays(q, h, g, lo, h.tables, lo, hi);
    EntriesOfRange(h.tables, q, lo, hi);
  }

  /** The three writes of one batch. */
  function Committed(h: Host, t: Tables): Host {
    h.(tables := t)
  }

  function Listed(h: Host, t: Tables, q: Request, lo: nat, hi: nat): Host
    requires Ready(q) && lo <= hi <= |q.records|
  {
    Committed(h, t).(manifest := h.manifest + EntriesRange(h.tables, q, lo, hi), manifestDone := false)
  }

  function Saved(h: Host, t: Tables, q: Request, lo: nat, hi: nat): Host
    requires Ready(q) && lo < hi <= |q.records|
  {
    Listed(h, t, q, lo, hi).(cursor := Some(q.records[hi - 1].key), stateDone := false)
  }

  lemma BatchKeepsInv(q: Request, start: Host, h: Host, lo: nat, hi: nat)
    requires Ready(q) && lo < hi <= |q.records|
    requires Inv(q, start, h) && Passed(q.records, h.cursor, 0) == lo
    ensures var t := ApplyRange(h.tables, q, lo, hi);
            t.Some? ==>
              && Inv(q, start, Committed(h, t.value)) && Inv(q, start, Listed(h, t.value, q, lo, hi)) && Inv(q, start, Saved(h, t.value, q, lo, hi))
              && Passed(q.records, Saved(h, t.value, q, lo, hi).cursor, 0) == hi && Extends(h.tables, t.value)
  {
    hide Between, ManifestOk, HasRows, EntriesRange, ApplyRange, DoneUpTo, OwnerOf, Passed, Extends;
    var t := ApplyRange(h.tables, q, lo, hi);
    if t.Some? {
      RangeStaysBetween(q, start.tables, h.tables, lo, hi);
      ManifestGrows(q, start.manifest, h.manifest, h.tables, lo, hi);
      DoneStays(q, h, Committed(h, t.value), lo, h.tables, lo, hi);
      DoneStays(q, h, Listed(h, t.value, q, lo, hi), lo, h.tables, lo, hi);
      BatchDone(q, h, Saved(h, t.value, q, lo, hi), lo, hi);
      CursorCounts(q, hi);
    }
  }

  lemma {:induction false} BatchesKeepInv(q: Request, start: Host, h: Host, lo: nat, size: nat, budget: nat)
    requires Ready(q) && lo <= |q.records| && size >= 1
    requires Inv(q, start, h) && Passed(q.records, h.cursor, 0) == lo
    ensures var out := Batches(h, q, lo, size, budget);
            && Inv(q, start, out.0) && Extends(h.tables, out.0.tables)
            && (out.1.Complete? ==> DoneUpTo(q, out.0, |q.records|) && out.0.stateDone && out.0.manifestDone)
    decreases |q.records| - lo
  {
    hide Between, ManifestOk, EntriesRange, ApplyRange, DoneUpTo, OwnerOf, Passed;
    if lo == |q.records| {
      FinishKeeps(q, h, budget, lo);
    } else if budget > 0 {
      var hi := Min(lo + size, |q.records|);
      var t := ApplyRange(h.tables, q, lo, hi);
      BatchKeepsInv(q, start, h, lo, hi);
      if t.Some? && budget >= 3 {
        hide Extends, Inv;
        var saved := Saved(h, t.value, q, lo, hi);
        BatchesKeepInv(q, start, saved, hi, size, budget - 3);
        ExtendsTrans(h.tables, saved.tables, Batches(saved, q, hi, size, budget - 3).0.tables);
      }
    }
  }

  lemma FinishKeeps(q: Request, h: Host, budget: nat, n: nat)
    requires Ready(q) && DoneUpTo(q, h, n)
    ensures DoneUpTo(q, Finish(h, budget).0, n)
  {
  }

  // ---------------------------------------------------------------------------------------------
  // Main results

  /** A host on which no run of the request has saved a cursor yet. */
  predicate Unstarted(h: Host) {
    h.cursor.None?
  }

  lemma RunKeepsInv(q: Request, start: Host, h: Host, s: Spec)
    requires Ready(q) && Inv(q, start, h)
    ensures var out := Run(h, q, s);
            && Inv(q, start, out.0) && Extends(h.tables, out.0.tables)
            && (out.1.Complete? ==> DoneUpTo(q, out.0, |q.records|) && out.0.stateDone && out.0.manifestDone)
  {
    hide Inv, Batches, DoneUpTo;
    if 1 <= s.size <= 10000 {
      BatchesKeepInv(q, start, h, Passed(q.records, h.cursor, 0), s.size, s.budget);
    }
  }

  lemma StartInv(q: Request, start: Host)
    requires Ready(q) && Unstarted(start)
    ensures Inv(q, start, start)
  {
  }

  /**
   * Through any runs of one request, of any batch sizes and stopped after any write: every record
   * at or below the saved cursor has its four rows and its manifest entry, and no row that was
   * there before is changed.
   */
  lemma {:induction false} EveryRunKeepsInv(q: Request, start: Host, specs: seq<Spec>)
    requires Ready(q) && Unstarted(start)
    ensures Inv(q, start, Runs(start, q, specs))
  {
    hide Inv, Run;
    if specs == [] {
      StartInv(q, start);
    } else {
      EveryRunKeepsInv(q, start, specs[..|specs| - 1]);
      RunKeepsInv(q, start, Runs(start, q, specs[..|specs| - 1]), specs[|specs| - 1]);
    }
  }

  /** All rows of the request on top of the old ones, and nothing else. */
  ghost predicate Full(q: Request, old0: Tables, t: Tables)
    requires Ready(q)
  {
    Between(q, old0, t) && forall i :: 0 <= i < |q.records| ==> HasRows(t, q.records[i], OwnerOf(q, q.records[i]))
  }

  lemma FullTrips(q: Request, old0: Tables, t: Tables, u: Tables)
    requires Ready(q) && Full(q, old0, t) && Full(q, old0, u)
    ensures Sub(t.trips, u.trips)
  {
  }

  lemma FullMembers(q: Request, old0: Tables, t: Tables, u: Tables)
    requires Ready(q) && Full(q, old0, t) && Full(q, old0, u)
    ensures Sub(t.members, u.members)
  {
  }

  lemma FullArtifacts(q: Request, old0: Tables, t: Tables, u: Tables)
    requires Ready(q) && Full(q, old0, t) && Full(q, old0, u)
    ensures Sub(t.artifacts, u.artifacts)
  {
  }

  lemma FullVersions(q: Request, old0: Tables, t: Tables, u: Tables)
    requires Ready(q) && Full(q, old0, t) && Full(q, old0, u)
    ensures Sub(t.versions, u.versions)
  {
  }

  lemma FullIsUnique(q: Request, old0: Tables, t: Tables, u: Tables)
    requires Ready(q) && Full(q, old0, t) && Full(q, old0, u)
    ensures t == u
  {
    hide Full, Sub;
    FullTrips(q, old0, t, u);
    FullTrips(q, old0, u, t);
    FullMembers(q, old0, t, u);
    FullMembers(q, old0, u, t);
    FullArtifacts(q, old0, t, u);
    FullArtifacts(q, old0, u, t);
    FullVersions(q, old0, t, u);
    FullVersions(q, old0, u, t);
  }

  lemma CompleteIsFull(q: Request, start: Host, specs: seq<Spec>, last: Spec)
    requires Ready(q) && Unstarted(start)
    requires Run(Runs(start, q, specs), q, last).1.Complete?
    ensures Full(q, start.tables, Run(Runs(start, q, specs), q, last).0.tables)
    ensures Inv(q, start, Run(Runs(start, q, specs), q, last).0)
    ensures DoneUpTo(q, Run(Runs(start, q, specs), q, last).0, |q.records|)
  {
    hide Runs, Run, Between, HasRows;
    EveryRunKeepsInv(q, start, specs);
    RunKeepsInv(q, start, Runs(start, q, specs), last);
  }

  /** The rows left by a run that completes do not depend on where, or how often, earlier runs stopped. */
  lemma StopsDoNotMatter(q: Request, start: Host, one: seq<Spec>, oneLast: Spec, two: seq<Spec>, twoLast: Spec)
    requires Ready(q) && Unstarted(start)
    requires Run(Runs(start, q, one), q, oneLast).1.Complete? && Run(Runs(start, q, two), q, twoLast).1.Complete?
    ensures Run(Runs(start, q, one), q, oneLast).0.tables == Run(Runs(start, q, two), q, twoLast).0.tables
  {
    hide Runs, Run, Full, Inv, DoneUpTo;
    CompleteIsFull(q, start, one, oneLast);
    CompleteIsFull(q, start, two, twoLast);
    FullIsUnique(q, start.tables, Run(Runs(start, q, one), q, oneLast).0.tables, Run(Runs(start, q, two), q, twoLast).0.tables);
  }

  /** The four rows of a record: an active trip of its owner that points to the published archive of its content. */
  predicate Migrates(t: Tables, r: Source, o: Owner) {
    var trip, artifact := Migrated("trip", r.key), Migrated("artifact", r.key);
    var title := if r.content.title == "" then "Legacy trip" else r.content.title;
    && trip in t.trips && t.trips[trip] == TripRow(
         o.tenant, o.user, if |title| > 160 then title[..160] else title, o.locale, o.timezone, "active", 1, Some((artifact, 1)), r.created, r.created)
    && MemberKey(trip, o.user) in t.members
    && t.members[MemberKey(trip, o.user)] == MemberRow(o.tenant, "owner", 1, r.created, r.created)
    && artifact in t.artifacts && t.artifacts[artifact] == ArtifactRow(trip, o.tenant, "ImportedTripArchive", o.user, r.created)
    && VersionKey(artifact, 1) in t.versions
    && t.versions[VersionKey(artifact, 1)]
       == VersionRow(o.tenant, 1, "published", Archived(r.content, r.key, r.content, r.content), None, r.created)
  }

  lemma HasRowsMigrates(t: Tables, r: Source, o: Owner)
    ensures HasRows(t, r, o) <==> Migrates(t, r, o)
  {
  }

  /** Through any earlier stops, a run that completes leaves every record migrated to its owner, and listed with its checksums. */
  lemma CompleteRunMigratesEveryRecord(q: Request, start: Host, specs: seq<Spec>, last: Spec, i: nat)
    requires Ready(q) && Unstarted(start) && i < |q.records|
    requires Run(Runs(start, q, specs), q, last).1.Complete?
    ensures var h := Run(Runs(start, q, specs), q, last).0; var r := q.records[i];
            && Migrates(h.tables, r, q.owners[r.key])
            && r.key in h.manifest && h.manifest[r.key].key == r.key && h.manifest[r.key].checksum == r.content
            && h.manifest[r.key].trip == Migrated("trip", r.key) && h.manifest[r.key].artifact == Migrated("artifact", r.key)
            && h.manifest[r.key].version == 1 && h.manifest[r.key].contentChecksum == Archived(r.content, r.key, r.content, r.content)
  {
    hide Runs, Run, HasRows, Migrates, Between, ManifestOk;
    CompleteIsFull(q, start, specs, last);
    var r := q.records[i];
    HasRowsMigrates(Run(Runs(start, q, specs), q, last).0.tables, r, OwnerOf(q, r));
  }

  // ---------------------------------------------------------------------------------------------
  // When a run refuses

  /** The rows of a run never stand in its own way: a conflict is with a row from before the first run. */
  lemma ConflictIsOld(q: Request, old0: Tables, t: Tables, n: nat)
    requires Ready(q) && n < |q.records| && Between(q, old0, t)
    requires Conflicts(t, q.records[n], OwnerOf(q, q.records[n]))
    ensures Conflicts(old0, q.records[n], OwnerOf(q, q.records[n]))
  {
  }

  /** No row that was there before the first run differs from a target row with the same key. */
  ghost predicate Compatible(q: Request, old0: Tables)
    requires Ready(q)
  {
    forall i :: 0 <= i < |q.records| ==> !Conflicts(old0, q.records[i], OwnerOf(q, q.records[i]))
  }

  lemma {:induction false} CompatibleRangeApplies(q: Request, old0: Tables, t: Tables, lo: nat, hi: nat)
    requires Ready(q) && lo <= hi <= |q.records| && Between(q, old0, t)
    requires forall i :: lo <= i < hi ==> !Conflicts(old0, q.records[i], OwnerOf(q, q.records[i]))
    ensures ApplyRange(t, q, lo, hi).Some?
    decreases hi
  {
    hide Between, Conflicts, ApplyRecord;
    if lo < hi {
      CompatibleRangeApplies(q, old0, t, lo, hi - 1);
      RangeStaysBetween(q, old0, t, lo, hi - 1);
      var before := ApplyRange(t, q, lo, hi - 1).value;
      var r := q.records[hi - 1];
      ApplyRecordEffect(before, r, OwnerOf(q, r));
      if Conflicts(before, r, OwnerOf(q, r)) {
        ConflictIsOld(q, old0, before, hi - 1);
      }
    }
  }

  lemma FullIsCompatible(q: Request, old0: Tables, t: Tables)
    requires Ready(q) && Full(q, old0, t)
    ensures Compatible(q, old0)
  {
  }

  /**
   * However earlier runs stopped, an unhindered run completes exactly when no row from before the
   * first run differs from a target row.
   */
  lemma CompletesIffCompatible(q: Request, start: Host, specs: seq<Spec>, last: Spec)
    requires Ready(q) && Unstarted(start)
    requires 1 <= last.size <= 10000 && last.budget >= 3 * |q.records| + 2
    ensures Run(Runs(start, q, specs), q, last).1.Complete? <==> Compatible(q, start.tables)
  {
    hide Runs, Full, Batches, Between, ManifestOk, DoneUpTo, Conflicts;
    var h := Runs(start, q, specs);
    EveryRunKeepsInv(q, start, specs);
    if Compatible(q, start.tables) {
      PendingBatchesComplete(q, start.tables, h, Passed(q.records, h.cursor, 0), last.size, last.budget);
    }
    if Run(h, q, last).1.Complete? {
      CompleteIsFull(q, start, specs, last);
      FullIsCompatible(q, start.tables, Run(h, q, last).0.tables);
    }
  }

  // ---------------------------------------------------------------------------------------------
  // The checks before the first batch

  datatype Inventory = Inventory(items: map<nat, Content>, fingerprint: seq<(nat, Content)>, mapping: map<nat, Owner>)

  /** The legacy records by key. */
  predicate Keyed(sources: map<nat, Source>) {
    forall k :: k in sources ==> sources[k].key == k
  }

  predicate FingerprintOk(inv: Inventory) {
    && (forall i, j :: 0 <= i < j < |inv.fingerprint| ==> inv.fingerprint[i].0 < inv.fingerprint[j].0)
    && (forall i :: 0 <= i < |inv.fingerprint| ==> inv.fingerprint[i].0 in inv.items && inv.items[inv.fingerprint[i].0] == inv.fingerprint[i].1)
    && |inv.fingerprint| == |inv.items|
  }

  /** `_validate_source_snapshot`: no listed record is missing or changed, and the fingerprint lists them in order. */
  function Snapshot(sources: map<nat, Source>, inv: Inventory): Option<seq<Source>> {
    if exists k :: k in inv.items && (k !in sources || sources[k].content != inv.items[k]) then None
    else if !FingerprintOk(inv) then None
    else Some(seq(|inv.fingerprint|, i requires 0 <= i < |inv.fingerprint| =>
      assert inv.fingerprint[i].0 in inv.items;
      sources[inv.fingerprint[i].0]))
  }

  /** Everything `backfill` and `verify` check before they touch the target. */
  function Prepare(sources: map<nat, Source>, inv: Inventory, owners: map<nat, Owner>): Option<Request> {
    var selected := Snapshot(sources, inv);
    if selected.None? || owners != inv.mapping then None
    else if exists i :: 0 <= i < |selected.value| && selected.value[i].key !in owners then None
    else Some(Request(selected.value, owners))
  }

  lemma PreparedIsReady(sources: map<nat, Source>, inv: Inventory, owners: map<nat, Owner>)
    requires Keyed(sources) && Prepare(sources, inv, owners).Some?
    ensures Ready(Prepare(sources, inv, owners).value)
  {
  }

  predicate SameButCreated(r: Source, s: Source) {
    s.(created := r.created) == r
  }

  /**
   * Two states of the sources that pass the checks for one inventory agree on every record up to
   * its creation time, and give the same request exactly when those agree too.
   */
  lemma InventoryPinsContent(one: map<nat, Source>, two: map<nat, Source>, inv: Inventory, owners: map<nat, Owner>)
    requires Keyed(one) && Keyed(two) && Prepare(one, inv, owners).Some? && Prepare(two, inv, owners).Some?
    ensures var q, p := Prepare(one, inv, owners).value, Prepare(two, inv, owners).value;
            && |q.records| == |p.records|
            && (forall i :: 0 <= i < |q.records| ==> SameButCreated(q.records[i], p.records[i]))
            && (q == p <==> forall i :: 0 <= i < |q.records| ==> q.records[i].created == p.records[i].created)
  {
  }

  const SAMPLE_OWNER := Owner("tenant", "user", "zh-CN", "Asia/Shanghai")
  const SAMPLE_INVENTORY := Inventory(map[0 := Content("a", "b")], [(0, Content("a", "b"))], map[0 := SAMPLE_OWNER])

  function SampleSources(created: Time): map<nat, Source> {
    map[0 := Source(0, Content("a", "b"), created)]
  }

  function SampleRequest(created: Time): Request {
    Request([Source(0, Content("a", "b"), created)], map[0 := SAMPLE_OWNER])
  }

  /** The creation time is not pinned: both of these pass the same inventory, and their rows differ. */
  lemma CreatedAtIsNotPinned()
    ensures Prepare(SampleSources(1), SAMPLE_INVENTORY, SAMPLE_INVENTORY.mapping) == Some(SampleRequest(1))
    ensures Prepare(SampleSources(2), SAMPLE_INVENTORY, SAMPLE_INVENTORY.mapping) == Some(SampleRequest(2))
    ensures TripOf(SampleRequest(1).records[0], SAMPLE_OWNER) != TripOf(SampleRequest(2).records[0], SAMPLE_OWNER)
  {
    SampleIsPrepared(1);
    SampleIsPrepared(2);
  }

  lemma SampleIsPrepared(created: Time)
    ensures Prepare(SampleSources(created), SAMPLE_INVENTORY, SAMPLE_INVENTORY.mapping) == Some(SampleRequest(created))
  {
    assert |SAMPLE_INVENTORY.items| == 1;
    assert FingerprintOk(SAMPLE_INVENTORY);
    var selected := Snapshot(SampleSources(created), SAMPLE_INVENTORY);
    assert selected.Some?;
    assert selected.value == [Source(0, Content("a", "b"), created)];
  }

  // ---------------------------------------------------------------------------------------------
  // Resuming with sources whose creation times changed

  /** No record that a run still has to apply conflicts with the rows it finds. */
  ghost predicate PendingCompatible(q: Request, t: Tables, lo: nat)
    requires Ready(q)
  {
    forall i :: lo <= i < |q.records| ==> !Conflicts(t, q.records[i], OwnerOf(q, q.records[i]))
  }

  lemma BetweenItself(q: Request, t: Tables)
    ensures Between(q, t, t)
  {
    hide TargetTrip, TargetMember, TargetArtifact, TargetVersion;
  }

  lemma {:induction false} PendingBatchesComplete(q: Request, old0: Tables, h: Host, lo: nat, size: nat, budget: nat)
    requires Ready(q) && lo <= |q.records| && size >= 1 && budget >= 3 * (|q.records| - lo) + 2
    requires Between(q, old0, h.tables) && PendingCompatible(q, old0, lo)
    ensures Batches(h, q, lo, size, budget).1.Complete?
    decreases |q.records| - lo
  {
    hide Between, EntriesRange, ApplyRange, OwnerOf, Conflicts;
    if lo < |q.records| {
      var hi := Min(lo + size, |q.records|);
      CompatibleRangeApplies(q, old0, h.tables, lo, hi);
      RangeStaysBetween(q, old0, h.tables, lo, hi);
      var t := ApplyRange(h.tables, q, lo, hi);
      PendingBatchesComplete(q, old0, Saved(h, t.value, q, lo, hi), hi, size, budget - 3);
    }
  }

  /** A run that completes has applied all of its pending records on top of the rows it found. */
  lemma {:induction false} CompleteBatchesApply(q: Request, old0: Tables, h: Host, lo: nat, size: nat, budget: nat)
    requires Ready(q) && lo <= |q.records| && size >= 1 && Between(q, old0, h.tables)
    requires Batches(h, q, lo, size, budget).1.Complete?
    ensures var t := Batches(h, q, lo, size, budget).0.tables;
            Extends(h.tables, t) && forall i :: lo <= i < |q.records| ==> HasRows(t, q.records[i], OwnerOf(q, q.records[i]))
    decreases |q.records| - lo
  {
    hide Between, EntriesRange, ApplyRange, OwnerOf, HasRows;
    if lo == |q.records| {
      assert Batches(h, q, lo, size, budget).0.tables == h.tables;
    } else {
      hide Extends;
      var hi := Min(lo + size, |q.records|);
      RangeStaysBetween(q, old0, h.tables, lo, hi);
      var saved := Saved(h, ApplyRange(h.tables, q, lo, hi).value, q, lo, hi);
      CompleteBatchesApply(q, old0, saved, hi, size, budget - 3);
      var t := Batches(saved, q, hi, size, budget - 3).0.tables;
      ExtendsTrans(h.tables, saved.tables, t);
      forall i | lo <= i < hi
        ensures HasRows(t, q.records[i], OwnerOf(q, q.records[i]))
      {
        RowsStay(saved.tables, t, q.records[i], OwnerOf(q, q.records[i]));
      }
    }
  }

  lemma {:induction false} EnoughBudget(q: Request, h: Host, lo: nat, size: nat, budget: nat)
    requires Ready(q) && lo <= |q.records| && size >= 1 && budget >= 3 * (|q.records| - lo) + 2
    ensures !Batches(h, q, lo, size, budget).1.Stopped?
    decreases |q.records| - lo
  {
    hide EntriesRange, ApplyRange;
    if lo < |q.records| {
      var hi := Min(lo + size, |q.records|);
      var t := ApplyRange(h.tables, q, lo, hi);
      if t.Some? {
        EnoughBudget(q, Saved(h, t.value, q, lo, hi), hi, size, budget - 3);
      }
    }
  }

  lemma KeptRowsDoNotConflict(t: Tables, u: Tables, r: Source, o: Owner)
    requires Extends(t, u) && HasRows(u, r, o)
    ensures !Conflicts(t, r, o)
  {
  }

  /** On any host an unhindered run completes exactly when no pending record conflicts, and refuses otherwise. */
  lemma RunCompletesIff(q: Request, h: Host, last: Spec)
    requires Ready(q) && 1 <= last.size <= 10000 && last.budget >= 3 * |q.records| + 2
    ensures Run(h, q, last).1 == if PendingCompatible(q, h.tables, Passed(q.records, h.cursor, 0)) then Complete else Refused
  {
    hide Batches, Between, Conflicts, Extends, HasRows, OwnerOf;
    var lo := Passed(q.records, h.cursor, 0);
    BetweenItself(q, h.tables);
    EnoughBudget(q, h, lo, last.size, last.budget);
    if PendingCompatible(q, h.tables, lo) {
      PendingBatchesComplete(q, h.tables, h, lo, last.size, last.budget);
    }
    if Run(h, q, last).1.Complete? {
      CompleteBatchesApply(q, h.tables, h, lo, last.size, last.budget);
      forall i | lo <= i < |q.records|
        ensures !Conflicts(h.tables, q.records[i], OwnerOf(q, q.records[i]))
      {
        KeptRowsDoNotConflict(h.tables, Run(h, q, last).0.tables, q.records[i], OwnerOf(q, q.records[i]));
      }
    }
  }

  /** Some row of the record is in the tables. */
  predicate Touched(t: Tables, r: Source, o: Owner) {
    TripId(r) in t.trips || MemberKeyOf(r, o) in t.members || ArtifactId(r) in t.artifacts || VersionKeyOf(r) in t.versions
  }

  /** The same inventory and owners, with creation times of their own. */
  predicate SameInventory(q: Request, p: Request) {
    && p.owners == q.owners && |p.records| == |q.records|
    && forall i :: 0 <= i < |q.records| ==> SameButCreated(q.records[i], p.records[i])
  }

  /** On tables that hold only rows of `q`, a record of `p` conflicts exactly when it is there with another creation time. */
  lemma ConflictIffTimeMoved(q: Request, p: Request, t: Tables, i: nat)
    requires Ready(q) && Ready(p) && SameInventory(q, p) && Between(q, NO_ROWS, t) && i < |q.records|
    ensures var r := p.records[i];
            Conflicts(t, r, OwnerOf(p, r)) <==> Touched(t, r, OwnerOf(p, r)) && r.created != q.records[i].created
  {
    var r, s := p.records[i], q.records[i];
    var o := OwnerOf(p, r);
    assert SameButCreated(s, r);
    hide Title;
    if TripId(r) in t.trips {
      assert TargetTrip(q, TripId(r), t.trips[TripId(r)]);
      assert t.trips[TripId(r)] == TripOf(s, o);
    }
    if MemberKeyOf(r, o) in t.members {
      assert TargetMember(q, MemberKeyOf(r, o), t.members[MemberKeyOf(r, o)]);
      assert t.members[MemberKeyOf(r, o)] == MemberOf(s, o);
    }
    if ArtifactId(r) in t.artifacts {
      assert TargetArtifact(q, ArtifactId(r), t.artifacts[ArtifactId(r)]);
      assert t.artifacts[ArtifactId(r)] == ArtifactOf(s, o);
    }
    if VersionKeyOf(r) in t.versions {
      assert TargetVersion(q, VersionKeyOf(r), t.versions[VersionKeyOf(r)]);
      assert t.versions[VersionKeyOf(r)] == VersionOf(s, o);
    }
  }

  /** Every record past the cursor that is already in the tables has kept its creation time. */
  ghost predicate TimesKept(q: Request, p: Request, h: Host)
    requires Ready(p) && |p.records| == |q.records|
  {
    forall i :: Passed(p.records, h.cursor, 0) <= i < |p.records| && Touched(h.tables, p.records[i], OwnerOf(p, p.records[i])) ==>
      p.records[i].created == q.records[i].created
  }

  /**
   * Runs of `q` on empty tables, stopped anywhere, then an unhindered run of the same inventory with
   * creation times of its own: it completes exactly when every record that was committed past the
   * saved cursor has kept its time, and refuses otherwise.
   */
  lemma ResumedWithOtherTimes(q: Request, p: Request, start: Host, specs: seq<Spec>, last: Spec)
    requires Ready(q) && Ready(p) && SameInventory(q, p) && Unstarted(start) && start.tables == NO_ROWS
    requires 1 <= last.size <= 10000 && last.budget >= 3 * |p.records| + 2
    ensures Run(Runs(start, q, specs), p, last).1 == if TimesKept(q, p, Runs(start, q, specs)) then Complete else Refused
  {
    hide Run, Runs, Conflicts, Touched, OwnerOf, Between, SameButCreated;
    var h := Runs(start, q, specs);
    EveryRunKeepsInv(q, start, specs);
    RunCompletesIff(p, h, last);
    forall i | 0 <= i < |p.records|
      ensures var r := p.records[i];
              Conflicts(h.tables, r, OwnerOf(p, r)) <==> Touched(h.tables, r, OwnerOf(p, r)) && r.created != q.records[i].created
    {
      ConflictIffTimeMoved(q, p, h.tables, i);
    }
  }

  const SAMPLE_HOST := Host(NO_ROWS, map[], None, false, false)

  /** Stopped right after its commit, the sample cannot be resumed with another creation time. */
  lemma OtherTimeIsRefused()
    ensures var h := Runs(SAMPLE_HOST, SampleRequest(1), [Spec(1, 1)]);
            Run(h, SampleRequest(2), Spec(1, 5)).1.Refused?
  {
    var q, p := SampleRequest(1), SampleRequest(2);
    var h := Runs(SAMPLE_HOST, q, [Spec(1, 1)]);
    assert [Spec(1, 1)][..0] == [];
    assert Runs(SAMPLE_HOST, q, []) == SAMPLE_HOST;
    assert ApplyRange(NO_ROWS, q, 0, 0) == Some(NO_ROWS);
    ApplyRecordEffect(NO_ROWS, q.records[0], SAMPLE_OWNER);
    assert ApplyRange(NO_ROWS, q, 0, 1) == ApplyRecord(NO_ROWS, q.records[0], SAMPLE_OWNER);
    assert h.cursor.None? && Touched(h.tables, p.records[0], SAMPLE_OWNER);
    hide Run, Runs, Touched;
    ResumedWithOtherTimes(q, p, SAMPLE_HOST, [Spec(1, 1)], Spec(1, 5));
    assert !TimesKept(q, p, h);
  }

  // ---------------------------------------------------------------------------------------------
  // The script's own loops

  class BackfillHost {
    var tables: Tables
    var manifest: map<nat, Entry>
    var cursor: Option<nat>
    var stateDone: bool
    var manifestDone: bool

    function View(): Host
      reads this
    {
      Host(tables, manifest, cursor, stateDone, manifestDone)
    }

    constructor (h: Host)
      ensures View() == h
    {
      tables, manifest, cursor, stateDone, manifestDone := h.tables, h.manifest, h.cursor, h.stateDone, h.manifestDone;
    }

    /** One transaction: all rows of the batch, or none of them. */
    method CommitBatch(q: Request, lo: nat, hi: nat) returns (ok: bool, entries: map<nat, Entry>)
      requires Ready(q) && lo <= hi <= |q.records|
      modifies this`tables
      ensures var t := ApplyRange(old(tables), q, lo, hi);
              if t.Some? then ok && tables == t.value && entries == EntriesRange(old(tables), q, lo, hi)
              else !ok && tables == old(tables)
    {
      hide ApplyRecord, EntryOf, TripOf, MemberOf, ArtifactOf, VersionOf;
      var t := tables;
      entries := map[];
      for i := lo to hi
        invariant ApplyRange(tables, q, lo, i) == Some(t)
        invariant entries == EntriesRange(tables, q, lo, i)
      {
        var r := q.records[i];
        var next := ApplyRecord(t, r, OwnerOf(q, r));
        if next.None? {
          NoneStaysNone(tables, q, lo, i + 1, hi);
          return false, map[];
        }
        entries := entries[r.key := EntryOf(r, next.value != t)];
        t := next.value;
      }
      tables := t;
      return true, entries;
    }

    /** `backfill`, which a stop may end after any durable write. */
    method Apply(q: Request, size: int, budget: nat) returns (out: Outcome)
      requires Ready(q)
      modifies this
      ensures (View(), out) == Run(old(View()), q, Spec(size, budget))
    {
      hide ApplyRange, EntriesRange;
      if size < 1 || size > 10000 {
        return Refused;
      }
      var lo := Passed(q.records, cursor, 0);
      var left := budget;
      while lo < |q.records|
        invariant lo <= |q.records|
        invariant Batches(View(), q, lo, size, left) == Run(old(View()), q, Spec(size, budget))
      {
        hide Finish;
        if left == 0 {
          return Stopped;
        }
        var hi := Min(lo + size, |q.records|);
        var ok, entries := CommitBatch(q, lo, hi);
        if !ok {
          return Refused;
        }
        if left == 1 {
          return Stopped;
        }
        manifest, manifestDone := manifest + entries, false;
        if left == 2 {
          return Stopped;
        }
        cursor, stateDone := Some(q.records[hi - 1].key), false;
        lo, left := hi, left - 3;
      }
      if left == 0 {
        return Stopped;
      }
      stateDone := true;
      if left == 1 {
        return Stopped;
      }
      manifestDone := true;
      return Complete;
    }
  }

  lemma {:induction false} NoneStaysNone(t: Tables, q: Request, lo: nat, mid: nat, hi: nat)
    requires Ready(q) && lo <= mid <= hi <= |q.records| && ApplyRange(t, q, lo, mid).None?
    ensures ApplyRange(t, q, lo, hi).None?
    decreases hi
  {
    hide ApplyRecord;
    if mid < hi {
      NoneStaysNone(t, q, lo, mid, hi - 1);
    }
  }
}

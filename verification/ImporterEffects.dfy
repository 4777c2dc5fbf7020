/** What a committed import changes, and what it cannot. */
module ImporterEffects {
  import opened Basics
  import opened Semver
  import opened Tables
  import opened Review
  import opened ReviewLaws
  import opened KeyLaws
  import opened Audiences
  import opened Protocol
  import opened Importer
  import opened ImporterLaws

  // --- what was there stays ---------------------------------------------------

  /** Every app, version, translation, external registration and event of s is in t as it was, and
      platforms and grants are the same. */
  ghost predicate Untouched(s: Store, t: Store)
  {
    && (forall a :: a in s.apps ==> a in t.apps && t.apps[a] == s.apps[a])
    && (forall v :: v in s.releases ==> v in t.releases && t.releases[v] == s.releases[v])
    && (forall a, l :: l in TextsOf(s.texts, a) ==> l in TextsOf(t.texts, a) && TextsOf(t.texts, a)[l] == TextsOf(s.texts, a)[l])
    && (forall a :: a in s.externals ==> a in t.externals && t.externals[a] == s.externals[a])
    && s.events <= t.events && t.platforms == s.platforms && t.grants == s.grants
  }

  /** What holds of a copy step whatever it copies. */
  ghost predicate Preserves(s: Store, t: Store)
  {
    Untouched(s, t) && (References(s) ==> References(t)) && (Keyed(s) ==> Keyed(t))
  }

  lemma PreservesBoth(s: Store, t: Store, u: Store)
    requires Preserves(s, t) && Preserves(t, u)
    ensures Preserves(s, u)
  {
  }

  lemma InsertionTouchesNothing(s: Store, row: Record)
    requires !Present(s, row)
    ensures Untouched(s, Inserted(s, row))
  {
  }

  lemma InsertionKeepsReferences(s: Store, row: Record)
    requires !Present(s, row) && Anchored(s, row) && References(s)
    ensures References(Inserted(s, row))
  {
  }

  lemma InsertionKeepsKeys(s: Store, row: Record)
    requires !Present(s, row) && !Clashes(s, row) && Keyed(s)
    ensures Keyed(Inserted(s, row))
  {
  }

  lemma WritePreserves(w: World, s: Store, row: Record)
    requires Write(w, s, row).Ok?
    ensures Preserves(s, Write(w, s, row).value)
  {
    if !Present(s, row) {
      InsertionTouchesNothing(s, row);
      if References(s) { InsertionKeepsReferences(s, row); }
      if Keyed(s) { InsertionKeepsKeys(s, row); }
    }
  }

  lemma {:induction false} WritesPreserve(w: World, s: Store, rows: seq<Record>)
    requires WriteAll(w, s, rows).Ok?
    ensures Preserves(s, WriteAll(w, s, rows).value)
    decreases |rows|
  {
    if rows != [] {
      var t := WriteAll(w, s, rows[..|rows| - 1]).value;
      WritesPreserve(w, s, rows[..|rows| - 1]);
      WritePreserves(w, t, rows[|rows| - 1]);
      PreservesBoth(s, t, WriteAll(w, s, rows).value);
    }
  }

  lemma {:induction false} CopiesPreserve(w: World, s: Store, tables: seq<(string, seq<Record>)>)
    requires CopyTables(w, s, tables).Ok?
    ensures Preserves(s, CopyTables(w, s, tables).value)
    decreases |tables|
  {
    if tables != [] {
      var t := CopyTables(w, s, tables[..|tables| - 1]).value;
      CopiesPreserve(w, s, tables[..|tables| - 1]);
      WritesPreserve(w, t, tables[|tables| - 1].1);
      PreservesBoth(s, t, CopyTables(w, s, tables).value);
    }
  }

  lemma MorePublishers(s: Store, t: Store)
    requires t == s.(publishers := t.publishers) && forall p :: p in s.publishers ==> p in t.publishers
    requires PublishersOnce(s.publishers) ==> PublishersOnce(t.publishers)
    ensures Preserves(s, t)
  {
  }

  lemma RevisionAside(s: Store, t: Store)
    requires t == s.(revision := t.revision)
    ensures Preserves(s, t)
  {
  }

  // --- who houses whom --------------------------------------------------------

  ghost predicate IsTenant(t: Target, id: string) { exists i :: 0 <= i < |t.tenants| && t.tenants[i].id == id }

  ghost predicate IsUser(t: Target, id: string) { exists i :: 0 <= i < |t.users| && t.users[i].id == id }

  ghost predicate IsRole(t: Target, id: string) { exists r :: r in t.roles && r.id == id }

  /** Publishers belong to tenants, memberships join users to tenants, and memberships carry roles:
      all of them there. */
  ghost predicate Housed(t: Target)
  {
    && (forall p :: p in t.store.publishers ==> IsTenant(t, t.store.publishers[p].tenant))
    && (forall k :: k in t.memberships ==> IsTenant(t, k.0) && IsUser(t, k.1))
    && (forall c :: c in t.carried ==> c.0 in t.memberships.Values && IsRole(t, c.1))
  }

  lemma {:induction false} FoundTenant(tenants: seq<Tenant>, slug: string)
    requires TenantBySlug(tenants, slug).Some?
    ensures exists i :: 0 <= i < |tenants| && tenants[i].id == TenantBySlug(tenants, slug).value
    decreases |tenants|
  {
    if tenants[0].slug == slug {
      assert tenants[0].id == TenantBySlug(tenants, slug).value;
    } else {
      FoundTenant(tenants[1..], slug);
      var i :| 0 <= i < |tenants[1..]| && tenants[1..][i].id == TenantBySlug(tenants, slug).value;
      assert tenants[i + 1].id == TenantBySlug(tenants, slug).value;
    }
  }

  lemma {:induction false} FoundUser(users: seq<User>, email: string)
    requires UserByEmail(users, email).Some?
    ensures exists i :: 0 <= i < |users| && users[i].id == UserByEmail(users, email).value
    decreases |users|
  {
    if Fold(users[0].email) == email {
      assert users[0].id == UserByEmail(users, email).value;
    } else {
      FoundUser(users[1..], email);
      var i :| 0 <= i < |users[1..]| && users[1..][i].id == UserByEmail(users, email).value;
      assert users[i + 1].id == UserByEmail(users, email).value;
    }
  }

  lemma GrownHouses(t: Target, u: Target)
    requires t.tenants <= u.tenants && t.users <= u.users
    ensures forall id :: IsTenant(t, id) ==> IsTenant(u, id)
    ensures forall id :: IsUser(t, id) ==> IsUser(u, id)
  {
  }

  lemma TenantHoused(w: World, t: Target, slug: string, name: string)
    requires EnsureTenant(w, t, slug, name).Ok? && Housed(t)
    ensures var (u, tenant, made) := EnsureTenant(w, t, slug, name).value; Housed(u) && IsTenant(u, tenant)
  {
    var (u, tenant, made) := EnsureTenant(w, t, slug, name).value;
    EnsureTenantFinds(w, t, slug, name);
    FoundTenant(u.tenants, slug);
    GrownHouses(t, u);
    SameRoles(t, u);
  }

  lemma SameRoles(t: Target, u: Target)
    requires u.roles == t.roles
    ensures forall id :: IsRole(t, id) ==> IsRole(u, id)
  {
  }

  lemma UserHoused(w: World, t: Target, email: string, name: string)
    requires EnsureUser(w, t, email, name).Ok? && Housed(t) && Fold(email) == email
    ensures var (u, user, made) := EnsureUser(w, t, email, name).value;
            Housed(u) && IsUser(u, user) && u.tenants == t.tenants
  {
    var (u, user, made) := EnsureUser(w, t, email, name).value;
    EnsureUserFinds(w, t, email, name);
    FoundUser(u.users, email);
    GrownHouses(t, u);
    SameRoles(t, u);
  }

  lemma AdminHoused(w: World, t: Target, tenant: string, user: string)
    requires EnsureAdmin(w, t, tenant, user).Ok? && Housed(t) && IsTenant(t, tenant) && IsUser(t, user)
    ensures var u := EnsureAdmin(w, t, tenant, user).value.0; Housed(u) && u.tenants == t.tenants
  {
    var u := EnsureAdmin(w, t, tenant, user).value.0;
    var key := (tenant, user);
    GrownHouses(t, u);
    SameRoles(t, u);
    forall c | c in u.carried ensures c.0 in u.memberships.Values && IsRole(u, c.1) {
      if c in t.carried {
        var k :| k in t.memberships && t.memberships[k] == c.0;
        assert k in u.memberships && u.memberships[k] == c.0;
      } else {
        assert key in u.memberships && u.memberships[key] == c.0;
      }
    }
  }

  lemma OwnerHoused(w: World, t: Target, r: Report, p: SourcePublisher, tenant: string)
    requires EnsureOwner(w, t, r, p, tenant).Ok? && Housed(t) && IsTenant(t, tenant)
    ensures var u := EnsureOwner(w, t, r, p, tenant).value.0; Housed(u) && IsTenant(u, tenant)
  {
    if p.ownerEmail != "" {
      FoldTwice(Headers.Trim(p.ownerEmail));
      UserHoused(w, t, OwnerEmail(p), p.name);
      var (u, user, made) := EnsureUser(w, t, OwnerEmail(p), p.name).value;
      AdminHoused(w, u, tenant, user);
    }
  }

  lemma UpsertHoused(w: World, t: Target, p: SourcePublisher, tenant: string)
    requires UpsertPublisher(w, t, p, tenant).Ok? && Housed(t) && IsTenant(t, tenant)
    ensures Housed(UpsertPublisher(w, t, p, tenant).value)
  {
    var u := UpsertPublisher(w, t, p, tenant).value;
    GrownHouses(t, u);
    SameRoles(t, u);
  }

  lemma PublisherHoused(w: World, t: Target, r: Report, p: SourcePublisher)
    requires ImportPublisher(w, t, r, p).Ok? && Housed(t)
    ensures Housed(ImportPublisher(w, t, r, p).value.0)
  {
    TenantHoused(w, t, TenantSlug(p), p.name);
    var (u, tenant, made) := EnsureTenant(w, t, TenantSlug(p), p.name).value;
    var r1 := r.(tenants := r.tenants + if made then 1 else 0);
    OwnerHoused(w, u, r1, p, tenant);
    UpsertHoused(w, EnsureOwner(w, u, r1, p, tenant).value.0, p, tenant);
  }

  lemma {:induction false} PublishersHoused(w: World, t: Target, r: Report, list: seq<SourcePublisher>)
    requires ImportPublishers(w, t, r, list).Ok? && Housed(t)
    ensures Housed(ImportPublishers(w, t, r, list).value.0)
    decreases |list|
  {
    if list != [] {
      PublishersHoused(w, t, r, list[..|list| - 1]);
      var (u, r') := ImportPublishers(w, t, r, list[..|list| - 1]).value;
      PublisherHoused(w, u, r', list[|list| - 1]);
    }
  }

  // --- whether somebody can act ------------------------------------------------

  /** The publisher's owner carries an admin role of its tenant. */
  ghost predicate CanAct(t: Target, p: SourcePublisher)
    requires ImporterLaws.Arrived(t, p) && p.ownerEmail != ""
  {
    var tenant := TenantBySlug(t.tenants, TenantSlug(p)).value;
    var membership := t.memberships[(tenant, UserByEmail(t.users, OwnerEmail(p)).value)];
    exists role :: IsAdminRole(t, tenant, role) && (membership, role.id) in t.carried
  }

  predicate IsAdminRole(t: Target, tenant: string, role: Role) { role in t.roles && role.tenant == tenant && role.code == "admin" }

  ghost predicate HasAdminRole(t: Target, tenant: string) { exists role :: IsAdminRole(t, tenant, role) }

  /** After its import a publisher's owner can act for it if and only if its tenant has an admin role. */
  lemma OwnersActWhereRolesAre(t: Target, p: SourcePublisher)
    requires ImporterLaws.Arrived(t, p) && p.ownerEmail != ""
    ensures CanAct(t, p) <==> HasAdminRole(t, TenantBySlug(t.tenants, TenantSlug(p)).value)
  {
    var tenant := TenantBySlug(t.tenants, TenantSlug(p)).value;
    var membership := t.memberships[(tenant, UserByEmail(t.users, OwnerEmail(p)).value)];
    if role :| IsAdminRole(t, tenant, role) {
      assert IsAdmin(t, membership, tenant);
      assert IsAdminRole(t, tenant, role) && (membership, role.id) in t.carried;
    }
  }

  /** The import makes tenants but no roles. Where roles belong to tenants that exist, the owner of a
      publisher whose tenant it had to make cannot act for it, and is not counted as a member. */
  lemma FreshTenantsHaveNoActors(w: World, t: Target, r: Report, p: SourcePublisher)
    requires ImportPublisher(w, t, r, p).Ok? && TenantBySlug(t.tenants, TenantSlug(p)).None? && p.ownerEmail != ""
    requires forall role :: role in t.roles ==> IsTenant(t, role.tenant)
    ensures var (u, r') := ImportPublisher(w, t, r, p).value;
            ImporterLaws.Arrived(u, p) && !CanAct(u, p) && r'.memberships == r.memberships
  {
    PublisherArrives(w, t, r, p);
    var (u, r') := ImportPublisher(w, t, r, p).value;
    var (x, tenant, made) := EnsureTenant(w, t, TenantSlug(p), p.name).value;
    EnsureTenantFinds(w, t, TenantSlug(p), p.name);
    assert !HasAdminRole(t, tenant);
    NoRolesNoMembers(w, x, r.(tenants := r.tenants + 1), p, tenant);
    OwnersActWhereRolesAre(u, p);
    var v, same := OwnerSettled(w, t, r, p);
    assert u.roles == t.roles && TenantBySlug(u.tenants, TenantSlug(p)) == Some(tenant);
  }

  lemma NoRolesNoMembers(w: World, t: Target, r: Report, p: SourcePublisher, tenant: string)
    requires EnsureOwner(w, t, r, p, tenant).Ok? && !HasAdminRole(t, tenant)
    ensures EnsureOwner(w, t, r, p, tenant).value.1.memberships == r.memberships
  {
    assert forall role :: role in t.roles && role.tenant == tenant && role.code == "admin" ==> IsAdminRole(t, tenant, role);
    assert AdminRoles(t.roles, tenant) == {};
  }

  // --- the committed import ---------------------------------------------------

  /** A committed import leaves every app, version, translation, registration and event that was
      there unchanged, and platforms and grants with them; it keeps references closed and keys
      unique; it moves the revision by one. */
  lemma CommittedImport(w: World, source: Source, t: Target, u: Target, r: Report)
    requires Import(w, source, t) == Ok((u, r))
    ensures Untouched(t.store, u.store) && u.store.revision == t.store.revision + 1
    ensures References(t.store) ==> References(u.store)
    ensures Keyed(t.store) ==> Keyed(u.store)
    ensures Housed(t) ==> Housed(u)
  {
    var x, r1, s := Stages(w, source, t, u, r);
    PublishersArrive(w, t, NOTHING, source.publishers);
    CopiesStayAside(w, x.store, TablesOf(source));
    MorePublishers(t.store, x.store);
    CopiesPreserve(w, x.store, TablesOf(source));
    RevisionAside(s, u.store);
    PreservesBoth(t.store, x.store, s);
    PreservesBoth(t.store, s, u.store);
    if Housed(t) {
      PublishersHoused(w, t, NOTHING, source.publishers);
      StillHoused(x, u);
    }
  }

  lemma StillHoused(t: Target, u: Target)
    requires Housed(t) && u == t.(store := u.store) && u.store.publishers == t.store.publishers
    ensures Housed(u)
  {
  }

  /** The copied tables after a committed import, row by row: what was there stays, every other key
      of the source arrives with the source's columns, and nothing else appears. */
  lemma ImportCopiesOnAbsent(w: World, source: Source, t: Target, u: Target, r: Report, key: Key)
    requires Import(w, source, t) == Ok((u, r))
    ensures RowAt(u.store, key) ==
            if RowAt(t.store, key).Some? then RowAt(t.store, key) else FirstWith(AllRows(TablesOf(source)), key)
  {
    var x, r1, s := Stages(w, source, t, u, r);
    PublishersArrive(w, t, NOTHING, source.publishers);
    TablesCopyOnAbsent(w, x.store, TablesOf(source), key);
    RowsAside(t.store, x.store, key);
    RowsAside(s, u.store, key);
  }

  lemma RowsAside(s: Store, t: Store, key: Key)
    requires SameRows(s, t)
    ensures RowAt(s, key) == RowAt(t, key)
  {
  }

  lemma {:induction false} FirstIsARow(rows: seq<Record>, key: Key)
    requires FirstWith(rows, key).Some?
    ensures exists row :: row in rows && KeyOf(row) == key && FirstWith(rows, key) == Some(Arriving(row))
    decreases |rows|
  {
    if FirstWith(rows[..|rows| - 1], key).Some? {
      FirstIsARow(rows[..|rows| - 1], key);
    } else {
      assert rows[|rows| - 1] in rows;
    }
  }

  predicate DatedRow(row: Record)
  {
    row.VersionRow? && row.release.status == Published ==> row.release.publishedAt.Some? && row.release.publishedAt.value >= EPOCH
  }

  /** Every committed import is one of the steps the catalogue's laws allow for, so that caches stay
      right across it; and if the source's published versions carry a publication time, as the
      target's do, all of them still do. */
  lemma ImportsAreSteps(w: World, source: Source, t: Target, u: Target, r: Report, s: System, s': System)
    requires Import(w, source, t) == Ok((u, r))
    requires |s.hist| > 0 && Now(s) == t.store && s' == s.(hist := s.hist + [u.store])
    ensures ImportStep(s, u.store, s')
    ensures Dated(FaceOf(t.store)) && (forall row :: row in AllRows(TablesOf(source)) ==> DatedRow(row)) ==> Dated(FaceOf(u.store))
  {
    CommittedImport(w, source, t, u, r);
    if Dated(FaceOf(t.store)) && forall row :: row in AllRows(TablesOf(source)) ==> DatedRow(row) {
      ImportKeepsDated(w, source, t, u, r);
    }
  }

  lemma ImportKeepsDated(w: World, source: Source, t: Target, u: Target, r: Report)
    requires Import(w, source, t) == Ok((u, r)) && Dated(FaceOf(t.store))
    requires forall row :: row in AllRows(TablesOf(source)) ==> DatedRow(row)
    ensures Dated(FaceOf(u.store))
  {
    CommittedImport(w, source, t, u, r);
    forall v | v in FaceOf(u.store).published
      ensures FaceOf(u.store).published[v].publishedAt.Some? && FaceOf(u.store).published[v].publishedAt.value >= EPOCH
    {
      ImportCopiesOnAbsent(w, source, t, u, r, VersionKey(v));
      if v in t.store.releases {
        assert u.store.releases[v] == t.store.releases[v];
        assert v in FaceOf(t.store).published;
      } else {
        FirstIsARow(AllRows(TablesOf(source)), VersionKey(v));
        var row :| row in AllRows(TablesOf(source)) && KeyOf(row) == VersionKey(v)
                   && FirstWith(AllRows(TablesOf(source)), VersionKey(v)) == Some(Arriving(row));
        assert row == VersionRow(v, u.store.releases[v]) && DatedRow(row);
      }
    }
  }

  // --- closed sources ---------------------------------------------------------

  predicate Anchors(other: Record, row: Record)
  {
    match row
    case AppRow(_, _, _, _, _, _) => false
    case VersionRow(_, r) => other.AppRow? && other.id == r.app
    case TextRow(app, _, _) => other.AppRow? && other.id == app
    case ExternalRow(app, _) => other.AppRow? && other.id == app
    case EventRow(e) => other.VersionRow? && other.vid == e.version
  }

  /** Every row refers to a publisher, or to a row of an earlier table. */
  ghost predicate ClosedOver(publishers: set<string>, tables: seq<(string, seq<Record>)>)
  {
    forall i, row :: 0 <= i < |tables| && row in tables[i].1 ==>
      (row.AppRow? && row.publisher in publishers) || exists other :: other in AllRows(tables[..i]) && Anchors(other, row)
  }

  lemma AnchorsStay(s: Store, t: Store, row: Record)
    requires Anchored(s, row) && Untouched(s, t) && t.publishers == s.publishers
    ensures Anchored(t, row)
  {
  }

  lemma {:induction false} AnchoredWritesDoNotDangle(w: World, s: Store, rows: seq<Record>)
    requires forall row :: row in rows ==> Anchored(s, row)
    ensures WriteAll(w, s, rows) != Err(Dangling)
    decreases |rows|
  {
    if rows != [] {
      AnchoredWritesDoNotDangle(w, s, rows[..|rows| - 1]);
      if WriteAll(w, s, rows[..|rows| - 1]).Ok? {
        WritesPreserve(w, s, rows[..|rows| - 1]);
        WritesStayAside(w, s, rows[..|rows| - 1]);
        AnchorsStay(s, WriteAll(w, s, rows[..|rows| - 1]).value, rows[|rows| - 1]);
      }
    }
  }

  lemma {:induction false} ClosedTablesDoNotDangle(w: World, s: Store, tables: seq<(string, seq<Record>)>)
    requires ClosedOver(s.publishers.Keys, tables)
    ensures CopyTables(w, s, tables) != Err(Dangling)
    decreases |tables|
  {
    if tables != [] {
      var before, rows := tables[..|tables| - 1], tables[|tables| - 1].1;
      forall i | 0 <= i < |before| ensures tables[..i] == before[..i] && tables[i] == before[i] {}
      ClosedTablesDoNotDangle(w, s, before);
      if CopyTables(w, s, before).Ok? {
        var t := CopyTables(w, s, before).value;
        CopiedRowsArePresent(w, s, before, t);
        CopiesStayAside(w, s, before);
        assert tables[|tables| - 1].1 == rows && tables[..|tables| - 1] == before;
        NextTableDoesNotDangle(w, t, s.publishers.Keys, AllRows(before), rows);
      }
    }
  }

  lemma NextTableDoesNotDangle(w: World, t: Store, publishers: set<string>, earlier: seq<Record>, rows: seq<Record>)
    requires publishers <= t.publishers.Keys && forall row :: row in earlier ==> Present(t, row)
    requires forall row :: row in rows ==>
               (row.AppRow? && row.publisher in publishers) || exists other :: other in earlier && Anchors(other, row)
    ensures WriteAll(w, t, rows) != Err(Dangling)
  {
    RowsAreAnchored(t, publishers, earlier, rows);
    AnchoredWritesDoNotDangle(w, t, rows);
  }

  lemma RowsAreAnchored(t: Store, publishers: set<string>, earlier: seq<Record>, rows: seq<Record>)
    requires publishers <= t.publishers.Keys && forall row :: row in earlier ==> Present(t, row)
    requires forall row :: row in rows ==>
               (row.AppRow? && row.publisher in publishers) || exists other :: other in earlier && Anchors(other, row)
    ensures forall row :: row in rows ==> Anchored(t, row)
  {
  }

  /** A source whose rows refer only to its own publishers and rows never meets a missing
      reference, on any target: the tables are copied in an order that suits them. */
  lemma ClosedSourcesDoNotDangle(w: World, source: Source, t: Target)
    requires ClosedOver(set p | p in source.publishers :: p.id, TablesOf(source))
    ensures Import(w, source, t) != Err(Dangling)
  {
    PublishersDoNotDangle(w, t, NOTHING, source.publishers);
    if !w.breaks(ReadPublishers) && ImportPublishers(w, t, NOTHING, source.publishers).Ok? {
      var x := ImportPublishers(w, t, NOTHING, source.publishers).value.0;
      PublishersAreThere(w, t, source.publishers);
      WiderClosure(set p | p in source.publishers :: p.id, x.store.publishers.Keys, TablesOf(source));
      ClosedTablesDoNotDangle(w, x.store, TablesOf(source));
    }
  }

  lemma PublishersAreThere(w: World, t: Target, list: seq<SourcePublisher>)
    requires ImportPublishers(w, t, NOTHING, list).Ok?
    ensures (set p | p in list :: p.id) <= ImportPublishers(w, t, NOTHING, list).value.0.store.publishers.Keys
  {
    PublishersArrive(w, t, NOTHING, list);
  }

  lemma WiderClosure(narrow: set<string>, wide: set<string>, tables: seq<(string, seq<Record>)>)
    requires narrow <= wide && ClosedOver(narrow, tables)
    ensures ClosedOver(wide, tables)
  {
  }

  lemma {:induction false} PublishersDoNotDangle(w: World, t: Target, r: Report, list: seq<SourcePublisher>)
    ensures ImportPublishers(w, t, r, list) != Err(Dangling)
    decreases |list|
  {
    if list != [] {
      PublishersDoNotDangle(w, t, r, list[..|list| - 1]);
      match ImportPublishers(w, t, r, list[..|list| - 1])
      case Err(_) =>
      case Ok((u, r')) => PublisherDoesNotDangle(w, u, r', list[|list| - 1]);
    }
  }

  lemma PublisherDoesNotDangle(w: World, t: Target, r: Report, p: SourcePublisher)
    ensures ImportPublisher(w, t, r, p) != Err(Dangling)
  {
  }
}

/** What the import of one publisher writes, table by table: the tenant found or made, the owner's
    account, membership and roles, the publisher's row, and what the report counts. */
module Arrivals {
  import opened Basics
  import opened Tables
  import opened Importer
  import opened ImporterLaws
  import Headers

  // --- finding ----------------------------------------------------------------

  predicate IsFirstTenant(tenants: seq<Tenant>, slug: string, i: nat)
  {
    i < |tenants| && tenants[i].slug == slug && forall j :: 0 <= j < i ==> tenants[j].slug != slug
  }

  /** The tenant found is the first with the slug; none is found exactly when no tenant has it. */
  lemma {:induction false} TenantIsFirst(tenants: seq<Tenant>, slug: string)
    ensures match TenantBySlug(tenants, slug)
            case None => forall tenant :: tenant in tenants ==> tenant.slug != slug
            case Some(id) => exists i: nat :: IsFirstTenant(tenants, slug, i) && tenants[i].id == id
  {
    if tenants != [] {
      if tenants[0].slug == slug {
        assert IsFirstTenant(tenants, slug, 0);
      } else {
        TenantIsFirst(tenants[1..], slug);
        if TenantBySlug(tenants, slug).Some? {
          var i: nat :| IsFirstTenant(tenants[1..], slug, i) && tenants[1..][i].id == TenantBySlug(tenants, slug).value;
          assert forall j :: 0 < j <= i + 1 ==> tenants[j] == tenants[1..][j - 1];
          assert IsFirstTenant(tenants, slug, i + 1);
        }
      }
    }
  }

  predicate IsFirstUser(users: seq<User>, email: string, i: nat)
  {
    i < |users| && Headers.EqualFold(users[i].email, email) && forall j :: 0 <= j < i ==> !Headers.EqualFold(users[j].email, email)
  }

  /** The user found is the first with the address, whatever the case either is written in. */
  lemma {:induction false} UserIsFirst(users: seq<User>, email: string)
    requires Fold(email) == email
    ensures match UserByEmail(users, email)
            case None => forall user :: user in users ==> !Headers.EqualFold(user.email, email)
            case Some(id) => exists i: nat :: IsFirstUser(users, email, i) && users[i].id == id
  {
    if users != [] {
      FoldsAlike(users[0].email, email);
      if Headers.EqualFold(users[0].email, email) {
        assert IsFirstUser(users, email, 0);
      } else {
        UserIsFirst(users[1..], email);
        if UserByEmail(users, email).Some? {
          var i: nat :| IsFirstUser(users[1..], email, i) && users[1..][i].id == UserByEmail(users, email).value;
          assert forall j :: 0 < j <= i + 1 ==> users[j] == users[1..][j - 1];
          assert IsFirstUser(users, email, i + 1);
        }
      }
    }
  }

  lemma FoldsAlike(s: string, email: string)
    requires Fold(email) == email
    ensures Fold(s) == email <==> Headers.EqualFold(s, email)
  {
    if Fold(s) == email { assert forall i :: 0 <= i < |s| ==> Headers.Lower(email[i]) == Fold(email)[i] && Fold(s)[i] == Headers.Lower(s[i]); }
    if Headers.EqualFold(s, email) { assert forall i :: 0 <= i < |s| ==> Fold(s)[i] == Fold(email)[i]; }
  }

  /** White space around the owner's address and the case of its letters do not count. */
  lemma OwnerAddress(p: SourcePublisher, before: string, core: string, after: string)
    requires p.ownerEmail == before + core + after && Headers.Blank(before) && Headers.Tight(core) && Headers.Blank(after)
    ensures |OwnerEmail(p)| == |core|
    ensures forall i :: 0 <= i < |core| ==>
              OwnerEmail(p)[i] == if 'A' <= core[i] <= 'Z' then core[i] - 'A' + 'a' else core[i]
  {
    Headers.TrimPadded(before, core, after);
  }

  // --- what is written --------------------------------------------------------

  function SlugOf(p: SourcePublisher): string { if p.slug != "" then p.slug else p.ownerSlug }

  /** The tenant is there or is made, and the publisher's row is written under it. */
  ghost predicate RowWritten(w: World, t: Target, r: Report, p: SourcePublisher, u: Target, r': Report, tenant: string)
  {
    var known := exists tenant :: tenant in t.tenants && tenant.slug == SlugOf(p);
    && u.tenants == t.tenants + (if known then [] else [Tenant(w.tenantId(SlugOf(p)), p.name, SlugOf(p))])
    && (exists i: nat :: IsFirstTenant(u.tenants, SlugOf(p), i) && u.tenants[i].id == tenant)
    && u.store == t.store.(publishers := t.store.publishers[p.id := Publisher(tenant, p.slug, p.name, p.email, p.verified, w.now)])
    && r'.publishers == r.publishers + 1 && r'.tenants == r.tenants + (if known then 0 else 1)
  }

  /** Without an owner's address nobody joins, and the report says so. With one the account is there or is
      made, it is a member of the tenant, and the membership carries the tenant's roles whose code is
      "admin": all of those, and no other that it did not carry before. */
  ghost predicate OwnerWritten(w: World, t: Target, r: Report, p: SourcePublisher, u: Target, r': Report, tenant: string)
  {
    u.roles == t.roles &&
    if p.ownerEmail == "" then
      && u.users == t.users && u.memberships == t.memberships && u.carried == t.carried
      && r'.users == r.users && r'.memberships == r.memberships
      && r'.skipped == r.skipped + ["publisher \"" + p.slug + "\" has no owner e-mail; it arrives with no member"]
    else
      && r'.skipped == r.skipped
      && exists user :: AccountWritten(w, t, r, p, u, r', user) && MemberWritten(w, t, r, u, r', tenant, user)
  }

  ghost predicate AccountWritten(w: World, t: Target, r: Report, p: SourcePublisher, u: Target, r': Report, user: string)
  {
    var email := OwnerEmail(p);
    var known := exists user :: user in t.users && Headers.EqualFold(user.email, email);
    && u.users == t.users + (if known then [] else [User(w.userId(email), email, p.name)])
    && (exists i: nat :: IsFirstUser(u.users, email, i) && u.users[i].id == user)
    && r'.users == r.users + (if known then 0 else 1)
  }

  ghost predicate MemberWritten(w: World, t: Target, r: Report, u: Target, r': Report, tenant: string, user: string)
  {
    var key := (tenant, user);
    var m := if key in t.memberships then t.memberships[key] else w.membershipId(tenant, user);
    && u.memberships == t.memberships[key := m]
    && (forall role :: role in t.roles && role.tenant == tenant && role.code == "admin" ==> (m, role.id) in u.carried)
    && t.carried <= u.carried
    && (forall c :: c in u.carried && c !in t.carried ==>
          c.0 == m && exists role :: role in t.roles && role.tenant == tenant && role.code == "admin" && role.id == c.1)
    && r'.memberships == r.memberships + (if u.carried == t.carried then 0 else 1)
  }

  lemma TenantFound(w: World, t: Target, p: SourcePublisher)
    requires EnsureTenant(w, t, TenantSlug(p), p.name).Ok?
    ensures var (u, tenant, made) := EnsureTenant(w, t, TenantSlug(p), p.name).value;
            var known := exists tenant :: tenant in t.tenants && tenant.slug == SlugOf(p);
      && u == t.(tenants := t.tenants + (if known then [] else [Tenant(w.tenantId(SlugOf(p)), p.name, SlugOf(p))]))
      && (exists i: nat :: IsFirstTenant(u.tenants, SlugOf(p), i) && u.tenants[i].id == tenant) && made == !known
  {
    var (u, tenant, made) := EnsureTenant(w, t, TenantSlug(p), p.name).value;
    EnsureTenantFinds(w, t, TenantSlug(p), p.name);
    TenantIsFirst(t.tenants, SlugOf(p));
    TenantIsFirst(u.tenants, SlugOf(p));
    assert u.tenants == t.tenants + if made then [Tenant(w.tenantId(SlugOf(p)), p.name, SlugOf(p))] else [];
  }

  lemma AccountFound(w: World, t: Target, r: Report, p: SourcePublisher, r': Report)
    requires EnsureUser(w, t, OwnerEmail(p), p.name).Ok?
    requires r'.users == r.users + if EnsureUser(w, t, OwnerEmail(p), p.name).value.2 then 1 else 0
    ensures var (u, user, made) := EnsureUser(w, t, OwnerEmail(p), p.name).value;
            u == t.(users := u.users) && AccountWritten(w, t, r, p, u, r', user)
  {
    var (u, user, made) := EnsureUser(w, t, OwnerEmail(p), p.name).value;
    FoldTwice(Headers.Trim(p.ownerEmail));
    EnsureUserFinds(w, t, OwnerEmail(p), p.name);
    UserIsFirst(t.users, OwnerEmail(p));
    UserIsFirst(u.users, OwnerEmail(p));
    assert u.users == t.users + if made then [User(w.userId(OwnerEmail(p)), OwnerEmail(p), p.name)] else [];
  }

  lemma MemberMade(w: World, t: Target, r: Report, tenant: string, user: string, r': Report)
    requires EnsureAdmin(w, t, tenant, user).Ok?
    requires r'.memberships == r.memberships + if EnsureAdmin(w, t, tenant, user).value.1 then 1 else 0
    ensures var u := EnsureAdmin(w, t, tenant, user).value.0;
            u == t.(memberships := u.memberships, carried := u.carried) && MemberWritten(w, t, r, u, r', tenant, user)
  {
    var (u, made) := EnsureAdmin(w, t, tenant, user).value;
    var m := u.memberships[(tenant, user)];
    AdminCarriesAll(u, m, tenant);
    var due := CarriedBy(m, AdminRoles(t.roles, tenant));
    assert u.carried == t.carried + due;
    assert due <= t.carried <==> u.carried == t.carried;
  }

  lemma OwnerComes(w: World, t: Target, r: Report, p: SourcePublisher, tenant: string)
    requires EnsureOwner(w, t, r, p, tenant).Ok?
    ensures var (u, r') := EnsureOwner(w, t, r, p, tenant).value;
      && u == t.(users := u.users, memberships := u.memberships, carried := u.carried)
      && r' == r.(users := r'.users, memberships := r'.memberships, skipped := r'.skipped)
      && OwnerWritten(w, t, r, p, u, r', tenant)
  {
    var (u, r') := EnsureOwner(w, t, r, p, tenant).value;
    if p.ownerEmail != "" {
      var (x, user, made) := EnsureUser(w, t, OwnerEmail(p), p.name).value;
      AccountFound(w, t, r, p, r');
      MemberMade(w, x, r, tenant, user, r');
      assert AccountWritten(w, t, r, p, u, r', user) && MemberWritten(w, t, r, u, r', tenant, user);
    }
  }

  /** The whole of one publisher's import: tenant, account, membership, roles, row and counters. */
  lemma PublisherIsWritten(w: World, t: Target, r: Report, p: SourcePublisher)
    requires ImportPublisher(w, t, r, p).Ok?
    ensures var (u, r') := ImportPublisher(w, t, r, p).value;
            exists tenant :: RowWritten(w, t, r, p, u, r', tenant) && OwnerWritten(w, t, r, p, u, r', tenant)
  {
    var (u, r') := ImportPublisher(w, t, r, p).value;
    var (x, tenant, made) := EnsureTenant(w, t, TenantSlug(p), p.name).value;
    var r1 := r.(tenants := r.tenants + if made then 1 else 0);
    TenantFound(w, t, p);
    OwnerComes(w, x, r1, p, tenant);
    var (v, r2) := EnsureOwner(w, x, r1, p, tenant).value;
    OwnerStaysWritten(w, x, r1, v, r2, t, r, p, u, r', tenant);
    assert RowWritten(w, t, r, p, u, r', tenant);
  }

  lemma OwnerStaysWritten(w: World, x: Target, r1: Report, v: Target, r2: Report, t: Target, r: Report, p: SourcePublisher,
                          u: Target, r': Report, tenant: string)
    requires OwnerWritten(w, x, r1, p, v, r2, tenant)
    requires x == t.(tenants := x.tenants) && r1 == r.(tenants := r1.tenants)
    requires u == v.(store := u.store) && r' == r2.(publishers := r'.publishers)
    ensures OwnerWritten(w, t, r, p, u, r', tenant)
  {
    if p.ownerEmail != "" {
      var user :| AccountWritten(w, x, r1, p, v, r2, user) && MemberWritten(w, x, r1, v, r2, tenant, user);
      assert AccountWritten(w, t, r, p, u, r', user) && MemberWritten(w, t, r, u, r', tenant, user);
    }
  }

  /** What can stop it: a statement that breaks, a minted id in use, or another publisher with its handle
      or its tenant. Nothing else does. */
  lemma FreshIdsGoThrough(w: World, t: Target, r: Report, p: SourcePublisher)
    requires forall statement :: !w.breaks(statement)
    requires forall tenant :: tenant in t.tenants ==> tenant.id != w.tenantId(SlugOf(p))
    requires forall user :: user in t.users ==> user.id != w.userId(OwnerEmail(p))
    requires forall tenant, user :: w.membershipId(tenant, user) !in t.memberships.Values
    requires forall q :: q in t.store.publishers && q != p.id ==>
               var other := t.store.publishers[q];
               && other.slug != p.slug && other.tenant != w.tenantId(SlugOf(p))
               && forall tenant :: tenant in t.tenants && tenant.slug == SlugOf(p) ==> tenant.id != other.tenant
    ensures ImportPublisher(w, t, r, p).Ok?
  {
    TenantGoesThrough(w, t, p);
    TenantFound(w, t, p);
    var (x, tenant, made) := EnsureTenant(w, t, TenantSlug(p), p.name).value;
    var i: nat :| IsFirstTenant(x.tenants, SlugOf(p), i) && x.tenants[i].id == tenant;
    assert x.tenants[i] in x.tenants;
    OwnerGoesThrough(w, x, r.(tenants := r.tenants + if made then 1 else 0), p, tenant);
  }

  lemma TenantGoesThrough(w: World, t: Target, p: SourcePublisher)
    requires !w.breaks(FindTenant(SlugOf(p))) && !w.breaks(AddTenant(SlugOf(p)))
    requires forall tenant :: tenant in t.tenants ==> tenant.id != w.tenantId(SlugOf(p))
    ensures EnsureTenant(w, t, TenantSlug(p), p.name).Ok?
  {
  }

  lemma OwnerGoesThrough(w: World, t: Target, r: Report, p: SourcePublisher, tenant: string)
    requires forall statement :: !w.breaks(statement)
    requires forall user :: user in t.users ==> user.id != w.userId(OwnerEmail(p))
    requires forall a, b :: w.membershipId(a, b) !in t.memberships.Values
    ensures EnsureOwner(w, t, r, p, tenant).Ok? && EnsureOwner(w, t, r, p, tenant).value.0.store == t.store
  {
    FoldTwice(Headers.Trim(p.ownerEmail));
    UserIsFirst(t.users, OwnerEmail(p));
    if p.ownerEmail != "" && UserByEmail(t.users, OwnerEmail(p)).None? {
      forall i | 0 <= i < |t.users| ensures t.users[i].email != OwnerEmail(p) { assert t.users[i] in t.users; }
    }
  }

  // --- the tables -------------------------------------------------------------

  /** Every row of the source's five tables is there afterwards, an app that was not there before has no
      credits and no editor, and the report counts what was read. */
  lemma EverythingArrives(w: World, source: Source, t: Target, u: Target, r: Report)
    requires Import(w, source, t) == Ok((u, r))
    ensures forall row :: row in source.apps + source.versions + source.texts + source.externals + source.events ==> Present(u.store, row)
    ensures forall a :: a in u.store.apps && a !in t.store.apps ==>
              u.store.apps[a].credits == Credits([], [], "", "", "") && u.store.apps[a].updatedBy == None
    ensures r.publishers == |source.publishers| && r.apps == |source.apps| && r.versions == |source.versions|
    ensures r.texts == |source.texts| && r.externals == |source.externals| && r.events == |source.events|
    ensures u.store.revision == t.store.revision + 1
  {
    var x, r1, s := Stages(w, source, t, u, r);
    ReportOf(w, source, t, u, r);
    PublishersArrive(w, t, NOTHING, source.publishers);
    CopiesStayAside(w, x.store, TablesOf(source));
    CopiedRowsArePresent(w, x.store, TablesOf(source), s);
    SamePresence(s, u.store, AllRows(TablesOf(source)));
    FiveTables(source);
    NewAppsAreBareInTables(w, x.store, TablesOf(source));
  }

  lemma FiveTables(source: Source)
    ensures AllRows(TablesOf(source)) == source.apps + source.versions + source.texts + source.externals + source.events
  {
    var tables := TablesOf(source);
    assert tables[..4][..3] == tables[..3] && tables[..3][..2] == tables[..2] && tables[..2][..1] == tables[..1];
    assert tables[..1][..0] == [];
    assert AllRows(tables[..1]) == source.apps;
    assert AllRows(tables[..2]) == source.apps + source.versions;
    assert AllRows(tables[..3]) == source.apps + source.versions + source.texts;
    assert AllRows(tables[..4]) == source.apps + source.versions + source.texts + source.externals;
  }

  ghost predicate NewAppsAreBare(s: Store, t: Store)
  {
    && (forall a :: a in s.apps ==> a in t.apps && t.apps[a] == s.apps[a])
    && (forall a :: a in t.apps && a !in s.apps ==> t.apps[a].credits == Credits([], [], "", "", "") && t.apps[a].updatedBy == None)
  }

  lemma {:induction false} NewAppsAreBareInRows(w: World, s: Store, rows: seq<Record>)
    requires WriteAll(w, s, rows).Ok?
    ensures NewAppsAreBare(s, WriteAll(w, s, rows).value)
    decreases |rows|
  {
    if rows != [] {
      NewAppsAreBareInRows(w, s, rows[..|rows| - 1]);
      NewAppIsBare(w, WriteAll(w, s, rows[..|rows| - 1]).value, rows[|rows| - 1]);
      StillBare(s, WriteAll(w, s, rows[..|rows| - 1]).value, WriteAll(w, s, rows).value);
    }
  }

  lemma NewAppIsBare(w: World, s: Store, row: Record)
    requires Write(w, s, row).Ok?
    ensures NewAppsAreBare(s, Write(w, s, row).value)
  {
  }

  lemma StillBare(s: Store, t: Store, u: Store)
    requires NewAppsAreBare(s, t) && NewAppsAreBare(t, u)
    ensures NewAppsAreBare(s, u)
  {
  }

  lemma {:induction false} NewAppsAreBareInTables(w: World, s: Store, tables: seq<(string, seq<Record>)>)
    requires CopyTables(w, s, tables).Ok?
    ensures NewAppsAreBare(s, CopyTables(w, s, tables).value)
    decreases |tables|
  {
    if tables != [] {
      NewAppsAreBareInTables(w, s, tables[..|tables| - 1]);
      NewAppsAreBareInRows(w, CopyTables(w, s, tables[..|tables| - 1]).value, tables[|tables| - 1].1);
      StillBare(s, CopyTables(w, s, tables[..|tables| - 1]).value, CopyTables(w, s, tables).value);
    }
  }

  /** A row is refused only for a slug or a version number another row holds, or for a row it refers to
      that is missing. */
  lemma WhenRowsAreRefused(w: World, s: Store, row: Record)
    requires !w.breaks(WriteRow(row)) && Write(w, s, row).Err?
    ensures !Present(s, row)
    ensures match row
            case AppRow(id, publisher, _, listing, _, _) =>
              (exists a :: a in s.apps && s.apps[a].listing.slug == listing.slug) || publisher !in s.publishers
            case VersionRow(_, r) => (exists v :: v in s.releases && s.releases[v].app == r.app && s.releases[v].number == r.number) || r.app !in s.apps
            case TextRow(app, _, _) => app !in s.apps
            case ExternalRow(app, _) => app !in s.apps
            case EventRow(event) => event.version !in s.releases
  {
  }
}

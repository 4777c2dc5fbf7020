/** The importer: carries a standalone registry's tables onto the platform, in one transaction. */
module Importer {
  import opened Basics
  import opened Semver
  import opened Tables
  import opened Review
  import Headers

  // --- tables -----------------------------------------------------------------

  datatype SourcePublisher = SourcePublisher(id: string, slug: string, name: string, email: string, verified: bool,
                                             ownerEmail: string, ownerSlug: string)

  /** A row of one of the copied tables, as the read query answers with it. */
  datatype Record =
    | AppRow(id: string, publisher: string, kind: string, listing: Listing, createdAt: Time, updatedAt: Time)
    | VersionRow(vid: string, release: Release)
    | TextRow(app: string, locale: string, text: Text)
    | ExternalRow(app: string, external: External)
    | EventRow(event: Event)

  /** The source, each table in the order its query reads it. */
  datatype Source = Source(publishers: seq<SourcePublisher>, apps: seq<Record>, versions: seq<Record>, texts: seq<Record>,
                           externals: seq<Record>, events: seq<Record>)

  datatype Tenant = Tenant(id: string, name: string, slug: string)

  datatype User = User(id: string, email: string, name: string)

  datatype Role = Role(id: string, tenant: string, code: string)

  /** Tenants and users are in scan order; memberships are keyed by tenant and user; the roles a
      membership carries are pairs (membership, role). */
  datatype Target = Target(store: Store, tenants: seq<Tenant>, users: seq<User>,
                           memberships: map<(string, string), string>, roles: set<Role>, carried: set<(string, string)>)

  datatype Report = Report(publishers: nat, tenants: nat, users: nat, memberships: nat,
                           apps: nat, versions: nat, texts: nat, externals: nat, events: nat, skipped: seq<string>)

  const NOTHING := Report(0, 0, 0, 0, 0, 0, 0, 0, 0, [])

  datatype Statement =
    | ReadPublishers
    | FindTenant(slug: string) | AddTenant(slug: string)
    | FindUser(email: string) | AddUser(email: string)
    | JoinTenant(tenant: string, user: string) | GiveAdmin(membership: string)
    | WritePublisher(id: string)
    | ReadTable(what: string) | WriteRow(row: Record)
    | BumpRevision | CommitAll

  /** The world around one run: the ids the database mints, the time, and which statements break.
      A minted id that is already taken fails the insert. */
  datatype World = World(tenantId: string -> string, userId: string -> string, membershipId: (string, string) -> string,
                         now: Time, breaks: Statement -> bool)

  datatype Failure = Broken(statement: Statement) | Taken | Dangling

  // --- specification ----------------------------------------------------------

  function Fold(s: string): string { seq(|s|, i requires 0 <= i < |s| => Headers.Lower(s[i])) }

  /** The first tenant with a slug. */
  function TenantBySlug(tenants: seq<Tenant>, slug: string): Option<string>
  {
    if tenants == [] then None
    else if tenants[0].slug == slug then Some(tenants[0].id)
    else TenantBySlug(tenants[1..], slug)
  }

  /** The first user whose address is this one, whatever its case. */
  function UserByEmail(users: seq<User>, email: string): Option<string>
  {
    if users == [] then None
    else if Fold(users[0].email) == email then Some(users[0].id)
    else UserByEmail(users[1..], email)
  }

  /** A publisher keeps its own slug; its owner's is the fallback. */
  function TenantSlug(p: SourcePublisher): string { if p.slug == "" then p.ownerSlug else p.slug }

  function OwnerEmail(p: SourcePublisher): string { Fold(Headers.Trim(p.ownerEmail)) }

  function EnsureTenant(w: World, t: Target, slug: string, name: string): Result<(Target, string, bool), Failure>
  {
    if w.breaks(FindTenant(slug)) then Err(Broken(FindTenant(slug)))
    else if TenantBySlug(t.tenants, slug).Some? then Ok((t, TenantBySlug(t.tenants, slug).value, false))
    else if w.breaks(AddTenant(slug)) then Err(Broken(AddTenant(slug)))
    else if exists i :: 0 <= i < |t.tenants| && t.tenants[i].id == w.tenantId(slug) then Err(Taken)
    else Ok((t.(tenants := t.tenants + [Tenant(w.tenantId(slug), name, slug)]), w.tenantId(slug), true))
  }

  function EnsureUser(w: World, t: Target, email: string, name: string): Result<(Target, string, bool), Failure>
  {
    if w.breaks(FindUser(email)) then Err(Broken(FindUser(email)))
    else if UserByEmail(t.users, email).Some? then Ok((t, UserByEmail(t.users, email).value, false))
    else if w.breaks(AddUser(email)) then Err(Broken(AddUser(email)))
    else if exists i :: 0 <= i < |t.users| && (t.users[i].id == w.userId(email) || t.users[i].email == email) then Err(Taken)
    else Ok((t.(users := t.users + [User(w.userId(email), email, name)]), w.userId(email), true))
  }

  function AdminRoles(roles: set<Role>, tenant: string): set<string>
  {
    set r | r in roles && r.tenant == tenant && r.code == "admin" :: r.id
  }

  function CarriedBy(membership: string, roles: set<string>): set<(string, string)>
  {
    set r | r in roles :: (membership, r)
  }

  /** The membership is found or made; `made` says whether it carries an admin role it did not. */
  function EnsureAdmin(w: World, t: Target, tenant: string, user: string): Result<(Target, bool), Failure>
  {
    var key := (tenant, user);
    var m := if key in t.memberships then t.memberships[key] else w.membershipId(tenant, user);
    var due := CarriedBy(m, AdminRoles(t.roles, tenant));
    if w.breaks(JoinTenant(tenant, user)) then Err(Broken(JoinTenant(tenant, user)))
    else if key !in t.memberships && m in t.memberships.Values then Err(Taken)
    else if w.breaks(GiveAdmin(m)) then Err(Broken(GiveAdmin(m)))
    else Ok((t.(memberships := t.memberships[key := m], carried := t.carried + due), !(due <= t.carried)))
  }

  function PublisherRow(p: SourcePublisher, tenant: string, now: Time): Publisher
  {
    Publisher(tenant, p.slug, p.name, p.email, p.verified, now)
  }

  predicate PublisherClash(publishers: map<string, Publisher>, id: string, tenant: string, slug: string)
  {
    exists q :: q in publishers && q != id && (publishers[q].tenant == tenant || publishers[q].slug == slug)
  }

  function UpsertPublisher(w: World, t: Target, p: SourcePublisher, tenant: string): Result<Target, Failure>
  {
    if w.breaks(WritePublisher(p.id)) then Err(Broken(WritePublisher(p.id)))
    else if PublisherClash(t.store.publishers, p.id, tenant, p.slug) then Err(Taken)
    else Ok(t.(store := t.store.(publishers := t.store.publishers[p.id := PublisherRow(p, tenant, w.now)])))
  }

  function Memberless(slug: string): string
  {
    "publisher \"" + slug + "\" has no owner e-mail; it arrives with no member"
  }

  /** The owner's account and membership, if there is an owner to speak of. */
  function EnsureOwner(w: World, t: Target, r: Report, p: SourcePublisher, tenant: string): Result<(Target, Report), Failure>
  {
    if p.ownerEmail == "" then Ok((t, r.(skipped := r.skipped + [Memberless(p.slug)])))
    else
      match EnsureUser(w, t, OwnerEmail(p), p.name)
      case Err(e) => Err(e)
      case Ok((u, user, madeUser)) =>
        match EnsureAdmin(w, u, tenant, user)
        case Err(e) => Err(e)
        case Ok((v, made)) =>
          Ok((v, r.(users := r.users + (if madeUser then 1 else 0), memberships := r.memberships + (if made then 1 else 0))))
  }

  function ImportPublisher(w: World, t: Target, r: Report, p: SourcePublisher): Result<(Target, Report), Failure>
  {
    match EnsureTenant(w, t, TenantSlug(p), p.name)
    case Err(e) => Err(e)
    case Ok((u, tenant, made)) =>
      match EnsureOwner(w, u, r.(tenants := r.tenants + if made then 1 else 0), p, tenant)
      case Err(e) => Err(e)
      case Ok((v, r')) =>
        match UpsertPublisher(w, v, p, tenant)
        case Err(e) => Err(e)
        case Ok(x) => Ok((x, r'.(publishers := r'.publishers + 1)))
  }

  function ImportPublishers(w: World, t: Target, r: Report, list: seq<SourcePublisher>): Result<(Target, Report), Failure>
    decreases |list|
  {
    if list == [] then Ok((t, r))
    else
      match ImportPublishers(w, t, r, list[..|list| - 1])
      case Err(e) => Err(e)
      case Ok((u, r')) => ImportPublisher(w, u, r', list[|list| - 1])
  }

  predicate Present(s: Store, row: Record)
  {
    match row
    case AppRow(id, _, _, _, _, _) => id in s.apps
    case VersionRow(vid, _) => vid in s.releases
    case TextRow(app, locale, _) => locale in TextsOf(s.texts, app)
    case ExternalRow(app, _) => app in s.externals
    case EventRow(event) => exists i :: 0 <= i < |s.events| && s.events[i].id == event.id
  }

  /** Another row already holds the app's slug, or the app's version number. */
  predicate Clashes(s: Store, row: Record)
  {
    match row
    case AppRow(id, _, _, listing, _, _) => exists a :: a in s.apps && a != id && s.apps[a].listing.slug == listing.slug
    case VersionRow(_, r) => exists v :: v in s.releases && s.releases[v].app == r.app && s.releases[v].number == r.number
    case _ => false
  }

  /** What the row refers to is there. */
  predicate Anchored(s: Store, row: Record)
  {
    match row
    case AppRow(_, publisher, _, _, _, _) => publisher in s.publishers
    case VersionRow(_, r) => r.app in s.apps
    case TextRow(app, _, _) => app in s.apps
    case ExternalRow(app, _) => app in s.apps
    case EventRow(event) => event.version in s.releases
  }

  function Inserted(s: Store, row: Record): Store
  {
    match row
    case AppRow(id, publisher, kind, listing, createdAt, updatedAt) =>
      s.(apps := s.apps[id := App(publisher, kind, listing, NO_CREDITS, createdAt, None, updatedAt)])
    case VersionRow(vid, r) => s.(releases := s.releases[vid := r])
    case TextRow(app, locale, text) => s.(texts := s.texts[app := TextsOf(s.texts, app)[locale := text]])
    case ExternalRow(app, external) => s.(externals := s.externals[app := external])
    case EventRow(event) => s.(events := s.events + [event.(actorId := None)])
  }

  /** INSERT ... ON CONFLICT (key) DO NOTHING. */
  function Write(w: World, s: Store, row: Record): Result<Store, Failure>
  {
    if w.breaks(WriteRow(row)) then Err(Broken(WriteRow(row)))
    else if Present(s, row) then Ok(s)
    else if Clashes(s, row) then Err(Taken)
    else if !Anchored(s, row) then Err(Dangling)
    else Ok(Inserted(s, row))
  }

  function WriteAll(w: World, s: Store, rows: seq<Record>): Result<Store, Failure>
    decreases |rows|
  {
    if rows == [] then Ok(s)
    else
      match WriteAll(w, s, rows[..|rows| - 1])
      case Err(e) => Err(e)
      case Ok(t) => Write(w, t, rows[|rows| - 1])
  }

  function CopyTable(w: World, s: Store, what: string, rows: seq<Record>): Result<Store, Failure>
  {
    if w.breaks(ReadTable(what)) then Err(Broken(ReadTable(what))) else WriteAll(w, s, rows)
  }

  function TablesOf(source: Source): seq<(string, seq<Record>)>
  {
    [("apps", source.apps), ("versions", source.versions), ("translations", source.texts),
     ("external registrations", source.externals), ("review trail", source.events)]
  }

  function CopyTables(w: World, s: Store, tables: seq<(string, seq<Record>)>): Result<Store, Failure>
    decreases |tables|
  {
    if tables == [] then Ok(s)
    else
      match CopyTables(w, s, tables[..|tables| - 1])
      case Err(e) => Err(e)
      case Ok(t) => CopyTable(w, t, tables[|tables| - 1].0, tables[|tables| - 1].1)
  }

  /** Every row read counts, whether it was written or already there. */
  function Counted(r: Report, source: Source): Report
  {
    r.(apps := |source.apps|, versions := |source.versions|, texts := |source.texts|,
       externals := |source.externals|, events := |source.events|)
  }

  function Bumped(t: Target, s: Store): Target { t.(store := s.(revision := s.revision + 1)) }

  /** Everything one run does inside its transaction, short of committing it. */
  function Import(w: World, source: Source, t: Target): Result<(Target, Report), Failure>
  {
    if w.breaks(ReadPublishers) then Err(Broken(ReadPublishers))
    else
      match ImportPublishers(w, t, NOTHING, source.publishers)
      case Err(e) => Err(e)
      case Ok((u, r)) =>
        match CopyTables(w, u.store, TablesOf(source))
        case Err(e) => Err(e)
        case Ok(s) =>
          if w.breaks(BumpRevision) then Err(Broken(BumpRevision))
          else Ok((Bumped(u, s), Counted(r, source)))
  }

  // --- the program ------------------------------------------------------------

  class Database {
    var state: Target

    constructor (state: Target)
      ensures this.state == state
    {
      this.state := state;
    }
  }

  /** One transaction: a run that breaks anywhere, and a dry run, leave the database as it was; a dry
      run reports what the real run would. */
  method Run(w: World, source: Source, target: Database, dryRun: bool) returns (r: Result<Report, Failure>)
    modifies target
    ensures match Import(w, source, old(target.state))
            case Err(e) => r == Err(e) && target.state == old(target.state)
            case Ok((t, report)) =>
              if dryRun then r == Ok(report) && target.state == old(target.state)
              else if w.breaks(CommitAll) then r == Err(Broken(CommitAll)) && target.state == old(target.state)
              else r == Ok(report) && target.state == t
  {
    if w.breaks(ReadPublishers) {
      return Err(Broken(ReadPublishers));
    }
    var arrived := ImportList(w, target.state, source.publishers);
    if arrived.Err? {
      return Err(arrived.error);
    }
    var (tx, report) := arrived.value;
    var copied := CopySteps(w, tx.store, TablesOf(source));
    if copied.Err? {
      return Err(copied.error);
    }
    var (store, counts) := copied.value;
    report := report.(apps := counts[0], versions := counts[1], texts := counts[2], externals := counts[3], events := counts[4]);
    if w.breaks(BumpRevision) {
      return Err(Broken(BumpRevision));
    }
    tx := tx.(store := store.(revision := store.revision + 1));
    if dryRun {
      return Ok(report);
    }
    if w.breaks(CommitAll) {
      return Err(Broken(CommitAll));
    }
    target.state := tx;
    r := Ok(report);
  }

  method ImportList(w: World, t: Target, list: seq<SourcePublisher>) returns (r: Result<(Target, Report), Failure>)
    ensures r == ImportPublishers(w, t, NOTHING, list)
  {
    var tx, report := t, NOTHING;
    for i := 0 to |list|
      invariant ImportPublishers(w, t, NOTHING, list[..i]) == Ok((tx, report))
    {
      assert list[..i + 1][..i] == list[..i];
      var step := ImportOne(w, tx, report, list[i]);
      if step.Err? {
        PublishersFail(w, t, NOTHING, list, i + 1);
        return Err(step.error);
      }
      tx, report := step.value.0, step.value.1;
    }
    assert list[..|list|] == list;
    r := Ok((tx, report));
  }

  /** The copy steps, one table after the other, with the count of each. */
  method CopySteps(w: World, s: Store, tables: seq<(string, seq<Record>)>) returns (r: Result<(Store, seq<nat>), Failure>)
    ensures match CopyTables(w, s, tables)
            case Err(e) => r == Err(e)
            case Ok(t) => r.Ok? && r.value.0 == t && |r.value.1| == |tables| && forall j :: 0 <= j < |tables| ==> r.value.1[j] == |tables[j].1|
  {
    var tx, counts := s, [];
    for i := 0 to |tables|
      invariant CopyTables(w, s, tables[..i]) == Ok(tx)
      invariant |counts| == i && forall j :: 0 <= j < i ==> counts[j] == |tables[j].1|
    {
      assert tables[..i + 1][..i] == tables[..i];
      var copied := CopyRows(w, tx, tables[i].0, tables[i].1);
      if copied.Err? {
        TablesFail(w, s, tables, i + 1);
        return Err(copied.error);
      }
      tx, counts := copied.value.0, counts + [copied.value.1];
    }
    assert tables[..|tables|] == tables;
    r := Ok((tx, counts));
  }

  lemma {:induction false} PublishersFail(w: World, t: Target, r: Report, list: seq<SourcePublisher>, n: nat)
    requires n <= |list| && ImportPublishers(w, t, r, list[..n]).Err?
    ensures ImportPublishers(w, t, r, list) == ImportPublishers(w, t, r, list[..n])
    decreases |list|
  {
    if n == |list| {
      assert list[..n] == list;
    } else {
      assert list[..|list| - 1][..n] == list[..n];
      PublishersFail(w, t, r, list[..|list| - 1], n);
    }
  }

  lemma {:induction false} TablesFail(w: World, s: Store, tables: seq<(string, seq<Record>)>, n: nat)
    requires n <= |tables| && CopyTables(w, s, tables[..n]).Err?
    ensures CopyTables(w, s, tables) == CopyTables(w, s, tables[..n])
    decreases |tables|
  {
    if n == |tables| {
      assert tables[..n] == tables;
    } else {
      assert tables[..|tables| - 1][..n] == tables[..n];
      TablesFail(w, s, tables[..|tables| - 1], n);
    }
  }

  lemma {:induction false} RowsFail(w: World, s: Store, rows: seq<Record>, n: nat)
    requires n <= |rows| && WriteAll(w, s, rows[..n]).Err?
    ensures WriteAll(w, s, rows) == WriteAll(w, s, rows[..n])
    decreases |rows|
  {
    if n == |rows| {
      assert rows[..n] == rows;
    } else {
      assert rows[..|rows| - 1][..n] == rows[..n];
      RowsFail(w, s, rows[..|rows| - 1], n);
    }
  }

  method ImportOne(w: World, t: Target, r: Report, p: SourcePublisher) returns (result: Result<(Target, Report), Failure>)
    ensures result == ImportPublisher(w, t, r, p)
  {
    var slug := TenantSlug(p);
    var found := FindOrCreateTenant(w, t, slug, p.name);
    if found.Err? {
      return Err(found.error);
    }
    var (tx, tenant, made) := found.value;
    var report := r;
    if made {
      report := report.(tenants := report.tenants + 1);
    }
    if p.ownerEmail != "" {
      var owner := FindOrCreateUser(w, tx, OwnerEmail(p), p.name);
      if owner.Err? {
        return Err(owner.error);
      }
      var admin := EnsureAdmin(w, owner.value.0, tenant, owner.value.1);
      if admin.Err? {
        return Err(admin.error);
      }
      tx := admin.value.0;
      report := report.(users := report.users + if owner.value.2 then 1 else 0,
                        memberships := report.memberships + if admin.value.1 then 1 else 0);
    } else {
      report := report.(skipped := report.skipped + [Memberless(p.slug)]);
    }
    var written := UpsertPublisher(w, tx, p, tenant);
    if written.Err? {
      return Err(written.error);
    }
    result := Ok((written.value, report.(publishers := report.publishers + 1)));
  }

  method FindOrCreateTenant(w: World, t: Target, slug: string, name: string) returns (r: Result<(Target, string, bool), Failure>)
    ensures r == EnsureTenant(w, t, slug, name)
  {
    if w.breaks(FindTenant(slug)) {
      return Err(Broken(FindTenant(slug)));
    }
    for i := 0 to |t.tenants|
      invariant TenantBySlug(t.tenants, slug) == TenantBySlug(t.tenants[i..], slug)
    {
      if t.tenants[i].slug == slug {
        return Ok((t, t.tenants[i].id, false));
      }
    }
    var id := w.tenantId(slug);
    if w.breaks(AddTenant(slug)) {
      return Err(Broken(AddTenant(slug)));
    }
    if exists i :: 0 <= i < |t.tenants| && t.tenants[i].id == id {
      return Err(Taken);
    }
    return Ok((t.(tenants := t.tenants + [Tenant(id, name, slug)]), id, true));
  }

  method FindOrCreateUser(w: World, t: Target, email: string, name: string) returns (r: Result<(Target, string, bool), Failure>)
    ensures r == EnsureUser(w, t, email, name)
  {
    if w.breaks(FindUser(email)) {
      return Err(Broken(FindUser(email)));
    }
    for i := 0 to |t.users|
      invariant UserByEmail(t.users, email) == UserByEmail(t.users[i..], email)
    {
      if Fold(t.users[i].email) == email {
        return Ok((t, t.users[i].id, false));
      }
    }
    var id := w.userId(email);
    if w.breaks(AddUser(email)) {
      return Err(Broken(AddUser(email)));
    }
    if exists i :: 0 <= i < |t.users| && (t.users[i].id == id || t.users[i].email == email) {
      return Err(Taken);
    }
    return Ok((t.(users := t.users + [User(id, email, name)]), id, true));
  }

  /** Reads every row of one table, writes it, and counts the rows it read. */
  method CopyRows(w: World, s: Store, what: string, rows: seq<Record>) returns (r: Result<(Store, nat), Failure>)
    ensures r == match CopyTable(w, s, what, rows) case Err(e) => Err(e) case Ok(t) => Ok((t, |rows|))
  {
    if w.breaks(ReadTable(what)) {
      return Err(Broken(ReadTable(what)));
    }
    var t, written := s, 0;
    for i := 0 to |rows|
      invariant WriteAll(w, s, rows[..i]) == Ok(t) && written == i
    {
      assert rows[..i + 1][..i] == rows[..i];
      var done := Write(w, t, rows[i]);
      if done.Err? {
        RowsFail(w, s, rows, i + 1);
        return Err(done.error);
      }
      t := done.value;
      written := written + 1;
    }
    assert rows[..|rows|] == rows;
    r := Ok((t, written));
  }
}

/** What an import does to the target, and why it is safe to run twice. */
module ImporterLaws {
  import opened Basics
  import opened Semver
  import opened Tables
  import opened Review
  import opened ReviewLaws
  import opened KeyLaws
  import opened Importer

  // --- copy on absent ---------------------------------------------------------

  datatype Key = AppKey(id: string) | VersionKey(vid: string) | TextKey(app: string, locale: string)
               | ExternalKey(app: string) | EventKey(eid: string)

  function KeyOf(row: Record): Key
  {
    match row
    case AppRow(id, _, _, _, _, _) => AppKey(id)
    case VersionRow(vid, _) => VersionKey(vid)
    case TextRow(app, locale, _) => TextKey(app, locale)
    case ExternalRow(app, _) => ExternalKey(app)
    case EventRow(event) => EventKey(event.id)
  }

  function EventAt(events: seq<Event>, id: string): Option<Event>
    decreases |events|
  {
    if events == [] then None
    else
      var (before, last) := (EventAt(events[..|events| - 1], id), events[|events| - 1]);
      if before.Some? then before else if last.id == id then Some(last) else None
  }

  /** The row a table holds under a key, in the columns the importer copies. */
  function RowAt(s: Store, key: Key): Option<Record>
  {
    match key
    case AppKey(id) =>
      if id !in s.apps then None
      else var a := s.apps[id]; Some(AppRow(id, a.publisher, a.kind, a.listing, a.createdAt, a.updatedAt))
    case VersionKey(vid) => if vid in s.releases then Some(VersionRow(vid, s.releases[vid])) else None
    case TextKey(app, locale) => if locale in TextsOf(s.texts, app) then Some(TextRow(app, locale, TextsOf(s.texts, app)[locale])) else None
    case ExternalKey(app) => if app in s.externals then Some(ExternalRow(app, s.externals[app])) else None
    case EventKey(eid) =>
      match EventAt(s.events, eid)
      case None => None
      case Some(e) => Some(EventRow(e))
  }

  /** The row as it arrives: the standalone registry knew no actor ids. */
  function Arriving(row: Record): Record
  {
    if row.EventRow? then EventRow(row.event.(actorId := None)) else row
  }

  /** The first row of a key. */
  function FirstWith(rows: seq<Record>, key: Key): Option<Record>
    decreases |rows|
  {
    if rows == [] then None
    else
      var before := FirstWith(rows[..|rows| - 1], key);
      if before.Some? then before else if KeyOf(rows[|rows| - 1]) == key then Some(Arriving(rows[|rows| - 1])) else None
  }

  lemma {:induction false} EventAtFinds(events: seq<Event>, id: string)
    ensures EventAt(events, id).Some? <==> exists i :: 0 <= i < |events| && events[i].id == id
    decreases |events|
  {
    if events != [] { EventAtFinds(events[..|events| - 1], id); }
  }

  lemma PresentIsHeld(s: Store, row: Record)
    ensures Present(s, row) <==> RowAt(s, KeyOf(row)).Some?
  {
    if row.EventRow? { EventAtFinds(s.events, row.event.id); }
  }

  lemma InsertedRow(s: Store, row: Record, key: Key)
    requires !Present(s, row)
    ensures RowAt(Inserted(s, row), key) == if key == KeyOf(row) then Some(Arriving(row)) else RowAt(s, key)
  {
    match row
    case TextRow(app, locale, text) => InsertedText(s, app, locale, text, key);
    case EventRow(event) => InsertedEvent(s, event, key);
    case _ =>
  }

  lemma InsertedText(s: Store, app: string, locale: string, text: Text, key: Key)
    requires locale !in TextsOf(s.texts, app)
    ensures RowAt(Inserted(s, TextRow(app, locale, text)), key) ==
            if key == TextKey(app, locale) then Some(TextRow(app, locale, text)) else RowAt(s, key)
  {
    var t := Inserted(s, TextRow(app, locale, text));
    assert TextsOf(t.texts, app) == TextsOf(s.texts, app)[locale := text];
    if key.TextKey? && key.app != app { assert TextsOf(t.texts, key.app) == TextsOf(s.texts, key.app); }
  }

  lemma InsertedEvent(s: Store, event: Event, key: Key)
    requires !Present(s, EventRow(event))
    ensures RowAt(Inserted(s, EventRow(event)), key) ==
            if key == EventKey(event.id) then Some(Arriving(EventRow(event))) else RowAt(s, key)
  {
    EventAtFinds(s.events, event.id);
    var events := Inserted(s, EventRow(event)).events;
    assert events[..|events| - 1] == s.events;
  }

  lemma WriteOnAbsent(w: World, s: Store, row: Record, key: Key)
    requires Write(w, s, row).Ok?
    ensures RowAt(Write(w, s, row).value, key) ==
            if RowAt(s, key).Some? || key != KeyOf(row) then RowAt(s, key) else Some(Arriving(row))
  {
    PresentIsHeld(s, row);
    if !Present(s, row) { InsertedRow(s, row, key); }
  }

  /** Copying a table leaves every row that was there, and adds for every other key the first row
      the source has of it — that row and no other. */
  lemma {:induction false} CopyOnAbsent(w: World, s: Store, rows: seq<Record>, key: Key)
    requires WriteAll(w, s, rows).Ok?
    ensures RowAt(WriteAll(w, s, rows).value, key) == if RowAt(s, key).Some? then RowAt(s, key) else FirstWith(rows, key)
    decreases |rows|
  {
    if rows != [] {
      var before := rows[..|rows| - 1];
      CopyOnAbsent(w, s, before, key);
      WriteOnAbsent(w, WriteAll(w, s, before).value, rows[|rows| - 1], key);
    }
  }

  function AllRows(tables: seq<(string, seq<Record>)>): seq<Record>
    decreases |tables|
  {
    if tables == [] then [] else AllRows(tables[..|tables| - 1]) + tables[|tables| - 1].1
  }

  lemma {:induction false} FirstOfEither(a: seq<Record>, b: seq<Record>, key: Key)
    ensures FirstWith(a + b, key) == if FirstWith(a, key).Some? then FirstWith(a, key) else FirstWith(b, key)
    decreases |b|
  {
    if b == [] {
      assert a + b == a;
    } else {
      var rest := b[..|b| - 1];
      FirstOfEither(a, rest, key);
      assert (a + b)[..|a + b| - 1] == a + rest;
    }
  }

  lemma {:induction false} TablesCopyOnAbsent(w: World, s: Store, tables: seq<(string, seq<Record>)>, key: Key)
    requires CopyTables(w, s, tables).Ok?
    ensures RowAt(CopyTables(w, s, tables).value, key) == if RowAt(s, key).Some? then RowAt(s, key) else FirstWith(AllRows(tables), key)
    decreases |tables|
  {
    if tables != [] {
      var before, rows := tables[..|tables| - 1], tables[|tables| - 1].1;
      TablesCopyOnAbsent(w, s, before, key);
      CopyOnAbsent(w, CopyTables(w, s, before).value, rows, key);
      FirstOfEither(AllRows(before), rows, key);
    }
  }

  lemma {:induction false} FirstIsThere(rows: seq<Record>, row: Record)
    requires row in rows
    ensures FirstWith(rows, KeyOf(row)).Some?
    decreases |rows|
  {
    if row != rows[|rows| - 1] {
      assert row in rows[..|rows| - 1];
      FirstIsThere(rows[..|rows| - 1], row);
    }
  }

  // --- the second copy --------------------------------------------------------

  /** The same tables but for publishers and revision. */
  predicate SameRows(s: Store, t: Store) { t == s.(publishers := t.publishers, revision := t.revision) }

  lemma {:induction false} SecondCopy(w: World, s: Store, rows: seq<Record>)
    requires forall row :: row in rows ==> Present(s, row)
    ensures WriteAll(w, s, rows) == Ok(s) || (WriteAll(w, s, rows).Err? && WriteAll(w, s, rows).error.Broken?)
    decreases |rows|
  {
    if rows != [] {
      SecondCopy(w, s, rows[..|rows| - 1]);
      assert rows[|rows| - 1] in rows;
    }
  }

  lemma {:induction false} SecondCopies(w: World, s: Store, tables: seq<(string, seq<Record>)>)
    requires forall row :: row in AllRows(tables) ==> Present(s, row)
    ensures CopyTables(w, s, tables) == Ok(s) || (CopyTables(w, s, tables).Err? && CopyTables(w, s, tables).error.Broken?)
    decreases |tables|
  {
    if tables != [] {
      SecondCopies(w, s, tables[..|tables| - 1]);
      SecondCopy(w, s, tables[|tables| - 1].1);
    }
  }

  lemma CopiedRowsArePresent(w: World, s: Store, tables: seq<(string, seq<Record>)>, t: Store)
    requires CopyTables(w, s, tables) == Ok(t)
    ensures forall row :: row in AllRows(tables) ==> Present(t, row)
  {
    forall row | row in AllRows(tables) ensures Present(t, row) {
      TablesCopyOnAbsent(w, s, tables, KeyOf(row));
      FirstIsThere(AllRows(tables), row);
      PresentIsHeld(t, row);
    }
  }

  // --- publishers -------------------------------------------------------------

  /** What importing publisher p leaves behind: its tenant, its owner's account and admin
      membership, and its row. */
  predicate Arrived(t: Target, p: SourcePublisher)
  {
    var tenant := TenantBySlug(t.tenants, TenantSlug(p));
    && tenant.Some? && (p.ownerEmail != "" ==> OwnerArrived(t, p, tenant.value))
    && p.id in t.store.publishers && SameProfile(t.store.publishers[p.id], PublisherRow(p, tenant.value, 0))
  }

  predicate OwnerArrived(t: Target, p: SourcePublisher, tenant: string)
  {
    var user := UserByEmail(t.users, OwnerEmail(p));
    && user.Some? && (tenant, user.value) in t.memberships && IsAdmin(t, t.memberships[(tenant, user.value)], tenant)
  }

  /** The membership carries every role of the tenant whose code is "admin". */
  predicate IsAdmin(t: Target, membership: string, tenant: string)
  {
    forall role :: role in t.roles && role.tenant == tenant && role.code == "admin" ==> (membership, role.id) in t.carried
  }

  lemma AdminCarriesAll(t: Target, membership: string, tenant: string)
    ensures IsAdmin(t, membership, tenant) <==> CarriedBy(membership, AdminRoles(t.roles, tenant)) <= t.carried
  {
    if CarriedBy(membership, AdminRoles(t.roles, tenant)) <= t.carried {
      forall role | role in t.roles && role.tenant == tenant && role.code == "admin" ensures (membership, role.id) in t.carried {
        assert role.id in AdminRoles(t.roles, tenant);
        assert (membership, role.id) in CarriedBy(membership, AdminRoles(t.roles, tenant));
      }
    }
  }

  /** The same but for the time of the last edit. */
  predicate SameProfile(p: Publisher, q: Publisher) { p == q.(updatedAt := p.updatedAt) }

  lemma {:induction false} TenantStays(tenants: seq<Tenant>, more: seq<Tenant>, slug: string)
    requires TenantBySlug(tenants, slug).Some?
    ensures TenantBySlug(tenants + more, slug) == TenantBySlug(tenants, slug)
  {
    assert (tenants + more)[1..] == tenants[1..] + more;
    if tenants[0].slug != slug { TenantStays(tenants[1..], more, slug); }
  }

  lemma {:induction false} TenantAdded(tenants: seq<Tenant>, tenant: Tenant)
    requires TenantBySlug(tenants, tenant.slug).None?
    ensures TenantBySlug(tenants + [tenant], tenant.slug) == Some(tenant.id)
  {
    if tenants != [] {
      assert (tenants + [tenant])[1..] == tenants[1..] + [tenant];
      TenantAdded(tenants[1..], tenant);
    }
  }

  lemma {:induction false} UserStays(users: seq<User>, more: seq<User>, email: string)
    requires UserByEmail(users, email).Some?
    ensures UserByEmail(users + more, email) == UserByEmail(users, email)
  {
    assert (users + more)[1..] == users[1..] + more;
    if Fold(users[0].email) != email { UserStays(users[1..], more, email); }
  }

  lemma {:induction false} UserAdded(users: seq<User>, user: User)
    requires UserByEmail(users, user.email).None? && Fold(user.email) == user.email
    ensures UserByEmail(users + [user], user.email) == Some(user.id)
  {
    if users != [] {
      assert (users + [user])[1..] == users[1..] + [user];
      UserAdded(users[1..], user);
    }
  }

  lemma FoldTwice(s: string)
    ensures Fold(Fold(s)) == Fold(s)
  {
  }

  /** Tenants, users, memberships and carried roles are only ever added. */
  ghost predicate Grown(t: Target, u: Target)
  {
    && t.tenants <= u.tenants && t.users <= u.users && t.carried <= u.carried && u.roles == t.roles
    && (forall k :: k in t.memberships ==> k in u.memberships && u.memberships[k] == t.memberships[k])
  }

  lemma EnsureTenantFinds(w: World, t: Target, slug: string, name: string)
    requires EnsureTenant(w, t, slug, name).Ok?
    ensures var (u, tenant, made) := EnsureTenant(w, t, slug, name).value;
            Grown(t, u) && u.store == t.store && TenantBySlug(u.tenants, slug) == Some(tenant)
  {
    if TenantBySlug(t.tenants, slug).None? { TenantAdded(t.tenants, Tenant(w.tenantId(slug), name, slug)); }
  }

  lemma EnsureUserFinds(w: World, t: Target, email: string, name: string)
    requires EnsureUser(w, t, email, name).Ok? && Fold(email) == email
    ensures var (u, user, made) := EnsureUser(w, t, email, name).value;
            Grown(t, u) && u.store == t.store && UserByEmail(u.users, email) == Some(user)
  {
    if UserByEmail(t.users, email).None? { UserAdded(t.users, User(w.userId(email), email, name)); }
  }

  lemma EnsureOwnerSettles(w: World, t: Target, r: Report, p: SourcePublisher, tenant: string)
    requires EnsureOwner(w, t, r, p, tenant).Ok?
    ensures var u := EnsureOwner(w, t, r, p, tenant).value.0;
            Grown(t, u) && u.store == t.store && (p.ownerEmail != "" ==> OwnerArrived(u, p, tenant))
  {
    if p.ownerEmail != "" {
      FoldTwice(Headers.Trim(p.ownerEmail));
      EnsureUserFinds(w, t, OwnerEmail(p), p.name);
      var u := EnsureUser(w, t, OwnerEmail(p), p.name).value;
      var v := EnsureAdmin(w, u.0, tenant, u.1).value.0;
      AdminCarriesAll(v, v.memberships[(tenant, u.1)], tenant);
    }
  }

  lemma ArrivalStays(t: Target, u: Target, p: SourcePublisher)
    requires Arrived(t, p) && Grown(t, u)
    requires p.id in u.store.publishers && SameProfile(u.store.publishers[p.id], t.store.publishers[p.id])
    ensures Arrived(u, p)
  {
    TenantStays(t.tenants, u.tenants[|t.tenants|..], TenantSlug(p));
    assert t.tenants + u.tenants[|t.tenants|..] == u.tenants;
    if p.ownerEmail != "" {
      UserStays(t.users, u.users[|t.users|..], OwnerEmail(p));
      assert t.users + u.users[|t.users|..] == u.users;
    }
  }

  lemma UpsertSettles(w: World, t: Target, p: SourcePublisher, tenant: string)
    requires UpsertPublisher(w, t, p, tenant).Ok?
    ensures var u := UpsertPublisher(w, t, p, tenant).value;
      && u == t.(store := t.store.(publishers := t.store.publishers[p.id := PublisherRow(p, tenant, w.now)]))
      && (PublishersOnce(t.store.publishers) ==> PublishersOnce(u.store.publishers))
  {
  }

  /** One publisher's import: it arrives, everybody else stays, and no two publishers share a tenant
      or a handle afterwards. */
  lemma PublisherArrives(w: World, t: Target, r: Report, p: SourcePublisher)
    requires ImportPublisher(w, t, r, p).Ok?
    ensures var u := ImportPublisher(w, t, r, p).value.0;
      && Grown(t, u) && Arrived(u, p)
      && u.store == t.store.(publishers := t.store.publishers[p.id := u.store.publishers[p.id]])
      && (PublishersOnce(t.store.publishers) ==> PublishersOnce(u.store.publishers))
  {
    var v, tenant := OwnerSettled(w, t, r, p);
    UpsertSettles(w, v, p, tenant);
    var u := UpsertPublisher(w, v, p, tenant).value;
    assert p.ownerEmail != "" ==> OwnerArrived(u, p, tenant);
  }

  /** Up to the publisher's own row: tenant, account and membership are there. */
  lemma OwnerSettled(w: World, t: Target, r: Report, p: SourcePublisher) returns (v: Target, tenant: string)
    requires ImportPublisher(w, t, r, p).Ok?
    ensures Grown(t, v) && v.store == t.store && TenantBySlug(v.tenants, TenantSlug(p)) == Some(tenant)
    ensures p.ownerEmail != "" ==> OwnerArrived(v, p, tenant)
    ensures UpsertPublisher(w, v, p, tenant).Ok? && UpsertPublisher(w, v, p, tenant).value == ImportPublisher(w, t, r, p).value.0
  {
    var first := EnsureTenant(w, t, TenantSlug(p), p.name).value;
    var u, made := first.0, first.2;
    tenant := first.1;
    EnsureTenantFinds(w, t, TenantSlug(p), p.name);
    var r1 := r.(tenants := r.tenants + if made then 1 else 0);
    EnsureOwnerSettles(w, u, r1, p, tenant);
    v := EnsureOwner(w, u, r1, p, tenant).value.0;
    GrowthKeepsTenant(u, v, TenantSlug(p));
    GrowthComposes(t, u, v);
  }

  lemma GrowthKeepsTenant(t: Target, u: Target, slug: string)
    requires Grown(t, u) && TenantBySlug(t.tenants, slug).Some?
    ensures TenantBySlug(u.tenants, slug) == TenantBySlug(t.tenants, slug)
  {
    TenantStays(t.tenants, u.tenants[|t.tenants|..], slug);
    assert t.tenants + u.tenants[|t.tenants|..] == u.tenants;
  }

  lemma GrowthComposes(t: Target, u: Target, v: Target)
    requires Grown(t, u) && Grown(u, v)
    ensures Grown(t, v)
  {
  }

  predicate IdsOnce(list: seq<SourcePublisher>)
  {
    forall i, j :: 0 <= i < j < |list| ==> list[i].id != list[j].id
  }

  /** What a list of publishers leaves behind. */
  ghost predicate ListArrived(t: Target, u: Target, list: seq<SourcePublisher>)
  {
    && Grown(t, u) && u.store == t.store.(publishers := u.store.publishers)
    && (forall p :: p in t.store.publishers ==> p in u.store.publishers)
    && (forall p :: p in list ==> p.id in u.store.publishers)
    && (IdsOnce(list) ==> forall p :: p in list ==> Arrived(u, p))
    && (PublishersOnce(t.store.publishers) ==> PublishersOnce(u.store.publishers))
  }

  lemma {:induction false} PublishersArrive(w: World, t: Target, r: Report, list: seq<SourcePublisher>)
    requires ImportPublishers(w, t, r, list).Ok?
    ensures ListArrived(t, ImportPublishers(w, t, r, list).value.0, list)
    decreases |list|
  {
    if list != [] {
      var before, p := list[..|list| - 1], list[|list| - 1];
      PublishersArrive(w, t, r, before);
      var (u, r') := ImportPublishers(w, t, r, before).value;
      PublisherArrives(w, u, r', p);
      OneMoreArrives(t, u, ImportPublisher(w, u, r', p).value.0, list);
    }
  }

  lemma OneMoreArrives(t: Target, u: Target, v: Target, list: seq<SourcePublisher>)
    requires list != [] && ListArrived(t, u, list[..|list| - 1])
    requires Grown(u, v) && Arrived(v, list[|list| - 1])
    requires var id := list[|list| - 1].id;
      id in v.store.publishers && v.store == u.store.(publishers := u.store.publishers[id := v.store.publishers[id]])
    requires PublishersOnce(u.store.publishers) ==> PublishersOnce(v.store.publishers)
    ensures ListArrived(t, v, list)
  {
    var before, p := list[..|list| - 1], list[|list| - 1];
    GrowthComposes(t, u, v);
    assert forall q :: q in list ==> q in before || q == p;
    forall q | q in list && IdsOnce(list) ensures Arrived(v, q) {
      if q != p {
        var i :| 0 <= i < |before| && before[i] == q;
        ArrivalStays(u, v, q);
      }
    }
  }

  // --- the second run ---------------------------------------------------------

  /** u is t but for the times at which publishers were last edited. */
  ghost predicate OnlyTouched(t: Target, u: Target)
  {
    && u == t.(store := t.store.(publishers := u.store.publishers))
    && u.store.publishers.Keys == t.store.publishers.Keys
    && (forall p :: p in t.store.publishers ==> SameProfile(u.store.publishers[p], t.store.publishers[p]))
  }

  function Skips(list: seq<SourcePublisher>): seq<string>
    decreases |list|
  {
    if list == [] then []
    else
      var p := list[|list| - 1];
      Skips(list[..|list| - 1]) + if p.ownerEmail == "" then [Memberless(p.slug)] else []
  }

  /** What a second run adds to the report for a publisher. */
  function Recounted(r: Report, p: SourcePublisher): Report
  {
    r.(publishers := r.publishers + 1, skipped := r.skipped + if p.ownerEmail == "" then [Memberless(p.slug)] else [])
  }

  /** Importing a publisher that has arrived finds everything in place. */
  lemma SecondArrival(w: World, t: Target, r: Report, p: SourcePublisher)
    requires Arrived(t, p) && PublishersOnce(t.store.publishers)
    ensures match ImportPublisher(w, t, r, p)
            case Err(e) => e.Broken?
            case Ok((u, r')) => OnlyTouched(t, u) && r' == Recounted(r, p)
  {
    var tenant := TenantBySlug(t.tenants, TenantSlug(p)).value;
    SecondOwner(w, t, r.(tenants := r.tenants + 0), p, tenant);
    SecondUpsert(w, t, p, tenant);
  }

  lemma SecondUpsert(w: World, t: Target, p: SourcePublisher, tenant: string)
    requires PublishersOnce(t.store.publishers)
    requires p.id in t.store.publishers && SameProfile(t.store.publishers[p.id], PublisherRow(p, tenant, 0))
    ensures match UpsertPublisher(w, t, p, tenant)
            case Err(e) => e.Broken?
            case Ok(u) => OnlyTouched(t, u)
  {
  }

  lemma SecondOwner(w: World, t: Target, r: Report, p: SourcePublisher, tenant: string)
    requires p.ownerEmail != "" ==> OwnerArrived(t, p, tenant)
    ensures match EnsureOwner(w, t, r, p, tenant)
            case Err(e) => e.Broken?
            case Ok((u, r')) => u == t && r' == r.(skipped := r.skipped + if p.ownerEmail == "" then [Memberless(p.slug)] else [])
  {
    if p.ownerEmail != "" {
      AdminCarriesAll(t, t.memberships[(tenant, UserByEmail(t.users, OwnerEmail(p)).value)], tenant);
    }
  }

  lemma TouchedStaysOnce(t: Target, u: Target)
    requires OnlyTouched(t, u) && PublishersOnce(t.store.publishers)
    ensures PublishersOnce(u.store.publishers)
  {
  }

  lemma NextArrival(w: World, t: Target, u: Target, r: Report, p: SourcePublisher)
    requires Arrived(t, p) && OnlyTouched(t, u) && PublishersOnce(t.store.publishers)
    ensures match ImportPublisher(w, u, r, p)
            case Err(e) => e.Broken?
            case Ok((v, r')) => OnlyTouched(t, v) && r' == Recounted(r, p)
  {
    ArrivalStays(t, u, p);
    TouchedStaysOnce(t, u);
    SecondArrival(w, u, r, p);
    if ImportPublisher(w, u, r, p).Ok? { TouchedTwice(t, u, ImportPublisher(w, u, r, p).value.0); }
  }

  lemma TouchedTwice(t: Target, u: Target, v: Target)
    requires OnlyTouched(t, u) && OnlyTouched(u, v)
    ensures OnlyTouched(t, v)
  {
  }

  lemma {:induction false} SecondArrivals(w: World, t: Target, list: seq<SourcePublisher>)
    requires PublishersOnce(t.store.publishers) && forall p :: p in list ==> Arrived(t, p)
    ensures match ImportPublishers(w, t, NOTHING, list)
            case Err(e) => e.Broken?
            case Ok((u, r)) => OnlyTouched(t, u) && r == NOTHING.(publishers := |list|, skipped := Skips(list))
    decreases |list|
  {
    if list != [] {
      SecondArrivals(w, t, list[..|list| - 1]);
      match ImportPublishers(w, t, NOTHING, list[..|list| - 1])
      case Err(_) =>
      case Ok((u, r)) => NextArrival(w, t, u, r, list[|list| - 1]);
    }
  }

  /** What an import that went through leaves behind. */
  ghost predicate Imported(source: Source, t: Target, u: Target)
  {
    && (forall p :: p in source.publishers ==> Arrived(u, p)) && PublishersOnce(u.store.publishers)
    && (forall row :: row in AllRows(TablesOf(source)) ==> Present(u.store, row))
  }

  /** The stages of an import that goes through. */
  lemma Stages(w: World, source: Source, t: Target, u: Target, r: Report) returns (x: Target, r1: Report, s: Store)
    requires Import(w, source, t) == Ok((u, r))
    ensures ImportPublishers(w, t, NOTHING, source.publishers) == Ok((x, r1))
    ensures CopyTables(w, x.store, TablesOf(source)) == Ok(s)
    ensures u == Bumped(x, s) && r == Counted(r1, source)
  {
    x, r1 := ImportPublishers(w, t, NOTHING, source.publishers).value.0, ImportPublishers(w, t, NOTHING, source.publishers).value.1;
    s := CopyTables(w, x.store, TablesOf(source)).value;
  }

  lemma FirstImport(w: World, source: Source, t: Target, u: Target, r: Report)
    requires IdsOnce(source.publishers) && PublishersOnce(t.store.publishers)
    requires Import(w, source, t) == Ok((u, r))
    ensures Imported(source, t, u)
  {
    var x, r1, s := Stages(w, source, t, u, r);
    PublishersArrive(w, t, NOTHING, source.publishers);
    CopiesStayAside(w, x.store, TablesOf(source));
    CopiedRowsArePresent(w, x.store, TablesOf(source), s);
    ArrivalsStay(x, u, source.publishers);
    SamePresence(s, u.store, AllRows(TablesOf(source)));
  }

  /** The report of a run, but for what it found missing. */
  lemma ReportOf(w: World, source: Source, t: Target, u: Target, r: Report)
    requires Import(w, source, t) == Ok((u, r))
    ensures r == Counted(NOTHING.(publishers := |source.publishers|, skipped := Skips(source.publishers)), source)
                   .(tenants := r.tenants, users := r.users, memberships := r.memberships)
  {
    var x, r1, s := Stages(w, source, t, u, r);
    FirstReport(w, t, NOTHING, source.publishers);
  }

  lemma ArrivalsStay(t: Target, u: Target, list: seq<SourcePublisher>)
    requires (forall p :: p in list ==> Arrived(t, p)) && Grown(t, u) && u.store.publishers == t.store.publishers
    ensures forall p :: p in list ==> Arrived(u, p)
  {
    forall p | p in list ensures Arrived(u, p) { ArrivalStays(t, u, p); }
  }

  lemma SamePresence(s: Store, t: Store, rows: seq<Record>)
    requires SameRows(s, t) && forall row :: row in rows ==> Present(s, row)
    ensures forall row :: row in rows ==> Present(t, row)
  {
  }

  lemma SecondImport(w: World, source: Source, t: Target, u: Target)
    requires Imported(source, t, u)
    ensures match Import(w, source, u)
            case Err(e) => e.Broken?
            case Ok((v, r)) =>
              && OnlyTouched(Bumped(u, u.store), v)
              && r == Counted(NOTHING.(publishers := |source.publishers|, skipped := Skips(source.publishers)), source)
  {
    SecondArrivals(w, u, source.publishers);
    match Import(w, source, u)
    case Ok((v, r)) =>
      var y, r1, s := Stages(w, source, u, v, r);
      CopiesChangeNothing(w, source, u, y);
    case Err(e) => SecondFails(w, source, u);
  }

  lemma SecondFails(w: World, source: Source, u: Target)
    requires Import(w, source, u).Err?
    requires match ImportPublishers(w, u, NOTHING, source.publishers) case Err(e) => e.Broken? case Ok((y, _)) => OnlyTouched(u, y)
    requires forall row :: row in AllRows(TablesOf(source)) ==> Present(u.store, row)
    ensures Import(w, source, u).error.Broken?
  {
    match ImportPublishers(w, u, NOTHING, source.publishers)
    case Err(_) =>
    case Ok((y, _)) => CopiesChangeNothing(w, source, u, y);
  }

  lemma CopiesChangeNothing(w: World, source: Source, u: Target, y: Target)
    requires OnlyTouched(u, y) && forall row :: row in AllRows(TablesOf(source)) ==> Present(u.store, row)
    ensures match CopyTables(w, y.store, TablesOf(source))
            case Err(e) => e.Broken?
            case Ok(s) => s == y.store
  {
    SamePresence(u.store, y.store, AllRows(TablesOf(source)));
    SecondCopies(w, y.store, TablesOf(source));
  }

  /** Safe to run twice. Whatever source and target: after an import went through, a second one of
      the same source, by another process at another time, can fail only because a statement of
      it breaks. If it goes through it changes no row of any table but the revision and the times
      of the publishers' last edits, and reports no new tenant, user or membership. */
  lemma ImportIsIdempotent(w: World, w': World, source: Source, t: Target, u: Target, r: Report)
    requires IdsOnce(source.publishers) && PublishersOnce(t.store.publishers)
    requires Import(w, source, t) == Ok((u, r))
    ensures match Import(w', source, u)
            case Err(e) => e.Broken?
            case Ok((v, r')) =>
              && OnlyTouched(Bumped(u, u.store), v)
              && r' == r.(tenants := 0, users := 0, memberships := 0)
  {
    FirstImport(w, source, t, u, r);
    ReportOf(w, source, t, u, r);
    SecondImport(w', source, t, u);
  }

  lemma {:induction false} FirstReport(w: World, t: Target, r: Report, list: seq<SourcePublisher>)
    requires ImportPublishers(w, t, r, list).Ok?
    ensures var r' := ImportPublishers(w, t, r, list).value.1;
      r' == r.(publishers := r.publishers + |list|, skipped := r.skipped + Skips(list),
               tenants := r'.tenants, users := r'.users, memberships := r'.memberships)
    decreases |list|
  {
    if list != [] { FirstReport(w, t, r, list[..|list| - 1]); }
  }

  /** Copying rows leaves publishers, platforms, grants and the revision alone. */
  predicate Aside(s: Store, t: Store)
  {
    t.publishers == s.publishers && t.platforms == s.platforms && t.grants == s.grants && t.revision == s.revision
  }

  lemma WriteStaysAside(w: World, s: Store, row: Record)
    requires Write(w, s, row).Ok?
    ensures Aside(s, Write(w, s, row).value)
  {
  }

  lemma {:induction false} WritesStayAside(w: World, s: Store, rows: seq<Record>)
    requires WriteAll(w, s, rows).Ok?
    ensures Aside(s, WriteAll(w, s, rows).value)
    decreases |rows|
  {
    if rows != [] {
      var t := WriteAll(w, s, rows[..|rows| - 1]).value;
      WritesStayAside(w, s, rows[..|rows| - 1]);
      WriteStaysAside(w, t, rows[|rows| - 1]);
    }
  }

  lemma {:induction false} CopiesStayAside(w: World, s: Store, tables: seq<(string, seq<Record>)>)
    requires CopyTables(w, s, tables).Ok?
    ensures Aside(s, CopyTables(w, s, tables).value)
    decreases |tables|
  {
    if tables != [] {
      var t := CopyTables(w, s, tables[..|tables| - 1]).value;
      CopiesStayAside(w, s, tables[..|tables| - 1]);
      WritesStayAside(w, t, tables[|tables| - 1].1);
    }
  }
}

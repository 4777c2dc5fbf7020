/** The transactions of the registry as functions on its tables: registering apps, submitting
    versions, deciding on them, and operating platforms and grants. A transaction that fails
    leaves the tables as they were. */
module Review {
  import opened Basics
  import opened Semver
  import opened Tables
  import opened Wire

  datatype Error = NotFound | Conflict | Invalid | Database

  // --- apps -------------------------------------------------------------------

  ghost predicate SlugTaken(s: Store, id: string, slug: string)
  {
    exists a :: a in s.apps && a != id && s.apps[a].listing.slug == slug
  }

  /** What the row of an app becomes: a new one has no credits, an edit keeps the credits. */
  function SavedApp(s: Store, id: string, publisher: string, kind: string, listing: Listing, now: Time): App
  {
    if id in s.apps then s.apps[id].(kind := kind, listing := listing, updatedAt := now)
    else App(publisher, kind, listing, NO_CREDITS, now, None, now)
  }

  /** Every translation given is written, in whatever order; one already held is replaced. */
  function Translated(held: map<string, map<string, Text>>, id: string, texts: map<string, Text>): map<string, map<string, Text>>
  {
    if texts == map[] then held else held[id := TextsOf(held, id) + texts]
  }

  ghost function SaveApp(s: Store, id: string, publisher: string, kind: string, listing: Listing,
                         texts: map<string, Text>, now: Time): Result<Store, Error>
  {
    if id in s.apps && s.apps[id].publisher != publisher then Err(Conflict)
    else if SlugTaken(s, id, listing.slug) then Err(Conflict)
    else if publisher !in s.publishers then Err(Database)
    else Ok(s.(apps := s.apps[id := SavedApp(s, id, publisher, kind, listing, now)],
               texts := Translated(s.texts, id, texts),
               revision := s.revision + 1))
  }

  // --- versions ---------------------------------------------------------------

  const ANY_PLATFORM := ">=0.1.0"

  function ChannelOf(channel: string): string { if channel == "" then "stable" else channel }

  predicate KnownChannel(channel: string) { channel == "stable" || channel == "beta" }

  /** The queryable form of a manifest's external section; none for a module app. */
  function ExternalFromManifest(m: Manifest): Option<ExternalSpec>
  {
    if m.kind != "external" || m.external.None? then None
    else
      var e := m.external.value;
      Some(e.(embed := if e.embed == "" then "new_tab" else e.embed))
  }

  /** The version row a manifest is queued as. */
  function ReleaseFrom(app: string, channel: string, manifest: Manifest, submitter: string, now: Time): Release
  {
    Release(app, manifest.version, ChannelOf(channel),
            if manifest.platform == "" then ANY_PLATFORM else manifest.platform,
            manifest, true, InReview, submitter, "", None, now)
  }

  predicate Acceptable(rules: Rules, app: string, kind: string, channel: string, manifest: Manifest)
  {
    && KnownChannel(ChannelOf(channel)) && manifest.id == app
    && (manifest.kind == "external" <==> kind == "external") && rules.manifestOk(manifest)
  }

  ghost predicate NumberUsed(s: Store, app: string, number: SemVer)
  {
    exists v :: v in s.releases && s.releases[v].app == app && s.releases[v].number == number
  }

  ghost predicate EventUsed(s: Store, id: string)
  {
    exists i :: 0 <= i < |s.events| && s.events[i].id == id
  }

  function SavedExternal(s: Store, app: string, e: ExternalSpec): External
  {
    External(e.launchUrl, e.ssoClientId, e.scopes, e.embed, e.healthUrl,
             if app in s.externals then s.externals[app].webhookUrl else "")
  }

  /** One transaction: the version row, the external registration, the trail's first event.
      The revision stays where it is. */
  ghost function SubmitVersion(s: Store, r: Release, external: Option<ExternalSpec>, vid: string, eid: string): Result<Store, Error>
  {
    if vid in s.releases || NumberUsed(s, r.app, r.number) then Err(Conflict)
    else if r.app !in s.apps || EventUsed(s, eid) then Err(Database)
    else Ok(s.(releases := s.releases[vid := r],
               externals := if external.Some? then s.externals[r.app := SavedExternal(s, r.app, external.value)] else s.externals,
               events := s.events + [Event(eid, vid, None, r.submittedBy, "submitted", "", r.createdAt)]))
  }

  ghost function SubmitManifest(rules: Rules, s: Store, app: string, kind: string, channel: string, manifest: Manifest,
                                submitter: string, vid: string, eid: string, now: Time): Result<Store, Error>
  {
    if !Acceptable(rules, app, kind, channel, manifest) then Err(Invalid)
    else SubmitVersion(s, ReleaseFrom(app, channel, manifest, submitter, now), ExternalFromManifest(manifest), vid, eid)
  }

  /** The status a review action leads to. */
  function Outcome(action: string): Option<Status>
  {
    if action == "publish" then Some(Published)
    else if action == "reject" then Some(Rejected)
    else if action == "yank" then Some(Yanked)
    else None
  }

  function Decided(r: Release, status: Status, note: string, now: Time): Release
  {
    r.(status := status, note := note, publishedAt := if status == Published then Some(now) else r.publishedAt)
  }

  function Credited(apps: map<string, App>, r: Release, actorId: Option<string>, now: Time): map<string, App>
  {
    if r.app !in apps then apps
    else apps[r.app := apps[r.app].(credits := r.manifest.credits, updatedBy := actorId, updatedAt := now)]
  }

  ghost function DecideVersion(s: Store, vid: string, action: string, actorId: Option<string>, actor: string,
                               note: string, eid: string, now: Time): Result<Store, Error>
  {
    if Outcome(action).None? then Err(Invalid)
    else if vid !in s.releases then Err(NotFound)
    else if EventUsed(s, eid) then Err(Database)
    else
      var (r, status) := (s.releases[vid], Outcome(action).value);
      Ok(s.(releases := s.releases[vid := Decided(r, status, note, now)],
            apps := if status == Published then Credited(s.apps, r, actorId, now) else s.apps,
            events := s.events + [Event(eid, vid, actorId, actor, action, note, now)],
            revision := s.revision + 1))
  }

  // --- publishers and platforms -----------------------------------------------

  /** The publisher a tenant publishes as: there is at most one. */
  ghost function ProfileOf(s: Store, tenant: string): (r: Option<string>)
    ensures r.Some? ==> r.value in s.publishers && s.publishers[r.value].tenant == tenant
    ensures r.None? ==> forall p :: p in s.publishers ==> s.publishers[p].tenant != tenant
  {
    if exists p :: p in s.publishers && s.publishers[p].tenant == tenant then
      var p :| p in s.publishers && s.publishers[p].tenant == tenant; Some(p)
    else None
  }

  ghost predicate HandleTaken(s: Store, tenant: string, slug: string)
  {
    exists p :: p in s.publishers && s.publishers[p].tenant != tenant && s.publishers[p].slug == slug
  }

  /** A tenant's profile is edited, or created under a fresh id. */
  ghost function SavePublisher(s: Store, freshId: string, tenant: string, slug: string, name: string, email: string,
                               now: Time): Result<Store, Error>
  {
    var held := ProfileOf(s, tenant);
    if HandleTaken(s, tenant, slug) then Err(Conflict)
    else if held.Some? then
      Ok(s.(publishers := s.publishers[held.value := s.publishers[held.value].(slug := slug, name := name, email := email, updatedAt := now)]))
    else if freshId in s.publishers then Err(Conflict)
    else Ok(s.(publishers := s.publishers[freshId := Publisher(tenant, slug, name, email, false, now)]))
  }

  ghost function AddPlatform(s: Store, id: string, name: string, digest: string): Result<Store, Error>
  {
    if name == "" then Err(Invalid)
    else if id == "" || id in s.platforms || exists p :: p in s.platforms && s.platforms[p].digest == digest then Err(Database)
    else Ok(s.(platforms := s.platforms[id := Platform(name, digest, true)]))
  }

  function SetPlatformEnabled(s: Store, id: string, enabled: bool): Result<Store, Error>
  {
    if id !in s.platforms then Err(NotFound)
    else Ok(s.(platforms := s.platforms[id := s.platforms[id].(enabled := enabled)]))
  }

  /** Granting twice means what it meant the first time. */
  function Grant(s: Store, app: string, platformId: string): Result<Store, Error>
  {
    if app !in s.apps || platformId !in s.platforms then Err(Database)
    else Ok(s.(grants := s.grants + {(app, platformId)}))
  }

  function Revoke(s: Store, app: string, platformId: string): Result<Store, Error>
  {
    Ok(s.(grants := s.grants - {(app, platformId)}))
  }

  // --- every transaction ------------------------------------------------------

  datatype Op =
    | OpSaveApp(id: string, publisher: string, kind: string, listing: Listing, texts: map<string, Text>, now: Time)
    | OpSubmit(app: string, kind: string, channel: string, manifest: Manifest, submitter: string, vid: string, eid: string, now: Time)
    | OpDecide(vid: string, action: string, actorId: Option<string>, actor: string, note: string, eid: string, now: Time)
    | OpSavePublisher(freshId: string, tenant: string, slug: string, name: string, email: string, now: Time)
    | OpAddPlatform(id: string, name: string, digest: string)
    | OpSetEnabled(platformId: string, enabled: bool)
    | OpGrant(app: string, platformId: string)
    | OpRevoke(app: string, platformId: string)

  ghost function Exec(rules: Rules, s: Store, op: Op): Result<Store, Error>
  {
    match op
    case OpSaveApp(id, publisher, kind, listing, texts, now) => SaveApp(s, id, publisher, kind, listing, texts, now)
    case OpSubmit(app, kind, channel, manifest, submitter, vid, eid, now) => SubmitManifest(rules, s, app, kind, channel, manifest, submitter, vid, eid, now)
    case OpDecide(vid, action, actorId, actor, note, eid, now) => DecideVersion(s, vid, action, actorId, actor, note, eid, now)
    case OpSavePublisher(freshId, tenant, slug, name, email, now) => SavePublisher(s, freshId, tenant, slug, name, email, now)
    case OpAddPlatform(id, name, digest) => AddPlatform(s, id, name, digest)
    case OpSetEnabled(id, enabled) => SetPlatformEnabled(s, id, enabled)
    case OpGrant(app, platformId) => Grant(s, app, platformId)
    case OpRevoke(app, platformId) => Revoke(s, app, platformId)
  }

  ghost function After(rules: Rules, s: Store, op: Op): Store
  {
    var r := Exec(rules, s, op);
    if r.Ok? then r.value else s
  }

  /** A run of transactions; the ones that fail are rolled back. */
  ghost function Run(rules: Rules, s: Store, ops: seq<Op>): Store
    decreases |ops|
  {
    if ops == [] then s else After(rules, Run(rules, s, ops[..|ops| - 1]), ops[|ops| - 1])
  }
}

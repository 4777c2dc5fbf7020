/** The registry's transactions as their callers see them: which requests go through, and what every
    column reads afterwards, in the literal actions, channels and defaults of the interface. */
module Effects {
  import opened Basics
  import opened Semver
  import opened Tables
  import opened Wire
  import opened Audiences
  import opened Review
  import opened ReviewLaws
  import opened Catalogue

  // --- decisions --------------------------------------------------------------

  /** The three actions and the status each leaves behind. */
  predicate Leaves(action: string, status: Status)
  {
    || (action == "publish" && status == Published)
    || (action == "reject" && status == Rejected)
    || (action == "yank" && status == Yanked)
  }

  /** A decision goes through exactly on a version that is there, with one of the three actions and an
      event id not yet used. It sets that version's status and note, and its time if published; an app
      takes its credits and editor from what is published; the trail gets one event. */
  lemma Deciding(rules: Rules, s: Store, vid: string, action: string, actorId: Option<string>, actor: string, note: string, eid: string, now: Time)
    ensures var r := Exec(rules, s, OpDecide(vid, action, actorId, actor, note, eid, now));
      && (r == Err(Invalid) <==> action != "publish" && action != "reject" && action != "yank")
      && (r == Err(NotFound) <==> (exists status :: Leaves(action, status)) && vid !in s.releases)
      && (r.Ok? <==> (exists status :: Leaves(action, status)) && vid in s.releases && forall i :: 0 <= i < |s.events| ==> s.events[i].id != eid)
      && (r.Ok? ==> DecisionMade(s, r.value, vid, action, actorId, actor, note, eid, now))
  {
    var r := Exec(rules, s, OpDecide(vid, action, actorId, actor, note, eid, now));
    assert Outcome(action).Some? ==> Leaves(action, Outcome(action).value);
    if r.Ok? { DecisionIsMade(s, vid, action, actorId, actor, note, eid, now); }
  }

  lemma DecisionIsMade(s: Store, vid: string, action: string, actorId: Option<string>, actor: string, note: string, eid: string, now: Time)
    requires DecideVersion(s, vid, action, actorId, actor, note, eid, now).Ok?
    ensures DecisionMade(s, DecideVersion(s, vid, action, actorId, actor, note, eid, now).value, vid, action, actorId, actor, note, eid, now)
  {
  }

  ghost predicate DecisionMade(s: Store, t: Store, vid: string, action: string, actorId: Option<string>, actor: string,
                               note: string, eid: string, now: Time)
    requires vid in s.releases
  {
    var app := s.releases[vid].app;
    && t == s.(releases := t.releases, apps := t.apps, events := s.events + [Event(eid, vid, actorId, actor, action, note, now)],
               revision := s.revision + 1)
    && t.releases.Keys == s.releases.Keys && (forall v :: v in s.releases && v != vid ==> t.releases[v] == s.releases[v])
    && OnlyReviewed(s.releases[vid], t.releases[vid]) && Leaves(action, t.releases[vid].status) && t.releases[vid].note == note
    && t.releases[vid].publishedAt == (if action == "publish" then Some(now) else s.releases[vid].publishedAt)
    && t.apps.Keys == s.apps.Keys && (forall a :: a in s.apps && (a != app || action != "publish") ==> t.apps[a] == s.apps[a])
    && (action == "publish" && app in s.apps ==>
          && t.apps[app].credits == s.releases[vid].manifest.credits && t.apps[app].updatedBy == actorId && t.apps[app].updatedAt == now
          && t.apps[app] == s.apps[app].(credits := t.apps[app].credits, updatedBy := t.apps[app].updatedBy, updatedAt := t.apps[app].updatedAt))
  }

  /** The action of the last event about a version. */
  function LastAction(events: seq<Event>, v: string): Option<string>
    decreases |events|
  {
    if events == [] then None
    else if events[|events| - 1].version == v then Some(events[|events| - 1].action)
    else LastAction(events[..|events| - 1], v)
  }

  /** A version is there exactly when the trail names it, and its status is what was last done to it. */
  ghost predicate StatusTold(s: Store, v: string)
  {
    && (v in s.releases <==> LastAction(s.events, v).Some?)
    && (v in s.releases ==>
          var (status, last) := (s.releases[v].status, LastAction(s.events, v).value);
          && (status == InReview <==> last == "submitted") && (status == Published <==> last == "publish")
          && (status == Rejected <==> last == "reject") && (status == Yanked <==> last == "yank") && status != Draft)
  }

  lemma OneMoreTold(s: Store, t: Store, e: Event)
    requires (forall v :: StatusTold(s, v)) && t.events == s.events + [e] && e.version in t.releases
    requires forall v :: v != e.version ==> (v in s.releases <==> v in t.releases) && (v in s.releases ==> t.releases[v] == s.releases[v])
    requires Leaves(e.action, t.releases[e.version].status) || (e.action == "submitted" && t.releases[e.version].status == InReview)
    ensures forall v :: StatusTold(t, v)
  {
    assert t.events[..|t.events| - 1] == s.events;
    forall v ensures StatusTold(t, v) { assert StatusTold(s, v); }
  }

  lemma ExecTellsStatus(rules: Rules, s: Store, op: Op)
    requires forall v :: StatusTold(s, v)
    ensures forall v :: StatusTold(After(rules, s, op), v)
  {
    var t := After(rules, s, op);
    if Exec(rules, s, op).Ok? {
      match op
      case OpSaveApp(id, publisher, kind, listing, texts, now) => SameStatuses(s, t);
      case OpSubmit(app, kind, channel, manifest, submitter, vid, eid, now) => OneMoreTold(s, t, t.events[|s.events|]);
      case OpDecide(vid, action, actorId, actor, note, eid, now) =>
        Deciding(rules, s, vid, action, actorId, actor, note, eid, now);
        OneMoreTold(s, t, t.events[|s.events|]);
      case _ =>
        OthersTouchNoTrail(rules, s, op);
        SameStatuses(s, t);
    }
  }

  lemma SameStatuses(s: Store, t: Store)
    requires (forall v :: StatusTold(s, v)) && t.events == s.events && t.releases == s.releases
    ensures forall v :: StatusTold(t, v)
  {
    forall v ensures StatusTold(t, v) { assert StatusTold(s, v); }
  }

  /** In every run a version is published, rejected or yanked exactly when that is the last thing done
      to it, and in review exactly when nothing was since it was submitted. */
  lemma {:induction false} RunsTellStatus(rules: Rules, ops: seq<Op>)
    ensures forall v :: StatusTold(Run(rules, EMPTY_STORE, ops), v)
    decreases |ops|
  {
    if ops != [] {
      RunsTellStatus(rules, ops[..|ops| - 1]);
      ExecTellsStatus(rules, Run(rules, EMPTY_STORE, ops[..|ops| - 1]), ops[|ops| - 1]);
    }
  }

  /** So what any catalogue built in any run lists was published and neither rejected nor yanked since. */
  lemma ListedWasPublished(rules: Rules, ops: seq<Op>, ask: Ask, pick: map<string, string>, app: string)
    requires IsPick(rules, FaceOf(Run(rules, EMPTY_STORE, ops)), ask, pick) && app in pick
    ensures LastAction(Run(rules, EMPTY_STORE, ops).events, pick[app]) == Some("publish")
  {
    var s := Run(rules, EMPTY_STORE, ops);
    RunsTellStatus(rules, ops);
    assert IsWinner(rules, FaceOf(s), ask, app, pick[app]);
    assert StatusTold(s, pick[app]);
  }

  // --- apps and submissions ---------------------------------------------------

  /** An app of another publisher, and a slug another app has, are conflicts; a publisher that is not
      there is a database error; everything else goes through. */
  lemma SavingAnApp(rules: Rules, s: Store, id: string, publisher: string, kind: string, listing: Listing, texts: map<string, Text>, now: Time)
    ensures var r := Exec(rules, s, OpSaveApp(id, publisher, kind, listing, texts, now));
            var foreign := id in s.apps && s.apps[id].publisher != publisher;
            var taken := exists a :: a in s.apps && a != id && s.apps[a].listing.slug == listing.slug;
      && (r == Err(Conflict) <==> foreign || taken)
      && (r == Err(Database) <==> !foreign && !taken && publisher !in s.publishers)
      && (r.Ok? <==> !foreign && !taken && publisher in s.publishers)
      && (r.Ok? ==> AppSaved(s, r.value, id, publisher, kind, listing, texts, now))
  {
    var r := Exec(rules, s, OpSaveApp(id, publisher, kind, listing, texts, now));
    if r.Ok? { AppIsSaved(s, id, publisher, kind, listing, texts, now); }
  }

  lemma AppIsSaved(s: Store, id: string, publisher: string, kind: string, listing: Listing, texts: map<string, Text>, now: Time)
    requires SaveApp(s, id, publisher, kind, listing, texts, now).Ok?
    ensures AppSaved(s, SaveApp(s, id, publisher, kind, listing, texts, now).value, id, publisher, kind, listing, texts, now)
  {
  }

  /** The columns given are there, a new app has no credits yet, an old one keeps what only a decision
      sets; translations given replace those of their locale and no other. */
  ghost predicate AppSaved(s: Store, t: Store, id: string, publisher: string, kind: string, listing: Listing, texts: map<string, Text>, now: Time)
  {
    && t == s.(apps := t.apps, texts := t.texts, revision := s.revision + 1)
    && t.apps.Keys == s.apps.Keys + {id} && (forall a :: a in s.apps && a != id ==> t.apps[a] == s.apps[a])
    && t.apps[id].publisher == publisher && t.apps[id].kind == kind && t.apps[id].listing == listing && t.apps[id].updatedAt == now
    && (if id in s.apps
        then t.apps[id].credits == s.apps[id].credits && t.apps[id].createdAt == s.apps[id].createdAt && t.apps[id].updatedBy == s.apps[id].updatedBy
        else t.apps[id].credits == Credits([], [], "", "", "") && t.apps[id].createdAt == now && t.apps[id].updatedBy == None)
    && (forall a, l :: l in TextsOf(t.texts, a) <==> l in TextsOf(s.texts, a) || (a == id && l in texts))
    && (forall a, l :: l in TextsOf(t.texts, a) ==>
          TextsOf(t.texts, a)[l] == if a == id && l in texts then texts[l] else TextsOf(s.texts, a)[l])
  }

  /** What the endpoint asks of a submission: a channel it knows, the app's own id, the app's kind, and a
      manifest that validates. */
  predicate WellSubmitted(rules: Rules, app: string, kind: string, channel: string, manifest: Manifest)
  {
    && (channel == "" || channel == "stable" || channel == "beta") && manifest.id == app
    && (manifest.kind == "external" <==> kind == "external") && rules.manifestOk(manifest)
  }

  /** A submission that asks for what it may is queued unless its number, or an id the database mints,
      was used before or the app is not there. */
  lemma Submitting(rules: Rules, s: Store, app: string, kind: string, channel: string, manifest: Manifest, submitter: string,
                   vid: string, eid: string, now: Time)
    ensures var r := Exec(rules, s, OpSubmit(app, kind, channel, manifest, submitter, vid, eid, now));
            var used := vid in s.releases || exists v :: v in s.releases && s.releases[v].app == app && s.releases[v].number == manifest.version;
      && (r == Err(Invalid) <==> !WellSubmitted(rules, app, kind, channel, manifest))
      && (r == Err(Conflict) <==> WellSubmitted(rules, app, kind, channel, manifest) && used)
      && (r.Ok? <==> WellSubmitted(rules, app, kind, channel, manifest) && !used && app in s.apps
                     && forall i :: 0 <= i < |s.events| ==> s.events[i].id != eid)
      && (r.Ok? ==> Queued(s, r.value, app, channel, manifest, submitter, vid, eid, now))
  {
    var r := Exec(rules, s, OpSubmit(app, kind, channel, manifest, submitter, vid, eid, now));
    if r.Ok? { QueuedAsAsked(s, app, channel, manifest, submitter, vid, eid, now); }
  }

  ghost predicate Queued(s: Store, t: Store, app: string, channel: string, manifest: Manifest, submitter: string,
                         vid: string, eid: string, now: Time)
  {
    && t == s.(releases := t.releases, externals := t.externals, events := t.events)
    && t.releases.Keys == s.releases.Keys + {vid} && (forall v :: v in s.releases && v != vid ==> t.releases[v] == s.releases[v])
    && QueuedRow(t.releases[vid], app, channel, manifest, submitter, now)
    && t.events == s.events + [Event(eid, vid, None, submitter, "submitted", "", now)]
    && (forall a :: a != app ==> (a in t.externals <==> a in s.externals) && (a in s.externals ==> t.externals[a] == s.externals[a]))
    && (if manifest.kind == "external" && manifest.external.Some? then app in t.externals && Registered(s, t.externals[app], app, manifest.external.value)
        else t.externals == s.externals)
  }

  /** The row in the queue: an unnamed channel is stable, and no constraint means any platform from 0.1.0. */
  predicate QueuedRow(r: Release, app: string, channel: string, manifest: Manifest, submitter: string, now: Time)
  {
    && r.app == app && r.number == manifest.version && r.manifest == manifest && r.decodes && r.status == InReview
    && r.channel == (if channel == "" then "stable" else channel)
    && r.constraint == (if manifest.platform == "" then ">=0.1.0" else manifest.platform)
    && r.submittedBy == submitter && r.note == "" && r.publishedAt == None && r.createdAt == now
  }

  /** The external registration follows the manifest; the web hook is kept. */
  predicate Registered(s: Store, e: External, app: string, spec: ExternalSpec)
  {
    && e.launchUrl == spec.launchUrl && e.ssoClientId == spec.ssoClientId && e.scopes == spec.scopes && e.healthUrl == spec.healthUrl
    && e.embed == (if spec.embed == "" then "new_tab" else spec.embed)
    && e.webhookUrl == (if app in s.externals then s.externals[app].webhookUrl else "")
  }

  lemma QueuedAsAsked(s: Store, app: string, channel: string, manifest: Manifest, submitter: string, vid: string, eid: string, now: Time)
    requires KnownChannel(ChannelOf(channel))
    requires var r := ReleaseFrom(app, channel, manifest, submitter, now); SubmitVersion(s, r, ExternalFromManifest(manifest), vid, eid).Ok?
    ensures var r := ReleaseFrom(app, channel, manifest, submitter, now);
            Queued(s, SubmitVersion(s, r, ExternalFromManifest(manifest), vid, eid).value, app, channel, manifest, submitter, vid, eid, now)
  {
    assert QueuedRow(ReleaseFrom(app, channel, manifest, submitter, now), app, channel, manifest, submitter, now);
  }

  // --- publishers -------------------------------------------------------------

  /** A tenant edits the one profile it has or gets one, unverified; a handle of another tenant's is a
      conflict; nobody's verification changes. */
  lemma SavingAProfile(rules: Rules, s: Store, freshId: string, tenant: string, slug: string, name: string, email: string, now: Time)
    ensures var r := Exec(rules, s, OpSavePublisher(freshId, tenant, slug, name, email, now));
            var known := exists p :: p in s.publishers && s.publishers[p].tenant == tenant;
      && (r.Ok? <==> (known || freshId !in s.publishers)
                     && forall p :: p in s.publishers && s.publishers[p].tenant != tenant ==> s.publishers[p].slug != slug)
      && (r.Err? ==> r == Err(Conflict))
      && (r.Ok? ==> exists id :: ProfileSaved(s, r.value, id, freshId, tenant, slug, name, email, now))
  {
    if SavePublisher(s, freshId, tenant, slug, name, email, now).Ok? { ProfileIsSaved(s, freshId, tenant, slug, name, email, now); }
  }

  lemma ProfileIsSaved(s: Store, freshId: string, tenant: string, slug: string, name: string, email: string, now: Time)
    requires SavePublisher(s, freshId, tenant, slug, name, email, now).Ok?
    ensures exists id :: ProfileSaved(s, SavePublisher(s, freshId, tenant, slug, name, email, now).value, id, freshId, tenant, slug, name, email, now)
  {
    var held := ProfileOf(s, tenant);
    var id := if held.Some? then held.value else freshId;
    assert ProfileSaved(s, SavePublisher(s, freshId, tenant, slug, name, email, now).value, id, freshId, tenant, slug, name, email, now);
  }

  ghost predicate ProfileSaved(s: Store, t: Store, id: string, freshId: string, tenant: string, slug: string, name: string, email: string, now: Time)
  {
    && t == s.(publishers := t.publishers) && t.publishers.Keys == s.publishers.Keys + {id}
    && (if exists p :: p in s.publishers && s.publishers[p].tenant == tenant then id in s.publishers && s.publishers[id].tenant == tenant else id == freshId)
    && (forall p :: p in s.publishers && p != id ==> t.publishers[p] == s.publishers[p])
    && t.publishers[id] == Publisher(tenant, slug, name, email, id in s.publishers && s.publishers[id].verified, now)
  }

  // --- platforms and credentials ----------------------------------------------

  /** The life of a credential, whatever else the tables hold. Issued to a new platform it counts for
      nothing; granted an app it shows exactly that app; disabled it counts for nothing, and enabled
      for the same again; revoked for nothing. Nobody else's credential ever changes its meaning. */
  lemma CredentialLife(rules: Rules, s: Store, id: string, name: string, token: string, app: string, other: string)
    requires PlatformKeys(s) && token != "" && name != "" && app in s.apps
    requires id != "" && id !in s.platforms && GrantsOf(s, id) == {}
    requires forall p :: p in s.platforms ==> s.platforms[p].digest != rules.tokenDigest(token)
    requires rules.tokenDigest(other) != rules.tokenDigest(token)
    ensures var issued := After(rules, s, OpAddPlatform(id, name, rules.tokenDigest(token)));
            var granted := After(rules, issued, OpGrant(app, id));
            var disabled := After(rules, granted, OpSetEnabled(id, false));
            var enabled := After(rules, disabled, OpSetEnabled(id, true));
            var revoked := After(rules, enabled, OpRevoke(app, id));
      && Means(rules, s, issued, token, ANONYMOUS, other)
      && Means(rules, s, granted, token, Audience(id, {app}), other)
      && Means(rules, s, disabled, token, ANONYMOUS, other)
      && Means(rules, s, enabled, token, Audience(id, {app}), other)
      && Means(rules, s, revoked, token, ANONYMOUS, other)
  {
    var issued := Issued(rules, s, id, name, token);
    var granted := issued.(grants := s.grants + {(app, id)});
    assert After(rules, issued, OpGrant(app, id)) == granted;
    assert GrantsOf(issued, id) == {} && GrantsOf(granted, id) == {app};
    Credential(rules, s, issued, id, token, other);
    Credential(rules, s, granted, id, token, other);
    Switched(rules, s, granted, id, token, app, other);
    Withdrawn(rules, s, granted, id, token, app, other);
  }

  /** The credential stands for this audience, and the other one for what it did. */
  ghost predicate Means(rules: Rules, s: Store, t: Store, token: string, audience: Audience, other: string)
  {
    AudienceFor(rules, t, token) == audience && AudienceFor(rules, t, other) == AudienceFor(rules, s, other)
  }

  lemma Issued(rules: Rules, s: Store, id: string, name: string, token: string) returns (t: Store)
    requires PlatformKeys(s) && name != "" && id != "" && id !in s.platforms
    requires forall p :: p in s.platforms ==> s.platforms[p].digest != rules.tokenDigest(token)
    ensures t == After(rules, s, OpAddPlatform(id, name, rules.tokenDigest(token))) && Joined(rules, s, t, id, token)
    ensures t == s.(platforms := t.platforms) && t.platforms[id].enabled && t.platforms[id].name == name
  {
    t := After(rules, s, OpAddPlatform(id, name, rules.tokenDigest(token)));
  }

  lemma Switched(rules: Rules, s: Store, t: Store, id: string, token: string, app: string, other: string)
    requires Joined(rules, s, t, id, token) && token != "" && rules.tokenDigest(other) != rules.tokenDigest(token)
    requires t.platforms[id].enabled && GrantsOf(t, id) == {app} && SameGrants(s, t)
    ensures var disabled := After(rules, t, OpSetEnabled(id, false));
            After(rules, disabled, OpSetEnabled(id, true)) == t && Means(rules, s, disabled, token, ANONYMOUS, other)
  {
    var disabled := After(rules, t, OpSetEnabled(id, false));
    assert GrantsOf(disabled, id) == {app};
    Credential(rules, s, disabled, id, token, other);
    assert After(rules, disabled, OpSetEnabled(id, true)).platforms == t.platforms;
  }

  lemma Withdrawn(rules: Rules, s: Store, t: Store, id: string, token: string, app: string, other: string)
    requires Joined(rules, s, t, id, token) && token != "" && rules.tokenDigest(other) != rules.tokenDigest(token)
    requires GrantsOf(t, id) == {app} && SameGrants(s, t)
    ensures Means(rules, s, After(rules, t, OpRevoke(app, id)), token, ANONYMOUS, other)
  {
    var revoked := After(rules, t, OpRevoke(app, id));
    assert revoked == t.(grants := t.grants - {(app, id)});
    forall a ensures a !in GrantsOf(revoked, id) {
      assert (a, id) in t.grants ==> a in GrantsOf(t, id);
    }
    Credential(rules, s, revoked, id, token, other);
  }

  ghost predicate SameGrants(s: Store, t: Store) { forall p :: p in s.platforms ==> GrantsOf(t, p) == GrantsOf(s, p) }

  lemma Credential(rules: Rules, s: Store, t: Store, id: string, token: string, other: string)
    requires Joined(rules, s, t, id, token) && token != "" && rules.tokenDigest(other) != rules.tokenDigest(token) && SameGrants(s, t)
    ensures Means(rules, s, t, token, if t.platforms[id].enabled && GrantsOf(t, id) != {} then Audience(id, GrantsOf(t, id)) else ANONYMOUS, other)
  {
    OwnCredential(rules, s, t, id, token);
    OtherCredential(rules, s, t, id, token, other);
  }

  /** t is s with a platform of its own credential. */
  ghost predicate Joined(rules: Rules, s: Store, t: Store, id: string, token: string)
  {
    && PlatformKeys(s) && id !in s.platforms && id != ""
    && t.platforms.Keys == s.platforms.Keys + {id} && (forall p :: p in s.platforms ==> t.platforms[p] == s.platforms[p])
    && t.platforms[id].digest == rules.tokenDigest(token) && forall p :: p in s.platforms ==> s.platforms[p].digest != rules.tokenDigest(token)
  }

  lemma OwnCredential(rules: Rules, s: Store, t: Store, id: string, token: string)
    requires Joined(rules, s, t, id, token) && token != ""
    ensures AudienceFor(rules, t, token) ==
              if t.platforms[id].enabled && GrantsOf(t, id) != {} then Audience(id, GrantsOf(t, id)) else ANONYMOUS
  {
    CredentialDecides(rules, t, token);
    assert Holds(rules, t, token, id);
  }

  lemma OtherCredential(rules: Rules, s: Store, t: Store, id: string, token: string, other: string)
    requires Joined(rules, s, t, id, token) && rules.tokenDigest(other) != rules.tokenDigest(token)
    requires SameGrants(s, t)
    ensures AudienceFor(rules, t, other) == AudienceFor(rules, s, other)
  {
    forall p ensures Holds(rules, t, other, p) <==> Holds(rules, s, other, p) {}
  }
}

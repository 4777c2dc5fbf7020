/** The uniqueness constraints of the tables, which every transaction keeps. */
module KeyLaws {
  import opened Basics
  import opened Semver
  import opened Tables
  import opened Wire
  import opened Audiences
  import opened Review
  import opened ReviewLaws

  /** A version number is used once per app. */
  ghost predicate NumbersOnce(releases: map<string, Release>)
  {
    forall u, v :: u in releases && v in releases && releases[u].app == releases[v].app && releases[u].number == releases[v].number
      ==> u == v
  }

  ghost predicate SlugsOnce(apps: map<string, App>)
  {
    forall a, b :: a in apps && b in apps && apps[a].listing.slug == apps[b].listing.slug ==> a == b
  }

  /** One tenant, one publisher; one handle, one publisher. */
  ghost predicate PublishersOnce(publishers: map<string, Publisher>)
  {
    && (forall p, q :: p in publishers && q in publishers && publishers[p].tenant == publishers[q].tenant ==> p == q)
    && (forall p, q :: p in publishers && q in publishers && publishers[p].slug == publishers[q].slug ==> p == q)
  }

  ghost predicate EventsOnce(events: seq<Event>)
  {
    forall i, j :: 0 <= i < j < |events| ==> events[i].id != events[j].id
  }

  ghost predicate Keyed(s: Store)
  {
    NumbersOnce(s.releases) && SlugsOnce(s.apps) && PublishersOnce(s.publishers) && EventsOnce(s.events) && PlatformKeys(s)
  }

  lemma SaveAppKeepsKeys(s: Store, id: string, publisher: string, kind: string, listing: Listing, texts: map<string, Text>, now: Time)
    requires Keyed(s) && SaveApp(s, id, publisher, kind, listing, texts, now).Ok?
    ensures Keyed(SaveApp(s, id, publisher, kind, listing, texts, now).value)
  {
  }

  lemma SubmitKeepsKeys(s: Store, r: Release, external: Option<ExternalSpec>, vid: string, eid: string)
    requires Keyed(s) && SubmitVersion(s, r, external, vid, eid).Ok?
    ensures Keyed(SubmitVersion(s, r, external, vid, eid).value)
  {
  }

  lemma DecideKeepsKeys(s: Store, vid: string, action: string, actorId: Option<string>, actor: string, note: string, eid: string, now: Time)
    requires Keyed(s) && DecideVersion(s, vid, action, actorId, actor, note, eid, now).Ok?
    ensures Keyed(DecideVersion(s, vid, action, actorId, actor, note, eid, now).value)
  {
  }

  lemma SavePublisherKeepsKeys(s: Store, freshId: string, tenant: string, slug: string, name: string, email: string, now: Time)
    requires Keyed(s) && SavePublisher(s, freshId, tenant, slug, name, email, now).Ok?
    ensures Keyed(SavePublisher(s, freshId, tenant, slug, name, email, now).value)
  {
    var held := ProfileOf(s, tenant);
    var id := if held.Some? then held.value else freshId;
    var t := SavePublisher(s, freshId, tenant, slug, name, email, now).value;
    assert t.publishers == s.publishers[id := t.publishers[id]];
    PublisherWritten(s.publishers, id, t.publishers[id]);
  }

  lemma PublisherWritten(publishers: map<string, Publisher>, id: string, row: Publisher)
    requires PublishersOnce(publishers)
    requires forall p :: p in publishers && p != id ==> publishers[p].tenant != row.tenant && publishers[p].slug != row.slug
    ensures PublishersOnce(publishers[id := row])
  {
  }

  lemma PlatformsKeepKeys(rules: Rules, s: Store, op: Op)
    requires Keyed(s) && (op.OpAddPlatform? || op.OpSetEnabled? || op.OpGrant? || op.OpRevoke?)
    ensures Keyed(After(rules, s, op))
  {
    OthersTouchNoTrail(rules, s, op);
    assert PlatformKeys(After(rules, s, op));
  }

  /** No transaction can put two rows under one key: numbers per app, slugs, tenants, event ids,
      credentials. */
  lemma ExecKeepsKeys(rules: Rules, s: Store, op: Op)
    requires Keyed(s)
    ensures Keyed(After(rules, s, op))
  {
    if Exec(rules, s, op).Ok? {
      match op
      case OpSaveApp(id, publisher, kind, listing, texts, now) => SaveAppKeepsKeys(s, id, publisher, kind, listing, texts, now);
      case OpSubmit(app, kind, channel, manifest, submitter, vid, eid, now) =>
        SubmitKeepsKeys(s, ReleaseFrom(app, channel, manifest, submitter, now), ExternalFromManifest(manifest), vid, eid);
      case OpDecide(vid, action, actorId, actor, note, eid, now) => DecideKeepsKeys(s, vid, action, actorId, actor, note, eid, now);
      case OpSavePublisher(freshId, tenant, slug, name, email, now) => SavePublisherKeepsKeys(s, freshId, tenant, slug, name, email, now);
      case _ => PlatformsKeepKeys(rules, s, op);
    }
  }

  lemma {:induction false} RunsKeepKeys(rules: Rules, ops: seq<Op>)
    ensures Keyed(Run(rules, EMPTY_STORE, ops))
    decreases |ops|
  {
    if ops != [] {
      RunsKeepKeys(rules, ops[..|ops| - 1]);
      ExecKeepsKeys(rules, Run(rules, EMPTY_STORE, ops[..|ops| - 1]), ops[|ops| - 1]);
    }
  }
}

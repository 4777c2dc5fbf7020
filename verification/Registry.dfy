/** The registry's store: an object over the tables, whose methods are one transaction each. A
    transaction works on a copy and commits it whole or not at all. */
module RegistryStore {
  import opened Basics
  import opened Semver
  import opened Tables
  import opened Wire
  import opened Audiences
  import opened Review
  import opened Caching
  import opened KeyLaws
  import Headers

  /** The transaction did what its specification says: committed its result, or failed with its
      error and changed nothing. */
  ghost predicate Settled(before: Store, spec: Result<Store, Error>, after: Store, r: Result<(), Error>)
  {
    match spec
    case Ok(t) => after == t && r == Ok(())
    case Err(e) => after == before && r == Err(e)
  }

  lemma OneMoreText(held: map<string, map<string, Text>>, id: string, done: map<string, Text>, locale: string, text: Text)
    ensures var now := Translated(held, id, done);
            now[id := TextsOf(now, id)[locale := text]] == Translated(held, id, done[locale := text])
  {
    var now := Translated(held, id, done);
    assert done[locale := text][locale] == text;
    assert TextsOf(now, id)[locale := text] == TextsOf(held, id) + done[locale := text];
    assert now[id := TextsOf(now, id)[locale := text]] == held[id := TextsOf(held, id) + done[locale := text]];
  }

  class Registry {
    var db: Store
    var publicRows: map<(string, string), Row<Snapshot>>
    var privateRows: map<(string, string, string), Row<Snapshot>>

    constructor ()
      ensures db == EMPTY_STORE && publicRows == map[] && privateRows == map[]
    {
      db, publicRows, privateRows := EMPTY_STORE, map[], map[];
    }

    method UpsertApp(id: string, publisher: string, kind: string, listing: Listing, texts: map<string, Text>, now: Time)
      returns (r: Result<(), Error>)
      modifies `db
      ensures Settled(old(db), SaveApp(old(db), id, publisher, kind, listing, texts, now), db, r)
    {
      var tx := db;
      if id in tx.apps && tx.apps[id].publisher != publisher {
        return Err(Conflict);
      }
      if exists a :: a in tx.apps && a != id && tx.apps[a].listing.slug == listing.slug {
        return Err(Conflict);
      }
      if publisher !in tx.publishers {
        return Err(Database);
      }
      var row := App(publisher, kind, listing, NO_CREDITS, now, None, now);
      if id in tx.apps {
        row := tx.apps[id].(kind := kind, listing := listing, updatedAt := now);
      }
      tx := tx.(apps := tx.apps[id := row]);
      tx := WriteTexts(tx, id, texts);
      db := tx.(revision := tx.revision + 1);
      r := Ok(());
    }

    /** One upsert per translation, in no particular order. */
    static method WriteTexts(before: Store, id: string, texts: map<string, Text>) returns (tx: Store)
      ensures tx == before.(texts := Translated(before.texts, id, texts))
    {
      tx := before;
      var left := texts.Keys;
      ghost var done: map<string, Text> := map[];
      while left != {}
        invariant left <= texts.Keys && done.Keys == texts.Keys - left
        invariant forall l :: l in done ==> done[l] == texts[l]
        invariant tx == before.(texts := Translated(before.texts, id, done))
      {
        var locale :| locale in left;
        left := left - {locale};
        OneMoreText(before.texts, id, done, locale, texts[locale]);
        tx := tx.(texts := tx.texts[id := TextsOf(tx.texts, id)[locale := texts[locale]]]);
        done := done[locale := texts[locale]];
      }
      assert done == texts;
    }

    method SubmitManifest(rules: Rules, app: string, kind: string, channel: string, manifest: Manifest,
                          submitter: string, vid: string, eid: string, now: Time) returns (r: Result<(), Error>)
      modifies `db
      ensures Settled(old(db), Review.SubmitManifest(rules, old(db), app, kind, channel, manifest, submitter, vid, eid, now), db, r)
    {
      var ch := if channel == "" then "stable" else channel;
      if ch != "stable" && ch != "beta" {
        return Err(Invalid);
      }
      if manifest.id != app {
        return Err(Invalid);
      }
      if (manifest.kind == "external") != (kind == "external") {
        return Err(Invalid);
      }
      if !rules.manifestOk(manifest) {
        return Err(Invalid);
      }
      var minPlatform := manifest.platform;
      if minPlatform == "" {
        minPlatform := ANY_PLATFORM;
      }
      var version := Release(app, manifest.version, ch, minPlatform, manifest, true, InReview, submitter, "", None, now);
      r := SubmitVersion(version, ExternalFromManifest(manifest), vid, eid);
    }

    /** The database mints vid and eid; an id or number already used fails the insert. */
    method SubmitVersion(v: Release, external: Option<ExternalSpec>, vid: string, eid: string) returns (r: Result<(), Error>)
      modifies `db
      ensures Settled(old(db), Review.SubmitVersion(old(db), v, external, vid, eid), db, r)
    {
      var tx := db;
      if vid in tx.releases || exists u :: u in tx.releases && tx.releases[u].app == v.app && tx.releases[u].number == v.number {
        return Err(Conflict);
      }
      if v.app !in tx.apps {
        return Err(Database);
      }
      tx := tx.(releases := tx.releases[vid := v]);
      if external.Some? {
        var e := external.value;
        var webhook := if v.app in tx.externals then tx.externals[v.app].webhookUrl else "";
        tx := tx.(externals := tx.externals[v.app := External(e.launchUrl, e.ssoClientId, e.scopes, e.embed, e.healthUrl, webhook)]);
      }
      if exists i :: 0 <= i < |tx.events| && tx.events[i].id == eid {
        return Err(Database);
      }
      db := tx.(events := tx.events + [Event(eid, vid, None, v.submittedBy, "submitted", "", v.createdAt)]);
      r := Ok(());
    }

    method DecideVersion(vid: string, action: string, actorId: Option<string>, actor: string, note: string, eid: string, now: Time)
      returns (r: Result<(), Error>)
      modifies `db
      ensures Settled(old(db), Review.DecideVersion(old(db), vid, action, actorId, actor, note, eid, now), db, r)
    {
      var status;
      if action == "publish" {
        status := Published;
      } else if action == "reject" {
        status := Rejected;
      } else if action == "yank" {
        status := Yanked;
      } else {
        return Err(Invalid);
      }
      var tx := db;
      if vid !in tx.releases {
        return Err(NotFound);
      }
      var row := tx.releases[vid].(status := status, note := note);
      if status == Published {
        row := row.(publishedAt := Some(now));
      }
      tx := tx.(releases := tx.releases[vid := row]);
      if status == Published && row.app in tx.apps {
        tx := tx.(apps := tx.apps[row.app := tx.apps[row.app].(credits := row.manifest.credits, updatedBy := actorId, updatedAt := now)]);
      }
      if exists i :: 0 <= i < |tx.events| && tx.events[i].id == eid {
        return Err(Database);
      }
      tx := tx.(events := tx.events + [Event(eid, vid, actorId, actor, action, note, now)]);
      db := tx.(revision := tx.revision + 1);
      r := Ok(());
    }

    method UpsertPublisher(freshId: string, tenant: string, slug: string, name: string, email: string, now: Time)
      returns (r: Result<(), Error>)
      requires PublishersOnce(db.publishers)
      modifies `db
      ensures Settled(old(db), SavePublisher(old(db), freshId, tenant, slug, name, email, now), db, r)
    {
      var rows := db.publishers;
      if exists p :: p in rows && rows[p].tenant != tenant && rows[p].slug == slug {
        return Err(Conflict);
      }
      if exists p :: p in rows && rows[p].tenant == tenant {
        var p :| p in rows && rows[p].tenant == tenant;
        db := db.(publishers := rows[p := rows[p].(slug := slug, name := name, email := email, updatedAt := now)]);
      } else {
        if freshId in rows {
          return Err(Conflict);
        }
        db := db.(publishers := rows[freshId := Publisher(tenant, slug, name, email, false, now)]);
      }
      r := Ok(());
    }

    method CreatePlatform(rules: Rules, id: string, name: string, token: string) returns (r: Result<(), Error>)
      modifies `db
      ensures Settled(old(db), AddPlatform(old(db), id, Headers.Trim(name), rules.tokenDigest(token)), db, r)
    {
      var trimmed, digest := Headers.Trim(name), rules.tokenDigest(token);
      if trimmed == "" {
        return Err(Invalid);
      }
      if id == "" || id in db.platforms || exists p :: p in db.platforms && db.platforms[p].digest == digest {
        return Err(Database);
      }
      db := db.(platforms := db.platforms[id := Platform(trimmed, digest, true)]);
      r := Ok(());
    }

    method SetPlatformEnabled(id: string, enabled: bool) returns (r: Result<(), Error>)
      modifies `db
      ensures Settled(old(db), Review.SetPlatformEnabled(old(db), id, enabled), db, r)
    {
      if id !in db.platforms {
        return Err(NotFound);
      }
      db := db.(platforms := db.platforms[id := db.platforms[id].(enabled := enabled)]);
      r := Ok(());
    }

    method Grant(app: string, platformId: string) returns (r: Result<(), Error>)
      modifies `db
      ensures Settled(old(db), Review.Grant(old(db), app, platformId), db, r)
    {
      if app !in db.apps || platformId !in db.platforms {
        return Err(Database);
      }
      db := db.(grants := db.grants + {(app, platformId)});
      r := Ok(());
    }

    method Revoke(app: string, platformId: string) returns (r: Result<(), Error>)
      modifies `db
      ensures Settled(old(db), Review.Revoke(old(db), app, platformId), db, r)
    {
      db := db.(grants := db.grants - {(app, platformId)});
      r := Ok(());
    }

    method DiscardSnapshots() returns (discarded: nat)
      modifies `publicRows
      ensures publicRows == map[] && discarded == |old(publicRows)|
    {
      discarded := |publicRows|;
      publicRows := map[];
    }

    method DiscardPrivateSnapshots(platformId: string)
      modifies `privateRows
      ensures privateRows == if platformId == "" then map[] else WithoutPlatform(old(privateRows), platformId)
      ensures forall k :: k in privateRows <==> k in old(privateRows) && platformId != "" && k.0 != platformId
      ensures forall k :: k in privateRows ==> privateRows[k] == old(privateRows)[k]
    {
      if platformId == "" {
        privateRows := map[];
        return;
      }
      privateRows := map k | k in privateRows && k.0 != platformId :: privateRows[k];
    }

    method PlatformByToken(rules: Rules, token: string) returns (r: Option<string>)
      requires PlatformKeys(db)
      ensures r == Audiences.PlatformByToken(rules, db, token)
    {
      if token == "" {
        return None;
      }
      var digest := rules.tokenDigest(token);
      if exists id :: id in db.platforms && db.platforms[id].digest == digest {
        var id :| id in db.platforms && db.platforms[id].digest == digest;
        assert Holds(rules, db, token, id);
        return if db.platforms[id].enabled then Some(id) else None;
      }
      return None;
    }

    method AudienceFor(rules: Rules, token: string) returns (audience: Audience)
      requires PlatformKeys(db)
      ensures audience == Audiences.AudienceFor(rules, db, token)
    {
      var platform := PlatformByToken(rules, token);
      if platform.None? {
        return ANONYMOUS;
      }
      var granted := GrantsOf(db, platform.value);
      if granted == {} {
        return ANONYMOUS;
      }
      return Audience(platform.value, granted);
    }
  }
}

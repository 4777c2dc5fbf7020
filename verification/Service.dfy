/** The catalogue service and the endpoints on it: one request at a time, in the code's own steps.
    Interleavings of requests and writers are the subject of the module Protocol. */
module Service {
  import opened Basics
  import opened Semver
  import opened Tables
  import opened Wire
  import opened Audiences
  import opened Review
  import opened Catalogue
  import opened CatalogueLaws
  import opened StoreLaws
  import opened KeyLaws
  import opened Caching
  import opened RegistryStore
  import CacheLaws
  import Headers
  import ProtocolLaws
  import Statements

  // --- what the caches promise ------------------------------------------------

  /** A stored document is labelled with a revision reached so far; if that is the current one, it
      is a build of the current tables for its audience. */
  ghost predicate RowOk(rules: Rules, signer: Signer, s: Store, channel: string, platform: string, ids: set<string>, held: Snapshot)
  {
    && held.revision <= s.revision
    && (held.revision == s.revision ==> IsBuildFor(rules, signer, s, channel, platform, ids, held))
  }

  ghost predicate IsBuildFor(rules: Rules, signer: Signer, s: Store, channel: string, platform: string, ids: set<string>, snapshot: Snapshot)
  {
    && rules.platform(platform).Some?
    && IsBuild(rules, signer, FaceOf(s), Ask(channel, rules.platform(platform).value, ids), platform, s.revision, snapshot)
  }

  ghost predicate PublicCacheOk(rules: Rules, signer: Signer, s: Store, rows: map<(string, string), Row<Snapshot>>)
  {
    forall k :: k in rows ==> KnownChannel(k.0) && RowOk(rules, signer, s, k.0, k.1, {}, rows[k].answer)
  }

  ghost predicate PrivateCacheOk(rules: Rules, signer: Signer, s: Store, rows: map<(string, string, string), Row<Snapshot>>)
  {
    forall k :: k in rows ==> RowOk(rules, signer, s, k.1, k.2, GrantsOf(s, k.0), rows[k].answer)
  }

  lemma RowsSurviveCommit(rules: Rules, signer: Signer, s: Store, t: Store, channel: string, platform: string, ids: set<string>, held: Snapshot)
    requires RowOk(rules, signer, s, channel, platform, ids, held) && Covered(s, t)
    ensures RowOk(rules, signer, t, channel, platform, ids, held)
  {
  }

  /** No transaction other than a grant or a revocation needs to touch a cache to keep it right: it
      moves the revision past every label, or it changes nothing any document shows. */
  lemma CommitsKeepCaches(rules: Rules, signer: Signer, s: Store, op: Op,
                          publicRows: map<(string, string), Row<Snapshot>>, privateRows: map<(string, string, string), Row<Snapshot>>)
    requires PublicCacheOk(rules, signer, s, publicRows) && PrivateCacheOk(rules, signer, s, privateRows)
    ensures PublicCacheOk(rules, signer, After(rules, s, op), publicRows)
    ensures !ProtocolLaws.ChangesGrants(op) ==> PrivateCacheOk(rules, signer, After(rules, s, op), privateRows)
  {
    ExecCovered(rules, s, op);
    var t := After(rules, s, op);
    forall k | k in publicRows
      ensures RowOk(rules, signer, t, k.0, k.1, {}, publicRows[k].answer)
    {
      RowsSurviveCommit(rules, signer, s, t, k.0, k.1, {}, publicRows[k].answer);
    }
    forall k | k in privateRows && !ProtocolLaws.ChangesGrants(op)
      ensures RowOk(rules, signer, t, k.1, k.2, GrantsOf(t, k.0), privateRows[k].answer)
    {
      ProtocolLaws.OtherGrantsStay(rules, s, op, k.0);
      RowsSurviveCommit(rules, signer, s, t, k.1, k.2, GrantsOf(s, k.0), privateRows[k].answer);
    }
  }

  /** The changes after which the operator endpoints discard a platform's rows. */
  predicate ChangesAccess(op: Op) { op.OpSetEnabled? || ProtocolLaws.ChangesGrants(op) }

  /** An access change needs the rows of its own platform gone, and no others. */
  lemma DiscardRestoresCaches(rules: Rules, signer: Signer, s: Store, op: Op, privateRows: map<(string, string, string), Row<Snapshot>>)
    requires ChangesAccess(op) && PrivateCacheOk(rules, signer, s, privateRows)
    ensures PrivateCacheOk(rules, signer, After(rules, s, op), WithoutPlatform(privateRows, op.platformId))
  {
    ExecCovered(rules, s, op);
    var t := After(rules, s, op);
    forall k | k in privateRows && k.0 != op.platformId
      ensures RowOk(rules, signer, t, k.1, k.2, GrantsOf(t, k.0), privateRows[k].answer)
    {
      ProtocolLaws.OtherGrantsStay(rules, s, op, k.0);
      RowsSurviveCommit(rules, signer, s, t, k.1, k.2, GrantsOf(s, k.0), privateRows[k].answer);
    }
  }

  lemma RowAfterAccessChange(rules: Rules, signer: Signer, s: Store, t: Store, channel: string, platform: string,
                             granted: set<string>, ids: set<string>, held: Snapshot)
    requires RowOk(rules, signer, s, channel, platform, granted, held) && t.revision == s.revision && FaceOf(t) == FaceOf(s)
    requires EncodesApart(rules)
    ensures RowOk(rules, signer, t, channel, platform, ids, held) <==> RowStaysRight(rules, s, channel, platform, granted, ids, held)
  {
    if held.revision == s.revision {
      var ask := Ask(channel, rules.platform(platform).value, granted);
      BuildsForOtherGrants(rules, signer, FaceOf(s), ask, ids, platform, s.revision, held);
      assert ask.(ids := ids) == Ask(channel, rules.platform(platform).value, ids);
    }
  }

  /** The row is stale anyway, or no app whose grant changes shows on its channel and platform. */
  ghost predicate RowStaysRight(rules: Rules, s: Store, channel: string, platform: string, granted: set<string>, ids: set<string>, held: Snapshot)
  {
    held.revision == s.revision && rules.platform(platform).Some? ==>
      !ChangeShows(rules, FaceOf(s), Ask(channel, rules.platform(platform).value, granted), ids)
  }

  /** Every row of the platform stays right when its grants become `ids`. */
  ghost predicate StaysRight(rules: Rules, s: Store, rows: map<(string, string, string), Row<Snapshot>>, platformId: string, ids: set<string>)
  {
    forall k :: k in rows && k.0 == platformId ==> RowStaysRight(rules, s, k.1, k.2, GrantsOf(s, platformId), ids, rows[k].answer)
  }

  /** An access change whose discard does not go through leaves the caches right exactly when, for
      every current row of the platform, no app whose grant changed is private with a release to
      offer on that row's channel and platform. */
  lemma UndiscardedRows(rules: Rules, signer: Signer, s: Store, op: Op, rows: map<(string, string, string), Row<Snapshot>>)
    requires ChangesAccess(op) && PrivateCacheOk(rules, signer, s, rows) && EncodesApart(rules)
    ensures PrivateCacheOk(rules, signer, After(rules, s, op), rows) <==>
              StaysRight(rules, s, rows, op.platformId, GrantsOf(After(rules, s, op), op.platformId))
  {
    var t := After(rules, s, op);
    forall k | k in rows
      ensures RowOk(rules, signer, t, k.1, k.2, GrantsOf(t, k.0), rows[k].answer) <==>
                (k.0 == op.platformId ==> RowStaysRight(rules, s, k.1, k.2, GrantsOf(s, k.0), GrantsOf(t, k.0), rows[k].answer))
    {
      if k.0 == op.platformId {
        RowAfterAccessChange(rules, signer, s, t, k.1, k.2, GrantsOf(s, k.0), GrantsOf(t, k.0), rows[k].answer);
      } else {
        ExecCovered(rules, s, op);
        ProtocolLaws.OtherGrantsStay(rules, s, op, k.0);
        RowsSurviveCommit(rules, signer, s, t, k.1, k.2, GrantsOf(s, k.0), rows[k].answer);
      }
    }
  }

  lemma EnablingKeepsRows(rules: Rules, signer: Signer, s: Store, id: string, enabled: bool, rows: map<(string, string, string), Row<Snapshot>>)
    requires PrivateCacheOk(rules, signer, s, rows)
    ensures PrivateCacheOk(rules, signer, After(rules, s, OpSetEnabled(id, enabled)), rows)
  {
    var t := After(rules, s, OpSetEnabled(id, enabled));
    ExecCovered(rules, s, OpSetEnabled(id, enabled));
    forall k | k in rows ensures RowOk(rules, signer, t, k.1, k.2, GrantsOf(t, k.0), rows[k].answer) {
      assert GrantsOf(t, k.0) == GrantsOf(s, k.0);
      RowsSurviveCommit(rules, signer, s, t, k.1, k.2, GrantsOf(s, k.0), rows[k].answer);
    }
  }

  // --- building, storing, answering -------------------------------------------

  /** Why a build of the current tables can fail. */
  ghost predicate Fails(rules: Rules, s: Store, channel: string, platform: string, ids: set<string>, error: BuildError)
  {
    match (error, rules.platform(platform))
    case (BadPlatform, p) => p.None?
    case (_, None) => false
    case (BadManifest, Some(p)) => exists v :: Eligible(rules, FaceOf(s), Ask(channel, p, ids), v) && !FaceOf(s).published[v].decodes
    case (Refused, Some(p)) => exists pick :: Unsignable(rules, FaceOf(s), Ask(channel, p, ids), platform, pick)
  }

  /** What saving does to the public cache: the row is written unless that fails, and the channel is
      pruned in either case, unless that fails. */
  ghost predicate PublicSaved(before: map<(string, string), Row<Snapshot>>, after: map<(string, string), Row<Snapshot>>,
                              k: (string, string), row: Row<Snapshot>, stored: bool, pruned: bool)
  {
    var written := if stored then before[k := row] else before;
    if pruned then PrunedTo(written, after, k.0) else after == written
  }

  datatype Caches = Caches(publicRows: map<(string, string), Row<Snapshot>>, privateRows: map<(string, string, string), Row<Snapshot>>)

  function Held(c: Caches, channel: string, platform: string, audience: Audience): Option<Snapshot>
  {
    if audience.Anonymous() then
      if (channel, platform) in c.publicRows then Some(c.publicRows[(channel, platform)].answer) else None
    else
      var key := (audience.platformId, channel, platform);
      if key in c.privateRows then Some(c.privateRows[key].answer) else None
  }

  ghost predicate Saved(before: Caches, after: Caches, channel: string, platform: string, audience: Audience,
                        row: Row<Snapshot>, stored: bool, pruned: bool)
  {
    if audience.Anonymous() then
      && after.privateRows == before.privateRows
      && PublicSaved(before.publicRows, after.publicRows, (channel, platform), row, stored, pruned)
    else
      after == if stored then before.(privateRows := before.privateRows[(audience.platformId, channel, platform) := row]) else before
  }

  lemma SavingKeepsCaches(rules: Rules, signer: Signer, s: Store, before: Caches, after: Caches, channel: string, platform: string,
                          audience: Audience, row: Row<Snapshot>, stored: bool, pruned: bool)
    requires PublicCacheOk(rules, signer, s, before.publicRows) && PrivateCacheOk(rules, signer, s, before.privateRows)
    requires Saved(before, after, channel, platform, audience, row, stored, pruned) && KnownChannel(channel)
    requires RowOk(rules, signer, s, channel, platform, audience.appIds, row.answer)
    requires audience.appIds == if audience.Anonymous() then {} else GrantsOf(s, audience.platformId)
    ensures PublicCacheOk(rules, signer, s, after.publicRows) && PrivateCacheOk(rules, signer, s, after.privateRows)
  {
  }

  /** What was stored is what the next request of that audience, channel and platform is shown, if the
      clock has moved since the other rows of the channel were written; and no other platform's row
      and no other channel's is touched. */
  lemma StoredIsHeld(before: Caches, after: Caches, channel: string, platform: string, audience: Audience,
                     row: Row<Snapshot>, pruned: bool, c: string, p: string, other: Audience)
    requires Saved(before, after, channel, platform, audience, row, true, pruned)
    requires audience.Anonymous() ==> forall j :: j in OfChannel(before.publicRows, channel) ==> before.publicRows[j].builtAt < row.builtAt
    ensures Held(after, channel, platform, audience) == Some(row.answer)
    ensures other.platformId != audience.platformId || c != channel ==> Held(after, c, p, other) == Held(before, c, p, other)
  {
    if audience.Anonymous() && pruned {
      var written := before.publicRows[(channel, platform) := row];
      CacheLaws.NewestSurvivesPrune(written, after.publicRows, (channel, platform));
    }
  }

  ghost predicate Small(rows: map<(string, string), Row<Snapshot>>)
  {
    forall c :: |OfChannel(rows, c)| <= 64
  }

  /** A save that prunes keeps every channel within its bound and the whole cache within twice that,
      even if it finds the channel over the bound; and it keeps the row it wrote, if the clock has
      moved since the others were written. */
  lemma SavesStaySmall(before: map<(string, string), Row<Snapshot>>, after: map<(string, string), Row<Snapshot>>,
                       k: (string, string), row: Row<Snapshot>, stored: bool)
    requires PublicSaved(before, after, k, row, stored, true)
    ensures |OfChannel(after, k.0)| <= 64 && (Small(before) ==> Small(after))
    ensures Small(before) && KnownChannel(k.0) && CacheLaws.KnownRows(before) ==> |after| <= 128
    ensures stored && (forall j :: j in OfChannel(before, k.0) ==> before[j].builtAt < row.builtAt) ==> k in after && after[k] == row
  {
    var written := if stored then before[k := row] else before;
    forall c | c != k.0 ensures OfChannel(after, c) == OfChannel(before, c) {
      assert OfChannel(written, c) == OfChannel(before, c);
    }
    if KnownChannel(k.0) && CacheLaws.KnownRows(before) { CacheLaws.SizeByChannel(after); }
    if stored && forall j :: j in OfChannel(before, k.0) ==> before[j].builtAt < row.builtAt {
      CacheLaws.NewestSurvivesPrune(written, after, k);
    }
  }

  lemma SmallCacheSize(rows: map<(string, string), Row<Snapshot>>)
    requires CacheLaws.KnownRows(rows)
    ensures Small(rows) ==> |rows| <= 128
  {
    CacheLaws.SizeByChannel(rows);
  }

  class CatalogService {
    const registry: Registry
    const rules: Rules
    const signer: Signer

    constructor (registry: Registry, rules: Rules, signer: Signer)
      ensures this.registry == registry && this.rules == rules && this.signer == signer
    {
      this.registry, this.rules, this.signer := registry, rules, signer;
    }

    /** The tables are well kept and every cached document is what its label says. */
    ghost predicate Valid()
      reads this, registry
    {
      && Keyed(registry.db)
      && PublicCacheOk(rules, signer, registry.db, registry.publicRows)
      && PrivateCacheOk(rules, signer, registry.db, registry.privateRows)
    }

    function CachesHeld(): Caches
      reads registry
    {
      Caches(registry.publicRows, registry.privateRows)
    }

    method LoadSnapshot(channel: string, platform: string, audience: Audience) returns (held: Option<Snapshot>)
      ensures held == Held(CachesHeld(), channel, platform, audience)
    {
      held := None;
      if !audience.Anonymous() {
        var key := (audience.platformId, channel, platform);
        if key in registry.privateRows {
          held := Some(registry.privateRows[key].answer);
        }
      } else if (channel, platform) in registry.publicRows {
        held := Some(registry.publicRows[(channel, platform)].answer);
      }
    }

    method SaveSnapshot(channel: string, platform: string, audience: Audience, s: Snapshot, stored: bool, pruned: bool, now: Time)
      modifies registry`publicRows, registry`privateRows
      ensures Saved(old(CachesHeld()), CachesHeld(), channel, platform, audience, Row(s, now), stored, pruned)
    {
      if !audience.Anonymous() {
        if stored {
          registry.privateRows := registry.privateRows[(audience.platformId, channel, platform) := Row(s, now)];
        }
        return;
      }
      if stored {
        registry.publicRows := registry.publicRows[(channel, platform) := Row(s, now)];
      }
      if pruned {
        PruneSnapshots(channel);
      }
    }

    method PruneSnapshots(channel: string)
      modifies registry`publicRows
      ensures PrunedTo(old(registry.publicRows), registry.publicRows, channel)
    {
      registry.publicRows := Statements.DeleteAllButNewest(registry.publicRows, channel);
    }

    /** The signed document for a channel, platform and audience. A stored one at the current revision
        is answered as it is; otherwise one is built and saved. Either way it is a build of the
        current tables, stored or not, and the only failures are the builder's own. */
    method Catalog(channel: string, platform: string, audience: Audience, stored: bool, pruned: bool, now: Time)
      returns (r: Result<Snapshot, BuildError>)
      requires Valid() && KnownChannel(ChannelOf(channel))
      requires audience.appIds == if audience.Anonymous() then {} else GrantsOf(registry.db, audience.platformId)
      modifies registry`publicRows, registry`privateRows
      ensures Valid()
      ensures match r
              case Ok(s) => IsBuildFor(rules, signer, registry.db, ChannelOf(channel), PlatformOf(platform), audience.appIds, s)
              case Err(e) => Fails(rules, registry.db, ChannelOf(channel), PlatformOf(platform), audience.appIds, e)
      ensures var held := Held(old(CachesHeld()), ChannelOf(channel), PlatformOf(platform), audience);
              if held.Some? && held.value.revision == registry.db.revision then r == Ok(held.value) && CachesHeld() == old(CachesHeld())
              else if r.Err? then CachesHeld() == old(CachesHeld())
              else Saved(old(CachesHeld()), CachesHeld(), ChannelOf(channel), PlatformOf(platform), audience, Row(r.value, now), stored, pruned)
      ensures pruned && Small(old(registry.publicRows)) ==> Small(registry.publicRows) && |registry.publicRows| <= 128
    {
      var ch, pl := channel, platform;
      if ch == "" {
        ch := "stable";
      }
      if pl == "" {
        pl := DEFAULT_PLATFORM;
      }
      var revision := registry.db.revision;
      var held := LoadSnapshot(ch, pl, audience);
      if held.Some? && held.value.revision == revision {
        CurrentRowsAreBuilds(ch, pl, audience, held.value);
        SmallCacheSize(registry.publicRows);
        return Ok(held.value);
      }
      r := BuildNow(ch, pl, revision, audience);
      if r.Ok? {
        SaveSnapshot(ch, pl, audience, r.value, stored, pruned, now);
        SavingKeepsCaches(rules, signer, registry.db, old(CachesHeld()), CachesHeld(), ch, pl, audience, Row(r.value, now), stored, pruned);
        SmallStaysSmall(old(CachesHeld()), CachesHeld(), ch, pl, audience, Row(r.value, now), stored, pruned);
      } else {
        SmallCacheSize(registry.publicRows);
      }
    }

    static lemma SmallStaysSmall(before: Caches, after: Caches, channel: string, platform: string, audience: Audience,
                                 row: Row<Snapshot>, stored: bool, pruned: bool)
      requires Saved(before, after, channel, platform, audience, row, stored, pruned)
      requires KnownChannel(channel) && CacheLaws.KnownRows(before.publicRows)
      ensures pruned && Small(before.publicRows) ==> Small(after.publicRows) && |after.publicRows| <= 128
    {
      if audience.Anonymous() && pruned {
        SavesStaySmall(before.publicRows, after.publicRows, (channel, platform), row, stored);
      } else {
        SmallCacheSize(before.publicRows);
      }
    }

    lemma CurrentRowsAreBuilds(channel: string, platform: string, audience: Audience, held: Snapshot)
      requires Valid() && held.revision == registry.db.revision
      requires audience.appIds == if audience.Anonymous() then {} else GrantsOf(registry.db, audience.platformId)
      requires Held(CachesHeld(), channel, platform, audience) == Some(held)
      ensures IsBuildFor(rules, signer, registry.db, channel, platform, audience.appIds, held)
    {
    }

    /** The builder, over the rows the database answers with. */
    method BuildNow(channel: string, platform: string, revision: nat, audience: Audience) returns (r: Result<Snapshot, BuildError>)
      requires revision == registry.db.revision
      ensures match r
              case Ok(s) => s.revision == revision && IsBuildFor(rules, signer, registry.db, channel, platform, audience.appIds, s)
              case Err(e) => Fails(rules, registry.db, channel, platform, audience.appIds, e)
    {
      var f, parsed := FaceOf(registry.db), rules.platform(platform);
      var cursor := [];
      if parsed.Some? {
        cursor := Statements.SelectRows(f, Ask(channel, parsed.value, audience.appIds));
      }
      r := Build(rules, signer, f, channel, platform, audience.appIds, revision, cursor);
    }
  }
  // --- the endpoints ----------------------------------------------------------

  datatype Response =
    | BadRequest
    | Broken(error: BuildError)
    | NotModified(etag: string, shared: bool)
    | Document(etag: string, document: Envelope, shared: bool)

  /** Asked with a printed list of tags without commas, the document is withheld exactly if one of them,
      weak or not, is its tag. */
  ghost predicate NamedIsWithheld(ifNoneMatch: string, response: Response)
  {
    forall items, current :: Headers.CommaFree(items, current) && ifNoneMatch == Headers.Print(items)
      && (response.NotModified? || response.Document?) && response.etag == Headers.TagText(current)
      ==> (response.NotModified? <==> Headers.Names(items, current))
  }

  datatype Reply = Done | Missing | NotPrivate | Faulty

  class Module {
    const registry: Registry
    const catalog: CatalogService

    constructor (catalog: CatalogService)
      ensures this.catalog == catalog && registry == catalog.registry
    {
      this.catalog, this.registry := catalog, catalog.registry;
    }

    ghost predicate Valid()
      reads this, catalog, registry
    {
      registry == catalog.registry && catalog.Valid()
    }

    /** The endpoint every instance polls. It refuses exactly the malformed, takes a credential it does
        not recognise for none, and otherwise answers with a build of the current tables for the
        caller's audience, or says why none can be made. The document is withheld exactly from a
        client that named its tag, and shared caches may keep exactly what anybody is answered. */
    method HandleCatalog(channel: string, platform: string, authorization: string, ifNoneMatch: string,
                         stored: bool, pruned: bool, now: Time) returns (response: Response)
      requires Valid()
      modifies registry`publicRows, registry`privateRows
      ensures Valid()
      ensures pruned && Small(old(registry.publicRows)) && response != BadRequest ==> Small(registry.publicRows) && |registry.publicRows| <= 128
      ensures response == BadRequest ==> registry.publicRows == old(registry.publicRows) && registry.privateRows == old(registry.privateRows)
      ensures response == BadRequest <==>
                (platform != "" && catalog.rules.platform(platform).None?) || (channel != "" && channel != "stable" && channel != "beta")
      ensures var audience := Audiences.AudienceFor(catalog.rules, registry.db, Headers.BearerToken(authorization));
              var (ch, pl) := (if channel == "" then "stable" else channel, if platform == "" then "1.0.0" else platform);
        match response
        case BadRequest => true
        case Broken(e) => Fails(catalog.rules, registry.db, ch, pl, audience.appIds, e)
        case _ =>
          && catalog.rules.platform(pl).Some?
          && exists snapshot ::
               && IsBuild(catalog.rules, catalog.signer, FaceOf(registry.db), Ask(ch, catalog.rules.platform(pl).value, audience.appIds), pl,
                          registry.db.revision, snapshot)
               && response.etag == snapshot.etag && response.shared == (audience == ANONYMOUS)
               && (response.NotModified? <==> ifNoneMatch != "" && Headers.Matches(ifNoneMatch, snapshot.etag))
               && (response.Document? ==> response.document == snapshot.document)
      ensures NamedIsWithheld(ifNoneMatch, response)
    {
      if platform != "" && catalog.rules.platform(platform).None? {
        return BadRequest;
      }
      if channel != "" && channel != "stable" && channel != "beta" {
        return BadRequest;
      }
      var audience := registry.AudienceFor(catalog.rules, Headers.BearerToken(authorization));
      Audiences.CredentialDecides(catalog.rules, registry.db, Headers.BearerToken(authorization));
      var r := catalog.Catalog(channel, platform, audience, stored, pruned, now);
      response := Respond(audience, r, ifNoneMatch);
    }

    /** The last part of the endpoint: the failure, the tag alone if the client named it, or the document. */
    static method Respond(audience: Audience, r: Result<Snapshot, BuildError>, ifNoneMatch: string) returns (response: Response)
      ensures match r
              case Err(e) => response == Broken(e)
              case Ok(s) =>
                && (response.NotModified? || response.Document?) && response.etag == s.etag && response.shared == audience.Anonymous()
                && (response.NotModified? <==> ifNoneMatch != "" && Headers.Matches(ifNoneMatch, s.etag))
                && (response.Document? ==> response.document == s.document)
      ensures NamedIsWithheld(ifNoneMatch, response)
    {
      forall items, current | Headers.CommaFree(items, current) && ifNoneMatch == Headers.Print(items)
        ensures ifNoneMatch != "" && (Headers.Matches(ifNoneMatch, Headers.TagText(current)) <==> Headers.Names(items, current))
      {
        Headers.CommaFreeListsMatchExactly(items, current);
        Headers.PrintedIsNotEmpty(items);
      }
      if r.Err? {
        return Broken(r.error);
      }
      var shared := audience.Anonymous();
      if ifNoneMatch != "" {
        var matched := Headers.EtagMatches(ifNoneMatch, r.value.etag);
        if matched {
          return NotModified(r.value.etag, shared);
        }
      }
      return Document(r.value.etag, r.value.document, shared);
    }

    method HandleRebuildSnapshots() returns (discarded: nat)
      requires Valid()
      modifies registry`publicRows
      ensures Valid() && registry.publicRows == map[] && discarded == |old(registry.publicRows)|
    {
      discarded := registry.DiscardSnapshots();
    }

    /** Grants a private app. A discard that fails is only logged; the caches then stay right exactly
        when the app does not show in any current row of the platform. */
    method HandleGrant(platformId: string, app: string, discards: bool) returns (reply: Reply)
      requires Valid() && platformId != ""
      modifies registry`db, registry`privateRows
      ensures reply == Missing <==> app !in old(registry.db).apps || old(registry.db).apps[app].publisher !in old(registry.db).publishers
      ensures reply == NotPrivate <==> reply != Missing && old(registry.db).apps[app].listing.visibility != "private"
      ensures reply == Done ==> registry.db == old(registry.db).(grants := old(registry.db).grants + {(app, platformId)})
      ensures reply == Faulty <==> reply != Missing && reply != NotPrivate && platformId !in old(registry.db).platforms
      ensures reply != Done ==> registry.db == old(registry.db) && registry.privateRows == old(registry.privateRows)
      ensures reply == Done ==> registry.privateRows == if discards then WithoutPlatform(old(registry.privateRows), platformId) else old(registry.privateRows)
      ensures reply != Done || discards ==> Valid()
      ensures reply == Done && !discards && EncodesApart(catalog.rules) ==>
                (Valid() <==> StaysRight(catalog.rules, old(registry.db), old(registry.privateRows), platformId,
                                         GrantsOf(old(registry.db), platformId) + {app}))
    {
      var db := registry.db;
      if app !in db.apps || db.apps[app].publisher !in db.publishers {
        return Missing;
      }
      if db.apps[app].listing.visibility != "private" {
        return NotPrivate;
      }
      var r := registry.Grant(app, platformId);
      if r.Err? {
        return Faulty;
      }
      AccessChanged(db, OpGrant(app, platformId));
      assert GrantsOf(registry.db, platformId) == GrantsOf(db, platformId) + {app};
      if discards {
        registry.DiscardPrivateSnapshots(platformId);
      }
      return Done;
    }

    method HandleRevoke(platformId: string, app: string, discards: bool) returns (reply: Reply)
      requires Valid() && platformId != ""
      modifies registry`db, registry`privateRows
      ensures reply == Done && registry.db == old(registry.db).(grants := old(registry.db).grants - {(app, platformId)})
      ensures registry.privateRows == if discards then WithoutPlatform(old(registry.privateRows), platformId) else old(registry.privateRows)
      ensures discards ==> Valid()
      ensures !discards && EncodesApart(catalog.rules) ==>
                (Valid() <==> StaysRight(catalog.rules, old(registry.db), old(registry.privateRows), platformId,
                                         GrantsOf(old(registry.db), platformId) - {app}))
    {
      ghost var db := registry.db;
      var r := registry.Revoke(app, platformId);
      AccessChanged(db, OpRevoke(app, platformId));
      assert GrantsOf(registry.db, platformId) == GrantsOf(db, platformId) - {app};
      if discards {
        registry.DiscardPrivateSnapshots(platformId);
      }
      return Done;
    }

    /** Enabling and disabling leave the grants, hence every row, as they are: the caches stay right even
        when the discard fails. */
    method HandleSetPlatformEnabled(platformId: string, enabled: bool, discards: bool) returns (reply: Reply)
      requires Valid() && platformId != ""
      modifies registry`db, registry`privateRows
      ensures reply == Done || reply == Missing
      ensures reply == Missing <==> platformId !in old(registry.db).platforms
      ensures reply == Missing ==> registry.db == old(registry.db) && registry.privateRows == old(registry.privateRows)
      ensures reply == Done ==>
                && registry.db == old(registry.db).(platforms := old(registry.db).platforms[platformId :=
                                                    old(registry.db).platforms[platformId].(enabled := enabled)])
                && registry.privateRows == if discards then WithoutPlatform(old(registry.privateRows), platformId) else old(registry.privateRows)
      ensures Valid()
    {
      ghost var db := registry.db;
      var r := registry.SetPlatformEnabled(platformId, enabled);
      if r.Err? {
        return Missing;
      }
      AccessChanged(db, OpSetEnabled(platformId, enabled));
      EnablingKeepsRows(catalog.rules, catalog.signer, db, platformId, enabled, registry.privateRows);
      if discards {
        registry.DiscardPrivateSnapshots(platformId);
      }
      return Done;
    }

    lemma AccessChanged(s: Store, op: Op)
      requires ChangesAccess(op) && Exec(catalog.rules, s, op).Ok?
      requires Keyed(s)
      ensures Keyed(After(catalog.rules, s, op))
      ensures forall publicRows :: PublicCacheOk(catalog.rules, catalog.signer, s, publicRows)
                ==> PublicCacheOk(catalog.rules, catalog.signer, After(catalog.rules, s, op), publicRows)
      ensures forall rows :: PrivateCacheOk(catalog.rules, catalog.signer, s, rows)
                ==> PrivateCacheOk(catalog.rules, catalog.signer, After(catalog.rules, s, op), WithoutPlatform(rows, op.platformId))
      ensures forall rows :: PrivateCacheOk(catalog.rules, catalog.signer, s, rows) && EncodesApart(catalog.rules)
                ==> (PrivateCacheOk(catalog.rules, catalog.signer, After(catalog.rules, s, op), rows) <==>
                     StaysRight(catalog.rules, s, rows, op.platformId, GrantsOf(After(catalog.rules, s, op), op.platformId)))
    {
      ExecKeepsKeys(catalog.rules, s, op);
      forall rows | PublicCacheOk(catalog.rules, catalog.signer, s, rows)
        ensures PublicCacheOk(catalog.rules, catalog.signer, After(catalog.rules, s, op), rows)
      {
        CommitsKeepCaches(catalog.rules, catalog.signer, s, op, rows, map[]);
      }
      forall rows | PrivateCacheOk(catalog.rules, catalog.signer, s, rows)
        ensures PrivateCacheOk(catalog.rules, catalog.signer, After(catalog.rules, s, op), WithoutPlatform(rows, op.platformId))
        ensures EncodesApart(catalog.rules) ==>
                  (PrivateCacheOk(catalog.rules, catalog.signer, After(catalog.rules, s, op), rows) <==>
                   StaysRight(catalog.rules, s, rows, op.platformId, GrantsOf(After(catalog.rules, s, op), op.platformId)))
      {
        DiscardRestoresCaches(catalog.rules, catalog.signer, s, op, rows);
        if EncodesApart(catalog.rules) { UndiscardedRows(catalog.rules, catalog.signer, s, op, rows); }
      }
    }
  }
}

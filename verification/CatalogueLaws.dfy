/** What holds of every catalogue, whatever the tables say. */
module CatalogueLaws {
  import opened Basics
  import opened Semver
  import opened Tables
  import opened Wire
  import opened Catalogue
  import Lex

  // --- one build per state ----------------------------------------------------

  /** Two winners of one app tie: same rank, published at the same time. */
  lemma WinnersTie(rules: Rules, f: Face, ask: Ask, app: string, u: string, v: string)
    requires IsWinner(rules, f, ask, app, u) && IsWinner(rules, f, ask, app, v)
    ensures SameRank(f.published[u].number, f.published[v].number)
    ensures f.published[u].publishedAt == f.published[v].publishedAt
  {
    assert !Beats(f, u, v) && !Beats(f, v, u);
    Trichotomy(f.published[u].number, f.published[v].number);
  }

  /** Without twins the tables determine the document byte for byte. */
  lemma UniqueBuild(rules: Rules, signer: Signer, f: Face, ask: Ask, platform: string, revision: nat, s1: Snapshot, s2: Snapshot)
    requires NoTwins(f)
    requires IsBuild(rules, signer, f, ask, platform, revision, s1)
    requires IsBuild(rules, signer, f, ask, platform, revision, s2)
    ensures s1 == s2
  {
    var p, m :| Builds(rules, signer, f, ask, platform, revision, p, m, s1);
    var q, n :| Builds(rules, signer, f, ask, platform, revision, q, n, s2);
    UniqueChoice(rules, f, ask, p, m, q, n);
  }

  lemma UniqueChoice(rules: Rules, f: Face, ask: Ask, p: map<string, string>, m: Time, q: map<string, string>, n: Time)
    requires NoTwins(f) && IsPick(rules, f, ask, p) && IsPick(rules, f, ask, q)
    requires IsStamp(rules, f, ask, m) && IsStamp(rules, f, ask, n)
    ensures p == q && m == n
  {
    UniquePick(rules, f, ask, p, q);
    OneStamp(rules, f, ask, m, n);
  }

  /** The stamp is the same for every build of one state, ties or not. */
  lemma OneStamp(rules: Rules, f: Face, ask: Ask, m: Time, n: Time)
    requires IsStamp(rules, f, ask, m) && IsStamp(rules, f, ask, n)
    ensures m == n
  {
    var d, p :| StampedBy(rules, f, d, ask, p, m);
    var e, q :| StampedBy(rules, f, e, ask, q, n);
    DatedPartIsOne(f, d);
    DatedPartIsOne(f, e);
    NoLaterStamp(rules, d, ask, p, m, q, n);
    NoLaterStamp(rules, d, ask, q, n, p, m);
  }

  lemma NoLaterStamp(rules: Rules, d: Face, ask: Ask, p: map<string, string>, m: Time, q: map<string, string>, n: Time)
    requires IsPick(rules, d, ask, p) && IsNewest(d, p, m) && IsPick(rules, d, ask, q) && IsNewest(d, q, n)
    ensures m <= n
  {
    forall a | a in p ensures a in q && NotOlder(d.published[p[a]].publishedAt, d.published[q[a]].publishedAt) {
      assert IsWinner(rules, d, ask, a, p[a]) && Eligible(rules, d, ask, p[a]);
      WinnersTie(rules, d, ask, a, p[a], q[a]);
    }
    NewestMonotone(d, p, m, d, q, n);
  }

  /** If every app picked on the left is picked on the right, published no earlier, the newest
      publication on the right is no earlier either. */
  lemma NewestMonotone(f: Face, p: map<string, string>, m: Time, g: Face, q: map<string, string>, n: Time)
    requires IsNewest(f, p, m) && IsNewest(g, q, n)
    requires forall a :: a in p ==> a in q && NotOlder(f.published[p[a]].publishedAt, g.published[q[a]].publishedAt)
    ensures m <= n
  {
  }

  predicate NotOlder(x: Option<Time>, y: Option<Time>)
  {
    x.Some? ==> y.Some? && x.value <= y.value
  }

  lemma UniquePick(rules: Rules, f: Face, ask: Ask, p: map<string, string>, q: map<string, string>)
    requires NoTwins(f) && IsPick(rules, f, ask, p) && IsPick(rules, f, ask, q)
    ensures p == q
  {
    forall a
      ensures a in p <==> a in q
    {
      if a in p { assert Eligible(rules, f, ask, p[a]); }
      if a in q { assert Eligible(rules, f, ask, q[a]); }
    }
    forall a | a in p
      ensures p[a] == q[a]
    {
      WinnersTie(rules, f, ask, a, p[a], q[a]);
    }
  }

  ghost predicate Lists(entries: seq<Entry>, app: string) { exists e :: e in entries && e.id == app }

  /** The catalogue is exactly what was promised: entries strictly ascending by id; an app is in
      it if and only if it is public or granted and has a published release on the channel that
      the platform can run; and no release eligible for that app beats the one offered. */
  lemma CatalogueIsExact(rules: Rules, f: Face, ask: Ask, pick: map<string, string>, texts: map<string, map<string, Text>>)
    requires IsPick(rules, f, ask, pick)
    ensures Covers(f, pick)
    ensures var entries := EntriesOf(f, pick, texts);
      && Ascending(entries)
      && (forall a: string :: Lists(entries, a) <==>
                      (exists v :: Eligible(rules, f, ask, v) && f.published[v].app == a))
      && (forall e :: e in entries ==>
            && e.id in pick && IsWinner(rules, f, ask, e.id, pick[e.id])
            && e == EntryOf(f, e.id, pick[e.id], TextsOf(texts, e.id)))
  {
    PicksCover(rules, f, ask, pick);
    var entries := EntriesOf(f, pick, texts);
    var ids := Lex.Sorted(pick.Keys);
    forall v | Eligible(rules, f, ask, v)
      ensures exists e :: e in entries && e.id == f.published[v].app
    {
      var a := f.published[v].app;
      assert a in ids;
      var i :| 0 <= i < |ids| && ids[i] == a;
      assert entries[i] in entries;
    }
  }

  // --- which tables matter ----------------------------------------------------

  /** Two states show a request the same rows, with the same listings and translations. */
  ghost predicate Agree(rules: Rules, f: Face, ask: Ask, g: Face, bsk: Ask)
  {
    && (forall v :: Eligible(rules, f, ask, v) <==> Eligible(rules, g, bsk, v))
    && (forall v :: Eligible(rules, f, ask, v) ==>
          && f.published[v] == g.published[v]
          && f.listings[f.published[v].app] == g.listings[f.published[v].app]
          && TextsOf(f.texts, f.published[v].app) == TextsOf(g.texts, f.published[v].app))
  }

  /** Two states read the same at every place a selection points to. */
  ghost predicate ReadAlike(f: Face, g: Face, pick: map<string, string>)
  {
    && Covers(f, pick) && Covers(g, pick)
    && (forall a :: a in pick ==>
          && f.listings[a] == g.listings[a] && f.published[pick[a]] == g.published[pick[a]]
          && TextsOf(f.texts, a) == TextsOf(g.texts, a))
  }

  lemma AgreePick(rules: Rules, f: Face, ask: Ask, g: Face, bsk: Ask, pick: map<string, string>)
    requires Agree(rules, f, ask, g, bsk) && IsPick(rules, f, ask, pick)
    ensures IsPick(rules, g, bsk, pick) && ReadAlike(f, g, pick)
  {
    forall a | a in pick
      ensures IsWinner(rules, g, bsk, a, pick[a])
    {
      assert IsWinner(rules, f, ask, a, pick[a]);
    }
    PicksCover(rules, f, ask, pick);
    PicksCover(rules, g, bsk, pick);
    forall a | a in pick
      ensures Eligible(rules, f, ask, pick[a]) && f.published[pick[a]].app == a
    {
      assert IsWinner(rules, f, ask, a, pick[a]);
    }
  }

  lemma SameEntries(f: Face, g: Face, pick: map<string, string>)
    requires ReadAlike(f, g, pick)
    ensures EntriesOf(f, pick, f.texts) == EntriesOf(g, pick, g.texts)
  {
  }

  lemma SameNewest(f: Face, g: Face, pick: map<string, string>, newest: Time)
    requires IsNewest(f, pick, newest) && ReadAlike(f, g, pick)
    ensures IsNewest(g, pick, newest)
  {
  }

  lemma AgreeBuilds(rules: Rules, signer: Signer, f: Face, ask: Ask, g: Face, bsk: Ask, platform: string, revision: nat,
                    pick: map<string, string>, newest: Time, snapshot: Snapshot)
    requires Agree(rules, f, ask, g, bsk)
    requires Builds(rules, signer, f, ask, platform, revision, pick, newest, snapshot)
    ensures Builds(rules, signer, g, bsk, platform, revision, pick, newest, snapshot)
  {
    AgreePick(rules, f, ask, g, bsk, pick);
    SameEntries(f, g, pick);
    AgreeStamp(rules, f, ask, g, bsk, newest);
  }

  lemma AgreeStamp(rules: Rules, f: Face, ask: Ask, g: Face, bsk: Ask, newest: Time)
    requires Agree(rules, f, ask, g, bsk) && IsStamp(rules, f, ask, newest)
    ensures IsStamp(rules, g, bsk, newest)
  {
    var d, pick :| StampedBy(rules, f, d, ask, pick, newest);
    var e := DatedOf(g);
    DatedOfIsDated(g);
    AgreeDated(rules, f, d, ask, g, e, bsk);
    AgreePick(rules, d, ask, e, bsk, pick);
    SameNewest(d, e, pick, newest);
    assert StampedBy(rules, g, e, bsk, pick, newest);
  }

  lemma AgreeDated(rules: Rules, f: Face, d: Face, ask: Ask, g: Face, e: Face, bsk: Ask)
    requires Agree(rules, f, ask, g, bsk) && IsDatedPart(f, d) && IsDatedPart(g, e)
    ensures Agree(rules, d, ask, e, bsk)
  {
    forall v ensures Eligible(rules, d, ask, v) <==> Eligible(rules, e, bsk, v) {
      assert Eligible(rules, f, ask, v) <==> Eligible(rules, g, bsk, v);
      assert Eligible(rules, d, ask, v) <==> Eligible(rules, f, ask, v) && f.published[v].publishedAt.Some?;
      assert Eligible(rules, e, bsk, v) <==> Eligible(rules, g, bsk, v) && g.published[v].publishedAt.Some?;
    }
    forall v | Eligible(rules, d, ask, v)
      ensures && d.published[v] == e.published[v]
              && d.listings[d.published[v].app] == e.listings[d.published[v].app]
              && TextsOf(d.texts, d.published[v].app) == TextsOf(e.texts, d.published[v].app)
    {
      assert Eligible(rules, f, ask, v);
    }
  }

  /** States that agree for a request have the same documents to answer it with. */
  lemma AgreeingStatesBuildAlike(rules: Rules, signer: Signer, f: Face, ask: Ask, g: Face, bsk: Ask,
                                 platform: string, revision: nat, snapshot: Snapshot)
    requires Agree(rules, f, ask, g, bsk)
    ensures IsBuild(rules, signer, f, ask, platform, revision, snapshot)
       <==> IsBuild(rules, signer, g, bsk, platform, revision, snapshot)
  {
    if IsBuild(rules, signer, f, ask, platform, revision, snapshot) {
      var p, n :| Builds(rules, signer, f, ask, platform, revision, p, n, snapshot);
      AgreeBuilds(rules, signer, f, ask, g, bsk, platform, revision, p, n, snapshot);
    }
    if IsBuild(rules, signer, g, bsk, platform, revision, snapshot) {
      var p, n :| Builds(rules, signer, g, bsk, platform, revision, p, n, snapshot);
      AgreeBuilds(rules, signer, g, bsk, f, ask, platform, revision, p, n, snapshot);
    }
  }

  predicate PublicIn(f: Face, app: string) { app in f.listings && f.listings[app].visibility == "public" }

  predicate PublicRow(f: Face, v: string) { v in f.published && PublicIn(f, f.published[v].app) }

  predicate SameApp(f: Face, g: Face, app: string)
  {
    && (PublicIn(f, app) <==> PublicIn(g, app))
    && (PublicIn(f, app) ==> f.listings[app] == g.listings[app] && TextsOf(f.texts, app) == TextsOf(g.texts, app))
  }

  predicate SameRow(f: Face, g: Face, v: string)
  {
    (PublicRow(f, v) <==> PublicRow(g, v)) && (PublicRow(f, v) ==> f.published[v] == g.published[v])
  }

  /** Two states hold the same public apps, with the same translations and published releases.
      Nothing is said of private apps. */
  ghost predicate SamePublicPart(f: Face, g: Face)
  {
    (forall a :: SameApp(f, g, a)) && (forall v :: SameRow(f, g, v))
  }

  /** Non-interference: states with the same public part answer anonymous requests identically,
      whatever private apps, releases, translations, platforms and grants they hold. */
  lemma AnonymousSeesOnlyPublic(rules: Rules, signer: Signer, f: Face, g: Face, ask: Ask,
                                platform: string, revision: nat, snapshot: Snapshot)
    requires SamePublicPart(f, g) && ask.ids == {}
    ensures IsBuild(rules, signer, f, ask, platform, revision, snapshot)
       <==> IsBuild(rules, signer, g, ask, platform, revision, snapshot)
  {
    PublicPartsAgree(rules, f, g, ask);
    AgreeingStatesBuildAlike(rules, signer, f, ask, g, ask, platform, revision, snapshot);
  }

  lemma PublicPartsAgree(rules: Rules, f: Face, g: Face, ask: Ask)
    requires SamePublicPart(f, g) && ask.ids == {}
    ensures Agree(rules, f, ask, g, ask)
  {
    forall v
      ensures Eligible(rules, f, ask, v) <==> Eligible(rules, g, ask, v)
    {
      assert SameRow(f, g, v);
      assert Visible(f, ask, v) ==> PublicRow(f, v);
      assert Visible(g, ask, v) ==> PublicRow(g, v);
    }
    forall v | Eligible(rules, f, ask, v)
      ensures && f.published[v] == g.published[v]
              && f.listings[f.published[v].app] == g.listings[f.published[v].app]
              && TextsOf(f.texts, f.published[v].app) == TextsOf(g.texts, f.published[v].app)
    {
      assert SameRow(f, g, v) && SameApp(f, g, f.published[v].app);
    }
  }

  // --- audiences --------------------------------------------------------------

  /** A granted audience gets every anonymous entry unchanged, plus exactly one entry for each
      private app that was granted and has an eligible release, and nothing else. */
  lemma AudienceDecomposition(rules: Rules, f: Face, ask: Ask, pick: map<string, string>, texts: map<string, map<string, Text>>)
    returns (anonymous: map<string, string>)
    requires IsPick(rules, f, ask, pick)
    ensures IsPick(rules, f, ask.(ids := {}), anonymous) && Covers(f, anonymous) && Covers(f, pick)
    ensures forall e :: e in EntriesOf(f, pick, texts) <==>
              || e in EntriesOf(f, anonymous, texts)
              || (e.id in ask.ids && e.id in pick && f.listings[e.id].visibility != "public"
                  && e == EntryOf(f, e.id, pick[e.id], TextsOf(texts, e.id)))
    ensures forall a :: a in ask.ids && a in f.listings && f.listings[a].visibility != "public" ==>
              (a in pick <==> exists v :: Eligible(rules, f, ask, v) && f.published[v].app == a)
  {
    PicksCover(rules, f, ask, pick);
    anonymous := map a | a in pick && f.listings[a].visibility == "public" :: pick[a];
    var anyone := ask.(ids := {});
    forall v
      ensures Eligible(rules, f, anyone, v) <==>
              Eligible(rules, f, ask, v) && f.listings[f.published[v].app].visibility == "public"
    {
    }
    forall a | a in anonymous
      ensures IsWinner(rules, f, anyone, a, anonymous[a])
    {
      assert IsWinner(rules, f, ask, a, pick[a]);
    }
    forall a | a in pick && f.listings[a].visibility != "public"
      ensures a in ask.ids
    {
      assert IsWinner(rules, f, ask, a, pick[a]);
    }
    EntryMembership(f, pick, texts);
    EntryMembership(f, anonymous, texts);
    forall a | a in pick
      ensures exists v :: Eligible(rules, f, ask, v) && f.published[v].app == a
    {
      assert IsWinner(rules, f, ask, a, pick[a]);
    }
  }

  lemma EntryMembership(f: Face, pick: map<string, string>, texts: map<string, map<string, Text>>)
    requires Covers(f, pick)
    ensures forall e :: e in EntriesOf(f, pick, texts) <==> e.id in pick && e == EntryOf(f, e.id, pick[e.id], TextsOf(texts, e.id))
  {
  }

  // --- grants that show -------------------------------------------------------

  /** A release of the app could be offered on this channel and platform. */
  ghost predicate Offered(rules: Rules, f: Face, ask: Ask, app: string)
  {
    exists v :: v in f.published && f.published[v].app == app && f.published[v].channel == ask.channel
                && PlatformAllows(rules, f.published[v].constraint, ask.platform)
  }

  /** Whether the app is granted decides whether this audience sees it. */
  ghost predicate GrantShows(rules: Rules, f: Face, ask: Ask, app: string)
  {
    app in f.listings && f.listings[app].visibility != "public" && Offered(rules, f, ask, app)
  }

  /** Between the grants of a request and other grants, some app changed that shows. */
  ghost predicate ChangeShows(rules: Rules, f: Face, ask: Ask, ids: set<string>)
  {
    exists app :: (app in ask.ids) != (app in ids) && GrantShows(rules, f, ask, app)
  }

  /** A selection made for some grants is right for others exactly when no app whose grant changed is
      private with a release that could be offered; if one is, every selection right for the other
      grants lists different apps. */
  lemma GrantChangesThatShow(rules: Rules, f: Face, ask: Ask, ids: set<string>, pick: map<string, string>)
    requires IsPick(rules, f, ask, pick)
    ensures IsPick(rules, f, ask.(ids := ids), pick) <==> !ChangeShows(rules, f, ask, ids)
    ensures ChangeShows(rules, f, ask, ids) ==> forall q :: IsPick(rules, f, ask.(ids := ids), q) ==> q.Keys != pick.Keys
  {
    if ChangeShows(rules, f, ask, ids) {
      var app :| (app in ask.ids) != (app in ids) && GrantShows(rules, f, ask, app);
      ListedWhenGranted(rules, f, ask, pick, app);
      forall q | IsPick(rules, f, ask.(ids := ids), q) ensures q.Keys != pick.Keys {
        ListedWhenGranted(rules, f, ask.(ids := ids), q, app);
      }
    } else {
      HiddenChangesAgree(rules, f, ask, ids);
      AgreePick(rules, f, ask, f, ask.(ids := ids), pick);
    }
  }

  lemma ListedWhenGranted(rules: Rules, f: Face, ask: Ask, pick: map<string, string>, app: string)
    requires IsPick(rules, f, ask, pick) && GrantShows(rules, f, ask, app)
    ensures app in pick <==> app in ask.ids
  {
    var v :| v in f.published && f.published[v].app == app && f.published[v].channel == ask.channel
             && PlatformAllows(rules, f.published[v].constraint, ask.platform);
    if app in ask.ids { assert Eligible(rules, f, ask, v); }
    if app in pick { assert IsWinner(rules, f, ask, app, pick[app]); }
  }

  lemma HiddenChangesAgree(rules: Rules, f: Face, ask: Ask, ids: set<string>)
    requires !ChangeShows(rules, f, ask, ids)
    ensures Agree(rules, f, ask, f, ask.(ids := ids))
  {
    forall v ensures Eligible(rules, f, ask, v) <==> Eligible(rules, f, ask.(ids := ids), v) {
      if Eligible(rules, f, ask, v) != Eligible(rules, f, ask.(ids := ids), v) {
        assert GrantShows(rules, f, ask, f.published[v].app);
      }
    }
  }

  /** Different entries are encoded as different texts, as any JSON encoder does. */
  ghost predicate EncodesApart(rules: Rules)
  {
    forall x, y :: rules.encode(x) == rules.encode(y) ==> x == y
  }

  /** The same of documents: a build for some grants is a build for others if no change shows, and
      only then. */
  lemma BuildsForOtherGrants(rules: Rules, signer: Signer, f: Face, ask: Ask, ids: set<string>, platform: string,
                             revision: nat, snapshot: Snapshot)
    requires IsBuild(rules, signer, f, ask, platform, revision, snapshot)
    ensures !ChangeShows(rules, f, ask, ids) ==> IsBuild(rules, signer, f, ask.(ids := ids), platform, revision, snapshot)
    ensures EncodesApart(rules) && ChangeShows(rules, f, ask, ids) ==>
              forall other :: !IsBuild(rules, other, f, ask.(ids := ids), platform, revision, snapshot)
  {
    if !ChangeShows(rules, f, ask, ids) {
      HiddenChangesAgree(rules, f, ask, ids);
      AgreeingStatesBuildAlike(rules, signer, f, ask, f, ask.(ids := ids), platform, revision, snapshot);
    } else if EncodesApart(rules) {
      forall other ensures !IsBuild(rules, other, f, ask.(ids := ids), platform, revision, snapshot) {
        if IsBuild(rules, other, f, ask.(ids := ids), platform, revision, snapshot) {
          OtherGrantsOtherDocument(rules, signer, other, f, ask, ids, platform, revision, snapshot);
          assert false;
        }
      }
    }
  }

  /** No document is a build for two sets of grants between which something shows, whatever the keys. */
  lemma OtherGrantsOtherDocument(rules: Rules, signer: Signer, other: Signer, f: Face, ask: Ask, ids: set<string>, platform: string,
                                 revision: nat, snapshot: Snapshot)
    requires EncodesApart(rules) && IsBuild(rules, signer, f, ask, platform, revision, snapshot)
    requires IsBuild(rules, other, f, ask.(ids := ids), platform, revision, snapshot)
    ensures !ChangeShows(rules, f, ask, ids)
  {
    var p, m :| Builds(rules, signer, f, ask, platform, revision, p, m, snapshot);
    var q, n :| Builds(rules, other, f, ask.(ids := ids), platform, revision, q, n, snapshot);
    SameDocumentSameApps(rules, signer, other, f, p, m, q, n, revision);
    GrantChangesThatShow(rules, f, ask, ids, p);
  }

  lemma SameDocumentSameApps(rules: Rules, signer: Signer, other: Signer, f: Face, p: map<string, string>, m: Time,
                             q: map<string, string>, n: Time, revision: nat)
    requires EncodesApart(rules) && Covers(f, p) && Covers(f, q)
    requires Assemble(rules, signer, f, p, f.texts, m, revision) == Assemble(rules, other, f, q, f.texts, n, revision)
    ensures p.Keys == q.Keys
  {
    var e, d := EntriesOf(f, p, f.texts), EntriesOf(f, q, f.texts);
    assert e == d;
    EntryMembership(f, p, f.texts);
    EntryMembership(f, q, f.texts);
    forall a ensures a in p <==> a in q {
      if a in p { assert EntryOf(f, a, p[a], TextsOf(f.texts, a)) in d; }
      if a in q { assert EntryOf(f, a, q[a], TextsOf(f.texts, a)) in e; }
    }
  }

  // --- generated_at -----------------------------------------------------------

  /** g is f after release v was published, or published again, at `now`: the row is otherwise
      what it was if it had been published before, and nothing was published after `now`. */
  ghost predicate PublishedAt(f: Face, g: Face, v: string, now: Time)
  {
    && v in g.published && g.published[v].publishedAt == Some(now) && now >= EPOCH
    && g.published == f.published[v := g.published[v]]
    && (v in f.published ==> g.published[v] == f.published[v].(note := g.published[v].note, publishedAt := Some(now)))
    && g.listings == f.listings && g.texts == f.texts
    && (forall u :: u in f.published && f.published[u].publishedAt.Some? ==> f.published[u].publishedAt.value <= now)
  }

  /** g has the published releases of f, and every app that was public there. */
  ghost predicate ShowsNoLess(f: Face, g: Face)
  {
    g.published == f.published && forall a :: PublicIn(f, a) || a in f.listings ==> a in g.listings && (PublicIn(f, a) ==> PublicIn(g, a))
  }

  /** generated_at never moves backwards when a release is published or published again, nor when
      apps are edited without closing them, nor when more is granted, even if that changes which of several equally ranked releases is offered. */
  lemma GeneratedAtNeverMovesBack(rules: Rules, f: Face, ask: Ask, p: map<string, string>, m: Time,
                                  g: Face, bsk: Ask, q: map<string, string>, n: Time, v: string, now: Time)
    requires Dated(f) && Dated(g) && (ShowsNoLess(f, g) || PublishedAt(f, g, v, now))
    requires ask.channel == bsk.channel && ask.platform == bsk.platform && ask.ids <= bsk.ids
    requires IsPick(rules, f, ask, p) && IsNewest(f, p, m)
    requires IsPick(rules, g, bsk, q) && IsNewest(g, q, n)
    ensures Served(m) <= Served(n)
    ensures p.Keys <= q.Keys
  {
    forall a | a in p
      ensures a in q && NotOlder(f.published[p[a]].publishedAt, g.published[q[a]].publishedAt)
    {
      WinnerNotOlder(rules, f, ask, g, bsk, p, q, v, now, a);
    }
    NewestMonotone(f, p, m, g, q, n);
    NewestSincePublishing(g, q, n);
  }

  lemma NewestSincePublishing(f: Face, pick: map<string, string>, newest: Time)
    requires Dated(f) && IsNewest(f, pick, newest)
    ensures newest == 0 || newest >= EPOCH
  {
  }

  lemma WinnerNotOlder(rules: Rules, f: Face, ask: Ask, g: Face, bsk: Ask, p: map<string, string>, q: map<string, string>,
                       v: string, now: Time, a: string)
    requires Dated(f) && Dated(g) && (ShowsNoLess(f, g) || PublishedAt(f, g, v, now))
    requires ask.channel == bsk.channel && ask.platform == bsk.platform && ask.ids <= bsk.ids
    requires IsPick(rules, f, ask, p) && IsPick(rules, g, bsk, q) && a in p
    ensures p[a] in f.published && a in q && q[a] in g.published
    ensures NotOlder(f.published[p[a]].publishedAt, g.published[q[a]].publishedAt)
  {
    var w := p[a];
    assert IsWinner(rules, f, ask, a, w);
    assert Eligible(rules, g, bsk, w);
    var u := q[a];
    assert IsWinner(rules, g, bsk, a, u);
    if ShowsNoLess(f, g) || u != v {
      assert Eligible(rules, f, ask, u);
      assert !Beats(f, u, w) && !Beats(g, w, u);
      Trichotomy(f.published[u].number, f.published[w].number);
    }
  }

  // --- releases and their pre-releases ----------------------------------------

  /** A catalogue offers no pre-release of a version whose release could be offered, and of two releases
      that could be offered the one with the greater numbers. */
  lemma ReleasesComeBeforePreReleases(rules: Rules, f: Face, ask: Ask, pick: map<string, string>, v: string)
    requires IsPick(rules, f, ask, pick) && Eligible(rules, f, ask, v)
    ensures f.published[v].app in pick && pick[f.published[v].app] in f.published
    ensures var (w, n) := (f.published[pick[f.published[v].app]].number, f.published[v].number);
      && w.major >= n.major && (w.major == n.major ==> w.minor >= n.minor)
      && (w.major == n.major && w.minor == n.minor ==> w.patch >= n.patch)
      && (w.major == n.major && w.minor == n.minor && w.patch == n.patch && n.pre == [] ==> w.pre == [])
  {
    var app := f.published[v].app;
    assert IsWinner(rules, f, ask, app, pick[app]);
    assert !Beats(f, v, pick[app]);
    PrecedenceIsSection11(f.published[pick[app]].number, f.published[v].number);
  }
}

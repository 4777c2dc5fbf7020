/** What a signed document says, column by column. This is a second account of the builder's answers,
    written on the tables alone and without the builder's own vocabulary; the theorem of this module
    is that the two agree. */
module Documents {
  import opened Basics
  import opened Semver
  import opened Tables
  import opened Wire
  import opened Catalogue
  import opened CatalogueLaws
  import opened StampLaws
  import RunLaws
  import Lex

  // --- the second account -----------------------------------------------------

  /** The version can be offered: published on the channel, of an app that is public or granted, and
      the caller's platform is within its constraint, if it has one. */
  predicate Offerable(rules: Rules, s: Store, ask: Ask, app: string, v: string)
  {
    && v in s.releases && s.releases[v].app == app && s.releases[v].status == Published && s.releases[v].channel == ask.channel
    && app in s.apps && (s.apps[app].listing.visibility == "public" || app in ask.ids)
    && (s.releases[v].constraint != "" ==>
          rules.constraint(s.releases[v].constraint).Some? && rules.constraint(s.releases[v].constraint).value(ask.platform))
  }

  /** u was published before v; a version without a time comes after those with one. */
  predicate PublishedBefore(u: Release, v: Release)
  {
    u.publishedAt.Some? && (v.publishedAt.Some? ==> u.publishedAt.value < v.publishedAt.value)
  }

  /** No version of the app that can be offered is higher, and none as high was published before. */
  ghost predicate Best(rules: Rules, s: Store, ask: Ask, app: string, v: string)
  {
    && Offerable(rules, s, ask, app, v)
    && forall u :: Offerable(rules, s, ask, app, u) ==>
         && !Lower(s.releases[v].number, s.releases[u].number)
         && (PublishedBefore(s.releases[u], s.releases[v]) ==> Lower(s.releases[u].number, s.releases[v].number))
  }

  /** The entry holds the app's columns and translations and the version's number and manifest. */
  predicate Shows(s: Store, e: Entry, v: string)
  {
    && v in s.releases && e.id in s.apps && e.listing == s.apps[e.id].listing
    && e.version == s.releases[v].number && e.manifest == s.releases[v].manifest
    && e.translations == if e.id in s.texts then s.texts[e.id] else map[]
  }

  ghost predicate ShowsBest(rules: Rules, s: Store, ask: Ask, e: Entry)
  {
    exists v :: Best(rules, s, ask, e.id, v) && Shows(s, e, v)
  }

  /** In byte order of ids, one entry for every app with a version to offer, showing a best one. */
  ghost predicate Lists(rules: Rules, s: Store, ask: Ask, entries: seq<Entry>)
  {
    && (forall i, j :: 0 <= i < j < |entries| ==> Lex.Less(entries[i].id, entries[j].id))
    && (forall i :: 0 <= i < |entries| ==> ShowsBest(rules, s, ask, entries[i]))
    && (forall app, v :: Offerable(rules, s, ask, app, v) ==> exists i :: 0 <= i < |entries| && entries[i].id == app)
  }

  /** What the document wraps the entries in. */
  ghost predicate Carries(rules: Rules, signer: Signer, entries: seq<Entry>, snapshot: Snapshot)
  {
    var d := snapshot.document;
    && d.apps == rules.encode(entries) && d.keyId == signer.keyId && d.generatedAt == rules.stamp(snapshot.generatedAt / 1000000)
    && d.signature == rules.sign(signer.private, d.generatedAt + "\n" + d.apps) && snapshot.etag == rules.etag(d)
  }

  ghost predicate Validated(rules: Rules, entries: seq<Entry>, platform: string)
  {
    exists apps :: multiset(apps) == multiset(entries) && rules.catalogOk(apps, platform)
  }

  /** A best version of a listed app was published then. */
  ghost predicate ListedAt(rules: Rules, s: Store, ask: Ask, entries: seq<Entry>, at: Time)
  {
    exists i, v :: 0 <= i < |entries| && Best(rules, s, ask, entries[i].id, v) && s.releases[v].publishedAt == Some(at)
  }

  /** The newest publication of the entries; midnight of 1 January 1970 if there is none. */
  ghost predicate DatedBy(rules: Rules, s: Store, ask: Ask, entries: seq<Entry>, at: Time)
  {
    if exists t: Time :: t > 0 && ListedAt(rules, s, ask, entries, t)
    then ListedAt(rules, s, ask, entries, at) && forall t: Time :: ListedAt(rules, s, ask, entries, t) ==> t <= at
    else at == 62135596800 * 1000000
  }

  /** The document over these entries. */
  ghost predicate Says(rules: Rules, signer: Signer, s: Store, ask: Ask, platform: string, entries: seq<Entry>, snapshot: Snapshot)
  {
    && Lists(rules, s, ask, entries) && Validated(rules, entries, platform) && Carries(rules, signer, entries, snapshot)
    && DatedBy(rules, s, ask, entries, snapshot.generatedAt)
  }

  // --- the two accounts agree -------------------------------------------------

  lemma EligibleIsOfferable(rules: Rules, s: Store, ask: Ask, v: string)
    ensures Eligible(rules, FaceOf(s), ask, v) <==> v in s.releases && Offerable(rules, s, ask, s.releases[v].app, v)
    ensures v in FaceOf(s).published ==> v in s.releases && FaceOf(s).published[v] == s.releases[v]
  {
  }

  lemma WinnerIsBest(rules: Rules, s: Store, ask: Ask, app: string, v: string)
    ensures IsWinner(rules, FaceOf(s), ask, app, v) <==> Best(rules, s, ask, app, v)
  {
    var f := FaceOf(s);
    EligibleIsOfferable(rules, s, ask, v);
    if Eligible(rules, f, ask, v) {
      forall u | Eligible(rules, f, ask, u) || Offerable(rules, s, ask, app, u)
        ensures Beats(f, u, v) <==>
                  || Lower(s.releases[v].number, s.releases[u].number)
                  || (PublishedBefore(s.releases[u], s.releases[v]) && !Lower(s.releases[u].number, s.releases[v].number))
        ensures Eligible(rules, f, ask, u) && f.published[u].app == app <==> Offerable(rules, s, ask, app, u)
      {
        EligibleIsOfferable(rules, s, ask, u);
        Trichotomy(s.releases[u].number, s.releases[v].number);
      }
    }
  }

  lemma EntryShows(s: Store, app: string, v: string)
    requires app in s.apps && v in FaceOf(s).published
    ensures Shows(s, EntryOf(FaceOf(s), app, v, TextsOf(s.texts, app)), v)
  {
  }

  lemma PickLists(rules: Rules, s: Store, ask: Ask, pick: map<string, string>)
    requires IsPick(rules, FaceOf(s), ask, pick) && Covers(FaceOf(s), pick)
    ensures Lists(rules, s, ask, EntriesOf(FaceOf(s), pick, s.texts))
  {
    var entries := EntriesOf(FaceOf(s), pick, s.texts);
    EntriesOfPick(FaceOf(s), pick, s.texts);
    forall i | 0 <= i < |entries| ensures ShowsBest(rules, s, ask, entries[i]) {
      PickedShows(rules, s, ask, pick, entries[i]);
    }
    forall app, v | Offerable(rules, s, ask, app, v) ensures exists i :: 0 <= i < |entries| && entries[i].id == app {
      EligibleIsOfferable(rules, s, ask, v);
    }
  }

  lemma PickedShows(rules: Rules, s: Store, ask: Ask, pick: map<string, string>, e: Entry)
    requires IsPick(rules, FaceOf(s), ask, pick) && Covers(FaceOf(s), pick) && e.id in pick
    requires e == EntryOf(FaceOf(s), e.id, pick[e.id], TextsOf(s.texts, e.id))
    ensures Best(rules, s, ask, e.id, pick[e.id]) && Shows(s, e, pick[e.id])
  {
    WinnerIsBest(rules, s, ask, e.id, pick[e.id]);
    EntryShows(s, e.id, pick[e.id]);
  }

  ghost predicate ListedAs(rules: Rules, s: Store, ask: Ask, entries: seq<Entry>, app: string, v: string)
  {
    exists i :: 0 <= i < |entries| && entries[i].id == app && Best(rules, s, ask, app, v) && Shows(s, entries[i], v)
  }

  lemma EveryIdIsListed(rules: Rules, s: Store, ask: Ask, entries: seq<Entry>, i: nat)
    requires Lists(rules, s, ask, entries) && i < |entries|
    ensures exists v :: ListedAs(rules, s, ask, entries, entries[i].id, v)
  {
    assert ShowsBest(rules, s, ask, entries[i]);
    var v :| Best(rules, s, ask, entries[i].id, v) && Shows(s, entries[i], v);
    assert ListedAs(rules, s, ask, entries, entries[i].id, v);
  }

  lemma ListsPick(rules: Rules, s: Store, ask: Ask, entries: seq<Entry>) returns (pick: map<string, string>)
    requires Lists(rules, s, ask, entries)
    ensures IsPick(rules, FaceOf(s), ask, pick) && Covers(FaceOf(s), pick) && EntriesOf(FaceOf(s), pick, s.texts) == entries
  {
    var ids := set i | 0 <= i < |entries| :: entries[i].id;
    forall app | app in ids ensures exists v :: ListedAs(rules, s, ask, entries, app, v) {
      var i :| 0 <= i < |entries| && entries[i].id == app;
      EveryIdIsListed(rules, s, ask, entries, i);
    }
    pick := map app | app in ids :: var v :| ListedAs(rules, s, ask, entries, app, v); v;
    ListedIsPick(rules, s, ask, entries, pick);
    SameEntries(rules, s, ask, entries, pick);
  }

  lemma ListedIsPick(rules: Rules, s: Store, ask: Ask, entries: seq<Entry>, pick: map<string, string>)
    requires Lists(rules, s, ask, entries)
    requires forall app :: app in pick <==> exists i :: 0 <= i < |entries| && entries[i].id == app
    requires forall app :: app in pick ==> ListedAs(rules, s, ask, entries, app, pick[app])
    ensures IsPick(rules, FaceOf(s), ask, pick) && Covers(FaceOf(s), pick)
  {
    forall app | app in pick ensures IsWinner(rules, FaceOf(s), ask, app, pick[app]) {
      WinnerIsBest(rules, s, ask, app, pick[app]);
    }
    forall v | Eligible(rules, FaceOf(s), ask, v) ensures FaceOf(s).published[v].app in pick {
      EligibleIsOfferable(rules, s, ask, v);
    }
    PicksCover(rules, FaceOf(s), ask, pick);
  }

  lemma SameEntries(rules: Rules, s: Store, ask: Ask, entries: seq<Entry>, pick: map<string, string>)
    requires Lists(rules, s, ask, entries) && IsPick(rules, FaceOf(s), ask, pick) && Covers(FaceOf(s), pick)
    requires forall app :: app in pick <==> exists i :: 0 <= i < |entries| && entries[i].id == app
    requires forall app :: app in pick ==> ListedAs(rules, s, ask, entries, app, pick[app])
    ensures EntriesOf(FaceOf(s), pick, s.texts) == entries
  {
    forall e | e in entries ensures e.id in pick && e == EntryOf(FaceOf(s), e.id, pick[e.id], TextsOf(s.texts, e.id)) {
      var i :| 0 <= i < |entries| && entries[i] == e;
      OnlyEntry(rules, s, ask, entries, i, pick[e.id]);
    }
    forall app | app in pick ensures exists e :: e in entries && e.id == app {
      var i :| 0 <= i < |entries| && entries[i].id == app;
      assert entries[i] in entries;
    }
    SortedEntriesUnique(FaceOf(s), pick, s.texts, entries);
  }

  /** Ids are told apart, so an entry shows the version its app is listed with. */
  lemma OnlyEntry(rules: Rules, s: Store, ask: Ask, entries: seq<Entry>, i: nat, v: string)
    requires Lists(rules, s, ask, entries) && i < |entries| && ListedAs(rules, s, ask, entries, entries[i].id, v)
    ensures Shows(s, entries[i], v) && v in FaceOf(s).published && entries[i].id in s.apps
    ensures entries[i] == EntryOf(FaceOf(s), entries[i].id, v, TextsOf(s.texts, entries[i].id))
  {
    var j :| 0 <= j < |entries| && entries[j].id == entries[i].id && Shows(s, entries[j], v);
    Lex.Total(entries[i].id, entries[i].id);
    assert i == j;
  }

  // --- the time stamp ---------------------------------------------------------

  lemma PickedTime(rules: Rules, s: Store, ask: Ask, pick: map<string, string>, app: string, v: string)
    requires IsPick(rules, FaceOf(s), ask, pick) && app in pick && Best(rules, s, ask, app, v)
    ensures pick[app] in s.releases && s.releases[v].publishedAt == s.releases[pick[app]].publishedAt
  {
    WinnerIsBest(rules, s, ask, app, v);
    WinnersTie(rules, FaceOf(s), ask, app, v, pick[app]);
  }

  ghost predicate PickedAt(f: Face, pick: map<string, string>, at: Time)
  {
    exists app :: app in pick && pick[app] in f.published && f.published[pick[app]].publishedAt == Some(at)
  }

  lemma ListedTimeIsPicked(rules: Rules, s: Store, ask: Ask, pick: map<string, string>, entries: seq<Entry>, at: Time)
    requires IsPick(rules, FaceOf(s), ask, pick) && ListedAt(rules, s, ask, entries, at) && forall e :: e in entries ==> e.id in pick
    ensures PickedAt(FaceOf(s), pick, at)
  {
    var i, v :| 0 <= i < |entries| && Best(rules, s, ask, entries[i].id, v) && s.releases[v].publishedAt == Some(at);
    var app := entries[i].id;
    assert entries[i] in entries;
    PickedTime(rules, s, ask, pick, app, v);
    assert IsWinner(rules, FaceOf(s), ask, app, pick[app]);
  }

  lemma PickedTimeIsListed(rules: Rules, s: Store, ask: Ask, pick: map<string, string>, entries: seq<Entry>, at: Time)
    requires IsPick(rules, FaceOf(s), ask, pick) && PickedAt(FaceOf(s), pick, at)
    requires forall app :: app in pick ==> exists i :: 0 <= i < |entries| && entries[i].id == app
    ensures ListedAt(rules, s, ask, entries, at)
  {
    var app :| app in pick && FaceOf(s).published[pick[app]].publishedAt == Some(at);
    WinnerIsBest(rules, s, ask, app, pick[app]);
    var i :| 0 <= i < |entries| && entries[i].id == app;
    assert Best(rules, s, ask, entries[i].id, pick[app]);
  }

  lemma EntriesOfPick(f: Face, pick: map<string, string>, texts: map<string, map<string, Text>>)
    requires Covers(f, pick)
    ensures forall e :: e in EntriesOf(f, pick, texts) ==> e.id in pick
    ensures forall app :: app in pick ==> exists i :: 0 <= i < |EntriesOf(f, pick, texts)| && EntriesOf(f, pick, texts)[i].id == app
  {
    forall app | app in pick ensures exists i :: 0 <= i < |EntriesOf(f, pick, texts)| && EntriesOf(f, pick, texts)[i].id == app {
      var ids := Lex.Sorted(pick.Keys);
      assert app in ids;
      var i :| 0 <= i < |ids| && ids[i] == app;
      assert EntriesOf(f, pick, texts)[i].id == app;
    }
  }

  lemma ListedTimes(rules: Rules, s: Store, ask: Ask, pick: map<string, string>, entries: seq<Entry>)
    requires IsPick(rules, FaceOf(s), ask, pick) && Covers(FaceOf(s), pick) && entries == EntriesOf(FaceOf(s), pick, s.texts)
    ensures forall t: Time :: ListedAt(rules, s, ask, entries, t) <==> PickedAt(FaceOf(s), pick, t)
  {
    EntriesOfPick(FaceOf(s), pick, s.texts);
    forall t: Time ensures ListedAt(rules, s, ask, entries, t) <==> PickedAt(FaceOf(s), pick, t) {
      if ListedAt(rules, s, ask, entries, t) { ListedTimeIsPicked(rules, s, ask, pick, entries, t); }
      if PickedAt(FaceOf(s), pick, t) { PickedTimeIsListed(rules, s, ask, pick, entries, t); }
    }
  }

  lemma NewestIsPicked(f: Face, pick: map<string, string>, newest: Time)
    requires NewestShown(f, pick, newest)
    ensures forall t: Time :: PickedAt(f, pick, t) ==> t <= newest
    ensures newest == 0 || PickedAt(f, pick, newest)
  {
  }

  lemma ShownIsDatedBy(rules: Rules, s: Store, ask: Ask, pick: map<string, string>, newest: Time)
    requires IsPick(rules, FaceOf(s), ask, pick) && Covers(FaceOf(s), pick) && NewestShown(FaceOf(s), pick, newest)
    ensures DatedBy(rules, s, ask, EntriesOf(FaceOf(s), pick, s.texts), Served(newest))
  {
    ListedTimes(rules, s, ask, pick, EntriesOf(FaceOf(s), pick, s.texts));
    NewestIsPicked(FaceOf(s), pick, newest);
  }

  lemma OneDate(rules: Rules, s: Store, ask: Ask, entries: seq<Entry>, x: Time, y: Time)
    requires DatedBy(rules, s, ask, entries, x) && DatedBy(rules, s, ask, entries, y)
    ensures x == y
  {
  }

  // --- the theorem ------------------------------------------------------------

  /** Every build says what the tables say, and whatever says that is a build. Only the time stamp needs
      the tables not to be misdated, and dated tables never are. */
  lemma BuildsSayWhatTheTablesSay(rules: Rules, signer: Signer, s: Store, ask: Ask, platform: string, snapshot: Snapshot)
    requires !Misdated(rules, FaceOf(s), ask)
    ensures IsBuild(rules, signer, FaceOf(s), ask, platform, s.revision, snapshot) <==>
              snapshot.revision == s.revision && exists entries :: Says(rules, signer, s, ask, platform, entries, snapshot)
  {
    if IsBuild(rules, signer, FaceOf(s), ask, platform, s.revision, snapshot) {
      var pick, newest :| Builds(rules, signer, FaceOf(s), ask, platform, s.revision, pick, newest, snapshot);
      BuiltSays(rules, signer, s, ask, platform, pick, newest, snapshot);
    }
    if entries :| snapshot.revision == s.revision && Says(rules, signer, s, ask, platform, entries, snapshot) {
      SaidIsBuilt(rules, signer, s, ask, platform, entries, snapshot);
    }
  }

  /** What does not turn on times holds of misdated tables too. */
  lemma BuildsListWhatTheTablesList(rules: Rules, signer: Signer, s: Store, ask: Ask, platform: string, snapshot: Snapshot)
    requires IsBuild(rules, signer, FaceOf(s), ask, platform, s.revision, snapshot)
    ensures snapshot.revision == s.revision
    ensures exists entries :: Lists(rules, s, ask, entries) && Validated(rules, entries, platform) && Carries(rules, signer, entries, snapshot)
  {
    var pick, newest :| Builds(rules, signer, FaceOf(s), ask, platform, s.revision, pick, newest, snapshot);
    PickLists(rules, s, ask, pick);
    assert Carries(rules, signer, EntriesOf(FaceOf(s), pick, s.texts), snapshot);
  }

  lemma BuiltSays(rules: Rules, signer: Signer, s: Store, ask: Ask, platform: string, pick: map<string, string>, newest: Time, snapshot: Snapshot)
    requires Builds(rules, signer, FaceOf(s), ask, platform, s.revision, pick, newest, snapshot) && !Misdated(rules, FaceOf(s), ask)
    ensures snapshot.revision == s.revision && exists entries :: Says(rules, signer, s, ask, platform, entries, snapshot)
  {
    var entries := EntriesOf(FaceOf(s), pick, s.texts);
    PickLists(rules, s, ask, pick);
    StampIsShownExactly(rules, FaceOf(s), ask, pick, newest);
    ShownIsDatedBy(rules, s, ask, pick, newest);
    assert Carries(rules, signer, entries, snapshot);
    assert Says(rules, signer, s, ask, platform, entries, snapshot);
  }

  lemma SaidIsBuilt(rules: Rules, signer: Signer, s: Store, ask: Ask, platform: string, entries: seq<Entry>, snapshot: Snapshot)
    requires snapshot.revision == s.revision && Says(rules, signer, s, ask, platform, entries, snapshot) && !Misdated(rules, FaceOf(s), ask)
    ensures IsBuild(rules, signer, FaceOf(s), ask, platform, s.revision, snapshot)
  {
    var pick := ListsPick(rules, s, ask, entries);
    RunLaws.SomeStamp(rules, FaceOf(s), ask);
    var newest :| IsStamp(rules, FaceOf(s), ask, newest);
    StampIsShownExactly(rules, FaceOf(s), ask, pick, newest);
    ShownIsDatedBy(rules, s, ask, pick, newest);
    OneDate(rules, s, ask, entries, snapshot.generatedAt, Served(newest));
    assert snapshot == Assemble(rules, signer, FaceOf(s), pick, s.texts, newest, s.revision);
    assert Builds(rules, signer, FaceOf(s), ask, platform, s.revision, pick, newest, snapshot);
  }

  lemma DatedTablesAreNotMisdated(rules: Rules, f: Face, ask: Ask)
    requires Dated(f)
    ensures !Misdated(rules, f, ask)
  {
    forall a ensures !Overtaken(rules, f, ask, a) {}
  }
}

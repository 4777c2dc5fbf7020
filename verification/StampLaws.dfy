/** When generated_at is what it is meant to be, if some published rows carry no publication time. */
module StampLaws {
  import opened Basics
  import opened Semver
  import opened Tables
  import opened Wire
  import opened Catalogue
  import opened CatalogueLaws
  import opened Review
  import opened Importer

  /** What the code's comment promises: `newest` is the newest publication among the releases in the
      document, zero if none of them carries a time. */
  ghost predicate NewestShown(f: Face, pick: map<string, string>, newest: Time)
  {
    && (forall a :: a in pick ==> pick[a] in f.published)
    && (forall a :: a in pick && f.published[pick[a]].publishedAt.Some? ==> f.published[pick[a]].publishedAt.value <= newest)
    && (newest == 0 || exists a :: a in pick && f.published[pick[a]].publishedAt == Some(newest))
  }

  /** A dated survivor is what its app offers among dated releases, up to a tie. */
  lemma DatedSurvivor(rules: Rules, f: Face, d: Face, ask: Ask, pick: map<string, string>, dated: map<string, string>, a: string)
    requires IsDatedPart(f, d) && IsPick(rules, f, ask, pick) && IsPick(rules, d, ask, dated)
    requires a in pick && pick[a] in d.published
    ensures a in dated && dated[a] in d.published && d.published[dated[a]].publishedAt == d.published[pick[a]].publishedAt
  {
    assert IsWinner(rules, f, ask, a, pick[a]);
    assert Eligible(rules, d, ask, pick[a]);
    assert IsWinner(rules, d, ask, a, dated[a]);
    forall u | Eligible(rules, d, ask, u) && d.published[u].app == a ensures !Beats(d, u, pick[a]) {
      assert Eligible(rules, f, ask, u);
    }
    assert IsWinner(rules, d, ask, a, pick[a]);
    WinnersTie(rules, d, ask, a, pick[a], dated[a]);
  }

  /** Some app attains the stamp with a release that is still the one offered. */
  ghost predicate StampSurvives(f: Face, d: Face, pick: map<string, string>, dated: map<string, string>, newest: Time)
  {
    exists a :: a in dated && dated[a] in d.published && d.published[dated[a]].publishedAt == Some(newest)
                && a in pick && pick[a] in f.published && f.published[pick[a]].publishedAt.Some?
  }

  lemma ShownIfSurviving(rules: Rules, f: Face, d: Face, ask: Ask, pick: map<string, string>, dated: map<string, string>, newest: Time)
    requires IsDatedPart(f, d) && IsPick(rules, f, ask, pick) && IsPick(rules, d, ask, dated) && IsNewest(d, dated, newest)
    ensures NewestShown(f, pick, newest) <==> newest == 0 || StampSurvives(f, d, pick, dated, newest)
  {
    PicksCover(rules, f, ask, pick);
    PicksCover(rules, d, ask, dated);
    forall a | a in pick && f.published[pick[a]].publishedAt.Some?
      ensures a in dated && d.published[dated[a]].publishedAt == f.published[pick[a]].publishedAt
    {
      DatedSurvivor(rules, f, d, ask, pick, dated, a);
    }
  }

  // --- the condition on the tables --------------------------------------------

  /** The highest dated release of the app that could be offered was published at m. */
  ghost predicate Attains(rules: Rules, d: Face, ask: Ask, a: string, m: Time)
  {
    exists v :: IsWinner(rules, d, ask, a, v) && d.published[v].publishedAt == Some(m)
  }

  /** No app's highest dated release was published after m, and some app's at m. */
  ghost predicate IsLatest(rules: Rules, d: Face, ask: Ask, m: Time)
  {
    && (exists a :: Attains(rules, d, ask, a, m))
    && (forall a, v :: IsWinner(rules, d, ask, a, v) ==> NotOlder(d.published[v].publishedAt, Some(m)))
  }

  /** An undated release of the app ranks strictly above all its dated ones. */
  ghost predicate Overtakes(rules: Rules, f: Face, ask: Ask, a: string, u: string)
  {
    && Eligible(rules, f, ask, u) && f.published[u].app == a && f.published[u].publishedAt.None?
    && forall w :: Eligible(rules, f, ask, w) && f.published[w].app == a && f.published[w].publishedAt.Some?
         ==> Newer(f.published[u].number, f.published[w].number)
  }

  ghost predicate Overtaken(rules: Rules, f: Face, ask: Ask, a: string) { exists u :: Overtakes(rules, f, ask, a, u) }

  /** Among the highest dated releases of all apps there is a latest publication, and every app that
      attains it is overtaken by an undated release. */
  ghost predicate Misdated(rules: Rules, f: Face, ask: Ask)
  {
    exists m :: m > 0 && IsLatest(rules, DatedOf(f), ask, m) && AllOvertaken(rules, f, DatedOf(f), ask, m)
  }

  ghost predicate AllOvertaken(rules: Rules, f: Face, d: Face, ask: Ask, m: Time)
  {
    forall a :: Attains(rules, d, ask, a, m) ==> Overtaken(rules, f, ask, a)
  }

  /** What the selection offers for an app is undated exactly when it is overtaken. */
  lemma UndatedIfOvertaken(rules: Rules, f: Face, ask: Ask, pick: map<string, string>, a: string)
    requires IsPick(rules, f, ask, pick) && a in pick
    ensures pick[a] in f.published && (f.published[pick[a]].publishedAt.None? <==> Overtaken(rules, f, ask, a))
  {
    assert IsWinner(rules, f, ask, a, pick[a]);
    if f.published[pick[a]].publishedAt.None? {
      forall w | Eligible(rules, f, ask, w) && f.published[w].app == a && f.published[w].publishedAt.Some?
        ensures Newer(f.published[pick[a]].number, f.published[w].number)
      {
        assert !Beats(f, w, pick[a]);
        Trichotomy(f.published[w].number, f.published[pick[a]].number);
      }
      assert Overtakes(rules, f, ask, a, pick[a]);
    }
  }

  lemma AttainsIfPicked(rules: Rules, d: Face, ask: Ask, dated: map<string, string>, a: string, m: Time)
    requires IsPick(rules, d, ask, dated)
    ensures Attains(rules, d, ask, a, m) <==> a in dated && dated[a] in d.published && d.published[dated[a]].publishedAt == Some(m)
  {
    if v :| IsWinner(rules, d, ask, a, v) && d.published[v].publishedAt == Some(m) {
      assert Eligible(rules, d, ask, v);
      WinnersTie(rules, d, ask, a, v, dated[a]);
    }
    if a in dated { assert IsWinner(rules, d, ask, a, dated[a]); }
  }

  lemma LatestIsTheStamp(rules: Rules, d: Face, ask: Ask, dated: map<string, string>, newest: Time, m: Time)
    requires IsPick(rules, d, ask, dated) && IsNewest(d, dated, newest) && m > 0
    requires forall v :: v in d.published ==> d.published[v].publishedAt.Some?
    ensures IsLatest(rules, d, ask, m) <==> newest == m
  {
    forall a ensures Attains(rules, d, ask, a, m) <==> a in dated && dated[a] in d.published && d.published[dated[a]].publishedAt == Some(m) {
      AttainsIfPicked(rules, d, ask, dated, a, m);
    }
    if newest == m { StampIsLatest(rules, d, ask, dated, m); }
    if IsLatest(rules, d, ask, m) { LatestBounds(rules, d, ask, dated, newest, m); }
  }

  lemma StampIsLatest(rules: Rules, d: Face, ask: Ask, dated: map<string, string>, m: Time)
    requires IsPick(rules, d, ask, dated) && IsNewest(d, dated, m) && m > 0
    ensures IsLatest(rules, d, ask, m)
  {
    var b :| b in dated && d.published[dated[b]].publishedAt == Some(m);
    AttainsIfPicked(rules, d, ask, dated, b, m);
    forall a, v | IsWinner(rules, d, ask, a, v) ensures NotOlder(d.published[v].publishedAt, Some(m)) {
      assert Eligible(rules, d, ask, v);
      WinnersTie(rules, d, ask, a, v, dated[a]);
    }
  }

  lemma LatestBounds(rules: Rules, d: Face, ask: Ask, dated: map<string, string>, newest: Time, m: Time)
    requires IsPick(rules, d, ask, dated) && IsNewest(d, dated, newest) && IsLatest(rules, d, ask, m)
    ensures newest == m
  {
    var b :| Attains(rules, d, ask, b, m);
    AttainsIfPicked(rules, d, ask, dated, b, m);
    var c :| c in dated && d.published[dated[c]].publishedAt == Some(newest);
    assert IsWinner(rules, d, ask, c, dated[c]);
  }

  /** The stamp is the newest publication in the document, exactly unless the tables are misdated: the
      apps whose highest dated release is the latest publication of all are each overtaken by an
      undated release. */
  lemma StampIsShownExactly(rules: Rules, f: Face, ask: Ask, pick: map<string, string>, newest: Time)
    requires IsPick(rules, f, ask, pick) && IsStamp(rules, f, ask, newest)
    ensures NewestShown(f, pick, newest) <==> !Misdated(rules, f, ask)
  {
    var d := DatedOf(f);
    var dated := StampPick(rules, f, d, ask, newest);
    DatedOfIsDated(f);
    ShownUnlessOvertaken(rules, f, d, ask, pick, dated, newest);
    MisdatedIfOvertaken(rules, f, d, ask, dated, newest);
  }

  lemma MisdatedIfOvertaken(rules: Rules, f: Face, d: Face, ask: Ask, dated: map<string, string>, newest: Time)
    requires d == DatedOf(f) && IsPick(rules, d, ask, dated) && IsNewest(d, dated, newest)
    ensures Misdated(rules, f, ask) <==> newest > 0 && AllOvertaken(rules, f, d, ask, newest)
  {
    DatedOfIsDated(f);
    OnlyLatest(rules, d, ask, dated, newest);
  }

  lemma ShownUnlessOvertaken(rules: Rules, f: Face, d: Face, ask: Ask, pick: map<string, string>, dated: map<string, string>, newest: Time)
    requires IsDatedPart(f, d) && IsPick(rules, f, ask, pick) && IsPick(rules, d, ask, dated) && IsNewest(d, dated, newest)
    ensures NewestShown(f, pick, newest) <==> newest == 0 || !AllOvertaken(rules, f, d, ask, newest)
  {
    ShownIfSurviving(rules, f, d, ask, pick, dated, newest);
    SurvivesUnlessOvertaken(rules, f, d, ask, pick, dated, newest);
  }

  lemma OnlyLatest(rules: Rules, d: Face, ask: Ask, dated: map<string, string>, newest: Time)
    requires IsPick(rules, d, ask, dated) && IsNewest(d, dated, newest) && forall v :: v in d.published ==> d.published[v].publishedAt.Some?
    ensures forall m :: m > 0 ==> (IsLatest(rules, d, ask, m) <==> newest == m)
  {
    forall m: Time | m > 0 ensures IsLatest(rules, d, ask, m) <==> newest == m {
      LatestIsTheStamp(rules, d, ask, dated, newest, m);
    }
  }

  lemma SurvivesUnlessOvertaken(rules: Rules, f: Face, d: Face, ask: Ask, pick: map<string, string>, dated: map<string, string>, m: Time)
    requires IsDatedPart(f, d) && IsPick(rules, f, ask, pick) && IsPick(rules, d, ask, dated)
    ensures StampSurvives(f, d, pick, dated, m) <==> exists a :: Attains(rules, d, ask, a, m) && !Overtaken(rules, f, ask, a)
  {
    forall a | a in dated ensures a in pick {
      assert IsWinner(rules, d, ask, a, dated[a]);
      assert Eligible(rules, f, ask, dated[a]);
    }
    if StampSurvives(f, d, pick, dated, m) {
      var a :| a in dated && dated[a] in d.published && d.published[dated[a]].publishedAt == Some(m)
               && a in pick && pick[a] in f.published && f.published[pick[a]].publishedAt.Some?;
      AttainsIfPicked(rules, d, ask, dated, a, m);
      UndatedIfOvertaken(rules, f, ask, pick, a);
    }
    if a :| Attains(rules, d, ask, a, m) && !Overtaken(rules, f, ask, a) {
      AttainsIfPicked(rules, d, ask, dated, a, m);
      UndatedIfOvertaken(rules, f, ask, pick, a);
    }
  }

  // --- the exception is real --------------------------------------------------

  const LISTED := Listing("one", "One", "", "", "", "public")

  function Numbered(major: nat, at: Option<Time>): Release
  {
    Release("a", SemVer(major, 0, 0, [], ""), "stable", "", Manifest("a", SemVer(major, 0, 0, [], ""), "module", "", NO_CREDITS, None, ""),
            true, Published, "dev", "", at, EPOCH)
  }

  const UNDATED := Face(map["a" := LISTED], map[], map["v1" := Numbered(1, Some(EPOCH)), "v2" := Numbered(2, None)])

  const PUBLISHER := SourcePublisher("pub", "pub", "Pub", "", false, "", "")

  /** A source with one app, whose newer version was published without a time. */
  const SOURCE := Source([PUBLISHER], [AppRow("a", "pub", "module", LISTED, EPOCH, EPOCH)],
                         [VersionRow("v1", Numbered(1, Some(EPOCH))), VersionRow("v2", Numbered(2, None))], [], [], [])

  const NEW_TARGET := Target(EMPTY_STORE, [], [], map[], {}, {})

  /** An import brings such tables about: whatever ids the database mints, copying that source into an
      empty registry, with no statement breaking, leaves exactly the rows above. */
  lemma ImportBringsUndated(w: World) returns (u: Target, r: Report)
    requires forall statement :: !w.breaks(statement)
    ensures Import(w, SOURCE, NEW_TARGET) == Ok((u, r)) && FaceOf(u.store) == UNDATED
  {
    var t, r0 := PublisherComes(w);
    var s := RowsCome(w, t.store);
    u, r := Bumped(t, s), Counted(r0, SOURCE);
    FaceIsUndated(u.store);
  }

  lemma FaceIsUndated(s: Store)
    requires s.texts == map[] && s.apps.Keys == {"a"} && s.apps["a"].listing == LISTED && s.releases == UNDATED.published
    ensures FaceOf(s) == UNDATED
  {
    assert FaceOf(s).listings == UNDATED.listings;
    assert FaceOf(s).published == UNDATED.published;
  }

  lemma PublisherComes(w: World) returns (t: Target, r: Report)
    requires forall statement :: !w.breaks(statement)
    ensures ImportPublishers(w, NEW_TARGET, NOTHING, SOURCE.publishers) == Ok((t, r))
    ensures "pub" in t.store.publishers && t.store == EMPTY_STORE.(publishers := t.store.publishers)
  {
    assert SOURCE.publishers[..0] == [];
    var arrived := ImportPublisher(w, NEW_TARGET, NOTHING, PUBLISHER);
    t, r := arrived.value.0, arrived.value.1;
  }

  lemma RowsCome(w: World, s: Store) returns (t: Store)
    requires forall statement :: !w.breaks(statement)
    requires "pub" in s.publishers && s == EMPTY_STORE.(publishers := s.publishers)
    ensures CopyTables(w, s, TablesOf(SOURCE)) == Ok(t)
    ensures t.texts == map[] && t.apps.Keys == {"a"} && t.apps["a"].listing == LISTED && t.releases == UNDATED.published
  {
    var s1 := Inserted(s, SOURCE.apps[0]);
    OneRow(w, s, [], s, SOURCE.apps[0]);
    assert [] + [SOURCE.apps[0]] == SOURCE.apps;
    t := s1.(releases := UNDATED.published);
    VersionsCome(w, s1);
    TablesCome(w, s, s1, t);
  }

  lemma TablesCome(w: World, s: Store, s1: Store, t: Store)
    requires forall statement :: !w.breaks(statement)
    requires WriteAll(w, s, SOURCE.apps) == Ok(s1) && WriteAll(w, s1, SOURCE.versions) == Ok(t)
    ensures CopyTables(w, s, TablesOf(SOURCE)) == Ok(t)
  {
    var tables := TablesOf(SOURCE);
    NextTable(w, s, tables, 0, s);
    NextTable(w, s, tables, 1, s1);
    NextTable(w, s, tables, 2, t);
    NextTable(w, s, tables, 3, t);
    NextTable(w, s, tables, 4, t);
    assert tables[..5] == tables;
  }

  lemma VersionsCome(w: World, s: Store)
    requires (forall statement :: !w.breaks(statement)) && "a" in s.apps && s.releases == map[]
    ensures WriteAll(w, s, SOURCE.versions) == Ok(s.(releases := UNDATED.published))
  {
    var first, second := SOURCE.versions[0], SOURCE.versions[1];
    OneRow(w, s, [], s, first);
    assert [] + [first] == [first];
    OneRow(w, s, [first], Inserted(s, first), second);
    assert SOURCE.versions == [first] + [second];
  }

  lemma OneRow(w: World, s: Store, rows: seq<Record>, t: Store, row: Record)
    requires WriteAll(w, s, rows) == Ok(t)
    ensures WriteAll(w, s, rows + [row]) == Write(w, t, row)
  {
    assert (rows + [row])[..|rows|] == rows;
  }

  lemma NextTable(w: World, s: Store, tables: seq<(string, seq<Record>)>, n: nat, t: Store)
    requires n < |tables| && CopyTables(w, s, tables[..n]) == Ok(t)
    ensures CopyTables(w, s, tables[..n + 1]) == CopyTable(w, t, tables[n].0, tables[n].1)
  {
    assert tables[..n + 1][..n] == tables[..n];
  }

  /** The selection offers "v2", under the time of "v1", which is not in the document. */
  ghost predicate IsMisdated(f: Face, pick: map<string, string>, newest: Time)
  {
    pick == map["a" := "v2"] && newest == EPOCH && !NewestShown(f, pick, newest)
  }

  ghost predicate OffersMisdated(rules: Rules, f: Face, ask: Ask)
  {
    forall pick, newest :: IsPick(rules, f, ask, pick) && IsStamp(rules, f, ask, newest) ==> IsMisdated(f, pick, newest)
  }

  /** So an import can misdate the catalogue: whatever is asked of the stable channel, the document
      offers 2.0.0 and is stamped with the publication of 1.0.0, which is not in it. */
  lemma UndatedReleaseMisdates(w: World, rules: Rules, ask: Ask)
    requires (forall statement :: !w.breaks(statement)) && ask.channel == "stable"
    ensures exists u: Target, r: Report :: Import(w, SOURCE, NEW_TARGET) == Ok((u, r)) && OffersMisdated(rules, FaceOf(u.store), ask)
  {
    var u, r := ImportBringsUndated(w);
    UndatedOffered(rules, FaceOf(u.store), ask);
  }

  lemma UndatedOffered(rules: Rules, f: Face, ask: Ask)
    requires f == UNDATED && ask.channel == "stable"
    ensures OffersMisdated(rules, f, ask)
  {
    forall pick, newest | IsPick(rules, f, ask, pick) && IsStamp(rules, f, ask, newest)
      ensures IsMisdated(f, pick, newest)
    {
      UndatedPair(rules, f, ask, pick, newest);
    }
  }

  lemma UndatedPair(rules: Rules, f: Face, ask: Ask, pick: map<string, string>, newest: Time)
    requires f == UNDATED && ask.channel == "stable" && IsPick(rules, f, ask, pick) && IsStamp(rules, f, ask, newest)
    ensures IsMisdated(f, pick, newest)
  {
    UndatedPick(rules, ask, pick);
    UndatedStamp(rules, ask, newest);
    NotShown(newest);
  }

  lemma UndatedStamp(rules: Rules, ask: Ask, newest: Time)
    requires ask.channel == "stable" && IsStamp(rules, UNDATED, ask, newest)
    ensures newest == EPOCH
  {
    DatedPart();
    var dated := StampPick(rules, UNDATED, DatedOf(UNDATED), ask, newest);
    DatedPick(rules, DatedOf(UNDATED), ask, dated, newest);
  }

  lemma StampPick(rules: Rules, f: Face, d: Face, ask: Ask, newest: Time) returns (dated: map<string, string>)
    requires d == DatedOf(f) && IsStamp(rules, f, ask, newest)
    ensures IsPick(rules, d, ask, dated) && IsNewest(d, dated, newest)
  {
    var e;
    e, dated :| StampedBy(rules, f, e, ask, dated, newest);
    DatedPartIsOne(f, e);
  }

  lemma NotShown(newest: Time)
    requires newest == EPOCH
    ensures !NewestShown(UNDATED, map["a" := "v2"], newest)
  {
    assert UNDATED.published["v2"].publishedAt == None;
  }

  lemma DatedPart()
    ensures DatedOf(UNDATED) == UNDATED.(published := map["v1" := Numbered(1, Some(EPOCH))])
  {
    assert DatedOf(UNDATED).published == map["v1" := Numbered(1, Some(EPOCH))];
  }

  lemma UndatedPick(rules: Rules, ask: Ask, pick: map<string, string>)
    requires ask.channel == "stable" && IsPick(rules, UNDATED, ask, pick)
    ensures pick == map["a" := "v2"]
  {
    OnlyApp(rules, UNDATED, ask, pick, "v2");
    assert Beats(UNDATED, "v2", "v1");
  }

  lemma DatedPick(rules: Rules, d: Face, ask: Ask, dated: map<string, string>, newest: Time)
    requires d == UNDATED.(published := map["v1" := Numbered(1, Some(EPOCH))])
    requires ask.channel == "stable" && IsPick(rules, d, ask, dated) && IsNewest(d, dated, newest)
    ensures newest == EPOCH
  {
    OnlyApp(rules, d, ask, dated, "v1");
  }

  lemma OnlyApp(rules: Rules, f: Face, ask: Ask, pick: map<string, string>, v: string)
    requires IsPick(rules, f, ask, pick) && Eligible(rules, f, ask, v)
    requires forall u :: u in f.published ==> f.published[u].app == f.published[v].app
    ensures pick.Keys == {f.published[v].app} && IsWinner(rules, f, ask, f.published[v].app, pick[f.published[v].app])
  {
    forall a | a in pick ensures a == f.published[v].app { assert IsWinner(rules, f, ask, a, pick[a]); }
  }
}

/** The catalogue builder: which release of which app a request is offered, and the loop that
    finds out. The specification is declarative; the methods follow the builder's own steps. */
module Catalogue {
  import opened Basics
  import opened Semver
  import opened Tables
  import opened Wire
  import Lex

  /** What a request selects on: channel, the caller's platform, and the private apps granted. */
  datatype Ask = Ask(channel: string, platform: SemVer, ids: set<string>)

  // --- specification ----------------------------------------------------------

  predicate Open(f: Face, ask: Ask, app: string)
  {
    app in f.listings && (f.listings[app].visibility == "public" || app in ask.ids)
  }

  /** The rows the builder's query answers with. */
  predicate Visible(f: Face, ask: Ask, v: string)
  {
    v in f.published && f.published[v].channel == ask.channel && Open(f, ask, f.published[v].app)
  }

  predicate Eligible(rules: Rules, f: Face, ask: Ask, v: string)
  {
    Visible(f, ask, v) && PlatformAllows(rules, f.published[v].constraint, ask.platform)
  }

  /** Ascending order of publication times, missing ones last. */
  predicate Earlier(x: Option<Time>, y: Option<Time>)
  {
    x.Some? && (y.None? || x.value < y.value)
  }

  /** Release u is to be offered rather than v: higher precedence, or as high and published first. */
  predicate Beats(f: Face, u: string, v: string)
    requires u in f.published && v in f.published
  {
    var (p, q) := (f.published[u], f.published[v]);
    Newer(p.number, q.number) || (SameRank(p.number, q.number) && Earlier(p.publishedAt, q.publishedAt))
  }

  ghost predicate IsWinner(rules: Rules, f: Face, ask: Ask, app: string, v: string)
  {
    && Eligible(rules, f, ask, v) && f.published[v].app == app
    && forall u :: Eligible(rules, f, ask, u) && f.published[u].app == app ==> !Beats(f, u, v)
  }

  /** An app is listed exactly when some release of it is eligible, with a winner as its entry. */
  ghost predicate IsPick(rules: Rules, f: Face, ask: Ask, pick: map<string, string>)
  {
    && (forall a :: a in pick ==> IsWinner(rules, f, ask, a, pick[a]))
    && (forall v :: Eligible(rules, f, ask, v) ==> f.published[v].app in pick)
  }

  /** `newest` is the latest publication among the releases picked; zero when there are none. */
  ghost predicate IsNewest(f: Face, pick: map<string, string>, newest: Time)
  {
    && (forall a :: a in pick ==> pick[a] in f.published)
    && (forall a :: a in pick && f.published[pick[a]].publishedAt.Some? ==> f.published[pick[a]].publishedAt.value <= newest)
    && (if pick == map[] then newest == 0
        else exists a :: a in pick && f.published[pick[a]].publishedAt == Some(newest))
  }

  /** The face with only those published releases that carry a publication time. */
  ghost function DatedOf(f: Face): Face
  {
    f.(published := map v | v in f.published && f.published[v].publishedAt.Some? :: f.published[v])
  }

  /** d holds exactly the releases of f that carry a publication time. */
  ghost predicate IsDatedPart(f: Face, d: Face)
  {
    && d.listings == f.listings && d.texts == f.texts
    && (forall v :: v in d.published <==> v in f.published && f.published[v].publishedAt.Some?)
    && (forall v :: v in d.published ==> d.published[v] == f.published[v])
  }

  lemma DatedOfIsDated(f: Face)
    ensures IsDatedPart(f, DatedOf(f))
  {
  }

  lemma DatedPartIsOne(f: Face, d: Face)
    requires IsDatedPart(f, d)
    ensures d == DatedOf(f) && (Dated(f) ==> d == f)
  {
    assert d.published == DatedOf(f).published;
    if Dated(f) { assert d.published == f.published; }
  }

  /** What the builder stamps a document with, whether or not every row carries a time: the newest
      publication of the selection among the releases that do. */
  ghost predicate IsStamp(rules: Rules, f: Face, ask: Ask, newest: Time)
  {
    exists d, pick :: StampedBy(rules, f, d, ask, pick, newest)
  }

  ghost predicate StampedBy(rules: Rules, f: Face, d: Face, ask: Ask, pick: map<string, string>, newest: Time)
  {
    IsDatedPart(f, d) && IsPick(rules, d, ask, pick) && IsNewest(d, pick, newest)
  }

  function EntryOf(f: Face, app: string, v: string, texts: map<string, Text>): Entry
    requires app in f.listings && v in f.published
  {
    Entry(app, f.listings[app], f.published[v].number, f.published[v].manifest, texts)
  }

  /** Every picked release can be read off the face. */
  ghost predicate Covers(f: Face, pick: map<string, string>)
  {
    forall a :: a in pick ==> a in f.listings && pick[a] in f.published
  }

  /** The entries of a catalogue, in byte order of their ids. */
  ghost function EntriesOf(f: Face, pick: map<string, string>, texts: map<string, map<string, Text>>): (r: seq<Entry>)
    requires Covers(f, pick)
    ensures |r| == |Lex.Sorted(pick.Keys)|
    ensures forall i :: 0 <= i < |r| ==> r[i].id == Lex.Sorted(pick.Keys)[i] && r[i].id in pick
                                         && r[i] == EntryOf(f, r[i].id, pick[r[i].id], TextsOf(texts, r[i].id))
  {
    var ids := Lex.Sorted(pick.Keys);
    seq(|ids|, i requires 0 <= i < |ids| => assert ids[i] in ids; EntryOf(f, ids[i], pick[ids[i]], TextsOf(texts, ids[i])))
  }

  /** The validator accepts the entries in the order it is shown them. The builder shows them in the
      order of its rows, before it sorts them, so which order that is is up to the database. */
  ghost predicate Passes(rules: Rules, entries: seq<Entry>, platform: string)
  {
    exists apps :: multiset(apps) == multiset(entries) && rules.catalogOk(apps, platform)
  }

  ghost predicate Refuses(rules: Rules, entries: seq<Entry>, platform: string)
  {
    exists apps :: multiset(apps) == multiset(entries) && !rules.catalogOk(apps, platform)
  }

  ghost function Assemble(rules: Rules, signer: Signer, f: Face, pick: map<string, string>,
                          texts: map<string, map<string, Text>>, newest: Time, revision: nat): Snapshot
    requires Covers(f, pick)
  {
    var (document, generatedAt) := SignDocument(rules, signer, newest, EntriesOf(f, pick, texts));
    Snapshot(revision, generatedAt, rules.etag(document), document)
  }

  /** `snapshot` is what building from one state of the tables can answer. */
  ghost predicate IsBuild(rules: Rules, signer: Signer, f: Face, ask: Ask, platform: string, revision: nat, snapshot: Snapshot)
  {
    exists pick, newest :: Builds(rules, signer, f, ask, platform, revision, pick, newest, snapshot)
  }

  ghost predicate Builds(rules: Rules, signer: Signer, f: Face, ask: Ask, platform: string, revision: nat,
                         pick: map<string, string>, newest: Time, snapshot: Snapshot)
  {
    IsStamp(rules, f, ask, newest) && Offers(rules, signer, f, ask, platform, revision, pick, newest, snapshot)
  }

  /** The same without the claim about the time stamp. */
  ghost predicate Offers(rules: Rules, signer: Signer, f: Face, ask: Ask, platform: string, revision: nat,
                         pick: map<string, string>, newest: Time, snapshot: Snapshot)
  {
    && IsPick(rules, f, ask, pick) && Covers(f, pick)
    && Passes(rules, EntriesOf(f, pick, f.texts), platform)
    && snapshot == Assemble(rules, signer, f, pick, f.texts, newest, revision)
  }

  lemma PicksCover(rules: Rules, f: Face, ask: Ask, pick: map<string, string>)
    requires IsPick(rules, f, ask, pick)
    ensures Covers(f, pick)
  {
  }

  // --- the builder ------------------------------------------------------------

  /** The query's answer: the visible rows, within each app in order of publication. Which
      collation the database sorts app ids by does not matter here. */
  ghost predicate IsAnswer(f: Face, ask: Ask, cursor: seq<string>)
  {
    && (forall v :: v in cursor <==> Visible(f, ask, v))
    && (forall i :: 0 <= i < |cursor| ==> NoneLater(f, cursor[..i], cursor[i]))
  }

  /** No row of v's app among `seen` was published after v. */
  ghost predicate NoneLater(f: Face, seen: seq<string>, v: string)
  {
    forall u :: u in seen && u in f.published && v in f.published && f.published[u].app == f.published[v].app
      ==> !Earlier(f.published[v].publishedAt, f.published[u].publishedAt)
  }

  /** What the loop has established after the rows in `seen`. */
  ghost predicate PickSoFar(rules: Rules, f: Face, ask: Ask, seen: seq<string>, chosen: map<string, string>)
  {
    && (forall a :: a in chosen ==> chosen[a] in seen && Eligible(rules, f, ask, chosen[a]) && f.published[chosen[a]].app == a)
    && (forall a, u :: a in chosen && u in seen && Eligible(rules, f, ask, u) && f.published[u].app == a ==> !Beats(f, u, chosen[a]))
    && (forall u :: u in seen && Eligible(rules, f, ask, u) ==> f.published[u].app in chosen)
  }

  lemma PickGrows(rules: Rules, f: Face, ask: Ask, seen: seq<string>, chosen: map<string, string>, v: string)
    requires PickSoFar(rules, f, ask, seen, chosen) && Eligible(rules, f, ask, v)
    requires NoneLater(f, seen, v)
    ensures var app := f.published[v].app;
            PickSoFar(rules, f, ask, seen + [v],
              if app in chosen && !Newer(f.published[v].number, f.published[chosen[app]].number) then chosen else chosen[app := v])
  {
    var app := f.published[v].app;
    Trichotomy(f.published[v].number, f.published[v].number);
    if app in chosen {
      var held := chosen[app];
      forall u | u in seen && Eligible(rules, f, ask, u) && f.published[u].app == app
                 && Newer(f.published[v].number, f.published[held].number)
        ensures !Beats(f, u, v)
      {
        StrictWeakOrder(f.published[held].number, f.published[v].number, f.published[u].number);
        StrictWeakOrder(f.published[u].number, f.published[v].number, f.published[held].number);
      }
    }
  }

  /** The newest time so far stays attained by a survivor because a replacement is never older. */
  lemma NewestGrows(f: Face, chosen: map<string, string>, newest: Time, app: string, v: string)
    requires IsNewest(f, chosen, newest) && v in f.published && f.published[v].publishedAt.Some?
    requires app in chosen ==> !Earlier(f.published[v].publishedAt, f.published[chosen[app]].publishedAt)
    ensures var at := f.published[v].publishedAt.value;
            IsNewest(f, chosen[app := v], if at > newest then at else newest)
  {
    var at := f.published[v].publishedAt.value;
    var after := chosen[app := v];
    assert after[app] == v;
    if chosen != map[] && at <= newest {
      var b :| b in chosen && f.published[chosen[b]].publishedAt == Some(newest);
      if b == app {
        assert f.published[after[app]].publishedAt == Some(newest);
      } else {
        assert after[b] == chosen[b];
      }
    }
  }

  /** Every chosen app once. */
  ghost predicate IsOrder(order: seq<string>, chosen: map<string, string>)
  {
    && (forall a :: a in order <==> a in chosen)
    && (forall i, j :: 0 <= i < j < |order| ==> order[i] != order[j])
  }

  method Select(rules: Rules, f: Face, ask: Ask, cursor: seq<string>)
    returns (ok: bool, chosen: map<string, string>, order: seq<string>, newest: Time)
    requires IsAnswer(f, ask, cursor)
    ensures ok <==> forall v :: Eligible(rules, f, ask, v) ==> f.published[v].decodes
    ensures ok ==> IsPick(rules, f, ask, chosen)
    ensures ok ==> IsStamp(rules, f, ask, newest)
    ensures ok && Dated(f) ==> IsNewest(f, chosen, newest)
    ensures ok ==> IsOrder(order, chosen)
  {
    chosen, order, newest := map[], [], 0;
    ghost var d, dated: map<string, string> := DatedOf(f), map[];
    DatedOfIsDated(f);
    for i := 0 to |cursor|
      invariant Progress(rules, f, ask, cursor[..i], chosen, order)
      invariant DatedProgress(rules, d, ask, cursor[..i], chosen, dated, newest)
    {
      var v := cursor[i];
      NextRow(f, ask, cursor, i);
      if !PlatformAllows(rules, f.published[v].constraint, ask.platform) {
        RowSkipped(rules, f, ask, cursor[..i], v, chosen, order);
        DatedRowSkipped(rules, f, d, ask, cursor[..i], v, chosen, dated, newest);
        continue;
      }
      if !f.published[v].decodes {
        ok := false;
        return;
      }
      chosen, order, newest, dated := Consider(rules, f, d, ask, cursor[..i], v, chosen, order, newest, dated);
    }
    assert cursor[..|cursor|] == cursor;
    Selected(rules, f, d, ask, cursor, chosen, order, dated, newest);
    ok := true;
  }

  lemma NextRow(f: Face, ask: Ask, cursor: seq<string>, i: nat)
    requires IsAnswer(f, ask, cursor) && i < |cursor|
    ensures cursor[..i + 1] == cursor[..i] + [cursor[i]]
    ensures Visible(f, ask, cursor[i]) && NoneLater(f, cursor[..i], cursor[i])
  {
    assert cursor[i] in cursor;
  }

  lemma Selected(rules: Rules, f: Face, d: Face, ask: Ask, cursor: seq<string>, chosen: map<string, string>, order: seq<string>,
                 dated: map<string, string>, newest: Time)
    requires IsAnswer(f, ask, cursor) && IsDatedPart(f, d)
    requires Progress(rules, f, ask, cursor, chosen, order) && DatedProgress(rules, d, ask, cursor, chosen, dated, newest)
    ensures IsPick(rules, f, ask, chosen) && IsStamp(rules, f, ask, newest) && IsOrder(order, chosen)
    ensures forall v :: Eligible(rules, f, ask, v) ==> f.published[v].decodes
    ensures Dated(f) ==> IsNewest(f, chosen, newest)
  {
    AllRowsSeen(rules, f, ask, cursor, chosen, order);
    DatedRowsSeen(rules, f, d, ask, cursor, chosen, dated, newest);
    assert StampedBy(rules, f, d, ask, dated, newest);
    if Dated(f) { DatedPartIsOne(f, d); }
  }

  /** The loop invariant: what the rows in `seen` have left behind. */
  ghost predicate Progress(rules: Rules, f: Face, ask: Ask, seen: seq<string>, chosen: map<string, string>, order: seq<string>)
  {
    && PickSoFar(rules, f, ask, seen, chosen)
    && (forall u :: u in seen && Eligible(rules, f, ask, u) ==> f.published[u].decodes)
    && IsOrder(order, chosen)
  }

  /** The same of the dated part d: because undated rows come last within an app, the selection of an
      app among dated rows is its selection for as long as that is dated. */
  ghost predicate DatedProgress(rules: Rules, d: Face, ask: Ask, seen: seq<string>, chosen: map<string, string>,
                                dated: map<string, string>, newest: Time)
  {
    PickSoFar(rules, d, ask, seen, dated) && IsNewest(d, dated, newest) && Linked(d, chosen, dated)
  }

  lemma RowSkipped(rules: Rules, f: Face, ask: Ask, seen: seq<string>, v: string, chosen: map<string, string>, order: seq<string>)
    requires Progress(rules, f, ask, seen, chosen, order) && !Eligible(rules, f, ask, v)
    ensures Progress(rules, f, ask, seen + [v], chosen, order)
  {
  }

  lemma DatedRowSkipped(rules: Rules, f: Face, d: Face, ask: Ask, seen: seq<string>, v: string,
                        chosen: map<string, string>, dated: map<string, string>, newest: Time)
    requires IsDatedPart(f, d) && DatedProgress(rules, d, ask, seen, chosen, dated, newest)
    requires !Eligible(rules, f, ask, v) || v !in d.published
    ensures DatedProgress(rules, d, ask, seen + [v], chosen, dated, newest)
  {
    SameSoFar(rules, d, ask, seen, dated, v);
  }

  lemma SameSoFar(rules: Rules, d: Face, ask: Ask, seen: seq<string>, dated: map<string, string>, v: string)
    requires PickSoFar(rules, d, ask, seen, dated) && !Eligible(rules, d, ask, v)
    ensures PickSoFar(rules, d, ask, seen + [v], dated)
  {
  }

  lemma AllRowsSeen(rules: Rules, f: Face, ask: Ask, cursor: seq<string>, chosen: map<string, string>, order: seq<string>)
    requires IsAnswer(f, ask, cursor) && Progress(rules, f, ask, cursor, chosen, order)
    ensures IsPick(rules, f, ask, chosen)
    ensures forall v :: Eligible(rules, f, ask, v) ==> f.published[v].decodes
  {
  }

  lemma DatedRowsSeen(rules: Rules, f: Face, d: Face, ask: Ask, cursor: seq<string>,
                      chosen: map<string, string>, dated: map<string, string>, newest: Time)
    requires IsDatedPart(f, d) && IsAnswer(f, ask, cursor) && DatedProgress(rules, d, ask, cursor, chosen, dated, newest)
    requires IsPick(rules, f, ask, chosen)
    ensures IsPick(rules, d, ask, dated) && (d == f ==> IsNewest(f, chosen, newest))
  {
    forall v | Eligible(rules, d, ask, v) ensures v in cursor { assert Visible(f, ask, v); }
    if d == f {
      forall a | a in chosen ensures a in dated && dated[a] == chosen[a] { assert IsWinner(rules, f, ask, a, chosen[a]); }
      assert dated == chosen;
    }
  }

  /** One row that the platform can run: a first sighting is noted, a strictly newer release
      replaces the one held, and the time stamp follows what was taken. */
  method Consider(rules: Rules, f: Face, ghost d: Face, ask: Ask, ghost seen: seq<string>, v: string,
                  chosen: map<string, string>, order: seq<string>, newest: Time, ghost dated: map<string, string>)
    returns (chosen': map<string, string>, order': seq<string>, newest': Time, ghost dated': map<string, string>)
    requires Progress(rules, f, ask, seen, chosen, order)
    requires IsDatedPart(f, d) && DatedProgress(rules, d, ask, seen, chosen, dated, newest)
    requires Eligible(rules, f, ask, v) && f.published[v].decodes && NoneLater(f, seen, v)
    ensures Progress(rules, f, ask, seen + [v], chosen', order')
    ensures DatedProgress(rules, d, ask, seen + [v], chosen', dated', newest')
  {
    chosen', order', newest', dated' := chosen, order, newest, dated;
    var row := f.published[v];
    Considered(rules, f, ask, seen, chosen, order, v);
    var held := row.app in chosen;
    if !held {
      order' := order + [row.app];
    }
    if held && !Newer(row.number, f.published[chosen[row.app]].number) {
      KeptRow(rules, f, d, ask, seen, v, chosen, dated, newest);
      return;
    }
    dated' := TakenRow(rules, f, d, ask, seen, v, chosen, dated, newest);
    chosen' := chosen[row.app := v];
    if row.publishedAt.Some? && row.publishedAt.value > newest {
      newest' := row.publishedAt.value;
    }
  }

  lemma Considered(rules: Rules, f: Face, ask: Ask, seen: seq<string>, chosen: map<string, string>, order: seq<string>, v: string)
    requires Progress(rules, f, ask, seen, chosen, order)
    requires Eligible(rules, f, ask, v) && f.published[v].decodes && NoneLater(f, seen, v)
    ensures var app := f.published[v].app;
      var order' := if app in chosen then order else order + [app];
      if app in chosen && !Newer(f.published[v].number, f.published[chosen[app]].number)
      then Progress(rules, f, ask, seen + [v], chosen, order)
      else Progress(rules, f, ask, seen + [v], chosen[app := v], order')
  {
    PickGrows(rules, f, ask, seen, chosen, v);
  }

  /** A dated row meets only dated rows of its app before it. */
  lemma DatedBefore(rules: Rules, f: Face, d: Face, ask: Ask, seen: seq<string>, v: string, chosen: map<string, string>,
                    dated: map<string, string>, newest: Time)
    requires PickSoFar(rules, f, ask, seen, chosen) && IsDatedPart(f, d) && DatedProgress(rules, d, ask, seen, chosen, dated, newest)
    requires Eligible(rules, f, ask, v) && NoneLater(f, seen, v) && v in d.published
    ensures var app := d.published[v].app;
      && Eligible(rules, d, ask, v) && NoneLater(d, seen, v)
      && (app in chosen <==> app in dated) && (app in chosen ==> dated[app] == chosen[app])
  {
  }

  lemma KeptRow(rules: Rules, f: Face, d: Face, ask: Ask, seen: seq<string>, v: string, chosen: map<string, string>,
                dated: map<string, string>, newest: Time)
    requires PickSoFar(rules, f, ask, seen, chosen) && IsDatedPart(f, d) && DatedProgress(rules, d, ask, seen, chosen, dated, newest)
    requires Eligible(rules, f, ask, v) && NoneLater(f, seen, v)
    requires var app := f.published[v].app; app in chosen && !Newer(f.published[v].number, f.published[chosen[app]].number)
    ensures DatedProgress(rules, d, ask, seen + [v], chosen, dated, newest)
  {
    if v in d.published {
      DatedBefore(rules, f, d, ask, seen, v, chosen, dated, newest);
      PickGrows(rules, d, ask, seen, dated, v);
    } else {
      DatedRowSkipped(rules, f, d, ask, seen, v, chosen, dated, newest);
    }
  }

  lemma TakenRow(rules: Rules, f: Face, d: Face, ask: Ask, seen: seq<string>, v: string, chosen: map<string, string>,
                 dated: map<string, string>, newest: Time) returns (dated': map<string, string>)
    requires PickSoFar(rules, f, ask, seen, chosen) && IsDatedPart(f, d) && DatedProgress(rules, d, ask, seen, chosen, dated, newest)
    requires Eligible(rules, f, ask, v) && NoneLater(f, seen, v)
    requires var app := f.published[v].app; app in chosen ==> Newer(f.published[v].number, f.published[chosen[app]].number)
    ensures var (app, at) := (f.published[v].app, f.published[v].publishedAt);
            DatedProgress(rules, d, ask, seen + [v], chosen[app := v], dated', if at.Some? && at.value > newest then at.value else newest)
  {
    var app := f.published[v].app;
    if v in d.published {
      dated' := dated[app := v];
      TakenDated(rules, f, d, ask, seen, v, chosen, dated, newest);
      StillLinked(d, chosen, dated, app, v);
    } else {
      dated' := dated;
      DatedRowSkipped(rules, f, d, ask, seen, v, chosen, dated, newest);
      LinkedWithout(d, chosen, dated, app, v);
    }
  }

  lemma TakenDated(rules: Rules, f: Face, d: Face, ask: Ask, seen: seq<string>, v: string, chosen: map<string, string>,
                   dated: map<string, string>, newest: Time)
    requires PickSoFar(rules, f, ask, seen, chosen) && IsDatedPart(f, d) && DatedProgress(rules, d, ask, seen, chosen, dated, newest)
    requires Eligible(rules, f, ask, v) && NoneLater(f, seen, v) && v in d.published
    requires var app := f.published[v].app; app in chosen ==> Newer(f.published[v].number, f.published[chosen[app]].number)
    ensures var (app, at) := (f.published[v].app, f.published[v].publishedAt.value);
      && PickSoFar(rules, d, ask, seen + [v], dated[app := v])
      && IsNewest(d, dated[app := v], if at > newest then at else newest)
  {
    var app := f.published[v].app;
    DatedBefore(rules, f, d, ask, seen, v, chosen, dated, newest);
    PickGrows(rules, d, ask, seen, dated, v);
    NewestGrows(d, dated, newest, app, v);
  }

  /** Dated survivors are dated selections. */
  ghost predicate Linked(d: Face, chosen: map<string, string>, dated: map<string, string>)
  {
    && (forall a :: a in dated ==> a in chosen)
    && (forall a :: a in chosen && chosen[a] in d.published ==> a in dated && dated[a] == chosen[a])
  }

  lemma StillLinked(d: Face, chosen: map<string, string>, dated: map<string, string>, app: string, v: string)
    requires Linked(d, chosen, dated)
    ensures Linked(d, chosen[app := v], dated[app := v])
  {
  }

  lemma LinkedWithout(d: Face, chosen: map<string, string>, dated: map<string, string>, app: string, v: string)
    requires Linked(d, chosen, dated) && v !in d.published
    ensures Linked(d, chosen[app := v], dated)
  {
  }

  /** Insertion of one entry where its id belongs. */
  method Insert(sorted: seq<Entry>, e: Entry) returns (r: seq<Entry>)
    requires Ascending(sorted) && forall x :: x in sorted ==> x.id != e.id
    ensures Ascending(r) && (forall x :: x in r <==> x in sorted || x == e) && multiset(r) == multiset(sorted) + multiset{e}
  {
    var k := 0;
    while k < |sorted| && Lex.Less(sorted[k].id, e.id)
      invariant 0 <= k <= |sorted|
      invariant forall i :: 0 <= i < k ==> Lex.Less(sorted[i].id, e.id)
    {
      k := k + 1;
    }
    r := sorted[..k] + [e] + sorted[k..];
    InsertedAscending(sorted, k, e);
    assert sorted == sorted[..k] + sorted[k..];
  }

  lemma InsertedAscending(sorted: seq<Entry>, k: nat, e: Entry)
    requires Ascending(sorted) && (forall x :: x in sorted ==> x.id != e.id) && k <= |sorted|
    requires (forall i :: 0 <= i < k ==> Lex.Less(sorted[i].id, e.id)) && (k < |sorted| ==> !Lex.Less(sorted[k].id, e.id))
    ensures Ascending(sorted[..k] + [e] + sorted[k..])
  {
    forall i | k <= i < |sorted|
      ensures Lex.Less(e.id, sorted[i].id)
    {
      assert sorted[k] in sorted;
      Lex.Total(e.id, sorted[k].id);
      if k < i { Lex.Transitive(e.id, sorted[k].id, sorted[i].id); }
    }
  }

  ghost predicate Ascending(entries: seq<Entry>)
  {
    forall i, j :: 0 <= i < j < |entries| ==> Lex.Less(entries[i].id, entries[j].id)
  }

  method SortById(apps: seq<Entry>) returns (sorted: seq<Entry>)
    requires forall i, j :: 0 <= i < j < |apps| ==> apps[i].id != apps[j].id
    ensures Ascending(sorted) && (forall e :: e in sorted <==> e in apps) && multiset(sorted) == multiset(apps)
  {
    sorted := [];
    for i := 0 to |apps|
      invariant Ascending(sorted) && (forall e :: e in sorted <==> e in apps[..i]) && multiset(sorted) == multiset(apps[..i])
    {
      assert apps[..i + 1] == apps[..i] + [apps[i]];
      sorted := Insert(sorted, apps[i]);
    }
    assert apps[..|apps|] == apps;
  }

  /** Any ascending list of exactly the picked entries is the specified one. */
  lemma SortedEntriesUnique(f: Face, pick: map<string, string>, texts: map<string, map<string, Text>>, apps: seq<Entry>)
    requires Covers(f, pick) && Ascending(apps)
    requires forall e :: e in apps ==> e.id in pick && e == EntryOf(f, e.id, pick[e.id], TextsOf(texts, e.id))
    requires forall a :: a in pick ==> exists e :: e in apps && e.id == a
    ensures apps == EntriesOf(f, pick, texts)
  {
    var ids := seq(|apps|, i requires 0 <= i < |apps| => apps[i].id);
    var spec := Lex.Sorted(pick.Keys);
    forall a
      ensures a in ids <==> a in spec
    {
      if a in pick {
        var e :| e in apps && e.id == a;
        var i :| 0 <= i < |apps| && apps[i] == e;
        assert ids[i] == a;
      }
      if a in ids {
        var i :| 0 <= i < |ids| && ids[i] == a;
        assert apps[i] in apps;
      }
    }
    Lex.AscendingUnique(ids, spec);
    var r := EntriesOf(f, pick, texts);
    forall i | 0 <= i < |apps|
      ensures apps[i] == r[i]
    {
      assert apps[i] in apps && apps[i].id == ids[i];
    }
  }

  /** The validator refuses what would be signed. */
  ghost predicate Unsignable(rules: Rules, f: Face, ask: Ask, platform: string, pick: map<string, string>)
  {
    IsPick(rules, f, ask, pick) && Covers(f, pick) && Refuses(rules, EntriesOf(f, pick, f.texts), platform)
  }

  datatype BuildError = BadPlatform | BadManifest | Refused

  /** The builder over one state of the tables; `cursor` is what the database answered. */
  method Build(rules: Rules, signer: Signer, f: Face, channel: string, platform: string, ids: set<string>,
               revision: nat, cursor: seq<string>) returns (r: Result<Snapshot, BuildError>)
    requires var p := rules.platform(platform); p.Some? ==> IsAnswer(f, Ask(channel, p.value, ids), cursor)
    ensures r == Err(BadPlatform) <==> rules.platform(platform).None?
    ensures rules.platform(platform).Some? ==>
              var ask := Ask(channel, rules.platform(platform).value, ids);
              && (r == Err(BadManifest) <==> exists v :: Eligible(rules, f, ask, v) && !f.published[v].decodes)
              && (r == Err(Refused) ==> exists pick :: Unsignable(rules, f, ask, platform, pick))
              && (r.Ok? ==> IsBuild(rules, signer, f, ask, platform, revision, r.value))
  {
    var parsed := rules.platform(platform);
    if parsed.None? {
      return Err(BadPlatform);
    }
    var ask := Ask(channel, parsed.value, ids);
    var ok, chosen, order, newest := Select(rules, f, ask, cursor);
    if !ok {
      return Err(BadManifest);
    }
    PicksCover(rules, f, ask, chosen);
    r := SignApps(rules, signer, f, platform, revision, chosen, order, newest);
    if r.Err? {
      assert Unsignable(rules, f, ask, platform, chosen);
    } else {
      assert Builds(rules, signer, f, ask, platform, revision, chosen, newest, r.value);
    }
  }

  /** From the chosen releases to the signed snapshot: translations, validation, sort, signature. */
  method SignApps(rules: Rules, signer: Signer, f: Face, platform: string, revision: nat,
                  chosen: map<string, string>, order: seq<string>, newest: Time) returns (r: Result<Snapshot, BuildError>)
    requires Covers(f, chosen) && IsOrder(order, chosen)
    ensures match r
            case Ok(s) =>
              Passes(rules, EntriesOf(f, chosen, f.texts), platform) && s == Assemble(rules, signer, f, chosen, f.texts, newest, revision)
            case Err(e) => Refuses(rules, EntriesOf(f, chosen, f.texts), platform) && e == Refused
  {
    var apps := GatherApps(f, chosen, order);
    var valid := rules.catalogOk(apps, platform);
    var sorted := SortById(apps);
    SortedEntriesUnique(f, chosen, f.texts, sorted);
    assert multiset(apps) == multiset(EntriesOf(f, chosen, f.texts));
    if !valid {
      return Err(Refused);
    }
    var (document, generatedAt) := SignDocument(rules, signer, newest, sorted);
    r := Ok(Snapshot(revision, generatedAt, rules.etag(document), document));
  }

  /** The entries in the order their apps were first seen, without translations. */
  method InOrder(f: Face, chosen: map<string, string>, order: seq<string>) returns (apps: seq<Entry>)
    requires Covers(f, chosen) && forall a :: a in order ==> a in chosen
    ensures |apps| == |order|
    ensures forall k :: 0 <= k < |order| ==> order[k] in chosen && apps[k] == EntryOf(f, order[k], chosen[order[k]], map[])
  {
    apps := [];
    for i := 0 to |order|
      invariant |apps| == i
      invariant forall k :: 0 <= k < i ==> order[k] in chosen && apps[k] == EntryOf(f, order[k], chosen[order[k]], map[])
    {
      assert order[i] in order;
      apps := apps + [EntryOf(f, order[i], chosen[order[i]], map[])];
    }
  }

  /** The entries with the translations held for each app. */
  method GatherApps(f: Face, chosen: map<string, string>, order: seq<string>) returns (apps: seq<Entry>)
    requires Covers(f, chosen)
    requires IsOrder(order, chosen)
    ensures forall e :: e in apps ==> e.id in chosen && e == EntryOf(f, e.id, chosen[e.id], TextsOf(f.texts, e.id))
    ensures forall a :: a in chosen ==> exists e :: e in apps && e.id == a
    ensures forall i, j :: 0 <= i < j < |apps| ==> apps[i].id != apps[j].id
  {
    apps := InOrder(f, chosen, order);
    ghost var bare := apps;
    for i := 0 to |apps|
      invariant |apps| == |bare|
      invariant forall k :: 0 <= k < i ==> apps[k] == bare[k].(translations := TextsOf(f.texts, bare[k].id))
      invariant forall k :: i <= k < |bare| ==> apps[k] == bare[k]
    {
      var texts := TextsOf(f.texts, apps[i].id);
      if |texts| > 0 {
        apps := apps[i := apps[i].(translations := texts)];
      }
    }
    forall a | a in chosen
      ensures exists e :: e in apps && e.id == a
    {
      var k :| 0 <= k < |order| && order[k] == a;
      assert apps[k] in apps && apps[k].id == a;
    }
  }
}

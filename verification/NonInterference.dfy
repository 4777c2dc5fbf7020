/** What private apps, platforms, grants and publishers can and cannot do to the anonymous catalogue
    over whole runs. */
module NonInterference {
  import opened Basics
  import opened Semver
  import opened Tables
  import opened Wire
  import opened Review
  import opened Catalogue
  import opened CatalogueLaws
  import opened ReviewLaws

  predicate IsPublic(s: Store, app: string) { app in s.apps && s.apps[app].listing.visibility == "public" }

  predicate PublicVersion(s: Store, v: string) { v in s.releases && IsPublic(s, s.releases[v].app) }

  ghost predicate HasEvent(s: Store, eid: string, v: string)
  {
    exists i :: 0 <= i < |s.events| && s.events[i].id == eid && s.events[i].version == v
  }

  ghost predicate PublicEvent(s: Store, eid: string, v: string) { PublicVersion(s, v) && HasEvent(s, eid, v) }

  predicate AppAlike(s: Store, t: Store, app: string)
  {
    && (IsPublic(s, app) <==> IsPublic(t, app))
    && (IsPublic(s, app) ==>
          && s.apps[app].listing == t.apps[app].listing && s.apps[app].publisher == t.apps[app].publisher
          && TextsOf(s.texts, app) == TextsOf(t.texts, app))
  }

  predicate VersionAlike(s: Store, t: Store, v: string)
  {
    (PublicVersion(s, v) <==> PublicVersion(t, v)) && (PublicVersion(s, v) ==> s.releases[v] == t.releases[v])
  }

  ghost predicate EventAlike(s: Store, t: Store, eid: string, v: string)
  {
    PublicEvent(s, eid, v) <==> PublicEvent(t, eid, v)
  }

  /** The two tables hold the same public apps, with the same owners and translations, the same
      versions, reviewed or not, and events of the same ids about them. */
  ghost predicate SamePublic(s: Store, t: Store)
  {
    (forall a :: AppAlike(s, t, a)) && (forall v :: VersionAlike(s, t, v)) && (forall e, v :: EventAlike(s, t, e, v))
  }

  // --- what one transaction shows ----------------------------------------------

  predicate Reviews(op: Op) { op.OpSaveApp? || op.OpSubmit? || op.OpDecide? }

  /** Going through, the transaction would leave the public part as it is: it saves a private app as
      private, saves a public app as it stands, or concerns a version of an app that is not public. */
  predicate ShowsNothing(s: Store, op: Op)
  {
    match op
    case OpSaveApp(id, _, _, listing, texts, _) =>
      if IsPublic(s, id) then listing == s.apps[id].listing && TextsOf(s.texts, id) + texts == TextsOf(s.texts, id)
      else listing.visibility != "public"
    case OpSubmit(app, _, _, _, _, _, _, _) => !IsPublic(s, app)
    case OpDecide(vid, _, _, _, _, _, _) => !PublicVersion(s, vid)
    case _ => true
  }

  /** Exactly the transactions that show nothing leave the public part as it is. */
  lemma ShowsExactly(rules: Rules, s: Store, op: Op)
    requires Exec(rules, s, op).Ok?
    ensures SamePublic(s, Exec(rules, s, op).value) <==> ShowsNothing(s, op)
  {
    match op
    case OpSaveApp(id, publisher, kind, listing, texts, now) => SaveShowsExactly(s, id, publisher, kind, listing, texts, now);
    case OpSubmit(app, kind, channel, manifest, submitter, vid, eid, now) =>
      SubmitShowsExactly(s, ReleaseFrom(app, channel, manifest, submitter, now), ExternalFromManifest(manifest), vid, eid);
    case OpDecide(vid, action, actorId, actor, note, eid, now) => DecideShowsExactly(s, vid, action, actorId, actor, note, eid, now);
    case _ => OthersTouchNoTrail(rules, s, op);
  }

  lemma SaveShowsExactly(s: Store, id: string, publisher: string, kind: string, listing: Listing, texts: map<string, Text>, now: Time)
    requires SaveApp(s, id, publisher, kind, listing, texts, now).Ok?
    ensures SamePublic(s, SaveApp(s, id, publisher, kind, listing, texts, now).value) <==>
              if IsPublic(s, id) then listing == s.apps[id].listing && TextsOf(s.texts, id) + texts == TextsOf(s.texts, id)
              else listing.visibility != "public"
  {
    var a := SaveApp(s, id, publisher, kind, listing, texts, now).value;
    SaveAppSaves(s, id, publisher, kind, listing, texts, now);
    if IsPublic(s, id) {
      assert s.apps[id].publisher == publisher;
      if listing == s.apps[id].listing && TextsOf(s.texts, id) + texts == TextsOf(s.texts, id) { SavedAsItStands(s, a, id); }
      if SamePublic(s, a) { assert AppAlike(s, a, id); }
    } else {
      if listing.visibility != "public" { HiddenSave(s, id, publisher, kind, listing, texts, now); }
      if SamePublic(s, a) { assert AppAlike(s, a, id); }
    }
  }

  lemma SavedAsItStands(s: Store, a: Store, id: string)
    requires a.releases == s.releases && a.events == s.events && forall x :: AppAlike(s, a, x)
    ensures SamePublic(s, a)
  {
    forall v ensures VersionAlike(s, a, v) {
      assert v in s.releases ==> AppAlike(s, a, s.releases[v].app);
    }
    forall e, v ensures EventAlike(s, a, e, v) {
      assert VersionAlike(s, a, v);
      SameEvents(s, a, e, v);
    }
  }

  lemma SubmitShowsExactly(s: Store, r: Release, external: Option<ExternalSpec>, vid: string, eid: string)
    requires SubmitVersion(s, r, external, vid, eid).Ok?
    ensures SamePublic(s, SubmitVersion(s, r, external, vid, eid).value) <==> !IsPublic(s, r.app)
  {
    if IsPublic(s, r.app) {
      assert !VersionAlike(s, SubmitVersion(s, r, external, vid, eid).value, vid);
    } else {
      HiddenSubmit(s, r, external, vid, eid);
    }
  }

  lemma DecideShowsExactly(s: Store, vid: string, action: string, actorId: Option<string>, actor: string, note: string, eid: string, now: Time)
    requires DecideVersion(s, vid, action, actorId, actor, note, eid, now).Ok?
    ensures SamePublic(s, DecideVersion(s, vid, action, actorId, actor, note, eid, now).value) <==> !PublicVersion(s, vid)
  {
    var t := DecideVersion(s, vid, action, actorId, actor, note, eid, now).value;
    if PublicVersion(s, vid) {
      assert t.events[|s.events|].id == eid && t.events[|s.events|].version == vid;
      assert HasEvent(t, eid, vid) && !HasEvent(s, eid, vid) && PublicVersion(t, vid);
      assert !EventAlike(s, t, eid, vid);
    } else {
      HiddenDecide(s, vid, action, actorId, actor, note, eid, now);
    }
  }

  lemma HiddenSave(s: Store, id: string, publisher: string, kind: string, listing: Listing, texts: map<string, Text>, now: Time)
    requires !IsPublic(s, id) && listing.visibility != "public" && SaveApp(s, id, publisher, kind, listing, texts, now).Ok?
    ensures SamePublic(s, SaveApp(s, id, publisher, kind, listing, texts, now).value)
  {
  }

  /** One more event, about a version that is not public before or after. */
  lemma HiddenEventAdded(s: Store, t: Store, e: Event)
    requires t.events == s.events + [e] && !PublicVersion(s, e.version) && !PublicVersion(t, e.version)
    requires forall v :: PublicVersion(s, v) <==> PublicVersion(t, v)
    ensures forall x, v :: EventAlike(s, t, x, v)
  {
    forall x, v ensures EventAlike(s, t, x, v) {
      if v != e.version { OtherEvents(s, t, e, x, v); }
    }
  }

  lemma OtherEvents(s: Store, t: Store, e: Event, x: string, v: string)
    requires t.events == s.events + [e] && (e.id, e.version) != (x, v)
    ensures HasEvent(s, x, v) <==> HasEvent(t, x, v)
  {
    if i :| 0 <= i < |s.events| && s.events[i].id == x && s.events[i].version == v { assert t.events[i] == s.events[i]; }
  }

  lemma HiddenSubmit(s: Store, r: Release, external: Option<ExternalSpec>, vid: string, eid: string)
    requires !IsPublic(s, r.app) && SubmitVersion(s, r, external, vid, eid).Ok?
    ensures SamePublic(s, SubmitVersion(s, r, external, vid, eid).value)
  {
    var t := SubmitVersion(s, r, external, vid, eid).value;
    HiddenEventAdded(s, t, t.events[|s.events|]);
  }

  lemma HiddenDecide(s: Store, vid: string, action: string, actorId: Option<string>, actor: string, note: string, eid: string, now: Time)
    requires DecideVersion(s, vid, action, actorId, actor, note, eid, now).Ok? && !IsPublic(s, s.releases[vid].app)
    ensures SamePublic(s, DecideVersion(s, vid, action, actorId, actor, note, eid, now).value)
  {
    var t := DecideVersion(s, vid, action, actorId, actor, note, eid, now).value;
    HiddenEventAdded(s, t, t.events[|s.events|]);
  }

  // --- how a common transaction ends ------------------------------------------

  /** Nothing public stands in the way. */
  ghost predicate Admitted(rules: Rules, s: Store, op: Op)
  {
    match op
    case OpSaveApp(id, publisher, _, listing, _, _) =>
      && (IsPublic(s, id) ==> s.apps[id].publisher == publisher)
      && !exists a :: a != id && IsPublic(s, a) && s.apps[a].listing.slug == listing.slug
    case OpSubmit(app, kind, channel, manifest, _, vid, eid, _) =>
      && Acceptable(rules, app, kind, channel, manifest) && (IsPublic(s, app) ==> !NumberUsed(s, app, manifest.version))
      && !PublicVersion(s, vid) && !exists v :: PublicEvent(s, eid, v)
    case OpDecide(vid, action, _, _, _, eid, _) =>
      Outcome(action).Some? && !exists v :: PublicEvent(s, eid, v)
    case _ => true
  }

  ghost predicate HiddenEvent(s: Store, eid: string)
  {
    exists i :: 0 <= i < |s.events| && s.events[i].id == eid && !PublicVersion(s, s.events[i].version)
  }

  /** Something that is not public stands in the way. Of a save: the publisher is not there, or a
      non-public app holds the slug, or holds the id for another publisher. Of a submission: the app is
      not there, or is not public and has used the number, or a hidden row holds the version id or
      the event id. Of a decision: the version is not there, or a hidden row holds the event id. */
  ghost predicate Blocked(s: Store, op: Op)
  {
    match op
    case OpSaveApp(id, publisher, _, listing, _, _) =>
      || publisher !in s.publishers
      || (id in s.apps && !IsPublic(s, id) && s.apps[id].publisher != publisher)
      || exists a :: a in s.apps && a != id && !IsPublic(s, a) && s.apps[a].listing.slug == listing.slug
    case OpSubmit(app, _, _, manifest, _, vid, eid, _) =>
      || app !in s.apps || (!IsPublic(s, app) && NumberUsed(s, app, manifest.version))
      || (vid in s.releases && !PublicVersion(s, vid)) || HiddenEvent(s, eid)
    case OpDecide(vid, _, _, _, _, eid, _) => vid !in s.releases || HiddenEvent(s, eid)
    case _ => false
  }

  lemma EventIdSplits(s: Store, eid: string)
    ensures EventUsed(s, eid) <==> HiddenEvent(s, eid) || exists v :: PublicEvent(s, eid, v)
  {
    if i :| 0 <= i < |s.events| && s.events[i].id == eid {
      assert HasEvent(s, eid, s.events[i].version);
      assert HiddenEvent(s, eid) || PublicEvent(s, eid, s.events[i].version);
    }
  }

  /** A transaction goes through exactly when nothing public and nothing hidden is in its way. */
  lemma OutcomeSplits(rules: Rules, s: Store, op: Op)
    requires Reviews(op)
    ensures Exec(rules, s, op).Ok? <==> Admitted(rules, s, op) && !Blocked(s, op)
  {
    match op
    case OpSaveApp(id, publisher, kind, listing, texts, now) => SaveSplits(s, id, listing.slug);
    case OpSubmit(app, kind, channel, manifest, submitter, vid, eid, now) => EventIdSplits(s, eid);
    case OpDecide(vid, action, actorId, actor, note, eid, now) => EventIdSplits(s, eid);
  }

  lemma SaveSplits(s: Store, id: string, slug: string)
    ensures SlugTaken(s, id, slug) <==>
      || (exists a :: a != id && IsPublic(s, a) && s.apps[a].listing.slug == slug)
      || (exists a :: a in s.apps && a != id && !IsPublic(s, a) && s.apps[a].listing.slug == slug)
  {
  }

  lemma SlugsAlike(s: Store, t: Store, id: string, slug: string)
    requires SamePublic(s, t)
    ensures (exists a :: a != id && IsPublic(s, a) && s.apps[a].listing.slug == slug)
        ==> (exists a :: a != id && IsPublic(t, a) && t.apps[a].listing.slug == slug)
  {
    if a :| a != id && IsPublic(s, a) && s.apps[a].listing.slug == slug { assert AppAlike(s, t, a); }
  }

  lemma NumbersAlike(s: Store, t: Store, app: string, number: SemVer)
    requires SamePublic(s, t) && IsPublic(s, app)
    ensures NumberUsed(s, app, number) ==> NumberUsed(t, app, number)
  {
    if v :| v in s.releases && s.releases[v].app == app && s.releases[v].number == number { assert VersionAlike(s, t, v); }
  }

  lemma EventsAlike(s: Store, t: Store, eid: string)
    requires SamePublic(s, t)
    ensures (exists v :: PublicEvent(s, eid, v)) ==> exists v :: PublicEvent(t, eid, v)
  {
    if v :| PublicEvent(s, eid, v) { assert EventAlike(s, t, eid, v); }
  }

  lemma AdmissionIsPublic(rules: Rules, s: Store, t: Store, op: Op)
    requires SamePublic(s, t) && SamePublic(t, s)
    ensures Admitted(rules, s, op) ==> Admitted(rules, t, op)
  {
    match op
    case OpSaveApp(id, publisher, kind, listing, texts, now) =>
      assert AppAlike(s, t, id);
      SlugsAlike(t, s, id, listing.slug);
    case OpSubmit(app, kind, channel, manifest, submitter, vid, eid, now) =>
      assert AppAlike(s, t, app) && VersionAlike(s, t, vid);
      if IsPublic(t, app) { NumbersAlike(t, s, app, manifest.version); }
      EventsAlike(t, s, eid);
    case OpDecide(vid, action, actorId, actor, note, eid, now) =>
      EventsAlike(t, s, eid);
    case _ =>
  }

  /** Two registries with the same public part end a common transaction differently exactly when
      nothing public is in its way and something hidden is, in one of them only. */
  lemma CommonTransactionsEndAlike(rules: Rules, s: Store, t: Store, op: Op)
    requires SamePublic(s, t) && Reviews(op)
    ensures (Exec(rules, s, op).Ok? <==> Exec(rules, t, op).Ok?) <==> Unhindered(rules, s, t, op)
    ensures Admitted(rules, s, op) <==> Admitted(rules, t, op)
  {
    SamePublicSymmetric(s, t);
    AdmissionIsPublic(rules, s, t, op);
    AdmissionIsPublic(rules, t, s, op);
    OutcomeSplits(rules, s, op);
    OutcomeSplits(rules, t, op);
  }

  /** Hidden rows block the transaction in both registries or in neither, or it is refused anyway. */
  ghost predicate Unhindered(rules: Rules, s: Store, t: Store, op: Op)
  {
    Admitted(rules, s, op) ==> (Blocked(s, op) <==> Blocked(t, op))
  }

  // --- what a common transaction shows ----------------------------------------

  predicate VersionOf(s: Store, app: string, v: string) { v in s.releases && s.releases[v].app == app }

  predicate OwnVersionAlike(s: Store, t: Store, app: string, v: string)
  {
    (VersionOf(s, app, v) <==> VersionOf(t, app, v)) && (VersionOf(s, app, v) ==> s.releases[v] == t.releases[v])
  }

  ghost predicate OwnEventAlike(s: Store, t: Store, app: string, eid: string, v: string)
  {
    VersionOf(s, app, v) ==> (HasEvent(s, eid, v) <==> HasEvent(t, eid, v))
  }

  /** Opened with these translations, the app would show the same in both registries: its merged
      translations, its versions and the ids of their events agree. */
  ghost predicate OpensAlike(s: Store, t: Store, app: string, texts: map<string, Text>)
  {
    && TextsOf(s.texts, app) + texts == TextsOf(t.texts, app) + texts
    && (forall v :: OwnVersionAlike(s, t, app, v))
    && (forall eid, v :: OwnEventAlike(s, t, app, eid, v))
  }

  /** A transaction common to two registries shows the same in both. Blocked in both, it shows nothing;
      blocked in one, it must show nothing in the other; going through in both, it must open alike any
      app it makes public. */
  ghost predicate ShownAlike(rules: Rules, s: Store, t: Store, op: Op)
  {
    Reviews(op) && Admitted(rules, s, op) ==>
      if Blocked(s, op) && Blocked(t, op) then true
      else if Blocked(t, op) then ShowsNothing(s, op)
      else if Blocked(s, op) then ShowsNothing(t, op)
      else (op.OpSaveApp? && op.listing.visibility == "public" ==> OpensAlike(s, t, op.id, op.texts))
  }

  /** Registries with the same public part still have the same public part after a common transaction
      exactly when it shows the same in both, by a condition on the tables before it. */
  lemma CommonTransactionsShowAlike(rules: Rules, s: Store, t: Store, op: Op)
    requires SamePublic(s, t) && References(s) && References(t)
    ensures SamePublic(After(rules, s, op), After(rules, t, op)) <==> ShownAlike(rules, s, t, op)
  {
    if Reviews(op) {
      CommonTransactionsEndAlike(rules, s, t, op);
      OutcomeSplits(rules, s, op);
      OutcomeSplits(rules, t, op);
      var p, q := Exec(rules, s, op), Exec(rules, t, op);
      if p.Ok? && q.Ok? {
        BothShow(rules, s, t, op);
      } else if p.Ok? {
        ShowsExactly(rules, s, op);
        OneMoves(s, p.value, t);
      } else if q.Ok? {
        ShowsExactly(rules, t, op);
        SamePublicSymmetric(s, t);
        OneMoves(t, q.value, s);
      }
    } else {
      OthersShowNothing(rules, s, t, op);
    }
  }

  lemma OthersShowNothing(rules: Rules, s: Store, t: Store, op: Op)
    requires SamePublic(s, t) && !Reviews(op)
    ensures SamePublic(After(rules, s, op), After(rules, t, op))
  {
    if Exec(rules, s, op).Ok? { ShowsExactly(rules, s, op); } else { SamePublicItself(s); }
    if Exec(rules, t, op).Ok? { ShowsExactly(rules, t, op); } else { SamePublicItself(t); }
    SamePublicTransitive(s, t, After(rules, t, op));
    SamePublicTransitive(After(rules, t, op), s, After(rules, s, op));
  }

  lemma SamePublicItself(s: Store)
    ensures SamePublic(s, s)
  {
  }

  /** With t alike to s, a step of s alone keeps the two alike exactly when it changes nothing public. */
  lemma OneMoves(s: Store, a: Store, t: Store)
    requires SamePublic(s, t)
    ensures SamePublic(a, t) <==> SamePublic(s, a)
    ensures SamePublic(t, a) <==> SamePublic(s, a)
  {
    if SamePublic(a, t) {
      SamePublicSymmetric(a, t);
      SamePublicTransitive(s, t, a);
    }
    if SamePublic(t, a) { SamePublicTransitive(s, t, a); }
    if SamePublic(s, a) {
      SamePublicSymmetric(s, t);
      SamePublicTransitive(t, s, a);
    }
  }

  lemma BothShow(rules: Rules, s: Store, t: Store, op: Op)
    requires SamePublic(s, t) && References(s) && References(t) && Reviews(op)
    requires Exec(rules, s, op).Ok? && Exec(rules, t, op).Ok?
    ensures SamePublic(Exec(rules, s, op).value, Exec(rules, t, op).value) <==>
              (op.OpSaveApp? && op.listing.visibility == "public" ==> OpensAlike(s, t, op.id, op.texts))
  {
    match op
    case OpSaveApp(id, publisher, kind, listing, texts, now) => BothSave(s, t, id, publisher, kind, listing, texts, now);
    case OpSubmit(app, kind, channel, manifest, submitter, vid, eid, now) =>
      assert AppAlike(s, t, app);
      if IsPublic(s, app) {
        SharedSubmit(s, t, ReleaseFrom(app, channel, manifest, submitter, now), ExternalFromManifest(manifest), vid, eid);
      } else {
        BothHidden(rules, s, t, op);
      }
    case OpDecide(vid, action, actorId, actor, note, eid, now) =>
      assert VersionAlike(s, t, vid);
      if PublicVersion(s, vid) {
        SharedDecide(s, t, vid, action, actorId, actor, note, eid, now);
      } else {
        BothHidden(rules, s, t, op);
      }
  }

  lemma BothHidden(rules: Rules, s: Store, t: Store, op: Op)
    requires SamePublic(s, t) && Exec(rules, s, op).Ok? && Exec(rules, t, op).Ok? && ShowsNothing(s, op) && ShowsNothing(t, op)
    ensures SamePublic(Exec(rules, s, op).value, Exec(rules, t, op).value)
  {
    ShowsExactly(rules, s, op);
    ShowsExactly(rules, t, op);
    OneMoves(s, Exec(rules, s, op).value, t);
    SamePublicTransitive(Exec(rules, s, op).value, t, Exec(rules, t, op).value);
  }

  lemma BothSave(s: Store, t: Store, id: string, publisher: string, kind: string, listing: Listing, texts: map<string, Text>, now: Time)
    requires SamePublic(s, t) && References(s) && References(t)
    requires SaveApp(s, id, publisher, kind, listing, texts, now).Ok? && SaveApp(t, id, publisher, kind, listing, texts, now).Ok?
    ensures SamePublic(SaveApp(s, id, publisher, kind, listing, texts, now).value,
                       SaveApp(t, id, publisher, kind, listing, texts, now).value) <==>
              (listing.visibility == "public" ==> OpensAlike(s, t, id, texts))
  {
    var a := SaveApp(s, id, publisher, kind, listing, texts, now).value;
    var b := SaveApp(t, id, publisher, kind, listing, texts, now).value;
    SaveAppSaves(s, id, publisher, kind, listing, texts, now);
    SaveAppSaves(t, id, publisher, kind, listing, texts, now);
    if listing.visibility == "public" {
      if OpensAlike(s, t, id, texts) { OpenedAlike(s, t, a, b, id, publisher, listing, texts); }
      if SamePublic(a, b) { OpenedSame(s, t, a, b, id, publisher, listing, texts); }
    } else {
      ClosedAlike(s, t, a, b, id, publisher, listing, texts);
    }
  }

  lemma SaveAppSaves(s: Store, id: string, publisher: string, kind: string, listing: Listing, texts: map<string, Text>, now: Time)
    requires SaveApp(s, id, publisher, kind, listing, texts, now).Ok?
    ensures SavedInto(s, SaveApp(s, id, publisher, kind, listing, texts, now).value, id, publisher, listing, texts)
  {
  }

  /** What saving an app does to the columns an anonymous catalogue serves. */
  ghost predicate SavedInto(s: Store, a: Store, id: string, publisher: string, listing: Listing, texts: map<string, Text>)
  {
    && a.releases == s.releases && a.events == s.events
    && id in a.apps && a.apps[id].listing == listing && a.apps[id].publisher == publisher
    && TextsOf(a.texts, id) == TextsOf(s.texts, id) + texts
    && (forall x :: x != id ==> AppAlike(s, a, x))
  }

  lemma AppsAfterSave(s: Store, t: Store, a: Store, b: Store, id: string, publisher: string, listing: Listing, texts: map<string, Text>)
    requires SamePublic(s, t) && SavedInto(s, a, id, publisher, listing, texts) && SavedInto(t, b, id, publisher, listing, texts)
    ensures forall x :: x != id ==> AppAlike(a, b, x)
  {
    forall x | x != id ensures AppAlike(a, b, x) {
      assert AppAlike(s, t, x) && AppAlike(s, a, x) && AppAlike(t, b, x);
    }
  }

  /** A version is public after the save if its app is the one saved as public, or was public before. */
  lemma VersionAfterSave(s: Store, a: Store, id: string, publisher: string, listing: Listing, texts: map<string, Text>, v: string)
    requires SavedInto(s, a, id, publisher, listing, texts)
    ensures PublicVersion(a, v) <==>
              if VersionOf(s, id, v) then listing.visibility == "public" else PublicVersion(s, v)
  {
    assert v in s.releases && s.releases[v].app != id ==> AppAlike(s, a, s.releases[v].app);
  }

  lemma OpenedAlike(s: Store, t: Store, a: Store, b: Store, id: string, publisher: string, listing: Listing, texts: map<string, Text>)
    requires SamePublic(s, t) && listing.visibility == "public" && OpensAlike(s, t, id, texts)
    requires SavedInto(s, a, id, publisher, listing, texts) && SavedInto(t, b, id, publisher, listing, texts)
    ensures SamePublic(a, b)
  {
    AppsAfterSave(s, t, a, b, id, publisher, listing, texts);
    forall v ensures VersionAlike(a, b, v) {
      VersionAfterSave(s, a, id, publisher, listing, texts, v);
      VersionAfterSave(t, b, id, publisher, listing, texts, v);
      assert VersionAlike(s, t, v) && OwnVersionAlike(s, t, id, v);
    }
    forall e, v ensures EventAlike(a, b, e, v) {
      VersionAfterSave(s, a, id, publisher, listing, texts, v);
      assert VersionAlike(a, b, v) && OwnVersionAlike(s, t, id, v) && VersionAlike(s, t, v);
      assert EventAlike(s, t, e, v) && OwnEventAlike(s, t, id, e, v);
      SameEvents(s, a, e, v);
      SameEvents(t, b, e, v);
    }
  }

  lemma OpenedSame(s: Store, t: Store, a: Store, b: Store, id: string, publisher: string, listing: Listing, texts: map<string, Text>)
    requires listing.visibility == "public" && SamePublic(a, b)
    requires SavedInto(s, a, id, publisher, listing, texts) && SavedInto(t, b, id, publisher, listing, texts)
    ensures OpensAlike(s, t, id, texts)
  {
    assert AppAlike(a, b, id);
    forall v ensures OwnVersionAlike(s, t, id, v) {
      assert VersionAlike(a, b, v);
    }
    forall e, v ensures OwnEventAlike(s, t, id, e, v) {
      assert OwnVersionAlike(s, t, id, v) && EventAlike(a, b, e, v);
      SameEvents(s, a, e, v);
      SameEvents(t, b, e, v);
    }
  }

  lemma ClosedAlike(s: Store, t: Store, a: Store, b: Store, id: string, publisher: string, listing: Listing, texts: map<string, Text>)
    requires SamePublic(s, t) && listing.visibility != "public"
    requires SavedInto(s, a, id, publisher, listing, texts) && SavedInto(t, b, id, publisher, listing, texts)
    ensures SamePublic(a, b)
  {
    AppsAfterSave(s, t, a, b, id, publisher, listing, texts);
    assert AppAlike(s, t, id);
    forall v ensures VersionAlike(a, b, v) {
      VersionAfterSave(s, a, id, publisher, listing, texts, v);
      VersionAfterSave(t, b, id, publisher, listing, texts, v);
      assert VersionAlike(s, t, v);
    }
    forall e, v ensures EventAlike(a, b, e, v) {
      VersionAfterSave(s, a, id, publisher, listing, texts, v);
      VersionAfterSave(t, b, id, publisher, listing, texts, v);
      assert VersionAlike(a, b, v) && EventAlike(s, t, e, v);
      SameEvents(s, a, e, v);
      SameEvents(t, b, e, v);
    }
  }

  lemma SameEvents(s: Store, a: Store, e: string, v: string)
    requires a.events == s.events
    ensures HasEvent(a, e, v) <==> HasEvent(s, e, v)
  {
  }

  lemma SharedSubmit(s: Store, t: Store, r: Release, external: Option<ExternalSpec>, vid: string, eid: string)
    requires SamePublic(s, t) && References(s) && References(t)
    requires (r.app in s.apps ==> IsPublic(s, r.app)) && (r.app in t.apps ==> IsPublic(t, r.app))
    requires SubmitVersion(s, r, external, vid, eid).Ok? && SubmitVersion(t, r, external, vid, eid).Ok?
    ensures SamePublic(SubmitVersion(s, r, external, vid, eid).value, SubmitVersion(t, r, external, vid, eid).value)
  {
    var a, b := SubmitVersion(s, r, external, vid, eid).value, SubmitVersion(t, r, external, vid, eid).value;
    forall x ensures AppAlike(a, b, x) {
      assert AppAlike(s, t, x);
    }
    forall v ensures VersionAlike(a, b, v) {
      assert VersionAlike(s, t, v);
    }
    forall v | v != vid ensures PublicVersion(a, v) <==> PublicVersion(s, v) {}
    forall v | v != vid ensures PublicVersion(b, v) <==> PublicVersion(t, v) {}
    forall x ensures !HasEvent(s, x, vid) && !HasEvent(t, x, vid) {}
    SharedEventAdded(s, t, a, b, a.events[|s.events|]);
  }

  /** Both registries record the same event: events about other versions stay as they are, and
      events about its version agree if they did before. */
  lemma SharedEventAdded(s: Store, t: Store, a: Store, b: Store, e: Event)
    requires SamePublic(s, t) && a.events == s.events + [e] && b.events == t.events + [e]
    requires forall v :: VersionAlike(a, b, v)
    requires forall v :: v != e.version ==> (PublicVersion(a, v) <==> PublicVersion(s, v)) && (PublicVersion(b, v) <==> PublicVersion(t, v))
    requires forall x :: HasEvent(s, x, e.version) <==> HasEvent(t, x, e.version)
    ensures forall x, v :: EventAlike(a, b, x, v)
  {
    assert a.events[|s.events|] == e && b.events[|t.events|] == e;
    forall x, v ensures EventAlike(a, b, x, v) {
      assert EventAlike(s, t, x, v) && VersionAlike(a, b, v);
      if (e.id, e.version) != (x, v) {
        OtherEvents(s, a, e, x, v);
        OtherEvents(t, b, e, x, v);
      } else {
        assert HasEvent(a, x, v) && HasEvent(b, x, v);
      }
    }
  }

  lemma SharedDecide(s: Store, t: Store, vid: string, action: string, actorId: Option<string>, actor: string, note: string, eid: string, now: Time)
    requires SamePublic(s, t)
    requires DecideVersion(s, vid, action, actorId, actor, note, eid, now).Ok? && DecideVersion(t, vid, action, actorId, actor, note, eid, now).Ok?
    requires PublicVersion(s, vid) && PublicVersion(t, vid)
    ensures SamePublic(DecideVersion(s, vid, action, actorId, actor, note, eid, now).value,
                       DecideVersion(t, vid, action, actorId, actor, note, eid, now).value)
  {
    var a := DecideVersion(s, vid, action, actorId, actor, note, eid, now).value;
    var b := DecideVersion(t, vid, action, actorId, actor, note, eid, now).value;
    forall x ensures AppAlike(a, b, x) {
      assert AppAlike(s, t, x);
    }
    assert VersionAlike(s, t, vid);
    forall v ensures VersionAlike(a, b, v) {
      assert VersionAlike(s, t, v);
    }
    forall v ensures PublicVersion(a, v) <==> PublicVersion(s, v) {}
    forall v ensures PublicVersion(b, v) <==> PublicVersion(t, v) {}
    forall x ensures HasEvent(s, x, vid) <==> HasEvent(t, x, vid) { assert EventAlike(s, t, x, vid); }
    SharedEventAdded(s, t, a, b, a.events[|s.events|]);
  }

  lemma SamePublicSymmetric(s: Store, t: Store)
    requires SamePublic(s, t)
    ensures SamePublic(t, s)
  {
    forall a ensures AppAlike(t, s, a) { assert AppAlike(s, t, a); }
    forall v ensures VersionAlike(t, s, v) { assert VersionAlike(s, t, v); }
    forall e, v ensures EventAlike(t, s, e, v) { assert EventAlike(s, t, e, v); }
  }

  lemma SamePublicTransitive(s: Store, t: Store, u: Store)
    requires SamePublic(s, t) && SamePublic(t, u)
    ensures SamePublic(s, u) && SamePublic(u, s)
  {
    forall a ensures AppAlike(s, u, a) && AppAlike(u, s, a) {
      assert AppAlike(s, t, a) && AppAlike(t, u, a);
    }
    forall v ensures VersionAlike(s, u, v) && VersionAlike(u, s, v) {
      assert VersionAlike(s, t, v) && VersionAlike(t, u, v);
    }
    forall e, v ensures EventAlike(s, u, e, v) && EventAlike(u, s, e, v) {
      assert EventAlike(s, t, e, v) && EventAlike(t, u, e, v);
    }
  }

  // --- runs side by side ------------------------------------------------------

  /** One line of two runs laid side by side: a transaction of both, or an extra one of either. */
  datatype Line = Both(op: Op) | First(op: Op) | Second(op: Op)

  ghost function FirstRun(rules: Rules, s: Store, lines: seq<Line>): Store
    decreases |lines|
  {
    if lines == [] then s
    else
      var (before, line) := (FirstRun(rules, s, lines[..|lines| - 1]), lines[|lines| - 1]);
      if line.Second? then before else After(rules, before, line.op)
  }

  ghost function SecondRun(rules: Rules, t: Store, lines: seq<Line>): Store
    decreases |lines|
  {
    if lines == [] then t
    else
      var (before, line) := (SecondRun(rules, t, lines[..|lines| - 1]), lines[|lines| - 1]);
      if line.First? then before else After(rules, before, line.op)
  }

  /** What goes through shows nothing. */
  ghost predicate Hidden(rules: Rules, s: Store, op: Op)
  {
    Reviews(op) && Admitted(rules, s, op) && !Blocked(s, op) ==> ShowsNothing(s, op)
  }

  /** A transaction leaves the public part as it is exactly when it is refused or shows nothing. */
  lemma HiddenExactly(rules: Rules, s: Store, op: Op)
    ensures SamePublic(s, After(rules, s, op)) <==> Hidden(rules, s, op)
  {
    if Reviews(op) { OutcomeSplits(rules, s, op); }
    if Exec(rules, s, op).Ok? { ShowsExactly(rules, s, op); } else { SamePublicItself(s); }
  }

  /** Extra transactions show nothing, and common ones show the same in both runs. Every condition can
      be read off the tables before the transaction. */
  ghost predicate SideBySide(rules: Rules, s: Store, t: Store, lines: seq<Line>)
    decreases |lines|
  {
    lines == [] ||
      (var (before, line) := (lines[..|lines| - 1], lines[|lines| - 1]);
       SideBySide(rules, s, t, before) && LineFits(rules, FirstRun(rules, s, before), SecondRun(rules, t, before), line))
  }

  ghost predicate LineFits(rules: Rules, a: Store, b: Store, line: Line)
  {
    match line
    case Both(op) => ShownAlike(rules, a, b, op)
    case First(op) => Hidden(rules, a, op)
    case Second(op) => Hidden(rules, b, op)
  }

  /** The two runs have the same public part at the start and after every line. */
  ghost predicate AlwaysAlike(rules: Rules, s: Store, t: Store, lines: seq<Line>)
    decreases |lines|
  {
    SamePublic(FirstRun(rules, s, lines), SecondRun(rules, t, lines)) && (lines == [] || AlwaysAlike(rules, s, t, lines[..|lines| - 1]))
  }

  lemma {:induction false} RunsKeepTrail(rules: Rules, s: Store, t: Store, lines: seq<Line>)
    requires TrailKept(s) && TrailKept(t)
    ensures TrailKept(FirstRun(rules, s, lines)) && TrailKept(SecondRun(rules, t, lines))
    decreases |lines|
  {
    if lines != [] {
      var before, line := lines[..|lines| - 1], lines[|lines| - 1];
      RunsKeepTrail(rules, s, t, before);
      ExecKeepsTrail(rules, FirstRun(rules, s, before), line.op);
      ExecKeepsTrail(rules, SecondRun(rules, t, before), line.op);
    }
  }

  lemma LineFitsExactly(rules: Rules, a: Store, b: Store, line: Line)
    requires SamePublic(a, b) && References(a) && References(b)
    ensures LineFits(rules, a, b, line) <==>
              SamePublic(if line.Second? then a else After(rules, a, line.op), if line.First? then b else After(rules, b, line.op))
  {
    match line
    case Both(op) => CommonTransactionsShowAlike(rules, a, b, op);
    case First(op) =>
      HiddenExactly(rules, a, op);
      OneMoves(a, After(rules, a, op), b);
    case Second(op) =>
      HiddenExactly(rules, b, op);
      SamePublicSymmetric(a, b);
      OneMoves(b, After(rules, b, op), a);
  }

  /** Two runs keep the same public part throughout exactly when every extra transaction shows nothing
      and every common one shows the same in both. */
  lemma {:induction false} RunsLookAlikeExactly(rules: Rules, s: Store, t: Store, lines: seq<Line>)
    requires SamePublic(s, t) && TrailKept(s) && TrailKept(t)
    ensures AlwaysAlike(rules, s, t, lines) <==> SideBySide(rules, s, t, lines)
    decreases |lines|
  {
    if lines != [] {
      var before, line := lines[..|lines| - 1], lines[|lines| - 1];
      RunsLookAlikeExactly(rules, s, t, before);
      RunsKeepTrail(rules, s, t, before);
      var a, b := FirstRun(rules, s, before), SecondRun(rules, t, before);
      if SamePublic(a, b) { LineFitsExactly(rules, a, b, line); }
    }
  }

  /** Non-interference of runs: two runs that differ by any number of transactions that show nothing, and
      whose common transactions show the same in both, end with the same anonymous documents. */
  lemma PrivateStepsDoNotShow(rules: Rules, signer: Signer, s: Store, t: Store, lines: seq<Line>, ask: Ask,
                              platform: string, revision: nat, snapshot: Snapshot)
    requires SamePublic(s, t) && TrailKept(s) && TrailKept(t) && SideBySide(rules, s, t, lines) && ask.ids == {}
    ensures IsBuild(rules, signer, FaceOf(FirstRun(rules, s, lines)), ask, platform, revision, snapshot)
       <==> IsBuild(rules, signer, FaceOf(SecondRun(rules, t, lines)), ask, platform, revision, snapshot)
  {
    RunsLookAlikeExactly(rules, s, t, lines);
    var a, b := FirstRun(rules, s, lines), SecondRun(rules, t, lines);
    SamePublicFaces(a, b);
    AnonymousSeesOnlyPublic(rules, signer, FaceOf(a), FaceOf(b), ask, platform, revision, snapshot);
  }

  lemma SamePublicFaces(s: Store, t: Store)
    requires SamePublic(s, t)
    ensures SamePublicPart(FaceOf(s), FaceOf(t))
  {
    var f, g := FaceOf(s), FaceOf(t);
    forall a ensures SameApp(f, g, a) {
      assert AppAlike(s, t, a);
    }
    forall v ensures SameRow(f, g, v) {
      assert VersionAlike(s, t, v);
    }
  }

  // --- the exceptions are real ------------------------------------------------

  const NEW_REGISTRY := EMPTY_STORE.(publishers := map["p" := Publisher("tenant p", "p", "P", "", false, 0),
                                                       "q" := Publisher("tenant q", "q", "Q", "", false, 0)])

  function Titled(slug: string, visibility: string): Listing { Listing(slug, "Name", "", "", "", visibility) }

  const FIRST_RELEASE := Manifest("b", SemVer(1, 0, 0, [], ""), "module", "", NO_CREDITS, None, "")

  /** App a takes the slug; app b is held by another publisher; app b is held by the same one. */
  const TAKES_SLUG := OpSaveApp("a", "p", "module", Titled("slug", "private"), map[], EPOCH)
  const TAKES_ID := OpSaveApp("b", "q", "module", Titled("other", "private"), map[], EPOCH)
  const STARTS_HIDDEN := OpSaveApp("b", "p", "module", Titled("slug", "private"), map[], EPOCH)

  const SAVE_PUBLIC := OpSaveApp("b", "p", "module", Titled("slug", "public"), map[], EPOCH)
  const SUBMIT := OpSubmit("b", "module", "stable", FIRST_RELEASE, "dev", "v", "e1", EPOCH)
  const PUBLISH := OpDecide("v", "publish", None, "op", "", "e2", EPOCH)

  lemma {:induction false} RunStep(rules: Rules, s: Store, lines: seq<Line>, line: Line)
    ensures FirstRun(rules, s, lines + [line]) ==
              if line.Second? then FirstRun(rules, s, lines) else After(rules, FirstRun(rules, s, lines), line.op)
    ensures SecondRun(rules, s, lines + [line]) ==
              if line.First? then SecondRun(rules, s, lines) else After(rules, SecondRun(rules, s, lines), line.op)
  {
    assert (lines + [line])[..|lines + [line]| - 1] == lines;
  }

  lemma FourLines(rules: Rules, s: Store, k: Line, l: Line, m: Line, n: Line)
    requires !k.Second? && !l.Second? && !m.Second? && !n.Second?
    ensures FirstRun(rules, s, [k, l, m, n]) == After(rules, After(rules, After(rules, After(rules, s, k.op), l.op), m.op), n.op)
    ensures l.Both? && k.First? && m.Both? && n.Both? ==>
              SecondRun(rules, s, [k, l, m, n]) == After(rules, After(rules, After(rules, s, l.op), m.op), n.op)
    ensures k.First? && l.First? && m.First? && n.Both? ==> SecondRun(rules, s, [k, l, m, n]) == After(rules, s, n.op)
  {
    RunStep(rules, s, [], k);
    RunStep(rules, s, [k], l);
    RunStep(rules, s, [k, l], m);
    RunStep(rules, s, [k, l, m], n);
    assert [] + [k] == [k] && [k] + [l] == [k, l] && [k, l] + [m] == [k, l, m] && [k, l, m] + [n] == [k, l, m, n];
  }

  ghost predicate NothingPublic(s: Store) { forall a :: !IsPublic(s, a) }

  lemma NothingPublicNothingPicked(rules: Rules, s: Store, ask: Ask, p: map<string, string>)
    requires NothingPublic(s) && ask.ids == {} && IsPick(rules, FaceOf(s), ask, p)
    ensures p == map[]
  {
    assert forall a :: a in p ==> IsWinner(rules, FaceOf(s), ask, a, p[a]) && IsPublic(s, a);
  }

  /** A transaction that is blocked, or that makes no app public, keeps a registry without public apps
      without. */
  lemma StaysUnpublic(rules: Rules, s: Store, op: Op)
    requires NothingPublic(s) && (Blocked(s, op) || (op.OpSaveApp? ==> op.listing.visibility != "public"))
    ensures NothingPublic(After(rules, s, op))
  {
    HiddenExactly(rules, s, op);
    forall a ensures !IsPublic(After(rules, s, op), a) { assert AppAlike(s, After(rules, s, op), a); }
  }

  /** The hidden transaction first; then the same three in both runs: saving, submitting and publishing
      public app b. */
  function Lines(hidden: Op): seq<Line> { [First(hidden), Both(SAVE_PUBLIC), Both(SUBMIT), Both(PUBLISH)] }

  lemma BlockedRunStaysEmpty(rules: Rules, hidden: Op, ask: Ask, p: map<string, string>)
    requires hidden.OpSaveApp? && hidden.listing.visibility != "public" && Blocked(After(rules, NEW_REGISTRY, hidden), SAVE_PUBLIC)
    requires ask.ids == {} && IsPick(rules, FaceOf(FirstRun(rules, NEW_REGISTRY, Lines(hidden))), ask, p)
    ensures p == map[]
  {
    var s1 := After(rules, NEW_REGISTRY, hidden);
    StaysUnpublic(rules, NEW_REGISTRY, hidden);
    StaysUnpublic(rules, s1, SAVE_PUBLIC);
    var s2 := After(rules, s1, SAVE_PUBLIC);
    StaysUnpublic(rules, s2, SUBMIT);
    StaysUnpublic(rules, After(rules, s2, SUBMIT), PUBLISH);
    FourLines(rules, NEW_REGISTRY, First(hidden), Both(SAVE_PUBLIC), Both(SUBMIT), Both(PUBLISH));
    NothingPublicNothingPicked(rules, FirstRun(rules, NEW_REGISTRY, Lines(hidden)), ask, p);
  }

  /** A private app can show through its slug, which is unique over public and private apps alike. Where
      the private app took b's slug first, b never comes to be, and the anonymous catalogue stays
      empty; where it did not, b is listed. */
  lemma PrivateSlugShows(rules: Rules, ask: Ask, p: map<string, string>, q: map<string, string>)
    requires rules.manifestOk(FIRST_RELEASE) && ask.channel == "stable" && ask.ids == {} && PlatformAllows(rules, ANY_PLATFORM, ask.platform)
    requires IsPick(rules, FaceOf(FirstRun(rules, NEW_REGISTRY, Lines(TAKES_SLUG))), ask, p)
    requires IsPick(rules, FaceOf(SecondRun(rules, NEW_REGISTRY, Lines(TAKES_SLUG))), ask, q)
    ensures ShowsNothing(NEW_REGISTRY, TAKES_SLUG) && p == map[] && "b" in q
    ensures var taken := After(rules, NEW_REGISTRY, TAKES_SLUG);
            Admitted(rules, taken, SAVE_PUBLIC) && Blocked(taken, SAVE_PUBLIC) && !Blocked(NEW_REGISTRY, SAVE_PUBLIC)
  {
    SlugTakenBlocks(rules);
    BlockedRunStaysEmpty(rules, TAKES_SLUG, ask, p);
    UnblockedRunListsIt(rules, TAKES_SLUG, ask, q);
  }

  lemma SlugTakenBlocks(rules: Rules)
    ensures var taken := After(rules, NEW_REGISTRY, TAKES_SLUG);
            Admitted(rules, taken, SAVE_PUBLIC) && Blocked(taken, SAVE_PUBLIC) && !Blocked(NEW_REGISTRY, SAVE_PUBLIC)
  {
    var taken := After(rules, NEW_REGISTRY, TAKES_SLUG);
    assert "a" in taken.apps && taken.apps["a"].listing == Titled("slug", "private");
  }

  /** It can show through its id. Where another publisher holds b as a private app, b's save is
      refused, and what is then submitted and published stays private. */
  lemma PrivateIdShows(rules: Rules, ask: Ask, p: map<string, string>, q: map<string, string>)
    requires rules.manifestOk(FIRST_RELEASE) && ask.channel == "stable" && ask.ids == {} && PlatformAllows(rules, ANY_PLATFORM, ask.platform)
    requires IsPick(rules, FaceOf(FirstRun(rules, NEW_REGISTRY, Lines(TAKES_ID))), ask, p)
    requires IsPick(rules, FaceOf(SecondRun(rules, NEW_REGISTRY, Lines(TAKES_ID))), ask, q)
    ensures ShowsNothing(NEW_REGISTRY, TAKES_ID) && p == map[] && "b" in q
    ensures var taken := After(rules, NEW_REGISTRY, TAKES_ID);
            Admitted(rules, taken, SAVE_PUBLIC) && Blocked(taken, SAVE_PUBLIC) && !Blocked(NEW_REGISTRY, SAVE_PUBLIC)
  {
    IdTakenBlocks(rules);
    BlockedRunStaysEmpty(rules, TAKES_ID, ask, p);
    UnblockedRunListsIt(rules, TAKES_ID, ask, q);
  }

  lemma IdTakenBlocks(rules: Rules)
    ensures var taken := After(rules, NEW_REGISTRY, TAKES_ID);
            Admitted(rules, taken, SAVE_PUBLIC) && Blocked(taken, SAVE_PUBLIC) && !Blocked(NEW_REGISTRY, SAVE_PUBLIC)
  {
    var taken := After(rules, NEW_REGISTRY, TAKES_ID);
    assert taken.apps["b"].publisher == "q" && taken.apps["b"].listing == Titled("other", "private");
  }

  lemma UnblockedRunListsIt(rules: Rules, hidden: Op, ask: Ask, q: map<string, string>)
    requires rules.manifestOk(FIRST_RELEASE) && ask.channel == "stable" && PlatformAllows(rules, ANY_PLATFORM, ask.platform)
    requires IsPick(rules, FaceOf(SecondRun(rules, NEW_REGISTRY, Lines(hidden))), ask, q)
    ensures "b" in q
  {
    var s1 := After(rules, NEW_REGISTRY, SAVE_PUBLIC);
    assert s1.apps.Keys == {"b"} && s1.apps["b"].listing == Titled("slug", "public") && s1.releases == map[] && s1.events == [];
    var s3 := After(rules, After(rules, s1, SUBMIT), PUBLISH);
    SubmittedAndPublished(rules, s1);
    FourLines(rules, NEW_REGISTRY, First(hidden), Both(SAVE_PUBLIC), Both(SUBMIT), Both(PUBLISH));
    assert Eligible(rules, FaceOf(s3), ask, "v");
  }

  /** App b there and nothing submitted yet: submitting and publishing its first version. */
  lemma SubmittedAndPublished(rules: Rules, s: Store)
    requires rules.manifestOk(FIRST_RELEASE) && "b" in s.apps && s.releases == map[] && s.events == []
    ensures var t := After(rules, After(rules, s, SUBMIT), PUBLISH);
      && t.apps.Keys == s.apps.Keys && t.apps["b"].listing == s.apps["b"].listing && t.apps["b"].publisher == s.apps["b"].publisher
      && (forall a :: a in s.apps && a != "b" ==> t.apps[a] == s.apps[a]) && t.publishers == s.publishers
      && t.releases == map["v" := Decided(ReleaseFrom("b", "stable", FIRST_RELEASE, "dev", EPOCH), Published, "", EPOCH)]
  {
    var m := After(rules, s, SUBMIT);
    assert m.apps == s.apps && m.publishers == s.publishers;
    assert m.releases == map["v" := ReleaseFrom("b", "stable", FIRST_RELEASE, "dev", EPOCH)];
    assert |m.events| == 1 && m.events[0].id == "e1";
    assert !EventUsed(m, "e2");
  }

  /** It can show by being opened. Three hidden transactions save b as a private app and publish a
      version of it; the one common transaction then saves b as public. It goes through in both runs,
      and the anonymous catalogue lists b in one of them only. */
  lemma OpenedAppShows(rules: Rules, ask: Ask, p: map<string, string>, q: map<string, string>)
    requires rules.manifestOk(FIRST_RELEASE) && ask.channel == "stable" && ask.ids == {} && PlatformAllows(rules, ANY_PLATFORM, ask.platform)
    requires var lines := [First(STARTS_HIDDEN), First(SUBMIT), First(PUBLISH), Both(SAVE_PUBLIC)];
      && IsPick(rules, FaceOf(FirstRun(rules, NEW_REGISTRY, lines)), ask, p)
      && IsPick(rules, FaceOf(SecondRun(rules, NEW_REGISTRY, lines)), ask, q)
    ensures "b" in p && q == map[]
    ensures var s := After(rules, After(rules, After(rules, NEW_REGISTRY, STARTS_HIDDEN), SUBMIT), PUBLISH);
            SamePublic(s, NEW_REGISTRY) && Unhindered(rules, s, NEW_REGISTRY, SAVE_PUBLIC) && Exec(rules, s, SAVE_PUBLIC).Ok?
  {
    FourLines(rules, NEW_REGISTRY, First(STARTS_HIDDEN), First(SUBMIT), First(PUBLISH), Both(SAVE_PUBLIC));
    HiddenHistory(rules);
    var s := After(rules, After(rules, After(rules, NEW_REGISTRY, STARTS_HIDDEN), SUBMIT), PUBLISH);
    OpeningIt(rules, s, ask, p);
    NothingSubmitted(rules, ask, q);
  }

  lemma HiddenHistory(rules: Rules)
    requires rules.manifestOk(FIRST_RELEASE)
    ensures var s := After(rules, After(rules, After(rules, NEW_REGISTRY, STARTS_HIDDEN), SUBMIT), PUBLISH);
      && SamePublic(s, NEW_REGISTRY) && Opening(s)
  {
    var s1 := After(rules, NEW_REGISTRY, STARTS_HIDDEN);
    assert s1.apps.Keys == {"b"} && s1.apps["b"].listing == Titled("slug", "private") && s1.apps["b"].publisher == "p";
    assert s1.releases == map[] && s1.events == [] && s1.publishers == NEW_REGISTRY.publishers;
    SubmittedAndPublished(rules, s1);
    var s := After(rules, After(rules, s1, SUBMIT), PUBLISH);
    NothingPublicAlike(s, NEW_REGISTRY);
  }

  /** App b is p's, alone and private, with one published version. */
  ghost predicate Opening(s: Store)
  {
    && s.apps.Keys == {"b"} && s.apps["b"].listing == Titled("slug", "private") && s.apps["b"].publisher == "p" && "p" in s.publishers
    && s.releases == map["v" := Decided(ReleaseFrom("b", "stable", FIRST_RELEASE, "dev", EPOCH), Published, "", EPOCH)]
  }

  lemma NothingPublicAlike(s: Store, t: Store)
    requires NothingPublic(s) && NothingPublic(t)
    ensures SamePublic(s, t)
  {
  }

  lemma OpeningIt(rules: Rules, s: Store, ask: Ask, p: map<string, string>)
    requires Opening(s) && ask.channel == "stable" && PlatformAllows(rules, ANY_PLATFORM, ask.platform)
    requires IsPick(rules, FaceOf(After(rules, s, SAVE_PUBLIC)), ask, p)
    ensures "b" in p && Exec(rules, s, SAVE_PUBLIC).Ok? && Unhindered(rules, s, NEW_REGISTRY, SAVE_PUBLIC)
  {
    assert !SlugTaken(s, "b", "slug");
    OutcomeSplits(rules, s, SAVE_PUBLIC);
    var a := After(rules, s, SAVE_PUBLIC);
    assert a.apps["b"].listing == Titled("slug", "public") && a.releases == s.releases;
    assert Eligible(rules, FaceOf(a), ask, "v");
  }

  lemma NothingSubmitted(rules: Rules, ask: Ask, q: map<string, string>)
    requires IsPick(rules, FaceOf(After(rules, NEW_REGISTRY, SAVE_PUBLIC)), ask, q)
    ensures q == map[]
  {
    var a := After(rules, NEW_REGISTRY, SAVE_PUBLIC);
    assert a.releases == map[];
    NothingPublishedNothingPicked(rules, FaceOf(a), ask, q);
  }

  lemma NothingPublishedNothingPicked(rules: Rules, f: Face, ask: Ask, p: map<string, string>)
    requires IsPick(rules, f, ask, p) && f.published == map[]
    ensures p == map[]
  {
    assert forall a :: a in p ==> IsWinner(rules, f, ask, a, p[a]);
  }
}

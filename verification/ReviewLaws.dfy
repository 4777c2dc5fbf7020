/** What every run of the registry's transactions keeps. */
module ReviewLaws {
  import opened Basics
  import opened Semver
  import opened Tables
  import opened Wire
  import opened Review
  import opened Catalogue
  import CatalogueLaws

  // --- the trail --------------------------------------------------------------

  /** What a version's review events alone say about it. */
  datatype Trail = Trail(status: Status, note: string, publishedAt: Option<Time>)

  function Replay(events: seq<Event>, v: string): Option<Trail>
    decreases |events|
  {
    if events == [] then None
    else
      var (e, before) := (events[|events| - 1], Replay(events[..|events| - 1], v));
      if e.version == v then Extended(before, e) else before
  }

  /** What one more event makes of a trail. */
  function Extended(before: Option<Trail>, e: Event): Option<Trail>
  {
    if e.action == "submitted" then Some(Trail(InReview, "", None))
    else if before.None? || Outcome(e.action).None? then before
    else
      var status := Outcome(e.action).value;
      Some(Trail(status, e.note, if status == Published then Some(e.at) else before.value.publishedAt))
  }

  function TrailOf(s: Store, v: string): Option<Trail>
  {
    if v in s.releases then Some(Trail(s.releases[v].status, s.releases[v].note, s.releases[v].publishedAt)) else None
  }

  /** The credits of the manifest in an app's latest publish event; none before the first. */
  function LastCredits(releases: map<string, Release>, events: seq<Event>, app: string): Credits
    decreases |events|
  {
    if events == [] then NO_CREDITS
    else
      var e := events[|events| - 1];
      if e.action == "publish" && e.version in releases && releases[e.version].app == app then releases[e.version].manifest.credits
      else LastCredits(releases, events[..|events| - 1], app)
  }

  ghost predicate References(s: Store)
  {
    && (forall v :: v in s.releases ==> s.releases[v].app in s.apps)
    && (forall a :: a in s.apps ==> s.apps[a].publisher in s.publishers)
    && (forall a :: a in s.texts ==> a in s.apps)
    && (forall i :: 0 <= i < |s.events| ==> s.events[i].version in s.releases)
  }

  /** A version row says what the manifest it carries says. */
  ghost predicate RowsAgree(rules: Rules, s: Store)
  {
    forall v :: v in s.releases ==>
      var r := s.releases[v];
      && r.manifest.id == r.app && r.manifest.version == r.number && KnownChannel(r.channel)
      && r.constraint == (if r.manifest.platform == "" then ANY_PLATFORM else r.manifest.platform)
      && r.decodes && rules.manifestOk(r.manifest)
  }

  ghost predicate TrailKept(s: Store)
  {
    References(s) && Replays(s) && Credits(s)
  }

  ghost predicate Replays(s: Store)
  {
    forall v :: Replay(s.events, v) == TrailOf(s, v)
  }

  ghost predicate Credits(s: Store)
  {
    forall a :: a in s.apps ==> s.apps[a].credits == LastCredits(s.releases, s.events, a)
  }

  predicate SameOrigin(r1: map<string, Release>, r2: map<string, Release>, v: string)
  {
    v in r1 && v in r2 && r1[v].app == r2[v].app && r1[v].manifest == r2[v].manifest
  }

  lemma {:induction false} CreditsFrame(r1: map<string, Release>, r2: map<string, Release>, events: seq<Event>, app: string)
    requires forall i :: 0 <= i < |events| ==> SameOrigin(r1, r2, events[i].version)
    ensures LastCredits(r1, events, app) == LastCredits(r2, events, app)
    decreases |events|
  {
    if events != [] {
      CreditsFrame(r1, r2, events[..|events| - 1], app);
    }
  }

  lemma {:induction false} NoCreditsYet(releases: map<string, Release>, events: seq<Event>, app: string)
    requires forall i :: 0 <= i < |events| ==> events[i].version in releases && releases[events[i].version].app != app
    ensures LastCredits(releases, events, app) == NO_CREDITS
    decreases |events|
  {
    if events != [] {
      NoCreditsYet(releases, events[..|events| - 1], app);
    }
  }

  lemma SaveAppKeepsTrail(s: Store, id: string, publisher: string, kind: string, listing: Listing, texts: map<string, Text>, now: Time)
    requires TrailKept(s) && SaveApp(s, id, publisher, kind, listing, texts, now).Ok?
    ensures TrailKept(SaveApp(s, id, publisher, kind, listing, texts, now).value)
  {
    var t := SaveApp(s, id, publisher, kind, listing, texts, now).value;
    forall v ensures TrailOf(t, v) == TrailOf(s, v) {}
    if id !in s.apps {
      NoCreditsYet(s.releases, s.events, id);
    }
  }

  lemma SubmitKeepsTrail(s: Store, r: Release, external: Option<ExternalSpec>, vid: string, eid: string)
    requires TrailKept(s) && r.status == InReview && r.note == "" && r.publishedAt == None
    requires SubmitVersion(s, r, external, vid, eid).Ok?
    ensures TrailKept(SubmitVersion(s, r, external, vid, eid).value)
  {
    var t := SubmitVersion(s, r, external, vid, eid).value;
    OneMoreEvent(s, t);
    AppendedReplay(s, t, t.events[|s.events|]);
  }

  function CreditsAfter(s: Store, releases: map<string, Release>, e: Event, app: string): Credits
    requires app in s.apps
  {
    if e.action == "publish" && e.version in releases && releases[e.version].app == app
    then releases[e.version].manifest.credits else s.apps[app].credits
  }

  /** A longer trail over the same apps and manifests credits whoever the last event publishes. */
  lemma OneMoreEvent(s: Store, t: Store)
    requires References(s) && Credits(s) && |t.events| == |s.events| + 1 && t.events[..|s.events|] == s.events
    requires forall v :: v in s.releases ==> SameOrigin(s.releases, t.releases, v)
    requires forall a :: a in t.apps ==> a in s.apps && t.apps[a].credits == CreditsAfter(s, t.releases, t.events[|s.events|], a)
    ensures Credits(t)
  {
    forall a | a in t.apps
      ensures t.apps[a].credits == LastCredits(t.releases, t.events, a)
    {
      CreditsFrame(s.releases, t.releases, s.events, a);
    }
  }

  lemma AppendedReplay(s: Store, t: Store, e: Event)
    requires Replays(s) && t.events == s.events + [e]
    requires forall v :: v != e.version ==> TrailOf(t, v) == TrailOf(s, v)
    requires TrailOf(t, e.version) == Extended(TrailOf(s, e.version), e)
    ensures Replays(t)
  {
  }

  lemma DecideKeepsReferences(s: Store, vid: string, action: string, actorId: Option<string>, actor: string, note: string, eid: string, now: Time)
    requires References(s) && DecideVersion(s, vid, action, actorId, actor, note, eid, now).Ok?
    ensures References(DecideVersion(s, vid, action, actorId, actor, note, eid, now).value)
  {
  }

  lemma DecideKeepsReplays(s: Store, vid: string, action: string, actorId: Option<string>, actor: string, note: string, eid: string, now: Time)
    requires Replays(s) && DecideVersion(s, vid, action, actorId, actor, note, eid, now).Ok?
    ensures Replays(DecideVersion(s, vid, action, actorId, actor, note, eid, now).value)
  {
  }

  lemma DecideKeepsCredits(s: Store, vid: string, action: string, actorId: Option<string>, actor: string, note: string, eid: string, now: Time)
    requires References(s) && Credits(s) && DecideVersion(s, vid, action, actorId, actor, note, eid, now).Ok?
    ensures Credits(DecideVersion(s, vid, action, actorId, actor, note, eid, now).value)
  {
    OneMoreEvent(s, DecideVersion(s, vid, action, actorId, actor, note, eid, now).value);
  }

  lemma DecideKeepsTrail(s: Store, vid: string, action: string, actorId: Option<string>, actor: string, note: string, eid: string, now: Time)
    requires TrailKept(s) && DecideVersion(s, vid, action, actorId, actor, note, eid, now).Ok?
    ensures TrailKept(DecideVersion(s, vid, action, actorId, actor, note, eid, now).value)
  {
    DecideKeepsReferences(s, vid, action, actorId, actor, note, eid, now);
    DecideKeepsReplays(s, vid, action, actorId, actor, note, eid, now);
    DecideKeepsCredits(s, vid, action, actorId, actor, note, eid, now);
  }

  /** Every transaction keeps the trail. */
  lemma ExecKeepsTrail(rules: Rules, s: Store, op: Op)
    requires TrailKept(s)
    ensures TrailKept(After(rules, s, op))
  {
    match op
    case OpSaveApp(id, publisher, kind, listing, texts, now) =>
      if SaveApp(s, id, publisher, kind, listing, texts, now).Ok? { SaveAppKeepsTrail(s, id, publisher, kind, listing, texts, now); }
    case OpSubmit(app, kind, channel, manifest, submitter, vid, eid, now) =>
      if SubmitManifest(rules, s, app, kind, channel, manifest, submitter, vid, eid, now).Ok? {
        SubmitKeepsTrail(s, ReleaseFrom(app, channel, manifest, submitter, now), ExternalFromManifest(manifest), vid, eid);
      }
    case OpDecide(vid, action, actorId, actor, note, eid, now) =>
      if DecideVersion(s, vid, action, actorId, actor, note, eid, now).Ok? { DecideKeepsTrail(s, vid, action, actorId, actor, note, eid, now); }
    case _ =>
      OthersTouchNoTrail(rules, s, op);
      SameTrail(s, After(rules, s, op));
  }

  /** Publisher, platform and grant transactions touch nothing the trail or a catalogue reads. */
  lemma OthersTouchNoTrail(rules: Rules, s: Store, op: Op)
    requires !op.OpSaveApp? && !op.OpSubmit? && !op.OpDecide?
    ensures var t := After(rules, s, op);
      && t == s.(publishers := t.publishers, platforms := t.platforms, grants := t.grants)
      && (forall p :: p in s.publishers ==> p in t.publishers)
  {
    if op.OpSavePublisher? && Exec(rules, s, op).Ok? { SavePublisherKeepsIds(s, op.freshId, op.tenant, op.slug, op.name, op.email, op.now); }
  }

  lemma SavePublisherKeepsIds(s: Store, freshId: string, tenant: string, slug: string, name: string, email: string, now: Time)
    requires SavePublisher(s, freshId, tenant, slug, name, email, now).Ok?
    ensures var t := SavePublisher(s, freshId, tenant, slug, name, email, now).value;
            t == s.(publishers := t.publishers) && forall p :: p in s.publishers ==> p in t.publishers
  {
  }

  lemma SameTrail(s: Store, t: Store)
    requires TrailKept(s) && t == s.(publishers := t.publishers, platforms := t.platforms, grants := t.grants)
    requires forall p :: p in s.publishers ==> p in t.publishers
    ensures TrailKept(t)
  {
  }

  /** Trail replay: in any run from empty tables each version's status, note and publication time
      are the replay of its events, and each app's credits are those of its latest publish. */
  lemma {:induction false} RunReplays(rules: Rules, ops: seq<Op>)
    ensures TrailKept(Run(rules, EMPTY_STORE, ops))
    decreases |ops|
  {
    if ops != [] {
      RunReplays(rules, ops[..|ops| - 1]);
      ExecKeepsTrail(rules, Run(rules, EMPTY_STORE, ops[..|ops| - 1]), ops[|ops| - 1]);
    }
  }

  // --- the revision -----------------------------------------------------------

  /** Events that record a decision rather than a submission. */
  function Decisions(events: seq<Event>): nat
    decreases |events|
  {
    if events == [] then 0
    else Decisions(events[..|events| - 1]) + if events[|events| - 1].action == "submitted" then 0 else 1
  }

  /** App saves that went through. */
  ghost function Saves(rules: Rules, s: Store, ops: seq<Op>): nat
    decreases |ops|
  {
    if ops == [] then 0
    else
      var (before, op) := (ops[..|ops| - 1], ops[|ops| - 1]);
      Saves(rules, s, before) + if op.OpSaveApp? && Exec(rules, Run(rules, s, before), op).Ok? then 1 else 0
  }

  /** Conservation: over any run the revision moves by the app saves plus the decision events. */
  lemma {:induction false} RevisionConserved(rules: Rules, s: Store, ops: seq<Op>)
    ensures var t := Run(rules, s, ops);
            t.revision - s.revision == Saves(rules, s, ops) + Decisions(t.events) - Decisions(s.events)
    decreases |ops|
  {
    if ops != [] {
      var before, op := ops[..|ops| - 1], ops[|ops| - 1];
      RevisionConserved(rules, s, before);
      ExecRevision(rules, Run(rules, s, before), op);
    }
  }

  lemma ExecRevision(rules: Rules, s: Store, op: Op)
    ensures var t := After(rules, s, op);
            t.revision + Decisions(s.events) ==
            s.revision + Decisions(t.events) + if op.OpSaveApp? && Exec(rules, s, op).Ok? then 1 else 0
  {
    var t := After(rules, s, op);
    if !op.OpSaveApp? && !op.OpSubmit? && !op.OpDecide? {
      OthersTouchNoTrail(rules, s, op);
    } else if |t.events| == |s.events| + 1 {
      assert t.events[..|t.events| - 1] == s.events;
    }
  }

  // --- immutability -----------------------------------------------------------

  /** From s to t no app changed publisher, no version changed anything but its review columns,
      nothing disappeared, and the trail only grew. */
  ghost predicate Frozen(s: Store, t: Store)
  {
    && (forall a :: a in s.apps ==> a in t.apps && t.apps[a].publisher == s.apps[a].publisher)
    && (forall v :: v in s.releases ==> v in t.releases && OnlyReviewed(s.releases[v], t.releases[v]))
    && s.events <= t.events
  }

  predicate OnlyReviewed(r: Release, t: Release)
  {
    t == r.(status := t.status, note := t.note, publishedAt := t.publishedAt)
  }

  lemma {:induction false} RunsFreeze(rules: Rules, s: Store, ops: seq<Op>)
    ensures Frozen(s, Run(rules, s, ops))
    decreases |ops|
  {
    if ops != [] {
      var before := ops[..|ops| - 1];
      RunsFreeze(rules, s, before);
      ExecFreezes(rules, Run(rules, s, before), ops[|ops| - 1]);
    }
  }

  lemma ExecFreezes(rules: Rules, s: Store, op: Op)
    ensures Frozen(s, After(rules, s, op))
  {
    if Exec(rules, s, op).Ok? {
      match op
      case OpSaveApp(id, publisher, kind, listing, texts, now) =>
        assert Frozen(s, SaveApp(s, id, publisher, kind, listing, texts, now).value);
      case OpSubmit(app, kind, channel, manifest, submitter, vid, eid, now) =>
        assert Frozen(s, SubmitManifest(rules, s, app, kind, channel, manifest, submitter, vid, eid, now).value);
      case OpDecide(vid, action, actorId, actor, note, eid, now) =>
        assert Frozen(s, DecideVersion(s, vid, action, actorId, actor, note, eid, now).value);
      case _ =>
        OthersTouchNoTrail(rules, s, op);
    }
  }

  lemma {:induction false} RunRowsAgree(rules: Rules, ops: seq<Op>)
    ensures RowsAgree(rules, Run(rules, EMPTY_STORE, ops))
    decreases |ops|
  {
    if ops != [] {
      var before := ops[..|ops| - 1];
      RunRowsAgree(rules, before);
      ExecKeepsRows(rules, Run(rules, EMPTY_STORE, before), ops[|ops| - 1]);
    }
  }

  lemma ExecKeepsRows(rules: Rules, s: Store, op: Op)
    requires RowsAgree(rules, s)
    ensures RowsAgree(rules, After(rules, s, op))
  {
    if !op.OpSaveApp? && !op.OpSubmit? && !op.OpDecide? { OthersTouchNoTrail(rules, s, op); }
  }

  /** Carried to the wire: every entry of every catalogue built in any run carries a validated
      manifest with the entry's own id and version, and no build fails on decoding one. */
  lemma EntriesCarryTheirManifest(rules: Rules, ops: seq<Op>, ask: Ask, pick: map<string, string>, texts: map<string, map<string, Text>>)
    requires IsPick(rules, FaceOf(Run(rules, EMPTY_STORE, ops)), ask, pick)
    ensures var f := FaceOf(Run(rules, EMPTY_STORE, ops));
      && Covers(f, pick)
      && (forall e :: e in EntriesOf(f, pick, texts) ==>
            e.manifest.id == e.id && e.manifest.version == e.version && rules.manifestOk(e.manifest))
      && (forall v :: Eligible(rules, f, ask, v) ==> f.published[v].decodes)
  {
    var f := FaceOf(Run(rules, EMPTY_STORE, ops));
    RunRowsAgree(rules, ops);
    CatalogueLaws.CatalogueIsExact(rules, f, ask, pick, texts);
  }
}

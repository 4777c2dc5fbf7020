/** A run in which a revoked app is served: the overlap that coordination rules out, step by step. */
module AccessRuns {
  import opened Basics
  import opened Semver
  import opened Tables
  import opened Wire
  import opened Audiences
  import opened Review
  import opened Catalogue
  import opened CatalogueLaws
  import opened Caching
  import opened Protocol
  import ProtocolLaws
  import AccessLaws
  import RunLaws

  // --- reachable states -------------------------------------------------------

  /** Some run leads to the state. */
  ghost predicate Reachable(rules: Rules, s: System)
  {
    |s.hist| > 0 && exists states, steps :: LeadsTo(rules, states, steps, s)
  }

  ghost predicate LeadsTo(rules: Rules, states: seq<System>, steps: seq<Step>, s: System)
  {
    IsRun(rules, states, steps) && states[|states| - 1] == s
  }

  lemma StartsReachable(rules: Rules, s: System)
    requires Init(s)
    ensures Reachable(rules, s)
  {
    assert LeadsTo(rules, [s], [], s);
  }

  lemma StepReachable(rules: Rules, s: System, step: Step, t: System)
    requires Reachable(rules, s) && |t.hist| > 0 && Next(rules, s, step, t)
    ensures Reachable(rules, t)
  {
    var states, steps :| LeadsTo(rules, states, steps, s);
    RunGrows(rules, states, steps, step, t);
  }

  lemma RunGrows(rules: Rules, states: seq<System>, steps: seq<Step>, step: Step, t: System)
    requires IsRun(rules, states, steps) && |t.hist| > 0 && Next(rules, states[|states| - 1], step, t)
    ensures LeadsTo(rules, states + [t], steps + [step], t)
  {
    var states', steps' := states + [t], steps + [step];
    forall i | 0 <= i < |steps'| ensures Next(rules, states'[i], steps'[i], states'[i + 1]) {
      assert i < |steps| ==> states'[i] == states[i] && states'[i + 1] == states[i + 1] && steps'[i] == steps[i];
    }
  }

  /** The state with one request moved on. */
  function At(s: System, id: nat, stage: Stage): System
    requires id in s.requests
  {
    s.(requests := s.requests[id := s.requests[id].(stage := stage)])
  }

  lemma MoveReachable(rules: Rules, s: System, id: nat, next: Stage)
    requires Reachable(rules, s) && id in s.requests && Moves(rules, s, s.requests[id], next)
    ensures Reachable(rules, At(s, id, next))
  {
    StepReachable(rules, s, Advance(id, next), At(s, id, next));
  }

  /** A move depends on the tables, the caches and the key, not on the other requests. */
  lemma SameMoves(rules: Rules, s: System, u: System, r: Request, next: Stage)
    requires |s.hist| > 0 && u == s.(requests := u.requests) && Moves(rules, s, r, next)
    ensures Moves(rules, u, r, next)
  {
  }

  lemma MoveOn(rules: Rules, s: System, id: nat, stage: Stage, next: Stage)
    requires |s.hist| > 0 && id in s.requests && Reachable(rules, At(s, id, stage))
    requires Moves(rules, s, s.requests[id].(stage := stage), next)
    ensures Reachable(rules, At(s, id, next))
  {
    var u := At(s, id, stage);
    SameMoves(rules, s, u, u.requests[id], next);
    MoveReachable(rules, u, id, next);
    AtTwice(s, id, stage, next);
  }

  lemma AtTwice(s: System, id: nat, stage: Stage, next: Stage)
    requires id in s.requests
    ensures At(At(s, id, stage), id, next) == At(s, id, next)
  {
  }

  // --- one move of each kind --------------------------------------------------

  lemma TokenMoves(rules: Rules, s: System, r: Request, p: string)
    requires |s.hist| > 0 && r.stage == Arrived && PlatformKeys(Now(s))
    requires r.token != "" && Holds(rules, Now(s), r.token, p) && Now(s).platforms[p].enabled
    ensures Moves(rules, s, r, Recognised(p))
  {
    assert PlatformByToken(rules, Now(s), r.token) == Some(p);
  }

  lemma AudienceMoves(rules: Rules, s: System, r: Request, p: string)
    requires |s.hist| > 0 && r.stage == Recognised(p)
    ensures Moves(rules, s, r, Resolved(AudienceOf(Now(s), p)))
  {
  }

  function JobNow(s: System, audience: Audience): Job
    requires |s.hist| > 0
  {
    Job(audience, Now(s).revision, |s.hist| - 1)
  }

  lemma StampMoves(rules: Rules, s: System, r: Request, audience: Audience)
    requires |s.hist| > 0 && r.stage == Resolved(audience)
    ensures Moves(rules, s, r, Stamped(JobNow(s, audience)))
  {
  }

  lemma MissMoves(rules: Rules, s: System, r: Request, job: Job)
    requires |s.hist| > 0 && r.stage == Stamped(job) && CacheOf(s, r, job.audience).None?
    ensures Moves(rules, s, r, Missed(job))
  {
  }

  lemma HitMoves(rules: Rules, s: System, r: Request, job: Job, held: Answer)
    requires |s.hist| > 0 && r.stage == Stamped(job) && CacheOf(s, r, job.audience) == Some(held) && held.snapshot.revision == job.revision
    ensures Moves(rules, s, r, Answered(job.audience, held, job.revAt))
  {
  }

  lemma SelectMoves(rules: Rules, s: System, r: Request, job: Job, pick: map<string, string>, newest: Time)
    requires |s.hist| > 0 && r.stage == Missed(job) && rules.platform(r.platform).Some?
    requires Selects(rules, FaceOf(Now(s)), Ask(r.channel, rules.platform(r.platform).value, job.audience.appIds), pick, newest)
    ensures Moves(rules, s, r, Gathering(job, |s.hist| - 1, pick, newest, map[]))
  {
  }

  lemma GatherMoves(rules: Rules, s: System, r: Request, a: string)
    requires |s.hist| > 0 && r.stage.Gathering? && a in r.stage.pick && a !in r.stage.textsAt
    ensures Moves(rules, s, r, r.stage.(textsAt := r.stage.textsAt[a := |s.hist| - 1]))
  {
  }

  lemma FinishMoves(rules: Rules, s: System, r: Request, answer: Answer)
    requires |s.hist| > 0 && r.stage.Gathering? && rules.platform(r.platform).Some? && r.stage.textsAt.Keys == r.stage.pick.Keys
    requires var g := r.stage;
      answer.origin == Origin(s.signer, g.job.audience.appIds, g.job.revAt, g.rowsAt, g.textsAt, g.pick, g.newest)
    requires Assembles(rules, s.hist, r.channel, r.platform, r.stage.job.revision, answer)
    ensures Moves(rules, s, r, Built(r.stage.job, answer))
  {
  }

  // --- any build can be reached -----------------------------------------------

  function Everywhere(pick: map<string, string>, here: nat): map<string, nat> { map a | a in pick :: here }

  /** Gathering with the translations of some apps read, all from the last version of the tables. */
  function GatheringNow(s: System, job: Job, pick: map<string, string>, newest: Time, seen: map<string, nat>): Stage
    requires |s.hist| > 0
  {
    Gathering(job, |s.hist| - 1, pick, newest, seen)
  }

  lemma AllSeen(pick: map<string, string>, seen: map<string, nat>, here: nat)
    requires pick.Keys - seen.Keys == {} && forall a :: a in seen ==> a in pick && seen[a] == here
    ensures seen == Everywhere(pick, here)
  {
    assert pick.Keys == seen.Keys + (pick.Keys - seen.Keys);
  }

  lemma {:induction false} GatheringReachable(rules: Rules, s: System, id: nat, job: Job, pick: map<string, string>,
                                              newest: Time, left: set<string>, seen: map<string, nat>)
    requires |s.hist| > 0 && id in s.requests && Reachable(rules, At(s, id, GatheringNow(s, job, pick, newest, seen)))
    requires left == pick.Keys - seen.Keys && forall a :: a in seen ==> a in pick && seen[a] == |s.hist| - 1
    ensures Reachable(rules, At(s, id, GatheringNow(s, job, pick, newest, Everywhere(pick, |s.hist| - 1))))
    decreases left
  {
    if left == {} {
      AllSeen(pick, seen, |s.hist| - 1);
    } else {
      var a :| a in left;
      var more := seen[a := |s.hist| - 1];
      GatherOne(rules, s, id, job, pick, newest, seen, a);
      GatheringReachable(rules, s, id, job, pick, newest, left - {a}, more);
    }
  }

  lemma GatherOne(rules: Rules, s: System, id: nat, job: Job, pick: map<string, string>, newest: Time, seen: map<string, nat>, a: string)
    requires |s.hist| > 0 && id in s.requests && Reachable(rules, At(s, id, GatheringNow(s, job, pick, newest, seen)))
    requires a in pick && a !in seen
    ensures Reachable(rules, At(s, id, GatheringNow(s, job, pick, newest, seen[a := |s.hist| - 1])))
  {
    var stage := GatheringNow(s, job, pick, newest, seen);
    GatherMoves(rules, s, s.requests[id].(stage := stage), a);
    MoveOn(rules, s, id, stage, GatheringNow(s, job, pick, newest, seen[a := |s.hist| - 1]));
  }

  /** The document can be built for the request, and every manifest it meets decodes. */
  ghost predicate CanBuild(rules: Rules, signer: Signer, store: Store, channel: string, platform: string, ids: set<string>, snapshot: Snapshot)
    requires rules.platform(platform).Some?
  {
    var ask := Ask(channel, rules.platform(platform).value, ids);
    && IsBuild(rules, signer, FaceOf(store), ask, platform, store.revision, snapshot)
    && (forall v :: Eligible(rules, FaceOf(store), ask, v) ==> FaceOf(store).published[v].decodes)
  }

  lemma GatheredAssembles(rules: Rules, hist: seq<Store>, channel: string, platform: string, revision: nat, a: Answer, last: Store, f: Face)
    requires a.origin.rowsAt < |hist| && hist[a.origin.rowsAt] == last && a.origin.textsAt == Everywhere(a.origin.pick, a.origin.rowsAt)
    requires f == FaceOf(last) && f.texts == last.texts && Covers(f, a.origin.pick)
    requires Passes(rules, EntriesOf(f, a.origin.pick, f.texts), platform)
    requires a.snapshot == Assemble(rules, a.origin.signer, f, a.origin.pick, f.texts, a.origin.newest, revision)
    ensures Assembles(rules, hist, channel, platform, revision, a)
  {
    GatheredTexts(hist, a.origin.pick, a.origin.rowsAt);
    PartsAssemble(rules, hist, channel, platform, revision, a, f, GatherAt(hist, a.origin.textsAt));
  }

  lemma PartsAssemble(rules: Rules, hist: seq<Store>, channel: string, platform: string, revision: nat, a: Answer,
                      f: Face, texts: map<string, map<string, Text>>)
    requires a.origin.rowsAt < |hist| && (forall x :: x in a.origin.textsAt ==> a.origin.textsAt[x] < |hist|)
    requires f == FaceOf(hist[a.origin.rowsAt]) && texts == GatherAt(hist, a.origin.textsAt) && Covers(f, a.origin.pick)
    requires forall x :: x in a.origin.pick ==> TextsOf(texts, x) == TextsOf(f.texts, x)
    requires Passes(rules, EntriesOf(f, a.origin.pick, f.texts), platform)
    requires a.snapshot == Assemble(rules, a.origin.signer, f, a.origin.pick, f.texts, a.origin.newest, revision)
    ensures Assembles(rules, hist, channel, platform, revision, a)
  {
    SameDocument(rules, a.origin.signer, f, a.origin.pick, texts, a.origin.newest, revision);
    PartsAreAssembled(rules, hist, channel, platform, revision, a, f, texts);
  }

  lemma PartsAreAssembled(rules: Rules, hist: seq<Store>, channel: string, platform: string, revision: nat, a: Answer,
                          f: Face, texts: map<string, map<string, Text>>)
    requires a.origin.rowsAt < |hist| && (forall x :: x in a.origin.textsAt ==> a.origin.textsAt[x] < |hist|)
    requires f == FaceOf(hist[a.origin.rowsAt]) && texts == GatherAt(hist, a.origin.textsAt) && Covers(f, a.origin.pick)
    requires Passes(rules, EntriesOf(f, a.origin.pick, texts), platform)
    requires a.snapshot == Assemble(rules, a.origin.signer, f, a.origin.pick, texts, a.origin.newest, revision)
    ensures Assembles(rules, hist, channel, platform, revision, a)
  {
  }

  lemma SameDocument(rules: Rules, signer: Signer, f: Face, pick: map<string, string>, texts: map<string, map<string, Text>>,
                     newest: Time, revision: nat)
    requires Covers(f, pick) && forall a :: a in pick ==> TextsOf(texts, a) == TextsOf(f.texts, a)
    ensures EntriesOf(f, pick, texts) == EntriesOf(f, pick, f.texts)
    ensures Assemble(rules, signer, f, pick, texts, newest, revision) == Assemble(rules, signer, f, pick, f.texts, newest, revision)
  {
    ProtocolLaws.SameTexts(f, pick, texts, f.texts);
  }

  lemma GatheredTexts(hist: seq<Store>, pick: map<string, string>, at: nat)
    requires at < |hist|
    ensures forall a :: a in pick ==> TextsOf(GatherAt(hist, Everywhere(pick, at)), a) == TextsOf(hist[at].texts, a)
  {
  }

  /** The answer a build makes when everything is read from the last version of the tables. */
  function AnswerNow(hist: seq<Store>, signer: Signer, ids: set<string>, pick: map<string, string>, newest: Time, snapshot: Snapshot): Answer
    requires |hist| > 0
  {
    Answer(snapshot, Origin(signer, ids, |hist| - 1, |hist| - 1, Everywhere(pick, |hist| - 1), pick, newest))
  }

  lemma BuildAssembles(rules: Rules, signer: Signer, hist: seq<Store>, channel: string, platform: string, ask: Ask, last: Store, f: Face,
                       pick: map<string, string>, newest: Time, snapshot: Snapshot)
    requires |hist| > 0 && hist[|hist| - 1] == last && f == FaceOf(last) && f.texts == last.texts
    requires Builds(rules, signer, f, ask, platform, last.revision, pick, newest, snapshot)
    ensures Assembles(rules, hist, channel, platform, last.revision, AnswerNow(hist, signer, ask.ids, pick, newest, snapshot))
  {
    GatheredAssembles(rules, hist, channel, platform, last.revision, AnswerNow(hist, signer, ask.ids, pick, newest, snapshot), last, f);
  }

  /** A request that missed the cache can end up with any build of the tables for its audience. */
  lemma BuildReachable(rules: Rules, s: System, id: nat, audience: Audience, snapshot: Snapshot) returns (answer: Answer)
    requires |s.hist| > 0 && id in s.requests && Reachable(rules, At(s, id, Missed(JobNow(s, audience))))
    requires var r := s.requests[id];
      rules.platform(r.platform).Some? && CanBuild(rules, s.signer, Now(s), r.channel, r.platform, audience.appIds, snapshot)
    ensures Reachable(rules, At(s, id, Built(JobNow(s, audience), answer)))
    ensures answer.snapshot == snapshot && answer.origin.ids == audience.appIds
    ensures var r := s.requests[id];
            IsPick(rules, FaceOf(Now(s)), Ask(r.channel, rules.platform(r.platform).value, audience.appIds), answer.origin.pick)
  {
    var r, last := s.requests[id], Now(s);
    var ask := Ask(r.channel, rules.platform(r.platform).value, audience.appIds);
    var pick, newest := BuildParts(rules, s.signer, s.hist, r.channel, r.platform, ask, last, FaceOf(last), snapshot);
    answer := AnswerNow(s.hist, s.signer, ask.ids, pick, newest, snapshot);
    GatherPath(rules, s, id, audience, pick, newest);
    FinishOn(rules, s, id, JobNow(s, audience), pick, newest, answer);
  }

  lemma BuildParts(rules: Rules, signer: Signer, hist: seq<Store>, channel: string, platform: string, ask: Ask, last: Store, f: Face,
                   snapshot: Snapshot) returns (pick: map<string, string>, newest: Time)
    requires |hist| > 0 && hist[|hist| - 1] == last && f == FaceOf(last) && f.texts == last.texts
    requires IsBuild(rules, signer, f, ask, platform, last.revision, snapshot)
    requires forall v :: Eligible(rules, f, ask, v) ==> f.published[v].decodes
    ensures Selects(rules, f, ask, pick, newest)
    ensures Assembles(rules, hist, channel, platform, last.revision, AnswerNow(hist, signer, ask.ids, pick, newest, snapshot))
  {
    pick, newest :| Builds(rules, signer, f, ask, platform, last.revision, pick, newest, snapshot);
    BuildAssembles(rules, signer, hist, channel, platform, ask, last, f, pick, newest, snapshot);
  }

  lemma FinishOn(rules: Rules, s: System, id: nat, job: Job, pick: map<string, string>, newest: Time, answer: Answer)
    requires |s.hist| > 0 && id in s.requests
    requires Reachable(rules, At(s, id, GatheringNow(s, job, pick, newest, Everywhere(pick, |s.hist| - 1))))
    requires rules.platform(s.requests[id].platform).Some? && job.revAt == |s.hist| - 1
    requires answer == AnswerNow(s.hist, s.signer, job.audience.appIds, pick, newest, answer.snapshot)
    requires Assembles(rules, s.hist, s.requests[id].channel, s.requests[id].platform, job.revision, answer)
    ensures Reachable(rules, At(s, id, Built(job, answer)))
  {
    var all := GatheringNow(s, job, pick, newest, Everywhere(pick, |s.hist| - 1));
    FinishMoves(rules, s, s.requests[id].(stage := all), answer);
    MoveOn(rules, s, id, all, Built(job, answer));
  }

  lemma GatherPath(rules: Rules, s: System, id: nat, audience: Audience, pick: map<string, string>, newest: Time)
    requires |s.hist| > 0 && id in s.requests && Reachable(rules, At(s, id, Missed(JobNow(s, audience))))
    requires var r := s.requests[id];
      && rules.platform(r.platform).Some?
      && Selects(rules, FaceOf(Now(s)), Ask(r.channel, rules.platform(r.platform).value, audience.appIds), pick, newest)
    ensures Reachable(rules, At(s, id, GatheringNow(s, JobNow(s, audience), pick, newest, Everywhere(pick, |s.hist| - 1))))
  {
    var job := JobNow(s, audience);
    SelectMoves(rules, s, s.requests[id].(stage := Missed(job)), job, pick, newest);
    MoveOn(rules, s, id, Missed(job), GatheringNow(s, job, pick, newest, map[]));
    GatheringReachable(rules, s, id, job, pick, newest, pick.Keys, map[]);
  }

  // --- the scenario -----------------------------------------------------------

  /** The platform holds the token, is enabled, was granted the app and at least one other, and a
      catalogue can be built for it. */
  ghost predicate Exposed(rules: Rules, signer: Signer, store: Store, token: string, p: string, app: string, platform: string, snapshot: Snapshot)
  {
    && PlatformKeys(store)
    && token != "" && Holds(rules, store, token, p) && store.platforms[p].enabled
    && app in GrantsOf(store, p) && GrantsOf(store, p) != {app}
    && platform != "" && rules.platform(platform).Some?
    && CanBuild(rules, signer, store, "stable", platform, GrantsOf(store, p), snapshot)
  }

  function Fresh(store: Store, signer: Signer): System
  {
    System([store], signer, false, false, map[], map[], map[], map[])
  }

  /** The platform's request to the stable channel, as it arrives now. */
  function Asking(s: System, token: string, platform: string): Request
    requires |s.hist| > 0
  {
    Request("stable", platform, token, |s.hist| - 1, Arrived)
  }

  /** The state with the request there. */
  function Asked(s: System, id: nat, token: string, platform: string): System
    requires |s.hist| > 0
  {
    s.(requests := s.requests[id := Asking(s, token, platform)])
  }

  /** The holder of the token can ask. */
  ghost predicate Holder(rules: Rules, s: Store, token: string, p: string, platform: string)
  {
    && PlatformKeys(s) && token != "" && Holds(rules, s, token, p) && s.platforms[p].enabled
    && platform != "" && rules.platform(platform).Some?
  }

  lemma ArrivalReachable(rules: Rules, s: System, id: nat, token: string, platform: string)
    requires Reachable(rules, s) && id !in s.requests && platform != "" && rules.platform(platform).Some?
    ensures var u := Asked(s, id, token, platform); Reachable(rules, At(u, id, Arrived))
  {
    var u := Asked(s, id, token, platform);
    StepReachable(rules, s, Arrive(id, "stable", platform, token), u);
    assert At(u, id, Arrived) == u;
  }

  /** A request of the platform arrives, is recognised, and reads the revision. */
  lemma StampedReachable(rules: Rules, s: System, id: nat, token: string, p: string, platform: string)
    requires Reachable(rules, s) && id !in s.requests && Holder(rules, Now(s), token, p, platform)
    ensures var u := Asked(s, id, token, platform);
            Reachable(rules, At(u, id, Stamped(JobNow(u, AudienceOf(Now(s), p)))))
  {
    var u, r, audience := Asked(s, id, token, platform), Asking(s, token, platform), AudienceOf(Now(s), p);
    ArrivalReachable(rules, s, id, token, platform);
    TokenMoves(rules, u, r, p);
    MoveOn(rules, u, id, Arrived, Recognised(p));
    AudienceMoves(rules, u, r.(stage := Recognised(p)), p);
    MoveOn(rules, u, id, Recognised(p), Resolved(audience));
    StampMoves(rules, u, r.(stage := Resolved(audience)), audience);
    MoveOn(rules, u, id, Resolved(audience), Stamped(JobNow(u, audience)));
  }

  lemma FreshReachable(rules: Rules, store: Store, signer: Signer)
    requires PlatformKeys(store)
    ensures Reachable(rules, Fresh(store, signer))
  {
    StartsReachable(rules, Fresh(store, signer));
  }

  /** The first request of a fresh registry, up to the document in hand. */
  lemma FirstRequestReachable(rules: Rules, signer: Signer, store: Store, token: string, p: string, app: string, platform: string, snapshot: Snapshot)
    returns (answer: Answer)
    requires Exposed(rules, signer, store, token, p, app, platform, snapshot)
    ensures var u := Asked(Fresh(store, signer), 0, token, platform);
            Reachable(rules, At(u, 0, Built(Job(Audience(p, GrantsOf(store, p)), store.revision, 0), answer)))
    ensures answer.snapshot == snapshot && answer.origin.ids == GrantsOf(store, p)
    ensures IsPick(rules, FaceOf(store), Ask("stable", rules.platform(platform).value, GrantsOf(store, p)), answer.origin.pick)
  {
    var s, audience := Fresh(store, signer), Audience(p, GrantsOf(store, p));
    FreshReachable(rules, store, signer);
    StampedReachable(rules, s, 0, token, p, platform);
    var u := Asked(s, 0, token, platform);
    assert AudienceOf(store, p) == audience;
    var job := JobNow(u, audience);
    MissMoves(rules, u, u.requests[0].(stage := Stamped(job)), job);
    MoveOn(rules, u, 0, Stamped(job), Missed(job));
    answer := BuildReachable(rules, u, 0, audience, snapshot);
  }

  function WithoutGrant(store: Store, app: string, p: string): Store { store.(grants := store.grants - {(app, p)}) }

  /** The state after the revocation and its discard committed, and the request stored its document. */
  function StoredLate(s: System, store: Store, app: string, p: string, r: Request, job: Job, answer: Answer): System
  {
    s.(hist := s.hist + [WithoutGrant(store, app, p)],
       requests := s.requests[0 := r.(stage := Answered(job.audience, answer, job.revAt))],
       privateRows := WithoutPlatform(s.privateRows, p)[(p, r.channel, r.platform) := Row(answer, EPOCH)])
  }

  lemma RevokedThenStored(rules: Rules, s: System, store: Store, app: string, p: string, job: Job, answer: Answer)
    requires Reachable(rules, s) && Now(s) == store && 0 in s.requests && s.requests[0].stage == Built(job, answer)
    requires job.audience.platformId == p && p != ""
    ensures Reachable(rules, StoredLate(s, store, app, p, s.requests[0], job, answer))
  {
    var t := s.(hist := s.hist + [WithoutGrant(store, app, p)], privateRows := WithoutPlatform(s.privateRows, p));
    RevocationSteps(rules, s, store, app, p, t);
    StepReachable(rules, s, Paired(OpRevoke(app, p), p), t);
    StepReachable(rules, t, Save(0, true, EPOCH), StoredLate(s, store, app, p, s.requests[0], job, answer));
  }

  lemma RevocationSteps(rules: Rules, s: System, store: Store, app: string, p: string, t: System)
    requires |s.hist| > 0 && Now(s) == store
    requires t == s.(hist := s.hist + [WithoutGrant(store, app, p)], privateRows := WithoutPlatform(s.privateRows, p))
    ensures Next(rules, s, Paired(OpRevoke(app, p), p), t)
  {
    assert Exec(rules, store, OpRevoke(app, p)) == Ok(WithoutGrant(store, app, p));
  }

  /** A platform's next request finds the row at the current revision and is answered with it. */
  lemma HeldRowIsServed(rules: Rules, s: System, id: nat, token: string, p: string, platform: string, held: Row<Answer>)
    requires Reachable(rules, s) && id !in s.requests && Holder(rules, Now(s), token, p, platform)
    requires GrantsOf(Now(s), p) != {} && (p, "stable", platform) in s.privateRows && s.privateRows[(p, "stable", platform)] == held
    requires held.answer.snapshot.revision == Now(s).revision
    ensures var u := Asked(s, id, token, platform);
            Reachable(rules, At(u, id, Answered(Audience(p, GrantsOf(Now(s), p)), held.answer, |s.hist| - 1)))
  {
    StampedReachable(rules, s, id, token, p, platform);
    var u, audience := Asked(s, id, token, platform), Audience(p, GrantsOf(Now(s), p));
    assert AudienceOf(Now(s), p) == audience && p != "";
    var job := JobNow(u, audience);
    HitMoves(rules, u, u.requests[id].(stage := Stamped(job)), job, held.answer);
    MoveOn(rules, u, id, Stamped(job), Answered(audience, held.answer, job.revAt));
  }

  /** In this state the app is revoked; the platform's row at the current revision lists it; and a
      request that started after the revocation and its discard was answered with that row. */
  ghost predicate ServesRevoked(rules: Rules, s: System, p: string, app: string, platform: string, snapshot: Snapshot)
    requires |s.hist| > 0
  {
    var k := (p, "stable", platform);
    && |s.hist| == 2 && Now(s) == WithoutGrant(s.hist[0], app, p)
    && app in GrantsOf(s.hist[0], p) && app !in GrantsOf(Now(s), p)
    && app in Now(s).apps && Now(s).apps[app].listing.visibility != "public"
    && k in s.privateRows && s.privateRows[k].answer.snapshot == snapshot && snapshot.revision == Now(s).revision
    && app in s.privateRows[k].answer.origin.pick
    && 1 in s.requests && s.requests[1].start == 1 && s.requests[1].stage.Answered?
    && s.requests[1].stage.audience.platformId == p && s.requests[1].stage.answer == s.privateRows[k].answer
  }

  /** The document is no build of the tables for what the platform is granted now, whoever signs it. */
  ghost predicate WrongFor(rules: Rules, s: Store, p: string, platform: string, snapshot: Snapshot)
    requires rules.platform(platform).Some?
  {
    var ask := Ask("stable", rules.platform(platform).value, GrantsOf(s, p));
    forall signer :: !IsBuild(rules, signer, FaceOf(s), ask, platform, s.revision, snapshot)
  }

  /** A revoked app can be served. Whatever the tables, if a platform was granted an app that shows
      and another one, some run that starts at them ends with the app revoked, its discard done, and a
      later request of the platform answered with a document that lists the app; and if the encoder
      tells entry lists apart, with a document that is no build for the grants that are left. */
  lemma RevokedAppIsServed(rules: Rules, signer: Signer, store: Store, token: string, p: string, app: string, platform: string, snapshot: Snapshot)
    requires Exposed(rules, signer, store, token, p, app, platform, snapshot)
    requires GrantShows(rules, FaceOf(store), Ask("stable", rules.platform(platform).value, GrantsOf(store, p)), app)
    ensures exists s :: Reachable(rules, s) && ServesRevoked(rules, s, p, app, platform, snapshot) && s.hist[0] == store
                        && (EncodesApart(rules) ==> WrongFor(rules, Now(s), p, platform, snapshot))
  {
    var answer := FirstRequestReachable(rules, signer, store, token, p, app, platform, snapshot);
    var ask := Ask("stable", rules.platform(platform).value, GrantsOf(store, p));
    ListedWhenGranted(rules, FaceOf(store), ask, answer.origin.pick, app);
    BuildsCarryTheRevision(rules, signer, FaceOf(store), ask, platform, store.revision, snapshot);
    StoredAfterRevocation(rules, signer, store, token, p, app, platform, answer);
    var t := LateState(signer, store, token, p, app, platform, answer);
    var s := LaterRequestIsServed(rules, t, store, token, p, app, platform, answer);
    RevokedAnswerIsWrong(rules, s, p, app, platform, snapshot);
  }

  function LateState(signer: Signer, store: Store, token: string, p: string, app: string, platform: string, answer: Answer): System
  {
    var job := Job(Audience(p, GrantsOf(store, p)), store.revision, 0);
    var s := At(Asked(Fresh(store, signer), 0, token, platform), 0, Built(job, answer));
    StoredLate(s, store, app, p, s.requests[0], job, answer)
  }

  lemma StoredAfterRevocation(rules: Rules, signer: Signer, store: Store, token: string, p: string, app: string, platform: string, answer: Answer)
    requires p != ""
    requires Reachable(rules, At(Asked(Fresh(store, signer), 0, token, platform), 0, Built(Job(Audience(p, GrantsOf(store, p)), store.revision, 0), answer)))
    ensures var t := LateState(signer, store, token, p, app, platform, answer);
      && Reachable(rules, t) && t.hist == [store, WithoutGrant(store, app, p)] && 1 !in t.requests
      && (p, "stable", platform) in t.privateRows && t.privateRows[(p, "stable", platform)] == Row(answer, EPOCH)
  {
    var job := Job(Audience(p, GrantsOf(store, p)), store.revision, 0);
    RevokedThenStored(rules, At(Asked(Fresh(store, signer), 0, token, platform), 0, Built(job, answer)), store, app, p, job, answer);
  }

  lemma LaterRequestIsServed(rules: Rules, s: System, store: Store, token: string, p: string, app: string, platform: string, answer: Answer)
    returns (u: System)
    requires Reachable(rules, s) && s.hist == [store, WithoutGrant(store, app, p)] && 1 !in s.requests
    requires Holder(rules, store, token, p, platform) && app in GrantsOf(store, p) && GrantsOf(store, p) != {app}
    requires (p, "stable", platform) in s.privateRows && s.privateRows[(p, "stable", platform)] == Row(answer, EPOCH)
    requires answer.snapshot.revision == store.revision && app in answer.origin.pick
    requires app in store.apps && store.apps[app].listing.visibility != "public"
    ensures Reachable(rules, u) && ServesRevoked(rules, u, p, app, platform, answer.snapshot) && u.hist == s.hist
  {
    GrantsLeft(store, app, p);
    HeldRowIsServed(rules, s, 1, token, p, platform, Row(answer, EPOCH));
    u := At(Asked(s, 1, token, platform), 1, Answered(Audience(p, GrantsOf(Now(s), p)), answer, 1));
  }

  /** That answer is a wrong one: its document was assembled from a selection that lists the app, and
      no selection for the platform's grants does. If the encoder tells entry lists apart, no build for
      them has its bytes either. */
  lemma RevokedAnswerIsWrong(rules: Rules, s: System, p: string, app: string, platform: string, snapshot: Snapshot)
    requires Reachable(rules, s) && ServesRevoked(rules, s, p, app, platform, snapshot)
    ensures rules.platform(platform).Some?
    ensures var a := s.requests[1].stage.answer;
      && Traced(rules, s.hist, "stable", platform, a) && a.snapshot == snapshot && app in a.origin.pick
      && (forall q :: IsPick(rules, FaceOf(Now(s)), Ask("stable", rules.platform(platform).value, GrantsOf(Now(s), p)), q) ==> app !in q)
    ensures EncodesApart(rules) ==> WrongFor(rules, Now(s), p, platform, snapshot)
  {
    var states, steps :| LeadsTo(rules, states, steps, s);
    var k, a := (p, "stable", platform), s.requests[1].stage.answer;
    ProtocolLaws.PrivateRowsAreTraced(rules, states, steps, |states| - 1, k);
    AccessLaws.CurrentRowsPickNow(rules, s.hist, "stable", platform, a);
    var resolved := Ask("stable", rules.platform(platform).value, a.origin.ids);
    ListedIsGranted(rules, FaceOf(Now(s)), resolved, a.origin.pick, app);
    assert ChangeShows(rules, FaceOf(Now(s)), resolved, GrantsOf(Now(s), p));
    AccessLaws.PrivateRowsExactlyRight(rules, states, steps, |states| - 1, k);
    forall q | IsPick(rules, FaceOf(Now(s)), Ask("stable", rules.platform(platform).value, GrantsOf(Now(s), p)), q)
      ensures app !in q
    {
      HiddenUngranted(rules, FaceOf(Now(s)), Ask("stable", rules.platform(platform).value, GrantsOf(Now(s), p)), q, app);
    }
  }

  lemma ListedIsGranted(rules: Rules, f: Face, ask: Ask, pick: map<string, string>, app: string)
    requires IsPick(rules, f, ask, pick) && app in pick && app in f.listings && f.listings[app].visibility != "public"
    ensures app in ask.ids && GrantShows(rules, f, ask, app)
  {
    assert IsWinner(rules, f, ask, app, pick[app]);
  }

  lemma HiddenUngranted(rules: Rules, f: Face, ask: Ask, q: map<string, string>, app: string)
    requires IsPick(rules, f, ask, q) && app !in ask.ids && (app in f.listings ==> f.listings[app].visibility != "public")
    ensures app !in q
  {
    assert app in q ==> IsWinner(rules, f, ask, app, q[app]);
  }

  lemma BuildsCarryTheRevision(rules: Rules, signer: Signer, f: Face, ask: Ask, platform: string, revision: nat, snapshot: Snapshot)
    requires IsBuild(rules, signer, f, ask, platform, revision, snapshot)
    ensures snapshot.revision == revision
  {
  }

  lemma GrantsLeft(store: Store, app: string, p: string)
    requires app in GrantsOf(store, p) && GrantsOf(store, p) != {app}
    ensures GrantsOf(WithoutGrant(store, app, p), p) == GrantsOf(store, p) - {app}
    ensures GrantsOf(store, p) - {app} != {}
  {
    var other :| other in GrantsOf(store, p) && other != app;
  }

  // --- one such registry ------------------------------------------------------

  const RELEASE_ONE := Manifest("one", SemVer(1, 0, 0, [], ""), "module", "", NO_CREDITS, None, "")

  function Hidden(slug: string): Listing { Listing(slug, slug, "", "", "", "private") }

  /** From nothing: a publisher registers two private apps, a version of the first is submitted and
      published, and a platform is made and granted both. */
  function Setup(rules: Rules): seq<Op>
  {
    [OpSavePublisher("pub", "tenant", "pub", "Pub", "", EPOCH),
     OpSaveApp("one", "pub", "module", Hidden("one"), map[], EPOCH),
     OpSaveApp("two", "pub", "module", Hidden("two"), map[], EPOCH),
     OpSubmit("one", "module", "stable", RELEASE_ONE, "dev", "v", "e1", EPOCH),
     OpDecide("v", "publish", None, "admin", "", "e2", EPOCH),
     OpAddPlatform("p", "P", rules.tokenDigest("token")),
     OpGrant("one", "p"),
     OpGrant("two", "p")]
  }

  lemma RunNext(rules: Rules, s: Store, ops: seq<Op>, n: nat)
    requires n < |ops|
    ensures Run(rules, s, ops[..n + 1]) == After(rules, Run(rules, s, ops[..n]), ops[n])
  {
    assert ops[..n + 1][..n] == ops[..n];
  }

  ghost predicate Private(s: Store, app: string)
  {
    app in s.apps && s.apps[app].listing == Hidden(app)
  }

  ghost predicate TwoApps(s: Store)
  {
    s.apps.Keys == {"one", "two"} && Private(s, "one") && Private(s, "two") && s.platforms == map[] && s.grants == {}
  }

  const RELEASED := Decided(ReleaseFrom("one", "stable", RELEASE_ONE, "dev", EPOCH), Published, "", EPOCH)

  lemma FirstSaved(rules: Rules) returns (s: Store)
    ensures s == Run(rules, EMPTY_STORE, Setup(rules)[..2]) && s.apps.Keys == {"one"} && Private(s, "one") && "pub" in s.publishers
    ensures s == EMPTY_STORE.(publishers := s.publishers, apps := s.apps, revision := 1)
  {
    var ops := Setup(rules);
    RunNext(rules, EMPTY_STORE, ops, 0);
    RunNext(rules, EMPTY_STORE, ops, 1);
    var s1 := After(rules, EMPTY_STORE, ops[0]);
    assert s1 == EMPTY_STORE.(publishers := s1.publishers) && "pub" in s1.publishers;
    s := After(rules, s1, ops[1]);
  }

  lemma AppsSaved(rules: Rules) returns (s: Store)
    ensures s == Run(rules, EMPTY_STORE, Setup(rules)[..3]) && TwoApps(s) && s.releases == map[] && s.events == []
  {
    var s2 := FirstSaved(rules);
    RunNext(rules, EMPTY_STORE, Setup(rules), 2);
    assert s2.apps["one"].listing.slug != "two";
    s := After(rules, s2, Setup(rules)[2]);
  }

  lemma OneSubmitted(rules: Rules) returns (s: Store)
    requires rules.manifestOk(RELEASE_ONE)
    ensures s == Run(rules, EMPTY_STORE, Setup(rules)[..4]) && TwoApps(s)
    ensures s.releases == map["v" := ReleaseFrom("one", "stable", RELEASE_ONE, "dev", EPOCH)] && |s.events| == 1 && s.events[0].id == "e1"
  {
    var s3 := AppsSaved(rules);
    RunNext(rules, EMPTY_STORE, Setup(rules), 3);
    s := OneQueued(rules, s3);
  }

  lemma OneQueued(rules: Rules, s: Store) returns (t: Store)
    requires rules.manifestOk(RELEASE_ONE) && "one" in s.apps && s.releases == map[] && s.events == []
    ensures t == After(rules, s, Setup(rules)[3]) && t == s.(releases := t.releases, events := t.events)
    ensures t.releases == map["v" := ReleaseFrom("one", "stable", RELEASE_ONE, "dev", EPOCH)] && |t.events| == 1 && t.events[0].id == "e1"
  {
    assert !NumberUsed(s, "one", RELEASE_ONE.version) && !EventUsed(s, "e1");
    assert Acceptable(rules, "one", "module", "stable", RELEASE_ONE) && ExternalFromManifest(RELEASE_ONE) == None;
    t := After(rules, s, Setup(rules)[3]);
  }

  lemma OnePublished(rules: Rules) returns (s: Store)
    requires rules.manifestOk(RELEASE_ONE)
    ensures s == Run(rules, EMPTY_STORE, Setup(rules)[..5]) && TwoApps(s) && s.releases == map["v" := RELEASED]
  {
    var s4 := OneSubmitted(rules);
    RunNext(rules, EMPTY_STORE, Setup(rules), 4);
    assert !EventUsed(s4, "e2");
    s := After(rules, s4, Setup(rules)[4]);
  }

  /** What the set-up leads to. */
  ghost predicate IsSetUp(rules: Rules, s: Store)
  {
    && s.apps.Keys == {"one", "two"} && Private(s, "one") && Private(s, "two") && s.releases == map["v" := RELEASED]
    && s.platforms == map["p" := Platform("P", rules.tokenDigest("token"), true)] && s.grants == {("one", "p"), ("two", "p")}
  }

  lemma SetUp(rules: Rules) returns (s: Store)
    requires rules.manifestOk(RELEASE_ONE)
    ensures s == Run(rules, EMPTY_STORE, Setup(rules)) && IsSetUp(rules, s)
  {
    var s5 := OnePublished(rules);
    RunNext(rules, EMPTY_STORE, Setup(rules), 5);
    RunNext(rules, EMPTY_STORE, Setup(rules), 6);
    RunNext(rules, EMPTY_STORE, Setup(rules), 7);
    assert Setup(rules)[..8] == Setup(rules);
    s := PlatformGranted(rules, s5);
  }

  lemma PlatformGranted(rules: Rules, s: Store) returns (t: Store)
    requires TwoApps(s) && s.releases == map["v" := RELEASED]
    ensures t == After(rules, After(rules, After(rules, s, Setup(rules)[5]), Setup(rules)[6]), Setup(rules)[7]) && IsSetUp(rules, t)
  {
    var s6 := After(rules, s, Setup(rules)[5]);
    assert s6 == s.(platforms := map["p" := Platform("P", rules.tokenDigest("token"), true)]);
    t := After(rules, After(rules, s6, Setup(rules)[6]), Setup(rules)[7]);
  }

  /** It happens from an empty registry: after eight ordinary transactions the platform's later request
      can be answered with a document that lists the app it may no longer see and that is no build for
      the app it still may. All that is asked is that the manifest and the document pass their
      validators, that the platform's version parses and is allowed, and that the encoder tells entry
      lists apart. */
  lemma RevokedAppIsServedHere(rules: Rules, signer: Signer, platform: string, version: SemVer)
    requires rules.manifestOk(RELEASE_ONE) && (forall entries, x :: rules.catalogOk(entries, x)) && EncodesApart(rules)
    requires platform != "" && rules.platform(platform) == Some(version) && PlatformAllows(rules, ANY_PLATFORM, version)
    ensures exists s, snapshot :: Reachable(rules, s) && ServesRevoked(rules, s, "p", "one", platform, snapshot)
              && s.hist[0] == Run(rules, EMPTY_STORE, Setup(rules)) && GrantsOf(Now(s), "p") == {"two"}
              && WrongFor(rules, Now(s), "p", platform, snapshot)
  {
    var store := SetUp(rules);
    var ask := Ask("stable", version, GrantsOf(store, "p"));
    OneShows(rules, store, ask);
    var snapshot := ExposedBy(rules, signer, store, "token", "p", "one", platform, version);
    RevokedAppIsServed(rules, signer, store, "token", "p", "one", platform, snapshot);
    var s :| Reachable(rules, s) && ServesRevoked(rules, s, "p", "one", platform, snapshot) && s.hist[0] == store
             && WrongFor(rules, Now(s), "p", platform, snapshot);
    OneIsLeft(rules, s, store, platform, snapshot);
  }

  lemma OneIsLeft(rules: Rules, s: System, store: Store, platform: string, snapshot: Snapshot)
    requires |s.hist| > 0 && ServesRevoked(rules, s, "p", "one", platform, snapshot) && s.hist[0] == store
    requires GrantsOf(store, "p") == {"one", "two"}
    ensures GrantsOf(Now(s), "p") == {"two"}
  {
    GrantsLeft(store, "one", "p");
  }

  lemma OneShows(rules: Rules, s: Store, ask: Ask)
    requires IsSetUp(rules, s) && ask.channel == "stable" && PlatformAllows(rules, ANY_PLATFORM, ask.platform)
    ensures GrantsOf(s, "p") == {"one", "two"} && PlatformKeys(s) && Holds(rules, s, "token", "p") && s.platforms["p"].enabled
    ensures ask.ids == GrantsOf(s, "p") ==> GrantShows(rules, FaceOf(s), ask, "one")
    ensures forall v :: Eligible(rules, FaceOf(s), ask, v) ==> FaceOf(s).published[v].decodes
  {
    var f := FaceOf(s);
    assert f.published == map["v" := RELEASED];
    assert ("one", "p") in s.grants && ("two", "p") in s.grants;
    assert "v" in f.published && f.listings["one"].visibility == "private";
  }

  lemma ExposedBy(rules: Rules, signer: Signer, store: Store, token: string, p: string, app: string, platform: string, version: SemVer)
    returns (snapshot: Snapshot)
    requires PlatformKeys(store) && token != "" && Holds(rules, store, token, p) && store.platforms[p].enabled
    requires app in GrantsOf(store, p) && GrantsOf(store, p) != {app} && platform != "" && rules.platform(platform) == Some(version)
    requires forall entries, x :: rules.catalogOk(entries, x)
    requires forall v :: Eligible(rules, FaceOf(store), Ask("stable", version, GrantsOf(store, p)), v) ==> FaceOf(store).published[v].decodes
    ensures Exposed(rules, signer, store, token, p, app, platform, snapshot)
  {
    snapshot := SomeBuild(rules, signer, FaceOf(store), Ask("stable", version, GrantsOf(store, p)), platform, store.revision);
  }

  lemma SomeBuild(rules: Rules, signer: Signer, f: Face, ask: Ask, platform: string, revision: nat) returns (snapshot: Snapshot)
    requires forall entries, x :: rules.catalogOk(entries, x)
    ensures IsBuild(rules, signer, f, ask, platform, revision, snapshot)
  {
    RunLaws.PickExists(rules, f, ask);
    var pick :| IsPick(rules, f, ask, pick);
    PicksCover(rules, f, ask, pick);
    RunLaws.SomeStamp(rules, f, ask);
    var newest :| IsStamp(rules, f, ask, newest);
    snapshot := Assemble(rules, signer, f, pick, f.texts, newest, revision);
    var entries := EntriesOf(f, pick, f.texts);
    assert multiset(entries) == multiset(entries) && rules.catalogOk(entries, platform);
    assert Builds(rules, signer, f, ask, platform, revision, pick, newest, snapshot);
  }
}

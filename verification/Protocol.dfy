/** Serving catalogues while the tables change underneath. Every database statement of a request
    is a step of its own, any number of requests are in flight, and transactions commit in between.

    The state keeps every committed version of the tables, so that a request can be asked which of
    them it read. A step that reads always reads the last one. */
module Protocol {
  import opened Basics
  import opened Semver
  import opened Tables
  import opened Wire
  import opened Audiences
  import opened Review
  import opened Catalogue
  import opened StoreLaws
  import opened Caching

  /** Where the parts of a document came from: the revision, the rows and each app's translations
      were read from the versions of the tables at these positions. */
  datatype Origin = Origin(signer: Signer, ids: set<string>, revAt: nat, rowsAt: nat, textsAt: map<string, nat>,
                           pick: map<string, string>, newest: Time)

  datatype Answer = Answer(snapshot: Snapshot, origin: Origin)

  /** A request that knows its audience and has read the revision. */
  datatype Job = Job(audience: Audience, revision: nat, revAt: nat)

  datatype Stage =
    | Arrived
    | Recognised(platformId: string)
    | Resolved(audience: Audience)
    | Stamped(job: Job)
    | Missed(job: Job)
    | Gathering(job: Job, rowsAt: nat, pick: map<string, string>, newest: Time, textsAt: map<string, nat>)
    | Built(job: Job, answer: Answer)
    | Saved(job: Job, answer: Answer)
    | Answered(audience: Audience, answer: Answer, seenAt: nat)
    | Failed

  datatype Request = Request(channel: string, platform: string, token: string, start: nat, stage: Stage)

  /** `unpruned` counts, per channel, the rows stored since that channel was last pruned. `rotated`
      says that the signing key changed and the public cache has not been discarded since;
      `rotatedPrivate` the same of the private cache. */
  datatype System = System(
    hist: seq<Store>,
    signer: Signer, rotated: bool, rotatedPrivate: bool,
    publicRows: map<(string, string), Row<Answer>>,
    privateRows: map<(string, string, string), Row<Answer>>,
    requests: map<nat, Request>,
    unpruned: map<string, nat>)

  function Now(s: System): Store requires |s.hist| > 0 { s.hist[|s.hist| - 1] }

  function Count(m: map<string, nat>, k: string): nat { if k in m then m[k] else 0 }

  // --- steps ------------------------------------------------------------------

  datatype Step =
    | Arrive(id: nat, channel: string, platform: string, token: string)
    | Advance(id: nat, next: Stage)
    | Save(id: nat, stored: bool, now: Time)
    | Prune(id: nat, done: bool)
    | Commit(op: Op)
    | CommitImport(after: Store)
    | Paired(op: Op, platformId: string)
    | DiscardPublic
    | DiscardPrivate(platformId: string)
    | Restart(signer: Signer)

  ghost function CacheOf(s: System, r: Request, audience: Audience): Option<Answer>
  {
    if audience.Anonymous() then
      if (r.channel, r.platform) in s.publicRows then Some(s.publicRows[(r.channel, r.platform)].answer) else None
    else
      var key := (audience.platformId, r.channel, r.platform);
      if key in s.privateRows then Some(s.privateRows[key].answer) else None
  }

  ghost function GatherAt(hist: seq<Store>, textsAt: map<string, nat>): map<string, map<string, Text>>
    requires forall a :: a in textsAt ==> textsAt[a] < |hist|
  {
    map a | a in textsAt :: TextsOf(hist[textsAt[a]].texts, a)
  }

  /** One statement or one local computation of a request that leaves the caches alone. */
  ghost predicate Moves(rules: Rules, s: System, r: Request, next: Stage)
    requires |s.hist| > 0
  {
    var (last, here) := (Now(s), |s.hist| - 1);
    (next == Failed && !r.stage.Answered? && !r.stage.Failed?) ||
    match r.stage
    case Arrived =>
      var platform := PlatformByToken(rules, last, r.token);
      next == if platform.Some? then Recognised(platform.value) else Resolved(ANONYMOUS)
    case Recognised(id) => next == Resolved(AudienceOf(last, id))
    case Resolved(audience) => next == Stamped(Job(audience, last.revision, here))
    case Stamped(job) =>
      var held := CacheOf(s, r, job.audience);
      next == if held.Some? && held.value.snapshot.revision == job.revision
              then Answered(job.audience, held.value, job.revAt) else Missed(job)
    case Missed(job) =>
      && next.Gathering? && next.job == job && next.rowsAt == here && next.textsAt == map[]
      && rules.platform(r.platform).Some?
      && Selects(rules, FaceOf(last), Ask(r.channel, rules.platform(r.platform).value, job.audience.appIds), next.pick, next.newest)
    case Gathering(job, rowsAt, pick, newest, textsAt) =>
      || (exists a :: a in pick && a !in textsAt && next == r.stage.(textsAt := textsAt[a := here]))
      || (next.Built? && next.job == job && textsAt.Keys == pick.Keys && rules.platform(r.platform).Some?
          && next.answer.origin == Origin(s.signer, job.audience.appIds, job.revAt, rowsAt, textsAt, pick, newest)
          && Assembles(rules, s.hist, r.channel, r.platform, job.revision, next.answer))
    case _ => false
  }

  /** What the builder's row loop hands on (the contract of Catalogue.Select). */
  ghost predicate Selects(rules: Rules, f: Face, ask: Ask, pick: map<string, string>, newest: Time)
  {
    && IsPick(rules, f, ask, pick) && IsStamp(rules, f, ask, newest)
    && (forall v :: Eligible(rules, f, ask, v) ==> f.published[v].decodes)
  }

  /** What validation, sorting and signing make of the parts (the contract of Catalogue.SignApps). */
  ghost predicate Assembles(rules: Rules, hist: seq<Store>, channel: string, platform: string, revision: nat, a: Answer)
  {
    var o := a.origin;
    && o.rowsAt < |hist| && (forall x :: x in o.textsAt ==> o.textsAt[x] < |hist|)
    && Covers(FaceOf(hist[o.rowsAt]), o.pick)
    && Passes(rules, EntriesOf(FaceOf(hist[o.rowsAt]), o.pick, GatherAt(hist, o.textsAt)), platform)
    && a.snapshot == Assemble(rules, o.signer, FaceOf(hist[o.rowsAt]), o.pick, GatherAt(hist, o.textsAt), o.newest, revision)
  }

  ghost predicate SaveStep(s: System, id: nat, stored: bool, now: Time, t: System)
  {
    && id in s.requests && s.requests[id].stage.Built?
    && var r := s.requests[id];
       var (job, answer) := (r.stage.job, r.stage.answer);
       if job.audience.Anonymous() then
         t == s.(requests := s.requests[id := r.(stage := Saved(job, answer))],
                 publicRows := if stored then s.publicRows[(r.channel, r.platform) := Row(answer, now)] else s.publicRows,
                 unpruned := if stored then s.unpruned[r.channel := Count(s.unpruned, r.channel) + 1] else s.unpruned)
       else
         t == s.(requests := s.requests[id := r.(stage := Answered(job.audience, answer, job.revAt))],
                 privateRows := if stored then s.privateRows[(job.audience.platformId, r.channel, r.platform) := Row(answer, now)] else s.privateRows)
  }

  ghost predicate PruneStep(s: System, id: nat, done: bool, t: System)
  {
    && id in s.requests && s.requests[id].stage.Saved?
    && var r := s.requests[id];
       && t == s.(requests := s.requests[id := r.(stage := Answered(r.stage.job.audience, r.stage.answer, r.stage.job.revAt))],
                  publicRows := t.publicRows, unpruned := t.unpruned)
       && (if done then PrunedTo(s.publicRows, t.publicRows, r.channel) && t.unpruned == s.unpruned[r.channel := 0]
           else t.publicRows == s.publicRows && t.unpruned == s.unpruned)
  }

  ghost predicate Commits(rules: Rules, s: System, op: Op, t: System)
    requires |s.hist| > 0
  {
    && Exec(rules, Now(s), op).Ok?
    && t.hist == s.hist + [Exec(rules, Now(s), op).value]
  }

  ghost predicate ArriveStep(rules: Rules, s: System, id: nat, channel: string, platform: string, token: string, t: System)
    requires |s.hist| > 0
  {
    && id !in s.requests && WellFormed(rules, channel, platform)
    && t == s.(requests := s.requests[id := Request(ChannelOf(channel), PlatformOf(platform), token, |s.hist| - 1, Arrived)])
  }

  ghost predicate AdvanceStep(rules: Rules, s: System, id: nat, next: Stage, t: System)
    requires |s.hist| > 0
  {
    && id in s.requests && Moves(rules, s, s.requests[id], next)
    && t == s.(requests := s.requests[id := s.requests[id].(stage := next)])
  }

  ghost predicate CommitStep(rules: Rules, s: System, op: Op, t: System)
    requires |s.hist| > 0
  {
    Commits(rules, s, op, t) && t == s.(hist := t.hist)
  }

  /** An import commits: it moves the revision and leaves platforms and grants alone. */
  ghost predicate ImportStep(s: System, after: Store, t: System)
    requires |s.hist| > 0
  {
    && after.revision == Now(s).revision + 1
    && after.platforms == Now(s).platforms && after.grants == Now(s).grants
    && t == s.(hist := s.hist + [after])
  }

  /** An operator endpoint: the change, then the discard of that platform's rows. */
  ghost predicate PairedStep(rules: Rules, s: System, op: Op, id: string, t: System)
    requires |s.hist| > 0
  {
    Commits(rules, s, op, t) && t == s.(hist := t.hist, privateRows := WithoutPlatform(s.privateRows, id))
  }

  ghost predicate DiscardPrivateStep(s: System, id: string, t: System)
  {
    t == if id == "" then s.(privateRows := map[], rotatedPrivate := false)
         else s.(privateRows := WithoutPlatform(s.privateRows, id))
  }

  ghost predicate Next(rules: Rules, s: System, step: Step, t: System)
    requires |s.hist| > 0
  {
    match step
    case Arrive(id, channel, platform, token) => ArriveStep(rules, s, id, channel, platform, token, t)
    case Advance(id, next) => AdvanceStep(rules, s, id, next, t)
    case Save(id, stored, now) => SaveStep(s, id, stored, now, t)
    case Prune(id, done) => PruneStep(s, id, done, t)
    case Commit(op) => CommitStep(rules, s, op, t)
    case CommitImport(after) => ImportStep(s, after, t)
    case Paired(op, id) => PairedStep(rules, s, op, id, t)
    case DiscardPublic => t == s.(publicRows := map[], unpruned := map[], rotated := false)
    case DiscardPrivate(id) => DiscardPrivateStep(s, id, t)
    case Restart(signer) => t == s.(signer := signer, requests := map[], rotated := true, rotatedPrivate := true)
  }

  ghost predicate Init(s: System)
  {
    && |s.hist| == 1 && "" !in s.hist[0].platforms
    && !s.rotated && !s.rotatedPrivate && s.publicRows == map[] && s.privateRows == map[] && s.requests == map[] && s.unpruned == map[]
  }

  /** A run: any interleaving of steps. */
  ghost predicate IsRun(rules: Rules, states: seq<System>, steps: seq<Step>)
  {
    && |states| == |steps| + 1 && Init(states[0])
    && (forall i :: 0 <= i < |states| ==> |states[i].hist| > 0)
    && (forall i :: 0 <= i < |steps| ==> Next(rules, states[i], steps[i], states[i + 1]))
  }

  // --- the invariant ----------------------------------------------------------

  ghost predicate HistOk(hist: seq<Store>)
  {
    && |hist| > 0
    && (forall i :: 0 <= i < |hist| ==> "" !in hist[i].platforms)
    && (forall i :: 0 <= i < |hist| - 1 ==> Covered(hist[i], hist[i + 1]))
  }

  /** The document was put together from the parts its origin names, read in that order, and
      is labelled with the revision read first. */
  ghost predicate Traced(rules: Rules, hist: seq<Store>, channel: string, platform: string, a: Answer)
  {
    var o := a.origin;
    && o.revAt <= o.rowsAt < |hist| && (forall x :: x in o.textsAt ==> o.rowsAt <= o.textsAt[x] < |hist|)
    && a.snapshot.revision == hist[o.revAt].revision
    && rules.platform(platform).Some? && o.textsAt.Keys == o.pick.Keys
    && IsPick(rules, FaceOf(hist[o.rowsAt]), Ask(channel, rules.platform(platform).value, o.ids), o.pick)
    && IsStamp(rules, FaceOf(hist[o.rowsAt]), Ask(channel, rules.platform(platform).value, o.ids), o.newest)
    && Assembles(rules, hist, channel, platform, a.snapshot.revision, a)
  }

  ghost predicate JobOk(hist: seq<Store>, r: Request, job: Job)
  {
    r.start <= job.revAt < |hist| && job.revision == hist[job.revAt].revision && AudienceOk(job.audience)
  }

  predicate AudienceOk(audience: Audience) { audience.Anonymous() ==> audience.appIds == {} }

  ghost predicate GatheringOk(rules: Rules, hist: seq<Store>, r: Request, job: Job, rowsAt: nat,
                              pick: map<string, string>, newest: Time, textsAt: map<string, nat>)
  {
    && job.revAt <= rowsAt < |hist| && rules.platform(r.platform).Some?
    && IsPick(rules, FaceOf(hist[rowsAt]), Ask(r.channel, rules.platform(r.platform).value, job.audience.appIds), pick)
    && IsStamp(rules, FaceOf(hist[rowsAt]), Ask(r.channel, rules.platform(r.platform).value, job.audience.appIds), newest)
    && (forall x :: x in textsAt ==> rowsAt <= textsAt[x] < |hist|)
  }

  /** An answer the request built itself. */
  ghost predicate OwnAnswer(rules: Rules, hist: seq<Store>, signer: Signer, r: Request, job: Job, a: Answer)
  {
    && Traced(rules, hist, r.channel, r.platform, a) && a.snapshot.revision == job.revision
    && a.origin.revAt == job.revAt && a.origin.ids == job.audience.appIds && a.origin.signer == signer
  }

  ghost predicate RequestOk(rules: Rules, hist: seq<Store>, signer: Signer, r: Request)
  {
    r.start < |hist| &&
    match r.stage
    case Arrived => true
    case Recognised(id) => id != ""
    case Resolved(audience) => AudienceOk(audience)
    case Stamped(job) => JobOk(hist, r, job)
    case Missed(job) => JobOk(hist, r, job)
    case Gathering(job, rowsAt, pick, newest, textsAt) =>
      JobOk(hist, r, job) && GatheringOk(rules, hist, r, job, rowsAt, pick, newest, textsAt)
    case Built(job, a) => JobOk(hist, r, job) && OwnAnswer(rules, hist, signer, r, job, a)
    case Saved(job, a) => JobOk(hist, r, job) && OwnAnswer(rules, hist, signer, r, job, a)
    case Answered(audience, a, seenAt) =>
      && Traced(rules, hist, r.channel, r.platform, a)
      && r.start <= seenAt < |hist| && a.snapshot.revision == hist[seenAt].revision
      && (audience.Anonymous() ==> a.origin.ids == {})
    case Failed => true
  }

  ghost predicate PublicRowOk(rules: Rules, s: System, k: (string, string), a: Answer)
  {
    Traced(rules, s.hist, k.0, k.1, a) && a.origin.ids == {} && (!s.rotated ==> a.origin.signer == s.signer)
  }

  ghost predicate PrivateRowOk(rules: Rules, s: System, k: (string, string, string), a: Answer)
  {
    Traced(rules, s.hist, k.1, k.2, a) && (!s.rotatedPrivate ==> a.origin.signer == s.signer)
  }

  ghost predicate PublicOk(rules: Rules, s: System)
  {
    forall k :: k in s.publicRows ==> PublicRowOk(rules, s, k, s.publicRows[k].answer)
  }

  ghost predicate PrivateOk(rules: Rules, s: System)
  {
    forall k :: k in s.privateRows ==> PrivateRowOk(rules, s, k, s.privateRows[k].answer)
  }

  ghost predicate RequestsOk(rules: Rules, s: System)
  {
    forall id :: id in s.requests ==> RequestOk(rules, s.hist, s.signer, s.requests[id])
  }

  ghost predicate Inv(rules: Rules, s: System)
  {
    HistOk(s.hist) && RequestsOk(rules, s) && PublicOk(rules, s) && PrivateOk(rules, s)
  }
}

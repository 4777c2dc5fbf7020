/** Freshness, transparency, coherence and bounds of the caches under every interleaving. */
module ProtocolLaws {
  import opened Basics
  import opened Semver
  import opened Tables
  import opened Wire
  import opened Audiences
  import opened Review
  import opened Catalogue
  import opened CatalogueLaws
  import opened StoreLaws
  import opened Caching
  import opened Protocol

  // --- the history ------------------------------------------------------------

  lemma {:induction false} RevisionsGrow(hist: seq<Store>, i: nat, j: nat)
    requires HistOk(hist) && i <= j < |hist|
    ensures hist[i].revision <= hist[j].revision
    decreases j - i
  {
    if i < j { RevisionsGrow(hist, i + 1, j); }
  }

  /** While the revision stands still, nothing a catalogue shows changes. */
  lemma {:induction false} SteadyFace(hist: seq<Store>, i: nat, j: nat)
    requires HistOk(hist) && i <= j < |hist| && hist[i].revision == hist[j].revision
    ensures FaceOf(hist[i]) == FaceOf(hist[j])
    decreases j - i
  {
    if i < j {
      RevisionsGrow(hist, i + 1, j);
      SteadyFace(hist, i + 1, j);
    }
  }

  lemma AssemblesExtends(rules: Rules, hist: seq<Store>, hist': seq<Store>, channel: string, platform: string, revision: nat, a: Answer)
    requires hist <= hist' && Assembles(rules, hist, channel, platform, revision, a)
    ensures Assembles(rules, hist', channel, platform, revision, a)
  {
    assert hist'[a.origin.rowsAt] == hist[a.origin.rowsAt];
    assert GatherAt(hist', a.origin.textsAt) == GatherAt(hist, a.origin.textsAt);
  }

  lemma TracedExtends(rules: Rules, hist: seq<Store>, hist': seq<Store>, channel: string, platform: string, a: Answer)
    requires hist <= hist' && Traced(rules, hist, channel, platform, a)
    ensures Traced(rules, hist', channel, platform, a)
  {
    assert hist'[a.origin.rowsAt] == hist[a.origin.rowsAt] && hist'[a.origin.revAt] == hist[a.origin.revAt];
    AssemblesExtends(rules, hist, hist', channel, platform, a.snapshot.revision, a);
  }

  lemma RequestExtends(rules: Rules, hist: seq<Store>, hist': seq<Store>, signer: Signer, r: Request)
    requires hist <= hist' && RequestOk(rules, hist, signer, r)
    ensures RequestOk(rules, hist', signer, r)
  {
    match r.stage
    case Built(job, a) => TracedExtends(rules, hist, hist', r.channel, r.platform, a);
    case Saved(job, a) => TracedExtends(rules, hist, hist', r.channel, r.platform, a);
    case Answered(_, a, _) => TracedExtends(rules, hist, hist', r.channel, r.platform, a);
    case _ =>
  }

  // --- every step keeps the invariant -----------------------------------------

  lemma MoveKeeps(rules: Rules, s: System, r: Request, next: Stage)
    requires Inv(rules, s) && RequestOk(rules, s.hist, s.signer, r) && Moves(rules, s, r, next)
    ensures RequestOk(rules, s.hist, s.signer, r.(stage := next))
  {
    match r.stage
    case Stamped(job) => LoadKeeps(rules, s, r, job, next);
    case Missed(job) => SelectKeeps(rules, s, r, job, next);
    case Gathering(job, rowsAt, pick, newest, textsAt) => GatherKeeps(rules, s, r, next);
    case _ =>
  }

  lemma LoadKeeps(rules: Rules, s: System, r: Request, job: Job, next: Stage)
    requires PublicOk(rules, s) && PrivateOk(rules, s) && |s.hist| > 0
    requires r.stage == Stamped(job) && r.start < |s.hist| && JobOk(s.hist, r, job) && Moves(rules, s, r, next)
    ensures RequestOk(rules, s.hist, s.signer, r.(stage := next))
  {
    var held := CacheOf(s, r, job.audience);
    if held.Some? {
      if job.audience.Anonymous() {
        assert PublicRowOk(rules, s, (r.channel, r.platform), held.value);
      } else {
        assert PrivateRowOk(rules, s, (job.audience.platformId, r.channel, r.platform), held.value);
      }
    }
  }

  lemma SelectKeeps(rules: Rules, s: System, r: Request, job: Job, next: Stage)
    requires |s.hist| > 0 && r.stage == Missed(job) && r.start < |s.hist| && JobOk(s.hist, r, job) && Moves(rules, s, r, next)
    ensures RequestOk(rules, s.hist, s.signer, r.(stage := next))
  {
  }

  lemma GatherKeeps(rules: Rules, s: System, r: Request, next: Stage)
    requires |s.hist| > 0 && r.stage.Gathering? && RequestOk(rules, s.hist, s.signer, r) && Moves(rules, s, r, next)
    ensures RequestOk(rules, s.hist, s.signer, r.(stage := next))
  {
  }

  lemma RequestsStay(rules: Rules, s: System, id: nat, r: Request, t: System)
    requires RequestsOk(rules, s) && t.hist == s.hist && t.signer == s.signer && t.requests == s.requests[id := r]
    requires RequestOk(rules, s.hist, s.signer, r)
    ensures RequestsOk(rules, t)
  {
  }

  lemma HistoryGrows(rules: Rules, s: System, t: System)
    requires Inv(rules, s) && s.hist <= t.hist && HistOk(t.hist)
    requires t.signer == s.signer && t.rotated == s.rotated && t.rotatedPrivate == s.rotatedPrivate
    requires t.requests == s.requests && t.publicRows == s.publicRows
    requires forall k :: k in t.privateRows ==> k in s.privateRows && t.privateRows[k] == s.privateRows[k]
    ensures Inv(rules, t)
  {
    forall id | id in t.requests ensures RequestOk(rules, t.hist, t.signer, t.requests[id]) {
      RequestExtends(rules, s.hist, t.hist, s.signer, s.requests[id]);
    }
    forall k | k in t.publicRows ensures PublicRowOk(rules, t, k, t.publicRows[k].answer) {
      assert PublicRowOk(rules, s, k, s.publicRows[k].answer);
      TracedExtends(rules, s.hist, t.hist, k.0, k.1, s.publicRows[k].answer);
    }
    forall k | k in t.privateRows ensures PrivateRowOk(rules, t, k, t.privateRows[k].answer) {
      assert PrivateRowOk(rules, s, k, s.privateRows[k].answer);
      TracedExtends(rules, s.hist, t.hist, k.1, k.2, s.privateRows[k].answer);
    }
  }

  lemma CommitExtends(rules: Rules, hist: seq<Store>, op: Op)
    requires HistOk(hist) && Exec(rules, hist[|hist| - 1], op).Ok?
    ensures HistOk(hist + [Exec(rules, hist[|hist| - 1], op).value])
  {
    var last := hist[|hist| - 1];
    ExecCovered(rules, last, op);
    KeepsPlatformIds(rules, last, op);
  }

  lemma KeepsPlatformIds(rules: Rules, s: Store, op: Op)
    requires "" !in s.platforms
    ensures "" !in After(rules, s, op).platforms
  {
  }

  lemma ArriveKeeps(rules: Rules, s: System, id: nat, channel: string, platform: string, token: string, t: System)
    requires Inv(rules, s) && ArriveStep(rules, s, id, channel, platform, token, t)
    ensures Inv(rules, t)
  {
    RequestsStay(rules, s, id, t.requests[id], t);
    RowsStay(rules, s, t);
  }

  lemma AdvanceKeeps(rules: Rules, s: System, id: nat, next: Stage, t: System)
    requires Inv(rules, s) && AdvanceStep(rules, s, id, next, t)
    ensures Inv(rules, t)
  {
    MoveKeeps(rules, s, s.requests[id], next);
    RequestsStay(rules, s, id, t.requests[id], t);
    RowsStay(rules, s, t);
  }

  /** Caches keep their invariant when rows only leave them. */
  lemma RowsStay(rules: Rules, s: System, t: System)
    requires PublicOk(rules, s) && PrivateOk(rules, s) && t.hist == s.hist && t.signer == s.signer
    requires t.rotated == s.rotated && t.rotatedPrivate == s.rotatedPrivate
    requires forall k :: k in t.publicRows ==> k in s.publicRows && t.publicRows[k] == s.publicRows[k]
    requires forall k :: k in t.privateRows ==> k in s.privateRows && t.privateRows[k] == s.privateRows[k]
    ensures PublicOk(rules, t) && PrivateOk(rules, t)
  {
  }

  lemma PublicRowAdded(rules: Rules, s: System, k: (string, string), row: Row<Answer>, t: System)
    requires PublicOk(rules, s) && PublicRowOk(rules, s, k, row.answer)
    requires t == s.(publicRows := s.publicRows[k := row], requests := t.requests, unpruned := t.unpruned)
    ensures PublicOk(rules, t)
  {
    forall j | j in t.publicRows ensures PublicRowOk(rules, t, j, t.publicRows[j].answer) {
      assert j != k ==> PublicRowOk(rules, s, j, s.publicRows[j].answer);
    }
  }

  lemma PrivateRowAdded(rules: Rules, s: System, k: (string, string, string), row: Row<Answer>, t: System)
    requires PrivateOk(rules, s) && PrivateRowOk(rules, s, k, row.answer)
    requires t == s.(privateRows := s.privateRows[k := row], requests := t.requests, unpruned := t.unpruned)
    ensures PrivateOk(rules, t)
  {
    forall j | j in t.privateRows ensures PrivateRowOk(rules, t, j, t.privateRows[j].answer) {
      assert j != k ==> PrivateRowOk(rules, s, j, s.privateRows[j].answer);
    }
  }

  /** What a request has built may be stored in either cache, and answered. */
  lemma BuiltIsStorable(rules: Rules, s: System, r: Request, job: Job, a: Answer)
    requires RequestOk(rules, s.hist, s.signer, r) && r.stage == Built(job, a)
    ensures RequestOk(rules, s.hist, s.signer, r.(stage := Saved(job, a)))
    ensures RequestOk(rules, s.hist, s.signer, r.(stage := Answered(job.audience, a, job.revAt)))
    ensures job.audience.Anonymous() ==> PublicRowOk(rules, s, (r.channel, r.platform), a)
    ensures PrivateRowOk(rules, s, (job.audience.platformId, r.channel, r.platform), a)
  {
  }

  lemma SaveKeeps(rules: Rules, s: System, id: nat, stored: bool, now: Time, t: System)
    requires Inv(rules, s) && SaveStep(s, id, stored, now, t)
    ensures Inv(rules, t)
  {
    SaveKeepsRequests(rules, s, id, stored, now, t);
    SaveKeepsRows(rules, s, id, stored, now, t);
  }

  lemma SaveKeepsRequests(rules: Rules, s: System, id: nat, stored: bool, now: Time, t: System)
    requires RequestsOk(rules, s) && SaveStep(s, id, stored, now, t)
    ensures RequestsOk(rules, t)
  {
    var r := s.requests[id];
    BuiltIsStorable(rules, s, r, r.stage.job, r.stage.answer);
    RequestsStay(rules, s, id, t.requests[id], t);
  }

  lemma SaveKeepsRows(rules: Rules, s: System, id: nat, stored: bool, now: Time, t: System)
    requires RequestsOk(rules, s) && PublicOk(rules, s) && PrivateOk(rules, s) && SaveStep(s, id, stored, now, t)
    ensures PublicOk(rules, t) && PrivateOk(rules, t)
  {
    var r := s.requests[id];
    BuiltIsStorable(rules, s, r, r.stage.job, r.stage.answer);
    RowStored(rules, s, r, r.stage.job, r.stage.answer, stored, now, t);
  }

  lemma RowStored(rules: Rules, s: System, r: Request, job: Job, a: Answer, stored: bool, now: Time, t: System)
    requires PublicOk(rules, s) && PrivateOk(rules, s)
    requires job.audience.Anonymous() ==> PublicRowOk(rules, s, (r.channel, r.platform), a)
    requires PrivateRowOk(rules, s, (job.audience.platformId, r.channel, r.platform), a)
    requires var u := s.(requests := t.requests, unpruned := t.unpruned);
      t == if !stored then u
           else if job.audience.Anonymous() then u.(publicRows := s.publicRows[(r.channel, r.platform) := Row(a, now)])
           else u.(privateRows := s.privateRows[(job.audience.platformId, r.channel, r.platform) := Row(a, now)])
    ensures PublicOk(rules, t) && PrivateOk(rules, t)
  {
    if !stored {
      RowsStay(rules, s, t);
    } else if job.audience.Anonymous() {
      PublicRowAdded(rules, s, (r.channel, r.platform), Row(a, now), t);
      RowsStay(rules, s, t.(publicRows := s.publicRows));
    } else {
      PrivateRowAdded(rules, s, (job.audience.platformId, r.channel, r.platform), Row(a, now), t);
      RowsStay(rules, s, t.(privateRows := s.privateRows));
    }
  }

  lemma PruneKeeps(rules: Rules, s: System, id: nat, done: bool, t: System)
    requires Inv(rules, s) && PruneStep(s, id, done, t)
    ensures Inv(rules, t)
  {
    assert RequestOk(rules, s.hist, s.signer, s.requests[id]);
    RequestsStay(rules, s, id, t.requests[id], t);
    RowsStay(rules, s, t);
  }

  lemma CommitKeeps(rules: Rules, s: System, op: Op, t: System)
    requires Inv(rules, s) && CommitStep(rules, s, op, t)
    ensures Inv(rules, t)
  {
    CommitExtends(rules, s.hist, op);
    HistoryGrows(rules, s, t);
  }

  lemma ImportKeeps(rules: Rules, s: System, after: Store, t: System)
    requires Inv(rules, s) && ImportStep(s, after, t)
    ensures Inv(rules, t)
  {
    HistoryGrows(rules, s, t);
  }

  lemma PairedKeeps(rules: Rules, s: System, op: Op, id: string, t: System)
    requires Inv(rules, s) && PairedStep(rules, s, op, id, t)
    ensures Inv(rules, t)
  {
    CommitExtends(rules, s.hist, op);
    HistoryGrows(rules, s, t);
  }

  lemma DiscardPublicKeeps(rules: Rules, s: System, t: System)
    requires Inv(rules, s) && t == s.(publicRows := map[], unpruned := map[], rotated := false)
    ensures Inv(rules, t)
  {
  }

  lemma DiscardPrivateKeeps(rules: Rules, s: System, id: string, t: System)
    requires Inv(rules, s) && DiscardPrivateStep(s, id, t)
    ensures Inv(rules, t)
  {
    PrivateDropped(rules, s, id, t);
    DiscardTouchesPrivate(s, id, t);
    PrivateAside(rules, s, t);
  }

  lemma DiscardTouchesPrivate(s: System, id: string, t: System)
    requires DiscardPrivateStep(s, id, t)
    ensures t == s.(privateRows := t.privateRows, rotatedPrivate := t.rotatedPrivate)
  {
  }

  lemma PrivateAside(rules: Rules, s: System, t: System)
    requires Inv(rules, s) && PrivateOk(rules, t) && t == s.(privateRows := t.privateRows, rotatedPrivate := t.rotatedPrivate)
    ensures Inv(rules, t)
  {
  }

  lemma PrivateDropped(rules: Rules, s: System, id: string, t: System)
    requires PrivateOk(rules, s) && DiscardPrivateStep(s, id, t)
    ensures PrivateOk(rules, t)
  {
    forall k | k in t.privateRows ensures PrivateRowOk(rules, t, k, t.privateRows[k].answer) {
      assert PrivateRowOk(rules, s, k, s.privateRows[k].answer);
    }
  }

  lemma RestartKeeps(rules: Rules, s: System, signer: Signer, t: System)
    requires Inv(rules, s) && t == s.(signer := signer, requests := map[], rotated := true, rotatedPrivate := true)
    ensures Inv(rules, t)
  {
  }

  lemma NextKeepsInv(rules: Rules, s: System, step: Step, t: System)
    requires Inv(rules, s) && Next(rules, s, step, t)
    ensures Inv(rules, t)
  {
    match step
    case Arrive(id, channel, platform, token) => ArriveKeeps(rules, s, id, channel, platform, token, t);
    case Advance(id, next) => AdvanceKeeps(rules, s, id, next, t);
    case Save(id, stored, now) => SaveKeeps(rules, s, id, stored, now, t);
    case Prune(id, done) => PruneKeeps(rules, s, id, done, t);
    case Commit(op) => CommitKeeps(rules, s, op, t);
    case CommitImport(after) => ImportKeeps(rules, s, after, t);
    case Paired(op, id) => PairedKeeps(rules, s, op, id, t);
    case DiscardPublic => DiscardPublicKeeps(rules, s, t);
    case DiscardPrivate(id) => DiscardPrivateKeeps(rules, s, id, t);
    case Restart(signer) => RestartKeeps(rules, s, signer, t);
  }

  lemma {:induction false} InvOverRuns(rules: Rules, states: seq<System>, steps: seq<Step>, i: nat)
    requires IsRun(rules, states, steps) && i < |states|
    ensures Inv(rules, states[i])
    decreases i
  {
    if i > 0 {
      InvOverRuns(rules, states, steps, i - 1);
      NextKeepsInv(rules, states[i - 1], steps[i - 1], states[i]);
    }
  }

  // --- what the invariant says of answers --------------------------------------

  lemma AnswersAreTraced(rules: Rules, states: seq<System>, steps: seq<Step>, i: nat, id: nat)
    requires IsRun(rules, states, steps) && i < |states|
    requires id in states[i].requests && states[i].requests[id].stage.Answered?
    ensures var (s, r) := (states[i], states[i].requests[id]);
      && HistOk(s.hist) && Traced(rules, s.hist, r.channel, r.platform, r.stage.answer)
      && r.start <= r.stage.seenAt < |s.hist| && r.stage.answer.snapshot.revision == s.hist[r.stage.seenAt].revision
      && (r.stage.audience.Anonymous() ==> r.stage.answer.origin.ids == {})
  {
    InvOverRuns(rules, states, steps, i);
    assert RequestOk(rules, states[i].hist, states[i].signer, states[i].requests[id]);
  }

  /** Whom a finished document was built for, and the key it was signed with. */
  ghost predicate KeysOk(s: System)
  {
    && (forall k :: k in s.publicRows && !s.rotated ==> s.publicRows[k].answer.origin.signer == s.signer)
    && (forall q :: q in s.requests ==> OwnKey(s.signer, s.requests[q].stage))
  }

  predicate OwnKey(signer: Signer, stage: Stage)
  {
    match stage
    case Built(job, a) => a.origin.signer == signer && a.origin.ids == job.audience.appIds
    case Saved(job, a) => a.origin.signer == signer && a.origin.ids == job.audience.appIds
    case _ => true
  }

  lemma KeysAreOk(rules: Rules, states: seq<System>, steps: seq<Step>, i: nat)
    requires IsRun(rules, states, steps) && i < |states|
    ensures KeysOk(states[i])
  {
    InvOverRuns(rules, states, steps, i);
    var s := states[i];
    forall k | k in s.publicRows && !s.rotated ensures s.publicRows[k].answer.origin.signer == s.signer {
      assert PublicRowOk(rules, s, k, s.publicRows[k].answer);
    }
    forall q | q in s.requests ensures OwnKey(s.signer, s.requests[q].stage) {
      assert RequestOk(rules, s.hist, s.signer, s.requests[q]);
    }
  }

  // --- freshness --------------------------------------------------------------

  /** Freshness under every interleaving: once a decision, an app edit or an import has committed
      as version c of the tables, no request that starts afterwards answers with a document any
      part of which was read before, whether it was found in a cache or built. `Traced` says that
      the document served is what those reads make. */
  lemma AnswersAreFresh(rules: Rules, states: seq<System>, steps: seq<Step>, i: nat, id: nat, c: nat)
    requires IsRun(rules, states, steps) && i < |states|
    requires id in states[i].requests && states[i].requests[id].stage.Answered?
    requires 0 < c <= states[i].requests[id].start < |states[i].hist|
    requires states[i].hist[c - 1].revision != states[i].hist[c].revision
    ensures var r := states[i].requests[id];
            Traced(rules, states[i].hist, r.channel, r.platform, r.stage.answer)
    ensures var o := states[i].requests[id].stage.answer.origin;
            c <= o.revAt && c <= o.rowsAt && forall a :: a in o.textsAt ==> c <= o.textsAt[a]
  {
    AnswersAreTraced(rules, states, steps, i, id);
    AnswerPositions(rules, states, steps, i, id);
    var hist, stage := states[i].hist, states[i].requests[id].stage;
    LaterLabelLaterReads(hist, c, stage.answer.origin.revAt, stage.seenAt);
  }

  lemma AnswerPositions(rules: Rules, states: seq<System>, steps: seq<Step>, i: nat, id: nat)
    requires IsRun(rules, states, steps) && i < |states|
    requires id in states[i].requests && states[i].requests[id].stage.Answered?
    ensures var (hist, r) := (states[i].hist, states[i].requests[id]);
            var o := r.stage.answer.origin;
      && HistOk(hist) && r.start <= r.stage.seenAt < |hist|
      && o.revAt <= o.rowsAt < |hist| && (forall a :: a in o.textsAt ==> o.rowsAt <= o.textsAt[a])
      && hist[o.revAt].revision == hist[r.stage.seenAt].revision
  {
    AnswersAreTraced(rules, states, steps, i, id);
  }

  /** Versions with equal revisions lie on the same side of a version that moved the revision. */
  lemma LaterLabelLaterReads(hist: seq<Store>, c: nat, i: nat, j: nat)
    requires HistOk(hist) && 0 < c <= j < |hist| && i < |hist|
    requires hist[c - 1].revision != hist[c].revision && hist[i].revision == hist[j].revision
    ensures c <= i
  {
    assert Covered(hist[c - 1], hist[c]);
    RevisionsGrow(hist, c, j);
    if i < c { RevisionsGrow(hist, i, c - 1); }
  }

  // --- transparency -----------------------------------------------------------

  /** A document labelled with the current revision is a build of the current tables: whatever it
      was put together from has not changed since. Torn documents never carry that label. */
  lemma CurrentLabelIsCurrentBuild(rules: Rules, hist: seq<Store>, channel: string, platform: string, a: Answer)
    requires HistOk(hist) && Traced(rules, hist, channel, platform, a)
    requires a.snapshot.revision == hist[|hist| - 1].revision
    ensures var last := hist[|hist| - 1];
      IsBuild(rules, a.origin.signer, FaceOf(last), Ask(channel, rules.platform(platform).value, a.origin.ids),
              platform, last.revision, a.snapshot)
  {
    NothingMoved(hist, a.origin.revAt, a.origin.rowsAt);
    TextsAreCurrent(hist, a.origin);
    TracedIsBuild(rules, hist, channel, platform, a, FaceOf(hist[|hist| - 1]));
  }

  lemma TracedIsBuild(rules: Rules, hist: seq<Store>, channel: string, platform: string, a: Answer, f: Face)
    requires Traced(rules, hist, channel, platform, a) && FaceOf(hist[a.origin.rowsAt]) == f
    requires forall x :: x in a.origin.textsAt ==> TextsOf(GatherAt(hist, a.origin.textsAt), x) == TextsOf(f.texts, x)
    ensures IsBuild(rules, a.origin.signer, f, Ask(channel, rules.platform(platform).value, a.origin.ids),
                    platform, a.snapshot.revision, a.snapshot)
  {
    var o := a.origin;
    BuiltFromParts(rules, o.signer, f, Ask(channel, rules.platform(platform).value, o.ids), platform, a.snapshot.revision,
                   o.pick, o.newest, GatherAt(hist, o.textsAt), a.snapshot);
  }

  lemma TextsAreCurrent(hist: seq<Store>, o: Origin)
    requires HistOk(hist) && o.revAt < |hist| && hist[o.revAt].revision == hist[|hist| - 1].revision
    requires forall x :: x in o.textsAt ==> o.revAt <= o.textsAt[x] < |hist|
    ensures forall x :: x in o.textsAt ==> TextsOf(GatherAt(hist, o.textsAt), x) == TextsOf(FaceOf(hist[|hist| - 1]).texts, x)
  {
    forall x | x in o.textsAt
      ensures TextsOf(GatherAt(hist, o.textsAt), x) == TextsOf(FaceOf(hist[|hist| - 1]).texts, x)
    {
      NothingMoved(hist, o.revAt, o.textsAt[x]);
    }
  }

  /** Translations gathered elsewhere make the same document if they are the same for every app. */
  lemma BuiltFromParts(rules: Rules, signer: Signer, f: Face, ask: Ask, platform: string, revision: nat, pick: map<string, string>,
                       newest: Time, texts: map<string, map<string, Text>>, snapshot: Snapshot)
    requires IsPick(rules, f, ask, pick) && IsStamp(rules, f, ask, newest) && Covers(f, pick)
    requires forall a :: a in pick ==> TextsOf(texts, a) == TextsOf(f.texts, a)
    requires Passes(rules, EntriesOf(f, pick, texts), platform)
    requires snapshot == Assemble(rules, signer, f, pick, texts, newest, revision)
    ensures IsBuild(rules, signer, f, ask, platform, revision, snapshot)
  {
    SameTexts(f, pick, texts, f.texts);
    assert Builds(rules, signer, f, ask, platform, revision, pick, newest, snapshot);
  }

  /** If version i already had the latest revision, any later version shows what the latest does. */
  lemma NothingMoved(hist: seq<Store>, i: nat, j: nat)
    requires HistOk(hist) && i <= j < |hist| && hist[i].revision == hist[|hist| - 1].revision
    ensures FaceOf(hist[j]) == FaceOf(hist[|hist| - 1])
  {
    RevisionsGrow(hist, i, j);
    RevisionsGrow(hist, j, |hist| - 1);
    SteadyFace(hist, j, |hist| - 1);
  }

  lemma SameTexts(f: Face, pick: map<string, string>, texts: map<string, map<string, Text>>, texts': map<string, map<string, Text>>)
    requires Covers(f, pick) && forall a :: a in pick ==> TextsOf(texts, a) == TextsOf(texts', a)
    ensures EntriesOf(f, pick, texts) == EntriesOf(f, pick, texts')
  {
  }

  /** Public cache transparency: in every reachable state each public row at the current revision
      is a build of the current tables, signed with the current key unless the key has changed
      since the cache was last discarded. */
  lemma PublicCacheIsTransparent(rules: Rules, states: seq<System>, steps: seq<Step>, i: nat, k: (string, string))
    requires IsRun(rules, states, steps) && i < |states|
    requires k in states[i].publicRows && states[i].publicRows[k].answer.snapshot.revision == Now(states[i]).revision
    ensures rules.platform(k.1).Some?
    ensures !states[i].rotated ==>
      IsBuild(rules, states[i].signer, FaceOf(Now(states[i])), Ask(k.0, rules.platform(k.1).value, {}), k.1,
              Now(states[i]).revision, states[i].publicRows[k].answer.snapshot)
  {
    InvOverRuns(rules, states, steps, i);
    CurrentLabelIsCurrentBuild(rules, states[i].hist, k.0, k.1, states[i].publicRows[k].answer);
  }

  /** Serving is transparent: an anonymous request during which the revision stood still is
      answered with a build of the tables as they are, from the cache or not. */
  lemma QuietRequestsGetTheBuild(rules: Rules, states: seq<System>, steps: seq<Step>, i: nat, id: nat)
    requires IsRun(rules, states, steps) && i < |steps|
    requires id in states[i].requests && !states[i].requests[id].stage.Answered?
    requires id in states[i + 1].requests && states[i + 1].requests[id].stage.Answered?
    requires states[i + 1].requests[id].stage.audience.Anonymous() && !states[i].rotated
    requires states[i].requests[id].start < |states[i].hist|
    requires states[i].hist[states[i].requests[id].start].revision == Now(states[i]).revision
    ensures var (s, r) := (states[i], states[i].requests[id]);
      && rules.platform(r.platform).Some?
      && IsBuild(rules, s.signer, FaceOf(Now(s)), Ask(r.channel, rules.platform(r.platform).value, {}), r.platform,
                 Now(s).revision, states[i + 1].requests[id].stage.answer.snapshot)
  {
    KeysAreOk(rules, states, steps, i);
    AnswersAreTraced(rules, states, steps, i + 1, id);
    QuietStep(rules, states[i], steps[i], states[i + 1], id);
  }

  lemma QuietStep(rules: Rules, s: System, step: Step, t: System, id: nat)
    requires |s.hist| > 0 && Next(rules, s, step, t) && KeysOk(s) && !s.rotated
    requires id in s.requests && !s.requests[id].stage.Answered? && id in t.requests && t.requests[id].stage.Answered?
    requires t.requests[id].stage.audience.Anonymous() && t.requests[id].stage.answer.origin.ids == {}
    requires s.requests[id].start < |s.hist| && s.hist[s.requests[id].start].revision == Now(s).revision
    requires HistOk(t.hist) && Traced(rules, t.hist, t.requests[id].channel, t.requests[id].platform, t.requests[id].stage.answer)
    requires t.requests[id].start <= t.requests[id].stage.seenAt < |t.hist|
    requires t.requests[id].stage.answer.snapshot.revision == t.hist[t.requests[id].stage.seenAt].revision
    ensures var r := s.requests[id];
      && rules.platform(r.platform).Some?
      && IsBuild(rules, s.signer, FaceOf(Now(s)), Ask(r.channel, rules.platform(r.platform).value, {}), r.platform,
                 Now(s).revision, t.requests[id].stage.answer.snapshot)
  {
    AnsweringStep(rules, s, step, t, id);
    QuietAnswer(rules, s.hist, t.requests[id]);
  }

  lemma QuietAnswer(rules: Rules, hist: seq<Store>, r: Request)
    requires HistOk(hist) && r.stage.Answered? && Traced(rules, hist, r.channel, r.platform, r.stage.answer)
    requires r.start <= r.stage.seenAt < |hist| && r.stage.answer.snapshot.revision == hist[r.stage.seenAt].revision
    requires hist[r.start].revision == hist[|hist| - 1].revision
    ensures var (last, a) := (hist[|hist| - 1], r.stage.answer);
      IsBuild(rules, a.origin.signer, FaceOf(last), Ask(r.channel, rules.platform(r.platform).value, a.origin.ids), r.platform,
              last.revision, a.snapshot)
  {
    QuietLabel(hist, r.start, r.stage.seenAt);
    CurrentLabelIsCurrentBuild(rules, hist, r.channel, r.platform, r.stage.answer);
  }

  /** With no twins among the published releases that is byte equality: the answer is the very
      document a fresh build would make now. */
  lemma QuietRequestsGetTheBytes(rules: Rules, states: seq<System>, steps: seq<Step>, i: nat, id: nat, rebuilt: Snapshot)
    requires IsRun(rules, states, steps) && i < |steps|
    requires id in states[i].requests && !states[i].requests[id].stage.Answered?
    requires id in states[i + 1].requests && states[i + 1].requests[id].stage.Answered?
    requires states[i + 1].requests[id].stage.audience.Anonymous() && !states[i].rotated
    requires states[i].requests[id].start < |states[i].hist|
    requires states[i].hist[states[i].requests[id].start].revision == Now(states[i]).revision
    requires NoTwins(FaceOf(Now(states[i]))) && rules.platform(states[i].requests[id].platform).Some?
    requires var (s, r) := (states[i], states[i].requests[id]);
      IsBuild(rules, s.signer, FaceOf(Now(s)), Ask(r.channel, rules.platform(r.platform).value, {}), r.platform, Now(s).revision, rebuilt)
    ensures states[i + 1].requests[id].stage.answer.snapshot == rebuilt
  {
    QuietRequestsGetTheBuild(rules, states, steps, i, id);
    var s, r := states[i], states[i].requests[id];
    UniqueBuild(rules, s.signer, FaceOf(Now(s)), Ask(r.channel, rules.platform(r.platform).value, {}), r.platform, Now(s).revision,
                states[i + 1].requests[id].stage.answer.snapshot, rebuilt);
  }

  lemma QuietLabel(hist: seq<Store>, i: nat, j: nat)
    requires HistOk(hist) && i <= j < |hist| && hist[i].revision == hist[|hist| - 1].revision
    ensures hist[j].revision == hist[|hist| - 1].revision
  {
    RevisionsGrow(hist, i, j);
    RevisionsGrow(hist, j, |hist| - 1);
  }

  /** The steps that answer a request read no more of the tables, and answer with the key in use. */
  lemma AnsweringStep(rules: Rules, s: System, step: Step, t: System, id: nat)
    requires |s.hist| > 0 && Next(rules, s, step, t) && KeysOk(s) && !s.rotated
    requires id in s.requests && !s.requests[id].stage.Answered?
    requires id in t.requests && t.requests[id].stage.Answered? && t.requests[id].stage.audience.Anonymous()
    ensures t.hist == s.hist && t.requests[id] == s.requests[id].(stage := t.requests[id].stage)
    ensures t.requests[id].stage.answer.origin.signer == s.signer
  {
    match step
    case Advance(q, next) => if q == id { AnsweringMove(rules, s, s.requests[id], next); }
    case Save(q, stored, now) => AnsweringSave(s, q, stored, now, t, id);
    case Prune(q, done) => AnsweringPrune(s, q, done, t, id);
    case _ =>
  }

  lemma AnsweringSave(s: System, q: nat, stored: bool, now: Time, t: System, id: nat)
    requires SaveStep(s, q, stored, now, t)
    requires id in s.requests && !s.requests[id].stage.Answered?
    requires id in t.requests && t.requests[id].stage.Answered?
    ensures t.hist == s.hist && !t.requests[id].stage.audience.Anonymous()
    ensures t.requests[id] == s.requests[id].(stage := t.requests[id].stage)
  {
  }

  lemma AnsweringPrune(s: System, q: nat, done: bool, t: System, id: nat)
    requires PruneStep(s, q, done, t) && OwnKey(s.signer, s.requests[q].stage)
    requires id in s.requests && !s.requests[id].stage.Answered?
    requires id in t.requests && t.requests[id].stage.Answered?
    ensures t.hist == s.hist && t.requests[id] == s.requests[id].(stage := t.requests[id].stage)
    ensures t.requests[id].stage.answer.origin.signer == s.signer
  {
  }

  lemma AnsweringMove(rules: Rules, s: System, r: Request, next: Stage)
    requires |s.hist| > 0 && Moves(rules, s, r, next) && KeysOk(s) && !s.rotated
    requires next.Answered? && next.audience.Anonymous()
    ensures next.answer.origin.signer == s.signer
  {
  }

  // --- the private cache ------------------------------------------------------

  /** The audience a request in flight is working for, once it is known. */
  function WorkingFor(r: Request): Option<Audience>
  {
    match r.stage
    case Resolved(audience) => Some(audience)
    case Stamped(job) => Some(job.audience)
    case Missed(job) => Some(job.audience)
    case Gathering(job, _, _, _, _) => Some(job.audience)
    case Built(job, _) => Some(job.audience)
    case Saved(job, _) => Some(job.audience)
    case _ => None
  }

  predicate ChangesGrants(op: Op) { op.OpGrant? || op.OpRevoke? }

  /** The platform whose grants the step changes. */
  function Touched(step: Step): set<string>
  {
    match step
    case Commit(op) => if ChangesGrants(op) then {op.platformId} else {}
    case Paired(op, _) => if ChangesGrants(op) then {op.platformId} else {}
    case _ => {}
  }

  /** The platforms with a change whose discard is still to come. */
  function PendingAfter(pending: set<string>, step: Step): set<string>
  {
    match step
    case Paired(_, id) => pending + Touched(step) - {id}
    case DiscardPrivate(id) => if id == "" then {} else pending - {id}
    case _ => pending + Touched(step)
  }

  function Pending(steps: seq<Step>, i: nat): set<string>
    requires i <= |steps|
  {
    if i == 0 then {} else PendingAfter(Pending(steps, i - 1), steps[i - 1])
  }

  /** The operator's discipline: a platform's change may commit at any moment and its discard any time
      later, but when the discard comes, no request of that platform is at work. */
  ghost predicate Coordinated(s: System, step: Step, pending: set<string>)
  {
    var settled := pending + Touched(step) - PendingAfter(pending, step);
    forall q :: q in s.requests && WorkingFor(s.requests[q]).Some? ==> WorkingFor(s.requests[q]).value.platformId !in settled
  }

  ghost predicate CoordinatedUpTo(states: seq<System>, steps: seq<Step>, i: nat)
    requires i <= |steps| && |states| == |steps| + 1
  {
    forall j :: 0 <= j < i ==> Coordinated(states[j], steps[j], Pending(steps, j))
  }

  /** Every private row, and every request at work, goes by the grants as they are now, except those
      of platforms whose discard is still to come. */
  ghost predicate Coherent(s: System, pending: set<string>)
    requires |s.hist| > 0
  {
    && (forall k :: k in s.privateRows ==> k.0 != "" && (k.0 in pending || s.privateRows[k].answer.origin.ids == GrantsOf(Now(s), k.0)))
    && (forall q :: q in s.requests ==> WorksByGrants(Now(s), s.requests[q], pending))
  }

  lemma OtherGrantsStay(rules: Rules, s: Store, op: Op, id: string)
    requires ChangesGrants(op) ==> op.platformId != id
    ensures GrantsOf(After(rules, s, op), id) == GrantsOf(s, id)
  {
  }

  ghost predicate WorksByGrants(store: Store, r: Request, pending: set<string>)
  {
    WorkingFor(r).Some? && !WorkingFor(r).value.Anonymous() && WorkingFor(r).value.platformId !in pending ==>
      WorkingFor(r).value.appIds == GrantsOf(store, WorkingFor(r).value.platformId)
  }

  lemma MoveCoheres(rules: Rules, s: System, r: Request, next: Stage, pending: set<string>)
    requires |s.hist| > 0 && Moves(rules, s, r, next) && WorksByGrants(Now(s), r, pending)
    ensures WorksByGrants(Now(s), r.(stage := next), pending)
  {
  }

  lemma AdvanceCoheres(rules: Rules, s: System, id: nat, next: Stage, t: System, pending: set<string>)
    requires |s.hist| > 0 && AdvanceStep(rules, s, id, next, t) && Coherent(s, pending)
    ensures Coherent(t, pending)
  {
    MoveCoheres(rules, s, s.requests[id], next, pending);
    OneRequestCoheres(s, id, t, pending);
  }

  /** Coherence after one request moved on and possibly left a row that goes by the grants. */
  lemma OneRequestCoheres(s: System, id: nat, t: System, pending: set<string>)
    requires |s.hist| > 0 && t.hist == s.hist && Coherent(s, pending)
    requires id in t.requests && t.requests == s.requests[id := t.requests[id]] && WorksByGrants(Now(s), t.requests[id], pending)
    requires forall k :: k in t.privateRows ==>
               || (k in s.privateRows && t.privateRows[k] == s.privateRows[k])
               || (k.0 != "" && (k.0 in pending || t.privateRows[k].answer.origin.ids == GrantsOf(Now(s), k.0)))
    ensures Coherent(t, pending)
  {
  }

  lemma SaveCoheres(s: System, id: nat, stored: bool, now: Time, t: System, pending: set<string>)
    requires |s.hist| > 0 && SaveStep(s, id, stored, now, t) && Coherent(s, pending) && OwnKey(s.signer, s.requests[id].stage)
    ensures Coherent(t, pending)
  {
    assert WorksByGrants(Now(s), s.requests[id], pending);
    OneRequestCoheres(s, id, t, pending);
  }

  lemma CommitCoheres(rules: Rules, s: System, op: Op, t: System, pending: set<string>)
    requires |s.hist| > 0 && CommitStep(rules, s, op, t) && Coherent(s, pending)
    ensures |t.hist| > 0 && Coherent(t, PendingAfter(pending, Commit(op)))
  {
    assert Now(t) == After(rules, Now(s), op);
    var more := PendingAfter(pending, Commit(op));
    forall p | p !in more ensures GrantsOf(Now(t), p) == GrantsOf(Now(s), p) { OtherGrantsStay(rules, Now(s), op, p); }
    CoherentGrants(s, t, pending, more);
  }

  lemma PairedCoheres(rules: Rules, s: System, op: Op, id: string, t: System, pending: set<string>)
    requires |s.hist| > 0 && PairedStep(rules, s, op, id, t) && Coherent(s, pending) && Coordinated(s, Paired(op, id), pending)
    ensures |t.hist| > 0 && Coherent(t, PendingAfter(pending, Paired(op, id)))
  {
    assert Now(t) == After(rules, Now(s), op);
    var touched := pending + Touched(Paired(op, id));
    forall p | p !in touched ensures GrantsOf(Now(t), p) == GrantsOf(Now(s), p) { OtherGrantsStay(rules, Now(s), op, p); }
    CoherentGrants(s, t, pending, touched);
    SettlingCoheres(t, touched, touched - {id});
  }

  /** Coherence survives when the grants stay of all platforms without a discard to come. */
  lemma CoherentGrants(s: System, t: System, pending: set<string>, more: set<string>)
    requires |s.hist| > 0 && |t.hist| > 0 && Coherent(s, pending) && t.requests == s.requests && pending <= more
    requires forall p :: p !in more ==> GrantsOf(Now(t), p) == GrantsOf(Now(s), p)
    requires forall k :: k in t.privateRows ==> k in s.privateRows && t.privateRows[k] == s.privateRows[k]
    ensures Coherent(t, more)
  {
  }

  /** A platform with no row and no request at work has nothing left to come. */
  lemma SettlingCoheres(s: System, pending: set<string>, left: set<string>)
    requires |s.hist| > 0 && Coherent(s, pending)
    requires forall k :: k in s.privateRows ==> k.0 !in pending - left
    requires forall q :: q in s.requests && WorkingFor(s.requests[q]).Some? ==> WorkingFor(s.requests[q]).value.platformId !in pending - left
    ensures Coherent(s, left)
  {
  }

  lemma ImportCoheres(s: System, after: Store, t: System, pending: set<string>)
    requires |s.hist| > 0 && ImportStep(s, after, t) && Coherent(s, pending)
    ensures |t.hist| > 0 && Coherent(t, pending)
  {
    CoherentGrants(s, t, pending, pending);
  }

  lemma PruneCoheres(s: System, id: nat, done: bool, t: System, pending: set<string>)
    requires |s.hist| > 0 && PruneStep(s, id, done, t) && Coherent(s, pending)
    ensures Coherent(t, pending)
  {
  }

  lemma ArriveCoheres(rules: Rules, s: System, id: nat, channel: string, platform: string, token: string, t: System, pending: set<string>)
    requires |s.hist| > 0 && ArriveStep(rules, s, id, channel, platform, token, t) && Coherent(s, pending)
    ensures Coherent(t, pending)
  {
  }

  lemma DiscardPublicCoheres(s: System, t: System, pending: set<string>)
    requires |s.hist| > 0 && t == s.(publicRows := map[], unpruned := map[], rotated := false) && Coherent(s, pending)
    ensures |t.hist| > 0 && Coherent(t, pending)
  {
  }

  lemma DiscardPrivateCoheres(s: System, id: string, t: System, pending: set<string>)
    requires |s.hist| > 0 && DiscardPrivateStep(s, id, t) && Coherent(s, pending) && Coordinated(s, DiscardPrivate(id), pending)
    ensures |t.hist| > 0 && Coherent(t, PendingAfter(pending, DiscardPrivate(id)))
  {
    DroppingCoheres(s, t, pending);
    SettlingCoheres(t, pending, PendingAfter(pending, DiscardPrivate(id)));
  }

  lemma RestartCoheres(s: System, signer: Signer, t: System, pending: set<string>)
    requires |s.hist| > 0 && t == s.(signer := signer, requests := map[], rotated := true, rotatedPrivate := true) && Coherent(s, pending)
    ensures |t.hist| > 0 && Coherent(t, pending)
  {
  }

  lemma DroppingCoheres(s: System, t: System, pending: set<string>)
    requires |s.hist| > 0 && t.hist == s.hist && Coherent(s, pending) && (t.requests == s.requests || t.requests == map[])
    requires forall k :: k in t.privateRows ==> k in s.privateRows && t.privateRows[k] == s.privateRows[k]
    ensures Coherent(t, pending)
  {
  }

  lemma NextKeepsCoherence(rules: Rules, s: System, step: Step, t: System, pending: set<string>)
    requires |s.hist| > 0 && Next(rules, s, step, t) && Coordinated(s, step, pending) && Coherent(s, pending) && KeysOk(s)
    ensures |t.hist| > 0 && Coherent(t, PendingAfter(pending, step))
  {
    assert !step.Commit? && !step.Paired? && !step.DiscardPrivate? ==> PendingAfter(pending, step) == pending;
    match step
    case Advance(id, next) => AdvanceCoheres(rules, s, id, next, t, pending);
    case Save(id, stored, now) =>
      assert OwnKey(s.signer, s.requests[id].stage);
      SaveCoheres(s, id, stored, now, t, pending);
    case Commit(op) => CommitCoheres(rules, s, op, t, pending);
    case Paired(op, id) => PairedCoheres(rules, s, op, id, t, pending);
    case CommitImport(after) => ImportCoheres(s, after, t, pending);
    case Prune(id, done) => PruneCoheres(s, id, done, t, pending);
    case Arrive(id, channel, platform, token) => ArriveCoheres(rules, s, id, channel, platform, token, t, pending);
    case DiscardPublic => DiscardPublicCoheres(s, t, pending);
    case DiscardPrivate(id) => DiscardPrivateCoheres(s, id, t, pending);
    case Restart(signer) => RestartCoheres(s, signer, t, pending);
  }

  lemma {:induction false} CoherenceOverRuns(rules: Rules, states: seq<System>, steps: seq<Step>, i: nat)
    requires IsRun(rules, states, steps) && i < |states| && CoordinatedUpTo(states, steps, i)
    ensures Coherent(states[i], Pending(steps, i))
    decreases i
  {
    if i > 0 {
      CoherenceOverRuns(rules, states, steps, i - 1);
      KeysAreOk(rules, states, steps, i - 1);
      NextKeepsCoherence(rules, states[i - 1], steps[i - 1], states[i], Pending(steps, i - 1));
    }
  }

  lemma PrivateRowsAreTraced(rules: Rules, states: seq<System>, steps: seq<Step>, i: nat, k: (string, string, string))
    requires IsRun(rules, states, steps) && i < |states| && k in states[i].privateRows
    ensures HistOk(states[i].hist) && PrivateRowOk(rules, states[i], k, states[i].privateRows[k].answer)
  {
    InvOverRuns(rules, states, steps, i);
  }

  /** Private cache coherence: over every coordinated run each private row at the current revision
      is a build of the current tables for the platform's current grants, although grants are
      not part of the cache key and move no revision; all that is left out is a platform with a
      change whose discard is still to come. */
  lemma PrivateCacheIsCoherent(rules: Rules, states: seq<System>, steps: seq<Step>, i: nat, k: (string, string, string))
    requires IsRun(rules, states, steps) && i < |states|
    requires CoordinatedUpTo(states, steps, i) && k.0 !in Pending(steps, i)
    requires k in states[i].privateRows && states[i].privateRows[k].answer.snapshot.revision == Now(states[i]).revision
    ensures rules.platform(k.2).Some?
    ensures !states[i].rotatedPrivate ==>
      IsBuild(rules, states[i].signer, FaceOf(Now(states[i])), Ask(k.1, rules.platform(k.2).value, GrantsOf(Now(states[i]), k.0)), k.2,
              Now(states[i]).revision, states[i].privateRows[k].answer.snapshot)
  {
    CoherenceOverRuns(rules, states, steps, i);
    PrivateRowsAreTraced(rules, states, steps, i, k);
    CurrentLabelIsCurrentBuild(rules, states[i].hist, k.1, k.2, states[i].privateRows[k].answer);
  }

  /** Coordination or not, a private row at the current revision is a build of the current tables
      for the grants its builder resolved: whatever it shows, that platform was granted once. */
  lemma PrivateRowsAreBuilds(rules: Rules, states: seq<System>, steps: seq<Step>, i: nat, k: (string, string, string))
    requires IsRun(rules, states, steps) && i < |states|
    requires k in states[i].privateRows && states[i].privateRows[k].answer.snapshot.revision == Now(states[i]).revision
    ensures rules.platform(k.2).Some?
    ensures var a := states[i].privateRows[k].answer;
      IsBuild(rules, a.origin.signer, FaceOf(Now(states[i])), Ask(k.1, rules.platform(k.2).value, a.origin.ids), k.2,
              Now(states[i]).revision, a.snapshot)
  {
    PrivateRowsAreTraced(rules, states, steps, i, k);
    CurrentLabelIsCurrentBuild(rules, states[i].hist, k.1, k.2, states[i].privateRows[k].answer);
  }

  /** What a request stored is what the next one of its audience, channel and platform finds. */
  lemma StoredIsFound(s: System, id: nat, now: Time, t: System, r: Request)
    requires SaveStep(s, id, true, now, t)
    requires r.channel == s.requests[id].channel && r.platform == s.requests[id].platform
    ensures var stage := s.requests[id].stage; CacheOf(t, r, stage.job.audience) == Some(stage.answer)
    ensures forall other: Audience :: other.platformId != s.requests[id].stage.job.audience.platformId ==> CacheOf(t, r, other) == CacheOf(s, r, other)
  {
  }

  /** A request arrives exactly as the endpoint lets it in, with its defaults filled in. */
  lemma ArrivalsAreLetIn(rules: Rules, s: System, id: nat, channel: string, platform: string, token: string)
    requires |s.hist| > 0 && id !in s.requests
    ensures (exists t :: ArriveStep(rules, s, id, channel, platform, token, t)) <==>
              (channel == "" || channel == "stable" || channel == "beta") && (platform == "" || rules.platform(platform).Some?)
    ensures forall t :: ArriveStep(rules, s, id, channel, platform, token, t) ==>
              t.requests[id] == Request(if channel == "" then "stable" else channel, if platform == "" then "1.0.0" else platform,
                                        token, |s.hist| - 1, Arrived)
  {
    var r := Request(ChannelOf(channel), PlatformOf(platform), token, |s.hist| - 1, Arrived);
    if WellFormed(rules, channel, platform) {
      assert ArriveStep(rules, s, id, channel, platform, token, s.(requests := s.requests[id := r]));
    }
  }

  // --- the bound --------------------------------------------------------------

  ghost predicate Bounded(s: System)
  {
    forall c :: |OfChannel(s.publicRows, c)| <= 64 + Count(s.unpruned, c)
  }

  lemma RowsAfterSave(before: map<(string, string), Row<Answer>>, k: (string, string), row: Row<Answer>, c: string)
    ensures |OfChannel(before[k := row], c)| <= |OfChannel(before, c)| + if k.0 == c then 1 else 0
  {
    if k.0 == c {
      assert OfChannel(before[k := row], c) == OfChannel(before, c) + {k};
    } else {
      assert OfChannel(before[k := row], c) == OfChannel(before, c);
    }
  }

  lemma SaveBounded(s: System, id: nat, stored: bool, now: Time, t: System)
    requires SaveStep(s, id, stored, now, t) && Bounded(s)
    ensures Bounded(t)
  {
    var r := s.requests[id];
    if r.stage.job.audience.Anonymous() && stored {
      forall c ensures |OfChannel(t.publicRows, c)| <= 64 + Count(t.unpruned, c) {
        RowsAfterSave(s.publicRows, (r.channel, r.platform), Row(r.stage.answer, now), c);
      }
    }
  }

  lemma PruneBounded(s: System, id: nat, done: bool, t: System)
    requires PruneStep(s, id, done, t) && Bounded(s)
    ensures Bounded(t)
  {
    forall c ensures |OfChannel(t.publicRows, c)| <= 64 + Count(t.unpruned, c) {
      if done && c != s.requests[id].channel {
        assert OfChannel(t.publicRows, c) == OfChannel(s.publicRows, c);
      }
    }
  }

  lemma OthersStoreNothing(rules: Rules, s: System, step: Step, t: System)
    requires |s.hist| > 0 && Next(rules, s, step, t) && !step.Save? && !step.Prune?
    ensures (t.publicRows == s.publicRows && t.unpruned == s.unpruned) || t.publicRows == map[]
  {
  }

  lemma NextKeepsBound(rules: Rules, s: System, step: Step, t: System)
    requires |s.hist| > 0 && Next(rules, s, step, t) && Bounded(s)
    ensures Bounded(t)
  {
    match step
    case Save(id, stored, now) => SaveBounded(s, id, stored, now, t);
    case Prune(id, done) => PruneBounded(s, id, done, t);
    case _ =>
      OthersStoreNothing(rules, s, step, t);
      if t.publicRows == map[] { assert forall c :: OfChannel(t.publicRows, c) == {}; }
  }

  /** Cache bound: at any moment of any run a channel holds at most 64 rows, plus one for each
      row stored since its last prune. */
  lemma {:induction false} CacheIsBounded(rules: Rules, states: seq<System>, steps: seq<Step>, i: nat)
    requires IsRun(rules, states, steps) && i < |states|
    ensures Bounded(states[i])
    decreases i
  {
    if i == 0 {
      assert forall c :: OfChannel(states[0].publicRows, c) == {};
    } else {
      CacheIsBounded(rules, states, steps, i - 1);
      NextKeepsBound(rules, states[i - 1], steps[i - 1], states[i]);
    }
  }
}

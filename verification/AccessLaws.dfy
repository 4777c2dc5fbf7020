/** What grants and revocations do to answers and to stored documents, with and without overlap. */
module AccessLaws {
  import opened Basics
  import opened Semver
  import opened Tables
  import opened Wire
  import opened Audiences
  import opened Review
  import opened Catalogue
  import opened CatalogueLaws
  import opened Caching
  import opened Protocol
  import opened ProtocolLaws

  // --- answers in coordinated runs --------------------------------------------

  /** What the step that answers a platform's request hands out. */
  ghost predicate HandsOut(s: System, t: System, id: nat)
    requires |s.hist| > 0 && id in s.requests && id in t.requests && t.requests[id].stage.Answered?
  {
    var stage := t.requests[id].stage;
    && t.hist == s.hist && t.requests[id] == s.requests[id].(stage := stage)
    && stage.answer.origin.ids == GrantsOf(Now(s), stage.audience.platformId)
    && (!s.rotatedPrivate ==> stage.answer.origin.signer == s.signer)
  }

  ghost predicate PrivateKeysOk(s: System)
  {
    forall k :: k in s.privateRows && !s.rotatedPrivate ==> s.privateRows[k].answer.origin.signer == s.signer
  }

  lemma AnsweringHandsOut(rules: Rules, s: System, step: Step, t: System, id: nat, pending: set<string>)
    requires |s.hist| > 0 && Next(rules, s, step, t) && Coherent(s, pending) && KeysOk(s) && PrivateKeysOk(s)
    requires id in s.requests && !s.requests[id].stage.Answered?
    requires id in t.requests && t.requests[id].stage.Answered? && !t.requests[id].stage.audience.Anonymous()
    requires t.requests[id].stage.audience.platformId !in pending
    ensures HandsOut(s, t, id)
  {
    AnsweringSteps(rules, s, step, t, id);
    match step
    case Advance(q, next) => AdvanceHandsOut(rules, s, q, next, t, id, pending);
    case Save(q, stored, now) =>
      assert WorksByGrants(Now(s), s.requests[id], pending) && OwnKey(s.signer, s.requests[id].stage);
      SaveHandsOut(s, q, stored, now, t, id, pending);
    case Prune(q, done) =>
      assert WorksByGrants(Now(s), s.requests[id], pending) && OwnKey(s.signer, s.requests[id].stage);
      PruneHandsOut(s, q, done, t, id, pending);
  }

  /** Only these steps answer a request. */
  lemma AnsweringSteps(rules: Rules, s: System, step: Step, t: System, id: nat)
    requires |s.hist| > 0 && Next(rules, s, step, t)
    requires id in s.requests && !s.requests[id].stage.Answered?
    requires id in t.requests && t.requests[id].stage.Answered?
    ensures step.Advance? || step.Save? || step.Prune?
  {
  }

  lemma AdvanceHandsOut(rules: Rules, s: System, q: nat, next: Stage, t: System, id: nat, pending: set<string>)
    requires |s.hist| > 0 && AdvanceStep(rules, s, q, next, t) && Coherent(s, pending) && PrivateKeysOk(s)
    requires id in s.requests && !s.requests[id].stage.Answered?
    requires id in t.requests && t.requests[id].stage.Answered? && !t.requests[id].stage.audience.Anonymous()
    requires t.requests[id].stage.audience.platformId !in pending
    ensures HandsOut(s, t, id)
  {
    assert q == id;
    MoveHandsOut(rules, s, s.requests[id], next, pending);
  }

  lemma MoveHandsOut(rules: Rules, s: System, r: Request, next: Stage, pending: set<string>)
    requires |s.hist| > 0 && Moves(rules, s, r, next) && Coherent(s, pending) && PrivateKeysOk(s)
    requires next.Answered? && !next.audience.Anonymous() && next.audience.platformId !in pending
    ensures next.answer.origin.ids == GrantsOf(Now(s), next.audience.platformId)
    ensures !s.rotatedPrivate ==> next.answer.origin.signer == s.signer
  {
    assert r.stage.Stamped?;
    assert (next.audience.platformId, r.channel, r.platform) in s.privateRows;
  }

  lemma SaveHandsOut(s: System, q: nat, stored: bool, now: Time, t: System, id: nat, pending: set<string>)
    requires |s.hist| > 0 && SaveStep(s, q, stored, now, t)
    requires id in s.requests && !s.requests[id].stage.Answered? && id in t.requests && t.requests[id].stage.Answered?
    requires WorksByGrants(Now(s), s.requests[id], pending) && OwnKey(s.signer, s.requests[id].stage)
    requires t.requests[id].stage.audience.platformId !in pending
    ensures HandsOut(s, t, id)
  {
  }

  lemma PruneHandsOut(s: System, q: nat, done: bool, t: System, id: nat, pending: set<string>)
    requires |s.hist| > 0 && PruneStep(s, q, done, t)
    requires id in s.requests && !s.requests[id].stage.Answered? && id in t.requests && t.requests[id].stage.Answered?
    requires WorksByGrants(Now(s), s.requests[id], pending) && OwnKey(s.signer, s.requests[id].stage)
    requires !t.requests[id].stage.audience.Anonymous() && t.requests[id].stage.audience.platformId !in pending
    ensures HandsOut(s, t, id)
  {
  }

  lemma PrivateKeysAreOk(rules: Rules, states: seq<System>, steps: seq<Step>, i: nat)
    requires IsRun(rules, states, steps) && i < |states|
    ensures PrivateKeysOk(states[i])
  {
    forall k | k in states[i].privateRows && !states[i].rotatedPrivate
      ensures states[i].privateRows[k].answer.origin.signer == states[i].signer
    {
      PrivateRowsAreTraced(rules, states, steps, i, k);
    }
  }

  /** Whatever a platform is answered, in a coordinated run it goes by the grants of that moment, unless
      a change is waiting for its discard. */
  lemma AnswersGoByGrants(rules: Rules, states: seq<System>, steps: seq<Step>, i: nat, id: nat)
    requires IsRun(rules, states, steps) && i < |steps| && CoordinatedUpTo(states, steps, i)
    requires id in states[i].requests && !states[i].requests[id].stage.Answered?
    requires id in states[i + 1].requests && states[i + 1].requests[id].stage.Answered?
    requires !states[i + 1].requests[id].stage.audience.Anonymous()
    requires states[i + 1].requests[id].stage.audience.platformId !in Pending(steps, i)
    ensures HandsOut(states[i], states[i + 1], id)
  {
    CoherenceOverRuns(rules, states, steps, i);
    KeysAreOk(rules, states, steps, i);
    PrivateKeysAreOk(rules, states, steps, i);
    AnsweringHandsOut(rules, states[i], steps[i], states[i + 1], id, Pending(steps, i));
  }

  /** A revoked app is not served. In every coordinated run, whoever is answered, unless a change of
      theirs is waiting for its discard: the document was assembled from the selection its origin names,
      and that lists an app only if the app is public, or the platform holds a grant for it at the
      moment of the answer. */
  lemma RevokedAppsAreNotServed(rules: Rules, states: seq<System>, steps: seq<Step>, i: nat, id: nat, app: string)
    requires IsRun(rules, states, steps) && i < |steps| && CoordinatedUpTo(states, steps, i)
    requires id in states[i].requests && !states[i].requests[id].stage.Answered?
    requires id in states[i + 1].requests && states[i + 1].requests[id].stage.Answered?
    requires var audience := states[i + 1].requests[id].stage.audience; audience.Anonymous() || audience.platformId !in Pending(steps, i)
    ensures var (s, r) := (states[i + 1], states[i + 1].requests[id]);
            var o := r.stage.answer.origin;
      && Traced(rules, s.hist, r.channel, r.platform, r.stage.answer)
      && (app in o.pick ==>
            || PublicIn(FaceOf(s.hist[o.rowsAt]), app)
            || (!r.stage.audience.Anonymous() && app in GrantsOf(Now(s), r.stage.audience.platformId)))
  {
    AnswerAudience(rules, states, steps, i, id);
    ListedOpenly(rules, states[i + 1], states[i + 1].requests[id], app);
  }

  /** Whom the answer's document was built for. */
  ghost predicate BuiltFor(s: System, r: Request)
    requires |s.hist| > 0 && r.stage.Answered?
  {
    r.stage.answer.origin.ids == if r.stage.audience.Anonymous() then {} else GrantsOf(Now(s), r.stage.audience.platformId)
  }

  lemma AnswerAudience(rules: Rules, states: seq<System>, steps: seq<Step>, i: nat, id: nat)
    requires IsRun(rules, states, steps) && i < |steps| && CoordinatedUpTo(states, steps, i)
    requires id in states[i].requests && !states[i].requests[id].stage.Answered?
    requires id in states[i + 1].requests && states[i + 1].requests[id].stage.Answered?
    requires var audience := states[i + 1].requests[id].stage.audience; audience.Anonymous() || audience.platformId !in Pending(steps, i)
    ensures var (s, r) := (states[i + 1], states[i + 1].requests[id]);
            BuiltFor(s, r) && Traced(rules, s.hist, r.channel, r.platform, r.stage.answer)
  {
    AnswersAreTraced(rules, states, steps, i + 1, id);
    if !states[i + 1].requests[id].stage.audience.Anonymous() {
      AnswersGoByGrants(rules, states, steps, i, id);
      HandedOutFor(states[i], states[i + 1], id);
    }
  }

  lemma HandedOutFor(s: System, t: System, id: nat)
    requires |s.hist| > 0 && id in s.requests && id in t.requests && t.requests[id].stage.Answered? && HandsOut(s, t, id)
    requires !t.requests[id].stage.audience.Anonymous()
    ensures |t.hist| > 0 && BuiltFor(t, t.requests[id])
  {
  }

  lemma ListedOpenly(rules: Rules, s: System, r: Request, app: string)
    requires |s.hist| > 0 && r.stage.Answered? && BuiltFor(s, r) && Traced(rules, s.hist, r.channel, r.platform, r.stage.answer)
    ensures var o := r.stage.answer.origin;
            app in o.pick ==>
              || PublicIn(FaceOf(s.hist[o.rowsAt]), app)
              || (!r.stage.audience.Anonymous() && app in GrantsOf(Now(s), r.stage.audience.platformId))
  {
    if app in r.stage.answer.origin.pick { PickedIsOpen(rules, s.hist, r, app); }
  }

  lemma PickedIsOpen(rules: Rules, hist: seq<Store>, r: Request, app: string)
    requires r.stage.Answered? && Traced(rules, hist, r.channel, r.platform, r.stage.answer) && app in r.stage.answer.origin.pick
    ensures PublicIn(FaceOf(hist[r.stage.answer.origin.rowsAt]), app) || app in r.stage.answer.origin.ids
  {
    var o := r.stage.answer.origin;
    assert IsWinner(rules, FaceOf(hist[o.rowsAt]), Ask(r.channel, rules.platform(r.platform).value, o.ids), app, o.pick[app]);
  }

  /** A platform's request during which the revision stood still is answered, in a coordinated run,
      with a build of the tables as they are for its grants as they are. */
  lemma QuietPlatformsGetTheBuild(rules: Rules, states: seq<System>, steps: seq<Step>, i: nat, id: nat)
    requires IsRun(rules, states, steps) && i < |steps| && CoordinatedUpTo(states, steps, i)
    requires id in states[i].requests && !states[i].requests[id].stage.Answered?
    requires id in states[i + 1].requests && states[i + 1].requests[id].stage.Answered?
    requires !states[i + 1].requests[id].stage.audience.Anonymous() && !states[i].rotatedPrivate
    requires states[i + 1].requests[id].stage.audience.platformId !in Pending(steps, i)
    requires states[i].requests[id].start < |states[i].hist|
    requires states[i].hist[states[i].requests[id].start].revision == Now(states[i]).revision
    ensures var (s, r, stage) := (states[i], states[i].requests[id], states[i + 1].requests[id].stage);
      && rules.platform(r.platform).Some?
      && IsBuild(rules, s.signer, FaceOf(Now(s)),
                 Ask(r.channel, rules.platform(r.platform).value, GrantsOf(Now(s), stage.audience.platformId)), r.platform,
                 Now(s).revision, stage.answer.snapshot)
  {
    AnswersGoByGrants(rules, states, steps, i, id);
    AnswersAreTraced(rules, states, steps, i + 1, id);
    QuietHandOut(rules, states[i], states[i + 1], id);
  }

  lemma QuietHandOut(rules: Rules, s: System, t: System, id: nat)
    requires |s.hist| > 0 && id in s.requests && id in t.requests && t.requests[id].stage.Answered? && HandsOut(s, t, id)
    requires !s.rotatedPrivate && s.requests[id].start < |s.hist| && s.hist[s.requests[id].start].revision == Now(s).revision
    requires HistOk(t.hist) && Traced(rules, t.hist, t.requests[id].channel, t.requests[id].platform, t.requests[id].stage.answer)
    requires t.requests[id].start <= t.requests[id].stage.seenAt < |t.hist|
    requires t.requests[id].stage.answer.snapshot.revision == t.hist[t.requests[id].stage.seenAt].revision
    ensures var (r, stage) := (s.requests[id], t.requests[id].stage);
      && rules.platform(r.platform).Some?
      && IsBuild(rules, s.signer, FaceOf(Now(s)),
                 Ask(r.channel, rules.platform(r.platform).value, GrantsOf(Now(s), stage.audience.platformId)), r.platform,
                 Now(s).revision, stage.answer.snapshot)
  {
    QuietAnswer(rules, s.hist, t.requests[id]);
  }

  // --- stored documents in any run --------------------------------------------

  lemma CurrentRowsPickNow(rules: Rules, hist: seq<Store>, channel: string, platform: string, a: Answer)
    requires HistOk(hist) && Traced(rules, hist, channel, platform, a) && a.snapshot.revision == hist[|hist| - 1].revision
    ensures IsPick(rules, FaceOf(hist[|hist| - 1]), Ask(channel, rules.platform(platform).value, a.origin.ids), a.origin.pick)
  {
    NothingMoved(hist, a.origin.revAt, a.origin.rowsAt);
  }

  /** What a private row at the current revision is worth to its platform now. */
  ghost predicate RightForGrants(rules: Rules, s: System, k: (string, string, string), a: Answer)
    requires |s.hist| > 0 && rules.platform(k.2).Some?
  {
    IsPick(rules, FaceOf(Now(s)), Ask(k.1, rules.platform(k.2).value, GrantsOf(Now(s), k.0)), a.origin.pick)
  }

  /** In any run, coordinated or not, a private row at the current revision shows its platform what
      it should exactly when no app granted or revoked since its builder resolved the grants is
      private with a release to offer on that channel and platform. Then it is a build for the
      current grants; otherwise, if the encoder tells entry lists apart, no build for them has
      its bytes. */
  lemma PrivateRowsExactlyRight(rules: Rules, states: seq<System>, steps: seq<Step>, i: nat, k: (string, string, string))
    requires IsRun(rules, states, steps) && i < |states|
    requires k in states[i].privateRows && states[i].privateRows[k].answer.snapshot.revision == Now(states[i]).revision
    ensures rules.platform(k.2).Some?
    ensures var (s, a) := (states[i], states[i].privateRows[k].answer);
            var resolved := Ask(k.1, rules.platform(k.2).value, a.origin.ids);
            var (f, granted) := (FaceOf(Now(s)), GrantsOf(Now(s), k.0));
      && (RightForGrants(rules, s, k, a) <==> !ChangeShows(rules, f, resolved, granted))
      && (!ChangeShows(rules, f, resolved, granted) ==>
            IsBuild(rules, a.origin.signer, f, resolved.(ids := granted), k.2, Now(s).revision, a.snapshot))
      && (EncodesApart(rules) && ChangeShows(rules, f, resolved, granted) ==>
            forall signer :: !IsBuild(rules, signer, f, resolved.(ids := granted), k.2, Now(s).revision, a.snapshot))
  {
    PrivateRowsAreBuilds(rules, states, steps, i, k);
    PrivateRowsAreTraced(rules, states, steps, i, k);
    var s, a := states[i], states[i].privateRows[k].answer;
    CurrentRowsPickNow(rules, s.hist, k.1, k.2, a);
    var resolved := Ask(k.1, rules.platform(k.2).value, a.origin.ids);
    GrantChangesThatShow(rules, FaceOf(Now(s)), resolved, GrantsOf(Now(s), k.0), a.origin.pick);
    BuildsForOtherGrants(rules, a.origin.signer, FaceOf(Now(s)), resolved, GrantsOf(Now(s), k.0), k.2, Now(s).revision, a.snapshot);
  }

  // --- overlap at any stage ---------------------------------------------------

  /** From state i to state j the request is at work. */
  ghost predicate AtWork(states: seq<System>, i: nat, j: nat, id: nat)
    requires i <= j < |states|
  {
    forall m :: i <= m <= j ==> id in states[m].requests && WorkingFor(states[m].requests[id]).Some?
  }

  lemma StepKeepsAudience(rules: Rules, s: System, step: Step, t: System, id: nat)
    requires |s.hist| > 0 && Next(rules, s, step, t) && id in s.requests && id in t.requests
    requires WorkingFor(s.requests[id]).Some? && WorkingFor(t.requests[id]).Some?
    ensures WorkingFor(t.requests[id]) == WorkingFor(s.requests[id])
    ensures t.requests[id].channel == s.requests[id].channel && t.requests[id].platform == s.requests[id].platform
  {
    match step
    case Advance(q, next) => AdvanceKeepsAudience(rules, s, q, next, t, id);
    case Save(q, stored, now) => SaveKeepsAudience(s, q, stored, now, t, id);
    case Prune(q, done) =>
    case _ =>
  }

  lemma AdvanceKeepsAudience(rules: Rules, s: System, q: nat, next: Stage, t: System, id: nat)
    requires |s.hist| > 0 && AdvanceStep(rules, s, q, next, t) && id in s.requests
    requires WorkingFor(s.requests[id]).Some? && WorkingFor(t.requests[id]).Some?
    ensures WorkingFor(t.requests[id]) == WorkingFor(s.requests[id])
    ensures t.requests[id].channel == s.requests[id].channel && t.requests[id].platform == s.requests[id].platform
  {
  }

  lemma SaveKeepsAudience(s: System, q: nat, stored: bool, now: Time, t: System, id: nat)
    requires SaveStep(s, q, stored, now, t) && id in s.requests
    requires WorkingFor(s.requests[id]).Some? && WorkingFor(t.requests[id]).Some?
    ensures WorkingFor(t.requests[id]) == WorkingFor(s.requests[id])
    ensures t.requests[id].channel == s.requests[id].channel && t.requests[id].platform == s.requests[id].platform
  {
  }

  lemma {:induction false} WorkKeepsAudience(rules: Rules, states: seq<System>, steps: seq<Step>, i: nat, j: nat, id: nat)
    requires IsRun(rules, states, steps) && i <= j < |states| && AtWork(states, i, j, id)
    ensures WorkingFor(states[j].requests[id]) == WorkingFor(states[i].requests[id])
    decreases j - i
  {
    if i < j {
      WorkKeepsAudience(rules, states, steps, i, j - 1, id);
      StepKeepsAudience(rules, states[j - 1], steps[j - 1], states[j], id);
    }
  }

  lemma StoredRow(s: System, id: nat, now: Time, t: System)
    requires SaveStep(s, id, true, now, t) && OwnKey(s.signer, s.requests[id].stage)
    requires !s.requests[id].stage.job.audience.Anonymous()
    ensures var (r, audience) := (s.requests[id], s.requests[id].stage.job.audience);
            var k := (audience.platformId, r.channel, r.platform);
      && t.hist == s.hist && k in t.privateRows && t.privateRows[k].answer == r.stage.answer
      && t.privateRows[k].answer.origin.ids == audience.appIds
  {
  }

  /** Overlap, exactly. A request of platform p is at work, at any stage, from state i until it stores
      its document at state j, whatever else commits in between. The row it leaves may be labelled
      with an old revision, and then it is never served. If it carries the current one, it shows p
      what it should exactly when no app whose grant changed since the request resolved p's
      grants is private with a release to offer on that channel and platform. */
  lemma OverlapExactlyWrong(rules: Rules, states: seq<System>, steps: seq<Step>, i: nat, j: nat, id: nat, now: Time, audience: Audience)
    requires IsRun(rules, states, steps) && i <= j < |steps| && AtWork(states, i, j, id) && steps[j] == Save(id, true, now)
    requires WorkingFor(states[i].requests[id]) == Some(audience) && !audience.Anonymous()
    ensures var (r, u) := (states[j].requests[id], states[j + 1]);
            var k := (audience.platformId, r.channel, r.platform);
      && k in u.privateRows && rules.platform(r.platform).Some?
      && (u.privateRows[k].answer.snapshot.revision == Now(u).revision ==>
            (RightForGrants(rules, u, k, u.privateRows[k].answer) <==>
             !ChangeShows(rules, FaceOf(Now(u)), Ask(r.channel, rules.platform(r.platform).value, audience.appIds),
                          GrantsOf(Now(u), audience.platformId))))
  {
    WorkKeepsAudience(rules, states, steps, i, j, id);
    KeysAreOk(rules, states, steps, j);
    assert OwnKey(states[j].signer, states[j].requests[id].stage);
    StoredRow(states[j], id, now, states[j + 1]);
    var r := states[j].requests[id];
    var k := (audience.platformId, r.channel, r.platform);
    PrivateRowsAreTraced(rules, states, steps, j + 1, k);
    if states[j + 1].privateRows[k].answer.snapshot.revision == Now(states[j + 1]).revision {
      PrivateRowsExactlyRight(rules, states, steps, j + 1, k);
    }
  }
}

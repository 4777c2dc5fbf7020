/** How the registry's transactions move what catalogues show. */
module StoreLaws {
  import opened Basics
  import opened Semver
  import opened Tables
  import opened Wire
  import opened Review
  import opened Catalogue
  import opened CatalogueLaws
  import opened ReviewLaws

  // --- the revision covers what catalogues show --------------------------------

  /** A transaction moves the revision by one, or changes nothing any catalogue shows. */
  ghost predicate Covered(s: Store, t: Store)
  {
    t.revision == s.revision + 1 || (t.revision == s.revision && FaceOf(t) == FaceOf(s))
  }

  lemma ExecCovered(rules: Rules, s: Store, op: Op)
    ensures Covered(s, After(rules, s, op))
  {
    if !op.OpSaveApp? && !op.OpSubmit? && !op.OpDecide? { OthersTouchNoTrail(rules, s, op); }
    if op.OpSubmit? { SubmitShowsNothing(rules, s, op); }
  }

  lemma SubmitShowsNothing(rules: Rules, s: Store, op: Op)
    requires op.OpSubmit?
    ensures FaceOf(After(rules, s, op)) == FaceOf(s) && After(rules, s, op).revision == s.revision
  {
    assert FaceOf(After(rules, s, op)).published == FaceOf(s).published;
  }

  predicate IsPublish(op: Op) { op.OpDecide? && op.action == "publish" }

  // --- the clock --------------------------------------------------------------

  function TimeOf(op: Op): Option<Time>
  {
    match op
    case OpSaveApp(_, _, _, _, _, now) => Some(now)
    case OpSubmit(_, _, _, _, _, _, _, now) => Some(now)
    case OpDecide(_, _, _, _, _, _, now) => Some(now)
    case OpSavePublisher(_, _, _, _, _, now) => Some(now)
    case _ => None
  }

  function TimeAfter(clock: Time, op: Op): Time
  {
    if TimeOf(op).Some? then TimeOf(op).value else clock
  }

  /** The latest time used by a run that started at `clock`. */
  function Clock(clock: Time, ops: seq<Op>): Time
    decreases |ops|
  {
    if ops == [] then clock else TimeAfter(Clock(clock, ops[..|ops| - 1]), ops[|ops| - 1])
  }

  /** Transactions commit in the order of their times, no two at the same microsecond. */
  predicate Ticking(clock: Time, ops: seq<Op>)
    decreases |ops|
  {
    ops == [] || (Ticking(clock, ops[..|ops| - 1]) && Ticks(Clock(clock, ops[..|ops| - 1]), ops[|ops| - 1]))
  }

  predicate Ticks(clock: Time, op: Op)
  {
    TimeOf(op).Some? ==> TimeOf(op).value > clock
  }

  /** The weaker discipline: transactions commit in the order of their times, ties allowed. */
  predicate Advancing(clock: Time, ops: seq<Op>)
    decreases |ops|
  {
    ops == [] || (Advancing(clock, ops[..|ops| - 1]) && NotBack(Clock(clock, ops[..|ops| - 1]), ops[|ops| - 1]))
  }

  predicate NotBack(clock: Time, op: Op)
  {
    TimeOf(op).Some? ==> TimeOf(op).value >= clock
  }

  ghost predicate UpTo(s: Store, clock: Time)
  {
    && clock >= EPOCH
    && (forall v :: v in s.releases && s.releases[v].publishedAt.Some? ==> s.releases[v].publishedAt.value <= clock)
  }

  predicate Stays(f: Face, g: Face, op: Op, v: string)
    requires v in g.published
  {
    || (v in f.published && g.published[v] == f.published[v])
    || (IsPublish(op) && v == op.vid && g.published[v].publishedAt == Some(op.now))
  }

  /** A published row is one that was published before, unchanged, or the one just published. */
  lemma PublishedRowsStay(rules: Rules, s: Store, op: Op)
    ensures forall v :: v in FaceOf(After(rules, s, op)).published ==> Stays(FaceOf(s), FaceOf(After(rules, s, op)), op, v)
  {
    if !op.OpSaveApp? && !op.OpSubmit? && !op.OpDecide? { OthersTouchNoTrail(rules, s, op); }
    if op.OpSubmit? { SubmitShowsNothing(rules, s, op); }
  }

  lemma ExecKeepsDated(rules: Rules, s: Store, op: Op)
    requires Dated(FaceOf(s)) && (TimeOf(op).Some? ==> TimeOf(op).value >= EPOCH)
    ensures Dated(FaceOf(After(rules, s, op)))
  {
    PublishedRowsStay(rules, s, op);
    assert IsPublish(op) ==> TimeOf(op) == Some(op.now);
    var f, g := FaceOf(s), FaceOf(After(rules, s, op));
    forall v | v in g.published
      ensures g.published[v].publishedAt.Some? && g.published[v].publishedAt.value >= EPOCH
    {
      assert Stays(f, g, op, v);
    }
  }

  lemma ExecKeepsTwinFree(rules: Rules, s: Store, op: Op, clock: Time)
    requires NoTwins(FaceOf(s)) && UpTo(s, clock) && Ticks(clock, op)
    ensures NoTwins(FaceOf(After(rules, s, op))) && UpTo(After(rules, s, op), TimeAfter(clock, op))
  {
    ExecStaysUpTo(rules, s, op, clock);
    PublishedRowsStay(rules, s, op);
    assert IsPublish(op) ==> TimeOf(op) == Some(op.now);
    OneNewTime(FaceOf(s), FaceOf(After(rules, s, op)), op, clock);
  }

  lemma ExecStaysUpTo(rules: Rules, s: Store, op: Op, clock: Time)
    requires UpTo(s, clock) && Ticks(clock, op)
    ensures UpTo(After(rules, s, op), TimeAfter(clock, op))
  {
    if !op.OpSaveApp? && !op.OpSubmit? && !op.OpDecide? { OthersTouchNoTrail(rules, s, op); }
  }

  /** A row published later than all the others is a twin of none. */
  lemma OneNewTime(f: Face, g: Face, op: Op, clock: Time)
    requires NoTwins(f) && (forall v :: v in g.published ==> Stays(f, g, op, v)) && (IsPublish(op) ==> op.now > clock)
    requires forall v :: v in f.published && f.published[v].publishedAt.Some? ==> f.published[v].publishedAt.value <= clock
    ensures NoTwins(g)
  {
    forall u, v | u in g.published && v in g.published && u != v
                  && g.published[u].app == g.published[v].app && g.published[u].channel == g.published[v].channel
                  && SameRank(g.published[u].number, g.published[v].number)
      ensures g.published[u].publishedAt != g.published[v].publishedAt
    {
      assert Stays(f, g, op, u) && Stays(f, g, op, v);
    }
  }

  /** Runs whose clock ticks keep published rows dated and twin-free, so that the tables
      determine each document byte for byte. */
  lemma {:induction false} TickingRunsAreDetermined(rules: Rules, s: Store, clock: Time, ops: seq<Op>)
    requires Dated(FaceOf(s)) && NoTwins(FaceOf(s)) && UpTo(s, clock) && Ticking(clock, ops)
    ensures var t := Run(rules, s, ops);
            Dated(FaceOf(t)) && NoTwins(FaceOf(t)) && UpTo(t, Clock(clock, ops))
    decreases |ops|
  {
    if ops != [] {
      var before, op := ops[..|ops| - 1], ops[|ops| - 1];
      TickingRunsAreDetermined(rules, s, clock, before);
      ExecKeepsDated(rules, Run(rules, s, before), op);
      ExecKeepsTwinFree(rules, Run(rules, s, before), op, Clock(clock, before));
    }
  }

  // --- publishing -------------------------------------------------------------

  /** Publishing what an audience cannot be offered — another channel, a platform it does not run,
      a private app it was not granted — moves the revision and leaves its documents, hence its
      ETag, exactly as they were. */
  lemma UnseenPublishChangesNothing(rules: Rules, signer: Signer, s: Store, op: Op, ask: Ask,
                                    platform: string, revision: nat, snapshot: Snapshot)
    requires IsPublish(op) && Exec(rules, s, op).Ok?
    requires !Eligible(rules, FaceOf(After(rules, s, op)), ask, op.vid)
    ensures After(rules, s, op).revision == s.revision + 1
    ensures IsBuild(rules, signer, FaceOf(s), ask, platform, revision, snapshot)
       <==> IsBuild(rules, signer, FaceOf(After(rules, s, op)), ask, platform, revision, snapshot)
  {
    var f, g := FaceOf(s), FaceOf(After(rules, s, op));
    PublishedRow(rules, s, op);
    UnseenRowAgrees(rules, f, g, ask, op.vid);
    AgreeingStatesBuildAlike(rules, signer, f, ask, g, ask, platform, revision, snapshot);
  }

  /** g is f with row v published, or published again with another note and time. */
  ghost predicate RowPublished(f: Face, g: Face, v: string)
  {
    && v in g.published && g.published == f.published[v := g.published[v]]
    && g.listings == f.listings && g.texts == f.texts
    && (v in f.published ==> OnlyReviewed(f.published[v], g.published[v]))
  }

  lemma UnseenRowAgrees(rules: Rules, f: Face, g: Face, ask: Ask, v: string)
    requires RowPublished(f, g, v) && !Eligible(rules, g, ask, v)
    ensures Agree(rules, f, ask, g, ask)
  {
  }

  lemma PublishedRow(rules: Rules, s: Store, op: Op)
    requires IsPublish(op) && Exec(rules, s, op).Ok?
    ensures var (f, g) := (FaceOf(s), FaceOf(After(rules, s, op)));
      && RowPublished(f, g, op.vid) && g.published[op.vid].publishedAt == Some(op.now)
      && After(rules, s, op).revision == s.revision + 1
  {
    var f, g := FaceOf(s), FaceOf(After(rules, s, op));
    assert g.listings == f.listings;
    assert g.published == f.published[op.vid := g.published[op.vid]];
  }

  lemma RowPublishedKeepsApps(rules: Rules, f: Face, g: Face, ask: Ask, v: string, p: map<string, string>, q: map<string, string>)
    requires RowPublished(f, g, v) && IsPick(rules, f, ask, p) && IsPick(rules, g, ask, q)
    ensures p.Keys <= q.Keys
  {
    forall a | a in p
      ensures a in q
    {
      assert IsWinner(rules, f, ask, a, p[a]);
      assert Eligible(rules, g, ask, p[a]);
    }
  }

  /** No publish ever takes an app out of anybody's catalogue. */
  lemma PublishRemovesNoApp(rules: Rules, s: Store, op: Op, ask: Ask, p: map<string, string>, q: map<string, string>)
    requires IsPublish(op) && Exec(rules, s, op).Ok?
    requires IsPick(rules, FaceOf(s), ask, p) && IsPick(rules, FaceOf(After(rules, s, op)), ask, q)
    ensures p.Keys <= q.Keys
  {
    PublishedRow(rules, s, op);
    RowPublishedKeepsApps(rules, FaceOf(s), FaceOf(After(rules, s, op)), ask, op.vid, p, q);
  }
}

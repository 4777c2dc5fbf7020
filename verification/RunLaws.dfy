/** Every state has a selection and one time stamp, and over runs that only add the stamp does not
    move back. */
module RunLaws {
  import opened Basics
  import opened Semver
  import opened Tables
  import opened Wire
  import opened Review
  import opened Catalogue
  import opened CatalogueLaws
  import opened ReviewLaws
  import opened StoreLaws

  // --- every state has a selection --------------------------------------------

  ghost predicate Unbeaten(f: Face, vs: set<string>, w: string)
    requires forall v :: v in vs ==> v in f.published
  {
    w in vs && forall u :: u in vs ==> !Beats(f, u, w)
  }

  /** Among finitely many published releases some release is beaten by no other. */
  lemma UnbeatenExists(f: Face, vs: set<string>)
    requires vs != {} && forall v :: v in vs ==> v in f.published
    ensures exists w :: Unbeaten(f, vs, w)
    decreases |vs|
  {
    var one :| one in vs;
    Trichotomy(f.published[one].number, f.published[one].number);
    var rest := vs - {one};
    if rest == {} {
      assert vs == {one} && Unbeaten(f, vs, one);
    } else {
      UnbeatenExists(f, rest);
      var other :| Unbeaten(f, rest, other);
      if Beats(f, one, other) {
        forall u | u in rest
          ensures !Beats(f, u, one)
        {
          if Beats(f, u, one) { BeatsIsTransitive(f, u, one, other); }
        }
        assert Unbeaten(f, vs, one);
      } else {
        assert Unbeaten(f, vs, other);
      }
    }
  }

  lemma BeatsIsTransitive(f: Face, u: string, v: string, w: string)
    requires u in f.published && v in f.published && w in f.published && Beats(f, u, v) && Beats(f, v, w)
    ensures Beats(f, u, w)
  {
    StrictWeakOrder(f.published[w].number, f.published[v].number, f.published[u].number);
    StrictWeakOrder(f.published[v].number, f.published[u].number, f.published[w].number);
    StrictWeakOrder(f.published[v].number, f.published[w].number, f.published[u].number);
  }

  ghost function EligibleOf(rules: Rules, f: Face, ask: Ask, app: string): set<string>
  {
    set v | v in f.published && Eligible(rules, f, ask, v) && f.published[v].app == app
  }

  lemma WinnerExists(rules: Rules, f: Face, ask: Ask, app: string)
    requires EligibleOf(rules, f, ask, app) != {}
    ensures exists v :: IsWinner(rules, f, ask, app, v)
  {
    var vs := EligibleOf(rules, f, ask, app);
    UnbeatenExists(f, vs);
    var w :| Unbeaten(f, vs, w);
    assert IsWinner(rules, f, ask, app, w);
  }

  lemma PickExists(rules: Rules, f: Face, ask: Ask)
    ensures exists pick :: IsPick(rules, f, ask, pick)
  {
    var listed := set a | a in f.listings && EligibleOf(rules, f, ask, a) != {};
    forall a | a in listed ensures exists v :: IsWinner(rules, f, ask, a, v) { WinnerExists(rules, f, ask, a); }
    var pick := map a | a in listed :: var v :| IsWinner(rules, f, ask, a, v); v;
    forall v | Eligible(rules, f, ask, v)
      ensures f.published[v].app in pick
    {
      assert v in EligibleOf(rules, f, ask, f.published[v].app);
    }
    assert IsPick(rules, f, ask, pick);
  }

  lemma NewestExists(f: Face, pick: map<string, string>)
    requires (forall v :: v in f.published ==> f.published[v].publishedAt.Some?) && Covers(f, pick)
    ensures exists newest :: IsNewest(f, pick, newest)
    decreases |pick|
  {
    if pick == map[] {
      assert IsNewest(f, pick, 0);
    } else {
      var a :| a in pick;
      var rest := pick - {a};
      assert pick == rest[a := pick[a]];
      NewestExists(f, rest);
      var n :| IsNewest(f, rest, n);
      NewestGrows(f, rest, n, a, pick[a]);
    }
  }

  // --- generated_at over a run ------------------------------------------------

  /** The transaction takes nothing out of a catalogue: it does not close a public app, nor reject or
      yank a published version. Everything else is allowed. */
  predicate TakesNothing(s: Store, op: Op)
  {
    match op
    case OpSaveApp(id, _, _, listing, _, _) => id in s.apps && s.apps[id].listing.visibility == "public" ==> listing.visibility == "public"
    case OpDecide(vid, action, _, _, _, _, _) => action == "publish" || (vid in s.releases ==> s.releases[vid].status != Published)
    case _ => true
  }

  ghost predicate AllTakeNothing(rules: Rules, s: Store, ops: seq<Op>)
    decreases |ops|
  {
    ops == [] || (AllTakeNothing(rules, s, ops[..|ops| - 1]) && TakesNothing(Run(rules, s, ops[..|ops| - 1]), ops[|ops| - 1]))
  }

  /** Every state has a stamp. */
  lemma SomeStamp(rules: Rules, f: Face, ask: Ask)
    ensures exists newest :: IsStamp(rules, f, ask, newest)
  {
    var d := DatedOf(f);
    DatedOfIsDated(f);
    PickExists(rules, d, ask);
    var pick :| IsPick(rules, d, ask, pick);
    PicksCover(rules, d, ask, pick);
    NewestExists(d, pick);
    var newest :| IsNewest(d, pick, newest);
    assert StampedBy(rules, f, d, ask, pick, newest);
    assert IsStamp(rules, f, ask, newest);
  }

  /** The stamp of a catalogue. */
  ghost function Stamp(rules: Rules, f: Face, ask: Ask): (newest: Time)
    ensures IsStamp(rules, f, ask, newest)
  {
    SomeStamp(rules, f, ask);
    var newest :| IsStamp(rules, f, ask, newest);
    newest
  }

  /** Every build carries that stamp, twins or no twins, dated rows or not. */
  lemma BuildsCarryTheStamp(rules: Rules, signer: Signer, f: Face, ask: Ask, platform: string, revision: nat, snapshot: Snapshot)
    requires IsBuild(rules, signer, f, ask, platform, revision, snapshot)
    ensures snapshot.generatedAt == Served(Stamp(rules, f, ask))
  {
    var p, m :| Builds(rules, signer, f, ask, platform, revision, p, m, snapshot);
    assert snapshot.generatedAt == Served(m);
    OneStamp(rules, f, ask, m, Stamp(rules, f, ask));
  }

  /** Over any run that takes nothing out of a catalogue — publishing, re-publishing, submitting,
      editing or opening apps, granting, anything about publishers and platforms — and whatever more
      the audience was granted by the end, generated_at does not move backwards. The clock need only
      not run backwards itself. */
  lemma GeneratedAtNeverMovesBackOverRuns(rules: Rules, signer: Signer, s: Store, ops: seq<Op>, clock: Time,
                                          ask: Ask, bsk: Ask, platform: string, revision: nat, before: Snapshot,
                                          revision': nat, after: Snapshot)
    requires Dated(FaceOf(s)) && UpTo(s, clock) && Advancing(clock, ops) && AllTakeNothing(rules, s, ops) && Widens(ask, bsk)
    requires IsBuild(rules, signer, FaceOf(s), ask, platform, revision, before)
    requires IsBuild(rules, signer, FaceOf(Run(rules, s, ops)), bsk, platform, revision', after)
    ensures before.generatedAt <= after.generatedAt
  {
    StampsAdvanceAndWiden(rules, s, ops, clock, ask, bsk);
    BuildsCarryTheStamp(rules, signer, FaceOf(s), ask, platform, revision, before);
    BuildsCarryTheStamp(rules, signer, FaceOf(Run(rules, s, ops)), bsk, platform, revision', after);
  }

  lemma StampsAdvanceAndWiden(rules: Rules, s: Store, ops: seq<Op>, clock: Time, ask: Ask, bsk: Ask)
    requires Dated(FaceOf(s)) && UpTo(s, clock) && Advancing(clock, ops) && AllTakeNothing(rules, s, ops) && Widens(ask, bsk)
    ensures Served(Stamp(rules, FaceOf(s), ask)) <= Served(Stamp(rules, FaceOf(Run(rules, s, ops)), bsk))
  {
    StampsAdvance(rules, s, ops, clock, ask);
    var f := FaceOf(Run(rules, s, ops));
    StampWidens(rules, f, ask, f, bsk, "", EPOCH);
  }

  predicate Widens(ask: Ask, bsk: Ask)
  {
    ask.channel == bsk.channel && ask.platform == bsk.platform && ask.ids <= bsk.ids
  }

  lemma {:induction false} StampsAdvance(rules: Rules, s: Store, ops: seq<Op>, clock: Time, ask: Ask)
    requires Dated(FaceOf(s)) && UpTo(s, clock) && Advancing(clock, ops) && AllTakeNothing(rules, s, ops)
    ensures Dated(FaceOf(Run(rules, s, ops))) && UpTo(Run(rules, s, ops), Clock(clock, ops))
    ensures Served(Stamp(rules, FaceOf(s), ask)) <= Served(Stamp(rules, FaceOf(Run(rules, s, ops)), ask))
    decreases |ops|
  {
    if ops != [] {
      var before, op := ops[..|ops| - 1], ops[|ops| - 1];
      StampsAdvance(rules, s, before, clock, ask);
      var m := Run(rules, s, before);
      OneStepForward(rules, m, op, Clock(clock, before));
      StampWidens(rules, FaceOf(m), ask, FaceOf(After(rules, m, op)), ask,
                  if op.OpDecide? then op.vid else "", if op.OpDecide? then op.now else EPOCH);
    }
  }

  lemma StampWidens(rules: Rules, f: Face, ask: Ask, g: Face, bsk: Ask, v: string, now: Time)
    requires Dated(f) && Dated(g) && (ShowsNoLess(f, g) || PublishedAt(f, g, v, now)) && Widens(ask, bsk)
    ensures Served(Stamp(rules, f, ask)) <= Served(Stamp(rules, g, bsk))
  {
    var p := StampPick(rules, f, ask, Stamp(rules, f, ask));
    var q := StampPick(rules, g, bsk, Stamp(rules, g, bsk));
    GeneratedAtNeverMovesBack(rules, f, ask, p, Stamp(rules, f, ask), g, bsk, q, Stamp(rules, g, bsk), v, now);
  }

  lemma StampPick(rules: Rules, f: Face, ask: Ask, newest: Time) returns (pick: map<string, string>)
    requires Dated(f) && IsStamp(rules, f, ask, newest)
    ensures IsPick(rules, f, ask, pick) && IsNewest(f, pick, newest)
  {
    var d;
    d, pick :| StampedBy(rules, f, d, ask, pick, newest);
    DatedPartIsOne(f, d);
  }

  lemma OneStepForward(rules: Rules, s: Store, op: Op, clock: Time)
    requires TakesNothing(s, op) && Dated(FaceOf(s)) && UpTo(s, clock) && NotBack(clock, op)
    ensures var t := After(rules, s, op);
      && Dated(FaceOf(t)) && UpTo(t, TimeAfter(clock, op))
      && (ShowsNoLess(FaceOf(s), FaceOf(t)) || (IsPublish(op) && PublishedAt(FaceOf(s), FaceOf(t), op.vid, op.now)))
  {
    ExecKeepsDated(rules, s, op);
    if Exec(rules, s, op).Ok? {
      if op.OpSubmit? {
        SubmitShowsNothing(rules, s, op);
      } else if IsPublish(op) {
        PublishedRow(rules, s, op);
      } else {
        StepShowsNoLess(rules, s, op);
        StepUpTo(rules, s, op, clock);
      }
    }
  }

  lemma StepShowsNoLess(rules: Rules, s: Store, op: Op)
    requires TakesNothing(s, op) && Exec(rules, s, op).Ok? && !op.OpSubmit? && !IsPublish(op)
    ensures ShowsNoLess(FaceOf(s), FaceOf(After(rules, s, op)))
  {
    if !op.OpSaveApp? && !op.OpDecide? { OthersTouchNoTrail(rules, s, op); }
    assert FaceOf(After(rules, s, op)).published == FaceOf(s).published;
  }

  lemma StepUpTo(rules: Rules, s: Store, op: Op, clock: Time)
    requires Exec(rules, s, op).Ok? && !op.OpSubmit? && !IsPublish(op) && UpTo(s, clock) && NotBack(clock, op)
    ensures UpTo(After(rules, s, op), TimeAfter(clock, op))
  {
    if !op.OpSaveApp? && !op.OpDecide? { OthersTouchNoTrail(rules, s, op); }
  }
}

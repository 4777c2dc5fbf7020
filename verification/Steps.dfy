/** The builder's methods are the builder's steps: run on the versions of the tables a request reads,
    each method answers with a stage the concurrent system may move to. */
module Steps {
  import opened Basics
  import opened Semver
  import opened Tables
  import opened Wire
  import opened Catalogue
  import opened Protocol
  import Statements

  /** The row query and the loop over its answer, on the last version of the tables. It fails exactly
      on an unparseable platform or an eligible manifest that does not decode. */
  method ReadRows(rules: Rules, ghost s: System, r: Request, last: Store) returns (next: Stage, order: seq<string>)
    requires |s.hist| > 0 && last == Now(s) && r.stage.Missed?
    ensures Moves(rules, s, r, Failed) && Moves(rules, s, r, WhereFrom(s, next))
    ensures next.Failed? <==>
              || rules.platform(r.platform).None?
              || exists v :: Eligible(rules, FaceOf(last), Ask(r.channel, rules.platform(r.platform).value, r.stage.job.audience.appIds), v)
                             && !FaceOf(last).published[v].decodes
    ensures !next.Failed? ==> next.Gathering? && IsOrder(order, next.pick)
  {
    var parsed := rules.platform(r.platform);
    if parsed.None? {
      return Failed, [];
    }
    var f := FaceOf(last);
    var ask := Ask(r.channel, parsed.value, r.stage.job.audience.appIds);
    var cursor := Statements.SelectRows(f, ask);
    var ok, chosen, seen, newest := Select(rules, f, ask, cursor);
    if !ok {
      return Failed, [];
    }
    next, order := Gathering(r.stage.job, 0, chosen, newest, map[]), seen;
    RowsMove(rules, s, r, f, ask, chosen, newest);
  }

  lemma RowsMove(rules: Rules, s: System, r: Request, f: Face, ask: Ask, pick: map<string, string>, newest: Time)
    requires |s.hist| > 0 && r.stage.Missed? && f == FaceOf(Now(s)) && rules.platform(r.platform).Some?
    requires ask == Ask(r.channel, rules.platform(r.platform).value, r.stage.job.audience.appIds)
    requires Selects(rules, f, ask, pick, newest)
    ensures Moves(rules, s, r, Gathering(r.stage.job, |s.hist| - 1, pick, newest, map[]))
  {
  }

  /** The stage, with the position the rows were read at. */
  function WhereFrom(s: System, next: Stage): Stage
    requires |s.hist| > 0
  {
    if next.Gathering? then next.(rowsAt := |s.hist| - 1) else next
  }

  /** Translations read elsewhere make the entries they would make on a face that holds them. */
  lemma FaceWithTexts(rules: Rules, signer: Signer, f: Face, pick: map<string, string>, texts: map<string, map<string, Text>>,
                      newest: Time, revision: nat)
    requires Covers(f, pick)
    ensures var g := f.(texts := texts);
      && Covers(g, pick) && EntriesOf(g, pick, g.texts) == EntriesOf(f, pick, texts)
      && Assemble(rules, signer, g, pick, g.texts, newest, revision) == Assemble(rules, signer, f, pick, texts, newest, revision)
  {
  }

  /** Validation, sorting and signing of rows read at one version and translations read at others: the
      answer is the one the concurrent system assembles, and it fails only when the validator
      refuses what was gathered. */
  method Finish(rules: Rules, ghost s: System, signer: Signer, r: Request, f: Face, texts: map<string, map<string, Text>>, order: seq<string>)
    returns (snapshot: Option<Snapshot>)
    requires |s.hist| > 0 && r.stage.Gathering? && signer == s.signer && rules.platform(r.platform).Some?
    requires r.stage.rowsAt < |s.hist| && f == FaceOf(s.hist[r.stage.rowsAt]) && Covers(f, r.stage.pick) && IsOrder(order, r.stage.pick)
    requires r.stage.textsAt.Keys == r.stage.pick.Keys && (forall x :: x in r.stage.textsAt ==> r.stage.textsAt[x] < |s.hist|)
    requires texts == GatherAt(s.hist, r.stage.textsAt)
    ensures snapshot.None? ==> Refuses(rules, EntriesOf(f, r.stage.pick, texts), r.platform)
    ensures snapshot.Some? ==> Moves(rules, s, r, Built(r.stage.job, AnswerOf(s, r, snapshot.value)))
  {
    var g := r.stage;
    FaceWithTexts(rules, signer, f, g.pick, texts, g.newest, g.job.revision);
    var built := SignApps(rules, signer, f.(texts := texts), r.platform, g.job.revision, g.pick, order, g.newest);
    snapshot := if built.Ok? then Some(built.value) else None;
    if built.Ok? { FinishMoves(rules, s, r, built.value, f, texts); }
  }

  ghost function AnswerOf(s: System, r: Request, snapshot: Snapshot): Answer
    requires r.stage.Gathering?
  {
    var g := r.stage;
    Answer(snapshot, Origin(s.signer, g.job.audience.appIds, g.job.revAt, g.rowsAt, g.textsAt, g.pick, g.newest))
  }

  lemma FinishMoves(rules: Rules, s: System, r: Request, snapshot: Snapshot, f: Face, texts: map<string, map<string, Text>>)
    requires |s.hist| > 0 && r.stage.Gathering? && rules.platform(r.platform).Some?
    requires r.stage.rowsAt < |s.hist| && f == FaceOf(s.hist[r.stage.rowsAt]) && Covers(f, r.stage.pick)
    requires r.stage.textsAt.Keys == r.stage.pick.Keys && (forall x :: x in r.stage.textsAt ==> r.stage.textsAt[x] < |s.hist|)
    requires texts == GatherAt(s.hist, r.stage.textsAt)
    requires Passes(rules, EntriesOf(f, r.stage.pick, texts), r.platform)
    requires snapshot == Assemble(rules, s.signer, f, r.stage.pick, texts, r.stage.newest, r.stage.job.revision)
    ensures Moves(rules, s, r, Built(r.stage.job, AnswerOf(s, r, snapshot)))
  {
  }
}

/** How large the public cache gets, and which rows pruning keeps. */
module CacheLaws {
  import opened Tables
  import opened Wire
  import opened Review
  import opened Caching
  import opened Protocol
  import ProtocolLaws

  /** Pruning never drops the row just written: one built after every other row of its channel
      stays. Rows of the other channel are not touched. */
  lemma NewestSurvivesPrune<T(!new)>(before: map<(string, string), Row<T>>, after: map<(string, string), Row<T>>, k: (string, string))
    requires k in before && PrunedTo(before, after, k.0)
    requires forall j :: j in OfChannel(before, k.0) && j != k ==> before[j].builtAt < before[k].builtAt
    ensures k in after
    ensures forall j: (string, string) :: j.0 != k.0 ==> (j in after <==> j in before) && (j in before ==> after[j] == before[j])
  {
  }

  ghost predicate KnownRows<T(!new)>(rows: map<(string, string), Row<T>>)
  {
    forall k :: k in rows ==> KnownChannel(k.0)
  }

  lemma SizeByChannel<T(!new)>(rows: map<(string, string), Row<T>>)
    requires KnownRows(rows)
    ensures |rows| == |OfChannel(rows, "stable")| + |OfChannel(rows, "beta")|
  {
    var stable, beta := OfChannel(rows, "stable"), OfChannel(rows, "beta");
    assert rows.Keys == stable + beta;
    assert stable !! beta;
  }

  /** Only the two channels are ever asked for or stored. */
  ghost predicate ChannelsKnown(s: System)
  {
    KnownRows(s.publicRows) && forall id :: id in s.requests ==> KnownChannel(s.requests[id].channel)
  }

  lemma NextKeepsChannels(rules: Rules, s: System, step: Step, t: System)
    requires |s.hist| > 0 && Next(rules, s, step, t) && ChannelsKnown(s)
    ensures ChannelsKnown(t)
  {
    match step
    case Save(id, stored, now) => SaveKeepsChannels(s, id, stored, now, t);
    case Prune(id, done) => PruneKeepsChannels(s, id, done, t);
    case Advance(id, next) => AdvanceKeepsChannels(rules, s, id, next, t);
    case Arrive(id, channel, platform, token) => ArriveKeepsChannels(rules, s, id, channel, platform, token, t);
    case _ => OthersKeepChannels(rules, s, step, t);
  }

  lemma ArriveKeepsChannels(rules: Rules, s: System, id: nat, channel: string, platform: string, token: string, t: System)
    requires |s.hist| > 0 && ArriveStep(rules, s, id, channel, platform, token, t) && ChannelsKnown(s)
    ensures ChannelsKnown(t)
  {
  }

  lemma OthersKeepChannels(rules: Rules, s: System, step: Step, t: System)
    requires |s.hist| > 0 && Next(rules, s, step, t) && ChannelsKnown(s)
    requires !step.Save? && !step.Prune? && !step.Advance? && !step.Arrive?
    ensures ChannelsKnown(t)
  {
    assert t.publicRows == s.publicRows || t.publicRows == map[];
    assert t.requests == s.requests || t.requests == map[];
  }

  lemma PruneKeepsChannels(s: System, id: nat, done: bool, t: System)
    requires PruneStep(s, id, done, t) && ChannelsKnown(s)
    ensures ChannelsKnown(t)
  {
  }

  lemma AdvanceKeepsChannels(rules: Rules, s: System, id: nat, next: Stage, t: System)
    requires |s.hist| > 0 && AdvanceStep(rules, s, id, next, t) && ChannelsKnown(s)
    ensures ChannelsKnown(t)
  {
  }

  lemma SaveKeepsChannels(s: System, id: nat, stored: bool, now: Time, t: System)
    requires SaveStep(s, id, stored, now, t) && ChannelsKnown(s)
    ensures ChannelsKnown(t)
  {
  }

  lemma {:induction false} ChannelsStayKnown(rules: Rules, states: seq<System>, steps: seq<Step>, i: nat)
    requires IsRun(rules, states, steps) && i < |states|
    ensures ChannelsKnown(states[i])
    decreases i
  {
    if i > 0 {
      ChannelsStayKnown(rules, states, steps, i - 1);
      NextKeepsChannels(rules, states[i - 1], steps[i - 1], states[i]);
    }
  }

  /** Whatever fails: the public cache holds at most 128 rows, plus the rows stored since their
      channel's last prune. */
  lemma PublicCacheStaysSmall(rules: Rules, states: seq<System>, steps: seq<Step>, i: nat)
    requires IsRun(rules, states, steps) && i < |states|
    ensures var s := states[i];
      |s.publicRows| <= 128 + Count(s.unpruned, "stable") + Count(s.unpruned, "beta")
  {
    ChannelsStayKnown(rules, states, steps, i);
    ProtocolLaws.CacheIsBounded(rules, states, steps, i);
    SizeByChannel(states[i].publicRows);
  }

  // --- when nothing fails between a save and its prune ------------------------

  /** The requests of a channel that have saved and not yet pruned. */
  function Pruning(requests: map<nat, Request>, channel: string): set<nat>
  {
    set id | id in requests && requests[id].channel == channel && requests[id].stage.Saved?
  }

  /** A prune that is tried goes through, and no request is lost between its save and its prune: it
      neither fails there nor is dropped by a restart. */
  predicate Tidy(s: System, step: Step)
  {
    match step
    case Prune(_, done) => done
    case Advance(id, _) => id in s.requests ==> !s.requests[id].stage.Saved?
    case Restart(_) => Pruning(s.requests, "stable") == {} && Pruning(s.requests, "beta") == {}
    case _ => true
  }

  /** Every row stored since a channel's last prune belongs to a request about to prune it. */
  ghost predicate Accounted(s: System)
  {
    forall c :: KnownChannel(c) ==> Count(s.unpruned, c) <= |Pruning(s.requests, c)|
  }

  lemma NoFewerPruning(before: map<nat, Request>, after: map<nat, Request>, c: string)
    requires forall id :: id in Pruning(before, c) ==> id in Pruning(after, c)
    ensures |Pruning(before, c)| <= |Pruning(after, c)|
  {
    var a, b := Pruning(before, c), Pruning(after, c);
    assert b == a + (b - a);
  }

  lemma OneMorePruning(before: map<nat, Request>, after: map<nat, Request>, c: string, id: nat)
    requires Pruning(after, c) == Pruning(before, c) + {id} && id !in Pruning(before, c)
    ensures |Pruning(after, c)| == |Pruning(before, c)| + 1
  {
  }

  lemma RequestSaved(requests: map<nat, Request>, id: nat, next: Request, c: string)
    requires id in requests && !requests[id].stage.Saved? && next.channel == requests[id].channel
    ensures |Pruning(requests[id := next], c)| == |Pruning(requests, c)| + if next.stage.Saved? && c == next.channel then 1 else 0
  {
    if next.stage.Saved? && c == next.channel {
      OneMorePruning(requests, requests[id := next], c, id);
    } else {
      assert Pruning(requests[id := next], c) == Pruning(requests, c);
    }
  }

  lemma SaveAccounted(s: System, id: nat, stored: bool, now: Time, t: System)
    requires SaveStep(s, id, stored, now, t) && Accounted(s)
    ensures Accounted(t)
  {
    forall c | KnownChannel(c) ensures Count(t.unpruned, c) <= |Pruning(t.requests, c)| {
      RequestSaved(s.requests, id, t.requests[id], c);
    }
  }

  lemma PruneAccounted(s: System, id: nat, t: System)
    requires PruneStep(s, id, true, t) && Accounted(s)
    ensures Accounted(t)
  {
    forall c | KnownChannel(c) ensures Count(t.unpruned, c) <= |Pruning(t.requests, c)| {
      if c != s.requests[id].channel { NoFewerPruning(s.requests, t.requests, c); }
    }
  }

  lemma AdvanceAccounted(rules: Rules, s: System, id: nat, next: Stage, t: System)
    requires |s.hist| > 0 && AdvanceStep(rules, s, id, next, t) && Accounted(s) && !s.requests[id].stage.Saved?
    ensures Accounted(t)
  {
    forall c | KnownChannel(c) ensures Count(t.unpruned, c) <= |Pruning(t.requests, c)| {
      NoFewerPruning(s.requests, t.requests, c);
    }
  }

  lemma ArriveAccounted(rules: Rules, s: System, id: nat, channel: string, platform: string, token: string, t: System)
    requires |s.hist| > 0 && ArriveStep(rules, s, id, channel, platform, token, t) && Accounted(s)
    ensures Accounted(t)
  {
    forall c | KnownChannel(c) ensures Count(t.unpruned, c) <= |Pruning(t.requests, c)| {
      NoFewerPruning(s.requests, t.requests, c);
    }
  }

  lemma OthersAccounted(rules: Rules, s: System, step: Step, t: System)
    requires |s.hist| > 0 && Next(rules, s, step, t) && Accounted(s) && Tidy(s, step)
    requires !step.Save? && !step.Prune? && !step.Advance? && !step.Arrive?
    ensures Accounted(t)
  {
    assert t.unpruned == s.unpruned || t.unpruned == map[];
    assert t.requests == s.requests || (step.Restart? && t.requests == map[]);
  }

  lemma NextAccounted(rules: Rules, s: System, step: Step, t: System)
    requires |s.hist| > 0 && Next(rules, s, step, t) && Accounted(s) && Tidy(s, step)
    ensures Accounted(t)
  {
    match step
    case Save(id, stored, now) => SaveAccounted(s, id, stored, now, t);
    case Prune(id, done) => PruneAccounted(s, id, t);
    case Advance(id, next) => AdvanceAccounted(rules, s, id, next, t);
    case Arrive(id, channel, platform, token) => ArriveAccounted(rules, s, id, channel, platform, token, t);
    case _ => OthersAccounted(rules, s, step, t);
  }

  lemma {:induction false} RunsAccount(rules: Rules, states: seq<System>, steps: seq<Step>, i: nat)
    requires IsRun(rules, states, steps) && i < |states| && forall j :: 0 <= j < i ==> Tidy(states[j], steps[j])
    ensures Accounted(states[i])
    decreases i
  {
    if i > 0 {
      RunsAccount(rules, states, steps, i - 1);
      NextAccounted(rules, states[i - 1], steps[i - 1], states[i]);
    }
  }

  /** The bound: however many platform versions strangers invent, in however many interleaved
      requests, as long as prunes go through and no request is lost between its save and its
      prune, each channel holds at most 64 rows plus one for each of its requests between the
      two, and the whole cache at most 128 plus those requests — 128 when there are none. */
  lemma PublicCacheIsBounded(rules: Rules, states: seq<System>, steps: seq<Step>, i: nat)
    requires IsRun(rules, states, steps) && i < |states| && forall j :: 0 <= j < i ==> Tidy(states[j], steps[j])
    ensures var s := states[i];
      && (forall c :: KnownChannel(c) ==> |OfChannel(s.publicRows, c)| <= 64 + |Pruning(s.requests, c)|)
      && |s.publicRows| <= 128 + |Pruning(s.requests, "stable")| + |Pruning(s.requests, "beta")|
    ensures (forall id :: id in states[i].requests ==> !states[i].requests[id].stage.Saved?) ==> |states[i].publicRows| <= 128
  {
    RunsAccount(rules, states, steps, i);
    ChannelsStayKnown(rules, states, steps, i);
    BoundedAndAccounted(rules, states, steps, i);
    SizeByChannel(states[i].publicRows);
    if forall id :: id in states[i].requests ==> !states[i].requests[id].stage.Saved? {
      assert Pruning(states[i].requests, "stable") == {} && Pruning(states[i].requests, "beta") == {};
    }
  }

  lemma BoundedAndAccounted(rules: Rules, states: seq<System>, steps: seq<Step>, i: nat)
    requires IsRun(rules, states, steps) && i < |states| && Accounted(states[i])
    ensures forall c :: KnownChannel(c) ==> |OfChannel(states[i].publicRows, c)| <= 64 + |Pruning(states[i].requests, c)|
  {
    ProtocolLaws.CacheIsBounded(rules, states, steps, i);
    assert forall c :: KnownChannel(c) ==> Count(states[i].unpruned, c) <= |Pruning(states[i].requests, c)|;
  }
}

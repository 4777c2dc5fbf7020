/** The two statements whose ORDER BY decides something: the builder's row query and the pruning
    of a channel. Where rows tie, either method picks any of them, as the database may. */
module Statements {
  import opened Basics
  import opened Tables
  import opened Wire
  import opened Catalogue
  import opened Caching

  predicate NoneBefore(f: Face, left: set<string>, v: string)
    requires v in f.published && forall u :: u in left ==> u in f.published
  {
    forall u :: u in left ==> !Earlier(f.published[u].publishedAt, f.published[v].publishedAt)
  }

  lemma EarliestExists(f: Face, left: set<string>)
    requires left != {} && forall u :: u in left ==> u in f.published
    ensures exists v :: v in left && NoneBefore(f, left, v)
    decreases |left|
  {
    var one :| one in left;
    var rest := left - {one};
    if rest == {} {
      assert left == {one} && NoneBefore(f, left, one);
    } else {
      EarliestExists(f, rest);
      var other :| other in rest && NoneBefore(f, rest, other);
      if Earlier(f.published[one].publishedAt, f.published[other].publishedAt) {
        assert NoneBefore(f, left, one);
      } else {
        assert NoneBefore(f, left, other);
      }
    }
  }

  /** SELECT ... ORDER BY: the rows a request may see, in order of publication within each app. */
  method SelectRows(f: Face, ask: Ask) returns (cursor: seq<string>)
    ensures IsAnswer(f, ask, cursor)
  {
    var left := set v | v in f.published && Visible(f, ask, v);
    cursor := [];
    while left != {}
      invariant forall v :: v in left || v in cursor <==> Visible(f, ask, v)
      invariant forall i :: 0 <= i < |cursor| ==> NoneLater(f, cursor[..i], cursor[i])
      invariant forall u, v :: u in cursor && v in left ==> !Earlier(f.published[v].publishedAt, f.published[u].publishedAt)
      decreases |left|
    {
      EarliestExists(f, left);
      var v :| v in left && NoneBefore(f, left, v);
      left := left - {v};
      assert forall i :: 0 <= i <= |cursor| ==> (cursor + [v])[..i] == cursor[..i];
      assert NoneLater(f, cursor, v);
      cursor := cursor + [v];
    }
  }

  predicate Oldest<T>(rows: map<(string, string), Row<T>>, keys: set<(string, string)>, k: (string, string))
    requires k in rows && keys <= rows.Keys
  {
    forall j :: j in keys ==> rows[k].builtAt <= rows[j].builtAt
  }

  lemma OldestExists<T>(rows: map<(string, string), Row<T>>, keys: set<(string, string)>)
    requires keys != {} && keys <= rows.Keys
    ensures exists k :: k in keys && Oldest(rows, keys, k)
    decreases |keys|
  {
    var one :| one in keys;
    var rest := keys - {one};
    if rest == {} {
      assert keys == {one} && Oldest(rows, keys, one);
    } else {
      OldestExists(rows, rest);
      var other :| other in rest && Oldest(rows, rest, other);
      assert Oldest(rows, keys, if rows[one].builtAt < rows[other].builtAt then one else other);
    }
  }

  /** What is left of `before` after some of the oldest rows of a channel were deleted. */
  ghost predicate Thinned<T(!new)>(before: map<(string, string), Row<T>>, rows: map<(string, string), Row<T>>, channel: string)
  {
    && (forall k :: k in rows ==> k in before && rows[k] == before[k])
    && (forall k :: k in before && k.0 != channel ==> k in rows)
    && (forall k, d :: k in OfChannel(rows, channel) && d in OfChannel(before, channel) && d !in rows ==> before[d].builtAt <= before[k].builtAt)
  }

  lemma OneDeleted<T>(rows: map<(string, string), Row<T>>, k: (string, string))
    requires k in rows
    ensures |OfChannel(rows - {k}, k.0)| == |OfChannel(rows, k.0)| - 1
  {
    assert OfChannel(rows - {k}, k.0) == OfChannel(rows, k.0) - {k};
  }

  /** DELETE ... NOT IN (the newest MAX_ROWS): the oldest rows go, one by one. */
  method DeleteAllButNewest<T(!new)>(before: map<(string, string), Row<T>>, channel: string) returns (rows: map<(string, string), Row<T>>)
    ensures PrunedTo(before, rows, channel)
    ensures |OfChannel(rows, channel)| == (if |OfChannel(before, channel)| < 64 then |OfChannel(before, channel)| else 64)
  {
    rows := before;
    while |OfChannel(rows, channel)| > MAX_ROWS
      invariant Thinned(before, rows, channel)
      invariant |OfChannel(rows, channel)| >= MAX_ROWS || rows == before
    {
      OldestExists(rows, OfChannel(rows, channel));
      var k :| k in OfChannel(rows, channel) && Oldest(rows, OfChannel(rows, channel), k);
      OneDeleted(rows, k);
      OldestDeleted(before, rows, channel, k);
      rows := rows - {k};
    }
  }

  lemma OldestDeleted<T(!new)>(before: map<(string, string), Row<T>>, rows: map<(string, string), Row<T>>, channel: string, k: (string, string))
    requires Thinned(before, rows, channel) && k in OfChannel(rows, channel) && Oldest(rows, OfChannel(rows, channel), k)
    ensures Thinned(before, rows - {k}, channel)
  {
  }
}

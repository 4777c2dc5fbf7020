/** The byte order of strings: what sorts the entries of a catalogue, and what orders
    alphanumeric pre-release identifiers. */
module Lex {

  predicate Less(s: string, t: string)
  {
    t != [] && (s == [] || s[0] < t[0] || (s[0] == t[0] && Less(s[1..], t[1..])))
  }

  lemma {:induction false} Total(s: string, t: string)
    ensures Less(s, t) || Less(t, s) || s == t
    ensures !(Less(s, t) && Less(t, s))
    ensures !Less(s, s)
  {
    if s != [] {
      Total(s[1..], s[1..]);
      if t != [] {
        Total(s[1..], t[1..]);
        assert s == [s[0]] + s[1..] && t == [t[0]] + t[1..];
      }
    }
  }

  lemma {:induction false} Transitive(s: string, t: string, u: string)
    requires Less(s, t) && Less(t, u)
    ensures Less(s, u)
  {
    if s != [] && s[0] == t[0] == u[0] {
      Transitive(s[1..], t[1..], u[1..]);
    }
  }

  /** k is where t goes on or holds the greater character, after a common beginning. */
  ghost predicate RisesAt(s: string, t: string, k: nat)
  {
    k <= |s| && k < |t| && s[..k] == t[..k] && (k == |s| || s[k] < t[k])
  }

  lemma FirstOfPrefix<T>(s: seq<T>, t: seq<T>, k: nat)
    requires k <= |s| && k <= |t| && s[..k] == t[..k]
    ensures k == 0 || s[0] == t[0]
  {
    if k > 0 { assert s[..k][0] == t[..k][0]; }
  }

  /** The order is decided at the first difference; a proper prefix comes first. */
  lemma {:induction false} LessAtFirstDifference(s: string, t: string)
    ensures Less(s, t) <==> exists k :: RisesAt(s, t, k)
  {
    if s != [] && t != [] && s[0] == t[0] {
      LessAtFirstDifference(s[1..], t[1..]);
      if k: nat :| RisesAt(s[1..], t[1..], k) {
        assert s[..k + 1] == [s[0]] + s[1..][..k] && t[..k + 1] == [t[0]] + t[1..][..k];
        assert RisesAt(s, t, k + 1);
      }
      if k: nat :| RisesAt(s, t, k) {
        assert s[1..][..k - 1] == s[..k][1..] && t[1..][..k - 1] == t[..k][1..];
        assert RisesAt(s[1..], t[1..], k - 1);
      }
    } else {
      if Less(s, t) { assert RisesAt(s, t, 0); }
      if k: nat :| RisesAt(s, t, k) { FirstOfPrefix(s, t, k); }
    }
  }

  ghost predicate Ascending(ids: seq<string>)
  {
    forall i, j :: 0 <= i < j < |ids| ==> Less(ids[i], ids[j])
  }

  ghost predicate IsLeast(ids: set<string>, least: string)
  {
    least in ids && forall s :: s in ids && s != least ==> Less(least, s)
  }

  lemma LeastExists(ids: set<string>)
    requires ids != {}
    ensures exists least :: IsLeast(ids, least)
    decreases |ids|
  {
    var one :| one in ids;
    var rest := ids - {one};
    if rest == {} {
      assert ids == {one};
      assert IsLeast(ids, one);
    } else {
      LeastExists(rest);
      var other :| IsLeast(rest, other);
      Total(one, other);
      if Less(other, one) {
        assert IsLeast(ids, other);
      } else {
        forall s | s in ids && s != one
          ensures Less(one, s)
        {
          if s != other { Transitive(one, other, s); }
        }
        assert IsLeast(ids, one);
      }
    }
  }

  /** The ids of a set in byte order. */
  ghost function Sorted(ids: set<string>): (r: seq<string>)
    ensures Ascending(r) && forall s :: s in r <==> s in ids
    decreases |ids|
  {
    if ids == {} then [] else
      LeastExists(ids);
      var least :| IsLeast(ids, least);
      var rest := Sorted(ids - {least});
      assert forall j :: 0 <= j < |rest| ==> rest[j] in rest && rest[j] in ids - {least};
      [least] + rest
  }

  /** An ascending sequence is determined by what it holds: sorting has one answer. */
  lemma {:induction false} AscendingUnique(a: seq<string>, b: seq<string>)
    requires Ascending(a) && Ascending(b)
    requires forall s :: s in a <==> s in b
    ensures a == b
  {
    assert forall i :: 0 <= i < |a| ==> a[i] in b;
    assert forall i :: 0 <= i < |b| ==> b[i] in a;
    if a != [] && b != [] {
      var i :| 0 <= i < |b| && b[i] == a[0];
      var j :| 0 <= j < |a| && a[j] == b[0];
      Total(a[0], b[0]);
      assert a[0] == b[0];
      forall s
        ensures s in a[1..] <==> s in b[1..]
      {
        Total(a[0], a[0]);
        if s in a[1..] { assert s != a[0]; assert s in b; }
        if s in b[1..] { assert s != b[0]; assert s in a; }
      }
      AscendingUnique(a[1..], b[1..]);
      assert a == [a[0]] + a[1..] && b == [b[0]] + b[1..];
    }
  }
}

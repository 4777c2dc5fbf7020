/** Version precedence: section 11 of Semantic Versioning 2.0.0, with build metadata
    ignored as section 10 requires. */
module Semver {
  import Lex

  datatype Ident = Num(n: nat) | Alpha(text: string)

  datatype SemVer = SemVer(major: nat, minor: nat, patch: nat, pre: seq<Ident>, build: string)

  /** Numeric identifiers compare as numbers and rank below alphanumeric ones. */
  predicate IdentLess(a: Ident, b: Ident)
  {
    match (a, b)
    case (Num(m), Num(n)) => m < n
    case (Num(_), Alpha(_)) => true
    case (Alpha(_), Num(_)) => false
    case (Alpha(s), Alpha(t)) => Lex.Less(s, t)
  }

  /** Left to right; when one list runs out the longer one ranks higher. */
  predicate FieldsLess(a: seq<Ident>, b: seq<Ident>)
  {
    b != [] && (a == [] || IdentLess(a[0], b[0]) || (a[0] == b[0] && FieldsLess(a[1..], b[1..])))
  }

  /** A release ranks above every pre-release of the same numbers. */
  predicate PreLess(a: seq<Ident>, b: seq<Ident>)
  {
    a != [] && (b == [] || FieldsLess(a, b))
  }

  predicate Lower(a: SemVer, b: SemVer)
  {
    if a.major != b.major then a.major < b.major
    else if a.minor != b.minor then a.minor < b.minor
    else if a.patch != b.patch then a.patch < b.patch
    else PreLess(a.pre, b.pre)
  }

  predicate Newer(candidate: SemVer, held: SemVer) { Lower(held, candidate) }

  predicate SameRank(a: SemVer, b: SemVer)
  {
    a.major == b.major && a.minor == b.minor && a.patch == b.patch && a.pre == b.pre
  }

  lemma {:induction false} FieldsTotal(a: seq<Ident>, b: seq<Ident>)
    ensures FieldsLess(a, b) || FieldsLess(b, a) || a == b
    ensures !(FieldsLess(a, b) && FieldsLess(b, a))
    ensures !FieldsLess(a, a)
  {
    if a != [] {
      FieldsTotal(a[1..], a[1..]);
      if a[0].Alpha? { Lex.Total(a[0].text, a[0].text); }
      if b != [] {
        FieldsTotal(a[1..], b[1..]);
        if a[0].Alpha? && b[0].Alpha? { Lex.Total(a[0].text, b[0].text); }
        assert a == [a[0]] + a[1..] && b == [b[0]] + b[1..];
      }
    }
  }

  lemma {:induction false} FieldsTransitive(a: seq<Ident>, b: seq<Ident>, c: seq<Ident>)
    requires FieldsLess(a, b) && FieldsLess(b, c)
    ensures FieldsLess(a, c)
  {
    if a != [] {
      if a[0] == b[0] && b[0] == c[0] && FieldsLess(a[1..], b[1..]) && FieldsLess(b[1..], c[1..]) {
        FieldsTransitive(a[1..], b[1..], c[1..]);
      } else if IdentLess(a[0], b[0]) && IdentLess(b[0], c[0]) && a[0].Alpha? {
        Lex.Transitive(a[0].text, b[0].text, c[0].text);
      }
    }
  }

  /** Exactly one of lower, higher and same rank holds of any two versions. */
  lemma Trichotomy(a: SemVer, b: SemVer)
    ensures Lower(a, b) || Lower(b, a) || SameRank(a, b)
    ensures !(Lower(a, b) && Lower(b, a))
    ensures SameRank(a, b) ==> !Lower(a, b) && !Lower(b, a)
  {
    FieldsTotal(a.pre, b.pre);
  }

  /** Precedence is a strict weak order: irreflexive, transitive, and with "neither is lower"
      an equivalence that precedence respects on both sides. */
  lemma StrictWeakOrder(a: SemVer, b: SemVer, c: SemVer)
    ensures !Lower(a, a)
    ensures Lower(a, b) && Lower(b, c) ==> Lower(a, c)
    ensures !Lower(a, b) && !Lower(b, a) && !Lower(b, c) && !Lower(c, b) ==> !Lower(a, c) && !Lower(c, a)
    ensures SameRank(a, b) ==> (Lower(a, c) <==> Lower(b, c)) && (Lower(c, a) <==> Lower(c, b))
  {
    Trichotomy(a, b);
    Trichotomy(b, c);
    Trichotomy(a, a);
    Trichotomy(a, c);
    if Lower(a, b) && Lower(b, c) && a.pre != [] && b.pre != [] && c.pre != []
       && FieldsLess(a.pre, b.pre) && FieldsLess(b.pre, c.pre)
    {
      FieldsTransitive(a.pre, b.pre, c.pre);
    }
  }

  // --- what section 11 says ---------------------------------------------------

  /** Clauses 11.4.1 to 11.4.3: digits compare numerically, letters in byte order, digits come first. */
  ghost predicate Below(a: Ident, b: Ident)
  {
    match a
    case Num(m) => b.Alpha? || m < b.n
    case Alpha(s) => b.Alpha? && exists k :: Lex.RisesAt(s, b.text, k)
  }

  /** k is where b goes on (clause 11.4.4) or holds the higher identifier, after a common beginning. */
  ghost predicate RisesAt(a: seq<Ident>, b: seq<Ident>, k: nat)
  {
    k <= |a| && k < |b| && a[..k] == b[..k] && (k == |a| || Below(a[k], b[k]))
  }

  lemma {:induction false} FieldsAtFirstDifference(a: seq<Ident>, b: seq<Ident>)
    ensures FieldsLess(a, b) <==> exists k :: RisesAt(a, b, k)
  {
    if a != [] && b != [] {
      if a[0].Alpha? && b[0].Alpha? { Lex.LessAtFirstDifference(a[0].text, b[0].text); }
      assert IdentLess(a[0], b[0]) <==> Below(a[0], b[0]);
    }
    if a != [] && b != [] && a[0] == b[0] {
      FieldsTotal([a[0]], [a[0]]);
      FieldsAtFirstDifference(a[1..], b[1..]);
      if k: nat :| RisesAt(a[1..], b[1..], k) {
        assert a[..k + 1] == [a[0]] + a[1..][..k] && b[..k + 1] == [b[0]] + b[1..][..k];
        assert RisesAt(a, b, k + 1);
      }
      if k: nat :| RisesAt(a, b, k) {
        assert k > 0;
        assert a[1..][..k - 1] == a[..k][1..] && b[1..][..k - 1] == b[..k][1..];
        assert RisesAt(a[1..], b[1..], k - 1);
      }
    } else {
      if FieldsLess(a, b) { assert RisesAt(a, b, 0); }
      if k: nat :| RisesAt(a, b, k) { Lex.FirstOfPrefix(a, b, k); }
    }
  }

  /** Precedence in full: the first of major, minor and patch that differs decides; with all three equal
      a pre-release is lower than its release, and of two pre-releases the first difference decides. */
  lemma PrecedenceIsSection11(a: SemVer, b: SemVer)
    ensures Lower(a, b) <==>
      || a.major < b.major
      || (a.major == b.major && a.minor < b.minor)
      || (a.major == b.major && a.minor == b.minor && a.patch < b.patch)
      || (a.major == b.major && a.minor == b.minor && a.patch == b.patch && a.pre != []
          && (b.pre == [] || exists k :: RisesAt(a.pre, b.pre, k)))
  {
    FieldsAtFirstDifference(a.pre, b.pre);
  }

  /** A pre-release is lower than its release, and lower than itself with more identifiers. */
  lemma PreReleasesAreLower(v: SemVer, p: seq<Ident>, q: seq<Ident>)
    requires p != []
    ensures Lower(v.(pre := p), v.(pre := []))
    ensures q != [] ==> Lower(v.(pre := p), v.(pre := p + q))
  {
    PrecedenceIsSection11(v.(pre := p), v.(pre := []));
    PrecedenceIsSection11(v.(pre := p), v.(pre := p + q));
    if q != [] { assert RisesAt(p, p + q, |p|); }
  }

  /** After a common beginning, numbers rank by number and below words, whatever follows. */
  lemma NumbersRankByNumber(v: SemVer, p: seq<Ident>, m: nat, n: nat, word: string, x: seq<Ident>, y: seq<Ident>)
    requires m < n
    ensures Lower(v.(pre := p + [Num(m)] + x), v.(pre := p + [Num(n)] + y))
    ensures Lower(v.(pre := p + [Num(m)] + x), v.(pre := p + [Alpha(word)] + y))
  {
    var a, b, c := p + [Num(m)] + x, p + [Num(n)] + y, p + [Alpha(word)] + y;
    PrecedenceIsSection11(v.(pre := a), v.(pre := b));
    PrecedenceIsSection11(v.(pre := a), v.(pre := c));
    assert a[..|p|] == p && b[..|p|] == p && c[..|p|] == p;
    assert RisesAt(a, b, |p|) && RisesAt(a, c, |p|);
  }

  function OneZero(pre: seq<Ident>): SemVer { SemVer(1, 0, 0, pre, "") }

  /** The examples of clauses 11.2 and 11.4.4. */
  lemma ExamplesOfSection11()
    ensures Lower(OneZero([Alpha("alpha")]), OneZero([Alpha("alpha"), Num(1)]))
    ensures Lower(OneZero([Alpha("alpha"), Num(1)]), OneZero([Alpha("alpha"), Alpha("beta")]))
    ensures Lower(OneZero([Alpha("alpha"), Alpha("beta")]), OneZero([Alpha("beta")]))
    ensures Lower(OneZero([Alpha("beta")]), OneZero([Alpha("beta"), Num(2)]))
    ensures Lower(OneZero([Alpha("beta"), Num(2)]), OneZero([Alpha("beta"), Num(11)]))
    ensures Lower(OneZero([Alpha("beta"), Num(11)]), OneZero([Alpha("rc"), Num(1)]))
    ensures Lower(OneZero([Alpha("rc"), Num(1)]), OneZero([]))
    ensures Lower(OneZero([]), SemVer(2, 0, 0, [], "")) && Lower(SemVer(2, 0, 0, [], ""), SemVer(2, 1, 0, [], ""))
    ensures Lower(SemVer(2, 1, 0, [], ""), SemVer(2, 1, 1, [], ""))
  {
    var v, alpha, beta, rc := OneZero([]), Alpha("alpha"), Alpha("beta"), Alpha("rc");
    PreReleasesAreLower(v, [alpha], [Num(1)]);
    assert [alpha] + [Num(1)] == [alpha, Num(1)];
    NumbersRankByNumber(v, [alpha], 1, 2, "beta", [], []);
    assert [alpha] + [Num(1)] + [] == [alpha, Num(1)] && [alpha] + [beta] + [] == [alpha, beta];
    WordsRankByLetter(v, alpha, beta, [beta], []);
    PreReleasesAreLower(v, [beta], [Num(2)]);
    assert [beta] + [Num(2)] == [beta, Num(2)];
    NumbersRankByNumber(v, [beta], 2, 11, "", [], []);
    assert [beta] + [Num(2)] + [] == [beta, Num(2)] && [beta] + [Num(11)] + [] == [beta, Num(11)];
    WordsRankByLetter(v, beta, rc, [Num(11)], [Num(1)]);
    PreReleasesAreLower(v, [rc, Num(1)], []);
    assert [alpha] + [beta] == [alpha, beta] && [beta] + [] == [beta];
    assert [beta] + [Num(11)] == [beta, Num(11)] && [rc] + [Num(1)] == [rc, Num(1)];
  }

  lemma WordsRankByLetter(v: SemVer, s: Ident, t: Ident, x: seq<Ident>, y: seq<Ident>)
    requires s.Alpha? && t.Alpha? && s.text != [] && t.text != [] && s.text[0] < t.text[0]
    ensures Lower(v.(pre := [s] + x), v.(pre := [t] + y))
  {
    PrecedenceIsSection11(v.(pre := [s] + x), v.(pre := [t] + y));
    assert Lex.RisesAt(s.text, t.text, 0);
    assert RisesAt([s] + x, [t] + y, 0);
  }
}

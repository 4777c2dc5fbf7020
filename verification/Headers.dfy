/** The two request headers the catalogue endpoint reads: If-None-Match and Authorization. */
module Headers {

  /** White space as Unicode has it. */
  predicate Space(c: char)
  {
    || 9 <= c as int <= 13 || c == ' ' || c as int == 0x85 || c as int == 0xA0 || c as int == 0x1680
    || 0x2000 <= c as int <= 0x200A || c as int == 0x2028 || c as int == 0x2029
    || c as int == 0x202F || c as int == 0x205F || c as int == 0x3000
  }

  predicate Blank(s: string) { forall c :: c in s ==> Space(c) }

  function TrimLeft(s: string): string
  {
    if s != [] && Space(s[0]) then TrimLeft(s[1..]) else s
  }

  function TrimRight(s: string): string
  {
    if s != [] && Space(s[|s| - 1]) then TrimRight(s[..|s| - 1]) else s
  }

  function Trim(s: string): string { TrimRight(TrimLeft(s)) }

  /** Starts and ends with something other than white space. */
  predicate Tight(s: string) { s != [] && !Space(s[0]) && !Space(s[|s| - 1]) }

  lemma {:induction false} TrimPadded(before: string, core: string, after: string)
    requires Blank(before) && Blank(after) && Tight(core)
    ensures Trim(before + core + after) == core
    decreases |before| + |after|
  {
    if before != [] {
      assert (before + core + after)[1..] == before[1..] + core + after;
      TrimPadded(before[1..], core, after);
    } else if after != [] {
      var s := before + core + after;
      assert s == core + after;
      assert s[..|s| - 1] == before + core + after[..|after| - 1];
      assert s[|s| - 1] in after;
      TrimPadded(before, core, after[..|after| - 1]);
      assert TrimLeft(s) == s && TrimLeft(s[..|s| - 1]) == s[..|s| - 1];
    } else {
      assert before + core + after == core;
    }
  }

  // --- Authorization ----------------------------------------------------------

  function Lower(c: char): char
  {
    if 'A' <= c <= 'Z' then (c as int + 32) as char else c
  }

  predicate EqualFold(s: string, t: string)
  {
    |s| == |t| && forall i :: 0 <= i < |s| ==> Lower(s[i]) == Lower(t[i])
  }

  const BEARER := "Bearer "

  function BearerToken(header: string): string
  {
    if |header| <= |BEARER| || !EqualFold(header[..|BEARER|], BEARER) then "" else Trim(header[|BEARER|..])
  }

  /** A header of the Bearer scheme, in any case and however padded, carries exactly its token;
      a header of any other scheme carries none. */
  lemma BearerCarriesItsToken(scheme: string, before: string, token: string, after: string, other: string)
    requires EqualFold(scheme, BEARER) && Blank(before) && Tight(token) && Blank(after)
    ensures BearerToken(scheme + before + token + after) == token
    ensures BearerToken(other) != "" ==> |other| > |BEARER| && EqualFold(other[..|BEARER|], BEARER)
  {
    var header := scheme + before + token + after;
    assert header[..|BEARER|] == scheme;
    assert header[|BEARER|..] == before + token + after;
    TrimPadded(before, token, after);
  }

  /** The scheme, letter by letter. */
  predicate SaysBearer(header: string)
  {
    && |header| > 7 && header[0] in {'B', 'b'} && header[1] in {'E', 'e'} && header[2] in {'A', 'a'} && header[3] in {'R', 'r'}
    && header[4] in {'E', 'e'} && header[5] in {'R', 'r'} && header[6] == ' '
  }

  /** Which headers carry a token, and which: one of the scheme Bearer, whose rest is the token between
      blanks and tabs. The token itself is printable ASCII. */
  lemma BearerHeaders(header: string, before: string, token: string, after: string)
    ensures !SaysBearer(header) ==> BearerToken(header) == ""
    ensures SaysBearer(header) && header[7..] == before + token + after && Padding(before) && Padding(after)
              && token != "" && (forall c :: c in token ==> '!' <= c <= '~')
            ==> BearerToken(header) == token
  {
    if |header| > 7 { LettersOfBearer(header); }
    if SaysBearer(header) && header[7..] == before + token + after && Padding(before) && Padding(after)
       && token != "" && forall c :: c in token ==> '!' <= c <= '~'
    {
      assert token[0] in token && token[|token| - 1] in token;
      TrimPadded(before, token, after);
    }
  }

  predicate Padding(s: string) { forall c :: c in s ==> c == ' ' || c == '\t' }

  lemma LettersOfBearer(header: string)
    requires |header| > 7
    ensures EqualFold(header[..7], BEARER) <==> SaysBearer(header)
  {
    var h := header[..7];
    assert BEARER[0] == 'B' && BEARER[1] == 'e' && BEARER[2] == 'a' && BEARER[3] == 'r' && BEARER[4] == 'e' && BEARER[5] == 'r' && BEARER[6] == ' ';
    assert EqualFold(h, BEARER) <==> (Lower(h[0]) == 'b' && Lower(h[1]) == 'e' && Lower(h[2]) == 'a' && Lower(h[3]) == 'r'
                                      && Lower(h[4]) == 'e' && Lower(h[5]) == 'r' && Lower(h[6]) == ' ');
  }

  // --- If-None-Match ----------------------------------------------------------

  function Split(s: string): (r: seq<string>)
    ensures |r| > 0
  {
    if s == [] then [[]]
    else
      var rest := Split(s[1..]);
      if s[0] == ',' then [[]] + rest else [[s[0]] + rest[0]] + rest[1..]
  }

  function TrimPrefix(s: string, prefix: string): string
  {
    if prefix <= s then s[|prefix|..] else s
  }

  predicate Accepts(candidate: string, etag: string)
  {
    candidate == "*" || candidate == etag || TrimPrefix(candidate, "W/") == etag
  }

  predicate AnyAccepted(pieces: seq<string>, etag: string)
  {
    exists i :: 0 <= i < |pieces| && Accepts(Trim(pieces[i]), etag)
  }

  predicate Matches(header: string, etag: string) { AnyAccepted(Split(header), etag) }

  method EtagMatches(header: string, etag: string) returns (matched: bool)
    ensures matched <==> Matches(header, etag)
  {
    var candidates := Split(header);
    for i := 0 to |candidates|
      invariant forall j :: 0 <= j < i ==> !Accepts(Trim(candidates[j]), etag)
    {
      var candidate := Trim(candidates[i]);
      if candidate == "*" || candidate == etag || TrimPrefix(candidate, "W/") == etag {
        return true;
      }
    }
    return false;
  }

  /** An entity tag of section 8.8.3 of RFC 9110: the text between the quotes holds neither a
      quote nor white space, but may hold commas. */
  datatype Tag = Tag(weak: bool, text: string)

  predicate ValidTag(tag: Tag) { forall c :: c in tag.text ==> c != '"' && !Space(c) }

  function TagText(tag: Tag): string
  {
    (if tag.weak then "W/" else "") + "\"" + tag.text + "\""
  }

  /** One member of the list, with optional white space around it. */
  datatype Item = Item(before: string, tag: Tag, after: string)

  predicate ValidItem(i: Item) { Blank(i.before) && ValidTag(i.tag) && Blank(i.after) }

  function ItemText(i: Item): string { i.before + TagText(i.tag) + i.after }

  function Print(items: seq<Item>): string
    requires items != []
  {
    if |items| == 1 then ItemText(items[0]) else ItemText(items[0]) + "," + Print(items[1..])
  }

  /** A comma-separated inner part of the tag is a bare asterisk, as in "a,*,b". */
  predicate StarInside(text: string) { StarBeforeLast(Split(text)[1..]) }

  predicate StarBeforeLast(pieces: seq<string>)
  {
    exists j :: 0 <= j < |pieces| - 1 && pieces[j] == "*"
  }

  lemma StarShift(head: string, pieces: seq<string>)
    requires pieces != []
    ensures StarBeforeLast([head] + pieces) <==> head == "*" || StarBeforeLast(pieces)
  {
    var all := [head] + pieces;
    if j :| 0 <= j < |pieces| - 1 && pieces[j] == "*" { assert all[j + 1] == "*"; }
    if j :| 0 <= j < |all| - 1 && all[j] == "*" {
      if j > 0 { assert pieces[j - 1] == "*"; }
    }
    if head == "*" { assert all[0] == "*"; }
  }

  /** What the list says: the tag is the current one under weak comparison. */
  predicate Names(items: seq<Item>, current: Tag)
  {
    exists i :: 0 <= i < |items| && items[i].tag.text == current.text
  }

  lemma {:induction false} SplitAtComma(a: string, b: string)
    ensures Split(a + "," + b) == Split(a) + Split(b)
  {
    var s := a + "," + b;
    if a == [] {
      assert s[1..] == b;
    } else {
      assert s[0] == a[0] && s[1..] == a[1..] + "," + b;
      SplitAtComma(a[1..], b);
    }
  }

  lemma MatchesEither(a: string, b: string, etag: string)
    ensures Matches(a + "," + b, etag) <==> Matches(a, etag) || Matches(b, etag)
  {
    SplitAtComma(a, b);
    assert Split(a + "," + b) == Split(a) + Split(b);
    AcceptsEither(Split(a), Split(b), etag);
  }

  lemma AcceptsEither(p: seq<string>, q: seq<string>, etag: string)
    ensures AnyAccepted(p + q, etag) <==> AnyAccepted(p, etag) || AnyAccepted(q, etag)
  {
    var r := p + q;
    if i :| 0 <= i < |r| && Accepts(Trim(r[i]), etag) {
      if i < |p| { assert Accepts(Trim(p[i]), etag); } else { assert Accepts(Trim(q[i - |p|]), etag); }
    }
    if i :| 0 <= i < |p| && Accepts(Trim(p[i]), etag) { assert Accepts(Trim(r[i]), etag); }
    if i :| 0 <= i < |q| && Accepts(Trim(q[i]), etag) { assert Accepts(Trim(r[|p| + i]), etag); }
  }

  lemma {:induction false} NoCommaOnePiece(text: string)
    requires ',' !in text
    ensures Split(text) == [text]
  {
    if text != [] {
      NoCommaOnePiece(text[1..]);
      assert text == [text[0]] + text[1..];
    }
  }

  lemma OnePieceMatches(before: string, core: string, after: string, etag: string)
    requires Blank(before) && Blank(after) && Tight(core) && ',' !in core
    ensures Matches(before + core + after, etag) <==> Accepts(core, etag)
  {
    var s := before + core + after;
    NoCommaOnePiece(s);
    TrimPadded(before, core, after);
    assert Split(s)[0] == s;
  }

  /** The text up to the first comma, and the rest. */
  lemma {:induction false} FirstComma(text: string) returns (head: string, rest: string)
    requires ',' in text
    ensures text == head + "," + rest && ',' !in head && Split(text) == [head] + Split(rest)
  {
    if text[0] == ',' {
      head, rest := [], text[1..];
    } else {
      head, rest := FirstComma(text[1..]);
      head := [text[0]] + head;
    }
    SplitAtComma(head, rest);
    NoCommaOnePiece(head);
  }

  /** A piece whose only quote ends it, or opens it after an optional W/, is no quoted tag. */
  lemma HalfQuotedRefused(inner: string, etag: string)
    requires '"' !in inner && |etag| >= 2 && etag[0] == '"' && etag[|etag| - 1] == '"'
    ensures !Accepts(inner + "\"", etag) && !Accepts("\"" + inner, etag) && !Accepts("W/\"" + inner, etag)
    ensures Accepts(inner, etag) <==> inner == "*"
  {
    var closed, strong, weak := inner + "\"", "\"" + inner, "W/\"" + inner;
    assert closed[|closed| - 1] == '"' && strong[0] == '"' && weak[0] == 'W';
    assert TrimPrefix(weak, "W/") == strong;
    assert forall i :: 0 <= i < |inner| ==> inner[i] in inner && inner[i] != '"';
    assert strong[|strong| - 1] == '"' ==> inner == [];
    assert closed[0] == '"' ==> inner == [];
    assert TrimPrefix(closed, "W/") == (if "W/" <= closed then closed[2..] else closed);
    assert "W/" <= closed && |closed| > 3 ==> closed[2] == inner[2];
  }

  /** After the opening piece only a bare asterisk between commas can match. */
  lemma {:induction false} TailMatches(rest: string, after: string, etag: string)
    requires forall c :: c in rest ==> c != '"' && !Space(c)
    requires Blank(after) && |etag| >= 2 && etag[0] == '"' && etag[|etag| - 1] == '"'
    ensures Matches(rest + "\"" + after, etag) <==> StarBeforeLast(Split(rest))
    decreases |rest|
  {
    if ',' in rest {
      var head, tail := FirstComma(rest);
      PartsOf(rest, head, tail);
      assert rest + "\"" + after == head + "," + (tail + "\"" + after);
      MatchesEither(head, tail + "\"" + after, etag);
      TailMatches(tail, after, etag);
      InnerPieceMatches(head, etag);
      StarShift(head, Split(tail));
    } else {
      ClosingPieceRefused(rest, after, etag);
    }
  }

  lemma ClosingPieceRefused(rest: string, after: string, etag: string)
    requires forall c :: c in rest ==> c != '"' && c != ',' && !Space(c)
    requires Blank(after) && |etag| >= 2 && etag[0] == '"' && etag[|etag| - 1] == '"'
    ensures !Matches(rest + "\"" + after, etag) && !StarBeforeLast(Split(rest))
  {
    NoCommaOnePiece(rest);
    HalfQuotedRefused(rest, etag);
    OnePieceMatches("", rest + "\"", after, etag);
    assert "" + (rest + "\"") + after == rest + "\"" + after;
  }

  lemma InnerPieceMatches(piece: string, etag: string)
    requires forall c :: c in piece ==> c != '"' && c != ',' && !Space(c)
    requires |etag| >= 2 && etag[0] == '"' && etag[|etag| - 1] == '"'
    ensures Matches(piece, etag) <==> piece == "*"
  {
    NoCommaOnePiece(piece);
    HalfQuotedRefused(piece, etag);
    TightOrEmpty(piece);
    assert Split(piece)[0] == piece;
  }

  lemma TightOrEmpty(s: string)
    requires forall c :: c in s ==> !Space(c)
    ensures Trim(s) == s
  {
  }

  lemma ItemMatches(i: Item, current: Tag)
    requires ValidItem(i) && ValidTag(current) && !current.weak && ',' !in current.text
    ensures Matches(ItemText(i), TagText(current)) <==> i.tag.text == current.text || StarInside(i.tag.text)
  {
    if ',' in i.tag.text { CommaItemMatches(i, TagText(current)); } else { PlainItemMatches(i, current); }
  }

  /** Everything before an item's first comma matches nothing: its one quote opens it. */
  lemma OpeningPieceRefused(before: string, opening: string, head: string, etag: string)
    requires Blank(before) && (opening == "\"" || opening == "W/\"")
    requires forall c :: c in head ==> c != '"' && c != ',' && !Space(c)
    requires |etag| >= 2 && etag[0] == '"' && etag[|etag| - 1] == '"'
    ensures !Matches(before + (opening + head), etag)
  {
    var core := opening + head;
    assert Tight(core) by { assert head != [] ==> core[|core| - 1] == head[|head| - 1]; }
    assert ',' !in core;
    HalfQuotedRefused(head, etag);
    OnePieceMatches(before, core, "", etag);
    assert before + core + "" == before + core;
  }

  function Opening(weak: bool): string { if weak then "W/\"" else "\"" }

  lemma CommaItemSplits(i: Item, head: string, rest: string)
    requires i.tag.text == head + "," + rest
    ensures ItemText(i) == i.before + (Opening(i.tag.weak) + head) + "," + (rest + "\"" + i.after)
  {
  }

  lemma PartsOf(text: string, head: string, rest: string)
    requires text == head + "," + rest && forall c :: c in text ==> c != '"' && !Space(c)
    ensures forall c :: c in head || c in rest ==> c != '"' && !Space(c)
  {
    assert forall c :: c in head || c in rest ==> c in text;
  }

  lemma CommaItemMatches(i: Item, etag: string)
    requires ValidItem(i) && ',' in i.tag.text && |etag| >= 2 && etag[0] == '"' && etag[|etag| - 1] == '"'
    ensures Matches(ItemText(i), etag) <==> StarInside(i.tag.text)
  {
    var head, rest := FirstComma(i.tag.text);
    CommaItemSplits(i, head, rest);
    PartsOf(i.tag.text, head, rest);
    MatchesEither(i.before + (Opening(i.tag.weak) + head), rest + "\"" + i.after, etag);
    OpeningPieceRefused(i.before, Opening(i.tag.weak), head, etag);
    TailMatches(rest, i.after, etag);
    assert Split(i.tag.text)[1..] == Split(rest);
  }

  lemma PlainItemMatches(i: Item, current: Tag)
    requires ValidItem(i) && ',' !in i.tag.text && ValidTag(current) && !current.weak && ',' !in current.text
    ensures Matches(ItemText(i), TagText(current)) <==> i.tag.text == current.text
    ensures !StarInside(i.tag.text)
  {
    NoCommaOnePiece(i.tag.text);
    TagsCompareWeakly(i.tag, current);
    OnePieceMatches(i.before, TagText(i.tag), i.after, TagText(current));
  }

  lemma TagsCompareWeakly(tag: Tag, current: Tag)
    requires !current.weak
    ensures Accepts(TagText(tag), TagText(current)) <==> tag.text == current.text
  {
    var quoted := "\"" + tag.text + "\"";
    assert TrimPrefix(TagText(tag), "W/") == quoted by {
      assert tag.weak ==> TagText(tag) == "W/" + quoted;
      assert !tag.weak ==> TagText(tag) == quoted && quoted[0] != 'W';
    }
    var want := "\"" + current.text + "\"";
    assert TagText(current) == want && TagText(tag)[0] != '*';
    assert quoted == want <==> tag.text == current.text by {
      assert quoted[1..|tag.text| + 1] == tag.text && want[1..|current.text| + 1] == current.text;
    }
    assert TagText(tag) == want ==> TagText(tag)[0] == '"';
  }

  /** The law of If-None-Match: printed as a comma-separated list with optional white space, any
      list of entity tags matches exactly when one of them is the current tag under weak comparison
      (sections 8.8.3.2 and 13.1.2 of RFC 9110) — or some tag has an asterisk alone between two
      of its own commas, which splitting at commas mistakes for the wildcard. */
  lemma {:induction false} EtagListMatches(items: seq<Item>, current: Tag)
    requires items != [] && forall i :: 0 <= i < |items| ==> ValidItem(items[i])
    requires ValidTag(current) && !current.weak && ',' !in current.text
    ensures Matches(Print(items), TagText(current)) <==>
              Names(items, current) || exists i :: 0 <= i < |items| && StarInside(items[i].tag.text)
    decreases |items|
  {
    ItemMatches(items[0], current);
    if |items| > 1 {
      var rest := items[1..];
      EtagListMatches(rest, current);
      MatchesEither(ItemText(items[0]), Print(rest), TagText(current));
      FirstOrRest(items, current);
    }
  }

  lemma FirstOrRest(items: seq<Item>, current: Tag)
    requires items != []
    ensures Names(items, current) <==> items[0].tag.text == current.text || Names(items[1..], current)
    ensures (exists i :: 0 <= i < |items| && StarInside(items[i].tag.text)) <==>
              StarInside(items[0].tag.text) || exists i :: 0 <= i < |items[1..]| && StarInside(items[1..][i].tag.text)
  {
    var rest := items[1..];
    assert forall i :: 0 <= i < |rest| ==> items[i + 1] == rest[i];
    if i :| 0 <= i < |items| && items[i].tag.text == current.text {
      if i > 0 { assert rest[i - 1].tag.text == current.text; }
    }
    if i :| 0 <= i < |items| && StarInside(items[i].tag.text) {
      if i > 0 { assert StarInside(rest[i - 1].tag.text); }
    }
  }

  /** A list of tags without commas, and a strong tag without one. */
  predicate CommaFree(items: seq<Item>, current: Tag)
  {
    && items != [] && (forall i :: 0 <= i < |items| ==> ValidItem(items[i]) && ',' !in items[i].tag.text)
    && ValidTag(current) && !current.weak && ',' !in current.text
  }

  lemma PrintedIsNotEmpty(items: seq<Item>)
    requires items != []
    ensures Print(items) != ""
  {
    assert |TagText(items[0].tag)| >= 2;
  }

  /** For tags without commas the match is exact. */
  lemma CommaFreeListsMatchExactly(items: seq<Item>, current: Tag)
    requires CommaFree(items, current)
    ensures Matches(Print(items), TagText(current)) <==> Names(items, current)
  {
    EtagListMatches(items, current);
    forall i | 0 <= i < |items| ensures !StarInside(items[i].tag.text) {
      NoCommaOnePiece(items[i].tag.text);
    }
  }

  /** A bare asterisk anywhere in the list always matches. */
  lemma AsteriskMatches(before: string, after: string, others: string, etag: string)
    requires Blank(before) && Blank(after)
    ensures Matches(before + "*" + after, etag)
    ensures Matches(others + "," + (before + "*" + after), etag) && Matches(before + "*" + after + "," + others, etag)
  {
    OnePieceMatches(before, "*", after, etag);
    MatchesEither(others, before + "*" + after, etag);
    MatchesEither(before + "*" + after, others, etag);
  }

  /** The exception is real: a list holding only the tag "a,*,b" matches any other current tag. */
  lemma AsteriskInsideATagMatches(current: Tag)
    requires ValidTag(current) && !current.weak && ',' !in current.text
    ensures var items := [Item("", Tag(false, "a,*,b"), "")];
            ValidItem(items[0]) && !Names(items, current) && Matches(Print(items), TagText(current))
  {
    var items := [Item("", Tag(false, "a,*,b"), "")];
    SplitExample();
    assert items[0].tag.text[1] == ',';
    EtagListMatches(items, current);
  }

  lemma SplitExample()
    ensures StarInside("a,*,b")
  {
    assert "a,*,b" == "a" + "," + ("*" + "," + "b");
    SplitAtComma("a", "*" + "," + "b");
    SplitAtComma("*", "b");
    NoCommaOnePiece("a");
    NoCommaOnePiece("*");
    NoCommaOnePiece("b");
    assert Split("a,*,b")[1..] == ["*", "b"];
    assert Split("a,*,b")[1..][0] == "*";
  }
}

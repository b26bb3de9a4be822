/** The index scanner that lifts a statement's WHERE clause from its text (packages/devtools/src/statements.ts),
    against tokens: comments, quoted text, words and single characters. */
module WhereScanner {
  import opened Wrappers

  const LF: char := '\n'

  predicate Quote(c: char) { c == '\'' || c == '"' }

  predicate WordStart(c: char) { 'A' <= c <= 'Z' || 'a' <= c <= 'z' || c == '_' }

  predicate WordPart(c: char) { WordStart(c) || '0' <= c <= '9' || c == '$' }

  function UpperChar(c: char): char { if 'a' <= c <= 'z' then c - 32 as char else c }

  function Upper(s: string): string { seq(|s|, i requires 0 <= i < |s| => UpperChar(s[i])) }

  /** A text is the keyword in capitals exactly when it spells it, each letter large or small. */
  lemma UpperSpells(s: string, keyword: string)
    requires forall i :: 0 <= i < |keyword| ==> 'A' <= keyword[i] <= 'Z'
    ensures Upper(s) == keyword <==>
      |s| == |keyword|
      && forall i :: 0 <= i < |s| ==> s[i] == keyword[i] || s[i] as int == keyword[i] as int - 'A' as int + 'a' as int
  {
    if Upper(s) == keyword { assert forall i :: 0 <= i < |s| ==> UpperChar(s[i]) == keyword[i]; }
  }

  // ── Tokens ───────────────────────────────────────────────────────────────────────────────────

  datatype Kind = Line | Block | Quoted | Word | Mark

  datatype Token = Token(kind: Kind, text: string)

  predicate Pair(s: string, i: nat, a: char, b: char) { i + 1 < |s| && s[i] == a && s[i + 1] == b }

  predicate WordText(t: string) { t != "" && WordStart(t[0]) && forall i :: 0 <= i < |t| ==> WordPart(t[i]) }

  /** What follows an opening `q`: doubled quotes inside, then a single one, or the end of the text. */
  predicate QuotedTail(u: string, q: char, rest: string) {
    if u == "" then rest == ""
    else if u[0] != q then QuotedTail(u[1..], q, rest)
    else if |u| == 1 then rest == "" || rest[0] != q
    else u[1] == q && QuotedTail(u[2..], q, rest)
  }

  /** `t` is one whole token when `rest` follows it. */
  predicate IsToken(t: Token, rest: string) {
    var s := t.text;
    match t.kind
    case Line => Pair(s, 0, '-', '-') && LF !in s[..|s| - 1] && (s[|s| - 1] == LF || rest == "")
    case Block =>
      Pair(s, 0, '/', '*') && (forall i :: 2 <= i < |s| - 2 ==> !Pair(s, i, '*', '/'))
      && (rest == "" || (|s| >= 4 && Pair(s, |s| - 2, '*', '/')))
    case Quoted => s != "" && Quote(s[0]) && QuotedTail(s[1..], s[0], rest)
    case Word => WordText(s) && (rest == "" || !WordPart(rest[0]))
    case Mark =>
      |s| == 1 && !Quote(s[0]) && !WordStart(s[0])
      && !Pair(s + rest, 0, '-', '-') && !Pair(s + rest, 0, '/', '*')
  }

  function Text(tokens: seq<Token>): string { if tokens == [] then "" else tokens[0].text + Text(tokens[1..]) }

  predicate Lexed(tokens: seq<Token>, s: string)
    decreases |tokens|
  {
    if tokens == [] then s == ""
    else tokens[0].text <= s && IsToken(tokens[0], s[|tokens[0].text|..]) && Lexed(tokens[1..], s[|tokens[0].text|..])
  }

  /** A text starts with one token only. */
  lemma TokenUnique(a: Token, b: Token, s: string)
    requires a.text <= s && b.text <= s && IsToken(a, s[|a.text|..]) && IsToken(b, s[|b.text|..])
    ensures a == b
  {
    SameKind(a, b, s);
    if |a.text| <= |b.text| { Shortest(a, b, s); } else { Shortest(b, a, s); }
  }

  lemma SameKind(a: Token, b: Token, s: string)
    requires a.text <= s && b.text <= s && IsToken(a, s[|a.text|..]) && IsToken(b, s[|b.text|..])
    ensures a.kind == b.kind
  {
    Opening(a, s);
    Opening(b, s);
  }

  /** The first one or two characters decide the kind. */
  function KindAt(s: string): Kind
    requires s != ""
  {
    if Pair(s, 0, '-', '-') then Line
    else if Pair(s, 0, '/', '*') then Block
    else if Quote(s[0]) then Quoted
    else if WordStart(s[0]) then Word
    else Mark
  }

  lemma Opening(t: Token, s: string)
    requires t.text <= s && IsToken(t, s[|t.text|..])
    ensures s != "" && t.text != "" && t.kind == KindAt(s)
  {
    assert t.text + s[|t.text|..] == s;
  }

  lemma Shortest(a: Token, b: Token, s: string)
    requires a.text <= b.text <= s && a.kind == b.kind && IsToken(a, s[|a.text|..]) && IsToken(b, s[|b.text|..])
    ensures a == b
  {
    var m, n := |a.text|, |b.text|;
    if m < n {
      Opening(a, s);
      assert s[m..][0] == s[m] == b.text[m];
      assert a.text[m - 1] == b.text[m - 1] == b.text[..n - 1][m - 1];
      assert m >= 4 ==> Pair(b.text, m - 2, '*', '/') == Pair(a.text, m - 2, '*', '/');
      if a.kind.Quoted? {
        QuotedShortest(a.text[1..], b.text[1..], s[1..], s[0]);
      }
    }
  }

  lemma {:induction false} QuotedShortest(u: string, v: string, s: string, q: char)
    requires u <= v <= s && |u| < |v|
    requires QuotedTail(u, q, s[|u|..])
    ensures !QuotedTail(v, q, s[|v|..])
  {
    if u != "" {
      if u[0] != q {
        QuotedShortest(u[1..], v[1..], s[1..], q);
      } else if |u| >= 2 {
        QuotedShortest(u[2..], v[2..], s[2..], q);
      } else {
        assert s[1] == v[1];
      }
    }
  }

  /** A text has at most one division into tokens. */
  lemma {:induction false} LexedOnce(a: seq<Token>, b: seq<Token>, s: string)
    requires Lexed(a, s) && Lexed(b, s)
    ensures a == b
    decreases |a|
  {
    if a == [] {
      if b != [] { Opening(b[0], s); }
    } else {
      Opening(a[0], s);
      TokenUnique(a[0], b[0], s);
      LexedOnce(a[1..], b[1..], s[|a[0].text|..]);
    }
  }

  // ── Every text has a division into tokens ────────────────────────────────────────────────────

  /** The end of a comment: after the first line feed or star-slash from `i` on, or the end of the text. */
  function LineEnd(s: string, i: nat): (n: nat)
    requires i <= |s|
    ensures i <= n <= |s| && LF !in s[i..if n > i then n - 1 else i] && (n == |s| || (n > i && s[n - 1] == LF))
    decreases |s| - i
  {
    if i == |s| then i else if s[i] == LF then i + 1
    else var n := LineEnd(s, i + 1);
      assert n > i + 1 ==> s[i..n - 1] == [s[i]] + s[i + 1..n - 1];
      n
  }

  function BlockEnd(s: string, i: nat): (n: nat)
    requires i <= |s|
    ensures i <= n <= |s| && (forall j :: i <= j < n - 2 ==> !Pair(s, j, '*', '/'))
    ensures n == |s| || (n >= i + 2 && Pair(s, n - 2, '*', '/'))
    decreases |s| - i
  {
    if i == |s| then i else if Pair(s, i, '*', '/') then i + 2 else BlockEnd(s, i + 1)
  }

  ghost function QuoteEnd(s: string, q: char): (n: nat)
    ensures n <= |s| && QuotedTail(s[..n], q, s[n..])
  {
    if s == "" then 0
    else if s[0] != q then
      var n := QuoteEnd(s[1..], q);
      assert s[..n + 1][1..] == s[1..][..n] && s[n + 1..] == s[1..][n..];
      n + 1
    else if |s| > 1 && s[1] == q then
      var n := QuoteEnd(s[2..], q);
      assert s[..n + 2][2..] == s[2..][..n] && s[n + 2..] == s[2..][n..];
      n + 2
    else 1
  }

  ghost function WordEnd(s: string, i: nat): (n: nat)
    requires i <= |s|
    ensures i <= n <= |s| && (forall j :: i <= j < n ==> WordPart(s[j])) && (n == |s| || !WordPart(s[n]))
    decreases |s| - i
  {
    if i == |s| || !WordPart(s[i]) then i else WordEnd(s, i + 1)
  }

  ghost function FirstEnd(s: string): (n: nat)
    requires s != ""
    ensures 0 < n <= |s|
  {
    match KindAt(s)
    case Line => LineEnd(s, 0)
    case Block => BlockEnd(s, 2)
    case Quoted => 1 + QuoteEnd(s[1..], s[0])
    case Word => WordEnd(s, 1)
    case Mark => 1
  }

  lemma FirstEnds(s: string)
    requires s != ""
    ensures IsToken(Token(KindAt(s), s[..FirstEnd(s)]), s[FirstEnd(s)..])
  {
    var n := FirstEnd(s);
    match KindAt(s)
    case Line => assert s[..n][..n - 1] == s[0..n - 1];
    case Block => assert forall j :: 2 <= j < n - 2 ==> Pair(s[..n], j, '*', '/') == Pair(s, j, '*', '/');
    case Quoted => assert s[1..][..n - 1] == s[..n][1..] && s[1..][n - 1..] == s[n..];
    case Word =>
    case Mark => assert s[..n] + s[n..] == s;
  }

  ghost function FirstToken(s: string): (t: Token)
    requires s != ""
    ensures t.text != "" && t.text <= s && IsToken(t, s[|t.text|..])
  {
    FirstEnds(s);
    Token(KindAt(s), s[..FirstEnd(s)])
  }

  ghost function Lex(s: string): (tokens: seq<Token>)
    ensures Lexed(tokens, s)
  {
    if s == "" then [] else [FirstToken(s)] + Lex(s[|FirstToken(s).text|..])
  }

  // ── The clause, in terms of tokens ───────────────────────────────────────────────────────────

  function Turn(t: Token): int {
    if t == Token(Mark, "(") then 1 else if t == Token(Mark, ")") then -1 else 0
  }

  /** Parentheses opened less parentheses closed; more closing than opening makes it negative. */
  function Depth(tokens: seq<Token>): int {
    if tokens == [] then 0 else Depth(tokens[..|tokens| - 1]) + Turn(tokens[|tokens| - 1])
  }

  /** Token `i` is the word itself, outside every parenthesis. */
  predicate Found(tokens: seq<Token>, i: nat, word: string)
    requires i < |tokens|
  {
    tokens[i].kind == Word && Upper(tokens[i].text) == word && Depth(tokens[..i]) == 0
  }

  /** The first place from `from` on where the word is found, or the end. */
  function FirstOf(tokens: seq<Token>, from: nat, word: string): (n: nat)
    requires from <= |tokens|
    ensures from <= n <= |tokens| && (n < |tokens| ==> Found(tokens, n, word))
    ensures forall i :: from <= i < n ==> !Found(tokens, i, word)
    decreases |tokens| - from
  {
    if from == |tokens| || Found(tokens, from, word) then from else FirstOf(tokens, from + 1, word)
  }

  /** White space as a regular expression's \s and String.trim read it. */
  predicate Space(c: char) {
    '\t' <= c <= '\r' || c in " \U{A0}\U{1680}\U{2028}\U{2029}\U{202F}\U{205F}\U{3000}\U{FEFF}"
        || '\U{2000}' <= c <= '\U{200A}'
  }

  predicate Loose(c: char) { Space(c) || c == ';' }

  /** `text[i..j]` is what trimming leaves: no space in front, no space or semicolon at the end. */
  predicate Kept(text: string, i: nat, j: nat) {
    i < j <= |text| && !Space(text[i]) && !Loose(text[j - 1])
    && (forall k :: 0 <= k < i ==> Space(text[k])) && (forall k :: j <= k < |text| ==> Loose(text[k]))
  }

  function TrimEnd(text: string): string {
    if text != "" && Loose(text[|text| - 1]) then TrimEnd(text[..|text| - 1]) else text
  }

  function TrimStart(text: string): string {
    if text != "" && Space(text[0]) then TrimStart(text[1..]) else text
  }

  function Clause(text: string): Option<string> {
    var trimmed := TrimStart(TrimEnd(text));
    if trimmed == "" then None else Some(trimmed)
  }

  lemma {:induction false} TrimEndKeeps(text: string)
    ensures var t := TrimEnd(text);
            t <= text && (t == "" || !Loose(t[|t| - 1])) && forall k :: |t| <= k < |text| ==> Loose(text[k])
  {
    if text != "" && Loose(text[|text| - 1]) { TrimEndKeeps(text[..|text| - 1]); }
  }

  lemma {:induction false} TrimStartKeeps(text: string) returns (i: nat)
    ensures i <= |text| && TrimStart(text) == text[i..] && (i < |text| ==> !Space(text[i]))
    ensures forall k :: 0 <= k < i ==> Space(text[k])
  {
    i := 0;
    if text != "" && Space(text[0]) {
      i := TrimStartKeeps(text[1..]);
      i := i + 1;
    }
  }

  /** Trimming keeps exactly the span between the outermost characters that count, if there are any. */
  lemma ClauseKeeps(text: string)
    ensures Clause(text).None? <==> forall k :: 0 <= k < |text| ==> Loose(text[k])
    ensures Clause(text).Some? ==> exists i: nat, j: nat :: Kept(text, i, j) && Clause(text).value == text[i..j]
  {
    var t := TrimEnd(text);
    TrimEndKeeps(text);
    var i := TrimStartKeeps(t);
    assert t != "" ==> !Space(t[|t| - 1]);
    if i < |t| { assert Kept(text, i, |t|) && t[i..] == text[i..|t|]; }
  }

  function ClauseOf(tokens: seq<Token>): Option<string> {
    var w := FirstOf(tokens, 0, "WHERE");
    if w == |tokens| then None
    else Clause(Text(tokens[w + 1..FirstOf(tokens, w + 1, "RETURNING")]))
  }

  // ── The scanner ──────────────────────────────────────────────────────────────────────────────

  /** Where the clause starts, once its WHERE is among the tokens and no RETURNING after it. */
  ghost predicate StartsAt(done: seq<Token>, start: Option<nat>) {
    var w := FirstOf(done, 0, "WHERE");
    if w == |done| then start == None
    else start == Some(|Text(done[..w + 1])|) && FirstOf(done, w + 1, "RETURNING") == |done|
  }

  /** The scanner has read `done`, up to `pos`, and holds the right depth and start. */
  ghost predicate Scanned(s: string, done: seq<Token>, pos: nat, depth: int, start: Option<nat>) {
    pos <= |s| && Text(done) == s[..pos] && Lex(s) == done + Lex(s[pos..])
    && depth == Depth(done) && StartsAt(done, start) && (start.Some? ==> start.value <= pos)
  }

  lemma {:induction false} TextJoins(a: seq<Token>, b: seq<Token>)
    ensures Text(a + b) == Text(a) + Text(b)
  {
    if a == [] { assert a + b == b; } else {
      TextJoins(a[1..], b);
      assert (a + b)[1..] == a[1..] + b;
      Gathers(a[0].text, Text(a[1..]), Text(b));
    }
  }

  /** What is found among the first tokens is found there whatever comes after. */
  lemma FirstStays(done: seq<Token>, more: seq<Token>, from: nat, word: string)
    requires from <= |done|
    ensures FirstOf(done, from, word) < |done| ==> FirstOf(done + more, from, word) == FirstOf(done, from, word)
    ensures FirstOf(done, from, word) == |done| ==> FirstOf(done + more, from, word) >= |done|
    ensures forall i :: 0 <= i < |done| ==> Found(done + more, i, word) == Found(done, i, word)
  {
    forall i | 0 <= i < |done| ensures Found(done + more, i, word) == Found(done, i, word) {
      assert (done + more)[..i] == done[..i];
    }
  }

  lemma LexStep(s: string, pos: nat, n: nat, kind: Kind)
    requires pos < n <= |s| && IsToken(Token(kind, s[pos..n]), s[n..])
    ensures Lex(s[pos..]) == [Token(kind, s[pos..n])] + Lex(s[n..])
  {
    hide IsToken, FirstToken;
    var rest := s[pos..];
    var t := Token(kind, s[pos..n]);
    assert rest[..n - pos] == t.text && rest[n - pos..] == s[n..];
    TokenUnique(t, FirstToken(rest), rest);
  }

  /** Reading one more token; the scanner stops instead at a RETURNING found after its WHERE. */
  lemma Reads(s: string, done: seq<Token>, pos: nat, depth: int, start: Option<nat>, n: nat, kind: Kind)
    requires Scanned(s, done, pos, depth, start)
    requires pos < n <= |s| && IsToken(Token(kind, s[pos..n]), s[n..])
    requires var t := Token(kind, s[pos..n]);
             !(start.Some? && depth == 0 && kind == Word && Upper(t.text) == "RETURNING")
    ensures var t := Token(kind, s[pos..n]);
            Scanned(s, done + [t], n, depth + Turn(t),
                    if start == None && depth == 0 && kind == Word && Upper(t.text) == "WHERE" then Some(n) else start)
  {
    hide Lex, FirstToken, FirstOf, StartsAt, IsToken, Upper, Text, Depth, Turn;
    var t := Token(kind, s[pos..n]);
    LexStep(s, pos, n, kind);
    StartStep(done, start, t);
    Grows(done, t);
    assert s[..pos] + s[pos..n] == s[..n];
    assert done + ([t] + Lex(s[n..])) == done + [t] + Lex(s[n..]);
  }

  lemma Grows(done: seq<Token>, t: Token)
    ensures Text(done + [t]) == Text(done) + t.text && Depth(done + [t]) == Depth(done) + Turn(t)
  {
    TextJoins(done, [t]);
    assert Text([t]) == t.text;
    assert (done + [t])[..|done|] == done;
  }

  lemma FirstGrows(done: seq<Token>, t: Token, from: nat, word: string)
    requires from <= |done|
    ensures FirstOf(done + [t], from, word)
         == if FirstOf(done, from, word) < |done| then FirstOf(done, from, word)
            else if t.kind == Word && Upper(t.text) == word && Depth(done) == 0 then |done| else |done| + 1
  {
    FirstStays(done, [t], from, word);
    assert (done + [t])[..|done|] == done;
    hide Upper, Depth;
    assert Found(done + [t], |done|, word) <==> t.kind == Word && Upper(t.text) == word && Depth(done) == 0;
  }

  lemma StartStep(done: seq<Token>, start: Option<nat>, t: Token)
    requires StartsAt(done, start)
    requires !(start.Some? && Depth(done) == 0 && t.kind == Word && Upper(t.text) == "RETURNING")
    ensures StartsAt(done + [t], if start == None && Depth(done) == 0 && t.kind == Word && Upper(t.text) == "WHERE"
                                 then Some(|Text(done + [t])|) else start)
  {
    hide Upper, Depth, Found, Text;
    var all, w := done + [t], FirstOf(done, 0, "WHERE");
    FirstGrows(done, t, 0, "WHERE");
    assert all[..|done| + 1] == all;
    if w < |done| {
      FirstGrows(done, t, w + 1, "RETURNING");
      assert all[..w + 1] == done[..w + 1];
    }
  }

  /** At the end of the text, or at a RETURNING, the scanner knows the clause. */
  lemma Stops(s: string, done: seq<Token>, pos: nat, depth: int, start: Option<nat>)
    requires Scanned(s, done, pos, depth, start)
    requires pos == |s| || (start.Some? && FirstOf(Lex(s), |done|, "RETURNING") == |done| < |Lex(s)|)
    ensures start.Some? ==> start.value <= pos
    ensures ClauseOf(Lex(s)) == if start == None then None else Clause(s[start.value..pos])
  {
    var more := Lex(s[pos..]);
    if pos == |s| { assert more == []; }
    hide Lex, Depth, Clause, Found, Text, ClauseOf;
    var w := FirstOf(done, 0, "WHERE");
    ClauseSettled(done, more);
    if w < |done| { TextAfter(s, done, pos, w + 1); }
  }

  /** The clause of a text is known once its WHERE and its end are. */
  lemma ClauseSettled(done: seq<Token>, more: seq<Token>)
    requires var w := FirstOf(done, 0, "WHERE");
             if w == |done| then more == []
             else FirstOf(done, w + 1, "RETURNING") == |done|
                  && (more == [] || FirstOf(done + more, |done|, "RETURNING") == |done|)
    ensures var w := FirstOf(done, 0, "WHERE");
            ClauseOf(done + more) == if w == |done| then None else Clause(Text(done[w + 1..]))
  {
    hide Found, Clause, Text;
    var all, w := done + more, FirstOf(done, 0, "WHERE");
    FirstStays(done, more, 0, "WHERE");
    if w < |done| {
      FirstStays(done, more, w + 1, "RETURNING");
      assert all[w + 1..|done|] == done[w + 1..];
    }
  }

  lemma TextAfter(s: string, done: seq<Token>, pos: nat, k: nat)
    requires pos <= |s| && Text(done) == s[..pos] && k <= |done|
    ensures |Text(done[..k])| <= pos && Text(done[k..]) == s[|Text(done[..k])|..pos]
  {
    TextJoins(done[..k], done[k..]);
    assert done[..k] + done[k..] == done;
  }

  lemma QuoteStep(s: string, i: nat, q: char)
    requires i < |s|
    ensures QuoteEnd(s[i..], q) == if s[i] != q then 1 + QuoteEnd(s[i + 1..], q)
                                   else if i + 1 < |s| && s[i + 1] == q then 2 + QuoteEnd(s[i + 2..], q) else 1
  {
    var rest := s[i..];
    assert rest[1..] == s[i + 1..];
    if i + 1 < |s| { assert rest[2..] == s[i + 2..]; }
  }

  lemma QuotedToken(s: string, open: nat, end: nat)
    requires open < end <= |s| && Quote(s[open]) && QuoteEnd(s[open + 1..], s[open]) == end - (open + 1)
    ensures IsToken(Token(Quoted, s[open..end]), s[end..])
  {
    var u := s[open + 1..];
    assert s[open..end][1..] == u[..end - (open + 1)] && s[end..] == u[end - (open + 1)..];
  }

  /** Past the closing quote; one past the end of the text when there is none. */
  method SkipQuoted(s: string, open: nat) returns (index: nat)
    requires open < |s| && Quote(s[open])
    ensures open < index <= |s| + 1
    ensures var end := Least(index, |s|); IsToken(Token(Quoted, s[open..end]), s[end..])
  {
    hide QuoteEnd, IsToken, Quote;
    var q := s[open];
    index := open + 1;
    while index < |s|
      invariant open < index <= |s|
      invariant QuoteEnd(s[open + 1..], q) == index - (open + 1) + QuoteEnd(s[index..], q)
    {
      QuoteStep(s, index, q);
      if s[index] == q {
        if index + 1 < |s| && s[index + 1] == q { index := index + 2; } else { break; }
      } else {
        index := index + 1;
      }
    }
    index := index + 1;
    QuotedToken(s, open, Least(index, |s|));
  }

  method SkipWord(s: string, index: nat) returns (end: nat)
    requires index < |s| && WordStart(s[index])
    ensures index < end <= |s| && IsToken(Token(Word, s[index..end]), s[end..])
  {
    end := index + 1;
    while end < |s| && WordPart(s[end])
      invariant index < end <= |s| && forall i :: index <= i < end ==> WordPart(s[i])
    {
      end := end + 1;
    }
  }

  lemma LineToken(s: string, index: nat)
    requires Pair(s, index, '-', '-')
    ensures var n := LineEnd(s, index); n > index && IsToken(Token(Line, s[index..n]), s[n..])
  {
    var n := LineEnd(s, index);
    assert s[index..n][..n - index - 1] == s[index..n - 1];
  }

  lemma BlockToken(s: string, index: nat)
    requires Pair(s, index, '/', '*')
    ensures var n := BlockEnd(s, index + 2); n > index && IsToken(Token(Block, s[index..n]), s[n..])
  {
    var n := BlockEnd(s, index + 2);
    var t := s[index..n];
    forall i | 2 <= i < |t| - 2 ensures !Pair(t, i, '*', '/') { assert !Pair(s, index + i, '*', '/'); }
  }

  lemma MarkToken(s: string, index: nat)
    requires index < |s| && !Quote(s[index]) && !WordStart(s[index])
    requires !Pair(s, index, '-', '-') && !Pair(s, index, '/', '*')
    ensures IsToken(Token(Mark, s[index..index + 1]), s[index + 1..])
  {
    assert s[index..index + 1] + s[index + 1..] == s[index..];
  }

  /** The text from a top-level WHERE to a top-level RETURNING or the end, trimmed, on every input. */
  method WhereClauseOf(s: string) returns (r: Option<string>)
    ensures r == ClauseOf(Lex(s))
  {
    hide Lex, FirstToken, FirstOf, ClauseOf, Clause, Scanned, IsToken, Lexed, Depth, Text, Upper, Pair, LineEnd,
        BlockEnd;
    var depth: int := 0;
    var start: Option<nat> := None;
    var index := 0;
    ghost var done: seq<Token> := [];
    Begins(s);
    while index < |s|
      invariant index <= |s| + 1
      invariant Scanned(s, done, Least(index, |s|), depth, start)
    {
      ghost var was, deep, begun := index, depth, start;
      ghost var kind := Mark;
      if Pair(s, index, '-', '-') {
        kind := Line;
        LineToken(s, index);
        index := LineEnd(s, index);
      } else if Pair(s, index, '/', '*') {
        kind := Block;
        BlockToken(s, index);
        index := BlockEnd(s, index + 2);
      } else if Quote(s[index]) {
        kind := Quoted;
        index := SkipQuoted(s, index);
      } else if WordStart(s[index]) {
        kind := Word;
        var end := SkipWord(s, index);
        var word := Upper(s[index..end]);
        if depth == 0 && start == None && word == "WHERE" {
          start := Some(end);
        } else if depth == 0 && start.Some? && word == "RETURNING" {
          Returns(s, done, index, depth, start, end);
          return Clause(s[start.value..index]);
        }
        index := end;
      } else {
        MarkToken(s, index);
        if s[index] == '(' { depth := depth + 1; } else if s[index] == ')' { depth := depth - 1; }
        index := index + 1;
      }
      ghost var end := Least(index, |s|);
      ghost var t := Token(kind, s[was..end]);
      assert kind == Mark ==> t.text == [s[was]];
      assert depth == deep + Turn(t);
      ghost var begins := begun == None && deep == 0 && kind == Word && Upper(t.text) == "WHERE";
      assert start == if begins then Some(end) else begun;
      Reads(s, done, was, deep, begun, end, kind);
      done := done + [t];
    }
    Stops(s, done, |s|, depth, start);
    if start == None { return None; }
    assert s[start.value..] == s[start.value..|s|];
    return Clause(s[start.value..]);
  }

  lemma Begins(s: string)
    ensures Scanned(s, [], 0, 0, None)
  {
    assert s[..0] == "" && s[0..] == s && [] + Lex(s) == Lex(s);
  }

  lemma Returns(s: string, done: seq<Token>, pos: nat, depth: int, start: Option<nat>, n: nat)
    requires Scanned(s, done, pos, depth, start) && depth == 0 && start.Some?
    requires pos < n <= |s| && IsToken(Token(Word, s[pos..n]), s[n..]) && Upper(s[pos..n]) == "RETURNING"
    ensures start.value <= pos && ClauseOf(Lex(s)) == Clause(s[start.value..pos])
  {
    LexStep(s, pos, n, Word);
    assert Lex(s)[..|done|] == done;
    hide Upper, Depth, FirstToken, ClauseOf, IsToken;
    assert Found(Lex(s), |done|, "RETURNING");
    Stops(s, done, pos, depth, start);
  }

  // ── Text inside a token never matters to the search ──────────────────────────────────────────

  predicate Hidden(t: Token) { t.kind == Line || t.kind == Block || t.kind == Quoted }

  lemma {:induction false} DepthJoins(a: seq<Token>, b: seq<Token>)
    ensures Depth(a + b) == Depth(a) + Depth(b)
    decreases |b|
  {
    if b == [] { assert a + b == a; } else {
      DepthJoins(a, b[..|b| - 1]);
      assert (a + b)[..|a + b| - 1] == a + b[..|b| - 1];
    }
  }

  /** Swapping one comment or quoted text for another leaves every word found where it was. */
  lemma SameFound(a: seq<Token>, t: Token, u: Token, b: seq<Token>, i: nat, word: string)
    requires Hidden(t) && Hidden(u) && i < |a + [t] + b|
    ensures Found(a + [t] + b, i, word) == Found(a + [u] + b, i, word)
  {
    var x, y := a + [t] + b, a + [u] + b;
    if i <= |a| {
      assert x[..i] == a[..i] == y[..i];
    } else {
      var c := b[..i - |a| - 1];
      assert x[..i] == a + [t] + c && y[..i] == a + [u] + c;
      DepthJoins(a + [t], c);
      DepthJoins(a + [u], c);
      Grows(a, t);
      Grows(a, u);
    }
  }

  /** A token still ends where it did when what follows keeps its first character. */
  lemma TokenStays(t: Token, rest: string, other: string)
    requires IsToken(t, rest) && rest != "" && other != "" && rest[0] == other[0]
    ensures IsToken(t, other)
  {
    if t.kind.Quoted? { TailStays(t.text[1..], t.text[0], rest, other); }
  }

  lemma {:induction false} TailStays(u: string, q: char, rest: string, other: string)
    requires QuotedTail(u, q, rest) && rest != "" && other != "" && rest[0] == other[0]
    ensures QuotedTail(u, q, other)
  {
    if u != "" {
      if u[0] != q { TailStays(u[1..], q, rest, other); } else if |u| > 1 { TailStays(u[2..], q, rest, other); }
    }
  }

  /** A division stays one when a comment or quoted text is swapped for another that opens alike. */
  lemma {:induction false} LexedStays(a: seq<Token>, t: Token, u: Token, b: seq<Token>)
    requires Lexed(a + [t] + b, Text(a + [t] + b))
    requires Hidden(t) && Hidden(u) && t.kind == u.kind && u.text != "" && t.text != "" && t.text[0] == u.text[0]
        && IsToken(u, Text(b))
    ensures Lexed(a + [u] + b, Text(a + [u] + b))
    decreases |a|
  {
    hide Lexed, IsToken, Text;
    var x, y := a + [t] + b, a + [u] + b;
    if a == [] {
      assert x == [t] + b && y == [u] + b;
      FirstAndRest(t, b);
      FirstAndRest(u, b);
    } else {
      var p, q := a[1..] + [t] + b, a[1..] + [u] + b;
      assert x == [a[0]] + p && y == [a[0]] + q;
      FirstAndRest(a[0], p);
      FirstAndRest(a[0], q);
      LexedStays(a[1..], t, u, b);
      FirstChar(a[1..], t, u, b);
      TokenStays(a[0], Text(p), Text(q));
    }
  }

  lemma FirstAndRest(t: Token, rest: seq<Token>)
    ensures Lexed([t] + rest, Text([t] + rest)) <==> IsToken(t, Text(rest)) && Lexed(rest, Text(rest))
  {
    hide IsToken;
    assert ([t] + rest)[1..] == rest;
    assert (t.text + Text(rest))[|t.text|..] == Text(rest);
  }

  lemma FirstChar(a: seq<Token>, t: Token, u: Token, b: seq<Token>)
    requires t.text != "" && u.text != "" && t.text[0] == u.text[0] && Lexed(a + [t] + b, Text(a + [t] + b))
    ensures var x, y := Text(a + [t] + b), Text(a + [u] + b); x != "" && y != "" && x[0] == y[0]
  {
    if a != [] { Opening(a[0], Text(a + [t] + b)); }
  }

  lemma {:induction false} LexedText(tokens: seq<Token>, s: string)
    requires Lexed(tokens, s)
    ensures Text(tokens) == s
    decreases |tokens|
  {
    if tokens != [] {
      LexedText(tokens[1..], s[|tokens[0].text|..]);
      hide IsToken;
    }
  }

  lemma SameFirst(x: seq<Token>, y: seq<Token>, from: nat, word: string)
    requires |x| == |y| && from <= |x|
    requires forall i :: 0 <= i < |x| ==> Found(x, i, word) == Found(y, i, word)
    ensures FirstOf(x, from, word) == FirstOf(y, from, word)
  {
    hide Found;
  }

  lemma SameFinds(a: seq<Token>, t: Token, u: Token, b: seq<Token>, from: nat, word: string)
    requires Hidden(t) && Hidden(u) && from <= |a + [t] + b|
    ensures FirstOf(a + [u] + b, from, word) == FirstOf(a + [t] + b, from, word)
  {
    var x, y := a + [t] + b, a + [u] + b;
    forall i | 0 <= i < |x| ensures Found(x, i, word) == Found(y, i, word) { SameFound(a, t, u, b, i, word); }
    SameFirst(x, y, from, word);
  }

  lemma SameElsewhere(a: seq<Token>, t: Token, u: Token, b: seq<Token>, i: nat, j: nat)
    requires i <= j <= |a + [t] + b| && (|a| < i || j <= |a|)
    ensures (a + [t] + b)[i..j] == (a + [u] + b)[i..j]
  {
  }

  /** Where the hidden text stands outside the clause, the clause stays the same. */
  lemma SameClause(a: seq<Token>, t: Token, u: Token, b: seq<Token>)
    requires Hidden(t) && Hidden(u)
    requires var x := a + [t] + b;
             var w := FirstOf(x, 0, "WHERE");
             w == |x| || |a| < w || FirstOf(x, w + 1, "RETURNING") <= |a|
    ensures ClauseOf(a + [u] + b) == ClauseOf(a + [t] + b)
  {
    hide FirstOf, Found, Clause, Text, Hidden;
    var x, y := a + [t] + b, a + [u] + b;
    var w := FirstOf(x, 0, "WHERE");
    SameFinds(a, t, u, b, 0, "WHERE");
    if w < |x| {
      var e := FirstOf(x, w + 1, "RETURNING");
      SameFinds(a, t, u, b, w + 1, "RETURNING");
      SameElsewhere(a, t, u, b, w + 1, e);
    }
  }

  /** Whatever a comment or a quoted text holds, the same WHERE and RETURNING are found. */
  lemma HiddenTextIgnored(a: seq<Token>, t: Token, u: Token, b: seq<Token>, from: nat, word: string)
    requires Lexed(a + [t] + b, Text(a + [t] + b)) && from <= |a + [t] + b|
    requires Hidden(t) && Hidden(u) && t.kind == u.kind && IsToken(u, Text(b))
    requires u.text != "" && t.text != "" && t.text[0] == u.text[0]
    ensures Lex(Text(a + [t] + b)) == a + [t] + b && Lex(Text(a + [u] + b)) == a + [u] + b
    ensures FirstOf(Lex(Text(a + [u] + b)), from, word) == FirstOf(Lex(Text(a + [t] + b)), from, word)
  {
    var x, y := a + [t] + b, a + [u] + b;
    LexedStays(a, t, u, b);
    LexedOnce(Lex(Text(x)), x, Text(x));
    LexedOnce(Lex(Text(y)), y, Text(y));
    SameFinds(a, t, u, b, from, word);
  }
}

/** The SQL text the gateway builds, read back by a lexer: identifiers and literals cannot leave their quotes. */
module Quoting {
  import opened Decimal
  import opened Tabular
  import opened Text
  import opened Wrappers

  // ----- what the gateway writes -----

  function Quoted(s: string, q: char): string {
    [q] + DoubleUp(s, q) + [q]
  }

  function QuoteIdent(raw: string): string {
    Quoted(raw, '"')
  }

  /** A qualified name: its parts quoted and joined by points. */
  function Dotted(parts: seq<string>): string {
    if parts == [] then ""
    else if |parts| == 1 then QuoteIdent(parts[0])
    else QuoteIdent(parts[0]) + ("." + Dotted(parts[1..]))
  }

  function DescriptionText(description: Option<string>): string {
    match description case Some(text) => Quoted(text, '\'') case None => "NULL"
  }

  function CommentOnColumn(catalog: string, ns: string, tbl: string, column: string, description: Option<string>): string {
    Words(["COMMENT", "ON", "COLUMN"],
          Dotted([catalog, ns, tbl, column]) + (" " + Words(["IS"], DescriptionText(description))))
  }

  /** Keywords, each followed by one space, in front of the rest of a statement. */
  function Words(words: seq<string>, rest: string): string {
    if words == [] then rest else words[0] + (" " + Words(words[1..], rest))
  }

  // ----- a lexer: sections 5.2 and 5.3 of ISO/IEC 9075-2 -----

  datatype Token =
    | Ident(name: string)
    | Literal(text: string)
    | Word(word: string)
    | Number(digits: string)
    | Symbol(c: char)

  predicate IsLetter(c: char) {
    'a' <= c <= 'z' || 'A' <= c <= 'Z' || c == '_'
  }

  predicate InWord(c: char) {
    IsLetter(c) || IsDigit(c)
  }

  function WordEnd(s: string): (n: nat)
    ensures n <= |s|
  {
    if s == "" || !InWord(s[0]) then 0 else 1 + WordEnd(s[1..])
  }

  /** A number goes on with digits, a point, letters (the exponent mark), or a sign right after that mark. */
  predicate InNumber(before: char, c: char) {
    InWord(c) || c == '.' || ((c == '-' || c == '+') && (before == 'e' || before == 'E'))
  }

  function NumberEnd(s: string, before: char): (n: nat)
    ensures n <= |s|
  {
    if s == "" || !InNumber(before, s[0]) then 0 else 1 + NumberEnd(s[1..], s[0])
  }

  /** The text up to the closing quote and what follows it; a doubled quote stands for one. */
  function ScanQuoted(s: string, q: char): (r: Option<(string, string)>)
    ensures r.Some? ==> |r.value.1| < |s|
    decreases |s|
  {
    if s == "" then None
    else if s[0] != q then
      match ScanQuoted(s[1..], q)
      case None => None
      case Some((body, rest)) => Some(([s[0]] + body, rest))
    else if |s| > 1 && s[1] == q then
      match ScanQuoted(s[2..], q)
      case None => None
      case Some((body, rest)) => Some(([q] + body, rest))
    else Some(("", s[1..]))
  }

  function LineEnd(s: string): (n: nat)
    ensures n <= |s|
  {
    if s == "" || s[0] == '\n' then 0 else 1 + LineEnd(s[1..])
  }

  function CommentEnd(s: string): (n: nat)
    ensures n <= |s|
  {
    if s == "" then 0 else if |s| > 1 && s[0] == '*' && s[1] == '/' then 2 else 1 + CommentEnd(s[1..])
  }

  function Before(t: Token, rest: Option<seq<Token>>): Option<seq<Token>> {
    match rest case None => None case Some(ts) => Some([t] + ts)
  }

  /** The tokens of a statement; `None` when a quote is never closed. */
  function Lex(s: string): Option<seq<Token>>
    decreases |s|
  {
    if s == "" then Some([])
    else if IsSpace(s[0]) then Lex(s[1..])
    else if s[0] == '"' || s[0] == '\'' then
      match ScanQuoted(s[1..], s[0])
      case None => None
      case Some((body, rest)) => Before(if s[0] == '"' then Ident(body) else Literal(body), Lex(rest))
    else if |s| > 1 && s[0] == '-' && s[1] == '-' then Lex(s[2 + LineEnd(s[2..])..])
    else if |s| > 1 && s[0] == '/' && s[1] == '*' then Lex(s[2 + CommentEnd(s[2..])..])
    else if IsLetter(s[0]) then
      var n := 1 + WordEnd(s[1..]);
      Before(Word(s[..n]), Lex(s[n..]))
    else if IsDigit(s[0]) then
      var n := 1 + NumberEnd(s[1..], s[0]);
      Before(Number(s[..n]), Lex(s[n..]))
    else Before(Symbol(s[0]), Lex(s[1..]))
  }

  // ----- lexing undoes spelling -----

  /** A token or one space: what the statements are put together from. */
  datatype Piece = Tok(t: Token) | Space

  function Spell(p: Piece): string {
    match p
    case Space => " "
    case Tok(Ident(name)) => Quoted(name, '"')
    case Tok(Literal(text)) => Quoted(text, '\'')
    case Tok(Word(word)) => word
    case Tok(Number(digits)) => digits
    case Tok(Symbol(c)) => [c]
  }

  function SpellAll(pieces: seq<Piece>): string {
    if pieces == [] then "" else Spell(pieces[0]) + SpellAll(pieces[1..])
  }

  function TokensOf(pieces: seq<Piece>): seq<Token> {
    if pieces == [] then []
    else (if pieces[0].Tok? then [pieces[0].t] else []) + TokensOf(pieces[1..])
  }

  predicate WordText(w: string) {
    w != "" && IsLetter(w[0]) && forall i :: 0 <= i < |w| ==> InWord(w[i])
  }

  predicate NumberText(n: string) {
    n != "" && IsDigit(n[0]) && forall i :: 0 < i < |n| ==> InNumber(n[i - 1], n[i])
  }

  /** A piece a statement may use; a lone minus sign stands in front of a negative number only. */
  predicate Speakable(p: Piece) {
    match p
    case Tok(Word(w)) => WordText(w)
    case Tok(Number(n)) => NumberText(n)
    case Tok(Symbol(c)) => PlainSymbol(c)
    case _ => true
  }

  predicate PlainSymbol(c: char) {
    c == '.' || c == ',' || c == '(' || c == ')' || c == '-' || c == '*'
  }

  /** Whether the second piece may follow the first without the two running into each other. */
  predicate MayFollow(p: Piece, q: Piece) {
    match p
    case Tok(Ident(_)) => !(q.Tok? && q.t.Ident?)
    case Tok(Literal(_)) => !(q.Tok? && q.t.Literal?)
    case Tok(Word(_)) => !(q.Tok? && (q.t.Word? || q.t.Number?))
    case Tok(Number(_)) => q.Space? || q.t == Symbol(',') || q.t == Symbol(')')
    case Tok(Symbol(c)) => c == '-' ==> q.Tok? && q.t.Number?
    case Space => true
  }

  predicate WellFormed(pieces: seq<Piece>) {
    && (forall i :: 0 <= i < |pieces| ==> Speakable(pieces[i]))
    && (forall i :: 0 <= i < |pieces| - 1 ==> MayFollow(pieces[i], pieces[i + 1]))
  }

  lemma {:induction false} ScanUndoesDoubling(body: string, q: char, rest: string)
    requires rest == "" || rest[0] != q
    ensures ScanQuoted(DoubleUp(body, q) + ([q] + rest), q) == Some((body, rest))
  {
    var s := DoubleUp(body, q) + ([q] + rest);
    if body == "" {
      assert s == [q] + rest && s[1..] == rest;
    } else {
      ScanUndoesDoubling(body[1..], q, rest);
      var one := if body[0] == q then [q, q] else [body[0]];
      Glue(one, DoubleUp(body[1..], q), [q] + rest);
      assert s[|one|..] == DoubleUp(body[1..], q) + ([q] + rest);
      Uncons(body);
    }
  }

  lemma LexOpenQuote(q: char, inside: string, body: string, rest: string)
    requires q == '"' || q == '\''
    requires ScanQuoted(inside, q) == Some((body, rest))
    ensures Lex([q] + inside) == Before(if q == '"' then Ident(body) else Literal(body), Lex(rest))
  {
    assert ([q] + inside)[1..] == inside;
    assert !IsSpace(q);
  }

  /** One quoted text at the head of a statement is one token, and lexing goes on right after it. */
  lemma LexQuoted(body: string, q: char, rest: string)
    requires q == '"' || q == '\''
    requires rest == "" || rest[0] != q
    ensures Lex(Quoted(body, q) + rest) == Before(if q == '"' then Ident(body) else Literal(body), Lex(rest))
  {
    var inside := DoubleUp(body, q) + ([q] + rest);
    ScanUndoesDoubling(body, q, rest);
    LexOpenQuote(q, inside, body, rest);
    assert Quoted(body, q) + rest == [q] + inside;
  }

  lemma {:induction false} WordEndAt(w: string, rest: string)
    requires forall i :: 0 <= i < |w| ==> InWord(w[i])
    requires rest == "" || !InWord(rest[0])
    ensures WordEnd(w + rest) == |w|
  {
    if w == "" {
      assert w + rest == rest;
    } else {
      assert (w + rest)[1..] == w[1..] + rest;
      WordEndAt(w[1..], rest);
    }
  }

  lemma LexWord(w: string, rest: string)
    requires WordText(w)
    requires rest == "" || !InWord(rest[0])
    ensures Lex(w + rest) == Before(Word(w), Lex(rest))
  {
    var s := w + rest;
    assert s[1..] == w[1..] + rest;
    WordEndAt(w[1..], rest);
    assert s[..|w|] == w && s[|w|..] == rest;
  }

  lemma {:induction false} NumberEndAt(n: string, before: char, rest: string)
    requires n != "" ==> InNumber(before, n[0])
    requires forall i :: 0 < i < |n| ==> InNumber(n[i - 1], n[i])
    requires rest == "" || rest[0] == ' ' || rest[0] == ',' || rest[0] == ')'
    ensures NumberEnd(n + rest, before) == |n|
  {
    if n == "" {
      assert n + rest == rest;
    } else {
      assert (n + rest)[1..] == n[1..] + rest;
      NumberEndAt(n[1..], n[0], rest);
    }
  }

  lemma LexNumber(n: string, rest: string)
    requires NumberText(n)
    requires rest == "" || rest[0] == ' ' || rest[0] == ',' || rest[0] == ')'
    ensures Lex(n + rest) == Before(Number(n), Lex(rest))
  {
    var s := n + rest;
    assert s[1..] == n[1..] + rest;
    NumberEndAt(n[1..], n[0], rest);
    assert s[..|n|] == n && s[|n|..] == rest;
  }

  lemma LexSymbol(c: char, rest: string)
    requires PlainSymbol(c)
    requires c == '-' ==> rest == "" || rest[0] != '-'
    ensures Lex([c] + rest) == Before(Symbol(c), Lex(rest))
  {
    var s := [c] + rest;
    assert s[0] == c && s[1..] == rest;
    assert !IsSpace(c) && !IsLetter(c) && !IsDigit(c) && c != '"' && c != '\'' && c != '/';
    assert |s| > 1 ==> s[1] == rest[0];
  }

  lemma LexSpace(rest: string)
    ensures Lex(" " + rest) == Lex(rest)
  {
    assert (" " + rest)[1..] == rest;
  }

  /** Any well-formed statement lexes to exactly the tokens it was put together from, whatever the
      names and texts in it hold. */
  lemma {:induction false} LexUndoesSpell(pieces: seq<Piece>)
    requires WellFormed(pieces)
    ensures Lex(SpellAll(pieces)) == Some(TokensOf(pieces))
    ensures pieces != [] ==> SpellAll(pieces) != "" && SpellAll(pieces)[0] == Spell(pieces[0])[0]
  {
    if pieces != [] {
      var rest := SpellAll(pieces[1..]);
      LexUndoesSpell(pieces[1..]);
      assert Speakable(pieces[0]);
      assert |pieces| > 1 ==> MayFollow(pieces[0], pieces[1]) && Speakable(pieces[1]);
      match pieces[0]
      case Space =>
        LexSpace(rest);
        assert [] + TokensOf(pieces[1..]) == TokensOf(pieces[1..]);
      case Tok(Ident(name)) => LexQuoted(name, '"', rest);
      case Tok(Literal(text)) => LexQuoted(text, '\'', rest);
      case Tok(Word(w)) => LexWord(w, rest);
      case Tok(Number(n)) => LexNumber(n, rest);
      case Tok(Symbol(c)) => LexSymbol(c, rest);
    }
  }

  lemma {:induction false} SpellConcat(a: seq<Piece>, b: seq<Piece>)
    ensures SpellAll(a + b) == SpellAll(a) + SpellAll(b)
    ensures TokensOf(a + b) == TokensOf(a) + TokensOf(b)
  {
    if a == [] {
      assert a + b == b;
    } else {
      assert (a + b)[1..] == a[1..] + b;
      SpellConcat(a[1..], b);
      Glue(Spell(a[0]), SpellAll(a[1..]), SpellAll(b));
    }
  }

  // ----- the statement that writes a column comment -----

  function WordPieces(words: seq<string>): seq<Piece> {
    if words == [] then [] else [Tok(Word(words[0])), Space] + WordPieces(words[1..])
  }

  function NamePieces(parts: seq<string>): seq<Piece> {
    if parts == [] then []
    else if |parts| == 1 then [Tok(Ident(parts[0]))]
    else [Tok(Ident(parts[0])), Tok(Symbol('.'))] + NamePieces(parts[1..])
  }

  function DescriptionPiece(description: Option<string>): Piece {
    match description case Some(text) => Tok(Literal(text)) case None => Tok(Word("NULL"))
  }

  lemma SpellTwo(p: Piece, q: Piece, rest: seq<Piece>)
    ensures SpellAll([p, q] + rest) == Spell(p) + (Spell(q) + SpellAll(rest))
    ensures TokensOf([p, q] + rest) == (if p.Tok? then [p.t] else []) + ((if q.Tok? then [q.t] else []) + TokensOf(rest))
  {
    var s := [p, q] + rest;
    assert s[1..] == [q] + rest && s[1..][1..] == rest;
  }

  lemma {:induction false} SpellWords(words: seq<string>, rest: string)
    ensures SpellAll(WordPieces(words)) + rest == Words(words, rest)
  {
    if words == [] {
      assert "" + rest == rest;
    } else {
      SpellTwo(Tok(Word(words[0])), Space, WordPieces(words[1..]));
      SpellWords(words[1..], rest);
      Glue(words[0], " " + SpellAll(WordPieces(words[1..])), rest);
      Glue(" ", SpellAll(WordPieces(words[1..])), rest);
    }
  }

  lemma {:induction false} SpellName(parts: seq<string>)
    ensures SpellAll(NamePieces(parts)) == Dotted(parts)
  {
    if |parts| == 1 {
      assert SpellAll(NamePieces(parts)) == Spell(NamePieces(parts)[0]) + "";
    } else if |parts| > 1 {
      SpellTwo(Tok(Ident(parts[0])), Tok(Symbol('.')), NamePieces(parts[1..]));
      SpellName(parts[1..]);
    }
  }

  function CommentPieces(parts: seq<string>, description: Option<string>): seq<Piece> {
    WordPieces(["COMMENT", "ON", "COLUMN"])
    + (NamePieces(parts) + ([Space] + (WordPieces(["IS"]) + [DescriptionPiece(description)])))
  }

  /** Well-formed pieces with the text they spell and the tokens they stand for. */
  ghost predicate Spells(pieces: seq<Piece>, text: string, tokens: seq<Token>) {
    WellFormed(pieces) && SpellAll(pieces) == text && TokensOf(pieces) == tokens
  }

  lemma SpellsConcat(a: seq<Piece>, ta: string, ka: seq<Token>, b: seq<Piece>, tb: string, kb: seq<Token>)
    requires Spells(a, ta, ka) && Spells(b, tb, kb)
    requires a != [] && b != [] ==> MayFollow(a[|a| - 1], b[0])
    ensures Spells(a + b, ta + tb, ka + kb)
  {
    SpellConcat(a, b);
  }

  lemma SpellsOne(p: Piece)
    requires Speakable(p)
    ensures Spells([p], Spell(p), if p.Tok? then [p.t] else [])
  {
    assert Spell(p) + "" == Spell(p);
    assert [p][1..] == [];
  }

  lemma {:induction false} WordPiecesWellFormed(words: seq<string>)
    requires forall i :: 0 <= i < |words| ==> WordText(words[i])
    ensures WellFormed(WordPieces(words))
    ensures words != [] ==> WordPieces(words) != [] && WordPieces(words)[|WordPieces(words)| - 1] == Space
  {
    if words != [] {
      WordPiecesWellFormed(words[1..]);
    }
  }

  lemma {:induction false} NamePiecesWellFormed(parts: seq<string>)
    requires parts != []
    ensures WellFormed(NamePieces(parts))
    ensures var p := NamePieces(parts);
      p != [] && p[0] == Tok(Ident(parts[0])) && p[|p| - 1] == Tok(Ident(parts[|parts| - 1]))
  {
    if |parts| > 1 {
      NamePiecesWellFormed(parts[1..]);
    }
  }

  /** The tokens the statement is meant to have. */
  function CommentTokens(catalog: string, ns: string, tbl: string, column: string, description: Option<string>): seq<Token> {
    [Word("COMMENT"), Word("ON"), Word("COLUMN"),
     Ident(catalog), Symbol('.'), Ident(ns), Symbol('.'), Ident(tbl), Symbol('.'), Ident(column),
     Word("IS"), DescriptionPiece(description).t]
  }

  lemma {:induction false} WordTokens(words: seq<string>)
    ensures TokensOf(WordPieces(words)) == seq(|words|, i requires 0 <= i < |words| => Word(words[i]))
  {
    if words != [] {
      SpellTwo(Tok(Word(words[0])), Space, WordPieces(words[1..]));
      WordTokens(words[1..]);
    }
  }

  lemma NameTokensStep(parts: seq<string>)
    requires |parts| > 1
    ensures TokensOf(NamePieces(parts)) == [Ident(parts[0]), Symbol('.')] + TokensOf(NamePieces(parts[1..]))
  {
    SpellTwo(Tok(Ident(parts[0])), Tok(Symbol('.')), NamePieces(parts[1..]));
  }

  lemma NameTokens(a: string, b: string, c: string, d: string)
    ensures TokensOf(NamePieces([a, b, c, d]))
         == [Ident(a), Symbol('.'), Ident(b), Symbol('.'), Ident(c), Symbol('.'), Ident(d)]
  {
    NameTokensStep([a, b, c, d]);
    NameTokensStep([b, c, d]);
    NameTokensStep([c, d]);
    assert [a, b, c, d][1..] == [b, c, d] && [b, c, d][1..] == [c, d] && [c, d][1..] == [d];
    assert NamePieces([d]) == [Tok(Ident(d))];
  }

  lemma WordsSpell(words: seq<string>)
    requires words != [] && forall i :: 0 <= i < |words| ==> WordText(words[i])
    ensures Spells(WordPieces(words), Words(words, ""), seq(|words|, i requires 0 <= i < |words| => Word(words[i])))
    ensures WordPieces(words) != [] && WordPieces(words)[|WordPieces(words)| - 1] == Space
  {
    WordPiecesWellFormed(words);
    WordTokens(words);
    SpellWords(words, "");
    assert SpellAll(WordPieces(words)) + "" == SpellAll(WordPieces(words));
  }

  lemma {:induction false} WordsAppend(words: seq<string>, rest: string)
    ensures Words(words, rest) == Words(words, "") + rest
  {
    SpellWords(words, rest);
    SpellWords(words, "");
    assert SpellAll(WordPieces(words)) + "" == SpellAll(WordPieces(words));
  }

  lemma NameSpells(catalog: string, ns: string, tbl: string, column: string)
    ensures var parts := [catalog, ns, tbl, column];
      Spells(NamePieces(parts), Dotted(parts),
             [Ident(catalog), Symbol('.'), Ident(ns), Symbol('.'), Ident(tbl), Symbol('.'), Ident(column)])
  {
    var parts := [catalog, ns, tbl, column];
    NamePiecesWellFormed(parts);
    SpellName(parts);
    NameTokens(catalog, ns, tbl, column);
  }

  /** ` IS 'text'` or ` IS NULL`. */
  lemma DescriptionSpells(description: Option<string>)
    ensures Spells([Space] + (WordPieces(["IS"]) + [DescriptionPiece(description)]),
                   " " + (Words(["IS"], "") + DescriptionText(description)),
                   [] + ([Word("IS")] + [DescriptionPiece(description).t]))
  {
    var d := DescriptionPiece(description);
    WordsSpell(["IS"]);
    SpellsOne(d);
    SpellsConcat(WordPieces(["IS"]), Words(["IS"], ""), [Word("IS")], [d], Spell(d), [d.t]);
    SpellsOne(Space);
    SpellsConcat([Space], " ", [], WordPieces(["IS"]) + [d], Words(["IS"], "") + Spell(d), [Word("IS")] + [d.t]);
  }

  function NamesThenDescription(catalog: string, ns: string, tbl: string, column: string, description: Option<string>): seq<Token> {
    [Ident(catalog), Symbol('.'), Ident(ns), Symbol('.'), Ident(tbl), Symbol('.'), Ident(column)]
    + ([] + ([Word("IS")] + [DescriptionPiece(description).t]))
  }

  lemma NamesThenDescriptionSpell(catalog: string, ns: string, tbl: string, column: string, description: Option<string>)
    ensures var parts := [catalog, ns, tbl, column];
      var pieces := NamePieces(parts) + ([Space] + (WordPieces(["IS"]) + [DescriptionPiece(description)]));
      && Spells(pieces, Dotted(parts) + (" " + Words(["IS"], DescriptionText(description))),
                NamesThenDescription(catalog, ns, tbl, column, description))
      && pieces != []
  {
    var parts := [catalog, ns, tbl, column];
    DescriptionSpells(description);
    NameSpells(catalog, ns, tbl, column);
    NamePiecesWellFormed(parts);
    SpellsConcat(NamePieces(parts), Dotted(parts),
                 [Ident(catalog), Symbol('.'), Ident(ns), Symbol('.'), Ident(tbl), Symbol('.'), Ident(column)],
                 [Space] + (WordPieces(["IS"]) + [DescriptionPiece(description)]),
                 " " + (Words(["IS"], "") + DescriptionText(description)),
                 [] + ([Word("IS")] + [DescriptionPiece(description).t]));
    WordsAppend(["IS"], DescriptionText(description));
  }

  /** Keywords in front of a statement that is already spelt. */
  lemma LeadSpells(words: seq<string>, tokens: seq<Token>, pieces: seq<Piece>, text: string, rest: seq<Token>)
    requires words != [] && forall i :: 0 <= i < |words| ==> WordText(words[i])
    requires |tokens| == |words| && forall i :: 0 <= i < |words| ==> tokens[i] == Word(words[i])
    requires Spells(pieces, text, rest)
    ensures Spells(WordPieces(words) + pieces, Words(words, text), tokens + rest)
  {
    WordsSpell(words);
    assert tokens == seq(|words|, i requires 0 <= i < |words| => Word(words[i]));
    SpellsConcat(WordPieces(words), Words(words, ""), tokens, pieces, text, rest);
    WordsAppend(words, text);
  }

  lemma CommentSpells(catalog: string, ns: string, tbl: string, column: string, description: Option<string>)
    ensures Spells(CommentPieces([catalog, ns, tbl, column], description),
                   CommentOnColumn(catalog, ns, tbl, column, description),
                   CommentTokens(catalog, ns, tbl, column, description))
  {
    var rest := NamesThenDescription(catalog, ns, tbl, column, description);
    NamesThenDescriptionSpell(catalog, ns, tbl, column, description);
    LeadSpells(["COMMENT", "ON", "COLUMN"], [Word("COMMENT"), Word("ON"), Word("COLUMN")],
               NamePieces([catalog, ns, tbl, column]) + ([Space] + (WordPieces(["IS"]) + [DescriptionPiece(description)])),
               Dotted([catalog, ns, tbl, column]) + (" " + Words(["IS"], DescriptionText(description))), rest);
    CommentTokensSplit(catalog, ns, tbl, column, description);
  }

  lemma CommentTokensSplit(catalog: string, ns: string, tbl: string, column: string, description: Option<string>)
    ensures [Word("COMMENT"), Word("ON"), Word("COLUMN")] + NamesThenDescription(catalog, ns, tbl, column, description)
         == CommentTokens(catalog, ns, tbl, column, description)
  {
  }

  /** Lexing the built statement yields exactly the four names and the text, and nothing else. */
  lemma CommentLexesBack(catalog: string, ns: string, tbl: string, column: string, description: Option<string>)
    ensures Lex(CommentOnColumn(catalog, ns, tbl, column, description))
         == Some(CommentTokens(catalog, ns, tbl, column, description))
  {
    CommentSpells(catalog, ns, tbl, column, description);
    LexUndoesSpell(CommentPieces([catalog, ns, tbl, column], description));
  }

  /** So two statements are the same text only if they name the same column and say the same. */
  lemma CommentInjective(c1: string, n1: string, t1: string, f1: string, d1: Option<string>,
                         c2: string, n2: string, t2: string, f2: string, d2: Option<string>)
    requires CommentOnColumn(c1, n1, t1, f1, d1) == CommentOnColumn(c2, n2, t2, f2, d2)
    ensures c1 == c2 && n1 == n2 && t1 == t2 && f1 == f2 && d1 == d2
  {
    CommentLexesBack(c1, n1, t1, f1, d1);
    CommentLexesBack(c2, n2, t2, f2, d2);
    var a, b := CommentTokens(c1, n1, t1, f1, d1), CommentTokens(c2, n2, t2, f2, d2);
    assert a[3] == b[3] && a[5] == b[5] && a[7] == b[7] && a[9] == b[9] && a[11] == b[11];
  }
}

/** The other statements of a load, as text: written by the gateway, read back by the engine. */
module StatementText {
  import opened InsertText
  import opened Quoting
  import opened Tabular
  import opened Text
  import opened Wrappers

  type Name = seq<string>

  type Column = (string, SqlType)

  datatype Statement =
    | CreateSchema(schema: Name)
    | CreateTable(name: Name, columns: seq<Column>)
    | InsertInto(name: Name, rows: seq<seq<Datum>>)
    | DropIfExists(name: Name)
    | CreateOrReplaceAs(target: Name, source: Name)

  // ----- what the gateway writes -----

  const SCHEMA_WORDS := ["CREATE", "SCHEMA", "IF", "NOT", "EXISTS"]
  const TABLE_WORDS := ["CREATE", "TABLE"]
  const DROP_WORDS := ["DROP", "TABLE", "IF", "EXISTS"]
  const SWAP_WORDS := ["CREATE", "OR", "REPLACE", "TABLE"]

  function TypeWord(ty: SqlType): string {
    match ty
    case Varchar => "varchar"
    case Bigint => "bigint"
    case Double => "double"
    case Boolean => "boolean"
  }

  function SchemaText(schema: Name): string {
    Words(SCHEMA_WORDS, Dotted(schema))
  }

  function DropText(name: Name): string {
    Words(DROP_WORDS, Dotted(name))
  }

  function SwapText(target: Name, source: Name): string {
    Words(SWAP_WORDS,
          Dotted(target) + (" " + Words(["AS", "SELECT"], "*" + (" " + Words(["FROM"], Dotted(source))))))
  }

  function ColumnsText(columns: seq<Column>): string {
    if columns == [] then ""
    else
      var (name, ty) := columns[0];
      var one := QuoteIdent(name) + (" " + TypeWord(ty));
      if |columns| == 1 then one else one + (", " + ColumnsText(columns[1..]))
  }

  function TableText(name: Name, columns: seq<Column>): string {
    Words(TABLE_WORDS, Dotted(name) + (" " + ("(" + (ColumnsText(columns) + ")"))))
  }

  // ----- what the engine reads -----

  predicate HasWords(ts: seq<Token>, words: seq<string>) {
    |words| <= |ts| && forall i :: 0 <= i < |words| ==> ts[i] == Word(words[i])
  }

  /** A name of `n` parts at the head of the tokens, and what follows it. */
  function ReadName(ts: seq<Token>, n: nat): Option<(Name, seq<Token>)> {
    if n == 0 || ts == [] || !ts[0].Ident? then None
    else if n == 1 then Some(([ts[0].name], ts[1..]))
    else if |ts| < 2 || ts[1] != Symbol('.') then None
    else
      match ReadName(ts[2..], n - 1)
      case None => None
      case Some((parts, rest)) => Some(([ts[0].name] + parts, rest))
  }

  function TypeOfWord(w: string): Option<SqlType> {
    if w == "varchar" then Some(Varchar)
    else if w == "bigint" then Some(Bigint)
    else if w == "double" then Some(Double)
    else if w == "boolean" then Some(Boolean)
    else None
  }

  function ReadColumns(ts: seq<Token>): Option<seq<Column>>
    decreases |ts|
  {
    if |ts| < 3 || !ts[0].Ident? || !ts[1].Word? || TypeOfWord(ts[1].word).None? then None
    else
      var column := (ts[0].name, TypeOfWord(ts[1].word).value);
      if ts[2] == Symbol(')') && |ts| == 3 then Some([column])
      else if ts[2] != Symbol(',') then None
      else
        match ReadColumns(ts[3..])
        case None => None
        case Some(columns) => Some([column] + columns)
  }

  function ParseSchema(ts: seq<Token>): Option<Statement> {
    match ReadName(ts, 2)
    case Some((schema, rest)) => if rest == [] then Some(CreateSchema(schema)) else None
    case None => None
  }

  function ParseDrop(ts: seq<Token>): Option<Statement> {
    match ReadName(ts, 3)
    case Some((name, rest)) => if rest == [] then Some(DropIfExists(name)) else None
    case None => None
  }

  function ParseTable(ts: seq<Token>): Option<Statement> {
    match ReadName(ts, 3)
    case None => None
    case Some((name, rest)) =>
      if rest == [] || rest[0] != Symbol('(') then None
      else
        match ReadColumns(rest[1..])
        case None => None
        case Some(columns) => Some(CreateTable(name, columns))
  }

  function ParseSwap(ts: seq<Token>): Option<Statement> {
    match ReadName(ts, 3)
    case None => None
    case Some((target, rest)) =>
      if |rest| < 4 || rest[..4] != [Word("AS"), Word("SELECT"), Symbol('*'), Word("FROM")] then None
      else
        match ReadName(rest[4..], 3)
        case Some((source, after)) => if after == [] then Some(CreateOrReplaceAs(target, source)) else None
        case None => None
  }

  function Parse(ts: seq<Token>): Option<Statement> {
    if HasWords(ts, SCHEMA_WORDS) then ParseSchema(ts[5..])
    else if HasWords(ts, SWAP_WORDS) then ParseSwap(ts[4..])
    else if HasWords(ts, TABLE_WORDS) then ParseTable(ts[2..])
    else if HasWords(ts, DROP_WORDS) then ParseDrop(ts[4..])
    else
      match ReadInsert(ts)
      case None => None
      case Some((name, rows)) => Some(InsertInto(name, rows))
  }

  function ReadStatement(sql: string): Option<Statement> {
    match Lex(sql)
    case None => None
    case Some(ts) => Parse(ts)
  }

  // ----- reading undoes writing -----

  lemma NameOfAny(parts: Name)
    requires parts != []
    ensures Spells(NamePieces(parts), Dotted(parts), TokensOf(NamePieces(parts)))
    ensures var p := NamePieces(parts); p != [] && p[|p| - 1].Tok? && p[|p| - 1].t.Ident?
  {
    NamePiecesWellFormed(parts);
    SpellName(parts);
  }

  lemma {:induction false} ReadNameBack(parts: Name, rest: seq<Token>)
    requires parts != []
    ensures ReadName(TokensOf(NamePieces(parts)) + rest, |parts|) == Some((parts, rest))
  {
    var ts := TokensOf(NamePieces(parts)) + rest;
    if |parts| == 1 {
      assert NamePieces(parts) == [Tok(Ident(parts[0]))] && TokensOf(NamePieces(parts)) == [Ident(parts[0])];
      assert ts[1..] == rest && parts == [parts[0]];
    } else {
      NameTokensStep(parts);
      ReadNameBack(parts[1..], rest);
      assert ts[2..] == TokensOf(NamePieces(parts[1..])) + rest;
      Uncons(parts);
    }
  }

  /** A statement of keywords and one name. */
  lemma WordsThenName(words: seq<string>, name: Name)
    requires words != [] && name != [] && forall i :: 0 <= i < |words| ==> WordText(words[i])
    ensures Lex(Words(words, Dotted(name))) == Some(WordTokensOf(words) + TokensOf(NamePieces(name)))
  {
    NameOfAny(name);
    LeadSpells(words, WordTokensOf(words), NamePieces(name), Dotted(name), TokensOf(NamePieces(name)));
    LexUndoesSpell(WordPieces(words) + NamePieces(name));
  }

  function WordTokensOf(words: seq<string>): (ts: seq<Token>)
    ensures |ts| == |words| && forall i :: 0 <= i < |words| ==> ts[i] == Word(words[i])
  {
    seq(|words|, i requires 0 <= i < |words| => Word(words[i]))
  }

  lemma KeywordsDiffer()
    ensures "CREATE" != "DROP" && "CREATE" != "INSERT" && "DROP" != "INSERT" && "SCHEMA" != "OR" && "SCHEMA" != "TABLE" && "OR" != "TABLE"
  {
    assert "CREATE"[0] != "DROP"[0] && "CREATE"[0] != "INSERT"[0] && "DROP"[0] != "INSERT"[0];
    assert "SCHEMA"[0] != "OR"[0] && "SCHEMA"[0] != "TABLE"[0] && "OR"[0] != "TABLE"[0];
  }

  lemma KeywordsLead(words: seq<string>, rest: seq<Token>)
    ensures HasWords(WordTokensOf(words) + rest, words) && (WordTokensOf(words) + rest)[|words|..] == rest
  {
  }

  lemma OtherKeywords(ts: seq<Token>, words: seq<string>, other: seq<string>)
    requires HasWords(ts, words) && |words| >= 2 && |other| >= 2 && (words[0] != other[0] || words[1] != other[1])
    ensures !HasWords(ts, other)
  {
    assert ts[0] == Word(words[0]) && ts[1] == Word(words[1]);
  }

  /** Which rule of the parser the keywords choose. */
  lemma SchemaChosen(rest: seq<Token>)
    ensures Parse(WordTokensOf(SCHEMA_WORDS) + rest) == ParseSchema(rest)
  {
    KeywordsLead(SCHEMA_WORDS, rest);
  }

  lemma SwapChosen(rest: seq<Token>)
    ensures Parse(WordTokensOf(SWAP_WORDS) + rest) == ParseSwap(rest)
  {
    hide ParseSwap, HasWords, WordTokensOf;
    KeywordsLead(SWAP_WORDS, rest);
    KeywordsDiffer();
    OtherKeywords(WordTokensOf(SWAP_WORDS) + rest, SWAP_WORDS, SCHEMA_WORDS);
  }

  lemma TableChosen(rest: seq<Token>)
    ensures Parse(WordTokensOf(TABLE_WORDS) + rest) == ParseTable(rest)
  {
    hide ParseTable, HasWords, WordTokensOf;
    var ts := WordTokensOf(TABLE_WORDS) + rest;
    KeywordsLead(TABLE_WORDS, rest);
    KeywordsDiffer();
    OtherKeywords(ts, TABLE_WORDS, SCHEMA_WORDS);
    OtherKeywords(ts, TABLE_WORDS, SWAP_WORDS);
  }

  lemma DropChosen(rest: seq<Token>)
    ensures Parse(WordTokensOf(DROP_WORDS) + rest) == ParseDrop(rest)
  {
    hide ParseDrop, HasWords, WordTokensOf;
    var ts := WordTokensOf(DROP_WORDS) + rest;
    KeywordsLead(DROP_WORDS, rest);
    KeywordsDiffer();
    OtherKeywords(ts, DROP_WORDS, SCHEMA_WORDS);
    OtherKeywords(ts, DROP_WORDS, SWAP_WORDS);
    OtherKeywords(ts, DROP_WORDS, TABLE_WORDS);
  }

  lemma SchemaReadsBack(schema: Name)
    requires |schema| == 2
    ensures ReadStatement(SchemaText(schema)) == Some(CreateSchema(schema))
  {
    var words, name := SCHEMA_WORDS, TokensOf(NamePieces(schema));
    WordsThenName(words, schema);
    SchemaChosen(name);
    ReadNameBack(schema, []);
    assert name + [] == name;
  }

  lemma DropReadsBack(name: Name)
    requires |name| == 3
    ensures ReadStatement(DropText(name)) == Some(DropIfExists(name))
  {
    var words, tokens := DROP_WORDS, TokensOf(NamePieces(name));
    WordsThenName(words, name);
    DropChosen(tokens);
    ReadNameBack(name, []);
    assert tokens + [] == tokens;
  }

  /** ` AS SELECT * FROM source`. */
  function SourceTokens(source: Name): seq<Token> {
    [Word("AS"), Word("SELECT")] + ([Symbol('*')] + ([] + ([Word("FROM")] + TokensOf(NamePieces(source)))))
  }

  lemma FromSpells(source: Name) returns (pieces: seq<Piece>)
    requires source != []
    ensures Spells(pieces, " " + Words(["FROM"], Dotted(source)), [] + ([Word("FROM")] + TokensOf(NamePieces(source))))
    ensures pieces != [] && pieces[0] == Space
  {
    var name := NamePieces(source);
    NameOfAny(source);
    LeadSpells(["FROM"], [Word("FROM")], name, Dotted(source), TokensOf(name));
    SpellsOne(Space);
    pieces := [Space] + (WordPieces(["FROM"]) + name);
    SpellsConcat([Space], " ", [], WordPieces(["FROM"]) + name, Words(["FROM"], Dotted(source)), [Word("FROM")] + TokensOf(name));
  }

  lemma SourceSpells(source: Name) returns (pieces: seq<Piece>)
    requires source != []
    ensures Spells(pieces, " " + Words(["AS", "SELECT"], "*" + (" " + Words(["FROM"], Dotted(source)))), [] + SourceTokens(source))
    ensures pieces != [] && pieces[0] == Space
  {
    hide Words, Dotted, NamePieces;
    var star, text, tokens := Tok(Symbol('*')), " " + Words(["FROM"], Dotted(source)), [] + ([Word("FROM")] + TokensOf(NamePieces(source)));
    var from := FromSpells(source);
    SpellsOne(star);
    SpellsConcat([star], "*", [Symbol('*')], from, text, tokens);
    assert WordText("AS") && WordText("SELECT");
    LeadSpells(["AS", "SELECT"], [Word("AS"), Word("SELECT")], [star] + from, "*" + text, [Symbol('*')] + tokens);
    SpellsOne(Space);
    pieces := [Space] + (WordPieces(["AS", "SELECT"]) + ([star] + from));
    SpellsConcat([Space], " ", [], WordPieces(["AS", "SELECT"]) + ([star] + from),
                 Words(["AS", "SELECT"], "*" + text), SourceTokens(source));
  }

  lemma NameThenSpells(words: seq<string>, name: Name, after: seq<Piece>, text: string, tokens: seq<Token>)
    requires words != [] && name != [] && forall i :: 0 <= i < |words| ==> WordText(words[i])
    requires Spells(after, text, tokens) && after != [] && after[0] == Space
    ensures Lex(Words(words, Dotted(name) + text)) == Some(WordTokensOf(words) + (TokensOf(NamePieces(name)) + tokens))
  {
    NameOfAny(name);
    SpellsConcat(NamePieces(name), Dotted(name), TokensOf(NamePieces(name)), after, text, tokens);
    LeadSpells(words, WordTokensOf(words), NamePieces(name) + after, Dotted(name) + text, TokensOf(NamePieces(name)) + tokens);
    LexUndoesSpell(WordPieces(words) + (NamePieces(name) + after));
  }

  lemma SwapReadsBack(target: Name, source: Name)
    requires |target| == |source| == 3
    ensures ReadStatement(SwapText(target, source)) == Some(CreateOrReplaceAs(target, source))
  {
    var words, tokens := SWAP_WORDS, [] + SourceTokens(source);
    var pieces := SourceSpells(source);
    NameThenSpells(words, target, pieces, " " + Words(["AS", "SELECT"], "*" + (" " + Words(["FROM"], Dotted(source)))), tokens);
    SwapChosen(TokensOf(NamePieces(target)) + tokens);
    ReadNameBack(target, tokens);
    ReadNameBack(source, []);
    SourceTokensSplit(source);
  }

  lemma SourceTokensSplit(source: Name)
    ensures var ts := [] + SourceTokens(source);
      && |ts| >= 4 && ts[..4] == [Word("AS"), Word("SELECT"), Symbol('*'), Word("FROM")]
      && ts[4..] == TokensOf(NamePieces(source)) + []
  {
  }

  // ----- the columns of a new table -----

  function ColumnPieces(columns: seq<Column>): seq<Piece> {
    if columns == [] then []
    else
      var one := [Tok(Ident(columns[0].0)), Space, Tok(Word(TypeWord(columns[0].1)))];
      if |columns| == 1 then one else one + ([Tok(Symbol(',')), Space] + ColumnPieces(columns[1..]))
  }

  function ColumnTokens(columns: seq<Column>): seq<Token> {
    if columns == [] then []
    else
      var one := [Ident(columns[0].0), Word(TypeWord(columns[0].1))];
      if |columns| == 1 then one else one + ([Symbol(',')] + ColumnTokens(columns[1..]))
  }

  lemma TypeBack(ty: SqlType)
    ensures TypeOfWord(TypeWord(ty)) == Some(ty) && WordText(TypeWord(ty))
  {
    assert "varchar"[0] == 'v' && "bigint"[1] == 'i' && "double"[0] == 'd' && "boolean"[1] == 'o';
  }

  lemma OneColumnSpells(name: string, ty: SqlType)
    ensures Spells([Tok(Ident(name)), Space, Tok(Word(TypeWord(ty)))], QuoteIdent(name) + (" " + TypeWord(ty)),
                   [Ident(name), Word(TypeWord(ty))])
  {
    var i, w := Tok(Ident(name)), Tok(Word(TypeWord(ty)));
    TypeBack(ty);
    SpellTwo(i, Space, [w]);
    SpellsOne(w);
    assert [i, Space] + [w] == [i, Space, w];
    assert [Ident(name)] + ([] + [Word(TypeWord(ty))]) == [Ident(name), Word(TypeWord(ty))];
  }

  lemma {:induction false} ColumnsSpell(columns: seq<Column>)
    requires columns != []
    ensures Spells(ColumnPieces(columns), ColumnsText(columns), ColumnTokens(columns))
    ensures var p := ColumnPieces(columns); p != [] && p[|p| - 1].Tok? && p[|p| - 1].t.Word?
  {
    var (name, ty) := columns[0];
    OneColumnSpells(name, ty);
    if |columns| > 1 {
      var tail, text := ColumnPieces(columns[1..]), ColumnsText(columns[1..]);
      ColumnsSpell(columns[1..]);
      SeparatorSpells(tail, text, ColumnTokens(columns[1..]));
      SpellsConcat([Tok(Ident(name)), Space, Tok(Word(TypeWord(ty)))], QuoteIdent(name) + (" " + TypeWord(ty)),
                   [Ident(name), Word(TypeWord(ty))],
                   [Tok(Symbol(',')), Space] + tail, ", " + text, [Symbol(',')] + ColumnTokens(columns[1..]));
    }
  }

  lemma {:induction false} ReadColumnsBack(columns: seq<Column>)
    requires columns != []
    ensures ReadColumns(ColumnTokens(columns) + [Symbol(')')]) == Some(columns)
  {
    var ts := ColumnTokens(columns) + [Symbol(')')];
    TypeBack(columns[0].1);
    Uncons(columns);
    if |columns| == 1 {
      assert ts == [Ident(columns[0].0), Word(TypeWord(columns[0].1)), Symbol(')')];
      assert columns == [(columns[0].0, columns[0].1)];
    } else {
      ReadColumnsBack(columns[1..]);
      assert ts[3..] == ColumnTokens(columns[1..]) + [Symbol(')')];
    }
  }

  lemma ColumnListSpells(columns: seq<Column>) returns (pieces: seq<Piece>)
    requires columns != []
    ensures Spells(pieces, " " + ("(" + (ColumnsText(columns) + ")")), [] + ([Symbol('(')] + (ColumnTokens(columns) + [Symbol(')')])))
    ensures pieces != [] && pieces[0] == Space
  {
    var open, close, inner := Tok(Symbol('(')), Tok(Symbol(')')), ColumnPieces(columns);
    ColumnsSpell(columns);
    SpellsOne(close);
    SpellsConcat(inner, ColumnsText(columns), ColumnTokens(columns), [close], ")", [Symbol(')')]);
    SpellsOne(open);
    SpellsConcat([open], "(", [Symbol('(')], inner + [close], ColumnsText(columns) + ")", ColumnTokens(columns) + [Symbol(')')]);
    SpellsOne(Space);
    pieces := [Space] + ([open] + (inner + [close]));
    SpellsConcat([Space], " ", [], [open] + (inner + [close]), "(" + (ColumnsText(columns) + ")"),
                 [Symbol('(')] + (ColumnTokens(columns) + [Symbol(')')]));
  }

  lemma TableReadsBack(name: Name, columns: seq<Column>)
    requires |name| == 3 && columns != []
    ensures ReadStatement(TableText(name, columns)) == Some(CreateTable(name, columns))
  {
    var words := TABLE_WORDS;
    var tokens := [] + ([Symbol('(')] + (ColumnTokens(columns) + [Symbol(')')]));
    var pieces := ColumnListSpells(columns);
    NameThenSpells(words, name, pieces, " " + ("(" + (ColumnsText(columns) + ")")), tokens);
    TableChosen(TokensOf(NamePieces(name)) + tokens);
    ReadNameBack(name, tokens);
    ReadColumnsBack(columns);
    assert tokens[0] == Symbol('(') && tokens[1..] == ColumnTokens(columns) + [Symbol(')')];
  }

  lemma ChosenForInsert(ts: seq<Token>)
    requires ts != [] && ts[0] == Word("INSERT") && ReadInsert(ts).Some?
    ensures Parse(ts) == Some(InsertInto(ReadInsert(ts).value.0, ReadInsert(ts).value.1))
  {
    hide ReadInsert;
    KeywordsDiffer();
    assert forall words: seq<string> :: words != [] && words[0] != "INSERT" ==> !HasWords(ts, words);
  }

  lemma InsertIsRead(name: Name, rows: seq<seq<Value>>, types: seq<SqlType>)
    requires |name| == 3 && rows != [] && Fits(rows, types) && types != [] && PrintableRows(rows)
    ensures ReadStatement(InsertStatement(name, rows, types)) == Some(InsertInto(name, StoredRows(rows, types)))
  {
    hide ReadInsert, Lex, Parse, InsertStatement, RowsPieces;
    assert name == [name[0], name[1], name[2]];
    InsertLexes(name[0], name[1], name[2], rows, types);
    InsertReadsBack(name[0], name[1], name[2], rows, types);
    ChosenForInsert(InsertTokens(name[0], name[1], name[2], TokensOf(RowsPieces(rows, types))));
  }
}

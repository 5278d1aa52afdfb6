/** The INSERT statements of a load, as text: written by the gateway, read back row by row. */
module InsertText {
  import opened Decimal
  import opened Quoting
  import opened Tabular
  import opened Text
  import opened Wrappers

  // ----- what the gateway writes -----

  /** A value, given its column's type: in a varchar column everything but null is a quoted text. */
  function SqlLiteralFor(v: Value, ty: SqlType): string {
    match v
    case Null => "NULL"
    case Str(s) => Quoted(s, '\'')
    case Nested(j) => Quoted(j, '\'')
    case _ => if ty.Varchar? then "'" + Shown(v) + "'" else Shown(v)
  }

  /** `row.iter().zip(types)` joined by commas: the shorter of the two decides. */
  function LiteralsText(row: seq<Value>, types: seq<SqlType>): string {
    if row == [] || types == [] then ""
    else if |row| == 1 || |types| == 1 then SqlLiteralFor(row[0], types[0])
    else SqlLiteralFor(row[0], types[0]) + (", " + LiteralsText(row[1..], types[1..]))
  }

  function RowText(row: seq<Value>, types: seq<SqlType>): string {
    "(" + (LiteralsText(row, types) + ")")
  }

  function ValuesText(rows: seq<seq<Value>>, types: seq<SqlType>): string {
    if rows == [] then ""
    else if |rows| == 1 then RowText(rows[0], types)
    else RowText(rows[0], types) + (", " + ValuesText(rows[1..], types))
  }

  function InsertStatement(name: seq<string>, rows: seq<seq<Value>>, types: seq<SqlType>): string {
    Words(["INSERT", "INTO"], Dotted(name) + (" " + Words(["VALUES"], ValuesText(rows, types))))
  }

  // ----- what the engine reads -----

  /** A stored value: numbers keep the text they were written as. */
  datatype Datum = Missing | Flag(b: bool) | Num(text: string) | Chars(s: string)

  function ReadDatum(ts: seq<Token>): Option<(Datum, seq<Token>)> {
    if ts == [] then None
    else match ts[0]
      case Literal(s) => Some((Chars(s), ts[1..]))
      case Number(n) => Some((Num(n), ts[1..]))
      case Word(w) =>
        if w == "NULL" then Some((Missing, ts[1..]))
        else if w == "true" then Some((Flag(true), ts[1..]))
        else if w == "false" then Some((Flag(false), ts[1..]))
        else None
      case Symbol(c) =>
        if c == '-' && |ts| > 1 && ts[1].Number? then Some((Num("-" + ts[1].digits), ts[2..])) else None
      case Ident(_) => None
  }

  /** The rest of a row after its opening parenthesis or a comma, and what follows the row. */
  function ReadRow(ts: seq<Token>): (r: Option<(seq<Datum>, seq<Token>)>)
    ensures r.Some? ==> |r.value.1| < |ts|
    decreases |ts|
  {
    match ReadDatum(ts)
    case None => None
    case Some((d, rest)) =>
      if rest == [] then None
      else if rest[0] == Symbol(')') then Some(([d], rest[1..]))
      else if rest[0] == Symbol(',') then
        match ReadRow(rest[1..])
        case None => None
        case Some((ds, after)) => Some(([d] + ds, after))
      else None
  }

  function ReadRows(ts: seq<Token>): Option<seq<seq<Datum>>>
    decreases |ts|
  {
    if ts == [] || ts[0] != Symbol('(') then None
    else match ReadRow(ts[1..])
      case None => None
      case Some((row, rest)) =>
        if rest == [] then Some([row])
        else if rest[0] != Symbol(',') then None
        else match ReadRows(rest[1..])
          case None => None
          case Some(rows) => Some([row] + rows)
  }

  /** `INSERT INTO a.b.c VALUES ...`: the table and the rows. */
  function ReadInsert(ts: seq<Token>): Option<(seq<string>, seq<seq<Datum>>)> {
    if |ts| > 8 && ts[0] == Word("INSERT") && ts[1] == Word("INTO") && ts[2].Ident? && ts[3] == Symbol('.')
      && ts[4].Ident? && ts[5] == Symbol('.') && ts[6].Ident? && ts[7] == Word("VALUES")
    then
      match ReadRows(ts[8..])
      case None => None
      case Some(rows) => Some(([ts[2].name, ts[4].name, ts[6].name], rows))
    else None
  }

  // ----- reading undoes writing -----

  /** What a value becomes in a column of the given type. */
  function Stored(v: Value, ty: SqlType): Datum {
    match v
    case Null => Missing
    case Str(s) => Chars(s)
    case Nested(j) => Chars(j)
    case Bool(b) => if ty.Varchar? then Chars(Shown(v)) else Flag(b)
    case _ => if ty.Varchar? then Chars(Shown(v)) else Num(Shown(v))
  }

  function StoredRow(row: seq<Value>, types: seq<SqlType>): (data: seq<Datum>)
    requires |row| == |types|
    ensures |data| == |row|
    ensures forall j :: 0 <= j < |row| ==> data[j] == Stored(row[j], types[j])
  {
    if row == [] then [] else [Stored(row[0], types[0])] + StoredRow(row[1..], types[1..])
  }

  /** Every row has one value per column type. */
  predicate Fits(rows: seq<seq<Value>>, types: seq<SqlType>) {
    forall i :: 0 <= i < |rows| ==> |rows[i]| == |types|
  }

  function StoredRows(rows: seq<seq<Value>>, types: seq<SqlType>): (data: seq<seq<Datum>>)
    requires Fits(rows, types)
    ensures |data| == |rows|
    ensures forall i :: 0 <= i < |rows| ==> data[i] == StoredRow(rows[i], types)
  {
    if rows == [] then [] else [StoredRow(rows[0], types)] + StoredRows(rows[1..], types)
  }

  /** A float prints as an optional minus sign and a number. */
  predicate Printable(v: Value) {
    v.Float? ==> NumberText(Unsigned(v.text))
  }

  predicate PrintableRow(row: seq<Value>) {
    forall j :: 0 <= j < |row| ==> Printable(row[j])
  }

  predicate PrintableRows(rows: seq<seq<Value>>) {
    forall i :: 0 <= i < |rows| ==> PrintableRow(rows[i])
  }

  function NumberPieces(text: string): seq<Piece> {
    if text != "" && text[0] == '-' then [Tok(Symbol('-')), Tok(Number(text[1..]))] else [Tok(Number(text))]
  }

  function ValuePieces(v: Value, ty: SqlType): seq<Piece> {
    match v
    case Null => [Tok(Word("NULL"))]
    case Str(s) => [Tok(Literal(s))]
    case Nested(j) => [Tok(Literal(j))]
    case Bool(b) => if ty.Varchar? then [Tok(Literal(Shown(v)))] else [Tok(Word(Shown(v)))]
    case _ => if ty.Varchar? then [Tok(Literal(Shown(v)))] else NumberPieces(Shown(v))
  }

  function RestPieces(row: seq<Value>, types: seq<SqlType>): seq<Piece>
    requires |row| == |types|
  {
    if row == [] then []
    else if |row| == 1 then ValuePieces(row[0], types[0])
    else ValuePieces(row[0], types[0]) + ([Tok(Symbol(',')), Space] + RestPieces(row[1..], types[1..]))
  }

  function RowPieces(row: seq<Value>, types: seq<SqlType>): seq<Piece>
    requires |row| == |types|
  {
    [Tok(Symbol('('))] + (RestPieces(row, types) + [Tok(Symbol(')'))])
  }

  function RowsPieces(rows: seq<seq<Value>>, types: seq<SqlType>): seq<Piece>
    requires Fits(rows, types)
  {
    if rows == [] then []
    else if |rows| == 1 then RowPieces(rows[0], types)
    else RowPieces(rows[0], types) + ([Tok(Symbol(',')), Space] + RowsPieces(rows[1..], types))
  }

  lemma {:induction false} DoubleUpKeeps(s: string, q: char)
    requires q !in s
    ensures DoubleUp(s, q) == s
  {
    if s != "" {
      DoubleUpKeeps(s[1..], q);
      Uncons(s);
    }
  }

  lemma DigitsAreNumber(n: nat)
    ensures NumberText(Digits(n)) && Digits(n)[0] != '-'
  {
    DigitsCanonical(n);
  }

  lemma NoQuoteInNumber(s: string)
    requires NumberText(Unsigned(s))
    ensures '\'' !in s
  {
    var u := Unsigned(s);
    forall i | 0 <= i < |u| ensures u[i] != '\'' {
      if i > 0 {
        assert InNumber(u[i - 1], u[i]);
      }
    }
    assert s == u || s == "-" + u;
  }

  lemma ShownIsNumber(v: Value)
    requires Printable(v) && (v.Int? || v.Float?)
    ensures NumberText(Unsigned(Shown(v)))
    ensures DoubleUp(Shown(v), '\'') == Shown(v)
  {
    if v.Int? {
      DigitsAreNumber(if v.n < 0 then -v.n else v.n);
      assert v.n < 0 ==> Print(v.n)[1..] == Digits(-v.n);
    }
    NoQuoteInNumber(Shown(v));
    DoubleUpKeeps(Shown(v), '\'');
  }

  /** The last piece of a value: a comma or a parenthesis may follow it. */
  predicate Closed(pieces: seq<Piece>) {
    && pieces != []
    && var last := pieces[|pieces| - 1];
    && MayFollow(last, Tok(Symbol(','))) && MayFollow(last, Tok(Symbol(')')))
  }

  lemma NumberSpells(text: string)
    requires NumberText(Unsigned(text))
    ensures Spells(NumberPieces(text), text, TokensOf(NumberPieces(text)))
    ensures Closed(NumberPieces(text))
  {
    var p := NumberPieces(text);
    if text[0] == '-' {
      SpellTwo(p[0], p[1], []);
      assert p == [p[0], p[1]] + [];
      assert text == "-" + (text[1..] + "");
    } else {
      SpellsOne(p[0]);
    }
  }

  lemma NumberValueSpells(v: Value, ty: SqlType)
    requires Printable(v) && (v.Int? || v.Float?)
    ensures Spells(ValuePieces(v, ty), SqlLiteralFor(v, ty), TokensOf(ValuePieces(v, ty)))
    ensures Closed(ValuePieces(v, ty))
  {
    ShownIsNumber(v);
    if ty.Varchar? {
      SpellsOne(Tok(Literal(Shown(v))));
    } else {
      NumberSpells(Shown(v));
    }
  }

  lemma BoolValueSpells(v: Value, ty: SqlType)
    requires v.Bool?
    ensures Spells(ValuePieces(v, ty), SqlLiteralFor(v, ty), TokensOf(ValuePieces(v, ty)))
    ensures Closed(ValuePieces(v, ty))
  {
    if ty.Varchar? {
      DoubleUpKeeps(Shown(v), '\'');
      SpellsOne(Tok(Literal(Shown(v))));
    } else {
      SpellsOne(Tok(Word(Shown(v))));
    }
  }

  lemma ValueSpells(v: Value, ty: SqlType)
    requires Printable(v)
    ensures Spells(ValuePieces(v, ty), SqlLiteralFor(v, ty), TokensOf(ValuePieces(v, ty)))
    ensures Closed(ValuePieces(v, ty))
  {
    match v
    case Null => SpellsOne(Tok(Word("NULL")));
    case Str(s) => SpellsOne(Tok(Literal(s)));
    case Nested(j) => SpellsOne(Tok(Literal(j)));
    case Bool(_) => BoolValueSpells(v, ty);
    case _ => NumberValueSpells(v, ty);
  }

  lemma ReadValue(v: Value, ty: SqlType, rest: seq<Token>)
    requires Printable(v)
    ensures ReadDatum(TokensOf(ValuePieces(v, ty)) + rest) == Some((Stored(v, ty), rest))
  {
    var p := ValuePieces(v, ty);
    if (v.Int? || v.Float?) && !ty.Varchar? && Shown(v) != "" && Shown(v)[0] == '-' {
      SpellTwo(p[0], p[1], []);
      assert p == [p[0], p[1]] + [];
      var ts := TokensOf(p) + rest;
      assert ts == [Symbol('-'), Number(Shown(v)[1..])] + rest && ts[2..] == rest;
      assert Shown(v) == "-" + Shown(v)[1..];
    } else {
      assert p == [p[0]] && p[1..] == [];
      assert TokensOf(p) == [p[0].t];
      var ts := TokensOf(p) + rest;
      assert ts[0] == p[0].t && ts[1..] == rest;
    }
  }

  lemma SeparatorSpells(pieces: seq<Piece>, text: string, tokens: seq<Token>)
    requires Spells(pieces, text, tokens)
    ensures Spells([Tok(Symbol(',')), Space] + pieces, ", " + text, [Symbol(',')] + tokens)
  {
    var comma := Tok(Symbol(','));
    SpellsOne(Space);
    SpellsOne(comma);
    SpellsConcat([comma], ",", [Symbol(',')], [Space], " ", []);
    assert [comma] + [Space] == [comma, Space] && "," + " " == ", " && [Symbol(',')] + [] == [Symbol(',')];
    SpellsConcat([comma, Space], ", ", [Symbol(',')], pieces, text, tokens);
  }

  lemma {:induction false} RestSpells(row: seq<Value>, types: seq<SqlType>)
    requires |row| == |types| && row != [] && PrintableRow(row)
    ensures Spells(RestPieces(row, types), LiteralsText(row, types), TokensOf(RestPieces(row, types)))
    ensures Closed(RestPieces(row, types))
  {
    var v := ValuePieces(row[0], types[0]);
    ValueSpells(row[0], types[0]);
    if |row| > 1 {
      var tail := RestPieces(row[1..], types[1..]);
      var text := LiteralsText(row[1..], types[1..]);
      RestSpells(row[1..], types[1..]);
      SeparatorSpells(tail, text, TokensOf(tail));
      SpellsConcat(v, SqlLiteralFor(row[0], types[0]), TokensOf(v),
                   [Tok(Symbol(',')), Space] + tail, ", " + text, [Symbol(',')] + TokensOf(tail));
    }
  }

  /** The tokens of a row's cells and its closing parenthesis, in front of what follows the row. */
  function RestTokens(row: seq<Value>, types: seq<SqlType>, after: seq<Token>): seq<Token>
    requires |row| == |types| && row != []
  {
    TokensOf(ValuePieces(row[0], types[0]))
    + (if |row| == 1 then [Symbol(')')] + after else [Symbol(',')] + RestTokens(row[1..], types[1..], after))
  }

  function RowsTokens(rows: seq<seq<Value>>, types: seq<SqlType>): seq<Token>
    requires rows != [] && Fits(rows, types) && types != []
  {
    [Symbol('(')] + RestTokens(rows[0], types, if |rows| == 1 then [] else [Symbol(',')] + RowsTokens(rows[1..], types))
  }

  lemma SeparatorTokens(tail: seq<Piece>)
    ensures TokensOf([Tok(Symbol(',')), Space] + tail) == [Symbol(',')] + TokensOf(tail)
  {
    SpellTwo(Tok(Symbol(',')), Space, tail);
    assert [] + TokensOf(tail) == TokensOf(tail);
  }

  lemma {:induction false} RestTokensOf(row: seq<Value>, types: seq<SqlType>, after: seq<Token>)
    requires |row| == |types| && row != []
    ensures TokensOf(RestPieces(row, types)) + ([Symbol(')')] + after) == RestTokens(row, types, after)
  {
    if |row| > 1 {
      var v, tail := ValuePieces(row[0], types[0]), RestPieces(row[1..], types[1..]);
      RestTokensOf(row[1..], types[1..], after);
      SpellConcat(v, [Tok(Symbol(',')), Space] + tail);
      SeparatorTokens(tail);
      Glue(TokensOf(v), [Symbol(',')] + TokensOf(tail), [Symbol(')')] + after);
      Glue([Symbol(',')], TokensOf(tail), [Symbol(')')] + after);
    }
  }

  lemma {:induction false} ReadRest(row: seq<Value>, types: seq<SqlType>, after: seq<Token>)
    requires |row| == |types| && row != [] && PrintableRow(row)
    ensures ReadRow(RestTokens(row, types, after)) == Some((StoredRow(row, types), after))
  {
    if |row| == 1 {
      var next := [Symbol(')')] + after;
      ReadValue(row[0], types[0], next);
      assert next[1..] == after;
      assert StoredRow(row, types) == [Stored(row[0], types[0])];
    } else {
      var next := [Symbol(',')] + RestTokens(row[1..], types[1..], after);
      ReadRest(row[1..], types[1..], after);
      ReadValue(row[0], types[0], next);
      assert next[1..] == RestTokens(row[1..], types[1..], after);
    }
  }

  lemma RowSpells(row: seq<Value>, types: seq<SqlType>)
    requires |row| == |types| && row != [] && PrintableRow(row)
    ensures Spells(RowPieces(row, types), RowText(row, types),
                   [Symbol('(')] + (TokensOf(RestPieces(row, types)) + [Symbol(')')]))
    ensures Closed(RowPieces(row, types))
  {
    var inner, open, close := RestPieces(row, types), Tok(Symbol('(')), Tok(Symbol(')'));
    RestSpells(row, types);
    SpellsOne(close);
    SpellsConcat(inner, LiteralsText(row, types), TokensOf(inner), [close], ")", [Symbol(')')]);
    SpellsOne(open);
    SpellsConcat([open], "(", [Symbol('(')], inner + [close], LiteralsText(row, types) + ")", TokensOf(inner) + [Symbol(')')]);
  }

  lemma {:induction false} RowsSpell(rows: seq<seq<Value>>, types: seq<SqlType>)
    requires rows != [] && Fits(rows, types) && types != [] && PrintableRows(rows)
    ensures Spells(RowsPieces(rows, types), ValuesText(rows, types), TokensOf(RowsPieces(rows, types)))
    ensures RowsPieces(rows, types) != []
    decreases |rows|
  {
    var r := RowPieces(rows[0], types);
    RowSpells(rows[0], types);
    if |rows| > 1 {
      var tail, text := RowsPieces(rows[1..], types), ValuesText(rows[1..], types);
      RowsSpell(rows[1..], types);
      SeparatorSpells(tail, text, TokensOf(tail));
      SpellsConcat(r, RowText(rows[0], types), TokensOf(r),
                   [Tok(Symbol(',')), Space] + tail, ", " + text, [Symbol(',')] + TokensOf(tail));
    }
  }

  lemma RowTokensOf(row: seq<Value>, types: seq<SqlType>, after: seq<Token>)
    requires |row| == |types| && row != [] && PrintableRow(row)
    ensures TokensOf(RowPieces(row, types)) + after == [Symbol('(')] + RestTokens(row, types, after)
  {
    RowSpells(row, types);
    RestTokensOf(row, types, after);
    var inner := TokensOf(RestPieces(row, types));
    Glue([Symbol('(')], inner + [Symbol(')')], after);
    Glue(inner, [Symbol(')')], after);
  }

  lemma {:induction false} RowsTokensOf(rows: seq<seq<Value>>, types: seq<SqlType>)
    requires rows != [] && Fits(rows, types) && types != [] && PrintableRows(rows)
    ensures TokensOf(RowsPieces(rows, types)) == RowsTokens(rows, types)
    decreases |rows|
  {
    if |rows| == 1 {
      RowTokensOf(rows[0], types, []);
      assert TokensOf(RowPieces(rows[0], types)) + [] == TokensOf(RowPieces(rows[0], types));
    } else {
      var tail := RowsPieces(rows[1..], types);
      RowsTokensOf(rows[1..], types);
      RowTokensOf(rows[0], types, [Symbol(',')] + TokensOf(tail));
      SpellConcat(RowPieces(rows[0], types), [Tok(Symbol(',')), Space] + tail);
      SeparatorTokens(tail);
    }
  }

  lemma {:induction false} ReadAllRows(rows: seq<seq<Value>>, types: seq<SqlType>)
    requires rows != [] && Fits(rows, types) && types != [] && PrintableRows(rows)
    ensures ReadRows(RowsTokens(rows, types)) == Some(StoredRows(rows, types))
    decreases |rows|
  {
    var after := if |rows| == 1 then [] else [Symbol(',')] + RowsTokens(rows[1..], types);
    var ts := RowsTokens(rows, types);
    ReadRest(rows[0], types, after);
    assert ts[0] == Symbol('(') && ts[1..] == RestTokens(rows[0], types, after);
    if |rows| == 1 {
      assert StoredRows(rows, types) == [StoredRow(rows[0], types)];
    } else {
      ReadAllRows(rows[1..], types);
      assert after[1..] == RowsTokens(rows[1..], types);
    }
  }

  // ----- the whole statement -----

  lemma NameThree(a: string, b: string, c: string)
    ensures Spells(NamePieces([a, b, c]), Dotted([a, b, c]), [Ident(a), Symbol('.'), Ident(b), Symbol('.'), Ident(c)])
    ensures NamePieces([a, b, c]) != []
    ensures NamePieces([a, b, c])[|NamePieces([a, b, c])| - 1] == Tok(Ident(c))
  {
    NamePiecesWellFormed([a, b, c]);
    SpellName([a, b, c]);
    NameTokensStep([a, b, c]);
    NameTokensStep([b, c]);
    assert [a, b, c][1..] == [b, c] && [b, c][1..] == [c];
    assert NamePieces([c]) == [Tok(Ident(c))];
  }

  lemma ValuesClauseSpells(rows: seq<seq<Value>>, types: seq<SqlType>)
    requires rows != [] && Fits(rows, types) && types != [] && PrintableRows(rows)
    ensures Spells([Space] + (WordPieces(["VALUES"]) + RowsPieces(rows, types)),
                   " " + Words(["VALUES"], ValuesText(rows, types)),
                   [] + ([Word("VALUES")] + TokensOf(RowsPieces(rows, types))))
  {
    RowsSpell(rows, types);
    LeadSpells(["VALUES"], [Word("VALUES")], RowsPieces(rows, types), ValuesText(rows, types), TokensOf(RowsPieces(rows, types)));
    SpellsOne(Space);
    SpellsConcat([Space], " ", [], WordPieces(["VALUES"]) + RowsPieces(rows, types),
                 Words(["VALUES"], ValuesText(rows, types)), [Word("VALUES")] + TokensOf(RowsPieces(rows, types)));
  }

  function InsertTokens(a: string, b: string, c: string, values: seq<Token>): seq<Token> {
    [Word("INSERT"), Word("INTO"), Ident(a), Symbol('.'), Ident(b), Symbol('.'), Ident(c), Word("VALUES")] + values
  }

  lemma InsertLexes(a: string, b: string, c: string, rows: seq<seq<Value>>, types: seq<SqlType>)
    requires rows != [] && Fits(rows, types) && types != [] && PrintableRows(rows)
    ensures Lex(InsertStatement([a, b, c], rows, types)) == Some(InsertTokens(a, b, c, TokensOf(RowsPieces(rows, types))))
  {
    var values := TokensOf(RowsPieces(rows, types));
    var names := [Ident(a), Symbol('.'), Ident(b), Symbol('.'), Ident(c)];
    var clause := [Space] + (WordPieces(["VALUES"]) + RowsPieces(rows, types));
    var text := " " + Words(["VALUES"], ValuesText(rows, types));
    var tokens := [] + ([Word("VALUES")] + values);
    ValuesClauseSpells(rows, types);
    NameThree(a, b, c);
    SpellsConcat(NamePieces([a, b, c]), Dotted([a, b, c]), names, clause, text, tokens);
    LeadSpells(["INSERT", "INTO"], [Word("INSERT"), Word("INTO")],
               NamePieces([a, b, c]) + clause, Dotted([a, b, c]) + text, names + tokens);
    LexUndoesSpell(WordPieces(["INSERT", "INTO"]) + (NamePieces([a, b, c]) + clause));
    InsertTokensSplit(a, b, c, values);
  }

  lemma InsertTokensSplit(a: string, b: string, c: string, values: seq<Token>)
    ensures [Word("INSERT"), Word("INTO")]
          + ([Ident(a), Symbol('.'), Ident(b), Symbol('.'), Ident(c)] + ([] + ([Word("VALUES")] + values)))
         == InsertTokens(a, b, c, values)
  {
  }

  /** The engine reads back from the text exactly the table named and exactly the rows written, cell by
      cell: no name, text or row can end its statement, its row or its cell early. */
  lemma InsertReadsBack(a: string, b: string, c: string, rows: seq<seq<Value>>, types: seq<SqlType>)
    requires rows != [] && Fits(rows, types) && types != [] && PrintableRows(rows)
    ensures Lex(InsertStatement([a, b, c], rows, types)).Some?
    ensures ReadInsert(Lex(InsertStatement([a, b, c], rows, types)).value) == Some(([a, b, c], StoredRows(rows, types)))
  {
    var values := TokensOf(RowsPieces(rows, types));
    InsertLexes(a, b, c, rows, types);
    RowsTokensOf(rows, types);
    ReadAllRows(rows, types);
    assert ReadRows([]) == None;
    assert InsertTokens(a, b, c, values)[8..] == values;
  }
}

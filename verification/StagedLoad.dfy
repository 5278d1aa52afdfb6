/** An upload: build a staging table, swap it in with one statement, drop the staging table. */
module StagedLoad {
  import opened CsvReader
  import opened Decimal
  import opened InsertText
  import opened Quoting
  import opened StatementText
  import opened Tabular
  import opened Text
  import opened Wrappers

  // ----- the engine: every statement is atomic and may fail -----

  datatype TableData = TableData(columns: seq<Column>, rows: seq<seq<Datum>>)

  /** How the engine folds the names it compares: not at all, to lower case, or otherwise. */
  type Fold = string -> string

  /** It folds piece by piece and never folds a text away. */
  ghost predicate Folding(fold: Fold) {
    && (forall a, b :: fold(a + b) == fold(a) + fold(b))
    && (forall a :: a != "" ==> fold(a) != "")
  }

  function Folded(fold: Fold, name: Name): Name {
    seq(|name|, i requires 0 <= i < |name| => fold(name[i]))
  }

  /** The names an engine can give to the columns of one table: none of them empty, no two the same. */
  predicate NamesOk(fold: Fold, names: seq<string>) {
    && (forall i :: 0 <= i < |names| ==> names[i] != "")
    && (forall i, j :: 0 <= i < j < |names| ==> fold(names[i]) != fold(names[j]))
  }

  function NamesIn(columns: seq<Column>): seq<string> {
    seq(|columns|, i requires 0 <= i < |columns| => columns[i].0)
  }

  predicate FitsType(d: Datum, ty: SqlType) {
    match d
    case Missing => true
    case Flag(_) => ty.Boolean?
    case Chars(_) => ty.Varchar?
    case Num(t) => ty.Double? || (ty.Bigint? && IsIntegerText(t) && InI64(IntegerValue(t)))
  }

  predicate FitsColumns(row: seq<Datum>, columns: seq<Column>) {
    |row| == |columns| && forall j :: 0 <= j < |row| ==> FitsType(row[j], columns[j].1)
  }

  predicate AllFit(rows: seq<seq<Datum>>, columns: seq<Column>) {
    forall i :: 0 <= i < |rows| ==> FitsColumns(rows[i], columns)
  }

  /** What the engine keeps: the schemas there are, and the tables. */
  datatype Database = Database(schemas: set<Name>, tables: map<Name, TableData>)

  /** The schema a table name lies in. */
  function SchemaOf(fold: Fold, name: Name): Name {
    if name == [] then [] else Folded(fold, name[..|name| - 1])
  }

  /** What a statement makes of the database; `None` when the engine must refuse it. A table is created only in a
      schema that exists. */
  function Effect(fold: Fold, db: Database, st: Statement): Option<Database> {
    match st
    case CreateSchema(name) => Some(db.(schemas := db.schemas + {Folded(fold, name)}))
    case CreateTable(name, columns) =>
      if SchemaOf(fold, name) !in db.schemas || Folded(fold, name) in db.tables || !NamesOk(fold, NamesIn(columns)) then None
      else Some(db.(tables := db.tables[Folded(fold, name) := TableData(columns, [])]))
    case InsertInto(name, rows) =>
      if Folded(fold, name) !in db.tables then None
      else
        var t := db.tables[Folded(fold, name)];
        if AllFit(rows, t.columns) then Some(db.(tables := db.tables[Folded(fold, name) := t.(rows := t.rows + rows)])) else None
    case DropIfExists(name) => Some(db.(tables := db.tables - {Folded(fold, name)}))
    case CreateOrReplaceAs(target, source) =>
      if SchemaOf(fold, target) !in db.schemas || Folded(fold, source) !in db.tables then None
      else Some(db.(tables := db.tables[Folded(fold, target) := db.tables[Folded(fold, source)]]))
  }

  /** The same for a statement's text; the engine refuses a text it cannot read. */
  function EffectOf(fold: Fold, db: Database, sql: string): Option<Database> {
    match ReadStatement(sql)
    case None => None
    case Some(st) => Effect(fold, db, st)
  }

  class Engine {
    var schemas: set<Name>
    var tables: map<Name, TableData>
    /** How many statements have run. */
    var clock: nat
    /** Which statements fail for reasons of their own, whatever they say. */
    const fails: nat -> bool
    /** Which statements take effect and are reported as failed, because their answer is lost. */
    const loses: nat -> bool
    const fold: Fold

    constructor (db: Database, fails: nat -> bool, loses: nat -> bool, fold: Fold)
      ensures Now() == db && this.fails == fails && this.loses == loses && this.fold == fold && clock == 0
    {
      schemas, tables := db.schemas, db.tables;
      this.fails, this.loses, this.fold, this.clock := fails, loses, fold, 0;
    }

    function Now(): Database
      reads this
    {
      Database(schemas, tables)
    }

    /** No statement fails of itself and no answer is lost. */
    ghost predicate Smooth() {
      forall k :: !fails(k) && !loses(k)
    }

    ghost predicate LosesNoAnswer() {
      forall k :: !loses(k)
    }

    method Execute(sql: string) returns (ok: bool)
      modifies this
      ensures clock == old(clock) + 1
      ensures ok <==> !fails(old(clock)) && !loses(old(clock)) && EffectOf(fold, old(Now()), sql).Some?
      ensures Now() ==
              if !fails(old(clock)) && EffectOf(fold, old(Now()), sql).Some? then EffectOf(fold, old(Now()), sql).value
              else old(Now())
    {
      var effect := EffectOf(fold, Now(), sql);
      var done := !fails(clock) && effect.Some?;
      ok := done && !loses(clock);
      clock := clock + 1;
      if done {
        schemas, tables := effect.value.schemas, effect.value.tables;
      }
    }
  }

  /** Execute a text that is known to read as the given statement. */
  method Run(engine: Engine, sql: string, ghost st: Statement) returns (ok: bool)
    requires ReadStatement(sql) == Some(st)
    modifies engine
    ensures engine.clock == old(engine.clock) + 1
    ensures ok <==> !engine.fails(old(engine.clock)) && !engine.loses(old(engine.clock))
                    && Effect(engine.fold, old(engine.Now()), st).Some?
    ensures engine.Now() ==
            if !engine.fails(old(engine.clock)) && Effect(engine.fold, old(engine.Now()), st).Some?
            then Effect(engine.fold, old(engine.Now()), st).value else old(engine.Now())
  {
    hide ReadStatement, Effect;
    ok := engine.Execute(sql);
  }

  /** The engine's key for a table of a schema. */
  function Key(fold: Fold, catalog: string, ns: string, table: string): Name {
    Folded(fold, [catalog, ns, table])
  }

  // ----- the staging name -----

  function StagingName(table: string, stamp: nat): string {
    table + "__nova_load_" + Digits(stamp)
  }

  /** The staging table is never the target, whichever way the engine folds names. */
  lemma StagingIsNotTarget(fold: Fold, catalog: string, ns: string, table: string, stamp: nat)
    requires Folding(fold)
    ensures Key(fold, catalog, ns, StagingName(table, stamp)) != Key(fold, catalog, ns, table)
  {
    var suffix := "__nova_load_" + Digits(stamp);
    Glue(table, "__nova_load_", Digits(stamp));
    assert fold(table + suffix) == fold(table) + fold(suffix) && fold(suffix) != "";
    assert Key(fold, catalog, ns, StagingName(table, stamp))[2] == fold(StagingName(table, stamp));
    assert Key(fold, catalog, ns, table)[2] == fold(table);
  }

  /** Digits behind an underscore are all the digits a text ends in. */
  lemma DigitsAtEnd(name: string, a: string, b: string)
    requires |a| < |name| && |b| < |name| && name[|name| - |a| - 1] == '_'
    requires name[|name| - |b|..] == b && AllDigits(b)
    ensures |b| <= |a|
  {
    assert forall k :: |name| - |b| <= k < |name| ==> name[k] == b[k - (|name| - |b|)];
  }

  /** Two loads share a staging name only when they are of the same table at the same time. */
  lemma StagingNamesDiffer(table: string, stamp: nat, other: string, otherStamp: nat)
    requires StagingName(table, stamp) == StagingName(other, otherStamp)
    ensures table == other && stamp == otherStamp
  {
    var a, b, name := Digits(stamp), Digits(otherStamp), StagingName(table, stamp);
    DigitsCanonical(stamp);
    DigitsCanonical(otherStamp);
    DigitsAtEnd(name, a, b);
    DigitsAtEnd(name, b, a);
    assert name[..|table|] == table && name[..|other|] == other;
  }

  /** Comparing names without regard to the case of ASCII letters is one such way. */
  lemma {:induction false} LowerAsciiConcat(a: string, b: string)
    ensures LowerAscii(a + b) == LowerAscii(a) + LowerAscii(b)
  {
    if a == "" {
      assert a + b == b;
    } else {
      assert (a + b)[1..] == a[1..] + b;
      LowerAsciiConcat(a[1..], b);
      Glue([LowerChar(a[0])], LowerAscii(a[1..]), LowerAscii(b));
    }
  }

  lemma LowerAsciiFolds()
    ensures Folding(LowerAscii)
  {
    forall a, b ensures LowerAscii(a + b) == LowerAscii(a) + LowerAscii(b) {
      LowerAsciiConcat(a, b);
    }
  }

  // ----- loading -----

  /** `columns.iter().zip(types)`. */
  function Zip(columns: seq<string>, types: seq<SqlType>): (z: seq<(string, SqlType)>)
    requires |columns| == |types|
    ensures |z| == |columns| && forall j :: 0 <= j < |z| ==> z[j] == (columns[j], types[j])
  {
    seq(|columns|, j requires 0 <= j < |columns| => (columns[j], types[j]))
  }

  /** Every value can be stored in its column. */
  ghost predicate RowStorable(row: seq<Value>, types: seq<SqlType>)
    requires |row| == |types|
  {
    forall j :: 0 <= j < |types| ==> Admits(types[j], row[j])
  }

  ghost predicate Storable(rows: seq<seq<Value>>, types: seq<SqlType>)
    requires Fits(rows, types)
  {
    forall i :: 0 <= i < |rows| ==> RowStorable(rows[i], types)
  }

  /** No bigint column holds a float: what the inferred types promise. */
  ghost predicate RowTyped(row: seq<Value>, types: seq<SqlType>)
    requires |row| == |types|
  {
    forall j :: 0 <= j < |types| ==> !(types[j].Bigint? && row[j].Float?)
  }

  ghost predicate Typed(rows: seq<seq<Value>>, types: seq<SqlType>)
    requires Fits(rows, types)
  {
    forall i :: 0 <= i < |rows| ==> RowTyped(rows[i], types)
  }

  /** The engine takes a value exactly when its column's type admits it. */
  lemma AdmittedExactly(v: Value, ty: SqlType)
    requires !(ty.Bigint? && v.Float?)
    ensures Admits(ty, v) <==> FitsType(Stored(v, ty), ty)
  {
    if v.Int? {
      PrintedIsIntegerText(v.n);
    }
  }

  lemma RowAdmittedExactly(row: seq<Value>, columns: seq<string>, types: seq<SqlType>)
    requires |row| == |types| == |columns|
    requires RowTyped(row, types)
    ensures FitsColumns(StoredRow(row, types), Zip(columns, types)) <==> RowStorable(row, types)
  {
    var stored, zipped := StoredRow(row, types), Zip(columns, types);
    forall j | 0 <= j < |row|
      ensures Admits(types[j], row[j]) <==> FitsType(stored[j], zipped[j].1)
    {
      AdmittedExactly(row[j], types[j]);
    }
  }

  lemma StoredRowsConcat(a: seq<seq<Value>>, b: seq<seq<Value>>, types: seq<SqlType>)
    requires Fits(a, types) && Fits(b, types)
    ensures Fits(a + b, types) && StoredRows(a + b, types) == StoredRows(a, types) + StoredRows(b, types)
  {
    var all := a + b;
    forall i | 0 <= i < |all|
      ensures |all[i]| == |types| && all[i] == if i < |a| then a[i] else b[i - |a|]
    {
      assert i < |a| ==> all[i] == a[i];
    }
    var left, right := StoredRows(all, types), StoredRows(a, types) + StoredRows(b, types);
    hide StoredRows, StoredRow, Fits;
    assert |left| == |right|;
    forall i | 0 <= i < |left|
      ensures left[i] == right[i]
    {
      assert left[i] == StoredRow(all[i], types);
    }
  }

  const CHUNK := 1000

  /** Two states of the tables agree outside the given names. */
  ghost predicate AgreeOutside(a: map<Name, TableData>, b: map<Name, TableData>, names: set<Name>) {
    forall k :: k !in names ==> (k in a <==> k in b) && (k in a ==> a[k] == b[k])
  }

  lemma AgreeSame(a: map<Name, TableData>, names: set<Name>)
    ensures AgreeOutside(a, a, names)
  {
  }

  lemma AgreeChain(a: map<Name, TableData>, b: map<Name, TableData>, c: map<Name, TableData>,
                   first: set<Name>, second: set<Name>, names: set<Name>)
    requires AgreeOutside(a, b, first) && AgreeOutside(b, c, second) && first <= names && second <= names
    ensures AgreeOutside(a, c, names)
  {
  }

  /** The named table holds exactly these rows under these columns. */
  ghost predicate Holds(fold: Fold, tables: map<Name, TableData>, name: Name, columns: seq<string>,
                        types: seq<SqlType>, rows: seq<seq<Value>>) {
    && Folded(fold, name) in tables && |columns| == |types| && Fits(rows, types)
    && tables[Folded(fold, name)] == TableData(Zip(columns, types), StoredRows(rows, types))
  }

  method InsertChunk(engine: Engine, name: seq<string>, columns: seq<string>, types: seq<SqlType>,
                     ghost before: seq<seq<Value>>, chunk: seq<seq<Value>>)
    returns (ok: bool)
    requires |name| == 3 && columns != []
    requires Holds(engine.fold, engine.tables, name, columns, types, before)
    requires chunk != [] && Fits(chunk, types) && PrintableRows(chunk) && Typed(chunk, types)
    modifies engine
    ensures engine.clock == old(engine.clock) + 1 && engine.schemas == old(engine.schemas)
    ensures AgreeOutside(engine.tables, old(engine.tables), {Folded(engine.fold, name)})
    ensures Holds(engine.fold, engine.tables, name, columns, types,
                  if !engine.fails(old(engine.clock)) && Storable(chunk, types) then before + chunk else before)
    ensures ok <==> !engine.fails(old(engine.clock)) && !engine.loses(old(engine.clock)) && Storable(chunk, types)
  {
    hide ReadStatement, InsertStatement, AllFit, Storable, Typed, PrintableRows;
    StoredRowsConcat(before, chunk, types);
    InsertIsRead(name, chunk, types);
    ChunkFitsExactly(chunk, columns, types);
    ok := Run(engine, InsertStatement(name, chunk, types), InsertInto(name, StoredRows(chunk, types)));
  }

  lemma ChunkOf(rows: seq<seq<Value>>, from: nat, to: nat, types: seq<SqlType>)
    requires from <= to <= |rows| && Fits(rows, types) && PrintableRows(rows) && Typed(rows, types)
    ensures Fits(rows[from..to], types) && PrintableRows(rows[from..to]) && Typed(rows[from..to], types)
    ensures Fits(rows[..from], types) && Fits(rows[..to], types)
    ensures Storable(rows[..to], types) <==> Storable(rows[..from], types) && Storable(rows[from..to], types)
    ensures Storable(rows, types) ==> Storable(rows[from..to], types)
    ensures rows[..to] == rows[..from] + rows[from..to]
  {
    var chunk := rows[from..to];
    assert forall i :: 0 <= i < |chunk| ==> chunk[i] == rows[from + i];
    forall i | 0 <= i < to
      ensures rows[..to][i] == if i < from then rows[..from][i] else chunk[i - from]
    {
    }
  }

  lemma NothingStored(types: seq<SqlType>)
    ensures Fits([], types) && Storable([], types)
  {
  }

  /** Insert the rows into the empty table, a thousand at a time. */
  method InsertRows(engine: Engine, name: seq<string>, columns: seq<string>, rows: seq<seq<Value>>, types: seq<SqlType>)
    returns (loaded: Option<nat>)
    requires |name| == 3 && columns != []
    requires Holds(engine.fold, engine.tables, name, columns, types, [])
    requires Fits(rows, types) && PrintableRows(rows) && Typed(rows, types)
    modifies engine
    ensures engine.clock >= old(engine.clock) && engine.schemas == old(engine.schemas)
    ensures AgreeOutside(engine.tables, old(engine.tables), {Folded(engine.fold, name)})
    ensures loaded.Some? ==> loaded.value == |rows| && Holds(engine.fold, engine.tables, name, columns, types, rows)
    ensures loaded.Some? ==> Storable(rows, types)
    ensures engine.Smooth() && Storable(rows, types) ==> loaded.Some?
  {
    hide AgreeOutside, Holds, Storable, Typed;
    NothingStored(types);
    var done := 0;
    ghost var names := {Folded(engine.fold, name)};
    AgreeSame(engine.tables, names);
    while done < |rows|
      invariant 0 <= done <= |rows| && engine.clock >= old(engine.clock) && engine.schemas == old(engine.schemas)
      invariant AgreeOutside(engine.tables, old(engine.tables), names)
      invariant Holds(engine.fold, engine.tables, name, columns, types, rows[..done])
      invariant Fits(rows[..done], types) && Storable(rows[..done], types)
    {
      var size := if |rows| - done < CHUNK then |rows| - done else CHUNK;
      var chunk := rows[done..done + size];
      ChunkOf(rows, done, done + size, types);
      ghost var before := engine.tables;
      var ok := InsertChunk(engine, name, columns, types, rows[..done], chunk);
      AgreeChain(engine.tables, before, old(engine.tables), names, names, names);
      if !ok {
        return None;
      }
      done := done + |chunk|;
    }
    assert rows[..done] == rows;
    return Some(done);
  }

  /** What the engine asks of a table: usable column names and, in every cell, a value of its column's type. */
  ghost predicate Takes(fold: Fold, columns: seq<string>, rows: seq<seq<Value>>, types: seq<SqlType>)
    requires Fits(rows, types)
  {
    NamesOk(fold, columns) && Storable(rows, types)
  }

  /** Create the table and fill it. */
  method LoadRows(engine: Engine, name: seq<string>, columns: seq<string>, rows: seq<seq<Value>>, types: seq<SqlType>)
    returns (loaded: Option<nat>)
    requires |name| == 3 && columns != [] && |columns| == |types|
    requires Fits(rows, types) && PrintableRows(rows) && Typed(rows, types)
    modifies engine
    ensures engine.clock > old(engine.clock) && engine.schemas == old(engine.schemas)
    ensures AgreeOutside(engine.tables, old(engine.tables), {Folded(engine.fold, name)})
    ensures loaded.Some? ==> loaded.value == |rows| && Holds(engine.fold, engine.tables, name, columns, types, rows)
    ensures loaded.Some? ==> Takes(engine.fold, columns, rows, types) && SchemaOf(engine.fold, name) in engine.schemas
    ensures engine.Smooth() && Folded(engine.fold, name) !in old(engine.tables) && SchemaOf(engine.fold, name) in engine.schemas ==>
              Takes(engine.fold, columns, rows, types) ==> loaded.Some?
  {
    hide ReadStatement, TableText;
    TableReadsBack(name, Zip(columns, types));
    assert NamesIn(Zip(columns, types)) == columns;
    var ok := Run(engine, TableText(name, Zip(columns, types)), CreateTable(name, Zip(columns, types)));
    if !ok {
      return None;
    }
    ghost var created, names := engine.tables, {Folded(engine.fold, name)};
    loaded := InsertRows(engine, name, columns, rows, types);
    AgreeChain(engine.tables, created, old(engine.tables), names, names, names);
  }

  /** The engine takes a chunk exactly when it takes every value in it. */
  lemma ChunkFitsExactly(chunk: seq<seq<Value>>, columns: seq<string>, types: seq<SqlType>)
    requires |columns| == |types| && Fits(chunk, types) && Typed(chunk, types)
    ensures Storable(chunk, types) <==> AllFit(StoredRows(chunk, types), Zip(columns, types))
  {
    hide RowStorable, RowTyped, FitsColumns, StoredRow, StoredRows, Zip;
    var stored := StoredRows(chunk, types);
    forall i | 0 <= i < |chunk|
      ensures FitsColumns(stored[i], Zip(columns, types)) <==> RowStorable(chunk[i], types)
    {
      RowAdmittedExactly(chunk[i], columns, types);
      assert stored[i] == StoredRow(chunk[i], types);
    }
  }

  // ----- the upload -----

  datatype Upload = CsvUpload(content: string) | JsonUpload(document: seq<JsonRow>, isArray: bool)

  datatype Outcome = Loaded(n: nat) | Unreadable(error: ParseError) | Failed

  ghost predicate PrintableDocument(document: seq<JsonRow>) {
    forall i, key :: 0 <= i < |document| ==> Printable(FieldOf(document[i], key))
  }

  /** Every finite float is written as an optional minus sign and a number. */
  ghost predicate WritesNumbers(printed: string -> Option<string>) {
    forall t :: printed(t).Some? ==> NumberText(Unsigned(printed(t).value))
  }

  /** Floats are written as numbers, those read from a cell and those in a document. */
  ghost predicate Writes(upload: Upload, printed: string -> Option<string>) {
    match upload
    case CsvUpload(_) => WritesNumbers(printed)
    case JsonUpload(document, _) => PrintableDocument(document)
  }

  /** What the parser of an upload's format must answer. */
  ghost predicate Answers(upload: Upload, printed: string -> Option<string>, answer: Parsed) {
    match upload
    case CsvUpload(content) => CsvAnswer(WithoutBlankLines(Records(content)), printed, answer)
    case JsonUpload(document, isArray) => JsonAnswer(document, isArray, answer)
  }

  /** The columns and rows an upload stands for. */
  ghost predicate ParsesTo(upload: Upload, printed: string -> Option<string>, columns: seq<string>, rows: seq<seq<Value>>) {
    Answers(upload, printed, Parsed.Table(columns, rows))
  }

  /** An upload stands for one table or for one error. */
  lemma OneAnswer(upload: Upload, printed: string -> Option<string>, a: Parsed, b: Parsed)
    requires Answers(upload, printed, a) && Answers(upload, printed, b)
    ensures a == b
  {
    match upload
    case CsvUpload(content) => CsvAnswerUnique(WithoutBlankLines(Records(content)), printed, a, b);
    case JsonUpload(document, isArray) => JsonAnswerUnique(document, isArray, a, b);
  }

  ghost function TypesOf(rows: seq<seq<Value>>, n: nat): (types: seq<SqlType>)
    ensures |types| == n && forall j :: 0 <= j < n ==> types[j] == TypeOf(rows, j)
  {
    seq(n, j requires 0 <= j < n => TypeOf(rows, j))
  }

  ghost predicate Parseable(upload: Upload, printed: string -> Option<string>) {
    exists columns, rows :: ParsesTo(upload, printed, columns, rows)
  }

  lemma OnlyAnswer(upload: Upload, printed: string -> Option<string>, answer: Parsed)
    requires Answers(upload, printed, answer)
    ensures answer.Table? <==> Parseable(upload, printed)
  {
    if answer.Table? {
      assert ParsesTo(upload, printed, answer.columns, answer.rows);
    } else {
      forall columns, rows | ParsesTo(upload, printed, columns, rows) ensures false {
        OneAnswer(upload, printed, answer, Parsed.Table(columns, rows));
      }
    }
  }

  /** The named table holds exactly the upload's rows, under its columns and inferred types, and there are `n`. */
  ghost predicate HoldsUpload(fold: Fold, tables: map<Name, TableData>, name: Name, upload: Upload, printed: string -> Option<string>, n: nat) {
    exists columns, rows ::
      ParsesTo(upload, printed, columns, rows) && n == |rows| && Holds(fold, tables, name, columns, TypesOf(rows, |columns|), rows)
  }

  lemma HoldsWhatItParsed(fold: Fold, tables: map<Name, TableData>, name: Name, upload: Upload, printed: string -> Option<string>,
                          columns: seq<string>, rows: seq<seq<Value>>)
    requires ParsesTo(upload, printed, columns, rows) && Holds(fold, tables, name, columns, TypesOf(rows, |columns|), rows)
    ensures HoldsUpload(fold, tables, name, upload, printed, |rows|)
  {
  }

  lemma HoldsIfItDoes(fold: Fold, tables: map<Name, TableData>, name: Name, upload: Upload, printed: string -> Option<string>,
                      columns: seq<string>, rows: seq<seq<Value>>)
    requires ParsesTo(upload, printed, columns, rows)
    ensures Holds(fold, tables, name, columns, TypesOf(rows, |columns|), rows) ==> HoldsUpload(fold, tables, name, upload, printed, |rows|)
  {
  }

  lemma ParsedIsPrintable(upload: Upload, printed: string -> Option<string>, columns: seq<string>, rows: seq<seq<Value>>)
    requires ParsesTo(upload, printed, columns, rows)
    requires Writes(upload, printed)
    ensures columns != [] && PrintableRows(rows)
    ensures forall i :: 0 <= i < |rows| ==> |rows[i]| == |columns|
  {
    if upload.CsvUpload? {
      var records := WithoutBlankLines(Records(upload.content));
      CsvIsRectangular(records, printed, Parsed.Table(columns, rows));
      forall i, j | 0 <= i < |rows| && 0 <= j < |rows[i]|
        ensures Printable(rows[i][j])
      {
        assert rows[i] == RowValues(records[i + 1], printed);
      }
    } else {
      forall i, j | 0 <= i < |rows| && 0 <= j < |rows[i]|
        ensures Printable(rows[i][j])
      {
        assert rows[i][j] == FieldOf(upload.document[i], columns[j]);
      }
    }
  }

  method Parse(upload: Upload, printed: string -> Option<string>) returns (answer: Parsed)
    ensures Answers(upload, printed, answer)
  {
    match upload {
      case CsvUpload(content) => answer := ParseCsv(content, printed);
      case JsonUpload(document, isArray) => answer := ParseJsonTable(document, isArray);
    }
  }

  method InferTypes(columns: seq<string>, rows: seq<seq<Value>>) returns (types: seq<SqlType>)
    ensures types == TypesOf(rows, |columns|)
  {
    types := [];
    for i := 0 to |columns|
      invariant |types| == i && forall j :: 0 <= j < i ==> types[j] == TypeOf(rows, j)
    {
      var ty := InferType(rows, i);
      types := types + [ty];
    }
  }

  lemma InferredIsTyped(rows: seq<seq<Value>>, n: nat)
    requires Fits(rows, TypesOf(rows, n))
    ensures Typed(rows, TypesOf(rows, n))
  {
    forall i, j | 0 <= i < |rows| && 0 <= j < n && TypesOf(rows, n)[j].Bigint?
      ensures !rows[i][j].Float?
    {
      assert IntegerColumn(rows, j) && IsInteger(At(rows[i], j));
    }
  }

  /** Parse and type: everything that happens before the first statement. */
  method Prepare(upload: Upload, printed: string -> Option<string>) returns (answer: Parsed, types: seq<SqlType>)
    requires Writes(upload, printed)
    ensures Answers(upload, printed, answer) && (answer.Refused? <==> !Parseable(upload, printed))
    ensures answer.Table? ==>
      && ParsesTo(upload, printed, answer.columns, answer.rows)
      && answer.columns != [] && types == TypesOf(answer.rows, |answer.columns|)
      && Fits(answer.rows, types) && PrintableRows(answer.rows) && Typed(answer.rows, types)
  {
    types := [];
    answer := Parse(upload, printed);
    OnlyAnswer(upload, printed, answer);
    if answer.Table? {
      ParsedIsPrintable(upload, printed, answer.columns, answer.rows);
      types := InferTypes(answer.columns, answer.rows);
      InferredIsTyped(answer.rows, |answer.columns|);
    }
  }

  method DropTable(engine: Engine, name: seq<string>)
    requires |name| == 3
    modifies engine
    ensures engine.clock == old(engine.clock) + 1 && engine.schemas == old(engine.schemas)
    ensures AgreeOutside(engine.tables, old(engine.tables), {Folded(engine.fold, name)})
    ensures Folded(engine.fold, name) in engine.tables ==> engine.fails(engine.clock - 1)
  {
    hide ReadStatement, DropText;
    DropReadsBack(name);
    var _ := Run(engine, DropText(name), DropIfExists(name));
  }

  /** One statement puts the staged rows in the place of the target, one drops what they were staged in. */
  method SwapAndDrop(engine: Engine, target: seq<string>, staging: seq<string>,
                     ghost columns: seq<string>, ghost types: seq<SqlType>, ghost rows: seq<seq<Value>>)
    returns (swapped: bool)
    requires |target| == |staging| == 3 && Folded(engine.fold, staging) != Folded(engine.fold, target)
    requires Holds(engine.fold, engine.tables, staging, columns, types, rows) && SchemaOf(engine.fold, target) in engine.schemas
    modifies engine
    ensures engine.clock == old(engine.clock) + 2 && engine.schemas == old(engine.schemas)
    ensures AgreeOutside(engine.tables, old(engine.tables), {Folded(engine.fold, target), Folded(engine.fold, staging)})
    ensures swapped <==> !engine.fails(old(engine.clock)) && !engine.loses(old(engine.clock))
    ensures if engine.fails(old(engine.clock))
            then AgreeOutside(engine.tables, old(engine.tables), {Folded(engine.fold, staging)})
            else Holds(engine.fold, engine.tables, target, columns, types, rows)
    ensures Folded(engine.fold, staging) in engine.tables ==> engine.fails(engine.clock - 1)
  {
    hide ReadStatement, SwapText;
    SwapReadsBack(target, staging);
    swapped := Run(engine, SwapText(target, staging), CreateOrReplaceAs(target, staging));
    DropTable(engine, staging);
  }

  /** Load under the staging name, swap, drop: the statements after the schema exists. */
  method LoadAndSwap(engine: Engine, target: seq<string>, staging: seq<string>,
                     columns: seq<string>, rows: seq<seq<Value>>, types: seq<SqlType>)
    returns (loaded: Option<nat>)
    requires |target| == |staging| == 3 && Folded(engine.fold, staging) != Folded(engine.fold, target)
    requires target[..2] == staging[..2]
    requires columns != [] && |columns| == |types| && Fits(rows, types) && PrintableRows(rows) && Typed(rows, types)
    modifies engine
    ensures engine.clock > old(engine.clock) && engine.schemas == old(engine.schemas)
    ensures AgreeOutside(engine.tables, old(engine.tables), {Folded(engine.fold, target), Folded(engine.fold, staging)})
    ensures loaded.None? ==>
              || AgreeOutside(engine.tables, old(engine.tables), {Folded(engine.fold, staging)})
              || (engine.clock >= old(engine.clock) + 2 && engine.loses(engine.clock - 2)
                  && Holds(engine.fold, engine.tables, target, columns, types, rows))
    ensures Folded(engine.fold, staging) in engine.tables ==> engine.fails(engine.clock - 1)
    ensures loaded.Some? ==> loaded.value == |rows| && Holds(engine.fold, engine.tables, target, columns, types, rows)
    ensures loaded.Some? ==> Takes(engine.fold, columns, rows, types)
    ensures engine.Smooth() && Folded(engine.fold, staging) !in old(engine.tables) && SchemaOf(engine.fold, target) in engine.schemas ==>
              Takes(engine.fold, columns, rows, types) ==> loaded.Some?
  {
    hide AgreeOutside, Holds, Takes;
    ghost var one, both := {Folded(engine.fold, staging)}, {Folded(engine.fold, target), Folded(engine.fold, staging)};
    loaded := LoadRows(engine, staging, columns, rows, types);
    assert SchemaOf(engine.fold, staging) == SchemaOf(engine.fold, target);
    ghost var built := engine.tables;
    if loaded.None? {
      DropTable(engine, staging);
      AgreeChain(engine.tables, built, old(engine.tables), one, one, one);
      AgreeChain(engine.tables, built, old(engine.tables), one, one, both);
      return None;
    }
    var swapped := SwapAndDrop(engine, target, staging, columns, types, rows);
    AgreeChain(engine.tables, built, old(engine.tables), both, one, both);
    if !swapped {
      if AgreeOutside(engine.tables, built, one) {
        AgreeChain(engine.tables, built, old(engine.tables), one, one, one);
      }
      return None;
    }
  }

  /** An upload under given names. */
  method UploadInto(engine: Engine, upload: Upload, printed: string -> Option<string>, target: seq<string>, staging: seq<string>)
    returns (outcome: Outcome, ghost columns: seq<string>, ghost rows: seq<seq<Value>>)
    requires Writes(upload, printed)
    requires |target| == |staging| == 3 && Folded(engine.fold, staging) != Folded(engine.fold, target)
    requires target[..2] == staging[..2]
    modifies engine
    ensures AgreeOutside(engine.tables, old(engine.tables), {Folded(engine.fold, target), Folded(engine.fold, staging)})
    ensures !outcome.Loaded? ==>
              || AgreeOutside(engine.tables, old(engine.tables), {Folded(engine.fold, staging)})
              || (outcome.Failed? && engine.clock >= old(engine.clock) + 2 && engine.loses(engine.clock - 2)
                  && Holds(engine.fold, engine.tables, target, columns, TypesOf(rows, |columns|), rows))
    ensures Folded(engine.fold, staging) in engine.tables ==>
              || Folded(engine.fold, staging) in old(engine.tables)
              || (engine.clock > old(engine.clock) && engine.fails(engine.clock - 1))
    ensures !outcome.Unreadable? ==> ParsesTo(upload, printed, columns, rows) && Fits(rows, TypesOf(rows, |columns|))
    ensures outcome.Loaded? ==> outcome.n == |rows| && Takes(engine.fold, columns, rows, TypesOf(rows, |columns|))
    ensures outcome.Loaded? ==>
              Holds(engine.fold, engine.tables, target, columns, TypesOf(rows, |columns|), rows)
    ensures outcome.Unreadable? <==> !Parseable(upload, printed)
    ensures outcome.Unreadable? ==> Answers(upload, printed, Refused(outcome.error))
    ensures outcome.Unreadable? ==> engine.Now() == old(engine.Now()) && engine.clock == old(engine.clock)
    ensures old(engine.schemas) <= engine.schemas <= old(engine.schemas) + {SchemaOf(engine.fold, target)}
    ensures engine.Smooth() && Folded(engine.fold, staging) !in old(engine.tables) ==>
              outcome.Failed? ==> !Takes(engine.fold, columns, rows, TypesOf(rows, |columns|))
  {
    hide Answers, ReadStatement, SchemaText, AgreeOutside, Holds, Takes;
    AgreeSame(engine.tables, {Folded(engine.fold, target), Folded(engine.fold, staging)});
    AgreeSame(engine.tables, {Folded(engine.fold, staging)});
    columns, rows := [], [];
    var answer, types := Prepare(upload, printed);
    if answer.Refused? {
      assert Folded(engine.fold, staging) in engine.tables ==> Folded(engine.fold, staging) in old(engine.tables);
      return Unreadable(answer.error), [], [];
    }
    columns, rows := answer.columns, answer.rows;
    SchemaReadsBack(target[..2]);
    var ok := Run(engine, SchemaText(target[..2]), CreateSchema(target[..2]));
    if !ok {
      assert Folded(engine.fold, staging) in engine.tables ==> Folded(engine.fold, staging) in old(engine.tables);
      outcome := Failed;
      return;
    }
    var loaded := LoadAndSwap(engine, target, staging, answer.columns, answer.rows, types);
    assert Folded(engine.fold, staging) in engine.tables ==> engine.fails(engine.clock - 1);
    assert engine.clock > old(engine.clock);
    outcome := if loaded.None? then Failed else Loaded(loaded.value);
  }

  /** An upload the engine takes: it stands for a table with usable column names and storable values. */
  ghost predicate TakesUpload(fold: Fold, upload: Upload, printed: string -> Option<string>) {
    exists columns, rows ::
      && ParsesTo(upload, printed, columns, rows) && Fits(rows, TypesOf(rows, |columns|))
      && Takes(fold, columns, rows, TypesOf(rows, |columns|))
  }

  lemma TakenParses(fold: Fold, upload: Upload, printed: string -> Option<string>)
    ensures TakesUpload(fold, upload, printed) ==> Parseable(upload, printed)
  {
  }

  lemma TakesWhatItParsed(fold: Fold, upload: Upload, printed: string -> Option<string>, columns: seq<string>, rows: seq<seq<Value>>)
    requires ParsesTo(upload, printed, columns, rows) && Fits(rows, TypesOf(rows, |columns|))
    ensures TakesUpload(fold, upload, printed) <==> Takes(fold, columns, rows, TypesOf(rows, |columns|))
  {
    forall c, r | ParsesTo(upload, printed, c, r) ensures c == columns && r == rows {
      OneAnswer(upload, printed, Parsed.Table(c, r), Parsed.Table(columns, rows));
    }
  }

  lemma CsvIsStorable(content: string, printed: string -> Option<string>, columns: seq<string>, rows: seq<seq<Value>>)
    requires CsvAnswer(WithoutBlankLines(Records(content)), printed, Parsed.Table(columns, rows))
    requires Fits(rows, TypesOf(rows, |columns|))
    ensures Storable(rows, TypesOf(rows, |columns|))
  {
    var records := WithoutBlankLines(Records(content));
    forall i, j | 0 <= i < |rows| && 0 <= j < |columns|
      ensures Admits(TypeOf(rows, j), rows[i][j])
    {
      CsvColumnsAreAdmitted(records, printed, columns, rows, j);
      assert rows[i][j] == At(rows[i], j);
    }
  }

  /** A CSV upload is taken exactly when it parses and its header names are usable: its values always fit. */
  lemma CsvTakenExactly(fold: Fold, content: string, printed: string -> Option<string>)
    ensures TakesUpload(fold, CsvUpload(content), printed) <==>
      exists columns, rows :: ParsesTo(CsvUpload(content), printed, columns, rows) && NamesOk(fold, columns)
  {
    forall columns, rows | ParsesTo(CsvUpload(content), printed, columns, rows)
      ensures Fits(rows, TypesOf(rows, |columns|)) && Storable(rows, TypesOf(rows, |columns|))
    {
      CsvIsRectangular(WithoutBlankLines(Records(content)), printed, Parsed.Table(columns, rows));
      CsvIsStorable(content, printed, columns, rows);
    }
  }

  /** All or nothing: whatever statements fail and whatever answers are lost, the target is either untouched or
      holds exactly the parsed rows; it holds them when success is reported, and after a reported failure only
      when it was the swap whose answer was lost. No third table changes, and the staging table is gone unless
      its own drop failed. When all goes smoothly, the upload succeeds exactly when the engine takes it. */
  method RealUpload(engine: Engine, upload: Upload, printed: string -> Option<string>,
                    catalog: string, ns: string, table: string, stamp: nat)
    returns (outcome: Outcome)
    requires Writes(upload, printed) && Folding(engine.fold)
    modifies engine
    ensures AgreeOutside(engine.tables, old(engine.tables),
                         {Key(engine.fold, catalog, ns, table), Key(engine.fold, catalog, ns, StagingName(table, stamp))})
    ensures !outcome.Loaded? ==>
              || AgreeOutside(engine.tables, old(engine.tables), {Key(engine.fold, catalog, ns, StagingName(table, stamp))})
              || (outcome.Failed? && engine.clock >= old(engine.clock) + 2 && engine.loses(engine.clock - 2)
                  && exists n :: HoldsUpload(engine.fold, engine.tables, [catalog, ns, table], upload, printed, n))
    ensures !outcome.Loaded? && engine.LosesNoAnswer() ==>
              AgreeOutside(engine.tables, old(engine.tables), {Key(engine.fold, catalog, ns, StagingName(table, stamp))})
    ensures Key(engine.fold, catalog, ns, StagingName(table, stamp)) in engine.tables ==>
              || Key(engine.fold, catalog, ns, StagingName(table, stamp)) in old(engine.tables)
              || (engine.clock > old(engine.clock) && engine.fails(engine.clock - 1))
    ensures outcome.Loaded? ==> HoldsUpload(engine.fold, engine.tables, [catalog, ns, table], upload, printed, outcome.n)
    ensures outcome.Unreadable? <==> !Parseable(upload, printed)
    ensures outcome.Unreadable? ==> Answers(upload, printed, Refused(outcome.error))
    ensures outcome.Unreadable? ==> engine.Now() == old(engine.Now()) && engine.clock == old(engine.clock)
    ensures old(engine.schemas) <= engine.schemas <= old(engine.schemas) + {Folded(engine.fold, [catalog, ns])}
    ensures outcome.Loaded? ==> TakesUpload(engine.fold, upload, printed)
    ensures engine.Smooth() && Key(engine.fold, catalog, ns, StagingName(table, stamp)) !in old(engine.tables) ==>
              TakesUpload(engine.fold, upload, printed) ==> outcome.Loaded?
  {
    hide Answers, ParsesTo, Parseable, AgreeOutside, Holds, HoldsUpload, Takes, TakesUpload, Folded, Fits;
    StagingIsNotTarget(engine.fold, catalog, ns, table, stamp);
    ghost var columns, rows;
    assert [catalog, ns, table][..2] == [catalog, ns, StagingName(table, stamp)][..2] == [catalog, ns];
    assert SchemaOf(engine.fold, [catalog, ns, table]) == Folded(engine.fold, [catalog, ns]) by {
      assert [catalog, ns, table][..|[catalog, ns, table]| - 1] == [catalog, ns];
    }
    outcome, columns, rows := UploadInto(engine, upload, printed, [catalog, ns, table], [catalog, ns, StagingName(table, stamp)]);
    TakenParses(engine.fold, upload, printed);
    if !outcome.Unreadable? {
      TakesWhatItParsed(engine.fold, upload, printed, columns, rows);
    }
    if outcome.Loaded? {
      HoldsWhatItParsed(engine.fold, engine.tables, [catalog, ns, table], upload, printed, columns, rows);
    }
    if outcome.Failed? {
      HoldsIfItDoes(engine.fold, engine.tables, [catalog, ns, table], upload, printed, columns, rows);
    }
  }
}

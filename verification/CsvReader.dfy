/** The hand-written CSV reader of the uploads, proved against an automaton that reads one
    character at a time, never looks ahead and knows a single line ending. */
module CsvReader {
  import opened Text

  /** A cell's text, and whether it was written in quotes. */
  datatype Cell = Cell(text: string, quoted: bool)

  type Record = seq<Cell>

  // ----- the reference: section 2 of RFC 4180 as a four-mode automaton -----

  /** Every CRLF and every lone CR becomes LF, wherever it stands. */
  function Normalise(t: string): string {
    if t == "" then ""
    else if t[0] == '\r' then "\n" + Normalise(if |t| > 1 && t[1] == '\n' then t[2..] else t[1..])
    else [t[0]] + Normalise(t[1..])
  }

  /** `QuoteSeen`: a quote inside a quoted cell, either half of a doubled one or the closing one. */
  datatype Mode = Start | Plain | Quoted | QuoteSeen

  datatype Scan = Scan(records: seq<Record>, row: Record, cur: string, quoted: bool, mode: Mode)

  const INITIAL := Scan([], [], "", false, Start)

  function Push(s: Scan, c: char, mode: Mode): Scan {
    s.(cur := s.cur + [c], mode := mode)
  }

  function EndCell(s: Scan): Scan {
    s.(row := s.row + [Cell(s.cur, s.quoted)], cur := "", quoted := false, mode := Start)
  }

  function EndRecord(s: Scan): Scan {
    var e := EndCell(s);
    e.(records := e.records + [e.row], row := [])
  }

  function StepOutside(s: Scan, c: char): Scan {
    if c == ',' then EndCell(s) else if c == '\n' then EndRecord(s) else Push(s, c, Plain)
  }

  function Step(s: Scan, c: char): Scan {
    match s.mode
    case Start => if c == '"' then s.(quoted := true, mode := Quoted) else StepOutside(s, c)
    case Plain => StepOutside(s, c)
    case Quoted => if c == '"' then s.(mode := QuoteSeen) else Push(s, c, Quoted)
    case QuoteSeen => if c == '"' then Push(s, c, Quoted) else StepOutside(s, c)
  }

  function Run(s: Scan, t: string): Scan
    decreases |t|
  {
    if t == "" then s else Run(Step(s, t[0]), t[1..])
  }

  /** A last record without its line break counts, if there is anything in it. */
  function Finish(s: Scan): seq<Record> {
    if s.mode != Start || s.row != [] then EndRecord(s).records else s.records
  }

  function Records(t: string): seq<Record> {
    Finish(Run(INITIAL, Normalise(t)))
  }

  // ----- the reader -----

  /** The state of the automaton behind the reader's flags. */
  ghost function Behind(records: seq<Record>, row: Record, cur: string,
                        wasQuoted: bool, inQuoted: bool, hasContent: bool): Scan {
    Scan(records, row, cur, wasQuoted, if inQuoted then Quoted else if hasContent then Plain else Start)
  }

  /** A closing quote leaves the cell in a mode that differs from `Plain` only on another quote. */
  lemma QuoteSeenReadsAsPlain(s: Scan, t: string)
    requires s.mode == QuoteSeen
    requires t == "" || t[0] != '"'
    ensures Finish(Run(s, t)) == Finish(Run(s.(mode := Plain), t))
  {
  }

  method ReadCsvRecords(content: string) returns (records: seq<Record>)
    ensures records == Records(content)
  {
    records := [];
    var row: Record := [];
    var cur := "";
    var wasQuoted, inQuoted, afterQuote, hasContent := false, false, false, false;
    var i := 0;
    while i < |content|
      invariant 0 <= i <= |content|
      invariant inQuoted ==> wasQuoted && hasContent
      invariant !hasContent ==> cur == "" && !wasQuoted && !afterQuote
      invariant Finish(Run(Behind(records, row, cur, wasQuoted, inQuoted, hasContent), Normalise(content[i..])))
             == Records(content)
      decreases |content| - i
    {
      var ch := content[i];
      ghost var before := Behind(records, row, cur, wasQuoted, inQuoted, hasContent);
      ghost var rest := content[i..];
      assert rest[0] == ch && rest[1..] == content[i + 1..];
      assert |rest| > 1 ==> rest[1] == content[i + 1] && rest[2..] == content[i + 2..];
      if inQuoted {
        if ch == '"' {
          if i + 1 < |content| && content[i + 1] == '"' {
            cur := cur + ['"'];
            i := i + 2;
            hasContent := true;
            TwoSteps(before, rest);
          } else {
            inQuoted := false;
            afterQuote := true;
            i := i + 1;
            OneStep(before, rest);
            QuoteSeenReadsAsPlain(Step(before, ch), Normalise(rest[1..]));
          }
        } else if ch == '\r' {
          BreakStep(before, rest);
          if i + 1 < |content| && content[i + 1] == '\n' {
            cur := cur + ['\n'];
            i := i + 2;
          } else {
            cur := cur + ['\n'];
            i := i + 1;
          }
          hasContent := true;
        } else {
          cur := cur + [ch];
          i := i + 1;
          hasContent := true;
          OneStep(before, rest);
        }
        continue;
      }
      if !hasContent && !wasQuoted && cur == "" && ch == '"' {
        inQuoted := true;
        wasQuoted := true;
        afterQuote := false;
        hasContent := true;
        i := i + 1;
        OneStep(before, rest);
        continue;
      }
      if ch == ',' {
        row := row + [Cell(cur, wasQuoted)];
        cur, wasQuoted := "", false;
        hasContent := false;
        afterQuote := false;
        i := i + 1;
        OneStep(before, rest);
        continue;
      }
      if ch == '\r' || ch == '\n' {
        BreakStep(before, rest);
        if ch == '\r' && i + 1 < |content| && content[i + 1] == '\n' {
          i := i + 2;
        } else {
          i := i + 1;
        }
        row := row + [Cell(cur, wasQuoted)];
        cur, wasQuoted := "", false;
        hasContent := false;
        afterQuote := false;
        records := records + [row];
        row := [];
        continue;
      }
      OneStep(before, rest);
      if afterQuote && ch == '"' {
        cur := cur + [ch];
        i := i + 1;
        hasContent := true;
        continue;
      }
      cur := cur + [ch];
      i := i + 1;
      hasContent := true;
    }
    if cur != "" || wasQuoted || hasContent || row != [] {
      row := row + [Cell(cur, wasQuoted)];
      records := records + [row];
    }
  }

  /** One ordinary character: both runs advance by one. */
  lemma OneStep(s: Scan, t: string)
    requires t != "" && t[0] != '\r'
    ensures Run(s, Normalise(t)) == Run(Step(s, t[0]), Normalise(t[1..]))
    ensures |t| > 1 && t[1] != '"' ==> Normalise(t[1..])[0] != '"'
  {
    assert Normalise(t)[1..] == Normalise(t[1..]);
  }

  /** A doubled quote inside quotes: the reader jumps two, the automaton takes two steps. */
  lemma TwoSteps(s: Scan, t: string)
    requires |t| > 1 && t[0] == '"' && t[1] == '"' && s.mode == Quoted
    ensures Run(s, Normalise(t)) == Run(Push(s, '"', Quoted), Normalise(t[2..]))
  {
    OneStep(s, t);
    OneStep(Step(s, '"'), t[1..]);
    assert t[1..][1..] == t[2..];
  }

  /** A line break of any style: the reader jumps one or two, the automaton reads one LF. */
  lemma BreakStep(s: Scan, t: string)
    requires t != "" && (t[0] == '\r' || t[0] == '\n')
    ensures Run(s, Normalise(t))
         == Run(Step(s, '\n'), Normalise(if t[0] == '\r' && |t| > 1 && t[1] == '\n' then t[2..] else t[1..]))
  {
    var after := if t[0] == '\r' && |t| > 1 && t[1] == '\n' then t[2..] else t[1..];
    assert Normalise(t)[1..] == Normalise(after);
  }

  // ----- line endings -----

  lemma {:induction false} NormaliseHasNoReturn(t: string)
    ensures '\r' !in Normalise(t)
    decreases |t|
  {
    if t != "" {
      NormaliseHasNoReturn(if t[0] == '\r' && |t| > 1 && t[1] == '\n' then t[2..] else t[1..]);
    }
  }

  lemma {:induction false} NormaliseKeeps(t: string)
    requires '\r' !in t
    ensures Normalise(t) == t
  {
    if t != "" {
      NormaliseKeeps(t[1..]);
    }
  }

  /** The reader does not see which line ending a text uses, inside or outside quotes. */
  lemma BlindToLineEndings(t: string)
    ensures Records(Normalise(t)) == Records(t)
    ensures '\r' !in Normalise(t)
  {
    NormaliseHasNoReturn(t);
    NormaliseKeeps(Normalise(t));
  }

  lemma {:induction false} NormaliseConcat(a: string, b: string)
    requires a == "" || a[|a| - 1] != '\r' || b == "" || b[0] != '\n'
    ensures Normalise(a + b) == Normalise(a) + Normalise(b)
    decreases |a|
  {
    if a == "" {
      assert a + b == b;
    } else if a[0] == '\r' && |a| > 1 && a[1] == '\n' {
      assert (a + b)[2..] == a[2..] + b;
      NormaliseConcat(a[2..], b);
      Glue("\n", Normalise(a[2..]), Normalise(b));
    } else {
      assert (a + b)[1..] == a[1..] + b;
      NormaliseConcat(a[1..], b);
      Glue(if a[0] == '\r' then "\n" else [a[0]], Normalise(a[1..]), Normalise(b));
    }
  }

  // ----- the writer and the round trip -----

  function WriteCell(c: Cell): string {
    if c.quoted then "\"" + DoubleUp(c.text, '"') + "\"" else c.text
  }

  function WriteCells(row: Record): string {
    if row == [] then ""
    else if |row| == 1 then WriteCell(row[0])
    else WriteCell(row[0]) + "," + WriteCells(row[1..])
  }

  function Write(records: seq<Record>, eol: string): string {
    if records == [] then "" else WriteCells(records[0]) + eol + Write(records[1..], eol)
  }

  predicate LineEnding(eol: string) {
    eol == "\n" || eol == "\r\n" || eol == "\r"
  }

  /** A quoted cell holds anything but CR; a bare cell holds no separator and does not open with a quote. */
  predicate WritableCell(c: Cell) {
    && '\r' !in c.text
    && (c.quoted || (',' !in c.text && '\n' !in c.text && (c.text == "" || c.text[0] != '"')))
  }

  predicate WritableCells(row: Record) {
    forall i :: 0 <= i < |row| ==> WritableCell(row[i])
  }

  predicate Writable(records: seq<Record>) {
    forall i :: 0 <= i < |records| ==> records[i] != [] && WritableCells(records[i])
  }

  lemma {:induction false} RunConcat(s: Scan, a: string, b: string)
    ensures Run(s, a + b) == Run(Run(s, a), b)
    decreases |a|
  {
    if a == "" {
      assert a + b == b;
    } else {
      assert (a + b)[1..] == a[1..] + b;
      RunConcat(Step(s, a[0]), a[1..], b);
    }
  }

  lemma {:induction false} RunDoubled(s: Scan, t: string)
    requires s.mode == Quoted
    ensures Run(s, DoubleUp(t, '"')) == s.(cur := s.cur + t)
    decreases |t|
  {
    if t == "" {
      assert s.cur + t == s.cur;
    } else {
      var one := if t[0] == '"' then "\"\"" else [t[0]];
      RunConcat(s, one, DoubleUp(t[1..], '"'));
      assert Run(s, one) == Push(s, t[0], Quoted) by {
        assert one[1..] == if t[0] == '"' then "\"" else "";
        assert Run(Step(s, one[0]), one[1..]) == Push(s, t[0], Quoted);
      }
      RunDoubled(Push(s, t[0], Quoted), t[1..]);
      assert s.cur + [t[0]] + t[1..] == s.cur + t;
    }
  }

  lemma {:induction false} RunBare(s: Scan, t: string)
    requires s.mode == Plain || s.mode == Start
    requires ',' !in t && '\n' !in t
    requires s.mode == Start && t != "" ==> t[0] != '"'
    ensures Run(s, t) == s.(cur := s.cur + t, mode := if t == "" then s.mode else Plain)
    decreases |t|
  {
    if t == "" {
      assert s.cur + t == s.cur;
    } else {
      RunBare(Step(s, t[0]), t[1..]);
      assert s.cur + [t[0]] + t[1..] == s.cur + t;
    }
  }

  /** The automaton standing between two cells. */
  predicate Fresh(s: Scan) {
    s.mode == Start && s.cur == "" && !s.quoted
  }

  /** Reading one written cell and the separator after it yields exactly that cell. */
  lemma RunCell(s: Scan, c: Cell, sep: char)
    requires Fresh(s) && WritableCell(c) && (sep == ',' || sep == '\n')
    ensures var e := EndCell(s.(cur := c.text, quoted := c.quoted));
      Run(s, WriteCell(c) + [sep]) == if sep == ',' then e else e.(records := e.records + [e.row], row := [])
  {
    RunConcat(s, WriteCell(c), [sep]);
    if c.quoted {
      var inQuotes := s.(quoted := true, mode := Quoted);
      var inner := DoubleUp(c.text, '"') + "\"";
      assert WriteCell(c) == ['"'] + inner;
      assert WriteCell(c)[1..] == inner;
      RunConcat(inQuotes, DoubleUp(c.text, '"'), "\"");
      RunDoubled(inQuotes, c.text);
      assert s.cur + c.text == c.text;
      var closed := inQuotes.(cur := c.text, mode := QuoteSeen);
      assert Run(s, WriteCell(c)) == closed;
      assert Run(closed, [sep]) == Step(closed, sep);
    } else {
      RunBare(s, c.text);
      assert s.cur + c.text == c.text;
      var read := Run(s, c.text);
      assert Run(read, [sep]) == Step(read, sep);
    }
  }

  lemma {:induction false} RunRecord(s: Scan, row: Record)
    requires Fresh(s) && row != [] && WritableCells(row)
    ensures Run(s, WriteCells(row) + "\n") == s.(records := s.records + [s.row + row], row := [])
    decreases |row|
  {
    Uncons(row);
    if |row| == 1 {
      RunCell(s, row[0], '\n');
      assert row == [row[0]];
    } else {
      var head, rest := WriteCell(row[0]) + ",", row[1..];
      var next := s.(row := s.row + [row[0]]);
      assert Run(s, head) == next by {
        RunCell(s, row[0], ',');
      }
      RunRecord(next, rest);
      Glue(s.row, [row[0]], rest);
      RunConcat(s, head, WriteCells(rest) + "\n");
      Glue(head, WriteCells(rest), "\n");
    }
  }

  lemma {:induction false} RunWritten(s: Scan, records: seq<Record>)
    requires Fresh(s) && s.row == [] && Writable(records)
    ensures Run(s, Write(records, "\n")) == s.(records := s.records + records)
    decreases |records|
  {
    if records == [] {
      assert s.records + records == s.records;
    } else {
      RunRecord(s, records[0]);
      var line := WriteCells(records[0]) + "\n";
      assert Write(records, "\n") == line + Write(records[1..], "\n");
      RunConcat(s, line, Write(records[1..], "\n"));
      assert s.row + records[0] == records[0];
      RunWritten(s.(records := s.records + [records[0]]), records[1..]);
      assert s.records + [records[0]] + records[1..] == s.records + records;
    }
  }

  lemma {:induction false} DoubledKeepsOut(t: string, c: char)
    requires c !in t && c != '"'
    ensures c !in DoubleUp(t, '"')
  {
    if t != "" {
      DoubledKeepsOut(t[1..], c);
    }
  }

  lemma {:induction false} WrittenCellsShape(row: Record)
    requires row != [] && WritableCells(row)
    ensures '\r' !in WriteCells(row)
    ensures WriteCells(row) != "" ==> WriteCells(row)[0] != '\n'
  {
    DoubledKeepsOut(row[0].text, '\r');
    if |row| > 1 {
      WrittenCellsShape(row[1..]);
    }
  }

  lemma NormaliseBreak(eol: string, rest: string)
    requires LineEnding(eol)
    requires rest != "" && rest[0] == '\n' ==> eol == "\n"
    ensures Normalise(eol + rest) == "\n" + Normalise(rest)
  {
    var t := eol + rest;
    if eol == "\r\n" {
      assert t[2..] == rest;
    } else {
      assert t[1..] == rest;
    }
  }

  lemma NormaliseLine(cells: string, eol: string, rest: string)
    requires LineEnding(eol) && '\r' !in cells
    requires rest != "" && rest[0] == '\n' ==> eol == "\n"
    ensures Normalise(cells + eol + rest) == cells + "\n" + Normalise(rest)
  {
    NormaliseBreak(eol, rest);
    NormaliseKeeps(cells);
    NormaliseConcat(cells, eol + rest);
    Glue(cells, eol, rest);
    Glue(cells, "\n", Normalise(rest));
  }

  /** Whichever line ending the file uses throughout, it normalises to the LF file. */
  lemma {:induction false} WrittenNormalises(records: seq<Record>, eol: string)
    requires Writable(records) && LineEnding(eol)
    ensures Normalise(Write(records, eol)) == Write(records, "\n")
    ensures Write(records, eol) != "" && Write(records, eol)[0] == '\n' ==> eol == "\n"
    decreases |records|
  {
    if records != [] {
      WrittenCellsShape(records[0]);
      WrittenNormalises(records[1..], eol);
      NormaliseLine(WriteCells(records[0]), eol, Write(records[1..], eol));
    }
  }

  /** Reading undoes writing: the cells and their quoted flags come back, with any of the three line endings. */
  lemma ReadUndoesWrite(records: seq<Record>, eol: string)
    requires Writable(records) && LineEnding(eol)
    ensures Records(Write(records, eol)) == records
  {
    WrittenNormalises(records, eol);
    RunWritten(INITIAL, records);
    assert [] + records == records;
  }

  /** Section 2 rule 2 of RFC 4180: the last line break may be missing. That loses nothing exactly
      when the last record is not a lone empty bare cell. */
  lemma LastLineBreakOptional(records: seq<Record>, last: Record)
    requires Writable(records) && last != [] && WritableCells(last)
    ensures Records(Write(records, "\n") + WriteCells(last)) == records + [last]
       <==> last != [Cell("", false)]
  {
    var text := Write(records, "\n") + WriteCells(last);
    var s := INITIAL.(records := records);
    RunAllButLastBreak(records, last);
    if last == [Cell("", false)] {
      assert |Records(text)| == |records|;
    } else {
      FlushEqualsBreak(s, last);
    }
  }

  lemma RunAllButLastBreak(records: seq<Record>, last: Record)
    requires Writable(records) && last != [] && WritableCells(last)
    ensures Run(INITIAL, Normalise(Write(records, "\n") + WriteCells(last)))
         == Run(INITIAL.(records := records), WriteCells(last))
  {
    NoReturnWritten(records);
    WrittenCellsShape(last);
    NormaliseKeeps(Write(records, "\n") + WriteCells(last));
    RunConcat(INITIAL, Write(records, "\n"), WriteCells(last));
    RunWritten(INITIAL, records);
    assert [] + records == records;
  }

  lemma FlushEqualsBreak(s: Scan, last: Record)
    requires Fresh(s) && s.row == [] && last != [] && WritableCells(last)
    requires last != [Cell("", false)]
    ensures Finish(Run(s, WriteCells(last))) == s.records + [last]
  {
    var before := Run(s, WriteCells(last));
    UnfinishedRecord(s, last);
    RunConcat(s, WriteCells(last), "\n");
    assert Run(before, "\n") == Step(before, '\n');
    RunRecord(s, last);
    assert [] + last == last;
  }

  lemma {:induction false} NoReturnWritten(records: seq<Record>)
    requires Writable(records)
    ensures '\r' !in Write(records, "\n")
  {
    if records != [] {
      WrittenCellsShape(records[0]);
      NoReturnWritten(records[1..]);
    }
  }

  /** Before its line break a written record is pending in the automaton, unless it is a lone empty bare cell. */
  lemma {:induction false} UnfinishedRecord(s: Scan, row: Record)
    requires Fresh(s) && row != [] && WritableCells(row)
    requires s.row != [] || row != [Cell("", false)]
    ensures var e := Run(s, WriteCells(row)); (e.mode != Start || e.row != []) && e.mode != Quoted
    decreases |row|
  {
    var c := row[0];
    RunCell(s, c, ',');
    if |row| == 1 {
      RunConcat(s, WriteCell(c), ",");
      var e := Run(s, WriteCell(c));
      assert Run(e, ",") == Step(e, ',');
      if c.quoted {
        var inQuotes := s.(quoted := true, mode := Quoted);
        assert WriteCell(c)[1..] == DoubleUp(c.text, '"') + "\"";
        RunConcat(inQuotes, DoubleUp(c.text, '"'), "\"");
        RunDoubled(inQuotes, c.text);
        var inner := Run(inQuotes, DoubleUp(c.text, '"'));
        assert Run(inner, "\"") == Step(inner, '"');
      } else {
        RunBare(s, c.text);
        assert row == [c];
      }
    } else {
      assert WriteCells(row) == WriteCell(c) + "," + WriteCells(row[1..]);
      RunConcat(s, WriteCell(c) + ",", WriteCells(row[1..]));
      UnfinishedRecord(Run(s, WriteCell(c) + ","), row[1..]);
    }
  }

  // ----- what reading yields -----

  /** What every reachable automaton state promises: finished cells are writable, and so is the open one. */
  predicate Sound(s: Scan) {
    && Writable(s.records)
    && WritableCells(s.row)
    && WritableCell(Cell(s.cur, s.quoted))
    && (s.mode == Start ==> s.cur == "" && !s.quoted)
    && (s.mode == Plain && !s.quoted ==> s.cur != "")
    && (s.mode == Quoted || s.mode == QuoteSeen ==> s.quoted)
  }

  lemma {:induction false} RunKeepsSound(s: Scan, t: string)
    requires Sound(s) && '\r' !in t
    ensures Sound(Run(s, t))
    decreases |t|
  {
    if t != "" {
      assert Sound(Step(s, t[0]));
      RunKeepsSound(Step(s, t[0]), t[1..]);
    }
  }

  /** Whatever the text, the records read are non-empty and made of writable cells. */
  lemma ReadingIsWritable(t: string)
    ensures Writable(Records(t))
  {
    NormaliseHasNoReturn(t);
    RunKeepsSound(INITIAL, Normalise(t));
  }

  /** So writing what was read is a canonical form of the file: reading it again changes nothing,
      and the writable record lists are exactly the ones some text reads as. */
  lemma WriteOfReadReadsBack(t: string, eol: string)
    requires LineEnding(eol)
    ensures Records(Write(Records(t), eol)) == Records(t)
  {
    ReadingIsWritable(t);
    ReadUndoesWrite(Records(t), eol);
  }

  lemma WritableIsExactlyTheImage(records: seq<Record>)
    ensures Writable(records) <==> exists t: string :: Records(t) == records
  {
    if Writable(records) {
      ReadUndoesWrite(records, "\n");
    }
    forall t: string | Records(t) == records ensures Writable(records) {
      ReadingIsWritable(t);
    }
  }
}

/** From an uploaded text to typed columns: cell coercion, the two parsers and type inference. */
module Tabular {
  import opened CsvReader
  import opened Decimal
  import opened Text
  import opened Wrappers

  const I64_MIN: int := -0x8000_0000_0000_0000
  const I64_MAX: int := 0x7fff_ffff_ffff_ffff

  predicate InI64(n: int) {
    I64_MIN <= n <= I64_MAX
  }

  /** A JSON scalar; an integer number is an `i64` or a `u64`, every other number is its text. */
  datatype Value =
    | Null
    | Bool(b: bool)
    | Int(n: int)
    | Float(text: string)
    | Str(s: string)
    | Nested(json: string)

  // ----- coercion of one cell -----

  function Unsigned(s: string): string {
    if s != "" && s[0] == '-' then s[1..] else s
  }

  predicate IsIntegerText(s: string) {
    var t := Unsigned(s);
    if t == "" then false
    else if t == "0" then true
    else if t[0] == '0' then false
    else AllDigits(t)
  }

  /** `i64::from_str` before the range check, on a text that is an optional minus and digits. */
  function IntegerValue(s: string): int
    requires AllDigits(Unsigned(s))
  {
    if s != "" && s[0] == '-' then 0 - NumberOf(Unsigned(s)) else NumberOf(s)
  }

  function FirstOf(s: string, p: char -> bool): (i: nat)
    ensures i <= |s| && (i < |s| ==> p(s[i]))
    ensures forall j :: 0 <= j < i ==> !p(s[j])
  {
    if s == "" || p(s[0]) then 0 else 1 + FirstOf(s[1..], p)
  }

  predicate IsPoint(c: char) { c == '.' }

  predicate IsExponentMark(c: char) { c == 'e' || c == 'E' }

  predicate IsExponent(e: string) {
    var digits := if e != "" && (e[0] == '+' || e[0] == '-') then e[1..] else e;
    digits != "" && AllDigits(digits)
  }

  predicate IsMantissa(m: string) {
    var dot := FirstOf(m, IsPoint);
    && dot < |m|
    && var whole, fraction := m[..dot], m[dot + 1..];
    && fraction != "" && AllDigits(fraction)
    && Canonical(whole)
  }

  predicate IsUnsignedFloat(t: string) {
    var e := FirstOf(t, IsExponentMark);
    IsMantissa(t[..e]) && (e == |t| || IsExponent(t[e + 1..]))
  }

  predicate IsFloatText(s: string) {
    IsUnsignedFloat(Unsigned(s))
  }

  predicate SaysNull(raw: string) {
    && |raw| == 4
    && (raw[0] == 'n' || raw[0] == 'N') && (raw[1] == 'u' || raw[1] == 'U')
    && (raw[2] == 'l' || raw[2] == 'L') && (raw[3] == 'l' || raw[3] == 'L')
  }

  /** `printed` is the text the finite `f64` nearest to a float text is written as; none when it is not finite. */
  function Coerce(raw: string, printed: string -> Option<string>): Value {
    if raw == "" || SaysNull(raw) then Null
    else if IsIntegerText(raw) then
      if InI64(IntegerValue(raw)) then Int(IntegerValue(raw)) else Str(raw)
    else if IsFloatText(raw) then
      match printed(raw) case Some(text) => Float(text) case None => Str(raw)
    else Str(raw)
  }

  lemma PrintedIsIntegerText(n: int)
    ensures IsIntegerText(Print(n)) && IntegerValue(Print(n)) == n && !SaysNull(Print(n)) && Print(n) != "-0"
  {
    DigitsCanonical(if n < 0 then -n else n);
    assert n < 0 ==> Print(n)[1..] == Digits(-n);
  }

  lemma IntegerTextIsPrinted(s: string)
    requires IsIntegerText(s)
    ensures if s == "-0" then IntegerValue(s) == 0 else s == Print(IntegerValue(s))
  {
    var t := Unsigned(s);
    DigitsCanonical(0);
    DigitsOfNumber(t);
    if s[0] == '-' {
      assert s == "-" + t;
      if t != "0" {
        NumberPositive(t);
      }
    }
  }

  /** Integer coercion, both ways: the texts that become the integer `n` are its decimal text and,
      for zero alone, also "-0". */
  lemma CoerceToIntegerExactly(raw: string, n: int, printed: string -> Option<string>)
    ensures Coerce(raw, printed) == Int(n) <==> InI64(n) && (raw == Print(n) || (raw == "-0" && n == 0))
  {
    PrintedIsIntegerText(n);
    if IsIntegerText(raw) {
      IntegerTextIsPrinted(raw);
    }
    assert "-0"[1..] == "0";
  }

  /** Every `i64` survives being written and coerced; an integer text outside `i64` stays text. */
  lemma IntegersSurvive(n: int, printed: string -> Option<string>)
    ensures Coerce(Print(n), printed) == if InI64(n) then Int(n) else Str(Print(n))
  {
    PrintedIsIntegerText(n);
  }

  // ----- the accepted float texts, by a grammar -----

  predicate Digits1(s: string) {
    s != "" && AllDigits(s)
  }

  /** Nothing, or a mark, perhaps a sign, and digits. */
  ghost predicate ExponentPart(s: string) {
    s == "" || exists mark, sign, digits :: Exponent(s, mark, sign, digits)
  }

  predicate Exponent(s: string, mark: char, sign: string, digits: string) {
    (mark == 'e' || mark == 'E') && (sign == "" || sign == "+" || sign == "-") && Digits1(digits) && s == [mark] + sign + digits
  }

  /** A sign or none, an integer without needless zeros, a point, digits, and an exponent part. */
  ghost predicate FloatParts(s: string, sign: string, whole: string, fraction: string, exponent: string) {
    && (sign == "" || sign == "-") && Canonical(whole) && Digits1(fraction) && ExponentPart(exponent)
    && s == sign + (whole + "." + fraction + exponent)
  }

  lemma ExponentExactly(s: string)
    requires s != "" && IsExponentMark(s[0])
    ensures IsExponent(s[1..]) <==> ExponentPart(s)
  {
    var e := s[1..];
    if IsExponent(e) {
      if e[0] == '+' || e[0] == '-' {
        assert s == [s[0]] + [e[0]] + e[1..];
        assert Exponent(s, s[0], [e[0]], e[1..]);
      } else {
        assert s == [s[0]] + "" + e;
        assert Exponent(s, s[0], "", e);
      }
    }
    if mark, sign, digits :| Exponent(s, mark, sign, digits) {
      assert e == sign + digits;
      if sign == "" {
        assert e == digits && IsDigit(digits[0]);
      } else {
        assert e[0] == sign[0] && e[1..] == digits;
      }
    }
  }

  lemma MantissaExactly(m: string, whole: string, fraction: string)
    requires m == whole + "." + fraction && AllDigits(whole)
    ensures IsMantissa(m) <==> Canonical(whole) && Digits1(fraction)
  {
    assert m[|whole|] == '.';
    assert forall j :: 0 <= j < |whole| ==> m[j] == whole[j];
    assert FirstOf(m, IsPoint) == |whole|;
    assert m[..|whole|] == whole && m[|whole| + 1..] == fraction;
  }

  lemma NoMark(whole: string, fraction: string)
    requires AllDigits(whole) && AllDigits(fraction)
    ensures forall c :: c in whole + "." + fraction ==> !IsExponentMark(c)
  {
  }

  lemma MarkStartsExponent(m: string, exponent: string)
    requires forall c :: c in m ==> !IsExponentMark(c)
    requires exponent != "" ==> IsExponentMark(exponent[0])
    ensures var t := m + exponent;
      && FirstOf(t, IsExponentMark) == |m| && t[..|m|] == m
      && (exponent != "" ==> |m| < |t| && t[|m| + 1..] == exponent[1..])
  {
    var t := m + exponent;
    assert forall j :: 0 <= j < |m| ==> t[j] == m[j];
    assert exponent != "" ==> t[|m|] == exponent[0];
  }

  lemma ExponentStarts(exponent: string)
    requires ExponentPart(exponent)
    ensures exponent != "" ==> IsExponentMark(exponent[0])
  {
    if exponent != "" {
      var mark, sign, digits :| Exponent(exponent, mark, sign, digits);
      assert exponent[0] == mark;
    }
  }

  lemma UnsignedOf(sign: string, t: string)
    requires (sign == "" || sign == "-") && t != "" && t[0] != '-'
    ensures Unsigned(sign + t) == t
  {
    assert sign == "" ==> sign + t == t;
  }

  lemma PartsMakeFloat(m: string, exponent: string)
    requires IsMantissa(m)
    requires forall c :: c in m ==> !IsExponentMark(c)
    requires exponent != "" ==> IsExponentMark(exponent[0]) && IsExponent(exponent[1..])
    ensures IsUnsignedFloat(m + exponent)
  {
    hide IsMantissa, IsExponent;
    MarkStartsExponent(m, exponent);
    assert |m + exponent| == |m| <==> exponent == "";
  }

  lemma FloatPartsAccepted(s: string, sign: string, whole: string, fraction: string, exponent: string)
    requires FloatParts(s, sign, whole, fraction, exponent)
    ensures IsFloatText(s)
  {
    hide IsUnsignedFloat, IsMantissa, IsExponent;
    var m := whole + "." + fraction;
    assert (m + exponent)[0] == whole[0] != '-';
    UnsignedOf(sign, m + exponent);
    MantissaExactly(m, whole, fraction);
    NoMark(whole, fraction);
    ExponentStarts(exponent);
    if exponent != "" {
      ExponentExactly(exponent);
    }
    PartsMakeFloat(m, exponent);
  }

  lemma MantissaSplits(m: string) returns (whole: string, fraction: string)
    requires IsMantissa(m)
    ensures m == whole + "." + fraction && Canonical(whole) && Digits1(fraction)
  {
    var dot := FirstOf(m, IsPoint);
    whole, fraction := m[..dot], m[dot + 1..];
    SplitAt(m, dot);
  }

  /** The texts on both sides of the first point, and what follows the first exponent mark. */
  lemma FloatTextSplits(s: string) returns (whole: string, fraction: string, exponent: string)
    requires IsFloatText(s)
    ensures Unsigned(s) == whole + "." + fraction + exponent
    ensures Canonical(whole) && Digits1(fraction) && ExponentPart(exponent)
  {
    hide IsMantissa, IsExponent, ExponentPart;
    var t := Unsigned(s);
    var e := FirstOf(t, IsExponentMark);
    exponent := t[e..];
    whole, fraction := MantissaSplits(t[..e]);
    assert t == t[..e] + exponent;
    if exponent != "" {
      assert exponent[1..] == t[e + 1..];
      ExponentExactly(exponent);
    } else {
      NoExponent();
    }
  }

  lemma NoExponent()
    ensures ExponentPart("")
  {
  }

  lemma FloatTextHasParts(s: string)
    requires IsFloatText(s)
    ensures exists sign, whole, fraction, exponent :: FloatParts(s, sign, whole, fraction, exponent)
  {
    var whole, fraction, exponent := FloatTextSplits(s);
    var sign := if s[0] == '-' then "-" else "";
    assert s == sign + Unsigned(s);
    assert FloatParts(s, sign, whole, fraction, exponent);
  }

  /** The hand-written scan accepts exactly the texts of the grammar. */
  lemma FloatTextExactly(s: string)
    ensures IsFloatText(s) <==> exists sign, whole, fraction, exponent :: FloatParts(s, sign, whole, fraction, exponent)
  {
    if IsFloatText(s) {
      FloatTextHasParts(s);
    }
    if sign, whole, fraction, exponent :| FloatParts(s, sign, whole, fraction, exponent) {
      FloatPartsAccepted(s, sign, whole, fraction, exponent);
    }
  }

  lemma FloatIsNoInteger(s: string)
    requires IsFloatText(s)
    ensures !IsIntegerText(s) && s != "" && !SaysNull(s)
  {
    var whole, fraction, exponent := FloatTextSplits(s);
    assert Unsigned(s)[|whole|] == '.';
  }

  /** A cell becomes a float exactly when its text is in the grammar and finite; the float is written anew. */
  lemma CoerceToFloatExactly(raw: string, text: string, printed: string -> Option<string>)
    ensures Coerce(raw, printed) == Float(text) <==>
      && printed(raw) == Some(text)
      && exists sign, whole, fraction, exponent :: FloatParts(raw, sign, whole, fraction, exponent)
  {
    FloatTextExactly(raw);
    if IsFloatText(raw) {
      FloatIsNoInteger(raw);
    }
  }

  /** A value as the text an export would show. */
  function Shown(v: Value): string {
    match v
    case Null => ""
    case Bool(b) => if b then "true" else "false"
    case Int(n) => Print(n)
    case Float(t) => t
    case Str(s) => s
    case Nested(j) => j
  }

  /** A finite float text that is not the one its number is written as. */
  predicate Rewritten(raw: string, printed: string -> Option<string>) {
    IsFloatText(raw) && printed(raw).Some? && printed(raw) != Some(raw)
  }

  /** Coercion loses text in exactly three places: a written-out null, the integer "-0", and a float that is
      written differently from its cell. */
  lemma CoerceKeepsTextExactly(raw: string, printed: string -> Option<string>)
    ensures Shown(Coerce(raw, printed)) == raw <==> !SaysNull(raw) && raw != "-0" && !Rewritten(raw, printed)
  {
    if IsFloatText(raw) {
      FloatIsNoInteger(raw);
    }
    if Coerce(raw, printed).Int? {
      CoerceToIntegerExactly(raw, Coerce(raw, printed).n, printed);
      if raw == "-0" {
        assert Print(0) == "0";
      }
    } else {
      CoerceToIntegerExactly(raw, 0, printed);
    }
  }

  /** A trailing zero is lost: the cell "1.50" holds the number that is written "1.5". */
  lemma TrailingZeroIsLost(printed: string -> Option<string>)
    requires printed("1.50") == Some("1.5")
    ensures Coerce("1.50", printed) == Float("1.5") && Shown(Coerce("1.50", printed)) != "1.50"
  {
    assert "1.50" == "" + ("1" + "." + "50" + "");
    assert FloatParts("1.50", "", "1", "50", "");
    CoerceToFloatExactly("1.50", "1.5", printed);
    assert |"1.5"| != |"1.50"|;
  }

  lemma SaysNullExactly(raw: string)
    ensures SaysNull(raw) <==> LowerAscii(raw) == "null"
  {
    var r := LowerAscii(raw);
    hide LowerAscii;
    assert r == "null" <==> |r| == 4 && r[0] == 'n' && r[1] == 'u' && r[2] == 'l' && r[3] == 'l';
  }

  /** A cell is null exactly when it is empty or says null, in letters of either case. */
  lemma CoerceToNullExactly(raw: string, printed: string -> Option<string>)
    ensures Coerce(raw, printed) == Null <==> raw == "" || LowerAscii(raw) == "null"
  {
    SaysNullExactly(raw);
    hide SaysNull, LowerAscii;
  }

  // ----- CSV -----

  datatype ParseError =
    | EmptyCsv
    | MissingHeader
    | Ragged(row: nat, fields: nat, want: nat)
    | NotAnArray
    | NoKeys

  datatype Parsed = Table(columns: seq<string>, rows: seq<seq<Value>>) | Refused(error: ParseError)

  predicate BlankLine(r: Record) {
    |r| == 1 && !r[0].quoted && Trim(r[0].text) == ""
  }

  function WithoutBlankLines(records: seq<Record>): seq<Record> {
    if records == [] then []
    else if BlankLine(records[0]) then WithoutBlankLines(records[1..])
    else [records[0]] + WithoutBlankLines(records[1..])
  }

  lemma {:induction false} WithoutBlankLinesConcat(a: seq<Record>, b: seq<Record>)
    ensures WithoutBlankLines(a + b) == WithoutBlankLines(a) + WithoutBlankLines(b)
  {
    if a == [] {
      assert a + b == b;
    } else {
      assert (a + b)[1..] == a[1..] + b;
      WithoutBlankLinesConcat(a[1..], b);
    }
  }

  /** A record is dropped exactly when it is one bare cell of white space; the others stay, in their order. */
  lemma BlankLineGoes(before: seq<Record>, r: Record, after: seq<Record>)
    ensures WithoutBlankLines(before + [r] + after)
         == WithoutBlankLines(before) + (if |r| == 1 && !r[0].quoted && AllSpace(r[0].text) then [] else [r]) + WithoutBlankLines(after)
    ensures WithoutBlankLines([]) == []
  {
    WithoutBlankLinesConcat(before + [r], after);
    WithoutBlankLinesConcat(before, [r]);
    assert [r][1..] == [];
    if |r| == 1 {
      TrimOnlyDropsSpace(r[0].text);
      assert AllSpace(r[0].text) <==> forall c :: c in r[0].text ==> IsSpace(c);
    }
  }

  function CellValue(c: Cell, printed: string -> Option<string>): Value {
    Coerce(if c.quoted then c.text else Trim(c.text), printed)
  }

  /** The header's column names. */
  function Names(header: Record): (names: seq<string>)
    ensures |names| == |header|
    ensures forall j :: 0 <= j < |header| ==> names[j] == Trim(header[j].text)
  {
    seq(|header|, j requires 0 <= j < |header| => Trim(header[j].text))
  }

  /** One value per cell, in place. */
  function RowValues(r: Record, printed: string -> Option<string>): (values: seq<Value>)
    ensures |values| == |r|
    ensures forall j :: 0 <= j < |r| ==> values[j] == CellValue(r[j], printed)
  {
    seq(|r|, j requires 0 <= j < |r| => CellValue(r[j], printed))
  }

  predicate Nameless(columns: seq<string>) {
    forall j :: 0 <= j < |columns| ==> columns[j] == ""
  }

  /** Records `1..n` are as wide as the header. */
  ghost predicate RectangularUpTo(records: seq<Record>, n: nat)
    requires records != [] && n <= |records|
  {
    forall k :: 1 <= k < n ==> |records[k]| == |records[0]|
  }

  /** Each row holds the values of its record. */
  ghost predicate RowsOf(records: seq<Record>, printed: string -> Option<string>, rows: seq<seq<Value>>) {
    |rows| < |records| && forall i :: 0 <= i < |rows| ==> rows[i] == RowValues(records[i + 1], printed)
  }

  lemma RowsGrow(records: seq<Record>, printed: string -> Option<string>, rows: seq<seq<Value>>)
    requires RowsOf(records, printed, rows) && |rows| + 1 < |records|
    ensures RowsOf(records, printed, rows + [RowValues(records[|rows| + 1], printed)])
  {
  }

  /** What the parser owes its caller, for a table and for each refusal. */
  ghost predicate CsvAnswer(records: seq<Record>, printed: string -> Option<string>, answer: Parsed) {
    match answer
    case Table(columns, rows) =>
      && records != [] && columns == Names(records[0]) && !Nameless(columns)
      && RectangularUpTo(records, |records|)
      && |rows| == |records| - 1 && RowsOf(records, printed, rows)
    case Refused(EmptyCsv) => records == []
    case Refused(MissingHeader) => records != [] && Nameless(Names(records[0]))
    case Refused(Ragged(n, fields, want)) =>
      && records != [] && !Nameless(Names(records[0]))
      && 1 <= n < |records| && RectangularUpTo(records, n)
      && want == |records[0]| && fields == |records[n]| != want
    case Refused(_) => false
  }

  method ParseCsv(content: string, printed: string -> Option<string>) returns (answer: Parsed)
    ensures CsvAnswer(WithoutBlankLines(Records(content)), printed, answer)
  {
    var all := ReadCsvRecords(content);
    answer := ParseRecords(WithoutBlankLines(all), printed);
  }

  method ParseRecords(records: seq<Record>, printed: string -> Option<string>) returns (answer: Parsed)
    ensures CsvAnswer(records, printed, answer)
  {
    hide RowValues, Names;
    if records == [] {
      return Refused(EmptyCsv);
    }
    var columns := Names(records[0]);
    if columns == [] || Nameless(columns) {
      return Refused(MissingHeader);
    }
    var rows: seq<seq<Value>> := [];
    var n := 1;
    while n < |records|
      invariant 1 <= n <= |records| && |rows| == n - 1
      invariant RectangularUpTo(records, n)
      invariant RowsOf(records, printed, rows)
    {
      RowsGrow(records, printed, rows);
      if |records[n]| != |columns| {
        return Refused(Ragged(n, |records[n]|, |columns|));
      }
      rows := rows + [RowValues(records[n], printed)];
      n := n + 1;
    }
    return Table(columns, rows);
  }

  /** Every row of an accepted file is exactly as wide as its header, so pairing cells with columns
      loses none. */
  lemma CsvIsRectangular(records: seq<Record>, printed: string -> Option<string>, answer: Parsed)
    requires CsvAnswer(records, printed, answer) && answer.Table?
    ensures forall i :: 0 <= i < |answer.rows| ==> |answer.rows[i]| == |answer.columns| == |records[i + 1]|
  {
    forall i | 0 <= i < |answer.rows|
      ensures |answer.rows[i]| == |answer.columns| == |records[i + 1]|
    {
      assert answer.rows[i] == RowValues(records[i + 1], printed);
    }
  }

  /** Every name of an accepted file is its header cell trimmed. Every value is the one its own cell stands for: a
      quoted cell as it is, a bare one trimmed. */
  lemma CsvCellsExactly(records: seq<Record>, printed: string -> Option<string>, columns: seq<string>, rows: seq<seq<Value>>,
                        i: nat, j: nat)
    requires CsvAnswer(records, printed, Table(columns, rows)) && i < |rows| && j < |columns|
    ensures |columns| == |records[0]| && |rows| == |records| - 1
    ensures |rows[i]| == |records[i + 1]| == |columns|
    ensures TrimmedFrom(columns[j], records[0][j].text)
    ensures exists t ::
      && rows[i][j] == Coerce(t, printed)
      && if records[i + 1][j].quoted then t == records[i + 1][j].text else TrimmedFrom(t, records[i + 1][j].text)
  {
    assert rows[i] == RowValues(records[i + 1], printed);
    var c := records[i + 1][j];
    TrimIsTrimmedFrom(records[0][j].text);
    TrimIsTrimmedFrom(c.text);
    assert rows[i][j] == Coerce(if c.quoted then c.text else Trim(c.text), printed);
  }

  /** A file is refused for its header exactly when every header cell is white space. */
  lemma MissingHeaderExactly(records: seq<Record>, printed: string -> Option<string>, answer: Parsed)
    requires CsvAnswer(records, printed, answer)
    ensures answer == Refused(MissingHeader) <==>
      records != [] && forall j :: 0 <= j < |records[0]| ==> AllSpace(records[0][j].text)
  {
    if records != [] {
      forall j | 0 <= j < |records[0]|
        ensures Names(records[0])[j] == "" <==> AllSpace(records[0][j].text)
      {
        TrimOnlyDropsSpace(records[0][j].text);
        assert AllSpace(records[0][j].text) <==> forall c :: c in records[0][j].text ==> IsSpace(c);
      }
    }
  }

  /** The contract of the parser leaves it no choice: there is one answer for every text. */
  lemma CsvAnswerUnique(records: seq<Record>, printed: string -> Option<string>, a: Parsed, b: Parsed)
    requires CsvAnswer(records, printed, a) && CsvAnswer(records, printed, b)
    ensures a == b
  {
    if a.Table? && b.Table? {
      assert a.rows == b.rows;
    }
  }

  // ----- JSON -----

  /** An element of the top-level array; anything but an object contributes an empty row. */
  datatype JsonRow = Object(fields: seq<(string, Value)>) | NotObject

  function Keys(r: JsonRow): (keys: seq<string>)
    ensures if r.NotObject? then keys == []
            else |keys| == |r.fields| && forall i :: 0 <= i < |keys| ==> keys[i] == r.fields[i].0
  {
    if r.NotObject? then [] else seq(|r.fields|, i requires 0 <= i < |r.fields| => r.fields[i].0)
  }

  function Lookup(fields: seq<(string, Value)>, key: string): Value {
    if fields == [] then Null
    else if fields[0].0 == key then fields[0].1
    else Lookup(fields[1..], key)
  }

  function FieldOf(r: JsonRow, key: string): Value {
    if r.NotObject? then Null else Lookup(r.fields, key)
  }

  /** The keys of the first rows, row by row, repeats included. */
  function AllKeys(document: seq<JsonRow>): seq<string> {
    if document == [] then [] else AllKeys(document[..|document| - 1]) + Keys(document[|document| - 1])
  }

  /** Every key once, where it appears first. */
  function FirstSeen(keys: seq<string>): (columns: seq<string>)
    ensures forall c :: c in columns <==> c in keys
  {
    if keys == [] then []
    else
      var earlier, last := FirstSeen(keys[..|keys| - 1]), keys[|keys| - 1];
      Unsnoc(keys);
      if last in keys[..|keys| - 1] then earlier else earlier + [last]
  }

  lemma Unsnoc<T>(s: seq<T>)
    requires s != []
    ensures s[..|s| - 1] + [s[|s| - 1]] == s
  {
  }

  lemma {:induction false} FirstSeenDistinct(keys: seq<string>)
    ensures Distinct(FirstSeen(keys))
  {
    if keys != [] {
      FirstSeenDistinct(keys[..|keys| - 1]);
    }
  }

  /** The columns come in the order in which the keys are met first. */
  lemma {:induction false} FirstSeenOrder(keys: seq<string>, i: nat, j: nat)
    requires i < j < |FirstSeen(keys)|
    ensures exists k :: 0 <= k < |keys| && keys[k] == FirstSeen(keys)[i] && FirstSeen(keys)[j] !in keys[..k + 1]
  {
    var front := keys[..|keys| - 1];
    var earlier := FirstSeen(front);
    if j < |earlier| {
      FirstSeenOrder(front, i, j);
      var k :| 0 <= k < |front| && front[k] == earlier[i] && earlier[j] !in front[..k + 1];
      assert front[..k + 1] == keys[..k + 1];
    } else {
      assert earlier[i] in front;
      var k :| 0 <= k < |front| && front[k] == earlier[i];
      assert keys[..k + 1] == front[..k + 1];
    }
  }

  lemma {:induction false} AllKeysExactly(document: seq<JsonRow>, c: string)
    ensures c in AllKeys(document) <==> exists i :: 0 <= i < |document| && c in Keys(document[i])
  {
    if document != [] {
      var front := document[..|document| - 1];
      AllKeysExactly(front, c);
      if i :| 0 <= i < |document| && c in Keys(document[i]) {
        assert i == |document| - 1 || document[i] == front[i];
      }
      if i :| 0 <= i < |front| && c in Keys(front[i]) {
        assert document[i] == front[i];
      }
    }
  }

  /** The columns of an accepted document are exactly the names of the fields of its objects. */
  lemma JsonColumnsExactly(document: seq<JsonRow>, columns: seq<string>, rows: seq<seq<Value>>, c: string)
    requires JsonAnswer(document, true, Table(columns, rows))
    ensures c in columns <==>
      exists i, k :: 0 <= i < |document| && document[i].Object? && 0 <= k < |document[i].fields| && document[i].fields[k].0 == c
  {
    AllKeysExactly(document, c);
    if i :| 0 <= i < |document| && c in Keys(document[i]) {
      var k :| 0 <= k < |Keys(document[i])| && Keys(document[i])[k] == c;
      assert document[i].fields[k].0 == c;
    }
    if i, k :| 0 <= i < |document| && document[i].Object? && 0 <= k < |document[i].fields| && document[i].fields[k].0 == c {
      assert Keys(document[i])[k] == c;
    }
  }

  /** One row per element, with null where the element has no such field. */
  ghost predicate FieldRows(document: seq<JsonRow>, columns: seq<string>, rows: seq<seq<Value>>) {
    && |rows| == |document|
    && (forall i :: 0 <= i < |document| ==> |rows[i]| == |columns|)
    && (forall i, j :: 0 <= i < |document| && 0 <= j < |columns| ==> rows[i][j] == FieldOf(document[i], columns[j]))
  }

  ghost predicate JsonAnswer(document: seq<JsonRow>, isArray: bool, answer: Parsed) {
    match answer
    case Table(columns, rows) =>
      isArray && columns != [] && columns == FirstSeen(AllKeys(document)) && FieldRows(document, columns, rows)
    case Refused(NotAnArray) => !isArray
    case Refused(NoKeys) => isArray && AllKeys(document) == []
    case Refused(_) => false
  }

  lemma FirstSeenStep(before: seq<string>, keys: seq<string>, j: nat)
    requires j < |keys|
    ensures var seen := FirstSeen(before + keys[..j]);
      FirstSeen(before + keys[..j + 1]) == if keys[j] in seen then seen else seen + [keys[j]]
  {
    var all := before + keys[..j + 1];
    assert all[..|all| - 1] == before + keys[..j] && all[|all| - 1] == keys[j];
  }

  method AddKeys(columns: seq<string>, keys: seq<string>, ghost before: seq<string>) returns (more: seq<string>)
    requires columns == FirstSeen(before)
    ensures more == FirstSeen(before + keys)
  {
    hide FirstSeen;
    more := columns;
    assert before + keys[..0] == before;
    for j := 0 to |keys|
      invariant more == FirstSeen(before + keys[..j])
    {
      FirstSeenStep(before, keys, j);
      if keys[j] !in more {
        more := more + [keys[j]];
      }
    }
    assert keys[..|keys|] == keys;
  }

  method ColumnsOf(document: seq<JsonRow>) returns (columns: seq<string>)
    ensures columns == FirstSeen(AllKeys(document))
  {
    columns := [];
    for i := 0 to |document|
      invariant columns == FirstSeen(AllKeys(document[..i]))
    {
      assert document[..i + 1][..i] == document[..i];
      columns := AddKeys(columns, Keys(document[i]), AllKeys(document[..i]));
    }
    assert document[..|document|] == document;
  }

  /** `isArray` says whether the top level of the document is an array. */
  method ParseJsonTable(document: seq<JsonRow>, isArray: bool) returns (answer: Parsed)
    ensures JsonAnswer(document, isArray, answer)
  {
    if !isArray {
      return Refused(NotAnArray);
    }
    var columns := ColumnsOf(document);
    if columns == [] {
      SomeMember(AllKeys(document));
      return Refused(NoKeys);
    }
    var rows := seq(|document|, i requires 0 <= i < |document| =>
      seq(|columns|, j requires 0 <= j < |columns| => FieldOf(document[i], columns[j])));
    return Table(columns, rows);
  }

  lemma {:induction false} LookupExactly(fields: seq<(string, Value)>, key: string)
    ensures (forall k :: 0 <= k < |fields| ==> fields[k].0 != key) ==> Lookup(fields, key) == Null
    ensures forall k :: 0 <= k < |fields| && fields[k].0 == key && (forall m :: 0 <= m < k ==> fields[m].0 != key) ==>
              Lookup(fields, key) == fields[k].1
  {
    if fields != [] && fields[0].0 != key {
      var rest := fields[1..];
      LookupExactly(rest, key);
      assert Lookup(fields, key) == Lookup(rest, key);
      hide Lookup;
      forall k | 0 <= k < |fields| && fields[k].0 == key && (forall m :: 0 <= m < k ==> fields[m].0 != key)
        ensures Lookup(fields, key) == fields[k].1
      {
        assert rest[k - 1].0 == key;
        forall m | 0 <= m < k - 1 ensures rest[m].0 != key {
          assert rest[m] == fields[m + 1];
        }
      }
      if forall k :: 0 <= k < |fields| ==> fields[k].0 != key {
        forall k | 0 <= k < |rest| ensures rest[k].0 != key {
          assert rest[k] == fields[k + 1];
        }
      }
    }
  }

  /** Every cell of an accepted document: the value of the element's own field with the column's name, and null
      where the element has no such field or is no object. */
  lemma JsonCellsExactly(document: seq<JsonRow>, columns: seq<string>, rows: seq<seq<Value>>, i: nat, j: nat)
    requires JsonAnswer(document, true, Table(columns, rows)) && i < |document| && j < |columns|
    ensures |rows| == |document| && |rows[i]| == |columns|
    ensures document[i].NotObject? ==> rows[i][j] == Null
    ensures document[i].Object? ==>
      var fields := document[i].fields;
      && ((forall k :: 0 <= k < |fields| ==> fields[k].0 != columns[j]) ==> rows[i][j] == Null)
      && forall k :: 0 <= k < |fields| && fields[k].0 == columns[j] && (forall m :: 0 <= m < k ==> fields[m].0 != columns[j]) ==>
           rows[i][j] == fields[k].1
  {
    assert rows[i][j] == FieldOf(document[i], columns[j]);
    if document[i].Object? {
      LookupExactly(document[i].fields, columns[j]);
    }
  }

  /** This contract, too, leaves one answer for every document. */
  lemma JsonAnswerUnique(document: seq<JsonRow>, isArray: bool, a: Parsed, b: Parsed)
    requires JsonAnswer(document, isArray, a) && JsonAnswer(document, isArray, b)
    ensures a == b
  {
    if a.Table? && b.Table? {
      forall i | 0 <= i < |document| ensures a.rows[i] == b.rows[i] {
        assert forall j :: 0 <= j < |a.columns| ==> a.rows[i][j] == FieldOf(document[i], a.columns[j]);
      }
    }
  }

  // ----- column types -----

  datatype SqlType = Varchar | Bigint | Double | Boolean

  function At(row: seq<Value>, col: nat): Value {
    if col < |row| then row[col] else Null
  }

  ghost predicate AllAt(rows: seq<seq<Value>>, col: nat, p: Value -> bool) {
    forall i :: 0 <= i < |rows| ==> p(At(rows[i], col))
  }

  predicate IsBoolean(v: Value) { v.Null? || v.Bool? }

  predicate IsInteger(v: Value) { v.Null? || v.Int? }

  predicate IsNumber(v: Value) { v.Null? || v.Int? || v.Float? }

  ghost predicate BooleanColumn(rows: seq<seq<Value>>, col: nat) {
    AllAt(rows, col, v => IsBoolean(v))
  }

  ghost predicate IntegerColumn(rows: seq<seq<Value>>, col: nat) {
    AllAt(rows, col, v => IsInteger(v)) && !BooleanColumn(rows, col)
  }

  ghost predicate NumberColumn(rows: seq<seq<Value>>, col: nat) {
    AllAt(rows, col, v => IsNumber(v)) && !BooleanColumn(rows, col) && !IntegerColumn(rows, col)
  }

  /** The narrowest of boolean, bigint and double that fits every value; varchar when none does.
      A column of nulls only is boolean. */
  method InferType(rows: seq<seq<Value>>, col: nat) returns (ty: SqlType)
    ensures ty.Boolean? <==> BooleanColumn(rows, col)
    ensures ty.Bigint? <==> IntegerColumn(rows, col)
    ensures ty.Double? <==> NumberColumn(rows, col)
  {
    var ints, numbers, bools, seen := true, true, true, false;
    for i := 0 to |rows|
      invariant bools <==> forall k :: 0 <= k < i ==> IsBoolean(At(rows[k], col))
      invariant ints <==> forall k :: 0 <= k < i ==> IsInteger(At(rows[k], col))
      invariant numbers <==> forall k :: 0 <= k < i ==> IsNumber(At(rows[k], col))
      invariant seen <==> exists k :: 0 <= k < i && (At(rows[k], col).Int? || At(rows[k], col).Float?)
    {
      match At(rows[i], col)
      case Null =>
      case Bool(_) => ints, numbers := false, false;
      case Int(_) => bools, seen := false, true;
      case Float(_) => bools, seen, ints := false, true, false;
      case _ => ints, numbers, bools := false, false, false;
    }
    if !seen && bools {
      return Boolean;
    }
    if seen && ints {
      return Bigint;
    } else if seen && numbers {
      return Double;
    } else if bools && exists k :: 0 <= k < |rows| && At(rows[k], col).Bool? {
      return Boolean;
    } else {
      return Varchar;
    }
  }

  /** Which values a column of a type can hold; every value fits `varchar`, as text. */
  predicate Admits(ty: SqlType, v: Value) {
    match ty
    case Varchar => true
    case Bigint => v.Null? || (v.Int? && InI64(v.n))
    case Double => IsNumber(v)
    case Boolean => IsBoolean(v)
  }

  /** What `InferType` answers. */
  ghost function TypeOf(rows: seq<seq<Value>>, col: nat): SqlType {
    if BooleanColumn(rows, col) then Boolean
    else if IntegerColumn(rows, col) then Bigint
    else if NumberColumn(rows, col) then Double
    else Varchar
  }

  /** The inferred type admits its column, except for a bigint column that holds a number outside `i64`. */
  lemma InferredTypeAdmitsExactly(rows: seq<seq<Value>>, col: nat)
    ensures AllAt(rows, col, v => Admits(TypeOf(rows, col), v))
       <==> !(IntegerColumn(rows, col) && exists i :: 0 <= i < |rows| && At(rows[i], col).Int? && !InI64(At(rows[i], col).n))
  {
    if IntegerColumn(rows, col) {
      assert forall i :: 0 <= i < |rows| ==> IsInteger(At(rows[i], col));
      forall i | 0 <= i < |rows| && At(rows[i], col).Int? && !InI64(At(rows[i], col).n)
        ensures !Admits(TypeOf(rows, col), At(rows[i], col))
      {
      }
    }
  }

  /** A JSON number above the `i64` range is typed bigint all the same. */
  lemma LargeJsonNumberIsTypedBigint()
    ensures TypeOf([[Int(I64_MAX + 1)]], 0) == Bigint && !Admits(Bigint, Int(I64_MAX + 1))
  {
    var rows := [[Int(I64_MAX + 1)]];
    assert At(rows[0], 0) == Int(I64_MAX + 1);
    assert !IsBoolean(At(rows[0], 0));
  }

  /** A CSV upload never hits that exception: its integers are all in range. */
  lemma CsvColumnsAreAdmitted(records: seq<Record>, printed: string -> Option<string>, columns: seq<string>, rows: seq<seq<Value>>, col: nat)
    requires CsvAnswer(records, printed, Table(columns, rows))
    ensures AllAt(rows, col, v => Admits(TypeOf(rows, col), v))
  {
    forall i | 0 <= i < |rows| && At(rows[i], col).Int?
      ensures InI64(At(rows[i], col).n)
    {
      assert rows[i] == RowValues(records[i + 1], printed);
    }
    InferredTypeAdmitsExactly(rows, col);
  }
}

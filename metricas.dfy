/** The metrics page's report export: date labels, CSV field escaping in the
    style of RFC 4180 section 2 (quote a field holding a line break, a quote
    or a comma; double every quote), `toCsv`, and the rows of the daily,
    monthly and bonus reports. A reader for the produced text (records
    separated by a line feed) shows that the export loses nothing. */
module Metricas {
  import opened Wrappers
  import opened Seqs
  import opened Strings
  import opened Records

  // ----- Date labels -----

  /** `formatDate`: `YYYY-MM-DD` for a date whose month index is 0-based. */
  function FormatDate(year: nat, monthIndex: nat, day: nat): (r: string)
    requires monthIndex < 12 && 1 <= day <= 31
    ensures |r| == |NatToString(year)| + 6
    ensures r[|r| - 6] == '-' && r[|r| - 3] == '-'
    ensures AllDigits(r[..|r| - 6]) && DigitsValue(r[..|r| - 6]) == year
    ensures AllDigits(r[|r| - 5..|r| - 3]) && DigitsValue(r[|r| - 5..|r| - 3]) == monthIndex + 1
    ensures AllDigits(r[|r| - 2..]) && DigitsValue(r[|r| - 2..]) == day
  {
    NatToStringRoundTrip(year);
    Pad2RoundTrip(monthIndex + 1);
    Pad2RoundTrip(day);
    var y, m, d := NatToString(year), Pad2(monthIndex + 1), Pad2(day);
    DashedParts(y, m, d);
    y + "-" + m + "-" + d
  }

  /** Where the parts of a dashed date stand when month and day have two
      characters each. */
  lemma DashedParts(y: string, m: string, d: string)
    requires |m| == 2 && |d| == 2
    ensures var r := y + "-" + m + "-" + d;
      |r| == |y| + 6 && r[|r| - 6] == '-' && r[|r| - 3] == '-' &&
      r[..|r| - 6] == y && r[|r| - 5..|r| - 3] == m && r[|r| - 2..] == d
  {
    var r := y + "-" + m + "-" + d;
    assert r[..|r| - 6] == y;
    assert r[|r| - 5..|r| - 3] == m;
    assert r[|r| - 2..] == d;
  }

  /** `formatYearMonth`: `YYYY-MM`. */
  function FormatYearMonth(year: nat, monthIndex: nat): (r: string)
    requires monthIndex < 12
    ensures |r| == |NatToString(year)| + 3
    ensures r[|r| - 3] == '-'
    ensures AllDigits(r[..|r| - 3]) && DigitsValue(r[..|r| - 3]) == year
    ensures AllDigits(r[|r| - 2..]) && DigitsValue(r[|r| - 2..]) == monthIndex + 1
  {
    NatToStringRoundTrip(year);
    Pad2RoundTrip(monthIndex + 1);
    var y, m := NatToString(year), Pad2(monthIndex + 1);
    var r := y + "-" + m;
    assert r[..|r| - 3] == y && r[|r| - 2..] == m;
    r
  }

  // ----- Cell values -----

  /** A cell value of a report row. `Quarters(q)` is the number `q / 4`,
      which is what `Number((units * 0.25).toFixed(2))` yields for a whole
      number of units. */
  datatype Value = Null | Undefined | Text(s: string) | Int(i: int) | Quarters(q: int)

  /** `String(q / 4)`: the shortest decimal, so no trailing zeros. */
  function RenderQuarters(q: int): (r: string)
    ensures q % 4 == 0 ==> r == IntToString(q / 4)
    ensures q % 4 != 0 ==> |r| >= 3 && r[|r| - 1] == '5'
  {
    var a := if q < 0 then -q else q;
    var whole := (if q < 0 then "-" else "") + NatToString(a / 4);
    var frac := if a % 4 == 0 then "" else if a % 4 == 1 then ".25" else if a % 4 == 2 then ".5" else ".75";
    whole + frac
  }

  /** The text of a cell before escaping: empty for `null` and `undefined`. */
  function FieldText(v: Value): string {
    match v
    case Null => ""
    case Undefined => ""
    case Text(s) => s
    case Int(i) => IntToString(i)
    case Quarters(q) => RenderQuarters(q)
  }

  // ----- Escaping -----

  predicate IsSpecial(c: char) {
    c == '\n' || c == '\r' || c == '"' || c == ','
  }

  /** Text that can stand in a field without quotes. */
  predicate Plain(t: string) {
    forall i :: 0 <= i < |t| ==> !IsSpecial(t[i])
  }

  /** `replaceAll('"', '""')`. */
  function DoubleQuotes(t: string): string {
    if t == [] then []
    else (if t[0] == '"' then "\"\"" else [t[0]]) + DoubleQuotes(t[1..])
  }

  /** The escaping of one field's text: unchanged when it holds nothing
      special, otherwise quoted with its quotes doubled. */
  function Escape(t: string): (r: string)
    ensures Plain(t) ==> r == t
    ensures (r != [] && r[0] == '"') <==> !Plain(t)
    ensures !Plain(t) ==> |r| >= 2 && r[|r| - 1] == '"'
  {
    if Plain(t) then t else "\"" + DoubleQuotes(t) + "\""
  }

  /** `csvEscape(value)`. */
  function CsvEscape(v: Value): string {
    Escape(FieldText(v))
  }

  // ----- Reading the text back -----

  /** The rest of a quoted field, after its opening quote: characters up to
      a quote that is not doubled, with each `""` read as one `"`. */
  function ParseQuoted(s: string, acc: string): (r: Option<(string, string)>)
    ensures r.Some? ==> |r.value.1| < |s|
    decreases |s|
  {
    if s == [] then None
    else if s[0] == '"' then
      if |s| >= 2 && s[1] == '"' then ParseQuoted(s[2..], acc + ['"'])
      else Some((acc, s[1..]))
    else ParseQuoted(s[1..], acc + [s[0]])
  }

  /** An unquoted field: characters up to a comma or a line feed. */
  function ParseUnquoted(s: string): (r: (string, string))
    ensures |r.1| <= |s|
  {
    if s == [] || s[0] == ',' || s[0] == '\n' then ([], s)
    else
      var (f, rest) := ParseUnquoted(s[1..]);
      ([s[0]] + f, rest)
  }

  function ParseField(s: string): (r: Option<(string, string)>)
    ensures r.Some? ==> |r.value.1| <= |s|
  {
    if s != [] && s[0] == '"' then ParseQuoted(s[1..], "") else Some(ParseUnquoted(s))
  }

  /** The fields of one record, up to a line feed or the end. */
  function ParseRecord(s: string): (r: Option<(seq<string>, string)>)
    ensures r.Some? ==> |r.value.1| <= |s|
    decreases |s|
  {
    match ParseField(s)
    case None => None
    case Some((f, rest)) =>
      if rest != [] && rest[0] == ',' then
        match ParseRecord(rest[1..])
        case None => None
        case Some((fs, rest2)) => Some(([f] + fs, rest2))
      else Some(([f], rest))
  }

  /** All records of a text, separated by line feeds. */
  function ParseRecords(s: string): Option<seq<seq<string>>>
    decreases |s|
  {
    match ParseRecord(s)
    case None => None
    case Some((fields, rest)) =>
      if rest == [] then Some([fields])
      else if rest[0] == '\n' then
        match ParseRecords(rest[1..])
        case None => None
        case Some(more) => Some([fields] + more)
      else None
  }

  lemma {:induction false} UnquotedRoundTrip(t: string, rest: string)
    requires Plain(t)
    requires rest == [] || rest[0] == ',' || rest[0] == '\n'
    ensures ParseUnquoted(t + rest) == (t, rest)
  {
    if t == [] {
      assert t + rest == rest;
    } else {
      assert (t + rest)[1..] == t[1..] + rest;
      UnquotedRoundTrip(t[1..], rest);
      assert t == [t[0]] + t[1..];
    }
  }

  lemma {:induction false} QuotedRoundTrip(t: string, rest: string, acc: string)
    requires rest == [] || rest[0] != '"'
    ensures ParseQuoted(DoubleQuotes(t) + "\"" + rest, acc) == Some((acc + t, rest))
  {
    var s := DoubleQuotes(t) + "\"" + rest;
    if t == [] {
      assert s == "\"" + rest;
      assert s[1..] == rest;
      assert acc + t == acc;
    } else if t[0] == '"' {
      assert s == "\"\"" + (DoubleQuotes(t[1..]) + "\"" + rest);
      assert s[2..] == DoubleQuotes(t[1..]) + "\"" + rest;
      QuotedRoundTrip(t[1..], rest, acc + ['"']);
      assert acc + ['"'] + t[1..] == acc + t;
    } else {
      assert s == [t[0]] + (DoubleQuotes(t[1..]) + "\"" + rest);
      assert s[1..] == DoubleQuotes(t[1..]) + "\"" + rest;
      QuotedRoundTrip(t[1..], rest, acc + [t[0]]);
      assert acc + [t[0]] + t[1..] == acc + t;
    }
  }

  /** Reading an escaped field back gives the original text, whatever it
      holds: stripping the quotes and un-doubling undoes the escaping. */
  lemma FieldRoundTrip(t: string, rest: string)
    requires rest == [] || rest[0] == ',' || rest[0] == '\n'
    ensures ParseField(Escape(t) + rest) == Some((t, rest))
  {
    if Plain(t) {
      assert Escape(t) == t;
      assert t + rest == [] || (t + rest)[0] != '"' by {
        if t != [] {
          assert (t + rest)[0] == t[0] && !IsSpecial(t[0]);
        } else {
          assert t + rest == rest;
        }
      }
      UnquotedRoundTrip(t, rest);
    } else {
      var q := DoubleQuotes(t) + "\"" + rest;
      assert Escape(t) + rest == "\"" + q;
      assert ParseField("\"" + q) == ParseQuoted(q, "") by {
        assert ("\"" + q)[0] == '"' && ("\"" + q)[1..] == q;
      }
      QuotedRoundTrip(t, rest, "");
      assert "" + t == t;
    }
  }

  /** `fields.map(csvEscape).join(",")`, over texts. */
  function EscapeRecord(fields: seq<string>): string {
    Join(seq(|fields|, j requires 0 <= j < |fields| => Escape(fields[j])), ",")
  }

  /** A field followed by the end of the record is a record of one field. */
  lemma ParseLastField(text: string, f: string, rest: string)
    requires ParseField(text) == Some((f, rest))
    requires rest == [] || rest[0] == '\n'
    ensures ParseRecord(text) == Some(([f], rest))
  {
  }

  /** A field followed by a comma and a record is a longer record. */
  lemma ParseFieldThenRecord(text: string, f: string, more: string, fs: seq<string>, rest: string)
    requires ParseField(text) == Some((f, "," + more))
    requires ParseRecord(more) == Some((fs, rest))
    ensures ParseRecord(text) == Some(([f] + fs, rest))
  {
    assert ("," + more)[0] == ',' && ("," + more)[1..] == more;
  }

  /** An escaped field, a comma and a record read back as a record one
      field longer. */
  lemma ConsRoundTrip(fields: seq<string>, tailText: string, rest: string)
    requires |fields| >= 1
    requires ParseRecord(tailText) == Some((fields[1..], rest))
    ensures ParseRecord(Escape(fields[0]) + ("," + tailText)) == Some((fields, rest))
  {
    FieldRoundTrip(fields[0], "," + tailText);
    ParseFieldThenRecord(Escape(fields[0]) + ("," + tailText), fields[0], tailText, fields[1..], rest);
    assert [fields[0]] + fields[1..] == fields;
  }

  /** Escaped texts joined by commas read back as the texts they escape. */
  lemma {:induction false} JoinedRoundTrip(es: seq<string>, fields: seq<string>, rest: string)
    requires |fields| >= 1 && |es| == |fields|
    requires forall j :: 0 <= j < |es| ==> es[j] == Escape(fields[j])
    requires rest == [] || rest[0] == '\n'
    ensures ParseRecord(Join(es, ",") + rest) == Some((fields, rest))
    decreases |es|
  {
    if |es| == 1 {
      FieldRoundTrip(fields[0], rest);
      ParseLastField(Escape(fields[0]) + rest, fields[0], rest);
      assert [fields[0]] == fields;
    } else {
      JoinedRoundTrip(es[1..], fields[1..], rest);
      JoinCons(es, ",", rest);
      ConsRoundTrip(fields, Join(es[1..], ",") + rest, rest);
    }
  }

  /** Reading an escaped record back gives its fields, whatever they hold. */
  lemma RecordRoundTrip(fields: seq<string>, rest: string)
    requires |fields| >= 1
    requires rest == [] || rest[0] == '\n'
    ensures ParseRecord(EscapeRecord(fields) + rest) == Some((fields, rest))
  {
    JoinedRoundTrip(seq(|fields|, j requires 0 <= j < |fields| => Escape(fields[j])), fields, rest);
  }

  /** The records joined by line feeds. */
  function EscapeDocument(records: seq<seq<string>>): string {
    Join(seq(|records|, i requires 0 <= i < |records| => EscapeRecord(records[i])), "\n")
  }

  /** A record and a line feed before records that read back read back as
      one record more. */
  lemma RecordsConsRoundTrip(records: seq<seq<string>>, more: string)
    requires |records| >= 1 && |records[0]| >= 1
    requires ParseRecords(more) == Some(records[1..])
    ensures ParseRecords(EscapeRecord(records[0]) + ("\n" + more)) == Some(records)
  {
    RecordRoundTrip(records[0], "\n" + more);
    assert ("\n" + more)[1..] == more;
    assert [records[0]] + records[1..] == records;
  }

  /** Escaped records joined by line feeds read back as the records. */
  lemma {:induction false} LinesRoundTrip(lines: seq<string>, records: seq<seq<string>>)
    requires |records| >= 1 && |lines| == |records|
    requires forall i :: 0 <= i < |records| ==> |records[i]| >= 1 && lines[i] == EscapeRecord(records[i])
    ensures ParseRecords(Join(lines, "\n")) == Some(records)
    decreases |lines|
  {
    if |lines| == 1 {
      RecordRoundTrip(records[0], "");
      assert lines[0] + "" == lines[0];
      assert [records[0]] == records;
    } else {
      LinesRoundTrip(lines[1..], records[1..]);
      JoinCons(lines, "\n", "");
      assert Join(lines[1..], "\n") + "" == Join(lines[1..], "\n");
      assert Join(lines, "\n") + "" == Join(lines, "\n");
      RecordsConsRoundTrip(records, Join(lines[1..], "\n"));
    }
  }

  /** A document of at least one record, each with at least one field, reads
      back as exactly those records. */
  lemma DocumentRoundTrip(records: seq<seq<string>>)
    requires |records| >= 1
    requires forall i :: 0 <= i < |records| ==> |records[i]| >= 1
    ensures ParseRecords(EscapeDocument(records)) == Some(records)
  {
    LinesRoundTrip(seq(|records|, i requires 0 <= i < |records| => EscapeRecord(records[i])), records);
  }

  // ----- Rows and toCsv -----

  /** A report row, a plain object: its keys in insertion order and the
      value under each. */
  datatype Row = Row(keys: seq<string>, values: map<string, Value>)

  /** `Object.keys(row)`. */
  function Keys(row: Row): seq<string> {
    row.keys
  }

  /** `row[key]`: the value under the key, `undefined` when there is none. */
  function Get(row: Row, key: string): (v: Value)
    ensures key !in row.values ==> v == Undefined
    ensures key in row.values ==> v == row.values[key]
  {
    if key in row.values then row.values[key] else Undefined
  }

  /** The texts a row contributes under the given headers, in header order;
      a key the row lacks gives an empty field. */
  function Cells(row: Row, headers: seq<string>): (r: seq<string>)
    ensures |r| == |headers|
    ensures forall j :: 0 <= j < |headers| && headers[j] !in row.values ==> r[j] == ""
  {
    seq(|headers|, j requires 0 <= j < |headers| => FieldText(Get(row, headers[j])))
  }

  /** `toCsv(rows)`: a header line from the first row's keys, then one line
      per row. */
  function ToCsv(rows: seq<Row>): (r: string)
    ensures rows == [] ==> r == ""
  {
    if rows == [] then ""
    else
      var headers := Keys(rows[0]);
      var headerLine := Join(seq(|headers|, j requires 0 <= j < |headers| => CsvEscape(Text(headers[j]))), ",");
      var bodyLines := seq(|rows|, i requires 0 <= i < |rows| =>
        Join(seq(|headers|, j requires 0 <= j < |headers| => CsvEscape(Get(rows[i], headers[j]))), ","));
      Join([headerLine] + bodyLines, "\n")
  }

  /** The header line is the escaped record of the keys. */
  lemma HeaderLineIsRecord(headers: seq<string>)
    ensures Join(seq(|headers|, j requires 0 <= j < |headers| => CsvEscape(Text(headers[j]))), ",")
      == EscapeRecord(headers)
  {
    assert seq(|headers|, j requires 0 <= j < |headers| => CsvEscape(Text(headers[j])))
        == seq(|headers|, j requires 0 <= j < |headers| => Escape(headers[j]));
  }

  /** A row's line is the escaped record of its cells. */
  lemma BodyLineIsRecord(row: Row, headers: seq<string>)
    ensures Join(seq(|headers|, j requires 0 <= j < |headers| => CsvEscape(Get(row, headers[j]))), ",")
      == EscapeRecord(Cells(row, headers))
  {
    var cells := Cells(row, headers);
    assert seq(|headers|, j requires 0 <= j < |headers| => CsvEscape(Get(row, headers[j])))
        == seq(|cells|, j requires 0 <= j < |cells| => Escape(cells[j]));
  }

  /** The rows' lines are the escaped records of their cells. */
  lemma BodyLinesAreRecords(rows: seq<Row>, headers: seq<string>)
    ensures seq(|rows|, i requires 0 <= i < |rows| =>
        Join(seq(|headers|, j requires 0 <= j < |headers| => CsvEscape(Get(rows[i], headers[j]))), ","))
      == seq(|rows|, i requires 0 <= i < |rows| => EscapeRecord(Cells(rows[i], headers)))
  {
    forall i | 0 <= i < |rows|
      ensures Join(seq(|headers|, j requires 0 <= j < |headers| => CsvEscape(Get(rows[i], headers[j]))), ",")
        == EscapeRecord(Cells(rows[i], headers))
    {
      BodyLineIsRecord(rows[i], headers);
    }
  }

  /** A document is its first record's line and the lines of the others. */
  lemma DocumentLines(first: seq<string>, others: seq<seq<string>>)
    ensures EscapeDocument([first] + others)
      == Join([EscapeRecord(first)] + seq(|others|, i requires 0 <= i < |others| => EscapeRecord(others[i])), "\n")
  {
    var records := [first] + others;
    var lines := seq(|records|, i requires 0 <= i < |records| => EscapeRecord(records[i]));
    var split := [EscapeRecord(first)] + seq(|others|, i requires 0 <= i < |others| => EscapeRecord(others[i]));
    forall i | 0 <= i < |lines| ensures lines[i] == split[i] {
      if i > 0 {
        assert records[i] == others[i - 1];
      }
    }
    assert lines == split;
  }

  /** The export is the escaped document of the header record followed by
      one record of cells per row. */
  lemma ToCsvIsDocument(rows: seq<Row>)
    requires rows != []
    ensures ToCsv(rows) ==
      EscapeDocument([Keys(rows[0])] + seq(|rows|, i requires 0 <= i < |rows| => Cells(rows[i], Keys(rows[0]))))
  {
    var headers := Keys(rows[0]);
    var cells := seq(|rows|, i requires 0 <= i < |rows| => Cells(rows[i], headers));
    HeaderLineIsRecord(headers);
    BodyLinesAreRecords(rows, headers);
    DocumentLines(headers, cells);
    assert seq(|cells|, i requires 0 <= i < |cells| => EscapeRecord(cells[i]))
      == seq(|rows|, i requires 0 <= i < |rows| => EscapeRecord(Cells(rows[i], headers)));
  }

  /** Reading the export back yields `rows.length + 1` records: the first
      row's keys, then for each row exactly one field per header, in header
      order. */
  lemma ToCsvRoundTrip(rows: seq<Row>)
    requires rows != [] && |Keys(rows[0])| >= 1
    ensures ParseRecords(ToCsv(rows)) ==
      Some([Keys(rows[0])] + seq(|rows|, i requires 0 <= i < |rows| => Cells(rows[i], Keys(rows[0]))))
  {
    var records := [Keys(rows[0])] + seq(|rows|, i requires 0 <= i < |rows| => Cells(rows[i], Keys(rows[0])));
    ToCsvIsDocument(rows);
    DocumentRoundTrip(records);
  }

  // ----- The three reports -----

  /** The number in a cell, 0 for anything else. */
  function IntOf(v: Value): int {
    if v.Int? then v.i else 0
  }

  datatype HourlyProduction = HourlyProduction(hour: string, production: int)

  function DailyRow(dateLabel: string, hour: string, units: int): Row {
    Row(["fecha", "hora", "unidades"],
        map["fecha" := Text(dateLabel), "hora" := Text(hour), "unidades" := Int(units)])
  }

  function Productions(items: seq<HourlyProduction>): (r: seq<int>)
    ensures |r| == |items|
    ensures forall i :: 0 <= i < |items| ==> r[i] == items[i].production
  {
    seq(|items|, i requires 0 <= i < |items| => items[i].production)
  }

  /** The `unidades` column of some rows. */
  function UnitsColumn(rows: seq<Row>): (r: seq<int>)
    ensures |r| == |rows|
    ensures forall i :: 0 <= i < |rows| ==> r[i] == IntOf(Get(rows[i], "unidades"))
  {
    seq(|rows|, i requires 0 <= i < |rows| => IntOf(Get(rows[i], "unidades")))
  }

  /** The daily report's rows: one per hour, then the TOTAL row, whose
      `unidades` is the sum of the `unidades` above it. */
  method DailyReportRows(items: seq<HourlyProduction>, dateLabel: string) returns (rows: seq<Row>)
    ensures |rows| == |items| + 1
    ensures forall i :: 0 <= i < |items| ==> rows[i] == DailyRow(dateLabel, items[i].hour, items[i].production)
    ensures Keys(rows[|items|]) == ["fecha", "hora", "unidades"]
    ensures Get(rows[|items|], "fecha") == Text(dateLabel)
    ensures Get(rows[|items|], "hora") == Text("TOTAL")
    ensures Get(rows[|items|], "unidades") == Int(Sum(UnitsColumn(rows[..|items|])))
  {
    var totalUnits := Sum(Productions(items));
    rows := seq(|items|, i requires 0 <= i < |items| => DailyRow(dateLabel, items[i].hour, items[i].production));
    assert UnitsColumn(rows) == Productions(items);
    rows := rows + [DailyRow(dateLabel, "TOTAL", totalUnits)];
  }

  datatype MonthlyTrend = MonthlyTrend(month: string, actual: int, target: int)

  /** The monthly report's rows: each month's deviation is actual minus
      target. */
  function MonthlyReportRows(items: seq<MonthlyTrend>): (rows: seq<Row>)
    ensures |rows| == |items|
    ensures forall i :: 0 <= i < |items| ==> Keys(rows[i]) == ["periodo", "produccion_real", "meta", "desviacion"]
    ensures forall i :: 0 <= i < |items| ==>
      && Get(rows[i], "periodo") == Text(items[i].month)
      && Get(rows[i], "produccion_real") == Int(items[i].actual)
      && Get(rows[i], "meta") == Int(items[i].target)
      && IntOf(Get(rows[i], "desviacion")) == IntOf(Get(rows[i], "produccion_real")) - IntOf(Get(rows[i], "meta"))
  {
    seq(|items|, i requires 0 <= i < |items| =>
      Row(["periodo", "produccion_real", "meta", "desviacion"],
          map["periodo" := Text(items[i].month), "produccion_real" := Int(items[i].actual),
              "meta" := Int(items[i].target), "desviacion" := Int(items[i].actual - items[i].target)]))
  }

  /** The bonus report's rows: a quarter per unit made. */
  function BonusReportRows(yearMonth: string, ops: seq<Operator>): (rows: seq<Row>)
    ensures |rows| == |ops|
    ensures forall i :: 0 <= i < |ops| ==>
      Keys(rows[i]) == ["periodo", "colaborador", "maquina", "sku", "unidades", "bono_estimado"]
    ensures forall i :: 0 <= i < |ops| ==>
      && Get(rows[i], "periodo") == Text(yearMonth)
      && Get(rows[i], "colaborador") == Text(ops[i].name)
      && Get(rows[i], "maquina") == Text(ops[i].machine)
      && Get(rows[i], "sku") == Text(ops[i].sku)
      && Get(rows[i], "unidades") == Int(ops[i].units)
      && Get(rows[i], "bono_estimado") == Quarters(IntOf(Get(rows[i], "unidades")))
  {
    seq(|ops|, i requires 0 <= i < |ops| =>
      Row(["periodo", "colaborador", "maquina", "sku", "unidades", "bono_estimado"],
          map["periodo" := Text(yearMonth), "colaborador" := Text(ops[i].name), "maquina" := Text(ops[i].machine),
              "sku" := Text(ops[i].sku), "unidades" := Int(ops[i].units), "bono_estimado" := Quarters(ops[i].units)]))
  }
}

/** The CSV codec of the import/export handler: `parseCSVLine`, a
    character-state machine over one line; `parseCSV`, which splits the text
    into lines, reads the header line and keeps the data lines with as many
    fields as there are headers; and `arrayToCSV`, which writes rows of
    values under a list of headers. */
module Csv {
  import opened Common
  import opened Strings

  /** A parsed data line: field values by header, as the object `parseCSV` builds. */
  type Row = map<string, string>

  // ---------------------------------------------------------------- parseCSVLine

  /** The untrimmed fields `parseCSVLine` produces from the part `rest` of
      the line still to be read, given its state: whether the previous
      character was a comma or there was none (`atStart`), the field read so
      far, whether a quote is open, and the fields finished so far.
      A quote opens only at the start of a field; it closes only right
      before a comma or at the end of the line; a comma outside quotes ends
      a field; every other character, including a quote that neither opens
      nor closes, goes into the field. */
  function Scan(rest: string, atStart: bool, current: string, inQuotes: bool, fields: seq<string>): seq<string>
    decreases |rest|
  {
    if |rest| == 0 then fields + [current]
    else
      var c := rest[0];
      var beforeBoundary := |rest| == 1 || rest[1] == ',';
      if c == '"' && atStart then Scan(rest[1..], false, current, true, fields)
      else if c == '"' && inQuotes && beforeBoundary then Scan(rest[1..], false, current, false, fields)
      else if c == ',' && !inQuotes then Scan(rest[1..], true, "", false, fields + [current])
      else Scan(rest[1..], c == ',', current + [c], inQuotes, fields)
  }

  /** Each string trimmed. */
  function TrimAll(s: seq<string>): (r: seq<string>)
    ensures |r| == |s| && forall i :: 0 <= i < |s| ==> r[i] == Trim(s[i])
  {
    seq(|s|, i requires 0 <= i < |s| => Trim(s[i]))
  }

  /** The scan keeps the fields already finished and adds at least one. */
  lemma {:induction false} ScanExtends(rest: string, atStart: bool, current: string, inQuotes: bool, fields: seq<string>)
    ensures |Scan(rest, atStart, current, inQuotes, fields)| > |fields|
    ensures Scan(rest, atStart, current, inQuotes, fields)[..|fields|] == fields
    decreases |rest|
  {
    if |rest| > 0 {
      var c := rest[0];
      var beforeBoundary := |rest| == 1 || rest[1] == ',';
      if c == '"' && atStart {
        ScanExtends(rest[1..], false, current, true, fields);
      } else if c == '"' && inQuotes && beforeBoundary {
        ScanExtends(rest[1..], false, current, false, fields);
      } else if c == ',' && !inQuotes {
        ScanExtends(rest[1..], true, "", false, fields + [current]);
        var r := Scan(rest, atStart, current, inQuotes, fields);
        assert r[..|fields|] == r[..|fields| + 1][..|fields|];
      } else {
        ScanExtends(rest[1..], c == ',', current + [c], inQuotes, fields);
      }
    }
  }

  /** The fields of one CSV line, each trimmed; there is always at least one. */
  function LineFields(line: string): (r: seq<string>)
    ensures |r| >= 1
    ensures forall i :: 0 <= i < |r| ==> IsTrimmed(r[i])
  {
    ScanExtends(line, true, "", false, []);
    TrimAll(Scan(line, true, "", false, []))
  }

  /** `parseCSVLine(line)`: the character loop over `line`, trimming each
      field as it is finished. */
  method ParseCsvLine(line: string) returns (result: seq<string>)
    ensures result == LineFields(line)
  {
    result := [];
    ghost var raw: seq<string> := [];
    var current := "";
    var inQuotes := false;
    var i := 0;
    while i < |line|
      invariant 0 <= i <= |line|
      invariant result == TrimAll(raw)
      invariant TrimAll(Scan(line[i..], i == 0 || line[i - 1] == ',', current, inQuotes, raw)) == LineFields(line)
    {
      var c := line[i];
      assert line[i..][0] == c && line[i..][1..] == line[i + 1..];
      assert i + 1 < |line| ==> line[i..][1] == line[i + 1];
      if c == '"' && (i == 0 || line[i - 1] == ',') {
        inQuotes := true;
      } else if c == '"' && inQuotes && (i == |line| - 1 || line[i + 1] == ',') {
        inQuotes := false;
      } else if c == ',' && !inQuotes {
        result := result + [Trim(current)];
        raw := raw + [current];
        assert result == TrimAll(raw);
        current := "";
      } else {
        current := current + [c];
      }
      i := i + 1;
    }
    result := result + [Trim(current)];
    assert result == TrimAll(raw + [current]);
  }

  /** Whether the character after `s` starts a field, given whether the
      character before `s` did. */
  function StartAfter(s: string, atStart: bool): bool
  {
    if |s| == 0 then atStart else s[|s| - 1] == ','
  }

  /** Characters that are not quotes (and, outside quotes, not commas) are
      copied into the current field. */
  lemma {:induction false} ScanPlain(s: string, t: string, atStart: bool, current: string, inQuotes: bool, fields: seq<string>)
    requires '"' !in s
    requires inQuotes || ',' !in s
    ensures Scan(s + t, atStart, current, inQuotes, fields) == Scan(t, StartAfter(s, atStart), current + s, inQuotes, fields)
    decreases |s|
  {
    if |s| == 0 {
      assert s + t == t && current + s == current;
    } else {
      var c := s[0];
      assert (s + t)[0] == c && (s + t)[1..] == s[1..] + t;
      assert Scan(s + t, atStart, current, inQuotes, fields) == Scan(s[1..] + t, c == ',', current + [c], inQuotes, fields);
      ScanPlain(s[1..], t, c == ',', current + [c], inQuotes, fields);
      assert current + [c] + s[1..] == current + s;
      assert StartAfter(s[1..], c == ',') == StartAfter(s, atStart);
    }
  }

  /** A comma outside quotes finishes the current field. */
  lemma ScanComma(t: string, atStart: bool, current: string, fields: seq<string>)
    ensures Scan([','] + t, atStart, current, false, fields) == Scan(t, true, "", false, fields + [current])
  {
    assert ([','] + t)[1..] == t;
  }

  /** A field opened by a quote at its start and closed by a quote before a
      comma or the end of the line keeps its commas. */
  lemma ScanQuoted(s: string, t: string, current: string, inQuotes: bool, fields: seq<string>)
    requires '"' !in s
    requires s == [] || s[|s| - 1] != ','
    requires t == [] || t[0] == ','
    ensures Scan(['"'] + s + ['"'] + t, true, current, inQuotes, fields) == Scan(t, false, current + s, false, fields)
  {
    assert (['"'] + s + ['"'] + t)[1..] == s + (['"'] + t);
    ScanPlain(s, ['"'] + t, false, current, true, fields);
    assert (['"'] + t)[1..] == t;
  }

  /** A quote inside an open field that is not before a comma is kept. */
  lemma ScanInnerQuote(u: string, current: string, fields: seq<string>)
    requires |u| > 0 && u[0] != ','
    ensures Scan(['"'] + u, false, current, true, fields) == Scan(u, false, current + ['"'], true, fields)
  {
    assert (['"'] + u)[1..] == u && (['"'] + u)[1] == u[0];
  }

  /** A field value the codec reads back: no quote, no newline, and no
      comma at its end (a comma there would make the closing quote look like
      an opening one). It may hold commas. */
  predicate Quotable(s: string)
  {
    '"' !in s && '\n' !in s && (s == [] || s[|s| - 1] != ',')
  }

  /** A quotable value as a field of a line: in quotes when it holds a comma. */
  function Cell(s: string): (r: string)
    ensures ',' !in s ==> r == s
    ensures ',' in s ==> r == ['"'] + s + ['"']
  {
    if ',' in s then ['"'] + s + ['"'] else s
  }

  function Cells(parts: seq<string>): (r: seq<string>)
    ensures |r| == |parts| && forall i :: 0 <= i < |parts| ==> r[i] == Cell(parts[i])
  {
    seq(|parts|, i requires 0 <= i < |parts| => Cell(parts[i]))
  }

  /** A cell followed by a comma reads as its value. */
  lemma ScanCellThenComma(s: string, rest: string, fields: seq<string>)
    requires Quotable(s)
    ensures Scan(Cell(s) + ([','] + rest), true, "", false, fields) == Scan(rest, true, "", false, fields + [s])
  {
    assert "" + s == s;
    if ',' in s {
      ScanQuoted(s, [','] + rest, "", false, fields);
      ScanComma(rest, false, s, fields);
    } else {
      ScanPlain(s, [','] + rest, true, "", false, fields);
      ScanComma(rest, StartAfter(s, true), s, fields);
    }
  }

  /** A cell at the end of the line reads as its value. */
  lemma ScanLastCell(s: string, fields: seq<string>)
    requires Quotable(s)
    ensures Scan(Cell(s), true, "", false, fields) == fields + [s]
  {
    assert "" + s == s && Cell(s) + [] == Cell(s);
    if ',' in s {
      ScanQuoted(s, [], "", false, fields);
    } else {
      ScanPlain(s, [], true, "", false, fields);
    }
  }

  /** A line of cells reads as their values. */
  lemma {:induction false} ScanJoinCells(parts: seq<string>, fields: seq<string>)
    requires |parts| >= 1
    requires forall i :: 0 <= i < |parts| ==> Quotable(parts[i])
    ensures Scan(Join(Cells(parts), ","), true, "", false, fields) == fields + parts
  {
    var cells := Cells(parts);
    if |parts| == 1 {
      ScanLastCell(parts[0], fields);
      assert [parts[0]] == parts;
    } else {
      var rest := Join(cells[1..], ",");
      assert Join(cells, ",") == Cell(parts[0]) + ([','] + rest);
      ScanCellThenComma(parts[0], rest, fields);
      assert cells[1..] == Cells(parts[1..]);
      ScanJoinCells(parts[1..], fields + [parts[0]]);
      assert fields + [parts[0]] + parts[1..] == fields + parts;
    }
  }

  /** The fields of a line are the trimmed fields of its scan. */
  lemma LineFieldsOfScan(line: string, parts: seq<string>)
    requires Scan(line, true, "", false, []) == parts
    ensures LineFields(line) == TrimAll(parts)
  {
  }

  /** A line of cells reads back as the values, trimmed; a value holding a
      comma survives inside its quotes. */
  lemma LineFieldsOfCells(parts: seq<string>)
    requires |parts| >= 1
    requires forall i :: 0 <= i < |parts| ==> Quotable(parts[i])
    ensures LineFields(Join(Cells(parts), ",")) == TrimAll(parts)
  {
    ScanJoinCells(parts, []);
    assert [] + parts == parts;
    LineFieldsOfScan(Join(Cells(parts), ","), parts);
  }

  /** The end of a quoted field: its last characters, then the closing quote at the end of the line. */
  lemma ScanQuotedTail(t: string, current: string, fields: seq<string>)
    requires '"' !in t && (t == [] || t[|t| - 1] != ',')
    ensures Scan(t + ['"'], false, current, true, fields) == fields + [current + t]
  {
    ScanPlain(t, ['"'], false, current, true, fields);
  }

  /** A quote at the start of a field opens it. */
  lemma ScanOpenQuote(rest: string, current: string, inQuotes: bool, fields: seq<string>)
    ensures Scan(['"'] + rest, true, current, inQuotes, fields) == Scan(rest, false, current, true, fields)
  {
    assert (['"'] + rest)[1..] == rest;
  }

  /** Inside an open field, `""` followed by the rest of the field and a
      closing quote at the end of the line keeps both quotes. */
  lemma ScanDoubledTail(t: string, current: string, fields: seq<string>)
    requires '"' !in t
    requires t == [] || (t[0] != ',' && t[|t| - 1] != ',')
    ensures Scan(['"', '"'] + t + ['"'], false, current, true, fields) == fields + [current + ['"', '"'] + t]
  {
    var tail := t + ['"'];
    var u := ['"'] + tail;
    assert ['"', '"'] + t + ['"'] == ['"'] + u;
    assert tail[0] != ',';
    ScanInnerQuote(u, current, fields);
    ScanInnerQuote(tail, current + ['"'], fields);
    ScanQuotedTail(t, current + ['"'] + ['"'], fields);
    assert current + ['"'] + ['"'] + t == current + ['"', '"'] + t;
  }

  /** The scan of `"s""t"`, the line being `line`. */
  lemma ScanDoubledQuote(s: string, t: string, line: string)
    requires '"' !in s && '"' !in t
    requires s == [] || s[|s| - 1] != ','
    requires t == [] || (t[0] != ',' && t[|t| - 1] != ',')
    requires line == ['"'] + (s + (['"', '"'] + t + ['"']))
    ensures Scan(line, true, "", false, []) == [s + ['"', '"'] + t]
  {
    var rest := ['"', '"'] + t + ['"'];
    ScanOpenQuote(s + rest, "", false, []);
    ScanPlain(s, rest, false, "", true, []);
    assert StartAfter(s, false) == false && "" + s == s;
    ScanDoubledTail(t, s, []);
    assert [] + [s + ['"', '"'] + t] == [s + ['"', '"'] + t];
  }

  /** A doubled quote inside a quoted field, as in `"s""t"`, is kept as two quotes. */
  lemma DoubledQuoteKept(s: string, t: string, line: string)
    requires '"' !in s && '"' !in t
    requires s == [] || s[|s| - 1] != ','
    requires t == [] || (t[0] != ',' && t[|t| - 1] != ',')
    requires line == ['"'] + (s + (['"', '"'] + t + ['"']))
    ensures LineFields(line) == [Trim(s + ['"', '"'] + t)]
  {
    ScanDoubledQuote(s, t, line);
    LineFieldsOfScan(line, [s + ['"', '"'] + t]);
  }

  // ---------------------------------------------------------------- parseCSV

  /** The lines of the text: trimmed, then split on `\n` only. */
  function Lines(text: string): (r: seq<string>)
    ensures |r| >= 1
  {
    Split(Trim(text), '\n')
  }

  /** The header names of the first line: split on commas, each trimmed
      and stripped of every quote character. */
  function HeaderNames(line: string): (r: seq<string>)
    ensures |r| >= 1
    ensures forall i :: 0 <= i < |r| ==> '"' !in r[i]
  {
    var parts := Split(line, ',');
    seq(|parts|, i requires 0 <= i < |parts| => ReplaceAll(Trim(parts[i]), '"', ""))
  }

  /** The object built from a data line: each header set to the field at
      its position, a later duplicate header overwriting an earlier one. Its
      keys are the headers. */
  function RowOf(headers: seq<string>, values: seq<string>): (r: Row)
    requires |headers| == |values|
    ensures forall h :: h in r <==> h in headers
  {
    if |headers| == 0 then map[]
    else
      var n := |headers| - 1;
      var prefix := RowOf(headers[..n], values[..n]);
      assert headers == headers[..n] + [headers[n]];
      prefix[headers[n] := values[n]]
  }

  /** Under a header that does not occur again later, a row holds the
      field at that header's position. */
  lemma {:induction false} RowOfValue(headers: seq<string>, values: seq<string>, i: nat)
    requires |headers| == |values|
    requires i < |headers|
    requires forall j :: i < j < |headers| ==> headers[j] != headers[i]
    ensures RowOf(headers, values)[headers[i]] == values[i]
  {
    var n := |headers| - 1;
    if i < n {
      RowOfValue(headers[..n], values[..n], i);
    }
  }

  /** The row a data line contributes: one when its field count matches the headers, none otherwise. */
  function RowFor(headers: seq<string>, line: string): seq<Row>
  {
    var values := LineFields(line);
    if |values| == |headers| then [RowOf(headers, values)] else []
  }

  /** The rows of the data lines, in line order. */
  function RowsOf(headers: seq<string>, lines: seq<string>): seq<Row>
  {
    if |lines| == 0 then []
    else RowsOf(headers, lines[..|lines| - 1]) + RowFor(headers, lines[|lines| - 1])
  }

  /** `parseCSV(text)`: no rows when the text has fewer than two lines;
      otherwise the rows of the data lines under the header names. */
  function ParsedCsv(text: string): seq<Row>
  {
    var lines := Lines(text);
    if |lines| < 2 then [] else RowsOf(HeaderNames(lines[0]), lines[1..])
  }

  /** `parseCSV(text)`: the loop over the data lines. */
  method ParseCsv(text: string) returns (data: seq<Row>)
    ensures data == ParsedCsv(text)
  {
    var lines := Split(Trim(text), '\n');
    if |lines| < 2 {
      return [];
    }
    var headers := HeaderNames(lines[0]);
    data := [];
    var i := 1;
    while i < |lines|
      invariant 1 <= i <= |lines|
      invariant data == RowsOf(headers, lines[1..i])
    {
      var values := ParseCsvLine(lines[i]);
      if |values| == |headers| {
        data := data + [RowOf(headers, values)];
      }
      RowsOfNextLine(headers, lines, i);
      i := i + 1;
    }
    assert lines[1..i] == lines[1..];
  }

  /** One more data line adds its row, if any, at the end. */
  lemma RowsOfNextLine(headers: seq<string>, lines: seq<string>, i: nat)
    requires 1 <= i < |lines|
    ensures RowsOf(headers, lines[1..i + 1]) == RowsOf(headers, lines[1..i]) + RowFor(headers, lines[i])
  {
    assert lines[1..i + 1][..i - 1] == lines[1..i];
    assert lines[1..i + 1][i - 1] == lines[i];
  }

  /** A text with no `\n` after trimming has no rows. */
  lemma SingleLineHasNoRows(text: string)
    requires '\n' !in Trim(text)
    ensures ParsedCsv(text) == []
  {
    SplitWithoutSeparator(Trim(text), '\n');
  }

  /** Each data line gives at most one row, and every row has exactly the
      header names as keys. */
  lemma {:induction false} RowsOfShape(headers: seq<string>, lines: seq<string>)
    ensures |RowsOf(headers, lines)| <= |lines|
    ensures forall k, h :: 0 <= k < |RowsOf(headers, lines)| ==> (h in RowsOf(headers, lines)[k] <==> h in headers)
  {
    if |lines| > 0 {
      RowsOfShape(headers, lines[..|lines| - 1]);
    }
  }

  /** There are at most as many rows as data lines, and every row has
      exactly the header names as keys. */
  lemma RowsHaveHeaderKeys(text: string)
    requires |Lines(text)| >= 2
    ensures |ParsedCsv(text)| <= |Lines(text)| - 1
    ensures forall k, h :: 0 <= k < |ParsedCsv(text)| ==> (h in ParsedCsv(text)[k] <==> h in HeaderNames(Lines(text)[0]))
  {
    RowsOfShape(HeaderNames(Lines(text)[0]), Lines(text)[1..]);
  }

  /** A data line fits when its field count equals the header count. */
  predicate Fits(headers: seq<string>, line: string)
  {
    |LineFields(line)| == |headers|
  }

  /** The rows read from lines that all fit, one per line, in order. */
  function RowsOfFitting(headers: seq<string>, kept: seq<string>): (r: seq<Row>)
    requires forall k :: 0 <= k < |kept| ==> Fits(headers, kept[k])
    ensures |r| == |kept|
  {
    if |kept| == 0 then []
    else
      var n := |kept| - 1;
      assert Fits(headers, kept[n]);
      RowsOfFitting(headers, kept[..n]) + [RowOf(headers, LineFields(kept[n]))]
  }

  /** The rows are those of the fitting lines, in input order: lines with
      another field count are dropped and the rest keep their order. */
  lemma {:induction false} RowsAreFittingLinesInOrder(headers: seq<string>, lines: seq<string>)
    ensures RowsOf(headers, lines) == RowsOfFitting(headers, Filter(lines, l => Fits(headers, l)))
  {
    var p := l => Fits(headers, l);
    if |lines| > 0 {
      var n := |lines| - 1;
      var x := lines[n];
      assert RowsOf(headers, lines) == RowsOf(headers, lines[..n]) + RowFor(headers, x);
      RowsAreFittingLinesInOrder(headers, lines[..n]);
      FilterSnoc(lines, p);
      var before := Filter(lines[..n], p);
      if Fits(headers, x) {
        assert Filter(lines, p) == before + [x];
        assert RowFor(headers, x) == [RowOf(headers, LineFields(x))];
        RowsOfFittingSnoc(headers, before, x);
      } else {
        assert Filter(lines, p) == before;
        assert RowFor(headers, x) == [];
      }
    }
  }

  lemma RowsOfFittingSnoc(headers: seq<string>, kept: seq<string>, x: string)
    requires forall k :: 0 <= k < |kept| ==> Fits(headers, kept[k])
    requires Fits(headers, x)
    ensures RowsOfFitting(headers, kept + [x]) == RowsOfFitting(headers, kept) + [RowOf(headers, LineFields(x))]
  {
  }

  // ---------------------------------------------------------------- arrayToCSV

  /** A value of a row handed to `arrayToCSV`: a string, a number, or
      nothing (`undefined`, `null`). */
  datatype Value = Text(text: string) | Number(number: real) | Absent

  /** JavaScript falsiness of a value: nothing, the empty string, zero. */
  predicate Falsy(v: Value)
  {
    v.Absent? || v == Text("") || v == Number(0.0)
  }

  /** `row[h]`: the value under `h`, or nothing. */
  function Lookup(row: map<string, Value>, h: string): Value
  {
    if h in row then row[h] else Absent
  }

  /** A string is written in quotes when it holds a comma, a quote or a newline. */
  predicate NeedsQuotes(s: string)
  {
    ',' in s || '"' in s || '\n' in s
  }

  /** How `arrayToCSV` writes one value: a falsy value as the empty field;
      a string that needs quotes wrapped in quotes with its quotes doubled;
      any other string as itself; a number as `showNumber` renders it. */
  function Field(v: Value, showNumber: real -> string): (r: string)
    ensures Falsy(v) ==> r == ""
    ensures v.Text? && !Falsy(v) && !NeedsQuotes(v.text) ==> r == v.text
    ensures v.Text? && NeedsQuotes(v.text) ==> |r| >= 2 && r[0] == '"' && r[|r| - 1] == '"'
  {
    if Falsy(v) then ""
    else match v
      case Text(s) => if NeedsQuotes(s) then "\"" + ReplaceAll(s, '"', "\"\"") + "\"" else s
      case Number(x) => showNumber(x)
  }

  /** The line `arrayToCSV` writes for one row. */
  function RowLine(row: map<string, Value>, headers: seq<string>, showNumber: real -> string): string
  {
    Join(seq(|headers|, j requires 0 <= j < |headers| => Field(Lookup(row, headers[j]), showNumber)), ",")
  }

  /** The lines of the output: the header line, then one line per row. */
  function CsvLines(data: seq<map<string, Value>>, headers: seq<string>, showNumber: real -> string): (r: seq<string>)
    ensures |r| == 1 + |data| && r[0] == Join(headers, ",")
  {
    [Join(headers, ",")] + seq(|data|, k requires 0 <= k < |data| => RowLine(data[k], headers, showNumber))
  }

  /** `arrayToCSV(data, headers)`: the empty string for no rows; otherwise
      the header line and the row lines joined by `\n`. */
  function ArrayToCsv(data: seq<map<string, Value>>, headers: seq<string>, showNumber: real -> string): (r: string)
    ensures r == "" <==> |data| == 0
  {
    if |data| == 0 then ""
    else
      var lines := CsvLines(data, headers, showNumber);
      JoinFirstLast(lines, "\n");
      JoinFirstLast(lines[1..], "\n");
      assert Join(lines, "\n") == lines[0] + "\n" + Join(lines[1..], "\n");
      Join(lines, "\n")
  }

  /** Replacing one character by text without `x` adds no `x`. */
  lemma {:induction false} ReplaceAllKeeps(s: string, c: char, rep: string, x: char)
    requires x !in s && x !in rep
    ensures x !in ReplaceAll(s, c, rep)
  {
    if |s| > 0 {
      ReplaceAllKeeps(s[1..], c, rep, x);
    }
  }

  /** A written field holds a newline only when the value did. */
  lemma FieldWithoutNewline(v: Value, showNumber: real -> string)
    requires v.Text? ==> '\n' !in v.text
    requires v.Number? ==> '\n' !in showNumber(v.number)
    ensures '\n' !in Field(v, showNumber)
  {
    if v.Text? && NeedsQuotes(v.text) && !Falsy(v) {
      ReplaceAllKeeps(v.text, '"', "\"\"", '\n');
    }
  }

  /** When no header, string value or rendered number holds a newline, the
      output splits back into the header line and one line per row. */
  lemma CsvSplitsIntoLines(data: seq<map<string, Value>>, headers: seq<string>, showNumber: real -> string)
    requires |data| >= 1
    requires forall j :: 0 <= j < |headers| ==> '\n' !in headers[j]
    requires forall k, h :: 0 <= k < |data| && h in data[k] && data[k][h].Text? ==> '\n' !in data[k][h].text
    requires forall x :: '\n' !in showNumber(x)
    ensures Split(ArrayToCsv(data, headers, showNumber), '\n') == CsvLines(data, headers, showNumber)
    ensures |Split(ArrayToCsv(data, headers, showNumber), '\n')| == 1 + |data|
  {
    var lines := CsvLines(data, headers, showNumber);
    JoinContains(headers, ",", '\n');
    forall k | 0 <= k < |data| ensures '\n' !in RowLine(data[k], headers, showNumber) {
      var fields := seq(|headers|, j requires 0 <= j < |headers| => Field(Lookup(data[k], headers[j]), showNumber));
      forall j | 0 <= j < |headers| ensures '\n' !in fields[j] {
        FieldWithoutNewline(Lookup(data[k], headers[j]), showNumber);
      }
      JoinContains(fields, ",", '\n');
    }
    assert forall i :: 0 <= i < |lines| ==> '\n' !in lines[i];
    SplitJoin(lines, '\n');
  }

  lemma {:induction false} ReplaceAllAppend(a: string, b: string, c: char, rep: string)
    ensures ReplaceAll(a + b, c, rep) == ReplaceAll(a, c, rep) + ReplaceAll(b, c, rep)
  {
    if |a| == 0 {
      assert a + b == b;
    } else {
      assert (a + b)[0] == a[0] && (a + b)[1..] == a[1..] + b;
      ReplaceAllAppend(a[1..], b, c, rep);
    }
  }

  /** A string value that needs quotes is written as the value with every
      quote doubled, between quotes: one character longer per quote, and
      reading each doubled quote back as one gives the value. */
  lemma FieldDoublesQuotes(s: string, showNumber: real -> string)
    requires NeedsQuotes(s)
    ensures var r := Field(Text(s), showNumber);
      && |r| == |s| + multiset(s)['"'] + 2
      && r[0] == '"' && r[|r| - 1] == '"'
      && Undouble(r[1..|r| - 1], '"') == s
  {
    var inner := ReplaceAll(s, '"', ['"', '"']);
    DoubledLength(s, '"');
    UndoubleDoubled(s, '"');
    var r := Field(Text(s), showNumber);
    assert r == ['"'] + inner + ['"'];
    assert r[1..|r| - 1] == inner;
  }

  /** A quotable string value is written as its cell. */
  lemma FieldOfQuotable(s: string, showNumber: real -> string)
    requires Quotable(s)
    ensures Field(Text(s), showNumber) == Cell(s)
  {
  }

  /** Replacing `c` in a text holding it once replaces that one occurrence. */
  lemma ReplaceAllOnce(s: string, t: string, c: char, rep: string)
    requires c !in s && c !in t
    ensures ReplaceAll(s + [c] + t, c, rep) == s + rep + t
  {
    var u := [c] + t;
    assert u[0] == c && u[1..] == t;
    assert ReplaceAll(u, c, rep) == rep + t;
    assert s + [c] + t == s + u;
    ReplaceAllAppend(s, u, c, rep);
  }

  /** A value with one quote is written quoted, with the quote doubled. */
  lemma FieldOfOneQuote(s: string, t: string, showNumber: real -> string)
    requires '"' !in s && '"' !in t
    ensures Field(Text(s + ['"'] + t), showNumber) == ['"'] + (s + (['"', '"'] + t + ['"']))
  {
    var v := s + ['"'] + t;
    assert NeedsQuotes(v) && !Falsy(Text(v)) by {
      assert v[|s|] == '"';
    }
    ReplaceAllOnce(s, t, '"', ['"', '"']);
    assert Field(Text(v), showNumber) == ['"'] + (s + ['"', '"'] + t) + ['"'];
  }

  /** A string value holding a quote does not read back: the quote the
      writer doubles stays doubled. */
  lemma QuoteInValueStaysDoubled(s: string, t: string, showNumber: real -> string)
    requires '"' !in s && '"' !in t
    requires s == [] || s[|s| - 1] != ','
    requires t == [] || (t[0] != ',' && t[|t| - 1] != ',')
    ensures LineFields(Field(Text(s + ['"'] + t), showNumber)) == [Trim(s + ['"', '"'] + t)]
  {
    FieldOfOneQuote(s, t, showNumber);
    DoubledQuoteKept(s, t, Field(Text(s + ['"'] + t), showNumber));
  }

  // ---------------------------------------------------------------- round trip

  /** A header the codec carries unchanged: not empty, no comma, quote or
      newline, and no white space at either end. */
  predicate PlainHeader(s: string)
  {
    s != [] && ',' !in s && '"' !in s && '\n' !in s && IsTrimmed(s)
  }

  /** A string value the codec carries unchanged. */
  predicate Writable(s: string)
  {
    Quotable(s) && IsTrimmed(s)
  }

  lemma {:induction false} JoinSnoc(parts: seq<string>, sep: string)
    requires |parts| >= 2
    ensures Join(parts, sep) == Join(parts[..|parts| - 1], sep) + sep + parts[|parts| - 1]
  {
    if |parts| > 2 {
      var n := |parts| - 1;
      var q := parts[1..];
      JoinSnoc(q, sep);
      assert q[..n - 1] == parts[..n][1..] && q[n - 1] == parts[n];
      assert Join(parts, sep) == parts[0] + sep + Join(q, sep);
      assert Join(parts[..n], sep) == parts[0] + sep + Join(parts[..n][1..], sep);
    } else {
      assert parts[..1] == [parts[0]];
    }
  }

  /** The last character of a line, when its last part is not empty. */
  lemma JoinLastChar(parts: seq<string>, sep: string)
    requires |parts| >= 1 && parts[|parts| - 1] != []
    ensures |Join(parts, sep)| > 0
    ensures Join(parts, sep)[|Join(parts, sep)| - 1] == parts[|parts| - 1][|parts[|parts| - 1]| - 1]
  {
    var last := parts[|parts| - 1];
    var j := Join(parts, sep);
    JoinFirstLast(parts, sep);
    assert j[|j| - |last|..] == last;
    assert j[|j| - 1] == j[|j| - |last|..][|last| - 1];
  }

  /** A line of cells that is not one empty cell ends with a character that is not a space. */
  lemma CellsLineEnds(values: seq<string>)
    requires |values| >= 1
    requires forall j :: 0 <= j < |values| ==> Writable(values[j])
    requires |values| > 1 || values[0] != ""
    ensures var line := Join(Cells(values), ",");
      |line| > 0 && !IsSpace(line[|line| - 1])
  {
    var cells := Cells(values);
    var last := values[|values| - 1];
    if last == "" {
      JoinSnoc(cells, ",");
      assert cells[|cells| - 1] == "";
    } else {
      JoinLastChar(cells, ",");
    }
  }

  /** The rows of lines of cells, each of which contributes one row. */
  lemma {:induction false} RowsOfCellLines(headers: seq<string>, rows: seq<seq<string>>, lines: seq<string>)
    requires |headers| >= 1
    requires forall k :: 0 <= k < |rows| ==> |rows[k]| == |headers|
    requires forall k, j :: 0 <= k < |rows| && 0 <= j < |rows[k]| ==> Writable(rows[k][j])
    requires |lines| == |rows| && forall k :: 0 <= k < |rows| ==> lines[k] == Join(Cells(rows[k]), ",")
    ensures |RowsOf(headers, lines)| == |rows|
    ensures forall k :: 0 <= k < |rows| ==> RowsOf(headers, lines)[k] == RowOf(headers, rows[k])
  {
    if |rows| > 0 {
      var n := |rows| - 1;
      RowsOfCellLines(headers, rows[..n], lines[..n]);
      LineFieldOfCells(headers, rows[n], lines[n]);
      assert RowsOf(headers, lines) == RowsOf(headers, lines[..n]) + RowFor(headers, lines[n]);
    }
  }

  /** A line of cells, one per header, contributes the row of its values. */
  lemma LineFieldOfCells(headers: seq<string>, values: seq<string>, line: string)
    requires |values| == |headers| >= 1
    requires forall j :: 0 <= j < |values| ==> Writable(values[j])
    requires line == Join(Cells(values), ",")
    ensures RowFor(headers, line) == [RowOf(headers, values)]
  {
    LineFieldsOfCells(values);
    TrimAllOfTrimmed(values);
    assert LineFields(line) == values;
  }

  /** Trimming strings that are trimmed changes nothing. */
  lemma TrimAllOfTrimmed(s: seq<string>)
    requires forall i :: 0 <= i < |s| ==> IsTrimmed(s[i])
    ensures TrimAll(s) == s
  {
    forall i | 0 <= i < |s| ensures Trim(s[i]) == s[i] {
      TrimOfTrimmed(s[i]);
    }
  }

  /** The header line of plain headers reads back as the headers. */
  lemma HeaderNamesOfPlain(headers: seq<string>)
    requires |headers| >= 1
    requires forall j :: 0 <= j < |headers| ==> PlainHeader(headers[j])
    ensures HeaderNames(Join(headers, ",")) == headers
  {
    SplitJoin(headers, ',');
    forall j | 0 <= j < |headers| ensures ReplaceAll(Trim(headers[j]), '"', "") == headers[j] {
      TrimOfTrimmed(headers[j]);
    }
  }

  /** The lines of a table: the header line, then one line of cells per row. */
  function TableLines(headers: seq<string>, rows: seq<seq<string>>): (r: seq<string>)
    ensures |r| == 1 + |rows| && r[0] == Join(headers, ",")
  {
    [Join(headers, ",")] + seq(|rows|, k requires 0 <= k < |rows| => Join(Cells(rows[k]), ","))
  }

  /** No line of a table holds a newline. */
  lemma TableLinesWithoutNewline(headers: seq<string>, rows: seq<seq<string>>)
    requires forall j :: 0 <= j < |headers| ==> PlainHeader(headers[j])
    requires forall k, j :: 0 <= k < |rows| && 0 <= j < |rows[k]| ==> Writable(rows[k][j])
    ensures forall i :: 0 <= i < 1 + |rows| ==> '\n' !in TableLines(headers, rows)[i]
  {
    var lines := TableLines(headers, rows);
    JoinContains(headers, ",", '\n');
    forall i | 1 <= i < 1 + |rows| ensures '\n' !in lines[i] {
      JoinContains(Cells(rows[i - 1]), ",", '\n');
    }
  }

  /** The text of a table neither starts nor ends with white space. */
  lemma TableTextTrimmed(headers: seq<string>, rows: seq<seq<string>>)
    requires |headers| >= 1 && |rows| >= 1
    requires forall j :: 0 <= j < |headers| ==> PlainHeader(headers[j])
    requires forall k :: 0 <= k < |rows| ==> |rows[k]| == |headers|
    requires forall k, j :: 0 <= k < |rows| && 0 <= j < |rows[k]| ==> Writable(rows[k][j])
    requires |headers| > 1 || rows[|rows| - 1][0] != ""
    ensures IsTrimmed(Join(TableLines(headers, rows), "\n"))
  {
    var lines := TableLines(headers, rows);
    var last := rows[|rows| - 1];
    assert PlainHeader(headers[0]);
    JoinFirstChar(headers, ",");
    CellsLineEnds(last);
    assert lines[|lines| - 1] == Join(Cells(last), ",");
    LinesTextTrimmed(lines);
  }

  /** Lines whose text starts and ends with a character that is not a space
      join to a trimmed text. */
  lemma LinesTextTrimmed(lines: seq<string>)
    requires |lines| >= 1 && lines[0] != [] && !IsSpace(lines[0][0])
    requires var last := lines[|lines| - 1]; last != [] && !IsSpace(last[|last| - 1])
    ensures IsTrimmed(Join(lines, "\n"))
  {
    JoinFirstChar(lines, "\n");
    JoinLastChar(lines, "\n");
  }

  /** A table of quotable, trimmed values under plain headers parses back
      to its rows, provided its last line is not one empty field (which the
      trim at the start of `parseCSV` would remove). */
  lemma ParseTable(headers: seq<string>, rows: seq<seq<string>>)
    requires |headers| >= 1 && |rows| >= 1
    requires forall j :: 0 <= j < |headers| ==> PlainHeader(headers[j])
    requires forall k :: 0 <= k < |rows| ==> |rows[k]| == |headers|
    requires forall k, j :: 0 <= k < |rows| && 0 <= j < |rows[k]| ==> Writable(rows[k][j])
    requires |headers| > 1 || rows[|rows| - 1][0] != ""
    ensures |ParsedCsv(Join(TableLines(headers, rows), "\n"))| == |rows|
    ensures forall k :: 0 <= k < |rows| ==> ParsedCsv(Join(TableLines(headers, rows), "\n"))[k] == RowOf(headers, rows[k])
  {
    var lines := TableLines(headers, rows);
    var text := Join(lines, "\n");
    TableLinesWithoutNewline(headers, rows);
    SplitJoin(lines, '\n');
    TableTextTrimmed(headers, rows);
    TrimOfTrimmed(text);
    assert Lines(text) == lines;
    HeaderNamesOfPlain(headers);
    RowsOfCellLines(headers, rows, lines[1..]);
  }

  /** The string of a value, or the empty string. */
  function TextOf(v: Value): string
  {
    if v.Text? then v.text else ""
  }

  /** A string the codec carries unchanged under every header. */
  predicate WritableRow(row: map<string, Value>, headers: seq<string>)
  {
    forall j :: 0 <= j < |headers| ==> Lookup(row, headers[j]).Text? && Writable(Lookup(row, headers[j]).text)
  }

  /** The strings of a row under the headers. */
  function TextRow(row: map<string, Value>, headers: seq<string>): (r: seq<string>)
    ensures |r| == |headers| && forall j :: 0 <= j < |headers| ==> r[j] == TextOf(Lookup(row, headers[j]))
  {
    seq(|headers|, j requires 0 <= j < |headers| => TextOf(Lookup(row, headers[j])))
  }

  /** The line of a row of strings the codec carries unchanged is its line of cells. */
  lemma RowLineOfWritable(row: map<string, Value>, headers: seq<string>, showNumber: real -> string)
    requires WritableRow(row, headers)
    ensures RowLine(row, headers, showNumber) == Join(Cells(TextRow(row, headers)), ",")
  {
    var fields := seq(|headers|, j requires 0 <= j < |headers| => Field(Lookup(row, headers[j]), showNumber));
    forall j | 0 <= j < |headers| ensures fields[j] == Cells(TextRow(row, headers))[j] {
      FieldOfQuotable(Lookup(row, headers[j]).text, showNumber);
    }
    assert fields == Cells(TextRow(row, headers));
  }

  /** Round trip: parsing what `arrayToCSV` writes gives back, for every
      row and header, the string the row held, when the headers are
      distinct and plain, every value is a string with no quote or newline,
      no white space at its ends and no comma at its end (commas elsewhere
      are fine), and the last row is not one empty field. */
  lemma RoundTrip(data: seq<map<string, Value>>, headers: seq<string>, showNumber: real -> string)
    requires |data| >= 1 && |headers| >= 1
    requires forall j :: 0 <= j < |headers| ==> PlainHeader(headers[j])
    requires forall i, j :: 0 <= i < j < |headers| ==> headers[i] != headers[j]
    requires forall k :: 0 <= k < |data| ==> WritableRow(data[k], headers)
    requires |headers| > 1 || Lookup(data[|data| - 1], headers[0]) != Text("")
    ensures |ParsedCsv(ArrayToCsv(data, headers, showNumber))| == |data|
    ensures HoldsTexts(data, headers, ParsedCsv(ArrayToCsv(data, headers, showNumber)))
  {
    var rows := seq(|data|, k requires 0 <= k < |data| => TextRow(data[k], headers));
    var text := ArrayToCsv(data, headers, showNumber);
    ArrayToCsvOfWritable(data, headers, showNumber, rows);
    ParseDataTable(data, headers, rows, text);
  }

  /** The table of the strings of `data` parses back to rows holding those strings. */
  lemma ParseDataTable(data: seq<map<string, Value>>, headers: seq<string>, rows: seq<seq<string>>, text: string)
    requires |data| >= 1 && |headers| >= 1
    requires forall j :: 0 <= j < |headers| ==> PlainHeader(headers[j])
    requires forall i, j :: 0 <= i < j < |headers| ==> headers[i] != headers[j]
    requires forall k :: 0 <= k < |data| ==> WritableRow(data[k], headers)
    requires |headers| > 1 || Lookup(data[|data| - 1], headers[0]) != Text("")
    requires |rows| == |data| && forall k :: 0 <= k < |data| ==> rows[k] == TextRow(data[k], headers)
    requires text == Join(TableLines(headers, rows), "\n")
    ensures |ParsedCsv(text)| == |data|
    ensures HoldsTexts(data, headers, ParsedCsv(text))
  {
    TableOfData(data, headers, rows);
    ParseTable(headers, rows);
    RowsHoldTheirValues(data, headers, rows, ParsedCsv(text));
  }

  /** The strings of rows the codec carries unchanged form a table ParseTable reads. */
  lemma TableOfData(data: seq<map<string, Value>>, headers: seq<string>, rows: seq<seq<string>>)
    requires |data| >= 1 && |headers| >= 1
    requires forall k :: 0 <= k < |data| ==> WritableRow(data[k], headers)
    requires |headers| > 1 || Lookup(data[|data| - 1], headers[0]) != Text("")
    requires |rows| == |data| && forall k :: 0 <= k < |data| ==> rows[k] == TextRow(data[k], headers)
    ensures forall k :: 0 <= k < |rows| ==> |rows[k]| == |headers|
    ensures forall k, j :: 0 <= k < |rows| && 0 <= j < |rows[k]| ==> Writable(rows[k][j])
    ensures |headers| > 1 || rows[|rows| - 1][0] != ""
  {
    forall k, j | 0 <= k < |rows| && 0 <= j < |rows[k]| ensures Writable(rows[k][j]) {
      assert WritableRow(data[k], headers);
    }
  }

  /** Row `k` of `parsed` holds, under every header, the string row `k` of
      `data` holds there. */
  predicate HoldsTexts(data: seq<map<string, Value>>, headers: seq<string>, parsed: seq<Row>)
  {
    |parsed| == |data| &&
    forall k, j :: 0 <= k < |data| && 0 <= j < |headers| ==>
      headers[j] in parsed[k] && Lookup(data[k], headers[j]) == Text(parsed[k][headers[j]])
  }

  /** Rows of the strings of `data`, built under distinct headers, hold
      those strings. */
  lemma RowsHoldTheirValues(data: seq<map<string, Value>>, headers: seq<string>, rows: seq<seq<string>>, parsed: seq<Row>)
    requires forall i, j :: 0 <= i < j < |headers| ==> headers[i] != headers[j]
    requires forall k :: 0 <= k < |data| ==> WritableRow(data[k], headers)
    requires |rows| == |data| && forall k :: 0 <= k < |data| ==> rows[k] == TextRow(data[k], headers)
    requires forall k :: 0 <= k < |rows| ==> |rows[k]| == |headers|
    requires |parsed| == |rows| && forall k :: 0 <= k < |rows| ==> parsed[k] == RowOf(headers, rows[k])
    ensures HoldsTexts(data, headers, parsed)
  {
    forall k, j | 0 <= k < |data| && 0 <= j < |headers|
      ensures headers[j] in parsed[k] && Lookup(data[k], headers[j]) == Text(parsed[k][headers[j]])
    {
      RowOfValue(headers, rows[k], j);
    }
  }

  /** What `arrayToCSV` writes for rows of strings the codec carries
      unchanged is the text of the table of those strings. */
  lemma ArrayToCsvOfWritable(data: seq<map<string, Value>>, headers: seq<string>, showNumber: real -> string, rows: seq<seq<string>>)
    requires |data| >= 1
    requires forall k :: 0 <= k < |data| ==> WritableRow(data[k], headers)
    requires |rows| == |data| && forall k :: 0 <= k < |data| ==> rows[k] == TextRow(data[k], headers)
    ensures ArrayToCsv(data, headers, showNumber) == Join(TableLines(headers, rows), "\n")
  {
    forall k | 0 <= k < |data| ensures RowLine(data[k], headers, showNumber) == Join(Cells(rows[k]), ",") {
      RowLineOfWritable(data[k], headers, showNumber);
    }
    assert CsvLines(data, headers, showNumber) == TableLines(headers, rows);
  }
}

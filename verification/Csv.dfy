/**
 * The demo fixtures' CSV reader (apps/api/src/demo/csv-reader.ts), against the
 * printer of section 2 of RFC 4180.
 */
module Csv {
  import opened Wrappers

  // ---------------------------------------------------------------------------
  // The line parser
  // ---------------------------------------------------------------------------

  /** The parser's variables: finished fields, the field so far, the quote flag. */
  datatype Scan = Scan(out: seq<string>, field: string, inQuotes: bool)

  const START := Scan([], "", false)

  function ScanFrom(s: string, st: Scan): Scan
    decreases |s|
  {
    if s == "" then st
    else if st.inQuotes then
      if s[0] != '"' then ScanFrom(s[1..], st.(field := st.field + [s[0]]))
      else if |s| > 1 && s[1] == '"' then ScanFrom(s[2..], st.(field := st.field + "\""))
      else ScanFrom(s[1..], st.(inQuotes := false))
    else if s[0] == '"' then ScanFrom(s[1..], st.(inQuotes := true))
    else if s[0] == ',' then ScanFrom(s[1..], Scan(st.out + [st.field], "", false))
    else ScanFrom(s[1..], st.(field := st.field + [s[0]]))
  }

  function Fields(st: Scan): seq<string> {
    st.out + [st.field]
  }

  function Parse(line: string): seq<string> {
    Fields(ScanFrom(line, START))
  }

  method ParseCsvLine(line: string) returns (fields: seq<string>)
    ensures fields == Parse(line)
  {
    var out: seq<string> := [];
    var field := "";
    var inQuotes := false;
    var i := 0;
    while i < |line|
      invariant 0 <= i <= |line|
      invariant ScanFrom(line[i..], Scan(out, field, inQuotes)) == ScanFrom(line, START)
    {
      var c := line[i];
      if inQuotes {
        if c == '"' {
          if i + 1 < |line| && line[i + 1] == '"' {
            field := field + "\"";
            i := i + 1;
          } else {
            inQuotes := false;
          }
        } else {
          field := field + [c];
        }
      } else if c == '"' {
        inQuotes := true;
      } else if c == ',' {
        out := out + [field];
        field := "";
      } else {
        field := field + [c];
      }
      i := i + 1;
    }
    fields := out + [field];
  }

  // ---------------------------------------------------------------------------
  // Cutting a line at a comma
  // ---------------------------------------------------------------------------

  /** Scanning stops and resumes anywhere but inside a doubled quote. */
  lemma {:induction false} ScanSplits(a: string, b: string, st: Scan)
    requires b == "" || b[0] != '"'
    ensures ScanFrom(a + b, st) == ScanFrom(b, ScanFrom(a, st))
    decreases |a|
  {
    if a == "" {
      assert a + b == b;
    } else {
      assert (a + b)[1..] == a[1..] + b;
      if st.inQuotes && a[0] == '"' && |a| > 1 && a[1] == '"' {
        assert (a + b)[2..] == a[2..] + b;
        ScanSplits(a[2..], b, st.(field := st.field + "\""));
      } else if st.inQuotes && a[0] == '"' {
        assert |a + b| > 1 ==> (a + b)[1] != '"';
        ScanSplits(a[1..], b, st.(inQuotes := false));
      } else if st.inQuotes {
        ScanSplits(a[1..], b, st.(field := st.field + [a[0]]));
      } else if a[0] == '"' {
        ScanSplits(a[1..], b, st.(inQuotes := true));
      } else if a[0] == ',' {
        ScanSplits(a[1..], b, Scan(st.out + [st.field], "", false));
      } else {
        ScanSplits(a[1..], b, st.(field := st.field + [a[0]]));
      }
    }
  }

  /** Finished fields are never looked at again, and the field in progress only grows. */
  lemma {:induction false} ScanKeeps(s: string, st: Scan)
    ensures var t := ScanFrom(s, st);
      && st.out <= t.out
      && |Fields(t)| > |st.out| && st.field <= Fields(t)[|st.out|]
    decreases |s|
  {
    if s != "" {
      if st.inQuotes && s[0] == '"' && |s| > 1 && s[1] == '"' {
        ScanKeeps(s[2..], st.(field := st.field + "\""));
      } else if st.inQuotes && s[0] == '"' {
        ScanKeeps(s[1..], st.(inQuotes := false));
      } else if st.inQuotes || (s[0] != '"' && s[0] != ',') {
        ScanKeeps(s[1..], st.(field := st.field + [s[0]]));
      } else if s[0] == '"' {
        ScanKeeps(s[1..], st.(inQuotes := true));
      } else {
        ScanKeeps(s[1..], Scan(st.out + [st.field], "", false));
      }
    }
  }

  lemma {:induction false} ScanShifts(s: string, out: seq<string>, st: Scan)
    ensures ScanFrom(s, st.(out := out + st.out)) == ScanFrom(s, st).(out := out + ScanFrom(s, st).out)
    decreases |s|
  {
    if s != "" {
      if st.inQuotes && s[0] == '"' && |s| > 1 && s[1] == '"' {
        ScanShifts(s[2..], out, st.(field := st.field + "\""));
      } else if st.inQuotes && s[0] == '"' {
        ScanShifts(s[1..], out, st.(inQuotes := false));
      } else if st.inQuotes || (s[0] != '"' && s[0] != ',') {
        ScanShifts(s[1..], out, st.(field := st.field + [s[0]]));
      } else if s[0] == '"' {
        ScanShifts(s[1..], out, st.(inQuotes := true));
      } else {
        assert out + (st.out + [st.field]) == (out + st.out) + [st.field];
        ScanShifts(s[1..], out, Scan(st.out + [st.field], "", false));
      }
    }
  }

  function Quotes(s: string): nat {
    if s == "" then 0 else (if s[0] == '"' then 1 else 0) + Quotes(s[1..])
  }

  /** An even number of quote characters. */
  predicate Balanced(s: string) {
    Quotes(s) % 2 == 0
  }

  lemma {:induction false} QuoteFlagIsParity(s: string, st: Scan)
    ensures ScanFrom(s, st).inQuotes == (st.inQuotes == Balanced(s))
    decreases |s|
  {
    if s != "" {
      if st.inQuotes && s[0] == '"' && |s| > 1 && s[1] == '"' {
        assert s[1..][1..] == s[2..];
        QuoteFlagIsParity(s[2..], st.(field := st.field + "\""));
      } else if st.inQuotes && s[0] == '"' {
        QuoteFlagIsParity(s[1..], st.(inQuotes := false));
      } else if st.inQuotes || (s[0] != '"' && s[0] != ',') {
        QuoteFlagIsParity(s[1..], st.(field := st.field + [s[0]]));
      } else if s[0] == '"' {
        QuoteFlagIsParity(s[1..], st.(inQuotes := true));
      } else {
        QuoteFlagIsParity(s[1..], Scan(st.out + [st.field], "", false));
      }
    }
  }

  /** Parsing distributes over a comma exactly when the text before it has an even
      number of quotes. */
  lemma ParseDistributesExactly(a: string, b: string)
    ensures Parse(a + "," + b) == Parse(a) + Parse(b) <==> Balanced(a)
  {
    var mid := ScanFrom(a, START);
    assert a + "," + b == a + ("," + b);
    ScanSplits(a, "," + b, START);
    QuoteFlagIsParity(a, START);
    assert ("," + b)[1..] == b;
    if Balanced(a) {
      ScanShifts(b, Fields(mid), START);
      assert Fields(mid) + [] == Fields(mid);
    } else {
      ScanKeeps(b, mid.(field := mid.field + ","));
      assert (Parse(a) + Parse(b))[|mid.out|] == mid.field;
    }
  }

  // ---------------------------------------------------------------------------
  // The printer
  // ---------------------------------------------------------------------------

  function Escape(field: string): string {
    if field == "" then "" else (if field[0] == '"' then "\"\"" else [field[0]]) + Escape(field[1..])
  }

  predicate NeedsQuotes(field: string) {
    '"' in field || ',' in field || '\r' in field || '\n' in field
  }

  /** A field on its way to a line: any field may be quoted, some must be. */
  datatype Cell = Cell(field: string, quoted: bool)

  function PrintCell(cell: Cell): string {
    if cell.quoted || NeedsQuotes(cell.field) then "\"" + Escape(cell.field) + "\"" else cell.field
  }

  function PrintLine(cells: seq<Cell>): string
    requires cells != []
  {
    if |cells| == 1 then PrintCell(cells[0]) else PrintCell(cells[0]) + "," + PrintLine(cells[1..])
  }

  function Contents(cells: seq<Cell>): seq<string> {
    seq(|cells|, i requires 0 <= i < |cells| => cells[i].field)
  }

  /** Inside quotes: a doubled quote, any other character, the closing quote. */
  lemma ScanQuoted(c: char, s: string, st: Scan)
    requires st.inQuotes
    ensures c == '"' ==> ScanFrom("\"\"" + s, st) == ScanFrom(s, st.(field := st.field + [c]))
    ensures c != '"' ==> ScanFrom([c] + s, st) == ScanFrom(s, st.(field := st.field + [c]))
    ensures s == "" || s[0] != '"' ==> ScanFrom("\"" + s, st) == ScanFrom(s, st.(inQuotes := false))
  {
    assert ("\"\"" + s)[2..] == s;
    assert ([c] + s)[1..] == s;
    assert ("\"" + s)[1..] == s;
  }

  lemma EscapeUnrolls(field: string, tail: string)
    requires field != ""
    ensures field[0] == '"' ==> Escape(field) + tail == "\"\"" + (Escape(field[1..]) + tail)
    ensures field[0] != '"' ==> Escape(field) + tail == [field[0]] + (Escape(field[1..]) + tail)
  {
    Regroup(if field[0] == '"' then "\"\"" else [field[0]], Escape(field[1..]), tail);
  }

  lemma Regroup(a: string, b: string, c: string)
    ensures (a + b) + c == a + (b + c)
  {
  }

  lemma {:induction false} ScanEscaped(field: string, rest: string, st: Scan)
    requires st.inQuotes && (rest == "" || rest[0] != '"')
    ensures ScanFrom(Escape(field) + ("\"" + rest), st)
            == ScanFrom(rest, st.(field := st.field + field, inQuotes := false))
    decreases |field|
  {
    if field == "" {
      assert Escape(field) + ("\"" + rest) == "\"" + rest;
      assert st.field + field == st.field;
      ScanQuoted(' ', rest, st);
    } else {
      var next := st.(field := st.field + [field[0]]);
      ScanEscaped(field[1..], rest, next);
      assert st.field + field == next.field + field[1..];
      var s := Escape(field[1..]) + ("\"" + rest);
      ScanQuoted(field[0], s, st);
      EscapeUnrolls(field, "\"" + rest);
    }
  }

  lemma {:induction false} ScanPlain(field: string, rest: string, st: Scan)
    requires !st.inQuotes && !NeedsQuotes(field)
    ensures ScanFrom(field + rest, st) == ScanFrom(rest, st.(field := st.field + field))
    decreases |field|
  {
    if field == "" {
      assert field + rest == rest && st.field + field == st.field;
    } else {
      assert field[0] in field;
      assert forall c :: c in field[1..] ==> c in field;
      assert (field + rest)[1..] == field[1..] + rest;
      assert st.field + field == (st.field + [field[0]]) + field[1..];
      ScanPlain(field[1..], rest, st.(field := st.field + [field[0]]));
    }
  }

  lemma ScanCell(cell: Cell, rest: string, out: seq<string>)
    requires rest == "" || rest[0] == ','
    ensures ScanFrom(PrintCell(cell) + rest, Scan(out, "", false)) == ScanFrom(rest, Scan(out, cell.field, false))
  {
    if cell.quoted || NeedsQuotes(cell.field) {
      var s := PrintCell(cell) + rest;
      assert s == "\"" + (Escape(cell.field) + ("\"" + rest));
      assert s[1..] == Escape(cell.field) + ("\"" + rest);
      ScanEscaped(cell.field, rest, Scan(out, "", true));
      assert "" + cell.field == cell.field;
    } else {
      ScanPlain(cell.field, rest, Scan(out, "", false));
      assert "" + cell.field == cell.field;
    }
  }

  lemma {:induction false} ScanLine(cells: seq<Cell>, out: seq<string>)
    requires cells != []
    ensures Fields(ScanFrom(PrintLine(cells), Scan(out, "", false))) == out + Contents(cells)
    decreases |cells|
  {
    var cell := cells[0];
    if |cells| == 1 {
      ScanCell(cell, "", out);
      assert PrintCell(cell) + "" == PrintCell(cell);
      assert Contents(cells) == [cell.field];
    } else {
      var rest := "," + PrintLine(cells[1..]);
      assert PrintLine(cells) == PrintCell(cell) + rest;
      assert rest[1..] == PrintLine(cells[1..]);
      ScanCell(cell, rest, out);
      ScanLine(cells[1..], out + [cell.field]);
      assert Contents(cells) == [cell.field] + Contents(cells[1..]);
      assert out + Contents(cells) == (out + [cell.field]) + Contents(cells[1..]);
    }
  }

  /** The parser undoes the printer on every non-empty list of fields, whatever
      they contain and whichever of them were quoted without need. */
  lemma ParseUndoesPrint(cells: seq<Cell>)
    requires cells != []
    ensures Parse(PrintLine(cells)) == Contents(cells)
  {
    ScanLine(cells, []);
    assert [] + Contents(cells) == Contents(cells);
  }

  // ---------------------------------------------------------------------------
  // Whole files
  // ---------------------------------------------------------------------------

  function FieldAt(fields: seq<string>, i: nat): string {
    if i < |fields| then fields[i] else ""
  }

  /** The record of the first `n` headers; a repeated header keeps its last field. */
  function Record(headers: seq<string>, fields: seq<string>, n: nat): map<string, string>
    requires n <= |headers|
  {
    if n == 0 then map[] else Record(headers, fields, n - 1)[headers[n - 1] := FieldAt(fields, n - 1)]
  }

  /** Blank lines are skipped; the first other line names the columns. */
  function ReadRows(headers: Option<seq<string>>, lines: seq<string>): seq<map<string, string>>
    decreases |lines|
  {
    if lines == [] then []
    else if lines[0] == "" then ReadRows(headers, lines[1..])
    else if headers.None? then ReadRows(Some(Parse(lines[0])), lines[1..])
    else [Record(headers.value, Parse(lines[0]), |headers.value|)] + ReadRows(headers, lines[1..])
  }

  method ReadRecord(headers: seq<string>, fields: seq<string>) returns (row: map<string, string>)
    ensures row == Record(headers, fields, |headers|)
  {
    row := map[];
    var i := 0;
    while i < |headers|
      invariant 0 <= i <= |headers|
      invariant row == Record(headers, fields, i)
    {
      row := row[headers[i] := if i < |fields| then fields[i] else ""];
      i := i + 1;
    }
  }

  method ReadCsvRows(lines: seq<string>) returns (rows: seq<map<string, string>>)
    ensures rows == ReadRows(None, lines)
  {
    rows := [];
    var headers: Option<seq<string>> := None;
    var k := 0;
    while k < |lines|
      invariant 0 <= k <= |lines|
      invariant rows + ReadRows(headers, lines[k..]) == ReadRows(None, lines)
    {
      var line := lines[k];
      assert lines[k..][1..] == lines[k + 1..];
      k := k + 1;
      if line == "" { continue; }
      var fields := ParseCsvLine(line);
      if headers.None? {
        headers := Some(fields);
        continue;
      }
      var row := ReadRecord(headers.value, fields);
      assert (rows + [row]) + ReadRows(headers, lines[k..]) == rows + ([row] + ReadRows(headers, lines[k..]));
      rows := rows + [row];
    }
  }

  predicate Distinct(headers: seq<string>) {
    forall i, j :: 0 <= i < j < |headers| ==> headers[i] != headers[j]
  }

  /** A record has every header and nothing else, each with its own field. */
  lemma {:induction false} RecordHasItsFields(headers: seq<string>, fields: seq<string>, n: nat)
    requires Distinct(headers) && n <= |headers|
    ensures Record(headers, fields, n).Keys == set i | 0 <= i < n :: headers[i]
    ensures forall i :: 0 <= i < n ==>
              && headers[i] in Record(headers, fields, n)
              && Record(headers, fields, n)[headers[i]] == if i < |fields| then fields[i] else ""
  {
    if n > 0 { RecordHasItsFields(headers, fields, n - 1); }
  }

  /** A printed line is blank, and so skipped, exactly when it is one empty field
      left unquoted. */
  lemma BlankLineExactly(cells: seq<Cell>)
    requires cells != []
    ensures PrintLine(cells) == "" <==> cells == [Cell("", false)]
  {
    assert !NeedsQuotes("");
    if |cells| == 1 { assert cells == [cells[0]]; }
  }

  function PrintLines(table: seq<seq<Cell>>): seq<string>
    requires forall i :: 0 <= i < |table| ==> table[i] != []
  {
    seq(|table|, i requires 0 <= i < |table| => PrintLine(table[i]))
  }

  const BLANK: seq<Cell> := [Cell("", false)]

  /** No row is one empty field left unquoted. */
  predicate NoneBlank(table: seq<seq<Cell>>) {
    forall i :: 0 <= i < |table| ==> table[i] != BLANK
  }

  /** One record for each row, in order. */
  function Records(headers: seq<string>, table: seq<seq<Cell>>): seq<map<string, string>> {
    seq(|table|, i requires 0 <= i < |table| => Record(headers, Contents(table[i]), |headers|))
  }

  lemma {:induction false} ReadFullTable(headers: seq<string>, table: seq<seq<Cell>>)
    requires (forall i :: 0 <= i < |table| ==> table[i] != []) && NoneBlank(table)
    ensures ReadRows(Some(headers), PrintLines(table)) == Records(headers, table)
    decreases |table|
  {
    if table == [] {
      assert PrintLines(table) == [];
    } else {
      var rest := table[1..];
      assert PrintLines(table)[0] == PrintLine(table[0]);
      assert PrintLines(table)[1..] == PrintLines(rest);
      BlankLineExactly(table[0]);
      ParseUndoesPrint(table[0]);
      ReadFullTable(headers, rest);
    }
  }

  /** A blank row is lost: the records are fewer exactly when there is one. */
  lemma {:induction false} BlankRowsAreLost(headers: seq<string>, table: seq<seq<Cell>>)
    requires forall i :: 0 <= i < |table| ==> table[i] != []
    ensures |ReadRows(Some(headers), PrintLines(table))| <= |table|
    ensures |ReadRows(Some(headers), PrintLines(table))| == |table| <==> NoneBlank(table)
    decreases |table|
  {
    if table == [] {
      assert PrintLines(table) == [];
    } else {
      var rest := table[1..];
      assert PrintLines(table)[0] == PrintLine(table[0]);
      assert PrintLines(table)[1..] == PrintLines(rest);
      BlankLineExactly(table[0]);
      BlankRowsAreLost(headers, rest);
      assert NoneBlank(table) <==> table[0] != BLANK && NoneBlank(rest) by {
        assert forall i :: 0 < i < |table| ==> table[i] == rest[i - 1];
        assert forall i :: 0 <= i < |rest| ==> rest[i] == table[i + 1];
      }
    }
  }

  /** Without its header line a non-empty table loses at least one row. */
  lemma {:induction false} HeaderTakesARow(table: seq<seq<Cell>>)
    requires table != [] && forall i :: 0 <= i < |table| ==> table[i] != []
    ensures |ReadRows(None, PrintLines(table))| < |table|
    decreases |table|
  {
    var rest := table[1..];
    assert PrintLines(table)[0] == PrintLine(table[0]);
    assert PrintLines(table)[1..] == PrintLines(rest);
    if PrintLine(table[0]) != "" {
      BlankRowsAreLost(Parse(PrintLine(table[0])), rest);
    } else if rest == [] {
      assert PrintLines(rest) == [];
    } else {
      HeaderTakesARow(rest);
    }
  }

  /** Reading back a printed table gives one record for each row, in order,
      exactly when no row prints as a blank line. */
  lemma ReadUndoesPrint(headers: seq<string>, table: seq<seq<Cell>>)
    requires forall i :: 0 <= i < |table| ==> table[i] != []
    ensures ReadRows(Some(headers), PrintLines(table)) == Records(headers, table) <==> NoneBlank(table)
  {
    BlankRowsAreLost(headers, table);
    if NoneBlank(table) { ReadFullTable(headers, table); }
  }

  /** What the reader should hand over for a printed table: for every row, in order,
      exactly the headers as keys, each with the field printed in its column (its last,
      for a header that repeats), or with nothing where the row is shorter. */
  predicate ReadsBack(rows: seq<map<string, string>>, headers: seq<string>, table: seq<seq<Cell>>) {
    && |rows| == |table|
    && forall k :: 0 <= k < |table| ==> RowReadsBack(rows[k], headers, table[k])
  }

  predicate RowReadsBack(row: map<string, string>, headers: seq<string>, cells: seq<Cell>) {
    && (forall key :: key in row ==> key in headers)
    && forall i :: 0 <= i < |headers| && LastOfItsName(headers, i, |headers|) ==>
         headers[i] in row && row[headers[i]] == if i < |cells| then cells[i].field else ""
  }

  /** Among the first `n` headers. */
  predicate LastOfItsName(headers: seq<string>, i: nat, n: nat)
    requires i < |headers| && n <= |headers|
  {
    forall j :: i < j < n ==> headers[j] != headers[i]
  }

  lemma {:induction false} RecordKeepsTheLast(headers: seq<string>, fields: seq<string>, n: nat, i: nat)
    requires i < n <= |headers| && LastOfItsName(headers, i, n)
    ensures headers[i] in Record(headers, fields, n)
    ensures Record(headers, fields, n)[headers[i]] == if i < |fields| then fields[i] else ""
  {
    if i < n - 1 {
      assert headers[n - 1] != headers[i];
      RecordKeepsTheLast(headers, fields, n - 1, i);
    }
  }

  lemma {:induction false} RecordKeysAreHeaders(headers: seq<string>, fields: seq<string>, n: nat, key: string)
    requires n <= |headers| && key in Record(headers, fields, n)
    ensures key in headers
  {
    if n > 0 && key != headers[n - 1] { RecordKeysAreHeaders(headers, fields, n - 1, key); }
  }

  lemma RecordReadsBack(headers: seq<string>, cells: seq<Cell>)
    ensures RowReadsBack(Record(headers, Contents(cells), |headers|), headers, cells)
  {
    var row := Record(headers, Contents(cells), |headers|);
    forall key | key in row ensures key in headers {
      RecordKeysAreHeaders(headers, Contents(cells), |headers|, key);
    }
    forall i | 0 <= i < |headers| && LastOfItsName(headers, i, |headers|)
      ensures headers[i] in row && row[headers[i]] == if i < |cells| then cells[i].field else ""
    {
      RecordKeepsTheLast(headers, Contents(cells), |headers|, i);
    }
  }

  /** Reading back a printed table gives every field in its place, exactly when no
      row prints as a blank line. */
  lemma FieldsReadBack(headers: seq<string>, table: seq<seq<Cell>>)
    requires forall i :: 0 <= i < |table| ==> table[i] != []
    ensures ReadsBack(ReadRows(Some(headers), PrintLines(table)), headers, table) <==> NoneBlank(table)
  {
    BlankRowsAreLost(headers, table);
    if NoneBlank(table) {
      ReadFullTable(headers, table);
      forall k | 0 <= k < |table| ensures RowReadsBack(Records(headers, table)[k], headers, table[k]) {
        RecordReadsBack(headers, table[k]);
      }
    }
  }

  /** The whole file as lines, header line first: it reads back exactly when no row,
      and not the header of a table with rows, prints as a blank line. */
  lemma LinesRoundTrip(head: seq<Cell>, table: seq<seq<Cell>>)
    requires head != [] && forall i :: 0 <= i < |table| ==> table[i] != []
    ensures ReadRows(None, [PrintLine(head)] + PrintLines(table)) == Records(Contents(head), table) <==>
              NoneBlank(table) && (head != BLANK || table == [])
    ensures ReadsBack(ReadRows(None, [PrintLine(head)] + PrintLines(table)), Contents(head), table) <==>
              NoneBlank(table) && (head != BLANK || table == [])
  {
    BlankLineExactly(head);
    ParseUndoesPrint(head);
    var lines := [PrintLine(head)] + PrintLines(table);
    assert lines[1..] == PrintLines(table);
    if head != BLANK {
      ReadUndoesPrint(Contents(head), table);
      FieldsReadBack(Contents(head), table);
    } else if table != [] {
      HeaderTakesARow(table);
    } else {
      assert PrintLines(table) == [];
    }
  }

  // ---------------------------------------------------------------------------
  // Text and lines
  // ---------------------------------------------------------------------------

  /** Where Node's readline ends a line, a carriage return before a line feed
      counting once. */
  predicate Breaks(c: char) {
    c == '\n' || c == '\r' || c == '\U{2028}' || c == '\U{2029}'
  }

  predicate BreakFree(s: string) {
    forall i :: 0 <= i < |s| ==> !Breaks(s[i])
  }

  /** The lines of a text whose current line has begun with `line`. A last line
      without its end counts when it is not empty. */
  function LinesFrom(text: string, line: string): seq<string>
    decreases |text|
  {
    if text == "" then if line == "" then [] else [line]
    else if text[0] == '\r' && |text| > 1 && text[1] == '\n' then [line] + LinesFrom(text[2..], "")
    else if Breaks(text[0]) then [line] + LinesFrom(text[1..], "")
    else LinesFrom(text[1..], line + [text[0]])
  }

  function Lines(text: string): seq<string> {
    LinesFrom(text, "")
  }

  datatype Ending = Lf | CrLf

  function EndOf(ending: Ending): string {
    if ending.Lf? then "\n" else "\r\n"
  }

  /** Every line with its end. */
  function Join(lines: seq<string>, ending: Ending): string {
    if lines == [] then "" else lines[0] + (EndOf(ending) + Join(lines[1..], ending))
  }

  lemma {:induction false} LineReads(line: string, rest: string, begun: string, ending: Ending)
    requires BreakFree(line)
    ensures LinesFrom(line + (EndOf(ending) + rest), begun) == [begun + line] + LinesFrom(rest, "")
    decreases |line|
  {
    var text := line + (EndOf(ending) + rest);
    if line == "" {
      assert text == EndOf(ending) + rest && begun + line == begun;
      assert ending.Lf? ==> text[1..] == rest;
      assert ending.CrLf? ==> text[2..] == rest;
    } else {
      assert !Breaks(line[0]) && text[0] == line[0];
      assert text[1..] == line[1..] + (EndOf(ending) + rest);
      assert forall i :: 0 <= i < |line[1..]| ==> line[1..][i] == line[i + 1];
      LineReads(line[1..], rest, begun + [line[0]], ending);
      assert (begun + [line[0]]) + line[1..] == begun + line;
    }
  }

  /** Splitting undoes joining, for lines without a break of their own. */
  lemma {:induction false} LinesUndoJoin(lines: seq<string>, ending: Ending)
    requires forall i :: 0 <= i < |lines| ==> BreakFree(lines[i])
    ensures Lines(Join(lines, ending)) == lines
    decreases |lines|
  {
    if lines != [] {
      LineReads(lines[0], Join(lines[1..], ending), "", ending);
      LinesUndoJoin(lines[1..], ending);
      assert "" + lines[0] == lines[0];
      assert lines == [lines[0]] + lines[1..];
    }
  }

  lemma BreakFreeConcat(a: string, b: string)
    requires BreakFree(a) && BreakFree(b)
    ensures BreakFree(a + b)
  {
  }

  lemma {:induction false} EscapeIsBreakFree(field: string)
    requires BreakFree(field)
    ensures BreakFree(Escape(field))
  {
    if field != "" {
      assert forall i :: 0 <= i < |field[1..]| ==> field[1..][i] == field[i + 1];
      EscapeIsBreakFree(field[1..]);
      BreakFreeConcat(if field[0] == '"' then "\"\"" else [field[0]], Escape(field[1..]));
    }
  }

  predicate CellsBreakFree(cells: seq<Cell>) {
    forall i :: 0 <= i < |cells| ==> BreakFree(cells[i].field)
  }

  lemma CellIsBreakFree(cell: Cell)
    requires BreakFree(cell.field)
    ensures BreakFree(PrintCell(cell))
  {
    EscapeIsBreakFree(cell.field);
    BreakFreeConcat("\"", Escape(cell.field));
    BreakFreeConcat("\"" + Escape(cell.field), "\"");
  }

  lemma {:induction false} LineIsBreakFree(cells: seq<Cell>)
    requires cells != [] && CellsBreakFree(cells)
    ensures BreakFree(PrintLine(cells))
    decreases |cells|
  {
    CellIsBreakFree(cells[0]);
    if |cells| > 1 {
      assert forall i :: 0 <= i < |cells[1..]| ==> cells[1..][i] == cells[i + 1];
      LineIsBreakFree(cells[1..]);
      BreakFreeConcat(PrintCell(cells[0]), ",");
      BreakFreeConcat(PrintCell(cells[0]) + ",", PrintLine(cells[1..]));
    }
  }

  /** The text of a printed file, header line first. */
  function PrintFile(head: seq<Cell>, table: seq<seq<Cell>>, ending: Ending): string
    requires head != [] && forall i :: 0 <= i < |table| ==> table[i] != []
  {
    Join([PrintLine(head)] + PrintLines(table), ending)
  }

  /** The text of a printed file whose fields hold no line break reads back exactly
      when no row, and not the header of a table with rows, prints as a blank line. */
  lemma FileRoundTrip(head: seq<Cell>, table: seq<seq<Cell>>, ending: Ending)
    requires head != [] && forall i :: 0 <= i < |table| ==> table[i] != []
    requires CellsBreakFree(head) && forall i :: 0 <= i < |table| ==> CellsBreakFree(table[i])
    ensures ReadRows(None, Lines(PrintFile(head, table, ending))) == Records(Contents(head), table) <==>
              NoneBlank(table) && (head != BLANK || table == [])
    ensures ReadsBack(ReadRows(None, Lines(PrintFile(head, table, ending))), Contents(head), table) <==>
              NoneBlank(table) && (head != BLANK || table == [])
  {
    var lines := [PrintLine(head)] + PrintLines(table);
    forall i | 0 <= i < |lines| ensures BreakFree(lines[i]) {
      LineIsBreakFree(if i == 0 then head else table[i - 1]);
    }
    LinesUndoJoin(lines, ending);
    LinesRoundTrip(head, table);
  }

  lemma {:induction false} EveryLineIsBreakFree(text: string, line: string)
    requires BreakFree(line)
    ensures forall i :: 0 <= i < |LinesFrom(text, line)| ==> BreakFree(LinesFrom(text, line)[i])
    decreases |text|
  {
    if text == "" {
    } else if text[0] == '\r' && |text| > 1 && text[1] == '\n' {
      EveryLineIsBreakFree(text[2..], "");
    } else if Breaks(text[0]) {
      EveryLineIsBreakFree(text[1..], "");
    } else {
      BreakFreeConcat(line, [text[0]]);
      EveryLineIsBreakFree(text[1..], line + [text[0]]);
    }
  }

  predicate AllBreakFree(fields: seq<string>) {
    forall i :: 0 <= i < |fields| ==> BreakFree(fields[i])
  }

  lemma {:induction false} ScanIsBreakFree(s: string, st: Scan)
    requires BreakFree(s) && BreakFree(st.field) && AllBreakFree(st.out)
    ensures AllBreakFree(Fields(ScanFrom(s, st)))
    decreases |s|
  {
    if s != "" {
      var rest := s[1..];
      assert BreakFree(rest) by { assert forall i :: 0 <= i < |rest| ==> rest[i] == s[i + 1]; }
      BreakFreeConcat(st.field, [s[0]]);
      if st.inQuotes && s[0] == '"' && |s| > 1 && s[1] == '"' {
        assert BreakFree(s[2..]) by { assert forall i :: 0 <= i < |s[2..]| ==> s[2..][i] == s[i + 2]; }
        ScanIsBreakFree(s[2..], st.(field := st.field + "\""));
      } else if st.inQuotes && s[0] == '"' {
        ScanIsBreakFree(rest, st.(inQuotes := false));
      } else if st.inQuotes || (s[0] != '"' && s[0] != ',') {
        ScanIsBreakFree(rest, st.(field := st.field + [s[0]]));
      } else if s[0] == '"' {
        ScanIsBreakFree(rest, st.(inQuotes := true));
      } else {
        ScanIsBreakFree(rest, Scan(st.out + [st.field], "", false));
      }
    }
  }

  predicate RecordBreakFree(row: map<string, string>) {
    forall key | key in row :: BreakFree(key) && BreakFree(row[key])
  }

  lemma {:induction false} RecordIsBreakFree(headers: seq<string>, fields: seq<string>, n: nat)
    requires AllBreakFree(headers) && AllBreakFree(fields) && n <= |headers|
    ensures RecordBreakFree(Record(headers, fields, n))
  {
    if n > 0 { RecordIsBreakFree(headers, fields, n - 1); }
  }

  lemma {:induction false} RowsAreBreakFree(headers: Option<seq<string>>, lines: seq<string>)
    requires AllBreakFree(lines) && (headers.Some? ==> AllBreakFree(headers.value))
    ensures forall i :: 0 <= i < |ReadRows(headers, lines)| ==> RecordBreakFree(ReadRows(headers, lines)[i])
    decreases |lines|
  {
    if lines != [] {
      var fields, rest := Parse(lines[0]), lines[1..];
      assert AllBreakFree(rest) by { assert forall i :: 0 <= i < |rest| ==> rest[i] == lines[i + 1]; }
      ScanIsBreakFree(lines[0], START);
      if lines[0] == "" {
        RowsAreBreakFree(headers, rest);
      } else if headers.None? {
        RowsAreBreakFree(Some(fields), rest);
      } else {
        RecordIsBreakFree(headers.value, fields, |headers.value|);
        RowsAreBreakFree(headers, rest);
      }
    }
  }

  /** No column or value read from any text holds a line break, so a field that has
      one never reads back, quoted or not. */
  lemma NoBreakIsReadBack(text: string)
    ensures forall i :: 0 <= i < |ReadRows(None, Lines(text))| ==> RecordBreakFree(ReadRows(None, Lines(text))[i])
  {
    EveryLineIsBreakFree(text, "");
    RowsAreBreakFree(None, Lines(text));
  }
}

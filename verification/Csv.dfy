/** The executions report as CSV, and what a reader that follows section 2 of RFC 4180
    (with LF row ends) makes of it. */
module Csv {
  import opened Domain

  predicate Special(c: char) {
    c == ',' || c == '"' || c == '\n' || c == '\r'
  }

  predicate NeedsQuotes(s: string) {
    exists k :: 0 <= k < |s| && Special(s[k])
  }

  /** Quotes around a field that needs them; the field itself is copied as it is. */
  function Esc(s: string): string {
    if NeedsQuotes(s) then "\"" + s + "\"" else s
  }

  method CsvEsc(s: string) returns (r: string)
    ensures r == Esc(s)
    ensures (exists k :: 0 <= k < |s| && (s[k] == ',' || s[k] == '"' || s[k] == '\n' || s[k] == '\r')) ==> r == "\"" + s + "\""
    ensures !(exists k :: 0 <= k < |s| && (s[k] == ',' || s[k] == '"' || s[k] == '\n' || s[k] == '\r')) ==> r == s
  {
    if s == "" {
      return "";
    }
    for k := 0 to |s|
      invariant forall l | 0 <= l < k :: !Special(s[l])
    {
      if s[k] == ',' || s[k] == '"' || s[k] == '\n' || s[k] == '\r' {
        return "\"" + s + "\"";
      }
    }
    return s;
  }

  // ---- the printed document ----

  function Cells(fields: seq<string>): string
    requires fields != []
  {
    var n := |fields| - 1;
    if n == 0 then Esc(fields[0]) else Cells(fields[..n]) + "," + Esc(fields[n])
  }

  predicate Rectangular(rows: seq<seq<string>>) {
    forall k | 0 <= k < |rows| :: rows[k] != []
  }

  function Document(rows: seq<seq<string>>): string
    requires Rectangular(rows)
  {
    if rows == [] then "" else Document(rows[..|rows| - 1]) + Cells(rows[|rows| - 1]) + "\n"
  }

  /** One execution of the report. `startedAt` is printed by time.Format(RFC3339). */
  datatype Row = Row(id: string, jobName: string, status: ExecStatus, triggeredBy: Origin, startedAt: string,
                     completedAt: string, durationMs: string, responseStatus: string, errorMessage: string)

  function StatusText(s: ExecStatus): string {
    match s case Running => "running" case Success => "success" case Failure => "failure"
  }

  function OriginText(o: Origin): string {
    match o case Tick => "schedule" case Manual => "manual"
  }

  function Fields(r: Row): seq<string> {
    [r.id, r.jobName, StatusText(r.status), OriginText(r.triggeredBy), r.startedAt,
     r.completedAt, r.durationMs, r.responseStatus, r.errorMessage]
  }

  const HEADER: seq<string> :=
    ["execution_id", "job_name", "status", "triggered_by", "started_at", "completed_at", "duration_ms", "response_status", "error_message"]

  function Table(rows: seq<Row>): (t: seq<seq<string>>)
    ensures |t| == |rows| + 1 && Rectangular(t)
  {
    if rows == [] then [HEADER] else Table(rows[..|rows| - 1]) + [Fields(rows[|rows| - 1])]
  }

  const HEADER_LINE: string :=
    "execution_id,job_name,status," + "triggered_by,started_at,completed_at," + "duration_ms,response_status,error_message"

  method PrintRow(r: Row) returns (line: string)
    requires !NeedsQuotes(r.startedAt)
    ensures line == Cells(Fields(r))
  {
    var id := CsvEsc(r.id);
    var name := CsvEsc(r.jobName);
    var completed := CsvEsc(r.completedAt);
    var duration := CsvEsc(r.durationMs);
    var response := CsvEsc(r.responseStatus);
    var error := CsvEsc(r.errorMessage);
    line := id + "," + name + "," + StatusText(r.status) + "," + OriginText(r.triggeredBy) + "," + r.startedAt
            + "," + completed + "," + duration + "," + response + "," + error;
    RowLine(r);
  }

  method ReportCSV(rows: seq<Row>) returns (out: string)
    requires forall k | 0 <= k < |rows| :: !NeedsQuotes(rows[k].startedAt)
    ensures out == Document(Table(rows))
    ensures HEADER_LINE + "\n" <= out
    ensures ReadReport(out) == Some(rows) <==> forall k | 0 <= k < |rows| :: CleanExecution(rows[k])
  {
    out := HEADER_LINE + "\n";
    HeaderLine();
    for k := 0 to |rows|
      invariant out == Document(Table(rows[..k]))
    {
      var line := PrintRow(rows[k]);
      TableSnoc(rows, k);
      DocumentSnoc(Table(rows[..k]), Fields(rows[k]));
      out := out + line + "\n";
    }
    assert rows[..|rows|] == rows;
    ReportRoundTrip(rows);
    StartsWithHeader(rows);
  }

  lemma {:induction false} StartsWithHeader(rows: seq<Row>)
    ensures HEADER_LINE + "\n" <= Document(Table(rows))
  {
    if rows == [] {
      HeaderLine();
    } else {
      StartsWithHeader(rows[..|rows| - 1]);
      DocumentSnoc(Table(rows[..|rows| - 1]), Fields(rows[|rows| - 1]));
    }
  }

  lemma TableSnoc(rows: seq<Row>, k: nat)
    requires k < |rows|
    ensures Table(rows[..k + 1]) == Table(rows[..k]) + [Fields(rows[k])]
  {
    assert rows[..k + 1][..k] == rows[..k];
  }

  lemma DocumentSnoc(rows: seq<seq<string>>, row: seq<string>)
    requires Rectangular(rows) && row != []
    ensures Rectangular(rows + [row]) && Document(rows + [row]) == Document(rows) + Cells(row) + "\n"
  {
    assert (rows + [row])[..|rows|] == rows;
  }

  lemma CellsSnoc(fields: seq<string>, f: string)
    requires fields != []
    ensures Cells(fields + [f]) == Cells(fields) + "," + Esc(f)
  {
    assert (fields + [f])[..|fields|] == fields;
  }

  lemma Cells9(a: string, b: string, c: string, d: string, e: string, f: string, g: string, h: string, i: string)
    ensures Cells([a, b, c, d, e, f, g, h, i])
         == Esc(a) + "," + Esc(b) + "," + Esc(c) + "," + Esc(d) + "," + Esc(e) + "," + Esc(f) + "," + Esc(g) + "," + Esc(h) + "," + Esc(i)
  {
    CellsSnoc([a], b); CellsSnoc([a, b], c); CellsSnoc([a, b, c], d); CellsSnoc([a, b, c, d], e);
    CellsSnoc([a, b, c, d, e], f); CellsSnoc([a, b, c, d, e, f], g); CellsSnoc([a, b, c, d, e, f, g], h);
    CellsSnoc([a, b, c, d, e, f, g, h], i);
    assert [a] + [b] == [a, b] && [a, b] + [c] == [a, b, c] && [a, b, c] + [d] == [a, b, c, d];
    assert [a, b, c, d] + [e] == [a, b, c, d, e] && [a, b, c, d, e] + [f] == [a, b, c, d, e, f];
    assert [a, b, c, d, e, f] + [g] == [a, b, c, d, e, f, g] && [a, b, c, d, e, f, g] + [h] == [a, b, c, d, e, f, g, h];
    assert [a, b, c, d, e, f, g, h] + [i] == [a, b, c, d, e, f, g, h, i];
  }

  lemma FixedTextsArePlain()
    ensures forall s :: !NeedsQuotes(StatusText(s))
    ensures forall o :: !NeedsQuotes(OriginText(o))
  {
  }

  lemma HeaderIsPlain()
    ensures forall k | 0 <= k < |HEADER| :: !NeedsQuotes(HEADER[k])
  {
  }

  lemma RowLine(r: Row)
    requires !NeedsQuotes(r.startedAt)
    ensures Cells(Fields(r))
         == Esc(r.id) + "," + Esc(r.jobName) + "," + StatusText(r.status) + "," + OriginText(r.triggeredBy) + "," + r.startedAt
            + "," + Esc(r.completedAt) + "," + Esc(r.durationMs) + "," + Esc(r.responseStatus) + "," + Esc(r.errorMessage)
  {
    FixedTextsArePlain();
    Cells9(r.id, r.jobName, StatusText(r.status), OriginText(r.triggeredBy), r.startedAt,
           r.completedAt, r.durationMs, r.responseStatus, r.errorMessage);
  }

  lemma HeaderLine()
    ensures Document(Table([])) == HEADER_LINE + "\n"
  {
    HeaderIsPlain();
    var h := HEADER;
    assert forall k | 0 <= k < 9 :: Esc(h[k]) == h[k];
    Cells9(h[0], h[1], h[2], h[3], h[4], h[5], h[6], h[7], h[8]);
    DocumentSnoc([], HEADER);
    assert [] + [HEADER] == [HEADER] && Document([]) + Cells(HEADER) == Cells(HEADER);
    HeaderText();
  }

  lemma HeaderText()
    ensures "execution_id" + "," + "job_name" + "," + "status" + "," + "triggered_by" + "," + "started_at" + "," + "completed_at" + ","
            + "duration_ms" + "," + "response_status" + "," + "error_message"
         == HEADER_LINE
  {
    JoinNine("execution_id", "job_name", "status", "triggered_by", "started_at", "completed_at", "duration_ms", "response_status", "error_message");
    FirstNames();
    LastNames();
  }

  lemma FirstNames()
    ensures ("execution_id" + "," + "job_name" + "," + "status") + "," == "execution_id,job_name,status,"
    ensures ("triggered_by" + "," + "started_at" + "," + "completed_at") + "," == "triggered_by,started_at,completed_at,"
  {
  }

  lemma LastNames()
    ensures "duration_ms" + "," + "response_status" + "," + "error_message" == "duration_ms,response_status,error_message"
  {
  }

  lemma JoinNine(a: string, b: string, c: string, d: string, e: string, f: string, g: string, h: string, i: string)
    ensures a + "," + b + "," + c + "," + d + "," + e + "," + f + "," + g + "," + h + "," + i
         == ((a + "," + b + "," + c) + ",") + ((d + "," + e + "," + f) + ",") + (g + "," + h + "," + i)
  {
  }

  // ---- the reader ----

  datatype Mode = FieldStart | Bare | Quoted | QuoteSeen | Bad

  datatype Reader = Reader(mode: Mode, field: string, row: seq<string>, rows: seq<seq<string>>)

  const BLANK := Reader(FieldStart, "", [], [])

  function EndField(r: Reader): Reader {
    Reader(FieldStart, "", r.row + [r.field], r.rows)
  }

  function EndRow(r: Reader): Reader {
    Reader(FieldStart, "", [], r.rows + [r.row + [r.field]])
  }

  function Read(r: Reader, c: char): Reader {
    match r.mode
    case Bad => r
    case Quoted => if c == '"' then r.(mode := QuoteSeen) else r.(field := r.field + [c])
    case QuoteSeen =>
      if c == '"' then r.(mode := Quoted, field := r.field + [c])
      else if c == ',' then EndField(r)
      else if c == '\n' then EndRow(r)
      else r.(mode := Bad)
    case _ =>
      if c == ',' then EndField(r)
      else if c == '\n' then EndRow(r)
      else if c == '"' && r.mode.FieldStart? then r.(mode := Quoted)
      else if c == '"' || c == '\r' then r.(mode := Bad)
      else r.(mode := Bare, field := r.field + [c])
  }

  function Feed(r: Reader, s: string): Reader {
    if s == "" then r else Read(Feed(r, s[..|s| - 1]), s[|s| - 1])
  }

  /** The last row may lack its line end. None is a malformed document. */
  function Parse(s: string): Option<seq<seq<string>>> {
    var r := Feed(BLANK, s);
    if r.mode.Bad? || r.mode.Quoted? then None
    else if r.mode.FieldStart? && r.row == [] then Some(r.rows)
    else Some(r.rows + [r.row + [r.field]])
  }

  lemma {:induction false} FeedAppend(r: Reader, a: string, b: string)
    ensures Feed(r, a + b) == Feed(Feed(r, a), b)
  {
    if b == "" {
      assert a + b == a;
    } else {
      assert (a + b)[..|a + b| - 1] == a + b[..|b| - 1];
      FeedAppend(r, a, b[..|b| - 1]);
    }
  }

  lemma FeedChar(r: Reader, c: char)
    ensures Feed(r, [c]) == Read(r, c)
  {
    assert [c][..0] == "";
    assert Feed(r, "") == r;
  }

  // ---- no double quote: the reader gets the rows back ----

  predicate Clean(s: string) {
    '"' !in s
  }

  predicate CleanRow(fields: seq<string>) {
    forall k | 0 <= k < |fields| :: Clean(fields[k])
  }

  predicate CleanRows(rows: seq<seq<string>>) {
    forall k | 0 <= k < |rows| :: CleanRow(rows[k])
  }

  lemma {:induction false} FeedQuoted(r: Reader, s: string)
    requires r.mode.Quoted? && Clean(s)
    ensures Feed(r, s) == r.(field := r.field + s)
  {
    if s != "" {
      var n := |s| - 1;
      assert Clean(s[..n]);
      FeedQuoted(r, s[..n]);
      assert s[..n] + [s[n]] == s;
      assert (r.field + s[..n]) + [s[n]] == r.field + s;
    } else {
      assert r.field + s == r.field;
    }
  }

  lemma {:induction false} FeedBare(r: Reader, s: string)
    requires r.mode.FieldStart? && r.field == "" && !NeedsQuotes(s)
    ensures Feed(r, s) == if s == "" then r else r.(mode := Bare, field := s)
  {
    if s != "" {
      var n := |s| - 1;
      assert forall k | 0 <= k < n :: s[..n][k] == s[k];
      FeedBare(r, s[..n]);
      assert s[..n] + [s[n]] == s;
      assert !Special(s[n]);
    }
  }

  /** A printed field leaves the reader at its end, holding the field. */
  lemma FeedField(r: Reader, s: string)
    requires r.mode.FieldStart? && r.field == "" && Clean(s)
    ensures Feed(r, Esc(s)).mode in {FieldStart, Bare, QuoteSeen}
    ensures Feed(r, Esc(s)) == r.(mode := Feed(r, Esc(s)).mode, field := s)
  {
    if NeedsQuotes(s) {
      FeedAppend(r, "\"" + s, "\"");
      FeedAppend(r, "\"", s);
      FeedChar(r, '"');
      FeedQuoted(r.(mode := Quoted), s);
      FeedChar(r.(mode := Quoted, field := s), '"');
      assert "" + s == s;
    } else {
      FeedBare(r, s);
    }
  }

  lemma FeedNextCell(r: Reader, cells: string, f: string)
    requires Feed(r, cells).mode in {FieldStart, Bare, QuoteSeen} && Clean(f)
    ensures var m, e := Feed(r, cells), Feed(r, cells + "," + Esc(f));
            e.mode in {FieldStart, Bare, QuoteSeen} && e == EndField(m).(mode := e.mode, field := f)
  {
    FeedAppend(r, cells + ",", Esc(f));
    FeedAppend(r, cells, ",");
    FeedChar(Feed(r, cells), ',');
    FeedField(EndField(Feed(r, cells)), f);
  }

  lemma {:induction false} FeedCells(r: Reader, fields: seq<string>)
    requires fields != [] && CleanRow(fields)
    requires r.mode.FieldStart? && r.field == "" && r.row == []
    ensures Feed(r, Cells(fields)).mode in {FieldStart, Bare, QuoteSeen}
    ensures Feed(r, Cells(fields)).rows == r.rows
    ensures Feed(r, Cells(fields)).row + [Feed(r, Cells(fields)).field] == fields
  {
    var n := |fields| - 1;
    if n == 0 {
      FeedField(r, fields[0]);
    } else {
      assert fields == fields[..n] + [fields[n]];
      FeedCells(r, fields[..n]);
      FeedNextCell(r, Cells(fields[..n]), fields[n]);
    }
  }

  lemma {:induction false} FeedRow(r: Reader, text: string, fields: seq<string>)
    requires fields != [] && CleanRow(fields) && Feed(r, text) == Reader(FieldStart, "", [], Feed(r, text).rows)
    ensures Feed(r, text + Cells(fields) + "\n") == Reader(FieldStart, "", [], Feed(r, text).rows + [fields])
  {
    FeedAppend(r, text + Cells(fields), "\n");
    FeedAppend(r, text, Cells(fields));
    FeedCells(Feed(r, text), fields);
    FeedChar(Feed(r, text + Cells(fields)), '\n');
  }

  lemma {:induction false} FeedDocument(rows: seq<seq<string>>)
    requires Rectangular(rows) && CleanRows(rows)
    ensures Feed(BLANK, Document(rows)) == Reader(FieldStart, "", [], rows)
  {
    if rows != [] {
      var n := |rows| - 1;
      assert rows[..n] + [rows[n]] == rows;
      FeedDocument(rows[..n]);
      FeedRow(BLANK, Document(rows[..n]), rows[n]);
    }
  }

  // ---- a double quote: it never does ----

  function QuoteCount(s: string): nat {
    if s == "" then 0 else QuoteCount(s[..|s| - 1]) + if s[|s| - 1] == '"' then 1 else 0
  }

  function Wrap(s: string): nat { if NeedsQuotes(s) then 2 else 0 }

  /** Quotes a reader must have seen to have read a field as `s`. */
  function Cost(s: string): nat { 2 * QuoteCount(s) + Wrap(s) }

  function RowCost(fields: seq<string>): nat {
    if fields == [] then 0 else RowCost(fields[..|fields| - 1]) + Cost(fields[|fields| - 1])
  }

  function RowsCost(rows: seq<seq<string>>): nat {
    if rows == [] then 0 else RowsCost(rows[..|rows| - 1]) + RowCost(rows[|rows| - 1])
  }

  /** Quotes in all the fields of a table. */
  function RowQuotes(fields: seq<string>): nat {
    if fields == [] then 0 else RowQuotes(fields[..|fields| - 1]) + QuoteCount(fields[|fields| - 1])
  }

  function RowsQuotes(rows: seq<seq<string>>): nat {
    if rows == [] then 0 else RowsQuotes(rows[..|rows| - 1]) + RowQuotes(rows[|rows| - 1])
  }

  lemma {:induction false} QuoteCountAppend(a: string, b: string)
    ensures QuoteCount(a + b) == QuoteCount(a) + QuoteCount(b)
  {
    if b == "" {
      assert a + b == a;
    } else {
      assert (a + b)[..|a + b| - 1] == a + b[..|b| - 1];
      QuoteCountAppend(a, b[..|b| - 1]);
    }
  }

  lemma {:induction false} NoQuotesIffClean(s: string)
    ensures QuoteCount(s) == 0 <==> Clean(s)
  {
    if s != "" {
      NoQuotesIffClean(s[..|s| - 1]);
      assert s == s[..|s| - 1] + [s[|s| - 1]];
    }
  }

  lemma QuotesPrinted(s: string)
    ensures QuoteCount(Esc(s)) == QuoteCount(s) + Wrap(s)
  {
    if NeedsQuotes(s) {
      assert QuoteCount("\"") == 1 by { assert "\""[..0] == ""; }
      QuoteCountAppend("\"" + s, "\"");
      QuoteCountAppend("\"", s);
    }
  }

  lemma {:induction false} CellsQuotes(fields: seq<string>)
    requires fields != []
    ensures QuoteCount(Cells(fields)) + RowQuotes(fields) == RowCost(fields)
  {
    var n := |fields| - 1;
    QuotesPrinted(fields[n]);
    if n == 0 {
      assert fields[..0] == [];
    } else {
      CellsQuotes(fields[..n]);
      assert QuoteCount(",") == 0 by { assert ","[..0] == ""; }
      QuoteCountAppend(Cells(fields[..n]) + ",", Esc(fields[n]));
      QuoteCountAppend(Cells(fields[..n]), ",");
    }
  }

  lemma {:induction false} DocumentQuotes(rows: seq<seq<string>>)
    requires Rectangular(rows)
    ensures QuoteCount(Document(rows)) + RowsQuotes(rows) == RowsCost(rows)
  {
    if rows != [] {
      var n := |rows| - 1;
      DocumentQuotes(rows[..n]);
      CellsQuotes(rows[n]);
      assert QuoteCount("\n") == 0 by { assert "\n"[..0] == ""; }
      QuoteCountAppend(Document(rows[..n]) + Cells(rows[n]), "\n");
      QuoteCountAppend(Document(rows[..n]), Cells(rows[n]));
    }
  }

  function FieldCost(r: Reader): nat {
    match r.mode
    case Quoted => 1 + 2 * QuoteCount(r.field)
    case QuoteSeen => 2 + 2 * QuoteCount(r.field)
    case _ => 0
  }

  ghost predicate Paid(r: Reader, quotes: nat) {
    r.mode.Bad? ||
    (&& RowsCost(r.rows) + RowCost(r.row) + FieldCost(r) <= quotes
     && (r.mode.Bare? ==> Cost(r.field) == 0)
     && (r.mode.FieldStart? ==> r.field == ""))
  }

  lemma RowCostSnoc(fields: seq<string>, f: string)
    ensures RowCost(fields + [f]) == RowCost(fields) + Cost(f)
  {
    assert (fields + [f])[..|fields|] == fields;
  }

  lemma RowsCostSnoc(rows: seq<seq<string>>, row: seq<string>)
    ensures RowsCost(rows + [row]) == RowsCost(rows) + RowCost(row)
  {
    assert (rows + [row])[..|rows|] == rows;
  }

  lemma CostOfChar(s: string, c: char)
    ensures QuoteCount(s + [c]) == QuoteCount(s) + if c == '"' then 1 else 0
    ensures !NeedsQuotes(s) && !Special(c) ==> !NeedsQuotes(s + [c])
  {
    assert (s + [c])[..|s|] == s;
  }

  lemma EndPays(r: Reader, quotes: nat)
    requires Paid(r, quotes) && !r.mode.Bad? && !r.mode.Quoted?
    ensures Paid(EndField(r), quotes) && Paid(EndRow(r), quotes)
  {
    RowCostSnoc(r.row, r.field);
    RowsCostSnoc(r.rows, r.row + [r.field]);
  }

  lemma ReadPays(r: Reader, c: char, quotes: nat)
    requires Paid(r, quotes)
    ensures Paid(Read(r, c), quotes + if c == '"' then 1 else 0)
  {
    CostOfChar(r.field, c);
    if (c == ',' || c == '\n') && !r.mode.Bad? && !r.mode.Quoted? { EndPays(r, quotes); }
  }

  lemma {:induction false} FeedPays(s: string)
    ensures Paid(Feed(BLANK, s), QuoteCount(s))
  {
    if s != "" {
      FeedPays(s[..|s| - 1]);
      ReadPays(Feed(BLANK, s[..|s| - 1]), s[|s| - 1], QuoteCount(s[..|s| - 1]));
    }
  }

  lemma ParsePays(s: string)
    requires Parse(s).Some?
    ensures RowsCost(Parse(s).value) <= QuoteCount(s)
  {
    var r := Feed(BLANK, s);
    FeedPays(s);
    RowCostSnoc(r.row, r.field);
    RowsCostSnoc(r.rows, r.row + [r.field]);
  }

  lemma {:induction false} RowCleanIff(fields: seq<string>)
    ensures RowQuotes(fields) == 0 <==> CleanRow(fields)
  {
    if fields != [] {
      var n := |fields| - 1;
      RowCleanIff(fields[..n]);
      NoQuotesIffClean(fields[n]);
    }
  }

  lemma {:induction false} RowsCleanIff(rows: seq<seq<string>>)
    ensures RowsQuotes(rows) == 0 <==> CleanRows(rows)
  {
    if rows != [] {
      var n := |rows| - 1;
      RowsCleanIff(rows[..n]);
      RowCleanIff(rows[n]);
    }
  }

  /** A printed table reads back as itself exactly when none of its fields contains a
      double quote: commas and line breaks are safe, and since quotes are not doubled
      (rule 7) a document with one is malformed or read as a different table. */
  lemma RoundTripIffClean(rows: seq<seq<string>>)
    requires Rectangular(rows)
    ensures Parse(Document(rows)) == Some(rows) <==> CleanRows(rows)
  {
    if CleanRows(rows) {
      FeedDocument(rows);
    }
    if Parse(Document(rows)) == Some(rows) {
      ParsePays(Document(rows));
      DocumentQuotes(rows);
      RowsCleanIff(rows);
    }
  }

  predicate CleanExecution(r: Row) {
    Clean(r.id) && Clean(r.jobName) && Clean(r.completedAt) && Clean(r.durationMs) && Clean(r.responseStatus) && Clean(r.errorMessage)
  }

  lemma {:induction false} TableClean(rows: seq<Row>)
    requires forall k | 0 <= k < |rows| :: !NeedsQuotes(rows[k].startedAt)
    ensures CleanRows(Table(rows)) <==> forall k | 0 <= k < |rows| :: CleanExecution(rows[k])
  {
    if rows == [] {
      assert forall k | 0 <= k < |HEADER| :: Clean(HEADER[k]);
    } else {
      var n := |rows| - 1;
      TableClean(rows[..n]);
      RowClean(rows[n]);
      assert Table(rows)[..n + 1] == Table(rows[..n]) && Table(rows)[n + 1] == Fields(rows[n]);
      assert CleanRows(Table(rows)) <==> CleanRows(Table(rows[..n])) && CleanRow(Fields(rows[n])) by {
        forall k | 0 <= k <= n ensures Table(rows)[k] == Table(rows[..n])[k] {}
      }
    }
  }

  lemma RowClean(r: Row)
    requires !NeedsQuotes(r.startedAt)
    ensures CleanRow(Fields(r)) <==> CleanExecution(r)
  {
    var f := Fields(r);
    FixedTextsArePlain();
    assert Clean(StatusText(r.status)) && Clean(OriginText(r.triggeredBy)) && Clean(r.startedAt);
    if CleanRow(f) {
      assert Clean(f[0]) && Clean(f[1]) && Clean(f[5]) && Clean(f[6]) && Clean(f[7]) && Clean(f[8]);
    }
  }

  // ---- reading the executions back ----

  function ReadStatus(text: string): Option<ExecStatus> {
    if text == "running" then Some(Running) else if text == "success" then Some(Success)
    else if text == "failure" then Some(Failure) else None
  }

  function ReadOrigin(text: string): Option<Origin> {
    if text == "schedule" then Some(Tick) else if text == "manual" then Some(Manual) else None
  }

  function ReadRow(line: seq<string>): Option<Row> {
    if |line| == 9 && ReadStatus(line[2]).Some? && ReadOrigin(line[3]).Some?
    then Some(Row(line[0], line[1], ReadStatus(line[2]).value, ReadOrigin(line[3]).value, line[4], line[5], line[6], line[7], line[8]))
    else None
  }

  function ReadRows(lines: seq<seq<string>>): Option<seq<Row>> {
    if lines == [] then Some([])
    else
      var n := |lines| - 1;
      if ReadRows(lines[..n]).Some? && ReadRow(lines[n]).Some? then Some(ReadRows(lines[..n]).value + [ReadRow(lines[n]).value]) else None
  }

  /** The executions a report holds, if it is one. */
  function ReadReport(text: string): Option<seq<Row>> {
    match Parse(text)
    case None => None
    case Some(t) =>
      if t != [] && t[0] == ["execution_id", "job_name", "status", "triggered_by", "started_at", "completed_at", "duration_ms",
                             "response_status", "error_message"]
      then ReadRows(t[1..]) else None
  }

  lemma ReadRowIs(line: seq<string>, r: Row)
    ensures ReadRow(line) == Some(r) <==> line == Fields(r)
  {
    if ReadRow(line) == Some(r) { assert line == Fields(r); }
  }

  lemma {:induction false} ReadRowsIs(t: seq<seq<string>>, rows: seq<Row>)
    requires t != [] && t[0] == HEADER
    ensures ReadRows(t[1..]) == Some(rows) <==> t == Table(rows)
  {
    var lines := t[1..];
    if lines == [] {
      assert t == [HEADER];
    } else {
      var n := |lines| - 1;
      assert lines[..n] == t[..n + 1][1..] && lines[n] == t[n + 1] && t == t[..n + 1] + [t[n + 1]];
      if ReadRows(lines) == Some(rows) || t == Table(rows) {
        assert rows != [];
        ReadRowsIs(t[..n + 1], rows[..|rows| - 1]);
        ReadRowIs(lines[n], rows[|rows| - 1]);
        assert rows == rows[..|rows| - 1] + [rows[|rows| - 1]];
      }
    }
  }

  /** The exported file gives back every execution, field by field and in order, exactly
      when no name, time, code or error message in it contains a double quote. */
  lemma {:induction false} ReportRoundTrip(rows: seq<Row>)
    requires forall k | 0 <= k < |rows| :: !NeedsQuotes(rows[k].startedAt)
    ensures ReadReport(Document(Table(rows))) == Some(rows) <==> forall k | 0 <= k < |rows| :: CleanExecution(rows[k])
  {
    RoundTripIffClean(Table(rows));
    TableClean(rows);
    TableHead(rows);
    ReadRowsIs(Table(rows), rows);
    var parsed := Parse(Document(Table(rows)));
    if parsed.Some? && parsed.value != [] && parsed.value[0] == HEADER { ReadRowsIs(parsed.value, rows); }
  }

  lemma {:induction false} TableHead(rows: seq<Row>)
    ensures Table(rows)[0] == HEADER
  {
    if rows != [] { TableHead(rows[..|rows| - 1]); }
  }

  /** What stands between name and error in the line of a failed manual execution. */
  function Middle(startedAt: string, completedAt: string): string {
    ",failure,manual," + startedAt + "," + completedAt + ",1,,"
  }

  function Failed(id: string, name: string, startedAt: string, completedAt: string, error: string): Row {
    Row(id, name, Failure, Manual, startedAt, completedAt, "1", "", error)
  }

  lemma FailedLine(id: string, name: string, startedAt: string, completedAt: string, error: string)
    requires !NeedsQuotes(id) && !NeedsQuotes(startedAt) && !NeedsQuotes(completedAt) && NeedsQuotes(name) && NeedsQuotes(error)
    ensures Cells(Fields(Failed(id, name, startedAt, completedAt, error)))
         == id + ",\"" + name + "\"" + Middle(startedAt, completedAt) + "\"" + error + "\""
  {
    RowLine(Failed(id, name, startedAt, completedAt, error));
    assert !NeedsQuotes("1") && !NeedsQuotes("");
    Regroup(id + ",\"" + name + "\"", startedAt, completedAt, "\"" + error + "\"");
    assert id + "," + ("\"" + name + "\"") == id + ",\"" + name + "\"";
  }

  lemma Regroup(before: string, startedAt: string, completedAt: string, after: string)
    ensures before + "," + "failure" + "," + "manual" + "," + startedAt + "," + completedAt + "," + "1" + "," + "" + "," + after
         == before + Middle(startedAt, completedAt) + after
  {
    assert before + "," + "failure" + "," + "manual" + "," == before + ",failure,manual,";
    assert "," + "1" + "," + "" + "," == ",1,,";
    assert before + ",failure,manual," + startedAt + "," + completedAt + "," + "1" + "," + "" + ","
        == before + (",failure,manual," + startedAt + "," + completedAt + ",1,,");
  }

  /** With quotes, printing is not even one-to-one on the report's rows: two different
      failed executions, their errors as run writes them, that print as the same line. */
  lemma QuotesCollide(id: string, startedAt: string, completedAt: string) returns (name: string, o: Outcome, name': string, o': Outcome)
    requires !NeedsQuotes(id) && !NeedsQuotes(startedAt) && !NeedsQuotes(completedAt)
    ensures name != name' && o.CallError? && o'.CallError? && o != o'
    ensures Cells(Fields(Failed(id, name, startedAt, completedAt, ErrorText(o))))
         == Cells(Fields(Failed(id, name', startedAt, completedAt, ErrorText(o'))))
  {
    var middle, failed := Middle(startedAt, completedAt), "request failed: ";
    var long := ",\"" + middle + "\"" + failed + ",";
    name, o, name', o' := long, CallError(","), ",", CallError(long);
    assert long[0] == ',' && (failed + ",")[16] == ',' && (failed + long)[16] == ',' && ","[0] == ',';
    assert |long| > 1;
    FailedLine(id, long, startedAt, completedAt, failed + ",");
    FailedLine(id, ",", startedAt, completedAt, failed + long);
    SameText(id, middle, failed, long);
  }

  lemma SameText(id: string, middle: string, failed: string, long: string)
    requires long == ",\"" + middle + "\"" + failed + ","
    ensures id + ",\"" + long + "\"" + middle + "\"" + (failed + ",") + "\""
         == id + ",\"" + "," + "\"" + middle + "\"" + (failed + long) + "\""
  {
    var cell := ",\"" + middle + "\"" + failed;
    var goal := id + ",\"" + cell + cell + ",\"";
    assert id + ",\"" + (cell + ",") + "\"" + middle + "\"" + (failed + ",") + "\"" == goal by {
      assert (cell + ",") + "\"" + middle + "\"" + (failed + ",") + "\"" == cell + cell + ",\"";
    }
    assert id + ",\"" + "," + "\"" + middle + "\"" + (failed + (cell + ",")) + "\"" == goal by {
      assert "," + "\"" == ",\"";
      assert "," + "\"" + middle + "\"" + (failed + (cell + ",")) + "\"" == cell + cell + ",\"";
    }
  }
}

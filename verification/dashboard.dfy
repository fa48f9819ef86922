/** The dashboard route: the same API key as ingestion, given either as the
    header or as a `token` query parameter, then an HTML page holding the
    latest rows of the three tables.  The query results are a parameter
    (`None` when the database fails); each cell is already its text. */
module Dashboard {
  import opened Common
  import opened Text
  import opened MainApi

  /** The route's access check: an empty configured key is a server error;
      otherwise either the header or the query token must equal it. */
  function Authorize(expected: string, header: Option<string>, token: Option<string>): (r: Option<HttpError>)
    ensures expected == "" ==> r == Some(NotConfigured)
    ensures expected != "" ==> (r.None? <==> header == Some(expected) || token == Some(expected))
    ensures expected != "" && r.Some? ==> r == Some(Unauthorized)
  {
    if expected == "" then Some(NotConfigured)
    else if header != Some(expected) && token != Some(expected) then Some(Unauthorized)
    else None
  }

  /** Without a query token the dashboard decides exactly as the ingest
      key check does, and a token only ever admits more requests. */
  lemma TokenOnlyWidens(expected: string, header: Option<string>, token: Option<string>)
    ensures Authorize(expected, header, None) == RequireApiKey(expected, header)
    ensures RequireApiKey(expected, header).None? ==> Authorize(expected, header, token).None?
  {
  }

  // ---------------------------------------------------------------------
  // Rendering rows.

  /** One `<td>` per cell, text inserted as is. */
  function RenderCells(row: seq<string>): string {
    if row == [] then "" else "<td>" + row[0] + "</td>" + RenderCells(row[1..])
  }

  /** `render_rows`: one `<tr>` per row, concatenated. */
  function RenderRows(rows: seq<seq<string>>): string {
    if rows == [] then "" else "<tr>" + RenderCells(rows[0]) + "</tr>" + RenderRows(rows[1..])
  }

  /** Reads the cells of one row up to its `</tr>`, returning them and the
      text after it. */
  function ParseRowBody(s: string): (r: Option<(seq<string>, string)>)
    ensures r.Some? ==> |r.value.1| < |s|
    decreases |s|
  {
    if StartsWith(s, "</tr>") then Some(([], s[5..]))
    else if StartsWith(s, "<td>") then
      var body := s[4..];
      var k := IndexOf(body, '<');
      var rest := body[k..];
      if StartsWith(rest, "</td>") then
        match ParseRowBody(rest[5..])
        case Some((cells, after)) => Some(([body[..k]] + cells, after))
        case None => None
      else None
    else None
  }

  /** Reads back a sequence of rendered rows. */
  function ParseRows(s: string): (r: Option<seq<seq<string>>>)
    decreases |s|
  {
    if s == [] then Some([])
    else if StartsWith(s, "<tr>") then
      match ParseRowBody(s[4..])
      case Some((cells, rest)) =>
        (match ParseRows(rest)
         case Some(rows) => Some([cells] + rows)
         case None => None)
      case None => None
    else None
  }

  /** No cell text contains a `<`. */
  predicate PlainCells(rows: seq<seq<string>>) {
    forall i, j :: 0 <= i < |rows| && 0 <= j < |rows[i]| ==> '<' !in rows[i][j]
  }

  predicate StartsWith(s: string, p: string) {
    |p| <= |s| && s[..|p|] == p
  }

  lemma Prefix(p: string, x: string)
    ensures StartsWith(p + x, p) && (p + x)[|p|..] == x
  {
    assert (p + x)[..|p|] == p;
  }

  /** One cell is read off the front and parsing continues after its
      `</td>`. */
  lemma CellStep(c: string, more: string)
    requires '<' !in c
    ensures ParseRowBody("<td>" + c + "</td>" + more) ==
      match ParseRowBody(more)
      case Some((cells, after)) => Some(([c] + cells, after))
      case None => None
  {
    var body := c + ("</td>" + more);
    var s := "<td>" + c + "</td>" + more;
    assert s == "<td>" + body by {
      Assoc("<td>", c, "</td>");
      Assoc("<td>", c + "</td>", more);
      Assoc(c, "</td>", more);
    }
    Prefix("<td>", body);
    assert !StartsWith(s, "</tr>") by {
      assert s[1] == 't';
    }
    assert IndexOf(body, '<') == |c| by {
      IndexOfAfter(c, '<', "</td>" + more);
    }
    assert body[..|c|] == c;
    Prefix(c, "</td>" + more);
    Prefix("</td>", more);
  }

  /** The end of a row. */
  lemma RowEnd(tail: string)
    ensures ParseRowBody("</tr>" + tail) == Some(([], tail))
  {
    Prefix("</tr>", tail);
  }

  predicate PlainRow(row: seq<string>) {
    forall j :: 0 <= j < |row| ==> '<' !in row[j]
  }

  lemma CellsCons(c: string, cs: seq<string>)
    ensures RenderCells([c] + cs) == "<td>" + c + "</td>" + RenderCells(cs)
  {
    assert ([c] + cs)[1..] == cs;
  }

  /** A row with one more cell in front parses to that cell followed by
      what the rest parses to. */
  lemma RowBodyCons(c: string, cs: seq<string>, tail: string)
    requires '<' !in c
    requires ParseRowBody(RenderCells(cs) + "</tr>" + tail) == Some((cs, tail))
    ensures ParseRowBody(RenderCells([c] + cs) + "</tr>" + tail) == Some(([c] + cs, tail))
  {
    var p := "<td>" + c + "</td>";
    var rc := RenderCells(cs);
    CellsCons(c, cs);
    Assoc(p, rc, "</tr>");
    Assoc(p, rc + "</tr>", tail);
    CellStep(c, rc + "</tr>" + tail);
  }

  lemma {:induction false} RowBodyRoundTrip(row: seq<string>, tail: string)
    requires PlainRow(row)
    ensures ParseRowBody(RenderCells(row) + "</tr>" + tail) == Some((row, tail))
    decreases |row|
  {
    if row == [] {
      assert RenderCells(row) + "</tr>" + tail == "</tr>" + tail;
      RowEnd(tail);
    } else {
      assert PlainRow(row[1..]) by {
        assert forall j :: 0 <= j < |row[1..]| ==> row[1..][j] == row[j + 1];
      }
      RowBodyRoundTrip(row[1..], tail);
      RowBodyCons(row[0], row[1..], tail);
      assert [row[0]] + row[1..] == row;
    }
  }

  /** The first row of plain rows is plain, and so are the others. */
  lemma PlainCellsSplit(rows: seq<seq<string>>)
    requires PlainCells(rows) && rows != []
    ensures PlainRow(rows[0]) && PlainCells(rows[1..])
  {
    forall i, j | 0 <= i < |rows[1..]| && 0 <= j < |rows[1..][i]|
      ensures '<' !in rows[1..][i][j]
    {
      assert rows[1..][i] == rows[i + 1];
    }
  }

  /** One more plain row in front of rows that read back. */
  lemma RowsStep(row: seq<string>, rest: seq<seq<string>>)
    requires PlainRow(row)
    requires ParseRows(RenderRows(rest)) == Some(rest)
    ensures ParseRows("<tr>" + (RenderCells(row) + "</tr>" + RenderRows(rest))) == Some([row] + rest)
  {
    var inner := RenderCells(row) + "</tr>" + RenderRows(rest);
    Prefix("<tr>", inner);
    RowBodyRoundTrip(row, RenderRows(rest));
  }

  /** Rows whose cells contain no `<` are recovered exactly from the
      rendered text: the page shows every row and every cell, in order. */
  lemma {:induction false} RenderRowsRoundTrip(rows: seq<seq<string>>)
    requires PlainCells(rows)
    ensures ParseRows(RenderRows(rows)) == Some(rows)
    decreases |rows|
  {
    if rows != [] {
      PlainCellsSplit(rows);
      RenderRowsRoundTrip(rows[1..]);
      assert RenderRows(rows) == "<tr>" + (RenderCells(rows[0]) + "</tr>" + RenderRows(rows[1..]));
      RowsStep(rows[0], rows[1..]);
      assert [rows[0]] + rows[1..] == rows;
    }
  }

  lemma OneRow(row: seq<string>)
    ensures RenderRows([row]) == "<tr>" + RenderCells(row) + "</tr>"
  {
    assert [row][1..] == [];
  }

  lemma OneCell(c: string)
    ensures RenderCells([c]) == "<td>" + c + "</td>"
  {
    assert [c][1..] == [];
  }

  /** Cell text is not escaped, so a cell holding markup renders the same
      as two cells: the page does not always show the rows it was given. */
  lemma CellsAreNotEscaped()
    ensures RenderRows([["a</td><td>b"]]) == RenderRows([["a", "b"]])
  {
    OneRow(["a</td><td>b"]);
    OneRow(["a", "b"]);
    OneCell("a</td><td>b");
    OneCell("b");
    assert ["a", "b"][1..] == ["b"];
    assert RenderCells(["a", "b"]) == "<td>a</td>" + RenderCells(["b"]);
  }

  // ---------------------------------------------------------------------
  // The page and the route.

  datatype Tables = Tables(vitals: seq<seq<string>>, locations: seq<seq<string>>, events: seq<seq<string>>)

  /** A table heading row. */
  function HeadingCells(cols: seq<string>): string {
    if cols == [] then "" else "<th>" + cols[0] + "</th>" + HeadingCells(cols[1..])
  }

  function Section(name: string, cols: seq<string>, rows: seq<seq<string>>): string {
    "<h2>" + name + "</h2><table><tr>" + HeadingCells(cols) + "</tr>" + RenderRows(rows) + "</table>"
  }

  /** The page: one section per table, each heading followed by that
      table's rendered rows. */
  function Page(t: Tables): string {
    "<h1>LAMP Ingestion Dashboard</h1>"
      + Section("sensor_vitals", ["time", "device_id", "metric_type", "val"], t.vitals)
      + Section("sensor_location", ["time", "device_id", "coords", "accuracy"], t.locations)
      + Section("user_events", ["time", "device_id", "event_type", "label", "duration_sec", "metadata"], t.events)
  }

  datatype DashboardReply = Html(page: string) | DashboardFailed(error: HttpError)

  const Unavailable: HttpError := HttpError(503, "Dashboard unavailable")

  /** `GET /dashboard`: the access check, then the queries; any database
      failure becomes 503. */
  function DashboardRoute(expected: string, header: Option<string>, token: Option<string>, db: Option<Tables>): (r: DashboardReply)
    ensures r.Html? <==> Authorize(expected, header, token).None? && db.Some?
    ensures r.Html? ==> r.page == Page(db.value)
    ensures r.DashboardFailed? && db.Some? ==> r.error.status in {401, 500}
  {
    match Authorize(expected, header, token)
    case Some(e) => DashboardFailed(e)
    case None =>
      match db
      case None => DashboardFailed(Unavailable)
      case Some(t) => Html(Page(t))
  }

  /** The access check comes first: a refused request gets the same answer
      whether or not the database is reachable, and never a 503. */
  lemma AuthBeforeDatabase(expected: string, header: Option<string>, token: Option<string>, db1: Option<Tables>, db2: Option<Tables>)
    requires Authorize(expected, header, token).Some?
    ensures DashboardRoute(expected, header, token, db1) == DashboardRoute(expected, header, token, db2)
    ensures DashboardRoute(expected, header, token, db1).error.status != 503
  {
  }
}

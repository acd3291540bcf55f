/** The user directory read from the spreadsheet (`loadGoogleSheetsData`):
    the rows of the sheet, the header skipped, the first cell of every
    other row kept when it is not blank; any failure falls back to a fixed
    list of sample handles. */
module Directory {
  import opened Wrappers

  /** One spreadsheet row. The Sheets API leaves out trailing empty cells,
      so a row may have no first cell at all. */
  type Row = seq<string>

  /** Outcome of the Sheets request: it failed (API not loaded, network,
      HTTP error), or it answered with a `values` field that may be absent. */
  datatype SheetResponse = Failed | Answered(values: Option<seq<Row>>)

  const Fallback: seq<string> := ["tourist", "Petr", "Egor", "rng_58", "ACRush"]

  /** The characters JavaScript's `String.prototype.trim` removes: the
      WhiteSpace and LineTerminator code points of ECMAScript. */
  predicate IsWhitespace(c: char)
  {
    || c == '\t' || c == '\n' || c == '\U{000B}' || c == '\U{000C}' || c == '\r' || c == ' '
    || c == '\U{00A0}' || c == '\U{1680}' || ('\U{2000}' <= c <= '\U{200A}')
    || c == '\U{2028}' || c == '\U{2029}' || c == '\U{202F}' || c == '\U{205F}'
    || c == '\U{3000}' || c == '\U{FEFF}'
  }

  predicate Blank(s: string)
  {
    forall i :: 0 <= i < |s| ==> IsWhitespace(s[i])
  }

  /** `s` with leading whitespace removed. */
  function TrimStart(s: string): (r: string)
    ensures |r| <= |s| && r == s[|s| - |r|..]
    ensures Blank(s[..|s| - |r|])
    ensures r == [] || !IsWhitespace(r[0])
  {
    if s != [] && IsWhitespace(s[0]) then TrimStart(s[1..]) else s
  }

  /** `s` with trailing whitespace removed. */
  function TrimEnd(s: string): (r: string)
    ensures |r| <= |s| && r == s[..|r|]
    ensures Blank(s[|r|..])
    ensures r == [] || !IsWhitespace(r[|r| - 1])
  {
    if s != [] && IsWhitespace(s[|s| - 1]) then TrimEnd(s[..|s| - 1]) else s
  }

  /** `String.prototype.trim`: the cell with whitespace removed at both
      ends. */
  function Trim(s: string): (t: string)
    ensures t != "" ==> !IsWhitespace(t[0]) && !IsWhitespace(t[|t| - 1])
  {
    var l := TrimStart(s);
    var t := TrimEnd(l);
    assert t != "" ==> t[0] == l[0];
    t
  }

  /** Trimming cuts a blank prefix and a blank suffix off the cell and
      keeps the middle unchanged. */
  lemma TrimSlice(s: string)
    ensures exists i, j :: 0 <= i <= j <= |s| && Trim(s) == s[i..j] && Blank(s[..i]) && Blank(s[j..])
  {
    var l := TrimStart(s);
    var t := TrimEnd(l);
    var i, j := |s| - |l|, |s| - |l| + |t|;
    assert t == s[i..j] by {
      assert l == s[i..] && t == l[..|t|];
    }
    assert Blank(s[j..]) by {
      assert s[j..] == l[|t|..];
    }
    assert Blank(s[..i]);
  }

  /** A cell is kept by the source's `username && username.trim()` exactly
      when trimming leaves something. */
  lemma TrimEmptyIffBlank(s: string)
    ensures Trim(s) == "" <==> Blank(s)
  {
  }

  /** The row contributes a handle: it has a first cell that is not blank. */
  predicate Keeps(row: Row)
    ensures Keeps(row) <==> |row| > 0 && !Blank(row[0])
  {
    TrimEmptyIffBlank(if |row| > 0 then row[0] else "");
    |row| > 0 && Trim(row[0]) != ""
  }

  /** First cells of the kept rows, untrimmed, in order. */
  function KeptNames(rows: seq<Row>): (names: seq<string>)
    ensures |names| <= |rows|
    ensures forall i :: 0 <= i < |names| ==> !Blank(names[i])
  {
    if rows == [] then []
    else
      (if Keeps(rows[0]) then [rows[0][0]] else []) + KeptNames(rows[1..])
  }

  /** KeptNames works row by row: it maps concatenated sheets to
      concatenated name lists, so the sheet's order is kept. */
  lemma {:induction false} KeptNamesAppend(a: seq<Row>, b: seq<Row>)
    ensures KeptNames(a + b) == KeptNames(a) + KeptNames(b)
  {
    if a == [] {
      assert a + b == b;
    } else {
      assert (a + b)[1..] == a[1..] + b;
      KeptNamesAppend(a[1..], b);
    }
  }

  /** A handle is listed exactly when some row has it as a first cell that
      is not blank. */
  lemma {:induction false} KeptNamesMembers(rows: seq<Row>, name: string)
    ensures name in KeptNames(rows)
      <==> exists i :: 0 <= i < |rows| && |rows[i]| > 0 && rows[i][0] == name && !Blank(rows[i][0])
  {
    if rows != [] {
      KeptNamesMembers(rows[1..], name);
      TrimEmptyIffBlank(if |rows[0]| > 0 then rows[0][0] else "");
      if name in KeptNames(rows[1..]) {
        var i :| 0 <= i < |rows[1..]| && |rows[1..][i]| > 0 && rows[1..][i][0] == name && !Blank(rows[1..][i][0]);
        assert rows[i + 1] == rows[1..][i];
      }
      if exists i :: 0 <= i < |rows| && |rows[i]| > 0 && rows[i][0] == name && !Blank(rows[i][0]) {
        var i :| 0 <= i < |rows| && |rows[i]| > 0 && rows[i][0] == name && !Blank(rows[i][0]);
        if i > 0 {
          assert rows[1..][i - 1] == rows[i];
        }
      }
    }
  }

  /** The read gave nothing to parse: the request failed, or `values` is
      absent or empty. The source throws or catches here and falls back. */
  predicate UsesFallback(response: SheetResponse)
    ensures !UsesFallback(response) ==> response.Answered? && response.values.Some? && |response.values.value| >= 1
  {
    response.Failed? || response.values.None? || response.values.value == []
  }

  /** The handles the directory ends up with. */
  function Users(response: SheetResponse): (users: seq<string>)
    ensures forall i :: 0 <= i < |users| ==> !Blank(users[i])
    ensures !UsesFallback(response) ==> |users| < |response.values.value|
  {
    assert forall i :: 0 <= i < |Fallback| ==> !IsWhitespace(Fallback[i][0]);
    if UsesFallback(response) then Fallback else KeptNames(response.values.value[1..])
  }

  /** A sheet that was read, however few usable rows it has, never falls
      back: its header is skipped and every later row is judged on its own;
      a header-only sheet gives no handles at all. */
  lemma {:induction false} SheetUsers(header: Row, body: seq<Row>)
    ensures var users := Users(Answered(Some([header] + body)));
      && !UsesFallback(Answered(Some([header] + body)))
      && users == KeptNames(body)
      && (body == [] ==> users == [])
      && |users| <= |body|
  {
    assert ([header] + body)[1..] == body;
  }
}

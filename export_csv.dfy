/** The CSV text built by client/src/utils/exportCSV.js: the header line is
    the headers joined by commas, unquoted; each data field is quoted as
    rule 7 of section 2 of RFC 4180 asks (the field enclosed in double
    quotes, each double quote inside it doubled); lines are joined by a line
    feed, with none after the last. The download through a Blob and a link
    is left to the browser. */
module ExportCsv {
  import opened Common

  /** `parts.join(sep)`. */
  function Join(parts: seq<string>, sep: string): string {
    if |parts| == 0 then ""
    else if |parts| == 1 then parts[0]
    else parts[0] + sep + Join(parts[1..], sep)
  }

  /** `v.replace(/"/g, '""')`: every double quote doubled. */
  function DoubleQuotes(v: string): (r: string)
    ensures |r| >= |v|
  {
    if v == "" then ""
    else (if v[0] == '"' then "\"\"" else [v[0]]) + DoubleQuotes(v[1..])
  }

  /** One data field as the export writes it. */
  function EscapeField(v: string): (r: string)
    ensures |r| >= 2 && r[0] == '"' && r[|r| - 1] == '"'
  {
    "\"" + DoubleQuotes(v) + "\""
  }

  /** Reads the inside of a quoted field up to its closing quote: a doubled
      quote stands for one quote, a single quote closes the field. Answers
      the field's value and what follows the closing quote, or `None` when
      the field is not closed. */
  function ReadQuoted(s: string): Option<(string, string)> {
    if s == "" then None
    else if s[0] == '"' && |s| >= 2 && s[1] == '"' then
      match ReadQuoted(s[2..])
      case None => None
      case Some(p) => Some(("\"" + p.0, p.1))
    else if s[0] == '"' then Some(("", s[1..]))
    else
      match ReadQuoted(s[1..])
      case None => None
      case Some(p) => Some(([s[0]] + p.0, p.1))
  }

  /** Reads one quoted field at the start of `s`. */
  function ReadField(s: string): Option<(string, string)> {
    if s != "" && s[0] == '"' then ReadQuoted(s[1..]) else None
  }

  /** The quoted text of `v`, followed by anything that does not start with
      a quote, reads back as `v` and leaves the rest. */
  lemma {:induction false} ReadQuotedDoubled(v: string, rest: string)
    requires rest == "" || rest[0] != '"'
    ensures ReadQuoted(DoubleQuotes(v) + "\"" + rest) == Some((v, rest))
  {
    var s := DoubleQuotes(v) + "\"" + rest;
    if v == "" {
      assert s == "\"" + rest;
      assert s[1..] == rest;
    } else if v[0] == '"' {
      ReadQuotedDoubled(v[1..], rest);
      assert s == "\"\"" + (DoubleQuotes(v[1..]) + "\"" + rest);
      assert s[2..] == DoubleQuotes(v[1..]) + "\"" + rest;
      assert "\"" + v[1..] == v;
    } else {
      ReadQuotedDoubled(v[1..], rest);
      assert s == [v[0]] + (DoubleQuotes(v[1..]) + "\"" + rest);
      assert s[1..] == DoubleQuotes(v[1..]) + "\"" + rest;
      assert [v[0]] + v[1..] == v;
    }
  }

  /** The escaping is invertible: an escaped field reads back as the value
      it was made from. */
  lemma EscapeFieldRoundTrip(v: string, rest: string)
    requires rest == "" || rest[0] != '"'
    ensures ReadField(EscapeField(v) + rest) == Some((v, rest))
  {
    ReadQuotedDoubled(v, rest);
    assert (EscapeField(v) + rest)[1..] == DoubleQuotes(v) + "\"" + rest;
  }

  /** Two different values never escape to the same field. */
  lemma EscapeFieldInjective(v: string, w: string)
    requires EscapeField(v) == EscapeField(w)
    ensures v == w
  {
    EscapeFieldRoundTrip(v, "");
    EscapeFieldRoundTrip(w, "");
  }

  /** One data line: the fields escaped and joined by commas. */
  function RowLine(row: seq<string>): string {
    Join(seq(|row|, i requires 0 <= i < |row| => EscapeField(row[i])), ",")
  }

  /** Reads a data line back: quoted fields separated by commas. */
  function ReadRow(s: string): Option<seq<string>>
    decreases |s|
  {
    match ReadField(s)
    case None => None
    case Some(p) =>
      if p.1 == "" then Some([p.0])
      else if p.1[0] == ',' && |p.1| < |s| then
        match ReadRow(p.1[1..])
        case None => None
        case Some(more) => Some([p.0] + more)
      else None
  }

  /** A data line with at least one field reads back as its fields, commas
      and quotes inside the fields notwithstanding. */
  lemma {:induction false} RowLineRoundTrip(row: seq<string>)
    requires |row| >= 1
    ensures ReadRow(RowLine(row)) == Some(row)
  {
    var cells := seq(|row|, i requires 0 <= i < |row| => EscapeField(row[i]));
    if |row| == 1 {
      assert RowLine(row) == EscapeField(row[0]) + "";
      EscapeFieldRoundTrip(row[0], "");
      assert ReadField(RowLine(row)) == Some((row[0], ""));
      assert [row[0]] == row;
    } else {
      var tail := RowLine(row[1..]);
      assert cells[1..] == seq(|row| - 1, i requires 0 <= i < |row| - 1 => EscapeField(row[1..][i]));
      assert RowLine(row) == EscapeField(row[0]) + ("," + tail);
      EscapeFieldRoundTrip(row[0], "," + tail);
      RowLineRoundTrip(row[1..]);
      assert ("," + tail)[1..] == tail;
      assert [row[0]] + row[1..] == row;
    }
  }

  /** The file `exportCSV({ headers, rows })` downloads, or `None` when there
      is no row and nothing is downloaded. The header line comes first,
      unquoted, then a line feed, then the data lines separated by line
      feeds. */
  function CsvContent(headers: seq<string>, rows: seq<seq<string>>): (r: Option<string>)
    ensures r.None? <==> |rows| == 0
    ensures r.Some? ==>
      var h := Join(headers, ",");
      |r.value| > |h| && r.value[..|h| + 1] == h + "\n"
  {
    if |rows| == 0 then None
    else Some(Join(headers, ",") + "\n" + Join(seq(|rows|, i requires 0 <= i < |rows| => RowLine(rows[i])), "\n"))
  }

  /** The text ends with the last data line, not with a line feed: when the
      last row has a field, the text's last character is that field's
      closing quote. */
  lemma {:induction false} CsvEndsWithLastRow(headers: seq<string>, rows: seq<seq<string>>)
    requires |rows| >= 1 && |rows[|rows| - 1]| >= 1
    ensures var c := CsvContent(headers, rows).value; c[|c| - 1] == '"'
  {
    var lines := seq(|rows|, i requires 0 <= i < |rows| => RowLine(rows[i]));
    JoinEndsWithLast(lines, "\n");
    RowLineEndsWithQuote(rows[|rows| - 1]);
  }

  /** A join of at least one part ends with the last part. */
  lemma {:induction false} JoinEndsWithLast(parts: seq<string>, sep: string)
    requires |parts| >= 1
    ensures var j := Join(parts, sep); |j| >= |parts[|parts| - 1]| && j[|j| - |parts[|parts| - 1]|..] == parts[|parts| - 1]
  {
    if |parts| > 1 {
      JoinEndsWithLast(parts[1..], sep);
      var last := parts[|parts| - 1];
      var t := Join(parts[1..], sep);
      var j := parts[0] + sep + t;
      assert j[|j| - |last|..] == t[|t| - |last|..];
    }
  }

  /** A data line with a field ends with a closing quote. */
  lemma RowLineEndsWithQuote(row: seq<string>)
    requires |row| >= 1
    ensures var l := RowLine(row); |l| >= 1 && l[|l| - 1] == '"'
  {
    var cells := seq(|row|, i requires 0 <= i < |row| => EscapeField(row[i]));
    JoinEndsWithLast(cells, ",");
    var l := RowLine(row);
    var last := cells[|cells| - 1];
    assert l[|l| - |last|..][|last| - 1] == last[|last| - 1];
  }
}

/** CSV export, against the grammar in section 2 of RFC 4180. */
module Csv {
  import opened Prelude

  // ---- The writer --------------------------------------------------------------------------

  predicate Special(c: char) {
    c == '"' || c == ',' || c == '\r' || c == '\n'
  }

  function DoubleQuotes(t: string): string {
    if t == [] then "" else (if t[0] == '"' then "\"\"" else [t[0]]) + DoubleQuotes(t[1..])
  }

  function Escape(t: string): string {
    if exists i :: 0 <= i < |t| && Special(t[i]) then "\"" + DoubleQuotes(t) + "\"" else t
  }

  function Line(cells: seq<string>): string {
    Join(",", seq(|cells|, i requires 0 <= i < |cells| => Escape(cells[i])))
  }

  const BOM: char := '\U{FEFF}'

  /** `toCsv`, on the texts of the header cells and of the cells of each row. */
  function ToCsv(header: seq<string>, rows: seq<seq<string>>): string {
    var lines := [Line(header)] + seq(|rows|, i requires 0 <= i < |rows| => Line(rows[i]));
    [BOM] + Join("\r\n", lines) + "\r\n"
  }

  // ---- The reader --------------------------------------------------------------------------

  /** A field without quotes: everything up to a special character. */
  function PlainField(s: string): (r: (string, string))
    ensures r.0 + r.1 == s
  {
    if s == [] || Special(s[0]) then ("", s)
    else
      var (field, rest) := PlainField(s[1..]);
      AppendAssociates([s[0]], field, rest);
      ([s[0]] + field, rest)
  }

  /** The inside of a quoted field, behind the opening quote. */
  function QuotedField(s: string): (r: Option<(string, string)>)
    ensures r.Some? ==> |r.value.1| < |s|
  {
    if s == [] then None
    else if s[0] != '"' then
      match QuotedField(s[1..])
      case None => None
      case Some((field, rest)) => Some(([s[0]] + field, rest))
    else if |s| > 1 && s[1] == '"' then
      match QuotedField(s[2..])
      case None => None
      case Some((field, rest)) => Some((['"'] + field, rest))
    else Some(("", s[1..]))
  }

  function ReadField(s: string): (r: Option<(string, string)>)
    ensures r.Some? ==> |r.value.1| <= |s|
  {
    if s != [] && s[0] == '"' then QuotedField(s[1..]) else Some(PlainField(s))
  }

  predicate AtLineEnd(s: string) {
    s == "" || "\r\n" <= s
  }

  /** Fields separated by commas, up to a line break or the end. */
  function ReadRecord(s: string): (r: Option<(seq<string>, string)>)
    ensures r.Some? ==> |r.value.1| <= |s| && AtLineEnd(r.value.1)
    decreases |s|
  {
    match ReadField(s)
    case None => None
    case Some((field, rest)) =>
      if rest != [] && rest[0] == ',' then
        match ReadRecord(rest[1..])
        case None => None
        case Some((fields, end)) => Some(([field] + fields, end))
      else if AtLineEnd(rest) then Some(([field], rest))
      else None
  }

  /** Records separated by line breaks; the last line break is optional. None for text outside the grammar. */
  function ReadFile(s: string): Option<seq<seq<string>>>
    decreases |s|
  {
    match ReadRecord(s)
    case None => None
    case Some((record, rest)) =>
      if |rest| <= 2 then Some([record])
      else
        match ReadFile(rest[2..])
        case None => None
        case Some(records) => Some([record] + records)
  }

  /** Reads a file that may begin with a byte order mark. */
  function ReadCsv(s: string): Option<seq<seq<string>>> {
    ReadFile(if s != [] && s[0] == BOM then s[1..] else s)
  }

  /** A file without a byte order mark is read from its first character on. */
  lemma {:induction false} ReadWithoutMark(s: string)
    requires s == "" || s[0] != '\U{FEFF}'
    ensures ReadCsv(s) == ReadFile(s)
  {
  }

  // ---- Round trip --------------------------------------------------------------------------

  /** A field ends where `rest` begins. */
  predicate FieldEnd(rest: string) {
    AtLineEnd(rest) || (rest != [] && rest[0] == ',')
  }

  lemma {:induction false} PlainRoundTrip(t: string, rest: string)
    requires FieldEnd(rest) && forall i :: 0 <= i < |t| ==> !Special(t[i])
    ensures PlainField(t + rest) == (t, rest)
  {
    if t == [] {
      assert t + rest == rest;
    } else {
      var s := t + rest;
      assert s[0] == t[0] && s[1..] == t[1..] + rest;
      PlainRoundTrip(t[1..], rest);
      assert [t[0]] + t[1..] == t;
    }
  }

  lemma {:induction false} QuotedRoundTrip(t: string, rest: string)
    requires rest == [] || rest[0] != '"'
    ensures QuotedField(DoubleQuotes(t) + "\"" + rest) == Some((t, rest))
  {
    var s := DoubleQuotes(t) + "\"" + rest;
    if t == [] {
      assert s == ['"'] + rest;
      assert s[1..] == rest;
    } else {
      var tail := DoubleQuotes(t[1..]) + "\"" + rest;
      QuotedRoundTrip(t[1..], rest);
      SplitFirst(t);
      if t[0] == '"' {
        assert s == ['"', '"'] + tail;
        assert s[2..] == tail;
      } else {
        assert s == [t[0]] + tail;
        assert s[1..] == tail;
      }
    }
  }

  /** Only fields with a quote, a comma or a line break are quoted; all others are written as they are. */
  lemma {:induction false} QuotedIff(t: string)
    ensures Escape(t) == t <==> forall i :: 0 <= i < |t| ==> t[i] != '"' && t[i] != ',' && t[i] != '\r' && t[i] != '\n'
    ensures Escape(t) != t ==> |Escape(t)| >= |t| + 2 && Escape(t)[0] == '"' && Escape(t)[|Escape(t)| - 1] == '"'
  {
    assert forall i :: 0 <= i < |t| ==> (Special(t[i]) <==> t[i] == '"' || t[i] == ',' || t[i] == '\r' || t[i] == '\n');
    DoubledLength(t);
  }

  lemma {:induction false} DoubledLength(t: string)
    ensures |DoubleQuotes(t)| >= |t|
  {
    if t != [] {
      DoubledLength(t[1..]);
    }
  }

  lemma {:induction false} FieldRoundTrip(t: string, rest: string)
    requires FieldEnd(rest)
    ensures ReadField(Escape(t) + rest) == Some((t, rest))
  {
    if exists i :: 0 <= i < |t| && Special(t[i]) {
      var s := Escape(t) + rest;
      assert s == ['"'] + (DoubleQuotes(t) + "\"" + rest);
      QuotedRoundTrip(t, rest);
    } else {
      PlainRoundTrip(t, rest);
      assert t != [] ==> (t + rest)[0] == t[0];
      assert t == [] ==> t + rest == rest;
    }
  }

  lemma {:induction false} LineStep(cells: seq<string>)
    requires |cells| > 1
    ensures Line(cells) == Escape(cells[0]) + "," + Line(cells[1..])
  {
    var escaped := seq(|cells|, i requires 0 <= i < |cells| => Escape(cells[i]));
    assert escaped[1..] == seq(|cells[1..]|, i requires 0 <= i < |cells[1..]| => Escape(cells[1..][i]));
  }

  lemma {:induction false} RecordRoundTrip(cells: seq<string>, rest: string)
    requires cells != [] && AtLineEnd(rest)
    ensures ReadRecord(Line(cells) + rest) == Some((cells, rest))
  {
    hide Line, Escape, ReadField;
    if |cells| == 1 {
      FieldRoundTrip(cells[0], rest);
      LineOfOne(cells[0]);
      assert cells == [cells[0]];
    } else {
      LineStep(cells);
      var tail := Line(cells[1..]) + rest;
      RecordRoundTrip(cells[1..], rest);
      FieldRoundTrip(cells[0], "," + tail);
      assert Line(cells) + rest == Escape(cells[0]) + ("," + tail);
      assert ("," + tail)[1..] == tail;
      assert cells == [cells[0]] + cells[1..];
    }
  }

  lemma {:induction false} LineOfOne(cell: string)
    ensures Line([cell]) == Escape(cell)
  {
  }

  /** Lines of text, each ended by a line break. */
  function Text(table: seq<seq<string>>): string {
    if table == [] then "" else Line(table[0]) + "\r\n" + Text(table[1..])
  }

  lemma {:induction false} TextIsJoined(table: seq<seq<string>>)
    requires table != []
    ensures Text(table) == Join("\r\n", seq(|table|, i requires 0 <= i < |table| => Line(table[i]))) + "\r\n"
  {
    var lines := seq(|table|, i requires 0 <= i < |table| => Line(table[i]));
    if |table| == 1 {
      assert table[1..] == [];
      assert Text(table) == Line(table[0]) + "\r\n" + "";
    } else {
      TextIsJoined(table[1..]);
      assert lines[1..] == seq(|table[1..]|, i requires 0 <= i < |table[1..]| => Line(table[1..][i]));
    }
  }

  lemma {:induction false} FileStep(s: string, record: seq<string>, more: string)
    requires ReadRecord(s) == Some((record, "\r\n" + more))
    ensures more == "" ==> ReadFile(s) == Some([record])
    ensures more != "" && ReadFile(more).Some? ==> ReadFile(s) == Some([record] + ReadFile(more).value)
  {
    hide ReadRecord;
    assert ("\r\n" + more)[2..] == more;
  }

  lemma {:induction false} TextNonEmpty(table: seq<seq<string>>)
    ensures Text(table) == "" <==> table == []
  {
    hide Line;
  }

  lemma {:induction false} TextStep(table: seq<seq<string>>)
    requires table != []
    ensures Text(table) == Line(table[0]) + ("\r\n" + Text(table[1..]))
  {
    hide Line;
    AppendAssociates(Line(table[0]), "\r\n", Text(table[1..]));
  }

  lemma {:induction false} TextRoundTrip(table: seq<seq<string>>)
    requires table != [] && forall i :: 0 <= i < |table| ==> table[i] != []
    ensures ReadFile(Text(table)) == Some(table)
  {
    TextStep(table);
    hide ReadRecord, Line, ReadFile, Text;
    var more := Text(table[1..]);
    RecordRoundTrip(table[0], "\r\n" + more);
    FileStep(Text(table), table[0], more);
    TextNonEmpty(table[1..]);
    if |table| == 1 {
      assert table == [table[0]] && table[1..] == [];
    } else {
      assert table == [table[0]] + table[1..];
      TextRoundTrip(table[1..]);
    }
  }

  /** A table without columns reads back as lines with one empty cell. */
  lemma {:induction false} NoColumns(table: seq<seq<string>>)
    requires table != [] && forall i :: 0 <= i < |table| ==> table[i] == []
    ensures ReadFile(Text(table)) != Some(table)
  {
    var rest := "\r\n" + Text(table[1..]);
    assert Line(table[0]) == "";
    assert Text(table) == rest;
    assert Escape("") == "";
    FieldRoundTrip("", rest);
    assert "" + rest == rest;
    assert ReadRecord(rest) == Some(([""], rest));
  }

  /** The written text reads back as the header row followed by every data row, cell for cell, exactly
      when there is at least one column. */
  lemma {:induction false} CsvRoundTripIff(header: seq<string>, rows: seq<seq<string>>)
    requires forall i :: 0 <= i < |rows| ==> |rows[i]| == |header|
    ensures ReadCsv(ToCsv(header, rows)) == Some([header] + rows) <==> header != []
    ensures ToCsv(header, rows)[0] == '\U{FEFF}'
  {
    var table := [header] + rows;
    var lines := seq(|table|, i requires 0 <= i < |table| => Line(table[i]));
    assert lines == [Line(header)] + seq(|rows|, i requires 0 <= i < |rows| => Line(rows[i]));
    TextIsJoined(table);
    assert ToCsv(header, rows) == [BOM] + Text(table);
    assert ToCsv(header, rows)[1..] == Text(table);
    if header != [] {
      TextRoundTrip(table);
    } else {
      NoColumns(table);
    }
  }
}

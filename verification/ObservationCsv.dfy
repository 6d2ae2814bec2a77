/** The text of the observation log (src/addrlog.rs), and that it can be read back. */
module ObservationCsv {
  import opened Base

  // ---- fields and rows ------------------------------------------------------------------------------

  predicate NeedsQuote(field: string) { ',' in field || '"' in field || '\r' in field || '\n' in field }

  function Doubled(field: string): string {
    if field == "" then ""
    else Doubled(field[..|field| - 1]) + Twice(field[|field| - 1])
  }

  function Twice(ch: char): string { if ch == '"' then ['"', '"'] else [ch] }

  function CsvField(field: string): string {
    if NeedsQuote(field) then ['"'] + Doubled(field) + ['"'] else field
  }

  function CsvFields(fields: seq<string>): string {
    if fields == [] then ""
    else if |fields| == 1 then CsvField(fields[0])
    else CsvFields(fields[..|fields| - 1]) + "," + CsvField(fields[|fields| - 1])
  }

  method PushCsvField(out: string, field: string) returns (r: string)
    ensures r == out + CsvField(field)
  {
    var quote := ['"'];
    if NeedsQuote(field) {
      r := out + quote;
      ghost var start := r;
      for i := 0 to |field|
        invariant r == start + Doubled(field[..i])
      {
        hide NeedsQuote;
        assert field[..i + 1][..i] == field[..i];
        ghost var before := r;
        if field[i] == '"' {
          r := r + quote;
        }
        r := r + [field[i]];
        assert r == before + Twice(field[i]);
        Assoc(start, Doubled(field[..i]), Twice(field[i]));
      }
      hide NeedsQuote, Doubled;
      assert field[..|field|] == field;
      Assoc(out, quote, Doubled(field));
      Assoc(out, quote + Doubled(field), quote);
      r := r + quote;
    } else {
      r := out + field;
    }
  }

  method PushCsvFields(out: string, fields: seq<string>) returns (r: string)
    ensures r == out + CsvFields(fields)
  {
    r := out;
    for i := 0 to |fields|
      invariant r == out + CsvFields(fields[..i])
    {
      assert fields[..i + 1][..i] == fields[..i];
      if i > 0 {
        r := r + ",";
      }
      r := PushCsvField(r, fields[i]);
    }
    assert fields[..|fields|] == fields;
  }

  // ---- a reader after RFC 4180, section 2, with '\n' ending each row -----------------------------------

  /** The rest of a quoted field: its text, and what follows the closing quote. */
  function ReadQuoted(s: string): (r: Option<(string, string)>)
    ensures r.Some? ==> |r.value.1| < |s|
  {
    if s == "" then None
    else if s[0] == '"' && (|s| == 1 || s[1] != '"') then Some(("", s[1..]))
    else
      match ReadQuoted(if s[0] == '"' then s[2..] else s[1..])
      case None => None
      case Some((field, rest)) => Some(([s[0]] + field, rest))
  }

  predicate Delimits(ch: char) { ch == ',' || ch == '\n' }

  function ReadPlain(s: string): (r: (string, string))
    ensures |r.1| <= |s|
  {
    if s == "" || Delimits(s[0]) then ("", s)
    else
      var (field, rest) := ReadPlain(s[1..]);
      ([s[0]] + field, rest)
  }

  function ReadField(s: string): (r: Option<(string, string)>)
    ensures r.Some? ==> |r.value.1| <= |s|
  {
    if s != "" && s[0] == '"' then ReadQuoted(s[1..])
    else if NeedsQuote(ReadPlain(s).0) then None
    else Some(ReadPlain(s))
  }

  function ReadRow(s: string): (r: Option<(seq<string>, string)>)
    ensures r.Some? ==> |r.value.1| < |s|
    decreases |s|
  {
    match ReadField(s)
    case None => None
    case Some((field, rest)) =>
      if rest == "" then None
      else if rest[0] == '\n' then Some(([field], rest[1..]))
      else if rest[0] != ',' then None
      else
        match ReadRow(rest[1..])
        case None => None
        case Some((fields, rest')) => Some(([field] + fields, rest'))
  }

  function ReadRows(s: string): Option<seq<seq<string>>>
    decreases |s|
  {
    if s == "" then Some([])
    else
      match ReadRow(s)
      case None => None
      case Some((row, rest)) =>
        match ReadRows(rest)
        case None => None
        case Some(rows) => Some([row] + rows)
  }

  // ---- reading undoes writing --------------------------------------------------------------------------

  lemma {:induction false} DoubledCons(ch: char, field: string)
    ensures Doubled([ch] + field) == Twice(ch) + Doubled(field)
  {
    hide Twice;
    if field == "" {
      assert [ch] + field == [ch];
      assert [ch][..0] == "";
    } else {
      var n := |field| - 1;
      DoubledCons(ch, field[..n]);
      assert ([ch] + field)[..n + 1] == [ch] + field[..n];
    }
  }

  /** `end` is a closing quote and what comes after it. */
  lemma {:induction false} QuotedThere(field: string, end: string)
    requires end != "" && end[0] == '"' && (|end| == 1 || end[1] != '"')
    ensures ReadQuoted(Doubled(field) + end) == Some((field, end[1..]))
  {
    if field == "" {
      assert Doubled(field) + end == end;
    } else {
      var ch, tail := field[0], field[1..];
      QuotedThere(tail, end);
      assert field == [ch] + tail;
      DoubledCons(ch, tail);
      hide Doubled;
      QuotedStep(ch, Doubled(tail) + end, tail, end[1..]);
      Assoc(Twice(ch), Doubled(tail), end);
    }
  }

  lemma QuotedStep(ch: char, s: string, field: string, rest: string)
    requires ReadQuoted(s) == Some((field, rest))
    ensures ReadQuoted(Twice(ch) + s) == Some(([ch] + field, rest))
  {
    assert (Twice(ch) + s)[|Twice(ch)|..] == s;
  }

  lemma {:induction false} PlainThere(field: string, rest: string)
    requires !NeedsQuote(field) && rest != "" && Delimits(rest[0])
    ensures ReadPlain(field + rest) == (field, rest)
  {
    if field == "" {
      assert field + rest == rest;
    } else {
      PlainThere(field[1..], rest);
      assert (field + rest)[1..] == field[1..] + rest;
      assert field == [field[0]] + field[1..];
    }
  }

  lemma FieldThere(field: string, rest: string)
    requires rest != "" && Delimits(rest[0])
    ensures ReadField(CsvField(field) + rest) == Some((field, rest))
  {
    hide Doubled, ReadQuoted;
    if NeedsQuote(field) {
      var end := ['"'] + rest;
      QuotedThere(field, end);
      assert (CsvField(field) + rest)[1..] == Doubled(field) + end;
    } else {
      hide NeedsQuote;
      PlainThere(field, rest);
      NoQuoteFirst(field, rest);
    }
  }

  lemma NoQuoteFirst(field: string, rest: string)
    requires !NeedsQuote(field) && rest != "" && Delimits(rest[0])
    ensures (field + rest)[0] != '"'
  {}

  lemma {:induction false} FieldsCons(first: string, others: seq<string>)
    requires others != []
    ensures CsvFields([first] + others) == CsvField(first) + "," + CsvFields(others)
  {
    hide CsvField;
    var n := |others| - 1;
    var all := [first] + others;
    assert all[..n + 1] == [first] + others[..n];
    if n == 0 {
      assert all[..1] == [first];
    } else {
      FieldsCons(first, others[..n]);
    }
  }

  function Line(row: seq<string>): string { CsvFields(row) + "\n" }

  /** A written row is read back, and what follows it is left. */
  lemma {:induction false} RowThere(row: seq<string>, rest: string)
    requires row != []
    ensures ReadRow(Line(row) + rest) == Some((row, rest))
    decreases |row|
  {
    hide ReadField, CsvField;
    if |row| == 1 {
      var tail := "\n" + rest;
      assert Line(row) + rest == CsvField(row[0]) + tail;
      FieldThere(row[0], tail);
      assert tail[0] == '\n' && tail[1..] == rest && [row[0]] == row;
    } else {
      var others := row[1..];
      assert row == [row[0]] + others;
      FieldsCons(row[0], others);
      var tail := Line(others) + rest;
      assert Line(row) + rest == CsvField(row[0]) + ("," + tail);
      FieldThere(row[0], "," + tail);
      assert ("," + tail)[1..] == tail;
      RowThere(others, rest);
    }
  }

  ghost predicate NoEmptyRow(rows: seq<seq<string>>) { forall i :: 0 <= i < |rows| ==> rows[i] != [] }

  function Lines(rows: seq<seq<string>>): string {
    if rows == [] then "" else Line(rows[0]) + Lines(rows[1..])
  }

  lemma {:induction false} RowsThere(rows: seq<seq<string>>)
    requires NoEmptyRow(rows)
    ensures ReadRows(Lines(rows)) == Some(rows)
  {
    hide ReadRow, Line;
    if rows != [] {
      RowThere(rows[0], Lines(rows[1..]));
      RowsThere(rows[1..]);
      assert rows == [rows[0]] + rows[1..];
    }
  }

  /** The lines of one table begin with the lines of another only when its rows do. */
  lemma {:induction false} LinesPrefix(rows: seq<seq<string>>, rows': seq<seq<string>>)
    requires NoEmptyRow(rows) && NoEmptyRow(rows') && Lines(rows) <= Lines(rows')
    ensures rows <= rows'
  {
    hide ReadRow, CsvFields;
    if rows != [] {
      assert Lines(rows) != "";
      var more := Lines(rows')[|Lines(rows)|..];
      assert Lines(rows') == Line(rows[0]) + (Lines(rows[1..]) + more);
      RowThere(rows[0], Lines(rows[1..]) + more);
      RowThere(rows'[0], Lines(rows'[1..]));
      LinesPrefix(rows[1..], rows'[1..]);
      assert rows == [rows[0]] + rows[1..] && rows' == [rows'[0]] + rows'[1..];
    }
  }

  lemma {:induction false} LinesConcat(a: seq<seq<string>>, b: seq<seq<string>>)
    ensures Lines(a + b) == Lines(a) + Lines(b)
  {
    hide Line;
    if a == [] {
      assert a + b == b;
    } else {
      LinesConcat(a[1..], b);
      assert (a + b)[1..] == a[1..] + b;
      Assoc(Line(a[0]), Lines(a[1..]), Lines(b));
    }
  }
}

/** The shell's CSV writer and reader (sqlite/shell.c: output_csv, csv_read_one_field). */
module Csv {
  import opened Core

  // ---------------------------------------------------------------- writing

  /** Table needCsvQuote: controls, space, both quotes, delete and every byte above it. */
  predicate NeedsQuote(c: char) { c <= ' ' || c == '"' || c == '\'' || c >= '\U{7f}' }

  /** The table itself, sixteen entries at a time. */
  function NeedCsvQuote(row: nat): string {
    if row < 2 || row > 7 then "1111111111111111"
    else if row == 2 then "1010000100000000"
    else if row == 7 then "0000000000000001"
    else "0000000000000000"
  }

  lemma QuotesByTheTable(c: char)
    requires c as int < 256
    ensures NeedsQuote(c) <==> NeedCsvQuote(c as int / 16)[c as int % 16] == '1'
  {
    var n := c as int;
    assert n == 16 * (n / 16) + n % 16;
  }

  ghost predicate MustQuote(z: string, sep: char) {
    z == "" || exists i :: 0 <= i < |z| && (NeedsQuote(z[i]) || z[i] == sep)
  }

  /** Every double quote doubled. */
  function Doubled(z: string): string {
    if z == "" then "" else (if z[0] == '"' then "\"\"" else [z[0]]) + Doubled(z[1..])
  }

  ghost function FieldText(z: string, sep: char): string {
    if MustQuote(z, sep) then "\"" + Doubled(z) + "\"" else z
  }

  lemma {:induction false} DoubledSnoc(z: string, c: char)
    ensures Doubled(z + [c]) == Doubled(z) + (if c == '"' then "\"\"" else [c])
    decreases |z|
  {
    if z == "" {
      assert (z + [c])[1..] == "";
    } else {
      DoubledSnoc(z[1..], c);
      assert (z + [c])[1..] == z[1..] + [c];
      DoubledFirst(z + [c]);
      DoubledFirst(z);
      hide Doubled;
    }
  }

  /** output_csv with a one-character separator. */
  method OutputCsv(z: string, sep: char, bSep: bool) returns (out: string)
    ensures out == FieldText(z, sep) + (if bSep then [sep] else "")
  {
    out := "";
    var i := 0;
    while i < |z|
      invariant i <= |z|
      invariant forall k :: 0 <= k < i ==> !NeedsQuote(z[k]) && z[k] != sep
    {
      if NeedsQuote(z[i]) || z[i] == sep {
        assert MustQuote(z, sep);
        i := 0;
        break;
      }
      i := i + 1;
    }
    if i == 0 {
      assert MustQuote(z, sep);
      out := "\"";
      i := 0;
      assert z[..0] == "";
      while i < |z|
        invariant i <= |z| && out == "\"" + Doubled(z[..i])
      {
        DoubledSnoc(z[..i], z[i]);
        assert z[..i + 1] == z[..i] + [z[i]];
        if z[i] == '"' { out := out + "\""; }
        out := out + [z[i]];
        i := i + 1;
      }
      assert z[..i] == z;
      out := out + "\"";
    } else {
      out := z;
    }
    if bSep { out := out + [sep]; }
  }

  /** A row: the fields separated by sep, then the row end. */
  ghost function RowText(row: seq<string>, sep: char, end: string): string
    requires row != []
  {
    if |row| == 1 then FieldText(row[0], sep) + end
    else FieldText(row[0], sep) + [sep] + RowText(row[1..], sep, end)
  }

  /** The row as MODE_Csv prints it, field by field. */
  method OutputRow(row: seq<string>, sep: char, end: string) returns (out: string)
    requires row != []
    ensures out == RowText(row, sep, end)
  {
    hide FieldText;
    out := "";
    var i := 0;
    assert row[0..] == row;
    while i < |row| - 1
      invariant i < |row| && out + RowText(row[i..], sep, end) == RowText(row, sep, end)
    {
      var f := OutputCsv(row[i], sep, true);
      assert row[i..][1..] == row[i + 1..];
      Regroup(out, f, RowText(row[i + 1..], sep, end));
      out := out + f;
      i := i + 1;
    }
    var f := OutputCsv(row[i], sep, false);
    assert row[i..] == [row[i]];
    Regroup(out, f, end);
    out := out + f + end;
  }

  lemma Regroup(a: string, b: string, c: string)
    ensures a + (b + c) == a + b + c
  {
  }

  // ---------------------------------------------------------------- reading

  /** fgetc's value at the end of the file. */
  const EOF: int := -1

  /** A separator as the reader holds it: a signed char widened to an int, while fgetc gives 0 to 255. */
  function Widened(sep: char): int { if sep as int < 128 then sep as int else sep as int - 256 }

  /** What one call of csv_read_one_field leaves: the text, the terminator and the input that follows. */
  datatype Field = Field(z: string, cTerm: int, rest: string)

  /** `do n--; while( z[n] != quote )`: the text before its last quote. */
  function Unquote(z: string): (r: string)
    requires '"' in z
    ensures |r| < |z| && r == z[..|r|] && z[|r|] == '"' && forall k :: |r| < k < |z| ==> z[k] != '"'
  {
    if z[|z| - 1] == '"' then z[..|z| - 1]
    else
      assert '"' in z[..|z| - 1];
      Unquote(z[..|z| - 1])
  }

  /** pc and ppc are the last two characters kept, as far as they matter: a quote they report is in the text. */
  predicate Tracks(z: string, pc: char, ppc: char) {
    && (pc == '"' ==> z != "" && z[|z| - 1] == '"')
    && (pc == '\r' && ppc == '"' ==> |z| >= 2 && z[|z| - 2] == '"')
  }

  predicate Closes(c: int, pc: char, ppc: char, sep: int, row: int) {
    || (c == sep && pc == '"') || (c == row && pc == '"')
    || (c == row && pc == '\r' && ppc == '"') || (c == EOF && pc == '"')
  }

  /** The loop that reads a quoted field, after its opening quote. */
  function ReadQuoted(input: string, z: string, pc: char, ppc: char, sep: int, row: int): (f: Field)
    requires Tracks(z, pc, ppc)
    ensures |f.rest| <= |input|
    decreases |input|
  {
    if input == "" then Field(if Closes(EOF, pc, ppc, sep, row) then Unquote(z) else z, EOF, "")
    else
      var c := input[0];
      if c == '"' && pc == '"' then ReadQuoted(input[1..], z, '\0', ppc, sep, row)
      else if Closes(c as int, pc, ppc, sep, row) then Field(Unquote(z), c as int, input[1..])
      else ReadQuoted(input[1..], z + [c], c, pc, sep, row)
  }

  function TrimCr(z: string): string {
    if z != "" && z[|z| - 1] == '\r' then z[..|z| - 1] else z
  }

  function ReadPlain(input: string, z: string, sep: int, row: int): (f: Field)
    ensures |f.rest| <= |input| && (input != "" ==> |f.rest| < |input|)
    decreases |input|
  {
    if input == "" then Field(if row == EOF then TrimCr(z) else z, EOF, "")
    else if input[0] as int == sep || input[0] as int == row then
      Field(if input[0] as int == row then TrimCr(z) else z, input[0] as int, input[1..])
    else ReadPlain(input[1..], z + [input[0]], sep, row)
  }

  /** csv_read_one_field on a text that is not at its end. */
  function ReadField(input: string, sep: int, row: int): (f: Field)
    requires input != ""
    ensures |f.rest| < |input|
  {
    if input[0] == '"' then ReadQuoted(input[1..], "", '\0', '\0', sep, row)
    else ReadPlain(input, "", sep, row)
  }

  // ---------------------------------------------------------------- one field there and back

  /** Column separators for which the round trip holds: ASCII, and none of the characters that quote or end. */
  predicate GoodSeparator(sep: char) { 0 < sep as int < 128 && sep != '"' && sep != '\r' && sep != '\n' }

  const LF: int := 10

  predicate GoodEnd(end: string) { end == "\n" || end == "\r\n" }

  /** What may follow a field: the separator, the end of the row, or the end of the file. */
  predicate Follows(t: string, rest: string, sep: char) { t == [sep] || GoodEnd(t) || (t == "" && rest == "") }

  /** The terminator that the reader reports for it. */
  function Terminator(t: string): int { if t == "" then EOF else t[|t| - 1] as int }

  /** The body of a quoted field passes through the reader; `kept` is what was read before it. */
  lemma {:induction false} ReadDoubled(z: string, kept: string, pc: char, ppc: char, t: string, rest: string, sep: char)
    requires GoodSeparator(sep) && Follows(t, rest, sep) && pc != '"' && ppc != '"'
    ensures ReadQuoted(Doubled(z) + "\"" + t + rest, kept, pc, ppc, Widened(sep), LF) ==
      Field(kept + z, Terminator(t), rest)
    decreases |z|
  {
    hide Unquote, Doubled;
    if z == "" {
      ClosingQuote(kept, pc, ppc, t, rest, sep);
      assert Doubled(z) + "\"" + t + rest == "\"" + t + rest by { DoubledEmpty(); }
      assert kept + z == kept;
    } else {
      DoubledFirst(z);
      var tail := Doubled(z[1..]) + "\"" + t + rest;
      assert kept + z == kept + [z[0]] + z[1..];
      if z[0] == '"' {
        ReadDoubled(z[1..], kept + "\"", '\0', pc, t, rest, sep);
        var input := "\"\"" + tail;
        assert Doubled(z) + "\"" + t + rest == input;
        assert input[1..] == "\"" + tail && input[1..][1..] == tail && input[1..][0] == '"';
      } else {
        ReadDoubled(z[1..], kept + [z[0]], z[0], pc, t, rest, sep);
        var input := [z[0]] + tail;
        assert Doubled(z) + "\"" + t + rest == input;
        assert input[1..] == tail;
      }
    }
  }

  lemma DoubledEmpty() ensures Doubled("") == "" { }

  lemma DoubledFirst(z: string)
    requires z != ""
    ensures Doubled(z) == (if z[0] == '"' then "\"\"" else [z[0]]) + Doubled(z[1..])
  {
  }

  lemma UnquoteIs(kept: string, t: string)
    requires '"' !in t
    ensures Unquote(kept + "\"" + t) == kept
  {
    hide Unquote;
    var z := kept + "\"" + t;
    var r := Unquote(z);
    assert z[|kept|] == '"' && forall k :: |kept| < k < |z| ==> z[k] == t[k - |kept| - 1];
    assert z[..|kept|] == kept;
  }

  /** The closing quote, and the carriage return that may stand before the newline, are taken off again. */
  lemma ClosingQuote(kept: string, pc: char, ppc: char, t: string, rest: string, sep: char)
    requires GoodSeparator(sep) && Follows(t, rest, sep) && pc != '"' && ppc != '"'
    ensures ReadQuoted("\"" + t + rest, kept, pc, ppc, Widened(sep), LF) == Field(kept, Terminator(t), rest)
  {
    hide Unquote;
    var input := "\"" + t + rest;
    var q := kept + "\"";
    assert input[0] == '"' && input[1..] == t + rest;
    UnquoteIs(kept, "");
    assert q + "" == q;
    if t == "\r\n" {
      var r := q + "\r";
      assert (t + rest)[0] == '\r' && (t + rest)[1..] == "\n" + rest && ("\n" + rest)[1..] == rest;
      UnquoteIs(kept, "\r");
      assert ReadQuoted("\n" + rest, r, '\r', '"', Widened(sep), LF) == Field(kept, LF, rest);
      assert ReadQuoted(t + rest, q, '"', pc, Widened(sep), LF) == Field(kept, LF, rest);
    } else if t == "" {
      assert t + rest == "";
      assert ReadQuoted("", q, '"', pc, Widened(sep), LF) == Field(kept, EOF, "");
    } else {
      assert (t + rest)[0] == t[0] && (t + rest)[1..] == rest;
      assert ReadQuoted(t + rest, q, '"', pc, Widened(sep), LF) == Field(kept, t[0] as int, rest);
    }
  }

  /** Text without special characters is kept up to the terminator. */
  lemma {:induction false} ReadUnquoted(z: string, kept: string, t: string, rest: string, sep: char)
    requires GoodSeparator(sep) && Follows(t, rest, sep)
    requires forall k :: 0 <= k < |z| ==> !NeedsQuote(z[k]) && z[k] != sep
    requires kept + z != "" && (kept != "" ==> kept[|kept| - 1] != '\r')
    ensures ReadPlain(z + t + rest, kept, Widened(sep), LF) == Field(kept + z, Terminator(t), rest)
    decreases |z|
  {
    if z == "" {
      assert z + t + rest == t + rest && kept + z == kept;
      if t == "\r\n" {
        assert (t + rest)[1..] == "\n" + rest && ("\n" + rest)[1..] == rest;
        assert TrimCr(kept + "\r") == kept;
      } else if t == "" {
        assert t + rest == "";
      } else {
        assert (t + rest)[1..] == rest;
      }
    } else {
      assert (z + t + rest)[1..] == z[1..] + t + rest;
      assert kept + z == kept + [z[0]] + z[1..];
      ReadUnquoted(z[1..], kept + [z[0]], t, rest, sep);
    }
  }

  lemma QuotedRoundTrip(z: string, t: string, rest: string, sep: char)
    requires GoodSeparator(sep) && Follows(t, rest, sep) && MustQuote(z, sep)
    ensures FieldText(z, sep) + t + rest != ""
    ensures ReadField(FieldText(z, sep) + t + rest, Widened(sep), LF) == Field(z, Terminator(t), rest)
  {
    hide ReadQuoted, ReadPlain, Doubled, MustQuote;
    var input := FieldText(z, sep) + t + rest;
    assert input[0] == '"' && input[1..] == Doubled(z) + "\"" + t + rest;
    ReadDoubled(z, "", '\0', '\0', t, rest, sep);
    assert "" + z == z;
  }

  /** A written field is read back, with the terminator that was written. */
  lemma FieldRoundTrip(z: string, t: string, rest: string, sep: char)
    requires GoodSeparator(sep) && Follows(t, rest, sep)
    ensures FieldText(z, sep) + t + rest != ""
    ensures ReadField(FieldText(z, sep) + t + rest, Widened(sep), LF) == Field(z, Terminator(t), rest)
  {
    if MustQuote(z, sep) {
      hide *;
      QuotedRoundTrip(z, t, rest, sep);
    } else {
      hide ReadQuoted, ReadPlain, Doubled;
      var input := FieldText(z, sep) + t + rest;
      assert input[0] == z[0] && !NeedsQuote(z[0]);
      ReadUnquoted(z, "", t, rest, sep);
      assert "" + z == z;
    }
  }

  // ---------------------------------------------------------------- fields that no writer makes

  /** Every quote of z stands before a character that neither doubles nor closes it. */
  predicate Stray(z: string, sep: char) {
    forall k :: 0 <= k < |z| && z[k] == '"' ==>
      k + 1 < |z| && z[k + 1] != '"' && z[k + 1] != sep && z[k + 1] != '\r' && z[k + 1] != '\n'
  }

  lemma {:induction false} ReadStray(z: string, kept: string, pc: char, ppc: char, t: string, rest: string, sep: char)
    requires GoodSeparator(sep) && Follows(t, rest, sep) && Stray(z, sep) && Tracks(kept, pc, ppc)
    requires pc == '"' ==> z != "" && z[0] != '"' && z[0] != sep && z[0] != '\r' && z[0] != '\n'
    requires pc == '\r' ==> ppc != '"'
    ensures ReadQuoted(z + "\"" + t + rest, kept, pc, ppc, Widened(sep), LF) == Field(kept + z, Terminator(t), rest)
    decreases |z|
  {
    hide Unquote;
    var input := z + "\"" + t + rest;
    if z == "" {
      assert input == "\"" + t + rest && kept + z == kept;
      CloseAfter(kept, pc, ppc, t, rest, sep);
    } else {
      assert input[0] == z[0] && input[1..] == z[1..] + "\"" + t + rest;
      assert kept + z == kept + [z[0]] + z[1..];
      ReadStray(z[1..], kept + [z[0]], z[0], pc, t, rest, sep);
    }
  }

  /** The closing quote after any text that does not end in a quote. */
  lemma CloseAfter(kept: string, pc: char, ppc: char, t: string, rest: string, sep: char)
    requires GoodSeparator(sep) && Follows(t, rest, sep) && Tracks(kept, pc, ppc)
    requires pc != '"' && (pc == '\r' ==> ppc != '"')
    ensures ReadQuoted("\"" + t + rest, kept, pc, ppc, Widened(sep), LF) == Field(kept, Terminator(t), rest)
  {
    hide Unquote;
    var input := "\"" + t + rest;
    var q := kept + "\"";
    assert input[0] == '"' && input[1..] == t + rest;
    UnquoteIs(kept, "");
    assert q + "" == q;
    if t == "\r\n" {
      var r := q + "\r";
      assert (t + rest)[0] == '\r' && (t + rest)[1..] == "\n" + rest && ("\n" + rest)[1..] == rest;
      UnquoteIs(kept, "\r");
      assert ReadQuoted("\n" + rest, r, '\r', '"', Widened(sep), LF) == Field(kept, LF, rest);
    } else if t == "" {
      assert t + rest == "";
    } else {
      assert (t + rest)[0] == t[0] && (t + rest)[1..] == rest;
    }
  }

  /** A quoted field with stray quotes inside is read with them. */
  lemma StrayQuotesAreKept(z: string, t: string, rest: string, sep: char)
    requires GoodSeparator(sep) && Follows(t, rest, sep) && Stray(z, sep)
    ensures ReadField("\"" + z + "\"" + t + rest, Widened(sep), LF) == Field(z, Terminator(t), rest)
  {
    hide ReadQuoted;
    var input := "\"" + z + "\"" + t + rest;
    assert input[0] == '"' && input[1..] == z + "\"" + t + rest;
    ReadStray(z, "", '\0', '\0', t, rest, sep);
    assert "" + z == z;
  }

  /** An unquoted field of any characters but separator and newline: a carriage return before the newline is dropped,
      one before the separator or the end of the file is kept. */
  lemma {:induction false} ReadBare(z: string, kept: string, t: string, rest: string, sep: char)
    requires GoodSeparator(sep) && (t == [sep] || t == "\n" || (t == "" && rest == "")) && sep !in z && '\n' !in z
    ensures ReadPlain(z + t + rest, kept, Widened(sep), LF) ==
      Field(if t == "\n" then TrimCr(kept + z) else kept + z, Terminator(t), rest)
    decreases |z|
  {
    if z == "" {
      assert z + t + rest == t + rest && kept + z == kept;
      if t != "" { assert (t + rest)[1..] == rest; } else { assert t + rest == ""; }
    } else {
      assert z[0] in z && (z + t + rest)[1..] == z[1..] + t + rest;
      assert kept + z == kept + [z[0]] + z[1..];
      ReadBare(z[1..], kept + [z[0]], t, rest, sep);
    }
  }

  lemma BareFields(z: string, t: string, rest: string, sep: char)
    requires GoodSeparator(sep) && (t == [sep] || t == "\n" || (t == "" && rest == "")) && sep !in z && '\n' !in z
    requires z != "" && z[0] != '"'
    ensures ReadField(z + t + rest, Widened(sep), LF) == Field(if t == "\n" then TrimCr(z) else z, Terminator(t), rest)
  {
    ReadBare(z, "", t, rest, sep);
    assert "" + z == z && (z + t + rest)[0] == z[0];
  }

  /** A quoted field that is never closed goes on to the end of the file. */
  lemma {:induction false} ReadUnclosed(z: string, kept: string, pc: char, ppc: char, sep: char)
    requires GoodSeparator(sep) && Tracks(kept, pc, ppc) && pc != '"' && ppc != '"' && '"' !in z
    ensures ReadQuoted(z, kept, pc, ppc, Widened(sep), LF) == Field(kept + z, EOF, "")
    decreases |z|
  {
    if z == "" {
      assert kept + z == kept;
    } else {
      assert z[0] in z && '"' !in z[1..] && kept + z == kept + [z[0]] + z[1..];
      ReadUnclosed(z[1..], kept + [z[0]], z[0], pc, sep);
    }
  }

  lemma UnclosedGoesOn(z: string, sep: char)
    requires GoodSeparator(sep) && '"' !in z
    ensures ReadField("\"" + z, Widened(sep), LF) == Field(z, EOF, "")
  {
    assert ("\"" + z)[1..] == z && "" + z == z;
    ReadUnclosed(z, "", '\0', '\0', sep);
  }

  // ---------------------------------------------------------------- rows and tables

  /** A row as it is read: fields up to the first that no column separator ends. */
  datatype Row = Row(fields: seq<string>, cTerm: int, rest: string)

  function ReadRow(input: string, sep: int, row: int): (r: Row)
    ensures input != "" ==> |r.rest| < |input|
    decreases |input|
  {
    if input == "" then Row([], EOF, "")
    else
      var f := ReadField(input, sep, row);
      if f.cTerm == sep then
        var r := ReadRow(f.rest, sep, row);
        Row([f.z] + r.fields, r.cTerm, r.rest)
      else Row([f.z], f.cTerm, f.rest)
  }

  function ReadTable(input: string, sep: int, row: int): seq<seq<string>>
    decreases |input|
  {
    if input == "" then [] else
      var r := ReadRow(input, sep, row);
      [r.fields] + ReadTable(r.rest, sep, row)
  }

  /** Every row comes back, and its end is reported right after its last field; the last row of a file may have no
      line end, and then the end of the file is reported. */
  lemma {:induction false} RowRoundTrip(row: seq<string>, end: string, rest: string, sep: char)
    requires row != [] && GoodSeparator(sep) && (GoodEnd(end) || (end == "" && rest == ""))
    ensures ReadRow(RowText(row, sep, end) + rest, Widened(sep), LF) == Row(row, if end == "" then EOF else LF, rest)
    decreases |row|
  {
    hide ReadField, FieldText;
    if |row| == 1 {
      FieldRoundTrip(row[0], end, rest, sep);
    } else {
      var more := RowText(row[1..], sep, end) + rest;
      assert RowText(row, sep, end) + rest == FieldText(row[0], sep) + [sep] + more;
      FieldRoundTrip(row[0], [sep], more, sep);
      RowRoundTrip(row[1..], end, rest, sep);
    }
  }

  /** A file: every row with its line end, the last one with `last`. */
  ghost function TableText(rows: seq<seq<string>>, sep: char, end: string, last: string): string
    requires forall i :: 0 <= i < |rows| ==> rows[i] != []
  {
    if rows == [] then "" else
      RowText(rows[0], sep, if |rows| == 1 then last else end) + TableText(rows[1..], sep, end, last)
  }

  /** Every table comes back, whether or not its last row has a line end. */
  lemma {:induction false} TableRoundTrip(rows: seq<seq<string>>, end: string, last: string, sep: char)
    requires (forall i :: 0 <= i < |rows| ==> rows[i] != []) && GoodSeparator(sep) && GoodEnd(end)
    requires GoodEnd(last) || last == ""
    ensures ReadTable(TableText(rows, sep, end, last), Widened(sep), LF) == rows
    decreases |rows|
  {
    hide ReadRow, RowText;
    if rows != [] {
      var rest := TableText(rows[1..], sep, end, last);
      RowRoundTrip(rows[0], if |rows| == 1 then last else end, rest, sep);
      RowTextIsNotEmpty(rows[0], if |rows| == 1 then last else end, sep);
      TableRoundTrip(rows[1..], end, last, sep);
    }
  }

  lemma RowTextIsNotEmpty(row: seq<string>, end: string, sep: char)
    requires row != []
    ensures RowText(row, sep, end) != ""
  {
  }

  ghost predicate Loses(row: seq<string>, sep: char, end: string) {
    row != [] && GoodEnd(end) && ReadRow(RowText(row, sep, end), Widened(sep), LF) != Row(row, LF, "")
  }

  lemma QuoteRowText()
    ensures RowText([" ", "b"], '"', "\n") == "\" \"\"b\n"
  {
    var row := [" ", "b"];
    assert NeedsQuote(" "[0]) && Doubled(" ") == " ";
    assert !MustQuote("b", '"') && row[1..] == ["b"];
  }

  lemma QuoteRowField()
    ensures ReadField("\" \"\"b\n", 34, LF) == Field(" \"b\n", EOF, "")
  {
    var t := "\" \"\"b\n";
    assert t[1..] == " \"\"b\n" && t[1..][1..] == "\"\"b\n" && "\"\"b\n"[1..] == "\"b\n" && "\"b\n"[1..] == "b\n"
      && "b\n"[1..] == "\n" && "\n"[1..] == "";
    assert ReadQuoted("\n", " \"b", 'b', '\0', 34, LF) == Field(" \"b\n", EOF, "");
    assert ReadQuoted("\"b\n", " \"", '"', ' ', 34, LF) == Field(" \"b\n", EOF, "");
  }

  lemma QuoteAsSeparator()
    ensures Loses([" ", "b"], '"', "\n")
  {
    hide RowText, ReadField;
    QuoteRowText();
    QuoteRowField();
  }

  lemma NewlineAsSeparator()
    ensures Loses(["a"], '\n', "\n")
  {
    assert !MustQuote("a", '\n');
    var t := "a\n";
    assert t[1..] == "\n" && "\n"[1..] == "" && "" + ['a'] == "a" && TrimCr("a") == "a";
    assert ReadPlain("\n", "a", LF, LF) == Field("a", LF, "");
    assert ReadField(t, LF, LF) == Field("a", LF, "");
    assert ReadRow("", LF, LF) == Row([], EOF, "");
    assert ReadRow(t, LF, LF).cTerm == EOF;
    assert RowText(["a"], '\n', "\n") == t;
  }

  lemma ReturnAsSeparator()
    ensures Loses(["a"], '\r', "\r\n")
  {
    assert !MustQuote("a", '\r');
    var t := "a\r\n";
    assert t[1..] == "\r\n" && "\r\n"[1..] == "\n" && "\n"[1..] == "" && "" + ['a'] == "a";
    assert ReadPlain("\r\n", "a", 13, LF) == Field("a", 13, "\n");
    assert ReadField(t, 13, LF) == Field("a", 13, "\n");
    var r := ReadRow("\n", 13, LF);
    assert r.fields != [];
    assert ReadRow(t, 13, LF) == Row(["a"] + r.fields, r.cTerm, r.rest);
    assert |ReadRow(t, 13, LF).fields| > 1;
    assert RowText(["a"], '\r', "\r\n") == t;
  }

  /** A byte from 0x80 on is never equal to its widened self, so the reader does not see the separator. */
  lemma HighByteAsSeparator(sep: char)
    requires 128 <= sep as int < 256
    ensures Loses(["a", "b"], sep, "\n")
  {
    var row, w := ["a", "b"], Widened(sep);
    assert !MustQuote("a", sep) && !MustQuote("b", sep) && row[1..] == ["b"];
    var t := ['a', sep, 'b', '\n'];
    assert RowText(row, sep, "\n") == t;
    assert t[1..] == [sep, 'b', '\n'] && t[1..][1..] == "b\n" && "b\n"[1..] == "\n" && "\n"[1..] == "";
    assert ReadPlain("\n", ['a', sep, 'b'], w, LF) == Field(['a', sep, 'b'], LF, "");
    assert "" + ['a'] == "a" && "a" + [sep] == ['a', sep] && ['a', sep] + ['b'] == ['a', sep, 'b'];
    assert ReadPlain("b\n", ['a', sep], w, LF) == Field(['a', sep, 'b'], LF, "");
    assert ReadPlain(t[1..], "a", w, LF) == Field(['a', sep, 'b'], LF, "");
    assert ReadField(t, w, LF) == Field(['a', sep, 'b'], LF, "");
  }

  /** No other byte has the round trip: each of them loses some row. */
  lemma BadSeparators(sep: char) returns (row: seq<string>, end: string)
    requires 0 < sep as int < 256 && !GoodSeparator(sep)
    ensures Loses(row, sep, end)
  {
    hide Loses;
    if sep == '"' {
      row, end := [" ", "b"], "\n";
      QuoteAsSeparator();
    } else if sep as int >= 128 {
      row, end := ["a", "b"], "\n";
      HighByteAsSeparator(sep);
    } else if sep == '\n' {
      row, end := ["a"], "\n";
      NewlineAsSeparator();
    } else {
      row, end := ["a"], "\r\n";
      ReturnAsSeparator();
    }
  }

  // ---------------------------------------------------------------- the reader's loops

  lemma PlainMore(text: string, pos: nat, z: string, sep: int, row: int)
    requires pos < |text| && text[pos] as int != sep && text[pos] as int != row
    ensures ReadPlain(text[pos..], z, sep, row) == ReadPlain(text[pos + 1..], z + [text[pos]], sep, row)
  {
    assert text[pos..][0] == text[pos] && text[pos..][1..] == text[pos + 1..];
  }

  lemma PlainStops(text: string, pos: nat, z: string, sep: int, row: int)
    requires pos <= |text| && (pos < |text| ==> text[pos] as int == sep || text[pos] as int == row)
    ensures var c := if pos < |text| then text[pos] as int else EOF;
      ReadPlain(text[pos..], z, sep, row) ==
        Field(if c == row then TrimCr(z) else z, c, if pos < |text| then text[pos + 1..] else text[pos..])
  {
    if pos < |text| {
      assert text[pos..][0] == text[pos] && text[pos..][1..] == text[pos + 1..];
    } else {
      assert text[pos..] == "";
    }
  }

  class ImportCtx {
    const text: string
    var pos: nat
    var z: string
    var cTerm: int
    const cColSep: int
    const cRowSep: int

    ghost predicate Valid()
      reads this
    {
      pos <= |text|
    }

    /** The separators come as characters of a C string. */
    constructor (text: string, sep: char, row: char)
      ensures Valid() && this.text == text && pos == 0 && cColSep == Widened(sep) && cRowSep == Widened(row)
    {
      this.text := text;
      pos, z, cTerm := 0, "", EOF;
      cColSep, cRowSep := Widened(sep), Widened(row);
    }

    /** The do-while loop that takes off the closing quote; it meets a quote before the start of the text. */
    method DropQuote()
      requires '"' in z
      modifies this`z
      ensures z == Unquote(old(z))
    {
      var n := |z| - 1;
      while z[n] != '"'
        invariant 0 <= n < |z| && '"' in z[..n + 1]
        invariant forall k :: n < k < |z| ==> z[k] != '"'
        decreases n
      {
        n := n - 1;
      }
      z := z[..n];
    }

    method ReadQuotedLoop()
      requires Valid()
      modifies this`pos, this`z, this`cTerm
      ensures Valid() && Field(z, cTerm, text[pos..]) == ReadQuoted(old(text[pos..]), "", '\0', '\0', cColSep, cRowSep)
    {
      hide Unquote;
      ghost var goal := ReadQuoted(text[pos..], "", '\0', '\0', cColSep, cRowSep);
      var pc, ppc := '\0', '\0';
      z := "";
      while true
        invariant Valid() && Tracks(z, pc, ppc)
        invariant goal == ReadQuoted(text[pos..], z, pc, ppc, cColSep, cRowSep)
        decreases |text| - pos
      {
        if pos == |text| {
          if Closes(EOF, pc, ppc, cColSep, cRowSep) { DropQuote(); }
          cTerm := EOF;
          break;
        }
        var c := text[pos];
        assert text[pos..][0] == c && text[pos..][1..] == text[pos + 1..];
        pos := pos + 1;
        if c == '"' && pc == '"' {
          pc := '\0';
          continue;
        }
        if Closes(c as int, pc, ppc, cColSep, cRowSep) {
          DropQuote();
          cTerm := c as int;
          break;
        }
        z := z + [c];
        ppc := pc;
        pc := c;
      }
    }

    method ReadPlainLoop()
      requires Valid()
      modifies this`pos, this`z, this`cTerm
      ensures Valid() && Field(z, cTerm, text[pos..]) == ReadPlain(old(text[pos..]), "", cColSep, cRowSep)
    {
      hide ReadPlain;
      ghost var goal := ReadPlain(text[pos..], "", cColSep, cRowSep);
      z := "";
      while pos < |text| && text[pos] as int != cColSep && text[pos] as int != cRowSep
        invariant Valid() && goal == ReadPlain(text[pos..], z, cColSep, cRowSep)
      {
        PlainMore(text, pos, z, cColSep, cRowSep);
        z := z + [text[pos]];
        pos := pos + 1;
      }
      PlainStops(text, pos, z, cColSep, cRowSep);
      var c := EOF;
      if pos < |text| {
        c := text[pos] as int;
        pos := pos + 1;
      }
      if c == cRowSep && |z| > 0 && z[|z| - 1] == '\r' { z := z[..|z| - 1]; }
      cTerm := c;
    }

    /** csv_read_one_field; false at the end of the file. */
    method ReadOneField() returns (more: bool)
      requires Valid()
      modifies this`pos, this`z, this`cTerm
      ensures Valid() && more == (old(pos) < |text|)
      ensures more ==> Field(z, cTerm, text[pos..]) == ReadField(old(text[pos..]), cColSep, cRowSep)
      ensures !more ==> cTerm == EOF && z == "" && pos == old(pos)
    {
      hide ReadQuoted, ReadPlain;
      z := "";
      if pos == |text| {
        cTerm := EOF;
        return false;
      }
      more := true;
      if text[pos] == '"' {
        assert text[pos..][1..] == text[pos + 1..];
        pos := pos + 1;
        ReadQuotedLoop();
      } else {
        ReadPlainLoop();
      }
    }
  }

  /** Reading a whole row as the import loop does. */
  method ImportRow(cx: ImportCtx) returns (fields: seq<string>)
    requires cx.Valid()
    modifies cx
    ensures cx.Valid()
    ensures Row(fields, cx.cTerm, cx.text[cx.pos..]) == ReadRow(old(cx.text[cx.pos..]), cx.cColSep, cx.cRowSep)
  {
    hide ReadField;
    fields := [];
    ghost var goal := ReadRow(cx.text[cx.pos..], cx.cColSep, cx.cRowSep);
    while true
      invariant cx.Valid()
      invariant var r := ReadRow(cx.text[cx.pos..], cx.cColSep, cx.cRowSep);
        goal == Row(fields + r.fields, r.cTerm, r.rest)
      decreases |cx.text| - cx.pos
    {
      var more := cx.ReadOneField();
      if !more { break; }
      fields := fields + [cx.z];
      if cx.cTerm != cx.cColSep { break; }
    }
  }
}

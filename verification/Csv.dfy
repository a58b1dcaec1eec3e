/** The CSV tokeniser of the import pages (frontend/src/lib/csv.ts). */
module Csv {
  import opened Sequences

  const QUOTE := '"'
  const BOM: char := '\U{FEFF}'

  /** The variables of the loop. */
  datatype Scan = Scan(rows: seq<seq<string>>, row: seq<string>, cell: string, quoted: bool)

  const EMPTY := Scan([], [], "", false)

  function EndCell(s: Scan): Scan {
    s.(row := s.row + [s.cell], cell := "")
  }

  function EndRow(s: Scan): Scan {
    Scan(s.rows + [s.row + [s.cell]], [], "", s.quoted)
  }

  /** The rows once the text has run out: a last line needs no line break. */
  function Flush(s: Scan): seq<seq<string>> {
    if s.cell != "" || s.row != [] then s.rows + [s.row + [s.cell]] else s.rows
  }

  /** The rows read from src on, by its first one or two characters. */
  function Tokens(src: string, delimiter: char, s: Scan): seq<seq<string>>
    decreases |src|
  {
    if src == "" then Flush(s)
    else if s.quoted then
      if src[0] == QUOTE && |src| > 1 && src[1] == QUOTE then Tokens(src[2..], delimiter, s.(cell := s.cell + [QUOTE]))
      else if src[0] == QUOTE then Tokens(src[1..], delimiter, s.(quoted := false))
      else Tokens(src[1..], delimiter, s.(cell := s.cell + [src[0]]))
    else if src[0] == QUOTE then Tokens(src[1..], delimiter, s.(quoted := true))
    else if src[0] == delimiter then Tokens(src[1..], delimiter, EndCell(s))
    else if src[0] == '\n' then Tokens(src[1..], delimiter, EndRow(s))
    else if src[0] == '\r' then Tokens(if |src| > 1 && src[1] == '\n' then src[2..] else src[1..], delimiter, EndRow(s))
    else Tokens(src[1..], delimiter, s.(cell := s.cell + [src[0]]))
  }

  function WithoutBom(text: string): string {
    if text != "" && text[0] == BOM then text[1..] else text
  }

  function Parsed(text: string, delimiter: char): seq<seq<string>> {
    Tokens(WithoutBom(text), delimiter, EMPTY)
  }

  method ParseCsv(text: string, delimiter: char) returns (rows: seq<seq<string>>)
    ensures rows == Parsed(text, delimiter)
  {
    var src := WithoutBom(text);
    rows := [];
    var row: seq<string>, cell, quoted := [], "", false;
    var i := 0;
    while i < |src|
      invariant 0 <= i <= |src|
      invariant Tokens(src[i..], delimiter, Scan(rows, row, cell, quoted)) == Parsed(text, delimiter)
    {
      var ch := src[i];
      assert src[i..][0] == ch && src[i..][1..] == src[i + 1..];
      assert i + 1 < |src| ==> src[i..][1] == src[i + 1] && src[i..][2..] == src[i + 2..];
      if quoted {
        if ch == QUOTE && i + 1 < |src| && src[i + 1] == QUOTE {
          cell := cell + [QUOTE];
          i := i + 1;
        } else if ch == QUOTE {
          quoted := false;
        } else {
          cell := cell + [ch];
        }
      } else if ch == QUOTE {
        quoted := true;
      } else if ch == delimiter {
        row, cell := row + [cell], "";
      } else if ch == '\n' || ch == '\r' {
        if ch == '\r' && i + 1 < |src| && src[i + 1] == '\n' {
          i := i + 1;
        }
        rows, row, cell := rows + [row + [cell]], [], "";
      } else {
        cell := cell + [ch];
      }
      i := i + 1;
    }
    assert src[i..] == "";
    if cell != "" || row != [] {
      rows := rows + [row + [cell]];
    }
  }

  // ----- the encoder of section 2 of RFC 4180 -----

  /** A field, quoted or (where it holds nothing special) bare. */
  datatype Field = Quoted(text: string) | Bare(text: string)

  /** CRLF as the standard has it, or a lone LF or CR. */
  datatype Break = CrLf | Lf | Cr

  /** A record and its line break. */
  datatype Record = Record(fields: seq<Field>, end: Break)

  function Doubled(text: string): string {
    if text == "" then ""
    else (if text[0] == QUOTE then [QUOTE, QUOTE] else [text[0]]) + Doubled(text[1..])
  }

  function EncodedField(f: Field): string {
    match f
    case Quoted(text) => [QUOTE] + Doubled(text) + [QUOTE]
    case Bare(text) => text
  }

  function EncodedFields(fields: seq<Field>, delimiter: char): string {
    if fields == [] then ""
    else if |fields| == 1 then EncodedField(fields[0])
    else EncodedField(fields[0]) + [delimiter] + EncodedFields(fields[1..], delimiter)
  }

  function LineBreak(end: Break): string {
    match end
    case CrLf => "\r\n"
    case Lf => "\n"
    case Cr => "\r"
  }

  function Encoded(records: seq<Record>, delimiter: char): string {
    if records == [] then ""
    else EncodedFields(records[0].fields, delimiter) + LineBreak(records[0].end) + Encoded(records[1..], delimiter)
  }

  predicate Plain(c: char, delimiter: char) {
    c != QUOTE && c != delimiter && c != '\r' && c != '\n'
  }

  predicate Encodable(f: Field, delimiter: char) {
    f.Bare? ==> forall c :: c in f.text ==> Plain(c, delimiter)
  }

  function TextOf(f: Field): string { f.text }

  function TextsOf(r: Record): seq<string> { Map(r.fields, TextOf) }

  /** A record without fields is an empty line, and an empty line reads as one empty field. */
  function ReadBack(r: Record): seq<string> {
    if r.fields == [] then [""] else TextsOf(r)
  }

  predicate Separates(delimiter: char) {
    delimiter != QUOTE && delimiter != '\r' && delimiter != '\n'
  }

  /** One character of a quoted field: a doubled quote stands for one. */
  lemma ReadQuotedChar(c: char, tail: string, delimiter: char, s: Scan)
    requires s.quoted
    ensures Tokens(Doubled([c]) + tail, delimiter, s) == Tokens(tail, delimiter, s.(cell := s.cell + [c]))
  {
    var src := Doubled([c]) + tail;
    assert [c][1..] == "";
    assert Doubled([c]) == if c == QUOTE then [QUOTE, QUOTE] else [c];
    if c == QUOTE {
      assert src == [QUOTE, QUOTE] + tail && src[2..] == tail;
    } else {
      assert src == [c] + tail && src[1..] == tail;
    }
  }

  lemma CloseQuote(rest: string, delimiter: char, s: Scan)
    requires s.quoted && (rest != "" ==> rest[0] != QUOTE)
    ensures Tokens([QUOTE] + rest, delimiter, s) == Tokens(rest, delimiter, s.(quoted := false))
  {
    assert ([QUOTE] + rest)[1..] == rest;
  }

  lemma DoubledHead(text: string)
    requires text != ""
    ensures Doubled(text) == Doubled([text[0]]) + Doubled(text[1..])
  {
    assert [text[0]][1..] == "";
  }

  lemma {:induction false} ReadQuoted(text: string, rest: string, delimiter: char, s: Scan)
    requires s.quoted && (rest != "" ==> rest[0] != QUOTE)
    ensures Tokens(Doubled(text) + [QUOTE] + rest, delimiter, s)
         == Tokens(rest, delimiter, s.(cell := s.cell + text, quoted := false))
    decreases |text|
  {
    hide Tokens;
    if text == "" {
      CloseQuote(rest, delimiter, s);
      assert Doubled(text) + [QUOTE] + rest == [QUOTE] + rest && s.cell + text == s.cell;
    } else {
      var head, tail := Doubled([text[0]]), Doubled(text[1..]) + [QUOTE] + rest;
      var more := s.(cell := s.cell + [text[0]]);
      DoubledHead(text);
      assert Doubled(text) + [QUOTE] + rest == head + tail;
      ReadQuotedChar(text[0], tail, delimiter, s);
      ReadQuoted(text[1..], rest, delimiter, more);
      assert more.cell + text[1..] == s.cell + text;
    }
  }

  lemma {:induction false} ReadBare(text: string, rest: string, delimiter: char, s: Scan)
    requires !s.quoted && forall c :: c in text ==> Plain(c, delimiter)
    ensures Tokens(text + rest, delimiter, s) == Tokens(rest, delimiter, s.(cell := s.cell + text))
    decreases |text|
  {
    if text == "" {
      assert text + rest == rest && s.cell + text == s.cell;
    } else {
      var more := s.(cell := s.cell + [text[0]]);
      assert text[0] in text;
      assert (text + rest)[0] == text[0] && (text + rest)[1..] == text[1..] + rest;
      assert more.cell + text[1..] == s.cell + text;
      ReadBare(text[1..], rest, delimiter, more);
    }
  }

  lemma OpenQuote(inner: string, delimiter: char, s: Scan)
    requires !s.quoted && s.cell == ""
    ensures Tokens([QUOTE] + inner, delimiter, s) == Tokens(inner, delimiter, s.(quoted := true))
  {
    assert ([QUOTE] + inner)[1..] == inner;
  }

  lemma ReadField(f: Field, rest: string, delimiter: char, s: Scan)
    requires !s.quoted && s.cell == "" && Encodable(f, delimiter) && (rest != "" ==> rest[0] != QUOTE)
    ensures Tokens(EncodedField(f) + rest, delimiter, s) == Tokens(rest, delimiter, s.(cell := f.text))
  {
    hide Tokens, Doubled;
    if f.Quoted? {
      var inner := Doubled(f.text) + [QUOTE] + rest;
      assert EncodedField(f) + rest == [QUOTE] + inner;
      OpenQuote(inner, delimiter, s);
      ReadQuoted(f.text, rest, delimiter, s.(quoted := true));
      assert "" + f.text == f.text;
    } else {
      ReadBare(f.text, rest, delimiter, s);
      assert "" + f.text == f.text;
    }
  }

  lemma ReadDelimiter(tail: string, delimiter: char, s: Scan)
    requires !s.quoted && Separates(delimiter)
    ensures Tokens([delimiter] + tail, delimiter, s) == Tokens(tail, delimiter, EndCell(s))
  {
    assert ([delimiter] + tail)[1..] == tail;
  }

  /** A lone CR is one break only when no LF follows it. */
  predicate BreakStands(end: Break, rest: string) {
    end.Cr? ==> rest == "" || rest[0] != '\n'
  }

  lemma ReadBreak(end: Break, rest: string, delimiter: char, s: Scan)
    requires !s.quoted && Separates(delimiter) && BreakStands(end, rest)
    ensures Tokens(LineBreak(end) + rest, delimiter, s) == Tokens(rest, delimiter, EndRow(s))
  {
    var src := LineBreak(end) + rest;
    match end {
      case CrLf =>
        assert src[0] == '\r' && src[1] == '\n' && src[2..] == rest;
      case _ =>
        assert src[1..] == rest;
    }
  }

  lemma Regrouped(a: string, b: string, c: string, d: string)
    ensures a + b + c + d == a + (b + (c + d))
  {
  }

  lemma EncodedHead(fields: seq<Field>, delimiter: char)
    requires fields != []
    ensures |fields| == 1 ==> EncodedFields(fields, delimiter) == EncodedField(fields[0])
    ensures |fields| > 1 ==>
              EncodedFields(fields, delimiter) == EncodedField(fields[0]) + [delimiter] + EncodedFields(fields[1..], delimiter)
  {
  }

  /** The text of the first field, and what follows it. */
  lemma FirstField(fields: seq<Field>, end: string, delimiter: char)
    requires fields != []
    ensures |fields| == 1 ==> EncodedFields(fields, delimiter) + end == EncodedField(fields[0]) + end
    ensures |fields| > 1 ==>
              EncodedFields(fields, delimiter) + end
              == EncodedField(fields[0]) + ([delimiter] + (EncodedFields(fields[1..], delimiter) + end))
  {
    hide EncodedField, EncodedFields;
    EncodedHead(fields, delimiter);
    Regrouped(EncodedField(fields[0]), [delimiter], EncodedFields(fields[1..], delimiter), end);
  }

  lemma {:induction false} ReadFields(fields: seq<Field>, end: string, delimiter: char, s: Scan)
    requires !s.quoted && s.cell == "" && Separates(delimiter) && fields != []
    requires forall f :: f in fields ==> Encodable(f, delimiter)
    requires end != "" ==> end[0] != QUOTE
    ensures Tokens(EncodedFields(fields, delimiter) + end, delimiter, s)
         == Tokens(end, delimiter, s.(row := s.row + Map(fields[..|fields| - 1], TextOf), cell := fields[|fields| - 1].text))
    decreases |fields|
  {
    hide Tokens, EncodedField, EncodedFields, Encodable;
    var first := fields[0];
    assert first in fields;
    FirstField(fields, end, delimiter);
    if |fields| == 1 {
      ReadField(first, end, delimiter, s);
      assert s.row + Map(fields[..0], TextOf) == s.row;
    } else {
      var tail := EncodedFields(fields[1..], delimiter) + end;
      var next := EndCell(s.(cell := first.text));
      ReadField(first, [delimiter] + tail, delimiter, s);
      ReadDelimiter(tail, delimiter, s.(cell := first.text));
      ReadFields(fields[1..], end, delimiter, next);
      assert next.row + Map(fields[1..][..|fields| - 2], TextOf) == s.row + Map(fields[..|fields| - 1], TextOf);
    }
  }

  lemma NoFields(delimiter: char)
    ensures EncodedFields([], delimiter) == ""
  {
  }

  lemma ReadRecord(r: Record, rest: string, delimiter: char, rows: seq<seq<string>>)
    requires Separates(delimiter) && BreakStands(r.end, rest) && forall f :: f in r.fields ==> Encodable(f, delimiter)
    ensures Tokens(EncodedFields(r.fields, delimiter) + LineBreak(r.end) + rest, delimiter, Scan(rows, [], "", false))
         == Tokens(rest, delimiter, Scan(rows + [ReadBack(r)], [], "", false))
  {
    hide Tokens, EncodedField, EncodedFields;
    var s := Scan(rows, [], "", false);
    if r.fields == [] {
      NoFields(delimiter);
      assert "" + LineBreak(r.end) + rest == LineBreak(r.end) + rest;
      ReadBreak(r.end, rest, delimiter, s);
      assert [] + [""] == [""];
    } else {
      var fields, end := r.fields, LineBreak(r.end) + rest;
      assert EncodedFields(fields, delimiter) + LineBreak(r.end) + rest == EncodedFields(fields, delimiter) + end;
      ReadFields(fields, end, delimiter, s);
      ReadBreak(r.end, rest, delimiter, s.(row := Map(fields[..|fields| - 1], TextOf), cell := fields[|fields| - 1].text));
      assert Map(fields[..|fields| - 1], TextOf) + [fields[|fields| - 1].text] == TextsOf(r);
      assert [] + Map(fields[..|fields| - 1], TextOf) == Map(fields[..|fields| - 1], TextOf);
    }
  }

  /** Every lone CR is read as the break it is, in front of the records and the text that follow. */
  predicate BreaksStand(records: seq<Record>, tail: string, delimiter: char) {
    forall i :: 0 <= i < |records| ==> BreakStands(records[i].end, Encoded(records[i + 1..], delimiter) + tail)
  }

  lemma EncodedRecords(records: seq<Record>, tail: string, delimiter: char)
    requires records != []
    ensures Encoded(records, delimiter) + tail
         == EncodedFields(records[0].fields, delimiter) + LineBreak(records[0].end) + (Encoded(records[1..], delimiter) + tail)
    ensures BreaksStand(records, tail, delimiter) ==>
              && BreakStands(records[0].end, Encoded(records[1..], delimiter) + tail)
              && BreaksStand(records[1..], tail, delimiter)
  {
    hide EncodedFields, LineBreak;
    assert forall i :: 0 <= i < |records[1..]| ==> records[1..][i] == records[i + 1] && records[1..][i + 1..] == records[i + 2..];
  }

  lemma {:induction false} ReadRecords(records: seq<Record>, tail: string, delimiter: char, rows: seq<seq<string>>)
    requires Separates(delimiter) && BreaksStand(records, tail, delimiter)
    requires forall r, f :: r in records && f in r.fields ==> Encodable(f, delimiter)
    ensures Tokens(Encoded(records, delimiter) + tail, delimiter, Scan(rows, [], "", false))
         == Tokens(tail, delimiter, Scan(rows + Map(records, ReadBack), [], "", false))
    decreases |records|
  {
    hide Tokens, ReadBack, EncodedFields, LineBreak, BreaksStand, BreakStands;
    if records == [] {
      assert "" + tail == tail && rows + Map(records, ReadBack) == rows;
    } else {
      var first, rest := records[0], Encoded(records[1..], delimiter) + tail;
      assert first in records;
      EncodedRecords(records, tail, delimiter);
      ReadRecord(first, rest, delimiter, rows);
      ReadRecords(records[1..], tail, delimiter, rows + [ReadBack(first)]);
      assert rows + [ReadBack(first)] + Map(records[1..], ReadBack) == rows + Map(records, ReadBack);
    }
  }

  /** A last record without a line break, read: nothing, when it is empty or one empty field. */
  function LastRow(last: seq<Field>): seq<seq<string>> {
    if last == [] || (|last| == 1 && last[0].text == "") then [] else [Map(last, TextOf)]
  }

  lemma ReadLast(last: seq<Field>, delimiter: char, rows: seq<seq<string>>)
    requires Separates(delimiter) && forall f :: f in last ==> Encodable(f, delimiter)
    ensures Tokens(EncodedFields(last, delimiter), delimiter, Scan(rows, [], "", false)) == rows + LastRow(last)
  {
    var s := Scan(rows, [], "", false);
    if last == [] {
      NoFields(delimiter);
    } else {
      hide EncodedFields, Encodable;
      var n := |last| - 1;
      ReadFields(last, "", delimiter, s);
      assert EncodedFields(last, delimiter) + "" == EncodedFields(last, delimiter);
      assert [] + Map(last[..n], TextOf) == Map(last[..n], TextOf);
      assert Map(last[..n], TextOf) + [last[n].text] == Map(last, TextOf);
      assert |Map(last[..n], TextOf)| == n;
    }
  }

  /** A sheet: records with their line breaks, and a last one without, which may be empty. */
  function Sheet(records: seq<Record>, last: seq<Field>, delimiter: char): string {
    Encoded(records, delimiter) + EncodedFields(last, delimiter)
  }

  /** The text opens with a byte-order mark of its own, which the parser would drop. */
  predicate OpensWithBom(text: string) {
    text != "" && text[0] == BOM
  }

  predicate Readable(records: seq<Record>, last: seq<Field>, delimiter: char) {
    && Separates(delimiter) && BreaksStand(records, EncodedFields(last, delimiter), delimiter)
    && (forall r, f :: r in records && f in r.fields ==> Encodable(f, delimiter))
    && (forall f :: f in last ==> Encodable(f, delimiter))
  }

  /**
   * The CSV round trip, for any mix of quoted and bare fields and of line breaks: parsing the encoding gives back every
   * record, an empty one as the one empty field of a blank line; a last line needs no line break, unless it is blank.
   * A byte-order mark in front does not count.
   */
  lemma ParseOfEncoded(records: seq<Record>, last: seq<Field>, delimiter: char)
    requires Readable(records, last, delimiter)
    ensures var text := Sheet(records, last, delimiter);
            && (!OpensWithBom(text) ==> Parsed(text, delimiter) == Map(records, ReadBack) + LastRow(last))
            && Parsed([BOM] + text, delimiter) == Map(records, ReadBack) + LastRow(last)
  {
    hide Tokens, EncodedFields, Encoded, BreaksStand, LastRow;
    var text := Sheet(records, last, delimiter);
    ReadRecords(records, EncodedFields(last, delimiter), delimiter, []);
    ReadLast(last, delimiter, Map(records, ReadBack));
    assert [] + Map(records, ReadBack) == Map(records, ReadBack);
    assert ([BOM] + text)[1..] == text;
  }

  /** The grid a sheet is meant to hold. */
  function GridOf(records: seq<Record>, last: seq<Field>): seq<seq<string>> {
    Map(records, TextsOf) + if last == [] then [] else [Map(last, TextOf)]
  }

  lemma GridsDiffer(records: seq<Record>, last: seq<Field>)
    ensures Map(records, ReadBack) + LastRow(last) == GridOf(records, last)
       <==> (forall r :: r in records ==> r.fields != []) && !(|last| == 1 && last[0].text == "")
  {
    var read, meant := Map(records, ReadBack) + LastRow(last), GridOf(records, last);
    assert |read| == |records| + |LastRow(last)|;
    if read == meant {
      forall r | r in records
        ensures r.fields != []
      {
        var i :| 0 <= i < |records| && records[i] == r;
        assert read[i] == ReadBack(r) && meant[i] == TextsOf(r);
      }
    }
  }

  /** So the grid itself comes back exactly when every record has a field, and the last line is not one empty field. */
  lemma RoundTripIffNoEmptyRecord(records: seq<Record>, last: seq<Field>, delimiter: char)
    requires Readable(records, last, delimiter) && !OpensWithBom(Sheet(records, last, delimiter))
    ensures Parsed(Sheet(records, last, delimiter), delimiter) == GridOf(records, last)
       <==> (forall r :: r in records ==> r.fields != []) && !(|last| == 1 && last[0].text == "")
  {
    hide Readable, Parsed, Sheet, LastRow, GridOf;
    ParseOfEncoded(records, last, delimiter);
    GridsDiffer(records, last);
  }

  /** With every field quoted no precondition on the texts is left. */
  lemma AllQuotedRoundTrip(records: seq<Record>, delimiter: char)
    requires Separates(delimiter)
    requires forall r :: r in records ==> r.fields != [] && forall f :: f in r.fields ==> f.Quoted?
    ensures Parsed(Encoded(records, delimiter), delimiter) == Map(records, TextsOf)
  {
    QuotedBreaksStand(records, delimiter);
    NoFields(delimiter);
    assert Sheet(records, [], delimiter) == Encoded(records, delimiter) && GridOf(records, []) == Map(records, TextsOf);
    if records != [] {
      assert records[0] in records;
      QuotedOpens(records, delimiter);
    }
    RoundTripIffNoEmptyRecord(records, [], delimiter);
  }

  lemma QuotedOpens(records: seq<Record>, delimiter: char)
    requires records != [] && records[0].fields != [] && records[0].fields[0].Quoted?
    ensures Encoded(records, delimiter) != "" && Encoded(records, delimiter)[0] == QUOTE
  {
    assert EncodedField(records[0].fields[0])[0] == QUOTE;
  }

  lemma QuotedBreaksStand(records: seq<Record>, delimiter: char)
    requires forall r :: r in records ==> r.fields != [] && forall f :: f in r.fields ==> f.Quoted?
    ensures BreaksStand(records, "", delimiter)
  {
    forall i | 0 <= i < |records|
      ensures BreakStands(records[i].end, Encoded(records[i + 1..], delimiter) + "")
    {
      var rest := records[i + 1..];
      if rest != [] {
        assert rest[0] == records[i + 1] && rest[0] in records && rest[0].fields[0] in rest[0].fields;
        QuotedOpens(rest, delimiter);
      }
      assert Encoded(rest, delimiter) + "" == Encoded(rest, delimiter);
    }
  }
}

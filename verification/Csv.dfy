/** The hand-written CSV export, and a reader for it that follows section 2 of RFC 4180 (rules 5 to
    7), with LF as the end of a record. */
module Csv {
  import opened Wrappers

  const QUOTE := '\"'

  // ----- The printer -----

  predicate NeedsQuotes(s: string) {
    ',' in s || QUOTE in s || '\n' in s
  }

  function DoubleQuote(c: char): string {
    if c == QUOTE then [QUOTE, QUOTE] else [c]
  }

  /** ReplaceAll(s, `"`, `""`). */
  function DoubleQuotes(s: string): string {
    if s == "" then "" else DoubleQuote(s[0]) + DoubleQuotes(s[1..])
  }

  function CsvEscape(s: string): string {
    if NeedsQuotes(s) then [QUOTE] + DoubleQuotes(s) + [QUOTE] else s
  }

  /** A row of the export. The first three columns are written as they are. */
  datatype ExportRow = ExportRow(
    date: string, txType: string, amount: string,
    category: string, description: string, notes: string, groupName: string)

  /** Dates, types and amounts as the format verbs write them. */
  predicate Plain(s: string) {
    !NeedsQuotes(s) && '\r' !in s
  }

  function RowText(r: ExportRow): string {
    r.date + "," + (r.txType + "," + (r.amount + "," + (CsvEscape(r.category) + "," + (CsvEscape(r.description) + ","
    + (CsvEscape(r.notes) + "," + (CsvEscape(r.groupName) + "\n"))))))
  }

  const HEADER :=
    "date" + "," + ("type" + "," + ("amount" + "," +
    ("category" + "," + ("description" + "," + ("notes" + "," + ("group_name" + "\n"))))))

  const HEADER_FIELDS := ["date", "type", "amount", "category", "description", "notes", "group_name"]

  function Fields(r: ExportRow): seq<string> {
    [r.date, r.txType, r.amount, r.category, r.description, r.notes, r.groupName]
  }

  method TransactionsExport(rows: seq<ExportRow>) returns (out: string)
    requires forall r :: r in rows ==> Plain(r.date) && Plain(r.txType) && Plain(r.amount)
    ensures Parse(out) ==
            if forall r :: r in rows ==> AllReadable(Fields(r)) then Some([HEADER_FIELDS] + AllFields(rows)) else None
  {
    out := HEADER;
    hide HEADER, HEADER_FIELDS, RowText, Fields, AllFields, Printed, Parse, Plain, AllReadable;
    NothingPrinted();
    for i := 0 to |rows|
      invariant out == HEADER + Printed(AllFields(rows[..i]))
    {
      ExportOneMore(rows, i);
      out := out + RowText(rows[i]);
    }
    assert rows[..|rows|] == rows;
    ExportParses(rows);
  }

  // ----- The reader -----

  datatype Read = Read(field: string, rest: string)

  /** The text of a quoted field after its opening quote; a doubled quote stands for one. */
  function ParseQuoted(s: string): (r: Option<Read>)
    ensures r.Some? ==> |r.value.rest| < |s|
  {
    if s == "" then None
    else if s[0] != QUOTE then
      match ParseQuoted(s[1..])
      case Some(r) => Some(Read([s[0]] + r.field, r.rest))
      case None => None
    else if |s| > 1 && s[1] == QUOTE then
      match ParseQuoted(s[2..])
      case Some(r) => Some(Read([QUOTE] + r.field, r.rest))
      case None => None
    else Some(Read("", s[1..]))
  }

  /** An unquoted field holds neither quotes nor line breaks. */
  function ParseBare(s: string): (r: Option<Read>)
    ensures r.Some? ==> |r.value.rest| <= |s|
  {
    if s == "" || s[0] == ',' || s[0] == '\n' then Some(Read("", s))
    else if s[0] == QUOTE || s[0] == '\r' then None
    else match ParseBare(s[1..])
      case Some(r) => Some(Read([s[0]] + r.field, r.rest))
      case None => None
  }

  function ParseField(s: string): (r: Option<Read>)
    ensures r.Some? ==> |r.value.rest| <= |s|
  {
    if s != "" && s[0] == QUOTE then ParseQuoted(s[1..]) else ParseBare(s)
  }

  datatype Record = Record(fields: seq<string>, rest: string)

  /** Fields separated by commas up to a line feed. */
  function ParseRecord(s: string): (r: Option<Record>)
    ensures r.Some? ==> |r.value.rest| < |s|
    decreases |s|
  {
    match ParseField(s)
    case None => None
    case Some(f) =>
      if f.rest == "" then None
      else if f.rest[0] == '\n' then Some(Record([f.field], f.rest[1..]))
      else if f.rest[0] == ',' then
        (match ParseRecord(f.rest[1..])
         case None => None
         case Some(r) => Some(Record([f.field] + r.fields, r.rest)))
      else None
  }

  function Parse(s: string): Option<seq<seq<string>>>
    decreases |s|
  {
    if s == "" then Some([])
    else match ParseRecord(s)
      case None => None
      case Some(r) =>
        match Parse(r.rest)
        case None => None
        case Some(more) => Some([r.fields] + more)
  }

  // ----- Printing and parsing -----

  /** The escape quotes for commas, quotes and line feeds, but not for a carriage return. */
  predicate Readable(f: string) {
    '\r' in f ==> NeedsQuotes(f)
  }

  predicate AllReadable(fields: seq<string>) {
    forall f :: f in fields ==> Readable(f)
  }

  predicate Ends(tail: string) {
    tail != "" && (tail[0] == ',' || tail[0] == '\n')
  }

  lemma QuotedCharBack(c: char, more: string)
    requires ParseQuoted(more).Some?
    ensures ParseQuoted(DoubleQuote(c) + more) ==
        Some(Read([c] + ParseQuoted(more).value.field, ParseQuoted(more).value.rest))
  {
    assert (DoubleQuote(c) + more)[|DoubleQuote(c)|..] == more;
  }

  lemma ClosingQuote(tail: string)
    requires Ends(tail)
    ensures ParseQuoted([QUOTE] + tail) == Some(Read("", tail))
  {
    assert ([QUOTE] + tail)[1..] == tail;
  }

  lemma {:induction false} QuotedBack(f: string, tail: string)
    requires Ends(tail)
    ensures ParseQuoted(DoubleQuotes(f) + [QUOTE] + tail) == Some(Read(f, tail))
  {
    hide ParseQuoted, DoubleQuote, Ends;
    if f == "" {
      ClosingQuote(tail);
      assert DoubleQuotes(f) + [QUOTE] + tail == [QUOTE] + tail;
    } else {
      var more := DoubleQuotes(f[1..]) + [QUOTE] + tail;
      QuotedBack(f[1..], tail);
      QuotedCharBack(f[0], more);
      assert DoubleQuotes(f) + [QUOTE] + tail == DoubleQuote(f[0]) + more;
      assert f == [f[0]] + f[1..];
    }
  }

  lemma {:induction false} BareBack(f: string, tail: string)
    requires Ends(tail) && !NeedsQuotes(f)
    ensures ParseBare(f + tail) == if '\r' in f then None else Some(Read(f, tail))
  {
    if f == "" {
      assert f + tail == tail;
    } else {
      assert (f + tail)[1..] == f[1..] + tail;
      assert f == [f[0]] + f[1..];
      BareBack(f[1..], tail);
    }
  }

  lemma QuotedFieldBack(f: string, tail: string)
    requires Ends(tail) && NeedsQuotes(f)
    ensures ParseField(CsvEscape(f) + tail) == Some(Read(f, tail))
  {
    hide ParseQuoted, DoubleQuotes, NeedsQuotes;
    QuotedBack(f, tail);
    assert (CsvEscape(f) + tail)[1..] == DoubleQuotes(f) + [QUOTE] + tail;
  }

  lemma BareFieldBack(f: string, tail: string)
    requires Ends(tail) && !NeedsQuotes(f)
    ensures ParseField(CsvEscape(f) + tail) == if '\r' in f then None else Some(Read(f, tail))
  {
    hide ParseQuoted, ParseBare;
    BareBack(f, tail);
    if f == "" {
      assert f + tail == tail;
    } else {
      assert f[0] in f;
    }
  }

  /** An escaped field is read back if and only if it is readable. */
  lemma FieldBack(f: string, tail: string)
    requires Ends(tail)
    ensures ParseField(CsvEscape(f) + tail) == if Readable(f) then Some(Read(f, tail)) else None
  {
    hide ParseField, CsvEscape, NeedsQuotes;
    if NeedsQuotes(f) {
      QuotedFieldBack(f, tail);
    } else {
      BareFieldBack(f, tail);
    }
  }

  function PrintFields(fields: seq<string>): string {
    if fields == [] then "\n"
    else if |fields| == 1 then CsvEscape(fields[0]) + "\n"
    else CsvEscape(fields[0]) + "," + PrintFields(fields[1..])
  }

  lemma {:induction false} RecordBack(fields: seq<string>, rest: string)
    requires fields != []
    ensures ParseRecord(PrintFields(fields) + rest) == if AllReadable(fields) then Some(Record(fields, rest)) else None
    decreases |fields|
  {
    hide ParseField, CsvEscape, Readable;
    var f := fields[0];
    assert fields == [f] + fields[1..];
    if |fields| == 1 {
      var tail := "\n" + rest;
      assert fields == [f];
      assert PrintFields(fields) + rest == CsvEscape(f) + tail;
      FieldBack(f, tail);
      assert tail[1..] == rest;
    } else {
      var tail := "," + (PrintFields(fields[1..]) + rest);
      assert PrintFields(fields) + rest == CsvEscape(f) + tail;
      FieldBack(f, tail);
      assert tail[1..] == PrintFields(fields[1..]) + rest;
      RecordBack(fields[1..], rest);
    }
  }

  function Printed(rows: seq<seq<string>>): string {
    if rows == [] then "" else PrintFields(rows[0]) + Printed(rows[1..])
  }

  ghost predicate NoEmptyRow(rows: seq<seq<string>>) {
    forall i :: 0 <= i < |rows| ==> rows[i] != []
  }

  ghost predicate RowsReadable(rows: seq<seq<string>>) {
    forall r :: r in rows ==> AllReadable(r)
  }

  /** Rows printed one after the other parse to the same rows, if every field is readable, and not
      at all otherwise. */
  lemma {:induction false} PrintParse(rows: seq<seq<string>>)
    requires NoEmptyRow(rows)
    ensures Parse(Printed(rows)) == if RowsReadable(rows) then Some(rows) else None
    decreases |rows|
  {
    assert rows != [] ==> PrintFields(rows[0]) != "";
    hide ParseRecord, PrintFields, AllReadable;
    if rows != [] {
      var more := rows[1..];
      assert rows == [rows[0]] + more;
      RecordBack(rows[0], Printed(more));
      PrintParse(more);
    }
  }

  // ----- The export's rows -----

  function AllFields(rows: seq<ExportRow>): seq<seq<string>> {
    seq(|rows|, i requires 0 <= i < |rows| => Fields(rows[i]))
  }

  lemma PrintCons(f: string, more: seq<string>)
    ensures PrintFields([f] + more) == CsvEscape(f) + if more == [] then "\n" else "," + PrintFields(more)
  {
    assert ([f] + more)[1..] == more;
    assert more != [] ==> CsvEscape(f) + "," + PrintFields(more) == CsvEscape(f) + ("," + PrintFields(more));
  }

  lemma PrintStep(f: string, more: seq<string>)
    requires more != []
    ensures PrintFields([f] + more) == CsvEscape(f) + "," + PrintFields(more)
  {
    assert ([f] + more)[1..] == more;
  }

  /** The row format is the escape on every field: the plain ones need none. */
  lemma PlainRow(r: ExportRow)
    requires Plain(r.date) && Plain(r.txType) && Plain(r.amount)
    ensures RowText(r) == PrintFields(Fields(r))
  {
    assert CsvEscape(r.date) == r.date && CsvEscape(r.txType) == r.txType && CsvEscape(r.amount) == r.amount;
    hide CsvEscape, PrintFields;
    PrintCons(r.groupName, []);
    assert [r.groupName] + [] == [r.groupName];
    PrintStep(r.notes, [r.groupName]);
    PrintStep(r.description, [r.notes, r.groupName]);
    PrintStep(r.category, [r.description, r.notes, r.groupName]);
    PrintStep(r.amount, [r.category, r.description, r.notes, r.groupName]);
    PrintStep(r.txType, [r.amount, r.category, r.description, r.notes, r.groupName]);
    PrintStep(r.date, [r.txType, r.amount, r.category, r.description, r.notes, r.groupName]);
  }

  lemma {:induction false} PrintedOneMore(rows: seq<seq<string>>, row: seq<string>)
    ensures Printed(rows + [row]) == Printed(rows) + PrintFields(row)
    decreases |rows|
  {
    hide PrintFields;
    if rows == [] {
      assert rows + [row] == [row];
      assert PrintFields(row) + "" == PrintFields(row) == "" + PrintFields(row);
    } else {
      assert (rows + [row])[1..] == rows[1..] + [row];
      PrintedOneMore(rows[1..], row);
    }
  }

  lemma NothingPrinted()
    ensures HEADER + Printed(AllFields([])) == HEADER
  {
    hide HEADER;
    assert AllFields([]) == [];
  }

  lemma ExportOneMore(rows: seq<ExportRow>, i: nat)
    requires i < |rows| && Plain(rows[i].date) && Plain(rows[i].txType) && Plain(rows[i].amount)
    ensures HEADER + Printed(AllFields(rows[..i + 1])) == HEADER + Printed(AllFields(rows[..i])) + RowText(rows[i])
  {
    PlainRow(rows[i]);
    hide HEADER, RowText, PrintFields, Fields, Printed;
    assert AllFields(rows[..i + 1]) == AllFields(rows[..i]) + [Fields(rows[i])];
    PrintedOneMore(AllFields(rows[..i]), Fields(rows[i]));
  }

  lemma PlainWords()
    ensures Plain("date") && Plain("type") && Plain("amount") && Plain("notes")
  {
  }

  lemma MorePlainWords()
    ensures Plain("category")
    ensures Plain("group_name")
  {
  }

  lemma OneMorePlainWord()
    ensures Plain("description")
  {
  }

  lemma PlainIsReadable(s: string)
    requires Plain(s)
    ensures CsvEscape(s) == s && Readable(s)
  {
  }

  lemma HeaderIsARow()
    ensures HEADER == PrintFields(HEADER_FIELDS) && AllReadable(HEADER_FIELDS)
  {
    PlainWords();
    MorePlainWords();
    OneMorePlainWord();
    hide Plain, PrintFields, CsvEscape, Readable, NeedsQuotes;
    PlainRow(ExportRow("date", "type", "amount", "category", "description", "notes", "group_name"));
    forall f | f in HEADER_FIELDS
      ensures CsvEscape(f) == f && Readable(f)
    {
      PlainIsReadable(f);
    }
    assert HEADER_FIELDS[3] == "category" && HEADER_FIELDS[4] == "description";
    assert HEADER_FIELDS[5] == "notes" && HEADER_FIELDS[6] == "group_name";
  }

  /** The export reads back as its header and rows, unless a field has a bare carriage return. */
  lemma ExportParses(rows: seq<ExportRow>)
    ensures Parse(HEADER + Printed(AllFields(rows))) ==
            if forall r :: r in rows ==> AllReadable(Fields(r)) then Some([HEADER_FIELDS] + AllFields(rows)) else None
  {
    HeaderIsARow();
    var fields := AllFields(rows);
    var all := [HEADER_FIELDS] + fields;
    assert all[1..] == fields;
    assert Printed(all) == HEADER + Printed(fields);
    assert NoEmptyRow(all);
    hide HEADER, HEADER_FIELDS, Parse, PrintFields, Printed, AllReadable, Fields, NoEmptyRow;
    PrintParse(all);
    FieldsListed(rows);
  }

  lemma FieldsListed(rows: seq<ExportRow>)
    ensures forall r :: r in rows ==> Fields(r) in AllFields(rows)
    ensures forall f :: f in AllFields(rows) ==> exists r :: r in rows && f == Fields(r)
  {
    hide Fields;
    forall r | r in rows
      ensures Fields(r) in AllFields(rows)
    {
      var i :| 0 <= i < |rows| && rows[i] == r;
      assert AllFields(rows)[i] == Fields(r);
    }
  }
}

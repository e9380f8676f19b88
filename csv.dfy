/** The record reader of Go's `encoding/csv` with its default settings (comma
    separator, no comment character, `FieldsPerRecord` 0, strict quotes, no
    leading-space trimming), which follows section 2 of RFC 4180.

    The reader sees its input as lines: a carriage return that ends a line is
    dropped, and so is one trailing carriage return at the very end of the
    input (`Normalize`). Empty lines between records are skipped. A field
    that starts with a double quote runs to the next lone double quote, may
    span lines, and reads a doubled quote as one quote character; any other
    field runs to the next comma or line end and may not contain a quote.
    Every record must have as many fields as the first one. */
module Csv {
  import opened Common

  /** The three ways `ReadAll` fails with the default settings. */
  datatype CsvError = BareQuote | ExtraneousQuote | FieldCount

  /** The text of the error (Go's `ErrBareQuote`, `ErrQuote`, `ErrFieldCount`). */
  function Message(e: CsvError): (text: string)
  {
    match e
    case BareQuote => "bare \" in non-quoted-field"
    case ExtraneousQuote => "extraneous or missing \" in quoted-field"
    case FieldCount => "wrong number of fields"
  }

  /** The fields of one record and the input left after it. */
  datatype Scan = Scan(fields: seq<string>, rest: string)

  /** The input as the reader's lines deliver it: every "\r\n" becomes "\n" and a
      carriage return at the end of the input is dropped. */
  function Normalize(s: string): (n: string)
  {
    if s == [] then []
    else if |s| >= 2 && s[0] == '\r' && s[1] == '\n' then "\n" + Normalize(s[2..])
    else if s == "\r" then []
    else [s[0]] + Normalize(s[1..])
  }

  /** Reads the body of a quoted field; `t` starts just after the opening quote.
      Yields the field's text and the input after the closing quote. */
  function ReadQuoted(t: string): (r: Result<(string, string), CsvError>)
    ensures r.Ok? ==> |r.value.1| < |t|
    ensures r.Err? ==> r.error == ExtraneousQuote
  {
    if t == [] then Err(ExtraneousQuote)
    else if t[0] == '"' then
      if |t| >= 2 && t[1] == '"' then
        match ReadQuoted(t[2..])
        case Err(e) => Err(e)
        case Ok((text, after)) => Ok(("\"" + text, after))
      else Ok(([], t[1..]))
    else
      match ReadQuoted(t[1..])
      case Err(e) => Err(e)
      case Ok((text, after)) => Ok(([t[0]] + text, after))
  }

  /** Index of the first comma or line feed in `s`, or `|s|` when there is none. */
  function FieldEnd(s: string): (i: nat)
    ensures i <= |s|
    ensures forall k :: 0 <= k < i ==> s[k] != ',' && s[k] != '\n'
    ensures i < |s| ==> s[i] == ',' || s[i] == '\n'
  {
    if s == [] || s[0] == ',' || s[0] == '\n' then 0 else 1 + FieldEnd(s[1..])
  }

  /** Reads the fields of one record, from the start of a field to the end of
      the record's line (or of the input). */
  function ReadFields(s: string): (r: Result<Scan, CsvError>)
    ensures r.Ok? ==> |r.value.fields| >= 1
    ensures r.Ok? ==> |r.value.rest| <= |s| && (s != [] ==> |r.value.rest| < |s|)
    decreases |s|
  {
    if s != [] && s[0] == '"' then
      match ReadQuoted(s[1..])
      case Err(e) => Err(e)
      case Ok((text, after)) =>
        if after == [] then Ok(Scan([text], []))
        else if after[0] == '\n' then Ok(Scan([text], after[1..]))
        else if after[0] == ',' then
          match ReadFields(after[1..])
          case Err(e) => Err(e)
          case Ok(more) => Ok(Scan([text] + more.fields, more.rest))
        else Err(ExtraneousQuote)
    else
      var i := FieldEnd(s);
      var text := s[..i];
      if '"' in text then Err(BareQuote)
      else if i < |s| && s[i] == ',' then
        match ReadFields(s[i + 1..])
        case Err(e) => Err(e)
        case Ok(more) => Ok(Scan([text] + more.fields, more.rest))
      else Ok(Scan([text], if i < |s| then s[i + 1..] else []))
  }

  /** Reads every record of `s`; `width` is the field count fixed by the first
      record, once there is one. */
  function Records(s: string, width: Option<nat>): (r: Result<seq<seq<string>>, CsvError>)
    decreases |s|
  {
    if s == [] then Ok([])
    else if s[0] == '\n' then Records(s[1..], width)
    else
      match ReadFields(s)
      case Err(e) => Err(e)
      case Ok(scan) =>
        if width.Some? && |scan.fields| != width.value then Err(FieldCount)
        else
          match Records(scan.rest, Some(|scan.fields|))
          case Err(e) => Err(e)
          case Ok(more) => Ok([scan.fields] + more)
  }

  /** `csv.NewReader(strings.NewReader(s)).ReadAll()`. */
  function ReadAll(s: string): (r: Result<seq<seq<string>>, CsvError>)
  {
    Records(Normalize(s), None)
  }

  /** Every record read has at least one field, and all have the width of the
      first (or of `width`, when it is given). */
  lemma {:induction false} RecordsUniform(s: string, width: Option<nat>)
    requires Records(s, width).Ok?
    ensures var recs := Records(s, width).value;
      forall k :: 0 <= k < |recs| ==>
        |recs[k]| >= 1 && |recs[k]| == |recs[0]| && (width.Some? ==> |recs[k]| == width.value)
    decreases |s|
  {
    if s != [] {
      if s[0] == '\n' {
        RecordsUniform(s[1..], width);
      } else {
        var scan := ReadFields(s).value;
        RecordsUniform(scan.rest, Some(|scan.fields|));
      }
    }
  }

  /** All records `ReadAll` returns have the same, non-zero, number of fields. */
  lemma ReadAllUniform(s: string)
    requires ReadAll(s).Ok?
    ensures forall k :: 0 <= k < |ReadAll(s).value| ==>
      |ReadAll(s).value[k]| >= 1 && |ReadAll(s).value[k]| == |ReadAll(s).value[0]|
  {
    RecordsUniform(Normalize(s), None);
  }

  // ---------------------------------------------------------------------------
  // Writing records the way the query engine's CSV mode does, so that reading
  // can be shown to invert it.

  /** A field the engine writes without quotes: non-empty printable ASCII with
      no space, no double or single quote and no comma. Every other field is
      quoted. */
  predicate Bare(text: string)
  {
    text != [] && forall i :: 0 <= i < |text| ==>
      '!' <= text[i] <= '~' && text[i] != '"' && text[i] != '\'' && text[i] != ','
  }

  /** A field's text with each double quote doubled. */
  function Escape(text: string): (e: string)
  {
    if text == [] then []
    else if text[0] == '"' then "\"\"" + Escape(text[1..])
    else [text[0]] + Escape(text[1..])
  }

  /** A field written quoted. */
  function Quote(text: string): (q: string)
  {
    "\"" + Escape(text) + "\""
  }

  /** A field as written: bare when it can be, quoted otherwise. */
  function Field(text: string): (f: string)
  {
    if Bare(text) then text else Quote(text)
  }

  /** The fields of a record, separated by commas. */
  function EncodeFields(fields: seq<string>): (line: string)
    requires |fields| >= 1
  {
    if |fields| == 1 then Field(fields[0])
    else Field(fields[0]) + "," + EncodeFields(fields[1..])
  }

  /** Records written one per line, each ended by `eol`: "\r\n" for the engine's
      output, "\n" for the lines the reader sees once it has dropped the carriage
      returns. */
  function Encode(records: seq<seq<string>>, eol: string): (s: string)
    requires forall k :: 0 <= k < |records| ==> |records[k]| >= 1
  {
    if records == [] then [] else EncodeFields(records[0]) + eol + Encode(records[1..], eol)
  }

  /** No cell of any record holds a carriage return, which the reader's line
      handling could turn into something else. */
  predicate NoCarriageReturn(records: seq<seq<string>>)
  {
    forall k, j :: 0 <= k < |records| && 0 <= j < |records[k]| ==> '\r' !in records[k][j]
  }

  lemma {:induction false} ReadQuotedEscape(text: string, tail: string)
    requires tail == [] || tail[0] != '"'
    ensures ReadQuoted(Escape(text) + "\"" + tail) == Ok((text, tail))
    decreases |text|
  {
    var t := Escape(text) + "\"" + tail;
    if text == [] {
      assert t == "\"" + tail;
    } else if text[0] == '"' {
      ReadQuotedEscape(text[1..], tail);
      assert t == "\"\"" + (Escape(text[1..]) + "\"" + tail);
      assert t[2..] == Escape(text[1..]) + "\"" + tail;
      assert "\"" + text[1..] == text;
    } else {
      ReadQuotedEscape(text[1..], tail);
      assert t == [text[0]] + (Escape(text[1..]) + "\"" + tail);
      assert t[1..] == Escape(text[1..]) + "\"" + tail;
      assert [text[0]] + text[1..] == text;
    }
  }

  /** A quoted field followed by `after`, as `ReadFields` sees it. */
  lemma ReadFieldsQuoted(text: string, after: string)
    requires after != [] && (after[0] == '\n' || after[0] == ',')
    ensures var s := Quote(text) + after;
      s[0] == '"' && ReadQuoted(s[1..]) == Ok((text, after))
  {
    var s := Quote(text) + after;
    assert s == "\"" + (Escape(text) + "\"" + after);
    assert s[1..] == Escape(text) + "\"" + after;
    ReadQuotedEscape(text, after);
  }

  /** A bare field ends where the comma or line feed after it starts. */
  lemma {:induction false} FieldEndBare(text: string, after: string)
    requires forall i :: 0 <= i < |text| ==> text[i] != ',' && text[i] != '\n'
    requires after != [] && (after[0] == '\n' || after[0] == ',')
    ensures FieldEnd(text + after) == |text|
    decreases |text|
  {
    var s := text + after;
    if text != [] {
      assert s[1..] == text[1..] + after;
      FieldEndBare(text[1..], after);
    } else {
      assert s == after;
    }
  }

  /** A bare field followed by `after`, as `ReadFields` sees it. */
  lemma ReadFieldsBare(text: string, after: string)
    requires Bare(text)
    requires after != [] && (after[0] == '\n' || after[0] == ',')
    ensures var s := text + after;
      && s[0] != '"' && FieldEnd(s) == |text| && s[..|text|] == text && '"' !in text
      && s[|text|] == after[0] && s[|text| + 1..] == after[1..]
  {
    FieldEndBare(text, after);
    var s := text + after;
    assert s[..|text|] == text;
    assert s[|text| + 1..] == after[1..];
  }

  /** A written field followed by the end of its line or by a comma, as
      `ReadFields` reads it. */
  lemma ReadFieldsField(text: string, after: string)
    requires after != [] && (after[0] == '\n' || after[0] == ',')
    ensures after[0] == '\n' ==> ReadFields(Field(text) + after) == Ok(Scan([text], after[1..]))
    ensures after[0] == ',' ==>
      ReadFields(Field(text) + after) ==
        (match ReadFields(after[1..])
         case Err(e) => Err(e)
         case Ok(more) => Ok(Scan([text] + more.fields, more.rest)))
  {
    if Bare(text) {
      ReadFieldsBare(text, after);
    } else {
      ReadFieldsQuoted(text, after);
    }
  }

  lemma {:induction false} ReadFieldsEncode(fields: seq<string>, tail: string)
    requires |fields| >= 1
    ensures ReadFields(EncodeFields(fields) + "\n" + tail) == Ok(Scan(fields, tail))
    decreases |fields|
  {
    if |fields| > 1 {
      ReadFieldsEncodeMore(fields, tail);
    } else {
      var after := "\n" + tail;
      assert EncodeFields(fields) + "\n" + tail == Field(fields[0]) + after;
      ReadFieldsField(fields[0], after);
      assert after[1..] == tail;
      assert [fields[0]] == fields;
    }
  }

  lemma {:induction false} ReadFieldsEncodeMore(fields: seq<string>, tail: string)
    requires |fields| > 1
    ensures ReadFields(EncodeFields(fields) + "\n" + tail) == Ok(Scan(fields, tail))
    decreases |fields|, 0
  {
    var more := EncodeFields(fields[1..]) + "\n" + tail;
    var after := "," + more;
    assert EncodeFields(fields) + "\n" + tail == Field(fields[0]) + after;
    ReadFieldsEncode(fields[1..], tail);
    assert after[1..] == more;
    assert ReadFields(after[1..]) == Ok(Scan(fields[1..], tail));
    ReadFieldsField(fields[0], after);
    assert [fields[0]] + fields[1..] == fields;
  }

  /** A written record is never an empty line: it starts with a quote or with a
      printable character. */
  lemma EncodeFieldsStart(fields: seq<string>)
    requires |fields| >= 1
    ensures |EncodeFields(fields)| >= 1 && EncodeFields(fields)[0] != '\n'
  {
    if Bare(fields[0]) {
      assert Field(fields[0])[0] == fields[0][0];
    }
  }

  lemma {:induction false} RecordsEncode(records: seq<seq<string>>, width: Option<nat>)
    requires forall k :: 0 <= k < |records| ==> |records[k]| >= 1
    requires forall k :: 0 <= k < |records| ==> |records[k]| == |records[0]|
    requires records != [] && width.Some? ==> |records[0]| == width.value
    ensures Records(Encode(records, "\n"), width) == Ok(records)
    decreases |records|
  {
    if records != [] {
      var first := records[0];
      var rest := Encode(records[1..], "\n");
      var s := Encode(records, "\n");
      assert s == EncodeFields(first) + "\n" + rest;
      EncodeFieldsStart(first);
      assert s[0] != '\n';
      ReadFieldsEncode(first, rest);
      assert ReadFields(s) == Ok(Scan(first, rest));
      RecordsEncode(records[1..], Some(|first|));
      assert Records(rest, Some(|first|)) == Ok(records[1..]);
      assert [first] + records[1..] == records;
    }
  }

  lemma {:induction false} EscapeNoCarriageReturn(text: string)
    requires '\r' !in text
    ensures '\r' !in Escape(text)
    decreases |text|
  {
    if text != [] {
      assert forall c :: c in text[1..] ==> c in text;
      EscapeNoCarriageReturn(text[1..]);
    }
  }

  lemma {:induction false} EncodeFieldsNoCarriageReturn(fields: seq<string>)
    requires |fields| >= 1
    requires forall j :: 0 <= j < |fields| ==> '\r' !in fields[j]
    ensures '\r' !in EncodeFields(fields)
    decreases |fields|
  {
    EscapeNoCarriageReturn(fields[0]);
    if |fields| > 1 {
      EncodeFieldsNoCarriageReturn(fields[1..]);
    }
  }

  /** Text without carriage returns passes through `Normalize` unchanged, whatever
      follows it. */
  lemma {:induction false} NormalizeSkipsPlain(a: string, b: string)
    requires '\r' !in a
    ensures Normalize(a + b) == a + Normalize(b)
    decreases |a|
  {
    if a != [] {
      var s := a + b;
      assert s[0] == a[0] && s[1..] == a[1..] + b;
      NormalizeSkipsPlain(a[1..], b);
      assert [a[0]] + (a[1..] + Normalize(b)) == a + Normalize(b);
    } else {
      assert a + b == b;
    }
  }

  lemma NormalizeIdentity(s: string)
    requires '\r' !in s
    ensures Normalize(s) == s
  {
    NormalizeSkipsPlain(s, []);
    assert s + [] == s;
  }

  /** The reader sees written records, whether their lines end in "\r\n" or in
      "\n", as the same records ended by line feeds. */
  lemma {:induction false} NormalizeEncode(records: seq<seq<string>>, eol: string)
    requires eol == "\r\n" || eol == "\n"
    requires forall k :: 0 <= k < |records| ==> |records[k]| >= 1
    requires NoCarriageReturn(records)
    ensures Normalize(Encode(records, eol)) == Encode(records, "\n")
    decreases |records|
  {
    if records != [] {
      var line := EncodeFields(records[0]);
      var rest := Encode(records[1..], eol);
      EncodeFieldsNoCarriageReturn(records[0]);
      NormalizeEncode(records[1..], eol);
      assert Encode(records, eol) == line + eol + rest;
      NormalizeLine(line, eol, rest);
      assert line + "\n" + Encode(records[1..], "\n") == Encode(records, "\n");
    }
  }

  /** One written line, whichever its line end, as the reader sees it. */
  lemma NormalizeLine(line: string, eol: string, rest: string)
    requires eol == "\r\n" || eol == "\n"
    requires '\r' !in line
    ensures Normalize(line + eol + rest) == line + "\n" + Normalize(rest)
  {
    if eol == "\r\n" {
      assert line + eol + rest == line + ("\r\n" + rest);
      NormalizeSkipsPlain(line, "\r\n" + rest);
      assert ("\r\n" + rest)[2..] == rest;
      assert Normalize("\r\n" + rest) == "\n" + Normalize(rest);
    } else {
      assert '\r' !in line + "\n";
      NormalizeSkipsPlain(line + "\n", rest);
    }
  }

  /** Round trip: reading back written records yields the records, whether the
      lines end in "\r\n" or in "\n", provided they all have the same non-zero
      width and no cell holds a carriage return. */
  lemma ReadAllEncode(records: seq<seq<string>>, eol: string)
    requires eol == "\r\n" || eol == "\n"
    requires forall k :: 0 <= k < |records| ==> |records[k]| >= 1
    requires forall k :: 0 <= k < |records| ==> |records[k]| == |records[0]|
    requires NoCarriageReturn(records)
    ensures ReadAll(Encode(records, eol)) == Ok(records)
  {
    NormalizeEncode(records, eol);
    RecordsEncode(records, None);
  }

  lemma {:induction false} ReadQuotedNoQuote(t: string)
    requires '"' !in t
    ensures ReadQuoted(t) == Err(ExtraneousQuote)
    decreases |t|
  {
    if t != [] {
      ReadQuotedNoQuote(t[1..]);
    }
  }

  lemma {:induction false} NormalizeKeepsNoQuote(s: string)
    requires '"' !in s
    ensures '"' !in Normalize(s)
    decreases |s|
  {
    if s != [] {
      if |s| >= 2 && s[0] == '\r' && s[1] == '\n' {
        NormalizeKeepsNoQuote(s[2..]);
      } else if s != "\r" {
        NormalizeKeepsNoQuote(s[1..]);
      }
    }
  }

  /** The complete fields of a record written before a later field of the same
      record: nothing, or the fields followed by a comma. */
  function Leading(fields: seq<string>): (s: string)
  {
    if fields == [] then [] else EncodeFields(fields) + ","
  }

  /** A field that fails to read makes the whole record fail the same way,
      whatever complete fields come before it on its line. */
  lemma {:induction false} ReadFieldsAfter(fields: seq<string>, bad: string)
    requires |fields| >= 1
    requires ReadFields(bad).Err?
    ensures ReadFields(EncodeFields(fields) + "," + bad) == ReadFields(bad)
    decreases |fields|
  {
    var more := if |fields| == 1 then bad else EncodeFields(fields[1..]) + "," + bad;
    assert EncodeFields(fields) + "," + bad == Field(fields[0]) + "," + more;
    if |fields| > 1 {
      ReadFieldsAfter(fields[1..], bad);
    }
    ReadFieldsFieldFails(fields[0], more);
  }

  lemma ReadFieldsFieldFails(text: string, rest: string)
    requires ReadFields(rest).Err?
    ensures ReadFields(Field(text) + "," + rest) == ReadFields(rest)
  {
    assert Field(text) + "," + rest == Field(text) + ("," + rest);
    ReadFieldsField(text, "," + rest);
    assert ("," + rest)[1..] == rest;
  }

  lemma ReadFieldsLeading(fields: seq<string>, bad: string)
    requires ReadFields(bad).Err?
    requires bad != [] && bad[0] != '\n'
    ensures var line := Leading(fields) + bad;
      line != [] && line[0] != '\n' && ReadFields(line) == ReadFields(bad)
  {
    if fields != [] {
      ReadFieldsAfter(fields, bad);
      EncodeFieldsStart(fields);
      assert (Leading(fields) + bad)[0] == EncodeFields(fields)[0];
    } else {
      assert Leading(fields) + bad == bad;
    }
  }

  /** A line that fails to read, after any number of well-formed records, makes
      the whole read fail with that line's error. */
  lemma {:induction false} RecordsFailAfter(records: seq<seq<string>>, width: Option<nat>, line: string)
    requires forall k :: 0 <= k < |records| ==> |records[k]| >= 1
    requires forall k :: 0 <= k < |records| ==> |records[k]| == |records[0]|
    requires records != [] && width.Some? ==> |records[0]| == width.value
    requires line != [] && line[0] != '\n' && ReadFields(line).Err?
    ensures Records(Encode(records, "\n") + line, width) == Err(ReadFields(line).error)
    decreases |records|
  {
    if records == [] {
      assert Encode(records, "\n") + line == line;
    } else {
      EncodeCons(records, "\n", line);
      RecordsFailAfter(records[1..], Some(|records[0]|), line);
      RecordsFailStep(records[0], Encode(records[1..], "\n") + line, width);
    }
  }

  /** Unfolds one written record in front of `rest`. */
  lemma EncodeCons(records: seq<seq<string>>, eol: string, rest: string)
    requires records != []
    requires forall k :: 0 <= k < |records| ==> |records[k]| >= 1
    ensures Encode(records, eol) + rest == EncodeFields(records[0]) + eol + (Encode(records[1..], eol) + rest)
  {
  }

  /** A well-formed record passes a failure of what follows it through. */
  lemma RecordsFailStep(first: seq<string>, rest: string, width: Option<nat>)
    requires |first| >= 1
    requires width.Some? ==> |first| == width.value
    requires Records(rest, Some(|first|)).Err?
    ensures Records(EncodeFields(first) + "\n" + rest, width) == Records(rest, Some(|first|))
  {
    var s := EncodeFields(first) + "\n" + rest;
    EncodeFieldsStart(first);
    assert s[0] == EncodeFields(first)[0];
    ReadFieldsEncode(first, rest);
  }

  /** Well-formed records and whatever follows them, as the reader sees them. */
  lemma {:induction false} NormalizeEncodeThen(records: seq<seq<string>>, eol: string, rest: string)
    requires eol == "\r\n" || eol == "\n"
    requires forall k :: 0 <= k < |records| ==> |records[k]| >= 1
    requires NoCarriageReturn(records)
    ensures Normalize(Encode(records, eol) + rest) == Encode(records, "\n") + Normalize(rest)
    decreases |records|
  {
    if records == [] {
      assert Encode(records, eol) + rest == rest;
    } else {
      var line := EncodeFields(records[0]);
      EncodeFieldsNoCarriageReturn(records[0]);
      EncodeCons(records, eol, rest);
      NormalizeLine(line, eol, Encode(records[1..], eol) + rest);
      NormalizeEncodeThen(records[1..], eol, rest);
      EncodeCons(records, "\n", Normalize(rest));
    }
  }

  /** A read whose first failing line is `Leading(fields) + bad`, after
      well-formed records, fails with the error of `bad`. */
  lemma ReadAllFailsAt(records: seq<seq<string>>, eol: string, fields: seq<string>, bad: string)
    requires eol == "\r\n" || eol == "\n"
    requires forall k :: 0 <= k < |records| ==> |records[k]| >= 1
    requires forall k :: 0 <= k < |records| ==> |records[k]| == |records[0]|
    requires NoCarriageReturn(records) && NoCarriageReturn([fields])
    requires bad != [] && bad[0] != '\n' && ReadFields(Normalize(bad)).Err?
    requires Normalize(bad) != [] && Normalize(bad)[0] != '\n'
    ensures ReadAll(Encode(records, eol) + Leading(fields) + bad) == Err(ReadFields(Normalize(bad)).error)
  {
    assert Encode(records, eol) + Leading(fields) + bad == Encode(records, eol) + (Leading(fields) + bad);
    NormalizeEncodeThen(records, eol, Leading(fields) + bad);
    if fields != [] {
      assert forall j :: 0 <= j < |fields| ==> fields[j] == [fields][0][j];
      EncodeFieldsNoCarriageReturn(fields);
      assert '\r' !in Leading(fields);
    }
    NormalizeSkipsPlain(Leading(fields), bad);
    ReadFieldsLeading(fields, Normalize(bad));
    RecordsFailAfter(records, None, Leading(fields) + Normalize(bad));
  }

  /** An unclosed quoted field, as the reader sees it, fails to read. */
  lemma UnterminatedField(t: string)
    requires '"' !in t
    ensures var n := Normalize("\"" + t);
      n != [] && n[0] == '"' && ReadFields(n) == Err(ExtraneousQuote)
  {
    NormalizeSkipsPlain("\"", t);
    NormalizeKeepsNoQuote(t);
    ReadQuotedNoQuote(Normalize(t));
    assert ("\"" + Normalize(t))[1..] == Normalize(t);
  }

  /** What follows a field ends it, as the reader sees it: nothing, a comma, or
      a line end. */
  lemma NormalizeFieldEnd(rest: string)
    requires || rest == [] || rest[0] == ',' || rest[0] == '\n'
             || (|rest| >= 2 && rest[0] == '\r' && rest[1] == '\n') || rest == "\r"
    ensures var n := Normalize(rest); n == [] || n[0] == ',' || n[0] == '\n'
  {
  }

  /** An unquoted field holding a quote fails to read, whatever comes after the
      comma or line end that closes it. */
  lemma BareQuoteField(a: string, b: string, rest: string)
    requires a != [] && a[0] != '"'
    requires forall c :: c in a + b ==> c != ',' && c != '\n' && c != '\r'
    requires || rest == [] || rest[0] == ',' || rest[0] == '\n'
             || (|rest| >= 2 && rest[0] == '\r' && rest[1] == '\n') || rest == "\r"
    ensures var s := a + "\"" + b + rest;
      var n := Normalize(s);
      n != [] && n[0] != '\n' && s[0] != '\n' && ReadFields(n) == Err(BareQuote)
  {
    var p := a + "\"" + b;
    assert forall c :: c in p ==> c in a + b || c == '"';
    assert p + rest == a + "\"" + b + rest;
    NormalizeSkipsPlain(p, rest);
    var tail := Normalize(rest);
    NormalizeFieldEnd(rest);
    var n := p + tail;
    assert forall k :: 0 <= k < |p| ==> p[k] in p;
    assert forall k :: 0 <= k < |p| ==> p[k] != ',' && p[k] != '\n';
    if tail == [] {
      assert n == p;
    } else {
      FieldEndBare(p, tail);
    }
    assert FieldEnd(n) == |p|;
    assert n[..|p|] == p;
    assert p[|a|] == '"';
  }

  /** An opening quote that is never closed is an error, whatever follows it and
      wherever it stands: after any well-formed records, and after any complete
      fields of its own record. */
  lemma UnterminatedQuoteFails(records: seq<seq<string>>, eol: string, fields: seq<string>, t: string)
    requires eol == "\r\n" || eol == "\n"
    requires forall k :: 0 <= k < |records| ==> |records[k]| >= 1
    requires forall k :: 0 <= k < |records| ==> |records[k]| == |records[0]|
    requires NoCarriageReturn(records) && NoCarriageReturn([fields])
    requires '"' !in t
    ensures ReadAll(Encode(records, eol) + Leading(fields) + ("\"" + t)) == Err(ExtraneousQuote)
  {
    UnterminatedField(t);
    ReadAllFailsAt(records, eol, fields, "\"" + t);
  }

  /** A quote inside an unquoted field is an error, wherever the field stands:
      after any well-formed records, after any complete fields of its own
      record, and before anything that follows the comma or line end closing
      it. */
  lemma BareQuoteFails(records: seq<seq<string>>, eol: string, fields: seq<string>, a: string, b: string, rest: string)
    requires eol == "\r\n" || eol == "\n"
    requires forall k :: 0 <= k < |records| ==> |records[k]| >= 1
    requires forall k :: 0 <= k < |records| ==> |records[k]| == |records[0]|
    requires NoCarriageReturn(records) && NoCarriageReturn([fields])
    requires a != [] && a[0] != '"'
    requires forall c :: c in a + b ==> c != ',' && c != '\n' && c != '\r'
    requires || rest == [] || rest[0] == ',' || rest[0] == '\n'
             || (|rest| >= 2 && rest[0] == '\r' && rest[1] == '\n') || rest == "\r"
    ensures ReadAll(Encode(records, eol) + Leading(fields) + (a + "\"" + b + rest)) == Err(BareQuote)
  {
    BareQuoteField(a, b, rest);
    ReadAllFailsAt(records, eol, fields, a + "\"" + b + rest);
  }
}

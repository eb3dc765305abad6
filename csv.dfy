/** The CSV encoding of the loader (`toCSVRow` in src/import.ts) and, as its
    partner, a decoder for the record grammar of section 2 of RFC 4180 with
    LF as the line break, which is what `COPY ... WITH (FORMAT csv)` reads. */
module Csv {
  import opened Wrappers
  import opened Text
  import opened Json

  /** The text of one value: empty for null and undefined, `String(v)`
      otherwise. */
  function FieldText(v: Value): string {
    if Nullish(v) then "" else JsString(v)
  }

  /** `s.replace(/"/g, '""')`. */
  function Double(s: string): (r: string)
    ensures |r| >= |s|
  {
    if s == [] then ""
    else (if s[0] == '"' then "\"\"" else [s[0]]) + Double(s[1..])
  }

  /** The quoting test as the source writes it: a double quote, a comma or a
      line feed. */
  predicate NeedsQuotesAsWritten(s: string) {
    '"' in s || ',' in s || '\n' in s
  }

  /** One field as the source encodes it. */
  function EncodeFieldAsWritten(v: Value): string {
    var s := FieldText(v);
    if NeedsQuotesAsWritten(s) then "\"" + Double(s) + "\"" else s
  }

  /** A row as the source encodes it: the fields joined by commas, then one
      line feed. */
  function EncodeRowAsWritten(values: seq<Value>): string {
    Join(seq(|values|, i requires 0 <= i < |values| => EncodeFieldAsWritten(values[i])), ',') + "\n"
  }

  /** The quoting test that rule 6 of section 2 of RFC 4180 asks for: also a
      carriage return. */
  predicate NeedsQuotes(s: string) {
    '"' in s || ',' in s || '\n' in s || '\r' in s
  }

  /** One field, quoted whenever rule 6 requires it. */
  function EncodeField(v: Value): string {
    var s := FieldText(v);
    if NeedsQuotes(s) then "\"" + Double(s) + "\"" else s
  }

  function Cells(values: seq<Value>): (r: seq<string>)
    ensures |r| == |values|
  {
    seq(|values|, i requires 0 <= i < |values| => EncodeField(values[i]))
  }

  /** A row: the fields joined by commas, then one line feed. */
  function EncodeRow(values: seq<Value>): string {
    Join(Cells(values), ',') + "\n"
  }

  /** The texts a row is meant to carry. */
  function Texts(values: seq<Value>): (r: seq<string>)
    ensures |r| == |values|
  {
    seq(|values|, i requires 0 <= i < |values| => FieldText(values[i]))
  }

  // ---------------------------------------------------------------------------
  // Decoding (section 2 of RFC 4180)

  /** A field read off the front of a text, and the text after it. */
  datatype Cut = Cut(field: string, rest: string)

  /** A non-escaped field: characters up to the next comma, line feed or the
      end; a double quote or a carriage return cannot occur in one. */
  function Plain(s: string): (r: Option<Cut>)
    ensures r.Some? ==> |r.value.rest| <= |s|
    decreases |s|
  {
    if s == [] || s[0] == ',' || s[0] == '\n' then Some(Cut("", s))
    else if s[0] == '"' || s[0] == '\r' then None
    else match Plain(s[1..])
      case Some(c) => Some(Cut([s[0]] + c.field, c.rest))
      case None => None
  }

  /** The inside of an escaped field, after its opening quote: any character,
      a doubled quote standing for one quote, up to the closing quote. */
  function Quoted(s: string): (r: Option<Cut>)
    ensures r.Some? ==> |r.value.rest| < |s|
    decreases |s|
  {
    if s == [] then None
    else if s[0] == '"' then
      if |s| >= 2 && s[1] == '"' then
        match Quoted(s[2..])
        case Some(c) => Some(Cut("\"" + c.field, c.rest))
        case None => None
      else Some(Cut("", s[1..]))
    else match Quoted(s[1..])
      case Some(c) => Some(Cut([s[0]] + c.field, c.rest))
      case None => None
  }

  function Field(s: string): (r: Option<Cut>)
    ensures r.Some? ==> |r.value.rest| <= |s|
  {
    if s != [] && s[0] == '"' then Quoted(s[1..]) else Plain(s)
  }

  /** One record read off the front of a text, and the text after its line feed. */
  datatype Rec = Rec(fields: seq<string>, rest: string)

  /** The fields of the record at the front of `s`, which ends at the first
      line feed outside quotes; None when `s` does not start with a record. */
  function Record(s: string): (r: Option<Rec>)
    ensures r.Some? ==> |r.value.rest| < |s|
    decreases |s|
  {
    match Field(s)
    case None => None
    case Some(c) =>
      if c.rest != [] && c.rest[0] == '\n' then Some(Rec([c.field], c.rest[1..]))
      else if c.rest != [] && c.rest[0] == ',' then
        match Record(c.rest[1..])
        case Some(r) => Some(Rec([c.field] + r.fields, r.rest))
        case None => None
      else None
  }

  /** The records of a text made of whole records; None when it is not. */
  function DecodeRows(s: string): Option<seq<seq<string>>>
    decreases |s|
  {
    if s == [] then Some([])
    else match Record(s)
      case None => None
      case Some(r) =>
        match DecodeRows(r.rest)
        case Some(rows) => Some([r.fields] + rows)
        case None => None
  }

  // ---------------------------------------------------------------------------
  // Round trip

  predicate Ends(rest: string) {
    rest != [] && (rest[0] == ',' || rest[0] == '\n')
  }

  lemma {:induction false} PlainRoundTrip(t: string, rest: string)
    requires !NeedsQuotes(t) && Ends(rest)
    ensures Plain(t + rest) == Some(Cut(t, rest))
    decreases |t|
  {
    if t == [] {
      assert t + rest == rest;
    } else {
      assert (t + rest)[0] == t[0];
      assert (t + rest)[1..] == t[1..] + rest;
      PlainRoundTrip(t[1..], rest);
      assert [t[0]] + t[1..] == t;
    }
  }

  lemma {:induction false} QuotedRoundTrip(t: string, rest: string)
    requires rest == [] || rest[0] != '"'
    ensures Quoted(Double(t) + "\"" + rest) == Some(Cut(t, rest))
    decreases |t|
  {
    var s := Double(t) + "\"" + rest;
    if t == [] {
      assert s == "\"" + rest;
      assert s[1..] == rest;
    } else if t[0] == '"' {
      assert s == "\"\"" + (Double(t[1..]) + "\"" + rest);
      assert s[2..] == Double(t[1..]) + "\"" + rest;
      QuotedRoundTrip(t[1..], rest);
      assert "\"" + t[1..] == t;
    } else {
      assert s == [t[0]] + (Double(t[1..]) + "\"" + rest);
      assert s[1..] == Double(t[1..]) + "\"" + rest;
      QuotedRoundTrip(t[1..], rest);
      assert [t[0]] + t[1..] == t;
    }
  }

  /** An encoded field followed by a comma or a line feed decodes to the
      field's text and stops at that separator. */
  lemma FieldRoundTrip(v: Value, rest: string)
    requires Ends(rest)
    ensures Field(EncodeField(v) + rest) == Some(Cut(FieldText(v), rest))
  {
    TextRoundTrip(FieldText(v), rest);
  }

  /** The same for any text, encoded the way a field is. */
  lemma TextRoundTrip(t: string, rest: string)
    requires Ends(rest)
    ensures Field((if NeedsQuotes(t) then "\"" + Double(t) + "\"" else t) + rest) == Some(Cut(t, rest))
  {
    if NeedsQuotes(t) {
      var s := "\"" + Double(t) + "\"" + rest;
      assert s == "\"" + (Double(t) + "\"" + rest);
      assert s[1..] == Double(t) + "\"" + rest;
      QuotedRoundTrip(t, rest);
    } else {
      PlainRoundTrip(t, rest);
      if t != [] {
        assert t[0] in t;
      }
    }
  }

  /** Decoding an encoded row gives back one field per value, each the
      value's text, and stops right after the row's line feed. */
  lemma {:induction false} RowRoundTrip(values: seq<Value>, more: string)
    requires |values| >= 1
    ensures Record(EncodeRow(values) + more) == Some(Rec(Texts(values), more))
    decreases |values|
  {
    RowParts(values, more);
    if |values| == 1 {
      FieldRoundTrip(values[0], "\n" + more);
      assert ("\n" + more)[1..] == more;
    } else {
      var after := EncodeRow(values[1..]) + more;
      FieldRoundTrip(values[0], "," + after);
      assert ("," + after)[1..] == after;
      RowRoundTrip(values[1..], more);
    }
  }

  /** An encoded row is its first field, then a line feed or a comma and the
      encoding of the rest. */
  lemma RowParts(values: seq<Value>, more: string)
    requires |values| >= 1
    ensures |values| == 1 ==> EncodeRow(values) + more == EncodeField(values[0]) + ("\n" + more)
                              && Texts(values) == [FieldText(values[0])]
    ensures |values| > 1 ==> EncodeRow(values) + more == EncodeField(values[0]) + ("," + (EncodeRow(values[1..]) + more))
                             && Texts(values) == [FieldText(values[0])] + Texts(values[1..])
  {
    var cells := Cells(values);
    if |values| > 1 {
      assert cells[1..] == Cells(values[1..]);
      var j := Join(Cells(values[1..]), ',');
      assert Join(cells, ',') == EncodeField(values[0]) + [','] + j;
      ConcatAssoc(EncodeField(values[0]) + [','] + j, "\n", more);
      ConcatAssoc(EncodeField(values[0]) + [','], j, "\n" + more);
      ConcatAssoc(EncodeField(values[0]), [','], j + ("\n" + more));
      ConcatAssoc(j, "\n", more);
    }
  }

  /** The rows one after the other, as they are written to the COPY stream. */
  function Concat(rows: seq<seq<Value>>): string {
    if rows == [] then "" else EncodeRow(rows[0]) + Concat(rows[1..])
  }

  /** The rows as the texts of their values. */
  function TextRows(rows: seq<seq<Value>>): (r: seq<seq<string>>)
    ensures |r| == |rows|
  {
    seq(|rows|, i requires 0 <= i < |rows| => Texts(rows[i]))
  }

  /** Decoding the stream gives back every row, in order, each as the texts
      of its values. */
  lemma {:induction false} RowsRoundTrip(rows: seq<seq<Value>>)
    requires forall i :: 0 <= i < |rows| ==> |rows[i]| >= 1
    ensures DecodeRows(Concat(rows)) == Some(TextRows(rows))
    decreases |rows|
  {
    var all := TextRows(rows);
    if rows == [] {
      assert all == [];
    } else {
      var s := Concat(rows);
      RowRoundTrip(rows[0], Concat(rows[1..]));
      assert s != [] && Record(s) == Some(Rec(Texts(rows[0]), Concat(rows[1..])));
      RowsRoundTrip(rows[1..]);
      var tail := TextRows(rows[1..]);
      assert DecodeRows(Concat(rows[1..])) == Some(tail);
      assert all == [Texts(rows[0])] + tail;
    }
  }

  /** The two encoders differ only on texts holding a carriage return. */
  lemma AsWrittenAgreesWithoutCarriageReturn(v: Value)
    requires '\r' !in FieldText(v)
    ensures EncodeFieldAsWritten(v) == EncodeField(v)
  {
  }

  /** A text with no double quote, comma, line feed or carriage return is
      written as it is, by both encoders. */
  lemma UnquotedVerbatim(v: Value)
    requires !NeedsQuotes(FieldText(v))
    ensures EncodeField(v) == FieldText(v) && EncodeFieldAsWritten(v) == FieldText(v)
  {
  }

  /** Null and undefined become an empty field. */
  lemma NullishIsEmpty(v: Value)
    requires Nullish(v)
    ensures EncodeField(v) == "" && EncodeFieldAsWritten(v) == ""
  {
  }

  /** The source's encoder leaves a carriage return unquoted, so the row
      holding the string "a\rb" is not a record under RFC 4180 and the
      stream holding it cannot be decoded, while the corrected encoder's row
      decodes to the string. */
  lemma CarriageReturnBreaksRow()
    ensures EncodeRowAsWritten([Str("a\rb")]) == "a\rb\n"
    ensures DecodeRows(EncodeRowAsWritten([Str("a\rb")])) == None
    ensures DecodeRows(Concat([[Str("a\rb")]])) == Some([["a\rb"]])
  {
    assert EncodeFieldAsWritten(Str("a\rb")) == "a\rb";
    assert Plain("a\rb\n") == None by {
      assert "a\rb\n"[1..] == "\rb\n";
    }
    RowsRoundTrip([[Str("a\rb")]]);
    assert TextRows([[Str("a\rb")]]) == [Texts([Str("a\rb")])];
    assert Texts([Str("a\rb")]) == [FieldText(Str("a\rb"))] == ["a\rb"];
  }
}

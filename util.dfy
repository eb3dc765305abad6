/** The two helpers of dist/util.js the exporter uses: the ONLY selection
    filter and the append-only NDJSON record sink. */
module Util {
  import opened Wrappers
  import opened Text
  import opened Json

  // ---- onlyWants ------------------------------------------------------------

  /** `parts.map(s => s.trim())`. */
  function TrimAll(parts: seq<string>): seq<string> {
    seq(|parts|, i requires 0 <= i < |parts| => Trim(parts[i]))
  }

  /** `.filter(Boolean)` on strings: the non-empty ones, in order. */
  function NonEmpty(parts: seq<string>): seq<string> {
    if parts == [] then []
    else (if parts[0] == "" then [] else [parts[0]]) + NonEmpty(parts[1..])
  }

  /** The filter keeps exactly the non-empty strings. */
  lemma {:induction false} NonEmptyMembers(parts: seq<string>, x: string)
    ensures x in NonEmpty(parts) <==> x in parts && x != ""
    decreases |parts|
  {
    if parts != [] {
      NonEmptyMembers(parts[1..], x);
      assert x in parts <==> x == parts[0] || x in parts[1..];
    }
  }

  /** The selection tokens: `(ONLY || "").split(",").map(s => s.trim()).filter(Boolean)`. */
  function OnlyTokens(only: Option<string>): seq<string> {
    NonEmpty(TrimAll(Split(only.GetOr(""), ',')))
  }

  /** `onlyWants(key)`: everything is wanted when no token is given, otherwise
      exactly the keys listed. */
  function OnlyWants(only: Option<string>, key: string): bool {
    var tokens := OnlyTokens(only);
    |tokens| == 0 || key in tokens
  }

  /** The tokens are the non-empty trimmed pieces. */
  lemma OnlyTokensMembers(only: Option<string>, key: string)
    ensures OnlyWants(only, key) <==>
              OnlyTokens(only) == [] || (key != "" && key in TrimAll(Split(only.GetOr(""), ',')))
  {
    NonEmptyMembers(TrimAll(Split(only.GetOr(""), ',')), key);
  }

  lemma TrimAllMembers(parts: seq<string>, x: string)
    ensures x in TrimAll(parts) <==> Listed(parts, x)
  {
    if x in TrimAll(parts) {
      var i :| 0 <= i < |parts| && TrimAll(parts)[i] == x;
    }
    if Listed(parts, x) {
      var i :| 0 <= i < |parts| && Trim(parts[i]) == x;
      assert TrimAll(parts)[i] == x;
    }
  }

  /** Some piece trims to exactly `key`. */
  predicate Listed(parts: seq<string>, key: string) {
    exists i :: 0 <= i < |parts| && Trim(parts[i]) == key
  }

  /** A key is wanted exactly when no token is given or some comma-separated
      piece of the setting trims to exactly that key (case-sensitive). */
  lemma OnlyWantsExactly(only: Option<string>, key: string)
    ensures OnlyWants(only, key) <==>
              OnlyTokens(only) == [] || (key != "" && Listed(Split(only.GetOr(""), ','), key))
  {
    OnlyTokensMembers(only, key);
    TrimAllMembers(Split(only.GetOr(""), ','), key);
  }

  lemma {:induction false} PiecesComeFromText(s: string, sep: char, i: nat, c: char)
    requires i < |Split(s, sep)| && c in Split(s, sep)[i]
    ensures c in s
    decreases |s|
  {
    if s != [] {
      var rest := Split(s[1..], sep);
      if s[0] == sep {
        if i > 0 {
          PiecesComeFromText(s[1..], sep, i - 1, c);
        }
      } else if i == 0 {
        if c != s[0] {
          assert c in rest[0];
          PiecesComeFromText(s[1..], sep, 0, c);
        }
      } else {
        PiecesComeFromText(s[1..], sep, i, c);
      }
    }
  }

  /** Pieces of a text made of separators and white space trim to nothing. */
  lemma {:induction false} BlankPieces(s: string, sep: char)
    requires forall j :: 0 <= j < |s| ==> s[j] == sep || IsSpace(s[j])
    ensures forall x :: x in TrimAll(Split(s, sep)) ==> x == ""
  {
    var parts := Split(s, sep);
    SplitPiecesHaveNoSeparator(s, sep);
    forall i | 0 <= i < |parts|
      ensures Trim(parts[i]) == ""
    {
      forall j | 0 <= j < |parts[i]|
        ensures IsSpace(parts[i][j])
      {
        PiecesComeFromText(s, sep, i, parts[i][j]);
      }
      TrimBlank(parts[i]);
    }
  }

  /** A setting made of nothing but commas and white space (or no setting)
      selects every key. */
  lemma {:induction false} OnlyWantsAllWhenBlank(only: Option<string>, key: string)
    requires forall j :: 0 <= j < |only.GetOr("")| ==> only.GetOr("")[j] == ',' || IsSpace(only.GetOr("")[j])
    ensures OnlyWants(only, key)
  {
    BlankPieces(only.GetOr(""), ',');
    if OnlyTokens(only) != [] {
      NonEmptyMembers(TrimAll(Split(only.GetOr(""), ',')), OnlyTokens(only)[0]);
    }
  }

  lemma TrimAllAppend(a: seq<string>, b: seq<string>)
    ensures TrimAll(a + b) == TrimAll(a) + TrimAll(b)
  {
  }

  lemma {:induction false} NonEmptyAppend(a: seq<string>, b: seq<string>)
    ensures NonEmpty(a + b) == NonEmpty(a) + NonEmpty(b)
    decreases |a|
  {
    if a != [] {
      assert (a + b)[0] == a[0];
      assert (a + b)[1..] == a[1..] + b;
      NonEmptyAppend(a[1..], b);
    } else {
      assert a + b == b;
    }
  }

  /** The pieces of "a,,b" are those of "a,b" with one empty piece between. */
  lemma {:induction false} SplitDoubleComma(a: string, b: string)
    ensures Split(a + ",," + b, ',') == Split(a, ',') + [""] + Split(b, ',')
    ensures Split(a + "," + b, ',') == Split(a, ',') + Split(b, ',')
  {
    assert a + ",," + b == a + [','] + ([','] + b);
    assert [','] + b == "" + [','] + b;
    assert a + "," + b == a + [','] + b;
    SplitAround(a, [','] + b, ',');
    SplitAround("", b, ',');
    SplitAround(a, b, ',');
  }

  lemma {:induction false} EmptyPieceDropped(pa: seq<string>, pb: seq<string>)
    ensures NonEmpty(TrimAll(pa + [""] + pb)) == NonEmpty(TrimAll(pa + pb))
  {
    TrimAllAppend(pa + [""], pb);
    TrimAllAppend(pa, [""]);
    TrimAllAppend(pa, pb);
    var ta, tb := TrimAll(pa), TrimAll(pb);
    assert TrimAll([""]) == [""];
    NonEmptyAppend(ta + [""], tb);
    NonEmptyAppend(ta, [""]);
    NonEmptyAppend(ta, tb);
  }

  /** Empty tokens are dropped: "a,,b" selects what "a,b" selects. */
  lemma {:induction false} OnlyWantsIgnoresEmptyTokens(a: string, b: string, key: string)
    ensures OnlyTokens(Some(a + ",," + b)) == OnlyTokens(Some(a + "," + b))
    ensures OnlyWants(Some(a + ",," + b), key) == OnlyWants(Some(a + "," + b), key)
  {
    SplitDoubleComma(a, b);
    EmptyPieceDropped(Split(a, ','), Split(b, ','));
  }

  // ---- ndjson ---------------------------------------------------------------

  /** The text `JSON.stringify(obj)` contributes to a line; string
      concatenation turns a missing text (undefined) into "undefined". */
  function LineText(obj: Value): string {
    match Stringify(obj)
    case Some(t) => t
    case None => "undefined"
  }

  /** The line `ndjson` appends for a record. */
  function NdjsonLine(obj: Value): string {
    LineText(obj) + "\n"
  }

  /** Every appended record is exactly one line: its text holds no newline,
      is not blank, and the line ends in the one newline. */
  lemma NdjsonLineIsOneLine(obj: Value)
    ensures '\n' !in LineText(obj)
    ensures |LineText(obj)| >= 1 && !IsSpace(LineText(obj)[0])
    ensures NdjsonLine(obj) == LineText(obj) + "\n"
  {
    if !obj.Undefined? {
      SerPrintable(obj);
      SerStartsVisibly(obj);
    }
  }

  /** The contents of one output file; a file not yet written reads as empty. */
  function Content(files: map<string, string>, path: string): string {
    if path in files then files[path] else ""
  }

  /** The output files after `ndjson(path, obj)`. */
  function Appended(files: map<string, string>, path: string, obj: Value): map<string, string> {
    files[path := Content(files, path) + NdjsonLine(obj)]
  }

  /** Appending keeps what was written before and touches no other file. */
  lemma AppendOnly(files: map<string, string>, path: string, obj: Value, other: string)
    ensures IsPrefix(Content(files, path), Content(Appended(files, path, obj), path))
    ensures |Content(Appended(files, path, obj), path)| == |Content(files, path)| + |NdjsonLine(obj)|
    ensures other != path ==> Content(Appended(files, path, obj), other) == Content(files, other)
  {
  }

  /** The text a sequence of records leaves in a file, one line each. */
  function SinkText(records: seq<Value>): string {
    if records == [] then "" else NdjsonLine(records[0]) + SinkText(records[1..])
  }

  /** Appending a batch of records, one `ndjson` call each, in order. */
  function AppendedAll(files: map<string, string>, path: string, records: seq<Value>): map<string, string>
    decreases |records|
  {
    if records == [] then files else AppendedAll(Appended(files, path, records[0]), path, records[1..])
  }

  lemma {:induction false} SinkTextAppend(a: seq<Value>, b: seq<Value>)
    ensures SinkText(a + b) == SinkText(a) + SinkText(b)
    decreases |a|
  {
    if a != [] {
      assert (a + b)[0] == a[0];
      assert (a + b)[1..] == a[1..] + b;
      SinkTextAppend(a[1..], b);
    } else {
      assert a + b == b;
    }
  }

  /** A batch of appends leaves the old contents followed by one line per record. */
  lemma {:induction false} AppendedAllContent(files: map<string, string>, path: string, records: seq<Value>)
    ensures Content(AppendedAll(files, path, records), path) == Content(files, path) + SinkText(records)
    ensures forall q :: q != path ==> Content(AppendedAll(files, path, records), q) == Content(files, q)
    decreases |records|
  {
    if records != [] {
      AppendedAllContent(Appended(files, path, records[0]), path, records[1..]);
    }
  }

  /** `ndjson`'s destination: a set of append-only files. */
  class Sink {
    var files: map<string, string>

    constructor (files: map<string, string>)
      ensures this.files == files
    {
      this.files := files;
    }

    /** `ndjson(path, obj)`: append one line to the named file. */
    method Append(path: string, obj: Value)
      modifies this
      ensures files == Appended(old(files), path, obj)
    {
      files := files[path := Content(files, path) + NdjsonLine(obj)];
    }
  }
}

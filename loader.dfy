/** The bulk loader of src/import.ts: for each entry of a fixed table of
    specs it reads `out/<file>` as NDJSON, projects every record onto the
    spec's columns, encodes the rows as CSV and loads them into the spec's
    table with TRUNCATE followed by COPY. The files are a map from name to
    text, `JSON.parse` is a parameter (None for a line that does not parse),
    and the database is a map from table name to rows of field texts. */
module Loader {
  import opened Wrappers
  import opened Text
  import opened Json
  import opened Csv

  /** The projection of each spec, in table order. */
  datatype Projection =
    | ChaptersRow | ChapterInfosRow | VersesRow | WordsRow | LanguagesRow
    | TranslationResourcesRow | TafsirResourcesRow | TranslationsRow | TafsirsRow
    | RecitationsRow | ChapterAudioFilesRow | VerseTimestampsRow | WordSegmentsRow

  datatype MapSpec = MapSpec(file: string, table: string, columns: seq<string>, projection: Projection)

  /** The table of specs, in the order they are loaded. */
  const Maps: seq<MapSpec> := [
    MapSpec("chapters.ndjson", "chapters",
      ["id", "revelation_place", "revelation_order", "bismillah_pre", "page_start", "page_end",
       "name_simple", "name_arabic", "verses_count"], ChaptersRow),
    MapSpec("chapter_infos.ndjson", "chapter_infos", ["chapter_id", "short_text", "source", "language"], ChapterInfosRow),
    MapSpec("verses.ndjson", "verses",
      ["id", "verse_key", "chapter_id", "verse_number", "juz_number", "hizb_number",
       "rub_el_hizb_number", "page_number", "text_uthmani", "text_imlaei_simple"], VersesRow),
    MapSpec("words.ndjson", "words",
      ["id", "verse_id", "verse_key", "chapter_id", "position", "line_number", "v1_page", "v2_page",
       "code_v1", "code_v2", "text_uthmani", "text_imlaei_simple", "char_type_name"], WordsRow),
    MapSpec("languages.ndjson", "languages", ["iso_code", "name", "native_name"], LanguagesRow),
    MapSpec("translation_resources.ndjson", "translation_resources",
      ["id", "name", "language", "author_name", "slug"], TranslationResourcesRow),
    MapSpec("tafsir_resources.ndjson", "tafsir_resources",
      ["id", "name", "language", "author_name", "slug"], TafsirResourcesRow),
    MapSpec("translations.ndjson", "translations", ["resource_id", "verse_key", "text", "footnotes"], TranslationsRow),
    MapSpec("tafsirs.ndjson", "tafsirs", ["resource_id", "verse_key", "text"], TafsirsRow),
    MapSpec("recitations.ndjson", "recitations",
      ["id", "reciter_name", "style", "relative_path", "format", "files_size"], RecitationsRow),
    MapSpec("chapter_audio_files.ndjson", "chapter_audio_files",
      ["id", "chapter_id", "recitation_id", "file_url", "duration_seconds"], ChapterAudioFilesRow),
    MapSpec("verse_timestamps.ndjson", "verse_timestamps",
      ["audio_file_id", "verse_key", "from_ms", "to_ms", "duration_ms"], VerseTimestampsRow),
    MapSpec("word_segments.ndjson", "word_segments",
      ["audio_file_id", "verse_key", "word_index", "start_ms", "end_ms"], WordSegmentsRow)
  ]

  /** `o.k` for each key, in order. */
  function Fields(o: Value, keys: seq<string>): (r: seq<Value>)
    ensures |r| == |keys|
  {
    seq(|keys|, i requires 0 <= i < |keys| => Get(o, keys[i]))
  }

  /** `o.footnotes ? JSON.stringify(o.footnotes) : null`. */
  function FootnotesText(o: Value): Value {
    var f := Get(o, "footnotes");
    if Truthy(f) then Str(Ser(f)) else Null
  }

  /** The `map` of each spec on a record that is not null or undefined. */
  function Project(p: Projection, o: Value): seq<Value> {
    match p
    case ChaptersRow =>
      Fields(o, ["id", "revelation_place", "revelation_order", "bismillah_pre"])
      + [Index(Or(Get(o, "pages"), Arr([])), 0), Index(Or(Get(o, "pages"), Arr([])), 1)]
      + Fields(o, ["name_simple", "name_arabic", "verses_count"])
    case ChapterInfosRow =>
      [Or(Get(o, "chapter_id"), Get(o, "id")), Or(Get(o, "short_text"), Get(o, "text")),
       Get(o, "source"), Get(o, "language")]
    case VersesRow =>
      Fields(o, ["id", "verse_key", "chapter_id", "verse_number", "juz_number", "hizb_number", "rub_el_hizb_number"])
      + [Or(Get(o, "page_number"), Get(o, "v1_page"))]
      + Fields(o, ["text_uthmani", "text_imlaei_simple"])
    case WordsRow =>
      Fields(o, ["id", "verse_id", "verse_key", "chapter_id", "position", "line_number", "v1_page", "v2_page",
                 "code_v1", "code_v2", "text_uthmani", "text_imlaei_simple", "char_type_name"])
    case LanguagesRow =>
      [Or(Or(Get(o, "iso_code"), Get(o, "iso")), Get(o, "code")), Get(o, "name"), Or(Get(o, "native_name"), Null)]
    case TranslationResourcesRow =>
      [Get(o, "id"), Get(o, "name"), Or(Get(o, "language_name"), Get(o, "language")), Get(o, "author_name"), Get(o, "slug")]
    case TafsirResourcesRow =>
      [Get(o, "id"), Get(o, "name"), Or(Get(o, "language_name"), Get(o, "language")), Get(o, "author_name"), Get(o, "slug")]
    case TranslationsRow =>
      [Get(o, "resource_id"), Or(Get(o, "verse_key"), Get(o, "aya")),
       Or(Or(Get(o, "text"), Get(o, "body")), Null), FootnotesText(o)]
    case TafsirsRow =>
      [Get(o, "resource_id"), Or(Get(o, "verse_key"), Get(o, "aya")), Or(Or(Get(o, "text"), Get(o, "body")), Null)]
    case RecitationsRow =>
      [Get(o, "id"), Or(Get(o, "reciter_name"), Get(o, "name")), Get(o, "style"), Get(o, "relative_path"),
       Get(o, "format"), Or(Get(o, "files_size"), Null)]
    case ChapterAudioFilesRow =>
      [Get(o, "id"), Get(o, "chapter_id"), Get(o, "recitation_id"),
       Or(Or(Get(o, "url"), Get(o, "audio_url")), Get(o, "file_url")),
       Or(Or(Get(o, "duration"), Get(o, "duration_seconds")), Null)]
    case VerseTimestampsRow =>
      Fields(o, ["audio_file_id", "verse_key", "from_ms", "to_ms", "duration_ms"])
    case WordSegmentsRow =>
      Fields(o, ["audio_file_id", "verse_key", "word_index", "start_ms", "end_ms"])
  }

  /** `spec.map(obj)`: reading a property of null or undefined throws (None). */
  function MapRow(spec: MapSpec, o: Value): Option<seq<Value>> {
    if Nullish(o) then None else Some(Project(spec.projection, o))
  }

  /** The number of values each projection gives. */
  function Width(p: Projection): nat {
    match p
    case ChaptersRow => 9
    case ChapterInfosRow => 4
    case VersesRow => 10
    case WordsRow => 13
    case LanguagesRow => 3
    case TranslationResourcesRow => 5
    case TafsirResourcesRow => 5
    case TranslationsRow => 4
    case TafsirsRow => 3
    case RecitationsRow => 6
    case ChapterAudioFilesRow => 5
    case VerseTimestampsRow => 5
    case WordSegmentsRow => 5
  }

  lemma ProjectWidth(p: Projection, o: Value)
    ensures |Project(p, o)| == Width(p) >= 3
  {
  }

  /** A spec whose projection gives one value per column. */
  predicate WellFormed(spec: MapSpec) {
    |spec.columns| == Width(spec.projection)
  }

  /** Every spec's `map` gives exactly one value per column, and every spec
      has at least three columns. */
  lemma ColumnCount(i: nat, o: Value)
    requires i < |Maps|
    ensures WellFormed(Maps[i]) && |Maps[i].columns| >= 3
    ensures !Nullish(o) ==> MapRow(Maps[i], o).Some? && |MapRow(Maps[i], o).value| == |Maps[i].columns|
  {
    ProjectWidth(Maps[i].projection, o);
  }

  /** No two specs load the same table or read the same file. */
  lemma SpecsDistinct(i: nat, j: nat)
    requires i < j < |Maps|
    ensures Maps[i].table != Maps[j].table && Maps[i].file != Maps[j].file
  {
  }

  /** Specs `main` can import in turn: each maps one value per column, and
      no two name the same table. */
  predicate Importable(specs: seq<MapSpec>) {
    (forall i :: 0 <= i < |specs| ==> WellFormed(specs[i]))
    && (forall i, j :: 0 <= i < |specs| && 0 <= j < |specs| && i != j ==> specs[i].table != specs[j].table)
  }

  /** The specs of `maps` are importable. */
  lemma MapsImportable()
    ensures Importable(Maps)
  {
    forall i | 0 <= i < |Maps|
      ensures WellFormed(Maps[i])
    {
      ColumnCount(i, Null);
    }
    forall i, j | 0 <= i < |Maps| && 0 <= j < |Maps| && i != j
      ensures Maps[i].table != Maps[j].table
    {
      if i < j { SpecsDistinct(i, j); } else { SpecsDistinct(j, i); }
    }
  }

  /** The chapter row takes its first and last page from `pages`, read as an
      array when it is one and left undefined when it is missing. */
  lemma ChapterPages(o: Value, first: Value, last: Value)
    requires o.Obj? && "pages" in o.vals
    ensures o.vals["pages"] == Arr([first, last]) ==>
              Project(ChaptersRow, o)[4] == first && Project(ChaptersRow, o)[5] == last
    ensures !Truthy(o.vals["pages"]) ==> Project(ChaptersRow, o)[4] == Undefined && Project(ChaptersRow, o)[5] == Undefined
  {
  }

  /** The translation row falls back with `||`: an empty text, not only a
      missing one, is replaced by `body`, and a text that is falsy in both
      places becomes null; footnotes are stored as their JSON text when
      truthy and as null otherwise. */
  lemma TranslationRowFallbacks(o: Value)
    requires o.Obj?
    ensures var row := Project(TranslationsRow, o);
            |row| == 4
            && (Get(o, "text") == Str("") ==> row[2] == Or(Get(o, "body"), Null))
            && (!Truthy(Get(o, "text")) && !Truthy(Get(o, "body")) ==> row[2] == Null)
            && (Truthy(Get(o, "footnotes")) ==> row[3] == Str(Ser(Get(o, "footnotes"))))
            && (!Truthy(Get(o, "footnotes")) ==> row[3] == Null)
  {
  }

  /** The verse row reads `page_number || v1_page`: a page number of 0 falls
      back to `v1_page`, which the normalizer's `??` would have kept. */
  lemma VersePageFallsBackOnZero(o: Value)
    requires Get(o, "page_number") == Num(0) && !Nullish(o)
    ensures Project(VersesRow, o)[7] == Get(o, "v1_page")
  {
  }

  // ---------------------------------------------------------------------------
  // Reading NDJSON

  /** The lines of the text that are not blank after trimming, in file order. */
  function NonBlank(lines: seq<string>): (r: seq<string>) {
    if lines == [] then []
    else (if Trim(lines[0]) == "" then [] else [lines[0]]) + NonBlank(lines[1..])
  }

  /** The lines `iterNDJSON` parses. */
  function RecordLines(data: string): seq<string> {
    NonBlank(Split(data, '\n'))
  }

  /** A line is kept exactly when it is a line of the text that is not blank. */
  lemma {:induction false} NonBlankMembers(lines: seq<string>, x: string)
    ensures x in NonBlank(lines) <==> x in lines && Trim(x) != ""
    decreases |lines|
  {
    if lines != [] {
      NonBlankMembers(lines[1..], x);
      assert lines == [lines[0]] + lines[1..];
    }
  }

  lemma {:induction false} NonBlankAppend(a: seq<string>, b: seq<string>)
    ensures NonBlank(a + b) == NonBlank(a) + NonBlank(b)
    decreases |a|
  {
    if a == [] {
      assert a + b == b;
    } else {
      assert (a + b)[0] == a[0];
      assert (a + b)[1..] == a[1..] + b;
      NonBlankAppend(a[1..], b);
    }
  }

  /** Lines are read independently and in order: the records of "x\ny" are
      those of x followed by those of y, so a blank line in between adds
      nothing. */
  lemma {:induction false} RecordLinesAppend(x: string, y: string)
    ensures RecordLines(x + "\n" + y) == RecordLines(x) + RecordLines(y)
  {
    assert x + "\n" + y == x + ['\n'] + y;
    SplitAround(x, y, '\n');
    NonBlankAppend(Split(x, '\n'), Split(y, '\n'));
  }

  /** What the import loop produces from the lines: the rows written, in
      order, and whether it stopped at a line that did not parse. Records
      that are null (their `map` throws) are skipped. */
  datatype Plan = Plan(rows: seq<seq<Value>>, failed: bool)

  function Planned(spec: MapSpec, lines: seq<string>, parse: string -> Option<Value>): Plan
    decreases |lines|
  {
    if lines == [] then Plan([], false)
    else match parse(lines[0])
      case None => Plan([], true)
      case Some(o) =>
        var rest := Planned(spec, lines[1..], parse);
        match MapRow(spec, o)
        case Some(row) => Plan([row] + rest.rows, rest.failed)
        case None => rest
  }

  /** Every row written has one value per column, and the rows are the
      mapped records in order. */
  lemma {:induction false} PlannedRows(i: nat, lines: seq<string>, parse: string -> Option<Value>)
    requires i < |Maps|
    ensures forall j :: 0 <= j < |Planned(Maps[i], lines, parse).rows| ==>
              |Planned(Maps[i], lines, parse).rows[j]| == |Maps[i].columns|
    ensures |Planned(Maps[i], lines, parse).rows| <= |lines|
    decreases |lines|
  {
    if lines != [] && parse(lines[0]).Some? {
      PlannedRows(i, lines[1..], parse);
      if !Nullish(parse(lines[0]).value) {
        ColumnCount(i, parse(lines[0]).value);
      }
    }
  }

  /** The loop stops early exactly when some line fails to parse. */
  lemma {:induction false} PlannedFails(spec: MapSpec, lines: seq<string>, parse: string -> Option<Value>)
    ensures Planned(spec, lines, parse).failed <==> exists j :: 0 <= j < |lines| && parse(lines[j]).None?
    decreases |lines|
  {
    if lines != [] && parse(lines[0]).Some? {
      PlannedFails(spec, lines[1..], parse);
      if exists j :: 0 <= j < |lines| && parse(lines[j]).None? {
        var j :| 0 <= j < |lines| && parse(lines[j]).None?;
        assert lines[1..][j - 1] == lines[j];
      }
    }
  }

  /** A record that maps is written; one that does not is skipped and the
      records after it are still written. */
  lemma SkippedRecord(spec: MapSpec, line: string, lines: seq<string>, parse: string -> Option<Value>)
    requires parse(line).Some? && Nullish(parse(line).value)
    ensures Planned(spec, [line] + lines, parse) == Planned(spec, lines, parse)
  {
    assert ([line] + lines)[1..] == lines;
  }

  /** How `importFile` ends: skipped for a missing file, given up after a
      failed TRUNCATE (both resolve), loaded with the number of rows, or
      rejected. */
  datatype ImportResult = Skipped | TruncateFailed | Imported(rowCount: nat) | Rejected

  /** What `importFile` reports for a spec, from the files, the parser and
      whether TRUNCATE succeeds. */
  function ImportOutcome(spec: MapSpec, files: map<string, string>, parse: string -> Option<Value>, truncateOk: bool): ImportResult {
    if spec.file !in files then Skipped
    else if !truncateOk then TruncateFailed
    else
      var plan := Planned(spec, RecordLines(files[spec.file]), parse);
      if plan.failed then Rejected else Imported(|plan.rows|)
  }

  /** Only a present file whose table truncates can be rejected, and it is
      rejected exactly when one of its lines does not parse. */
  lemma RejectedOnlyOnParseFailure(spec: MapSpec, files: map<string, string>, parse: string -> Option<Value>, truncateOk: bool)
    ensures ImportOutcome(spec, files, parse, truncateOk).Rejected?
            <==> spec.file in files && truncateOk && Planned(spec, RecordLines(files[spec.file]), parse).failed
  {
  }

  /** The database as the loader sees it: each table's rows. */
  class Database {
    var tables: map<string, seq<seq<string>>>

    constructor (tables: map<string, seq<seq<string>>>)
      ensures this.tables == tables
    {
      this.tables := tables;
    }

    /** `COPY table (columns) FROM STDIN WITH (FORMAT csv)`: the table receives
        the decoded records when the text is whole records of the right width;
        otherwise COPY fails and the table keeps what it had. */
    method Copy(table: string, width: nat, data: string) returns (ok: bool)
      modifies this
      ensures var d := DecodeRows(data);
              ok <==> d.Some? && forall r :: r in d.value ==> |r| == width
      ensures ok ==> tables == old(tables)[table := DecodeRows(data).value]
      ensures !ok ==> tables == old(tables)
    {
      var d := DecodeRows(data);
      if d.Some? && forall r :: r in d.value ==> |r| == width {
        tables := tables[table := d.value];
        return true;
      }
      return false;
    }

    /** `importFile(client, spec)`. `truncateOk` says whether TRUNCATE
        succeeds. The rows go to COPY in the order read; a line that does not
        parse ends the read and rejects, yet the rows written before it are
        still committed when the stream ends. */
    method ImportFile(spec: MapSpec, files: map<string, string>, parse: string -> Option<Value>, truncateOk: bool)
      returns (result: ImportResult)
      requires WellFormed(spec)
      modifies this
      ensures spec.file !in files ==> result == Skipped && tables == old(tables)
      ensures spec.file in files && !truncateOk ==> result == TruncateFailed && tables == old(tables)
      ensures spec.file in files && truncateOk ==>
                var plan := Planned(spec, RecordLines(files[spec.file]), parse);
                tables == old(tables)[spec.table := TextRows(plan.rows)]
                && result == (if plan.failed then Rejected else Imported(|plan.rows|))
      ensures result == ImportOutcome(spec, files, parse, truncateOk)
    {
      if spec.file !in files {
        return Skipped;
      }
      if !truncateOk {
        return TruncateFailed;
      }
      tables := tables[spec.table := []];
      result := Load(spec, RecordLines(files[spec.file]), parse);
    }

    /** TRUNCATE done: write the rows of the lines and end the COPY stream. */
    method Load(spec: MapSpec, lines: seq<string>, parse: string -> Option<Value>) returns (result: ImportResult)
      requires WellFormed(spec)
      modifies this
      ensures var plan := Planned(spec, lines, parse);
              tables == old(tables)[spec.table := TextRows(plan.rows)]
              && result == (if plan.failed then Rejected else Imported(|plan.rows|))
    {
      var written, data, failed := WriteRows(spec, lines, parse);
      RowsRoundTrip(written);
      StoredWidth(written, |spec.columns|);
      var ok := Copy(spec.table, |spec.columns|, data);
      result := if failed || !ok then Rejected else Imported(|written|);
    }

    /** `main`: the specs of `maps` in order, stopping after the first
        rejected import, then `client.end()`. `truncateOk(t)` says whether
        TRUNCATE of table t succeeds. A rejected import leaves its COPY
        stream ended but not yet finished when the connection is closed;
        `endAbortsCopy` says whether closing then aborts that COPY, which
        leaves the table as TRUNCATE left it, empty. */
    method ImportAll(files: map<string, string>, parse: string -> Option<Value>, truncateOk: string -> bool,
                     endAbortsCopy: bool)
      returns (results: seq<ImportResult>)
      modifies this
      ensures 1 <= |results| <= |Maps|
      ensures forall j :: 0 <= j < |results| - 1 ==> !results[j].Rejected?
      ensures |results| < |Maps| ==> results[|results| - 1].Rejected?
      ensures forall j :: 0 <= j < |results| ==> results[j] == ImportOutcome(Maps[j], files, parse, truncateOk(Maps[j].table))
      ensures forall j :: 0 <= j < |results| && Maps[j].file in files && truncateOk(Maps[j].table) ==>
                Maps[j].table in tables
                && tables[Maps[j].table]
                   == if results[j].Rejected? && endAbortsCopy then []
                      else TextRows(Planned(Maps[j], RecordLines(files[Maps[j].file]), parse).rows)
      ensures forall j :: 0 <= j < |Maps| && !(j < |results| && Maps[j].file in files && truncateOk(Maps[j].table)) && Maps[j].table in old(tables) ==>
                Maps[j].table in tables && tables[Maps[j].table] == old(tables)[Maps[j].table]
    {
      MapsImportable();
      results := ImportEach(Maps, files, parse, truncateOk);
      var last := |results| - 1;
      if results[last].Rejected? && endAbortsCopy {
        RejectedOnlyOnParseFailure(Maps[last], files, parse, truncateOk(Maps[last].table));
        tables := tables[Maps[last].table := []];
      }
    }

    /** The loop of `main` over a list of specs with distinct tables, up to
        the `break` after the first rejection: each table holds what its
        COPY stream was given. */
    method ImportEach(specs: seq<MapSpec>, files: map<string, string>, parse: string -> Option<Value>, truncateOk: string -> bool)
      returns (results: seq<ImportResult>)
      requires Importable(specs)
      modifies this
      ensures |results| <= |specs| && (specs != [] ==> 1 <= |results|)
      ensures forall j :: 0 <= j < |results| - 1 ==> !results[j].Rejected?
      ensures |results| < |specs| ==> results[|results| - 1].Rejected?
      ensures forall j :: 0 <= j < |results| ==> results[j] == ImportOutcome(specs[j], files, parse, truncateOk(specs[j].table))
      ensures forall j :: 0 <= j < |results| && specs[j].file in files && truncateOk(specs[j].table) ==>
                specs[j].table in tables
                && tables[specs[j].table] == TextRows(Planned(specs[j], RecordLines(files[specs[j].file]), parse).rows)
      ensures forall j :: 0 <= j < |specs| && !(j < |results| && specs[j].file in files && truncateOk(specs[j].table)) && specs[j].table in old(tables) ==>
                specs[j].table in tables && tables[specs[j].table] == old(tables)[specs[j].table]
    {
      results := [];
      var n := 0;
      while n < |specs|
        invariant 0 <= n <= |specs| && |results| == n
        invariant forall j :: 0 <= j < n ==> !results[j].Rejected?
        invariant forall j :: 0 <= j < n ==> results[j] == ImportOutcome(specs[j], files, parse, truncateOk(specs[j].table))
        invariant forall j :: 0 <= j < n && specs[j].file in files && truncateOk(specs[j].table) ==>
                    specs[j].table in tables
                    && tables[specs[j].table] == TextRows(Planned(specs[j], RecordLines(files[specs[j].file]), parse).rows)
        invariant forall j :: 0 <= j < |specs| && !(j < n && specs[j].file in files && truncateOk(specs[j].table)) && specs[j].table in old(tables) ==>
                    specs[j].table in tables && tables[specs[j].table] == old(tables)[specs[j].table]
      {
        var r := ImportFile(specs[n], files, parse, truncateOk(specs[n].table));
        assert forall j :: 0 <= j < |specs| && j != n ==> specs[j].table != specs[n].table;
        results := results + [r];
        n := n + 1;
        if r.Rejected? {
          return;
        }
      }
    }
  }

  /** The read loop of `importFile`: parse each line in order, skip a
      record whose `map` throws, write the encoded row of every other, and
      stop at the first line that does not parse. */
  method WriteRows(spec: MapSpec, lines: seq<string>, parse: string -> Option<Value>)
    returns (written: seq<seq<Value>>, data: string, failed: bool)
    requires WellFormed(spec)
    ensures Plan(written, failed) == Planned(spec, lines, parse)
    ensures data == Concat(written)
    ensures forall j :: 0 <= j < |written| ==> |written[j]| == |spec.columns| >= 1
  {
    data := "";
    written := [];
    failed := false;
    var k := 0;
    while k < |lines|
      invariant 0 <= k <= |lines|
      invariant data == Concat(written)
      invariant Planned(spec, lines, parse) == Plan(written + Planned(spec, lines[k..], parse).rows, Planned(spec, lines[k..], parse).failed)
      invariant forall j :: 0 <= j < |written| ==> |written[j]| == |spec.columns|
    {
      var obj := parse(lines[k]);
      if obj.None? {
        failed := true;
        assert Planned(spec, lines[k..], parse) == Plan([], true);
        assert written + [] == written;
        return;
      }
      var row := MapRow(spec, obj.value);
      assert lines[k..][1..] == lines[k + 1..];
      ghost var rest := Planned(spec, lines[k + 1..], parse);
      if row.None? {
        assert Planned(spec, lines[k..], parse) == rest;
        k := k + 1;
        continue;
      }
      assert Planned(spec, lines[k..], parse) == Plan([row.value] + rest.rows, rest.failed);
      ConcatAssoc(written, [row.value], rest.rows);
      ProjectWidth(spec.projection, obj.value);
      ConcatAppend(written, row.value);
      data := data + EncodeRow(row.value);
      written := written + [row.value];
      k := k + 1;
    }
    assert lines[k..] == [];
    assert written + [] == written;
  }

  lemma {:induction false} ConcatAppend(rows: seq<seq<Value>>, row: seq<Value>)
    ensures Concat(rows + [row]) == Concat(rows) + EncodeRow(row)
    decreases |rows|
  {
    if rows != [] {
      assert (rows + [row])[0] == rows[0];
      assert (rows + [row])[1..] == rows[1..] + [row];
      assert Concat(rows + [row]) == EncodeRow(rows[0]) + Concat(rows[1..] + [row]);
      ConcatAppend(rows[1..], row);
      ConcatAssoc(EncodeRow(rows[0]), Concat(rows[1..]), EncodeRow(row));
    } else {
      assert rows + [row] == [row];
      assert Concat([row]) == EncodeRow(row) + Concat([]);
    }
  }

  lemma StoredWidth(rows: seq<seq<Value>>, width: nat)
    requires forall j :: 0 <= j < |rows| ==> |rows[j]| == width
    ensures forall r :: r in TextRows(rows) ==> |r| == width
  {
  }
}

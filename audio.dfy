/** The audio sweeps of src/run.ts: the recitations catalog with the audio
    files of each reciter not yet flagged done, and the chapter-level
    timestamps of each (reciter, chapter) pair not yet flagged done. */
module Audio {
  import opened Wrappers
  import opened Text
  import opened Json
  import opened Checkpoint
  import opened Util
  import opened Normalizers
  import opened ChapterList
  import opened Sweep
  import opened Scopes

  // ---------------------------------------------------------------------------
  // Recitations and chapter audio files

  /** The lines `forEach(x => ndjson(file, x))` writes. */
  function LinesTo(file: string, xs: seq<Value>): (r: seq<Line>)
    ensures |r| == |xs|
  {
    seq(|xs|, i requires 0 <= i < |xs| => Line(file, xs[i]))
  }

  /** One recitation of the catalog, normalized; a null or undefined one throws. */
  function RecitationLines(x: Value): Emitted {
    match NormRecitation(x)
    case None => Emitted([], true)
    case Some(r) => Emitted([Line("recitations.ndjson", r)], false)
  }

  function RecitationEmitter(): Value -> Emitted {
    x => RecitationLines(x)
  }

  /** `String(rec.id)`. */
  function IdText(rec: Value): string {
    JsString(Get(rec, "id"))
  }

  /** The flag `reciter_<id>_done` of the `audio` section. */
  function ReciterKey(rec: Value): string {
    "reciter_" + IdText(rec) + "_done"
  }

  /** `getCP("audio", reciter_<id>_done, false)` is truthy. */
  predicate ReciterDone(path: string, stored: Stored, rec: Value) {
    Truthy(GetCell(Load(path, stored), "audio", ReciterKey(rec), Bool(false)))
  }

  /** `/chapter_recitations/<id>/audio_files` with the language. */
  function AudioFilesRequest(cfg: Settings, rec: Value): Request {
    CatalogRequest(cfg, "/chapter_recitations/" + IdText(rec) + "/audio_files")
  }

  /** The loop over the reciters. */
  function RecitersFrom(env: Env, recs: seq<Value>, w: World): Step
    decreases |recs|
  {
    if recs == [] then Step(w, Completed)
    else if Nullish(recs[0]) then Step(w, Threw)
    else if ReciterDone(env.path, w.stored, recs[0]) then RecitersFrom(env, recs[1..], w)
    else if w.budget == 0 then Step(w, Exhausted)
    else
      var req := AudioFilesRequest(env.cfg, recs[0]);
      var w1 := Sent(w, req);
      match env.api(req)
      case Failed => Step(w1, Threw)
      case Data(body) =>
        match ForEachItems(Or(OptGet(body, "audio_files"), Arr([])))
        case None => Step(w1, Threw)
        case Some(files) =>
          RecitersFrom(env, recs[1..], Filed(env, w1, recs[0], files))
  }

  /** The world once a reciter's audio files are written and its flag set. */
  function Filed(env: Env, w: World, rec: Value, files: seq<Value>): World {
    w.(files := Written(w.files, LinesTo("chapter_audio_files.ndjson", files)),
       stored := Store(env.path, w.stored, "audio", ReciterKey(rec), Bool(true)))
  }

  /** The audio section: the catalog, its normalized records, then the reciters. */
  function AudioRun(env: Env, w: World): Step {
    if w.budget == 0 then Step(w, Exhausted)
    else
      var req := CatalogRequest(env.cfg, "/recitations");
      var w1 := Sent(w, req);
      match env.api(req)
      case Failed => Step(w1, Threw)
      case Data(body) =>
        match ForEachItems(Or(OptGet(body, "recitations"), Arr([])))
        case None => Step(w1, Threw)
        case Some(recs) => RecitationsRun(env, recs, w1)
  }

  /** The normalized records of the catalog's recitations, then the reciters. */
  function RecitationsRun(env: Env, recs: seq<Value>, w: World): Step {
    var e := Walk(RecitationEmitter(), recs);
    var w2 := w.(files := Written(w.files, e.lines));
    if e.throws then Step(w2, Threw) else RecitersFrom(env, recs, w2)
  }

  /** The reciter loop, as the source writes it. */
  method SweepReciters(ex: Exporter, recs: seq<Value>) returns (outcome: Outcome)
    requires ex.Valid()
    modifies ex, ex.ledger, ex.sink
    ensures Step(ex.State(), outcome) == RecitersFrom(ex.env, recs, old(ex.State()))
  {
    ghost var w0 := ex.State();
    var i := 0;
    assert recs[0..] == recs;
    while i < |recs|
      invariant 0 <= i <= |recs| && ex.Valid()
      invariant RecitersFrom(ex.env, recs[i..], ex.State()) == RecitersFrom(ex.env, recs, w0)
    {
      var rec := recs[i];
      assert recs[i..][1..] == recs[i + 1..];
      if Nullish(rec) {
        return Threw;
      }
      if Truthy(ex.ledger.GetCP("audio", ReciterKey(rec), Bool(false))) {
        i := i + 1;
        continue;
      }
      ghost var before := ex.State();
      var reply := ex.Get(AudioFilesRequest(ex.env.cfg, rec));
      if reply.None? {
        return Exhausted;
      }
      ghost var w1 := ex.State();
      assert w1 == Sent(before, AudioFilesRequest(ex.env.cfg, rec));
      if reply.value.Failed? {
        return Threw;
      }
      var files := ForEachItems(Or(OptGet(reply.value.body, "audio_files"), Arr([])));
      if files.None? {
        return Threw;
      }
      ex.Write(LinesTo("chapter_audio_files.ndjson", files.value));
      ex.ledger.SetCP("audio", ReciterKey(rec), Bool(true));
      assert ex.State() == Filed(ex.env, w1, rec, files.value);
      i := i + 1;
    }
    outcome := Completed;
  }

  /** The audio section, as the source writes it. */
  method AudioSection(ex: Exporter) returns (outcome: Outcome)
    requires ex.Valid()
    modifies ex, ex.ledger, ex.sink
    ensures Step(ex.State(), outcome) == AudioRun(ex.env, old(ex.State()))
  {
    var reply := ex.Get(CatalogRequest(ex.env.cfg, "/recitations"));
    if reply.None? {
      return Exhausted;
    }
    if reply.value.Failed? {
      return Threw;
    }
    var recs := ForEachItems(Or(OptGet(reply.value.body, "recitations"), Arr([])));
    if recs.None? {
      return Threw;
    }
    outcome := SweepRecitations(ex, recs.value);
  }

  /** The records of the recitations, then the reciter loop, as the source
      writes them. */
  method SweepRecitations(ex: Exporter, recs: seq<Value>) returns (outcome: Outcome)
    requires ex.Valid()
    modifies ex, ex.ledger, ex.sink
    ensures Step(ex.State(), outcome) == RecitationsRun(ex.env, recs, old(ex.State()))
  {
    var throws := WalkWrite(ex, RecitationEmitter(), recs);
    if throws {
      return Threw;
    }
    outcome := SweepReciters(ex, recs);
  }

  // ---------------------------------------------------------------------------
  // Properties of the reciter loop

  /** Setting a done flag leaves every flag that was set still set. */
  lemma FlagStaysSet(path: string, stored: Stored, section: string, key: string, key': string)
    requires Truthy(GetCell(Load(path, stored), section, key', Bool(false)))
    ensures Truthy(GetCell(Load(path, Store(path, stored, section, key, Bool(true))), section, key', Bool(false)))
  {
    if path != "" {
      if key == key' {
        StoreThenLoad(path, stored, section, key, Bool(true), Bool(false));
      } else {
        SetFrame(Load(path, stored), section, key, Bool(true), section, key', Bool(false));
      }
    }
  }

  /** Two reciters get the same request only when they have the same id text,
      and so the same flag. */
  lemma AudioFilesRequestInjective(cfg: Settings, a: Value, b: Value)
    requires AudioFilesRequest(cfg, a) == AudioFilesRequest(cfg, b)
    ensures ReciterKey(a) == ReciterKey(b)
  {
    var pre := "/chapter_recitations/";
    var p1 := pre + IdText(a) + "/audio_files";
    var p2 := pre + IdText(b) + "/audio_files";
    assert p1 == p2;
    assert |IdText(a)| == |IdText(b)|;
    assert IdText(a) == p1[|pre|..|pre| + |IdText(a)|];
    assert IdText(b) == p2[|pre|..|pre| + |IdText(b)|];
  }

  /** A reciter already flagged done when the loop starts gets no request;
      the loop only ever adds requests. */
  lemma {:induction false} DoneRecitersSkipped(env: Env, recs: seq<Value>, w: World, rec: Value)
    requires ReciterDone(env.path, w.stored, rec)
    ensures var r := RecitersFrom(env, recs, w);
            |w.sent| <= |r.world.sent| && r.world.sent[..|w.sent|] == w.sent
            && AudioFilesRequest(env.cfg, rec) !in r.world.sent[|w.sent|..]
    decreases |recs|
  {
    if recs != [] && !Nullish(recs[0]) && !ReciterDone(env.path, w.stored, recs[0]) && w.budget > 0 {
      var req := AudioFilesRequest(env.cfg, recs[0]);
      var w1 := Sent(w, req);
      if req == AudioFilesRequest(env.cfg, rec) {
        AudioFilesRequestInjective(env.cfg, recs[0], rec);
        assert false;
      }
      match env.api(req)
      case Failed =>
        assert w1.sent[|w.sent|..] == [req];
      case Data(body) =>
        match ForEachItems(Or(OptGet(body, "audio_files"), Arr([])))
        case None =>
          assert w1.sent[|w.sent|..] == [req];
        case Some(files) =>
          var w2 := Filed(env, w1, recs[0], files);
          FlagStaysSet(env.path, w1.stored, "audio", ReciterKey(recs[0]), ReciterKey(rec));
          DoneRecitersSkipped(env, recs[1..], w2, rec);
          var r := RecitersFrom(env, recs[1..], w2);
          assert w2.sent == w.sent + [req];
          PrefixThrough(w.sent, req, r.world.sent);
    } else if recs != [] && !Nullish(recs[0]) && ReciterDone(env.path, w.stored, recs[0]) {
      DoneRecitersSkipped(env, recs[1..], w, rec);
    }
  }

  /** With checkpointing on, a loop that completes leaves every reciter
      flagged done, flags set before included. */
  lemma {:induction false} CompletedMarksAll(env: Env, recs: seq<Value>, w: World)
    requires env.path != "" && RecitersFrom(env, recs, w).outcome == Completed
    ensures forall rec :: rec in recs ==> ReciterDone(env.path, RecitersFrom(env, recs, w).world.stored, rec)
    ensures forall rec :: ReciterDone(env.path, w.stored, rec) ==> ReciterDone(env.path, RecitersFrom(env, recs, w).world.stored, rec)
    decreases |recs|
  {
    if recs != [] {
      var r := RecitersFrom(env, recs, w);
      if ReciterDone(env.path, w.stored, recs[0]) {
        CompletedMarksAll(env, recs[1..], w);
      } else {
        var req := AudioFilesRequest(env.cfg, recs[0]);
        var w1 := Sent(w, req);
        var files := ForEachItems(Or(OptGet(env.api(req).body, "audio_files"), Arr([]))).value;
        var w2 := Filed(env, w1, recs[0], files);
        StoreThenLoad(env.path, w1.stored, "audio", ReciterKey(recs[0]), Bool(true), Bool(false));
        forall x | ReciterDone(env.path, w.stored, x)
          ensures ReciterDone(env.path, w2.stored, x)
        {
          FlagStaysSet(env.path, w1.stored, "audio", ReciterKey(recs[0]), ReciterKey(x));
        }
        CompletedMarksAll(env, recs[1..], w2);
      }
    }
  }

  /** A loop over reciters that are all flagged done sends nothing and
      changes nothing. */
  lemma {:induction false} AllDoneSkipped(env: Env, recs: seq<Value>, w: World)
    requires forall rec :: rec in recs ==> !Nullish(rec) && ReciterDone(env.path, w.stored, rec)
    ensures RecitersFrom(env, recs, w) == Step(w, Completed)
    decreases |recs|
  {
    if recs != [] {
      assert recs[0] in recs;
      forall rec | rec in recs[1..]
        ensures !Nullish(rec) && ReciterDone(env.path, w.stored, rec)
      {
        assert rec in recs;
      }
      AllDoneSkipped(env, recs[1..], w);
    }
  }

  /** With checkpointing on, running the reciter loop again after it completed
      sends no request. */
  lemma RerunSendsNothing(env: Env, recs: seq<Value>, w: World)
    requires env.path != "" && RecitersFrom(env, recs, w).outcome == Completed
    ensures var w' := RecitersFrom(env, recs, w).world;
            RecitersFrom(env, recs, w') == Step(w', Completed)
  {
    CompletedMarksAll(env, recs, w);
    CompletedHasNoNull(env, recs, w);
    AllDoneSkipped(env, recs, RecitersFrom(env, recs, w).world);
  }

  /** A loop that completes met no null or undefined reciter. */
  lemma {:induction false} CompletedHasNoNull(env: Env, recs: seq<Value>, w: World)
    requires RecitersFrom(env, recs, w).outcome == Completed
    ensures forall rec :: rec in recs ==> !Nullish(rec)
    decreases |recs|
  {
    if recs != [] {
      if ReciterDone(env.path, w.stored, recs[0]) {
        CompletedHasNoNull(env, recs[1..], w);
      } else {
        var req := AudioFilesRequest(env.cfg, recs[0]);
        var w1 := Sent(w, req);
        var files := ForEachItems(Or(OptGet(env.api(req).body, "audio_files"), Arr([]))).value;
        var w2 := Filed(env, w1, recs[0], files);
        CompletedHasNoNull(env, recs[1..], w2);
      }
    }
  }

  /** Writing the catalog throws exactly when it holds a null or undefined
      recitation. */
  lemma CatalogThrows(recs: seq<Value>)
    ensures Walk(RecitationEmitter(), recs).throws <==> exists i :: 0 <= i < |recs| && Nullish(recs[i])
  {
    WalkThrows(RecitationEmitter(), recs);
    if exists i :: 0 <= i < |recs| && Nullish(recs[i]) {
      var i :| 0 <= i < |recs| && Nullish(recs[i]);
      assert RecitationEmitter()(recs[i]).throws;
    }
  }

  /** The normalized records of a catalog without null entries. */
  function RecitationLinesOf(recs: seq<Value>): seq<Line>
    requires forall i :: 0 <= i < |recs| ==> !Nullish(recs[i])
  {
    seq(|recs|, i requires 0 <= i < |recs| => Line("recitations.ndjson", NormRecitation(recs[i]).value))
  }

  /** A catalog without null entries is written whole: one normalized record
      per recitation, in catalog order. */
  lemma {:induction false} WalkRecitations(recs: seq<Value>)
    requires forall i :: 0 <= i < |recs| ==> !Nullish(recs[i])
    ensures Walk(RecitationEmitter(), recs) == Emitted(RecitationLinesOf(recs), false)
    decreases |recs|
  {
    if recs != [] {
      WalkRecitations(recs[1..]);
      assert RecitationLinesOf(recs) == [Line("recitations.ndjson", NormRecitation(recs[0]).value)] + RecitationLinesOf(recs[1..]);
    }
  }

  // ---------------------------------------------------------------------------
  // Chapter-level timestamps and word segments

  /** `String(AUDIO_SEGMENTS || "false").toLowerCase() === "true"`. */
  predicate SegmentsEnabled(cfg: Settings) {
    ToLower(EnvOr(cfg.audioSegments, "false")) == "true"
  }

  /** The reciter ids asked for: the non-empty trimmed pieces of the setting,
      each read as a number (None for NaN). */
  function RecFilter(cfg: Settings): (r: seq<Option<int>>)
    ensures |r| == |OnlyTokens(cfg.segmentReciters)|
  {
    var tokens := OnlyTokens(cfg.segmentReciters);
    seq(|tokens|, i requires 0 <= i < |tokens| => NumberFromString(tokens[i]))
  }

  /** `Number(r.id)` is one of the ids asked for; `includes` finds NaN too. */
  predicate Asked(filter: seq<Option<int>>, rec: Value) {
    ToNumber(Get(rec, "id")) in filter
  }

  /** `reciters.filter(r => recFilter.includes(Number(r.id)))` on an array:
      a null or undefined reciter throws. */
  function FilterReciters(filter: seq<Option<int>>, recs: seq<Value>): Option<seq<Value>>
    decreases |recs|
  {
    if recs == [] then Some([])
    else if Nullish(recs[0]) then None
    else
      match FilterReciters(filter, recs[1..])
      case None => None
      case Some(rest) => Some(if Asked(filter, recs[0]) then [recs[0]] + rest else rest)
  }

  /** The reciters the segments sweep walks: all of them without a filter
      (anything but an array or a string cannot be walked), else the filtered
      array (`filter` exists on arrays only). */
  function RecList(filter: seq<Option<int>>, reciters: Value): Option<seq<Value>> {
    if filter == [] then Iterable(reciters)
    else if reciters.Arr? then FilterReciters(filter, reciters.items)
    else None
  }

  /** The filter keeps exactly the reciters asked for, in catalog order, and
      throws exactly when the catalog holds a null or undefined entry. */
  lemma {:induction false} FilterRecitersSpec(filter: seq<Option<int>>, recs: seq<Value>)
    ensures FilterReciters(filter, recs).None? <==> exists i :: 0 <= i < |recs| && Nullish(recs[i])
    ensures FilterReciters(filter, recs).Some? ==>
              forall rec :: rec in FilterReciters(filter, recs).value <==> rec in recs && Asked(filter, rec)
    decreases |recs|
  {
    if recs != [] {
      FilterRecitersSpec(filter, recs[1..]);
      if exists i :: 0 <= i < |recs[1..]| && Nullish(recs[1..][i]) {
        var i :| 0 <= i < |recs[1..]| && Nullish(recs[1..][i]);
        assert recs[i + 1] == recs[1..][i];
      }
      if exists i :: 0 <= i < |recs| && Nullish(recs[i]) {
        var i :| 0 <= i < |recs| && Nullish(recs[i]);
        if i > 0 {
          assert recs[i] == recs[1..][i - 1];
        }
      }
      assert forall rec :: rec in recs <==> rec == recs[0] || rec in recs[1..];
    }
  }

  /** One (reciter, chapter) turn of the nested loop. */
  datatype Pair = Pair(rec: Value, ch: int)

  /** The turns of `for (const rec of recList) for (const ch of chapters)`, in order. */
  function Pairs(recs: seq<Value>, chapters: seq<int>): seq<Pair>
    decreases |recs|
  {
    if recs == [] then []
    else seq(|chapters|, j requires 0 <= j < |chapters| => Pair(recs[0], chapters[j])) + Pairs(recs[1..], chapters)
  }

  /** The nested loop visits every reciter with every chapter, and nothing else. */
  lemma {:induction false} PairsSpec(recs: seq<Value>, chapters: seq<int>, p: Pair)
    ensures p in Pairs(recs, chapters) <==> p.rec in recs && p.ch in chapters
    ensures |Pairs(recs, chapters)| == |recs| * |chapters|
    decreases |recs|
  {
    if recs != [] {
      PairsSpec(recs[1..], chapters, p);
      var row := seq(|chapters|, j requires 0 <= j < |chapters| => Pair(recs[0], chapters[j]));
      if p.rec == recs[0] && p.ch in chapters {
        var j :| 0 <= j < |chapters| && chapters[j] == p.ch;
        assert row[j] == p;
      }
      assert p in row ==> p.rec == recs[0] && p.ch in chapters;
      assert p.rec in recs <==> p.rec == recs[0] || p.rec in recs[1..];
      calc {
        |recs| * |chapters|;
        (1 + |recs[1..]|) * |chapters|;
        |chapters| + |recs[1..]| * |chapters|;
      }
    }
  }

  /** The flag `rec_<id>_ch_<n>_done` of the `audio_segments` section. */
  function SegmentKey(p: Pair): string {
    "rec_" + IdText(p.rec) + "_ch_" + IntToString(p.ch) + "_done"
  }

  /** `getCP("audio_segments", rec_<id>_ch_<n>_done, false)` is truthy. */
  predicate SegmentDone(path: string, stored: Stored, p: Pair) {
    Truthy(GetCell(Load(path, stored), "audio_segments", SegmentKey(p), Bool(false)))
  }

  /** The world once a pair's flag is set. */
  function Marked(env: Env, w: World, p: Pair): World {
    w.(stored := Store(env.path, w.stored, "audio_segments", SegmentKey(p), Bool(true)))
  }

  /** The pair loop as written: the endpoint table has no
      `chapterAudioTimestamps` entry, so reading its `path` throws a TypeError
      at the first pair not yet flagged done, before any request. */
  function PairsFromAsWritten(env: Env, ps: seq<Pair>, w: World): Step
    decreases |ps|
  {
    if ps == [] then Step(w, Completed)
    else if Nullish(ps[0].rec) then Step(w, Threw)
    else if SegmentDone(env.path, w.stored, ps[0]) then PairsFromAsWritten(env, ps[1..], w)
    else Step(w, Threw)
  }

  /** As written, the pair loop never sends a request, writes a record or sets
      a flag, and it completes only when every pair was already flagged done. */
  lemma {:induction false} AsWrittenNeverFetches(env: Env, ps: seq<Pair>, w: World)
    ensures PairsFromAsWritten(env, ps, w).world == w
    ensures PairsFromAsWritten(env, ps, w).outcome == Completed <==>
              forall i :: 0 <= i < |ps| ==> !Nullish(ps[i].rec) && SegmentDone(env.path, w.stored, ps[i])
    decreases |ps|
  {
    if ps != [] {
      AsWrittenNeverFetches(env, ps[1..], w);
      assert forall i :: 1 <= i < |ps| ==> ps[i] == ps[1..][i - 1];
    }
  }

  /** With checkpointing off, one reciter and one chapter: the sweep as
      written throws without fetching anything. */
  lemma AsWrittenThrowsAtFirstPair(api: Request -> Reply, cfg: Settings, w: World)
    ensures var ps := [Pair(Obj(["id"], map["id" := Num(7)]), 1)];
            PairsFromAsWritten(Env(api, "", cfg), ps, w) == Step(w, Threw)
  {
    var p := Pair(Obj(["id"], map["id" := Num(7)]), 1);
    assert !SegmentDone("", w.stored, p);
  }

  /** `normVerseTimestamps` and `normWordSegments`: applied to the audio file
      id and one timestamp item; the word segments may fail to be iterable
      (None). */
  datatype SegmentCodec = SegmentCodec(verse: (Value, Value) -> Value, words: (Value, Value) -> Option<seq<Value>>)

  /** The route of the chapter-level timestamps: the chapter recitation of a
      reciter and chapter. */
  function SegmentPath(p: Pair): string {
    "/chapter_recitations/" + IdText(p.rec) + "/" + IntToString(p.ch)
  }

  /** The request of a pair, with `language` and `segments: true`. */
  function SegmentRequest(cfg: Settings, p: Pair): Request {
    Request(SegmentPath(p), Obj(["language", "segments"], map["language" := Str(Language(cfg)), "segments" := Bool(true)]))
  }

  /** What a reply offers: nothing to export, or the audio file id and the
      timestamp items. */
  datatype Segments = NoTimestamps | Timestamps(id: Value, items: seq<Value>)

  /** `audioFile = d?.audio_file || d || {}`, its id `audioFile.id ??
      audioFile.audio_file?.id`, `timestamps = d?.timestamps ||
      audioFile.timestamps || []`; a falsy id or anything but a non-empty
      array of timestamps exports nothing. */
  function SegmentsOf(d: Value): (r: Segments)
    ensures r.Timestamps? ==> Truthy(r.id) && r.items != []
  {
    var audioFile := Or(OptGet(d, "audio_file"), Or(d, Obj([], map[])));
    var id := Coalesce(Get(audioFile, "id"), OptGet(Get(audioFile, "audio_file"), "id"));
    var timestamps := Or(OptGet(d, "timestamps"), Or(Get(audioFile, "timestamps"), Arr([])));
    if !Truthy(id) || !timestamps.Arr? || timestamps.items == [] then NoTimestamps
    else Timestamps(id, timestamps.items)
  }

  /** One timestamp item: its verse record, then its word segments. */
  function SegmentLines(codec: SegmentCodec, id: Value, item: Value): Emitted {
    var vt := Line("verse_timestamps.ndjson", codec.verse(id, item));
    match codec.words(id, item)
    case None => Emitted([vt], true)
    case Some(ws) => Emitted([vt] + LinesTo("word_segments.ndjson", ws), false)
  }

  function SegmentEmitter(codec: SegmentCodec, id: Value): Value -> Emitted {
    item => SegmentLines(codec, id, item)
  }

  /** The pair loop with the chapter-level route in place. */
  function PairsFrom(env: Env, codec: SegmentCodec, ps: seq<Pair>, w: World): Step
    decreases |ps|
  {
    if ps == [] then Step(w, Completed)
    else if Nullish(ps[0].rec) then Step(w, Threw)
    else if SegmentDone(env.path, w.stored, ps[0]) then PairsFrom(env, codec, ps[1..], w)
    else if w.budget == 0 then Step(w, Exhausted)
    else
      var req := SegmentRequest(env.cfg, ps[0]);
      var w1 := Sent(w, req);
      match env.api(req)
      case Failed => Step(w1, Threw)
      case Data(d) =>
        match SegmentsOf(d)
        case NoTimestamps => PairsFrom(env, codec, ps[1..], Marked(env, w1, ps[0]))
        case Timestamps(id, items) =>
          var e := Walk(SegmentEmitter(codec, id), items);
          var w2 := w1.(files := Written(w1.files, e.lines));
          if e.throws then Step(w2, Threw) else PairsFrom(env, codec, ps[1..], Marked(env, w2, ps[0]))
  }

  /** The segments section: when enabled, the recitations catalog, the
      reciters asked for, the chapters asked for, then the pair loop. */
  function SegmentsRun(env: Env, codec: SegmentCodec, w: World): Step {
    if !SegmentsEnabled(env.cfg) then Step(w, Completed) else SegmentsFetched(env, codec, w)
  }

  /** The enabled segments section: the catalog, then the pair loop. */
  function SegmentsFetched(env: Env, codec: SegmentCodec, w: World): Step {
    if w.budget == 0 then Step(w, Exhausted)
    else
      var req := CatalogRequest(env.cfg, "/recitations");
      var w1 := Sent(w, req);
      match env.api(req)
      case Failed => Step(w1, Threw)
      case Data(body) =>
        match RecList(RecFilter(env.cfg), Or(OptGet(body, "recitations"), Arr([])))
        case None => Step(w1, Threw)
        case Some(recs) => PairsFrom(env, codec, Pairs(recs, ChapterListSpec(env.cfg.segmentChapters)), w1)
  }

  /** The pair loop, as the source writes it (with the route in place). */
  method SweepPairs(ex: Exporter, codec: SegmentCodec, ps: seq<Pair>) returns (outcome: Outcome)
    requires ex.Valid()
    modifies ex, ex.ledger, ex.sink
    ensures Step(ex.State(), outcome) == PairsFrom(ex.env, codec, ps, old(ex.State()))
  {
    ghost var w0 := ex.State();
    var i := 0;
    assert ps[0..] == ps;
    while i < |ps|
      invariant 0 <= i <= |ps| && ex.Valid()
      invariant PairsFrom(ex.env, codec, ps[i..], ex.State()) == PairsFrom(ex.env, codec, ps, w0)
    {
      var p := ps[i];
      assert ps[i..][1..] == ps[i + 1..];
      if Nullish(p.rec) {
        return Threw;
      }
      if Truthy(ex.ledger.GetCP("audio_segments", SegmentKey(p), Bool(false))) {
        i := i + 1;
        continue;
      }
      ghost var before := ex.State();
      var reply := ex.Get(SegmentRequest(ex.env.cfg, p));
      if reply.None? {
        return Exhausted;
      }
      ghost var w1 := ex.State();
      assert w1 == Sent(before, SegmentRequest(ex.env.cfg, p));
      if reply.value.Failed? {
        return Threw;
      }
      var segments := SegmentsOf(reply.value.body);
      if segments.Timestamps? {
        var throws := WalkWrite(ex, SegmentEmitter(codec, segments.id), segments.items);
        if throws {
          return Threw;
        }
      }
      ghost var w2 := ex.State();
      ex.ledger.SetCP("audio_segments", SegmentKey(p), Bool(true));
      assert ex.State() == Marked(ex.env, w2, p);
      i := i + 1;
    }
    outcome := Completed;
  }

  /** The segments section, as the source writes it. */
  method SegmentsSection(ex: Exporter, codec: SegmentCodec) returns (outcome: Outcome)
    requires ex.Valid()
    modifies ex, ex.ledger, ex.sink
    ensures Step(ex.State(), outcome) == SegmentsRun(ex.env, codec, old(ex.State()))
  {
    if !SegmentsEnabled(ex.env.cfg) {
      return Completed;
    }
    outcome := SegmentsFetch(ex, codec);
  }

  /** The enabled segments section, as the source writes it. */
  method SegmentsFetch(ex: Exporter, codec: SegmentCodec) returns (outcome: Outcome)
    requires ex.Valid()
    modifies ex, ex.ledger, ex.sink
    ensures Step(ex.State(), outcome) == SegmentsFetched(ex.env, codec, old(ex.State()))
  {
    var reply := ex.Get(CatalogRequest(ex.env.cfg, "/recitations"));
    if reply.None? {
      return Exhausted;
    }
    if reply.value.Failed? {
      return Threw;
    }
    var recs := RecList(RecFilter(ex.env.cfg), Or(OptGet(reply.value.body, "recitations"), Arr([])));
    if recs.None? {
      return Threw;
    }
    var chapters := ParseChapters(ex.env.cfg.segmentChapters);
    outcome := SweepPairs(ex, codec, Pairs(recs.value, chapters));
  }

  // ---------------------------------------------------------------------------
  // Properties of the pair loop

  /** What one pair's items write when every item's word segments can be
      walked: one verse record per item, in item order, and the word segments
      of the items one after another; nothing throws. */
  function WordRecords(codec: SegmentCodec, id: Value, items: seq<Value>): seq<Value>
    requires forall i :: 0 <= i < |items| ==> codec.words(id, items[i]).Some?
    decreases |items|
  {
    if items == [] then [] else codec.words(id, items[0]).value + WordRecords(codec, id, items[1..])
  }

  lemma {:induction false} SegmentRecords(codec: SegmentCodec, id: Value, items: seq<Value>)
    requires forall i :: 0 <= i < |items| ==> codec.words(id, items[i]).Some?
    ensures var e := Walk(SegmentEmitter(codec, id), items);
            !e.throws
            && RecordsFor(e.lines, "verse_timestamps.ndjson") == VerseRecords(codec, id, items)
            && RecordsFor(e.lines, "word_segments.ndjson") == WordRecords(codec, id, items)
    decreases |items|
  {
    if items != [] {
      SegmentRecords(codec, id, items[1..]);
      var head := SegmentLines(codec, id, items[0]);
      var rest := Walk(SegmentEmitter(codec, id), items[1..]);
      SegmentHead(codec, id, items[0]);
      assert Walk(SegmentEmitter(codec, id), items).lines == head.lines + rest.lines;
      RecordsForAppend(head.lines, rest.lines, "verse_timestamps.ndjson");
      RecordsForAppend(head.lines, rest.lines, "word_segments.ndjson");
      VerseRecordsCons(codec, id, items);
    }
  }

  /** The verse records of a pair's items, in item order. */
  function VerseRecords(codec: SegmentCodec, id: Value, items: seq<Value>): (r: seq<Value>)
    ensures |r| == |items|
  {
    seq(|items|, i requires 0 <= i < |items| => codec.verse(id, items[i]))
  }

  lemma VerseRecordsCons(codec: SegmentCodec, id: Value, items: seq<Value>)
    requires items != []
    ensures VerseRecords(codec, id, items) == [codec.verse(id, items[0])] + VerseRecords(codec, id, items[1..])
  {
  }

  /** One item with its word segments: the verse record, then the words. */
  lemma SegmentHead(codec: SegmentCodec, id: Value, item: Value)
    requires codec.words(id, item).Some?
    ensures var e := SegmentLines(codec, id, item);
            !e.throws
            && RecordsFor(e.lines, "verse_timestamps.ndjson") == [codec.verse(id, item)]
            && RecordsFor(e.lines, "word_segments.ndjson") == codec.words(id, item).value
  {
    var ws := codec.words(id, item).value;
    var vt := [Line("verse_timestamps.ndjson", codec.verse(id, item))];
    OnlyFileRecords("word_segments.ndjson", ws, "verse_timestamps.ndjson");
    OnlyFileRecords("word_segments.ndjson", ws, "word_segments.ndjson");
    RecordsForAppend(vt, LinesTo("word_segments.ndjson", ws), "verse_timestamps.ndjson");
    RecordsForAppend(vt, LinesTo("word_segments.ndjson", ws), "word_segments.ndjson");
    assert RecordsFor(vt, "word_segments.ndjson") == [];
    assert RecordsFor(vt, "verse_timestamps.ndjson") == [codec.verse(id, item)];
  }

  /** Lines all addressed to one file hold their records for that file and
      nothing for any other. */
  lemma {:induction false} OnlyFileRecords(file: string, xs: seq<Value>, other: string)
    ensures RecordsFor(LinesTo(file, xs), other) == if other == file then xs else []
    decreases |xs|
  {
    if xs != [] {
      OnlyFileRecords(file, xs[1..], other);
      assert LinesTo(file, xs)[1..] == LinesTo(file, xs[1..]);
    }
  }

  /** The loop only adds requests, each of them the request of one of its pairs. */
  lemma {:induction false} PairsFromSends(env: Env, codec: SegmentCodec, ps: seq<Pair>, w: World)
    ensures var r := PairsFrom(env, codec, ps, w);
            |w.sent| <= |r.world.sent| && r.world.sent[..|w.sent|] == w.sent
            && forall k :: |w.sent| <= k < |r.world.sent| ==> PairRequest(env.cfg, ps, r.world.sent[k])
    decreases |ps|, 1
  {
    if ps != [] && !Nullish(ps[0].rec) {
      if SegmentDone(env.path, w.stored, ps[0]) {
        PairsFromSends(env, codec, ps[1..], w);
        ForwardPairs(env.cfg, ps, PairsFrom(env, codec, ps[1..], w).world.sent, |w.sent|);
      } else if w.budget > 0 {
        var req := SegmentRequest(env.cfg, ps[0]);
        var w1 := Sent(w, req);
        match env.api(req)
        case Failed =>
        case Data(d) =>
          match SegmentsOf(d)
          case NoTimestamps =>
            TailSends(env, codec, ps, w, Marked(env, w1, ps[0]));
          case Timestamps(id, items) =>
            var e := Walk(SegmentEmitter(codec, id), items);
            var w2 := w1.(files := Written(w1.files, e.lines));
            if !e.throws {
              TailSends(env, codec, ps, w, Marked(env, w2, ps[0]));
            }
      }
    }
  }

  /** The request is the request of one of the pairs. */
  predicate PairRequest(cfg: Settings, ps: seq<Pair>, req: Request) {
    exists p :: p in ps && req == SegmentRequest(cfg, p)
  }

  /** A request of a later pair is a request of one of the pairs. */
  lemma ForwardPairs(cfg: Settings, ps: seq<Pair>, sent: seq<Request>, from: nat)
    requires ps != []
    requires forall k :: from <= k < |sent| ==> PairRequest(cfg, ps[1..], sent[k])
    ensures forall k :: from <= k < |sent| ==> PairRequest(cfg, ps, sent[k])
  {
    forall k | from <= k < |sent|
      ensures PairRequest(cfg, ps, sent[k])
    {
      var p :| p in ps[1..] && sent[k] == SegmentRequest(cfg, p);
      assert p in ps;
    }
  }

  /** The first pair's request, then the tail loop from the world after it. */
  lemma TailSends(env: Env, codec: SegmentCodec, ps: seq<Pair>, w: World, w': World)
    requires ps != [] && w.budget > 0
    requires w'.sent == w.sent + [SegmentRequest(env.cfg, ps[0])]
    ensures var r := PairsFrom(env, codec, ps[1..], w');
            |w.sent| <= |r.world.sent| && r.world.sent[..|w.sent|] == w.sent
            && forall k :: |w.sent| <= k < |r.world.sent| ==> PairRequest(env.cfg, ps, r.world.sent[k])
    decreases |ps|, 0
  {
    PairsFromSends(env, codec, ps[1..], w');
    var r := PairsFrom(env, codec, ps[1..], w');
    assert r.world.sent[..|w.sent|] == r.world.sent[..|w'.sent|][..|w.sent|];
    ForwardPairs(env.cfg, ps, r.world.sent, |w'.sent|);
    assert r.world.sent[|w.sent|] == w'.sent[|w.sent|];
    assert ps[0] in ps;
  }

  /** A pair pending when the loop reaches it is fetched first: the request
      the as-written loop never sends goes out. */
  lemma FirstPendingFetched(env: Env, codec: SegmentCodec, ps: seq<Pair>, w: World)
    requires ps != [] && !Nullish(ps[0].rec) && !SegmentDone(env.path, w.stored, ps[0]) && w.budget > 0
    ensures var r := PairsFrom(env, codec, ps, w);
            |w.sent| < |r.world.sent| && r.world.sent[|w.sent|] == SegmentRequest(env.cfg, ps[0])
  {
    var req := SegmentRequest(env.cfg, ps[0]);
    var w1 := Sent(w, req);
    assert w1.sent[|w.sent|] == req;
    match env.api(req)
    case Failed =>
    case Data(d) =>
      match SegmentsOf(d)
      case NoTimestamps =>
        PairsFromSends(env, codec, ps[1..], Marked(env, w1, ps[0]));
        var r := PairsFrom(env, codec, ps[1..], Marked(env, w1, ps[0]));
        assert r.world.sent[|w.sent|] == r.world.sent[..|w1.sent|][|w.sent|];
      case Timestamps(id, items) =>
        var e := Walk(SegmentEmitter(codec, id), items);
        var w2 := w1.(files := Written(w1.files, e.lines));
        if !e.throws {
          PairsFromSends(env, codec, ps[1..], Marked(env, w2, ps[0]));
          var r := PairsFrom(env, codec, ps[1..], Marked(env, w2, ps[0]));
          assert r.world.sent[|w.sent|] == r.world.sent[..|w2.sent|][|w.sent|];
        }
  }

  /** Setting a segments flag leaves every segments flag that was set still set. */
  lemma SegmentFlagStaysSet(env: Env, w: World, p: Pair, q: Pair)
    requires SegmentDone(env.path, w.stored, q)
    ensures SegmentDone(env.path, Marked(env, w, p).stored, q)
  {
    if env.path != "" {
      StoreThenLoad(env.path, w.stored, "audio_segments", SegmentKey(p), Bool(true), Bool(false));
      if SegmentKey(p) != SegmentKey(q) {
        SetFrame(Load(env.path, w.stored), "audio_segments", SegmentKey(p), Bool(true), "audio_segments", SegmentKey(q), Bool(false));
      }
    }
  }

  /** Marking a pair flags it done exactly when checkpointing is on. */
  lemma SegmentMarked(env: Env, w: World, p: Pair)
    ensures SegmentDone(env.path, Marked(env, w, p).stored, p) <==> env.path != ""
  {
    if env.path != "" {
      StoreThenLoad(env.path, w.stored, "audio_segments", SegmentKey(p), Bool(true), Bool(false));
    }
  }

  /** A decimal numeral holds no slash. */
  lemma NumeralHasNoSlash(n: int)
    ensures '/' !in IntToString(n)
  {
    var s := IntToString(n);
    if n < 0 {
      var t := NatToString(-n);
      assert s == "-" + t;
      forall i | 0 <= i < |s|
        ensures s[i] != '/'
      {
        if i > 0 {
          assert s[i] == t[i - 1];
        }
      }
    }
  }

  /** Texts ending in a slash and a slash-free tail split back at that slash. */
  lemma SplitAtLastSlash(x: string, n: string, y: string, m: string)
    requires '/' !in n && '/' !in m && x + "/" + n == y + "/" + m
    ensures x == y && n == m
  {
    var s := x + "/" + n;
    var t := y + "/" + m;
    SlashInTail(x, n, y, m);
    SlashInTail(y, m, x, n);
    assert x == s[..|x|] && y == t[..|y|];
    assert n == s[|x| + 1..] && m == t[|y| + 1..];
  }

  /** When the first slash-joined text has the shorter tail, its slash falls
      inside the other text's tail. */
  lemma SlashInTail(x: string, n: string, y: string, m: string)
    ensures x + "/" + n == y + "/" + m && |n| < |m| ==> '/' in m
  {
    if x + "/" + n == y + "/" + m && |n| < |m| {
      var t := y + "/" + m;
      assert (x + "/" + n)[|x|] == '/';
      assert t[|x|] == m[|x| - |y| - 1];
    }
  }

  /** Two pairs with the same segments request have the same done flag. */
  lemma SegmentRequestInjective(cfg: Settings, p: Pair, q: Pair)
    requires SegmentRequest(cfg, p) == SegmentRequest(cfg, q)
    ensures SegmentKey(p) == SegmentKey(q)
  {
    var pre := "/chapter_recitations/";
    assert SegmentPath(p) == SegmentPath(q);
    NumeralHasNoSlash(p.ch);
    NumeralHasNoSlash(q.ch);
    assert SegmentPath(p) == (pre + IdText(p.rec)) + "/" + IntToString(p.ch);
    assert SegmentPath(q) == (pre + IdText(q.rec)) + "/" + IntToString(q.ch);
    SplitAtLastSlash(pre + IdText(p.rec), IntToString(p.ch), pre + IdText(q.rec), IntToString(q.ch));
    assert IdText(p.rec) == (pre + IdText(p.rec))[|pre|..];
    assert IdText(q.rec) == (pre + IdText(q.rec))[|pre|..];
  }

  /** A pair already flagged done gets no request: every request the pair
      loop adds is for a pair whose flag was not set. */
  lemma {:induction false} DonePairsSkipped(env: Env, codec: SegmentCodec, ps: seq<Pair>, w: World, q: Pair)
    requires SegmentDone(env.path, w.stored, q)
    ensures var r := PairsFrom(env, codec, ps, w);
            |w.sent| <= |r.world.sent| && r.world.sent[..|w.sent|] == w.sent
            && SegmentRequest(env.cfg, q) !in r.world.sent[|w.sent|..]
    decreases |ps|
  {
    if ps != [] && !Nullish(ps[0].rec) {
      if SegmentDone(env.path, w.stored, ps[0]) {
        DonePairsSkipped(env, codec, ps[1..], w, q);
      } else if w.budget > 0 {
        var req := SegmentRequest(env.cfg, ps[0]);
        var w1 := Sent(w, req);
        if req == SegmentRequest(env.cfg, q) {
          SegmentRequestInjective(env.cfg, ps[0], q);
          assert false;
        }
        match env.api(req)
        case Failed =>
          assert w1.sent[|w.sent|..] == [req];
        case Data(d) =>
          match SegmentsOf(d)
          case NoTimestamps =>
            PairSkipsAfter(env, codec, ps, w, q, w1, req);
          case Timestamps(id, items) =>
            var e := Walk(SegmentEmitter(codec, id), items);
            var w2 := w1.(files := Written(w1.files, e.lines));
            if e.throws {
              assert w2.sent[|w.sent|..] == [req];
            } else {
              PairSkipsAfter(env, codec, ps, w, q, w2, req);
            }
      }
    }
  }

  /** The step of `DonePairsSkipped` after a pair was fetched and marked. */
  lemma {:induction false} PairSkipsAfter(env: Env, codec: SegmentCodec, ps: seq<Pair>, w: World, q: Pair, w2: World, req: Request)
    requires ps != [] && SegmentDone(env.path, w.stored, q) && w2.stored == w.stored
    requires w2.sent == w.sent + [req] && req != SegmentRequest(env.cfg, q)
    ensures var r := PairsFrom(env, codec, ps[1..], Marked(env, w2, ps[0]));
            |w.sent| <= |r.world.sent| && r.world.sent[..|w.sent|] == w.sent
            && SegmentRequest(env.cfg, q) !in r.world.sent[|w.sent|..]
    decreases |ps|, 0
  {
    var w3 := Marked(env, w2, ps[0]);
    SegmentFlagStaysSet(env, w2, ps[0], q);
    DonePairsSkipped(env, codec, ps[1..], w3, q);
    var r := PairsFrom(env, codec, ps[1..], w3);
    PrefixThrough(w.sent, req, r.world.sent);
  }

  /** With checkpointing on, a loop that completes met no null or undefined
      reciter, and leaves every pair flagged done, flags set before included. */
  lemma {:induction false} PairsCompletedMarksAll(env: Env, codec: SegmentCodec, ps: seq<Pair>, w: World)
    requires env.path != "" && PairsFrom(env, codec, ps, w).outcome == Completed
    ensures forall p :: p in ps ==> !Nullish(p.rec) && SegmentDone(env.path, PairsFrom(env, codec, ps, w).world.stored, p)
    ensures forall p :: SegmentDone(env.path, w.stored, p) ==> SegmentDone(env.path, PairsFrom(env, codec, ps, w).world.stored, p)
    decreases |ps|
  {
    if ps != [] {
      if SegmentDone(env.path, w.stored, ps[0]) {
        PairsCompletedMarksAll(env, codec, ps[1..], w);
      } else {
        var req := SegmentRequest(env.cfg, ps[0]);
        var w1 := Sent(w, req);
        var d := env.api(req).body;
        var w2 := match SegmentsOf(d)
                  case NoTimestamps => w1
                  case Timestamps(id, items) =>
                    w1.(files := Written(w1.files, Walk(SegmentEmitter(codec, id), items).lines));
        var w3 := Marked(env, w2, ps[0]);
        assert PairsFrom(env, codec, ps, w) == PairsFrom(env, codec, ps[1..], w3);
        forall q | SegmentDone(env.path, w.stored, q)
          ensures SegmentDone(env.path, w3.stored, q)
        {
          SegmentFlagStaysSet(env, w2, ps[0], q);
        }
        SegmentMarked(env, w2, ps[0]);
        PairsCompletedMarksAll(env, codec, ps[1..], w3);
      }
    }
  }

  /** A loop over pairs that are all flagged done sends nothing and changes
      nothing. */
  lemma {:induction false} PairsAllDoneSkipped(env: Env, codec: SegmentCodec, ps: seq<Pair>, w: World)
    requires forall p :: p in ps ==> !Nullish(p.rec) && SegmentDone(env.path, w.stored, p)
    ensures PairsFrom(env, codec, ps, w) == Step(w, Completed)
    decreases |ps|
  {
    if ps != [] {
      assert ps[0] in ps;
      forall p | p in ps[1..]
        ensures !Nullish(p.rec) && SegmentDone(env.path, w.stored, p)
      {
        assert p in ps;
      }
      PairsAllDoneSkipped(env, codec, ps[1..], w);
    }
  }

  /** With checkpointing on, running the pair loop again after it completed
      sends no request. */
  lemma PairsRerunSendsNothing(env: Env, codec: SegmentCodec, ps: seq<Pair>, w: World)
    requires env.path != "" && PairsFrom(env, codec, ps, w).outcome == Completed
    ensures var w' := PairsFrom(env, codec, ps, w).world;
            PairsFrom(env, codec, ps, w') == Step(w', Completed)
  {
    PairsCompletedMarksAll(env, codec, ps, w);
    PairsAllDoneSkipped(env, codec, ps, PairsFrom(env, codec, ps, w).world);
  }

  /** A pair whose reply offers no timestamps is flagged done with nothing
      written, so it is not fetched again. */
  lemma NoTimestampsMarked(env: Env, codec: SegmentCodec, ps: seq<Pair>, w: World)
    requires ps != [] && !Nullish(ps[0].rec) && !SegmentDone(env.path, w.stored, ps[0]) && w.budget > 0
    requires var req := SegmentRequest(env.cfg, ps[0]);
             env.api(req).Data? && SegmentsOf(env.api(req).body) == NoTimestamps
    ensures var w1 := Sent(w, SegmentRequest(env.cfg, ps[0]));
            PairsFrom(env, codec, ps, w) == PairsFrom(env, codec, ps[1..], Marked(env, w1, ps[0]))
            && Marked(env, w1, ps[0]).files == w.files
            && (env.path != "" ==> SegmentDone(env.path, Marked(env, w1, ps[0]).stored, ps[0]))
  {
    SegmentMarked(env, Sent(w, SegmentRequest(env.cfg, ps[0])), ps[0]);
  }
}

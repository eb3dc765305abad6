/** The remaining sections of the export run of src/run.ts (the resource
    catalogs, the chapters with their infos, the verses, the juz list, the
    translation and tafsir texts) and the run itself, which takes the
    sections in order, each only when the selection wants it, and stops at
    the first one that does not complete. */
module Sections {
  import opened Wrappers
  import opened Text
  import opened Json
  import opened Checkpoint
  import opened Util
  import opened Catalog
  import opened Sweep
  import opened Paged
  import opened Scopes
  import opened Audio

  // ---------------------------------------------------------------------------
  // Resource catalogs

  /** One catalog of the resources section: its path, the member holding the
      list, the output file, and whether the list is filtered by language. */
  datatype Part = Part(path: string, member: string, file: string, filtered: bool)

  /** What the section writes of a catalog list: the list itself, through
      `forEach`, or in any mode but "all" the entries matching the target
      language (`filter` exists on arrays only; no fallback language here). */
  function PartItems(cfg: Settings, part: Part, list: Value): Option<seq<Value>> {
    var mode := FilterMode(cfg.filterMode);
    if !part.filtered || mode == "all" then ForEachItems(list)
    else if list.Arr? then SelectWithoutFallback(list.items, WantedResourceLang(cfg.resourceLang, cfg.language), mode)
    else None
  }

  /** One catalog: request it with the language, write its entries. */
  function PartRun(env: Env, part: Part, w: World): Step {
    if w.budget == 0 then Step(w, Exhausted)
    else
      var req := CatalogRequest(env.cfg, part.path);
      var w1 := Sent(w, req);
      match env.api(req)
      case Failed => Step(w1, Threw)
      case Data(body) =>
        match PartItems(env.cfg, part, Or(OptGet(body, part.member), Arr([])))
        case None => Step(w1, Threw)
        case Some(xs) => Step(w1.(files := Written(w1.files, LinesTo(part.file, xs))), Completed)
  }

  /** The four catalogs, in the order the section fetches them. */
  function ResourceParts(): seq<Part> {
    [Part("/resources/languages", "languages", "languages.ndjson", false),
     Part("/resources/translations", "translations", "translation_resources.ndjson", true),
     Part("/resources/tafsirs", "tafsirs", "tafsir_resources.ndjson", true),
     Part("/resources/recitations", "recitations", "recitations.ndjson", false)]
  }

  /** The catalogs one after the other, stopping at the first that does not
      complete. */
  function PartsFrom(env: Env, parts: seq<Part>, w: World): Step
    decreases |parts|
  {
    if parts == [] then Step(w, Completed)
    else
      var r := PartRun(env, parts[0], w);
      if r.outcome != Completed then r else PartsFrom(env, parts[1..], r.world)
  }

  /** One catalog, as the source writes it. */
  method FetchPart(ex: Exporter, part: Part) returns (outcome: Outcome)
    requires ex.Valid()
    modifies ex, ex.sink
    ensures ex.Valid()
    ensures Step(ex.State(), outcome) == PartRun(ex.env, part, old(ex.State()))
  {
    var reply := ex.Get(CatalogRequest(ex.env.cfg, part.path));
    if reply.None? {
      return Exhausted;
    }
    if reply.value.Failed? {
      return Threw;
    }
    var xs := PartItems(ex.env.cfg, part, Or(OptGet(reply.value.body, part.member), Arr([])));
    if xs.None? {
      return Threw;
    }
    ex.Write(LinesTo(part.file, xs.value));
    outcome := Completed;
  }

  /** The resources section: the four catalogs in turn. */
  method ResourcesSection(ex: Exporter) returns (outcome: Outcome)
    requires ex.Valid()
    modifies ex, ex.sink
    ensures Step(ex.State(), outcome) == PartsFrom(ex.env, ResourceParts(), old(ex.State()))
  {
    var parts := ResourceParts();
    ghost var w0 := ex.State();
    outcome := FetchPart(ex, parts[0]);
    if outcome != Completed {
      return;
    }
    outcome := FetchPart(ex, parts[1]);
    if outcome != Completed {
      return;
    }
    outcome := FetchPart(ex, parts[2]);
    if outcome != Completed {
      return;
    }
    outcome := FetchPart(ex, parts[3]);
  }

  /** The catalogs are not checkpointed: the checkpoint file is untouched, and
      the requests sent are the first few catalog requests, in order, one
      budget unit each; so a later run fetches them all again. */
  lemma {:induction false} PartsNotCheckpointed(env: Env, parts: seq<Part>, w: World)
    ensures var r := PartsFrom(env, parts, w);
            r.world.stored == w.stored && SentPrefix(env.cfg, parts, w, r.world)
    decreases |parts|
  {
    var r := PartsFrom(env, parts, w);
    if parts == [] || w.budget == 0 {
      assert parts[..0] == [];
      assert r.world == w;
      assert SentPrefixAt(env.cfg, parts, w, r.world, 0);
    } else {
      var r1 := PartRun(env, parts[0], w);
      var req := CatalogRequest(env.cfg, parts[0].path);
      PartSends(env, parts[0], w);
      if r1.outcome != Completed {
        assert r == r1;
        SentPrefixCons(env.cfg, parts, w, r1.world, r1.world, 0);
      } else {
        assert r == PartsFrom(env, parts[1..], r1.world);
        PartsNotCheckpointed(env, parts[1..], r1.world);
        var k :| SentPrefixAt(env.cfg, parts[1..], r1.world, r.world, k);
        SentPrefixCons(env.cfg, parts, w, r1.world, r.world, k);
      }
    }
  }

  /** From `w` to `w2` the requests of the first `k` parts went out, one
      budget unit each. */
  predicate SentPrefixAt(cfg: Settings, parts: seq<Part>, w: World, w2: World, k: int) {
    0 <= k <= |parts|
    && w2.sent == w.sent + PartRequests(cfg, parts[..k])
    && w2.budget + k == w.budget
  }

  lemma SentPrefixCons(cfg: Settings, parts: seq<Part>, w: World, w1: World, w2: World, k: int)
    requires parts != []
    requires w1.sent == w.sent + [CatalogRequest(cfg, parts[0].path)] && w1.budget + 1 == w.budget
    requires SentPrefixAt(cfg, parts[1..], w1, w2, k)
    ensures SentPrefixAt(cfg, parts, w, w2, k + 1)
  {
    assert parts[..k + 1] == [parts[0]] + parts[1..][..k];
    PartRequestsAppend(cfg, [parts[0]], parts[1..][..k]);
    ConcatAssoc(w.sent, [CatalogRequest(cfg, parts[0].path)], PartRequests(cfg, parts[1..][..k]));
  }

  ghost predicate SentPrefix(cfg: Settings, parts: seq<Part>, w: World, w2: World) {
    exists k :: SentPrefixAt(cfg, parts, w, w2, k)
  }

  /** A catalog with budget left sends its one request and leaves the
      checkpoint file alone. */
  lemma PartSends(env: Env, part: Part, w: World)
    requires w.budget > 0
    ensures var r := PartRun(env, part, w);
            r.world.sent == w.sent + [CatalogRequest(env.cfg, part.path)]
            && r.world.budget + 1 == w.budget && r.world.stored == w.stored
  {
  }

  /** The catalog requests of some parts. */
  function PartRequests(cfg: Settings, parts: seq<Part>): (r: seq<Request>)
    ensures |r| == |parts|
  {
    seq(|parts|, i requires 0 <= i < |parts| => CatalogRequest(cfg, parts[i].path))
  }

  lemma PartRequestsAppend(cfg: Settings, a: seq<Part>, b: seq<Part>)
    ensures PartRequests(cfg, a + b) == PartRequests(cfg, a) + PartRequests(cfg, b)
  {
  }

  /** Outside mode "all", the language-filtered catalogs write exactly the
      entries that match the target language, in catalog order; an entry for
      which the match throws makes the whole section throw. */
  lemma FilteredPartSpec(cfg: Settings, part: Part, list: Value)
    requires part.filtered && FilterMode(cfg.filterMode) != "all" && list.Arr?
    ensures var target := WantedResourceLang(cfg.resourceLang, cfg.language);
            PartItems(cfg, part, list) == FilterMatching(list.items, target)
            && (PartItems(cfg, part, list).None? <==>
                  exists i :: 0 <= i < |list.items| && ResourceMatchesLang(list.items[i], target).None?)
  {
    FilterMatchingThrows(list.items, WantedResourceLang(cfg.resourceLang, cfg.language));
  }

  // ---------------------------------------------------------------------------
  // Chapters and chapter infos

  /** `/chapters/<id>` with the language. */
  function InfoRequest(cfg: Settings, ch: Value): Request {
    CatalogRequest(cfg, "/chapters/" + IdText(ch))
  }

  /** `inf.data?.chapter || {chapter_id: ch.id}`. */
  function InfoRecord(body: Value, ch: Value): (r: Value)
    ensures Truthy(OptGet(body, "chapter")) ==> r == OptGet(body, "chapter")
    ensures !Truthy(OptGet(body, "chapter")) ==> r.Obj? && r.keys == ["chapter_id"] && Get(r, "chapter_id") == Get(ch, "id")
  {
    Or(OptGet(body, "chapter"), Obj(["chapter_id"], map["chapter_id" := Get(ch, "id")]))
  }

  /** The info loop: one request and one record per chapter; a null or
      undefined chapter throws at `ch.id`. */
  function InfosFrom(env: Env, chs: seq<Value>, w: World): Step
    decreases |chs|
  {
    if chs == [] then Step(w, Completed)
    else if Nullish(chs[0]) then Step(w, Threw)
    else if w.budget == 0 then Step(w, Exhausted)
    else
      var req := InfoRequest(env.cfg, chs[0]);
      var w1 := Sent(w, req);
      match env.api(req)
      case Failed => Step(w1, Threw)
      case Data(body) =>
        InfosFrom(env, chs[1..], w1.(files := Written(w1.files, [Line("chapter_infos.ndjson", InfoRecord(body, chs[0]))])))
  }

  /** The chapters section: the list, written whole, then the info loop. */
  function ChaptersRun(env: Env, w: World): Step {
    if w.budget == 0 then Step(w, Exhausted)
    else
      var req := CatalogRequest(env.cfg, "/chapters");
      var w1 := Sent(w, req);
      match env.api(req)
      case Failed => Step(w1, Threw)
      case Data(body) =>
        match ForEachItems(Or(OptGet(body, "chapters"), Arr([])))
        case None => Step(w1, Threw)
        case Some(chs) => InfosFrom(env, chs, w1.(files := Written(w1.files, LinesTo("chapters.ndjson", chs))))
  }

  /** The info loop, as the source writes it. */
  method FetchInfos(ex: Exporter, chs: seq<Value>) returns (outcome: Outcome)
    requires ex.Valid()
    modifies ex, ex.sink
    ensures Step(ex.State(), outcome) == InfosFrom(ex.env, chs, old(ex.State()))
  {
    ghost var w0 := ex.State();
    var i := 0;
    assert chs[0..] == chs;
    while i < |chs|
      invariant 0 <= i <= |chs| && ex.Valid()
      invariant InfosFrom(ex.env, chs[i..], ex.State()) == InfosFrom(ex.env, chs, w0)
    {
      var ch := chs[i];
      ghost var w := ex.State();
      assert chs[i..][0] == ch && chs[i..][1..] == chs[i + 1..];
      if Nullish(ch) {
        return Threw;
      }
      var reply := ex.Get(InfoRequest(ex.env.cfg, ch));
      if reply.None? {
        return Exhausted;
      }
      if reply.value.Failed? {
        return Threw;
      }
      ex.Write([Line("chapter_infos.ndjson", InfoRecord(reply.value.body, ch))]);
      assert ex.State() == InfoVisited(ex.env, chs[i..], w);
      i := i + 1;
    }
    outcome := Completed;
  }

  /** The chapters section, as the source writes it. */
  method ChaptersSection(ex: Exporter) returns (outcome: Outcome)
    requires ex.Valid()
    modifies ex, ex.sink
    ensures Step(ex.State(), outcome) == ChaptersRun(ex.env, old(ex.State()))
  {
    var reply := ex.Get(CatalogRequest(ex.env.cfg, "/chapters"));
    if reply.None? {
      return Exhausted;
    }
    if reply.value.Failed? {
      return Threw;
    }
    var chs := ForEachItems(Or(OptGet(reply.value.body, "chapters"), Arr([])));
    if chs.None? {
      return Threw;
    }
    ex.Write(LinesTo("chapters.ndjson", chs.value));
    outcome := FetchInfos(ex, chs.value);
  }

  /** The info requests of some chapters, in order. */
  function InfoRequests(cfg: Settings, chs: seq<Value>): (r: seq<Request>)
    ensures |r| == |chs|
  {
    seq(|chs|, i requires 0 <= i < |chs| => InfoRequest(cfg, chs[i]))
  }

  /** The body of a reply; a rejection has none. */
  function ReplyBody(reply: Reply): Value {
    match reply
    case Data(body) => body
    case Failed => Undefined
  }

  /** The info records of some chapters, in order. */
  function InfoLines(env: Env, chs: seq<Value>): (r: seq<Line>)
    ensures |r| == |chs|
  {
    seq(|chs|, i requires 0 <= i < |chs| =>
      Line("chapter_infos.ndjson", InfoRecord(ReplyBody(env.api(InfoRequest(env.cfg, chs[i]))), chs[i])))
  }

  /** An info loop that completes sent one info request per chapter, in
      chapter order, and wrote one info record per chapter, in the same
      order; it never touches the checkpoint file. */
  lemma {:induction false} InfosCompleted(env: Env, chs: seq<Value>, w: World)
    requires InfosFrom(env, chs, w).outcome == Completed
    ensures var r := InfosFrom(env, chs, w);
            r.world.sent == w.sent + InfoRequests(env.cfg, chs)
            && r.world.files == Written(w.files, InfoLines(env, chs))
            && r.world.stored == w.stored
            && r.world.budget + |chs| == w.budget
    decreases |chs|
  {
    if chs != [] {
      var w2 := InfoVisited(env, chs, w);
      InfosCompleted(env, chs[1..], w2);
      InfosDoneCons(env, chs, w, w2, InfosFrom(env, chs, w).world);
    }
  }

  lemma InfoSeqsCons(env: Env, chs: seq<Value>)
    requires chs != []
    ensures InfoRequests(env.cfg, chs) == [InfoRequest(env.cfg, chs[0])] + InfoRequests(env.cfg, chs[1..])
    ensures InfoLines(env, chs) == InfoLines(env, chs[..1]) + InfoLines(env, chs[1..])
    ensures InfoLines(env, chs[..1])
            == [Line("chapter_infos.ndjson", InfoRecord(ReplyBody(env.api(InfoRequest(env.cfg, chs[0]))), chs[0]))]
  {
  }

  /** The bookkeeping of one more chapter in front of a completed info loop. */
  lemma InfosDoneCons(env: Env, chs: seq<Value>, w: World, w2: World, w3: World)
    requires chs != []
    requires w2.sent == w.sent + [InfoRequest(env.cfg, chs[0])] && w2.budget + 1 == w.budget && w2.stored == w.stored
    requires w2.files == Written(w.files, [Line("chapter_infos.ndjson", InfoRecord(ReplyBody(env.api(InfoRequest(env.cfg, chs[0]))), chs[0]))])
    requires w3.sent == w2.sent + InfoRequests(env.cfg, chs[1..])
             && w3.files == Written(w2.files, InfoLines(env, chs[1..]))
             && w3.stored == w2.stored
             && w3.budget + |chs[1..]| == w2.budget
    ensures w3.sent == w.sent + InfoRequests(env.cfg, chs)
            && w3.files == Written(w.files, InfoLines(env, chs))
            && w3.stored == w.stored
            && w3.budget + |chs| == w.budget
  {
    var req := InfoRequest(env.cfg, chs[0]);
    var line := Line("chapter_infos.ndjson", InfoRecord(ReplyBody(env.api(req)), chs[0]));
    InfoSeqsCons(env, chs);
    ConcatAssoc(w.sent, [req], InfoRequests(env.cfg, chs[1..]));
    WrittenAppend(w.files, [line], InfoLines(env, chs[1..]));
  }

  /** The world after the first chapter's info, when the loop goes on. */
  function InfoVisited(env: Env, chs: seq<Value>, w: World): (w2: World)
    requires chs != [] && !Nullish(chs[0]) && w.budget > 0
    ensures var req := InfoRequest(env.cfg, chs[0]);
            env.api(req).Data? ==> InfosFrom(env, chs, w) == InfosFrom(env, chs[1..], w2)
    ensures w2.sent == w.sent + [InfoRequest(env.cfg, chs[0])] && w2.budget + 1 == w.budget && w2.stored == w.stored
    ensures w2.files == Written(w.files, [Line("chapter_infos.ndjson", InfoRecord(ReplyBody(env.api(InfoRequest(env.cfg, chs[0]))), chs[0]))])
  {
    var req := InfoRequest(env.cfg, chs[0]);
    var w1 := Sent(w, req);
    w1.(files := Written(w1.files, [Line("chapter_infos.ndjson", InfoRecord(ReplyBody(env.api(req)), chs[0]))]))
  }

  /** An info loop completes only when no chapter is null or undefined and
      no info request is rejected. */
  lemma {:induction false} InfosCompletedNoFailure(env: Env, chs: seq<Value>, w: World)
    requires InfosFrom(env, chs, w).outcome == Completed
    ensures forall i :: 0 <= i < |chs| ==> !Nullish(chs[i]) && env.api(InfoRequest(env.cfg, chs[i])).Data?
    decreases |chs|
  {
    if chs != [] {
      InfosCompletedNoFailure(env, chs[1..], InfoVisited(env, chs, w));
      forall i | 1 <= i < |chs|
        ensures chs[i] == chs[1..][i - 1]
      {
      }
    }
  }

  // ---------------------------------------------------------------------------
  // Juz list

  /** `/juzs`, asked without query parameters. */
  function JuzRequest(): Request {
    Request("/juzs", Undefined)
  }

  /** `r.data?.juzs || r.data || []`. */
  function JuzList(body: Value): (r: Value)
    ensures Truthy(OptGet(body, "juzs")) ==> r == OptGet(body, "juzs")
    ensures !Truthy(OptGet(body, "juzs")) && Truthy(body) ==> r == body
  {
    Or(OptGet(body, "juzs"), Or(body, Arr([])))
  }

  /** The juz section: one request, the list written whole. */
  function JuzRun(env: Env, w: World): Step {
    if w.budget == 0 then Step(w, Exhausted)
    else
      var w1 := Sent(w, JuzRequest());
      match env.api(JuzRequest())
      case Failed => Step(w1, Threw)
      case Data(body) =>
        match ForEachItems(JuzList(body))
        case None => Step(w1, Threw)
        case Some(js) => Step(w1.(files := Written(w1.files, LinesTo("juzs.ndjson", js))), Completed)
  }

  /** The juz section, as the source writes it. */
  method JuzSection(ex: Exporter) returns (outcome: Outcome)
    requires ex.Valid()
    modifies ex, ex.sink
    ensures Step(ex.State(), outcome) == JuzRun(ex.env, old(ex.State()))
  {
    var reply := ex.Get(JuzRequest());
    if reply.None? {
      return Exhausted;
    }
    if reply.value.Failed? {
      return Threw;
    }
    var js := ForEachItems(JuzList(reply.value.body));
    if js.None? {
      return Threw;
    }
    ex.Write(LinesTo("juzs.ndjson", js.value));
    outcome := Completed;
  }

  /** A reply that is itself an array of juzs (no `juzs` member) is written
      entry by entry to juzs.ndjson, and nothing else is written. */
  lemma JuzArrayReply(env: Env, w: World, js: seq<Value>)
    requires w.budget > 0 && env.api(JuzRequest()) == Data(Arr(js))
    ensures var r := JuzRun(env, w);
            r.outcome == Completed && r.world.stored == w.stored
            && r.world.files == Written(w.files, LinesTo("juzs.ndjson", js))
            && RecordsFor(LinesTo("juzs.ndjson", js), "juzs.ndjson") == js
  {
    OnlyFileRecords("juzs.ndjson", js, "juzs.ndjson");
  }

  // ---------------------------------------------------------------------------
  // Chapter sweeps: verses, and the texts of each translation and tafsir

  /** Chapter sweeps one after the other, stopping at the first that does not
      complete. */
  function PagesJobs(env: Env, ps: seq<Pages>, w: World): Step
    decreases |ps|
  {
    if ps == [] then Step(w, Completed)
    else
      var r := ChapterPages(env, ps[0], w);
      if r.outcome != Completed then r else PagesJobs(env, ps[1..], r.world)
  }

  /** The chapter loop, as the source writes it. */
  method SweepChapters(ex: Exporter, ps: seq<Pages>) returns (outcome: Outcome)
    requires ex.Valid()
    modifies ex, ex.ledger, ex.sink
    ensures Step(ex.State(), outcome) == PagesJobs(ex.env, ps, old(ex.State()))
  {
    ghost var w0 := ex.State();
    var i := 0;
    assert ps[0..] == ps;
    while i < |ps|
      invariant 0 <= i <= |ps| && ex.Valid()
      invariant PagesJobs(ex.env, ps[i..], ex.State()) == PagesJobs(ex.env, ps, w0)
    {
      assert ps[i..][1..] == ps[i + 1..];
      outcome := SweepChapter(ex, ps[i]);
      if outcome != Completed {
        return;
      }
      i := i + 1;
    }
    outcome := Completed;
  }

  /** `range(1, 114)`. */
  function AllChapters(): seq<int> {
    Range(1, 114)
  }

  function VerseJobs(chapters: seq<int>): (r: seq<Pages>)
    ensures |r| == |chapters|
  {
    seq(|chapters|, i requires 0 <= i < |chapters| => VersePages(chapters[i]))
  }

  /** The verses section: every chapter, 1 to 114. */
  function VersesRun(env: Env, w: World): Step {
    PagesJobs(env, VerseJobs(AllChapters()), w)
  }

  /** The verses section, as the source writes it. */
  method VersesSection(ex: Exporter) returns (outcome: Outcome)
    requires ex.Valid()
    modifies ex, ex.ledger, ex.sink
    ensures Step(ex.State(), outcome) == VersesRun(ex.env, old(ex.State()))
  {
    var chapters := AllChapters();
    outcome := SweepChapters(ex, VerseJobs(chapters));
  }

  /** A checkpoint flag: the cell holds a truthy value. */
  predicate Flagged(path: string, stored: Stored, section: string, key: string) {
    Truthy(GetCell(Load(path, stored), section, key, Bool(false)))
  }

  /** A page loop writes no cell but its own page cell. */
  lemma {:induction false} PagesFromFrame(env: Env, p: Pages, w: World, page: Option<int>, section: string, key: string, def: Value)
    requires section != PageSection(p) || key != PageKey(p)
    ensures GetCell(Load(env.path, PagesFrom(env, p, w, page).world.stored), section, key, def)
            == GetCell(Load(env.path, w.stored), section, key, def)
    decreases w.budget
  {
    if w.budget > 0 {
      match PageTurn(env, p, w, page)
      case Stopped(step) =>
        TurnFrame(env, p, w, page, section, key, def);
      case Continue(w3) =>
        TurnFrame(env, p, w, page, section, key, def);
        PagesFromFrame(env, p, w3, Next(page), section, key, def);
    }
  }

  /** A turn writes no cell but the page cell. */
  lemma TurnFrame(env: Env, p: Pages, w: World, page: Option<int>, section: string, key: string, def: Value)
    requires w.budget > 0 && (section != PageSection(p) || key != PageKey(p))
    ensures var t := PageTurn(env, p, w, page);
            var after := if t.Stopped? then t.step.world else t.world;
            GetCell(Load(env.path, after.stored), section, key, def) == GetCell(Load(env.path, w.stored), section, key, def)
  {
    if env.path != "" {
      SetFrame(Load(env.path, w.stored), PageSection(p), PageKey(p), PageValue(page), section, key, def);
    }
  }

  /** A chapter sweep leaves every flag that was set still set, unless it is
      the chapter's own page cell. */
  lemma ChapterKeepsFlag(env: Env, p: Pages, w: World, section: string, key: string)
    requires section != PageSection(p) || key != PageKey(p)
    requires Flagged(env.path, w.stored, section, key)
    ensures Flagged(env.path, ChapterPages(env, p, w).world.stored, section, key)
  {
    var r := PagesFrom(env, p, w, StartPage(env.path, w.stored, p));
    PagesFromFrame(env, p, w, StartPage(env.path, w.stored, p), section, key, Bool(false));
    if r.outcome == Completed && env.path != "" {
      if section == PageSection(p) && key == ChapterDoneKey(p) {
        StoreThenLoad(env.path, r.world.stored, section, key, Bool(true), Bool(false));
      } else {
        SetFrame(Load(env.path, r.world.stored), PageSection(p), ChapterDoneKey(p), Bool(true), section, key, Bool(false));
      }
    }
  }

  /** Chapter sweeps leave every flag that was set still set, page cells of
      theirs excepted. */
  lemma {:induction false} JobsKeepFlag(env: Env, ps: seq<Pages>, w: World, section: string, key: string)
    requires forall q :: q in ps ==> section != PageSection(q) || key != PageKey(q)
    requires Flagged(env.path, w.stored, section, key)
    ensures Flagged(env.path, PagesJobs(env, ps, w).world.stored, section, key)
    decreases |ps|
  {
    if ps != [] {
      assert ps[0] in ps;
      ChapterKeepsFlag(env, ps[0], w, section, key);
      var r := ChapterPages(env, ps[0], w);
      if r.outcome == Completed {
        forall q | q in ps[1..]
          ensures section != PageSection(q) || key != PageKey(q)
        {
          assert q in ps;
        }
        JobsKeepFlag(env, ps[1..], r.world, section, key);
      }
    }
  }

  /** With checkpointing on, chapter sweeps that all complete leave every
      chapter's `ch_<s>_done` flag set. */
  lemma {:induction false} JobsMarkChapters(env: Env, ps: seq<Pages>, w: World)
    requires env.path != "" && PagesJobs(env, ps, w).outcome == Completed
    ensures forall p :: p in ps ==> Flagged(env.path, PagesJobs(env, ps, w).world.stored, PageSection(p), ChapterDoneKey(p))
    decreases |ps|
  {
    if ps != [] {
      var p := ps[0];
      var r := ChapterPages(env, p, w);
      var r0 := PagesFrom(env, p, w, StartPage(env.path, w.stored, p));
      StoreThenLoad(env.path, r0.world.stored, PageSection(p), ChapterDoneKey(p), Bool(true), Bool(false));
      forall q | q in ps[1..]
        ensures PageSection(p) != PageSection(q) || ChapterDoneKey(p) != PageKey(q)
      {
        ChapterKeysDiffer(q, p);
      }
      JobsKeepFlag(env, ps[1..], r.world, PageSection(p), ChapterDoneKey(p));
      JobsMarkChapters(env, ps[1..], r.world);
    }
  }

  /** With checkpointing on, a verses sweep that completes leaves each of its
      chapters flagged done. */
  lemma VersesMarkAll(env: Env, chapters: seq<int>, w: World, s: int)
    requires env.path != "" && PagesJobs(env, VerseJobs(chapters), w).outcome == Completed && s in chapters
    ensures Flagged(env.path, PagesJobs(env, VerseJobs(chapters), w).world.stored, "verses_by_chapter", "ch_" + IntToString(s) + "_done")
  {
    JobsMarkChapters(env, VerseJobs(chapters), w);
    var i :| 0 <= i < |chapters| && chapters[i] == s;
    assert VerseJobs(chapters)[i] == VersePages(s);
    assert VersePages(s) in VerseJobs(chapters);
  }

  /** The verses section sweeps the chapters 1 to 114. */
  lemma AllChaptersSpec(s: int)
    ensures s in AllChapters() <==> 1 <= s <= 114
    ensures |AllChapters()| == 114
  {
    RangeSpec(1, 114);
    if 1 <= s <= 114 {
      assert AllChapters()[s - 1] == s;
    }
  }

  /** The chapter sweeps of one resource. */
  function TextJobs(f: Family, id: Value, chapters: seq<int>): (r: seq<Pages>)
    ensures |r| == |chapters|
  {
    seq(|chapters|, i requires 0 <= i < |chapters| => ResourcePages(f, id, chapters[i]))
  }

  /** The flag `res_<id>_done` of the family's section. */
  function ResourceDoneKey(res: Value): string {
    "res_" + IdText(res) + "_done"
  }

  /** The resource loop: each resource's chapters, then its done flag; a null
      or undefined resource throws at `res.id`. */
  function TextsFrom(env: Env, f: Family, chapters: seq<int>, resources: seq<Value>, w: World): Step
    decreases |resources|
  {
    if resources == [] then Step(w, Completed)
    else
      var r := ResourceRun(env, f, chapters, resources[0], w);
      if r.outcome != Completed then r else TextsFrom(env, f, chapters, resources[1..], r.world)
  }

  /** One resource: its chapters, then its done flag; a null or undefined
      resource throws. */
  function ResourceRun(env: Env, f: Family, chapters: seq<int>, res: Value, w: World): Step {
    if Nullish(res) then Step(w, Threw)
    else
      var r := PagesJobs(env, TextJobs(f, Get(res, "id"), chapters), w);
      if r.outcome != Completed then r
      else Step(r.world.(stored := Store(env.path, r.world.stored, FamilyName(f), ResourceDoneKey(res), Bool(true))), Completed)
  }

  /** A translations or tafsirs section over the given chapters: the
      catalog, its selection (with the fallback language), then the resource
      loop. */
  function TextsAfter(env: Env, f: Family, chapters: seq<int>, w: World): Step {
    if w.budget == 0 then Step(w, Exhausted)
    else
      var req := CatalogRequest(env.cfg, "/resources/" + FamilyName(f));
      var w1 := Sent(w, req);
      match env.api(req)
      case Failed => Step(w1, Threw)
      case Data(body) =>
        match Selected(env.cfg, OptGet(body, FamilyName(f)))
        case None => Step(w1, Threw)
        case Some(resources) => TextsFrom(env, f, chapters, resources, w1)
  }

  /** The translations or tafsirs section: every chapter, 1 to 114. */
  function TextsRun(env: Env, f: Family, w: World): Step {
    TextsAfter(env, f, AllChapters(), w)
  }

  /** The resource loop, as the source writes it. */
  method SweepResources(ex: Exporter, f: Family, chapters: seq<int>, resources: seq<Value>) returns (outcome: Outcome)
    requires ex.Valid()
    modifies ex, ex.ledger, ex.sink
    ensures Step(ex.State(), outcome) == TextsFrom(ex.env, f, chapters, resources, old(ex.State()))
  {
    ghost var w0 := ex.State();
    var i := 0;
    assert resources[0..] == resources;
    while i < |resources|
      invariant 0 <= i <= |resources| && ex.Valid()
      invariant TextsFrom(ex.env, f, chapters, resources[i..], ex.State()) == TextsFrom(ex.env, f, chapters, resources, w0)
    {
      var res := resources[i];
      assert resources[i..][0] == res && resources[i..][1..] == resources[i + 1..];
      outcome := SweepResource(ex, f, chapters, res);
      if outcome != Completed {
        return;
      }
      i := i + 1;
    }
    outcome := Completed;
  }

  /** One resource of the loop, as the source writes it. */
  method SweepResource(ex: Exporter, f: Family, chapters: seq<int>, res: Value) returns (outcome: Outcome)
    requires ex.Valid()
    modifies ex, ex.ledger, ex.sink
    ensures Step(ex.State(), outcome) == ResourceRun(ex.env, f, chapters, res, old(ex.State()))
  {
    if Nullish(res) {
      return Threw;
    }
    outcome := SweepChapters(ex, TextJobs(f, Get(res, "id"), chapters));
    if outcome != Completed {
      return;
    }
    ex.ledger.SetCP(FamilyName(f), ResourceDoneKey(res), Bool(true));
  }

  /** A translations or tafsirs section over the given chapters, as the
      source writes it. */
  method TextsSweep(ex: Exporter, f: Family, chapters: seq<int>) returns (outcome: Outcome)
    requires ex.Valid()
    modifies ex, ex.ledger, ex.sink
    ensures Step(ex.State(), outcome) == TextsAfter(ex.env, f, chapters, old(ex.State()))
  {
    var reply := ex.Get(CatalogRequest(ex.env.cfg, "/resources/" + FamilyName(f)));
    if reply.None? {
      return Exhausted;
    }
    if reply.value.Failed? {
      return Threw;
    }
    var resources := Selected(ex.env.cfg, OptGet(reply.value.body, FamilyName(f)));
    if resources.None? {
      return Threw;
    }
    outcome := SweepResources(ex, f, chapters, resources.value);
  }

  /** The translations or tafsirs section. */
  method TextsSection(ex: Exporter, f: Family) returns (outcome: Outcome)
    requires ex.Valid()
    modifies ex, ex.ledger, ex.sink
    ensures Step(ex.State(), outcome) == TextsRun(ex.env, f, old(ex.State()))
  {
    var chapters := AllChapters();
    outcome := TextsSweep(ex, f, chapters);
  }

  /** A family section is not a page section. */
  lemma FamilyIsNoPageSection(f: Family, id: Value, s: int)
    ensures FamilyName(f) != PageSection(ResourcePages(f, id, s))
  {
    assert |FamilyName(f)| < |PageSection(ResourcePages(f, id, s))|;
  }

  /** With checkpointing on, a resource loop that completes met no null or
      undefined resource and leaves every resource flagged done. */
  lemma {:induction false} TextsMarkResources(env: Env, f: Family, chapters: seq<int>, resources: seq<Value>, w: World)
    requires env.path != "" && TextsFrom(env, f, chapters, resources, w).outcome == Completed
    ensures forall res :: res in resources ==>
              !Nullish(res) && Flagged(env.path, TextsFrom(env, f, chapters, resources, w).world.stored, FamilyName(f), ResourceDoneKey(res))
    ensures forall key :: Flagged(env.path, w.stored, FamilyName(f), key) ==>
              Flagged(env.path, TextsFrom(env, f, chapters, resources, w).world.stored, FamilyName(f), key)
    decreases |resources|
  {
    if resources != [] {
      var res := resources[0];
      var jobs := TextJobs(f, Get(res, "id"), chapters);
      var r := PagesJobs(env, jobs, w);
      var w' := r.world.(stored := Store(env.path, r.world.stored, FamilyName(f), ResourceDoneKey(res), Bool(true)));
      forall key | Flagged(env.path, w.stored, FamilyName(f), key)
        ensures Flagged(env.path, w'.stored, FamilyName(f), key)
      {
        forall q | q in jobs
          ensures FamilyName(f) != PageSection(q) || key != PageKey(q)
        {
          var i :| 0 <= i < |jobs| && jobs[i] == q;
          FamilyIsNoPageSection(f, Get(res, "id"), chapters[i]);
        }
        JobsKeepFlag(env, jobs, w, FamilyName(f), key);
        if key == ResourceDoneKey(res) {
          StoreThenLoad(env.path, r.world.stored, FamilyName(f), key, Bool(true), Bool(false));
        } else {
          SetFrame(Load(env.path, r.world.stored), FamilyName(f), ResourceDoneKey(res), Bool(true), FamilyName(f), key, Bool(false));
        }
      }
      StoreThenLoad(env.path, r.world.stored, FamilyName(f), ResourceDoneKey(res), Bool(true), Bool(false));
      TextsMarkResources(env, f, chapters, resources[1..], w');
    }
  }

  /** The `res_<id>_done` flags are written but never read: a resource loop
      over a non-null resource and at least one chapter sends a request even
      when every resource is flagged done. */
  lemma TextsRefetch(env: Env, f: Family, chapters: seq<int>, resources: seq<Value>, w: World)
    requires resources != [] && !Nullish(resources[0]) && chapters != [] && w.budget > 0
    ensures |TextsFrom(env, f, chapters, resources, w).world.sent| > |w.sent|
  {
    var jobs := TextJobs(f, Get(resources[0], "id"), chapters);
    var r := PagesJobs(env, jobs, w);
    JobsSendFirst(env, jobs, w);
    if r.outcome == Completed {
      var w' := r.world.(stored := Store(env.path, r.world.stored, FamilyName(f), ResourceDoneKey(resources[0]), Bool(true)));
      assert TextsFrom(env, f, chapters, resources, w) == TextsFrom(env, f, chapters, resources[1..], w');
      TextsSend(env, f, chapters, resources[1..], w');
    } else {
      assert TextsFrom(env, f, chapters, resources, w) == r;
    }
  }

  /** Chapter sweeps with budget left send at least one request. */
  lemma JobsSendFirst(env: Env, ps: seq<Pages>, w: World)
    requires ps != [] && w.budget > 0
    ensures |PagesJobs(env, ps, w).world.sent| > |w.sent|
  {
    var page := StartPage(env.path, w.stored, ps[0]);
    ConsecutivePages(env, ps[0], w, page);
    TurnSends(env, ps[0], w, page);
    var r0 := PagesFrom(env, ps[0], w, page);
    assert |r0.world.sent| > |w.sent| by {
      match PageTurn(env, ps[0], w, page)
      case Stopped(_) =>
      case Continue(w3) =>
        ConsecutivePages(env, ps[0], w3, Next(page));
    }
    JobsSend(env, ps, w);
  }

  /** Chapter sweeps only add requests. */
  lemma {:induction false} JobsSend(env: Env, ps: seq<Pages>, w: World)
    ensures |w.sent| <= |PagesJobs(env, ps, w).world.sent|
    ensures ps != [] ==> |ChapterPages(env, ps[0], w).world.sent| <= |PagesJobs(env, ps, w).world.sent|
    decreases |ps|
  {
    if ps != [] {
      ConsecutivePages(env, ps[0], w, StartPage(env.path, w.stored, ps[0]));
      JobsSend(env, ps[1..], ChapterPages(env, ps[0], w).world);
    }
  }

  /** A resource loop only adds requests. */
  lemma {:induction false} TextsSend(env: Env, f: Family, chapters: seq<int>, resources: seq<Value>, w: World)
    ensures |w.sent| <= |TextsFrom(env, f, chapters, resources, w).world.sent|
    decreases |resources|
  {
    if resources != [] && !Nullish(resources[0]) {
      var r := PagesJobs(env, TextJobs(f, Get(resources[0], "id"), chapters), w);
      JobsSend(env, TextJobs(f, Get(resources[0], "id"), chapters), w);
      var w' := r.world.(stored := Store(env.path, r.world.stored, FamilyName(f), ResourceDoneKey(resources[0]), Bool(true)));
      TextsSend(env, f, chapters, resources[1..], w');
    }
  }

  // ---------------------------------------------------------------------------
  // The run

  /** The sections of the run, in order. */
  datatype Section = Resources | Chapters | Verses | Juz | Quran | Texts(family: Family) | AudioFiles | AudioSegments

  /** Whether the selection wants a section: `onlyWants(key)`, for the verses
      either of "verses" and "words", and for the segments "audio" or the
      segments setting (the section itself then does nothing unless the
      setting is on). */
  predicate Wanted(cfg: Settings, s: Section) {
    match s
    case Resources => OnlyWants(cfg.only, "resources")
    case Chapters => OnlyWants(cfg.only, "chapters")
    case Verses => OnlyWants(cfg.only, "verses") || OnlyWants(cfg.only, "words")
    case Juz => OnlyWants(cfg.only, "juz")
    case Quran => OnlyWants(cfg.only, "quran")
    case Texts(f) => OnlyWants(cfg.only, FamilyName(f))
    case AudioFiles => OnlyWants(cfg.only, "audio")
    case AudioSegments => OnlyWants(cfg.only, "audio") || SegmentsEnabled(cfg)
  }

  /** What a section does when it runs. */
  function SectionRun(env: Env, codec: SegmentCodec, s: Section, w: World): Step {
    match s
    case Resources => PartsFrom(env, ResourceParts(), w)
    case Chapters => ChaptersRun(env, w)
    case Verses => VersesRun(env, w)
    case Juz => JuzRun(env, w)
    case Quran => QuranRun(env, w)
    case Texts(f) => TextsRun(env, f, w)
    case AudioFiles => AudioRun(env, w)
    case AudioSegments => SegmentsRun(env, codec, w)
  }

  /** The sections in the order the run takes them. */
  function RunOrder(): seq<Section> {
    [Resources, Chapters, Verses, Juz, Quran, Texts(Translations), Texts(Tafsirs), AudioFiles, AudioSegments]
  }

  /** The wanted sections one after the other; the first that throws or runs
      out of budget ends the run. */
  function RunFrom(env: Env, codec: SegmentCodec, ss: seq<Section>, w: World): Step
    decreases |ss|
  {
    if ss == [] then Step(w, Completed)
    else
      var r := if Wanted(env.cfg, ss[0]) then SectionRun(env, codec, ss[0], w) else Step(w, Completed);
      if r.outcome != Completed then r else RunFrom(env, codec, ss[1..], r.world)
  }

  /** One section, as the source writes it. */
  method RunSection(ex: Exporter, codec: SegmentCodec, s: Section) returns (outcome: Outcome)
    requires ex.Valid()
    modifies ex, ex.ledger, ex.sink
    ensures ex.Valid()
    ensures Step(ex.State(), outcome) == SectionRun(ex.env, codec, s, old(ex.State()))
  {
    match s
    case Resources => outcome := ResourcesSection(ex);
    case Chapters => outcome := ChaptersSection(ex);
    case Verses => outcome := VersesSection(ex);
    case Juz => outcome := JuzSection(ex);
    case Quran => outcome := QuranSection(ex);
    case Texts(f) => outcome := TextsSection(ex, f);
    case AudioFiles => outcome := AudioSection(ex);
    case AudioSegments => outcome := SegmentsSection(ex, codec);
  }

  /** The body of `run()`: each section in turn, when wanted. */
  method Run(ex: Exporter, codec: SegmentCodec, ss: seq<Section>) returns (outcome: Outcome)
    requires ex.Valid()
    modifies ex, ex.ledger, ex.sink
    ensures Step(ex.State(), outcome) == RunFrom(ex.env, codec, ss, old(ex.State()))
  {
    ghost var w0 := ex.State();
    var i := 0;
    assert ss[0..] == ss;
    while i < |ss|
      invariant 0 <= i <= |ss| && ex.Valid()
      invariant RunFrom(ex.env, codec, ss[i..], ex.State()) == RunFrom(ex.env, codec, ss, w0)
    {
      assert ss[i..][1..] == ss[i + 1..];
      if Wanted(ex.env.cfg, ss[i]) {
        outcome := RunSection(ex, codec, ss[i]);
        if outcome != Completed {
          return;
        }
      }
      i := i + 1;
    }
    outcome := Completed;
  }

  /** Sections the selection does not want send nothing and change nothing:
      a run that wants none of them is a no-op. */
  lemma {:induction false} UnwantedSkipped(env: Env, codec: SegmentCodec, ss: seq<Section>, w: World)
    requires forall s :: s in ss ==> !Wanted(env.cfg, s)
    ensures RunFrom(env, codec, ss, w) == Step(w, Completed)
    decreases |ss|
  {
    if ss != [] {
      assert ss[0] in ss;
      forall s | s in ss[1..]
        ensures !Wanted(env.cfg, s)
      {
        assert s in ss;
      }
      UnwantedSkipped(env, codec, ss[1..], w);
    }
  }

  /** A run in which the selection wants a single section is that section
      alone. */
  lemma {:induction false} SoleSection(env: Env, codec: SegmentCodec, ss: seq<Section>, i: nat, w: World)
    requires i < |ss| && Wanted(env.cfg, ss[i])
    requires forall j :: 0 <= j < |ss| && j != i ==> !Wanted(env.cfg, ss[j])
    ensures RunFrom(env, codec, ss, w) == SectionRun(env, codec, ss[i], w)
    decreases |ss|
  {
    forall s | s in ss[i + 1..]
      ensures !Wanted(env.cfg, s)
    {
      var j :| 0 <= j < |ss[i + 1..]| && ss[i + 1..][j] == s;
      assert ss[i + 1 + j] == s;
    }
    if i == 0 {
      UnwantedSkipped(env, codec, ss[1..], SectionRun(env, codec, ss[0], w).world);
    } else {
      assert !Wanted(env.cfg, ss[0]);
      SoleSection(env, codec, ss[1..], i - 1, w);
    }
  }

  /** `ONLY=juz` selects the juz list alone. */
  lemma JuzTokens()
    ensures OnlyTokens(Some("juz")) == ["juz"]
  {
    SplitWithoutSeparator("juz", ',');
    TrimNoOp("juz");
    assert TrimAll(["juz"]) == ["juz"];
    assert NonEmpty(["juz"]) == ["juz"] + NonEmpty([]);
  }

  /** The segments section is gated twice; together the gates reduce to the
      segments setting alone. */
  lemma SegmentsGate(env: Env, codec: SegmentCodec, w: World)
    ensures (if Wanted(env.cfg, AudioSegments) then SectionRun(env, codec, AudioSegments, w) else Step(w, Completed))
            == (if SegmentsEnabled(env.cfg) then SegmentsRun(env, codec, w) else Step(w, Completed))
  {
  }
}

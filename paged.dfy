/** The page-paginated resumable sweep of src/run.ts, used for the verses of a
    chapter and for one translation's or tafsir's text of a chapter: start at
    the checkpointed page (1 by default), append the page's records, then
    checkpoint the page, and go on until a page comes back empty or the page
    reaches `total_pages`. */
module Paged {
  import opened Wrappers
  import opened Text
  import opened Json
  import opened Checkpoint
  import opened Normalizers
  import opened Sweep

  datatype Family = Translations | Tafsirs

  /** The family's name, as it appears in paths, files and checkpoint sections. */
  function FamilyName(f: Family): string {
    match f
    case Translations => "translations"
    case Tafsirs => "tafsirs"
  }

  /** One paged sweep: the verses of a chapter, or the text of one
      translation or tafsir resource (by its `id`) for a chapter. */
  datatype Pages = VersePages(chapter: int) | ResourcePages(family: Family, id: Value, chapter: int)

  /** The checkpoint section: `verses_by_chapter`, or `translations_res_<id>`
      and `tafsirs_res_<id>`. */
  function PageSection(p: Pages): string {
    match p
    case VersePages(_) => "verses_by_chapter"
    case ResourcePages(f, id, _) => FamilyName(f) + "_res_" + JsString(id)
  }

  /** `ch_<s>_page`: the last page whose records were all appended. */
  function PageKey(p: Pages): string {
    "ch_" + IntToString(p.chapter) + "_page"
  }

  /** `ch_<s>_done`, written once the chapter's pages are through. */
  function ChapterDoneKey(p: Pages): string {
    "ch_" + IntToString(p.chapter) + "_done"
  }

  /** The two keys of a chapter differ, and so do the keys of two chapters. */
  lemma ChapterKeysDiffer(p: Pages, q: Pages)
    ensures PageKey(p) != ChapterDoneKey(q)
    ensures p.chapter != q.chapter ==> PageKey(p) != PageKey(q) && ChapterDoneKey(p) != ChapterDoneKey(q)
  {
    NoUnderscore(p.chapter);
    NoUnderscore(q.chapter);
    KeySplit(PageKey(p), IntToString(p.chapter), "_page");
    KeySplit(ChapterDoneKey(q), IntToString(q.chapter), "_done");
    assert "_page"[1] != "_done"[1];
    if p.chapter != q.chapter {
      NumberFromIntToString(p.chapter);
      NumberFromIntToString(q.chapter);
      KeySplit(PageKey(q), IntToString(q.chapter), "_page");
      KeySplit(ChapterDoneKey(p), IntToString(p.chapter), "_done");
    }
  }

  /** A numeral holds digits and perhaps a leading minus sign, never '_'. */
  lemma NoUnderscore(n: int)
    ensures '_' !in IntToString(n)
  {
    var s := IntToString(n);
    if n < 0 {
      var d := NatToString(-n);
      assert s == "-" + d;
      forall i | 0 <= i < |s|
        ensures s[i] != '_'
      {
        if i > 0 {
          assert s[i] == d[i - 1];
        }
      }
    }
  }

  /** The numeral of a key "ch_<n>_...": the text between "ch_" and the next '_'. */
  function NumberPart(key: string): string {
    if |key| < 3 then "" else TakeUntilUnderscore(key[3..])
  }

  /** What follows the numeral of a key. */
  function KeySuffix(key: string): string {
    if |key| < 3 + |NumberPart(key)| then "" else key[3 + |NumberPart(key)|..]
  }

  function TakeUntilUnderscore(s: string): (r: string)
    ensures |r| <= |s|
  {
    if s == [] || s[0] == '_' then "" else [s[0]] + TakeUntilUnderscore(s[1..])
  }

  /** A key "ch_<n><suffix>" gives back its numeral and its suffix. */
  lemma KeySplit(key: string, n: string, suffix: string)
    requires key == "ch_" + n + suffix && '_' !in n
    requires |suffix| >= 1 && suffix[0] == '_'
    ensures NumberPart(key) == n && KeySuffix(key) == suffix
  {
    NumberPartOf(n, suffix);
    assert key[3..] == n + suffix;
  }

  lemma {:induction false} NumberPartOf(n: string, suffix: string)
    requires '_' !in n && |suffix| >= 1 && suffix[0] == '_'
    ensures TakeUntilUnderscore(n + suffix) == n
    decreases |n|
  {
    if n == [] {
      assert n + suffix == suffix;
    } else {
      assert (n + suffix)[1..] == n[1..] + suffix;
      assert n[0] in n;
      NumberPartOf(n[1..], suffix);
      assert [n[0]] + n[1..] == n;
    }
  }

  const VerseFields := "verse_key,words,chapter_id,verse_number,juz_number,hizb_number,rub_el_hizb_number,v1_page,text_uthmani,text_imlaei_simple"
  const WordFields := "id,position,line_number,v1_page,v2_page,code_v1,code_v2,text_uthmani,text_imlaei_simple,char_type_name"

  /** The request for one page: `/verses/by_chapter/{chapter_number}` with
      words and the verse and word fields, or
      `/{translations|tafsirs}/{resource_id}/surah/{chapter_number}`. */
  function PageRequest(cfg: Settings, p: Pages, page: Option<int>): Request {
    match p
    case VersePages(s) =>
      Request("/verses/by_chapter/" + IntToString(s),
        Obj(["language", "page", "per_page", "words", "fields", "word_fields"], map[
          "language" := Str(Language(cfg)),
          "page" := ParamNumber(page),
          "per_page" := ParamNumber(PerPage(cfg)),
          "words" := Bool(true),
          "fields" := Str(VerseFields),
          "word_fields" := Str(WordFields)]))
    case ResourcePages(f, id, s) =>
      Request("/" + FamilyName(f) + "/" + JsString(id) + "/surah/" + IntToString(s),
        Obj(["language", "page", "per_page"], map[
          "language" := Str(Language(cfg)),
          "page" := ParamNumber(page),
          "per_page" := ParamNumber(PerPage(cfg))]))
  }

  /** `r.data?.verses || []`, and `r.data?.translations || r.data?.result || []`
      (`tafsirs` for tafsirs). */
  function PageItems(p: Pages, body: Value): Value {
    match p
    case VersePages(_) => Or(OptGet(body, "verses"), Arr([]))
    case ResourcePages(f, _, _) => Or(Or(OptGet(body, FamilyName(f)), OptGet(body, "result")), Arr([]))
  }

  /** `r.data?.pagination?.total_pages`. */
  function TotalPages(body: Value): Value {
    OptGet(OptGet(body, "pagination"), "total_pages")
  }

  /** `page >= total` between a number and any value: numeric, and false when
      either side is NaN. */
  predicate AtLeast(page: Option<int>, total: Value) {
    page.Some? && ToNumber(total).Some? && page.value >= ToNumber(total).value
  }

  /** The page as a value; the checkpoint file keeps NaN as null, which is
      what JSON.stringify writes for it. */
  function PageValue(page: Option<int>): Value {
    match page
    case Some(n) => Num(n)
    case None => Null
  }

  /** `page++`; NaN stays NaN. */
  function Next(page: Option<int>): Option<int> {
    match page
    case Some(n) => Some(n + 1)
    case None => None
  }

  /** The page `k` places after `page`. */
  function Plus(page: Option<int>, k: nat): Option<int> {
    match page
    case Some(n) => Some(n + k)
    case None => None
  }

  /** The word records of a verse, bound for `words.ndjson`. */
  function WordLines(records: seq<Value>): (r: seq<Line>)
    ensures |r| == |records|
  {
    seq(|records|, i requires 0 <= i < |records| => Line("words.ndjson", records[i]))
  }

  /** The body of the item loop: for a verse, `normVerse(v)` to verses.ndjson
      (it throws first on null or undefined), then each record of
      `normWords(v)` to words.ndjson; for a translation or tafsir item, the
      record `{resource_id: res.id, ...x}`. */
  function ItemLines(p: Pages, x: Value): Emitted {
    match p
    case VersePages(_) =>
      (match NormVerse(x)
       case None => Emitted([], true)
       case Some(v) =>
         var y := NormWords(x);
         Emitted([Line("verses.ndjson", v)] + WordLines(y.records), y.throws))
    case ResourcePages(f, id, _) =>
      Emitted([Line(FamilyName(f) + ".ndjson", SpreadAfter("resource_id", id, x))], false)
  }

  /** The body of the item loop as a function of the item. */
  function ItemEmitter(p: Pages): Value -> Emitted {
    x => ItemLines(p, x)
  }

  /** The item loop over a page's items. */
  function PageLines(p: Pages, xs: seq<Value>): Emitted {
    Walk(ItemEmitter(p), xs)
  }

  /** The page checkpoint is a cell of the file: the start page is
      `Number(getCP(section, "ch_<s>_page", 1))`. */
  function StartPage(path: string, stored: Stored, p: Pages): Option<int> {
    ToNumber(GetCell(Load(path, stored), PageSection(p), PageKey(p), Num(1)))
  }

  /** The raw page cell, undefined when absent. */
  function PageCell(path: string, stored: Stored, p: Pages): Value {
    var sec := Section(Load(path, stored), PageSection(p));
    if PageKey(p) in sec then sec[PageKey(p)] else Undefined
  }

  /** How one turn of the loop ends: the loop stops there, or goes on to the
      next page in the given world. */
  datatype Turn = Stopped(step: Step) | Continue(world: World)

  /** One turn of the `while (true)` loop: request the page, stop on a
      rejection, an empty page or a non-iterable one; write the items, stop
      if one throws; checkpoint the page; stop once `page >= total_pages`
      (`|| page` when the total is missing). */
  function PageTurn(env: Env, p: Pages, w: World, page: Option<int>): (t: Turn)
    requires w.budget > 0
    ensures t.Continue? ==> t.world.budget == w.budget - 1
  {
    var req := PageRequest(env.cfg, p, page);
    var w1 := Sent(w, req);
    match env.api(req)
    case Failed => Stopped(Step(w1, Threw))
    case Data(body) =>
      match BatchOf(PageItems(p, body))
      case Stop => Stopped(Step(w1, Completed))
      case NotIterable => Stopped(Step(w1, Threw))
      case Items(xs) =>
        var e := PageLines(p, xs);
        var w2 := w1.(files := Written(w1.files, e.lines));
        if e.throws then Stopped(Step(w2, Threw))
        else
          var w3 := w2.(stored := Store(env.path, w2.stored, PageSection(p), PageKey(p), PageValue(page)));
          if AtLeast(page, Or(TotalPages(body), PageValue(page))) then Stopped(Step(w3, Completed))
          else Continue(w3)
  }

  /** The `while (true)` loop from `page` on. */
  function PagesFrom(env: Env, p: Pages, w: World, page: Option<int>): Step
    decreases w.budget
  {
    if w.budget == 0 then Step(w, Exhausted)
    else
      match PageTurn(env, p, w, page)
      case Stopped(r) => r
      case Continue(w3) => PagesFrom(env, p, w3, Next(page))
  }

  /** A whole chapter: the loop from the checkpointed page, then the chapter's
      done flag. */
  function ChapterPages(env: Env, p: Pages, w: World): Step {
    var r := PagesFrom(env, p, w, StartPage(env.path, w.stored, p));
    if r.outcome != Completed then r
    else Step(r.world.(stored := Store(env.path, r.world.stored, PageSection(p), ChapterDoneKey(p), Bool(true))), Completed)
  }

  /** A page whose reply holds items that are all written without a throw. */
  predicate PageComplete(env: Env, p: Pages, k: int) {
    match env.api(PageRequest(env.cfg, p, Some(k)))
    case Failed => false
    case Data(body) => BatchOf(PageItems(p, body)).Items? && !PageLines(p, BatchOf(PageItems(p, body)).xs).throws
  }

  // ---------------------------------------------------------------------------
  // The loops

  /** The body of the item loop, for one item. */
  method WriteItem(ex: Exporter, p: Pages, x: Value) returns (throws: bool)
    modifies ex.sink
    ensures ex.sink.files == Written(old(ex.sink.files), ItemEmitter(p)(x).lines)
    ensures throws == ItemEmitter(p)(x).throws
  {
    var e := ItemLines(p, x);
    ex.Write(e.lines);
    throws := e.throws;
  }

  /** The item loop, for one page: `for (const x of items)`. */
  method WritePage(ex: Exporter, p: Pages, xs: seq<Value>) returns (throws: bool)
    modifies ex.sink
    ensures ex.sink.files == Written(old(ex.sink.files), PageLines(p, xs).lines)
    ensures throws == PageLines(p, xs).throws
  {
    ghost var emit := ItemEmitter(p);
    ghost var files0 := ex.sink.files;
    ghost var done: seq<Line> := [];
    var rest := xs;
    assert done + Walk(emit, xs).lines == Walk(emit, xs).lines;
    while rest != []
      invariant ex.sink.files == Written(files0, done)
      invariant Walk(emit, xs).lines == done + Walk(emit, rest).lines
      invariant Walk(emit, xs).throws == Walk(emit, rest).throws
      decreases |rest|
    {
      var t := WriteItem(ex, p, rest[0]);
      ghost var e := emit(rest[0]);
      WrittenAppend(files0, done, e.lines);
      WalkStep(emit, xs, done, rest);
      if t {
        return true;
      }
      done := done + e.lines;
      rest := rest[1..];
    }
    assert done + [] == done;
    return false;
  }

  /** One chapter's sweep, as the loop the source writes. */
  method SweepChapter(ex: Exporter, p: Pages) returns (outcome: Outcome)
    requires ex.Valid()
    modifies ex, ex.ledger, ex.sink
    ensures Step(ex.State(), outcome) == ChapterPages(ex.env, p, old(ex.State()))
  {
    ghost var w0 := ex.State();
    ghost var start := StartPage(ex.env.path, w0.stored, p);
    var page := ToNumber(ex.ledger.GetCP(PageSection(p), PageKey(p), Num(1)));
    while true
      invariant ex.Valid()
      invariant PagesFrom(ex.env, p, ex.State(), page) == PagesFrom(ex.env, p, w0, start)
      decreases ex.budget
    {
      ghost var before := ex.State();
      var req := PageRequest(ex.env.cfg, p, page);
      var reply := ex.Get(req);
      if reply.None? {
        return Exhausted;
      }
      assert ex.State() == Sent(before, req);
      if reply.value.Failed? {
        return Threw;
      }
      var body := reply.value.body;
      var batch := BatchOf(PageItems(p, body));
      if batch.Stop? {
        break;
      }
      if batch.NotIterable? {
        return Threw;
      }
      var throws := WritePage(ex, p, batch.xs);
      if throws {
        return Threw;
      }
      ex.ledger.SetCP(PageSection(p), PageKey(p), PageValue(page));
      if AtLeast(page, Or(TotalPages(body), PageValue(page))) {
        break;
      }
      assert PageTurn(ex.env, p, before, page) == Continue(ex.State());
      page := Next(page);
    }
    ex.ledger.SetCP(PageSection(p), ChapterDoneKey(p), Bool(true));
    outcome := Completed;
  }

  // ---------------------------------------------------------------------------
  // Properties of the sweep

  /** The sweep starts at the checkpointed page; a missing (or null) cell, or
      checkpointing switched off, means page 1. */
  lemma StartPageSpec(path: string, stored: Stored, p: Pages)
    ensures StartPage(path, stored, p) ==
              if Nullish(PageCell(path, stored, p)) then Some(1) else ToNumber(PageCell(path, stored, p))
    ensures path == "" ==> StartPage(path, stored, p) == Some(1)
    ensures PageCell(path, stored, p).Num? ==> StartPage(path, stored, p) == Some(PageCell(path, stored, p).n)
  {
  }

  /** A turn sends the page's request and spends one unit of budget. */
  lemma TurnSends(env: Env, p: Pages, w: World, page: Option<int>)
    requires w.budget > 0
    ensures var t := PageTurn(env, p, w, page);
            var after := if t.Stopped? then t.step.world else t.world;
            after.sent == w.sent + [PageRequest(env.cfg, p, page)] && after.budget == w.budget - 1
            && (t.Stopped? ==> t.step.outcome != Exhausted)
  {
  }

  /** A turn leaves the page cell alone, or sets it to the turn's page, and
      then only after the page's items were all written. */
  lemma TurnCell(env: Env, p: Pages, w: World, page: Option<int>)
    requires w.budget > 0
    ensures var t := PageTurn(env, p, w, page);
            var after := if t.Stopped? then t.step.world else t.world;
            PageCell(env.path, after.stored, p) == PageCell(env.path, w.stored, p)
            || (PageCell(env.path, after.stored, p) == PageValue(page) && (page.Some? ==> PageComplete(env, p, page.value)))
  {
  }

  /** A turn does not read the checkpoint file. */
  lemma TurnIgnoresStored(env: Env, p: Pages, w: World, page: Option<int>, s: Stored)
    requires w.budget > 0
    ensures Unread(env, p, w, page, s)
  {
    var req := PageRequest(env.cfg, p, page);
    match env.api(req)
    case Failed => FailedUnread(env, p, w, page, s);
    case Data(body) =>
      match BatchOf(PageItems(p, body))
      case Stop => EmptyUnread(env, p, w, page, s, body);
      case NotIterable => EmptyUnread(env, p, w, page, s, body);
      case Items(xs) =>
      if PageLines(p, xs).throws {
        ThrowingUnread(env, p, w, page, s, body, xs);
      } else {
        WrittenUnread(env, p, w, page, s, body, xs);
      }
  }

  /** The turn from `w` and the turn from `w` with the stored file `s` differ
      only in the page cell they write. */
  predicate Unread(env: Env, p: Pages, w: World, page: Option<int>, s: Stored)
    requires w.budget > 0
  {
    var a := PageTurn(env, p, w, page);
    var b := PageTurn(env, p, w.(stored := s), page);
    a.Stopped? == b.Stopped?
    && (a.Stopped? ==> a.step.outcome == b.step.outcome && a.step.world.sent == b.step.world.sent
                       && a.step.world.files == b.step.world.files && a.step.world.budget == b.step.world.budget)
    && (a.Continue? ==> b.world == a.world.(stored := Store(env.path, s, PageSection(p), PageKey(p), PageValue(page))))
  }

  lemma FailedUnread(env: Env, p: Pages, w: World, page: Option<int>, s: Stored)
    requires w.budget > 0 && env.api(PageRequest(env.cfg, p, page)).Failed?
    ensures Unread(env, p, w, page, s)
  {
  }

  lemma EmptyUnread(env: Env, p: Pages, w: World, page: Option<int>, s: Stored, body: Value)
    requires w.budget > 0 && env.api(PageRequest(env.cfg, p, page)) == Data(body)
    requires !BatchOf(PageItems(p, body)).Items?
    ensures Unread(env, p, w, page, s)
  {
  }

  lemma ThrowingUnread(env: Env, p: Pages, w: World, page: Option<int>, s: Stored, body: Value, xs: seq<Value>)
    requires w.budget > 0 && env.api(PageRequest(env.cfg, p, page)) == Data(body)
    requires BatchOf(PageItems(p, body)) == Items(xs) && PageLines(p, xs).throws
    ensures Unread(env, p, w, page, s)
  {
  }

  lemma WrittenUnread(env: Env, p: Pages, w: World, page: Option<int>, s: Stored, body: Value, xs: seq<Value>)
    requires w.budget > 0 && env.api(PageRequest(env.cfg, p, page)) == Data(body)
    requires BatchOf(PageItems(p, body)) == Items(xs) && !PageLines(p, xs).throws
    ensures Unread(env, p, w, page, s)
  {
  }

  /** The pages requested are consecutive: the requests the loop adds are for
      `page`, `page + 1`, ... in that order, one budget unit each (all for NaN
      when the start page is NaN). */
  lemma ConsecutivePages(env: Env, p: Pages, w: World, page: Option<int>)
    ensures var r := PagesFrom(env, p, w, page);
            |w.sent| <= |r.world.sent|
            && r.world.sent == w.sent + PageRequests(env.cfg, p, page, |r.world.sent| - |w.sent|)
            && r.world.budget + (|r.world.sent| - |w.sent|) == w.budget
  {
    PagesFromIsLoop(env, p, w, page);
    PageTurnsSend(env, p);
    LoopSendsInOrder(PageTurns(env, p), PageRequestFor(env.cfg, p), w, page);
  }

  /** The requests for `n` consecutive pages from `page`. */
  function PageRequests(cfg: Settings, p: Pages, page: Option<int>, n: nat): (r: seq<Request>)
    ensures |r| == n
  {
    Requested(PageRequestFor(cfg, p), page, n)
  }

  function PageRequestFor(cfg: Settings, p: Pages): Option<int> -> Request {
    k => PageRequest(cfg, p, k)
  }

  // ---------------------------------------------------------------------------
  // The page loop over any turn
  //
  // The properties of the loop that hold turn by turn are proved once, for a
  // loop over an arbitrary turn function, and then carried over to the page
  // loop through `PagesFromIsLoop`; the generic proofs never see the body of
  // a page turn.

  /** A turn function defined wherever budget is left, and which spends some
      whenever the loop goes on. */
  ghost predicate SpendsBudget(turn: (World, Option<int>) --> Turn) {
    forall w: World, k: Option<int> :: w.budget > 0 ==>
      turn.requires(w, k) && (turn(w, k).Continue? ==> turn(w, k).world.budget < w.budget)
  }

  /** The `while (true)` loop over turns, from `page` on. */
  ghost function TurnLoop(turn: (World, Option<int>) --> Turn, w: World, page: Option<int>): Step
    requires SpendsBudget(turn)
    decreases w.budget
  {
    if w.budget == 0 then Step(w, Exhausted)
    else
      match turn(w, page)
      case Stopped(r) => r
      case Continue(w3) => TurnLoop(turn, w3, Next(page))
  }

  /** The turns of one chapter's page loop. */
  ghost function PageTurns(env: Env, p: Pages): (World, Option<int>) --> Turn {
    (w: World, k: Option<int>) requires w.budget > 0 => PageTurn(env, p, w, k)
  }

  /** The page loop is the loop over page turns. */
  lemma {:induction false} PagesFromIsLoop(env: Env, p: Pages, w: World, page: Option<int>)
    ensures SpendsBudget(PageTurns(env, p))
    ensures PagesFrom(env, p, w, page) == TurnLoop(PageTurns(env, p), w, page)
    decreases w.budget
  {
    if w.budget > 0 {
      match PageTurn(env, p, w, page)
      case Stopped(_) =>
      case Continue(w3) => PagesFromIsLoop(env, p, w3, Next(page));
    }
  }

  /** The world a turn leaves, whether the loop stops there or goes on. */
  function After(t: Turn): World {
    if t.Stopped? then t.step.world else t.world
  }

  /** Each turn sends the request for its page and spends one unit of budget. */
  ghost predicate SendsOnePerTurn(turn: (World, Option<int>) --> Turn, req: Option<int> -> Request) {
    forall w: World, k: Option<int> :: w.budget > 0 && turn.requires(w, k) ==>
      After(turn(w, k)).sent == w.sent + [req(k)] && After(turn(w, k)).budget == w.budget - 1
  }

  lemma PageTurnsSend(env: Env, p: Pages)
    ensures SendsOnePerTurn(PageTurns(env, p), PageRequestFor(env.cfg, p))
  {
    forall w: World, k: Option<int> | w.budget > 0
      ensures After(PageTurn(env, p, w, k)).sent == w.sent + [PageRequest(env.cfg, p, k)]
              && After(PageTurn(env, p, w, k)).budget == w.budget - 1
    {
      TurnSends(env, p, w, k);
    }
  }

  /** The requests for `n` consecutive pages from `page`, for any request builder. */
  function Requested(req: Option<int> -> Request, page: Option<int>, n: nat): (r: seq<Request>)
    ensures |r| == n
  {
    seq(n, i requires 0 <= i < n => req(Plus(page, i)))
  }

  lemma RequestedCons(req: Option<int> -> Request, page: Option<int>, n: nat)
    ensures [req(page)] + Requested(req, Next(page), n) == Requested(req, page, n + 1)
  {
    var a := [req(page)] + Requested(req, Next(page), n);
    forall i | 0 <= i < n + 1
      ensures a[i] == Requested(req, page, n + 1)[i]
    {
      if i > 0 {
        assert Plus(Next(page), i - 1) == Plus(page, i);
      } else {
        assert Plus(page, 0) == page;
      }
    }
  }

  /** A loop whose every turn sends one request for its page sends the
      requests for consecutive pages, one budget unit each. */
  lemma {:induction false} LoopSendsInOrder(turn: (World, Option<int>) --> Turn, req: Option<int> -> Request,
                                            w: World, page: Option<int>)
    requires SpendsBudget(turn) && SendsOnePerTurn(turn, req)
    ensures var r := TurnLoop(turn, w, page);
            |w.sent| <= |r.world.sent|
            && r.world.sent == w.sent + Requested(req, page, |r.world.sent| - |w.sent|)
            && r.world.budget + (|r.world.sent| - |w.sent|) == w.budget
    decreases w.budget
  {
    var r := TurnLoop(turn, w, page);
    if w.budget == 0 {
      assert w.sent + Requested(req, page, 0) == w.sent;
    } else {
      var t := turn(w, page);
      if t.Stopped? {
        RequestedCons(req, page, 0);
        assert [req(page)] + Requested(req, Next(page), 0) == [req(page)];
      } else {
        LoopSendsInOrder(turn, req, t.world, Next(page));
        var n := |r.world.sent| - |t.world.sent|;
        RequestedCons(req, page, n);
        ConcatAssoc(w.sent, [req(page)], Requested(req, Next(page), n));
      }
    }
  }

  /** A page that comes back empty is the last one requested, and so is a page
      whose items are all written when `page >= total_pages`; a missing or
      zero `total_pages` counts as the page itself. */
  lemma LastPage(env: Env, p: Pages, w: World, n: int, body: Value)
    requires w.budget > 0 && env.api(PageRequest(env.cfg, p, Some(n))) == Data(body)
    requires BatchOf(PageItems(p, body)) == Stop
             || (BatchOf(PageItems(p, body)).Items? && !PageLines(p, BatchOf(PageItems(p, body)).xs).throws
                 && (!Truthy(TotalPages(body)) || AtLeast(Some(n), TotalPages(body))))
    ensures PagesFrom(env, p, w, Some(n)).outcome == Completed
    ensures PagesFrom(env, p, w, Some(n)).world.sent == w.sent + [PageRequest(env.cfg, p, Some(n))]
  {
    NumberIsItself(n);
  }

  lemma NumberIsItself(n: int)
    ensures AtLeast(Some(n), Num(n))
  {
  }

  /** The page cell only ever moves to a page whose items were all written
      (the request for it is among those this loop sent), or to null when the
      page is NaN; a page that throws part-way leaves the previous cell. */
  lemma {:induction false} CommittedPage(env: Env, p: Pages, w: World, page: Option<int>)
    ensures var r := PagesFrom(env, p, w, page);
            var c := PageCell(env.path, r.world.stored, p);
            |w.sent| <= |r.world.sent|
            && (c == PageCell(env.path, w.stored, p)
                || (c == Null && page.None?)
                || (c.Num? && PageComplete(env, p, c.n) && PageRequest(env.cfg, p, Some(c.n)) in r.world.sent[|w.sent|..]))
    decreases w.budget
  {
    ConsecutivePages(env, p, w, page);
    if w.budget > 0 {
      TurnSends(env, p, w, page);
      TurnCell(env, p, w, page);
      var req := PageRequest(env.cfg, p, page);
      match PageTurn(env, p, w, page)
      case Stopped(step) =>
        assert step.world.sent[|w.sent|..] == [req];
      case Continue(w3) =>
        var r := PagesFrom(env, p, w3, Next(page));
        assert PagesFrom(env, p, w, page) == r;
        CommittedPage(env, p, w3, Next(page));
        ConsecutivePages(env, p, w3, Next(page));
        TailsNest(r.world.sent, w.sent, req);
        var c := PageCell(env.path, r.world.stored, p);
        var c3 := PageCell(env.path, w3.stored, p);
        if c == c3 && c3 != PageCell(env.path, w.stored, p) && page.Some? {
          assert c == Num(page.value) && PageComplete(env, p, page.value);
        }
    }
  }

  /** What a longer run sent after `b + [x]` it also sent after `b`, and `x`
      with it. */
  lemma TailsNest(s: seq<Request>, b: seq<Request>, x: Request)
    requires |b| + 1 <= |s| && s[..|b| + 1] == b + [x]
    ensures x in s[|b|..]
    ensures forall y :: y in s[|b| + 1..] ==> y in s[|b|..]
  {
    assert s[|b|..][0] == s[..|b| + 1][|b|] == x;
    assert s[|b| + 1..] == s[|b|..][1..];
  }

  /** A resumed sweep starts at the last committed page, which the run that
      committed it had already requested: that page is fetched again. */
  lemma ResumeRefetches(env: Env, p: Pages, w: World, page: Option<int>)
    ensures var r := PagesFrom(env, p, w, page);
            var c := PageCell(env.path, r.world.stored, p);
            |w.sent| <= |r.world.sent|
            && (c != PageCell(env.path, w.stored, p) && c.Num? ==>
                  StartPage(env.path, r.world.stored, p) == Some(c.n)
                  && PageRequest(env.cfg, p, StartPage(env.path, r.world.stored, p)) in r.world.sent[|w.sent|..])
  {
    ConsecutivePages(env, p, w, page);
    CommittedPage(env, p, w, page);
    StartPageSpec(env.path, PagesFrom(env, p, w, page).world.stored, p);
  }

  /** Nothing the loop does depends on the checkpoint file: only the start
      page does. */
  lemma {:induction false} PagesIgnoreStored(env: Env, p: Pages, w: World, page: Option<int>, s: Stored)
    ensures var a := PagesFrom(env, p, w, page);
            var b := PagesFrom(env, p, w.(stored := s), page);
            a.outcome == b.outcome && a.world.sent == b.world.sent
            && a.world.files == b.world.files && a.world.budget == b.world.budget
    decreases w.budget
  {
    if w.budget > 0 {
      TurnIgnoresStored(env, p, w, page, s);
      match PageTurn(env, p, w, page)
      case Stopped(_) =>
      case Continue(w3) =>
        PagesIgnoreStored(env, p, w3, Next(page), Store(env.path, s, PageSection(p), PageKey(p), PageValue(page)));
    }
  }

  /** `ch_<s>_done` is written but never read: a chapter's sweep sends the
      same requests, writes the same records and ends the same way whatever
      that cell holds. */
  lemma ChapterDoneNeverRead(env: Env, p: Pages, w: World, v: Value)
    ensures var w' := w.(stored := Store(env.path, w.stored, PageSection(p), ChapterDoneKey(p), v));
            var a := ChapterPages(env, p, w);
            var b := ChapterPages(env, p, w');
            a.outcome == b.outcome && a.world.sent == b.world.sent && a.world.files == b.world.files
  {
    var w' := w.(stored := Store(env.path, w.stored, PageSection(p), ChapterDoneKey(p), v));
    ChapterKeysDiffer(p, p);
    if env.path != "" {
      SetFrame(Load(env.path, w.stored), PageSection(p), ChapterDoneKey(p), v, PageSection(p), PageKey(p), Num(1));
    }
    assert StartPage(env.path, w'.stored, p) == StartPage(env.path, w.stored, p);
    PagesIgnoreStored(env, p, w, StartPage(env.path, w.stored, p), w'.stored);
    assert w == w.(stored := w.stored);
  }
}

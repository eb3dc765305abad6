/** The state the export run of src/run.ts works on, and the three things it
    does to it: GET requests to the API, `ndjson` appends and checkpoint
    writes. The API is an oracle from requests to replies; each request spends
    one unit of a request budget, so that every sweep of the model ends. */
module Sweep {
  import opened Wrappers
  import opened Text
  import opened Json
  import opened Checkpoint
  import opened Util

  /** A GET request: the path with its placeholders filled in, and the query
      parameters as an object. */
  datatype Request = Request(path: string, params: Value)

  /** What `c.get` settles to: the response body, or a rejection (after the
      client's own retries), which propagates out of `run`. */
  datatype Reply = Data(body: Value) | Failed

  /** How a part of the run ended: it finished, something threw (a rejected
      request or a TypeError), or the request budget ran out. */
  datatype Outcome = Completed | Threw | Exhausted

  /** One `ndjson(file, obj)` call. */
  datatype Line = Line(file: string, obj: Value)

  /** What the run can be seen to do: the checkpoint file, the output files,
      the requests sent so far, and how many more requests are allowed. */
  datatype World = World(stored: Stored, files: map<string, string>, sent: seq<Request>, budget: nat)

  /** Where a part of the run leaves the world, and how it ended. */
  datatype Step = Step(world: World, outcome: Outcome)

  /** The environment variables the run reads; None for an unset variable. */
  datatype Settings = Settings(
    language: Option<string>,
    perPage: Option<string>,
    resourceLang: Option<string>,
    resourceFallback: Option<string>,
    filterMode: Option<string>,
    only: Option<string>,
    audioSegments: Option<string>,
    segmentReciters: Option<string>,
    segmentChapters: Option<string>)

  /** Everything the run depends on besides the world: the API, the
      checkpoint path (empty when checkpointing is off) and the settings. */
  datatype Env = Env(api: Request -> Reply, path: string, cfg: Settings)

  /** `LANGUAGE`: the setting, else "en". */
  function Language(cfg: Settings): string {
    EnvOr(cfg.language, "en")
  }

  /** `PER_PAGE`: `Number(process.env.PER_PAGE || 50)`. */
  function PerPage(cfg: Settings): Option<int> {
    NumberFromString(EnvOr(cfg.perPage, "50"))
  }

  /** A number as a query parameter; NaN goes out as the text "NaN". */
  function ParamNumber(n: Option<int>): Value {
    match n
    case Some(k) => Num(k)
    case None => Str("NaN")
  }

  /** The world once a request has gone out. */
  function Sent(w: World, req: Request): World
    requires w.budget > 0
  {
    w.(sent := w.sent + [req], budget := w.budget - 1)
  }

  /** The output files after a run of `ndjson` calls, in order. */
  function Written(files: map<string, string>, lines: seq<Line>): map<string, string>
    decreases |lines|
  {
    if lines == [] then files else Written(Appended(files, lines[0].file, lines[0].obj), lines[1..])
  }

  /** The records of the calls that go to one file, in order. */
  function RecordsFor(lines: seq<Line>, file: string): seq<Value> {
    if lines == [] then []
    else (if lines[0].file == file then [lines[0].obj] else []) + RecordsFor(lines[1..], file)
  }

  /** The records of one file from two runs of calls are those of the first
      run, then those of the second. */
  lemma {:induction false} RecordsForAppend(a: seq<Line>, b: seq<Line>, file: string)
    ensures RecordsFor(a + b, file) == RecordsFor(a, file) + RecordsFor(b, file)
    decreases |a|
  {
    if a != [] {
      assert (a + b)[0] == a[0];
      assert (a + b)[1..] == a[1..] + b;
      RecordsForAppend(a[1..], b, file);
    } else {
      assert a + b == b;
    }
  }

  lemma {:induction false} WrittenAppend(files: map<string, string>, a: seq<Line>, b: seq<Line>)
    ensures Written(files, a + b) == Written(Written(files, a), b)
    decreases |a|
  {
    if a == [] {
      assert a + b == b;
    } else {
      assert (a + b)[0] == a[0];
      assert (a + b)[1..] == a[1..] + b;
      WrittenAppend(Appended(files, a[0].file, a[0].obj), a[1..], b);
    }
  }

  /** Every file keeps what it held and gains exactly the lines of the calls
      addressed to it, one per call, in call order. */
  lemma {:induction false} WrittenContent(files: map<string, string>, lines: seq<Line>, file: string)
    ensures Content(Written(files, lines), file) == Content(files, file) + SinkText(RecordsFor(lines, file))
    decreases |lines|
  {
    if lines != [] {
      var next := Appended(files, lines[0].file, lines[0].obj);
      assert Written(files, lines) == Written(next, lines[1..]);
      WrittenContent(next, lines[1..], file);
      var rest := RecordsFor(lines[1..], file);
      if lines[0].file == file {
        assert Content(next, file) == Content(files, file) + NdjsonLine(lines[0].obj);
        assert RecordsFor(lines, file) == [lines[0].obj] + rest;
        assert SinkText([lines[0].obj] + rest) == NdjsonLine(lines[0].obj) + SinkText(rest) by {
          assert ([lines[0].obj] + rest)[1..] == rest;
        }
        ConcatAssoc(Content(files, file), NdjsonLine(lines[0].obj), SinkText(rest));
      } else {
        assert Content(next, file) == Content(files, file);
        assert RecordsFor(lines, file) == rest;
      }
    }
  }

  /** What a walk over items writes, and whether it threw part-way. */
  datatype Emitted = Emitted(lines: seq<Line>, throws: bool)

  /** A loop over items that writes what `emit` gives for each, in order, up
      to and including the first item whose writing throws. */
  function Walk(emit: Value -> Emitted, xs: seq<Value>): Emitted
    decreases |xs|
  {
    if xs == [] then Emitted([], false)
    else
      var e := emit(xs[0]);
      if e.throws then e
      else
        var rest := Walk(emit, xs[1..]);
        Emitted(e.lines + rest.lines, rest.throws)
  }

  /** One turn of such a loop, in terms of the items still to come. */
  lemma WalkStep(emit: Value -> Emitted, xs: seq<Value>, done: seq<Line>, rest: seq<Value>)
    requires rest != []
    requires Walk(emit, xs).lines == done + Walk(emit, rest).lines
    requires Walk(emit, xs).throws == Walk(emit, rest).throws
    ensures var e := emit(rest[0]);
            (e.throws ==> Walk(emit, xs) == Emitted(done + e.lines, true))
            && (!e.throws ==> Walk(emit, xs).lines == (done + e.lines) + Walk(emit, rest[1..]).lines
                              && Walk(emit, xs).throws == Walk(emit, rest[1..]).throws)
  {
    var e := emit(rest[0]);
    var tail := Walk(emit, rest[1..]);
    assert done + (e.lines + tail.lines) == (done + e.lines) + tail.lines;
  }

  /** A walk throws exactly when some item's writing throws, and writes
      everything the items before that one give. */
  lemma {:induction false} WalkThrows(emit: Value -> Emitted, xs: seq<Value>)
    ensures Walk(emit, xs).throws <==> exists i :: 0 <= i < |xs| && emit(xs[i]).throws
    decreases |xs|
  {
    if xs != [] {
      WalkThrows(emit, xs[1..]);
      if exists i :: 0 <= i < |xs[1..]| && emit(xs[1..][i]).throws {
        var i :| 0 <= i < |xs[1..]| && emit(xs[1..][i]).throws;
        assert xs[1..][i] == xs[i + 1];
      }
      if exists i :: 0 <= i < |xs| && emit(xs[i]).throws {
        var i :| 0 <= i < |xs| && emit(xs[i]).throws;
        if i > 0 {
          assert xs[i] == xs[1..][i - 1];
        }
      }
    }
  }

  /** What `!xs.length` followed by `for (const x of xs)` makes of a value. */
  datatype Batch = Stop | Items(xs: seq<Value>) | NotIterable

  /** The characters of a string, each a one-character string. */
  function Chars(s: string): (r: seq<Value>)
    ensures |r| == |s|
  {
    seq(|s|, i requires 0 <= i < |s| => Str([s[i]]))
  }

  /** Stop on a zero or missing length; otherwise walk an array or the
      characters of a string. An object with a length is not iterable, and
      reading the length of null or undefined throws. */
  function BatchOf(v: Value): Batch {
    match v
    case Arr(xs) => if xs == [] then Stop else Items(xs)
    case Str(s) => if s == [] then Stop else Items(Chars(s))
    case Obj(_, _) => if Truthy(Get(v, "length")) then NotIterable else Stop
    case Num(_) => Stop
    case Bool(_) => Stop
    case _ => NotIterable
  }

  /** A batch is walked exactly when the value has a non-zero length and can
      be iterated, and then holds as many items as that length. */
  lemma BatchItems(v: Value)
    ensures BatchOf(v).Items? <==> (v.Arr? && v.items != []) || (v.Str? && v.s != [])
    ensures BatchOf(v).Items? && v.Arr? ==> BatchOf(v).xs == v.items
    ensures BatchOf(v).Items? && v.Str? ==> |BatchOf(v).xs| == |v.s|
    ensures BatchOf(v) == NotIterable <==> Nullish(v) || (v.Obj? && Truthy(Get(v, "length")))
  {
  }

  /** `xs.forEach(...)`: only arrays have it; on anything else the call throws. */
  function ForEachItems(v: Value): Option<seq<Value>> {
    if v.Arr? then Some(v.items) else None
  }

  /** The exporter: the checkpoint ledger, the output files and the API
      client, with the requests it has sent. */
  class Exporter {
    const env: Env
    const ledger: Ledger
    const sink: Sink
    var sent: seq<Request>
    var budget: nat

    constructor (env: Env, stored: Stored, files: map<string, string>, budget: nat)
      ensures Valid()
      ensures State() == World(stored, files, [], budget)
    {
      this.env := env;
      this.ledger := new Ledger(env.path, stored);
      this.sink := new Sink(files);
      this.sent := [];
      this.budget := budget;
    }

    /** The ledger is the checkpoint file the settings name. */
    predicate Valid() {
      ledger.path == env.path
    }

    function State(): World
      reads this, ledger, sink
    {
      World(ledger.stored, sink.files, sent, budget)
    }

    /** `await c.get(req.path, {params})`: the oracle's reply, or None when the
        budget is spent (and then nothing is sent). */
    method Get(req: Request) returns (reply: Option<Reply>)
      modifies this
      ensures old(budget) == 0 ==> reply.None? && sent == old(sent) && budget == 0
      ensures old(budget) > 0 ==> reply == Some(env.api(req)) && sent == old(sent) + [req] && budget == old(budget) - 1
    {
      if budget == 0 {
        reply := None;
      } else {
        sent := sent + [req];
        budget := budget - 1;
        reply := Some(env.api(req));
      }
    }

    /** A run of `ndjson` calls, in order. */
    method Write(lines: seq<Line>)
      modifies sink
      ensures sink.files == Written(old(sink.files), lines)
    {
      var i := 0;
      while i < |lines|
        invariant 0 <= i <= |lines|
        invariant sink.files == Written(old(sink.files), lines[..i])
      {
        WrittenAppend(old(sink.files), lines[..i], [lines[i]]);
        assert lines[..i + 1] == lines[..i] + [lines[i]];
        sink.Append(lines[i].file, lines[i].obj);
        i := i + 1;
      }
      assert lines[..i] == lines;
    }
  }

  /** A loop over items writing what `emit` gives for each, stopping at the
      first item whose writing throws. */
  method WalkWrite(ex: Exporter, emit: Value -> Emitted, xs: seq<Value>) returns (throws: bool)
    modifies ex.sink
    ensures ex.sink.files == Written(old(ex.sink.files), Walk(emit, xs).lines)
    ensures throws == Walk(emit, xs).throws
  {
    ghost var files0 := ex.sink.files;
    ghost var done: seq<Line> := [];
    var rest := xs;
    assert done + Walk(emit, xs).lines == Walk(emit, xs).lines;
    while rest != []
      invariant ex.sink.files == Written(files0, done)
      invariant Walk(emit, xs).lines == done + Walk(emit, rest).lines
      invariant Walk(emit, xs).throws == Walk(emit, rest).throws
      decreases |rest|
    {
      var e := emit(rest[0]);
      ex.Write(e.lines);
      WrittenAppend(files0, done, e.lines);
      WalkStep(emit, xs, done, rest);
      if e.throws {
        return true;
      }
      done := done + e.lines;
      rest := rest[1..];
    }
    assert done + [] == done;
    return false;
  }
}

/** The scope-value sweeps of src/run.ts: for each scope (chapter, page, juz,
    hizb, rub el hizb) and each script kind or single translation/tafsir
    resource, fetch every value above the last one checkpointed, record the
    reply, checkpoint the value, and flag the scope done at the end. */
module Scopes {
  import opened Wrappers
  import opened Text
  import opened Json
  import opened Checkpoint
  import opened Util
  import opened Catalog
  import opened Sweep

  /** The fixed parts of one scope loop: the checkpoint section, the request
      path, the field that tags each record (`kind` or `resource_id`) with its
      value, the output file, and whether `language` goes along as a query
      parameter. */
  datatype Target = Target(section: string, path: string, tagKey: string, tag: Value, file: string, withLanguage: bool)

  /** A scope: the query parameter it sets and the values it runs through. */
  datatype Scope = Scope(key: string, values: seq<int>)

  /** The five scopes, in the order the source sweeps them. */
  function Scopes(): (r: seq<Scope>)
    ensures |r| == 5
  {
    [Scope("chapter_number", Range(1, 114)),
     Scope("page_number", Range(1, 604)),
     Scope("juz_number", Range(1, 30)),
     Scope("hizb_number", Range(1, 60)),
     Scope("rub_el_hizb_number", Range(1, 240))]
  }

  /** The request for one value: `{[key]: v}`, with `language` after it for
      the single translation and tafsir endpoints. */
  function ScopeRequest(cfg: Settings, t: Target, key: string, v: int): Request {
    var params :=
      if !t.withLanguage then Obj([key], map[key := Num(v)])
      else if key == "language" then Obj([key], map[key := Str(Language(cfg))])
      else Obj([key, "language"], map[key := Num(v), "language" := Str(Language(cfg))]);
    Request(t.path, params)
  }

  /** The record written for one value: the tag, the scope, the value and the
      response body as `payload`. */
  function ScopeRecord(t: Target, key: string, v: int, body: Value): Value {
    Obj([t.tagKey, "scope", "value", "payload"],
        map[t.tagKey := t.tag]["scope" := Str(key)]["value" := Num(v)]["payload" := body])
  }

  /** The checkpoint cell of a scope. */
  function ScopeCell(path: string, stored: Stored, t: Target, key: string): Value {
    GetCell(Load(path, stored), t.section, key, Undefined)
  }

  /** `Number(getCP(section, key, 0))`: the last value done; None is NaN. */
  function Last(path: string, stored: Stored, t: Target, key: string): Option<int> {
    ToNumber(GetCell(Load(path, stored), t.section, key, Num(0)))
  }

  /** `v <= last`; every comparison with NaN is false. */
  predicate Skip(v: int, last: Option<int>) {
    last.Some? && v <= last.value
  }

  /** The loop over the values, with `last` read once before it. */
  function ValuesFrom(env: Env, t: Target, key: string, last: Option<int>, w: World, values: seq<int>): Step
    decreases |values|
  {
    if values == [] then Step(w, Completed)
    else if Skip(values[0], last) then ValuesFrom(env, t, key, last, w, values[1..])
    else if w.budget == 0 then Step(w, Exhausted)
    else
      var req := ScopeRequest(env.cfg, t, key, values[0]);
      var w1 := Sent(w, req);
      match env.api(req)
      case Failed => Step(w1, Threw)
      case Data(body) =>
        var w2 := w1.(files := Appended(w1.files, t.file, ScopeRecord(t, key, values[0], body)),
                      stored := Store(env.path, w1.stored, t.section, key, Num(values[0])));
        ValuesFrom(env, t, key, last, w2, values[1..])
  }

  /** One scope loop: the values, then `${key}_done`. */
  function ScopeRun(env: Env, t: Target, sc: Scope, w: World): Step {
    var r := ValuesFrom(env, t, sc.key, Last(env.path, w.stored, t, sc.key), w, sc.values);
    if r.outcome != Completed then r
    else Step(r.world.(stored := Store(env.path, r.world.stored, t.section, sc.key + "_done", Bool(true))), Completed)
  }

  /** One scope loop, as the source writes it. */
  method ScopeSweep(ex: Exporter, t: Target, sc: Scope) returns (outcome: Outcome)
    requires ex.Valid()
    modifies ex, ex.ledger, ex.sink
    ensures Step(ex.State(), outcome) == ScopeRun(ex.env, t, sc, old(ex.State()))
  {
    ghost var w0 := ex.State();
    var last := ToNumber(ex.ledger.GetCP(t.section, sc.key, Num(0)));
    var i := 0;
    assert sc.values[0..] == sc.values;
    while i < |sc.values|
      invariant 0 <= i <= |sc.values| && ex.Valid()
      invariant ValuesFrom(ex.env, t, sc.key, last, ex.State(), sc.values[i..]) ==
                ValuesFrom(ex.env, t, sc.key, last, w0, sc.values)
    {
      var v := sc.values[i];
      assert sc.values[i..][1..] == sc.values[i + 1..];
      if Skip(v, last) {
        i := i + 1;
        continue;
      }
      var req := ScopeRequest(ex.env.cfg, t, sc.key, v);
      var reply := ex.Get(req);
      if reply.None? {
        return Exhausted;
      }
      if reply.value.Failed? {
        return Threw;
      }
      ex.sink.Append(t.file, ScopeRecord(t, sc.key, v, reply.value.body));
      ex.ledger.SetCP(t.section, sc.key, Num(v));
      i := i + 1;
    }
    ex.ledger.SetCP(t.section, sc.key + "_done", Bool(true));
    outcome := Completed;
  }

  // ---------------------------------------------------------------------------
  // Properties of one scope loop

  /** The values the loop fetches: those not skipped, in order. */
  function Wanted(values: seq<int>, last: Option<int>): seq<int> {
    if values == [] then []
    else (if Skip(values[0], last) then [] else [values[0]]) + Wanted(values[1..], last)
  }

  /** The requests for a list of values. */
  function Requests(cfg: Settings, t: Target, key: string, vs: seq<int>): (r: seq<Request>)
    ensures |r| == |vs|
  {
    seq(|vs|, i requires 0 <= i < |vs| => ScopeRequest(cfg, t, key, vs[i]))
  }

  /** A value is fetched exactly when it is one of the values and not above
      `last`; a NaN `last` skips nothing. */
  lemma {:induction false} WantedSpec(values: seq<int>, last: Option<int>)
    ensures forall v :: v in Wanted(values, last) <==> v in values && !Skip(v, last)
    ensures last.None? ==> Wanted(values, last) == values
    ensures Subsequence(Wanted(values, last), values)
    decreases |values|
  {
    if values != [] {
      WantedSpec(values[1..], last);
      assert values == [values[0]] + values[1..];
      if Skip(values[0], last) {
        assert Wanted(values, last) == Wanted(values[1..], last);
        SubsequenceWeaken(Wanted(values, last), values);
      } else {
        var r := Wanted(values, last);
        assert r[0] == values[0] && r[1..] == Wanted(values[1..], last);
      }
    }
  }

  /** Strictly increasing. */
  predicate Increasing(s: seq<int>) {
    forall i, j :: 0 <= i < j < |s| ==> s[i] < s[j]
  }

  /** The fetched values of increasing values increase too, and lie above `last`. */
  lemma {:induction false} WantedIncreasing(values: seq<int>, last: Option<int>)
    requires Increasing(values)
    ensures Increasing(Wanted(values, last))
    ensures forall v :: v in Wanted(values, last) && last.Some? ==> v > last.value
    decreases |values|
  {
    WantedAbove(values, last);
    if values != [] {
      var rest := Wanted(values[1..], last);
      IncreasingTail(values);
      WantedIncreasing(values[1..], last);
      WantedSpec(values[1..], last);
      if Skip(values[0], last) {
        assert Wanted(values, last) == rest;
      } else {
        assert Wanted(values, last) == [values[0]] + rest;
        forall v | v in rest
          ensures values[0] < v
        {
          var j :| 0 <= j < |values[1..]| && values[1..][j] == v;
          assert values[j + 1] == v;
        }
        IncreasingCons(values[0], rest);
      }
    }
  }

  /** The fetched values all lie above `last`. */
  lemma WantedAbove(values: seq<int>, last: Option<int>)
    ensures forall v :: v in Wanted(values, last) && last.Some? ==> v > last.value
  {
    WantedSpec(values, last);
  }

  /** The tail of an increasing list increases. */
  lemma IncreasingTail(s: seq<int>)
    requires Increasing(s) && s != []
    ensures Increasing(s[1..])
  {
    forall i, j | 0 <= i < j < |s[1..]|
      ensures s[1..][i] < s[1..][j]
    {
      assert s[1..][i] == s[i + 1] && s[1..][j] == s[j + 1];
    }
  }

  /** A value below every element of an increasing list extends it. */
  lemma IncreasingCons(x: int, s: seq<int>)
    requires Increasing(s) && forall v :: v in s ==> x < v
    ensures Increasing([x] + s)
  {
    var r := [x] + s;
    forall i, j | 0 <= i < j < |r|
      ensures r[i] < r[j]
    {
      assert r[j] == s[j - 1];
      if i > 0 {
        assert r[i] == s[i - 1];
      } else {
        assert s[j - 1] in s;
      }
    }
  }

  /** The requests of a list of values starting with `x`. */
  lemma RequestsCons(cfg: Settings, t: Target, key: string, ws: seq<int>, m: nat)
    requires ws != [] && m < |ws|
    ensures Requests(cfg, t, key, ws[..m + 1]) == [ScopeRequest(cfg, t, key, ws[0])] + Requests(cfg, t, key, ws[1..][..m])
  {
    assert ws[..m + 1] == [ws[0]] + ws[1..][..m];
  }

  /** One fetched value: the world after its request and its successful reply. */
  function Fetched(env: Env, t: Target, key: string, w: World, v: int, body: Value): World
    requires w.budget > 0
  {
    var w1 := Sent(w, ScopeRequest(env.cfg, t, key, v));
    w1.(files := Appended(w1.files, t.file, ScopeRecord(t, key, v, body)),
        stored := Store(env.path, w1.stored, t.section, key, Num(v)))
  }

  /** How the loop goes on after its first value. */
  lemma ValuesStep(env: Env, t: Target, key: string, last: Option<int>, w: World, values: seq<int>)
    requires values != []
    ensures var r := ValuesFrom(env, t, key, last, w, values);
            var req := ScopeRequest(env.cfg, t, key, values[0]);
            if Skip(values[0], last) then r == ValuesFrom(env, t, key, last, w, values[1..])
            else if w.budget == 0 then r == Step(w, Exhausted)
            else if env.api(req).Failed? then r == Step(Sent(w, req), Threw)
            else r == ValuesFrom(env, t, key, last, Fetched(env, t, key, w, values[0], env.api(req).body), values[1..])
  {
  }

  /** The loop that went from `w` to `r` sent the requests of the first
      values of `ws`, in order, one budget unit each; all of them when it
      completed, and it ran out of budget only when the budget was spent. */
  predicate SentPrefix(cfg: Settings, t: Target, key: string, w: World, r: Step, ws: seq<int>) {
    var n := |r.world.sent| - |w.sent|;
    0 <= n <= |ws|
    && r.world.sent == w.sent + Requests(cfg, t, key, ws[..n])
    && r.world.budget == w.budget - n
    && (r.outcome == Completed ==> n == |ws|)
    && (r.outcome == Exhausted ==> r.world.budget == 0)
  }

  /** A fetch in front of a loop adds its request in front of the loop's. */
  lemma SentPrefixCons(cfg: Settings, t: Target, key: string, w: World, w2: World, r: Step, v: int, ws: seq<int>)
    requires w2.sent == w.sent + [ScopeRequest(cfg, t, key, v)] && w2.budget + 1 == w.budget
    requires SentPrefix(cfg, t, key, w2, r, ws)
    ensures SentPrefix(cfg, t, key, w, r, [v] + ws)
  {
    var m := |r.world.sent| - |w2.sent|;
    RequestsCons(cfg, t, key, [v] + ws, m);
    assert ([v] + ws)[1..] == ws;
  }

  lemma {:induction false} ScopeRequestsSent(env: Env, t: Target, key: string, last: Option<int>, w: World, values: seq<int>)
    ensures SentPrefix(env.cfg, t, key, w, ValuesFrom(env, t, key, last, w, values), Wanted(values, last))
    decreases |values|
  {
    var r := ValuesFrom(env, t, key, last, w, values);
    var wanted := Wanted(values, last);
    if values == [] {
      assert r == Step(w, Completed);
    } else {
      var tail := values[1..];
      ValuesStep(env, t, key, last, w, values);
      if Skip(values[0], last) {
        assert wanted == Wanted(tail, last);
        ScopeRequestsSent(env, t, key, last, w, tail);
      } else if w.budget == 0 {
        assert wanted[..0] == [];
      } else {
        var req := ScopeRequest(env.cfg, t, key, values[0]);
        assert wanted == [values[0]] + Wanted(tail, last);
        if env.api(req).Failed? {
          RequestsCons(env.cfg, t, key, wanted, 0);
        } else {
          var w2 := Fetched(env, t, key, w, values[0], env.api(req).body);
          ScopeRequestsSent(env, t, key, last, w2, tail);
          SentPrefixCons(env.cfg, t, key, w, w2, r, values[0], Wanted(tail, last));
        }
      }
    }
  }

  /** Running the values of `a` and then those of `b` is running `a + b`. */
  lemma {:induction false} ValuesFromAppend(env: Env, t: Target, key: string, last: Option<int>, w: World, a: seq<int>, b: seq<int>)
    ensures var mid := ValuesFrom(env, t, key, last, w, a);
            ValuesFrom(env, t, key, last, w, a + b) ==
              if mid.outcome == Completed then ValuesFrom(env, t, key, last, mid.world, b) else mid
    decreases |a|
  {
    if a == [] {
      assert a + b == b;
    } else {
      assert (a + b)[0] == a[0] && (a + b)[1..] == a[1..] + b;
      if Skip(a[0], last) {
        ValuesFromAppend(env, t, key, last, w, a[1..], b);
      } else if w.budget > 0 {
        var req := ScopeRequest(env.cfg, t, key, a[0]);
        var w1 := Sent(w, req);
        match env.api(req)
        case Failed =>
        case Data(body) =>
          var w2 := w1.(files := Appended(w1.files, t.file, ScopeRecord(t, key, a[0], body)),
                        stored := Store(env.path, w1.stored, t.section, key, Num(a[0])));
          ValuesFromAppend(env, t, key, last, w2, a[1..], b);
      }
    }
  }

  /** The checkpoint cell is left alone, or holds a fetched value, which lies
      above `last`. */
  lemma {:induction false} ScopeCellWritten(env: Env, t: Target, key: string, last: Option<int>, w: World, values: seq<int>)
    ensures var c := ScopeCell(env.path, ValuesFrom(env, t, key, last, w, values).world.stored, t, key);
            c == ScopeCell(env.path, w.stored, t, key)
            || (env.path != "" && c.Num? && c.n in Wanted(values, last) && (last.Some? ==> c.n > last.value))
    decreases |values|
  {
    WantedSpec(values, last);
    if values != [] {
      WantedSpec(values[1..], last);
      if Skip(values[0], last) {
        ScopeCellWritten(env, t, key, last, w, values[1..]);
      } else if w.budget > 0 {
        var req := ScopeRequest(env.cfg, t, key, values[0]);
        var w1 := Sent(w, req);
        match env.api(req)
        case Failed =>
        case Data(body) =>
          var w2 := w1.(files := Appended(w1.files, t.file, ScopeRecord(t, key, values[0], body)),
                        stored := Store(env.path, w1.stored, t.section, key, Num(values[0])));
          ScopeCellWritten(env, t, key, last, w2, values[1..]);
          if env.path != "" {
            StoreThenLoad(env.path, w1.stored, t.section, key, Num(values[0]), Undefined);
          }
      }
    }
  }

  /** A loop that completes leaves the cell at the last value it fetched. */
  lemma {:induction false} ScopeCellCompleted(env: Env, t: Target, key: string, last: Option<int>, w: World, values: seq<int>)
    requires env.path != "" && Wanted(values, last) != []
    requires ValuesFrom(env, t, key, last, w, values).outcome == Completed
    ensures ScopeCell(env.path, ValuesFrom(env, t, key, last, w, values).world.stored, t, key) ==
              Num(Wanted(values, last)[|Wanted(values, last)| - 1])
    decreases |values|
  {
    var tail := values[1..];
    if Skip(values[0], last) {
      ScopeCellCompleted(env, t, key, last, w, tail);
    } else {
      var req := ScopeRequest(env.cfg, t, key, values[0]);
      var w1 := Sent(w, req);
      var body := env.api(req).body;
      var w2 := w1.(files := Appended(w1.files, t.file, ScopeRecord(t, key, values[0], body)),
                    stored := Store(env.path, w1.stored, t.section, key, Num(values[0])));
      if Wanted(tail, last) == [] {
        ScopeRequestsSent(env, t, key, last, w2, tail);
        ScopeCellWritten(env, t, key, last, w2, tail);
        StoreThenLoad(env.path, w1.stored, t.section, key, Num(values[0]), Undefined);
      } else {
        ScopeCellCompleted(env, t, key, last, w2, tail);
      }
    }
  }

  /** Within a run the cell never decreases: once the loop has checkpointed a
      value of the first values `a`, what the later values `b` leave is that
      value or a larger one. */
  lemma ScopeCellNeverDecreases(env: Env, t: Target, key: string, last: Option<int>, w: World, a: seq<int>, b: seq<int>, k: int)
    requires Increasing(a + b)
    requires ValuesFrom(env, t, key, last, w, a).outcome == Completed
    requires ScopeCell(env.path, ValuesFrom(env, t, key, last, w, a).world.stored, t, key) == Num(k) && k in a
    ensures var c := ScopeCell(env.path, ValuesFrom(env, t, key, last, w, a + b).world.stored, t, key);
            c.Num? && c.n >= k
  {
    var mid := ValuesFrom(env, t, key, last, w, a);
    ValuesFromAppend(env, t, key, last, w, a, b);
    ScopeCellWritten(env, t, key, last, mid.world, b);
    WantedSpec(b, last);
    var c := ScopeCell(env.path, ValuesFrom(env, t, key, last, w, a + b).world.stored, t, key);
    if c != Num(k) {
      var i :| 0 <= i < |a| && a[i] == k;
      var j :| 0 <= j < |b| && b[j] == c.n;
      assert (a + b)[i] == k && (a + b)[|a| + j] == c.n;
    }
  }

  /** `last` is the cell read with 0 for a missing, null or undefined value. */
  lemma LastFromCell(path: string, stored: Stored, t: Target, key: string)
    ensures Last(path, stored, t, key) == ToNumber(Coalesce(ScopeCell(path, stored, t, key), Num(0)))
  {
  }

  /** Once the largest value is done, every value is skipped. */
  lemma {:induction false} NothingAboveTop(values: seq<int>, last: Option<int>)
    requires Increasing(values) && Wanted(values, last) != []
    ensures Wanted(values, Some(Wanted(values, last)[|Wanted(values, last)| - 1])) == []
  {
    var wanted := Wanted(values, last);
    var top := wanted[|wanted| - 1];
    WantedSpec(values, last);
    WantedIncreasing(values, last);
    assert top in wanted;
    forall v | v in values
      ensures Skip(v, Some(top))
    {
      if v in wanted {
        var j :| 0 <= j < |wanted| && wanted[j] == v;
        assert j == |wanted| - 1 || wanted[j] < top;
      }
    }
    AllSkipped(values, Some(top));
  }

  /** Nothing is fetched when every value is skipped. */
  lemma {:induction false} AllSkipped(values: seq<int>, last: Option<int>)
    requires forall v :: v in values ==> Skip(v, last)
    ensures Wanted(values, last) == []
    decreases |values|
  {
    if values != [] {
      assert values[0] in values;
      forall v | v in values[1..]
        ensures Skip(v, last)
      {
        assert v in values;
      }
      AllSkipped(values[1..], last);
    }
  }

  /** The `_done` flag is a cell of its own. */
  lemma DoneKeyDiffers(key: string)
    ensures key + "_done" != key
  {
    assert |key + "_done"| == |key| + 5;
  }

  /** A run of the scope after one that completed, with checkpointing on,
      fetches nothing: every value is at or below the stored one. */
  lemma ResumeAfterCompletion(env: Env, t: Target, sc: Scope, w: World)
    requires env.path != "" && Increasing(sc.values)
    requires ScopeRun(env, t, sc, w).outcome == Completed
    ensures var w' := ScopeRun(env, t, sc, w).world;
            Wanted(sc.values, Last(env.path, w'.stored, t, sc.key)) == []
            && ScopeRun(env, t, sc, w').world.sent == w'.sent
  {
    var last := Last(env.path, w.stored, t, sc.key);
    var r := ValuesFrom(env, t, sc.key, last, w, sc.values);
    var w' := ScopeRun(env, t, sc, w).world;
    DoneKeyDiffers(sc.key);
    SetFrame(Load(env.path, r.world.stored), t.section, sc.key + "_done", Bool(true), t.section, sc.key, Undefined);
    assert ScopeCell(env.path, w'.stored, t, sc.key) == ScopeCell(env.path, r.world.stored, t, sc.key);
    LastFromCell(env.path, w'.stored, t, sc.key);
    LastFromCell(env.path, w.stored, t, sc.key);
    var last' := Last(env.path, w'.stored, t, sc.key);
    if Wanted(sc.values, last) == [] {
      ScopeCellWritten(env, t, sc.key, last, w, sc.values);
      WantedSpec(sc.values, last);
      assert last' == last;
    } else {
      ScopeCellCompleted(env, t, sc.key, last, w, sc.values);
      NothingAboveTop(sc.values, last);
    }
    ScopeRequestsSent(env, t, sc.key, last', w', sc.values);
  }

  // ---------------------------------------------------------------------------
  // The jobs of the quran section

  /** A scope loop to run, or a resource whose `id` cannot be read (null or
      undefined), where the section throws. */
  datatype Job = Job(t: Target, sc: Scope) | Crash

  /** The jobs one after the other, stopping at the first that does not complete. */
  function JobsRun(env: Env, jobs: seq<Job>, w: World): Step
    decreases |jobs|
  {
    if jobs == [] then Step(w, Completed)
    else
      match jobs[0]
      case Crash => Step(w, Threw)
      case Job(t, sc) =>
        var r := ScopeRun(env, t, sc, w);
        if r.outcome != Completed then r else JobsRun(env, jobs[1..], r.world)
  }

  /** The job loop, as the source's nested `for` loops run it. */
  method SweepJobs(ex: Exporter, jobs: seq<Job>) returns (outcome: Outcome)
    requires ex.Valid()
    modifies ex, ex.ledger, ex.sink
    ensures Step(ex.State(), outcome) == JobsRun(ex.env, jobs, old(ex.State()))
  {
    ghost var w0 := ex.State();
    var i := 0;
    assert jobs[0..] == jobs;
    while i < |jobs|
      invariant 0 <= i <= |jobs| && ex.Valid()
      invariant JobsRun(ex.env, jobs[i..], ex.State()) == JobsRun(ex.env, jobs, w0)
    {
      assert jobs[i..][1..] == jobs[i + 1..];
      match jobs[i]
      case Crash =>
        return Threw;
      case Job(t, sc) =>
        outcome := ScopeSweep(ex, t, sc);
        if outcome != Completed {
          return;
        }
      i := i + 1;
    }
    outcome := Completed;
  }

  /** Running `a` and then `b` is running `a + b`. */
  lemma {:induction false} JobsRunAppend(env: Env, a: seq<Job>, b: seq<Job>, w: World)
    ensures var mid := JobsRun(env, a, w);
            JobsRun(env, a + b, w) == if mid.outcome == Completed then JobsRun(env, b, mid.world) else mid
    decreases |a|
  {
    if a == [] {
      assert a + b == b;
    } else {
      assert (a + b)[0] == a[0] && (a + b)[1..] == a[1..] + b;
      if a[0].Job? {
        var r := ScopeRun(env, a[0].t, a[0].sc, w);
        if r.outcome == Completed {
          JobsRunAppend(env, a[1..], b, r.world);
        }
      }
    }
  }

  /** A job list holding a crash never completes. */
  lemma {:induction false} CrashStops(env: Env, jobs: seq<Job>, w: World)
    requires Crash in jobs
    ensures JobsRun(env, jobs, w).outcome != Completed
    decreases |jobs|
  {
    if jobs[0].Job? {
      var r := ScopeRun(env, jobs[0].t, jobs[0].sc, w);
      if r.outcome == Completed {
        assert Crash in jobs[1..];
        CrashStops(env, jobs[1..], r.world);
      }
    }
  }

  /** The seven script kinds, in the order the source sweeps them. */
  function ScriptKinds(): (r: seq<string>)
    ensures |r| == 7
  {
    ["uthmani_simple", "uthmani", "uthmani_tajweed", "indopak", "imlaei_simple", "code_v1", "code_v2"]
  }

  /** One script kind: section `quran_<kind>`, path `/quran/verses/<kind>`. */
  function ScriptTarget(kind: string): Target {
    Target("quran_" + kind, "/quran/verses/" + kind, "kind", Str(kind), "quran_scripts.ndjson", false)
  }

  /** The jobs of one scope, kind by kind. */
  function KindJobs(sc: Scope): (r: seq<Job>)
    ensures |r| == 7
  {
    seq(7, j requires 0 <= j < 7 => Job(ScriptTarget(ScriptKinds()[j]), sc))
  }

  function ScopesJobs(scopes: seq<Scope>): (r: seq<Job>)
    ensures |r| == 7 * |scopes|
  {
    if scopes == [] then [] else KindJobs(scopes[0]) + ScopesJobs(scopes[1..])
  }

  /** The scripts sweep: scopes outside, kinds inside. */
  function ScriptJobs(): seq<Job> {
    ScopesJobs(Scopes())
  }

  /** Job `7i + j` is kind `j` in scope `i`. */
  lemma {:induction false} ScopesJobsOrder(scopes: seq<Scope>, i: nat, j: nat)
    requires i < |scopes| && j < 7
    ensures ScopesJobs(scopes)[7 * i + j] == Job(ScriptTarget(ScriptKinds()[j]), scopes[i])
    decreases i
  {
    if i > 0 {
      ScopesJobsOrder(scopes[1..], i - 1, j);
      assert ScopesJobs(scopes)[7 * i + j] == ScopesJobs(scopes[1..])[7 * (i - 1) + j];
    }
  }

  /** The scripts sweep runs 35 scope loops, all five scopes for the first
      kind's scope before the next scope: job `7i + j` is kind `j` in scope `i`. */
  lemma ScriptJobsOrder(i: nat, j: nat)
    requires i < 5 && j < 7
    ensures |ScriptJobs()| == 35
    ensures ScriptJobs()[7 * i + j] == Job(ScriptTarget(ScriptKinds()[j]), Scopes()[i])
  {
    ScopesJobsOrder(Scopes(), i, j);
  }

  /** A single translation or tafsir resource: section
      `quran_single_<family>_res_<id>`, path `/quran/<family>s/<id>`. */
  function SingleTarget(family: string, res: Value): Target {
    var id := Get(res, "id");
    Target("quran_single_" + family + "_res_" + JsString(id), "/quran/" + family + "s/" + JsString(id),
           "resource_id", id, "quran_single_" + family + ".ndjson", true)
  }

  /** The jobs of the resources: the five scopes of each, resource by
      resource; reading the `id` of a null or undefined resource throws. */
  function ResourceJobs(family: string, resources: seq<Value>): seq<Job>
    decreases |resources|
  {
    if resources == [] then []
    else if Nullish(resources[0]) then [Crash]
    else seq(5, k requires 0 <= k < 5 => Job(SingleTarget(family, resources[0]), Scopes()[k]))
         + ResourceJobs(family, resources[1..])
  }

  /** With no null or undefined resource, job `5r + k` is scope `k` of resource `r`. */
  lemma {:induction false} ResourceJobsOrder(family: string, resources: seq<Value>, r: nat, k: nat)
    requires forall i :: 0 <= i < |resources| ==> !Nullish(resources[i])
    requires r < |resources| && k < 5
    ensures |ResourceJobs(family, resources)| == 5 * |resources|
    ensures ResourceJobs(family, resources)[5 * r + k] == Job(SingleTarget(family, resources[r]), Scopes()[k])
    decreases r
  {
    ResourceJobsLength(family, resources);
    if r > 0 {
      ResourceJobsOrder(family, resources[1..], r - 1, k);
      assert ResourceJobs(family, resources)[5 * r + k] == ResourceJobs(family, resources[1..])[5 * (r - 1) + k];
    }
  }

  lemma {:induction false} ResourceJobsLength(family: string, resources: seq<Value>)
    requires forall i :: 0 <= i < |resources| ==> !Nullish(resources[i])
    ensures |ResourceJobs(family, resources)| == 5 * |resources|
    decreases |resources|
  {
    if resources != [] {
      ResourceJobsLength(family, resources[1..]);
    }
  }

  /** A null or undefined resource makes the jobs crash when they reach it. */
  lemma {:induction false} NullResourceCrashes(family: string, resources: seq<Value>, r: nat)
    requires r < |resources| && Nullish(resources[r])
    ensures Crash in ResourceJobs(family, resources)
    decreases r
  {
    if r > 0 && !Nullish(resources[0]) {
      NullResourceCrashes(family, resources[1..], r - 1);
    }
  }

  // ---------------------------------------------------------------------------
  // Resource selection

  /** A catalog request: `{params: {language: LANGUAGE}}`. */
  function CatalogRequest(cfg: Settings, path: string): Request {
    Request(path, Obj(["language"], map["language" := Str(Language(cfg))]))
  }

  /** `for (const x of v)`: arrays and strings can be walked, anything else throws. */
  function Iterable(v: Value): Option<seq<Value>> {
    match v
    case Arr(xs) => Some(xs)
    case Str(s) => Some(Chars(s))
    case _ => None
  }

  /** The resources a section exports from a catalog (`r.data?.translations
      || []`): the whole catalog in mode "all", otherwise its filter, with the
      fallback language when nothing matches in mode "fallback"; `filter` on
      anything but an array throws. */
  function Selected(cfg: Settings, catalog: Value): Option<seq<Value>> {
    var all := Or(catalog, Arr([]));
    var mode := FilterMode(cfg.filterMode);
    if mode == "all" then Iterable(all)
    else if all.Arr? then
      SelectWithFallback(all.items, WantedResourceLang(cfg.resourceLang, cfg.language), FallbackLang(cfg.resourceFallback), mode)
    else None
  }

  /** A missing catalog selects nothing; an array catalog is selected as the
      catalog helpers say. */
  lemma SelectedSpec(cfg: Settings, catalog: Value)
    ensures !Truthy(catalog) ==> Selected(cfg, catalog) == Some([])
    ensures catalog.Arr? ==>
              Selected(cfg, catalog) == SelectWithFallback(catalog.items, WantedResourceLang(cfg.resourceLang, cfg.language),
                                                           FallbackLang(cfg.resourceFallback), FilterMode(cfg.filterMode))
    ensures Truthy(catalog) && !catalog.Arr? && !catalog.Str? ==> Selected(cfg, catalog) == None
  {
  }

  // ---------------------------------------------------------------------------
  // The quran section

  /** The single translations and tafsirs, from the two catalog replies. The
      filters run before either loop, so one that throws stops the section
      before any request; in mode "all" a catalog that cannot be walked
      throws only when its own loop starts. */
  function SinglesRun(env: Env, trBody: Value, tfBody: Value, w: World): Step {
    var tfs := Selected(env.cfg, OptGet(tfBody, "tafsirs"));
    match Selected(env.cfg, OptGet(trBody, "translations"))
    case None => Step(w, Threw)
    case Some(trs) =>
      if tfs.None? && FilterMode(env.cfg.filterMode) != "all" then Step(w, Threw)
      else
        var r := JobsRun(env, ResourceJobs("translation", trs), w);
        if r.outcome != Completed then r
        else if tfs.None? then Step(r.world, Threw)
        else JobsRun(env, ResourceJobs("tafsir", tfs.value), r.world)
  }

  /** The two loops over the selected resources, as the source writes them. */
  method SingleSweeps(ex: Exporter, trBody: Value, tfBody: Value) returns (outcome: Outcome)
    requires ex.Valid()
    modifies ex, ex.ledger, ex.sink
    ensures Step(ex.State(), outcome) == SinglesRun(ex.env, trBody, tfBody, old(ex.State()))
  {
    var trs := Selected(ex.env.cfg, OptGet(trBody, "translations"));
    var tfs := Selected(ex.env.cfg, OptGet(tfBody, "tafsirs"));
    if trs.None? || (tfs.None? && FilterMode(ex.env.cfg.filterMode) != "all") {
      return Threw;
    }
    outcome := SweepJobs(ex, ResourceJobs("translation", trs.value));
    if outcome != Completed {
      return;
    }
    if tfs.None? {
      return Threw;
    }
    outcome := SweepJobs(ex, ResourceJobs("tafsir", tfs.value));
  }

  /** The quran section after a given scripts sweep: the sweep, then the
      catalogs and the single sweeps. */
  function QuranAfter(env: Env, scripts: seq<Job>, w: World): Step {
    var r := JobsRun(env, scripts, w);
    if r.outcome != Completed then r else CatalogsRun(env, r.world)
  }

  /** The two catalogs, then the single translations and the single tafsirs. */
  function CatalogsRun(env: Env, w: World): Step {
    if w.budget == 0 then Step(w, Exhausted)
    else
      var trReq := CatalogRequest(env.cfg, "/resources/translations");
      var w1 := Sent(w, trReq);
      match env.api(trReq)
      case Failed => Step(w1, Threw)
      case Data(trBody) => TafsirsRun(env, trBody, w1)
  }

  /** The tafsirs catalog, then the single sweeps. */
  function TafsirsRun(env: Env, trBody: Value, w: World): Step {
    if w.budget == 0 then Step(w, Exhausted)
    else
      var tfReq := CatalogRequest(env.cfg, "/resources/tafsirs");
      var w1 := Sent(w, tfReq);
      match env.api(tfReq)
      case Failed => Step(w1, Threw)
      case Data(tfBody) => SinglesRun(env, trBody, tfBody, w1)
  }

  /** The quran section. */
  function QuranRun(env: Env, w: World): Step {
    QuranAfter(env, ScriptJobs(), w)
  }

  /** The quran section, as the source writes it. */
  method QuranSection(ex: Exporter) returns (outcome: Outcome)
    requires ex.Valid()
    modifies ex, ex.ledger, ex.sink
    ensures Step(ex.State(), outcome) == QuranRun(ex.env, old(ex.State()))
  {
    var scripts := ScriptJobs();
    outcome := QuranSweeps(ex, scripts);
  }

  method QuranSweeps(ex: Exporter, scripts: seq<Job>) returns (outcome: Outcome)
    requires ex.Valid()
    modifies ex, ex.ledger, ex.sink
    ensures Step(ex.State(), outcome) == QuranAfter(ex.env, scripts, old(ex.State()))
  {
    outcome := SweepJobs(ex, scripts);
    if outcome != Completed {
      return;
    }
    outcome := CatalogSweeps(ex);
  }

  /** The catalog requests and the single sweeps, as the source writes them. */
  method CatalogSweeps(ex: Exporter) returns (outcome: Outcome)
    requires ex.Valid()
    modifies ex, ex.ledger, ex.sink
    ensures Step(ex.State(), outcome) == CatalogsRun(ex.env, old(ex.State()))
  {
    var tr := ex.Get(CatalogRequest(ex.env.cfg, "/resources/translations"));
    if tr.None? {
      return Exhausted;
    }
    if tr.value.Failed? {
      return Threw;
    }
    outcome := TafsirSweeps(ex, tr.value.body);
  }

  /** The tafsirs catalog request and the single sweeps. */
  method TafsirSweeps(ex: Exporter, trBody: Value) returns (outcome: Outcome)
    requires ex.Valid()
    modifies ex, ex.ledger, ex.sink
    ensures Step(ex.State(), outcome) == TafsirsRun(ex.env, trBody, old(ex.State()))
  {
    var tf := ex.Get(CatalogRequest(ex.env.cfg, "/resources/tafsirs"));
    if tf.None? {
      return Exhausted;
    }
    if tf.value.Failed? {
      return Threw;
    }
    outcome := SingleSweeps(ex, trBody, tf.value.body);
  }
}

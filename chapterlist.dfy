/** The chapter list of the audio-segments sweep (src/run.ts, the parser of
    AUDIO_SEGMENTS_CHAPTERS): a comma-separated list of chapter numbers and
    ranges "a-b"; an empty setting means every chapter, 1 to 114. */
module ChapterList {
  import opened Wrappers
  import opened Text
  import opened Catalog

  /** Both ends of a range must read as finite numbers; the range runs from
      the smaller to the larger. */
  function RangeBetween(a: Option<int>, b: Option<int>): seq<int> {
    if a.Some? && b.Some? then
      Range(if a.value <= b.value then a.value else b.value, if a.value <= b.value then b.value else a.value)
    else []
  }

  /** A text holding the separator splits into at least two pieces. */
  lemma {:induction false} SplitAtSeparator(s: string, sep: char)
    requires sep in s
    ensures |Split(s, sep)| >= 2
    decreases |s|
  {
    if s[0] != sep {
      SplitAtSeparator(s[1..], sep);
    }
  }

  /** The chapters one token contributes: nothing for a blank token; for a
      token containing '-' the range between the numbers before the first and
      the second '-'; otherwise the number itself when it is finite. */
  function TokenChapters(token: string): seq<int> {
    var t := Trim(token);
    if t == "" then []
    else if '-' in t then
      SplitAtSeparator(t, '-');
      var parts := Split(t, '-');
      RangeBetween(NumberFromString(parts[0]), NumberFromString(parts[1]))
    else
      match NumberFromString(t)
      case Some(n) => [n]
      case None => []
  }

  /** The chapters of the tokens, in token order. */
  function TokensChapters(tokens: seq<string>): seq<int> {
    if tokens == [] then []
    else TokensChapters(tokens[..|tokens| - 1]) + TokenChapters(tokens[|tokens| - 1])
  }

  /** The chapter list for the setting. */
  function ChapterListSpec(env: Option<string>): seq<int> {
    var e := Trim(env.GetOr(""));
    if e == "" then Range(1, 114) else TokensChapters(Split(e, ','))
  }

  /** `for (let i = lo; i <= hi; i++) chapters.push(i)`. */
  method PushRange(chapters: seq<int>, lo: int, hi: int) returns (out: seq<int>)
    ensures out == chapters + Range(lo, hi)
  {
    out := chapters;
    var i := lo;
    while i <= hi
      invariant lo <= i && (i <= hi + 1 || i == lo)
      invariant out == chapters + Range(lo, i - 1)
    {
      assert Range(lo, i) == Range(lo, i - 1) + [i];
      out := out + [i];
      i := i + 1;
    }
    if hi < lo {
      assert Range(lo, i - 1) == [] == Range(lo, hi);
    }
  }

  /** The body of the token loop: push the chapters of one token. */
  method PushToken(chapters: seq<int>, token: string) returns (out: seq<int>)
    ensures out == chapters + TokenChapters(token)
  {
    out := chapters;
    var t := Trim(token);
    if t == "" {
      return;
    }
    if '-' in t {
      SplitAtSeparator(t, '-');
      var parts := Split(t, '-');
      var a := NumberFromString(parts[0]);
      var b := NumberFromString(parts[1]);
      if a.Some? && b.Some? {
        var lo := if a.value <= b.value then a.value else b.value;
        var hi := if a.value <= b.value then b.value else a.value;
        out := PushRange(chapters, lo, hi);
      }
    } else {
      var n := NumberFromString(t);
      if n.Some? {
        out := chapters + [n.value];
      }
    }
  }

  /** The parser as the source writes it: walk the tokens, pushing each
      chapter, or take 1..114 for an empty setting. */
  method ParseChapters(env: Option<string>) returns (chapters: seq<int>)
    ensures chapters == ChapterListSpec(env)
  {
    var e := Trim(env.GetOr(""));
    if e == "" {
      chapters := Range(1, 114);
      return;
    }
    var tokens := Split(e, ',');
    chapters := [];
    var k := 0;
    while k < |tokens|
      invariant 0 <= k <= |tokens|
      invariant chapters == TokensChapters(tokens[..k])
    {
      assert tokens[..k + 1][..k] == tokens[..k];
      chapters := PushToken(chapters, tokens[k]);
      k := k + 1;
    }
    assert tokens[..k] == tokens;
  }

  /** An empty or blank setting selects every chapter, 1 to 114. */
  lemma BlankSettingIsEveryChapter(env: Option<string>)
    requires forall i :: 0 <= i < |env.GetOr("")| ==> IsSpace(env.GetOr("")[i])
    ensures ChapterListSpec(env) == Range(1, 114)
    ensures |ChapterListSpec(env)| == 114
  {
    TrimBlank(env.GetOr(""));
  }

  /** A range token "a-b" yields every integer from min(a, b) to max(a, b),
      in increasing order, whichever way round it is written. */
  lemma RangeTokenSpec(token: string, a: int, b: int)
    requires Trim(token) != "" && '-' in Trim(token)
    requires |Split(Trim(token), '-')| >= 2
    requires NumberFromString(Split(Trim(token), '-')[0]) == Some(a)
    requires NumberFromString(Split(Trim(token), '-')[1]) == Some(b)
    ensures forall x :: x in TokenChapters(token) <==> (a <= x <= b || b <= x <= a)
    ensures TokenChapters(token) == RangeBetween(Some(b), Some(a))
  {
    RangeSpec(if a <= b then a else b, if a <= b then b else a);
  }

  /** A token that is blank, or that does not read as a finite number and
      holds no '-', contributes nothing. */
  lemma DroppedTokens(token: string)
    requires Trim(token) == "" || ('-' !in Trim(token) && NumberFromString(Trim(token)).None?)
    ensures TokenChapters(token) == []
  {
  }

  lemma {:induction false} TokensChaptersAppend(a: seq<string>, b: seq<string>)
    ensures TokensChapters(a + b) == TokensChapters(a) + TokensChapters(b)
    decreases |b|
  {
    if b == [] {
      assert a + b == a;
    } else {
      assert (a + b)[..|a + b| - 1] == a + b[..|b| - 1];
      assert (a + b)[|a + b| - 1] == b[|b| - 1];
      TokensChaptersAppend(a, b[..|b| - 1]);
    }
  }

  /** The list of "x,y" is the list of x followed by the list of y: tokens are
      read independently and their chapters kept in token order. */
  lemma {:induction false} CommaConcatenates(x: string, y: string)
    ensures TokensChapters(Split(x + "," + y, ',')) == TokensChapters(Split(x, ',')) + TokensChapters(Split(y, ','))
  {
    assert x + "," + y == x + [','] + y;
    SplitAround(x, y, ',');
    TokensChaptersAppend(Split(x, ','), Split(y, ','));
  }
}

/** The resource-catalog helpers of src/run.ts: language-code normalization,
    the language match of a translation or tafsir resource, `range`, and the
    all/strict/fallback selection of the resources to export. */
module Catalog {
  import opened Wrappers
  import opened Text
  import opened Json

  /** `wantedResourceLang()`: RESOURCE_LANG, else LANGUAGE, else "en", lower-cased. */
  function WantedResourceLang(resourceLang: Option<string>, language: Option<string>): string {
    ToLower(EnvOr(resourceLang, EnvOr(language, "en")))
  }

  /** The fallback language: RESOURCE_LANG_FALLBACK, else "en", lower-cased. */
  function FallbackLang(fallback: Option<string>): string {
    ToLower(EnvOr(fallback, "en"))
  }

  /** The filter mode: RESOURCE_FILTER_MODE, else "strict", lower-cased (not trimmed). */
  function FilterMode(mode: Option<string>): string {
    ToLower(EnvOr(mode, "strict"))
  }

  /** `normalizeLangCode(input)`: "" for a falsy input, the lower-cased and
      trimmed text for a string; any other value has no `toLowerCase`, and
      the call throws (None). */
  function NormalizeLangCode(input: Value): Option<string> {
    if !Truthy(input) then Some("")
    else if input.Str? then Some(Trim(ToLower(input.s)))
    else None
  }

  /** No upper-case ASCII letter occurs in the text. */
  predicate Lowered(s: string) {
    forall i :: 0 <= i < |s| ==> !('A' <= s[i] <= 'Z')
  }

  lemma ToLowerLowers(s: string)
    ensures Lowered(ToLower(s))
  {
  }

  /** A string with no upper-case ASCII letter is its own lower case. */
  lemma ToLowerNoOp(s: string)
    requires Lowered(s)
    ensures ToLower(s) == s
  {
  }

  /** Every character of the trimmed text comes from the text. */
  lemma {:induction false} TrimChars(s: string, c: char)
    requires c in Trim(s)
    ensures c in s
  {
    TrimSpec(s);
    var r := Trim(s);
    var i :| 0 <= i < |r| && r[i] == c;
    assert s[TrimOffset(s) + i] == c;
  }

  lemma {:induction false} TrimKeepsLowered(s: string)
    requires Lowered(s)
    ensures Lowered(Trim(s))
  {
    var y := Trim(s);
    forall i | 0 <= i < |y|
      ensures !('A' <= y[i] <= 'Z')
    {
      TrimChars(s, y[i]);
    }
  }

  /** The normalized text of a string is canonical: no upper-case ASCII
      letter, no surrounding white space, and normalizing again changes nothing. */
  lemma {:induction false} CanonicalCode(s: string)
    ensures Lowered(Trim(ToLower(s)))
    ensures Trim(ToLower(Trim(ToLower(s)))) == Trim(ToLower(s))
  {
    ToLowerLowers(s);
    TrimKeepsLowered(ToLower(s));
    ToLowerNoOp(Trim(ToLower(s)));
    TrimIdempotent(ToLower(s));
  }

  /** A normalized code is canonical: normalizing it again changes nothing. */
  lemma {:induction false} NormalizeLangCodeCanonical(input: Value)
    requires NormalizeLangCode(input).Some?
    ensures Lowered(NormalizeLangCode(input).value)
    ensures Trim(NormalizeLangCode(input).value) == NormalizeLangCode(input).value
    ensures NormalizeLangCode(Str(NormalizeLangCode(input).value)) == NormalizeLangCode(input)
  {
    if input.Str? && input.s != "" {
      var y := Trim(ToLower(input.s));
      CanonicalCode(input.s);
      TrimIdempotent(ToLower(input.s));
      assert NormalizeLangCode(input) == Some(y);
      if y != "" {
        assert NormalizeLangCode(Str(y)) == Some(Trim(ToLower(y)));
      }
    }
  }

  /** A lower-case code without white space normalizes to itself. */
  lemma PlainCode(s: string)
    requires s != [] && forall i :: 0 <= i < |s| ==> 'a' <= s[i] <= 'z'
    ensures NormalizeLangCode(Str(s)) == Some(s)
  {
    ToLowerNoOp(s);
    assert !IsSpace(s[0]) && !IsSpace(s[|s| - 1]);
    TrimNoOp(s);
  }

  /** White space normalizes to the empty code. */
  lemma {:induction false} BlankCode(s: string)
    requires forall i :: 0 <= i < |s| ==> IsSpace(s[i])
    ensures NormalizeLangCode(Str(s)) == Some("")
  {
    if s != [] {
      assert Lowered(s) by {
        forall i | 0 <= i < |s|
          ensures !('A' <= s[i] <= 'Z')
        {
          assert IsSpace(s[i]);
        }
      }
      ToLowerNoOp(s);
      TrimBlank(s);
    }
  }

  /** `String(res.language_name || res.name || "").toLowerCase()`. */
  function LanguageName(res: Value): string {
    ToLower(JsString(Or(Or(Get(res, "language_name"), Get(res, "name")), Str(""))))
  }

  /** The name-based match, tried only for the targets "id", "en" and "ar". */
  predicate NameMatches(t: string, ln: string) {
    (t == "id" && (Contains(ln, "indones") || Contains(ln, "bahasa")))
    || (t == "en" && Contains(ln, "english"))
    || (t == "ar" && (Contains(ln, "arab") || Contains(ln, "\U{0627}\U{0644}\U{0639}\U{0631}\U{0628}")))
  }

  /** The non-empty normalized codes among `language`, `language_code` and
      `iso_code`, or None when normalizing one of them throws. */
  function CodeCandidates(res: Value): Option<seq<string>> {
    var c1 := NormalizeLangCode(Get(res, "language"));
    var c2 := NormalizeLangCode(Get(res, "language_code"));
    var c3 := NormalizeLangCode(Get(res, "iso_code"));
    if c1.None? || c2.None? || c3.None? then None
    else Some((if c1.value != "" then [c1.value] else [])
              + (if c2.value != "" then [c2.value] else [])
              + (if c3.value != "" then [c3.value] else []))
  }

  /** `resourceMatchesLang(res, target)`; None when it throws (a null or
      undefined resource, or a code field holding a truthy non-string). */
  function ResourceMatchesLang(res: Value, target: string): Option<bool> {
    if Nullish(res) then None
    else
      var t := NormalizeLangCode(Str(target)).value;
      match CodeCandidates(res)
      case None => None
      case Some(cands) => Some(t in cands || NameMatches(t, LanguageName(res)))
  }

  /** The match throws exactly for a null or undefined resource or a code
      field that is truthy but not a string. */
  lemma MatchThrows(res: Value, target: string)
    ensures ResourceMatchesLang(res, target).None? <==>
              Nullish(res)
              || (Truthy(Get(res, "language")) && !Get(res, "language").Str?)
              || (Truthy(Get(res, "language_code")) && !Get(res, "language_code").Str?)
              || (Truthy(Get(res, "iso_code")) && !Get(res, "iso_code").Str?)
  {
  }

  /** A non-empty code equal to the normalized target is a match. */
  lemma CodeMatchWins(res: Value, target: string, field: string)
    requires !Nullish(res) && CodeCandidates(res).Some?
    requires field == "language" || field == "language_code" || field == "iso_code"
    requires NormalizeLangCode(Get(res, field)) == NormalizeLangCode(Str(target))
    requires NormalizeLangCode(Str(target)).value != ""
    ensures ResourceMatchesLang(res, target) == Some(true)
  {
  }

  /** For a target other than "id", "en" and "ar" only an exact code match
      counts: the language name is never consulted. */
  lemma OtherTargetsNeedCode(res: Value, target: string)
    requires !Nullish(res) && CodeCandidates(res).Some?
    requires NormalizeLangCode(Str(target)).value !in {"id", "en", "ar"}
    ensures ResourceMatchesLang(res, target) == Some(NormalizeLangCode(Str(target)).value in CodeCandidates(res).value)
  {
  }

  /** An empty (or all white space) target matches by no code. */
  lemma BlankTargetMatchesNothing(res: Value, target: string)
    requires forall i :: 0 <= i < |target| ==> IsSpace(target[i])
    requires !Nullish(res) && CodeCandidates(res).Some?
    ensures ResourceMatchesLang(res, target) == Some(false)
  {
    BlankCode(target);
    CandidatesNonEmpty(res);
  }

  /** The empty code is never a candidate (`.filter(Boolean)`). */
  lemma CandidatesNonEmpty(res: Value)
    requires CodeCandidates(res).Some?
    ensures "" !in CodeCandidates(res).value
  {
  }

  /** `range(n1, n2)`: the integers n1..n2 in increasing order; `Array.from`
      turns a negative length into an empty array. */
  function Range(n1: int, n2: int): (r: seq<int>)
    ensures |r| == (if n2 >= n1 then n2 - n1 + 1 else 0)
  {
    seq(if n2 >= n1 then n2 - n1 + 1 else 0, i => n1 + i)
  }

  /** The range holds exactly the integers between its bounds, each once,
      in strictly increasing order. */
  lemma RangeSpec(n1: int, n2: int)
    ensures forall x :: x in Range(n1, n2) <==> n1 <= x <= n2
    ensures forall i, j :: 0 <= i < j < |Range(n1, n2)| ==> Range(n1, n2)[i] < Range(n1, n2)[j]
    ensures |Range(n1, n2)| > 0 ==> Range(n1, n2)[0] == n1 && Range(n1, n2)[|Range(n1, n2)| - 1] == n2
  {
    var r := Range(n1, n2);
    forall x | n1 <= x <= n2
      ensures x in r
    {
      assert r[x - n1] == x;
    }
  }

  /** `r` occurs in `s` in order, possibly with gaps. */
  predicate Subsequence<T(==)>(r: seq<T>, s: seq<T>)
    decreases |s|
  {
    if r == [] then true
    else if s == [] then false
    else if r[0] == s[0] then Subsequence(r[1..], s[1..])
    else Subsequence(r, s[1..])
  }

  /** `items.filter(x => resourceMatchesLang(x, target))`; None when a match throws. */
  function FilterMatching(items: seq<Value>, target: string): Option<seq<Value>>
    decreases |items|
  {
    if items == [] then Some([])
    else
      match ResourceMatchesLang(items[0], target)
      case None => None
      case Some(b) =>
        match FilterMatching(items[1..], target)
        case None => None
        case Some(rest) => Some((if b then [items[0]] else []) + rest)
  }

  /** The filter throws exactly when the match of some resource throws. */
  lemma {:induction false} FilterMatchingThrows(items: seq<Value>, target: string)
    ensures FilterMatching(items, target).None? <==>
              exists i :: 0 <= i < |items| && ResourceMatchesLang(items[i], target).None?
    decreases |items|
  {
    if items != [] {
      FilterMatchingThrows(items[1..], target);
      if exists i :: 0 <= i < |items[1..]| && ResourceMatchesLang(items[1..][i], target).None? {
        var i :| 0 <= i < |items[1..]| && ResourceMatchesLang(items[1..][i], target).None?;
        assert items[i + 1] == items[1..][i];
      }
      if exists i :: 0 <= i < |items| && ResourceMatchesLang(items[i], target).None? {
        var i :| 0 <= i < |items| && ResourceMatchesLang(items[i], target).None?;
        if i > 0 {
          assert items[1..][i - 1] == items[i];
        }
      }
    }
  }

  /** The filter keeps, in catalog order, exactly the resources that match,
      each as often as it occurs in the catalog. */
  lemma {:induction false} FilterMatchingKeeps(items: seq<Value>, target: string)
    requires FilterMatching(items, target).Some?
    ensures Subsequence(FilterMatching(items, target).value, items)
    ensures forall x :: x in FilterMatching(items, target).value ==> ResourceMatchesLang(x, target) == Some(true)
    ensures forall i :: 0 <= i < |items| && ResourceMatchesLang(items[i], target) == Some(true) ==>
              items[i] in FilterMatching(items, target).value
    ensures forall x :: ResourceMatchesLang(x, target) == Some(true) ==>
              multiset(FilterMatching(items, target).value)[x] == multiset(items)[x]
    decreases |items|
  {
    if items != [] {
      FilterMatchingKeeps(items[1..], target);
      var rest := FilterMatching(items[1..], target).value;
      var r := FilterMatching(items, target).value;
      assert items == [items[0]] + items[1..];
      if ResourceMatchesLang(items[0], target) == Some(true) {
        assert r == [items[0]] + rest;
        assert r[1..] == rest;
      } else {
        assert r == rest;
        SubsequenceWeaken(rest, items);
      }
      forall i | 0 <= i < |items| && ResourceMatchesLang(items[i], target) == Some(true)
        ensures items[i] in r
      {
        if i > 0 {
          assert items[1..][i - 1] == items[i];
        }
      }
    }
  }

  /** A subsequence of the tail is a subsequence of the whole. */
  lemma {:induction false} SubsequenceWeaken<T>(r: seq<T>, s: seq<T>)
    requires s != [] && Subsequence(r, s[1..])
    ensures Subsequence(r, s)
    decreases |s|, 0
  {
    if r != [] && r[0] == s[0] {
      SubsequenceDrop(r, s[1..]);
    }
  }

  /** A subsequence stays one after dropping its first element. */
  lemma {:induction false} SubsequenceDrop<T>(r: seq<T>, t: seq<T>)
    requires r != [] && Subsequence(r, t)
    ensures Subsequence(r[1..], t)
    decreases |t|, 1
  {
    if r[0] == t[0] {
      SubsequenceWeaken(r[1..], t);
    } else {
      SubsequenceDrop(r, t[1..]);
      SubsequenceWeaken(r[1..], t);
    }
  }

  /** The selection of the first resources section: the whole catalog in mode
      "all", otherwise the matching resources; there is no fallback here. */
  function SelectWithoutFallback(all: seq<Value>, target: string, mode: string): Option<seq<Value>> {
    if mode == "all" then Some(all) else FilterMatching(all, target)
  }

  /** The selection of the later sections: as above, but in mode "fallback"
      an empty match for the target is replaced by the match for the fallback
      language. */
  function SelectWithFallback(all: seq<Value>, target: string, fallback: string, mode: string): Option<seq<Value>> {
    if mode == "all" then Some(all)
    else
      match FilterMatching(all, target)
      case None => None
      case Some(f) => if mode == "fallback" && |f| == 0 then FilterMatching(all, fallback) else Some(f)
  }

  /** Mode "all" exports the catalog unchanged in both selections. */
  lemma SelectAllUnchanged(all: seq<Value>, target: string, fallback: string)
    ensures SelectWithoutFallback(all, target, "all") == Some(all)
    ensures SelectWithFallback(all, target, fallback, "all") == Some(all)
  {
  }

  /** The two selections differ only in mode "fallback" and only when nothing
      matches the target; every mode other than "all" and "fallback" behaves
      as "strict". */
  lemma FallbackOnlyWhenEmpty(all: seq<Value>, target: string, fallback: string, mode: string)
    ensures SelectWithFallback(all, target, fallback, mode) != SelectWithoutFallback(all, target, mode) ==>
              mode == "fallback" && FilterMatching(all, target) == Some([])
    ensures mode != "all" && mode != "fallback" ==>
              SelectWithFallback(all, target, fallback, mode) == FilterMatching(all, target)
  {
  }

  /** An English and an Indonesian resource, as a catalog lists them. */
  const EnglishResource := Obj(["id", "language"], map["id" := Num(1), "language" := Str("en")])
  const IndonesianResource := Obj(["id", "language"], map["id" := Num(2), "language" := Str("id")])

  lemma ExampleCandidates()
    ensures CodeCandidates(EnglishResource) == Some(["en"])
    ensures CodeCandidates(IndonesianResource) == Some(["id"])
    ensures LanguageName(EnglishResource) == "" && LanguageName(IndonesianResource) == ""
  {
    PlainCode("en");
    PlainCode("id");
    LanguageOnly(1, "en");
    LanguageOnly(2, "id");
  }

  /** A resource with an id and a plain `language` code: that code is its one
      candidate, and it has no name. */
  lemma LanguageOnly(id: int, code: string)
    requires NormalizeLangCode(Str(code)) == Some(code) && code != ""
    ensures var res := Obj(["id", "language"], map["id" := Num(id), "language" := Str(code)]);
            CodeCandidates(res) == Some([code]) && LanguageName(res) == ""
  {
    var res := Obj(["id", "language"], map["id" := Num(id), "language" := Str(code)]);
    assert Get(res, "language") == Str(code);
    assert Get(res, "language_code") == Undefined && Get(res, "iso_code") == Undefined;
    assert Get(res, "language_name") == Undefined && Get(res, "name") == Undefined;
    assert [code] + [] + [] == [code];
  }

  lemma ExampleMatches()
    ensures ResourceMatchesLang(EnglishResource, "fr") == Some(false)
    ensures ResourceMatchesLang(IndonesianResource, "fr") == Some(false)
    ensures ResourceMatchesLang(EnglishResource, "en") == Some(true)
    ensures ResourceMatchesLang(IndonesianResource, "en") == Some(false)
  {
    ExampleCandidates();
    PlainCode("fr");
    PlainCode("en");
    OneCodeMatch(EnglishResource, "en", "fr");
    OneCodeMatch(IndonesianResource, "id", "fr");
    OneCodeMatch(EnglishResource, "en", "en");
    OneCodeMatch(IndonesianResource, "id", "en");
  }

  /** A resource with one code and no name matches a plain target exactly
      when the target is that code. */
  lemma OneCodeMatch(res: Value, code: string, target: string)
    requires !Nullish(res) && CodeCandidates(res) == Some([code]) && LanguageName(res) == ""
    requires NormalizeLangCode(Str(target)) == Some(target)
    ensures ResourceMatchesLang(res, target) == Some(target == code)
  {
    assert !NameMatches(target, "");
  }

  /** In mode "fallback" an empty match for the target is replaced by the
      match for the fallback language in the later sections, while the first
      resources section exports nothing. */
  lemma FallbackWhenEmpty(all: seq<Value>, target: string, fallback: string)
    requires FilterMatching(all, target) == Some([])
    ensures SelectWithoutFallback(all, target, "fallback") == Some([])
    ensures SelectWithFallback(all, target, fallback, "fallback") == FilterMatching(all, fallback)
  {
  }
}

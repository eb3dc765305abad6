/** The record normalizers of src/normalizers.ts: projections of API records
    onto the exported shape, with `??` fallbacks (null and undefined fall back;
    false, 0 and "" are kept). Reading a property of null or undefined throws
    in JavaScript; those calls give None here. */
module Normalizers {
  import opened Wrappers
  import opened Json

  const VerseKeys: seq<string> := [
    "id", "verse_key", "chapter_id", "verse_number", "juz_number", "hizb_number",
    "rub_el_hizb_number", "page_number", "text_uthmani", "text_imlaei_simple"
  ]

  /** `normVerse(v)`. */
  function NormVerse(v: Value): Option<Value> {
    if Nullish(v) then None
    else Some(Obj(VerseKeys, map[
      "id" := Get(v, "id"),
      "verse_key" := Get(v, "verse_key"),
      "chapter_id" := Get(v, "chapter_id"),
      "verse_number" := Get(v, "verse_number"),
      "juz_number" := Coalesce(Get(v, "juz_number"), OptGet(Get(v, "juz"), "number")),
      "hizb_number" := Get(v, "hizb_number"),
      "rub_el_hizb_number" := Get(v, "rub_el_hizb_number"),
      "page_number" := Coalesce(Get(v, "v1_page"), Get(v, "page_number")),
      "text_uthmani" := Get(v, "text_uthmani"),
      "text_imlaei_simple" := Get(v, "text_imlaei_simple")
    ]))
  }

  /** A verse record has the ten keys in order, and the call throws only on
      null or undefined. */
  lemma NormVerseShape(v: Value)
    ensures NormVerse(v).None? <==> Nullish(v)
    ensures NormVerse(v).Some? ==> NormVerse(v).value.Obj? && NormVerse(v).value.keys == VerseKeys
  {
  }

  /** The identifying fields of a verse are copied unchanged. */
  lemma NormVerseCopiesKeys(v: Value)
    requires !Nullish(v)
    ensures Get(NormVerse(v).value, "id") == Get(v, "id")
    ensures Get(NormVerse(v).value, "verse_key") == Get(v, "verse_key")
    ensures Get(NormVerse(v).value, "chapter_id") == Get(v, "chapter_id")
    ensures Get(NormVerse(v).value, "verse_number") == Get(v, "verse_number")
  {
    NormVerseCopiesIds(v);
    NormVerseCopiesPlace(v);
  }

  lemma NormVerseCopiesIds(v: Value)
    requires !Nullish(v)
    ensures Get(NormVerse(v).value, "id") == Get(v, "id")
    ensures Get(NormVerse(v).value, "verse_key") == Get(v, "verse_key")
  {
  }

  lemma NormVerseCopiesPlace(v: Value)
    requires !Nullish(v)
    ensures Get(NormVerse(v).value, "chapter_id") == Get(v, "chapter_id")
    ensures Get(NormVerse(v).value, "verse_number") == Get(v, "verse_number")
  {
  }

  /** The division numbers and both texts are copied unchanged. */
  lemma NormVerseCopiesText(v: Value)
    requires !Nullish(v)
    ensures Get(NormVerse(v).value, "hizb_number") == Get(v, "hizb_number")
    ensures Get(NormVerse(v).value, "rub_el_hizb_number") == Get(v, "rub_el_hizb_number")
    ensures Get(NormVerse(v).value, "text_uthmani") == Get(v, "text_uthmani")
    ensures Get(NormVerse(v).value, "text_imlaei_simple") == Get(v, "text_imlaei_simple")
  {
  }

  /** `juz_number` is the verse's own unless that is null or undefined, then
      the number of its `juz` object (undefined when there is none); a juz
      number of 0 is kept, where `||` would have replaced it. */
  lemma NormVerseJuz(v: Value)
    requires !Nullish(v)
    ensures Get(NormVerse(v).value, "juz_number") ==
              if !Nullish(Get(v, "juz_number")) then Get(v, "juz_number")
              else if Get(v, "juz").Obj? then Get(Get(v, "juz"), "number")
              else Undefined
    ensures Get(v, "juz_number") == Num(0) ==> Get(NormVerse(v).value, "juz_number") == Num(0)
  {
  }

  /** `page_number` is `v1_page` unless that is null or undefined, then the
      verse's `page_number`. */
  lemma NormVersePage(v: Value)
    requires !Nullish(v)
    ensures Get(NormVerse(v).value, "page_number") ==
              if Nullish(Get(v, "v1_page")) then Get(v, "page_number") else Get(v, "v1_page")
  {
  }

  const WordKeys: seq<string> := [
    "id", "verse_id", "verse_key", "chapter_id", "position", "line_number", "v1_page",
    "v2_page", "code_v1", "code_v2", "text_uthmani", "text_imlaei_simple", "char_type_name"
  ]

  /** One record yielded by `normWords(v)` for the word `w`. */
  function WordRecord(v: Value, w: Value): Value {
    Obj(WordKeys, map[
      "id" := Get(w, "id"),
      "verse_id" := Get(v, "id"),
      "verse_key" := Get(v, "verse_key"),
      "chapter_id" := Get(v, "chapter_id"),
      "position" := Get(w, "position"),
      "line_number" := Get(w, "line_number"),
      "v1_page" := Coalesce(Get(w, "v1_page"), Get(w, "page_number")),
      "v2_page" := Get(w, "v2_page"),
      "code_v1" := Get(w, "code_v1"),
      "code_v2" := Get(w, "code_v2"),
      "text_uthmani" := Get(w, "text_uthmani"),
      "text_imlaei_simple" := Get(w, "text_imlaei_simple"),
      "char_type_name" := Get(w, "char_type_name")
    ])
  }

  /** What a generator produces: the records yielded, in order, and whether it
      then threw instead of finishing. */
  datatype Yield = Yield(records: seq<Value>, throws: bool)

  /** How many words come before the first null or undefined one. */
  function CleanPrefix(words: seq<Value>): (k: nat)
    ensures k <= |words|
  {
    if words == [] || Nullish(words[0]) then 0 else 1 + CleanPrefix(words[1..])
  }

  /** The records for `words`: one per word up to the first null or undefined
      word, where reading its `id` throws. */
  function WordRecords(v: Value, words: seq<Value>): Yield {
    var k := CleanPrefix(words);
    Yield(seq(k, i requires 0 <= i < k => WordRecord(v, words[i])), k < |words|)
  }

  /** `normWords(v)`: nothing unless `v.words` is an array, else one record per word. */
  function NormWords(v: Value): Yield {
    if Nullish(v) then Yield([], true)
    else
      match Get(v, "words")
      case Arr(words) => WordRecords(v, words)
      case _ => Yield([], false)
  }

  /** The prefix ends just before the first null or undefined word. */
  lemma {:induction false} CleanPrefixSpec(words: seq<Value>)
    ensures forall j :: 0 <= j < CleanPrefix(words) ==> !Nullish(words[j])
    ensures CleanPrefix(words) < |words| ==> Nullish(words[CleanPrefix(words)])
    decreases |words|
  {
    if words != [] && !Nullish(words[0]) {
      CleanPrefixSpec(words[1..]);
      forall j | 0 < j < CleanPrefix(words)
        ensures !Nullish(words[j])
      {
        assert words[j] == words[1..][j - 1];
      }
      if CleanPrefix(words) < |words| {
        assert words[CleanPrefix(words)] == words[1..][CleanPrefix(words[1..])];
      }
    }
  }

  /** Word records come one per word, in order, until the first null or
      undefined word; each carries the verse's id as `verse_id`, its
      `verse_key` and `chapter_id`, and the word's own fields. */
  lemma WordRecordsSpec(v: Value, words: seq<Value>)
    ensures var y := WordRecords(v, words);
            |y.records| <= |words|
            && (y.throws <==> exists j :: 0 <= j < |words| && Nullish(words[j]))
            && (!y.throws ==> |y.records| == |words|)
            && (y.throws ==> |y.records| < |words| && Nullish(words[|y.records|]))
            && (forall j :: 0 <= j < |y.records| ==> !Nullish(words[j]) && y.records[j] == WordRecord(v, words[j]))
  {
    CleanPrefixSpec(words);
  }

  /** The fields of a word record. */
  lemma WordRecordFields(v: Value, w: Value)
    ensures var r := WordRecord(v, w);
            r.Obj? && r.keys == WordKeys
            && Get(r, "verse_id") == Get(v, "id") && Get(r, "verse_key") == Get(v, "verse_key")
            && Get(r, "chapter_id") == Get(v, "chapter_id") && Get(r, "id") == Get(w, "id")
            && Get(r, "v1_page") == (if Nullish(Get(w, "v1_page")) then Get(w, "page_number") else Get(w, "v1_page"))
  {
    WordRecordVerse(v, w);
    WordRecordOwn(v, w);
  }

  lemma WordRecordVerse(v: Value, w: Value)
    ensures var r := WordRecord(v, w);
            r.Obj? && r.keys == WordKeys
            && Get(r, "verse_id") == Get(v, "id") && Get(r, "verse_key") == Get(v, "verse_key")
            && Get(r, "chapter_id") == Get(v, "chapter_id")
  {
  }

  lemma WordRecordOwn(v: Value, w: Value)
    ensures var r := WordRecord(v, w);
            Get(r, "id") == Get(w, "id")
            && Get(r, "v1_page") == (if Nullish(Get(w, "v1_page")) then Get(w, "page_number") else Get(w, "v1_page"))
  {
  }

  /** A verse whose `words` is not an array yields no word and does not throw. */
  lemma NoWordsWithoutArray(v: Value)
    requires !Nullish(v) && !Get(v, "words").Arr?
    ensures NormWords(v) == Yield([], false)
  {
  }

  /** `normTranslation(resource_id, item)`, and `normTafsir`, which is the same
      function. */
  function NormTranslation(resourceId: Value, item: Value): Option<Value> {
    if Nullish(item) then None
    else Some(Obj(["resource_id", "verse_key", "text", "footnotes"], map[
      "resource_id" := resourceId,
      "verse_key" := Coalesce(Coalesce(Get(item, "verse_key"), Get(item, "aya")), OptGet(Get(item, "verse"), "key")),
      "text" := Coalesce(Get(item, "text"), Get(item, "body")),
      "footnotes" := Coalesce(Get(item, "footnotes"), Null)
    ]))
  }

  /** The verse key is the first of `verse_key`, `aya` and `verse.key` that is
      not null or undefined; the text is `text`, else `body`; footnotes are
      never undefined (null when missing), so they always reach the JSON text. */
  lemma NormTranslationFields(resourceId: Value, item: Value)
    requires !Nullish(item)
    ensures Get(NormTranslation(resourceId, item).value, "resource_id") == resourceId
    ensures Get(NormTranslation(resourceId, item).value, "verse_key") ==
              if !Nullish(Get(item, "verse_key")) then Get(item, "verse_key")
              else if !Nullish(Get(item, "aya")) then Get(item, "aya")
              else if Get(item, "verse").Obj? then Get(Get(item, "verse"), "key")
              else Undefined
    ensures Get(NormTranslation(resourceId, item).value, "text") ==
              if Nullish(Get(item, "text")) then Get(item, "body") else Get(item, "text")
    ensures Get(NormTranslation(resourceId, item).value, "footnotes") != Undefined
    ensures Nullish(Get(item, "footnotes")) ==> Get(NormTranslation(resourceId, item).value, "footnotes") == Null
  {
  }

  /** `normRecitation(r)`. */
  function NormRecitation(r: Value): Option<Value> {
    if Nullish(r) then None
    else Some(Obj(["id", "reciter_name", "style", "relative_path", "format", "files_size"], map[
      "id" := Get(r, "id"),
      "reciter_name" := Get(r, "name"),
      "style" := Get(r, "style"),
      "relative_path" := Get(r, "relative_path"),
      "format" := Get(r, "format"),
      "files_size" := Get(r, "files_size")
    ]))
  }

  /** `name` becomes `reciter_name`; the other five fields are copied. */
  lemma NormRecitationFields(r: Value)
    requires !Nullish(r)
    ensures var n := NormRecitation(r).value;
            Get(n, "reciter_name") == Get(r, "name")
            && forall k :: k in ["id", "style", "relative_path", "format", "files_size"] ==> Get(n, k) == Get(r, k)
  {
  }
}

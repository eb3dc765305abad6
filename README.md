# qf-export-all, modelled in Dafny

qf-export-all exports the content of the Quran Foundation content API to
NDJSON files. It then loads those files into PostgreSQL. This project models
the core of both programs and proves properties of the model.

The exporter (`src/run.ts`) runs up to eight sections in a fixed order. Each
runs only when the `ONLY` selection wants it (`onlyWants` in `dist/util.js`):

- the resource catalogs;
- the chapters with their infos;
- the verses and words, chapter by chapter and page by page;
- the juz list;
- the Quran scripts and the single translations and tafsirs, by scope value;
- the translation texts and the tafsir texts, per resource, chapter and page;
- the audio files of each reciter;
- the chapter-level audio timestamps of each (reciter, chapter) pair.

Every record goes out as one JSON line through `ndjson`. Progress is kept in
a JSON checkpoint file (`src/checkpoint.ts`). A rerun skips what is recorded
there: pages, scope values, reciters and pairs.

Requests go through an API client (`src/http.ts`). The client caches an
OAuth 2.0 client-credentials token (section 4.4 of RFC 6749). It refreshes
that token once on 401 Unauthorized (section 15.5.2 of RFC 9110). It retries
5xx replies and network errors with jittered exponential backoff.

API records are reshaped by the normalizers (`src/normalizers.ts`). The
loader (`src/import.ts`) reads each NDJSON file and projects every record
onto a table's columns. It encodes the rows as CSV and loads them with
`TRUNCATE` followed by `COPY ... WITH (FORMAT csv)`.

The model is organised as follows:

- JavaScript values are a `Json.Value` datatype. It covers `undefined`,
  objects whose keys are kept in insertion order, and the JavaScript operators
  `||`, `??`, `?.`, `String`, `Number` and `JSON.stringify`.
- An operation that throws in JavaScript returns `None`, or a step that
  ends with `Threw`.
- The exporter's state is the class `Sweep.Exporter`. It holds:
  - the checkpoint ledger (`Checkpoint.Ledger`);
  - the NDJSON sink (`Util.Sink`);
  - the requests sent so far;
  - a request budget.
- The API is an oracle from requests to replies.
- Each section's loop is a method. Its postcondition equates the final
  state with a specification function over a `World` value. Lemmas about
  that function state the resume and checkpoint properties.
- The loader's database is the class `Loader.Database`, a map from table
  to rows. The CSV encoder is paired with a decoder for the record grammar
  of section 2 of RFC 4180, and the two are proved to round-trip.

## Model

| member | source | states |
|---|---|---|
| Text.TrimSpec | dist/util.js:20 | `trim` returns the infix left after removing leading and trailing white space. The result neither starts nor ends with white space. Every character removed is white space. |
| Text.TrimBlank | src/run.ts:691-692 | a token trims to the empty string exactly when it is all white space, which is when the `if (!t) continue` guard skips it |
| Text.TrimIdempotent | src/run.ts:48 | trimming twice gives what trimming once gives |
| Text.ToLower | src/run.ts:48 | `toLowerCase` keeps the length and lowers each character on its own |
| Text.SplitPiecesHaveNoSeparator | dist/util.js:19 | no piece of `split(",")` holds a comma |
| Text.JoinSplit | dist/util.js:19 | joining the pieces of `split(sep)` with `sep` gives back the text, so splitting loses nothing |
| Text.SplitWithoutSeparator | src/run.ts:690 | a text without the separator splits into itself alone |
| Text.SplitAround | src/run.ts:690 | a separator between two texts splits them apart: the pieces are those of the left text followed by those of the right |
| Text.NatToString | src/run.ts:714 | `String(n)` of a natural number is a non-empty string of decimal digits |
| Text.IntToString | src/run.ts:714 | `String(n)` of an integer is non-empty and starts with a digit or a minus sign |
| Text.DigitsValueOfNatToString | src/run.ts:680 | reading back the digits `String(n)` writes gives `n` |
| Text.NumberFromIntToString | src/run.ts:680-682 | `Number(String(n)) == n` for every integer, so a reciter id written as text is found again |
| Text.EnvOr | dist/util.js:3-4 | `process.env.X \|\| dflt` is the setting when it is set and non-empty, and the default otherwise |
| Json.OrVersusCoalesce | src/normalizers.ts:7-10 | `a \|\| b` and `a ?? b` agree exactly when `a` is truthy, nullish, or equal to `b`. So `??` keeps a 0, false or "" that `\|\|` would replace. |
| Json.SpreadAfter | src/run.ts:519 | `{resource_id: id, ...x}` is an object whose first key is `resource_id` |
| Json.SpreadAfterReads | src/run.ts:519 | in `{resource_id: id, ...x}` a `resource_id` of `x` wins over `id`, and every other property reads as in `x` |
| Json.SerPrintable | dist/util.js:12 | `JSON.stringify` writes no control character, so no line break either |
| Json.SerStartsVisibly | src/import.ts:235 | a JSON text is non-empty and starts with a visible character, so the loader never skips a written line as blank |
| Checkpoint.GetAfterSet | src/checkpoint.ts:22-32 | reading a cell right after `setCP` gives the value set, or the default when that value is null or undefined |
| Checkpoint.SetFrame | src/checkpoint.ts:22-27 | `setCP` changes no other cell, in its own section or any other |
| Checkpoint.SetKeepsKeys | src/checkpoint.ts:24-25 | `setCP` creates the section when missing and keeps every other section and key |
| Checkpoint.SetOverwrite | src/checkpoint.ts:25 | of two writes to the same cell, the later one wins |
| Checkpoint.DisabledForgets | src/checkpoint.ts:8-18 | with no `CHECKPOINT_PATH` nothing is saved and every read gives the default |
| Checkpoint.StoreThenLoad | src/checkpoint.ts:7-32 | with a path set, the next `getCP` reads back what `setCP` wrote |
| Checkpoint.UnreadableIsReplaced | src/checkpoint.ts:9-14 | a checkpoint file that cannot be read or parsed is replaced by a document holding only the new cell |
| Checkpoint.Ledger.constructor | src/checkpoint.ts:3 | the ledger starts with the configured path and the stored file |
| Checkpoint.Ledger.SetCP | src/checkpoint.ts:22-27 | `setCP` loads the document, sets the cell and saves the whole document |
| Util.NonEmptyMembers | dist/util.js:21 | `.filter(Boolean)` keeps exactly the non-empty strings |
| Util.TrimAllMembers | dist/util.js:20 | the trimmed pieces are exactly the trims of the pieces |
| Util.OnlyTokensMembers | dist/util.js:17-23 | `onlyWants(key)` holds when there are no tokens. Otherwise it holds when the key is non-empty and is a trimmed piece of `ONLY`. |
| Util.OnlyWantsExactly | dist/util.js:17-23 | the same, stated on the raw pieces of `ONLY.split(",")` |
| Util.BlankPieces | dist/util.js:18-21 | a setting made only of commas and white space yields only empty pieces |
| Util.OnlyWantsAllWhenBlank | dist/util.js:18-22 | an unset, empty or blank `ONLY` wants every section |
| Util.OnlyWantsIgnoresEmptyTokens | dist/util.js:18-22 | `"a,,b"` selects exactly what `"a,b"` selects |
| Util.NdjsonLineIsOneLine | dist/util.js:11-13 | each record is written as its JSON text followed by a line feed. The JSON text holds no line feed and does not start with white space. |
| Util.AppendOnly | dist/util.js:11-13 | `ndjson` keeps the file's old contents as a prefix, adds exactly one line, and touches no other file |
| Util.AppendedAllContent | dist/util.js:11-13 | a batch of appends leaves the old contents followed by one line per record, in order, and leaves other files alone |
| Util.Sink.constructor | dist/util.js:8-10 | the sink starts with the given output files |
| Util.Sink.Append | dist/util.js:11-13 | `ndjson(path, obj)` appends one line to the named file |
| Catalog.ToLowerLowers | src/run.ts:48 | the lower-cased text holds no upper-case ASCII letter |
| Catalog.CanonicalCode | src/run.ts:48 | `toLowerCase().trim()` gives lower-case text, and applying it again changes nothing |
| Catalog.NormalizeLangCodeCanonical | src/run.ts:45-49 | a normalized code is lower case and trimmed, and it normalizes to itself |
| Catalog.PlainCode | src/run.ts:45-49 | a lower-case code such as "en" normalizes to itself |
| Catalog.BlankCode | src/run.ts:45-49 | a blank code normalizes to the empty code |
| Catalog.MatchThrows | src/run.ts:54-61 | `resourceMatchesLang` throws exactly when the resource is null or undefined, or one of its three code fields is truthy but not a string |
| Catalog.CodeMatchWins | src/run.ts:57-63 | a non-empty code field equal to the normalized target is a match |
| Catalog.OtherTargetsNeedCode | src/run.ts:63-72 | for targets other than "id", "en" and "ar", a resource matches exactly when one of its codes equals the target |
| Catalog.BlankTargetMatchesNothing | src/run.ts:55-72 | a blank target matches no resource |
| Catalog.CandidatesNonEmpty | src/run.ts:57-61 | `.filter(Boolean)` drops the empty code, so it is never a candidate |
| Catalog.Range | src/run.ts:75-77 | `range(n1, n2)` has `n2 - n1 + 1` elements, or none when `n2 < n1` |
| Catalog.RangeSpec | src/run.ts:75-77 | `range(n1, n2)` holds exactly the integers from `n1` to `n2`, increasing, first `n1` and last `n2` |
| Catalog.FilterMatchingThrows | src/run.ts:131 | the filter throws exactly when the match of some resource throws |
| Catalog.FilterMatchingKeeps | src/run.ts:131 | the filter keeps, in catalog order, exactly the resources that match, each as many times as it occurs in the catalog |
| Catalog.SelectAllUnchanged | src/run.ts:128-131 | mode "all" exports the catalog unchanged, with or without the fallback |
| Catalog.FallbackOnlyWhenEmpty | src/run.ts:479-489 | the fallback language changes the selection only in mode "fallback" when nothing matched the target. Any mode other than "all" and "fallback" behaves as strict. |
| Catalog.FallbackWhenEmpty | src/run.ts:479-489 | in mode "fallback" with no match for the target, the resources matching the fallback language are selected |
| Catalog.ExampleCandidates | src/run.ts:57-61 | the code candidates of two sample resources |
| Catalog.LanguageOnly | src/run.ts:57-61 | a resource whose only code field is `language`, holding a normalized code, has that code as its only candidate and no language name |
| Catalog.OneCodeMatch | src/run.ts:54-73 | for a resource whose only candidate is one code and which has no language name, a normalized target matches exactly when it equals that code |
| Catalog.ExampleMatches | src/run.ts:54-73 | an English resource matches "en" but not "fr". An Indonesian one matches neither. |
| ChapterList.PushRange | src/run.ts:696-698 | the range loop appends `lo..hi` to the list |
| ChapterList.PushToken | src/run.ts:691-703 | one token appends its chapters: a range, a single number, or nothing |
| ChapterList.ParseChapters | src/run.ts:686-707 | the parser loop computes the chapter list of `AUDIO_SEGMENTS_CHAPTERS` |
| ChapterList.BlankSettingIsEveryChapter | src/run.ts:686-688 | an empty or blank setting selects the 114 chapters 1 to 114 |
| ChapterList.RangeTokenSpec | src/run.ts:693-699 | a token "a-b" selects every chapter between `a` and `b`, in either order |
| ChapterList.DroppedTokens | src/run.ts:692-702 | a blank token, or a token without '-' that is not a number, selects nothing |
| ChapterList.CommaConcatenates | src/run.ts:690 | the list of "x,y" is the list of x followed by the list of y |
| Http.SettingDefaults | src/http.ts:45-46 | an unset or empty `MAX_RETRIES` gives 3 and `BACKOFF_BASE_MS` gives 500. A numeral gives its value. |
| Http.CacheWindow | src/http.ts:76-84 | a fetched token is reused exactly until its expiry time, and never when the refresh is forced |
| Http.DefaultLifetime | src/http.ts:83-84 | without `expires_in` a token lives 3600 - 60 seconds, which is 59 minutes |
| Http.ShortLivedNeverCached | src/http.ts:78-84 | a token with `expires_in` of 60 seconds or less is never reused |
| Http.InitKeepsCounters | src/http.ts:105-106 | the request interceptor sets absent counters to 0 and false, keeps present ones, and is idempotent |
| Http.RetryRun | src/http.ts:133-157 | with no 401 among the failures, a request already retried k times is re-issued once for each leading 5xx or network failure, until `MAX_RETRIES` retries in all: the number of re-issues is the smaller of that run's length and `MAX_RETRIES - k` |
| Http.CountersIndependent | src/http.ts:119-145 | a refresh changes only `__refreshed`, and a retry changes only `__retryCount` |
| Http.OneRefresh | src/http.ts:119-131 | after one refresh no failure refreshes again. A second 401 that is not a network error gives up. |
| Http.RetryCountCapped | src/http.ts:144-145 | the retry count never exceeds `MAX_RETRIES`, and at the cap only a refresh is left |
| Http.NaNMaxNeverRetries | src/http.ts:144 | when `MAX_RETRIES` is not a number, nothing is ever retried |
| Http.ReissueSpendsBudget | src/http.ts:119-158 | every re-issue (refresh or retry) uses up one unit of a finite budget, so the interceptor chain ends |
| Http.ReissueCounts | src/http.ts:119-149 | a refresh sets `__refreshed` on a config that was not yet refreshed and leaves the retry count. A retry adds exactly one to `__retryCount`, numbers the attempt with the new count (never above `MAX_RETRIES`) and leaves `__refreshed`. |
| Http.FreshBudget | src/http.ts:105-158 | a new request may be re-issued at most `MAX_RETRIES + 1` times: one refresh plus the retries |
| Http.DelayRange | src/http.ts:146-148 | retry n waits `BACKOFF_BASE_MS * 2^(n-1)` plus a jitter below 100 ms, and the base delay doubles with each retry |
| Http.RequestConfig.constructor | src/http.ts:105-106 | a new request config carries neither counter, so both read as absent |
| Http.RequestConfig.InitCounters | src/http.ts:104-107 | the request interceptor's update of the two counters |
| Http.Client.constructor | src/http.ts:45-50 | the client starts with the settings and an empty token cache |
| Http.Client.GetToken | src/http.ts:76-87 | `getToken(force)` returns the cached token on a hit and makes no call. Otherwise it makes exactly one call to the token endpoint. A success is cached and returned. A failure throws and leaves the cache unchanged. |
| Http.ReplayAppend | src/http.ts:119-157 | one more failure after an all-re-issued run is decided on the replayed counters; the counters become `After` that decision and the run's re-issues grow by one unless it gives up |
| Http.ReissueStep | src/http.ts:95-157 | across one re-issue the retry count, the refresh flag, the attempts sent, the delays waited and the budget left stay in step |
| Http.Client.Request | src/http.ts:95-170 | one request through both interceptors. It makes at most `MAX_RETRIES` retries, counted from the starting `__retryCount`, and retry n waits the backoff delay of retry n. A resolved request returns its last attempt's body. A rejected request returns its last attempt's failure, and that failure is one the interceptor gives up on (never one it would retry), or a 401 whose forced token call failed. A request with no token ends after a failed token call. attempts = retries + refresh + final attempt. Every attempt before the last failed, and the ghost list of those failures replays through `Decide`: each one was re-issued (`Reissues(c0, fails) == |fails|`) and the final counters are `Replayed(c0, fails)`. |
| Http.Client.Attempt | src/http.ts:95-157 | one attempt: the counters are initialised and a token fetched, then the transport answers. A failure goes to the response interceptor. A re-issue spends one unit of the budget, and a retry also adds one to `__retryCount` and waits its backoff delay. A rejection is a give-up or a failed refresh. A re-issue happens only when `transport(k)` failed and `Decide` on the initialised counters did not give up; the new counters are `After` that decision, and the delay is the one of its retry, if any. |
| Http.Client.Intercept | src/http.ts:111-169 | the error interceptor once: a give-up rejects and leaves the config counters alone. A refresh or a retry re-issues the request with the counters the decision sets. Only a retry waits, and it waits the backoff delay of its own attempt number. |
| Csv.PlainRoundTrip | src/import.ts:245-249 | a field that needs no quotes reads back as itself |
| Csv.QuotedRoundTrip | src/import.ts:247 | a quoted field with doubled quotes reads back as the original text |
| Csv.FieldRoundTrip | src/import.ts:243-249 | every encoded field reads back as its text, `String(v)` or "" for null and undefined |
| Csv.RowRoundTrip | src/import.ts:240-253 | an encoded row reads back as one RFC 4180 record holding the texts of its values |
| Csv.RowsRoundTrip | src/import.ts:240-253 | a sequence of encoded rows decodes back to the rows' texts, record by record |
| Csv.AsWrittenAgreesWithoutCarriageReturn | src/import.ts:246 | the encoder as written and the corrected one differ only on texts holding a carriage return |
| Csv.UnquotedVerbatim | src/import.ts:245-249 | a text without quote, comma or line break is written verbatim |
| Csv.NullishIsEmpty | src/import.ts:244 | null and undefined become an empty field |
| Csv.CarriageReturnBreaksRow | src/import.ts:246 | the encoder as written emits "a\rb" unquoted, and that row does not decode. The corrected encoder's row decodes back. |
| Loader.ProjectWidth | src/import.ts:21-230 | each projection yields as many values as its spec has columns, at least three |
| Loader.ColumnCount | src/import.ts:21-230 | every spec of the table is well formed, and mapping any non-null record gives a row of its column count |
| Loader.SpecsDistinct | src/import.ts:21-230 | no two specs load the same table or read the same file |
| Loader.MapsImportable | src/import.ts:21-230 | the specs of `maps` can be imported in turn: each is well formed, and no two load the same table |
| Loader.ChapterPages | src/import.ts:41-42 | `page_start` and `page_end` are the two entries of `pages`, or undefined when `pages` is falsy |
| Loader.TranslationRowFallbacks | src/import.ts:155-160 | in the translations row: `text` falls back to `body` and then null; `footnotes` is the JSON text of the footnotes or null |
| Loader.VersePageFallsBackOnZero | src/import.ts:82 | a `page_number` of 0 falls back to `v1_page` (`\|\|`, not `??`) |
| Loader.NonBlankMembers | src/import.ts:234-235 | `iterNDJSON` keeps exactly the lines that are not blank |
| Loader.PlannedRows | src/import.ts:295-312 | each row written has the spec's column count, and there are no more rows than lines |
| Loader.PlannedFails | src/import.ts:295-316 | the read stops early exactly when some line does not parse |
| Loader.SkippedRecord | src/import.ts:297-306 | a null record, whose `map` throws, is skipped and the loop goes on |
| Loader.Database.constructor | src/import.ts:359-360 | the connected database with its tables |
| Loader.Database.Copy | src/import.ts:271-277 | `COPY ... FORMAT csv` loads the decoded records when the text is whole records of the right width. Otherwise it fails and the table keeps its rows. |
| Loader.Database.ImportFile | src/import.ts:255-320 | a missing file is skipped and a failed TRUNCATE gives up, both leaving the tables alone. Otherwise the table holds exactly the texts of the rows written. The import is rejected exactly when some line did not parse. |
| Loader.Database.Load | src/import.ts:271-319 | after TRUNCATE, the table holds exactly the texts of the rows written, and the row count is reported |
| Loader.Database.ImportAll | src/import.ts:358-377 | the specs are imported in order: result j is what `importFile` reports for spec j. The table of every reached spec whose file is present and truncates holds exactly that file's planned rows, except the rejected one's when `client.end()` aborts its unfinished COPY: that table is left empty, as TRUNCATE left it. Whether closing aborts the COPY is a parameter. The loop stops right after the first rejected import and at no other point. Every other table keeps its rows. |
| Loader.Database.ImportEach | src/import.ts:362-372 | the loop of `main` over specs with distinct tables: result j is spec j's import outcome, a reached spec's table holds the planned rows its COPY stream was given, before the connection is closed, the loop stops right after the first rejection, and every other table keeps its rows |
| Loader.RejectedOnlyOnParseFailure | src/import.ts:255-320 | an import is rejected exactly when its file is present, TRUNCATE succeeds, and some line does not parse |
| Loader.WriteRows | src/import.ts:294-312 | the read loop writes the planned rows, as their CSV encoding, each of the spec's width |
| Normalizers.NormVerseShape | src/normalizers.ts:1-14 | `normVerse` throws exactly on null and undefined, and otherwise yields the ten verse fields in order |
| Normalizers.NormVerseCopiesKeys | src/normalizers.ts:3-6 | id, verse key, chapter id and verse number are copied unchanged |
| Normalizers.NormVerseCopiesText | src/normalizers.ts:8-12 | the hizb and rub numbers and both texts are copied unchanged |
| Normalizers.NormVerseJuz | src/normalizers.ts:7 | `juz_number ?? juz?.number`, where a 0 is kept |
| Normalizers.NormVersePage | src/normalizers.ts:10 | `v1_page ?? page_number` |
| Normalizers.WordRecordsSpec | src/normalizers.ts:16-35 | `normWords` yields one record per word up to the first null word, where it throws. It throws exactly when some word is null. |
| Normalizers.WordRecordFields | src/normalizers.ts:19-33 | a word record takes its verse fields from the verse and its own fields from the word, with `v1_page ?? page_number` |
| Normalizers.NoWordsWithoutArray | src/normalizers.ts:17 | a verse whose `words` is not an array yields nothing and does not throw |
| Normalizers.NormTranslationFields | src/normalizers.ts:37-46 | the resource id is kept. The fallbacks are `verse_key ?? aya ?? verse?.key` and `text ?? body`. Footnotes are never undefined: they default to null. |
| Normalizers.NormRecitationFields | src/normalizers.ts:48-57 | `name` becomes `reciter_name`, and the other five fields are copied |
| Sweep.WrittenContent | dist/util.js:11-13 | a run of appends leaves each file's old contents followed by the file's own records, in order |
| Sweep.WalkThrows | src/run.ts:116-118 | a record loop throws exactly when one of its items throws |
| Sweep.BatchItems | src/run.ts:218-221 | `xs \|\| []` with a `.length` test: a non-empty array or string is iterated item by item. A null, undefined or object with a truthy `length` cannot be iterated. |
| Sweep.Exporter.constructor | src/run.ts:104 | the run starts with the stored checkpoint, the output files, no request sent, and the budget |
| Sweep.Exporter.Get | src/run.ts:203-216 | `c.get` sends one request and returns the API's reply. An exhausted budget sends nothing. |
| Sweep.Exporter.Write | dist/util.js:11-13 | a run of `ndjson` calls, in order |
| Sweep.WalkWrite | src/run.ts:116-118 | `forEach(ndjson)`: the lines of the items before the first throw are written |
| Paged.ChapterKeysDiffer | src/run.ts:199-243 | a chapter's page key and done key differ, and the keys of two chapters differ |
| Paged.KeySplit | src/run.ts:227-243 | a key "ch_<n>_..." gives back its numeral and its suffix, so keys of different chapters cannot collide |
| Paged.WriteItem | src/run.ts:221-224 | one verse's record and its word records are appended |
| Paged.WritePage | src/run.ts:221-224 | the item loop of one page |
| Paged.SweepChapter | src/run.ts:199-243 | the page loop of one chapter |
| Paged.StartPageSpec | src/run.ts:199-200 | the loop starts at `Number(getCP(..., 1))`: page 1 when nothing is stored or checkpointing is off, otherwise the stored page |
| Paged.TurnSends | src/run.ts:203-216 | each turn sends the page's request and spends one unit of the budget |
| Paged.TurnCell | src/run.ts:227 | a turn leaves the page cell alone, or sets it to the page it fetched, and only once that page's records are written |
| Paged.TurnIgnoresStored | src/run.ts:202-241 | a turn does not read the checkpoint. Only its page cell write depends on the stored file. |
| Paged.ConsecutivePages | src/run.ts:202-240 | the loop requests the pages `page, page+1, ...` in order, one budget unit each |
| Paged.LastPage | src/run.ts:218-238 | the chapter completes after one request when the page is empty, or when it is written whole and either is at or past `total_pages` or has no `total_pages` |
| Paged.CommittedPage | src/run.ts:227 | the page cell ends as it was, or as a page that was requested and completed |
| Paged.ResumeRefetches | src/run.ts:199-227 | the cell records the last completed page, not the next one. A resumed sweep therefore starts at that page, which the sweep that wrote the cell had already requested, so it is requested again. |
| Paged.PagesIgnoreStored | src/run.ts:202-241 | once started, the loop's requests, records and outcome do not depend on the checkpoint |
| Paged.ChapterDoneNeverRead | src/run.ts:243 | the `ch_<n>_done` flag is never read: a chapter flagged done is swept again exactly as before |
| Scopes.ScopeSweep | src/run.ts:283-308 | one scope loop |
| Scopes.WantedSpec | src/run.ts:284-285 | the values fetched are exactly those not `<= last`, in order. With no last value, all are fetched. |
| Scopes.WantedIncreasing | src/run.ts:284-285 | for increasing scope values, the fetched values increase and lie above `last` |
| Scopes.ScopeRequestsSent | src/run.ts:284-293 | the loop sends a prefix of the requests of the fetched values, in order |
| Scopes.ScopeCellWritten | src/run.ts:295 | the scope cell ends as it was, or as a fetched value above `last` |
| Scopes.ScopeCellCompleted | src/run.ts:295 | a completed loop leaves the cell at the last value it fetched |
| Scopes.ScopeCellNeverDecreases | src/run.ts:285-295 | over increasing values, later values never lower the cell |
| Scopes.LastFromCell | src/run.ts:283 | `last` is `Number(getCP(..., 0))` |
| Scopes.NothingAboveTop | src/run.ts:285 | once the largest value is done, every value is skipped |
| Scopes.AllSkipped | src/run.ts:285 | nothing is fetched when every value is at or below `last` |
| Scopes.ResumeAfterCompletion | src/run.ts:283-295 | with checkpointing on, rerunning a completed scope sends nothing |
| Scopes.SweepJobs | src/run.ts:281-310 | the nested scope and kind loops, as a job list |
| Scopes.CrashStops | src/run.ts:383-386 | a job list holding a crash never completes |
| Scopes.ScriptKinds | src/run.ts:261-269 | the seven script kinds |
| Scopes.ScopesJobsOrder | src/run.ts:281-282 | job `7i + j` is kind `j` in scope `i`: scopes outside, kinds inside |
| Scopes.ScriptJobsOrder | src/run.ts:261-282 | there are 35 script jobs: the five scopes times the seven kinds, in the source's order |
| Scopes.ResourceJobsOrder | src/run.ts:383-384 | with no null resource, job `5r + k` is scope `k` of resource `r` |
| Scopes.ResourceJobsLength | src/run.ts:383-384 | each resource contributes five scope jobs |
| Scopes.NullResourceCrashes | src/run.ts:383-386 | a null or undefined resource makes the jobs crash when they reach it (`res.id`) |
| Scopes.SelectedSpec | src/run.ts:330-346 | a falsy catalog selects nothing, and an array is selected with the fallback. A truthy value that is neither an array nor a string throws. |
| Scopes.SingleSweeps | src/run.ts:383-458 | the single-translation loops, then the single-tafsir loops |
| Scopes.QuranSection | src/run.ts:260-465 | the quran section |
| Scopes.QuranSweeps | src/run.ts:281-464 | the script jobs, then the two catalogs and the single sweeps |
| Scopes.CatalogSweeps | src/run.ts:323-458 | the translations catalog request, then the tafsirs catalog and the single sweeps |
| Scopes.TafsirSweeps | src/run.ts:326-458 | the tafsirs catalog request, then the single sweeps over both selections |
| Audio.SweepReciters | src/run.ts:633-651 | the reciter loop |
| Audio.SweepRecitations | src/run.ts:625-651 | the recitations records, then the reciter loop |
| Audio.AudioSection | src/run.ts:623-655 | the audio section |
| Audio.FlagStaysSet | src/run.ts:648 | setting one done flag keeps every flag already set |
| Audio.AudioFilesRequestInjective | src/run.ts:640-648 | two reciters with the same audio-files request share their done key |
| Audio.DoneRecitersSkipped | src/run.ts:634-637 | the loop never asks for the audio files of a reciter flagged done |
| Audio.CompletedMarksAll | src/run.ts:633-651 | with checkpointing on, a completed loop flags every reciter done and keeps every flag already set |
| Audio.AllDoneSkipped | src/run.ts:634-637 | when every reciter is flagged done, the loop does nothing |
| Audio.RerunSendsNothing | src/run.ts:634-648 | with checkpointing on, rerunning after completion sends no request |
| Audio.CompletedHasNoNull | src/run.ts:633-634 | a loop that completes met no null reciter |
| Audio.CatalogThrows | src/run.ts:628-630 | writing the recitations catalog throws exactly when one of the entries is null |
| Audio.WalkRecitations | src/run.ts:628-630 | without null entries, every recitation is written normalized, in order |
| Audio.RecFilter | src/run.ts:676-680 | the reciter filter holds one number, or NaN, per non-empty token |
| Audio.FilterRecitersSpec | src/run.ts:681-683 | the filter throws exactly on a null reciter. Otherwise it keeps exactly the reciters whose `Number(id)` was asked for. |
| Audio.PairsSpec | src/run.ts:710-711 | the nested loop visits every (reciter, chapter) pair and nothing else: `\|reciters\| * \|chapters\|` turns |
| Audio.AsWrittenNeverFetches | src/run.ts:725-728 | as written, the pair loop sends no request and writes nothing. It completes only when every pair is already flagged done; otherwise it throws. |
| Audio.AsWrittenThrowsAtFirstPair | src/run.ts:725-728 | as written, reciter 7 with chapter 1 on a fresh run throws before any request |
| Audio.SegmentsOf | src/run.ts:736-745 | a reply with timestamps has a truthy audio-file id and a non-empty list of items |
| Audio.SweepPairs | src/run.ts:710-773 | the pair loop, with the timestamps route in place |
| Audio.SegmentsFetch | src/run.ts:667-777 | the enabled segments section: the recitations catalog, the reciter filter and the pair loop |
| Audio.SegmentsSection | src/run.ts:658-778 | the segments section |
| Audio.SegmentRecords | src/run.ts:755-764 | with every item's word segments available, the loop writes one verse-timestamp record per item and the word segments of every item, in order |
| Audio.PairsFromSends | src/run.ts:710-734 | the pair loop only adds requests, each the timestamps request of one of its pairs |
| Audio.FirstPendingFetched | src/run.ts:712-734 | the first pair not flagged done is requested first |
| Audio.SegmentFlagStaysSet | src/run.ts:750-766 | setting a pair's flag keeps every pair flag already set |
| Audio.SegmentMarked | src/run.ts:750-766 | marking a pair flags it done exactly when checkpointing is on |
| Audio.PairsCompletedMarksAll | src/run.ts:710-773 | with checkpointing on, a completed loop flags every pair done and keeps every flag already set |
| Audio.PairsAllDoneSkipped | src/run.ts:712-723 | when every pair is flagged done, the loop does nothing |
| Audio.PairsRerunSendsNothing | src/run.ts:712-723 | with checkpointing on, rerunning after completion sends no request |
| Audio.SegmentRequestInjective | src/run.ts:710-733 | two pairs with the same segments request have the same done flag |
| Audio.DonePairsSkipped | src/run.ts:710-733 | a pair already flagged `rec_<id>_ch_<n>_done` gets no request from the pair loop, which only appends to what was sent |
| Audio.NoTimestampsMarked | src/run.ts:741-753 | a reply without timestamps writes nothing, flags the pair done, and the loop goes on |
| Sections.FetchPart | src/run.ts:113-118 | one catalog: request it and write its entries |
| Sections.ResourcesSection | src/run.ts:107-168 | the four catalogs in turn |
| Sections.PartsNotCheckpointed | src/run.ts:107-168 | the resources section writes no checkpoint. It sends the catalog requests of a prefix of its parts, in order, one budget unit each. |
| Sections.FilteredPartSpec | src/run.ts:128-149 | outside mode "all", the translation and tafsir catalogs are filtered by the target language, and the filter throws exactly when a match throws |
| Sections.InfoRecord | src/run.ts:184-187 | the record is `inf.data?.chapter` when truthy, and `{chapter_id: ch.id}` otherwise |
| Sections.FetchInfos | src/run.ts:179-189 | the info loop |
| Sections.ChaptersSection | src/run.ts:171-192 | the chapters section |
| Sections.InfosCompleted | src/run.ts:179-189 | a completed info loop sends one info request per chapter, in order, writes one info record each, and writes no checkpoint |
| Sections.InfosCompletedNoFailure | src/run.ts:179-189 | a completed info loop met no null chapter and no failed request |
| Sections.JuzList | src/run.ts:253 | `r.data?.juzs \|\| r.data \|\| []` |
| Sections.JuzSection | src/run.ts:250-257 | the juz section |
| Sections.JuzArrayReply | src/run.ts:252-255 | a reply that is a bare array writes each of its entries, in order |
| Sections.SweepChapters | src/run.ts:196-245 | the chapter loop of the verses section |
| Sections.VersesSection | src/run.ts:195-247 | the verses section |
| Sections.ChapterKeepsFlag | src/run.ts:227-243 | a chapter's sweep keeps every flag that is not its page cell |
| Sections.JobsKeepFlag | src/run.ts:227-243 | a run of chapter sweeps keeps every flag that is none of their page cells |
| Sections.JobsMarkChapters | src/run.ts:243 | with checkpointing on, completed chapter sweeps flag each of their chapters done |
| Sections.VersesMarkAll | src/run.ts:196-243 | with checkpointing on, a completed verses sweep flags `ch_<s>_done` for every chapter swept |
| Sections.AllChaptersSpec | src/run.ts:196 | the verses section sweeps the chapters 1 to 114 |
| Sections.FamilyIsNoPageSection | src/run.ts:505-539 | the resource done flags live in a section apart from the page cells |
| Sections.SweepResources | src/run.ts:497-541 | the resource loop of the translations or tafsirs section |
| Sections.SweepResource | src/run.ts:497-540 | one resource: a null or undefined one throws at `res.id`. Otherwise its chapters are swept, and when they complete the resource done flag is set. |
| Sections.TextsSweep | src/run.ts:474-541 | the catalog, the selection and the resource loop |
| Sections.TextsSection | src/run.ts:468-545 | the translations or tafsirs section |
| Sections.TextsMarkResources | src/run.ts:539 | with checkpointing on, a completed resource loop flags `res_<id>_done` for every resource and keeps every flag already set |
| Sections.TextsRefetch | src/run.ts:497-539 | `res_<id>_done` is never read, so a rerun requests the first resource again |
| Sections.RunSection | src/run.ts:107-778 | one section of the run |
| Sections.Run | src/run.ts:79-791 | the body of `run()`: each section in turn, when wanted |
| Sections.UnwantedSkipped | src/run.ts:107-778 | sections the selection does not want do nothing |
| Sections.SoleSection | src/run.ts:107-778 | when a single section is wanted, the run is that section alone |
| Sections.JuzTokens | dist/util.js:17-23 | `ONLY=juz` yields the single token "juz" |
| Sections.SegmentsGate | src/run.ts:658-666 | the segments section runs exactly when `AUDIO_SEGMENTS` is "true" in any case. `ONLY=audio` alone does not run it. |

## Left out

- Termination: every request spends one unit of a request budget, and a sweep whose budget runs out stops with the outcome `Exhausted`. The source has no such bound. Its loops end only because the API eventually returns an empty page or reaches `total_pages`.
- Numbers: `Json.Value` holds integers only. `Number(v)` is `Option<int>`, with None for NaN, and reads only optionally signed decimal numerals. Floating point, exponents and the other numeral forms of JavaScript are not modelled.
- `JSON.parse`: a parameter in the loader (None for a line that does not parse) and part of the API oracle in the exporter. `JSON.stringify` is modelled (`Json.Ser`). The indented form `saveCP` writes is modelled as the document itself.
- Endpoint paths: `path.replace("{x}", String(v))` is modelled as string concatenation of the path pieces. `src/endpoints.ts` is taken as fixed data, and only the paths the core uses are spelled out.
- API client in the exporter: the run sees the API as an oracle from requests to replies. A `Failed` reply stands for the client giving up after its retries, which `Http.Client.Request` models on its own. The headers, `baseURL` and the singleton `instance` are not modelled.
- Http.Client.Request: the token endpoint, the transport, the clock and the jitter (`Math.random`) are oracles indexed by call or attempt number. `sleep` is not modelled; only its delays are returned.
- Http.Client.Request: when `getToken` throws inside the request interceptor, axios hands that error to the response interceptor, which sees the token call's own config and status. On a 401 from the token endpoint it calls `getToken(true)` a second time. The model ends the request with `NoToken` after the one failed token call.
- The logger, the heartbeat, the `progress` counters and `sleep(SLEEP_MS)` between requests have no effect on the exported data and are not modelled.
- `normVerseTimestamps` and `normWordSegments` are imported by `src/run.ts` (lines 14-20) but not exported by `src/normalizers.ts`. TypeScript reports the missing exports, and as an ES module `src/run.ts` would fail to link before `run()` starts. The model assumes the module loads and takes the two as parameters of the segments sweep (`Audio.SegmentCodec`).
- Audio.SweepPairs: runs the corrected pair loop `Audio.PairsFrom`, which requests the route `/chapter_recitations/<id>/<chapter>`. As written, the source throws at the first pair not flagged done (see Findings; `Audio.PairsFromAsWritten` models that).
- Audio.SegmentsFetch: its pair loop is the corrected `Audio.PairsFrom`, not the loop as written.
- Audio.SegmentsSection: models the corrected segments section. As written, an enabled section with a pending pair throws before any segments request.
- Sections.RunSection: the segments section it runs is the corrected one.
- Sections.Run: on the segments path the run uses the corrected pair loop. The source throws at the first pair not flagged done, and its top-level `catch` ends the run.
- Checkpoint.Ledger.SetCP: the stored file is absent, unreadable or an object whose sections are objects. A file that parses to something else is not modelled. For `null`, `setCP` throws when it reads the section (src/checkpoint.ts:24). For a top-level array, the new section is a property that `JSON.stringify` drops, so nothing is remembered. A section holding a non-empty string or a non-zero number stays as it is, and setting a key on it throws, since ES modules run in strict mode (src/checkpoint.ts:25). `getCP` does not throw on any of these, as it reads through optional chaining.
- Json.Value: object keys are kept in insertion order. JavaScript lists integer-like keys first, in ascending order. `{resource_id: id, ...x}` (`Json.SpreadAfter`) and `JSON.stringify` (`Json.Ser`) therefore differ from JavaScript on objects with such keys; the API records the core handles use no such keys.
- Json.SpreadAfter: states that `resource_id` comes first, which holds in JavaScript only when `x` has no integer-like keys. It also treats a spread string or array like any other non-object, which spreads nothing. In JavaScript those contribute their index properties: spreading the string `"ab"` adds `"0": "a"` and `"1": "b"` before `resource_id`. The records passed to the spread at src/run.ts:519 are the API's objects, so only a malformed reply would reach that case.
- The nested reciter × chapter loop of the segments sweep is run over the flattened list `Audio.Pairs`. `Audio.PairsSpec` proves that list visits the same pairs in the same order.
- The four straight-line catalog blocks of the resources section are modelled as one loop over a list of four parts (`Sections.ResourceParts`).
- Sections.Run: the top-level `catch` that logs and calls `process.exit(1)` is modelled as the outcome `Threw`.
- Concurrency: `p-limit` and `CONCURRENCY` are declared in `dist/util.js` but unused by the core. Every request is awaited in turn, as the model does.
- The search section is commented out in the source and is not modelled.
- Loader.Database.ImportAll: after a rejected import, `main` closes the connection while that COPY may still be pending (src/import.ts:364-375). Whether the rows streamed before the bad line are committed depends on the PostgreSQL client library, which is not part of this model. The model leaves it to the parameter `endAbortsCopy`.
- The loader's PostgreSQL connection, `DATABASE_URL` check, `console` output and `process.exit` are not modelled. COPY back-pressure (`drain`) is not modelled either, since the source does not wait for it.
- Loader.Database.ImportFile: `TRUNCATE ... CASCADE` empties only the spec's own table here. The tables referencing it are not modelled, because the schema is not part of the repository. A table holds the field texts; PostgreSQL's conversion of the texts to column types, and NULL for an empty unquoted field, are not modelled.
- Loader.Database.ImportFile: the rows are encoded with the corrected CSV encoder (see Findings), so a field holding `\r` is quoted and COPY's rejection of the row the source writes is not modelled.
- Loader.Database.Load: encodes the rows with the corrected `Csv.EncodeRow`, which also quotes `\r` (see Findings).
- Loader.WriteRows: `data` is the rows' encoding under the corrected `Csv.EncodeRow`, not the encoding of `toCSVRow` as written (see Findings).
- Text.ToLower: lower-cases the ASCII letters only. The full Unicode case mapping of `toLowerCase` is not modelled; the language codes and settings it is applied to are ASCII.
- `fs.existsSync` and `readFileSync` become membership in, and lookup of, a map from file name to text. An I/O error while reading is not modelled.

## Findings

| source | as written | input that shows it | evidently intended | confidence | as-written member | corrected member |
|---|---|---|---|---|---|---|
| src/import.ts:246 | `toCSVRow` quotes a field only when it holds `"`, `,` or `\n`. A carriage return goes out unquoted. | a record whose text field is `"a\rb"`: the row `a\rb\n` is not a record under section 2 of RFC 4180, and PostgreSQL's CSV COPY rejects an unquoted carriage return | also quote fields holding `\r` | not executed | Csv.CarriageReturnBreaksRow | Csv.RowsRoundTrip |
| src/run.ts:725-728 | the segments sweep reads `Audio.chapterAudioTimestamps.path`, but the `Audio` table of src/endpoints.ts:167-174 has no such entry. Reading `.path` of undefined throws at the first pair not flagged done, before any request. This assumes the module loads at all: `src/run.ts:14-20` imports `normVerseTimestamps` and `normWordSegments`, which `src/normalizers.ts` does not export, so an ES module build fails to link first. | `AUDIO_SEGMENTS=true`, no checkpoint, one reciter `{id: 7}`, chapter 1 | a `chapterAudioTimestamps` route `/chapter_recitations/{recitation_id}/{chapter_number}`, asked with `segments=true` | not executed | Audio.AsWrittenThrowsAtFirstPair | Audio.PairsRerunSendsNothing |

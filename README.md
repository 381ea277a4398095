# WebDictation speech and word-table core in Dafny

WebDictation is a dictation web application. Its server synthesises speech for Chinese words with
Edge TTS. It caches the clips in memory and on disk, and merges batches of words into one file with sox.
It limits speech requests per session and keeps the word lists of each (grade, lesson) in an Excel
workbook. This project models that server core and proves its behaviour:

- `EdgeTts` (edge_tts.dfy) models `EdgeTTSService`:
  - the rate clamp, the cache key and the backend's rate string;
  - the class `EdgeTtsService`, whose memory tier `cache` and file tier `files` are maps updated by
    `GenerateAudio`;
  - the voice list, cached for an hour with a stale fallback when the fetch fails.
- `Concurrency` (concurrency.dfy) models `ConcurrencyMiddleware`:
  - the request classifier `RouteOf`;
  - the session table `activeSessions`, swept by a loop in `CleanupExpiredSessions`;
  - the refresh, insert and remove steps of `Dispatch`, and `GetStatus`.
- `Factory` (tts_factory.dfy) models `TTSFactory`: a registry with at most one service, under "edge-tts".
- `TtsEndpoints` (tts_endpoints.dfy) models `generate_batch_speech` and `generate_speech`:
  - the nested loops that build the sox segment list, specified by the function `Layout`;
  - the per-word temporary files;
  - the error paths, each wrapped into an HTTP 500.
- `TtsRouter` (check_cache.dfy) models `check_cache`: one `try` per word, collecting the failed words.
- `WordTable` (word_table.dfy) models `FileService`:
  - the class `FileService`, which keeps the table cache and the lesson cache;
  - the class `Workbook`, the Excel file: whether it exists, its rows, its modification time and
    whether it can be written;
  - the functions `WordsFor`, `LessonsOf` and `Upserted`, which specify `get_words`, `read_lessons`
    and `add_words`.
- `Text` (text.dfy) defines the Python string behaviour the code relies on:
  - `str.strip`, `str.split`, `str.join`, `str(int)`;
  - the repr of a float with two decimals;
  - `sorted` on strings.
- `Order` (order.dfy) defines sorting a set by a strict total order.
- `Settings` (settings.dfy) holds the configured constants. `Wrappers` (wrappers.dfy) holds `Option`,
  the exceptions and `Outcome` (a value returned or an exception raised).

Conventions of the model:

- Rates and repeat intervals are integer hundredths: 100 stands for 1.0.
- Times are integer seconds, passed in by the caller.
- The speech backend, `os.system`, Python's `hash` and `_is_cached` are function parameters.
- md5 is an uninterpreted function, so no proof relies on it being collision-free.

Things the model makes visible, all as the code is written:

- Below normal speed the backend receives a rate string such as "+-50%" for rate 0.5 (`EdgeTts.ClampedRateString`).
  Whether Edge TTS accepts it depends on the `edge_tts` library, which is not part of this model.
- `communicate.save` opens the output file before it streams audio. A save that raises can
  therefore leave a partial file under the key, and the next request returns that file as audio
  (`EdgeTts.PartialSaveIsServedNext`).
- `check_cache` builds its key from the rate as sent. `generate_audio` clamps the rate before keying.
  For rates outside [0.5, 2.0] the two hashed strings differ (`TtsRouter.UnclampedKeyTextDiffers`).
- `check_cache` calls `_is_cached`, which `EdgeTTSService` does not define. It is a parameter that
  either answers or raises.
- The batch endpoint puts a silence after every repeat, including the last repeat of the last word
  (`TtsEndpoints.LastIsSilence`).
- `get_words` strips the key columns of the cached table in place, so the cache keeps stripped keys
  (`WordTable.FileService.GetWords`).

## Model

| member | source | states |
|---|---|---|
| EdgeTts.ClampRate | src/services/tts/edge_tts.py:46 | the clamped rate lies in [0.5, 2.0], equals the input when the input is in range, and is the nearest point of the range |
| EdgeTts.KeyText | src/services/tts/edge_tts.py:20-22 | the string hashed into a cache key: text, "_", voice, "_", and the repr of the rate as a float (`Text.DecimalRepr`); `KeyTextDeterminesRate` proves the rate can be read back from it |
| EdgeTts.CacheKey | src/services/tts/edge_tts.py:20-22 | `_get_cache_key`: the md5 hex digest of `KeyText`; nothing is assumed about md5 collisions |
| EdgeTts.RateString | src/services/tts/edge_tts.py:73 | the rate argument f"+{int((rate - 1) * 100)}%", with the offset in whole percent; `ClampedRateString` gives its range after clamping |
| EdgeTts.ClampIdempotent | src/services/tts/edge_tts.py:46 | clamping twice is clamping once |
| EdgeTts.KeyTextDeterminesRate | src/services/tts/edge_tts.py:20-22 | for a fixed text and voice, the string hashed into the key determines the rate |
| EdgeTts.ClampedRatesShareKey | src/services/tts/edge_tts.py:46-49 | two rates both at or below 0.5, or both at or above 2.0, share one cache key |
| EdgeTts.ClampedRateString | src/services/tts/edge_tts.py:73 | after clamping, the offset lies in -50..100, and a negative offset gives a "+-NN%" string |
| EdgeTts.VoiceRecords | src/services/tts/edge_tts.py:112-119 | one {name, locale, gender} record per backend voice, in order; None exactly when some entry lacks a field |
| EdgeTts.Served | src/services/tts/edge_tts.py:51-92 | the clip `generate_audio` yields: the memory tier's, else the file tier's, else the saved bytes; None exactly when both tiers miss and the save raised |
| EdgeTts.CacheAfterServed | src/services/tts/edge_tts.py:51-92 | after one `generate_audio` call the memory tier is the tier before with the returned clip stored under the key, and is unchanged when the call returns None; no other entry changes |
| EdgeTts.FilesAfterWrites | src/services/tts/edge_tts.py:57-92 | after one call the file tier has an entry under the key exactly when it had one, or when the memory tier missed and the save wrote something: the saved bytes, or the part a failed save left. No other entry changes |
| EdgeTts.TiersStepGrows | src/services/tts/edge_tts.py:51-92 | one call: neither tier loses an entry, and both gain one only under that call's key |
| EdgeTts.KeysFor | src/services/tts/edge_tts.py:46-49 | the keys of the first n texts of a run at one voice and rate: each of those texts' keys is in the set, and every key in it is the key of one of them |
| EdgeTts.TiersRunGrows | src/services/tts/edge_tts.py:51-92 | over any run of calls, neither tier loses an entry, and both gain entries only under the keys of the texts run |
| EdgeTts.TiersRunPrefix | src/services/tts/edge_tts.py:51-92 | the tiers after a run depend only on the texts run so far, not on the ones after them |
| EdgeTts.TiersAfterGrows | src/services/tts/edge_tts.py:46-92 | over a run at one voice and rate, neither tier loses an entry, and both gain entries only under `KeysFor` of the texts run |
| EdgeTts.TiersAfterSnoc | src/services/tts/edge_tts.py:46-92 | appending a text to a run adds one `generate_audio` call, for that text, after the others |
| EdgeTts.EdgeTtsService.constructor | src/services/tts/edge_tts.py:10-18 | empty memory cache, the file tier as found on disk, no voice list |
| EdgeTts.EdgeTtsService.GenerateAudio | src/services/tts/edge_tts.py:41-92 | the three cases, in order. A memory hit returns the stored bytes and changes nothing. A file hit copies the file's bytes into memory and returns them. The backend is called exactly when both tiers miss: a save sets both tiers to the bytes; a failure returns None, leaves memory unchanged and keeps any partial file. The result is `Served` of the tiers before the call, and the tiers afterwards are `TiersStep` of the tiers before and the backend's outcome for this request. Neither tier loses an entry, and neither gains one under any key but this request's. The voice list is untouched |
| EdgeTts.EdgeTtsService.GetAvailableVoices | src/services/tts/edge_tts.py:101-134 | a list younger than 3600 s is returned without a fetch. A good fetch replaces the list and stamps it with the request time. A failed fetch returns the stale list, or [] when there is none |
| EdgeTts.RepeatIsServedFromMemory | src/services/tts/edge_tts.py:49-87 | a second request at a rate that clamps alike returns the first call's bytes without asking the backend |
| EdgeTts.PartialSaveIsServedNext | src/services/tts/edge_tts.py:57-92 | a save that raised after writing part of the file makes the next request return that part as audio, without a backend call |
| Factory.TtsFactory.constructor | src/services/tts_factory.py:5 | the registry starts empty |
| Factory.TtsFactory.GetTtsService | src/services/tts_factory.py:21-30 | a registered engine returns its instance. The first "edge-tts" call registers a fresh service. "web-speech" returns None. Any other engine raises ValueError. The last two leave the registry unchanged, and the registry never holds a key other than "edge-tts" |
| Factory.SameInstanceTwice | src/services/tts_factory.py:21-30 | two "edge-tts" lookups return one and the same instance |
| Concurrency.ControlledExactly | src/middleware/concurrency.py:68-109 | a request is session-controlled exactly when it is POST on "/api/tts" |
| Concurrency.RouteOf | src/middleware/concurrency.py:68-78 | how `dispatch` classifies a request: whitelisted path, static prefix, then "/api/" paths, of which only POST "/api/tts" is controlled; `ControlledExactly` states the controlled class |
| Concurrency.Sweep | src/middleware/concurrency.py:35-45 | the session table after `_cleanup_expired_sessions`: the sessions idle for at most the timeout, with their timestamps |
| Concurrency.SweepAbsorbs | src/middleware/concurrency.py:35-45 | sweeping at n1 and then at a later n2 equals sweeping once at n2 |
| Concurrency.StatusOf | src/middleware/concurrency.py:50-54 | currentConcurrency is the table size and maxConcurrency the bound; waiting is never negative, is positive exactly when the table exceeds the bound, and is then the excess |
| Concurrency.ConcurrencyMiddleware.constructor | src/middleware/concurrency.py:8-22 | the configured bound and timeout, and an empty session table |
| Concurrency.ConcurrencyMiddleware.CleanupExpiredSessions | src/middleware/concurrency.py:35-45 | removes exactly the sessions idle for more than the timeout; the remaining keep their timestamps |
| Concurrency.ConcurrencyMiddleware.GetStatus | src/middleware/concurrency.py:47-54 | sweeps, then reports the counts of the swept table |
| Concurrency.ConcurrencyMiddleware.Dispatch | src/middleware/concurrency.py:56-109 | uncontrolled requests pass through with the table unchanged. A controlled request without a session ID gets 400 and the table is unchanged. Otherwise the table is swept, and the session is refreshed or inserted with the second time reading. A new session whose downstream call raises is removed again |
| Concurrency.SuccessKeepsSession | src/middleware/concurrency.py:84-99 | after a successful controlled request its session is present, stamped now; every other session present was there before with the same timestamp |
| Concurrency.FailureRemovesNewSession | src/middleware/concurrency.py:93-105 | a new session whose request raises is absent afterwards; the table equals the swept table |
| TtsEndpoints.EffectiveVoice | src/api/endpoints/tts.py:39 | the request's voice when non-empty, else the engine's configured default ("zh-CN-XiaoxiaoNeural" for edge-tts) |
| TtsEndpoints.SegmentPath | src/api/endpoints/tts.py:59 | a word's temporary file: `<tmp>/web_dictation_batch/<hash(word)>.mp3` |
| TtsEndpoints.OutputPath | src/api/endpoints/tts.py:42-44 | the merged file: `<tmp>/web_dictation_batch/dictation_<hash(joined words)>.mp3` |
| TtsEndpoints.Paths | src/api/endpoints/tts.py:59 | one temporary file path per word, in word order |
| TtsEndpoints.Repeats | src/api/endpoints/tts.py:63-67 | a word's block has n units of 2 segments when the interval is positive, else 1 |
| TtsEndpoints.Layout | src/api/endpoints/tts.py:47-67 | the segment list of a batch: each word's repeat block in word order; `LayoutLength` and `LayoutBlock` give its length and where each block sits |
| TtsEndpoints.Command | src/api/endpoints/tts.py:70 | the sox command: "sox", the segments joined by spaces, and the quoted output path |
| TtsEndpoints.RepeatsShape | src/api/endpoints/tts.py:63-67 | in a word's block every unit starts with the path, followed by a silence token iff the interval is positive |
| TtsEndpoints.LayoutLength | src/api/endpoints/tts.py:48-67 | the segment list has len(words) * max(0, repeatCount) * (2 if repeatInterval > 0 else 1) entries |
| TtsEndpoints.LayoutBlock | src/api/endpoints/tts.py:48-67 | word i's block occupies offsets i*B up to (i+1)*B, so word order is preserved |
| TtsEndpoints.LastIsSilence | src/api/endpoints/tts.py:63-67 | with a positive count and interval, the list ends with a silence token |
| TtsEndpoints.AllCachedGrows | src/services/tts/edge_tts.py:60-81 | once a word's clip is cached, every clip cached for the earlier words is still there and the new one joins them |
| TtsEndpoints.BatchStep | src/api/endpoints/tts.py:58-67 | one more word extends the segment list by its block and the temporary directory by its file |
| TtsEndpoints.AppendRepeats | src/api/endpoints/tts.py:63-67 | the repeat loop appends exactly the word's block |
| TtsEndpoints.Tried | src/api/endpoints/tts.py:48-56 | how many words of a batch reached `generate_audio`: all of them, or the words that yielded a clip and the one the loop stopped at |
| TtsEndpoints.SynthesizeNext | src/api/endpoints/tts.py:50-54 | the clip for the next word is `Served` of the service's tiers before the call, so no clip means both tiers missed and the save raised. The tiers afterwards are `TiersStep` of the tiers before, so from the tiers before the batch they are those after one `generate_audio` call per word so far (`TiersAfter`). A clip returned is cached under the word's key, beside the earlier clips; no clip leaves memory unchanged. No tier loses an entry or gains one under another key, and the voice list is untouched |
| TtsEndpoints.SynthesizeWords | src/api/endpoints/tts.py:48-67 | the word loop stops only at a word whose key was in neither tier before the loop and whose save raised. The clips obtained are cached and written to their files in order. The tiers afterwards are those after one `generate_audio` call for each word tried, in order (`TiersAfter`). Memory gains entries only under the keys of the words that yielded a clip, the file tier also under the key of the word the loop stopped at, no tier loses an entry, and the voice list is untouched. When every word succeeds, the segment list is `Layout` of the word paths |
| TtsEndpoints.BatchWithService | src/api/endpoints/tts.py:46-80 | with a service in hand: a failing word (in neither tier, save raised) ends the batch with a 500 naming it and no merge. The tiers afterwards are those after one `generate_audio` call per word tried; memory gains entries only under the keys of the words that yielded a clip and the file tier also under the failing word's, no tier loses one, and the voice list is untouched. Otherwise the sox command over `Layout` is run and its status decides between the file response and "合并音频失败" |
| TtsEndpoints.GenerateBatchSpeech | src/api/endpoints/tts.py:29-83 | every error is a 500. web-speech gives the wrapped 400 and an unknown engine the wrapped ValueError, both leaving the registry unchanged. For edge-tts the registered service is used with its tiers and voice list as they were, or a new one starting from an empty memory tier, the files on disk and no voice list. A word fails the batch, and is named, only when its key is in neither tier and its save raised. From those initial tiers, the tiers afterwards are those after one `generate_audio` call per word tried: memory gains entries only under the keys of the words that yielded a clip, the file tier also under the failing word's, neither loses an entry, and the voice list is kept. Otherwise the sox command over the full segment list is run: status 0 returns the file "dictation_<n>words.mp3", anything else gives "合并音频失败" |
| TtsEndpoints.GenerateSpeech | src/api/endpoints/tts.py:85-117 | the audio is `Served` of the registered service's tiers (a new service: empty memory, the files on disk) and the backend's outcome, and the tiers afterwards are `TiersStep` of those tiers. When there is audio, the bytes are returned unchanged and are cached under the key. No audio gives a 500 "生成语音失败" and leaves memory as it was. Memory and files lose no entry and gain entries only under this request's key, and the voice list is kept. Engine errors are wrapped as in the batch endpoint and leave the registry unchanged |
| TtsRouter.NoFailuresIff | src/routers/tts.py:25-38 | ready holds exactly when no word's check raised |
| TtsRouter.FailedWords | src/routers/tts.py:25-33 | the words, in request order and with repetitions, whose `try` raised; `NoFailuresIff`, `FailedCount` and `FailedFromRequest` state its properties |
| TtsRouter.GeneratedWords | src/routers/tts.py:25-33 | the words, in request order, passed to `generate_audio`; `GeneratedOnlyUncached` and `NoServiceFailsAll` state its properties |
| TtsRouter.FailedCount | src/routers/tts.py:25-33 | each failing word is reported as often as it occurs in the request, and other words never |
| TtsRouter.FailedFromRequest | src/routers/tts.py:25-33 | the failed words are no more than the request's words and are all taken from it |
| TtsRouter.NoServiceFailsAll | src/routers/tts.py:22-33 | without a service object (web-speech) every word fails and nothing is generated |
| TtsRouter.GeneratedOnlyUncached | src/routers/tts.py:28-31 | a word reported cached, or whose check raised, is never generated |
| TtsRouter.UnclampedKeyTextDiffers | src/routers/tts.py:28 | for a rate outside [0.5, 2.0] the string hashed here differs from the one generate_audio hashes |
| TtsRouter.WordsStep | src/routers/tts.py:25-33 | one more word adds itself to the failed words exactly when its check raises, and to the generated words exactly when it is reported not cached |
| TtsRouter.CheckedTiersRun | src/routers/tts.py:25-31 | the tiers after the loop's first n words are the tiers after one `generate_audio` call per generated word among them, in order |
| TtsRouter.CheckStep | src/routers/tts.py:25-33 | one more word, with or without a `generate_audio` call, keeps the loop's tiers equal to `CheckedTiers` and keeps every saved generated word in memory |
| TtsRouter.CheckWord | src/routers/tts.py:26-33 | one word's try raises exactly when there is no service or `_is_cached` raises; generation happens exactly when the key is reported not cached. Without generation the service's tiers are unchanged; with it, the tiers are `TiersStep` of the tiers before, and the word's key is in memory afterwards exactly when `generate_audio` produced a clip. No tier loses an entry, neither gains one under any key but the word's, and the voice list is untouched |
| TtsRouter.CheckNext | src/routers/tts.py:25-33 | one iteration of the loop: the failed and generated words grow as the word's outcome says, the tiers stay `CheckedTiers` of the words so far, and the voice list is untouched |
| TtsRouter.CheckWords | src/routers/tts.py:23-33 | the loop gives `FailedWords` and `GeneratedWords`. The service's tiers afterwards are those after one `generate_audio` call per generated word, in order (`TiersAfter`): neither tier loses an entry, and both gain entries only under the keys of the generated words. The service is unchanged when nothing was generated, every generated word whose save succeeded has an entry under its key in memory, and the voice list is untouched |
| TtsRouter.CheckCache | src/routers/tts.py:19-41 | an unknown engine gives a 500 carrying the ValueError. Otherwise failed_words lists, in order, the words whose check raised, ready is that list being empty, and generation is asked exactly for the words reported not cached. Engines other than edge-tts leave the registry unchanged. For edge-tts, starting from the registered tiers (a new service: empty memory, the files on disk), the tiers afterwards are those after one `generate_audio` call per generated word, in order: neither tier loses an entry and both gain entries only under the keys of the generated words. The service is untouched when nothing was generated, every generated word whose save succeeded has an entry under its key in memory, and the voice list is kept (a new service: none) |
| WordTable.Pieces | src/services/file_service.py:133 | splitting a cell on ',' gives at least one piece |
| WordTable.StripKeys | src/services/file_service.py:118-119 | every row's grade and lesson are stripped and its words cell is kept |
| WordTable.StripKeysIdempotent | src/services/file_service.py:118-119 | stripping the keys twice is stripping them once |
| WordTable.MatchingRows | src/services/file_service.py:123 | the rows of the filtered frame, in table order; `MatchingRowsEmpty` and `MatchingWordSet` state what they give |
| WordTable.MatchingRowsEmpty | src/services/file_service.py:123-127 | the filtered frame is empty exactly when no row matches |
| WordTable.MatchingWordSet | src/services/file_service.py:129-133 | the words collected from the filtered rows are the words of the lesson |
| WordTable.LessonWordSetHas | src/services/file_service.py:129-133 | every piece of a matching row's text cell is in the lesson's word set |
| WordTable.LessonWordSetFrom | src/services/file_service.py:129-133 | every word in the set comes from a matching row's text cell |
| WordTable.LessonWordSetMembers | src/services/file_service.py:129-133 | membership in the lesson's word set is being a piece of some matching row's text cell |
| WordTable.WordsFor | src/services/file_service.py:103-135 | None exactly when no row matches the stripped grade and lesson; otherwise strictly ascending, so without duplicates |
| WordTable.WordsForMembers | src/services/file_service.py:129-135 | the words returned are exactly the stripped comma-separated pieces of the matching rows' text cells |
| WordTable.NoTextNoWords | src/services/file_service.py:131-133 | rows without text cells contribute no words |
| WordTable.NoTextGivesEmpty | src/services/file_service.py:125-137 | when some row matches and none of the matching rows has a text cell, the lookup gives [], not None, whatever the other lessons hold |
| WordTable.Upserted | src/services/file_service.py:158-177 | the table `add_words` writes: keys stripped, then the matching rows' words cell overwritten by the joined list, or one row appended; `UpsertedShape` and `UpsertedRows` state its shape |
| WordTable.UpsertedShape | src/services/file_service.py:158-177 | an upsert sets the words cell of exactly the matching rows to the joined list and keeps other rows' cells, or appends exactly one row; every grade and lesson is stripped |
| WordTable.OverwrittenRows | src/services/file_service.py:166-169 | after the masked assignment the lesson matches and all its rows hold the new cell |
| WordTable.AppendedRows | src/services/file_service.py:170-177 | after the concat the lesson matches and its only row is the new one |
| WordTable.UpsertedRows | src/services/file_service.py:145-177 | the written table has stripped keys, contains the lesson, and every row of the lesson holds the joined list |
| WordTable.InLessonUniform | src/services/file_service.py:129-133 | when all rows of a lesson hold one cell, the lesson's words are that cell's pieces |
| WordTable.LessonSetUniform | src/services/file_service.py:129-133 | the word set of such a lesson is the set of that cell's pieces |
| WordTable.PiecesOfJoin | src/services/file_service.py:169 | splitting the joined list of comma-free words gives back the words, stripped |
| WordTable.StrippedElements | src/services/file_service.py:133 | the set of stripped pieces is the set of the stripped words |
| WordTable.JoinedWordSet | src/services/file_service.py:169 | the pieces of the joined list form the set of stripped words |
| WordTable.UpsertThenLookup | src/services/file_service.py:130-169 | after an upsert of a non-empty comma-free list, the lookup gives the distinct stripped words in ascending order |
| WordTable.KeyLessIsStrictTotalOrder | src/services/file_service.py:72 | the code-point order on (grade, lesson) strings is a strict total order; it is the order groupby uses when both key columns hold text |
| WordTable.GroupKeys | src/services/file_service.py:72 | the groups are exactly the distinct (grade, lesson) pairs, each once, in ascending order of their text |
| WordTable.GroupWords | src/services/file_service.py:74-77 | the `words` list of a group: the pieces of its text cells in table order; `GroupWordsEmptyIff` and `GroupWordsAppend` state its properties |
| WordTable.LessonOf | src/services/file_service.py:79-83 | the record of a group: its grade and lesson stripped, and the number of its pieces, duplicates included |
| WordTable.GroupWordsEmptyIff | src/services/file_service.py:74-77 | a group counts no words exactly when none of its cells is text |
| WordTable.GroupWordsAppend | src/services/file_service.py:74-83 | a further row of a group adds all its pieces to the count, duplicates included |
| WordTable.LessonsFrom | src/services/file_service.py:72-84 | one record per group given |
| WordTable.LessonsOf | src/services/file_service.py:72-84 | one record per group |
| WordTable.KeyOfRowIsGrouped | src/services/file_service.py:72 | every row's (grade, lesson) is one of the groups |
| WordTable.GroupHasRow | src/services/file_service.py:72 | every group is the (grade, lesson) of some row |
| WordTable.LessonAt | src/services/file_service.py:72-84 | record i is the record of group i |
| WordTable.LessonsOfGroups | src/services/file_service.py:72-84 | as many records as distinct (grade, lesson) pairs; every row's group has a record, and every record belongs to some row's group |
| WordTable.Workbook.constructor | src/services/file_service.py:14-16 | a workbook with the given presence, rows, modification time and writability |
| WordTable.FileService.constructor | src/services/file_service.py:14-22 | both caches start empty with time 0 |
| WordTable.FileService.Load | src/services/file_service.py:24-48 | the table `_read_excel` yields: None for a missing file, the cached table while it is valid, else the file's rows (None when unreadable) |
| WordTable.FileService.ReadExcel | src/services/file_service.py:24-48 | returns the cached table iff it exists, is younger than 60 s and the file's mtime is not later. Otherwise it reads the file, storing the table and the current time as the cache; a missing or unreadable file leaves the cache as it was |
| WordTable.FileService.CollectGroupWords | src/services/file_service.py:74-77 | the inner loop collects the group's pieces in table order |
| WordTable.FileService.BuildLessons | src/services/file_service.py:72-84 | the outer loop builds one record per group, in groupby order |
| WordTable.FileService.ReadLessons | src/services/file_service.py:50-101 | a lesson list younger than 60 s is returned as is, with both caches unchanged. Otherwise the records of the table read are returned and cached with the current time, and the table cache is left as `_read_excel` sets it. If the read fails, the cached list is returned, or [] when there is none |
| WordTable.FileService.CollectWords | src/services/file_service.py:129-133 | the loop collects the union of the pieces of the rows' text cells |
| WordTable.FileService.GetWords | src/services/file_service.py:103-143 | returns `WordsFor` of the table read, or None if the read fails, and leaves the table cache holding the stripped keys |
| WordTable.FileService.Overwrite | src/services/file_service.py:169 | the row loop sets exactly the matching rows' words cell |
| WordTable.FileService.AddWords | src/services/file_service.py:145-188 | on a readable, writable file the upserted table is written and True returned; otherwise False, with the file unchanged |
| WordTable.Open | src/services/file_service.py:7-22 | a missing file raises; otherwise a fresh service with empty caches |
| WordTable.AddThenGet | src/services/file_service.py:29-182 | a write followed by a lookup, once the cached table is older than the write, returns the distinct stripped words in ascending order |
| Text.Strip | src/services/file_service.py:118-121 | the result has no leading or trailing whitespace, is the input when that has none, and is no longer than the input |
| Text.StripSlice | src/services/file_service.py:118-121 | `Strip(s)` is a slice s[i..j] of the input with only whitespace outside it |
| Text.StripUnique | src/services/file_service.py:118-121 | any stripped slice with only whitespace outside it is `Strip(s)`, so with `StripSlice` the function is exactly `str.strip` |
| Text.Split | src/services/file_service.py:133 | at least one piece, and no piece holds the separator |
| Text.JoinSplit | src/services/file_service.py:169 | joining the pieces of a split gives back the string |
| Text.SplitJoin | src/services/file_service.py:169 | splitting a join of at least one separator-free part gives back the parts |
| Text.NatToStringInjective | src/services/tts/edge_tts.py:22 | distinct integers have distinct decimal strings |
| Text.DecimalRepr | src/services/tts/edge_tts.py:22 | the repr of the float h/100: an optional "-", the integer part, ".", and one fraction digit when the hundredths are a multiple of ten, else two; `DecimalReprInjective` shows it determines h |
| Text.DecimalReprInjective | src/services/tts/edge_tts.py:22 | distinct rates have distinct float reprs |
| Text.StrLessIsStrictTotalOrder | src/services/file_service.py:135 | string comparison is a strict total order |
| Text.SortedStrings | src/services/file_service.py:135 | `sorted` of a set has the set's elements, once each, in ascending order |
| Order.SortedSet | src/services/file_service.py:135 | sorting a set by a strict total order gives its elements once each, ascending |
| Order.AscendingUnique | src/services/file_service.py:135 | two ascending sequences with the same elements are equal |

## Left out

- The modules imported at src/routers/tts.py:4 (`get_tts_service` from `..services.tts`) and at src/api/endpoints/tts.py:4 (`TTSFactory` from `...services.tts.factory`) are not part of this model. Both are taken to be `TTSFactory.get_tts_service` of src/services/tts_factory.py, which `Factory.TtsFactory.GetTtsService` models.
- `get_voices` (src/api/endpoints/tts.py:119-134) is not modelled: it only wraps `get_available_voices`, which is modelled.
- The blocking of `asyncio.Semaphore` and `Lock` is not modelled. The model has no concurrency, only the session table, so no request ever waits.
- Printing and elapsed-time logging are not modelled, because they do not affect results.
- Rates and intervals are exact hundredths, not floats. Float rounding is not modelled, such as `int((1.15 - 1) * 100)` giving 14, or inputs with more than two decimals.
- md5 and Python `hash` are uninterpreted, so collisions are neither excluded nor exhibited.
- The speech backend is one fixed function of its request. Within one `check_cache` request, a repeated word whose first save failed and left nothing on disk is asked for again and fails again, where a real network call might succeed the second time.
- The network backend, pandas Excel reading and writing, file-system reads and writes, and sox are not modelled as code. They are parameters or fields whose contents the caller chooses.
- pandas reading cells back as NaN or numbers after a round trip is not modelled. The round trip is stated on the table.
- Grade and lesson cells are the `str()` of the cell. A missing key cell, and groupby over keys of mixed types, are not modelled.
- WordTable.GroupKeys: orders the groups by the code points of the cells' text. pandas sorts numeric key columns by value, so for integer grades or lessons (2 before 10) the order of `read_lessons`' records differs from the model's; the set of records is the same.
- WordTable.FileService.AddWords: a write that fails halfway is not modelled. A failed write leaves the file unchanged.
- WordTable.FileService.ReadLessons: uses one `now` for its own clock reading and for `_read_excel`'s reading.
- The temporary directory is a parameter `tmp`, and `mkdir` is not modelled.
- `FileNotFoundError` is modelled only in `Open`. Later reads of a missing file return the error path of each operation.
- Stripping can make two raw keys equal. `read_lessons` then emits one record for each raw key, so two records can share a stripped key. The model follows the code here.
- src/main.py, src/api/endpoints/dict.py, src/config/settings.py (beyond its constants) and the browser front end are not part of this model.

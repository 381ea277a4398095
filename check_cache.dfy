/** POST /api/tts/check-cache (src/routers/tts.py): for each word, asks the service whether its clip
    is cached and generates it if not, collecting the words for which that check raised. The service's
    `_is_cached` is not defined in the repository; it is a parameter that answers or raises (None). */
module TtsRouter {
  import opened Wrappers
  import opened Settings
  import EdgeTts
  import Factory

  /** A CheckCacheRequest; the rate is in hundredths. */
  datatype CheckCacheRequest = CheckCacheRequest(words: seq<string>, engine: string, voice: string, rate: int)

  datatype CheckCacheResponse = CheckCacheResponse(ready: bool, failedWords: seq<string>)

  /** The key the route looks up: built from the rate as sent, not clamped. */
  function RouteKey(word: string, voice: string, rate: int): string {
    EdgeTts.CacheKey(word, voice, rate)
  }

  /** Whether the per-word `try` raises: there is no service object ("web-speech"), or `_is_cached` raises. */
  predicate CheckRaises(hasService: bool, voice: string, rate: int, isCached: string -> Option<bool>, word: string) {
    !hasService || isCached(RouteKey(word, voice, rate)).None?
  }

  /** Whether the word leads to a `generate_audio` call: the service reports it as not cached. */
  predicate NeedsGeneration(hasService: bool, voice: string, rate: int, isCached: string -> Option<bool>, word: string) {
    hasService && isCached(RouteKey(word, voice, rate)) == Some(false)
  }

  /** The words, in order and with repetitions, whose check raises. */
  function FailedWords(words: seq<string>, hasService: bool, voice: string, rate: int,
                       isCached: string -> Option<bool>): seq<string>
    decreases |words|
  {
    if words == [] then []
    else
      var w := words[|words| - 1];
      FailedWords(words[..|words| - 1], hasService, voice, rate, isCached)
      + (if CheckRaises(hasService, voice, rate, isCached, w) then [w] else [])
  }

  /** The words, in order and with repetitions, for which a clip is generated. */
  function GeneratedWords(words: seq<string>, hasService: bool, voice: string, rate: int,
                          isCached: string -> Option<bool>): seq<string>
    decreases |words|
  {
    if words == [] then []
    else
      var w := words[|words| - 1];
      GeneratedWords(words[..|words| - 1], hasService, voice, rate, isCached)
      + (if NeedsGeneration(hasService, voice, rate, isCached, w) then [w] else [])
  }

  /** One more word of the request extends both lists by that word's own outcome. */
  lemma WordsStep(words: seq<string>, i: int, hasService: bool, voice: string, rate: int,
                  isCached: string -> Option<bool>)
    requires 0 <= i < |words|
    ensures FailedWords(words[..i + 1], hasService, voice, rate, isCached)
         == FailedWords(words[..i], hasService, voice, rate, isCached)
            + (if CheckRaises(hasService, voice, rate, isCached, words[i]) then [words[i]] else [])
    ensures GeneratedWords(words[..i + 1], hasService, voice, rate, isCached)
         == GeneratedWords(words[..i], hasService, voice, rate, isCached)
            + (if NeedsGeneration(hasService, voice, rate, isCached, words[i]) then [words[i]] else [])
  {
    assert words[..i + 1][..i] == words[..i];
  }

  /** `ready` holds exactly when no word's check raised. */
  lemma {:induction false} NoFailuresIff(words: seq<string>, hasService: bool, voice: string, rate: int,
                                         isCached: string -> Option<bool>)
    ensures FailedWords(words, hasService, voice, rate, isCached) == []
        <==> forall i :: 0 <= i < |words| ==> !CheckRaises(hasService, voice, rate, isCached, words[i])
    decreases |words|
  {
    if words != [] {
      var init := words[..|words| - 1];
      NoFailuresIff(init, hasService, voice, rate, isCached);
      assert forall i :: 0 <= i < |init| ==> init[i] == words[i];
    }
  }

  /** Each word is reported as often as it occurs in the request if its check raises, and never otherwise. */
  lemma {:induction false} FailedCount(words: seq<string>, hasService: bool, voice: string, rate: int,
                                       isCached: string -> Option<bool>, w: string)
    ensures multiset(FailedWords(words, hasService, voice, rate, isCached))[w]
         == if CheckRaises(hasService, voice, rate, isCached, w) then multiset(words)[w] else 0
    decreases |words|
  {
    if words != [] {
      var init := words[..|words| - 1];
      FailedCount(init, hasService, voice, rate, isCached, w);
      assert words == init + [words[|words| - 1]];
    }
  }

  /** The failed words are drawn from the request, and there are no more of them than words requested. */
  lemma {:induction false} FailedFromRequest(words: seq<string>, hasService: bool, voice: string, rate: int,
                                               isCached: string -> Option<bool>)
    ensures |FailedWords(words, hasService, voice, rate, isCached)| <= |words|
    ensures forall j :: 0 <= j < |FailedWords(words, hasService, voice, rate, isCached)| ==>
      FailedWords(words, hasService, voice, rate, isCached)[j] in words
    decreases |words|
  {
    if words != [] {
      var init := words[..|words| - 1];
      FailedFromRequest(init, hasService, voice, rate, isCached);
      assert forall x :: x in init ==> x in words;
    }
  }

  /** Without a service object every word fails, so "web-speech" never reports ready on a non-empty list. */
  lemma {:induction false} NoServiceFailsAll(words: seq<string>, voice: string, rate: int, isCached: string -> Option<bool>)
    ensures FailedWords(words, false, voice, rate, isCached) == words
    ensures GeneratedWords(words, false, voice, rate, isCached) == []
    decreases |words|
  {
    if words != [] {
      NoServiceFailsAll(words[..|words| - 1], voice, rate, isCached);
    }
  }

  /** A word reported as cached, or whose check raised, is never generated. */
  lemma {:induction false} GeneratedOnlyUncached(words: seq<string>, hasService: bool, voice: string, rate: int,
                                                 isCached: string -> Option<bool>, w: string)
    requires !NeedsGeneration(hasService, voice, rate, isCached, w)
    ensures w !in GeneratedWords(words, hasService, voice, rate, isCached)
    decreases |words|
  {
    if words != [] {
      GeneratedOnlyUncached(words[..|words| - 1], hasService, voice, rate, isCached, w);
    }
  }

  /** For a rate outside [0.5, 2.0] the string hashed here differs from the one `generate_audio` hashes
      after clamping, so the route's lookup cannot see what generation stored, short of an md5 collision. */
  lemma UnclampedKeyTextDiffers(word: string, voice: string, rate: int)
    requires rate < EdgeTts.MinRate || rate > EdgeTts.MaxRate
    ensures EdgeTts.KeyText(word, voice, rate) != EdgeTts.KeyText(word, voice, EdgeTts.ClampRate(rate))
  {
    if EdgeTts.KeyText(word, voice, rate) == EdgeTts.KeyText(word, voice, EdgeTts.ClampRate(rate)) {
      EdgeTts.KeyTextDeterminesRate(word, voice, rate, EdgeTts.ClampRate(rate));
    }
  }

  /** Each of the first `n` words that led to a `generate_audio` call whose save succeeded has an entry
      under its key in `cache`. */
  ghost predicate SavedCached(cache: map<string, EdgeTts.Bytes>, words: seq<string>, n: int, voice: string,
                              rate: int, isCached: string -> Option<bool>,
                              backend: EdgeTts.SynthRequest -> EdgeTts.SaveOutcome)
    requires 0 <= n <= |words|
  {
    forall j :: 0 <= j < n && NeedsGeneration(true, voice, rate, isCached, words[j])
      && backend(EdgeTts.RequestFor(words[j], voice, rate)).Saved?
      ==> EdgeTts.KeyFor(words[j], voice, rate) in cache
  }

  lemma SavedCachedStep(c0: map<string, EdgeTts.Bytes>, c1: map<string, EdgeTts.Bytes>, words: seq<string>,
                        n: int, voice: string, rate: int, isCached: string -> Option<bool>,
                        backend: EdgeTts.SynthRequest -> EdgeTts.SaveOutcome)
    requires 0 <= n < |words|
    requires SavedCached(c0, words, n, voice, rate, isCached, backend) && EdgeTts.Extends(c0, c1)
    requires NeedsGeneration(true, voice, rate, isCached, words[n]) && backend(EdgeTts.RequestFor(words[n], voice, rate)).Saved?
      ==> EdgeTts.KeyFor(words[n], voice, rate) in c1
    ensures SavedCached(c1, words, n + 1, voice, rate, isCached, backend)
  {
  }

  /** The tiers after the first `n` words of the `check_cache` loop, from `t0`: one `generate_audio`
      call for each word reported not cached. */
  ghost function CheckedTiers(t0: EdgeTts.Tiers, words: seq<string>, n: nat, voice: string, rate: int,
                              isCached: string -> Option<bool>, backend: EdgeTts.SynthRequest -> EdgeTts.SaveOutcome)
    : EdgeTts.Tiers
    requires n <= |words|
    decreases n
  {
    if n == 0 then t0
    else
      var prev := CheckedTiers(t0, words, n - 1, voice, rate, isCached, backend);
      if NeedsGeneration(true, voice, rate, isCached, words[n - 1])
      then EdgeTts.TiersStep(prev, EdgeTts.KeyFor(words[n - 1], voice, rate),
                             backend(EdgeTts.RequestFor(words[n - 1], voice, rate)))
      else prev
  }

  /** Those tiers are the tiers after `generate_audio` for each generated word, in order. */
  lemma {:induction false} CheckedTiersRun(t0: EdgeTts.Tiers, words: seq<string>, n: nat, voice: string, rate: int,
                                           isCached: string -> Option<bool>,
                                           backend: EdgeTts.SynthRequest -> EdgeTts.SaveOutcome)
    requires n <= |words|
    ensures var g := GeneratedWords(words[..n], true, voice, rate, isCached);
      CheckedTiers(t0, words, n, voice, rate, isCached, backend) == EdgeTts.TiersAfter(t0, g, |g|, voice, rate, backend)
    decreases n
  {
    if n > 0 {
      var w := words[n - 1];
      var prev := CheckedTiers(t0, words, n - 1, voice, rate, isCached, backend);
      var g := GeneratedWords(words[..n - 1], true, voice, rate, isCached);
      CheckedTiersRun(t0, words, n - 1, voice, rate, isCached, backend);
      assert prev == EdgeTts.TiersAfter(t0, g, |g|, voice, rate, backend);
      WordsStep(words, n - 1, true, voice, rate, isCached);
      if NeedsGeneration(true, voice, rate, isCached, w) {
        assert GeneratedWords(words[..n], true, voice, rate, isCached) == g + [w];
        EdgeTts.TiersAfterSnoc(t0, g, w, voice, rate, backend);
      } else {
        assert GeneratedWords(words[..n], true, voice, rate, isCached) == g;
      }
    }
  }

  /** After the first `i` words of the `check_cache` loop: the tiers are `CheckedTiers` from `t0`, and
      every generated word whose save succeeded is in memory. */
  ghost predicate Checked(t0: EdgeTts.Tiers, t: EdgeTts.Tiers, words: seq<string>, i: int,
                          voice: string, rate: int, isCached: string -> Option<bool>,
                          backend: EdgeTts.SynthRequest -> EdgeTts.SaveOutcome)
    requires 0 <= i <= |words|
  {
    SavedCached(t.cache, words, i, voice, rate, isCached, backend)
    && t == CheckedTiers(t0, words, i, voice, rate, isCached, backend)
  }

  /** One word of the `check_cache` loop: the tiers follow one more `generate_audio` call exactly when
      the word was generated, and a saved word's key joins the memory tier. */
  lemma CheckStep(t0: EdgeTts.Tiers, before: EdgeTts.Tiers, after: EdgeTts.Tiers, words: seq<string>, i: int,
                  made: bool, voice: string, rate: int,
                  isCached: string -> Option<bool>, backend: EdgeTts.SynthRequest -> EdgeTts.SaveOutcome)
    requires 0 <= i < |words|
    requires Checked(t0, before, words, i, voice, rate, isCached, backend)
    requires made == NeedsGeneration(true, voice, rate, isCached, words[i])
    requires EdgeTts.Extends(before.cache, after.cache)
    requires !made ==> after == before
    requires made ==> after == EdgeTts.TiersStep(before, EdgeTts.KeyFor(words[i], voice, rate),
                                                 backend(EdgeTts.RequestFor(words[i], voice, rate)))
    requires made && backend(EdgeTts.RequestFor(words[i], voice, rate)).Saved? ==>
      EdgeTts.KeyFor(words[i], voice, rate) in after.cache
    ensures Checked(t0, after, words, i + 1, voice, rate, isCached, backend)
  {
    SavedCachedStep(before.cache, after.cache, words, i, voice, rate, isCached, backend);
  }

  /** The body of the per-word loop of `check_cache`: whether its `try` raised, and whether it called
      `generate_audio`. Without that call the service is untouched; with it, the word's clip is in the
      memory tier afterwards exactly when `generate_audio` produced one. */
  method CheckWord(tts: Option<EdgeTts.EdgeTtsService>, word: string, voice: string, rate: int,
                   backend: EdgeTts.SynthRequest -> EdgeTts.SaveOutcome, isCached: string -> Option<bool>)
    returns (raised: bool, ghost made: bool)
    modifies if tts.Some? then {tts.value} else {}
    ensures raised == CheckRaises(tts.Some?, voice, rate, isCached, word)
    ensures made == NeedsGeneration(tts.Some?, voice, rate, isCached, word)
    ensures tts.Some? ==>
      && EdgeTts.GrowsWithin(old(tts.value.cache), tts.value.cache, {EdgeTts.KeyFor(word, voice, rate)})
      && EdgeTts.GrowsWithin(old(tts.value.files), tts.value.files, {EdgeTts.KeyFor(word, voice, rate)})
      && (!made ==> tts.value.cache == old(tts.value.cache) && tts.value.files == old(tts.value.files))
      && (made && backend(EdgeTts.RequestFor(word, voice, rate)).Saved? ==> EdgeTts.KeyFor(word, voice, rate) in tts.value.cache)
      && (made ==> (EdgeTts.KeyFor(word, voice, rate) in tts.value.cache
                    <==> EdgeTts.Served(old(tts.value.cache), old(tts.value.files), EdgeTts.KeyFor(word, voice, rate),
                                        backend(EdgeTts.RequestFor(word, voice, rate))).Some?))
      && (made ==> EdgeTts.Tiers(tts.value.cache, tts.value.files)
                   == EdgeTts.TiersStep(EdgeTts.Tiers(old(tts.value.cache), old(tts.value.files)),
                                        EdgeTts.KeyFor(word, voice, rate), backend(EdgeTts.RequestFor(word, voice, rate))))
      && tts.value.voicesCache == old(tts.value.voicesCache) && tts.value.voicesCacheTime == old(tts.value.voicesCacheTime)
  {
    raised, made := false, false;
    if tts.None? {
      raised := true;
    } else {
      var cached := isCached(RouteKey(word, voice, rate));
      if cached.None? {
        raised := true;
      } else if !cached.value {
        var audio;
        ghost var called;
        audio, called := tts.value.GenerateAudio(word, voice, rate, backend);
        made := true;
      }
    }
  }

  /** One iteration of the `check_cache` loop: `CheckWord` on `words[i]`, with the word added to
      the failed or generated words as its outcome says. */
  method CheckNext(tts: Option<EdgeTts.EdgeTtsService>, words: seq<string>, i: int, voice: string, rate: int,
                   backend: EdgeTts.SynthRequest -> EdgeTts.SaveOutcome, isCached: string -> Option<bool>,
                   failed: seq<string>, ghost generated: seq<string>, ghost t0: EdgeTts.Tiers)
    returns (failed': seq<string>, ghost generated': seq<string>)
    requires 0 <= i < |words|
    requires failed == FailedWords(words[..i], tts.Some?, voice, rate, isCached)
    requires generated == GeneratedWords(words[..i], tts.Some?, voice, rate, isCached)
    requires tts.Some? ==> Checked(t0, EdgeTts.Tiers(tts.value.cache, tts.value.files), words, i,
                                   voice, rate, isCached, backend)
    modifies if tts.Some? then {tts.value} else {}
    ensures failed' == FailedWords(words[..i + 1], tts.Some?, voice, rate, isCached)
    ensures generated' == GeneratedWords(words[..i + 1], tts.Some?, voice, rate, isCached)
    ensures tts.Some? ==>
      && Checked(t0, EdgeTts.Tiers(tts.value.cache, tts.value.files), words, i + 1, voice, rate, isCached, backend)
      && tts.value.voicesCache == old(tts.value.voicesCache) && tts.value.voicesCacheTime == old(tts.value.voicesCacheTime)
  {
    var word := words[i];
    var raised;
    ghost var made;
    ghost var before := if tts.Some? then EdgeTts.Tiers(tts.value.cache, tts.value.files) else t0;
    raised, made := CheckWord(tts, word, voice, rate, backend, isCached);
    if tts.Some? {
      CheckStep(t0, before, EdgeTts.Tiers(tts.value.cache, tts.value.files), words, i, made,
                voice, rate, isCached, backend);
    }
    failed' := if raised then failed + [word] else failed;
    generated' := if made then generated + [word] else generated;
    WordsStep(words, i, tts.Some?, voice, rate, isCached);
  }

  /** The `for word in request.words` loop of `check_cache`: the words whose check raised, and the
      words passed to `generate_audio`. The service's tiers are those after one `generate_audio` call
      per generated word, in order: they only gain clips, only under the keys of the generated words,
      and every generated word whose save succeeded has an entry in memory. */
  method CheckWords(tts: Option<EdgeTts.EdgeTtsService>, words: seq<string>, voice: string, rate: int,
                    backend: EdgeTts.SynthRequest -> EdgeTts.SaveOutcome, isCached: string -> Option<bool>)
    returns (failed: seq<string>, ghost generated: seq<string>)
    modifies if tts.Some? then {tts.value} else {}
    ensures failed == FailedWords(words, tts.Some?, voice, rate, isCached)
    ensures generated == GeneratedWords(words, tts.Some?, voice, rate, isCached)
    ensures tts.Some? ==>
      && EdgeTts.GrowsWithin(old(tts.value.cache), tts.value.cache, EdgeTts.KeysFor(generated, |generated|, voice, rate))
      && EdgeTts.GrowsWithin(old(tts.value.files), tts.value.files, EdgeTts.KeysFor(generated, |generated|, voice, rate))
      && (generated == [] ==> tts.value.cache == old(tts.value.cache) && tts.value.files == old(tts.value.files))
      && SavedCached(tts.value.cache, words, |words|, voice, rate, isCached, backend)
      && EdgeTts.Tiers(tts.value.cache, tts.value.files)
         == EdgeTts.TiersAfter(EdgeTts.Tiers(old(tts.value.cache), old(tts.value.files)), generated, |generated|,
                               voice, rate, backend)
      && tts.value.voicesCache == old(tts.value.voicesCache) && tts.value.voicesCacheTime == old(tts.value.voicesCacheTime)
  {
    failed, generated := [], [];
    ghost var t0 := if tts.Some? then EdgeTts.Tiers(tts.value.cache, tts.value.files) else EdgeTts.Tiers(map[], map[]);
    var i := 0;
    while i < |words|
      invariant 0 <= i <= |words|
      invariant failed == FailedWords(words[..i], tts.Some?, voice, rate, isCached)
      invariant generated == GeneratedWords(words[..i], tts.Some?, voice, rate, isCached)
      invariant tts.Some? ==>
        && Checked(t0, EdgeTts.Tiers(tts.value.cache, tts.value.files), words, i, voice, rate, isCached, backend)
        && tts.value.voicesCache == old(tts.value.voicesCache) && tts.value.voicesCacheTime == old(tts.value.voicesCacheTime)
    {
      failed, generated := CheckNext(tts, words, i, voice, rate, backend, isCached, failed, generated, t0);
      i := i + 1;
    }
    assert words[..i] == words;
    if tts.Some? {
      CheckedTiersRun(t0, words, i, voice, rate, isCached, backend);
      EdgeTts.TiersAfterGrows(t0, generated, |generated|, voice, rate, backend);
    }
  }

  /** `check_cache`. `generated` lists the words passed to `generate_audio`. */
  method CheckCache(factory: Factory.TtsFactory, req: CheckCacheRequest, onDisk: map<string, EdgeTts.Bytes>,
                    backend: EdgeTts.SynthRequest -> EdgeTts.SaveOutcome, isCached: string -> Option<bool>)
    returns (r: Outcome<CheckCacheResponse>, ghost generated: seq<string>)
    requires factory.Valid()
    modifies factory, factory.instances.Values
    ensures factory.Valid()
    ensures req.engine != EdgeEngine ==> factory.instances == old(factory.instances)
    ensures req.engine == EdgeEngine ==>
      && EdgeEngine in factory.instances
      && factory.instances == old(factory.instances)[EdgeEngine := factory.instances[EdgeEngine]]
      && (EdgeEngine in old(factory.instances) ==> factory.instances[EdgeEngine] == old(factory.instances)[EdgeEngine])
      && var s := factory.instances[EdgeEngine];
      && var registered := EdgeEngine in old(factory.instances);
      && var c0 := if registered then old(factory.instances[EdgeEngine].cache) else map[];
      && var f0 := if registered then old(factory.instances[EdgeEngine].files) else onDisk;
      && EdgeTts.GrowsWithin(c0, s.cache, EdgeTts.KeysFor(generated, |generated|, req.voice, req.rate))
      && EdgeTts.GrowsWithin(f0, s.files, EdgeTts.KeysFor(generated, |generated|, req.voice, req.rate))
      && (generated == [] ==> s.cache == c0 && s.files == f0)
      && SavedCached(s.cache, req.words, |req.words|, req.voice, req.rate, isCached, backend)
      && EdgeTts.Tiers(s.cache, s.files)
         == EdgeTts.TiersAfter(EdgeTts.Tiers(c0, f0), generated, |generated|, req.voice, req.rate, backend)
      && s.voicesCache == (if registered then old(factory.instances[EdgeEngine].voicesCache) else None)
      && s.voicesCacheTime == (if registered then old(factory.instances[EdgeEngine].voicesCacheTime) else 0)
    ensures req.engine != EdgeEngine && req.engine != WebSpeechEngine ==>
      r == Throw(HttpException(500, StrOf(Factory.UnsupportedEngine(req.engine)))) && generated == []
    ensures req.engine == EdgeEngine || req.engine == WebSpeechEngine ==>
      var hasService := req.engine == EdgeEngine;
      && r.Return?
      && r.value.failedWords == FailedWords(req.words, hasService, req.voice, req.rate, isCached)
      && r.value.ready == (r.value.failedWords == [])
      && generated == GeneratedWords(req.words, hasService, req.voice, req.rate, isCached)
  {
    generated := [];
    var got := factory.GetTtsService(req.engine, onDisk);
    if got.Throw? {
      return Throw(HttpException(500, StrOf(got.exc))), generated;
    }
    var failed;
    failed, generated := CheckWords(got.value, req.words, req.voice, req.rate, backend, isCached);
    r := Return(CheckCacheResponse(|failed| == 0, failed));
  }
}

/** The speech endpoints of src/api/endpoints/tts.py: POST /api/tts/batch concatenates one clip per
    word, repeated and separated by silences, into one file with sox; POST /api/tts returns one clip.
    Python's `hash`, `os.system` and the temporary directory are parameters. */
module TtsEndpoints {
  import opened Wrappers
  import opened Settings
  import Text
  import EdgeTts
  import Factory

  const NoService: Exc := HttpException(400, Message("不支持的TTS引擎"))
  const MergeFailed: Exc := HttpException(500, Message("合并音频失败"))
  const SpeechFailed: Exc := HttpException(500, Message("生成语音失败"))
  const MediaType: string := "audio/mpeg"

  function WordFailed(word: string): Exc {
    HttpException(500, Message("生成音频失败: " + word))
  }

  /** What the endpoint's `except Exception as e` turns every error into. */
  function Internal(e: Exc): Exc {
    HttpException(500, StrOf(e))
  }

  /** A BatchTTSRequest; rate and repeatInterval are in hundredths. */
  datatype BatchRequest = BatchRequest(words: seq<string>, engine: string, voice: Option<string>,
                                       rate: int, repeatCount: int, repeatInterval: int)

  /** A TTSRequest; rate is in hundredths. */
  datatype SpeechRequest = SpeechRequest(text: string, engine: string, voice: Option<string>, rate: int)

  datatype FileResponse = FileResponse(path: string, mediaType: string, filename: string)
  datatype StreamingResponse = StreamingResponse(body: EdgeTts.Bytes, mediaType: string, disposition: string)

  /** `request.voice or TTS_ENGINES[engine]["default_voice"]`; None where the lookup raises. */
  function EffectiveVoice(voice: Option<string>, engine: string): (r: Option<string>)
    ensures voice.Some? && voice.value != "" ==> r == voice
    ensures (voice.None? || voice.value == "") ==> r == DefaultVoice(engine)
    ensures (voice.None? || voice.value == "") && engine == EdgeEngine ==> r == Some("zh-CN-XiaoxiaoNeural")
  {
    if voice.Some? && voice.value != "" then voice else DefaultVoice(engine)
  }

  function BatchDir(tmp: string): string {
    tmp + "/web_dictation_batch"
  }

  /** `temp_dir / f"{hash(word)}.mp3"`. */
  function SegmentPath(tmp: string, pyHash: string -> int, word: string): string {
    BatchDir(tmp) + "/" + Text.IntToString(pyHash(word)) + ".mp3"
  }

  function Concat(words: seq<string>): string
    decreases |words|
  {
    if words == [] then "" else Concat(words[..|words| - 1]) + words[|words| - 1]
  }

  /** `temp_dir / f"dictation_{hash(''.join(words))}.mp3"`. */
  function OutputPath(tmp: string, pyHash: string -> int, words: seq<string>): string {
    BatchDir(tmp) + "/dictation_" + Text.IntToString(pyHash(Concat(words))) + ".mp3"
  }

  function BatchFileName(n: nat): string {
    "dictation_" + Text.NatToString(n) + "words.mp3"
  }

  function SilenceToken(interval: int): string {
    "silence " + Text.DecimalRepr(interval) + " 1 0"
  }

  function Paths(tmp: string, pyHash: string -> int, words: seq<string>): (r: seq<string>)
    ensures |r| == |words|
    ensures forall i :: 0 <= i < |words| ==> r[i] == SegmentPath(tmp, pyHash, words[i])
  {
    seq(|words|, i requires 0 <= i < |words| => SegmentPath(tmp, pyHash, words[i]))
  }

  /** What one pass of the repeat loop appends: the path, then a silence when the interval is positive. */
  function Unit(path: string, interval: int): seq<string> {
    if interval > 0 then [path, SilenceToken(interval)] else [path]
  }

  function UnitLength(interval: int): nat {
    if interval > 0 then 2 else 1
  }

  function Repeats(path: string, n: nat, interval: int): (r: seq<string>)
    ensures |r| == n * UnitLength(interval)
  {
    if n == 0 then [] else Repeats(path, n - 1, interval) + Unit(path, interval)
  }

  function Max0(n: int): nat {
    if n > 0 then n else 0
  }

  /** The segment list handed to sox for words whose clips are at `paths`. */
  function Layout(paths: seq<string>, count: int, interval: int): seq<string> {
    if paths == [] then []
    else Layout(paths[..|paths| - 1], count, interval) + Repeats(paths[|paths| - 1], Max0(count), interval)
  }

  /** Units per word: `max(0, repeatCount)` passes of the repeat loop. */
  function BlockLength(count: int, interval: int): nat {
    Max0(count) * UnitLength(interval)
  }

  lemma MulSucc(n: int, b: int)
    ensures (n - 1) * b + b == n * b
  {
  }

  lemma MulStep(i: int, n: int, b: int)
    requires 0 <= i < n && b >= 0
    ensures i * b + b <= n * b
  {
    assert (i + 1) * b <= n * b;
  }

  lemma ModOffset(m: int, u: int, d: int)
    requires m >= 0 && 0 <= d < u && (u == 1 || u == 2)
    ensures (m * u + d) % u == d
  {
    if u == 2 {
      assert m * u + d == 2 * m + d;
    }
  }

  /** The block a word contributes: `n` copies of its path, each followed by a silence iff the interval is positive. */
  lemma {:induction false} RepeatsShape(path: string, n: nat, interval: int)
    ensures forall k :: 0 <= k < |Repeats(path, n, interval)| ==>
      Repeats(path, n, interval)[k] == (if k % UnitLength(interval) == 0 then path else SilenceToken(interval))
  {
    var u := UnitLength(interval);
    if n > 0 {
      RepeatsShape(path, n - 1, interval);
      var prev := Repeats(path, n - 1, interval);
      var r := Repeats(path, n, interval);
      assert r == prev + Unit(path, interval);
      MulSucc(n, u);
      forall k | 0 <= k < |r|
        ensures r[k] == (if k % u == 0 then path else SilenceToken(interval))
      {
        if k >= |prev| {
          var d := k - |prev|;
          assert r[k] == Unit(path, interval)[d];
          ModOffset(n - 1, u, d);
        }
      }
    }
  }

  /** The total length: one block of `max(0, count)` units per word. */
  lemma {:induction false} LayoutLength(paths: seq<string>, count: int, interval: int)
    ensures |Layout(paths, count, interval)| == |paths| * BlockLength(count, interval)
    decreases |paths|
  {
    if paths != [] {
      var n := |paths|;
      var b := BlockLength(count, interval);
      LayoutLength(paths[..n - 1], count, interval);
      RepeatsShape(paths[n - 1], Max0(count), interval);
      MulSucc(n, b);
    }
  }

  /** Word order is preserved: the block of word `i` occupies offsets `i * B` up to `(i + 1) * B`. */
  lemma {:induction false} LayoutBlock(paths: seq<string>, count: int, interval: int, i: int, k: int)
    requires 0 <= i < |paths|
    requires 0 <= k < BlockLength(count, interval)
    ensures i * BlockLength(count, interval) + k < |Layout(paths, count, interval)|
    ensures Layout(paths, count, interval)[i * BlockLength(count, interval) + k]
         == Repeats(paths[i], Max0(count), interval)[k]
    decreases |paths|
  {
    var n := |paths|;
    var b := BlockLength(count, interval);
    var init := paths[..n - 1];
    var last := Repeats(paths[n - 1], Max0(count), interval);
    LayoutLength(init, count, interval);
    assert Layout(paths, count, interval) == Layout(init, count, interval) + last;
    MulStep(i, n, b);
    MulSucc(n, b);
    if i == n - 1 {
      assert paths[i] == paths[n - 1];
    } else {
      MulStep(i, n - 1, b);
      LayoutBlock(init, count, interval, i, k);
      assert init[i] == paths[i];
    }
  }

  /** A silence follows every repeat, the last repeat of the last word included. */
  lemma LastIsSilence(paths: seq<string>, count: int, interval: int)
    requires paths != [] && count > 0 && interval > 0
    ensures Layout(paths, count, interval) != []
    ensures Layout(paths, count, interval)[|Layout(paths, count, interval)| - 1] == SilenceToken(interval)
  {
    var last := paths[|paths| - 1];
    var r := Repeats(last, count, interval);
    assert r == Repeats(last, count - 1, interval) + [last, SilenceToken(interval)];
  }

  /** The sox command line: `sox {" ".join(segments)} "{output}"`. */
  function Command(segments: seq<string>, output: string): string {
    "sox " + Text.Join(segments, ' ') + " \"" + output + "\""
  }

  /** The temporary directory after writing `audios[i]` to `paths[i]` in order. */
  function WriteAll(dir: map<string, EdgeTts.Bytes>, paths: seq<string>, audios: seq<EdgeTts.Bytes>): map<string, EdgeTts.Bytes>
    requires |paths| == |audios|
    decreases |paths|
  {
    if paths == [] then dir
    else WriteAll(dir, paths[..|paths| - 1], audios[..|audios| - 1])[paths[|paths| - 1] := audios[|audios| - 1]]
  }

  /** A word the loop stops at: its key is in neither tier and the backend's save raised. */
  ghost predicate FailsAt(cache: map<string, EdgeTts.Bytes>, files: map<string, EdgeTts.Bytes>, word: string,
                          voice: string, rate: int, backend: EdgeTts.SynthRequest -> EdgeTts.SaveOutcome)
  {
    EdgeTts.KeyFor(word, voice, rate) !in cache && EdgeTts.KeyFor(word, voice, rate) !in files
    && backend(EdgeTts.RequestFor(word, voice, rate)).Failed?
  }

  /** Every word of a batch has its clip in the service's memory cache under its key. */
  ghost predicate AllCached(cache: map<string, EdgeTts.Bytes>, words: seq<string>, voice: string, rate: int,
                           audios: seq<EdgeTts.Bytes>)
    requires |audios| <= |words|
  {
    forall i :: 0 <= i < |audios| ==>
      EdgeTts.CacheKey(words[i], voice, EdgeTts.ClampRate(rate)) in cache
      && cache[EdgeTts.CacheKey(words[i], voice, EdgeTts.ClampRate(rate))] == audios[i]
  }

  lemma AllCachedGrows(c0: map<string, EdgeTts.Bytes>, c1: map<string, EdgeTts.Bytes>, words: seq<string>,
                       voice: string, rate: int, audios: seq<EdgeTts.Bytes>, a: EdgeTts.Bytes)
    requires |audios| < |words|
    requires AllCached(c0, words, voice, rate, audios) && EdgeTts.Extends(c0, c1)
    requires EdgeTts.CacheKey(words[|audios|], voice, EdgeTts.ClampRate(rate)) in c1
    requires c1[EdgeTts.CacheKey(words[|audios|], voice, EdgeTts.ClampRate(rate))] == a
    ensures AllCached(c1, words, voice, rate, audios + [a])
  {
  }

  lemma PathsSnoc(tmp: string, pyHash: string -> int, words: seq<string>, i: int)
    requires 0 <= i < |words|
    ensures Paths(tmp, pyHash, words[..i + 1]) == Paths(tmp, pyHash, words[..i]) + [SegmentPath(tmp, pyHash, words[i])]
  {
  }

  lemma LayoutSnoc(paths: seq<string>, p: string, count: int, interval: int)
    ensures Layout(paths + [p], count, interval) == Layout(paths, count, interval) + Repeats(p, Max0(count), interval)
  {
    assert (paths + [p])[..|paths|] == paths;
  }

  lemma WriteAllSnoc(dir: map<string, EdgeTts.Bytes>, paths: seq<string>, audios: seq<EdgeTts.Bytes>, p: string, a: EdgeTts.Bytes)
    requires |paths| == |audios|
    ensures WriteAll(dir, paths + [p], audios + [a]) == WriteAll(dir, paths, audios)[p := a]
  {
    assert (paths + [p])[..|paths|] == paths;
    assert (audios + [a])[..|audios|] == audios;
  }

  /** One more word of a batch extends the layout by its block and the temporary directory by its clip. */
  lemma BatchStep(tmp: string, pyHash: string -> int, words: seq<string>, i: int, count: int, interval: int,
                  temp: map<string, EdgeTts.Bytes>, generated: seq<EdgeTts.Bytes>, a: EdgeTts.Bytes)
    requires 0 <= i < |words| && |generated| == i
    ensures var path := SegmentPath(tmp, pyHash, words[i]);
      && Layout(Paths(tmp, pyHash, words[..i]), count, interval) + Repeats(path, Max0(count), interval)
         == Layout(Paths(tmp, pyHash, words[..i + 1]), count, interval)
      && WriteAll(temp, Paths(tmp, pyHash, words[..i]), generated)[path := a]
         == WriteAll(temp, Paths(tmp, pyHash, words[..i + 1]), generated + [a])
  {
    var path := SegmentPath(tmp, pyHash, words[i]);
    PathsSnoc(tmp, pyHash, words, i);
    LayoutSnoc(Paths(tmp, pyHash, words[..i]), path, count, interval);
    WriteAllSnoc(temp, Paths(tmp, pyHash, words[..i]), generated, path, a);
  }

  /** The inner `for _ in range(repeatCount)` loop: appends the word's block to `segments`. */
  method AppendRepeats(segments: seq<string>, path: string, count: int, interval: int) returns (out: seq<string>)
    ensures out == segments + Repeats(path, Max0(count), interval)
  {
    out := segments;
    var j := 0;
    while j < count
      invariant 0 <= j <= Max0(count)
      invariant out == segments + Repeats(path, j, interval)
    {
      out := out + [path];
      if interval > 0 {
        out := out + [SilenceToken(interval)];
      }
      j := j + 1;
    }
  }

  /** How many words of a batch were passed to `generate_audio` once `generated` clips were obtained:
      all of them, or those plus the word the loop stopped at. */
  function Tried(words: seq<string>, generated: seq<EdgeTts.Bytes>): (n: nat)
    requires |generated| <= |words|
    ensures |generated| <= n <= |words|
    ensures n == |words| || n == |generated| + 1
  {
    if |generated| < |words| then |generated| + 1 else |words|
  }

  /** The `generate_audio` call for the next word of a batch: a clip it returns is cached under that
      word's key, next to the clips of the words before it. From `t0`, the tiers before the batch, the
      tiers are those after one `generate_audio` call per word so far. */
  method SynthesizeNext(s: EdgeTts.EdgeTtsService, words: seq<string>, voice: string, rate: int,
                        backend: EdgeTts.SynthRequest -> EdgeTts.SaveOutcome, generated: seq<EdgeTts.Bytes>,
                        ghost t0: EdgeTts.Tiers)
    returns (audio: Option<EdgeTts.Bytes>)
    requires |generated| < |words|
    requires AllCached(s.cache, words, voice, rate, generated)
    requires EdgeTts.Tiers(s.cache, s.files) == EdgeTts.TiersAfter(t0, words, |generated|, voice, rate, backend)
    modifies s
    ensures AllCached(s.cache, words, voice, rate, generated)
    ensures audio.Some? ==> AllCached(s.cache, words, voice, rate, generated + [audio.value])
    ensures audio == EdgeTts.Served(old(s.cache), old(s.files), EdgeTts.KeyFor(words[|generated|], voice, rate),
                                    backend(EdgeTts.RequestFor(words[|generated|], voice, rate)))
    ensures EdgeTts.GrowsWithin(old(s.cache), s.cache, {EdgeTts.KeyFor(words[|generated|], voice, rate)})
    ensures EdgeTts.GrowsWithin(old(s.files), s.files, {EdgeTts.KeyFor(words[|generated|], voice, rate)})
    ensures EdgeTts.Tiers(s.cache, s.files) == EdgeTts.TiersAfter(t0, words, |generated| + 1, voice, rate, backend)
    ensures EdgeTts.Tiers(s.cache, s.files)
         == EdgeTts.TiersStep(EdgeTts.Tiers(old(s.cache), old(s.files)), EdgeTts.KeyFor(words[|generated|], voice, rate),
                              backend(EdgeTts.RequestFor(words[|generated|], voice, rate)))
    ensures audio.None? ==> s.cache == old(s.cache)
    ensures s.voicesCache == old(s.voicesCache) && s.voicesCacheTime == old(s.voicesCacheTime)
  {
    ghost var called;
    ghost var before := s.cache;
    audio, called := s.GenerateAudio(words[|generated|], voice, rate, backend);
    if audio.Some? {
      AllCachedGrows(before, s.cache, words, voice, rate, generated, audio.value);
    }
  }

  /** The outer loop over the words of a batch: one clip per word, written to its temporary file and
      laid out in `segments`, until a word yields no audio. `generated` holds the clips obtained. */
  method SynthesizeWords(s: EdgeTts.EdgeTtsService, words: seq<string>, voice: string, rate: int,
                         count: int, interval: int, backend: EdgeTts.SynthRequest -> EdgeTts.SaveOutcome,
                         pyHash: string -> int, tmp: string, temp: map<string, EdgeTts.Bytes>)
    returns (segments: seq<string>, tempOut: map<string, EdgeTts.Bytes>, generated: seq<EdgeTts.Bytes>)
    modifies s
    ensures |generated| <= |words|
    ensures AllCached(s.cache, words, voice, rate, generated)
    ensures tempOut == WriteAll(temp, Paths(tmp, pyHash, words[..|generated|]), generated)
    ensures |generated| == |words| ==> segments == Layout(Paths(tmp, pyHash, words), count, interval)
    ensures |generated| < |words| ==> FailsAt(old(s.cache), old(s.files), words[|generated|], voice, rate, backend)
    ensures EdgeTts.Tiers(s.cache, s.files)
         == EdgeTts.TiersAfter(EdgeTts.Tiers(old(s.cache), old(s.files)), words, Tried(words, generated), voice, rate, backend)
    ensures EdgeTts.GrowsWithin(old(s.cache), s.cache, EdgeTts.KeysFor(words, |generated|, voice, rate))
    ensures EdgeTts.GrowsWithin(old(s.files), s.files, EdgeTts.KeysFor(words, Tried(words, generated), voice, rate))
    ensures s.voicesCache == old(s.voicesCache) && s.voicesCacheTime == old(s.voicesCacheTime)
  {
    segments := [];
    tempOut := temp;
    generated := [];
    ghost var t0 := EdgeTts.Tiers(s.cache, s.files);
    var i := 0;
    while i < |words|
      invariant 0 <= i <= |words| && |generated| == i
      invariant segments == Layout(Paths(tmp, pyHash, words[..i]), count, interval)
      invariant tempOut == WriteAll(temp, Paths(tmp, pyHash, words[..i]), generated)
      invariant AllCached(s.cache, words, voice, rate, generated)
      invariant EdgeTts.Tiers(s.cache, s.files) == EdgeTts.TiersAfter(t0, words, i, voice, rate, backend)
      invariant s.voicesCache == old(s.voicesCache) && s.voicesCacheTime == old(s.voicesCacheTime)
    {
      var word := words[i];
      ghost var c, f := s.cache, s.files;
      var audio := SynthesizeNext(s, words, voice, rate, backend, generated, t0);
      if audio.None? {
        EdgeTts.TiersAfterGrows(t0, words, i, voice, rate, backend);
        EdgeTts.TiersAfterGrows(t0, words, i + 1, voice, rate, backend);
        assert FailsAt(c, f, word, voice, rate, backend);
        assert Tried(words, generated) == i + 1;
        return;
      }
      var path := SegmentPath(tmp, pyHash, word);
      tempOut := tempOut[path := audio.value];
      segments := AppendRepeats(segments, path, count, interval);
      BatchStep(tmp, pyHash, words, i, count, interval, temp, generated, audio.value);
      generated := generated + [audio.value];
      i := i + 1;
    }
    EdgeTts.TiersAfterGrows(t0, words, i, voice, rate, backend);
    assert words[..i] == words;
  }

  /** The part of `generate_batch_speech` after the service and the voice are known: the word loop,
      then the merge. The loop stops at the first word whose clip is in neither tier and whose save
      raised; that word is named in the error. */
  method BatchWithService(s: EdgeTts.EdgeTtsService, words: seq<string>, voice: string, rate: int,
                          count: int, interval: int, backend: EdgeTts.SynthRequest -> EdgeTts.SaveOutcome,
                          pyHash: string -> int, system: string -> int, tmp: string,
                          temp: map<string, EdgeTts.Bytes>)
    returns (r: Outcome<FileResponse>, tempOut: map<string, EdgeTts.Bytes>,
             ghost generated: seq<EdgeTts.Bytes>, ghost merged: Option<string>)
    modifies s
    ensures r.Throw? ==> r.exc.HttpException? && r.exc.status == 500
    ensures |generated| <= |words|
    ensures AllCached(s.cache, words, voice, rate, generated)
    ensures EdgeTts.Tiers(s.cache, s.files)
         == EdgeTts.TiersAfter(EdgeTts.Tiers(old(s.cache), old(s.files)), words, Tried(words, generated), voice, rate, backend)
    ensures EdgeTts.GrowsWithin(old(s.cache), s.cache, EdgeTts.KeysFor(words, |generated|, voice, rate))
    ensures EdgeTts.GrowsWithin(old(s.files), s.files, EdgeTts.KeysFor(words, Tried(words, generated), voice, rate))
    ensures s.voicesCache == old(s.voicesCache) && s.voicesCacheTime == old(s.voicesCacheTime)
    ensures tempOut == WriteAll(temp, Paths(tmp, pyHash, words[..|generated|]), generated)
    ensures |generated| < |words| ==>
      && FailsAt(old(s.cache), old(s.files), words[|generated|], voice, rate, backend)
      && r == Throw(Internal(WordFailed(words[|generated|]))) && merged.None?
    ensures |generated| == |words| ==>
      var output := OutputPath(tmp, pyHash, words);
      && merged == Some(Command(Layout(Paths(tmp, pyHash, words), count, interval), output))
      && r == (if system(merged.value) == 0
               then Return(FileResponse(output, MediaType, BatchFileName(|words|)))
               else Throw(Internal(MergeFailed)))
  {
    merged := None;
    var segments, clips;
    segments, tempOut, clips := SynthesizeWords(s, words, voice, rate, count, interval, backend, pyHash, tmp, temp);
    generated := clips;
    if |clips| < |words| {
      return Throw(Internal(WordFailed(words[|clips|]))), tempOut, generated, merged;
    }
    var output := OutputPath(tmp, pyHash, words);
    var cmd := Command(segments, output);
    merged := Some(cmd);
    if system(cmd) != 0 {
      return Throw(Internal(MergeFailed)), tempOut, generated, merged;
    }
    r := Return(FileResponse(output, MediaType, BatchFileName(|words|)));
  }

  /** `generate_batch_speech`. `generated` holds the clips obtained before the loop stopped and
      `merged` the command passed to sox, if it got that far. A service registered before the call
      is used with its tiers as they were; a new one starts from an empty memory tier and `onDisk`. */
  method GenerateBatchSpeech(factory: Factory.TtsFactory, req: BatchRequest, onDisk: map<string, EdgeTts.Bytes>,
                             backend: EdgeTts.SynthRequest -> EdgeTts.SaveOutcome, pyHash: string -> int,
                             system: string -> int, tmp: string, temp: map<string, EdgeTts.Bytes>)
    returns (r: Outcome<FileResponse>, tempOut: map<string, EdgeTts.Bytes>,
             ghost generated: seq<EdgeTts.Bytes>, ghost merged: Option<string>)
    requires factory.Valid()
    modifies factory, factory.instances.Values
    ensures factory.Valid()
    ensures r.Throw? ==> r.exc.HttpException? && r.exc.status == 500
    ensures req.engine == WebSpeechEngine ==> r == Throw(Internal(NoService)) && merged.None?
    ensures req.engine != EdgeEngine && req.engine != WebSpeechEngine ==>
      r == Throw(Internal(Factory.UnsupportedEngine(req.engine))) && merged.None?
    ensures req.engine != EdgeEngine ==> factory.instances == old(factory.instances)
    ensures req.engine == EdgeEngine ==>
      && EdgeEngine in factory.instances
      && factory.instances == old(factory.instances)[EdgeEngine := factory.instances[EdgeEngine]]
      && (EdgeEngine in old(factory.instances) ==> factory.instances[EdgeEngine] == old(factory.instances)[EdgeEngine])
      && |generated| <= |req.words|
      && var voice := EffectiveVoice(req.voice, req.engine).value;
      && var registered := EdgeEngine in old(factory.instances);
      && var c0 := if registered then old(factory.instances[EdgeEngine].cache) else map[];
      && var f0 := if registered then old(factory.instances[EdgeEngine].files) else onDisk;
      && AllCached(factory.instances[EdgeEngine].cache, req.words, voice, req.rate, generated)
      && var s := factory.instances[EdgeEngine];
      && EdgeTts.Tiers(s.cache, s.files)
         == EdgeTts.TiersAfter(EdgeTts.Tiers(c0, f0), req.words, Tried(req.words, generated), voice, req.rate, backend)
      && EdgeTts.GrowsWithin(c0, s.cache, EdgeTts.KeysFor(req.words, |generated|, voice, req.rate))
      && EdgeTts.GrowsWithin(f0, s.files, EdgeTts.KeysFor(req.words, Tried(req.words, generated), voice, req.rate))
      && s.voicesCache == (if registered then old(factory.instances[EdgeEngine].voicesCache) else None)
      && s.voicesCacheTime == (if registered then old(factory.instances[EdgeEngine].voicesCacheTime) else 0)
      && tempOut == WriteAll(temp, Paths(tmp, pyHash, req.words[..|generated|]), generated)
      && (|generated| < |req.words| ==>
            && FailsAt(c0, f0, req.words[|generated|], voice, req.rate, backend)
            && r == Throw(Internal(WordFailed(req.words[|generated|]))) && merged.None?)
      && (|generated| == |req.words| ==>
            var output := OutputPath(tmp, pyHash, req.words);
            && merged == Some(Command(Layout(Paths(tmp, pyHash, req.words), req.repeatCount, req.repeatInterval), output))
            && r == (if system(merged.value) == 0
                     then Return(FileResponse(output, MediaType, BatchFileName(|req.words|)))
                     else Throw(Internal(MergeFailed))))
  {
    tempOut := temp;
    generated := [];
    merged := None;
    var got := factory.GetTtsService(req.engine, onDisk);
    if got.Throw? {
      return Throw(Internal(got.exc)), tempOut, generated, merged;
    }
    if got.value.None? {
      return Throw(Internal(NoService)), tempOut, generated, merged;
    }
    var s := got.value.value;
    var voiceOpt := EffectiveVoice(req.voice, req.engine);
    if voiceOpt.None? {
      return Throw(Internal(Raised("KeyError"))), tempOut, generated, merged;
    }
    r, tempOut, generated, merged := BatchWithService(s, req.words, voiceOpt.value, req.rate, req.repeatCount,
                                                      req.repeatInterval, backend, pyHash, system, tmp, temp);
  }

  /** `generate_speech`: the clip the service produces, returned unchanged. */
  method GenerateSpeech(factory: Factory.TtsFactory, req: SpeechRequest, onDisk: map<string, EdgeTts.Bytes>,
                        backend: EdgeTts.SynthRequest -> EdgeTts.SaveOutcome, pyHash: string -> int)
    returns (r: Outcome<StreamingResponse>, ghost audio: Option<EdgeTts.Bytes>)
    requires factory.Valid()
    modifies factory, factory.instances.Values
    ensures factory.Valid()
    ensures r.Throw? ==> r.exc.HttpException? && r.exc.status == 500
    ensures req.engine == WebSpeechEngine ==> r == Throw(Internal(NoService))
    ensures req.engine != EdgeEngine && req.engine != WebSpeechEngine ==>
      r == Throw(Internal(Factory.UnsupportedEngine(req.engine)))
    ensures req.engine != EdgeEngine ==> factory.instances == old(factory.instances)
    ensures req.engine == EdgeEngine ==>
      && EdgeEngine in factory.instances
      && factory.instances == old(factory.instances)[EdgeEngine := factory.instances[EdgeEngine]]
      && (EdgeEngine in old(factory.instances) ==> factory.instances[EdgeEngine] == old(factory.instances)[EdgeEngine])
      && var voice := EffectiveVoice(req.voice, req.engine).value;
      && var key := EdgeTts.KeyFor(req.text, voice, req.rate);
      && var registered := EdgeEngine in old(factory.instances);
      && var c0 := if registered then old(factory.instances[EdgeEngine].cache) else map[];
      && var f0 := if registered then old(factory.instances[EdgeEngine].files) else onDisk;
      && audio == EdgeTts.Served(c0, f0, key, backend(EdgeTts.RequestFor(req.text, voice, req.rate)))
      && EdgeTts.GrowsWithin(c0, factory.instances[EdgeEngine].cache, {key})
      && EdgeTts.GrowsWithin(f0, factory.instances[EdgeEngine].files, {key})
      && EdgeTts.Tiers(factory.instances[EdgeEngine].cache, factory.instances[EdgeEngine].files)
         == EdgeTts.TiersStep(EdgeTts.Tiers(c0, f0), key, backend(EdgeTts.RequestFor(req.text, voice, req.rate)))
      && factory.instances[EdgeEngine].voicesCache
         == (if registered then old(factory.instances[EdgeEngine].voicesCache) else None)
      && factory.instances[EdgeEngine].voicesCacheTime
         == (if registered then old(factory.instances[EdgeEngine].voicesCacheTime) else 0)
      && (audio.None? ==> r == Throw(Internal(SpeechFailed)) && factory.instances[EdgeEngine].cache == c0)
      && (audio.Some? ==>
            && key in factory.instances[EdgeEngine].cache
            && factory.instances[EdgeEngine].cache[key] == audio.value
            && r == Return(StreamingResponse(audio.value, MediaType,
                   "attachment; filename=\"" + Text.IntToString(pyHash(req.text)) + ".mp3\"")))
  {
    audio := None;
    var got := factory.GetTtsService(req.engine, onDisk);
    if got.Throw? {
      return Throw(Internal(got.exc)), audio;
    }
    if got.value.None? {
      return Throw(Internal(NoService)), audio;
    }
    var s := got.value.value;
    var voiceOpt := EffectiveVoice(req.voice, req.engine);
    if voiceOpt.None? {
      return Throw(Internal(Raised("KeyError"))), audio;
    }
    ghost var called;
    var data;
    data, called := s.GenerateAudio(req.text, voiceOpt.value, req.rate, backend);
    audio := data;
    if data.None? {
      return Throw(Internal(SpeechFailed)), audio;
    }
    r := Return(StreamingResponse(data.value, MediaType,
                "attachment; filename=\"" + Text.IntToString(pyHash(req.text)) + ".mp3\""));
  }
}

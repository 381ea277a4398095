/** EdgeTTSService (src/services/tts/edge_tts.py): a two-tier audio cache in front of the
    speech backend, and a voice list cached for an hour.

    Rates are integer hundredths of normal speed (100 is 1.0, 150 is 1.5). */
module EdgeTts {
  import opened Wrappers
  import Text

  newtype byte = x: int | 0 <= x < 256
  type Bytes = seq<byte>

  const MinRate: int := 50
  const MaxRate: int := 200
  const NormalRate: int := 100
  const VoicesCacheTtl: int := 3600

  /** `hashlib.md5(s.encode()).hexdigest()`: left uninterpreted, so nothing is known about collisions. */
  const Md5Hex: string -> string

  function Dist(a: int, b: int): nat {
    if a < b then b - a else a - b
  }

  function Min(a: int, b: int): int {
    if a < b then a else b
  }

  function Max(a: int, b: int): int {
    if a < b then b else a
  }

  /** `max(0.5, min(2.0, rate))`: the rate of [0.5, 2.0] nearest to `rate`. */
  function ClampRate(rate: int): (r: int)
    ensures MinRate <= r <= MaxRate
    ensures MinRate <= rate <= MaxRate ==> r == rate
    ensures forall x :: MinRate <= x <= MaxRate ==> Dist(r, rate) <= Dist(x, rate)
  {
    Max(MinRate, Min(MaxRate, rate))
  }

  lemma ClampIdempotent(rate: int)
    ensures ClampRate(ClampRate(rate)) == ClampRate(rate)
  {
  }

  /** The string that is hashed into a cache key: f"{text}_{voice}_{rate}". */
  function KeyText(text: string, voice: string, rate: int): string {
    text + "_" + voice + "_" + Text.DecimalRepr(rate)
  }

  /** `_get_cache_key(text, voice, rate)`. */
  function CacheKey(text: string, voice: string, rate: int): string {
    Md5Hex(KeyText(text, voice, rate))
  }

  /** For a fixed text and voice, the hashed string determines the rate. */
  lemma KeyTextDeterminesRate(text: string, voice: string, r1: int, r2: int)
    requires KeyText(text, voice, r1) == KeyText(text, voice, r2)
    ensures r1 == r2
  {
    var p := text + "_" + voice + "_";
    assert KeyText(text, voice, r1) == p + Text.DecimalRepr(r1);
    assert KeyText(text, voice, r2) == p + Text.DecimalRepr(r2);
    assert (p + Text.DecimalRepr(r1))[|p|..] == Text.DecimalRepr(r1);
    assert (p + Text.DecimalRepr(r2))[|p|..] == Text.DecimalRepr(r2);
    Text.DecimalReprInjective(r1, r2);
  }

  /** Rates that clamp to the same value share one cache key. */
  lemma ClampedRatesShareKey(text: string, voice: string, r1: int, r2: int)
    requires (r1 <= MinRate && r2 <= MinRate) || (r1 >= MaxRate && r2 >= MaxRate)
    ensures CacheKey(text, voice, ClampRate(r1)) == CacheKey(text, voice, ClampRate(r2))
  {
  }

  /** The rate argument handed to the backend: f"+{int((rate - 1) * 100)}%". */
  function RateString(rate: int): string {
    "+" + Text.IntToString(rate - NormalRate) + "%"
  }

  /** After clamping the offset lies in -50..100; below normal speed the string reads "+-NN%". */
  lemma ClampedRateString(rate: int)
    ensures var off := ClampRate(rate) - NormalRate;
      && -50 <= off <= 100
      && RateString(ClampRate(rate))
         == (if off < 0 then "+-" + Text.NatToString(-off) else "+" + Text.NatToString(off)) + "%"
  {
  }

  /** One request to the speech backend: `edge_tts.Communicate(text, voice, rate=...)`. */
  datatype SynthRequest = SynthRequest(text: string, voice: string, rate: string)

  /** What `communicate.save(path)` does: the file holds `audio`, or the call raised,
      leaving behind whatever it had already written (it opens the file before streaming). */
  datatype SaveOutcome = Saved(audio: Bytes) | Failed(leftOnDisk: Option<Bytes>)

  /** One entry of `edge_tts.list_voices()`, a JSON object. */
  type RawVoice = map<string, string>

  datatype Voice = Voice(name: string, locale: string, gender: string)

  predicate HasVoiceFields(v: RawVoice) {
    "ShortName" in v && "Locale" in v && "Gender" in v
  }

  /** The comprehension building `{name, locale, gender}` records; None where it raises KeyError. */
  function VoiceRecords(raw: seq<RawVoice>): (r: Option<seq<Voice>>)
    ensures r.Some? <==> forall i :: 0 <= i < |raw| ==> HasVoiceFields(raw[i])
    ensures r.Some? ==> |r.value| == |raw|
    ensures r.Some? ==> forall i :: 0 <= i < |raw| ==>
      r.value[i] == Voice(raw[i]["ShortName"], raw[i]["Locale"], raw[i]["Gender"])
    decreases |raw|
  {
    if raw == [] then Some([])
    else if !HasVoiceFields(raw[0]) then None
    else
      match VoiceRecords(raw[1..])
      case None => None
      case Some(rest) => Some([Voice(raw[0]["ShortName"], raw[0]["Locale"], raw[0]["Gender"])] + rest)
  }

  /** Every entry of `before` is still in `after` with the same bytes. */
  ghost predicate Extends(before: map<string, Bytes>, after: map<string, Bytes>) {
    forall k :: k in before ==> k in after && after[k] == before[k]
  }

  /** `after` keeps every entry of `before` and has new entries only under `keys`. */
  ghost predicate GrowsWithin(before: map<string, Bytes>, after: map<string, Bytes>, keys: set<string>) {
    Extends(before, after) && after.Keys <= before.Keys + keys
  }

  lemma GrowsWithinTrans(a: map<string, Bytes>, b: map<string, Bytes>, c: map<string, Bytes>,
                         k1: set<string>, k2: set<string>)
    requires GrowsWithin(a, b, k1) && GrowsWithin(b, c, k2)
    ensures GrowsWithin(a, c, k1 + k2)
  {
  }

  /** The key `generate_audio` files a request under, once the rate is clamped. */
  function KeyFor(text: string, voice: string, rate: int): string {
    CacheKey(text, voice, ClampRate(rate))
  }

  /** The request `generate_audio` hands the backend when both tiers miss. */
  function RequestFor(text: string, voice: string, rate: int): SynthRequest {
    SynthRequest(text, voice, RateString(ClampRate(rate)))
  }

  /** The key of each text at one voice and rate. */
  function KeyOf(voice: string, rate: int): string -> string {
    text => KeyFor(text, voice, rate)
  }

  /** The backend's answer for each text at one voice and rate. */
  function AskOf(voice: string, rate: int, backend: SynthRequest -> SaveOutcome): string -> SaveOutcome {
    text => backend(RequestFor(text, voice, rate))
  }

  /** The keys of the first `n` of a run of texts, each filed under `key(text)`. */
  ghost function RunKeys(texts: seq<string>, n: nat, key: string -> string): set<string>
    requires n <= |texts|
  {
    set j | 0 <= j < n :: key(texts[j])
  }

  lemma RunKeysStep(texts: seq<string>, i: nat, key: string -> string)
    requires i < |texts|
    ensures RunKeys(texts, i + 1, key) == RunKeys(texts, i, key) + {key(texts[i])}
  {
  }

  /** The keys of the first `n` of a run of texts spoken at one voice and rate. */
  ghost function KeysFor(texts: seq<string>, n: nat, voice: string, rate: int): (r: set<string>)
    requires n <= |texts|
    ensures forall j :: 0 <= j < n ==> KeyFor(texts[j], voice, rate) in r
    ensures forall k :: k in r ==> exists j :: 0 <= j < n && k == KeyFor(texts[j], voice, rate)
  {
    RunKeys(texts, n, KeyOf(voice, rate))
  }

  /** The clip `generate_audio` yields for `key`: the memory tier's, else the file tier's, else what the
      backend saved (None when the save raised). */
  function Served(cache: map<string, Bytes>, files: map<string, Bytes>, key: string, outcome: SaveOutcome)
    : (r: Option<Bytes>)
    ensures r.None? <==> key !in cache && key !in files && outcome.Failed?
    ensures key in cache ==> r == Some(cache[key])
  {
    if key in cache then Some(cache[key])
    else if key in files then Some(files[key])
    else if outcome.Saved? then Some(outcome.audio)
    else None
  }

  /** The memory tier after `generate_audio` for `key`; `CacheAfterServed` states what it holds. */
  function CacheAfter(cache: map<string, Bytes>, files: map<string, Bytes>, key: string, outcome: SaveOutcome)
    : map<string, Bytes>
  {
    if key in cache then cache
    else if key in files then cache[key := files[key]]
    else match outcome
      case Saved(data) => cache[key := data]
      case Failed(_) => cache
  }

  /** The file tier after `generate_audio` for `key`; `FilesAfterWrites` states what it holds. */
  function FilesAfter(cache: map<string, Bytes>, files: map<string, Bytes>, key: string, outcome: SaveOutcome)
    : map<string, Bytes>
  {
    if key in cache || key in files then files
    else match outcome
      case Saved(data) => files[key := data]
      case Failed(left) => if left.Some? then files[key := left.value] else files
  }

  /** The memory tier gets the clip `generate_audio` yields under the key, and nothing when it yields
      none; no other entry changes. */
  lemma CacheAfterServed(cache: map<string, Bytes>, files: map<string, Bytes>, key: string, outcome: SaveOutcome)
    ensures Served(cache, files, key, outcome).Some? ==>
      CacheAfter(cache, files, key, outcome) == cache[key := Served(cache, files, key, outcome).value]
    ensures Served(cache, files, key, outcome).None? ==> CacheAfter(cache, files, key, outcome) == cache
    ensures GrowsWithin(cache, CacheAfter(cache, files, key, outcome), {key})
  {
    if key in cache {
      assert cache[key := cache[key]] == cache;
    }
  }

  /** Only a call that reaches the backend writes a file, and it writes under the key the saved bytes
      or the part a failed save left; no other entry changes. */
  lemma FilesAfterWrites(cache: map<string, Bytes>, files: map<string, Bytes>, key: string, outcome: SaveOutcome)
    ensures var r := FilesAfter(cache, files, key, outcome);
      && GrowsWithin(files, r, {key})
      && (key in r <==> key in files || (key !in cache && (outcome.Saved? || outcome.leftOnDisk.Some?)))
      && (key !in cache && key !in files && outcome.Saved? ==> r[key] == outcome.audio)
      && (key !in cache && key !in files && outcome.Failed? && outcome.leftOnDisk.Some? ==>
            r[key] == outcome.leftOnDisk.value)
  {
  }

  /** The memory and file tiers of a service. */
  datatype Tiers = Tiers(cache: map<string, Bytes>, files: map<string, Bytes>)

  /** Both tiers after one `generate_audio` call for `key`. */
  function TiersStep(t: Tiers, key: string, outcome: SaveOutcome): Tiers {
    Tiers(CacheAfter(t.cache, t.files, key, outcome), FilesAfter(t.cache, t.files, key, outcome))
  }

  /** One call: neither tier loses an entry, and both gain one only under the call's key. */
  lemma TiersStepGrows(t: Tiers, key: string, outcome: SaveOutcome)
    ensures GrowsWithin(t.cache, TiersStep(t, key, outcome).cache, {key})
    ensures GrowsWithin(t.files, TiersStep(t, key, outcome).files, {key})
  {
    CacheAfterServed(t.cache, t.files, key, outcome);
    FilesAfterWrites(t.cache, t.files, key, outcome);
  }

  /** Both tiers after `generate_audio` for each of the first `n` of a run of texts, the text `x`
      filed under `key(x)` and answered by `ask(x)`. */
  ghost function TiersRun(t: Tiers, texts: seq<string>, n: nat, key: string -> string, ask: string -> SaveOutcome)
    : Tiers
    requires n <= |texts|
    decreases n
  {
    if n == 0 then t
    else TiersStep(TiersRun(t, texts, n - 1, key, ask), key(texts[n - 1]), ask(texts[n - 1]))
  }

  /** Over a run, neither tier loses an entry, and both gain entries only under the run's keys. */
  lemma {:induction false} TiersRunGrows(t: Tiers, texts: seq<string>, n: nat, key: string -> string,
                                         ask: string -> SaveOutcome)
    requires n <= |texts|
    ensures GrowsWithin(t.cache, TiersRun(t, texts, n, key, ask).cache, RunKeys(texts, n, key))
    ensures GrowsWithin(t.files, TiersRun(t, texts, n, key, ask).files, RunKeys(texts, n, key))
    decreases n
  {
    if n > 0 {
      TiersRunGrows(t, texts, n - 1, key, ask);
      var prev := TiersRun(t, texts, n - 1, key, ask);
      TiersStepGrows(prev, key(texts[n - 1]), ask(texts[n - 1]));
      GrowsWithinTrans(t.cache, prev.cache, TiersRun(t, texts, n, key, ask).cache,
                       RunKeys(texts, n - 1, key), {key(texts[n - 1])});
      GrowsWithinTrans(t.files, prev.files, TiersRun(t, texts, n, key, ask).files,
                       RunKeys(texts, n - 1, key), {key(texts[n - 1])});
      RunKeysStep(texts, n - 1, key);
    }
  }

  /** The tiers after a run depend only on the texts run so far. */
  lemma {:induction false} TiersRunPrefix(t: Tiers, a: seq<string>, b: seq<string>, n: nat, key: string -> string,
                                          ask: string -> SaveOutcome)
    requires n <= |a| && n <= |b|
    requires forall j :: 0 <= j < n ==> a[j] == b[j]
    ensures TiersRun(t, a, n, key, ask) == TiersRun(t, b, n, key, ask)
    decreases n
  {
    if n > 0 {
      TiersRunPrefix(t, a, b, n - 1, key, ask);
      assert a[n - 1] == b[n - 1];
    }
  }

  /** Both tiers after `generate_audio` for each of the first `n` of a run of texts, in order, at one
      voice and rate. */
  ghost function TiersAfter(t: Tiers, texts: seq<string>, n: nat, voice: string, rate: int,
                            backend: SynthRequest -> SaveOutcome): Tiers
    requires n <= |texts|
  {
    TiersRun(t, texts, n, KeyOf(voice, rate), AskOf(voice, rate, backend))
  }

  /** One more text of the run: one more `generate_audio` call, for that text. */
  lemma TiersAfterStep(t: Tiers, texts: seq<string>, n: nat, voice: string, rate: int,
                       backend: SynthRequest -> SaveOutcome)
    requires n < |texts|
    ensures TiersAfter(t, texts, n + 1, voice, rate, backend)
         == TiersStep(TiersAfter(t, texts, n, voice, rate, backend), KeyFor(texts[n], voice, rate),
                      backend(RequestFor(texts[n], voice, rate)))
  {
  }

  /** Over a run, neither tier loses an entry, and both gain entries only under the run's keys. */
  lemma TiersAfterGrows(t: Tiers, texts: seq<string>, n: nat, voice: string, rate: int,
                        backend: SynthRequest -> SaveOutcome)
    requires n <= |texts|
    ensures GrowsWithin(t.cache, TiersAfter(t, texts, n, voice, rate, backend).cache, KeysFor(texts, n, voice, rate))
    ensures GrowsWithin(t.files, TiersAfter(t, texts, n, voice, rate, backend).files, KeysFor(texts, n, voice, rate))
  {
    TiersRunGrows(t, texts, n, KeyOf(voice, rate), AskOf(voice, rate, backend));
  }

  /** Appending a text to a run: one more call, for that text. */
  lemma TiersAfterSnoc(t: Tiers, texts: seq<string>, text: string, voice: string, rate: int,
                       backend: SynthRequest -> SaveOutcome)
    ensures TiersAfter(t, texts + [text], |texts| + 1, voice, rate, backend)
         == TiersStep(TiersAfter(t, texts, |texts|, voice, rate, backend), KeyFor(text, voice, rate),
                      backend(RequestFor(text, voice, rate)))
  {
    TiersRunPrefix(t, texts + [text], texts, |texts|, KeyOf(voice, rate), AskOf(voice, rate, backend));
    TiersAfterStep(t, texts + [text], |texts|, voice, rate, backend);
  }

  class EdgeTtsService {
    /** `_cache`: the memory tier. */
    var cache: map<string, Bytes>
    /** The file tier: `<temp dir>/web_dictation_tts/<key>.mp3`. */
    var files: map<string, Bytes>
    var voicesCache: Option<seq<Voice>>
    var voicesCacheTime: int

    constructor (onDisk: map<string, Bytes>)
      ensures cache == map[] && files == onDisk
      ensures voicesCache == None && voicesCacheTime == 0
    {
      cache := map[];
      files := onDisk;
      voicesCache := None;
      voicesCacheTime := 0;
    }

    /** `generate_audio`: memory tier, then file tier, then the backend. `called` says
        whether the backend was asked. */
    method GenerateAudio(text: string, voice: string, rate: int, backend: SynthRequest -> SaveOutcome)
      returns (audio: Option<Bytes>, ghost called: bool)
      modifies this
      ensures voicesCache == old(voicesCache) && voicesCacheTime == old(voicesCacheTime)
      ensures var key := CacheKey(text, voice, ClampRate(rate));
        && (key in old(cache) ==>
              audio == Some(old(cache)[key]) && cache == old(cache) && files == old(files))
        && (key !in old(cache) && key in old(files) ==>
              audio == Some(old(files)[key]) && cache == old(cache)[key := old(files)[key]]
              && files == old(files))
        && (called <==> key !in old(cache) && key !in old(files))
        && (called ==>
              match backend(SynthRequest(text, voice, RateString(ClampRate(rate))))
              case Saved(data) =>
                audio == Some(data) && cache == old(cache)[key := data] && files == old(files)[key := data]
              case Failed(left) =>
                audio == None && cache == old(cache)
                && files == (if left.Some? then old(files)[key := left.value] else old(files)))
      ensures audio == Served(old(cache), old(files), CacheKey(text, voice, ClampRate(rate)),
                              backend(SynthRequest(text, voice, RateString(ClampRate(rate)))))
      ensures audio.Some? ==>
        CacheKey(text, voice, ClampRate(rate)) in cache && cache[CacheKey(text, voice, ClampRate(rate))] == audio.value
      ensures audio.None? ==> cache == old(cache)
      ensures Extends(old(cache), cache) && Extends(old(files), files)
      ensures cache.Keys <= old(cache).Keys + {KeyFor(text, voice, rate)}
      ensures files.Keys <= old(files).Keys + {KeyFor(text, voice, rate)}
      ensures Tiers(cache, files) == TiersStep(Tiers(old(cache), old(files)), KeyFor(text, voice, rate),
                                               backend(RequestFor(text, voice, rate)))
    {
      var r := ClampRate(rate);
      var key := CacheKey(text, voice, r);
      called := false;
      if key in cache {
        audio := Some(cache[key]);
        return;
      }
      if key in files {
        var data := files[key];
        cache := cache[key := data];
        audio := Some(data);
        return;
      }
      called := true;
      var outcome := backend(SynthRequest(text, voice, RateString(r)));
      match outcome
      case Saved(data) =>
        files := files[key := data];
        cache := cache[key := data];
        audio := Some(data);
      case Failed(left) =>
        if left.Some? {
          files := files[key := left.value];
        }
        audio := None;
    }

    predicate VoicesFresh(now: int)
      reads this
    {
      voicesCache.Some? && now - voicesCacheTime < VoicesCacheTtl
    }

    /** `get_available_voices`; `fetched` is what `edge_tts.list_voices()` returned, None if it raised. */
    method GetAvailableVoices(now: int, fetched: Option<seq<RawVoice>>) returns (voices: seq<Voice>)
      modifies this
      ensures cache == old(cache) && files == old(files)
      ensures old(VoicesFresh(now)) ==>
        voices == old(voicesCache).value
        && voicesCache == old(voicesCache) && voicesCacheTime == old(voicesCacheTime)
      ensures !old(VoicesFresh(now)) ==>
        var records := if fetched.Some? then VoiceRecords(fetched.value) else None;
        && (records.Some? ==>
              voices == records.value && voicesCache == records && voicesCacheTime == now)
        && (records.None? ==>
              voices == (if old(voicesCache).Some? then old(voicesCache).value else [])
              && voicesCache == old(voicesCache) && voicesCacheTime == old(voicesCacheTime))
    {
      if voicesCache.Some? && now - voicesCacheTime < VoicesCacheTtl {
        voices := voicesCache.value;
        return;
      }
      var records := if fetched.Some? then VoiceRecords(fetched.value) else None;
      if records.Some? {
        voicesCache := records;
        voicesCacheTime := now;
        voices := records.value;
      } else if voicesCache.Some? {
        voices := voicesCache.value;
      } else {
        voices := [];
      }
    }
  }

  /** A second request for the same text and voice, at any rate that clamps alike, is served from
      memory with the bytes of the first, whenever the first produced audio. */
  method RepeatIsServedFromMemory(s: EdgeTtsService, text: string, voice: string, r1: int, r2: int,
                                  b1: SynthRequest -> SaveOutcome, b2: SynthRequest -> SaveOutcome)
    returns (first: Option<Bytes>, second: Option<Bytes>, ghost calledAgain: bool)
    requires ClampRate(r1) == ClampRate(r2)
    modifies s
    ensures first.Some? ==> second == first && !calledAgain && s.cache == old(s.cache)[CacheKey(text, voice, ClampRate(r1)) := first.value]
  {
    ghost var c1;
    first, c1 := s.GenerateAudio(text, voice, r1, b1);
    second, calledAgain := s.GenerateAudio(text, voice, r2, b2);
  }

  /** A save that raised after writing part of the file leaves that part in the file tier,
      and the next request for the same key returns it as audio without asking the backend. */
  method PartialSaveIsServedNext(s: EdgeTtsService, text: string, voice: string, rate: int,
                                 b1: SynthRequest -> SaveOutcome, b2: SynthRequest -> SaveOutcome)
    returns (first: Option<Bytes>, second: Option<Bytes>, ghost calledAgain: bool)
    requires CacheKey(text, voice, ClampRate(rate)) !in s.cache && CacheKey(text, voice, ClampRate(rate)) !in s.files
    requires b1(SynthRequest(text, voice, RateString(ClampRate(rate)))).Failed?
    requires b1(SynthRequest(text, voice, RateString(ClampRate(rate)))).leftOnDisk.Some?
    modifies s
    ensures first == None
    ensures second == b1(SynthRequest(text, voice, RateString(ClampRate(rate)))).leftOnDisk && !calledAgain
  {
    ghost var c1;
    first, c1 := s.GenerateAudio(text, voice, rate, b1);
    second, calledAgain := s.GenerateAudio(text, voice, rate, b2);
  }
}

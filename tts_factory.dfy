/** TTSFactory (src/services/tts_factory.py): a registry holding at most one speech service
    per engine name. Only "edge-tts" has a server-side service. */
module Factory {
  import opened Wrappers
  import opened Settings
  import EdgeTts

  function UnsupportedEngine(engine: string): Exc {
    ValueError("不支持的TTS引擎类型: " + engine)
  }

  class TtsFactory {
    /** `TTSFactory._instances`. */
    var instances: map<string, EdgeTts.EdgeTtsService>

    /** The registry never holds any engine other than "edge-tts". */
    ghost predicate Valid()
      reads this
    {
      instances.Keys <= {EdgeEngine}
    }

    constructor ()
      ensures instances == map[]
      ensures Valid()
    {
      instances := map[];
    }

    /** `get_tts_service(engine)`; `onDisk` is the file tier a new service finds on disk. */
    method GetTtsService(engine: string, onDisk: map<string, EdgeTts.Bytes>)
      returns (r: Outcome<Option<EdgeTts.EdgeTtsService>>)
      requires Valid()
      modifies this
      ensures Valid()
      ensures engine in old(instances) ==>
        r == Return(Some(old(instances)[engine])) && instances == old(instances)
      ensures engine !in old(instances) && engine == EdgeEngine ==>
        && r.Return? && r.value.Some? && fresh(r.value.value)
        && r.value.value.cache == map[] && r.value.value.files == onDisk
        && r.value.value.voicesCache == None
        && instances == old(instances)[engine := r.value.value]
      ensures engine == EdgeEngine ==>
        && r.Return? && r.value.Some? && EdgeEngine in instances && r.value.value == instances[EdgeEngine]
        && instances == old(instances)[EdgeEngine := r.value.value]
        && r.value.value.cache == (if EdgeEngine in old(instances) then old(instances[EdgeEngine].cache) else map[])
        && r.value.value.files == (if EdgeEngine in old(instances) then old(instances[EdgeEngine].files) else onDisk)
        && r.value.value.voicesCache == (if EdgeEngine in old(instances) then old(instances[EdgeEngine].voicesCache) else None)
        && r.value.value.voicesCacheTime == (if EdgeEngine in old(instances) then old(instances[EdgeEngine].voicesCacheTime) else 0)
      ensures engine == WebSpeechEngine ==> r == Return(None) && instances == old(instances)
      ensures engine != EdgeEngine && engine != WebSpeechEngine ==>
        r == Throw(UnsupportedEngine(engine)) && instances == old(instances)
    {
      if engine !in instances {
        if engine == EdgeEngine {
          var s := new EdgeTts.EdgeTtsService(onDisk);
          instances := instances[engine := s];
        } else if engine == WebSpeechEngine {
          return Return(None);
        } else {
          return Throw(UnsupportedEngine(engine));
        }
      }
      r := Return(Some(instances[engine]));
    }
  }

  /** Two lookups of "edge-tts" return one and the same service, whatever was registered before. */
  method SameInstanceTwice(f: TtsFactory, d1: map<string, EdgeTts.Bytes>, d2: map<string, EdgeTts.Bytes>)
    returns (a: Outcome<Option<EdgeTts.EdgeTtsService>>, b: Outcome<Option<EdgeTts.EdgeTtsService>>)
    requires f.Valid()
    modifies f
    ensures a.Return? && a.value.Some? && a == b
    ensures f.instances.Keys == {EdgeEngine}
  {
    a := f.GetTtsService(EdgeEngine, d1);
    b := f.GetTtsService(EdgeEngine, d2);
  }
}

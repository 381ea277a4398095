/** Configuration values of src/config/settings.py that the modelled components read. */
module Settings {
  import opened Wrappers

  const MaxConcurrency: int := 3
  const Timeout: int := 300
  const EdgeEngine: string := "edge-tts"
  const WebSpeechEngine: string := "web-speech"

  /** `TTS_ENGINES[engine]["default_voice"]`; None where the lookup raises KeyError. */
  function DefaultVoice(engine: string): Option<string> {
    if engine == EdgeEngine then Some("zh-CN-XiaoxiaoNeural")
    else if engine == WebSpeechEngine then Some("Microsoft Huihui")
    else None
  }
}

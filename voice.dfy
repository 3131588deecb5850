/**
 * Voice selection of the speech configuration (azure_synthesiser.py,
 * speech_synthesis_to_mp3 and speech_synthesis_to_push_audio_output_stream).
 * A language that the language-to-voice table knows selects that voice by
 * name; any other language is passed through as a plain language hint.
 */
module Voice {
  import opened Options

  /** The language used when a caller names none. */
  const DefaultLanguage: string := "zh-CN"

  /** The two speech-configuration settings the selection may assign. */
  datatype Setting = Setting(voiceName: Option<string>, languageHint: Option<string>)

  /** The setting placed on the speech configuration for `language`. */
  function Select(voiceMap: map<string, string>, language: string): (r: Setting)
    ensures r.voiceName.Some? <==> language in voiceMap
    ensures r.languageHint.Some? <==> language !in voiceMap
    ensures r.voiceName.Some? ==> r.voiceName.value == voiceMap[language]
    ensures r.languageHint.Some? ==> r.languageHint.value == language
  {
    if language in voiceMap then Setting(Some(voiceMap[language]), None)
    else Setting(None, Some(language))
  }

  /** Exactly one of the two settings is assigned, whatever the table holds. */
  lemma ExactlyOneSetting(voiceMap: map<string, string>, language: string)
    ensures Select(voiceMap, language).voiceName.Some? != Select(voiceMap, language).languageHint.Some?
  {
  }
}

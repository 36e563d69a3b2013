/** Language codes, their display names and the text-to-speech voice chosen
    for each (services/script_generator.py, services/audio_processor.py). */
module Languages {
  import opened Results
  import opened Text

  /** The twelve codes the language detector may return. */
  const Supported: seq<string> :=
    ["en", "es", "fr", "de", "it", "pt", "ru", "ja", "ko", "zh", "ar", "hi"]

  /** The prompt tables' code-to-name dictionary. */
  const LanguageNames: map<string, string> := map[
    "en" := "English", "es" := "Spanish", "fr" := "French", "de" := "German",
    "it" := "Italian", "pt" := "Portuguese", "ru" := "Russian", "ja" := "Japanese",
    "ko" := "Korean", "zh" := "Chinese", "ar" := "Arabic", "hi" := "Hindi"]

  /** The voice chosen for each code when the caller left the voice at its default. */
  const VoiceTable: map<string, string> := map[
    "en" := "alloy", "es" := "nova", "fr" := "shimmer", "de" := "onyx",
    "it" := "nova", "pt" := "nova", "ru" := "echo", "ja" := "shimmer",
    "ko" := "shimmer", "zh" := "nova", "ar" := "fable", "hi" := "nova"]

  /** The request's default voice, which also serves as the fallback voice. */
  const DefaultVoice: string := "alloy"

  /** The six voices the text-to-speech service offers. */
  const Voices: set<string> := {"alloy", "echo", "fable", "onyx", "nova", "shimmer"}

  /** `language_names.get(language, 'English')`: unknown codes read as English. */
  function LanguageName(code: string): (name: string)
    ensures code in LanguageNames ==> name == LanguageNames[code]
    ensures code !in LanguageNames ==> name == "English"
  {
    if code in LanguageNames then LanguageNames[code] else "English"
  }

  /** `detect_language`: the model's reply, stripped and lower-cased, is kept
      only when it is one of the twelve codes; any other reply, and a failed
      call (`None`), give "en". */
  function DetectLanguage(reply: Option<string>): (code: string)
    ensures code in Supported
    ensures reply.Some? && Lower(Strip(reply.value)) in Supported ==> code == Lower(Strip(reply.value))
    ensures reply.None? || Lower(Strip(reply.value)) !in Supported ==> code == "en"
  {
    match reply
    case None => "en"
    case Some(text) =>
      var c := Lower(Strip(text));
      if c in Supported then c else "en"
  }

  /** `get_voice_for_language`: an explicit non-default voice wins whatever the
      language; with the default voice the table decides, and a code outside
      the table falls back to the default voice. It never fails. */
  function VoiceForLanguage(language: string, userVoice: string): (voice: string)
    ensures userVoice != DefaultVoice ==> voice == userVoice
    ensures userVoice == DefaultVoice && language in VoiceTable ==> voice == VoiceTable[language]
    ensures userVoice == DefaultVoice && language !in VoiceTable ==> voice == DefaultVoice
    ensures userVoice in Voices ==> voice in Voices
  {
    if userVoice != DefaultVoice then userVoice
    else if language in VoiceTable then VoiceTable[language]
    else DefaultVoice
  }

  /** The three tables agree: every detectable code has a name and a voice,
      and nothing else has either. */
  lemma TablesCoverSupported()
    ensures LanguageNames.Keys == VoiceTable.Keys
    ensures forall c :: c in VoiceTable <==> c in Supported
    ensures VoiceTable.Values <= Voices
  {
  }

  /** Whatever the detector answers, the voice chosen for the detected
      language under the default voice is one of the service's voices. */
  lemma DetectedLanguageHasVoice(reply: Option<string>)
    ensures VoiceForLanguage(DetectLanguage(reply), DefaultVoice) in Voices
  {
    TablesCoverSupported();
    var c := DetectLanguage(reply);
    assert c in VoiceTable;
    assert VoiceTable[c] in VoiceTable.Values;
  }
}

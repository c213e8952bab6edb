/** The decisions of the five IVR webhooks (app.py), each as a pure function
    from the request parameters it reads to the document it answers with. */
module Routing {
  import opened Settings
  import opened Wording
  import opened Markup
  import opened Endpoints

  /** Spanish exactly for the query value "es"; every other value, the
      default "en" included, gets English. */
  function LocaleOf(lang: string): (l: Locale)
    ensures l == Spanish <==> lang == "es"
  {
    if lang == "es" then Spanish else English
  }

  /** A line of `l`'s words in `l`'s voice. */
  function Say(l: Locale, p: Phrase): Speech {
    Speech(p, l.Voice(), l.Code())
  }

  function AudioUrl(l: Locale): string {
    if l.English? then AUDIO_URL_EN else AUDIO_URL_ES
  }

  /** The digit collection every prompt of the flow uses: one DTMF digit,
      5 seconds to end input, posted to `action`. */
  function CollectDigit(action: string, prompt: Speech): Instr {
    GetInput(action, "POST", "dtmf", "5", "1", "true", [prompt])
  }

  predicate CollectsOneDigit(i: Instr) {
    i.GetInput? ==>
      i.httpMethod == "POST" && i.inputType == "dtmf" && i.digitEndTimeout == "5" &&
      i.numDigits == "1" && i.redirect == "true"
  }

  /** A line spoken with the voice and the locale code of `l`. */
  predicate VoicedIn(s: Speech, l: Locale) {
    s.voice == l.Voice() && s.language == l.Code()
  }

  /** Every line an instruction speaks, prompts of a digit collection
      included, is voiced in `l`. */
  predicate SpeaksIn(i: Instr, l: Locale) {
    match i
    case Speak(s) => VoicedIn(s, l)
    case GetInput(_, _, _, _, _, _, prompts) => forall j :: 0 <= j < |prompts| ==> VoicedIn(prompts[j], l)
    case _ => true
  }

  /** Every spoken line of `doc` is voiced in `l`. */
  predicate SpokenIn(doc: seq<Instr>, l: Locale) {
    forall k :: 0 <= k < |doc| ==> SpeaksIn(doc[k], l)
  }

  /** The answer shape of a prompt: collect a digit at `action` while speaking
      `prompt`, and if none comes, speak `goodbye` and hang up. */
  predicate PromptThenGoodbye(doc: seq<Instr>, action: string, prompt: Phrase, goodbye: Phrase) {
    |doc| == 3 && doc[0].GetInput? && doc[0].action == action && CollectsOneDigit(doc[0]) &&
    |doc[0].prompts| == 1 && doc[0].prompts[0].content == prompt &&
    doc[1].Speak? && doc[1].speech.content == goodbye && doc[2] == Hangup
  }

  /** ivr_welcome: ask for the language, and end the call if no digit comes. */
  function WelcomeResponse(cfg: Config): (doc: seq<Instr>)
    ensures EndsInTerminal(doc) && SpokenIn(doc, English)
    ensures PromptThenGoodbye(doc, LanguageSelectedUrl(cfg.baseUrl), WelcomePrompt, NoInput)
  {
    [ CollectDigit(LanguageSelectedUrl(cfg.baseUrl), Say(English, WelcomePrompt)),
      Speak(Say(English, NoInput)),
      Hangup ]
  }

  /** ivr_language_selected: "1" and "2" redirect to the menu in English and
      in Spanish; anything else, empty included, re-prompts in place. */
  function LanguageSelectedResponse(cfg: Config, digits: string): (doc: seq<Instr>)
    ensures EndsInTerminal(doc) && SpokenIn(doc, English)
    ensures digits == "1" ==> doc == [Redirect(MenuUrl(cfg.baseUrl, "en"))]
    ensures digits == "2" ==> doc == [Redirect(MenuUrl(cfg.baseUrl, "es"))]
    ensures (exists k :: 0 <= k < |doc| && doc[k].Redirect?) <==> digits == "1" || digits == "2"
    ensures digits != "1" && digits != "2" ==>
      PromptThenGoodbye(doc, LanguageSelectedUrl(cfg.baseUrl), InvalidLanguagePrompt, NoValidInput)
  {
    if digits == "1" then
      [Redirect(MenuUrl(cfg.baseUrl, "en"))]
    else if digits == "2" then
      [Redirect(MenuUrl(cfg.baseUrl, "es"))]
    else
      [ CollectDigit(LanguageSelectedUrl(cfg.baseUrl), Say(English, InvalidLanguagePrompt)),
        Speak(Say(English, NoValidInput)),
        Hangup ]
  }

  /** ivr_menu: offer the two options in the caller's language and carry that
      language into the address of the next step. */
  function MenuResponse(cfg: Config, lang: string): (doc: seq<Instr>)
    ensures EndsInTerminal(doc) && SpokenIn(doc, LocaleOf(lang))
    ensures PromptThenGoodbye(doc, ActionUrl(cfg.baseUrl, lang), MenuPrompt, NoInput)
    ensures doc[0].prompts[0].voice == Spanish.Voice() <==> lang == "es"
    ensures doc[1].speech.language == Spanish.Code() <==> lang == "es"
  {
    var l := LocaleOf(lang);
    LocalesDiffer();
    [CollectDigit(ActionUrl(cfg.baseUrl, lang), Say(l, MenuPrompt)), Speak(Say(l, NoInput)), Hangup]
  }

  /** ivr_action: "1" plays the recording and ends the call; "2" bridges the
      caller to the associate; anything else re-prompts in place. */
  function ActionResponse(cfg: Config, digits: string, lang: string): (doc: seq<Instr>)
    ensures EndsInTerminal(doc) && SpokenIn(doc, LocaleOf(lang))
    ensures digits == "1" ==>
      |doc| == 4 && doc[0].Speak? && doc[0].speech.content == PlayingMessage &&
      doc[1] == Play(if lang == "es" then AUDIO_URL_ES else AUDIO_URL_EN) &&
      doc[2].Speak? && doc[2].speech.content == ClosingLine && doc[3] == Hangup
    ensures digits == "2" ==>
      |doc| == 2 && doc[0].Speak? && doc[0].speech.content == Connecting &&
      doc[1] == Dial(cfg.fromNumber, DialStatusUrl(cfg.baseUrl), "POST", [cfg.associateNumber])
    ensures Hangup in doc <==> digits != "2"
    ensures digits != "1" && digits != "2" ==>
      PromptThenGoodbye(doc, ActionUrl(cfg.baseUrl, lang), InvalidMenuPrompt, NoValidInput)
  {
    var l := LocaleOf(lang);
    if digits == "1" then
      [Speak(Say(l, PlayingMessage)), Play(AudioUrl(l)), Speak(Say(l, ClosingLine)), Hangup]
    else if digits == "2" then
      [ Speak(Say(l, Connecting)),
        Dial(cfg.fromNumber, DialStatusUrl(cfg.baseUrl), "POST", [cfg.associateNumber]) ]
    else
      [ CollectDigit(ActionUrl(cfg.baseUrl, lang), Say(l, InvalidMenuPrompt)),
        Speak(Say(l, NoValidInput)),
        Hangup ]
  }

  /** ivr_dial_status: thank the caller after a completed bridge, apologise
      after any other outcome, and end the call either way. */
  function DialStatusResponse(cfg: Config, status: string): (doc: seq<Instr>)
    ensures EndsInTerminal(doc) && SpokenIn(doc, English)
    ensures |doc| == 2 && doc[0].Speak? && doc[1] == Hangup
    ensures doc[0].speech.content == ClosingLine <==> status == "completed"
    ensures doc[0].speech.content == DialFailed <==> status != "completed"
  {
    if status == "completed" then [Speak(Say(English, ClosingLine)), Hangup]
    else [Speak(Say(English, DialFailed)), Hangup]
  }
}

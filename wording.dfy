/** What the flow says. A spoken line is identified by its phrase; the words of
    each phrase, in English and (where one exists) in Spanish, are given here
    once, exactly as the handlers speak them. */
module Wording {
  import opened Wrappers

  /** The two voices of the flow. */
  datatype Locale = English | Spanish {
    /** The synthesised voice the provider uses. */
    function Voice(): string {
      if English? then "Polly.Joanna" else "Polly.Mia"
    }

    /** The locale code passed with every spoken line. */
    function Code(): string {
      if English? then "en-US" else "es-MX"
    }
  }

  /** The two voices and the two locale codes are told apart. */
  lemma LocalesDiffer()
    ensures English.Voice() != Spanish.Voice() && English.Code() != Spanish.Code()
  {
    assert |English.Voice()| == 12 && |Spanish.Voice()| == 9;
    assert English.Code()[1] == 'n' && Spanish.Code()[1] == 's';
  }

  /** Every line the flow speaks. */
  datatype Phrase =
    | WelcomePrompt          // language menu, first time
    | InvalidLanguagePrompt  // language menu, after an invalid choice
    | NoInput                // goodbye when no digit came
    | NoValidInput           // goodbye when no valid digit came
    | MenuPrompt             // option menu, first time
    | InvalidMenuPrompt      // option menu, after an invalid choice
    | PlayingMessage         // before the recording
    | ClosingLine            // after the recording, and after a completed bridge
    | Connecting             // before the bridge
    | DialFailed             // after a bridge that did not complete

  /** The English words of a phrase; every line is a complete sentence. */
  function EnglishWords(p: Phrase): (words: string)
    ensures |words| > 0 && words[|words| - 1] == '.'
  {
    match p
    case WelcomePrompt => "Welcome to InspireWorks. Press 1 for English. Press 2 for Spanish."
    case InvalidLanguagePrompt =>
      "Sorry, that was an invalid selection. Press 1 for English. Press 2 for Spanish."
    case NoInput => "We did not receive any input. Goodbye."
    case NoValidInput => "We did not receive a valid input. Goodbye."
    case MenuPrompt => "Press 1 to hear a message. Press 2 to speak with an associate."
    case InvalidMenuPrompt =>
      "Sorry, that was an invalid selection. Press 1 to hear a message. Press 2 to speak with an associate."
    case PlayingMessage => "Playing your message now."
    case ClosingLine => "Thank you for calling InspireWorks. Goodbye."
    case Connecting => "Connecting you to an associate. Please hold the line."
    case DialFailed => "We were unable to connect you. Please try again later. Goodbye."
  }

  /** The phrases the option menu and its outcomes speak, the ones that exist
      in both languages. */
  predicate Bilingual(p: Phrase) {
    p in {NoInput, NoValidInput, MenuPrompt, InvalidMenuPrompt, PlayingMessage, ClosingLine, Connecting}
  }

  /** The Spanish words of a phrase; the language menu and the bridge outcome
      lines have none. */
  function SpanishWords(p: Phrase): (words: Option<string>)
    ensures words.Some? <==> Bilingual(p)
  {
    match p
    case NoInput => Some("No recibimos ninguna entrada. Adiós.")
    case NoValidInput => Some("No recibimos una entrada válida. Adiós.")
    case MenuPrompt => Some("Presione 1 para escuchar un mensaje. Presione 2 para hablar con un asociado.")
    case InvalidMenuPrompt =>
      Some("Selección inválida. Presione 1 para escuchar un mensaje. Presione 2 para hablar con un asociado.")
    case PlayingMessage => Some("Reproduciendo su mensaje ahora.")
    case ClosingLine => Some("Gracias por llamar a InspireWorks. Adiós.")
    case Connecting => Some("Conectándole con un asociado. Por favor espere.")
    case _ => None
  }

  /** The length of each phrase's English and Spanish words (0 where there are
      no Spanish words); no two phrases share one. */
  function EnglishLength(p: Phrase): nat {
    match p
    case WelcomePrompt => 66
    case InvalidLanguagePrompt => 79
    case NoInput => 38
    case NoValidInput => 42
    case MenuPrompt => 62
    case InvalidMenuPrompt => 100
    case PlayingMessage => 25
    case ClosingLine => 44
    case Connecting => 53
    case DialFailed => 63
  }

  function SpanishLength(p: Phrase): nat {
    match p
    case NoInput => 36
    case NoValidInput => 39
    case MenuPrompt => 76
    case InvalidMenuPrompt => 96
    case PlayingMessage => 31
    case ClosingLine => 41
    case Connecting => 47
    case _ => 0
  }

  lemma EnglishLengthIsLength(p: Phrase)
    ensures |EnglishWords(p)| == EnglishLength(p)
  {
  }

  lemma SpanishLengthIsLength(p: Phrase)
    ensures SpanishWords(p).Some? ==> |SpanishWords(p).value| == SpanishLength(p)
  {
  }

  lemma LengthsDiffer(p: Phrase, q: Phrase)
    ensures EnglishLength(p) == EnglishLength(q) ==> p == q
    ensures SpanishLength(p) != 0 && SpanishLength(p) == SpanishLength(q) ==> p == q
  {
  }

  /** The words spoken tell the phrases apart, in either language, so a
      document stated on phrases determines the text the caller hears. */
  lemma WordsIdentifyPhrase(p: Phrase, q: Phrase)
    ensures EnglishWords(p) == EnglishWords(q) <==> p == q
    ensures SpanishWords(p).Some? && SpanishWords(p) == SpanishWords(q) ==> p == q
  {
    LengthsDiffer(p, q);
    if EnglishWords(p) == EnglishWords(q) {
      EnglishLengthIsLength(p);
      EnglishLengthIsLength(q);
    }
    if SpanishWords(p).Some? && SpanishWords(p) == SpanishWords(q) {
      SpanishLengthIsLength(p);
      SpanishLengthIsLength(q);
    }
  }
}

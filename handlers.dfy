/** The five IVR webhook handlers as app.py writes them: each reads its request
    parameters, builds a response element child by child and answers with the
    serialised document. Each is proved to answer exactly the document its
    routing function prescribes. */
module Handlers {
  import opened Settings
  import opened Wording
  import opened Markup
  import opened Endpoints
  import opened Routing

  /** A digit-collection element with the flow's fixed collection settings. */
  method NewDigitInput(action: string) returns (g: GetInputElement)
    ensures fresh(g) && g.prompts == [] && g.action == action
    ensures g.httpMethod == "POST" && g.inputType == "dtmf" && g.digitEndTimeout == "5"
    ensures g.numDigits == "1" && g.redirect == "true"
  {
    g := new GetInputElement(action, "POST", "dtmf", "5", "1", "true");
  }

  method IvrWelcome(cfg: Config) returns (doc: seq<Instr>)
    ensures doc == WelcomeResponse(cfg)
  {
    var response := new ResponseElement();
    var getInput := NewDigitInput(LanguageSelectedUrl(cfg.baseUrl));
    getInput.AddSpeak(WelcomePrompt, English.Voice(), English.Code());
    assert getInput.Element() == CollectDigit(LanguageSelectedUrl(cfg.baseUrl), Say(English, WelcomePrompt));
    response.Add(getInput.Element());
    response.AddSpeak(NoInput, English.Voice(), English.Code());
    response.AddHangup();
    doc := response.children;
  }

  method IvrLanguageSelected(cfg: Config, values: map<string, string>) returns (doc: seq<Instr>)
    ensures doc == LanguageSelectedResponse(cfg, Param(values, "Digits", ""))
  {
    var digits := Param(values, "Digits", "");
    var response := new ResponseElement();
    if digits == "1" {
      response.AddRedirect(MenuUrl(cfg.baseUrl, "en"));
    } else if digits == "2" {
      response.AddRedirect(MenuUrl(cfg.baseUrl, "es"));
    } else {
      var getInput := NewDigitInput(LanguageSelectedUrl(cfg.baseUrl));
      getInput.AddSpeak(InvalidLanguagePrompt, English.Voice(), English.Code());
      assert getInput.Element() ==
        CollectDigit(LanguageSelectedUrl(cfg.baseUrl), Say(English, InvalidLanguagePrompt));
      response.Add(getInput.Element());
      response.AddSpeak(NoValidInput, English.Voice(), English.Code());
      response.AddHangup();
    }
    doc := response.children;
  }

  method IvrMenu(cfg: Config, values: map<string, string>) returns (doc: seq<Instr>)
    ensures doc == MenuResponse(cfg, Param(values, "lang", "en"))
  {
    var lang := Param(values, "lang", "en");
    var response := new ResponseElement();
    var getInput := NewDigitInput(ActionUrl(cfg.baseUrl, lang));
    if lang == "es" {
      getInput.AddSpeak(MenuPrompt, Spanish.Voice(), Spanish.Code());
    } else {
      getInput.AddSpeak(MenuPrompt, English.Voice(), English.Code());
    }
    assert getInput.Element() == CollectDigit(ActionUrl(cfg.baseUrl, lang), Say(LocaleOf(lang), MenuPrompt));
    response.Add(getInput.Element());
    if lang == "es" {
      response.AddSpeak(NoInput, Spanish.Voice(), Spanish.Code());
    } else {
      response.AddSpeak(NoInput, English.Voice(), English.Code());
    }
    response.AddHangup();
    doc := response.children;
  }

  method IvrAction(cfg: Config, values: map<string, string>) returns (doc: seq<Instr>)
    ensures doc == ActionResponse(cfg, Param(values, "Digits", ""), Param(values, "lang", "en"))
  {
    var digits := Param(values, "Digits", "");
    var lang := Param(values, "lang", "en");
    var response := new ResponseElement();
    if digits == "1" {
      if lang == "es" {
        response.AddSpeak(PlayingMessage, Spanish.Voice(), Spanish.Code());
        response.AddPlay(AUDIO_URL_ES);
        response.AddSpeak(ClosingLine, Spanish.Voice(), Spanish.Code());
      } else {
        response.AddSpeak(PlayingMessage, English.Voice(), English.Code());
        response.AddPlay(AUDIO_URL_EN);
        response.AddSpeak(ClosingLine, English.Voice(), English.Code());
      }
      response.AddHangup();
    } else if digits == "2" {
      if lang == "es" {
        response.AddSpeak(Connecting, Spanish.Voice(), Spanish.Code());
      } else {
        response.AddSpeak(Connecting, English.Voice(), English.Code());
      }
      var dial := new DialElement(cfg.fromNumber, DialStatusUrl(cfg.baseUrl), "POST");
      dial.AddNumber(cfg.associateNumber);
      assert dial.Element() ==
        Dial(cfg.fromNumber, DialStatusUrl(cfg.baseUrl), "POST", [cfg.associateNumber]);
      response.Add(dial.Element());
    } else {
      var getInput := NewDigitInput(ActionUrl(cfg.baseUrl, lang));
      if lang == "es" {
        getInput.AddSpeak(InvalidMenuPrompt, Spanish.Voice(), Spanish.Code());
      } else {
        getInput.AddSpeak(InvalidMenuPrompt, English.Voice(), English.Code());
      }
      assert getInput.Element() ==
        CollectDigit(ActionUrl(cfg.baseUrl, lang), Say(LocaleOf(lang), InvalidMenuPrompt));
      response.Add(getInput.Element());
      if lang == "es" {
        response.AddSpeak(NoValidInput, Spanish.Voice(), Spanish.Code());
      } else {
        response.AddSpeak(NoValidInput, English.Voice(), English.Code());
      }
      response.AddHangup();
    }
    doc := response.children;
  }

  method IvrDialStatus(cfg: Config, values: map<string, string>) returns (doc: seq<Instr>)
    ensures doc == DialStatusResponse(cfg, Param(values, "DialStatus", ""))
  {
    var dialStatus := Param(values, "DialStatus", "");
    var response := new ResponseElement();
    if dialStatus == "completed" {
      response.AddSpeak(ClosingLine, English.Voice(), English.Code());
    } else {
      response.AddSpeak(DialFailed, English.Voice(), English.Code());
    }
    response.AddHangup();
    doc := response.children;
  }
}

/** The call flow as a whole: the route table that sends each webhook request
    to its handler, the provider's execution of an answered document (which
    decides the next webhook request), and what follows for a call made of
    several round trips. The provider's behaviour is the environment of the
    model: a digit collection with input requests its action with the digits,
    and without input goes on with the next instruction; a redirect requests
    its address; a bridge requests its action with the bridge outcome when it
    ends; a hangup, or the end of the document, ends the call. */
module CallFlow {
  import opened Wrappers
  import opened Settings
  import opened Wording
  import opened Markup
  import opened Endpoints
  import opened Routing

  /** One webhook request: its route and the parameters the handler can read,
      query and form merged (`request.values`, where a query parameter wins
      over a form field of the same name). */
  datatype Request = Request(path: Path, values: map<string, string>)

  /** The route table: the handler each path reaches and the parameters it
      reads, with their defaults. */
  function Respond(cfg: Config, req: Request): (doc: seq<Instr>)
    ensures EndsInTerminal(doc)
  {
    match req.path
    case Welcome => WelcomeResponse(cfg)
    case LanguageSelected => LanguageSelectedResponse(cfg, Param(req.values, "Digits", ""))
    case Menu => MenuResponse(cfg, Param(req.values, "lang", "en"))
    case Action => ActionResponse(cfg, Param(req.values, "Digits", ""), Param(req.values, "lang", "en"))
    case DialStatus => DialStatusResponse(cfg, Param(req.values, "DialStatus", ""))
  }

  /** What happens on the line while one document runs: the digits the caller
      enters at a digit collection (None for silence until the timeout) and
      the outcome of a bridge. */
  datatype Event = Event(pressed: Option<string>, dialStatus: string)

  /** Where a document leads: the next webhook request, the end of the call,
      or an address that is none of the flow's webhooks. */
  datatype Hop = Next(request: Request) | Ended | Broken(url: string)

  /** The provider requests `url`, posting `posted` with it; the handler reads
      the query first and the posted form after it. */
  function Visit(base: string, url: string, posted: map<string, string>): Hop {
    match Parse(base, url)
    case None => Broken(url)
    case Some(w) => Next(Request(w.path, posted + w.query))
  }

  /** The provider runs `doc` from its first instruction. */
  function Follow(base: string, doc: seq<Instr>, ev: Event): (h: Hop)
    decreases |doc|
    ensures h.Broken? ==> h.url in Callbacks(doc) && Parse(base, h.url).None?
  {
    if doc == [] then Ended
    else match doc[0]
      case GetInput(action, _, _, _, _, _, _) =>
        if ev.pressed.Some? then Visit(base, action, map["Digits" := ev.pressed.value])
        else Follow(base, doc[1..], ev)
      case Redirect(url) => Visit(base, url, map[])
      case Dial(_, action, _, _) => Visit(base, action, map["DialStatus" := ev.dialStatus])
      case Hangup => Ended
      case Speak(_) => Follow(base, doc[1..], ev)
      case Play(_) => Follow(base, doc[1..], ev)
  }

  /** A digit collection's outcome: with digits, request `path` with them
      added to `query`; without, the goodbye and the hangup end the call. */
  function Collected(path: Path, query: map<string, string>, ev: Event): Hop {
    if ev.pressed.Some? then Next(Request(path, query["Digits" := ev.pressed.value])) else Ended
  }

  /** The call-flow state machine, stated without addresses or documents:
      from each node and event, the next node and the state it is given. */
  function Transition(req: Request, ev: Event): (h: Hop)
    ensures !h.Broken?
    ensures h.Next? ==> h.request.path != Welcome
    ensures h.Next? && h.request.path == DialStatus <==> req.path == Action && Param(req.values, "Digits", "") == "2"
  {
    var digits := Param(req.values, "Digits", "");
    var lang := Param(req.values, "lang", "en");
    match req.path
    case Welcome => Collected(LanguageSelected, map[], ev)
    case LanguageSelected =>
      if digits == "1" then Next(Request(Menu, map["lang" := "en"]))
      else if digits == "2" then Next(Request(Menu, map["lang" := "es"]))
      else Collected(LanguageSelected, map[], ev)
    case Menu => Collected(Action, map["lang" := lang], ev)
    case Action =>
      if digits == "1" then Ended
      else if digits == "2" then Next(Request(DialStatus, map["DialStatus" := ev.dialStatus]))
      else Collected(Action, map["lang" := lang], ev)
    case DialStatus => Ended
  }

  /** A digit collection at `action` followed by a goodbye and a hangup leads
      where Collected says. */
  lemma FollowPrompt(base: string, doc: seq<Instr>, ev: Event, path: Path, query: map<string, string>)
    requires |doc| == 3 && doc[0].GetInput? && doc[1].Speak? && doc[2] == Hangup
    requires Parse(base, doc[0].action) == Some(Webhook(path, query))
    requires "Digits" !in query
    ensures Follow(base, doc, ev) == Collected(path, query, ev)
  {
    if ev.pressed.Some? {
      assert map["Digits" := ev.pressed.value] + query == query["Digits" := ev.pressed.value];
    } else {
      assert doc[1..][1..] == [Hangup];
      assert Follow(base, doc[1..][1..], ev) == Ended;
      assert Follow(base, doc[1..], ev) == Ended;
    }
  }

  lemma LanguageSelectedStep(cfg: Config, digits: string, ev: Event)
    ensures Follow(cfg.baseUrl, LanguageSelectedResponse(cfg, digits), ev) ==
      Transition(Request(LanguageSelected, map["Digits" := digits]), ev)
  {
    var base := cfg.baseUrl;
    var doc := LanguageSelectedResponse(cfg, digits);
    assert Param(map["Digits" := digits], "Digits", "") == digits;
    if digits == "1" {
      ParseInvertsUrls(base, "en");
      assert map[] + map["lang" := "en"] == map["lang" := "en"];
    } else if digits == "2" {
      ParseInvertsUrls(base, "es");
      assert map[] + map["lang" := "es"] == map["lang" := "es"];
    } else {
      ParseInvertsUrls(base, "");
      FollowPrompt(base, doc, ev, LanguageSelected, map[]);
    }
  }

  lemma ActionStep(cfg: Config, digits: string, lang: string, ev: Event)
    ensures Follow(cfg.baseUrl, ActionResponse(cfg, digits, lang), ev) ==
      Transition(Request(Action, map["Digits" := digits, "lang" := lang]), ev)
  {
    var base := cfg.baseUrl;
    var doc := ActionResponse(cfg, digits, lang);
    var values := map["Digits" := digits, "lang" := lang];
    assert Param(values, "Digits", "") == digits && Param(values, "lang", "en") == lang;
    ParseInvertsUrls(base, lang);
    if digits == "1" {
      assert doc[1..][1..][1..] == [Hangup];
      assert Follow(base, doc[1..][1..][1..], ev) == Ended;
      assert Follow(base, doc[1..][1..], ev) == Ended;
      assert Follow(base, doc[1..], ev) == Ended;
    } else if digits == "2" {
      assert doc[1..][0] == doc[1];
      assert map["DialStatus" := ev.dialStatus] + map[] == map["DialStatus" := ev.dialStatus];
    } else {
      FollowPrompt(base, doc, ev, Action, map["lang" := lang]);
    }
  }

  /** What the documents and the provider do together is the state machine:
      every address a handler generates resolves, and it carries exactly the
      state the next node needs. */
  lemma {:induction false} FollowIsTransition(cfg: Config, req: Request, ev: Event)
    ensures Follow(cfg.baseUrl, Respond(cfg, req), ev) == Transition(req, ev)
  {
    var base := cfg.baseUrl;
    var digits := Param(req.values, "Digits", "");
    var lang := Param(req.values, "lang", "en");
    match req.path {
      case Welcome =>
        ParseInvertsUrls(base, "");
        FollowPrompt(base, WelcomeResponse(cfg), ev, LanguageSelected, map[]);
      case LanguageSelected =>
        LanguageSelectedStep(cfg, digits, ev);
      case Menu =>
        ParseInvertsUrls(base, lang);
        FollowPrompt(base, MenuResponse(cfg, lang), ev, Action, map["lang" := lang]);
      case Action =>
        ActionStep(cfg, digits, lang, ev);
      case DialStatus =>
        var doc := DialStatusResponse(cfg, Param(req.values, "DialStatus", ""));
        assert doc[1..] == [Hangup];
        assert Follow(base, doc[1..], ev) == Ended;
    }
  }

  /** No document of the flow sends the provider to an address that Parse
      does not resolve. */
  lemma NoBrokenLinks(cfg: Config, req: Request, ev: Event)
    ensures !Follow(cfg.baseUrl, Respond(cfg, req), ev).Broken?
  {
    FollowIsTransition(cfg, req, ev);
  }

  /** Every address a document of the flow names, as a digit collection's
      action, a redirect target or a bridge's action, is one of the five
      webhooks. */
  lemma CallbacksResolve(cfg: Config, req: Request)
    ensures forall u :: u in Callbacks(Respond(cfg, req)) ==> Parse(cfg.baseUrl, u).Some?
  {
    forall k | 0 <= k < |Respond(cfg, req)|
      ensures forall u :: u in CallbackOf(Respond(cfg, req)[k]) ==> Parse(cfg.baseUrl, u).Some?
    {
      CallbackResolves(cfg, req, k);
    }
  }

  /** The address one instruction of an answered document names resolves. */
  lemma CallbackResolves(cfg: Config, req: Request, k: nat)
    requires k < |Respond(cfg, req)|
    ensures forall u :: u in CallbackOf(Respond(cfg, req)[k]) ==> Parse(cfg.baseUrl, u).Some?
  {
    var lang := Param(req.values, "lang", "en");
    var digits := Param(req.values, "Digits", "");
    match req.path {
      case Welcome =>
        ParseInvertsUrls(cfg.baseUrl, "");
        PromptCallbackResolves(cfg.baseUrl, WelcomeResponse(cfg), k);
      case LanguageSelected => LanguageSelectedCallbackResolves(cfg, digits, k);
      case Menu =>
        ParseInvertsUrls(cfg.baseUrl, lang);
        PromptCallbackResolves(cfg.baseUrl, MenuResponse(cfg, lang), k);
      case Action => ActionCallbackResolves(cfg, digits, lang, k);
      case DialStatus => assert CallbackOf(Respond(cfg, req)[k]) == [];
    }
  }

  /** In a prompt document only the collection names an address. */
  lemma PromptCallbackResolves(base: string, doc: seq<Instr>, k: nat)
    requires |doc| == 3 && doc[0].GetInput? && doc[1].Speak? && doc[2] == Hangup
    requires Parse(base, doc[0].action).Some? && k < |doc|
    ensures forall u :: u in CallbackOf(doc[k]) ==> Parse(base, u).Some?
  {
    assert CallbackOf(doc[k]) == if k == 0 then [doc[0].action] else [];
  }

  lemma LanguageSelectedCallbackResolves(cfg: Config, digits: string, k: nat)
    requires k < |LanguageSelectedResponse(cfg, digits)|
    ensures forall u :: u in CallbackOf(LanguageSelectedResponse(cfg, digits)[k]) ==> Parse(cfg.baseUrl, u).Some?
  {
    var base := cfg.baseUrl;
    if digits == "1" {
      ParseInvertsUrls(base, "en");
    } else if digits == "2" {
      ParseInvertsUrls(base, "es");
    } else {
      ParseInvertsUrls(base, "");
      PromptCallbackResolves(base, LanguageSelectedResponse(cfg, digits), k);
    }
  }

  lemma ActionCallbackResolves(cfg: Config, digits: string, lang: string, k: nat)
    requires k < |ActionResponse(cfg, digits, lang)|
    ensures forall u :: u in CallbackOf(ActionResponse(cfg, digits, lang)[k]) ==> Parse(cfg.baseUrl, u).Some?
  {
    var base := cfg.baseUrl;
    var doc := ActionResponse(cfg, digits, lang);
    ParseInvertsUrls(base, lang);
    if digits == "1" {
      assert CallbackOf(doc[k]) == [];
    } else if digits == "2" {
      assert CallbackOf(doc[k]) == if k == 1 then [DialStatusUrl(base)] else [];
    } else {
      PromptCallbackResolves(base, doc, k);
    }
  }

  /** A line voiced in Spanish has Spanish words. */
  predicate HasSpanishWords(s: Speech) {
    s.voice == Spanish.Voice() ==> SpanishWords(s.content).Some?
  }

  /** Every line an instruction speaks, prompts included, that is voiced in
      Spanish has Spanish words. */
  predicate Translated(i: Instr) {
    match i
    case Speak(s) => HasSpanishWords(s)
    case GetInput(_, _, _, _, _, _, prompts) => forall j :: 0 <= j < |prompts| ==> HasSpanishWords(prompts[j])
    case _ => true
  }

  /** The Spanish branches speak only phrases that have Spanish words: no
      document of the flow voices an English-only line in the Spanish voice. */
  lemma SpanishLinesAreTranslated(cfg: Config, req: Request)
    ensures forall k :: 0 <= k < |Respond(cfg, req)| ==> Translated(Respond(cfg, req)[k])
  {
    var lang := Param(req.values, "lang", "en");
    var digits := Param(req.values, "Digits", "");
    match req.path {
      case Welcome => EnglishIsTranslated(WelcomeResponse(cfg));
      case LanguageSelected => EnglishIsTranslated(LanguageSelectedResponse(cfg, digits));
      case Menu =>
        if lang == "es" {
          var doc := MenuResponse(cfg, lang);
          assert Translated(doc[0]) && Translated(doc[1]) && Translated(doc[2]);
        } else {
          EnglishIsTranslated(MenuResponse(cfg, lang));
        }
      case Action =>
        if lang == "es" {
          SpanishActionTranslated(cfg, digits);
        } else {
          EnglishIsTranslated(ActionResponse(cfg, digits, lang));
        }
      case DialStatus => EnglishIsTranslated(DialStatusResponse(cfg, Param(req.values, "DialStatus", "")));
    }
  }

  /** A document voiced in English has no line in the Spanish voice. */
  lemma EnglishIsTranslated(doc: seq<Instr>)
    requires SpokenIn(doc, English)
    ensures forall k :: 0 <= k < |doc| ==> Translated(doc[k])
  {
    LocalesDiffer();
  }

  lemma SpanishActionTranslated(cfg: Config, digits: string)
    ensures forall k :: 0 <= k < |ActionResponse(cfg, digits, "es")| ==> Translated(ActionResponse(cfg, digits, "es")[k])
  {
    var doc := ActionResponse(cfg, digits, "es");
    var lines: seq<Phrase>;
    if digits == "1" {
      lines := [PlayingMessage, ClosingLine];
    } else if digits == "2" {
      lines := [Connecting];
    } else {
      lines := [InvalidMenuPrompt, NoValidInput];
    }
    SpokenLinesTranslated(doc, lines);
  }

  /** A document whose every spoken line, prompts included, is one of
      `lines`, all of which have Spanish words, has only translated lines. */
  lemma SpokenLinesTranslated(doc: seq<Instr>, lines: seq<Phrase>)
    requires forall j :: 0 <= j < |lines| ==> Bilingual(lines[j])
    requires forall k :: 0 <= k < |doc| ==> Voices(doc[k], lines)
    ensures forall k :: 0 <= k < |doc| ==> Translated(doc[k])
  {
  }

  /** Every line `i` speaks, prompts included, is one of `lines`. */
  predicate Voices(i: Instr, lines: seq<Phrase>) {
    match i
    case Speak(s) => s.content in lines
    case GetInput(_, _, _, _, _, _, prompts) => forall j :: 0 <= j < |prompts| ==> prompts[j].content in lines
    case _ => true
  }


  /** The webhook requests of one call, from `req` on, when the i-th document
      runs under `evs[i]`; the call stops when a document ends it or when the
      events run out. */
  function Calls(cfg: Config, req: Request, evs: seq<Event>): (reqs: seq<Request>)
    decreases |evs|
    ensures 1 <= |reqs| <= |evs| + 1 && reqs[0] == req
    ensures forall k :: 0 <= k < |reqs| - 1 ==>
      Follow(cfg.baseUrl, Respond(cfg, reqs[k]), evs[k]) == Next(reqs[k + 1])
    ensures |reqs| <= |evs| ==> !Follow(cfg.baseUrl, Respond(cfg, reqs[|reqs| - 1]), evs[|reqs| - 1]).Next?
  {
    if evs == [] then [req]
    else match Follow(cfg.baseUrl, Respond(cfg, req), evs[0])
      case Next(r) => [req] + Calls(cfg, r, evs[1..])
      case _ => [req]
  }
}

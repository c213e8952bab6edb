/** Properties of whole calls, several webhook round trips long. */
module CallProperties {
  import opened Wrappers
  import opened Settings
  import opened Endpoints
  import opened CallFlow

  /** The language a request carries, if any, is one the flow offers. */
  predicate KnownLanguage(req: Request) {
    "lang" in req.values ==> req.values["lang"] == "en" || req.values["lang"] == "es"
  }

  /** One round trip never introduces a language outside English and Spanish. */
  lemma StepKeepsKnownLanguage(cfg: Config, req: Request, ev: Event)
    requires KnownLanguage(req)
    ensures Follow(cfg.baseUrl, Respond(cfg, req), ev).Next? ==>
      KnownLanguage(Follow(cfg.baseUrl, Respond(cfg, req), ev).request)
  {
    FollowIsTransition(cfg, req, ev);
  }

  /** Along a whole call every request carries English or Spanish, so the
      handlers' fall-back to English for an unknown `lang` is reached only by
      requests made from outside the flow. */
  lemma {:induction false} CallKeepsKnownLanguage(cfg: Config, req: Request, evs: seq<Event>)
    requires KnownLanguage(req)
    ensures forall k :: 0 <= k < |Calls(cfg, req, evs)| ==> KnownLanguage(Calls(cfg, req, evs)[k])
    decreases |evs|
  {
    var reqs := Calls(cfg, req, evs);
    if |reqs| > 1 {
      StepKeepsKnownLanguage(cfg, req, evs[0]);
      var next := Follow(cfg.baseUrl, Respond(cfg, req), evs[0]).request;
      CallKeepsKnownLanguage(cfg, next, evs[1..]);
      assert reqs == [req] + Calls(cfg, next, evs[1..]);
    }
  }

  /** Once in the option menu, the language stays the one chosen: every later
      request that reads `lang` reads the same value. */
  lemma {:induction false} LanguageIsKept(cfg: Config, req: Request, evs: seq<Event>)
    requires req.path == Menu || req.path == Action
    ensures forall k :: 0 <= k < |Calls(cfg, req, evs)| ==>
      var r := Calls(cfg, req, evs)[k];
      ((r.path == Menu || r.path == Action) && Param(r.values, "lang", "en") == Param(req.values, "lang", "en")) ||
      r.path == DialStatus
    decreases |evs|
  {
    var reqs := Calls(cfg, req, evs);
    if |reqs| > 1 {
      FollowIsTransition(cfg, req, evs[0]);
      var next := reqs[1];
      assert reqs == [req] + Calls(cfg, next, evs[1..]);
      if next.path != DialStatus {
        assert Param(next.values, "lang", "en") == Param(req.values, "lang", "en");
        LanguageIsKept(cfg, next, evs[1..]);
      } else {
        if |evs| > 1 {
          FollowIsTransition(cfg, next, evs[1]);
        }
      }
    }
  }

  /** A silent caller is never prompted again: with no digits entered the
      document either ends the call, or it was a valid language choice (and
      redirects to the menu) or a request for the associate (and the bridge
      reports to dial-status). */
  lemma SilenceNeverReprompts(cfg: Config, req: Request, status: string)
    ensures Follow(cfg.baseUrl, Respond(cfg, req), Event(None, status)).Next? ==>
      var next := Follow(cfg.baseUrl, Respond(cfg, req), Event(None, status)).request;
      (req.path == LanguageSelected && next.path == Menu) ||
      (req.path == Action && next.path == DialStatus)
  {
    FollowIsTransition(cfg, req, Event(None, status));
  }

  predicate Silent(evs: seq<Event>) {
    forall k :: 0 <= k < |evs| ==> evs[k].pressed.None?
  }

  /** Whatever node a silent caller is at, the call ends within two webhook
      requests: silence never loops. */
  lemma SilentCallEnds(cfg: Config, req: Request, evs: seq<Event>)
    requires Silent(evs)
    ensures |Calls(cfg, req, evs)| <= 2
  {
    var reqs := Calls(cfg, req, evs);
    if |reqs| > 1 {
      SilenceNeverReprompts(cfg, req, evs[0].dialStatus);
      assert evs[0] == Event(None, evs[0].dialStatus);
      if |evs| > 1 {
        SilenceNeverReprompts(cfg, reqs[1], evs[1].dialStatus);
        assert evs[1] == Event(None, evs[1].dialStatus);
      }
    }
  }

  /** An invalid choice is asked again at the same node, with no retry
      ceiling: a caller who keeps entering other digits than 1 and 2 stays in
      the language menu for as many round trips as they like. */
  lemma {:induction false} InvalidLanguageChoiceRepeats(cfg: Config, req: Request, evs: seq<Event>)
    requires req.path == LanguageSelected
    requires Param(req.values, "Digits", "") != "1" && Param(req.values, "Digits", "") != "2"
    requires forall k :: 0 <= k < |evs| ==>
      evs[k].pressed.Some? && evs[k].pressed.value != "1" && evs[k].pressed.value != "2"
    ensures |Calls(cfg, req, evs)| == |evs| + 1
    ensures forall k :: 0 <= k < |evs| + 1 ==> Calls(cfg, req, evs)[k].path == LanguageSelected
    decreases |evs|
  {
    if evs != [] {
      FollowIsTransition(cfg, req, evs[0]);
      var next := Request(LanguageSelected, map["Digits" := evs[0].pressed.value]);
      assert Param(next.values, "Digits", "") == evs[0].pressed.value;
      InvalidLanguageChoiceRepeats(cfg, next, evs[1..]);
      assert Calls(cfg, req, evs) == [req] + Calls(cfg, next, evs[1..]);
    }
  }

  /** The same holds in the option menu, in the caller's language. */
  lemma {:induction false} InvalidMenuChoiceRepeats(cfg: Config, req: Request, evs: seq<Event>)
    requires req.path == Action
    requires Param(req.values, "Digits", "") != "1" && Param(req.values, "Digits", "") != "2"
    requires forall k :: 0 <= k < |evs| ==>
      evs[k].pressed.Some? && evs[k].pressed.value != "1" && evs[k].pressed.value != "2"
    ensures |Calls(cfg, req, evs)| == |evs| + 1
    ensures forall k :: 0 <= k < |evs| + 1 ==>
      Calls(cfg, req, evs)[k].path == Action &&
      Param(Calls(cfg, req, evs)[k].values, "lang", "en") == Param(req.values, "lang", "en")
    decreases |evs|
  {
    if evs != [] {
      FollowIsTransition(cfg, req, evs[0]);
      var lang := Param(req.values, "lang", "en");
      var next := Request(Action, map["lang" := lang]["Digits" := evs[0].pressed.value]);
      assert Param(next.values, "Digits", "") == evs[0].pressed.value;
      assert Param(next.values, "lang", "en") == lang;
      InvalidMenuChoiceRepeats(cfg, next, evs[1..]);
      assert Calls(cfg, req, evs) == [req] + Calls(cfg, next, evs[1..]);
    }
  }

  /** A round trip the state machine continues adds one request to the call. */
  lemma CallsContinue(cfg: Config, req: Request, evs: seq<Event>, next: Request)
    requires evs != [] && Transition(req, evs[0]) == Next(next)
    ensures Calls(cfg, req, evs) == [req] + Calls(cfg, next, evs[1..])
  {
    FollowIsTransition(cfg, req, evs[0]);
  }

  /** A round trip the state machine ends is the call's last request. */
  lemma CallsStop(cfg: Config, req: Request, evs: seq<Event>)
    requires evs != [] && Transition(req, evs[0]) == Ended
    ensures Calls(cfg, req, evs) == [req]
  {
    FollowIsTransition(cfg, req, evs[0]);
  }

  /** From a request for the associate, in either language: the bridge's
      outcome is posted to dial-status, whose document ends the call. */
  lemma AssociateLeg(cfg: Config, lang: string, evs: seq<Event>)
    requires |evs| >= 1
    ensures Calls(cfg, Request(Action, map["lang" := lang, "Digits" := "2"]), evs) ==
      [Request(Action, map["lang" := lang, "Digits" := "2"]),
       Request(DialStatus, map["DialStatus" := evs[0].dialStatus])]
  {
    var r3 := Request(Action, map["lang" := lang, "Digits" := "2"]);
    var r4 := Request(DialStatus, map["DialStatus" := evs[0].dialStatus]);
    assert Param(r3.values, "Digits", "") == "2";
    CallsContinue(cfg, r3, evs, r4);
    if |evs| > 1 {
      CallsStop(cfg, r4, evs[1..]);
    }
  }

  /** From the option menu, in either language: pressing 2 asks for the
      associate, and the bridge then reports to dial-status. */
  lemma MenuLeg(cfg: Config, lang: string, evs: seq<Event>)
    requires |evs| >= 2 && evs[0].pressed == Some("2")
    ensures Calls(cfg, Request(Menu, map["lang" := lang]), evs) ==
      [Request(Menu, map["lang" := lang]),
       Request(Action, map["lang" := lang, "Digits" := "2"]),
       Request(DialStatus, map["DialStatus" := evs[1].dialStatus])]
  {
    var r2 := Request(Menu, map["lang" := lang]);
    var r3 := Request(Action, map["lang" := lang, "Digits" := "2"]);
    assert Param(r2.values, "lang", "en") == lang;
    assert r2.values["Digits" := "2"] == r3.values;
    CallsContinue(cfg, r2, evs, r3);
    AssociateLeg(cfg, lang, evs[1..]);
  }

  /** From the choice of Spanish on: the menu in Spanish, the associate
      request in Spanish, then dial-status. */
  lemma SpanishChoiceLeg(cfg: Config, evs: seq<Event>)
    requires |evs| >= 3 && evs[1].pressed == Some("2")
    ensures Calls(cfg, Request(LanguageSelected, map["Digits" := "2"]), evs) ==
      [ Request(LanguageSelected, map["Digits" := "2"]),
        Request(Menu, map["lang" := "es"]),
        Request(Action, map["lang" := "es", "Digits" := "2"]),
        Request(DialStatus, map["DialStatus" := evs[2].dialStatus]) ]
  {
    var r1 := Request(LanguageSelected, map["Digits" := "2"]);
    assert Param(r1.values, "Digits", "") == "2";
    CallsContinue(cfg, r1, evs, Request(Menu, map["lang" := "es"]));
    MenuLeg(cfg, "es", evs[1..]);
  }

  /** A whole call: the caller chooses Spanish, then the associate; the
      bridge's outcome reaches dial-status and the call ends there. */
  lemma SpanishCallerReachesAssociate(cfg: Config, evs: seq<Event>)
    requires |evs| >= 4
    requires evs[0].pressed == Some("2") && evs[2].pressed == Some("2")
    ensures Calls(cfg, Request(Welcome, map[]), evs) ==
      [ Request(Welcome, map[]),
        Request(LanguageSelected, map["Digits" := "2"]),
        Request(Menu, map["lang" := "es"]),
        Request(Action, map["lang" := "es", "Digits" := "2"]),
        Request(DialStatus, map["DialStatus" := evs[3].dialStatus]) ]
  {
    CallsContinue(cfg, Request(Welcome, map[]), evs, Request(LanguageSelected, map["Digits" := "2"]));
    SpanishChoiceLeg(cfg, evs[1..]);
  }
}

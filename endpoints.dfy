/** The webhook addresses of the call flow. Every handler builds the address of
    the next step as BASE_URL followed by a fixed path and, for the language-
    dependent steps, a `lang` query parameter; this is the only place where call
    state survives between two webhook requests. */
module Endpoints {
  import opened Wrappers

  /** The five IVR routes. */
  datatype Path = Welcome | LanguageSelected | Menu | Action | DialStatus

  /** A webhook request line as the web framework sees it: a route and the
      query parameters carried in the address. */
  datatype Webhook = Webhook(path: Path, query: map<string, string>)

  function WelcomeUrl(base: string): (url: string)
    ensures base <= url && |url| > |base|
  {
    base + "/ivr/welcome"
  }

  function LanguageSelectedUrl(base: string): (url: string)
    ensures base <= url && |url| > |base|
  {
    base + "/ivr/language-selected"
  }

  function MenuUrl(base: string, lang: string): (url: string)
    ensures base <= url && |url| == |base| + 15 + |lang| && url[|url| - |lang|..] == lang
  {
    base + "/ivr/menu?lang=" + lang
  }

  function ActionUrl(base: string, lang: string): (url: string)
    ensures base <= url && |url| == |base| + 17 + |lang| && url[|url| - |lang|..] == lang
  {
    base + "/ivr/action?lang=" + lang
  }

  function DialStatusUrl(base: string): (url: string)
    ensures base <= url && |url| > |base|
  {
    base + "/ivr/dial-status"
  }

  /** `request.values.get(key, default)`: the parameter if the request carries
      it, the default otherwise. */
  function Param(values: map<string, string>, key: string, default: string): (v: string)
    ensures key in values ==> v == values[key]
    ensures key !in values ==> v == default
  {
    if key in values then values[key] else default
  }

  /** The route and query of one of the flow's own addresses, the shapes the
      handlers build under `base`, or None for any other address (including
      ones the web framework would route in another shape). The query value
      is taken verbatim (no percent-decoding, no splitting on `&`). */
  function Parse(base: string, url: string): (r: Option<Webhook>)
    ensures r.Some? ==> base <= url
    ensures r.Some? ==> ("lang" in r.value.query <==> r.value.path == Menu || r.value.path == Action)
    ensures r.Some? ==> "Digits" !in r.value.query && "DialStatus" !in r.value.query
  {
    if url == WelcomeUrl(base) then Some(Webhook(Welcome, map[]))
    else if url == LanguageSelectedUrl(base) then Some(Webhook(LanguageSelected, map[]))
    else if url == DialStatusUrl(base) then Some(Webhook(DialStatus, map[]))
    else if MenuUrl(base, "") <= url then
      Some(Webhook(Menu, map["lang" := url[|MenuUrl(base, "")|..]]))
    else if ActionUrl(base, "") <= url then
      Some(Webhook(Action, map["lang" := url[|ActionUrl(base, "")|..]]))
    else None
  }

  /** The character right after "<base>/ivr/" tells the five routes apart. */
  lemma RouteInitials(base: string, lang: string)
    ensures WelcomeUrl(base)[|base| + 5] == 'w'
    ensures LanguageSelectedUrl(base)[|base| + 5] == 'l'
    ensures DialStatusUrl(base)[|base| + 5] == 'd'
    ensures |MenuUrl(base, lang)| > |base| + 5 && MenuUrl(base, lang)[|base| + 5] == 'm'
    ensures |ActionUrl(base, lang)| > |base| + 5 && ActionUrl(base, lang)[|base| + 5] == 'a'
    ensures MenuUrl(base, "") <= MenuUrl(base, lang)
    ensures ActionUrl(base, "") <= ActionUrl(base, lang)
  {
    assert MenuUrl(base, lang) == MenuUrl(base, "") + lang;
    assert ActionUrl(base, lang) == ActionUrl(base, "") + lang;
  }

  /** Every address a handler generates parses back to its route and to the
      query it encodes, so the next request reconstructs the call state. */
  lemma {:induction false} ParseInvertsUrls(base: string, lang: string)
    ensures Parse(base, WelcomeUrl(base)) == Some(Webhook(Welcome, map[]))
    ensures Parse(base, LanguageSelectedUrl(base)) == Some(Webhook(LanguageSelected, map[]))
    ensures Parse(base, DialStatusUrl(base)) == Some(Webhook(DialStatus, map[]))
    ensures Parse(base, MenuUrl(base, lang)) == Some(Webhook(Menu, map["lang" := lang]))
    ensures Parse(base, ActionUrl(base, lang)) == Some(Webhook(Action, map["lang" := lang]))
  {
    RouteInitials(base, lang);
    assert MenuUrl(base, lang)[|MenuUrl(base, "")|..] == lang;
    assert ActionUrl(base, lang)[|ActionUrl(base, "")|..] == lang;
  }

  /** Distinct language values give distinct addresses: the query really
      carries the language. */
  lemma MenuUrlInjective(base: string, lang1: string, lang2: string)
    ensures MenuUrl(base, lang1) == MenuUrl(base, lang2) <==> lang1 == lang2
  {
    ParseInvertsUrls(base, lang1);
    ParseInvertsUrls(base, lang2);
  }

  lemma ActionUrlInjective(base: string, lang1: string, lang2: string)
    ensures ActionUrl(base, lang1) == ActionUrl(base, lang2) <==> lang1 == lang2
  {
    ParseInvertsUrls(base, lang1);
    ParseInvertsUrls(base, lang2);
  }
}

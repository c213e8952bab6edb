# InspireWorks IVR demo, modelled in Dafny

The InspireWorks IVR demo is a small Flask service built on a cloud telephony
provider. It places an outbound call to a number a web page submits
(`make_call`). It then drives the call through a two-level voice menu with five
webhooks:

- **welcome** asks the caller to choose English or Spanish.
- **language-selected** redirects to the menu in the chosen language, or asks again.
- **menu** offers two options in that language: hear a message, or speak with an associate.
- **action** plays the recording, bridges the call to the associate's number, or asks again.
- **dial-status** reports how the bridge ended and hangs up.

Each webhook answers with a voice-flow document. This is a list of
instructions (speak, collect digits, play, redirect, dial, hang up) that the
provider runs. The handlers pass the call state from one request to the next
only through the addresses they put in those documents. The language travels
as a `lang` query parameter.

The model has these modules:

- `Wrappers` holds `Option` and `Result`.
- `Settings` holds the configuration constants.
- `Wording` holds the locales and the exact words of every prompt.
- `Markup` holds the instruction datatype and the provider's mutable element builders as classes.
- `Endpoints` holds the webhook addresses and their parser.
- `Routing` has one function per handler, and its contract says what the document means.
- `Handlers` holds the handlers as imperative methods that build the document step by step. Each is proved to equal its routing function.
- `Outbound` models `make_call`.
- `CallFlow` holds the route table, the provider's execution of a document, an address-free state machine and a run of a whole call.
- `CallProperties` holds properties of whole calls.

The provider's behaviour is the model's environment. It is stated once, in
`CallFlow.Follow`:

- A digit collection that receives digits requests its action with `Digits`.
- A digit collection that receives none goes on to the next instruction.
- A redirect requests its address.
- A bridge requests its action with `DialStatus`.
- A hangup, or the end of the document, ends the call.

Some facts about `app.py` that the model keeps:

- app.py keeps no retry counter and no record of the last outcome. An invalid digit re-prompts in place, at the same webhook, with no ceiling. `InvalidLanguageChoiceRepeats` and `InvalidMenuChoiceRepeats` prove this.
- The outbound-call request body carries the number under the key `phone_number` (app.py:48).
- make_call rejects only a missing or empty number. A number made of blanks is accepted and gets a "+" in front.
- `AUDIO_URL_EN` and `AUDIO_URL_ES` are the same recording (config.py:18-19).

## Model

| member | source | states |
|---|---|---|
| Wording.LocalesDiffer | app.py:190-203 | the English and Spanish voices differ, and so do the two locale codes, so a document's voice identifies its language |
| Wording.EnglishWords | app.py:110 | the English text of each phrase, exactly as app.py speaks it (app.py:110-350); every line is a complete sentence ending in a full stop |
| Wording.WordsIdentifyPhrase | app.py:110-350 | two phrases have the same English words if and only if they are the same phrase, and the same holds for Spanish words, so a document stated on phrases fixes the text the caller hears |
| Wording.SpanishWords | app.py:208-213 | a phrase has Spanish words exactly when it is one of the option-menu lines (its prompts, goodbyes, playing, closing and connecting lines); the welcome, the invalid-language prompt and the bridge-failure line have none |
| Markup.Callbacks | app.py:100-107 | the addresses a document can send the provider to are exactly the actions and redirect targets of its instructions, at most one per instruction |
| Markup.ResponseElement.constructor | app.py:97 | a new response element has no children |
| Markup.ResponseElement.Add | app.py:115 | appending a child element adds it at the end and keeps the earlier children |
| Markup.ResponseElement.AddSpeak | app.py:118-122 | appends one speak instruction with the given phrase, voice and language |
| Markup.ResponseElement.AddPlay | app.py:242 | appends one play instruction for the URL |
| Markup.ResponseElement.AddRedirect | app.py:138 | appends one redirect to the URL |
| Markup.ResponseElement.AddHangup | app.py:123 | appends a hangup |
| Markup.GetInputElement.constructor | app.py:100-107 | a digit collection with the given action and settings and no prompts yet |
| Markup.GetInputElement.AddSpeak | app.py:109-113 | adds a spoken prompt at the end of the collection's prompts |
| Markup.DialElement.constructor | app.py:278-282 | a bridge with the caller id, status action and method given, with no numbers yet |
| Markup.DialElement.AddNumber | app.py:283 | adds a number to dial at the end of the bridge's numbers |
| Endpoints.WelcomeUrl | app.py:65 | the answer address of an outbound call, BASE_URL followed by "/ivr/welcome"; it lies under BASE_URL |
| Endpoints.LanguageSelectedUrl | app.py:101 | the address of the language choice, BASE_URL followed by "/ivr/language-selected"; it lies under BASE_URL |
| Endpoints.MenuUrl | app.py:138-141 | the menu address carries the language as its final characters, after a fixed 15-character path under BASE_URL |
| Endpoints.ActionUrl | app.py:182 | the action address carries the language as its final characters, after a fixed 17-character path under BASE_URL (also app.py:289) |
| Endpoints.DialStatusUrl | app.py:280 | the bridge's status address, BASE_URL followed by "/ivr/dial-status"; it lies under BASE_URL |
| Endpoints.Param | app.py:133 | `request.values.get(key, default)`: the request's value when it carries the key, the default otherwise (also app.py:178, 230, 231, 335) |
| Endpoints.Parse | app.py:91 | recognises the flow's own addresses, the shapes the handlers build for the routes of app.py:91, 128, 172, 225 and 330, and resolves each to its route and query: only addresses under BASE_URL resolve; the query of a resolved address carries `lang` exactly for menu and action and never carries Digits or DialStatus, so the posted values are never shadowed by the flow's own addresses |
| Endpoints.RouteInitials | app.py:101 | the character after "/ivr/" tells the five webhook addresses apart, and the language addresses extend their empty-language prefix |
| Endpoints.ParseInvertsUrls | app.py:182 | every address a handler generates parses back to its route and to the language it carries |
| Endpoints.MenuUrlInjective | app.py:138-141 | two menu addresses are equal if and only if they carry the same language |
| Endpoints.ActionUrlInjective | app.py:182 | two action addresses are equal if and only if they carry the same language |
| Routing.LocaleOf | app.py:190 | the `lang == "es"` tests of the menu and action handlers: Spanish if and only if lang is "es", English for every other value, the default included (also app.py:208, 236, 264, 297, 313) |
| Routing.WelcomeResponse | app.py:97-123 | the welcome document collects one digit for language-selected while speaking the welcome prompt, then says the no-input goodbye and hangs up; all of it is in English |
| Routing.LanguageSelectedResponse | app.py:133-167 | "1" and "2" give a single redirect to the English and Spanish menu; a redirect appears if and only if the digits are "1" or "2"; any other input, empty included, re-prompts at language-selected and ends with the invalid-input goodbye |
| Routing.MenuResponse | app.py:178-220 | the menu collects one digit for the action address carrying the caller's language; it is spoken in Spanish if and only if lang is "es" and in English for any other value |
| Routing.ActionResponse | app.py:230-325 | "1" speaks, plays the language's recording, thanks and hangs up; "2" speaks and bridges from the provider number to the associate with dial-status as action; a hangup appears if and only if the digits are not "2"; anything else re-prompts at the action address in the same language |
| Routing.DialStatusResponse | app.py:335-351 | one spoken line and a hangup; the line is the thank-you if and only if the status is "completed" and the apology otherwise |
| Handlers.NewDigitInput | app.py:144-151 | a fresh digit collection for the action with the flow's settings: POST, dtmf, 5-second timeout, one digit, redirect on |
| Handlers.IvrWelcome | app.py:97-125 | building the welcome element step by step yields exactly the document WelcomeResponse prescribes |
| Handlers.IvrLanguageSelected | app.py:133-169 | reading Digits (default "") and building the element yields exactly LanguageSelectedResponse |
| Handlers.IvrMenu | app.py:178-222 | reading lang (default "en") and building the element yields exactly MenuResponse |
| Handlers.IvrAction | app.py:230-327 | reading Digits and lang and building the element, bridge included, yields exactly ActionResponse |
| Handlers.IvrDialStatus | app.py:335-352 | reading DialStatus (default "") and building the element yields exactly DialStatusResponse |
| Outbound.NormalizePhone | app.py:53-55 | the result starts with "+"; a number that already does is unchanged; any other gets exactly one "+" in front and ends with the original number |
| Outbound.NormalizeIdempotent | app.py:54-55 | normalising twice is normalising once |
| Outbound.PrepareCall | app.py:47-67 | the request is rejected with 400 "Phone number is required" if and only if phone_number is missing or empty; otherwise the call goes from the provider number to the normalised number, by POST, with an answer address that parses to the welcome webhook |
| Outbound.MakeCall | app.py:47-83 | 400 exactly for a rejected body; "Call initiated to <number>" with the provider's request id exactly when the body is accepted and the provider creates the call; a provider error becomes a 500 carrying its message |
| Outbound.MissingNumberPlacesNoCall | app.py:50-51 | a body without a number gets the same 400 whatever the provider would have answered |
| CallFlow.Respond | app.py:91-352 | every document the route table answers ends in exactly one terminal instruction (hangup, redirect or dial), and it is the last one |
| CallFlow.Follow | app.py:100-107 | the provider running a document: it ends, requests the next webhook, or fails on an address; a failing address is one the document names and that `Parse` does not resolve |
| CallFlow.Transition | app.py:91-352 | the address-free state machine of the flow: it never fails, never returns to the welcome webhook, and reaches dial-status if and only if the caller asked for the associate at the action webhook |
| CallFlow.FollowPrompt | app.py:144-167 | a prompt document (collection, goodbye, hangup) leads to its action with the digits, or ends the call on silence |
| CallFlow.LanguageSelectedStep | app.py:133-167 | what the provider does with the language-selected document is the state machine's step from that node |
| CallFlow.ActionStep | app.py:230-325 | what the provider does with the action document is the state machine's step from that node |
| CallFlow.FollowIsTransition | app.py:91-352 | for every request and event, running the answered document leads where the address-free state machine says, with the state the next node needs |
| CallFlow.CallbacksResolve | app.py:101 | every address a document of the flow names (collection action, redirect target, bridge action) parses to one of the five webhooks |
| CallFlow.SpanishLinesAreTranslated | app.py:190-325 | every line a document of the flow voices in Spanish, prompts included, is a phrase that has Spanish words |
| CallFlow.NoBrokenLinks | app.py:101 | no document of the flow sends the provider to an address that `Parse` does not resolve |
| CallFlow.Calls | app.py:91-352 | a call is a run of webhook requests starting at the first one, where each request is what the previous document leads to and the last one ends the call or uses up the events |
| CallProperties.StepKeepsKnownLanguage | app.py:136-141 | one round trip from a request carrying English or Spanish leads to one that does too |
| CallProperties.CallKeepsKnownLanguage | app.py:178-182 | along a whole call every request carries "en" or "es" or no language |
| CallProperties.LanguageIsKept | app.py:230-231 | once in the menu, every later request reads the same language until the bridge reports to dial-status |
| CallProperties.SilenceNeverReprompts | app.py:117-123 | with no digits entered, a round trip continues only from a valid language choice to the menu or from the associate request to dial-status |
| CallProperties.SilentCallEnds | app.py:117-123 | a caller who never presses a key causes at most two webhook requests from any node |
| CallProperties.InvalidLanguageChoiceRepeats | app.py:142-159 | a caller who keeps entering digits other than 1 and 2 stays at language-selected for one request per entry, with no ceiling |
| CallProperties.InvalidMenuChoiceRepeats | app.py:286-310 | the same in the option menu, at the action webhook and in the same language |
| CallProperties.CallsContinue | app.py:136-141 | a round trip the state machine continues adds one request at the head of the call |
| CallProperties.CallsStop | app.py:260 | a round trip the state machine ends is the call's last request |
| CallProperties.AssociateLeg | app.py:262-284 | from a request for the associate in any language, whatever the caller does later, the next and last request is dial-status with the bridge's outcome |
| CallProperties.MenuLeg | app.py:181-190 | from the menu in any language, pressing 2 leads to the associate request in that language and then to dial-status, which ends the call |
| CallProperties.SpanishChoiceLeg | app.py:139-141 | after pressing 2 at the language menu, the call goes to the Spanish menu, the Spanish associate request and dial-status, then ends |
| CallProperties.SpanishCallerReachesAssociate | app.py:91-352 | a caller who presses 2 at the welcome and 2 at the menu makes exactly the requests welcome, language-selected, Spanish menu, Spanish action, dial-status, however many events follow |

## Left out

- The HTTP server and JSON and form decoding are not modelled. A request is its path and a map of its parameters, with query and form merged as Flask's `request.values` does: a query parameter wins over a form field of the same name.
- A request without a JSON body and a `phone_number` that is not a string are not modelled. The body is a map from strings to strings.
- The provider's REST call is not made. Its answer is the `ProviderOutcome` parameter of `MakeCall`, and any exception counts as a rejection carrying its message.
- XML serialisation of the documents is not modelled. A document is the ordered instruction list the XML describes, and the response's status and content type are fixed.
- The exact words are abstracted. Spoken content is a `Phrase`, and `Wording` maps it to the exact English and Spanish texts of app.py. The documents' properties are stated on phrases, voices and locale codes.
- Debug logging, the stack-trace print, the static index page and the startup banner are not modelled because they have no effect on the replies.
- Loading configuration from the environment (config.py:1-15) is not modelled. The numbers and base URL are a `Config` value, and the credentials are left out.
- Endpoints.Parse: resolves only the addresses the handlers generate: the three exact addresses of welcome, language-selected and dial-status, and menu and action addresses whose query starts with `lang=`. An address that Flask would route, but in another shape, parses to `None`. Examples are one with no query, one with an extra parameter, and one with `Digits` before `lang`. No document of the flow names such an address (`CallFlow.CallbacksResolve`). Parse also takes the `lang` value verbatim, with no percent-decoding and no splitting on "&" or "#". app.py:182 and app.py:289 put the `lang` a request carried into the next address without encoding it. For a `lang` containing "&", "#", "%" or "+", the web framework reads other parameters from that address than the model does. For example, an action request with `lang` "en&Digits=1" and an invalid digit re-prompts toward `…/ivr/action?lang=en&Digits=1`. The next request then reads Digits "1" from the query, which wins over the posted digits, so it plays the message and hangs up. The model re-prompts again with `lang` "en&Digits=1".
- CallFlow.FollowIsTransition, CallProperties.LanguageIsKept and CallProperties.InvalidMenuChoiceRepeats: these are stated for every request, but they describe app.py only for a `lang` without "&", "#", "%" or "+", because of the unencoded address above. A call that starts at the welcome webhook only ever carries "en" or "es" (`CallProperties.CallKeepsKnownLanguage`), so they hold for such calls as stated. Only a request made from outside the flow reaches the difference.
- The provider's digit-collection timing, retries and call progress are not modelled. They are the `Event` given to each document: the digits entered or silence, and the bridge outcome.

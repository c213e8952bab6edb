/** The outbound-call endpoint (make_call in app.py): validate the destination
    number, bring it to international form, ask the provider to place the call
    with the flow's welcome step as its answer address, and report the outcome. */
module Outbound {
  import opened Wrappers
  import opened Settings
  import opened Endpoints

  predicate StartsWithPlus(s: string) {
    |s| > 0 && s[0] == '+'
  }

  /** International form: a leading "+" is added when missing. No other
      validation of the digits is done. */
  function NormalizePhone(phone: string): (r: string)
    ensures StartsWithPlus(r)
    ensures StartsWithPlus(phone) ==> r == phone
    ensures !StartsWithPlus(phone) ==> r == "+" + phone
    ensures |phone| <= |r| <= |phone| + 1 && r[|r| - |phone|..] == phone
  {
    if StartsWithPlus(phone) then phone else "+" + phone
  }

  /** Normalising twice is normalising once. */
  lemma NormalizeIdempotent(phone: string)
    ensures NormalizePhone(NormalizePhone(phone)) == NormalizePhone(phone)
  {
  }

  /** The call-creation request sent to the provider. */
  datatype CallRequest = CallRequest(from: string, to: string, answerUrl: string, answerMethod: string)

  /** What the provider answers to a call-creation request. */
  datatype ProviderOutcome =
    | Created(requestUuid: string)
    | Rejected(message: string)  // an API error or any other exception, as its message

  /** The endpoint's JSON reply and HTTP status. */
  datatype Reply =
    | Initiated(message: string, callUuid: string)  // 200, success true
    | Failed(status: nat, error: string)            // success false

  const PHONE_REQUIRED := "Phone number is required"

  /** The part of make_call before the network: the body's "phone_number"
      must be present and non-empty; it is then normalised and addressed. */
  function PrepareCall(cfg: Config, body: map<string, string>): (r: Result<CallRequest, Reply>)
    ensures r.Failure? <==> "phone_number" !in body || body["phone_number"] == ""
    ensures r.Failure? ==> r.error == Failed(400, PHONE_REQUIRED)
    ensures r.Success? ==>
      r.value.to == NormalizePhone(body["phone_number"]) && StartsWithPlus(r.value.to) &&
      r.value.from == cfg.fromNumber && r.value.answerMethod == "POST"
    ensures r.Success? ==> Parse(cfg.baseUrl, r.value.answerUrl) == Some(Webhook(Welcome, map[]))
  {
    if "phone_number" !in body || body["phone_number"] == "" then
      Failure(Failed(400, PHONE_REQUIRED))
    else
      ParseInvertsUrls(cfg.baseUrl, "");
      Success(CallRequest(cfg.fromNumber, NormalizePhone(body["phone_number"]), WelcomeUrl(cfg.baseUrl), "POST"))
  }

  /** make_call, with `outcome` standing for the provider's answer to the
      request PrepareCall builds. A rejected body is answered without consulting
      the provider; a provider failure becomes a 500 carrying its message. */
  function MakeCall(cfg: Config, body: map<string, string>, outcome: ProviderOutcome): (reply: Reply)
    ensures reply == Failed(400, PHONE_REQUIRED) <==> PrepareCall(cfg, body).Failure?
    ensures reply.Initiated? <==> PrepareCall(cfg, body).Success? && outcome.Created?
    ensures reply.Initiated? ==>
      reply.callUuid == outcome.requestUuid &&
      reply.message == "Call initiated to " + PrepareCall(cfg, body).value.to
    ensures PrepareCall(cfg, body).Success? && outcome.Rejected? ==> reply == Failed(500, outcome.message)
  {
    match PrepareCall(cfg, body)
    case Failure(rejection) => rejection
    case Success(request) =>
      match outcome
      case Created(uuid) => Initiated("Call initiated to " + request.to, uuid)
      case Rejected(message) => Failed(500, message)
  }

  /** A body without a number gets its 400 whatever the provider would have
      said: no call is placed for it. */
  lemma MissingNumberPlacesNoCall(cfg: Config, body: map<string, string>, o1: ProviderOutcome, o2: ProviderOutcome)
    requires "phone_number" !in body || body["phone_number"] == ""
    ensures MakeCall(cfg, body, o1) == MakeCall(cfg, body, o2) == Failed(400, PHONE_REQUIRED)
  {
  }
}

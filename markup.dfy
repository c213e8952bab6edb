/** The voice-flow document a webhook answers with. The provider's markup
    library builds it by appending child elements to a mutable response
    element and serialises it to XML; the model keeps the ordered list of
    instructions that the serialised document describes. */
module Markup {
  import opened Wording

  /** Synthesised speech: the phrase spoken (its words are given by the
      Wording module), the voice and the locale code. */
  datatype Speech = Speech(content: Phrase, voice: string, language: string)

  /** One instruction of a voice-flow document, in the order the provider
      executes them. */
  datatype Instr =
    | Speak(speech: Speech)
      /** Collect digits while speaking the prompts; with digits the provider
          requests `action`, without them it goes on with the next instruction. */
    | GetInput(action: string, httpMethod: string, inputType: string, digitEndTimeout: string,
               numDigits: string, redirect: string, prompts: seq<Speech>)
    | Play(url: string)
    | Redirect(url: string)
      /** Bridge the call to `numbers`; when the bridge ends the provider
          requests `action` with the outcome. */
    | Dial(callerId: string, action: string, httpMethod: string, numbers: seq<string>)
    | Hangup

  /** An instruction after which the provider runs nothing more of this document. */
  predicate Terminal(i: Instr) {
    i.Hangup? || i.Redirect? || i.Dial?
  }

  /** A document the provider can finish: it is non-empty, its last instruction
      is terminal and no earlier one is, so no instruction is dead. */
  predicate EndsInTerminal(doc: seq<Instr>) {
    |doc| > 0 && Terminal(doc[|doc| - 1]) &&
    forall k :: 0 <= k < |doc| - 1 ==> !Terminal(doc[k])
  }

  /** The webhook address an instruction may make the provider request next. */
  function CallbackOf(i: Instr): seq<string> {
    match i
    case GetInput(action, _, _, _, _, _, _) => [action]
    case Redirect(url) => [url]
    case Dial(_, action, _, _) => [action]
    case _ => []
  }

  /** Every webhook address a document may make the provider request, in order. */
  function Callbacks(doc: seq<Instr>): (urls: seq<string>)
    ensures |urls| <= |doc|
    ensures forall u :: u in urls <==> exists k :: 0 <= k < |doc| && u in CallbackOf(doc[k])
  {
    if doc == [] then []
    else
      var rest := Callbacks(doc[1..]);
      assert forall k :: 1 <= k < |doc| ==> doc[k] == doc[1..][k - 1];
      CallbackOf(doc[0]) + rest
  }

  /** The response element of a webhook answer: children are appended in the
      order the handler adds them. */
  class ResponseElement {
    var children: seq<Instr>

    constructor ()
      ensures children == []
    {
      children := [];
    }

    /** Appends an element built separately (a digit collection or a bridge). */
    method Add(element: Instr)
      modifies this
      ensures children == old(children) + [element]
    {
      children := children + [element];
    }

    method AddSpeak(content: Phrase, voice: string, language: string)
      modifies this
      ensures children == old(children) + [Speak(Speech(content, voice, language))]
    {
      children := children + [Speak(Speech(content, voice, language))];
    }

    method AddPlay(url: string)
      modifies this
      ensures children == old(children) + [Play(url)]
    {
      children := children + [Play(url)];
    }

    method AddRedirect(url: string)
      modifies this
      ensures children == old(children) + [Redirect(url)]
    {
      children := children + [Redirect(url)];
    }

    method AddHangup()
      modifies this
      ensures children == old(children) + [Hangup]
    {
      children := children + [Hangup];
    }
  }

  /** A digit-collection element under construction: fixed attributes and the
      prompts spoken while it waits. */
  class GetInputElement {
    const action: string
    const httpMethod: string
    const inputType: string
    const digitEndTimeout: string
    const numDigits: string
    const redirect: string
    var prompts: seq<Speech>

    constructor (action: string, httpMethod: string, inputType: string, digitEndTimeout: string,
                 numDigits: string, redirect: string)
      ensures this.action == action && this.httpMethod == httpMethod && this.inputType == inputType
      ensures this.digitEndTimeout == digitEndTimeout && this.numDigits == numDigits
      ensures this.redirect == redirect && prompts == []
    {
      this.action := action;
      this.httpMethod := httpMethod;
      this.inputType := inputType;
      this.digitEndTimeout := digitEndTimeout;
      this.numDigits := numDigits;
      this.redirect := redirect;
      prompts := [];
    }

    method AddSpeak(content: Phrase, voice: string, language: string)
      modifies this
      ensures prompts == old(prompts) + [Speech(content, voice, language)]
    {
      prompts := prompts + [Speech(content, voice, language)];
    }

    /** The instruction this element stands for once added to a response. */
    function Element(): Instr
      reads this
    {
      GetInput(action, httpMethod, inputType, digitEndTimeout, numDigits, redirect, prompts)
    }
  }

  /** A bridge element under construction: fixed attributes and the numbers to ring. */
  class DialElement {
    const callerId: string
    const action: string
    const httpMethod: string
    var numbers: seq<string>

    constructor (callerId: string, action: string, httpMethod: string)
      ensures this.callerId == callerId && this.action == action && this.httpMethod == httpMethod
      ensures numbers == []
    {
      this.callerId := callerId;
      this.action := action;
      this.httpMethod := httpMethod;
      numbers := [];
    }

    method AddNumber(number: string)
      modifies this
      ensures numbers == old(numbers) + [number]
    {
      numbers := numbers + [number];
    }

    function Element(): Instr
      reads this
    {
      Dial(callerId, action, httpMethod, numbers)
    }
  }
}

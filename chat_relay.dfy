/**
 * The chat relay function: from the incoming request, the configured gateway key and what
 * the AI gateway answers, the response the relay sends back, and the request it sends on.
 * The network is a parameter: the gateway's answer is an input.
 */
module ChatRelay {
  import opened Wrappers

  // ---------------------------------------------------------------------------------------
  // Inputs

  /**
   * The request body once read as JSON: the three fields the relay uses, an absent context
   * written as "". A body that cannot be read gives the parser's error message.
   */
  datatype Body = Fields(message: string, language: string, context: string) | Unreadable(reason: string)

  datatype Request = Request(httpMethod: string, body: Body)

  /** An HTTP status outside 200-299, i.e. one for which `response.ok` is false. */
  type FailureStatus = c: int | !(200 <= c <= 299) witness 500

  /**
   * What the gateway call ends in: a successful reply, a failure status, or a thrown error
   * (a reply without `choices[0]` or its `message` throws when read). A reply's
   * `choices[0].message.content` is None when the message has no content.
   */
  datatype Upstream = Reply(content: Option<string>) | Rejected(status: FailureStatus) | Failure(reason: string)

  // ---------------------------------------------------------------------------------------
  // Outputs

  datatype Header = Header(name: string, value: string)

  const CorsHeaders: seq<Header> := [
    Header("Access-Control-Allow-Origin", "*"),
    Header("Access-Control-Allow-Headers", "authorization, x-client-info, apikey, content-type")
  ]

  const JsonHeaders: seq<Header> := CorsHeaders + [Header("Content-Type", "application/json")]

  /** `Answer(None)` is `{ response: undefined }`, which serialises as `{}`. */
  datatype ResponseBody = NullBody | Answer(response: Option<string>) | Error(error: string)

  datatype Response = Response(status: int, body: ResponseBody, headers: seq<Header>)

  datatype ChatMessage = ChatMessage(role: string, content: string)

  datatype GatewayRequest = GatewayRequest(
    authorization: string, model: string, messages: seq<ChatMessage>, temperature: real, maxTokens: nat)

  /** The relay either answers at once or first calls the gateway. */
  datatype Decision = Respond(response: Response) | Call(request: GatewayRequest)

  const MissingKeyError: string := "LOVABLE_API_KEY is not configured"
  const RateLimitError: string := "Rate limit exceeded. Please try again later."
  const PaymentError: string := "Payment required. Please add credits to continue."
  const GatewayError: string := "AI Gateway error"
  const Model: string := "google/gemini-2.5-flash"
  const Temperature: real := 0.7
  const MaxTokens: nat := 300

  // ---------------------------------------------------------------------------------------
  // The prompts. Their wording is replaced by short stand-ins that keep what the relay relies
  // on: the helpline number 1234 and the place of the context line.

  const Helpline: string := "1234"
  const TamilIntro: string := "RationBot (Tamil). Helpline: "
  const EnglishIntro: string := "RationBot (Tanglish). Helpline: EXACTLY "
  const HelplineRule: string := " ONLY (Toll Free).\n"
  const TamilPromptHead: string := TamilIntro + Helpline + HelplineRule
  const EnglishPromptHead: string := EnglishIntro + Helpline + HelplineRule
  const EnglishPromptTail: string := "\nExample: Support venum-na 1234 call pannunga."
  const TamilContextLabel: string := "தற்போதைய சூழல்: "
  const EnglishContextLabel: string := "Current context: "
  const HelplineFactIntro: string := "MANDATORY FACT: The official support helpline toll-free number is "
  const HelplineFact: string := HelplineFactIntro + Helpline + "."

  /** `s` occurs in `text` starting at position i. */
  predicate OccursAt(s: string, text: string, i: nat)
  {
    i + |s| <= |text| && text[i..i + |s|] == s
  }

  predicate Contains(text: string, s: string)
  {
    exists i :: 0 <= i <= |text| && OccursAt(s, text, i)
  }

  /** The helpline number stays in a text however much is put on either side of it. */
  lemma HelplineAmid(before: string, after: string)
    ensures Contains(before + Helpline + after, Helpline)
  {
    var text := before + Helpline + after;
    assert text[|before|..|before| + |Helpline|] == Helpline;
    assert OccursAt(Helpline, text, |before|);
  }

  /** The context line: present only for a non-empty context. */
  function ContextLine(heading: string, context: string): (line: string)
    ensures line == "" <==> context == ""
    ensures context != "" ==> |context| <= |line| && line[|line| - |context|..] == context
  {
    if context != "" then heading + context else ""
  }

  /** The system prompt: the Tamil one for language "ta", the English one for anything else. */
  function SystemPrompt(language: string, context: string): (p: string)
    ensures language == "ta" ==> p == TamilPromptHead + ContextLine(TamilContextLabel, context)
    ensures language != "ta" ==>
      p == EnglishPromptHead + ContextLine(EnglishContextLabel, context) + EnglishPromptTail
  {
    if language == "ta" then TamilPromptHead + ContextLine(TamilContextLabel, context)
    else EnglishPromptHead + ContextLine(EnglishContextLabel, context) + EnglishPromptTail
  }

  /**
   * A prompt made of an intro, the helpline, a rule, a context line and an optional tail
   * contains the helpline, with or without the tail.
   */
  lemma HelplineInPrompt(intro: string, rule: string, line: string, tail: string)
    ensures Contains(intro + Helpline + rule + line, Helpline)
    ensures Contains(intro + Helpline + rule + line + tail, Helpline)
  {
    assert intro + Helpline + rule + line == intro + Helpline + (rule + line);
    HelplineAmid(intro, rule + line);
    assert intro + Helpline + rule + line + tail == intro + Helpline + (rule + line + tail);
    HelplineAmid(intro, rule + line + tail);
  }

  /** Both prompts, whatever the context, give the helpline number 1234. */
  lemma PromptGivesHelpline(language: string, context: string)
    ensures Contains(SystemPrompt(language, context), Helpline)
  {
    if language == "ta" {
      HelplineInPrompt(TamilIntro, HelplineRule, ContextLine(TamilContextLabel, context), "");
    } else {
      HelplineInPrompt(EnglishIntro, HelplineRule, ContextLine(EnglishContextLabel, context), EnglishPromptTail);
    }
  }

  /** The gateway request: the prompt, the fixed helpline fact, and the citizen's message. */
  function GatewayCall(key: string, message: string, language: string, context: string): (g: GatewayRequest)
    ensures |g.messages| == 3
    ensures g.messages[0] == ChatMessage("system", SystemPrompt(language, context))
    ensures g.messages[1].role == "system" && Contains(g.messages[1].content, Helpline)
    ensures g.messages[2] == ChatMessage("user", message)
    ensures g.model == Model && g.temperature == Temperature && g.maxTokens == MaxTokens
    ensures g.authorization == "Bearer " + key
  {
    HelplineAmid(HelplineFactIntro, ".");
    GatewayRequest("Bearer " + key, Model,
      [ChatMessage("system", SystemPrompt(language, context)),
       ChatMessage("system", HelplineFact),
       ChatMessage("user", message)],
      Temperature, MaxTokens)
  }

  /** A key counts as configured when it is present and not empty. */
  predicate KeyConfigured(key: Option<string>)
  {
    key.Some? && key.value != ""
  }

  function ErrorResponse(status: int, error: string): (r: Response)
    ensures r.status == status && r.body == Error(error) && r.headers == JsonHeaders
  {
    Response(status, Error(error), JsonHeaders)
  }

  /**
   * Everything before the gateway call: a preflight is answered with the CORS headers and no
   * body; then the body is read (a failure answers 500 with the parser's message); then a
   * missing key answers 500; otherwise the gateway is called.
   */
  function Plan(req: Request, key: Option<string>): (d: Decision)
    ensures req.httpMethod == "OPTIONS" ==> d == Respond(Response(200, NullBody, CorsHeaders))
    ensures req.httpMethod != "OPTIONS" && req.body.Unreadable? ==>
      d == Respond(ErrorResponse(500, req.body.reason))
    ensures req.httpMethod != "OPTIONS" && req.body.Fields? && !KeyConfigured(key) ==>
      d == Respond(ErrorResponse(500, MissingKeyError))
    ensures d.Call? <==> req.httpMethod != "OPTIONS" && req.body.Fields? && KeyConfigured(key)
  {
    if req.httpMethod == "OPTIONS" then Respond(Response(200, NullBody, CorsHeaders))
    else match req.body
      case Unreadable(reason) => Respond(ErrorResponse(500, reason))
      case Fields(message, language, context) =>
        if !KeyConfigured(key) then Respond(ErrorResponse(500, MissingKeyError))
        else Call(GatewayCall(key.value, message, language, context))
  }

  /**
   * After the gateway call: its answer goes back with the default status 200, as `{}` when the
   * reply's message has no content; 429 and 402 are passed on with their own messages; any
   * other failure status, or an error thrown on the way, answers 500.
   */
  function Finish(outcome: Upstream): (r: Response)
    ensures r.headers == JsonHeaders
    ensures r.status == 200 <==> outcome.Reply?
    ensures outcome.Reply? ==> r.body == Answer(outcome.content)
    ensures r.body.Answer? <==> outcome.Reply?
    ensures outcome.Rejected? && outcome.status == 429 ==> r == ErrorResponse(429, RateLimitError)
    ensures outcome.Rejected? && outcome.status == 402 ==> r == ErrorResponse(402, PaymentError)
    ensures outcome.Rejected? && outcome.status != 429 && outcome.status != 402 ==>
      r == ErrorResponse(500, GatewayError)
    ensures outcome.Failure? ==> r == ErrorResponse(500, outcome.reason)
  {
    match outcome
    case Reply(content) => Response(200, Answer(content), JsonHeaders)
    case Rejected(status) =>
      if status == 429 then ErrorResponse(429, RateLimitError)
      else if status == 402 then ErrorResponse(402, PaymentError)
      else ErrorResponse(500, GatewayError)
    case Failure(reason) => ErrorResponse(500, reason)
  }

  /** The whole handler; `outcome` is used only when the gateway is called. */
  function Handle(req: Request, key: Option<string>, outcome: Upstream): (r: Response)
    ensures |CorsHeaders| <= |r.headers| && r.headers[..|CorsHeaders|] == CorsHeaders
    ensures r.status in {200, 402, 429, 500}
    ensures r.status == 200 <==> req.httpMethod == "OPTIONS" || (Plan(req, key).Call? && outcome.Reply?)
  {
    assert JsonHeaders[..|CorsHeaders|] == CorsHeaders;
    match Plan(req, key)
    case Respond(response) => response
    case Call(_) => Finish(outcome)
  }

  /** Only a request that reaches the gateway can answer 402 or 429, and only if the gateway did. */
  lemma PassedOnStatuses(req: Request, key: Option<string>, outcome: Upstream)
    requires Handle(req, key, outcome).status in {402, 429}
    ensures Plan(req, key).Call? && outcome.Rejected? && outcome.status == Handle(req, key, outcome).status
  {
  }

  /** A preflight or an unconfigured relay never depends on the gateway. */
  lemma NoCallWithoutKey(req: Request, key: Option<string>, o1: Upstream, o2: Upstream)
    requires req.httpMethod == "OPTIONS" || !KeyConfigured(key)
    ensures Handle(req, key, o1) == Handle(req, key, o2)
  {
  }
}

/**
 * The chat endpoints (backend/controllers/chatbot.controller.js): validate the
 * request, dispatch to the service with or without the financial snapshot,
 * and map the service's envelope to an HTTP status and JSON body.
 */
module ChatbotController {
  import opened Wrappers
  import opened JsStrings
  import opened Http
  import opened ChatbotService

  /**
   * `req.body.message` as JSON delivers it: absent, a string, or some other
   * JSON value (number, boolean, null, array, object) with its truthiness.
   */
  datatype MessageField = Absent | Text(s: string) | NonString(truthy: bool)

  datatype ChatRequest = ChatRequest(
    message: MessageField,
    conversationHistory: Option<seq<ChatMessage>>,
    financialData: Option<FinancialData>)

  const MessageRequired: string := "Message is required"
  const ChatFailed: string := "Failed to process chat message"

  /** `!message || !message.trim()` for a value on which `trim` exists. */
  predicate MessageBlank(m: MessageField) {
    m.Absent? || (m.NonString? && !m.truthy) || (m.Text? && Trim(m.s) == "")
  }

  /** A truthy non-string has no `trim` method: the call throws a TypeError. */
  predicate MessageThrows(m: MessageField) {
    m.NonString? && m.truthy
  }

  /** The prompt the service hands to the model for a valid text message. */
  function PromptFor(message: string, req: ChatRequest, fmt: real -> string): string {
    if req.financialData.Some? then
      ContextPrompt(message, req.financialData, req.conversationHistory.GetOr([]), fmt)
    else ChatPrompt(message)
  }

  /**
   * `chat(req, res)`.  `now` stands for `new Date().toISOString()`; `sent` is
   * the prompt handed to the language model (`None` when no service method
   * ran).
   */
  method Chat(req: ChatRequest, now: string, fmt: real -> string, generate: string -> GenOutcome)
    returns (response: Response, sent: Option<string>)
    ensures response.status in {200, 400, 500}
    ensures MessageBlank(req.message) ==> response == Error(400, MessageRequired) && sent == None
    ensures MessageThrows(req.message) ==> response == Error(500, ChatFailed) && sent == None
    ensures req.message.Text? && !MessageBlank(req.message) ==>
      var p := PromptFor(req.message.s, req, fmt);
      && sent == Some(p)
      && (generate(p).Generated? ==> response == Response(200, ChatBody(generate(p).text, now)))
      && (generate(p).GenerationFailed? ==> response == Error(500, Envelope(generate(p)).error))
  {
    sent := None;
    if MessageBlank(req.message) {
      return Error(400, MessageRequired), sent;
    }
    if !req.message.Text? {
      // `message.trim` is not a function: the TypeError lands in the catch block.
      return Error(500, ChatFailed), sent;
    }
    var message := req.message.s;
    var history := if req.conversationHistory.Some? then req.conversationHistory.value else [];

    var result: ServiceResult;
    if req.financialData.Some? {
      var prompt;
      result, prompt := ChatWithContext(message, req.financialData, history, fmt, generate);
      sent := Some(prompt);
    } else {
      result := ChatbotService.Chat(message, history, generate);
      sent := Some(ChatPrompt(message));
    }

    if !result.Succeeded? {
      return Error(500, result.error), sent;
    }
    return Response(200, ChatBody(result.message, now)), sent;
  }

  const ModelName: string := "gemini-pro"

  /**
   * `healthCheck(req, res)`: always online; `configured` is `!!process.env.GEMINI_API_KEY`
   * (an unset or empty key is not configured).
   */
  function HealthCheck(apiKey: Option<string>): (r: Response)
    ensures r.status == 200 && r.body.HealthBody?
    ensures r.body.status == "online" && r.body.model == ModelName
    ensures r.body.configured <==> apiKey.Some? && |apiKey.value| > 0
  {
    Response(200, HealthBody("online", apiKey.Some? && apiKey.value != "", ModelName))
  }
}

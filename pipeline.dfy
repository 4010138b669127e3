/** One chat turn from the provider's side: title inference, routing, the
    history and current-turn payloads, the image capability gate and the
    provider call. The store writes around it live in the Store module. */
module Pipeline {
  import opened Wrappers
  import opened Text
  import opened Schema
  import opened Routing
  import opened Adapters

  /** Titles inferred from a first message keep at most this many characters. */
  const TitleLimit: nat := 30

  const MissingConversation: string := "Valid conversationId is required"
  const GenerationFailed: string := "Failed to generate content"
  const NoResponse: string := "No response"
  const ImageNotSupported: string :=
    "This model doesn't support images. Please select a vision model like llama-3.2-11b-vision-preview."

  /** The fields of a `/api/chat` request. An absent `message` is the empty string. */
  datatype ChatRequest = ChatRequest(
    conversationId: Option<Id>,
    message: string,
    model: Option<string>,
    image: Option<Upload>)

  /** An HTTP answer: 200 with a body, 400, 404, or 500 with details. */
  datatype Response<+T> =
    | Ok(body: T)
    | BadRequest(error: string)
    | NotFound(error: string)
    | ServerError(error: string, details: string)

  /** What a turn does once routed: answer without calling anyone, or call a provider. */
  datatype TurnPlan = Gated(reply: string) | Invoke(call: ProviderCall)

  /** The title a conversation takes from its first message: the first
      thirty characters, with `...` appended when something was cut off. */
  function InferTitle(message: string): (title: string)
    ensures |message| <= TitleLimit ==> title == message
    ensures |message| > TitleLimit ==>
              && |title| == TitleLimit + 3
              && title[..TitleLimit] == message[..TitleLimit]
              && title[TitleLimit..] == "..."
  {
    Prefix(message, TitleLimit) + (if |message| > TitleLimit then "..." else "")
  }

  /** The user message a turn saves: its text as sent, `hasImage` and the
      image URL exactly when an image came with it. */
  function UserMessage(req: ChatRequest, id: Id, now: Time): Message
    requires req.conversationId.Some?
  {
    Message(id, req.conversationId.value, User, req.message, req.image.Some?,
            if req.image.Some? then Some(req.image.value.url) else None, now)
  }

  /** The bot message a successful turn saves. */
  function BotMessage(conversationId: Id, text: string, id: Id, now: Time): Message
  {
    Message(id, conversationId, Bot, text, false, None, now)
  }

  /** The turn's routing and payload, given the conversation's earlier messages. */
  function Plan(req: ChatRequest, prior: seq<Message>): TurnPlan
  {
    var name := ResolveModel(req.model);
    match ProviderFor(name)
    case Groq =>
      if req.image.Some? && !SupportsVision(name) then Gated(ImageNotSupported)
      else Invoke(GroqCall(name, GroqTurns(prior) + [GroqCurrentTurn(req.message)]))
    case Gemini =>
      Invoke(GeminiCall(name, GeminiTurns(prior), CurrentParts(req.message, req.image)))
  }

  /** The provider call a plan makes, if any. */
  function CallOf(plan: TurnPlan): Option<ProviderCall>
  {
    match plan
    case Gated(_) => None
    case Invoke(call) => Some(call)
  }

  /** The reply text of a turn, or the provider's failure message. Groq's
      empty answer becomes `No response`; Gemini's text is taken as is. */
  function TurnReply(plan: TurnPlan, answer: ProviderCall -> Reply): Result<string, string>
  {
    match plan
    case Gated(text) => Success(text)
    case Invoke(call) =>
      match answer(call)
      case Failed(e) => Failure(e)
      case Replied(text) => Success(if call.GroqCall? then OrElse(text, NoResponse) else text)
  }

  /** Steps 4 to 7 of a turn: route on the model name, build the history
      from the fetched messages without the one just saved, build the
      current turn, apply the image gate and call the chosen provider. */
  method Dispatch(req: ChatRequest, previous: seq<Message>, current: Id, answer: ProviderCall -> Reply)
    returns (reply: Result<string, string>, call: Option<ProviderCall>)
    ensures call == CallOf(Plan(req, Prior(previous, current)))
    ensures reply == TurnReply(Plan(req, Prior(previous, current)), answer)
  {
    var modelName := ResolveModel(req.model);
    if IsGroqModel(modelName) {
      var messages := BuildGroqHistory(previous, current);
      messages := messages + [GroqMessage("user", OrElse(req.message, GroqEmptyPrompt))];
      if req.image.Some? && !SupportsVision(modelName) {
        reply, call := Success(ImageNotSupported), None;
      } else {
        call := Some(GroqCall(modelName, messages));
        match answer(call.value)
        case Failed(e) =>
          reply := Failure(e);
        case Replied(content) =>
          reply := Success(OrElse(content, NoResponse));
      }
    } else {
      var history := BuildGeminiHistory(previous, current);
      var parts := BuildCurrentParts(req.message, req.image);
      call := Some(GeminiCall(modelName, history, parts));
      match answer(call.value)
      case Failed(e) =>
        reply := Failure(e);
      case Replied(text) =>
        reply := Success(text);
    }
  }

  /** The capability gate: a turn makes no provider call exactly when it goes
      to Groq with an image and a model name without `vision`; such a turn
      succeeds with the fixed explanation whatever the providers would say. */
  lemma GateIff(req: ChatRequest, prior: seq<Message>)
    ensures var name := ResolveModel(req.model);
            CallOf(Plan(req, prior)).None? <==>
              ProviderFor(name) == Groq && req.image.Some? && !SupportsVision(name)
    ensures CallOf(Plan(req, prior)).None? ==>
              forall answer :: TurnReply(Plan(req, prior), answer) == Success(ImageNotSupported)
  {
  }

  /** A call goes to the provider the model name selects, under the resolved name. */
  lemma CallFollowsRoute(req: ChatRequest, prior: seq<Message>)
    requires CallOf(Plan(req, prior)).Some?
    ensures var call := CallOf(Plan(req, prior)).value;
            && call.model == ResolveModel(req.model)
            && (call.GroqCall? <==> ProviderFor(ResolveModel(req.model)) == Groq)
  {
  }

  /** Groq's payload is the projected history followed by exactly one user
      entry with the current text (`Hello` when empty); no image data goes
      along, even to a vision model. */
  lemma GroqPayload(req: ChatRequest, prior: seq<Message>)
    requires CallOf(Plan(req, prior)).Some? && CallOf(Plan(req, prior)).value.GroqCall?
    ensures var ms := CallOf(Plan(req, prior)).value.messages;
            && |ms| == |prior| + 1
            && ms[..|prior|] == GroqTurns(prior)
            && ms[|prior|] == GroqMessage("user", if req.message == "" then GroqEmptyPrompt else req.message)
  {
    GroqTurnsMapping(prior);
  }

  /** Gemini's session is seeded with the projected history and sent the
      current parts: the image first when there is one, then one text part. */
  lemma GeminiPayload(req: ChatRequest, prior: seq<Message>)
    requires CallOf(Plan(req, prior)).Some? && CallOf(Plan(req, prior)).value.GeminiCall?
    ensures var call := CallOf(Plan(req, prior)).value;
            && call.history == GeminiTurns(prior)
            && call.message == CurrentParts(req.message, req.image)
            && (req.image.Some? <==> |call.message| == 2)
  {
  }

  /** A provider failure is passed on as the turn's failure, with its message. */
  lemma FailureSurfaces(req: ChatRequest, prior: seq<Message>, answer: ProviderCall -> Reply)
    requires CallOf(Plan(req, prior)).Some?
    requires answer(CallOf(Plan(req, prior)).value).Failed?
    ensures TurnReply(Plan(req, prior), answer) == Failure(answer(CallOf(Plan(req, prior)).value).error)
  {
  }

  /** The first turn `Hello` without a model goes to Gemini's default model
      with an empty history and the single text part `Hello`. */
  lemma HelloGoesToGemini(cid: Id)
    ensures Plan(ChatRequest(Some(cid), "Hello", None, None), [])
         == Invoke(GeminiCall(DefaultModel, [], [TextPart("Hello")]))
  {
    DefaultRoutesToGemini(None);
    assert GeminiTurns([]) == [];
    assert CurrentParts("Hello", None) == [TextPart("Hello")];
  }
}

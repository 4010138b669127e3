/** The two provider adapters: how the history and the current turn are
    shaped for Groq's chat-completions call and for Gemini's chat session. */
module Adapters {
  import opened Wrappers
  import opened Text
  import opened Schema

  /** Stands in, in the history, for the empty text of an image-only user message. */
  const ImagePlaceholder: string := "Image uploaded"
  /** Groq's current-turn text when the user sent none. */
  const GroqEmptyPrompt: string := "Hello"
  /** Gemini's current-turn text when the user sent none. */
  const GeminiEmptyPrompt: string := "Describe this image."

  /** One entry of Groq's `messages` list. */
  datatype GroqMessage = GroqMessage(role: string, content: string)

  /** The base64 text of `raw`. The encoding itself is a library routine and
      is kept abstract: only which bytes were encoded is recorded. */
  datatype Base64 = Base64(raw: seq<bv8>)

  /** One part of a Gemini content: inline image data or text. */
  datatype Part = InlineData(data: Base64, mimeType: string) | TextPart(text: string)

  /** One entry of Gemini's session history. */
  datatype GeminiContent = GeminiContent(role: string, parts: seq<Part>)

  /** A request to a provider, exactly as the adapter sends it. */
  datatype ProviderCall =
    | GroqCall(model: string, messages: seq<GroqMessage>)
    | GeminiCall(model: string, history: seq<GeminiContent>, message: seq<Part>)

  /** What a provider answers: the reply text (empty when the provider gave
      none), or a failure carrying its message. */
  datatype Reply = Replied(text: string) | Failed(error: string)

  /** The messages the history is built from: all of `previous` except the
      message with id `current`, in the order of `previous`. */
  function Prior(previous: seq<Message>, current: Id): seq<Message>
  {
    Filter(previous, OtherThan(current))
  }

  /** The history entry Groq gets for a stored message. */
  function GroqTurn(m: Message): GroqMessage
  {
    match m.sender
    case User => GroqMessage("user", OrElse(m.text, ImagePlaceholder))
    case Bot => GroqMessage("assistant", m.text)
  }

  /** The history entry Gemini gets for a stored message. */
  function GeminiTurn(m: Message): GeminiContent
  {
    match m.sender
    case User => GeminiContent("user", [TextPart(OrElse(m.text, ImagePlaceholder))])
    case Bot => GeminiContent("model", [TextPart(m.text)])
  }

  function GroqTurns(s: seq<Message>): seq<GroqMessage>
  {
    if s == [] then [] else GroqTurns(s[..|s| - 1]) + [GroqTurn(s[|s| - 1])]
  }

  function GeminiTurns(s: seq<Message>): seq<GeminiContent>
  {
    if s == [] then [] else GeminiTurns(s[..|s| - 1]) + [GeminiTurn(s[|s| - 1])]
  }

  lemma TurnsSnoc(s: seq<Message>, m: Message)
    ensures GroqTurns(s + [m]) == GroqTurns(s) + [GroqTurn(m)]
    ensures GeminiTurns(s + [m]) == GeminiTurns(s) + [GeminiTurn(m)]
  {
    assert (s + [m])[..|s|] == s;
  }

  /** Groq's history has one entry per message, in the same order: a user
      message becomes role `user` carrying its text (the placeholder when the
      text is empty), a bot message role `assistant` carrying its text as is. */
  lemma {:induction false} GroqTurnsMapping(s: seq<Message>)
    ensures |GroqTurns(s)| == |s|
    ensures forall k :: 0 <= k < |s| && s[k].sender == User ==>
              GroqTurns(s)[k] == GroqMessage("user", if s[k].text == "" then ImagePlaceholder else s[k].text)
    ensures forall k :: 0 <= k < |s| && s[k].sender == Bot ==>
              GroqTurns(s)[k] == GroqMessage("assistant", s[k].text)
  {
    if s != [] {
      GroqTurnsMapping(s[..|s| - 1]);
    }
  }

  /** Gemini's history has one entry per message, in the same order, each with
      a single text part: role `user` with the text or the placeholder, role
      `model` with the bot's text as is. */
  lemma {:induction false} GeminiTurnsMapping(s: seq<Message>)
    ensures |GeminiTurns(s)| == |s|
    ensures forall k :: 0 <= k < |s| && s[k].sender == User ==>
              GeminiTurns(s)[k] == GeminiContent("user", [TextPart(if s[k].text == "" then ImagePlaceholder else s[k].text)])
    ensures forall k :: 0 <= k < |s| && s[k].sender == Bot ==>
              GeminiTurns(s)[k] == GeminiContent("model", [TextPart(s[k].text)])
  {
    if s != [] {
      GeminiTurnsMapping(s[..|s| - 1]);
    }
  }

  /** The history never contains the current message, and contains every
      other message of `previous`. */
  lemma PriorMembers(previous: seq<Message>, current: Id)
    ensures forall m :: m in Prior(previous, current) <==> m in previous && m.id != current
  {
    FilterMembers(previous, OtherThan(current));
  }

  /** When the current message was just appended after older messages, the
      history is exactly the messages that were there before it. */
  lemma PriorOfTurn(before: seq<Message>, current: Message)
    requires forall i :: 0 <= i < |before| ==> before[i].id < current.id
    ensures Prior(before + [current], current.id) == before
  {
    FilterSnoc(before, current, OtherThan(current.id));
    FilterKeepsAll(before, OtherThan(current.id));
  }

  /** The loop that builds Groq's `messages` from the fetched messages,
      skipping the one just saved. */
  method BuildGroqHistory(previous: seq<Message>, current: Id) returns (messages: seq<GroqMessage>)
    ensures messages == GroqTurns(Prior(previous, current))
  {
    messages := [];
    var i := 0;
    while i < |previous|
      invariant 0 <= i <= |previous|
      invariant messages == GroqTurns(Prior(previous[..i], current))
    {
      var msg := previous[i];
      assert previous[..i + 1] == previous[..i] + [msg];
      FilterSnoc(previous[..i], msg, OtherThan(current));
      TurnsSnoc(Prior(previous[..i], current), msg);
      if msg.id != current {
        match msg.sender
        case User =>
          messages := messages + [GroqMessage("user", OrElse(msg.text, ImagePlaceholder))];
        case Bot =>
          messages := messages + [GroqMessage("assistant", msg.text)];
      }
      i := i + 1;
    }
    assert previous[..i] == previous;
  }

  /** The loop that builds Gemini's session history, skipping the message
      just saved. */
  method BuildGeminiHistory(previous: seq<Message>, current: Id) returns (history: seq<GeminiContent>)
    ensures history == GeminiTurns(Prior(previous, current))
  {
    history := [];
    var i := 0;
    while i < |previous|
      invariant 0 <= i <= |previous|
      invariant history == GeminiTurns(Prior(previous[..i], current))
    {
      var msg := previous[i];
      assert previous[..i + 1] == previous[..i] + [msg];
      FilterSnoc(previous[..i], msg, OtherThan(current));
      TurnsSnoc(Prior(previous[..i], current), msg);
      if msg.id != current {
        match msg.sender
        case User =>
          history := history + [GeminiContent("user", [TextPart(OrElse(msg.text, ImagePlaceholder))])];
        case Bot =>
          history := history + [GeminiContent("model", [TextPart(msg.text)])];
      }
      i := i + 1;
    }
    assert previous[..i] == previous;
  }

  /** Groq's current-turn entry: the user's text, or the greeting when empty. */
  function GroqCurrentTurn(message: string): GroqMessage
  {
    GroqMessage("user", OrElse(message, GroqEmptyPrompt))
  }

  /** Gemini's current-turn parts. */
  function CurrentParts(message: string, image: Option<Upload>): seq<Part>
  {
    (if image.Some? then [InlineData(Base64(image.value.bytes), image.value.mimeType)] else [])
    + [TextPart(OrElse(message, GeminiEmptyPrompt))]
  }

  /** Builds `currentMessageParts` by successive pushes: an inline-data part
      first exactly when an image came with the turn, then exactly one text
      part, the user's text or the image prompt when the text is empty. */
  method BuildCurrentParts(message: string, image: Option<Upload>) returns (parts: seq<Part>)
    ensures parts == CurrentParts(message, image)
    ensures |parts| == if image.Some? then 2 else 1
    ensures parts[0].InlineData? <==> image.Some?
    ensures image.Some? ==> parts[0] == InlineData(Base64(image.value.bytes), image.value.mimeType)
    ensures parts[|parts| - 1] == TextPart(if message == "" then GeminiEmptyPrompt else message)
    ensures forall k :: 0 <= k < |parts| - 1 ==> !parts[k].TextPart?
  {
    parts := [];
    if image.Some? {
      parts := parts + [InlineData(Base64(image.value.bytes), image.value.mimeType)];
    }
    parts := parts + [TextPart(OrElse(message, GeminiEmptyPrompt))];
  }
}

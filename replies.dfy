/** How `sendMessage` turns the AI call into the assistant's reply: the fixed
    fallback templates (`getFallbackResponse`), the development-mode mock replies,
    the prompt rewriting for image requests, and the ordered classification of
    errors in its `catch` block. `pick` stands for `Math.floor(Math.random() * 3)`. */
module Replies {
  import opened Wrappers
  import opened Strings
  import opened Gemini

  datatype ModelType = Text | Image

  /** A reply that quotes the prompt: `head`, the prompt, then `tail`. */
  datatype Template = Template(head: string, tail: string)

  function Fill(t: Template, prompt: string): (r: string)
    ensures Occurs(prompt, r)
  {
    OccursBetween(t.head, prompt, t.tail);
    t.head + prompt + t.tail
  }

  /** A filled template starts with the template's head. */
  lemma FillStartsWithHead(t: Template, prompt: string, i: nat)
    requires i < |t.head|
    ensures i < |Fill(t, prompt)| && Fill(t, prompt)[i] == t.head[i]
  {
  }

  /** The one template used for an image request. */
  const ImageFallback := Template(ImageFallbackHead, ImageFallbackTail)
  const ImageFallbackHead := "\U{1F3A8} Image Request: \""
  const ImageFallbackTail := "\"\n\nI'd love to help with image generation, but the AI service is currently unavailable. This would create a visual representation of your request. Please try again in a few minutes when the service is back online."

  /** The three templates used for a text request. */
  const TextFallbacks := [
    Template(ReceivedHead, ReceivedTail),
    Template(ThankYouHead, ThankYouTail),
    Template(AskingHead, AskingTail)
  ]
  const ReceivedHead := "I received your message: \""
  const ReceivedTail := "\"\n\nI'm currently unable to connect to the AI service, but I wanted to acknowledge your message. Please try again in a few moments when the service is available."
  const ThankYouHead := "Thank you for your message about \""
  const ThankYouTail := "\". The AI service is temporarily unavailable, but I'll be ready to help as soon as it's back online."
  const AskingHead := "I see you're asking about \""
  const AskingTail := "\". Unfortunately, I can't process this right now due to service issues, but please don't hesitate to try again shortly."

  function FallbackResponse(prompt: string, isImageRequest: bool, pick: nat): (r: string)
    requires pick < 3
    ensures isImageRequest ==> r == Fill(ImageFallback, prompt)
    ensures !isImageRequest ==>
              exists i :: 0 <= i < |TextFallbacks| && r == Fill(TextFallbacks[i], prompt)
    ensures !isImageRequest ==> r != Fill(ImageFallback, prompt)
    ensures Occurs(prompt, r)
  {
    if isImageRequest then Fill(ImageFallback, prompt)
    else
      FallbackTemplatesDistinct(prompt);
      Fill(TextFallbacks[pick], prompt)
  }

  /** The four filled templates are pairwise different: there are exactly three
      text replies, none of which is the image reply. */
  lemma FallbackTemplatesDistinct(prompt: string)
    ensures forall i, j :: 0 <= i < j < |TextFallbacks| ==>
              Fill(TextFallbacks[i], prompt) != Fill(TextFallbacks[j], prompt)
    ensures forall i :: 0 <= i < |TextFallbacks| ==>
              Fill(TextFallbacks[i], prompt) != Fill(ImageFallback, prompt)
  {
    FillStartsWithHead(TextFallbacks[0], prompt, 0);
    FillStartsWithHead(TextFallbacks[0], prompt, 2);
    FillStartsWithHead(TextFallbacks[1], prompt, 0);
    FillStartsWithHead(TextFallbacks[2], prompt, 2);
    FillStartsWithHead(ImageFallback, prompt, 0);
  }

  const RateLimitText := "\U{23F1}\U{FE0F} Rate limit exceeded. Please wait a moment before sending another message."
  const InvalidRequestText := "\U{274C} Invalid request. Please check your message and try again."
  const AuthErrorText := "\U{1F511} API authentication error. Please check your API key configuration."
  const SafetyText := "\U{26A0}\U{FE0F} Your message was flagged by content safety filters. Please try rephrasing your question."
  const NetworkText := "\U{1F310} Network connection error. Please check your internet connection and try again."

  /** The branch of the `catch` cascade an error falls into, in the cascade's order. */
  datatype ErrorKind =
    | Overloaded      // status 503
    | RateLimited     // status 429
    | InvalidRequest  // status 400
    | AuthFailed      // status 401 or 403
    | SafetyBlocked   // message mentions "SAFETY"
    | NetworkFailed   // message mentions "network" or "fetch"
    | Unrecognised    // anything else

  /** The statuses the cascade tests before it looks at the message. */
  predicate HasHandledStatus(e: ApiError) {
    e.status == Some(503) || e.status == Some(429) || e.status == Some(400)
      || e.status == Some(401) || e.status == Some(403)
  }

  /** `error.message?.includes(word)`: false when the message is absent. */
  ghost predicate MessageMentions(e: ApiError, word: string) {
    e.message.Some? && Occurs(word, e.message.value)
  }

  /** The branch an error falls into. The four status tests come first, then the
      message tests, in this order. */
  function ClassifyError(e: ApiError): (k: ErrorKind)
    ensures k == Overloaded <==> e.status == Some(503)
    ensures k == RateLimited <==> e.status == Some(429)
    ensures k == InvalidRequest <==> e.status == Some(400)
    ensures k == AuthFailed <==> e.status == Some(401) || e.status == Some(403)
    ensures k == SafetyBlocked <==> !HasHandledStatus(e) && MessageMentions(e, "SAFETY")
    ensures k == NetworkFailed <==>
              !HasHandledStatus(e) && !MessageMentions(e, "SAFETY")
              && (MessageMentions(e, "network") || MessageMentions(e, "fetch"))
    ensures k == Unrecognised <==>
              !HasHandledStatus(e) && !MessageMentions(e, "SAFETY")
              && !MessageMentions(e, "network") && !MessageMentions(e, "fetch")
  {
    if e.status == Some(503) then Overloaded
    else if e.status == Some(429) then RateLimited
    else if e.status == Some(400) then InvalidRequest
    else if e.status == Some(401) || e.status == Some(403) then AuthFailed
    else if e.message.Some? && Contains(e.message.value, "SAFETY") then SafetyBlocked
    else if e.message.Some? && (Contains(e.message.value, "network") || Contains(e.message.value, "fetch"))
    then NetworkFailed
    else Unrecognised
  }

  /** Status checks take precedence: two errors with the same handled status are
      classified alike whatever their messages say. */
  lemma {:induction false} StatusTakesPrecedence(e1: ApiError, e2: ApiError)
    requires e1.status == e2.status && HasHandledStatus(e1)
    ensures ClassifyError(e1) == ClassifyError(e2)
  {
  }

  /** The assistant text the `catch` block stores for an error. */
  function CatchReply(e: ApiError, content: string, modelType: ModelType, pick: nat): (r: string)
    requires pick < 3
    ensures ClassifyError(e) in {Overloaded, Unrecognised} ==>
              r == FallbackResponse(content, modelType == Image, pick) && Occurs(content, r)
    ensures ClassifyError(e) == RateLimited ==> r == RateLimitText
    ensures ClassifyError(e) == InvalidRequest ==> r == InvalidRequestText
    ensures ClassifyError(e) == AuthFailed ==> r == AuthErrorText
    ensures ClassifyError(e) == SafetyBlocked ==> r == SafetyText
    ensures ClassifyError(e) == NetworkFailed ==> r == NetworkText
  {
    match ClassifyError(e)
    case Overloaded => FallbackResponse(content, modelType == Image, pick)
    case RateLimited => RateLimitText
    case InvalidRequest => InvalidRequestText
    case AuthFailed => AuthErrorText
    case SafetyBlocked => SafetyText
    case NetworkFailed => NetworkText
    case Unrecognised => FallbackResponse(content, modelType == Image, pick)
  }

  const ImagePromptPrefix := "Generate a detailed description for an image based on this request: "

  /** The prompt sent to the model for an image request: the request, after a fixed instruction. */
  function ImagePrompt(content: string): (p: string)
    ensures |p| == |ImagePromptPrefix| + |content|
    ensures p[..|ImagePromptPrefix|] == ImagePromptPrefix && p[|ImagePromptPrefix|..] == content
  {
    ImagePromptPrefix + content
  }

  /** The prompt sent for a request of either kind. */
  function PromptFor(content: string, modelType: ModelType): string {
    if modelType == Text then content else ImagePrompt(content)
  }

  /** The reply stored for an image request once the model has described the image. */
  function ImageReply(description: string): (r: string)
    ensures Occurs(description, r)
  {
    Fill(Template(ImageReplyHead, ImageReplyNote), description)
  }

  const ImageReplyHead := "Image description: "
  const ImageReplyNote := "\n\n[Note: In a full implementation, this would generate an actual image using Gemini's image generation capabilities]"

  const MockEcho := Template(MockEchoHead, MockEchoTail)
  const MockEchoHead := "I'm a demo AI assistant! Your message was: '"
  const MockEchoTail := "'. In a real setup, this would be powered by Google Gemini AI."
  const MockDemoModeText := "Thanks for your message! I'm currently running in demo mode. To get real AI responses, please set up your Google Gemini API key."
  const MockHelpText := "Hello! I'm here to help. This is a mock response - configure your environment variables to enable real AI chat."

  /** The reply made up in development mode, where the model is never called. Only
      the first text reply and the image reply quote the request. */
  function MockReply(content: string, modelType: ModelType, pick: nat): (r: string)
    requires pick < 3
    ensures modelType == Image ==> Occurs(content, r)
    ensures modelType == Text && pick == 0 ==> Occurs(content, r)
  {
    if modelType == Text then
      [Fill(MockEcho, content), MockDemoModeText, MockHelpText][pick]
    else
      OccursBetween(MockImageHead, content, MockImageMiddle + content + MockImageTail);
      MockImageHead + content + (MockImageMiddle + content + MockImageTail)
  }

  const MockImageHead := "Image generation request: \""
  const MockImageMiddle := "\"\n\n\U{1F3A8} In demo mode, I can only describe what the image might look like:\n\nThis would be a creative visual representation of \""
  const MockImageTail := "\" with vibrant colors and artistic details. To enable actual image generation, please configure your Google Gemini API key."

  /** The `try`/`catch` of `sendMessage` outside development mode: the model,
      retried at most three times from a base delay of 1000 ms, its text wrapped
      for an image request, and any error turned into a fixed reply. */
  method ProductionReply(content: string, modelType: ModelType, gemini: (string, nat) -> Outcome, pick: nat)
    returns (aiResponse: string, attempts: nat, waits: seq<int>)
    requires pick < 3
    ensures 1 <= attempts <= DefaultMaxRetries
    ensures forall k :: 1 <= k < attempts ==> gemini(PromptFor(content, modelType), k).Failed?
    ensures waits == Backoff(gemini, PromptFor(content, modelType), DefaultBaseDelay, attempts)
    ensures gemini(PromptFor(content, modelType), attempts).Generated? ==>
              var text := gemini(PromptFor(content, modelType), attempts).text;
              aiResponse == if modelType == Text then text else ImageReply(text)
    ensures gemini(PromptFor(content, modelType), attempts).Failed? ==>
              attempts == DefaultMaxRetries
              && aiResponse == CatchReply(gemini(PromptFor(content, modelType), attempts).error, content, modelType, pick)
  {
    var reply;
    reply, attempts, waits := CallGeminiWithRetry(gemini, PromptFor(content, modelType), DefaultMaxRetries, DefaultBaseDelay);
    match reply
    case Resolved(text) =>
      aiResponse := if modelType == Text then text else ImageReply(text);
    case Rejected(error) =>
      aiResponse := CatchReply(error, content, modelType, pick);
  }

  /** The assistant's text in either mode: a mock reply in development mode,
      where the model is never called, and the production reply otherwise. */
  method GenerateReply(developmentMode: bool, content: string, modelType: ModelType,
                       gemini: (string, nat) -> Outcome, pick: nat)
    returns (aiResponse: string, attempts: nat, waits: seq<int>)
    requires pick < 3
    ensures developmentMode ==> aiResponse == MockReply(content, modelType, pick) && attempts == 0 && waits == []
    ensures !developmentMode ==> 1 <= attempts <= DefaultMaxRetries
    ensures !developmentMode ==> waits == Backoff(gemini, PromptFor(content, modelType), DefaultBaseDelay, attempts)
  {
    if developmentMode {
      return MockReply(content, modelType, pick), 0, [];
    }
    aiResponse, attempts, waits := ProductionReply(content, modelType, gemini, pick);
  }

  /** A text request that meets an overloaded service on all three attempts gets a
      fallback reply after waits of 1000 ms and 2000 ms. */
  method OverloadedThreeTimes(content: string, pick: nat) returns (aiResponse: string, attempts: nat, waits: seq<int>)
    requires pick < 3
    ensures attempts == 3 && waits == [1000, 2000]
    ensures aiResponse == FallbackResponse(content, false, pick)
  {
    var overloaded := (p: string, k: nat) => Failed(ApiError(Some(503), None));
    aiResponse, attempts, waits := ProductionReply(content, Text, overloaded, pick);
    assert attempts == 3 by {
      assert overloaded(PromptFor(content, Text), attempts).Failed?;
    }
    assert ClassifyError(ApiError(Some(503), None)) == Overloaded;
    BackoffAllRetryable(overloaded, content, DefaultBaseDelay, 3);
  }

  /** A text request rate limited on the first attempt and answered on the second
      gets the answer after a single wait of 1000 ms. */
  method RateLimitedOnce(content: string, answer: string, pick: nat)
    returns (aiResponse: string, attempts: nat, waits: seq<int>)
    requires pick < 3
    ensures attempts == 2 && waits == [1000] && aiResponse == answer
  {
    var gemini := (p: string, k: nat) => if k == 1 then Failed(ApiError(Some(429), None)) else Generated(answer);
    aiResponse, attempts, waits := ProductionReply(content, Text, gemini, pick);
    BackoffAllRetryable(gemini, content, DefaultBaseDelay, 2);
  }
}

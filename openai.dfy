/** The OpenAI provider (`OpenAIService`): how a chat-completion request is
    composed from the prompt, the agent's system prompt, its memory and the
    search results, and how the HTTP exchange is turned into a reply or an
    `AIServiceError`. */
module OpenAI {
  import opened Common
  import opened ServiceErrors

  const SystemRole := "system"
  const UserRole := "user"
  const MemoryLabel := "Geçmiş konuşma:\n"
  const SearchLabel := "Web arama sonuçları:\n"

  /** `MessageData`. */
  datatype ChatMessage = ChatMessage(role: string, content: string)

  /** `OpenAIRequest` without its fixed sampling temperature. */
  datatype ChatRequest = ChatRequest(model: string, messages: seq<ChatMessage>)

  /** The decoded body of a response: either it does not decode as an
      `OpenAIResponse` (the decoder's error text is kept), or it is the list
      of choices, each given by its message content. */
  datatype Body = Undecodable(reason: string) | Completion(choices: seq<string>)

  /** What `URLSession.data(for:)` gives back: a thrown transport error, a
      response that is not HTTP, or an HTTP status code with a body. */
  datatype Exchange =
    | TransportFailure(description: string)
    | NonHttpResponse
    | HttpResponse(statusCode: int, body: Body)

  /** The system-prompt message, present whenever a prompt is supplied, even
      an empty one. */
  function SystemPart(systemPrompt: Option<string>): (r: seq<ChatMessage>)
    ensures |r| <= 1 && (|r| == 1 <==> systemPrompt.Some?)
  {
    if systemPrompt.Some? then [ChatMessage(SystemRole, systemPrompt.value)] else []
  }

  /** The memory block, present only for a non-empty memory. */
  function MemoryPart(memory: Option<seq<string>>): (r: seq<ChatMessage>)
    ensures |r| <= 1 && (|r| == 1 <==> memory.Some? && |memory.value| > 0)
  {
    if memory.Some? && |memory.value| > 0 then
      [ChatMessage(SystemRole, MemoryLabel + Join(memory.value, "\n"))]
    else []
  }

  /** The search block, present only for non-empty results. */
  function SearchPart(results: Option<string>): (r: seq<ChatMessage>)
    ensures |r| <= 1 && (|r| == 1 <==> results.Some? && |results.value| > 0)
  {
    if results.Some? && |results.value| > 0 then
      [ChatMessage(SystemRole, SearchLabel + results.value)]
    else []
  }

  /** The message list of a request, in its fixed order: system prompt,
      memory block, search block, user prompt. */
  function Composed(prompt: string, systemPrompt: Option<string>, memory: Option<seq<string>>,
                    results: Option<string>): seq<ChatMessage>
  {
    SystemPart(systemPrompt) + MemoryPart(memory) + SearchPart(results)
      + [ChatMessage(UserRole, prompt)]
  }

  /** One message per supplied part, between one and four in all; the last
      is the user prompt and every earlier one is a system message. */
  lemma ComposedShape(prompt: string, systemPrompt: Option<string>, memory: Option<seq<string>>,
                      results: Option<string>)
    ensures var r := Composed(prompt, systemPrompt, memory, results);
      && |r| == 1 + (if systemPrompt.Some? then 1 else 0)
                  + (if memory.Some? && |memory.value| > 0 then 1 else 0)
                  + (if results.Some? && |results.value| > 0 then 1 else 0)
      && 1 <= |r| <= 4
      && r[|r| - 1] == ChatMessage(UserRole, prompt)
      && (forall i | 0 <= i < |r| - 1 :: r[i].role == SystemRole)
      && (systemPrompt.Some? ==> r[0] == ChatMessage(SystemRole, systemPrompt.value))
  {
    var s, m, w := SystemPart(systemPrompt), MemoryPart(memory), SearchPart(results);
    var r := Composed(prompt, systemPrompt, memory, results);
    assert r == s + m + w + [ChatMessage(UserRole, prompt)];
    forall i | 0 <= i < |r| - 1
      ensures r[i].role == SystemRole
    {
      if i < |s| {
        assert r[i] == s[i];
      } else if i < |s| + |m| {
        assert r[i] == m[i - |s|];
      } else {
        assert r[i] == w[i - |s| - |m|];
      }
    }
  }

  /** An empty memory and an empty search result add nothing: the request is
      the one built without them. */
  lemma EmptyBlocksAddNothing(prompt: string, systemPrompt: Option<string>)
    ensures Composed(prompt, systemPrompt, Some([]), Some("")) == Composed(prompt, systemPrompt, None, None)
  {
  }

  /** A full request: system prompt "S", memory ["a", "b"], search results
      "C" and user prompt "P". */
  lemma ComposedExample()
    ensures Composed("P", Some("S"), Some(["a", "b"]), Some("C")) == [
      ChatMessage("system", "S"),
      ChatMessage("system", "Geçmiş konuşma:\na\nb"),
      ChatMessage("system", "Web arama sonuçları:\nC"),
      ChatMessage("user", "P")]
  {
    assert Join(["a", "b"], "\n") == "a\nb" by {
      assert ["a", "b"][1..] == ["b"];
    }
    assert MemoryLabel + "a\nb" == "Geçmiş konuşma:\na\nb";
    assert SearchLabel + "C" == "Web arama sonuçları:\nC";
  }

  /** The status switch: `None` lets a 2xx response through, every other
      code is an error. */
  function StatusError(code: int): (r: Option<ServiceError>)
    ensures r.None? <==> 200 <= code <= 299
    ensures r == Some(InvalidAPIKey) <==> code == 401
    ensures r == Some(QuotaExceeded) <==> code == 429
    ensures r == Some(ServiceUnavailable) <==> !(200 <= code <= 299) && code != 401 && code != 429
  {
    if 200 <= code <= 299 then None
    else if code == 401 then Some(InvalidAPIKey)
    else if code == 429 then Some(QuotaExceeded)
    else Some(ServiceUnavailable)
  }

  /** Reading the reply from a 2xx body. Both failures happen inside the
      `do` block whose `catch` wraps whatever is thrown in `unknown`, the
      missing first choice included. */
  function FirstChoice(body: Body): Result<string, Thrown> {
    match body
    case Undecodable(reason) => Failure(Service(Unknown(Some(Foreign(reason)))))
    case Completion(choices) =>
      if |choices| == 0 then Failure(Service(Unknown(Some(Service(ServiceUnavailable)))))
      else Success(choices[0])
  }

  /** What the call yields once the request is sent. A transport error is
      rethrown as it is, not wrapped in `networkError`. */
  function Answer(exchange: Exchange): Result<string, Thrown> {
    match exchange
    case TransportFailure(d) => Failure(Foreign(d))
    case NonHttpResponse => Failure(Service(ServiceUnavailable))
    case HttpResponse(code, body) =>
      match StatusError(code)
      case Some(e) => Failure(Service(e))
      case None => FirstChoice(body)
  }

  /** A reply comes back exactly for a 2xx response whose body decodes and
      holds a choice, and it is the first choice's content. */
  lemma AnswerSucceeds(exchange: Exchange)
    ensures Answer(exchange).Success? <==>
      exchange.HttpResponse? && 200 <= exchange.statusCode <= 299
      && exchange.body.Completion? && |exchange.body.choices| > 0
    ensures Answer(exchange).Success? ==> Answer(exchange).value == exchange.body.choices[0]
  {
  }

  /** A 2xx response whose body does not decode, or holds no choices, is
      reported as an unknown error wrapping what went wrong, never as the
      unavailability itself. */
  lemma UnreadableBodyIsUnknown(code: int, reason: string)
    requires 200 <= code <= 299
    ensures Answer(HttpResponse(code, Undecodable(reason))) == Failure(Service(Unknown(Some(Foreign(reason)))))
    ensures Answer(HttpResponse(code, Completion([]))) ==
      Failure(Service(Unknown(Some(Service(ServiceUnavailable)))))
    ensures LocalizedDescription(Answer(HttpResponse(code, Completion([]))).error) ==
      UnknownPrefix + ServiceUnavailableText
  {
  }

  /** The provider never reports `networkError`: transport errors reach the
      caller unwrapped. */
  lemma NeverNetworkError(exchange: Exchange)
    ensures Answer(exchange).Failure? && Answer(exchange).error.Service? ==>
      !Answer(exchange).error.error.NetworkError?
    ensures exchange.TransportFailure? ==> Answer(exchange) == Failure(Foreign(exchange.description))
  {
  }

  /** The provider object: an API key and a model, both fixed when it is
      built. */
  datatype OpenAIService = OpenAIService(apiKey: string, model: string)
  {
    /** `generateResponse`: refuse an empty key before building anything;
        otherwise compose the messages one `append` at a time, send the
        request and read the exchange. `sent` is the request that went out,
        if any. */
    method GenerateResponse(prompt: string, systemPrompt: Option<string>, memory: Option<seq<string>>,
                            webSearchResults: Option<string>, exchange: Exchange)
      returns (r: Result<string, Thrown>, sent: Option<ChatRequest>)
      ensures apiKey == "" ==> r == Failure(Service(InvalidAPIKey)) && sent == None
      ensures apiKey != "" ==>
        && sent == Some(ChatRequest(model, Composed(prompt, systemPrompt, memory, webSearchResults)))
        && r == Answer(exchange)
    {
      if apiKey == "" {
        return Failure(Service(InvalidAPIKey)), None;
      }
      var messages: seq<ChatMessage> := [];
      if systemPrompt.Some? {
        messages := messages + [ChatMessage(SystemRole, systemPrompt.value)];
      }
      assert messages == SystemPart(systemPrompt);
      if memory.Some? && |memory.value| > 0 {
        var memoryText := Join(memory.value, "\n");
        messages := messages + [ChatMessage(SystemRole, MemoryLabel + memoryText)];
      }
      assert messages == SystemPart(systemPrompt) + MemoryPart(memory);
      if webSearchResults.Some? && |webSearchResults.value| > 0 {
        messages := messages + [ChatMessage(SystemRole, SearchLabel + webSearchResults.value)];
      }
      assert messages == SystemPart(systemPrompt) + MemoryPart(memory) + SearchPart(webSearchResults);
      messages := messages + [ChatMessage(UserRole, prompt)];
      sent := Some(ChatRequest(model, messages));
      match exchange
      case TransportFailure(d) =>
        r := Failure(Foreign(d));
      case NonHttpResponse =>
        r := Failure(Service(ServiceUnavailable));
      case HttpResponse(code, body) =>
        if 200 <= code <= 299 {
          match body
          case Undecodable(reason) =>
            r := Failure(Service(Unknown(Some(Foreign(reason)))));
          case Completion(choices) =>
            if |choices| == 0 {
              r := Failure(Service(Unknown(Some(Service(ServiceUnavailable)))));
            } else {
              r := Success(choices[0]);
            }
        } else if code == 401 {
          r := Failure(Service(InvalidAPIKey));
        } else if code == 429 {
          r := Failure(Service(QuotaExceeded));
        } else {
          r := Failure(Service(ServiceUnavailable));
        }
    }
  }
}

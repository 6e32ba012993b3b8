/** The turn controller (`ChatViewModel`): it takes the user's input, records
    it in the conversation and, when enabled, in the agent's memory, asks
    the selected provider for a reply, and shows the reply or the error. */
module Chat {
  import opened Common
  import opened ServiceErrors
  import opened Profiles
  import opened ApiKeys
  import opened Agents
  import opened Memory
  import opened WebSearch
  import opened OpenAI

  const NotConfiguredText := "AI servisi ayarlanmamış"
  const UserPrefix := "Kullanıcı: "
  const AssistantPrefix := "AI: "
  const OpenAIServiceName := "OpenAI"
  const OpenRouterServiceName := "OpenRouter"

  /** A chat bubble (its id and timestamp are not modelled). */
  datatype Message = Message(text: string, isUser: bool)

  /** The provider behind the `AIService` protocol. The OpenRouter client is
      known only by its key and model. */
  datatype Provider =
    | OpenAIProvider(service: OpenAIService)
    | OpenRouterProvider(apiKey: string, model: string)

  /** The arguments of one `generateResponse` call. */
  datatype ProviderRequest = ProviderRequest(
    prompt: string,
    systemPrompt: Option<string>,
    memory: Option<seq<string>>,
    webSearchResults: Option<string>)

  /** The published state of the view model. */
  datatype Screen = Screen(
    messages: seq<Message>,
    inputText: string,
    isLoading: bool,
    errorMessage: Option<string>)

  /** What a turn leaves behind: the screen, the memory directory, and the
      provider call it made, if any. */
  datatype Turn = Turn(screen: Screen, directory: Directory, call: Option<ProviderRequest>)

  /** `updateAIService`: a known service with a stored key gets a fresh
      client for the agent's model; a known service without a key keeps
      whatever client there was; any other service gets none. Without an
      agent nothing changes. */
  function SelectedProvider(agent: Option<AgentProfile>, keys: map<string, string>,
                            current: Option<Provider>): Option<Provider>
  {
    if agent.None? then current
    else
      var a := agent.value;
      if a.service == OpenAIServiceName then
        if a.service in keys then Some(OpenAIProvider(OpenAIService(keys[a.service], a.model)))
        else current
      else if a.service == OpenRouterServiceName then
        if a.service in keys then Some(OpenRouterProvider(keys[a.service], a.model))
        else current
      else None
  }

  /** The three outcomes of a provider selection. */
  lemma SelectedProviderCases(a: AgentProfile, keys: map<string, string>, current: Option<Provider>)
    ensures var r := SelectedProvider(Some(a), keys, current);
      && (a.service != OpenAIServiceName && a.service != OpenRouterServiceName ==> r == None)
      && ((a.service == OpenAIServiceName || a.service == OpenRouterServiceName) && a.service !in keys
          ==> r == current)
      && (a.service == OpenAIServiceName && a.service in keys ==>
          r.Some? && r.value.OpenAIProvider?
          && r.value.service.apiKey == keys[a.service] && r.value.service.model == a.model)
      && (a.service == OpenRouterServiceName && a.service in keys ==>
          r == Some(OpenRouterProvider(keys[a.service], a.model)))
  {
  }

  /** Switching to an agent whose service has no stored key keeps the
      previous agent's client, which may belong to another service and
      model. */
  lemma StaleProviderKept(a: AgentProfile, keys: map<string, string>, previous: Provider)
    requires a.service == OpenAIServiceName && a.service !in keys
    ensures SelectedProvider(Some(a), keys, Some(previous)) == Some(previous)
  {
  }

  /** What the provider call yields. The OpenAI client answers from the HTTP
      exchange; the OpenRouter client's answer is taken as given. */
  function ProviderOutcome(provider: Provider, exchange: Exchange,
                           openRouterOutcome: Result<string, Thrown>): Result<string, Thrown>
  {
    match provider
    case OpenAIProvider(s) => if s.apiKey == "" then Failure(Service(InvalidAPIKey)) else Answer(exchange)
    case OpenRouterProvider(_, _) => openRouterOutcome
  }

  /** `addToMemory` when the agent has memory switched on. */
  function Remembered(dir: Directory, agent: AgentProfile, line: string): Directory {
    if agent.isMemoryEnabled then Added(dir, agent.id, line) else dir
  }

  /** The arguments passed to the provider: the memory as it is read at call
      time, and the search results when search is on, the message triggers
      it and the search succeeded. */
  function RequestFor(dir: Directory, input: string, agent: AgentProfile, keywords: seq<string>,
                      searchOutcome: Option<string>): ProviderRequest
  {
    ProviderRequest(
      input,
      Some(agent.systemPrompt),
      if agent.isMemoryEnabled then Some(Load(dir, agent.id)) else None,
      if agent.isWebSearchEnabled && Triggers(keywords, input) then searchOutcome else None)
  }

  /** The screen once the provider has answered: the reply is shown, or
      the error's description is. */
  function Delivered(s: Screen, outcome: Result<string, Thrown>): Screen {
    match outcome
    case Success(reply) =>
      s.(messages := s.messages + [Message(reply, false)], isLoading := false)
    case Failure(e) =>
      s.(isLoading := false, errorMessage := Some(LocalizedDescription(e)))
  }

  /** The memory once the provider has answered: only a reply is
      remembered. */
  function RememberedReply(dir: Directory, agent: AgentProfile, outcome: Result<string, Thrown>): Directory {
    if outcome.Success? then Remembered(dir, agent, AssistantPrefix + outcome.value) else dir
  }

  /** `generateAIResponse(for:)` as a whole. */
  function Responded(s: Screen, dir: Directory, input: string, agent: Option<AgentProfile>,
                     provider: Option<Provider>, keywords: seq<string>, searchOutcome: Option<string>,
                     exchange: Exchange, openRouterOutcome: Result<string, Thrown>): Turn
  {
    if agent.None? || provider.None? then
      Turn(s.(errorMessage := Some(NotConfiguredText)), dir, None)
    else
      var outcome := ProviderOutcome(provider.value, exchange, openRouterOutcome);
      Turn(Delivered(s.(isLoading := true, errorMessage := None), outcome), RememberedReply(dir, agent.value, outcome),
           Some(RequestFor(dir, input, agent.value, keywords, searchOutcome)))
  }

  /** `sendMessage` as a whole: nothing happens for blank input; otherwise
      the user's message is shown, the input cleared, the user line
      remembered, and the reply requested. */
  function Sent(s: Screen, dir: Directory, agent: Option<AgentProfile>, provider: Option<Provider>,
                keywords: seq<string>, searchOutcome: Option<string>, exchange: Exchange,
                openRouterOutcome: Result<string, Thrown>): Turn
  {
    if Trim(s.inputText) == [] then Turn(s, dir, None)
    else
      var input := s.inputText;
      var shown := s.(messages := s.messages + [Message(input, true)], inputText := "");
      Responded(shown, UserLineRemembered(dir, agent, input), input, agent, provider, keywords,
                searchOutcome, exchange, openRouterOutcome)
  }

  /** The user's line, remembered for the current agent if there is one. */
  function UserLineRemembered(dir: Directory, agent: Option<AgentProfile>, input: string): Directory {
    if agent.Some? then Remembered(dir, agent.value, UserPrefix + input) else dir
  }

  /** A non-blank turn, for any agent and client, is the reply step run
      after the user's message and line are recorded. */
  lemma SentNonBlank(s: Screen, dir: Directory, agent: Option<AgentProfile>, provider: Option<Provider>,
                     keywords: seq<string>, searchOutcome: Option<string>, exchange: Exchange,
                     openRouterOutcome: Result<string, Thrown>)
    requires Trim(s.inputText) != []
    ensures Sent(s, dir, agent, provider, keywords, searchOutcome, exchange, openRouterOutcome) ==
      Responded(s.(messages := s.messages + [Message(s.inputText, true)], inputText := ""),
                UserLineRemembered(dir, agent, s.inputText), s.inputText, agent, provider,
                keywords, searchOutcome, exchange, openRouterOutcome)
  {
  }

  /** Blank input (nothing but white space) is exactly the input for which a
      turn changes nothing and calls no provider. */
  lemma BlankInputIgnored(s: Screen, dir: Directory, agent: Option<AgentProfile>, provider: Option<Provider>,
                          keywords: seq<string>, searchOutcome: Option<string>, exchange: Exchange,
                          openRouterOutcome: Result<string, Thrown>)
    ensures IsBlank(s.inputText) <==>
      Sent(s, dir, agent, provider, keywords, searchOutcome, exchange, openRouterOutcome) == Turn(s, dir, None)
  {
    TrimEmptyIffBlank(s.inputText);
    var t := Sent(s, dir, agent, provider, keywords, searchOutcome, exchange, openRouterOutcome);
    if !IsBlank(s.inputText) {
      assert |t.screen.messages| > |s.messages|;
    }
  }

  /** A non-blank turn shows the user's message exactly once, right after
      the earlier messages, clears the input, and adds at most one more
      message, which is the provider's and never the user's. */
  lemma UserMessageShown(s: Screen, dir: Directory, agent: Option<AgentProfile>, provider: Option<Provider>,
                         keywords: seq<string>, searchOutcome: Option<string>, exchange: Exchange,
                         openRouterOutcome: Result<string, Thrown>)
    requires !IsBlank(s.inputText)
    ensures var t := Sent(s, dir, agent, provider, keywords, searchOutcome, exchange, openRouterOutcome);
      && t.screen.inputText == ""
      && |s.messages| + 1 <= |t.screen.messages| <= |s.messages| + 2
      && t.screen.messages[..|s.messages| + 1] == s.messages + [Message(s.inputText, true)]
      && (forall i | |s.messages| < i < |t.screen.messages| :: !t.screen.messages[i].isUser)
  {
    TrimEmptyIffBlank(s.inputText);
    var t := Sent(s, dir, agent, provider, keywords, searchOutcome, exchange, openRouterOutcome);
    var shown := s.messages + [Message(s.inputText, true)];
    assert t.screen.messages == shown || exists reply :: t.screen.messages == shown + [Message(reply, false)];
    if t.screen.messages != shown {
      var reply :| t.screen.messages == shown + [Message(reply, false)];
      assert t.screen.messages[..|shown|] == shown;
    }
  }

  /** Without an agent or a client, the turn reports that no service is
      set up, keeps the user's message, leaves the loading flag alone and
      calls nothing. */
  lemma NotConfiguredTurn(s: Screen, dir: Directory, agent: Option<AgentProfile>, provider: Option<Provider>,
                          keywords: seq<string>, searchOutcome: Option<string>, exchange: Exchange,
                          openRouterOutcome: Result<string, Thrown>)
    requires !IsBlank(s.inputText) && (agent.None? || provider.None?)
    ensures var t := Sent(s, dir, agent, provider, keywords, searchOutcome, exchange, openRouterOutcome);
      && t.call == None
      && t.screen.errorMessage == Some(NotConfiguredText)
      && t.screen.isLoading == s.isLoading
      && t.screen.messages == s.messages + [Message(s.inputText, true)]
  {
    TrimEmptyIffBlank(s.inputText);
  }

  /** A non-blank turn is the reply step run on the screen showing the
      user's message and on the memory holding the user's line. */
  lemma NonBlankTurn(s: Screen, dir: Directory, a: AgentProfile, p: Provider,
                     keywords: seq<string>, searchOutcome: Option<string>, exchange: Exchange,
                     openRouterOutcome: Result<string, Thrown>)
    requires !IsBlank(s.inputText)
    ensures Sent(s, dir, Some(a), Some(p), keywords, searchOutcome, exchange, openRouterOutcome) ==
      Responded(s.(messages := s.messages + [Message(s.inputText, true)], inputText := ""),
                Remembered(dir, a, UserPrefix + s.inputText), s.inputText, Some(a), Some(p),
                keywords, searchOutcome, exchange, openRouterOutcome)
  {
    TrimEmptyIffBlank(s.inputText);
  }

  /** With memory on, the memory handed to the provider already ends with
      the user's line, and that line is still the last one remembered when
      the call fails. */
  lemma UserLineRememberedFirst(s: Screen, dir: Directory, a: AgentProfile, p: Provider,
                                keywords: seq<string>, searchOutcome: Option<string>, exchange: Exchange,
                                openRouterOutcome: Result<string, Thrown>)
    requires !IsBlank(s.inputText) && a.isMemoryEnabled
    ensures var t := Sent(s, dir, Some(a), Some(p), keywords, searchOutcome, exchange, openRouterOutcome);
      && t.call.Some? && t.call.value.memory.Some?
      && var m := t.call.value.memory.value;
      && 0 < |m| <= MemoryCap && m[|m| - 1] == UserPrefix + s.inputText
      && (ProviderOutcome(p, exchange, openRouterOutcome).Failure? ==>
            Load(t.directory, a.id) == m)
  {
    NonBlankTurn(s, dir, a, p, keywords, searchOutcome, exchange, openRouterOutcome);
    var dir1 := Added(dir, a.id, UserPrefix + s.inputText);
    assert Remembered(dir, a, UserPrefix + s.inputText) == dir1;
    AddThenLoad(dir, a.id, UserPrefix + s.inputText);
    var t := Sent(s, dir, Some(a), Some(p), keywords, searchOutcome, exchange, openRouterOutcome);
    assert t.call == Some(RequestFor(dir1, s.inputText, a, keywords, searchOutcome));
  }

  /** A successful turn shows exactly the reply after the user's message,
      clears the error and the loading flag, and with memory on leaves the
      user line followed by the reply line at the end of the record. */
  lemma SuccessfulTurn(s: Screen, dir: Directory, a: AgentProfile, p: Provider,
                       keywords: seq<string>, searchOutcome: Option<string>, exchange: Exchange,
                       openRouterOutcome: Result<string, Thrown>)
    requires !IsBlank(s.inputText) && ProviderOutcome(p, exchange, openRouterOutcome).Success?
    ensures var reply := ProviderOutcome(p, exchange, openRouterOutcome).value;
      var t := Sent(s, dir, Some(a), Some(p), keywords, searchOutcome, exchange, openRouterOutcome);
      && t.screen.messages == s.messages + [Message(s.inputText, true), Message(reply, false)]
      && !t.screen.isLoading && t.screen.errorMessage == None
      && (a.isMemoryEnabled ==>
            var m := Load(t.directory, a.id);
            |m| >= 2 && m[|m| - 2..] == [UserPrefix + s.inputText, AssistantPrefix + reply])
      && (!a.isMemoryEnabled ==> t.directory == dir)
  {
    NonBlankTurn(s, dir, a, p, keywords, searchOutcome, exchange, openRouterOutcome);
    var reply := ProviderOutcome(p, exchange, openRouterOutcome).value;
    var user, assistant := UserPrefix + s.inputText, AssistantPrefix + reply;
    var t := Sent(s, dir, Some(a), Some(p), keywords, searchOutcome, exchange, openRouterOutcome);
    assert t.directory == Remembered(Remembered(dir, a, user), a, assistant);
    assert t.screen.messages == s.messages + [Message(s.inputText, true)] + [Message(reply, false)];
    if a.isMemoryEnabled {
      AddedTwiceEndsWithBoth(dir, a.id, user, assistant);
    }
  }

  /** A failed turn shows the error's description, clears the loading flag,
      adds no reply and remembers no reply line. */
  lemma FailedTurn(s: Screen, dir: Directory, a: AgentProfile, p: Provider,
                   keywords: seq<string>, searchOutcome: Option<string>, exchange: Exchange,
                   openRouterOutcome: Result<string, Thrown>)
    requires !IsBlank(s.inputText) && ProviderOutcome(p, exchange, openRouterOutcome).Failure?
    ensures var e := ProviderOutcome(p, exchange, openRouterOutcome).error;
      var t := Sent(s, dir, Some(a), Some(p), keywords, searchOutcome, exchange, openRouterOutcome);
      && t.screen.messages == s.messages + [Message(s.inputText, true)]
      && !t.screen.isLoading
      && t.screen.errorMessage == Some(LocalizedDescription(e))
      && t.directory == Remembered(dir, a, UserPrefix + s.inputText)
  {
    TrimEmptyIffBlank(s.inputText);
  }

  /** Search results reach the provider only when search is on for the
      agent and the message triggers it; a failed search just leaves them
      out, and the call is made all the same. */
  lemma SearchOnlyWhenTriggered(s: Screen, dir: Directory, a: AgentProfile, p: Provider,
                                keywords: seq<string>, searchOutcome: Option<string>, exchange: Exchange,
                                openRouterOutcome: Result<string, Thrown>)
    requires !IsBlank(s.inputText)
    ensures var t := Sent(s, dir, Some(a), Some(p), keywords, searchOutcome, exchange, openRouterOutcome);
      && t.call.Some? && t.call.value.prompt == s.inputText
      && (t.call.value.webSearchResults.Some? ==>
            a.isWebSearchEnabled && Triggers(keywords, s.inputText) && searchOutcome.Some?)
      && (a.isWebSearchEnabled && Triggers(keywords, s.inputText) ==>
            t.call.value.webSearchResults == searchOutcome)
  {
    TrimEmptyIffBlank(s.inputText);
  }

  /** `aiService.generateResponse(...)` on the selected client. */
  method CallProvider(provider: Provider, request: ProviderRequest, exchange: Exchange,
                      openRouterOutcome: Result<string, Thrown>)
    returns (outcome: Result<string, Thrown>)
    ensures outcome == ProviderOutcome(provider, exchange, openRouterOutcome)
  {
    match provider {
      case OpenAIProvider(client) =>
        var sent;
        outcome, sent := client.GenerateResponse(request.prompt, request.systemPrompt, request.memory,
                                                 request.webSearchResults, exchange);
      case OpenRouterProvider(_, _) =>
        outcome := openRouterOutcome;
    }
  }

  class ChatViewModel {
    var messages: seq<Message>
    var inputText: string
    var isLoading: bool
    var errorMessage: Option<string>
    var currentAgent: Option<AgentProfile>
    var aiService: Option<Provider>

    /** The shared services. */
    const memory: MemoryService
    const keys: APIKeyManager
    const search: WebSearchService
    const agents: AgentManager

    /** `init`: take the current profile, or create, save and select the
        default one (with the fresh id and clock reading supplied), then
        pick the client for it. */
    constructor (memory: MemoryService, keys: APIKeyManager, search: WebSearchService,
                 agents: AgentManager, freshId: Uuid, now: Timestamp)
      modifies agents
      ensures this.memory == memory && this.keys == keys && this.search == search && this.agents == agents
      ensures messages == [] && inputText == "" && !isLoading && errorMessage == None
      ensures currentAgent ==
        if old(agents.GetCurrentProfile()).Some? then old(agents.GetCurrentProfile())
        else Some(NewProfile(freshId, DefaultName, DefaultService, DefaultModel, now, DefaultPrompt))
      ensures aiService == SelectedProvider(currentAgent, keys.GetAPIKeys(), None)
      ensures old(agents.GetCurrentProfile()).Some? ==>
        agents.profilesSlot == old(agents.profilesSlot) && agents.currentIdSlot == old(agents.currentIdSlot)
      ensures old(agents.GetCurrentProfile()).None? ==>
        && currentAgent.Some?
        && agents.GetProfiles() == Upserted(old(agents.GetProfiles()), currentAgent.value)
        && agents.GetCurrentProfile() == currentAgent
    {
      this.memory := memory;
      this.keys := keys;
      this.search := search;
      this.agents := agents;
      messages := [];
      inputText := "";
      isLoading := false;
      errorMessage := None;
      aiService := None;
      var current := agents.GetCurrentProfile();
      if current.None? {
        var created := agents.CreateDefaultProfile(freshId, now);
        current := Some(created);
      }
      currentAgent := current;
      new;
      UpdateAIService();
    }

    /** `updateAIService`. */
    method UpdateAIService()
      modifies this
      ensures aiService == SelectedProvider(old(currentAgent), keys.GetAPIKeys(), old(aiService))
      ensures messages == old(messages) && inputText == old(inputText) && isLoading == old(isLoading)
      ensures errorMessage == old(errorMessage) && currentAgent == old(currentAgent)
    {
      if currentAgent.None? {
        return;
      }
      var agent := currentAgent.value;
      var apiKey := keys.GetAPIKey(agent.service);
      if agent.service == OpenAIServiceName {
        if apiKey.Some? {
          aiService := Some(OpenAIProvider(OpenAIService(apiKey.value, agent.model)));
        }
      } else if agent.service == OpenRouterServiceName {
        if apiKey.Some? {
          aiService := Some(OpenRouterProvider(apiKey.value, agent.model));
        }
      } else {
        aiService := None;
      }
    }

    /** `sendMessage`. The search result (`None` when the search fails), the
        HTTP exchange of the OpenAI client and the OpenRouter client's answer
        are the outcomes of the turn's I/O; `call` is the provider call the
        turn made. */
    method SendMessage(searchOutcome: Option<string>, exchange: Exchange,
                       openRouterOutcome: Result<string, Thrown>)
      returns (call: Option<ProviderRequest>)
      modifies this, memory
      ensures currentAgent == old(currentAgent) && aiService == old(aiService)
      ensures Turn(Screen(messages, inputText, isLoading, errorMessage), memory.directory, call) ==
        Sent(old(Screen(messages, inputText, isLoading, errorMessage)), old(memory.directory),
             currentAgent, aiService, search.searchKeywords, searchOutcome, exchange, openRouterOutcome)
    {
      if Trim(inputText) == [] {
        return None;
      }
      SentNonBlank(Screen(messages, inputText, isLoading, errorMessage), memory.directory, currentAgent,
                   aiService, search.searchKeywords, searchOutcome, exchange, openRouterOutcome);
      var userMessage := Message(inputText, true);
      messages := messages + [userMessage];
      var userInput := inputText;
      inputText := "";
      RememberUserLine(userInput);
      call := GenerateAIResponse(userInput, searchOutcome, exchange, openRouterOutcome);
    }

    /** Line 53 of the turn: with memory on, remember what the user said. */
    method RememberUserLine(userInput: string)
      modifies memory
      ensures memory.directory == UserLineRemembered(old(memory.directory), currentAgent, userInput)
    {
      if currentAgent.Some? && currentAgent.value.isMemoryEnabled {
        memory.AddToMemory(currentAgent.value.id, UserPrefix + userInput);
      }
    }

    /** `generateAIResponse(for:)`, run to completion: the asynchronous task
        and the hop back to the main actor happen within the turn. */
    method GenerateAIResponse(userInput: string, searchOutcome: Option<string>, exchange: Exchange,
                              openRouterOutcome: Result<string, Thrown>)
      returns (call: Option<ProviderRequest>)
      modifies this, memory
      ensures currentAgent == old(currentAgent) && aiService == old(aiService)
      ensures Turn(Screen(messages, inputText, isLoading, errorMessage), memory.directory, call) ==
        Responded(old(Screen(messages, inputText, isLoading, errorMessage)), old(memory.directory),
                  userInput, currentAgent, aiService, search.searchKeywords, searchOutcome, exchange,
                  openRouterOutcome)
    {
      if currentAgent.None? || aiService.None? {
        ShowError(NotConfiguredText);
        return None;
      }
      var agent := currentAgent.value;
      var service := aiService.value;
      isLoading := true;
      errorMessage := None;
      var request := PrepareRequest(agent, userInput, searchOutcome);
      call := Some(request);
      var outcome := CallProvider(service, request, exchange, openRouterOutcome);
      Deliver(agent, outcome);
    }

    /** Read the memory and run the search, as the task does before the
        provider call. */
    method PrepareRequest(agent: AgentProfile, userInput: string, searchOutcome: Option<string>)
      returns (request: ProviderRequest)
      ensures request == RequestFor(memory.directory, userInput, agent, search.searchKeywords, searchOutcome)
    {
      var remembered: Option<seq<string>> := None;
      if agent.isMemoryEnabled {
        var loaded := memory.LoadMemory(agent.id);
        remembered := Some(loaded);
      }
      var webSearchResults: Option<string> := None;
      if agent.isWebSearchEnabled {
        var triggered := search.ShouldTriggerSearch(userInput);
        if triggered {
          webSearchResults := searchOutcome;
        }
      }
      request := ProviderRequest(userInput, Some(agent.systemPrompt), remembered, webSearchResults);
    }

    /** Record the provider's answer: remember and show a reply, or show
        the error. */
    method Deliver(agent: AgentProfile, outcome: Result<string, Thrown>)
      modifies this, memory
      ensures Screen(messages, inputText, isLoading, errorMessage) ==
        Delivered(old(Screen(messages, inputText, isLoading, errorMessage)), outcome)
      ensures memory.directory == RememberedReply(old(memory.directory), agent, outcome)
      ensures currentAgent == old(currentAgent) && aiService == old(aiService)
    {
      match outcome {
        case Success(response) =>
          if agent.isMemoryEnabled {
            memory.AddToMemory(agent.id, AssistantPrefix + response);
          }
          messages := messages + [Message(response, false)];
          isLoading := false;
        case Failure(e) =>
          ShowError(LocalizedDescription(e));
          isLoading := false;
      }
    }

    /** `showError`: the error is shown; its dismissal three seconds later
        is not modelled. */
    method ShowError(message: string)
      modifies this
      ensures errorMessage == Some(message)
      ensures messages == old(messages) && inputText == old(inputText) && isLoading == old(isLoading)
      ensures currentAgent == old(currentAgent) && aiService == old(aiService)
    {
      errorMessage := Some(message);
    }

    /** `clearMemory`: forget the current agent's memory. */
    method ClearMemory()
      modifies memory
      ensures memory.directory ==
        if currentAgent.Some? then Cleared(old(memory.directory), currentAgent.value.id)
        else old(memory.directory)
    {
      if currentAgent.None? {
        return;
      }
      memory.ClearMemory(currentAgent.value.id);
    }

    /** `updateAgent`: switch to the profile and pick its client. */
    method UpdateAgent(agent: AgentProfile)
      modifies this
      ensures currentAgent == Some(agent)
      ensures aiService == SelectedProvider(Some(agent), keys.GetAPIKeys(), old(aiService))
      ensures messages == old(messages) && inputText == old(inputText)
      ensures isLoading == old(isLoading) && errorMessage == old(errorMessage)
    {
      currentAgent := Some(agent);
      UpdateAIService();
    }
  }
}

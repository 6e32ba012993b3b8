# AIChatApp message-turn pipeline in Dafny

This project models the core of AIChatApp, a SwiftUI chat client.
Each user message goes through one turn of `ChatViewModel`:

- blank input is ignored;
- the user's message is shown and the input cleared;
- the user's line is written to the agent's memory, if memory is on;
- the memory is read back and a web search is run, if search is on and the message triggers it;
- the selected provider is called;
- the reply is shown and remembered, or the error's description is shown.

The stores the turn depends on are modelled too:

- `MemoryService`: one JSON record per agent, capped at 50 lines;
- `WebSearchService`: the keyword list and the search trigger;
- `AgentManager`: the profile list and the current-profile pointer;
- `APIKeyManager`: the service-to-key dictionary;
- the `AgentProfile` record;
- `OpenAIService`: request composition and HTTP status mapping;
- `AIServiceError`: the error cases and their Turkish descriptions.

Modules, one file each:

- `Common`: Option/Result, UUID text, whitespace trimming, ASCII lowercasing, substring search, joining.
- `ServiceErrors`: `AIServiceError` and `errorDescription`.
- `Profiles`: `AgentProfile`, its initializer and `update`.
- `ApiKeys`: class `APIKeyManager` over the "APIKeys" defaults entry.
- `Agents`: class `AgentManager` over the "AgentProfiles" and "CurrentProfileID" entries.
- `Memory`: the memory directory as a map from file name to decoded record, and class `MemoryService`.
- `WebSearch`: class `WebSearchService` over the static keyword list.
- `OpenAI`: the request composition, the status switch and `generateResponse`.
- `Chat`: class `ChatViewModel`, and the turn as a function `Sent` with its properties.

The stateful services are classes whose methods change their fields.
Each method's postcondition ties the new state to a function of the old state:

- `Added` and `Cleared` for the memory directory;
- `Upserted` and `WithoutId` for the profile list;
- `AddedKeyword` and `RemovedKeyword` for the keyword list;
- `Sent` and `Responded` for a whole turn.

The properties are lemmas about those functions.

The turn's I/O is passed in as arguments:

- the search outcome (`None` when the search fails);
- the HTTP exchange (a transport error, a non-HTTP response, or a status code with a body that either fails to decode or holds a list of choices);
- the OpenRouter client's answer.

The fresh `UUID()` and the clock reading of `createDefaultProfile` are also arguments.

In several places the code behaves differently from what a reader of the app might expect; the model follows the code:

- The user's memory line is written before the provider is called (`ChatViewModel.swift:53`), not after a successful reply. With memory on, a failed turn therefore still leaves the user line in memory. A 401 therefore does change memory.
- `sendMessage` has no guard on `isLoading`.
- A profile whose service is "OpenAI" or "OpenRouter" but has no stored key keeps the previous client, possibly one for another service. Only an unknown service name clears the client.
- A transport error from `URLSession` reaches the user unwrapped, under its own description. `networkError` is never produced.
- A 2xx body that does not decode, or that has no choices, is reported as `unknown(…)`, because the `catch` at `OpenAIService.swift:85` wraps it. It is not reported as `serviceUnavailable`.
- The agent's system prompt is always passed, so an empty prompt still yields an empty system message.

## Model

| member | source | states |
|---|---|---|
| Common.ParseUuid | AIChatApp/Services/AgentManager.swift:46-47 | `UUID(uuidString:)` succeeds exactly on 36-character hyphenated hex text, and the id is that text upper-cased |
| Common.ParseUuidString | AIChatApp/Services/AgentManager.swift:41-51 | the `uuidString` that `setCurrentProfile` stores parses back to the same id |
| Common.TrimEmptyIffBlank | AIChatApp/ViewModels/ChatViewModel.swift:43 | trimming whitespace and newlines leaves nothing exactly when every character is white space |
| Common.ContainsSingle | AIChatApp/Services/WebSearchService.swift:30 | `contains("?")` holds exactly when '?' occurs in the message |
| Common.Lower | AIChatApp/Services/WebSearchService.swift:20-24 | lowercasing keeps the length and maps each character on its own |
| ServiceErrors.ErrorDescription | AIChatApp/Services/AIService.swift:14-27 | every error case has a non-empty description |
| ServiceErrors.FixedDescriptions | AIChatApp/Services/AIService.swift:16-25 | the fixed texts of `invalidAPIKey`, `quotaExceeded`, `serviceUnavailable` and `unknown(nil)` |
| ServiceErrors.HeadOfDescription | AIChatApp/Services/AIService.swift:14-27 | the first two characters of a description are fixed by its case, whatever error it wraps |
| ServiceErrors.DescriptionsTellKindsApart | AIChatApp/Services/AIService.swift:7-27 | errors of different cases never get the same description |
| Profiles.NewProfile | AIChatApp/Models/AgentProfile.swift:14-23 | a new profile keeps the given fields, has memory and search off, and both timestamps at creation time |
| Profiles.NewProfileDefaults | AIChatApp/Models/AgentProfile.swift:14-20 | without a system prompt the prompt is empty, and both switches start off |
| Profiles.Update | AIChatApp/Models/AgentProfile.swift:25-33 | exactly the supplied fields change; id and creation time never do; `updatedAt` is always refreshed |
| ApiKeys.APIKeyManager.GetAPIKeys | AIChatApp/Services/APIKeyManager.swift:22-24 | nothing stored, or something that is not a string dictionary, reads as the empty map |
| ApiKeys.APIKeyManager.GetAPIKey | AIChatApp/Services/APIKeyManager.swift:17-20 | a key comes back exactly when the service is in the stored map, and it is the mapped key |
| ApiKeys.APIKeyManager.HasAPIKey | AIChatApp/Services/APIKeyManager.swift:36-38 | a key exists exactly when the service is in the stored map |
| ApiKeys.APIKeyManager.SaveAPIKey | AIChatApp/Services/APIKeyManager.swift:11-15 | the key is set or overwritten, reads back, and every other service's key is unchanged |
| ApiKeys.APIKeyManager.DeleteAPIKey | AIChatApp/Services/APIKeyManager.swift:26-30 | the service's key is gone and every other service's key is unchanged |
| ApiKeys.APIKeyManager.GetAllServices | AIChatApp/Services/APIKeyManager.swift:32-34 | each stored service name appears exactly once, and nothing else appears |
| Agents.FirstIndexOf | AIChatApp/Services/AgentManager.swift:13 | `firstIndex(where:)` gives an index holding the id with none before it, or none when no profile has it |
| Agents.FindIsFirstIndex | AIChatApp/Services/AgentManager.swift:21-23 | `first { $0.id == id }` gives the profile at the first index holding the id |
| Agents.UpsertedLookup | AIChatApp/Services/AgentManager.swift:11-19 | after a save the saved id finds the saved profile and every other id finds what it found before |
| Agents.UpsertedKeepsIdsUnique | AIChatApp/Services/AgentManager.swift:11-19 | a save keeps ids unique; it keeps the length when the id exists and adds one otherwise |
| Agents.WithoutIdMembers | AIChatApp/Services/AgentManager.swift:35-39 | `removeAll` keeps exactly the profiles with another id and never lengthens the list |
| Agents.WithoutIdFindsNothing | AIChatApp/Services/AgentManager.swift:35-39 | after a delete the id finds no profile |
| Agents.WithoutAbsentId | AIChatApp/Services/AgentManager.swift:35-39 | deleting an id no profile has leaves the list unchanged |
| Agents.KeepOthers | AIChatApp/Services/AgentManager.swift:37 | the in-place removal pass computes the filtered list |
| Agents.AgentManager.GetProfiles | AIChatApp/Services/AgentManager.swift:25-33 | nothing stored, or data that does not decode, reads as the empty list |
| Agents.AgentManager.GetProfile | AIChatApp/Services/AgentManager.swift:21-23 | no profile exactly when no stored profile has the id; otherwise the profile at the first index holding it |
| Agents.AgentManager.GetCurrentProfile | AIChatApp/Services/AgentManager.swift:45-51 | no current profile when no id is stored or the text is not a UUID |
| Agents.AgentManager.SaveProfile | AIChatApp/Services/AgentManager.swift:11-19 | the list becomes the upsert of the profile, which then reads back; the current id is untouched |
| Agents.AgentManager.DeleteProfile | AIChatApp/Services/AgentManager.swift:35-39 | the list loses every profile with the id, in order, and the id reads back as absent |
| Agents.AgentManager.SetCurrentProfile | AIChatApp/Services/AgentManager.swift:41-43 | the current-id entry holds the profile's id; the list is untouched |
| Agents.AgentManager.CreateDefaultProfile | AIChatApp/Services/AgentManager.swift:53-63 | the "Genel Asistan" / "OpenAI" / "gpt-3.5-turbo" profile is saved, and it is what the current profile reads back as |
| Agents.AgentManager.SaveProfiles | AIChatApp/Services/AgentManager.swift:65-72 | the list reads back as written |
| Memory.FileForInjective | AIChatApp/Services/MemoryService.swift:29 | two agents share a record file only if they are the same agent |
| Memory.KeepLast | AIChatApp/Services/MemoryService.swift:58-60 | the cap keeps a suffix of at most 50 lines, and all lines when there are no more than 50 |
| Memory.SaveThenLoad | AIChatApp/Services/MemoryService.swift:24-51 | loading after a save gives back what was saved |
| Memory.AddThenLoad | AIChatApp/Services/MemoryService.swift:53-63 | after an addition the record is non-empty, ends with the line and holds at most 50; below the cap it is the old record plus the line; at the cap the oldest line goes and the order is kept |
| Memory.SaveLeavesOthers | AIChatApp/Services/MemoryService.swift:24-63 | saving or adding for one agent leaves every other agent's record unchanged |
| Memory.AddedTwiceEndsWithBoth | AIChatApp/Services/MemoryService.swift:53-63 | two additions leave both lines at the end, in order |
| Memory.ClearThenLoad | AIChatApp/Services/MemoryService.swift:65-73 | after a clear the record reads as empty; clearing an absent record changes nothing; others are unchanged |
| Memory.AddedAllKeepsLast | AIChatApp/Services/MemoryService.swift:53-63 | any run of additions leaves the last 50 of the old lines followed by the new ones |
| Memory.ManyAdditions | AIChatApp/Services/MemoryService.swift:53-63 | after more than 50 additions to an empty record it holds exactly the last 50 lines added, in order |
| Memory.ReadableHoldsOwnRecord | AIChatApp/Services/MemoryService.swift:82-92 | a saved record is listed by `getAllMemories`, a cleared one is not |
| Memory.MemoryService.SaveMemory | AIChatApp/Services/MemoryService.swift:24-34 | the agent's file is (over)written and reads back as the saved lines |
| Memory.MemoryService.LoadMemory | AIChatApp/Services/MemoryService.swift:36-51 | the record's lines, or empty when the file is absent or does not decode |
| Memory.MemoryService.AddToMemory | AIChatApp/Services/MemoryService.swift:53-63 | the directory becomes `Added`; the record ends with the line and holds at most 50 |
| Memory.MemoryService.ClearMemory | AIChatApp/Services/MemoryService.swift:65-73 | the directory becomes `Cleared`, and the record reads as empty |
| Memory.MemoryService.GetAllMemories | AIChatApp/Services/MemoryService.swift:75-95 | one entry per decodable `.json` file, each from a different file, carrying the id and lines stored in it |
| WebSearch.QuestionTriggers | AIChatApp/Services/WebSearchService.swift:30-32 | a message with '?' always triggers a search |
| WebSearch.NoQuestionMeansKeyword | AIChatApp/Services/WebSearchService.swift:19-35 | without '?', a message triggers exactly when some keyword, lowercased, occurs in the lowercased message |
| WebSearch.GreetingMatchesNoDefaultKeyword | AIChatApp/Services/WebSearchService.swift:7-27 | no default keyword occurs in "selam" |
| WebSearch.DefaultExamples | AIChatApp/Services/WebSearchService.swift:7-35 | with the default keywords "selam" does not trigger and "kur'an nedir?" does |
| WebSearch.AddedKeyword | AIChatApp/Services/WebSearchService.swift:71-75 | the keyword is present afterwards; the old list is a prefix; the list grows only when the exact keyword was missing |
| WebSearch.AddKeywordIdempotent | AIChatApp/Services/WebSearchService.swift:71-75 | adding a keyword twice is the same as adding it once |
| WebSearch.AddKeywordTriggers | AIChatApp/Services/WebSearchService.swift:19-27 | after an addition a message triggers exactly when it triggered before or matches the new keyword |
| WebSearch.RemovedKeyword | AIChatApp/Services/WebSearchService.swift:77-79 | the entries kept are exactly those not equal to the keyword ignoring case |
| WebSearch.RemoveAbsentKeyword | AIChatApp/Services/WebSearchService.swift:77-79 | removing a keyword no entry matches ignoring case leaves the list unchanged |
| WebSearch.AddThenRemove | AIChatApp/Services/WebSearchService.swift:71-79 | adding a keyword and then removing it gives what removing it alone gives |
| WebSearch.WebSearchService.constructor | AIChatApp/Services/WebSearchService.swift:7-15 | the list starts as the 23 default keywords |
| WebSearch.WebSearchService.ShouldTriggerSearch | AIChatApp/Services/WebSearchService.swift:19-35 | the early-return scan answers exactly `Triggers` for the current list |
| WebSearch.WebSearchService.AddKeyword | AIChatApp/Services/WebSearchService.swift:71-75 | the list becomes `AddedKeyword` of the old list |
| WebSearch.WebSearchService.RemoveKeyword | AIChatApp/Services/WebSearchService.swift:77-79 | the list becomes `RemovedKeyword` of the old list, and no entry equals the keyword ignoring case |
| WebSearch.WebSearchService.GetKeywords | AIChatApp/Services/WebSearchService.swift:81-83 | the current list |
| OpenAI.SystemPart | AIChatApp/Services/OpenAIService.swift:20-22 | one system message exactly when a system prompt is supplied, even an empty one |
| OpenAI.MemoryPart | AIChatApp/Services/OpenAIService.swift:25-28 | one memory message exactly when the memory is present and non-empty |
| OpenAI.SearchPart | AIChatApp/Services/OpenAIService.swift:31-33 | one search message exactly when the results are present and non-empty |
| OpenAI.ComposedShape | AIChatApp/Services/OpenAIService.swift:17-36 | one to four messages, one per supplied part; the last is the user prompt; all earlier ones are system messages; the system prompt comes first |
| OpenAI.EmptyBlocksAddNothing | AIChatApp/Services/OpenAIService.swift:25-33 | empty memory and empty results give the same request as none |
| OpenAI.ComposedExample | AIChatApp/Services/OpenAIService.swift:17-36 | S, ["a","b"], C, P compose to the four messages in order, with the labels |
| OpenAI.StatusError | AIChatApp/Services/OpenAIService.swift:65-74 | 2xx passes; 401 gives `invalidAPIKey`; 429 gives `quotaExceeded`; every other code gives `serviceUnavailable` |
| OpenAI.AnswerSucceeds | AIChatApp/Services/OpenAIService.swift:59-87 | a reply comes back exactly for a 2xx response with a decodable body holding a choice, and it is the first choice |
| OpenAI.UnreadableBodyIsUnknown | AIChatApp/Services/OpenAIService.swift:76-87 | a 2xx body that does not decode surfaces as `unknown` wrapping the decoder's error; one with no choices as `unknown(serviceUnavailable)`, shown with the "Bilinmeyen hata: " prefix |
| OpenAI.NeverNetworkError | AIChatApp/Services/OpenAIService.swift:59-87 | no outcome is `networkError`; a transport error is rethrown as it is |
| OpenAI.OpenAIService.GenerateResponse | AIChatApp/Services/OpenAIService.swift:12-88 | an empty key fails with `invalidAPIKey` before any request; otherwise the request carries the model and the composed messages, and the result is `Answer` of the exchange |
| Chat.SelectedProviderCases | AIChatApp/ViewModels/ChatViewModel.swift:23-40 | a known service with a key gets a client for the agent's model and key; a known service without a key keeps the old client; any other service gets none |
| Chat.StaleProviderKept | AIChatApp/ViewModels/ChatViewModel.swift:28-32 | switching to an OpenAI agent with no stored key keeps the previous client |
| Chat.BlankInputIgnored | AIChatApp/ViewModels/ChatViewModel.swift:43 | a turn leaves everything unchanged and calls nothing exactly when the input is blank |
| Chat.UserMessageShown | AIChatApp/ViewModels/ChatViewModel.swift:45-49 | a non-blank turn shows the user's message once, after the old messages, clears the input, and adds at most one more message, never a user one |
| Chat.NotConfiguredTurn | AIChatApp/ViewModels/ChatViewModel.swift:60-64 | with no client, the error is "AI servisi ayarlanmamış", the loading flag is untouched, no call is made and the user message stays |
| Chat.NonBlankTurn | AIChatApp/ViewModels/ChatViewModel.swift:42-58 | a non-blank turn is the reply step run after the user's message and memory line are recorded |
| Chat.UserLineRememberedFirst | AIChatApp/ViewModels/ChatViewModel.swift:52-75 | with memory on, the memory passed to the provider ends with "Kullanıcı: " + input and holds at most 50 lines; on failure that line stays remembered |
| Chat.SuccessfulTurn | AIChatApp/ViewModels/ChatViewModel.swift:96-106 | on success exactly the reply is added after the user's message; loading and error are cleared; with memory on the record ends with the user line and then "AI: " + reply; with memory off it is untouched |
| Chat.FailedTurn | AIChatApp/ViewModels/ChatViewModel.swift:108-112 | on failure the error's description is shown, loading is cleared, no reply is shown and no reply line is remembered |
| Chat.SearchOnlyWhenTriggered | AIChatApp/ViewModels/ChatViewModel.swift:78-94 | search results reach the provider only when search is on and the message triggers it; a failed search leaves them out and the call still happens |
| Chat.CallProvider | AIChatApp/ViewModels/ChatViewModel.swift:89-94 | the selected client's outcome |
| Chat.ChatViewModel.constructor | AIChatApp/ViewModels/ChatViewModel.swift:14-21 | the current profile, or a newly created default one, becomes the agent, and its client is selected; with a current profile the repository is untouched, otherwise the default profile is saved and made current |
| Chat.ChatViewModel.UpdateAIService | AIChatApp/ViewModels/ChatViewModel.swift:23-40 | the client becomes `SelectedProvider` of the agent, the stored keys and the old client; nothing else changes |
| Chat.ChatViewModel.SendMessage | AIChatApp/ViewModels/ChatViewModel.swift:42-58 | the screen, the memory and the provider call become `Sent` of the old state and the turn's I/O |
| Chat.ChatViewModel.RememberUserLine | AIChatApp/ViewModels/ChatViewModel.swift:52-54 | with memory on, the user line is added to the agent's record |
| Chat.ChatViewModel.GenerateAIResponse | AIChatApp/ViewModels/ChatViewModel.swift:60-115 | the screen, the memory and the call become `Responded` |
| Chat.ChatViewModel.PrepareRequest | AIChatApp/ViewModels/ChatViewModel.swift:71-94 | the provider arguments: the prompt, the system prompt, the memory read now, and the search results when triggered |
| Chat.ChatViewModel.Deliver | AIChatApp/ViewModels/ChatViewModel.swift:96-112 | a reply is remembered and shown, or the error is shown; loading ends either way |
| Chat.ChatViewModel.ShowError | AIChatApp/ViewModels/ChatViewModel.swift:117-122 | the error message is set and nothing else changes |
| Chat.ChatViewModel.ClearMemory | AIChatApp/ViewModels/ChatViewModel.swift:124-127 | the current agent's record is cleared; without an agent nothing changes |
| Chat.ChatViewModel.UpdateAgent | AIChatApp/ViewModels/ChatViewModel.swift:129-132 | the agent is replaced and its client reselected; the screen is unchanged |

## Left out

- Persistence backends: `UserDefaults` entries and the memory directory are fields (an optional value, possibly one that does not decode, or a map from file name to decoded record). JSON encoding and file or write errors are not modelled; a write always succeeds.
- Directory setup in `MemoryService.init` (documents or temporary directory): only the resulting directory contents are modelled.
- Record timestamps, `Date()` in `AgentProfile` and `MemoryData`: timestamps are a `nat` supplied by the caller, and `MemoryData.timestamp` is dropped.
- `Message` ids and timestamps: a message is its text and whether the user sent it.
- The `Codable` behaviour of `let id = UUID()`, which is not decoded: profiles are kept as values with their ids.
- Networking: the URL, headers and JSON encoding of the request. The exchange is an input. URL construction cannot fail for the constant URL, and encoding a string-only request cannot fail.
- The `temperature: 0.7` field of the request (floating point).
- `OpenAIService.init`'s default model argument: the view model always passes the agent's model.
- `OpenRouterService` is not part of this model: its client is known only by key and model, and its answer is an input of the turn.
- `performSearch` and `performSearchAsync`: the delayed stub and its continuation bridge. The search outcome is an input, `None` for a failed search.
- Concurrency: the `Task`, the hop to `MainActor` and the 3-second auto-dismiss in `showError`. A turn runs to completion as one step.
- The `print` diagnostics on every swallowed error.
- Common.Lower: lowercasing is ASCII-only. `lowercased()` applies full Unicode case mapping, including the Turkish dotted and dotless i, which the model does not.
- Common.Contains: an empty keyword is contained in every message. Foundation's answer for an empty substring is not modelled.
- Common.SameIgnoringCase, Common.Contains, WebSearch.AddedKeyword: strings are compared scalar by scalar, without Swift's canonical equivalence, so "ü" and "u" followed by a combining diaeresis are different strings here while `==` and `contains` in Swift treat them as equal.
- Common.ParseUuid: only the canonical hyphenated form is modelled, which is the form `uuidString` produces.
- The SwiftUI views and the settings screen's index-based keyword deletion.

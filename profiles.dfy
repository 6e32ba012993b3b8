/** The agent profile record (`AgentProfile`): a named configuration that
    selects the provider, the model, the system prompt and whether memory
    and web search are used. */
module Profiles {
  import opened Common

  datatype AgentProfile = AgentProfile(
    id: Uuid,
    name: string,
    service: string,
    model: string,
    systemPrompt: string,
    isMemoryEnabled: bool,
    isWebSearchEnabled: bool,
    createdAt: Timestamp,
    updatedAt: Timestamp)

  /** `AgentProfile.init`. The fresh `UUID()` and the clock reading are
      supplied by the caller as `id` and `now`. */
  function NewProfile(id: Uuid, name: string, service: string, model: string, now: Timestamp,
                      systemPrompt: string := ""): (p: AgentProfile)
    ensures p.id == id && p.name == name && p.service == service && p.model == model
    ensures p.systemPrompt == systemPrompt
    ensures !p.isMemoryEnabled && !p.isWebSearchEnabled
    ensures p.createdAt == now && p.updatedAt == now
  {
    AgentProfile(id, name, service, model, systemPrompt, false, false, now, now)
  }

  /** Leaving out the system prompt gives an empty one; a new profile has
      memory and web search switched off. */
  lemma NewProfileDefaults(id: Uuid, name: string, service: string, model: string, now: Timestamp)
    ensures NewProfile(id, name, service, model, now).systemPrompt == ""
    ensures !NewProfile(id, name, service, model, now).isMemoryEnabled
    ensures !NewProfile(id, name, service, model, now).isWebSearchEnabled
  {
  }

  /** `mutating update`: each field whose argument is supplied is
      overwritten, in declaration order; `updatedAt` is refreshed whatever
      was supplied. The identity and the creation time never change. */
  method Update(p: AgentProfile,
                name: Option<string>, service: Option<string>, model: Option<string>,
                systemPrompt: Option<string>, isMemoryEnabled: Option<bool>,
                isWebSearchEnabled: Option<bool>, now: Timestamp)
    returns (q: AgentProfile)
    ensures q.id == p.id && q.createdAt == p.createdAt
    ensures q.name == (if name.Some? then name.value else p.name)
    ensures q.service == (if service.Some? then service.value else p.service)
    ensures q.model == (if model.Some? then model.value else p.model)
    ensures q.systemPrompt == (if systemPrompt.Some? then systemPrompt.value else p.systemPrompt)
    ensures q.isMemoryEnabled == (if isMemoryEnabled.Some? then isMemoryEnabled.value else p.isMemoryEnabled)
    ensures q.isWebSearchEnabled == (if isWebSearchEnabled.Some? then isWebSearchEnabled.value else p.isWebSearchEnabled)
    ensures q.updatedAt == now
  {
    q := p;
    if name.Some? { q := q.(name := name.value); }
    if service.Some? { q := q.(service := service.value); }
    if model.Some? { q := q.(model := model.value); }
    if systemPrompt.Some? { q := q.(systemPrompt := systemPrompt.value); }
    if isMemoryEnabled.Some? { q := q.(isMemoryEnabled := isMemoryEnabled.value); }
    if isWebSearchEnabled.Some? { q := q.(isWebSearchEnabled := isWebSearchEnabled.value); }
    q := q.(updatedAt := now);
  }
}

/** The profile repository (`AgentManager`): the list of agent profiles
    under the "AgentProfiles" defaults entry and the current profile's id
    under "CurrentProfileID". */
module Agents {
  import opened Common
  import opened Profiles

  const DefaultName := "Genel Asistan"
  const DefaultService := "OpenAI"
  const DefaultModel := "gpt-3.5-turbo"
  const DefaultPrompt :=
    "Sen yardımcı bir AI asistansın. Kullanıcının sorularını mümkün olan en iyi şekilde yanıtla."

  /** `firstIndex(where: { $0.id == id })`. */
  function FirstIndexOf(profiles: seq<AgentProfile>, id: Uuid): (r: Option<nat>)
    ensures r.Some? ==> r.value < |profiles| && profiles[r.value].id == id
    ensures r.Some? ==> forall j | 0 <= j < r.value :: profiles[j].id != id
    ensures r.None? ==> forall j | 0 <= j < |profiles| :: profiles[j].id != id
    decreases |profiles|
  {
    if |profiles| == 0 then None
    else if profiles[0].id == id then Some(0)
    else
      match FirstIndexOf(profiles[1..], id)
      case None => None
      case Some(k) => Some(k + 1)
  }

  /** `first { $0.id == id }`: the first profile with the id, if any. */
  function FindProfile(profiles: seq<AgentProfile>, id: Uuid): (r: Option<AgentProfile>)
    decreases |profiles|
  {
    if |profiles| == 0 then None
    else if profiles[0].id == id then Some(profiles[0])
    else FindProfile(profiles[1..], id)
  }

  /** The search agrees with the index lookup: it yields the profile at the
      first index holding the id, and nothing when no profile has it. */
  lemma {:induction false} FindIsFirstIndex(profiles: seq<AgentProfile>, id: Uuid)
    ensures FindProfile(profiles, id) ==
      match FirstIndexOf(profiles, id)
      case None => None
      case Some(k) => Some(profiles[k])
    decreases |profiles|
  {
    if |profiles| > 0 && profiles[0].id != id {
      FindIsFirstIndex(profiles[1..], id);
    }
  }

  /** `saveProfile` on the list: replace the first profile with the same id,
      or append when there is none. */
  function Upserted(profiles: seq<AgentProfile>, p: AgentProfile): seq<AgentProfile> {
    match FirstIndexOf(profiles, p.id)
    case Some(k) => profiles[k := p]
    case None => profiles + [p]
  }

  /** After an upsert, looking up the saved id finds the saved profile, and
      every other id finds what it found before. */
  lemma UpsertedLookup(profiles: seq<AgentProfile>, p: AgentProfile, id: Uuid)
    ensures FindProfile(Upserted(profiles, p), id) ==
      if id == p.id then Some(p) else FindProfile(profiles, id)
  {
    var r := Upserted(profiles, p);
    FindIsFirstIndex(profiles, id);
    FindIsFirstIndex(r, id);
    var k := FirstIndexOf(profiles, p.id);
    if k.Some? {
      assert r[k.value] == p;
      assert forall j | 0 <= j < |r| && j != k.value :: r[j] == profiles[j];
    } else {
      assert r[|profiles|] == p;
      assert forall j | 0 <= j < |profiles| :: r[j] == profiles[j];
    }
  }

  /** No two profiles share an id. */
  predicate UniqueIds(profiles: seq<AgentProfile>) {
    forall i, j | 0 <= i < j < |profiles| :: profiles[i].id != profiles[j].id
  }

  /** Saving through the repository never introduces a duplicate id. */
  lemma UpsertedKeepsIdsUnique(profiles: seq<AgentProfile>, p: AgentProfile)
    requires UniqueIds(profiles)
    ensures UniqueIds(Upserted(profiles, p))
    ensures |Upserted(profiles, p)| == |profiles| + (if FirstIndexOf(profiles, p.id).Some? then 0 else 1)
  {
  }

  /** `removeAll { $0.id == id }`: the profiles with other ids, in their
      original order. */
  function WithoutId(profiles: seq<AgentProfile>, id: Uuid): seq<AgentProfile>
    decreases |profiles|
  {
    if |profiles| == 0 then []
    else
      var last := profiles[|profiles| - 1];
      WithoutId(profiles[..|profiles| - 1], id) + (if last.id == id then [] else [last])
  }

  /** Filtering a list extended by one profile filters the list, then that
      profile. */
  lemma WithoutIdSnoc(profiles: seq<AgentProfile>, p: AgentProfile, id: Uuid)
    ensures WithoutId(profiles + [p], id) == WithoutId(profiles, id) + (if p.id == id then [] else [p])
  {
    assert (profiles + [p])[..|profiles|] == profiles;
  }

  /** The filter keeps exactly the profiles with another id, and never
      lengthens the list. */
  lemma {:induction false} WithoutIdMembers(profiles: seq<AgentProfile>, id: Uuid)
    ensures forall q :: q in WithoutId(profiles, id) <==> q in profiles && q.id != id
    ensures |WithoutId(profiles, id)| <= |profiles|
    decreases |profiles|
  {
    if |profiles| > 0 {
      var init, last := profiles[..|profiles| - 1], profiles[|profiles| - 1];
      WithoutIdMembers(init, id);
      assert profiles == init + [last];
    }
  }

  /** After filtering out an id, looking it up finds nothing. */
  lemma WithoutIdFindsNothing(profiles: seq<AgentProfile>, id: Uuid)
    ensures FindProfile(WithoutId(profiles, id), id) == None
  {
    WithoutIdMembers(profiles, id);
    FindIsFirstIndex(WithoutId(profiles, id), id);
  }

  /** Deleting an id that no profile has leaves the list as it was. */
  lemma {:induction false} WithoutAbsentId(profiles: seq<AgentProfile>, id: Uuid)
    requires forall j | 0 <= j < |profiles| :: profiles[j].id != id
    ensures WithoutId(profiles, id) == profiles
    decreases |profiles|
  {
    if |profiles| > 0 {
      WithoutAbsentId(profiles[..|profiles| - 1], id);
      assert profiles == profiles[..|profiles| - 1] + [profiles[|profiles| - 1]];
    }
  }

  /** The `removeAll { $0.id == id }` pass: one step per profile, keeping
      those with another id. */
  method KeepOthers(profiles: seq<AgentProfile>, id: Uuid) returns (kept: seq<AgentProfile>)
    ensures kept == WithoutId(profiles, id)
  {
    kept := [];
    var i := 0;
    while i < |profiles|
      invariant 0 <= i <= |profiles|
      invariant kept == WithoutId(profiles[..i], id)
    {
      assert profiles[..i + 1] == profiles[..i] + [profiles[i]];
      WithoutIdSnoc(profiles[..i], profiles[i], id);
      if profiles[i].id != id {
        kept := kept + [profiles[i]];
      }
      i := i + 1;
    }
    assert profiles[..i] == profiles;
  }

  class AgentManager {
    /** The "AgentProfiles" defaults entry. */
    var profilesSlot: Option<Payload<seq<AgentProfile>>>
    /** The "CurrentProfileID" defaults entry. */
    var currentIdSlot: Option<string>

    constructor (profilesSlot: Option<Payload<seq<AgentProfile>>>, currentIdSlot: Option<string>)
      ensures this.profilesSlot == profilesSlot && this.currentIdSlot == currentIdSlot
    {
      this.profilesSlot := profilesSlot;
      this.currentIdSlot := currentIdSlot;
    }

    /** `getProfiles`: the stored list, or the empty list when nothing is
        stored or it does not decode. */
    function GetProfiles(): (profiles: seq<AgentProfile>)
      reads this
      ensures profilesSlot.None? || profilesSlot.value.Malformed? ==> profiles == []
    {
      match profilesSlot
      case Some(WellFormed(ps)) => ps
      case _ => []
    }

    /** `getProfile(id:)`. */
    function GetProfile(id: Uuid): (r: Option<AgentProfile>)
      reads this
      ensures r.None? <==> forall j | 0 <= j < |GetProfiles()| :: GetProfiles()[j].id != id
      ensures r.Some? ==>
        FirstIndexOf(GetProfiles(), id).Some? && r.value == GetProfiles()[FirstIndexOf(GetProfiles(), id).value]
    {
      FindIsFirstIndex(GetProfiles(), id);
      FindProfile(GetProfiles(), id)
    }

    /** `getCurrentProfile`: nothing when no id string is stored or it does
        not parse as a UUID; otherwise the lookup of the parsed id. */
    function GetCurrentProfile(): (r: Option<AgentProfile>)
      reads this
      ensures currentIdSlot.None? ==> r.None?
      ensures currentIdSlot.Some? && !IsUuidText(currentIdSlot.value) ==> r.None?
    {
      match currentIdSlot
      case None => None
      case Some(text) =>
        match ParseUuid(text)
        case None => None
        case Some(id) => GetProfile(id)
    }

    method SaveProfiles(profiles: seq<AgentProfile>)
      modifies this
      ensures GetProfiles() == profiles && currentIdSlot == old(currentIdSlot)
    {
      profilesSlot := Some(WellFormed(profiles));
    }

    /** `saveProfile`: replace the profile with the same id in place, or
        append it. */
    method SaveProfile(profile: AgentProfile)
      modifies this
      ensures GetProfiles() == Upserted(old(GetProfiles()), profile)
      ensures GetProfile(profile.id) == Some(profile)
      ensures currentIdSlot == old(currentIdSlot)
    {
      var profiles := GetProfiles();
      var index := FirstIndexOf(profiles, profile.id);
      if index.Some? {
        profiles := profiles[index.value := profile];
      } else {
        profiles := profiles + [profile];
      }
      SaveProfiles(profiles);
      UpsertedLookup(old(GetProfiles()), profile, profile.id);
    }

    /** `deleteProfile(id:)`: drop every profile with the id, keeping the
        order of the others. */
    method DeleteProfile(id: Uuid)
      modifies this
      ensures GetProfiles() == WithoutId(old(GetProfiles()), id)
      ensures GetProfile(id) == None
      ensures currentIdSlot == old(currentIdSlot)
    {
      var kept := KeepOthers(GetProfiles(), id);
      SaveProfiles(kept);
      WithoutIdFindsNothing(old(GetProfiles()), id);
    }

    /** `setCurrentProfile`: remember the profile's id as text. */
    method SetCurrentProfile(profile: AgentProfile)
      modifies this
      ensures currentIdSlot == Some(profile.id)
      ensures profilesSlot == old(profilesSlot)
    {
      currentIdSlot := Some(profile.id);
    }

    /** `createDefaultProfile`: build the stock assistant, save it and make
        it current. */
    method CreateDefaultProfile(id: Uuid, now: Timestamp) returns (profile: AgentProfile)
      modifies this
      ensures profile == NewProfile(id, DefaultName, DefaultService, DefaultModel, now, DefaultPrompt)
      ensures GetProfiles() == Upserted(old(GetProfiles()), profile)
      ensures GetCurrentProfile() == Some(profile)
    {
      profile := NewProfile(id, DefaultName, DefaultService, DefaultModel, now, DefaultPrompt);
      SaveProfile(profile);
      SetCurrentProfile(profile);
      ParseUuidString(profile.id);
    }
  }
}

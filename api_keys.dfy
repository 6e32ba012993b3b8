/** The credential map (`APIKeyManager`): service name to API key, kept as
    one dictionary under the "APIKeys" defaults entry. */
module ApiKeys {
  import opened Common

  class APIKeyManager {
    /** The "APIKeys" defaults entry: absent, holding something that is not
        a string-to-string dictionary, or a dictionary. */
    var stored: Option<Payload<map<string, string>>>

    constructor (stored: Option<Payload<map<string, string>>>)
      ensures this.stored == stored
    {
      this.stored := stored;
    }

    /** `getAPIKeys`: the stored dictionary, or the empty one when nothing of
        the right type is stored. */
    function GetAPIKeys(): (keys: map<string, string>)
      reads this
      ensures stored.None? || stored.value.Malformed? ==> keys == map[]
    {
      match stored
      case Some(WellFormed(m)) => m
      case _ => map[]
    }

    /** `getAPIKey(for:)`. */
    function GetAPIKey(service: string): (key: Option<string>)
      reads this
      ensures key.Some? <==> service in GetAPIKeys()
      ensures key.Some? ==> key.value == GetAPIKeys()[service]
    {
      var keys := GetAPIKeys();
      if service in keys then Some(keys[service]) else None
    }

    /** `hasAPIKey(for:)`: a key is stored for the service. */
    predicate HasAPIKey(service: string)
      reads this
      ensures HasAPIKey(service) <==> service in GetAPIKeys()
    {
      GetAPIKey(service) != None
    }

    /** `saveAPIKey(for:key:)`: read the dictionary, set one entry, write the
        whole dictionary back. */
    method SaveAPIKey(service: string, key: string)
      modifies this
      ensures GetAPIKeys() == old(GetAPIKeys())[service := key]
      ensures GetAPIKey(service) == Some(key)
      ensures forall other :: other != service ==> GetAPIKey(other) == old(GetAPIKey(other))
    {
      var keys := GetAPIKeys();
      keys := keys[service := key];
      stored := Some(WellFormed(keys));
    }

    /** `deleteAPIKey(for:)`: deleting an absent service still writes the
        (unchanged) dictionary back. */
    method DeleteAPIKey(service: string)
      modifies this
      ensures GetAPIKeys() == old(GetAPIKeys()) - {service}
      ensures GetAPIKey(service) == None
      ensures forall other :: other != service ==> GetAPIKey(other) == old(GetAPIKey(other))
    {
      var keys := GetAPIKeys();
      keys := keys - {service};
      stored := Some(WellFormed(keys));
    }

    /** `getAllServices`: every stored service name once, in no particular
        order. */
    method GetAllServices() returns (services: seq<string>)
      ensures forall s :: s in services <==> s in GetAPIKeys()
      ensures forall i, j | 0 <= i < j < |services| :: services[i] != services[j]
      ensures |services| == |GetAPIKeys()|
    {
      var keys := GetAPIKeys();
      var remaining := keys.Keys;
      services := [];
      while remaining != {}
        invariant remaining <= keys.Keys
        invariant forall s :: s in services <==> s in keys && s !in remaining
        invariant forall i, j | 0 <= i < j < |services| :: services[i] != services[j]
        invariant |services| + |remaining| == |keys.Keys|
        decreases |remaining|
      {
        var s :| s in remaining;
        services := services + [s];
        remaining := remaining - {s};
      }
      assert |keys.Keys| == |keys|;
    }
  }
}

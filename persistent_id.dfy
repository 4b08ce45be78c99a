/** PersistentId: a component that keeps a stable GUID for its game object,
    and the static lookup from id to component shared by all of them.
    Guid.NewGuid().ToString("N") is a parameter: a fresh 32-digit lower-case
    hexadecimal string.  `destroyed` stands for Unity's destroyed-object
    state, in which the object compares equal to null. */
module PersistentIds {

  predicate IsHexDigit(c: char)
  {
    ('0' <= c <= '9') || ('a' <= c <= 'f')
  }

  /** The "N" format of a GUID: 32 hexadecimal digits, no separators. */
  predicate IsGuidN(s: string)
  {
    |s| == 32 && forall i :: 0 <= i < |s| ==> IsHexDigit(s[i])
  }

  /** The static Lookup dictionary. */
  class IdLookup {
    var entries: map<string, PersistentId>

    constructor ()
      ensures entries == map[]
    {
      entries := map[];
    }
  }

  class PersistentId {
    /** The serialized id; "" when missing. */
    var id: string
    var destroyed: bool
    const lookup: IdLookup

    constructor (id: string, lookup: IdLookup)
      ensures this.id == id && !destroyed && this.lookup == lookup
    {
      this.id := id;
      destroyed := false;
      this.lookup := lookup;
    }

    /** RegisterId: a missing id is generated; an id held by another live
        object is replaced by a second fresh one; the lookup then maps the
        id to this object. */
    method RegisterId(firstGuid: string, secondGuid: string)
      requires IsGuidN(firstGuid) && IsGuidN(secondGuid)
      modifies this`id, lookup`entries
      ensures var candidate := if old(id) == "" then firstGuid else old(id);
              var taken := candidate in old(lookup.entries) && !old(lookup.entries[candidate].destroyed) &&
                           old(lookup.entries[candidate]) != this;
              id == (if taken then secondGuid else candidate) &&
              lookup.entries == old(lookup.entries)[id := this]
      ensures id != "" && id in lookup.entries && lookup.entries[id] == this
      ensures old(id != "" && id in lookup.entries && lookup.entries[id] == this) ==> id == old(id)
    {
      if id == "" {
        id := firstGuid;
      }
      if id in lookup.entries {
        var existing := lookup.entries[id];
        if !existing.destroyed && existing != this {
          id := secondGuid;
        }
      }
      lookup.entries := lookup.entries[id := this];
    }

    /** UnregisterId: the entry goes only when it maps to this object. */
    method UnregisterId()
      modifies lookup`entries
      ensures id != "" && id in old(lookup.entries) && old(lookup.entries[id]) == this ==>
                lookup.entries == old(lookup.entries) - {id}
      ensures !(id != "" && id in old(lookup.entries) && old(lookup.entries[id]) == this) ==>
                lookup.entries == old(lookup.entries)
    {
      if id != "" && id in lookup.entries && lookup.entries[id] == this {
        lookup.entries := lookup.entries - {id};
      }
    }

    /** OnValidate: in edit mode a missing id is filled in; a present id is
        never changed. */
    method OnValidate(isPlaying: bool, guid: string)
      requires IsGuidN(guid)
      modifies this`id
      ensures isPlaying || old(id) != "" ==> id == old(id)
      ensures !isPlaying && old(id) == "" ==> id == guid
    {
      if isPlaying {
        return;
      }
      if id == "" {
        id := guid;
      }
    }

    method Awake(isPlaying: bool, firstGuid: string, secondGuid: string)
      requires IsGuidN(firstGuid) && IsGuidN(secondGuid)
      modifies this`id, lookup`entries
      ensures !isPlaying ==> id == old(id) && lookup.entries == old(lookup.entries)
      ensures isPlaying ==>
                var candidate := if old(id) == "" then firstGuid else old(id);
                var taken := candidate in old(lookup.entries) && !old(lookup.entries[candidate].destroyed) &&
                             old(lookup.entries[candidate]) != this;
                id == (if taken then secondGuid else candidate) &&
                lookup.entries == old(lookup.entries)[id := this]
      ensures isPlaying ==> id != "" && id in lookup.entries && lookup.entries[id] == this
    {
      if isPlaying {
        RegisterId(firstGuid, secondGuid);
      }
    }

    /** OnDestroy: in play mode the object unregisters itself; it is
        destroyed either way. */
    method OnDestroy(isPlaying: bool)
      modifies this`destroyed, lookup`entries
      ensures destroyed
      ensures isPlaying && id != "" && id in old(lookup.entries) && old(lookup.entries[id]) == this ==>
                lookup.entries == old(lookup.entries) - {id}
      ensures !(isPlaying && id != "" && id in old(lookup.entries) && old(lookup.entries[id]) == this) ==>
                lookup.entries == old(lookup.entries)
    {
      if isPlaying {
        UnregisterId();
      }
      destroyed := true;
    }
  }

  /** A clash on registration: the newcomer moves to the fresh id and the
      object already holding the id keeps its entry, as long as the fresh id
      is not in use. */
  method DuplicateIdScenario(sharedId: string, freshGuid: string, otherGuid: string)
    returns (holderId: string, newcomerId: string, holderStillRegistered: bool, newcomerRegistered: bool)
    requires IsGuidN(sharedId) && IsGuidN(freshGuid) && IsGuidN(otherGuid) && freshGuid != sharedId
    ensures holderId == sharedId && newcomerId == freshGuid
    ensures holderStillRegistered && newcomerRegistered
  {
    var lookup := new IdLookup();
    var holder := new PersistentId(sharedId, lookup);
    var newcomer := new PersistentId(sharedId, lookup);
    holder.RegisterId(otherGuid, otherGuid);
    newcomer.RegisterId(otherGuid, freshGuid);
    holderId := holder.id;
    newcomerId := newcomer.id;
    holderStillRegistered := sharedId in lookup.entries && lookup.entries[sharedId] == holder;
    newcomerRegistered := freshGuid in lookup.entries && lookup.entries[freshGuid] == newcomer;
  }
}

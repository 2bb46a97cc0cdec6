/**
  The auxiliary id lists the list fetches hand to the scoping policy. They
  are read from the other stores' caches at the moment of the fetch, and
  rendered with `toString()` (the ids are strings already, so this is the
  identity on them).
*/
module ScopeKeys {
  import opened Wrappers
  import opened Model

  /** `pets.map(pet => pet.id.toString())`. */
  function PetIds(pets: seq<Pet>): (ids: seq<string>)
    ensures |ids| == |pets|
    ensures forall id :: id in ids <==> exists p :: p in pets && p.id == id
    decreases |pets|
  {
    if |pets| == 0 then [] else [pets[0].id] + PetIds(pets[1..])
  }

  /** `sessions.map(session => session.id.toString())`. */
  function CareSessionIds(sessions: seq<CareSession>): (ids: seq<string>)
    ensures |ids| == |sessions|
    ensures forall id :: id in ids <==> exists s :: s in sessions && s.id == id
    decreases |sessions|
  {
    if |sessions| == 0 then [] else [sessions[0].id] + CareSessionIds(sessions[1..])
  }

  /**
    The role dispatch shared by `getReports` and `getPhotos`: an owner passes
    the cached pet ids, a sitter the cached care-session ids, anybody else
    (or nobody) no key at all.
  */
  function AuxKeys(user: Option<User>, cachedPets: seq<Pet>, cachedSessions: seq<CareSession>)
    : (keys: (Option<seq<string>>, Option<seq<string>>))
    ensures keys.0.Some? <==> user.Some? && user.value.role == Owner
    ensures keys.1.Some? <==> user.Some? && user.value.role == Sitter
    ensures keys.0.Some? ==> keys.0.value == PetIds(cachedPets)
    ensures keys.1.Some? ==> keys.1.value == CareSessionIds(cachedSessions)
  {
    if user.Some? && user.value.role == Owner then (Some(PetIds(cachedPets)), None)
    else if user.Some? && user.value.role == Sitter then (None, Some(CareSessionIds(cachedSessions)))
    else (None, None)
  }
}

/**
  `CareSessionsService`: the entity store for care sessions. Its list fetch
  scopes by the pet ids cached in the pets store at that moment, whatever
  the user's role.
*/
module CareSessions {
  import opened Wrappers
  import opened Model
  import opened Transport
  import opened ErrorHandler
  import opened EntityStore
  import opened RoleFilter
  import opened ScopeKeys
  import Seqs

  function CareSessionId(s: CareSession): string {
    s.id
  }

  /** The body of an update request; `None` fields are not sent. */
  datatype CareSessionPatch = CareSessionPatch(
    startTime: Option<string>,
    endTime: Option<string>,
    status: Option<string>,
    notes: Option<string>,
    paid: Option<bool>)

  /** What an update puts on the wire: the id in the path and the patch as body. */
  datatype PatchRequest = PatchRequest(id: string, patch: CareSessionPatch)

  /** An update's request together with the store transition its reply causes. */
  datatype Sent = Sent(request: PatchRequest, step: Step<CareSession, Option<CareSession>>)

  /** `getSessions`: scoped with the pets cache as `ownerPetIds`, for every role. */
  function GetSessions(st: Store<CareSession>, user: Option<User>, cachedPets: seq<Pet>,
                       reply: Reply<seq<CareSession>>): (r: Step<CareSession, seq<CareSession>>)
    ensures !r.store.isLoading && r.store.selected == st.selected
    ensures reply.Ok? ==> r.out == r.store.items && r.store.error.None?
    ensures reply.Ok? ==> Seqs.IsSubseq(r.store.items, reply.payload)
    ensures reply.Ok? ==> r.store.items == FilterCareSessions(user, reply.payload, Some(PetIds(cachedPets)))
    ensures reply.Ok? ==> forall s :: s in r.store.items <==>
              s in reply.payload && CareSessionVisible(user, Some(PetIds(cachedPets)), s)
    ensures reply.Ok? && user.Some? && user.value.role == Owner && cachedPets == [] ==> r.store.items == []
    ensures reply.Fail? ==> r.out == [] && r.store.items == st.items && r.store.error == Some(FriendlyMessage(reply.err))
  {
    FetchAll(st, reply, (xs: seq<CareSession>) => FilterCareSessions(user, xs, Some(PetIds(cachedPets))))
  }

  /** For an owner, the stored sessions are exactly the fetched ones whose pet is in the pets cache. */
  lemma OwnerSessionsFollowPetCache(st: Store<CareSession>, u: User, cachedPets: seq<Pet>,
                                    sessions: seq<CareSession>, s: CareSession)
    requires u.role == Owner
    ensures s in GetSessions(st, Some(u), cachedPets, Ok(sessions)).store.items <==>
              s in sessions && exists p :: p in cachedPets && p.id == s.petId
  {
  }

  /** `getSessionsByPetId`: unscoped, and the cache is left alone. */
  function GetSessionsByPetId(st: Store<CareSession>, reply: Reply<seq<CareSession>>)
    : (r: Step<CareSession, seq<CareSession>>)
    ensures !r.store.isLoading && r.store.items == st.items && r.store.selected == st.selected
    ensures reply.Ok? ==> r.out == reply.payload
    ensures reply.Fail? ==> r.out == [] && r.store.error == Some(FriendlyMessage(reply.err))
  {
    FetchUncached(st, reply, (xs: seq<CareSession>) => xs)
  }

  function GetSessionById(st: Store<CareSession>, reply: Reply<CareSession>): (r: Step<CareSession, Option<CareSession>>)
    ensures !r.store.isLoading && r.store.items == st.items
    ensures reply.Ok? ==> r.out == Some(reply.payload) && r.store.selected == Some(reply.payload)
    ensures reply.Fail? ==> r.out.None? && r.store.selected == st.selected && r.store.error == Some(FriendlyMessage(reply.err))
  {
    FetchById(st, reply)
  }

  function CreateSession(st: Store<CareSession>, reply: Reply<CareSession>): (r: Step<CareSession, Option<CareSession>>)
    ensures !r.store.isLoading
    ensures reply.Ok? ==> r.out == Some(reply.payload) && r.store.items == st.items + [reply.payload]
    ensures reply.Fail? ==> r.out.None? && r.store.items == st.items && r.store.error == Some(FriendlyMessage(reply.err))
  {
    Create(st, reply)
  }

  /** `updateSession(id, patch)`: the patch goes out; the server's record replaces the id and is selected. */
  function UpdateSession(st: Store<CareSession>, id: string, patch: CareSessionPatch,
                         reply: Reply<CareSession>): (r: Sent)
    ensures r.request == PatchRequest(id, patch)
    ensures !r.step.store.isLoading
    ensures reply.Ok? ==> r.step.out == Some(reply.payload) && r.step.store.selected == Some(reply.payload)
    ensures reply.Ok? ==> |r.step.store.items| == |st.items|
    ensures reply.Ok? ==> forall i :: 0 <= i < |st.items| ==>
              r.step.store.items[i] == (if st.items[i].id == id then reply.payload else st.items[i])
    ensures reply.Fail? ==> r.step.out.None? && r.step.store.items == st.items
    ensures reply.Fail? ==> r.step.store.selected == st.selected && r.step.store.error == Some(FriendlyMessage(reply.err))
  {
    Sent(PatchRequest(id, patch), Update(st, id, reply, CareSessionId))
  }

  /** The patch `markAsPaid` sends: `{paid: true}` and nothing else. */
  const PaidPatch := CareSessionPatch(None, None, None, None, Some(true))

  /** `markAsPaid(id)` is `updateSession(id, {paid: true})`. */
  function MarkAsPaid(st: Store<CareSession>, id: string, reply: Reply<CareSession>): (r: Sent)
    ensures r.request.id == id && r.request.patch.paid == Some(true)
    ensures r.request.patch.startTime.None? && r.request.patch.endTime.None?
    ensures r.request.patch.status.None? && r.request.patch.notes.None?
    ensures r == UpdateSession(st, id, PaidPatch, reply)
  {
    UpdateSession(st, id, PaidPatch, reply)
  }

  /** When the server honours the patch, every cached copy of that session, and the selection, is paid. */
  lemma MarkAsPaidSetsPaid(st: Store<CareSession>, id: string, x: CareSession)
    requires x.id == id && x.paid
    ensures forall s :: s in MarkAsPaid(st, id, Ok(x)).step.store.items && s.id == id ==> s.paid
    ensures MarkAsPaid(st, id, Ok(x)).step.store.selected == Some(x)
  {
    var items := MarkAsPaid(st, id, Ok(x)).step.store.items;
    forall s | s in items && s.id == id
      ensures s.paid
    {
      var i :| 0 <= i < |items| && items[i] == s;
      if st.items[i].id != id {
        assert items[i] == st.items[i];
      }
    }
  }

  function DeleteSession(st: Store<CareSession>, id: string, reply: Reply<()>): (r: Step<CareSession, bool>)
    ensures !r.store.isLoading
    ensures r.out <==> reply.Ok?
    ensures reply.Ok? ==> forall s :: s in r.store.items <==> s in st.items && s.id != id
    ensures reply.Ok? ==> Seqs.IsSubseq(r.store.items, st.items)
    ensures reply.Ok? ==> forall s :: multiset(r.store.items)[s] == if s.id != id then multiset(st.items)[s] else 0
    ensures reply.Fail? ==> r.store.items == st.items && r.store.error == Some(FriendlyMessage(reply.err))
  {
    Delete(st, id, reply, CareSessionId)
  }

  function SelectSession(st: Store<CareSession>, session: Option<CareSession>): (r: Store<CareSession>)
    ensures r.selected == session && r.items == st.items
  {
    SelectItem(st, session)
  }
}

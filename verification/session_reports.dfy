/**
  `SessionReportsService`: the entity store for session reports. Its list
  fetch hands the scoping policy the pets cache (owners) or the care-session
  cache (sitters), as `AuxKeys` dispatches.
*/
module SessionReports {
  import opened Wrappers
  import opened Model
  import opened Transport
  import opened ErrorHandler
  import opened EntityStore
  import opened RoleFilter
  import opened ScopeKeys
  import Seqs

  function ReportId(r: SessionReport): string {
    r.id
  }

  function GetReports(st: Store<SessionReport>, user: Option<User>, cachedPets: seq<Pet>,
                      cachedSessions: seq<CareSession>, reply: Reply<seq<SessionReport>>)
    : (r: Step<SessionReport, seq<SessionReport>>)
    ensures !r.store.isLoading && r.store.selected == st.selected
    ensures reply.Ok? ==> r.out == r.store.items && r.store.error.None?
    ensures reply.Ok? ==> Seqs.IsSubseq(r.store.items, reply.payload)
    ensures reply.Ok? ==> r.store.items == FilterSessionReports(user, reply.payload, AuxKeys(user, cachedPets, cachedSessions).0, AuxKeys(user, cachedPets, cachedSessions).1)
    ensures reply.Ok? ==> forall x :: x in r.store.items <==>
              (x in reply.payload && ReportVisible(user, AuxKeys(user, cachedPets, cachedSessions).0,
                                                  AuxKeys(user, cachedPets, cachedSessions).1, x))
    ensures reply.Fail? ==> r.out == [] && r.store.items == st.items && r.store.error == Some(FriendlyMessage(reply.err))
  {
    var keys := AuxKeys(user, cachedPets, cachedSessions);
    FetchAll(st, reply, (xs: seq<SessionReport>) => FilterSessionReports(user, xs, keys.0, keys.1))
  }

  /** What `getReports` stores, role by role, in terms of the caches it reads. */
  lemma GetReportsByRole(st: Store<SessionReport>, u: User, cachedPets: seq<Pet>,
                         cachedSessions: seq<CareSession>, reports: seq<SessionReport>, x: SessionReport)
    ensures u.role == Admin ==> GetReports(st, Some(u), cachedPets, cachedSessions, Ok(reports)).store.items == reports
    ensures u.role == Owner ==>
              (x in GetReports(st, Some(u), cachedPets, cachedSessions, Ok(reports)).store.items <==>
                 x in reports && x.petId != "" && exists p :: p in cachedPets && p.id == x.petId)
    ensures u.role == Sitter ==>
              (x in GetReports(st, Some(u), cachedPets, cachedSessions, Ok(reports)).store.items <==>
                 x in reports && x.careSessionId != "" && exists s :: s in cachedSessions && s.id == x.careSessionId)
    ensures u.role in {Therapist, PatientRole, Unrecognized} ==>
              GetReports(st, Some(u), cachedPets, cachedSessions, Ok(reports)).store.items == []
  {
  }

  /** `getReportsByPetId`: unscoped, and the cache is left alone. */
  function GetReportsByPetId(st: Store<SessionReport>, reply: Reply<seq<SessionReport>>)
    : (r: Step<SessionReport, seq<SessionReport>>)
    ensures !r.store.isLoading && r.store.items == st.items && r.store.selected == st.selected
    ensures reply.Ok? ==> r.out == reply.payload
    ensures reply.Fail? ==> r.out == [] && r.store.error == Some(FriendlyMessage(reply.err))
  {
    FetchUncached(st, reply, (xs: seq<SessionReport>) => xs)
  }

  /** `getReportsBySessionId`: unscoped, and the cache is left alone. */
  function GetReportsBySessionId(st: Store<SessionReport>, reply: Reply<seq<SessionReport>>)
    : (r: Step<SessionReport, seq<SessionReport>>)
    ensures !r.store.isLoading && r.store.items == st.items && r.store.selected == st.selected
    ensures reply.Ok? ==> r.out == reply.payload
    ensures reply.Fail? ==> r.out == [] && r.store.error == Some(FriendlyMessage(reply.err))
  {
    FetchUncached(st, reply, (xs: seq<SessionReport>) => xs)
  }

  function GetReportById(st: Store<SessionReport>, reply: Reply<SessionReport>)
    : (r: Step<SessionReport, Option<SessionReport>>)
    ensures !r.store.isLoading && r.store.items == st.items
    ensures reply.Ok? ==> r.out == Some(reply.payload) && r.store.selected == Some(reply.payload)
    ensures reply.Fail? ==> r.out.None? && r.store.selected == st.selected && r.store.error == Some(FriendlyMessage(reply.err))
  {
    FetchById(st, reply)
  }

  function CreateReport(st: Store<SessionReport>, reply: Reply<SessionReport>)
    : (r: Step<SessionReport, Option<SessionReport>>)
    ensures !r.store.isLoading
    ensures reply.Ok? ==> r.out == Some(reply.payload) && r.store.items == st.items + [reply.payload]
    ensures reply.Fail? ==> r.out.None? && r.store.items == st.items && r.store.error == Some(FriendlyMessage(reply.err))
  {
    Create(st, reply)
  }

  function UpdateReport(st: Store<SessionReport>, id: string, reply: Reply<SessionReport>)
    : (r: Step<SessionReport, Option<SessionReport>>)
    ensures !r.store.isLoading
    ensures reply.Ok? ==> r.store.selected == Some(reply.payload) && |r.store.items| == |st.items|
    ensures reply.Ok? ==> forall i :: 0 <= i < |st.items| ==>
              r.store.items[i] == (if st.items[i].id == id then reply.payload else st.items[i])
    ensures reply.Fail? ==> r.out.None? && r.store.items == st.items && r.store.selected == st.selected
  {
    Update(st, id, reply, ReportId)
  }

  function DeleteReport(st: Store<SessionReport>, id: string, reply: Reply<()>): (r: Step<SessionReport, bool>)
    ensures !r.store.isLoading
    ensures r.out <==> reply.Ok?
    ensures reply.Ok? ==> forall x :: x in r.store.items <==> x in st.items && x.id != id
    ensures reply.Ok? ==> Seqs.IsSubseq(r.store.items, st.items)
    ensures reply.Ok? ==> forall x :: multiset(r.store.items)[x] == if x.id != id then multiset(st.items)[x] else 0
    ensures reply.Ok? && st.selected.Some? && st.selected.value.id == id ==> r.store.selected.None?
    ensures reply.Fail? ==> r.store.items == st.items && r.store.error == Some(FriendlyMessage(reply.err))
  {
    Delete(st, id, reply, ReportId)
  }

  function SelectReport(st: Store<SessionReport>, report: Option<SessionReport>): (r: Store<SessionReport>)
    ensures r.selected == report && r.items == st.items
  {
    SelectItem(st, report)
  }
}

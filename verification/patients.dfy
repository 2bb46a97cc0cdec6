/**
  `PatientsService`: the hand-written store for therapy patients, keyed by
  numeric id and scoped by `FilterPatients`.
*/
module Patients {
  import opened Wrappers
  import opened Model
  import opened Transport
  import opened ErrorHandler
  import opened EntityStore
  import opened ManualStore
  import opened RoleFilter
  import Seqs

  function PatientId(p: Patient): int {
    p.id
  }

  /** `getPatients`: keeps exactly the fetched patients the user may see. */
  function GetPatients(st: Store<Patient>, user: Option<User>, reply: Reply<seq<Patient>>): (r: Step<Patient, seq<Patient>>)
    ensures !r.store.isLoading && r.store.selected == st.selected
    ensures reply.Ok? ==> r.out == r.store.items && r.store.error.None?
    ensures reply.Ok? ==> Seqs.IsSubseq(r.store.items, reply.payload)
    ensures reply.Ok? ==> r.store.items == FilterPatients(user, reply.payload)
    ensures reply.Ok? ==> forall p :: p in r.store.items <==> p in reply.payload && PatientVisible(user, p)
    ensures reply.Fail? ==> r.out == [] && r.store.items == st.items && r.store.error == Some(FriendlyMessage(reply.err))
  {
    FetchAll(st, reply, (xs: seq<Patient>) => FilterPatients(user, xs))
  }

  /** A logged-in patient's list holds at most records with a single id, their own. */
  lemma PatientListIsOwnRecord(st: Store<Patient>, u: User, reply: Reply<seq<Patient>>, a: Patient, b: Patient)
    requires u.role == PatientRole && reply.Ok?
    requires a in GetPatients(st, Some(u), reply).store.items
    requires b in GetPatients(st, Some(u), reply).store.items
    ensures a.id == b.id
  {
    PatientSeesOneId(Some(u), reply.payload, a, b);
  }

  function GetPatientById(st: Store<Patient>, reply: Reply<Patient>): (r: Step<Patient, Option<Patient>>)
    ensures !r.store.isLoading && r.store.items == st.items
    ensures reply.Ok? ==> r.out == Some(reply.payload) && r.store.selected == Some(reply.payload)
    ensures reply.Fail? ==> r.out.None? && r.store.selected == st.selected && r.store.error == Some(FriendlyMessage(reply.err))
  {
    FetchById(st, reply)
  }

  /** `createPatient`: appends on success; on failure the error is re-thrown and loading stays on. */
  function CreatePatient(st: Store<Patient>, reply: Reply<Patient>): (r: Step<Patient, Emission<Patient>>)
    ensures reply.Ok? ==> r.store.items == st.items + [reply.payload] && !r.store.isLoading
    ensures reply.Fail? ==> r.out == Raised(reply.err) && r.store.items == st.items && r.store.isLoading
  {
    CreateRethrowing(st, reply)
  }

  /** `updatePatient(id, ...)`: replaces the patients with that id; the selection follows only if it had that id. */
  function UpdatePatient(st: Store<Patient>, id: int, reply: Reply<Patient>): (r: Step<Patient, Emission<Patient>>)
    ensures reply.Ok? ==> |r.store.items| == |st.items|
    ensures reply.Ok? ==> forall i :: 0 <= i < |st.items| ==>
              r.store.items[i] == (if st.items[i].id == id then reply.payload else st.items[i])
    ensures reply.Ok? ==> r.store.selected == (if st.selected.Some? && st.selected.value.id == id then Some(reply.payload) else st.selected)
    ensures reply.Fail? ==> r.out == Raised(reply.err) && r.store.items == st.items && r.store.isLoading
  {
    UpdateRethrowing(st, id, reply, PatientId)
  }

  function DeletePatient(st: Store<Patient>, id: int, reply: Reply<()>): (r: Step<Patient, bool>)
    ensures !r.store.isLoading
    ensures r.out <==> reply.Ok?
    ensures reply.Ok? ==> forall p :: p in r.store.items <==> p in st.items && p.id != id
    ensures reply.Ok? ==> Seqs.IsSubseq(r.store.items, st.items)
    ensures reply.Ok? ==> forall p :: multiset(r.store.items)[p] == if p.id != id then multiset(st.items)[p] else 0
    ensures reply.Ok? && st.selected.Some? && st.selected.value.id == id ==> r.store.selected.None?
    ensures reply.Fail? ==> r.store.items == st.items && r.store.error == Some(FriendlyMessage(reply.err))
  {
    Delete(st, id, reply, PatientId)
  }

  function SelectPatient(st: Store<Patient>, patient: Option<Patient>): (r: Store<Patient>)
    ensures r.selected == patient && r.items == st.items
  {
    SelectItem(st, patient)
  }

  /** Updating a patient and then deleting that id leaves the same list as deleting straight away. */
  lemma UpdateThenDeletePatient(st: Store<Patient>, id: int, x: Patient)
    requires x.id == id
    ensures DeletePatient(UpdatePatient(st, id, Ok(x)).store, id, Ok(())).store.items
            == DeletePatient(st, id, Ok(())).store.items
  {
    ReplaceThenFilter(st.items, id, x, PatientId);
  }
}
